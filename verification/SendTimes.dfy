/**
 When what the limiter admits reaches the backend: requests may be held up on the way,
 and how much of the limiter's promise is left then.
 */
module SendTimes {
  import opened Common
  import opened TokenBucket
  import opened RateLimiting
  import opened ListFilter
  import opened Gateway
  import opened Pipeline
  import opened LoadBound
  import W = Witnesses

  /** Messages sent to the backend for a subject in [a, b]. */
  function SentDuring(log: seq<Entry>, subject: string, a: real, b: real): nat {
    if log == [] then 0
    else
      var last := log[|log| - 1];
      SentDuring(log[..|log| - 1], subject, a, b)
      + if last.identity.subject == subject && a <= last.sent <= b then 1 else 0
  }

  /** No request spends longer than delay between the limiter and the backend. */
  predicate Prompt(log: seq<Entry>, delay: real) {
    forall entry | entry in log :: entry.at <= entry.sent <= entry.at + delay
  }

  lemma {:induction false} SentWereAdmitted(log: seq<Entry>, subject: string, a: real, b: real, delay: real)
    requires Prompt(log, delay)
    ensures SentDuring(log, subject, a, b) <= ForwardsDuring(log, subject, a - delay, b)
  {
    if log != [] {
      SentWereAdmitted(log[..|log| - 1], subject, a, b, delay);
      assert log[|log| - 1] in log;
    }
  }

  /** What the limiter is asked comes in the order of the clock. */
  lemma {:induction false} OpsInClockOrder(cfg: Settings, es: seq<Event>, t: real)
    requires Legal(cfg, es) && InClockOrder(es) && Until(es, t)
    ensures var ops := After(cfg, es).ops;
            RateLimiting.InOrder(ops) && forall i | 0 <= i < |ops| :: ops[i].now <= t
  {
    hide Apply, Enabled;
    if es != [] {
      var prev, e := es[..|es| - 1], es[|es| - 1];
      OneLessInOrder(es, t);
      OpsInClockOrder(cfg, prev, if Timed(e) then e.now else t);
      OpStep(cfg, After(cfg, prev), e);
    }
  }

  lemma OpStep(cfg: Settings, s: Pipeline.State, e: Event)
    requires Enabled(cfg, s, e)
    ensures Apply(cfg, s, e).ops == s.ops
            || (Timed(e) && |Apply(cfg, s, e).ops| == |s.ops| + 1 && Apply(cfg, s, e).ops[..|s.ops|] == s.ops
                && Apply(cfg, s, e).ops[|s.ops|].now == e.now)
  {
    hide Admit, Limiter, HandleRequest, SessionCheck, LimitParams;
  }

  lemma {:induction false} SomeEnd(es: seq<Event>) returns (t: real)
    ensures Until(es, t)
  {
    if es == [] {
      t := 0.0;
    } else {
      var n := |es| - 1;
      t := SomeEnd(es[..n]);
      t := if Timed(es[n]) then Max(t, es[n].now) else t;
      assert forall i | 0 <= i < n :: es[..n][i] == es[i];
    }
  }

  /** A run of a gateway whose limiter has these parameters and an invisible sweep, under
      a clock that does not go back, with no request held up for longer than delay. */
  ghost predicate PromptRun(cfg: Settings, p: TokenBucket.Params, es: seq<Event>, delay: real) {
    && LimitParams(cfg) == Some(p) && (p.capacity < 1.0 || RefillsWithin(p, cfg.limit.value.evictAfter))
    && Legal(cfg, es) && InClockOrder(es) && Prompt(After(cfg, es).log, delay)
  }

  /** Backend load by time of sending: what a request may spend between the limiter and
      the backend lengthens the stretch by as much. */
  lemma SentLoadBound(cfg: Settings, p: TokenBucket.Params, es: seq<Event>, subject: string, a: real, b: real,
                      delay: real)
    requires PromptRun(cfg, p, es, delay) && subject != "" && a <= b && delay >= 0.0
    ensures SentDuring(After(cfg, es).log, subject, a, b) as real <= p.capacity + Accrued(p.rate, b - a + delay)
  {
    hide Accrued, Legal, After, PromptRun, Prompt, SentDuring, ForwardsDuring;
    IsPrompt(cfg, p, es, delay);
    AdmittedBound(cfg, p, es, subject, a - delay, b, delay);
    SentWereAdmitted(After(cfg, es).log, subject, a, b, delay);
    assert b - (a - delay) == b - a + delay;
  }

  lemma IsPrompt(cfg: Settings, p: TokenBucket.Params, es: seq<Event>, delay: real)
    requires PromptRun(cfg, p, es, delay)
    ensures Legal(cfg, es) && Prompt(After(cfg, es).log, delay)
  {
  }

  lemma AdmittedBound(cfg: Settings, p: TokenBucket.Params, es: seq<Event>, subject: string, a: real, b: real,
                      delay: real)
    requires PromptRun(cfg, p, es, delay) && subject != "" && a <= b
    ensures ForwardsDuring(After(cfg, es).log, subject, a, b) as real <= p.capacity + Accrued(p.rate, b - a)
  {
    var t := SomeEnd(es);
    OpsInClockOrder(cfg, es, t);
    hide Accrued, Legal, After, LimitParams, RefillsWithin, Prompt, InClockOrder, ForwardsDuring;
    BackendLoadBound(cfg, es, subject, a, b);
  }

  lemma NothingIsGranted(p: TokenBucket.Params, evictAfter: real, ops: seq<Op>, subject: string, a: real, b: real)
    requires p.Sane() && p.capacity < 1.0
    ensures GrantedDuring(p, evictAfter, ops, subject, a, b) == 0
  {
    hide Serve, TimesOf, AnswersOf, GrantsDuring;
    BurstBelowOneGrantsNothing(p, Some(evictAfter), ops);
    RefusedGrantNothing(ops, Serve(p, Some(evictAfter), ops).answers, subject, a, b);
  }

  lemma NothingIsForwarded(cfg: Settings, es: seq<Event>, subject: string, a: real, b: real)
    requires Legal(cfg, es) && LimitParams(cfg).Some? && LimitParams(cfg).value.capacity < 1.0 && subject != ""
    ensures ForwardsDuring(After(cfg, es).log, subject, a, b) == 0
  {
    hide After, Legal, ForwardsDuring, GrantedDuring, LimitParams, Waiting;
    RunsArePaid(cfg, es, subject, a, b);
    NothingIsGranted(LimitParams(cfg).value, cfg.limit.value.evictAfter, After(cfg, es).ops, subject, a, b);
  }

  /** With a burst below one token nothing is granted, and nothing sent. */
  lemma NothingIsSent(cfg: Settings, p: TokenBucket.Params, es: seq<Event>, subject: string, a: real, b: real,
                      delay: real)
    requires PromptRun(cfg, p, es, delay) && subject != "" && p.capacity < 1.0
    ensures SentDuring(After(cfg, es).log, subject, a, b) == 0
  {
    hide After, Legal, Prompt, SentDuring, ForwardsDuring, LimitParams;
    NothingIsForwarded(cfg, es, subject, a - delay, b);
    SentWereAdmitted(After(cfg, es).log, subject, a, b, delay);
  }

  lemma {:induction false} RefusedGrantNothing(ops: seq<Op>, answers: seq<bool>, subject: string, a: real, b: real)
    requires |ops| == |answers| && forall i | 0 <= i < |ops| :: answers[i] == ops[i].Tick?
    ensures GrantsDuring(TimesOf(ops, subject), AnswersOf(ops, answers, subject), a, b) == 0
  {
    if ops != [] {
      var n := |ops| - 1;
      RefusedGrantNothing(ops[..n], answers[..n], subject, a, b);
      var ts, ds := TimesOf(ops[..n], subject), AnswersOf(ops[..n], answers[..n], subject);
      if ops[n].Request? && ops[n].subject == subject {
        assert (ts + [ops[n].now])[..|ts|] == ts && (ds + [answers[n]])[..|ds|] == ds;
      } else {
        assert ts + [] == ts && ds + [] == ds;
      }
    }
  }

  /** The plain bound, by time of sending: burst plus refill over the stretch itself. */
  ghost predicate Bounded(p: TokenBucket.Params, delay: real) {
    forall cfg: Settings, es: seq<Event>, subject: string, a: real, b: real
      | PromptRun(cfg, p, es, delay) && subject != "" && a <= b ::
      SentDuring(After(cfg, es).log, subject, a, b) as real <= p.capacity + Accrued(p.rate, b - a)
  }

  // ------------------------------------------------- requests that are held up

  /** A gateway that knows only Alice, with these limits and an invisible sweep. */
  function OpenTo(p: TokenBucket.Params): (cfg: Settings)
    requires p.Sane()
    ensures LimitParams(cfg) == Some(p) && RefillsWithin(p, cfg.limit.value.evictAfter)
  {
    assert Accrued(p.rate, p.capacity / p.rate) == p.capacity;
    Settings({}, (header: string) => Some(W.ALICE), Some(Config(p.rate, p.capacity, p.capacity / p.rate)), None,
             (pattern: string, name: string) => false, map[], 0.0)
  }

  const NOTE := W.PostOf("s", Message(false, "notifications/progress", Absent, true))

  /** The earliest time at which the k-th request of a full bucket's is granted. */
  function ReadyAt(p: TokenBucket.Params, k: nat): real
    requires p.Sane()
  {
    Max(0.0, (k as real - p.capacity) / p.rate)
  }

  /** When the bucket is opened: early enough to be full again at time 0. */
  function OpenedAt(p: TokenBucket.Params): (t: real)
    requires p.Sane()
    ensures t <= 0.0 && Accrued(p.rate, 0.0 - t) == 1.0
  {
    -1.0 / p.rate
  }

  /** The bucket after k such requests, and one that came just long enough before. */
  function BucketAfter(p: TokenBucket.Params, k: nat): TokenBucket.State
    requires p.Sane()
  {
    if k == 0 then TokenBucket.State(p.capacity - 1.0, OpenedAt(p), OpenedAt(p))
    else TokenBucket.State(Max(0.0, p.capacity - k as real), ReadyAt(p, k), ReadyAt(p, k))
  }

  lemma AccruedInverse(rate: real, x: real)
    requires rate > 0.0
    ensures Accrued(rate, x / rate) == x
  {
  }

  lemma ReadyAtGrows(p: TokenBucket.Params, k: nat)
    requires p.Sane()
    ensures 0.0 <= ReadyAt(p, k) <= ReadyAt(p, k + 1)
    ensures Accrued(p.rate, ReadyAt(p, k)) == Max(0.0, k as real - p.capacity)
  {
    AccruedInverse(p.rate, k as real - p.capacity);
    AccruedInverse(p.rate, (k + 1) as real - p.capacity);
    var x, y := (k as real - p.capacity) / p.rate, ((k + 1) as real - p.capacity) / p.rate;
    assert y - x == 1.0 / p.rate;
    if k as real >= p.capacity {
      assert x >= 0.0;
    } else {
      assert x < 0.0;
    }
  }

  lemma NextIsGranted(p: TokenBucket.Params, k: nat)
    requires p.Sane() && p.capacity >= 1.0
    ensures Step(p, BucketAfter(p, k), ReadyAt(p, k + 1)) == (BucketAfter(p, k + 1), true)
  {
    hide Accrued, ReadyAt, OpenedAt;
    var last := if k == 0 then OpenedAt(p) else ReadyAt(p, k);
    var now := ReadyAt(p, k + 1);
    ReadyAtGrows(p, k);
    ReadyAtGrows(p, k + 1);
    AccruedNonNegative(p.rate, 0.0);
    if k == 0 {
      AccruedSplits(p.rate, now, 0.0, last);
    } else {
      AccruedSplits(p.rate, now, last, 0.0);
    }
    assert now - 0.0 == now && last - 0.0 == last;
    if now == last {
      assert Accrued(p.rate, now) == Accrued(p.rate, last);
    }
  }

  /** Alice's bucket after k requests and the one before. */
  predicate Took(p: TokenBucket.Params, ops: seq<Op>, k: nat)
    requires p.Sane()
  {
    var table := Limiter(OpenTo(p), ops);
    W.ALICE.subject in table && table[W.ALICE.subject] == BucketAfter(p, k)
  }

  lemma Granted(p: TokenBucket.Params, ops: seq<Op>, k: nat)
    requires p.Sane() && p.capacity >= 1.0 && Took(p, ops, k)
    ensures AllowIn(p, Limiter(OpenTo(p), ops), ReadyAt(p, k + 1), "alice").1
    ensures Took(p, ops + [Op.Request(ReadyAt(p, k + 1), "alice")], k + 1)
  {
    NextIsGranted(p, k);
    var op := Op.Request(ReadyAt(p, k + 1), "alice");
    assert (ops + [op])[..|ops|] == ops;
    hide Step, BucketAfter, ReadyAt;
  }

  lemma FirstGranted(p: TokenBucket.Params)
    requires p.Sane() && p.capacity >= 1.0
    ensures AllowIn(p, Limiter(OpenTo(p), []), OpenedAt(p), "alice").1
    ensures Took(p, [] + [Op.Request(OpenedAt(p), "alice")], 0)
  {
    hide OpenedAt, Accrued;
    var op := Op.Request(OpenedAt(p), "alice");
    assert ([] + [op])[..0] == [];
  }

  /** A request of Alice's that the limiter grants. */
  lemma LetIn(p: TokenBucket.Params, s: Pipeline.State, q: nat, now: real, req: Request)
    requires p.Sane() && q !in s.tickets && req.origin == "" && req.version == ""
    requires AllowIn(p, Limiter(OpenTo(p), s.ops), now, "alice").1
    ensures Enabled(OpenTo(p), s, Arrive(q, now, req))
    ensures Apply(OpenTo(p), s, Arrive(q, now, req))
            == s.(ops := s.ops + [Op.Request(now, "alice")],
                  tickets := s.tickets[q := Ticket(req, W.ALICE, now, Admitted)])
  {
    hide Limiter, AllowIn, LimitParams;
    ChainOrder(OpenTo(p), Limiter(OpenTo(p), s.ops), now, req);
    hide Admit;
  }

  /** Everything in the log is Alice's, sent in [a, b], and promptly. */
  predicate Sends(log: seq<Entry>, a: real, b: real, delay: real) {
    forall entry | entry in log ::
      entry.identity == W.ALICE && a <= entry.sent <= b && entry.at <= entry.sent <= entry.at + delay
  }

  lemma {:induction false} SendsCount(log: seq<Entry>, a: real, b: real, delay: real)
    requires Sends(log, a, b, delay)
    ensures Prompt(log, delay) && SentDuring(log, "alice", a, b) == |log|
  {
    if log != [] {
      var n := |log| - 1;
      assert log[n] in log;
      SendsCount(log[..n], a, b, delay);
    }
  }

  /** n requests of Alice's are past the limiter, each as early as it could be, and the
      first k of them have been sent. */
  ghost predicate HeldUp(p: TokenBucket.Params, s: Pipeline.State, n: nat, k: nat)
    requires p.Sane()
  {
    && "s" in s.store && s.store["s"].subject == "alice" && |s.log| == k
    && (forall q | q in s.tickets :: q <= n)
    && (forall q | k < q <= n :: q in s.tickets && s.tickets[q] == Ticket(NOTE, W.ALICE, ReadyAt(p, q), Admitted))
    && Took(p, s.ops, n)
  }

  lemma OneMoreHeldUp(p: TokenBucket.Params, s: Pipeline.State, n: nat, k: nat) returns (t: Pipeline.State)
    requires p.Sane() && p.capacity >= 1.0 && HeldUp(p, s, n, k)
    ensures var e := Arrive(n + 1, ReadyAt(p, n + 1), NOTE);
            Enabled(OpenTo(p), s, e) && t == Apply(OpenTo(p), s, e) && HeldUp(p, t, n + 1, k) && t.log == s.log
  {
    Granted(p, s.ops, n);
    hide Apply, Enabled, Took, Limiter, Admit, AllowIn, ReadyAt;
    LetIn(p, s, n + 1, ReadyAt(p, n + 1), NOTE);
    t := Apply(OpenTo(p), s, Arrive(n + 1, ReadyAt(p, n + 1), NOTE));
  }

  /** The next one goes through: session check, session update, sending. */
  lemma SendOne(p: TokenBucket.Params, s: Pipeline.State, n: nat, k: nat, now: real)
    returns (s1: Pipeline.State, s2: Pipeline.State, s3: Pipeline.State, s4: Pipeline.State)
    requires p.Sane() && HeldUp(p, s, n, k) && k < n
    ensures var cfg, q := OpenTo(p), k + 1;
            && Enabled(cfg, s, LookUp(q)) && s1 == Apply(cfg, s, LookUp(q))
            && Enabled(cfg, s1, ReadClock(q, now)) && s2 == Apply(cfg, s1, ReadClock(q, now))
            && Enabled(cfg, s2, TouchSession(q)) && s3 == Apply(cfg, s2, TouchSession(q))
            && Enabled(cfg, s3, Finish(q, now, Have, ReplyError(0)))
            && s4 == Apply(cfg, s3, Finish(q, now, Have, ReplyError(0)))
    ensures HeldUp(p, s4, n, k + 1) && |s4.log| == |s.log| + 1 && s4.log[..k] == s.log
    ensures s4.log[k].identity == W.ALICE && s4.log[k].at == ReadyAt(p, k + 1) && s4.log[k].sent == now
  {
    hide Limiter, Admit, Took, ReadyAt, LimitParams, OpenTo;
    var cfg, q := OpenTo(p), k + 1;
    s1 := Apply(cfg, s, LookUp(q));
    s2 := Apply(cfg, s1, ReadClock(q, now));
    s3 := Apply(cfg, s2, TouchSession(q));
    s4 := Apply(cfg, s3, Finish(q, now, Have, ReplyError(0)));
  }

  /** Where a run has come, and by when. */
  ghost predicate CameTo(p: TokenBucket.Params, es: seq<Event>, s: Pipeline.State, t: real)
    requires p.Sane()
  {
    Legal(OpenTo(p), es) && After(OpenTo(p), es) == s && InClockOrder(es) && Until(es, t)
  }

  lemma GoOn(p: TokenBucket.Params, es: seq<Event>, s: Pipeline.State, t: real, e: Event, later: real)
    requires p.Sane() && CameTo(p, es, s, t) && Enabled(OpenTo(p), s, e) && t <= later && (Timed(e) ==> e.now == later)
    ensures CameTo(p, es + [e], Apply(OpenTo(p), s, e), later)
  {
    hide Apply, Enabled, OpenTo;
    OneMore(OpenTo(p), es, e);
    OneMoreInOrder(es, e, later);
  }

  lemma ReadyAtStart(p: TokenBucket.Params)
    requires p.Sane()
    ensures ReadyAt(p, 0) == 0.0
  {
  }

  lemma Nowhere(p: TokenBucket.Params, t: real)
    requires p.Sane()
    ensures CameTo(p, [], INITIAL, t)
  {
  }

  /** Alice's session is minted. */
  lemma Minted(p: TokenBucket.Params, s: Pipeline.State, t: real) returns (s': Pipeline.State)
    requires p.Sane() && s.tickets == map[0 := Ticket(W.HELLO, W.ALICE, t, Admitted)] && s.log == []
    requires Took(p, s.ops, 0)
    ensures var e := Initialize(0, t, "s", true);
            Enabled(OpenTo(p), s, e) && s' == Apply(OpenTo(p), s, e) && HeldUp(p, s', 0, 0) && s'.log == []
  {
    hide Took, ReadyAt, Accrued, Limiter, Admit, OpenTo;
    s' := Apply(OpenTo(p), s, Initialize(0, t, "s", true));
  }

  lemma FirstSession(p: TokenBucket.Params) returns (es: seq<Event>, s: Pipeline.State)
    requires p.Sane() && p.capacity >= 1.0
    ensures CameTo(p, es, s, 0.0) && HeldUp(p, s, 0, 0) && s.log == []
  {
    hide CameTo, HeldUp, Limiter, Admit, Took, AllowIn, OpenTo, OpenedAt, Accrued, Apply, Enabled;
    var t := OpenedAt(p);
    var first, then_ := Arrive(0, t, W.HELLO), Initialize(0, t, "s", true);
    Nowhere(p, t);
    FirstGranted(p);
    LetIn(p, INITIAL, 0, t, W.HELLO);
    GoOn(p, [], INITIAL, t, first, t);
    var s1 := INITIAL.(ops := [] + [Op.Request(t, "alice")],
                       tickets := map[0 := Ticket(W.HELLO, W.ALICE, t, Admitted)]);
    assert Apply(OpenTo(p), INITIAL, first) == s1;
    s := Minted(p, s1, t);
    GoOn(p, [] + [first], s1, t, then_, t);
    es := [] + [first] + [then_];
    CameLater(p, es, s, t, 0.0);
  }

  lemma CameLater(p: TokenBucket.Params, es: seq<Event>, s: Pipeline.State, t: real, later: real)
    requires p.Sane() && CameTo(p, es, s, t) && t <= later
    ensures CameTo(p, es, s, later)
  {
    hide OpenTo;
  }

  /** n requests are let in, each as early as it can be, and wait. */
  lemma {:induction false} Gather(p: TokenBucket.Params, n: nat) returns (es: seq<Event>, s: Pipeline.State)
    requires p.Sane() && p.capacity >= 1.0
    ensures CameTo(p, es, s, ReadyAt(p, n)) && HeldUp(p, s, n, 0) && |s.log| == 0
  {
    hide CameTo, HeldUp, Apply, Enabled, ReadyAt, OpenTo, Accrued;
    ReadyAtGrows(p, if n == 0 then 0 else n - 1);
    if n == 0 {
      ReadyAtStart(p);
      es, s := FirstSession(p);
    } else {
      es, s := Gather(p, n - 1);
      var t := OneMoreHeldUp(p, s, n - 1, 0);
      GoOn(p, es, s, ReadyAt(p, n - 1), Arrive(n, ReadyAt(p, n), NOTE), ReadyAt(p, n));
      es, s := es + [Arrive(n, ReadyAt(p, n), NOTE)], t;
    }
  }

  /** One of them is sent. */
  lemma Send(p: TokenBucket.Params, es: seq<Event>, s: Pipeline.State, t: real, n: nat, k: nat, a: real, now: real,
             delay: real) returns (more: seq<Event>, s': Pipeline.State)
    requires p.Sane() && CameTo(p, es, s, t) && HeldUp(p, s, n, k) && k < n && Sends(s.log, a, now, delay)
    requires t <= now && a <= now && ReadyAt(p, k + 1) <= now <= ReadyAt(p, k + 1) + delay
    ensures CameTo(p, more, s', now) && HeldUp(p, s', n, k + 1) && Sends(s'.log, a, now, delay)
  {
    var log := s.log;
    assert |log| == k;
    hide CameTo, HeldUp, Apply, Enabled, ReadyAt, OpenTo;
    var s1, s2, s3;
    s1, s2, s3, s' := SendOne(p, s, n, k, now);
    GoOn(p, es, s, t, LookUp(k + 1), now);
    GoOn(p, es + [LookUp(k + 1)], s1, now, ReadClock(k + 1, now), now);
    more := es + [LookUp(k + 1)] + [ReadClock(k + 1, now)];
    GoOn(p, more, s2, now, TouchSession(k + 1), now);
    more := more + [TouchSession(k + 1)];
    var e := Finish(k + 1, now, Have, ReplyError(0));
    GoOn(p, more, s3, now, e, now);
    more := more + [e];
    assert s'.log == log + [s'.log[k]];
  }

  /** The first k of n held-up requests are sent at one instant. */
  lemma {:induction false} Release(p: TokenBucket.Params, n: nat, k: nat, now: real)
    returns (es: seq<Event>, s: Pipeline.State)
    requires p.Sane() && p.capacity >= 1.0 && k <= n && ReadyAt(p, n) <= now
    ensures CameTo(p, es, s, now) && HeldUp(p, s, n, k) && Sends(s.log, now, now, now)
  {
    if k == 0 {
      es, s := Gather(p, n);
      CameLater(p, es, s, ReadyAt(p, n), now);
    } else {
      es, s := Release(p, n, k - 1, now);
      ReadyAtGrowsTo(p, k, n);
      es, s := Send(p, es, s, now, n, k - 1, now, now, now);
    }
  }

  lemma {:induction false} ReadyAtGrowsTo(p: TokenBucket.Params, k: nat, n: nat)
    requires p.Sane() && k <= n
    ensures 0.0 <= ReadyAt(p, k) <= ReadyAt(p, n)
    decreases n - k
  {
    ReadyAtGrows(p, k);
    if k < n {
      ReadyAtGrowsTo(p, k + 1, n);
    }
  }

  /** SentLoadBound is attained: whenever burst plus refill over the delay is a whole
      number, a run sends that many messages at one instant. */
  lemma SentLoadBoundIsAttained(p: TokenBucket.Params, delay: real, n: nat) returns (cfg: Settings, es: seq<Event>)
    requires p.Sane() && p.capacity >= 1.0 && delay >= 0.0 && p.capacity + Accrued(p.rate, delay) == n as real
    ensures PromptRun(cfg, p, es, delay) && SentDuring(After(cfg, es).log, "alice", delay, delay) == n
  {
    ReadyAtIs(p, n, delay);
    cfg := OpenTo(p);
    var s;
    es, s := Release(p, n, n, delay);
    SendsCount(s.log, delay, delay, delay);
  }

  /** When the n-th request is ready, for a burst and a refill that make up for it. */
  lemma ReadyAtIs(p: TokenBucket.Params, n: nat, t: real)
    requires p.Sane() && t >= 0.0
    ensures n as real <= p.capacity + Accrued(p.rate, t) ==> ReadyAt(p, n) <= t
    ensures n as real >= p.capacity + Accrued(p.rate, t) ==> ReadyAt(p, n) >= t
  {
    ReadyAtGrows(p, n);
    if ReadyAt(p, n) > t {
      AccruedMonotone(p.rate, t, ReadyAt(p, n));
    }
    if ReadyAt(p, n) < t {
      AccruedMonotone(p.rate, ReadyAt(p, n), t);
    }
    AccruedNonNegative(p.rate, t);
  }

  /** With any delay at all, and a burst of a token or more, a run that sends more than
      burst plus refill over some stretch: what fits into the stretch and the delay before
      it is held up to the start of the stretch, and the last request, if the refill is
      not done by then, closes the stretch. */
  lemma DelayBreaksTheBound(p: TokenBucket.Params, delay: real)
    returns (cfg: Settings, es: seq<Event>, a: real, b: real)
    requires p.Sane() && p.capacity >= 1.0 && delay > 0.0
    ensures PromptRun(cfg, p, es, delay) && a <= b
    ensures SentDuring(After(cfg, es).log, "alice", a, b) as real > p.capacity + Accrued(p.rate, b - a)
  {
    var x := p.capacity + Accrued(p.rate, delay);
    AccruedMonotone(p.rate, 0.0, delay);
    AccruedNonNegative(p.rate, delay);
    var m := x.Floor;
    cfg, a := OpenTo(p), delay;
    if m as real == x {
      b := delay;
      var cfg', es' := SentLoadBoundIsAttained(p, delay, m);
      cfg, es := cfg', es';
    } else {
      ReadyAtIs(p, m, delay);
      ReadyAtIs(p, m + 1, delay);
      b := ReadyAt(p, m + 1);
      es := HoldUpAndOneMore(p, m, delay);
      AccruedSplits(p.rate, b, delay, 0.0);
      ReadyAtGrows(p, m + 1);
    }
  }

  lemma HoldUpAndOneMore(p: TokenBucket.Params, m: nat, delay: real) returns (es: seq<Event>)
    requires p.Sane() && p.capacity >= 1.0 && delay > 0.0 && ReadyAt(p, m) <= delay <= ReadyAt(p, m + 1)
    ensures PromptRun(OpenTo(p), p, es, delay)
    ensures SentDuring(After(OpenTo(p), es).log, "alice", delay, ReadyAt(p, m + 1)) == m + 1
  {
    var b, s := ReadyAt(p, m + 1), INITIAL;
    es, s := Release(p, m, m, delay);
    es, s := LastOne(p, es, s, m, delay);
    assert |s.log| == m + 1;
    SendsCount(s.log, delay, b, delay);
  }

  lemma LastOne(p: TokenBucket.Params, es: seq<Event>, s: Pipeline.State, m: nat, delay: real)
    returns (more: seq<Event>, t: Pipeline.State)
    requires p.Sane() && p.capacity >= 1.0 && delay > 0.0 && delay <= ReadyAt(p, m + 1)
    requires CameTo(p, es, s, delay) && HeldUp(p, s, m, m) && Sends(s.log, delay, delay, delay)
    ensures CameTo(p, more, t, ReadyAt(p, m + 1)) && HeldUp(p, t, m + 1, m + 1)
    ensures Sends(t.log, delay, ReadyAt(p, m + 1), delay)
  {
    hide CameTo, HeldUp, Apply, Enabled, ReadyAt, OpenTo;
    var b := ReadyAt(p, m + 1);
    var s1 := OneMoreHeldUp(p, s, m, m);
    GoOn(p, es, s, delay, Arrive(m + 1, b, NOTE), b);
    more, t := Send(p, es + [Arrive(m + 1, b, NOTE)], s1, b, m + 1, m, delay, b, delay);
  }

  /** With nothing held up, or nothing granted, the plain bound holds. */
  lemma PlainBound(cfg: Settings, p: TokenBucket.Params, es: seq<Event>, subject: string, a: real, b: real, delay: real)
    requires p.Sane() && (delay == 0.0 || p.capacity < 1.0)
    requires PromptRun(cfg, p, es, delay) && subject != "" && a <= b
    ensures SentDuring(After(cfg, es).log, subject, a, b) as real <= p.capacity + Accrued(p.rate, b - a)
  {
    hide PromptRun, SentDuring, After;
    if p.capacity < 1.0 {
      NothingIsSent(cfg, p, es, subject, a, b, delay);
      AccruedNonNegative(p.rate, b - a);
    } else {
      SentLoadBound(cfg, p, es, subject, a, b, 0.0);
      assert b - a + 0.0 == b - a;
    }
  }

  /** Exactly when burst plus refill bounds what is sent in every stretch of time: nothing
      is held up between the limiter and the backend, or nothing is ever granted. */
  lemma BoundedIff(p: TokenBucket.Params, delay: real)
    requires p.Sane() && delay >= 0.0
    ensures Bounded(p, delay) <==> delay == 0.0 || p.capacity < 1.0
  {
    hide SentDuring, After, Accrued, Prompt, LimitParams, InClockOrder;
    if delay > 0.0 && p.capacity >= 1.0 {
      var cfg, es, a, b := DelayBreaksTheBound(p, delay);
    } else {
      forall cfg: Settings, es: seq<Event>, subject: string, a: real, b: real
        | PromptRun(cfg, p, es, delay) && subject != "" && a <= b
        ensures SentDuring(After(cfg, es).log, subject, a, b) as real <= p.capacity + Accrued(p.rate, b - a)
      {
        PlainBound(cfg, p, es, subject, a, b, delay);
      }
    }
  }
}
