/**
 The per-subject limiter of internal/server/ratelimit.go and the sweep that
 internal/server/server.go runs against it. The table of buckets with sweeps is
 compared with one that never forgets a bucket.
 */
module RateLimiting {
  import opened Common
  import opened TokenBucket

  // ------------------------------------------------------------ configuration

  /** The RateLimit block as the operator writes it. */
  datatype Config = Config(requestsPerSecond: real, burst: real, evictAfter: real)

  const DEFAULT_LIMITER_EVICTION := 1800.0

  predicate Whole(x: real) {
    x.Floor as real == x
  }

  /** math.Ceil */
  function Ceil(x: real): (c: real)
    ensures Whole(c) && c - 1.0 < x <= c
  {
    var n := -(-x).Floor;
    n as real
  }

  /** NewRateLimiter: no limiter at all for a rate of zero or less; defaults for
      the other two fields. */
  function NewRateLimiter(c: Config): (r: Option<Config>)
    ensures r.Some? <==> c.requestsPerSecond > 0.0
    ensures r.Some? ==> BucketParams(r.value).Sane() && r.value.evictAfter > 0.0
    ensures r.Some? ==> r.value.requestsPerSecond == c.requestsPerSecond
    ensures r.Some? && c.burst > 0.0 ==> r.value.burst == c.burst
    ensures r.Some? && c.burst <= 0.0 ==>
              Whole(r.value.burst) && r.value.burst - 1.0 < 2.0 * c.requestsPerSecond <= r.value.burst
    ensures r.Some? ==> r.value.evictAfter == if c.evictAfter > 0.0 then c.evictAfter else DEFAULT_LIMITER_EVICTION
  {
    if c.requestsPerSecond <= 0.0 then None
    else Some(Config(c.requestsPerSecond,
                     if c.burst <= 0.0 then Ceil(c.requestsPerSecond * 2.0) else c.burst,
                     if c.evictAfter <= 0.0 then DEFAULT_LIMITER_EVICTION else c.evictAfter))
  }

  function BucketParams(c: Config): Params {
    Params(c.requestsPerSecond, c.burst)
  }

  // -------------------------------------------------------------- the table

  type Table = map<string, State>

  function AllowIn(p: Params, m: Table, now: real, subject: string): (Table, bool) {
    var b := if subject in m then m[subject] else Full(p, now);
    var (s, ok) := Step(p, b, now);
    (m[subject := s], ok)
  }

  function SweepIn(m: Table, cutoff: real): Table {
    map s | s in m && m[s].lastUsed >= cutoff :: m[s]
  }

  /** What reaches the limiter: a request of a subject, or a tick of the sweeper. */
  datatype Op = Request(now: real, subject: string) | Tick(now: real)

  datatype Served = Served(table: Table, answers: seq<bool>)

  /** The limiter over a schedule. A tick evicts what was idle for longer than
      evictAfter, or nothing when there is no eviction; its own answer is true. */
  function Serve(p: Params, evictAfter: Option<real>, ops: seq<Op>): (r: Served)
    ensures |r.answers| == |ops|
  {
    if ops == [] then Served(map[], [])
    else
      var r := Serve(p, evictAfter, ops[..|ops| - 1]);
      match ops[|ops| - 1]
      case Request(now, subject) =>
        var (m, ok) := AllowIn(p, r.table, now, subject);
        Served(m, r.answers + [ok])
      case Tick(now) =>
        Served(if evictAfter.Some? then SweepIn(r.table, now - evictAfter.value) else r.table,
               r.answers + [true])
  }

  predicate InOrder(ops: seq<Op>) {
    forall i, j | 0 <= i <= j < |ops| :: ops[i].now <= ops[j].now
  }

  /** Eviction is invisible: over every schedule with a clock that does not go
      back, the sweeping limiter answers as one that never forgets. */
  ghost predicate Transparent(p: Params, evictAfter: real) {
    forall ops | InOrder(ops) :: Serve(p, Some(evictAfter), ops).answers == Serve(p, None, ops).answers
  }

  predicate RefillsWithin(p: Params, evictAfter: real) {
    Accrued(p.rate, evictAfter) >= p.capacity
  }

  lemma AccruedMonotone(rate: real, a: real, b: real)
    requires rate > 0.0 && a <= b
    ensures Accrued(rate, a) <= Accrued(rate, b)
    ensures a < b ==> Accrued(rate, a) < Accrued(rate, b)
  {
    assert b * rate - a * rate == (b - a) * rate;
    if a < b {
      assert (b - a) * rate > 0.0;
    }
  }

  // ------------------------------------------------ enough idle time: invisible

  /** A never-evicted bucket at a time no earlier than its last use. */
  predicate Settled(p: Params, s: State, now: real) {
    s.lastFill == s.lastUsed <= now && 0.0 <= s.tokens <= p.capacity
  }

  /** The two tables agree, and whatever was evicted would by now be full again. */
  ghost predicate Similar(p: Params, e: Table, n: Table, now: real) {
    && e.Keys <= n.Keys
    && (forall s | s in n :: Settled(p, n[s], now))
    && (forall s | s in e :: e[s] == n[s])
    && (forall s | s in n && s !in e :: n[s].tokens + Accrued(p.rate, now - n[s].lastFill) >= p.capacity)
  }

  lemma SimilarLater(p: Params, e: Table, n: Table, now: real, later: real)
    requires p.Sane() && Similar(p, e, n, now) && now <= later
    ensures Similar(p, e, n, later)
  {
    forall s | s in n && s !in e
      ensures n[s].tokens + Accrued(p.rate, later - n[s].lastFill) >= p.capacity
    {
      AccruedMonotone(p.rate, now - n[s].lastFill, later - n[s].lastFill);
    }
  }

  lemma SettledStep(p: Params, s: State, now: real)
    requires p.Sane() && Settled(p, s, now)
    ensures Settled(p, Step(p, s, now).0, now) && Step(p, s, now).0.lastUsed == now
    ensures s.tokens + Accrued(p.rate, now - s.lastFill) >= p.capacity
            ==> Step(p, s, now) == Step(p, Full(p, now), now)
  {
    hide Accrued;
    AccruedNonNegative(p.rate, now - s.lastFill);
  }

  lemma SimilarRequest(p: Params, e: Table, n: Table, now: real, subject: string)
    requires p.Sane() && Similar(p, e, n, now)
    ensures var (e', a) := AllowIn(p, e, now, subject);
            var (n', b) := AllowIn(p, n, now, subject);
            a == b && Similar(p, e', n', now)
  {
    hide Accrued, Step;
    if subject in n {
      SettledStep(p, n[subject], now);
    } else {
      SettledStep(p, Full(p, now), now);
    }
  }

  lemma SimilarTick(p: Params, evictAfter: real, e: Table, n: Table, now: real)
    requires p.Sane() && RefillsWithin(p, evictAfter) && Similar(p, e, n, now)
    ensures Similar(p, SweepIn(e, now - evictAfter), n, now)
  {
    hide Accrued;
    forall s | s in e && e[s].lastUsed < now - evictAfter
      ensures n[s].tokens + Accrued(p.rate, now - n[s].lastFill) >= p.capacity
    {
      AccruedMonotone(p.rate, evictAfter, now - n[s].lastFill);
    }
  }

  lemma {:induction false} IdleLongEnough(p: Params, evictAfter: real, ops: seq<Op>, now: real)
    requires p.Sane() && RefillsWithin(p, evictAfter) && InOrder(ops)
    requires forall i | 0 <= i < |ops| :: ops[i].now <= now
    ensures Serve(p, Some(evictAfter), ops).answers == Serve(p, None, ops).answers
    ensures Similar(p, Serve(p, Some(evictAfter), ops).table, Serve(p, None, ops).table, now)
  {
    hide RefillsWithin, AllowIn, SweepIn, Accrued;
    if ops != [] {
      var prev, op := ops[..|ops| - 1], ops[|ops| - 1];
      IdleLongEnough(p, evictAfter, prev, op.now);
      var e, n := Serve(p, Some(evictAfter), prev).table, Serve(p, None, prev).table;
      match op {
        case Request(t, subject) =>
          SimilarRequest(p, e, n, t, subject);
        case Tick(t) =>
          SimilarTick(p, evictAfter, e, n, t);
      }
      SimilarLater(p, Serve(p, Some(evictAfter), ops).table, Serve(p, None, ops).table, op.now, now);
    }
  }

  /** A burst below one token: neither limiter ever grants anything. */
  lemma {:induction false} BurstBelowOneGrantsNothing(p: Params, evictAfter: Option<real>, ops: seq<Op>)
    requires p.Sane() && p.capacity < 1.0
    ensures var r := Serve(p, evictAfter, ops);
            && (forall s | s in r.table :: r.table[s].tokens <= p.capacity)
            && (forall i | 0 <= i < |ops| :: r.answers[i] == ops[i].Tick?)
  {
    hide Accrued;
    if ops != [] {
      BurstBelowOneGrantsNothing(p, evictAfter, ops[..|ops| - 1]);
    }
  }

  // ---------------------------------------------- too little idle time: visible

  /** The same request put to both limiters. */
  lemma ServeBoth(p: Params, evictAfter: real, ops: seq<Op>, op: Op)
    requires InOrder(ops) && forall i | 0 <= i < |ops| :: ops[i].now <= op.now
    ensures InOrder(ops + [op])
    ensures op.Request? ==>
              && AllowIn(p, Serve(p, None, ops).table, op.now, op.subject)
                 == (Serve(p, None, ops + [op]).table, Serve(p, None, ops + [op]).answers[|ops|])
              && AllowIn(p, Serve(p, Some(evictAfter), ops).table, op.now, op.subject)
                 == (Serve(p, Some(evictAfter), ops + [op]).table,
                     Serve(p, Some(evictAfter), ops + [op]).answers[|ops|])
    ensures op.Tick? ==>
              && Serve(p, None, ops + [op]).table == Serve(p, None, ops).table
              && Serve(p, Some(evictAfter), ops + [op]).table
                 == SweepIn(Serve(p, Some(evictAfter), ops).table, op.now - evictAfter)
  {
    assert (ops + [op])[..|ops|] == ops;
  }

  /** How long until a bucket with x < 1 tokens holds exactly one. */
  function Wait(p: Params, x: real): (w: real)
    requires p.Sane() && x <= 1.0
    ensures w >= 0.0 && Accrued(p.rate, w) == 1.0 - x
    ensures x < 1.0 ==> w > 0.0
  {
    (1.0 - x) / p.rate
  }

  /** Drives one bucket, identical in both limiters, down to no tokens at all. */
  lemma {:induction false} Drain(p: Params, evictAfter: real, ops: seq<Op>, s: string, now: real)
    returns (more: seq<Op>, t: real)
    requires p.Sane() && p.capacity >= 1.0 && InOrder(ops) && forall i | 0 <= i < |ops| :: ops[i].now <= now
    requires s in Serve(p, None, ops).table && s in Serve(p, Some(evictAfter), ops).table
    requires Serve(p, None, ops).table[s] == Serve(p, Some(evictAfter), ops).table[s]
    requires var b := Serve(p, None, ops).table[s]; Settled(p, b, now) && b.lastFill == now
    ensures InOrder(more) && forall i | 0 <= i < |more| :: more[i].now <= t
    ensures s in Serve(p, None, more).table && s in Serve(p, Some(evictAfter), more).table
    ensures Serve(p, None, more).table[s] == Serve(p, Some(evictAfter), more).table[s] == State(0.0, t, t)
    decreases Serve(p, None, ops).table[s].tokens.Floor
  {
    hide Serve, Accrued, Wait;
    var x := Serve(p, None, ops).table[s].tokens;
    if x == 0.0 {
      more, t := ops, now;
    } else if x >= 1.0 {
      ServeBoth(p, evictAfter, ops, Request(now, s));
      more, t := Drain(p, evictAfter, ops + [Request(now, s)], s, now);
    } else {
      t := now + Wait(p, x);
      ServeBoth(p, evictAfter, ops, Request(t, s));
      more := ops + [Request(t, s)];
    }
  }

  /** Once the sweeping limiter holds more tokens than the other, some later
      schedule makes the two disagree. */
  lemma {:induction false} Separate(p: Params, evictAfter: real, ops: seq<Op>, s: string, now: real)
    returns (more: seq<Op>)
    requires p.Sane() && p.capacity >= 1.0 && InOrder(ops) && forall i | 0 <= i < |ops| :: ops[i].now <= now
    requires s in Serve(p, None, ops).table && s in Serve(p, Some(evictAfter), ops).table
    requires var n, e := Serve(p, None, ops).table[s], Serve(p, Some(evictAfter), ops).table[s];
             && Settled(p, n, now) && Settled(p, e, now) && n.lastFill == e.lastFill == now
             && n.tokens < e.tokens
    ensures InOrder(more) && Serve(p, Some(evictAfter), more).answers != Serve(p, None, more).answers
    decreases Serve(p, Some(evictAfter), ops).table[s].tokens.Floor
  {
    hide Serve, Accrued, Wait;
    var n, e := Serve(p, None, ops).table[s], Serve(p, Some(evictAfter), ops).table[s];
    if e.tokens < 1.0 {
      var t := now + Wait(p, e.tokens);
      ServeBoth(p, evictAfter, ops, Request(t, s));
      more := ops + [Request(t, s)];
    } else {
      ServeBoth(p, evictAfter, ops, Request(now, s));
      more := ops + [Request(now, s)];
      if n.tokens >= 1.0 {
        more := Separate(p, evictAfter, more, s, now);
      }
    }
  }

  /** An idle time longer than evictAfter that does not refill the bucket. */
  lemma ShortIdle(p: Params, evictAfter: real) returns (d: real)
    requires p.Sane() && !RefillsWithin(p, evictAfter)
    ensures d > 0.0 && d > evictAfter && Accrued(p.rate, d) < p.capacity
  {
    var full := p.capacity / p.rate;
    assert Accrued(p.rate, full) == p.capacity;
    if full <= evictAfter {
      AccruedMonotone(p.rate, full, evictAfter);
    }
    var lo := Max(0.0, evictAfter);
    d := (lo + full) / 2.0;
    assert lo < full by { assert full > 0.0; }
    AccruedMonotone(p.rate, d, full);
  }

  /** A schedule on which a sweep that comes too soon changes an answer. */
  lemma IdleTooShort(p: Params, evictAfter: real) returns (ops: seq<Op>)
    requires p.Sane() && p.capacity >= 1.0 && !RefillsWithin(p, evictAfter)
    ensures InOrder(ops) && Serve(p, Some(evictAfter), ops).answers != Serve(p, None, ops).answers
  {
    hide Serve, Accrued, RefillsWithin;
    var s := "client";
    var d := ShortIdle(p, evictAfter);
    ServeBoth(p, evictAfter, [], Request(0.0, s));
    var first := [] + [Request(0.0, s)];
    EmptyServe(p, evictAfter);
    SettledStep(p, Full(p, 0.0), 0.0);
    var drained, t := Drain(p, evictAfter, first, s, 0.0);
    ServeBoth(p, evictAfter, drained, Tick(t + d));
    var swept := drained + [Tick(t + d)];
    assert s !in Serve(p, Some(evictAfter), swept).table;
    ServeBoth(p, evictAfter, swept, Request(t + d, s));
    ops := swept + [Request(t + d, s)];
    AccruedNonNegative(p.rate, d);
    if Accrued(p.rate, d) >= 1.0 {
      ops := Separate(p, evictAfter, ops, s, t + d);
    }
  }

  lemma EmptyServe(p: Params, evictAfter: real)
    ensures Serve(p, None, []).table == map[] == Serve(p, Some(evictAfter), []).table
  {
  }

  /** Exactly when the sweep is invisible: the burst is below one token (nothing is
      ever granted), or an evicted bucket has had the time to fill up. */
  lemma TransparentIff(p: Params, evictAfter: real)
    requires p.Sane()
    ensures Transparent(p, evictAfter) <==> p.capacity < 1.0 || RefillsWithin(p, evictAfter)
  {
    if p.capacity >= 1.0 && !RefillsWithin(p, evictAfter) {
      var ops := IdleTooShort(p, evictAfter);
    } else {
      forall ops: seq<Op> | InOrder(ops)
        ensures Serve(p, Some(evictAfter), ops).answers == Serve(p, None, ops).answers
      {
        if RefillsWithin(p, evictAfter) {
          IdleLongEnough(p, evictAfter, ops, if ops == [] then 0.0 else ops[|ops| - 1].now);
        } else {
          BurstBelowOneGrantsNothing(p, Some(evictAfter), ops);
          BurstBelowOneGrantsNothing(p, None, ops);
        }
      }
    }
  }

  /** With both defaults (burst of two seconds' worth, thirty minutes) the sweep is
      invisible exactly for rates of at least one request per thirty minutes. */
  lemma DefaultsTransparentIff(rate: real)
    requires rate > 0.0
    ensures var c := NewRateLimiter(Config(rate, 0.0, 0.0)).value;
            Transparent(BucketParams(c), c.evictAfter) <==> rate >= 1.0 / 1800.0
  {
    var c := NewRateLimiter(Config(rate, 0.0, 0.0)).value;
    TransparentIff(BucketParams(c), c.evictAfter);
    assert Accrued(rate, 1800.0) == 1800.0 * rate;
  }

  /** The server's own sweep uses the evictAfter of the configuration file, not the
      default NewRateLimiter filled in. A configuration that leaves it out is
      therefore swept visibly as soon as its burst is one token or more. */
  lemma OmittedEvictAfterIsVisible(c: Config)
    requires c.requestsPerSecond > 0.0 && c.evictAfter <= 0.0
    ensures var p := BucketParams(NewRateLimiter(c).value);
            Transparent(p, c.evictAfter) <==> p.capacity < 1.0
  {
    var p := BucketParams(NewRateLimiter(c).value);
    TransparentIff(p, c.evictAfter);
    AccruedMonotone(p.rate, c.evictAfter, 0.0);
  }

  // ------------------------------------------------------- one subject's view

  function TimesOf(ops: seq<Op>, s: string): seq<real> {
    if ops == [] then []
    else
      var op := ops[|ops| - 1];
      TimesOf(ops[..|ops| - 1], s) + if op.Request? && op.subject == s then [op.now] else []
  }

  function AnswersOf(ops: seq<Op>, answers: seq<bool>, s: string): (r: seq<bool>)
    requires |ops| == |answers|
    ensures |r| == |TimesOf(ops, s)|
  {
    if ops == [] then []
    else
      var op := ops[|ops| - 1];
      AnswersOf(ops[..|ops| - 1], answers[..|ops| - 1], s)
      + if op.Request? && op.subject == s then [answers[|ops| - 1]] else []
  }

  /** Isolation: what a subject is answered depends on its own requests only, and is
      what a bucket of its own would have answered. */
  lemma {:induction false} SubjectHasOwnBucket(p: Params, ops: seq<Op>, s: string)
    ensures var r, ts := Serve(p, None, ops), TimesOf(ops, s);
            && (s in r.table <==> ts != [])
            && (ts != [] ==> Exec(p, ts[0], ts) == Run(r.table[s], AnswersOf(ops, r.answers, s)))
  {
    hide Step, Accrued;
    if ops != [] {
      var prev := ops[..|ops| - 1];
      SubjectHasOwnBucket(p, prev, s);
      var r0, r := Serve(p, None, prev), Serve(p, None, ops);
      assert r.answers[..|ops| - 1] == r0.answers;
      var ts0, ts := TimesOf(prev, s), TimesOf(ops, s);
      if ts == ts0 + [ops[|ops| - 1].now] {
        assert ts[..|ts| - 1] == ts0 && ts[|ts| - 1] == ops[|ops| - 1].now;
      } else {
        assert ts == ts0;
      }
    }
  }

  /** Granted requests whose time lies in [a, b]. */
  function GrantsDuring(ts: seq<real>, ds: seq<bool>, a: real, b: real): nat
    requires |ts| == |ds|
  {
    if ts == [] then 0
    else
      var n := |ts| - 1;
      GrantsDuring(ts[..n], ds[..n], a, b) + if ds[n] && a <= ts[n] <= b then 1 else 0
  }

  predicate Ascending(ts: seq<real>) {
    forall i, j | 0 <= i <= j < |ts| :: ts[i] <= ts[j]
  }

  lemma {:induction false} LatestIsLast(t0: real, ts: seq<real>)
    requires Ascending(ts) && ts != [] && t0 <= ts[0]
    ensures Latest(t0, ts) == ts[|ts| - 1]
  {
    if |ts| > 1 {
      LatestIsLast(t0, ts[..|ts| - 1]);
    } else {
      assert ts[..0] == [];
    }
  }

  /** Grants inside a window plus the tokens still held never exceed burst plus
      refill since the window opened. */
  lemma {:induction false} ClockWindow(p: Params, ts: seq<real>, a: real, b: real)
    requires p.Sane() && a <= b && ts != [] && Ascending(ts)
    ensures var r, last := Exec(p, ts[0], ts), ts[|ts| - 1];
            var g := GrantsDuring(ts, r.ds, a, b);
            && g as real <= p.capacity + Accrued(p.rate, b - a)
            && (g > 0 && last <= b ==> g as real + r.state.tokens <= p.capacity + Accrued(p.rate, last - a))
            && (last < a ==> g == 0)
  {
    hide Accrued, Exec, Latest, Slack;
    var n := |ts| - 1;
    var prev, now := ts[..n], ts[n];
    AccruedNonNegative(p.rate, b - a);
    ExecBounds(p, ts[0], ts);
    ExecBounds(p, ts[0], prev);
    ExecUnfolds(p, ts[0], ts);
    LastStep(p, ts[0], ts);
    LatestIsLast(ts[0], ts);
    assert Exec(p, ts[0], ts).ds[..n] == Exec(p, ts[0], prev).ds;
    if a <= now <= b {
      AccruedMonotone(p.rate, now - a, b - a);
      AccruedNonNegative(p.rate, now - a);
    }
    if n > 0 {
      ClockWindow(p, prev, a, b);
      LatestIsLast(ts[0], prev);
      AccruedSplits(p.rate, now, prev[n - 1], a);
    }
  }

  lemma {:induction false} TimesAscend(ops: seq<Op>, s: string, now: real)
    requires InOrder(ops) && forall i | 0 <= i < |ops| :: ops[i].now <= now
    ensures Ascending(TimesOf(ops, s)) && forall i | 0 <= i < |TimesOf(ops, s)| :: TimesOf(ops, s)[i] <= now
  {
    if ops != [] {
      TimesAscend(ops[..|ops| - 1], s, ops[|ops| - 1].now);
    }
  }

  /** Load bound: with an invisible sweep, the requests of one subject granted in
      any stretch of time [a, b] are at most burst + rate * (b - a). */
  lemma SubjectLoadBound(p: Params, evictAfter: real, ops: seq<Op>, s: string, a: real, b: real)
    requires p.Sane() && (p.capacity < 1.0 || RefillsWithin(p, evictAfter)) && InOrder(ops) && a <= b
    ensures GrantsDuring(TimesOf(ops, s), AnswersOf(ops, Serve(p, Some(evictAfter), ops).answers, s), a, b) as real
            <= p.capacity + Accrued(p.rate, b - a)
  {
    TransparentIff(p, evictAfter);
    hide Accrued;
    SubjectHasOwnBucket(p, ops, s);
    TimesAscend(ops, s, if ops == [] then 0.0 else ops[|ops| - 1].now);
    AccruedNonNegative(p.rate, b - a);
    if TimesOf(ops, s) != [] {
      ClockWindow(p, TimesOf(ops, s), a, b);
    }
  }

  // ---------------------------------------------------------------- the object

  /** How far Cleanup has come: todo is still to be looked at, gone has left the table. */
  ghost predicate Sweeping(was: Table, now: Table, todo: set<string>, gone: set<string>, cutoff: real) {
    && now == was - gone && gone <= was.Keys && todo <= now.Keys
    && (forall s | s in was && s !in todo :: s in gone <==> was[s].lastUsed < cutoff)
  }

  lemma SweepBegins(was: Table, cutoff: real)
    ensures Sweeping(was, was, was.Keys, {}, cutoff)
  {
  }

  lemma SweepsOne(was: Table, now: Table, todo: set<string>, gone: set<string>, cutoff: real, s: string)
    requires Sweeping(was, now, todo, gone, cutoff) && s in todo
    ensures s in now && s !in gone
    ensures if now[s].lastUsed < cutoff then Sweeping(was, now - {s}, todo - {s}, gone + {s}, cutoff)
            else Sweeping(was, now, todo - {s}, gone, cutoff)
  {
    assert now - {s} == was - (gone + {s});
  }

  /** What is left when exactly the idle buckets are gone. */
  lemma SweptAway(was: Table, now: Table, gone: set<string>, cutoff: real)
    requires Sweeping(was, now, {}, gone, cutoff)
    ensures now == SweepIn(was, cutoff) && gone == set s | s in was && was[s].lastUsed < cutoff
  {
  }

  class RateLimiter {
    const params: Params
    var buckets: map<string, Bucket>
    /** What the buckets hold, as a value. */
    ghost var table: Table

    ghost predicate Valid()
      reads this, buckets.Values
    {
      && params.Sane() && buckets.Keys == table.Keys
      && (forall s {:trigger Holds(s, buckets[s], table[s])} | s in buckets :: Holds(s, buckets[s], table[s]))
    }

    /** The bucket of one subject is its own, and its history is in order. */
    ghost predicate Holds(s: string, b: Bucket, state: State)
      reads b
    {
      b.owner == s && b.Valid() && b.P() == params && b.Snapshot() == state
    }

    constructor (params: Params)
      requires params.Sane()
      ensures Valid() && table == map[] && this.params == params
    {
      this.params := params;
      buckets, table := map[], map[];
    }

    method Allow(now: real, subject: string) returns (ok: bool)
      requires Valid()
      modifies this, buckets.Values
      ensures Valid() && fresh(buckets.Values - old(buckets.Values))
      ensures (table, ok) == AllowIn(params, old(table), now, subject)
    {
      hide Step, RateLimiter.Valid;
      KeysMatch();
      if subject !in buckets {
        Insert(now, subject);
      }
      ghost var m := table;
      ok := Ask(now, subject);
      assert table == m[subject := Step(params, m[subject], now).0];
      assert table == old(table)[subject := Step(params, m[subject], now).0];
    }

    lemma KeysMatch()
      requires Valid()
      ensures buckets.Keys == table.Keys
    {
    }

    /** A full bucket for a subject that has none. */
    method Insert(now: real, subject: string)
      requires Valid() && subject !in buckets
      modifies this
      ensures Valid() && table == old(table)[subject := Full(params, now)]
      ensures subject in buckets && buckets == old(buckets)[subject := buckets[subject]] && fresh(buckets[subject])
    {
      var b := new Bucket(params.rate, params.capacity, now, subject);
      buckets, table := buckets[subject := b], table[subject := Full(params, now)];
      hide Bucket.Valid, Bucket.Snapshot;
      forall s | s in buckets ensures Holds(s, buckets[s], table[s]) {
        assert s != subject ==> old(Holds(s, buckets[s], table[s]));
      }
    }

    /** b.allow on the bucket of a subject that has one. */
    method Ask(now: real, subject: string) returns (ok: bool)
      requires Valid() && subject in buckets && subject in table
      modifies this, buckets[subject]
      ensures Valid() && buckets == old(buckets)
      ensures table == old(table)[subject := Step(params, old(table)[subject], now).0]
      ensures ok == Step(params, old(table)[subject], now).1
    {
      hide Exec, Step, WindowsAdmit, Bucket.Valid, Bucket.Snapshot;
      var b := buckets[subject];
      assert Holds(subject, b, table[subject]);
      ok := b.Allow(now);
      table := table[subject := b.Snapshot()];
      forall s | s in buckets ensures Holds(s, buckets[s], table[s]) {
        assert old(Holds(s, buckets[s], table[s]));
      }
    }

    /** Forgets every bucket idle since before the cutoff, whatever order the table
        is walked in, and says how many those were. */
    method Cleanup(cutoff: real) returns (removed: nat)
      requires Valid()
      modifies this
      ensures Valid() && forall s | s in buckets :: s in old(buckets) && buckets[s] == old(buckets)[s]
      ensures table == SweepIn(old(table), cutoff)
      ensures removed == |set s | s in old(table) && old(table)[s].lastUsed < cutoff|
    {
      KeysMatch();
      hide SweepIn, Sweeping, RateLimiter.Valid;
      removed := 0;
      var todo := buckets.Keys;
      ghost var was, gone := table, {};
      SweepBegins(was, cutoff);
      while todo != {}
        invariant Valid() && todo <= buckets.Keys && |gone| == removed
        invariant forall s | s in buckets :: s in old(buckets) && buckets[s] == old(buckets)[s]
        invariant Sweeping(was, table, todo, gone, cutoff)
        decreases todo
      {
        var subject :| subject in todo;
        SweepsOne(was, table, todo, gone, cutoff, subject);
        todo := todo - {subject};
        var idle := IdleBefore(subject, cutoff);
        if idle {
          Forget(subject);
          removed, gone := removed + 1, gone + {subject};
        }
      }
      SweptAway(was, table, gone, cutoff);
    }

    method IdleBefore(subject: string, cutoff: real) returns (idle: bool)
      requires Valid() && subject in buckets
      ensures idle <==> table[subject].lastUsed < cutoff
    {
      assert Holds(subject, buckets[subject], table[subject]);
      idle := buckets[subject].IdleSince() < cutoff;
    }

    /** delete(l.buckets, subject) */
    method Forget(subject: string)
      requires Valid()
      modifies this
      ensures Valid() && buckets == old(buckets) - {subject} && table == old(table) - {subject}
    {
      hide Holds;
      buckets, table := buckets - {subject}, table - {subject};
    }
  }
}
