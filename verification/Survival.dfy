/**
 What keeps a session alive in a running gateway (internal/server/mcp_handler.go and
 the sweep of internal/server/server.go), in every interleaving of requests and sweeps.
 */
module Survival {
  import opened Sessions
  import opened Gateway
  import opened Pipeline

  /** What an event does to the session table. */
  function StoreOpsOf(cfg: Settings, s: State, e: Event): seq<StoreOp>
    requires Enabled(cfg, s, e)
  {
    match e
    case Initialize(q, now, sid, minted) =>
      if s.tickets[q].req.body.m.decodes && minted then [Mint(now, sid, s.tickets[q].identity.subject)] else []
    case TouchSession(q) => [Use(s.tickets[q].progress.now, s.tickets[q].req.sessionId, false)]
    case Finish(q, now, _, _) =>
      var t := s.tickets[q];
      if t.req.verb.Delete? then [Remove(now, t.req.sessionId)]
      else if t.req.verb.Post? && t.req.body.m.IsNotification() && t.req.body.m.method_ == "notifications/initialized"
      then [Use(t.progress.now, t.req.sessionId, true)]
      else []
    case Expire(now) => [Sweep(now)]
    case _ => []
  }

  function StoreSchedule(cfg: Settings, es: seq<Event>): seq<StoreOp>
    requires Legal(cfg, es)
  {
    if es == [] then []
    else
      var prev := es[..|es| - 1];
      StoreSchedule(cfg, prev) + StoreOpsOf(cfg, After(cfg, prev), es[|es| - 1])
  }

  lemma StoreStep(cfg: Settings, s: State, e: Event)
    requires Enabled(cfg, s, e)
    ensures |StoreOpsOf(cfg, s, e)| <= 1
    ensures Apply(cfg, s, e).store
            == if StoreOpsOf(cfg, s, e) == [] then s.store
               else ApplyOp(EffectiveIdle(cfg.idle), s.store, StoreOpsOf(cfg, s, e)[0])
  {
    hide Admit, Limiter, HandleRequest, SessionCheck;
  }

  /** The table of a running gateway is what its schedule of mints, uses, deletions and
      sweeps makes of an empty one. */
  lemma {:induction false} StoreFollowsSchedule(cfg: Settings, es: seq<Event>)
    requires Legal(cfg, es)
    ensures After(cfg, es).store == Schedule(EffectiveIdle(cfg.idle), map[], StoreSchedule(cfg, es))
  {
    hide Apply, Enabled, ApplyOp, StoreOpsOf;
    if es != [] {
      var prev, e := es[..|es| - 1], es[|es| - 1];
      StoreFollowsSchedule(cfg, prev);
      StoreStep(cfg, After(cfg, prev), e);
      var ops := StoreOpsOf(cfg, After(cfg, prev), e);
      if ops == [] {
        assert StoreSchedule(cfg, es) == StoreSchedule(cfg, prev);
      } else {
        assert StoreSchedule(cfg, es)[..|StoreSchedule(cfg, prev)|] == StoreSchedule(cfg, prev);
      }
    }
  }

  lemma {:induction false} ScheduleSplits(idle: real, m: Store, a: seq<StoreOp>, b: seq<StoreOp>)
    ensures Schedule(idle, m, a + b) == Schedule(idle, Schedule(idle, m, a), b)
  {
    if b == [] {
      assert a + b == a;
    } else {
      ScheduleSplits(idle, m, a, b[..|b| - 1]);
      assert (a + b)[..|a + b| - 1] == a + b[..|b| - 1];
    }
  }

  lemma {:induction false} SchedulePrefix(cfg: Settings, es: seq<Event>, n: nat)
    requires Legal(cfg, es) && n <= |es|
    ensures Legal(cfg, es[..n]) && StoreSchedule(cfg, es[..n]) <= StoreSchedule(cfg, es)
  {
    hide Enabled, StoreOpsOf;
    if n == |es| {
      assert es[..n] == es;
    } else {
      SchedulePrefix(cfg, es[..|es| - 1], n);
      assert es[..|es| - 1][..n] == es[..n];
    }
  }

  /** What happened to the session table from event n on. */
  function Since(cfg: Settings, es: seq<Event>, n: nat): seq<StoreOp>
    requires Legal(cfg, es) && n <= |es|
  {
    SchedulePrefix(cfg, es, n);
    StoreSchedule(cfg, es)[|StoreSchedule(cfg, es[..n])|..]
  }

  lemma SinceIsRest(cfg: Settings, es: seq<Event>, n: nat)
    requires Legal(cfg, es) && n <= |es|
    ensures Legal(cfg, es[..n]) && Before(cfg, es, n) == After(cfg, es[..n])
    ensures StoreSchedule(cfg, es) == StoreSchedule(cfg, es[..n]) + Since(cfg, es, n)
  {
    SchedulePrefix(cfg, es, n);
  }

  /** Session survival, in every run: a session that exists before event n, and whose id
      is not minted again, exists at the end if and only if it was not deleted and every
      sweep found the last stamp written into it within the idle timeout; then it still
      belongs to the same subject. */
  lemma SessionSurvivesInGateway(cfg: Settings, es: seq<Event>, n: nat, sid: string)
    requires Legal(cfg, es) && n <= |es| && sid in Before(cfg, es, n).store && NotMinted(Since(cfg, es, n), sid)
    ensures var was, f := Before(cfg, es, n).store[sid], After(cfg, es).store;
            && (sid in f <==> StampsFresh(EffectiveIdle(cfg.idle), was.lastSeen, Since(cfg, es, n), sid))
            && (sid in f ==> f[sid].subject == was.subject)
  {
    hide Apply, Enabled, ApplyOp, StoreOpsOf, StoreSchedule, Since;
    var idle, rest := EffectiveIdle(cfg.idle), Since(cfg, es, n);
    SinceIsRest(cfg, es, n);
    StoreFollowsSchedule(cfg, es);
    StoreFollowsSchedule(cfg, es[..n]);
    ScheduleSplits(idle, map[], StoreSchedule(cfg, es[..n]), rest);
    SessionSurvivesIff(idle, Before(cfg, es, n).store, rest, sid);
  }

  // ------------------------------------------------------------ survival by use

  /** Survival by use, with no hypothesis on the clock: where no use is applied after one
      with a later stamp, a session survives exactly when it was not deleted and every
      sweep found it used within the timeout. */
  lemma KeptInUseSurvivesInGateway(cfg: Settings, es: seq<Event>, n: nat, sid: string)
    requires Legal(cfg, es) && n <= |es| && sid in Before(cfg, es, n).store && NotMinted(Since(cfg, es, n), sid)
    requires UsesInOrder(Before(cfg, es, n).store[sid].lastSeen, Since(cfg, es, n), sid)
    ensures sid in After(cfg, es).store
            <==> KeptInUse(EffectiveIdle(cfg.idle), Before(cfg, es, n).store[sid].lastSeen, Since(cfg, es, n), sid)
  {
    hide Apply, Enabled, ApplyOp, StoreOpsOf, StoreSchedule, Since, UsesInOrder, KeptInUse;
    SinceIsRest(cfg, es, n);
    StoreFollowsSchedule(cfg, es);
    StoreFollowsSchedule(cfg, es[..n]);
    ScheduleSplits(EffectiveIdle(cfg.idle), map[], StoreSchedule(cfg, es[..n]), Since(cfg, es, n));
    KeptInUseSurvivesIff(EffectiveIdle(cfg.idle), Before(cfg, es, n).store, Since(cfg, es, n), sid);
  }

  /** Some use since event n, or what the table held then, is within the timeout. */
  ghost predicate UsedWithin(idle: real, seen: real, ops: seq<StoreOp>, sid: string, now: real) {
    now - seen <= idle || exists i :: 0 <= i < |ops| && UsedIn(ops, i, sid) && now - ops[i].now <= idle
  }

  lemma UsedWithinIffLatest(idle: real, seen: real, ops: seq<StoreOp>, sid: string, now: real)
    ensures UsedWithin(idle, seen, ops, sid, now) <==> now - LatestUse(seen, ops, sid) <= idle
  {
    LatestBounds(seen, ops, sid);
  }

  lemma {:induction false} LastIsNotLater(seen: real, ops: seq<StoreOp>, sid: string)
    ensures LastUse(seen, ops, sid) <= LatestUse(seen, ops, sid)
  {
    if ops != [] {
      LastIsNotLater(seen, ops[..|ops| - 1], sid);
    }
  }

  /** Exactly when the next sweep is right about a session, whenever it comes: it keeps the
      session if and only if that was used within the timeout, for every time the sweep may
      have read, exactly when the stamp in the table is the latest of all uses so far. */
  lemma SweepIsRightIff(cfg: Settings, es: seq<Event>, n: nat, sid: string)
    requires Legal(cfg, es) && n <= |es| && sid in Before(cfg, es, n).store && NotMinted(Since(cfg, es, n), sid)
    requires sid in After(cfg, es).store && EffectiveIdle(cfg.idle) > 0.0
    ensures var seen, ops := Before(cfg, es, n).store[sid].lastSeen, Since(cfg, es, n);
            (forall now :: Enabled(cfg, After(cfg, es), Expire(now)) &&
                           (sid in Apply(cfg, After(cfg, es), Expire(now)).store
                            <==> UsedWithin(EffectiveIdle(cfg.idle), seen, ops, sid, now)))
            <==> HoldsLatest(seen, ops, sid)
  {
    hide *;
    var idle, seen, ops := EffectiveIdle(cfg.idle), Before(cfg, es, n).store[sid].lastSeen, Since(cfg, es, n);
    var s := After(cfg, es);
    HeldStamp(cfg, es, n, sid);
    LastIsNotLater(seen, ops, sid);
    forall now
      ensures Enabled(cfg, s, Expire(now))
      ensures sid in Apply(cfg, s, Expire(now)).store <==> now - LastUse(seen, ops, sid) <= idle
      ensures UsedWithin(idle, seen, ops, sid, now) <==> now - LatestUse(seen, ops, sid) <= idle
    {
      SweepKeeps(cfg, s, sid, now);
      UsedWithinIffLatest(idle, seen, ops, sid, now);
    }
    HoldsIs(seen, ops, sid);
    var late := LatestUse(seen, ops, sid) + idle;
    assert sid in Apply(cfg, s, Expire(late)).store <==> late - LastUse(seen, ops, sid) <= idle;
  }

  lemma SweepKeeps(cfg: Settings, s: State, sid: string, now: real)
    requires sid in s.store && EffectiveIdle(cfg.idle) > 0.0
    ensures Enabled(cfg, s, Expire(now))
    ensures sid in Apply(cfg, s, Expire(now)).store <==> now - s.store[sid].lastSeen <= EffectiveIdle(cfg.idle)
  {
  }

  lemma HoldsIs(seen: real, ops: seq<StoreOp>, sid: string)
    ensures HoldsLatest(seen, ops, sid) <==> LastUse(seen, ops, sid) == LatestUse(seen, ops, sid)
  {
  }

  lemma HeldStamp(cfg: Settings, es: seq<Event>, n: nat, sid: string)
    requires Legal(cfg, es) && n <= |es| && sid in Before(cfg, es, n).store && NotMinted(Since(cfg, es, n), sid)
    requires sid in After(cfg, es).store
    ensures var was := Before(cfg, es, n).store[sid];
            After(cfg, es).store[sid].lastSeen == LastUse(was.lastSeen, Since(cfg, es, n), sid)
  {
    hide Apply, Enabled, ApplyOp, StoreOpsOf, StoreSchedule, Since, LastUse;
    var idle, ops := EffectiveIdle(cfg.idle), Since(cfg, es, n);
    SinceIsRest(cfg, es, n);
    StoreFollowsSchedule(cfg, es);
    StoreFollowsSchedule(cfg, es[..n]);
    ScheduleSplits(idle, map[], StoreSchedule(cfg, es[..n]), ops);
    SessionSurvivesIff(idle, Before(cfg, es, n).store, ops, sid);
  }

  // ------------------------------------------------------ one request at a time

  predicate MarksInitialized(req: Request) {
    req.verb.Post? && req.body.Msg? && req.body.m.IsNotification() && req.body.m.method_ == "notifications/initialized"
  }

  /** The request has read the clock and has yet to write the reading into its session. */
  predicate Pending(s: State, q: nat, sid: string) {
    && q in s.tickets && s.tickets[q].req.sessionId == sid
    && (s.tickets[q].progress.Stamped?
        || (s.tickets[q].progress.Touched? && MarksInitialized(s.tickets[q].req)))
  }

  ghost predicate SomePending(s: State, sid: string) {
    exists q :: Pending(s, q, sid)
  }

  /** No request of the session reads the clock, and the id is not minted anew, while
      another request has yet to write its reading. */
  ghost predicate OneAtATime(cfg: Settings, es: seq<Event>, sid: string)
    requires Legal(cfg, es)
  {
    forall i | 0 <= i < |es| && SomePending(Before(cfg, es, i), sid) :: !StartsUse(Before(cfg, es, i), es[i], sid)
  }

  predicate StartsUse(s: State, e: Event, sid: string) {
    || (e.ReadClock? && e.q in s.tickets && s.tickets[e.q].req.sessionId == sid)
    || (e.Initialize? && e.minted && e.sid == sid)
  }

  predicate About(op: StoreOp, sid: string) {
    (op.Mint? || op.Use?) && op.id == sid
  }

  /** The stamps of one session come in order. */
  predicate StampsInOrder(ops: seq<StoreOp>, sid: string) {
    forall i, j | 0 <= i < j < |ops| && About(ops[i], sid) && About(ops[j], sid) :: ops[i].now <= ops[j].now
  }

  predicate NoneAfter(ops: seq<StoreOp>, sid: string, t: real) {
    forall i | 0 <= i < |ops| && About(ops[i], sid) :: ops[i].now <= t
  }

  /** One request at most is pending, with a reading that none applied so far exceeds. */
  ghost predicate Ordered(s: State, ops: seq<StoreOp>, sid: string, t: real) {
    && StampsInOrder(ops, sid) && NoneAfter(ops, sid, t)
    && (forall q {:trigger Pending(s, q, sid)} | Pending(s, q, sid) ::
          s.tickets[q].progress.now <= t && NoneAfter(ops, sid, s.tickets[q].progress.now))
    && (forall q, r {:trigger Pending(s, q, sid), Pending(s, r, sid)} | Pending(s, q, sid) && Pending(s, r, sid) ::
          q == r)
  }

  /** What an event writes about a session is its own time, or the reading of a request
      that was pending. */
  lemma StampOf(cfg: Settings, s: State, e: Event, sid: string)
    requires Enabled(cfg, s, e)
    ensures var ops := StoreOpsOf(cfg, s, e);
            |ops| <= 1 && (|ops| == 1 && About(ops[0], sid) ==>
                             if ops[0].Mint? then StartsUse(s, e, sid) && Timed(e) && ops[0].now == e.now
                             else (e.TouchSession? || e.Finish?) && Pending(s, e.q, sid)
                                  && ops[0].now == s.tickets[e.q].progress.now)
  {
    hide Admit, Limiter, HandleRequest, SessionCheck;
  }

  /** A request is pending after an event if it was, or if the event read its clock. */
  lemma PendingStep(cfg: Settings, s: State, e: Event, q: nat, sid: string)
    requires Enabled(cfg, s, e) && Pending(Apply(cfg, s, e), q, sid)
    ensures var now := Apply(cfg, s, e).tickets[q].progress.now;
            if e.ReadClock? && e.q == q then StartsUse(s, e, sid) && now == e.now
            else Pending(s, q, sid) && now == s.tickets[q].progress.now
  {
    hide Admit, Limiter, HandleRequest, SessionCheck, ApplyFinish;
    if e.Finish? { FinishTicket(cfg, s, e); }
  }

  lemma OrderedStep(cfg: Settings, s: State, e: Event, ops: seq<StoreOp>, sid: string, before: real, t: real)
    requires Enabled(cfg, s, e) && Ordered(s, ops, sid, before) && before <= t && (Timed(e) ==> e.now == t)
    requires SomePending(s, sid) ==> !StartsUse(s, e, sid)
    ensures Ordered(Apply(cfg, s, e), ops + StoreOpsOf(cfg, s, e), sid, t)
  {
    var f, more := Apply(cfg, s, e), StoreOpsOf(cfg, s, e);
    StampOf(cfg, s, e, sid);
    hide Apply, Enabled, StoreOpsOf, Pending, StartsUse;
    forall q | Pending(f, q, sid)
      ensures f.tickets[q].progress.now <= t && NoneAfter(ops + more, sid, f.tickets[q].progress.now)
      ensures !(e.ReadClock? && e.q == q) ==> Pending(s, q, sid)
      ensures e.ReadClock? && e.q == q ==> StartsUse(s, e, sid)
    {
      PendingStep(cfg, s, e, q, sid);
    }
  }

  lemma {:induction false} OneAtATimeIsOrdered(cfg: Settings, es: seq<Event>, sid: string, t: real)
    requires Legal(cfg, es) && InClockOrder(es) && Until(es, t) && OneAtATime(cfg, es, sid)
    ensures Ordered(After(cfg, es), StoreSchedule(cfg, es), sid, t)
  {
    hide Apply, Enabled, StoreOpsOf, Ordered, SomePending, StartsUse;
    if es != [] {
      var n := |es| - 1;
      OneLessInOrder(es, t);
      var now := if Timed(es[n]) then es[n].now else t;
      OneLess(cfg, es, sid);
      OneAtATimeIsOrdered(cfg, es[..n], sid, now);
      OrderedStep(cfg, After(cfg, es[..n]), es[n], StoreSchedule(cfg, es[..n]), sid, now, now);
      OrderedLater(After(cfg, es), StoreSchedule(cfg, es), sid, now, t);
    } else {
      assert Ordered(INITIAL, [], sid, t) by { NothingOrdered(sid, t); }
    }
  }

  lemma OneLess(cfg: Settings, es: seq<Event>, sid: string)
    requires Legal(cfg, es) && es != [] && OneAtATime(cfg, es, sid)
    ensures OneAtATime(cfg, es[..|es| - 1], sid)
    ensures var s := After(cfg, es[..|es| - 1]); SomePending(s, sid) ==> !StartsUse(s, es[|es| - 1], sid)
  {
    hide Apply, Enabled, SomePending, StartsUse;
    var prev := es[..|es| - 1];
    assert Before(cfg, es, |prev|) == After(cfg, prev);
    forall i | 0 <= i < |prev| && SomePending(Before(cfg, prev, i), sid)
      ensures !StartsUse(Before(cfg, prev, i), prev[i], sid)
    {
      assert prev[..i] == es[..i] && prev[i] == es[i];
      assert Before(cfg, es, i) == Before(cfg, prev, i);
    }
  }

  lemma NothingOrdered(sid: string, t: real)
    ensures Ordered(INITIAL, [], sid, t)
  {
  }

  lemma OrderedLater(s: State, ops: seq<StoreOp>, sid: string, t: real, later: real)
    requires Ordered(s, ops, sid, t) && t <= later
    ensures Ordered(s, ops, sid, later)
  {
    hide Pending;
  }

  lemma {:induction false} SeenNotAfter(idle: real, ops: seq<StoreOp>, sid: string, t: real)
    requires NoneAfter(ops, sid, t)
    ensures sid in Schedule(idle, map[], ops) ==> Schedule(idle, map[], ops)[sid].lastSeen <= t
  {
    if ops != [] {
      SeenNotAfter(idle, ops[..|ops| - 1], sid, t);
      assert About(ops[|ops| - 1], sid) ==> ops[|ops| - 1].now <= t;
    }
  }

  /** With a clock that does not go back, and requests of a session that come one at a
      time, its uses are applied in order. */
  lemma OneAtATimeKeepsOrder(cfg: Settings, es: seq<Event>, n: nat, sid: string, t: real)
    requires Legal(cfg, es) && InClockOrder(es) && Until(es, t) && OneAtATime(cfg, es, sid)
    requires n <= |es| && sid in Before(cfg, es, n).store
    ensures UsesInOrder(Before(cfg, es, n).store[sid].lastSeen, Since(cfg, es, n), sid)
  {
    OneAtATimeIsOrdered(cfg, es, sid, t);
    SinceIsRest(cfg, es, n);
    StoreFollowsSchedule(cfg, es[..n]);
    hide Apply, Enabled, StoreOpsOf, StoreSchedule, Since, OneAtATime, Ordered, Schedule, StampsInOrder, UsesInOrder;
    assert StampsInOrder(StoreSchedule(cfg, es), sid) by { ItsStamps(After(cfg, es), StoreSchedule(cfg, es), sid, t); }
    RestInOrder(EffectiveIdle(cfg.idle), StoreSchedule(cfg, es[..n]), Since(cfg, es, n), sid);
  }

  lemma ItsStamps(s: State, ops: seq<StoreOp>, sid: string, t: real)
    requires Ordered(s, ops, sid, t)
    ensures StampsInOrder(ops, sid)
  {
  }

  lemma RestInOrder(idle: real, first: seq<StoreOp>, ops: seq<StoreOp>, sid: string)
    requires StampsInOrder(first + ops, sid) && sid in Schedule(idle, map[], first)
    ensures UsesInOrder(Schedule(idle, map[], first)[sid].lastSeen, ops, sid)
  {
    hide Schedule;
    var all := first + ops;
    forall j | 0 <= j < |ops| && UsedIn(ops, j, sid)
      ensures Schedule(idle, map[], first)[sid].lastSeen <= ops[j].now
      ensures forall i | 0 <= i < j && UsedIn(ops, i, sid) :: ops[i].now <= ops[j].now
    {
      assert all[|first| + j] == ops[j];
      assert forall i | 0 <= i < |first| :: all[i] == first[i];
      SeenNotAfter(idle, first, sid, ops[j].now);
      forall i | 0 <= i < j && UsedIn(ops, i, sid) ensures ops[i].now <= ops[j].now {
        assert all[|first| + i] == ops[i];
      }
    }
  }
}
