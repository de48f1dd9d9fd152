/**
 The limiter's promise carried through to the backend: how much of one subject's
 traffic is forwarded.
 */
module LoadBound {
  import opened Common
  import opened TokenBucket
  import opened RateLimiting
  import opened Gateway
  import opened Pipeline

  /** Messages forwarded for a subject whose requests were admitted in [a, b]. */
  function ForwardsDuring(log: seq<Entry>, subject: string, a: real, b: real): nat {
    if log == [] then 0
    else
      var last := log[|log| - 1];
      ForwardsDuring(log[..|log| - 1], subject, a, b)
      + if last.identity.subject == subject && a <= last.at <= b then 1 else 0
  }

  predicate Counts(t: Ticket, subject: string, a: real, b: real) {
    t.identity.subject == subject && a <= t.at <= b
  }

  /** Admitted in the window and not answered yet. */
  function Waiting(tickets: map<nat, Ticket>, subject: string, a: real, b: real): set<nat> {
    set q | q in tickets && Counts(tickets[q], subject, a, b) && !tickets[q].progress.Finished?
  }

  /** What the limiter granted the subject in [a, b]. */
  function GrantedDuring(p: TokenBucket.Params, evictAfter: real, ops: seq<Op>, subject: string, a: real, b: real)
    : nat
  {
    GrantsDuring(TimesOf(ops, subject), AnswersOf(ops, Serve(p, Some(evictAfter), ops).answers, subject), a, b)
  }

  lemma GrantedOneMore(p: TokenBucket.Params, evictAfter: real, ops: seq<Op>, op: Op, subject: string, a: real, b: real)
    ensures GrantedDuring(p, evictAfter, ops + [op], subject, a, b)
            == GrantedDuring(p, evictAfter, ops, subject, a, b)
               + if op.Request? && op.subject == subject && a <= op.now <= b
                    && AllowIn(p, Serve(p, Some(evictAfter), ops).table, op.now, op.subject).1 then 1 else 0
  {
    var all := ops + [op];
    assert all[..|ops|] == ops;
    var r0, r := Serve(p, Some(evictAfter), ops), Serve(p, Some(evictAfter), all);
    assert r.answers[..|ops|] == r0.answers;
    var ts, ds := TimesOf(ops, subject), AnswersOf(ops, r0.answers, subject);
    if op.Request? && op.subject == subject {
      assert (ts + [op.now])[..|ts|] == ts && (ds + [r.answers[|ops|]])[..|ds|] == ds;
    } else {
      assert ts + [] == ts && ds + [] == ds;
    }
  }

  /** Every message forwarded for the subject used up a request that the limiter had
      granted, each request at most one. */
  predicate Paid(p: TokenBucket.Params, evictAfter: real, s: Pipeline.State, subject: string, a: real, b: real) {
    ForwardsDuring(s.log, subject, a, b) + |Waiting(s.tickets, subject, a, b)|
    <= GrantedDuring(p, evictAfter, s.ops, subject, a, b)
  }

  /** With the limiter on, an arrival either asks it, and is let in exactly when it
      says yes, or comes in without a subject, or is turned away before. */
  lemma ArriveEffect(cfg: Settings, s: Pipeline.State, e: Event)
    requires Enabled(cfg, s, e) && e.Arrive? && LimitParams(cfg).Some?
    ensures var t, id := Apply(cfg, s, e), cfg.auth(e.req.authorization);
            && t.log == s.log
            && (t.ops == s.ops ==>
                  t.tickets == s.tickets
                  || (id.Some? && id.value.subject == ""
                      && t.tickets == s.tickets[e.q := Ticket(e.req, id.value, e.now, Admitted)]))
            && (t.ops != s.ops ==>
                  && id.Some? && t.ops == s.ops + [Op.Request(e.now, id.value.subject)]
                  && t.tickets
                     == if AllowIn(LimitParams(cfg).value, Limiter(cfg, s.ops), e.now, id.value.subject).1
                        then s.tickets[e.q := Ticket(e.req, id.value, e.now, Admitted)] else s.tickets)
  {
    ChainOrder(cfg, Limiter(cfg, s.ops), e.now, e.req);
    hide Admit, LimitParams, AllowIn, Limiter;
  }

  lemma WaitingOneMore(tickets: map<nat, Ticket>, q: nat, t: Ticket, subject: string, a: real, b: real)
    requires q !in tickets && t.progress.Admitted?
    ensures |Waiting(tickets[q := t], subject, a, b)|
            == |Waiting(tickets, subject, a, b)| + if Counts(t, subject, a, b) then 1 else 0
  {
    assert Waiting(tickets[q := t], subject, a, b)
           == Waiting(tickets, subject, a, b) + if Counts(t, subject, a, b) then {q} else {};
  }

  lemma ArriveStaysPaid(cfg: Settings, s: Pipeline.State, e: Event, subject: string, a: real, b: real)
    requires Enabled(cfg, s, e) && e.Arrive? && LimitParams(cfg).Some? && subject != ""
    requires Paid(LimitParams(cfg).value, cfg.limit.value.evictAfter, s, subject, a, b)
    ensures Paid(LimitParams(cfg).value, cfg.limit.value.evictAfter, Apply(cfg, s, e), subject, a, b)
  {
    ArriveEffect(cfg, s, e);
    var id := cfg.auth(e.req.authorization);
    if id.Some? {
      GrantedOneMore(LimitParams(cfg).value, cfg.limit.value.evictAfter, s.ops,
                     Op.Request(e.now, id.value.subject), subject, a, b);
      WaitingOneMore(s.tickets, e.q, Ticket(e.req, id.value, e.now, Admitted), subject, a, b);
    }
    hide Apply, GrantedDuring, LimitParams, AllowIn, Waiting;
  }

  lemma OthersStayPaid(cfg: Settings, s: Pipeline.State, e: Event, subject: string, a: real, b: real)
    requires Enabled(cfg, s, e) && !e.Arrive? && LimitParams(cfg).Some?
    requires Paid(LimitParams(cfg).value, cfg.limit.value.evictAfter, s, subject, a, b)
    ensures Paid(LimitParams(cfg).value, cfg.limit.value.evictAfter, Apply(cfg, s, e), subject, a, b)
  {
    var p, evictAfter := LimitParams(cfg).value, cfg.limit.value.evictAfter;
    var t := Apply(cfg, s, e);
    OpsStep(cfg, s, e);
    forall q
      ensures q in t.tickets <==> q in s.tickets
      ensures q in s.tickets ==>
              t.tickets[q].identity == s.tickets[q].identity && t.tickets[q].at == s.tickets[q].at
              && (s.tickets[q].progress.Finished? ==> t.tickets[q].progress.Finished?)
    {
      TicketsStep(cfg, s, e, q);
    }
    LogStep(cfg, s, e);
    var before, after := Waiting(s.tickets, subject, a, b), Waiting(t.tickets, subject, a, b);
    hide Apply, GrantedDuring, LimitParams, WithinPolicy;
    if e.Cleanup? {
      GrantedOneMore(p, evictAfter, s.ops, Tick(e.now), subject, a, b);
    }
    assert after <= before;
    Smaller(after, before);
    if t.log != s.log && Counts(s.tickets[e.q], subject, a, b) {
      assert after <= before - {e.q};
      Smaller(after, before - {e.q});
    }
  }

  lemma Smaller(a: set<nat>, b: set<nat>)
    requires a <= b
    ensures |a| <= |b|
  {
    if a != b {
      assert b == a + (b - a);
    }
  }

  /** Events other than arrivals ask the limiter nothing. */
  lemma OpsStep(cfg: Settings, s: Pipeline.State, e: Event)
    requires Enabled(cfg, s, e) && !e.Arrive?
    ensures Apply(cfg, s, e).ops == if e.Cleanup? then s.ops + [Tick(e.now)] else s.ops
    ensures e.Finish? ==> !s.tickets[e.q].progress.Finished?
  {
    hide HandleRequest, SessionCheck, LimitParams, Admit, Limiter, ApplyArrive;
  }

  /** They change one ticket's progress at most, never back from finished. */
  lemma TicketsStep(cfg: Settings, s: Pipeline.State, e: Event, q: nat)
    requires Enabled(cfg, s, e) && !e.Arrive?
    ensures var t := Apply(cfg, s, e);
            && (q in t.tickets <==> q in s.tickets)
            && (q in s.tickets ==>
                  t.tickets[q].req == s.tickets[q].req
                  && t.tickets[q].identity == s.tickets[q].identity && t.tickets[q].at == s.tickets[q].at
                  && (s.tickets[q].progress.Finished? ==> t.tickets[q].progress.Finished?))
  {
    hide SessionCheck, LimitParams, Admit, Limiter, ApplyArrive, ApplyFinish;
    if e.Finish? { FinishTicket(cfg, s, e); }
  }

  lemma NothingOwed(p: TokenBucket.Params, evictAfter: real, subject: string, a: real, b: real)
    ensures Paid(p, evictAfter, INITIAL, subject, a, b)
  {
    assert Waiting(INITIAL.tickets, subject, a, b) == {};
  }

  lemma {:induction false} RunsArePaid(cfg: Settings, es: seq<Event>, subject: string, a: real, b: real)
    requires Legal(cfg, es) && LimitParams(cfg).Some? && subject != ""
    ensures Paid(LimitParams(cfg).value, cfg.limit.value.evictAfter, After(cfg, es), subject, a, b)
  {
    hide Apply, Enabled, Paid;
    if es != [] {
      var prev, e := es[..|es| - 1], es[|es| - 1];
      RunsArePaid(cfg, prev, subject, a, b);
      if e.Arrive? {
        ArriveStaysPaid(cfg, After(cfg, prev), e, subject, a, b);
      } else {
        OthersStayPaid(cfg, After(cfg, prev), e, subject, a, b);
      }
    } else {
      NothingOwed(LimitParams(cfg).value, cfg.limit.value.evictAfter, subject, a, b);
    }
  }

  /** Backend load, end to end: with the limiter on, a sweep that is invisible
      (RateLimiting.TransparentIff) and a clock that does not go back, the calls and
      notifications forwarded for a non-empty subject, counted by when their requests
      were admitted, number at most burst + rate * (b - a) over any stretch of time
      [a, b], in every interleaving of requests and sweeps. */
  lemma BackendLoadBound(cfg: Settings, es: seq<Event>, subject: string, a: real, b: real)
    requires Legal(cfg, es) && LimitParams(cfg).Some? && subject != "" && a <= b
    requires var p := LimitParams(cfg).value; p.capacity < 1.0 || RefillsWithin(p, cfg.limit.value.evictAfter)
    requires RateLimiting.InOrder(After(cfg, es).ops)
    ensures ForwardsDuring(After(cfg, es).log, subject, a, b) as real
            <= LimitParams(cfg).value.capacity + Accrued(LimitParams(cfg).value.rate, b - a)
  {
    RunsArePaid(cfg, es, subject, a, b);
    SubjectLoadBound(LimitParams(cfg).value, cfg.limit.value.evictAfter, After(cfg, es).ops, subject, a, b);
  }

  // -------------------------------------------------------- requests admitted

  /** The requests of the subject that were admitted in [a, b], answered or not. */
  function AdmittedIn(tickets: map<nat, Ticket>, subject: string, a: real, b: real): set<nat> {
    set q | q in tickets && Counts(tickets[q], subject, a, b)
  }

  /** The limiter granted every one of them. */
  predicate AllGranted(p: TokenBucket.Params, evictAfter: real, s: Pipeline.State, subject: string, a: real, b: real) {
    |AdmittedIn(s.tickets, subject, a, b)| <= GrantedDuring(p, evictAfter, s.ops, subject, a, b)
  }

  lemma AdmittedOneMore(tickets: map<nat, Ticket>, q: nat, t: Ticket, subject: string, a: real, b: real)
    requires q !in tickets
    ensures |AdmittedIn(tickets[q := t], subject, a, b)|
            == |AdmittedIn(tickets, subject, a, b)| + if Counts(t, subject, a, b) then 1 else 0
  {
    assert AdmittedIn(tickets[q := t], subject, a, b)
           == AdmittedIn(tickets, subject, a, b) + if Counts(t, subject, a, b) then {q} else {};
  }

  lemma StepKeepsAllGranted(cfg: Settings, s: Pipeline.State, e: Event, subject: string, a: real, b: real)
    requires Enabled(cfg, s, e) && LimitParams(cfg).Some? && subject != ""
    requires AllGranted(LimitParams(cfg).value, cfg.limit.value.evictAfter, s, subject, a, b)
    ensures AllGranted(LimitParams(cfg).value, cfg.limit.value.evictAfter, Apply(cfg, s, e), subject, a, b)
  {
    if e.Arrive? {
      ArrivalIsGranted(cfg, s, e, subject, a, b);
    } else {
      var p, evictAfter, t := LimitParams(cfg).value, cfg.limit.value.evictAfter, Apply(cfg, s, e);
      OpsStep(cfg, s, e);
      forall q
        ensures q in t.tickets <==> q in s.tickets
        ensures q in s.tickets ==>
                t.tickets[q].identity == s.tickets[q].identity && t.tickets[q].at == s.tickets[q].at
      {
        TicketsStep(cfg, s, e, q);
      }
      if e.Cleanup? {
        GrantedOneMore(p, evictAfter, s.ops, Tick(e.now), subject, a, b);
      }
      hide Apply, Enabled, GrantedDuring, LimitParams;
      assert AdmittedIn(t.tickets, subject, a, b) == AdmittedIn(s.tickets, subject, a, b);
    }
  }

  lemma ArrivalIsGranted(cfg: Settings, s: Pipeline.State, e: Event, subject: string, a: real, b: real)
    requires Enabled(cfg, s, e) && e.Arrive? && LimitParams(cfg).Some? && subject != ""
    requires AllGranted(LimitParams(cfg).value, cfg.limit.value.evictAfter, s, subject, a, b)
    ensures AllGranted(LimitParams(cfg).value, cfg.limit.value.evictAfter, Apply(cfg, s, e), subject, a, b)
  {
    ArriveEffect(cfg, s, e);
    var id := cfg.auth(e.req.authorization);
    if id.Some? {
      GrantedOneMore(LimitParams(cfg).value, cfg.limit.value.evictAfter, s.ops,
                     Op.Request(e.now, id.value.subject), subject, a, b);
      AdmittedOneMore(s.tickets, e.q, Ticket(e.req, id.value, e.now, Admitted), subject, a, b);
    }
    hide Apply, GrantedDuring, LimitParams, AllowIn, AdmittedIn;
  }

  lemma NothingAdmitted(p: TokenBucket.Params, evictAfter: real, subject: string, a: real, b: real)
    ensures AllGranted(p, evictAfter, INITIAL, subject, a, b)
  {
    assert AdmittedIn(INITIAL.tickets, subject, a, b) == {};
  }
}
