/**
 The request pipeline on top of the pool and its child processes: a request's RunnerFor
 and its call carry the request's own number, what the handler answers is what that call
 came back with, and a notification goes to the runner its request was given.
 */
module EndToEnd {
  import opened Common
  import opened ListFilter
  import opened Gateway
  import W = Pipeline
  import B = Backends
  import P = PoolProtocol
  import D = Demux
  import L = LoadBound
  import R = RateLimiting
  import T = TokenBucket

  /** How params are put into a line for the child, and what its lines mean. */
  datatype Codec = Codec(write: CallParams -> string, read: string -> Value, errorCode: string -> int)

  /** noted tells to which child the notification of a request has been written. */
  datatype State = State(web: W.State, back: B.State, noted: map<nat, nat>)

  datatype Event =
    | Web(we: W.Event)
    | Back(be: B.Event)
    | Answer(q: nat, now: real)
    | Turned(q: nat, now: real)
    | Notice(q: nat)

  function Start(shareSafe: bool): State {
    State(W.INITIAL, B.Start(shareSafe), map[])
  }

  /** What a request asks the child. */
  function AskOf(codec: Codec, req: Request): D.Ask {
    if req.body.Msg? then D.Ask(req.body.m.method_, codec.write(req.body.m.params)) else D.Ask("", "")
  }

  /** What the runner's Call returns to the handler. */
  function ReplyOf(codec: Codec, outcome: D.Outcome): W.Reply {
    if !outcome.Received? then W.ReplyError(INTERNAL_ERROR)
    else
      match outcome.line.body
      case Answer(text) => W.ReplyResult(codec.read(text))
      case Error(text) => W.ReplyError(codec.errorCode(text))
      case Garbled => W.ReplyError(INTERNAL_ERROR)
  }

  /** The request is in its handler, past the session update. */
  predicate InHandler(web: W.State, q: nat) {
    q in web.tickets && web.tickets[q].progress.Touched?
  }

  /** A request whose handler calls the runner: not ping, and past the gate. */
  predicate Calls(cfg: Settings, t: W.Ticket) {
    && t.req.verb.Post? && t.req.body.Msg? && t.req.body.m.IsRequest() && t.req.body.m.method_ != "ping"
    && W.GateCheck(cfg, t.identity, W.RouteOf(t.req.body.m.method_), t.req.body.m.params).None?
  }

  /** A request whose handler passes its notification on to the runner. */
  predicate Notifies(t: W.Ticket) {
    && t.req.verb.Post? && t.req.body.Msg? && t.req.body.m.IsNotification()
    && t.req.body.m.method_ != "notifications/initialized"
  }

  /** A request whose handler asks for a runner. */
  predicate UsesRunner(t: W.Ticket) {
    || (t.req.verb.Post? && t.req.body.Msg? && t.req.body.m.IsRequest() && t.req.body.m.method_ != "ping")
    || Notifies(t)
  }

  /** RunnerFor gave request q an error. */
  predicate RunnerRefused(back: B.State, q: nat) {
    q in back.pool.calls && (back.pool.calls[q].Refused? || (back.pool.calls[q].Returned? && !back.pool.calls[q].ok))
  }

  /** RunnerFor gave request q a runner. */
  predicate HasRunner(back: B.State, q: nat) {
    q in back.pool.calls && back.pool.calls[q].Returned? && back.pool.calls[q].ok && back.pool.calls[q].r < |back.pipes|
  }

  function PipeOf(back: B.State, q: nat): D.State
    requires HasRunner(back, q)
  {
    back.pipes[back.pool.calls[q].r]
  }

  /** The runner's Call of request q is over. */
  predicate CallIsOver(back: B.State, q: nat) {
    HasRunner(back, q) && (back.pool.calls[q].r, q) in back.owner
    && q in PipeOf(back, q).calls && PipeOf(back, q).calls[q].phase.Gone?
  }

  /** The Finish of a request whose Call came back with this. */
  function FinishWith(codec: Codec, back: B.State, q: nat, now: real): W.Event
    requires CallIsOver(back, q)
  {
    W.Finish(q, now, W.Have, ReplyOf(codec, PipeOf(back, q).calls[q].phase.outcome))
  }

  predicate Enabled(cfg: Settings, codec: Codec, s: State, e: Event) {
    match e
    case Web(we) =>
      W.Enabled(cfg, s.web, we)
      && (we.Finish? && we.q in s.web.tickets && UsesRunner(s.web.tickets[we.q]) ==>
            match we.runner
            case Have => HasRunner(s.back, we.q) && !Calls(cfg, s.web.tickets[we.q])
            case LookupFailed => RunnerRefused(s.back, we.q)
            case NoRunner => false)
    case Back(be) =>
      && B.Enabled(s.back, be)
      && (match be
          case Pool(Lookup(t, subject, _)) => InHandler(s.web, t) && s.web.tickets[t].identity.subject == subject
          case Pool(LookupBuildFails(t, subject)) =>
            InHandler(s.web, t) && s.web.tickets[t].identity.subject == subject
          case ClientCall(t, c, ask) =>
            c == t && InHandler(s.web, t) && Calls(cfg, s.web.tickets[t]) && ask == AskOf(codec, s.web.tickets[t].req)
          case _ => true)
    case Answer(q, now) =>
      InHandler(s.web, q) && Calls(cfg, s.web.tickets[q]) && CallIsOver(s.back, q)
      && W.Enabled(cfg, s.web, FinishWith(codec, s.back, q, now))
    case Turned(q, now) =>
      InHandler(s.web, q) && Calls(cfg, s.web.tickets[q]) && HasRunner(s.back, q) && PipeOf(s.back, q).sh.stopped
      && W.Enabled(cfg, s.web, W.Finish(q, now, W.Have, W.ReplyError(INTERNAL_ERROR)))
    case Notice(q) => InHandler(s.web, q) && Notifies(s.web.tickets[q]) && HasRunner(s.back, q) && q !in s.noted
  }

  function Apply(cfg: Settings, codec: Codec, s: State, e: Event): State
    requires Enabled(cfg, codec, s, e)
  {
    match e
    case Web(we) => s.(web := W.Apply(cfg, s.web, we))
    case Back(be) => s.(back := B.Apply(s.back, be))
    case Answer(q, now) => s.(web := W.Apply(cfg, s.web, FinishWith(codec, s.back, q, now)))
    case Turned(q, now) =>
      s.(web := W.Apply(cfg, s.web, W.Finish(q, now, W.Have, W.ReplyError(INTERNAL_ERROR))))
    case Notice(q) => s.(noted := s.noted[q := s.back.pool.calls[q].r])
  }

  predicate Legal(cfg: Settings, codec: Codec, s: State, es: seq<Event>)
    decreases |es|
  {
    es == [] || (Enabled(cfg, codec, s, es[0]) && Legal(cfg, codec, Apply(cfg, codec, s, es[0]), es[1..]))
  }

  function After(cfg: Settings, codec: Codec, s: State, es: seq<Event>): State
    requires Legal(cfg, codec, s, es)
    decreases |es|
  {
    if es == [] then s else After(cfg, codec, Apply(cfg, codec, s, es[0]), es[1..])
  }

  // ----------------------------------------------------------------- invariant

  /** A client's call on a runner is that of the request of the same number: for the same
      subject, asking what it asks, on the runner it was given. */
  predicate Linked(codec: Codec, s: State, r: nat, c: nat)
    requires (r, c) in s.back.owner
  {
    && c in s.web.tickets && s.web.tickets[c].identity.subject == s.back.owner[(r, c)]
    && c in s.back.pool.calls && s.back.pool.calls[c] == P.Returned(s.back.owner[(r, c)], r, true)
    && r < |s.back.pipes| && c in s.back.pipes[r].calls
    && s.back.pipes[r].calls[c].ask == AskOf(codec, s.web.tickets[c].req)
    && s.web.tickets[c].req.body.Msg? && s.web.tickets[c].req.body.m.IsRequest()
  }

  /** A notification went to the runner that its own request was given. */
  predicate NoteOk(s: State, q: nat)
    requires q in s.noted
  {
    && q in s.web.tickets && q in s.back.pool.calls
    && s.back.pool.calls[q] == P.Returned(s.web.tickets[q].identity.subject, s.noted[q], true)
    && s.web.tickets[q].req.body.Msg? && s.web.tickets[q].req.body.m.IsNotification()
  }

  predicate IsRunnerFor(c: P.Call) {
    c.AtOnce? || c.InStart? || c.Returned? || c.Refused?
  }

  /** A RunnerFor is that of the request of the same number. */
  predicate Asked(s: State, t: nat)
    requires t in s.back.pool.calls
  {
    IsRunnerFor(s.back.pool.calls[t]) ==>
      t in s.web.tickets && s.web.tickets[t].identity.subject == s.back.pool.calls[t].subject
  }

  ghost predicate Inv(codec: Codec, s: State) {
    && B.Inv(s.back)
    && (forall t {:trigger Asked(s, t)} | t in s.back.pool.calls :: Asked(s, t))
    && (forall r, c {:trigger Linked(codec, s, r, c)} | (r, c) in s.back.owner :: Linked(codec, s, r, c))
    && (forall q {:trigger NoteOk(s, q)} | q in s.noted :: NoteOk(s, q))
  }

  /** A ticket keeps its request and its identity. */
  lemma TicketStays(cfg: Settings, s: W.State, e: W.Event, q: nat)
    requires W.Enabled(cfg, s, e) && q in s.tickets
    ensures var t := W.Apply(cfg, s, e);
            q in t.tickets && t.tickets[q].req == s.tickets[q].req && t.tickets[q].identity == s.tickets[q].identity
  {
    if e.Arrive? {
      hide LimitParams, Admit, Limiter;
    } else {
      L.TicketsStep(cfg, s, e, q);
      hide W.Apply, W.Enabled;
    }
  }

  /** A RunnerFor that has returned stays returned. */
  lemma ReturnedStays(s: P.State, e: P.Event, t: nat)
    requires P.Enabled(s, e) && t in s.calls && s.calls[t].Returned?
    ensures t in P.Apply(s, e).calls && P.Apply(s, e).calls[t] == s.calls[t]
  {
    hide P.Victims, P.HandTo;
  }

  /** A call keeps what it asks. */
  lemma AskStays(s: D.State, e: D.Event, c: nat)
    requires D.Enabled(s, e) && c in s.calls
    ensures c in D.Apply(s, e).calls && D.Apply(s, e).calls[c].ask == s.calls[c].ask
  {
  }

  lemma WebKeepsLinks(cfg: Settings, codec: Codec, s: State, we: W.Event)
    requires Inv(codec, s) && W.Enabled(cfg, s.web, we)
    ensures Inv(codec, s.(web := W.Apply(cfg, s.web, we)))
  {
    hide W.Apply, W.Enabled, B.Inv;
    var t := s.(web := W.Apply(cfg, s.web, we));
    forall u | u in t.back.pool.calls ensures Asked(t, u) {
      assert Asked(s, u);
      if u in s.web.tickets { TicketStays(cfg, s.web, we, u); }
    }
    forall r, c | (r, c) in t.back.owner ensures Linked(codec, t, r, c) {
      assert Linked(codec, s, r, c);
      TicketStays(cfg, s.web, we, c);
    }
    forall q | q in t.noted ensures NoteOk(t, q) {
      assert NoteOk(s, q);
      TicketStays(cfg, s.web, we, q);
    }
  }

  lemma AskerStep(s: P.State, e: P.Event, t: nat)
    requires P.Enabled(s, e) && t in P.Apply(s, e).calls && IsRunnerFor(P.Apply(s, e).calls[t])
    ensures || (t in s.calls && IsRunnerFor(s.calls[t]) && P.Apply(s, e).calls[t].subject == s.calls[t].subject)
            || ((e.Lookup? || e.LookupBuildFails?) && e.t == t && P.Apply(s, e).calls[t].subject == e.subject)
  {
    hide P.Victims, P.HandTo;
  }

  lemma BackKeepsAsked(cfg: Settings, codec: Codec, s: State, be: B.Event)
    requires Inv(codec, s) && Enabled(cfg, codec, s, Back(be))
    ensures var t := s.(back := B.Apply(s.back, be)); forall u | u in t.back.pool.calls :: Asked(t, u)
  {
    var t := s.(back := B.Apply(s.back, be));
    hide B.Inv, P.Apply, P.Enabled, W.GateCheck;
    forall u | u in t.back.pool.calls ensures Asked(t, u) {
      assert u in s.back.pool.calls ==> Asked(s, u);
      if be.Pool? && IsRunnerFor(t.back.pool.calls[u]) { AskerStep(s.back.pool, be.pe, u); }
    }
  }

  lemma BackKeepsLinks(cfg: Settings, codec: Codec, s: State, be: B.Event)
    requires Inv(codec, s) && Enabled(cfg, codec, s, Back(be))
    ensures Inv(codec, s.(back := B.Apply(s.back, be)))
  {
    B.StepKeepsInv(s.back, be);
    var t := s.(back := B.Apply(s.back, be));
    BackKeepsAsked(cfg, codec, s, be);
    if be.ClientCall? { assert Asked(s, be.t); }
    hide B.Inv, W.GateCheck;
    forall r, c | (r, c) in t.back.owner ensures Linked(codec, t, r, c) {
      if be.ClientCall? && (r, c) == (s.back.pool.calls[be.t].r, be.c) {
      } else {
        assert Linked(codec, s, r, c);
        CallStays(s.back, be, r, c);
      }
    }
    forall q | q in t.noted ensures NoteOk(t, q) {
      assert NoteOk(s, q);
      if be.Pool? { ReturnedStays(s.back.pool, be.pe, q); }
    }
  }

  lemma CallStays(s: B.State, be: B.Event, r: nat, c: nat)
    requires B.Enabled(s, be) && r < |s.pipes| && c in s.pipes[r].calls
    requires c in s.pool.calls && s.pool.calls[c].Returned?
    ensures var t := B.Apply(s, be);
            && r < |t.pipes| && c in t.pipes[r].calls && t.pipes[r].calls[c].ask == s.pipes[r].calls[c].ask
            && c in t.pool.calls && t.pool.calls[c] == s.pool.calls[c]
  {
    match be
    case Pool(pe) => ReturnedStays(s.pool, pe, c);
    case Pipe(q, de) => if q == r { AskStays(s.pipes[r], de, c); }
    case CloseDoor(u) => if s.pool.calls[u].r == r { AskStays(s.pipes[r], D.MarkStopped, c); }
    case ClientCall(u, d, ask) => if s.pool.calls[u].r == r { AskStays(s.pipes[r], D.Register(d, ask), c); }
  }

  lemma StepKeepsInv(cfg: Settings, codec: Codec, s: State, e: Event)
    requires Inv(codec, s) && Enabled(cfg, codec, s, e)
    ensures Inv(codec, Apply(cfg, codec, s, e))
  {
    hide Inv, W.Apply, B.Apply, Calls, FinishWith;
    match e
    case Web(we) => WebKeepsLinks(cfg, codec, s, we);
    case Back(be) => BackKeepsLinks(cfg, codec, s, be);
    case Answer(q, now) => WebKeepsLinks(cfg, codec, s, FinishWith(codec, s.back, q, now));
    case Turned(q, now) => WebKeepsLinks(cfg, codec, s, W.Finish(q, now, W.Have, W.ReplyError(INTERNAL_ERROR)));
    case Notice(q) => NoticeKeepsInv(cfg, codec, s, q);
  }

  lemma NoticeKeepsInv(cfg: Settings, codec: Codec, s: State, q: nat)
    requires Inv(codec, s) && Enabled(cfg, codec, s, Notice(q))
    ensures Inv(codec, Apply(cfg, codec, s, Notice(q)))
  {
    hide B.Inv;
    var t := Apply(cfg, codec, s, Notice(q));
    assert Asked(s, q);
    forall u | u in t.back.pool.calls ensures Asked(t, u) { assert Asked(s, u); }
    forall r, c | (r, c) in t.back.owner ensures Linked(codec, t, r, c) { assert Linked(codec, s, r, c); }
    forall u | u in t.noted ensures NoteOk(t, u) { assert u != q ==> NoteOk(s, u); }
  }

  lemma {:induction false} RunsKeepInv(cfg: Settings, codec: Codec, s: State, es: seq<Event>)
    requires Inv(codec, s) && Legal(cfg, codec, s, es)
    ensures Inv(codec, After(cfg, codec, s, es))
    decreases |es|
  {
    hide Inv, Enabled, Apply;
    if es != [] {
      StepKeepsInv(cfg, codec, s, es[0]);
      RunsKeepInv(cfg, codec, Apply(cfg, codec, s, es[0]), es[1..]);
    }
  }

  /** The part of a run that pool and pipes see. */
  function BackEvents(es: seq<Event>): seq<B.Event> {
    if es == [] then []
    else if es[0].Back? then [es[0].be] + BackEvents(es[1..])
    else BackEvents(es[1..])
  }

  lemma {:induction false} BackRunsItsPart(cfg: Settings, codec: Codec, s: State, es: seq<Event>)
    requires Legal(cfg, codec, s, es)
    ensures B.Legal(s.back, BackEvents(es)) && B.After(s.back, BackEvents(es)) == After(cfg, codec, s, es).back
    decreases |es|
  {
    hide B.Enabled, B.Apply, W.Enabled, W.Apply, Calls;
    if es != [] {
      BackRunsItsPart(cfg, codec, Apply(cfg, codec, s, es[0]), es[1..]);
      if es[0].Back? {
        var rest := BackEvents(es[1..]);
        assert ([es[0].be] + rest)[1..] == rest;
      }
    }
  }

  ghost predicate Reached(cfg: Settings, codec: Codec, shareSafe: bool, es: seq<Event>, s: State) {
    Legal(cfg, codec, Start(shareSafe), es) && After(cfg, codec, Start(shareSafe), es) == s
  }

  lemma ReachedInv(cfg: Settings, codec: Codec, shareSafe: bool, es: seq<Event>, s: State)
    requires Reached(cfg, codec, shareSafe, es, s)
    ensures Inv(codec, s) && B.Reached(shareSafe, BackEvents(es), s.back)
  {
    assert Inv(codec, Start(shareSafe));
    RunsKeepInv(cfg, codec, Start(shareSafe), es);
    BackRunsItsPart(cfg, codec, Start(shareSafe), es);
  }

  // ------------------------------------------------------------------ theorems

  /** What a client is shown of a result. */
  function Shown(cfg: Settings, t: W.Ticket, value: Value): Value
    requires t.req.body.Msg?
  {
    var route := W.RouteOf(t.req.body.m.method_);
    if route.ListRoute? then Forwarded(value, route.key, W.Allow(cfg, t.identity, route.c)) else value
  }

  /** The answer a request gets is what its call came back with. */
  lemma AnswerIsReply(cfg: Settings, codec: Codec, s: State, q: nat, now: real)
    requires Enabled(cfg, codec, s, Answer(q, now))
    ensures var outcome := PipeOf(s.back, q).calls[q].phase.outcome;
            var t := Apply(cfg, codec, s, Answer(q, now)).web;
            && q in t.tickets
            && t.tickets[q].progress
               == W.Finished(match ReplyOf(codec, outcome)
                             case ReplyError(code) => RpcError(code)
                             case ReplyResult(value) => Answered(Shown(cfg, s.web.tickets[q], value)))
  {
    hide ReplyOf, W.GateCheck;
  }

  /** End to end, in isolate mode and in every interleaving of requests, sweeps, evictions
      and children: when a request is answered with what the child said, the child's line
      carries the id of this request's own call, and if the child echoes ids it is a right
      answer to what this very request asked; the client sees it, filtered if it is a list;
      and every client request and every client notification that this child has ever been
      sent is one of the same subject. */
  lemma AnswersAreOwn(cfg: Settings, codec: Codec, es: seq<Event>, s: State, q: nat, now: real,
                      right: (D.Ask, string) -> bool)
    requires Reached(cfg, codec, false, es, s) && Enabled(cfg, codec, s, Answer(q, now))
    ensures var pipe, t := PipeOf(s.back, q), s.web.tickets[q];
            var call, t' := pipe.calls[q], Apply(cfg, codec, s, Answer(q, now)).web.tickets;
            && call.ask == AskOf(codec, t.req)
            && (call.phase.outcome.Received? && call.phase.outcome.line.body.Answer? ==>
                  var line := call.phase.outcome.line;
                  && line.id == call.id
                  && (D.Echoes(pipe, right) ==> right(AskOf(codec, t.req), line.body.text))
                  && q in t' && t'[q].progress == W.Finished(Answered(Shown(cfg, t, codec.read(line.body.text)))))
    ensures OnlyAskedBy(s, s.back.pool.calls[q].r, s.web.tickets[q].identity.subject)
  {
    ReachedInv(cfg, codec, false, es, s);
    var r := s.back.pool.calls[q].r;
    assert Linked(codec, s, r, q);
    AnswerIsReply(cfg, codec, s, q, now);
    B.OneSubjectPerProcess(BackEvents(es), s.back, r, q, right);
    OneSubjectIsAsked(codec, BackEvents(es), s, r, q);
  }

  /** Isolate mode: whoever has been given a child's runner, every client request and
      notification ever written to that child is of the same subject. */
  lemma OneSubjectIsAsked(codec: Codec, bs: seq<B.Event>, s: State, r: nat, q: nat)
    requires Inv(codec, s) && B.Reached(false, bs, s.back) && q in s.web.tickets && q in s.back.pool.calls
    requires s.back.pool.calls[q] == P.Returned(s.web.tickets[q].identity.subject, r, true) && r < |s.back.pipes|
    ensures OnlyAskedBy(s, r, s.web.tickets[q].identity.subject)
  {
    var subject := s.web.tickets[q].identity.subject;
    assert s.back.pool.shareSafe == false && P.Inv(s.back.pool) by { B.ReachedInv(false, bs, s.back); }
    hide B.Inv, B.Reached, P.Inv;
    forall j | 0 <= j < |s.back.pipes[r].wire| && WrittenFor(s, r, j).Some?
      ensures s.web.tickets[WrittenFor(s, r, j).value].identity.subject == subject
    {
      assert Linked(codec, s, r, WrittenFor(s, r, j).value);
      SameRunnerSameSubject(s.back.pool, q, WrittenFor(s, r, j).value);
    }
    forall u | u in s.noted && s.noted[u] == r && u in s.web.tickets
      ensures s.web.tickets[u].identity.subject == subject
    {
      assert NoteOk(s, u);
      SameRunnerSameSubject(s.back.pool, q, u);
    }
  }

  lemma SameRunnerSameSubject(s: P.State, t: nat, u: nat)
    requires P.Inv(s) && !s.shareSafe && t in s.calls && u in s.calls
    requires s.calls[t].Returned? && s.calls[u].Returned? && s.calls[t].r == s.calls[u].r
    ensures s.calls[t].subject == s.calls[u].subject
  {
    P.CallFacts(s, t);
    P.CallFacts(s, u);
    P.KeysTellSubjects(s.calls[t].subject, s.calls[u].subject);
  }

  /** The client request for which line j was written to a child, if it was for one. */
  function WrittenFor(s: State, r: nat, j: nat): (q: Option<nat>)
    requires r < |s.back.pipes| && j < |s.back.pipes[r].wire|
    ensures q.Some? ==> (r, q.value) in s.back.owner && q.value in s.web.tickets
  {
    var pipe := s.back.pipes[r];
    var id := pipe.wire[j].id;
    if id in pipe.drawn && (r, pipe.drawn[id]) in s.back.owner && pipe.drawn[id] in s.web.tickets
    then Some(pipe.drawn[id]) else None
  }

  /** Every client request and notification written to a child is one of the subject's. */
  ghost predicate OnlyAskedBy(s: State, r: nat, subject: string) {
    && r < |s.back.pipes|
    && (forall j | 0 <= j < |s.back.pipes[r].wire| && WrittenFor(s, r, j).Some? ::
          s.web.tickets[WrittenFor(s, r, j).value].identity.subject == subject)
    && (forall q | q in s.noted && s.noted[q] == r && q in s.web.tickets ::
          s.web.tickets[q].identity.subject == subject)
  }

  /** Shared mode: once the shared child has closed its output and the drain is over, a
      request that comes to the pool later gets the dead runner until Close, and its call
      is never answered: it comes back, if at all, because the write failed or its own
      context gave up, and the client gets an internal error. */
  lemma SharedChildGone(cfg: Settings, codec: Codec, s: State, es: seq<Event>, warm: nat, q: nat)
    requires Inv(codec, s) && Legal(cfg, codec, s, es) && s.back.pool.shareSafe
    requires forall e | e in es :: !(e.Back? && e.be.Pool? && e.be.pe.Warm?)
    requires forall t | t in s.back.pool.calls :: !P.StartingUp(s.back.pool.calls[t])
    requires warm < |s.back.pipes| && warm < |s.back.pool.runners| && s.back.pool.runners[warm].phase == P.Ready
    requires s.back.pool.closed
             || (P.SHARED_KEY in s.back.pool.instances && s.back.pool.instances[P.SHARED_KEY] == warm)
    requires s.back.pipes[warm].reader.Finished?
    requires q !in s.back.pool.calls && q !in s.back.pipes[warm].calls
    ensures var f := After(cfg, codec, s, es);
            forall r | (r, q) in f.back.owner :: r == warm && warm < |f.back.pipes| && D.Unheard(f.back.pipes[warm], q)
    ensures var f := After(cfg, codec, s, es);
            forall now | Enabled(cfg, codec, f, Answer(q, now)) ::
              var t := Apply(cfg, codec, f, Answer(q, now)).web;
              q in t.tickets && t.tickets[q].progress == W.Finished(RpcError(INTERNAL_ERROR))
  {
    SharedCallsAreUnheard(cfg, codec, s, es, warm, q);
    hide Inv, After, Legal;
    UnheardMeansError(cfg, codec, After(cfg, codec, s, es), warm, q);
  }

  /** What the client gets for a call that its child never answers. */
  lemma UnheardMeansError(cfg: Settings, codec: Codec, f: State, r: nat, q: nat)
    requires forall r' | (r', q) in f.back.owner :: r' == r && r < |f.back.pipes| && D.Unheard(f.back.pipes[r], q)
    ensures forall now | Enabled(cfg, codec, f, Answer(q, now)) ::
              var t := Apply(cfg, codec, f, Answer(q, now)).web;
              q in t.tickets && t.tickets[q].progress == W.Finished(RpcError(INTERNAL_ERROR))
  {
    forall now | Enabled(cfg, codec, f, Answer(q, now))
      ensures var t := Apply(cfg, codec, f, Answer(q, now)).web;
              q in t.tickets && t.tickets[q].progress == W.Finished(RpcError(INTERNAL_ERROR))
    {
      AnswerIsReply(cfg, codec, f, q, now);
    }
  }

  lemma SharedCallsAreUnheard(cfg: Settings, codec: Codec, s: State, es: seq<Event>, warm: nat, q: nat)
    requires Inv(codec, s) && Legal(cfg, codec, s, es) && s.back.pool.shareSafe
    requires forall e | e in es :: !(e.Back? && e.be.Pool? && e.be.pe.Warm?)
    requires forall t | t in s.back.pool.calls :: !P.StartingUp(s.back.pool.calls[t])
    requires warm < |s.back.pipes| && warm < |s.back.pool.runners| && s.back.pool.runners[warm].phase == P.Ready
    requires s.back.pool.closed
             || (P.SHARED_KEY in s.back.pool.instances && s.back.pool.instances[P.SHARED_KEY] == warm)
    requires s.back.pipes[warm].reader.Finished?
    requires q !in s.back.pool.calls && q !in s.back.pipes[warm].calls
    ensures var f := After(cfg, codec, s, es);
            forall r | (r, q) in f.back.owner :: r == warm && warm < |f.back.pipes| && D.Unheard(f.back.pipes[warm], q)
  {
    var f := After(cfg, codec, s, es);
    RunsKeepInv(cfg, codec, s, es);
    BackRunsItsPart(cfg, codec, s, es);
    BackEventsAre(es);
    hide Legal, After, Enabled, Apply, B.Enabled, B.Apply, P.Enabled, P.Apply, B.PipeOk, B.OwnerOk;
    B.PoolRunsItsPart(s.back, BackEvents(es));
    B.PoolEventsAre(BackEvents(es));
    P.SharedModeServesOneRunner(s.back.pool, B.PoolEvents(BackEvents(es)), warm, s.back.pool.calls.Keys);
    B.DoneChildAnswersNobody(s.back, BackEvents(es), warm, q);
    forall r | (r, q) in f.back.owner
      ensures r == warm && warm < |f.back.pipes| && D.Unheard(f.back.pipes[warm], q)
    {
      assert Linked(codec, f, r, q);
    }
  }

  /** Isolate mode: once the child of a subject has closed its output and the drain is over,
      a request of the subject that comes to the pool later gets the dead runner, unless an
      EvictIdle cutoff has passed a last lookup of the subject (P.NewRunnerIff), and its call
      is never answered: the client gets an internal error if anything. */
  lemma IsolatedChildGone(cfg: Settings, codec: Codec, s: State, es: seq<Event>, subject: string, r: nat, seen: real,
                          q: nat)
    requires Inv(codec, s) && Legal(cfg, codec, s, es) && !s.back.pool.shareSafe
    requires P.Keeps(s.back.pool, subject, r, seen) && !P.Expelled(seen, B.PoolEvents(BackEvents(es)), subject)
    requires r < |s.back.pipes| && s.back.pipes[r].reader.Finished?
    requires q !in s.back.pool.calls && q !in s.back.pipes[r].calls
    requires var f := After(cfg, codec, s, es); q in f.web.tickets ==> f.web.tickets[q].identity.subject == subject
    ensures var f := After(cfg, codec, s, es);
            forall r' | (r', q) in f.back.owner :: r' == r && r < |f.back.pipes| && D.Unheard(f.back.pipes[r], q)
    ensures var f := After(cfg, codec, s, es);
            forall now | Enabled(cfg, codec, f, Answer(q, now)) ::
              var t := Apply(cfg, codec, f, Answer(q, now)).web;
              q in t.tickets && t.tickets[q].progress == W.Finished(RpcError(INTERNAL_ERROR))
  {
    var f := After(cfg, codec, s, es);
    RunsKeepInv(cfg, codec, s, es);
    BackRunsItsPart(cfg, codec, s, es);
    hide Legal, After, Enabled, Apply, B.Enabled, B.Apply, P.Enabled, P.Apply, B.PipeOk, B.OwnerOk, P.Expelled, P.Keeps;
    B.PoolRunsItsPart(s.back, BackEvents(es));
    P.IsolateModeServesOneRunner(s.back.pool, B.PoolEvents(BackEvents(es)), subject, r, seen, s.back.pool.calls.Keys);
    B.DoneChildAnswersNobody(s.back, BackEvents(es), r, q);
    forall r' | (r', q) in f.back.owner
      ensures r' == r && r < |f.back.pipes| && D.Unheard(f.back.pipes[r], q)
    {
      assert Linked(codec, f, r', q);
    }
    UnheardMeansError(cfg, codec, f, r, q);
  }

  lemma {:induction false} BackEventsAre(es: seq<Event>)
    ensures forall be | be in BackEvents(es) :: Back(be) in es
  {
    if es != [] {
      BackEventsAre(es[1..]);
    }
  }

  // ------------------------------------------------------ load on the children's wires

  /** Line j on the wire of child r was written for a request of the subject that was
      admitted in [a, b]. */
  predicate LineCounts(s: State, r: nat, j: nat, subject: string, a: real, b: real) {
    && r < |s.back.pipes| && j < |s.back.pipes[r].wire| && WrittenFor(s, r, j).Some?
    && L.Counts(s.web.tickets[WrittenFor(s, r, j).value], subject, a, b)
  }

  /** All lines written to all children for requests of the subject admitted in [a, b]. */
  function CallLines(s: State, subject: string, a: real, b: real): set<(nat, nat)> {
    set r, j | 0 <= r < |s.back.pipes| && 0 <= j < |s.back.pipes[r].wire| && LineCounts(s, r, j, subject, a, b) ::
      (r, j)
  }

  /** All its notifications. */
  function NoteLines(s: State, subject: string, a: real, b: real): set<nat> {
    set q | q in s.noted && q in s.web.tickets && L.Counts(s.web.tickets[q], subject, a, b)
  }

  /** No two lines are for the same request. */
  lemma OneLineEach(codec: Codec, s: State, r: nat, j: nat, r': nat, j': nat)
    requires Inv(codec, s)
    requires r < |s.back.pipes| && j < |s.back.pipes[r].wire| && WrittenFor(s, r, j).Some?
    requires r' < |s.back.pipes| && j' < |s.back.pipes[r'].wire| && WrittenFor(s, r', j') == WrittenFor(s, r, j)
    ensures r == r' && j == j'
  {
    var q := WrittenFor(s, r, j).value;
    assert Linked(codec, s, r, q) && Linked(codec, s, r', q);
    var pipe := s.back.pipes[r];
    assert B.PipeOk(s.back.pool, r, pipe);
    assert D.IdOk(pipe, pipe.wire[j].id) && D.IdOk(pipe, pipe.wire[j'].id);
    assert D.WrittenOnce(pipe);
    hide Inv, B.Inv, B.PipeOk, D.Provenance, Linked;
    assert pipe.wire[j].id == pipe.wire[j'].id;
  }

  /** As many lines as requests at most. */
  lemma {:induction false} LinesAtMost(codec: Codec, s: State, lines: set<(nat, nat)>, qs: set<nat>, subject: string,
                                       a: real, b: real)
    requires Inv(codec, s)
    requires forall r, j | (r, j) in lines :: LineCounts(s, r, j, subject, a, b) && WrittenFor(s, r, j).value in qs
    ensures |lines| <= |qs|
    decreases |lines|
  {
    if lines != {} {
      var line :| line in lines;
      var (r, j) := line;
      assert (r, j) in lines;
      var q, rest := WrittenFor(s, r, j).value, lines - {line};
      forall r', j' | (r', j') in rest
        ensures LineCounts(s, r', j', subject, a, b) && WrittenFor(s, r', j').value in qs - {q}
      {
        assert (r', j') in lines;
        if WrittenFor(s, r', j').value == q { OneLineEach(codec, s, r, j, r', j'); }
      }
      hide Inv, LineCounts;
      LinesAtMost(codec, s, rest, qs - {q}, subject, a, b);
    }
  }

  /** Requests are written as calls, notifications as notifications, each at most once. */
  lemma LinesAreAdmitted(codec: Codec, s: State, subject: string, a: real, b: real)
    requires Inv(codec, s)
    ensures |CallLines(s, subject, a, b)| + |NoteLines(s, subject, a, b)|
            <= |L.AdmittedIn(s.web.tickets, subject, a, b)|
  {
    var all, notes := L.AdmittedIn(s.web.tickets, subject, a, b), NoteLines(s, subject, a, b);
    forall r, j | (r, j) in CallLines(s, subject, a, b)
      ensures LineCounts(s, r, j, subject, a, b) && WrittenFor(s, r, j).value in all - notes
    {
      var q := WrittenFor(s, r, j).value;
      assert Linked(codec, s, r, q);
      assert q in s.noted ==> NoteOk(s, q);
    }
    hide Inv, LineCounts;
    LinesAtMost(codec, s, CallLines(s, subject, a, b), all - notes, subject, a, b);
    assert notes <= all;
  }

  lemma StepKeepsAllGranted(cfg: Settings, codec: Codec, s: State, e: Event, subject: string, a: real, b: real)
    requires Enabled(cfg, codec, s, e) && LimitParams(cfg).Some? && subject != ""
    requires L.AllGranted(LimitParams(cfg).value, cfg.limit.value.evictAfter, s.web, subject, a, b)
    ensures var t := Apply(cfg, codec, s, e).web;
            L.AllGranted(LimitParams(cfg).value, cfg.limit.value.evictAfter, t, subject, a, b)
  {
    hide L.AllGranted, W.Apply, B.Apply, Calls, FinishWith;
    match e
    case Web(we) => L.StepKeepsAllGranted(cfg, s.web, we, subject, a, b);
    case Back(_) =>
    case Answer(q, now) => L.StepKeepsAllGranted(cfg, s.web, FinishWith(codec, s.back, q, now), subject, a, b);
    case Turned(q, now) =>
      L.StepKeepsAllGranted(cfg, s.web, W.Finish(q, now, W.Have, W.ReplyError(INTERNAL_ERROR)), subject, a, b);
    case Notice(_) =>
  }

  lemma {:induction false} RunsKeepAllGranted(cfg: Settings, codec: Codec, s: State, es: seq<Event>, subject: string,
                                              a: real, b: real)
    requires Legal(cfg, codec, s, es) && LimitParams(cfg).Some? && subject != ""
    requires L.AllGranted(LimitParams(cfg).value, cfg.limit.value.evictAfter, s.web, subject, a, b)
    ensures var t := After(cfg, codec, s, es).web;
            L.AllGranted(LimitParams(cfg).value, cfg.limit.value.evictAfter, t, subject, a, b)
    decreases |es|
  {
    hide L.AllGranted, Enabled, Apply;
    if es != [] {
      StepKeepsAllGranted(cfg, codec, s, es[0], subject, a, b);
      RunsKeepAllGranted(cfg, codec, Apply(cfg, codec, s, es[0]), es[1..], subject, a, b);
    }
  }

  /** The limiter's promise on the wire, in either mode and in every interleaving: with the
      limiter on, an invisible sweep and limiter readings in order, the lines written to all
      children together, calls and notifications, for requests of a subject admitted in
      [a, b] number at most burst + rate * (b - a), answered or not. */
  lemma LinesBound(cfg: Settings, codec: Codec, shareSafe: bool, es: seq<Event>, s: State, subject: string, a: real,
                   b: real)
    requires Reached(cfg, codec, shareSafe, es, s) && LimitParams(cfg).Some? && subject != "" && a <= b
    requires var p := LimitParams(cfg).value; p.capacity < 1.0 || R.RefillsWithin(p, cfg.limit.value.evictAfter)
    requires R.InOrder(s.web.ops)
    ensures var p := LimitParams(cfg).value;
            (|CallLines(s, subject, a, b)| + |NoteLines(s, subject, a, b)|) as real
            <= p.capacity + T.Accrued(p.rate, b - a)
  {
    var p, evictAfter := LimitParams(cfg).value, cfg.limit.value.evictAfter;
    ReachedInv(cfg, codec, shareSafe, es, s);
    L.NothingAdmitted(p, evictAfter, subject, a, b);
    RunsKeepAllGranted(cfg, codec, Start(shareSafe), es, subject, a, b);
    LinesAreAdmitted(codec, s, subject, a, b);
    hide Inv, Reached, CallLines, NoteLines, L.AdmittedIn, LimitParams;
    R.SubjectLoadBound(p, evictAfter, s.web.ops, subject, a, b);
  }
}
