/**
 Runs of the gateway: any number of requests in flight, interleaved with the
 background sweep. Each event is one atomic region of a handler, or a reading of the
 clock that a later region uses.
 */
module Pipeline {
  import opened Common
  import opened RateLimiting
  import opened Sessions
  import opened Catalogs
  import opened ListFilter
  import opened Gateway

  /** How far a request is: through the middleware, bound to a session of its own
      identity, the clock read for the session update, the session updated with that
      reading, answered. */
  datatype Progress = Admitted | Bound | Stamped(now: real) | Touched(now: real) | Finished(resp: Response)

  /** A request that passed the middleware at time at. */
  datatype Ticket = Ticket(req: Request, identity: Identity, at: real, progress: Progress)

  datatype Kind = Called | Notified

  /** What reached the backend, for whom, when its request had been admitted, and when
      it was sent. */
  datatype Entry = Entry(kind: Kind, identity: Identity, sid: string, method_: string, params: CallParams,
                         at: real, sent: real)

  /** ops is the history of the limiter, log what the backend got. */
  datatype State = State(store: Store, tickets: map<nat, Ticket>, ops: seq<Op>, log: seq<Entry>)

  datatype RunnerLookup = NoRunner | LookupFailed | Have
  datatype Reply = ReplyError(code: int) | ReplyResult(value: Value)

  datatype Event =
    | Arrive(q: nat, now: real, req: Request)
    | Initialize(q: nat, now: real, sid: string, minted: bool)
    | LookUp(q: nat)
    | ReadClock(q: nat, now: real)
    | TouchSession(q: nat)
    | Finish(q: nat, now: real, runner: RunnerLookup, reply: Reply)
    | Expire(now: real)
    | Cleanup(now: real)

  const INITIAL := State(map[], map[], [], [])

  // ------------------------------------------------------------------ handlers

  predicate IsInitialize(req: Request) {
    req.verb.Post? && req.body.Msg? && req.body.m.IsRequest() && req.body.m.method_ == "initialize"
  }

  /** Everything handleMCPPost, handleMCPGet and handleMCPDelete decide up to the
      session check; None when the request may go on. */
  function SessionCheck(store: Store, req: Request, identity: Identity): Option<Response> {
    var missing := if req.verb.Post? then RpcError(INVALID_REQUEST) else Status(400);
    if req.verb.Post? && (req.body.Unreadable? || req.body.BadJson?) then Some(RpcError(PARSE_ERROR))
    else if req.verb.Post? && (req.body.TooLarge? || req.body.BadEnvelope?) then Some(RpcError(INVALID_REQUEST))
    else if req.verb.Get? && !req.sse then Some(Status(405))
    else if req.sessionId == "" then Some(missing)
    else if req.sessionId !in store then Some(Status(404))
    else if store[req.sessionId].subject != identity.subject then Some(Status(403))
    else if req.verb.Post? && req.body.m.method_ == "" then Some(RpcError(INVALID_REQUEST))
    else None
  }

  /** What handleRequest does with a method. */
  datatype Route = ListRoute(key: string, c: Category) | GateRoute(key: string, c: Category) | GenericRoute

  function RouteOf(method_: string): Route {
    match method_
    case "tools/list" => ListRoute("tools", Tools)
    case "tools/call" => GateRoute("name", Tools)
    case "resources/list" => ListRoute("resources", Resources)
    case "resources/read" => GateRoute("uri", Resources)
    case "resources/templates/list" => ListRoute("resourceTemplates", Resources)
    case "prompts/list" => ListRoute("prompts", Prompts)
    case "prompts/get" => GateRoute("name", Prompts)
    case _ => GenericRoute
  }

  /** The caller's access in a category, as a rule on identifiers. */
  function Allow(cfg: Settings, identity: Identity, c: Category): string -> bool {
    var access := Access(cfg.catalog, identity.scopes);
    (x: string) => Allows(cfg.match_, access, c, x)
  }

  /** The gate: None when the call may go to the backend. */
  function GateCheck(cfg: Settings, identity: Identity, route: Route, params: CallParams): Option<Response> {
    if !route.GateRoute? then None
    else if GateIdent(params, route.key).None? then Some(RpcError(INVALID_PARAMS))
    else if !GatePasses(params, route.key, Allow(cfg, identity, route.c)) then Some(RpcError(METHOD_NOT_FOUND))
    else None
  }

  /** handleRequest past the session update: the answer, and whether the backend was
      called for it. */
  function HandleRequest(cfg: Settings, identity: Identity, m: Message, runner: RunnerLookup, reply: Reply)
    : (Response, bool)
  {
    if m.method_ == "ping" then (Answered(Object(map[])), false)
    else if runner.LookupFailed? then (RpcError(INTERNAL_ERROR), false)
    else if runner.NoRunner? then (RpcError(METHOD_NOT_FOUND), false)
    else
      var route := RouteOf(m.method_);
      match GateCheck(cfg, identity, route, m.params)
      case Some(resp) => (resp, false)
      case None =>
        match reply
        case ReplyError(code) => (RpcError(code), true)
        case ReplyResult(value) =>
          var shown := if route.ListRoute? then Forwarded(value, route.key, Allow(cfg, identity, route.c)) else value;
          (Answered(shown), true)
  }

  // -------------------------------------------------------------------- events

  /** idleAndSweep: zero means thirty minutes, negative switches the sweep off. */
  function EffectiveIdle(timeout: real): real {
    if timeout < 0.0 then 0.0 else if timeout == 0.0 then 1800.0 else timeout
  }

  predicate At(s: State, q: nat, p: Progress) {
    q in s.tickets && s.tickets[q].progress == p
  }

  predicate Enabled(cfg: Settings, s: State, e: Event) {
    match e
    case Arrive(q, _, _) => q !in s.tickets
    case Initialize(q, _, _, _) => At(s, q, Admitted) && IsInitialize(s.tickets[q].req)
    case LookUp(q) => At(s, q, Admitted) && !IsInitialize(s.tickets[q].req)
    case ReadClock(q, _) => At(s, q, Bound) && s.tickets[q].req.verb.Post?
    case TouchSession(q) => q in s.tickets && s.tickets[q].progress.Stamped?
    case Finish(q, _, _, _) =>
      q in s.tickets &&
      if s.tickets[q].req.verb.Post? then s.tickets[q].progress.Touched? && s.tickets[q].req.body.Msg?
      else s.tickets[q].progress.Bound?
    case Expire(_) => EffectiveIdle(cfg.idle) > 0.0
    case Cleanup(_) => EffectiveIdle(cfg.idle) > 0.0 && LimitParams(cfg).Some?
  }

  function Move(s: State, q: nat, p: Progress): State
    requires q in s.tickets
  {
    s.(tickets := s.tickets[q := s.tickets[q].(progress := p)])
  }

  function ApplyArrive(cfg: Settings, s: State, q: nat, now: real, req: Request): State {
    var v := Admit(cfg, Limiter(cfg, s.ops), now, req);
    var id := cfg.auth(req.authorization);
    var s' := if v.asked.Some? && id.Some? then s.(ops := s.ops + [Op.Request(now, id.value.subject)]) else s;
    if v.Passed? && v.ctx.identity.Some?
    then s'.(tickets := s.tickets[q := Ticket(req, v.ctx.identity.value, now, Admitted)])
    else s'
  }

  function ApplyFinish(cfg: Settings, s: State, e: Event): State
    requires e.Finish? && Enabled(cfg, s, e)
  {
    var t := s.tickets[e.q];
    var sid := t.req.sessionId;
    match t.req.verb
    case Delete => Move(s, e.q, Finished(Status(204))).(store := s.store - {sid})
    case Get => Move(s, e.q, Finished(Status(200)))
    case Post =>
      var m := t.req.body.m;
      if m.IsNotification() then
        var s' := Move(s, e.q, Finished(Status(202)));
        if m.method_ == "notifications/initialized" then s'.(store := MarkIn(s.store, sid, t.progress.now))
        else if e.runner.Have?
        then s'.(log := s.log + [Entry(Notified, t.identity, sid, m.method_, m.params, t.at, e.now)])
        else s'
      else
        var (resp, called) := HandleRequest(cfg, t.identity, m, e.runner, e.reply);
        var s' := Move(s, e.q, Finished(resp));
        if called then s'.(log := s.log + [Entry(Called, t.identity, sid, m.method_, m.params, t.at, e.now)]) else s'
  }

  function Apply(cfg: Settings, s: State, e: Event): State
    requires Enabled(cfg, s, e)
  {
    match e
    case Arrive(q, now, req) => ApplyArrive(cfg, s, q, now, req)
    case Initialize(q, now, sid, minted) =>
      var t := s.tickets[q];
      if !t.req.body.m.decodes then Move(s, q, Finished(RpcError(INVALID_PARAMS)))
      else if !minted then Move(s, q, Finished(RpcError(INTERNAL_ERROR)))
      else
        var caps := AnnouncedCaps(cfg.backendCaps, Access(cfg.catalog, t.identity.scopes));
        Move(s, q, Finished(SessionCreated(sid, caps))).(store := CreateIn(s.store, sid, t.identity.subject, now))
    case LookUp(q) =>
      var t := s.tickets[q];
      var check := SessionCheck(s.store, t.req, t.identity);
      Move(s, q, if check.Some? then Finished(check.value) else Bound)
    case ReadClock(q, now) => Move(s, q, Stamped(now))
    case TouchSession(q) =>
      var now := s.tickets[q].progress.now;
      Move(s, q, Touched(now)).(store := TouchIn(s.store, s.tickets[q].req.sessionId, now))
    case Finish(_, _, _, _) => ApplyFinish(cfg, s, e)
    case Expire(now) => s.(store := ExpireIn(s.store, now - EffectiveIdle(cfg.idle)))
    case Cleanup(now) => s.(ops := s.ops + [Tick(now)])
  }

  /** An answer changes the ticket of its own request alone. */
  lemma FinishTicket(cfg: Settings, s: State, e: Event)
    requires Enabled(cfg, s, e) && e.Finish?
    ensures var t := Apply(cfg, s, e);
            && e.q in s.tickets && e.q in t.tickets && t.tickets[e.q].progress.Finished?
            && t.tickets == s.tickets[e.q := s.tickets[e.q].(progress := t.tickets[e.q].progress)]
            && !s.tickets[e.q].progress.Finished?
  {
    hide HandleRequest, SessionCheck;
  }

  predicate Legal(cfg: Settings, es: seq<Event>)
    decreases |es|, 0
  {
    es == [] || (Legal(cfg, es[..|es| - 1]) && Enabled(cfg, After(cfg, es[..|es| - 1]), es[|es| - 1]))
  }

  /** The state after a run from an empty gateway. */
  function After(cfg: Settings, es: seq<Event>): State
    requires Legal(cfg, es)
    decreases |es|, 1
  {
    if es == [] then INITIAL else Apply(cfg, After(cfg, es[..|es| - 1]), es[|es| - 1])
  }

  lemma {:induction false} LegalPrefix(cfg: Settings, es: seq<Event>, n: nat)
    requires Legal(cfg, es) && n <= |es|
    ensures Legal(cfg, es[..n])
  {
    if n == |es| {
      assert es[..n] == es;
    } else {
      LegalPrefix(cfg, es[..|es| - 1], n);
      assert es[..|es| - 1][..n] == es[..n];
    }
  }

  /** The state before event n. */
  function Before(cfg: Settings, es: seq<Event>, n: nat): State
    requires Legal(cfg, es) && n <= |es|
  {
    LegalPrefix(cfg, es, n);
    After(cfg, es[..n])
  }

  lemma BeforeAny(cfg: Settings, es: seq<Event>)
    requires Legal(cfg, es)
    ensures Before(cfg, es, 0) == INITIAL && Before(cfg, es, |es|) == After(cfg, es)
  {
    assert es[..0] == [] && es[..|es|] == es;
  }

  lemma BeforeNext(cfg: Settings, es: seq<Event>, n: nat)
    requires Legal(cfg, es) && n < |es|
    ensures Enabled(cfg, Before(cfg, es, n), es[n])
    ensures Before(cfg, es, n + 1) == Apply(cfg, Before(cfg, es, n), es[n])
  {
    LegalPrefix(cfg, es, n + 1);
    assert es[..n + 1][..n] == es[..n];
  }

  lemma OneMore(cfg: Settings, es: seq<Event>, e: Event)
    requires Legal(cfg, es) && Enabled(cfg, After(cfg, es), e)
    ensures Legal(cfg, es + [e]) && After(cfg, es + [e]) == Apply(cfg, After(cfg, es), e)
  {
    assert (es + [e])[..|es|] == es;
  }

  /** A lookup reads no clock, and the session update has its reading already. */
  predicate Timed(e: Event) {
    !e.LookUp? && !e.TouchSession?
  }

  /** The clock does not go back from one event to a later one. */
  predicate InClockOrder(es: seq<Event>) {
    forall i, j | 0 <= i < j < |es| && Timed(es[i]) && Timed(es[j]) :: es[i].now <= es[j].now
  }

  /** Nothing happened after t. */
  predicate Until(es: seq<Event>, t: real) {
    forall i | 0 <= i < |es| && Timed(es[i]) :: es[i].now <= t
  }

  lemma OneMoreInOrder(es: seq<Event>, e: Event, t: real)
    requires InClockOrder(es) && Until(es, t) && (Timed(e) ==> e.now == t)
    ensures InClockOrder(es + [e]) && Until(es + [e], t)
  {
    var all := es + [e];
    assert forall i | 0 <= i < |es| :: all[i] == es[i];
  }

  lemma OneLessInOrder(es: seq<Event>, t: real)
    requires es != [] && InClockOrder(es) && Until(es, t)
    ensures InClockOrder(es[..|es| - 1])
    ensures var e := es[|es| - 1]; Until(es[..|es| - 1], if Timed(e) then e.now else t) && (Timed(e) ==> e.now <= t)
  {
    var prev := es[..|es| - 1];
    assert forall i | 0 <= i < |prev| :: prev[i] == es[i];
  }

  // -------------------------------------------------------------------- safety

  /** Event i minted the session for the subject. */
  ghost predicate Mints(cfg: Settings, es: seq<Event>, i: nat, sid: string, subject: string)
    requires Legal(cfg, es) && i < |es|
  {
    && es[i].Initialize? && es[i].sid == sid && es[i].minted
    && var s := Before(cfg, es, i);
       && es[i].q in s.tickets && s.tickets[es[i].q].identity.subject == subject
       && IsInitialize(s.tickets[es[i].q].req)
  }

  /** From event i to before event n, the session has been there for the subject: no
      deletion and no expiry has been completed. */
  ghost predicate LiveSince(cfg: Settings, es: seq<Event>, i: nat, n: nat, sid: string, subject: string)
    requires Legal(cfg, es) && i < n <= |es|
  {
    forall k | i < k <= n :: sid in Before(cfg, es, k).store && Before(cfg, es, k).store[sid].subject == subject
  }

  predicate MintsNow(s: State, e: Event, sid: string) {
    e.Initialize? && e.sid == sid && e.minted && e.q in s.tickets && IsInitialize(s.tickets[e.q].req)
  }

  /** One event leaves a session and its subject as they are, removes it, or mints it. */
  lemma SessionStep(cfg: Settings, s: State, e: Event, sid: string)
    requires Enabled(cfg, s, e) && sid in Apply(cfg, s, e).store
    ensures var subject := Apply(cfg, s, e).store[sid].subject;
            || (MintsNow(s, e, sid) && s.tickets[e.q].identity.subject == subject)
            || (sid in s.store && s.store[sid].subject == subject)
  {
    hide Admit, Limiter, HandleRequest;
  }

  predicate PastLookup(s: State, q: nat) {
    q in s.tickets
    && (s.tickets[q].progress.Bound? || s.tickets[q].progress.Stamped? || s.tickets[q].progress.Touched?)
  }

  /** Only its own lookup takes a request past the session check. */
  lemma LookupStep(cfg: Settings, s: State, e: Event, q: nat)
    requires Enabled(cfg, s, e) && PastLookup(Apply(cfg, s, e), q)
    ensures var t := Apply(cfg, s, e).tickets[q];
            if e == LookUp(q)
            then t.req.sessionId in s.store && s.store[t.req.sessionId].subject == t.identity.subject
            else PastLookup(s, q) && s.tickets[q].req == t.req && s.tickets[q].identity == t.identity
  {
    hide Admit, Limiter, HandleRequest;
  }

  /** A session in the table was minted for its subject and has been there since. */
  lemma {:induction false} SessionsWereMinted(cfg: Settings, es: seq<Event>, n: nat, sid: string) returns (i: nat)
    requires Legal(cfg, es) && n <= |es| && sid in Before(cfg, es, n).store
    ensures i < n && Mints(cfg, es, i, sid, Before(cfg, es, n).store[sid].subject)
    ensures LiveSince(cfg, es, i, n, sid, Before(cfg, es, n).store[sid].subject)
  {
    hide Apply, Enabled, Before, After, Legal;
    BeforeAny(cfg, es);
    if n == 0 {
      assert false;
    } else {
      BeforeNext(cfg, es, n - 1);
      var s, e := Before(cfg, es, n - 1), es[n - 1];
      SessionStep(cfg, s, e, sid);
      if MintsNow(s, e, sid) && s.tickets[e.q].identity.subject == Before(cfg, es, n).store[sid].subject {
        i := n - 1;
      } else {
        i := SessionsWereMinted(cfg, es, n - 1, sid);
      }
    }
  }

  /** A request past the session check looked its session up, and found it its own. */
  lemma {:induction false} BoundRequestsLookedUp(cfg: Settings, es: seq<Event>, n: nat, q: nat) returns (l: nat)
    requires Legal(cfg, es) && n <= |es| && PastLookup(Before(cfg, es, n), q)
    ensures l < n && es[l] == LookUp(q)
    ensures var t, store := Before(cfg, es, n).tickets[q], Before(cfg, es, l).store;
            t.req.sessionId in store && store[t.req.sessionId].subject == t.identity.subject
  {
    hide Apply, Enabled, Before, After, Legal;
    BeforeAny(cfg, es);
    if n == 0 {
      assert false;
    } else {
      BeforeNext(cfg, es, n - 1);
      LookupStep(cfg, Before(cfg, es, n - 1), es[n - 1], q);
      if es[n - 1] == LookUp(q) {
        l := n - 1;
      } else {
        l := BoundRequestsLookedUp(cfg, es, n - 1, q);
      }
    }
  }

  /** The event put one more message on its way to the backend. */
  predicate Forwards(cfg: Settings, s: State, e: Event)
    requires Enabled(cfg, s, e)
  {
    |Apply(cfg, s, e).log| > |s.log|
  }

  /** Provenance: whatever reaches the backend was preceded by an initialize of the
      same subject that minted the session id it carries; between that and the lookup
      of this request no deletion or expiry of the session was completed. */
  lemma ForwardedOnlyWithinOwnSession(cfg: Settings, es: seq<Event>, n: nat) returns (i: nat, l: nat)
    requires Legal(cfg, es) && n < |es| && Enabled(cfg, Before(cfg, es, n), es[n])
    requires Forwards(cfg, Before(cfg, es, n), es[n])
    ensures es[n].Finish? && i < l < n && es[l] == LookUp(es[n].q)
    ensures var s := Before(cfg, es, n + 1);
            && s.log != []
            && var entry := s.log[|s.log| - 1];
               Mints(cfg, es, i, entry.sid, entry.identity.subject)
               && LiveSince(cfg, es, i, l, entry.sid, entry.identity.subject)
  {
    hide Admit, Limiter;
    BeforeNext(cfg, es, n);
    l := BoundRequestsLookedUp(cfg, es, n, es[n].q);
    i := SessionsWereMinted(cfg, es, l, Before(cfg, es, n).tickets[es[n].q].req.sessionId);
  }

  /** The identifier a gated call carries. */
  function GatedIdent(entry: Entry): string {
    var route := RouteOf(entry.method_);
    if route.GateRoute? && GateIdent(entry.params, route.key).Some?
    then GateIdent(entry.params, route.key).value else ""
  }

  /** What the entry names, if anything, the caller's scopes allow. */
  predicate WithinPolicy(cfg: Settings, entry: Entry) {
    var route := RouteOf(entry.method_);
    entry.kind.Called? && route.GateRoute? && GatedIdent(entry) != "" ==>
      Allows(cfg.match_, Access(cfg.catalog, entry.identity.scopes), route.c, GatedIdent(entry))
  }

  /** One event sends at most one message to the backend; a call is within policy, and
      its request is answered by that event. */
  lemma LogStep(cfg: Settings, s: State, e: Event)
    requires Enabled(cfg, s, e)
    ensures var t := Apply(cfg, s, e);
            || t.log == s.log
            || (|t.log| == |s.log| + 1 && t.log[..|s.log|] == s.log && WithinPolicy(cfg, t.log[|s.log|])
                && e.Finish? && t.tickets[e.q].progress.Finished?
                && t.log[|s.log|].identity == s.tickets[e.q].identity && t.log[|s.log|].at == s.tickets[e.q].at)
  {
    hide Admit, Limiter, Allows, Access, SessionCheck;
  }

  /** Policy: in every run, every tools/call, resources/read and prompts/get that
      reaches the backend as a call names, if anything, something the caller's scopes
      allow. */
  lemma {:induction false} CallsAreAllowed(cfg: Settings, es: seq<Event>)
    requires Legal(cfg, es)
    ensures forall entry | entry in After(cfg, es).log :: WithinPolicy(cfg, entry)
  {
    hide Apply, Enabled, WithinPolicy;
    if es != [] {
      CallsAreAllowed(cfg, es[..|es| - 1]);
      LogStep(cfg, After(cfg, es[..|es| - 1]), es[|es| - 1]);
    }
  }

  /** The gate, both ways: with a runner at hand, a call of a gated method reaches the
      backend, unchanged, exactly when its params decode and what they name, if anything,
      is allowed; the refusals differ in their codes. */
  lemma GatedCallForwardedIff(cfg: Settings, s: State, e: Event)
    requires Enabled(cfg, s, e) && e.Finish? && s.tickets[e.q].req.verb.Post? && e.runner.Have?
    requires var m := s.tickets[e.q].req.body.m; m.IsRequest() && RouteOf(m.method_).GateRoute?
    ensures var t, m := s.tickets[e.q], s.tickets[e.q].req.body.m;
            var route, access := RouteOf(m.method_), Access(cfg.catalog, t.identity.scopes);
            var ident, f := GateIdent(m.params, route.key), Apply(cfg, s, e);
            && (Forwards(cfg, s, e) <==>
                  ident.Some? && (ident.value == "" || Allows(cfg.match_, access, route.c, ident.value)))
            && (Forwards(cfg, s, e) ==>
                  f.log == s.log + [Entry(Called, t.identity, t.req.sessionId, m.method_, m.params, t.at, e.now)])
            && (!Forwards(cfg, s, e) ==>
                  f.log == s.log && f.tickets[e.q].progress
                  == Finished(RpcError(if ident.None? then INVALID_PARAMS else METHOD_NOT_FOUND)))
  {
    hide Allows, Access;
    var m := s.tickets[e.q].req.body.m;
    var route := RouteOf(m.method_);
    if GateIdent(m.params, route.key).Some? {
      AllowIsAccess(cfg, s.tickets[e.q].identity, route.c, GateIdent(m.params, route.key).value);
    }
  }

  /** What reaches the backend against the caller's scopes reaches it as a notification. */
  lemma DisallowedOnlyAsNotification(cfg: Settings, es: seq<Event>, entry: Entry)
    requires Legal(cfg, es) && entry in After(cfg, es).log && RouteOf(entry.method_).GateRoute?
    requires GatedIdent(entry) != ""
    requires var access := Access(cfg.catalog, entry.identity.scopes);
             !Allows(cfg.match_, access, RouteOf(entry.method_).c, GatedIdent(entry))
    ensures entry.kind.Notified?
  {
    CallsAreAllowed(cfg, es);
  }

  /** A notification passes no gate: whatever its method names and whatever the caller's
      scopes are, it is answered 202 and reaches the backend, unchanged, exactly when
      there is a runner and it is not the one the gateway consumes itself. */
  lemma NotificationForwardedIff(cfg: Settings, s: State, e: Event)
    requires Enabled(cfg, s, e) && e.Finish? && s.tickets[e.q].req.verb.Post?
    requires s.tickets[e.q].req.body.m.IsNotification()
    ensures var t, m, f := s.tickets[e.q], s.tickets[e.q].req.body.m, Apply(cfg, s, e);
            && (Forwards(cfg, s, e) <==> e.runner.Have? && m.method_ != "notifications/initialized")
            && f.log == s.log + (if Forwards(cfg, s, e)
                                 then [Entry(Notified, t.identity, t.req.sessionId, m.method_, m.params, t.at, e.now)]
                                 else [])
            && f.tickets[e.q].progress == Finished(Status(202))
  {
    hide Admit, Limiter, HandleRequest;
    assert s.log + [] == s.log;
  }

  /** A list answer of the expected shape shows exactly the backend's items that the
      caller's scopes allow, whatever the run before. */
  lemma ListsShowExactlyTheAllowed(cfg: Settings, s: State, e: Event, item: Item)
    requires Enabled(cfg, s, e) && e.Finish? && s.tickets[e.q].req.verb.Post?
    requires var m := s.tickets[e.q].req.body.m;
             && m.IsRequest() && RouteOf(m.method_).ListRoute? && e.runner.Have? && e.reply.ReplyResult?
             && e.reply.value.Object? && RouteOf(m.method_).key in e.reply.value.fields
             && e.reply.value.fields[RouteOf(m.method_).key].Items?
    ensures var t, route := s.tickets[e.q], RouteOf(s.tickets[e.q].req.body.m.method_);
            var p := Apply(cfg, s, e).tickets[e.q].progress;
            && p.Finished? && p.resp.Answered? && p.resp.value.Object?
            && p.resp.value.fields - {route.key} == e.reply.value.fields - {route.key}
            && route.key in p.resp.value.fields && p.resp.value.fields[route.key].Items?
            && (item in p.resp.value.fields[route.key].items
                <==> item in e.reply.value.fields[route.key].items
                     && Allows(cfg.match_, Access(cfg.catalog, t.identity.scopes), route.c, Ident(item)))
  {
    var t, route := s.tickets[e.q], RouteOf(s.tickets[e.q].req.body.m.method_);
    hide Admit, Limiter, Allows, Access, SessionCheck;
    OtherKeysUntouched(e.reply.value, route.key, Allow(cfg, t.identity, route.c));
    AllowIsAccess(cfg, t.identity, route.c, Ident(item));
  }

  lemma AllowIsAccess(cfg: Settings, identity: Identity, c: Category, x: string)
    ensures Allow(cfg, identity, c)(x) <==> Allows(cfg.match_, Access(cfg.catalog, identity.scopes), c, x)
  {
  }

  function KeyOf(c: Category): string {
    match c
    case Tools => "tools"
    case Resources => "resources"
    case Prompts => "prompts"
  }

  /** If initialize withholds a capability the backend advertised, the filter leaves
      nothing of any list of that category, and the gate lets no identifier through;
      if it announces one, some name in that category is allowed. */
  lemma WithheldMeansNothing(cfg: Settings, identity: Identity, c: Category, items: seq<Item>)
    requires KeyOf(c) in cfg.backendCaps
    ensures KeyOf(c) !in AnnouncedCaps(cfg.backendCaps, Access(cfg.catalog, identity.scopes))
            <==> forall x :: !Allow(cfg, identity, c)(x)
    ensures KeyOf(c) !in AnnouncedCaps(cfg.backendCaps, Access(cfg.catalog, identity.scopes)) ==>
              && Kept(items, Allow(cfg, identity, c)) == []
              && forall params, key ::
                   GatePasses(params, key, Allow(cfg, identity, c)) ==> GateIdent(params, key) == Some("")
  {
    var access := Access(cfg.catalog, identity.scopes);
    WithheldIffNothingAllowed(cfg.match_, access, c);
    hide Allows, Access;
    forall x ensures Allow(cfg, identity, c)(x) <==> Allows(cfg.match_, access, c, x) {
      AllowIsAccess(cfg, identity, c, x);
    }
    if forall x :: !Allow(cfg, identity, c)(x) {
      NothingKept(items, Allow(cfg, identity, c));
    }
  }

  lemma {:induction false} NothingKept(items: seq<Item>, allow: string -> bool)
    requires forall x :: !allow(x)
    ensures Kept(items, allow) == []
  {
    if items != [] {
      NothingKept(items[..|items| - 1], allow);
    }
  }
}
