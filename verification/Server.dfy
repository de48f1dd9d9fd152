/**
 The server object of internal/server: middleware, handlers and sweep as they are
 written, statement by statement, each proved to be a sequence of the atomic events
 of Pipeline when nothing else runs in between.
 */
module McpServer {
  import opened Common
  import opened TokenBucket
  import opened RateLimiting
  import opened Sessions
  import opened Catalogs
  import opened ListFilter
  import opened Gateway
  import opened Pipeline

  /** The session update: the clock is read, then the session is touched. */
  function Touch(cfg: Settings, s: Pipeline.State, q: nat, now: real): Pipeline.State
    requires Enabled(cfg, s, ReadClock(q, now))
  {
    Apply(cfg, Apply(cfg, s, ReadClock(q, now)), TouchSession(q))
  }

  lemma TouchIs(cfg: Settings, s: Pipeline.State, q: nat, now: real)
    requires Enabled(cfg, s, ReadClock(q, now))
    ensures Touch(cfg, s, q, now)
            == s.(store := TouchIn(s.store, s.tickets[q].req.sessionId, now),
                  tickets := s.tickets[q := s.tickets[q].(progress := Touched(now))])
  {
    hide Pipeline.HandleRequest, SessionCheck, Admit, Limiter;
    assert s.tickets[q := s.tickets[q].(progress := Stamped(now))][q := s.tickets[q].(progress := Touched(now))]
           == s.tickets[q := s.tickets[q].(progress := Touched(now))];
  }

  /** A request past the middleware, on its own: lookup, session update, answer. */
  function ServeAdmitted(cfg: Settings, s: Pipeline.State, q: nat, now: real, runner: RunnerLookup, reply: Reply)
    : Pipeline.State
    requires Enabled(cfg, s, LookUp(q))
  {
    var s1 := Apply(cfg, s, LookUp(q));
    if s1.tickets[q].progress.Finished? then s1
    else
      var s2 := if s.tickets[q].req.verb.Post? then Touch(cfg, s1, q, now) else s1;
      if Enabled(cfg, s2, Finish(q, now, runner, reply)) then Apply(cfg, s2, Finish(q, now, runner, reply)) else s2
  }

  lemma LimiterTick(cfg: Settings, s: Pipeline.State, now: real)
    requires Enabled(cfg, s, Cleanup(now))
    ensures Apply(cfg, s, Cleanup(now)) == s.(ops := s.ops + [Tick(now)])
    ensures Limiter(cfg, s.ops + [Tick(now)]) == SweepIn(Limiter(cfg, s.ops), now - cfg.limit.value.evictAfter)
  {
    assert (s.ops + [Tick(now)])[..|s.ops|] == s.ops;
  }

  lemma LimiterRequest(cfg: Settings, ops: seq<Op>, now: real, subject: string)
    requires LimitParams(cfg).Some?
    ensures Limiter(cfg, ops + [Op.Request(now, subject)])
            == AllowIn(LimitParams(cfg).value, Limiter(cfg, ops), now, subject).0
  {
    assert (ops + [Op.Request(now, subject)])[..|ops|] == ops;
  }

  /** A backend's answer as the client gets it where nothing is filtered. */
  function PassedOn(reply: Reply): Response {
    match reply
    case ReplyError(code) => RpcError(code)
    case ReplyResult(value) => Answered(value)
  }

  class Server {
    const cfg: Settings
    const store: InMemorySessionStore
    const limiter: RateLimiter?
    var log: seq<Entry>
    ghost var st: Pipeline.State

    ghost predicate Valid()
      reads this, store
    {
      store.sessions == st.store && log == st.log
    }

    /** The limiter, when there is one, is where its history says. */
    ghost predicate LimiterValid()
      reads this, limiter, if limiter == null then {} else limiter.buckets.Values
    {
      match LimitParams(cfg)
      case None => limiter == null
      case Some(p) =>
        limiter != null && limiter.params == p && limiter.Valid() && limiter.table == Limiter(cfg, st.ops)
    }

    constructor (cfg: Settings)
      ensures Valid() && LimiterValid() && st == INITIAL && this.cfg == cfg
    {
      this.cfg := cfg;
      store := new InMemorySessionStore();
      log, st := [], INITIAL;
      if LimitParams(cfg).Some? {
        limiter := new RateLimiter(LimitParams(cfg).value);
      } else {
        limiter := null;
      }
    }

    ghost predicate Holds(q: nat, t: Ticket)
      reads this
    {
      q in st.tickets && st.tickets[q] == t
    }

    /** handleInitialize; minted tells whether NewSessionID succeeded. */
    method HandleInitialize(ghost q: nat, t: Ticket, now: real, sid: string, minted: bool) returns (resp: Response)
      requires Valid() && Holds(q, t) && t.progress.Admitted? && IsInitialize(t.req)
      modifies this, store
      ensures Valid() && st == Apply(cfg, old(st), Initialize(q, now, sid, minted))
      ensures st.tickets[q].progress == Finished(resp)
    {
      st := Apply(cfg, st, Initialize(q, now, sid, minted));
      if !t.req.body.m.decodes {
        return RpcError(INVALID_PARAMS);
      }
      if !minted {
        return RpcError(INTERNAL_ERROR);
      }
      var _ := store.Create(sid, t.identity.subject, now);
      var access := Resolve(cfg.catalog, t.identity.scopes);
      var caps := CuratedInitCapabilities(cfg.backendCaps, access);
      resp := SessionCreated(sid, caps);
    }

    /** handleMCPPost for everything but initialize. */
    method HandleMcpPost(ghost q: nat, t: Ticket, now: real, runner: RunnerLookup, reply: Reply)
      returns (resp: Response)
      requires Valid() && Holds(q, t) && t.progress.Admitted? && t.req.verb.Post? && !IsInitialize(t.req)
      modifies this, store
      ensures Valid() && st == ServeAdmitted(cfg, old(st), q, now, runner, reply)
      ensures st.tickets[q].progress == Finished(resp)
    {
      st := Apply(cfg, st, LookUp(q));
      match t.req.body {
        case Unreadable => return RpcError(PARSE_ERROR);
        case TooLarge => return RpcError(INVALID_REQUEST);
        case BadJson => return RpcError(PARSE_ERROR);
        case BadEnvelope => return RpcError(INVALID_REQUEST);
        case Msg(_) =>
      }
      var m := t.req.body.m;
      if t.req.sessionId == "" {
        return RpcError(INVALID_REQUEST);
      }
      var sess := store.Get(t.req.sessionId);
      if sess.None? {
        return Status(404);
      }
      if sess.value.subject != t.identity.subject {
        return Status(403);
      }
      if m.IsNotification() {
        resp := HandleNotification(q, t, now, runner, reply);
      } else if m.IsRequest() {
        resp := HandleRequest(q, t, now, runner, reply);
      } else {
        return RpcError(INVALID_REQUEST);
      }
    }

    /** handleNotification */
    method HandleNotification(ghost q: nat, t: Ticket, now: real, runner: RunnerLookup, ghost reply: Reply)
      returns (resp: Response)
      requires Valid() && Holds(q, t.(progress := Bound)) && t.req.verb.Post? && t.req.body.Msg?
      requires t.req.body.m.IsNotification()
      modifies this, store
      ensures Valid()
      ensures st == Apply(cfg, Touch(cfg, old(st), q, now), Finish(q, now, runner, reply))
      ensures st.tickets[q].progress == Finished(resp)
    {
      var m := t.req.body.m;
      TouchIs(cfg, st, q, now);
      hide Touch;
      st := Touch(cfg, st, q, now);
      var _ := store.Touch(t.req.sessionId, now);
      st := Apply(cfg, st, Finish(q, now, runner, reply));
      if m.method_ == "notifications/initialized" {
        var _ := store.MarkInitialized(t.req.sessionId, now);
      } else if runner.Have? {
        log := log + [Entry(Notified, t.identity, t.req.sessionId, m.method_, m.params, t.at, now)];
      }
      resp := Status(202);
    }

    /** handleRequest and the forwarders it picks from. */
    method HandleRequest(ghost q: nat, t: Ticket, now: real, runner: RunnerLookup, reply: Reply)
      returns (resp: Response)
      requires Valid() && Holds(q, t.(progress := Bound)) && t.req.verb.Post? && t.req.body.Msg?
      requires t.req.body.m.IsRequest()
      modifies this, store
      ensures Valid()
      ensures st == Apply(cfg, Touch(cfg, old(st), q, now), Finish(q, now, runner, reply))
      ensures st.tickets[q].progress == Finished(resp)
    {
      var m := t.req.body.m;
      TouchIs(cfg, st, q, now);
      hide Touch;
      st := Touch(cfg, st, q, now);
      var _ := store.Touch(t.req.sessionId, now);
      st := Apply(cfg, st, Finish(q, now, runner, reply));
      if m.method_ == "ping" {
        return Answered(Object(map[]));
      }
      if runner.LookupFailed? {
        return RpcError(INTERNAL_ERROR);
      }
      if runner.NoRunner? {
        return RpcError(METHOD_NOT_FOUND);
      }
      match m.method_ {
        case "tools/list" => resp := ForwardAndFilterList(t, now, "tools", Tools, reply);
        case "tools/call" => resp := ForwardWithNameGate(t, now, "name", Tools, reply);
        case "resources/list" => resp := ForwardAndFilterList(t, now, "resources", Resources, reply);
        case "resources/read" => resp := ForwardWithNameGate(t, now, "uri", Resources, reply);
        case "resources/templates/list" => resp := ForwardAndFilterList(t, now, "resourceTemplates", Resources, reply);
        case "prompts/list" => resp := ForwardAndFilterList(t, now, "prompts", Prompts, reply);
        case "prompts/get" => resp := ForwardWithNameGate(t, now, "name", Prompts, reply);
        case _ => resp := ForwardGeneric(t, now, reply);
      }
    }

    function CallEntry(t: Ticket, now: real): Entry
      requires t.req.body.Msg?
    {
      Entry(Called, t.identity, t.req.sessionId, t.req.body.m.method_, t.req.body.m.params, t.at, now)
    }

    method ForwardGeneric(t: Ticket, now: real, reply: Reply) returns (resp: Response)
      requires t.req.body.Msg?
      modifies this`log
      ensures log == old(log) + [CallEntry(t, now)]
      ensures resp == PassedOn(reply)
    {
      log := log + [CallEntry(t, now)];
      match reply {
        case ReplyError(code) => resp := RpcError(code);
        case ReplyResult(value) => resp := Answered(value);
      }
    }

    /** A result of an unexpected shape is forwarded unfiltered. */
    method ForwardAndFilterList(t: Ticket, now: real, key: string, c: Category, reply: Reply) returns (resp: Response)
      requires t.req.body.Msg?
      modifies this`log
      ensures log == old(log) + [CallEntry(t, now)]
      ensures resp == match reply
                      case ReplyError(code) => RpcError(code)
                      case ReplyResult(value) => Answered(Forwarded(value, key, Allow(cfg, t.identity, c)))
    {
      log := log + [CallEntry(t, now)];
      match reply {
        case ReplyError(code) => return RpcError(code);
        case ReplyResult(value) =>
          var filtered := FilterListResult(value, key, Allow(cfg, t.identity, c));
          resp := Answered(if filtered.None? then value else filtered.value);
      }
    }

    /** Refuses a call that names something outside the caller's access. */
    method ForwardWithNameGate(t: Ticket, now: real, key: string, c: Category, reply: Reply) returns (resp: Response)
      requires t.req.body.Msg?
      modifies this`log
      ensures match GateCheck(cfg, t.identity, GateRoute(key, c), t.req.body.m.params)
              case Some(refusal) => resp == refusal && log == old(log)
              case None =>
                && log == old(log) + [CallEntry(t, now)]
                && resp == PassedOn(reply)
    {
      var params := t.req.body.m.params;
      if params.BadParams? {
        return RpcError(INVALID_PARAMS);
      }
      var ident := "";
      if params.ParamObject? && key in params.fields && params.fields[key].Str? {
        ident := params.fields[key].s;
      }
      if ident != "" {
        var access := Resolve(cfg.catalog, t.identity.scopes);
        var ok := AllowsName(cfg.match_, access, c, ident);
        if !ok {
          return RpcError(METHOD_NOT_FOUND);
        }
      }
      resp := ForwardGeneric(t, now, reply);
    }

    /** handleMCPGet up to the open stream, which says nothing. */
    method HandleMcpGet(ghost q: nat, t: Ticket, ghost now: real, ghost runner: RunnerLookup, ghost reply: Reply)
      returns (resp: Response)
      requires Valid() && Holds(q, t) && t.progress.Admitted? && t.req.verb.Get?
      modifies this`st
      ensures Valid() && st == ServeAdmitted(cfg, old(st), q, now, runner, reply)
      ensures st.tickets[q].progress == Finished(resp)
    {
      st := Apply(cfg, st, LookUp(q));
      if !t.req.sse {
        return Status(405);
      }
      if t.req.sessionId == "" {
        return Status(400);
      }
      var sess := store.Get(t.req.sessionId);
      if sess.None? {
        return Status(404);
      }
      if sess.value.subject != t.identity.subject {
        return Status(403);
      }
      st := Apply(cfg, st, Finish(q, now, runner, reply));
      resp := Status(200);
    }

    /** handleMCPDelete */
    method HandleMcpDelete(ghost q: nat, t: Ticket, ghost now: real, ghost runner: RunnerLookup, ghost reply: Reply)
      returns (resp: Response)
      requires Valid() && Holds(q, t) && t.progress.Admitted? && t.req.verb.Delete?
      modifies this, store
      ensures Valid() && st == ServeAdmitted(cfg, old(st), q, now, runner, reply)
      ensures st.tickets[q].progress == Finished(resp)
    {
      st := Apply(cfg, st, LookUp(q));
      if t.req.sessionId == "" {
        return Status(400);
      }
      var sess := store.Get(t.req.sessionId);
      if sess.None? {
        return Status(404);
      }
      if sess.value.subject != t.identity.subject {
        return Status(403);
      }
      st := Apply(cfg, st, Finish(q, now, runner, reply));
      var _ := store.Delete(t.req.sessionId);
      resp := Status(204);
    }

    /** RequireRateLimit, asking the limiter for one token of the subject. */
    method AskLimiter(now: real, identity: Identity) returns (ok: bool)
      requires LimiterValid()
      modifies this`st, limiter, if limiter == null then {} else limiter.buckets.Values
      ensures LimiterValid()
      ensures var asked := LimitParams(cfg).Some? && identity.subject != "";
              && st == (if asked then old(st).(ops := old(st).ops + [Op.Request(now, identity.subject)]) else old(st))
              && ok == (asked ==> AllowIn(LimitParams(cfg).value, Limiter(cfg, old(st).ops), now, identity.subject).1)
    {
      ok := true;
      if limiter != null && identity.subject != "" {
        hide Serve, AllowIn, RateLimiter.Holds;
        LimiterRequest(cfg, st.ops, now, identity.subject);
        ok := limiter.Allow(now, identity.subject);
        st := st.(ops := st.ops + [Op.Request(now, identity.subject)]);
      }
    }

    /** One tick of runSessionGC: idle sessions go, ... */
    method SweepSessions(now: real)
      requires Valid() && EffectiveIdle(cfg.idle) > 0.0
      modifies this`st, store
      ensures Valid() && st == Apply(cfg, old(st), Expire(now))
    {
      var _ := store.ExpireBefore(now - EffectiveIdle(cfg.idle));
      st := Apply(cfg, st, Expire(now));
    }

    /** ... then idle buckets, those by the evictAfter of the configuration. */
    method SweepBuckets(now: real)
      requires LimiterValid() && EffectiveIdle(cfg.idle) > 0.0
      modifies this`st, limiter
      ensures LimiterValid()
      ensures st == if LimitParams(cfg).Some? then Apply(cfg, old(st), Cleanup(now)) else old(st)
    {
      hide Apply, Limiter, SweepIn, RateLimiter.Valid;
      if limiter != null {
        LimiterTick(cfg, st, now);
        var _ := limiter.Cleanup(now - cfg.limit.value.evictAfter);
        st := st.(ops := st.ops + [Tick(now)]);
      }
    }
  }
}
