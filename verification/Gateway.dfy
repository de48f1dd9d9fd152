/**
 The request path of internal/server: the middleware chain, the /mcp handlers and
 the background sweep, as a transition system over the limiter, the session table
 and what reaches the backend. Requests interleave between the regions that the code
 runs atomically: the limiter, the session lookup, the update of the session, and the
 forwarding. Authentication, session ids, the runner and its replies come from the
 environment; session ids need not even be fresh.
 */
module Gateway {
  import opened Common
  import opened TokenBucket
  import opened RateLimiting
  import opened Sessions
  import opened Catalogs
  import opened ListFilter

  // ------------------------------------------------------------------ messages

  const PARSE_ERROR := -32700
  const INVALID_REQUEST := -32600
  const METHOD_NOT_FOUND := -32601
  const INVALID_PARAMS := -32602
  const INTERNAL_ERROR := -32603

  datatype Identity = Identity(subject: string, scopes: seq<string>)

  /** A JSON-RPC message. decodes tells whether its params fit InitializeParams. */
  datatype Message = Message(hasId: bool, method_: string, params: CallParams, decodes: bool) {
    predicate IsRequest() { method_ != "" && hasId }
    predicate IsNotification() { method_ != "" && !hasId }
  }

  datatype Body = Unreadable | TooLarge | BadJson | BadEnvelope | Msg(m: Message)

  datatype Verb = Post | Get | Delete

  /** sse tells whether the Accept header names text/event-stream. */
  datatype Request = Request(verb: Verb, origin: string, version: string, authorization: string,
                             sessionId: string, sse: bool, body: Body)

  datatype Response =
    | Status(code: int)
    | RpcError(code: int)
    | Answered(value: Value)
    | SessionCreated(sid: string, caps: map<string, string>)

  // ------------------------------------------------------------- configuration

  /** auth maps an Authorization header to the identity it proves, if any; match_ is
      path.Match; backendCaps is what the backend advertised at start-up. */
  datatype Settings = Settings(allowedOrigins: set<string>, auth: string -> Option<Identity>,
                               limit: Option<Config>, catalog: Option<Bundles>,
                               match_: (string, string) -> bool, backendCaps: map<string, string>, idle: real)

  const SUPPORTED_VERSIONS := {"2025-11-25", "2025-03-26"}

  /** The bucket every subject gets, when the limiter is on. */
  function LimitParams(cfg: Settings): (p: Option<Params>)
    ensures p.Some? ==> cfg.limit.Some? && p.value.Sane()
  {
    if cfg.limit.None? then None
    else
      var c := NewRateLimiter(cfg.limit.value);
      if c.None? then None else Some(BucketParams(c.value))
  }

  /** The limiter as the server drives it: normalised parameters, but the sweep with
      the evictAfter of the configuration file. */
  function Limiter(cfg: Settings, ops: seq<Op>): Table {
    if LimitParams(cfg).None? then map[]
    else Serve(LimitParams(cfg).value, Some(cfg.limit.value.evictAfter), ops).table
  }

  // ---------------------------------------------------------------- middleware

  /** What the handlers see of a request. */
  datatype Context = Context(req: Request, identity: Option<Identity>)

  /** The end of the chain: turned away with a status, or handed to the handler. asked
      tells whether the limiter was asked, and what it said. */
  datatype Verdict = Rejected(code: int, asked: Option<bool>) | Passed(ctx: Context, asked: Option<bool>)

  type Handler = (Context, Table) -> Verdict
  type Middleware = Handler -> Handler

  function RequireOrigin(allowed: set<string>): Middleware {
    (next: Handler) => (c: Context, t: Table) =>
      if c.req.origin == "" || c.req.origin in allowed then next(c, t) else Rejected(403, None)
  }

  function ParseProtocolVersion(): Middleware {
    (next: Handler) => (c: Context, t: Table) =>
      if (if c.req.version == "" then "2025-03-26" else c.req.version) in SUPPORTED_VERSIONS
      then next(c, t) else Rejected(400, None)
  }

  function RequireAuth(auth: string -> Option<Identity>): Middleware {
    (next: Handler) => (c: Context, t: Table) =>
      match auth(c.req.authorization)
      case None => Rejected(401, None)
      case Some(id) => next(c.(identity := Some(id)), t)
  }

  function NoteAsked(v: Verdict): Verdict {
    match v
    case Rejected(code, _) => Rejected(code, Some(true))
    case Passed(ctx, _) => Passed(ctx, Some(true))
  }

  function RequireRateLimit(p: Option<Params>, now: real): Middleware {
    (next: Handler) => (c: Context, t: Table) =>
      if p.None? || c.identity.None? || c.identity.value.subject == "" then next(c, t)
      else if AllowIn(p.value, t, now, c.identity.value.subject).1 then NoteAsked(next(c, t))
      else Rejected(429, Some(false))
  }

  function Composed(mws: seq<Middleware>, handler: Handler): Handler {
    if mws == [] then handler else mws[0](Composed(mws[1..], handler))
  }

  /** Wraps the handler from the last middleware to the first: the first listed is the
      outermost. */
  method Chain(handler: Handler, mws: seq<Middleware>) returns (h: Handler)
    ensures h == Composed(mws, handler)
  {
    h := handler;
    var i := |mws|;
    while i > 0
      invariant 0 <= i <= |mws|
      invariant h == Composed(mws[i..], handler)
    {
      i := i - 1;
      assert mws[i..][1..] == mws[i + 1..];
      h := mws[i](h);
    }
    assert mws[0..] == mws;
  }

  function McpChain(cfg: Settings, now: real): seq<Middleware> {
    [RequireOrigin(cfg.allowedOrigins), ParseProtocolVersion(), RequireAuth(cfg.auth),
     RequireRateLimit(LimitParams(cfg), now)]
  }

  function Reach(): Handler {
    (c: Context, t: Table) => Passed(c, None)
  }

  function Admit(cfg: Settings, t: Table, now: real, req: Request): Verdict {
    Composed(McpChain(cfg, now), Reach())(Context(req, None), t)
  }

  lemma LimiterAsked(cfg: Settings, t: Table, now: real, c: Context)
    requires c.identity.Some?
    ensures RequireRateLimit(LimitParams(cfg), now)(Reach())(c, t)
            == if LimitParams(cfg).None? || c.identity.value.subject == "" then Passed(c, None)
               else if AllowIn(LimitParams(cfg).value, t, now, c.identity.value.subject).1
               then Passed(c, Some(true)) else Rejected(429, Some(false))
  {
    hide AllowIn;
    assert Reach()(c, t) == Passed(c, None);
  }

  /** The order of the chain: origin, version, credentials, rate. The limiter is asked,
      and a token spent, only for requests the other three let through, and a request
      passes exactly when none of the four turns it away. */
  lemma ChainOrder(cfg: Settings, t: Table, now: real, req: Request)
    ensures var v := Admit(cfg, t, now, req);
            var originOk := req.origin == "" || req.origin in cfg.allowedOrigins;
            var versionOk := req.version == "" || req.version in SUPPORTED_VERSIONS;
            var id := cfg.auth(req.authorization);
            var limited := LimitParams(cfg).Some? && id.Some? && id.value.subject != "";
            && (!originOk ==> v == Rejected(403, None))
            && (originOk && !versionOk ==> v == Rejected(400, None))
            && (originOk && versionOk && id.None? ==> v == Rejected(401, None))
            && (originOk && versionOk && id.Some? && !limited ==> v == Passed(Context(req, id), None))
            && (originOk && versionOk && limited ==>
                  v == if AllowIn(LimitParams(cfg).value, t, now, id.value.subject).1
                       then Passed(Context(req, id), Some(true)) else Rejected(429, Some(false)))
  {
    var mws, h := McpChain(cfg, now), Reach();
    assert mws[1..][1..][1..][1..] == [];
    assert Composed(mws[1..][1..][1..], h) == mws[3](h);
    assert Composed(mws[1..][1..], h) == mws[2](mws[3](h));
    assert Composed(mws[1..], h) == mws[1](mws[2](mws[3](h)));
    assert Composed(mws, h) == mws[0](mws[1](mws[2](mws[3](h))));
    if cfg.auth(req.authorization).Some? {
      LimiterAsked(cfg, t, now, Context(req, cfg.auth(req.authorization)));
    }
  }
}
