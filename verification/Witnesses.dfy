/**
 Runs of the gateway that show what its promises do not cover: every one starts from an
 empty gateway and has a clock that does not go back.
 */
module Witnesses {
  import opened Common
  import opened Sessions
  import opened Catalogs
  import opened ListFilter
  import opened Gateway
  import opened Pipeline
  import opened Survival

  const ALICE := Identity("alice", [])

  function PostOf(sid: string, m: Message): Request {
    Request.Request(Post, "", "", "", sid, false, Msg(m))
  }

  const HELLO := PostOf("", Message(true, "initialize", Absent, true))
  const READY := PostOf("s", Message(false, "notifications/initialized", Absent, true))
  const PING := PostOf("s", Message(true, "ping", Absent, true))

  /** No limiter, and everybody is let in as the same identity. */
  ghost predicate LetsIn(cfg: Settings, who: Identity) {
    cfg.limit.None? && forall header :: cfg.auth(header) == Some(who)
  }

  /** A run and where it has come: the state, what has happened to the session table, the
      clock. */
  datatype Spot = Spot(es: seq<Event>, s: State, ops: seq<StoreOp>, t: real)

  ghost predicate Came(cfg: Settings, p: Spot) {
    && Legal(cfg, p.es) && After(cfg, p.es) == p.s && StoreSchedule(cfg, p.es) == p.ops
    && InClockOrder(p.es) && Until(p.es, p.t)
  }

  lemma GoOn(cfg: Settings, p: Spot, e: Event, later: real) returns (n: Spot)
    requires Came(cfg, p) && Enabled(cfg, p.s, e) && p.t <= later && (Timed(e) ==> e.now == later)
    ensures Came(cfg, n)
    ensures n == Spot(p.es + [e], Apply(cfg, p.s, e), p.ops + StoreOpsOf(cfg, p.s, e), later)
  {
    hide Apply, Enabled, StoreOpsOf;
    OneMore(cfg, p.es, e);
    assert (p.es + [e])[..|p.es|] == p.es;
    OneMoreInOrder(p.es, e, later);
    n := Spot(p.es + [e], Apply(cfg, p.s, e), p.ops + StoreOpsOf(cfg, p.s, e), later);
  }

  // ---------------------------------------------------------------- single steps

  /** A well-formed POST for the session, other than an initialize. */
  predicate ForSession(req: Request) {
    && req.verb.Post? && req.origin == "" && req.version == "" && req.sessionId == "s"
    && req.body.Msg? && req.body.m.method_ != "" && !IsInitialize(req)
  }

  predicate HasSession(s: State, who: Identity) {
    "s" in s.store && s.store["s"].subject == who.subject
  }

  lemma ComesIn(cfg: Settings, who: Identity, s: State, q: nat, now: real, req: Request)
    requires LetsIn(cfg, who) && q !in s.tickets && req.origin == "" && req.version == ""
    ensures var e := Arrive(q, now, req);
            && Enabled(cfg, s, e) && StoreOpsOf(cfg, s, e) == [] && Timed(e)
            && Apply(cfg, s, e) == s.(tickets := s.tickets[q := Ticket(req, who, now, Admitted)])
  {
    ChainOrder(cfg, Limiter(cfg, s.ops), now, req);
    hide Admit, Limiter;
  }

  lemma IsLookedUp(cfg: Settings, who: Identity, s: State, q: nat, at: real, req: Request)
    requires q in s.tickets && s.tickets[q] == Ticket(req, who, at, Admitted) && ForSession(req) && HasSession(s, who)
    ensures var e := LookUp(q);
            && Enabled(cfg, s, e) && StoreOpsOf(cfg, s, e) == [] && !Timed(e)
            && Apply(cfg, s, e) == s.(tickets := s.tickets[q := Ticket(req, who, at, Bound)])
  {
    hide Admit, Limiter, HandleRequest;
  }

  lemma Reads(cfg: Settings, who: Identity, s: State, q: nat, now: real, req: Request)
    requires q in s.tickets && s.tickets[q] == Ticket(req, who, now, Bound) && ForSession(req)
    ensures var e := ReadClock(q, now);
            && Enabled(cfg, s, e) && StoreOpsOf(cfg, s, e) == [] && Timed(e)
            && Apply(cfg, s, e) == s.(tickets := s.tickets[q := Ticket(req, who, now, Stamped(now))])
  {
    hide Admit, Limiter, HandleRequest;
  }

  lemma Touches(cfg: Settings, who: Identity, s: State, q: nat, now: real, req: Request)
    requires q in s.tickets && s.tickets[q] == Ticket(req, who, now, Stamped(now)) && ForSession(req)
    requires HasSession(s, who)
    ensures var e := TouchSession(q);
            && Enabled(cfg, s, e) && StoreOpsOf(cfg, s, e) == [Use(now, "s", false)] && !Timed(e)
            && Apply(cfg, s, e) == s.(store := s.store["s" := s.store["s"].(lastSeen := now)],
                                      tickets := s.tickets[q := Ticket(req, who, now, Touched(now))])
  {
    hide Admit, Limiter, HandleRequest;
  }

  lemma Mints(cfg: Settings, who: Identity, s: State)
    requires s == INITIAL.(tickets := map[0 := Ticket(HELLO, who, 0.0, Admitted)])
    ensures var e := Initialize(0, 0.0, "s", true);
            && Enabled(cfg, s, e) && StoreOpsOf(cfg, s, e) == [Mint(0.0, "s", who.subject)] && Timed(e)
            && Apply(cfg, s, e).store == map["s" := Session(who.subject, false, 0.0, 0.0)]
            && Apply(cfg, s, e).tickets.Keys == {0} && Apply(cfg, s, e).log == []
  {
    hide Admit, Limiter, HandleRequest;
  }

  // --------------------------------------------------------------- whole requests

  lemma AtTheStart(cfg: Settings, who: Identity)
    ensures Came(cfg, Spot([], INITIAL, [], 0.0)) && HELLO.origin == "" && HELLO.version == ""
    ensures INITIAL.(tickets := INITIAL.tickets[0 := Ticket(HELLO, who, 0.0, Admitted)])
            == INITIAL.(tickets := map[0 := Ticket(HELLO, who, 0.0, Admitted)])
    ensures 0 !in INITIAL.tickets
  {
  }

  /** A session at time 0. */
  lemma FirstSession(cfg: Settings, who: Identity) returns (p: Spot)
    requires LetsIn(cfg, who)
    ensures Came(cfg, p) && p.es == [Arrive(0, 0.0, HELLO), Initialize(0, 0.0, "s", true)] && p.t == 0.0
    ensures p.ops == [Mint(0.0, "s", who.subject)]
    ensures p.s.store == map["s" := Session(who.subject, false, 0.0, 0.0)] && p.s.tickets.Keys == {0} && p.s.log == []
  {
    hide *;
    AtTheStart(cfg, who);
    ComesIn(cfg, who, INITIAL, 0, 0.0, HELLO);
    p := GoOn(cfg, Spot([], INITIAL, [], 0.0), Arrive(0, 0.0, HELLO), 0.0);
    Mints(cfg, who, p.s);
    p := GoOn(cfg, p, Initialize(0, 0.0, "s", true), 0.0);
  }

  /** A request for the session comes in, is looked up and reads the clock. */
  lemma BringIn(cfg: Settings, who: Identity, p: Spot, q: nat, now: real, req: Request) returns (n: Spot)
    requires LetsIn(cfg, who) && Came(cfg, p) && p.t <= now && q !in p.s.tickets
    requires ForSession(req) && HasSession(p.s, who)
    ensures Came(cfg, n) && n.es == p.es + [Arrive(q, now, req), LookUp(q), ReadClock(q, now)] && n.t == now
    ensures n.s == p.s.(tickets := p.s.tickets[q := Ticket(req, who, now, Stamped(now))]) && n.ops == p.ops
  {
    hide *;
    assert req.origin == "" && req.version == "" by { NoHeaders(req); }
    ComesIn(cfg, who, p.s, q, now, req);
    n := GoOn(cfg, p, Arrive(q, now, req), now);
    assert HasSession(n.s, who) by { Stays(p.s, n.s, who); }
    IsLookedUp(cfg, who, n.s, q, now, req);
    n := GoOn(cfg, n, LookUp(q), now);
    Reads(cfg, who, n.s, q, now, req);
    n := GoOn(cfg, n, ReadClock(q, now), now);
    assert n.s.tickets == p.s.tickets[q := Ticket(req, who, now, Stamped(now))];
  }

  lemma NoHeaders(req: Request)
    requires ForSession(req)
    ensures req.origin == "" && req.version == ""
  {
  }

  lemma Stays(s: State, t: State, who: Identity)
    requires HasSession(s, who) && t.store == s.store
    ensures HasSession(t, who)
  {
  }

  /** It writes its reading into the session. */
  lemma Write(cfg: Settings, who: Identity, p: Spot, q: nat, now: real, req: Request) returns (n: Spot)
    requires Came(cfg, p) && q in p.s.tickets && p.s.tickets[q] == Ticket(req, who, now, Stamped(now))
    requires ForSession(req) && HasSession(p.s, who)
    ensures Came(cfg, n) && n.es == p.es + [TouchSession(q)] && n.t == p.t && n.ops == p.ops + [Use(now, "s", false)]
    ensures n.s.tickets == p.s.tickets[q := Ticket(req, who, now, Touched(now))] && n.s.log == p.s.log
    ensures HasSession(n.s, who) && n.s.store["s"] == p.s.store["s"].(lastSeen := now)
  {
    Touches(cfg, who, p.s, q, now, req);
    hide Came, Apply, Enabled, StoreOpsOf, ForSession;
    n := GoOn(cfg, p, TouchSession(q), p.t);
  }

  lemma SomeForSession()
    ensures ForSession(READY) && ForSession(PING)
  {
  }

  // ------------------------------------------------------- a session in use is lost

  /** Sessions idle for more than a hundred seconds go. */
  const HUNDRED_SECONDS :=
    Settings({}, (header: string) => Some(ALICE), None, None, (pattern: string, name: string) => false, map[], 100.0)

  /** A run in which these operations on a session, used within the timeout whenever the
      sweeper came by, lose it. */
  ghost predicate LosesInUse(es: seq<Event>, ops: seq<StoreOp>) {
    && Legal(HUNDRED_SECONDS, es) && InClockOrder(es) && |es| >= 2 && "s" in Before(HUNDRED_SECONDS, es, 2).store
    && Since(HUNDRED_SECONDS, es, 2) == ops && NotMinted(ops, "s")
    && KeptInUse(100.0, Before(HUNDRED_SECONDS, es, 2).store["s"].lastSeen, ops, "s")
    && "s" !in After(HUNDRED_SECONDS, es).store
  }

  const LATE_MARK := [Use(1.0, "s", false), Use(90.0, "s", false), Use(1.0, "s", true), Sweep(150.0)]
  const LATE_TOUCH := [Use(90.0, "s", false), Use(1.0, "s", false), Sweep(150.0)]

  /** notifications/initialized reads the clock at 1 and touches its session, a ping is
      served at 90, and only then is the session marked, with the stamp 1. The sweep at 150
      removes it sixty seconds after its last request, with a timeout of a hundred. */
  lemma LateMarkLosesSession() returns (es: seq<Event>)
    ensures LosesInUse(es, LATE_MARK)
  {
    hide Came, Apply, Enabled, StoreOpsOf, ForSession, HasSession, LosesInUse;
    var cfg := HUNDRED_SECONDS;
    SomeForSession();
    var first := FirstSession(cfg, ALICE);
    Has(first.s);
    var p := BringIn(cfg, ALICE, first, 1, 1.0, READY);
    Stays(first.s, p.s, ALICE);
    p := Write(cfg, ALICE, p, 1, 1.0, READY);
    var p2 := BringIn(cfg, ALICE, p, 2, 90.0, PING);
    Stays(p.s, p2.s, ALICE);
    p := Write(cfg, ALICE, p2, 2, 90.0, PING);
    Marks(p.s);
    p := GoOn(cfg, p, Finish(1, 91.0, NoRunner, ReplyError(0)), 91.0);
    SweepLoses(p.s);
    p := GoOn(cfg, p, Expire(150.0), 150.0);
    LateMarkIsInUse();
    assert p.ops == first.ops + LATE_MARK;
    Lost(first, p, LATE_MARK);
    es := p.es;
  }

  /** Two pings read the clock at 1 and at 90, and write their readings in the other
      order. The sweep at 150 removes the session. */
  lemma TwoPingsLoseSession() returns (es: seq<Event>)
    ensures LosesInUse(es, LATE_TOUCH)
  {
    hide Came, Apply, Enabled, StoreOpsOf, ForSession, HasSession, LosesInUse;
    var cfg := HUNDRED_SECONDS;
    SomeForSession();
    var first := FirstSession(cfg, ALICE);
    Has(first.s);
    var p1 := BringIn(cfg, ALICE, first, 1, 1.0, PING);
    Stays(first.s, p1.s, ALICE);
    var p := BringIn(cfg, ALICE, p1, 2, 90.0, PING);
    Stays(p1.s, p.s, ALICE);
    p := Write(cfg, ALICE, p, 2, 90.0, PING);
    p := Write(cfg, ALICE, p, 1, 1.0, PING);
    SweepLoses(p.s);
    p := GoOn(cfg, p, Expire(150.0), 150.0);
    LateTouchIsInUse();
    assert p.ops == first.ops + LATE_TOUCH;
    Lost(first, p, LATE_TOUCH);
    es := p.es;
  }

  lemma Has(s: State)
    requires s.store == map["s" := Session("alice", false, 0.0, 0.0)]
    ensures HasSession(s, ALICE) && LetsIn(HUNDRED_SECONDS, ALICE)
  {
  }

  lemma Marks(s: State)
    requires 1 in s.tickets && s.tickets[1] == Ticket(READY, ALICE, 1.0, Touched(1.0)) && HasSession(s, ALICE)
    ensures var e := Finish(1, 91.0, NoRunner, ReplyError(0));
            && Enabled(HUNDRED_SECONDS, s, e) && StoreOpsOf(HUNDRED_SECONDS, s, e) == [Use(1.0, "s", true)] && Timed(e)
            && var t := Apply(HUNDRED_SECONDS, s, e); HasSession(t, ALICE) && t.store["s"].lastSeen == 1.0
  {
    hide Admit, Limiter, HandleRequest;
  }

  lemma SweepLoses(s: State)
    requires HasSession(s, ALICE) && s.store["s"].lastSeen == 1.0
    ensures var e := Expire(150.0);
            && Enabled(HUNDRED_SECONDS, s, e) && StoreOpsOf(HUNDRED_SECONDS, s, e) == [Sweep(150.0)] && Timed(e)
            && "s" !in Apply(HUNDRED_SECONDS, s, e).store
  {
  }

  lemma Lost(first: Spot, last: Spot, ops: seq<StoreOp>)
    requires Came(HUNDRED_SECONDS, first) && |first.es| == 2 && first.es <= last.es
    requires first.s.store == map["s" := Session("alice", false, 0.0, 0.0)]
    requires Came(HUNDRED_SECONDS, last) && last.ops == first.ops + ops && "s" !in last.s.store
    requires NotMinted(ops, "s") && KeptInUse(100.0, 0.0, ops, "s")
    ensures LosesInUse(last.es, ops)
  {
    hide Apply, Enabled, StoreOpsOf, KeptInUse, NotMinted;
    assert last.es[..2] == first.es;
    SinceIsRest(HUNDRED_SECONDS, last.es, 2);
  }

  lemma LateMarkIsInUse()
    ensures NotMinted(LATE_MARK, "s") && KeptInUse(100.0, 0.0, LATE_MARK, "s")
  {
    assert UsedIn(LATE_MARK, 1, "s");
    assert RecentlyUsed(100.0, 0.0, LATE_MARK, "s", 3);
  }

  lemma LateTouchIsInUse()
    ensures NotMinted(LATE_TOUCH, "s") && KeptInUse(100.0, 0.0, LATE_TOUCH, "s")
  {
    assert UsedIn(LATE_TOUCH, 0, "s");
    assert RecentlyUsed(100.0, 0.0, LATE_TOUCH, "s", 2);
  }

  // -------------------------------------------------- past the gate as a notification

  /** A notification of a gated method that names something. */
  function Naming(method_: string, ident: string): Request {
    PostOf("s", Message(false, method_, CallFor(RouteKey(method_), ident), true))
  }

  function RouteKey(method_: string): string {
    if RouteOf(method_).GateRoute? then RouteOf(method_).key else ""
  }

  function NamingEntry(who: Identity, method_: string, ident: string): Entry {
    Entry(Notified, who, "s", method_, CallFor(RouteKey(method_), ident), 1.0, 1.0)
  }

  /** The gate is on calls alone: whatever the catalog, and whatever a caller's scopes do
      not allow, there is a run in which a notification that names it reaches the backend,
      although the same message as a call would be refused. */
  lemma DisallowedGoesThrough(cfg: Settings, who: Identity, method_: string, ident: string) returns (es: seq<Event>)
    requires LetsIn(cfg, who) && RouteOf(method_).GateRoute? && ident != ""
    requires !Allows(cfg.match_, Access(cfg.catalog, who.scopes), RouteOf(method_).c, ident)
    ensures Legal(cfg, es) && After(cfg, es).log == [NamingEntry(who, method_, ident)]
    ensures GatedIdent(NamingEntry(who, method_, ident)) == ident
    ensures GateCheck(cfg, who, RouteOf(method_), NamingEntry(who, method_, ident).params)
            == Some(RpcError(METHOD_NOT_FOUND))
  {
    hide Came, Apply, Enabled, StoreOpsOf, ForSession, HasSession, Allows, Access;
    var req := Naming(method_, ident);
    NamesIt(cfg, who, method_, ident);
    var first := FirstSession(cfg, who);
    assert HasSession(first.s, who) by { IsThere(first.s, who); }
    var p := BringIn(cfg, who, first, 1, 1.0, req);
    Stays(first.s, p.s, who);
    p := Write(cfg, who, p, 1, 1.0, req);
    PassesOn(cfg, who, p.s, method_, ident);
    p := GoOn(cfg, p, Finish(1, 1.0, Have, ReplyError(0)), 1.0);
    assert Legal(cfg, p.es) && After(cfg, p.es) == p.s by { IsRun(cfg, p); }
    es := p.es;
  }

  lemma IsThere(s: State, who: Identity)
    requires "s" in s.store && s.store["s"].subject == who.subject
    ensures HasSession(s, who)
  {
  }

  lemma IsRun(cfg: Settings, p: Spot)
    requires Came(cfg, p)
    ensures Legal(cfg, p.es) && After(cfg, p.es) == p.s
  {
  }

  lemma NamesIt(cfg: Settings, who: Identity, method_: string, ident: string)
    requires RouteOf(method_).GateRoute? && ident != ""
    requires !Allows(cfg.match_, Access(cfg.catalog, who.scopes), RouteOf(method_).c, ident)
    ensures ForSession(Naming(method_, ident)) && GatedIdent(NamingEntry(who, method_, ident)) == ident
    ensures GateCheck(cfg, who, RouteOf(method_), NamingEntry(who, method_, ident).params)
            == Some(RpcError(METHOD_NOT_FOUND))
  {
    hide Allows, Access;
    AllowIsAccess(cfg, who, RouteOf(method_).c, ident);
  }

  lemma PassesOn(cfg: Settings, who: Identity, s: State, method_: string, ident: string)
    requires RouteOf(method_).GateRoute? && s.log == []
    requires 1 in s.tickets && s.tickets[1] == Ticket(Naming(method_, ident), who, 1.0, Touched(1.0))
    ensures var e := Finish(1, 1.0, Have, ReplyError(0));
            && Enabled(cfg, s, e) && Timed(e) && Apply(cfg, s, e).log == [NamingEntry(who, method_, ident)]
  {
    hide Admit, Limiter, HandleRequest;
  }
}
