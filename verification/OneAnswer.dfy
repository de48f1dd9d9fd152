/**
 One request from the client to a child process and back: the theorems of EndToEnd are
 about runs that exist.
 */
module OneAnswer {
  import opened Common
  import opened ListFilter
  import opened Gateway
  import W = Pipeline
  import V = Witnesses
  import B = Backends
  import P = PoolProtocol
  import D = Demux
  import opened EndToEnd

  const CFG := V.HUNDRED_SECONDS
  const COMPLETE := V.PostOf("s", Message(true, "completion/complete", Absent, true))

  /** The request, past its session update. */
  const TICKET := W.Ticket(COMPLETE, V.ALICE, 1.0, W.Touched(1.0))

  /** What it asks. */
  function Asks(codec: Codec): D.Ask {
    AskOf(codec, COMPLETE)
  }

  /** A run has come to a state: request 1 is in its handler, the backend is so far. */
  ghost predicate CameTo(codec: Codec, es: seq<Event>, web: W.State, back: B.State) {
    && Reached(CFG, codec, false, es, State(web, back, map[]))
    && 1 in web.tickets && web.tickets[1] == TICKET
  }

  lemma {:induction false} Append(codec: Codec, s: State, es: seq<Event>, e: Event)
    requires Legal(CFG, codec, s, es) && Enabled(CFG, codec, After(CFG, codec, s, es), e)
    ensures Legal(CFG, codec, s, es + [e])
    ensures After(CFG, codec, s, es + [e]) == Apply(CFG, codec, After(CFG, codec, s, es), e)
    decreases |es|
  {
    hide Enabled, Apply;
    if es == [] {
      assert [] + [e] == [e] && [e][1..] == [];
    } else {
      Append(codec, Apply(CFG, codec, s, es[0]), es[1..], e);
      assert (es + [e])[1..] == es[1..] + [e];
    }
  }

  // ------------------------------------------------------------------ the web's part

  function OnWeb(es: seq<W.Event>): seq<Event> {
    if es == [] then [] else OnWeb(es[..|es| - 1]) + [Web(es[|es| - 1])]
  }

  lemma {:induction false} WebRuns(codec: Codec, es: seq<W.Event>)
    requires W.Legal(CFG, es) && forall e | e in es :: !e.Finish?
    ensures Reached(CFG, codec, false, OnWeb(es), State(W.After(CFG, es), B.Start(false), map[]))
  {
    hide W.Enabled, W.Apply;
    if es != [] {
      var n := |es| - 1;
      assert es[n] in es && forall e | e in es[..n] :: e in es;
      WebRuns(codec, es[..n]);
      Append(codec, Start(false), OnWeb(es[..n]), Web(es[n]));
    }
  }

  /** A session is minted, and the request comes in and updates it. */
  lemma InTheHandler(codec: Codec) returns (es: seq<Event>, web: W.State)
    ensures CameTo(codec, es, web, B.Start(false))
  {
    hide *;
    SimpleFacts();
    var first := V.FirstSession(CFG, V.ALICE);
    V.IsThere(first.s, V.ALICE);
    var p := V.BringIn(CFG, V.ALICE, first, 1, 1.0, COMPLETE);
    V.Stays(first.s, p.s, V.ALICE);
    p := V.Write(CFG, V.ALICE, p, 1, 1.0, COMPLETE);
    V.IsRun(CFG, p);
    assert forall e | e in p.es :: !e.Finish?;
    WebRuns(codec, p.es);
    es, web := OnWeb(p.es), p.s;
    IsTicket(codec, es, web);
  }

  lemma SimpleFacts()
    ensures V.LetsIn(CFG, V.ALICE) && V.ForSession(COMPLETE)
  {
  }

  lemma IsTicket(codec: Codec, es: seq<Event>, web: W.State)
    requires Reached(CFG, codec, false, es, State(web, B.Start(false), map[]))
    requires 1 in web.tickets && web.tickets[1] == W.Ticket(COMPLETE, V.ALICE, 1.0, W.Touched(1.0))
    ensures CameTo(codec, es, web, B.Start(false))
  {
  }

  // -------------------------------------------------------------- the backend's part

  function OnBack(bs: seq<B.Event>): seq<Event> {
    if bs == [] then [] else [Back(bs[0])] + OnBack(bs[1..])
  }

  /** Steps of the backend that the requests have no part in. */
  lemma {:induction false} BackRuns(codec: Codec, es: seq<Event>, web: W.State, back: B.State, bs: seq<B.Event>)
    requires CameTo(codec, es, web, back) && B.Legal(back, bs)
    requires forall e | e in bs :: !e.ClientCall? && (e.Pool? ==> !e.pe.Lookup? && !e.pe.LookupBuildFails?)
    ensures CameTo(codec, es + OnBack(bs), web, B.After(back, bs))
    decreases |bs|
  {
    hide B.Enabled, B.Apply, CameTo;
    if bs == [] {
      assert es + [] == es;
    } else {
      assert bs[0] in bs && forall e | e in bs[1..] :: e in bs;
      Step(codec, es, web, back, Back(bs[0]), B.Apply(back, bs[0]));
      BackRuns(codec, es + [Back(bs[0])], web, B.Apply(back, bs[0]), bs[1..]);
      assert es + [Back(bs[0])] + OnBack(bs[1..]) == es + OnBack(bs);
    }
  }

  /** The pool with Alice's runner, and the pipe of it. */
  function OneRunner(phase: P.Phase, starts: nat, call: P.Call, pipe: D.State): B.State {
    var key := P.PartitionKey(false, "alice");
    B.State(P.State(false, false, map[key := 0], [P.Runner(key, phase, 0.0, starts, 0, starts, P.InMap)],
                    map[1 := call]), [pipe], map[])
  }

  /** The runner is started, and then called once. */
  function Given(): B.State {
    OneRunner(P.Ready, 1, P.Returned("alice", 0, true), READING)
  }

  function Called(pipe: D.State): B.State {
    Given().(pipes := [pipe], owner := map[(0, 1) := "alice"])
  }

  const READING := D.INITIAL.(reader := D.Reading)

  lemma Looked(codec: Codec, web: W.State)
    requires 1 in web.tickets && web.tickets[1] == TICKET
    ensures var e, s := Back(B.Pool(P.Event.Lookup(1, "alice", 0.0))), State(web, B.Start(false), map[]);
            && Enabled(CFG, codec, s, e)
            && Apply(CFG, codec, s, e)
               == State(web, OneRunner(P.Fresh, 0, P.AtOnce("alice", 0), D.INITIAL), map[])
  {
  }

  /** startOnce: the process is launched, and its start succeeds. */
  lemma Started() returns (bs: seq<B.Event>)
    ensures var b := OneRunner(P.Fresh, 0, P.AtOnce("alice", 0), D.INITIAL);
            B.Legal(b, bs) && B.After(b, bs) == Given()
    ensures bs == [B.Pool(P.EnterOnce(1)), B.Pipe(0, D.Launch), B.Pool(P.StartEnds(1, true))]
  {
    hide *;
    bs := [B.Pool(P.EnterOnce(1)), B.Pipe(0, D.Launch), B.Pool(P.StartEnds(1, true))];
    OnceStarts();
    B.One(OneRunner(P.Running, 1, P.InStart("alice", 0), READING), bs[2]);
    B.One(OneRunner(P.Running, 1, P.InStart("alice", 0), D.INITIAL), bs[1]);
    B.Append(OneRunner(P.Running, 1, P.InStart("alice", 0), D.INITIAL), [bs[1]], [bs[2]]);
    B.One(OneRunner(P.Fresh, 0, P.AtOnce("alice", 0), D.INITIAL), bs[0]);
    B.Append(OneRunner(P.Fresh, 0, P.AtOnce("alice", 0), D.INITIAL), [bs[0]], [bs[1]] + [bs[2]]);
    assert bs == [bs[0]] + ([bs[1]] + [bs[2]]);
  }

  lemma OnceStarts()
    ensures var b1 := OneRunner(P.Fresh, 0, P.AtOnce("alice", 0), D.INITIAL);
            var b2 := OneRunner(P.Running, 1, P.InStart("alice", 0), D.INITIAL);
            var b3 := OneRunner(P.Running, 1, P.InStart("alice", 0), READING);
            && B.Enabled(b1, B.Pool(P.EnterOnce(1))) && B.Apply(b1, B.Pool(P.EnterOnce(1))) == b2
            && B.Enabled(b2, B.Pipe(0, D.Launch)) && B.Apply(b2, B.Pipe(0, D.Launch)) == b3
            && B.Enabled(b3, B.Pool(P.StartEnds(1, true))) && B.Apply(b3, B.Pool(P.StartEnds(1, true))) == Given()
  {
  }

  // ------------------------------------------------------------- the child's part

  /** The pipe with one call, number 1, under id 1. */
  function OneCall(ask: D.Ask, phase: D.Phase, waiting: seq<D.Line>, reader: D.Reader, wire: seq<D.Sent>,
                   heard: seq<D.Line>): D.State {
    D.State(D.Shared(1, if phase.Gone? then map[] else map[1 := 0], false, [waiting]),
            map[1 := D.Call(1, 0, ask, phase)], reader, map[1 := 1], [1], wire, heard)
  }

  function Registered(codec: Codec): D.State {
    OneCall(Asks(codec), D.Registered, [], D.Reading, [], [])
  }

  function CallDone(ask: D.Ask, line: D.Line): D.State {
    OneCall(ask, D.Gone(D.Received(line)), [], D.Reading, [D.Sent(1, ask)], [line])
  }

  lemma Registers(codec: Codec, web: W.State)
    requires 1 in web.tickets && web.tickets[1] == TICKET
    ensures var e := Back(B.ClientCall(1, 1, Asks(codec)));
            && Enabled(CFG, codec, State(web, Given(), map[]), e)
            && Apply(CFG, codec, State(web, Given(), map[]), e) == State(web, Called(Registered(codec)), map[])
  {
    PipeRegisters(Asks(codec));
    hide D.Enabled, D.Apply, OneCall;
  }

  lemma PipeRegisters(ask: D.Ask)
    ensures D.Enabled(READING, D.Register(1, ask))
    ensures D.Apply(READING, D.Register(1, ask)) == OneCall(ask, D.Registered, [], D.Reading, [], [])
  {
    var none: seq<D.Line> := [];
    assert [] + [none] == [none];
  }

  /** The child is sent the call and answers it. */
  lemma Answers(ask: D.Ask, line: D.Line) returns (ds: seq<D.Event>)
    requires line.id == 1
    ensures forall e | e in ds :: !B.StartersOwn(e)
    ensures ds == [D.Write(1)] + ([D.Read(line)] + ([D.Deliver] + ([D.Receive(1)] + ([D.Leave(1)] + []))))
    ensures var p := OneCall(ask, D.Registered, [], D.Reading, [], []);
            D.Legal(p, ds) && D.After(p, ds) == CallDone(ask, line)
  {
    hide *;
    IsSent(ask, line);
    var rest := IsAnswered(ask, line);
    D.Begin(OneCall(ask, D.Awaiting, [], D.Reading, [D.Sent(1, ask)], []), D.Read(line), rest);
    D.Begin(OneCall(ask, D.Registered, [], D.Reading, [], []), D.Write(1), [D.Read(line)] + rest);
    ds := [D.Write(1)] + ([D.Read(line)] + rest);
    NoStarters(line, ds);
  }

  lemma NoStarters(line: D.Line, ds: seq<D.Event>)
    requires ds == [D.Write(1)] + ([D.Read(line)] + ([D.Deliver] + ([D.Receive(1)] + ([D.Leave(1)] + []))))
    ensures forall e | e in ds :: !B.StartersOwn(e)
  {
  }

  lemma IsSent(ask: D.Ask, line: D.Line)
    requires line.id == 1
    ensures var p0 := OneCall(ask, D.Registered, [], D.Reading, [], []);
            var p1 := OneCall(ask, D.Awaiting, [], D.Reading, [D.Sent(1, ask)], []);
            && D.Enabled(p0, D.Write(1)) && D.Apply(p0, D.Write(1)) == p1
            && D.Enabled(p1, D.Read(line))
            && D.Apply(p1, D.Read(line))
               == OneCall(ask, D.Awaiting, [], D.Delivering(line, 0), [D.Sent(1, ask)], [line])
  {
  }

  lemma IsAnswered(ask: D.Ask, line: D.Line) returns (ds: seq<D.Event>)
    requires line.id == 1
    ensures ds == [D.Deliver] + ([D.Receive(1)] + ([D.Leave(1)] + []))
    ensures var p := OneCall(ask, D.Awaiting, [], D.Delivering(line, 0), [D.Sent(1, ask)], [line]);
            D.Legal(p, ds) && D.After(p, ds) == CallDone(ask, line)
  {
    var p2 := OneCall(ask, D.Awaiting, [], D.Delivering(line, 0), [D.Sent(1, ask)], [line]);
    var p3 := OneCall(ask, D.Awaiting, [line], D.Reading, [D.Sent(1, ask)], [line]);
    var p4 := OneCall(ask, D.Leaving(D.Received(line)), [], D.Reading, [D.Sent(1, ask)], [line]);
    InAndOut(line);
    D.Begin(p4, D.Leave(1), []);
    D.Begin(p3, D.Receive(1), [D.Leave(1)] + []);
    D.Begin(p2, D.Deliver, [D.Receive(1)] + ([D.Leave(1)] + []));
    ds := [D.Deliver] + ([D.Receive(1)] + ([D.Leave(1)] + []));
  }

  lemma InAndOut(line: D.Line)
    ensures D.SendIn(D.Shared(1, map[1 := 0], false, [[]]), 0, line) == D.Shared(1, map[1 := 0], false, [[line]])
    ensures D.TakeIn(D.Shared(1, map[1 := 0], false, [[line]]), 0) == D.Shared(1, map[1 := 0], false, [[]])
    ensures D.LeaveIn(D.Shared(1, map[1 := 0], false, [[]]), 1) == D.Shared(1, map[], false, [[]])
  {
    var none: seq<D.Line> := [];
    assert none + [line] == [line] && [line][1..] == none;
    assert [none][0 := [line]] == [[line]] && [[line]][0 := none] == [none];
    assert map[1 := 0] - {1} == map[];
  }

  // --------------------------------------------------------------------- theorem

  lemma MayAnswer(codec: Codec, es: seq<Event>, web: W.State, back: B.State, text: string)
    requires var line := D.Line(1, D.Answer(text));
             back == Called(CallDone(Asks(codec), line))
    requires CameTo(codec, es, web, back)
    ensures var s := State(web, back, map[]);
            && Reached(CFG, codec, false, es, s) && Enabled(CFG, codec, s, Answer(1, 1.0))
            && PipeOf(back, 1).calls[1].phase.outcome == D.Received(D.Line(1, D.Answer(text)))
            && D.Echoes(PipeOf(back, 1), (ask: D.Ask, t: string) => t == text)
  {
    var p, right := back.pipes[0], (ask: D.Ask, t: string) => t == text;
    assert p.wire[0].id == 1 && right(p.wire[0].ask, text);
    hide Reached;
  }

  /** For whatever text the child answers with there is a run, from an empty gateway, at
      whose end a client is about to be answered with it. */
  lemma AnswerIsReached(codec: Codec, text: string) returns (es: seq<Event>, s: State)
    ensures Reached(CFG, codec, false, es, s) && Enabled(CFG, codec, s, Answer(1, 1.0))
    ensures PipeOf(s.back, 1).calls[1].phase.outcome == D.Received(D.Line(1, D.Answer(text)))
    ensures D.Echoes(PipeOf(s.back, 1), (ask: D.Ask, t: string) => t == text)
  {
    hide *;
    var line := D.Line(1, D.Answer(text));
    var before, web := IsAsked(codec);
    var ds := Answers(Asks(codec), line);
    assert Registered(codec) == OneCall(Asks(codec), D.Registered, [], D.Reading, [], []) by { IsRegistered(codec); }
    PipeAlone(Registered(codec), ds);
    BackRuns(codec, before, web, Called(Registered(codec)), B.Lift(0, ds));
    es, s := before + OnBack(B.Lift(0, ds)), State(web, Called(CallDone(Asks(codec), line)), map[]);
    MayAnswer(codec, es, web, s.back, text);
  }

  /** The call is registered on the runner. */
  lemma IsAsked(codec: Codec) returns (es: seq<Event>, web: W.State)
    ensures CameTo(codec, es, web, Called(Registered(codec)))
  {
    hide *;
    es, web := InTheHandler(codec);
    var look, call := Back(B.Pool(P.Event.Lookup(1, "alice", 0.0))), Back(B.ClientCall(1, 1, Asks(codec)));
    var fresh_ := OneRunner(P.Fresh, 0, P.AtOnce("alice", 0), D.INITIAL);
    IsThere(codec, es, web, B.Start(false));
    Looked(codec, web);
    Step(codec, es, web, B.Start(false), look, fresh_);
    var bs := Started();
    BackRuns(codec, es + [look], web, fresh_, bs);
    Registers(codec, web);
    Step(codec, es + [look] + OnBack(bs), web, Given(), call, Called(Registered(codec)));
    es := es + [look] + OnBack(bs) + [call];
  }

  lemma IsThere(codec: Codec, es: seq<Event>, web: W.State, back: B.State)
    requires CameTo(codec, es, web, back)
    ensures 1 in web.tickets && web.tickets[1] == TICKET
  {
  }

  lemma Step(codec: Codec, es: seq<Event>, web: W.State, back: B.State, e: Event, next: B.State)
    requires CameTo(codec, es, web, back) && Enabled(CFG, codec, State(web, back, map[]), e)
    requires Apply(CFG, codec, State(web, back, map[]), e) == State(web, next, map[])
    ensures CameTo(codec, es + [e], web, next)
  {
    hide Enabled, Apply;
    Append(codec, Start(false), es, e);
  }

  /** What the pipe does by itself. */
  lemma PipeAlone(pipe: D.State, ds: seq<D.Event>)
    requires D.Legal(pipe, ds) && forall e | e in ds :: !B.StartersOwn(e)
    ensures B.Legal(Called(pipe), B.Lift(0, ds)) && B.After(Called(pipe), B.Lift(0, ds)) == Called(D.After(pipe, ds))
    ensures forall e | e in B.Lift(0, ds) :: e.Pipe?
  {
    hide D.Legal, D.After;
    B.LiftRuns(Called(pipe), 0, ds);
    OnlyPipe(ds);
    assert [pipe][0 := D.After(pipe, ds)] == [D.After(pipe, ds)];
  }

  lemma IsRegistered(codec: Codec)
    ensures Registered(codec) == OneCall(Asks(codec), D.Registered, [], D.Reading, [], [])
  {
  }

  lemma {:induction false} OnlyPipe(ds: seq<D.Event>)
    ensures forall e | e in B.Lift(0, ds) :: e.Pipe?
  {
    if ds != [] {
      OnlyPipe(ds[1..]);
    }
  }
}
