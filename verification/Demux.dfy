/**
 The request/response demultiplexer of internal/server/stdio_runner.go as a
 transition system: any number of concurrent Calls, one reader, one Stop. Every
 region the code runs under its mutex, every channel operation and every write is
 one step, and steps of different goroutines interleave freely. The child process
 is an environment that may print any line, or close its output, at any moment.
 */
module Demux {

  /** What a caller asks, and what a line of the child says. */
  datatype Ask = Ask(method_: string, params: string)
  datatype Body = Answer(text: string) | Error(text: string) | Garbled
  datatype Line = Line(id: int, body: Body)
  datatype Sent = Sent(id: int, ask: Ask)

  /** The line the drain makes up for a call whose answer will never come. */
  const CLOSED := Error("backing mcp closed")

  /** The fields under the mutex, and the channels. Channel k is the k-th one made;
      its contents are at most one line. */
  datatype Shared = Shared(nextID: int, pending: map<int, nat>, stopped: bool, chans: seq<seq<Line>>)

  datatype Outcome = Received(line: Line) | WriteFailed | Cancelled

  /** Where a Call is: registered but not written, waiting for its line, on its way
      to the deferred delete, or returned. */
  datatype Phase = Registered | Awaiting | Leaving(outcome: Outcome) | Gone(outcome: Outcome)

  datatype Call = Call(id: int, chan: nat, ask: Ask, phase: Phase)

  /** Unlaunched: Start has not come to its go statement. upTo is the last id handed
      out when the drain began; shut tells whether Stop had closed the door by then. */
  datatype Reader =
    | Unlaunched
    | Reading
    | Delivering(line: Line, chan: nat)
    | Draining(todo: set<int>, upTo: int, shut: bool)
    | Finished(upTo: int, shut: bool)

  /** drawn and made record which call drew an id or made a channel; wire and heard
      record the lines written to and read from the child. */
  datatype State = State(sh: Shared, calls: map<nat, Call>, reader: Reader,
                         drawn: map<int, nat>, made: seq<nat>, wire: seq<Sent>, heard: seq<Line>)

  datatype Event =
    | Register(c: nat, ask: Ask)
    | Write(c: nat)
    | FailWrite(c: nat)
    | Receive(c: nat)
    | Cancel(c: nat)
    | Leave(c: nat)
    | Launch
    | Read(line: Line)
    | Deliver
    | BeginDrain
    | DrainOne(id: int)
    | EndDrain
    | MarkStopped

  // ------------------------------------------------- the regions of the code

  function RegisterIn(sh: Shared): Shared {
    sh.(nextID := sh.nextID + 1,
        pending := sh.pending[sh.nextID + 1 := |sh.chans|],
        chans := sh.chans + [[]])
  }

  function LeaveIn(sh: Shared, id: int): Shared {
    sh.(pending := sh.pending - {id})
  }

  function SendIn(sh: Shared, chan: nat, line: Line): Shared
    requires chan < |sh.chans|
  {
    sh.(chans := sh.chans[chan := sh.chans[chan] + [line]])
  }

  function TakeIn(sh: Shared, chan: nat): Shared
    requires chan < |sh.chans| && sh.chans[chan] != []
  {
    sh.(chans := sh.chans[chan := sh.chans[chan][1..]])
  }

  /** A send to the call registered under the line's id that gives up when the
      buffer is full. */
  function OfferIn(sh: Shared, line: Line): Shared
    requires line.id in sh.pending && sh.pending[line.id] < |sh.chans|
  {
    var k := sh.pending[line.id];
    if sh.chans[k] == [] then SendIn(sh, k, line) else sh
  }

  /** One turn of the drain. */
  function DrainIn(sh: Shared, id: int): Shared
    requires id in sh.pending && sh.pending[id] < |sh.chans|
  {
    OfferIn(sh, Line(id, CLOSED))
  }

  const INITIAL := State(Shared(0, map[], false, []), map[], Unlaunched, map[], [], [], [])

  /** The drain holds the mutex from its first to its last entry. */
  predicate MutexFree(s: State) {
    !s.reader.Draining?
  }

  predicate InPhase(s: State, c: nat, p: Phase) {
    c in s.calls && s.calls[c].phase == p
  }

  predicate Enabled(s: State, e: Event) {
    match e
    case Register(c, _) => MutexFree(s) && !s.sh.stopped && c !in s.calls
    case Write(c) => InPhase(s, c, Registered)
    case FailWrite(c) => InPhase(s, c, Registered)
    case Receive(c) =>
      InPhase(s, c, Awaiting) && s.calls[c].chan < |s.sh.chans| && s.sh.chans[s.calls[c].chan] != []
    case Cancel(c) => InPhase(s, c, Awaiting)
    case Leave(c) => MutexFree(s) && c in s.calls && s.calls[c].phase.Leaving?
    case Launch => s.reader.Unlaunched?
    case Read(_) => s.reader.Reading?
    case Deliver =>
      s.reader.Delivering? && s.reader.chan < |s.sh.chans| && s.sh.chans[s.reader.chan] == []
    case BeginDrain => s.reader.Reading?
    case DrainOne(id) =>
      s.reader.Draining? && id in s.reader.todo && id in s.sh.pending && s.sh.pending[id] < |s.sh.chans|
    case EndDrain => s.reader.Draining? && s.reader.todo == {}
    case MarkStopped => MutexFree(s) && !s.sh.stopped
  }

  function Move(s: State, c: nat, p: Phase): State
    requires c in s.calls
  {
    s.(calls := s.calls[c := s.calls[c].(phase := p)])
  }

  function Apply(s: State, e: Event): State
    requires Enabled(s, e)
  {
    match e
    case Register(c, ask) =>
      var id, k := s.sh.nextID + 1, |s.sh.chans|;
      s.(sh := RegisterIn(s.sh), calls := s.calls[c := Call(id, k, ask, Registered)],
         drawn := s.drawn[id := c], made := s.made + [c])
    case Write(c) => Move(s, c, Awaiting).(wire := s.wire + [Sent(s.calls[c].id, s.calls[c].ask)])
    case FailWrite(c) => Move(s, c, Leaving(WriteFailed))
    case Receive(c) =>
      var k := s.calls[c].chan;
      Move(s, c, Leaving(Received(s.sh.chans[k][0]))).(sh := TakeIn(s.sh, k))
    case Cancel(c) => Move(s, c, Leaving(Cancelled))
    case Leave(c) => Move(s, c, Gone(s.calls[c].phase.outcome)).(sh := LeaveIn(s.sh, s.calls[c].id))
    case Launch => s.(reader := Reading)
    case Read(line) =>
      s.(heard := s.heard + [line],
         reader := if line.id in s.sh.pending then Delivering(line, s.sh.pending[line.id]) else Reading)
    case Deliver => s.(sh := SendIn(s.sh, s.reader.chan, s.reader.line), reader := Reading)
    case BeginDrain => s.(reader := Draining(s.sh.pending.Keys, s.sh.nextID, s.sh.stopped))
    case DrainOne(id) =>
      s.(sh := DrainIn(s.sh, id), reader := s.reader.(todo := s.reader.todo - {id}))
    case EndDrain => s.(reader := Finished(s.reader.upTo, s.reader.shut))
    case MarkStopped => s.(sh := s.sh.(stopped := true))
  }

  /** A run: every event was enabled where it happened. */
  predicate Legal(s: State, es: seq<Event>)
    decreases |es|
  {
    es == [] || (Enabled(s, es[0]) && Legal(Apply(s, es[0]), es[1..]))
  }

  function After(s: State, es: seq<Event>): State
    requires Legal(s, es)
    decreases |es|
  {
    if es == [] then s else After(Apply(s, es[0]), es[1..])
  }

  // ------------------------------------------------------------ the invariant

  predicate Busy(p: Phase) { p.Registered? || p.Awaiting? }

  predicate HasLine(s: State, c: nat)
    requires c in s.calls
  {
    s.calls[c].chan < |s.sh.chans| && s.sh.chans[s.calls[c].chan] != []
  }

  predicate HasReceived(call: Call) {
    (call.phase.Leaving? || call.phase.Gone?) && call.phase.outcome.Received?
  }

  /** What a call received carries its own id. */
  predicate OwnLine(call: Call) {
    HasReceived(call) ==> call.phase.outcome.line.id == call.id
  }

  /** How far the drain has come for one outstanding call. */
  predicate Drained(s: State, c: nat)
    requires c in s.calls
  {
    Busy(s.calls[c].phase) ==>
      match s.reader
      case Unlaunched => true
      case Reading => true
      case Delivering(_, _) => true
      case Draining(todo, _, _) => s.calls[c].id in todo || HasLine(s, c)
      case Finished(upTo, _) => HasLine(s, c) <==> s.calls[c].id <= upTo
  }

  /** A call owns one id and one channel, and is in the table until it leaves. */
  predicate CallOk(s: State, c: nat)
    requires c in s.calls
  {
    var call := s.calls[c];
    && call.id in s.drawn && s.drawn[call.id] == c
    && call.chan < |s.made| && s.made[call.chan] == c
    && (!call.phase.Gone? ==> call.id in s.sh.pending && s.sh.pending[call.id] == call.chan)
    && OwnLine(call) && Drained(s, c)
  }

  /** Ids run from 1 to nextID, each drawn by one call; an entry of the table is the
      channel of the call that drew the id, and that call has not returned. */
  predicate IdOk(s: State, i: int) {
    && (i in s.drawn <==> 1 <= i <= s.sh.nextID)
    && (i in s.drawn ==> s.drawn[i] in s.calls && s.calls[s.drawn[i]].id == i)
    && (i in s.sh.pending ==>
          i in s.drawn && s.drawn[i] in s.calls && !s.calls[s.drawn[i]].phase.Gone?
          && s.sh.pending[i] == s.calls[s.drawn[i]].chan)
  }

  /** A channel holds at most one line, and that carries the id of its call. */
  predicate ChanOk(s: State, k: nat)
    requires k < |s.made| == |s.sh.chans|
  {
    && s.made[k] in s.calls && s.calls[s.made[k]].chan == k
    && |s.sh.chans[k]| <= 1
    && (s.sh.chans[k] != [] ==> s.sh.chans[k][0].id == s.calls[s.made[k]].id)
  }

  predicate ReaderOk(s: State) {
    match s.reader
    case Unlaunched => true
    case Reading => true
    case Delivering(line, chan) =>
      chan < |s.made| && s.made[chan] in s.calls && line.id == s.calls[s.made[chan]].id
    case Draining(todo, upTo, shut) =>
      upTo == s.sh.nextID && todo <= s.sh.pending.Keys && (shut ==> s.sh.stopped)
    case Finished(upTo, shut) =>
      upTo <= s.sh.nextID && (shut ==> s.sh.stopped && upTo == s.sh.nextID)
  }

  ghost predicate Inv(s: State) {
    && s.sh.nextID >= 0 && |s.made| == |s.sh.chans| && ReaderOk(s)
    && (forall c {:trigger CallOk(s, c)} | c in s.calls :: CallOk(s, c))
    && (forall i {:trigger IdOk(s, i)} :: IdOk(s, i))
    && (forall k {:trigger ChanOk(s, k)} | 0 <= k < |s.made| :: ChanOk(s, k))
  }

  lemma StepKeepsInv(s: State, e: Event)
    requires Inv(s) && Enabled(s, e)
    ensures Inv(Apply(s, e))
  {
    StepKeepsIds(s, e);
    StepKeepsChans(s, e);
    StepKeepsCalls(s, e);
    StepKeepsReader(s, e);
  }

  /** The call, id and channel an event is about. */
  lemma Facts(s: State, c: nat)
    requires Inv(s) && c in s.calls
    ensures CallOk(s, c) && IdOk(s, s.calls[c].id)
    ensures s.calls[c].chan < |s.made| && ChanOk(s, s.calls[c].chan)
  {
    assert CallOk(s, c);
  }

  lemma IdFacts(s: State, i: int)
    requires Inv(s) && i in s.sh.pending
    ensures IdOk(s, i) && CallOk(s, s.drawn[i])
    ensures s.sh.pending[i] < |s.made| && ChanOk(s, s.sh.pending[i])
  {
    assert IdOk(s, i) && CallOk(s, s.drawn[i]);
  }

  lemma StepKeepsIds(s: State, e: Event)
    requires Inv(s) && Enabled(s, e)
    ensures forall i {:trigger IdOk(Apply(s, e), i)} :: IdOk(Apply(s, e), i)
  {
    forall i ensures IdOk(Apply(s, e), i) {
      assert IdOk(s, i);
      if e.Leave? { Facts(s, e.c); }
    }
  }

  lemma StepKeepsChans(s: State, e: Event)
    requires Inv(s) && Enabled(s, e)
    ensures var t := Apply(s, e);
            |t.made| == |t.sh.chans| &&
            forall k {:trigger ChanOk(t, k)} | 0 <= k < |t.made| :: ChanOk(t, k)
  {
    var t := Apply(s, e);
    if e.Receive? { Facts(s, e.c); }
    if e.DrainOne? { IdFacts(s, e.id); }
    forall k | 0 <= k < |t.made| ensures ChanOk(t, k) {
      if k < |s.made| {
        assert ChanOk(s, k);
      }
    }
  }

  lemma StepKeepsCalls(s: State, e: Event)
    requires Inv(s) && Enabled(s, e)
    ensures var t := Apply(s, e); forall c {:trigger CallOk(t, c)} | c in t.calls :: CallOk(t, c)
  {
    forall c | c in Apply(s, e).calls ensures CallOk(Apply(s, e), c) {
      if c in s.calls {
        StepKeepsCall(s, e, c);
      } else {
        NewCallOk(s, e, c);
      }
    }
  }

  lemma NewCallOk(s: State, e: Event, c: nat)
    requires Inv(s) && Enabled(s, e) && c !in s.calls && c in Apply(s, e).calls
    ensures CallOk(Apply(s, e), c)
  {
  }

  lemma StepKeepsCall(s: State, e: Event, c: nat)
    requires Inv(s) && Enabled(s, e) && c in s.calls
    ensures c in Apply(s, e).calls && CallOk(Apply(s, e), c)
  {
    StepKeepsDrained(s, e, c);
    hide Drained, ReaderOk, IdOk;
    Facts(s, c);
    if e.Receive? || e.Leave? { Facts(s, e.c); }
  }

  lemma StepKeepsDrained(s: State, e: Event, c: nat)
    requires Inv(s) && Enabled(s, e) && c in s.calls
    ensures c in Apply(s, e).calls && Drained(Apply(s, e), c)
  {
    Facts(s, c);
    if e.Receive? { Facts(s, e.c); }
    if e.DrainOne? { IdFacts(s, e.id); }
    hide OwnLine, Inv;
  }

  lemma StepKeepsReader(s: State, e: Event)
    requires Inv(s) && Enabled(s, e)
    ensures ReaderOk(Apply(s, e))
  {
    if e.Leave? { Facts(s, e.c); }
    if e.Read? && e.line.id in s.sh.pending { IdFacts(s, e.line.id); }
  }

  lemma {:induction false} RunsKeepInv(s: State, es: seq<Event>)
    requires Inv(s) && Legal(s, es)
    ensures Inv(After(s, es))
    decreases |es|
  {
    if es != [] {
      StepKeepsInv(s, es[0]);
      RunsKeepInv(Apply(s, es[0]), es[1..]);
    }
  }

  lemma InitialInv()
    ensures Inv(INITIAL)
  {
  }

  /** The state a run from the start leads to. */
  ghost predicate Reached(es: seq<Event>, s: State) {
    Legal(INITIAL, es) && After(INITIAL, es) == s
  }

  lemma ReachedInv(es: seq<Event>, s: State)
    requires Reached(es, s)
    ensures Inv(s)
  {
    InitialInv();
    RunsKeepInv(INITIAL, es);
  }

  lemma {:induction false} AfterAppend(s: State, es: seq<Event>, more: seq<Event>)
    requires Legal(s, es)
    ensures Legal(s, es + more) <==> Legal(After(s, es), more)
    ensures Legal(s, es + more) ==> After(s, es + more) == After(After(s, es), more)
    decreases |es|
  {
    if es == [] {
      assert es + more == more;
    } else {
      AfterAppend(Apply(s, es[0]), es[1..], more);
      assert (es + more)[1..] == es[1..] + more;
    }
  }

  lemma Begin(s: State, e: Event, rest: seq<Event>)
    requires Enabled(s, e) && Legal(Apply(s, e), rest)
    ensures Legal(s, [e] + rest) && After(s, [e] + rest) == After(Apply(s, e), rest)
  {
    assert ([e] + rest)[1..] == rest;
  }

  // ----------------------------------------------- the table is never leaky

  /** The keys of pending are exactly the ids of the calls that have not returned. */
  lemma PendingConservation(es: seq<Event>, s: State)
    requires Reached(es, s)
    ensures s.sh.pending.Keys == set c | c in s.calls && !s.calls[c].phase.Gone? :: s.calls[c].id
    ensures (forall c | c in s.calls :: s.calls[c].phase.Gone?) ==> s.sh.pending == map[]
  {
    ReachedInv(es, s);
    forall i | i in s.sh.pending
      ensures i in s.drawn && s.drawn[i] in s.calls && !s.calls[s.drawn[i]].phase.Gone? && s.calls[s.drawn[i]].id == i
    {
      IdFacts(s, i);
    }
    forall c | c in s.calls ensures CallOk(s, c) {}
  }

  /** No id is drawn twice, and no two calls share a channel. */
  lemma IdsAndChannelsAreUnique(es: seq<Event>, s: State, c: nat, d: nat)
    requires Reached(es, s) && c in s.calls && d in s.calls && c != d
    ensures s.calls[c].id != s.calls[d].id && s.calls[c].chan != s.calls[d].chan
    ensures forall i, j | i in s.sh.pending && j in s.sh.pending && i != j ::
              s.sh.pending[i] != s.sh.pending[j]
  {
    ReachedInv(es, s);
    Facts(s, c);
    Facts(s, d);
    forall i, j | i in s.sh.pending && j in s.sh.pending && i != j
      ensures s.sh.pending[i] != s.sh.pending[j]
    {
      IdFacts(s, i);
      IdFacts(s, j);
    }
  }

  // --------------------------------------------------------- whose line it is

  /** Where lines come from: what reaches a call was read from the child, or made up
      by the drain; what is on the wire is what the call with that id asked. */
  predicate Genuine(s: State, line: Line) {
    line in s.heard || line.body == CLOSED
  }

  ghost predicate Provenance(s: State) {
    && (forall k | 0 <= k < |s.sh.chans| && s.sh.chans[k] != [] :: Genuine(s, s.sh.chans[k][0]))
    && (s.reader.Delivering? ==> Genuine(s, s.reader.line))
    && (forall c | c in s.calls && HasReceived(s.calls[c]) :: Genuine(s, s.calls[c].phase.outcome.line))
    && (forall j | 0 <= j < |s.wire| ::
          s.wire[j].id in s.drawn && s.drawn[s.wire[j].id] in s.calls
          && s.calls[s.drawn[s.wire[j].id]].ask == s.wire[j].ask)
  }

  lemma StepKeepsProvenance(s: State, e: Event)
    requires Inv(s) && Enabled(s, e) && Provenance(s)
    ensures Provenance(Apply(s, e))
  {
    var t := Apply(s, e);
    if e.Register? {
      assert IdOk(s, s.sh.nextID + 1);
    }
    if e.Receive? || e.Write? {
      Facts(s, e.c);
    }
    forall c | c in t.calls && HasReceived(t.calls[c]) ensures Genuine(t, t.calls[c].phase.outcome.line) {
      if c in s.calls && HasReceived(s.calls[c]) {
        assert Genuine(s, s.calls[c].phase.outcome.line);
      }
    }
  }

  lemma {:induction false} RunsKeepProvenance(s: State, es: seq<Event>)
    requires Inv(s) && Provenance(s) && Legal(s, es)
    ensures Provenance(After(s, es))
    decreases |es|
  {
    if es != [] {
      StepKeepsInv(s, es[0]);
      StepKeepsProvenance(s, es[0]);
      RunsKeepProvenance(Apply(s, es[0]), es[1..]);
    }
  }

  /** No line was written under this id. */
  predicate NotOnWire(s: State, id: int) {
    forall j | 0 <= j < |s.wire| :: s.wire[j].id != id
  }

  /** Every call has been written once at most, and not yet where it has only registered. */
  ghost predicate WrittenOnce(s: State) {
    && (forall j, k | 0 <= j < k < |s.wire| :: s.wire[j].id != s.wire[k].id)
    && (forall c | c in s.calls && s.calls[c].phase.Registered? :: NotOnWire(s, s.calls[c].id))
  }

  lemma StepKeepsWrittenOnce(s: State, e: Event)
    requires Inv(s) && Provenance(s) && WrittenOnce(s) && Enabled(s, e)
    ensures WrittenOnce(Apply(s, e))
  {
    var t := Apply(s, e);
    forall c | c in t.calls && t.calls[c].phase.Registered? ensures NotOnWire(t, t.calls[c].id) {
      if c in s.calls {
        assert NotOnWire(s, s.calls[c].id);
        if e.Write? { OwnIds(s, c, e.c); }
      } else {
        assert IdOk(s, t.calls[c].id);
      }
    }
  }

  lemma OwnIds(s: State, c: nat, d: nat)
    requires Inv(s) && c in s.calls && d in s.calls && c != d
    ensures s.calls[c].id != s.calls[d].id
  {
    Facts(s, c);
    Facts(s, d);
  }

  lemma {:induction false} RunsKeepWrittenOnce(s: State, es: seq<Event>)
    requires Inv(s) && Provenance(s) && WrittenOnce(s) && Legal(s, es)
    ensures WrittenOnce(After(s, es))
    decreases |es|
  {
    hide Inv, Provenance, WrittenOnce, Enabled, Apply;
    if es != [] {
      StepKeepsInv(s, es[0]);
      StepKeepsProvenance(s, es[0]);
      StepKeepsWrittenOnce(s, es[0]);
      RunsKeepWrittenOnce(Apply(s, es[0]), es[1..]);
    }
  }

  /** A backend that echoes ids: every answer it printed is a right answer to a
      request it was sent under that id. */
  ghost predicate Echoes(s: State, right: (Ask, string) -> bool) {
    forall line | line in s.heard && line.body.Answer? ::
      exists j :: 0 <= j < |s.wire| && s.wire[j].id == line.id && right(s.wire[j].ask, line.body.text)
  }

  lemma OwnAnswer(s: State, c: nat, right: (Ask, string) -> bool)
    requires Inv(s) && Provenance(s) && c in s.calls && HasReceived(s.calls[c])
    ensures s.calls[c].phase.outcome.line.id == s.calls[c].id
    ensures var line := s.calls[c].phase.outcome.line;
            Echoes(s, right) && line.body.Answer? ==> right(s.calls[c].ask, line.body.text)
  {
    Facts(s, c);
    assert Genuine(s, s.calls[c].phase.outcome.line);
  }

  /** No caller sees another caller's response: in every interleaving, a received
      line carries the caller's own id, and with a backend that echoes ids an answer
      is a right answer to what this very caller asked. */
  lemma NoCrossTalk(es: seq<Event>, s: State, c: nat, right: (Ask, string) -> bool)
    requires Reached(es, s) && c in s.calls && HasReceived(s.calls[c])
    ensures s.calls[c].phase.outcome.line.id == s.calls[c].id
    ensures var line := s.calls[c].phase.outcome.line;
            Echoes(s, right) && line.body.Answer? ==> right(s.calls[c].ask, line.body.text)
  {
    ReachedInv(es, s);
    InitialInv();
    RunsKeepProvenance(INITIAL, es);
    OwnAnswer(s, c, right);
  }

  // ------------------------------------------------------ calls and the drain

  /** What a finished drain leaves behind: an outstanding call has a line to receive
      if and only if it had registered before the drain began. */
  lemma StrandedIffRegisteredAfterDrain(es: seq<Event>, s: State, c: nat)
    requires Reached(es, s) && s.reader.Finished? && c in s.calls && Busy(s.calls[c].phase)
    ensures HasLine(s, c) <==> s.calls[c].id <= s.reader.upTo
  {
    ReachedInv(es, s);
    Facts(s, c);
  }

  /** If Stop had closed the door when the drain began, then once the reader is done
      every outstanding call has a line and no call can register any more. */
  lemma NoStrandedCall(es: seq<Event>, s: State)
    requires Reached(es, s) && s.reader.Finished? && s.reader.shut
    ensures forall c | c in s.calls && Busy(s.calls[c].phase) :: HasLine(s, c)
    ensures forall c, ask :: !Enabled(s, Register(c, ask))
  {
    ReachedInv(es, s);
    forall c | c in s.calls && Busy(s.calls[c].phase) ensures HasLine(s, c) {
      Facts(s, c);
      assert IdOk(s, s.calls[c].id);
    }
  }

  /** A stranded call stays stranded: whatever else happens, it waits until its own
      context gives up. */
  lemma {:induction false} StrandedUntilCancelled(s: State, c: nat, es: seq<Event>)
    requires Inv(s) && s.reader.Finished? && InPhase(s, c, Awaiting) && !HasLine(s, c)
    requires Legal(s, es) && Cancel(c) !in es
    ensures InPhase(After(s, es), c, Awaiting) && !HasLine(After(s, es), c)
    decreases |es|
  {
    if es != [] {
      StepKeepsInv(s, es[0]);
      Facts(s, c);
      if es[0].Receive? { Facts(s, es[0].c); }
      StrandedUntilCancelled(Apply(s, es[0]), c, es[1..]);
    }
  }

  /** The call has received nothing and has nothing to receive. */
  predicate Unheard(s: State, c: nat) {
    c in s.calls && !HasLine(s, c) && !HasReceived(s.calls[c])
  }

  lemma UnheardStep(s: State, e: Event, c: nat)
    requires Inv(s) && Enabled(s, e) && s.reader.Finished? && c in Apply(s, e).calls
    requires c in s.calls ==> Unheard(s, c)
    ensures Unheard(Apply(s, e), c) && Apply(s, e).reader == s.reader
  {
    if c in s.calls {
      Facts(s, c);
      if e.Receive? { Facts(s, e.c); }
    }
  }

  /** Once the reader is done, no call that registers later is ever answered. */
  lemma {:induction false} LaterCallsAreUnheard(s: State, es: seq<Event>, c: nat)
    requires Inv(s) && s.reader.Finished? && Legal(s, es)
    requires c in s.calls ==> Unheard(s, c)
    ensures c in After(s, es).calls ==> Unheard(After(s, es), c)
    decreases |es|
  {
    hide Inv, Enabled, Apply, Unheard;
    if es != [] {
      StepKeepsInv(s, es[0]);
      FinishedStays(s, es[0]);
      if c in Apply(s, es[0]).calls {
        UnheardStep(s, es[0], c);
      }
      LaterCallsAreUnheard(Apply(s, es[0]), es[1..], c);
    }
  }

  lemma FinishedStays(s: State, e: Event)
    requires Enabled(s, e) && s.reader.Finished?
    ensures Apply(s, e).reader == s.reader && s.calls.Keys <= Apply(s, e).calls.Keys
  {
  }

  /** Such calls exist: the child closes its output, the drain finds nobody, and only
      then does a call register; Stop has not been called. */
  lemma StrandedCallExists() returns (es: seq<Event>, s: State)
    ensures Reached(es, s) && s.reader.Finished? && !s.sh.stopped
    ensures InPhase(s, 0, Awaiting) && !HasLine(s, 0)
  {
    var start := Register(0, Ask("tools/list", ""));
    var s0 := Apply(INITIAL, Launch);
    var s1 := Apply(s0, BeginDrain);
    var s2 := Apply(s1, EndDrain);
    var s3 := Apply(s2, start);
    var tail := [Write(0)] + [];
    s := After(s3, tail);
    Begin(s2, start, tail);
    tail := [start] + tail;
    Begin(s1, EndDrain, tail);
    tail := [EndDrain] + tail;
    Begin(s0, BeginDrain, tail);
    tail := [BeginDrain] + tail;
    Begin(INITIAL, Launch, tail);
    es := [Launch] + tail;
  }

  /** What is queued for a call is what it will receive: neither a later line with
      the same id nor the drain's made-up error replaces it. */
  lemma {:induction false} QueuedLineWins(s: State, c: nat, line: Line, es: seq<Event>)
    requires Inv(s) && Legal(s, es) && c in s.calls
    requires Busy(s.calls[c].phase) && HasLine(s, c) && s.sh.chans[s.calls[c].chan][0] == line
    ensures var t := After(s, es);
            && c in t.calls
            && (HasReceived(t.calls[c]) ==> t.calls[c].phase.outcome.line == line)
            && (Busy(t.calls[c].phase) ==> HasLine(t, c) && t.sh.chans[t.calls[c].chan][0] == line)
    decreases |es|
  {
    if es != [] {
      var t := Apply(s, es[0]);
      StepKeepsInv(s, es[0]);
      QueuedStep(s, c, line, es[0]);
      hide Inv, Enabled, Apply, HasLine;
      if Busy(t.calls[c].phase) {
        QueuedLineWins(t, c, line, es[1..]);
      } else {
        OutcomeStays(t, c, es[1..]);
      }
    }
  }

  lemma QueuedStep(s: State, c: nat, line: Line, e: Event)
    requires Inv(s) && Enabled(s, e) && c in s.calls
    requires Busy(s.calls[c].phase) && HasLine(s, c) && s.sh.chans[s.calls[c].chan][0] == line
    ensures var t := Apply(s, e);
            && c in t.calls
            && (HasReceived(t.calls[c]) ==> t.calls[c].phase.outcome.line == line)
            && (Busy(t.calls[c].phase) ==> HasLine(t, c) && t.sh.chans[t.calls[c].chan][0] == line)
  {
    Facts(s, c);
    if e.Receive? { Facts(s, e.c); }
    hide Drained, IdOk;
  }

  lemma {:induction false} OutcomeStays(s: State, c: nat, es: seq<Event>)
    requires Legal(s, es) && c in s.calls && !Busy(s.calls[c].phase)
    ensures var t := After(s, es);
            c in t.calls && !Busy(t.calls[c].phase) && t.calls[c].phase.outcome == s.calls[c].phase.outcome
    decreases |es|
  {
    if es != [] {
      OutcomeStays(Apply(s, es[0]), c, es[1..]);
    }
  }

  // ---------------------------------------------------------- reader progress

  predicate AnswersOnce(heard: seq<Line>) {
    forall i, j | 0 <= i < j < |heard| :: heard[i].id != heard[j].id
  }

  /** Until the drain, whatever sits in a channel was read before the line the
      reader is holding. */
  ghost predicate Backlog(s: State) {
    && (s.reader.Delivering? ==> s.heard != [] && s.heard[|s.heard| - 1] == s.reader.line)
    && (forall k | 0 <= k < |s.sh.chans| && s.sh.chans[k] != [] ::
          && !s.reader.Unlaunched?
          && (s.reader.Reading? ==> s.sh.chans[k][0] in s.heard)
          && (s.reader.Delivering? ==> s.heard != [] && s.sh.chans[k][0] in s.heard[..|s.heard| - 1]))
  }

  lemma StepKeepsBacklog(s: State, e: Event)
    requires Inv(s) && Enabled(s, e) && Backlog(s)
    ensures Backlog(Apply(s, e))
  {
    var t := Apply(s, e);
    forall k | 0 <= k < |t.sh.chans| && t.sh.chans[k] != []
      ensures !t.reader.Unlaunched? && (t.reader.Reading? ==> t.sh.chans[k][0] in t.heard)
      ensures t.reader.Delivering? ==> t.heard != [] && t.sh.chans[k][0] in t.heard[..|t.heard| - 1]
    {
      ChanKeepsBacklog(s, e, k);
    }
    hide Inv;
  }

  lemma ChanKeepsBacklog(s: State, e: Event, k: nat)
    requires Inv(s) && Enabled(s, e) && Backlog(s)
    requires k < |Apply(s, e).sh.chans| && Apply(s, e).sh.chans[k] != []
    ensures var t := Apply(s, e);
            && !t.reader.Unlaunched? && (t.reader.Reading? ==> t.sh.chans[k][0] in t.heard)
            && (t.reader.Delivering? ==> t.heard != [] && t.sh.chans[k][0] in t.heard[..|t.heard| - 1])
  {
    if k < |s.sh.chans| { assert ChanOk(s, k); }
    if e.Receive? { Facts(s, e.c); }
    hide Inv, CallOk, IdOk;
    if e.Read? {
      assert Apply(s, e).heard[..|s.heard|] == s.heard;
    }
    if e.Deliver? {
      assert s.heard == s.heard[..|s.heard| - 1] + [s.heard[|s.heard| - 1]];
    }
  }

  lemma {:induction false} RunsKeepBacklog(s: State, es: seq<Event>)
    requires Inv(s) && Backlog(s) && Legal(s, es)
    ensures Backlog(After(s, es))
    decreases |es|
  {
    if es != [] {
      StepKeepsInv(s, es[0]);
      StepKeepsBacklog(s, es[0]);
      RunsKeepBacklog(Apply(s, es[0]), es[1..]);
    }
  }

  lemma DeliveryFinds(s: State)
    requires Inv(s) && Backlog(s) && AnswersOnce(s.heard) && s.reader.Delivering?
    ensures Enabled(s, Deliver)
  {
    assert ChanOk(s, s.reader.chan);
  }

  lemma ReachedBacklog(es: seq<Event>, s: State)
    requires Reached(es, s)
    ensures Inv(s) && Backlog(s)
  {
    ReachedInv(es, s);
    InitialInv();
    RunsKeepBacklog(INITIAL, es);
  }

  /** If the backend uses each id at most once, the reader's send never finds the
      buffer full. */
  lemma ReaderNeverBlocks(es: seq<Event>, s: State)
    requires Reached(es, s) && AnswersOnce(s.heard) && s.reader.Delivering?
    ensures Enabled(s, Deliver)
  {
    ReachedBacklog(es, s);
    DeliveryFinds(s);
  }

  /** The reader is at a send that nobody will ever receive: the buffer is full, and the
      call it belongs to no longer listens. */
  predicate Stuck(s: State) {
    && s.reader.Delivering? && s.reader.chan < |s.sh.chans| && s.sh.chans[s.reader.chan] != []
    && s.reader.chan < |s.made| && s.made[s.reader.chan] in s.calls
    && !Busy(s.calls[s.made[s.reader.chan]].phase)
  }

  /** The steps that bring the reader to its end: its own, and those of a call that has
      written and receives. */
  predicate Helps(e: Event) {
    e.Deliver? || e.BeginDrain? || e.DrainOne? || e.EndDrain? || e.Write? || e.Receive?
  }

  /** A launched reader that is not stuck can come to its end: once the child closes its
      output, and if a call still has to take an earlier line, after that call has. */
  lemma ReaderCanFinish(s: State) returns (more: seq<Event>)
    requires Inv(s) && !s.reader.Unlaunched? && !Stuck(s)
    ensures Legal(s, more) && After(s, more).reader.Finished? && forall e | e in more :: Helps(e)
    ensures s.sh.stopped && !s.reader.Finished? && !s.reader.Draining? ==> After(s, more).reader.shut
  {
    match s.reader
    case Unlaunched => assert false;
    case Reading => more := FinishDrain(s);
    case Delivering(_, k) =>
      assert ChanOk(s, k);
      if s.sh.chans[k] == [] {
        more := DeliverAndFinish(s);
      } else {
        more := ReceiveAndFinish(s, s.made[k]);
      }
    case Draining(_, _, _) => more := FinishDrain(s);
    case Finished(_, _) => more := [];
  }

  lemma DeliverAndFinish(s: State) returns (more: seq<Event>)
    requires Inv(s) && Enabled(s, Deliver)
    ensures Legal(s, more) && After(s, more).reader.Finished? && forall e | e in more :: Helps(e)
    ensures After(s, more).reader.shut == s.sh.stopped
  {
    StepKeepsInv(s, Deliver);
    var rest := FinishDrain(Apply(s, Deliver));
    Begin(s, Deliver, rest);
    more := [Deliver] + rest;
  }

  /** The call whose buffer is full writes, if it has not, and receives. */
  lemma ReceiveAndFinish(s: State, c: nat) returns (more: seq<Event>)
    requires Inv(s) && s.reader.Delivering? && c in s.calls && Busy(s.calls[c].phase)
    requires s.calls[c].chan == s.reader.chan && HasLine(s, c)
    ensures Legal(s, more) && After(s, more).reader.Finished? && forall e | e in more :: Helps(e)
    ensures After(s, more).reader.shut == s.sh.stopped
    decreases s.calls[c].phase.Registered?
  {
    Facts(s, c);
    var e := if s.calls[c].phase.Registered? then Write(c) else Receive(c);
    StepKeepsInv(s, e);
    var rest;
    if s.calls[c].phase.Registered? {
      rest := ReceiveAndFinish(Apply(s, e), c);
    } else {
      rest := DeliverAndFinish(Apply(s, e));
    }
    Begin(s, e, rest);
    more := [e] + rest;
  }

  /** A run in which the child is not started. */
  predicate NeverLaunched(es: seq<Event>) {
    Launch !in es
  }

  /** Nobody launched the reader, or it is stuck. */
  predicate Dead(s: State) {
    s.reader.Unlaunched? || Stuck(s)
  }

  lemma DeadStays(s: State, e: Event)
    requires Inv(s) && Enabled(s, e) && Dead(s) && !e.Launch?
    ensures Dead(Apply(s, e)) && Apply(s, e).reader == s.reader
  {
    if Stuck(s) {
      assert ChanOk(s, s.reader.chan);
      if e.Receive? { Facts(s, e.c); }
    }
  }

  /** Whoever waits for a dead reader waits for ever. */
  lemma {:induction false} DeadForever(s: State, es: seq<Event>)
    requires Inv(s) && Dead(s) && Legal(s, es) && NeverLaunched(es)
    ensures Dead(After(s, es)) && After(s, es).reader == s.reader
    decreases |es|
  {
    hide Dead, Enabled, Apply, Inv;
    if es != [] {
      DeadStays(s, es[0]);
      StepKeepsInv(s, es[0]);
      DeadForever(Apply(s, es[0]), es[1..]);
    }
  }

  /** Exactly when a Stop that waits for the reader can get past it, with nobody starting
      the child any more: the reader has been launched, and it is not at a send to a call
      that has left with its buffer full. */
  lemma StopReturnsIffAlive(s: State)
    requires Inv(s)
    ensures (exists more :: Legal(s, more) && NeverLaunched(more) && After(s, more).reader.Finished?)
            <==> !s.reader.Unlaunched? && !Stuck(s)
  {
    if Dead(s) {
      forall more | Legal(s, more) && NeverLaunched(more) ensures !After(s, more).reader.Finished? {
        DeadForever(s, more);
      }
    } else {
      var more := ReaderCanFinish(s);
      assert NeverLaunched(more);
    }
  }

  /** A child that uses each id at most once never gets its reader stuck. */
  lemma AnsweredOnceIsNotStuck(es: seq<Event>, s: State)
    requires Reached(es, s) && AnswersOnce(s.heard)
    ensures !Stuck(s)
  {
    if s.reader.Delivering? {
      ReaderNeverBlocks(es, s);
    }
  }

  lemma {:induction false} FinishDrain(s: State) returns (more: seq<Event>)
    requires Inv(s) && (s.reader.Reading? || s.reader.Draining?)
    ensures Legal(s, more) && After(s, more).reader.Finished? && forall e | e in more :: Helps(e)
    ensures After(s, more).reader.shut == if s.reader.Draining? then s.reader.shut else s.sh.stopped
    decreases if s.reader.Draining? then 0 else 1, if s.reader.Draining? then s.reader.todo else {}
  {
    var e := EndDrain;
    if s.reader.Reading? {
      e := BeginDrain;
    } else if s.reader.todo != {} {
      SomeId(s.reader.todo);
      var id :| id in s.reader.todo;
      IdFacts(s, id);
      e := DrainOne(id);
    }
    StepKeepsInv(s, e);
    var rest := [];
    if e != EndDrain {
      rest := FinishDrain(Apply(s, e));
    }
    Begin(s, e, rest);
    more := [e] + rest;
  }

  lemma SomeId(ids: set<int>)
    requires ids != {}
    ensures exists id :: id in ids
  {
    assert (forall id :: id !in ids) ==> ids == {};
  }

  /** A reader does get stuck: the backend answers twice and the caller has given up. */
  lemma ReaderCanGetStuck() returns (es: seq<Event>, s: State)
    ensures Reached(es, s) && Inv(s) && Stuck(s) && !s.sh.stopped
  {
    var line := Line(1, Answer("pong"));
    var first, s2 := AskedOnce();
    var s3 := Apply(s2, Read(line));
    var s4 := Apply(s3, Deliver);
    var s5 := Apply(s4, Read(line));
    var tail := [Cancel(0)] + [];
    s := After(s5, tail);
    Begin(s4, Read(line), tail);
    tail := [Read(line)] + tail;
    Begin(s3, Deliver, tail);
    tail := [Deliver] + tail;
    Begin(s2, Read(line), tail);
    tail := [Read(line)] + tail;
    hide Apply, Enabled;
    AfterAppend(INITIAL, first, tail);
    es := first + tail;
    ReachedInv(es, s);
  }

  /** One call has registered and written. */
  lemma AskedOnce() returns (es: seq<Event>, s: State)
    ensures Reached(es, s) && s.reader == Reading && s.sh == Shared(1, map[1 := 0], false, [[]])
    ensures s.calls == map[0 := Call(1, 0, Ask("ping", ""), Awaiting)] && s.made == [0]
  {
    var start := Register(0, Ask("ping", ""));
    var s0 := Apply(INITIAL, Launch);
    var s1 := Apply(s0, start);
    s := Apply(s1, Write(0));
    Begin(s1, Write(0), []);
    Begin(s0, start, [Write(0)] + []);
    Begin(INITIAL, Launch, [start] + ([Write(0)] + []));
    es := [Launch] + ([start] + ([Write(0)] + []));
  }
}
