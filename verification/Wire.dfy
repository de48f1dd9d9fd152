/**
 The demultiplexer's writes and the pipe put together: what Demux calls one step is, in
 the pipe, a lock, any number of chunks, and an unlock. Notifications share the lock.
 */
module Wire {
  import opened Common
  import D = Demux
  import F = Framing

  /** Who holds the lock. */
  datatype Writer = Caller(c: nat) | Notifier

  /** tags says of each message sent whether it is a request, and of which call. */
  datatype State = State(calls: D.State, pipe: F.State, who: Option<Writer>, tags: seq<Option<D.Sent>>)

  datatype Event =
    | LockCall(c: nat)
    | LockNotice(text: string)
    | Chunk(n: nat)
    | Unlock
    | BreakOff
    | Other(e: D.Event)

  const START := State(D.INITIAL, F.START, None, [])

  function Request(call: D.Call): D.Sent {
    D.Sent(call.id, call.ask)
  }

  /** enc is the JSON encoding of a request, which holds no newline. */
  ghost predicate Encodes(enc: D.Sent -> string) {
    forall sent :: F.NewlineFree(enc(sent))
  }

  predicate Enabled(enc: D.Sent -> string, s: State, e: Event) {
    match e
    case LockCall(c) =>
      D.InPhase(s.calls, c, D.Registered) && F.Enabled(s.pipe, F.Acquire(enc(Request(s.calls.calls[c]))))
    case LockNotice(text) => F.Enabled(s.pipe, F.Acquire(text))
    case Chunk(n) => F.Enabled(s.pipe, F.Chunk(n))
    case Unlock =>
      && F.Enabled(s.pipe, F.Release) && s.who.Some?
      && (s.who.value.Caller? ==> D.Enabled(s.calls, D.Write(s.who.value.c)))
    case BreakOff =>
      && F.Enabled(s.pipe, F.BreakOff) && s.who.Some?
      && (s.who.value.Caller? ==> D.Enabled(s.calls, D.FailWrite(s.who.value.c)))
    case Other(de) => !de.Write? && !de.FailWrite? && D.Enabled(s.calls, de)
  }

  function Apply(enc: D.Sent -> string, s: State, e: Event): State
    requires Enabled(enc, s, e)
  {
    match e
    case LockCall(c) =>
      s.(pipe := F.Apply(s.pipe, F.Acquire(enc(Request(s.calls.calls[c])))), who := Some(Caller(c)))
    case LockNotice(text) => s.(pipe := F.Apply(s.pipe, F.Acquire(text)), who := Some(Notifier))
    case Chunk(n) => s.(pipe := F.Apply(s.pipe, F.Chunk(n)))
    case Unlock =>
      var t := s.(pipe := F.Apply(s.pipe, F.Release), who := None);
      (match s.who.value
       case Caller(c) =>
         t.(calls := D.Apply(s.calls, D.Write(c)), tags := s.tags + [Some(Request(s.calls.calls[c]))])
       case Notifier => t.(tags := s.tags + [None]))
    case BreakOff =>
      var t := s.(pipe := F.Apply(s.pipe, F.BreakOff), who := None);
      (match s.who.value
       case Caller(c) => t.(calls := D.Apply(s.calls, D.FailWrite(c)))
       case Notifier => t)
    case Other(de) => s.(calls := D.Apply(s.calls, de))
  }

  predicate Legal(enc: D.Sent -> string, s: State, es: seq<Event>)
    decreases |es|
  {
    es == [] || (Enabled(enc, s, es[0]) && Legal(enc, Apply(enc, s, es[0]), es[1..]))
  }

  function After(enc: D.Sent -> string, s: State, es: seq<Event>): State
    requires Legal(enc, s, es)
    decreases |es|
  {
    if es == [] then s else After(enc, Apply(enc, s, es[0]), es[1..])
  }

  /** The requests among the messages. */
  function Requests(tags: seq<Option<D.Sent>>): seq<D.Sent> {
    if tags == [] then []
    else
      var last := tags[|tags| - 1];
      Requests(tags[..|tags| - 1]) + if last.Some? then [last.value] else []
  }

  lemma RequestsOneMore(tags: seq<Option<D.Sent>>, tag: Option<D.Sent>)
    ensures Requests(tags + [tag]) == Requests(tags) + if tag.Some? then [tag.value] else []
  {
    assert (tags + [tag])[..|tags|] == tags;
  }

  /** The holder of the lock is still where it was, with its own message; the messages
      sent are the requests on the wire, in their order, with notifications in between. */
  ghost predicate Inv(enc: D.Sent -> string, s: State) {
    && F.Framed(s.pipe) && (s.pipe.hold.Some? <==> s.who.Some?)
    && (s.who.Some? && s.who.value.Caller? ==>
          D.InPhase(s.calls, s.who.value.c, D.Registered)
          && s.pipe.hold.value.message == enc(Request(s.calls.calls[s.who.value.c])))
    && |s.tags| == |s.pipe.sent| && Requests(s.tags) == s.calls.wire
    && (forall i | 0 <= i < |s.tags| && s.tags[i].Some? :: s.pipe.sent[i] == enc(s.tags[i].value))
  }

  /** A registered call is moved on by its own write only. */
  lemma RegisteredStays(s: D.State, e: D.Event, c: nat)
    requires D.Enabled(s, e) && !e.Write? && !e.FailWrite? && D.InPhase(s, c, D.Registered)
    ensures var t := D.Apply(s, e); D.InPhase(t, c, D.Registered) && t.calls[c] == s.calls[c]
  {
  }

  lemma WireStays(s: D.State, e: D.Event)
    requires D.Enabled(s, e) && !e.Write?
    ensures D.Apply(s, e).wire == s.wire
  {
  }

  lemma StepKeepsInv(enc: D.Sent -> string, s: State, e: Event)
    requires Encodes(enc) && Inv(enc, s) && Enabled(enc, s, e)
    ensures Inv(enc, Apply(enc, s, e))
  {
    hide F.Framed, Requests;
    match e
    case LockCall(c) =>
      F.StepKeepsFramed(s.pipe, F.Acquire(enc(Request(s.calls.calls[c]))));
    case LockNotice(text) =>
      F.StepKeepsFramed(s.pipe, F.Acquire(text));
    case Chunk(n) =>
      F.StepKeepsFramed(s.pipe, F.Chunk(n));
    case Unlock =>
      F.StepKeepsFramed(s.pipe, F.Release);
      RequestsOneMore(s.tags, if s.who.value.Caller? then Some(Request(s.calls.calls[s.who.value.c])) else None);
      assert s.calls.wire + [] == s.calls.wire;
    case BreakOff =>
      F.StepKeepsFramed(s.pipe, F.BreakOff);
      if s.who.value.Caller? { WireStays(s.calls, D.FailWrite(s.who.value.c)); }
    case Other(de) =>
      WireStays(s.calls, de);
      if s.who.Some? && s.who.value.Caller? { RegisteredStays(s.calls, de, s.who.value.c); }
  }

  lemma {:induction false} RunsKeepInv(enc: D.Sent -> string, s: State, es: seq<Event>)
    requires Encodes(enc) && Inv(enc, s) && Legal(enc, s, es)
    ensures Inv(enc, After(enc, s, es))
    decreases |es|
  {
    hide Inv, Enabled, Apply;
    if es != [] {
      StepKeepsInv(enc, s, es[0]);
      RunsKeepInv(enc, Apply(enc, s, es[0]), es[1..]);
    }
  }

  /** In every interleaving of calls, notifications, chunks and writes that break off: when
      nobody is writing, the child's lines are the messages sent if and only if none was
      sent after a fragment, with nothing behind them if and only if no fragment was left;
      and the requests among the messages are, in this order, the encodings of what Demux
      says is on the wire. */
  lemma ChildReadsTheWireIff(enc: D.Sent -> string, es: seq<Event>)
    requires Encodes(enc) && Legal(enc, START, es) && After(enc, START, es).who.None?
    ensures var s := After(enc, START, es);
            && (F.SplitLines(s.pipe.stdin).lines == s.pipe.sent <==> s.pipe.buried == 0)
            && (F.SplitLines(s.pipe.stdin) == F.Split(s.pipe.sent, "") <==> s.pipe.buried == 0 && s.pipe.loose == 0)
            && |s.tags| == |s.pipe.sent| && Requests(s.tags) == s.calls.wire
            && forall i | 0 <= i < |s.tags| && s.tags[i].Some? :: s.pipe.sent[i] == enc(s.tags[i].value)
  {
    assert Inv(enc, START);
    RunsKeepInv(enc, START, es);
    F.LinesAreMessagesIff(After(enc, START, es).pipe);
  }

  /** A pipe on which a write has failed takes no message any more. */
  predicate StaysBroken(es: seq<Event>) {
    forall i, j | 0 <= i < j < |es| && es[i].BreakOff? :: !es[j].Unlock?
  }

  lemma {:induction false} BrokenPipeBuriesNothing(enc: D.Sent -> string, s: State, es: seq<Event>)
    requires Legal(enc, s, es) && StaysBroken(es) && s.pipe.buried == 0
    requires s.pipe.loose > 0 ==> Unlock !in es
    ensures After(enc, s, es).pipe.buried == 0
    decreases |es|
  {
    hide D.Enabled, D.Apply;
    if es != [] {
      assert forall j | 0 <= j < |es[1..]| :: es[1..][j] == es[j + 1];
      BrokenPipeBuriesNothing(enc, Apply(enc, s, es[0]), es[1..]);
    }
  }

  /** As pipes of the operating system do: once a write has failed none succeeds. Then, in
      every interleaving, the child's lines are the messages sent, and the requests among
      them what Demux says is on the wire. */
  lemma BrokenPipeReadsTheWire(enc: D.Sent -> string, es: seq<Event>)
    requires Encodes(enc) && Legal(enc, START, es) && After(enc, START, es).who.None? && StaysBroken(es)
    ensures var s := After(enc, START, es);
            var lines := F.SplitLines(s.pipe.stdin).lines;
            && |s.tags| == |lines| && Requests(s.tags) == s.calls.wire
            && forall i | 0 <= i < |lines| && s.tags[i].Some? :: lines[i] == enc(s.tags[i].value)
  {
    BrokenPipeBuriesNothing(enc, START, es);
    ChildReadsTheWireIff(enc, es);
  }
}
