/**
 The pool and its runners put together: one instance of PoolProtocol, and for every
 runner it has built one instance of Demux. A step is a step of the pool, a step of
 one runner's pipe, or a client's Call on the runner that its RunnerFor returned. The
 two meet where runner.Start launches the reader, where runner.Stop closes the door
 and waits for the reader, and where a Call registers.
 */
module Backends {
  import P = PoolProtocol
  import D = Demux

  /** owner tells for whom a call of a runner was made; the calls it does not know are
      the runners' own initialize calls. */
  datatype State = State(pool: P.State, pipes: seq<D.State>, owner: map<(nat, nat), string>)

  datatype Event =
    | Pool(pe: P.Event)
    | Pipe(r: nat, de: D.Event)
    | CloseDoor(t: nat)
    | ClientCall(t: nat, c: nat, ask: D.Ask)

  function Start(shareSafe: bool): State {
    State(P.Start(shareSafe), [], map[])
  }

  /** The call is inside runner.Stop of its runner. */
  predicate InStop(c: P.Call) {
    c.Stopping? || c.WarmFailed? || c.WarmStop?
  }

  /** runner.Start comes back without an error only if it launched the reader and did not
      stop the runner again; with one either before it launched the reader, or after its
      own Stop is over. */
  predicate StartMayEnd(pipe: D.State, ok: bool) {
    if ok then !pipe.sh.stopped && !pipe.reader.Unlaunched? else pipe.reader.Unlaunched? || StopMayEnd(pipe)
  }

  /** runner.Stop comes back when the reader is done. */
  predicate StopMayEnd(pipe: D.State) {
    pipe.sh.stopped && pipe.reader.Finished?
  }

  predicate PoolMay(s: State, e: P.Event) {
    && P.Enabled(s.pool, e)
    && match e
       case StartEnds(t, ok) => s.pool.calls[t].r < |s.pipes| && StartMayEnd(s.pipes[s.pool.calls[t].r], ok)
       case WarmEnds(t, ok) => s.pool.calls[t].r < |s.pipes| && StartMayEnd(s.pipes[s.pool.calls[t].r], ok)
       case StopOne(t) => s.pool.calls[t].r < |s.pipes| && StopMayEnd(s.pipes[s.pool.calls[t].r])
       case WarmStopOne(t) => s.pool.calls[t].r < |s.pipes| && StopMayEnd(s.pipes[s.pool.calls[t].r])
       case _ => true
  }

  /** What only runner.Start does: launch the reader, call initialize, give up. */
  predicate StartersOwn(e: D.Event) {
    e.Launch? || e.Register? || e.MarkStopped?
  }

  predicate Enabled(s: State, e: Event) {
    match e
    case Pool(pe) => PoolMay(s, pe)
    case Pipe(r, de) =>
      && r < |s.pipes| && r < |s.pool.runners| && D.Enabled(s.pipes[r], de)
      && (StartersOwn(de) ==> s.pool.runners[r].phase.Running?)
    case CloseDoor(t) =>
      t in s.pool.calls && InStop(s.pool.calls[t]) && s.pool.calls[t].r < |s.pipes|
      && D.Enabled(s.pipes[s.pool.calls[t].r], D.MarkStopped)
    case ClientCall(t, c, ask) =>
      t in s.pool.calls && s.pool.calls[t].Returned? && s.pool.calls[t].ok && s.pool.calls[t].r < |s.pipes|
      && D.Enabled(s.pipes[s.pool.calls[t].r], D.Register(c, ask))
  }

  function Grown(pipes: seq<D.State>, n: nat): seq<D.State> {
    if n > |pipes| then pipes + [D.INITIAL] else pipes
  }

  function Apply(s: State, e: Event): State
    requires Enabled(s, e)
  {
    match e
    case Pool(pe) =>
      var pool := P.Apply(s.pool, pe);
      s.(pool := pool, pipes := Grown(s.pipes, |pool.runners|))
    case Pipe(r, de) => s.(pipes := s.pipes[r := D.Apply(s.pipes[r], de)])
    case CloseDoor(t) =>
      var r := s.pool.calls[t].r;
      s.(pipes := s.pipes[r := D.Apply(s.pipes[r], D.MarkStopped)])
    case ClientCall(t, c, ask) =>
      var r := s.pool.calls[t].r;
      s.(pipes := s.pipes[r := D.Apply(s.pipes[r], D.Register(c, ask))],
         owner := s.owner[(r, c) := s.pool.calls[t].subject])
  }

  predicate Legal(s: State, es: seq<Event>)
    decreases |es|
  {
    es == [] || (Enabled(s, es[0]) && Legal(Apply(s, es[0]), es[1..]))
  }

  function After(s: State, es: seq<Event>): State
    requires Legal(s, es)
    decreases |es|
  {
    if es == [] then s else After(Apply(s, es[0]), es[1..])
  }

  // ----------------------------------------------------------------- invariant

  /** A runner's pipe fits what the pool knows of it: untouched before its start,
      launched once ready, never launched or wound up once failed; a ready runner's door
      is closed only by a Stop of the call that answers for it, and a runner the pool has
      stopped has a reader that is done. */
  ghost predicate PipeOk(pool: P.State, r: nat, pipe: D.State)
    requires r < |pool.runners|
  {
    var rec := pool.runners[r];
    && D.Inv(pipe) && D.Provenance(pipe) && D.WrittenOnce(pipe)
    && (rec.phase.Fresh? ==> pipe == D.INITIAL)
    && (rec.phase.Ready? ==> !pipe.reader.Unlaunched?)
    && (rec.phase.Failed? ==> StartMayEnd(pipe, false))
    && (rec.stops > 0 ==> StopMayEnd(pipe))
    && (rec.phase.Ready? && pipe.sh.stopped ==> DoorClosed(pool, r))
  }

  predicate DoorClosed(pool: P.State, r: nat)
    requires r < |pool.runners|
  {
    var at := pool.runners[r].at;
    at.Stopped? || (at.Held? && at.t in pool.calls && InStop(pool.calls[at.t]) && pool.calls[at.t].r == r)
  }

  /** A client's call is on a runner of its subject's partition. */
  predicate OwnerOk(s: State, r: nat, c: nat)
    requires (r, c) in s.owner
  {
    && r < |s.pipes| && r < |s.pool.runners| && c in s.pipes[r].calls
    && s.pool.runners[r].key == P.PartitionKey(s.pool.shareSafe, s.owner[(r, c)])
  }

  ghost predicate Inv(s: State) {
    && P.Inv(s.pool) && |s.pipes| == |s.pool.runners|
    && (forall r {:trigger s.pipes[r]} | 0 <= r < |s.pipes| :: PipeOk(s.pool, r, s.pipes[r]))
    && (forall r, c {:trigger OwnerOk(s, r, c)} | (r, c) in s.owner :: OwnerOk(s, r, c))
  }

  /** What a step of the pool can do to one runner. */
  lemma PoolStep(s: P.State, e: P.Event, r: nat)
    requires P.Inv(s) && P.Enabled(s, e) && r < |s.runners|
    ensures var t := P.Apply(s, e);
            && r < |t.runners| && t.runners[r].key == s.runners[r].key
            && (t.runners[r].phase.Fresh? ==> s.runners[r].phase.Fresh?)
            && (t.runners[r].phase.Ready? && !s.runners[r].phase.Ready? ==>
                  (e.StartEnds? || e.WarmEnds?) && e.ok && s.calls[e.t].r == r)
            && (t.runners[r].phase.Failed? && !s.runners[r].phase.Failed? ==>
                  (e.StartEnds? || e.WarmEnds?) && !e.ok && s.calls[e.t].r == r)
            && (t.runners[r].stops > 0 && s.runners[r].stops == 0 ==>
                  (e.StopOne? || e.WarmStopOne?) && s.calls[e.t].r == r)
  {
    if e.t in s.calls { P.CallFacts(s, e.t); }
    hide P.RunnerOk, P.KeyOk, P.Victims;
  }

  lemma DoorStays(s: P.State, e: P.Event, r: nat)
    requires P.Inv(s) && P.Enabled(s, e) && r < |s.runners| && DoorClosed(s, r)
    ensures r < |P.Apply(s, e).runners| && DoorClosed(P.Apply(s, e), r)
  {
    match e
    case Evict(t, cutoff) =>
      if !s.closed { TakingLeavesDoors(s, t, P.Victims(s, cutoff), r); }
    case CloseAll(t) =>
      if !s.closed { TakingLeavesDoors(s, t, s.instances.Keys, r); }
    case _ =>
      OthersLeaveDoors(s, e, r);
  }

  lemma OthersLeaveDoors(s: P.State, e: P.Event, r: nat)
    requires P.Inv(s) && P.Enabled(s, e) && !e.Evict? && !e.CloseAll? && r < |s.runners| && DoorClosed(s, r)
    ensures r < |P.Apply(s, e).runners| && DoorClosed(P.Apply(s, e), r)
  {
    assert P.RunnerOk(s, r);
    if s.runners[r].at == P.Held(e.t) {
      StopperStep(s, e, r);
    } else {
      CustodyStays(s, e, r);
    }
    hide P.Apply, P.Inv, P.RunnerOk;
  }

  /** A call inside runner.Stop does one thing: it comes back. */
  lemma StopperStep(s: P.State, e: P.Event, r: nat)
    requires P.Enabled(s, e) && r < |s.runners| && e.t in s.calls && InStop(s.calls[e.t]) && s.calls[e.t].r == r
    ensures r < |P.Apply(s, e).runners| && P.Apply(s, e).runners[r].at == P.Stopped
  {
    hide P.Victims, P.HandTo, P.LookupIn;
  }

  /** A runner that some other call holds, or that is stopped, stays where it is. */
  lemma CustodyStays(s: P.State, e: P.Event, r: nat)
    requires P.Inv(s) && P.Enabled(s, e) && !e.Evict? && !e.CloseAll? && r < |s.runners|
    requires s.runners[r].at == P.Stopped || (s.runners[r].at.Held? && s.runners[r].at.t != e.t)
    ensures var t := P.Apply(s, e);
            && r < |t.runners| && t.runners[r].at == s.runners[r].at
            && (forall u | u in s.calls && u != e.t :: u in t.calls && t.calls[u] == s.calls[u])
  {
    if e.Install? && P.SHARED_KEY in s.instances { P.SharedEntry(s); }
    if e.t in s.calls { P.CallFacts(s, e.t); }
    hide P.TakeOut, P.Victims, P.Inv, P.RunnerOk, P.KeyOk;
  }

  lemma TakingLeavesDoors(s: P.State, t: nat, keys: set<string>, r: nat)
    requires P.Inv(s) && t !in s.calls && keys <= s.instances.Keys && r < |s.runners| && DoorClosed(s, r)
    ensures r < |P.TakeOut(s, t, keys).runners| && DoorClosed(P.TakeOut(s, t, keys), r)
  {
    assert P.RunnerOk(s, r);
    P.TakenAreInMap(s, keys);
    hide P.Inv, P.RunnerOk;
  }

  /** What a step of a pipe never undoes. */
  lemma PipeStep(pipe: D.State, e: D.Event)
    requires D.Enabled(pipe, e)
    ensures var t := D.Apply(pipe, e);
            && (t.sh.stopped <==> pipe.sh.stopped || e.MarkStopped?)
            && (pipe.reader.Finished? ==> t.reader == pipe.reader)
            && (t.reader.Unlaunched? <==> pipe.reader.Unlaunched? && !e.Launch?)
            && pipe.calls.Keys <= t.calls.Keys
            && (e.Register? ==> e.c in t.calls)
            && (pipe == D.INITIAL ==> StartersOwn(e))
  {
  }

  lemma StepKeepsPipe(pool: P.State, r: nat, pipe: D.State, e: D.Event)
    requires r < |pool.runners| && PipeOk(pool, r, pipe) && D.Enabled(pipe, e)
    requires StartersOwn(e) ==> !pool.runners[r].phase.Fresh?
    requires e.Launch? ==> pool.runners[r].phase.Running?
    requires e.MarkStopped? && pool.runners[r].phase.Ready? ==> DoorClosed(pool, r)
    ensures PipeOk(pool, r, D.Apply(pipe, e))
  {
    PipeStep(pipe, e);
    D.StepKeepsInv(pipe, e);
    D.StepKeepsProvenance(pipe, e);
    D.StepKeepsWrittenOnce(pipe, e);
    hide D.Apply, D.Enabled, D.Inv, D.Provenance, D.WrittenOnce;
  }

  lemma PoolKeepsPipe(s: State, e: P.Event, r: nat)
    requires Inv(s) && PoolMay(s, e) && r < |s.pipes|
    ensures r < |P.Apply(s.pool, e).runners| && PipeOk(P.Apply(s.pool, e), r, s.pipes[r])
  {
    PoolStep(s.pool, e, r);
    assert PipeOk(s.pool, r, s.pipes[r]);
    if DoorClosed(s.pool, r) { DoorStays(s.pool, e, r); }
    hide P.Apply, D.Inv, D.Provenance, D.WrittenOnce, P.Inv;
  }

  lemma NewPipe(s: P.State, e: P.Event)
    requires P.Enabled(s, e)
    ensures var t := P.Apply(s, e);
            |s.runners| <= |t.runners| <= |s.runners| + 1
            && (|t.runners| == |s.runners| + 1 ==> PipeOk(t, |s.runners|, D.INITIAL))
  {
    D.InitialInv();
    hide D.Inv;
  }

  lemma PoolKeepsInv(s: State, e: P.Event)
    requires Inv(s) && Enabled(s, Pool(e))
    ensures Inv(Apply(s, Pool(e)))
  {
    P.StepKeepsInv(s.pool, e);
    NewPipe(s.pool, e);
    var t := Apply(s, Pool(e));
    hide P.Inv, P.Enabled, P.Apply, PipeOk;
    forall r | 0 <= r < |t.pipes| ensures PipeOk(t.pool, r, t.pipes[r]) {
      if r < |s.pipes| { PoolKeepsPipe(s, e, r); }
    }
    forall r, c | (r, c) in t.owner ensures OwnerOk(t, r, c) {
      assert OwnerOk(s, r, c);
      PoolStep(s.pool, e, r);
      P.ModeStays(s.pool, e);
    }
  }

  lemma PipeKeepsInv(s: State, r: nat, e: D.Event)
    requires Inv(s) && r < |s.pipes| && D.Enabled(s.pipes[r], e)
    requires StartersOwn(e) ==> !s.pool.runners[r].phase.Fresh?
    requires e.Launch? ==> s.pool.runners[r].phase.Running?
    requires e.MarkStopped? && s.pool.runners[r].phase.Ready? ==> DoorClosed(s.pool, r)
    ensures Inv(s.(pipes := s.pipes[r := D.Apply(s.pipes[r], e)]))
  {
    var t := s.(pipes := s.pipes[r := D.Apply(s.pipes[r], e)]);
    assert PipeOk(s.pool, r, s.pipes[r]);
    StepKeepsPipe(s.pool, r, s.pipes[r], e);
    PipeStep(s.pipes[r], e);
    hide P.Inv, PipeOk, D.Enabled, D.Apply;
    forall q | 0 <= q < |t.pipes| ensures PipeOk(t.pool, q, t.pipes[q]) {
      assert q != r ==> PipeOk(s.pool, q, s.pipes[q]);
    }
    forall q, c | (q, c) in t.owner ensures OwnerOk(t, q, c) {
      assert OwnerOk(s, q, c);
    }
  }

  /** A new entry for a call that is registered on a runner of its subject's partition. */
  lemma OwnerKeepsInv(s: State, r: nat, c: nat, subject: string)
    requires Inv(s) && r < |s.pipes| && c in s.pipes[r].calls
    requires s.pool.runners[r].key == P.PartitionKey(s.pool.shareSafe, subject)
    ensures Inv(s.(owner := s.owner[(r, c) := subject]))
  {
    var t := s.(owner := s.owner[(r, c) := subject]);
    hide P.Inv, PipeOk;
    forall q | 0 <= q < |t.pipes| ensures PipeOk(t.pool, q, t.pipes[q]) {
      assert PipeOk(s.pool, q, s.pipes[q]);
    }
    assert OwnerOk(t, r, c);
    forall q, d | (q, d) in t.owner ensures OwnerOk(t, q, d) {
      if (q, d) != (r, c) {
        assert OwnerOk(s, q, d);
      }
    }
  }

  lemma StepKeepsInv(s: State, e: Event)
    requires Inv(s) && Enabled(s, e)
    ensures Inv(Apply(s, e))
  {
    match e
    case Pool(pe) => PoolKeepsInv(s, pe);
    case Pipe(r, de) => PipeKeepsInv(s, r, de);
    case CloseDoor(t) =>
      P.CallFacts(s.pool, t);
      PipeKeepsInv(s, s.pool.calls[t].r, D.MarkStopped);
    case ClientCall(t, c, ask) =>
      P.CallFacts(s.pool, t);
      var r := s.pool.calls[t].r;
      PipeKeepsInv(s, r, D.Register(c, ask));
      PipeStep(s.pipes[r], D.Register(c, ask));
      OwnerKeepsInv(s.(pipes := s.pipes[r := D.Apply(s.pipes[r], D.Register(c, ask))]), r, c, s.pool.calls[t].subject);
  }

  lemma {:induction false} RunsKeepInv(s: State, es: seq<Event>)
    requires Inv(s) && Legal(s, es)
    ensures Inv(After(s, es))
    decreases |es|
  {
    hide Inv, Enabled, Apply;
    if es != [] {
      StepKeepsInv(s, es[0]);
      RunsKeepInv(Apply(s, es[0]), es[1..]);
    }
  }

  /** The state a run of a new pool leads to. */
  ghost predicate Reached(shareSafe: bool, es: seq<Event>, s: State) {
    Legal(Start(shareSafe), es) && After(Start(shareSafe), es) == s
  }

  lemma ReachedInv(shareSafe: bool, es: seq<Event>, s: State)
    requires Reached(shareSafe, es, s)
    ensures Inv(s) && s.pool.shareSafe == shareSafe
  {
    RunsKeepInv(Start(shareSafe), es);
    ModeIsFixed(Start(shareSafe), es);
  }

  lemma {:induction false} ModeIsFixed(s: State, es: seq<Event>)
    requires Legal(s, es)
    ensures After(s, es).pool.shareSafe == s.pool.shareSafe
    decreases |es|
  {
    if es != [] {
      ModeIsFixed(Apply(s, es[0]), es[1..]);
    }
  }

  // ----------------------------------------------------------------- isolation

  /** Isolation, end to end: in isolate mode, in every interleaving, all client requests
      ever written to one child process are requests of one subject; what a client's
      call receives carries that call's id, and from a child that echoes ids it is a
      right answer to what this very call asked. */
  lemma OneSubjectPerProcess(es: seq<Event>, s: State, r: nat, c: nat, right: (D.Ask, string) -> bool)
    requires Reached(false, es, s) && (r, c) in s.owner
    ensures r < |s.pipes| && c in s.pipes[r].calls
    ensures forall j | 0 <= j < |s.pipes[r].wire| ::
              var id := s.pipes[r].wire[j].id;
              id in s.pipes[r].drawn
              && ((r, s.pipes[r].drawn[id]) in s.owner ==> s.owner[(r, s.pipes[r].drawn[id])] == s.owner[(r, c)])
    ensures var call := s.pipes[r].calls[c];
            D.HasReceived(call) ==>
              && call.phase.outcome.line.id == call.id
              && (D.Echoes(s.pipes[r], right) && call.phase.outcome.line.body.Answer? ==>
                    right(call.ask, call.phase.outcome.line.body.text))
  {
    ReachedInv(false, es, s);
    assert OwnerOk(s, r, c) && PipeOk(s.pool, r, s.pipes[r]);
    forall d | (r, d) in s.owner ensures s.owner[(r, d)] == s.owner[(r, c)] {
      assert OwnerOk(s, r, d);
      P.KeysTellSubjects(s.owner[(r, c)], s.owner[(r, d)]);
    }
    hide P.Inv;
    if D.HasReceived(s.pipes[r].calls[c]) {
      D.OwnAnswer(s.pipes[r], c, right);
    }
  }

  // ------------------------------------------------------------------ stopping

  /** A runner that is in the map of the pool and ready takes calls: nobody has begun to
      stop it. */
  lemma MappedRunnersTakeCalls(shareSafe: bool, es: seq<Event>, s: State, k: string)
    requires Reached(shareSafe, es, s) && k in s.pool.instances
    ensures s.pool.instances[k] < |s.pool.runners| == |s.pipes|
    ensures s.pool.runners[s.pool.instances[k]].phase.Ready? ==> !s.pipes[s.pool.instances[k]].sh.stopped
  {
    ReachedInv(shareSafe, es, s);
    assert P.KeyOk(s.pool, k) && P.RunnerOk(s.pool, s.pool.instances[k]);
    assert PipeOk(s.pool, s.pool.instances[k], s.pipes[s.pool.instances[k]]);
  }

  /** What the pool has stopped takes no more calls, and of the calls still out on it
      exactly those that had registered before its drain have a line to receive; that is
      all of them, when the child's output was still open when Stop began. */
  ghost predicate WoundUp(s: State, r: nat)
    requires r < |s.pipes|
  {
    var pipe := s.pipes[r];
    && StopMayEnd(pipe)
    && (forall t, c, ask :: Enabled(s, ClientCall(t, c, ask)) ==> s.pool.calls[t].r != r)
    && (forall c | c in pipe.calls && D.Busy(pipe.calls[c].phase) ::
          (D.HasLine(pipe, c) <==> pipe.calls[c].id <= pipe.reader.upTo)
          && (pipe.reader.shut ==> D.HasLine(pipe, c)))
  }

  lemma StoppedIsWoundUp(s: State, r: nat)
    requires Inv(s) && r < |s.pipes| && s.pool.runners[r].stops > 0
    ensures WoundUp(s, r)
  {
    assert PipeOk(s.pool, r, s.pipes[r]);
    var pipe := s.pipes[r];
    forall c | c in pipe.calls && D.Busy(pipe.calls[c].phase)
      ensures (D.HasLine(pipe, c) <==> pipe.calls[c].id <= pipe.reader.upTo)
              && (pipe.reader.shut ==> D.HasLine(pipe, c))
    {
      D.Facts(pipe, c);
    }
  }

  /** The pool's part of a run. */
  function PoolEvents(es: seq<Event>): seq<P.Event> {
    if es == [] then []
    else if es[0].Pool? then [es[0].pe] + PoolEvents(es[1..])
    else PoolEvents(es[1..])
  }

  lemma {:induction false} PoolRunsItsPart(s: State, es: seq<Event>)
    requires Legal(s, es)
    ensures P.Legal(s.pool, PoolEvents(es)) && P.After(s.pool, PoolEvents(es)) == After(s, es).pool
    decreases |es|
  {
    hide P.Enabled, P.Apply;
    if es != [] {
      PoolRunsItsPart(Apply(s, es[0]), es[1..]);
      if es[0].Pool? {
        P.Begin(s.pool, es[0].pe, PoolEvents(es[1..]));
      }
    }
  }

  lemma {:induction false} PoolEventsAre(es: seq<Event>)
    ensures forall e | e in PoolEvents(es) :: Pool(e) in es
  {
    if es != [] {
      PoolEventsAre(es[1..]);
    }
  }

  /** Orderly shutdown: once Start is over, every runner that is ready at some moment, and
      not yet passed over, is wound up when Close and every EvictIdle have returned:
      stopped exactly once, closed to new calls, and with nobody left waiting who had
      registered in time. */
  lemma CloseWindsUpWhatWasReady(s: State, es: seq<Event>, r: nat)
    requires Inv(s) && P.Serving(s.pool) && Legal(s, es) && forall e | e in es :: !(e.Pool? && e.pe.Warm?)
    requires After(s, es).pool.closed && P.Quiet(After(s, es).pool)
    requires r < |s.pool.runners| && s.pool.runners[r].phase.Ready? && !s.pool.runners[r].at.Passed?
    ensures r < |After(s, es).pipes| && WoundUp(After(s, es), r)
    ensures r < |After(s, es).pool.runners| && After(s, es).pool.runners[r].stops == 1
  {
    RunsKeepInv(s, es);
    PoolRunsItsPart(s, es);
    PoolEventsAre(es);
    P.CloseStopsWhatWasReady(s.pool, PoolEvents(es), After(s, es).pool, r);
    StoppedIsWoundUp(After(s, es), r);
  }

  // ------------------------------------------------- a child that has closed its output

  lemma DoneStep(s: State, e: Event, r: nat, c: nat)
    requires Inv(s) && Enabled(s, e) && r < |s.pipes| && s.pipes[r].reader.Finished?
    requires c in s.pipes[r].calls ==> D.Unheard(s.pipes[r], c)
    ensures var t := Apply(s, e);
            && r < |t.pipes| && t.pipes[r].reader.Finished?
            && (c in t.pipes[r].calls ==> D.Unheard(t.pipes[r], c))
  {
    assert PipeOk(s.pool, r, s.pipes[r]);
    match e
    case Pool(pe) => NewPipe(s.pool, pe);
    case Pipe(q, de) => if q == r { PipeDoneStep(s.pipes[r], de, c); }
    case CloseDoor(t) => if s.pool.calls[t].r == r { PipeDoneStep(s.pipes[r], D.MarkStopped, c); }
    case ClientCall(t, d, ask) => if s.pool.calls[t].r == r { PipeDoneStep(s.pipes[r], D.Register(d, ask), c); }
  }

  lemma PipeDoneStep(pipe: D.State, e: D.Event, c: nat)
    requires D.Inv(pipe) && D.Enabled(pipe, e) && pipe.reader.Finished?
    requires c in pipe.calls ==> D.Unheard(pipe, c)
    ensures D.Apply(pipe, e).reader.Finished?
    ensures c in D.Apply(pipe, e).calls ==> D.Unheard(D.Apply(pipe, e), c)
  {
    D.FinishedStays(pipe, e);
    if c in D.Apply(pipe, e).calls {
      D.UnheardStep(pipe, e, c);
    }
  }

  /** Once the reader of a runner is done, no call that registers on it later is ever
      answered. */
  lemma {:induction false} DoneChildAnswersNobody(s: State, es: seq<Event>, r: nat, c: nat)
    requires Inv(s) && Legal(s, es) && r < |s.pipes| && s.pipes[r].reader.Finished?
    requires c in s.pipes[r].calls ==> D.Unheard(s.pipes[r], c)
    ensures r < |After(s, es).pipes|
    ensures c in After(s, es).pipes[r].calls ==> D.Unheard(After(s, es).pipes[r], c)
    decreases |es|
  {
    hide Inv, Enabled, Apply, D.Unheard;
    if es != [] {
      DoneStep(s, es[0], r, c);
      StepKeepsInv(s, es[0]);
      DoneChildAnswersNobody(Apply(s, es[0]), es[1..], r, c);
    }
  }

  // ------------------------------------------------- a start that fails too early

  predicate Failing(s: State, t: nat, r: nat) {
    t in s.pool.calls && s.pool.calls[t] == P.WarmFailed(r) && r < |s.pipes|
  }

  /** RunnerPool.Start that waits in runner.Stop for a reader that nobody launched: no run
      brings it back. */
  lemma {:induction false} UnlaunchedStartHangs(s: State, es: seq<Event>, t: nat, r: nat)
    requires Inv(s) && Legal(s, es) && Failing(s, t, r) && s.pipes[r].reader.Unlaunched?
    ensures Failing(After(s, es), t, r) && After(s, es).pipes[r].reader.Unlaunched?
    decreases |es|
  {
    hide Inv, Enabled, Apply;
    if es != [] {
      StillFailing(s, es[0], t, r);
      StepKeepsInv(s, es[0]);
      UnlaunchedStartHangs(Apply(s, es[0]), es[1..], t, r);
    }
  }

  lemma StillFailing(s: State, e: Event, t: nat, r: nat)
    requires Inv(s) && Enabled(s, e) && Failing(s, t, r) && s.pipes[r].reader.Unlaunched?
    ensures Failing(Apply(s, e), t, r) && Apply(s, e).pipes[r].reader.Unlaunched?
  {
    P.CallFacts(s.pool, t);
    match e
    case Pool(pe) =>
      hide P.Apply, P.Inv, PipeOk;
      WarmFailedStays(s.pool, pe, t, r);
    case Pipe(q, de) =>
      if q == r { PipeStep(s.pipes[r], de); }
    case CloseDoor(_) =>
      if s.pool.calls[e.t].r == r { PipeStep(s.pipes[r], D.MarkStopped); }
    case ClientCall(_, c, ask) =>
      if s.pool.calls[e.t].r == r { PipeStep(s.pipes[r], D.Register(c, ask)); }
  }

  lemma WarmFailedStays(s: P.State, e: P.Event, t: nat, r: nat)
    requires P.Enabled(s, e) && t in s.calls && s.calls[t] == P.WarmFailed(r) && e != P.WarmStopOne(t)
    ensures var now := P.Apply(s, e); t in now.calls && now.calls[t] == P.WarmFailed(r)
  {
  }

  lemma One(s: State, e: Event)
    requires Enabled(s, e)
    ensures Legal(s, [e]) && After(s, [e]) == Apply(s, e)
  {
    assert [e][1..] == [];
  }

  /** Exactly when a Start that failed can come back and say so: its process had been
      launched. */
  lemma FailedStartReturnsIff(s: State, t: nat, r: nat)
    requires Inv(s) && Failing(s, t, r)
    ensures (exists es :: Legal(s, es) && t in After(s, es).pool.calls && After(s, es).pool.calls[t] == P.StartFailed)
            <==> !s.pipes[r].reader.Unlaunched?
  {
    P.CallFacts(s.pool, t);
    assert PipeOk(s.pool, r, s.pipes[r]);
    if s.pipes[r].reader.Unlaunched? {
      hide Inv;
      forall es | Legal(s, es) ensures Failing(After(s, es), t, r) {
        UnlaunchedStartHangs(s, es, t, r);
      }
    } else {
      hide P.Inv, PipeOk;
      One(s, Pool(P.WarmStopOne(t)));
    }
  }

  /** And such a Start exists: the first one, on a process that cannot be launched. */
  lemma UnlaunchedStartIsReached(shareSafe: bool) returns (es: seq<Event>, s: State)
    ensures Reached(shareSafe, es, s) && Inv(s) && Failing(s, 0, 0) && s.pipes[0].reader.Unlaunched?
  {
    var s0 := Start(shareSafe);
    var s1 := Apply(s0, Pool(P.Warm(0)));
    assert s1.pipes == [D.INITIAL] && |s1.pool.runners| == 1;
    s := Apply(s1, Pool(P.WarmEnds(0, false)));
    One(s0, Pool(P.Warm(0)));
    One(s1, Pool(P.WarmEnds(0, false)));
    es := [Pool(P.Warm(0))] + [Pool(P.WarmEnds(0, false))];
    Append(s0, [Pool(P.Warm(0))], [Pool(P.WarmEnds(0, false))]);
    ReachedInv(shareSafe, es, s);
  }

  // --------------------------------------------- a start inside its own runner.Stop

  /** The call starts the runner: a RunnerFor inside startOnce, or RunnerPool.Start. */
  predicate Starting(s: P.State, t: nat, r: nat) {
    t in s.calls && ((s.calls[t].InStart? && s.calls[t].r == r) || s.calls[t] == P.Warming(r))
  }

  /** It has met an error after the launch, and is in the runner.Stop it makes before it
      says so. */
  predicate InOwnStop(s: State, t: nat, r: nat) {
    Starting(s.pool, t, r) && r < |s.pipes| && s.pipes[r].sh.stopped && !s.pipes[r].reader.Unlaunched?
  }

  lemma StartingStays(s: P.State, e: P.Event, t: nat, r: nat)
    requires P.Enabled(s, e) && Starting(s, t, r)
    ensures t in P.Apply(s, e).calls
    ensures ((e.StartEnds? || e.WarmEnds?) && e.t == t) || P.Apply(s, e).calls[t] == s.calls[t]
  {
    P.StartStep(s, e, t);
  }

  lemma StuckStep(s: State, e: Event, t: nat, r: nat)
    requires Inv(s) && Enabled(s, e) && InOwnStop(s, t, r) && D.Stuck(s.pipes[r])
    ensures var f := Apply(s, e); InOwnStop(f, t, r) && D.Stuck(f.pipes[r]) && f.pool.calls[t] == s.pool.calls[t]
  {
    assert PipeOk(s.pool, r, s.pipes[r]);
    hide Inv, PipeOk, P.Apply, P.Enabled;
    match e
    case Pool(pe) =>
      StartingStays(s.pool, pe, t, r);
    case Pipe(q, de) =>
      if q == r { StuckStays(s.pipes[r], de); }
    case CloseDoor(_) =>
    case ClientCall(_, _, _) =>
  }

  lemma StuckStays(pipe: D.State, e: D.Event)
    requires D.Inv(pipe) && D.Enabled(pipe, e) && D.Stuck(pipe)
    ensures D.Stuck(D.Apply(pipe, e)) && D.Apply(pipe, e).reader == pipe.reader
    ensures pipe.sh.stopped ==> D.Apply(pipe, e).sh.stopped
  {
    PipeStep(pipe, e);
    D.DeadStays(pipe, e);
  }

  /** A start that waits in its own runner.Stop for a stuck reader: no run brings it back,
      its runner is never handed out, and every RunnerFor that waits for the same start
      waits with it. */
  lemma {:induction false} StuckStartHangs(s: State, es: seq<Event>, t: nat, r: nat)
    requires Inv(s) && Legal(s, es) && InOwnStop(s, t, r) && D.Stuck(s.pipes[r])
    ensures var f := After(s, es);
            && InOwnStop(f, t, r) && D.Stuck(f.pipes[r]) && f.pool.calls[t] == s.pool.calls[t]
            && (forall u | u in f.pool.calls && f.pool.calls[u].Returned? :: f.pool.calls[u].r != r)
            && (forall u | u in s.pool.calls && s.pool.calls[u].AtOnce? && s.pool.calls[u].r == r ::
                  u in f.pool.calls && f.pool.calls[u] == s.pool.calls[u])
    decreases |es|
  {
    NobodyGetsIt(s.pool, t, r);
    hide Inv, Enabled, Apply, InOwnStop;
    if es != [] {
      var f := Apply(s, es[0]);
      StuckStep(s, es[0], t, r);
      StepKeepsInv(s, es[0]);
      forall u | u in s.pool.calls && s.pool.calls[u].AtOnce? && s.pool.calls[u].r == r
        ensures u in f.pool.calls && f.pool.calls[u] == s.pool.calls[u]
      {
        WaiterStays(s, es[0], t, r, u);
      }
      StuckStartHangs(f, es[1..], t, r);
    }
  }

  lemma NobodyGetsIt(s: P.State, t: nat, r: nat)
    requires P.Inv(s) && Starting(s, t, r)
    ensures r < |s.runners| && s.runners[r].phase.Running?
    ensures forall u | u in s.calls && s.calls[u].Returned? :: s.calls[u].r != r
  {
    P.CallFacts(s, t);
    forall u | u in s.calls && s.calls[u].Returned? ensures s.calls[u].r != r {
      P.CallFacts(s, u);
    }
  }

  lemma WaiterStays(s: State, e: Event, t: nat, r: nat, u: nat)
    requires Inv(s) && Enabled(s, e) && InOwnStop(s, t, r)
    requires u in s.pool.calls && s.pool.calls[u].AtOnce? && s.pool.calls[u].r == r
    ensures u in Apply(s, e).pool.calls && Apply(s, e).pool.calls[u] == s.pool.calls[u]
  {
    NobodyGetsIt(s.pool, t, r);
    if e.Pool? { AtOnceStays(s.pool, e.pe, r, u); }
    hide Inv, P.Apply, P.Enabled;
  }

  lemma AtOnceStays(s: P.State, e: P.Event, r: nat, u: nat)
    requires P.Enabled(s, e) && r < |s.runners| && s.runners[r].phase.Running?
    requires u in s.calls && s.calls[u].AtOnce? && s.calls[u].r == r
    ensures u in P.Apply(s, e).calls && P.Apply(s, e).calls[u] == s.calls[u]
  {
  }

  function Lift(r: nat, es: seq<D.Event>): seq<Event> {
    if es == [] then [] else [Pipe(r, es[0])] + Lift(r, es[1..])
  }

  /** What a runner's pipe can do by itself it can do here, its starter's steps while the
      start is under way. */
  lemma {:induction false} LiftRuns(s: State, r: nat, es: seq<D.Event>)
    requires r < |s.pipes| == |s.pool.runners| && D.Legal(s.pipes[r], es)
    requires forall e | e in es :: StartersOwn(e) ==> s.pool.runners[r].phase.Running?
    ensures Legal(s, Lift(r, es))
    ensures After(s, Lift(r, es)) == s.(pipes := s.pipes[r := D.After(s.pipes[r], es)])
    decreases |es|
  {
    hide D.Enabled, D.Apply;
    if es != [] {
      assert es[0] in es;
      assert Enabled(s, Pipe(r, es[0]));
      var t := Apply(s, Pipe(r, es[0]));
      LiftRuns(t, r, es[1..]);
      assert Lift(r, es)[1..] == Lift(r, es[1..]);
    } else {
      assert s.pipes[r := s.pipes[r]] == s.pipes;
    }
  }

  lemma {:induction false} Append(s: State, es: seq<Event>, more: seq<Event>)
    requires Legal(s, es) && Legal(After(s, es), more)
    ensures Legal(s, es + more) && After(s, es + more) == After(After(s, es), more)
    decreases |es|
  {
    hide Enabled, Apply;
    if es == [] {
      assert es + more == more;
    } else {
      Append(Apply(s, es[0]), es[1..], more);
      assert (es + more)[1..] == es[1..] + more;
    }
  }

  /** The start says that it failed. */
  predicate SaysFailed(s: P.State, t: nat, r: nat) {
    t in s.calls && ((s.calls[t].Returned? && s.calls[t].r == r && !s.calls[t].ok) || s.calls[t] == P.WarmFailed(r))
  }

  /** Its runner.Stop over, the start says that it failed. */
  lemma StopEnds(s: State, t: nat, r: nat) returns (e: Event)
    requires Starting(s.pool, t, r) && r < |s.pipes| == |s.pool.runners| && StopMayEnd(s.pipes[r])
    ensures Enabled(s, e) && SaysFailed(Apply(s, e).pool, t, r)
  {
    e := Pool(if s.pool.calls[t].InStart? then P.StartEnds(t, false) else P.WarmEnds(t, false));
  }

  lemma OwnStopReturns(s: State, t: nat, r: nat) returns (es: seq<Event>)
    requires Inv(s) && InOwnStop(s, t, r) && !D.Stuck(s.pipes[r])
    ensures Legal(s, es) && SaysFailed(After(s, es).pool, t, r)
  {
    assert PipeOk(s.pool, r, s.pipes[r]);
    hide P.Inv, D.Stuck, D.Helps, Legal, After, D.Legal, D.After, Enabled, Apply, SaysFailed;
    var more := D.ReaderCanFinish(s.pipes[r]);
    HelpersAreNotStarters(more);
    LiftRuns(s, r, more);
    var f := After(s, Lift(r, more));
    StaysStopped(s.pipes[r], more);
    var end := StopEnds(f, t, r);
    One(f, end);
    Append(s, Lift(r, more), [end]);
    es := Lift(r, more) + [end];
  }

  lemma HelpersAreNotStarters(es: seq<D.Event>)
    requires forall e | e in es :: D.Helps(e)
    ensures forall e | e in es :: !StartersOwn(e)
  {
  }

  lemma {:induction false} StaysStopped(pipe: D.State, es: seq<D.Event>)
    requires D.Legal(pipe, es) && pipe.sh.stopped
    ensures D.After(pipe, es).sh.stopped
    decreases |es|
  {
    hide D.Enabled, D.Apply;
    if es != [] {
      PipeStep(pipe, es[0]);
      StaysStopped(D.Apply(pipe, es[0]), es[1..]);
    }
  }

  /** Exactly when a start that has met an error after the launch can come back and say so:
      its reader is not at a send to a call that has left with its buffer full. */
  lemma OwnStopReturnsIff(s: State, t: nat, r: nat)
    requires Inv(s) && InOwnStop(s, t, r)
    ensures (exists es :: Legal(s, es) && SaysFailed(After(s, es).pool, t, r)) <==> !D.Stuck(s.pipes[r])
  {
    if D.Stuck(s.pipes[r]) {
      hide Inv;
      forall es | Legal(s, es) ensures !SaysFailed(After(s, es).pool, t, r) {
        StuckStartHangs(s, es, t, r);
      }
    } else {
      var es := OwnStopReturns(s, t, r);
    }
  }

  /** And such a start exists: the child answers initialize twice, and the request that
      started it gives up in between. */
  lemma StuckStartIsReached() returns (es: seq<Event>, s: State)
    ensures Reached(false, es, s) && Inv(s) && InOwnStop(s, 0, 0) && D.Stuck(s.pipes[0])
    ensures s.pool.calls[0].InStart?
  {
    var first, s1 := StartUnderWay();
    var more, pipe := StuckAndStopped();
    assert forall e | e in more :: StartersOwn(e) ==> s1.pool.runners[0].phase.Running?;
    LiftRuns(s1, 0, more);
    hide Legal, After, Enabled, Apply, D.Legal, D.After, D.Stuck, Inv;
    Append(Start(false), first, Lift(0, more));
    es := first + Lift(0, more);
    s := After(s1, Lift(0, more));
    ReachedInv(false, es, s);
  }

  /** A RunnerFor has just entered startOnce. */
  lemma StartUnderWay() returns (es: seq<Event>, s: State)
    ensures Reached(false, es, s) && s.pipes == [D.INITIAL] && |s.pool.runners| == 1
    ensures s.pool.runners[0].phase.Running? && Starting(s.pool, 0, 0) && s.pool.calls[0].InStart?
  {
    var look, enter := Pool(P.Event.Lookup(0, "alice", 0.0)), Pool(P.EnterOnce(0));
    var s1 := Apply(Start(false), look);
    assert |s1.pool.runners| == 1 && s1.pipes == [D.INITIAL];
    s := Apply(s1, enter);
    One(Start(false), look);
    One(s1, enter);
    Append(Start(false), [look], [enter]);
    es := [look] + [enter];
  }

  lemma StuckAndStopped() returns (es: seq<D.Event>, pipe: D.State)
    ensures D.Legal(D.INITIAL, es) && D.After(D.INITIAL, es) == pipe
    ensures D.Stuck(pipe) && pipe.sh.stopped && !pipe.reader.Unlaunched?
  {
    var first, p1 := D.ReaderCanGetStuck();
    pipe := D.Apply(p1, D.MarkStopped);
    D.Begin(p1, D.MarkStopped, []);
    D.AfterAppend(D.INITIAL, first, [D.MarkStopped] + []);
    es := first + ([D.MarkStopped] + []);
    StuckStays(p1, D.MarkStopped);
  }
}
