/**
 The object of internal/server/runner_pool.go: its map of instances, the regions
 that hold its mutex, and the loops that stop what was taken out. The regions are
 proved to be the steps of PoolProtocol.
 */
module Pool {
  import opened PoolProtocol

  /** An instance with its runner. fired tells whether startOnce has begun, stops counts
      the calls of runner.Stop. */
  class PooledInstance {
    var lastUsed: real
    var fired: bool
    var started: bool
    var failed: bool
    var stops: nat
    ghost const serial: nat

    constructor (ghost serial: nat, now: real)
      ensures lastUsed == now && !fired && !started && !failed && stops == 0 && this.serial == serial
    {
      lastUsed, fired, started, failed, stops := now, false, false, false, 0;
      this.serial := serial;
    }

    /** startOnce.Do followed by the look at startErr; startOk is what runner.Start
        says, here or in the call that is inside startOnce already and is waited for. */
    method EnsureStarted(startOk: bool) returns (ok: bool)
      requires !(started && failed) && (started || failed ==> fired)
      modifies this`fired, this`started, this`failed
      ensures fired && ok == started && started != failed
      ensures started == if old(started || failed) then old(started) else startOk
    {
      if !fired {
        fired := true;
        Finish(startOk);
      } else if !started && !failed {
        Finish(startOk);
      }
      ok := !failed;
    }

    /** The end of the function startOnce runs, in whichever call that is. */
    method Finish(startOk: bool)
      modifies this`started, this`failed
      ensures started == startOk && failed == !startOk
    {
      started, failed := startOk, !startOk;
    }
  }

  lemma VictimIff(s: State, cutoff: real, k: string)
    requires k in s.instances && s.instances[k] < |s.runners|
    ensures k in Victims(s, cutoff) <==> k != SHARED_KEY && s.runners[s.instances[k]].lastUsed < cutoff
  {
  }

  /** How far EvictIdle's loop has come: todo is still to be looked at, victims have
      left the map. */
  ghost predicate Swept(was: State, now: State, all: map<string, PooledInstance>, left: map<string, PooledInstance>,
                        victims: map<string, PooledInstance>, todo: set<string>, cutoff: real)
  {
    && now == was.(instances := was.instances - victims.Keys) && left == all - victims.Keys
    && todo <= left.Keys && victims.Keys <= Victims(was, cutoff) <= todo + victims.Keys
    && (forall k | k in victims :: k in all && victims[k] == all[k])
  }

  lemma SweepBegins(was: State, all: map<string, PooledInstance>, cutoff: real)
    requires all.Keys == was.instances.Keys
    ensures Swept(was, was, all, all, map[], all.Keys, cutoff)
  {
  }

  lemma SweptKey(was: State, now: State, all: map<string, PooledInstance>, left: map<string, PooledInstance>,
                 victims: map<string, PooledInstance>, todo: set<string>, cutoff: real, k: string)
    requires Swept(was, now, all, left, victims, todo, cutoff) && k in todo
    requires now.instances.Keys == left.Keys
    ensures k in left && k in was.instances && k in now.instances && was.instances[k] == now.instances[k]
  {
  }

  lemma SweptAll(was: State, now: State, all: map<string, PooledInstance>, left: map<string, PooledInstance>,
                 victims: map<string, PooledInstance>, cutoff: real)
    requires Swept(was, now, all, left, victims, {}, cutoff)
    ensures victims.Keys == Victims(was, cutoff) && left == all - victims.Keys && victims.Keys <= all.Keys
    ensures now == was.(instances := was.instances - Victims(was, cutoff))
    ensures forall k | k in victims :: victims[k] == all[k]
  {
  }

  lemma SweptOneMore(was: State, now: State, all: map<string, PooledInstance>, left: map<string, PooledInstance>,
                     victims: map<string, PooledInstance>, todo: set<string>, cutoff: real, k: string)
    requires Swept(was, now, all, left, victims, todo, cutoff) && k in todo
    requires k in was.instances && was.instances[k] < |was.runners|
    ensures if k != SHARED_KEY && was.runners[was.instances[k]].lastUsed < cutoff
            then Swept(was, now.(instances := now.instances - {k}), all, left - {k}, victims[k := left[k]], todo - {k},
                       cutoff)
            else Swept(was, now, all, left, victims, todo - {k}, cutoff)
  {
    VictimIff(was, cutoff, k);
    hide Victims;
    var more := victims[k := left[k]];
    assert more.Keys == victims.Keys + {k};
    assert was.instances - victims.Keys - {k} == was.instances - more.Keys;
    assert all - victims.Keys - {k} == all - more.Keys;
  }

  // ------------------------------------------------- calls that run on their own

  /** What the fields of an instance do not tell apart. */
  predicate Unseen(a: Runner, b: Runner) {
    && a.key == b.key && a.lastUsed == b.lastUsed && a.stops == b.stops
    && a.phase == b.phase
  }

  /** es leads from one state of the protocol to another. */
  ghost predicate Runs(was: State, es: seq<Event>, now: State) {
    Legal(was, es) && After(was, es) == now
  }

  lemma RunsOneMore(was: State, es: seq<Event>, now: State, e: Event)
    requires Runs(was, es, now) && Enabled(now, e)
    ensures Runs(was, es + [e], Apply(now, e))
  {
    assert [e][1..] == [];
    AfterAppend(was, es, [e]);
  }

  lemma LookupRuns(s: State, t: nat, subject: string, now: real) returns (es: seq<Event>)
    requires !s.closed && t !in s.calls
    ensures var (found, r) := LookupIn(s, PartitionKey(s.shareSafe, subject), now);
            Runs(s, es, found.(calls := s.calls[t := AtOnce(subject, r)]))
  {
    RunsOneMore(s, [], s, Event.Lookup(t, subject, now));
    es := [] + [Event.Lookup(t, subject, now)];
  }

  lemma RefusalRuns(s: State, t: nat, subject: string, now: real, buildOk: bool) returns (es: seq<Event>)
    requires t !in s.calls
    requires s.closed || (!buildOk && PartitionKey(s.shareSafe, subject) !in s.instances)
    ensures Runs(s, es, s.(calls := s.calls[t := Refused(subject)]))
  {
    var e := if s.closed then Event.Lookup(t, subject, now) else LookupBuildFails(t, subject);
    RunsOneMore(s, [], s, e);
    es := [] + [e];
  }

  /** Where the runner of a Start ends up. */
  function WarmedAt(s: State, startOk: bool): Custody {
    if !startOk || !s.shareSafe then PoolProtocol.Stopped
    else if s.closed then Crashed
    else InMap
  }

  /** The runner Start leaves behind. */
  function WarmedUp(s: State, t: nat, startOk: bool): Runner {
    Runner(if s.shareSafe then SHARED_KEY else "", if startOk then Ready else Failed, 0.0, 1,
           if WarmedAt(s, startOk).Stopped? then 1 else 0, t, WarmedAt(s, startOk))
  }

  /** A Start that nothing interferes with. */
  function WarmUpIn(s: State, t: nat, startOk: bool): State {
    var r := |s.runners|;
    var s' := if WarmedAt(s, startOk).InMap? then Displace(s).(instances := s.instances[SHARED_KEY := r]) else s;
    s'.(runners := s'.runners + [WarmedUp(s, t, startOk)],
        calls := s.calls[t := if !startOk then StartFailed
                              else if WarmedAt(s, startOk).Crashed? then StartPanicked
                              else Started(r)])
  }

  /** Start up to the end of runner.Start. */
  function WarmedIn(s: State, t: nat, startOk: bool): State {
    var r := |s.runners|;
    s.(runners := s.runners + [WarmedUp(s, t, startOk).(stops := 0, at := Held(t))],
       calls := s.calls[t := if startOk then WarmReady(r) else WarmFailed(r)])
  }

  lemma WarmedRuns(s: State, t: nat, startOk: bool) returns (es: seq<Event>)
    requires t !in s.calls
    ensures Runs(s, es, WarmedIn(s, t, startOk))
  {
    var s1 := Apply(s, Warm(t));
    RunsOneMore(s, [], s, Warm(t));
    RunsOneMore(s, [] + [Warm(t)], s1, WarmEnds(t, startOk));
    es := [] + [Warm(t)] + [WarmEnds(t, startOk)];
    assert Apply(s1, WarmEnds(t, startOk)).runners == WarmedIn(s, t, startOk).runners;
  }

  lemma WarmUpRuns(s: State, t: nat, startOk: bool) returns (es: seq<Event>)
    requires t !in s.calls
    ensures Runs(s, es, WarmUpIn(s, t, startOk))
  {
    es := WarmedRuns(s, t, startOk);
    hide Runs;
    var mid := WarmedIn(s, t, startOk);
    if startOk {
      RunsOneMore(s, es, mid, Install(t));
      es := es + [Install(t)];
      if s.shareSafe {
        InstallKeeps(s, t);
      } else {
        es := WarmStopRuns(s, es, Apply(mid, Install(t)), t);
      }
    } else {
      es := WarmStopRuns(s, es, mid, t);
    }
  }

  lemma InstallKeeps(s: State, t: nat)
    requires t !in s.calls && s.shareSafe
    ensures var mid := WarmedIn(s, t, true);
            Enabled(mid, Install(t)) && Apply(mid, Install(t)) == WarmUpIn(s, t, true)
  {
    assert Apply(WarmedIn(s, t, true), Install(t)).runners == WarmUpIn(s, t, true).runners;
  }

  lemma WarmStopRuns(was: State, es: seq<Event>, s: State, t: nat) returns (more: seq<Event>)
    requires Runs(was, es, s) && t in s.calls && (s.calls[t].WarmStop? || s.calls[t].WarmFailed?)
    requires s.calls[t].r == |s.runners| - 1
    ensures var r := s.calls[t].r;
            var rec := s.runners[r].(stops := s.runners[r].stops + 1, at := PoolProtocol.Stopped);
            Runs(was, more, s.(runners := s.runners[..r] + [rec],
                               calls := s.calls[t := if s.calls[t].WarmStop? then Started(r) else StartFailed]))
  {
    hide Runs;
    RunsOneMore(was, es, s, WarmStopOne(t));
    more := es + [WarmStopOne(t)];
    var r := s.calls[t].r;
    assert Apply(s, WarmStopOne(t)).runners
           == s.runners[..r] + [s.runners[r].(stops := s.runners[r].stops + 1, at := PoolProtocol.Stopped)];
  }

  lemma WarmUpEffect(s: State, t: nat, startOk: bool)
    ensures var now, r := WarmUpIn(s, t, startOk), |s.runners|;
            && |now.runners| == r + 1 && now.runners[r] == WarmedUp(s, t, startOk)
            && (forall q | 0 <= q < r :: Unseen(s.runners[q], now.runners[q]))
            && now.instances == (if WarmedAt(s, startOk).InMap? then s.instances[SHARED_KEY := r] else s.instances)
            && now.shareSafe == s.shareSafe && now.closed == s.closed
  {
  }

  /** What becomes of a runner that EvictIdle or Close took out. */
  function Dropped(rec: Runner): Runner {
    if rec.phase == Ready then rec.(stops := rec.stops + 1, at := PoolProtocol.Stopped) else rec.(at := Passed)
  }

  lemma TakenRuns(was: State, es: seq<Event>, s: State, t: nat, r: nat) returns (more: seq<Event>, now: State)
    requires t in s.calls && s.calls[t].Reaping? && r in s.calls[t].todo && r < |s.runners| && Runs(was, es, s)
    ensures Runs(was, more, now) && now == Put(s, r, Dropped(s.runners[r]), t, Reaping(s.calls[t].todo - {r}))
  {
    hide Runs;
    var mid := Apply(s, Check(t, r));
    RunsOneMore(was, es, s, Check(t, r));
    more, now := es + [Check(t, r)], mid;
    if s.runners[r].phase == Ready {
      RunsOneMore(was, more, mid, StopOne(t));
      more, now := more + [StopOne(t)], Apply(mid, StopOne(t));
    }
  }

  ghost function SerialsOf(taken: map<string, PooledInstance>, keys: set<string>): set<nat>
    requires keys <= taken.Keys
  {
    set k | k in keys :: taken[k].serial
  }

  ghost predicate OwnSerials(taken: map<string, PooledInstance>) {
    forall k, l | k in taken && l in taken && k != l :: taken[k].serial != taken[l].serial
  }

  lemma SerialsLess(taken: map<string, PooledInstance>, keys: set<string>, k: string)
    requires keys <= taken.Keys && k in keys && OwnSerials(taken)
    ensures SerialsOf(taken, keys - {k}) == SerialsOf(taken, keys) - {taken[k].serial}
    ensures taken[k].serial in SerialsOf(taken, keys)
  {
  }

  lemma ReapNothing(s: State, t: nat) returns (es: seq<Event>)
    requires s.closed && t !in s.calls
    ensures Runs(s, es, s.(calls := s.calls[t := Reaped]))
  {
    RunsOneMore(s, [], s, CloseAll(t));
    es := [] + [CloseAll(t)];
  }

  lemma TakeOutRuns(s: State, t: nat, e: Event, keys: set<string>) returns (es: seq<Event>)
    requires !s.closed && t !in s.calls
    requires (e == CloseAll(t) && keys == s.instances.Keys) || (e.Evict? && e.t == t && keys == Victims(s, e.cutoff))
    ensures Runs(s, es, TakeOut(s, t, keys).(closed := e.CloseAll?))
  {
    RunsOneMore(s, [], s, e);
    es := [] + [e];
  }

  lemma SerialsEmpty(taken: map<string, PooledInstance>)
    ensures SerialsOf(taken, {}) == {}
  {
  }

  lemma EndReapRuns(was: State, es: seq<Event>, s: State, t: nat) returns (more: seq<Event>)
    requires Runs(was, es, s) && t in s.calls && s.calls[t] == Reaping({})
    ensures Runs(was, more, s.(calls := s.calls[t := Reaped]))
  {
    RunsOneMore(was, es, s, EndReap(t));
    more := es + [EndReap(t)];
  }

  /** What the part of RunnerFor past the map does to the runner it found: it starts it,
      or waits for the start that is under way, or finds it over. */
  function Once(rec: Runner, t: nat, startOk: bool): Runner {
    match rec.phase
    case Fresh => rec.(phase := if startOk then Ready else Failed, starts := rec.starts + 1, starter := t)
    case Running => rec.(phase := if startOk then Ready else Failed)
    case _ => rec
  }

  /** A start under way is that of a RunnerFor inside its startOnce. */
  predicate StartedByCall(s: State, r: nat)
    requires r < |s.runners|
  {
    s.runners[r].phase == Running ==>
      var u := s.runners[r].starter; u in s.calls && s.calls[u].InStart? && s.calls[u].r == r
  }

  lemma OnceRuns(was: State, es: seq<Event>, s: State, t: nat, startOk: bool)
    returns (more: seq<Event>, now: State)
    requires t in s.calls && s.calls[t].AtOnce? && s.calls[t].r < |s.runners| && Runs(was, es, s)
    requires StartedByCall(s, s.calls[t].r)
    ensures var r := s.calls[t].r;
            var rec := Once(s.runners[r], t, startOk);
            && Runs(was, more, now)
            && now == s.(runners := s.runners[r := rec], calls := now.calls)
            && t in now.calls && now.calls[t] == Returned(s.calls[t].subject, r, rec.phase == Ready)
  {
    hide Runs;
    var r := s.calls[t].r;
    if s.runners[r].phase == Fresh {
      var mid := Apply(s, EnterOnce(t));
      RunsOneMore(was, es, s, EnterOnce(t));
      RunsOneMore(was, es + [EnterOnce(t)], mid, StartEnds(t, startOk));
      more, now := es + [EnterOnce(t)] + [StartEnds(t, startOk)], Apply(mid, StartEnds(t, startOk));
    } else if s.runners[r].phase == Running {
      var u := s.runners[r].starter;
      var mid := Apply(s, StartEnds(u, startOk));
      RunsOneMore(was, es, s, StartEnds(u, startOk));
      RunsOneMore(was, es + [StartEnds(u, startOk)], mid, JoinOnce(t));
      more, now := es + [StartEnds(u, startOk)] + [JoinOnce(t)], Apply(mid, JoinOnce(t));
    } else {
      RunsOneMore(was, es, s, JoinOnce(t));
      more, now := es + [JoinOnce(t)], Apply(s, JoinOnce(t));
    }
  }

  /** A state that the protocol keeps. */
  ghost predicate Sound(s: State) {
    Inv(s) && StartersAtWork(s)
  }

  lemma RunsStaySound(was: State, es: seq<Event>, now: State)
    requires Sound(was) && Runs(was, es, now)
    ensures Sound(now)
  {
    RunsKeepStarters(was, es);
  }

  datatype StartOutcome = Serving | NotStarted | Panicked

  class RunnerPool {
    const shareSafe: bool
    var instances: map<string, PooledInstance>
    var closed: bool
    /** The instances in the order they were built, and the abstract state. */
    ghost var built: seq<PooledInstance>
    ghost var st: State

    ghost predicate Valid()
      reads this, built
    {
      && st.shareSafe == shareSafe && st.closed == closed && |built| == |st.runners|
      && instances.Keys == st.instances.Keys
      && (forall r {:trigger Mirrors(r, built[r], st.runners[r])} | 0 <= r < |built| ::
            Mirrors(r, built[r], st.runners[r]))
      && (forall k {:trigger Entry(k)} | k in instances :: Entry(k))
    }

    ghost predicate Mirrors(r: nat, inst: PooledInstance, rec: Runner)
      reads inst
    {
      && inst.serial == r && inst.lastUsed == rec.lastUsed && inst.stops == rec.stops
      && inst.fired == (rec.phase != Fresh)
      && inst.started == (rec.phase == Ready) && inst.failed == (rec.phase == Failed)
    }

    ghost predicate Entry(k: string)
      requires k in instances && k in st.instances && |built| == |st.runners|
      reads this
    {
      && st.instances[k] < |built| && built[st.instances[k]] == instances[k]
      && st.runners[st.instances[k]].key == k && instances[k].serial == st.instances[k]
    }

    constructor (shareSafe: bool)
      ensures Valid() && st == PoolProtocol.Start(shareSafe) && built == []
    {
      this.shareSafe := shareSafe;
      instances, closed, built := map[], false, [];
      st := PoolProtocol.Start(shareSafe);
    }

    // ------------------------------------------------------------------ regions

    /** The region of RunnerFor on an open pool: the instance under the key, built if
        there is none, with its last use brought up to date. */
    method Lookup(key: string, now: real) returns (inst: PooledInstance)
      requires Valid() && !closed
      modifies this, built
      ensures Valid() && key in instances && instances[key] == inst
      ensures st == LookupIn(old(st), key, now).0 && inst.serial == LookupIn(old(st), key, now).1
      ensures built == if key in old(instances) then old(built) else old(built) + [inst]
      ensures key !in old(instances) ==> fresh(inst)
      ensures inst.serial < |built| && built[inst.serial] == inst && (inst in old(built) || fresh(inst))
    {
      if key in instances {
        assert Entry(key);
        inst := instances[key];
        assert Mirrors(inst.serial, inst, st.runners[inst.serial]);
        inst.lastUsed := now;
      } else {
        inst := new PooledInstance(|built|, now);
        instances := instances[key := inst];
        built := built + [inst];
      }
      ghost var was := st;
      st := LookupIn(st, key, now).0;
      forall r | 0 <= r < |built| ensures Mirrors(r, built[r], st.runners[r]) {
        assert r < |was.runners| ==> old(Mirrors(r, built[r], st.runners[r]));
      }
      forall k | k in instances ensures Entry(k) {
        assert k in old(instances) ==> old(Entry(k));
      }
    }

    /** The region of EvictIdle: out of the map goes exactly what was last used
        strictly before the cutoff, never the shared instance. */
    method TakeIdle(cutoff: real) returns (victims: map<string, PooledInstance>)
      requires Valid() && !closed
      modifies this`instances, this`st
      ensures Valid() && instances == old(instances) - victims.Keys
      ensures st == old(st).(instances := old(st).instances - Victims(old(st), cutoff))
      ensures victims.Keys == Victims(old(st), cutoff) && victims.Keys <= old(instances).Keys
      ensures forall k | k in victims :: victims[k] == old(instances)[k]
    {
      victims := map[];
      var todo := instances.Keys;
      ghost var was, all := st, instances;
      SweepBegins(was, all, cutoff);
      assert closed == st.closed && st.instances.Keys == instances.Keys;
      hide Victims, Swept, RunnerPool.Valid;
      while todo != {}
        invariant Valid() && !closed && st.runners == was.runners && st.instances.Keys == instances.Keys
        invariant Swept(was, st, all, instances, victims, todo, cutoff)
        decreases todo
      {
        var key :| key in todo;
        SweptKey(was, st, all, instances, victims, todo, cutoff, key);
        assert was.instances[key] < |was.runners| by { InBounds(key); }
        SweptOneMore(was, st, all, instances, victims, todo, cutoff, key);
        todo := todo - {key};
        var inst := RemoveIfIdle(key, cutoff);
        if inst != null {
          victims := victims[key := inst];
        }
      }
      SweptAll(was, st, all, instances, victims, cutoff);
    }

    lemma InBounds(key: string)
      requires Valid() && key in instances
      ensures key in st.instances && st.instances[key] < |st.runners|
    {
      assert Entry(key);
    }

    /** One turn of EvictIdle's loop. */
    method RemoveIfIdle(key: string, cutoff: real) returns (inst: PooledInstance?)
      requires Valid() && key in instances
      modifies this`instances, this`st
      ensures Valid() && key in old(st).instances && old(st).instances[key] < |old(st).runners|
      ensures inst != null <==> key != SHARED_KEY && old(st).runners[old(st).instances[key]].lastUsed < cutoff
      ensures inst != null ==> inst == old(instances)[key] && instances == old(instances) - {key}
      ensures inst != null ==> st == old(st).(instances := old(st).instances - {key})
      ensures inst == null ==> instances == old(instances) && st == old(st)
      ensures st.instances.Keys == instances.Keys
    {
      assert Entry(key);
      assert Mirrors(st.instances[key], instances[key], st.runners[st.instances[key]]);
      inst := null;
      if key != SHARED_KEY && instances[key].lastUsed < cutoff {
        inst := instances[key];
        Drop(key);
      }
    }

    /** delete(p.instances, key) */
    method Drop(key: string)
      requires Valid()
      modifies this`instances, this`st
      ensures Valid() && instances == old(instances) - {key}
      ensures st == old(st).(instances := old(st).instances - {key})
    {
      instances := instances - {key};
      st := st.(instances := st.instances - {key});
      forall k | k in instances ensures Entry(k) {
        assert old(Entry(k));
      }
      forall r | 0 <= r < |built| ensures Mirrors(r, built[r], st.runners[r]) {
        assert old(Mirrors(r, built[r], st.runners[r]));
      }
    }

    /** The region of Close. */
    method TakeAll() returns (all: map<string, PooledInstance>)
      requires Valid() && !closed
      modifies this`instances, this`closed, this`st
      ensures Valid() && closed && all == old(instances)
      ensures st == old(st).(instances := map[], closed := true)
    {
      all := instances;
      instances, closed := map[], true;
      st := st.(instances := map[], closed := true);
      forall r | 0 <= r < |built| ensures Mirrors(r, built[r], st.runners[r]) {
        assert old(Mirrors(r, built[r], st.runners[r]));
      }
    }

    // --------------------------------------------------- the calls, each on its own

    /** The protocol moves on in a way the fields do not show: calls, custody, and the
        book-keeping of starts. */
    ghost method MoveOn(now: State)
      requires Valid() && |now.runners| == |st.runners|
      requires now == st.(runners := now.runners, calls := now.calls)
      requires forall r | 0 <= r < |st.runners| :: Unseen(st.runners[r], now.runners[r])
      modifies this`st
      ensures Valid() && st == now
    {
      st := now;
      forall r | 0 <= r < |built| ensures Mirrors(r, built[r], st.runners[r]) {
        assert old(Mirrors(r, built[r], st.runners[r]));
        assert Unseen(old(st).runners[r], st.runners[r]);
      }
      forall k | k in instances ensures Entry(k) {
        assert old(Entry(k));
        assert Unseen(old(st).runners[st.instances[k]], st.runners[st.instances[k]]);
      }
    }

    /** The part of RunnerFor under the mutex, for a call of its own. */
    method Find(ghost t: nat, subject: string, now: real) returns (inst: PooledInstance, ghost es: seq<Event>)
      requires Valid() && t !in st.calls && !closed
      modifies this, built
      ensures Valid() && Runs(old(st), es, st)
      ensures t in st.calls && st.calls[t] == AtOnce(subject, inst.serial)
      ensures PartitionKey(shareSafe, subject) in instances && instances[PartitionKey(shareSafe, subject)] == inst
      ensures inst.serial < |built| && built[inst.serial] == inst
      ensures inst in old(built) || fresh(inst)
    {
      assert st.closed == closed && st.shareSafe == shareSafe;
      hide Runs, LookupIn, RunnerPool.Valid;
      es := LookupRuns(st, t, subject, now);
      ghost var calls := st.calls;
      inst := Lookup(PartitionKey(shareSafe, subject), now);
      MoveOn(st.(calls := calls[t := AtOnce(subject, inst.serial)]));
    }

    /** The part of RunnerFor past the map. */
    method Ensure(ghost t: nat, inst: PooledInstance, startOk: bool, ghost was: State, ghost es: seq<Event>)
      returns (ok: bool, ghost more: seq<Event>)
      requires Valid() && t in st.calls && st.calls[t].AtOnce? && st.calls[t].r == inst.serial
      requires inst.serial < |built| && inst == built[inst.serial] && Runs(was, es, st)
      requires StartedByCall(st, inst.serial)
      modifies this`st, inst`fired, inst`started, inst`failed
      ensures Valid() && Runs(was, more, st)
      ensures t in st.calls && st.calls[t] == Returned(old(st).calls[t].subject, inst.serial, ok) && ok == inst.started
      ensures ok == if old(inst.started || inst.failed) then old(inst.started) else startOk
    {
      ghost var r := inst.serial;
      assert Mirrors(r, inst, st.runners[r]);
      hide Runs;
      ghost var now: State;
      more, now := OnceRuns(was, es, st, t, startOk);
      ok := inst.EnsureStarted(startOk);
      st := now;
      OthersStay(inst);
    }

    /** Only one instance and its runner have changed. */
    twostate lemma OthersStay(inst: PooledInstance)
      requires old(Valid()) && inst.serial < |built| && inst == built[inst.serial]
      requires built == old(built) && instances == old(instances) && closed == old(closed)
      requires inst.serial < |st.runners| && |st.runners| == |old(st).runners|
      requires st == old(st).(runners := st.runners, calls := st.calls)
      requires st.runners == old(st).runners[inst.serial := st.runners[inst.serial]]
      requires st.runners[inst.serial].key == old(st).runners[inst.serial].key
      requires forall x: PooledInstance | x in built && x != inst :: unchanged(x)
      requires Mirrors(inst.serial, inst, st.runners[inst.serial])
      ensures Valid()
    {
      forall r | 0 <= r < |built| ensures Mirrors(r, built[r], st.runners[r]) {
        assert old(Mirrors(r, built[r], st.runners[r]));
        assert built[r] in built && (r != inst.serial ==> built[r] != inst && unchanged(built[r]));
      }
      forall k | k in instances ensures Entry(k) {
        assert old(Entry(k));
      }
    }

    /** Start: one runner is built and started to learn the capabilities. In shared mode
        it is the instance everyone gets; otherwise, and when its start fails, it is
        stopped. On a closed pool in shared mode Start runs into the nil map, and the
        runner stays live. */
    method StartUp(ghost t: nat, buildOk: bool, startOk: bool) returns (outcome: StartOutcome, ghost es: seq<Event>)
      requires Valid() && t !in st.calls
      modifies this
      ensures Valid() && Runs(old(st), es, st)
      ensures outcome == if !buildOk || !startOk then NotStarted else if shareSafe && closed then Panicked else Serving
      ensures !buildOk ==> st == old(st) && built == old(built)
      ensures buildOk ==>
                && st == WarmUpIn(old(st), t, startOk) && |built| == |old(built)| + 1 && fresh(built[|old(built)|])
                && built[|old(built)|].started == startOk
                && built[|old(built)|].stops == if startOk && shareSafe then 0 else 1
      ensures instances == if outcome.Serving? && shareSafe then old(instances)[SHARED_KEY := built[|old(built)|]]
                           else old(instances)
    {
      outcome, es := NotStarted, [];
      assert Runs(st, [], st) && st.closed == closed && st.shareSafe == shareSafe;
      hide Runs, WarmUpIn;
      if !buildOk {
        return;
      }
      var inst := new PooledInstance(|built|, 0.0);
      es := WarmUpRuns(st, t, startOk);
      var ok := inst.EnsureStarted(startOk);
      if ok {
        outcome := if shareSafe && closed then Panicked else Serving;
      }
      if !ok || !shareSafe {
        inst.stops := inst.stops + 1;
      }
      WarmUpEffect(st, t, startOk);
      Adopt(inst, WarmUpIn(st, t, startOk), outcome.Serving? && shareSafe);
    }

    /** A new instance joins, and is kept under the shared key or not at all. */
    method Adopt(inst: PooledInstance, ghost now: State, keep: bool)
      requires Valid() && |now.runners| == |built| + 1 && Mirrors(|built|, inst, now.runners[|built|])
      requires forall q | 0 <= q < |built| :: Unseen(st.runners[q], now.runners[q])
      requires now.shareSafe == st.shareSafe && now.closed == st.closed
      requires now.instances == if keep then st.instances[SHARED_KEY := |built|] else st.instances
      requires keep ==> now.runners[|built|].key == SHARED_KEY
      modifies this`instances, this`built, this`st
      ensures Valid() && st == now && built == old(built) + [inst]
      ensures instances == if keep then old(instances)[SHARED_KEY := inst] else old(instances)
    {
      ghost var was := st;
      if keep {
        instances := instances[SHARED_KEY := inst];
      }
      built, st := built + [inst], now;
      forall r | 0 <= r < |built| ensures Mirrors(r, built[r], st.runners[r]) {
        if r < |was.runners| {
          assert old(Mirrors(r, built[r], st.runners[r]));
          assert Unseen(was.runners[r], st.runners[r]);
        }
      }
      forall k | k in instances ensures Entry(k) {
        if !(keep && k == SHARED_KEY) {
          assert old(Entry(k));
          assert Unseen(was.runners[was.instances[k]], st.runners[was.instances[k]]);
        }
      }
    }

    /** RunnerFor: buildOk is what Build will say, startOk what runner.Start says, here or
        in the call that is already starting the instance. What it hands out is the
        started instance under the caller's key. */
    method RunnerFor(ghost t: nat, subject: string, now: real, buildOk: bool, startOk: bool)
      returns (inst: PooledInstance?, ghost es: seq<Event>)
      requires Valid() && Sound(st) && t !in st.calls
      modifies this, built
      ensures Valid() && Sound(st) && Runs(old(st), es, st) && t in st.calls
      ensures st.calls[t].Refused? <==> old(closed) || (!buildOk && PartitionKey(shareSafe, subject) !in old(instances))
      ensures inst == null ==> st.calls[t].Refused? || (st.calls[t].Returned? && !st.calls[t].ok)
      ensures inst != null ==>
                && st.calls[t] == Returned(subject, inst.serial, true) && inst.started
                && PartitionKey(shareSafe, subject) in instances
                && inst == instances[PartitionKey(shareSafe, subject)]
    {
      inst, es := null, [];
      ghost var was := st;
      var key := PartitionKey(shareSafe, subject);
      if closed || (key !in instances && !buildOk) {
        es := RefusalRuns(st, t, subject, now, buildOk);
        hide Runs, Sound;
        MoveOn(st.(calls := st.calls[t := Refused(subject)]));
        RunsStaySound(was, es, st);
        return;
      }
      hide Runs, Sound, RunnerPool.Valid;
      var found, ok;
      found, es := Find(t, subject, now);
      RunsStaySound(was, es, st);
      FoundStarter(key);
      ok, es := Ensure(t, found, startOk, was, es);
      RunsStaySound(was, es, st);
      if ok {
        inst := found;
      }
    }

    lemma FoundStarter(key: string)
      requires Valid() && Sound(st) && key in instances
      ensures instances[key].serial < |st.runners| && StartedByCall(st, instances[key].serial)
    {
      assert Entry(key);
      MappedStarter(st, key);
    }

    /** Call t has runners left to stop. */
    ghost predicate Takes(t: nat)
      reads this
    {
      t in st.calls && st.calls[t].Reaping?
    }

    /** One turn of the loops that stop what was taken out of the map; es is the run so
        far. */
    method StopIfStarted(ghost t: nat, inst: PooledInstance, ghost was: State, ghost es: seq<Event>)
      returns (ghost more: seq<Event>)
      requires Valid() && Takes(t) && inst.serial in st.calls[t].todo && Runs(was, es, st)
      requires inst.serial < |built| && built[inst.serial] == inst
      modifies this`st, inst`stops
      ensures Valid() && Takes(t) && Runs(was, more, st)
      ensures st.calls[t].todo == old(st).calls[t].todo - {inst.serial}
      ensures inst.stops == old(inst.stops) + if inst.started then 1 else 0
    {
      assert Mirrors(inst.serial, inst, st.runners[inst.serial]);
      hide Runs;
      ghost var now: State;
      more, now := TakenRuns(was, es, st, t, inst.serial);
      if inst.started {
        inst.stops := inst.stops + 1;
      }
      st := now;
      OthersStay(inst);
    }

    /** The instances a call took out, each with a serial of its own. */
    ghost predicate Built(taken: map<string, PooledInstance>)
      reads this
    {
      OwnSerials(taken) && forall k | k in taken :: taken[k].serial < |built| && built[taken[k].serial] == taken[k]
    }

    /** The loop at the end of EvictIdle and of Close: each started instance that was
        taken out is stopped once, the others not at all. */
    method StopTaken(ghost t: nat, taken: map<string, PooledInstance>, ghost was: State, ghost es: seq<Event>)
      returns (ghost more: seq<Event>)
      requires Valid() && Takes(t) && Built(taken) && st.calls[t].todo == SerialsOf(taken, taken.Keys)
      requires Runs(was, es, st)
      modifies this`st, taken.Values`stops
      ensures Valid() && Runs(was, more, st) && t in st.calls && st.calls[t] == Reaped
      ensures forall k | k in taken :: taken[k].stops == old(taken[k].stops) + if taken[k].started then 1 else 0
    {
      assert forall k, l | k in taken && l in taken && k != l :: taken[k] != taken[l];
      hide Runs, SerialsOf, OwnSerials, RunnerPool.Valid;
      more := es;
      var todo := taken.Keys;
      while todo != {}
        invariant todo <= taken.Keys && Valid() && Takes(t) && Runs(was, more, st)
        invariant st.calls[t].todo == SerialsOf(taken, todo)
        invariant forall k | k in taken ::
                    taken[k].stops == old(taken[k].stops) + if k !in todo && taken[k].started then 1 else 0
        decreases todo
      {
        var key :| key in todo;
        SerialsLess(taken, todo, key);
        todo := todo - {key};
        more := StopIfStarted(t, taken[key], was, more);
      }
      SerialsEmpty(taken);
      more := EndReapRuns(was, more, st, t);
      MoveOn(st.(calls := st.calls[t := Reaped]));
    }

    /** What has left the map is call t's to stop. */
    ghost method HandOver(was: State, t: nat, taken: map<string, PooledInstance>, closing: bool)
      requires Valid() && t !in st.calls && taken.Keys <= was.instances.Keys
      requires st == TakeOut(was, t, taken.Keys).(closed := closing, runners := was.runners, calls := was.calls)
      requires forall k | k in taken ::
                 taken[k].serial == was.instances[k] && taken[k].serial < |built| && built[taken[k].serial] == taken[k]
      requires OwnSerials(taken)
      modifies this`st
      ensures Valid() && st == TakeOut(was, t, taken.Keys).(closed := closing)
      ensures Takes(t) && Built(taken) && st.calls[t].todo == SerialsOf(taken, taken.Keys)
    {
      hide RunnerPool.Valid;
      MoveOn(TakeOut(was, t, taken.Keys).(closed := closing));
      assert st.calls[t].todo == SerialsOf(taken, taken.Keys);
    }

    /** Every instance of the map has a serial of its own. */
    lemma EntriesAreBuilt()
      requires Valid()
      ensures Built(instances)
      ensures forall k | k in instances :: k in st.instances && st.instances[k] == instances[k].serial
    {
      forall k | k in instances ensures Entry(k) {}
    }

    /** EvictIdle: what was last used strictly before the cutoff, except the shared
        instance, leaves the map, and of that each started instance is stopped once.
        The answer is how many left. */
    method EvictIdle(ghost t: nat, cutoff: real) returns (evicted: nat, ghost es: seq<Event>)
      requires Valid() && t !in st.calls
      modifies this`instances, this`st, instances.Values`stops
      ensures Valid() && Runs(old(st), es, st) && t in st.calls && st.calls[t] == Reaped
      ensures old(closed) ==> evicted == 0 && instances == old(instances)
      ensures !old(closed) ==>
                && evicted == |Victims(old(st), cutoff)|
                && instances == old(instances) - Victims(old(st), cutoff)
                && forall k | k in old(instances) ::
                     old(instances)[k].stops == old(instances[k].stops)
                       + if k in Victims(old(st), cutoff) && old(instances)[k].started then 1 else 0
    {
      evicted, es := 0, [];
      if closed {
        es := ReapNothing(st, t);
        MoveOn(st.(calls := st.calls[t := Reaped]));
        return;
      }
      ghost var was, all := st, instances;
      hide Runs, Victims, Built, SerialsOf, RunnerPool.Valid;
      var victims;
      victims, es := TakeIdleFor(t, cutoff);
      es := StopTaken(t, victims, was, es);
      evicted := |victims|;
      assert evicted == |victims.Keys|;
      forall k | k in all && k !in victims ensures all[k].stops == old(all[k].stops) {
        assert all[k] !in victims.Values;
      }
    }

    /** The region of EvictIdle, for a call of its own. */
    method TakeIdleFor(ghost t: nat, cutoff: real) returns (victims: map<string, PooledInstance>, ghost es: seq<Event>)
      requires Valid() && t !in st.calls && !closed
      modifies this`instances, this`st
      ensures Valid() && Takes(t) && Built(victims) && st.calls[t].todo == SerialsOf(victims, victims.Keys)
      ensures Runs(old(st), es, st) && victims.Keys == Victims(old(st), cutoff) && victims.Keys <= old(instances).Keys
      ensures instances == old(instances) - victims.Keys
      ensures forall k | k in victims :: victims[k] == old(instances)[k]
      ensures forall k | k in old(instances) && k !in victims :: old(instances)[k] !in victims.Values
    {
      EntriesAreBuilt();
      ghost var was, all := st, instances;
      assert forall k, l | k in all && l in all && k != l :: all[k] != all[l];
      hide Runs, Victims, RunnerPool.Valid;
      es := TakeOutRuns(was, t, Evict(t, cutoff), Victims(was, cutoff));
      victims := TakeIdle(cutoff);
      HandOver(was, t, victims, false);
    }

    /** Close: the map is emptied for good, and each started instance that was in it is
        stopped once. */
    method Close(ghost t: nat) returns (ghost es: seq<Event>)
      requires Valid() && t !in st.calls
      modifies this`instances, this`closed, this`st, instances.Values`stops
      ensures Valid() && closed && Runs(old(st), es, st) && t in st.calls && st.calls[t] == Reaped
      ensures old(closed) ==> instances == old(instances)
      ensures !old(closed) ==>
                && instances == map[]
                && forall k | k in old(instances) ::
                     old(instances)[k].stops == old(instances[k].stops) + if old(instances)[k].started then 1 else 0
    {
      es := [];
      if closed {
        es := ReapNothing(st, t);
        MoveOn(st.(calls := st.calls[t := Reaped]));
        return;
      }
      EntriesAreBuilt();
      ghost var was := st;
      assert st.instances.Keys == instances.Keys;
      hide Runs, RunnerPool.Valid;
      es := TakeOutRuns(was, t, CloseAll(t), was.instances.Keys);
      var all := TakeAll();
      assert was.instances - all.Keys == map[];
      HandOver(was, t, all, true);
      es := StopTaken(t, all, was, es);
    }
  }
}
