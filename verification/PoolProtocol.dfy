/**
 The lifecycle protocol of internal/server/runner_pool.go as a transition system.
 Every region under the pool's mutex, every run of a sync.Once, every look at an
 instance's started flag and every Stop is one step; any number of RunnerFor,
 EvictIdle, Close and Start calls interleave. Whether a build or a start succeeds is
 up to the environment.
 */
module PoolProtocol {
  const SHARED_KEY := "__shared"

  function PartitionKey(shareSafe: bool, subject: string): string {
    if shareSafe then SHARED_KEY else "subj:" + subject
  }

  /** Fresh: startOnce has not fired. Running: the start is under way. Ready: started
      is set. Failed: startErr is set. */
  datatype Phase = Fresh | Running | Ready | Failed

  /** Who answers for stopping a runner. Passed: EvictIdle or Close looked at it and
      read started == false. Displaced: Start overwrote its map entry. Crashed: Start
      ran into the nil map of a closed pool. */
  datatype Custody = InMap | Held(t: nat) | Stopped | Passed | Displaced | Crashed

  /** The k-th runner built, with its instance. starter is the call that started it. */
  datatype Runner = Runner(key: string, phase: Phase, lastUsed: real,
                           starts: nat, stops: nat, starter: nat, at: Custody)

  /** A call of the pool: RunnerFor (AtOnce, InStart, Returned, Refused), EvictIdle
      and Close (Reaping, Stopping, Reaped), Start (Warming and the rest). */
  datatype Call =
    | AtOnce(subject: string, r: nat)
    | InStart(subject: string, r: nat)
    | Returned(subject: string, r: nat, ok: bool)
    | Refused(subject: string)
    | Reaping(todo: set<nat>)
    | Stopping(r: nat, todo: set<nat>)
    | Reaped
    | Warming(r: nat)
    | WarmReady(r: nat)
    | WarmFailed(r: nat)
    | WarmStop(r: nat)
    | Started(r: nat)
    | StartFailed
    | StartPanicked

  datatype State = State(shareSafe: bool, closed: bool, instances: map<string, nat>,
                         runners: seq<Runner>, calls: map<nat, Call>)

  datatype Event =
    | Lookup(t: nat, subject: string, now: real)
    | LookupBuildFails(t: nat, subject: string)
    | EnterOnce(t: nat)
    | JoinOnce(t: nat)
    | StartEnds(t: nat, ok: bool)
    | Evict(t: nat, cutoff: real)
    | CloseAll(t: nat)
    | Check(t: nat, r: nat)
    | StopOne(t: nat)
    | EndReap(t: nat)
    | Warm(t: nat)
    | WarmEnds(t: nat, ok: bool)
    | Install(t: nat)
    | WarmStopOne(t: nat)

  function Start(shareSafe: bool): State {
    State(shareSafe, false, map[], [], map[])
  }

  // ------------------------------------------------------------------- regions

  /** The map region of RunnerFor on an open pool. */
  function LookupIn(s: State, key: string, now: real): (State, nat) {
    if key in s.instances && s.instances[key] < |s.runners| then
      var r := s.instances[key];
      (s.(runners := s.runners[r := s.runners[r].(lastUsed := now)]), r)
    else
      var r := |s.runners|;
      (s.(runners := s.runners + [Runner(key, Fresh, now, 0, 0, 0, InMap)], instances := s.instances[key := r]), r)
  }

  /** What EvictIdle takes out of the map. */
  function Victims(s: State, cutoff: real): set<string> {
    set k | k in s.instances && k != SHARED_KEY && s.instances[k] < |s.runners|
            && s.runners[s.instances[k]].lastUsed < cutoff
  }

  function HandTo(runners: seq<Runner>, rs: set<nat>, t: nat): (out: seq<Runner>)
    ensures |out| == |runners|
    ensures forall r | 0 <= r < |runners| ::
              out[r] == if r in rs then runners[r].(at := Held(t)) else runners[r]
  {
    seq(|runners|, r requires 0 <= r < |runners| => if r in rs then runners[r].(at := Held(t)) else runners[r])
  }

  /** Takes the given keys out of the map; the runners become t's to stop. */
  function TakeOut(s: State, t: nat, keys: set<string>): State
    requires keys <= s.instances.Keys
  {
    var rs := set k | k in keys :: s.instances[k];
    s.(instances := s.instances - keys, runners := HandTo(s.runners, rs, t), calls := s.calls[t := Reaping(rs)])
  }

  // -------------------------------------------------------------------- events

  predicate Enabled(s: State, e: Event) {
    match e
    case Lookup(t, _, _) => t !in s.calls
    case LookupBuildFails(t, subject) =>
      t !in s.calls && !s.closed && PartitionKey(s.shareSafe, subject) !in s.instances
    case EnterOnce(t) =>
      t in s.calls && s.calls[t].AtOnce? && s.calls[t].r < |s.runners| && s.runners[s.calls[t].r].phase == Fresh
    case JoinOnce(t) =>
      t in s.calls && s.calls[t].AtOnce? && s.calls[t].r < |s.runners|
      && (s.runners[s.calls[t].r].phase == Ready || s.runners[s.calls[t].r].phase == Failed)
    case StartEnds(t, _) => t in s.calls && s.calls[t].InStart? && s.calls[t].r < |s.runners|
    case Evict(t, _) => t !in s.calls
    case CloseAll(t) => t !in s.calls
    case Check(t, r) => t in s.calls && s.calls[t].Reaping? && r in s.calls[t].todo && r < |s.runners|
    case StopOne(t) => t in s.calls && s.calls[t].Stopping? && s.calls[t].r < |s.runners|
    case EndReap(t) => t in s.calls && s.calls[t].Reaping? && s.calls[t].todo == {}
    case Warm(t) => t !in s.calls
    case WarmEnds(t, _) => t in s.calls && s.calls[t].Warming? && s.calls[t].r < |s.runners|
    case Install(t) => t in s.calls && s.calls[t].WarmReady? && s.calls[t].r < |s.runners|
    case WarmStopOne(t) =>
      t in s.calls && (s.calls[t].WarmFailed? || s.calls[t].WarmStop?) && s.calls[t].r < |s.runners|
  }

  function Put(s: State, r: nat, rec: Runner, t: nat, call: Call): State
    requires r < |s.runners|
  {
    s.(runners := s.runners[r := rec], calls := s.calls[t := call])
  }

  function Displace(s: State): State {
    if SHARED_KEY in s.instances && s.instances[SHARED_KEY] < |s.runners| then
      var r := s.instances[SHARED_KEY];
      s.(runners := s.runners[r := s.runners[r].(at := Displaced)])
    else s
  }

  function Apply(s: State, e: Event): State
    requires Enabled(s, e)
  {
    match e
    case Lookup(t, subject, now) =>
      if s.closed then s.(calls := s.calls[t := Refused(subject)])
      else
        var (s', r) := LookupIn(s, PartitionKey(s.shareSafe, subject), now);
        s'.(calls := s.calls[t := AtOnce(subject, r)])
    case LookupBuildFails(t, subject) => s.(calls := s.calls[t := Refused(subject)])
    case EnterOnce(t) =>
      var r := s.calls[t].r;
      var rec := s.runners[r];
      Put(s, r, rec.(phase := Running, starts := rec.starts + 1, starter := t), t, InStart(s.calls[t].subject, r))
    case JoinOnce(t) =>
      var r := s.calls[t].r;
      s.(calls := s.calls[t := Returned(s.calls[t].subject, r, s.runners[r].phase == Ready)])
    case StartEnds(t, ok) =>
      var r := s.calls[t].r;
      Put(s, r, s.runners[r].(phase := if ok then Ready else Failed), t, Returned(s.calls[t].subject, r, ok))
    case Evict(t, cutoff) =>
      if s.closed then s.(calls := s.calls[t := Reaped]) else TakeOut(s, t, Victims(s, cutoff))
    case CloseAll(t) =>
      if s.closed then s.(calls := s.calls[t := Reaped])
      else TakeOut(s, t, s.instances.Keys).(closed := true)
    case Check(t, r) =>
      var todo := s.calls[t].todo - {r};
      if s.runners[r].phase == Ready then s.(calls := s.calls[t := Stopping(r, todo)])
      else Put(s, r, s.runners[r].(at := Passed), t, Reaping(todo))
    case StopOne(t) =>
      var r := s.calls[t].r;
      var rec := s.runners[r];
      Put(s, r, rec.(stops := rec.stops + 1, at := Stopped), t, Reaping(s.calls[t].todo))
    case EndReap(t) => s.(calls := s.calls[t := Reaped])
    case Warm(t) =>
      var key := if s.shareSafe then SHARED_KEY else "";
      s.(runners := s.runners + [Runner(key, Running, 0.0, 1, 0, t, Held(t))],
         calls := s.calls[t := Warming(|s.runners|)])
    case WarmEnds(t, ok) =>
      var r := s.calls[t].r;
      Put(s, r, s.runners[r].(phase := if ok then Ready else Failed), t, if ok then WarmReady(r) else WarmFailed(r))
    case Install(t) =>
      var r := s.calls[t].r;
      if !s.shareSafe then s.(calls := s.calls[t := WarmStop(r)])
      else if s.closed then Put(s, r, s.runners[r].(at := Crashed), t, StartPanicked)
      else
        var s' := Displace(s);
        Put(s', r, s'.runners[r].(at := InMap), t, Started(r)).(instances := s.instances[SHARED_KEY := r])
    case WarmStopOne(t) =>
      var r := s.calls[t].r;
      var rec := s.runners[r];
      Put(s, r, rec.(stops := rec.stops + 1, at := Stopped), t,
          if s.calls[t].WarmStop? then Started(r) else StartFailed)
  }

  predicate Legal(s: State, es: seq<Event>)
    decreases |es|
  {
    es == [] || (Enabled(s, es[0]) && Legal(Apply(s, es[0]), es[1..]))
  }

  function After(s: State, es: seq<Event>): State
    requires Legal(s, es)
    decreases |es|
  {
    if es == [] then s else After(Apply(s, es[0]), es[1..])
  }

  lemma {:induction false} AfterAppend(s: State, es: seq<Event>, more: seq<Event>)
    requires Legal(s, es) && Legal(After(s, es), more)
    ensures Legal(s, es + more) && After(s, es + more) == After(After(s, es), more)
    decreases |es|
  {
    hide Enabled, Apply;
    if es == [] {
      assert es + more == more;
    } else {
      AfterAppend(Apply(s, es[0]), es[1..], more);
      assert (es + more)[1..] == es[1..] + more;
    }
  }

  // ----------------------------------------------------------------- invariant

  /** The runners a call has yet to stop or to hand over. */
  function Holding(c: Call): set<nat> {
    match c
    case Reaping(todo) => todo
    case Stopping(r, todo) => todo + {r}
    case Warming(r) => {r}
    case WarmReady(r) => {r}
    case WarmFailed(r) => {r}
    case WarmStop(r) => {r}
    case _ => {}
  }

  /** Each runner is started and stopped at most once, and exactly one place answers
      for it. */
  predicate RunnerOk(s: State, r: nat)
    requires r < |s.runners|
  {
    var rec := s.runners[r];
    && rec.starts == (if rec.phase == Fresh then 0 else 1)
    && rec.stops == (if rec.at == Stopped then 1 else 0)
    && (rec.at == InMap <==> rec.key in s.instances && s.instances[rec.key] == r)
    && (rec.at.Held? ==> rec.at.t in s.calls && r in Holding(s.calls[rec.at.t]))
    && (rec.at == Displaced || rec.at == Crashed ==> s.shareSafe)
  }

  predicate KeyOk(s: State, k: string) {
    k in s.instances ==> s.instances[k] < |s.runners| && s.runners[s.instances[k]].key == k
  }

  predicate CallOk(s: State, t: nat)
    requires t in s.calls
  {
    var c := s.calls[t];
    && (forall r | r in Holding(c) :: r < |s.runners| && s.runners[r].at == Held(t))
    && match c
       case AtOnce(subject, r) => r < |s.runners| && s.runners[r].key == PartitionKey(s.shareSafe, subject)
       case InStart(subject, r) =>
         r < |s.runners| && s.runners[r].key == PartitionKey(s.shareSafe, subject)
         && s.runners[r].phase == Running && s.runners[r].starter == t
       case Returned(subject, r, ok) =>
         r < |s.runners| && s.runners[r].key == PartitionKey(s.shareSafe, subject)
         && s.runners[r].phase == if ok then Ready else Failed
       case Stopping(r, todo) => r !in todo && s.runners[r].phase == Ready
       case Warming(r) =>
         s.runners[r].phase == Running && s.runners[r].starter == t && Warmed(s, r)
       case WarmReady(r) => s.runners[r].phase == Ready && Warmed(s, r)
       case WarmFailed(r) => s.runners[r].phase == Failed
       case WarmStop(r) => s.runners[r].phase == Ready
       case Started(r) => r < |s.runners| && s.runners[r].phase == Ready
       case _ => true
  }

  predicate Warmed(s: State, r: nat)
    requires r < |s.runners|
  {
    s.runners[r].key == if s.shareSafe then SHARED_KEY else ""
  }

  ghost predicate Inv(s: State) {
    && (s.closed ==> s.instances == map[])
    && (forall r {:trigger RunnerOk(s, r)} | 0 <= r < |s.runners| :: RunnerOk(s, r))
    && (forall k {:trigger KeyOk(s, k)} :: KeyOk(s, k))
    && (forall t {:trigger CallOk(s, t)} | t in s.calls :: CallOk(s, t))
  }

  lemma CallFacts(s: State, t: nat)
    requires Inv(s) && t in s.calls
    ensures CallOk(s, t) && forall r | r in Holding(s.calls[t]) :: r < |s.runners| && RunnerOk(s, r)
  {
    assert CallOk(s, t);
  }

  lemma TakenAreInMap(s: State, keys: set<string>)
    requires Inv(s) && keys <= s.instances.Keys
    ensures forall k | k in keys :: s.instances[k] < |s.runners| && s.runners[s.instances[k]].at == InMap
    ensures forall k | k in keys :: s.runners[s.instances[k]].key == k
  {
    forall k | k in keys
      ensures s.instances[k] < |s.runners| && s.runners[s.instances[k]].at == InMap
      ensures s.runners[s.instances[k]].key == k
    {
      assert KeyOk(s, k) && RunnerOk(s, s.instances[k]);
    }
  }

  lemma StepKeepsInv(s: State, e: Event)
    requires Inv(s) && Enabled(s, e)
    ensures Inv(Apply(s, e))
  {
    StepKeepsKeys(s, e);
    match e
    case Lookup(_, _, _) => LookupKeepsRunners(s, e); LookupKeepsCalls(s, e);
    case LookupBuildFails(_, _) => LookupKeepsRunners(s, e); LookupKeepsCalls(s, e);
    case EnterOnce(_) => OnceKeepsRunners(s, e); OnceKeepsCalls(s, e);
    case JoinOnce(_) => OnceKeepsRunners(s, e); OnceKeepsCalls(s, e);
    case StartEnds(_, _) => OnceKeepsRunners(s, e); OnceKeepsCalls(s, e);
    case Evict(_, _) => ReapKeepsRunners(s, e); ReapKeepsCalls(s, e);
    case CloseAll(_) => ReapKeepsRunners(s, e); ReapKeepsCalls(s, e);
    case Check(_, _) => CheckKeepsRunners(s, e); CheckKeepsCalls(s, e);
    case StopOne(_) => StopKeepsRunners(s, e); StopKeepsCalls(s, e);
    case EndReap(_) => CheckKeepsRunners(s, e); CheckKeepsCalls(s, e);
    case WarmStopOne(_) => StopKeepsRunners(s, e); StopKeepsCalls(s, e);
    case Warm(_) => WarmKeepsRunners(s, e); WarmKeepsCalls(s, e);
    case WarmEnds(_, _) => WarmKeepsRunners(s, e); WarmKeepsCalls(s, e);
    case Install(_) => InstallKeepsRunners(s, e); InstallKeepsCalls(s, e);
  }

  lemma StepKeepsKeys(s: State, e: Event)
    requires Inv(s) && Enabled(s, e)
    ensures var t := Apply(s, e);
            (t.closed ==> t.instances == map[]) && forall k {:trigger KeyOk(t, k)} :: KeyOk(t, k)
  {
    var t := Apply(s, e);
    if e.t in s.calls { CallFacts(s, e.t); }
    if e.Install? { assert KeyOk(s, SHARED_KEY); }
    forall k ensures KeyOk(t, k) {
      assert KeyOk(s, k);
    }
  }

  lemma LookupKeepsRunners(s: State, e: Event)
    requires Inv(s) && Enabled(s, e) && (e.Lookup? || e.LookupBuildFails?)
    ensures var t := Apply(s, e); forall r {:trigger RunnerOk(t, r)} | 0 <= r < |t.runners| :: RunnerOk(t, r)
  {
    var t := Apply(s, e);
    if e.Lookup? { assert KeyOk(s, PartitionKey(s.shareSafe, e.subject)); }
    forall r | 0 <= r < |t.runners| ensures RunnerOk(t, r) {
      if r < |s.runners| {
        assert RunnerOk(s, r) && KeyOk(s, s.runners[r].key);
        if s.runners[r].at.Held? { CallFacts(s, s.runners[r].at.t); }
      } else {
        assert KeyOk(s, t.runners[r].key);
      }
    }
  }

  lemma LookupKeepsCalls(s: State, e: Event)
    requires Inv(s) && Enabled(s, e) && (e.Lookup? || e.LookupBuildFails?)
    ensures var t := Apply(s, e); forall c {:trigger CallOk(t, c)} | c in t.calls :: CallOk(t, c)
  {
    var t := Apply(s, e);
    if e.Lookup? { assert KeyOk(s, PartitionKey(s.shareSafe, e.subject)); }
    forall c | c in t.calls ensures CallOk(t, c) {
      if c in s.calls { CallFacts(s, c); }
    }
  }

  lemma OnceKeepsRunners(s: State, e: Event)
    requires Inv(s) && Enabled(s, e) && (e.EnterOnce? || e.JoinOnce? || e.StartEnds?)
    ensures var t := Apply(s, e); forall r {:trigger RunnerOk(t, r)} | 0 <= r < |t.runners| :: RunnerOk(t, r)
  {
    var t := Apply(s, e);
    CallFacts(s, e.t);
    forall r | 0 <= r < |t.runners| ensures RunnerOk(t, r) {
      if r < |s.runners| {
        assert RunnerOk(s, r) && KeyOk(s, s.runners[r].key);
        if s.runners[r].at.Held? { CallFacts(s, s.runners[r].at.t); }
      }
    }
  }

  lemma OnceKeepsCalls(s: State, e: Event)
    requires Inv(s) && Enabled(s, e) && (e.EnterOnce? || e.JoinOnce? || e.StartEnds?)
    ensures var t := Apply(s, e); forall c {:trigger CallOk(t, c)} | c in t.calls :: CallOk(t, c)
  {
    var t := Apply(s, e);
    CallFacts(s, e.t);
    hide RunnerOk, KeyOk, Victims, TakeOut, LookupIn, Displace;
    forall c | c in t.calls ensures CallOk(t, c) {
      if c in s.calls { CallFacts(s, c); }
    }
  }

  /** What EvictIdle or Close takes out of an open pool. */
  function Taken(s: State, e: Event): set<string>
    requires e.Evict? || e.CloseAll?
  {
    if e.CloseAll? then s.instances.Keys else Victims(s, e.cutoff)
  }

  lemma ReapIs(s: State, e: Event)
    requires Inv(s) && Enabled(s, e) && (e.Evict? || e.CloseAll?)
    ensures e.t !in s.calls
    ensures s.closed ==> Apply(s, e) == s.(calls := s.calls[e.t := Reaped])
    ensures !s.closed ==> Taken(s, e) <= s.instances.Keys
    ensures !s.closed ==> Apply(s, e) == TakeOut(s, e.t, Taken(s, e)).(closed := e.CloseAll?)
  {
  }

  /** A runner that is taken out was in the map under one of the keys; the others stay. */
  lemma TakenRunner(s: State, t: nat, keys: set<string>, r: nat)
    requires Inv(s) && keys <= s.instances.Keys && r < |s.runners|
    ensures var rs := set k | k in keys :: s.instances[k];
            && (r in rs <==> s.runners[r].at == InMap && s.runners[r].key in keys)
            && TakeOut(s, t, keys).runners[r] == if r in rs then s.runners[r].(at := Held(t)) else s.runners[r]
  {
    assert RunnerOk(s, r);
    TakenAreInMap(s, keys);
  }

  lemma ReapKeepsRunners(s: State, e: Event)
    requires Inv(s) && Enabled(s, e) && (e.Evict? || e.CloseAll?)
    ensures var t := Apply(s, e); forall r {:trigger RunnerOk(t, r)} | 0 <= r < |t.runners| :: RunnerOk(t, r)
  {
    hide Inv, Apply, Enabled, RunnerOk, TakeOut, Taken;
    ReapIs(s, e);
    forall r | 0 <= r < |Apply(s, e).runners| ensures RunnerOk(Apply(s, e), r) {
      SameNumber(s, e);
      ReapKeepsRunner(s, e, r);
    }
  }

  lemma SameNumber(s: State, e: Event)
    requires Enabled(s, e) && (e.Evict? || e.CloseAll?)
    ensures |Apply(s, e).runners| == |s.runners|
  {
  }

  lemma ReapKeepsRunner(s: State, e: Event, r: nat)
    requires Inv(s) && Enabled(s, e) && (e.Evict? || e.CloseAll?) && r < |Apply(s, e).runners| == |s.runners|
    ensures RunnerOk(Apply(s, e), r)
  {
    hide Inv, Apply, Enabled, Taken, KeyOk, HandTo;
    RunnerFact(s, r);
    ReapIs(s, e);
    if s.runners[r].at.Held? { CallFacts(s, s.runners[r].at.t); }
    if !s.closed { TakenRunner(s, e.t, Taken(s, e), r); }
  }

  lemma RunnerFact(s: State, r: nat)
    requires Inv(s) && r < |s.runners|
    ensures RunnerOk(s, r)
  {
  }

  lemma ReapKeepsCalls(s: State, e: Event)
    requires Inv(s) && Enabled(s, e) && (e.Evict? || e.CloseAll?)
    ensures var t := Apply(s, e); forall c {:trigger CallOk(t, c)} | c in t.calls :: CallOk(t, c)
  {
    hide Inv, Apply, Enabled, CallOk, RunnerOk;
    forall c | c in Apply(s, e).calls ensures CallOk(Apply(s, e), c) {
      ReapKeepsCall(s, e, c);
    }
  }

  lemma ReapKeepsCall(s: State, e: Event, c: nat)
    requires Inv(s) && Enabled(s, e) && (e.Evict? || e.CloseAll?) && c in Apply(s, e).calls
    ensures CallOk(Apply(s, e), c)
  {
    hide Inv, Apply, Enabled, Taken, KeyOk, RunnerOk, CallOk, TakeOut;
    ReapIs(s, e);
    if s.closed {
      if c == e.t { ReapedIsOk(Apply(s, e), c); } else { UntouchedCall(s, Apply(s, e), c); }
    } else {
      TakeOutIs(s, e.t, Taken(s, e));
      if c == e.t { ReapingIsOk(Apply(s, e), c); } else { UntouchedCall(s, Apply(s, e), c); }
    }
  }

  lemma ReapedIsOk(s: State, c: nat)
    requires c in s.calls && s.calls[c] == Reaped
    ensures CallOk(s, c)
  {
  }

  lemma ReapingIsOk(s: State, c: nat)
    requires c in s.calls && s.calls[c].Reaping?
    requires forall r | r in s.calls[c].todo :: r < |s.runners| && s.runners[r].at == Held(c)
    ensures CallOk(s, c)
  {
  }

  lemma TakeOutIs(s: State, t: nat, keys: set<string>)
    requires Inv(s) && keys <= s.instances.Keys
    ensures var f := TakeOut(s, t, keys);
            && f.shareSafe == s.shareSafe && |f.runners| == |s.runners|
            && t in f.calls && f.calls == s.calls[t := f.calls[t]] && f.calls[t].Reaping?
            && (forall r | r in f.calls[t].todo :: r < |f.runners| && f.runners[r].at == Held(t))
            && (forall r | 0 <= r < |s.runners| :: SameButPlace(s.runners[r], f.runners[r]))
  {
    hide Inv;
    TakenAreInMap(s, keys);
  }

  /** Only who answers for it may differ, and that only if it was in the map. */
  predicate SameButPlace(was: Runner, now: Runner) {
    now == was.(at := now.at) && (was.at != InMap ==> now.at == was.at)
  }

  /** A call stays in order when its runners do. */
  lemma UntouchedCall(s: State, f: State, c: nat)
    requires Inv(s) && c in s.calls && c in f.calls && f.calls[c] == s.calls[c] && f.shareSafe == s.shareSafe
    requires |f.runners| == |s.runners| && forall r | 0 <= r < |s.runners| :: SameButPlace(s.runners[r], f.runners[r])
    ensures CallOk(f, c)
  {
    CallFacts(s, c);
    hide Inv, RunnerOk;
  }

  lemma CheckKeepsRunners(s: State, e: Event)
    requires Inv(s) && Enabled(s, e) && (e.Check? || e.EndReap?)
    ensures var t := Apply(s, e); forall r {:trigger RunnerOk(t, r)} | 0 <= r < |t.runners| :: RunnerOk(t, r)
  {
    var t := Apply(s, e);
    CallFacts(s, e.t);
    forall r | 0 <= r < |t.runners| ensures RunnerOk(t, r) {
      if r < |s.runners| {
        assert RunnerOk(s, r) && KeyOk(s, s.runners[r].key);
        if s.runners[r].at.Held? { CallFacts(s, s.runners[r].at.t); }
      }
    }
  }

  lemma CheckKeepsCalls(s: State, e: Event)
    requires Inv(s) && Enabled(s, e) && (e.Check? || e.EndReap?)
    ensures var t := Apply(s, e); forall c {:trigger CallOk(t, c)} | c in t.calls :: CallOk(t, c)
  {
    forall c | c in Apply(s, e).calls ensures CallOk(Apply(s, e), c) {
      CheckKeepsCall(s, e, c);
    }
  }

  /** What a look at a started flag, or the end of the looking, comes to. */
  lemma CheckIs(s: State, e: Event)
    requires Enabled(s, e) && (e.Check? || e.EndReap?)
    ensures e.t in s.calls && s.calls[e.t].Reaping?
    ensures e.EndReap? ==> Apply(s, e) == s.(calls := s.calls[e.t := Reaped])
    ensures e.Check? ==>
              var todo := s.calls[e.t].todo - {e.r};
              && e.r in s.calls[e.t].todo && e.r < |s.runners|
              && Apply(s, e) == if s.runners[e.r].phase == Ready then s.(calls := s.calls[e.t := Stopping(e.r, todo)])
                                else Put(s, e.r, s.runners[e.r].(at := Passed), e.t, Reaping(todo))
  {
  }

  lemma CheckKeepsHolding(s: State, e: Event, c: nat)
    requires Inv(s) && Enabled(s, e) && (e.Check? || e.EndReap?) && c in Apply(s, e).calls
    ensures var t := Apply(s, e); forall r | r in Holding(t.calls[c]) :: r < |t.runners| && t.runners[r].at == Held(c)
  {
    CheckIs(s, e);
    hide Apply, Enabled, Inv, RunnerOk;
    CallFacts(s, e.t);
    CallFacts(s, c);
    var t := Apply(s, e);
    assert e.Check? ==> e.r in Holding(s.calls[e.t]) && s.runners[e.r].at == Held(e.t);
    forall r | r in Holding(t.calls[c]) ensures r < |t.runners| && t.runners[r].at == Held(c) {
      assert r in Holding(s.calls[c]) && s.runners[r].at == Held(c);
    }
  }

  lemma CheckKeepsCall(s: State, e: Event, c: nat)
    requires Inv(s) && Enabled(s, e) && (e.Check? || e.EndReap?) && c in Apply(s, e).calls
    ensures CallOk(Apply(s, e), c)
  {
    CheckIs(s, e);
    CheckKeepsHolding(s, e, c);
    hide Apply, Enabled, Inv, RunnerOk;
    CallFacts(s, c);
  }

  lemma StopKeepsRunners(s: State, e: Event)
    requires Inv(s) && Enabled(s, e) && (e.StopOne? || e.WarmStopOne?)
    ensures var t := Apply(s, e); forall r {:trigger RunnerOk(t, r)} | 0 <= r < |t.runners| :: RunnerOk(t, r)
  {
    var t := Apply(s, e);
    CallFacts(s, e.t);
    forall r | 0 <= r < |t.runners| ensures RunnerOk(t, r) {
      if r < |s.runners| {
        assert RunnerOk(s, r) && KeyOk(s, s.runners[r].key);
        if s.runners[r].at.Held? { CallFacts(s, s.runners[r].at.t); }
      }
    }
  }

  lemma StopKeepsCalls(s: State, e: Event)
    requires Inv(s) && Enabled(s, e) && (e.StopOne? || e.WarmStopOne?)
    ensures var t := Apply(s, e); forall c {:trigger CallOk(t, c)} | c in t.calls :: CallOk(t, c)
  {
    forall c | c in Apply(s, e).calls ensures CallOk(Apply(s, e), c) {
      StopKeepsCall(s, e, c);
    }
  }

  /** What a Stop that comes back leaves behind. */
  lemma StopIs(s: State, e: Event)
    requires Enabled(s, e) && (e.StopOne? || e.WarmStopOne?)
    ensures e.t in s.calls && s.calls[e.t].r < |s.runners| && s.calls[e.t].r in Holding(s.calls[e.t])
    ensures var r, rec, f := s.calls[e.t].r, s.runners[s.calls[e.t].r], Apply(s, e);
            && e.t in f.calls && f == Put(s, r, rec.(stops := rec.stops + 1, at := Stopped), e.t, f.calls[e.t])
            && f.calls[e.t] == match s.calls[e.t]
                               case Stopping(_, todo) => Reaping(todo)
                               case WarmStop(_) => Started(r)
                               case _ => StartFailed
  {
  }

  lemma StopKeepsCall(s: State, e: Event, c: nat)
    requires Inv(s) && Enabled(s, e) && (e.StopOne? || e.WarmStopOne?) && c in Apply(s, e).calls
    ensures CallOk(Apply(s, e), c)
  {
    StopIs(s, e);
    hide Apply, Enabled, Inv, RunnerOk;
    CallFacts(s, e.t);
    CallFacts(s, c);
    var f, stopped := Apply(s, e), s.calls[e.t].r;
    assert s.runners[stopped].at == Held(e.t);
    forall r | r in Holding(f.calls[c]) ensures r < |f.runners| && f.runners[r].at == Held(c) {
      assert r in Holding(s.calls[c]) && s.runners[r].at == Held(c) && r != stopped;
    }
  }

  lemma WarmKeepsRunners(s: State, e: Event)
    requires Inv(s) && Enabled(s, e) && (e.Warm? || e.WarmEnds?)
    ensures var t := Apply(s, e); forall r {:trigger RunnerOk(t, r)} | 0 <= r < |t.runners| :: RunnerOk(t, r)
  {
    var t := Apply(s, e);
    if e.WarmEnds? { CallFacts(s, e.t); }
    forall r | 0 <= r < |t.runners| ensures RunnerOk(t, r) {
      if r < |s.runners| {
        assert RunnerOk(s, r) && KeyOk(s, s.runners[r].key);
        if s.runners[r].at.Held? { CallFacts(s, s.runners[r].at.t); }
      } else {
        assert KeyOk(s, t.runners[r].key);
      }
    }
  }

  lemma WarmKeepsCalls(s: State, e: Event)
    requires Inv(s) && Enabled(s, e) && (e.Warm? || e.WarmEnds?)
    ensures var t := Apply(s, e); forall c {:trigger CallOk(t, c)} | c in t.calls :: CallOk(t, c)
  {
    var t := Apply(s, e);
    if e.WarmEnds? { CallFacts(s, e.t); }
    forall c | c in t.calls ensures CallOk(t, c) {
      if c in s.calls { CallFacts(s, c); }
    }
  }

  lemma InstallKeepsRunners(s: State, e: Event)
    requires Inv(s) && Enabled(s, e) && e.Install?
    ensures var t := Apply(s, e); forall r {:trigger RunnerOk(t, r)} | 0 <= r < |t.runners| :: RunnerOk(t, r)
  {
    var t := Apply(s, e);
    CallFacts(s, e.t);
    if SHARED_KEY in s.instances { SharedEntry(s); }
    forall r | 0 <= r < |t.runners| ensures RunnerOk(t, r) {
      if r < |s.runners| {
        assert RunnerOk(s, r) && KeyOk(s, s.runners[r].key);
        if s.runners[r].at.Held? { CallFacts(s, s.runners[r].at.t); }
      }
    }
  }

  lemma InstallKeepsCalls(s: State, e: Event)
    requires Inv(s) && Enabled(s, e) && e.Install?
    ensures var t := Apply(s, e); forall c {:trigger CallOk(t, c)} | c in t.calls :: CallOk(t, c)
  {
    var t := Apply(s, e);
    CallFacts(s, e.t);
    if SHARED_KEY in s.instances { SharedEntry(s); }
    forall c | c in t.calls ensures CallOk(t, c) {
      CallFacts(s, c);
    }
  }

  lemma SharedEntry(s: State)
    requires Inv(s) && SHARED_KEY in s.instances
    ensures var r := s.instances[SHARED_KEY];
            r < |s.runners| && s.runners[r].at == InMap && s.runners[r].key == SHARED_KEY
  {
    assert KeyOk(s, SHARED_KEY);
    assert RunnerOk(s, s.instances[SHARED_KEY]);
  }

  lemma {:induction false} RunsKeepInv(s: State, es: seq<Event>)
    requires Inv(s) && Legal(s, es)
    ensures Inv(After(s, es))
    decreases |es|
  {
    if es != [] {
      StepKeepsInv(s, es[0]);
      RunsKeepInv(Apply(s, es[0]), es[1..]);
    }
  }

  /** The state a run of a new pool leads to. */
  ghost predicate Reached(shareSafe: bool, es: seq<Event>, s: State) {
    Legal(Start(shareSafe), es) && After(Start(shareSafe), es) == s
  }

  lemma ReachedInv(shareSafe: bool, es: seq<Event>, s: State)
    requires Reached(shareSafe, es, s)
    ensures Inv(s) && s.shareSafe == shareSafe
  {
    RunsKeepInv(Start(shareSafe), es);
    ModeIsFixed(Start(shareSafe), es);
  }

  lemma {:induction false} ModeIsFixed(s: State, es: seq<Event>)
    requires Legal(s, es)
    ensures After(s, es).shareSafe == s.shareSafe
    decreases |es|
  {
    if es != [] {
      ModeIsFixed(Apply(s, es[0]), es[1..]);
    }
  }

  /** A start that is under way is some call's: the one that entered startOnce, or Start. */
  predicate StarterAtWork(s: State, r: nat)
    requires r < |s.runners|
  {
    var t := s.runners[r].starter;
    s.runners[r].phase == Running ==>
      t in s.calls && ((s.calls[t].InStart? && s.calls[t].r == r) || s.calls[t] == Warming(r))
  }

  ghost predicate StartersAtWork(s: State) {
    forall r {:trigger StarterAtWork(s, r)} | 0 <= r < |s.runners| :: StarterAtWork(s, r)
  }

  lemma StepKeepsStarter(s: State, e: Event, r: nat)
    requires Inv(s) && Enabled(s, e) && r < |Apply(s, e).runners|
    requires r < |s.runners| ==> StarterAtWork(s, r)
    ensures StarterAtWork(Apply(s, e), r)
  {
    if Apply(s, e).runners[r].phase == Running {
      RunningStep(s, e, r);
      if r < |s.runners| && s.runners[r].phase == Running {
        StartStep(s, e, s.runners[r].starter);
      }
    }
    hide Apply, Inv;
  }

  /** A runner whose start is under way was being started before, or the event starts it. */
  lemma RunningStep(s: State, e: Event, r: nat)
    requires Enabled(s, e) && r < |Apply(s, e).runners| && Apply(s, e).runners[r].phase == Running
    ensures var t := Apply(s, e);
            || (r < |s.runners| && s.runners[r].phase == Running && t.runners[r].starter == s.runners[r].starter
                && !((e.StartEnds? || e.WarmEnds?) && s.calls[e.t].r == r))
            || (t.runners[r].starter == e.t && e.t in t.calls
                && ((t.calls[e.t].InStart? && t.calls[e.t].r == r) || t.calls[e.t] == Warming(r)))
  {
    hide Victims;
  }

  /** A call inside a start stays there until that start ends. */
  lemma StartStep(s: State, e: Event, u: nat)
    requires Enabled(s, e) && u in s.calls && (s.calls[u].InStart? || s.calls[u].Warming?)
    ensures u in Apply(s, e).calls
    ensures Apply(s, e).calls[u] == s.calls[u] || ((e.StartEnds? || e.WarmEnds?) && e.t == u)
  {
    hide Victims, HandTo;
  }

  lemma {:induction false} RunsKeepStarters(s: State, es: seq<Event>)
    requires Inv(s) && StartersAtWork(s) && Legal(s, es)
    ensures Inv(After(s, es)) && StartersAtWork(After(s, es))
    decreases |es|
  {
    if es != [] {
      var t := Apply(s, es[0]);
      StepKeepsInv(s, es[0]);
      hide Inv, Enabled, Apply, StarterAtWork;
      forall r | 0 <= r < |t.runners| ensures StarterAtWork(t, r) {
        assert r < |s.runners| ==> StarterAtWork(s, r);
        StepKeepsStarter(s, es[0], r);
      }
      RunsKeepStarters(t, es[1..]);
    }
  }

  /** Who starts an instance that is in the map is a RunnerFor inside its startOnce. */
  lemma MappedStarter(s: State, k: string)
    requires Inv(s) && StartersAtWork(s) && k in s.instances
    ensures s.instances[k] < |s.runners|
    ensures var r := s.instances[k];
            s.runners[r].phase == Running ==>
              var t := s.runners[r].starter; t in s.calls && s.calls[t].InStart? && s.calls[t].r == r
  {
    assert KeyOk(s, k) && RunnerOk(s, s.instances[k]) && StarterAtWork(s, s.instances[k]);
    var t := s.runners[s.instances[k]].starter;
    if t in s.calls { CallFacts(s, t); }
  }

  // ----------------------------------------------------------------- ownership

  /** A runner in the map has not been stopped, the map of a closed pool is empty,
      and no runner is started or stopped twice. */
  lemma PoolOwnsWhatItHolds(shareSafe: bool, es: seq<Event>, s: State)
    requires Reached(shareSafe, es, s)
    ensures forall k | k in s.instances ::
              !s.closed && s.instances[k] < |s.runners| && s.runners[s.instances[k]].stops == 0
    ensures forall r | 0 <= r < |s.runners| :: s.runners[r].starts <= 1 && s.runners[r].stops <= 1
  {
    ReachedInv(shareSafe, es, s);
    forall k | k in s.instances
      ensures !s.closed && s.instances[k] < |s.runners| && s.runners[s.instances[k]].stops == 0
    {
      assert KeyOk(s, k) && RunnerOk(s, s.instances[k]);
    }
    forall r | 0 <= r < |s.runners| ensures s.runners[r].starts <= 1 && s.runners[r].stops <= 1 {
      assert RunnerOk(s, r);
    }
  }

  /** No call has a runner left to stop or to hand over. */
  ghost predicate Quiet(s: State) {
    forall t | t in s.calls :: Holding(s.calls[t]) == {}
  }

  /** When the pool is closed and every EvictIdle, Close and Start has returned, a
      started runner is still live if and only if it was passed over before its start
      was over, or lost by a Start that raced with the other calls. */
  lemma LiveAfterCloseIff(shareSafe: bool, es: seq<Event>, s: State, r: nat)
    requires Reached(shareSafe, es, s) && s.closed && Quiet(s)
    requires r < |s.runners| && s.runners[r].phase == Ready
    ensures s.runners[r].stops == 0 <==> s.runners[r].at in {Passed, Displaced, Crashed}
  {
    ReachedInv(shareSafe, es, s);
    assert RunnerOk(s, r);
  }

  /** A runner that was ready in time is never passed over. */
  lemma {:induction false} ReadyIsNotPassedOver(s: State, es: seq<Event>, r: nat)
    requires Inv(s) && Legal(s, es) && r < |s.runners| && s.runners[r].phase == Ready && s.runners[r].at != Passed
    ensures var t := After(s, es); r < |t.runners| && t.runners[r].phase == Ready && t.runners[r].at != Passed
    decreases |es|
  {
    if es != [] {
      StepKeepsInv(s, es[0]);
      if es[0].t in s.calls { CallFacts(s, es[0].t); }
      ReadyIsNotPassedOver(Apply(s, es[0]), es[1..], r);
    }
  }

  predicate StartingUp(c: Call) {
    c.Warming? || c.WarmReady? || c.WarmFailed? || c.WarmStop?
  }

  predicate Lost(rec: Runner) {
    rec.at == Displaced || rec.at == Crashed
  }

  /** Start is over, as in the server, which calls it before it listens. */
  ghost predicate Serving(s: State) {
    && (forall t | t in s.calls :: !StartingUp(s.calls[t]))
    && (forall r | 0 <= r < |s.runners| :: !Lost(s.runners[r]))
  }

  lemma ServingStep(s: State, e: Event)
    requires Serving(s) && Enabled(s, e) && !e.Warm?
    ensures Serving(Apply(s, e))
  {
    hide Victims;
    var t := Apply(s, e);
    forall r | 0 <= r < |t.runners| ensures !Lost(t.runners[r]) {
      assert r < |s.runners| ==> !Lost(s.runners[r]);
    }
  }

  /** The server's own start-up, which is over before it listens, leaves a pool that
      is serving; in shared mode the warm-up runner is in the map, in isolate mode it
      is stopped. */
  lemma StartupServes(shareSafe: bool) returns (es: seq<Event>, s: State)
    ensures Reached(shareSafe, es, s) && Inv(s) && Serving(s) && !s.closed
    ensures |s.runners| == 1 && s.runners[0].phase == Ready
    ensures shareSafe ==> s.instances == map[SHARED_KEY := 0] && s.runners[0].stops == 0
    ensures !shareSafe ==> s.instances == map[] && s.runners[0].stops == 1
  {
    es, s := StartupRun(shareSafe);
    ReachedInv(shareSafe, es, s);
  }

  lemma StartupRun(shareSafe: bool) returns (es: seq<Event>, s: State)
    ensures Reached(shareSafe, es, s) && !s.closed && s.calls == map[0 := Started(0)]
    ensures |s.runners| == 1 && s.runners[0].phase == Ready
    ensures shareSafe ==> s.instances == map[SHARED_KEY := 0] && s.runners[0].stops == 0 && s.runners[0].at == InMap
    ensures !shareSafe ==> s.instances == map[] && s.runners[0].stops == 1 && s.runners[0].at == Stopped
  {
    var s1 := Apply(Start(shareSafe), Warm(0));
    var s2 := Apply(s1, WarmEnds(0, true));
    assert |s2.runners| == 1 && s2.runners[0] == s1.runners[0].(phase := Ready);
    var s3 := Apply(s2, Install(0));
    assert |s3.runners| == 1;
    var last := [];
    if !shareSafe {
      assert s3.calls == map[0 := WarmStop(0)];
      last := [WarmStopOne(0)];
      Begin(s3, WarmStopOne(0), []);
      assert [WarmStopOne(0)] + [] == last;
    }
    s := After(s3, last);
    assert s.calls == map[0 := Started(0)];
    es := Prefix(shareSafe, s1, s2, s3, last);
  }

  lemma Prefix(shareSafe: bool, s1: State, s2: State, s3: State, last: seq<Event>) returns (es: seq<Event>)
    requires Enabled(Start(shareSafe), Warm(0)) && s1 == Apply(Start(shareSafe), Warm(0))
    requires Enabled(s1, WarmEnds(0, true)) && s2 == Apply(s1, WarmEnds(0, true))
    requires Enabled(s2, Install(0)) && s3 == Apply(s2, Install(0)) && Legal(s3, last)
    ensures Reached(shareSafe, es, After(s3, last))
  {
    hide Enabled, Apply, Legal, After;
    Begin(s2, Install(0), last);
    Begin(s1, WarmEnds(0, true), [Install(0)] + last);
    Begin(Start(shareSafe), Warm(0), [WarmEnds(0, true)] + ([Install(0)] + last));
    es := [Warm(0)] + ([WarmEnds(0, true)] + ([Install(0)] + last));
  }

  lemma {:induction false} ServingLosesNothing(s: State, es: seq<Event>)
    requires Inv(s) && Serving(s) && Legal(s, es) && forall e | e in es :: !e.Warm?
    ensures Serving(After(s, es))
    decreases |es|
  {
    if es != [] {
      StepKeepsInv(s, es[0]);
      ServingStep(s, es[0]);
      ServingLosesNothing(Apply(s, es[0]), es[1..]);
    }
  }

  /** What a server does with its pool once start-up is over. */
  ghost predicate ServerRun(s: State, es: seq<Event>, f: State) {
    Inv(s) && Serving(s) && Legal(s, es) && After(s, es) == f && forall e | e in es :: !e.Warm?
  }

  /** In a server's life a started runner survives Close only if its start ended
      after EvictIdle or Close had looked: every runner that was ready at some earlier
      moment, and not yet passed over, has been stopped exactly once. */
  lemma CloseStopsWhatWasReady(s: State, es: seq<Event>, f: State, r: nat)
    requires ServerRun(s, es, f) && f.closed && Quiet(f)
    requires r < |s.runners| && s.runners[r].phase == Ready && s.runners[r].at != Passed
    ensures r < |f.runners| && f.runners[r].stops == 1
  {
    RunsKeepInv(s, es);
    ServingLosesNothing(s, es);
    ReadyIsNotPassedOver(s, es, r);
    assert RunnerOk(f, r);
  }

  /** In the run, EvictIdle or Close looked at the runner's started flag while it was not
      set. */
  predicate LookedAtTooEarly(s: State, es: seq<Event>, r: nat)
    requires Legal(s, es)
    decreases |es|
  {
    es != [] &&
    (|| (es[0].Check? && es[0].r == r && r < |s.runners| && s.runners[r].phase != Ready)
     || LookedAtTooEarly(Apply(s, es[0]), es[1..], r))
  }

  lemma PassedStep(s: State, e: Event, r: nat)
    requires Inv(s) && Enabled(s, e) && r < |Apply(s, e).runners|
    ensures Apply(s, e).runners[r].at == Passed
            <==> r < |s.runners| && (s.runners[r].at == Passed || (e.Check? && e.r == r && s.runners[r].phase != Ready))
  {
    if r < |s.runners| {
      assert RunnerOk(s, r);
      if e.t in s.calls { CallFacts(s, e.t); }
      if e.Evict? && !s.closed { TakenAreInMap(s, Victims(s, e.cutoff)); }
      if e.CloseAll? && !s.closed { TakenAreInMap(s, s.instances.Keys); }
      if e.Install? && SHARED_KEY in s.instances { SharedEntry(s); }
    }
  }

  lemma RunnersGrow(s: State, e: Event)
    requires Enabled(s, e)
    ensures |s.runners| <= |Apply(s, e).runners|
  {
  }

  lemma {:induction false} PassedIffLookedAt(s: State, es: seq<Event>, r: nat)
    requires Inv(s) && Legal(s, es) && r < |After(s, es).runners|
    ensures After(s, es).runners[r].at == Passed
            <==> (r < |s.runners| && s.runners[r].at == Passed) || LookedAtTooEarly(s, es, r)
    decreases |es|
  {
    if es != [] {
      var t := Apply(s, es[0]);
      StepKeepsInv(s, es[0]);
      hide Enabled, Apply, Inv;
      PassedIffLookedAt(t, es[1..], r);
      RunnersGrow(s, es[0]);
      if r < |t.runners| {
        PassedStep(s, es[0], r);
      }
    }
  }

  /** Exactly which started runners outlive the pool: with start-up over, and Close and
      every EvictIdle back, a started runner has not been stopped if and only if one of
      them had looked at it before its start was over. */
  lemma LiveIffLookedAtTooEarly(s: State, es: seq<Event>, f: State, r: nat)
    requires ServerRun(s, es, f) && f.closed && Quiet(f)
    requires forall q | 0 <= q < |s.runners| :: s.runners[q].at != Passed
    requires r < |f.runners| && f.runners[r].phase == Ready
    ensures f.runners[r].stops == 0 <==> LookedAtTooEarly(s, es, r)
  {
    RunsKeepInv(s, es);
    ServingLosesNothing(s, es);
    PassedIffLookedAt(s, es, r);
    assert RunnerOk(f, r) && !Lost(f.runners[r]);
  }

  lemma Begin(s: State, e: Event, rest: seq<Event>)
    requires Enabled(s, e) && Legal(Apply(s, e), rest)
    ensures Legal(s, [e] + rest) && After(s, [e] + rest) == After(Apply(s, e), rest)
  {
    assert ([e] + rest)[1..] == rest;
  }

  /** And such a runner exists: Close looks while the first request is still
      starting it. */
  lemma LateStartIsLeaked() returns (es: seq<Event>, s: State)
    ensures Reached(false, es, s) && s.closed && Quiet(s)
    ensures |s.runners| == 1 && s.runners[0].phase == Ready && s.runners[0].stops == 0
  {
    var key := PartitionKey(false, "alice");
    var look := Lookup(0, "alice", 1.0);
    var s1 := Apply(Start(false), look);
    assert s1 == State(false, false, map[key := 0], [Runner(key, Fresh, 1.0, 0, 0, 0, InMap)],
                       map[0 := AtOnce("alice", 0)]);
    var s2 := Apply(s1, EnterOnce(0));
    var rec := Runner(key, Running, 1.0, 1, 0, 0, InMap);
    var rest := LateStartTail(s2, key, rec);
    Begin(s1, EnterOnce(0), rest);
    Begin(Start(false), look, [EnterOnce(0)] + rest);
    es := [look] + ([EnterOnce(0)] + rest);
    s := After(s2, rest);
  }

  lemma LateStartTail(s2: State, key: string, rec: Runner) returns (rest: seq<Event>)
    requires s2 == State(false, false, map[key := 0], [rec], map[0 := InStart("alice", 0)])
    requires rec == Runner(key, Running, 1.0, 1, 0, 0, InMap)
    ensures Legal(s2, rest)
    ensures var s := After(s2, rest);
            s.closed && Quiet(s) && |s.runners| == 1 && s.runners[0].phase == Ready && s.runners[0].stops == 0
  {
    hide LookupIn, Victims, Displace;
    var rs := set k | k in s2.instances.Keys :: s2.instances[k];
    assert rs == {0} by { assert key in s2.instances.Keys; }
    var s3 := Apply(s2, CloseAll(1));
    assert s3.runners == [rec.(at := Held(1))];
    assert s3.calls == map[0 := InStart("alice", 0), 1 := Reaping({0})];
    var last := LateStartEnd(s3, rec);
    Begin(s2, CloseAll(1), last);
    rest := [CloseAll(1)] + last;
  }

  lemma LateStartEnd(s3: State, rec: Runner) returns (rest: seq<Event>)
    requires rec == Runner(rec.key, Running, 1.0, 1, 0, 0, InMap) && s3.closed && s3.runners == [rec.(at := Held(1))]
    requires s3.calls == map[0 := InStart("alice", 0), 1 := Reaping({0})]
    ensures Legal(s3, rest)
    ensures var s := After(s3, rest);
            s.closed && Quiet(s) && |s.runners| == 1 && s.runners[0].phase == Ready && s.runners[0].stops == 0
  {
    hide LookupIn, Victims, Displace, TakeOut;
    assert s3.calls[1].todo - {0} == {};
    var s4 := Apply(s3, Check(1, 0));
    assert s4.runners == [rec.(at := Passed)];
    assert s4.calls == map[0 := InStart("alice", 0), 1 := Reaping({})];
    var s5 := Apply(s4, EndReap(1));
    var last := StartEnds(0, true);
    Begin(s5, last, []);
    Begin(s4, EndReap(1), [last] + []);
    Begin(s3, Check(1, 0), [EndReap(1)] + ([last] + []));
    rest := [Check(1, 0)] + ([EndReap(1)] + ([last] + []));
  }

  // ------------------------------------------------------------------- routing

  /** Isolate mode: two subjects never get the same runner, in any run. */
  lemma IsolateSeparatesSubjects(es: seq<Event>, s: State, t: nat, u: nat)
    requires Reached(false, es, s) && t in s.calls && u in s.calls
    requires s.calls[t].Returned? && s.calls[u].Returned? && s.calls[t].r == s.calls[u].r
    ensures s.calls[t].subject == s.calls[u].subject
  {
    ReachedInv(false, es, s);
    CallFacts(s, t);
    CallFacts(s, u);
    KeysTellSubjects(s.calls[t].subject, s.calls[u].subject);
  }

  lemma KeysTellSubjects(a: string, b: string)
    requires PartitionKey(false, a) == PartitionKey(false, b)
    ensures a == b
  {
    assert ("subj:" + a)[5..] == a && ("subj:" + b)[5..] == b;
  }

  /** RunnerFor hands out a runner only after its one start succeeded, and all callers
      of an instance hear the same outcome. */
  lemma RunnerForAgrees(shareSafe: bool, es: seq<Event>, s: State, t: nat, u: nat)
    requires Reached(shareSafe, es, s) && t in s.calls && u in s.calls
    requires s.calls[t].Returned? && s.calls[u].Returned? && s.calls[t].r == s.calls[u].r
    ensures s.calls[t].ok == s.calls[u].ok && s.calls[t].r < |s.runners|
    ensures s.calls[t].ok ==> s.runners[s.calls[t].r].phase == Ready && s.runners[s.calls[t].r].starts == 1
  {
    ReachedInv(shareSafe, es, s);
    CallFacts(s, t);
    CallFacts(s, u);
    assert RunnerOk(s, s.calls[t].r);
  }

  /** Shared mode: once Start has put its runner in the map, every RunnerFor that
      begins later gets that runner or, after Close, none; the map holds it until
      then. */
  lemma {:induction false} SharedModeServesOneRunner(s: State, es: seq<Event>, warm: nat, before: set<nat>)
    requires Inv(s) && s.shareSafe && Legal(s, es) && forall e | e in es :: !e.Warm?
    requires forall t | t in s.calls :: !StartingUp(s.calls[t])
    requires warm < |s.runners| && s.runners[warm].phase == Ready
    requires s.closed || (SHARED_KEY in s.instances && s.instances[SHARED_KEY] == warm)
    requires forall t | t in s.calls && t !in before :: ServedBy(s.calls[t], warm)
    ensures var f := After(s, es);
            && (f.closed || (SHARED_KEY in f.instances && f.instances[SHARED_KEY] == warm))
            && (forall t | t in f.calls && t !in before :: ServedBy(f.calls[t], warm))
    decreases |es|
  {
    if es != [] {
      StepKeepsInv(s, es[0]);
      SharedEntryStays(s, es[0], warm);
      OthersStay(s, es[0], warm);
      SharedModeServesOneRunner(Apply(s, es[0]), es[1..], warm, before);
    }
  }

  lemma SharedEntryStays(s: State, e: Event, warm: nat)
    requires Inv(s) && s.shareSafe && Enabled(s, e) && !e.Warm? && !e.Install?
    requires warm < |s.runners| && s.runners[warm].phase == Ready
    requires s.closed || (SHARED_KEY in s.instances && s.instances[SHARED_KEY] == warm)
    ensures var f := Apply(s, e);
            && f.shareSafe && warm < |f.runners| && f.runners[warm].phase == Ready
            && (f.closed || (SHARED_KEY in f.instances && f.instances[SHARED_KEY] == warm))
  {
    if e.t in s.calls { CallFacts(s, e.t); }
  }

  lemma OthersStay(s: State, e: Event, warm: nat)
    requires s.shareSafe && Enabled(s, e) && !e.Warm?
    requires forall t | t in s.calls :: !StartingUp(s.calls[t])
    requires warm < |s.runners| && s.runners[warm].phase == Ready
    requires s.closed || (SHARED_KEY in s.instances && s.instances[SHARED_KEY] == warm)
    ensures var f := Apply(s, e);
            && f.calls.Keys == s.calls.Keys + {e.t} && !StartingUp(f.calls[e.t])
            && ((e.t in s.calls ==> ServedBy(s.calls[e.t], warm)) ==> ServedBy(f.calls[e.t], warm))
            && (forall t | t in s.calls && t != e.t :: f.calls[t] == s.calls[t])
  {
    hide Victims, HandTo;
  }

  predicate ServedBy(c: Call, warm: nat) {
    match c
    case AtOnce(_, r) => r == warm
    case InStart(_, r) => false
    case Returned(_, r, ok) => r == warm && ok
    case _ => true
  }

  // ------------------------------------------ how long a subject keeps its runner

  /** When the subject was last looked up, if that was at time seen before the event. */
  function SeenBy(seen: real, e: Event, subject: string): real {
    if e.Lookup? && e.subject == subject then e.now else seen
  }

  /** The event takes the runner of a subject last looked up at time seen out of the map. */
  predicate Expels(seen: real, e: Event) {
    e.CloseAll? || (e.Evict? && seen < e.cutoff)
  }

  /** In the run, the pool is closed, or the cutoff of an EvictIdle passes the last lookup
      of the subject before it. */
  predicate Expelled(seen: real, es: seq<Event>, subject: string)
    decreases |es|
  {
    es != [] && (Expels(seen, es[0]) || Expelled(SeenBy(seen, es[0], subject), es[1..], subject))
  }

  /** The subject's runner is r, last looked up at time seen. */
  predicate Keeps(s: State, subject: string, r: nat, seen: real) {
    var key := PartitionKey(false, subject);
    key in s.instances && s.instances[key] == r && r < |s.runners| && s.runners[r].lastUsed == seen
  }

  lemma KeepsStep(s: State, e: Event, subject: string, r: nat, seen: real)
    requires Inv(s) && Enabled(s, e) && !s.shareSafe && Keeps(s, subject, r, seen)
    ensures if Expels(seen, e) then r < |Apply(s, e).runners| && Apply(s, e).runners[r].at != InMap
            else Keeps(Apply(s, e), subject, r, SeenBy(seen, e, subject))
  {
    var key := PartitionKey(false, subject);
    assert key[0] != SHARED_KEY[0];
    assert RunnerOk(s, r) && KeyOk(s, key);
    if e.t in s.calls { CallFacts(s, e.t); }
    if e.Lookup? { LooksUpOwnKey(s, e, subject, r); }
    OneKey(s, r);
    hide Inv;
    if e.Evict? || e.CloseAll? { TakesOut(s, e, key, r); }
  }

  lemma OneKey(s: State, r: nat)
    requires Inv(s) && r < |s.runners|
    ensures forall k | k in s.instances && s.instances[k] == r :: k == s.runners[r].key
  {
    forall k | k in s.instances && s.instances[k] == r ensures k == s.runners[r].key {
      assert KeyOk(s, k);
    }
  }

  /** A lookup touches the runner under its own key. */
  lemma LooksUpOwnKey(s: State, e: Event, subject: string, r: nat)
    requires Inv(s) && Enabled(s, e) && e.Lookup? && !s.shareSafe && PartitionKey(false, subject) in s.instances
    requires s.instances[PartitionKey(false, subject)] == r
    ensures var key := PartitionKey(false, e.subject);
            && (key == PartitionKey(false, subject) <==> e.subject == subject)
            && (key in s.instances && e.subject != subject ==> s.instances[key] != r)
  {
    assert KeyOk(s, PartitionKey(false, subject)) && KeyOk(s, PartitionKey(false, e.subject));
    if PartitionKey(false, e.subject) == PartitionKey(false, subject) { KeysTellSubjects(e.subject, subject); }
  }

  lemma TakesOut(s: State, e: Event, key: string, r: nat)
    requires Enabled(s, e) && (e.Evict? || e.CloseAll?) && !s.closed && key != SHARED_KEY
    requires key in s.instances && s.instances[key] == r && r < |s.runners| && s.runners[r].at == InMap
    requires forall k | k in s.instances && s.instances[k] == r :: k == key
    ensures var t := Apply(s, e);
            && r < |t.runners| && t.runners[r].lastUsed == s.runners[r].lastUsed
            && if e.CloseAll? || s.runners[r].lastUsed < e.cutoff then t.runners[r].at != InMap
               else key in t.instances && t.instances[key] == r
  {
  }

  /** In isolate mode what has left the map does not come back. */
  lemma GoneStep(s: State, e: Event, r: nat)
    requires Inv(s) && Enabled(s, e) && !s.shareSafe && r < |s.runners| && s.runners[r].at != InMap
    ensures r < |Apply(s, e).runners| && Apply(s, e).runners[r].at != InMap && !Apply(s, e).shareSafe
  {
    if e.t in s.calls { CallFacts(s, e.t); }
    hide Inv;
  }

  lemma {:induction false} StaysGone(s: State, es: seq<Event>, r: nat)
    requires Inv(s) && Legal(s, es) && !s.shareSafe && r < |s.runners| && s.runners[r].at != InMap
    ensures r < |After(s, es).runners| && After(s, es).runners[r].at != InMap
    decreases |es|
  {
    hide Inv, Enabled, Apply;
    if es != [] {
      GoneStep(s, es[0], r);
      StepKeepsInv(s, es[0]);
      StaysGone(Apply(s, es[0]), es[1..], r);
    }
  }

  /** Exactly how long a subject keeps its runner in isolate mode, whether that works or
      not: until the pool is closed, or the cutoff of an EvictIdle passes the last lookup of
      the subject. */
  lemma {:induction false} SubjectKeepsRunnerIff(s: State, es: seq<Event>, subject: string, r: nat, seen: real)
    requires Inv(s) && Legal(s, es) && !s.shareSafe && Keeps(s, subject, r, seen)
    ensures var f, key := After(s, es), PartitionKey(false, subject);
            (key in f.instances && f.instances[key] == r) <==> !Expelled(seen, es, subject)
    decreases |es|
  {
    hide Inv, Enabled, Apply, Expels, SeenBy;
    if es != [] {
      KeepsStep(s, es[0], subject, r, seen);
      StepKeepsInv(s, es[0]);
      ModeStays(s, es[0]);
      if Expels(seen, es[0]) {
        StaysGone(Apply(s, es[0]), es[1..], r);
        RunsKeepInv(s, es);
        NotInMap(After(s, es), PartitionKey(false, subject), r);
      } else {
        SubjectKeepsRunnerIff(Apply(s, es[0]), es[1..], subject, r, SeenBy(seen, es[0], subject));
      }
    }
  }

  lemma ModeStays(s: State, e: Event)
    requires Enabled(s, e)
    ensures Apply(s, e).shareSafe == s.shareSafe
  {
  }

  lemma NotInMap(s: State, key: string, r: nat)
    requires Inv(s) && r < |s.runners| && s.runners[r].at != InMap
    ensures key in s.instances ==> s.instances[key] != r
  {
    assert KeyOk(s, key) && RunnerOk(s, r);
  }

  /** Exactly when the next lookup of a subject, on a pool that is still open, comes to
      another runner. */
  lemma NewRunnerIff(s: State, es: seq<Event>, subject: string, r: nat, seen: real, t: nat, now: real)
    requires Inv(s) && Legal(s, es) && !s.shareSafe && Keeps(s, subject, r, seen)
    requires t !in After(s, es).calls && !After(s, es).closed
    ensures var call := Apply(After(s, es), Event.Lookup(t, subject, now)).calls[t];
            call.AtOnce? && (call.r != r <==> Expelled(seen, es, subject))
  {
    SubjectKeepsRunnerIff(s, es, subject, r, seen);
    RunsKeepInv(s, es);
    ModeIsFixed(s, es);
    var f := After(s, es);
    assert KeyOk(f, PartitionKey(false, subject));
    RunnersStay(s, es);
    hide Inv, Legal, After, Expelled;
  }

  lemma {:induction false} RunnersStay(s: State, es: seq<Event>)
    requires Legal(s, es)
    ensures |s.runners| <= |After(s, es).runners|
    decreases |es|
  {
    hide Enabled, Apply;
    if es != [] {
      RunnersGrow(s, es[0]);
      RunnersStay(Apply(s, es[0]), es[1..]);
    }
  }

  /** A start that has failed has failed for everybody who is given that runner, at any
      later time. */
  lemma {:induction false} FailedForGood(s: State, es: seq<Event>, r: nat, t: nat)
    requires Inv(s) && Legal(s, es) && r < |s.runners| && s.runners[r].phase == Failed
    requires t in After(s, es).calls && After(s, es).calls[t].Returned? && After(s, es).calls[t].r == r
    ensures !After(s, es).calls[t].ok
    decreases |es|
  {
    if es == [] {
      CallFacts(s, t);
    } else {
      FailedStep(s, es[0], r);
      StepKeepsInv(s, es[0]);
      hide Inv, Enabled, Apply;
      FailedForGood(Apply(s, es[0]), es[1..], r, t);
    }
  }

  lemma FailedStep(s: State, e: Event, r: nat)
    requires Inv(s) && Enabled(s, e) && r < |s.runners| && s.runners[r].phase == Failed
    ensures r < |Apply(s, e).runners| && Apply(s, e).runners[r].phase == Failed
  {
    if e.t in s.calls { CallFacts(s, e.t); }
    hide Inv, Victims;
  }

  /** A RunnerFor of the subject that is on its way, or has come back, has runner r. */
  predicate Gets(c: Call, subject: string, r: nat) {
    (c.AtOnce? || c.InStart? || c.Returned?) && c.subject == subject ==> c.r == r
  }

  lemma GetsStep(s: State, e: Event, subject: string, r: nat, seen: real, t: nat)
    requires Inv(s) && Enabled(s, e) && !s.shareSafe && Keeps(s, subject, r, seen) && t in Apply(s, e).calls
    requires t in s.calls ==> Gets(s.calls[t], subject, r)
    ensures Gets(Apply(s, e).calls[t], subject, r)
  {
    hide Inv, Victims, HandTo;
  }

  /** While it is not expelled, a runner is what every later RunnerFor of its subject gets. */
  lemma {:induction false} IsolateModeServesOneRunner(s: State, es: seq<Event>, subject: string, r: nat, seen: real,
                                                      before: set<nat>)
    requires Inv(s) && Legal(s, es) && !s.shareSafe && Keeps(s, subject, r, seen) && !Expelled(seen, es, subject)
    requires forall t | t in s.calls && t !in before :: Gets(s.calls[t], subject, r)
    ensures forall t | t in After(s, es).calls && t !in before :: Gets(After(s, es).calls[t], subject, r)
    decreases |es|
  {
    hide Inv, Enabled, Apply, Gets, Expels, SeenBy, Keeps;
    if es != [] {
      var f := Apply(s, es[0]);
      KeepsStep(s, es[0], subject, r, seen);
      StepKeepsInv(s, es[0]);
      ModeStays(s, es[0]);
      forall t | t in f.calls && t !in before ensures Gets(f.calls[t], subject, r) {
        CallsStay(s, es[0], t);
        GetsStep(s, es[0], subject, r, seen, t);
      }
      IsolateModeServesOneRunner(f, es[1..], subject, r, SeenBy(seen, es[0], subject), before);
    }
  }

  lemma CallsStay(s: State, e: Event, t: nat)
    requires Enabled(s, e)
    ensures t in s.calls ==> t in Apply(s, e).calls
  {
  }
}
