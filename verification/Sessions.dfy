/**
 The session table of internal/server/session_store.go, and what keeps a session
 alive under the periodic sweep of internal/server/server.go.
 */
module Sessions {
  import opened Common

  datatype Session = Session(subject: string, initialized: bool, createdAt: real, lastSeen: real)

  type Store = map<string, Session>

  function CreateIn(m: Store, id: string, subject: string, now: real): Store {
    m[id := Session(subject, false, now, now)]
  }

  function TouchIn(m: Store, id: string, now: real): Store {
    if id in m then m[id := m[id].(lastSeen := now)] else m
  }

  function MarkIn(m: Store, id: string, now: real): Store {
    if id in m then m[id := m[id].(lastSeen := now, initialized := true)] else m
  }

  function ExpireIn(m: Store, cutoff: real): Store {
    map id | id in m && m[id].lastSeen >= cutoff :: m[id]
  }

  /** The store as the program keeps it. */
  class InMemorySessionStore {
    var sessions: Store

    constructor ()
      ensures sessions == map[]
    {
      sessions := map[];
    }

    method Create(id: string, subject: string, now: real) returns (sess: Session)
      modifies this
      ensures sessions == CreateIn(old(sessions), id, subject, now) && sess == sessions[id]
    {
      sess := Session(subject, false, now, now);
      sessions := sessions[id := sess];
    }

    /** Hands out a copy: what the caller does with it leaves the store alone. */
    method Get(id: string) returns (sess: Option<Session>)
      ensures sess == if id in sessions then Some(sessions[id]) else None
    {
      sess := if id in sessions then Some(sessions[id]) else None;
    }

    method MarkInitialized(id: string, now: real) returns (known: bool)
      modifies this
      ensures known == (id in old(sessions)) && sessions == MarkIn(old(sessions), id, now)
    {
      if id !in sessions {
        return false;
      }
      sessions := sessions[id := sessions[id].(initialized := true, lastSeen := now)];
      known := true;
    }

    method Touch(id: string, now: real) returns (known: bool)
      modifies this
      ensures known == (id in old(sessions)) && sessions == TouchIn(old(sessions), id, now)
    {
      if id !in sessions {
        return false;
      }
      sessions := sessions[id := sessions[id].(lastSeen := now)];
      known := true;
    }

    method Delete(id: string) returns (known: bool)
      modifies this
      ensures known == (id in old(sessions)) && sessions == old(sessions) - {id}
    {
      if id !in sessions {
        assert sessions == sessions - {id};
        return false;
      }
      sessions := sessions - {id};
      known := true;
    }

    /** Removes exactly the sessions last seen before t, whatever order the table is
        walked in, and returns their number. */
    method ExpireBefore(t: real) returns (deleted: nat)
      modifies this
      ensures sessions == ExpireIn(old(sessions), t)
      ensures deleted == |set id | id in old(sessions) && old(sessions)[id].lastSeen < t|
    {
      deleted := 0;
      var todo := sessions.Keys;
      ghost var was := sessions;
      ghost var gone: set<string> := {};
      while todo != {}
        invariant todo <= sessions.Keys && |gone| == deleted
        invariant gone <= was.Keys && sessions == was - gone
        invariant forall id | id in gone :: was[id].lastSeen < t
        invariant forall id | id in sessions && id !in todo :: was[id].lastSeen >= t
        decreases todo
      {
        var id :| id in todo;
        todo := todo - {id};
        if sessions[id].lastSeen < t {
          sessions := sessions - {id};
          deleted, gone := deleted + 1, gone + {id};
        }
      }
      assert gone == set id | id in was && was[id].lastSeen < t;
    }
  }

  // ----------------------------------------------------------------- schedules

  /** What happens to the store: a session is minted, used or deleted, or the sweeper
      ticks and expires what has been idle for longer than the timeout. */
  datatype StoreOp =
    | Mint(now: real, id: string, subject: string)
    | Use(now: real, id: string, initialize: bool)
    | Remove(now: real, id: string)
    | Sweep(now: real)

  function ApplyOp(idle: real, m: Store, op: StoreOp): Store {
    match op
    case Mint(now, id, subject) => CreateIn(m, id, subject, now)
    case Use(now, id, initialize) => if initialize then MarkIn(m, id, now) else TouchIn(m, id, now)
    case Remove(_, id) => m - {id}
    case Sweep(now) => ExpireIn(m, now - idle)
  }

  function Schedule(idle: real, m: Store, ops: seq<StoreOp>): Store {
    if ops == [] then m else ApplyOp(idle, Schedule(idle, m, ops[..|ops| - 1]), ops[|ops| - 1])
  }

  predicate UsedIn(ops: seq<StoreOp>, i: nat, id: string)
    requires i < |ops|
  {
    ops[i].Use? && ops[i].id == id
  }

  /** The stamp of the last use applied, which is what the table holds. */
  function LastUse(lastSeen: real, ops: seq<StoreOp>, id: string): real {
    if ops == [] then lastSeen
    else
      var last := ops[|ops| - 1];
      if last.Use? && last.id == id then last.now else LastUse(lastSeen, ops[..|ops| - 1], id)
  }

  /** The latest stamp of any use. */
  function LatestUse(lastSeen: real, ops: seq<StoreOp>, id: string): real {
    if ops == [] then lastSeen
    else
      var last := ops[|ops| - 1];
      var before := LatestUse(lastSeen, ops[..|ops| - 1], id);
      if last.Use? && last.id == id then Max(before, last.now) else before
  }

  predicate NotMinted(ops: seq<StoreOp>, id: string) {
    forall i | 0 <= i < |ops| :: !(ops[i].Mint? && ops[i].id == id)
  }

  /** Never deleted, and every sweep found the stamp in the table recent enough. */
  predicate StampsFresh(idle: real, lastSeen: real, ops: seq<StoreOp>, id: string) {
    forall j | 0 <= j < |ops| ::
      && !(ops[j].Remove? && ops[j].id == id)
      && (ops[j].Sweep? ==> ops[j].now - LastUse(lastSeen, ops[..j], id) <= idle)
  }

  lemma StampsFreshPrefix(idle: real, lastSeen: real, ops: seq<StoreOp>, id: string)
    requires ops != []
    ensures var n := |ops| - 1;
            StampsFresh(idle, lastSeen, ops, id)
            <==> StampsFresh(idle, lastSeen, ops[..n], id)
                 && !(ops[n].Remove? && ops[n].id == id)
                 && (ops[n].Sweep? ==> ops[n].now - LastUse(lastSeen, ops[..n], id) <= idle)
  {
    var n := |ops| - 1;
    hide LastUse;
    forall j | 0 <= j < n ensures ops[..n][..j] == ops[..j] {}
    if StampsFresh(idle, lastSeen, ops, id) {
      forall j | 0 <= j < n
        ensures !(ops[..n][j].Remove? && ops[..n][j].id == id)
        ensures ops[..n][j].Sweep? ==> ops[..n][j].now - LastUse(lastSeen, ops[..n][..j], id) <= idle
      {
        assert ops[j] == ops[..n][j];
      }
    }
    if StampsFresh(idle, lastSeen, ops[..n], id) {
      forall j | 0 <= j < n
        ensures !(ops[j].Remove? && ops[j].id == id)
        ensures ops[j].Sweep? ==> ops[j].now - LastUse(lastSeen, ops[..j], id) <= idle
      {
        assert ops[j] == ops[..n][j];
      }
    }
  }

  /** Survival, on any schedule at all: a session whose id is not minted again is still
      there if and only if it was never deleted and every sweep found the stamp of the
      last use applied within the timeout; while it is there its subject does not change. */
  lemma {:induction false} SessionSurvivesIff(idle: real, m: Store, ops: seq<StoreOp>, id: string)
    requires id in m && NotMinted(ops, id)
    ensures var f := Schedule(idle, m, ops);
            && (id in f <==> StampsFresh(idle, m[id].lastSeen, ops, id))
            && (id in f ==> f[id].subject == m[id].subject
                            && f[id].lastSeen == LastUse(m[id].lastSeen, ops, id))
  {
    hide StampsFresh;
    if ops != [] {
      SessionSurvivesIff(idle, m, ops[..|ops| - 1], id);
      StampsFreshPrefix(idle, m[id].lastSeen, ops, id);
    } else {
      assert StampsFresh(idle, m[id].lastSeen, ops, id) by { NothingStale(idle, m[id].lastSeen, id); }
    }
  }

  lemma NothingStale(idle: real, lastSeen: real, id: string)
    ensures StampsFresh(idle, lastSeen, [], id)
  {
  }

  // ------------------------------------------------ when the stamp is the latest use

  /** No use is applied after one with a later stamp. */
  predicate UsesInOrder(lastSeen: real, ops: seq<StoreOp>, id: string) {
    && (forall i | 0 <= i < |ops| && UsedIn(ops, i, id) :: lastSeen <= ops[i].now)
    && (forall i, j | 0 <= i < j < |ops| && UsedIn(ops, i, id) && UsedIn(ops, j, id) :: ops[i].now <= ops[j].now)
  }

  lemma UsesInOrderPrefix(lastSeen: real, ops: seq<StoreOp>, id: string, n: nat)
    requires UsesInOrder(lastSeen, ops, id) && n <= |ops|
    ensures UsesInOrder(lastSeen, ops[..n], id)
  {
    forall i | 0 <= i < n ensures UsedIn(ops[..n], i, id) == UsedIn(ops, i, id) {}
  }

  lemma {:induction false} LatestBounds(lastSeen: real, ops: seq<StoreOp>, id: string)
    ensures lastSeen <= LatestUse(lastSeen, ops, id)
    ensures forall i | 0 <= i < |ops| && UsedIn(ops, i, id) :: ops[i].now <= LatestUse(lastSeen, ops, id)
    ensures LatestUse(lastSeen, ops, id) == lastSeen
            || exists i :: 0 <= i < |ops| && UsedIn(ops, i, id) && ops[i].now == LatestUse(lastSeen, ops, id)
  {
    if ops != [] {
      var n := |ops| - 1;
      var prev := ops[..n];
      LatestBounds(lastSeen, prev, id);
      forall i | 0 <= i < n ensures UsedIn(prev, i, id) == UsedIn(ops, i, id) && prev[i] == ops[i] {}
      var before := LatestUse(lastSeen, prev, id);
      if before != lastSeen && LatestUse(lastSeen, ops, id) == before {
        var i :| 0 <= i < n && UsedIn(prev, i, id) && prev[i].now == before;
        assert UsedIn(ops, i, id) && ops[i].now == before;
      } else if LatestUse(lastSeen, ops, id) != before {
        assert UsedIn(ops, n, id);
      }
    }
  }

  /** The table holds the latest use. */
  predicate HoldsLatest(lastSeen: real, ops: seq<StoreOp>, id: string) {
    LastUse(lastSeen, ops, id) == LatestUse(lastSeen, ops, id)
  }

  lemma {:induction false} OrderedHoldsLatest(lastSeen: real, ops: seq<StoreOp>, id: string)
    requires UsesInOrder(lastSeen, ops, id)
    ensures HoldsLatest(lastSeen, ops, id)
  {
    if ops != [] {
      var n := |ops| - 1;
      UsesInOrderPrefix(lastSeen, ops, id, n);
      OrderedHoldsLatest(lastSeen, ops[..n], id);
      LatestBounds(lastSeen, ops[..n], id);
      if UsedIn(ops, n, id) && LatestUse(lastSeen, ops[..n], id) != lastSeen {
        var i :| 0 <= i < n && UsedIn(ops[..n], i, id) && ops[..n][i].now == LatestUse(lastSeen, ops[..n], id);
        assert UsedIn(ops, i, id);
      }
    }
  }

  /** Exactly when the table holds the latest use throughout: no use is applied after one
      with a later stamp. */
  lemma HoldsLatestIff(lastSeen: real, ops: seq<StoreOp>, id: string)
    ensures (forall n | 0 <= n <= |ops| :: HoldsLatest(lastSeen, ops[..n], id)) <==> UsesInOrder(lastSeen, ops, id)
  {
    if UsesInOrder(lastSeen, ops, id) {
      forall n | 0 <= n <= |ops| ensures HoldsLatest(lastSeen, ops[..n], id) {
        UsesInOrderPrefix(lastSeen, ops, id, n);
        OrderedHoldsLatest(lastSeen, ops[..n], id);
      }
    }
    if forall n | 0 <= n <= |ops| :: HoldsLatest(lastSeen, ops[..n], id) {
      forall j | 0 <= j < |ops| && UsedIn(ops, j, id)
        ensures lastSeen <= ops[j].now
        ensures forall i | 0 <= i < j && UsedIn(ops, i, id) :: ops[i].now <= ops[j].now
      {
        StampIsLatest(lastSeen, ops, id, j);
      }
    }
  }

  lemma StampIsLatest(lastSeen: real, ops: seq<StoreOp>, id: string, j: nat)
    requires j < |ops| && UsedIn(ops, j, id) && HoldsLatest(lastSeen, ops[..j + 1], id)
    ensures lastSeen <= ops[j].now
    ensures forall i | 0 <= i < j && UsedIn(ops, i, id) :: ops[i].now <= ops[j].now
  {
    var prev := ops[..j + 1];
    LatestBounds(lastSeen, prev, id);
    assert LastUse(lastSeen, prev, id) == ops[j].now;
    forall i | 0 <= i < j && UsedIn(ops, i, id) ensures ops[i].now <= ops[j].now {
      assert UsedIn(prev, i, id) && prev[i] == ops[i];
    }
  }

  /** Before op j, the session had been used (or last seen at the start) no longer ago
      than the timeout. */
  ghost predicate RecentlyUsed(idle: real, lastSeen: real, ops: seq<StoreOp>, id: string, j: nat)
    requires j < |ops|
  {
    || ops[j].now - lastSeen <= idle
    || exists i :: 0 <= i < j && UsedIn(ops, i, id) && ops[j].now - ops[i].now <= idle
  }

  /** Never deleted, and recently used whenever the sweeper came by. */
  ghost predicate KeptInUse(idle: real, lastSeen: real, ops: seq<StoreOp>, id: string) {
    forall j | 0 <= j < |ops| ::
      && !(ops[j].Remove? && ops[j].id == id)
      && (ops[j].Sweep? ==> RecentlyUsed(idle, lastSeen, ops, id, j))
  }

  lemma RecentIffLatest(idle: real, lastSeen: real, ops: seq<StoreOp>, id: string, j: nat)
    requires j < |ops|
    ensures RecentlyUsed(idle, lastSeen, ops, id, j) <==> ops[j].now - LatestUse(lastSeen, ops[..j], id) <= idle
  {
    var prev := ops[..j];
    LatestBounds(lastSeen, prev, id);
    forall i | 0 <= i < j ensures UsedIn(prev, i, id) == UsedIn(ops, i, id) && prev[i] == ops[i] {}
  }

  /** Where the table holds the latest use, a session survives exactly when it is kept in
      use. */
  lemma KeptInUseSurvivesIff(idle: real, m: Store, ops: seq<StoreOp>, id: string)
    requires id in m && NotMinted(ops, id) && UsesInOrder(m[id].lastSeen, ops, id)
    ensures id in Schedule(idle, m, ops) <==> KeptInUse(idle, m[id].lastSeen, ops, id)
  {
    var seen := m[id].lastSeen;
    SessionSurvivesIff(idle, m, ops, id);
    HoldsLatestIff(seen, ops, id);
    forall j | 0 <= j < |ops|
      ensures RecentlyUsed(idle, seen, ops, id, j) <==> ops[j].now - LastUse(seen, ops[..j], id) <= idle
    {
      RecentIffLatest(idle, seen, ops, id, j);
      assert HoldsLatest(seen, ops[..j], id);
    }
  }
}
