/**
 The token bucket of internal/server/ratelimit.go: the in-place class, the step
 function it implements, and the declarative "every window" law the step obeys.
 Times are real seconds; clock readings may go backwards.
 */
module TokenBucket {
  import opened Common

  /** What configures a bucket: refill rate (tokens per second) and burst. */
  datatype Params = Params(rate: real, capacity: real) {
    /** NewRateLimiter never builds a bucket outside this range. */
    predicate Sane() { rate > 0.0 && capacity > 0.0 }
  }

  /** The mutable part of a bucket. */
  datatype State = State(tokens: real, lastFill: real, lastUsed: real)

  /** Tokens that flow in over dt seconds. */
  function Accrued(rate: real, dt: real): real {
    dt * rate
  }

  lemma AccruedSplits(rate: real, a: real, b: real, c: real)
    ensures Accrued(rate, a - c) == Accrued(rate, a - b) + Accrued(rate, b - c)
  {
    assert a - c == (a - b) + (b - c);
  }

  lemma AccruedNonNegative(rate: real, dt: real)
    requires rate > 0.0 && dt >= 0.0
    ensures Accrued(rate, dt) >= 0.0 && Accrued(rate, 0.0) == 0.0
  {
  }

  function Full(p: Params, now: real): State {
    State(p.capacity, now, now)
  }

  function Refill(p: Params, s: State, now: real): State {
    if now > s.lastFill
    then s.(tokens := Min(p.capacity, s.tokens + Accrued(p.rate, now - s.lastFill)), lastFill := now)
    else s
  }

  function Step(p: Params, s: State, now: real): (State, bool) {
    var r := Refill(p, s, now).(lastUsed := now);
    if r.tokens >= 1.0 then (r.(tokens := r.tokens - 1.0), true) else (r, false)
  }

  // ---------------------------------------------------------------- histories

  /** The latest clock reading seen by a bucket created at t0. */
  function Latest(t0: real, ts: seq<real>): real {
    if ts == [] then t0 else Max(Latest(t0, ts[..|ts| - 1]), ts[|ts| - 1])
  }

  /** How many requests were granted. */
  function Grants(ds: seq<bool>): nat {
    if ds == [] then 0 else Grants(ds[..|ds| - 1]) + if ds[|ds| - 1] then 1 else 0
  }

  datatype Run = Run(state: State, ds: seq<bool>)

  /** A bucket created full at t0 and asked at the times ts, in that order. */
  function Exec(p: Params, t0: real, ts: seq<real>): (r: Run)
    ensures |r.ds| == |ts|
  {
    if ts == [] then Run(Full(p, t0), [])
    else
      var r := Exec(p, t0, ts[..|ts| - 1]);
      var (s, ok) := Step(p, r.state, ts[|ts| - 1]);
      Run(s, r.ds + [ok])
  }

  /** Time that passed, on the never-decreasing clock, between requests k and n. */
  function Elapsed(t0: real, ts: seq<real>, k: nat, n: nat): real
    requires k < |ts| && n < |ts|
  {
    Latest(t0, ts[..n + 1]) - Latest(t0, ts[..k + 1])
  }

  /** The window law for granting request n: whatever earlier request k the
      window starts at, one more grant stays within burst plus refill. */
  ghost predicate WindowsAdmit(p: Params, t0: real, ts: seq<real>, ds: seq<bool>, n: nat)
    requires n < |ts| && n <= |ds|
  {
    forall k | 0 <= k <= n ::
      Grants(ds[k..n]) as real + 1.0 <= p.capacity + Accrued(p.rate, Elapsed(t0, ts, k, n))
  }

  /** What is left of the window that starts at request k after all of ts. */
  function Slack(p: Params, t0: real, ts: seq<real>, ds: seq<bool>, k: nat): real
    requires k < |ts| == |ds|
  {
    p.capacity + Accrued(p.rate, Elapsed(t0, ts, k, |ts| - 1)) - Grants(ds[k..]) as real
  }

  lemma {:induction false} LatestGrows(t0: real, ts: seq<real>, k: nat)
    requires k <= |ts|
    ensures Latest(t0, ts[..k]) <= Latest(t0, ts)
  {
    if k == |ts| {
      assert ts[..k] == ts;
    } else {
      LatestGrows(t0, ts[..|ts| - 1], k);
      assert ts[..|ts| - 1][..k] == ts[..k];
    }
  }

  lemma {:induction false} ExecPrefix(p: Params, t0: real, ts: seq<real>, n: nat)
    requires n <= |ts|
    ensures Exec(p, t0, ts[..n]).ds == Exec(p, t0, ts).ds[..n]
  {
    if n == |ts| {
      assert ts[..n] == ts;
    } else {
      ExecPrefix(p, t0, ts[..|ts| - 1], n);
      assert ts[..|ts| - 1][..n] == ts[..n];
    }
  }

  /** The state never leaves [0, capacity] and fills up to the latest reading. */
  lemma {:induction false} ExecBounds(p: Params, t0: real, ts: seq<real>)
    requires p.Sane()
    ensures var s := Exec(p, t0, ts).state;
            0.0 <= s.tokens <= p.capacity && s.lastFill == Latest(t0, ts)
  {
    hide Accrued;
    if ts != [] {
      ExecBounds(p, t0, ts[..|ts| - 1]);
      var s := Exec(p, t0, ts[..|ts| - 1]).state;
      AccruedNonNegative(p.rate, Max(0.0, ts[|ts| - 1] - s.lastFill));
    }
  }

  /** The tokens just before the decision on the last request of ts. */
  function Offered(p: Params, t0: real, ts: seq<real>): real
    requires ts != []
  {
    Refill(p, Exec(p, t0, ts[..|ts| - 1]).state, ts[|ts| - 1]).tokens
  }

  /** What flows in between the last two requests of ts. */
  function Inflow(p: Params, t0: real, ts: seq<real>): real
    requires ts != []
  {
    Accrued(p.rate, Latest(t0, ts) - Latest(t0, ts[..|ts| - 1]))
  }

  function Spent(ds: seq<bool>): real
    requires ds != []
  {
    if ds[|ds| - 1] then 1.0 else 0.0
  }

  /** One request: refill up to the burst, take a token if there is one; the
      window that starts here has the whole burst to spend. */
  lemma LastStep(p: Params, t0: real, ts: seq<real>)
    requires p.Sane() && ts != []
    ensures var e0, e := Exec(p, t0, ts[..|ts| - 1]), Exec(p, t0, ts);
            && Offered(p, t0, ts) == Min(p.capacity, e0.state.tokens + Inflow(p, t0, ts))
            && e.state.tokens == Offered(p, t0, ts) - Spent(e.ds)
            && e.ds[|ts| - 1] == (Offered(p, t0, ts) >= 1.0)
            && Slack(p, t0, ts, e.ds, |ts| - 1) == p.capacity - Spent(e.ds)
  {
    hide Accrued, Exec, Latest, Refill, Slack;
    var n := |ts| - 1;
    ExecBounds(p, t0, ts[..n]);
    ExecUnfolds(p, t0, ts);
    RefillTokens(p, Exec(p, t0, ts[..n]).state, ts[n]);
    LastSlack(p, t0, ts);
  }

  lemma ExecUnfolds(p: Params, t0: real, ts: seq<real>)
    requires ts != []
    ensures var n := |ts| - 1;
            var e0, e, r := Exec(p, t0, ts[..n]), Exec(p, t0, ts), Refill(p, Exec(p, t0, ts[..n]).state, ts[n]);
            && e.ds == e0.ds + [r.tokens >= 1.0]
            && e.state.tokens == r.tokens - (if r.tokens >= 1.0 then 1.0 else 0.0)
            && Latest(t0, ts) == Max(Latest(t0, ts[..n]), ts[n])
  {
    hide Accrued, Refill;
  }

  lemma RefillTokens(p: Params, s: State, now: real)
    requires p.Sane() && s.tokens <= p.capacity
    ensures Refill(p, s, now).tokens == Min(p.capacity, s.tokens + Accrued(p.rate, Max(s.lastFill, now) - s.lastFill))
  {
    AccruedNonNegative(p.rate, 0.0);
    hide Accrued;
  }

  /** The window that starts at the last request. */
  lemma LastSlack(p: Params, t0: real, ts: seq<real>)
    requires p.Sane() && ts != []
    ensures Slack(p, t0, ts, Exec(p, t0, ts).ds, |ts| - 1) == p.capacity - Spent(Exec(p, t0, ts).ds)
  {
    AccruedNonNegative(p.rate, 0.0);
    hide Accrued, Exec, Latest;
    var ds, n := Exec(p, t0, ts).ds, |ts| - 1;
    assert ds[n..] == [ds[n]];
    assert Grants([ds[n]][..0]) == 0;
    assert Elapsed(t0, ts, n, n) == 0.0;
  }

  /** How one more request moves the slack of an older window. */
  lemma SlackShift(p: Params, t0: real, ts: seq<real>, k: nat)
    requires k < |ts| - 1
    ensures var e0, e := Exec(p, t0, ts[..|ts| - 1]), Exec(p, t0, ts);
            Slack(p, t0, ts, e.ds, k)
            == Slack(p, t0, ts[..|ts| - 1], e0.ds, k) + Inflow(p, t0, ts) - Spent(e.ds)
  {
    hide Accrued;
    var n := |ts| - 1;
    var prev := ts[..n];
    var e0, e := Exec(p, t0, prev), Exec(p, t0, ts);
    assert ts[..n + 1] == ts && prev[..n] == prev && prev[..k + 1] == ts[..k + 1];
    assert e.ds[k..][..n - k] == e0.ds[k..];
    AccruedSplits(p.rate, Latest(t0, ts), Latest(t0, prev), Latest(t0, ts[..k + 1]));
  }

  /** The tokens left after a history are the least slack over all windows:
      no window has less, and some window has exactly that. */
  lemma {:induction false} TokensAreLeastSlack(p: Params, t0: real, ts: seq<real>) returns (w: nat)
    requires p.Sane() && ts != []
    ensures w < |ts|
    ensures Exec(p, t0, ts).state.tokens == Slack(p, t0, ts, Exec(p, t0, ts).ds, w)
    ensures forall k | 0 <= k < |ts| ::
              Exec(p, t0, ts).state.tokens <= Slack(p, t0, ts, Exec(p, t0, ts).ds, k)
  {
    hide Accrued;
    var n := |ts| - 1;
    var prev := ts[..n];
    var e0, e := Exec(p, t0, prev), Exec(p, t0, ts);
    LastStep(p, t0, ts);
    LatestGrows(t0, ts, n);
    AccruedNonNegative(p.rate, Latest(t0, ts) - Latest(t0, prev));
    forall k | 0 <= k < n
      ensures Slack(p, t0, ts, e.ds, k) == Slack(p, t0, prev, e0.ds, k) + Inflow(p, t0, ts) - Spent(e.ds)
    {
      SlackShift(p, t0, ts, k);
    }
    w := n;
    if n > 0 {
      var w0 := TokensAreLeastSlack(p, t0, prev);
      if e0.state.tokens + Inflow(p, t0, ts) < p.capacity {
        w := w0;
      }
    }
  }

  /** Exactness: request n is granted if and only if every window ending at it
      admits one more grant. */
  lemma {:induction false} GrantedIffWindowsAdmit(p: Params, t0: real, ts: seq<real>, n: nat)
    requires p.Sane() && n < |ts|
    ensures Exec(p, t0, ts).ds[n] <==> WindowsAdmit(p, t0, ts, Exec(p, t0, ts).ds, n)
  {
    hide Accrued, Exec, Latest;
    var us := ts[..n + 1];
    var ds := Exec(p, t0, ts).ds;
    var e := Exec(p, t0, us);
    ExecPrefix(p, t0, ts, n + 1);
    assert ds[n] == e.ds[n];
    LastStep(p, t0, us);
    var w := TokensAreLeastSlack(p, t0, us);
    forall k | 0 <= k <= n
      ensures Slack(p, t0, us, e.ds, k)
              == p.capacity + Accrued(p.rate, Elapsed(t0, ts, k, n)) - Grants(ds[k..n]) as real - Spent(e.ds)
    {
      assert us[..k + 1] == ts[..k + 1] && us[..n + 1] == us;
      assert e.ds[k..][..n - k] == ds[k..n];
    }
  }

  lemma ExecOneMore(p: Params, t0: real, ts: seq<real>, now: real)
    requires p.Sane()
    ensures var e, (s, ok) := Exec(p, t0, ts), Step(p, Exec(p, t0, ts).state, now);
            && Exec(p, t0, ts + [now]) == Run(s, e.ds + [ok])
            && (ok <==> WindowsAdmit(p, t0, ts + [now], e.ds, |ts|))
  {
    hide Accrued, Latest, Grants;
    assert (ts + [now])[..|ts|] == ts;
    GrantedIffWindowsAdmit(p, t0, ts + [now], |ts|);
    var ds := Exec(p, t0, ts + [now]).ds;
    assert forall k | 0 <= k <= |ts| :: ds[k..|ts|] == Exec(p, t0, ts).ds[k..|ts|];
  }

  /** Law of the window as an upper bound: between any two requests, the grants
      never exceed burst plus refill. */
  lemma WindowBound(p: Params, t0: real, ts: seq<real>, i: nat, j: nat)
    requires p.Sane() && i <= j < |ts|
    ensures Grants(Exec(p, t0, ts).ds[i..j + 1]) as real <= p.capacity + Accrued(p.rate, Elapsed(t0, ts, i, j))
  {
    hide Accrued, Exec, Grants, Latest;
    var us := ts[..j + 1];
    var ds := Exec(p, t0, ts).ds;
    ExecPrefix(p, t0, ts, j + 1);
    ExecBounds(p, t0, us);
    var _ := TokensAreLeastSlack(p, t0, us);
    assert us[..i + 1] == ts[..i + 1] && us[..j + 1] == us;
    assert ds[..j + 1][i..] == ds[i..j + 1];
    assert 0.0 <= Slack(p, t0, us, ds[..j + 1], i);
  }

  /** A decision sequence that keeps every window within burst plus refill. */
  ghost predicate KeepsWindows(p: Params, t0: real, ts: seq<real>, ds: seq<bool>) {
    |ds| == |ts| &&
    forall i, j | 0 <= i <= j < |ts| ::
      Grants(ds[i..j + 1]) as real <= p.capacity + Accrued(p.rate, Elapsed(t0, ts, i, j))
  }

  /** Optimality: among all decision sequences that keep every window, the bucket
      has granted the most at every point in time. */
  lemma {:induction false} BucketIsOptimal(p: Params, t0: real, ts: seq<real>, other: seq<bool>, n: nat)
    requires p.Sane() && KeepsWindows(p, t0, ts, other) && n <= |ts|
    ensures forall k | 0 <= k <= n :: Grants(other[..k]) <= Grants(Exec(p, t0, ts).ds[..k])
  {
    hide Accrued, Exec, Grants, Elapsed;
    if n > 0 {
      var ds := Exec(p, t0, ts).ds;
      BucketIsOptimal(p, t0, ts, other, n - 1);
      GrantsStep(ds, n - 1);
      GrantsStep(other, n - 1);
      if other[n - 1] && !ds[n - 1] {
        RefusalMeansAhead(p, t0, ts, other, n - 1);
      }
    }
  }

  /** Where the bucket refuses and the other sequence grants, the bucket was ahead. */
  lemma RefusalMeansAhead(p: Params, t0: real, ts: seq<real>, other: seq<bool>, m: nat)
    requires p.Sane() && KeepsWindows(p, t0, ts, other) && m < |ts|
    requires forall k | 0 <= k <= m :: Grants(other[..k]) <= Grants(Exec(p, t0, ts).ds[..k])
    requires other[m] && !Exec(p, t0, ts).ds[m]
    ensures Grants(other[..m]) < Grants(Exec(p, t0, ts).ds[..m])
  {
    hide Accrued, Exec, Grants, Elapsed;
    var ds := Exec(p, t0, ts).ds;
    GrantedIffWindowsAdmit(p, t0, ts, m);
    var k :| 0 <= k <= m &&
             Grants(ds[k..m]) as real + 1.0 > p.capacity + Accrued(p.rate, Elapsed(t0, ts, k, m));
    assert Grants(other[k..m + 1]) as real <= p.capacity + Accrued(p.rate, Elapsed(t0, ts, k, m));
    GrantsStep(other, m);
    GrantsSplit(ds[..m], k);
    GrantsSplit(other[..m + 1], k);
    assert ds[..m][..k] == ds[..k] && ds[..m][k..] == ds[k..m];
    assert other[..m + 1][..k] == other[..k] && other[..m + 1][k..] == other[k..m + 1];
  }

  lemma GrantsStep(ds: seq<bool>, m: nat)
    requires m < |ds|
    ensures Grants(ds[..m + 1]) == Grants(ds[..m]) + if ds[m] then 1 else 0
  {
    assert ds[..m + 1][..m] == ds[..m];
  }

  lemma {:induction false} GrantsSplit(ds: seq<bool>, k: nat)
    requires k <= |ds|
    ensures Grants(ds) == Grants(ds[..k]) + Grants(ds[k..])
  {
    if k == |ds| {
      assert ds[..k] == ds;
    } else {
      var m := |ds| - 1;
      GrantsSplit(ds[..m], k);
      assert ds[..m][..k] == ds[..k] && ds[..m][k..] == ds[k..][..m - k];
    }
  }

  // ---------------------------------------------------------------- the object

  /** The bucket as the program keeps it: three fields updated in place. The ghost
      history records when it was created, when it was asked, and what it said. */
  class Bucket {
    const rate: real
    const capacity: real
    var tokens: real
    var lastFill: real
    var lastUsed: real
    ghost const owner: string
    ghost const created: real
    ghost var asked: seq<real>
    ghost var answers: seq<bool>

    function P(): Params { Params(rate, capacity) }

    function Snapshot(): State
      reads this
    {
      State(tokens, lastFill, lastUsed)
    }

    ghost predicate Valid()
      reads this
    {
      P().Sane() && Exec(P(), created, asked) == Run(Snapshot(), answers)
    }

    constructor (rate: real, capacity: real, now: real, ghost owner: string)
      requires rate > 0.0 && capacity > 0.0
      ensures Valid() && this.owner == owner && P() == Params(rate, capacity) && created == now && asked == []
      ensures Snapshot() == Full(P(), now)
    {
      this.rate, this.capacity, this.owner := rate, capacity, owner;
      tokens, lastFill, lastUsed := capacity, now, now;
      created, asked, answers := now, [], [];
    }

    /** Takes one token if the windows of the whole history allow it. */
    method Allow(now: real) returns (ok: bool)
      requires Valid()
      modifies this
      ensures Valid() && asked == old(asked) + [now] && answers == old(answers) + [ok]
      ensures ok <==> WindowsAdmit(P(), created, asked, old(answers), |old(asked)|)
      ensures (Snapshot(), ok) == Step(P(), old(Snapshot()), now)
    {
      hide Accrued, Exec;
      var elapsed := now - lastFill;
      if elapsed > 0.0 {
        tokens := Min(capacity, tokens + Accrued(rate, elapsed));
        lastFill := now;
      }
      lastUsed := now;
      ok := tokens >= 1.0;
      if ok {
        tokens := tokens - 1.0;
      }
      ExecOneMore(P(), created, asked, now);
      asked, answers := asked + [now], answers + [ok];
    }

    function IdleSince(): real
      reads this
    {
      lastUsed
    }
  }
}
