/**
 The object of internal/server/stdio_runner.go: the fields its mutex guards, one
 method for each region that holds the mutex, and the reader's loop. Each region is
 proved to be the step of the same name in Demux.
 */
module Stdio {
  import opened Common
  import opened Demux

  /** make(chan json.RawMessage, 1) */
  class Channel {
    var buf: seq<Line>
    ghost const serial: nat

    constructor (ghost serial: nat)
      ensures buf == [] && this.serial == serial
    {
      buf := [];
      this.serial := serial;
    }

    /** A send that gives up when the buffer is full. */
    method TrySend(line: Line) returns (sent: bool)
      modifies this
      ensures sent == (old(buf) == []) && buf == if sent then [line] else old(buf)
    {
      sent := |buf| < 1;
      if sent {
        buf := buf + [line];
      }
    }
  }

  /** What the reader makes of a line of the child's output. */
  datatype Output = Unparsable | Unsolicited | NonIntegerId | Reply(line: Line)

  /** The first reply to an id. */
  function FirstReply(outs: seq<Output>, id: int): Option<Line> {
    if outs == [] then None
    else
      var earlier := FirstReply(outs[..|outs| - 1], id);
      var last := outs[|outs| - 1];
      if earlier.None? && last.Reply? && last.line.id == id then Some(last.line) else earlier
  }

  /** What the replies so far make of a buffer that nobody empties. */
  function Buffered(was: seq<Line>, reply: Option<Line>): seq<Line> {
    if was != [] then was
    else if reply.Some? then [reply.value] else []
  }

  /** What the drain makes of it then. */
  function DrainedTo(buf: seq<Line>, id: int): seq<Line> {
    if buf == [] then [Line(id, CLOSED)] else buf
  }

  /** Output n is a reply for an outstanding call whose buffer is full by then. */
  predicate Blocks(sh: Shared, outs: seq<Output>, n: nat)
    requires OwnChannels(sh) && n < |outs|
  {
    && outs[n].Reply? && outs[n].line.id in sh.pending
    && Buffered(sh.chans[sh.pending[outs[n].line.id]], FirstReply(outs[..n], outs[n].line.id)) != []
  }

  lemma FirstReplyNext(outs: seq<Output>, n: nat, id: int)
    requires n < |outs|
    ensures FirstReply(outs[..n + 1], id)
            == if FirstReply(outs[..n], id).None? && outs[n].Reply? && outs[n].line.id == id
               then Some(outs[n].line) else FirstReply(outs[..n], id)
  {
    assert outs[..n + 1][..n] == outs[..n];
  }

  /** Every outstanding call has a channel of its own. */
  predicate OwnChannels(sh: Shared) {
    && (forall i | i in sh.pending :: sh.pending[i] < |sh.chans|)
    && (forall i, j | i in sh.pending && j in sh.pending && i != j :: sh.pending[i] != sh.pending[j])
  }

  function DrainInOrder(sh: Shared, order: seq<int>): (r: Shared)
    requires OwnChannels(sh) && forall i | i in order :: i in sh.pending
    ensures r == sh.(chans := r.chans) && |r.chans| == |sh.chans|
  {
    if order == [] then sh else DrainIn(DrainInOrder(sh, order[..|order| - 1]), order[|order| - 1])
  }

  /** Draining in any order comes to the same: an empty buffer gets the synthetic
      error for its own id, a full one is left alone. */
  lemma {:induction false} DrainInOrderEffect(sh: Shared, order: seq<int>)
    requires OwnChannels(sh) && Distinct(order) && forall i | i in order :: i in sh.pending
    ensures var r := DrainInOrder(sh, order);
            && (forall i | i in order ::
                  var was := sh.chans[sh.pending[i]];
                  r.chans[sh.pending[i]] == if was == [] then [Line(i, CLOSED)] else was)
            && (forall k | 0 <= k < |sh.chans| && (forall i | i in order :: sh.pending[i] != k) ::
                  r.chans[k] == sh.chans[k])
  {
    if order != [] {
      var prev, last := order[..|order| - 1], order[|order| - 1];
      assert order == prev + [last];
      DrainInOrderEffect(sh, prev);
      assert last !in prev;
    }
  }

  /** The buffers after the first n outputs, none of which has blocked. */
  ghost predicate HasTaken(was: Shared, sh: Shared, outs: seq<Output>, n: nat) {
    && OwnChannels(was) && n <= |outs| && sh == was.(chans := sh.chans) && |sh.chans| == |was.chans|
    && (forall i | i in was.pending ::
          sh.chans[was.pending[i]] == Buffered(was.chans[was.pending[i]], FirstReply(outs[..n], i)))
  }

  /** One more output. */
  lemma TakesNext(was: Shared, sh: Shared, outs: seq<Output>, n: nat)
    requires HasTaken(was, sh, outs, n) && n < |outs|
    ensures !outs[n].Reply? ==> HasTaken(was, sh, outs, n + 1) && !Blocks(was, outs, n)
    ensures outs[n].Reply? ==>
              var id := outs[n].line.id;
              && (id in sh.pending ==> sh.pending[id] < |sh.chans|)
              && (Blocks(was, outs, n) <==> id in sh.pending && sh.chans[sh.pending[id]] != [])
              && (!Blocks(was, outs, n) ==>
                    HasTaken(was, if id in sh.pending then OfferIn(sh, outs[n].line) else sh, outs, n + 1))
  {
    forall i ensures FirstReply(outs[..n + 1], i)
                     == if FirstReply(outs[..n], i).None? && outs[n].Reply? && outs[n].line.id == i
                        then Some(outs[n].line) else FirstReply(outs[..n], i)
    {
      FirstReplyNext(outs, n, i);
    }
    hide FirstReply;
  }

  lemma TakenSoFar(was: Shared, sh: Shared, outs: seq<Output>, n: nat)
    requires HasTaken(was, sh, outs, n)
    ensures sh == was.(chans := sh.chans) && |sh.chans| == |was.chans|
    ensures forall i | i in sh.pending ::
              sh.chans[sh.pending[i]] == Buffered(was.chans[was.pending[i]], FirstReply(outs[..n], i))
  {
  }

  class StdioRunner {
    var nextID: int
    var pending: map<int, Channel>
    var stopped: bool
    var readDone: bool
    /** The channels in the order they were made, and the abstract state. */
    ghost var made: seq<Channel>
    ghost var sh: Shared

    ghost predicate Valid()
      reads this, made
    {
      && sh.nextID == nextID && sh.stopped == stopped && |made| == |sh.chans|
      && pending.Keys == sh.pending.Keys
      && (forall k | 0 <= k < |made| :: made[k].serial == k && made[k].buf == sh.chans[k])
      && (forall i | i in pending :: sh.pending[i] < |made| && made[sh.pending[i]] == pending[i])
      && OwnChannels(sh)
    }

    constructor ()
      ensures Valid() && sh == INITIAL.sh && !readDone
    {
      nextID, pending, stopped, readDone := 0, map[], false, false;
      made, sh := [], INITIAL.sh;
    }

    /** The first region of Call. */
    method Register() returns (ok: bool, id: int, ch: Channel?)
      requires Valid()
      modifies this
      ensures Valid() && readDone == old(readDone)
      ensures ok == !old(stopped)
      ensures ok ==> sh == RegisterIn(old(sh)) && id == sh.nextID && ch == pending[id] && ch.buf == []
      ensures ok ==> fresh(ch) && made == old(made) + [ch]
      ensures !ok ==> sh == old(sh) && made == old(made) && ch == null
    {
      if stopped {
        return false, 0, null;
      }
      nextID := nextID + 1;
      id := nextID;
      ch := new Channel(|made|);
      pending := pending[id := ch];
      made, sh := made + [ch], RegisterIn(sh);
      ok := true;
    }

    /** The deferred region of Call. */
    method Unregister(id: int)
      requires Valid()
      modifies this
      ensures Valid() && sh == LeaveIn(old(sh), id) && made == old(made) && readDone == old(readDone)
    {
      pending := pending - {id};
      sh := LeaveIn(sh, id);
    }

    /** The reader's lookup. */
    method Lookup(id: int) returns (ch: Channel?)
      requires Valid()
      ensures ch != null <==> id in sh.pending
      ensures ch != null ==> ch == made[sh.pending[id]] && ch.buf == sh.chans[sh.pending[id]]
    {
      ch := if id in pending then pending[id] else null;
    }

    /** The first region of Stop. */
    method MarkStopped() returns (first: bool)
      requires Valid()
      modifies this
      ensures Valid() && made == old(made) && readDone == old(readDone)
      ensures first == !old(stopped) && sh == old(sh).(stopped := true)
    {
      first := !stopped;
      stopped := true;
      sh := sh.(stopped := true);
    }

    /** A send to an outstanding call, which a full buffer turns away. */
    method Offer(ch: Channel, line: Line)
      requires Valid() && line.id in sh.pending && ch == made[sh.pending[line.id]]
      modifies this, ch
      ensures Valid() && made == old(made) && readDone == old(readDone) && pending == old(pending)
      ensures sh == OfferIn(old(sh), line)
    {
      ghost var at, was := sh.pending[line.id], sh;
      assert forall k | 0 <= k < |made| && k != at :: made[k] != ch;
      var sent := ch.TrySend(line);
      assert forall k | 0 <= k < |made| && k != at :: made[k].buf == was.chans[k];
      if sent {
        sh := SendIn(sh, sh.pending[line.id], line);
      }
    }

    /** The drain: every outstanding call whose buffer is empty gets the synthetic
        error, in whatever order the table is walked; full buffers are left alone. */
    method Drain()
      requires Valid()
      modifies this, made
      ensures Valid() && made == old(made) && pending == old(pending) && readDone == old(readDone)
      ensures sh == old(sh).(chans := sh.chans) && |sh.chans| == |old(sh).chans|
      ensures forall i | i in sh.pending ::
                var was := old(sh).chans[sh.pending[i]];
                sh.chans[sh.pending[i]] == if was == [] then [Line(i, CLOSED)] else was
      ensures forall k | 0 <= k < |sh.chans| && k !in sh.pending.Values :: sh.chans[k] == old(sh).chans[k]
    {
      var todo := pending.Keys;
      ghost var was, order := sh, [];
      while todo != {}
        invariant Valid() && made == old(made) && pending == old(pending) && readDone == old(readDone)
        invariant todo <= was.pending.Keys
        invariant Distinct(order) && (forall i :: i in order <==> i in was.pending && i !in todo)
        invariant DrainInOrder(was, order) == sh
        decreases todo
      {
        SomeId(todo);
        var id: int :| id in todo;
        todo := todo - {id};
        Offer(pending[id], Line(id, CLOSED));
        assert (order + [id])[..|order|] == order;
        order := order + [id];
      }
      DrainInOrderEffect(was, order);
    }

    /** The reader's send of one reply: dropped when nobody waits for the id, and blocked
        when the buffer is full. */
    method Route(line: Line) returns (blocked: bool)
      requires Valid()
      modifies this, made
      ensures Valid() && made == old(made) && readDone == old(readDone) && pending == old(pending)
      ensures blocked <==> line.id in old(sh).pending && old(sh).chans[old(sh).pending[line.id]] != []
      ensures sh == if line.id in old(sh).pending then OfferIn(old(sh), line) else old(sh)
      ensures blocked ==> sh == old(sh)
    {
      blocked := false;
      var ch := Lookup(line.id);
      if ch != null {
        if ch.buf != [] {
          blocked := true;
        } else {
          Offer(ch, line);
        }
      }
    }

    /** One turn of the scanning loop. */
    method Take(outs: seq<Output>, n: nat, ghost was: Shared) returns (blocked: bool)
      requires Valid() && n < |outs| && HasTaken(was, sh, outs, n)
      modifies this, made
      ensures Valid() && made == old(made) && pending == old(pending) && readDone == old(readDone)
      ensures blocked <==> Blocks(was, outs, n)
      ensures HasTaken(was, sh, outs, if blocked then n else n + 1)
    {
      hide StdioRunner.Valid, HasTaken, Blocks, OfferIn;
      TakesNext(was, sh, outs, n);
      blocked := false;
      if outs[n].Reply? {
        blocked := Route(outs[n].line);
      }
    }

    /** The scanning loop, which takes one line after the other up to the first reply that
        finds its buffer full. */
    method Scan(outs: seq<Output>) returns (taken: nat)
      requires Valid()
      modifies this, made
      ensures Valid() && made == old(made) && pending == old(pending) && readDone == old(readDone)
      ensures taken <= |outs| && HasTaken(old(sh), sh, outs, taken)
      ensures forall m | 0 <= m < taken :: !Blocks(old(sh), outs, m)
      ensures taken < |outs| ==> Blocks(old(sh), outs, taken)
    {
      taken := 0;
      ghost var was := sh;
      assert HasTaken(was, sh, outs, 0);
      assert OwnChannels(was);
      hide *;
      while taken < |outs|
        invariant taken <= |outs| && HasTaken(was, sh, outs, taken)
        invariant Valid() && made == old(made) && pending == old(pending) && readDone == old(readDone)
        invariant forall m | 0 <= m < taken :: !Blocks(was, outs, m)
      {
        var blocked := Take(outs, taken, was);
        if blocked {
          return;
        }
        taken := taken + 1;
      }
    }

    /** The whole reader, on a child that prints outs and closes its output while no call
        comes, goes or receives. At the first reply that finds its buffer full it stays;
        without one it drains and is done. Every outstanding call then has what it had
        before, or else the first reply to its id, or, after the drain, the synthetic
        error. */
    method ReadLoop(outs: seq<Output>) returns (taken: nat)
      requires Valid()
      modifies this, made
      ensures Valid() && pending == old(pending) && sh == old(sh).(chans := sh.chans)
      ensures |sh.chans| == |old(sh).chans| && taken <= |outs|
      ensures forall m | 0 <= m < taken :: !Blocks(old(sh), outs, m)
      ensures taken < |outs| ==> Blocks(old(sh), outs, taken) && readDone == old(readDone)
      ensures taken == |outs| ==> readDone
      ensures forall i | i in sh.pending ::
                var buf := Buffered(old(sh).chans[sh.pending[i]], FirstReply(outs[..taken], i));
                sh.chans[sh.pending[i]] == if taken == |outs| then DrainedTo(buf, i) else buf
    {
      taken := Scan(outs);
      TakenSoFar(old(sh), sh, outs, taken);
      hide StdioRunner.Valid, HasTaken, Blocks, FirstReply, Buffered;
      if taken == |outs| {
        Drain();
        readDone := true;
      }
    }
  }
}
