/**
 Newline framing of the child's input (internal/server/stdio_runner.go, writeLine).
 Any number of writers, each write reaching the pipe in chunks of any size and perhaps
 breaking off, one lock held from the first to the last chunk. Encodings contain no
 newline.
 */
module Framing {
  import opened Common

  /** The message being written under the lock, and what of it is still to be written. */
  datatype Hold = Hold(message: string, rest: string)

  /** sent lists the messages written in full, in the order of the lock. Of the characters
      that writes which broke off have left in the pipe, buried counts those before the last
      message sent, loose those after it. */
  datatype State = State(stdin: string, hold: Option<Hold>, sent: seq<string>, buried: nat, loose: nat)

  datatype Event = Acquire(message: string) | Chunk(n: nat) | Release | BreakOff

  const START := State("", None, [], 0, 0)

  predicate NewlineFree(s: string) {
    '\n' !in s
  }

  predicate Enabled(s: State, e: Event) {
    match e
    case Acquire(message) => s.hold.None? && NewlineFree(message)
    case Chunk(n) => s.hold.Some? && 0 < n <= |s.hold.value.rest|
    case Release => s.hold.Some? && s.hold.value.rest == ""
    case BreakOff => s.hold.Some? && 0 < |s.hold.value.rest| <= |s.hold.value.message| + 1
  }

  function Apply(s: State, e: Event): State
    requires Enabled(s, e)
  {
    match e
    case Acquire(message) => s.(hold := Some(Hold(message, message + "\n")))
    case Chunk(n) =>
      var h := s.hold.value;
      s.(stdin := s.stdin + h.rest[..n], hold := Some(h.(rest := h.rest[n..])))
    case Release =>
      s.(hold := None, sent := s.sent + [s.hold.value.message], buried := s.buried + s.loose, loose := 0)
    case BreakOff => s.(hold := None, loose := s.loose + |s.hold.value.message| + 1 - |s.hold.value.rest|)
  }

  predicate Legal(s: State, es: seq<Event>)
    decreases |es|
  {
    es == [] || (Enabled(s, es[0]) && Legal(Apply(s, es[0]), es[1..]))
  }

  function After(s: State, es: seq<Event>): State
    requires Legal(s, es)
    decreases |es|
  {
    if es == [] then s else After(Apply(s, es[0]), es[1..])
  }

  /** What the child reads: the newline-terminated lines, and an unfinished rest. */
  datatype Split = Split(lines: seq<string>, rest: string)

  function SplitLines(s: string): Split {
    if s == "" then Split([], "")
    else
      var before := SplitLines(s[..|s| - 1]);
      if s[|s| - 1] == '\n'
      then Split(before.lines + [before.rest], "")
      else Split(before.lines, before.rest + [s[|s| - 1]])
  }

  lemma SplitOne(s: string, c: char)
    requires c != '\n'
    ensures SplitLines(s + [c]) == Split(SplitLines(s).lines, SplitLines(s).rest + [c])
  {
    assert (s + [c])[..|s|] == s;
  }

  lemma {:induction false} SplitAppend(s: string, t: string)
    requires NewlineFree(t)
    ensures SplitLines(s + t) == Split(SplitLines(s).lines, SplitLines(s).rest + t)
  {
    hide SplitLines;
    if t == "" {
      assert s + t == s;
      assert SplitLines(s).rest + t == SplitLines(s).rest;
    } else {
      var u, c := t[..|t| - 1], t[|t| - 1];
      assert t == u + [c] && c in t;
      SplitAppend(s, u);
      SplitOne(s + u, c);
      assert s + t == s + u + [c];
      assert SplitLines(s).rest + u + [c] == SplitLines(s).rest + t;
    }
  }

  lemma SplitNewline(s: string)
    ensures SplitLines(s + "\n") == Split(SplitLines(s).lines + [SplitLines(s).rest], "")
  {
    assert (s + "\n")[..|s|] == s;
  }

  /** The characters that messages take up, with their newlines. */
  function Length(messages: seq<string>): nat {
    if messages == [] then 0 else Length(messages[..|messages| - 1]) + |messages[|messages| - 1]| + 1
  }

  /** Splitting neither adds nor loses a character. */
  lemma {:induction false} SplitKeepsLength(s: string)
    ensures Length(SplitLines(s).lines) + |SplitLines(s).rest| == |s|
  {
    if s != "" {
      SplitKeepsLength(s[..|s| - 1]);
      var before := SplitLines(s[..|s| - 1]);
      assert (before.lines + [before.rest])[..|before.lines|] == before.lines;
    }
  }

  /** What of the current message is through. */
  function Through(h: Hold): nat
    requires |h.rest| <= |h.message| + 1
  {
    |h.message| + 1 - |h.rest|
  }

  predicate HoldOk(h: Hold) {
    NewlineFree(h.message) && |h.rest| <= |h.message| + 1 && h.rest == (h.message + "\n")[Through(h)..]
  }

  /** Lines that are the messages sent and so many characters more; the messages themselves
      when there is none more. */
  predicate LinesOk(lines: seq<string>, sent: seq<string>, more: nat) {
    Length(lines) == Length(sent) + more && (more == 0 ==> lines == sent)
  }

  /** What the child has read: lines that hold the messages sent and what is buried, and a
      rest that holds what is loose and what is through of the current message. */
  ghost predicate Framed(s: State) {
    var read := SplitLines(s.stdin);
    match s.hold
    case None => LinesOk(read.lines, s.sent, s.buried) && |read.rest| == s.loose
    case Some(h) =>
      && HoldOk(h)
      && if h.rest == "" then LinesOk(read.lines, s.sent + [h.message], s.buried + s.loose) && read.rest == ""
         else LinesOk(read.lines, s.sent, s.buried) && |read.rest| == s.loose + Through(h)
              && (s.loose == 0 ==> read.rest == h.message[..Through(h)])
  }

  lemma StepKeepsFramed(s: State, e: Event)
    requires Framed(s) && Enabled(s, e)
    ensures Framed(Apply(s, e))
  {
    hide SplitLines, Length, NewlineFree;
    match e
    case Acquire(_) =>
    case Chunk(n) =>
      ChunkKeepsFramed(s, n);
    case Release =>
    case BreakOff =>
  }

  lemma ChunkKeepsFramed(s: State, n: nat)
    requires Framed(s) && Enabled(s, Chunk(n))
    ensures Framed(Apply(s, Chunk(n)))
  {
    hide SplitLines, Length;
    var h := s.hold.value;
    var done := Through(h);
    assert Apply(s, Chunk(n)).hold.value.rest == (h.message + "\n")[done + n..];
    if n < |h.rest| {
      assert h.rest[..n] == h.message[done..done + n];
      SplitAppend(s.stdin, h.rest[..n]);
      assert h.message[..done] + h.rest[..n] == h.message[..done + n];
    } else {
      assert h.rest[..n] == h.message[done..] + "\n";
      LastChunk(s.stdin, h.message[done..]);
      OneMoreLine(SplitLines(s.stdin).lines, s.sent, s.buried, SplitLines(s.stdin).rest + h.message[done..], h.message,
                  s.loose);
    }
  }

  /** The chunk that ends a message. */
  lemma LastChunk(stdin: string, piece: string)
    requires NewlineFree(piece)
    ensures SplitLines(stdin + (piece + "\n"))
            == Split(SplitLines(stdin).lines + [SplitLines(stdin).rest + piece], "")
  {
    hide SplitLines;
    SplitAppend(stdin, piece);
    SplitNewline(stdin + piece);
    assert stdin + (piece + "\n") == (stdin + piece) + "\n";
  }

  lemma OneMoreLine(lines: seq<string>, sent: seq<string>, buried: nat, line: string, message: string, loose: nat)
    requires LinesOk(lines, sent, buried) && |line| == |message| + loose && (loose == 0 ==> line == message)
    ensures LinesOk(lines + [line], sent + [message], buried + loose)
  {
    assert (lines + [line])[..|lines|] == lines && (sent + [message])[..|sent|] == sent;
  }

  lemma {:induction false} RunsKeepFramed(s: State, es: seq<Event>)
    requires Framed(s) && Legal(s, es)
    ensures Framed(After(s, es))
    decreases |es|
  {
    hide Framed, Enabled, Apply;
    if es != [] {
      StepKeepsFramed(s, es[0]);
      RunsKeepFramed(Apply(s, es[0]), es[1..]);
    }
  }

  /** With nobody writing: the child's lines are exactly the messages written in full, in
      the order of the lock, if and only if none was sent after a fragment; and nothing else
      is in the pipe if and only if no fragment was left at all. */
  lemma LinesAreMessagesIff(s: State)
    requires Framed(s) && s.hold.None?
    ensures SplitLines(s.stdin).lines == s.sent <==> s.buried == 0
    ensures SplitLines(s.stdin) == Split(s.sent, "") <==> s.buried == 0 && s.loose == 0
  {
    hide SplitLines, Length;
  }

  /** The same for every run. */
  lemma RunsSplitIntoMessagesIff(es: seq<Event>)
    requires Legal(START, es) && After(START, es).hold.None?
    ensures var s := After(START, es);
            && (SplitLines(s.stdin).lines == s.sent <==> s.buried == 0)
            && (SplitLines(s.stdin) == Split(s.sent, "") <==> s.buried == 0 && s.loose == 0)
  {
    RunsKeepFramed(START, es);
    LinesAreMessagesIff(After(START, es));
  }

  /** A pipe on which a write has failed takes no message any more. */
  predicate StaysBroken(es: seq<Event>) {
    forall i, j | 0 <= i < j < |es| && es[i].BreakOff? :: !es[j].Release?
  }

  /** On such a pipe nothing is ever buried: the child's lines are the messages. */
  lemma {:induction false} BrokenPipeBuriesNothing(s: State, es: seq<Event>)
    requires Legal(s, es) && StaysBroken(es) && s.buried == 0
    requires s.loose > 0 ==> Release !in es
    ensures After(s, es).buried == 0
    decreases |es|
  {
    if es != [] {
      assert forall j | 0 <= j < |es[1..]| :: es[1..][j] == es[j + 1];
      BrokenPipeBuriesNothing(Apply(s, es[0]), es[1..]);
    }
  }

  lemma BrokenPipeKeepsLines(es: seq<Event>)
    requires Legal(START, es) && StaysBroken(es) && After(START, es).hold.None?
    ensures SplitLines(After(START, es).stdin).lines == After(START, es).sent
  {
    BrokenPipeBuriesNothing(START, es);
    RunsSplitIntoMessagesIff(es);
  }

  lemma Begin(s: State, e: Event, rest: seq<Event>)
    requires Enabled(s, e) && Legal(Apply(s, e), rest)
    ensures Legal(s, [e] + rest) && After(s, [e] + rest) == After(Apply(s, e), rest)
  {
    hide Enabled, Apply;
    assert ([e] + rest)[1..] == rest;
  }

  /** A write that breaks off after n characters. */
  lemma LeaveFragment(s: State, m: string, n: nat, rest: seq<Event>)
    requires s.hold.None? && NewlineFree(m) && 0 < n <= |m|
    requires Legal(s.(stdin := s.stdin + m[..n], loose := s.loose + n), rest)
    ensures Legal(s, [Acquire(m)] + ([Chunk(n)] + ([BreakOff] + rest)))
    ensures After(s, [Acquire(m)] + ([Chunk(n)] + ([BreakOff] + rest)))
            == After(s.(stdin := s.stdin + m[..n], loose := s.loose + n), rest)
  {
    Fragment(s, m, n);
    var s1 := Apply(s, Acquire(m));
    var s2 := Apply(s1, Chunk(n));
    hide *;
    Begin(s2, BreakOff, rest);
    Begin(s1, Chunk(n), [BreakOff] + rest);
    Begin(s, Acquire(m), [Chunk(n)] + ([BreakOff] + rest));
  }

  lemma Fragment(s: State, m: string, n: nat)
    requires s.hold.None? && NewlineFree(m) && 0 < n <= |m|
    ensures Enabled(s, Acquire(m))
    ensures var s1 := Apply(s, Acquire(m));
            && Enabled(s1, Chunk(n))
            && var s2 := Apply(s1, Chunk(n));
               Enabled(s2, BreakOff)
               && Apply(s2, BreakOff) == s.(stdin := s.stdin + m[..n], loose := s.loose + n)
  {
    hide NewlineFree;
    assert (m + "\n")[..n] == m[..n];
  }

  /** A write that gets through. */
  lemma SendMessage(s: State, m: string)
    requires s.hold.None? && NewlineFree(m)
    ensures var es := [Acquire(m)] + ([Chunk(|m| + 1)] + ([Release] + []));
            && Legal(s, es)
            && After(s, es) == State(s.stdin + m + "\n", None, s.sent + [m], s.buried + s.loose, 0)
  {
    var s1 := Apply(s, Acquire(m));
    var s2 := Apply(s1, Chunk(|m| + 1));
    assert (m + "\n")[..|m| + 1] == m + "\n" && (m + "\n")[|m| + 1..] == "";
    assert s.stdin + (m + "\n") == s.stdin + m + "\n";
    var s3 := Apply(s2, Release);
    assert Legal(s3, []) && After(s3, []) == s3;
    hide Legal, After, NewlineFree;
    Begin(s2, Release, []);
    Begin(s1, Chunk(|m| + 1), [Release] + []);
    Begin(s, Acquire(m), [Chunk(|m| + 1)] + ([Release] + []));
  }

  /** A fragment of any message is buried, if the pipe does take another message after it:
      the child reads one line that nobody sent. */
  lemma FragmentSpoilsMessage(m: string, n: nat, next: string) returns (es: seq<Event>)
    requires NewlineFree(m) && NewlineFree(next) && 0 < n <= |m|
    ensures Legal(START, es) && After(START, es).hold.None? && After(START, es).buried == n
    ensures After(START, es).sent == [next] && SplitLines(After(START, es).stdin) == Split([m[..n] + next], "")
  {
    var s1 := START.(stdin := START.stdin + m[..n], loose := START.loose + n);
    var rest := [Acquire(next)] + ([Chunk(|next| + 1)] + ([Release] + []));
    hide Legal, After, Enabled, Apply, SplitLines, NewlineFree;
    SendMessage(s1, next);
    LeaveFragment(START, m, n, rest);
    es := [Acquire(m)] + ([Chunk(n)] + ([BreakOff] + rest));
    assert "" + m[..n] == m[..n];
    PieceIsNewlineFree(m, n);
    TwoInOne(m[..n], next);
  }

  lemma TwoInOne(piece: string, next: string)
    requires NewlineFree(piece) && NewlineFree(next)
    ensures SplitLines(piece + next + "\n") == Split([piece + next], "")
  {
    assert SplitLines("") == Split([], "");
    hide SplitLines;
    SplitAppend("", piece);
    assert "" + piece == piece;
    LastChunk(piece, next);
    assert piece + next + "\n" == piece + (next + "\n");
  }

  lemma PieceIsNewlineFree(m: string, n: nat)
    requires NewlineFree(m) && n <= |m|
    ensures NewlineFree(m[..n])
  {
  }
}
