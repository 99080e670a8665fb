/** Commands in a byte stream that arrives in arbitrary pieces: lines on the client socket
    (src/service/qvpnclientconnection.cpp), CRLF on the service socket
    (src/common/qtservice/qtservice_unix.cpp). */
module Framing {
  import opened Common

  const NEWLINE: string := "\n"
  const CRLF: string := "\r\n"

  // ------------------------------------------------------------------ cutting at a delimiter

  predicate Occurs(s: string, d: string, i: nat) {
    i + |d| <= |s| && s[i..i + |d|] == d
  }

  /** The first occurrence of d, or -1. */
  function IndexOf(s: string, d: string): (i: int)
    ensures -1 <= i
    ensures i >= 0 ==> Occurs(s, d, i) && i + |d| <= |s|
    ensures forall j: nat :: Occurs(s, d, j) ==> 0 <= i <= j
  {
    IndexFrom(s, d, 0)
  }

  function IndexFrom(s: string, d: string, from: nat): (i: int)
    ensures i == -1 || i >= from
    ensures i >= 0 ==> Occurs(s, d, i)
    ensures forall j: nat :: from <= j && Occurs(s, d, j) ==> from <= i <= j
    decreases |s| - from
  {
    if from + |d| > |s| then -1
    else if Occurs(s, d, from) then from
    else IndexFrom(s, d, from + 1)
  }

  /** The complete commands of a stream, and what is left of it. */
  datatype Cut = Cut(commands: seq<string>, rest: string)

  function CutAt(s: string, d: string): Cut
    requires d != ""
    decreases |s|
  {
    var i := IndexOf(s, d);
    if i < 0 then Cut([], s)
    else
      var c := CutAt(s[i + |d|..], d);
      c.(commands := [s[..i]] + c.commands)
  }

  /** A command ends at the first delimiter after it. */
  predicate IsCommand(c: string, d: string) {
    IndexOf(c + d, d) == |c|
  }

  lemma CutStep(s: string, d: string)
    requires d != ""
    ensures var i := IndexOf(s, d);
            CutAt(s, d) == if i < 0 then Cut([], s)
                           else Cut([s[..i]] + CutAt(s[i + |d|..], d).commands, CutAt(s[i + |d|..], d).rest)
  {
    hide IndexOf;
  }

  lemma IndexInPrefix(s: string, t: string, d: string)
    requires IndexOf(s, d) >= 0
    ensures IndexOf(s + t, d) == IndexOf(s, d)
  {
    var i, j := IndexOf(s, d), IndexOf(s + t, d);
    assert (s + t)[i..i + |d|] == s[i..i + |d|];
    assert Occurs(s + t, d, i);
    assert (s + t)[j..j + |d|] == s[j..j + |d|];
    assert Occurs(s, d, j);
  }

  lemma Slices(s: string, t: string, i: nat, n: nat)
    requires i + n <= |s|
    ensures (s + t)[i + n..] == s[i + n..] + t && (s + t)[..i] == s[..i]
  {
  }

  /** Cutting what has arrived, and later the rest together with what comes, is cutting it all. */
  lemma {:induction false} CutInPieces(s: string, t: string, d: string)
    requires d != ""
    ensures CutAt(s + t, d).commands == CutAt(s, d).commands + CutAt(CutAt(s, d).rest + t, d).commands
    ensures CutAt(s + t, d).rest == CutAt(CutAt(s, d).rest + t, d).rest
    decreases |s|
  {
    hide *;
    var i := IndexOf(s, d);
    CutStep(s, d);
    if i >= 0 {
      var tail := s[i + |d|..];
      IndexInPrefix(s, t, d);
      Slices(s, t, i, |d|);
      CutStep(s + t, d);
      CutInPieces(tail, t, d);
    }
  }

  /** Commands, delimiters and rest make up the stream again. */
  lemma {:induction false} CutReconstructs(s: string, d: string)
    requires d != ""
    ensures Join(CutAt(s, d).commands, d) + CutAt(s, d).rest == s
    decreases |s|
  {
    var i := IndexOf(s, d);
    if i >= 0 {
      var c := CutAt(s[i + |d|..], d);
      CutReconstructs(s[i + |d|..], d);
      assert ([s[..i]] + c.commands)[1..] == c.commands;
      assert s == s[..i] + d + s[i + |d|..];
    }
  }

  lemma {:induction false} CutIsClean(s: string, d: string)
    requires d != ""
    ensures IndexOf(CutAt(s, d).rest, d) == -1
    ensures forall k :: 0 <= k < |CutAt(s, d).commands| ==> IsCommand(CutAt(s, d).commands[k], d)
    decreases |s|
  {
    var i := IndexOf(s, d);
    if i >= 0 {
      CutIsClean(s[i + |d|..], d);
      FirstIsCommand(s, d);
    }
  }

  lemma FirstIsCommand(s: string, d: string)
    requires IndexOf(s, d) >= 0
    ensures IsCommand(s[..IndexOf(s, d)], d)
  {
    var i := IndexOf(s, d);
    var p, t := s[..i] + d, s[i + |d|..];
    assert s == p + t;
    assert p[i..i + |d|] == d;
    assert Occurs(p, d, i);
    IndexInPrefix(p, t, d);
  }

  /** There is no other way to cut a stream. */
  lemma {:induction false} CutIsUnique(commands: seq<string>, rest: string, d: string)
    requires d != "" && IndexOf(rest, d) == -1
    requires forall k :: 0 <= k < |commands| ==> IsCommand(commands[k], d)
    ensures CutAt(Join(commands, d) + rest, d) == Cut(commands, rest)
  {
    hide CutAt, IndexOf;
    var s := Join(commands, d) + rest;
    CutStep(s, d);
    if commands == [] {
      assert s == rest;
    } else {
      var c, tail := commands[0], Join(commands[1..], d) + rest;
      assert s == (c + d) + tail;
      assert IsCommand(c, d);
      IndexInPrefix(c + d, tail, d);
      assert s[|c| + |d|..] == tail && s[..|c|] == c;
      CutIsUnique(commands[1..], rest, d);
    }
  }

  function Concat(chunks: seq<string>): string {
    if chunks == [] then "" else Concat(chunks[..|chunks| - 1]) + chunks[|chunks| - 1]
  }

  // ------------------------------------------------------------------ lines

  /** A client's buffer, and all commands taken out of it so far. */
  datatype Reader = Reader(buffer: string, done: seq<string>)

  function Read(r: Reader, chunk: string): Reader {
    var c := CutAt(r.buffer + chunk, NEWLINE);
    Reader(c.rest, r.done + c.commands)
  }

  function ReadAll(chunks: seq<string>): Reader {
    if chunks == [] then Reader("", []) else Read(ReadAll(chunks[..|chunks| - 1]), chunks[|chunks| - 1])
  }

  /** However the stream is split into reads, the commands are the lines of the whole stream. */
  lemma {:induction false} LinesDoNotDependOnChunks(chunks: seq<string>)
    ensures ReadAll(chunks).done == CutAt(Concat(chunks), NEWLINE).commands
    ensures ReadAll(chunks).buffer == CutAt(Concat(chunks), NEWLINE).rest
  {
    if chunks != [] {
      var before, last := chunks[..|chunks| - 1], chunks[|chunks| - 1];
      LinesDoNotDependOnChunks(before);
      CutInPieces(Concat(before), last, NEWLINE);
    }
  }

  class ClientConnection {
    var mReceiveBuffer: string

    constructor ()
      ensures mReceiveBuffer == ""
    {
      mReceiveBuffer := "";
    }

    /** socket_readyRead: the commands in the order in which they are executed. */
    method SocketReadyRead(bytesRead: string) returns (commands: seq<string>)
      modifies this
      ensures Cut(commands, mReceiveBuffer) == CutAt(old(mReceiveBuffer) + bytesRead, NEWLINE)
    {
      hide CutAt, IndexOf;
      ghost var all := mReceiveBuffer + bytesRead;
      mReceiveBuffer := mReceiveBuffer + bytesRead;
      commands := [];
      while IndexOf(mReceiveBuffer, NEWLINE) >= 0
        invariant CutAt(all, NEWLINE).commands == commands + CutAt(mReceiveBuffer, NEWLINE).commands
        invariant CutAt(all, NEWLINE).rest == CutAt(mReceiveBuffer, NEWLINE).rest
        decreases |mReceiveBuffer|
      {
        CutStep(mReceiveBuffer, NEWLINE);
        var command := mReceiveBuffer[..IndexOf(mReceiveBuffer, NEWLINE)];
        mReceiveBuffer := mReceiveBuffer[|command| + 1..];
        commands := commands + [command];
      }
      CutStep(mReceiveBuffer, NEWLINE);
    }
  }

  // ------------------------------------------------------------------ CRLF

  /** What slotReady takes out of a socket's cache: an empty command ends its loop, as the absence of one does. */
  function Dispatch(s: string): Cut
    decreases |s|
  {
    var i := IndexOf(s, CRLF);
    if i < 0 then Cut([], s)
    else if i == 0 then Cut([], s[2..])
    else
      var c := Dispatch(s[i + 2..]);
      c.(commands := [s[..i]] + c.commands)
  }

  function NonEmpty(commands: seq<string>): seq<string> {
    if commands == [] then []
    else (if commands[0] == "" then [] else [commands[0]]) + NonEmpty(commands[1..])
  }

  lemma DispatchStep(s: string)
    ensures var i := IndexOf(s, CRLF);
            Dispatch(s) == if i < 0 then Cut([], s)
                           else if i == 0 then Cut([], s[2..])
                           else Cut([s[..i]] + Dispatch(s[i + 2..]).commands, Dispatch(s[i + 2..]).rest)
  {
    hide IndexOf;
  }

  /** n commands are taken out: those before the first empty one. That one is taken out too, and then the loop ends. */
  predicate TakesOut(all: seq<string>, n: nat, waiting: seq<string>) {
    && n <= |all| && (forall k :: 0 <= k < n ==> all[k] != "")
    && if n == |all| then waiting == [] else all[n] == "" && waiting == all[n + 1..]
  }

  lemma TakesOutMore(c: string, all: seq<string>, n: nat, waiting: seq<string>)
    requires TakesOut(all, n, waiting) && c != ""
    ensures TakesOut([c] + all, n + 1, waiting) && ([c] + all)[..n + 1] == [c] + all[..n]
  {
  }

  lemma {:induction false} DispatchTakesOut(s: string)
    ensures var all, c := CutAt(s, CRLF), Dispatch(s);
            && TakesOut(all.commands, |c.commands|, CutAt(c.rest, CRLF).commands)
            && c.commands == all.commands[..|c.commands|] && CutAt(c.rest, CRLF).rest == all.rest
    decreases |s|
  {
    hide CutAt, Dispatch, IndexOf, TakesOut;
    var i := IndexOf(s, CRLF);
    CutStep(s, CRLF);
    DispatchStep(s);
    if i > 0 {
      var t := s[i + 2..];
      DispatchTakesOut(t);
      TakesOutMore(s[..i], CutAt(t, CRLF).commands, |Dispatch(t).commands|, CutAt(Dispatch(t).rest, CRLF).commands);
    } else if i == 0 {
      TakesOutEmpty(CutAt(s[2..], CRLF).commands);
    } else {
      TakesOutNothing();
    }
  }

  lemma TakesOutEmpty(all: seq<string>)
    ensures TakesOut([""] + all, 0, all)
  {
  }

  lemma TakesOutNothing()
    ensures TakesOut([], 0, [])
  {
  }

  /** No other command follows an empty one. */
  predicate EmptiesLast(commands: seq<string>) {
    forall i, j :: 0 <= i < j < |commands| && commands[i] == "" ==> commands[j] == ""
  }

  lemma {:induction false} NonEmptyIsNone(commands: seq<string>)
    ensures NonEmpty(commands) == [] <==> forall k :: 0 <= k < |commands| ==> commands[k] == ""
  {
    if commands != [] {
      NonEmptyIsNone(commands[1..]);
    }
  }

  /** After a read no command waits that would be executed, if and only if none of those that were complete
      followed an empty one; nothing complete waits at all, if and only if only the last was empty, if any. */
  lemma WaitingIff(s: string)
    ensures var all, waiting := CutAt(s, CRLF).commands, CutAt(Dispatch(s).rest, CRLF).commands;
            && (NonEmpty(waiting) == [] <==> EmptiesLast(all))
            && (waiting == [] <==> forall k :: 0 <= k < |all| - 1 ==> all[k] != "")
  {
    hide CutAt, Dispatch, NonEmpty;
    DispatchTakesOut(s);
    var all, waiting, n := CutAt(s, CRLF).commands, CutAt(Dispatch(s).rest, CRLF).commands, |Dispatch(s).commands|;
    NonEmptyIsNone(waiting);
    if n < |all| {
      assert forall k :: 0 <= k < |waiting| ==> waiting[k] == all[n + 1 + k];
      assert forall j :: n < j < |all| ==> all[j] == waiting[j - n - 1];
      assert n < |all| - 1 ==> all[n] == "";
    }
  }

  lemma {:induction false} NonEmptyAppend(a: seq<string>, b: seq<string>)
    ensures NonEmpty(a + b) == NonEmpty(a) + NonEmpty(b)
  {
    if a == [] {
      assert a + b == b;
    } else {
      assert (a + b)[1..] == a[1..] + b;
      NonEmptyAppend(a[1..], b);
    }
  }

  /** Dispatching loses nothing but empty commands. */
  lemma {:induction false} DispatchConserves(s: string)
    ensures Dispatch(s).commands + NonEmpty(CutAt(Dispatch(s).rest, CRLF).commands) == NonEmpty(CutAt(s, CRLF).commands)
    ensures CutAt(Dispatch(s).rest, CRLF).rest == CutAt(s, CRLF).rest
    decreases |s|
  {
    var i := IndexOf(s, CRLF);
    if i >= 0 {
      var c := CutAt(s[i + 2..], CRLF);
      assert CutAt(s, CRLF).commands == [s[..i]] + c.commands;
      assert ([s[..i]] + c.commands)[1..] == c.commands;
      if i > 0 {
        DispatchConserves(s[i + 2..]);
      }
    } else {
      assert CutAt(s, CRLF).commands == [];
    }
  }

  function Receive(r: Reader, chunk: string): Reader {
    var c := Dispatch(r.buffer + chunk);
    Reader(c.rest, r.done + c.commands)
  }

  function ReceiveAll(chunks: seq<string>): Reader {
    if chunks == [] then Reader("", []) else Receive(ReceiveAll(chunks[..|chunks| - 1]), chunks[|chunks| - 1])
  }

  /** However the stream is split, also inside a CRLF: what was dispatched, followed by the complete commands that
      still wait in the cache, are the non-empty commands of the whole stream. */
  lemma {:induction false} NothingIsLost(chunks: seq<string>)
    ensures var r, all := ReceiveAll(chunks), CutAt(Concat(chunks), CRLF);
            && r.done + NonEmpty(CutAt(r.buffer, CRLF).commands) == NonEmpty(all.commands)
            && CutAt(r.buffer, CRLF).rest == all.rest
  {
    if chunks != [] {
      var before, last := chunks[..|chunks| - 1], chunks[|chunks| - 1];
      var r := ReceiveAll(before);
      NothingIsLost(before);
      var s := r.buffer + last;
      CutInPieces(Concat(before), last, CRLF);
      CutInPieces(r.buffer, last, CRLF);
      var rest := CutAt(CutAt(r.buffer, CRLF).rest + last, CRLF).commands;
      NonEmptyAppend(CutAt(Concat(before), CRLF).commands, rest);
      NonEmptyAppend(CutAt(r.buffer, CRLF).commands, rest);
      DispatchConserves(s);
      Regroup(r.done, Dispatch(s).commands, NonEmpty(CutAt(Dispatch(s).rest, CRLF).commands));
      Regroup(r.done, NonEmpty(CutAt(r.buffer, CRLF).commands), NonEmpty(rest));
      hide CutAt, Dispatch, NonEmpty, Concat;
    }
  }

  lemma Regroup(a: seq<string>, b: seq<string>, c: seq<string>)
    ensures (a + b) + c == a + (b + c)
  {
  }

  // ------------------------------------------------------------------ how a stream is split

  /** What waits is the end of what has been complete, and an empty command came before it. */
  predicate WaitsBehindEmpty(all: seq<string>, waiting: seq<string>, m: nat) {
    && m <= |all| && waiting == all[m..]
    && (m < |all| ==> m > 0 && all[m - 1] == "")
  }

  lemma DispatchWaits(b: seq<string>, waiting: seq<string>, m: nat, x: seq<string>, n: nat, now: seq<string>)
    returns (k: nat)
    requires WaitsBehindEmpty(b, waiting, m) && TakesOut(waiting + x, n, now)
    ensures WaitsBehindEmpty(b + x, now, k)
  {
    assert waiting + x == (b + x)[m..];
    if n == |waiting + x| {
      k := |b + x|;
    } else {
      k := m + n + 1;
      assert (waiting + x)[n] == (b + x)[m + n];
      assert (waiting + x)[n + 1..] == (b + x)[m + n + 1..];
    }
  }

  lemma {:induction false} CacheWaits(chunks: seq<string>) returns (m: nat)
    ensures WaitsBehindEmpty(CutAt(Concat(chunks), CRLF).commands, CutAt(ReceiveAll(chunks).buffer, CRLF).commands, m)
  {
    hide CutAt, Dispatch, WaitsBehindEmpty, TakesOut;
    if chunks == [] {
      m := 0;
      NothingWaits();
    } else {
      var before, last := chunks[..|chunks| - 1], chunks[|chunks| - 1];
      var r := ReceiveAll(before);
      var k := CacheWaits(before);
      NothingIsLost(before);
      CutInPieces(Concat(before), last, CRLF);
      CutInPieces(r.buffer, last, CRLF);
      var x := CutAt(CutAt(r.buffer, CRLF).rest + last, CRLF).commands;
      DispatchTakesOut(r.buffer + last);
      m := DispatchWaits(CutAt(Concat(before), CRLF).commands, CutAt(r.buffer, CRLF).commands, k, x,
                         |Dispatch(r.buffer + last).commands|,
                         CutAt(Dispatch(r.buffer + last).rest, CRLF).commands);
    }
  }

  lemma NothingWaits()
    ensures CutAt("", CRLF) == Cut([], "") && WaitsBehindEmpty([], [], 0)
  {
    hide CutAt;
    CutStep("", CRLF);
  }

  lemma WaitsOnlyEmpties(all: seq<string>, waiting: seq<string>, m: nat)
    requires WaitsBehindEmpty(all, waiting, m) && EmptiesLast(all)
    ensures NonEmpty(waiting) == []
  {
    NonEmptyIsNone(waiting);
    assert forall k :: 0 <= k < |waiting| ==> waiting[k] == all[m + k];
    hide NonEmpty;
  }

  /** If no command follows an empty one, every split dispatches all commands that are not empty. */
  lemma DispatchedHoweverSplit(chunks: seq<string>)
    requires EmptiesLast(CutAt(Concat(chunks), CRLF).commands)
    ensures ReceiveAll(chunks).done == NonEmpty(CutAt(Concat(chunks), CRLF).commands)
  {
    hide CutAt, NonEmpty, Concat, ReceiveAll, EmptiesLast, WaitsBehindEmpty;
    var m := CacheWaits(chunks);
    WaitsOnlyEmpties(CutAt(Concat(chunks), CRLF).commands, CutAt(ReceiveAll(chunks).buffer, CRLF).commands, m);
    NothingIsLost(chunks);
  }

  /** The stream in reads of one byte. */
  function Singles(s: string): (chunks: seq<string>) {
    if s == "" then [] else Singles(s[..|s| - 1]) + [s[|s| - 1..]]
  }

  lemma {:induction false} SinglesConcat(s: string)
    ensures Concat(Singles(s)) == s
  {
    if s != "" {
      SinglesConcat(s[..|s| - 1]);
      var init := Singles(s[..|s| - 1]);
      assert Singles(s)[..|Singles(s)| - 1] == init;
      assert s == s[..|s| - 1] + s[|s| - 1..];
    }
  }

  lemma OccursBefore(s: string, t: string, d: string, i: nat)
    requires Occurs(s + t, d, i)
    ensures i + |d| <= |s| ==> Occurs(s, d, i)
  {
    if i + |d| <= |s| {
      assert (s + t)[i..i + |d|] == s[i..i + |d|];
    }
  }

  lemma AtMostOneMore(s: string, t: string)
    requires CutAt(s, CRLF).commands == [] && |t| == 1
    ensures |CutAt(s + t, CRLF).commands| <= 1
  {
    hide CutAt, IndexOf;
    var i := IndexOf(s + t, CRLF);
    CutStep(s, CRLF);
    CutStep(s + t, CRLF);
    if i >= 0 {
      OccursBefore(s, t, CRLF, i);
      assert (s + t)[i + 2..] == "";
      CutStep("", CRLF);
      assert !Occurs("", CRLF, 0);
    }
  }

  /** Read byte by byte nothing ever waits. */
  lemma {:induction false} SinglesWaitForNothing(s: string)
    ensures CutAt(ReceiveAll(Singles(s)).buffer, CRLF).commands == []
    ensures ReceiveAll(Singles(s)).done == NonEmpty(CutAt(s, CRLF).commands)
  {
    hide CutAt, Dispatch, NonEmpty;
    if s == "" {
      NothingWaits();
    } else {
      var init := s[..|s| - 1];
      SinglesWaitForNothing(init);
      var r := ReceiveAll(Singles(init));
      assert Singles(s)[..|Singles(s)| - 1] == Singles(init);
      AtMostOneMore(r.buffer, s[|s| - 1..]);
      WaitingIff(r.buffer + s[|s| - 1..]);
    }
    SinglesConcat(s);
    NothingIsLost(Singles(s));
    NonEmptyIsNone([]);
  }

  /** Every way to split the stream into reads dispatches the same commands. */
  ghost predicate SplitsAgree(s: string) {
    forall a, b :: Concat(a) == s && Concat(b) == s ==> ReceiveAll(a).done == ReceiveAll(b).done
  }

  lemma OneRead(s: string)
    ensures Concat([s]) == s && ReceiveAll([s]) == Reader(Dispatch(s).rest, Dispatch(s).commands)
  {
    hide Dispatch;
    assert [s][..0] == [] && "" + s == s;
    assert ReceiveAll([]) == Reader("", []);
  }

  /** What a stream makes the service do depends on how it is split into reads, if and only if a command follows
      an empty one in it. */
  lemma SplitsAgreeIff(s: string)
    ensures SplitsAgree(s) <==> EmptiesLast(CutAt(s, CRLF).commands)
  {
    hide CutAt, Dispatch, NonEmpty, EmptiesLast, Concat, ReceiveAll, Singles;
    if EmptiesLast(CutAt(s, CRLF).commands) {
      forall a, b | Concat(a) == s && Concat(b) == s ensures ReceiveAll(a).done == ReceiveAll(b).done {
        DispatchedHoweverSplit(a);
        DispatchedHoweverSplit(b);
      }
    }
    if SplitsAgree(s) {
      OneRead(s);
      SinglesConcat(s);
      SinglesWaitForNothing(s);
      assert ReceiveAll([s]).done == ReceiveAll(Singles(s)).done;
      DispatchConserves(s);
      WaitingIff(s);
    }
  }

  /** An empty command makes the difference: here the same bytes in one read and in two. */
  lemma EmptyCommandDelays()
    ensures ReceiveAll(["\r\nalive\r\n"]).done == []
    ensures ReceiveAll(["\r\n", "alive\r\n"]).done == ["alive"]
    ensures CutAt("\r\nalive\r\n", CRLF).commands == ["", "alive"]
  {
    hide Dispatch, CutAt;
    AliveIsOne();
    StartsEmpty();
    var s, t := "\r\nalive\r\n", "alive\r\n";
    assert [s][..0] == [] && "" + s == s;
    assert ReceiveAll([s]) == Receive(ReceiveAll([]), s);
    assert [CRLF, t][..1] == [CRLF] && [CRLF][..0] == [];
    assert ReceiveAll([CRLF, t]) == Receive(ReceiveAll([CRLF]), t);
    assert ReceiveAll([CRLF]) == Receive(ReceiveAll([]), CRLF);
    assert "" + CRLF == CRLF && "" + t == t;
  }

  lemma StartsEmpty()
    ensures Dispatch("\r\nalive\r\n").commands == []
    ensures Dispatch("\r\n") == Cut([], "")
    ensures CutAt("\r\nalive\r\n", CRLF).commands == ["", "alive"]
  {
    hide Dispatch, CutAt, IndexOf;
    AliveIsOne();
    var s := "\r\nalive\r\n";
    AtOnce(s);
    AtOnce(CRLF);
    assert s[2..] == "alive\r\n" && s[..0] == "" && CRLF[2..] == "";
    CutStep(s, CRLF);
    DispatchStep(s);
    DispatchStep(CRLF);
  }

  lemma AtOnce(s: string)
    requires |s| >= 2 && s[0] == '\r' && s[1] == '\n'
    ensures IndexOf(s, CRLF) == 0
  {
    assert s[0..2] == CRLF && Occurs(s, CRLF, 0);
  }

  lemma AliveIsOne()
    ensures CutAt("alive\r\n", CRLF) == Dispatch("alive\r\n") == Cut(["alive"], "")
  {
    var t := "alive\r\n";
    assert t[5..7] == CRLF && Occurs(t, CRLF, 5);
    var i := IndexOf(t, CRLF);
    assert t[i..i + 2][0] == t[i] == '\r';
    assert i == 5;
    assert t[7..] == "" && t[..5] == "alive";
    assert IndexOf("", CRLF) == -1;
  }

  type Socket = nat

  class ServiceServer {
    var cache: map<Socket, string>

    constructor ()
      ensures cache == map[]
    {
      cache := map[];
    }

    function Buffer(s: Socket): string
      reads this
    {
      if s in cache then cache[s] else ""
    }

    /** The next command, or nothing; either way an empty string if there is none. */
    method GetCommand(s: Socket) returns (ret: string)
      requires s in cache
      modifies this
      ensures s in cache && cache == old(cache)[s := cache[s]]
      ensures var i := IndexOf(old(cache[s]), CRLF);
              if i >= 0 then ret == old(cache[s])[..i] && cache[s] == old(cache[s])[i + 2..]
              else ret == "" && cache[s] == old(cache[s])
      ensures Continues(old(cache[s]), ret, cache[s])
    {
      ContinuesFrom(cache[s]);
      hide Dispatch;
      var pos := IndexOf(cache[s], CRLF);
      if pos >= 0 {
        ret := cache[s][..pos];
        cache := cache[s := cache[s][pos + 2..]];
        return;
      }
      return "";
    }

    /** slotReady: the commands dispatched, in order; other sockets' caches stay as they are. */
    method SlotReady(s: Socket, bytes: string) returns (commands: seq<string>)
      modifies this
      ensures s in cache && cache == old(cache)[s := cache[s]]
      ensures Cut(commands, cache[s]) == Dispatch(old(Buffer(s)) + bytes)
    {
      hide *;
      ghost var all, was := Buffer(s) + bytes, cache;
      NewBuffer(this, s);
      cache := cache[s := Buffer(s) + bytes];
      commands := [];
      DispatchSelf(all);
      var cmd := GetCommand(s);
      ghost var left := all;
      while cmd != ""
        invariant s in cache && cache == was[s := cache[s]]
        invariant Dispatch(all) == Cut(commands + Dispatch(left).commands, Dispatch(left).rest)
        invariant Continues(left, cmd, cache[s])
        decreases |left|
      {
        More(commands, left, cmd, cache[s]);
        left := cache[s];
        commands := commands + [cmd];
        cmd := GetCommand(s);
      }
      Ends(commands, left, cache[s]);
    }
  }

  lemma NewBuffer(c: ServiceServer, s: Socket)
    ensures c.Buffer(s) == if s in c.cache then c.cache[s] else ""
  {
  }

  /** A command was taken from left, and now is what it left behind. */
  predicate Continues(left: string, cmd: string, now: string) {
    if cmd == "" then Dispatch(left) == Cut([], now)
    else |now| < |left| && Dispatch(left) == Cut([cmd] + Dispatch(now).commands, Dispatch(now).rest)
  }

  lemma ContinuesFrom(s: string)
    ensures var i := IndexOf(s, CRLF);
            if i >= 0 then Continues(s, s[..i], s[i + 2..]) else Continues(s, "", s)
  {
    DispatchStep(s);
    hide Dispatch, IndexOf;
  }

  lemma DispatchSelf(s: string)
    ensures Dispatch(s) == Cut([] + Dispatch(s).commands, Dispatch(s).rest)
  {
    hide Dispatch;
  }

  lemma More(commands: seq<string>, left: string, cmd: string, now: string)
    requires Continues(left, cmd, now) && cmd != ""
    ensures |now| < |left|
    ensures Cut(commands + Dispatch(left).commands, Dispatch(left).rest)
         == Cut((commands + [cmd]) + Dispatch(now).commands, Dispatch(now).rest)
  {
    hide Dispatch;
    Regroup(commands, [cmd], Dispatch(now).commands);
  }

  lemma Ends(commands: seq<string>, left: string, now: string)
    requires Continues(left, "", now)
    ensures Cut(commands + Dispatch(left).commands, Dispatch(left).rest) == Cut(commands, now)
  {
    hide Dispatch;
  }
}
