/** What the manager does over several lines and several events: a stop in the middle of a read, and reconnecting. */
module VpnRuns {
  import opened VpnNotify
  import opened VpnTemplates
  import opened VpnManager
  import opened VpnTheorems

  lemma Longer(ss: seq<State>, es: seq<Event>, e: Event)
    requires IsRun(ss, es) && Enabled(ss[|es|], e)
    ensures IsRun(ss + [Next(ss[|es|], e)], es + [e])
  {
    hide Next, Enabled;
    var t := Next(ss[|es|], e);
    forall i | 0 <= i <= |es|
      ensures Enabled((ss + [t])[i], (es + [e])[i]) && (ss + [t])[i + 1] == Next((ss + [t])[i], (es + [e])[i])
    {
      if i < |es| {
        assert Enabled(ss[i], es[i]) && ss[i + 1] == Next(ss[i], es[i]);
      }
    }
  }

  // ------------------------------------------------------------------ a stop in the middle of a read

  /** As stop() leaves the manager, apart from the timer. */
  predicate Silent(l: Link) {
    l.state == Disconnected && !l.socket && !l.watcher
  }

  /** A line that brings a stopped manager back, when previous is the word before it. */
  predicate Wakes(f: Flags, line: SocketLine, previous: string, error: bool) {
    match line
    case StateWord(word) =>
      if Is(word, "CONNECTED") then word != previous
      else MeansConnecting(word) || (Is(word, "EXITING") && f.reconnect)
    case TunFatal => !f.tunError && !error
    case _ => false
  }

  predicate MarksError(line: SocketLine) { line.AuthFailed? || line.Fatal? }

  predicate AnyMarksError(lines: seq<SocketLine>) {
    exists k :: 0 <= k < |lines| && MarksError(lines[k])
  }

  /** Line k of the rest of a read undoes the stop, given the flags when the rest begins: it reports a connection or an
      attempt at one, announces a reconnect, or is a tunnel error while no error is marked. */
  predicate Undoes(f: Flags, lines: seq<SocketLine>, k: nat) {
    k < |lines| && Wakes(f, lines[k], WordBefore(lines, k, f.previousWord), f.error || AnyMarksError(lines[..k]))
  }

  lemma LineWakes(s: State, line: SocketLine)
    requires Silent(s.link)
    ensures var t := ParseSocketLine(s, line);
            if Wakes(s.flags, line, s.flags.previousWord, s.flags.error) then |t.link.emitted| > |s.link.emitted|
            else t.link == s.link && t.flags == s.flags.(previousWord := t.flags.previousWord, error := t.flags.error)
                 && t.flags.error == (s.flags.error || MarksError(line))
  {
    hide Notified, GetTemplate, Is, MeansConnecting;
  }

  lemma UndoesInPrefix(f: Flags, lines: seq<SocketLine>, more: seq<SocketLine>, k: nat)
    requires k < |lines|
    ensures Undoes(f, lines + more, k) <==> Undoes(f, lines, k)
  {
    WordBeforePrefix(lines, more, k, f.previousWord);
    assert (lines + more)[..k] == lines[..k];
    hide Wakes, WordBefore, AnyMarksError;
  }

  /** The flags after lines none of which undoes the stop. */
  predicate FlagsAfter(f: Flags, lines: seq<SocketLine>, g: Flags) {
    g == f.(previousWord := WordBefore(lines, |lines|, f.previousWord), error := f.error || AnyMarksError(lines))
  }

  lemma FlagsAfterLine(f: Flags, before: seq<SocketLine>, line: SocketLine, g: Flags, h: Flags)
    requires FlagsAfter(f, before, g)
    requires h == g.(previousWord := WordBefore(before + [line], |before| + 1, f.previousWord),
                     error := g.error || MarksError(line))
    ensures FlagsAfter(f, before + [line], h)
  {
    var lines := before + [line];
    assert forall k :: 0 <= k < |before| ==> lines[k] == before[k];
    assert lines[|before|] == line;
    hide WordBefore;
  }

  lemma {:induction false} NothingWakes(s: State, lines: seq<SocketLine>)
    requires Silent(s.link) && forall k :: 0 <= k < |lines| ==> !Undoes(s.flags, lines, k)
    ensures ParseSocket(s, lines).link == s.link && FlagsAfter(s.flags, lines, ParseSocket(s, lines).flags)
  {
    hide Wakes, WordBefore, ParseSocket, ParseSocketLine;
    UnfoldParseSocket(s, lines);
    if lines == [] {
      NoWordBefore(lines, s.flags.previousWord);
    } else {
      var n := |lines| - 1;
      var before, line := lines[..n], lines[n];
      assert before + [line] == lines;
      forall k | 0 <= k < n ensures !Undoes(s.flags, before, k) {
        UndoesInPrefix(s.flags, before, [line], k);
      }
      NothingWakes(s, before);
      var t := ParseSocket(s, before);
      WordBeforePrefix(before, [line], n, s.flags.previousWord);
      SameWakes(s.flags, t.flags, line);
      assert !Undoes(s.flags, lines, n);
      LineWakes(t, line);
      PreviousWord(s, lines);
      FlagsAfterLine(s.flags, before, line, t.flags, ParseSocketLine(t, line).flags);
    }
  }

  lemma NoWordBefore(lines: seq<SocketLine>, previous: string)
    ensures WordBefore(lines, 0, previous) == previous
  {
  }

  lemma SameWakes(f: Flags, g: Flags, line: SocketLine)
    requires g.reconnect == f.reconnect && g.tunError == f.tunError
    ensures forall previous, error :: Wakes(g, line, previous, error) <==> Wakes(f, line, previous, error)
  {
  }

  lemma {:induction false} SomethingWakes(s: State, lines: seq<SocketLine>, k: nat)
    requires Silent(s.link) && Undoes(s.flags, lines, k)
    requires forall j :: 0 <= j < k ==> !Undoes(s.flags, lines, j)
    ensures |ParseSocket(s, lines).link.emitted| > |s.link.emitted|
  {
    hide Wakes, WordBefore, ParseSocket, ParseSocketLine, Silent;
    var before, line, rest := lines[..k], lines[k], lines[k + 1..];
    assert before + lines[k..] == lines;
    forall j | 0 <= j < k ensures !Undoes(s.flags, before, j) {
      UndoesInPrefix(s.flags, before, lines[k..], j);
    }
    NothingWakes(s, before);
    var t := ParseSocket(s, before);
    WordBeforePrefix(before, lines[k..], k, s.flags.previousWord);
    SameWakes(s.flags, t.flags, line);
    assert Silent(t.link);
    LineWakes(t, line);
    ParseAppend(s, before, [line] + rest);
    assert before + ([line] + rest) == lines;
    ParseAppend(t, [line], rest);
    ParseOne(t, line);
    SocketGrows(ParseSocketLine(t, line), rest);
  }

  lemma ParseOne(s: State, line: SocketLine)
    ensures ParseSocket(s, [line]) == ParseSocketLine(s, line)
  {
    hide ParseSocketLine;
    assert [line][..0] == [];
  }

  lemma {:induction false} ParseAppend(s: State, a: seq<SocketLine>, b: seq<SocketLine>)
    ensures ParseSocket(s, a + b) == ParseSocket(ParseSocket(s, a), b)
  {
    hide ParseSocket, ParseSocketLine;
    UnfoldParseSocket(ParseSocket(s, a), b);
    if b == [] {
      assert a + b == a;
    } else {
      UnfoldParseSocket(s, a + b);
      assert (a + b)[..|a + b| - 1] == a + b[..|b| - 1];
      ParseAppend(s, a, b[..|b| - 1]);
    }
  }

  /** None of these lines undoes a stop. */
  predicate StaysStopped(f: Flags, lines: seq<SocketLine>) {
    forall k :: 0 <= k < |lines| ==> !Undoes(f, lines, k)
  }

  /** A stopped manager stays as it is through the lines that are left of a read if and only if none of them
      undoes the stop; otherwise it sends another notification. */
  lemma SilentThroughIff(s: State, lines: seq<SocketLine>)
    requires Silent(s.link)
    ensures ParseSocket(s, lines).link == s.link <==> StaysStopped(s.flags, lines)
    ensures ParseSocket(s, lines).link.emitted == s.link.emitted <==> ParseSocket(s, lines).link == s.link
  {
    hide Undoes, ParseSocket, Silent;
    if k :| 0 <= k < |lines| && Undoes(s.flags, lines, k) {
      var first := FirstUndo(s.flags, lines, k);
      SomethingWakes(s, lines, first);
    } else {
      NothingWakes(s, lines);
    }
  }

  lemma {:induction false} FirstUndo(f: Flags, lines: seq<SocketLine>, k: nat) returns (first: nat)
    requires Undoes(f, lines, k)
    ensures first <= k && Undoes(f, lines, first) && forall j :: 0 <= j < first ==> !Undoes(f, lines, j)
  {
    hide Undoes;
    first := k;
    if j :| 0 <= j < k && Undoes(f, lines, j) {
      first := FirstUndo(f, lines, j);
    }
  }

  /** A line that stops everything: a fatal error, or RESOLVE with the network down. */
  predicate StopsAll(f: Flags, line: SocketLine) {
    line.Fatal? || (line.StateWord? && Is(line.word, "RESOLVE") && f.netDown)
  }

  lemma StopLine(s: State, line: SocketLine)
    requires StopsAll(s.flags, line)
    ensures Silent(ParseSocketLine(s, line).link)
  {
    if line.StateWord? {
      assert Lower("RESOLVE"[0]) == 'r' && Lower("RECONNECTING"[0]) == 'r';
      assert |line.word| == 7 && Lower(line.word[0]) == 'r' && Lower("EXITING"[0]) == 'e';
      assert !MeansConnecting(line.word) && !Is(line.word, "CONNECTED") && !Is(line.word, "EXITING");
    }
    hide Notified;
  }

  /** A stop inside a read: the manager is still stopped when the read is done if and only if no later line of
      the read undoes the stop. */
  lemma StopUndoneIff(s: State, lines: seq<SocketLine>, j: nat)
    requires j < |lines| && StopsAll(ParseSocket(s, lines[..j]).flags, lines[j])
    ensures var stopped, rest := ParseSocket(s, lines[..j + 1]), lines[j + 1..];
            && Silent(stopped.link)
            && (ParseSocket(s, lines).link == stopped.link <==> StaysStopped(stopped.flags, rest))
  {
    hide Undoes, ParseSocket, ParseSocketLine, Silent, StopsAll;
    var stopped, rest := ParseSocket(s, lines[..j + 1]), lines[j + 1..];
    UnfoldParseSocket(s, lines[..j + 1]);
    assert lines[..j + 1][..j] == lines[..j];
    StopLine(ParseSocket(s, lines[..j]), lines[j]);
    assert lines[..j + 1] + rest == lines;
    ParseAppend(s, lines[..j + 1], rest);
    SilentThroughIff(stopped, rest);
  }

  // ------------------------------------------------------------------ reconnecting

  /** The reconnect timeouts among the first i events that came after the last start. */
  function TimeoutsSinceStart(es: seq<Event>, i: nat): nat
    requires i <= |es|
  {
    if i == 0 || es[i - 1].CmdStart? then 0
    else TimeoutsSinceStart(es, i - 1) + if es[i - 1].ReconnectTimeout? then 1 else 0
  }

  predicate Started(es: seq<Event>, i: nat)
    requires i <= |es|
  {
    exists j :: 0 <= j < i && es[j].CmdStart?
  }

  lemma LogLineAttempts(s: State, line: LogLine)
    ensures ParseLogLine(s, line).flags.attempts == s.flags.attempts
  {
    hide GetTemplate, SetState;
  }

  lemma {:induction false} LogAttempts(s: State, lines: seq<LogLine>)
    ensures ParseLog(s, lines).flags.attempts == s.flags.attempts
  {
    hide *;
    UnfoldParseLog(s, lines);
    if lines != [] {
      LogAttempts(s, lines[..|lines| - 1]);
      LogLineAttempts(ParseLog(s, lines[..|lines| - 1]), lines[|lines| - 1]);
    }
  }

  lemma SocketLineAttempts(s: State, line: SocketLine)
    ensures ParseSocketLine(s, line).flags.attempts == s.flags.attempts
  {
    hide GetTemplate, SetState, Is, MeansConnecting;
  }

  lemma {:induction false} SocketAttempts(s: State, lines: seq<SocketLine>)
    ensures ParseSocket(s, lines).flags.attempts == s.flags.attempts
  {
    hide *;
    UnfoldParseSocket(s, lines);
    if lines != [] {
      SocketAttempts(s, lines[..|lines| - 1]);
      SocketLineAttempts(ParseSocket(s, lines[..|lines| - 1]), lines[|lines| - 1]);
    }
  }

  lemma NextAttempts(s: State, e: Event)
    requires Enabled(s, e)
    ensures Next(s, e).flags.attempts
         == if e.CmdStart? then 0 else s.flags.attempts + if e.ReconnectTimeout? then 1 else 0
  {
    hide WriteConfigFile, Received, GetTemplate, SetState, CurrentKey, ParseLog, ParseSocket, CanWrite;
    if e.LogChanged? {
      LogAttempts(s, e.log);
    } else if e.SocketRead? {
      SocketAttempts(s, e.lines);
    }
  }

  /** The counter of reconnect attempts counts the timeouts since the last start; nothing else resets it. Before
      the first start it begins with whatever it was created with. */
  lemma {:induction false} AttemptsCount(ss: seq<State>, es: seq<Event>, i: nat)
    requires IsRun(ss, es) && i < |ss|
    ensures ss[i].flags.attempts == TimeoutsSinceStart(es, i) + if Started(es, i) then 0 else ss[0].flags.attempts
  {
    hide Next, Enabled;
    if i > 0 {
      AttemptsCount(ss, es, i - 1);
      assert Enabled(ss[i - 1], es[i - 1]);
      NextAttempts(ss[i - 1], es[i - 1]);
      if !es[i - 1].CmdStart? {
        assert Started(es, i) <==> Started(es, i - 1);
      }
    }
  }

  function CurrentRequest(b: Book): Request {
    Request(CurrentKey(b), b.serverId, b.port, b.startPort, b.url)
  }

  lemma TimeoutRequests(s: State, running: bool)
    requires s.flags.retries > 0
    ensures Next(s, ReconnectTimeout(running)).book.pending
         == if running && s.flags.attempts + 1 < MAX_RECONNECT then s.book.pending
            else s.book.pending + multiset{CurrentRequest(s.book)}
  {
    hide SetState;
  }

  lemma TimerRuns(s: State, running: bool)
    requires Enabled(s, ReconnectTimeout(running))
    ensures s.flags.retries > 0
  {
  }

  /** A reconnect timeout asks for the template again if and only if the process has ended or it is at least the third
      timeout since the last start; from the third on every one does. */
  lemma ReconnectsIff(ss: seq<State>, es: seq<Event>, i: nat, running: bool)
    requires IsRun(ss, es) && i < |es| && es[i] == ReconnectTimeout(running) && Started(es, i)
    ensures var b, c := ss[i].book, ss[i + 1].book;
            && c.pending != b.pending <==> !running || TimeoutsSinceStart(es, i + 1) >= MAX_RECONNECT
    ensures ss[i + 1].book.pending != ss[i].book.pending ==>
              ss[i + 1].book.pending == ss[i].book.pending + multiset{CurrentRequest(ss[i].book)}
  {
    hide Next, Enabled;
    assert Enabled(ss[i], es[i]) && ss[i + 1] == Next(ss[i], es[i]);
    AttemptsCount(ss, es, i);
    TimerRuns(ss[i], running);
    TimeoutRequests(ss[i], running);
    var p, r := ss[i].book.pending, CurrentRequest(ss[i].book);
    assert (p + multiset{r})[r] == p[r] + 1;
  }
}
