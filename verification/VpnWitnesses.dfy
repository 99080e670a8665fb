/** Runs of the manager in which the surprising cases happen. */
module VpnWitnesses {
  import opened VpnNotify
  import opened VpnTemplates
  import opened VpnManager
  import opened VpnTheorems
  import opened VpnRuns

  ghost predicate Reachable(s: State) {
    exists ss, es :: IsRun(ss, es) && ss[|ss| - 1] == s
  }

  const INIT_STATE := State(INIT, Book(0, 0, 0, "", "", "", map[], multiset{}, "", []),
                            Flags(false, false, false, false, false, 0, 0, ""))

  lemma Begin()
    ensures Reachable(INIT_STATE)
  {
    assert IsRun([INIT_STATE], []);
  }

  lemma Reach(s: State, e: Event) returns (t: State)
    requires Reachable(s) && Enabled(s, e)
    ensures t == Next(s, e) && Reachable(t)
  {
    hide Next, Enabled;
    var ss, es :| IsRun(ss, es) && ss[|ss| - 1] == s;
    t := Next(s, e);
    Longer(ss, es, e);
    assert IsRun(ss + [t], es + [e]) && (ss + [t])[|ss + [t]| - 1] == t;
  }

  const START := CmdStart(1, 1194, "u", "", "")
  const ASKED := Request(11, 1, 1194, 1194, "u")
  const ALL_WELL := Env(true, true, true)

  lemma Launched() returns (s: State)
    ensures Reachable(s) && s.link.state == Connecting && s.link.clients == [] && s.link.emitted == [Connecting]
    ensures s.book.pending == multiset{ASKED} && s.book.cache == map[] && s.book.fetched == []
    ensures CurrentRequest(s.book) == ASKED
    ensures !s.link.socket && !s.link.watcher && !s.link.timer && s.flags.previousWord == "" && !s.flags.error
    ensures s.flags.retries == 0
  {
    hide Reachable;
    Begin();
    s := Reach(INIT_STATE, START);
  }

  /** Start, stop, and then the template arrives: the timer runs although the manager is Disconnected, and
      another stop leaves it running. */
  lemma TimerOutlivesStop() returns (s: State, t: State)
    ensures Reachable(s) && s.link.state == Disconnected && s.link.timer && s.link.socket
    ensures Reachable(t) && t == Next(s, CmdStop) && t.link.state == Disconnected && t.link.timer
  {
    hide Reachable, ConfigText;
    s := Launched();
    s := Reach(s, CmdStop);
    s := Reach(s, TemplateFetched(ASKED, "", ALL_WELL));
    t := Reach(s, CmdStop);
  }

  /** A client that comes while the manager is Connecting believes it is Disconnected. */
  lemma NewcomerIsWrong() returns (s: State)
    ensures Reachable(s) && s.link.state == Connecting
    ensures |s.link.clients| == 1 && s.link.clients[0].mState == Disconnected
  {
    hide Reachable;
    s := Launched();
    s := Reach(s, Arrive);
  }

  lemma ConnectedOnce() returns (s: State)
    ensures Reachable(s) && s.link.state == Connected && s.flags.previousWord == "CONNECTED" && s.link.clients == []
    ensures s.book.pending == multiset{} && CurrentRequest(s.book) == ASKED
  {
    hide Reachable, ConfigText, MeansConnecting;
    s := Launched();
    s := Reach(s, TemplateFetched(ASKED, "", ALL_WELL));
    ParseOne(s, StateWord("CONNECTED"));
    s := Reach(s, SocketRead([StateWord("CONNECTED")]));
  }

  lemma LaunchedAgain() returns (s: State)
    ensures Reachable(s) && s.link.state == Connecting && s.flags.previousWord == "CONNECTED" && s.link.socket
  {
    hide Reachable, ConfigText;
    s := ConnectedOnce();
    s := Reach(s, CmdStop);
    s := Reach(s, START);
    s := Reach(s, TemplateFetched(ASKED, "", ALL_WELL));
  }

  /** A second connection whose first state word is CONNECTED again is not noticed. */
  lemma SecondConnectionIgnored() returns (s: State, t: State)
    ensures Reachable(s) && s.link.state == Connecting && Enabled(s, SocketRead([StateWord("CONNECTED")]))
    ensures Reachable(t) && t == Next(s, SocketRead([StateWord("CONNECTED")])) && t.link.state == Connecting
  {
    hide Reachable, MeansConnecting;
    s := LaunchedAgain();
    ParseOne(s, StateWord("CONNECTED"));
    t := Reach(s, SocketRead([StateWord("CONNECTED")]));
  }

  /** A read with a fatal error and a state word behind it leaves the manager Connecting with nothing that could
      report any more: no socket, no watcher and no timer. */
  lemma StopUndone() returns (s: State)
    ensures Reachable(s) && s.link.state == Connecting && !s.link.socket && !s.link.watcher && !s.link.timer
    ensures s.book.pending == multiset{} && s.flags.retries == 0
  {
    hide Reachable, ConfigText;
    s := Launched();
    s := Reach(s, TemplateFetched(ASKED, "", ALL_WELL));
    var lines := [Fatal, StateWord("CONNECTING")];
    ParseAppend(s, [Fatal], [StateWord("CONNECTING")]);
    ParseOne(s, Fatal);
    ParseOne(ParseSocketLine(s, Fatal), StateWord("CONNECTING"));
    assert lines == [Fatal] + [StateWord("CONNECTING")];
    s := Reach(s, SocketRead(lines));
  }

  const MOVED := Request(13, 1, 1195, 1194, "u")

  lemma BindFailed() returns (s: State)
    ensures Reachable(s) && s.link.state == Connecting && MOVED in s.book.pending && |s.book.fetched| == 1
  {
    hide Reachable, ConfigText;
    s := Launched();
    s := Reach(s, TemplateFetched(ASKED, "", ALL_WELL));
    var line := LogLine(false, true, false, false, false);
    UnfoldParseLog(s, [line]);
    assert [line][..0] == [];
    s := Reach(s, LogChanged([line]));
  }

  lemma PlainText()
    ensures ConfigText("late", "", "") == "late\n"
  {
    assert !MentionsDns("late");
  }

  /** A failed bind moves port 1194 into the class of port 443; the template asked for then comes from the URL for
      1194, and if it arrives after a start on 443 the config file of that start is made of it. */
  lemma ForeignUrl() returns (s: State)
    ensures Reachable(s) && s.book.port == 443 && s.book.url == "v"
    ensures |s.book.fetched| == 2 && s.book.fetched[1] == Fetch(MOVED, "late")
    ensures s.book.config == "late\n"
  {
    hide Reachable, ConfigText;
    PlainText();
    s := BindFailed();
    s := Reach(s, CmdStart(1, 443, "v", "", ""));
    s := Reach(s, TemplateFetched(MOVED, "late", ALL_WELL));
  }
}
