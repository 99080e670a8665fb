/** What holds in every run of the manager: whose template a config file is made of, and when the state
    timer and the connection state part. */
module VpnTheorems {
  import opened VpnNotify
  import opened VpnTemplates
  import opened VpnManager

  // ------------------------------------------------------------------ templates

  predicate KeyOk(r: Request) {
    r.key == ServerKey(r.serverId, r.port)
  }

  /** The cache after these templates have arrived, in this order. */
  function CacheOf(fetched: seq<Fetch>): map<int, string> {
    if fetched == [] then map[]
    else CacheOf(fetched[..|fetched| - 1])[fetched[|fetched| - 1].request.key := fetched[|fetched| - 1].bytes]
  }

  ghost predicate BookOk(b: Book) {
    && (forall r :: r in b.pending ==> KeyOk(r))
    && (forall i :: 0 <= i < |b.fetched| ==> KeyOk(b.fetched[i].request))
    && b.cache == CacheOf(b.fetched)
  }

  /** What BookOk depends on. */
  predicate SameTemplates(b: Book, c: Book) {
    b.cache == c.cache && b.pending == c.pending && b.fetched == c.fetched
  }

  lemma SameOk(b: Book, c: Book)
    requires BookOk(b) && SameTemplates(b, c)
    ensures BookOk(c)
  {
  }

  lemma GetOk(b: Book)
    requires BookOk(b)
    ensures BookOk(GetTemplate(b))
  {
  }

  lemma FewerOk(b: Book, r: Request)
    requires BookOk(b)
    ensures BookOk(b.(pending := b.pending - multiset{r}))
  {
  }

  lemma ReceivedOk(b: Book, r: Request, bytes: string)
    requires BookOk(b) && r in b.pending
    ensures BookOk(Received(b, r, bytes))
  {
    var f := b.fetched + [Fetch(r, bytes)];
    assert f[..|f| - 1] == b.fetched;
  }

  lemma StartConnectingOk(s: State)
    requires BookOk(s.book)
    ensures BookOk(StartConnecting(s).book)
  {
    GetOk(s.book);
  }

  lemma GotTunErrOk(s: State)
    requires BookOk(s.book)
    ensures BookOk(GotTunErr(s).book)
  {
    StartConnectingOk(s.(flags := s.flags.(tunError := true, error := true)));
    hide BookOk, StartConnecting;
  }

  lemma LogLineOk(s: State, l: LogLine)
    requires BookOk(s.book)
    ensures BookOk(ParseLogLine(s, l).book)
  {
    hide BookOk, StartConnecting, GotTunErr, SetState;
    var u := s.(book := s.book.(port := s.book.port + 1));
    SameOk(s.book, u.book);
    StartConnectingOk(u);
    GotTunErrOk(if l.bindFailed then StartConnecting(u) else s);
  }

  lemma {:induction false} LogOk(s: State, lines: seq<LogLine>)
    requires BookOk(s.book)
    ensures BookOk(ParseLog(s, lines).book)
  {
    hide BookOk, ParseLogLine;
    if lines != [] {
      LogOk(s, lines[..|lines| - 1]);
      LogLineOk(ParseLog(s, lines[..|lines| - 1]), lines[|lines| - 1]);
    }
  }

  lemma CommandOk(s: State, e: Event)
    requires BookOk(s.book) && IsCommand(e)
    ensures BookOk(CommandNext(s, e).book)
  {
    hide BookOk, Stop, SetState, GetTemplate;
    if e.CmdStart? {
      var b := s.book.(serverId := e.serverId, port := e.port, startPort := e.port, url := e.url, dns1 := e.dns1,
                       dns2 := e.dns2);
      SameOk(s.book, b);
      GetOk(b);
    }
  }

  lemma SocketLineOk(s: State, line: SocketLine)
    requires BookOk(s.book)
    ensures BookOk(ParseSocketLine(s, line).book)
  {
    hide BookOk, GotTunErr, Is, MeansConnecting, SetState;
    GotTunErrOk(s);
  }

  lemma {:induction false} SocketOk(s: State, lines: seq<SocketLine>)
    requires BookOk(s.book)
    ensures BookOk(ParseSocket(s, lines).book)
  {
    hide BookOk, ParseSocketLine;
    if lines != [] {
      SocketOk(s, lines[..|lines| - 1]);
      SocketLineOk(ParseSocket(s, lines[..|lines| - 1]), lines[|lines| - 1]);
    }
  }

  lemma TimeoutOk(s: State, running: bool)
    requires BookOk(s.book) && s.flags.retries > 0
    ensures BookOk(ReconnectTimedOut(s, running).book)
  {
    hide BookOk, GetTemplate, SetState;
    GetOk(s.book);
  }

  lemma CheckedOk(s: State, running: bool, late: bool)
    requires BookOk(s.book)
    ensures BookOk(Checked(s, running, late).book)
  {
    hide BookOk, GetTemplate, SetState;
    GetOk(s.book);
  }

  lemma WriteSame(b: Book, canOpen: bool)
    ensures SameTemplates(b, WriteConfigFile(b, canOpen))
  {
    hide ConfigText;
  }

  lemma ContinueSame(s: State, env: Env)
    ensures ContinueConnecting(s, env).book == WriteConfigFile(s.book, env.canOpen)
  {
    hide WriteConfigFile, SetState;
  }

  lemma NextOk(s: State, e: Event)
    requires BookOk(s.book) && Enabled(s, e)
    ensures BookOk(Next(s, e).book)
  {
    hide BookOk, CommandNext, ParseSocket, Accept, Stop, ContinueConnecting, Checked, ParseLog, ReconnectTimedOut,
         Received, WriteConfigFile, SameTemplates;
    if IsCommand(e) {
      CommandOk(s, e);
    } else {
      match e
      case TemplateFailed(r) => FewerOk(s.book, r);
      case TemplateFetched(r, bytes, env) =>
        var t := s.(book := Received(s.book, r, bytes));
        ReceivedOk(s.book, r, bytes);
        ContinueSame(t, env);
        WriteSame(t.book, env.canOpen);
        SameOk(t.book, WriteConfigFile(t.book, env.canOpen));
      case CheckState(running, late) => CheckedOk(s, running, late);
      case LogChanged(log) => LogOk(s, log);
      case SocketRead(lines) => SocketOk(s, lines);
      case ReconnectTimeout(running) => TimeoutOk(s, running);
      case _ =>
    }
  }

  lemma {:induction false} RunOk(ss: seq<State>, es: seq<Event>, i: nat)
    requires IsRun(ss, es) && i < |ss|
    ensures BookOk(ss[i].book)
  {
    hide Next, Enabled;
    if i > 0 {
      RunOk(ss, es, i - 1);
      assert Enabled(ss[i - 1], es[i - 1]);
      NextOk(ss[i - 1], es[i - 1]);
      hide BookOk;
    }
  }

  /** The cache holds, for every key, the last template that arrived for it. */
  lemma {:induction false} CacheIsLast(fetched: seq<Fetch>, key: int) returns (i: nat)
    requires key in CacheOf(fetched)
    ensures i < |fetched| && fetched[i].request.key == key && CacheOf(fetched)[key] == fetched[i].bytes
    ensures forall j :: i < j < |fetched| ==> fetched[j].request.key != key
  {
    var n := |fetched| - 1;
    if fetched[n].request.key == key {
      i := n;
    } else {
      i := CacheIsLast(fetched[..n], key);
    }
  }

  /** The template was asked for with the server and the port class now wanted. */
  predicate SameClass(r: Request, b: Book) {
    r.serverId == b.serverId && PortClass(r.port) == PortClass(b.port)
  }

  /** The text ends with the template and a newline. Before that there is nothing if the template mentions DNS, and
      otherwise one line for each name server that is given. */
  predicate HasText(text: string, template: string, dns1: string, dns2: string) {
    var head := |text| - (|template| + 1);
    && 0 <= head
    && text[head..] == template + "\n"
    && text[..head] == if exists i, j :: 0 <= i <= j <= |template| && template[i..j] == "DNS" then ""
                       else (if dns1 == "" then "" else "push \"dhcp-option DNS " + dns1 + "\"\n") +
                            (if dns2 == "" then "" else "push \"dhcp-option DNS " + dns2 + "\"\n")
  }

  lemma DnsIs(s: string)
    ensures MentionsDns(s) <==> exists i, j :: 0 <= i <= j <= |s| && s[i..j] == "DNS"
  {
    if MentionsDns(s) {
      var i :| 0 <= i < |s| && DnsAt(s, i);
      assert s[i..i + 3] == "DNS";
    }
    if i, j :| 0 <= i <= j <= |s| && s[i..j] == "DNS" {
      assert |s[i..j]| == 3 && s[i] == s[i..j][0] && s[i + 1] == s[i..j][1] && s[i + 2] == s[i..j][2];
      assert DnsAt(s, i);
    }
  }

  /** This is the text of a config file, for every template and all name servers, and no other text is. */
  lemma ConfigHasText(text: string, template: string, dns1: string, dns2: string)
    ensures HasText(text, template, dns1, dns2) <==> text == ConfigText(template, dns1, dns2)
  {
    DnsIs(template);
    var own := if MentionsDns(template) then "" else Push(dns1) + Push(dns2);
    var config := ConfigText(template, dns1, dns2);
    assert config == own + (template + "\n");
    assert config[..|own|] == own && config[|own|..] == template + "\n";
    var head := |text| - (|template| + 1);
    assert 0 <= head ==> text == text[..head] + text[head..];
    hide MentionsDns;
  }

  /** The config file is made of template k, the last that arrived for the server and the port class now wanted. */
  predicate MadeOfOwn(b: Book, k: nat) {
    && k < |b.fetched| && SameClass(b.fetched[k].request, b)
    && HasText(b.config, b.fetched[k].bytes, b.dns1, b.dns2)
    && forall j :: k < j < |b.fetched| ==> !SameClass(b.fetched[j].request, b)
  }

  /** Step i writes a config file. */
  predicate Writes(s: State, e: Event) {
    e.TemplateFetched? && CanWrite(Received(s.book, e.r, e.bytes), e.env.canOpen)
  }

  /** Whatever templates arrive late, out of order or twice: a config file is always made of a template that was
      asked for with the server and the port class now wanted, and of the last such template that arrived. */
  lemma ConfigIsOwn(ss: seq<State>, es: seq<Event>, i: nat) returns (k: nat)
    requires IsRun(ss, es) && i < |es| && Writes(ss[i], es[i])
    ensures MadeOfOwn(ss[i + 1].book, k)
    ensures k < |ss[i + 1].book.fetched|
    ensures var config, end := ss[i + 1].book.config, ss[i + 1].book.fetched[k].bytes + "\n";
            |end| <= |config| && config[|config| - |end|..] == end
  {
    var s, e := ss[i], es[i];
    assert Enabled(s, e) && ss[i + 1] == Next(s, e);
    hide Next, Enabled, Writes;
    RunOk(ss, es, i);
    k := WrittenFrom(s, e);
  }

  lemma WrittenFrom(s: State, e: Event) returns (k: nat)
    requires BookOk(s.book) && Enabled(s, e) && Writes(s, e)
    ensures MadeOfOwn(Next(s, e).book, k)
  {
    var t := s.(book := Received(s.book, e.r, e.bytes));
    ReceivedOk(s.book, e.r, e.bytes);
    ContinueSame(t, e.env);
    k := KeyOwner(t.book);
    ConfigHasText(Next(s, e).book.config, t.book.fetched[k].bytes, t.book.dns1, t.book.dns2);
    hide BookOk, CacheOf, ContinueConnecting, ConfigText, HasText, PortClass, CurrentKey;
  }

  lemma KeyOwner(b: Book) returns (k: nat)
    requires BookOk(b) && CurrentKey(b) in b.cache
    ensures k < |b.fetched| && b.cache[CurrentKey(b)] == b.fetched[k].bytes && SameClass(b.fetched[k].request, b)
    ensures forall j :: k < j < |b.fetched| ==> !SameClass(b.fetched[j].request, b)
  {
    k := CacheIsLast(b.fetched, CurrentKey(b));
    forall j | k <= j < |b.fetched|
      ensures b.fetched[j].request.key == CurrentKey(b) <==> SameClass(b.fetched[j].request, b)
    {
      var r := b.fetched[j].request;
      assert KeyOk(r);
      KeyIsInjective(r.serverId, r.port, b.serverId, b.port);
    }
    hide CacheOf, ServerKey, PortClass;
  }

  // ------------------------------------------------------------------ the state timer

  /** A template that arrives and can be used although nobody is connecting any more. */
  predicate ArrivesStale(s: State, e: Event) {
    s.link.state == Disconnected && Writes(s, e) && e.env.launched
  }

  predicate TimerOk(l: Link) {
    l.timer ==> l.state != Disconnected
  }

  lemma UnfoldParseLog(s: State, lines: seq<LogLine>)
    ensures ParseLog(s, lines) ==
            if lines == [] then s else ParseLogLine(ParseLog(s, lines[..|lines| - 1]), lines[|lines| - 1])
  {
    hide ParseLogLine;
  }

  lemma UnfoldParseSocket(s: State, lines: seq<SocketLine>)
    ensures ParseSocket(s, lines) ==
            if lines == [] then s else ParseSocketLine(ParseSocket(s, lines[..|lines| - 1]), lines[|lines| - 1])
  {
    hide ParseSocketLine;
  }

  lemma LogLineTimer(s: State, line: LogLine)
    requires TimerOk(s.link)
    ensures TimerOk(ParseLogLine(s, line).link)
  {
    hide GetTemplate, Notified, Is, MeansConnecting;
  }

  lemma {:induction false} LogTimer(s: State, lines: seq<LogLine>)
    requires TimerOk(s.link)
    ensures TimerOk(ParseLog(s, lines).link)
  {
    hide *;
    UnfoldParseLog(s, lines);
    if lines != [] {
      LogTimer(s, lines[..|lines| - 1]);
      LogLineTimer(ParseLog(s, lines[..|lines| - 1]), lines[|lines| - 1]);
    }
  }

  lemma SocketLineTimer(s: State, line: SocketLine)
    requires TimerOk(s.link)
    ensures TimerOk(ParseSocketLine(s, line).link)
  {
    hide GetTemplate, Notified, Is, MeansConnecting;
  }

  lemma {:induction false} SocketTimer(s: State, lines: seq<SocketLine>)
    requires TimerOk(s.link)
    ensures TimerOk(ParseSocket(s, lines).link)
  {
    hide *;
    UnfoldParseSocket(s, lines);
    if lines != [] {
      SocketTimer(s, lines[..|lines| - 1]);
      SocketLineTimer(ParseSocket(s, lines[..|lines| - 1]), lines[|lines| - 1]);
    }
  }

  lemma CheckedTimer(s: State, running: bool, late: bool)
    requires TimerOk(s.link)
    ensures TimerOk(Checked(s, running, late).link)
  {
    hide GetTemplate, Notified;
  }

  /** The state timer runs only while the state is not Disconnected; the one step that can break this is
      the arrival of a template after the connection attempt it was for has been stopped. */
  lemma OnlyStaleBreaksTimer(s: State, e: Event)
    requires TimerOk(s.link) && Enabled(s, e)
    ensures TimerOk(Next(s, e).link) <==> !ArrivesStale(s, e)
  {
    hide WriteConfigFile, Received, GetTemplate, Notified, Is, MeansConnecting, CurrentKey;
    hide Checked, ParseLog, ParseSocket;
    if e.LogChanged? {
      LogTimer(s, e.log);
    } else if e.SocketRead? {
      SocketTimer(s, e.lines);
    } else if e.CheckState? {
      CheckedTimer(s, e.running, e.late);
    }
  }

  /** In every run, the timer runs while the manager is Disconnected only if a template has arrived stale. */
  lemma {:induction false} TimerRun(ss: seq<State>, es: seq<Event>, i: nat)
    requires IsRun(ss, es) && i < |ss|
    ensures TimerOk(ss[i].link) || exists j :: 0 <= j < i && ArrivesStale(ss[j], es[j])
  {
    hide Next, Enabled, ArrivesStale, TimerOk;
    if i == 0 {
      assert TimerOk(INIT) by { InitTimer(); }
    } else {
      TimerRun(ss, es, i - 1);
      assert Enabled(ss[i - 1], es[i - 1]) && ss[i] == Next(ss[i - 1], es[i - 1]);
      if TimerOk(ss[i - 1].link) {
        OnlyStaleBreaksTimer(ss[i - 1], es[i - 1]);
      }
    }
  }

  lemma InitTimer()
    ensures TimerOk(INIT)
  {
  }

  // ------------------------------------------------------------------ after a stop

  /** Stopped, and nothing is left that could report anything. */
  predicate Quiet(l: Link) {
    l.state == Disconnected && !l.timer && !l.socket && !l.watcher
  }

  /** Once an event has left the manager like this nothing happens by itself: only a new start, a reconnect timer still
      running or a template still under way can end the silence. */
  lemma SilentAfterStop(s: State, e: Event)
    requires Quiet(s.link) && Enabled(s, e)
    requires !e.CmdStart? && !e.ReconnectTimeout? && !e.TemplateFetched?
    ensures Quiet(Next(s, e).link) && Next(s, e).link.emitted == s.link.emitted
  {
    hide Checked, ParseLog, ParseSocket, ContinueConnecting, Received;
  }

  // ------------------------------------------------------------------ status replies

  /** What cmdGetStatus answers is the manager's state exactly if the client has been notified since it was
      accepted, or the state is the Disconnected it started with. */
  lemma StatusIsCurrentIff(ss: seq<State>, es: seq<Event>, i: nat, c: nat)
    requires IsRun(ss, es) && i < |ss| && c < |ss[i].link.clients|
    ensures var l := ss[i].link;
            l.clients[c].mState == l.state <==> l.clients[c].since < |l.emitted| || l.state == Disconnected
  {
    hide IsRun;
    RunAgrees(ss, es, i);
    ClientAgreesIff(ss[i].link, c);
  }

  /** A client accepted while the manager was Disconnected always has the current state. */
  lemma AcceptedDisconnectedIsCurrent(ss: seq<State>, es: seq<Event>, i: nat, c: nat)
    requires IsRun(ss, es) && i < |ss| && c < |ss[i].link.clients|
    requires ss[i].link.clients[c].since <= |ss[i].link.emitted|
    requires StateAtAccept(ss[i].link.clients[c], ss[i].link) == Disconnected
    ensures ss[i].link.clients[c].mState == ss[i].link.state
  {
    hide IsRun;
    RunAgrees(ss, es, i);
    AcceptedDisconnected(ss[i].link, c);
  }

  lemma LogLineGrows(s: State, line: LogLine)
    ensures s.link.emitted <= ParseLogLine(s, line).link.emitted
  {
    hide GetTemplate, Notified, Is, MeansConnecting;
  }

  lemma {:induction false} LogGrows(s: State, lines: seq<LogLine>)
    ensures s.link.emitted <= ParseLog(s, lines).link.emitted
  {
    hide *;
    UnfoldParseLog(s, lines);
    if lines != [] {
      LogGrows(s, lines[..|lines| - 1]);
      LogLineGrows(ParseLog(s, lines[..|lines| - 1]), lines[|lines| - 1]);
    }
  }

  lemma SocketLineGrows(s: State, line: SocketLine)
    ensures s.link.emitted <= ParseSocketLine(s, line).link.emitted
  {
    hide GetTemplate, Notified, Is, MeansConnecting;
  }

  lemma {:induction false} SocketGrows(s: State, lines: seq<SocketLine>)
    ensures s.link.emitted <= ParseSocket(s, lines).link.emitted
  {
    hide *;
    UnfoldParseSocket(s, lines);
    if lines != [] {
      SocketGrows(s, lines[..|lines| - 1]);
      SocketLineGrows(ParseSocket(s, lines[..|lines| - 1]), lines[|lines| - 1]);
    }
  }

  lemma CheckedGrows(s: State, running: bool, late: bool)
    ensures s.link.emitted <= Checked(s, running, late).link.emitted
  {
    hide GetTemplate, Notified;
  }

  /** Notifications are only ever added. */
  lemma NextGrows(s: State, e: Event)
    requires Enabled(s, e)
    ensures s.link.emitted <= Next(s, e).link.emitted
  {
    hide WriteConfigFile, Received, GetTemplate, Notified, CurrentKey, Checked, ParseLog, ParseSocket;
    if e.LogChanged? {
      LogGrows(s, e.log);
    } else if e.SocketRead? {
      SocketGrows(s, e.lines);
    } else if e.CheckState? {
      CheckedGrows(s, e.running, e.late);
    }
  }

  // ------------------------------------------------------------------ what changes the state

  /** A log line that reports the end of the initialization. */
  predicate ReportsCompletion(l: LogLine) {
    !l.command && !l.linkRemote && l.completed
  }

  lemma {:induction false} LogConnects(s: State, lines: seq<LogLine>)
    requires s.link.state != Connected
    ensures ParseLog(s, lines).link.state == Connected ==>
      exists i :: 0 <= i < |lines| && ReportsCompletion(lines[i])
  {
    if lines != [] {
      var before, last := lines[..|lines| - 1], lines[|lines| - 1];
      LogConnects(s, before);
      if ParseLog(s, before).link.state == Connected {
        var i :| 0 <= i < |before| && ReportsCompletion(before[i]);
        assert ReportsCompletion(lines[i]);
      } else if ParseLog(s, lines).link.state == Connected {
        assert ReportsCompletion(last);
      }
      hide GetTemplate, Notified;
    }
  }

  /** The state word that was last processed when line k of a read comes. */
  function WordBefore(lines: seq<SocketLine>, k: nat, previous: string): string
    requires k <= |lines|
  {
    if k == 0 then previous
    else if lines[k - 1].StateWord? then lines[k - 1].word
    else WordBefore(lines, k - 1, previous)
  }

  lemma {:induction false} WordBeforePrefix(lines: seq<SocketLine>, more: seq<SocketLine>, k: nat, previous: string)
    requires k <= |lines|
    ensures WordBefore(lines + more, k, previous) == WordBefore(lines, k, previous)
  {
    if k > 0 {
      WordBeforePrefix(lines, more, k - 1, previous);
    }
  }

  lemma LineWord(s: State, line: SocketLine)
    ensures ParseSocketLine(s, line).flags.previousWord
         == if line.StateWord? then line.word else s.flags.previousWord
  {
    hide Is, MeansConnecting, SetState, GetTemplate;
  }

  lemma {:induction false} PreviousWord(s: State, lines: seq<SocketLine>)
    ensures ParseSocket(s, lines).flags.previousWord == WordBefore(lines, |lines|, s.flags.previousWord)
  {
    hide ParseSocket, ParseSocketLine;
    UnfoldParseSocket(s, lines);
    if lines != [] {
      var before, last := lines[..|lines| - 1], lines[|lines| - 1];
      PreviousWord(s, before);
      WordBeforePrefix(before, [last], |before|, s.flags.previousWord);
      assert before + [last] == lines;
      LineWord(ParseSocket(s, before), last);
    }
  }

  /** Line k of a read reports a connection, by a CONNECTED word other than the word before it. */
  predicate ReportsConnection(lines: seq<SocketLine>, k: nat, previous: string) {
    && k < |lines| && lines[k].StateWord? && Is(lines[k].word, "CONNECTED")
    && lines[k].word != WordBefore(lines, k, previous)
  }

  lemma LineConnects(s: State, line: SocketLine)
    requires s.link.state != Connected && ParseSocketLine(s, line).link.state == Connected
    ensures line.StateWord? && Is(line.word, "CONNECTED") && line.word != s.flags.previousWord
  {
    hide GetTemplate, Notified, Is, MeansConnecting;
  }

  lemma {:induction false} SocketConnects(s: State, lines: seq<SocketLine>)
    requires s.link.state != Connected && ParseSocket(s, lines).link.state == Connected
    ensures exists k :: 0 <= k < |lines| && ReportsConnection(lines, k, s.flags.previousWord)
  {
    hide Is, ParseSocket, ParseSocketLine, WordBefore;
    UnfoldParseSocket(s, lines);
    var before, last, prev := lines[..|lines| - 1], lines[|lines| - 1..], s.flags.previousWord;
    assert lines == before + last;
    if ParseSocket(s, before).link.state == Connected {
      SocketConnects(s, before);
      var k :| 0 <= k < |before| && ReportsConnection(before, k, prev);
      WordBeforePrefix(before, last, k, prev);
      assert ReportsConnection(lines, k, prev);
    } else {
      PreviousWord(s, before);
      LineConnects(ParseSocket(s, before), lines[|lines| - 1]);
      WordBeforePrefix(before, last, |before|, prev);
      assert ReportsConnection(lines, |before|, prev);
    }
  }

  /** The state becomes Connected only by a CONNECTED word other than the word before it, or by a log line that reports
      completion. */
  lemma OnlyReportsConnect(s: State, e: Event)
    requires Enabled(s, e) && s.link.state != Connected && Next(s, e).link.state == Connected
    ensures (e.SocketRead? && exists k :: 0 <= k < |e.lines| && ReportsConnection(e.lines, k, s.flags.previousWord))
         || (e.LogChanged? && !s.flags.error && exists i :: 0 <= i < |e.log| && ReportsCompletion(e.log[i]))
  {
    hide WriteConfigFile, Received, GetTemplate, Notified, Is, MeansConnecting, CurrentKey, ParseLog, ParseSocket;
    if e.LogChanged? {
      LogConnects(s, e.log);
    } else if e.SocketRead? {
      SocketConnects(s, e.lines);
    }
  }

  /** A repeated CONNECTED is ignored, also when the connection it reports is a new one; every other
      CONNECTED is believed. */
  lemma ConnectedWord(s: State, word: string)
    requires Is(word, "CONNECTED")
    ensures ParseSocketLine(s, StateWord(word)).link.state == Connected <==>
            s.link.state == Connected || word != s.flags.previousWord
  {
    hide Notified;
  }

  /** Whatever the process does, a connection attempt that has taken too long is over after the check. */
  lemma LateEndsConnecting(s: State, running: bool)
    ensures Checked(s, running, true).link.state != Connecting
  {
    hide GetTemplate, Notified;
  }

  lemma LogLineTunError(s: State, line: LogLine)
    requires !s.flags.tunError
    ensures !ParseLogLine(s, line).flags.tunError
  {
    hide GetTemplate, Notified, Is, MeansConnecting;
  }

  lemma {:induction false} LogTunError(s: State, lines: seq<LogLine>)
    requires !s.flags.tunError
    ensures !ParseLog(s, lines).flags.tunError
  {
    hide *;
    UnfoldParseLog(s, lines);
    if lines != [] {
      LogTunError(s, lines[..|lines| - 1]);
      LogLineTunError(ParseLog(s, lines[..|lines| - 1]), lines[|lines| - 1]);
    }
  }

  lemma SocketLineTunError(s: State, line: SocketLine)
    requires !s.flags.tunError
    ensures !ParseSocketLine(s, line).flags.tunError
  {
    hide GetTemplate, Notified, Is, MeansConnecting;
  }

  lemma {:induction false} SocketTunError(s: State, lines: seq<SocketLine>)
    requires !s.flags.tunError
    ensures !ParseSocket(s, lines).flags.tunError
  {
    hide *;
    UnfoldParseSocket(s, lines);
    if lines != [] {
      SocketTunError(s, lines[..|lines| - 1]);
      SocketLineTunError(ParseSocket(s, lines[..|lines| - 1]), lines[|lines| - 1]);
    }
  }

  /** gotTunErr marks the error and starts connecting, which clears the mark: the mark never outlives an
      event, so it does not keep a second tunnel error from starting again. */
  lemma TunErrorIsForgotten(s: State, e: Event)
    requires Enabled(s, e) && !s.flags.tunError
    ensures !Next(s, e).flags.tunError
    ensures ParseSocketLine(s, TunFatal).book.pending
         == if s.flags.error then s.book.pending else GetTemplate(s.book).pending
  {
    hide WriteConfigFile, Received, Notified, Is, MeansConnecting, CurrentKey, ParseLog, ParseSocket;
    if e.LogChanged? {
      LogTunError(s, e.log);
    } else if e.SocketRead? {
      SocketTunError(s, e.lines);
    }
  }

  // ------------------------------------------------------------------ name servers in the config file

  lemma MentionsAppend(a: string, b: string)
    ensures MentionsDns(a) || MentionsDns(b) ==> MentionsDns(a + b)
  {
    if MentionsDns(a) {
      var i :| 0 <= i < |a| && DnsAt(a, i);
      assert DnsAt(a + b, i);
    }
    if MentionsDns(b) {
      var i :| 0 <= i < |b| && DnsAt(b, i);
      assert DnsAt(a + b, |a| + i);
    }
  }

  lemma NewlineMentionsNothing(a: string)
    ensures MentionsDns(a + "\n") <==> MentionsDns(a)
  {
    MentionsAppend(a, "\n");
    if MentionsDns(a + "\n") {
      var i :| 0 <= i < |a + "\n"| && DnsAt(a + "\n", i);
      assert i + 2 < |a|;
      assert DnsAt(a, i);
    }
  }

  lemma PushMentions(dns: string)
    requires dns != ""
    ensures MentionsDns(Push(dns))
  {
    assert DnsAt("push \"dhcp-option DNS ", 18);
    MentionsAppend("push \"dhcp-option DNS ", dns + "\"\n");
    assert Push(dns) == "push \"dhcp-option DNS " + (dns + "\"\n");
  }

  /** A config file names a DNS server exactly if the template or the user does, and the user's are used only if
      the template has none. */
  lemma ConfigNamesDns(template: string, dns1: string, dns2: string)
    ensures MentionsDns(ConfigText(template, dns1, dns2)) <==> MentionsDns(template) || dns1 != "" || dns2 != ""
    ensures ConfigText(template, dns1, dns2) == template + "\n" <==>
            MentionsDns(template) || (dns1 == "" && dns2 == "")
  {
    NewlineMentionsNothing(template);
    var own := Push(dns1) + Push(dns2);
    MentionsAppend(own, template + "\n");
    MentionsAppend(Push(dns1), Push(dns2));
    if dns1 != "" {
      PushMentions(dns1);
    }
    if dns2 != "" {
      PushMentions(dns2);
    }
    assert own + template + "\n" == own + (template + "\n");
    assert own == "" ==> own + (template + "\n") == template + "\n";
    assert "" + template + "\n" == template + "\n";
    hide MentionsDns;
  }
}
