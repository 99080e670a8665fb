/** OpenvpnManager as an object whose handlers update it step by step (src/service/openvpnmanager.cpp); its
    many fields are grouped into the records of VpnManager. The object remembers its run, and every handler is a step
    of it, so that what is proved about runs holds of the object. */
module VpnService {
  import opened VpnNotify
  import opened VpnTemplates
  import opened VpnManager
  import opened VpnTheorems
  import opened VpnRuns

  class OpenvpnManager {
    var link: Link
    var book: Book
    var flags: Flags
    ghost var ss: seq<State>
    ghost var es: seq<Event>

    function View(): State
      reads `link, `book, `flags
    {
      State(link, book, flags)
    }

    /** The events so far are a run that ends in this state. */
    ghost predicate Valid()
      reads this
    {
      IsRun(ss, es) && ss[|es|] == View()
    }

    /** What the constructor does not initialise is arbitrary. */
    constructor (b: Book, f: Flags)
      requires b.cache == map[] && b.pending == multiset{} && b.fetched == []
      requires !f.testing && !f.netDown && f.retries == 0
      ensures Valid() && es == [] && book == b && flags == f
      ensures link.state == Disconnected && !link.timer && !link.socket && !link.watcher && link.clients == []
    {
      link := INIT;
      book := b;
      flags := f;
      ss := [State(INIT, b, f)];
      es := [];
    }

    /** An event has been handled. */
    ghost method Record(s: State, e: Event)
      requires IsRun(ss, es) && ss[|es|] == s && Enabled(s, e) && View() == Next(s, e)
      modifies `ss, `es
      ensures Valid() && es == old(es) + [e] && ss == old(ss) + [View()] && ss[|old(es)|] == s
      ensures Agreed(link) && s.link.emitted <= link.emitted
    {
      hide Next, Enabled, Agreed;
      Longer(ss, es, e);
      ss, es := ss + [View()], es + [e];
      RunAgrees(ss, es, |es|);
      NextGrows(s, e);
    }

    // ---------------------------------------------------------------- notifications

    /** emit stateChanged(st): the slots of all clients run, one after the other. */
    method EmitStateChanged(st: VpnState)
      modifies `link
      ensures link == old(link).(clients := Notified(old(link.clients), st), emitted := old(link.emitted) + [st])
    {
      ghost var was := link;
      var i := 0;
      while i < |link.clients|
        invariant i <= |link.clients| == |was.clients| && link == was.(clients := link.clients)
        invariant forall k :: 0 <= k < |was.clients| ==>
          link.clients[k] == if k < i then was.clients[k].(mState := st) else was.clients[k]
      {
        link := link.(clients := link.clients[i := link.clients[i].(mState := st)]);
        i := i + 1;
      }
      assert link.clients == Notified(was.clients, st);
      link := link.(emitted := link.emitted + [st]);
    }

    method SetState(st: VpnState)
      modifies `link
      ensures link == VpnNotify.SetState(old(link), st)
      ensures Agreed(old(link)) ==> Agreed(link)
    {
      if st != link.state {
        link := link.(state := st);
        match st {
          case Connected => EmitStateChanged(Connected);
          case Connecting => EmitStateChanged(Connecting);
          case Disconnected =>
            if link.timer {
              link := link.(timer := false);
            }
            EmitStateChanged(Disconnected);
        }
      }
      if Agreed(old(link)) {
        SetStateAgrees(old(link), st);
      }
    }

    method DisconnectFromOpenvpnSocket()
      modifies `link
      ensures link == old(link).(socket := false)
    {
      if link.socket {
        link := link.(socket := false);
      }
    }

    method ConnectToOpenvpnSocket()
      modifies `link
      ensures link == old(link).(socket := true)
    {
      DisconnectFromOpenvpnSocket();
      link := link.(socket := true);
    }

    /** Whatever openvpnRunning() answers. */
    method Stop()
      modifies `link
      ensures link == VpnNotify.Stop(old(link))
      ensures link.state == Disconnected && !link.socket && !link.watcher
      ensures link.timer <==> old(link.timer) && old(link.state) == Disconnected
    {
      if * {
        DisconnectFromOpenvpnSocket();
      }
      if link.socket {
        DisconnectFromOpenvpnSocket();
      }
      if link.watcher {
        link := link.(watcher := false);
      }
      SetState(Disconnected);
    }

    // ---------------------------------------------------------------- connecting

    method GetTemplate()
      modifies `book
      ensures book == VpnManager.GetTemplate(old(book))
    {
      var key := ServerKey(book.serverId, book.port);
      var request := Request(key, book.serverId, book.port, book.startPort, book.url);
      book := book.(pending := book.pending + multiset{request});
    }

    method StartConnecting()
      modifies `link, `book, `flags
      ensures View() == VpnManager.StartConnecting(old(View()))
    {
      SetState(Connecting);
      flags := flags.(tunError := false);
      flags := flags.(error := false);
      GetTemplate();
    }

    method Start(serverId: int, port: int, url: string, dns1: string, dns2: string)
      modifies `link, `book, `flags
      ensures View() == VpnManager.Start(old(View()), serverId, port, url, dns1, dns2)
    {
      flags := flags.(attempts := 0);
      Stop();
      book := book.(serverId := serverId);
      book := book.(port := port, startPort := port);
      book := book.(url := url);
      book := book.(dns1 := dns1);
      book := book.(dns2 := dns2);
      StartConnecting();
    }

    method WriteConfigFile(canOpen: bool) returns (ok: bool)
      modifies `book
      ensures ok == CanWrite(old(book), canOpen)
      ensures ok ==> HasText(book.config, old(book).cache[CurrentKey(old(book))], old(book).dns1, old(book).dns2)
      ensures !ok ==> book.config == if canOpen then "" else old(book).config
      ensures book == VpnManager.WriteConfigFile(old(book), canOpen)
    {
      hide ConfigText, HasText;
      if !canOpen {
        return false;
      }
      book := book.(config := "");
      var server := ServerKey(book.serverId, book.port);
      if server !in book.cache {
        return false;
      }
      var text := Assemble(book.cache[server], book.dns1, book.dns2);
      book := book.(config := text);
      return true;
    }

    method ContinueConnecting(env: Env)
      modifies `link, `book, `flags
      ensures View() == VpnManager.ContinueConnecting(old(View()), env)
    {
      hide VpnManager.WriteConfigFile, CanWrite;
      var written := WriteConfigFile(env.canOpen);
      if !written {
        return;
      }
      var ok := false;
      if env.launched {
        ConnectToOpenvpnSocket();
        if !link.watcher {
          if env.logExists {
            link := link.(watcher := true);
          }
        }
        ok := true;
      }
      if ok {
        link := link.(timer := true);
      } else {
        SetState(Disconnected);
      }
    }

    // ---------------------------------------------------------------- clients and their commands

    /** A client connects; what it believes is right exactly if the manager is Disconnected. */
    method IncomingConnection()
      requires Valid()
      modifies this
      ensures Valid() && es == old(es) + [Arrive] && View() == Next(old(View()), Arrive) && Agreed(link)
      ensures var c := link.clients[|old(link.clients)|];
              c.mState == Disconnected && (c.mState == link.state <==> old(link.state) == Disconnected)
    {
      link := link.(clients := link.clients + [Client(Disconnected, |link.emitted|)]);
      Record(old(View()), Arrive);
    }

    /** A client has gone; the others keep their order. */
    method ClientGone(i: nat)
      requires Valid() && i < |link.clients|
      modifies this
      ensures Valid() && es == old(es) + [Leave(i)] && View() == Next(old(View()), Leave(i)) && Agreed(link)
    {
      link := link.(clients := link.clients[..i] + link.clients[i + 1..]);
      Record(old(View()), Leave(i));
    }

    /** The manager is Connecting, has asked for the template of this start and counts from zero. */
    method CmdStart(serverId: int, port: int, url: string, dns1: string, dns2: string)
      requires Valid()
      modifies this
      ensures Valid() && es == old(es) + [Event.CmdStart(serverId, port, url, dns1, dns2)]
      ensures View() == Next(old(View()), Event.CmdStart(serverId, port, url, dns1, dns2)) && Agreed(link)
      ensures link.state == Connecting && !link.socket && !link.watcher && flags.attempts == 0
      ensures book.pending
           == old(book.pending) + multiset{Request(ServerKey(serverId, port), serverId, port, port, url)}
    {
      hide VpnNotify.SetState;
      if link.state == Connected {
        Stop();
      }
      Start(serverId, port, url, dns1, dns2);
      ghost var e := Event.CmdStart(serverId, port, url, dns1, dns2);
      Record(old(View()), e);
      BeginsConnecting(old(View()), e);
    }

    /** stop() for a client: everything is down, except a timer that outlived an earlier stop. */
    method CmdStop()
      requires Valid()
      modifies this
      ensures Valid() && es == old(es) + [Event.CmdStop] && View() == Next(old(View()), Event.CmdStop) && Agreed(link)
      ensures Silent(link) && (link.timer <==> old(link.timer) && old(link.state) == Disconnected)
      ensures link.timer ==> exists j :: 0 <= j < |old(es)| && ArrivesStale(old(ss)[j], old(es)[j])
    {
      hide ArrivesStale, VpnNotify.Stop;
      Stop();
      TimerRun(ss, es, |es|);
      Record(old(View()), Event.CmdStop);
    }

    method KillRunningOpenvpn(running: bool)
      requires Valid()
      modifies this
      ensures Valid() && es == old(es) + [CmdKill(running)] && View() == Next(old(View()), CmdKill(running))
      ensures Agreed(link) && (running ==> Silent(link))
    {
      hide VpnNotify.Stop;
      if running {
        ConnectToOpenvpnSocket();
        Stop();
      }
      Record(old(View()), CmdKill(running));
    }

    /** netDown(true), when setRights raises no exception. */
    method NetDown()
      requires Valid()
      modifies this
      ensures Valid() && es == old(es) + [CmdNetDown] && View() == Next(old(View()), CmdNetDown) && Agreed(link)
    {
      flags := flags.(netDown := true);
      Record(old(View()), CmdNetDown);
    }

    // ---------------------------------------------------------------- replies of the network

    /** error() and then finished() of a reply that failed. */
    method GetTemplateError(r: Request)
      requires Valid() && r in book.pending
      modifies this
      ensures Valid() && es == old(es) + [TemplateFailed(r)] && View() == Next(old(View()), TemplateFailed(r))
      ensures Agreed(link) && Silent(link) && book == old(book).(pending := old(book.pending) - multiset{r})
    {
      hide VpnNotify.Stop;
      book := book.(pending := book.pending - multiset{r});
      Stop();
      Stop();
      Record(old(View()), TemplateFailed(r));
    }

    /** A config file that is written is made of the last template that arrived for this server and port class,
        whichever reply this is; the timer is wrong afterwards only if the template came too late. */
    method GetTemplateFinished(r: Request, bytes: string, env: Env)
      requires Valid() && r in book.pending
      modifies this
      ensures Valid() && es == old(es) + [TemplateFetched(r, bytes, env)]
      ensures View() == Next(old(View()), TemplateFetched(r, bytes, env)) && Agreed(link)
      ensures book.cache == old(book.cache)[r.key := bytes]
      ensures env.canOpen ==>
                if CurrentKey(book) in book.cache then exists k: nat :: MadeOfOwn(book, k) && EndsWith(book, k)
                else book.config == ""
      ensures !env.canOpen ==> book.config == old(book.config) && link == old(link)
      ensures TimerOk(old(link)) ==>
                (TimerOk(link) <==> !ArrivesStale(old(View()), TemplateFetched(r, bytes, env)))
    {
      hide VpnManager.ContinueConnecting, MadeOfOwn, TimerOk, ArrivesStale, Agreed;
      ghost var e := TemplateFetched(r, bytes, env);
      book := book.(cache := book.cache[r.key := bytes]);
      book := book.(pending := book.pending - multiset{r}, fetched := book.fetched + [Fetch(r, bytes)]);
      ContinueConnecting(env);
      Record(old(View()), e);
      FetchedBook(old(View()), e);
      if Writes(old(View()), e) {
        ghost var k := ConfigIsOwn(ss, es, |es| - 1);
      }
      if TimerOk(old(link)) {
        OnlyStaleBreaksTimer(old(View()), e);
      }
    }

    // ---------------------------------------------------------------- the state timer

    /** checkState(); late is whether connecting has taken more than a minute. */
    method Check(running: bool, late: bool)
      modifies `link, `book, `flags
      ensures View() == Checked(old(View()), running, late)
    {
      hide VpnManager.GetTemplate;
      if running {
        if !link.socket {
          ConnectToOpenvpnSocket();
        }
      } else if link.state == Connected {
        if flags.reconnect {
          StartConnecting();
        } else {
          SetState(Disconnected);
        }
      }
      if link.state == Connecting {
        if flags.testing {
          if late {
            Stop();
          }
        } else if late {
          Stop();
        }
      }
    }

    /** A crash is noticed, and connecting that has taken too long is over. */
    method CheckState(running: bool, late: bool)
      requires Valid() && link.timer
      modifies this
      ensures Valid() && es == old(es) + [Event.CheckState(running, late)]
      ensures View() == Next(old(View()), Event.CheckState(running, late)) && Agreed(link)
      ensures late ==> link.state != Connecting
      ensures !running ==> link.state != Connected
      ensures !late && (running || old(link.state) != Connected) ==> link.state == old(link.state)
    {
      hide Checked, Agreed;
      Check(running, late);
      Record(old(View()), Event.CheckState(running, late));
      StateAfterCheck(old(View()), running, late);
    }

    /** reconnectTimeout(): wait for the process to end, or stop it after the third time. */
    method Reconnect(running: bool)
      requires flags.retries > 0
      modifies `link, `book, `flags
      ensures View() == ReconnectTimedOut(old(View()), running)
    {
      hide VpnNotify.Stop, VpnManager.GetTemplate, VpnNotify.SetState;
      flags := flags.(attempts := flags.attempts + 1, retries := flags.retries - 1);
      if running {
        if flags.attempts < MAX_RECONNECT {
          flags := flags.(retries := flags.retries + 1);
        } else {
          Stop();
          StartConnecting();
        }
      } else {
        StartConnecting();
      }
    }

    /** From the third timeout since the start on, or when the process has ended, the template is asked for again. */
    method ReconnectTimeout(running: bool)
      requires Valid() && flags.retries > 0
      modifies this
      ensures Valid() && es == old(es) + [Event.ReconnectTimeout(running)]
      ensures View() == Next(old(View()), Event.ReconnectTimeout(running)) && Agreed(link)
      ensures Started(es, |es|) ==> flags.attempts == TimeoutsSinceStart(es, |es|)
      ensures Started(es, |es|) ==>
                (book.pending != old(book.pending) <==> !running || TimeoutsSinceStart(es, |es|) >= MAX_RECONNECT)
    {
      hide ReconnectTimedOut, Agreed, TimeoutsSinceStart;
      Reconnect(running);
      Record(old(View()), Event.ReconnectTimeout(running));
      AttemptsCount(ss, es, |es|);
      if Started(es, |es|) {
        assert Started(es, |old(es)|);
        ReconnectsIff(ss, es, |old(es)|, running);
      }
    }

    // ---------------------------------------------------------------- the log file

    method GotTunErr()
      modifies `link, `book, `flags
      ensures View() == VpnManager.GotTunErr(old(View()))
    {
      if !flags.tunError && !flags.error {
        flags := flags.(tunError := true);
        flags := flags.(error := true);
        StartConnecting();
      }
    }

    method ParseOpenvpnLogLine(l: LogLine)
      modifies `link, `book, `flags
      ensures View() == ParseLogLine(old(View()), l)
    {
      hide VpnNotify.SetState, VpnManager.GetTemplate;
      if l.command {
        return;
      }
      if l.bindFailed {
        book := book.(port := book.port + 1);
        StartConnecting();
      }
      if l.linkRemote {
      } else if l.completed {
        SetState(Connected);
      } else if l.tunDenied {
        GotTunErr();
      }
    }

    /** The log connects the manager only by a line that reports completion. */
    method OpenvpnLogfileChanged(lines: seq<LogLine>)
      requires Valid() && link.watcher
      modifies this
      ensures Valid() && es == old(es) + [LogChanged(lines)]
      ensures View() == Next(old(View()), LogChanged(lines)) && Agreed(link) && old(link.emitted) <= link.emitted
      ensures old(link.state) != Connected && link.state == Connected ==>
                !old(flags.error) && exists i :: 0 <= i < |lines| && ReportsCompletion(lines[i])
    {
      hide ParseLogLine, Agreed, ReportsCompletion;
      if !flags.error {
        for k := 0 to |lines|
          invariant View() == ParseLog(old(View()), lines[..k]) && ss == old(ss) && es == old(es)
        {
          assert lines[..k + 1][..k] == lines[..k];
          ParseOpenvpnLogLine(lines[k]);
        }
        assert lines[..|lines|] == lines;
      }
      Record(old(View()), LogChanged(lines));
      if old(link.state) != Connected && link.state == Connected {
        OnlyReportsConnect(old(View()), LogChanged(lines));
      }
    }

    // ---------------------------------------------------------------- the management socket

    method ParseSocketStateWord(word: string)
      modifies `link, `book, `flags
      ensures View() == ParseStateWord(old(View()), word)
    {
      hide VpnNotify.SetState, VpnNotify.Stop, Is;
      Exclusive(word);
      var isnew := word != flags.previousWord;
      if Is(word, "CONNECTED") {
        if isnew {
          SetState(Connected);
        }
      } else if Is(word, "CONNECTING") || Is(word, "TCP_CONNECT") {
        SetState(Connecting);
      } else if Is(word, "WAIT") {
      } else if Is(word, "EXITING") {
        if flags.reconnect {
          flags := flags.(retries := flags.retries + 1);
          SetState(Connecting);
        } else {
          SetState(Disconnected);
        }
      } else if Is(word, "RECONNECTING") {
        SetState(Connecting);
      } else if Is(word, "AUTH") {
        SetState(Connecting);
      } else if Is(word, "GET_CONFIG") {
      } else if Is(word, "ASSIGN_IP") {
        SetState(Connecting);
      } else if Is(word, "RESOLVE") {
        if flags.netDown {
          Stop();
        }
      }
      flags := flags.(previousWord := word);
    }

    method ShowErrorMessageCleanup()
      modifies `link
      ensures link == VpnNotify.SetState(old(link).(socket := false), Disconnected)
    {
      DisconnectFromOpenvpnSocket();
      SetState(Disconnected);
    }

    /** One line of the management socket, whether the socket is still there or not. */
    method ParseSocketLine(line: SocketLine)
      modifies `link, `book, `flags
      ensures View() == VpnManager.ParseSocketLine(old(View()), line)
    {
      hide VpnNotify.SetState, VpnNotify.Stop, ParseStateWord, VpnManager.GotTunErr;
      match line {
        case StateWord(word) => ParseSocketStateWord(word);
        case AuthFailed =>
          flags := flags.(error := true);
          ShowErrorMessageCleanup();
        case TunFatal => GotTunErr();
        case Fatal =>
          flags := flags.(error := true);
          Stop();
        case PlainError => DisconnectFromOpenvpnSocket();
        case Ignored =>
      }
    }

    /** The socket connects the manager only by a CONNECTED word other than the word before it; after a stop by line j
        the manager is still stopped when the read is done exactly if no later line undoes the stop. */
    method SocketReadyRead(lines: seq<SocketLine>)
      requires Valid() && link.socket
      modifies this
      ensures Valid() && es == old(es) + [SocketRead(lines)]
      ensures View() == Next(old(View()), SocketRead(lines)) && Agreed(link) && old(link.emitted) <= link.emitted
      ensures old(link.state) != Connected && link.state == Connected ==>
                exists k :: 0 <= k < |lines| && ReportsConnection(lines, k, old(flags.previousWord))
      ensures forall j :: 0 <= j < |lines| && StopsAll(ParseSocket(old(View()), lines[..j]).flags, lines[j]) ==>
                var stopped := ParseSocket(old(View()), lines[..j + 1]);
                (link == stopped.link <==> StaysStopped(stopped.flags, lines[j + 1..]))
    {
      hide VpnManager.ParseSocketLine, Agreed, ReportsConnection, StopsAll, StaysStopped;
      for k := 0 to |lines|
        invariant View() == ParseSocket(old(View()), lines[..k]) && ss == old(ss) && es == old(es)
      {
        assert lines[..k + 1][..k] == lines[..k];
        ParseSocketLine(lines[k]);
      }
      assert lines[..|lines|] == lines;
      Record(old(View()), SocketRead(lines));
      if old(link.state) != Connected && link.state == Connected {
        OnlyReportsConnect(old(View()), SocketRead(lines));
      }
      forall j | 0 <= j < |lines| && StopsAll(ParseSocket(old(View()), lines[..j]).flags, lines[j])
        ensures var stopped := ParseSocket(old(View()), lines[..j + 1]);
                (link == stopped.link <==> StaysStopped(stopped.flags, lines[j + 1..]))
      {
        StopUndoneIff(old(View()), lines, j);
      }
    }

    /** Whatever the error is, the socket is dropped and the state stays. */
    method SocketFailed(remoteClosed: bool)
      requires Valid() && link.socket
      modifies this
      ensures Valid() && es == old(es) + [SocketError] && View() == Next(old(View()), SocketError) && Agreed(link)
    {
      if remoteClosed {
        DisconnectFromOpenvpnSocket();
      } else if link.socket {
        link := link.(socket := false);
      }
      Record(old(View()), SocketError);
    }
  }

  /** The last bytes of the config file are those of template k and a newline. */
  predicate EndsWith(b: Book, k: nat) {
    k < |b.fetched| &&
    var end := b.fetched[k].bytes + "\n";
    |end| <= |b.config| && b.config[|b.config| - |end|..] == end
  }

  lemma StateAfterCheck(s: State, running: bool, late: bool)
    ensures var t := Checked(s, running, late).link;
            && (late ==> t.state != Connecting) && (!running ==> t.state != Connected)
            && (!late && (running || s.link.state != Connected) ==> t.state == s.link.state)
  {
    hide GetTemplate, Notified;
  }

  lemma BeginsConnecting(s: State, e: Event)
    requires e.CmdStart?
    ensures var t := Next(s, e);
            && t.link.state == Connecting && !t.link.socket && !t.link.watcher && t.flags.attempts == 0
            && t.book.pending == s.book.pending
                 + multiset{Request(ServerKey(e.serverId, e.port), e.serverId, e.port, e.port, e.url)}
  {
    hide Notified;
  }

  lemma FetchedBook(s: State, e: Event)
    requires Enabled(s, e) && e.TemplateFetched?
    ensures var t, got := Next(s, e), Received(s.book, e.r, e.bytes);
            && t.book == VpnManager.WriteConfigFile(got, e.env.canOpen)
            && t.book.cache == got.cache && CurrentKey(t.book) == CurrentKey(s.book)
            && (!e.env.canOpen ==> t.link == s.link)
            && (Writes(s, e) <==> e.env.canOpen && CurrentKey(s.book) in got.cache)
  {
    ContinueSame(s.(book := Received(s.book, e.r, e.bytes)), e.env);
    hide ConfigText, SetState;
  }

  /** No word is two of these. */
  lemma Exclusive(word: string)
    ensures Is(word, "WAIT") || Is(word, "GET_CONFIG") ==> !MeansConnecting(word)
    ensures Is(word, "WAIT") || Is(word, "GET_CONFIG") ==> !Is(word, "EXITING") && !Is(word, "RESOLVE")
    ensures Is(word, "EXITING") || Is(word, "RESOLVE") ==> !MeansConnecting(word)
    ensures !(Is(word, "EXITING") && Is(word, "RESOLVE"))
  {
    if |word| == 4 {
      assert "WAIT"[0] == 'W' && "AUTH"[0] == 'A';
    }
    if |word| == 7 {
      assert "EXITING"[0] == 'E' && "RESOLVE"[0] == 'R';
    }
    if |word| == 10 {
      assert "GET_CONFIG"[0] == 'G' && "CONNECTING"[0] == 'C';
    }
  }

  /** What writeConfigFile writes into the open file. */
  method Assemble(template: string, dns1: string, dns2: string) returns (text: string)
    ensures text == ConfigText(template, dns1, dns2) && HasText(text, template, dns1, dns2)
  {
    hide MentionsDns, HasText;
    var filteredLines, templateHasDNSOptions := Filter(template);
    text := "";
    if !templateHasDNSOptions {
      if dns1 != "" {
        text := text + "push \"dhcp-option DNS " + dns1 + "\"\n";
      }
      if dns2 != "" {
        text := text + ("push \"dhcp-option DNS " + dns2 + "\"\n");
      }
    }
    Reassociate(text, template);
    text := text + filteredLines;
    ConfigHasText(text, template, dns1, dns2);
  }

  lemma Reassociate(head: string, template: string)
    ensures head + (template + "\n") == head + template + "\n"
  {
  }
}
