/** What each event does to the connection state, the socket, the timers and the requests, said of the fields
    themselves. */
module VpnEffects {
  import opened VpnNotify
  import opened VpnTemplates
  import opened VpnManager

  /** The state is st then, and every client has been told so once if it was another one before. */
  predicate Becomes(l: Link, m: Link, st: VpnState) {
    && m.state == st && |m.clients| == |l.clients|
    && m.emitted == (if l.state == st then l.emitted else l.emitted + [st])
    && forall i :: 0 <= i < |l.clients| ==>
         m.clients[i].since == l.clients[i].since
         && m.clients[i].mState == if l.state == st then l.clients[i].mState else st
  }

  /** Nothing is left but a timer that was running although the state was Disconnected. */
  predicate Ended(l: Link, m: Link) {
    && Becomes(l, m, Disconnected) && !m.socket && !m.watcher
    && m.timer == (l.timer && l.state == Disconnected)
  }

  /** The state alone has changed; only becoming Disconnected stops the timer. */
  predicate StateIs(l: Link, m: Link, st: VpnState) {
    && Becomes(l, m, st) && m.socket == l.socket && m.watcher == l.watcher
    && m.timer == (l.timer && (st != Disconnected || l.state == Disconnected))
  }

  /** One more template has been asked for: the one for this server and this class of ports. */
  predicate Asks(b: Book, c: Book) {
    var key := b.serverId * 10 + if b.port == 1194 then 1 else if b.port == 53 then 2 else 3;
    c == b.(pending := b.pending + multiset{Request(key, b.serverId, b.port, b.startPort, b.url)})
  }

  /** Connecting begins anew. */
  predicate BeginsAnew(s: State, t: State) {
    && StateIs(s.link, t.link, Connecting) && Asks(s.book, t.book)
    && t.flags == s.flags.(tunError := false, error := false)
  }

  lemma KeyValues(id: int, port: int)
    ensures ServerKey(id, port) == id * 10 + if port == 1194 then 1 else if port == 53 then 2 else 3
  {
  }

  lemma SetStateIs(l: Link, st: VpnState)
    ensures StateIs(l, SetState(l, st), st)
  {
  }

  lemma StopEndsAll(l: Link)
    ensures Ended(l, Stop(l))
  {
  }

  lemma StartsAnew(s: State)
    ensures BeginsAnew(s, StartConnecting(s))
  {
    SetStateIs(s.link, Connecting);
    KeyValues(s.book.serverId, s.book.port);
    hide SetState, StateIs, ServerKey;
  }

  // ------------------------------------------------------------------ the management socket

  /** A refused password ends the connection: the state is Disconnected, the socket is dropped and log lines are not
      looked at any more. */
  lemma RefusedPassword(s: State)
    ensures var t := ParseSocketLine(s, AuthFailed);
            && Becomes(s.link, t.link, Disconnected) && !t.link.socket && t.link.watcher == s.link.watcher
            && t.link.timer == (s.link.timer && s.link.state == Disconnected)
            && t.book == s.book && t.flags == s.flags.(error := true)
  {
    SetStateIs(s.link.(socket := false), Disconnected);
    hide SetState;
  }

  /** What the other lines do. */
  lemma OtherLines(s: State)
    ensures var t := ParseSocketLine(s, Fatal);
            Ended(s.link, t.link) && t.book == s.book && t.flags == s.flags.(error := true)
    ensures ParseSocketLine(s, PlainError) == s.(link := s.link.(socket := false))
    ensures ParseSocketLine(s, Ignored) == s
    ensures var t := ParseSocketLine(s, TunFatal);
            if s.flags.tunError || s.flags.error then t == s
            else StateIs(s.link, t.link, Connecting) && Asks(s.book, t.book) && t.flags == s.flags
  {
    StopEndsAll(s.link);
    StartsAnew(s.(flags := s.flags.(tunError := true, error := true)));
    hide Stop, StartConnecting, Ended, StateIs, Asks;
  }

  /** A word without regard to case. */
  function Lowered(w: string): (l: string)
    ensures |l| == |w| && forall i :: 0 <= i < |w| ==> l[i] == Lower(w[i])
  {
    seq(|w|, i requires 0 <= i < |w| => Lower(w[i]))
  }

  lemma IsLowered(word: string, name: string)
    ensures Is(word, name) <==> Lowered(word) == Lowered(name)
  {
    if Lowered(word) == Lowered(name) {
      assert forall i :: 0 <= i < |word| ==> Lower(word[i]) == Lowered(word)[i] == Lowered(name)[i];
    }
  }

  lemma ShortNames()
    ensures Lowered("AUTH") == "auth"
    ensures Lowered("EXITING") == "exiting"
    ensures Lowered("RESOLVE") == "resolve"
  {
  }

  lemma LongNames()
    ensures Lowered("CONNECTED") == "connected"
    ensures Lowered("ASSIGN_IP") == "assign_ip"
    ensures Lowered("CONNECTING") == "connecting"
  {
  }

  lemma LongerNames()
    ensures Lowered("TCP_CONNECT") == "tcp_connect"
    ensures Lowered("RECONNECTING") == "reconnecting"
  {
  }

  /** The words that are understood, in any mixture of upper and lower case. */
  lemma Words(word: string)
    ensures var w := Lowered(word);
            && (Is(word, "CONNECTED") <==> w == "connected")
            && (Is(word, "EXITING") <==> w == "exiting")
            && (Is(word, "RESOLVE") <==> w == "resolve")
            && (MeansConnecting(word) <==>
                w in ["connecting", "tcp_connect", "reconnecting", "auth", "assign_ip"])
  {
    ShortNames();
    LongNames();
    LongerNames();
    IsLowered(word, "CONNECTED");
    IsLowered(word, "EXITING");
    IsLowered(word, "RESOLVE");
    IsLowered(word, "CONNECTING");
    IsLowered(word, "TCP_CONNECT");
    IsLowered(word, "RECONNECTING");
    IsLowered(word, "AUTH");
    IsLowered(word, "ASSIGN_IP");
    hide Is, Lowered;
  }

  lemma Different()
    ensures "exiting" !in ["connecting", "tcp_connect", "reconnecting", "auth", "assign_ip"]
    ensures "resolve" !in ["connecting", "tcp_connect", "reconnecting", "auth", "assign_ip"]
    ensures "connected" !in ["connecting", "tcp_connect", "reconnecting", "auth", "assign_ip"]
    ensures "exiting" != "resolve" && "exiting" != "connected" && "resolve" != "connected"
  {
    assert "exiting"[0] == 'e' && "resolve"[0] == 'r';
    assert |"connecting"| == 10 && |"connected"| == 9;
    assert "assign_ip"[0] == 'a' && "connected"[0] == 'c';
  }

  /** Exactly these words change the state: connected, unless it comes twice in a row; five words that mean connecting;
      exiting; and resolve when the network is known to be down. */
  lemma WordEffect(s: State, word: string)
    ensures var w, t := Lowered(word), ParseSocketLine(s, StateWord(word));
            && t.book == s.book
            && t.flags == s.flags.(previousWord := word, retries := s.flags.retries +
                                     if w == "exiting" && s.flags.reconnect then 1 else 0)
            && (if w == "connected" && word != s.flags.previousWord then StateIs(s.link, t.link, Connected)
                else if w in ["connecting", "tcp_connect", "reconnecting", "auth", "assign_ip"] then
                  StateIs(s.link, t.link, Connecting)
                else if w == "exiting" then
                  StateIs(s.link, t.link, if s.flags.reconnect then Connecting else Disconnected)
                else if w == "resolve" && s.flags.netDown then Ended(s.link, t.link)
                else t.link == s.link)
  {
    Words(word);
    Different();
    SetStateIs(s.link, Connected);
    SetStateIs(s.link, Connecting);
    SetStateIs(s.link, Disconnected);
    StopEndsAll(s.link);
    hide Is, MeansConnecting, SetState, Stop, StateIs, Ended;
  }

  // ------------------------------------------------------------------ the log

  /** A failed bind moves the port by one and begins anew; the end of the initialization connects; a refused tunnel
      begins anew once. A line that contains the command itself is passed over. */
  lemma LogLineEffect(s: State, l: LogLine) returns (u: State)
    ensures var t := ParseLogLine(s, l);
            if l.command then t == u == s
            else
              && (if l.bindFailed then BeginsAnew(s.(book := s.book.(port := s.book.port + 1)), u) else u == s)
              && (if l.linkRemote then t == u
                  else if l.completed then
                    StateIs(u.link, t.link, Connected) && t.book == u.book && t.flags == u.flags
                  else if l.tunDenied && !u.flags.tunError && !u.flags.error then
                    StateIs(u.link, t.link, Connecting) && Asks(u.book, t.book) && t.flags == u.flags
                  else t == u)
  {
    var moved := s.(book := s.book.(port := s.book.port + 1));
    u := if !l.command && l.bindFailed then StartConnecting(moved) else s;
    StartsAnew(moved);
    SetStateIs(u.link, Connected);
    StartsAnew(u.(flags := u.flags.(tunError := true, error := true)));
    hide StartConnecting, SetState, StateIs, Asks;
  }

  // ------------------------------------------------------------------ timers and replies

  /** A process that runs gets its socket; one that has died ends the connection or begins anew; and connecting that
      has taken too long ends. */
  lemma CheckEffect(s: State, running: bool, late: bool) returns (u: State)
    ensures var t := Checked(s, running, late);
            && (if running then u == s.(link := s.link.(socket := true))
                else if s.link.state != Connected then u == s
                else if s.flags.reconnect then BeginsAnew(s, u)
                else StateIs(s.link, u.link, Disconnected) && u.book == s.book && u.flags == s.flags)
            && (if late && u.link.state == Connecting then
                  Ended(u.link, t.link) && t.book == u.book && t.flags == u.flags
                else t == u)
  {
    u := Checked(s, running, false);
    StartsAnew(s);
    SetStateIs(s.link, Disconnected);
    StopEndsAll(u.link);
    hide StartConnecting, SetState, Stop, StateIs, Ended, BeginsAnew;
  }

  /** The reconnect timer counts, and from the third time on, or when the process has ended, connecting begins anew;
      otherwise the timer is started again. */
  lemma TimeoutEffect(s: State, running: bool) returns (u: State)
    requires s.flags.retries > 0
    ensures var t := ReconnectTimedOut(s, running);
            && u.book == s.book
            && u.flags == s.flags.(attempts := s.flags.attempts + 1, retries := s.flags.retries - 1)
            && (if !running then u.link == s.link && BeginsAnew(u, t)
                else if s.flags.attempts < 2 then t == s.(flags := s.flags.(attempts := s.flags.attempts + 1))
                else Ended(s.link, u.link) && BeginsAnew(u, t))
  {
    var counted := s.(flags := s.flags.(attempts := s.flags.attempts + 1, retries := s.flags.retries - 1));
    u := if running then StopAll(counted) else counted;
    StopEndsAll(s.link);
    StartsAnew(u);
    hide StartConnecting, Stop, Ended, BeginsAnew;
  }

  /** After a reply: with a config file and a process the socket and the timer are on, with a config file alone the
      state is Disconnected, and without one nothing happens. */
  lemma ReplyEffect(s: State, r: Request, bytes: string, env: Env)
    requires r in s.book.pending
    ensures var t := Next(s, TemplateFetched(r, bytes, env));
            var key := s.book.serverId * 10 + if s.book.port == 1194 then 1 else if s.book.port == 53 then 2 else 3;
            && t.book == s.book.(pending := s.book.pending - multiset{r}, cache := s.book.cache[r.key := bytes],
                                 fetched := s.book.fetched + [Fetch(r, bytes)], config := t.book.config)
            && t.flags == s.flags
            && (if !env.canOpen || (key != r.key && key !in s.book.cache) then t.link == s.link
                else if env.launched then
                  t.link == s.link.(socket := true, timer := true, watcher := s.link.watcher || env.logExists)
                else StateIs(s.link, t.link, Disconnected))
  {
    SetStateIs(s.link, Disconnected);
    KeyValues(s.book.serverId, s.book.port);
    hide SetState, StateIs, ServerKey, ConfigText;
  }

  /** A reply that failed ends everything. */
  lemma FailureEffect(s: State, r: Request)
    requires r in s.book.pending
    ensures var t := Next(s, TemplateFailed(r));
            && Ended(s.link, t.link)
            && t.book == s.book.(pending := s.book.pending - multiset{r}) && t.flags == s.flags
  {
    StopTwice(s.link);
    StopEndsAll(s.link);
    hide Stop, Ended;
  }

  lemma StopTwice(l: Link)
    ensures Stop(Stop(l)) == Stop(l)
  {
  }

  // ------------------------------------------------------------------ commands

  /** A start ends what there was, takes over its parameters and begins anew; a stop and a kill of a running process
      end what there is; a network that is down is only noted. */
  lemma CommandEffect(s: State, serverId: int, port: int, url: string, dns1: string, dns2: string) returns (u: State)
    ensures var t := Next(s, CmdStart(serverId, port, url, dns1, dns2));
            && Ended(s.link, u.link) && u.flags == s.flags.(attempts := 0)
            && u.book == s.book.(serverId := serverId, port := port, startPort := port, url := url, dns1 := dns1,
                                 dns2 := dns2)
            && BeginsAnew(u, t)
    ensures var t := Next(s, CmdStop); Ended(s.link, t.link) && t.book == s.book && t.flags == s.flags
    ensures var t := Next(s, CmdKill(true)); Ended(s.link, t.link) && t.book == s.book && t.flags == s.flags
    ensures Next(s, CmdKill(false)) == s && Next(s, CmdNetDown) == s.(flags := s.flags.(netDown := true))
  {
    u := State(Stop(s.link),
               s.book.(serverId := serverId, port := port, startPort := port, url := url, dns1 := dns1, dns2 := dns2),
               s.flags.(attempts := 0));
    StopEndsAll(s.link);
    StopTwice(s.link);
    StopEndsAll(s.link.(socket := true));
    StopWith(s.link);
    StartsAnew(u);
    hide Stop, StartConnecting, Ended, BeginsAnew;
  }

  lemma StopWith(l: Link)
    ensures Stop(l.(socket := true)) == Stop(l)
  {
  }

  // ------------------------------------------------------------------ clients, and what comes in pieces

  /** A client that comes starts as Disconnected behind the others; when one goes the others keep their places. */
  lemma ClientEffect(s: State, i: nat)
    ensures var t, n := Next(s, Arrive), |s.link.clients|;
            && t.book == s.book && t.flags == s.flags && t.link == s.link.(clients := t.link.clients)
            && |t.link.clients| == n + 1 && t.link.clients[..n] == s.link.clients
            && t.link.clients[n] == Client(Disconnected, |s.link.emitted|)
    ensures i < |s.link.clients| ==>
              var t, n := Next(s, Leave(i)), |s.link.clients|;
              && t.book == s.book && t.flags == s.flags && t.link == s.link.(clients := t.link.clients)
              && |t.link.clients| == n - 1
              && forall k :: 0 <= k < n - 1 ==> t.link.clients[k] == s.link.clients[if k < i then k else k + 1]
  {
  }

  /** The lines of a read are handled one after the other, whatever the earlier ones have done to the socket. A socket
      that fails is dropped, and that is all. */
  lemma ReadEffect(s: State, lines: seq<SocketLine>, line: SocketLine)
    requires s.link.socket
    ensures Next(s, SocketRead([])) == s
    ensures Next(s, SocketRead(lines + [line])) == ParseSocketLine(Next(s, SocketRead(lines)), line)
    ensures Next(s, SocketError) == s.(link := s.link.(socket := false))
  {
    hide ParseSocketLine;
    assert (lines + [line])[..|lines|] == lines;
  }

  /** So are the new lines of the log, unless an error was noted before it changed. */
  lemma LogEffect(s: State, log: seq<LogLine>, entry: LogLine)
    requires s.link.watcher
    ensures Next(s, LogChanged([])) == s && (s.flags.error ==> Next(s, LogChanged(log)) == s)
    ensures !s.flags.error ==> Next(s, LogChanged(log + [entry])) == ParseLogLine(Next(s, LogChanged(log)), entry)
  {
    hide ParseLogLine;
    assert (log + [entry])[..|log|] == log;
  }
}
