/** The service's OpenVPN manager (src/service/openvpnmanager.cpp) outside Windows: every event it
    reacts to, as a function on its state; the methods that update its fields are in VpnService. Replies of the
    network, the operating system's answers and the clock are parameters of the events. */
module VpnManager {
  import opened VpnNotify
  import opened VpnTemplates

  const MAX_RECONNECT: nat := 3

  /** A template that has been asked for; the reply carries only the key, and the rest is history: the server, the
      port at the time, the port that was to be started, and the URL. */
  datatype Request = Request(key: int, serverId: int, port: int, startPort: int, url: string)

  /** A template that has arrived. */
  datatype Fetch = Fetch(request: Request, bytes: string)

  /** The server to connect to, the templates, and what the config file holds; startPort and fetched are history. */
  datatype Book = Book(serverId: int, port: int, startPort: int, url: string, dns1: string, dns2: string,
                       cache: map<int, string>, pending: multiset<Request>, config: string, fetched: seq<Fetch>)

  /** retries counts the single-shot reconnect timers that are running. */
  datatype Flags = Flags(tunError: bool, error: bool, reconnect: bool, testing: bool, netDown: bool,
                         attempts: nat, retries: nat, previousWord: string)

  datatype State = State(link: Link, book: Book, flags: Flags)

  /** What the operating system does: can the config file be opened, is the parameter file written without an
      exception, and does the log file exist. */
  datatype Env = Env(canOpen: bool, launched: bool, logExists: bool)

  /** What parseSocketLine makes of a line of the management socket. */
  datatype SocketLine =
    | StateWord(word: string)
    | AuthFailed                               // >PASSWORD: ... Verification Failed
    | TunFatal                                 // >FATAL:Cannot allocate TUN/TAP dev dynamically
    | Fatal                                    // any other >FATAL
    | PlainError                               // ERROR or FATAL without >
    | Ignored                                  // lines that change no state

  /** What parseOpenvpnLogLine looks for in a line. */
  datatype LogLine = LogLine(command: bool, bindFailed: bool, linkRemote: bool, completed: bool, tunDenied: bool)

  datatype Event =
    | Arrive                                   // a client connects
    | Leave(i: nat)                            // a client disconnects
    | CmdStart(serverId: int, port: int, url: string, dns1: string, dns2: string)
    | CmdStop
    | CmdKill(running: bool)
    | CmdNetDown
    | TemplateFailed(r: Request)
    | TemplateFetched(r: Request, bytes: string, env: Env)
    | CheckState(running: bool, late: bool)
    | LogChanged(log: seq<LogLine>)
    | SocketRead(lines: seq<SocketLine>)       // all lines of one read, whatever earlier ones do to the socket
    | SocketError
    | ReconnectTimeout(running: bool)

  // ------------------------------------------------------------------ the config file

  function Push(dns: string): string {
    if dns == "" then "" else "push \"dhcp-option DNS " + dns + "\"\n"
  }

  function ConfigText(template: string, dns1: string, dns2: string): string {
    (if MentionsDns(template) then "" else Push(dns1) + Push(dns2)) + template + "\n"
  }

  function CurrentKey(b: Book): int {
    ServerKey(b.serverId, b.port)
  }

  predicate CanWrite(b: Book, canOpen: bool) {
    canOpen && CurrentKey(b) in b.cache
  }

  /** Opening the file empties it, even if there is no template to write. */
  function WriteConfigFile(b: Book, canOpen: bool): Book {
    if CanWrite(b, canOpen) then b.(config := ConfigText(b.cache[CurrentKey(b)], b.dns1, b.dns2))
    else if canOpen then b.(config := "")
    else b
  }

  function GetTemplate(b: Book): Book {
    b.(pending := b.pending + multiset{Request(CurrentKey(b), b.serverId, b.port, b.startPort, b.url)})
  }

  function Received(b: Book, r: Request, bytes: string): Book {
    b.(cache := b.cache[r.key := bytes], pending := b.pending - multiset{r}, fetched := b.fetched + [Fetch(r, bytes)])
  }

  // ------------------------------------------------------------------ the events

  function StartConnecting(s: State): State {
    State(SetState(s.link, Connecting), GetTemplate(s.book), s.flags.(tunError := false, error := false))
  }

  function StopAll(s: State): State {
    s.(link := Stop(s.link))
  }

  function Start(s: State, serverId: int, port: int, url: string, dns1: string, dns2: string): State {
    StartConnecting(State(Stop(s.link),
                          s.book.(serverId := serverId, port := port, startPort := port, url := url, dns1 := dns1,
                                  dns2 := dns2),
                          s.flags.(attempts := 0)))
  }

  /** After a template has arrived, whichever it is. */
  function ContinueConnecting(s: State, env: Env): State {
    var b := WriteConfigFile(s.book, env.canOpen);
    if !CanWrite(s.book, env.canOpen) then s.(book := b)
    else if env.launched then
      s.(book := b, link := s.link.(socket := true, watcher := s.link.watcher || env.logExists, timer := true))
    else
      s.(book := b, link := SetState(s.link, Disconnected))
  }

  function Checked(s: State, running: bool, late: bool): State {
    var t := if running then s.(link := s.link.(socket := true))
             else if s.link.state == Connected then
               if s.flags.reconnect then StartConnecting(s) else s.(link := SetState(s.link, Disconnected))
             else s;
    if t.link.state == Connecting && late then StopAll(t) else t
  }

  function GotTunErr(s: State): State {
    if !s.flags.tunError && !s.flags.error then StartConnecting(s.(flags := s.flags.(tunError := true, error := true)))
    else s
  }

  function ParseLogLine(s: State, l: LogLine): State {
    if l.command then s
    else
      var t := if l.bindFailed then StartConnecting(s.(book := s.book.(port := s.book.port + 1))) else s;
      if l.linkRemote then t
      else if l.completed then t.(link := SetState(t.link, Connected))
      else if l.tunDenied then GotTunErr(t)
      else t
  }

  function ParseLog(s: State, lines: seq<LogLine>): State {
    if lines == [] then s else ParseLogLine(ParseLog(s, lines[..|lines| - 1]), lines[|lines| - 1])
  }

  function Lower(c: char): char {
    if 'A' <= c <= 'Z' then (c as int + 32) as char else c
  }

  /** QString::compare(..., Qt::CaseInsensitive) == 0 for the words of the management interface. */
  predicate Is(word: string, name: string) {
    |word| == |name| && forall i :: 0 <= i < |word| ==> Lower(word[i]) == Lower(name[i])
  }

  predicate MeansConnecting(word: string) {
    Is(word, "CONNECTING") || Is(word, "TCP_CONNECT") || Is(word, "RECONNECTING") || Is(word, "AUTH") ||
    Is(word, "ASSIGN_IP")
  }

  /** EXITING starts a reconnect timer. */
  predicate Retries(f: Flags, word: string) {
    !Is(word, "CONNECTED") && !MeansConnecting(word) && Is(word, "EXITING") && f.reconnect
  }

  function ParseStateWord(s: State, word: string): State {
    var l := if Is(word, "CONNECTED") then
               if word != s.flags.previousWord then SetState(s.link, Connected) else s.link
             else if MeansConnecting(word) then SetState(s.link, Connecting)
             else if Is(word, "EXITING") then SetState(s.link, if s.flags.reconnect then Connecting else Disconnected)
             else if Is(word, "RESOLVE") && s.flags.netDown then Stop(s.link)
             else s.link;
    s.(link := l, flags := s.flags.(previousWord := word,
                                    retries := s.flags.retries + if Retries(s.flags, word) then 1 else 0))
  }

  function ParseSocketLine(s: State, line: SocketLine): State {
    match line
    case StateWord(word) => ParseStateWord(s, word)
    case AuthFailed =>
      s.(link := SetState(s.link.(socket := false), Disconnected), flags := s.flags.(error := true))
    case TunFatal => GotTunErr(s)
    case Fatal => StopAll(s.(flags := s.flags.(error := true)))
    case PlainError => s.(link := s.link.(socket := false))
    case Ignored => s
  }

  /** The loop of socketReadyRead: it does not look at the socket again between the lines. */
  function ParseSocket(s: State, lines: seq<SocketLine>): State {
    if lines == [] then s else ParseSocketLine(ParseSocket(s, lines[..|lines| - 1]), lines[|lines| - 1])
  }

  /** One reconnect timer less, unless it is started again. */
  function ReconnectTimedOut(s: State, running: bool): State
    requires s.flags.retries > 0
  {
    var t := s.(flags := s.flags.(attempts := s.flags.attempts + 1, retries := s.flags.retries - 1));
    if !running then StartConnecting(t)
    else if t.flags.attempts < MAX_RECONNECT then t.(flags := t.flags.(retries := t.flags.retries + 1))
    else StartConnecting(StopAll(t))
  }

  predicate Enabled(s: State, e: Event) {
    match e
    case Leave(i) => i < |s.link.clients|
    case TemplateFailed(r) => r in s.book.pending
    case TemplateFetched(r, _, _) => r in s.book.pending
    case CheckState(_, _) => s.link.timer
    case LogChanged(_) => s.link.watcher
    case SocketRead(_) => s.link.socket
    case SocketError => s.link.socket
    case ReconnectTimeout(_) => s.flags.retries > 0
    case _ => true
  }

  /** Commands of a client. */
  function CommandNext(s: State, e: Event): State
    requires e.CmdStart? || e.CmdStop? || e.CmdKill? || e.CmdNetDown?
  {
    match e
    case CmdStart(serverId, port, url, dns1, dns2) =>
      Start(if s.link.state == Connected then StopAll(s) else s, serverId, port, url, dns1, dns2)
    case CmdStop => StopAll(s)
    case CmdKill(running) => if running then StopAll(s.(link := s.link.(socket := true))) else s
    case CmdNetDown => s.(flags := s.flags.(netDown := true))
  }

  predicate IsCommand(e: Event) { e.CmdStart? || e.CmdStop? || e.CmdKill? || e.CmdNetDown? }

  function Next(s: State, e: Event): State
    requires Enabled(s, e)
  {
    if IsCommand(e) then CommandNext(s, e)
    else match e
         case Arrive => s.(link := Accept(s.link))
         case Leave(i) => s.(link := s.link.(clients := s.link.clients[..i] + s.link.clients[i + 1..]))
         case TemplateFailed(r) =>
           s.(link := Stop(Stop(s.link)), book := s.book.(pending := s.book.pending - multiset{r}))
         case TemplateFetched(r, bytes, env) => ContinueConnecting(s.(book := Received(s.book, r, bytes)), env)
         case CheckState(running, late) => Checked(s, running, late)
         case LogChanged(log) => if s.flags.error then s else ParseLog(s, log)
         case SocketRead(lines) => ParseSocket(s, lines)
         case SocketError => s.(link := s.link.(socket := false))
         case ReconnectTimeout(running) => ReconnectTimedOut(s, running)
  }

  /** The manager as it is created; reconnect is never set, so it may be anything. */
  predicate IsInit(s: State) {
    && s.link == INIT
    && s.book.cache == map[] && s.book.pending == multiset{} && s.book.fetched == []
    && !s.flags.testing && !s.flags.netDown && s.flags.retries == 0
  }

  predicate IsRun(ss: seq<State>, es: seq<Event>) {
    && |ss| == |es| + 1
    && IsInit(ss[0])
    && forall i :: 0 <= i < |es| ==> Enabled(ss[i], es[i]) && ss[i + 1] == Next(ss[i], es[i])
  }

  // ------------------------------------------------------------------ notifications

  lemma StartConnectingAgrees(s: State)
    requires Agreed(s.link)
    ensures Agreed(StartConnecting(s).link)
  {
    SetStateAgrees(s.link, Connecting);
  }

  lemma ContinueAgrees(s: State, env: Env)
    requires Agreed(s.link)
    ensures Agreed(ContinueConnecting(s, env).link)
  {
    SetStateAgrees(s.link, Disconnected);
    FlagsAgree(s.link, true, true, s.link.watcher || env.logExists);
    hide Agreed, SetState, WriteConfigFile, CanWrite;
  }

  lemma CheckedAgrees(s: State, running: bool, late: bool)
    requires Agreed(s.link)
    ensures Agreed(Checked(s, running, late).link)
  {
    hide Agreed, SetState, StartConnecting;
    StartConnectingAgrees(s);
    SetStateAgrees(s.link, Disconnected);
    FlagsAgree(s.link, s.link.timer, true, s.link.watcher);
    StopAgrees(Checked(s, running, false).link);
  }

  lemma TunErrAgrees(s: State)
    requires Agreed(s.link)
    ensures Agreed(GotTunErr(s).link)
  {
    StartConnectingAgrees(s.(flags := s.flags.(tunError := true, error := true)));
    hide Agreed, StartConnecting;
  }

  lemma LogLineAgrees(s: State, l: LogLine)
    requires Agreed(s.link)
    ensures Agreed(ParseLogLine(s, l).link)
  {
    hide Agreed, SetState, StartConnecting, GotTunErr;
    var u := s.(book := s.book.(port := s.book.port + 1));
    StartConnectingAgrees(u);
    var t := if l.bindFailed then StartConnecting(u) else s;
    SetStateAgrees(t.link, Connected);
    TunErrAgrees(t);
  }

  lemma {:induction false} LogAgrees(s: State, lines: seq<LogLine>)
    requires Agreed(s.link)
    ensures Agreed(ParseLog(s, lines).link)
  {
    hide Agreed, ParseLogLine;
    if lines != [] {
      LogAgrees(s, lines[..|lines| - 1]);
      LogLineAgrees(ParseLog(s, lines[..|lines| - 1]), lines[|lines| - 1]);
    }
  }

  lemma StateWordAgrees(s: State, word: string)
    requires Agreed(s.link)
    ensures Agreed(ParseStateWord(s, word).link)
  {
    hide Agreed, SetState, Is, MeansConnecting, Stop;
    SetStateAgrees(s.link, Connected);
    SetStateAgrees(s.link, Connecting);
    SetStateAgrees(s.link, Disconnected);
    StopAgrees(s.link);
  }

  lemma SocketLineAgrees(s: State, line: SocketLine)
    requires Agreed(s.link)
    ensures Agreed(ParseSocketLine(s, line).link)
  {
    hide Agreed, SetState, ParseStateWord, GotTunErr, Stop;
    FlagsAgree(s.link, s.link.timer, false, s.link.watcher);
    match line
    case StateWord(word) => StateWordAgrees(s, word);
    case AuthFailed => SetStateAgrees(s.link.(socket := false), Disconnected);
    case TunFatal => TunErrAgrees(s);
    case Fatal => StopAgrees(s.link);
    case _ =>
  }

  lemma {:induction false} SocketAgrees(s: State, lines: seq<SocketLine>)
    requires Agreed(s.link)
    ensures Agreed(ParseSocket(s, lines).link)
  {
    hide Agreed, ParseSocketLine;
    if lines != [] {
      SocketAgrees(s, lines[..|lines| - 1]);
      SocketLineAgrees(ParseSocket(s, lines[..|lines| - 1]), lines[|lines| - 1]);
    }
  }

  lemma StartAgrees(s: State, serverId: int, port: int, url: string, dns1: string, dns2: string)
    requires Agreed(s.link)
    ensures Agreed(Start(s, serverId, port, url, dns1, dns2).link)
  {
    hide Agreed, SetState, Stop, StartConnecting;
    StopAgrees(s.link);
    StartConnectingAgrees(State(Stop(s.link),
                                s.book.(serverId := serverId, port := port, startPort := port, url := url, dns1 := dns1,
                                  dns2 := dns2),
                                s.flags.(attempts := 0)));
  }

  lemma CommandAgrees(s: State, e: Event)
    requires Agreed(s.link) && IsCommand(e)
    ensures Agreed(CommandNext(s, e).link)
  {
    hide Agreed, SetState, Stop, Start;
    FlagsAgree(s.link, s.link.timer, true, s.link.watcher);
    StopAgrees(s.link);
    StopAgrees(s.link.(socket := true));
    if e.CmdStart? {
      StartAgrees(if s.link.state == Connected then StopAll(s) else s, e.serverId, e.port, e.url, e.dns1, e.dns2);
    }
  }

  lemma LeaveAgrees(l: Link, i: nat)
    requires Agreed(l) && i < |l.clients|
    ensures Agreed(l.(clients := l.clients[..i] + l.clients[i + 1..]))
  {
  }

  lemma TimeoutAgrees(s: State, running: bool)
    requires Agreed(s.link) && s.flags.retries > 0
    ensures Agreed(ReconnectTimedOut(s, running).link)
  {
    hide Agreed, StartConnecting, Stop;
    var t := s.(flags := s.flags.(attempts := s.flags.attempts + 1, retries := s.flags.retries - 1));
    StopAgrees(t.link);
    StartConnectingAgrees(t);
    StartConnectingAgrees(StopAll(t));
  }

  lemma NextAgrees(s: State, e: Event)
    requires Agreed(s.link) && Enabled(s, e)
    ensures Agreed(Next(s, e).link)
  {
    hide Agreed, CommandNext, ParseSocket, Accept, Stop, ContinueConnecting, Checked, ParseLog, ReconnectTimedOut,
         Received;
    if IsCommand(e) {
      CommandAgrees(s, e);
    } else {
      match e
      case Arrive => AcceptAgrees(s.link);
      case Leave(i) => LeaveAgrees(s.link, i);
      case TemplateFailed(r) => StopAgrees(s.link); StopAgrees(Stop(s.link));
      case TemplateFetched(r, bytes, env) => ContinueAgrees(s.(book := Received(s.book, r, bytes)), env);
      case CheckState(running, late) => CheckedAgrees(s, running, late);
      case LogChanged(log) => LogAgrees(s, log);
      case SocketRead(lines) => SocketAgrees(s, lines);
      case SocketError => FlagsAgree(s.link, s.link.timer, false, s.link.watcher);
      case ReconnectTimeout(running) => TimeoutAgrees(s, running);
    }
  }

  /** In every run: starting from Disconnected the notifications never repeat a state, the last one is
      the manager's state, and every client mirrors it as soon as it has been notified once. */
  lemma {:induction false} RunAgrees(ss: seq<State>, es: seq<Event>, i: nat)
    requires IsRun(ss, es) && i < |ss|
    ensures Agreed(ss[i].link)
  {
    hide Agreed, Next, Enabled;
    if i == 0 {
      InitAgrees();
    } else {
      RunAgrees(ss, es, i - 1);
      assert Enabled(ss[i - 1], es[i - 1]);
      NextAgrees(ss[i - 1], es[i - 1]);
    }
  }
}
