/** Which start a config file belongs to, and whose URL its template came from. */
module VpnUrls {
  import opened VpnNotify
  import opened VpnTemplates
  import opened VpnManager
  import opened VpnTheorems
  import opened VpnRuns

  // ------------------------------------------------------------------ starts and failed binds

  function FailedBinds(lines: seq<LogLine>): nat {
    if lines == [] then 0
    else
      var last := lines[|lines| - 1];
      FailedBinds(lines[..|lines| - 1]) + if !last.command && last.bindFailed then 1 else 0
  }

  /** The failed binds an event makes the manager act on; while an error is marked the log is not read. */
  function ActedOn(s: State, e: Event): nat {
    if e.LogChanged? && !s.flags.error then FailedBinds(e.log) else 0
  }

  /** The last start among the first i events, or -1. */
  function LastStart(es: seq<Event>, i: nat): (j: int)
    requires i <= |es|
    ensures -1 <= j < i && (j >= 0 ==> es[j].CmdStart?)
    ensures forall k :: j < k < i ==> !es[k].CmdStart?
  {
    if i == 0 then -1 else if es[i - 1].CmdStart? then i - 1 else LastStart(es, i - 1)
  }

  /** The failed binds acted on in the first i events since the last start among them. */
  function BindsSince(ss: seq<State>, es: seq<Event>, i: nat): nat
    requires i <= |es| <= |ss|
  {
    if i == 0 || es[i - 1].CmdStart? then 0 else BindsSince(ss, es, i - 1) + ActedOn(ss[i - 1], es[i - 1])
  }

  // ------------------------------------------------------------------ what an event does to the requests

  /** A request for the start the manager is working on. */
  predicate SameStart(r: Request, b: Book) {
    r.serverId == b.serverId && r.startPort == b.startPort && r.url == b.url
  }

  /** From b to c no start has come and binds of them have failed; what has been asked for in between belongs to the
      last start, with one of the ports on the way. */
  predicate Carries(b: Book, c: Book, binds: nat) {
    && c.serverId == b.serverId && c.startPort == b.startPort && c.url == b.url && c.fetched == b.fetched
    && c.port == b.port + binds
    && forall r :: r in c.pending ==> r in b.pending || (SameStart(r, b) && b.port <= r.port <= c.port)
  }

  lemma CarriesOn(b: Book, c: Book, d: Book, x: nat, y: nat)
    requires Carries(b, c, x) && Carries(c, d, y)
    ensures Carries(b, d, x + y)
  {
  }

  lemma Unmoved(b: Book)
    ensures Carries(b, b, 0)
  {
  }

  lemma LogLineCarries(s: State, line: LogLine)
    ensures Carries(s.book, ParseLogLine(s, line).book, FailedBinds([line]))
  {
    hide SetState;
    assert [line][..0] == [];
  }

  lemma {:induction false} LogCarries(s: State, lines: seq<LogLine>)
    ensures Carries(s.book, ParseLog(s, lines).book, FailedBinds(lines))
  {
    hide ParseLog, ParseLogLine, Carries;
    UnfoldParseLog(s, lines);
    if lines == [] {
      Unmoved(s.book);
    } else {
      var before, last := lines[..|lines| - 1], lines[|lines| - 1];
      assert [last][..0] == [];
      LogCarries(s, before);
      LogLineCarries(ParseLog(s, before), last);
      CarriesOn(s.book, ParseLog(s, before).book, ParseLog(s, lines).book, FailedBinds(before), FailedBinds([last]));
    }
  }

  lemma SocketLineCarries(s: State, line: SocketLine)
    ensures Carries(s.book, ParseSocketLine(s, line).book, 0)
  {
    hide SetState, Is, MeansConnecting;
  }

  lemma {:induction false} SocketCarries(s: State, lines: seq<SocketLine>)
    ensures Carries(s.book, ParseSocket(s, lines).book, 0)
  {
    hide ParseSocket, ParseSocketLine, Carries;
    UnfoldParseSocket(s, lines);
    if lines == [] {
      Unmoved(s.book);
    } else {
      var before := lines[..|lines| - 1];
      SocketCarries(s, before);
      SocketLineCarries(ParseSocket(s, before), lines[|lines| - 1]);
      CarriesOn(s.book, ParseSocket(s, before).book, ParseSocket(s, lines).book, 0, 0);
    }
  }

  lemma CheckedCarries(s: State, running: bool, late: bool)
    ensures Carries(s.book, Checked(s, running, late).book, 0)
  {
    hide SetState, Stop;
  }

  lemma TimeoutCarries(s: State, running: bool)
    requires s.flags.retries > 0
    ensures Carries(s.book, ReconnectTimedOut(s, running).book, 0)
  {
    hide SetState, Stop;
  }

  lemma CommandCarries(s: State, e: Event)
    requires IsCommand(e) && !e.CmdStart?
    ensures Carries(s.book, CommandNext(s, e).book, 0)
  {
    hide SetState, Stop;
  }

  lemma NextCarries(s: State, e: Event)
    requires Enabled(s, e) && !e.CmdStart? && !e.TemplateFetched?
    ensures Carries(s.book, Next(s, e).book, ActedOn(s, e))
  {
    hide SetState, Stop, ParseLog, ParseSocket, Checked, ReconnectTimedOut, CommandNext, ContinueConnecting,
         FailedBinds;
    Unmoved(s.book);
    if e.LogChanged? {
      LogCarries(s, e.log);
    } else if e.SocketRead? {
      SocketCarries(s, e.lines);
    } else if e.CheckState? {
      CheckedCarries(s, e.running, e.late);
    } else if e.ReconnectTimeout? {
      TimeoutCarries(s, e.running);
    } else if IsCommand(e) {
      CommandCarries(s, e);
    }
  }

  /** What a start leaves: its own parameters, and one more request, for them. */
  predicate Begins(b: Book, c: Book, e: Event)
    requires e.CmdStart?
  {
    && c.serverId == e.serverId && c.startPort == c.port == e.port && c.url == e.url && c.fetched == b.fetched
    && forall r :: r in c.pending ==> r in b.pending || (SameStart(r, c) && r.port == e.port)
  }

  lemma StartBegins(s: State, e: Event)
    requires e.CmdStart?
    ensures Begins(s.book, Next(s, e).book, e)
  {
    hide SetState, Stop;
  }

  /** What the arrival of a template leaves. */
  predicate Arrives(b: Book, c: Book, r: Request, bytes: string) {
    && r in b.pending && c.serverId == b.serverId && c.startPort == b.startPort && c.port == b.port && c.url == b.url
    && c.fetched == b.fetched + [Fetch(r, bytes)] && c.pending == b.pending - multiset{r}
  }

  lemma FetchedArrives(s: State, e: Event)
    requires Enabled(s, e) && e.TemplateFetched?
    ensures Arrives(s.book, Next(s, e).book, e.r, e.bytes)
  {
    ContinueSame(s.(book := Received(s.book, e.r, e.bytes)), e.env);
    hide ContinueConnecting, ConfigText, CurrentKey;
  }

  /** Before the first start nothing is up, and nothing has been asked for. */
  predicate Untouched(s: State) {
    && s.link.state == Disconnected && !s.link.timer && !s.link.socket && !s.link.watcher && s.flags.retries == 0
    && s.book.pending == multiset{} && s.book.fetched == []
  }

  lemma StaysUntouched(s: State, e: Event)
    requires Untouched(s) && Enabled(s, e) && !e.CmdStart?
    ensures Untouched(Next(s, e)) && ActedOn(s, e) == 0
  {
    hide Checked, ParseLog, ParseSocket, ContinueConnecting, Received, ReconnectTimedOut, Notified;
  }

  // ------------------------------------------------------------------ every run

  /** The request was made after event t for the start at j, when as many binds had failed since that start as its
      port has moved. */
  predicate IssuedAt(ss: seq<State>, es: seq<Event>, r: Request, j: nat, t: nat)
    requires |es| <= |ss|
  {
    && j <= t < |es| && LastStart(es, t + 1) == j
    && r.serverId == es[j].serverId && r.startPort == es[j].port && r.url == es[j].url
    && BindsBy(ss, es, j, t) <= r.port - r.startPort <= BindsSince(ss, es, t + 1)
  }

  function BindsBy(ss: seq<State>, es: seq<Event>, j: nat, t: nat): nat
    requires t <= |es| <= |ss|
  {
    if t == j then 0 else BindsSince(ss, es, t)
  }

  ghost predicate Issued(ss: seq<State>, es: seq<Event>, r: Request, i: nat)
    requires |es| <= |ss|
  {
    exists j: nat, t: nat :: t < i && IssuedAt(ss, es, r, j, t)
  }

  ghost predicate AllIssued(ss: seq<State>, es: seq<Event>, b: Book, i: nat)
    requires |es| <= |ss|
  {
    && (forall r :: r in b.pending ==> Issued(ss, es, r, i))
    && (forall k :: 0 <= k < |b.fetched| ==> Issued(ss, es, b.fetched[k].request, i))
  }

  /** The manager works on the last start; its port has moved by one for every failed bind since. */
  predicate OfStart(ss: seq<State>, es: seq<Event>, i: nat)
    requires |ss| == |es| + 1 && i <= |es|
  {
    var j, b := LastStart(es, i), ss[i].book;
    if j < 0 then Untouched(ss[i])
    else b.serverId == es[j].serverId && b.startPort == es[j].port && b.url == es[j].url &&
         b.port == es[j].port + BindsSince(ss, es, i)
  }

  lemma IssuedLater(ss: seq<State>, es: seq<Event>, r: Request, i: nat)
    requires |es| <= |ss| && Issued(ss, es, r, i)
    ensures Issued(ss, es, r, i + 1)
  {
    hide IssuedAt;
  }

  lemma StepOfStart(ss: seq<State>, es: seq<Event>, i: nat)
    requires |ss| == |es| + 1 && i < |es| && OfStart(ss, es, i)
    requires Enabled(ss[i], es[i]) && ss[i + 1] == Next(ss[i], es[i])
    ensures OfStart(ss, es, i + 1)
  {
    hide Next, Enabled, Untouched, ActedOn;
    var s, e := ss[i], es[i];
    if e.CmdStart? {
      StartBegins(s, e);
    } else if LastStart(es, i) < 0 {
      StaysUntouched(s, e);
    } else if e.TemplateFetched? {
      FetchedArrives(s, e);
      NoneActedOn(s, e);
    } else {
      NextCarries(s, e);
    }
  }

  lemma NoneActedOn(s: State, e: Event)
    requires e.TemplateFetched?
    ensures ActedOn(s, e) == 0
  {
  }

  lemma StepIssued(ss: seq<State>, es: seq<Event>, i: nat, r: Request)
    requires |ss| == |es| + 1 && i < |es| && OfStart(ss, es, i) && AllIssued(ss, es, ss[i].book, i)
    requires Enabled(ss[i], es[i]) && ss[i + 1] == Next(ss[i], es[i])
    requires r in ss[i + 1].book.pending
    ensures Issued(ss, es, r, i + 1)
  {
    hide Next, Enabled, Untouched, ActedOn, Issued, IssuedAt;
    var s, e := ss[i], es[i];
    if r in s.book.pending {
      IssuedLater(ss, es, r, i);
    } else if e.CmdStart? {
      StartBegins(s, e);
      NewRequest(ss, es, i, r, i);
    } else if e.TemplateFetched? {
      FetchedArrives(s, e);
    } else {
      NextCarries(s, e);
      if LastStart(es, i) < 0 {
        StaysUntouched(s, e);
        NothingPending(ss[i + 1], r);
      } else {
        NewRequest(ss, es, i, r, LastStart(es, i));
      }
    }
  }

  lemma NothingPending(s: State, r: Request)
    requires Untouched(s)
    ensures r !in s.book.pending
  {
  }

  lemma NewRequest(ss: seq<State>, es: seq<Event>, i: nat, r: Request, j: nat)
    requires |ss| == |es| + 1 && i < |es| && LastStart(es, i + 1) == j
    requires r.serverId == es[j].serverId && r.startPort == es[j].port && r.url == es[j].url
    requires BindsBy(ss, es, j, i) <= r.port - r.startPort <= BindsSince(ss, es, i + 1)
    ensures Issued(ss, es, r, i + 1)
  {
    assert IssuedAt(ss, es, r, j, i);
    hide BindsSince, LastStart;
  }

  lemma {:induction false} RunIssued(ss: seq<State>, es: seq<Event>, i: nat)
    requires IsRun(ss, es) && i < |ss|
    ensures OfStart(ss, es, i) && AllIssued(ss, es, ss[i].book, i)
  {
    hide Next, Enabled, Issued;
    if i > 0 {
      RunIssued(ss, es, i - 1);
      var s, e, c := ss[i - 1], es[i - 1], ss[i].book;
      assert Enabled(s, e) && ss[i] == Next(s, e);
      StepOfStart(ss, es, i - 1);
      forall r | r in c.pending ensures Issued(ss, es, r, i) {
        StepIssued(ss, es, i - 1, r);
      }
      FetchedStays(s, e);
      forall k | 0 <= k < |c.fetched| ensures Issued(ss, es, c.fetched[k].request, i) {
        IssuedLater(ss, es, c.fetched[k].request, i - 1);
      }
      hide OfStart;
    }
  }

  /** A template that has arrived was fetched before, or has been pending. */
  lemma FetchedStays(s: State, e: Event)
    requires Enabled(s, e)
    ensures var b, c := s.book, Next(s, e).book;
            forall k :: 0 <= k < |c.fetched| ==>
              (k < |b.fetched| && c.fetched[k] == b.fetched[k]) || c.fetched[k].request in b.pending
  {
    hide Next, Enabled;
    if e.CmdStart? {
      StartBegins(s, e);
    } else if e.TemplateFetched? {
      FetchedArrives(s, e);
    } else {
      NextCarries(s, e);
    }
  }

  // ------------------------------------------------------------------ whose URL

  /** A config file that is written is made of a template asked for after a start j of the same server, and the port of
      that start, moved by the binds that had failed by then, has the class of the last start's port, moved by all
      that have failed since. */
  lemma ConfigStart(ss: seq<State>, es: seq<Event>, i: nat) returns (k: nat, j: nat, t: nat)
    requires IsRun(ss, es) && i < |es| && Writes(ss[i], es[i])
    ensures MadeOfOwn(ss[i + 1].book, k) && 0 <= LastStart(es, i + 1) && t <= i
    ensures var b, q := ss[i + 1].book, LastStart(es, i + 1);
            var r := b.fetched[k].request;
            && IssuedAt(ss, es, r, j, t) && es[j].serverId == es[q].serverId == b.serverId && b.url == es[q].url
            && b.startPort == es[q].port && b.port == es[q].port + BindsSince(ss, es, i + 1)
            && PortClass(r.port) == PortClass(b.port)
  {
    hide Next, Enabled, Writes, IssuedAt, LastStart, BindsSince, Untouched;
    k := ConfigIsOwn(ss, es, i);
    RunIssued(ss, es, i + 1);
    var r := ss[i + 1].book.fetched[k].request;
    assert Issued(ss, es, r, i + 1);
    j, t :| t < i + 1 && IssuedAt(ss, es, r, j, t);
    if LastStart(es, i + 1) < 0 {
      NothingFetched(ss[i + 1], k);
    }
    IssuedFacts(ss, es, r, j, t);
  }

  lemma NothingFetched(s: State, k: nat)
    requires Untouched(s)
    ensures |s.book.fetched| == 0
  {
  }

  lemma IssuedFacts(ss: seq<State>, es: seq<Event>, r: Request, j: nat, t: nat)
    requires |es| <= |ss| && IssuedAt(ss, es, r, j, t)
    ensures j <= t < |es| && es[j].CmdStart?
    ensures r.serverId == es[j].serverId && r.startPort == es[j].port && r.url == es[j].url
    ensures BindsBy(ss, es, j, t) <= r.port - r.startPort <= BindsSince(ss, es, t + 1)
  {
  }

  /** No event before i has made the manager act on a failed bind. */
  predicate NoBindFails(ss: seq<State>, es: seq<Event>, i: nat)
    requires i <= |es| <= |ss|
  {
    forall t :: 0 <= t < i ==> ActedOn(ss[t], es[t]) == 0
  }

  lemma {:induction false} NoneSince(ss: seq<State>, es: seq<Event>, i: nat, t: nat)
    requires t <= i <= |es| <= |ss| && NoBindFails(ss, es, i)
    ensures BindsSince(ss, es, t) == 0
  {
    hide ActedOn;
    if t > 0 {
      NoneSince(ss, es, i, t - 1);
    }
  }

  /** Clients take the URL of a start from a table by server and port. */
  predicate FromTable(es: seq<Event>, u: (int, int) -> string) {
    forall i :: 0 <= i < |es| && es[i].CmdStart? ==> es[i].url == u(es[i].serverId, es[i].port)
  }

  /** The client has starts on these ports only. */
  predicate ClientPorts(es: seq<Event>) {
    forall i :: 0 <= i < |es| && es[i].CmdStart? ==> es[i].port == 1194 || es[i].port == 53 || es[i].port == 443
  }

  ghost predicate DistinctUrls(u: (int, int) -> string) {
    forall id, p, q :: u(id, p) == u(id, q) ==> p == q
  }

  /** As long as no failed bind has been acted on, a config file is made of a template of a start of the same server
      on the same port, or both ports are neither 1194 nor 53; for a client's ports it comes from the URL of the last
      start. */
  lemma UnmovedUrlIsOwn(ss: seq<State>, es: seq<Event>, i: nat, u: (int, int) -> string)
    returns (k: nat, j: nat, t: nat)
    requires IsRun(ss, es) && i < |es| && Writes(ss[i], es[i]) && NoBindFails(ss, es, i + 1)
    ensures MadeOfOwn(ss[i + 1].book, k) && 0 <= LastStart(es, i + 1) && t <= i
    ensures var q, r := LastStart(es, i + 1), ss[i + 1].book.fetched[k].request;
            && IssuedAt(ss, es, r, j, t) && es[j].serverId == es[q].serverId
            && (es[j].port == es[q].port || PortClass(es[j].port) == PortClass(es[q].port) == PORT_OTHER)
            && (FromTable(es, u) && ClientPorts(es) ==> r.url == es[q].url)
  {
    hide Next, Enabled, Writes, IssuedAt, LastStart, BindsSince, NoBindFails, SameClass, HasText;
    k, j, t := ConfigStart(ss, es, i);
    var r := ss[i + 1].book.fetched[k].request;
    IssuedFacts(ss, es, r, j, t);
    NoneSince(ss, es, i + 1, t + 1);
    NoneSince(ss, es, i + 1, i + 1);
  }

  /** With a table that gives different ports different URLs, the URL of a config file is another than that of the
      last start if and only if its template was asked for after a start on another port. The two ports, as the failed
      binds have moved them, are then in one class; for a client's ports that is the class of neither 1194 nor 53,
      unless more than 750 binds have failed. */
  lemma UrlIsForeignIff(ss: seq<State>, es: seq<Event>, i: nat, u: (int, int) -> string)
    returns (k: nat, j: nat, t: nat)
    requires IsRun(ss, es) && i < |es| && Writes(ss[i], es[i]) && FromTable(es, u) && DistinctUrls(u)
    ensures MadeOfOwn(ss[i + 1].book, k) && 0 <= LastStart(es, i + 1) && t <= i
    ensures var b, q := ss[i + 1].book, LastStart(es, i + 1);
            var r := b.fetched[k].request;
            && IssuedAt(ss, es, r, j, t) && b.port == es[q].port + BindsSince(ss, es, i + 1)
            && (r.url != es[q].url <==> es[j].port != es[q].port)
            && PortClass(r.port) == PortClass(b.port)
            && (ClientPorts(es) && r.port - es[j].port <= 750 && b.port - es[q].port <= 750 ==>
                  (r.url != es[q].url <==>
                   es[j].port != es[q].port && PortClass(r.port) == PortClass(b.port) == PORT_OTHER))
  {
    hide Next, Enabled, Writes, IssuedAt, LastStart, BindsSince, SameClass, HasText;
    k, j, t := ConfigStart(ss, es, i);
    IssuedFacts(ss, es, ss[i + 1].book.fetched[k].request, j, t);
  }

  /** Seen at the arrival of a reply, when the config file can be opened: the file is made of this reply, and its URL is
      another than that of the last start, if and only if the request was made for the same server, the two ports are in
      one class, and the two starts were on different ports. */
  lemma ForeignArrivalIff(ss: seq<State>, es: seq<Event>, i: nat, u: (int, int) -> string)
    requires IsRun(ss, es) && i < |es| && es[i].TemplateFetched? && es[i].env.canOpen
    requires FromTable(es, u) && DistinctUrls(u)
    ensures var b, c, r := ss[i].book, ss[i + 1].book, es[i].r;
            MadeOfOwn(c, |b.fetched|) && r.url != c.url <==>
            r.serverId == b.serverId && PortClass(r.port) == PortClass(b.port) && r.startPort != b.startPort
  {
    hide Next, Enabled, Writes, IssuedAt, LastStart, BindsSince, Untouched, MadeOfOwn;
    assert Enabled(ss[i], es[i]) && ss[i + 1] == Next(ss[i], es[i]);
    var b, c, r := ss[i].book, ss[i + 1].book, es[i].r;
    FetchedArrives(ss[i], es[i]);
    RunIssued(ss, es, i);
    assert Issued(ss, es, r, i);
    var j: nat, t: nat :| t < i && IssuedAt(ss, es, r, j, t);
    IssuedFacts(ss, es, r, j, t);
    if LastStart(es, i) < 0 {
      NothingPending(ss[i], r);
    }
    RunOk(ss, es, i);
    assert KeyOk(r);
    ReplyIsUsed(ss[i], es[i]);
  }

  /** A reply is used at once exactly if its server and port class are wanted. */
  lemma ReplyIsUsed(s: State, e: Event)
    requires Enabled(s, e) && e.TemplateFetched? && e.env.canOpen
    ensures MadeOfOwn(Next(s, e).book, |s.book.fetched|) ==> SameClass(e.r, s.book)
    ensures KeyOk(e.r) && SameClass(e.r, s.book) ==> MadeOfOwn(Next(s, e).book, |s.book.fetched|)
  {
    var t := s.(book := Received(s.book, e.r, e.bytes));
    hide Next, Enabled, WriteConfigFile, ConfigText, HasText, PortClass, ServerKey;
    FetchedIs(s, e);
    KeyIsInjective(e.r.serverId, e.r.port, s.book.serverId, s.book.port);
    if KeyOk(e.r) && SameClass(e.r, s.book) {
      WrittenFromReply(t.book, e.r, e.bytes);
    }
  }

  lemma FetchedIs(s: State, e: Event)
    requires Enabled(s, e) && e.TemplateFetched?
    ensures var b := Next(s, e).book;
            && b == WriteConfigFile(Received(s.book, e.r, e.bytes), e.env.canOpen)
            && b.fetched == s.book.fetched + [Fetch(e.r, e.bytes)]
            && b.serverId == s.book.serverId && b.port == s.book.port
  {
    ContinueSame(s.(book := Received(s.book, e.r, e.bytes)), e.env);
    hide ContinueConnecting, ConfigText;
  }

  lemma WrittenFromReply(b: Book, r: Request, bytes: string)
    requires r.key == CurrentKey(b) && r.key in b.cache && b.cache[r.key] == bytes
    ensures HasText(WriteConfigFile(b, true).config, bytes, b.dns1, b.dns2)
    ensures WriteConfigFile(b, true).dns1 == b.dns1 && WriteConfigFile(b, true).dns2 == b.dns2
  {
    ConfigHasText(WriteConfigFile(b, true).config, bytes, b.dns1, b.dns2);
    hide ConfigText, HasText;
  }
}
