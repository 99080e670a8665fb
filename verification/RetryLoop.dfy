/** The loop over ports or nodes after timeouts (src/celovpn/vpnservicemanager.cpp). */
module RetryLoop {
  import opened Servers
  import opened Settings

  datatype Status = Disconnected | Connecting | Connected

  /** One request to connect: the server, the port index, and whether it could be sent. */
  datatype Try = Try(server: int, port: int, sent: bool)

  /** dialogs counts how often the user was asked; tries are the requests made by the loop. */
  datatype State = State(inPortLoop: bool, portDialogShown: bool, changingPorts: bool, status: Status,
                         port: int, server: int, tries: seq<Try>, dialogs: nat)

  datatype Event =
    | StartLoop(changePort: bool, sent: bool)   // the user answers the dialog
    | TimedOut(sent: bool)
    | StatusChange(status: Status)
    | Other                                     // state words, addresses, errors

  function TryNext(s: State, ids: seq<int>, sent: bool): State {
    var port := if s.changingPorts then NextPort(s.port, |PORTS|) else s.port;
    var server := if s.changingPorts then s.server else NextNode(ids, s.server);
    s.(port := port, server := server, tries := s.tries + [Try(server, port, sent)])
  }

  function Next(s: State, e: Event, ids: seq<int>): State {
    match e
    case StartLoop(changePort, sent) =>
      TryNext(s.(changingPorts := changePort, portDialogShown := false, inPortLoop := true), ids, sent)
    case TimedOut(sent) =>
      if s.inPortLoop then TryNext(s, ids, sent)
      else if s.portDialogShown then s
      else s.(portDialogShown := true, dialogs := s.dialogs + 1)
    case StatusChange(status) =>
      s.(status := status, inPortLoop := s.inPortLoop && status != Connected)
    case Other => s
  }

  function After(s: State, es: seq<Event>, ids: seq<int>): State {
    if es == [] then s else Next(After(s, es[..|es| - 1], ids), es[|es| - 1], ids)
  }

  function Timeouts(es: seq<Event>): nat {
    if es == [] then 0 else Timeouts(es[..|es| - 1]) + if es[|es| - 1].TimedOut? then 1 else 0
  }

  /** Whether the requests of a loop could be sent, from its start on. */
  function Sents(sent: bool, es: seq<Event>): (b: seq<bool>)
    ensures |b| == Timeouts(es) + 1
  {
    if es == [] then [sent]
    else
      var last := es[|es| - 1];
      Sents(sent, es[..|es| - 1]) + if last.TimedOut? then [last.sent] else []
  }

  /** No connection comes up, and the user does not start the loop again. */
  predicate StillTrying(es: seq<Event>) {
    forall i :: 0 <= i < |es| ==> !es[i].StartLoop? && es[i] != StatusChange(Connected)
  }

  predicate NotRestarted(es: seq<Event>) {
    forall i :: 0 <= i < |es| ==> !es[i].StartLoop?
  }

  // ------------------------------------------------------------------ what the loop tries

  lemma PortSteps(ix: int, n: nat, k: nat)
    ensures PortAfter(ix, n, k + 1) == NextPort(PortAfter(ix, n, k), n)
    ensures PortAfter(ix, n, 0) == ix
  {
  }

  /** One event of a running loop. */
  lemma LoopStep(s: State, e: Event, ids: seq<int>)
    requires s.inPortLoop && !e.StartLoop? && e != StatusChange(Connected)
    ensures var t := Next(s, e, ids);
            && t.inPortLoop && t.changingPorts == s.changingPorts
            && t.dialogs == s.dialogs && t.portDialogShown == s.portDialogShown
            && (if e.TimedOut? then
                  && t.port == (if s.changingPorts then NextPort(s.port, |PORTS|) else s.port)
                  && t.server == (if s.changingPorts then s.server else NextNode(ids, s.server))
                  && t.tries == s.tries + [Try(t.server, t.port, e.sent)]
                else t.port == s.port && t.server == s.server && t.tries == s.tries)
  {
    hide NextPort, NextNode;
  }

  lemma AfterStep(s: State, es: seq<Event>, ids: seq<int>)
    requires es != []
    ensures After(s, es, ids) == Next(After(s, es[..|es| - 1], ids), es[|es| - 1], ids)
  {
    hide Next;
  }

  lemma {:induction false} PortsFollow(s: State, sent: bool, es: seq<Event>, ids: seq<int>)
    requires StillTrying(es)
    ensures var t, k := After(Next(s, StartLoop(true, sent), ids), es, ids), Timeouts(es) + 1;
            && t.inPortLoop && t.changingPorts && t.server == s.server && t.port == PortAfter(s.port, |PORTS|, k)
            && |t.tries| == |s.tries| + k && t.tries[..|s.tries|] == s.tries
            && t.dialogs == s.dialogs && !t.portDialogShown
            && forall j :: 0 <= j < k ==>
                 t.tries[|s.tries| + j] == Try(s.server, PortAfter(s.port, |PORTS|, j + 1), Sents(sent, es)[j])
  {
    PortSteps(s.port, |PORTS|, 0);
    if es != [] {
      PortsFollow(s, sent, es[..|es| - 1], ids);
      var begun := Next(s, StartLoop(true, sent), ids);
      AfterStep(begun, es, ids);
      LoopStep(After(begun, es[..|es| - 1], ids), es[|es| - 1], ids);
      PortSteps(s.port, |PORTS|, Timeouts(es[..|es| - 1]) + 1);
    }
    hide NextPort, PortAfter, NextNode;
  }

  /** In port mode the k-th try since the start asks for port (ix + k) mod n, on the same server; nothing else is tried,
      and the user is not asked again. */
  lemma PortsTried(s: State, sent: bool, es: seq<Event>, ids: seq<int>)
    requires -1 <= s.port < |PORTS| && StillTrying(es)
    ensures var t, k := After(Next(s, StartLoop(true, sent), ids), es, ids), Timeouts(es) + 1;
            && t.inPortLoop && t.changingPorts && t.server == s.server && t.port == (s.port + k) % |PORTS|
            && |t.tries| == |s.tries| + k && t.tries[..|s.tries|] == s.tries
            && t.dialogs == s.dialogs && !t.portDialogShown
            && forall j :: 0 <= j < k ==>
                 t.tries[|s.tries| + j] == Try(s.server, (s.port + j + 1) % |PORTS|, Sents(sent, es)[j])
  {
    hide PortAfter, After, Next, Sents;
    PortsFollow(s, sent, es, ids);
    forall j: nat | 0 < j ensures PortAfter(s.port, |PORTS|, j) == (s.port + j) % |PORTS| {
      PortAfterIsModulo(s.port, |PORTS|, j);
    }
  }

  /** In node mode each try goes on to the next node. */
  lemma {:induction false} NodesFollow(s: State, sent: bool, es: seq<Event>, ids: seq<int>)
    requires StillTrying(es)
    ensures var t, k := After(Next(s, StartLoop(false, sent), ids), es, ids), Timeouts(es) + 1;
            && t.inPortLoop && !t.changingPorts && t.port == s.port && t.server == NodeAfter(ids, s.server, k)
            && |t.tries| == |s.tries| + k && t.tries[..|s.tries|] == s.tries
            && t.dialogs == s.dialogs && !t.portDialogShown
            && forall j :: 0 <= j < k ==>
                 t.tries[|s.tries| + j] == Try(NodeAfter(ids, s.server, j + 1), s.port, Sents(sent, es)[j])
  {
    NodeSteps(ids, s.server, 0);
    if es != [] {
      NodesFollow(s, sent, es[..|es| - 1], ids);
      var begun := Next(s, StartLoop(false, sent), ids);
      AfterStep(begun, es, ids);
      LoopStep(After(begun, es[..|es| - 1], ids), es[|es| - 1], ids);
      NodeSteps(ids, s.server, Timeouts(es[..|es| - 1]) + 1);
    }
    hide NextNode, NodeAfter;
  }

  /** If no id behind the current one has been listed before, it takes one later server after the other and then
      stays at the last one. */
  lemma NodesTried(s: State, sent: bool, es: seq<Event>, ids: seq<int>, w: nat)
    requires w < |ids| && s.server == ids[w] && PositionOf(ids, ids[w]) == w && FirstRepeat(ids, w) == |ids|
    requires StillTrying(es)
    ensures var t, k := After(Next(s, StartLoop(false, sent), ids), es, ids), Timeouts(es) + 1;
            && t.server == ids[if w + k < |ids| then w + k else |ids| - 1]
            && |t.tries| == |s.tries| + k && t.tries[..|s.tries|] == s.tries
            && forall j :: 0 <= j < k ==>
                 t.tries[|s.tries| + j] ==
                 Try(ids[if w + j + 1 < |ids| then w + j + 1 else |ids| - 1], s.port, Sents(sent, es)[j])
  {
    hide After, NodeAfter, Next, FirstRepeat, PositionOf, Sents;
    NodesFollow(s, sent, es, ids);
    forall j: nat ensures NodeAfter(ids, ids[w], j) == ids[if w + j < |ids| then w + j else |ids| - 1] {
      NodesInOrder(ids, w, j);
    }
  }

  /** A selected server that is not listed is tried again and again. */
  lemma UnlistedIsRetried(s: State, sent: bool, es: seq<Event>, ids: seq<int>)
    requires s.server !in ids && StillTrying(es)
    ensures After(Next(s, StartLoop(false, sent), ids), es, ids).server == s.server
  {
    hide After, NodeAfter, Next, StillTrying;
    NodesFollow(s, sent, es, ids);
    UnlistedStays(ids, s.server, Timeouts(es) + 1);
  }

  lemma {:induction false} OnlyTimeouts(n: nat) returns (es: seq<Event>)
    ensures StillTrying(es) && Timeouts(es) == n
  {
    if n == 0 {
      es := [];
    } else {
      var before := OnlyTimeouts(n - 1);
      es := before + [TimedOut(true)];
      assert es[..|es| - 1] == before;
    }
  }

  /** Some run of the loop in which no connection comes up makes its last try at x. */
  ghost predicate GetsTo(s: State, sent: bool, ids: seq<int>, x: int) {
    exists es :: StillTrying(es) && After(Next(s, StartLoop(false, sent), ids), es, ids).server == x
  }

  lemma GetsToIffVisited(s: State, sent: bool, ids: seq<int>, x: int)
    ensures GetsTo(s, sent, ids, x) <==> Visited(ids, s.server, x)
  {
    hide After, NodeAfter, Next, StillTrying;
    if GetsTo(s, sent, ids, x) {
      var es :| StillTrying(es) && After(Next(s, StartLoop(false, sent), ids), es, ids).server == x;
      NodesFollow(s, sent, es, ids);
    }
    if Visited(ids, s.server, x) {
      var k: nat :| k > 0 && NodeAfter(ids, s.server, k) == x;
      var es := OnlyTimeouts(k - 1);
      NodesFollow(s, sent, es, ids);
    }
  }

  /** However many timeouts come, a later server is tried at some time if and only if it is listed before the first
      id behind the current one that repeats an earlier one. */
  lemma NodeTriedIff(s: State, sent: bool, ids: seq<int>, x: int)
    requires 0 <= PositionOf(ids, s.server) < PositionOf(ids, x)
    ensures GetsTo(s, sent, ids, x) <==> PositionOf(ids, x) < FirstRepeat(ids, PositionOf(ids, s.server))
  {
    GetsToIffVisited(s, sent, ids, x);
    VisitedIff(ids, s.server, x);
    hide *;
  }

  /** After a second login the loop that starts at a server of the first one tries exactly the servers of the
      first one, whatever the second has added. */
  lemma OldServersOnly(s: State, sent: bool, n: nat, later: seq<nat>, x: int)
    requires 0 <= s.server < n && AnyServers(later)
    ensures GetsTo(s, sent, IdsAfter([n] + later), x) <==> 0 <= x < n
  {
    GetsToIffVisited(s, sent, IdsAfter([n] + later), x);
    OnlyFirstLoginTried(n, later, s.server, x);
    hide *;
  }

  /** After a connection the loop is over: until the user starts it again nothing is tried, and the user is asked
      at most once, at the first timeout. */
  lemma {:induction false} ConnectedEndsLoop(s: State, es: seq<Event>, ids: seq<int>)
    requires NotRestarted(es)
    ensures var t := After(Next(s, StatusChange(Connected), ids), es, ids);
            && !t.inPortLoop && t.tries == s.tries && t.port == s.port && t.server == s.server
            && (t.portDialogShown <==> s.portDialogShown || Timeouts(es) > 0)
            && t.dialogs == s.dialogs + if t.portDialogShown && !s.portDialogShown then 1 else 0
  {
    if es != [] {
      ConnectedEndsLoop(s, es[..|es| - 1], ids);
    }
    hide TryNext;
  }

  // ------------------------------------------------------------------ the manager object

  class VPNServiceManager {
    const setting: Setting
    const auth: AuthManager
    var mInPortLoop: bool
    var mPortDialogShown: bool
    var mChangingPorts: bool
    var mState: Status
    var tries: seq<Try>
    var dialogs: nat

    /** The ports are known whenever the loop runs. */
    ghost predicate Valid()
      reads this, setting, auth
    {
      setting.Ready() && auth.Valid() && (mInPortLoop ==> setting.mPorts == PORTS)
    }

    constructor (setting: Setting, auth: AuthManager)
      requires setting.Ready() && auth.Valid()
      ensures Valid() && this.setting == setting && this.auth == auth
      ensures !mInPortLoop && !mPortDialogShown && tries == [] && dialogs == 0
    {
      this.setting := setting;
      this.auth := auth;
      mInPortLoop, mPortDialogShown, tries, dialogs := false, false, [], 0;
    }

    function View(): State
      reads this, setting
    {
      State(mInPortLoop, mPortDialogShown, mChangingPorts, mState,
            setting.CurrentProtocol(), setting.ServerID(), tries, dialogs)
    }

    /** The servers of all logins so far. */
    ghost function Nodes(): seq<int>
      reads auth
    {
      IdsAfter(auth.logins)
    }

    /** sent is whether the service is connected, tcp whether the current protocol is a TCP one. */
    method TryNextPort(tcp: bool, sent: bool)
      requires Valid() && setting.mPorts == PORTS
      modifies this, setting
      ensures Valid() && setting.mPorts == PORTS && mInPortLoop == old(mInPortLoop)
      ensures View() == TryNext(old(View()), Nodes(), sent)
    {
      hide NextNode, NextPort, IdsAfter;
      if mChangingPorts {
        setting.SwitchToNextPort();
      } else {
        setting.SwitchToNextNode(auth, tcp);
      }
      tries := tries + [Try(setting.ServerID(), setting.CurrentProtocol(), sent)];
    }

    method StartPortLoop(changePort: bool, tcp: bool, sent: bool)
      requires Valid() && setting.mPorts == PORTS
      modifies this, setting
      ensures Valid() && setting.mPorts == PORTS
      ensures View() == Next(old(View()), StartLoop(changePort, sent), Nodes())
    {
      hide TryNext, IdsAfter;
      mChangingPorts := changePort;
      mPortDialogShown := false;
      mInPortLoop := true;
      TryNextPort(tcp, sent);
    }

    /** notifyTimeout */
    method OnTimeout(tcp: bool, sent: bool)
      requires Valid()
      modifies this, setting
      ensures Valid() && (old(setting.mPorts) == PORTS ==> setting.mPorts == PORTS)
      ensures View() == Next(old(View()), TimedOut(sent), Nodes())
    {
      hide TryNext, IdsAfter;
      if mInPortLoop {
        TryNextPort(tcp, sent);
      } else if mPortDialogShown {
      } else {
        mPortDialogShown := true;
        dialogs := dialogs + 1;
      }
    }

    /** notifyStatusChange */
    method OnStatusChange(state: Status)
      requires Valid()
      modifies this
      ensures Valid() && View() == Next(old(View()), StatusChange(state), Nodes())
    {
      hide IdsAfter;
      mState := state;
      if mState == Connected {
        mInPortLoop := false;
      }
    }
  }

  /** The window whose answer starts the loop (src/celovpn/connectiondialog.cpp). */
  class ConnectionDialog {
    const manager: VPNServiceManager

    /** Nothing empties the port table again. */
    ghost predicate Valid()
      reads this, manager, manager.setting, manager.auth
    {
      manager.Valid() && manager.setting.mPorts == PORTS
    }

    /** Loading the protocol fills the port table before any loop can start. */
    constructor (manager: VPNServiceManager, rand: nat)
      requires manager.Valid()
      modifies manager.setting
      ensures Valid() && this.manager == manager && manager.View() == old(manager.View())
    {
      this.manager := manager;
      new;
      manager.setting.LoadProtocol(rand);
    }

    /** cycle is whether the user chose to go through the ports rather than the nodes. */
    method PortDialogResult(accepted: bool, cycle: bool, tcp: bool, sent: bool)
      requires Valid()
      modifies manager, manager.setting
      ensures Valid()
      ensures manager.View()
           == if accepted then Next(old(manager.View()), StartLoop(cycle, sent), manager.Nodes())
              else old(manager.View())
    {
      hide Next;
      if accepted {
        manager.StartPortLoop(cycle, tcp, sent);
      }
    }
  }
}
