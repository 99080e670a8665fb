/** The connection state of the service and the clients that mirror it
    (src/service/openvpnmanager.cpp, src/service/qvpnclientconnection.cpp). */
module VpnNotify {

  datatype VpnState = Disconnected | Connecting | Connected

  /** A connected client; since is history: how many notifications had been sent when it came. */
  datatype Client = Client(mState: VpnState, since: nat)

  /** What is up, and the notifications sent so far. */
  datatype Link = Link(state: VpnState, timer: bool, socket: bool, watcher: bool, clients: seq<Client>,
                       emitted: seq<VpnState>)

  const INIT := Link(Disconnected, false, false, false, [], [])

  // ------------------------------------------------------------------ operations

  /** emit stateChanged(st): every client's slot runs. */
  function Notified(clients: seq<Client>, st: VpnState): (r: seq<Client>)
    ensures |r| == |clients|
    ensures forall i :: 0 <= i < |r| ==> r[i] == clients[i].(mState := st)
  {
    seq(|clients|, i requires 0 <= i < |clients| => clients[i].(mState := st))
  }

  function SetState(l: Link, st: VpnState): Link {
    if st == l.state then l
    else l.(state := st, timer := if st == Disconnected then false else l.timer,
            clients := Notified(l.clients, st), emitted := l.emitted + [st])
  }

  function Stop(l: Link): Link {
    SetState(l.(socket := false, watcher := false), Disconnected)
  }

  /** QVPNClientConnection's constructor: m_state starts as Disconnected, whatever the manager's state is. */
  function Accept(l: Link): Link {
    l.(clients := l.clients + [Client(Disconnected, |l.emitted|)])
  }

  // ------------------------------------------------------------------ what they keep

  /** No two neighbours are equal. */
  predicate Alternates(s: seq<VpnState>) {
    forall i :: 0 <= i < |s| - 1 ==> s[i] != s[i + 1]
  }

  /** The notifications as a client sees them that was there from the beginning. */
  function History(l: Link): seq<VpnState> {
    [Disconnected] + l.emitted
  }

  /** A client knows the manager's state, unless it has not been notified yet: then it believes in
      the state it started with. */
  predicate Mirrors(c: Client, l: Link) {
    c.since <= |l.emitted| && c.mState == if c.since < |l.emitted| then l.state else Disconnected
  }

  predicate Agreed(l: Link) {
    && Alternates(History(l))
    && History(l)[|l.emitted|] == l.state
    && forall i :: 0 <= i < |l.clients| ==> Mirrors(l.clients[i], l)
  }

  lemma InitAgrees()
    ensures Agreed(INIT)
  {
  }

  lemma SetStateAgrees(l: Link, st: VpnState)
    requires Agreed(l)
    ensures Agreed(SetState(l, st))
  {
    if st != l.state {
      assert History(SetState(l, st)) == History(l) + [st];
    }
  }

  lemma FlagsAgree(l: Link, timer: bool, socket: bool, watcher: bool)
    requires Agreed(l)
    ensures Agreed(l.(timer := timer, socket := socket, watcher := watcher))
  {
  }

  lemma StopAgrees(l: Link)
    requires Agreed(l)
    ensures Agreed(Stop(l))
  {
    FlagsAgree(l, l.timer, false, false);
    SetStateAgrees(l.(socket := false, watcher := false), Disconnected);
    hide Agreed, SetState;
  }

  lemma AcceptAgrees(l: Link)
    requires Agreed(l)
    ensures Agreed(Accept(l))
  {
  }

  /** stop() always ends Disconnected, without management socket and log watcher. The state timer is gone
      too, except when it was running although the state was Disconnected already. */
  lemma StopEnds(l: Link)
    ensures var r := Stop(l);
            && r.state == Disconnected && !r.socket && !r.watcher
            && (r.timer <==> l.timer && l.state == Disconnected)
  {
  }

  /** A client knows the manager's state exactly if it was accepted while Disconnected was
      the state, or has been notified since. */
  lemma ClientAgreesIff(l: Link, i: nat)
    requires Agreed(l) && i < |l.clients|
    ensures l.clients[i].mState == l.state <==> l.clients[i].since < |l.emitted| || l.state == Disconnected
  {
  }

  /** The state the manager had when the client was accepted. */
  function StateAtAccept(c: Client, l: Link): VpnState
    requires c.since <= |l.emitted|
  {
    History(l)[c.since]
  }

  /** In particular a client accepted while Disconnected always knows the state. */
  lemma AcceptedDisconnected(l: Link, i: nat)
    requires Agreed(l) && i < |l.clients| && StateAtAccept(l.clients[i], l) == Disconnected
    ensures l.clients[i].mState == l.state
  {
  }
}
