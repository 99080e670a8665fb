/** Which server and port are selected (src/celovpn/setting.cpp), and how the retry loop of
    src/celovpn/vpnservicemanager.cpp moves on through them. */
module Settings {
  import opened Common
  import opened Numbers
  import opened Servers

  const LOCATION_IX: string := "dd_Location_ix"
  const LOCATION_STR: string := "dd_Location_str"
  const PROTOCOL_IX: string := "dd_Protocol_ix"
  const PROTOCOL_STR: string := "dd_Protocol_str"
  const UNDEFINED: string := "undefined"

  /** The only encryption there is has these ports. */
  const PORTS: seq<int> := [1194, 53, 443]
  const PROTOCOLS: seq<string> := ["UDP 1194 (RSA)", "UDP 53 (RSA)", "TCP 443 (RSA)"]

  // ------------------------------------------------------------------ selecting a server again

  /** The index loadServer finds for what was saved, or -1 when it has to jump. */
  function Reselect(servers: seq<Server>, saved: int, name: string): int {
    if saved < 0 then -1
    else if GetServer(servers, saved).name != "" && GetServer(servers, saved).name == name then saved
    else if name != UNDEFINED then FirstIndex(servers, name)
    else -1
  }

  predicate Listed(servers: seq<Server>, name: string) {
    exists i :: 0 <= i < |servers| && servers[i].name == name
  }

  /** A saved server is found again exactly if an index was saved, and either the name is still listed or it is at its
      old place; "undefined" is the one name that is only looked for at its old place. */
  lemma ReselectIff(servers: seq<Server>, saved: int, name: string)
    ensures Reselect(servers, saved, name) >= 0 <==>
            saved >= 0 && if name == "undefined" then saved < |servers| && servers[saved].name == "undefined"
                          else exists i :: 0 <= i < |servers| && servers[i].name == name
    ensures var r := Reselect(servers, saved, name); r >= 0 ==> r < |servers| && servers[r].name == name
  {
  }

  /** However the list was reordered in between: a server that is still listed under its name is selected
      again, at its old place if it is there and else where it comes first. */
  lemma SurvivesReordering(before: seq<Server>, ix: nat, after: seq<Server>)
    requires ix < |before| && before[ix].name != "" && before[ix].name != UNDEFINED && Listed(after, before[ix].name)
    ensures var r := Reselect(after, ix, before[ix].name);
            && 0 <= r < |after| && after[r].name == before[ix].name
            && if ix < |after| && after[ix].name == before[ix].name then r == ix
               else forall j :: 0 <= j < r ==> after[j].name != before[ix].name
  {
  }

  // ------------------------------------------------------------------ the next port

  /** determineNextPort on a table of n ports. */
  function NextPort(ix: int, n: nat): int {
    if ix + 1 >= n then 0 else ix + 1
  }

  /** The port index after k retries. */
  function PortAfter(ix: int, n: nat, k: nat): int {
    if k == 0 then ix else NextPort(PortAfter(ix, n, k - 1), n)
  }

  lemma {:induction false} PortRange(ix: int, n: nat, k: nat)
    requires n > 0 && -1 <= ix < n
    ensures -1 <= PortAfter(ix, n, k) < n && (k > 0 ==> PortAfter(ix, n, k) >= 0)
  {
    if k > 0 {
      PortRange(ix, n, k - 1);
    }
  }

  /** The k-th retry asks for the port k places further on, modulo the number of ports. */
  lemma {:induction false} PortAfterIsModulo(ix: int, n: nat, k: nat)
    requires n > 0 && -1 <= ix < n && k > 0
    ensures PortAfter(ix, n, k) == (ix + k) % n
  {
    var q := Turns(ix, n, k);
    PortRange(ix, n, k);
    ModuloUnique(q, n, PortAfter(ix, n, k));
  }

  /** How often the retries have come round. */
  lemma {:induction false} Turns(ix: int, n: nat, k: nat) returns (q: int)
    requires n > 0 && -1 <= ix < n
    ensures ix + k == q * n + PortAfter(ix, n, k)
  {
    if k == 0 {
      q := 0;
    } else {
      q := Turns(ix, n, k - 1);
      PortRange(ix, n, k - 1);
      if PortAfter(ix, n, k - 1) + 1 == n {
        assert (q + 1) * n == q * n + n;
        q := q + 1;
      }
    }
  }

  lemma {:induction false} PortsCompose(ix: int, n: nat, k: nat, d: nat)
    ensures PortAfter(ix, n, k + d) == PortAfter(PortAfter(ix, n, k), n, d)
  {
    if d > 0 {
      PortsCompose(ix, n, k, d - 1);
    }
  }

  lemma {:induction false} Rotates(p: nat, n: nat, d: nat)
    requires p < n && d < n
    ensures PortAfter(p, n, d) == if p + d < n then p + d else p + d - n
  {
    if d > 0 {
      Rotates(p, n, d - 1);
    }
  }

  /** Any n consecutive retries ask for every port exactly once. */
  lemma EveryPortOnce(ix: int, n: nat, k: nat, port: nat) returns (j: nat)
    requires n > 0 && -1 <= ix < n && port < n && k > 0
    ensures k <= j < k + n && PortAfter(ix, n, j) == port
    ensures forall i: nat :: k <= i < k + n && PortAfter(ix, n, i) == port ==> i == j
  {
    hide PortAfter;
    PortRange(ix, n, k);
    var p := PortAfter(ix, n, k);
    j := if port >= p then k + (port - p) else k + (port + n - p);
    forall i: nat | k <= i < k + n
      ensures PortAfter(ix, n, i) == if p + (i - k) < n then p + (i - k) else p + (i - k) - n
    {
      PortsCompose(ix, n, k, i - k);
      Rotates(p, n, i - k);
    }
  }

  // ------------------------------------------------------------------ the next node

  function PositionOf(ids: seq<int>, x: int): (i: int)
    ensures -1 <= i < |ids|
    ensures i >= 0 ==> ids[i] == x
    ensures forall j :: 0 <= j < |ids| && ids[j] == x ==> 0 <= i <= j
  {
    if ids == [] then -1
    else
      var i := PositionOf(ids[..|ids| - 1], x);
      if i >= 0 then i else if ids[|ids| - 1] == x then |ids| - 1 else -1
  }

  /** The server after this one, if there is one. */
  function NextNode(ids: seq<int>, server: int): int {
    var which := PositionOf(ids, server);
    if which != -1 && which + 1 < |ids| then ids[which + 1] else server
  }

  function NodeAfter(ids: seq<int>, server: int, k: nat): int {
    if k == 0 then server else NextNode(ids, NodeAfter(ids, server, k - 1))
  }

  /** The id at j has been listed before. */
  predicate Repeats(ids: seq<int>, j: nat)
    requires j < |ids|
  {
    PositionOf(ids, ids[j]) < j
  }

  /** The first place behind w that repeats an id, or the length of the list. */
  function FirstRepeat(ids: seq<int>, w: nat): (j: nat)
    requires w < |ids|
    ensures w < j <= |ids| && (j < |ids| ==> Repeats(ids, j))
    ensures forall i :: w < i < j ==> !Repeats(ids, i)
    decreases |ids| - w
  {
    if w + 1 == |ids| || Repeats(ids, w + 1) then w + 1 else FirstRepeat(ids, w + 1)
  }

  /** Up to the first repetition the retries take one server after the other; if there is none they stay at the last. */
  lemma {:induction false} NodesInOrder(ids: seq<int>, w: nat, k: nat)
    requires w < |ids| && PositionOf(ids, ids[w]) == w
    ensures w + k < FirstRepeat(ids, w) ==>
              NodeAfter(ids, ids[w], k) == ids[w + k] && PositionOf(ids, ids[w + k]) == w + k
    ensures w + k >= FirstRepeat(ids, w) == |ids| ==> NodeAfter(ids, ids[w], k) == ids[|ids| - 1]
  {
    if k > 0 {
      NodesInOrder(ids, w, k - 1);
      var last := |ids| - 1;
      assert FirstRepeat(ids, w) == |ids| ==> last == w || !Repeats(ids, last);
      assert w + k < FirstRepeat(ids, w) ==> !Repeats(ids, w + k);
    }
  }

  lemma NodeSteps(ids: seq<int>, server: int, k: nat)
    ensures NodeAfter(ids, server, k + 1) == NextNode(ids, NodeAfter(ids, server, k))
    ensures NodeAfter(ids, server, 0) == server
  {
  }

  lemma NextStaysBefore(ids: seq<int>, w: nat, server: int)
    requires w < |ids| && 0 <= PositionOf(ids, server) < FirstRepeat(ids, w)
    ensures 0 <= PositionOf(ids, NextNode(ids, server)) < FirstRepeat(ids, w)
  {
    hide PositionOf, FirstRepeat;
    var p, j := PositionOf(ids, server), FirstRepeat(ids, w);
    if p + 1 < |ids| {
      assert NextNode(ids, server) == ids[p + 1];
      assert p + 1 == j ==> Repeats(ids, j);
    }
  }

  /** They never get to a server that is first listed at or behind the first repetition. */
  lemma {:induction false} NodesStayBefore(ids: seq<int>, w: nat, k: nat)
    requires w < |ids| && PositionOf(ids, ids[w]) == w
    ensures 0 <= PositionOf(ids, NodeAfter(ids, ids[w], k)) < FirstRepeat(ids, w)
  {
    hide PositionOf, NodeAfter, FirstRepeat;
    NodeSteps(ids, ids[w], if k == 0 then 0 else k - 1);
    if k > 0 {
      NodesStayBefore(ids, w, k - 1);
      NextStaysBefore(ids, w, NodeAfter(ids, ids[w], k - 1));
    }
  }

  ghost predicate Visited(ids: seq<int>, server: int, x: int) {
    exists k: nat :: k > 0 && NodeAfter(ids, server, k) == x
  }

  /** A later server is ever reached if and only if it is listed before the first repetition behind the
      current one. */
  lemma VisitedIff(ids: seq<int>, server: int, x: int)
    requires 0 <= PositionOf(ids, server) < PositionOf(ids, x)
    ensures Visited(ids, server, x) <==> PositionOf(ids, x) < FirstRepeat(ids, PositionOf(ids, server))
  {
    hide NodeAfter, PositionOf, FirstRepeat;
    var w, p := PositionOf(ids, server), PositionOf(ids, x);
    if p < FirstRepeat(ids, w) {
      NodesInOrder(ids, w, p - w);
      assert NodeAfter(ids, server, p - w) == x;
    }
    if Visited(ids, server, x) {
      var k: nat :| k > 0 && NodeAfter(ids, server, k) == x;
      NodesStayBefore(ids, w, k);
    }
  }

  /** Without a repetition every later server but the last is tried exactly once, and the last from then on. */
  lemma LaterNodeOnce(ids: seq<int>, w: nat, j: nat, k: nat)
    requires w < j < |ids| && k > 0 && PositionOf(ids, ids[w]) == w && FirstRepeat(ids, w) == |ids|
    ensures NodeAfter(ids, ids[w], k) == ids[j] <==> (w + k == j || (j == |ids| - 1 && w + k >= j))
  {
    NodesInOrder(ids, w, k);
    assert !Repeats(ids, j) && (w < |ids| - 1 ==> !Repeats(ids, |ids| - 1));
    assert PositionOf(ids, ids[j]) == j;
  }

  lemma {:induction false} UnlistedStays(ids: seq<int>, server: int, k: nat)
    requires server !in ids
    ensures NodeAfter(ids, server, k) == server
  {
    if k > 0 {
      UnlistedStays(ids, server, k - 1);
    }
  }

  predicate AnyServers(logins: seq<nat>) {
    exists i :: 0 <= i < |logins| && logins[i] > 0
  }

  /** The list starts with the ids of the first login, and then with 0 again if a later login had servers. */
  lemma {:induction false} StartsWithFirst(n: nat, later: seq<nat>)
    ensures var ids := IdsAfter([n] + later);
            && |ids| >= n && ids[..n] == Ids(n)
            && if AnyServers(later) then |ids| > n && ids[n] == 0 else |ids| == n
  {
    if later == [] {
      assert [n] + later == [] + [n];
      IdsOfAnother([], n);
    } else {
      var before, m := later[..|later| - 1], later[|later| - 1];
      StartsWithFirst(n, before);
      assert later == before + [m];
      assert [n] + later == ([n] + before) + [m];
      IdsOfAnother([n] + before, m);
      assert AnyServers(later) <==> AnyServers(before) || m > 0 by { OneMore(before, m); }
    }
  }

  lemma OneMore(before: seq<nat>, m: nat)
    ensures AnyServers(before + [m]) <==> AnyServers(before) || m > 0
  {
    assert (before + [m])[|before|] == m;
    if i :| 0 <= i < |before| && before[i] > 0 {
      assert (before + [m])[i] > 0;
    }
  }

  lemma FirstLoginStep(n: nat, later: seq<nat>, v: nat)
    requires v < n && AnyServers(later)
    ensures NextNode(IdsAfter([n] + later), v) == if v + 1 < n then v + 1 else 0
  {
    var ids := IdsAfter([n] + later);
    StartsWithFirst(n, later);
    assert ids[v] == ids[..n][v] == v;
    forall i | 0 <= i < v ensures ids[i] != v {
      assert ids[i] == ids[..n][i] == i;
    }
    assert PositionOf(ids, v) == v;
    if v + 1 < n {
      assert ids[v + 1] == ids[..n][v + 1] == v + 1;
    }
  }

  /** The ids of a later login are added to those of the first, so from a server of the first login the retries go
      round and round the servers of that one. */
  lemma {:induction false} LaterLogins(n: nat, later: seq<nat>, w: nat, k: nat)
    requires w < n && AnyServers(later)
    ensures NodeAfter(IdsAfter([n] + later), w, k) == (w + k) % n
  {
    hide IdsAfter, NextNode, AnyServers, NodeAfter;
    var ids := IdsAfter([n] + later);
    NodeSteps(ids, w, if k == 0 then 0 else k - 1);
    if k == 0 {
      ModuloUnique(0, n, w);
    } else {
      LaterLogins(n, later, w, k - 1);
      ModuloStep(w + k - 1, n);
      FirstLoginStep(n, later, (w + k - 1) % n);
    }
  }

  /** Servers that only a later login has listed are never tried from a server of the first one; all of the
      first one's are. */
  lemma OnlyFirstLoginTried(n: nat, later: seq<nat>, w: nat, x: int)
    requires w < n && AnyServers(later)
    ensures Visited(IdsAfter([n] + later), w, x) <==> 0 <= x < n
  {
    var ids := IdsAfter([n] + later);
    if 0 <= x < n {
      var k := if x > w then x - w else x + n - w;
      LaterLogins(n, later, w, k);
      if x > w {
        ModuloUnique(0, n, x);
      } else {
        ModuloUnique(1, n, x);
      }
      assert k > 0 && NodeAfter(ids, w, k) == x;
    }
    if Visited(ids, w, x) {
      var k: nat :| k > 0 && NodeAfter(ids, w, k) == x;
      LaterLogins(n, later, w, k);
    }
    hide IdsAfter, NodeAfter, AnyServers;
  }

  // ------------------------------------------------------------------ the settings object

  class Setting {
    var ixs: map<string, int>
    var strs: map<string, string>
    var mPorts: seq<int>
    var mProtocols: seq<string>
    var mLoadingProtocol: bool

    /** The tables are filled when the protocols are first asked for. */
    predicate Valid()
      reads this
    {
      (mPorts == [] && mProtocols == []) || (mPorts == PORTS && mProtocols == PROTOCOLS)
    }

    /** The protocol is not being loaded. */
    predicate Ready()
      reads this
    {
      Valid() && !mLoadingProtocol
    }

    constructor (ixs: map<string, int>, strs: map<string, string>)
      ensures Ready() && mPorts == [] && this.ixs == ixs && this.strs == strs
    {
      this.ixs, this.strs, mPorts, mProtocols, mLoadingProtocol := ixs, strs, [], [], false;
    }

    function CurrentProtocol(): int
      reads this
    {
      if PROTOCOL_IX in ixs then ixs[PROTOCOL_IX] else -1
    }

    function ServerID(): int
      reads this
    {
      if LOCATION_IX in ixs then ixs[LOCATION_IX] else 0
    }

    method CurrentEncryptionProtocols() returns (p: seq<string>)
      requires Valid()
      modifies this`mPorts, this`mProtocols
      ensures Valid() && p == mProtocols == PROTOCOLS && mPorts == PORTS
    {
      if mProtocols == [] {
        mProtocols := PROTOCOLS;
        mPorts := PORTS;
      }
      return mProtocols;
    }

    method SetProtocol(ix: int)
      requires Valid()
      modifies this
      ensures Valid() && mLoadingProtocol == old(mLoadingProtocol)
      ensures old(mLoadingProtocol) ==> ixs == old(ixs) && strs == old(strs) && mPorts == old(mPorts)
      ensures !old(mLoadingProtocol) ==>
        && ixs == old(ixs)[PROTOCOL_IX := ix]
        && strs == old(strs)[PROTOCOL_STR := if 0 <= ix < |PROTOCOLS| then PROTOCOLS[ix] else ""]
        && mPorts == if ix > -1 then PORTS else old(mPorts)
    {
      if mLoadingProtocol {
        return;
      }
      ixs := ixs[PROTOCOL_IX := ix];
      var s := "";
      if ix > -1 {
        var p := CurrentEncryptionProtocols();
        if ix < |p| {
          s := p[ix];
        }
      }
      strs := strs[PROTOCOL_STR := s];
    }

    /** While the protocol is being loaded setProtocol does nothing, so what has been found or drawn is not stored; what
        remains is that the tables are filled. rand is what rand() returns. */
    method LoadProtocol(rand: nat)
      requires Valid()
      modifies this
      ensures Ready() && mPorts == PORTS && mProtocols == PROTOCOLS && ixs == old(ixs) && strs == old(strs)
    {
      mLoadingProtocol := true;
      var ix := CurrentProtocol();
      if ix > -1 {
        var p := CurrentEncryptionProtocols();
        if ix >= |p| {
          ix := -1;
        } else {
          var s := if PROTOCOL_STR in strs then strs[PROTOCOL_STR] else "";
          if s != p[ix] {
            ix := -1;
          }
        }
      }
      if ix < 0 {
        var p := CurrentEncryptionProtocols();
        ix := rand % |p|;
      }
      SetProtocol(ix);
      mLoadingProtocol := false;
    }

    method DetermineNextPort() returns (ix: int)
      ensures ix == NextPort(CurrentProtocol(), |mPorts|)
    {
      ix := CurrentProtocol();
      ix := ix + 1;
      if ix >= |mPorts| {
        ix := 0;
      }
    }

    method SwitchToNextPort()
      requires Ready()
      modifies this
      ensures Ready() && CurrentProtocol() == NextPort(old(CurrentProtocol()), old(|mPorts|))
      ensures ServerID() == old(ServerID())
      ensures mPorts == if CurrentProtocol() > -1 then PORTS else old(mPorts)
    {
      KeysDiffer();
      var ix := DetermineNextPort();
      SetProtocol(ix);
    }

    method Port() returns (port: Option<int>)
      ensures port == if mPorts == [] then None
                      else Some(if 0 <= CurrentProtocol() < |mPorts| then mPorts[CurrentProtocol()] else mPorts[0])
    {
      var ix := CurrentProtocol();
      if ix > -1 && ix < |mPorts| {
        return Some(mPorts[ix]);
      }
      if |mPorts| == 0 {
        return None;
      }
      return Some(mPorts[0]);
    }

    method SetServer(auth: AuthManager, ixsrv: int)
      modifies this`ixs, this`strs
      ensures ixs == old(ixs)[LOCATION_IX := ixsrv]
      ensures strs == old(strs)[LOCATION_STR := GetServer(auth.mServers, ixsrv).name]
    {
      var se := GetServer(auth.mServers, ixsrv);
      ixs := ixs[LOCATION_IX := ixsrv];
      strs := strs[LOCATION_STR := se.name];
    }

    /** tcp is whether the current protocol is a TCP one. */
    method SwitchToNextNode(auth: AuthManager, tcp: bool)
      requires auth.Valid()
      modifies this`ixs, this`strs
      ensures ServerID() == NextNode(IdsAfter(auth.logins), old(ServerID()))
      ensures CurrentProtocol() == old(CurrentProtocol())
    {
      hide IdsAfter;
      KeysDiffer();
      var ids := auth.CurrentEncryptionServers(tcp);
      var ix := ServerID();
      var which := PositionOf(ids, ix);
      if which != -1 && which + 1 < |ids| {
        SetServer(auth, ids[which + 1]);
      }
    }

    /** Called when a server list has been loaded; rand is what rand() returns. */
    method LoadServer(auth: AuthManager, tcp: bool, rand: nat)
      requires auth.Valid()
      modifies this`ixs, this`strs, auth`mServerNameToId
      ensures auth.Valid()
      ensures IdsAfter(auth.logins) == [] ==> ixs == old(ixs) && strs == old(strs)
      ensures IdsAfter(auth.logins) != [] ==>
        var saved := if LOCATION_IX in old(ixs) then old(ixs)[LOCATION_IX] else -1;
        var name := if LOCATION_STR in old(strs) then old(strs)[LOCATION_STR] else UNDEFINED;
        var r := Reselect(auth.mServers, saved, name);
        && (r >= 0 ==> ServerID() == r)
        && (r < 0 ==> GoodJump(ServerID(), |auth.mServers|, auth.mServerIds, auth.mPings, old(ServerID()), rand))
        && strs == old(strs)[LOCATION_STR := GetServer(auth.mServers, ServerID()).name]
    {
      hide IdsAfter, Index, FirstIndex, GoodJump;
      var ids := auth.CurrentEncryptionServers(tcp);
      if ids == [] {
        return;
      }
      var savedsrv := if LOCATION_IX in ixs then ixs[LOCATION_IX] else -1;
      var savedname := if LOCATION_STR in strs then strs[LOCATION_STR] else UNDEFINED;
      var ixsrv := -1;
      if savedsrv > -1 {
        var sr1 := GetServer(auth.mServers, savedsrv);
        if sr1.name != "" {
          if sr1.name == savedname {
            ixsrv := savedsrv;
          } else if savedname != UNDEFINED {
            ixsrv := auth.ServerIxFromName(savedname);
          }
        } else {
          if savedname != UNDEFINED {
            ixsrv := auth.ServerIxFromName(savedname);
          }
        }
      }
      if ixsrv < 0 {
        ixsrv := auth.GetServerToJump(ServerID(), rand);
      }
      SetServer(auth, ixsrv);
    }
  }

  lemma KeysDiffer()
    ensures LOCATION_IX != PROTOCOL_IX && LOCATION_STR != PROTOCOL_STR
  {
    assert LOCATION_IX[3] == 'L' && PROTOCOL_IX[3] == 'P';
    assert LOCATION_STR[3] == 'L' && PROTOCOL_STR[3] == 'P';
  }
}
