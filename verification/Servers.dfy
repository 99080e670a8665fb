/** The server list of src/celovpn/authmanager.cpp: its name index and the choice of a server to jump to. */
module Servers {
  import opened Common
  import opened Numbers

  datatype Server = Server(name: string, address: string)

  // ------------------------------------------------------------------ the name index

  /** Linear search: the smallest index with this name, or -1. */
  function FirstIndex(servers: seq<Server>, name: string): (i: int)
    ensures -1 <= i < |servers|
    ensures i >= 0 ==> servers[i].name == name
    ensures forall j :: 0 <= j < |servers| && servers[j].name == name ==> 0 <= i <= j
  {
    if servers == [] then -1
    else
      var i := FirstIndex(servers[..|servers| - 1], name);
      if i >= 0 then i else if servers[|servers| - 1].name == name then |servers| - 1 else -1
  }

  /** std::map::insert of every name in turn: a name that is there already keeps its index. */
  function Index(servers: seq<Server>): map<string, nat> {
    if servers == [] then map[]
    else
      var m, last := Index(servers[..|servers| - 1]), servers[|servers| - 1].name;
      if last in m then m else m[last := |servers| - 1]
  }

  /** Looking a name up in the index is searching the list. */
  lemma {:induction false} IndexIsSearch(servers: seq<Server>, name: string)
    ensures name in Index(servers) <==> FirstIndex(servers, name) >= 0
    ensures name in Index(servers) ==> Index(servers)[name] == FirstIndex(servers, name)
  {
    if servers != [] {
      IndexIsSearch(servers[..|servers| - 1], name);
    }
  }

  function GetServer(servers: seq<Server>, id: int): Server {
    if 0 <= id < |servers| then servers[id] else Server("", "")
  }

  // ------------------------------------------------------------------ ranking by ping

  const TOP: nat := 20

  /** A ping and the server it belongs to. */
  type Ranked = (int, int)

  function Faster(v: seq<Ranked>, ping: int): nat {
    if v == [] then 0 else Faster(v[..|v| - 1], ping) + if v[|v| - 1].0 < ping then 1 else 0
  }

  function NotSlower(v: seq<Ranked>, ping: int): nat {
    if v == [] then 0 else NotSlower(v[..|v| - 1], ping) + if v[|v| - 1].0 <= ping then 1 else 0
  }

  predicate Sorted(v: seq<Ranked>) {
    forall i, j :: 0 <= i < j < |v| ==> v[i].0 <= v[j].0
  }

  /** In a sorted list the element at k has at most k faster ones, and more than k that are not slower. */
  lemma {:induction false} RankInSorted(v: seq<Ranked>, k: nat)
    requires Sorted(v) && k < |v|
    ensures Faster(v, v[k].0) <= k < NotSlower(v, v[k].0)
  {
    var init := v[..|v| - 1];
    if k < |init| {
      RankInSorted(init, k);
    } else {
      AllNotSlower(init, v[k].0);
      FasterBound(init, v[k].0);
    }
  }

  lemma {:induction false} AllNotSlower(v: seq<Ranked>, ping: int)
    requires forall i :: 0 <= i < |v| ==> v[i].0 <= ping
    ensures NotSlower(v, ping) == |v|
  {
    if v != [] {
      AllNotSlower(v[..|v| - 1], ping);
    }
  }

  lemma {:induction false} FasterBound(v: seq<Ranked>, ping: int)
    ensures Faster(v, ping) <= |v|
  {
    if v != [] {
      FasterBound(v[..|v| - 1], ping);
    }
  }

  lemma {:induction false} RemoveOne(v: seq<Ranked>, i: nat, ping: int)
    requires i < |v|
    ensures Faster(v, ping) == Faster(v[..i] + v[i + 1..], ping) + if v[i].0 < ping then 1 else 0
    ensures NotSlower(v, ping) == NotSlower(v[..i] + v[i + 1..], ping) + if v[i].0 <= ping then 1 else 0
  {
    var init, w := v[..|v| - 1], v[..i] + v[i + 1..];
    if i < |init| {
      RemoveOne(init, i, ping);
      assert w[..|w| - 1] == init[..i] + init[i + 1..];
      assert w[|w| - 1] == v[|v| - 1];
    } else {
      assert w == init;
    }
  }

  lemma WithoutOne(v: seq<Ranked>, i: nat)
    requires i < |v|
    ensures multiset(v[..i] + v[i + 1..]) == multiset(v) - multiset{v[i]}
  {
    assert v == v[..i] + [v[i]] + v[i + 1..];
  }

  /** Ranks do not depend on the order of the list. */
  lemma {:induction false} SameRanks(v: seq<Ranked>, w: seq<Ranked>, ping: int)
    requires multiset(v) == multiset(w)
    ensures Faster(v, ping) == Faster(w, ping) && NotSlower(v, ping) == NotSlower(w, ping)
  {
    hide Faster, NotSlower;
    if v == [] {
      assert |multiset(w)| == 0;
      assert v == w;
    } else {
      var n := |v| - 1;
      assert v[n] in multiset(w);
      var i :| 0 <= i < |w| && w[i] == v[n];
      WithoutOne(v, n);
      WithoutOne(w, i);
      SameRanks(v[..n] + v[n + 1..], w[..i] + w[i + 1..], ping);
      RemoveOne(v, n, ping);
      RemoveOne(w, i, ping);
    }
  }

  lemma AppendSorted(w: seq<Ranked>, y: Ranked)
    requires Sorted(w) && forall p :: p in w ==> p.0 <= y.0
    ensures Sorted(w + [y])
  {
    forall i, j | 0 <= i < j < |w + [y]| ensures (w + [y])[i].0 <= (w + [y])[j].0 {
      assert (w + [y])[i] == w[i] && w[i] in w;
    }
  }

  lemma SortedInit(w: seq<Ranked>)
    requires Sorted(w) && w != []
    ensures Sorted(w[..|w| - 1]) && w == w[..|w| - 1] + [w[|w| - 1]]
    ensures forall p :: p in w ==> p.0 <= w[|w| - 1].0
  {
  }

  method Insert(w: seq<Ranked>, x: Ranked) returns (r: seq<Ranked>)
    requires Sorted(w)
    ensures multiset(r) == multiset(w) + multiset{x} && |r| == |w| + 1 && Sorted(r)
    ensures forall p :: p in r ==> p in w || p == x
  {
    hide Sorted;
    NoneSorted();
    if w == [] {
      AppendSorted([], x);
      r := [] + [x];
      return;
    }
    SortedInit(w);
    var last := w[|w| - 1];
    if last.0 <= x.0 {
      AppendSorted(w, x);
      r := w + [x];
    } else {
      var front := Insert(w[..|w| - 1], x);
      AppendSorted(front, last);
      r := front + [last];
    }
  }

  /** std::sort; of equal pings it may put either first. */
  method Sort(v: seq<Ranked>) returns (w: seq<Ranked>)
    ensures multiset(w) == multiset(v) && |w| == |v| && Sorted(w)
  {
    hide Sorted;
    w := [];
    NoneSorted();
    for n := 0 to |v|
      invariant multiset(w) == multiset(v[..n]) && |w| == n && Sorted(w)
    {
      w := Insert(w, v[n]);
      assert v[..n + 1] == v[..n] + [v[n]];
    }
    assert v[..|v|] == v;
  }

  lemma NoneSorted()
    ensures Sorted([])
  {
  }

  // ------------------------------------------------------------------ the choice

  function PingOf(pings: seq<int>, id: int): int {
    if 0 <= id < |pings| then pings[id] else -1
  }

  /** The servers other than the previous one. */
  function Candidates(ids: seq<int>, prev: int): (c: seq<int>)
    ensures forall x :: x in c <==> x in ids && x != prev
  {
    if ids == [] then []
    else Candidates(ids[..|ids| - 1], prev) + if ids[|ids| - 1] != prev then [ids[|ids| - 1]] else []
  }

  predicate NonNegative(ids: seq<int>) {
    forall x :: x in ids ==> x >= 0
  }

  predicate ValidIds(ids: seq<int>, n: nat) {
    forall x :: x in ids ==> 0 <= x < n
  }

  /** The candidates with a known ping. */
  function Known(c: seq<int>, pings: seq<int>): (k: seq<Ranked>)
    ensures forall p :: p in k ==> p.1 in c && p.0 == PingOf(pings, p.1) > -1
    ensures (exists x :: x in c && PingOf(pings, x) > -1) ==> k != []
  {
    if c == [] then []
    else
      var x := c[|c| - 1];
      Known(c[..|c| - 1], pings) + if PingOf(pings, x) > -1 then [(PingOf(pings, x), x)] else []
  }

  /** What a jump may choose: with known pings, a candidate whose rank among them the draw says; else the candidate
      that is drawn, and the server that is drawn if there is no candidate. */
  predicate GoodJump(r: int, n: nat, ids: seq<int>, pings: seq<int>, prev: int, draw: nat) {
    var c := Candidates(ids, prev);
    var k := Known(c, pings);
    && (n == 0 ==> r == -1)
    && (n > 0 && c == [] ==> r == draw % n)
    && (n > 0 && c != [] ==> r in c)
    && (n > 0 && c != [] && k == [] ==> r == c[draw % |c|])
    && (n > 0 && k != [] ==>
          && PingOf(pings, r) > -1
          && Faster(k, PingOf(pings, r)) <= draw % Min(TOP, |k|) < NotSlower(k, PingOf(pings, r)))
  }

  // ------------------------------------------------------------------ the ids of several logins

  function Ids(n: nat): (ids: seq<int>)
    ensures |ids| == n && forall i :: 0 <= i < n ==> ids[i] == i
  {
    seq(n, i => i)
  }

  /** The ids in the lists after logins with so many servers each: those of every login, one after the other. */
  function IdsAfter(logins: seq<nat>): seq<int> {
    if logins == [] then [] else IdsAfter(logins[..|logins| - 1]) + Ids(logins[|logins| - 1])
  }

  lemma IdsOfAnother(logins: seq<nat>, n: nat)
    ensures IdsAfter(logins + [n]) == IdsAfter(logins) + Ids(n)
  {
    assert (logins + [n])[..|logins|] == logins;
  }

  lemma {:induction false} IdsNonNegative(logins: seq<nat>)
    ensures NonNegative(IdsAfter(logins))
  {
    if logins != [] {
      IdsNonNegative(logins[..|logins| - 1]);
    }
  }

  /** The part of AuthManager that holds the server lists; its pings are scheduled in PingPool. */
  class AuthManager {
    var mServers: seq<Server>
    var mServerIds: seq<int>
    var mTcpServerIds: seq<int>
    var mUdpServerIds: seq<int>
    var mPings: seq<int>
    var mServerNameToId: map<string, nat>
    ghost var logins: seq<nat>

    /** The index is empty or up to date, and all three lists hold the ids of all logins. */
    ghost predicate Valid()
      reads this
    {
      && (mServerNameToId == map[] || mServerNameToId == Index(mServers))
      && mServerIds == mTcpServerIds == mUdpServerIds == IdsAfter(logins)
    }

    constructor ()
      ensures Valid() && mServers == [] && logins == [] && mPings == []
    {
      mServers, mServerIds, mTcpServerIds, mUdpServerIds := [], [], [], [];
      mPings, mServerNameToId, logins := [], map[], [];
    }

    method ClearServerLists()
      requires Valid()
      modifies `mServers, `mPings, `mServerNameToId
      ensures Valid() && mServers == [] && mPings == [] && mServerNameToId == map[]
    {
      mServerNameToId := map[];
      mServers := [];
      mPings := [];
    }

    /** The list of a login reply; the ids of earlier lists are not removed. */
    method ProcessServers(list: seq<Server>)
      requires Valid()
      modifies this
      ensures Valid() && mServers == list && mPings == []
      ensures logins == old(logins) + [|list|] && mServerIds == old(mServerIds) + Ids(|list|)
    {
      hide Index, IdsAfter;
      ClearServerLists();
      for k := 0 to |list|
        invariant mServers == list[..k] && mServerNameToId == map[] && mPings == []
        invariant mServerIds == mTcpServerIds == mUdpServerIds == old(mServerIds) + Ids(k)
        invariant logins == old(logins)
      {
        mServers := mServers + [list[k]];
        var serverId := |mServers| - 1;
        mServerIds := mServerIds + [serverId];
        mTcpServerIds := mTcpServerIds + [serverId];
        mUdpServerIds := mUdpServerIds + [serverId];
      }
      IdsOfAnother(logins, |list|);
      logins := logins + [|list|];
    }

    /** Every server is listed for both protocols, so the answer does not depend on the current one. */
    method CurrentEncryptionServers(tcp: bool) returns (ids: seq<int>)
      requires Valid()
      ensures ids == mServerIds == IdsAfter(logins)
    {
      if tcp {
        return mTcpServerIds;
      } else {
        return mUdpServerIds;
      }
    }

    /** The index is built when it is first asked. */
    method ServerIxFromName(srv: string) returns (ix: int)
      requires Valid()
      modifies this`mServerNameToId
      ensures Valid() && ix == FirstIndex(mServers, srv)
    {
      ix := -1;
      if mServerNameToId == map[] && |mServers| > 0 {
        var k := 0;
        while k < |mServers|
          invariant k <= |mServers| && mServerNameToId == Index(mServers[..k])
        {
          assert mServers[..k + 1][..k] == mServers[..k];
          if mServers[k].name !in mServerNameToId {
            mServerNameToId := mServerNameToId[mServers[k].name := k];
          }
          k := k + 1;
        }
        assert mServers[..|mServers|] == mServers;
      }
      IndexIsSearch(mServers, srv);
      if srv in mServerNameToId {
        ix := mServerNameToId[srv];
      }
    }

    method GetPings(toping: seq<int>) returns (v: seq<int>)
      ensures |v| == |toping| && forall k :: 0 <= k < |v| ==> v[k] == PingOf(mPings, toping[k])
    {
      v := seq(|toping|, _ => -1);
      if mPings != [] {
        for k := 0 to |toping|
          invariant |v| == |toping|
          invariant forall j :: 0 <= j < |v| ==> v[j] == if j < k then PingOf(mPings, toping[j]) else -1
        {
          if 0 <= toping[k] < |mPings| {
            v := v[k := mPings[toping[k]]];
          }
        }
      }
    }

    /** rand is what rand() returns. */
    method GetServerToJump(prev: int, rand: nat) returns (srv: int)
      requires Valid()
      ensures GoodJump(srv, |mServers|, mServerIds, mPings, prev, rand)
    {
      hide GoodJump, Candidates, Known, Sorted, Faster, NotSlower, PingOf;
      IdsNonNegative(logins);
      if mServers == [] {
        NoJump(mServerIds, mPings, prev, rand);
        return -1;
      }
      srv := -1;
      var toping := Others(prev);
      var ping_ix := KnownPings(toping);
      if ping_ix != [] {
        var sorted := Sort(ping_ix);
        var num := TOP;
        if num >= |sorted| {
          num := |sorted|;
        }
        var offset := rand % num;
        srv := sorted[offset].1;
        Chosen(ping_ix, sorted, offset, toping, mPings);
      }
      if srv < 0 {
        if toping != [] {
          srv := toping[rand % |toping|];
        } else {
          srv := rand % |mServers|;
        }
      }
      JumpFrom(srv, |mServers|, mServerIds, mPings, prev, rand);
    }

    method Others(prev: int) returns (toping: seq<int>)
      ensures toping == Candidates(mServerIds, prev)
    {
      toping := [];
      for k := 0 to |mServerIds|
        invariant toping == Candidates(mServerIds[..k], prev)
      {
        assert mServerIds[..k + 1][..k] == mServerIds[..k];
        if mServerIds[k] != prev {
          toping := toping + [mServerIds[k]];
        }
      }
      assert mServerIds[..|mServerIds|] == mServerIds;
    }

    method KnownPings(toping: seq<int>) returns (ping_ix: seq<Ranked>)
      ensures ping_ix == Known(toping, mPings)
    {
      var pings := GetPings(toping);
      ping_ix := [];
      for k := 0 to |toping|
        invariant ping_ix == Known(toping[..k], mPings)
      {
        assert toping[..k + 1][..k] == toping[..k];
        if pings[k] > -1 {
          ping_ix := ping_ix + [(pings[k], toping[k])];
        }
      }
      assert toping[..|toping|] == toping;
    }
  }

  lemma Chosen(known: seq<Ranked>, sorted: seq<Ranked>, offset: nat, c: seq<int>, pings: seq<int>)
    requires known == Known(c, pings) && multiset(sorted) == multiset(known) && Sorted(sorted) && offset < |sorted|
    ensures sorted[offset].1 in c && PingOf(pings, sorted[offset].1) == sorted[offset].0 > -1
    ensures Faster(known, sorted[offset].0) <= offset < NotSlower(known, sorted[offset].0)
  {
    assert sorted[offset] in multiset(sorted);
    assert sorted[offset] in known;
    RankInSorted(sorted, offset);
    SameRanks(sorted, known, sorted[offset].0);
  }

  lemma NoJump(ids: seq<int>, pings: seq<int>, prev: int, draw: nat)
    ensures GoodJump(-1, 0, ids, pings, prev, draw)
  {
  }

  lemma JumpFrom(r: int, n: nat, ids: seq<int>, pings: seq<int>, prev: int, draw: nat)
    requires n > 0
    requires var c := Candidates(ids, prev);
             var k := Known(c, pings);
             && (if c == [] then r == draw % n else r in c)
             && (c != [] && k == [] ==> r == c[draw % |c|])
             && (k != [] ==> PingOf(pings, r) > -1 &&
                             Faster(k, PingOf(pings, r)) <= draw % Min(TOP, |k|) < NotSlower(k, PingOf(pings, r)))
    ensures GoodJump(r, n, ids, pings, prev, draw)
  {
  }

  /** With valid ids the result is -1 exactly without servers, and otherwise a valid index, other than the
      previous one if any other id is listed. */
  lemma JumpIsValid(r: int, n: nat, ids: seq<int>, pings: seq<int>, prev: int, draw: nat)
    requires ValidIds(ids, n) && GoodJump(r, n, ids, pings, prev, draw)
    ensures r == -1 <==> n == 0
    ensures n > 0 ==> 0 <= r < n
    ensures n > 0 && (exists x :: x in ids && x != prev) ==> r in ids && r != prev
  {
    if x :| x in ids && x != prev {
      assert x in Candidates(ids, prev);
    }
    hide Known, Faster, NotSlower;
  }

  /** Every id that the logins have left behind is a valid index exactly if no login had more servers than there are
      now. */
  lemma {:induction false} IdsValidIff(logins: seq<nat>, n: nat)
    ensures ValidIds(IdsAfter(logins), n) <==> forall i :: 0 <= i < |logins| ==> logins[i] <= n
  {
    if logins != [] {
      var before, m := logins[..|logins| - 1], logins[|logins| - 1];
      IdsValidIff(before, n);
      IdsUpTo(m, n);
      var ids, more := IdsAfter(before), Ids(m);
      assert IdsAfter(logins) == ids + more;
      assert forall x :: x in ids + more <==> x in ids || x in more;
      assert logins == before + [m];
    }
  }

  lemma IdsUpTo(m: nat, n: nat)
    ensures ValidIds(Ids(m), n) <==> m <= n
  {
    hide Ids;
    if m > n {
      assert Ids(m)[n] == n && n in Ids(m);
    }
  }

  lemma {:induction false} NoneKnown(c: seq<int>, pings: seq<int>)
    ensures Known(c, pings) == [] <==> forall x :: x in c ==> PingOf(pings, x) <= -1
  {
    if c != [] {
      NoneKnown(c[..|c| - 1], pings);
      assert c == c[..|c| - 1] + [c[|c| - 1]];
    }
  }

  lemma StaysInside(r: int, n: nat, ids: seq<int>, pings: seq<int>, prev: int, draw: nat)
    requires n > 0 && |pings| <= n && GoodJump(r, n, ids, pings, prev, draw)
    requires Known(Candidates(ids, prev), pings) != [] || ValidIds(Candidates(ids, prev), n)
    ensures 0 <= r < n
  {
    hide Candidates, Known, Faster, NotSlower;
  }

  lemma AnyCandidate(n: nat, ids: seq<int>, pings: seq<int>, prev: int, i: nat)
    requires n > 0 && i < |Candidates(ids, prev)| && Known(Candidates(ids, prev), pings) == []
    ensures GoodJump(Candidates(ids, prev)[i], n, ids, pings, prev, i)
  {
    hide Candidates, Known, Faster, NotSlower;
    ModuloUnique(0, |Candidates(ids, prev)|, i);
  }

  /** With no more pings than servers: whatever is drawn, a jump ends at a valid index if and only if some candidate
      has a known ping, or all candidates are valid indices. */
  lemma AlwaysValidIff(n: nat, ids: seq<int>, pings: seq<int>, prev: int)
    requires n > 0 && |pings| <= n
    ensures (forall r, draw :: GoodJump(r, n, ids, pings, prev, draw) ==> 0 <= r < n) <==>
            || (exists x :: x in ids && x != prev && 0 <= x < |pings| && pings[x] > -1)
            || (forall x :: x in ids && x != prev ==> 0 <= x < n)
  {
    hide GoodJump, Candidates, Known;
    var c := Candidates(ids, prev);
    NoneKnown(c, pings);
    var k := Known(c, pings);
    if k != [] || ValidIds(c, n) {
      forall r, draw | GoodJump(r, n, ids, pings, prev, draw) ensures 0 <= r < n {
        StaysInside(r, n, ids, pings, prev, draw);
      }
    } else {
      var x :| x in c && !(0 <= x < n);
      var i :| 0 <= i < |c| && c[i] == x;
      AnyCandidate(n, ids, pings, prev, i);
    }
  }

  /** After a login with two servers and one with a single server, a jump away from that one, before its pings are
      known, always ends at an index that is no server. */
  method JumpAfterLogins(rand: nat) returns (srv: int, n: nat)
    ensures n == 1 && srv == 1
  {
    var auth := new AuthManager();
    var a, b := Server("a", ""), Server("b", "");
    auth.ProcessServers([a, b]);
    auth.ProcessServers([a]);
    IdsOfAnother([2], 1);
    IdsOfAnother([], 2);
    assert auth.logins == [] + [2] + [1] == [2] + [1];
    srv := auth.GetServerToJump(0, rand);
    n := |auth.mServers|;
    StaleCandidates();
  }

  lemma StaleCandidates()
    ensures IdsAfter([2] + [1]) == [0, 1, 0]
    ensures forall x :: x in Candidates([0, 1, 0], 0) <==> x == 1
  {
    IdsOfAnother([2], 1);
    IdsOfAnother([], 2);
    assert [] + [2] == [2];
    assert Ids(2) == [0, 1] && Ids(1) == [0];
  }

  // ------------------------------------------------------------------ the choice, seen from the lists

  /** The places of the listed servers other than the previous one that have a ping. */
  function PingedAt(ids: seq<int>, pings: seq<int>, prev: int): set<int> {
    set k | 0 <= k < |ids| && ids[k] != prev && 0 <= ids[k] < |pings| && pings[ids[k]] > -1
  }

  function FasterAt(ids: seq<int>, pings: seq<int>, prev: int, ping: int): set<int> {
    set k | k in PingedAt(ids, pings, prev) && pings[ids[k]] < ping
  }

  function NotSlowerAt(ids: seq<int>, pings: seq<int>, prev: int, ping: int): set<int> {
    set k | k in PingedAt(ids, pings, prev) && pings[ids[k]] <= ping
  }

  lemma KnownStep(ids: seq<int>, x: int, pings: seq<int>, prev: int)
    ensures Known(Candidates(ids + [x], prev), pings) == Known(Candidates(ids, prev), pings) +
            if x != prev && 0 <= x < |pings| && pings[x] > -1 then [(pings[x], x)] else []
  {
    assert (ids + [x])[..|ids|] == ids;
    var c := Candidates(ids, prev);
    assert (c + [x])[..|c|] == c;
    assert c + [] == c;
  }

  lemma RankStep(v: seq<Ranked>, p: Ranked, ping: int)
    ensures Faster(v + [p], ping) == Faster(v, ping) + if p.0 < ping then 1 else 0
    ensures NotSlower(v + [p], ping) == NotSlower(v, ping) + if p.0 <= ping then 1 else 0
  {
    assert (v + [p])[..|v|] == v;
  }

  lemma PositionStep(ids: seq<int>, x: int, pings: seq<int>, prev: int, ping: int)
    ensures var known := x != prev && 0 <= x < |pings| && pings[x] > -1;
            var at := {|ids|};
            && PingedAt(ids + [x], pings, prev) == PingedAt(ids, pings, prev) + (if known then at else {})
            && FasterAt(ids + [x], pings, prev, ping)
               == FasterAt(ids, pings, prev, ping) + (if known && pings[x] < ping then at else {})
            && NotSlowerAt(ids + [x], pings, prev, ping)
               == NotSlowerAt(ids, pings, prev, ping) + (if known && pings[x] <= ping then at else {})
    ensures |ids| !in PingedAt(ids, pings, prev) && |ids| !in FasterAt(ids, pings, prev, ping)
    ensures |ids| !in NotSlowerAt(ids, pings, prev, ping)
  {
    assert forall k :: 0 <= k < |ids| ==> (ids + [x])[k] == ids[k];
  }

  /** The list that is sorted holds every listed server with a ping once for each of its places. */
  lemma {:induction false} Ranks(ids: seq<int>, pings: seq<int>, prev: int, ping: int)
    ensures var k := Known(Candidates(ids, prev), pings);
            && |k| == |PingedAt(ids, pings, prev)|
            && Faster(k, ping) == |FasterAt(ids, pings, prev, ping)|
            && NotSlower(k, ping) == |NotSlowerAt(ids, pings, prev, ping)|
  {
    hide Known, Candidates, Faster, NotSlower, PingedAt, FasterAt, NotSlowerAt;
    if ids == [] {
      NoRanks(pings, prev, ping);
    } else {
      var init, x := ids[..|ids| - 1], ids[|ids| - 1];
      assert ids == init + [x];
      Ranks(init, pings, prev, ping);
      KnownStep(init, x, pings, prev);
      PositionStep(init, x, pings, prev, ping);
      var k := Known(Candidates(init, prev), pings);
      if x != prev && 0 <= x < |pings| && pings[x] > -1 {
        RankStep(k, (pings[x], x), ping);
      } else {
        assert k + [] == k;
      }
    }
  }

  lemma NoRanks(pings: seq<int>, prev: int, ping: int)
    ensures var k := Known(Candidates([], prev), pings);
            && |k| == |PingedAt([], pings, prev)|
            && Faster(k, ping) == |FasterAt([], pings, prev, ping)|
            && NotSlower(k, ping) == |NotSlowerAt([], pings, prev, ping)|
  {
  }

  /** It holds a ping and a server as often as the server is listed, if that is its ping, and nothing else. */
  lemma {:induction false} KnownHolds(ids: seq<int>, pings: seq<int>, prev: int, p: int, x: int)
    ensures multiset(Known(Candidates(ids, prev), pings))[(p, x)] ==
            if x != prev && 0 <= x < |pings| && pings[x] == p > -1 then multiset(ids)[x] else 0
  {
    if ids != [] {
      var init, last := ids[..|ids| - 1], ids[|ids| - 1];
      assert ids == init + [last];
      KnownHolds(init, pings, prev, p, x);
      KnownStep(init, last, pings, prev);
      hide Known, Candidates;
    }
  }

  /** Whatever is drawn and however ties are sorted: if a listed server other than the previous one has a ping, such a
      server is chosen, and of the places of such servers no more than the draw says, and fewer than twenty and than
      all of them, have a smaller ping, while more than the draw says have none that is greater. */
  lemma FewAreFaster(r: int, n: nat, ids: seq<int>, pings: seq<int>, prev: int, draw: nat)
    requires n > 0 && GoodJump(r, n, ids, pings, prev, draw)
    requires exists k :: 0 <= k < |ids| && ids[k] != prev && 0 <= ids[k] < |pings| && pings[ids[k]] > -1
    ensures r in ids && r != prev && 0 <= r < |pings| && pings[r] > -1
    ensures var places := set k | 0 <= k < |ids| && ids[k] != prev && 0 <= ids[k] < |pings| && pings[ids[k]] > -1;
            var faster := set k | k in places && pings[ids[k]] < pings[r];
            var notSlower := set k | k in places && pings[ids[k]] <= pings[r];
            && |places| > 0
            && |faster| <= draw % (if |places| < 20 then |places| else 20) < |notSlower|
            && |faster| < |places| && |faster| < 20
  {
    var k :| 0 <= k < |ids| && ids[k] != prev && 0 <= ids[k] < |pings| && pings[ids[k]] > -1;
    assert ids[k] in Candidates(ids, prev);
    hide Known, Candidates, Faster, NotSlower;
    Ranks(ids, pings, prev, pings[r]);
    var places := set k | 0 <= k < |ids| && ids[k] != prev && 0 <= ids[k] < |pings| && pings[ids[k]] > -1;
    assert places == PingedAt(ids, pings, prev);
    assert (set k | k in places && pings[ids[k]] < pings[r]) == FasterAt(ids, pings, prev, pings[r]);
    assert (set k | k in places && pings[ids[k]] <= pings[r]) == NotSlowerAt(ids, pings, prev, pings[r]);
  }

  /** The places of the servers other than the previous one. */
  function OthersAt(ids: seq<int>, prev: int): set<int> {
    set k | 0 <= k < |ids| && ids[k] != prev
  }

  lemma OthersStep(ids: seq<int>, x: int, prev: int)
    ensures OthersAt(ids + [x], prev) == OthersAt(ids, prev) + (if x != prev then {|ids|} else {})
    ensures |ids| !in OthersAt(ids, prev)
    ensures Candidates(ids + [x], prev) == Candidates(ids, prev) + if x != prev then [x] else []
  {
    assert (ids + [x])[..|ids|] == ids;
    assert forall k :: 0 <= k < |ids| ==> (ids + [x])[k] == ids[k];
  }

  lemma {:induction false} CandidateAt(ids: seq<int>, prev: int, i: nat) returns (k: nat)
    requires i <= |Candidates(ids, prev)|
    ensures |Candidates(ids, prev)| == |OthersAt(ids, prev)|
    ensures k <= |ids| && |OthersAt(ids[..k], prev)| == i
    ensures i < |Candidates(ids, prev)| ==> k < |ids| && ids[k] == Candidates(ids, prev)[i] != prev
  {
    hide Candidates, OthersAt;
    if ids == [] {
      NoOthers(prev);
      k := 0;
    } else {
      var init, x := ids[..|ids| - 1], ids[|ids| - 1];
      assert ids == init + [x];
      OthersStep(init, x, prev);
      var c := Candidates(init, prev);
      if i < |Candidates(ids, prev)| {
        k := CandidateAt(init, prev, if i < |c| then i else |c|);
        if i < |c| {
          assert ids[..k] == init[..k];
        } else {
          var _ := CandidateAt(init, prev, 0);
          k := |init|;
        }
      } else {
        var _ := CandidateAt(init, prev, 0);
        k := |ids|;
        assert ids[..k] == ids;
      }
    }
  }

  lemma NoOthers(prev: int)
    ensures Candidates([], prev) == [] && OthersAt([], prev) == {}
  {
  }

  /** Without any ping the draw counts through the places of the servers other than the previous one, and through all
      servers if there is no other one. */
  lemma DrawCounts(r: int, n: nat, ids: seq<int>, pings: seq<int>, prev: int, draw: nat) returns (k: nat)
    requires n > 0 && GoodJump(r, n, ids, pings, prev, draw)
    requires forall x :: x in ids && x != prev && 0 <= x < |pings| ==> pings[x] <= -1
    ensures if forall x :: x in ids ==> x == prev then r == draw % n
            else
              var others := set i | 0 <= i < |ids| && ids[i] != prev;
              && |others| > 0 && k in others && ids[k] == r
              && |(set i | i in others && i < k)| == draw % |others|
  {
    var c := Candidates(ids, prev);
    NoneKnown(c, pings);
    k := CandidateAt(ids, prev, if c == [] then 0 else draw % |c|);
    hide Known, Faster, NotSlower;
    if c != [] {
      assert c[0] in ids && c[0] != prev;
      var others := set i | 0 <= i < |ids| && ids[i] != prev;
      assert others == OthersAt(ids, prev);
      assert (set i | i in others && i < k) == OthersAt(ids[..k], prev);
    }
  }
}
