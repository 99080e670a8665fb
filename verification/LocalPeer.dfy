/** Single-instance election on top of the lock (src/celovpn/qtlocalpeer.cpp): isClient() asks
    for the write lock without blocking and never gives it back. */
module LocalPeer {
  import opened LockProtocol
  import opened LockSafety
  import opened LockTheorems
  import opened LockOutcomes

  /** Peers call lock() only from isClient(), and never unlock() while they run. */
  predicate PeerEvent(e: Event) {
    match e
    case CallLock(_, want, block) => want == WriteLock && !block
    case CallUnlock(_) => false
    case _ => true
  }

  ghost predicate IsPeerRun(ss: seq<State>, es: seq<Event>) {
    IsRun(ss, es) && forall i :: 0 <= i < |es| ==> PeerEvent(es[i])
  }

  /** isClient() has returned false in this process: it is the instance that listens. */
  predicate IsPrimary(s: State, p: Pid) {
    p in s.procs && s.procs[p].pc == Outside(true)
  }

  predicate PeerOk(pr: Proc) {
    && pr.rmutexes == []
    && (forall m :: m in pr.handles ==> m == WRITE_MUTEX)
    && match pr.pc
       case Outside(r) => if r then pr.mode == WriteLock && pr.open else pr.mode == NoLock
       case CreateW(want, block) => want == WriteLock && !block && pr.mode == NoLock && pr.open
       case WaitW(want, block) => want == WriteLock && !block && pr.mode == NoLock && pr.open
       case Enumerate(_, _) => pr.mode == NoLock && pr.open
       case _ => false
  }

  ghost predicate AllPeersOk(s: State) {
    forall p :: p in s.procs ==> PeerOk(s.procs[p])
  }

  lemma PeerEnters(s: State, p: Pid, ok: bool)
    requires p in s.procs && CanAdvance(s, p) && PeerOk(s.procs[p]) && (s.procs[p].pc.CreateW? || s.procs[p].pc.WaitW?)
    ensures PeerOk(EnterLock(s, p, ok).procs[p])
  {
    hide CanTake, Take, SlotOwners;
  }

  /** There are no slots to collect. */
  lemma PeerCollects(s: State, p: Pid, ok: bool)
    requires p in s.procs && CanAdvance(s, p) && PeerOk(s.procs[p]) && s.procs[p].pc.Enumerate?
    requires !Exists(s.procs, s.procs[p].pc.idx)
    ensures PeerOk(CollectSlots(s, p, ok).procs[p])
  {
    hide Exists, Opened;
  }

  lemma NoSlots(s: State, m: nat)
    requires AllPeersOk(s)
    ensures !Exists(s.procs, m)
  {
  }

  lemma PeerAdvance(s: State, p: Pid, ok: bool)
    requires AllPeersOk(s) && p in s.procs && CanAdvance(s, p)
    ensures PeerOk(AdvanceProc(s, p, ok).procs[p])
  {
    hide Exists, EnterLock, CollectSlots, ScanSlots, LetGo;
    var pr := s.procs[p];
    assert PeerOk(pr);
    if pr.pc.Enumerate? {
      NoSlots(s, pr.pc.idx);
      PeerCollects(s, p, ok);
    } else {
      PeerEnters(s, p, ok);
    }
  }

  lemma PeerApply(s: State, e: Event)
    requires AllPeersOk(s) && Enabled(s, e) && PeerEvent(e)
    ensures AllPeersOk(Apply(s, e))
    ensures forall p :: IsPrimary(s, p) && e != Crash(p) && e != Destroy(p) ==> IsPrimary(Apply(s, e), p)
  {
    if e.Advance? {
      PeerAdvance(s, e.p, e.ok);
      hide AdvanceProc, PeerOk;
    } else if e.CallLock? {
      assert PeerOk(s.procs[e.p]);
      assert PeerOk(BeginLock(s.procs[e.p], e.want, e.block));
      hide PeerOk;
    }
  }

  lemma {:induction false} PeersStayOk(ss: seq<State>, es: seq<Event>, i: nat)
    requires IsPeerRun(ss, es) && i < |ss|
    ensures AllPeersOk(ss[i])
  {
    hide AllPeersOk, Apply, Enabled;
    if i == 0 {
      NoPeers();
    } else {
      PeersStayOk(ss, es, i - 1);
      assert Enabled(ss[i - 1], es[i - 1]);
      PeerApply(ss[i - 1], es[i - 1]);
    }
  }

  lemma NoPeers()
    ensures AllPeersOk(Init)
  {
  }

  /** The process does not end between two points of a run. */
  predicate LivesThrough(es: seq<Event>, j: nat, i: nat, p: Pid)
    requires j <= i <= |es|
  {
    forall k :: j <= k < i ==> es[k] != Crash(p) && es[k] != Destroy(p)
  }

  lemma {:induction false} PrimaryStays(ss: seq<State>, es: seq<Event>, j: nat, i: nat, p: Pid)
    requires IsPeerRun(ss, es) && j <= i < |ss| && IsPrimary(ss[j], p) && LivesThrough(es, j, i, p)
    ensures IsPrimary(ss[i], p)
    decreases i - j
  {
    hide AllPeersOk, Apply, Enabled, IsPrimary, PeerEvent;
    if j < i {
      PrimaryStays(ss, es, j, i - 1, p);
      PeersStayOk(ss, es, i - 1);
      assert Enabled(ss[i - 1], es[i - 1]);
      PeerApply(ss[i - 1], es[i - 1]);
    }
  }

  /** At most one living process has had isClient() return false, in every interleaving. */
  lemma SingleInstance(ss: seq<State>, es: seq<Event>, i: nat, j: nat, p: Pid, k: nat, q: Pid)
    requires IsPeerRun(ss, es) && j <= i < |ss| && k <= i
    requires IsPrimary(ss[j], p) && LivesThrough(es, j, i, p)
    requires IsPrimary(ss[k], q) && LivesThrough(es, k, i, q)
    ensures p == q
  {
    PrimaryStays(ss, es, j, i, p);
    PrimaryStays(ss, es, k, i, q);
    PeersStayOk(ss, es, i);
    assert PeerOk(ss[i].procs[p]) && PeerOk(ss[i].procs[q]);
    hide AllPeersOk, Apply, Enabled;
    assert HasLock(ss[i], p, WriteLock) && HasLock(ss[i], q, WriteLock);
    Exclusion(ss, es, i, p);
  }

  /** A process is turned away only if the system cannot create the write mutex for it, or at its wait while another
      one is, or is about to become, the primary instance; and one that took the write mutex becomes primary without
      another wait. */
  lemma ElectionIsFair(ss: seq<State>, es: seq<Event>, i: nat, p: Pid, ok: bool)
    requires IsPeerRun(ss, es) && i < |ss| && p in ss[i].procs && CanAdvance(ss[i], p)
    ensures var pr, pr' := ss[i].procs[p], AdvanceProc(ss[i], p, ok).procs[p];
            if pr.pc.CreateW? then pr'.pc.WaitW? || (pr'.pc == Outside(false) && !pr.wopen && !ok)
            else pr'.pc == Outside(true) || pr'.pc.Enumerate? ||
                 exists q :: q != p && (IsPrimary(ss[i], q) || (q in ss[i].procs && ss[i].procs[q].pc.Enumerate?))
  {
    PeersStayOk(ss, es, i);
    RunKeepsInv(ss, es, i);
    var s := ss[i];
    hide Apply, Enabled, IsRun;
    PeerAdvance(s, p, ok);
    assert PeerOk(s.procs[p]);
    if s.procs[p].pc.CreateW? {
      hide Inv, AllPeersOk, LocalOk, Held;
    } else if s.procs[p].pc.WaitW? {
      if !CanTake(s.owner, WRITE_MUTEX, p) {
        var q := s.owner[WRITE_MUTEX].pid;
        assert WRITE_MUTEX in Held(s.procs[q]) && PeerOk(s.procs[q]) by { hide LocalOk, Cover, Held, PeerOk; }
        hide Inv, AllPeersOk, LocalOk;
        assert IsPrimary(s, q) || s.procs[q].pc.Enumerate?;
      } else {
        hide Inv, AllPeersOk, Held, LocalOk;
      }
    } else {
      hide Inv, LocalOk, Held;
      NoSlots(s, s.procs[p].pc.idx);
      hide Exists, AllPeersOk;
    }
  }

  lemma HolderIsPrimary(s: State, p: Pid)
    requires AllPeersOk(s) && HasLock(s, p, WriteLock)
    ensures IsPrimary(s, p)
  {
    assert PeerOk(s.procs[p]);
  }

  lemma PeerEvents(es: seq<Event>, more: seq<Event>, p: Pid)
    requires (forall i :: 0 <= i < |es| ==> PeerEvent(es[i])) && OnlyAdvances(more, p)
    ensures var es' := es + [CallLock(p, WriteLock, false)] + more;
            forall i :: 0 <= i < |es'| ==> PeerEvent(es'[i])
  {
  }

  /** When nobody owns a mutex, the process whose isClient() runs next becomes the primary instance. */
  lemma FirstPeer(ss: seq<State>, es: seq<Event>, p: Pid) returns (ss': seq<State>, more: seq<Event>)
    requires IsPeerRun(ss, es) && ss[|es|].owner == map[]
    requires p in ss[|es|].procs && ss[|es|].procs[p].open && ss[|es|].procs[p].pc.Outside?
    ensures IsPeerRun(ss', es + [CallLock(p, WriteLock, false)] + more) && OnlyAdvances(more, p)
    ensures IsPrimary(ss'[|es| + 1 + |more|], p)
  {
    hide Apply, Enabled, AllPeersOk, HasLock, IsPrimary;
    ss', more := LockSucceedsAlone(ss, es, p, WriteLock, false);
    var es' := es + [CallLock(p, WriteLock, false)] + more;
    PeerEvents(es, more, p);
    PeersStayOk(ss', es', |es'|);
    HolderIsPrimary(ss'[|es'|], p);
  }
}
