/** What the readers/writer lock promises its callers, for every run of any number of processes. */
module LockTheorems {
  import opened LockProtocol
  import opened LockSafety

  /** lock() has returned true for this mode and unlock() has not been called since. */
  predicate HasLock(s: State, p: Pid, mode: LockMode) {
    mode != NoLock && p in s.procs && s.procs[p].pc.Outside? && s.procs[p].mode == mode
  }

  // ------------------------------------------------------------------ exclusion

  lemma WriterOwnsAll(s: State, p: Pid)
    requires Inv(s) && HasLock(s, p, WriteLock)
    ensures WRITE_MUTEX in s.owner
    ensures forall m :: m in s.owner ==> s.owner[m].pid == p
  {
    Facts(s, p);
    hide Inv, LocalOk;
    assert WRITE_MUTEX in Held(s.procs[p]);
  }

  lemma ReaderOwnsSlot(s: State, q: Pid)
    requires Inv(s) && HasLock(s, q, ReadLock)
    ensures s.procs[q].rmutex in s.owner && s.owner[s.procs[q].rmutex].pid == q && IsSlot(s.procs[q].rmutex)
  {
    Facts(s, q);
    hide Inv;
    assert s.procs[q].rmutex in Held(s.procs[q]);
  }

  /** A writer excludes every other writer and every reader, at every point of every run,
      and while it has the lock nobody else owns any of the lock's mutexes. */
  lemma Exclusion(ss: seq<State>, es: seq<Event>, i: nat, p: Pid)
    requires IsRun(ss, es) && i < |ss| && HasLock(ss[i], p, WriteLock)
    ensures forall q, mode :: q != p ==> !HasLock(ss[i], q, mode)
    ensures forall m :: m in ss[i].owner ==> ss[i].owner[m].pid == p
  {
    RunKeepsInv(ss, es, i);
    hide Inv, Apply, Enabled, IsRun;
    WriterOwnsAll(ss[i], p);
    forall q, mode | q != p ensures !HasLock(ss[i], q, mode) {
      if HasLock(ss[i], q, WriteLock) {
        WriterOwnsAll(ss[i], q);
      }
      if HasLock(ss[i], q, ReadLock) {
        ReaderOwnsSlot(ss[i], q);
      }
    }
  }

  /** Two readers that both have the lock own different slots. */
  lemma ReadersHaveOwnSlots(ss: seq<State>, es: seq<Event>, i: nat, p: Pid, q: Pid)
    requires IsRun(ss, es) && i < |ss| && p != q
    requires HasLock(ss[i], p, ReadLock) && HasLock(ss[i], q, ReadLock)
    ensures ss[i].procs[p].rmutex != ss[i].procs[q].rmutex
  {
    RunKeepsInv(ss, es, i);
    hide Inv, Apply, Enabled, IsRun;
    ReaderOwnsSlot(ss[i], p);
    ReaderOwnsSlot(ss[i], q);
  }

  /** A crash releases everything the process held and nothing else. */
  lemma CrashReleases(ss: seq<State>, es: seq<Event>, i: nat, p: Pid)
    requires IsRun(ss, es) && i < |es| && es[i] == Crash(p)
    ensures forall m :: m in ss[i + 1].owner <==> m in ss[i].owner && ss[i].owner[m].pid != p
    ensures forall q, mode :: q != p ==> (HasLock(ss[i + 1], q, mode) <==> HasLock(ss[i], q, mode))
  {
    RunKeepsInv(ss, es, i);
    var s, s' := ss[i], ss[i + 1];
    assert Enabled(s, es[i]) && s' == Apply(s, es[i]);
    assert s' == Remove(s, p);
    hide LocalOk, Held, Cover, Apply, Enabled, IsRun;
    forall m | m in s.owner && s.owner[m].pid != p ensures Exists(s'.procs, m) {
      HeldIsOpen(s'.procs[s.owner[m].pid], m);
    }
  }

  // ------------------------------------------------------------------ what one kernel call can do

  predicate InScan(pr: Proc) {
    match pr.pc
    case OpenSlot(_) => true
    case TrySlot(_) => true
    case CloseBusy(_) => true
    case CreateSlot(_) => true
    case TryNew(_) => true
    case CloseFailed(_) => true
    case EndScan(_, _) => true
    case _ => false
  }

  predicate Returned(pr: Proc, pr': Proc) {
    pr'.pc.Outside? ==>
      && (pr'.pc.result <==> pr'.mode != NoLock)
      && (pr'.pc.result ==> pr'.mode == if pr.pc.EndScan? then ReadLock else WriteLock)
      && (pr.pc.WaitW? ==> !pr'.pc.result)
  }

  predicate ScanKept(s: State, pr: Proc, pr': Proc) {
    InScan(pr') ==>
      || (InScan(pr) && pr'.seen == pr.seen)
      || (pr.pc.WaitW? && pr'.seen == SlotOwners(s.owner))
  }

  predicate LettingGo(pr: Proc) {
    pr.pc.ReleaseRead? || pr.pc.CloseRead? || pr.pc.ReleaseSlot? || pr.pc.CloseSlot? || pr.pc.ReleaseW?
  }

  /** Where unlock() goes from one kernel call to the next. */
  function LetGoNext(pr: Proc): Pc
    requires LettingGo(pr)
  {
    match pr.pc
    case ReleaseRead(next) => CloseRead(next)
    case CloseRead(next) => Resume(pr, next).pc
    case ReleaseSlot(i, got, next) => CloseSlot(i, got, next)
    case CloseSlot(i, got, next) => if i + 1 < |pr.rmutexes| then ReleaseSlot(i + 1, got, next) else ReleaseW(next)
    case ReleaseW(next) => Resume(pr, next).pc
  }

  lemma LetGoFlow(s: State, p: Pid, ok: bool)
    requires p in s.procs && CanAdvance(s, p) && LettingGo(s.procs[p])
    ensures LetGo(s, p, ok).procs[p].pc == LetGoNext(s.procs[p])
    ensures !s.procs[p].pc.ReleaseW? ==> LetGo(s, p, ok).procs[p].rmutexes == s.procs[p].rmutexes
    ensures s.procs[p].pc.ReleaseW? || s.procs[p].pc.CloseRead? ==> LetGo(s, p, ok).procs[p].mode == NoLock
  {
    hide LetGo;
  }

  /** Where a reader under the write mutex may go from one kernel call to the next. */
  predicate ScanNext(pc: Pc, pc': Pc) {
    match pc
    case OpenSlot(idx) => pc' == TrySlot(idx) || pc' == CreateSlot(idx)
    case TrySlot(idx) => pc' == EndScan(true, false) || pc' == CloseBusy(idx)
    case CloseBusy(idx) => pc' == if idx + 1 < MAX_READERS then OpenSlot(idx + 1) else EndScan(false, true)
    case CreateSlot(idx) => pc' == TryNew(idx) || pc' == EndScan(false, false)
    case TryNew(idx) => pc' == EndScan(true, false) || pc' == CloseFailed(idx)
    case CloseFailed(idx) => pc' == EndScan(false, false)
    case EndScan(got, _) => pc' == Outside(got)
    case _ => false
  }

  lemma ScanFlow(s: State, p: Pid, ok: bool)
    requires p in s.procs && CanAdvance(s, p) && InScan(s.procs[p])
    ensures ScanNext(s.procs[p].pc, ScanSlots(s, p, ok).procs[p].pc)
  {
    hide Take, Exists, Release, WithHandlesOf;
  }

  lemma ScanSeen(s: State, p: Pid, ok: bool)
    requires p in s.procs && CanAdvance(s, p) && InScan(s.procs[p])
    ensures ScanSlots(s, p, ok).procs[p].seen == s.procs[p].seen
  {
    hide ScanSlots, CanAdvance;
  }

  lemma ScanKeepsSlots(s: State, p: Pid, ok: bool)
    requires p in s.procs && CanAdvance(s, p) && InScan(s.procs[p])
    ensures ScanSlots(s, p, ok).procs[p].rmutexes == s.procs[p].rmutexes
  {
    hide ScanSlots, CanAdvance;
  }

  lemma ScanMode(s: State, p: Pid, ok: bool)
    requires p in s.procs && CanAdvance(s, p) && InScan(s.procs[p])
    ensures var pr, pr' := s.procs[p], ScanSlots(s, p, ok).procs[p];
            pr'.mode == if pr'.pc == Outside(true) then ReadLock else pr.mode
  {
    hide ScanSlots, CanAdvance;
  }

  /** Where a writer under the write mutex may go from one kernel call to the next. */
  predicate CollectNext(pc: Pc, pc': Pc) {
    match pc
    case Enumerate(idx, block) =>
      if idx + 1 < MAX_READERS then pc' == Enumerate(idx + 1, block) else pc' == WaitAll(block) || pc' == Outside(true)
    case WaitAll(_) => pc' == Outside(true) || (pc'.ReleaseSlot? && pc'.i == 0 && pc'.next == Return(false))
    case _ => false
  }

  /** What a writer's kernel call under the write mutex does to its process. */
  predicate CollectKept(pr: Proc, pr': Proc) {
    && CollectNext(pr.pc, pr'.pc)
    && (pr'.rmutexes == pr.rmutexes || (pr.pc.Enumerate? && pr'.rmutexes == pr.rmutexes + [pr.pc.idx as int]))
    && (pr'.pc.Outside? ==> pr'.mode == WriteLock)
  }

  lemma EnumerateFlow(pr: Proc, found: bool)
    requires pr.pc.Enumerate?
    ensures CollectKept(pr, Enumerated(pr, found))
  {
  }

  lemma CollectFlow(s: State, p: Pid, ok: bool)
    requires p in s.procs && CanAdvance(s, p) && (s.procs[p].pc.Enumerate? || s.procs[p].pc.WaitAll?)
    ensures CollectKept(s.procs[p], CollectSlots(s, p, ok).procs[p])
  {
    hide TakeAll, Exists, CanTakeAll, Enumerated;
    if s.procs[p].pc.Enumerate? {
      EnumerateFlow(s.procs[p], Exists(s.procs, s.procs[p].pc.idx));
    }
  }

  lemma EnterFlow(s: State, p: Pid, ok: bool)
    requires p in s.procs && CanAdvance(s, p) && (s.procs[p].pc.CreateW? || s.procs[p].pc.WaitW?)
    ensures var pc, pc' := s.procs[p].pc, EnterLock(s, p, ok).procs[p].pc;
            || pc' == Outside(false) || (pc.CreateW? && pc' == WaitW(pc.want, pc.block))
            || (pc.WaitW? && pc' == if pc.want == ReadLock then OpenSlot(0) else Enumerate(0, pc.block))
    ensures var pr, pr' := s.procs[p], EnterLock(s, p, ok).procs[p];
            pr'.mode == pr.mode && pr'.rmutexes == pr.rmutexes && (pr'.pc.OpenSlot? ==> pr'.seen == SlotOwners(s.owner))
  {
    hide Take, SlotOwners;
  }

  lemma EnterEffect(s: State, p: Pid, ok: bool)
    requires p in s.procs && CanAdvance(s, p) && (s.procs[p].pc.CreateW? || s.procs[p].pc.WaitW?)
    ensures ScanKept(s, s.procs[p], EnterLock(s, p, ok).procs[p])
    ensures s.procs[p].mode == NoLock ==> Returned(s.procs[p], EnterLock(s, p, ok).procs[p])
  {
    EnterFlow(s, p, ok);
    hide EnterLock, CanAdvance;
  }

  lemma ScanEffect(s: State, p: Pid, ok: bool)
    requires p in s.procs && CanAdvance(s, p) && InScan(s.procs[p])
    ensures ScanKept(s, s.procs[p], ScanSlots(s, p, ok).procs[p])
    ensures s.procs[p].mode == NoLock ==> Returned(s.procs[p], ScanSlots(s, p, ok).procs[p])
  {
    ScanFlow(s, p, ok);
    ScanSeen(s, p, ok);
    ScanMode(s, p, ok);
    hide ScanSlots, CanAdvance;
  }

  lemma CollectEffect(s: State, p: Pid, ok: bool)
    requires p in s.procs && CanAdvance(s, p) && (s.procs[p].pc.Enumerate? || s.procs[p].pc.WaitAll?)
    ensures !InScan(CollectSlots(s, p, ok).procs[p])
    ensures Returned(s.procs[p], CollectSlots(s, p, ok).procs[p])
  {
    CollectFlow(s, p, ok);
    hide CollectSlots, CanAdvance;
  }

  lemma LetGoEffect(s: State, p: Pid, ok: bool)
    requires p in s.procs && CanAdvance(s, p) && LettingGo(s.procs[p])
    ensures !InScan(LetGo(s, p, ok).procs[p])
    ensures s.procs[p].pc != ReleaseW(Return(true)) && s.procs[p].pc != CloseRead(Return(true)) ==>
              Returned(s.procs[p], LetGo(s, p, ok).procs[p])
  {
    LetGoFlow(s, p, ok);
    hide LetGo, CanAdvance;
  }

  // ------------------------------------------------------------------ what lock() returns

  lemma NoLockYet(pr: Proc)
    requires LocalOk(pr) && (pr.pc.CreateW? || pr.pc.WaitW? || InScan(pr))
    ensures pr.mode == NoLock
  {
    hide SlotsOk, IsSlot;
  }

  /** A lock() call that returns at this step returns true exactly if the process now has the
      lock, in the mode that was asked for; the inner unlock() of a call is not such a step. */
  lemma LockReturns(s: State, p: Pid, ok: bool)
    requires Inv(s) && p in s.procs && CanAdvance(s, p)
    requires s.procs[p].pc != ReleaseW(Return(true)) && s.procs[p].pc != CloseRead(Return(true))
    ensures Returned(s.procs[p], AdvanceProc(s, p, ok).procs[p])
  {
    hide Inv, Cover, Held, LocalOk, Returned, EnterLock, ScanSlots, CollectSlots, LetGo, Reassign;
    Facts(s, p);
    var pr, pc := s.procs[p], s.procs[p].pc;
    if pc.CreateW? || pc.WaitW? || InScan(pr) {
      NoLockYet(pr);
    }
    if pc.CreateW? || pc.WaitW? {
      EnterEffect(s, p, ok);
    } else if pc.Enumerate? || pc.WaitAll? {
      CollectEffect(s, p, ok);
    } else if LettingGo(pr) {
      LetGoEffect(s, p, ok);
    } else {
      ScanEffect(s, p, ok);
    }
  }

  // ------------------------------------------------------------------ slots and handles

  /** A slot created under the write mutex has no owner, so the wait on it cannot fail. */
  lemma NewSlotIsFree(ss: seq<State>, es: seq<Event>, i: nat, p: Pid)
    requires IsRun(ss, es) && i < |ss| && p in ss[i].procs
    ensures ss[i].procs[p].pc.TryNew? ==> ss[i].procs[p].pc.idx !in ss[i].owner
    ensures !ss[i].procs[p].pc.CloseFailed?
  {
    RunKeepsInv(ss, es, i);
    hide Apply, Enabled, IsRun, Inv;
    NewSlotFree(ss[i], p);
  }

  /** Outside lock() and unlock() a process has exactly 0, 1 or |rmutexes| slot handles open,
      besides the write mutex, and no slot twice; a writer starts to enumerate with none. */
  lemma HandleAccounting(ss: seq<State>, es: seq<Event>, i: nat, p: Pid)
    requires IsRun(ss, es) && i < |ss| && p in ss[i].procs
    ensures var pr := ss[i].procs[p];
            && (pr.pc.Outside? ==> pr.handles == OpenHandles(pr))
            && (pr.pc.Outside? && pr.mode != WriteLock ==> pr.rmutexes == [])
            && (pr.pc.WaitW? ==> pr.rmutexes == [])
            && SlotsOk(pr.rmutexes)
  {
    RunKeepsInv(ss, es, i);
    hide Apply, Enabled, IsRun;
    Facts(ss[i], p);
    hide Inv, Held, Cover, SlotsOk;
  }

  function OpenHandles(pr: Proc): multiset<int> {
    (if pr.wopen then multiset{WRITE_MUTEX} else multiset{}) +
    match pr.mode
    case NoLock => multiset{}
    case ReadLock => multiset{pr.rmutex}
    case WriteLock => multiset(pr.rmutexes)
  }

  /** At step j process p took the write mutex, and its scan saw those owners. */
  predicate ScanBegan(ss: seq<State>, es: seq<Event>, j: nat, p: Pid, seen: map<int, Pid>)
    requires j < |es| <= |ss|
  {
    && es[j].Advance? && es[j].p == p
    && p in ss[j].procs && ss[j].procs[p].pc.WaitW?
    && seen == SlotOwners(ss[j].owner)
  }

  lemma BeginsOutside(pr: Proc, want: LockMode, block: bool)
    ensures !InScan(BeginLock(pr, want, block)) && !InScan(BeginUnlock(pr, Return(true)))
  {
  }

  lemma ScanQuiet(s: State, e: Event, p: Pid)
    requires Enabled(s, e) && !e.Advance? && p in Apply(s, e).procs && InScan(Apply(s, e).procs[p])
    ensures p in s.procs && Apply(s, e).procs[p] == s.procs[p]
  {
    hide AdvanceProc, Exists, BeginLock, BeginUnlock;
    if e.CallLock? {
      BeginsOutside(s.procs[e.p], e.want, e.block);
    } else if e.CallUnlock? {
      BeginsOutside(s.procs[e.p], NoLock, false);
    }
  }

  lemma ScanStep(s: State, e: Event, p: Pid)
    requires Enabled(s, e) && p in Apply(s, e).procs && InScan(Apply(s, e).procs[p])
    ensures p in s.procs
    ensures var seen := Apply(s, e).procs[p].seen;
            || (InScan(s.procs[p]) && seen == s.procs[p].seen)
            || (e.Advance? && e.p == p && s.procs[p].pc.WaitW? && seen == SlotOwners(s.owner))
  {
    hide AdvanceProc, Exists, SlotOwners;
    if e.Advance? {
      ScanAdvance(s, e.p, e.ok);
    } else {
      ScanQuiet(s, e, p);
    }
  }

  lemma ScanAdvance(s: State, p: Pid, ok: bool)
    requires p in s.procs && CanAdvance(s, p)
    ensures ScanKept(s, s.procs[p], AdvanceProc(s, p, ok).procs[p])
  {
    hide EnterLock, ScanSlots, CollectSlots, LetGo;
    var pr, pc := s.procs[p], s.procs[p].pc;
    if pc.CreateW? || pc.WaitW? {
      EnterEffect(s, p, ok);
    } else if pc.Enumerate? || pc.WaitAll? {
      CollectEffect(s, p, ok);
    } else if LettingGo(pr) {
      LetGoEffect(s, p, ok);
    } else {
      ScanEffect(s, p, ok);
    }
  }

  lemma {:induction false} ScanHasBegun(ss: seq<State>, es: seq<Event>, i: nat, p: Pid)
    requires IsRun(ss, es) && i < |ss| && p in ss[i].procs && InScan(ss[i].procs[p])
    ensures exists j :: 0 <= j < i && ScanBegan(ss, es, j, p, ss[i].procs[p].seen)
  {
    hide Apply, Enabled;
    assert i > 0;
    assert Enabled(ss[i - 1], es[i - 1]) && ss[i] == Apply(ss[i - 1], es[i - 1]);
    ScanStep(ss[i - 1], es[i - 1], p);
    if InScan(ss[i - 1].procs[p]) && ss[i].procs[p].seen == ss[i - 1].procs[p].seen {
      ScanHasBegun(ss, es, i - 1, p);
    } else {
      assert ScanBegan(ss, es, i - 1, p, ss[i].procs[p].seen);
    }
  }

  /** "Too many readers" is reported only if, when the scan began, all MAX_READERS slots were
      owned by pairwise different processes, none of them the one that asks. */
  lemma TooManyReaders(ss: seq<State>, es: seq<Event>, i: nat, p: Pid)
    requires IsRun(ss, es) && i < |ss| && p in ss[i].procs
    requires ss[i].procs[p].pc.EndScan? && ss[i].procs[p].pc.tooMany
    ensures exists j :: && 0 <= j < i && ScanBegan(ss, es, j, p, SlotOwners(ss[j].owner))
                        && Injective(SlotOwners(ss[j].owner))
                        && forall k :: 0 <= k < MAX_READERS ==>
                             k in SlotOwners(ss[j].owner) && SlotOwners(ss[j].owner)[k] != p
  {
    ScanHasBegun(ss, es, i, p);
    RunKeepsInv(ss, es, i);
    hide Apply, Enabled, IsRun;
    Facts(ss[i], p);
    hide Inv, LocalOk, Held;
    var j :| 0 <= j < i && ScanBegan(ss, es, j, p, ss[i].procs[p].seen);
  }

  // ------------------------------------------------------------------ no deadlock

  /** A process that waits for the write mutex owns nothing: upgrades and downgrades let go first. */
  lemma WaiterOwnsNothing(ss: seq<State>, es: seq<Event>, i: nat, p: Pid)
    requires IsRun(ss, es) && i < |ss| && p in ss[i].procs && ss[i].procs[p].pc.WaitW?
    ensures forall m :: m in ss[i].owner ==> ss[i].owner[m].pid != p
  {
    RunKeepsInv(ss, es, i);
    hide Apply, Enabled, IsRun, LocalOk, Cover;
  }

  /** Whoever owns a slot while another process holds the write mutex is a reader, or a reader
      about to release; neither of them waits for anything. */
  lemma SlotOwnerIsReader(s: State, p: Pid, m: int)
    requires Inv(s) && p in s.procs && WRITE_MUTEX in Held(s.procs[p])
    requires m in s.owner && m != WRITE_MUTEX && s.owner[m].pid != p
    ensures var q := s.owner[m].pid;
            q in s.procs && (HasLock(s, q, ReadLock) || s.procs[q].pc.ReleaseRead?)
  {
    Facts(s, p);
    Facts(s, s.owner[m].pid);
    assert m in Held(s.procs[s.owner[m].pid]);
    assert WRITE_MUTEX !in Held(s.procs[s.owner[m].pid]);
    hide Inv, LocalOk, Cover;
  }

  /** While a process holds the write mutex, no step of another process gives any slot an owner. */
  lemma SlotOwnersShrink(s: State, e: Event, p: Pid)
    requires Inv(s) && Enabled(s, e) && p in s.procs && e.p != p && WRITE_MUTEX in Held(s.procs[p])
    ensures forall m :: m in Apply(s, e).owner && m != WRITE_MUTEX ==>
              m in s.owner && s.owner[m].pid == Apply(s, e).owner[m].pid
  {
    var s' := Apply(s, e);
    forall m | m in s'.owner && m != WRITE_MUTEX
      ensures m in s.owner && s.owner[m].pid == s'.owner[m].pid
    {
      if m !in s.owner || s.owner[m].pid != s'.owner[m].pid {
        Facts(s, p);
        OwnerChange(s, e, m);
        Facts(s, e.p);
        assert false;
      }
    }
  }

  /** A mutex gets a new owner only by a wait of that owner; slots are waited for under the write mutex. */
  lemma OwnerChange(s: State, e: Event, m: int)
    requires Enabled(s, e) && m != WRITE_MUTEX
    requires m in Apply(s, e).owner && (m !in s.owner || s.owner[m].pid != Apply(s, e).owner[m].pid)
    ensures e.Advance? && e.p in s.procs && WRITE_MUTEX in Held(s.procs[e.p])
  {
    hide LocalOk, Cover;
  }

  /** Inside a call and not blocked. */
  predicate Running(s: State, p: Pid) {
    p in s.procs && CanAdvance(s, p)
  }

  /** If some process is inside a call and no process outside has the lock, then some process
      inside a call can make its next kernel call: the protocol alone never gets stuck. */
  lemma NoDeadlock(ss: seq<State>, es: seq<Event>, i: nat, p: Pid)
    requires IsRun(ss, es) && i < |ss|
    requires p in ss[i].procs && !ss[i].procs[p].pc.Outside?
    requires forall q, mode :: !HasLock(ss[i], q, mode)
    ensures exists q :: Running(ss[i], q)
  {
    hide Apply, Enabled, IsRun, LocalOk, Held, Cover;
    RunKeepsInv(ss, es, i);
    var s := ss[i];
    if !Running(s, p) {
      var w := p;
      Stuck(s, p);
      if s.procs[p].pc.WaitW? {
        w := s.owner[WRITE_MUTEX].pid;
        HolderIsInside(s, w);
      }
      if !Running(s, w) {
        Stuck(s, w);
        var m :| m in s.procs[w].rmutexes && !CanTake(s.owner, m, w);
        SlotOwnerIsReader(s, w, m);
        assert Running(s, s.owner[m].pid);
      }
    }
  }

  lemma Stuck(s: State, p: Pid)
    requires Inv(s) && p in s.procs && !s.procs[p].pc.Outside? && !CanAdvance(s, p)
    ensures (s.procs[p].pc.WaitW? && WRITE_MUTEX in s.owner) || s.procs[p].pc.WaitAll?
    ensures s.procs[p].pc.WaitAll? ==>
              WRITE_MUTEX in Held(s.procs[p]) && WRITE_MUTEX !in s.procs[p].rmutexes &&
              exists m :: m in s.procs[p].rmutexes && !CanTake(s.owner, m, p)
  {
    Facts(s, p);
    hide Inv, Increasing, Cover;
  }

  lemma HolderIsInside(s: State, w: Pid)
    requires Inv(s) && WRITE_MUTEX in s.owner && s.owner[WRITE_MUTEX].pid == w
    requires forall q, mode :: !HasLock(s, q, mode)
    ensures w in s.procs && !s.procs[w].pc.Outside? && !s.procs[w].pc.WaitW?
  {
    hide LocalOk, Cover;
    assert WRITE_MUTEX in Held(s.procs[w]);
    assert !HasLock(s, w, WriteLock) && !HasLock(s, w, ReadLock);
  }

  // ------------------------------------------------------------------ bounded calls

  /** Upper bound on the kernel calls a process still makes before its call returns, when it
      has opened n slots as a writer. */
  function CallsLeft(pc: Pc, n: nat): int {
    match pc
    case Outside(_) => 0
    case CreateW(_, _) => 3 * MAX_READERS + 6
    case WaitW(_, _) => 3 * MAX_READERS + 5
    case OpenSlot(idx) => 3 * (MAX_READERS - idx) + 4
    case TrySlot(idx) => 3 * (MAX_READERS - idx) + 3
    case CloseBusy(idx) => 3 * (MAX_READERS - idx) + 2
    case CreateSlot(_) => 4
    case TryNew(_) => 3
    case CloseFailed(_) => 2
    case EndScan(_, _) => 1
    case Enumerate(idx, _) => 3 * MAX_READERS - idx + 3
    case WaitAll(_) => 2 * n + 2
    case ReleaseRead(next) => 2 + CallsAfter(next)
    case CloseRead(next) => 1 + CallsAfter(next)
    case ReleaseSlot(i, _, next) => 2 * (n - i) + 1 + CallsAfter(next)
    case CloseSlot(i, _, next) => 2 * (n - i) + CallsAfter(next)
    case ReleaseW(next) => 1 + CallsAfter(next)
  }

  function CallsAfter(next: Then): nat {
    if next.Return? then 0 else 3 * MAX_READERS + 6
  }

  lemma {:induction false} SlotsAreFew(ms: seq<int>, bound: nat)
    requires SlotsOk(ms) && bound <= MAX_READERS && forall m :: m in ms ==> m < bound
    ensures |ms| <= bound
  {
    if ms != [] {
      var last, rest := ms[|ms| - 1], ms[..|ms| - 1];
      assert last in ms;
      assert forall m :: m in rest ==> m in ms;
      forall m | m in rest ensures m < last {
        var k :| 0 <= k < |rest| && rest[k] == m;
        assert ms[k] < ms[|ms| - 1];
      }
      SlotsAreFew(rest, last);
    }
  }

  lemma ScanShrinks(pc: Pc, pc': Pc, n: nat)
    requires ScanNext(pc, pc')
    requires pc.OpenSlot? || pc.TrySlot? || pc.CloseBusy? ==> pc.idx < MAX_READERS
    ensures 0 <= CallsLeft(pc', n) < CallsLeft(pc, n)
  {
  }

  lemma CollectShrinks(pc: Pc, pc': Pc, n: nat, n': nat)
    requires CollectNext(pc, pc')
    requires n' == n || (pc.Enumerate? && n' == n + 1)
    requires pc.Enumerate? ==> n <= pc.idx < MAX_READERS
    ensures 0 <= CallsLeft(pc', n') < CallsLeft(pc, n)
  {
  }

  lemma LetGoShrinks(pr: Proc, n': nat)
    requires LettingGo(pr)
    requires !pr.pc.ReleaseW? ==> n' == |pr.rmutexes|
    requires pr.pc.ReleaseSlot? || pr.pc.CloseSlot? ==> pr.pc.i < |pr.rmutexes|
    ensures 0 <= CallsLeft(LetGoNext(pr), n') < CallsLeft(pr.pc, |pr.rmutexes|)
  {
  }

  /** Every kernel call brings the return of lock() or unlock() nearer. */
  predicate Nearer(pr: Proc, pr': Proc) {
    0 <= CallsLeft(pr'.pc, |pr'.rmutexes|) < CallsLeft(pr.pc, |pr.rmutexes|)
  }

  lemma EnterNearer(s: State, p: Pid, ok: bool)
    requires p in s.procs && CanAdvance(s, p) && (s.procs[p].pc.CreateW? || s.procs[p].pc.WaitW?)
    ensures Nearer(s.procs[p], EnterLock(s, p, ok).procs[p])
  {
    EnterFlow(s, p, ok);
    hide EnterLock, CanAdvance;
  }

  lemma CollectNearer(s: State, p: Pid, ok: bool)
    requires p in s.procs && CanAdvance(s, p) && (s.procs[p].pc.Enumerate? || s.procs[p].pc.WaitAll?)
    requires LocalOk(s.procs[p])
    ensures Nearer(s.procs[p], CollectSlots(s, p, ok).procs[p])
  {
    CollectFlow(s, p, ok);
    var pr, pr' := s.procs[p], CollectSlots(s, p, ok).procs[p];
    hide CollectSlots, CanAdvance, CollectNext, CallsLeft;
    if pr.pc.Enumerate? {
      SlotsAreFew(pr.rmutexes, pr.pc.idx);
    }
    hide LocalOk;
    CollectShrinks(pr.pc, pr'.pc, |pr.rmutexes|, |pr'.rmutexes|);
  }

  lemma LetGoNearer(s: State, p: Pid, ok: bool)
    requires p in s.procs && CanAdvance(s, p) && LettingGo(s.procs[p])
    ensures Nearer(s.procs[p], LetGo(s, p, ok).procs[p])
  {
    LetGoFlow(s, p, ok);
    hide LetGo, LetGoNext, CallsLeft;
    LetGoShrinks(s.procs[p], |LetGo(s, p, ok).procs[p].rmutexes|);
  }

  lemma ScanNearer(s: State, p: Pid, ok: bool)
    requires p in s.procs && CanAdvance(s, p) && InScan(s.procs[p])
    requires LocalOk(s.procs[p])
    ensures Nearer(s.procs[p], ScanSlots(s, p, ok).procs[p])
  {
    ScanFlow(s, p, ok);
    ScanKeepsSlots(s, p, ok);
    hide ScanSlots, CanAdvance, ScanNext, CallsLeft;
    ScanShrinks(s.procs[p].pc, ScanSlots(s, p, ok).procs[p].pc, |s.procs[p].rmutexes|);
  }

  /** Every kernel call brings the return of lock() or unlock() nearer. */
  lemma CallsShrink(s: State, p: Pid, ok: bool)
    requires Inv(s) && p in s.procs && CanAdvance(s, p)
    ensures Nearer(s.procs[p], AdvanceProc(s, p, ok).procs[p])
  {
    Facts(s, p);
    hide Inv, Cover, Held, LocalOk, EnterLock, ScanSlots, CollectSlots, LetGo, Nearer;
    var pr, pc := s.procs[p], s.procs[p].pc;
    if pc.CreateW? || pc.WaitW? {
      EnterNearer(s, p, ok);
    } else if pc.Enumerate? || pc.WaitAll? {
      CollectNearer(s, p, ok);
    } else if LettingGo(pr) {
      LetGoNearer(s, p, ok);
    } else {
      ScanNearer(s, p, ok);
    }
  }

  lemma AllAreSlots(ms: seq<int>)
    requires SlotsOk(ms)
    ensures forall m :: m in ms ==> m < MAX_READERS
  {
  }

  lemma OutsideBound(result: bool, n: nat)
    ensures CallsLeft(Outside(result), n) == 0
  {
  }

  lemma UnlockBound(pr: Proc, next: Then)
    requires |pr.rmutexes| <= MAX_READERS
    ensures CallsLeft(BeginUnlock(pr, next).pc, |pr.rmutexes|) <= 2 * MAX_READERS + 1 + CallsAfter(next)
  {
  }

  /** No call makes more than 5 * MAX_READERS + 7 kernel calls; with NoDeadlock, the lock as a
      whole can only come to rest with every process outside or a lock in use. */
  lemma CallsAreBounded(pr: Proc, want: LockMode, block: bool)
    requires SlotsOk(pr.rmutexes) && pr.pc.Outside?
    ensures CallsLeft(BeginLock(pr, want, block).pc, |pr.rmutexes|) <= 5 * MAX_READERS + 7
    ensures CallsLeft(BeginUnlock(pr, Return(true)).pc, |pr.rmutexes|) <= 2 * MAX_READERS + 1
  {
    hide SlotsOk, BeginUnlock, CallsLeft;
    AllAreSlots(pr.rmutexes);
    SlotsAreFew(pr.rmutexes, MAX_READERS);
    UnlockBound(pr, Return(true));
    UnlockBound(pr, Relock(want, block));
    OutsideBound(true, |pr.rmutexes|);
    OutsideBound(false, |pr.rmutexes|);
  }
}
