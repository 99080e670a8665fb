/** QtLockedFile as an object (src/celovpn/qtlockedfile_win.cpp): lock() and unlock() step by step, with the
    other processes free to run between any two kernel calls. Every kernel call is one step of
    LockProtocol, so what LockTheorems says of its runs holds of these methods. */
module LockedFile {
  import opened LockProtocol
  import opened LockTheorems
  import opened LockOutcomes

  // ------------------------------------------------------------------ what a kernel call can answer

  /** What a process knows besides its program counter. */
  predicate Keeps(pr: Proc, pr': Proc) {
    pr'.mode == pr.mode && pr'.wopen == pr.wopen && pr'.rmutex == pr.rmutex && pr'.rmutexes == pr.rmutexes
  }

  predicate EnterMoves(pr: Proc, pr': Proc)
    requires pr.pc.CreateW? || pr.pc.WaitW?
  {
    match pr.pc
    case CreateW(want, block) =>
      || (pr'.pc == WaitW(want, block) && Keeps(pr.(wopen := true), pr'))
      || (!pr.wopen && pr'.pc == Outside(false) && Keeps(pr, pr'))
    case WaitW(want, block) =>
      && Keeps(pr, pr')
      && (pr'.pc == (if want == ReadLock then OpenSlot(0) else Enumerate(0, block)) ||
               (!block && pr'.pc == Outside(false)))
  }

  predicate ScanMoves(pr: Proc, pr': Proc)
    requires InScan(pr)
  {
    match pr.pc
    case OpenSlot(idx) =>
      (pr'.pc == TrySlot(idx) && Keeps(pr.(rmutex := idx), pr')) || (pr'.pc == CreateSlot(idx) && Keeps(pr, pr'))
    case TrySlot(idx) => (pr'.pc == EndScan(true, false) || pr'.pc == CloseBusy(idx)) && Keeps(pr, pr')
    case CloseBusy(idx) =>
      if idx + 1 < MAX_READERS then pr'.pc == OpenSlot(idx + 1) && Keeps(pr, pr')
      else pr'.pc == EndScan(false, true) && Keeps(pr.(rmutex := -1), pr')
    case CreateSlot(idx) =>
      || (pr'.pc == TryNew(idx) && Keeps(pr.(rmutex := idx), pr'))
      || (pr'.pc == EndScan(false, false) && Keeps(pr.(rmutex := -1), pr'))
    case TryNew(idx) => (pr'.pc == EndScan(true, false) || pr'.pc == CloseFailed(idx)) && Keeps(pr, pr')
    case CloseFailed(idx) => pr'.pc == EndScan(false, false) && Keeps(pr.(rmutex := -1), pr')
    case EndScan(got, _) => pr'.pc == Outside(got) && Keeps(if got then pr.(mode := ReadLock) else pr, pr')
  }

  predicate CollectMoves(pr: Proc, pr': Proc)
    requires pr.pc.Enumerate? || pr.pc.WaitAll?
  {
    match pr.pc
    case Enumerate(idx, block) =>
      && (pr'.rmutexes == pr.rmutexes || pr'.rmutexes == pr.rmutexes + [idx as int])
      && pr'.pc == (if idx + 1 < MAX_READERS then Enumerate(idx + 1, block)
                    else if pr'.rmutexes == [] then Outside(true) else WaitAll(block))
      && Keeps(pr.(rmutexes := pr'.rmutexes, mode := if pr'.pc.Outside? then WriteLock else pr.mode), pr')
    case WaitAll(block) =>
      && Keeps(pr.(mode := WriteLock), pr')
      && (pr'.pc == Outside(true) || exists got :: pr'.pc == ReleaseSlot(0, got, Return(false)))
  }

  predicate LetGoMoves(pr: Proc, pr': Proc)
    requires LettingGo(pr)
  {
    match pr.pc
    case ReleaseRead(next) => pr'.pc == CloseRead(next) && Keeps(pr, pr')
    case CloseRead(next) => pr'.pc == After(next) && Keeps(pr.(rmutex := -1, mode := NoLock), pr')
    case ReleaseSlot(i, got, next) => pr'.pc == CloseSlot(i, got, next) && Keeps(pr, pr')
    case CloseSlot(i, got, next) =>
      pr'.pc == (if i + 1 < |pr.rmutexes| then ReleaseSlot(i + 1, got, next) else ReleaseW(next)) && Keeps(pr, pr')
    case ReleaseW(next) => pr'.pc == After(next) && Keeps(pr.(rmutexes := [], mode := NoLock), pr')
  }

  /** Where unlock() comes back to. */
  function After(next: Then): Pc {
    match next
    case Return(r) => Outside(r)
    case Relock(want, block) => CreateW(want, block)
  }

  predicate Busy(pr: Proc) {
    !pr.pc.Outside? && (pr.pc.ReleaseSlot? || pr.pc.CloseSlot? ==> pr.pc.i < |pr.rmutexes|)
  }

  predicate Moves(pr: Proc, pr': Proc)
    requires Busy(pr)
  {
    pr'.open == pr.open &&
    if pr.pc.CreateW? || pr.pc.WaitW? then EnterMoves(pr, pr')
    else if pr.pc.Enumerate? || pr.pc.WaitAll? then CollectMoves(pr, pr')
    else if LettingGo(pr) then LetGoMoves(pr, pr')
    else ScanMoves(pr, pr')
  }

  /** A wait without a timeout. */
  predicate Blocks(pc: Pc) {
    (pc.WaitW? || pc.WaitAll?) && pc.block
  }

  lemma EnterCall(s: State, p: Pid, ok: bool)
    requires p in s.procs && CanAdvance(s, p) && (s.procs[p].pc.CreateW? || s.procs[p].pc.WaitW?)
    ensures EnterMoves(s.procs[p], EnterLock(s, p, ok).procs[p])
    ensures EnterLock(s, p, ok).procs[p].open == s.procs[p].open
  {
    hide Take, SlotOwners;
  }

  lemma LookCall(s: State, p: Pid, ok: bool)
    requires p in s.procs && CanAdvance(s, p) && s.procs[p].pc.OpenSlot?
    ensures ScanMoves(s.procs[p], ScanSlots(s, p, ok).procs[p])
    ensures ScanSlots(s, p, ok).procs[p].open == s.procs[p].open
  {
    hide ScanSlots, CanAdvance;
  }

  lemma TryCall(s: State, p: Pid, ok: bool)
    requires p in s.procs && CanAdvance(s, p) && s.procs[p].pc.TrySlot?
    ensures ScanMoves(s.procs[p], ScanSlots(s, p, ok).procs[p])
    ensures ScanSlots(s, p, ok).procs[p].open == s.procs[p].open
  {
    hide ScanSlots, CanAdvance;
  }

  lemma SkipCall(s: State, p: Pid, ok: bool)
    requires p in s.procs && CanAdvance(s, p) && (s.procs[p].pc.CloseBusy? || s.procs[p].pc.CloseFailed?)
    ensures ScanMoves(s.procs[p], ScanSlots(s, p, ok).procs[p])
    ensures ScanSlots(s, p, ok).procs[p].open == s.procs[p].open
  {
    hide ScanSlots, CanAdvance;
  }

  lemma NewCall(s: State, p: Pid, ok: bool)
    requires p in s.procs && CanAdvance(s, p) && (s.procs[p].pc.CreateSlot? || s.procs[p].pc.TryNew? ||
             s.procs[p].pc.EndScan?)
    ensures ScanMoves(s.procs[p], ScanSlots(s, p, ok).procs[p])
    ensures ScanSlots(s, p, ok).procs[p].open == s.procs[p].open
  {
    hide ScanSlots, CanAdvance;
  }

  lemma OpenCall(s: State, p: Pid, ok: bool)
    requires p in s.procs && CanAdvance(s, p) && s.procs[p].pc.Enumerate?
    ensures CollectMoves(s.procs[p], CollectSlots(s, p, ok).procs[p])
    ensures CollectSlots(s, p, ok).procs[p].open == s.procs[p].open
  {
    hide TakeAll, Exists, CanTakeAll;
  }

  lemma AllCall(s: State, p: Pid, ok: bool)
    requires p in s.procs && CanAdvance(s, p) && s.procs[p].pc.WaitAll?
    ensures CollectMoves(s.procs[p], CollectSlots(s, p, ok).procs[p])
    ensures CollectSlots(s, p, ok).procs[p].open == s.procs[p].open
  {
    hide TakeAll, Exists, CanTakeAll;
  }

  lemma ReaderMoves(pr: Proc)
    requires pr.pc.ReleaseRead? || pr.pc.CloseRead?
    ensures LetGoMoves(pr, LetGoProc(pr)) && LetGoProc(pr).open == pr.open
  {
  }

  lemma WriterMoves(pr: Proc)
    requires pr.pc.ReleaseSlot? || pr.pc.CloseSlot? || pr.pc.ReleaseW?
    requires pr.pc.ReleaseSlot? || pr.pc.CloseSlot? ==> pr.pc.i < |pr.rmutexes|
    ensures LetGoMoves(pr, LetGoProc(pr)) && LetGoProc(pr).open == pr.open
  {
  }

  lemma LetGoCall(s: State, p: Pid, ok: bool)
    requires p in s.procs && CanAdvance(s, p) && LettingGo(s.procs[p])
    ensures LetGoMoves(s.procs[p], LetGo(s, p, ok).procs[p])
    ensures LetGo(s, p, ok).procs[p].open == s.procs[p].open
  {
    hide LetGo, LetGoProc, LetGoMoves;
    if s.procs[p].pc.ReleaseRead? || s.procs[p].pc.CloseRead? {
      ReaderMoves(s.procs[p]);
    } else {
      WriterMoves(s.procs[p]);
    }
  }

  lemma CallMoves(s: State, p: Pid, ok: bool)
    requires p in s.procs && CanAdvance(s, p) && Busy(s.procs[p])
    ensures Moves(s.procs[p], AdvanceProc(s, p, ok).procs[p])
  {
    hide EnterLock, ScanSlots, CollectSlots, LetGo, CanAdvance, EnterMoves, ScanMoves, CollectMoves, LetGoMoves;
    var pc := s.procs[p].pc;
    if pc.CreateW? || pc.WaitW? {
      EnterCall(s, p, ok);
    } else if pc.Enumerate? {
      OpenCall(s, p, ok);
    } else if pc.WaitAll? {
      AllCall(s, p, ok);
    } else if LettingGo(s.procs[p]) {
      LetGoCall(s, p, ok);
    } else if pc.OpenSlot? {
      LookCall(s, p, ok);
    } else if pc.TrySlot? {
      TryCall(s, p, ok);
    } else if pc.CloseBusy? || pc.CloseFailed? {
      SkipCall(s, p, ok);
    } else {
      NewCall(s, p, ok);
    }
  }

  lemma OnlyWaitsBlock(s: State, p: Pid)
    requires p in s.procs && Busy(s.procs[p]) && !CanAdvance(s, p)
    ensures Blocks(s.procs[p].pc)
  {
    hide CanTake, CanTakeAll;
  }

  // ------------------------------------------------------------------ the kernel

  /** From the first event on, es' goes on without starting or ending a call of p, or p itself. */
  predicate GoesOn(es: seq<Event>, es': seq<Event>, p: Pid) {
    es <= es' && forall k :: |es| <= k < |es'| ==> !Restarts(es'[k], p)
  }

  /** The named mutexes of one lock, shared by all processes; ss and es are its history. */
  class Kernel {
    var s: State
    ghost var ss: seq<State>
    ghost var es: seq<Event>

    ghost predicate Valid()
      reads this
    {
      IsRun(ss, es) && s == ss[|ss| - 1]
    }

    constructor ()
      ensures Valid() && s == Init
    {
      s := Init;
      ss, es := [Init], [];
    }

    /** Other processes may do anything here; about process p nothing changes. */
    method Others(p: Pid)
      requires Valid() && p in s.procs
      modifies this
      ensures Valid() && p in s.procs && s.procs[p] == old(s.procs[p])
      ensures GoesOn(old(es), es, p)
    {
    }

    method Do(e: Event)
      requires Valid() && Enabled(s, e)
      modifies this
      ensures Valid() && s == Apply(old(s), e) && es == old(es) + [e]
    {
      hide Apply, Enabled;
      var t := Apply(s, e);
      RunGrows(ss, es, e);
      ss, es, s := ss + [t], es + [e], t;
    }

    /** The next kernel call of process p; done is false if it is a wait that does not end. */
    method Call(p: Pid) returns (done: bool)
      requires Valid() && p in s.procs && Busy(s.procs[p])
      modifies this
      ensures Valid() && p in s.procs
      ensures if done then Moves(old(s.procs[p]), s.procs[p])
              else s.procs[p] == old(s.procs[p]) && Blocks(s.procs[p].pc)
      ensures GoesOn(old(es), es, p)
    {
      hide AdvanceProc, Moves, CanAdvance;
      Others(p);
      done := CanAdvance(s, p);
      if done {
        var ok: bool := *;
        CallMoves(s, p, ok);
        Do(Advance(p, ok));
      } else {
        OnlyWaitsBlock(s, p);
      }
    }
  }

  lemma RunGrows(ss: seq<State>, es: seq<Event>, e: Event)
    requires IsRun(ss, es) && Enabled(ss[|ss| - 1], e)
    ensures IsRun(ss + [Apply(ss[|ss| - 1], e)], es + [e])
  {
    hide Apply, Enabled;
    var ss', es' := ss + [Apply(ss[|ss| - 1], e)], es + [e];
    forall i | 0 <= i < |es'| ensures Enabled(ss'[i], es'[i]) && ss'[i + 1] == Apply(ss'[i], es'[i]) {
      assert i < |es| ==> Enabled(ss[i], es[i]) && ss[i + 1] == Apply(ss[i], es[i]);
    }
  }

  // ------------------------------------------------------------------ the lock object

  /** What a process was asked for, and the place of that event in the history. */
  datatype Asked = Asked(at: nat, what: Event)

  /** Process p has not been asked for anything since. */
  predicate LastAsked(es: seq<Event>, a: Asked, p: Pid) {
    a.at < |es| && es[a.at] == a.what && a.what.p == p && forall j :: a.at < j < |es| ==> !Restarts(es[j], p)
  }

  datatype Outcome = Returns(ok: bool) | Waits

  class QtLockedFile {
    const kernel: Kernel
    const p: Pid
    const isOpen: bool
    var m_lock_mode: LockMode
    var wmutex: bool
    var rmutex: int
    var rmutexes: seq<int>
    /** The last thing in the kernel's history that this process was asked for. */
    ghost var asked: Asked

    function Me(): Proc
      reads this, kernel
      requires p in kernel.s.procs
    {
      kernel.s.procs[p]
    }

    ghost predicate Known()
      reads this, kernel
    {
      kernel.Valid() && p in kernel.s.procs && Me().open == isOpen && LastAsked(kernel.es, asked, p)
    }

    /** The fields say what the kernel's bookkeeping says about this process. */
    ghost predicate Valid()
      reads this, kernel
    {
      && Known()
      && m_lock_mode == Me().mode && wmutex == Me().wopen && rmutex == Me().rmutex && rmutexes == Me().rmutexes
    }

    constructor (kernel: Kernel, p: Pid, isOpen: bool)
      requires kernel.Valid() && p !in kernel.s.procs
      modifies kernel
      ensures Valid() && this.kernel == kernel && this.p == p && this.isOpen == isOpen
      ensures m_lock_mode == NoLock && Me().pc.Outside?
    {
      this.kernel, this.p, this.isOpen := kernel, p, isOpen;
      m_lock_mode, wmutex, rmutex, rmutexes := NoLock, false, -1, [];
      new;
      asked := Asked(|kernel.es|, Spawn(p, isOpen));
      kernel.Do(Spawn(p, isOpen));
    }

    method Call() returns (done: bool)
      requires Known() && Busy(Me())
      modifies kernel
      ensures Known()
      ensures if done then Moves(old(Me()), Me()) else Me() == old(Me()) && Blocks(Me().pc)
    {
      hide Moves, Busy, Blocks;
      ghost var before := Me();
      done := kernel.Call(p);
      if done {
        StaysOpen(before, Me());
      }
    }

    /** unlock() after its first checks; next is what follows it. */
    method LetGo(ghost next: Then)
      requires Valid() && m_lock_mode != NoLock && Me().pc == FirstOf(Me(), next)
      modifies this, kernel
      ensures Valid() && Me().pc == After(next) && m_lock_mode == NoLock && asked == old(asked)
    {
      hide IsRun, EnterMoves, ScanMoves, CollectMoves, LastAsked, Kernel.Valid;
      if m_lock_mode == ReadLock {
        LetGoSlot(next);
        rmutex := -1;
      } else {
        LetGoSlots(next);
        rmutexes := [];
        var _ := Call();   // ReleaseMutex(wmutex)
      }
      m_lock_mode := NoLock;
    }

    method LetGoSlot(ghost next: Then)
      requires Known() && Me().pc == ReleaseRead(next)
      requires wmutex == Me().wopen && rmutexes == Me().rmutexes
      modifies kernel
      ensures Known() && Me().pc == After(next) && Me().mode == NoLock && Me().rmutex == -1
      ensures wmutex == Me().wopen && rmutexes == Me().rmutexes
    {
      hide IsRun, EnterMoves, ScanMoves, CollectMoves, LastAsked, Kernel.Valid;
      var _ := Call();   // ReleaseMutex(rmutex)
      var _ := Call();   // CloseHandle(rmutex)
    }

    method LetGoSlots(ghost next: Then)
      requires Valid() && m_lock_mode == WriteLock && Me().pc == FirstOf(Me(), next)
      modifies kernel
      ensures Valid() && Me().pc == ReleaseW(next)
    {
      hide IsRun, EnterMoves, ScanMoves, CollectMoves, LastAsked, Kernel.Valid;
      var i := 0;
      while i < |rmutexes|
        invariant Valid() && i <= |rmutexes| && m_lock_mode == WriteLock
        invariant if i < |rmutexes| then Me().pc.ReleaseSlot? && Me().pc.i == i && Me().pc.next == next
                  else Me().pc == ReleaseW(next)
      {
        var _ := Call();   // ReleaseMutex(mutex)
        var _ := Call();   // CloseHandle(mutex)
        i := i + 1;
      }
    }

    /** A call of lock() or unlock() begins. */
    method Ask(e: Event)
      requires Valid() && Me().pc.Outside? && e.p == p && (e.CallLock? || e.CallUnlock?)
      modifies this`asked, kernel
      ensures Known() && asked == Asked(|old(kernel.es)|, e)
      ensures Me() == if e.CallLock? then BeginLock(old(Me()), e.want, e.block)
                      else if isOpen then BeginUnlock(old(Me()), Return(true))
                      else old(Me()).(pc := Outside(false))
    {
      hide IsRun;
      BeginsOpen(Me(), e);
      asked := Asked(|kernel.es|, e);
      hide BeginLock, BeginUnlock;
      kernel.Do(e);
    }

    method Unlock() returns (ok: bool)
      requires Valid() && Me().pc.Outside?
      modifies this, kernel
      ensures Valid() && Me().pc == Outside(ok) && ok == isOpen
      ensures m_lock_mode == if ok then NoLock else old(m_lock_mode)
    {
      hide IsRun, Moves, LastAsked;
      Ask(CallUnlock(p));
      if !isOpen {
        return false;
      }
      if m_lock_mode == NoLock {
        return true;
      }
      LetGo(Return(true));
      return true;
    }

    /** The write mutex, opened when it is first needed. */
    method TakeWriteMutex(mode: LockMode, block: bool) returns (r: Outcome)
      requires Valid() && m_lock_mode == NoLock && Me().pc == CreateW(mode, block)
      modifies this, kernel
      ensures Valid() && m_lock_mode == NoLock && (r.Waits? ==> block) && asked == old(asked)
      ensures Me().pc == if r.Waits? then WaitW(mode, true)
                         else if !r.ok then Outside(false)
                         else if mode == ReadLock then OpenSlot(0) else Enumerate(0, block)
    {
      hide IsRun, ScanMoves, CollectMoves, LetGoMoves, InScan, LastAsked;
      var _ := Call();   // CreateMutex, unless wmutex is open already
      wmutex := Me().wopen;
      if !wmutex {
        return Returns(false);
      }
      var done := Call();   // WaitForSingleObject(wmutex)
      if !done {
        return Waits;
      }
      return Returns(Me().pc != Outside(false));
    }

    /** Under the write mutex, with no lock yet; rmutex is being looked for. */
    ghost predicate Looking()
      reads this, kernel
    {
      && Known() && m_lock_mode == NoLock == Me().mode
      && wmutex == Me().wopen && rmutexes == Me().rmutexes
    }

    /** getMutexHandle(idx, false) */
    method OpenSlotMutex(idx: nat) returns (mutex: int)
      requires Looking() && Me().pc == OpenSlot(idx)
      modifies kernel
      ensures Looking() && (mutex == idx || mutex == -1)
      ensures if mutex == idx then Me().pc == TrySlot(idx) && Me().rmutex == idx else Me().pc == CreateSlot(idx)
    {
      var _ := Call();
      return if Me().pc == TrySlot(idx) then idx else -1;
    }

    /** getMutexHandle(idx, true) */
    method CreateSlotMutex(idx: nat) returns (mutex: int)
      requires Looking() && Me().pc == CreateSlot(idx)
      modifies kernel
      ensures Looking() && Me().rmutex == mutex && (mutex == idx || mutex == -1)
      ensures Me().pc == if mutex == idx then TryNew(idx) else EndScan(false, false)
    {
      var _ := Call();
      return if Me().pc == TryNew(idx) then idx else -1;
    }

    /** waitMutex(rmutex, false) */
    method TrySlotMutex(idx: nat) returns (got: bool)
      requires Looking() && (Me().pc == TrySlot(idx) || Me().pc == TryNew(idx))
      modifies kernel
      ensures Looking() && Me().rmutex == old(Me().rmutex)
      ensures Me().pc == if got then EndScan(true, false)
                         else if old(Me().pc.TrySlot?) then CloseBusy(idx) else CloseFailed(idx)
    {
      var _ := Call();
      return Me().pc == EndScan(true, false);
    }

    /** CloseHandle(rmutex) */
    method CloseSlotMutex(idx: nat)
      requires Looking() && (Me().pc == CloseBusy(idx) || Me().pc == CloseFailed(idx))
      modifies kernel
      ensures Looking()
      ensures if old(Me().pc.CloseFailed?) then Me().pc == EndScan(false, false) && Me().rmutex == -1
              else if idx + 1 < MAX_READERS then Me().pc == OpenSlot(idx + 1)
              else Me().pc == EndScan(false, true) && Me().rmutex == -1
    {
      var _ := Call();
    }

    /** ReleaseMutex(wmutex) at the end of the scan. */
    method ReleaseScan()
      requires Looking() && Me().pc.EndScan?
      modifies kernel
      ensures Known() && Me().pc == Outside(old(Me().pc.got)) && Me().rmutex == old(Me().rmutex)
      ensures Me().mode == (if old(Me().pc.got) then ReadLock else NoLock)
      ensures wmutex == Me().wopen && rmutexes == Me().rmutexes
    {
      var _ := Call();
    }

    /** The scan for a free slot: idx is where it ended. */
    method FindSlot() returns (idx: nat)
      requires Looking() && Me().pc == OpenSlot(0)
      modifies this`rmutex, kernel
      ensures Looking()
      ensures if idx >= MAX_READERS then Me().pc == EndScan(false, true) && Me().rmutex == -1
              else if rmutex == -1 then Me().pc == CreateSlot(idx)
              else Me().pc == EndScan(true, false) && rmutex == Me().rmutex == idx
    {
      hide IsRun, Moves, Busy, LastAsked, Kernel.Valid;
      idx := 0;
      while idx < MAX_READERS
        invariant Looking() && idx <= MAX_READERS
        invariant idx < MAX_READERS ==> Me().pc == OpenSlot(idx)
        invariant idx >= MAX_READERS ==> Me().pc == EndScan(false, true) && Me().rmutex == -1
      {
        rmutex := OpenSlotMutex(idx);
        if rmutex == -1 {
          break;
        }
        var got := TrySlotMutex(idx);
        if got {
          break;
        }
        CloseSlotMutex(idx);
        idx := idx + 1;
      }
    }

    /** What follows the scan: a slot that does not exist is created; on a failure its handle is closed again. */
    method TakeSlot(idx: nat) returns (ok: bool)
      requires Looking()
      requires if idx >= MAX_READERS then Me().pc == EndScan(false, true) && Me().rmutex == -1
               else if rmutex == -1 then Me().pc == CreateSlot(idx)
               else Me().pc == EndScan(true, false) && rmutex == Me().rmutex == idx
      modifies this`rmutex, kernel
      ensures Looking() && Me().pc.EndScan? && Me().pc.got == ok && rmutex == Me().rmutex
    {
      hide IsRun, Moves, Busy, LastAsked, Kernel.Valid;
      ok := true;
      if idx >= MAX_READERS {
        rmutex := -1;
        ok := false;
      } else if rmutex == -1 {
        rmutex := CreateSlotMutex(idx);
        if rmutex == -1 {
          ok := false;
        } else {
          var got := TrySlotMutex(idx);
          if !got {
            ok := false;
          }
        }
      }
      if !ok && rmutex != -1 {
        CloseSlotMutex(idx);
        rmutex := -1;
      }
    }

    /** The reader's part of lock(). */
    method LockForReading() returns (ok: bool)
      requires Valid() && m_lock_mode == NoLock && Me().pc == OpenSlot(0)
      modifies this, kernel
      ensures Valid() && Me().pc == Outside(ok) && m_lock_mode == if ok then ReadLock else NoLock
      ensures asked == old(asked)
    {
      hide IsRun, Moves, Busy, LastAsked, Kernel.Valid;
      var idx := FindSlot();
      ok := TakeSlot(idx);
      ReleaseScan();
      if ok {
        m_lock_mode := ReadLock;
      }
    }

    /** getMutexHandle(i, false) for a writer; the handle is appended to rmutexes if there is one. */
    method CollectSlot(i: nat, block: bool)
      requires Valid() && m_lock_mode == NoLock && Me().pc == Enumerate(i, block) && i < MAX_READERS
      modifies this, kernel
      ensures Known() && wmutex == Me().wopen && rmutex == Me().rmutex && rmutexes == Me().rmutexes
      ensures m_lock_mode == NoLock && asked == old(asked)
      ensures Me().pc == if i + 1 < MAX_READERS then Enumerate(i + 1, block)
                         else if rmutexes == [] then Outside(true) else WaitAll(block)
      ensures Me().mode == if Me().pc.Outside? then WriteLock else NoLock
    {
      ghost var before := Me();
      var _ := Call();
      if |Me().rmutexes| > |rmutexes| {
        rmutexes := rmutexes + [i];
      }
    }

    /** The loop over all slots there may be. */
    method CollectAll(block: bool)
      requires Valid() && m_lock_mode == NoLock && Me().pc == Enumerate(0, block)
      modifies this, kernel
      ensures Known() && wmutex == Me().wopen && rmutex == Me().rmutex && rmutexes == Me().rmutexes
      ensures m_lock_mode == NoLock && asked == old(asked)
      ensures Me().pc == if rmutexes == [] then Outside(true) else WaitAll(block)
      ensures Me().mode == if Me().pc.Outside? then WriteLock else NoLock
    {
      hide IsRun, Moves, Busy, LastAsked, Kernel.Valid;
      var i := 0;
      while i < MAX_READERS
        invariant i <= MAX_READERS && m_lock_mode == NoLock && asked == old(asked)
        invariant i < MAX_READERS ==> Valid() && Me().pc == Enumerate(i, block)
        invariant Known() && wmutex == Me().wopen && rmutex == Me().rmutex && rmutexes == Me().rmutexes
        invariant i == MAX_READERS ==>
          && Me().pc == (if rmutexes == [] then Outside(true) else WaitAll(block))
          && Me().mode == if Me().pc.Outside? then WriteLock else NoLock
      {
        CollectSlot(i, block);
        i := i + 1;
      }
    }

    /** The writer's part of lock(). */
    method LockForWriting(block: bool) returns (r: Outcome)
      requires Valid() && m_lock_mode == NoLock && Me().pc == Enumerate(0, block)
      modifies this, kernel
      ensures r.Returns? ==>
        Valid() && Me().pc == Outside(r.ok) && m_lock_mode == if r.ok then WriteLock else NoLock
      ensures r.Waits? ==> Known() && block && Me().pc == WaitAll(true)
      ensures asked == old(asked)
    {
      hide IsRun, Moves, Busy, LastAsked, Kernel.Valid;
      CollectAll(block);
      if |rmutexes| > 0 {
        var a := WaitForAll(block);
        if a.Waits? {
          return Waits;
        }
        if !a.ok {
          m_lock_mode := WriteLock;
          LetGo(Return(false));
          return Returns(false);
        }
      }
      m_lock_mode := WriteLock;
      return Returns(true);
    }

    /** WaitForMultipleObjects(rmutexes) */
    method WaitForAll(block: bool) returns (r: Outcome)
      requires Known() && Me().pc == WaitAll(block) && rmutexes == Me().rmutexes != []
      requires wmutex == Me().wopen && rmutex == Me().rmutex
      modifies kernel
      ensures Known() && rmutexes == Me().rmutexes && wmutex == Me().wopen && rmutex == Me().rmutex
      ensures if r.Waits? then block && Me().pc == WaitAll(true)
              else Me().mode == WriteLock && if r.ok then Me().pc == Outside(true)
                                             else Me().pc == FirstOf(Me(), Return(false))
    {
      var done := Call();
      if !done {
        return Waits;
      }
      return Returns(Me().pc == Outside(true));
    }

    /** Ask for the lock in some mode. It returns true exactly if the lock is held in that mode then, and
        otherwise nothing is held; or it waits for ever, for the write mutex or for the slots. It returns false
        exactly if one of the causes of a failure has occurred since it was called. */
    method Lock(mode: LockMode, block: bool) returns (r: Outcome)
      requires Valid() && Me().pc.Outside?
      modifies this, kernel
      ensures r.Returns? ==> Valid() && Me().pc == Outside(r.ok)
      ensures r.Returns? && r.ok ==> isOpen && m_lock_mode == mode
      ensures r.Returns? && !r.ok ==> m_lock_mode == if isOpen then NoLock else old(m_lock_mode)
      ensures r == Returns(true) && mode == WriteLock ==> forall q, m :: q != p ==> !HasLock(kernel.s, q, m)
      ensures LastAsked(kernel.es, Asked(|old(kernel.es)|, CallLock(p, mode, block)), p)
      ensures r.Returns? ==> (!r.ok <==> Caused(kernel.ss, kernel.es, |old(kernel.es)|, |kernel.es|, p))
      ensures r.Waits? ==> Known() && block && mode != NoLock
      ensures r.Waits? ==> Me().pc == WaitW(mode, true) || Me().pc == WaitAll(true)
    {
      r := LockAs(mode, block);
      if r.Returns? {
        ReturnsFalseIff(kernel.ss, kernel.es, asked.at, |kernel.es|, p);
      }
      if r == Returns(true) && mode == WriteLock {
        Exclusion(kernel.ss, kernel.es, |kernel.ss| - 1, p);
      }
    }

    method LockAs(mode: LockMode, block: bool) returns (r: Outcome)
      requires Valid() && Me().pc.Outside?
      modifies this, kernel
      ensures r.Returns? ==> Valid() && Me().pc == Outside(r.ok)
      ensures r.Returns? && r.ok ==> isOpen && m_lock_mode == mode
      ensures r.Returns? && !r.ok ==> m_lock_mode == if isOpen then NoLock else old(m_lock_mode)
      ensures r.Waits? ==> Known() && block && mode != NoLock
      ensures r.Waits? ==> Me().pc == WaitW(mode, true) || Me().pc == WaitAll(true)
      ensures Known() && asked == Asked(|old(kernel.es)|, CallLock(p, mode, block))
    {
      hide IsRun, Moves, LastAsked;
      Ask(CallLock(p, mode, block));
      if !isOpen {
        return Returns(false);
      }
      if mode == NoLock {
        if m_lock_mode != NoLock {
          LetGo(Return(true));
        }
        return Returns(true);
      }
      if mode == m_lock_mode {
        return Returns(true);
      }
      if m_lock_mode != NoLock {
        LetGo(Relock(mode, block));
      }
      var taken := TakeWriteMutex(mode, block);
      if taken != Returns(true) {
        return taken;
      }
      if mode == ReadLock {
        var ok := LockForReading();
        return Returns(ok);
      }
      r := LockForWriting(block);
    }
  }

  lemma BeginsOpen(pr: Proc, e: Event)
    ensures BeginUnlock(pr, Return(true)).open == pr.open
    ensures e.CallLock? ==> BeginLock(pr, e.want, e.block).open == pr.open
  {
  }

  lemma StaysOpen(pr: Proc, pr': Proc)
    requires Busy(pr) && Moves(pr, pr')
    ensures pr'.open == pr.open
  {
  }

  /** The first kernel call of unlock() for a process that has the lock. */
  function FirstOf(pr: Proc, next: Then): Pc {
    if pr.mode == ReadLock then ReleaseRead(next)
    else if pr.rmutexes == [] then ReleaseW(next)
    else ReleaseSlot(0, if pr.pc.ReleaseSlot? then pr.pc.got else true, next)
  }
}
