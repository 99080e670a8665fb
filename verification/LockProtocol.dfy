/** The readers/writer lock that processes build from named kernel mutexes
    (src/celovpn/qtlockedfile_win.cpp), as a transition system: one step is one kernel
    call of one process, and any number of processes interleave. */
module LockProtocol {

  type Pid = nat

  /** MAXIMUM_WAIT_OBJECTS: slots are the mutexes 0 .. MAX_READERS - 1. */
  const MAX_READERS: nat := 64

  /** The write mutex; the source passes index -1 for it. */
  const WRITE_MUTEX: int := -1

  datatype LockMode = NoLock | ReadLock | WriteLock

  /** What happens when unlock() is done: return to the caller, or go on inside lock(). */
  datatype Then = Return(result: bool) | Relock(want: LockMode, block: bool)

  /** The kernel call a process makes next. */
  datatype Pc =
    | Outside(result: bool)                      // not inside lock() or unlock()
    | CreateW(want: LockMode, block: bool)       // CreateMutex on the write mutex
    | WaitW(want: LockMode, block: bool)         // WaitForSingleObject on the write mutex
    | OpenSlot(idx: nat)                         // reader: OpenMutex on slot idx
    | TrySlot(idx: nat)                          // reader: zero-timeout wait on the opened slot
    | CloseBusy(idx: nat)                        // reader: slot was owned, close it and go on
    | CreateSlot(idx: nat)                       // reader: slot did not exist, create it
    | TryNew(idx: nat)                           // reader: zero-timeout wait on the created slot
    | CloseFailed(idx: nat)                      // reader: that wait failed, close the slot
    | EndScan(got: bool, tooMany: bool)          // reader: ReleaseMutex on the write mutex
    | Enumerate(idx: nat, block: bool)           // writer: OpenMutex on slot idx
    | WaitAll(block: bool)                       // writer: WaitForMultipleObjects
    | ReleaseRead(next: Then)                    // unlock() of a reader
    | CloseRead(next: Then)
    | ReleaseSlot(i: nat, got: bool, next: Then) // unlock() of a writer, i-th opened slot
    | CloseSlot(i: nat, got: bool, next: Then)
    | ReleaseW(next: Then)

  /** One process with its one lock object and its kernel handle table. The field seen is
      history: the slot owners at the moment the scan for a free slot began. */
  datatype Proc = Proc(
    open: bool, pc: Pc, mode: LockMode, wopen: bool, rmutex: int, rmutexes: seq<int>,
    handles: multiset<int>, seen: map<int, Pid>)

  /** Kernel mutexes are recursive: an owner may take a mutex again. */
  datatype Own = Own(pid: Pid, depth: nat)

  datatype State = State(procs: map<Pid, Proc>, owner: map<int, Own>, abandoned: set<int>)

  datatype Event =
    | Spawn(p: Pid, open: bool)
    | CallLock(p: Pid, want: LockMode, block: bool)
    | CallUnlock(p: Pid)
    | Advance(p: Pid, ok: bool)   // ok settles what the kernel leaves open: creation, abandonment code
    | Destroy(p: Pid)
    | Crash(p: Pid)

  const Init := State(map[], map[], {})

  // ------------------------------------------------------------------ kernel

  /** A named mutex lives as long as some process has it open. */
  predicate Exists(procs: map<Pid, Proc>, m: int) {
    exists q :: q in procs && m in procs[q].handles
  }

  predicate CanTake(owner: map<int, Own>, m: int, p: Pid) {
    m in owner ==> owner[m].pid == p
  }

  function Take(owner: map<int, Own>, m: int, p: Pid): map<int, Own> {
    owner[m := Own(p, if m in owner then owner[m].depth + 1 else 1)]
  }

  predicate CanTakeAll(owner: map<int, Own>, ms: seq<int>, p: Pid) {
    forall m :: m in ms ==> CanTake(owner, m, p)
  }

  function TakeAll(owner: map<int, Own>, ms: seq<int>, p: Pid): map<int, Own> {
    map m | m in owner.Keys + (set x | x in ms) ::
      if m in ms then Own(p, if m in owner then owner[m].depth + 1 else 1) else owner[m]
  }

  /** ReleaseMutex by a process that is not the owner changes nothing. */
  function Release(owner: map<int, Own>, m: int, p: Pid): map<int, Own> {
    if m !in owner || owner[m].pid != p then owner
    else if owner[m].depth > 1 then owner[m := Own(p, owner[m].depth - 1)]
    else owner - {m}
  }

  /** The state after process p became pr, when mutexes nobody has open are destroyed. */
  function WithHandlesOf(s: State, p: Pid, pr: Proc): (t: State)
    ensures t.procs == s.procs[p := pr]
  {
    var procs := s.procs[p := pr];
    State(procs,
          map m | m in s.owner && Exists(procs, m) :: s.owner[m],
          set m | m in s.abandoned && Exists(procs, m))
  }

  function SlotOwners(owner: map<int, Own>): map<int, Pid> {
    map m | m in owner && m != WRITE_MUTEX :: owner[m].pid
  }

  // ------------------------------------------------------------------ lock() and unlock()

  function Resume(pr: Proc, next: Then): Proc {
    match next
    case Return(r) => pr.(pc := Outside(r))
    case Relock(want, block) => pr.(pc := CreateW(want, block))
  }

  /** The first lines of unlock(), up to its first kernel call. */
  function BeginUnlock(pr: Proc, next: Then): Proc {
    match pr.mode
    case NoLock => Resume(pr, next)
    case ReadLock => pr.(pc := ReleaseRead(next))
    case WriteLock => pr.(pc := if pr.rmutexes == [] then ReleaseW(next) else ReleaseSlot(0, true, next))
  }

  /** The first lines of lock(), up to its first kernel call. */
  function BeginLock(pr: Proc, want: LockMode, block: bool): Proc {
    if !pr.open then pr.(pc := Outside(false))
    else if want == NoLock then BeginUnlock(pr, Return(true))
    else if want == pr.mode then pr.(pc := Outside(true))
    else BeginUnlock(pr, Relock(want, block))
  }

  /** Whether the next kernel call of a process can complete: only the two unbounded waits block. */
  predicate CanAdvance(s: State, p: Pid)
    requires p in s.procs
  {
    match s.procs[p].pc
    case Outside(_) => false
    case WaitW(_, block) => block ==> CanTake(s.owner, WRITE_MUTEX, p)
    case WaitAll(block) => block ==> CanTakeAll(s.owner, s.procs[p].rmutexes, p)
    case ReleaseSlot(i, _, _) => i < |s.procs[p].rmutexes|
    case CloseSlot(i, _, _) => i < |s.procs[p].rmutexes|
    case _ => true
  }

  /** The first two kernel calls of lock(). */
  function EnterLock(s: State, p: Pid, ok: bool): (t: State)
    requires p in s.procs && CanAdvance(s, p)
    requires s.procs[p].pc.CreateW? || s.procs[p].pc.WaitW?
    ensures p in t.procs && t.procs == s.procs[p := t.procs[p]]
  {
    var pr := s.procs[p];
    match pr.pc
    case CreateW(want, block) =>
      if pr.wopen then s.(procs := s.procs[p := pr.(pc := WaitW(want, block))])
      else if ok then
        s.(procs := s.procs[p := pr.(pc := WaitW(want, block), wopen := true,
                                     handles := pr.handles + multiset{WRITE_MUTEX})])
      else s.(procs := s.procs[p := pr.(pc := Outside(false))])
    case WaitW(want, block) =>
      if CanTake(s.owner, WRITE_MUTEX, p) then
        var pr' := if want == ReadLock then pr.(pc := OpenSlot(0), seen := SlotOwners(s.owner))
                   else pr.(pc := Enumerate(0, block));
        State(s.procs[p := pr'], Take(s.owner, WRITE_MUTEX, p), s.abandoned - {WRITE_MUTEX})
      else s.(procs := s.procs[p := pr.(pc := Outside(false))])
  }

  /** A reader's process after the next kernel call of its scan; yes is whether the call finds or gets what it
      is for. */
  function ScanProc(pr: Proc, yes: bool): Proc
    requires pr.pc.OpenSlot? || pr.pc.TrySlot? || pr.pc.CloseBusy? || pr.pc.CreateSlot? || pr.pc.TryNew? ||
             pr.pc.CloseFailed? || pr.pc.EndScan?
  {
    match pr.pc
    case OpenSlot(idx) =>
      if yes then pr.(pc := TrySlot(idx), rmutex := idx, handles := pr.handles + multiset{idx as int})
      else pr.(pc := CreateSlot(idx))
    case TrySlot(idx) => pr.(pc := if yes then EndScan(true, false) else CloseBusy(idx))
    case CloseBusy(idx) =>
      var pr' := pr.(handles := pr.handles - multiset{idx as int});
      if idx + 1 < MAX_READERS then pr'.(pc := OpenSlot(idx + 1)) else pr'.(pc := EndScan(false, true), rmutex := -1)
    case CreateSlot(idx) =>
      if yes then pr.(pc := TryNew(idx), rmutex := idx, handles := pr.handles + multiset{idx as int})
      else pr.(pc := EndScan(false, false), rmutex := -1)
    case TryNew(idx) => pr.(pc := if yes then EndScan(true, false) else CloseFailed(idx))
    case CloseFailed(idx) =>
      pr.(handles := pr.handles - multiset{idx as int}, rmutex := -1, pc := EndScan(false, false))
    case EndScan(got, _) => if got then pr.(mode := ReadLock, pc := Outside(true)) else pr.(pc := Outside(false))
  }

  /** A reader under the write mutex looks for a free slot. */
  function ScanSlots(s: State, p: Pid, ok: bool): (t: State)
    requires p in s.procs && CanAdvance(s, p)
    requires s.procs[p].pc.OpenSlot? || s.procs[p].pc.TrySlot? || s.procs[p].pc.CloseBusy? ||
             s.procs[p].pc.CreateSlot? || s.procs[p].pc.TryNew? || s.procs[p].pc.CloseFailed? || s.procs[p].pc.EndScan?
    ensures p in t.procs && t.procs == s.procs[p := t.procs[p]]
    ensures exists yes :: t.procs[p] == ScanProc(s.procs[p], yes)
  {
    var pr := s.procs[p];
    match pr.pc
    case OpenSlot(idx) => s.(procs := s.procs[p := ScanProc(pr, Exists(s.procs, idx))])
    case TrySlot(idx) => TrySlotMutex(s, p, idx)
    case CloseBusy(_) => WithHandlesOf(s, p, ScanProc(pr, ok))
    case CreateSlot(_) => s.(procs := s.procs[p := ScanProc(pr, ok)])
    case TryNew(idx) => TrySlotMutex(s, p, idx)
    case CloseFailed(_) => WithHandlesOf(s, p, ScanProc(pr, ok))
    case EndScan(_, _) => State(s.procs[p := ScanProc(pr, ok)], Release(s.owner, WRITE_MUTEX, p), s.abandoned)
  }

  function TrySlotMutex(s: State, p: Pid, idx: nat): (t: State)
    requires p in s.procs && (s.procs[p].pc == TrySlot(idx) || s.procs[p].pc == TryNew(idx))
    ensures t.procs == s.procs[p := ScanProc(s.procs[p], CanTake(s.owner, idx, p))]
  {
    var free := CanTake(s.owner, idx, p);
    var procs := s.procs[p := ScanProc(s.procs[p], free)];
    if free then State(procs, Take(s.owner, idx, p), s.abandoned - {idx as int}) else s.(procs := procs)
  }

  /** A writer's process after OpenMutex on slot idx, and after the attempt whether or not it exists. */
  function Opened(pr: Proc, idx: nat): Proc {
    pr.(rmutexes := pr.rmutexes + [idx as int], handles := pr.handles + multiset{idx as int})
  }

  function Enumerated(pr: Proc, found: bool): Proc
    requires pr.pc.Enumerate?
  {
    var idx, block := pr.pc.idx, pr.pc.block;
    var pr' := if found then Opened(pr, idx) else pr;
    if idx + 1 < MAX_READERS then pr'.(pc := Enumerate(idx + 1, block))
    else if pr'.rmutexes == [] then pr'.(pc := Outside(true), mode := WriteLock)
    else pr'.(pc := WaitAll(block))
  }

  /** A writer under the write mutex opens every slot there is and waits for all of them. */
  function CollectSlots(s: State, p: Pid, ok: bool): (t: State)
    requires p in s.procs && CanAdvance(s, p)
    requires s.procs[p].pc.Enumerate? || s.procs[p].pc.WaitAll?
    ensures p in t.procs && t.procs == s.procs[p := t.procs[p]]
  {
    var pr := s.procs[p];
    match pr.pc
    case Enumerate(idx, block) =>
      s.(procs := s.procs[p := Enumerated(pr, Exists(s.procs, idx))])
    case WaitAll(block) =>
      if CanTakeAll(s.owner, pr.rmutexes, p) then
        // a mutex whose owner died may be reported by a code that lock() reads as failure
        var misread := !ok && exists m :: m in pr.rmutexes && m in s.abandoned;
        State(s.procs[p := pr.(mode := WriteLock,
                               pc := if misread then ReleaseSlot(0, true, Return(false)) else Outside(true))],
              TakeAll(s.owner, pr.rmutexes, p),
              s.abandoned - set m | m in pr.rmutexes)
      else s.(procs := s.procs[p := pr.(mode := WriteLock, pc := ReleaseSlot(0, false, Return(false)))])
  }

  /** A process after the next kernel call of its unlock(). */
  function LetGoProc(pr: Proc): Proc
    requires pr.pc.ReleaseRead? || pr.pc.CloseRead? || pr.pc.ReleaseSlot? || pr.pc.CloseSlot? || pr.pc.ReleaseW?
    requires pr.pc.ReleaseSlot? || pr.pc.CloseSlot? ==> pr.pc.i < |pr.rmutexes|
  {
    match pr.pc
    case ReleaseRead(next) => pr.(pc := CloseRead(next))
    case CloseRead(next) =>
      Resume(pr.(handles := pr.handles - multiset{pr.rmutex}, rmutex := -1, mode := NoLock), next)
    case ReleaseSlot(i, got, next) => pr.(pc := CloseSlot(i, got, next))
    case CloseSlot(i, got, next) =>
      pr.(handles := pr.handles - multiset{pr.rmutexes[i]},
          pc := if i + 1 < |pr.rmutexes| then ReleaseSlot(i + 1, got, next) else ReleaseW(next))
    case ReleaseW(next) => Resume(pr.(rmutexes := [], mode := NoLock), next)
  }

  /** The kernel calls of unlock(). */
  function LetGo(s: State, p: Pid, ok: bool): (t: State)
    requires p in s.procs && CanAdvance(s, p)
    requires s.procs[p].pc.ReleaseRead? || s.procs[p].pc.CloseRead? || s.procs[p].pc.ReleaseSlot? ||
             s.procs[p].pc.CloseSlot? || s.procs[p].pc.ReleaseW?
    ensures t.procs == s.procs[p := LetGoProc(s.procs[p])]
  {
    var pr := s.procs[p];
    match pr.pc
    case ReleaseRead(_) => State(s.procs[p := LetGoProc(pr)], Release(s.owner, pr.rmutex, p), s.abandoned)
    case CloseRead(_) => WithHandlesOf(s, p, LetGoProc(pr))
    case ReleaseSlot(i, _, _) => State(s.procs[p := LetGoProc(pr)], Release(s.owner, pr.rmutexes[i], p), s.abandoned)
    case CloseSlot(_, _, _) => WithHandlesOf(s, p, LetGoProc(pr))
    case ReleaseW(_) => State(s.procs[p := LetGoProc(pr)], Release(s.owner, WRITE_MUTEX, p), s.abandoned)
  }

  function AdvanceProc(s: State, p: Pid, ok: bool): (t: State)
    requires p in s.procs && CanAdvance(s, p)
    ensures p in t.procs && t.procs == s.procs[p := t.procs[p]]
  {
    var pc := s.procs[p].pc;
    if pc.CreateW? || pc.WaitW? then EnterLock(s, p, ok)
    else if pc.Enumerate? || pc.WaitAll? then CollectSlots(s, p, ok)
    else if pc.ReleaseRead? || pc.CloseRead? || pc.ReleaseSlot? || pc.CloseSlot? || pc.ReleaseW? then LetGo(s, p, ok)
    else ScanSlots(s, p, ok)
  }

  // ------------------------------------------------------------------ runs

  function NewProc(open: bool): Proc {
    Proc(open, Outside(false), NoLock, false, -1, [], multiset{}, map[])
  }

  predicate Enabled(s: State, e: Event) {
    match e
    case Spawn(p, _) => p !in s.procs
    case CallLock(p, _, _) => p in s.procs && s.procs[p].pc.Outside?
    case CallUnlock(p) => p in s.procs && s.procs[p].pc.Outside?
    case Advance(p, _) => p in s.procs && CanAdvance(s, p)
    case Destroy(p) => p in s.procs && s.procs[p].pc.Outside? && s.procs[p].mode == NoLock
    case Crash(p) => p in s.procs
  }

  /** All that process p owned becomes free and abandoned; what only p had open disappears. */
  function Remove(s: State, p: Pid): State {
    var procs := s.procs - {p};
    State(procs,
          map m | m in s.owner && s.owner[m].pid != p && Exists(procs, m) :: s.owner[m],
          set m | m in s.abandoned + s.owner.Keys && Exists(procs, m) &&
                  (m in s.abandoned || s.owner[m].pid == p))
  }

  function Apply(s: State, e: Event): State
    requires Enabled(s, e)
  {
    match e
    case Spawn(p, open) => s.(procs := s.procs[p := NewProc(open)])
    case CallLock(p, want, block) => s.(procs := s.procs[p := BeginLock(s.procs[p], want, block)])
    case CallUnlock(p) =>
      if s.procs[p].open then s.(procs := s.procs[p := BeginUnlock(s.procs[p], Return(true))])
      else s.(procs := s.procs[p := s.procs[p].(pc := Outside(false))])
    case Advance(p, ok) => AdvanceProc(s, p, ok)
    case Destroy(p) => Remove(s, p)
    case Crash(p) => Remove(s, p)
  }

  ghost predicate IsRun(ss: seq<State>, es: seq<Event>) {
    && |ss| == |es| + 1
    && ss[0] == Init
    && forall i :: 0 <= i < |es| ==> Enabled(ss[i], es[i]) && ss[i + 1] == Apply(ss[i], es[i])
  }
}
