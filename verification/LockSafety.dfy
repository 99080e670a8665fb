/** Safety of the readers/writer lock over every interleaving, with crashes at any step. */
module LockSafety {
  import opened LockProtocol

  // ------------------------------------------------------------------ the inductive invariant

  function Elems(ms: seq<int>): set<int> { set m | m in ms }

  function Tail(ms: seq<int>, i: nat): seq<int> { if i <= |ms| then ms[i..] else [] }

  /** The mutexes a process owns, read off its program counter. */
  function Held(pr: Proc): set<int> {
    match pr.pc
    case Outside(_) =>
      (match pr.mode
       case NoLock => {}
       case ReadLock => {pr.rmutex}
       case WriteLock => {WRITE_MUTEX} + Elems(pr.rmutexes))
    case CreateW(_, _) => {}
    case WaitW(_, _) => {}
    case EndScan(got, _) => if got then {WRITE_MUTEX, pr.rmutex} else {WRITE_MUTEX}
    case ReleaseRead(_) => {pr.rmutex}
    case CloseRead(_) => {}
    case ReleaseSlot(i, got, _) => {WRITE_MUTEX} + if got then Elems(Tail(pr.rmutexes, i)) else {}
    case CloseSlot(i, got, _) => {WRITE_MUTEX} + if got then Elems(Tail(pr.rmutexes, i + 1)) else {}
    case _ => {WRITE_MUTEX}
  }

  predicate IsSlot(m: int) { 0 <= m < MAX_READERS }

  predicate Increasing(ms: seq<int>) {
    forall i, j :: 0 <= i < j < |ms| ==> ms[i] < ms[j]
  }

  predicate SlotsOk(ms: seq<int>) {
    Increasing(ms) && forall m :: m in ms ==> IsSlot(m)
  }

  /** The lock mode, and the exact handle table: the given slots, and the write mutex if open. */
  predicate Fits(pr: Proc, mode: LockMode, slots: multiset<int>) {
    pr.mode == mode && pr.handles == slots + if pr.wopen then multiset{WRITE_MUTEX} else multiset{}
  }

  predicate Reading(pr: Proc) {
    IsSlot(pr.rmutex) && pr.rmutexes == [] && Fits(pr, ReadLock, multiset{pr.rmutex})
  }

  predicate Scanning(pr: Proc, idx: nat, slots: multiset<int>) {
    idx < MAX_READERS && pr.wopen && pr.rmutexes == [] && Fits(pr, NoLock, slots)
  }

  predicate Releasing(pr: Proc, i: nat, next: Then) {
    i < |pr.rmutexes| && pr.wopen && WantsLock(next) && Fits(pr, WriteLock, multiset(Tail(pr.rmutexes, i)))
  }

  predicate WantsLock(next: Then) { next.Relock? ==> next.want != NoLock }

  /** What holds of one process on its own; in particular its exact handle table. */
  predicate LocalOk(pr: Proc) {
    && SlotsOk(pr.rmutexes)
    && match pr.pc
       case Outside(_) =>
         (match pr.mode
          case NoLock => pr.rmutexes == [] && Fits(pr, NoLock, multiset{})
          case ReadLock => Reading(pr)
          case WriteLock => pr.wopen && Fits(pr, WriteLock, multiset(pr.rmutexes)))
       case CreateW(want, _) => want != NoLock && pr.rmutexes == [] && Fits(pr, NoLock, multiset{})
       case WaitW(want, _) => want != NoLock && Scanning(pr, 0, multiset{})
       case OpenSlot(idx) => Scanning(pr, idx, multiset{})
       case TrySlot(idx) => Scanning(pr, idx, multiset{idx as int}) && pr.rmutex == idx
       case CloseBusy(idx) => Scanning(pr, idx, multiset{idx as int}) && pr.rmutex == idx
       case CreateSlot(idx) => Scanning(pr, idx, multiset{})
       case TryNew(idx) => Scanning(pr, idx, multiset{idx as int}) && pr.rmutex == idx
       case CloseFailed(idx) => Scanning(pr, idx, multiset{idx as int}) && pr.rmutex == idx
       case EndScan(got, _) =>
         if got then IsSlot(pr.rmutex) && Scanning(pr, 0, multiset{pr.rmutex}) else Scanning(pr, 0, multiset{})
       case Enumerate(idx, _) =>
         && idx < MAX_READERS && pr.wopen && Fits(pr, NoLock, multiset(pr.rmutexes))
         && forall m :: m in pr.rmutexes ==> m < idx
       case WaitAll(_) => pr.rmutexes != [] && pr.wopen && Fits(pr, NoLock, multiset(pr.rmutexes))
       case ReleaseRead(next) => WantsLock(next) && Reading(pr)
       case CloseRead(next) => WantsLock(next) && Reading(pr)
       case ReleaseSlot(i, _, next) => Releasing(pr, i, next)
       case CloseSlot(i, _, next) => Releasing(pr, i, next)
       case ReleaseW(next) => WantsLock(next) && pr.wopen && Fits(pr, WriteLock, multiset{})
  }

  /** The slot a reader is scanning has been reached because all earlier ones were owned. */
  predicate ScanOk(owner: map<int, Own>, pr: Proc, p: Pid, idx: nat) {
    && (forall m :: m in owner && m != WRITE_MUTEX ==> m in pr.seen && pr.seen[m] == owner[m].pid)
    && (forall j :: 0 <= j < idx ==> j in pr.seen && pr.seen[j] != p)
    && Injective(pr.seen)
  }

  predicate Injective(m: map<int, Pid>) {
    forall i, j :: i in m && j in m && i != j ==> m[i] != m[j]
  }

  /** What the holder of the write mutex knows about the slots. */
  predicate Cover(owner: map<int, Own>, pr: Proc, p: Pid) {
    match pr.pc
    case Outside(_) =>
      pr.mode == WriteLock ==> forall m :: m in owner && m != WRITE_MUTEX ==> owner[m].pid == p
    case OpenSlot(idx) => ScanOk(owner, pr, p, idx)
    case TrySlot(idx) => ScanOk(owner, pr, p, idx)
    case CloseBusy(idx) => ScanOk(owner, pr, p, idx + 1)
    case CreateSlot(idx) => ScanOk(owner, pr, p, idx) && idx !in owner
    case TryNew(idx) => ScanOk(owner, pr, p, idx) && idx !in owner
    case CloseFailed(_) => false
    case EndScan(_, tooMany) => tooMany ==> ScanOk(owner, pr, p, MAX_READERS)
    case Enumerate(idx, _) =>
      forall m :: m in owner && 0 <= m < idx && owner[m].pid != p ==> m in pr.rmutexes
    case WaitAll(_) =>
      forall m :: m in owner && m != WRITE_MUTEX && owner[m].pid != p ==> m in pr.rmutexes
    case _ => true
  }

  ghost predicate Inv(s: State) {
    && (forall q :: q in s.procs ==> LocalOk(s.procs[q]))
    && (forall m :: m in s.owner ==>
          s.owner[m].pid in s.procs && s.owner[m].depth == 1 && m in Held(s.procs[s.owner[m].pid]))
    && (forall q, m :: q in s.procs && m in Held(s.procs[q]) ==> m in s.owner && s.owner[m].pid == q)
    && (forall q :: q in s.procs ==> Cover(s.owner, s.procs[q], q))
  }

  // ------------------------------------------------------------------ consequences

  lemma TailStep(ms: seq<int>, i: nat)
    requires i < |ms|
    ensures multiset(Tail(ms, i)) == multiset(Tail(ms, i + 1)) + multiset{ms[i]}
    ensures Increasing(ms) ==> Elems(Tail(ms, i + 1)) == Elems(Tail(ms, i)) - {ms[i]}
  {
    assert ms[i..] == [ms[i]] + ms[i + 1..];
    if Increasing(ms) {
      assert ms[i] !in ms[i + 1..];
    }
  }

  lemma ElemsOf(ms: seq<int>, i: nat)
    ensures forall m :: m in Elems(Tail(ms, i)) ==> m in ms && m in multiset(Tail(ms, i))
    ensures forall m :: m in Elems(ms) <==> m in ms
  {
  }

  /** The slot handles a process has, read off its program counter. */
  function SlotsOf(pr: Proc): multiset<int> {
    match pr.pc
    case Outside(_) =>
      (match pr.mode
       case NoLock => multiset{}
       case ReadLock => multiset{pr.rmutex}
       case WriteLock => multiset(pr.rmutexes))
    case TrySlot(idx) => multiset{idx as int}
    case CloseBusy(idx) => multiset{idx as int}
    case TryNew(idx) => multiset{idx as int}
    case CloseFailed(idx) => multiset{idx as int}
    case EndScan(got, _) => if got then multiset{pr.rmutex} else multiset{}
    case Enumerate(_, _) => multiset(pr.rmutexes)
    case WaitAll(_) => multiset(pr.rmutexes)
    case ReleaseRead(_) => multiset{pr.rmutex}
    case CloseRead(_) => multiset{pr.rmutex}
    case ReleaseSlot(i, _, _) => multiset(Tail(pr.rmutexes, i))
    case CloseSlot(i, _, _) => multiset(Tail(pr.rmutexes, i))
    case _ => multiset{}
  }

  lemma FitsMode(pr: Proc)
    ensures forall mode, slots :: Fits(pr, mode, slots) ==> pr.mode == mode
  {
  }

  lemma LocalFits(pr: Proc)
    requires LocalOk(pr)
    ensures Fits(pr, pr.mode, SlotsOf(pr))
  {
    hide Fits, SlotsOk, Tail, IsSlot, WantsLock;
    FitsMode(pr);
  }

  lemma FitsHandles(pr: Proc, mode: LockMode, slots: multiset<int>, m: int)
    requires Fits(pr, mode, slots) && (m in slots || (m == WRITE_MUTEX && pr.wopen))
    ensures m in pr.handles
  {
  }

  lemma TailSlots(ms: seq<int>, i: nat, m: int)
    requires i < |ms| && SlotsOk(ms) && (m in Elems(Tail(ms, i)) || m in Elems(Tail(ms, i + 1)))
    ensures m in multiset(Tail(ms, i)) && IsSlot(m)
  {
    ElemsOf(ms, i);
    ElemsOf(ms, i + 1);
    TailStep(ms, i);
    hide Increasing, Elems, Tail;
  }

  lemma AllSlots(ms: seq<int>, m: int)
    requires SlotsOk(ms) && m in Elems(ms)
    ensures m in multiset(ms) && IsSlot(m)
  {
    ElemsOf(ms, 0);
  }

  lemma HeldSlots(pr: Proc, m: int)
    requires LocalOk(pr) && m in Held(pr)
    ensures (m == WRITE_MUTEX && pr.wopen) || (m in SlotsOf(pr) && IsSlot(m))
  {
    hide SlotsOk, Fits, Elems, Tail, IsSlot;
    if m != WRITE_MUTEX {
      if pr.pc.Outside? && pr.mode == WriteLock {
        AllSlots(pr.rmutexes, m);
      } else if pr.pc.ReleaseSlot? || pr.pc.CloseSlot? {
        TailSlots(pr.rmutexes, pr.pc.i, m);
      }
    }
  }

  lemma HeldIsOpen(pr: Proc, m: int)
    requires LocalOk(pr) && m in Held(pr)
    ensures m in pr.handles && (m == WRITE_MUTEX || IsSlot(m))
  {
    hide *;
    LocalFits(pr);
    HeldSlots(pr, m);
    FitsHandles(pr, pr.mode, SlotsOf(pr), m);
  }

  /** Closing the handle m. */
  lemma FitsClosed(pr: Proc, mode: LockMode, was: multiset<int>, pr': Proc, slots: multiset<int>, m: int)
    requires Fits(pr, mode, was) && was == slots + multiset{m}
    requires pr'.handles == pr.handles - multiset{m} && pr'.wopen == pr.wopen
    ensures pr.mode == mode && Fits(pr', pr'.mode, slots)
  {
  }

  /** Ownership as it must be once process p holds exactly the set held. */
  function Reassign(owner: map<int, Own>, p: Pid, held: set<int>): map<int, Own> {
    map m | m in owner.Keys + held && (m in held || owner[m].pid != p) ::
      if m in held then Own(p, 1) else owner[m]
  }

  lemma CoverShrinks(owner: map<int, Own>, owner': map<int, Own>, pr: Proc, q: Pid)
    requires Cover(owner, pr, q)
    requires forall m :: m in owner' && m != WRITE_MUTEX ==> m in owner && owner'[m].pid == owner[m].pid
    ensures Cover(owner', pr, q)
  {
  }

  lemma CoverFree(owner: map<int, Own>, pr: Proc, q: Pid)
    requires WRITE_MUTEX !in Held(pr)
    ensures Cover(owner, pr, q)
  {
  }

  /** The frame argument: a step that only changes process p, and the mutexes p holds,
      keeps the invariant of everybody. A slot may be gained only under the write mutex. */
  lemma ProcStep(s: State, s': State, p: Pid, pr': Proc)
    requires Inv(s) && p in s.procs
    requires s'.procs == s.procs[p := pr']
    requires s'.owner == Reassign(s.owner, p, Held(pr'))
    requires forall m :: m in Held(pr') && m in s.owner ==> s.owner[m].pid == p
    requires WRITE_MUTEX in Held(s.procs[p]) || Held(pr') <= Held(s.procs[p]) + {WRITE_MUTEX}
    requires LocalOk(pr') && Cover(s'.owner, pr', p)
    ensures Inv(s')
  {
    hide LocalOk, Cover, Held;
    forall q | q in s'.procs
      ensures Cover(s'.owner, s'.procs[q], q)
    {
      if q != p {
        var pr := s.procs[q];
        if WRITE_MUTEX in Held(pr) {
          assert WRITE_MUTEX in Held(s.procs[q]) && s.owner[WRITE_MUTEX].pid == q;
          assert WRITE_MUTEX !in Held(s.procs[p]);
          assert forall m :: m in Held(pr') && m != WRITE_MUTEX ==> m in Held(s.procs[p]);
          CoverShrinks(s.owner, s'.owner, pr, q);
        } else {
          CoverFree(s'.owner, pr, q);
        }
      }
    }
  }

  // ------------------------------------------------------------------ kernel calls and ownership

  lemma Facts(s: State, p: Pid)
    requires Inv(s) && p in s.procs
    ensures LocalOk(s.procs[p]) && Cover(s.owner, s.procs[p], p)
    ensures s.owner == Reassign(s.owner, p, Held(s.procs[p]))
    ensures forall m :: m in Held(s.procs[p]) ==> m in s.owner && s.owner[m].pid == p
  {
    hide LocalOk, Cover, Held;
    var held := Held(s.procs[p]);
    assert forall m :: m in held ==> m in s.owner && s.owner[m] == Own(p, 1);
    assert forall m :: m in s.owner && s.owner[m].pid == p ==> m in held;
  }

  lemma TakeHeld(s: State, p: Pid, m: int)
    requires Inv(s) && p in s.procs && m !in Held(s.procs[p]) && CanTake(s.owner, m, p)
    ensures m !in s.owner
    ensures Take(s.owner, m, p) == Reassign(s.owner, p, Held(s.procs[p]) + {m})
  {
    hide LocalOk, Cover, Held;
    Facts(s, p);
  }

  lemma TakeAllHeld(s: State, p: Pid, ms: seq<int>)
    requires Inv(s) && p in s.procs && CanTakeAll(s.owner, ms, p)
    requires forall m :: m in ms ==> m !in Held(s.procs[p])
    ensures forall m :: m in ms ==> m !in s.owner
    ensures TakeAll(s.owner, ms, p) == Reassign(s.owner, p, Held(s.procs[p]) + Elems(ms))
  {
    hide LocalOk, Cover, Held;
    Facts(s, p);
    forall m | m in ms ensures m !in s.owner {
      assert CanTake(s.owner, m, p);
    }
  }

  lemma ReleaseHeld(s: State, p: Pid, m: int)
    requires Inv(s) && p in s.procs
    ensures Release(s.owner, m, p) == Reassign(s.owner, p, Held(s.procs[p]) - {m})
  {
    hide LocalOk, Cover, Held;
    Facts(s, p);
  }

  /** Closing a handle destroys no mutex that somebody owns. */
  lemma CloseKeepsOwned(s: State, p: Pid, pr': Proc)
    requires Inv(s) && p in s.procs && LocalOk(pr') && Held(pr') == Held(s.procs[p])
    ensures WithHandlesOf(s, p, pr').owner == s.owner
  {
    hide LocalOk, Cover, Held;
    var procs := s.procs[p := pr'];
    forall m | m in s.owner ensures Exists(procs, m) {
      var q := s.owner[m].pid;
      HeldIsOpen(procs[q], m);
    }
  }

  lemma CloseStep(s: State, p: Pid, pr': Proc)
    requires Inv(s) && p in s.procs && LocalOk(pr') && Held(pr') == Held(s.procs[p])
    requires Cover(s.owner, pr', p)
    ensures Inv(WithHandlesOf(s, p, pr'))
  {
    hide LocalOk, Cover, Held;
    CloseKeepsOwned(s, p, pr');
    hide Inv;
    Facts(s, p);
    ProcStep(s, WithHandlesOf(s, p, pr'), p, pr');
  }

  // ------------------------------------------------------------------ every kernel call keeps the invariant

  lemma StepCreateW(s: State, p: Pid, ok: bool)
    requires Inv(s) && p in s.procs && s.procs[p].pc.CreateW? && CanAdvance(s, p)
    ensures Inv(EnterLock(s, p, ok))
  {
    hide Inv;
    var s' := EnterLock(s, p, ok);
    Facts(s, p);
    ProcStep(s, s', p, s'.procs[p]);
  }

  lemma StepWaitW(s: State, p: Pid, ok: bool)
    requires Inv(s) && p in s.procs && s.procs[p].pc.WaitW? && CanAdvance(s, p)
    ensures Inv(EnterLock(s, p, ok))
  {
    hide Inv;
    var s' := EnterLock(s, p, ok);
    Facts(s, p);
    if CanTake(s.owner, WRITE_MUTEX, p) {
      TakeHeld(s, p, WRITE_MUTEX);
      if s.procs[p].pc.want == ReadLock {
        SeenInjective(s);
      }
    }
    ProcStep(s, s', p, s'.procs[p]);
  }

  /** While the write mutex is free every slot owner is a reader, and a reader owns one slot. */
  lemma SeenInjective(s: State)
    requires Inv(s) && WRITE_MUTEX !in s.owner
    ensures Injective(SlotOwners(s.owner))
  {
    hide LocalOk, Cover, Held;
    var seen := SlotOwners(s.owner);
    forall i, j | i in seen && j in seen && i != j
      ensures seen[i] != seen[j]
    {
      if seen[i] == seen[j] {
        OneSlot(s, seen[i], i, j);
      }
    }
  }

  lemma OneHeld(pr: Proc, i: int, j: int)
    requires WRITE_MUTEX !in Held(pr) && i in Held(pr) && j in Held(pr)
    ensures i == j
  {
    hide Elems, Tail;
  }

  lemma OneSlot(s: State, q: Pid, i: int, j: int)
    requires Inv(s) && WRITE_MUTEX !in s.owner && q in s.procs
    requires i in Held(s.procs[q]) && j in Held(s.procs[q])
    ensures i == j
  {
    hide Inv, LocalOk, Cover, Held;
    Facts(s, q);
    OneHeld(s.procs[q], i, j);
  }

  lemma StepOpenSlot(s: State, p: Pid, ok: bool)
    requires Inv(s) && p in s.procs && s.procs[p].pc.OpenSlot? && CanAdvance(s, p)
    ensures Inv(ScanSlots(s, p, ok))
  {
    hide Inv;
    var s' := ScanSlots(s, p, ok);
    var idx := s.procs[p].pc.idx;
    Facts(s, p);
    if !Exists(s.procs, idx) {
      NotOwned(s, idx);
    }
    ProcStep(s, s', p, s'.procs[p]);
  }

  lemma NotOwned(s: State, m: int)
    requires Inv(s) && !Exists(s.procs, m)
    ensures m !in s.owner
  {
    hide LocalOk, Cover, Held;
    if m in s.owner {
      HeldIsOpen(s.procs[s.owner[m].pid], m);
    }
  }

  lemma StepTrySlot(s: State, p: Pid, ok: bool)
    requires Inv(s) && p in s.procs && s.procs[p].pc.TrySlot? && CanAdvance(s, p)
    ensures Inv(ScanSlots(s, p, ok))
  {
    hide Inv;
    var s' := ScanSlots(s, p, ok);
    Facts(s, p);
    if CanTake(s.owner, s.procs[p].pc.idx, p) {
      TakeHeld(s, p, s.procs[p].pc.idx);
    }
    ProcStep(s, s', p, s'.procs[p]);
  }

  lemma StepCloseBusy(s: State, p: Pid, ok: bool)
    requires Inv(s) && p in s.procs && s.procs[p].pc.CloseBusy? && CanAdvance(s, p)
    ensures Inv(ScanSlots(s, p, ok))
  {
    hide Inv, WithHandlesOf;
    Facts(s, p);
    var pr, idx := s.procs[p], s.procs[p].pc.idx;
    var pr' := pr.(handles := pr.handles - multiset{idx as int});
    if idx + 1 < MAX_READERS {
      CloseStep(s, p, pr'.(pc := OpenSlot(idx + 1)));
    } else {
      CloseStep(s, p, pr'.(pc := EndScan(false, true), rmutex := -1));
    }
  }

  lemma StepCreateSlot(s: State, p: Pid, ok: bool)
    requires Inv(s) && p in s.procs && s.procs[p].pc.CreateSlot? && CanAdvance(s, p)
    ensures Inv(ScanSlots(s, p, ok))
  {
    hide Inv;
    var s' := ScanSlots(s, p, ok);
    Facts(s, p);
    ProcStep(s, s', p, s'.procs[p]);
  }

  lemma StepTryNew(s: State, p: Pid, ok: bool)
    requires Inv(s) && p in s.procs && s.procs[p].pc.TryNew? && CanAdvance(s, p)
    ensures Inv(ScanSlots(s, p, ok))
  {
    hide Inv;
    var s' := ScanSlots(s, p, ok);
    Facts(s, p);
    TakeHeld(s, p, s.procs[p].pc.idx);
    ProcStep(s, s', p, s'.procs[p]);
  }

  lemma StepEndScan(s: State, p: Pid, ok: bool)
    requires Inv(s) && p in s.procs && s.procs[p].pc.EndScan? && CanAdvance(s, p)
    ensures Inv(ScanSlots(s, p, ok))
  {
    hide Inv;
    var s' := ScanSlots(s, p, ok);
    Facts(s, p);
    ReleaseHeld(s, p, WRITE_MUTEX);
    ProcStep(s, s', p, s'.procs[p]);
  }

  lemma AppendSlot(ms: seq<int>, idx: nat)
    requires SlotsOk(ms) && idx < MAX_READERS && forall m :: m in ms ==> m < idx
    ensures SlotsOk(ms + [idx as int])
    ensures multiset(ms + [idx as int]) == multiset(ms) + multiset{idx as int}
  {
    var ms' := ms + [idx as int];
    forall i, j | 0 <= i < j < |ms'| ensures ms'[i] < ms'[j] {
      assert ms[i] in ms;
    }
  }

  predicate Enumerating(pr: Proc, idx: nat) {
    && SlotsOk(pr.rmutexes) && idx < MAX_READERS && pr.wopen
    && Fits(pr, NoLock, multiset(pr.rmutexes))
    && forall m :: m in pr.rmutexes ==> m <= idx
  }

  lemma EnumerateOpened(pr: Proc)
    requires pr.pc.Enumerate? && LocalOk(pr)
    ensures Enumerating(pr, pr.pc.idx) && Enumerating(Opened(pr, pr.pc.idx), pr.pc.idx)
  {
    assert LocalOk(pr);
    hide LocalOk;
    AppendSlot(pr.rmutexes, pr.pc.idx);
    hide SlotsOk;
  }

  lemma EnumerateNext(pr: Proc, idx: nat, block: bool)
    requires Enumerating(pr, idx)
    ensures idx + 1 < MAX_READERS ==>
              LocalOk(pr.(pc := Enumerate(idx + 1, block))) &&
                       Held(pr.(pc := Enumerate(idx + 1, block))) == {WRITE_MUTEX}
    ensures pr.rmutexes != [] ==>
              LocalOk(pr.(pc := WaitAll(block))) && Held(pr.(pc := WaitAll(block))) == {WRITE_MUTEX}
  {
    hide SlotsOk;
  }

  lemma EnumerateNone(pr: Proc, idx: nat)
    requires Enumerating(pr, idx) && pr.rmutexes == []
    ensures var pr' := pr.(pc := Outside(true), mode := WriteLock); LocalOk(pr') && Held(pr') == {WRITE_MUTEX}
  {
    hide SlotsOk;
  }

  lemma EnumerateCover(owner: map<int, Own>, pr: Proc, p: Pid, found: bool)
    requires pr.pc.Enumerate? && Cover(owner, pr, p)
    requires forall m :: m in owner ==> m == WRITE_MUTEX || IsSlot(m)
    requires !found ==> pr.pc.idx !in owner
    ensures Cover(owner, Enumerated(pr, found), p)
  {
  }

  lemma EnumerateLocal(pr: Proc, found: bool)
    requires pr.pc.Enumerate? && LocalOk(pr)
    ensures LocalOk(Enumerated(pr, found)) && Held(Enumerated(pr, found)) == {WRITE_MUTEX}
  {
    hide LocalOk, Held, Opened, Enumerating;
    EnumerateOpened(pr);
    var pr1 := if found then Opened(pr, pr.pc.idx) else pr;
    EnumerateNext(pr1, pr.pc.idx, pr.pc.block);
    if pr1.rmutexes == [] {
      EnumerateNone(pr1, pr.pc.idx);
    }
  }

  lemma StepEnumerate(s: State, p: Pid, ok: bool)
    requires Inv(s) && p in s.procs && s.procs[p].pc.Enumerate? && CanAdvance(s, p)
    ensures Inv(CollectSlots(s, p, ok))
  {
    hide Inv, Enumerated;
    var s' := CollectSlots(s, p, ok);
    var idx := s.procs[p].pc.idx;
    Facts(s, p);
    if !Exists(s.procs, idx) {
      NotOwned(s, idx);
    }
    OwnedIsSlot(s);
    EnumerateLocal(s.procs[p], Exists(s.procs, idx));
    EnumerateCover(s.owner, s.procs[p], p, Exists(s.procs, idx));
    hide LocalOk, Cover, Exists;
    assert Held(s.procs[p]) == {WRITE_MUTEX};
    hide Held;
    ProcStep(s, s', p, s'.procs[p]);
  }

  lemma OwnedIsSlot(s: State)
    requires Inv(s)
    ensures forall m :: m in s.owner ==> m == WRITE_MUTEX || IsSlot(m)
  {
    hide LocalOk, Cover, Held;
    forall m | m in s.owner ensures m == WRITE_MUTEX || IsSlot(m) {
      HeldIsOpen(s.procs[s.owner[m].pid], m);
    }
  }

  lemma WaitAllGranted(pr: Proc)
    requires pr.pc.WaitAll? && LocalOk(pr)
    ensures var pr' := pr.(mode := WriteLock, pc := Outside(true));
            LocalOk(pr') && Held(pr') == Held(pr) + Elems(pr.rmutexes)
  {
    hide Increasing, Elems, Tail;
    var pr' := pr.(mode := WriteLock, pc := Outside(true));
  }

  lemma WaitAllFailed(pr: Proc, got: bool)
    requires pr.pc.WaitAll? && LocalOk(pr)
    ensures var pr' := pr.(mode := WriteLock, pc := ReleaseSlot(0, got, Return(false)));
            LocalOk(pr') && Held(pr') == Held(pr) + if got then Elems(pr.rmutexes) else {}
  {
    assert Tail(pr.rmutexes, 0) == pr.rmutexes;
    hide Increasing, Elems, Tail;
    var pr' := pr.(mode := WriteLock, pc := ReleaseSlot(0, got, Return(false)));
  }

  lemma StepWaitAll(s: State, p: Pid, ok: bool)
    requires Inv(s) && p in s.procs && s.procs[p].pc.WaitAll? && CanAdvance(s, p)
    ensures Inv(CollectSlots(s, p, ok))
  {
    hide Inv;
    var s' := CollectSlots(s, p, ok);
    Facts(s, p);
    WaitAllGranted(s.procs[p]);
    WaitAllFailed(s.procs[p], CanTakeAll(s.owner, s.procs[p].rmutexes, p));
    if CanTakeAll(s.owner, s.procs[p].rmutexes, p) {
      TakeAllHeld(s, p, s.procs[p].rmutexes);
    }
    hide LocalOk, Held;
    ProcStep(s, s', p, s'.procs[p]);
  }

  lemma StepReleaseRead(s: State, p: Pid, ok: bool)
    requires Inv(s) && p in s.procs && s.procs[p].pc.ReleaseRead? && CanAdvance(s, p)
    ensures Inv(LetGo(s, p, ok))
  {
    hide Inv;
    Facts(s, p);
    var s' := LetGo(s, p, ok);
    ReleaseHeld(s, p, s.procs[p].rmutex);
    ProcStep(s, s', p, s'.procs[p]);
  }

  function ClosedRead(pr: Proc): Proc
    requires pr.pc.CloseRead?
  {
    Resume(pr.(handles := pr.handles - multiset{pr.rmutex}, rmutex := -1, mode := NoLock), pr.pc.next)
  }

  lemma BeforeClose(pr: Proc)
    requires pr.pc.CloseRead? && LocalOk(pr)
    ensures WantsLock(pr.pc.next) && pr.rmutexes == [] && Fits(pr, ReadLock, multiset{pr.rmutex}) && Held(pr) == {}
  {
    hide SlotsOk, Fits, IsSlot;
  }

  lemma WithoutLock(pr: Proc)
    requires pr.pc.Outside? || (pr.pc.CreateW? && pr.pc.want != NoLock)
    requires pr.rmutexes == [] && pr.mode == NoLock && Fits(pr, NoLock, multiset{})
    ensures LocalOk(pr) && Held(pr) == {}
  {
    hide Fits;
  }

  lemma CloseReadLocal(pr: Proc)
    requires pr.pc.CloseRead? && LocalOk(pr)
    ensures LocalOk(ClosedRead(pr)) && Held(ClosedRead(pr)) == {} == Held(pr)
  {
    hide LocalOk, Held, Fits;
    BeforeClose(pr);
    FitsClosed(pr, ReadLock, multiset{pr.rmutex}, ClosedRead(pr), multiset{}, pr.rmutex);
    WithoutLock(ClosedRead(pr));
  }

  lemma StepCloseRead(s: State, p: Pid, ok: bool)
    requires Inv(s) && p in s.procs && s.procs[p].pc.CloseRead? && CanAdvance(s, p)
    ensures Inv(LetGo(s, p, ok))
  {
    hide Inv;
    Facts(s, p);
    var s' := LetGo(s, p, ok);
    hide WithHandlesOf;
    var pr := s.procs[p];
    CloseReadLocal(pr);
    CloseStep(s, p, ClosedRead(pr));
  }

  lemma ReleaseSlotLocal(pr: Proc)
    requires pr.pc.ReleaseSlot? && LocalOk(pr)
    ensures var pr' := pr.(pc := CloseSlot(pr.pc.i, pr.pc.got, pr.pc.next));
            LocalOk(pr') && Held(pr') == Held(pr) - {pr.rmutexes[pr.pc.i]}
  {
    var pr' := pr.(pc := CloseSlot(pr.pc.i, pr.pc.got, pr.pc.next));
    TailStep(pr.rmutexes, pr.pc.i);
    assert pr.rmutexes[pr.pc.i] in pr.rmutexes;
    hide Increasing, Elems, Tail;
  }

  lemma CloseSlotMore(pr: Proc)
    requires pr.pc.CloseSlot? && LocalOk(pr) && pr.pc.i + 1 < |pr.rmutexes|
    ensures LocalOk(ClosedSlot(pr)) && Held(ClosedSlot(pr)) == Held(pr)
  {
    hide SlotsOk, Tail, Elems, Fits;
    TailStep(pr.rmutexes, pr.pc.i);
    FitsClosed(pr, WriteLock, multiset(Tail(pr.rmutexes, pr.pc.i)), ClosedSlot(pr),
               multiset(Tail(pr.rmutexes, pr.pc.i + 1)), pr.rmutexes[pr.pc.i]);
  }

  lemma CloseSlotLast(pr: Proc)
    requires pr.pc.CloseSlot? && LocalOk(pr) && pr.pc.i + 1 == |pr.rmutexes|
    ensures LocalOk(ClosedSlot(pr)) && Held(ClosedSlot(pr)) == Held(pr)
  {
    hide SlotsOk, Tail, Elems, Fits;
    TailStep(pr.rmutexes, pr.pc.i);
    NoTail(pr.rmutexes);
    FitsClosed(pr, WriteLock, multiset(Tail(pr.rmutexes, pr.pc.i)), ClosedSlot(pr), multiset{},
               pr.rmutexes[pr.pc.i]);
  }

  lemma NoTail(ms: seq<int>)
    ensures Tail(ms, |ms|) == [] && Elems([]) == {} && multiset(Tail(ms, |ms|)) == multiset{}
  {
  }

  function ClosedSlot(pr: Proc): Proc
    requires pr.pc.CloseSlot? && pr.pc.i < |pr.rmutexes|
  {
    pr.(handles := pr.handles - multiset{pr.rmutexes[pr.pc.i]},
        pc := if pr.pc.i + 1 < |pr.rmutexes| then ReleaseSlot(pr.pc.i + 1, pr.pc.got, pr.pc.next)
                 else ReleaseW(pr.pc.next))
  }

  lemma StepReleaseSlot(s: State, p: Pid, ok: bool)
    requires Inv(s) && p in s.procs && s.procs[p].pc.ReleaseSlot? && CanAdvance(s, p)
    ensures Inv(LetGo(s, p, ok))
  {
    hide Inv;
    Facts(s, p);
    var s' := LetGo(s, p, ok);
    ReleaseSlotLocal(s.procs[p]);
    ReleaseHeld(s, p, s.procs[p].rmutexes[s.procs[p].pc.i]);
    ProcStep(s, s', p, s'.procs[p]);
  }

  lemma StepCloseSlot(s: State, p: Pid, ok: bool)
    requires Inv(s) && p in s.procs && s.procs[p].pc.CloseSlot? && CanAdvance(s, p)
    ensures Inv(LetGo(s, p, ok))
  {
    hide Inv;
    Facts(s, p);
    hide WithHandlesOf;
    var s' := LetGo(s, p, ok);
    if s.procs[p].pc.i + 1 < |s.procs[p].rmutexes| {
      CloseSlotMore(s.procs[p]);
    } else {
      CloseSlotLast(s.procs[p]);
    }
    CloseStep(s, p, ClosedSlot(s.procs[p]));
  }

  lemma StepReleaseW(s: State, p: Pid, ok: bool)
    requires Inv(s) && p in s.procs && s.procs[p].pc.ReleaseW? && CanAdvance(s, p)
    ensures Inv(LetGo(s, p, ok))
  {
    hide Inv;
    Facts(s, p);
    var s' := LetGo(s, p, ok);
    ReleaseHeld(s, p, WRITE_MUTEX);
    ProcStep(s, s', p, s'.procs[p]);
  }

  lemma NewSlotCover(owner: map<int, Own>, pr: Proc, p: Pid)
    requires Cover(owner, pr, p)
    ensures !pr.pc.CloseFailed? && (pr.pc.TryNew? ==> pr.pc.idx !in owner)
  {
    hide ScanOk;
  }

  /** The wait on a slot this process just created always succeeds. */
  lemma NewSlotFree(s: State, p: Pid)
    requires Inv(s) && p in s.procs
    ensures s.procs[p].pc.TryNew? ==> s.procs[p].pc.idx !in s.owner
    ensures !s.procs[p].pc.CloseFailed?
  {
    hide Inv, LocalOk, Held, Reassign, Cover;
    Facts(s, p);
    NewSlotCover(s.owner, s.procs[p], p);
  }

  lemma EnterKeepsInv(s: State, p: Pid, ok: bool)
    requires Inv(s) && p in s.procs && CanAdvance(s, p)
    requires s.procs[p].pc.CreateW? || s.procs[p].pc.WaitW?
    ensures Inv(EnterLock(s, p, ok))
  {
    hide Inv, CanAdvance, EnterLock;
    if s.procs[p].pc.CreateW? {
      StepCreateW(s, p, ok);
    } else if s.procs[p].pc.WaitW? {
      StepWaitW(s, p, ok);
    }
  }

  lemma ScanKeepsInv(s: State, p: Pid, ok: bool)
    requires Inv(s) && p in s.procs && CanAdvance(s, p)
    requires s.procs[p].pc.OpenSlot? || s.procs[p].pc.TrySlot? || s.procs[p].pc.CloseBusy? ||
             s.procs[p].pc.CreateSlot? || s.procs[p].pc.TryNew? ||
             s.procs[p].pc.CloseFailed? || s.procs[p].pc.EndScan?
    ensures Inv(ScanSlots(s, p, ok))
  {
    NewSlotFree(s, p);
    hide Inv, CanAdvance, ScanSlots;
    if s.procs[p].pc.OpenSlot? {
      StepOpenSlot(s, p, ok);
    } else if s.procs[p].pc.TrySlot? {
      StepTrySlot(s, p, ok);
    } else if s.procs[p].pc.CloseBusy? {
      StepCloseBusy(s, p, ok);
    } else if s.procs[p].pc.CreateSlot? {
      StepCreateSlot(s, p, ok);
    } else if s.procs[p].pc.TryNew? {
      StepTryNew(s, p, ok);
    } else if s.procs[p].pc.EndScan? {
      StepEndScan(s, p, ok);
    }
  }

  lemma CollectKeepsInv(s: State, p: Pid, ok: bool)
    requires Inv(s) && p in s.procs && CanAdvance(s, p)
    requires s.procs[p].pc.Enumerate? || s.procs[p].pc.WaitAll?
    ensures Inv(CollectSlots(s, p, ok))
  {
    hide Inv, CanAdvance, CollectSlots;
    if s.procs[p].pc.Enumerate? {
      StepEnumerate(s, p, ok);
    } else if s.procs[p].pc.WaitAll? {
      StepWaitAll(s, p, ok);
    }
  }

  lemma LetGoKeepsInv(s: State, p: Pid, ok: bool)
    requires Inv(s) && p in s.procs && CanAdvance(s, p)
    requires s.procs[p].pc.ReleaseRead? || s.procs[p].pc.CloseRead? || s.procs[p].pc.ReleaseSlot? ||
             s.procs[p].pc.CloseSlot? || s.procs[p].pc.ReleaseW?
    ensures Inv(LetGo(s, p, ok))
  {
    hide Inv, CanAdvance, LetGo;
    if s.procs[p].pc.ReleaseRead? {
      StepReleaseRead(s, p, ok);
    } else if s.procs[p].pc.CloseRead? {
      StepCloseRead(s, p, ok);
    } else if s.procs[p].pc.ReleaseSlot? {
      StepReleaseSlot(s, p, ok);
    } else if s.procs[p].pc.CloseSlot? {
      StepCloseSlot(s, p, ok);
    } else if s.procs[p].pc.ReleaseW? {
      StepReleaseW(s, p, ok);
    }
  }

  lemma AdvanceKeepsInv(s: State, p: Pid, ok: bool)
    requires Inv(s) && p in s.procs && CanAdvance(s, p)
    ensures Inv(AdvanceProc(s, p, ok))
  {
    assert !s.procs[p].pc.Outside?;
    hide Inv, CanAdvance, EnterLock, ScanSlots, CollectSlots, LetGo;
    var pc := s.procs[p].pc;
    if pc.CreateW? || pc.WaitW? {
      EnterKeepsInv(s, p, ok);
    } else if pc.Enumerate? || pc.WaitAll? {
      CollectKeepsInv(s, p, ok);
    } else if pc.ReleaseRead? || pc.CloseRead? || pc.ReleaseSlot? || pc.CloseSlot? || pc.ReleaseW? {
      LetGoKeepsInv(s, p, ok);
    } else {
      ScanKeepsInv(s, p, ok);
    }
  }

  // ------------------------------------------------------------------ calls, creation and death of processes

  lemma OutsideLocal(pr: Proc, r: bool)
    requires LocalOk(pr) && pr.pc.Outside?
    ensures LocalOk(pr.(pc := Outside(r))) && Held(pr.(pc := Outside(r))) == Held(pr)
  {
    hide SlotsOk, Elems;
  }

  lemma UnlockedLocal(pr: Proc, next: Then)
    requires LocalOk(pr) && pr.pc.Outside? && pr.mode == NoLock && WantsLock(next)
    ensures LocalOk(Resume(pr, next)) && Held(Resume(pr, next)) == Held(pr)
  {
    hide SlotsOk, Elems;
  }

  lemma UnlockReadLocal(pr: Proc, next: Then)
    requires LocalOk(pr) && pr.pc.Outside? && pr.mode == ReadLock && WantsLock(next)
    ensures LocalOk(BeginUnlock(pr, next)) && Held(BeginUnlock(pr, next)) == Held(pr)
  {
    hide SlotsOk, Elems;
  }

  lemma WholeTail(ms: seq<int>)
    ensures Tail(ms, 0) == ms && (ms == [] ==> Elems(ms) == {} && multiset(ms) == multiset{})
  {
  }

  lemma FitsSame(pr: Proc, mode: LockMode, slots: multiset<int>, pr': Proc)
    requires Fits(pr, mode, slots)
    requires pr'.handles == pr.handles && pr'.wopen == pr.wopen && pr'.mode == pr.mode
    ensures Fits(pr', mode, slots)
  {
  }

  lemma UnlockWriteLocal(pr: Proc, next: Then)
    requires LocalOk(pr) && pr.pc.Outside? && pr.mode == WriteLock && WantsLock(next)
    ensures LocalOk(BeginUnlock(pr, next)) && Held(BeginUnlock(pr, next)) == Held(pr)
  {
    hide SlotsOk, Tail, Elems, Fits;
    WholeTail(pr.rmutexes);
    FitsSame(pr, WriteLock, multiset(pr.rmutexes), BeginUnlock(pr, next));
  }

  lemma BeginUnlockLocal(owner: map<int, Own>, pr: Proc, p: Pid, next: Then)
    requires LocalOk(pr) && Cover(owner, pr, p) && pr.pc.Outside? && WantsLock(next)
    ensures var pr' := BeginUnlock(pr, next); LocalOk(pr') && Held(pr') == Held(pr) && Cover(owner, pr', p)
  {
    var pr' := BeginUnlock(pr, next);
    assert Cover(owner, pr', p) by { hide LocalOk, Held; }
    hide Cover;
    match pr.mode
    case NoLock => hide LocalOk, Held; UnlockedLocal(pr, next);
    case ReadLock => hide LocalOk, Held; UnlockReadLocal(pr, next);
    case WriteLock => hide LocalOk, Held; UnlockWriteLocal(pr, next);
  }

  lemma CallStep(s: State, s': State, p: Pid, pr': Proc)
    requires Inv(s) && p in s.procs && s' == s.(procs := s.procs[p := pr'])
    requires LocalOk(pr') && Held(pr') == Held(s.procs[p]) && Cover(s.owner, pr', p)
    ensures Inv(s')
  {
    hide Inv, LocalOk, Held, Cover;
    Facts(s, p);
    ProcStep(s, s', p, pr');
  }

  lemma CallLockKeepsInv(s: State, p: Pid, want: LockMode, block: bool)
    requires Inv(s) && p in s.procs && s.procs[p].pc.Outside?
    ensures Inv(s.(procs := s.procs[p := BeginLock(s.procs[p], want, block)]))
  {
    hide Inv, LocalOk, Held;
    var pr := s.procs[p];
    Facts(s, p);
    OutsideLocal(pr, pr.open);
    if pr.open && (want == NoLock || want != pr.mode) {
      BeginUnlockLocal(s.owner, pr, p, if want == NoLock then Return(true) else Relock(want, block));
    }
    CallStep(s, s.(procs := s.procs[p := BeginLock(pr, want, block)]), p, BeginLock(pr, want, block));
  }

  lemma CallUnlockKeepsInv(s: State, p: Pid)
    requires Inv(s) && p in s.procs && s.procs[p].pc.Outside?
    ensures Inv(Apply(s, CallUnlock(p)))
  {
    hide Inv, LocalOk, Held;
    Facts(s, p);
    OutsideLocal(s.procs[p], false);
    BeginUnlockLocal(s.owner, s.procs[p], p, Return(true));
    CallStep(s, Apply(s, CallUnlock(p)), p, Apply(s, CallUnlock(p)).procs[p]);
  }

  lemma NewProcLocal(owner: map<int, Own>, open: bool, p: Pid)
    ensures LocalOk(NewProc(open)) && Held(NewProc(open)) == {} && Cover(owner, NewProc(open), p)
  {
  }

  lemma SpawnKeepsInv(s: State, p: Pid, open: bool)
    requires Inv(s) && p !in s.procs
    ensures Inv(Apply(s, Spawn(p, open)))
  {
    hide Cover, Held, LocalOk, NewProc;
    NewProcLocal(s.owner, open, p);
  }

  lemma RemoveKeepsInv(s: State, p: Pid)
    requires Inv(s) && p in s.procs
    ensures Inv(Remove(s, p))
  {
    hide Cover, Held, LocalOk;
    var s' := Remove(s, p);
    forall m | m in s.owner && s.owner[m].pid != p ensures Exists(s'.procs, m) {
      HeldIsOpen(s'.procs[s.owner[m].pid], m);
    }
    forall q | q in s'.procs ensures Cover(s'.owner, s'.procs[q], q) {
      CoverShrinks(s.owner, s'.owner, s.procs[q], q);
    }
  }

  lemma ApplyKeepsInv(s: State, e: Event)
    requires Inv(s) && Enabled(s, e)
    ensures Inv(Apply(s, e))
  {
    hide Inv, Cover, Held, LocalOk;
    match e
    case Spawn(p, open) => SpawnKeepsInv(s, p, open);
    case CallLock(p, want, block) => CallLockKeepsInv(s, p, want, block);
    case CallUnlock(p) => CallUnlockKeepsInv(s, p);
    case Advance(p, ok) => AdvanceKeepsInv(s, p, ok);
    case Destroy(p) => RemoveKeepsInv(s, p);
    case Crash(p) => RemoveKeepsInv(s, p);
  }

  lemma {:induction false} RunKeepsInv(ss: seq<State>, es: seq<Event>, i: nat)
    requires IsRun(ss, es) && i < |ss|
    ensures Inv(ss[i])
  {
    assert Inv(Init);
    hide Inv, Apply, Enabled;
    if i > 0 {
      RunKeepsInv(ss, es, i - 1);
      assert Enabled(ss[i - 1], es[i - 1]);
      ApplyKeepsInv(ss[i - 1], es[i - 1]);
    }
  }
}
