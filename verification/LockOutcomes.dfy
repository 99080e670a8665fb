/** When lock() fails, and that it succeeds when nothing stands in its way. */
module LockOutcomes {
  import opened LockProtocol
  import opened LockSafety
  import opened LockTheorems

  /** The call is bound to return false, or has done so. */
  predicate Failing(pc: Pc) {
    match pc
    case Outside(result) => !result
    case EndScan(got, _) => !got
    case CloseFailed(_) => true
    case ReleaseRead(next) => next == Return(false)
    case CloseRead(next) => next == Return(false)
    case ReleaseSlot(_, _, next) => next == Return(false)
    case CloseSlot(_, _, next) => next == Return(false)
    case ReleaseW(next) => next == Return(false)
    case _ => false
  }

  predicate OwnedByOther(s: State, m: int, p: Pid) { m in s.owner && s.owner[m].pid != p }

  /** What makes a call fail: the file is not open; the system refuses to create the write mutex or a slot; a wait that
      must not block meets a mutex of another process; the last slot has been tried in vain; or, when all slots could
      be had, one of them was abandoned and is reported by a code that counts as a failure. */
  predicate Cause(s: State, e: Event, p: Pid)
    requires p in s.procs
  {
    var pr := s.procs[p];
    match e
    case CallLock(q, _, _) => q == p && !pr.open
    case CallUnlock(q) => q == p && !pr.open
    case Advance(q, ok) =>
      q == p && (match pr.pc
                 case CreateW(_, _) => !pr.wopen && !ok
                 case WaitW(_, block) => !block && OwnedByOther(s, -1, p)
                 case CreateSlot(_) => !ok
                 case CloseBusy(idx) => idx == 63
                 case WaitAll(block) =>
                   if exists m :: m in pr.rmutexes && OwnedByOther(s, m, p) then !block
                   else !ok && exists m :: m in pr.rmutexes && m in s.abandoned
                 case _ => false)
    case _ => false
  }

  lemma EnterFailsIff(s: State, p: Pid, ok: bool)
    requires p in s.procs && CanAdvance(s, p) && (s.procs[p].pc.CreateW? || s.procs[p].pc.WaitW?)
    ensures Failing(EnterLock(s, p, ok).procs[p].pc) <==> Cause(s, Advance(p, ok), p)
  {
    hide Take, SlotOwners;
  }

  lemma LookFails(pr: Proc, yes: bool)
    requires pr.pc.OpenSlot? || pr.pc.TrySlot? || pr.pc.CloseBusy?
    ensures Failing(ScanProc(pr, yes).pc) <==> pr.pc.CloseBusy? && pr.pc.idx >= 63
  {
  }

  lemma NewFails(pr: Proc, yes: bool)
    requires pr.pc.CreateSlot? || pr.pc.TryNew?
    ensures Failing(ScanProc(pr, yes).pc) <==> !yes
  {
  }

  lemma EndFails(pr: Proc, yes: bool)
    requires pr.pc.CloseFailed? || pr.pc.EndScan?
    ensures Failing(ScanProc(pr, yes).pc) <==> Failing(pr.pc)
  {
  }

  lemma ScanIs(s: State, p: Pid, ok: bool) returns (yes: bool)
    requires p in s.procs && CanAdvance(s, p) && InScan(s.procs[p])
    ensures ScanSlots(s, p, ok).procs[p] == ScanProc(s.procs[p], yes)
    ensures s.procs[p].pc.CreateSlot? ==> yes == ok
    ensures s.procs[p].pc.TryNew? && s.procs[p].pc.idx !in s.owner ==> yes
  {
    hide Take, Exists, Release, ScanProc;
    var pc := s.procs[p].pc;
    yes := if pc.OpenSlot? then Exists(s.procs, pc.idx)
           else if pc.TrySlot? || pc.TryNew? then CanTake(s.owner, pc.idx, p)
           else ok;
  }

  lemma ScanFailsIff(s: State, p: Pid, ok: bool)
    requires p in s.procs && CanAdvance(s, p) && InScan(s.procs[p])
    requires s.procs[p].pc.TryNew? ==> s.procs[p].pc.idx !in s.owner
    requires s.procs[p].pc.CloseBusy? ==> s.procs[p].pc.idx < MAX_READERS
    ensures var pc, pc' := s.procs[p].pc, ScanSlots(s, p, ok).procs[p].pc;
            Failing(pc') <==> Failing(pc) || Cause(s, Advance(p, ok), p)
  {
    hide ScanSlots, ScanProc, CanAdvance;
    var pr := s.procs[p];
    var yes := ScanIs(s, p, ok);
    if pr.pc.OpenSlot? || pr.pc.TrySlot? || pr.pc.CloseBusy? {
      LookFails(pr, yes);
    } else if pr.pc.CreateSlot? || pr.pc.TryNew? {
      NewFails(pr, yes);
    } else {
      EndFails(pr, yes);
    }
  }

  lemma EnumerateFails(pr: Proc, found: bool)
    requires pr.pc.Enumerate?
    ensures !Failing(Enumerated(pr, found).pc)
  {
    hide Opened;
  }

  lemma TakesAllIff(s: State, p: Pid, ms: seq<int>)
    ensures CanTakeAll(s.owner, ms, p) <==> !exists m :: m in ms && OwnedByOther(s, m, p)
  {
  }

  lemma CollectFailsIff(s: State, p: Pid, ok: bool)
    requires p in s.procs && CanAdvance(s, p) && (s.procs[p].pc.Enumerate? || s.procs[p].pc.WaitAll?)
    ensures Failing(CollectSlots(s, p, ok).procs[p].pc) <==> Cause(s, Advance(p, ok), p)
  {
    hide TakeAll, CanTakeAll, OwnedByOther, Exists, Enumerated;
    if s.procs[p].pc.Enumerate? {
      EnumerateFails(s.procs[p], Exists(s.procs, s.procs[p].pc.idx));
    } else {
      TakesAllIff(s, p, s.procs[p].rmutexes);
    }
  }

  lemma LetGoFails(pr: Proc)
    requires LettingGo(pr) && (pr.pc.ReleaseSlot? || pr.pc.CloseSlot? ==> pr.pc.i < |pr.rmutexes|)
    ensures Failing(LetGoNext(pr)) <==> Failing(pr.pc)
  {
  }

  lemma LetGoFailsIff(s: State, p: Pid, ok: bool)
    requires p in s.procs && CanAdvance(s, p) && LettingGo(s.procs[p])
    ensures Failing(LetGo(s, p, ok).procs[p].pc) <==> Failing(s.procs[p].pc)
    ensures !Cause(s, Advance(p, ok), p)
  {
    LetGoFails(s.procs[p]);
    LetGoFlow(s, p, ok);
    hide LetGo, LetGoProc, LetGoNext, Failing;
  }

  lemma ScanBounds(s: State, p: Pid)
    requires Inv(s) && p in s.procs
    ensures s.procs[p].pc.TryNew? ==> s.procs[p].pc.idx !in s.owner
    ensures s.procs[p].pc.CloseBusy? ==> s.procs[p].pc.idx < MAX_READERS
  {
    hide Inv, Cover, Held, LocalOk, Reassign;
    NewSlotFree(s, p);
    Facts(s, p);
    BusyBound(s.procs[p]);
  }

  lemma BusyBound(pr: Proc)
    requires LocalOk(pr)
    ensures pr.pc.CloseBusy? ==> pr.pc.idx < MAX_READERS
  {
    hide SlotsOk, Fits;
  }

  /** A kernel call turns a call into a failing one exactly if it is a cause, and nothing turns it back. */
  lemma AdvanceFailsIff(s: State, p: Pid, ok: bool)
    requires Inv(s) && p in s.procs && CanAdvance(s, p)
    ensures Failing(AdvanceProc(s, p, ok).procs[p].pc) <==> Failing(s.procs[p].pc) || Cause(s, Advance(p, ok), p)
  {
    hide Inv, EnterLock, ScanSlots, CollectSlots, LetGo, Cause;
    var pr, pc := s.procs[p], s.procs[p].pc;
    if pc.CreateW? || pc.WaitW? {
      EnterFailsIff(s, p, ok);
    } else if pc.Enumerate? || pc.WaitAll? {
      CollectFailsIff(s, p, ok);
    } else if LettingGo(pr) {
      LetGoFailsIff(s, p, ok);
    } else {
      ScanBounds(s, p);
      ScanFailsIff(s, p, ok);
    }
  }

  // ------------------------------------------------------------------ over a whole call

  /** The event starts or ends process p, or a call of it. */
  predicate Restarts(e: Event, p: Pid) { e.p == p && !e.Advance? }

  /** The call of lock() at c is the last thing process p was asked for before i. */
  predicate SinceCall(es: seq<Event>, c: nat, i: nat, p: Pid) {
    && c < i <= |es| && es[c].CallLock? && es[c].p == p
    && forall k :: c < k < i ==> !Restarts(es[k], p)
  }

  lemma BeginFailsIff(pr: Proc, want: LockMode, block: bool)
    ensures Failing(BeginLock(pr, want, block).pc) <==> !pr.open
  {
  }

  lemma OtherEvent(s: State, e: Event, p: Pid)
    requires Enabled(s, e) && e.p != p
    ensures p in s.procs <==> p in Apply(s, e).procs
    ensures p in s.procs ==> Apply(s, e).procs[p] == s.procs[p] && !Cause(s, e, p)
  {
    hide AdvanceProc, Exists, BeginLock, BeginUnlock;
  }

  lemma CallEvent(s: State, e: Event)
    requires Enabled(s, e) && e.CallLock?
    ensures e.p in s.procs && e.p in Apply(s, e).procs
    ensures Failing(Apply(s, e).procs[e.p].pc) <==> Cause(s, e, e.p)
    ensures Cause(s, e, e.p) <==> !s.procs[e.p].open
  {
    BeginFailsIff(s.procs[e.p], e.want, e.block);
    hide BeginLock;
  }

  lemma AdvanceEvent(s: State, e: Event)
    requires Inv(s) && Enabled(s, e) && e.Advance?
    ensures e.p in s.procs && e.p in Apply(s, e).procs
    ensures Failing(Apply(s, e).procs[e.p].pc) <==> Failing(s.procs[e.p].pc) || Cause(s, e, e.p)
  {
    hide Inv, AdvanceProc, Cause, CanAdvance, Failing;
    AdvanceFailsIff(s, e.p, e.ok);
  }

  ghost predicate Caused(ss: seq<State>, es: seq<Event>, c: nat, i: nat, p: Pid)
    requires |ss| == |es| + 1 && i <= |es|
  {
    exists k :: c <= k < i && p in ss[k].procs && Cause(ss[k], es[k], p)
  }

  lemma OneMore(ss: seq<State>, es: seq<Event>, c: nat, i: nat, p: Pid)
    requires |ss| == |es| + 1 && c <= i < |es|
    ensures Caused(ss, es, c, i + 1, p) <==> Caused(ss, es, c, i, p) || (p in ss[i].procs && Cause(ss[i], es[i], p))
  {
    hide Cause;
  }

  /** In every run: a call of lock() fails if and only if one of its causes has occurred since it began. */
  lemma {:induction false} LockFailsIff(ss: seq<State>, es: seq<Event>, c: nat, i: nat, p: Pid)
    requires IsRun(ss, es) && SinceCall(es, c, i, p)
    ensures p in ss[i].procs && (Failing(ss[i].procs[p].pc) <==> Caused(ss, es, c, i, p))
  {
    hide Apply, Enabled, Inv, Cause, Failing;
    var s, e := ss[i - 1], es[i - 1];
    assert Enabled(s, e) && ss[i] == Apply(s, e);
    OneMore(ss, es, c, i - 1, p);
    if i == c + 1 {
      CallEvent(s, e);
      NothingBefore(ss, es, c, p);
    } else {
      LockFailsIff(ss, es, c, i - 1, p);
      RunKeepsInv(ss, es, i - 1);
      if e.p == p {
        assert !Restarts(e, p);
        AdvanceEvent(s, e);
      } else {
        OtherEvent(s, e, p);
      }
    }
  }

  lemma NothingBefore(ss: seq<State>, es: seq<Event>, c: nat, p: Pid)
    requires |ss| == |es| + 1 && c <= |es|
    ensures !Caused(ss, es, c, c, p)
  {
  }

  /** So the false that a call returns always has a cause, and a call that returns true had none. */
  lemma ReturnsFalseIff(ss: seq<State>, es: seq<Event>, c: nat, i: nat, p: Pid)
    requires IsRun(ss, es) && SinceCall(es, c, i, p) && p in ss[i].procs && ss[i].procs[p].pc.Outside?
    ensures ss[i].procs[p].pc == Outside(false) <==> Caused(ss, es, c, i, p)
  {
    LockFailsIff(ss, es, c, i, p);
    hide IsRun, Caused;
  }

  // ------------------------------------------------------------------ a process on its own

  /** The process is on its way to the lock in this mode, or has it. */
  predicate Toward(pr: Proc, want: LockMode) {
    match pr.pc
    case Outside(result) => result && pr.mode == want
    case CreateW(w, _) => w == want
    case WaitW(w, _) => w == want
    case OpenSlot(_) => want == ReadLock
    case TrySlot(_) => want == ReadLock
    case CreateSlot(_) => want == ReadLock
    case TryNew(_) => want == ReadLock
    case EndScan(got, _) => got && want == ReadLock
    case Enumerate(_, _) => want == WriteLock
    case WaitAll(_) => want == WriteLock
    case _ => false
  }

  /** Nobody else owns a mutex. */
  predicate Alone(s: State, p: Pid) {
    forall m :: m in s.owner ==> s.owner[m].pid == p
  }

  lemma AloneAdvances(s: State, p: Pid, want: LockMode)
    requires p in s.procs && Alone(s, p) && Toward(s.procs[p], want) && !s.procs[p].pc.Outside?
    ensures CanAdvance(s, p)
  {
  }

  lemma AloneEnters(s: State, p: Pid, want: LockMode)
    requires p in s.procs && CanAdvance(s, p) && (s.procs[p].pc.CreateW? || s.procs[p].pc.WaitW?)
    requires Alone(s, p) && Toward(s.procs[p], want) && want != NoLock
    ensures Alone(EnterLock(s, p, true), p) && Toward(EnterLock(s, p, true).procs[p], want)
  {
    hide SlotOwners;
  }

  lemma AloneScans(s: State, p: Pid, want: LockMode)
    requires p in s.procs && CanAdvance(s, p) && InScan(s.procs[p])
    requires Alone(s, p) && Toward(s.procs[p], want)
    ensures Alone(ScanSlots(s, p, true), p) && Toward(ScanSlots(s, p, true).procs[p], want)
  {
    hide Exists, WithHandlesOf;
  }

  lemma AloneCollects(s: State, p: Pid, want: LockMode)
    requires p in s.procs && CanAdvance(s, p) && (s.procs[p].pc.Enumerate? || s.procs[p].pc.WaitAll?)
    requires Alone(s, p) && Toward(s.procs[p], want)
    ensures Alone(CollectSlots(s, p, true), p) && Toward(CollectSlots(s, p, true).procs[p], want)
  {
    hide Exists, Opened;
  }

  lemma AloneStep(s: State, p: Pid, want: LockMode)
    requires p in s.procs && Alone(s, p) && Toward(s.procs[p], want) && want != NoLock && !s.procs[p].pc.Outside?
    ensures CanAdvance(s, p)
    ensures var t := AdvanceProc(s, p, true); Alone(t, p) && Toward(t.procs[p], want)
  {
    hide EnterLock, ScanSlots, CollectSlots, LetGo, Alone, CanAdvance;
    AloneAdvances(s, p, want);
    var pc := s.procs[p].pc;
    if pc.CreateW? || pc.WaitW? {
      AloneEnters(s, p, want);
    } else if pc.Enumerate? || pc.WaitAll? {
      AloneCollects(s, p, want);
    } else {
      AloneScans(s, p, want);
    }
  }

  lemma Extended(ss: seq<State>, es: seq<Event>, e: Event)
    requires IsRun(ss, es) && Enabled(ss[|es|], e)
    ensures IsRun(ss + [Apply(ss[|es|], e)], es + [e])
  {
    hide Apply, Enabled;
    var ss', es' := ss + [Apply(ss[|es|], e)], es + [e];
    forall i | 0 <= i < |es'| ensures Enabled(ss'[i], es'[i]) && ss'[i + 1] == Apply(ss'[i], es'[i]) {
      assert i < |es| ==> Enabled(ss[i], es[i]) && ss[i + 1] == Apply(ss[i], es[i]);
    }
  }

  /** Nothing but kernel calls of p, and all of them go well. */
  predicate OnlyAdvances(es: seq<Event>, p: Pid) {
    forall k :: 0 <= k < |es| ==> es[k] == Advance(p, true)
  }

  /** The steps that are left until the call returns. */
  lemma {:induction false} Finishes(ss: seq<State>, es: seq<Event>, p: Pid, want: LockMode)
    returns (ss': seq<State>, more: seq<Event>)
    requires IsRun(ss, es) && p in ss[|es|].procs && want != NoLock
    requires Alone(ss[|es|], p) && Toward(ss[|es|].procs[p], want)
    ensures IsRun(ss', es + more) && OnlyAdvances(more, p) && HasLock(ss'[|es + more|], p, want)
    decreases CallsLeft(ss[|es|].procs[p].pc, |ss[|es|].procs[p].rmutexes|)
  {
    hide Apply, Enabled, Inv, AdvanceProc, Alone, CallsLeft, CanAdvance, Nearer;
    var s := ss[|es|];
    if s.procs[p].pc.Outside? {
      ss', more := ss, [];
      assert es + [] == es;
    } else {
      var e := Advance(p, true);
      AloneStep(s, p, want);
      RunKeepsInv(ss, es, |es|);
      CallsShrink(s, p, true);
      NearerBounds(s.procs[p], AdvanceProc(s, p, true).procs[p]);
      AdvanceIs(s, p);
      Extended(ss, es, e);
      var rest;
      ss', rest := Finishes(ss + [Apply(s, e)], es + [e], p, want);
      more := [e] + rest;
      assert es + [e] + rest == es + more;
    }
  }

  lemma AdvanceIs(s: State, p: Pid)
    requires p in s.procs && CanAdvance(s, p)
    ensures Enabled(s, Advance(p, true)) && Apply(s, Advance(p, true)) == AdvanceProc(s, p, true)
  {
    hide AdvanceProc, CanAdvance;
  }

  lemma NearerBounds(pr: Proc, pr': Proc)
    requires Nearer(pr, pr')
    ensures 0 <= CallsLeft(pr'.pc, |pr'.rmutexes|) < CallsLeft(pr.pc, |pr.rmutexes|)
  {
    hide CallsLeft;
  }

  lemma OwnsItsLock(pr: Proc)
    requires pr.pc.Outside? && pr.mode != NoLock
    ensures exists m :: m in Held(pr)
  {
    assert (if pr.mode == ReadLock then pr.rmutex else WRITE_MUTEX) in Held(pr);
  }

  lemma OwnsNothing(s: State, p: Pid)
    requires Inv(s) && p in s.procs && s.procs[p].pc.Outside? && s.owner == map[]
    ensures s.procs[p].mode == NoLock
  {
    hide Inv, LocalOk, Cover, Reassign, Held;
    Facts(s, p);
    if s.procs[p].mode != NoLock {
      OwnsItsLock(s.procs[p]);
    }
  }

  lemma BeginsAlone(s: State, p: Pid, want: LockMode, block: bool)
    requires Inv(s) && p in s.procs && s.procs[p].pc.Outside? && s.procs[p].open && s.owner == map[] && want != NoLock
    ensures Enabled(s, CallLock(p, want, block))
    ensures var t := Apply(s, CallLock(p, want, block)); p in t.procs && Alone(t, p) && Toward(t.procs[p], want)
  {
    OwnsNothing(s, p);
    hide Inv;
  }

  /** From every reachable state in which nobody owns a mutex: a process that has the file open and is in no call gets
      the lock it asks for, in either mode and whether it may block or not, when its kernel calls come next and go
      well. */
  lemma LockSucceedsAlone(ss: seq<State>, es: seq<Event>, p: Pid, want: LockMode, block: bool)
    returns (ss': seq<State>, more: seq<Event>)
    requires IsRun(ss, es) && ss[|es|].owner == map[] && p in ss[|es|].procs && want != NoLock
    requires ss[|es|].procs[p].open && ss[|es|].procs[p].pc.Outside?
    ensures IsRun(ss', es + [CallLock(p, want, block)] + more) && OnlyAdvances(more, p)
    ensures HasLock(ss'[|es| + 1 + |more|], p, want)
  {
    hide Apply, Enabled, Inv, Alone, Toward, HasLock;
    var e := CallLock(p, want, block);
    RunKeepsInv(ss, es, |es|);
    BeginsAlone(ss[|es|], p, want, block);
    Extended(ss, es, e);
    ss', more := Finishes(ss + [Apply(ss[|es|], e)], es + [e], p, want);
  }
}
