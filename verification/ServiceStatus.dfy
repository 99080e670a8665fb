/** Which status the service reports after which step, and what a control leaves behind. The control codes are
    written as Windows numbers them: 1 stop, 2 pause, 3 continue, 4 interrogate, 5 shutdown; 256 is the startup. */
module ServiceStatus {
  import opened ServiceProtocol
  import opened ServiceTheorems

  // ------------------------------------------------------------------ one step

  predicate CallAt(s: State, e: Step, c: Call) {
    e.CallStep? && e.t in s.sync.calls && s.sync.calls[e.t] == c
  }

  predicate SetsStopped(s: State, e: Step) { e.MainStep? && s.main.Stopping? }

  lemma IsThere(y: Sync, t: Tid)
    requires CallCanStep(y, t)
    ensures t in y.calls
  {
  }

  lemma EnterStatus(y: Sync, t: Tid, pending: seq<Posted>)
    requires t in y.calls && InEntry(y.calls[t])
    ensures var c, status' := y.calls[t], EnterNext(y, t, y.calls[t], pending).status;
            status' == if c == Inside(1) then StopPending
                       else if c == Inside(2) then PausePending
                       else if c == Inside(3) then ContinuePending
                       else if c == Inside(256) then StartPending
                       else y.status
  {
  }

  lemma ExitStatus(y: Sync, t: Tid)
    requires t in y.calls
    requires y.calls[t].Relocking? || y.calls[t].Resumed? || y.calls[t].Leaving? || y.calls[t].Reporting?
    ensures var c, status' := y.calls[t], ExitNext(y, t, y.calls[t]).status;
            status' == if c == Resumed(256) || c == Resumed(3) then Running
                       else if c == Resumed(2) then Paused
                       else y.status
  {
  }

  lemma CallStatus(m: Main, y: Sync, t: Tid)
    requires CallCanStep(y, t)
    ensures var c, status' := y.calls[t], CallNext(m, y, t).status;
            status' == if c == Inside(1) then StopPending
                       else if c == Inside(2) then PausePending
                       else if c == Inside(3) then ContinuePending
                       else if c == Inside(256) then StartPending
                       else if c == Resumed(256) || c == Resumed(3) then Running
                       else if c == Resumed(2) then Paused
                       else y.status
  {
    if InEntry(y.calls[t]) {
      EnterStatus(y, t, Pending(m, y));
    } else {
      ExitStatus(y, t);
    }
    hide EnterNext, ExitNext, Pending;
  }

  lemma OtherStatus(s: State, e: Step)
    requires Enabled(s, e) && !e.CallStep?
    ensures Next(s, e).sync.status == if SetsStopped(s, e) then Stopped else s.sync.status
  {
    hide StartNext, ServiceNext, DispatcherNext, WakeAll;
  }

  /** The whole table: what each step of a run does to the status that is reported. */
  lemma StatusTable(s: State, e: Step)
    requires Enabled(s, e)
    ensures Next(s, e).sync.status ==
            if SetsStopped(s, e) then Stopped
            else if CallAt(s, e, Inside(1)) then StopPending
            else if CallAt(s, e, Inside(2)) then PausePending
            else if CallAt(s, e, Inside(3)) then ContinuePending
            else if CallAt(s, e, Inside(256)) then StartPending
            else if CallAt(s, e, Resumed(256)) || CallAt(s, e, Resumed(3)) then Running
            else if CallAt(s, e, Resumed(2)) then Paused
            else s.sync.status
  {
    hide MainNext, ServiceStepNext, DispatcherNext, CallNext, CallCanStep;
    if e.CallStep? {
      IsThere(s.sync, e.t);
      CallStatus(s.main, s.sync, e.t);
    } else {
      OtherStatus(s, e);
    }
  }

  // ------------------------------------------------------------------ what is posted

  lemma CallQueue(m: Main, y: Sync, t: Tid)
    requires CallCanStep(y, t)
    ensures var c, q' := y.calls[t], CallNext(m, y, t).queue;
            q' == if c.Posting? && y.controllerHandler then
                    y.queue + [Posted(if c.code == 5 then 1 else c.code, y.next)]
                  else y.queue
    ensures y.calls[t].Inside? ==>
              var code, c' := y.calls[t].code, CallNext(m, y, t).calls[t];
              c' == if code == 1 || code == 2 || code == 3 || code == 5 || 128 <= code <= 256 then Posting(code)
                    else Leaving
  {
    hide Pending, PendingStatus, FinalStatus;
  }

  lemma MainQueue(s: State, ok: bool)
    requires MainCanStep(s.main, s.boot, s.sync)
    ensures var s' := MainNext(s, ok);
            if s.main.Idle? then s.sync.queue == [s'.main.e] + s'.sync.queue && s'.main.Handling?
            else s'.sync.queue == if s.main.Deleting? then [] else s.sync.queue
  {
    hide StartNext, WakeAll;
    if s.main.Idle? {
      assert s.sync.queue == [s.sync.queue[0]] + s.sync.queue[1..];
    }
  }

  /** A control is posted under its own code, a shutdown as a stop; codes other than 1, 2, 3, 5, 128 to 255 and the
      startup leave at once. The main thread takes the events in this order, and nothing else touches them until
      start() returns. */
  lemma WhatIsPosted(s: State, e: Step)
    requires Enabled(s, e)
    ensures var s' := Next(s, e);
            if e.CallStep? && s.sync.calls[e.t].Posting? && s.sync.controllerHandler then
              var code := s.sync.calls[e.t].code;
              s'.sync.queue == s.sync.queue + [Posted(if code == 5 then 1 else code, s.sync.next)]
            else if e.MainStep? && s.main.Idle? then
              s'.main.Handling? && s.sync.queue == [s'.main.e] + s'.sync.queue
            else s'.sync.queue == if e.MainStep? && s.main.Deleting? then [] else s.sync.queue
    ensures e.CallStep? && s.sync.calls[e.t].Inside? ==>
              var code, c' := s.sync.calls[e.t].code, Next(s, e).sync.calls[e.t];
              c' == if code == 1 || code == 2 || code == 3 || code == 5 || 128 <= code <= 256 then Posting(code)
                    else Leaving
  {
    hide MainNext, CallNext, CallCanStep, MainCanStep, ServiceNext, DispatcherNext;
    match e
    case CallStep(t) =>
      CallQueue(s.main, s.sync, t);
      IsThere(s.sync, t);
    case MainStep(ok) => MainQueue(s, ok);
    case _ =>
  }

  // ------------------------------------------------------------------ what a stop leaves behind

  /** The call has a status still to set. */
  predicate WillSet(c: Call) {
    match c
    case Entering(code) => code == 1 || code == 2 || code == 3 || code == 256
    case Inside(code) => code == 1 || code == 2 || code == 3 || code == 256
    case Leaving => false
    case Reporting => false
    case _ => c.code == 2 || c.code == 3 || c.code == 256
  }

  ghost predicate NoneWillSet(calls: map<Tid, Call>) {
    forall u :: u in calls ==> !WillSet(calls[u])
  }

  /** The event begins a call that sets a status. */
  predicate BringsStatus(s: State, e: Step) {
    (e.Control? && (e.code == 1 || e.code == 2 || e.code == 3)) || (e.ServiceStep? && s.service.Starting?)
  }

  lemma EnterSets(y: Sync, t: Tid, pending: seq<Posted>)
    requires t in y.calls && InEntry(y.calls[t]) && NoneWillSet(y.calls)
    ensures NoneWillSet(EnterNext(y, t, y.calls[t], pending).calls)
  {
    hide PendingStatus, PostedCode;
  }

  lemma ExitSets(y: Sync, t: Tid)
    requires t in y.calls
    requires y.calls[t].Relocking? || y.calls[t].Resumed? || y.calls[t].Leaving? || y.calls[t].Reporting?
    requires NoneWillSet(y.calls)
    ensures NoneWillSet(ExitNext(y, t, y.calls[t]).calls)
  {
    hide FinalStatus;
  }

  lemma WakeSets(calls: map<Tid, Call>)
    requires NoneWillSet(calls)
    ensures NoneWillSet(WakeAll(calls))
  {
  }

  lemma StepSets(s: State, e: Step)
    requires Enabled(s, e) && NoneWillSet(s.sync.calls) && !BringsStatus(s, e)
    ensures NoneWillSet(Next(s, e).sync.calls)
  {
    match e
    case CallStep(t) =>
      if InEntry(s.sync.calls[t]) {
        EnterSets(s.sync, t, Pending(s.main, s.sync));
      } else {
        ExitSets(s.sync, t);
      }
      hide EnterNext, ExitNext, Pending, NoneWillSet;
    case MainStep(ok) =>
      WakeSets(s.sync.calls);
      hide WakeAll, StartNext, NoneWillSet;
    case Control(t, code) => hide CallCanStep;
    case _ => hide NoneWillSet;
  }

  lemma StopSets(y: Sync, m: Main, t: Tid)
    requires CallCanStep(y, t) && y.calls[t] == Inside(1)
    requires forall u :: u in y.calls && u != t ==> !WillSet(y.calls[u])
    ensures NoneWillSet(CallNext(m, y, t).calls)
  {
    hide Pending, PendingStatus;
  }

  lemma NothingSet(s: State, e: Step)
    requires Enabled(s, e) && NoneWillSet(s.sync.calls)
    ensures Next(s, e).sync.status == if SetsStopped(s, e) then Stopped else s.sync.status
  {
    hide Next, Enabled, NoneWillSet;
    StatusTable(s, e);
    NoSetter(s, e);
  }

  lemma NoSetter(s: State, e: Step)
    requires NoneWillSet(s.sync.calls)
    ensures forall code :: code == 1 || code == 2 || code == 3 || code == 256 ==> !CallAt(s, e, Inside(code))
    ensures forall code :: code == 2 || code == 3 || code == 256 ==> !CallAt(s, e, Resumed(code))
  {
  }

  ghost predicate StoppedBy(ss: seq<State>, es: seq<Step>, i: nat, k: nat)
    requires |ss| == |es| + 1 && k <= |es|
  {
    exists j :: i < j < k && SetsStopped(ss[j], es[j])
  }

  /** When a stop has been accepted and no other call has a status to set, then or later, the service is reported as
      stopping until the main thread has left its loop, and as stopped from then on. */
  lemma {:induction false} StopLasts(ss: seq<State>, es: seq<Step>, i: nat, k: nat, t: Tid)
    requires IsRun(ss, es) && i < k <= |es| && CallAt(ss[i], es[i], Inside(1)) && es[i].t == t
    requires forall u :: u in ss[i].sync.calls && u != t ==> !WillSet(ss[i].sync.calls[u])
    requires forall j :: i < j < k ==> !BringsStatus(ss[j], es[j])
    ensures NoneWillSet(ss[k].sync.calls)
    ensures ss[k].sync.status == if StoppedBy(ss, es, i, k) then Stopped else StopPending
  {
    hide Next, Enabled, NoneWillSet, WillSet, BringsStatus, SetsStopped;
    var s, e := ss[k - 1], es[k - 1];
    assert Enabled(s, e) && ss[k] == Next(s, e);
    if k == i + 1 {
      AcceptsStop(s, e);
    } else {
      StopLasts(ss, es, i, k - 1, t);
      StepSets(s, e);
      NothingSet(s, e);
      assert StoppedBy(ss, es, i, k) <==> StoppedBy(ss, es, i, k - 1) || SetsStopped(s, e);
    }
  }

  lemma AcceptsStop(s: State, e: Step)
    requires Enabled(s, e) && CallAt(s, e, Inside(1))
    requires forall u :: u in s.sync.calls && u != e.t ==> !WillSet(s.sync.calls[u])
    ensures Next(s, e).sync.status == StopPending && NoneWillSet(Next(s, e).sync.calls)
  {
    StatusTable(s, e);
    StopSets(s.sync, s.main, e.t);
    hide CallNext, NoneWillSet, WillSet;
  }

  // ------------------------------------------------------------------ a whole life

  /** serviceMain has posted the startup and waits. */
  lemma Posted256() returns (s: State)
    ensures Reachable(s)
    ensures s == State(Idle, Connected, Done, BOOTED,
                       Sync(map[0 := Waiting(256, 0, true)], Nobody, [Posted(256, 0)], true, StartPending, 1, {}))
  {
    hide Reachable;
    s := Booted();
    s := Reach(s, ServiceStep(true));
    s := Reach(s, CallStep(0));
    s := Reach(s, CallStep(0));
    s := Reach(s, CallStep(0));
    s := Reach(s, CallStep(0));
  }

  /** start() has been called, serviceMain's call has reported this and is over. */
  lemma Up() returns (s: State)
    ensures Reachable(s)
    ensures s == State(Idle, Connected, Done, BOOTED, Sync(map[], Nobody, [], true, Running, 1, {0}))
  {
    hide Reachable;
    s := Posted256();
    s := Reach(s, MainStep(true));
    s := Reach(s, MainStep(true));
    s := Reach(s, MainStep(true));
    s := Reach(s, MainStep(true));
    s := Reach(s, MainStep(true));
    s := Reach(s, CallStep(0));
    s := Reach(s, CallStep(0));
    s := Reach(s, CallStep(0));
    s := Reach(s, CallStep(0));
  }

  lemma AskedToStop() returns (s: State)
    ensures Reachable(s)
    ensures s == State(Idle, Connected, Done, BOOTED,
                       Sync(map[7 := Waiting(1, 1, true)], Nobody, [Posted(1, 1)], true, StopPending, 2, {0}))
  {
    hide Reachable;
    s := Up();
    s := Reach(s, Control(7, 1));
    s := Reach(s, CallStep(7));
    s := Reach(s, CallStep(7));
    s := Reach(s, CallStep(7));
    s := Reach(s, CallStep(7));
  }

  lemma StopWoken() returns (s: State)
    ensures Reachable(s)
    ensures s == State(Idle, Connected, Done, BOOTED,
                       Sync(map[7 := Relocking(1, 1)], Nobody, [], true, StopPending, 2, {0, 1}))
  {
    hide Reachable;
    s := AskedToStop();
    s := Reach(s, MainStep(true));
    s := Reach(s, MainStep(true));
    s := Reach(s, MainStep(true));
    s := Reach(s, MainStep(true));
    s := Reach(s, MainStep(true));
  }

  /** The stop has been handled, and the call that brought it is over. */
  lemma StopHandled() returns (s: State)
    ensures Reachable(s)
    ensures s == State(Idle, Connected, Done, BOOTED, Sync(map[], Nobody, [], true, StopPending, 2, {0, 1}))
  {
    hide Reachable;
    s := StopWoken();
    s := Reach(s, CallStep(7));
    s := Reach(s, CallStep(7));
    s := Reach(s, CallStep(7));
    s := Reach(s, CallStep(7));
  }

  /** A run through a service's whole life: it starts, runs, is asked to stop, stops and returns success. */
  lemma WholeLife() returns (s: State)
    ensures Reachable(s) && s.main == Returned(true) && s.sync.status == Stopped && s.sync.calls == map[]
    ensures s.sync.handled == {0, 1} && s.sync.queue == []
  {
    hide Reachable;
    s := StopHandled();
    s := Reach(s, Quit);
    s := Reach(s, MainStep(true));
    s := Reach(s, MainStep(true));
  }
}
