/** What the service handshake guarantees in every run, and what it does not. */
module ServiceTheorems {
  import opened ServiceProtocol
  import opened ServiceSafety

  // ------------------------------------------------------------------ the start

  /** Whatever the order of the three threads: when the main thread copies the arguments, serviceMain has
      received them all, and it has not been the dispatcher's failure that let the main thread go on. */
  lemma ArgsAreComplete(ss: seq<State>, es: seq<Step>, i: nat)
    requires IsRun(ss, es) && i < |ss| && ss[i].main.CopyArgs?
    ensures ss[i].boot.serviceArgs == ss[i].boot.given && ss[i].boot.success
    ensures ArgsReady(ss[i].service)
  {
    RunKeepsInv(ss, es, i);
    hide IsRun;
  }

  /** An application exists only if serviceMain ran, and it was created with all its arguments. */
  lemma AppNeedsService(ss: seq<State>, es: seq<Step>, i: nat)
    requires IsRun(ss, es) && i < |ss| && ss[i].boot.app
    ensures ArgsReady(ss[i].service) && ss[i].boot.success
    ensures ss[i].boot.argv == ss[i].boot.given
    ensures !ss[i].dispatcher.Calling? && !ss[i].dispatcher.NotConnected? && !ss[i].dispatcher.Releasing?
  {
    RunKeepsInv(ss, es, i);
    hide IsRun;
  }

  /** If the dispatcher fails there is never an application, and start() cannot report success
      unless it was called from the console. */
  lemma RefusedMeansNoApp(ss: seq<State>, es: seq<Step>, i: nat)
    requires IsRun(ss, es) && i < |ss| && !ss[i].boot.success
    ensures !ss[i].boot.app && ss[i].sync.calls == map[]
    ensures ss[i].service.NotStarted?
    ensures ss[i].main == Returned(true) ==> ss[i].boot.console
  {
    RunKeepsInv(ss, es, i);
    RefusedOnlyByConsole(ss, es, i);
    hide IsRun;
  }

  /** If start() has reported success, somebody has released startSemaphore, and a failure was the console's. */
  predicate SuccessOk(m: Main, d: Dispatcher, v: Service, b: Boot) {
    m == Returned(true) ==> Signalled(d, v, b) && (!b.success ==> b.console)
  }

  lemma StartSuccess(m: Main, d: Dispatcher, v: Service, b: Boot, ok: bool)
    requires InStart(m) && (m.TryAcquire? ==> b.sem1 > 0) && MainOk(m, d, v, b)
    ensures var (m', b') := StartNext(m, b, ok); SuccessOk(m', d, v, b')
  {
  }

  lemma LoopNoSuccess(m: Main, y: Sync)
    requires InLoop(m) && (m.Idle? ==> y.queue != [])
    ensures !LoopNext(m, y).0.Returned?
  {
  }

  lemma MainSuccess(s: State, ok: bool)
    requires Inv(s) && MainCanStep(s.main, s.boot, s.sync)
    ensures var t := MainNext(s, ok); SuccessOk(t.main, t.dispatcher, t.service, t.boot)
  {
    hide MutexOk, QueueOk, ArgsOk, DispatcherOk, RegisteredOk, SyncOk, StartNext, LoopNext;
    if InStart(s.main) {
      StartSuccess(s.main, s.dispatcher, s.service, s.boot, ok);
    } else if InLoop(s.main) {
      LoopNoSuccess(s.main, s.sync);
    }
  }

  lemma StepSuccess(s: State, e: Step)
    requires Inv(s) && Enabled(s, e) && SuccessOk(s.main, s.dispatcher, s.service, s.boot)
    ensures var t := Next(s, e); SuccessOk(t.main, t.dispatcher, t.service, t.boot)
  {
    hide MutexOk, QueueOk, ArgsOk, MainOk, RegisteredOk, SyncOk, MainNext, CallNext, MainCanStep, CallCanStep;
    if e.MainStep? {
      MainSuccess(s, e.ok);
    }
  }

  lemma {:induction false} RefusedOnlyByConsole(ss: seq<State>, es: seq<Step>, i: nat)
    requires IsRun(ss, es) && i < |ss|
    ensures SuccessOk(ss[i].main, ss[i].dispatcher, ss[i].service, ss[i].boot)
  {
    hide Inv, Next, Enabled, Signalled;
    if i > 0 {
      RefusedOnlyByConsole(ss, es, i - 1);
      RunKeepsInv(ss, es, i - 1);
      assert Enabled(ss[i - 1], es[i - 1]) && ss[i] == Next(ss[i - 1], es[i - 1]);
      StepSuccess(ss[i - 1], es[i - 1]);
      hide SuccessOk;
    }
  }

  /** As long as start() has not returned, every event a handler call posts has a receiver. */
  lemma PostsHaveReceiver(ss: seq<State>, es: seq<Step>, i: nat, t: Tid)
    requires IsRun(ss, es) && i < |ss| && t in ss[i].sync.calls && !ss[i].main.Returned?
    ensures ss[i].sync.controllerHandler
  {
    RunKeepsInv(ss, es, i);
    hide IsRun;
  }

  // ------------------------------------------------------------------ the wait

  predicate IsWaiting(s: State, t: Tid) {
    t in s.sync.calls && s.sync.calls[t].Waiting?
  }

  /** The main thread has taken the event e and not yet called wakeAll for it. */
  predicate HasTaken(m: Main, e: Posted) {
    (m.Handling? || m.Locking? || m.Waking?) && m.e == e
  }

  /** No wakeup is lost: the event a waiting call posted is still queued, or the main thread has it and
      will call wakeAll. */
  lemma NoLostWakeup(ss: seq<State>, es: seq<Step>, i: nat, t: Tid)
    requires IsRun(ss, es) && i < |ss| && IsWaiting(ss[i], t) && ss[i].sync.controllerHandler
    ensures var e := EventOf(ss[i].sync.calls[t]);
            e in ss[i].sync.queue || HasTaken(ss[i].main, e)
  {
    RunKeepsInv(ss, es, i);
    hide IsRun, StartOk, MutexOk, InOrder, HandledOk;
    assert CallOk(ss[i].sync.calls[t], Pending(ss[i].main, ss[i].sync));
  }

  /** Nothing but wakeAll ends a wait, and wakeAll ends every wait. */
  lemma OnlyWakeAllWakes(s: State, e: Step, t: Tid)
    requires IsWaiting(s, t) && Enabled(s, e)
    ensures IsWaiting(Next(s, e), t) <==> !(e.MainStep? && s.main.Waking?)
    ensures IsWaiting(Next(s, e), t) ==> Next(s, e).sync.calls[t] == s.sync.calls[t]
  {
    match e
    case MainStep(ok) =>
      if InLoop(s.main) {
        LoopWakes(s.main, s.sync, t);
        hide LoopNext;
      } else {
        hide StartNext;
      }
    case CallStep(u) =>
      OtherCallWaits(s.main, s.sync, t, u);
      hide CallNext;
    case _ =>
      hide ServiceNext, DispatcherNext;
  }

  lemma LoopWakes(m: Main, y: Sync, t: Tid)
    requires t in y.calls && y.calls[t].Waiting? && InLoop(m) && (m.Idle? ==> y.queue != [])
    ensures t in LoopNext(m, y).1.calls
    ensures if m.Waking? then LoopNext(m, y).1.calls[t].Relocking?
            else LoopNext(m, y).1.calls[t] == y.calls[t]
  {
  }

  lemma OtherCallWaits(m: Main, y: Sync, t: Tid, u: Tid)
    requires t in y.calls && y.calls[t].Waiting? && CallCanStep(y, u)
    ensures t in CallNext(m, y, u).calls && CallNext(m, y, u).calls[t] == y.calls[t]
  {
    hide Pending;
  }

  // ------------------------------------------------------------------ how long it can take

  /** The steps the main thread takes before it next calls wakeAll, or returns. */
  function MainRank(m: Main): nat {
    match m
    case Unlocking => 4
    case Idle => 3
    case Handling(_) => 2
    case Locking(_) => 1
    case Stopping => 2
    case Deleting => 1
    case _ => 0
  }

  function MainSteps(es: seq<Step>): nat {
    if es == [] then 0 else MainSteps(es[..|es| - 1]) + if es[|es| - 1].MainStep? then 1 else 0
  }

  lemma RankFalls(s: State, e: Step, t: Tid)
    requires Inv(s) && Enabled(s, e) && IsWaiting(s, t) && IsWaiting(Next(s, e), t)
    ensures MainRank(Next(s, e).main) + (if e.MainStep? then 1 else 0) <= MainRank(s.main)
  {
    OnlyWakeAllWakes(s, e, t);
    assert Released(s.main);
    hide CallNext, ServiceNext, DispatcherNext, QueueOk, MutexOk, MainOk, ArgsOk, DispatcherOk, StartNext;
  }

  /** However the other threads run, a call waits for at most four steps of the main thread. */
  lemma {:induction false} WaitIsShort(ss: seq<State>, es: seq<Step>, i: nat, j: nat, t: Tid)
    requires IsRun(ss, es) && i <= j < |ss|
    requires forall k :: i <= k <= j ==> IsWaiting(ss[k], t)
    ensures MainSteps(es[i..j]) + MainRank(ss[j].main) <= MainRank(ss[i].main) <= 4
  {
    hide Next, Enabled, IsWaiting, Inv, MainRank;
    if i < j {
      WaitIsShort(ss, es, i, j - 1, t);
      RunKeepsInv(ss, es, j - 1);
      assert Enabled(ss[j - 1], es[j - 1]) && ss[j] == Next(ss[j - 1], es[j - 1]);
      RankFalls(ss[j - 1], es[j - 1], t);
      assert es[i..j][..j - 1 - i] == es[i..j - 1] && es[i..j][j - 1 - i] == es[j - 1];
    } else {
      RankBound(ss[i].main);
    }
  }

  lemma RankBound(m: Main)
    ensures MainRank(m) <= 4
  {
  }

  /** Meanwhile nobody can be stuck: the main thread can go on, or the call that holds the mutex can. */
  lemma SomebodyMoves(ss: seq<State>, es: seq<Step>, i: nat, t: Tid)
    requires IsRun(ss, es) && i < |ss| && IsWaiting(ss[i], t) && InLoop(ss[i].main)
    ensures var s := ss[i];
            || Enabled(s, MainStep(true))
            || (s.sync.mutex.Caller? && Enabled(s, CallStep(s.sync.mutex.t)))
  {
    RunKeepsInv(ss, es, i);
    hide IsRun, MainOk, ArgsOk, DispatcherOk, RegisteredOk, InOrder, HandledOk;
    assert CallOk(ss[i].sync.calls[t], Pending(ss[i].main, ss[i].sync));
  }

  function HolderRank(c: Call): nat {
    match c
    case Inside(_) => 3
    case Posting(_) => 2
    case AboutToWait(_, _, _) => 1
    case Resumed(_) => 2
    case Leaving => 1
    case _ => 0
  }

  /** The call that holds the mutex is never blocked, and after at most three steps it lets go. */
  lemma HolderLetsGo(s: State, t: Tid)
    requires Inv(s) && s.sync.mutex == Caller(t)
    ensures t in s.sync.calls && 0 < HolderRank(s.sync.calls[t]) <= 3 && CallCanStep(s.sync, t)
    ensures var y := CallNext(s.main, s.sync, t);
            && t in y.calls && HolderRank(y.calls[t]) < HolderRank(s.sync.calls[t])
            && (HolderRank(y.calls[t]) == 0 <==> y.mutex == Nobody)
  {
    hide StartOk, QueueOk, Pending;
  }

  // ------------------------------------------------------------------ after the loop

  predicate HasLeft(m: Main) {
    m.Stopping? || m.Deleting? || m.Returned?
  }

  /** Once the event loop has ended, a call that still waits does so for ever. */
  lemma {:induction false} StrandedForEver(ss: seq<State>, es: seq<Step>, i: nat, j: nat, t: Tid)
    requires IsRun(ss, es) && i <= j < |ss| && IsWaiting(ss[i], t) && HasLeft(ss[i].main)
    ensures IsWaiting(ss[j], t) && HasLeft(ss[j].main)
  {
    hide Next, Enabled, IsWaiting, HasLeft;
    if i < j {
      StrandedForEver(ss, es, i, j - 1, t);
      assert Enabled(ss[j - 1], es[j - 1]) && ss[j] == Next(ss[j - 1], es[j - 1]);
      LeftForGood(ss[j - 1], es[j - 1]);
      OnlyWakeAllWakes(ss[j - 1], es[j - 1], t);
    }
  }

  lemma LeftForGood(s: State, e: Step)
    requires HasLeft(s.main) && Enabled(s, e)
    ensures HasLeft(Next(s, e).main) && !s.main.Waking?
  {
    hide CallNext, ServiceNext, DispatcherNext, LoopNext, StartNext;
  }

  // ------------------------------------------------------------------ what a wakeup means

  /** wakeAll is broadcast: a call that is woken by it has been served exactly if nothing was pending
      when it posted its event; otherwise it returns before its own event is handled. */
  lemma ServedIffAlone(ss: seq<State>, es: seq<Step>, i: nat, t: Tid)
    requires IsRun(ss, es) && i < |es| && IsWaiting(ss[i], t) && !IsWaiting(ss[i + 1], t)
    ensures ss[i].main.Waking?
    ensures var c := ss[i].sync.calls[t];
            (c.alone <==> c.ticket in ss[i].sync.handled) && (c.alone <==> ss[i].main.e == EventOf(c))
  {
    RunKeepsInv(ss, es, i);
    assert Enabled(ss[i], es[i]) && ss[i + 1] == Next(ss[i], es[i]);
    OnlyWakeAllWakes(ss[i], es[i], t);
    WokenServed(ss[i], t);
    hide *;
  }

  lemma WokenServed(s: State, t: Tid)
    requires Inv(s) && IsWaiting(s, t) && s.main.Waking?
    ensures var c := s.sync.calls[t];
            (c.alone <==> c.ticket in s.sync.handled) && (c.alone <==> s.main.e == EventOf(c))
  {
    var c, q := s.sync.calls[t], Pending(s.main, s.sync);
    assert s.sync.controllerHandler;
    assert CallOk(c, q);
    assert q[0] == s.main.e && q[1..] == s.sync.queue;
    if !c.alone {
      var k :| 0 <= k < |q| && q[k] == EventOf(c);
      assert s.sync.queue[k - 1] == EventOf(c);
    }
    hide MutexOk, MainOk, ArgsOk, DispatcherOk;
  }

  predicate SameTicket(c: Call, d: Call) {
    HasTicket(c) && HasTicket(d) && c.ticket == d.ticket && c.alone == d.alone
  }

  /** A ticket is given out once, and what is recorded with it stays. */
  predicate TicketsKept(y: Sync, y': Sync) {
    && y.next <= y'.next
    && forall u :: u in y'.calls && HasTicket(y'.calls[u]) ==>
         (u in y.calls && SameTicket(y.calls[u], y'.calls[u])) || y'.calls[u].ticket == y.next
  }

  lemma CallKeepsTickets(m: Main, y: Sync, t: Tid)
    requires CallCanStep(y, t)
    ensures TicketsKept(y, CallNext(m, y, t))
  {
    hide Pending, PostedCode;
  }

  lemma LoopKeepsTickets(m: Main, y: Sync)
    requires InLoop(m) && (m.Idle? ==> y.queue != [])
    ensures TicketsKept(y, LoopNext(m, y).1)
  {
  }

  lemma StepKeepsTickets(s: State, e: Step)
    requires Enabled(s, e)
    ensures TicketsKept(s.sync, Next(s, e).sync)
  {
    hide CallNext, ServiceNext, DispatcherNext, LoopNext, StartNext, CallCanStep;
    match e
    case MainStep(ok) =>
      if InLoop(s.main) {
        LoopKeepsTickets(s.main, s.sync);
      }
    case CallStep(t) => CallKeepsTickets(s.main, s.sync, t);
    case _ =>
  }

  predicate Recorded(y: Sync, ticket: nat, alone: bool) {
    && ticket < y.next
    && forall u :: u in y.calls && HasTicket(y.calls[u]) && y.calls[u].ticket == ticket ==> y.calls[u].alone == alone
  }

  lemma KeptRecord(y: Sync, y': Sync, ticket: nat, alone: bool)
    requires Recorded(y, ticket, alone) && TicketsKept(y, y')
    ensures Recorded(y', ticket, alone)
  {
  }

  lemma PostRecords(s: State, t: Tid)
    requires Inv(s) && s.sync.controllerHandler && t in s.sync.calls && s.sync.calls[t].Posting?
    ensures Recorded(CallNext(s.main, s.sync, t), s.sync.next, Pending(s.main, s.sync) == [])
  {
    var y := s.sync;
    forall u | u in y.calls && HasTicket(y.calls[u]) ensures y.calls[u].ticket < y.next {
      assert CallOk(y.calls[u], Pending(s.main, y));
    }
    hide MutexOk, StartOk, HandledOk, Pending;
  }

  lemma {:induction false} AloneIsRemembered(ss: seq<State>, es: seq<Step>, j: nat, i: nat, t: Tid)
    requires IsRun(ss, es) && j < i < |ss| && es[j] == CallStep(t)
    requires ss[j].sync.controllerHandler && t in ss[j].sync.calls && ss[j].sync.calls[t].Posting?
    ensures Recorded(ss[i].sync, ss[j].sync.next, Pending(ss[j].main, ss[j].sync) == [])
  {
    hide Recorded, TicketsKept, Inv, Pending, MainNext, CallNext, ServiceStepNext, DispatcherNext, CallCanStep;
    assert Enabled(ss[i - 1], es[i - 1]) && ss[i] == Next(ss[i - 1], es[i - 1]);
    if i == j + 1 {
      RunKeepsInv(ss, es, j);
      PostRecords(ss[j], t);
    } else {
      AloneIsRemembered(ss, es, j, i - 1, t);
      StepKeepsTickets(ss[i - 1], es[i - 1]);
      KeptRecord(ss[i - 1].sync, ss[i].sync, ss[j].sync.next, Pending(ss[j].main, ss[j].sync) == []);
    }
  }

  /** The same from post to wakeup: a call that posts at step j and is woken at step i returns with its own
      event handled if and only if no event was pending at step j. */
  lemma ServedIffNothingPending(ss: seq<State>, es: seq<Step>, j: nat, i: nat, t: Tid)
    requires IsRun(ss, es) && j < i < |es| && es[j] == CallStep(t)
    requires ss[j].sync.controllerHandler && t in ss[j].sync.calls && ss[j].sync.calls[t].Posting?
    requires IsWaiting(ss[i], t) && ss[i].sync.calls[t].ticket == ss[j].sync.next && !IsWaiting(ss[i + 1], t)
    ensures ss[j].sync.next in ss[i].sync.handled <==> Pending(ss[j].main, ss[j].sync) == []
  {
    AloneIsRemembered(ss, es, j, i, t);
    ServedIffAlone(ss, es, i, t);
    hide IsRun, Pending;
  }

  // ------------------------------------------------------------------ when the service manager holds controls back

  predicate NotUpYet(status: Status) { status.Stopped? || status.StartPending? }

  /** Windows passes no control on to a service that has not reported that it is running. */
  predicate IsPoliteRun(ss: seq<State>, es: seq<Step>) {
    IsRun(ss, es) && forall i :: 0 <= i < |es| && es[i].Control? ==> !NotUpYet(ss[i].sync.status)
  }

  /** The main thread calls QtServiceBase::start(). */
  predicate CallsStart(m: Main, e: Step) {
    e.MainStep? && m.Handling? && m.e.code == STARTUP
  }

  predicate StartCalled(ss: seq<State>, es: seq<Step>, i: nat)
    requires |ss| == |es| + 1 && i <= |es|
  {
    exists j :: 0 <= j < i && CallsStart(ss[j].main, es[j])
  }

  /** Nobody but serviceMain has called the handler, and its call cannot have been woken. */
  predicate BeforeStart(m: Main, y: Sync) {
    && NotUpYet(y.status) && !m.Locking? && !m.Waking? && !m.Unlocking? && (m.Handling? ==> m.e.code == STARTUP)
    && (forall t :: t in y.calls ==>
          t == SERVICE_MAIN && (InEntry(y.calls[t]) || y.calls[t].Waiting?) && y.calls[t].code == STARTUP)
    && (forall i :: 0 <= i < |y.queue| ==> y.queue[i].code == STARTUP)
  }

  lemma LoopBeforeStart(m: Main, y: Sync)
    requires InLoop(m) && (m.Idle? ==> y.queue != []) && BeforeStart(m, y)
    ensures !m.Handling? ==> BeforeStart(LoopNext(m, y).0, LoopNext(m, y).1)
  {
  }

  lemma CallBeforeStart(m: Main, y: Sync, t: Tid)
    requires CallCanStep(y, t) && BeforeStart(m, y)
    ensures BeforeStart(m, CallNext(m, y, t))
  {
    hide Pending;
  }

  lemma StepBeforeStart(s: State, e: Step)
    requires Enabled(s, e) && BeforeStart(s.main, s.sync) && !e.Control? && !CallsStart(s.main, e)
    ensures BeforeStart(Next(s, e).main, Next(s, e).sync)
  {
    hide CallNext, ServiceNext, DispatcherNext, LoopNext, CallCanStep;
    match e
    case MainStep(ok) =>
      if InLoop(s.main) {
        LoopBeforeStart(s.main, s.sync);
      }
    case CallStep(t) => CallBeforeStart(s.main, s.sync, t);
    case _ =>
  }

  lemma {:induction false} UpMeansStarted(ss: seq<State>, es: seq<Step>, i: nat)
    requires IsPoliteRun(ss, es) && i < |ss|
    ensures StartCalled(ss, es, i) || BeforeStart(ss[i].main, ss[i].sync)
  {
    hide Next, Enabled, BeforeStart, CallsStart, NotUpYet;
    if i == 0 {
      NothingYet();
    } else {
      UpMeansStarted(ss, es, i - 1);
      var s, e := ss[i - 1], es[i - 1];
      assert Enabled(s, e) && ss[i] == Next(s, e);
      if StartCalled(ss, es, i - 1) {
        assert StartCalled(ss, es, i);
      } else if CallsStart(s.main, e) {
        assert StartCalled(ss, es, i);
      } else {
        NotUpBefore(s);
        StepBeforeStart(s, e);
      }
    }
  }

  lemma NothingYet()
    ensures BeforeStart(Init.main, Init.sync)
  {
  }

  lemma NotUpBefore(s: State)
    requires BeforeStart(s.main, s.sync)
    ensures NotUpYet(s.sync.status)
  {
  }

  /** Then a service reports anything other than Stopped and StartPending only after the main thread
      has called its start(). */
  lemma ReportsAfterStart(ss: seq<State>, es: seq<Step>, i: nat)
    requires IsPoliteRun(ss, es) && i < |ss| && !NotUpYet(ss[i].sync.status)
    ensures StartCalled(ss, es, i)
  {
    UpMeansStarted(ss, es, i);
    hide IsRun;
  }

  // ------------------------------------------------------------------ a run in which that happens

  ghost predicate Reachable(s: State) {
    exists ss, es :: IsRun(ss, es) && ss[|ss| - 1] == s
  }

  lemma Start()
    ensures Reachable(Init)
  {
    assert IsRun([Init], []);
  }

  lemma Reach(s: State, e: Step) returns (t: State)
    requires Reachable(s) && Enabled(s, e)
    ensures t == Next(s, e) && Reachable(t)
  {
    hide Next, Enabled;
    var ss, es :| IsRun(ss, es) && ss[|ss| - 1] == s;
    t := Next(s, e);
    var ss', es' := ss + [t], es + [e];
    forall i | 0 <= i < |es'| ensures Enabled(ss'[i], es'[i]) && ss'[i + 1] == Next(ss'[i], es'[i]) {
      if i < |es| {
        assert Enabled(ss[i], es[i]) && ss[i + 1] == Next(ss[i], es[i]);
      }
    }
    assert IsRun(ss', es');
  }

  const BOOTED := Boot(0, 0, true, false, [], [], true, true, [])

  lemma Received() returns (s: State)
    ensures Reachable(s)
    ensures s == State(TryAcquire, Connected, AcquireSecond, Boot(1, 0, true, false, [], [], false, false, []),
                       Sync(map[], Nobody, [], false, Stopped, 0, {}))
  {
    hide Reachable;
    Start();
    s := Reach(Init, Connect([]));
    s := Reach(s, ServiceStep(true));
    s := Reach(s, ServiceStep(true));
  }

  /** A service without arguments whose main thread has reached its event loop. */
  lemma Booted() returns (s: State)
    ensures Reachable(s)
    ensures s == State(Idle, Connected, Starting, BOOTED, Sync(map[], Nobody, [], true, Stopped, 0, {}))
  {
    hide Reachable;
    s := Received();
    s := Reach(s, MainStep(true));
    s := Reach(s, MainStep(true));
    s := Reach(s, MainStep(true));
    s := Reach(s, MainStep(true));
    s := Reach(s, MainStep(true));
    s := Reach(s, MainStep(true));
    s := Reach(s, ServiceStep(true));
    s := Reach(s, ServiceStep(true));
  }

  /** Windows asks the service to stop before serviceMain has posted the startup. */
  lemma StopOvertakes() returns (s: State)
    ensures Reachable(s)
    ensures s == State(Idle, Connected, Done, BOOTED,
                       Sync(map[1 := Waiting(STOP, 0, true), SERVICE_MAIN := Waiting(STARTUP, 1, false)], Nobody,
                            [Posted(STOP, 0), Posted(STARTUP, 1)], true, StartPending, 2, {}))
  {
    hide Reachable;
    s := Booted();
    s := Reach(s, Control(1, STOP));
    s := Reach(s, ServiceStep(true));
    s := Reach(s, CallStep(1));
    s := Reach(s, CallStep(1));
    s := Reach(s, CallStep(1));
    s := Reach(s, CallStep(1));
    s := Reach(s, CallStep(SERVICE_MAIN));
    s := Reach(s, CallStep(SERVICE_MAIN));
    s := Reach(s, CallStep(SERVICE_MAIN));
    s := Reach(s, CallStep(SERVICE_MAIN));
  }

  /** If a control does come before, a service can report RUNNING although its start() has not been called, and then
      leave its event loop without ever calling it. */
  lemma RunningTooEarly() returns (s: State)
    ensures Reachable(s) && s.sync.status == Running
    ensures Posted(STARTUP, 1) in s.sync.queue && s.sync.handled == {0}
    ensures Enabled(s, Quit)
  {
    hide Reachable;
    s := StopOvertakes();
    s := Reach(s, MainStep(true));
    s := Reach(s, MainStep(true));
    s := Reach(s, MainStep(true));
    s := Reach(s, MainStep(true));
    s := Reach(s, MainStep(true));
    s := Reach(s, CallStep(SERVICE_MAIN));
    s := Reach(s, CallStep(SERVICE_MAIN));
  }
}
