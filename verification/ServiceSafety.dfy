/** What every step of the service handshake keeps. */
module ServiceSafety {
  import opened ServiceProtocol

  // ------------------------------------------------------------------ the mutex

  predicate HoldsMutex(c: Call) {
    c.Inside? || c.Posting? || c.AboutToWait? || c.Resumed? || c.Leaving?
  }

  ghost predicate MutexOk(m: Main, y: Sync) {
    && (y.mutex.MainThread? <==> m.Waking? || m.Unlocking?)
    && (forall t :: t in y.calls ==> (HoldsMutex(y.calls[t]) <==> y.mutex == Caller(t)))
    && (y.mutex.Caller? ==> y.mutex.t in y.calls)
  }

  lemma LoopKeepsMutex(m: Main, y: Sync)
    requires MutexOk(m, y) && InLoop(m) && (m.Idle? ==> y.queue != []) && (m.Locking? ==> y.mutex == Nobody)
    ensures MutexOk(LoopNext(m, y).0, LoopNext(m, y).1)
  {
  }

  lemma EnterKeepsMutex(m: Main, y: Sync, t: Tid, pending: seq<Posted>)
    requires MutexOk(m, y) && CallCanStep(y, t) && InEntry(y.calls[t])
    ensures MutexOk(m, EnterNext(y, t, y.calls[t], pending))
  {
    hide Posts, PendingStatus, PostedCode;
  }

  lemma ExitKeepsMutex(m: Main, y: Sync, t: Tid)
    requires MutexOk(m, y) && CallCanStep(y, t) && !InEntry(y.calls[t])
    ensures MutexOk(m, ExitNext(y, t, y.calls[t]))
  {
    hide FinalStatus;
  }

  lemma MutexFrame(m: Main, m': Main, y: Sync, y': Sync)
    requires MutexOk(m, y) && y'.calls == y.calls && y'.mutex == y.mutex
    requires !m.Waking? && !m.Unlocking? && !m'.Waking? && !m'.Unlocking?
    ensures MutexOk(m', y')
  {
  }

  lemma CallKeepsMutex(m: Main, y: Sync, t: Tid)
    requires MutexOk(m, y) && CallCanStep(y, t)
    ensures MutexOk(m, CallNext(m, y, t))
  {
    if InEntry(y.calls[t]) {
      EnterKeepsMutex(m, y, t, Pending(m, y));
    } else {
      ExitKeepsMutex(m, y, t);
    }
    hide EnterNext, ExitNext, MutexOk, Pending;
  }

  lemma MainKeepsMutex(s: State, ok: bool)
    requires MutexOk(s.main, s.sync) && MainCanStep(s.main, s.boot, s.sync)
    ensures MutexOk(MainNext(s, ok).main, MainNext(s, ok).sync)
  {
    hide LoopNext, MutexOk;
    if InLoop(s.main) {
      LoopKeepsMutex(s.main, s.sync);
    } else {
      MutexFrame(s.main, MainNext(s, ok).main, s.sync, MainNext(s, ok).sync);
    }
  }

  lemma NewCallKeepsMutex(m: Main, y: Sync, t: Tid, code: nat)
    requires MutexOk(m, y) && t !in y.calls
    ensures MutexOk(m, y.(calls := y.calls[t := Entering(code)]))
  {
  }

  lemma StepKeepsMutex(s: State, e: Step)
    requires MutexOk(s.main, s.sync) && Enabled(s, e)
    ensures MutexOk(Next(s, e).main, Next(s, e).sync)
  {
    hide MutexOk, MainNext, CallNext, MainCanStep, CallCanStep, DispatcherNext, ServiceNext;
    match e
    case MainStep(ok) => MainKeepsMutex(s, ok);
    case CallStep(t) => CallKeepsMutex(s.main, s.sync, t);
    case Control(t, code) => NewCallKeepsMutex(s.main, s.sync, t, code);
    case ServiceStep(ok) =>
      if s.service.Starting? {
        NewCallKeepsMutex(s.main, s.sync, SERVICE_MAIN, STARTUP);
      }
    case Timeout => MutexFrame(s.main, Returned(false), s.sync, s.sync);
    case Quit => MutexFrame(s.main, Stopping, s.sync, s.sync);
    case _ =>
  }

  // ------------------------------------------------------------------ the start

  /** serviceMain has received all its arguments and said so. */
  predicate ArgsReady(v: Service) {
    v.AcquireSecond? || v.Register? || v.Starting? || v.Done?
  }

  predicate ArgsOk(v: Service, b: Boot) {
    match v
    case NotStarted => b.serviceArgs == []
    case Appending(i) => i <= |b.given| && b.serviceArgs == b.given[..i]
    case _ => b.serviceArgs == b.given
  }

  predicate DispatcherOk(d: Dispatcher, v: Service, b: Boot) {
    && (d.Calling? || d.NotConnected? || d.Releasing? ==> v.NotStarted?)
    && (d.Calling? ==> b.success)
    && (d.NotConnected? || d.Releasing? ==> !b.success)
    && (d.Connected? ==> !v.NotStarted?)
    && (d.Finished? ==> (b.success <==> !v.NotStarted?))
    && (!b.success ==> v.NotStarted?)
  }

  /** Somebody has released startSemaphore. */
  predicate Signalled(d: Dispatcher, v: Service, b: Boot) {
    ArgsReady(v) || (d.Finished? && !b.success)
  }

  predicate HasArgs(m: Main) {
    !m.TryAcquire? && !m.CheckOk? && !m.CopyArgs? && !m.Returned?
  }

  predicate MainOk(m: Main, d: Dispatcher, v: Service, b: Boot) {
    && (b.sem1 > 0 || m.CheckOk? ==> Signalled(d, v, b))
    && (m.CopyArgs? || HasArgs(m) || b.app ==> b.success && ArgsReady(v))
    && (HasArgs(m) || b.app ==> b.argv == b.given)
    && (HasArgs(m) && !m.CreateApp? ==> b.app)
  }

  /** startSemaphore2 has been released. */
  predicate Released(m: Main) {
    InLoop(m) || m.Stopping? || m.Deleting? || m == Returned(true)
  }

  predicate RegisteredOk(m: Main, v: Service, b: Boot) {
    && (b.sem2 > 0 || v.Register? || v.Starting? || v.Done? ==> Released(m))
    && (v.Starting? ==> b.registered)
    && (b.registered ==> v.Starting? || v.Done?)
  }

  predicate SyncOk(m: Main, b: Boot, y: Sync) {
    && (y.controllerHandler <==> m.ReleaseSecond? || InLoop(m) || m.Stopping? || m.Deleting?)
    && (y.calls != map[] ==> b.registered)
  }

  ghost predicate StartOk(s: State) {
    && ArgsOk(s.service, s.boot) && DispatcherOk(s.dispatcher, s.service, s.boot)
    && MainOk(s.main, s.dispatcher, s.service, s.boot) && RegisteredOk(s.main, s.service, s.boot)
    && SyncOk(s.main, s.boot, s.sync)
  }

  lemma StartStep(m: Main, d: Dispatcher, v: Service, b: Boot, ok: bool)
    requires InStart(m) && (m.TryAcquire? ==> b.sem1 > 0)
    requires ArgsOk(v, b) && DispatcherOk(d, v, b) && MainOk(m, d, v, b) && RegisteredOk(m, v, b)
    ensures var (m', b') := StartNext(m, b, ok);
            ArgsOk(v, b') && DispatcherOk(d, v, b') && MainOk(m', d, v, b') && RegisteredOk(m', v, b')
  {
  }

  lemma StartFrame(m: Main, b: Boot, ok: bool)
    requires InStart(m) && (m.TryAcquire? ==> b.sem1 > 0)
    ensures var (m', b') := StartNext(m, b, ok);
            (InStart(m') || m'.SetHandler? || m'.Returned?) && b'.registered == b.registered
  {
  }

  lemma LoopFrame(m: Main, y: Sync)
    requires InLoop(m) && (m.Idle? ==> y.queue != [])
    ensures var (m', y') := LoopNext(m, y);
            InLoop(m') && y'.controllerHandler == y.controllerHandler && y'.calls.Keys == y.calls.Keys
  {
  }

  lemma EmptyMaps(a: map<Tid, Call>, b: map<Tid, Call>)
    requires a.Keys == b.Keys
    ensures a == map[] <==> b == map[]
  {
    assert a != map[] ==> exists t :: t in a;
    assert b != map[] ==> exists t :: t in b;
  }

  lemma MainKeepsStart(s: State, ok: bool)
    requires StartOk(s) && MainCanStep(s.main, s.boot, s.sync)
    ensures StartOk(MainNext(s, ok))
  {
    if InStart(s.main) {
      StartStep(s.main, s.dispatcher, s.service, s.boot, ok);
      StartFrame(s.main, s.boot, ok);
      hide StartNext, LoopNext, ArgsOk, DispatcherOk, MainOk, RegisteredOk;
    } else if InLoop(s.main) {
      LoopFrame(s.main, s.sync);
      EmptyMaps(s.sync.calls, LoopNext(s.main, s.sync).1.calls);
      hide StartNext, LoopNext, ArgsOk, DispatcherOk;
    } else {
      hide StartNext, LoopNext, ArgsOk, DispatcherOk;
    }
  }

  lemma ServiceKeepsStart(m: Main, d: Dispatcher, v: Service, b: Boot, ok: bool)
    requires v.Appending? || v.ReleaseFirst? || v.AcquireSecond? || v.Register?
    requires v.Appending? ==> v.i <= |b.given|
    requires v.AcquireSecond? ==> b.sem2 > 0
    requires ArgsOk(v, b) && DispatcherOk(d, v, b) && MainOk(m, d, v, b) && RegisteredOk(m, v, b)
    ensures var (v', b') := ServiceNext(v, b, ok);
            ArgsOk(v', b') && DispatcherOk(d, v', b') && MainOk(m, d, v', b') && RegisteredOk(m, v', b')
    ensures b.registered ==> ServiceNext(v, b, ok).1.registered
  {
  }

  lemma DispatcherKeepsStart(m: Main, d: Dispatcher, v: Service, b: Boot, console: bool)
    requires DispatcherCanStep(d)
    requires ArgsOk(v, b) && DispatcherOk(d, v, b) && MainOk(m, d, v, b) && RegisteredOk(m, v, b)
    ensures var (d', b') := DispatcherNext(d, b, console);
            ArgsOk(v, b') && DispatcherOk(d', v, b') && MainOk(m, d', v, b') && RegisteredOk(m, v, b')
            && b'.registered == b.registered
  {
  }

  lemma CallFrame(m: Main, y: Sync, t: Tid)
    requires CallCanStep(y, t)
    ensures CallNext(m, y, t).controllerHandler == y.controllerHandler && y.calls != map[]
  {
  }

  lemma StepKeepsStart(s: State, e: Step)
    requires StartOk(s) && Enabled(s, e)
    ensures StartOk(Next(s, e))
  {
    hide MainNext, CallNext, MainCanStep, CallCanStep, DispatcherNext, ServiceNext;
    match e
    case MainStep(ok) => MainKeepsStart(s, ok);
    case ServiceStep(ok) => ServiceStepKeepsStart(s, ok);
    case DispatcherStep(console) =>
      DispatcherKeepsStart(s.main, s.dispatcher, s.service, s.boot, console);
      hide ArgsOk, DispatcherOk, MainOk, RegisteredOk;
    case CallStep(t) =>
      CallFrame(s.main, s.sync, t);
      hide ArgsOk, DispatcherOk, MainOk, RegisteredOk;
    case _ =>
  }

  lemma ServiceStepKeepsStart(s: State, ok: bool)
    requires StartOk(s) && ServiceCanStep(s.service, s.boot, s.sync)
    ensures StartOk(ServiceStepNext(s, ok))
  {
    if !s.service.Starting? {
      ServiceKeepsStart(s.main, s.dispatcher, s.service, s.boot, ok);
      hide ArgsOk, DispatcherOk, MainOk, RegisteredOk, ServiceNext;
    } else {
      hide ServiceNext;
    }
  }

  // ------------------------------------------------------------------ the posted events

  predicate HasTicket(c: Call) {
    c.AboutToWait? || c.Waiting?
  }

  predicate InOrder(q: seq<Posted>, next: nat) {
    && (forall i, j :: 0 <= i < j < |q| ==> q[i].ticket < q[j].ticket)
    && (forall i :: 0 <= i < |q| ==> q[i].ticket < next)
  }

  /** What a call posts. */
  function EventOf(c: Call): Posted
    requires HasTicket(c)
  {
    Posted(PostedCode(c.code), c.ticket)
  }

  /** The event of a waiting call is pending, and it is the first one exactly if nothing was pending
      when it was posted. */
  predicate CallOk(c: Call, q: seq<Posted>) {
    HasTicket(c) ==> EventOf(c) in q && (c.alone <==> q[0] == EventOf(c))
  }

  predicate HandledOk(m: Main, y: Sync) {
    && (forall k :: k in y.handled ==> k < y.next)
    && (forall i :: 0 <= i < |y.queue| ==> y.queue[i].ticket !in y.handled)
    && (m.Handling? ==> m.e.ticket !in y.handled)
    && (m.Locking? || m.Waking? ==> m.e.ticket in y.handled)
  }

  ghost predicate CallsOk(m: Main, y: Sync) {
    y.controllerHandler ==> forall t :: t in y.calls ==> CallOk(y.calls[t], Pending(m, y))
  }

  ghost predicate QueueOk(m: Main, y: Sync) {
    InOrder(Pending(m, y), y.next) && HandledOk(m, y) && CallsOk(m, y)
  }

  /** Except for wakeAll itself, the main thread only moves the first pending event along. */
  lemma LoopKeepsPending(m: Main, y: Sync)
    requires InLoop(m) && (m.Idle? ==> y.queue != []) && !m.Waking?
    ensures var (m', y') := LoopNext(m, y);
            Pending(m', y') == Pending(m, y) && y'.calls == y.calls && y'.next == y.next
            && y'.controllerHandler == y.controllerHandler
  {
  }

  lemma LoopKeepsHandled(m: Main, y: Sync)
    requires InLoop(m) && (m.Idle? ==> y.queue != [])
    requires InOrder(Pending(m, y), y.next) && HandledOk(m, y)
    ensures HandledOk(LoopNext(m, y).0, LoopNext(m, y).1)
  {
    if m.Handling? {
      assert Pending(m, y)[0] == m.e;
      assert forall i :: 0 <= i < |y.queue| ==> y.queue[i] == Pending(m, y)[i + 1];
    }
    hide WakeAll;
  }

  /** wakeAll wakes every call that has a ticket: none can be between its post and its wait. */
  lemma WakeClears(m: Main, y: Sync, t: Tid)
    requires m.Waking? && MutexOk(m, y) && t in y.calls
    ensures t in WakeAll(y.calls) && !HasTicket(WakeAll(y.calls)[t])
  {
  }

  lemma WakePending(m: Main, y: Sync)
    requires m.Waking? && InOrder(Pending(m, y), y.next)
    ensures var (m', y') := LoopNext(m, y);
            && y'.next == y.next && y'.calls == WakeAll(y.calls)
            && Pending(m', y') == y.queue && InOrder(y.queue, y.next)
  {
    hide WakeAll;
    var q := Pending(m, y);
    assert q[1..] == y.queue;
    assert forall i :: 0 <= i < |y.queue| ==> y.queue[i] == q[i + 1];
  }

  lemma NobodyHasTicket(m: Main, y: Sync)
    requires forall t :: t in y.calls ==> !HasTicket(y.calls[t])
    ensures CallsOk(m, y)
  {
    hide Pending;
  }

  lemma WakeKeepsQueue(m: Main, y: Sync)
    requires m.Waking? && QueueOk(m, y) && MutexOk(m, y)
    ensures QueueOk(LoopNext(m, y).0, LoopNext(m, y).1)
  {
    hide HandledOk, WakeAll, MutexOk, InOrder, CallsOk, LoopNext, Pending, HasTicket;
    var (m', y') := LoopNext(m, y);
    WakesInLoop(m);
    LoopKeepsHandled(m, y);
    WakePending(m, y);
    forall t | t in y'.calls ensures !HasTicket(y'.calls[t]) {
      WokenFrom(y, t);
      WakeClears(m, y, t);
    }
    NobodyHasTicket(m', y');
  }

  lemma WakesInLoop(m: Main)
    requires m.Waking?
    ensures InLoop(m)
  {
  }

  lemma WokenFrom(y: Sync, t: Tid)
    requires t in WakeAll(y.calls)
    ensures t in y.calls
  {
  }

  lemma LoopKeepsQueue(m: Main, y: Sync)
    requires InLoop(m) && (m.Idle? ==> y.queue != []) && QueueOk(m, y) && MutexOk(m, y)
    ensures QueueOk(LoopNext(m, y).0, LoopNext(m, y).1)
  {
    if m.Waking? {
      WakeKeepsQueue(m, y);
    } else {
      LoopKeepsPending(m, y);
      LoopKeepsHandled(m, y);
    }
    hide LoopNext, HandledOk, Pending, CallOk, InOrder, MutexOk;
  }

  lemma PostKeepsOrder(q: seq<Posted>, code: nat, next: nat)
    requires InOrder(q, next)
    ensures InOrder(q + [Posted(code, next)], next + 1)
  {
  }

  lemma PostKeepsCall(c: Call, q: seq<Posted>, p: Posted)
    requires CallOk(c, q)
    ensures CallOk(c, q + [p])
  {
    if HasTicket(c) {
      var i :| 0 <= i < |q| && q[i] == EventOf(c);
      assert (q + [p])[i] == EventOf(c);
    }
  }

  lemma PosterOk(q: seq<Posted>, code: nat, next: nat)
    requires InOrder(q, next)
    ensures CallOk(AboutToWait(code, next, q == []), q + [Posted(PostedCode(code), next)])
  {
    assert (q + [Posted(PostedCode(code), next)])[|q|] == EventOf(AboutToWait(code, next, q == []));
  }

  lemma QueueGrows(m: Main, y: Sync, y': Sync, p: Posted)
    requires y'.queue == y.queue + [p]
    ensures Pending(m, y') == Pending(m, y) + [p]
  {
  }

  lemma PostKeepsQueue(m: Main, y: Sync, t: Tid)
    requires QueueOk(m, y) && t in y.calls && y.calls[t].Posting? && y.controllerHandler
    ensures QueueOk(m, EnterNext(y, t, y.calls[t], Pending(m, y)))
  {
    var q, code := Pending(m, y), y.calls[t].code;
    var y' := EnterNext(y, t, y.calls[t], q);
    var p := Posted(PostedCode(code), y.next);
    QueueGrows(m, y, y', p);
    PostKeepsOrder(q, PostedCode(code), y.next);
    forall u | u in y'.calls ensures CallOk(y'.calls[u], Pending(m, y')) {
      if u == t {
        PosterOk(q, code, y.next);
      } else {
        PostKeepsCall(y.calls[u], q, p);
      }
    }
    hide CallOk, InOrder, Pending, PostedCode;
  }

  lemma QuietFrame(m: Main, y: Sync, y': Sync, t: Tid)
    requires QueueOk(m, y) && y'.queue == y.queue && y'.handled == y.handled && y.next <= y'.next
    requires y'.controllerHandler == y.controllerHandler
    requires forall u :: u in y'.calls && u != t ==> u in y.calls && y'.calls[u] == y.calls[u]
    requires t in y'.calls && y.controllerHandler ==>
      !HasTicket(y'.calls[t]) || (t in y.calls && HasTicket(y.calls[t]) &&
        EventOf(y'.calls[t]) == EventOf(y.calls[t]) && y'.calls[t].alone == y.calls[t].alone)
    ensures QueueOk(m, y')
  {
    assert Pending(m, y') == Pending(m, y);
    forall u | u in y'.calls && y.controllerHandler ensures CallOk(y'.calls[u], Pending(m, y)) {
      assert u != t ==> y'.calls[u] == y.calls[u];
      assert u in y.calls ==> CallOk(y.calls[u], Pending(m, y));
    }
    hide Pending;
  }

  lemma CallKeepsQueue(m: Main, y: Sync, t: Tid)
    requires QueueOk(m, y) && CallCanStep(y, t)
    ensures QueueOk(m, CallNext(m, y, t))
  {
    hide QueueOk, Pending;
    var c := y.calls[t];
    if InEntry(c) {
      if c.Posting? && y.controllerHandler {
        PostKeepsQueue(m, y, t);
      } else {
        QuietFrame(m, y, EnterNext(y, t, c, Pending(m, y)), t);
      }
    } else {
      QuietFrame(m, y, ExitNext(y, t, c), t);
    }
  }

  lemma SetHandlerKeepsQueue(m: Main, m': Main, y: Sync, y': Sync)
    requires QueueOk(m, y) && !InLoop(m) && !InLoop(m') && y'.calls == y.calls
    requires (y'.queue == y.queue || y'.queue == []) && y'.next == y.next && y'.handled == y.handled
    requires y.controllerHandler || y.calls == map[] || !y'.controllerHandler
    requires y'.queue == y.queue || !y'.controllerHandler
    ensures QueueOk(m', y')
  {
    assert Pending(m, y) == y.queue && Pending(m', y') == y'.queue;
  }

  lemma MainKeepsQueue(s: State, ok: bool)
    requires QueueOk(s.main, s.sync) && MutexOk(s.main, s.sync) && StartOk(s)
    requires MainCanStep(s.main, s.boot, s.sync)
    ensures QueueOk(MainNext(s, ok).main, MainNext(s, ok).sync)
  {
    if InLoop(s.main) {
      LoopKeepsQueue(s.main, s.sync);
      hide QueueOk, LoopNext;
    } else {
      assert s.main.SetHandler? ==> s.sync.calls == map[];
      if s.main.ReleaseSecond? {
        assert Pending(Idle, s.sync) == Pending(ReleaseSecond, s.sync);
      } else {
        if InStart(s.main) {
          StartFrame(s.main, s.boot, ok);
        }
        hide QueueOk, LoopNext, StartNext;
        SetHandlerKeepsQueue(s.main, MainNext(s, ok).main, s.sync, MainNext(s, ok).sync);
      }
    }
  }

  lemma NewCallKeepsQueue(m: Main, y: Sync, t: Tid, code: nat)
    requires QueueOk(m, y) && t !in y.calls
    ensures QueueOk(m, y.(calls := y.calls[t := Entering(code)]))
  {
    hide QueueOk;
    QuietFrame(m, y, y.(calls := y.calls[t := Entering(code)]), t);
  }

  lemma LeaveKeepsQueue(m: Main, m': Main, y: Sync)
    requires QueueOk(m, y) && (m.TryAcquire? || m.Idle?) && (m'.Returned? || m'.Stopping?)
    ensures QueueOk(m', y)
  {
    assert Pending(m, y) == Pending(m', y);
  }

  lemma StepKeepsQueue(s: State, e: Step)
    requires QueueOk(s.main, s.sync) && MutexOk(s.main, s.sync) && StartOk(s) && Enabled(s, e)
    ensures QueueOk(Next(s, e).main, Next(s, e).sync)
  {
    hide QueueOk, MutexOk, StartOk, MainNext, CallNext, MainCanStep, CallCanStep, DispatcherNext, ServiceNext;
    match e
    case MainStep(ok) => MainKeepsQueue(s, ok);
    case CallStep(t) => CallKeepsQueue(s.main, s.sync, t);
    case Control(t, code) => NewCallKeepsQueue(s.main, s.sync, t, code);
    case ServiceStep(ok) =>
      if s.service.Starting? {
        NewCallKeepsQueue(s.main, s.sync, SERVICE_MAIN, STARTUP);
      }
    case Timeout => LeaveKeepsQueue(s.main, Returned(false), s.sync);
    case Quit => LeaveKeepsQueue(s.main, Stopping, s.sync);
    case _ =>
  }

  // ------------------------------------------------------------------ every run

  ghost predicate Inv(s: State) {
    MutexOk(s.main, s.sync) && StartOk(s) && QueueOk(s.main, s.sync)
  }

  lemma InitOk()
    ensures Inv(Init)
  {
  }

  lemma StepKeepsInv(s: State, e: Step)
    requires Inv(s) && Enabled(s, e)
    ensures Inv(Next(s, e))
  {
    StepKeepsMutex(s, e);
    StepKeepsStart(s, e);
    StepKeepsQueue(s, e);
    hide QueueOk, MutexOk, StartOk, Next, Enabled;
  }

  lemma {:induction false} RunKeepsInv(ss: seq<State>, es: seq<Step>, i: nat)
    requires IsRun(ss, es) && i < |ss|
    ensures Inv(ss[i])
  {
    hide Inv, Next, Enabled;
    if i == 0 {
      InitOk();
    } else {
      RunKeepsInv(ss, es, i - 1);
      assert Enabled(ss[i - 1], es[i - 1]);
      StepKeepsInv(ss[i - 1], es[i - 1]);
    }
  }
}
