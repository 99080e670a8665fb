/** How a Windows service starts and answers its control handler
    (src/common/qtservice/qtservice_win.cpp), as a transition system: the main thread, the
    dispatcher thread, the thread that runs serviceMain, and any number of handler calls. */
module ServiceProtocol {

  type Tid = nat

  /** serviceMain calls the handler itself; its call goes by this number. */
  const SERVICE_MAIN: Tid := 0

  const STOP: nat := 1
  const PAUSE: nat := 2
  const CONTINUE: nat := 3
  const SHUTDOWN: nat := 5
  const STARTUP: nat := 256

  datatype Status = Stopped | StartPending | StopPending | Running | ContinuePending | PausePending | Paused

  /** A posted event and the number of its post. */
  datatype Posted = Posted(code: nat, ticket: nat)

  /** QtServiceBasePrivate::start() in the main thread. */
  datatype Main =
    | TryAcquire          // startSemaphore.tryAcquire(1, 20000)
    | CheckOk             // ht->calledOk()
    | CopyArgs            // argv from serviceArgs
    | CreateApp           // createApplication()
    | SetHandler          // controllerHandler = new ...
    | ReleaseSecond       // startSemaphore2.release()
    | Idle                // executeApplication(): the event loop
    | Handling(e: Posted) // handleCustomEvent(): the callback
    | Locking(e: Posted)  // mutex.lock()
    | Waking(e: Posted)   // condition.wakeAll(), mutex held
    | Unlocking           // mutex.unlock(), mutex held
    | Stopping            // setStatus(SERVICE_STOPPED)
    | Deleting            // delete controllerHandler
    | Returned(ok: bool)

  /** HandlerThread::run(). */
  datatype Dispatcher =
    | Calling     // StartServiceCtrlDispatcher()
    | Connected   // serviceMain was started
    | NotConnected // success is false; GetLastError()
    | Releasing   // startSemaphore.release()
    | Finished

  /** serviceMain(). */
  datatype Service = NotStarted | Appending(i: nat) | ReleaseFirst | AcquireSecond | Register | Starting | Done

  /** handler(code). */
  datatype Call =
    | Entering(code: nat)                              // mutex.lock()
    | Inside(code: nat)                                // mutex held: the switch, setStatus(..._PENDING)
    | Posting(code: nat)                               // mutex held: postEvent()
    | AboutToWait(code: nat, ticket: nat, alone: bool) // mutex held: condition.wait()
    | Waiting(code: nat, ticket: nat, alone: bool)
    | Relocking(code: nat, ticket: nat)                // woken: takes the mutex again
    | Resumed(code: nat)                               // mutex held: setStatus()
    | Leaving                                          // mutex held: mutex.unlock()
    | Reporting                                        // pSetServiceStatus()

  datatype Owner = Nobody | MainThread | Caller(t: Tid)

  /** What only the start uses; given is history: what Windows passes to serviceMain. */
  datatype Boot = Boot(sem1: nat, sem2: nat, success: bool, console: bool, serviceArgs: seq<string>,
                       argv: seq<string>, app: bool, registered: bool, given: seq<string>)

  /** What the main thread and the handler calls share. The fields next, handled and the alone of a call
      are history: they never influence a step. */
  datatype Sync = Sync(calls: map<Tid, Call>, mutex: Owner, queue: seq<Posted>, controllerHandler: bool,
                       status: Status, next: nat, handled: set<nat>)

  datatype State = State(main: Main, dispatcher: Dispatcher, service: Service, boot: Boot, sync: Sync)

  const Init := State(TryAcquire, Calling, NotStarted, Boot(0, 0, true, false, [], [], false, false, []),
                      Sync(map[], Nobody, [], false, Stopped, 0, {}))

  datatype Step =
    | MainStep(ok: bool)              // ok: what controller.start() or createApplication() yield
    | Timeout                         // twenty seconds have passed
    | Quit                            // the event loop ends
    | Connect(args: seq<string>)      // Windows starts serviceMain
    | Refuse                          // StartServiceCtrlDispatcher() fails
    | DispatcherStep(console: bool)   // console: the error is ERROR_FAILED_SERVICE_CONTROLLER_CONNECT
    | ServiceStep(ok: bool)           // ok: whether RegisterServiceCtrlHandler() succeeds
    | Control(t: Tid, code: nat)      // Windows calls the handler
    | CallStep(t: Tid)

  // ------------------------------------------------------------------ the main thread

  predicate InStart(m: Main) {
    m.TryAcquire? || m.CheckOk? || m.CopyArgs? || m.CreateApp?
  }

  /** The main thread runs the event loop, or is about to leave it. */
  predicate InLoop(m: Main) {
    m.Idle? || m.Handling? || m.Locking? || m.Waking? || m.Unlocking?
  }

  predicate MainCanStep(m: Main, b: Boot, y: Sync) {
    match m
    case TryAcquire => b.sem1 > 0
    case Idle => y.queue != []
    case Locking(_) => y.mutex == Nobody
    case Returned(_) => false
    case _ => true
  }

  function StartNext(m: Main, b: Boot, ok: bool): (r: (Main, Boot))
    requires InStart(m) && (m.TryAcquire? ==> b.sem1 > 0)
  {
    match m
    case TryAcquire => (CheckOk, b.(sem1 := b.sem1 - 1))
    case CheckOk => (if b.success then CopyArgs else Returned(b.console && ok), b)
    case CopyArgs => (CreateApp, b.(argv := b.serviceArgs))
    case CreateApp => (if ok then SetHandler else Returned(false), b.(app := ok))
  }

  function WakeAll(calls: map<Tid, Call>): map<Tid, Call> {
    map t | t in calls :: if calls[t].Waiting? then Relocking(calls[t].code, calls[t].ticket) else calls[t]
  }

  function LoopNext(m: Main, y: Sync): (r: (Main, Sync))
    requires InLoop(m) && (m.Idle? ==> y.queue != [])
  {
    match m
    case Idle => (Handling(y.queue[0]), y.(queue := y.queue[1..]))
    case Handling(e) => (Locking(e), y.(handled := y.handled + {e.ticket}))
    case Locking(e) => (Waking(e), y.(mutex := MainThread))
    case Waking(e) => (Unlocking, y.(calls := WakeAll(y.calls)))
    case Unlocking => (Idle, y.(mutex := Nobody))
  }

  function MainNext(s: State, ok: bool): State
    requires MainCanStep(s.main, s.boot, s.sync)
  {
    if InStart(s.main) then
      var (m, b) := StartNext(s.main, s.boot, ok); s.(main := m, boot := b)
    else if InLoop(s.main) then
      var (m, y) := LoopNext(s.main, s.sync); s.(main := m, sync := y)
    else match s.main
         case SetHandler => s.(main := ReleaseSecond, sync := s.sync.(controllerHandler := true))
         case ReleaseSecond => s.(main := Idle, boot := s.boot.(sem2 := s.boot.sem2 + 1))
         case Stopping => s.(main := Deleting, sync := s.sync.(status := Stopped))
         case Deleting => s.(main := Returned(true), sync := s.sync.(controllerHandler := false, queue := []))
  }

  // ------------------------------------------------------------------ the dispatcher and serviceMain

  predicate DispatcherCanStep(d: Dispatcher) {
    d.Connected? || d.NotConnected? || d.Releasing?
  }

  function DispatcherNext(d: Dispatcher, b: Boot, console: bool): (Dispatcher, Boot)
    requires DispatcherCanStep(d)
  {
    match d
    case Connected => (Finished, b)
    case NotConnected => (Releasing, b.(console := console))
    case Releasing => (Finished, b.(sem1 := b.sem1 + 1))
  }

  predicate ServiceCanStep(v: Service, b: Boot, y: Sync) {
    match v
    case NotStarted => false
    case Appending(i) => i <= |b.given|
    case AcquireSecond => b.sem2 > 0
    case Starting => SERVICE_MAIN !in y.calls
    case Done => false
    case _ => true
  }

  /** serviceMain up to its call of the handler. */
  function ServiceNext(v: Service, b: Boot, ok: bool): (Service, Boot)
    requires v.Appending? || v.ReleaseFirst? || v.AcquireSecond? || v.Register?
    requires v.Appending? ==> v.i <= |b.given|
    requires v.AcquireSecond? ==> b.sem2 > 0
  {
    match v
    case Appending(i) =>
      if i < |b.given| then (Appending(i + 1), b.(serviceArgs := b.serviceArgs + [b.given[i]]))
      else (ReleaseFirst, b)
    case ReleaseFirst => (AcquireSecond, b.(sem1 := b.sem1 + 1))
    case AcquireSecond => (Register, b.(sem2 := b.sem2 - 1))
    case Register => (if ok then Starting else Done, b.(registered := ok))
  }

  function ServiceStepNext(s: State, ok: bool): State
    requires ServiceCanStep(s.service, s.boot, s.sync)
  {
    if s.service.Starting? then
      s.(service := Done, sync := s.sync.(calls := s.sync.calls[SERVICE_MAIN := Entering(STARTUP)]))
    else
      var (v, b) := ServiceNext(s.service, s.boot, ok); s.(service := v, boot := b)
  }

  // ------------------------------------------------------------------ the control handler

  predicate Posts(code: nat) {
    code == STARTUP || code == STOP || code == PAUSE || code == CONTINUE || code == SHUTDOWN || 128 <= code <= 255
  }

  function PostedCode(code: nat): nat {
    if code == SHUTDOWN then STOP else code
  }

  function PendingStatus(code: nat, status: Status): Status {
    if code == STARTUP then StartPending
    else if code == STOP then StopPending
    else if code == PAUSE then PausePending
    else if code == CONTINUE then ContinuePending
    else status
  }

  function FinalStatus(code: nat, status: Status): Status {
    if code == STARTUP || code == CONTINUE then Running
    else if code == PAUSE then Paused
    else status
  }

  /** The posted events that are not done with, in order: first the one whose wakeAll is still to come. */
  function Pending(m: Main, y: Sync): seq<Posted> {
    (if m.Handling? || m.Locking? || m.Waking? then [m.e] else []) + y.queue
  }

  predicate CallCanStep(y: Sync, t: Tid) {
    && t in y.calls
    && match y.calls[t]
       case Entering(_) => y.mutex == Nobody
       case Waiting(_, _, _) => false
       case Relocking(_, _) => y.mutex == Nobody
       case _ => true
  }

  predicate InEntry(c: Call) {
    c.Entering? || c.Inside? || c.Posting? || c.AboutToWait?
  }

  /** Up to the wait; pending are the events posted before. */
  function EnterNext(y: Sync, t: Tid, c: Call, pending: seq<Posted>): Sync
    requires InEntry(c)
  {
    match c
    case Entering(code) => y.(mutex := Caller(t), calls := y.calls[t := Inside(code)])
    case Inside(code) =>
      if Posts(code) then y.(status := PendingStatus(code, y.status), calls := y.calls[t := Posting(code)])
      else y.(calls := y.calls[t := Leaving])
    case Posting(code) =>
      y.(queue := if y.controllerHandler then y.queue + [Posted(PostedCode(code), y.next)] else y.queue,
         next := y.next + 1,
         calls := y.calls[t := AboutToWait(code, y.next, pending == [])])
    case AboutToWait(code, k, alone) => y.(mutex := Nobody, calls := y.calls[t := Waiting(code, k, alone)])
  }

  /** From the wakeup on. */
  function ExitNext(y: Sync, t: Tid, c: Call): Sync
    requires c.Relocking? || c.Resumed? || c.Leaving? || c.Reporting?
  {
    match c
    case Relocking(code, _) => y.(mutex := Caller(t), calls := y.calls[t := Resumed(code)])
    case Resumed(code) => y.(status := FinalStatus(code, y.status), calls := y.calls[t := Leaving])
    case Leaving => y.(mutex := Nobody, calls := y.calls[t := Reporting])
    case Reporting => y.(calls := y.calls - {t})
  }

  function CallNext(m: Main, y: Sync, t: Tid): Sync
    requires CallCanStep(y, t)
  {
    var c := y.calls[t];
    if InEntry(c) then EnterNext(y, t, c, Pending(m, y)) else ExitNext(y, t, c)
  }

  // ------------------------------------------------------------------ runs

  predicate Enabled(s: State, e: Step) {
    match e
    case MainStep(_) => MainCanStep(s.main, s.boot, s.sync)
    case Timeout => s.main.TryAcquire?
    case Quit => s.main.Idle?
    case Connect(_) => s.dispatcher.Calling?
    case Refuse => s.dispatcher.Calling?
    case DispatcherStep(_) => DispatcherCanStep(s.dispatcher)
    case ServiceStep(_) => ServiceCanStep(s.service, s.boot, s.sync)
    case Control(t, code) => s.boot.registered && t != SERVICE_MAIN && t !in s.sync.calls && code < STARTUP
    case CallStep(t) => CallCanStep(s.sync, t)
  }

  function Next(s: State, e: Step): State
    requires Enabled(s, e)
  {
    match e
    case MainStep(ok) => MainNext(s, ok)
    case Timeout => s.(main := Returned(false))
    case Quit => s.(main := Stopping)
    case Connect(args) => s.(dispatcher := Connected, service := Appending(0), boot := s.boot.(given := args))
    case Refuse => s.(dispatcher := NotConnected, boot := s.boot.(success := false))
    case DispatcherStep(console) =>
      var (d, b) := DispatcherNext(s.dispatcher, s.boot, console); s.(dispatcher := d, boot := b)
    case ServiceStep(ok) => ServiceStepNext(s, ok)
    case Control(t, code) => s.(sync := s.sync.(calls := s.sync.calls[t := Entering(code)]))
    case CallStep(t) => s.(sync := CallNext(s.main, s.sync, t))
  }

  predicate IsRun(ss: seq<State>, es: seq<Step>) {
    && |ss| == |es| + 1
    && ss[0] == Init
    && forall i :: 0 <= i < |es| ==> Enabled(ss[i], es[i]) && ss[i + 1] == Next(ss[i], es[i])
  }
}
