/** The five-worker ping scheduler of src/celovpn/authmanager.cpp. */
module PingPool {
  import opened Common

  const PINGWORKERS_NUM: nat := 5

  /** The scheduler's fields. A worker is true once it has a process, a timer while it was started and not
      stopped again; a ping of -1 is an unknown one. */
  datatype State = State(servers: nat, pings: seq<int>, toPing: seq<nat>, workers: seq<bool>,
                         inProgress: seq<nat>, timers: seq<bool>, pingsLoaded: bool)

  // ------------------------------------------------------------------ one step, as a function

  predicate HasWorkers(s: State) {
    |s.workers| == |s.inProgress| == |s.timers| == PINGWORKERS_NUM
  }

  /** startWorker: take the next server, if there is one. */
  function Started(s: State, id: nat): (t: State)
    requires HasWorkers(s) && id < PINGWORKERS_NUM
    ensures HasWorkers(t)
  {
    if s.toPing == [] then s.(pingsLoaded := true)
    else s.(toPing := s.toPing[1..], inProgress := s.inProgress[id := s.toPing[0]],
            workers := s.workers[id := true], timers := s.timers[id := true])
  }

  predicate CanFire(s: State, id: nat) {
    HasWorkers(s) && id < PINGWORKERS_NUM && s.workers[id] && s.inProgress[id] < |s.pings|
  }

  /** Completion, error and timeout of a worker's ping: store the result p, then take the next server. */
  function Fired(s: State, e: Event): (t: State)
    requires CanFire(s, e.id)
    ensures HasWorkers(t)
  {
    var stopped := s.(pings := s.pings[s.inProgress[e.id] := e.ping],
                      timers := if e.Terminated? then s.timers else s.timers[e.id := false]);
    Started(stopped, e.id)
  }

  datatype Event = Complete(id: nat, ping: int) | Error(id: nat, ping: int) | Terminated(id: nat, ping: int)

  function Range(lo: nat, hi: nat): (r: seq<nat>)
    requires lo <= hi
    ensures |r| == hi - lo && forall k :: 0 <= k < |r| ==> r[k] == lo + k
  {
    seq(hi - lo, k requires 0 <= k => lo + k)
  }

  function Unknown(n: nat): (r: seq<int>)
    ensures |r| == n && forall k :: 0 <= k < n ==> r[k] == -1
  {
    seq(n, _ => -1)
  }

  /** Start the workers 0 .. k - 1, as long as there are servers for them. */
  function StartFirst(s: State, k: nat): (t: State)
    requires HasWorkers(s) && k <= PINGWORKERS_NUM
    ensures HasWorkers(t)
  {
    if k == 0 then s
    else
      var t := StartFirst(s, k - 1);
      if t.toPing == [] then t else Started(t, k - 1)
  }

  /** Pings of servers that have none yet, the servers behind those still queued, and workers if there are none. */
  function Queued(s: State): (t: State)
    requires NoWorkers(s) || HasWorkers(s)
    ensures HasWorkers(t)
  {
    var t := s.(pings := if |s.pings| < s.servers then s.pings + Unknown(s.servers - |s.pings|) else s.pings,
                toPing := s.toPing + Range(0, s.servers), pingsLoaded := false);
    if HasWorkers(s) then t
    else t.(workers := seq(PINGWORKERS_NUM, _ => false), inProgress := seq(PINGWORKERS_NUM, _ => 0),
            timers := seq(PINGWORKERS_NUM, _ => false))
  }

  predicate NoWorkers(s: State) {
    s.workers == s.timers == [] && s.inProgress == []
  }

  /** pingAllServers. */
  function PingAll(s: State): (t: State)
    requires NoWorkers(s) || HasWorkers(s)
    ensures HasWorkers(t)
  {
    StartFirst(Queued(s), PINGWORKERS_NUM)
  }

  lemma {:induction false} StartsNoMore(s: State, k: nat, m: nat)
    requires HasWorkers(s) && k <= m <= PINGWORKERS_NUM && StartFirst(s, k).toPing == []
    ensures StartFirst(s, m) == StartFirst(s, k)
  {
    if k < m {
      StartsNoMore(s, k, m - 1);
    }
  }

  /** n servers are known and the first k workers have been started, on the first k servers. */
  function BegunTo(n: nat, k: nat): (s: State)
    requires k <= n && k <= PINGWORKERS_NUM
    ensures HasWorkers(s)
  {
    State(n, Unknown(n), Range(k, n),
          seq(PINGWORKERS_NUM, i requires 0 <= i => i < k),
          seq(PINGWORKERS_NUM, i requires 0 <= i => if i < k then i else 0),
          seq(PINGWORKERS_NUM, i requires 0 <= i => i < k), false)
  }

  /** After the first pingAllServers on n servers: the first workers ping the first servers. */
  function Begun(n: nat): (s: State)
    ensures HasWorkers(s)
  {
    BegunTo(n, Min(PINGWORKERS_NUM, n))
  }

  lemma {:induction false} StartsBegin(n: nat, k: nat)
    requires k <= n && k <= PINGWORKERS_NUM
    ensures StartFirst(BegunTo(n, 0), k) == BegunTo(n, k)
  {
    hide BegunTo, Started;
    if k > 0 {
      StartsBegin(n, k - 1);
      NextBegun(n, k - 1);
      QueueOf(n, k - 1);
    }
  }

  lemma QueueOf(n: nat, k: nat)
    requires k <= n && k <= PINGWORKERS_NUM
    ensures BegunTo(n, k).toPing == Range(k, n)
  {
  }

  /** The first call starts min(5, n) workers on the first servers, and queues the others. */
  lemma FirstRound(n: nat, loaded: bool)
    ensures PingAll(State(n, [], [], [], [], [], loaded)) == Begun(n)
  {
    var s := State(n, [], [], [], [], [], loaded);
    NoneBegun(n);
    assert Queued(s) == BegunTo(n, 0);
    var k := Min(PINGWORKERS_NUM, n);
    StartsBegin(n, k);
    if k < PINGWORKERS_NUM {
      StartsNoMore(BegunTo(n, 0), k, PINGWORKERS_NUM);
    }
  }

  lemma NextBegun(n: nat, k: nat)
    requires k < n && k < PINGWORKERS_NUM
    ensures Started(BegunTo(n, k), k) == BegunTo(n, k + 1)
  {
    var s, t := Started(BegunTo(n, k), k), BegunTo(n, k + 1);
    assert s.toPing == t.toPing;
    assert s.workers == t.workers && s.timers == t.timers;
    assert s.inProgress == t.inProgress;
  }

  lemma NoneBegun(n: nat)
    ensures BegunTo(n, 0).workers == seq(PINGWORKERS_NUM, _ => false)
    ensures BegunTo(n, 0).timers == seq(PINGWORKERS_NUM, _ => false)
    ensures BegunTo(n, 0).inProgress == seq(PINGWORKERS_NUM, _ => 0)
  {
  }

  lemma UnknownMore(n: nat)
    ensures Unknown(n) + [-1] == Unknown(n + 1) && Unknown(0) == []
  {
  }

  lemma RangeMore(n: nat)
    ensures Range(0, n) + [n] == Range(0, n + 1) && Range(0, 0) == []
  {
  }

  /** The first m workers have taken the first m servers from the queue. */
  predicate StartedTo(s: State, t: State, m: nat)
    requires HasWorkers(s)
  {
    && HasWorkers(t) && m <= PINGWORKERS_NUM && m <= |s.toPing| && t.toPing == s.toPing[m..]
    && t.servers == s.servers && t.pings == s.pings && t.pingsLoaded == s.pingsLoaded
    && forall k :: 0 <= k < PINGWORKERS_NUM ==>
         && t.workers[k] == (k < m || s.workers[k]) && t.timers[k] == (k < m || s.timers[k])
         && t.inProgress[k] == if k < m then s.toPing[k] else s.inProgress[k]
  }

  lemma {:induction false} StartsInOrder(s: State, k: nat)
    requires HasWorkers(s) && k <= PINGWORKERS_NUM
    ensures StartedTo(s, StartFirst(s, k), Min(k, |s.toPing|))
  {
    if k > 0 {
      StartsInOrder(s, k - 1);
      OneMoreStarted(s, StartFirst(s, k - 1), k - 1);
      hide StartedTo, Started;
    }
  }

  lemma OneMoreStarted(s: State, t: State, k: nat)
    requires HasWorkers(s) && StartedTo(s, t, Min(k, |s.toPing|)) && k < PINGWORKERS_NUM
    ensures StartedTo(s, if t.toPing == [] then t else Started(t, k), Min(k + 1, |s.toPing|))
  {
  }

  /** The first m workers hold the servers at the head of a queue; the others are as they were. */
  predicate TakenFrom(q: seq<nat>, m: nat, s: State, t: State) {
    && HasWorkers(t) && m <= |q| && m <= 5
    && forall k :: 0 <= k < 5 ==>
         if k < m then t.workers[k] && t.timers[k] && t.inProgress[k] == q[k]
         else if HasWorkers(s) then
           t.workers[k] == s.workers[k] && t.timers[k] == s.timers[k] && t.inProgress[k] == s.inProgress[k]
         else !t.workers[k] && !t.timers[k]
  }

  /** Any later call does the same behind what is still queued: known pings are kept and the others are unknown, all
      servers are queued once more, and the first five workers take the servers at the head of the queue whether they
      have been waiting for another one or not. */
  lemma LaterRound(s: State) returns (q: seq<nat>)
    requires NoWorkers(s) || HasWorkers(s)
    ensures |q| == |s.toPing| + s.servers
    ensures forall k :: 0 <= k < |q| ==> q[k] == if k < |s.toPing| then s.toPing[k] else k - |s.toPing|
    ensures var t, m := PingAll(s), if |q| < 5 then |q| else 5;
            && TakenFrom(q, m, s, t) && t.toPing == q[m..] && t.servers == s.servers && !t.pingsLoaded
            && |t.pings| == (if |s.pings| < s.servers then s.servers else |s.pings|)
            && forall k :: 0 <= k < |t.pings| ==> t.pings[k] == if k < |s.pings| then s.pings[k] else -1
  {
    var u := Queued(s);
    q := u.toPing;
    StartsInOrder(u, 5);
    hide StartFirst;
  }

  // ------------------------------------------------------------------ the scheduler in place

  /** The part of AuthManager that pings; its server lists are in Servers. */
  class PingScheduler {
    var mServers: seq<string>
    var mPings: seq<int>
    var mToPing: seq<nat>
    var mWorkers: seq<bool>
    var mInProgress: seq<nat>
    var mTimers: seq<bool>
    var mPingsLoaded: bool

    /** A manager that has just received this server list. */
    constructor (servers: seq<string>)
      ensures mServers == servers
      ensures View() == State(|servers|, [], [], [], [], [], false)
    {
      mServers, mPings, mToPing, mWorkers, mInProgress, mTimers, mPingsLoaded := servers, [], [], [], [], [], false;
    }

    function View(): State
      reads this
    {
      State(|mServers|, mPings, mToPing, mWorkers, mInProgress, mTimers, mPingsLoaded)
    }

    method StartWorker(id: nat)
      requires HasWorkers(View()) && id < PINGWORKERS_NUM
      modifies this
      ensures mServers == old(mServers) && View() == Started(old(View()), id)
    {
      if |mToPing| > 0 {
        var srv := mToPing[0];
        mToPing := mToPing[1..];
        mInProgress := mInProgress[id := srv];
        mWorkers := mWorkers[id := true];
        mTimers := mTimers[id := true];
      } else if !mPingsLoaded {
        mPingsLoaded := true;
      }
    }

    method PingComplete(idWaiter: nat, p: int)
      requires CanFire(View(), idWaiter)
      modifies this
      ensures mServers == old(mServers) && View() == Fired(old(View()), Complete(idWaiter, p))
    {
      mTimers := mTimers[idWaiter := false];
      mPings := mPings[mInProgress[idWaiter] := p];
      StartWorker(idWaiter);
    }

    method PingError(idWaiter: nat, p: int)
      requires CanFire(View(), idWaiter)
      modifies this
      ensures mServers == old(mServers) && View() == Fired(old(View()), Error(idWaiter, p))
    {
      mTimers := mTimers[idWaiter := false];
      mPings := mPings[mInProgress[idWaiter] := p];
      StartWorker(idWaiter);
    }

    method PingTerminated(idWaiter: nat, p: int)
      requires CanFire(View(), idWaiter)
      modifies this
      ensures mServers == old(mServers) && View() == Fired(old(View()), Terminated(idWaiter, p))
    {
      mPings := mPings[mInProgress[idWaiter] := p];
      StartWorker(idWaiter);
    }

    method PingAllServers()
      requires NoWorkers(View()) || HasWorkers(View())
      modifies this
      ensures mServers == old(mServers) && View() == PingAll(old(View()))
    {
      hide Range, StartFirst, Unknown;
      ghost var was := View();
      FillPings();
      QueueAll();
      if |mWorkers| == 0 {
        mInProgress := seq(PINGWORKERS_NUM, _ => 0);
        mWorkers := seq(PINGWORKERS_NUM, _ => false);
        mTimers := seq(PINGWORKERS_NUM, _ => false);
      }
      mPingsLoaded := false;
      assert View() == Queued(was);
      StartWorkers();
    }

    method QueueAll()
      modifies this`mToPing
      ensures mToPing == old(mToPing) + Range(0, |mServers|)
    {
      hide Range;
      RangeMore(0);
      for k := 0 to |mServers|
        invariant mToPing == old(mToPing) + Range(0, k)
      {
        RangeMore(k);
        mToPing := mToPing + [k];
      }
    }

    method FillPings()
      modifies this`mPings
      ensures mPings == if |old(mPings)| < |mServers| then old(mPings) + Unknown(|mServers| - |old(mPings)|)
                        else old(mPings)
    {
      hide Unknown;
      ghost var was := mPings;
      UnknownMore(0);
      while |mPings| < |mServers|
        invariant |was| <= |mPings| && (|mPings| <= |mServers| || mPings == was)
        invariant mPings == was + Unknown(|mPings| - |was|)
      {
        UnknownMore(|mPings| - |was|);
        mPings := mPings + [-1];
      }
    }

    /** The last loop of pingAllServers. */
    method StartWorkers()
      requires HasWorkers(View())
      modifies this
      ensures mServers == old(mServers) && View() == StartFirst(old(View()), PINGWORKERS_NUM)
    {
      hide Started;
      ghost var was := View();
      var k := 0;
      while k < |mWorkers| && |mToPing| > 0
        invariant k <= PINGWORKERS_NUM && mServers == old(mServers) && View() == StartFirst(was, k)
        decreases PINGWORKERS_NUM - k
      {
        StartWorker(k);
        k := k + 1;
      }
      if k < PINGWORKERS_NUM {
        StartsNoMore(was, k, PINGWORKERS_NUM);
      }
    }
  }

  // ------------------------------------------------------------------ one round

  /** A started worker can fire at any time and any number of times: its process may end or fail, and a
      timeout can be delivered more than once. */
  ghost predicate IsRound(n: nat, ss: seq<State>, es: seq<Event>) {
    && |ss| == |es| + 1
    && ss[0] == Begun(n)
    && forall i :: 0 <= i < |es| ==> CanFire(ss[i], es[i].id) && ss[i + 1] == Fired(ss[i], es[i])
  }

  /** The events of a prefix that found a server to ping. */
  function Work(ss: seq<State>, i: nat): nat
    requires i <= |ss|
  {
    if i == 0 then 0 else Work(ss, i - 1) + if ss[i - 1].toPing != [] then 1 else 0
  }

  /** The servers dequeued so far are 0 .. Taken - 1. */
  function Taken(s: State): int { s.servers - |s.toPing| }

  ghost predicate Inv(n: nat, s: State) {
    && HasWorkers(s) && s.servers == n == |s.pings| && |s.toPing| <= n
    && s.toPing == Range(n - |s.toPing|, n) && Taken(s) >= Min(PINGWORKERS_NUM, n)
    && (forall k :: 0 <= k < PINGWORKERS_NUM ==> (s.workers[k] <==> k < Min(PINGWORKERS_NUM, n)))
    && (forall k :: 0 <= k < PINGWORKERS_NUM && s.workers[k] ==> s.inProgress[k] < Taken(s))
    && (forall j, k :: 0 <= j < k < PINGWORKERS_NUM && s.workers[j] && s.workers[k] ==>
          s.inProgress[j] != s.inProgress[k])
  }

  lemma BegunOk(n: nat)
    ensures Inv(n, Begun(n))
  {
  }

  lemma FiredOk(n: nat, s: State, e: Event)
    requires Inv(n, s) && CanFire(s, e.id)
    ensures Inv(n, Fired(s, e))
  {
    if s.toPing != [] {
      assert s.toPing[0] == Taken(s);
      assert s.toPing[1..] == Range(n - |s.toPing| + 1, n);
    }
  }

  lemma {:induction false} RoundOk(n: nat, ss: seq<State>, es: seq<Event>, i: nat)
    requires IsRound(n, ss, es) && i < |ss|
    ensures Inv(n, ss[i])
  {
    hide Inv, Fired, CanFire;
    if i == 0 {
      BegunOk(n);
    } else {
      RoundOk(n, ss, es, i - 1);
      assert CanFire(ss[i - 1], es[i - 1].id);
      FiredOk(n, ss[i - 1], es[i - 1]);
    }
  }

  /** What an event of a worker changes: the ping of the server it held; and then the worker takes the next server and
      its timer is started, or, if there is none, the pings are loaded and the timer is off unless it was the timer
      itself that ended the ping. */
  lemma EventEffect(s: State, e: Event)
    requires CanFire(s, e.id)
    ensures var t, id := Fired(s, e), e.id;
            && t.servers == s.servers && |t.pings| == |s.pings|
            && (forall k :: 0 <= k < |t.pings| ==> t.pings[k] == if k == s.inProgress[id] then e.ping else s.pings[k])
            && (if s.toPing == [] then
                  && t.toPing == [] && t.pingsLoaded && t.inProgress == s.inProgress && t.workers == s.workers
                  && t.timers[id] == (e.Terminated? && s.timers[id])
                else
                  && s.toPing == [t.inProgress[id]] + t.toPing && t.workers[id] && t.timers[id]
                  && t.pingsLoaded == s.pingsLoaded)
            && (forall k :: 0 <= k < 5 && k != id ==>
                  t.inProgress[k] == s.inProgress[k] && t.workers[k] == s.workers[k] && t.timers[k] == s.timers[k])
  {
    if s.toPing != [] {
      assert s.toPing == [s.toPing[0]] + s.toPing[1..];
    }
  }

  // ------------------------------------------------------------------ what every round does

  lemma FiredQueue(s: State, e: Event)
    requires CanFire(s, e.id)
    ensures Fired(s, e).toPing == if s.toPing == [] then [] else s.toPing[1..]
  {
  }

  /** Servers leave the queue one at a time and in order; the workers started at the beginning take the first
      ones, and at most n - min(5, n) later events find a server to ping. */
  lemma {:induction false} DequeuedInOrder(n: nat, ss: seq<State>, es: seq<Event>, i: nat)
    requires IsRound(n, ss, es) && i < |ss|
    ensures Min(PINGWORKERS_NUM, n) + Work(ss, i) <= n
    ensures ss[i].toPing == Range(Min(PINGWORKERS_NUM, n) + Work(ss, i), n)
  {
    hide Fired, CanFire, Begun, Range;
    if i == 0 {
      BegunQueue(n);
    } else {
      DequeuedInOrder(n, ss, es, i - 1);
      assert CanFire(ss[i - 1], es[i - 1].id);
      FiredQueue(ss[i - 1], es[i - 1]);
      RangeRest(Min(PINGWORKERS_NUM, n) + Work(ss, i - 1), n);
    }
  }

  lemma BegunQueue(n: nat)
    ensures Begun(n).toPing == Range(Min(PINGWORKERS_NUM, n), n)
  {
  }

  lemma RangeRest(a: nat, b: nat)
    requires a <= b
    ensures if a == b then Range(a, b) == [] else Range(a, b) != [] && Range(a, b)[1..] == Range(a + 1, b)
  {
  }

  predicate Holds(s: State, k: nat, srv: nat) {
    HasWorkers(s) && k < PINGWORKERS_NUM && s.workers[k] && s.inProgress[k] == srv
  }

  /** Worker k holds srv after an event: it held it before, or it has just taken it from the queue. */
  lemma HoldsAfter(n: nat, s: State, e: Event, k: nat, srv: nat)
    requires Inv(n, s) && CanFire(s, e.id)
    ensures Holds(Fired(s, e), k, srv) <==>
            if k == e.id && s.toPing != [] then srv == Taken(s) else Holds(s, k, srv)
  {
    assert s.toPing != [] ==> s.toPing[0] == Taken(s);
  }

  lemma TakenGrows(n: nat, s: State, e: Event)
    requires Inv(n, s) && CanFire(s, e.id)
    ensures Taken(Fired(s, e)) == Taken(s) + if s.toPing == [] then 0 else 1
  {
  }

  lemma HeldIsTaken(n: nat, s: State, k: nat, srv: nat)
    requires Inv(n, s) && Holds(s, k, srv)
    ensures srv < Taken(s) <= n
  {
  }

  lemma HeldOnce(n: nat, s: State, j: nat, k: nat, srv: nat)
    requires Inv(n, s) && Holds(s, j, srv) && Holds(s, k, srv)
    ensures j == k
  {
  }

  lemma {:induction false} TakenMonotone(n: nat, ss: seq<State>, es: seq<Event>, i: nat, j: nat)
    requires IsRound(n, ss, es) && i <= j < |ss|
    ensures Taken(ss[i]) <= Taken(ss[j])
  {
    hide Inv, Fired, CanFire, Taken;
    if i < j {
      TakenMonotone(n, ss, es, i, j - 1);
      RoundOk(n, ss, es, j - 1);
      assert CanFire(ss[j - 1], es[j - 1].id);
      TakenGrows(n, ss[j - 1], es[j - 1]);
    }
  }

  /** A server belongs to one worker for the whole round. */
  lemma {:induction false} OneHolder(n: nat, ss: seq<State>, es: seq<Event>, i: nat, j: nat, k: nat, k': nat, srv: nat)
    requires IsRound(n, ss, es) && i <= j < |ss|
    requires Holds(ss[i], k, srv) && Holds(ss[j], k', srv)
    ensures k == k'
    decreases j - i
  {
    hide Inv, Fired, CanFire, Taken, Holds;
    RoundOk(n, ss, es, i);
    if i == j {
      HeldOnce(n, ss[i], k, k', srv);
    } else {
      RoundOk(n, ss, es, j - 1);
      assert CanFire(ss[j - 1], es[j - 1].id);
      HoldsAfter(n, ss[j - 1], es[j - 1], k', srv);
      HeldIsTaken(n, ss[i], k, srv);
      TakenMonotone(n, ss, es, i, j - 1);
      OneHolder(n, ss, es, i, j - 1, k, k', srv);
    }
  }

  /** Some event before step i stored a result for srv, sent by the worker that held srv then. */
  ghost predicate Reported(ss: seq<State>, es: seq<Event>, i: nat, srv: nat)
    requires i <= |es| <= |ss|
  {
    exists j :: 0 <= j < i && Holds(ss[j], es[j].id, srv)
  }

  ghost predicate Held(s: State, srv: nat) {
    exists k :: 0 <= k < PINGWORKERS_NUM && Holds(s, k, srv)
  }

  lemma FirstHeld(n: nat, srv: nat)
    requires srv < Taken(Begun(n))
    ensures Held(Begun(n), srv)
  {
    assert Holds(Begun(n), srv, srv);
  }

  lemma StaysHeld(n: nat, s: State, e: Event, srv: nat)
    requires Inv(n, s) && CanFire(s, e.id) && srv < Taken(Fired(s, e))
    requires srv < Taken(s) ==> Held(s, srv) && !Holds(s, e.id, srv)
    ensures Held(Fired(s, e), srv)
  {
    hide Fired, Inv, CanFire, Holds;
    TakenGrows(n, s, e);
    if srv < Taken(s) {
      var k :| 0 <= k < PINGWORKERS_NUM && Holds(s, k, srv);
      HoldsAfter(n, s, e, k, srv);
    } else {
      FiresFrom(s, e.id);
      HoldsAfter(n, s, e, e.id, srv);
    }
  }

  lemma FiresFrom(s: State, id: nat)
    requires CanFire(s, id)
    ensures id < PINGWORKERS_NUM && HasWorkers(s) && Holds(s, id, s.inProgress[id])
  {
  }

  /** Nothing is forgotten: a server that has left the queue is held by a worker, or its holder has
      stored a result for it. */
  lemma {:induction false} NothingForgotten(n: nat, ss: seq<State>, es: seq<Event>, i: nat, srv: nat)
    requires IsRound(n, ss, es) && i < |ss| && srv < Taken(ss[i])
    ensures Held(ss[i], srv) || Reported(ss, es, i, srv)
  {
    hide Inv, Fired, CanFire, Taken, Holds, Held, Begun;
    if i == 0 {
      FirstHeld(n, srv);
    } else {
      var s, e := ss[i - 1], es[i - 1];
      RoundOk(n, ss, es, i - 1);
      assert CanFire(s, e.id);
      if !Reported(ss, es, i, srv) {
        assert !Holds(ss[i - 1], es[i - 1].id, srv);
        if srv < Taken(s) {
          NothingForgotten(n, ss, es, i - 1, srv);
        }
        StaysHeld(n, s, e, srv);
      }
    }
  }

  /** The last result stored for srv before step i. */
  function LastResult(ss: seq<State>, es: seq<Event>, i: nat, srv: nat): int
    requires i <= |es| <= |ss|
  {
    if i == 0 then -1
    else if Holds(ss[i - 1], es[i - 1].id, srv) then es[i - 1].ping
    else LastResult(ss, es, i - 1, srv)
  }

  lemma PingAfter(s: State, e: Event, srv: nat)
    requires CanFire(s, e.id) && srv < |s.pings|
    ensures |Fired(s, e).pings| == |s.pings|
    ensures Fired(s, e).pings[srv] == if Holds(s, e.id, srv) then e.ping else s.pings[srv]
  {
  }

  /** A ping is what the server's own worker reported last, or unknown. */
  lemma {:induction false} PingIsLastResult(n: nat, ss: seq<State>, es: seq<Event>, i: nat, srv: nat)
    requires IsRound(n, ss, es) && i < |ss| && srv < n
    ensures |ss[i].pings| == n && ss[i].pings[srv] == LastResult(ss, es, i, srv)
  {
    hide Fired, CanFire, Holds;
    if i > 0 {
      PingIsLastResult(n, ss, es, i - 1, srv);
      assert CanFire(ss[i - 1], es[i - 1].id);
      PingAfter(ss[i - 1], es[i - 1], srv);
    }
  }

  /** Once the queue is empty and every worker has reported on the server it holds, all servers have been
      reported on. */
  lemma RoundCompletes(n: nat, ss: seq<State>, es: seq<Event>, i: nat, srv: nat)
    requires IsRound(n, ss, es) && i < |ss| && ss[i].toPing == [] && srv < n
    requires forall k, h :: Holds(ss[i], k, h) ==> Reported(ss, es, i, h)
    ensures Reported(ss, es, i, srv)
  {
    RoundOk(n, ss, es, i);
    NothingForgotten(n, ss, es, i, srv);
    hide IsRound, Reported, Holds;
  }

  lemma TimerAfter(n: nat, s: State, e: Event, k: nat)
    requires Inv(n, s) && CanFire(s, e.id) && k < PINGWORKERS_NUM
    ensures if k == e.id && s.toPing != [] then Fired(s, e).timers[k]
            else k != e.id ==> Fired(s, e).timers[k] == s.timers[k]
  {
  }

  /** A ping that has not been reported on has its timer started, so it cannot be waited for without end. */
  lemma {:induction false} TimerGuards(n: nat, ss: seq<State>, es: seq<Event>, i: nat, k: nat, srv: nat)
    requires IsRound(n, ss, es) && i < |ss| && Holds(ss[i], k, srv) && !Reported(ss, es, i, srv)
    ensures ss[i].timers[k]
  {
    hide Inv, Fired, CanFire, Holds, Begun;
    if i == 0 {
      BegunTimers(n, k, srv);
    } else {
      var s, e := ss[i - 1], es[i - 1];
      RoundOk(n, ss, es, i - 1);
      assert CanFire(s, e.id);
      HoldsAfter(n, s, e, k, srv);
      HoldsRange(ss[i], k, srv);
      TimerAfter(n, s, e, k);
      if !(k == e.id && s.toPing != []) {
        assert !Holds(ss[i - 1], es[i - 1].id, srv);
        TimerGuards(n, ss, es, i - 1, k, srv);
      }
    }
  }

  lemma HoldsRange(s: State, k: nat, srv: nat)
    requires Holds(s, k, srv)
    ensures k < PINGWORKERS_NUM
  {
  }

  lemma BegunTimers(n: nat, k: nat, srv: nat)
    requires Holds(Begun(n), k, srv)
    ensures Begun(n).timers[k]
  {
  }

  /** mPingsLoaded says that some event found the queue empty, and then no server is left that was never
      handed to a worker. */
  lemma {:induction false} LoadedMeansDrained(n: nat, ss: seq<State>, es: seq<Event>, i: nat)
    requires IsRound(n, ss, es) && i < |ss|
    ensures ss[i].pingsLoaded <==> exists j :: 0 <= j < i && ss[j].toPing == []
    ensures ss[i].pingsLoaded ==> ss[i].toPing == []
  {
    if i > 0 {
      LoadedMeansDrained(n, ss, es, i - 1);
      assert CanFire(ss[i - 1], es[i - 1].id);
      LoadedAfter(ss[i - 1], es[i - 1]);
      FiredQueue(ss[i - 1], es[i - 1]);
      hide Fired, CanFire;
    }
  }

  lemma LoadedAfter(s: State, e: Event)
    requires CanFire(s, e.id)
    ensures Fired(s, e).pingsLoaded <==> s.pingsLoaded || s.toPing == []
  {
  }
}
