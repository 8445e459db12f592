/**
 * The pool orchestrator of WebDriverPoolManager.kt: a registry of driver pools keyed by
 * browser instance id with create-if-absent, the set of retired ids that refuses admission,
 * the per-pool task counters, the launch hooks, and the retirement and close protocol.
 *
 * The manager's fields are gathered in a value (ManagerState); specification functions on
 * that value say what each operation does, the methods of class WebDriverPoolManager are
 * proved to change their fields as those functions say, and lemmas state what the source
 * promises about the functions. A pool (a LoadingWebDriverPool) is seen through the fields
 * the manager reads and writes; the effects on things outside the manager (a pool's put and
 * close, closing a browser instance, cancelling a driver) are recorded in logs.
 */
module PoolManager {
  import opened Wrappers

  /** A LoadingWebDriverPool as the manager sees it. */
  datatype Pool = Pool(
    priority: int,
    numTasks: nat,
    numTimeout: nat,
    numSuccess: nat,
    numDismissWarnings: int,
    isRetired: bool,
    closed: bool,
    lastActiveTime: int)

  /** A pool made by `createUnmanagedDriverPool`, at time now. */
  function NewPool(priority: int, now: int): Pool
  {
    Pool(priority, 0, 0, 0, 0, false, false, now)
  }

  /** A call of the page's load event handler around a browser launch. */
  datatype Hook = BeforeLaunch(browserId: int) | AfterLaunch(browserId: int, driver: nat)

  /** A WebDriverTask: the browser it runs in and its priority. */
  datatype Task = Task(browserId: int, priority: int)

  /**
   * What the task's action came to under `withTimeoutOrNull`: a value or null (the timeout
   * gives null too), or an exception.
   */
  datatype TaskOutcome<R> = Completed(result: Option<R>) | Threw

  /** The exceptions `run0` raises. */
  datatype ManagerError =
    | PoolRetired(browserId: int)
    | PoolClosed(browserId: int)
    | PollFailed
    | TaskFailed

  /** A driver as `cancel` finds it when it walks a pool: its id and its page url. */
  datatype DriverEntry = DriverEntry(id: nat, pageUrl: string)

  /** The fields of a manager, and the logs of its calls into other objects. */
  datatype ManagerState = ManagerState(
    closed: bool,
    driverPools: map<int, Pool>,
    retiredPools: set<int>,
    lastActiveTime: int,
    numTimeout: nat,
    hooks: seq<Hook>,
    puts: seq<(int, nat)>,
    closedPools: seq<int>,
    closedBrowsers: seq<int>,
    factoryClosed: bool,
    canceled: seq<nat>)

  /** The state of a new manager, started at time now. */
  function InitialState(now: int): ManagerState
  {
    ManagerState(false, map[], {}, now, 0, [], [], [], [], false, [])
  }

  /** The idle timeout, 18 minutes, in milliseconds. */
  const IdleTimeoutMillis := 18 * 60 * 1000

  /** `isActive`: not closed, and the application is active. */
  predicate IsActive(s: ManagerState, appActive: bool)
  {
    !s.closed && appActive
  }

  /** `isIdle` at time now. */
  predicate IsIdleAt(s: ManagerState, now: int)
  {
    now - s.lastActiveTime > IdleTimeoutMillis
  }

  // ---------------------------------------------------------------------------------------
  // Invariant
  // ---------------------------------------------------------------------------------------

  /** How often the before-launch hook ran for a browser id. */
  ghost function Launches(s: ManagerState, browserId: int): nat
  {
    multiset(s.hooks)[BeforeLaunch(browserId)]
  }

  /** A pool's counters: a pool is launched at most once, and warnings are timeouts minus successes. */
  ghost predicate PoolInv(p: Pool)
  {
    p.numTasks <= 1 && p.numDismissWarnings == p.numTimeout - p.numSuccess
  }

  /**
   * What every operation keeps, whether or not the manager is closed: each registered pool's
   * launch count is its numTasks; a browser id whose hooks ran and that has no pool is retired;
   * and outside GUI mode a retired id has no pool.
   */
  ghost predicate RegistryInv(s: ManagerState, isGUI: bool)
  {
    (forall id :: id in s.driverPools ==> PoolInv(s.driverPools[id]) && Launches(s, id) == s.driverPools[id].numTasks)
    && (forall id :: id !in s.driverPools ==> Launches(s, id) <= 1 && (Launches(s, id) == 1 ==> id in s.retiredPools))
    && (!isGUI ==> forall id :: id in s.retiredPools ==> id !in s.driverPools)
  }

  /** The manager's invariant: the registry invariant, and a closed manager holds no pools. */
  ghost predicate Inv(s: ManagerState, isGUI: bool)
  {
    RegistryInv(s, isGUI) && s.factoryClosed == s.closed && (s.closed ==> s.driverPools == map[])
  }

  lemma InitialInv(now: int, isGUI: bool)
    ensures Inv(InitialState(now), isGUI)
  {
  }

  /** The launch hooks run at most once per browser id, over the whole life of the manager. */
  lemma LaunchHooksAtMostOnce(s: ManagerState, isGUI: bool, browserId: int)
    requires Inv(s, isGUI)
    ensures Launches(s, browserId) <= 1
  {
    if browserId in s.driverPools {
      assert PoolInv(s.driverPools[browserId]);
    }
  }

  // ---------------------------------------------------------------------------------------
  // Registry and polling
  // ---------------------------------------------------------------------------------------

  /** `driverPools.computeIfAbsent(browserId) { createUnmanagedDriverPool(...) }`. */
  function ComputeIfAbsent(pools: map<int, Pool>, browserId: int, priority: int, now: int): map<int, Pool>
  {
    if browserId in pools then pools else pools[browserId := NewPool(priority, now)]
  }

  /**
   * At most one pool per id: a pool is created only for an absent id, every other entry is
   * kept, and a second call changes nothing and finds the pool the first call left.
   */
  lemma ComputeIfAbsentKeepsOne(pools: map<int, Pool>, browserId: int, priority: int, now: int,
                                priority2: int, now2: int)
    ensures var m := ComputeIfAbsent(pools, browserId, priority, now);
      && browserId in m
      && m[browserId] == (if browserId in pools then pools[browserId] else NewPool(priority, now))
      && m.Keys == pools.Keys + {browserId}
      && (forall id :: id in pools ==> m[id] == pools[id])
      && ComputeIfAbsent(m, browserId, priority2, now2) == m
  {
  }

  /**
   * `poll`: the task that moves numTasks from 0 to 1 launches (the before hook, the poll, and
   * the after hook if the poll handed out a driver); any other task only polls. polled is what
   * `pollWebDriver` returns: None when the pool's own poll throws, and also when `startWork`
   * throws on a driver the pool did hand out. That driver is then never put back, since
   * `run0` never learns of it.
   */
  ghost function PollSpec(s: ManagerState, browserId: int, polled: Option<nat>): ManagerState
    requires browserId in s.driverPools
  {
    var pool := s.driverPools[browserId];
    if pool.numTasks == 0 then
      var s1 := s.(driverPools := s.driverPools[browserId := pool.(numTasks := 1)],
                   hooks := s.hooks + [BeforeLaunch(browserId)]);
      if polled.Some? then s1.(hooks := s1.hooks + [AfterLaunch(browserId, polled.value)]) else s1
    else s
  }

  /** The counters after the task's action: a null result is a timeout, a value a success. */
  ghost function CountOutcome<R>(s: ManagerState, browserId: int, outcome: TaskOutcome<R>): ManagerState
    requires browserId in s.driverPools
  {
    var p := s.driverPools[browserId];
    match outcome
    case Threw => s
    case Completed(None) =>
      s.(numTimeout := s.numTimeout + 1,
         driverPools := s.driverPools[browserId := p.(numTimeout := p.numTimeout + 1,
                                                      numDismissWarnings := p.numDismissWarnings + 1)])
    case Completed(Some(_)) =>
      s.(driverPools := s.driverPools[browserId := p.(numSuccess := p.numSuccess + 1,
                                                      numDismissWarnings := p.numDismissWarnings - 1)])
  }

  /** The value `run0` returns for an outcome, or the exception it lets through. */
  function OutcomeResult<R>(outcome: TaskOutcome<R>): Result<Option<R>, ManagerError>
  {
    match outcome
    case Completed(v) => Ok(v)
    case Threw => Err(TaskFailed)
  }

  /**
   * `run0`: nothing when inactive; an exception for a retired id or a closed pool; otherwise
   * find or create the pool, poll a driver, run the task, update the counters, and put the
   * driver back whatever the task did.
   */
  ghost function Run0Spec<R>(s: ManagerState, appActive: bool, task: Task, now: int,
                             polled: Option<nat>, outcome: TaskOutcome<R>): (ManagerState, Result<Option<R>, ManagerError>)
  {
    var id := task.browserId;
    if !IsActive(s, appActive) then (s, Ok(None))
    else if id in s.retiredPools then (s, Err(PoolRetired(id)))
    else
      var s1 := s.(driverPools := ComputeIfAbsent(s.driverPools, id, task.priority, now));
      if s1.driverPools[id].closed then (s1, Err(PoolClosed(id)))
      else
        var s2 := PollSpec(s1, id, polled);
        match polled
        case None => (s2, Err(PollFailed))
        case Some(d) =>
          var s3 := CountOutcome(s2, id, outcome);
          (s3.(puts := s3.puts + [(id, d)]), OutcomeResult(outcome))
  }

  /** `run`: run0, stamping lastActiveTime before (at now0) and after a normal return (at now1). */
  ghost function RunSpec<R>(s: ManagerState, appActive: bool, task: Task, now0: int, now1: int,
                            polled: Option<nat>, outcome: TaskOutcome<R>): (ManagerState, Result<Option<R>, ManagerError>)
  {
    var (s1, r) := Run0Spec(s.(lastActiveTime := now0), appActive, task, now0, polled, outcome);
    (if r.Ok? then s1.(lastActiveTime := now1) else s1, r)
  }

  /** An inactive manager returns null and touches nothing. */
  lemma Run0Inactive<R>(s: ManagerState, appActive: bool, task: Task, now: int,
                        polled: Option<nat>, outcome: TaskOutcome<R>)
    requires !IsActive(s, appActive)
    ensures Run0Spec(s, appActive, task, now, polled, outcome) == (s, Ok(None))
  {
  }

  /** An active manager refuses a retired browser id with an exception and touches nothing. */
  lemma Run0Retired<R>(s: ManagerState, appActive: bool, task: Task, now: int,
                       polled: Option<nat>, outcome: TaskOutcome<R>)
    requires IsActive(s, appActive) && task.browserId in s.retiredPools
    ensures Run0Spec(s, appActive, task, now, polled, outcome) == (s, Err(PoolRetired(task.browserId)))
  {
  }

  /** The conditions under which `run0` reaches the pool's poll. */
  ghost predicate ReachesPoll(s: ManagerState, appActive: bool, task: Task)
  {
    IsActive(s, appActive) && task.browserId !in s.retiredPools
    && !(task.browserId in s.driverPools && s.driverPools[task.browserId].closed)
  }

  /**
   * A polled driver goes back to its pool exactly once, whether the task returns a value,
   * returns null or throws; when no driver was polled nothing is put back.
   */
  lemma Run0PutsBack<R>(s: ManagerState, appActive: bool, task: Task, now: int,
                        polled: Option<nat>, outcome: TaskOutcome<R>)
    ensures var (t, _) := Run0Spec(s, appActive, task, now, polled, outcome);
      t.puts == if ReachesPoll(s, appActive, task) && polled.Some? then s.puts + [(task.browserId, polled.value)] else s.puts
  {
  }

  /**
   * The hooks run only for the task that finds the pool's numTasks at 0 (a new pool counts as
   * 0): the before hook, then the after hook if a driver was polled. Every other call runs none.
   */
  lemma Run0Hooks<R>(s: ManagerState, appActive: bool, task: Task, now: int,
                     polled: Option<nat>, outcome: TaskOutcome<R>)
    ensures var (t, _) := Run0Spec(s, appActive, task, now, polled, outcome);
      var id := task.browserId;
      var first := ReachesPoll(s, appActive, task) && (id !in s.driverPools || s.driverPools[id].numTasks == 0);
      t.hooks == if !first then s.hooks
                 else if polled.Some? then s.hooks + [BeforeLaunch(id), AfterLaunch(id, polled.value)]
                 else s.hooks + [BeforeLaunch(id)]
  {
    var id := task.browserId;
    if ReachesPoll(s, appActive, task) && polled.Some? && (id !in s.driverPools || s.driverPools[id].numTasks == 0) {
      assert s.hooks + [BeforeLaunch(id)] + [AfterLaunch(id, polled.value)] == s.hooks + [BeforeLaunch(id), AfterLaunch(id, polled.value)];
    }
  }

  /**
   * The counters after a task that ran: a null result adds one timeout to the manager and to
   * the pool and one dismiss warning; a value adds one success and takes one dismiss warning
   * away; an exception changes no counter. The manager's result is the task's.
   */
  lemma Run0Counters<R>(s: ManagerState, appActive: bool, task: Task, now: int, d: nat, outcome: TaskOutcome<R>)
    requires ReachesPoll(s, appActive, task)
    ensures var (t, r) := Run0Spec(s, appActive, task, now, Some(d), outcome);
      var id := task.browserId;
      var p := if id in s.driverPools then s.driverPools[id] else NewPool(task.priority, now);
      && id in t.driverPools
      && r == (if outcome.Threw? then Err(TaskFailed) else Ok(outcome.result))
      && t.numTimeout == s.numTimeout + (if outcome == Completed(None) then 1 else 0)
      && t.driverPools[id].numTimeout == p.numTimeout + (if outcome == Completed(None) then 1 else 0)
      && t.driverPools[id].numSuccess == p.numSuccess + (if outcome.Completed? && outcome.result.Some? then 1 else 0)
      && t.driverPools[id].numDismissWarnings
         == p.numDismissWarnings + (match outcome case Threw => 0 case Completed(None) => 1 case Completed(Some(_)) => -1)
  {
  }

  lemma LaunchesAppend(s: ManagerState, h: Hook, t: ManagerState)
    requires t.hooks == s.hooks + [h]
    ensures forall id :: Launches(t, id) == Launches(s, id) + (if h == BeforeLaunch(id) then 1 else 0)
  {
    assert multiset(t.hooks) == multiset(s.hooks) + multiset{h};
  }

  lemma PollPreservesInv(s: ManagerState, isGUI: bool, browserId: int, polled: Option<nat>)
    requires browserId in s.driverPools && RegistryInv(s, isGUI)
    ensures RegistryInv(PollSpec(s, browserId, polled), isGUI)
  {
    var pool := s.driverPools[browserId];
    if pool.numTasks == 0 {
      var s1 := s.(driverPools := s.driverPools[browserId := pool.(numTasks := 1)],
                   hooks := s.hooks + [BeforeLaunch(browserId)]);
      LaunchesAppend(s, BeforeLaunch(browserId), s1);
      if polled.Some? {
        LaunchesAppend(s1, AfterLaunch(browserId, polled.value), s1.(hooks := s1.hooks + [AfterLaunch(browserId, polled.value)]));
      }
    }
  }

  lemma ComputePreservesInv(s: ManagerState, isGUI: bool, browserId: int, priority: int, now: int)
    requires RegistryInv(s, isGUI) && browserId !in s.retiredPools
    ensures RegistryInv(s.(driverPools := ComputeIfAbsent(s.driverPools, browserId, priority, now)), isGUI)
  {
    if browserId !in s.driverPools {
      assert Launches(s, browserId) == 0;
    }
  }

  lemma CountPreservesInv<R>(s: ManagerState, isGUI: bool, browserId: int, outcome: TaskOutcome<R>)
    requires RegistryInv(s, isGUI) && browserId in s.driverPools
    ensures RegistryInv(CountOutcome(s, browserId, outcome), isGUI)
  {
    var t := CountOutcome(s, browserId, outcome);
    assert PoolInv(s.driverPools[browserId]);
    UpdatePreservesInv(s, t, isGUI, browserId);
  }

  /** Replacing one registered pool by one with the same numTasks that keeps PoolInv keeps the invariant. */
  lemma UpdatePreservesInv(s: ManagerState, t: ManagerState, isGUI: bool, browserId: int)
    requires RegistryInv(s, isGUI) && browserId in s.driverPools && browserId in t.driverPools
    requires t.hooks == s.hooks && t.retiredPools == s.retiredPools
    requires t.driverPools == s.driverPools[browserId := t.driverPools[browserId]]
    requires PoolInv(t.driverPools[browserId]) && t.driverPools[browserId].numTasks == s.driverPools[browserId].numTasks
    ensures RegistryInv(t, isGUI)
  {
    forall id | id in t.driverPools
      ensures PoolInv(t.driverPools[id]) && Launches(t, id) == t.driverPools[id].numTasks
    {
      if id != browserId {
        assert t.driverPools[id] == s.driverPools[id];
      }
    }
    forall id | id !in t.driverPools
      ensures Launches(t, id) <= 1 && (Launches(t, id) == 1 ==> id in t.retiredPools)
    {
      assert Launches(t, id) == Launches(s, id);
    }
  }

  lemma Run0PreservesInv<R>(s: ManagerState, isGUI: bool, appActive: bool, task: Task, now: int,
                            polled: Option<nat>, outcome: TaskOutcome<R>)
    requires Inv(s, isGUI)
    ensures Inv(Run0Spec(s, appActive, task, now, polled, outcome).0, isGUI)
  {
    var id := task.browserId;
    if IsActive(s, appActive) && id !in s.retiredPools {
      var s1 := s.(driverPools := ComputeIfAbsent(s.driverPools, id, task.priority, now));
      ComputePreservesInv(s, isGUI, id, task.priority, now);
      if !s1.driverPools[id].closed {
        var s2 := PollSpec(s1, id, polled);
        PollPreservesInv(s1, isGUI, id, polled);
        if polled.Some? {
          var s3 := CountOutcome(s2, id, outcome);
          CountPreservesInv(s2, isGUI, id, outcome);
          var s4 := s3.(puts := s3.puts + [(id, polled.value)]);
          assert forall j :: Launches(s4, j) == Launches(s3, j);
        }
      }
    }
  }

  lemma StampPreservesInv(s: ManagerState, isGUI: bool, now: int)
    requires Inv(s, isGUI)
    ensures Inv(s.(lastActiveTime := now), isGUI)
  {
    assert forall id :: Launches(s.(lastActiveTime := now), id) == Launches(s, id);
  }

  /** After `run` returns normally the manager is not idle at the time of return. */
  lemma RunNotIdle<R>(s: ManagerState, appActive: bool, task: Task, now0: int, now1: int,
                      polled: Option<nat>, outcome: TaskOutcome<R>)
    requires RunSpec(s, appActive, task, now0, now1, polled, outcome).1.Ok?
    ensures !IsIdleAt(RunSpec(s, appActive, task, now0, now1, polled, outcome).0, now1)
  {
  }

  // ---------------------------------------------------------------------------------------
  // Cancel
  // ---------------------------------------------------------------------------------------

  /** `firstOrNull { it.navigateEntry.pageUrl == url }`, as an index. */
  function FirstWithUrl(drivers: seq<DriverEntry>, url: string): (r: Option<nat>)
    ensures r.Some? ==> r.value < |drivers| && drivers[r.value].pageUrl == url
    ensures r.Some? ==> forall i :: 0 <= i < r.value ==> drivers[i].pageUrl != url
    ensures r.None? ==> forall i :: 0 <= i < |drivers| ==> drivers[i].pageUrl != url
  {
    if drivers == [] then None
    else if drivers[0].pageUrl == url then Some(0)
    else
      match FirstWithUrl(drivers[1..], url)
      case None => None
      case Some(i) => Some(i + 1)
  }

  /** `cancel(browserId, url)`: cancel the first driver of the pool that shows url, if any. */
  ghost function CancelSpec(s: ManagerState, browserId: int, url: string, drivers: seq<DriverEntry>): (ManagerState, Option<nat>)
  {
    if browserId !in s.driverPools then (s, None)
    else
      match FirstWithUrl(drivers, url)
      case None => (s, None)
      case Some(i) => (s.(canceled := s.canceled + [drivers[i].id]), Some(drivers[i].id))
  }

  /**
   * `cancel` cancels and returns a driver only if the pool exists and one of its drivers shows
   * url, and then the first such driver; otherwise it returns null and cancels nothing.
   */
  lemma CancelFirstMatch(s: ManagerState, browserId: int, url: string, drivers: seq<DriverEntry>)
    ensures var (t, r) := CancelSpec(s, browserId, url, drivers);
      && (r.Some? <==> browserId in s.driverPools && exists i :: 0 <= i < |drivers| && drivers[i].pageUrl == url)
      && (r.Some? ==> exists i :: 0 <= i < |drivers| && drivers[i].id == r.value && drivers[i].pageUrl == url
                                  && forall j :: 0 <= j < i ==> drivers[j].pageUrl != url)
      && t == (if r.Some? then s.(canceled := s.canceled + [r.value]) else s)
  {
    if browserId in s.driverPools {
      match FirstWithUrl(drivers, url)
      case None =>
      case Some(i) =>
        assert drivers[i].id == CancelSpec(s, browserId, url, drivers).1.value;
    }
  }

  // ---------------------------------------------------------------------------------------
  // Closing
  // ---------------------------------------------------------------------------------------

  /** The ids of the pools already flagged retired. */
  function RetiredKeys(pools: map<int, Pool>): set<int>
  {
    set id | id in pools && pools[id].isRetired
  }

  /** Pool a is at least as old as pool b: an earlier lastActiveTime, ties broken by id order. */
  predicate Older(pools: map<int, Pool>, a: int, b: int)
    requires a in pools && b in pools
  {
    pools[a].lastActiveTime < pools[b].lastActiveTime
    || (pools[a].lastActiveTime == pools[b].lastActiveTime && a <= b)
  }

  lemma SomeMember(keys: set<int>)
    requires keys != {}
    ensures exists x :: x in keys
  {
    if forall x :: x !in keys {
      assert false;
    }
  }

  lemma {:induction false} OldestExists(pools: map<int, Pool>, keys: set<int>)
    requires keys != {} && keys <= pools.Keys
    ensures exists k :: k in keys && forall j :: j in keys ==> Older(pools, k, j)
    decreases |keys|
  {
    SomeMember(keys);
    var x :| x in keys;
    if keys == {x} {
      assert forall j :: j in keys ==> j == x;
      assert Older(pools, x, x);
    } else {
      OldestExists(pools, keys - {x});
      var k :| k in keys - {x} && forall j :: j in keys - {x} ==> Older(pools, k, j);
      if Older(pools, x, k) {
        forall j | j in keys ensures Older(pools, x, j) {
          if j != x { assert j in keys - {x}; }
        }
      } else {
        forall j | j in keys ensures Older(pools, k, j) {
          if j != x { assert j in keys - {x}; }
        }
      }
    }
  }

  /**
   * `driverPools.values.filter { it.isRetired }.minByOrNull { it.lastActiveTime }`: the id of
   * the least recently active retired pool; the map iterates in id order, so ties go to the
   * smallest id.
   */
  function OldestRetired(pools: map<int, Pool>): (r: Option<int>)
    ensures r.None? <==> RetiredKeys(pools) == {}
    ensures r.Some? ==> r.value in RetiredKeys(pools)
    ensures r.Some? ==> forall k :: k in RetiredKeys(pools) ==> Older(pools, r.value, k)
  {
    var keys := RetiredKeys(pools);
    if keys == {} then None
    else
      OldestExists(pools, keys);
      var k :| k in keys && forall j :: j in keys ==> Older(pools, k, j);
      Some(k)
  }

  /**
   * The pool `doCloseDriverPool` picks, by id: outside GUI mode the id's own pool (if it is
   * registered), in GUI mode with more than ten pools the oldest retired one, else none.
   */
  function PickToClose(pools: map<int, Pool>, browserId: int, isGUI: bool): (r: Option<int>)
    ensures r.Some? ==> r.value in pools
  {
    if !isGUI then (if browserId in pools then Some(browserId) else None)
    else if |pools| > 10 then OldestRetired(pools)
    else None
  }

  /** The ids of the pools a call closes: none or one. */
  function Closing(picked: Option<int>): seq<int>
  {
    if picked.Some? then [picked.value] else []
  }

  /**
   * `doCloseDriverPool`: retire the id; outside GUI mode remove its pool from the registry;
   * flag the picked pool retired and close it (in GUI mode it stays registered); and close the
   * browser instance.
   */
  ghost function DoCloseSpec(s: ManagerState, browserId: int, isGUI: bool): ManagerState
  {
    var picked := PickToClose(s.driverPools, browserId, isGUI);
    var pools := if !isGUI then s.driverPools - {browserId} else s.driverPools;
    var pools2 := if isGUI && picked.Some?
                  then pools[picked.value := pools[picked.value].(isRetired := true, closed := true)]
                  else pools;
    s.(retiredPools := s.retiredPools + {browserId}, driverPools := pools2,
       closedPools := s.closedPools + Closing(picked), closedBrowsers := s.closedBrowsers + [browserId])
  }

  /** The id is always retired and its browser instance closed; hooks, puts and flags stay. */
  lemma DoCloseRetires(s: ManagerState, browserId: int, isGUI: bool)
    ensures var t := DoCloseSpec(s, browserId, isGUI);
      && t.retiredPools == s.retiredPools + {browserId}
      && t.closedBrowsers == s.closedBrowsers + [browserId]
      && t.closed == s.closed && t.factoryClosed == s.factoryClosed && t.hooks == s.hooks && t.puts == s.puts
      && t.driverPools.Keys <= s.driverPools.Keys
  {
  }

  /** A pool once closed stays recorded as closed. */
  lemma DoCloseKeepsClosed(s: ManagerState, browserId: int, isGUI: bool)
    ensures forall id :: id in s.closedPools ==> id in DoCloseSpec(s, browserId, isGUI).closedPools
  {
  }

  /**
   * Outside GUI mode the id leaves the registry, and its pool is closed exactly when it was
   * registered.
   */
  lemma DoCloseNonGui(s: ManagerState, browserId: int)
    ensures var t := DoCloseSpec(s, browserId, false);
      && t.driverPools == s.driverPools - {browserId}
      && t.closedPools == s.closedPools + (if browserId in s.driverPools then [browserId] else [])
  {
  }

  /** In GUI mode no pool leaves the registry, and with ten pools or fewer none is closed. */
  lemma DoCloseGui(s: ManagerState, browserId: int)
    ensures var t := DoCloseSpec(s, browserId, true);
      && t.driverPools.Keys == s.driverPools.Keys
      && (|s.driverPools| <= 10 ==> t.driverPools == s.driverPools && t.closedPools == s.closedPools)
  {
  }

  /** In GUI mode the pool closed is the least recently active of those already retired. */
  lemma DoCloseGuiPicksOldest(s: ManagerState, browserId: int)
    requires |s.driverPools| > 10 && RetiredKeys(s.driverPools) != {}
    ensures var t := DoCloseSpec(s, browserId, true);
      exists k :: k in RetiredKeys(s.driverPools)
        && (forall j :: j in RetiredKeys(s.driverPools) ==> Older(s.driverPools, k, j))
        && t.closedPools == s.closedPools + [k]
        && t.driverPools == s.driverPools[k := s.driverPools[k].(isRetired := true, closed := true)]
  {
    var k := OldestRetired(s.driverPools).value;
    assert k in RetiredKeys(s.driverPools);
  }

  lemma DoClosePreservesInv(s: ManagerState, browserId: int, isGUI: bool)
    requires RegistryInv(s, isGUI)
    ensures RegistryInv(DoCloseSpec(s, browserId, isGUI), isGUI)
  {
    var t := DoCloseSpec(s, browserId, isGUI);
    assert forall id :: Launches(t, id) == Launches(s, id);
    if isGUI && |s.driverPools| > 10 && RetiredKeys(s.driverPools) != {} {
      DoCloseGuiPicksOldest(s, browserId);
    }
  }

  /** The smallest id of a non-empty set: the next key of an ascending key iteration. */
  function MinKey(keys: set<int>): (k: int)
    requires keys != {}
    ensures k in keys && forall j :: j in keys ==> k <= j
  {
    MinExists(keys);
    var k :| k in keys && forall j :: j in keys ==> k <= j;
    k
  }

  lemma {:induction false} MinExists(keys: set<int>)
    requires keys != {}
    ensures exists k :: k in keys && forall j :: j in keys ==> k <= j
    decreases |keys|
  {
    SomeMember(keys);
    var x :| x in keys;
    if keys != {x} {
      MinExists(keys - {x});
      var k :| k in keys - {x} && forall j :: j in keys - {x} ==> k <= j;
      if x < k {
        forall j | j in keys ensures x <= j {
          if j != x { assert j in keys - {x}; }
        }
      } else {
        forall j | j in keys ensures k <= j {
          if j != x { assert j in keys - {x}; }
        }
      }
    } else {
      assert forall j :: j in keys ==> j == x;
    }
  }

  lemma RemoveShrinks(keys: set<int>, k: int)
    requires k in keys
    ensures |keys - {k}| == |keys| - 1
  {
  }

  /** `driverPools.keys.forEach { doCloseDriverPool(it) }`, in ascending id order over keys. */
  ghost function CloseEach(s: ManagerState, keys: set<int>, isGUI: bool): ManagerState
    decreases |keys|
  {
    if keys == {} then s
    else
      var k := MinKey(keys);
      RemoveShrinks(keys, k);
      CloseEach(DoCloseSpec(s, k, isGUI), keys - {k}, isGUI)
  }

  /**
   * `close`: only the call that sets the closed flag acts: it closes every registered pool by
   * id, empties the registry and closes the driver factory.
   */
  ghost function CloseSpec(s: ManagerState, isGUI: bool): ManagerState
  {
    if s.closed then s
    else
      var t := CloseEach(s.(closed := true), s.driverPools.Keys, isGUI);
      t.(driverPools := map[], factoryClosed := true)
  }

  /** What the per-pool closes keep and add, over any set of ids. */
  lemma {:induction false} CloseEachFacts(s: ManagerState, keys: set<int>, isGUI: bool)
    ensures var t := CloseEach(s, keys, isGUI);
      && t.retiredPools == s.retiredPools + keys
      && t.driverPools.Keys <= s.driverPools.Keys
      && t.closed == s.closed && t.factoryClosed == s.factoryClosed
      && t.hooks == s.hooks && t.puts == s.puts
    decreases |keys|
  {
    if keys != {} {
      var k := MinKey(keys);
      RemoveShrinks(keys, k);
      DoCloseRetires(s, k, isGUI);
      CloseEachFacts(DoCloseSpec(s, k, isGUI), keys - {k}, isGUI);
    }
  }

  /** Outside GUI mode, closing the pools of keys closes each registered one. */
  lemma {:induction false} CloseEachClosesPools(s: ManagerState, keys: set<int>, isGUI: bool)
    ensures var t := CloseEach(s, keys, isGUI);
      && (forall id :: id in s.closedPools ==> id in t.closedPools)
      && (!isGUI ==> forall id :: id in keys && id in s.driverPools ==> id in t.closedPools)
    decreases |keys|
  {
    if keys != {} {
      var k := MinKey(keys);
      RemoveShrinks(keys, k);
      var s1 := DoCloseSpec(s, k, isGUI);
      DoCloseKeepsClosed(s, k, isGUI);
      CloseEachClosesPools(s1, keys - {k}, isGUI);
      if !isGUI {
        DoCloseNonGui(s, k);
        assert forall id :: id in keys - {k} && id in s.driverPools ==> id in s1.driverPools;
      }
    }
  }

  lemma {:induction false} CloseEachInv(s: ManagerState, keys: set<int>, isGUI: bool)
    requires RegistryInv(s, isGUI)
    ensures RegistryInv(CloseEach(s, keys, isGUI), isGUI)
    decreases |keys|
  {
    if keys != {} {
      var k := MinKey(keys);
      RemoveShrinks(keys, k);
      DoClosePreservesInv(s, k, isGUI);
      CloseEachInv(DoCloseSpec(s, k, isGUI), keys - {k}, isGUI);
    }
  }

  /** After `close` the manager is closed, holds no pool, and its factory is closed. */
  lemma CloseEmpties(s: ManagerState, isGUI: bool)
    ensures var t := CloseSpec(s, isGUI);
      t.closed && (s.closed ==> t == s) && (!s.closed ==> t.driverPools == map[] && t.factoryClosed)
  {
    if !s.closed {
      CloseEachFacts(s.(closed := true), s.driverPools.Keys, isGUI);
    }
  }

  /** A second `close` does nothing. */
  lemma CloseIdempotent(s: ManagerState, isGUI: bool)
    ensures CloseSpec(CloseSpec(s, isGUI), isGUI) == CloseSpec(s, isGUI)
  {
    CloseEmpties(s, isGUI);
  }

  /**
   * The first `close` retires every id that had a pool; outside GUI mode it also closes each
   * of those pools.
   */
  lemma CloseRetiresAll(s: ManagerState, isGUI: bool)
    requires !s.closed
    ensures var t := CloseSpec(s, isGUI);
      && s.driverPools.Keys <= t.retiredPools
      && (!isGUI ==> forall id :: id in s.driverPools ==> id in t.closedPools)
  {
    CloseEachFacts(s.(closed := true), s.driverPools.Keys, isGUI);
    CloseEachClosesPools(s.(closed := true), s.driverPools.Keys, isGUI);
  }

  lemma ClosePreservesInv(s: ManagerState, isGUI: bool)
    requires Inv(s, isGUI)
    ensures Inv(CloseSpec(s, isGUI), isGUI)
  {
    if !s.closed {
      var s1 := s.(closed := true);
      CloseEachFacts(s1, s.driverPools.Keys, isGUI);
      CloseEachInv(s1, s.driverPools.Keys, isGUI);
      var t := CloseEach(s1, s.driverPools.Keys, isGUI);
      var u := t.(driverPools := map[], factoryClosed := true);
      forall id | id in t.driverPools
        ensures Launches(u, id) <= 1 && id in u.retiredPools
      {
        assert PoolInv(t.driverPools[id]);
      }
    }
  }

  // ---------------------------------------------------------------------------------------
  // The manager
  // ---------------------------------------------------------------------------------------

  /** The manager: its registry, retired set, counters and the logs of its outside calls. */
  class WebDriverPoolManager {
    var closed: bool
    var driverPools: map<int, Pool>
    var retiredPools: set<int>
    var lastActiveTime: int
    var numTimeout: nat
    var hooks: seq<Hook>
    var puts: seq<(int, nat)>
    var closedPools: seq<int>
    var closedBrowsers: seq<int>
    var factoryClosed: bool
    var canceled: seq<nat>
    /** `driverSettings.isGUI`. */
    const isGUI: bool

    function State(): ManagerState
      reads this
    {
      ManagerState(closed, driverPools, retiredPools, lastActiveTime, numTimeout, hooks, puts,
                   closedPools, closedBrowsers, factoryClosed, canceled)
    }

    ghost predicate Valid()
      reads this
    {
      Inv(State(), isGUI)
    }

    constructor(isGUI: bool, now: int)
      ensures Valid() && State() == InitialState(now) && this.isGUI == isGUI
    {
      closed, driverPools, retiredPools, lastActiveTime, numTimeout := false, map[], {}, now, 0;
      hooks, puts, closedPools, closedBrowsers, factoryClosed, canceled := [], [], [], [], false, [];
      this.isGUI := isGUI;
    }

    /** `isRetiredPool`. */
    predicate IsRetiredPool(browserId: int)
      reads this
    {
      browserId in retiredPools
    }

    /** `computeDriverPoolIfAbsent`. */
    method ComputeDriverPoolIfAbsent(browserId: int, priority: int, now: int) returns (pool: Pool)
      modifies this
      ensures State() == old(State()).(driverPools := ComputeIfAbsent(old(driverPools), browserId, priority, now))
      ensures browserId in driverPools && pool == driverPools[browserId]
    {
      if browserId !in driverPools {
        driverPools := driverPools[browserId := NewPool(priority, now)];
      }
      pool := driverPools[browserId];
    }

    /** `poll`, with `launchAndPoll` and `pollWebDriver`; polled is what the pool's poll hands out. */
    method Poll(browserId: int, polled: Option<nat>) returns (driver: Option<nat>)
      requires browserId in driverPools
      modifies this
      ensures State() == PollSpec(old(State()), browserId, polled) && driver == polled
    {
      var pool := driverPools[browserId];
      var notLaunched := pool.numTasks == 0;
      if notLaunched {
        driverPools := driverPools[browserId := pool.(numTasks := 1)];
        hooks := hooks + [BeforeLaunch(browserId)];
      }
      driver := polled;
      if notLaunched && driver.Some? {
        hooks := hooks + [AfterLaunch(browserId, driver.value)];
      }
    }

    /** `run0`; appActive is `AppContext.isActive`, outcome what the task's action came to. */
    method Run0<R>(task: Task, appActive: bool, now: int, polled: Option<nat>, outcome: TaskOutcome<R>)
      returns (r: Result<Option<R>, ManagerError>)
      modifies this
      ensures (State(), r) == Run0Spec(old(State()), appActive, task, now, polled, outcome)
      ensures old(Valid()) ==> Valid()
    {
      ghost var s0 := State();
      if old(Valid()) {
        Run0PreservesInv(s0, isGUI, appActive, task, now, polled, outcome);
      }
      var browserId := task.browserId;
      if closed || !appActive {
        return Ok(None);
      }
      if IsRetiredPool(browserId) {
        return Err(PoolRetired(browserId));
      }
      var pool := ComputeDriverPoolIfAbsent(browserId, task.priority, now);
      if pool.closed {
        return Err(PoolClosed(browserId));
      }
      var driver := Poll(browserId, polled);
      if driver.None? {
        return Err(PollFailed);
      }
      r := RecordOutcome(browserId, driver.value, outcome);
    }

    /** The end of `run0`: bump the counters for the outcome, then put the driver back (`finally`). */
    method RecordOutcome<R>(browserId: int, driver: nat, outcome: TaskOutcome<R>) returns (r: Result<Option<R>, ManagerError>)
      requires browserId in driverPools
      modifies this
      ensures var s3 := CountOutcome(old(State()), browserId, outcome);
        State() == s3.(puts := s3.puts + [(browserId, driver)])
      ensures r == OutcomeResult(outcome)
    {
      var p := driverPools[browserId];
      match outcome {
        case Threw =>
          r := Err(TaskFailed);
        case Completed(None) =>
          numTimeout := numTimeout + 1;
          driverPools := driverPools[browserId := p.(numTimeout := p.numTimeout + 1,
                                                     numDismissWarnings := p.numDismissWarnings + 1)];
          r := Ok(None);
        case Completed(Some(v)) =>
          driverPools := driverPools[browserId := p.(numSuccess := p.numSuccess + 1,
                                                     numDismissWarnings := p.numDismissWarnings - 1)];
          r := Ok(Some(v));
      }
      puts := puts + [(browserId, driver)];
    }

    /** `run(task)`: stamp lastActiveTime, run0, and stamp it again on a normal return. */
    method Run<R>(task: Task, appActive: bool, now0: int, now1: int, polled: Option<nat>, outcome: TaskOutcome<R>)
      returns (r: Result<Option<R>, ManagerError>)
      modifies this
      ensures (State(), r) == RunSpec(old(State()), appActive, task, now0, now1, polled, outcome)
      ensures old(Valid()) ==> Valid()
    {
      ghost var s0 := State();
      lastActiveTime := now0;
      if old(Valid()) {
        StampPreservesInv(s0, isGUI, now0);
      }
      r := Run0(task, appActive, now0, polled, outcome);
      ghost var s1 := State();
      if r.Ok? {
        lastActiveTime := now1;
        if old(Valid()) {
          StampPreservesInv(s1, isGUI, now1);
        }
      }
    }

    /** `isIdle` at time now. */
    method IsIdle(now: int) returns (idle: bool)
      ensures idle == IsIdleAt(State(), now)
    {
      idle := now - lastActiveTime > IdleTimeoutMillis;
    }

    /** `cancel(browserId, url)`; drivers are the pool's drivers in iteration order. */
    method Cancel(browserId: int, url: string, drivers: seq<DriverEntry>) returns (d: Option<nat>)
      modifies this
      ensures (State(), d) == CancelSpec(old(State()), browserId, url, drivers)
    {
      if browserId !in driverPools {
        return None;
      }
      var i := FirstWithUrl(drivers, url);
      if i.None? {
        return None;
      }
      d := Some(drivers[i.value].id);
      canceled := canceled + [d.value];
    }

    /** `doCloseDriverPool`. */
    method DoCloseDriverPool(browserId: int)
      modifies this
      ensures State() == DoCloseSpec(old(State()), browserId, isGUI)
    {
      retiredPools := retiredPools + {browserId};
      var picked := PickToClose(driverPools, browserId, isGUI);
      if !isGUI {
        driverPools := driverPools - {browserId};
      }
      if picked.Some? {
        var k := picked.value;
        if isGUI {
          driverPools := driverPools[k := driverPools[k].(isRetired := true, closed := true)];
        }
        closedPools := closedPools + [k];
      }
      closedBrowsers := closedBrowsers + [browserId];
    }

    /** `close`. */
    method Close()
      modifies this
      ensures State() == CloseSpec(old(State()), isGUI)
      ensures old(Valid()) ==> Valid()
    {
      if old(Valid()) {
        ClosePreservesInv(State(), isGUI);
      }
      if closed {
        return;
      }
      closed := true;
      ghost var s1 := State();
      var rest := driverPools.Keys;
      while rest != {}
        invariant CloseEach(State(), rest, isGUI) == CloseEach(s1, s1.driverPools.Keys, isGUI)
        decreases |rest|
      {
        var k := MinKey(rest);
        RemoveShrinks(rest, k);
        DoCloseDriverPool(k);
        rest := rest - {k};
      }
      driverPools := map[];
      factoryClosed := true;
    }
  }
}
