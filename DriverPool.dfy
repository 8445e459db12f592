/**
 * The bookkeeping of WebDriverPool: per-priority FIFO queues of free drivers, a map of
 * working drivers, a status per driver and the retired/crashed/quit/page-view counters.
 * The source keeps this state in the class's companion object, shared by every pool
 * instance; here it is one object.
 *
 * The specification functions below describe each operation on a snapshot of that state
 * (PoolState); the methods of class WebDriverPool are proved to change their fields as
 * these functions say.
 */
module DriverPool {
  import opened Wrappers

  datatype DriverStatus = Unknown | Free | Working | Retired | Crashed

  /** A ManagedWebDriver as the pool sees it: its id and the priority bucket it serves. */
  datatype Driver = Driver(id: nat, priority: int)

  /** The fields of a ManagedWebDriver the pool reads and writes. */
  datatype DriverState = DriverState(priority: int, status: DriverStatus, pageViews: nat, isQuit: bool)

  /** The exception a driver is retired for; Other stands for every other exception class. */
  datatype Cause = NoSuchSession | HttpHostConnect | Other

  /** The companion-object state: registries, queues, per-driver fields and counters. */
  datatype PoolState = PoolState(
    instanceCounter: nat,
    allDrivers: map<nat, Driver>,
    freeDrivers: map<int, seq<Driver>>,
    workingDrivers: map<nat, Driver>,
    drivers: map<nat, DriverState>,
    numCrashed: nat,
    numRetired: nat,
    numQuit: nat,
    pageViews: nat,
    lastActiveTime: int)

  /** The state of a fresh store, created at time now. */
  function InitialState(now: int): PoolState
  {
    PoolState(0, map[], map[], map[], map[], 0, 0, 0, 0, now)
  }

  /** The total length of all queues: `freeDrivers.values.sumBy { it.size }`. */
  ghost function TotalLength(m: map<int, seq<Driver>>): nat
    decreases |m|
  {
    if |m| == 0 then 0
    else
      NonEmptyHasKey(m);
      var k :| k in m;
      assert |m - {k}| < |m| by { assert (m - {k}).Keys < m.Keys; }
      |m[k]| + TotalLength(m - {k})
  }

  lemma NonEmptyHasKey<V>(m: map<int, V>)
    requires |m| != 0
    ensures exists k :: k in m
  {
    if forall k :: k !in m { assert false; }
  }

  /** Removing a key shrinks a map by one. */
  lemma RemoveKeyShrinks<V>(m: map<int, V>, k: int)
    requires k in m
    ensures |m - {k}| == |m| - 1
  {
  }

  /** The sum does not depend on which key is taken out first. */
  lemma {:induction false} TotalLengthRemove(m: map<int, seq<Driver>>, k: int)
    requires k in m
    ensures TotalLength(m) == |m[k]| + TotalLength(m - {k})
    decreases |m|
  {
    var j :| j in m && TotalLength(m) == |m[j]| + TotalLength(m - {j});
    if j != k {
      assert |m - {j}| < |m| by { assert (m - {j}).Keys < m.Keys; }
      TotalLengthRemove(m - {j}, k);
      assert |m - {k}| < |m| by { assert (m - {k}).Keys < m.Keys; }
      TotalLengthRemove(m - {k}, j);
      assert m - {j} - {k} == m - {k} - {j};
    }
  }

  /** Replacing one queue changes the total by the difference of the two lengths. */
  lemma TotalLengthUpdate(m: map<int, seq<Driver>>, k: int, q: seq<Driver>)
    ensures TotalLength(m[k := q]) + (if k in m then |m[k]| else 0) == TotalLength(m) + |q|
  {
    TotalLengthRemove(m[k := q], k);
    if k in m {
      TotalLengthRemove(m, k);
      assert m[k := q] - {k} == m - {k};
    } else {
      assert m[k := q] - {k} == m;
    }
  }

  /** `workingDrivers.size + freeDrivers.values.sumBy { it.size }`. */
  ghost function AliveSizeOf(s: PoolState): nat
  {
    |s.workingDrivers| + TotalLength(s.freeDrivers)
  }

  ghost function Bound(capacity: int): nat { if capacity < 0 then 0 else capacity }

  ghost predicate Known(s: PoolState, d: Driver)
  {
    d.id in s.drivers && s.drivers[d.id].priority == d.priority
  }

  /** What every element of the queue for priority k satisfies. */
  ghost predicate FreeEntry(s: PoolState, k: int, d: Driver)
  {
    && d.priority == k && Known(s, d)
    && s.drivers[d.id].status == Free && !s.drivers[d.id].isQuit
    && d.id !in s.workingDrivers
  }

  /** A working driver is WORKING, or RETIRED when its user flagged it for retirement. */
  predicate Serving(st: DriverStatus)
  {
    st == Working || st == Retired
  }

  /**
   * The pool invariant: queued drivers are FREE, working drivers are WORKING, no driver is
   * both, none is queued twice, none of them has quit, and no more are alive than capacity.
   */
  ghost predicate Inv(s: PoolState, capacity: int)
  {
    IdsInv(s) && WorkingInv(s) && FreeInv(s) && AliveSizeOf(s) <= Bound(capacity)
  }

  /** Every driver id was issued by the counter; every registered driver has its fields. */
  ghost predicate IdsInv(s: PoolState)
  {
    && (forall id :: id in s.drivers ==> 0 < id <= s.instanceCounter)
    && (forall id :: id in s.allDrivers ==> id in s.drivers)
  }

  /** Working drivers are stored under their own id, serving and not quit. */
  ghost predicate WorkingInv(s: PoolState)
  {
    forall id :: id in s.workingDrivers ==> WorkingEntry(s, id)
  }

  ghost predicate WorkingEntry(s: PoolState, id: nat)
    requires id in s.workingDrivers
  {
    var d := s.workingDrivers[id];
    d.id == id && Known(s, d) && Serving(s.drivers[id].status) && !s.drivers[id].isQuit
  }

  /** Queued drivers are free, not working, in the queue of their priority, and queued once. */
  ghost predicate FreeInv(s: PoolState)
  {
    && (forall k, d :: k in s.freeDrivers && d in s.freeDrivers[k] ==> FreeEntry(s, k, d))
    && (forall k :: k in s.freeDrivers ==> NoDup(s.freeDrivers[k]))
  }

  /** No driver occurs twice in q. */
  ghost predicate NoDup(q: seq<Driver>)
  {
    forall i, j :: 0 <= i < j < |q| ==> q[i] != q[j]
  }

  /** The queue for priority k, or an empty one when there is none. */
  function QueueOf(s: PoolState, k: int): seq<Driver>
  {
    if k in s.freeDrivers then s.freeDrivers[k] else []
  }

  /**
   * How one call of `createWebDriver` and `setLogLevel` goes: creating the browser driver
   * throws, it is created and registered but setting its log level throws, or both succeed.
   */
  datatype Creation = CreateFails | LogLevelFails | Created

  /**
   * `allocateWebDriver`: when the pool may grow and creation succeeds, a new driver takes the
   * next id and is registered; it is handed out only if setting its log level succeeds too.
   */
  ghost function AllocateSpec(s: PoolState, priority: int, isClosed: bool, capacity: int, creation: Creation): (PoolState, Option<Driver>)
  {
    if isClosed || AliveSizeOf(s) >= capacity || creation == CreateFails then (s, None)
    else
      var d := Driver(s.instanceCounter + 1, priority);
      (s.(instanceCounter := d.id,
          allDrivers := s.allDrivers[d.id := d],
          drivers := s.drivers[d.id := DriverState(priority, Unknown, 0, false)]),
       if creation == Created then Some(d) else None)
  }

  /**
   * `dequeue`: creates the queue if absent, allocates only when the queue is empty, and
   * always takes the head.
   */
  ghost function DequeueSpec(s: PoolState, group: int, isClosed: bool, capacity: int, creation: Creation): (PoolState, Option<Driver>)
  {
    var s0 := if group in s.freeDrivers then s else s.(freeDrivers := s.freeDrivers[group := []]);
    var q := s0.freeDrivers[group];
    if q != [] then (s0.(freeDrivers := s0.freeDrivers[group := q[1..]]), Some(q[0]))
    else AllocateSpec(s0, group, isClosed, capacity, creation)
  }

  /** The dequeue attempts of `poll`: one before waiting and one after each wake-up. */
  ghost function WaitSpec(s: PoolState, group: int, isClosed: bool, capacity: int, attempts: seq<Creation>): (PoolState, Option<Driver>)
    requires |attempts| > 0
    decreases |attempts|
  {
    var (s1, r) := DequeueSpec(s, group, isClosed, capacity, attempts[0]);
    if r.None? && |attempts| > 1 then WaitSpec(s1, group, isClosed, capacity, attempts[1..]) else (s1, r)
  }

  /** `poll`: a driver taken from the pool is marked WORKING and entered in the working map. */
  ghost function PollSpec(s: PoolState, priority: int, isClosed: bool, capacity: int, attempts: seq<Creation>): (PoolState, Option<Driver>)
    requires |attempts| > 0
  {
    if isClosed then (s, None)
    else
      var (s1, r) := WaitSpec(s, priority, isClosed, capacity, attempts);
      match r
      case None => (s1, None)
      case Some(d) =>
        if d.id in s1.drivers then
          (s1.(drivers := s1.drivers[d.id := s1.drivers[d.id].(status := Working)],
               workingDrivers := s1.workingDrivers[d.id := d]), r)
        else (s1, r)
  }

  /** `LinkedList.remove(o)`: drops the first element equal to x. */
  function RemoveFirst(q: seq<Driver>, x: Driver): (r: seq<Driver>)
    decreases |q|
  {
    if q == [] then [] else if q[0] == x then q[1..] else [q[0]] + RemoveFirst(q[1..], x)
  }

  /** The status a retired driver ends in: CRASHED for a lost session or an unreachable host. */
  function RetiredStatus(cause: Option<Cause>): DriverStatus
  {
    if cause == Some(NoSuchSession) || cause == Some(HttpHostConnect) then Crashed else Retired
  }

  /**
   * `retire`: a driver that has quit is left alone; any other is taken out of its queue and
   * the working map, marked RETIRED or CRASHED, counted, and quit unless quitting fails.
   */
  ghost function RetireSpec(s: PoolState, d: Driver, cause: Option<Cause>, external: bool, isClosed: bool, quitFailing: set<nat>): PoolState
    requires Known(s, d)
  {
    if (external && isClosed) || s.drivers[d.id].isQuit then s
    else
      var st := RetiredStatus(cause);
      var quits := d.id !in quitFailing;
      s.(drivers := s.drivers[d.id := s.drivers[d.id].(status := st, isQuit := quits)],
         freeDrivers := RemoveFromQueues(s.freeDrivers, d),
         workingDrivers := s.workingDrivers - {d.id},
         numRetired := s.numRetired + (if st == Retired then 1 else 0),
         numCrashed := s.numCrashed + (if st == Crashed then 1 else 0),
         numQuit := s.numQuit + (if quits then 1 else 0))
  }

  /**
   * `offer`: on a successful recycle the driver becomes FREE, its page views and the global
   * ones grow by one, it joins the tail of its queue if that queue exists, and it leaves the
   * working map; a failed recycle marks it UNKNOWN and retires it for that failure. Either
   * way the pool's last active time is stamped first.
   */
  ghost function OfferSpec(s: PoolState, d: Driver, recycleError: Option<Cause>, isClosed: bool, quitFailing: set<nat>, now: int): PoolState
    requires Known(s, d)
  {
    if isClosed then s
    else if recycleError.Some? then
      var s1 := s.(lastActiveTime := now, drivers := s.drivers[d.id := s.drivers[d.id].(status := Unknown)]);
      RetireSpec(s1, d, recycleError, true, isClosed, quitFailing)
    else
      var st := s.drivers[d.id];
      s.(lastActiveTime := now,
         drivers := s.drivers[d.id := st.(status := Free, pageViews := st.pageViews + 1)],
         pageViews := s.pageViews + 1,
         freeDrivers := if d.priority in s.freeDrivers
                        then s.freeDrivers[d.priority := s.freeDrivers[d.priority] + [d]]
                        else s.freeDrivers,
         workingDrivers := s.workingDrivers - {d.id})
  }

  /** `put`: a driver flagged RETIRED goes to retire, every other one to offer. */
  ghost function PutSpec(s: PoolState, d: Driver, recycleError: Option<Cause>, isClosed: bool, quitFailing: set<nat>, now: int): PoolState
    requires Known(s, d)
  {
    if s.drivers[d.id].status == Retired then RetireSpec(s, d, None, true, isClosed, quitFailing)
    else OfferSpec(s, d, recycleError, isClosed, quitFailing, now)
  }

  /** The ids of every queued driver. */
  ghost function QueuedIds(s: PoolState): set<nat>
  {
    set k, d | k in s.freeDrivers && d in s.freeDrivers[k] :: d.id
  }

  /** The ids of every queued or working driver. */
  ghost function AliveIds(s: PoolState): set<nat>
  {
    s.workingDrivers.Keys + QueuedIds(s)
  }

  /** The per-driver fields once every driver in ids has been retired without a cause. */
  ghost function RetireAllStates(drivers: map<nat, DriverState>, ids: set<nat>, quitFailing: set<nat>): map<nat, DriverState>
  {
    map id | id in drivers :: if id in ids then drivers[id].(status := Retired, isQuit := id !in quitFailing) else drivers[id]
  }

  /** The per-driver fields once every driver in ids has been quit, except those whose quit fails. */
  ghost function QuitAllStates(drivers: map<nat, DriverState>, ids: set<nat>, quitFailing: set<nat>): map<nat, DriverState>
  {
    map id | id in drivers :: if id in ids && id !in quitFailing then drivers[id].(isQuit := true) else drivers[id]
  }

  /** The drivers among ids whose quit call is made and succeeds in the final sweep. */
  ghost function QuitSweep(s: PoolState, ids: set<nat>, quitFailing: set<nat>): set<nat>
  {
    set id | id in ids && id in s.drivers && !s.drivers[id].isQuit && id !in quitFailing
  }

  /**
   * `closeAllUnlocked`: with no registered driver nothing happens; otherwise every queued and
   * working driver is retired, the queues and the working map are emptied, and in headless
   * mode every registered driver is unregistered and quit. retireFailing holds the drivers
   * whose quit throws while they are retired, sweepFailing those whose quit throws in the
   * final sweep.
   */
  ghost function CloseAllUnlockedSpec(s: PoolState, isHeadless: bool, retireFailing: set<nat>, sweepFailing: set<nat>): PoolState
  {
    if s.allDrivers == map[] then s
    else if !isHeadless then RetireAlive(s, retireFailing)
    else QuitRegistered(RetireAlive(s, retireFailing), sweepFailing)
  }

  // ---------------------------------------------------------------------------------------
  // Facts about the queues
  // ---------------------------------------------------------------------------------------

  /** `LinkedList.remove` drops one occurrence of x and keeps every other element. */
  lemma {:induction false} RemoveFirstFacts(q: seq<Driver>, x: Driver)
    ensures x !in q ==> RemoveFirst(q, x) == q
    ensures x in q ==> |RemoveFirst(q, x)| == |q| - 1
    ensures forall y :: y in RemoveFirst(q, x) ==> y in q
    ensures NoDup(q) ==> NoDup(RemoveFirst(q, x)) && x !in RemoveFirst(q, x)
    ensures forall y :: y in q && y != x ==> y in RemoveFirst(q, x)
    decreases |q|
  {
    if q != [] && q[0] != x {
      RemoveFirstFacts(q[1..], x);
      var r := RemoveFirst(q, x);
      assert r == [q[0]] + RemoveFirst(q[1..], x);
      forall y | y in q && y != x ensures y in r {
        if y != q[0] { assert y in q[1..]; }
      }
      if NoDup(q) {
        assert NoDup(q[1..]) by {
          forall i, j | 0 <= i < j < |q[1..]| ensures q[1..][i] != q[1..][j] {
            assert q[1..][i] == q[i + 1] && q[1..][j] == q[j + 1];
          }
        }
        assert q[0] !in q[1..] by {
          forall j | 0 <= j < |q[1..]| ensures q[1..][j] != q[0] { assert q[1..][j] == q[j + 1]; }
        }
        forall i, j | 0 <= i < j < |r| ensures r[i] != r[j] {
          if i == 0 { assert r[j] in RemoveFirst(q[1..], x); }
          else { assert r[i] == RemoveFirst(q[1..], x)[i - 1] && r[j] == RemoveFirst(q[1..], x)[j - 1]; }
        }
      }
    } else if q != [] {
      if NoDup(q) {
        forall i, j | 0 <= i < j < |q[1..]| ensures q[1..][i] != q[1..][j] {
          assert q[1..][i] == q[i + 1] && q[1..][j] == q[j + 1];
        }
        forall j | 0 <= j < |q[1..]| ensures q[1..][j] != x { assert q[1..][j] == q[j + 1]; }
      }
      forall y | y in q && y != x ensures y in q[1..] { }
    }
  }

  /** Two known drivers with the same id are the same driver. */
  lemma SameId(s: PoolState, a: Driver, b: Driver)
    requires Known(s, a) && Known(s, b) && a.id == b.id
    ensures a == b
  {
  }

  // ---------------------------------------------------------------------------------------
  // The pool invariant is kept by every operation
  // ---------------------------------------------------------------------------------------

  /** Whether `retire` acts: it is let through and the driver has not quit. */
  ghost predicate RetireActs(s: PoolState, d: Driver, external: bool, isClosed: bool)
    requires Known(s, d)
  {
    !(external && isClosed) && !s.drivers[d.id].isQuit
  }

  /** The queues `retire` leaves: the driver's one occurrence is dropped from its own queue. */
  function RemoveFromQueues(m: map<int, seq<Driver>>, d: Driver): map<int, seq<Driver>>
  {
    if d.priority in m then m[d.priority := RemoveFirst(m[d.priority], d)] else m
  }

  lemma RemoveFromQueuesLength(m: map<int, seq<Driver>>, d: Driver)
    ensures TotalLength(RemoveFromQueues(m, d)) <= TotalLength(m)
  {
    if d.priority in m {
      RemoveFirstFacts(m[d.priority], d);
      TotalLengthUpdate(m, d.priority, RemoveFirst(m[d.priority], d));
    }
  }

  /**
   * Queue entries stay valid when the queues shrink by the one driver d, that driver's
   * fields change and nothing else about the other drivers changes.
   */
  lemma FreeInvAfterRemoval(s: PoolState, s1: PoolState, d: Driver)
    requires FreeInv(s) && Known(s, d)
    requires s1.freeDrivers == RemoveFromQueues(s.freeDrivers, d)
    requires s1.drivers.Keys == s.drivers.Keys
    requires forall id :: id in s.drivers && id != d.id ==> s1.drivers[id] == s.drivers[id]
    requires s1.drivers[d.id].priority == d.priority
    requires s1.workingDrivers.Keys <= s.workingDrivers.Keys
    ensures FreeInv(s1)
    ensures QueuedIds(s1) == QueuedIds(s) - {d.id}
  {
    var p := d.priority;
    if p in s.freeDrivers {
      RemoveFirstFacts(s.freeDrivers[p], d);
    }
    forall k, y | k in s1.freeDrivers && y in s1.freeDrivers[k] ensures FreeEntry(s1, k, y) && y.id != d.id {
      assert y in s.freeDrivers[k];
      assert FreeEntry(s, k, y);
      if y.id == d.id { SameId(s, y, d); }
    }
    forall id | id in QueuedIds(s) && id != d.id ensures id in QueuedIds(s1) {
      var k, y :| k in s.freeDrivers && y in s.freeDrivers[k] && y.id == id;
      assert y != d;
      assert y in s1.freeDrivers[k];
    }
  }

  /** When `retire` acts, the queues lose exactly the driver's one occurrence. */
  lemma RetireQueues(s: PoolState, d: Driver, cause: Option<Cause>, external: bool, isClosed: bool, quitFailing: set<nat>)
    requires FreeInv(s) && Known(s, d) && RetireActs(s, d, external, isClosed)
    ensures var s1 := RetireSpec(s, d, cause, external, isClosed, quitFailing);
      && FreeInv(s1)
      && QueuedIds(s1) == QueuedIds(s) - {d.id}
      && TotalLength(s1.freeDrivers) <= TotalLength(s.freeDrivers)
  {
    var s1 := RetireSpec(s, d, cause, external, isClosed, quitFailing);
    assert s1.freeDrivers == RemoveFromQueues(s.freeDrivers, d);
    RemoveFromQueuesLength(s.freeDrivers, d);
    FreeInvAfterRemoval(s, s1, d);
  }

  /** When `retire` acts, the working map loses the driver's id and keeps its invariant. */
  lemma RetireWorking(s: PoolState, d: Driver, cause: Option<Cause>, external: bool, isClosed: bool, quitFailing: set<nat>)
    requires WorkingInv(s) && Known(s, d) && RetireActs(s, d, external, isClosed)
    ensures var s1 := RetireSpec(s, d, cause, external, isClosed, quitFailing);
      && WorkingInv(s1)
      && s1.workingDrivers.Keys == s.workingDrivers.Keys - {d.id}
      && |s1.workingDrivers| <= |s.workingDrivers|
  {
    var s1 := RetireSpec(s, d, cause, external, isClosed, quitFailing);
    forall id | id in s1.workingDrivers ensures WorkingEntry(s1, id) {
      assert WorkingEntry(s, id);
    }
    assert s1.workingDrivers.Keys <= s.workingDrivers.Keys;
  }

  /** `retire` keeps the invariant, and a call that does not act changes nothing. */
  lemma RetirePreservesInv(s: PoolState, d: Driver, cause: Option<Cause>, external: bool, isClosed: bool, quitFailing: set<nat>, capacity: int)
    requires Inv(s, capacity) && Known(s, d)
    ensures Inv(RetireSpec(s, d, cause, external, isClosed, quitFailing), capacity)
    ensures !RetireActs(s, d, external, isClosed) ==> RetireSpec(s, d, cause, external, isClosed, quitFailing) == s
  {
    var s1 := RetireSpec(s, d, cause, external, isClosed, quitFailing);
    if RetireActs(s, d, external, isClosed) {
      RetireQueues(s, d, cause, external, isClosed, quitFailing);
      RetireWorking(s, d, cause, external, isClosed, quitFailing);
      assert IdsInv(s1) by {
        assert s1.drivers.Keys == s.drivers.Keys && s1.allDrivers == s.allDrivers;
        assert s1.instanceCounter == s.instanceCounter;
      }
      assert AliveSizeOf(s1) <= AliveSizeOf(s);
    }
  }

  /**
   * When `retire` acts, exactly one of the retired and crashed counters grows, by one: the
   * crashed one for a lost session or an unreachable host.
   */
  lemma RetireCounts(s: PoolState, d: Driver, cause: Option<Cause>, external: bool, isClosed: bool, quitFailing: set<nat>)
    requires Known(s, d) && RetireActs(s, d, external, isClosed)
    ensures var s1 := RetireSpec(s, d, cause, external, isClosed, quitFailing);
      && s1.numRetired + s1.numCrashed == s.numRetired + s.numCrashed + 1
      && (s1.numCrashed == s.numCrashed + 1 <==> cause in {Some(NoSuchSession), Some(HttpHostConnect)})
      && (s1.numQuit == s.numQuit + 1 <==> d.id !in quitFailing)
  {
  }

  /** When `retire` acts on a driver of a valid pool, that driver is no longer queued or working. */
  lemma RetireRemovesEverywhere(s: PoolState, d: Driver, cause: Option<Cause>, external: bool, isClosed: bool, quitFailing: set<nat>, capacity: int)
    requires Inv(s, capacity) && Known(s, d) && RetireActs(s, d, external, isClosed)
    ensures AliveIds(RetireSpec(s, d, cause, external, isClosed, quitFailing)) == AliveIds(s) - {d.id}
  {
    RetireQueues(s, d, cause, external, isClosed, quitFailing);
    RetireWorking(s, d, cause, external, isClosed, quitFailing);
  }


  /** A driver handed out of the queues: known, not quit, neither queued nor working. */
  ghost predicate Detached(s: PoolState, d: Driver)
  {
    Known(s, d) && !s.drivers[d.id].isQuit && d.id !in s.workingDrivers && d.id !in QueuedIds(s)
  }

  /** What `poll` does with the driver `dequeue` hands it: WORKING, in the working map. */
  ghost function Serve(s: PoolState, d: Driver): PoolState
    requires d.id in s.drivers
  {
    s.(drivers := s.drivers[d.id := s.drivers[d.id].(status := Working)],
       workingDrivers := s.workingDrivers[d.id := d])
  }

  /** The outcome of the dequeue attempts when the pool invariant held before them. */
  ghost predicate Handed(s: PoolState, r: Option<Driver>, group: int, capacity: int)
  {
    Inv(s, capacity) && (r.Some? ==> Detached(s, r.value) && r.value.priority == group && AliveSizeOf(s) < Bound(capacity))
  }

  /**
   * `allocateWebDriver` grows the pool only below capacity, with a fresh id from the
   * counter, and keeps the invariant. A driver whose log level cannot be set stays
   * registered under its new id but is neither handed out nor alive.
   */
  lemma AllocatePreservesInv(s: PoolState, priority: int, isClosed: bool, capacity: int, creation: Creation)
    requires Inv(s, capacity)
    ensures var (s1, r) := AllocateSpec(s, priority, isClosed, capacity, creation);
      var registered := !isClosed && AliveSizeOf(s) < capacity && creation != CreateFails;
      && Handed(s1, r, priority, capacity)
      && (r.Some? <==> registered && creation == Created)
      && (r.Some? ==> r.value == Driver(s1.instanceCounter, priority))
      && (!registered ==> s1 == s)
      && (registered ==> && s1.instanceCounter == s.instanceCounter + 1 && s1.instanceCounter !in s.drivers
                         && s1.allDrivers == s.allDrivers[s1.instanceCounter := Driver(s1.instanceCounter, priority)]
                         && s1.instanceCounter !in AliveIds(s1))
      && AliveSizeOf(s1) == AliveSizeOf(s)
  {
    var (s1, r) := AllocateSpec(s, priority, isClosed, capacity, creation);
    if !isClosed && AliveSizeOf(s) < capacity && creation != CreateFails {
      var d := Driver(s1.instanceCounter, priority);
      assert d.id !in s.drivers;
      forall k, y | k in s1.freeDrivers && y in s1.freeDrivers[k] ensures FreeEntry(s1, k, y) && y.id != d.id {
        assert FreeEntry(s, k, y);
      }
      forall id | id in s1.workingDrivers ensures WorkingEntry(s1, id) {
        assert WorkingEntry(s, id);
      }
      assert d.id !in QueuedIds(s1);
    }
  }

  /** Dropping the head of a duplicate-free queue of valid entries detaches that head. */
  lemma DequeueHead(s: PoolState, group: int)
    requires FreeInv(s) && group in s.freeDrivers && s.freeDrivers[group] != []
    ensures var q := s.freeDrivers[group];
      && FreeInv(s.(freeDrivers := s.freeDrivers[group := q[1..]]))
      && q[0].id !in QueuedIds(s.(freeDrivers := s.freeDrivers[group := q[1..]]))
      && TotalLength(s.freeDrivers[group := q[1..]]) + 1 == TotalLength(s.freeDrivers)
  {
    var q := s.freeDrivers[group];
    var s1 := s.(freeDrivers := s.freeDrivers[group := q[1..]]);
    TotalLengthUpdate(s.freeDrivers, group, q[1..]);
    assert FreeEntry(s, group, q[0]);
    forall k, y | k in s1.freeDrivers && y in s1.freeDrivers[k] ensures FreeEntry(s1, k, y) && y.id != q[0].id {
      if k == group {
        var j :| 0 <= j < |q[1..]| && q[1..][j] == y;
        assert y == q[j + 1];
      }
      assert FreeEntry(s, k, y);
    }
    forall i, j | 0 <= i < j < |q[1..]| ensures q[1..][i] != q[1..][j] {
      assert q[1..][i] == q[i + 1] && q[1..][j] == q[j + 1];
    }
  }

  /** Creating a missing queue (empty) keeps the invariant. */
  lemma EmptyQueuePreservesInv(s: PoolState, group: int, capacity: int)
    requires Inv(s, capacity) && group !in s.freeDrivers
    ensures Inv(s.(freeDrivers := s.freeDrivers[group := []]), capacity)
  {
    var s0 := s.(freeDrivers := s.freeDrivers[group := []]);
    TotalLengthUpdate(s.freeDrivers, group, []);
    assert AliveSizeOf(s0) == AliveSizeOf(s);
    assert FreeInv(s0) by {
      forall k, y | k in s0.freeDrivers && y in s0.freeDrivers[k] ensures FreeEntry(s0, k, y) {
        assert FreeEntry(s, k, y);
      }
      forall k | k in s0.freeDrivers ensures NoDup(s0.freeDrivers[k]) {
        if k != group { assert NoDup(s.freeDrivers[k]); }
      }
    }
    assert WorkingInv(s0) by {
      forall id | id in s0.workingDrivers ensures WorkingEntry(s0, id) { assert WorkingEntry(s, id); }
    }
  }

  /** `dequeue` keeps the invariant and hands out a detached driver of the requested priority. */
  lemma DequeuePreservesInv(s: PoolState, group: int, isClosed: bool, capacity: int, creation: Creation)
    requires Inv(s, capacity)
    ensures var (s1, r) := DequeueSpec(s, group, isClosed, capacity, creation); Handed(s1, r, group, capacity)
  {
    var s0 := if group in s.freeDrivers then s else s.(freeDrivers := s.freeDrivers[group := []]);
    if group !in s.freeDrivers {
      EmptyQueuePreservesInv(s, group, capacity);
    }
    var q := s0.freeDrivers[group];
    if q != [] {
      DequeueHead(s0, group);
      assert FreeEntry(s0, group, q[0]);
    } else {
      AllocatePreservesInv(s0, group, isClosed, capacity, creation);
    }
  }

  /** Marking a detached driver WORKING and entering it in the working map keeps the invariant. */
  lemma ServePreservesInv(s: PoolState, d: Driver, capacity: int)
    requires Inv(s, capacity) && Detached(s, d) && AliveSizeOf(s) < Bound(capacity)
    ensures Inv(Serve(s, d), capacity)
  {
    var s1 := Serve(s, d);
    forall k, y | k in s1.freeDrivers && y in s1.freeDrivers[k] ensures FreeEntry(s1, k, y) {
      assert FreeEntry(s, k, y);
      assert y.id in QueuedIds(s);
    }
    forall id | id in s1.workingDrivers ensures WorkingEntry(s1, id) {
      if id != d.id { assert WorkingEntry(s, id); }
    }
    assert |s1.workingDrivers| == |s.workingDrivers| + 1;
  }

  /** The dequeue attempts of `poll` keep the invariant. */
  lemma {:induction false} WaitPreservesInv(s: PoolState, group: int, isClosed: bool, capacity: int, attempts: seq<Creation>)
    requires Inv(s, capacity) && |attempts| > 0
    ensures var (s1, r) := WaitSpec(s, group, isClosed, capacity, attempts); Handed(s1, r, group, capacity)
    decreases |attempts|
  {
    DequeuePreservesInv(s, group, isClosed, capacity, attempts[0]);
    var (s1, r) := DequeueSpec(s, group, isClosed, capacity, attempts[0]);
    if r.None? && |attempts| > 1 {
      WaitPreservesInv(s1, group, isClosed, capacity, attempts[1..]);
    }
  }

  /**
   * `poll` keeps the invariant (so alive drivers never exceed capacity), and a driver it
   * returns has the requested priority, is WORKING and is in the working map under its id.
   */
  lemma PollPreservesInv(s: PoolState, priority: int, isClosed: bool, capacity: int, attempts: seq<Creation>)
    requires Inv(s, capacity) && |attempts| > 0
    ensures var (s1, r) := PollSpec(s, priority, isClosed, capacity, attempts);
      && Inv(s1, capacity)
      && (r.Some? ==> && r.value.priority == priority
                      && r.value.id in s1.workingDrivers && s1.workingDrivers[r.value.id] == r.value
                      && r.value.id in s1.drivers && s1.drivers[r.value.id].status == Working)
  {
    if !isClosed {
      WaitPreservesInv(s, priority, isClosed, capacity, attempts);
      var (s1, r) := WaitSpec(s, priority, isClosed, capacity, attempts);
      if r.Some? {
        ServePreservesInv(s1, r.value, capacity);
      }
    }
  }

  /**
   * For a driver that has not quit, a failed recycle is the same as retiring it for that
   * failure, with the pool marked active at that time.
   */
  lemma OfferFailureRetires(s: PoolState, d: Driver, recycleError: Option<Cause>, isClosed: bool, quitFailing: set<nat>, now: int)
    requires Known(s, d) && recycleError.Some? && !isClosed && !s.drivers[d.id].isQuit
    ensures OfferSpec(s, d, recycleError, isClosed, quitFailing, now)
         == RetireSpec(s, d, recycleError, true, isClosed, quitFailing).(lastActiveTime := now)
  {
    var s1 := s.(lastActiveTime := now, drivers := s.drivers[d.id := s.drivers[d.id].(status := Unknown)]);
    var st := RetiredStatus(recycleError);
    var quits := d.id !in quitFailing;
    assert s1.drivers[d.id := s1.drivers[d.id].(status := st, isQuit := quits)]
        == s.drivers[d.id := s.drivers[d.id].(status := st, isQuit := quits)];
    var r1 := RetireSpec(s1, d, recycleError, true, isClosed, quitFailing);
    var r0 := RetireSpec(s, d, recycleError, true, isClosed, quitFailing);
    assert r1.drivers == r0.drivers;
  }

  /**
   * Putting back a working driver keeps the invariant: a successful `offer` moves it from
   * the working map to the tail of its queue (or drops it when that queue does not exist),
   * and every other outcome retires it.
   */
  lemma PutPreservesInv(s: PoolState, d: Driver, recycleError: Option<Cause>, isClosed: bool, quitFailing: set<nat>, now: int, capacity: int)
    requires Inv(s, capacity) && d.id in s.workingDrivers && s.workingDrivers[d.id] == d
    ensures Inv(PutSpec(s, d, recycleError, isClosed, quitFailing, now), capacity)
  {
    assert WorkingEntry(s, d.id);
    if s.drivers[d.id].status == Retired {
      RetirePreservesInv(s, d, None, true, isClosed, quitFailing, capacity);
    } else if isClosed {
    } else if recycleError.Some? {
      OfferFailureRetires(s, d, recycleError, isClosed, quitFailing, now);
      RetirePreservesInv(s, d, recycleError, true, isClosed, quitFailing, capacity);
    } else {
      OfferPreservesInv(s, d, quitFailing, now, capacity);
    }
  }

  /** The successful branch of `offer` keeps the invariant. */
  lemma OfferPreservesInv(s: PoolState, d: Driver, quitFailing: set<nat>, now: int, capacity: int)
    requires Inv(s, capacity) && d.id in s.workingDrivers && s.workingDrivers[d.id] == d
    ensures Inv(OfferSpec(s, d, None, false, quitFailing, now), capacity)
  {
    var s1 := OfferSpec(s, d, None, false, quitFailing, now);
    assert WorkingEntry(s, d.id);
    var p := d.priority;
    assert d.id !in QueuedIds(s);
    forall k, y | k in s1.freeDrivers && y in s1.freeDrivers[k] ensures FreeEntry(s1, k, y) {
      if y != d {
        assert y in s.freeDrivers[k];
        assert FreeEntry(s, k, y);
        assert y.id in QueuedIds(s);
      }
    }
    forall k | k in s1.freeDrivers ensures NoDup(s1.freeDrivers[k]) {
      if k == p {
        var q := s.freeDrivers[p];
        forall i | 0 <= i < |q| ensures q[i] != d { assert q[i].id in QueuedIds(s); }
      }
    }
    forall id | id in s1.workingDrivers ensures WorkingEntry(s1, id) {
      assert WorkingEntry(s, id);
    }
    assert |s1.workingDrivers| == |s.workingDrivers| - 1;
    if p in s.freeDrivers {
      TotalLengthUpdate(s.freeDrivers, p, s.freeDrivers[p] + [d]);
    }
  }

  /**
   * The queues are FIFO: an offered driver joins the tail of its (existing) queue, and the
   * next poll of that priority takes the head, the oldest queued driver.
   */
  lemma OfferThenPollFifo(s: PoolState, d: Driver, quitFailing: set<nat>, now: int, capacity: int, attempts: seq<Creation>)
    requires Known(s, d) && d.priority in s.freeDrivers && |attempts| > 0
    ensures var s1 := OfferSpec(s, d, None, false, quitFailing, now);
      && QueueOf(s1, d.priority) == QueueOf(s, d.priority) + [d]
      && PollSpec(s1, d.priority, false, capacity, attempts).1 == Some((QueueOf(s, d.priority) + [d])[0])
      && PollSpec(s1, d.priority, false, capacity, attempts).0.instanceCounter == s.instanceCounter
  {
  }

  /** Every queued or working driver of a valid pool has its fields in the store. */
  lemma AliveAreKnown(s: PoolState, capacity: int)
    requires Inv(s, capacity)
    ensures AliveIds(s) <= s.drivers.Keys
  {
    forall id | id in AliveIds(s) ensures id in s.drivers {
      if id in s.workingDrivers {
        assert WorkingEntry(s, id);
      } else {
        var k, y :| k in s.freeDrivers && y in s.freeDrivers[k] && y.id == id;
        assert FreeEntry(s, k, y);
      }
    }
  }

  /** The state once every queued and working driver has been retired (the first two steps). */
  ghost function RetireAlive(s: PoolState, quitFailing: set<nat>): PoolState
  {
    var alive := AliveIds(s);
    s.(drivers := RetireAllStates(s.drivers, alive, quitFailing),
       numRetired := s.numRetired + |alive|,
       numQuit := s.numQuit + |alive - quitFailing|,
       freeDrivers := map[],
       workingDrivers := map[])
  }

  /** The sweep of a headless close: every registered driver is unregistered and quit. */
  ghost function QuitRegistered(s: PoolState, quitFailing: set<nat>): PoolState
  {
    s.(drivers := QuitAllStates(s.drivers, s.allDrivers.Keys, quitFailing),
       numQuit := s.numQuit + |QuitSweep(s, s.allDrivers.Keys, quitFailing)|,
       allDrivers := map[])
  }

  lemma RetireAliveInv(s: PoolState, quitFailing: set<nat>, capacity: int)
    requires Inv(s, capacity)
    ensures var s1 := RetireAlive(s, quitFailing);
      && Inv(s1, capacity) && AliveIds(s1) == {} && AliveSizeOf(s1) == 0
      && (forall id :: id in AliveIds(s) ==> id in s1.drivers && s1.drivers[id].status == Retired)
  {
    AliveAreKnown(s, capacity);
    var s1 := RetireAlive(s, quitFailing);
    assert QueuedIds(s1) == {};
    assert TotalLength(s1.freeDrivers) == 0;
    assert s1.drivers.Keys == s.drivers.Keys;
  }

  lemma QuitRegisteredInv(s: PoolState, quitFailing: set<nat>, capacity: int)
    requires Inv(s, capacity) && AliveIds(s) == {}
    ensures var s1 := QuitRegistered(s, quitFailing);
      && Inv(s1, capacity) && AliveIds(s1) == {} && s1.allDrivers == map[]
      && (forall id :: id in s.drivers ==> id in s1.drivers && s1.drivers[id].status == s.drivers[id].status)
      && (forall id :: id in s.allDrivers && id !in quitFailing ==> s1.drivers[id].isQuit)
  {
    var s1 := QuitRegistered(s, quitFailing);
    assert s1.workingDrivers == s.workingDrivers && s1.freeDrivers == s.freeDrivers;
    assert QueuedIds(s1) == QueuedIds(s);
    assert s1.drivers.Keys == s.drivers.Keys;
  }

  /**
   * `closeAllUnlocked` on a non-empty registry keeps the invariant, leaves no driver queued
   * or working, and leaves every formerly alive driver RETIRED; in headless mode it also
   * empties the registry, and every registered driver whose quit succeeds has quit.
   */
  lemma CloseAllUnlockedEmpties(s: PoolState, isHeadless: bool, retireFailing: set<nat>, sweepFailing: set<nat>, capacity: int)
    requires Inv(s, capacity) && s.allDrivers != map[]
    ensures var s1 := CloseAllUnlockedSpec(s, isHeadless, retireFailing, sweepFailing);
      && Inv(s1, capacity)
      && AliveIds(s1) == {} && AliveSizeOf(s1) == 0
      && (forall id :: id in AliveIds(s) ==> id in s1.drivers && s1.drivers[id].status == Retired)
      && (isHeadless ==> s1.allDrivers == map[])
      && (isHeadless ==> forall id :: id in s.allDrivers && id !in sweepFailing ==> s1.drivers[id].isQuit)
  {
    RetireAliveInv(s, retireFailing, capacity);
    var s0 := RetireAlive(s, retireFailing);
    assert CloseAllUnlockedSpec(s, isHeadless, retireFailing, sweepFailing) == if isHeadless then QuitRegistered(s0, sweepFailing) else s0;
    if isHeadless {
      QuitRegisteredInv(s0, sweepFailing, capacity);
      assert TotalLength(map[]) == 0;
    }
  }

  /** With an empty registry `closeAllUnlocked` changes nothing. */
  lemma CloseAllUnlockedEmptyRegistry(s: PoolState, isHeadless: bool, retireFailing: set<nat>, sweepFailing: set<nat>)
    requires s.allDrivers == map[]
    ensures CloseAllUnlockedSpec(s, isHeadless, retireFailing, sweepFailing) == s
  {
  }

  /** `isIdle`: no driver is working and the last activity is longer ago than the timeout. */
  function IsIdleAt(s: PoolState, idleTimeout: int, now: int): bool
  {
    |s.workingDrivers| == 0 && now - s.lastActiveTime > idleTimeout
  }

  /** A pool that just handed out a driver is not idle. */
  lemma PollSuccessNotIdle(s: PoolState, priority: int, isClosed: bool, capacity: int, attempts: seq<Creation>, idleTimeout: int, now: int)
    requires Inv(s, capacity) && |attempts| > 0 && PollSpec(s, priority, isClosed, capacity, attempts).1.Some?
    ensures !IsIdleAt(PollSpec(s, priority, isClosed, capacity, attempts).0, idleTimeout, now)
  {
    PollPreservesInv(s, priority, isClosed, capacity, attempts);
  }

  /** After closing every driver, the pool is idle exactly when the idle timeout has passed. */
  lemma IdleAfterCloseAll(s: PoolState, isHeadless: bool, retireFailing: set<nat>, sweepFailing: set<nat>, capacity: int, idleTimeout: int, now: int)
    requires Inv(s, capacity) && s.allDrivers != map[]
    ensures IsIdleAt(CloseAllUnlockedSpec(s, isHeadless, retireFailing, sweepFailing), idleTimeout, now) <==> now - s.lastActiveTime > idleTimeout
  {
  }

  // ---------------------------------------------------------------------------------------
  // Progress of the loops in closeAllUnlocked
  // ---------------------------------------------------------------------------------------

  /**
   * Part way through retiring the alive drivers of s0: those no longer alive are exactly the
   * ones retired so far, and the counters have grown by their number.
   */
  ghost predicate ClosingProgress(s0: PoolState, s: PoolState, quitFailing: set<nat>)
  {
    var done := AliveIds(s0) - AliveIds(s);
    && AliveIds(s) <= AliveIds(s0)
    && s.drivers == RetireAllStates(s0.drivers, done, quitFailing)
    && s.numRetired == s0.numRetired + |done|
    && s.numQuit == s0.numQuit + |done - quitFailing|
    && s.numCrashed == s0.numCrashed && s.instanceCounter == s0.instanceCounter
    && s.allDrivers == s0.allDrivers && s.pageViews == s0.pageViews
    && s.lastActiveTime == s0.lastActiveTime
  }

  /** Dropping every queue keeps the invariant. */
  lemma DropQueues(s: PoolState, capacity: int)
    requires Inv(s, capacity)
    ensures Inv(s.(freeDrivers := map[]), capacity)
  {
    assert TotalLength(map[]) == 0;
  }

  /** Dropping queues that hold no driver changes nothing that is alive. */
  lemma DropQueuesProgress(s0: PoolState, s: PoolState, quitFailing: set<nat>)
    requires ClosingProgress(s0, s, quitFailing) && QueuedIds(s) == {}
    ensures ClosingProgress(s0, s.(freeDrivers := map[]), quitFailing)
  {
    var s1 := s.(freeDrivers := map[]);
    assert QueuedIds(s1) == {};
    assert AliveIds(s1) == AliveIds(s);
  }

  /** Progress with nothing left alive is the state `RetireAlive` describes. */
  lemma ClosingDone(s0: PoolState, s: PoolState, quitFailing: set<nat>)
    requires ClosingProgress(s0, s, quitFailing) && s.freeDrivers == map[] && s.workingDrivers == map[]
    ensures s == RetireAlive(s0, quitFailing)
  {
    NothingAlive(s);
  }

  lemma NothingAlive(s: PoolState)
    requires s.freeDrivers == map[] && s.workingDrivers == map[]
    ensures AliveIds(s) == {}
  {
    assert QueuedIds(s) == {};
  }

  /** An alive driver of a valid pool has not quit. */
  lemma AliveNotQuit(s: PoolState, d: Driver, capacity: int)
    requires Inv(s, capacity) && Known(s, d) && d.id in AliveIds(s)
    ensures !s.drivers[d.id].isQuit
  {
    if d.id in s.workingDrivers {
      assert WorkingEntry(s, d.id);
    } else {
      var k, y :| k in s.freeDrivers && y in s.freeDrivers[k] && y.id == d.id;
      assert FreeEntry(s, k, y);
    }
  }

  /** What `retire` without a cause does when it acts. */
  lemma RetireShape(s: PoolState, d: Driver, isClosed: bool, quitFailing: set<nat>)
    requires Known(s, d) && RetireActs(s, d, false, isClosed)
    ensures var s1 := RetireSpec(s, d, None, false, isClosed, quitFailing);
      && s1.drivers == s.drivers[d.id := s.drivers[d.id].(status := Retired, isQuit := d.id !in quitFailing)]
      && s1.freeDrivers == RemoveFromQueues(s.freeDrivers, d)
      && s1.workingDrivers == s.workingDrivers - {d.id}
      && s1.numRetired == s.numRetired + 1
      && s1.numQuit == s.numQuit + (if d.id in quitFailing then 0 else 1)
      && s1.numCrashed == s.numCrashed && s1.instanceCounter == s.instanceCounter
      && s1.allDrivers == s.allDrivers && s1.pageViews == s.pageViews
      && s1.lastActiveTime == s.lastActiveTime
  {
  }

  /** Retiring one more alive driver (with no cause, from inside the pool) is progress. */
  lemma RetireStepProgress(s0: PoolState, s: PoolState, d: Driver, isClosed: bool, quitFailing: set<nat>)
    requires AliveIds(s0) <= s0.drivers.Keys && ClosingProgress(s0, s, quitFailing)
    requires Known(s, d) && !s.drivers[d.id].isQuit && d.id in AliveIds(s)
    requires AliveIds(RetireSpec(s, d, None, false, isClosed, quitFailing)) == AliveIds(s) - {d.id}
    ensures ClosingProgress(s0, RetireSpec(s, d, None, false, isClosed, quitFailing), quitFailing)
  {
    RetireShape(s, d, isClosed, quitFailing);
    var s1 := RetireSpec(s, d, None, false, isClosed, quitFailing);
    var a0, a, a1 := AliveIds(s0), AliveIds(s), AliveIds(s1);
    DoneGrows(a0, a, d.id, quitFailing);
    RetireAllStatesStep(s0.drivers, a0 - a, d.id, quitFailing);
  }

  /** Taking x out of the alive set a adds it to the retired set a0 - a. */
  lemma DoneGrows(a0: set<nat>, a: set<nat>, x: nat, quitFailing: set<nat>)
    requires a <= a0 && x in a
    ensures a0 - (a - {x}) == (a0 - a) + {x} && x !in a0 - a
    ensures |a0 - (a - {x})| == |a0 - a| + 1
    ensures |(a0 - (a - {x})) - quitFailing| == |(a0 - a) - quitFailing| + (if x in quitFailing then 0 else 1)
  {
    var done := a0 - a;
    assert a0 - (a - {x}) == done + {x};
    if x in quitFailing {
      assert (done + {x}) - quitFailing == done - quitFailing;
    } else {
      assert (done + {x}) - quitFailing == (done - quitFailing) + {x};
    }
  }

  /** Retiring one more alive driver of a valid pool keeps the invariant and is progress. */
  lemma RetireStep(s0: PoolState, s: PoolState, d: Driver, isClosed: bool, quitFailing: set<nat>, capacity: int)
    requires Inv(s0, capacity) && Inv(s, capacity) && ClosingProgress(s0, s, quitFailing)
    requires Known(s, d) && d.id in AliveIds(s)
    ensures var s1 := RetireSpec(s, d, None, false, isClosed, quitFailing);
      && Inv(s1, capacity) && ClosingProgress(s0, s1, quitFailing)
      && s1.freeDrivers == RemoveFromQueues(s.freeDrivers, d)
      && s1.workingDrivers == s.workingDrivers - {d.id}
  {
    AliveNotQuit(s, d, capacity);
    AliveAreKnown(s0, capacity);
    RetireShape(s, d, isClosed, quitFailing);
    RetirePreservesInv(s, d, None, false, isClosed, quitFailing, capacity);
    RetireRemovesEverywhere(s, d, None, false, isClosed, quitFailing, capacity);
    RetireStepProgress(s0, s, d, isClosed, quitFailing);
  }

  lemma RetireAllStatesStep(drivers: map<nat, DriverState>, done: set<nat>, x: nat, quitFailing: set<nat>)
    requires x in drivers && x !in done
    ensures var m := RetireAllStates(drivers, done, quitFailing);
      m[x := m[x].(status := Retired, isQuit := x !in quitFailing)] == RetireAllStates(drivers, done + {x}, quitFailing)
  {
  }

  /** One more step of the headless sweep over the registry. */
  lemma QuitStep(s1: PoolState, swept: set<nat>, id: nat, quitFailing: set<nat>)
    requires id in s1.drivers && id !in swept
    ensures QuitAllStates(s1.drivers, swept + {id}, quitFailing)
         == if !s1.drivers[id].isQuit && id !in quitFailing
            then QuitAllStates(s1.drivers, swept, quitFailing)[id := s1.drivers[id].(isQuit := true)]
            else QuitAllStates(s1.drivers, swept, quitFailing)
    ensures |QuitSweep(s1, swept + {id}, quitFailing)|
         == |QuitSweep(s1, swept, quitFailing)| + (if !s1.drivers[id].isQuit && id !in quitFailing then 1 else 0)
  {
    if !s1.drivers[id].isQuit && id !in quitFailing {
      assert QuitSweep(s1, swept + {id}, quitFailing) == QuitSweep(s1, swept, quitFailing) + {id};
    } else {
      assert QuitSweep(s1, swept + {id}, quitFailing) == QuitSweep(s1, swept, quitFailing);
    }
  }

  /**
   * The queues part way through the first loop of closeAllUnlocked: a queue still to do is
   * untouched, one already done is empty.
   */
  ghost predicate Drained(free: map<int, seq<Driver>>, rest: map<int, seq<Driver>>)
  {
    && rest.Keys <= free.Keys
    && (forall k :: k in rest ==> free[k] == rest[k])
    && (forall k :: k in free && k !in rest ==> free[k] == [])
  }

  /** Retiring the head of the queue in hand keeps the other queues as they were. */
  lemma DrainedRetire(free: map<int, seq<Driver>>, rest: map<int, seq<Driver>>, k: int, q: seq<Driver>, i: nat)
    requires k in free && k !in rest && i < |q| && free[k] == q[i..] && q[i].priority == k
    requires Drained(free - {k}, rest)
    ensures var free1 := RemoveFromQueues(free, q[i]);
      k in free1 && free1[k] == q[i + 1..] && Drained(free1 - {k}, rest)
  {
    assert RemoveFirst(q[i..], q[i]) == q[i + 1..];
    var free1 := RemoveFromQueues(free, q[i]);
    assert free1 - {k} == free - {k};
  }

  /** Retiring the head of the queue in hand, part way through the first loop. */
  ghost predicate QueueLoop(s0: PoolState, s: PoolState, rest: map<int, seq<Driver>>, k: int, q: seq<Driver>,
                            quitFailing: set<nat>, capacity: int)
  {
    && Inv(s, capacity) && ClosingProgress(s0, s, quitFailing)
    && k in s.freeDrivers && s.freeDrivers[k] == q && k !in rest && Drained(s.freeDrivers - {k}, rest)
  }

  lemma RetireQueueHead(s0: PoolState, s: PoolState, rest: map<int, seq<Driver>>, k: int, q: seq<Driver>,
                        isClosed: bool, quitFailing: set<nat>, capacity: int)
    requires Inv(s0, capacity) && q != [] && QueueLoop(s0, s, rest, k, q, quitFailing, capacity)
    ensures Known(s, q[0])
    ensures QueueLoop(s0, RetireSpec(s, q[0], None, false, isClosed, quitFailing), rest, k, q[1..], quitFailing, capacity)
  {
    var d := q[0];
    assert d in s.freeDrivers[k];
    assert FreeEntry(s, k, d);
    assert d.id in QueuedIds(s);
    RetireStep(s0, s, d, isClosed, quitFailing, capacity);
    DrainedRetire(s.freeDrivers, rest, k, q, 0);
  }

  /** Retiring, one after another, the drivers of ds, none of them flagged from outside. */
  ghost function RetireEach(s: PoolState, ds: seq<Driver>, isClosed: bool, quitFailing: set<nat>): PoolState
    decreases |ds|
  {
    if ds == [] then s
    else if Known(s, ds[0]) then RetireEach(RetireSpec(s, ds[0], None, false, isClosed, quitFailing), ds[1..], isClosed, quitFailing)
    else RetireEach(s, ds[1..], isClosed, quitFailing)
  }

  /** Every driver of ds is one the pool knows. */
  ghost predicate KnownAll(s: PoolState, ds: seq<Driver>)
  {
    forall d :: d in ds ==> Known(s, d)
  }

  /** Retiring a driver keeps every driver known: no entry and no priority changes. */
  lemma RetireKeepsKnown(s: PoolState, d: Driver, ds: seq<Driver>, isClosed: bool, quitFailing: set<nat>)
    requires Known(s, d) && KnownAll(s, ds)
    ensures KnownAll(RetireSpec(s, d, None, false, isClosed, quitFailing), ds)
  {
  }

  /** Retiring a whole queue from the state where it is the queue in hand. */
  lemma {:induction false} QueueRetiredAll(s0: PoolState, s: PoolState, rest: map<int, seq<Driver>>, k: int, ds: seq<Driver>,
                                           isClosed: bool, quitFailing: set<nat>, capacity: int)
    requires Inv(s0, capacity) && QueueLoop(s0, s, rest, k, ds, quitFailing, capacity)
    ensures QueueLoop(s0, RetireEach(s, ds, isClosed, quitFailing), rest, k, [], quitFailing, capacity)
    decreases |ds|
  {
    if ds != [] {
      RetireQueueHead(s0, s, rest, k, ds, isClosed, quitFailing, capacity);
      QueueRetiredAll(s0, RetireSpec(s, ds[0], None, false, isClosed, quitFailing), rest, k, ds[1..], isClosed, quitFailing, capacity);
    }
  }

  /** The drivers queued in a valid pool are known. */
  lemma QueueKnown(s: PoolState, k: int, capacity: int)
    requires Inv(s, capacity) && k in s.freeDrivers
    ensures KnownAll(s, s.freeDrivers[k])
  {
    forall d | d in s.freeDrivers[k]
      ensures Known(s, d)
    {
      assert FreeEntry(s, k, d);
    }
  }

  /** Retiring every driver of the queue in hand finishes that queue. */
  lemma QueueRetired(s0: PoolState, sk: PoolState, rest: map<int, seq<Driver>>, k: int,
                     isClosed: bool, quitFailing: set<nat>, capacity: int)
    requires Inv(s0, capacity) && Inv(sk, capacity) && ClosingProgress(s0, sk, quitFailing)
    requires k in rest && Drained(sk.freeDrivers, rest)
    ensures var t := RetireEach(sk, rest[k], isClosed, quitFailing);
      Inv(t, capacity) && ClosingProgress(s0, t, quitFailing) && Drained(t.freeDrivers, rest - {k})
  {
    var q := rest[k];
    assert QueueLoop(s0, sk, rest - {k}, k, q, quitFailing, capacity);
    QueueRetiredAll(s0, sk, rest - {k}, k, q, isClosed, quitFailing, capacity);
    var t := RetireEach(sk, q, isClosed, quitFailing);
    DrainedDone(t.freeDrivers, rest, k);
  }

  lemma DrainedDone(free: map<int, seq<Driver>>, rest: map<int, seq<Driver>>, k: int)
    requires k in rest && k in free && free[k] == [] && Drained(free - {k}, rest - {k})
    ensures Drained(free, rest - {k})
  {
  }

  lemma DrainedEmpty(s: PoolState)
    requires Drained(s.freeDrivers, map[])
    ensures QueuedIds(s) == {}
  {
  }

  /**
   * The registry sweep of a headless close: take out one registered driver after another
   * and quit it unless it has quit already; quitFailing holds the drivers whose quit throws.
   * Returns the new driver fields and the new quit counter.
   */
  method SweepRegistry(s: PoolState, quitFailing: set<nat>) returns (fields: map<nat, DriverState>, quits: nat)
    requires forall id :: id in s.allDrivers ==> id in s.drivers
    ensures fields == QuitAllStates(s.drivers, s.allDrivers.Keys, quitFailing)
    ensures quits == s.numQuit + |QuitSweep(s, s.allDrivers.Keys, quitFailing)|
  {
    var registered := s.allDrivers;
    fields, quits := s.drivers, s.numQuit;
    ghost var swept: set<nat> := {};
    while |registered| != 0
      invariant registered.Keys !! swept && registered.Keys + swept == s.allDrivers.Keys
      invariant fields == QuitAllStates(s.drivers, swept, quitFailing)
      invariant quits == s.numQuit + |QuitSweep(s, swept, quitFailing)|
      decreases |registered|
    {
      NonEmptyHasKey(registered);
      var id :| id in registered;
      QuitStep(s, swept, id, quitFailing);
      RemoveKeyShrinks(registered, id);
      registered := registered - {id};
      swept := swept + {id};
      if !fields[id].isQuit {
        if id !in quitFailing {
          fields := fields[id := fields[id].(isQuit := true)];
          quits := quits + 1;
        }
      }
    }
    assert swept == s.allDrivers.Keys;
  }

  // ---------------------------------------------------------------------------------------
  // The pool
  // ---------------------------------------------------------------------------------------

  /** The default idle timeout, five minutes, in milliseconds. */
  const IdleTimeoutMillis := 5 * 60 * 1000

  /** The outcome of `run` that is not the action's own result. */
  datatype RunError = PoolExhausted | ActionFailed(driver: Driver)

  /**
   * `run`: poll a driver (none: the pool is exhausted), let the action use it, and put it back
   * whatever the action does. The action may flag the driver RETIRED, and it may fail.
   */
  ghost function RunSpec(s: PoolState, priority: int, isClosed: bool, capacity: int, attempts: seq<Creation>,
                         flagRetired: bool, actionFails: bool, recycleError: Option<Cause>,
                         quitFailing: set<nat>, now: int): (PoolState, Result<Driver, RunError>)
    requires Inv(s, capacity) && |attempts| > 0
  {
    var (s1, r) := PollSpec(s, priority, isClosed, capacity, attempts);
    match r
    case None => (s1, Err(PoolExhausted))
    case Some(d) =>
      PollPreservesInv(s, priority, isClosed, capacity, attempts);
      assert WorkingEntry(s1, d.id);
      var s2 := if flagRetired then s1.(drivers := s1.drivers[d.id := s1.drivers[d.id].(status := Retired)]) else s1;
      (PutSpec(s2, d, recycleError, isClosed, quitFailing, now), if actionFails then Err(ActionFailed(d)) else Ok(d))
  }

  /** The action flagging its working driver RETIRED keeps the invariant. */
  lemma FlagRetiredPreservesInv(s: PoolState, id: nat, capacity: int)
    requires Inv(s, capacity) && id in s.workingDrivers
    ensures Inv(s.(drivers := s.drivers[id := s.drivers[id].(status := Retired)]), capacity)
  {
    var s1 := s.(drivers := s.drivers[id := s.drivers[id].(status := Retired)]);
    assert WorkingEntry(s, id);
    forall k, d | k in s1.freeDrivers && d in s1.freeDrivers[k]
      ensures FreeEntry(s1, k, d)
    {
      assert FreeEntry(s, k, d);
    }
    forall i | i in s1.workingDrivers
      ensures WorkingEntry(s1, i)
    {
      assert WorkingEntry(s, i);
    }
  }

  /**
   * `run` keeps the invariant: polling keeps it, the action flagging its driver RETIRED keeps
   * it, and putting the driver back keeps it, whatever the action and the recycle do.
   */
  lemma RunPreservesInv(s: PoolState, priority: int, isClosed: bool, capacity: int, attempts: seq<Creation>,
                        flagRetired: bool, actionFails: bool, recycleError: Option<Cause>,
                        quitFailing: set<nat>, now: int)
    requires Inv(s, capacity) && |attempts| > 0
    ensures Inv(RunSpec(s, priority, isClosed, capacity, attempts, flagRetired, actionFails, recycleError, quitFailing, now).0, capacity)
  {
    PollPreservesInv(s, priority, isClosed, capacity, attempts);
    var (s1, r) := PollSpec(s, priority, isClosed, capacity, attempts);
    if r.Some? {
      var d := r.value;
      var s2 := if flagRetired then s1.(drivers := s1.drivers[d.id := s1.drivers[d.id].(status := Retired)]) else s1;
      if flagRetired {
        FlagRetiredPreservesInv(s1, d.id, capacity);
      }
      PutPreservesInv(s2, d, recycleError, isClosed, quitFailing, now, capacity);
    }
  }

  /**
   * The driver pool. One object holds the source's shared companion-object store (the
   * registry, the queues, the working map and the counters) together with the per-driver
   * fields it writes (`drivers`) and the pool's own configuration.
   */
  class WebDriverPool {
    var instanceCounter: nat
    var allDrivers: map<nat, Driver>
    var freeDrivers: map<int, seq<Driver>>
    var workingDrivers: map<nat, Driver>
    var drivers: map<nat, DriverState>
    var numCrashed: nat
    var numRetired: nat
    var numQuit: nat
    var pageViews: nat
    var lastActiveTime: int
    var closed: bool
    /** A snapshot of `closed` taken when the pool is built; nothing updates it afterwards. */
    const isClosed: bool
    const isHeadless: bool
    const capacity: int
    const idleTimeout: int

    function State(): PoolState
      reads this
    {
      PoolState(instanceCounter, allDrivers, freeDrivers, workingDrivers, drivers,
                numCrashed, numRetired, numQuit, pageViews, lastActiveTime)
    }

    ghost predicate Valid()
      reads this
    {
      Inv(State(), capacity)
    }

    constructor(capacity: int, isHeadless: bool, now: int)
      ensures Valid() && State() == InitialState(now)
      ensures !closed && !isClosed
      ensures this.capacity == capacity && this.isHeadless == isHeadless && idleTimeout == IdleTimeoutMillis
    {
      var initiallyClosed := false;
      instanceCounter, allDrivers, freeDrivers, workingDrivers, drivers := 0, map[], map[], map[], map[];
      numCrashed, numRetired, numQuit, pageViews := 0, 0, 0, 0;
      lastActiveTime := now;
      closed := initiallyClosed;
      isClosed := initiallyClosed;
      this.isHeadless := isHeadless;
      this.capacity := capacity;
      idleTimeout := IdleTimeoutMillis;
      new;
      assert TotalLength(map[]) == 0;
    }

    /** `workingSize`. */
    method WorkingSize() returns (n: nat)
      ensures n == |workingDrivers|
    {
      n := |workingDrivers|;
    }

    /** `freeSize`: the sum of the queue lengths. */
    method FreeSize() returns (n: nat)
      ensures n == TotalLength(freeDrivers)
    {
      n := 0;
      var rest := freeDrivers;
      while |rest| != 0
        invariant n + TotalLength(rest) == TotalLength(freeDrivers)
        decreases |rest|
      {
        NonEmptyHasKey(rest);
        var k :| k in rest;
        TotalLengthRemove(rest, k);
        n := n + |rest[k]|;
        RemoveKeyShrinks(rest, k);
        rest := rest - {k};
      }
    }

    /** `aliveSize`: working drivers plus queued ones. */
    method AliveSize() returns (n: nat)
      ensures n == AliveSizeOf(State())
    {
      var free := FreeSize();
      n := |workingDrivers| + free;
    }

    /** `isIdle`. */
    function IsIdle(now: int): bool
      reads this
    {
      IsIdleAt(State(), idleTimeout, now)
    }

    /** `allocateWebDriver`; creation says how creating the driver and setting its log level go. */
    method AllocateWebDriver(priority: int, creation: Creation) returns (r: Option<Driver>)
      modifies this
      ensures (State(), r) == AllocateSpec(old(State()), priority, isClosed, capacity, creation)
      ensures closed == old(closed)
    {
      if isClosed {
        return None;
      }
      var alive := AliveSize();
      if alive >= capacity {
        return None;
      }
      if creation == CreateFails {
        return None;
      }
      instanceCounter := instanceCounter + 1;
      var d := Driver(instanceCounter, priority);
      drivers := drivers[d.id := DriverState(priority, Unknown, 0, false)];
      allDrivers := allDrivers[d.id := d];
      if creation == LogLevelFails {
        return None;
      }
      r := Some(d);
    }

    /** `dequeue`: the head of the queue, allocating a driver into an empty queue first. */
    method Dequeue(group: int, creation: Creation) returns (r: Option<Driver>)
      modifies this
      ensures (State(), r) == DequeueSpec(old(State()), group, isClosed, capacity, creation)
      ensures closed == old(closed)
    {
      if group !in freeDrivers {
        freeDrivers := freeDrivers[group := []];
      }
      ghost var s0 := State();
      if freeDrivers[group] == [] {
        var d := AllocateWebDriver(group, creation);
        assert freeDrivers == s0.freeDrivers;
        if d.Some? {
          freeDrivers := freeDrivers[group := freeDrivers[group] + [d.value]];
        }
      }
      if freeDrivers[group] == [] {
        r := None;
      } else {
        r := Some(freeDrivers[group][0]);
        freeDrivers := freeDrivers[group := freeDrivers[group][1..]];
      }
      if s0.freeDrivers[group] == [] {
        assert freeDrivers == s0.freeDrivers;
        assert (State(), r) == AllocateSpec(s0, group, isClosed, capacity, creation);
      }
    }

    /**
     * `poll`: one dequeue attempt, then one more after each wait until the polling timeout;
     * attempts holds, per attempt, how creating a driver would go.
     */
    method Poll(priority: int, attempts: seq<Creation>) returns (r: Option<Driver>)
      requires |attempts| > 0
      modifies this
      ensures (State(), r) == PollSpec(old(State()), priority, isClosed, capacity, attempts)
      ensures old(Valid()) ==> Valid()
      ensures closed == old(closed)
    {
      if isClosed {
        return None;
      }
      ghost var s0 := State();
      r := Dequeue(priority, attempts[0]);
      var i := 1;
      while r.None? && i < |attempts|
        invariant 1 <= i <= |attempts| && closed == old(closed)
        invariant WaitSpec(s0, priority, isClosed, capacity, attempts)
               == if r.None? && i < |attempts| then WaitSpec(State(), priority, isClosed, capacity, attempts[i..]) else (State(), r)
        decreases |attempts| - i
      {
        assert attempts[i..][1..] == attempts[i + 1..];
        r := Dequeue(priority, attempts[i]);
        i := i + 1;
      }
      ghost var s1 := State();
      if r.Some? {
        var d := r.value;
        if d.id in drivers {
          drivers := drivers[d.id := drivers[d.id].(status := Working)];
          workingDrivers := workingDrivers[d.id := d];
        }
      }
      if Inv(s0, capacity) {
        PollPreservesInv(s0, priority, isClosed, capacity, attempts);
      }
    }

    /** `retire`; quitFailing holds the drivers whose quit call throws. */
    method Retire(d: Driver, cause: Option<Cause>, external: bool, quitFailing: set<nat>)
      requires Known(State(), d)
      modifies this
      ensures State() == RetireSpec(old(State()), d, cause, external, isClosed, quitFailing)
      ensures closed == old(closed)
    {
      if external && isClosed {
        return;
      }
      if drivers[d.id].isQuit {
        return;
      }
      var st := drivers[d.id].(status := Retired);
      freeDrivers := RemoveFromQueues(freeDrivers, d);
      workingDrivers := workingDrivers - {d.id};
      if cause == Some(NoSuchSession) || cause == Some(HttpHostConnect) {
        st := st.(status := Crashed);
      }
      if st.status == Retired {
        numRetired := numRetired + 1;
      } else if st.status == Crashed {
        numCrashed := numCrashed + 1;
      }
      if d.id !in quitFailing {
        st := st.(isQuit := true);
        numQuit := numQuit + 1;
      }
      drivers := drivers[d.id := st];
    }

    /** `offer`; recycleError is the failure of closing the redundant tabs, if any. */
    method Offer(d: Driver, recycleError: Option<Cause>, quitFailing: set<nat>, now: int)
      requires Known(State(), d)
      modifies this
      ensures State() == OfferSpec(old(State()), d, recycleError, isClosed, quitFailing, now)
      ensures closed == old(closed)
    {
      if isClosed {
        return;
      }
      lastActiveTime := now;
      if recycleError.Some? {
        drivers := drivers[d.id := drivers[d.id].(status := Unknown)];
        Retire(d, recycleError, true, quitFailing);
        return;
      }
      drivers := drivers[d.id := drivers[d.id].(status := Free, pageViews := drivers[d.id].pageViews + 1)];
      pageViews := pageViews + 1;
      if drivers[d.id].status == Free && d.priority in freeDrivers {
        freeDrivers := freeDrivers[d.priority := freeDrivers[d.priority] + [d]];
      }
      workingDrivers := workingDrivers - {d.id};
    }

    /** `put`: a driver flagged RETIRED is retired, any other one offered back. */
    method Put(d: Driver, recycleError: Option<Cause>, quitFailing: set<nat>, now: int)
      requires Known(State(), d)
      modifies this
      ensures State() == PutSpec(old(State()), d, recycleError, isClosed, quitFailing, now)
      ensures old(Valid() && d.id in workingDrivers && workingDrivers[d.id] == d) ==> Valid()
      ensures closed == old(closed)
    {
      ghost var s0 := State();
      if drivers[d.id].status == Retired {
        Retire(d, None, true, quitFailing);
      } else {
        Offer(d, recycleError, quitFailing, now);
      }
      if Inv(s0, capacity) && d.id in s0.workingDrivers && s0.workingDrivers[d.id] == d {
        PutPreservesInv(s0, d, recycleError, isClosed, quitFailing, now, capacity);
      }
    }

    /**
     * `run`: the driver handed out is always put back, whether the action succeeds or
     * fails; flagRetired and actionFails stand for what the action does.
     */
    method Run(priority: int, attempts: seq<Creation>, flagRetired: bool, actionFails: bool,
               recycleError: Option<Cause>, quitFailing: set<nat>, now: int) returns (r: Result<Driver, RunError>)
      requires Valid() && |attempts| > 0
      modifies this
      ensures (State(), r) == RunSpec(old(State()), priority, isClosed, capacity, attempts, flagRetired, actionFails, recycleError, quitFailing, now)
      ensures Valid() && closed == old(closed)
    {
      ghost var s0 := State();
      RunPreservesInv(s0, priority, isClosed, capacity, attempts, flagRetired, actionFails, recycleError, quitFailing, now);
      var polled := Poll(priority, attempts);
      if polled.None? {
        return Err(PoolExhausted);
      }
      var d := polled.value;
      PollPreservesInv(s0, priority, isClosed, capacity, attempts);
      assert WorkingEntry(State(), d.id);
      if flagRetired {
        drivers := drivers[d.id := drivers[d.id].(status := Retired)];
      }
      Put(d, recycleError, quitFailing, now);
      r := if actionFails then Err(ActionFailed(d)) else Ok(d);
    }
  
    /**
     * `closeAllUnlocked`: retire every queued driver, queue by queue, then every working
     * one, and in headless mode unregister and quit every registered driver.
     */
    method CloseAllUnlocked(retireFailing: set<nat>, sweepFailing: set<nat>)
      requires Valid()
      modifies this
      ensures Valid() && closed == old(closed)
      ensures State() == CloseAllUnlockedSpec(old(State()), isHeadless, retireFailing, sweepFailing)
    {
      if allDrivers == map[] {
        return;
      }
      ghost var s0 := State();
      RetireQueuedDrivers(s0, retireFailing);
      RetireWorkingDrivers(s0, retireFailing);
      if !isHeadless {
        return;
      }
      ghost var s1 := State();
      QuitRegisteredDrivers(sweepFailing);
      QuitRegisteredInv(s1, sweepFailing, capacity);
    }

    /**
     * The first loop of `closeAllUnlocked`: every queued driver is retired, queue by queue
     * (the order in which the queues are flattened), then the queues are cleared.
     */
    method RetireQueuedDrivers(ghost s0: PoolState, quitFailing: set<nat>)
      requires Inv(s0, capacity) && Valid() && ClosingProgress(s0, State(), quitFailing)
      modifies this
      ensures Valid() && ClosingProgress(s0, State(), quitFailing) && closed == old(closed)
      ensures freeDrivers == map[]
    {
      var rest := freeDrivers;
      while |rest| != 0
        invariant Valid() && ClosingProgress(s0, State(), quitFailing) && closed == old(closed)
        invariant Drained(freeDrivers, rest)
        decreases |rest|
      {
        NonEmptyHasKey(rest);
        var k :| k in rest;
        ghost var s := State();
        QueueKnown(s, k, capacity);
        RetireQueue(rest[k], quitFailing);
        QueueRetired(s0, s, rest, k, isClosed, quitFailing, capacity);
        RemoveKeyShrinks(rest, k);
        rest := rest - {k};
      }
      ghost var s := State();
      DrainedEmpty(s);
      DropQueues(s, capacity);
      DropQueuesProgress(s0, s, quitFailing);
      ClearQueues();
    }

    /** `freeDrivers.clear()`. */
    method ClearQueues()
      modifies this
      ensures State() == old(State()).(freeDrivers := map[]) && closed == old(closed)
    {
      freeDrivers := map[];
    }

    /** Retire, front to back, every driver of the queue q. */
    method RetireQueue(q: seq<Driver>, quitFailing: set<nat>)
      requires KnownAll(State(), q)
      modifies this
      ensures State() == RetireEach(old(State()), q, isClosed, quitFailing) && closed == old(closed)
    {
      ghost var sk := State();
      var i := 0;
      while i < |q|
        invariant i <= |q| && closed == old(closed)
        invariant KnownAll(State(), q[i..])
        invariant RetireEach(State(), q[i..], isClosed, quitFailing) == RetireEach(sk, q, isClosed, quitFailing)
      {
        assert q[i..][0] == q[i] && q[i..][1..] == q[i + 1..];
        RetireKeepsKnown(State(), q[i], q[i + 1..], isClosed, quitFailing);
        Retire(q[i], None, false, quitFailing);
        i := i + 1;
      }
      assert q[i..] == [];
    }

    /**
     * The second loop of `closeAllUnlocked`: every working driver is retired, then the
     * working map is cleared.
     */
    method RetireWorkingDrivers(ghost s0: PoolState, quitFailing: set<nat>)
      requires Inv(s0, capacity) && Valid() && ClosingProgress(s0, State(), quitFailing) && freeDrivers == map[]
      modifies this
      ensures Valid() && State() == RetireAlive(s0, quitFailing) && closed == old(closed)
    {
      var working := workingDrivers;
      while |working| != 0
        invariant Valid() && ClosingProgress(s0, State(), quitFailing) && closed == old(closed)
        invariant freeDrivers == map[] && workingDrivers == working
        decreases |working|
      {
        NonEmptyHasKey(working);
        var id :| id in working;
        var d := working[id];
        assert WorkingEntry(State(), id);
        RetireStep(s0, State(), d, isClosed, quitFailing, capacity);
        Retire(d, None, false, quitFailing);
        RemoveKeyShrinks(working, id);
        working := working - {id};
      }
      ClearWorking(s0, quitFailing);
    }

    /** `workingDrivers.clear()`, once every alive driver has been retired. */
    method ClearWorking(ghost s0: PoolState, quitFailing: set<nat>)
      requires Inv(s0, capacity) && ClosingProgress(s0, State(), quitFailing)
      requires freeDrivers == map[] && workingDrivers == map[]
      modifies this
      ensures Valid() && State() == RetireAlive(s0, quitFailing) && closed == old(closed)
    {
      workingDrivers := map[];
      ClosingDone(s0, State(), quitFailing);
      RetireAliveInv(s0, quitFailing, capacity);
    }

    /** The last loop of `closeAllUnlocked` in headless mode: unregister and quit every driver. */
    method QuitRegisteredDrivers(quitFailing: set<nat>)
      requires forall id :: id in allDrivers ==> id in drivers
      modifies this
      ensures closed == old(closed)
      ensures State() == QuitRegistered(old(State()), quitFailing)
    {
      var fields, quits := SweepRegistry(State(), quitFailing);
      allDrivers, drivers, numQuit := map[], fields, quits;
    }

    /**
     * `closeAll`: the drain wait, cookie deletion and proxy change are left out; what is left
     * is `closeAllUnlocked`.
     */
    method CloseAll(retireFailing: set<nat>, sweepFailing: set<nat>)
      requires Valid()
      modifies this
      ensures Valid() && closed == old(closed)
      ensures State() == CloseAllUnlockedSpec(old(State()), isHeadless, retireFailing, sweepFailing)
    {
      CloseAllUnlocked(retireFailing, sweepFailing);
    }

    /** `close`: only the first call closes the drivers; isClosed is not updated. */
    method Close(retireFailing: set<nat>, sweepFailing: set<nat>)
      requires Valid()
      modifies this
      ensures Valid() && closed
      ensures State() == if old(closed) then old(State()) else CloseAllUnlockedSpec(old(State()), isHeadless, retireFailing, sweepFailing)
    {
      if !closed {
        closed := true;
        CloseAll(retireFailing, sweepFailing);
      }
    }
  }
}
