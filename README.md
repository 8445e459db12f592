# Browser-driver resource management of pulsarMS, modelled in Dafny

This project models the sequential bookkeeping behind the browser-driver resource manager
of pulsarMS. Locks, coroutines and browser processes are stripped away. What is left is a
set of small state machines over maps, FIFO queues and counters, and the project proves
their rules. There is one module per source file:

- `DriverPool` models `WebDriverPool`. It has per-priority FIFO queues of free drivers, a
  map of working drivers, a status per driver and the retired, crashed, quit and page-view
  counters. It is a capacity-bounded allocator, with `poll`, `dequeue`, `allocateWebDriver`,
  `put`, `offer`, `retire`, `closeAllUnlocked`, `closeAll`, `close`, `run`, the size getters
  and `isIdle`.
- `PoolManager` models `WebDriverPoolManager`. It has a registry of driver pools by browser
  id with create-if-absent, and a set of retired ids that refuses admission. It also covers
  the launch hooks of a pool's first task, the per-pool counters of `run0`, the put-back in
  `finally`, `cancel`, `doCloseDriverPool` and the one-shot `close`.
- `ContextDirs` models `BrowserFiles`. It covers the guarded deletion of temporary
  user-data directories with its ledger of cleaned directories, the sweep that feeds it,
  the capped sequential allocator with the round-robin reuse of a `ContextGroup`, the
  context count, and the random context-directory name.
- `Privacy` models `PrivacyContextManager`. It has one lazily created active privacy
  context, reset into a zombie queue, and the bounded do-while retry loop of `run0` with
  its result classifier.
- `Browsers` models `BrowserManager`. Browsers are launched at most once per user-data
  directory. They are closed one at a time, with a record of the closed ids, or all
  together, once.
- `DriverFactory` models `WebDriverFactory`. It has the closed dispatch on browser type,
  the proxy capability and the launch counter.
- `Paths` gives the JVM `Path` operations the code relies on: `Paths.get`, `resolve`,
  `getParent`, `resolveSibling`, `startsWith`, `toString` and `fileName`. `Text` gives
  decimal and two-digit formatting, and `String.contains`. `Wrappers` holds `Option` and
  `Result`.

Every stateful source object is a `class` whose fields are the object's fields. Each
method is proved to change those fields as a specification function on a snapshot value
says (`State() == RetireSpec(old(State()), ...)`). Lemmas then prove what the source
promises about those functions: invariants kept, bounds, idempotence, FIFO order and the
error cases. Calls into code outside the core are parameters, among them a quit that
throws, a browser launch that fails, what a task returns, the clock, and the walk order of
the file system. Exceptions are `Result` errors; the task run inside a privacy context may
also throw, and `Outcome.Threw` stands for an exception that `run0` does not catch.

## Model

| member | source | states |
|---|---|---|
| DriverPool.AllocatePreservesInv | pulsar-skeleton/src/main/kotlin/ai/platon/pulsar/net/browser/WebDriverPool.kt:370-398 | a driver is registered iff the pool is not closed, alive < capacity and creation succeeds, and then under a fresh id from the counter; it is handed out iff setting its log level succeeds as well, and otherwise stays registered but not alive; nothing changes when it is not registered; the pool invariant (no driver both free and working, none queued twice, alive ≤ capacity) is kept |
| DriverPool.DequeueHead | pulsar-skeleton/src/main/kotlin/ai/platon/pulsar/net/browser/WebDriverPool.kt:310-322 | taking the head of a queue detaches exactly that driver and shortens the free total by one |
| DriverPool.DequeuePreservesInv | pulsar-skeleton/src/main/kotlin/ai/platon/pulsar/net/browser/WebDriverPool.kt:310-322 | `dequeue` keeps the invariant and hands out a detached driver of the requested priority while alive stays below capacity |
| DriverPool.EmptyQueuePreservesInv | pulsar-skeleton/src/main/kotlin/ai/platon/pulsar/net/browser/WebDriverPool.kt:311 | creating the missing queue of a priority keeps the invariant |
| DriverPool.ServePreservesInv | pulsar-skeleton/src/main/kotlin/ai/platon/pulsar/net/browser/WebDriverPool.kt:174-177 | marking a detached driver WORKING and entering it in the working map keeps the invariant |
| DriverPool.WaitPreservesInv | pulsar-skeleton/src/main/kotlin/ai/platon/pulsar/net/browser/WebDriverPool.kt:167-172 | the repeated dequeue attempts of `poll` keep the invariant, whatever their number |
| DriverPool.PollPreservesInv | pulsar-skeleton/src/main/kotlin/ai/platon/pulsar/net/browser/WebDriverPool.kt:155-195 | `poll` keeps the invariant; a driver it returns has the requested priority, is WORKING, and sits in the working map under its own id |
| DriverPool.PollSuccessNotIdle | pulsar-skeleton/src/main/kotlin/ai/platon/pulsar/net/browser/WebDriverPool.kt:85 | after a successful `poll` the pool is not idle |
| DriverPool.RetireQueues | pulsar-skeleton/src/main/kotlin/ai/platon/pulsar/net/browser/WebDriverPool.kt:266-269 | when `retire` acts, the queued ids lose exactly the driver's id and the queue invariant holds |
| DriverPool.RetireWorking | pulsar-skeleton/src/main/kotlin/ai/platon/pulsar/net/browser/WebDriverPool.kt:270 | when `retire` acts, the working map loses exactly the driver's id |
| DriverPool.RetirePreservesInv | pulsar-skeleton/src/main/kotlin/ai/platon/pulsar/net/browser/WebDriverPool.kt:250-305 | `retire` keeps the invariant; on a driver that already quit it changes nothing |
| DriverPool.RetireCounts | pulsar-skeleton/src/main/kotlin/ai/platon/pulsar/net/browser/WebDriverPool.kt:277-296 | when `retire` acts, retired + crashed grows by exactly one, crashed iff the cause is NoSuchSession or HttpHostConnect, and quit grows iff the quit call succeeds |
| DriverPool.RetireRemovesEverywhere | pulsar-skeleton/src/main/kotlin/ai/platon/pulsar/net/browser/WebDriverPool.kt:266-286 | when `retire` acts, the alive ids are the old ones minus the driver |
| DriverPool.OfferFailureRetires | pulsar-skeleton/src/main/kotlin/ai/platon/pulsar/net/browser/WebDriverPool.kt:205-225 | a failed recycle in `offer` is exactly a `retire` for that failure, with the last active time stamped first |
| DriverPool.OfferPreservesInv | pulsar-skeleton/src/main/kotlin/ai/platon/pulsar/net/browser/WebDriverPool.kt:226-243 | a successful `offer` of a working driver keeps the invariant |
| DriverPool.PutPreservesInv | pulsar-skeleton/src/main/kotlin/ai/platon/pulsar/net/browser/WebDriverPool.kt:197-203 | `put` of a working driver keeps the invariant, on both the retire and the offer branch |
| DriverPool.FlagRetiredPreservesInv | pulsar-skeleton/src/main/kotlin/ai/platon/pulsar/net/browser/WebDriverPool.kt:110-120 | an action flagging its working driver RETIRED keeps the pool invariant |
| DriverPool.RunPreservesInv | pulsar-skeleton/src/main/kotlin/ai/platon/pulsar/net/browser/WebDriverPool.kt:110-120 | `run` keeps the pool invariant, whatever the poll, the action and the recycle do |
| DriverPool.OfferThenPollFifo | pulsar-skeleton/src/main/kotlin/ai/platon/pulsar/net/browser/WebDriverPool.kt:229-231 | `offer` appends the driver at the tail of its existing queue, and the next `poll` of that priority takes the queue's old head without allocating |
| DriverPool.AliveAreKnown | pulsar-skeleton/src/main/kotlin/ai/platon/pulsar/net/browser/WebDriverPool.kt:59-62 | every queued or working driver is in the per-driver registry |
| DriverPool.RetireAliveInv | pulsar-skeleton/src/main/kotlin/ai/platon/pulsar/net/browser/WebDriverPool.kt:519-523 | retiring every queued and working driver keeps the invariant, empties both, and leaves each of them RETIRED |
| DriverPool.QuitRegisteredInv | pulsar-skeleton/src/main/kotlin/ai/platon/pulsar/net/browser/WebDriverPool.kt:530-549 | the headless sweep unregisters every driver, keeps every status, and leaves every driver whose quit succeeds quit |
| DriverPool.CloseAllUnlockedEmpties | pulsar-skeleton/src/main/kotlin/ai/platon/pulsar/net/browser/WebDriverPool.kt:508-550 | with a non-empty registry, `closeAllUnlocked` empties every queue and the working map, leaves each alive driver RETIRED, and in headless mode unregisters the drivers and quits every one whose quit in the sweep does not throw |
| DriverPool.CloseAllUnlockedEmptyRegistry | pulsar-skeleton/src/main/kotlin/ai/platon/pulsar/net/browser/WebDriverPool.kt:509-515 | with an empty registry `closeAllUnlocked` changes nothing |
| DriverPool.IdleAfterCloseAll | pulsar-skeleton/src/main/kotlin/ai/platon/pulsar/net/browser/WebDriverPool.kt:85 | after `closeAllUnlocked` the pool is idle iff the idle time exceeds the timeout |
| DriverPool.SweepRegistry | pulsar-skeleton/src/main/kotlin/ai/platon/pulsar/net/browser/WebDriverPool.kt:530-549 | the sweep loop's per-driver fields and quit counter equal those of quitting every registered driver, except the ones whose quit throws |
| DriverPool.WebDriverPool.constructor | pulsar-skeleton/src/main/kotlin/ai/platon/pulsar/net/browser/WebDriverPool.kt:56-83 | a fresh store: no drivers, zero counters, not closed, the five-minute idle timeout |
| DriverPool.WebDriverPool.WorkingSize | pulsar-skeleton/src/main/kotlin/ai/platon/pulsar/net/browser/WebDriverPool.kt:94-97 | the number of working drivers |
| DriverPool.WebDriverPool.FreeSize | pulsar-skeleton/src/main/kotlin/ai/platon/pulsar/net/browser/WebDriverPool.kt:98-101 | the sum of the queue lengths |
| DriverPool.WebDriverPool.AliveSize | pulsar-skeleton/src/main/kotlin/ai/platon/pulsar/net/browser/WebDriverPool.kt:102-105 | working plus queued drivers |
| DriverPool.WebDriverPool.AllocateWebDriver | pulsar-skeleton/src/main/kotlin/ai/platon/pulsar/net/browser/WebDriverPool.kt:370-398 | the new state and result are those of `AllocateSpec`, and `closed` is kept |
| DriverPool.WebDriverPool.Dequeue | pulsar-skeleton/src/main/kotlin/ai/platon/pulsar/net/browser/WebDriverPool.kt:310-322 | the new state and result are those of `DequeueSpec`, and `closed` is kept |
| DriverPool.WebDriverPool.Poll | pulsar-skeleton/src/main/kotlin/ai/platon/pulsar/net/browser/WebDriverPool.kt:155-195 | the new state and result are those of `PollSpec`, a valid pool stays valid, and `closed` is kept |
| DriverPool.WebDriverPool.Retire | pulsar-skeleton/src/main/kotlin/ai/platon/pulsar/net/browser/WebDriverPool.kt:250-305 | the new state is `RetireSpec` of the old one |
| DriverPool.WebDriverPool.Offer | pulsar-skeleton/src/main/kotlin/ai/platon/pulsar/net/browser/WebDriverPool.kt:205-244 | the new state is `OfferSpec` of the old one, and `closed` is kept |
| DriverPool.WebDriverPool.Put | pulsar-skeleton/src/main/kotlin/ai/platon/pulsar/net/browser/WebDriverPool.kt:197-203 | the new state is `PutSpec` of the old one, a valid pool stays valid, and `closed` is kept |
| DriverPool.WebDriverPool.Run | pulsar-skeleton/src/main/kotlin/ai/platon/pulsar/net/browser/WebDriverPool.kt:110-120 | on a valid pool: poll, run the action, and put the driver back even when the action throws; an exhausted pool gives an error; the pool stays valid and `closed` is kept |
| DriverPool.WebDriverPool.CloseAllUnlocked | pulsar-skeleton/src/main/kotlin/ai/platon/pulsar/net/browser/WebDriverPool.kt:508-550 | the new state is `CloseAllUnlockedSpec` of the old one, with the quit failures of the retirements and of the headless sweep given apart, and the pool stays valid |
| DriverPool.WebDriverPool.RetireQueuedDrivers | pulsar-skeleton/src/main/kotlin/ai/platon/pulsar/net/browser/WebDriverPool.kt:519-521 | every queued driver is retired and the queues are cleared |
| DriverPool.WebDriverPool.ClearQueues | pulsar-skeleton/src/main/kotlin/ai/platon/pulsar/net/browser/WebDriverPool.kt:521 | the queue map becomes empty and nothing else changes |
| DriverPool.WebDriverPool.RetireQueue | pulsar-skeleton/src/main/kotlin/ai/platon/pulsar/net/browser/WebDriverPool.kt:519 | the drivers of one queue are retired front to back |
| DriverPool.WebDriverPool.RetireWorkingDrivers | pulsar-skeleton/src/main/kotlin/ai/platon/pulsar/net/browser/WebDriverPool.kt:523-524 | every working driver is retired and the working map is cleared |
| DriverPool.WebDriverPool.ClearWorking | pulsar-skeleton/src/main/kotlin/ai/platon/pulsar/net/browser/WebDriverPool.kt:524 | the working map becomes empty once every alive driver is retired |
| DriverPool.WebDriverPool.QuitRegisteredDrivers | pulsar-skeleton/src/main/kotlin/ai/platon/pulsar/net/browser/WebDriverPool.kt:530-549 | each registered driver is unregistered and quit unless it had quit or its quit throws |
| DriverPool.WebDriverPool.CloseAll | pulsar-skeleton/src/main/kotlin/ai/platon/pulsar/net/browser/WebDriverPool.kt:324-346 | the state after `closeAll` is `CloseAllUnlockedSpec` of the old one |
| DriverPool.WebDriverPool.Close | pulsar-skeleton/src/main/kotlin/ai/platon/pulsar/net/browser/WebDriverPool.kt:348-352 | only the first call closes the drivers; `closed` is then set |
| PoolManager.InitialInv | pulsar-plugins/pulsar-protocol/src/main/kotlin/ai/platon/pulsar/protocol/browser/driver/WebDriverPoolManager.kt:54-64 | a new manager satisfies the invariant |
| PoolManager.LaunchHooksAtMostOnce | pulsar-plugins/pulsar-protocol/src/main/kotlin/ai/platon/pulsar/protocol/browser/driver/WebDriverPoolManager.kt:256-263 | in a valid state, the before-launch hook has run at most once per browser id |
| PoolManager.ComputeIfAbsentKeepsOne | pulsar-plugins/pulsar-protocol/src/main/kotlin/ai/platon/pulsar/protocol/browser/driver/WebDriverPoolManager.kt:296-299 | create-if-absent adds exactly that id, keeps every existing pool, and a second call does not replace the pool |
| PoolManager.Run0Inactive | pulsar-plugins/pulsar-protocol/src/main/kotlin/ai/platon/pulsar/protocol/browser/driver/WebDriverPoolManager.kt:210-212 | an inactive manager returns null and changes nothing |
| PoolManager.Run0Retired | pulsar-plugins/pulsar-protocol/src/main/kotlin/ai/platon/pulsar/protocol/browser/driver/WebDriverPoolManager.kt:214-216 | a retired id makes `run0` throw without touching any pool |
| PoolManager.Run0PutsBack | pulsar-plugins/pulsar-protocol/src/main/kotlin/ai/platon/pulsar/protocol/browser/driver/WebDriverPoolManager.kt:248-250 | a polled driver is put back to its pool exactly once, whatever the outcome |
| PoolManager.Run0Hooks | pulsar-plugins/pulsar-protocol/src/main/kotlin/ai/platon/pulsar/protocol/browser/driver/WebDriverPoolManager.kt:256-294 | the before-launch hook runs only for the task that takes the pool's `numTasks` from 0 to 1, and the after-launch hook only when that task also got a driver |
| PoolManager.Run0Counters | pulsar-plugins/pulsar-protocol/src/main/kotlin/ai/platon/pulsar/protocol/browser/driver/WebDriverPoolManager.kt:236-247 | a null result adds one to the timeouts and the dismiss warnings; a value adds one success and takes one warning away; an exception touches no counter and propagates |
| PoolManager.PollPreservesInv | pulsar-plugins/pulsar-protocol/src/main/kotlin/ai/platon/pulsar/protocol/browser/driver/WebDriverPoolManager.kt:256-275 | polling through the launch CAS keeps the registry invariant |
| PoolManager.Run0PreservesInv | pulsar-plugins/pulsar-protocol/src/main/kotlin/ai/platon/pulsar/protocol/browser/driver/WebDriverPoolManager.kt:206-254 | `run0` keeps the manager's invariant |
| PoolManager.RunNotIdle | pulsar-plugins/pulsar-protocol/src/main/kotlin/ai/platon/pulsar/protocol/browser/driver/WebDriverPoolManager.kt:117-120 | right after `run` the manager is not idle |
| PoolManager.FirstWithUrl | pulsar-plugins/pulsar-protocol/src/main/kotlin/ai/platon/pulsar/protocol/browser/driver/WebDriverPoolManager.kt:155 | finds the first driver whose page url matches, or reports that none does |
| PoolManager.CancelFirstMatch | pulsar-plugins/pulsar-protocol/src/main/kotlin/ai/platon/pulsar/protocol/browser/driver/WebDriverPoolManager.kt:153-156 | `cancel` cancels the first driver of the pool with that url, and finds one iff the pool exists and some driver has the url |
| PoolManager.OldestExists | pulsar-plugins/pulsar-protocol/src/main/kotlin/ai/platon/pulsar/protocol/browser/driver/WebDriverPoolManager.kt:308-309 | a non-empty set of retired pools has an oldest member by last active time |
| PoolManager.OldestRetired | pulsar-plugins/pulsar-protocol/src/main/kotlin/ai/platon/pulsar/protocol/browser/driver/WebDriverPoolManager.kt:308-309 | none iff no pool is retired; otherwise a retired pool no younger than any other |
| PoolManager.PickToClose | pulsar-plugins/pulsar-protocol/src/main/kotlin/ai/platon/pulsar/protocol/browser/driver/WebDriverPoolManager.kt:305-312 | the pool picked for closing is a registered one |
| PoolManager.DoCloseRetires | pulsar-plugins/pulsar-protocol/src/main/kotlin/ai/platon/pulsar/protocol/browser/driver/WebDriverPoolManager.kt:301-326 | `doCloseDriverPool` always adds the id to the retired set and closes the browser instance |
| PoolManager.DoCloseKeepsClosed | pulsar-plugins/pulsar-protocol/src/main/kotlin/ai/platon/pulsar/protocol/browser/driver/WebDriverPoolManager.kt:301-326 | a pool already closed stays recorded as closed |
| PoolManager.DoCloseNonGui | pulsar-plugins/pulsar-protocol/src/main/kotlin/ai/platon/pulsar/protocol/browser/driver/WebDriverPoolManager.kt:307 | outside GUI mode the pool is removed from the registry, and closed when it was there |
| PoolManager.DoCloseGui | pulsar-plugins/pulsar-protocol/src/main/kotlin/ai/platon/pulsar/protocol/browser/driver/WebDriverPoolManager.kt:308-311 | in GUI mode the registry keeps its ids, and with at most ten pools nothing is closed |
| PoolManager.DoCloseGuiPicksOldest | pulsar-plugins/pulsar-protocol/src/main/kotlin/ai/platon/pulsar/protocol/browser/driver/WebDriverPoolManager.kt:308-320 | in GUI mode with more than ten pools and some retired, the oldest retired pool is marked retired and closed |
| PoolManager.DoClosePreservesInv | pulsar-plugins/pulsar-protocol/src/main/kotlin/ai/platon/pulsar/protocol/browser/driver/WebDriverPoolManager.kt:301-326 | `doCloseDriverPool` keeps the registry invariant |
| PoolManager.CloseEachFacts | pulsar-plugins/pulsar-protocol/src/main/kotlin/ai/platon/pulsar/protocol/browser/driver/WebDriverPoolManager.kt:190 | closing each registered id retires every one of them and calls nothing else |
| PoolManager.CloseEachClosesPools | pulsar-plugins/pulsar-protocol/src/main/kotlin/ai/platon/pulsar/protocol/browser/driver/WebDriverPoolManager.kt:190 | outside GUI mode, closing each id closes each registered pool |
| PoolManager.CloseEachInv | pulsar-plugins/pulsar-protocol/src/main/kotlin/ai/platon/pulsar/protocol/browser/driver/WebDriverPoolManager.kt:190 | closing each id keeps the registry invariant |
| PoolManager.CloseEmpties | pulsar-plugins/pulsar-protocol/src/main/kotlin/ai/platon/pulsar/protocol/browser/driver/WebDriverPoolManager.kt:188-201 | after `close` the manager is closed; a first call leaves no pool and the factory closed, and a later call changes nothing |
| PoolManager.CloseIdempotent | pulsar-plugins/pulsar-protocol/src/main/kotlin/ai/platon/pulsar/protocol/browser/driver/WebDriverPoolManager.kt:189 | a second `close` changes nothing |
| PoolManager.CloseRetiresAll | pulsar-plugins/pulsar-protocol/src/main/kotlin/ai/platon/pulsar/protocol/browser/driver/WebDriverPoolManager.kt:188-201 | `close` retires every registered id, and outside GUI mode closes every registered pool |
| PoolManager.ClosePreservesInv | pulsar-plugins/pulsar-protocol/src/main/kotlin/ai/platon/pulsar/protocol/browser/driver/WebDriverPoolManager.kt:188-201 | `close` keeps the manager's invariant |
| PoolManager.WebDriverPoolManager.constructor | pulsar-plugins/pulsar-protocol/src/main/kotlin/ai/platon/pulsar/protocol/browser/driver/WebDriverPoolManager.kt:54-64 | a new manager: open and empty |
| PoolManager.WebDriverPoolManager.ComputeDriverPoolIfAbsent | pulsar-plugins/pulsar-protocol/src/main/kotlin/ai/platon/pulsar/protocol/browser/driver/WebDriverPoolManager.kt:296-299 | the registry after the call, and the pool returned is the one stored under the id |
| PoolManager.WebDriverPoolManager.Poll | pulsar-plugins/pulsar-protocol/src/main/kotlin/ai/platon/pulsar/protocol/browser/driver/WebDriverPoolManager.kt:256-270 | the new state is `PollSpec` of the old one, and the driver is the polled one |
| PoolManager.WebDriverPoolManager.Run0 | pulsar-plugins/pulsar-protocol/src/main/kotlin/ai/platon/pulsar/protocol/browser/driver/WebDriverPoolManager.kt:206-254 | the new state and result are those of `Run0Spec`, and a valid manager stays valid |
| PoolManager.WebDriverPoolManager.RecordOutcome | pulsar-plugins/pulsar-protocol/src/main/kotlin/ai/platon/pulsar/protocol/browser/driver/WebDriverPoolManager.kt:236-250 | the counters move as the outcome says, and the driver is put back |
| PoolManager.WebDriverPoolManager.Run | pulsar-plugins/pulsar-protocol/src/main/kotlin/ai/platon/pulsar/protocol/browser/driver/WebDriverPoolManager.kt:117-120 | `run0` stamped with the activity time before and after |
| PoolManager.WebDriverPoolManager.IsIdle | pulsar-plugins/pulsar-protocol/src/main/kotlin/ai/platon/pulsar/protocol/browser/driver/WebDriverPoolManager.kt:64-66 | idle iff the time since the last activity exceeds 18 minutes |
| PoolManager.WebDriverPoolManager.Cancel | pulsar-plugins/pulsar-protocol/src/main/kotlin/ai/platon/pulsar/protocol/browser/driver/WebDriverPoolManager.kt:153-156 | the new state and result are those of `CancelSpec` |
| PoolManager.WebDriverPoolManager.DoCloseDriverPool | pulsar-plugins/pulsar-protocol/src/main/kotlin/ai/platon/pulsar/protocol/browser/driver/WebDriverPoolManager.kt:301-326 | the new state is `DoCloseSpec` of the old one |
| PoolManager.WebDriverPoolManager.Close | pulsar-plugins/pulsar-protocol/src/main/kotlin/ai/platon/pulsar/protocol/browser/driver/WebDriverPoolManager.kt:188-201 | the new state is `CloseSpec` of the old one, and a valid manager stays valid |
| ContextDirs.CreateDirectoriesFacts | pulsar-common/src/main/kotlin/ai/platon/pulsar/common/browser/BrowserFiles.kt:165 | `createDirectories` fails iff a prefix of the path is a file; on success every prefix is a directory, every entry is kept, and only prefixes are added |
| ContextDirs.SelfAncestor | pulsar-common/src/main/kotlin/ai/platon/pulsar/common/browser/BrowserFiles.kt:165 | a path with names is among the directories `createDirectories` makes |
| ContextDirs.CreateDirectoriesIdempotent | pulsar-common/src/main/kotlin/ai/platon/pulsar/common/browser/BrowserFiles.kt:181-186 | a second `createDirectories` of the same path changes nothing |
| ContextDirs.DeleteQuietly | pulsar-common/src/main/kotlin/ai/platon/pulsar/common/browser/BrowserFiles.kt:135 | the deletion keeps no entry it did not have, removes only entries under the directory, and keeps every entry it fails to remove |
| ContextDirs.DeleteQuietlyKeepsAncestors | pulsar-common/src/main/kotlin/ai/platon/pulsar/common/browser/BrowserFiles.kt:135 | every existing directory between a surviving entry and the deleted directory survives, and the directory itself is gone iff nothing under it fails to be removed |
| ContextDirs.DeleteGuards | pulsar-common/src/main/kotlin/ai/platon/pulsar/common/browser/BrowserFiles.kt:111-133 | nothing is deleted or recorded for a directory already cleaned, outside the tmp dir, not expired, or without a sibling pid file |
| ContextDirs.DeleteLedger | pulsar-common/src/main/kotlin/ai/platon/pulsar/common/browser/BrowserFiles.kt:135-141 | the ledger gains the directory iff every guard passed and the directory is gone afterwards; reading the time of a missing directory throws and changes nothing |
| ContextDirs.DeleteStaysInTmp | pulsar-common/src/main/kotlin/ai/platon/pulsar/common/browser/BrowserFiles.kt:116-121 | only entries under the directory, itself under the tmp dir, are ever removed |
| ContextDirs.DeleteIdempotent | pulsar-common/src/main/kotlin/ai/platon/pulsar/common/browser/BrowserFiles.kt:111-114 | once recorded, any later call on the same directory is a no-op |
| ContextDirs.SweepSafe | pulsar-common/src/main/kotlin/ai/platon/pulsar/common/browser/BrowserFiles.kt:80-88 | the sweep never throws once the walk began, removes only entries under the tmp dir, and records only walked directories that are gone |
| ContextDirs.SweepSkips | pulsar-common/src/main/kotlin/ai/platon/pulsar/common/browser/BrowserFiles.kt:84-85 | a walked path that is not a candidate (cleaned, not a directory, or without a sibling pid file) is skipped |
| ContextDirs.Add | pulsar-common/src/main/kotlin/ai/platon/pulsar/common/browser/BrowserFiles.kt:41-43 | the group's paths become the old ones plus the new one, each held once |
| ContextDirs.Next | pulsar-common/src/main/kotlin/ai/platon/pulsar/common/browser/BrowserFiles.kt:25-31 | `next` yields a path iff `hasNext`, that is iff the group is not empty; the paths stay the same |
| ContextDirs.NextCycles | pulsar-common/src/main/kotlin/ai/platon/pulsar/common/browser/BrowserFiles.kt:23-31 | over one round the (i+1)-th `next` returns the path i places after the cursor, wrapping past the end |
| ContextDirs.NextVisitsAll | pulsar-common/src/main/kotlin/ai/platon/pulsar/common/browser/BrowserFiles.kt:23-31 | from a fresh iterator, n calls return the n paths in order and the next call starts over |
| ContextDirs.ContextCount | pulsar-common/src/main/kotlin/ai/platon/pulsar/common/browser/BrowserFiles.kt:190-195 | the count is never below 1 |
| ContextDirs.ContextCountAdd | pulsar-common/src/main/kotlin/ai/platon/pulsar/common/browser/BrowserFiles.kt:190-195 | a new subdirectory raises the count by one iff its path string contains the prefix |
| ContextDirs.RandomDirNameFormat | pulsar-common/src/main/kotlin/ai/platon/pulsar/common/browser/BrowserFiles.kt:184 | the random name reads back as the prefix, two digits of month, two of day, the five random characters and the decimal count, and is one path element |
| ContextDirs.DecimalIsName | pulsar-common/src/main/kotlin/ai/platon/pulsar/common/browser/BrowserFiles.kt:163 | a decimal number is a path element |
| ContextDirs.ContextNameIsName | pulsar-common/src/main/kotlin/ai/platon/pulsar/common/browser/BrowserFiles.kt:163 | `cx.<n>` is a path element |
| ContextDirs.RandomContextDirLocation | pulsar-common/src/main/kotlin/ai/platon/pulsar/common/browser/BrowserFiles.kt:174-188 | for any ident, the random directory is a child named `<name>` of `<ident>` resolved against `tmp/<month>`, with the count over `tmp/<month>`, and only `tmp/<month>` is created; it is `tmp/<month>/<name>` for the default empty ident and `tmp/<month>/<ident>/<name>` for a single name |
| ContextDirs.AddListedFacts | pulsar-common/src/main/kotlin/ai/platon/pulsar/common/browser/BrowserFiles.kt:155-157 | after the listing is added the group holds its old paths and exactly the listed paths that pass the filter |
| ContextDirs.SequentialBranches | pulsar-common/src/main/kotlin/ai/platon/pulsar/common/browser/BrowserFiles.kt:159-167 | at the cap the group's next path comes back and nothing is created; below it `baseDir/group/cx.<count>` is created and returned |
| ContextDirs.AsWrittenGroupNeverGrows | pulsar-common/src/main/kotlin/ai/platon/pulsar/common/browser/BrowserFiles.kt:156 | with the filter as written, no absolute listed path is ever added to a group |
| ContextDirs.AsWrittenRepeatsPath | pulsar-common/src/main/kotlin/ai/platon/pulsar/common/browser/BrowserFiles.kt:148-168 | as written, two successive calls return the same existing `cx.1` and the group stays empty |
| ContextDirs.ContextPathFacts | pulsar-common/src/main/kotlin/ai/platon/pulsar/common/browser/BrowserFiles.kt:163-164 | the n-th context is a direct child of the group directory with a context name |
| ContextDirs.ContextPathInjective | pulsar-common/src/main/kotlin/ai/platon/pulsar/common/browser/BrowserFiles.kt:163-164 | different numbers name different contexts |
| ContextDirs.CreateGroupKeepsContexts | pulsar-common/src/main/kotlin/ai/platon/pulsar/common/browser/BrowserFiles.kt:165 | creating the group directory adds no entry inside it |
| ContextDirs.CreateChild | pulsar-common/src/main/kotlin/ai/platon/pulsar/common/browser/BrowserFiles.kt:165 | creating a missing child of an existing directory adds exactly that directory |
| ContextDirs.NextContextAbsent | pulsar-common/src/main/kotlin/ai/platon/pulsar/common/browser/BrowserFiles.kt:163-165 | in a group directory holding exactly cx.1 to cx.k, cx.(k+1) is not there yet |
| ContextDirs.CreateNextContext | pulsar-common/src/main/kotlin/ai/platon/pulsar/common/browser/BrowserFiles.kt:163-165 | creating cx.(k+1) there adds exactly that directory and keeps the numbering dense |
| ContextDirs.ListedWithin | pulsar-common/src/main/kotlin/ai/platon/pulsar/common/browser/BrowserFiles.kt:155-159 | a group made of existing contexts stays so after the listing, holds each once, and is no larger than the number of contexts |
| ContextDirs.SequentialAllocatesNext | pulsar-common/src/main/kotlin/ai/platon/pulsar/common/browser/BrowserFiles.kt:148-168 | corrected allocator: below the cap, with cx.1 to cx.k present, it creates and returns cx.(k+1), removes nothing, and is then ready for cx.(k+2) |
| ContextDirs.SequentialAtCapReuses | pulsar-common/src/main/kotlin/ai/platon/pulsar/common/browser/BrowserFiles.kt:159-161 | corrected allocator: at the cap it creates no context and returns an existing one, or fails for an empty group with a cap ≤ 0 |
| ContextDirs.BrowserFiles.constructor | pulsar-common/src/main/kotlin/ai/platon/pulsar/common/browser/BrowserFiles.kt:58-60 | no groups and an empty ledger |
| ContextDirs.BrowserFiles.DeleteTemporaryUserDataDir | pulsar-common/src/main/kotlin/ai/platon/pulsar/common/browser/BrowserFiles.kt:107-142 | the ledger and result are those of `DeleteSpec`; the groups are untouched |
| ContextDirs.BrowserFiles.CleanUpContextTmpDir | pulsar-common/src/main/kotlin/ai/platon/pulsar/common/browser/BrowserFiles.kt:80-88 | the ledger and result are those of `CleanUpSpec` over the walk order; the groups are untouched |
| ContextDirs.BrowserFiles.ComputeNextSequentialContextDir | pulsar-common/src/main/kotlin/ai/platon/pulsar/common/browser/BrowserFiles.kt:148-168 | the groups and result are those of the corrected `Sequential`; the ledger is untouched |
| Privacy.InitialState | pulsar-plugins/pulsar-protocol/src/main/kotlin/ai/platon/pulsar/protocol/browser/driver/PrivacyContextManager.kt:22-23 | no active context and no zombies, and the invariant holds |
| Privacy.GetOrCreateKeepsExisting | pulsar-plugins/pulsar-protocol/src/main/kotlin/ai/platon/pulsar/protocol/browser/driver/PrivacyContextManager.kt:108-115 | an existing context comes back and nothing changes; otherwise a new context, unlike any before it, fills the slot |
| Privacy.ResetRetiresOnce | pulsar-plugins/pulsar-protocol/src/main/kotlin/ai/platon/pulsar/protocol/browser/driver/PrivacyContextManager.kt:42-49 | `reset` empties the slot, queues the old context once, closed, and a second reset adds nothing |
| Privacy.BeforeRunResetsOnlyLeaked | pulsar-plugins/pulsar-protocol/src/main/kotlin/ai/platon/pulsar/protocol/browser/driver/PrivacyContextManager.kt:87-93 | only a leaked context is reset, together with the task; a healthy one stays active |
| Privacy.ResultOf | pulsar-plugins/pulsar-protocol/src/main/kotlin/ai/platon/pulsar/protocol/browser/driver/PrivacyContextManager.kt:58-62 | a privacy leak becomes a PRIVACY-scope retry result, a returned result is kept, and any other exception yields no result (it is not caught) |
| Privacy.AfterRunClassifies | pulsar-plugins/pulsar-protocol/src/main/kotlin/ai/platon/pulsar/protocol/browser/driver/PrivacyContextManager.kt:99-106 | it asks for a retry iff the result is a privacy retry; a privacy retry marks a warning, a success marks a success, anything else changes nothing |
| Privacy.AttemptPreservesInv | pulsar-plugins/pulsar-protocol/src/main/kotlin/ai/platon/pulsar/protocol/browser/driver/PrivacyContextManager.kt:57-63 | one pass of the loop body keeps the invariant |
| Privacy.AttemptsFromShape | pulsar-plugins/pulsar-protocol/src/main/kotlin/ai/platon/pulsar/protocol/browser/driver/PrivacyContextManager.kt:54-64 | from attempt i the loop makes between 1 and maxRetry + 2 - i attempts; every returned result but the last is a privacy retry; a run that returns ends with its last result, a non-retry unless the attempts ran out; a run that throws does so right after privacy retries, within the bound |
| Privacy.Run0Bounded | pulsar-plugins/pulsar-protocol/src/main/kotlin/ai/platon/pulsar/protocol/browser/driver/PrivacyContextManager.kt:51-67 | `run0` makes at least 1 and at most maxRetry + 1 = 3 attempts, goes on exactly while the result is a privacy retry, returns the last result when it stops early on another result, and propagates an exception of the last attempt |
| Privacy.AttemptsFromPreservesInv | pulsar-plugins/pulsar-protocol/src/main/kotlin/ai/platon/pulsar/protocol/browser/driver/PrivacyContextManager.kt:54-64 | the whole run keeps the invariant: zombies closed, identities distinct |
| Privacy.Run0OnceWithoutRetry | pulsar-plugins/pulsar-protocol/src/main/kotlin/ai/platon/pulsar/protocol/browser/driver/PrivacyContextManager.kt:63-64 | a task whose first attempt returns a result that is not a privacy retry runs once and returns that result |
| Privacy.AttemptsFromThrowStops | pulsar-plugins/pulsar-protocol/src/main/kotlin/ai/platon/pulsar/protocol/browser/driver/PrivacyContextManager.kt:54-64 | a task that throws anything but a privacy leak ends the run at that attempt: its before-run has happened, the context gets no after-run mark, and no later attempt is made |
| Privacy.PrivacyContextManager.constructor | pulsar-plugins/pulsar-protocol/src/main/kotlin/ai/platon/pulsar/protocol/browser/driver/PrivacyContextManager.kt:21-27 | the initial state |
| Privacy.PrivacyContextManager.GetOrCreate | pulsar-plugins/pulsar-protocol/src/main/kotlin/ai/platon/pulsar/protocol/browser/driver/PrivacyContextManager.kt:108-115 | the new state and context are those of `GetOrCreateSpec` |
| Privacy.PrivacyContextManager.Reset | pulsar-plugins/pulsar-protocol/src/main/kotlin/ai/platon/pulsar/protocol/browser/driver/PrivacyContextManager.kt:42-49 | the new state is `ResetSpec` of the old one |
| Privacy.PrivacyContextManager.BeforeRun | pulsar-plugins/pulsar-protocol/src/main/kotlin/ai/platon/pulsar/protocol/browser/driver/PrivacyContextManager.kt:87-93 | the new state is `BeforeRunSpec` of the old one |
| Privacy.PrivacyContextManager.AfterRun | pulsar-plugins/pulsar-protocol/src/main/kotlin/ai/platon/pulsar/protocol/browser/driver/PrivacyContextManager.kt:99-106 | the new state and answer are those of `AfterRunSpec` |
| Privacy.PrivacyContextManager.Run0 | pulsar-plugins/pulsar-protocol/src/main/kotlin/ai/platon/pulsar/protocol/browser/driver/PrivacyContextManager.kt:51-67 | the loop's final state, attempt results and outcome are those of `Run0Spec`: the last attempt's result, or an error when a task throws anything but a privacy leak |
| Browsers.InitialState | pulsar-plugins/pulsar-protocol/src/main/kotlin/ai/platon/pulsar/protocol/browser/driver/BrowserManager.kt:19-23 | open, no browsers, and the invariant holds |
| Browsers.LauncherOptionsFor | pulsar-plugins/pulsar-protocol/src/main/kotlin/ai/platon/pulsar/protocol/browser/driver/BrowserManager.kt:29-33 | the supervisor settings are copied into the launcher options iff the settings are supervised |
| Browsers.LaunchOnlyWhenAbsent | pulsar-plugins/pulsar-protocol/src/main/kotlin/ai/platon/pulsar/protocol/browser/driver/BrowserManager.kt:63-72 | a stored browser comes back with nothing changed; otherwise a successful launch stores one new browser under the key and changes no other key; a failed launch stores nothing |
| Browsers.LaunchRepeatsSameBrowser | pulsar-plugins/pulsar-protocol/src/main/kotlin/ai/platon/pulsar/protocol/browser/driver/BrowserManager.kt:63-72 | after a successful launch, every later launch for the same directory returns that browser and changes nothing |
| Browsers.CloseGracefullyRemovesKey | pulsar-plugins/pulsar-protocol/src/main/kotlin/ai/platon/pulsar/protocol/browser/driver/BrowserManager.kt:47-51 | the key is gone and the other keys are untouched; the id is appended iff no close threw, even when no browser was stored |
| Browsers.CloseActsOnce | pulsar-plugins/pulsar-protocol/src/main/kotlin/ai/platon/pulsar/protocol/browser/driver/BrowserManager.kt:53-61 | the first `close` leaves no browser and shuts down every browser whose close does not throw; a later call changes nothing |
| Browsers.BrowserManager.constructor | pulsar-plugins/pulsar-protocol/src/main/kotlin/ai/platon/pulsar/protocol/browser/driver/BrowserManager.kt:15-25 | the initial state |
| Browsers.BrowserManager.Launch | pulsar-plugins/pulsar-protocol/src/main/kotlin/ai/platon/pulsar/protocol/browser/driver/BrowserManager.kt:27-37 | the new state and result are those of `LaunchSpec` |
| Browsers.BrowserManager.LaunchIfAbsent | pulsar-plugins/pulsar-protocol/src/main/kotlin/ai/platon/pulsar/protocol/browser/driver/BrowserManager.kt:63-72 | the new state and result are those of `LaunchIfAbsentSpec` |
| Browsers.BrowserManager.CloseBrowserGracefully | pulsar-plugins/pulsar-protocol/src/main/kotlin/ai/platon/pulsar/protocol/browser/driver/BrowserManager.kt:47-51 | the new state and result are those of `CloseBrowserGracefullySpec` |
| Browsers.BrowserManager.Close | pulsar-plugins/pulsar-protocol/src/main/kotlin/ai/platon/pulsar/protocol/browser/driver/BrowserManager.kt:53-61 | the new state is `CloseSpec` of the old one |
| DriverFactory.SetProxy | pulsar-plugins/pulsar-protocol/src/main/kotlin/ai/platon/pulsar/protocol/browser/driver/WebDriverFactory.kt:130-142 | no proxy leaves the capabilities unchanged; a proxy sets exactly the key "proxy" and keeps every other key |
| DriverFactory.LaunchBrowserDispatch | pulsar-plugins/pulsar-protocol/src/main/kotlin/ai/platon/pulsar/protocol/browser/driver/WebDriverFactory.kt:58-81 | Chrome goes to the Chrome path, the mock type to the mock path, every other type fails as unsupported with nothing launched; a launched browser passes iff its type is the id's, and otherwise fails the cast; each call counts one launch |
| DriverFactory.LaunchPathRequiresType | pulsar-plugins/pulsar-protocol/src/main/kotlin/ai/platon/pulsar/protocol/browser/driver/WebDriverFactory.kt:106-128 | `launchChrome` and `launchMockChrome` fail their `require` iff the type is not theirs, and then launch nothing |
| DriverFactory.LaunchPathCast | pulsar-plugins/pulsar-protocol/src/main/kotlin/ai/platon/pulsar/protocol/browser/driver/WebDriverFactory.kt:106-128 | the cast to `ChromeDevtoolsBrowser` or `MockBrowser` always passes for a freshly launched browser, and fails, keeping the browser stored, for one already kept under the same directory with the other type |
| DriverFactory.DriverStartedIffStart | pulsar-plugins/pulsar-protocol/src/main/kotlin/ai/platon/pulsar/protocol/browser/driver/WebDriverFactory.kt:85-102 | the driver belongs to the launched browser, carries the priority, and is started iff `start`; a failed launch, a throwing `newDriver`, or a throwing `startWork` when starting, gives that error instead |
| DriverFactory.WebDriverFactory.constructor | pulsar-plugins/pulsar-protocol/src/main/kotlin/ai/platon/pulsar/protocol/browser/driver/WebDriverFactory.kt:19-28 | no drivers counted yet |
| DriverFactory.WebDriverFactory.LaunchPath | pulsar-plugins/pulsar-protocol/src/main/kotlin/ai/platon/pulsar/protocol/browser/driver/WebDriverFactory.kt:106-128 | the browser state and result are those of `LaunchPathSpec` |
| DriverFactory.WebDriverFactory.LaunchBrowser | pulsar-plugins/pulsar-protocol/src/main/kotlin/ai/platon/pulsar/protocol/browser/driver/WebDriverFactory.kt:58-81 | the counter, browser state and result are those of `LaunchBrowserSpec` |
| DriverFactory.WebDriverFactory.LaunchBrowserAndDriver | pulsar-plugins/pulsar-protocol/src/main/kotlin/ai/platon/pulsar/protocol/browser/driver/WebDriverFactory.kt:85-102 | the counter, browser state and result are those of `LaunchBrowserAndDriverSpec` |
| DriverFactory.WebDriverFactory.Create | pulsar-plugins/pulsar-protocol/src/main/kotlin/ai/platon/pulsar/protocol/browser/driver/WebDriverFactory.kt:42-44 | the driver half of `launchBrowserAndDriver` |
| DriverFactory.WebDriverFactory.CreateRandom | pulsar-plugins/pulsar-protocol/src/main/kotlin/ai/platon/pulsar/protocol/browser/driver/WebDriverFactory.kt:33-38 | a random browser id at priority 0: one launch counted, and a driver started iff `start` |
| Paths.ResolveName | pulsar-common/src/main/kotlin/ai/platon/pulsar/common/browser/BrowserFiles.kt:164 | resolving a single name appends it, and the result's parent is the original path |
| Paths.ResolveStartsWith | pulsar-common/src/main/kotlin/ai/platon/pulsar/common/browser/BrowserFiles.kt:118 | a path resolved from p with a relative part starts with p |
| Paths.StartsWithReflexive | pulsar-common/src/main/kotlin/ai/platon/pulsar/common/browser/BrowserFiles.kt:118 | every path starts with itself, so the tmp-dir guard also admits the tmp dir |
| Paths.AbsoluteNeverStartsWithRelative | pulsar-common/src/main/kotlin/ai/platon/pulsar/common/browser/BrowserFiles.kt:156 | an absolute path never starts with a relative one |
| Paths.StartsWithTransitive | pulsar-common/src/main/kotlin/ai/platon/pulsar/common/browser/BrowserFiles.kt:118 | a path under q, with q under r, is under r |
| Text.NatToStringRoundTrip | pulsar-common/src/main/kotlin/ai/platon/pulsar/common/browser/BrowserFiles.kt:163 | the decimal form of a count reads back to the count |
| Text.NatToStringInjective | pulsar-common/src/main/kotlin/ai/platon/pulsar/common/browser/BrowserFiles.kt:163 | different counts give different decimal forms |
| Text.Pad2RoundTrip | pulsar-common/src/main/kotlin/ai/platon/pulsar/common/browser/BrowserFiles.kt:184 | the two-digit form of a month or day reads back to it |
| Text.ContainsOccurs | pulsar-common/src/main/kotlin/ai/platon/pulsar/common/browser/BrowserFiles.kt:193 | `contains` holds iff the substring occurs at some offset |

## Left out

- Locks, conditions and timed waits (`lock`, `notEmpty`, `notBusy`, `notClosing`, `ensureNotClosing`, `launchMutex`, the synchronized methods, the file lock of `runWithFileLock`): every operation is atomic.
- The exception path of `poll`: an interruption while waiting retires the dequeued driver. Waits are atomic here, so no interruption can happen.
- The 120-iteration drain loop of `closeAll`: its only effect is waiting for concurrent tasks.
- Incognito cookie deletion and proxy change in `closeAll`: these are foreign calls.
- The coroutine machinery (`withTimeoutOrNull`, `whenNormalDeferred`, `preempt`, `Freezable` and `whenUnfrozen`): a timeout is a `Completed(None)` outcome passed in.
- The clock: `Instant.now()` and `Duration` values are integer milliseconds passed in.
- `DateTimes.isExpired` is not part of this model. It is taken to mean "mtime plus expiry is before now".
- The floating-point default capacity `1.5 * NCPU`: capacity is a parameter.
- The Selenium, CDP and browser-process work: `quit`, `cancel`, `startWork`, `newDriver`, `closeRedundantTabs`, `BrowserFactory.launch`, `browser.close`, `createWebDriver` reflection, `ssl()`, `setLogLevel` and the proxy servers. What each does inside is not modelled. Whether `quit`, `closeRedundantTabs`, `launch`, `close`, `createWebDriver`, `setLogLevel`, `newDriver` and `startWork` throw is a parameter of the operation that calls them.
- `BrowserFactory.launch` is not part of this model. A browser's class (`ChromeDevtoolsBrowser` or `MockBrowser`) is taken to follow the browser type of the id it was first launched with.
- `ManagedWebDriver` is not part of this model. A driver is reduced to its priority, status, page views and an `isQuit` flag. The model has no QUIT status: `isQuit` is set only by a `quit` that does not throw, and `isRetired` is taken to mean status RETIRED.
- The companion objects of `WebDriverPool` (WebDriverPool.kt:56-74) and of `PrivacyContextManager` (PrivacyContextManager.kt:21-24) are shared by every instance in the source. Here each store is part of the one object that owns it, so a second pool or manager starts empty instead of seeing the first one's state.
- `BrowserInstanceId` keys the pool manager's registry. It is modelled as an integer, since the manager only compares ids for equality.
- Metrics, gauges, logging and `formatStatus`: observability only.
- `Files.walk`, `Files.list` and `listDirectoryEntries` run on a file system given as a map. Their visiting order is an input sequence. The walk's depth limit of 3 is the caller's choice of that sequence.
- `FileUtils.deleteQuietly` can fail halfway. This is modelled by the set of entries it fails to remove.
- `RandomStringUtils.randomAlphanumeric(5)`, `MonthDay.now()` and `BrowserId.RANDOM` are inputs.
- The path set of a `ContextGroup` is a `ConcurrentSkipListSet`, which iterates in path order, and `Iterators.cycle` walks that live set. The model keeps the paths in insertion order, with a cursor.
- `submit` and `submit0` of `PrivacyContextManager` are the same loop as `run0`, with suspension, and are modelled by `Run0`.
- `BrowserPrivacyContext` is reduced to an identity, its warning and success marks and a closed flag. Whether it has leaked, and what a task returns or throws in it, are function parameters.
- The `ProtocolStatus` of a fetch result is reduced to success, a retry with a scope, or a failure code.
- `LoadingWebDriverPool` is seen only through the fields the manager reads and writes. Its own `poll`, `put` and `close` are recorded in logs. `driverPool.isActive` is the pool's closed flag.
- A `startWork` that throws in `pollWebDriver` (WebDriverPoolManager.kt:265-268) is folded into a poll that hands out nothing (`polled == None`). The driver the pool did hand out then stays WORKING in that pool's own state, which this manager model does not track.
- `AppContext.isActive` is the `appActive` parameter.
- `cancel(url)`, `cancelAll` and `closeDriverPool` are not modelled: they are fan-outs over the modelled `cancel(browserId, url)` and `doCloseDriverPool`.
- `parallelStream` in `BrowserManager.close` becomes a sequential loop over the browsers. Its order does not matter because each close is independent.
- `maintain` in `BrowserManager` only emits events.
- `setProxy` mutates the capabilities map in place. Here it is a function returning the new map, because the map is a value local to `launchBrowser`.
- `WebDriverPool.allocate`, `reset`, `cancel` and the cookie, proxy and pause helpers are outside the pool's bookkeeping core.
- The `VolatileConfig` and `ImmutableConfig` arguments are ignored, since nothing modelled reads them.

## Findings

| source | as written | input that shows it | evidently intended | confidence | as-written member | corrected member |
|---|---|---|---|---|---|---|
| pulsar-common/src/main/kotlin/ai/platon/pulsar/common/browser/BrowserFiles.kt:152-164 | The filter `it.startsWith(prefix)` is `Path.startsWith(String)`, which compares whole names from the root, so an absolute listed directory never passes it and the group never grows. In addition, the count and the listing run over the group base directory, not over the group's own directory, where the contexts are created. | base dir `/ctx` holding `/ctx/default/cx.1`, group `default`, cap 10: two successive calls both return the existing `/ctx/default/cx.1`, and the group stays empty so the cap is never reached | list and count the contexts inside `baseDir/group`, keeping the directories whose file name starts with `cx.`, so that successive calls hand out `cx.1`, `cx.2`, … up to the cap and then reuse them in turn | not executed | ContextDirs.AsWrittenRepeatsPath | ContextDirs.SequentialAllocatesNext |

Notes where the code is followed over its own comments:

- The tmp-dir guard of `deleteTemporaryUserDataDir0` uses `Path.startsWith`, which also accepts the tmp dir itself (`Paths.StartsWithReflexive`). It is not a strict "inside" test.
- The month directory of `computeRandomContextDir0` is the unpadded month value (`tmp/1`), while the comment shows `01`. Only that directory is created; the returned path is not.
- `WebDriverPool.isClosed` is read once when the pool is built and is never updated. It is therefore always false, and `close` does not change it.
