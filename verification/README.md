# Verified model of blank-one

blank-one hands tasks to script workers over websockets, runs scheduled tasks, migrates stores and
routes HTTP and WAMP calls. This project models its concurrent core and three of its parsers in Dafny
4.11 and proves what every run of them keeps. `dafny verify dfyconfig.toml` checks all of it.

## What is modelled

**Worker protocol** (`intranet/server.go`, with the task queue of the vendored taskq package).
`Dispatch.dfy` is a step system: every goroutine is cut where another one can run in between, so a
trace is one interleaving of get handlers, report handlers, connections, the watcher's `select` and the
rounds of its disconnect loop. `DispatchRuns` proves its invariant over every trace of the code as
written. `DispatchTheorems` has the main results, among them an exact loss law: which steps lose a task,
and that no other step does. `DispatchPanics` has the law of the same form for the panic at
`intranet/server.go:247`. `DispatchDiscipline` states two rules under which nothing is lost and nothing
panics:

- *drained disconnect*: when the disconnect of `w` is handled, no registration of `w` is buffered and no
  get handler of `w` is past its connected check;
- *known reports*: workers report no id that is still to be issued. Ids from an earlier run of the server
  are allowed, and do no harm.

Nothing in the code enforces either rule. `DispatchFailures` shows the loss and the panic without them,
from any state and from the empty server, and whole runs are characterised exactly: a run keeps every
task in its place iff none of its steps strands one, and it leaves the watcher bound to panic iff one of
its steps dooms it.

Whether a task can still get a result also depends on wango: a subscription to a store waits for a task
in the goroutine that reads its connection, holding a lock that every lost connection needs before the
watcher hears of it. `DispatchLock` says which tasks that puts beyond help, and that they stay so;
`DispatchProgress` proves that exactly the others can still get a result from workers that report only
what they were handed, in whatever order tasks are handed out and waiting goroutines are served. `DispatchTimeouts` adds tasks
that their callers give up: no invariant breaks, and an exact law says when the watcher gets blocked.
`Server.dfy` is the same code as objects that change in place; each segment is proved to make its step.

**Scheduler** (`scheduler/scheduler.go`). `Scheduling.dfy` is the step system of config updates, cron
ticks and the segments of `runTask`; `SchedulingRuns.dfy` proves the accounting law of the running marks,
mutual exclusion as a corollary, and that the iteration order of the config map does not show.
`Scheduler.dfy` has the maps and the cron instances as objects, with the invariant that the instances
that run are exactly the ones in `storeSchedulers`.

**Both together.** In `System.dfy` a scheduled run pushes its task into the server's queue and waits for
its result. A run in flight can still reach its own end, without any other step of the scheduler, iff its
task is not beyond help; under the two rules and without subscriptions to stores that is every run, and
every mark stands for one. `ConfigUpdate.dfy` has the same law for a config update that publishes and then
waits for its migration tasks.

**Hook routes** (`internet/httproutes.go`), **migration history** (`intranet/intranet.go`), **RPC
addresses** (`internet/wamp.go`), **claims** (`internet/jwt.go`, section 4 of RFC 7519) and **task ids as
float64** (`intranet/server.go`) are in `HookUri*.dfy`, `Migration*.dfy`, `RpcUri.dfy`, `Claims*.dfy` and
`TaskIds.dfy`.

### Assumptions about libraries

- Connection ids are fresh; the open callback returns before the connection's first RPC. One goroutine
  reads the calls of a connection; RPC handlers run in goroutines of their own and may outlive the
  connection. Subscribing takes the subscription lock in the reading goroutine itself; when a connection
  is lost, its connected flag drops, then that lock is taken once more, then the close callback runs
  (`vendor/github.com/getblank/wango/wamp.go:371-435, 618-650, 742-763`). Subscriptions other than those
  to stores, and unsubscribing, return at once when they have the lock.
- Ids come from one counter. A push registers the id and then sends the task; it is one step, because a
  task on its way into the queue is a waiting task that nobody takes. What always holds is proved for any
  choice of the next task at each step, which covers every order in which the two queues of taskq can be
  drained; what can happen is proved for every rule that makes this choice, and likewise for the choice of
  the waiting get handler that receives the task, of the waiting connection that gets the lock, and of the
  close callback that the watcher hears next (`Dispatch.Order`).
- A stopped cron instance starts no more jobs. Whether cron accepts a schedule text is a parameter.
- A blocked receive or send is a step that is not enabled yet. The disconnect loop is not one step: any
  goroutine can run between two of its `Done` calls. The table entry is removed when the loop starts
  instead of when it ends, which only the watcher itself could notice.
- Tasks pushed with a timeout are in `DispatchTimeouts` only: the progress results assume that there are none.
- `jsonparser` calls back for each member in order; its scalar parsers and `json.Unmarshal` are
  parameters.

### Where the code differs from what one may expect

- The watcher's `select` may take a disconnect before a registration that was sent earlier. Then the task
  is never failed, and a scheduled run that waits for it never ends
  (`DispatchFailures.ATaskCanBeLost`, `System.HeldUpForGood`). If the watcher knew of another task of that
  worker, it panics on the registration (`DispatchFailures.TheWatcherCanPanic`).
- A subscription to a store can deadlock the server, under both rules and without any timeout. A worker
  that gets the task of its own subscription waits for itself, since its report is not read
  (`DispatchFailures.AWorkerCanDeadlock`). If another worker has the task when its connection breaks, that
  disconnect waits for the lock and the lock for the task, so no task of a worker lost from then on is
  ever failed, scheduled runs included (`DispatchFailures.TheServerCanDeadlock`). Config updates cannot
  publish any more either (`ConfigUpdate.CanEndIff`).
- `allowConcurrent` does not allow concurrent runs. It skips the first of two checks, and the second one
  refuses a marked key all the same. So it only lets a launch wait for the second check: the launch runs
  if the earlier run completes in between, where without the flag it would have been dropped
  (`SchedulingRuns.LaunchRunsIff`, `SchedulingRuns.FlagSparesALaunch`). Mutual exclusion is broken by
  config updates instead, which reset the marks of runs in flight (`SchedulingRuns.UpdateAdmitsSecondRun`).
- The third dot of the RPC pattern is not escaped: any character that is neither a word character nor a
  newline separates store and command (`RpcUri.PushedIff`).
- `Extra` may hold `_id` and `jwtInfo` and then overrides the entries `toMap` makes. An `aud` claim that is
  an array, which section 4.1.3 of RFC 7519 allows, is rejected.
- `PushAndGetResult` takes an empty error text for success, so a migration whose worker reports such an
  error is marked as processed for good (`Migration.EmptyErrorIsSuccess`).
- Config updates that overlap can run a migration twice (`MigrationOverlap.CanSucceedIff`).

## Model

| member | source | states |
|---|---|---|
| DispatchRuns.RunInv | intranet/server.go:53-268 | every interleaving keeps conservation of tasks, single registration, and the watcher's table refining the true holdings |
| DispatchRuns.StepInv | intranet/server.go:53-268 | each of the eighteen steps keeps that invariant |
| DispatchRuns.SendRefines | intranet/server.go:57-60 | a send on the watch channel and the holding it stands for move together |
| DispatchRuns.HandleRefines | intranet/server.go:243-248 | handling the oldest message leaves the replay of the rest over the table unchanged |
| DispatchRuns.FailsRun | intranet/server.go:257-263 | left alone, the disconnect loop fails its whole set in any order, and the order does not show |
| DispatchTheorems.OnePlace | intranet/server.go:53-65 | an issued task is in the queue, with one get handler, or delivered: exactly one of them, and there once; the holdings of distinct workers are disjoint |
| DispatchTheorems.DeliveredAtMostOnce | intranet/server.go:55-65 | over a whole run no task is handed out twice |
| DispatchTheorems.DeliveredForever | intranet/server.go:55-65 | the receiver of a task never changes, and a task once handed out never returns to the queue |
| DispatchTheorems.OutcomesAreFinal | vendor/github.com/getblank/blank-router/taskq/taskq.go:73-84 | a delivered result never changes in any run |
| DispatchTheorems.ResultOrigin | intranet/server.go:82-88 | a new result is this report of the id, or the fixed error, for a task of a closed connection |
| DispatchTheorems.RunResultOrigin | intranet/server.go:257-263 | over a whole run, what nobody reports can only get the fixed error |
| DispatchTheorems.TableRefinesHoldings | intranet/server.go:242-251 | until the disconnect of w is handled, its table entry exists and replaying the buffered messages over it gives exactly the tasks registered and not reported; messages of w never panic |
| DispatchTheorems.DisconnectSplit | intranet/server.go:251-264 | of the tasks w holds, the disconnect loop gets exactly those whose registration is no longer buffered |
| DispatchTheorems.LossLaw | intranet/server.go:53-121 | exact loss law: after any step a task is lost iff it was lost and has neither a result nor a place in the disconnect loop, or this very step strands it |
| DispatchDiscipline.RunLosesIffStrands | intranet/server.go:53-268 | a run from the empty server never loses a task iff none of its steps strands one |
| DispatchDiscipline.DisconnectLosesIff | intranet/server.go:251-264 | handling a disconnect loses nothing iff every buffered registration of the worker is of a task with a result |
| DispatchPanics.PanicLaw | intranet/server.go:247 | exact panic law: after any step the watcher is bound to panic iff it was, or this very step is a registration after, or a disconnect before it, with a deleted entry |
| DispatchPanics.RunPanicLaw | intranet/server.go:242-264 | the same over whole runs |
| DispatchPanics.DoomedIff | intranet/server.go:243-248 | bound to panic means: handling what is buffered, and nothing else, reaches the panic |
| DispatchPanics.PanicIff | intranet/server.go:242-264 | a run from the empty server ends with a watcher bound to panic iff one of its steps dooms it |
| DispatchPanics.LateRegistrationPanicsIff | intranet/server.go:57-58 | after a check-disconnect-send race the panic is certain iff the table entry was not empty, whatever is buffered |
| DispatchDiscipline.NoLostTask | intranet/server.go:53-121 | in a disciplined run the watcher does not panic and is not bound to, and a task without a result is in exactly one of queue, get handler, live worker |
| DispatchDiscipline.DisconnectCompleteAndSafe | intranet/server.go:251-265 | whatever runs between two rounds of its loop, a drained disconnect gives every task of w a result: the worker's own or the fixed error; results already reported stay, and it takes up no other task |
| DispatchDiscipline.RunGood | intranet/server.go:53-268 | disciplined runs lose nothing and doom nothing |
| DispatchDiscipline.RunSound | intranet/server.go:82-88 | with known reports, in runs that do not doom the watcher, every done message stands for a result and receivers hold what has none |
| DispatchDiscipline.LostIsAbandoned | intranet/server.go:251-264 | with known reports, a task is lost iff its receiver's disconnect was handled without it |
| DispatchDiscipline.AbandonedForGood | intranet/server.go:251-264 | a task lost on a closed connection stays lost until somebody reports its id |
| DispatchFailures.EarlyDisconnectLosesATask | intranet/server.go:242-254 | the task that is handed out next can be lost when the select takes the disconnect before the registration |
| DispatchFailures.AnyQueuedTaskCanBeLost | intranet/server.go:242-254 | so can any queued task, in every order of the queue |
| DispatchFailures.EarlyDisconnectPanics | intranet/server.go:242-254 | and the watcher is then bound to panic if it knew of another task of the worker |
| DispatchFailures.ATaskCanBeLost | intranet/server.go:242-254 | the loss from the empty server |
| DispatchFailures.TheWatcherCanPanic | intranet/server.go:247 | the panic from the empty server |
| DispatchFailures.PrematureReportLosesATask | intranet/server.go:87-88 | any id still to be issued can be spoiled by a report of it: in every order of the queue the task of that id can be lost later, without any disconnect |
| DispatchFailures.OwnSubscriptionDeadlocks | vendor/github.com/getblank/wango/wamp.go:618-650 | a worker that gets the task of its own subscription puts it beyond help |
| DispatchFailures.LostWorkerDeadlocks | vendor/github.com/getblank/wango/wamp.go:742-763 | a worker lost with the task of a pending subscription puts that task and all its other unanswered ones beyond help |
| DispatchFailures.AWorkerCanDeadlock | intranet/server.go:209-236 | the first from the empty server, within both rules |
| DispatchFailures.TheServerCanDeadlock | intranet/server.go:209-236 | the second from the empty server, within both rules |
| DispatchLock.StepBeyondHelp | intranet/server.go:53-268 | beyond help is for good, as long as nobody reports a task beyond help |
| DispatchLock.StepLockStuck | vendor/github.com/getblank/wango/wamp.go:618-650 | and so is a lock held for a task that is stalled itself |
| DispatchLock.BeyondHelpIff | intranet/server.go:53-268 | in disciplined runs only a stuck lock puts a task beyond help |
| DispatchProgress.CanGetResultIff | intranet/server.go:53-268 | exactly: with known reports and a watcher not bound to panic, for every order, an honest continuation gives an issued task a result iff the task is not beyond help; provided that no connection in a subscription has a get outstanding, or none is under way to a store |
| DispatchProgress.RunCanGetResultIff | intranet/server.go:53-268 | the same for the states of runs from the empty server |
| DispatchProgress.BeyondHelpGetsNothing | intranet/server.go:53-268 | one half without that proviso: no honest continuation helps a task beyond help |
| DispatchProgress.DeafAskerStarves | intranet/server.go:53-59 | why it is there: the task of a subscriber that asks for tasks itself never has a result in an order that serves the subscriber first, although it is not beyond help yet |
| DispatchProgress.NoneBeyondHelp | intranet/server.go:53-268 | in disciplined runs without subscriptions to stores every issued task can always get a result |
| DispatchProgress.WithoutLock | intranet/server.go:53-268 | a task that is not stalled gets a result while the lock stays where it is |
| DispatchProgress.FreeLock | vendor/github.com/getblank/wango/wamp.go:618-650 | unless it is stuck, the lock can be released |
| DispatchProgress.FromLeavingWorker | intranet/server.go:251-264 | for a task of a worker whose close callback waits: drain the handlers and the channel, then the disconnect fails it |
| DispatchTimeouts.RunInv | vendor/github.com/getblank/blank-router/taskq/taskq.go:101-141 | timeouts break no invariant of the protocol |
| DispatchTimeouts.FromTheStart | intranet/server.go:257-263 | every run with timeouts from the empty server keeps the invariants, and without a binding step the watcher is not blocked |
| DispatchTimeouts.AnyCallCanTimeOut | vendor/github.com/getblank/blank-router/taskq/taskq.go:111-117 | every caller that waits can give up, with this error |
| DispatchTimeouts.NeverHandedOut | vendor/github.com/getblank/blank-router/taskq/taskq.go:127-152 | a task given up in the queue is never handed out |
| DispatchTimeouts.BlocksOnce | vendor/github.com/getblank/blank-router/taskq/taskq.go:73-84 | only the first Done of a task given up is blocked |
| DispatchTimeouts.HangLaw | intranet/server.go:257-263 | exact: after any step the watcher is blocked or bound to be iff it was and no report handler got blocked in its place, or this step starts a loop over, or gives up in it, a task whose result nobody receives |
| DispatchTimeouts.HangingIff | intranet/server.go:257-263 | bound to be blocked means: the loop alone gets it there |
| DispatchTimeouts.HungForGood | intranet/server.go:242-251 | a blocked watcher handles no connection, message or disconnect ever again |
| ConfigUpdate.CanEndIff | intranet/server.go:300-303 | exactly: a config update can end iff, while it publishes, the lock is not stuck, and, while it waits, its migration task is not beyond help; with the same proviso |
| Server.TaskQueue.Done | vendor/github.com/getblank/blank-router/taskq/taskq.go:73-84 | only an issued id without a result is affected |
| Server.TaskQueue.FailTasks | intranet/server.go:257-263 | uninterrupted, the loop fails all tasks of the set, each once, in some order that does not show |
| Server.Server.TaskGetHandler | intranet/server.go:53-66 | uninterrupted from Shift on: registers and returns the task on an open connection, else puts it back and returns nil |
| Server.Server.AskForTask | vendor/github.com/getblank/wango/wamp.go:579-616 | the receive loop starts the handler: makes the step Ask |
| Server.Server.TakeFromQueue | intranet/server.go:55 | makes the step Shift |
| Server.Server.CheckConnected | intranet/server.go:57 | makes the step Check |
| Server.Server.SendRegistration | intranet/server.go:58-59 | makes the step Register |
| Server.Server.ReturnToQueue | intranet/server.go:62 | makes the step UnShift |
| Server.Server.TaskDoneHandler | intranet/server.go:68-91 | refuses, changing nothing, iff there are fewer than two arguments or the first is no number; otherwise delivers the second as the result and sends the done message |
| Server.Server.TaskErrorHandler | intranet/server.go:93-121 | refuses also a second argument that is no string; otherwise delivers it as an error with that text, and sends the done message |
| Server.Server.ReadReport | vendor/github.com/getblank/wango/wamp.go:579-616 | the receive loop starts the handler: makes the step Receive |
| Server.Server.DeliverResult | intranet/server.go:82-87 | makes the step Done |
| Server.Server.SendDone | intranet/server.go:88 | makes the step Report |
| Server.Server.ReadSubscription | vendor/github.com/getblank/wango/wamp.go:618-626 | makes the step Subscribe |
| Server.Server.EnterSubscription | intranet/server.go:209-221 | makes the step Enter: pushes the task and keeps the lock, or is done at once |
| Server.Server.EndSubscription | intranet/server.go:222-236 | makes the step Release |
| Server.Server.ConnectionLeaves | vendor/github.com/getblank/wango/wamp.go:754-761 | makes the step Leave |
| Server.Server.WatcherTakesTask | intranet/server.go:243-248 | makes the step WatchTask, including the panic |
| Server.Server.WatcherTakesConnect | intranet/server.go:249-250 | makes the step Connect |
| Server.Server.WatcherTakesDisconnect | intranet/server.go:251-265 | makes the step Disconnect: an empty entry stays in the table, else the loop starts |
| Server.Server.WatcherFailsTask | intranet/server.go:257-263 | one round of the loop makes the step Fail |
| Server.Server.HandleDisconnect | intranet/server.go:251-265 | uninterrupted, the whole branch is the step Disconnect and one Fail for each task, and fails exactly the entry |
| SchedulingRuns.AccountingLaw | scheduler/scheduler.go:116-133 | runs in flight less the mark equal the marks updates erased less the completions that found none; never negative; the write at line 125 always finds its map |
| SchedulingRuns.MutualExclusion | scheduler/scheduler.go:69-127 | at most one run of a key in flight, plus the marks config updates erased, whatever allowConcurrent is |
| SchedulingRuns.SecondRunIff | scheduler/scheduler.go:116-127 | a second run gets in iff the key is unmarked and an erased mark has not been paid back by a blank completion |
| SchedulingRuns.UpdateAdmitsSecondRun | scheduler/scheduler.go:41-49 | an update over a marked index whose new task runs at startup puts a second run in flight |
| SchedulingRuns.LaunchRunsIff | scheduler/scheduler.go:72-80 | whatever happens between the two checks, a launch runs iff its key is unmarked at the second and, without the flag, at the first too |
| SchedulingRuns.FlagSparesALaunch | scheduler/scheduler.go:103-106 | with a completion between the two checks the flag decides who runs |
| SchedulingRuns.RunInv | scheduler/scheduler.go:28-133 | every trace of updates, ticks and run segments keeps the law and the known stores |
| SchedulingRuns.WritePanicsIff | scheduler/scheduler.go:125 | marking panics iff the store has no mark set |
| SchedulingRuns.UpdatePartitions | scheduler/scheduler.go:43-63 | each task index is launched once, iff its schedule is one of @reboot, @startup, @start, registered once with its own index and flag, or rejected by cron; other stores are untouched |
| SchedulingRuns.UpdateOrderDoesNotShow | scheduler/scheduler.go:22-26 | two iteration orders of the same config leave equal schedulers, marks and launches |
| SchedulingRuns.UpdateAllIsUpdatedBy | scheduler/scheduler.go:22-67 | a config update in any order changes exactly the named stores, in closed form |
| Scheduler.Scheduler.UpdateScheduler | scheduler/scheduler.go:28-67 | computes the update and keeps one live cron per store |
| Scheduler.Scheduler.AddTasks | scheduler/scheduler.go:44-63 | the loop launches and registers exactly the specified tasks |
| Scheduler.Scheduler.OnConfigUpdate | scheduler/scheduler.go:22-26 | visits every store once, in some order |
| Scheduler.Scheduler.Fire | scheduler/scheduler.go:53-55 | a running cron is the current one of some store, and fires that store's entry |
| Scheduler.Scheduler.CanRunTask | scheduler/scheduler.go:103-113 | true iff concurrency is allowed or the key is not marked |
| Scheduler.Scheduler.CheckAndMarkTaskRunning | scheduler/scheduler.go:116-127 | true iff the key was not marked; marked afterwards |
| Scheduler.Scheduler.StartRun | scheduler/scheduler.go:69-80 | uninterrupted: runs iff the key was not marked, whatever the flag; marked afterwards |
| Scheduler.Scheduler.MarkTaskCompleted | scheduler/scheduler.go:129-133 | clears the mark, in a store without marks nothing |
| System.MarkIsBacked | scheduler/scheduler.go:69-133 | in every disciplined run a mark stands for a run about to push, answered, or waiting for a task that has a result, is queued, with a get handler, or with a live worker |
| System.DeadWorkerFreesRuns | scheduler/scheduler.go:92-94 | whatever the server does during the loop of a drained disconnect, a task the loop lets go of frees its run, which then clears its mark |
| System.CanCompleteIff | scheduler/scheduler.go:69-133 | exactly: with known reports and a watcher not bound to panic, for every order, a run in flight can reach its own completion, without any other step of the scheduler, iff it does not wait for a task beyond help; with the same proviso |
| System.NoRunIsStuck | scheduler/scheduler.go:69-133 | in every disciplined run without subscriptions to stores every run in flight can reach its own completion, and every mark stands for such a run |
| System.OnlyTheLockHoldsUp | scheduler/scheduler.go:92-94 | in disciplined runs only a stuck subscription lock can hold up a run |
| System.HeldUpForGood | scheduler/scheduler.go:92-94 | a run whose task is beyond help waits throughout every run of both machines in which nobody reports a task beyond help |
| System.RunInv | scheduler/scheduler.go:69-133 | the joint invariant of all runs, disciplined or not: both machines keep theirs, and runs wait on distinct, issued tasks |
| HookUri.ConvertHookURI | internet/httproutes.go:607-618 | equals one left-to-right pass over the original string, slash-prefixed |
| HookUri.ReplaceAll | internet/httproutes.go:608-611 | the loop of replace-first steps equals the one pass |
| HookUri.ReplaceRound | internet/httproutes.go:610 | the first occurrence of the next match is its own position |
| HookUri.GreedyMatch | internet/httproutes.go:28 | the pattern matches at a colon iff a letter follows, and the greedy match is the longest |
| HookUri.FindAllIsComplete | internet/httproutes.go:608 | the matches are exactly the parameters, in order, each with its longest name |
| HookUriLaws.ParamIsBraced | internet/httproutes.go:28 | a colon, a letter and all the ASCII letters and digits that follow become the name in braces |
| HookUriLaws.ByteStays | internet/httproutes.go:607-611 | every other byte stays as it is |
| HookUriLaws.NormalForm | internet/httproutes.go:607-618 | the result starts with a slash, has no parameter left, and is a fixed point |
| HookUriLaws.FixedIffNormal | internet/httproutes.go:607-618 | a string is unchanged iff it is in that form |
| HookUriLaws.ConvertedLength | internet/httproutes.go:607-618 | one byte more for each parameter and for a missing slash |
| HookUriLaws.UnbracedUndoesOnePass | internet/httproutes.go:609-611 | the rewriting is invisible after turning braces back, for every string |
| HookUriLaws.RoundTripIff | internet/httproutes.go:607-618 | the slash-prefixed input comes back iff it has no braces |
| HookUriLaws.ConvertedIsInjective | internet/httproutes.go:607-618 | hooks without braces share a route only if they differ by the leading slash at most |
| Migration.Migrations.RunMigrationScripts | intranet/intranet.go:55-84 | pushes exactly the tasks of defined, unprocessed versions, each once, in any order, and marks a pushed version iff its worker delivers a result or an error without a text |
| Migration.WalkIsPart | intranet/intranet.go:56 | the order of the range over the config does not show |
| Migration.Migrations.IsStoreVersionProcessed | intranet/intranet.go:32-42 | true iff the pair is marked |
| Migration.Migrations.SetProcessedStoreVersion | intranet/intranet.go:44-53 | adds exactly the pair |
| Migration.ProcessedIffSucceeded | intranet/intranet.go:55-84 | over any history a version is marked iff for one of its tasks a result or an error without a text was delivered |
| Migration.AttemptedIffNotYetSucceeded | intranet/intranet.go:61-79 | an update that names a version pushes its task iff none succeeded before |
| Migration.SucceedsAtMostOnce | intranet/intranet.go:61-81 | while updates do not overlap, a success is never repeated |
| Migration.EmptyErrorIsSuccess | intranet/intranet.go:75-81 | an error report with empty text marks the version for good |
| Migration.OtherErrorIsFailure | intranet/intranet.go:75-79 | every other error leaves the version unmarked |
| Migration.LostWorkerIsFailure | intranet/intranet.go:75-79 | the error of a lost connection leaves the version unmarked |
| MigrationOverlap.CanSucceedIff | intranet/intranet.go:61-81 | with overlapping updates: a version can succeed, again or at all, iff it is unmarked or a migration of it is in flight |
| MigrationOverlap.LaterSuccesses | intranet/intranet.go:61-81 | once marked, it succeeds at most as often again as it has migrations in flight |
| MigrationOverlap.OnceWithoutOverlap | intranet/intranet.go:61-81 | a version whose migrations do not overlap succeeds at most once, whatever else overlaps |
| MigrationOverlap.OverlapSucceedsTwice | intranet/intranet.go:61-81 | two overlapping updates can run a migration twice |
| MigrationOverlap.MarkedIffSucceeded | intranet/intranet.go:44-53 | over every interleaving a version is marked iff a migration of it succeeded |
| RpcUri.SplitIsLongest | internet/wamp.go:32 | the match found has the longest store, and one is found iff there is any |
| RpcUri.SplitClosedForm | internet/wamp.go:32 | the backtracking in closed form |
| RpcUri.ParseThenPrint | internet/wamp.go:262-268 | a parsed pair is legal and prints to the URI itself |
| RpcUri.PrintThenParseIff | internet/wamp.go:32 | a printed pair comes back iff it is legal and the separator is no newline and, with a command, no word character |
| RpcUri.WordsOnlyHasNoCommand | internet/wamp.go:32 | a tail of word characters parses to an empty command |
| RpcUri.SameTaskIff | internet/wamp.go:241-330 | a task runs as the session's own user, or as guest without credentials, and stands for one call: two calls push equal tasks iff they agree on user, store, command and the arguments the command takes |
| RpcUri.UsersAreKeptApart | internet/wamp.go:246-259 | live sessions of different users never push equal tasks |
| RpcUri.RefusedIff | internet/wamp.go:241-332 | which refusal comes when, in the order of the checks |
| RpcUri.PushedIff | internet/wamp.go:241-333 | exactly which callers, addresses and argument counts push a task |
| Claims.BlankClaims.Callback | internet/jwt.go:47-107 | one member sets its field or its Extra entry, or fails and changes nothing |
| Claims.BlankClaims.UnmarshalJSON | internet/jwt.go:42-110 | the fold over the members, stopped at the first error |
| Claims.BlankClaims.ToMap | internet/jwt.go:23-40 | the two fixed entries overlaid with Extra |
| ClaimsLaws.DecodeIsLastWins | internet/jwt.go:42-125 | fails iff a text or number claim has another kind, or another member is an object or array that does not parse; otherwise every claim is what the codec makes of its last member, by its kind |
| ClaimsLaws.NoReservedInExtra | internet/jwt.go:99-104 | no reserved name is ever put in Extra |
| ClaimsLaws.OrderDoesNotMatter | internet/jwt.go:47-107 | with distinct keys any reordering fails alike or decodes to equal claims |
| ClaimsLaws.PresentedIsLast | internet/jwt.go:23-40 | the map holds the last payload value of every key that is not reserved, also _id and jwtInfo, and no other key |
| ClaimsLaws.PresentedInfo | internet/jwt.go:26-32 | without a jwtInfo member that entry holds the last userId, sessionId, iat, iss and exp |
| ClaimsLaws.PresentedUser | internet/jwt.go:25 | without an _id member the map shows the last userId as _id |
| TaskIds.RoundIsNearest | intranet/server.go:74 | the modelled conversion yields a float64, none is nearer, ties go to the even significand |
| TaskIds.ReportAddressesIff | intranet/server.go:82-88 | a report of any 64-bit id addresses its task iff the id is a multiple of the float64 spacing, or one of the last 1024 and what the platform makes of 2^64 |
| TaskIds.RoundsOutIff | intranet/server.go:74 | an id rounds up to 2^64 iff it is one of the last 1024 |
| TaskIds.ConversionTruncates | intranet/server.go:83 | the conversion drops the fraction, and is up to the platform iff the rest is no 64-bit id |
| TaskIds.SafeIds | intranet/server.go:74-88 | ids up to 2^53 survive and never alias; 2^53+1 is the first that fails |

## Left out

- Progress with timeouts. `internet/internet.go:347` and `372` push with a timeout of 30 seconds; `DispatchTimeouts` says exactly when that blocks the watcher, but `DispatchProgress`, `ConfigUpdate.CanEndIff`, `System.CanCompleteIff` and `System.NoRunIsStuck` assume that no task is given up.
- Wrap-around of the 64-bit id counter, and the capacity of channels and queues, wango's send buffers included: a full one blocks its sender.
- Fairness: nothing is said about when, or whether, a step that can happen does happen.
- The endless `select` loop of the watcher is modelled by one method per branch; the branch chosen is the step of a trace.
- DispatchProgress.CanGetResultIff: says nothing once the watcher is bound to panic, since a panic ends the whole program; nor that a task gets a result where a connection in a subscription has a get outstanding while one is under way to a store, because there the order decides (`DispatchProgress.DeafAskerStarves`).
- Values of task results, and the arguments of scheduled and migration tasks: they do not influence the protocols.
- JSON scanning of the claims: the fold starts from the members the scanner reports, and its own error is one flag.
- Token signatures, expiry and issuer checks, cookies and header parsing.
- REST handlers, route registration, the other RPC handlers, publishing, sessions, service registry, asset serving, logging: plumbing around unseen libraries.
