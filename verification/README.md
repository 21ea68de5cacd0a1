# A verified model of vessel's concurrent core

vessel runs sandboxes as microVMs and serves them to containerd, to a REST API and to
E2B clients. This project models the four parts of it in which mutex-protected critical
sections interleave with slow unlocked work, and proves what survives every interleaving:

- **The task service** (`pkg/shim`): tasks and execs with a status, an exit record, a list
  of waiters and published events; Create, Kill, Delete and Wait each take the lock
  several times.
- **The prewarmed VMM pool** (`pkg/driver/cloudhypervisor/pool.go`): a list of spare
  processes, one background refiller, and any number of gets, kicks and closes.
- **The fleet**: who owns each VMM process across the pool, the driver
  (`driver.go`) and the Manager (`pkg/sandbox/sandbox.go`).
- **Snapshots and the guest agent**: clones that share template files by hard link, and
  callers that share one FIFO connection to the agent (`pkg/agent`).

## How the model is built

Each concurrent part comes in two forms that meet in one set of functions.

- *Critical sections as functions.* `Pool.PoolState`, the sections of `Shim.dfy`
  (`Insert`, `SetRunning`, `Exit`, `Enlist`, `Drop`, `AddExec`, `DropExec`) and
  `Agent.Handle` give the effect of one critical section on the protected state, and
  `Files.MakeDir`, `Files.LinkTo` and `Files.WriteTo` that of one file operation.
- *The program as objects.* `Pool.VmmPool`, `Driver.Driver`, `Driver.Instance`,
  `Manager.Manager`, `Service.Service`, `Agent.Server`, `Agent.Client` and
  `Files.FileSystem` are classes with the fields of the source, updated in place, with its
  loops; their methods are proved to compute those functions. `Service.Channel.Close`
  requires an open channel, so verifying `Service.Service.CloseAll` proves that no close panics.
- *The concurrent system.* `Fleet.dfy`, `Shim.dfy`, `Rpc.dfy` and `Clones.dfy` are transition systems: a
  thread is the local state of one call or goroutine between two steps, a step is one of
  those functions or one piece of unlocked work whose outcome the environment chooses, and
  a run is any sequence of enabled actions. Histories (the event log, the processes ever
  spawned, the objects removed) are kept beside the state. Theorems are about
  every run from the start.
- *What the sections mean.* The functions are shared by the classes and the transition systems,
  so what they do is stated a second time without them: in the classes' contracts field by
  field, and over runs in `ShimCalls.dfy`, `ShimReplies.dfy`, `FleetMakers.dfy` and
  `Rpc.AnswerIsOutcome`, of what a request asked for and what it got. Where the environment may
  fail an operation at will, the failures are counted (`Files.FileSystem.faults`,
  `Pool.Spawner.failures`), so that contracts can say that nothing else fails.

Conservation results share one tool, `Placement.dfy`: a family of lists, one per place, that
together hold every element of a set exactly once, and the ways a step may change it. It
serves VMM processes, waiters' channels, exit announcements, sandboxes, task objects,
goroutines of execs and handed-over commands.

Reading order: `Common`, `Placement`; `Pool`, `Fleet`, `FleetOwnership`, `FleetPools`,
`FleetTheorems`, `FleetMakers`, `FleetWitnesses`; `Files`, `Snapshots`, `Clones`, `Driver`, `Manager`; `Agent`, `Rpc`;
`Shim`, `ShimFacts`, `ShimWaiters`, `ShimExits`, `ShimOwnership`, `ShimExecs`,
`ShimExecTheorems`, `ShimCalls`, `ShimReplies`, `ShimRemoval`, `ShimWords`, `ShimEvents`, `ShimRuns`, `ShimWitnesses`,
`Service`.

`dafny verify dfyconfig.toml` checks the whole project (Dafny 4.11).

## Where the code does less than one might expect

For each of these a proved lemma gives a concrete run that shows the failure, and another the
exact condition under which the code does what is wanted.

- A pool need not return to its target after a get (`FleetWitnesses.IgnoredKick`). It is short
  by exactly the spares taken since the refiller's last look (`FleetTheorems.TargetAfterLastCheck`).
- `get` still spawns once the pool is closed, so a Create that overlaps a Shutdown can outlive
  it (`FleetWitnesses.CreateOutlivesShutdown`). Once nothing runs, every process is terminated if
  and only if no instance was tracked after the Shutdown's critical section
  (`FleetTheorems.ShutdownReapsExactly`).
- Delete removes by ID. With two Deletes and a Create on one ID, a live task can be dropped
  (`ShimWitnesses.DeleteDropsAnother`); a Delete removes what it looked up if and only if no
  other thread removed under that ID meanwhile (`ShimRemoval.RemovesWhatItLookedUp`).
- Events are published after the unlock, except by Start. The order of an ID's events survives
  overlapping RPCs of two kinds if and only if those kinds do not conflict
  (`ShimWitnesses.ConflictIsExact`): a Create conflicts with Start, Kill and Delete, and a Delete
  with Kill and Delete; Creates with one another, Starts with Start, Kill and Delete, and Kills
  with one another do not.
- A waiter on an exec that was reaped, or whose task was removed, while still CREATED is never
  woken (`ShimWitnesses.StrandedWaiter`); for every other exec it can be
  (`ShimExecTheorems.WaitersCanWake`).
- The comment on Delete says the task stays visible as STOPPED until teardown is complete. While
  the sandbox is being stopped it still reads CREATED or RUNNING
  (`ShimWitnesses.DeleteNotYetStopped`); from the marking of its exit on it reads STOPPED to
  every State that finds it (`ShimWaiters.ReadsStoppedFromMarking`).

Two remarks on documentation and data, each with its lemma:

- The documentation says a Kill's exit status tells the signals apart; it does, except that an
  unspecified signal counts as SIGKILL, and the sum wraps at 32 bits (`ShimWaiters.KillCodeTellsSignal`).
- A template's `config.json` that holds `null` is accepted, as `json.Unmarshal` accepts it for a
  map, and then so is the overlay's (`Snapshots.NullConfigClones`).

## Model

| member | source | states |
|---|---|---|
| `FleetTheorems.VmmConservation` | pkg/driver/cloudhypervisor/pool.go:46-143 | over every run of gets, refills, closes, Creates, Restores, Forks, Deletes and Shutdowns, every process ever spawned is in exactly one place: a pool's spares, one thread's hands, the Manager's table, or terminated; once in it, and nothing else is anywhere |
| `FleetTheorems.ClaimOnce` | pkg/sandbox/sandbox.go:152-191 | a process in one thread's hands is in no other's, not tracked, and not terminated; no process is terminated twice |
| `FleetTheorems.TrackOverwritesNothing` | pkg/sandbox/sandbox.go:129-133 | given fresh IDs, track adds an entry that was not there and leaves every other one as it was |
| `FleetTheorems.ForkTracksUnderSource` | pkg/sandbox/sandbox.go:229-249 | Fork's lookup removes nothing, and whatever interleaves, the clone is tracked as a new entry under the driver its source had |
| `FleetMakers.MakersFollowTheirCall` | pkg/driver/cloudhypervisor/driver.go:87-101 | whatever interleaves, a Create, RestoreFrom or Fork works for the driver its call names, a clone only for one that restores and booting only from its overlay, and a Create inside a network namespace never takes a spare, kicks a refill or changes a pool |
| `FleetMakers.RejectedIsKilled` | pkg/driver/cloudhypervisor/driver.go:113-117 | a process whose overlay or boot failed, or whose pool closed before it could join, is from then on never tracked, never a spare and in no other thread's hands: the thread that has it kills it |
| `FleetTheorems.ShutdownReaps` | pkg/sandbox/sandbox.go:167-191 | if no Create, Restore or Fork is in flight or starts later, then once Shutdown has returned and the refillers have exited, every process ever spawned is terminated or claimed by another Delete, Shutdown or Close still at work |
| `FleetTheorems.ShutdownLeavesNothing` | pkg/sandbox/sandbox.go:167-191 | and when nothing is left running, the terminated processes are exactly those ever spawned, each terminated once |
| `FleetTheorems.ShutdownReapsExactly` | pkg/sandbox/sandbox.go:167-191 | with Creates, Restores and Forks overlapping a Shutdown in any way and no later Delete or Shutdown: once nothing runs, everything ever spawned is terminated if and only if no instance was tracked since the Shutdown's critical section |
| `FleetTheorems.AliveIsTracked` | pkg/driver/cloudhypervisor/pool.go:55-57 | once nothing runs and every pool is closed, the processes alive are exactly those the Manager tracks |
| `FleetTheorems.SpareBoundAlways` | pkg/driver/cloudhypervisor/pool.go:79-99 | in every reachable state, spares, plus the refiller's outstanding spawn or process, plus those awaiting close's kill, are at most max(target, 0), though the deficit is read in an earlier critical section than the append |
| `FleetTheorems.SingleRefillerAlways` | pkg/driver/cloudhypervisor/pool.go:61-101 | `refilling` holds exactly while one refill goroutine lives, and there is never a second; once closed, a pool has no spares in any later state |
| `FleetTheorems.SatisfiedMeansTarget` | pkg/driver/cloudhypervisor/pool.go:79-86 | a refiller that exits for want of a deficit saw exactly target spares |
| `FleetTheorems.TargetAfterLastCheck` | pkg/driver/cloudhypervisor/pool.go:61-86 | from that check on, until another refiller or a close comes, the pool is at its target if and only if nobody has taken a spare since |
| `FleetWitnesses.IgnoredKick` | pkg/driver/cloudhypervisor/pool.go:65-78 | a run with no failure after which nothing runs and an open pool of target 1 is empty |
| `FleetWitnesses.CreateOutlivesShutdown` | pkg/driver/cloudhypervisor/pool.go:55-57 | a run after which nothing runs, every pool is closed, and a process is alive and tracked |
| `Pool.VmmPool.TakeIdle` | pkg/driver/cloudhypervisor/pool.go:47-55 | get's critical section hands out the newest spare and removes that one alone |
| `Pool.VmmPool.TryKick` | pkg/driver/cloudhypervisor/pool.go:61-71 | the refiller role is claimed if and only if the target is positive, nobody has it and the pool is open |
| `Pool.VmmPool.Offer` | pkg/driver/cloudhypervisor/pool.go:91-98 | the refiller's process is appended unless the pool closed meanwhile |
| `Pool.VmmPool.RefillUndisturbed` | pkg/driver/cloudhypervisor/pool.go:73-100 | with nobody else at work the refill loop terminates, adds only live new processes at the end, never exceeds the target, and reaches it exactly unless a spawn failed or the pool was closed |
| `Pool.VmmPool.Close` | pkg/driver/cloudhypervisor/pool.go:134-143 | every spare is killed, and the pool is closed and empty |
| `Driver.Driver.Get` | pkg/driver/cloudhypervisor/pool.go:46-58 | the newest spare, else a new process, none only if a spawn failed; never one that is still listed; and the kick comes with it |
| `Driver.Driver.Create` | pkg/driver/cloudhypervisor/driver.go:87-118 | success exactly when a process was got and the boot went well, with a running instance that alone holds it; on failure the process obtained is terminated and not put back; the process is the newest spare, or a new one if there is none or inside a network namespace, which leaves the pool alone |
| `Driver.Driver.Restore` | pkg/driver/cloudhypervisor/driver.go:128-197 | a running instance with a connected agent exactly when a process was got, its overlay was prepared, the snapshot loaded (tried once more only if the first try was on demand), the agent was reached and a pod's network came up; the overlay is then a clone of the template; otherwise the process is dead, and its directory gone if it was the overlay that failed; the overlay does not fail if the template can be cloned and no file operation but a hard link meets an error; nothing outside the process's directory is touched where that holds no overlay yet |
| `Driver.Instance.Load` | pkg/driver/cloudhypervisor/driver.go:158-196 | the sequence after the overlay: which outcomes make a running instance, and that a failure leaves the state as it was |
| `Driver.Instance.Snapshot` | pkg/driver/cloudhypervisor/driver.go:313-332 | only the snapshot directory changes and no existing inode is written; on success it holds what the VMM wrote, nothing else, in inodes of its own; without an error of the file system it succeeds exactly when pause, snapshot and resume do |
| `Manager.Manager.Track` | pkg/sandbox/sandbox.go:129-133 | the table gains this entry, under the instance's own ID |
| `Manager.Manager.Claim` | pkg/sandbox/sandbox.go:155-160 | Delete's critical section hands over the entry and leaves every other |
| `Manager.Manager.Delete` | pkg/sandbox/sandbox.go:154-165 | a tracked instance is stopped and its process dead, an unknown ID is an error, other processes are as before |
| `Manager.Manager.TakeAll` | pkg/sandbox/sandbox.go:171-181 | Shutdown's critical section takes every instance exactly once and leaves an empty table |
| `Manager.Manager.Shutdown` | pkg/sandbox/sandbox.go:170-191 | undisturbed, every tracked instance is stopped, every registered driver's pool is closed, and all their spares are dead |
| `Snapshots.RewriteTouchesOnlySocket` | pkg/driver/cloudhypervisor/driver.go:392-399 | at every path not leading to or below vsock.socket the configuration is unchanged; with a vsock device the socket is the clone's |
| `Snapshots.RewriteIsIdentityExactly` | pkg/driver/cloudhypervisor/driver.go:396-398 | the rewrite leaves a configuration as it is if and only if it has no vsock device or one with the clone's socket already |
| `Snapshots.NullConfigClones` | pkg/driver/cloudhypervisor/driver.go:392-405 | configurations that are objects or `null` are accepted, and a clone's is `null` if and only if its template's is |
| `Snapshots.LinkOrCopy` | pkg/driver/cloudhypervisor/driver.go:376-385 | the new name reads as the source did, and is a further name of its inode unless the link was refused; a refused link is made up for by a copy; nothing else changes, and no existing inode is written |
| `Snapshots.LinkEntries` | pkg/driver/cloudhypervisor/driver.go:370-386 | all files but config.json get a name in the overlay with the template's contents, none of them a copy if no link was refused, and the overlay has no other name; into a vacant overlay this fails only on an error of another operation |
| `Snapshots.RewriteConfig` | pkg/driver/cloudhypervisor/driver.go:388-405 | the overlay's config.json is the rewritten one, written into an inode of its own; it fails only on an error, or for want of a configuration that parses |
| `Snapshots.PrepareCloneSnapshot` | pkg/driver/cloudhypervisor/driver.go:361-407 | no name outside the overlay changes and no inode without a name in it is written, whatever the overlay held; into a vacant overlay, success makes it a clone of the template and no existing inode is written at all; where the template is there, its configuration parses and nothing is in the way, it fails only on an error of an operation other than a hard link |
| `Snapshots.ResnapshotIsolation` | pkg/driver/cloudhypervisor/driver.go:309-332 | over every history of clones, re-snapshots and removals elsewhere, the template's own replacement included, an overlay stays the clone of its template as it was when cloned |
| `Snapshots.NClones` | pkg/driver/cloudhypervisor/driver.go:353-406 | after any sequence of successful and failed clones and cleanups apart from the template and from finished overlays, the template is unchanged and every successful overlay is a clone of it |
| `Clones.ConcurrentClones` | pkg/driver/cloudhypervisor/driver.go:353-407 | however the single file operations of any number of clones and cleanups in directories of their own interleave, and whichever fail, every clone that succeeded is a clone of its template, no template changes and no file that existed is written |
| `Clones.ClonesFailAlone` | pkg/driver/cloudhypervisor/driver.go:361-407 | however clones interleave, one whose template is there with a configuration that parses, and whose overlay's path is free, fails only if an operation of its own other than a hard link met an error |
| `Snapshots.HistoryKeepsDir` | pkg/driver/cloudhypervisor/driver.go:309-406 | a directory apart from everything operated on keeps its entries and their contents |
| `Snapshots.Cleanup` | pkg/driver/cloudhypervisor/pool.go:151-157 | removing a directory unlinks names at or below it and writes no inode |
| `Files.FileSystem.WriteFile` | pkg/driver/cloudhypervisor/driver.go:382-384 | writing an existing file rewrites its inode in place, under all its names; a new file gets an inode of its own |
| `Files.FileSystem.RemoveAll` | pkg/driver/cloudhypervisor/driver.go:314-316 | only names at or below the path go, no contents change, and success leaves none |
| `Agent.Server.HandleRequest` | pkg/agent/server.go:51-112 | for every operation, what the response must carry (a command's own stdout, stderr and exit code or its error, a file's bytes, an error exactly when something went wrong) and what it must do to the files, with the request's ID |
| `Agent.Server.ServeConn` | pkg/agent/server.go:35-49 | the loop answers every request of the stream, in order, each seeing the effects of those before it, up to a frame that does not decode or a reply that cannot be sent |
| `Agent.Client.RoundTrip` | pkg/agent/client.go:27-45 | whatever failed before and whatever fails now, a result is the server's answer to this request; a failed encoder or decoder fails every later call; without faults there is a result |
| `Rpc.NeverMismatched` | pkg/agent/client.go:35-40 | for any interleaving of callers and any transport failures, the ID check never fires: a response read is the server's answer to the reader's own request |
| `Rpc.RpcPairing` | pkg/agent/client.go:27-45 | and the server handled that very request once, in any run of fewer than 2^64 requests |
| `Rpc.AnswerIsOutcome` | pkg/agent/client.go:53-72 | over every run, a caller that returned holds the answer that is true of the outcome with which the server served that very request: for a command that succeeded, its stdout, stderr and exit code |
| `Rpc.NoAnswerAfterBreak` | pkg/agent/client.go:13-23 | once the connection's encoder or decoder has met an error, no caller gets an answer any more |
| `Rpc.ServedInOrder` | pkg/agent/server.go:35-49 | the requests served are a prefix of those sent, none twice, with the answers one caller alone would have got |
| `Rpc.WithoutFailures` | pkg/agent/client.go:27-45 | with no transport failure requests are served in lock order, and both streams are empty whenever the lock is free |
| `Rpc.FileRoundTrip` | pkg/agent/client.go:61-72 | a file written through the agent reads back as written, if nothing served in between may touch it |
| `ShimWaiters.NoLostWakeUp` | pkg/shim/service.go:251-300 | over every run, a blocked waiter's channel is in the list of the object it waits for and of no other, or that object has stopped and it is closed; stopped objects have no waiters; no channel is closed twice; for tasks and execs, with cancelled waits |
| `ShimWaiters.WakesExactlyWhenStopped` | pkg/shim/service.go:267-277 | a blocked waiter can be woken if and only if the object it waits for has stopped |
| `ShimWaiters.ExitRecordAgreement` | pkg/shim/service.go:176-300 | for each object, whatever its ID is used for later, all Wait, State and Delete replies that report its exit and all Exit and Delete events, at any two moments, carry one record |
| `ShimWaiters.FirstMarkWins` | pkg/shim/service.go:281-293 | that record has the code and time of whoever first reached the marking |
| `ShimWaiters.ReadsStoppedFromMarking` | pkg/shim/service.go:222-248 | once an object's exit is marked, every State that finds it, at any later moment, replies STOPPED with that one record |
| `ShimWaiters.PastMarkingStopped` | pkg/shim/service.go:237-242 | a Kill, Delete or goroutine past its marking works on an object that has stopped |
| `ShimWaiters.KillCodeTellsSignal` | pkg/shim/service.go:213-218 | the exit status is 128 more than the signal, 137 for none, in 32 bits: two signals get the same if and only if they are equal or both mean SIGKILL, and it is 0 for exactly one signal |
| `ShimWaiters.RunKeepsSound` | pkg/shim/service.go:64-76 | statuses only move forward, a record is set once with the exit, waiters stay enlisted until then, and everything a thread, reply or event says about an object stays true, over every run |
| `ShimExits.ExitExactlyOnce` | pkg/shim/service.go:281-300 | for every object, publish attempts of its exit made plus those pending after the unlock are 1 if it has stopped and 0 otherwise; a task has stopped only after a Stop of its sandbox returned |
| `ShimOwnership.SandboxConservation` | pkg/shim/service.go:105-148 | every sandbox a Create obtained is held by one task object, still in that Create's hands, or was stopped by it on losing the race; in exactly one of these |
| `ShimOwnership.TaskConservation` | pkg/shim/service.go:144-148 | a task object is in the table under its own ID or has been removed, once; never both, never neither |
| `ShimOwnership.InsertsAlternateWithRemovals` | pkg/shim/service.go:137-148 | if an ID names another object later, the earlier one was removed in between: at most one Create inserts between removals |
| `ShimRemoval.RemovesWhatItLookedUp` | pkg/shim/service.go:225-248 | a Delete about to remove removes the object it looked up if and only if no other thread removed under that ID since; that object has stopped, its sandbox too, and its waiters are woken |
| `ShimRemoval.SafeRemoval` | pkg/shim/service.go:225-248 | with at most one Delete per ID in flight, every object that ever left the table has stopped, with its sandbox stopped and its waiters woken |
| `ShimWitnesses.DeleteDropsAnother` | pkg/shim/service.go:229-242 | a run in which overlapping Deletes drop a task that never stopped and whose sandbox runs on |
| `ShimWitnesses.DeleteNotYetStopped` | pkg/shim/service.go:222-237 | a run in which State replies CREATED while a Delete of that task is stopping its sandbox |
| `ShimCalls.RequestsHonoured` | pkg/shim/service.go:95-300 | however RPCs interleave, from its arrival on a request's thread works only on an object of the name the request gives, or one made since with its ID and bundle, ends it with the code for its signal, and replies about that object, or with an error of the kinds that request may get |
| `ShimReplies.RefusalsExact` | pkg/shim/service.go:95-265 | a request other than Exec is turned away at its first look exactly when the object it names is not there, or not in the state it needs (for Create: is there, or the ID is empty), and with the error that says which |
| `ShimReplies.FirstLook` | pkg/shim/service.go:158-268 | and one that is not turned away gets its due: Start and StartExec set the object RUNNING, State and DeleteExec reply with what the object they name says, Wait has the record of a stopped object or a new channel on its list, Kill and Delete go on to stop the object named |
| `ShimReplies.WokenGetsRecord` | pkg/shim/service.go:270-277 | a woken waiter replies with the record of the object it waited for, and only one whose own context ended is told it was cancelled |
| `ShimCalls.InsertedCarries` | pkg/shim/service.go:137-149 | the object a Create inserts is new, CREATED, with an unset record, no waiters and no execs, and carries exactly that Create's ID, bundle and sandbox in every later world |
| `ShimReplies.RegistersExactly` | pkg/shim/exec.go:49-88 | an exec request is accepted if and only if it has an ID, a spec that parses, arguments, no terminal and no stdin, its task is known and RUNNING and the name is free; which error answers each first failure; and the exec made keeps its task, arguments and output paths in every later world |
| `ShimReplies.NothingNameless` | pkg/shim/exec.go:50-70 | over every run no task has an empty ID and no exec an empty ID or command, and every exit event gives the ID of the object it is about and of its container |
| `ShimExecTheorems.ExecLifecycle` | pkg/shim/exec.go:94-131 | an exec is running if and only if exactly one goroutine stands for it; a running exec is still listed by its task; its command is handed to the sandbox, or about to be, once if it was started and never otherwise |
| `ShimExecTheorems.ExecStatusSteps` | pkg/shim/exec.go:105-113 | each step leaves an exec's status, starts a created one or stops a running one: none is skipped and none comes back |
| `ShimExecTheorems.ExecExitRecorded` | pkg/shim/exec.go:225-250 | a goroutine's marking always records its own code and time and owes exactly one publication, even if the task was removed meanwhile; that the code is the command's is `ShimReplies.ExecReportsResult` |
| `ShimReplies.ExecReportsResult` | pkg/shim/exec.go:119-130 | when a command returns, every reply and event about its exec's exit, in any later world, carries its exit code, 255 if it could not be run, and modulo 2^32 a code that does not fit |
| `ShimExecTheorems.ExecStepsLeaveTasks` | pkg/shim/exec.go:49-250 | no step of an exec RPC or goroutine changes the task table, any task's status, record, waiters, bundle or sandbox, or stops a sandbox |
| `ShimExecTheorems.WaitersCanWake` | pkg/shim/exec.go:157-202 | some continuation stops an exec, and so wakes its waiters, if and only if it is not CREATED and out of reach of every RPC |
| `ShimWitnesses.StrandedWaiter` | pkg/shim/exec.go:173-202 | a run after which a Wait blocks on a reaped exec that no continuation can stop |
| `ShimEvents.EventLanguage` | pkg/shim/events_test.go:39-63 | as long as no two conflicting RPCs on an ID overlap, in particular if Create, Start, Kill and Delete come one at a time, in whatever order and however they fail, over any run with re-creations, the ID's events spell a prefix of (Create Start? Exit Delete)* |
| `ShimWitnesses.ConflictIsExact` | pkg/shim/service.go:148-154 | clients that overlap RPCs on an ID only as one of kind a with one of kind b see its events in that order in every run if and only if a and b do not conflict |
| `ShimEvents.EventsTellState` | pkg/shim/service.go:150-154 | and whenever no RPC owes an event the last one tells whether the ID is free and, if not, the status of its object |
| `ShimWords.WalksExactly` | pkg/shim/events_test.go:53-62 | the automaton used in the proof accepts exactly the prefixes of words of that expression |
| `Service.Service.Admit` | pkg/shim/service.go:137-155 | Create after the build, whatever happened meanwhile: if the ID is free, a CREATED task of this instance and bundle, with nothing recorded yet, and one event; otherwise nothing changes but the instance, which is stopped |
| `Service.Service.Start` | pkg/shim/service.go:162-173 | only a CREATED task becomes RUNNING, with one event; every refusal changes nothing |
| `Service.Service.State` | pkg/shim/service.go:176-194 | for a task or an exec: the status, record, bundle and output paths of the object the request names, or not found if and only if the tables have none |
| `Service.Service.Find` | pkg/shim/service.go:207-212 | the lookup yields the object the table holds, or none if and only if the ID is free |
| `Service.Service.MarkExited` | pkg/shim/service.go:281-294 | the first caller stops the object and records the exit, later ones change nothing; every waiter's channel is closed |
| `Service.Service.CloseAll` | pkg/shim/service.go:290-292 | the loop closes each waiter's channel, none that was closed before, and no other channel |
| `Service.Service.Remove` | pkg/shim/service.go:239-242 | the ID is free, no object changes, and the record read is the object's |
| `Service.Service.Enter` | pkg/shim/service.go:261-268 | Wait gets the record of a stopped object, else an open channel of its own at the end of the waiter list |
| `Service.Service.Wait` | pkg/shim/service.go:251-268 | for a task or an exec: not found, the record of a stopped object, or a channel enlisted with the object it names |
| `Service.Service.Register` | pkg/shim/exec.go:49-88 | accepted exactly when the request is complete and supported, its task RUNNING and the name free; the error for the first check that fails, which changes nothing; else a new CREATED exec with the request's arguments and paths, found under its name |
| `Service.Service.StartExec` | pkg/shim/exec.go:94-117 | only a CREATED exec starts; its goroutine gets its task's sandbox and its own arguments and output paths |
| `Service.Service.DeleteExec` | pkg/shim/exec.go:188-204 | a running exec is refused and stays; any other is found no more and its record returned; not found exactly if the tables do not have it |
| `Service.Service.KillExec` | pkg/shim/exec.go:208-220 | not found for an unknown exec, unimplemented for a known one |
| `Service.Service.Create` | pkg/shim/service.go:95-156 | undisturbed: the errors in order, else the ID names a CREATED task of this instance and bundle, with nothing recorded yet, other IDs name what they did, and one event |
| `Service.Service.Kill` | pkg/shim/service.go:200-220 | undisturbed: the sandbox is stopped, the exit marked with the signal's code, and published if and only if it was the first |
| `Service.Service.Delete` | pkg/shim/service.go:225-249 | undisturbed: the sandbox is stopped, the ID free, the record returned and published is that of the exit, 0 and now unless it was marked before |

## Left out

- I/O and foreign calls: process spawning, the Cloud Hypervisor API, ttrpc, vsock, network namespaces and TAP devices, image packing. Where a modelled operation needs one it is a step that succeeds or fails as the environment chooses; a failed spawn is one that yields no process.
- REST, E2B, the command line, the Python SDK, and the loading of configuration, bundles and templates: wrappers. Shim Create's choice between restore and cold boot is inside its one succeed-or-fail build step.
- Sandboxes stopped behind the Manager's back: the shim and the E2B kill call `Stop` directly and the Manager keeps the entry. The fleet is about instances ended through the Manager, and the service about the task table; the two are not composed.
- Other drivers: the process driver has no pool; it behaves as a driver whose pool has target 0 and which does not restore.
- Identifiers: `NewID` is taken to yield fresh ones.
- `RegisterDriver`: all drivers are registered before a run begins.
- Wall clock: times are values the environment chooses. The three-second limit in `Instance.Stop` and `waitReady`, which returns success without a poll if its deadline has already passed, are not modelled; Stop always ends the process.
- JSON: abstract values with unbounded integers. The code decodes numbers as 64-bit floats, so the model is exact for integers in the range section 6 of RFC 8259 calls interoperable.
- The 64-bit request counter wraps in the model; that a request was handled only once is stated for fewer than 2^64 requests on one connection.
- Start publishes while it holds the lock; the model has the status change and the publication as one step, which no other thread can tell from two.
- Event payloads beyond the IDs, the exit record and the order: a create event also carries the bundle, and all carry a pid.
- Instance.Exec's writing of a command's output to the exec's output files: the agent's answer is modelled, and which paths the goroutine is handed, but not the files.
- Delivery of events: the log holds attempts to publish; whether containerd receives them is not modelled.
- Client and guest streams are sequences of whole messages; frames cut in half by a failure appear as messages lost or delivered, and the guest's directories and file modes beyond a new file's are not modelled.
- Instance.teardownNetwork and the agent's NetConfig handling: succeed-or-fail.
- Pids, Connect, Stats, Shutdown and the unimplemented task RPCs: they read at most whether an ID exists.
- Service.Service: concurrent callers of one object. Each method is one critical section and `Shim.dfy` interleaves them; the whole RPCs Create, Kill and Delete of the class are stated for the undisturbed case.
- Pool.VmmPool.RefillUndisturbed: stated for a pool nobody else touches meanwhile, which is when termination at the target is promised; `Fleet.dfy` interleaves its sections.
- Manager.Manager.Shutdown: stated for the undisturbed case; `FleetTheorems.ShutdownReaps` is the concurrent one.
- ShimEvents.EventLanguage: assumes that no exec of a task has the task's ID, as exit events could not be told apart.
- Snapshots.PrepareCloneSnapshot: into an overlay that has entries already, says which names and inodes may change but not what the overlay then reads as; the driver only clones into the directory of a fresh process.
- Clones.ConcurrentClones: a re-snapshot of a template while it is being cloned is not among the interleaved operations; `Snapshots.ResnapshotIsolation` orders it before or after each clone.
