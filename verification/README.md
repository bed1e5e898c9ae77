# CPCluster, verified model

CPCluster distributes small tasks: clients submit them to a *master*, the master assigns them to
*nodes* that have sent a heartbeat, nodes execute them and report results, masters exchange their
state with each other, and every master writes snapshots of itself to disk. This project models
that system in Dafny and proves what its steps keep and what whole runs guarantee.

`dafny verify dfyconfig.toml` checks everything.

## How the model is organised

* `Protocol`, `Regions` - messages, tasks, and the four collections of a master
  (`connected_nodes`, `available_ports`, `pending_tasks`, `completed_tasks`) with one function per
  critical section.
* `MasterNode` - the master as an object whose methods update these fields in place, one caller
  at a time: dispatch loop, reaper, merging, saving and loading, the arms of the request loop.
* `Machine` - the same critical sections taken apart. Every spawned task (connection handler,
  reaper, state save, peer sync, shell submission) is a thread with a program counter and its local
  variables; a step is one lock region, one read or one write. What the outside decides (clock,
  write success, message read, hash-map order) is part of the step's label. `Alone` shows that an
  undisturbed thread does what the method of `MasterNode` does.
* `PortLedger`, `PortTraffic`, `TaskLedger`, `Owners`, `Settling`, `Members`, `Coarse`, `Locks`,
  `Restart` - results about every run of the machine. `Witnesses` and `Mishaps` build concrete runs that show
  which of their conditions cannot be dropped.
* `Truth`, `Outbox`, `Cluster`, `Gossip` - the whole system: clients, nodes with their outbox, any
  number of masters that merge, save and restart, and a network that may lose, repeat and reorder.
* `Session`, `EndToEnd` - one client's stream and its handler, across calls that succeed or time
  out, then that talk placed inside a history of the whole system: the answer to a call is the
  execution of its own task. `Crossings` builds the talks in which it is not.
* `Client`, `NodeLoop` - the client's polling loop and the node's report and reconnect code as they
  run.
* `DiskStore`, `Quota` - the disk store used by one caller, then the accounting under concurrency.
* `Framing`, `Rpn` - length-prefixed framing and the stack machine of `eval_complex`. `Counting` holds
  facts about the sizes of sets.

## What the code does that its documentation does not say

* `docs/ROADMAP.md:19` promises that the tasks of a node that disconnects go back to the queue.
  Only the reaper does that. `TaskLedger.CleanExitLosesExactly` says when a clean exit loses a task,
  for good: exactly when the leaver's own entry is the only place that has it.
  `Settling.ExitLosesUnfinished` reduces this, in runs where tasks have one owner, to: no result on
  file and nobody filing one. `Mishaps.TaskIsLost` is a run in which every write succeeds and the
  task is lost. `TaskLedger.EveryTaskAccounted` proves that tasks are dropped in four ways only: a
  node entry overwritten by a new connection from its address, removed on `Disconnect`, removed at
  the end of the handler's loop, and an assignment written for a node without an entry.
* Taking back an assignment that could not be written is two critical sections, and between them
  the task is queued while its node still lists it. `Settling.ForksExactly` proves that a step makes
  a new claim on a task if and only if the reaper and such a handler both get hold of it: the
  assignment fails after the reaper took the node's entry, or the reaper takes the entry of a task
  that is queued as well or about to be. Runs without such a step keep one owner
  (`Settling.OneOwnerThroughFailures`), over any restarts (`Restart.OneOwnerInEveryLife`);
  `Mishaps.TwoOwners` is a run with one, and the task ends up active on two nodes.
* The client takes the first result it reads for its own, whatever id it carries. A call that times
  out may leave its last reply unread. One such reply is harmless: the next call reads it as its
  acknowledgement. With two, a call can return the result of an earlier one
  (`Crossings.ThirdCallGetsSecondResult`). `Session.AnswersBelongToTheirCalls` and
  `EndToEnd.AnswersAreRight` hold for calls that begin with at most one; `Crossings.OwnAnswersExactly`
  says that this is the exact limit.
* Importing another master's node table can turn a client into a worker, if the reaper has removed
  its entry and the other master lists it as one; it is then sent tasks between its replies
  (`Crossings.ClientIsSentTask`). No other import disturbs a client.
* The dispatcher locks the queue before the node table, snapshots and peer syncs lock the node table
  before the queue. `Locks.DeadlockExactly` proves when this deadlocks, `Witnesses.DeadlockIsReachable`
  reaches it with one worker and one state save, and `Locks.DeadlockIsForever` shows the master is
  then frozen.
* A port is given back only by `release_port`, which the reaper calls after it has removed the node:
  there it finds a port only if the address has connected again in the meantime.
  `PortLedger.LostBy` names the steps that lose a port. `docs/DEVELOPER_GUIDE.md` calls the ports a
  `HashSet`; they are a first-in first-out queue, and `PortTraffic.QuarantineIsExact` depends on it.
* Two replies carrying the same port need not have a release between them: the reaper can release the
  port of an address that has just connected again. `Witnesses.SamePortTwice` is such a run;
  `PortTraffic.NoReuseWithoutRelease` (between allocations) always holds, and
  `PortTraffic.ReleaseBetweenAnswers` says what holds for replies.
* The reaper collects the dead addresses first and removes them one by one. A connection from such an
  address that has only just joined is removed as well, heartbeats or not (`Members.FreshButRemoved`);
  a connection whose address was not on the list is safe while it keeps its heartbeats up
  (`Members.NeverReaped`).
* A connection has the role Worker until it announces another one, also when a node reconnects, which
  sends no `RegisterRole` (CPCluster_node/src/node.rs:305-360). `Members.EntryIsKnown` says which role
  the master goes by.
* The reaper's result depends on the order of a hash map exactly when two dead nodes list different
  tasks under one id (`MasterNode.ReapedIsUniqueExactly`).
* `k` concurrent `store` calls of `L` bytes each can leave `(k - 1) * L` bytes more on disk than the
  quota allows, all of them answered with Ok (`Quota.BoundIsReached`), and never more
  (`Quota.DiskWithinBound`). `Quota.QuotaHoldsExactly`: the quota is kept in every run if and only
  if stores do not overlap, or carry nothing, or the quota is 0. When the scan of the directory
  fails the counter starts at 0, and what was there comes on top of the bound.

## Model

| member | source | states |
|---|---|---|
| PortLedger.StepKeepsPorts | CPCluster_masterNode/src/lib.rs:184-356 | in any state, one step of any thread that is not importing another master's nodes keeps the number of copies of every port - queued, held by a node, in a thread's hands - except for the one port `LostBy` says it loses |
| PortLedger.PortLedger | CPCluster_masterNode/src/lib.rs:184-204 | in every merge-free run, for any number of interleaved handlers, the copies of a port plus its losses are what the run started with |
| PortLedger.EveryPortInOnePlace | CPCluster_masterNode/src/lib.rs:434-438 | after a fresh start every port of the configured range is in exactly one place or was lost once, and no other port exists |
| PortLedger.DisjointMeansAtMostOne | CPCluster_masterNode/src/state.rs:15-35 | counting at most one copy of every port is the same as: queue without repetition, no port both free and held, no port held by two nodes |
| PortLedger.PortsStayDisjoint | CPCluster_masterNode/src/lib.rs:184-204 | no port is ever free and held, or held twice, in a merge-free run that starts that way |
| PortTraffic.StepAndQueue | CPCluster_masterNode/src/lib.rs:184-204 | the port queue changes only by an allocation at its head or a release at its tail |
| PortTraffic.NoReuseWithoutRelease | CPCluster_masterNode/src/lib.rs:184-204 | between two allocations of a port some release has put it back |
| PortTraffic.QuarantineIsExact | CPCluster_masterNode/src/lib.rs:184-204 | a port released behind n queued ports is refused to the next n successful allocations and given to the one after |
| PortTraffic.ServingSince | CPCluster_masterNode/src/lib.rs:301-320 | every request being served with a port goes back to its own allocation of that port |
| PortTraffic.ReleasedUnderByReaper | CPCluster_masterNode/src/lib.rs:225-234 | a port released while a request is being served with it was taken by the reaper from that very client's entry |
| PortTraffic.ReleaseBetweenAnswers | CPCluster_masterNode/src/lib.rs:301-320 | a port told to two clients was released between the two `ConnectionInfo` replies, or the reaper took it from one of these clients' entries before its reply |
| Witnesses.SamePortTwice | CPCluster_masterNode/src/lib.rs:225-234 | a run in which two successive steps tell two clients about the same port, with no release between the replies |
| TaskLedger.StepKeepsTask | CPCluster_masterNode/src/lib.rs:112-178 | a task that is somewhere - queue, locals, node, result being filed, completed - is somewhere after any step, unless that step is one of those `DroppedBy` names |
| TaskLedger.EveryTaskAccounted | CPCluster_masterNode/src/lib.rs:112-401 | every id ever accepted is still accounted for or was dropped by a named step, in every run including failed writes and merges |
| TaskLedger.StepInventsNothing | CPCluster_masterNode/src/lib.rs:112-401 | an id without a trace in a master stays without one until someone outside names it |
| TaskLedger.ExitLosesExactly | CPCluster_masterNode/src/lib.rs:350-356 | a clean exit erases a task if and only if it is in the leaver's entry, not queued, not completed, not active at another address, and in no thread's hands |
| TaskLedger.CleanExitLosesExactly | CPCluster_masterNode/src/lib.rs:350-356 | in every run such a task is gone for good unless someone outside names it again; any other task survives the exit |
| Mishaps.TaskIsLost | CPCluster_masterNode/src/lib.rs:350-356 | a run without reaper, failed write or merge: an accepted task is assigned and written, the run ends with its worker's `Disconnect`, and the master has no trace of it |
| Owners.StepMakesNoCopies | CPCluster_masterNode/src/lib.rs:126-175 | a step that neither fails an assignment write nor imports tasks makes no new copy of a task, except for a submission |
| Owners.AtMostOneOwner | CPCluster_masterNode/src/lib.rs:126-232 | with distinct ids and no failed assignment write each task has at most one owner at every point: never on two nodes, never queued while running |
| Settling.ForksExactly | CPCluster_masterNode/src/lib.rs:160-232 | with failing writes and resubmitted ids, a step makes more claims on a task than it hands in if and only if it forks the task, a condition on the state before it |
| Settling.NoMoreClaimsThanSubmissions | CPCluster_masterNode/src/lib.rs:126-232 | in every run without such a step the claims on an id number at most its submissions |
| Settling.OneOwnerThroughFailures | CPCluster_masterNode/src/lib.rs:160-232 | with distinct ids no task is then ever active on two nodes |
| Settling.QueuedMeansUndone | CPCluster_masterNode/src/lib.rs:160-175 | and is queued while a node lists it only while that node's assignment is being taken back |
| Settling.WithoutFailuresNoForks | CPCluster_masterNode/src/lib.rs:160-175 | runs without failed assignment writes and with distinct ids have no such step |
| Mishaps.TwoOwners | CPCluster_masterNode/src/lib.rs:160-175 | a run with one submission in which the reaper does get hold of it, and the task ends up active on two nodes |
| Settling.ExitLosesUnfinished | CPCluster_masterNode/src/lib.rs:350-356 | in such runs a clean exit loses a task its node was working on if and only if no result is on file and no thread files, writes, queues or imports it |
| Members.EntryIsKnown | CPCluster_masterNode/src/lib.rs:255-366 | in every run, as long as the reaper has not removed it, the entry of a connection being served holds the time of its own last heartbeat (or of joining), whether it has sent one, and the role it announced last |
| Members.CollectedExactly | CPCluster_masterNode/src/lib.rs:213-224 | the reaper puts a connection being served on its list if and only if that connection's last sign of life is more than twice the timeout ago |
| Members.NeverReaped | CPCluster_masterNode/src/lib.rs:213-237 | in every run whose clock does not go back, a connection that at every collection has given a sign of life within twice the timeout is never removed by the reaper and stays in the table, if it was not on the list when it joined |
| Members.FreshButRemoved | CPCluster_masterNode/src/lib.rs:219-226 | a run in which it was on the list, and is removed at the very time it joined |
| Members.AssignedByKind | CPCluster_masterNode/src/lib.rs:104-160 | in every run a connection is handed TCP and UDP tasks if and only if the role it announced last is Internet, storage tasks if and only if it is Disk, no task before its first heartbeat and none targeted elsewhere |
| Coarse.OpKeepsOneActive | CPCluster_masterNode/src/lib.rs:124-177 | with one dispatch iteration, request or reaper pass as one step, no step puts a task on a second node, not even an iteration that finds its node gone |
| Coarse.NeverOnTwoNodes | CPCluster_masterNode/src/lib.rs:112-237 | at that grain no run does, even with failed writes and resubmitted ids |
| Locks.RunIsExclusive | CPCluster_masterNode/src/state.rs:57-69 | no two threads hold the same lock, including locks kept across several steps |
| Locks.EveryCycleHasAScan | CPCluster_masterNode/src/lib.rs:126-127 | every cycle of threads waiting for each other goes through a dispatcher in mid-scan |
| Locks.DeadlockExactly | CPCluster_masterNode/src/lib.rs:126-127 | all lock holders are stuck if and only if a dispatcher holding the queue meets a snapshot or sync holding the node table and waiting for the queue |
| Locks.DeadlockIsForever | CPCluster_masterNode/src/lib.rs:126-127 | such a deadlock lasts through every later state, with node table and queue unchanged |
| Witnesses.DeadlockIsReachable | CPCluster_masterNode/src/state.rs:57-69 | one worker and one state save reach it from an empty master |
| Locks.OthersLeaveItAlone | CPCluster_masterNode/src/lib.rs:32-38 | while a thread holds a lock nobody else changes what it protects |
| Locks.SnapshotsAreConsistent | CPCluster_masterNode/src/state.rs:57-73 | every snapshot written is the master's whole state at the instant its last lock was taken |
| Locks.PeerStatesAreConsistent | CPCluster_masterNode/src/lib.rs:32-38 | so is every state sent to a peer |
| Restart.PortsDisjointInEveryLife | CPCluster_masterNode/src/state.rs:46-55 | over any chain of restarts from any snapshot ports stay disjoint |
| Restart.OneOwnerInEveryLife | CPCluster_masterNode/src/state.rs:46-55 | over any chain of restarts from any snapshots, with failing writes and without a forking step, no task is ever active on two nodes |
| MasterNode.Master.constructor | CPCluster_masterNode/src/lib.rs:434-443 | a fresh master: empty maps, every configured port queued once in order |
| MasterNode.Start | CPCluster_masterNode/src/lib.rs:434-444 | a master starts with the state file it can read, or empty with every configured port queued |
| MasterNode.StartAgain | CPCluster_masterNode/src/state.rs:46-73 | saving and starting again gives back the very state, whatever ports are configured now |
| MasterNode.Master.LoadState | CPCluster_masterNode/src/state.rs:46-55 | a readable file replaces all four collections, anything else changes nothing |
| MasterNode.SyncPeers | CPCluster_masterNode/src/lib.rs:62-102 | one undisturbed sync: each master takes over what it lacks in all three maps, keeps its own value where both have one, and keeps its ports |
| MasterNode.Master.MergeState | CPCluster_masterNode/src/lib.rs:40-60 | the loops over a peer's entries insert exactly the missing ones |
| MasterNode.Master.Join | CPCluster_masterNode/src/lib.rs:255-265 | a connection that joins replaces any entry of its address by a fresh one: now, no port, no tasks, not a worker, role Worker |
| MasterNode.Master.AllocatePort | CPCluster_masterNode/src/lib.rs:184-193 | takes the head of the queue, or nothing |
| MasterNode.Master.ReleasePort | CPCluster_masterNode/src/lib.rs:195-204 | moves the node's port, if any, to the tail of the queue |
| MasterNode.Master.SendPendingTasks | CPCluster_masterNode/src/lib.rs:112-178 | terminates; TCP and UDP tasks go to Internet nodes, storage tasks to Disk nodes, the rest to Workers, targeted tasks to their target, nothing twice; on Ok every queued task the node may run is running somewhere; it fails only when a write does, which is the assignment left in the queue; one owner is kept |
| MasterNode.Master.DispatchNext | CPCluster_masterNode/src/lib.rs:125-175 | one iteration: nothing eligible and nothing changed, or an eligible task assigned and written, or its write failed and there is no trace |
| MasterNode.Master.AssignOne | CPCluster_masterNode/src/lib.rs:147-175 | assigns and writes, or the write fails and there is no trace |
| MasterNode.AssignmentsFit | CPCluster_masterNode/src/lib.rs:130-134 | everything the dispatcher sends is of the kind the node's role is for and has no other target, and nothing is sent twice |
| Protocol.RoleIsEquipment | CPCluster_node/src/node.rs:90-106 | a task is for the one role whose nodes set up what executing it uses: reserved ports, storage directory, or neither |
| MasterNode.UndoRestores | CPCluster_masterNode/src/lib.rs:160-174 | queueing a task again and taking it off the node restores the state before the search |
| MasterNode.Master.CleanupDeadNodes | CPCluster_masterNode/src/lib.rs:213-237 | an entry survives if and only if its last heartbeat is at most twice the timeout ago; the tasks of the others are queued without target as one of them had it, the rest is unchanged, from any state and for whatever order the map lists them |
| MasterNode.ReapedIsUniqueExactly | CPCluster_masterNode/src/lib.rs:219-232 | that description fixes the result, so the iteration order does not matter, if and only if the dead nodes agree on the tasks they list |
| MasterNode.OneOwnerAgrees | CPCluster_masterNode/src/lib.rs:219-232 | they agree in every state in which tasks have one owner |
| MasterNode.CleanupAfterRestart | CPCluster_masterNode/src/lib.rs:213-237 | after a restart, a cleanup later than every restored heartbeat plus twice the timeout queues every task that was running |
| MasterNode.Master.HandleRequest | CPCluster_masterNode/src/lib.rs:278-389 | the new state of every request, and its reply written - or refused by the stream, the only way other than `Disconnect` that the loop ends here |
| Alone.RequestAlone | CPCluster_masterNode/src/lib.rs:278-389 | a handler thread that is not disturbed does in several sections what `HandleRequest` does: same collections, same replies, and it goes on or ends alike |
| Alone.DispatchAlone | CPCluster_masterNode/src/lib.rs:124-175 | so does one dispatch iteration, whether its write succeeds or fails |
| Alone.ReaperAlone | CPCluster_masterNode/src/lib.rs:213-237 | an undisturbed reaper thread, from collecting to the end of its list, does what `CleanupDeadNodes` does |
| Alone.SyncAlone | CPCluster_masterNode/src/lib.rs:62-102 | the two threads of an undisturbed sync end where `SyncPeers` does |
| Truth.ActTrue | CPCluster_masterNode/src/lib.rs:112-401 | a step of any thread on right data and right input leaves right data and writes right output |
| Cluster.EventTrue | CPCluster_node/src/node.rs:166-182 | every event of the whole system keeps every queued, running, carried, filed, saved and transmitted entry right |
| Cluster.AnswersAreRight | CPCluster_masterNode/src/lib.rs:338-349 | any result ever written for an id is the execution of the task submitted under it, through requeues, repeated execution, resends, merges and restarts |
| Cluster.AssignmentsAreRight | CPCluster_masterNode/src/lib.rs:155-160 | any task a node is told to execute is the one submitted under that id |
| Cluster.CompletedAgrees | CPCluster_masterNode/src/lib.rs:371-387 | no two masters, at any two times, disagree about a result |
| Outbox.RunHonest | CPCluster_node/src/node.rs:166-182 | only executed results are kept or written, and a result leaves the outbox only after one for its id was written in full |
| Outbox.AtLeastOnce | CPCluster_node/src/node.rs:166-182 | every executed id has a result held, in the outbox, or fully written, whatever fails |
| Outbox.TheResultItself | CPCluster_node/src/node.rs:467-487 | with deterministic tasks it is that very result |
| Outbox.ResultCanBeLost | CPCluster_node/src/node.rs:467-487 | without determinism two loops executing one id can lose the second result |
| NodeLoop.NodeProcess.Report | CPCluster_node/src/node.rs:175-181 | the result is filed before the write, written once, and taken out of the outbox if and only if the write succeeded |
| NodeLoop.NodeProcess.Reconnect | CPCluster_node/src/node.rs:305-360 | dials the configured addresses in order, at most `max_retries + 1` times over, until one accepts; gives up only after all of them refused or one broke during authentication; then asks for the nodes, tries every outbox entry and leaves the outbox as it is |
| NodeLoop.ResendAll | CPCluster_node/src/node.rs:339-344 | every outbox entry is tried once, whatever fails |
| NodeLoop.EveryEntryTried | CPCluster_node/src/node.rs:339-344 | each id of the outbox has exactly one attempt, with its own message; without failures all are written |
| Gossip.MergeOnlyAdds | CPCluster_masterNode/src/lib.rs:40-60 | a merge changes no existing entry and adds exactly the others |
| Gossip.TwoWayMeets | CPCluster_masterNode/src/lib.rs:69-92 | an undisturbed two-way sync leaves equal key sets in all three maps, and equal contents exactly when they did not disagree before |
| Gossip.KnowledgeLasts | CPCluster_masterNode/src/lib.rs:53-58 | a master that is not restarted never forgets a result |
| Gossip.ResultsSpread | CPCluster_masterNode/src/lib.rs:62-102 | a result reaches every master joined to its holder by a time-ordered chain of transfers, whatever else happens |
| Session.StaysInStep | cpcluster_client/src/lib.rs:21-48 | at every point of every talk, across calls that succeed, time out or break, replies come in the order of the requests and the client is never taken for a worker |
| Session.OneReplyPerRequest | cpcluster_client/src/lib.rs:26-38 | between calls exactly the replies that timed-out calls left unread are still to come |
| Session.AheadIsUnread | cpcluster_client/src/lib.rs:21-38 | so a call begins with as many replies to come as calls before it timed out with their last reply unread |
| Session.AnswersBelongToTheirCalls | cpcluster_client/src/lib.rs:39-40 | each Ok of a call that began with at most one reply to come is a value the master had on file for that call's own id, although the client ignores the id in the reply |
| Crossings.ThirdCallGetsSecondResult | cpcluster_client/src/lib.rs:32-40 | a talk in which two calls time out and the third returns the second one's result |
| Crossings.OwnAnswersExactly | cpcluster_client/src/lib.rs:32-40 | calls that begin with at most k replies to come return their own results in every talk if and only if k <= 1 |
| Session.MadeWorkerExactly | CPCluster_masterNode/src/lib.rs:42-46 | a step of another thread makes a connected client a worker if and only if it imports a node table that lists the client as one while its own entry is gone |
| Crossings.ClientIsSentTask | CPCluster_masterNode/src/lib.rs:42-46 | a talk in which a reaped client that a peer lists as a worker is sent a task |
| Session.CallsWereBegun | cpcluster_client/src/lib.rs:21-26 | every call in progress or answered goes back to a `SubmitTask` with its id and task |
| EndToEnd.CallWasSubmitted | cpcluster_client/src/lib.rs:21-26 | within a history of the whole system the task of every answered call is the one submitted under its id |
| EndToEnd.AnswersAreRight | cpcluster_client/src/lib.rs:39-40 | every Ok of such a call is the result of executing the task of its own call, through requeues, repeated executions, resends, merges of this and other masters, and restarts elsewhere |
| Client.PollOnce | cpcluster_client/src/lib.rs:28-47 | one poll event by event: it ends without a result only at a failed write, a failed read or a deadline found over |
| Client.SubmitAndWait | cpcluster_client/src/lib.rs:11-49 | the whole call event by event: submission, acknowledgement, polls without a result, and at the end the first reply that has one, or a failure |
| Client.GivesUpExactly | cpcluster_client/src/lib.rs:21-48 | the call gives up if and only if a write failed, a read failed, or the deadline was over at one of the two places it looks |
| Client.AtMostOneUnread | cpcluster_client/src/lib.rs:21-48 | on Ok every request has been answered; a call that gives up leaves at most one reply unread |
| DiskStore.DirectorySize | CPCluster_node/src/disk_store.rs:58-76 | the work stack adds up the whole tree; 0 when nothing is there, a failure when something cannot be read as a directory |
| DiskStore.DiskStore.constructor | CPCluster_node/src/disk_store.rs:14-22 | the counter starts at the size of the tree, 0 when the scan fails; it covers the files if and only if the scan succeeded or there are no bytes in them |
| DiskStore.DiskStore.Store | CPCluster_node/src/disk_store.rs:24-36 | acknowledged if and only if the write succeeds and the counter, less what it holds for the replaced file, plus the new length stays within the quota; a refusal changes nothing; bytes stored stay within the counter and the counter within the quota |
| DiskStore.ExecuteAll | CPCluster_node/src/lib.rs:157-180 | over any sequence of data tasks each retrieval answers with the very bytes of the last acknowledged store under its key, or an error if there is none, whatever was refused, failed or stored elsewhere in between; the quota is kept; replacing a file by one that is not longer is never refused |
| DiskStore.DiskStore.Stats | CPCluster_node/src/disk_store.rs:43-55 | every file once with its size; stored bytes and free space fit the quota |
| Quota.UsageCoversDisk | CPCluster_node/src/disk_store.rs:24-36 | under any interleaving the counter, unpaid increments and what a failed scan missed cover the largest size every file ever had, hence the bytes stored |
| Quota.StoreAlone | CPCluster_node/src/disk_store.rs:24-36 | the four steps of a store that nobody disturbs do what `DiskStore.Store` does |
| Quota.ReplacementIsAdmitted | CPCluster_node/src/disk_store.rs:26-32 | under any interleaving, while the counter is within the quota, a store is never refused for replacing a file at least as long |
| Quota.ConcurrentQuota | CPCluster_node/src/disk_store.rs:26-35 | with k stores in progress of at most L bytes the counter and all admitted increments stay within quota + (k - 1) * min(L, quota) |
| Quota.DiskWithinBound | CPCluster_node/src/disk_store.rs:26-35 | so do the bytes on disk, up to what a failed scan missed |
| Quota.BoundIsReached | CPCluster_node/src/disk_store.rs:26-35 | for every k, every L within the quota and any amount missed, a run in which k stores under different names all return Ok and leave exactly that many bytes on disk |
| Quota.QuotaHoldsExactly | CPCluster_node/src/disk_store.rs:26-35 | every run within the limits keeps the quota if and only if k <= 1 or L = 0 or the quota is 0 |
| Framing.FrameRoundTrip | cpcluster_common/src/lib.rs:94-120 | a frame is read back as written if and only if its message is shorter than 2^32 bytes |
| Framing.StreamRoundTrip | cpcluster_common/src/lib.rs:94-120 | reading concatenated writes gives exactly the messages, in order |
| Framing.StreamIsInjective | cpcluster_common/src/lib.rs:94-105 | different message sequences give different streams |
| Framing.ReadAllInverts | cpcluster_common/src/lib.rs:108-120 | whatever bytes arrive, what is read was written by some sequence of messages, and the rest is no frame |
| Framing.CutStream | cpcluster_common/src/lib.rs:108-120 | a stream cut anywhere yields precisely the messages that arrived whole |
| Framing.WriteLengthPrefixed | cpcluster_common/src/lib.rs:94-105 | the length, most significant byte first, then the message; or, if and only if a write fails, a proper beginning of that |
| Framing.ReadLengthPrefixed | cpcluster_common/src/lib.rs:108-120 | takes the big-endian length and exactly that many bytes off the stream, or fails if and only if there are not that many |
| Framing.MostSignificantFirst | cpcluster_common/src/lib.rs:101-102 | the prefix read with its most significant byte first is the length modulo 2^32 |
| Framing.PrefixesSort | cpcluster_common/src/lib.rs:101-102 | prefixes are in dictionary order as the lengths are in numeric order |
| Rpn.EvalComplex | CPCluster_node/src/lib.rs:21-56 | the loop with its early returns computes `Eval`, whose meaning is given by the rows below |
| Rpn.PostfixPushesValue | CPCluster_node/src/lib.rs:22-55 | the postfix form of an expression pushes exactly its value - sums, differences and so on of its operands' values, left operand first - above any stack |
| Rpn.PostfixEvaluates | CPCluster_node/src/lib.rs:21-56 | evaluating the postfix form of an expression gives its value |
| Rpn.AcceptsExactly | CPCluster_node/src/lib.rs:22-55 | the machine accepts exactly the concatenations of postfix forms, and its stack then holds their values |
| Rpn.AnswersExactly | CPCluster_node/src/lib.rs:22-55 | the answer is Ok(v) if and only if the tokens are one or more postfix forms and v is the value of the last |
| Rpn.UnderflowExactly | CPCluster_node/src/lib.rs:32-46 | underflow is reported if and only if an operator lacks operands and no earlier token causes an error |
| Rpn.ErrorsExactly | CPCluster_node/src/lib.rs:27-55 | which error is reported: that of the first token that causes one, and no result if and only if there are no tokens |

## Left out

- TLS, sockets, certificates, DNS, HTTP, TCP and UDP tasks: foreign calls. A stream is a sequence of whole messages, or of bytes in `Framing`, whose writes may fail.
- A frame read cancelled half-way inside `tokio::select!` (CPCluster_node/src/node.rs:116-126): frame reads are atomic.
- JSON encoding and floating-point text: messages are values, and `Rpn` works over any arithmetic.
- The tokenizer and the shunting-yard of meval, and the execution of tasks: executing a task is a parameter, deterministic where a statement says so.
- The shell, apart from submitting a task with a target; in particular its removal of its own results from `completed_tasks`.
- `Task::DiskWrite` and `Task::DiskRead`: they bypass the store's accounting.
- Which of several snapshots ends up in the state file: any snapshot ever written may be the one loaded.
- Two connections being served are assumed to have different remote addresses; the master checks nothing of the kind. An old handler may in fact outlive its socket while the address is used again, and what the two then do to each other's entry is not modelled. `TaskLedger.RunKeepsDistinct` only carries this assumption through a run.
- Time is a parameter of the step that reads the clock; the widths of `u64` counters and of `failover_timeout_ms * 2` are not modelled.
- A handler that writes part of a reply and then fails: the other end reads no message from it (`Framing.CutStream`).
- MemoryStore, command line, configuration defaults, logging, token generation, `is_local_ip`: thin.
- Owners.AtMostOneOwner: assumes no assignment write fails; `Settling.OneOwnerThroughFailures` does not.
- EndToEnd.AnswersAreRight: two provisos, both shown necessary by `Crossings`: at most one reply left unread when the call begins, and no import that makes this client a worker.
- A read that the client's timeout cancels in the middle of a frame (cpcluster_client/src/lib.rs:36): frame reads are atomic.
- Members.NeverReaped: two provisos: a clock that does not go back (the program reads the wall clock), and an address the reaper has not listed when the connection joins, which `Members.FreshButRemoved` shows necessary.
- PortTraffic.ReleaseBetweenAnswers: the two cases do not exclude each other.
- Quota.ConcurrentQuota: whole-file writes that succeed or change nothing, plain file names, nothing else writing to the directory.
