/** The master as the program writes it: an object with four collections that its methods update
    in place. Here each method runs with no other task interleaved; `Machine` takes the same
    critical sections apart. */
module MasterNode {
  import opened Protocol
  import opened Regions
  import opened Machine
  import opened Owners
  import opened Gossip

  // ---------- dispatch ----------

  /** One assignment: out of the queue, into the node's active tasks. */
  function Assign(sh: Shared, addr: Addr, id: Id): Shared {
    if id in sh.pending then RecordActive(RemovePending(sh, id), addr, id, sh.pending[id].task) else sh
  }

  function AssignAll(sh: Shared, addr: Addr, ids: seq<Id>): Shared {
    if ids == [] then sh else Assign(AssignAll(sh, addr, ids[..|ids| - 1]), addr, ids[|ids| - 1])
  }

  /** Every id satisfies the dispatcher's condition when its turn comes. */
  predicate EligibleInTurn(sh: Shared, addr: Addr, role: NodeRole, ids: seq<Id>) {
    forall k :: 0 <= k < |ids| ==> Eligible(AssignAll(sh, addr, ids[..k]), addr, role, ids[k])
  }

  function Assignments(sh: Shared, ids: seq<Id>): seq<NodeMessage> {
    if ids == [] then []
    else
      var id := ids[|ids| - 1];
      Assignments(sh, ids[..|ids| - 1]) + [AssignTask(id, if id in sh.pending then sh.pending[id].task else GetStorage)]
  }

  lemma {:induction false} QueueShrinks(sh: Shared, addr: Addr, ids: seq<Id>, id: Id)
    ensures id in AssignAll(sh, addr, ids).pending ==>
              id in sh.pending && AssignAll(sh, addr, ids).pending[id] == sh.pending[id]
    ensures AssignAll(sh, addr, ids).nodes.Keys == sh.nodes.Keys
  {
    if ids != [] {
      QueueShrinks(sh, addr, ids[..|ids| - 1], id);
    }
  }

  /** Connections go to Internet nodes only, files to Disk nodes only, everything else to Workers; a
      targeted task goes to its target only. */
  predicate MayRun(pt: PendingTask, addr: Addr, role: NodeRole) {
    && (pt.target == None || pt.target == Some(addr))
    && (role == Internet <==> pt.task.Tcp? || pt.task.Udp?)
    && (role == Disk <==> pt.task.GetStorage? || pt.task.DiskWrite? || pt.task.DiskRead?)
  }

  /** Whatever the dispatcher sends fits the node, and nothing is sent twice. */
  lemma AssignmentsFit(sh: Shared, addr: Addr, role: NodeRole, ids: seq<Id>)
    requires EligibleInTurn(sh, addr, role, ids)
    ensures forall k :: 0 <= k < |ids| ==> ids[k] in sh.pending && MayRun(sh.pending[ids[k]], addr, role)
    ensures forall j, k :: 0 <= j < k < |ids| ==> ids[j] != ids[k]
  {
    forall k | 0 <= k < |ids|
      ensures ids[k] in sh.pending && MayRun(sh.pending[ids[k]], addr, role)
    {
      assert Eligible(AssignAll(sh, addr, ids[..k]), addr, role, ids[k]);
      QueueShrinks(sh, addr, ids[..k], ids[k]);
    }
    forall j, k | 0 <= j < k < |ids| ensures ids[j] != ids[k] {
      assert Eligible(AssignAll(sh, addr, ids[..k]), addr, role, ids[k]);
      StaysOut(sh, addr, ids[..k], j);
    }
  }

  /** The dispatcher stops when every queued task the node could run is running somewhere. */
  lemma NothingLeft(sh: Shared, addr: Addr, role: NodeRole)
    requires forall id :: id in sh.pending ==> !Eligible(sh, addr, role, id)
    ensures forall id :: id in sh.pending && MayRun(sh.pending[id], addr, role) ==>
              exists a :: a in sh.nodes && id in sh.nodes[a].activeTasks
  {
    forall id | id in sh.pending && MayRun(sh.pending[id], addr, role)
      ensures exists a :: a in sh.nodes && id in sh.nodes[a].activeTasks
    {
      assert !Eligible(sh, addr, role, id);
      assert IsActive(sh, id);
    }
  }

  lemma {:induction false} StaysOut(sh: Shared, addr: Addr, ids: seq<Id>, j: nat)
    requires j < |ids|
    ensures ids[j] !in AssignAll(sh, addr, ids).pending
  {
    if j < |ids| - 1 {
      StaysOut(sh, addr, ids[..|ids| - 1], j);
    }
  }

  lemma AssignKeepsOneActive(sh: Shared, addr: Addr, role: NodeRole, id: Id)
    requires Eligible(sh, addr, role, id) && OneActive(sh)
    ensures OneActive(Assign(sh, addr, id))
  {
    var sh' := Assign(sh, addr, id);
    forall a, b, i | i in ActiveAt(sh', a) && i in ActiveAt(sh', b) ensures a == b {
      if i == id {
        assert id !in ActiveAt(sh, a) && id !in ActiveAt(sh, b);
      } else {
        assert i in ActiveAt(sh, a) && i in ActiveAt(sh, b);
      }
    }
  }

  /** Taking back an assignment that could not be written leaves no trace. */
  lemma UndoRestores(sh: Shared, addr: Addr, role: NodeRole, id: Id)
    requires Eligible(sh, addr, role, id)
    ensures DropActive(Enqueue(Assign(sh, addr, id), id, sh.pending[id]), addr, id) == sh
  {
    var sh' := DropActive(Enqueue(Assign(sh, addr, id), id, sh.pending[id]), addr, id);
    assert sh'.pending == sh.pending;
    if addr in sh.nodes {
      assert id !in sh.nodes[addr].activeTasks;
      assert sh'.nodes[addr].activeTasks == sh.nodes[addr].activeTasks;
    }
    assert sh'.nodes == sh.nodes;
  }

  /** From `start` the dispatcher has assigned `ids`, each eligible in its turn, and reached `now`. */
  ghost predicate Dispatched(start: Shared, sent: seq<NodeMessage>, addr: Addr, role: NodeRole, ids: seq<Id>,
                             now: Shared, sentNow: seq<NodeMessage>) {
    && EligibleInTurn(start, addr, role, ids)
    && now == AssignAll(start, addr, ids)
    && sentNow == sent + Assignments(start, ids)
  }

  lemma DispatchedMeans(start: Shared, sent: seq<NodeMessage>, addr: Addr, role: NodeRole, ids: seq<Id>,
                        now: Shared, sentNow: seq<NodeMessage>)
    requires Dispatched(start, sent, addr, role, ids, now, sentNow)
    ensures EligibleInTurn(start, addr, role, ids)
    ensures now == AssignAll(start, addr, ids) && sentNow == sent + Assignments(start, ids)
  {
  }

  lemma DispatchOneMore(start: Shared, sent: seq<NodeMessage>, addr: Addr, role: NodeRole, ids: seq<Id>,
                        now: Shared, sentNow: seq<NodeMessage>, id: Id)
    requires Dispatched(start, sent, addr, role, ids, now, sentNow) && Eligible(now, addr, role, id)
    ensures Dispatched(start, sent, addr, role, ids + [id], Assign(now, addr, id),
                       sentNow + [AssignTask(id, now.pending[id].task)])
  {
    QueueShrinks(start, addr, ids, id);
    AddOne(start, addr, role, ids, id);
  }

  // ---------- reaping ----------

  ghost predicate ActiveIn(sh: Shared, gone: set<Addr>, id: Id) {
    exists a :: a in gone && id in ActiveAt(sh, a)
  }

  /** `sh'` is `sh` after the nodes in `gone` were reaped: their tasks are queued without target,
      everything else is as it was. */
  ghost predicate IsReaped(sh: Shared, sh': Shared, gone: set<Addr>) {
    && sh'.nodes == sh.nodes - gone
    && sh'.ports == sh.ports && sh'.completed == sh.completed
    && PendingReaped(sh, sh'.pending, gone)
  }

  /** A task several of these nodes were running is queued as one of them had it. */
  ghost predicate PendingReaped(sh: Shared, pending: map<Id, PendingTask>, gone: set<Addr>) {
    && (forall id :: id in pending <==> id in sh.pending || ActiveIn(sh, gone, id))
    && (forall id :: id in pending && ActiveIn(sh, gone, id) ==> FromOneOf(sh, gone, id, pending[id]))
    && (forall id :: id in sh.pending && id in pending && !ActiveIn(sh, gone, id) ==> pending[id] == sh.pending[id])
  }

  ghost predicate FromOneOf(sh: Shared, gone: set<Addr>, id: Id, pt: PendingTask) {
    exists a :: a in gone && id in ActiveAt(sh, a) && pt == PendingTask(ActiveAt(sh, a)[id], None)
  }

  /** Nodes running the same id run the same task: so it is when every task has one owner, and when
      ids are never used twice. */
  ghost predicate TasksAgree(sh: Shared, gone: set<Addr>) {
    forall a, b, id :: a in gone && b in gone && id in ActiveAt(sh, a) && id in ActiveAt(sh, b) ==>
      ActiveAt(sh, a)[id] == ActiveAt(sh, b)[id]
  }

  lemma OneOwnerAgrees(sh: Shared, gone: set<Addr>)
    requires OneActive(sh)
    ensures TasksAgree(sh, gone)
  {
    forall a, b, id | a in gone && b in gone && id in ActiveAt(sh, a) && id in ActiveAt(sh, b)
      ensures ActiveAt(sh, a)[id] == ActiveAt(sh, b)[id]
    {
      assert a == b;
    }
  }

  lemma SameTask(sh: Shared, gone: set<Addr>, id: Id, x: PendingTask, y: PendingTask)
    requires TasksAgree(sh, gone) && FromOneOf(sh, gone, id, x) && FromOneOf(sh, gone, id, y)
    ensures x == y
  {
  }

  lemma AgreeingReapIsUnique(sh: Shared, x: Shared, y: Shared, gone: set<Addr>)
    requires TasksAgree(sh, gone) && IsReaped(sh, x, gone) && IsReaped(sh, y, gone)
    ensures x == y
  {
    hide FromOneOf, TasksAgree, ActiveIn;
    assert x.pending.Keys == y.pending.Keys;
    forall id | id in x.pending ensures x.pending[id] == y.pending[id] {
      if ActiveIn(sh, gone, id) {
        SameTask(sh, gone, id, x.pending[id], y.pending[id]);
      }
    }
    assert x.pending == y.pending;
  }

  ghost function RunIn(sh: Shared, gone: set<Addr>): set<Id> {
    set a, id | a in gone && id in ActiveAt(sh, a) :: id
  }

  ghost function Requeued(sh: Shared, gone: set<Addr>, id: Id): (pt: PendingTask)
    requires ActiveIn(sh, gone, id)
    ensures FromOneOf(sh, gone, id, pt)
  {
    var a :| a in gone && id in ActiveAt(sh, a);
    PendingTask(ActiveAt(sh, a)[id], None)
  }

  lemma SomeReap(sh: Shared, gone: set<Addr>) returns (x: Shared)
    ensures IsReaped(sh, x, gone)
  {
    hide FromOneOf;
    var queue := map id | id in sh.pending.Keys + RunIn(sh, gone) ::
      if ActiveIn(sh, gone, id) then Requeued(sh, gone, id) else sh.pending[id];
    x := Shared(sh.nodes - gone, sh.ports, queue, sh.completed);
  }

  /** Any of the reaped nodes may have the last word on a task. */
  lemma LastWord(sh: Shared, x: Shared, gone: set<Addr>, a: Addr, id: Id)
    requires IsReaped(sh, x, gone) && a in gone && id in ActiveAt(sh, a)
    ensures IsReaped(sh, x.(pending := x.pending[id := PendingTask(ActiveAt(sh, a)[id], None)]), gone)
  {
    var pt := PendingTask(ActiveAt(sh, a)[id], None);
    assert FromOneOf(sh, gone, id, pt) && ActiveIn(sh, gone, id);
    hide FromOneOf, ActiveIn;
  }

  /** The order in which the hash map lists the nodes does not matter if and only if the reaped
      nodes agree on the tasks they were running. */
  lemma ReapedIsUniqueExactly(sh: Shared, gone: set<Addr>)
    ensures (forall x, y :: IsReaped(sh, x, gone) && IsReaped(sh, y, gone) ==> x == y) <==> TasksAgree(sh, gone)
  {
    if TasksAgree(sh, gone) {
      forall x, y | IsReaped(sh, x, gone) && IsReaped(sh, y, gone) ensures x == y {
        AgreeingReapIsUnique(sh, x, y, gone);
      }
    } else {
      var a, b, id :| a in gone && b in gone && id in ActiveAt(sh, a) && id in ActiveAt(sh, b)
                      && ActiveAt(sh, a)[id] != ActiveAt(sh, b)[id];
      hide IsReaped;
      var some := SomeReap(sh, gone);
      LastWord(sh, some, gone, a, id);
      LastWord(sh, some, gone, b, id);
      var x := some.(pending := some.pending[id := PendingTask(ActiveAt(sh, a)[id], None)]);
      var y := some.(pending := some.pending[id := PendingTask(ActiveAt(sh, b)[id], None)]);
      assert x.pending[id] != y.pending[id];
    }
  }

  lemma NothingReaped(sh: Shared)
    ensures IsReaped(sh, sh, {})
  {
    assert sh.nodes - {} == sh.nodes;
  }

  lemma OneMoreGone(sh: Shared, gone: set<Addr>, addr: Addr, id: Id)
    ensures ActiveIn(sh, gone + {addr}, id) <==> ActiveIn(sh, gone, id) || id in ActiveAt(sh, addr)
  {
    if id in ActiveAt(sh, addr) {
      assert addr in gone + {addr};
    }
    if a :| a in gone && id in ActiveAt(sh, a) {
      assert a in gone + {addr};
    }
  }

  lemma StillFromOneOf(sh: Shared, gone: set<Addr>, addr: Addr, id: Id, pt: PendingTask)
    requires FromOneOf(sh, gone, id, pt)
    ensures FromOneOf(sh, gone + {addr}, id, pt)
  {
    var a :| a in gone && id in ActiveAt(sh, a) && pt == PendingTask(ActiveAt(sh, a)[id], None);
    assert a in gone + {addr};
  }

  lemma ReapOneMore(sh: Shared, pending: map<Id, PendingTask>, gone: set<Addr>, addr: Addr)
    requires PendingReaped(sh, pending, gone)
    ensures PendingReaped(sh, pending + Untargeted(ActiveAt(sh, addr)), gone + {addr})
  {
    var y := pending + Untargeted(ActiveAt(sh, addr));
    forall id
      ensures id in y <==> id in sh.pending || ActiveIn(sh, gone + {addr}, id)
      ensures id in sh.pending && id in y && !ActiveIn(sh, gone + {addr}, id) ==> y[id] == sh.pending[id]
      ensures id in y && ActiveIn(sh, gone + {addr}, id) ==> FromOneOf(sh, gone + {addr}, id, y[id])
    {
      OneMoreGone(sh, gone, addr, id);
      hide ActiveIn;
      if id in ActiveAt(sh, addr) {
        assert addr in gone + {addr} && FromOneOf(sh, gone + {addr}, id, PendingTask(ActiveAt(sh, addr)[id], None));
      } else if ActiveIn(sh, gone, id) {
        hide FromOneOf;
        StillFromOneOf(sh, gone, addr, id, pending[id]);
      }
    }
  }

  /** A restart followed by a late enough cleanup: every task that was running when the snapshot
      was taken is waiting in the queue again, and no node is left. */
  lemma CleanupAfterRestart(snapshot: Shared, sh': Shared, now: nat, timeout: nat)
    requires forall a :: a in snapshot.nodes ==> now > snapshot.nodes[a].lastHeartbeat + timeout * 2
    requires IsReaped(snapshot, sh', StaleNodes(snapshot, now, timeout))
    ensures sh'.nodes == map[]
    ensures forall a, id :: a in snapshot.nodes && id in snapshot.nodes[a].activeTasks ==> id in sh'.pending
  {
    assert StaleNodes(snapshot, now, timeout) == snapshot.nodes.Keys;
    forall a, id | a in snapshot.nodes && id in snapshot.nodes[a].activeTasks ensures id in sh'.pending {
      assert id in ActiveAt(snapshot, a) && a in StaleNodes(snapshot, now, timeout);
    }
  }

  // ---------- the class ----------

  /** The master's end of a connection; a write may fail. Both what was written and what could not be
      written are recorded. */
  class Socket {
    var sent: seq<NodeMessage>
    var refused: seq<NodeMessage>

    constructor ()
      ensures sent == [] && refused == []
    {
      sent, refused := [], [];
    }

    method Write(m: NodeMessage) returns (ok: bool)
      modifies this
      ensures sent == if ok then old(sent) + [m] else old(sent)
      ensures refused == if ok then old(refused) else old(refused) + [m]
    {
      ok := *;
      if ok {
        sent := sent + [m];
      } else {
        refused := refused + [m];
      }
    }
  }

  /** `release_port` run alone. */
  function Released(sh: Shared, addr: Addr): Shared {
    var p := PortOf(sh, addr);
    if p.Some? then PushPort(ClearPort(sh, addr), p.value) else sh
  }

  /** What handling one request leaves behind. */
  function Handled(sh: Shared, addr: Addr, m: NodeMessage, now: nat): Shared {
    match m
    case RegisterRole(role) => SetRole(sh, addr, role)
    case RequestConnection(_) => if sh.ports == [] then sh else StorePort(PopPort(sh), addr, sh.ports[0])
    case SubmitTask(id, task) => Enqueue(sh, id, PendingTask(task, None))
    case Disconnect => RemoveNode(Released(sh, addr), addr)
    case Heartbeat => Beat(sh, addr, now)
    case ResultOf(id, result) => Complete(RemovePending(DropActive(sh, addr, id), id), id, result)
    case _ => sh
  }

  /** `info` in place of an entry that is there. */
  function Updated(nodes: map<Addr, NodeInfo>, addr: Addr, info: NodeInfo): map<Addr, NodeInfo> {
    if addr in nodes then nodes[addr := info] else nodes
  }

  /** The same collection by collection, entry by entry: the node's own entry is all that changes in
      the table, the last result counts, a port goes out at the head of the queue and comes back at
      its tail. */
  predicate LeavesBehind(sh: Shared, addr: Addr, m: NodeMessage, now: nat, sh': Shared) {
    var info := if addr in sh.nodes then sh.nodes[addr] else NodeInfo(addr, 0, None, map[], false, Worker);
    match m
    case RegisterRole(role) => sh' == sh.(nodes := Updated(sh.nodes, addr, info.(role := role)))
    case RequestConnection(_) =>
      if sh.ports == [] then sh' == sh
      else sh' == sh.(ports := sh.ports[1..], nodes := Updated(sh.nodes, addr, info.(port := Some(sh.ports[0]))))
    case SubmitTask(id, task) => sh' == sh.(pending := sh.pending[id := PendingTask(task, None)])
    case Disconnect =>
      sh' == sh.(nodes := sh.nodes - {addr}, ports := sh.ports + (if info.port.Some? then [info.port.value] else []))
    case Heartbeat => sh' == sh.(nodes := Updated(sh.nodes, addr, info.(lastHeartbeat := now, isWorker := true)))
    case ResultOf(id, result) =>
      && sh'.completed == sh.completed[id := result] && sh'.pending == sh.pending - {id} && sh'.ports == sh.ports
      && sh'.nodes == Updated(sh.nodes, addr, info.(activeTasks := info.activeTasks - {id}))
    case _ => sh' == sh
  }

  lemma HandledExactly(sh: Shared, addr: Addr, m: NodeMessage, now: nat)
    ensures LeavesBehind(sh, addr, m, now, Handled(sh, addr, m, now))
  {
    if m.Disconnect? {
      assert Released(sh, addr).nodes - {addr} == sh.nodes - {addr};
    }
  }

  /** What is written in reply, if the write succeeds; `names` is the order in which the hash map
      lists its keys. */
  function Answer(sh: Shared, m: NodeMessage, names: seq<Addr>): seq<NodeMessage> {
    match m
    case GetConnectedNodes => [ConnectedNodes(names)]
    case RequestConnection(target) =>
      if sh.ports != [] && target in sh.nodes then [ConnectionInfo(sh.nodes[target].addr, sh.ports[0])] else []
    case SubmitTask(id, _) => [TaskAccepted(id)]
    case GetTaskResult(id) => [if id in sh.completed then ResultOf(id, sh.completed[id]) else DirectMessage("Pending")]
    case Heartbeat => [HeartbeatAck]
    case _ => []
  }

  class Master {
    var connectedNodes: map<Addr, NodeInfo>
    var availablePorts: seq<Port>
    var pendingTasks: map<Id, PendingTask>
    var completedTasks: map<Id, TaskResult>
    const failoverTimeoutMs: nat

    function View(): Shared
      reads this
    {
      Shared(connectedNodes, availablePorts, pendingTasks, completedTasks)
    }

    constructor (minPort: Port, maxPort: Port, timeoutMs: nat)
      ensures IsFreshStart(View(), minPort, maxPort) && failoverTimeoutMs == timeoutMs
    {
      connectedNodes, pendingTasks, completedTasks := map[], map[], map[];
      availablePorts :=
        if minPort <= maxPort then
          seq(maxPort - minPort + 1, i requires 0 <= i <= maxPort - minPort => (minPort + i) as Port)
        else [];
      failoverTimeoutMs := timeoutMs;
    }

    method SaveState() returns (file: Shared)
      ensures file == View()
    {
      file := Shared(connectedNodes, availablePorts, pendingTasks, completedTasks);
    }

    /** A file that is missing or cannot be parsed changes nothing. */
    method LoadState(file: Option<Shared>)
      modifies this
      ensures View() == if file.Some? then file.value else old(View())
    {
      if file.Some? {
        connectedNodes := file.value.nodes;
        availablePorts := file.value.ports;
        pendingTasks := file.value.pending;
        completedTasks := file.value.completed;
      }
    }

    method CollectState() returns (ps: PeerState)
      ensures ps == Collected(View())
    {
      ps := PeerState(connectedNodes, pendingTasks, completedTasks);
    }

    method MergeState(ps: PeerState)
      modifies this
      ensures View() == Merged(old(View()), ps)
    {
      connectedNodes := OrInsertAll(connectedNodes, ps.nodes);
      pendingTasks := OrInsertAll(pendingTasks, ps.pending);
      completedTasks := OrInsertAll(completedTasks, ps.completed);
    }

    /** A connection that has given the right token gets a fresh entry, whatever was there before. */
    method Join(addr: Addr, now: nat)
      modifies this`connectedNodes
      ensures connectedNodes == old(connectedNodes)[addr := NodeInfo(addr, now, None, map[], false, Worker)]
      ensures View() == Register(old(View()), addr, now)
    {
      connectedNodes := connectedNodes[addr := NodeInfo(addr, now, None, map[], false, Worker)];
    }

    method AllocatePort() returns (p: Option<Port>)
      modifies this`availablePorts
      ensures View() == PopPort(old(View()))
      ensures p == if old(availablePorts) == [] then None else Some(old(availablePorts)[0])
    {
      if availablePorts == [] {
        return None;
      }
      p := Some(availablePorts[0]);
      availablePorts := availablePorts[1..];
    }

    method ReleasePort(addr: Addr)
      modifies this`connectedNodes, this`availablePorts
      ensures View() == Released(old(View()), addr)
    {
      if addr in connectedNodes && connectedNodes[addr].port.Some? {
        var p := connectedNodes[addr].port.value;
        connectedNodes := connectedNodes[addr := connectedNodes[addr].(port := None)];
        availablePorts := availablePorts + [p];
      }
    }

    /** The dispatch loop, for a node that has sent a heartbeat. It ends because the queue shrinks. On
        success every queued task the node could run is running somewhere; it fails only when a write
        does, and then the state is the one after the last successful assignment. */
    method SendPendingTasks(socket: Socket, addr: Addr) returns (ok: bool, ghost ids: seq<Id>)
      modifies this`connectedNodes, this`pendingTasks, socket
      ensures !(addr in old(connectedNodes) && old(connectedNodes)[addr].isWorker) ==> ok && ids == []
      ensures forall k :: 0 <= k < |ids| && addr in old(connectedNodes) ==>
                && ids[k] in old(pendingTasks)
                && MayRun(old(pendingTasks)[ids[k]], addr, old(connectedNodes)[addr].role)
      ensures forall j, k :: 0 <= j < k < |ids| ==> ids[j] != ids[k]
      ensures ok && addr in old(connectedNodes) && old(connectedNodes)[addr].isWorker ==>
                forall id :: id in pendingTasks && MayRun(pendingTasks[id], addr, old(connectedNodes)[addr].role) ==>
                  exists a :: a in connectedNodes && id in connectedNodes[a].activeTasks
      ensures View() == AssignAll(old(View()), addr, ids)
      ensures socket.sent == old(socket.sent) + Assignments(old(View()), ids)
      ensures ok ==> socket.refused == old(socket.refused)
      ensures !ok ==> exists id :: id in pendingTasks &&
                        socket.refused == old(socket.refused) + [AssignTask(id, pendingTasks[id].task)]
      ensures old(OneActive(View())) ==> OneActive(View())
    {
      ids := [];
      if !(addr in connectedNodes && connectedNodes[addr].isWorker) {
        return true, [];
      }
      var role := connectedNodes[addr].role;
      ghost var start, sent := View(), socket.sent;
      assert Dispatched(start, sent, addr, role, ids, View(), socket.sent);
      hide OneActive, Eligible, EligibleInTurn, Assign, Dispatched, MayRun;
      while true
        invariant Dispatched(start, sent, addr, role, ids, View(), socket.sent)
        invariant socket.refused == old(socket.refused)
        invariant OneActive(start) ==> OneActive(View())
        decreases |pendingTasks|
      {
        ghost var before, sentBefore := View(), socket.sent;
        var found;
        found, ok := DispatchNext(socket, addr, role);
        if found.None? {
          DispatchedMeans(start, sent, addr, role, ids, View(), socket.sent);
          AssignmentsFit(start, addr, role, ids);
          NothingLeft(View(), addr, role);
          return true, ids;
        }
        if !ok {
          DispatchedMeans(start, sent, addr, role, ids, View(), socket.sent);
          AssignmentsFit(start, addr, role, ids);
          return false, ids;
        }
        DispatchOneMore(start, sent, addr, role, ids, before, sentBefore, found.value);
        ids := ids + [found.value];
      }
    }

    /** One iteration: find a task, assign it and write, or take the assignment back. */
    method DispatchNext(socket: Socket, addr: Addr, role: NodeRole) returns (found: Option<Id>, ok: bool)
      modifies this`connectedNodes, this`pendingTasks, socket
      ensures found.None? ==>
                && ok && View() == old(View()) && socket.sent == old(socket.sent) && socket.refused == old(socket.refused)
                && forall id :: id in pendingTasks ==> !Eligible(View(), addr, role, id)
      ensures found.Some? ==>
                && found.value in old(pendingTasks) && Eligible(old(View()), addr, role, found.value)
                && View() == (if ok then Assign(old(View()), addr, found.value) else old(View()))
                && socket.sent == old(socket.sent) +
                     (if ok then [AssignTask(found.value, old(pendingTasks)[found.value].task)] else [])
                && socket.refused == old(socket.refused) +
                     (if ok then [] else [AssignTask(found.value, old(pendingTasks)[found.value].task)])
                && (ok ==> |pendingTasks| < |old(pendingTasks)|)
      ensures old(OneActive(View())) ==> OneActive(View())
    {
      ok := true;
      found := FindEligible(addr, role);
      if found.Some? {
        ok := AssignOne(socket, addr, role, found.value);
      }
    }

    /** Assign and write, or take the assignment back. */
    method AssignOne(socket: Socket, addr: Addr, role: NodeRole, id: Id) returns (ok: bool)
      requires Eligible(View(), addr, role, id)
      modifies this`connectedNodes, this`pendingTasks, socket
      ensures View() == if ok then Assign(old(View()), addr, id) else old(View())
      ensures socket.sent ==
              if ok then old(socket.sent) + [AssignTask(id, old(pendingTasks)[id].task)] else old(socket.sent)
      ensures socket.refused ==
              if ok then old(socket.refused) else old(socket.refused) + [AssignTask(id, old(pendingTasks)[id].task)]
      ensures ok ==> |pendingTasks| < |old(pendingTasks)|
      ensures old(OneActive(View())) ==> OneActive(View())
    {
      ghost var before := View();
      var ptask := pendingTasks[id];
      pendingTasks := pendingTasks - {id};
      SetActive(addr, id, Some(ptask.task));
      assert View() == Assign(before, addr, id);
      assert |before.pending| == |pendingTasks| + 1 by {
        assert before.pending.Keys == pendingTasks.Keys + {id};
      }
      ok := socket.Write(AssignTask(id, ptask.task));
      if !ok {
        pendingTasks := pendingTasks[id := ptask];
        SetActive(addr, id, None);
        UndoRestores(before, addr, role, id);
      } else if OneActive(before) {
        AssignKeepsOneActive(before, addr, role, id);
      }
    }

    /** `entry(addr).and_modify(..)` on `active_tasks`: insert a task or remove it. */
    method SetActive(addr: Addr, id: Id, task: Option<Task>)
      modifies this`connectedNodes
      ensures View() == if task.Some? then RecordActive(old(View()), addr, id, task.value)
                        else DropActive(old(View()), addr, id)
    {
      if addr in connectedNodes {
        var info := connectedNodes[addr];
        var active := if task.Some? then info.activeTasks[id := task.value] else info.activeTasks - {id};
        connectedNodes := connectedNodes[addr := info.(activeTasks := active)];
      }
    }

    /** `cleanup_dead_nodes`: the stale nodes are collected first, then reaped one by one in
        whatever order the hash map gave. */
    method CleanupDeadNodes(now: nat)
      modifies this`connectedNodes, this`pendingTasks, this`availablePorts
      ensures forall a :: a in connectedNodes <==>
                a in old(connectedNodes) && now <= old(connectedNodes)[a].lastHeartbeat + 2 * failoverTimeoutMs
      ensures IsReaped(old(View()), View(), StaleNodes(old(View()), now, failoverTimeoutMs))
    {
      var stale := StaleNodes(View(), now, failoverTimeoutMs);
      ghost var start, all := View(), stale;
      NothingReaped(start);
      assert all - stale == {};
      hide PendingReaped;
      while stale != {}
        invariant stale <= all <= start.nodes.Keys
        invariant IsReaped(start, View(), all - stale)
        invariant stale <= connectedNodes.Keys <= start.nodes.Keys
        invariant forall a :: a in connectedNodes ==> connectedNodes[a] == start.nodes[a]
        decreases |stale|
      {
        var addr :| addr in stale;
        ghost var gone, pending := all - stale, pendingTasks;
        var info := connectedNodes[addr];
        connectedNodes := connectedNodes - {addr};
        RequeueTasks(info.activeTasks);
        ReleasePort(addr);
        stale := stale - {addr};
        ReapOneMore(start, pending, gone, addr);
        assert all - stale == gone + {addr};
        assert connectedNodes == start.nodes - (gone + {addr});
      }
      assert all - {} == all;
    }

    /** Puts a dead node's tasks back, one by one. */
    method RequeueTasks(active: map<Id, Task>)
      modifies this`pendingTasks
      ensures View() == RequeueAll(old(View()), active)
    {
      var todo := active.Keys;
      while todo != {}
        invariant todo <= active.Keys
        invariant pendingTasks.Keys == old(pendingTasks).Keys + (active.Keys - todo)
        invariant forall id :: id in active && id !in todo ==> pendingTasks[id] == PendingTask(active[id], None)
        invariant forall id :: id in old(pendingTasks) && (id !in active || id in todo) ==>
                    pendingTasks[id] == old(pendingTasks)[id]
        decreases |todo|
      {
        var id :| id in todo;
        pendingTasks := pendingTasks[id := PendingTask(active[id], None)];
        todo := todo - {id};
      }
      assert pendingTasks == old(pendingTasks) + Untargeted(active);
    }

    /** One request, its reply, and what the master looks like afterwards. `goOn` is false when
        the connection ends: after `Disconnect`, or when a reply could not be written. */
    method HandleRequest(socket: Socket, addr: Addr, m: NodeMessage, now: nat) returns (goOn: bool, ghost names: seq<Addr>)
      modifies this, socket
      ensures View() == Handled(old(View()), addr, m, now)
      ensures LeavesBehind(old(View()), addr, m, now, View())
      ensures multiset(names) == multiset(old(connectedNodes).Keys)
      ensures m.Disconnect? ==> !goOn && socket.sent == old(socket.sent) && socket.refused == old(socket.refused)
      ensures !m.Disconnect? ==>
                && socket.sent == old(socket.sent) + (if goOn then Answer(old(View()), m, names) else [])
                && socket.refused == old(socket.refused) + (if goOn then [] else Answer(old(View()), m, names))
                && (goOn || Answer(old(View()), m, names) != [])
    {
      HandledExactly(View(), addr, m, now);
      hide LeavesBehind;
      goOn := true;
      var keys := KeysOf(connectedNodes);
      names := keys;
      match m
      case RegisterRole(role) =>
        if addr in connectedNodes {
          connectedNodes := connectedNodes[addr := connectedNodes[addr].(role := role)];
        }
      case GetConnectedNodes =>
        goOn := socket.Write(ConnectedNodes(keys));
      case RequestConnection(target) =>
        var p := AllocatePort();
        if p.Some? {
          if addr in connectedNodes {
            connectedNodes := connectedNodes[addr := connectedNodes[addr].(port := p)];
          }
          if target in connectedNodes {
            goOn := socket.Write(ConnectionInfo(connectedNodes[target].addr, p.value));
          }
        }
      case SubmitTask(id, task) =>
        pendingTasks := pendingTasks[id := PendingTask(task, None)];
        goOn := socket.Write(TaskAccepted(id));
      case GetTaskResult(id) =>
        if id in completedTasks {
          goOn := socket.Write(ResultOf(id, completedTasks[id]));
        } else {
          goOn := socket.Write(DirectMessage("Pending"));
        }
      case Disconnect =>
        ReleasePort(addr);
        connectedNodes := connectedNodes - {addr};
        goOn := false;
      case Heartbeat =>
        if addr in connectedNodes {
          connectedNodes := connectedNodes[addr := connectedNodes[addr].(lastHeartbeat := now, isWorker := true)];
        }
        goOn := socket.Write(HeartbeatAck);
      case ResultOf(id, result) =>
        SetActive(addr, id, None);
        pendingTasks := pendingTasks - {id};
        completedTasks := completedTasks[id := result];
      case _ =>
    }

    method FindEligible(addr: Addr, role: NodeRole) returns (found: Option<Id>)
      ensures found.Some? ==> found.value in pendingTasks && Eligible(View(), addr, role, found.value)
      ensures found.None? ==> forall id :: id in pendingTasks ==> !Eligible(View(), addr, role, id)
    {
      var sh := View();
      if id :| id in pendingTasks && Eligible(sh, addr, role, id) {
        return Some(id);
      }
      found := None;
    }
  }

  /** `run`: a master starts with the configured ports and then loads its state file, if it has a
      readable one. */
  method Start(minPort: Port, maxPort: Port, timeoutMs: nat, file: Option<Shared>) returns (m: Master)
    ensures fresh(m) && m.failoverTimeoutMs == timeoutMs
    ensures file.Some? ==> m.View() == file.value
    ensures file.None? ==> IsFreshStart(m.View(), minPort, maxPort)
  {
    m := new Master(minPort, maxPort, timeoutMs);
    m.LoadState(file);
  }

  /** Saving and starting again loses nothing, whatever ports are configured now. */
  method StartAgain(m: Master, minPort: Port, maxPort: Port, timeoutMs: nat) returns (again: Master)
    ensures fresh(again) && again.View() == m.View() == old(m.View())
  {
    var file := m.SaveState();
    again := Start(minPort, maxPort, timeoutMs, Some(file));
  }

  /** `connect_to_peer` at `a` with `handle_peer_connection` at `b`, undisturbed: each takes over what
      it lacks from the other and keeps its own value where both have one. What this achieves is
      `Gossip.TwoWayMeets`. */
  method SyncPeers(a: Master, b: Master)
    requires a != b
    modifies a, b
    ensures (a.View(), b.View()) == TwoWay(old(a.View()), old(b.View()))
    ensures a.connectedNodes == old(b.connectedNodes) + old(a.connectedNodes)
    ensures b.connectedNodes == old(a.connectedNodes) + old(b.connectedNodes)
    ensures a.pendingTasks == old(b.pendingTasks) + old(a.pendingTasks)
    ensures b.pendingTasks == old(a.pendingTasks) + old(b.pendingTasks)
    ensures a.completedTasks == old(b.completedTasks) + old(a.completedTasks)
    ensures b.completedTasks == old(a.completedTasks) + old(b.completedTasks)
    ensures a.availablePorts == old(a.availablePorts) && b.availablePorts == old(b.availablePorts)
  {
    OwnWins(a.connectedNodes, b.connectedNodes);
    OwnWins(a.pendingTasks, b.pendingTasks);
    OwnWins(a.completedTasks, b.completedTasks);
    var asked := a.CollectState();
    b.MergeState(asked);
    var answered := b.CollectState();
    a.MergeState(answered);
  }

  lemma OwnWins<V>(own: map<string, V>, other: map<string, V>)
    ensures (own + other) + own == other + own
  {
  }

  method KeysOf<V>(m: map<Addr, V>) returns (keys: seq<Addr>)
    ensures multiset(keys) == multiset(m.Keys)
  {
    keys := [];
    var todo := m.Keys;
    while todo != {}
      invariant todo <= m.Keys
      invariant multiset(keys) + multiset(todo) == multiset(m.Keys)
      decreases |todo|
    {
      var k :| k in todo;
      keys := keys + [k];
      assert todo == (todo - {k}) + {k};
      todo := todo - {k};
    }
  }

  /** `entry(k).or_insert(v)` for each entry of `from`. */
  method OrInsertAll<V>(into: map<string, V>, from: map<string, V>) returns (r: map<string, V>)
    ensures r == from + into
  {
    r := into;
    var todo := from.Keys;
    while todo != {}
      invariant todo <= from.Keys
      invariant r.Keys == into.Keys + (from.Keys - todo)
      invariant forall k :: k in r ==> r[k] == (from + into)[k]
      decreases |todo|
    {
      var k :| k in todo;
      if k !in r {
        r := r[k := from[k]];
      }
      todo := todo - {k};
    }
  }

  lemma AddOne(sh: Shared, addr: Addr, role: NodeRole, ids: seq<Id>, id: Id)
    requires EligibleInTurn(sh, addr, role, ids) && Eligible(AssignAll(sh, addr, ids), addr, role, id)
    ensures EligibleInTurn(sh, addr, role, ids + [id])
    ensures AssignAll(sh, addr, ids + [id]) == Assign(AssignAll(sh, addr, ids), addr, id)
    ensures id in sh.pending ==> Assignments(sh, ids + [id]) == Assignments(sh, ids) + [AssignTask(id, sh.pending[id].task)]
  {
    var more := ids + [id];
    assert more[..|more| - 1] == ids;
    forall k | 0 <= k < |more| ensures Eligible(AssignAll(sh, addr, more[..k]), addr, role, more[k]) {
      assert more[..k] == ids[..k];
    }
  }
}
