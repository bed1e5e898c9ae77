/** The four collections a master shares between its tasks, and one function per
    critical section: what that section does to the collections while it holds
    the locks it needs. Both the sequential class (`MasterNode`) and the concurrent
    machine (`Machine`) are built from these functions. */
module Regions {
  import opened Protocol

  datatype PendingTask = PendingTask(task: Task, target: Option<Addr>)

  datatype NodeInfo = NodeInfo(
    addr: Addr,
    lastHeartbeat: nat,
    port: Option<Port>,
    activeTasks: map<Id, Task>,
    isWorker: bool,
    role: NodeRole)

  datatype Shared = Shared(
    nodes: map<Addr, NodeInfo>,
    ports: seq<Port>,
    pending: map<Id, PendingTask>,
    completed: map<Id, TaskResult>)

  /** What one master sends another when they synchronise: no ports queue. */
  datatype PeerState = PeerState(
    nodes: map<Addr, NodeInfo>,
    pending: map<Id, PendingTask>,
    completed: map<Id, TaskResult>)

  // ---------- connected_nodes ----------

  function Register(sh: Shared, addr: Addr, now: nat): Shared {
    sh.(nodes := sh.nodes[addr := NodeInfo(addr, now, None, map[], false, Worker)])
  }

  function RemoveNode(sh: Shared, addr: Addr): Shared {
    sh.(nodes := sh.nodes - {addr})
  }

  /** `entry(addr).and_modify(..)`: nothing happens when there is no entry. */
  function SetNode(sh: Shared, addr: Addr, info: NodeInfo): Shared {
    if addr in sh.nodes then sh.(nodes := sh.nodes[addr := info]) else sh
  }

  function SetRole(sh: Shared, addr: Addr, role: NodeRole): Shared {
    if addr in sh.nodes then SetNode(sh, addr, sh.nodes[addr].(role := role)) else sh
  }

  function Beat(sh: Shared, addr: Addr, now: nat): Shared {
    if addr in sh.nodes then SetNode(sh, addr, sh.nodes[addr].(lastHeartbeat := now, isWorker := true)) else sh
  }

  function StorePort(sh: Shared, addr: Addr, p: Port): Shared {
    if addr in sh.nodes then SetNode(sh, addr, sh.nodes[addr].(port := Some(p))) else sh
  }

  function PortOf(sh: Shared, addr: Addr): Option<Port> {
    if addr in sh.nodes then sh.nodes[addr].port else None
  }

  /** `info.port.take()`; the port taken is `PortOf(sh, addr)`. */
  function ClearPort(sh: Shared, addr: Addr): Shared {
    if addr in sh.nodes then SetNode(sh, addr, sh.nodes[addr].(port := None)) else sh
  }

  function ActiveAt(sh: Shared, addr: Addr): map<Id, Task> {
    if addr in sh.nodes then sh.nodes[addr].activeTasks else map[]
  }

  function RecordActive(sh: Shared, addr: Addr, id: Id, task: Task): Shared {
    if addr in sh.nodes then
      SetNode(sh, addr, sh.nodes[addr].(activeTasks := sh.nodes[addr].activeTasks[id := task]))
    else sh
  }

  function DropActive(sh: Shared, addr: Addr, id: Id): Shared {
    if addr in sh.nodes then
      SetNode(sh, addr, sh.nodes[addr].(activeTasks := sh.nodes[addr].activeTasks - {id}))
    else sh
  }

  /** The role the dispatcher works for; `None` when the address is not a heartbeating worker. */
  function WorkerRole(sh: Shared, addr: Addr): Option<NodeRole> {
    if addr in sh.nodes && sh.nodes[addr].isWorker then Some(sh.nodes[addr].role) else None
  }

  /** `now.saturating_sub(last_heartbeat) > failover_timeout_ms * 2` */
  predicate IsStale(info: NodeInfo, now: nat, timeout: nat) {
    (if now <= info.lastHeartbeat then 0 else now - info.lastHeartbeat) > timeout * 2
  }

  function StaleNodes(sh: Shared, now: nat, timeout: nat): set<Addr> {
    set a | a in sh.nodes && IsStale(sh.nodes[a], now, timeout)
  }

  // ---------- available_ports ----------

  function PopPort(sh: Shared): Shared {
    if sh.ports == [] then sh else sh.(ports := sh.ports[1..])
  }

  function PushPort(sh: Shared, p: Port): Shared {
    sh.(ports := sh.ports + [p])
  }

  // ---------- pending_tasks ----------

  function Enqueue(sh: Shared, id: Id, pt: PendingTask): Shared {
    sh.(pending := sh.pending[id := pt])
  }

  function RemovePending(sh: Shared, id: Id): Shared {
    sh.(pending := sh.pending - {id})
  }

  function Untargeted(active: map<Id, Task>): map<Id, PendingTask> {
    map id | id in active :: PendingTask(active[id], None)
  }

  /** The reaper hands a dead node's tasks back; they lose their target. */
  function RequeueAll(sh: Shared, active: map<Id, Task>): Shared {
    sh.(pending := sh.pending + Untargeted(active))
  }

  predicate IsActive(sh: Shared, id: Id) {
    exists a :: a in sh.nodes && id in sh.nodes[a].activeTasks
  }

  /** The dispatcher's search condition, evaluated with both locks held. */
  predicate Eligible(sh: Shared, addr: Addr, role: NodeRole, id: Id) {
    && id in sh.pending
    && (sh.pending[id].target.Some? ==> sh.pending[id].target.value == addr)
    && RoleForTask(sh.pending[id].task) == role
    && !IsActive(sh, id)
  }

  // ---------- completed_tasks ----------

  function Complete(sh: Shared, id: Id, result: TaskResult): Shared {
    sh.(completed := sh.completed[id := result])
  }

  // ---------- peers ----------

  /** `entry(k).or_insert(v)` for every entry: what is already there wins. */
  function MergeNodes(sh: Shared, ps: PeerState): Shared {
    sh.(nodes := ps.nodes + sh.nodes)
  }

  function MergePending(sh: Shared, ps: PeerState): Shared {
    sh.(pending := ps.pending + sh.pending)
  }

  function MergeCompleted(sh: Shared, ps: PeerState): Shared {
    sh.(completed := ps.completed + sh.completed)
  }
}
