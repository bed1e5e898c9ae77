/** Messages, tasks and results exchanged by clients, masters and nodes
    (`cpcluster_common/src/lib.rs`). */
module Protocol {

  datatype Option<+T> = None | Some(value: T)

  type Id = string
  type Addr = string
  type Port = p: int | 0 <= p < 0x1_0000

  datatype NodeRole = Worker | Disk | Internet

  datatype Task =
    | Compute(expression: string)
    | HttpRequest(url: string)
    | Tcp(addr: string, data: seq<bv8>)
    | Udp(addr: string, data: seq<bv8>)
    | ComplexMath(expression: string)
    | StoreData(key: string, data: seq<bv8>)
    | RetrieveData(key: string)
    | DiskWrite(path: string, data: seq<bv8>)
    | DiskRead(path: string)
    | GetGlobalRam
    | GetStorage

  datatype TaskResult =
    | Number(n: real)
    | Response(text: string)
    | Bytes(bytes: seq<bv8>)
    | Stored
    | Written
    | Error(reason: string)

  datatype NodeMessage =
    | RequestConnection(target: Addr)
    | ConnectionInfo(addr: Addr, port: Port)
    | GetConnectedNodes
    | ConnectedNodes(nodes: seq<Addr>)
    | SubmitTask(id: Id, task: Task)
    | GetTaskResult(id: Id)
    | Disconnect
    | Heartbeat
    | HeartbeatAck
    | AssignTask(id: Id, task: Task)
    | ResultOf(id: Id, result: TaskResult) // `NodeMessage::TaskResult`
    | TaskAccepted(id: Id)
    | DirectMessage(text: string)
    | RegisterRole(role: NodeRole)

  /** The kind of node a task has to run on. */
  function RoleForTask(task: Task): NodeRole {
    match task
    case GetStorage => Disk
    case DiskWrite(_, _) => Disk
    case DiskRead(_) => Disk
    case Tcp(_, _) => Internet
    case Udp(_, _) => Internet
    case _ => Worker
  }
  /** What executing a task uses besides memory and ordinary connections: the reserved ports of an
      Internet node, or the storage directory and disk store of a Disk node. */
  datatype Equipment = ReservedPorts | Storage | NoEquipment

  function Uses(task: Task): Equipment {
    if task.Tcp? || task.Udp? then ReservedPorts
    else if task.DiskWrite? || task.DiskRead? || task.GetStorage? then Storage
    else NoEquipment
  }

  /** What a node sets up for its configured role. */
  function SetUpFor(role: NodeRole): Equipment {
    if role.Internet? then ReservedPorts else if role.Disk? then Storage else NoEquipment
  }

  /** A task runs on exactly one kind of node, the one that sets up what it uses. */
  lemma RoleIsEquipment(task: Task, role: NodeRole)
    ensures RoleForTask(task) == role <==> SetUpFor(role) == Uses(task)
  {
  }
}
