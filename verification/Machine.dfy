/** The master as a concurrent state machine. Every task the program spawns is a
    thread with a program counter and its local variables; one step of a thread is
    one critical section (or one read or write of its stream). What a thread does
    depends only on the shared collections and itself, so the code of a step is
    `Act`; interleaving and lock waiting are added by `Enabled` and `Apply`. */
module Machine {
  import opened Protocol
  import opened Regions

  type Tid = nat

  datatype Lock = Nodes | Ports | Pending | Completed

  /** Where a connection handler is. Comments name the next action. */
  datatype HandlerPc =
    | Greeting                                                        // write "OK"
    | Joining                                                         // insert the node entry
    | AskRole                                                         // start of send_pending_tasks
    | WantPending(role: NodeRole)                                     // lock pending_tasks
    | WantNodes(role: NodeRole)                                       // holds pending_tasks; lock connected_nodes, search
    | Recording(role: NodeRole, id: Id, pt: PendingTask)              // active_tasks.insert
    | Assigning(role: NodeRole, id: Id, pt: PendingTask, recorded: bool) // write AssignTask; `recorded`: an entry was found
    | Requeuing(id: Id, pt: PendingTask)                              // write failed: pending_tasks.insert
    | Unrecording(id: Id)                                             // write failed: active_tasks.remove
    | Reading                                                         // read a request
    | Announcing(role: NodeRole)
    | Listing
    | Allocating(target: Addr)
    | Storing(target: Addr, port: Port)
    | Locating(target: Addr, port: Port)
    | Enqueuing(id: Id, task: Task)
    | Looking(id: Id)
    | Beating
    | Finishing(id: Id, result: TaskResult)                           // active_tasks.remove
    | Unqueuing(id: Id, result: TaskResult)                           // pending_tasks.remove
    | Completing(id: Id, result: TaskResult)                          // completed_tasks.insert
    | Releasing                                                       // release_port: port.take
    | Returning(port: Port)                                           // release_port: push_back
    | Leaving                                                         // Disconnect: remove the node entry
    | Replying(m: NodeMessage)                                        // write a reply
    | Closing                                                         // after the loop: remove the node entry
    | Gone

  datatype ReaperPc =
    | Resting                                                         // collect the stale addresses
    | Reaping(stale: seq<Addr>)                                       // remove the first one
    | Salvaging(addr: Addr, active: map<Id, Task>, rest: seq<Addr>)   // requeue its tasks
    | Taking(addr: Addr, rest: seq<Addr>)                             // release_port: port.take
    | Pushing(port: Port, rest: seq<Addr>)                            // release_port: push_back

  datatype SaverPc =
    | SaveStart
    | SaveNodes(nodes: map<Addr, NodeInfo>)
    | SavePorts(nodes: map<Addr, NodeInfo>, ports: seq<Port>)
    | SavePending(nodes: map<Addr, NodeInfo>, ports: seq<Port>, pending: map<Id, PendingTask>)
    | SaveDone

  datatype PeerPc =
    | PeerReading
    | MergingNodes(ps: PeerState)
    | MergingPending(ps: PeerState)
    | MergingCompleted(ps: PeerState)
    | CollectStart
    | CollectNodes(nodes: map<Addr, NodeInfo>)
    | CollectPending(nodes: map<Addr, NodeInfo>, pending: map<Id, PendingTask>)
    | PeerSending(ps: PeerState)
    | PeerDone

  datatype Thread =
    | Handler(addr: Addr, at: HandlerPc)
    | Reaper(timeout: nat, reap: ReaperPc)
    | Saver(save: SaverPc)
    | Peer(incoming: bool, sync: PeerPc)
    | Shell(id: Id, pt: PendingTask, submitted: bool)

  datatype Input = Msg(m: NodeMessage) | PeerData(ps: PeerState) | Closed | Garbled

  datatype Output = Silent | Sent(m: NodeMessage) | SentPeer(ps: PeerState) | Saved(snapshot: Shared)

  /** Everything a step takes from outside: the clock, whether a write succeeds, what a
      read returns, and the order in which a hash map happens to be iterated. */
  datatype Env = Env(now: nat, ok: bool, input: Input, pick: Option<Id>, order: seq<Addr>)

  // ---------- the code of each thread ----------

  datatype Effect = Effect(sh: Shared, th: Thread, out: Output)

  function Request(m: NodeMessage): HandlerPc {
    match m
    case RegisterRole(role) => Announcing(role)
    case GetConnectedNodes => Listing
    case RequestConnection(target) => Allocating(target)
    case SubmitTask(id, task) => Enqueuing(id, task)
    case GetTaskResult(id) => Looking(id)
    case Disconnect => Releasing
    case Heartbeat => Beating
    case ResultOf(id, result) => Finishing(id, result)
    case _ => AskRole
  }

  /** One iteration of the dispatch loop in `send_pending_tasks`. */
  function ActDispatch(sh: Shared, addr: Addr, at: HandlerPc, env: Env): (Shared, HandlerPc, Output) {
    match at
    case AskRole =>
      var role := WorkerRole(sh, addr);
      (sh, if role.Some? then WantPending(role.value) else Reading, Silent)
    case WantPending(role) => (sh, WantNodes(role), Silent)
    case WantNodes(role) =>
      if env.pick.Some? && env.pick.value in sh.pending then
        (RemovePending(sh, env.pick.value), Recording(role, env.pick.value, sh.pending[env.pick.value]), Silent)
      else (sh, Reading, Silent)
    case Recording(role, id, pt) =>
      (RecordActive(sh, addr, id, pt.task), Assigning(role, id, pt, addr in sh.nodes), Silent)
    case Assigning(role, id, pt, _) =>
      if env.ok then (sh, WantPending(role), Sent(AssignTask(id, pt.task)))
      else (sh, Requeuing(id, pt), Silent)
    case Requeuing(id, pt) => (Enqueue(sh, id, pt), Unrecording(id), Silent)
    case Unrecording(id) => (DropActive(sh, addr, id), Reading, Silent)
    case _ => (sh, at, Silent)
  }

  /** Joining, heartbeats, roles and leaving: the handler's own node entry. */
  function ActMember(sh: Shared, addr: Addr, at: HandlerPc, env: Env): (Shared, HandlerPc) {
    match at
    case Greeting => (sh, if env.ok then Joining else Gone)
    case Joining => (Register(sh, addr, env.now), AskRole)
    case Announcing(role) => (SetRole(sh, addr, role), AskRole)
    case Beating => (Beat(sh, addr, env.now), Replying(HeartbeatAck))
    case Leaving => (RemoveNode(sh, addr), Closing)
    case Closing => (RemoveNode(sh, addr), Gone)
    case _ => (sh, at)
  }

  /** `RequestConnection`, and `release_port` on `Disconnect`. */
  function ActPort(sh: Shared, addr: Addr, at: HandlerPc): (Shared, HandlerPc) {
    match at
    case Allocating(target) =>
      if sh.ports == [] then (sh, AskRole) else (PopPort(sh), Storing(target, sh.ports[0]))
    case Storing(target, p) => (StorePort(sh, addr, p), Locating(target, p))
    case Locating(target, p) =>
      (sh, if target in sh.nodes then Replying(ConnectionInfo(sh.nodes[target].addr, p)) else AskRole)
    case Releasing =>
      var p := PortOf(sh, addr);
      (ClearPort(sh, addr), if p.Some? then Returning(p.value) else Leaving)
    case Returning(p) => (PushPort(sh, p), Leaving)
    case _ => (sh, at)
  }

  /** Reading requests, answering them, and the arms that concern tasks. */
  function ActRequest(sh: Shared, addr: Addr, at: HandlerPc, env: Env): (Shared, HandlerPc, Output) {
    match at
    case Reading =>
      (match env.input
       case Msg(m) => (sh, Request(m), Silent)
       case Closed => (sh, Closing, Silent)
       case _ => (sh, Gone, Silent))
    case Listing => (sh, Replying(ConnectedNodes(env.order)), Silent)
    case Enqueuing(id, task) => (Enqueue(sh, id, PendingTask(task, None)), Replying(TaskAccepted(id)), Silent)
    case Looking(id) =>
      (sh,
       if id in sh.completed then Replying(ResultOf(id, sh.completed[id])) else Replying(DirectMessage("Pending")),
       Silent)
    case Finishing(id, result) => (DropActive(sh, addr, id), Unqueuing(id, result), Silent)
    case Unqueuing(id, result) => (RemovePending(sh, id), Completing(id, result), Silent)
    case Completing(id, result) => (Complete(sh, id, result), AskRole, Silent)
    case Replying(m) => if env.ok then (sh, AskRole, Sent(m)) else (sh, Gone, Silent)
    case _ => (sh, at, Silent)
  }

  predicate Dispatching(at: HandlerPc) {
    at.AskRole? || at.WantPending? || at.WantNodes? || at.Recording? || at.Assigning? || at.Requeuing? || at.Unrecording?
  }

  predicate Belonging(at: HandlerPc) {
    at.Greeting? || at.Joining? || at.Announcing? || at.Beating? || at.Leaving? || at.Closing?
  }

  predicate Porting(at: HandlerPc) {
    at.Allocating? || at.Storing? || at.Locating? || at.Releasing? || at.Returning?
  }

  function ActHandler(sh: Shared, addr: Addr, at: HandlerPc, env: Env): (Shared, HandlerPc, Output) {
    if Dispatching(at) then ActDispatch(sh, addr, at, env)
    else if Belonging(at) then
      var (sh', at') := ActMember(sh, addr, at, env);
      (sh', at', Silent)
    else if Porting(at) then
      var (sh', at') := ActPort(sh, addr, at);
      (sh', at', Silent)
    else ActRequest(sh, addr, at, env)
  }

  /** `cleanup_dead_nodes` */
  function ActReaper(sh: Shared, timeout: nat, at: ReaperPc, env: Env): (Shared, ReaperPc) {
    match at
    case Resting => (sh, Reaping(env.order))
    case Reaping(stale) =>
      if stale == [] then (sh, Resting)
      else if stale[0] in sh.nodes then
        (RemoveNode(sh, stale[0]), Salvaging(stale[0], sh.nodes[stale[0]].activeTasks, stale[1..]))
      else (sh, Taking(stale[0], stale[1..]))
    case Salvaging(addr, active, rest) => (RequeueAll(sh, active), Taking(addr, rest))
    case Taking(addr, rest) =>
      var p := PortOf(sh, addr);
      (ClearPort(sh, addr), if p.Some? then Pushing(p.value, rest) else Reaping(rest))
    case Pushing(p, rest) => (PushPort(sh, p), Reaping(rest))
  }

  /** `save_state`: each lock taken stays taken until the whole snapshot is built. */
  function ActSaver(sh: Shared, at: SaverPc): (SaverPc, Output) {
    match at
    case SaveStart => (SaveNodes(sh.nodes), Silent)
    case SaveNodes(nodes) => (SavePorts(nodes, sh.ports), Silent)
    case SavePorts(nodes, ports) => (SavePending(nodes, ports, sh.pending), Silent)
    case SavePending(nodes, ports, pending) => (SaveDone, Saved(Shared(nodes, ports, pending, sh.completed)))
    case SaveDone => (at, Silent)
  }

  /** `handle_peer_connection` (incoming: merge, collect, answer) and `connect_to_peer`
      (outgoing: collect, ask, merge). */
  function ActPeer(sh: Shared, incoming: bool, at: PeerPc, env: Env): (Shared, PeerPc, Output) {
    match at
    case PeerReading => (sh, if env.input.PeerData? then MergingNodes(env.input.ps) else PeerDone, Silent)
    case MergingNodes(ps) => (MergeNodes(sh, ps), MergingPending(ps), Silent)
    case MergingPending(ps) => (MergePending(sh, ps), MergingCompleted(ps), Silent)
    case MergingCompleted(ps) => (MergeCompleted(sh, ps), if incoming then CollectStart else PeerDone, Silent)
    case CollectStart => (sh, CollectNodes(sh.nodes), Silent)
    case CollectNodes(nodes) => (sh, CollectPending(nodes, sh.pending), Silent)
    case CollectPending(nodes, pending) => (sh, PeerSending(PeerState(nodes, pending, sh.completed)), Silent)
    case PeerSending(ps) =>
      if env.ok then (sh, if incoming then PeerDone else PeerReading, SentPeer(ps)) else (sh, PeerDone, Silent)
    case PeerDone => (sh, at, Silent)
  }

  function Act(sh: Shared, th: Thread, env: Env): Effect {
    match th
    case Handler(addr, at) =>
      var (sh', at', out) := ActHandler(sh, addr, at, env);
      Effect(sh', Handler(addr, at'), out)
    case Reaper(timeout, at) =>
      var (sh', at') := ActReaper(sh, timeout, at, env);
      Effect(sh', Reaper(timeout, at'), Silent)
    case Saver(at) =>
      var (at', out) := ActSaver(sh, at);
      Effect(sh, Saver(at'), out)
    case Peer(incoming, at) =>
      var (sh', at', out) := ActPeer(sh, incoming, at, env);
      Effect(sh', Peer(incoming, at'), out)
    case Shell(id, pt, submitted) =>
      Effect(if submitted then sh else Enqueue(sh, id, pt), Shell(id, pt, true), Silent)
  }

  // ---------- locks ----------

  /** The locks a thread keeps between two of its steps. */
  function Holds(th: Thread): set<Lock> {
    match th
    case Handler(_, WantNodes(_)) => {Pending}
    case Saver(SaveNodes(_)) => {Nodes}
    case Saver(SavePorts(_, _)) => {Nodes, Ports}
    case Saver(SavePending(_, _, _)) => {Nodes, Ports, Pending}
    case Peer(_, CollectNodes(_)) => {Nodes}
    case Peer(_, CollectPending(_, _)) => {Nodes, Pending}
    case _ => {}
  }

  function HandlerNeeds(at: HandlerPc): Option<Lock> {
    match at
    case Greeting => None
    case Assigning(_, _, _, _) => None
    case Reading => None
    case Replying(_) => None
    case Gone => None
    case WantPending(_) => Some(Pending)
    case Requeuing(_, _) => Some(Pending)
    case Enqueuing(_, _) => Some(Pending)
    case Unqueuing(_, _) => Some(Pending)
    case Allocating(_) => Some(Ports)
    case Returning(_) => Some(Ports)
    case Looking(_) => Some(Completed)
    case Completing(_, _) => Some(Completed)
    case _ => Some(Nodes)
  }

  /** The lock the next step of a thread has to wait for, if any. */
  function Needs(th: Thread): Option<Lock> {
    match th
    case Handler(_, at) => HandlerNeeds(at)
    case Reaper(_, at) =>
      (match at
       case Resting => Some(Nodes)
       case Reaping(stale) => if stale == [] then None else Some(Nodes)
       case Salvaging(_, _, _) => Some(Pending)
       case Taking(_, _) => Some(Nodes)
       case Pushing(_, _) => Some(Ports))
    case Saver(at) =>
      (match at
       case SaveStart => Some(Nodes)
       case SaveNodes(_) => Some(Ports)
       case SavePorts(_, _) => Some(Pending)
       case SavePending(_, _, _) => Some(Completed)
       case SaveDone => None)
    case Peer(_, at) =>
      (match at
       case MergingNodes(_) => Some(Nodes)
       case MergingPending(_) => Some(Pending)
       case MergingCompleted(_) => Some(Completed)
       case CollectStart => Some(Nodes)
       case CollectNodes(_) => Some(Pending)
       case CollectPending(_, _) => Some(Completed)
       case _ => None)
    case Shell(_, _, _) => Some(Pending)
  }

  // ---------- the interleaving ----------

  datatype State = State(sh: Shared, threads: map<Tid, Thread>)

  datatype Label = Spawn(t: Tid, th: Thread) | Move(t: Tid, env: Env)

  ghost predicate Free(s: State, l: Lock) {
    forall t :: t in s.threads ==> l !in Holds(s.threads[t])
  }

  predicate Finished(th: Thread) {
    match th
    case Handler(_, at) => at.Gone?
    case Reaper(_, _) => false
    case Saver(at) => at.SaveDone?
    case Peer(_, at) => at.PeerDone?
    case Shell(_, _, submitted) => submitted
  }

  /** The outside world may choose freely, except that a search finds what is there and an
      iteration visits every entry once. */
  ghost predicate Sensible(sh: Shared, th: Thread, env: Env) {
    match th
    case Handler(addr, WantNodes(role)) =>
      if env.pick.Some? then Eligible(sh, addr, role, env.pick.value)
      else forall id :: id in sh.pending ==> !Eligible(sh, addr, role, id)
    case Handler(_, Reading) => !env.input.PeerData?
    case Handler(_, Listing) => multiset(env.order) == multiset(sh.nodes.Keys)
    case Reaper(timeout, Resting) => multiset(env.order) == multiset(StaleNodes(sh, env.now, timeout))
    case _ => true
  }

  ghost predicate Blocked(s: State, t: Tid)
    requires t in s.threads
  {
    Needs(s.threads[t]).Some? && !Free(s, Needs(s.threads[t]).value)
  }

  predicate IsLive(th: Thread) {
    th.Handler? && !th.at.Gone?
  }

  predicate IsFreshThread(th: Thread) {
    match th
    case Handler(_, at) => at.Greeting?
    case Reaper(_, at) => at.Resting?
    case Saver(at) => at.SaveStart?
    case Peer(incoming, at) => if incoming then at.PeerReading? else at.CollectStart?
    case Shell(_, _, submitted) => !submitted
  }

  /** A new connection has a remote address no connection still being served has. */
  ghost predicate Enabled(s: State, l: Label) {
    match l
    case Spawn(t, th) =>
      && t !in s.threads
      && IsFreshThread(th)
      && (th.Handler? ==> forall u :: u in s.threads && IsLive(s.threads[u]) ==> s.threads[u].addr != th.addr)
    case Move(t, env) =>
      && t in s.threads
      && !Finished(s.threads[t])
      && !Blocked(s, t)
      && Sensible(s.sh, s.threads[t], env)
  }

  function EffectOf(s: State, t: Tid, env: Env): Effect
    requires t in s.threads
  {
    Act(s.sh, s.threads[t], env)
  }

  function Apply(s: State, l: Label): State {
    match l
    case Spawn(t, th) => s.(threads := s.threads[t := th])
    case Move(t, env) =>
      if t in s.threads then
        var e := EffectOf(s, t, env);
        State(e.sh, s.threads[t := e.th])
      else s
  }

  /** A run: `states[i+1]` follows from `states[i]` by `labels[i]`. */
  datatype Run = Run(states: seq<State>, labels: seq<Label>)

  ghost predicate StepAt(r: Run, i: nat)
    requires i < |r.labels| && |r.states| == |r.labels| + 1
  {
    Enabled(r.states[i], r.labels[i]) && r.states[i + 1] == Apply(r.states[i], r.labels[i])
  }

  ghost predicate IsRun(r: Run) {
    && |r.states| == |r.labels| + 1
    && r.states[0].threads == map[]
    && forall i: nat :: i < |r.labels| ==> StepAt(r, i)
  }

  /** The state `run` builds before `load_state`: no nodes, no tasks, every port free. */
  predicate IsFreshStart(sh: Shared, lo: Port, hi: Port) {
    && sh.nodes == map[] && sh.pending == map[] && sh.completed == map[]
    && sh.ports == if lo <= hi then seq(hi - lo + 1, i requires 0 <= i <= hi - lo => (lo + i) as Port) else []
  }

  /** Steps that import another master's node table. */
  predicate ImportsNodes(s: State, l: Label) {
    l.Move? && l.t in s.threads && s.threads[l.t].Peer? && s.threads[l.t].sync.MergingNodes?
  }

  ghost predicate MergeFree(r: Run)
    requires |r.states| == |r.labels| + 1
  {
    forall i: nat :: i < |r.labels| ==> !ImportsNodes(r.states[i], r.labels[i])
  }
}
