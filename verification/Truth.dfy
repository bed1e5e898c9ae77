/** What it means for data inside a master to be right: a task is the one submitted under its
    id, a result is what executing that task gives. Every step of every thread preserves it. */
module Truth {
  import opened Protocol
  import opened Regions
  import opened Machine

  /** The tasks handed in so far, and the (deterministic) meaning of executing one. */
  datatype World = World(submitted: map<Id, Task>, exec: Task -> TaskResult) {
    predicate IsTask(id: Id, task: Task) {
      id in submitted && submitted[id] == task
    }

    predicate IsResult(id: Id, result: TaskResult) {
      id in submitted && exec(submitted[id]) == result
    }
  }

  predicate ActiveTrue(w: World, active: map<Id, Task>) {
    forall id :: id in active ==> w.IsTask(id, active[id])
  }

  predicate NodesTrue(w: World, nodes: map<Addr, NodeInfo>) {
    forall a :: a in nodes ==> ActiveTrue(w, nodes[a].activeTasks)
  }

  predicate PendingTrue(w: World, pending: map<Id, PendingTask>) {
    forall id :: id in pending ==> w.IsTask(id, pending[id].task)
  }

  predicate CompletedTrue(w: World, completed: map<Id, TaskResult>) {
    forall id :: id in completed ==> w.IsResult(id, completed[id])
  }

  predicate SharedTrue(w: World, sh: Shared) {
    NodesTrue(w, sh.nodes) && PendingTrue(w, sh.pending) && CompletedTrue(w, sh.completed)
  }

  predicate PeerTrue(w: World, ps: PeerState) {
    NodesTrue(w, ps.nodes) && PendingTrue(w, ps.pending) && CompletedTrue(w, ps.completed)
  }

  predicate MessageTrue(w: World, m: NodeMessage) {
    match m
    case SubmitTask(id, task) => w.IsTask(id, task)
    case AssignTask(id, task) => w.IsTask(id, task)
    case ResultOf(id, result) => w.IsResult(id, result)
    case _ => true
  }

  predicate InputTrue(w: World, input: Input) {
    match input
    case Msg(m) => MessageTrue(w, m)
    case PeerData(ps) => PeerTrue(w, ps)
    case _ => true
  }

  predicate OutputTrue(w: World, out: Output) {
    match out
    case Sent(m) => MessageTrue(w, m)
    case SentPeer(ps) => PeerTrue(w, ps)
    case Saved(sh) => SharedTrue(w, sh)
    case Silent => true
  }

  predicate HandlerTrue(w: World, at: HandlerPc) {
    match at
    case Recording(_, id, pt) => w.IsTask(id, pt.task)
    case Assigning(_, id, pt, _) => w.IsTask(id, pt.task)
    case Requeuing(id, pt) => w.IsTask(id, pt.task)
    case Enqueuing(id, task) => w.IsTask(id, task)
    case Finishing(id, result) => w.IsResult(id, result)
    case Unqueuing(id, result) => w.IsResult(id, result)
    case Completing(id, result) => w.IsResult(id, result)
    case Replying(m) => MessageTrue(w, m)
    case _ => true
  }

  predicate SaverTrue(w: World, at: SaverPc) {
    match at
    case SaveNodes(nodes) => NodesTrue(w, nodes)
    case SavePorts(nodes, _) => NodesTrue(w, nodes)
    case SavePending(nodes, _, pending) => NodesTrue(w, nodes) && PendingTrue(w, pending)
    case _ => true
  }

  predicate SyncTrue(w: World, at: PeerPc) {
    match at
    case MergingNodes(ps) => PeerTrue(w, ps)
    case MergingPending(ps) => PeerTrue(w, ps)
    case MergingCompleted(ps) => PeerTrue(w, ps)
    case PeerSending(ps) => PeerTrue(w, ps)
    case CollectNodes(nodes) => NodesTrue(w, nodes)
    case CollectPending(nodes, pending) => NodesTrue(w, nodes) && PendingTrue(w, pending)
    case _ => true
  }

  predicate ThreadTrue(w: World, th: Thread) {
    match th
    case Handler(_, at) => HandlerTrue(w, at)
    case Reaper(_, at) => at.Salvaging? ==> ActiveTrue(w, at.active)
    case Saver(at) => SaverTrue(w, at)
    case Peer(_, at) => SyncTrue(w, at)
    case Shell(id, pt, _) => w.IsTask(id, pt.task)
  }

  ghost predicate MasterTrue(w: World, s: State) {
    SharedTrue(w, s.sh) && forall t :: t in s.threads ==> ThreadTrue(w, s.threads[t])
  }

  // ---------- one step ----------

  lemma DispatchTrue(w: World, sh: Shared, addr: Addr, at: HandlerPc, env: Env)
    requires Dispatching(at) && SharedTrue(w, sh) && HandlerTrue(w, at)
    ensures var (sh', at', out) := ActDispatch(sh, addr, at, env);
            SharedTrue(w, sh') && HandlerTrue(w, at') && OutputTrue(w, out)
  {
  }

  lemma MemberTrue(w: World, sh: Shared, addr: Addr, at: HandlerPc, env: Env)
    requires Belonging(at) && SharedTrue(w, sh)
    ensures var (sh', at') := ActMember(sh, addr, at, env);
            SharedTrue(w, sh') && HandlerTrue(w, at')
  {
  }

  lemma PortTrue(w: World, sh: Shared, addr: Addr, at: HandlerPc)
    requires Porting(at) && SharedTrue(w, sh)
    ensures var (sh', at') := ActPort(sh, addr, at);
            SharedTrue(w, sh') && HandlerTrue(w, at')
  {
  }

  lemma RequestTrue(w: World, sh: Shared, addr: Addr, at: HandlerPc, env: Env)
    requires !Dispatching(at) && !Belonging(at) && !Porting(at)
    requires SharedTrue(w, sh) && HandlerTrue(w, at) && InputTrue(w, env.input)
    ensures var (sh', at', out) := ActRequest(sh, addr, at, env);
            SharedTrue(w, sh') && HandlerTrue(w, at') && OutputTrue(w, out)
  {
  }

  lemma ReaperTrue(w: World, sh: Shared, timeout: nat, at: ReaperPc, env: Env)
    requires SharedTrue(w, sh) && ThreadTrue(w, Reaper(timeout, at))
    ensures var (sh', at') := ActReaper(sh, timeout, at, env);
            SharedTrue(w, sh') && ThreadTrue(w, Reaper(timeout, at'))
  {
  }

  lemma SyncStepTrue(w: World, sh: Shared, incoming: bool, at: PeerPc, env: Env)
    requires SharedTrue(w, sh) && SyncTrue(w, at) && InputTrue(w, env.input)
    ensures var (sh', at', out) := ActPeer(sh, incoming, at, env);
            SharedTrue(w, sh') && SyncTrue(w, at') && OutputTrue(w, out)
  {
  }

  lemma ActTrue(w: World, sh: Shared, th: Thread, env: Env)
    requires SharedTrue(w, sh) && ThreadTrue(w, th) && InputTrue(w, env.input)
    ensures var e := Act(sh, th, env); SharedTrue(w, e.sh) && ThreadTrue(w, e.th) && OutputTrue(w, e.out)
  {
    match th
    case Handler(addr, at) =>
      hide SharedTrue, HandlerTrue;
      if Dispatching(at) {
        DispatchTrue(w, sh, addr, at, env);
      } else if Belonging(at) {
        MemberTrue(w, sh, addr, at, env);
      } else if Porting(at) {
        PortTrue(w, sh, addr, at);
      } else {
        RequestTrue(w, sh, addr, at, env);
      }
    case Reaper(timeout, at) => ReaperTrue(w, sh, timeout, at, env);
    case Saver(_) =>
    case Peer(incoming, at) => SyncStepTrue(w, sh, incoming, at, env);
    case Shell(_, _, _) =>
  }
}
