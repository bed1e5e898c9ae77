/** Clients, nodes and any number of masters together. The network may lose, repeat and
    reorder messages at will: whatever was ever written can be read by anyone at any time.
    Masters sync with each other, are stopped and restarted from any snapshot they wrote; nodes
    lose connections, resend and restart. */
module Cluster {
  import opened Protocol
  import opened Regions
  import opened Machine
  import opened Truth
  import opened Outbox

  type MasterId = nat
  type NodeId = nat

  datatype System = System(
    masters: map<MasterId, State>,
    files: map<MasterId, set<Shared>>,
    nodes: map<NodeId, Node>,
    wire: set<NodeMessage>,
    peerWire: set<PeerState>,
    submitted: map<Id, Task>)

  datatype Event =
    | Submit(id: Id, task: Task)          // a client hands in a task under a fresh id
    | Say(m: NodeMessage)                 // any other request
    | MasterStep(x: MasterId, l: Label)
    | NodeStep(y: NodeId, k: NodeLabel)
    | Boot(x: MasterId, sh: Shared)       // a master starts, fresh or from a snapshot
    | NodeBoot(y: NodeId)

  predicate CarriesTask(m: NodeMessage) {
    m.SubmitTask? || m.AssignTask? || m.ResultOf?
  }

  ghost predicate Available(c: System, input: Input) {
    match input
    case Msg(m) => m in c.wire
    case PeerData(ps) => ps in c.peerWire
    case _ => true
  }

  predicate IsEmpty(sh: Shared) {
    sh.nodes == map[] && sh.pending == map[] && sh.completed == map[]
  }

  /** A shell command also uses a fresh id; its task is submitted and queued by a thread. */
  ghost predicate Happens(c: System, e: Event, exec: Task -> TaskResult) {
    match e
    case Submit(id, _) => id !in c.submitted
    case Say(m) => !CarriesTask(m)
    case MasterStep(x, l) =>
      && x in c.masters && x in c.files && Enabled(c.masters[x], l)
      && (l.Move? ==> Available(c, l.env.input))
      && (l.Spawn? && l.th.Shell? ==> l.th.id in c.submitted && c.submitted[l.th.id] == l.th.pt.task)
    case NodeStep(y, k) =>
      && y in c.nodes && NodeEnabled(c.nodes[y], k)
      && (k.Step? && k.env.input.Received? ==> k.env.input.m in c.wire)
      && (k.Step? && c.nodes[y].loops[k.w].at.Running? ==> k.env.result == exec(c.nodes[y].loops[k.w].at.task))
    case Boot(x, sh) => IsEmpty(sh) || (x in c.files && sh in c.files[x])
    case NodeBoot(_) => true
  }

  function MasterWrites(s: State, l: Label): Output {
    if l.Move? && l.t in s.threads then EffectOf(s, l.t, l.env).out else Silent
  }

  function After(c: System, e: Event): System {
    match e
    case Submit(id, task) => c.(submitted := c.submitted[id := task], wire := c.wire + {SubmitTask(id, task)})
    case Say(m) => c.(wire := c.wire + {m})
    case MasterStep(x, l) =>
      if x in c.masters && x in c.files then
        var out := MasterWrites(c.masters[x], l);
        c.(masters := c.masters[x := Apply(c.masters[x], l)],
           wire := c.wire + (if out.Sent? then {out.m} else {}),
           peerWire := c.peerWire + (if out.SentPeer? then {out.ps} else {}),
           files := c.files[x := c.files[x] + (if out.Saved? then {out.snapshot} else {})])
      else c
    case NodeStep(y, k) =>
      if y in c.nodes then
        var out := Writes(c.nodes[y], k);
        c.(nodes := c.nodes[y := NodeApply(c.nodes[y], k)], wire := c.wire + (if out.Wrote? then {out.m} else {}))
      else c
    case Boot(x, sh) =>
      c.(masters := c.masters[x := State(sh, map[])], files := c.files[x := if x in c.files then c.files[x] else {}])
    case NodeBoot(y) => c.(nodes := c.nodes[y := Node(map[], map[])])
  }

  datatype History = History(states: seq<System>, events: seq<Event>)

  ghost predicate EventAt(h: History, exec: Task -> TaskResult, i: nat)
    requires i < |h.events| && |h.states| == |h.events| + 1
  {
    Happens(h.states[i], h.events[i], exec) && h.states[i + 1] == After(h.states[i], h.events[i])
  }

  const NOTHING := System(map[], map[], map[], {}, {}, map[])

  ghost predicate IsHistory(h: History, exec: Task -> TaskResult) {
    && |h.states| == |h.events| + 1
    && h.states[0] == NOTHING
    && forall i: nat :: i < |h.events| ==> EventAt(h, exec, i)
  }

  // ---------- the invariant ----------

  predicate LoopTrue(w: World, at: LoopPc) {
    match at
    case Running(id, task) => w.IsTask(id, task)
    case Holding(_, m) => MessageTrue(w, m)
    case Delivering(_, m) => MessageTrue(w, m)
    case Resending(tasks, _) => forall id :: id in tasks ==> MessageTrue(w, tasks[id])
    case _ => true
  }

  predicate NodeTrue(w: World, node: Node) {
    && (forall id :: id in node.open ==> MessageTrue(w, node.open[id]))
    && (forall i :: i in node.loops ==> LoopTrue(w, node.loops[i].at))
  }

  ghost predicate MastersTrue(w: World, c: System) {
    forall x :: x in c.masters ==> MasterTrue(w, c.masters[x])
  }

  ghost predicate FilesTrue(w: World, c: System) {
    forall x, sh :: x in c.files && sh in c.files[x] ==> SharedTrue(w, sh)
  }

  ghost predicate NetworkTrue(w: World, c: System) {
    && (forall m :: m in c.wire ==> MessageTrue(w, m))
    && (forall ps :: ps in c.peerWire ==> PeerTrue(w, ps))
    && (forall y :: y in c.nodes ==> NodeTrue(w, c.nodes[y]))
  }

  ghost predicate SystemTrue(w: World, c: System) {
    MastersTrue(w, c) && FilesTrue(w, c) && NetworkTrue(w, c)
  }

  // ---------- a submission only adds ----------

  ghost predicate Extends(w: World, v: World) {
    v.exec == w.exec && forall id :: id in w.submitted ==> id in v.submitted && v.submitted[id] == w.submitted[id]
  }

  lemma MasterStaysTrue(w: World, v: World, s: State)
    requires Extends(w, v) && MasterTrue(w, s)
    ensures MasterTrue(v, s)
  {
    forall t | t in s.threads ensures ThreadTrue(v, s.threads[t]) {
      assert ThreadTrue(w, s.threads[t]);
    }
  }

  lemma NodeStaysTrue(w: World, v: World, node: Node)
    requires Extends(w, v) && NodeTrue(w, node)
    ensures NodeTrue(v, node)
  {
    forall i | i in node.loops ensures LoopTrue(v, node.loops[i].at) {
      assert LoopTrue(w, node.loops[i].at);
    }
  }

  lemma StaysTrue(w: World, v: World, c: System)
    requires Extends(w, v) && SystemTrue(w, c)
    ensures SystemTrue(v, c)
  {
    forall x | x in c.masters ensures MasterTrue(v, c.masters[x]) {
      MasterStaysTrue(w, v, c.masters[x]);
    }
    forall y | y in c.nodes ensures NodeTrue(v, c.nodes[y]) {
      NodeStaysTrue(w, v, c.nodes[y]);
    }
    forall x, sh | x in c.files && sh in c.files[x] ensures SharedTrue(v, sh) {
      assert SharedTrue(w, sh);
    }
    forall m | m in c.wire ensures MessageTrue(v, m) {
      assert MessageTrue(w, m);
    }
    forall ps | ps in c.peerWire ensures PeerTrue(v, ps) {
      assert PeerTrue(w, ps);
    }
  }

  // ---------- one event ----------

  lemma MasterStepTrue(w: World, s: State, l: Label)
    requires Enabled(s, l) && MasterTrue(w, s)
    requires l.Move? ==> InputTrue(w, l.env.input)
    requires l.Spawn? && l.th.Shell? ==> w.IsTask(l.th.id, l.th.pt.task)
    ensures MasterTrue(w, Apply(s, l)) && OutputTrue(w, MasterWrites(s, l))
  {
    if l.Move? {
      assert ThreadTrue(w, s.threads[l.t]);
      hide Act, SharedTrue, ThreadTrue;
      ActTrue(w, s.sh, s.threads[l.t], l.env);
    }
  }

  lemma NodeStepTrue(w: World, node: Node, k: NodeLabel)
    requires NodeEnabled(node, k) && NodeTrue(w, node)
    requires k.Step? && k.env.input.Received? ==> MessageTrue(w, k.env.input.m)
    requires k.Step? && node.loops[k.w].at.Running? ==> k.env.result == w.exec(node.loops[k.w].at.task)
    ensures NodeTrue(w, NodeApply(node, k)) && (Writes(node, k).Wrote? ==> MessageTrue(w, Writes(node, k).m))
  {
    if k.Step? {
      assert LoopTrue(w, node.loops[k.w].at);
    }
  }

  function WorldOf(c: System, exec: Task -> TaskResult): World {
    World(c.submitted, exec)
  }

  lemma EventTrue(c: System, e: Event, exec: Task -> TaskResult)
    requires Happens(c, e, exec) && SystemTrue(WorldOf(c, exec), c)
    ensures SystemTrue(WorldOf(After(c, e), exec), After(c, e))
  {
    var w, v := WorldOf(c, exec), WorldOf(After(c, e), exec);
    hide MasterTrue, NodeTrue, SharedTrue, PeerTrue, Apply, NodeApply, MasterWrites, Writes, Enabled, NodeEnabled;
    match e
    case Submit(id, task) => StaysTrue(w, v, c);
    case Say(m) =>
    case MasterStep(x, l) => MasterStepTrue(w, c.masters[x], l);
    case NodeStep(y, k) => NodeStepTrue(w, c.nodes[y], k);
    case Boot(x, sh) => BootTrue(w, c, x, sh);
    case NodeBoot(y) => EmptyNodeTrue(w);
  }

  lemma EmptyNodeTrue(w: World)
    ensures NodeTrue(w, Node(map[], map[]))
  {
  }

  lemma BootTrue(w: World, c: System, x: MasterId, sh: Shared)
    requires FilesTrue(w, c) && (IsEmpty(sh) || (x in c.files && sh in c.files[x]))
    ensures MasterTrue(w, State(sh, map[]))
  {
  }

  // ---------- every run ----------

  lemma {:induction false} AlwaysTrue(h: History, exec: Task -> TaskResult, n: nat)
    requires IsHistory(h, exec) && n <= |h.events|
    ensures SystemTrue(WorldOf(h.states[n], exec), h.states[n])
  {
    if n > 0 {
      AlwaysTrue(h, exec, n - 1);
      assert EventAt(h, exec, n - 1);
      EventTrue(h.states[n - 1], h.events[n - 1], exec);
    }
  }

  lemma {:induction false} SubmissionsAreFinal(h: History, exec: Task -> TaskResult, i: nat, n: nat, id: Id)
    requires IsHistory(h, exec) && i <= n <= |h.events| && id in h.states[i].submitted
    ensures id in h.states[n].submitted && h.states[n].submitted[id] == h.states[i].submitted[id]
    decreases n - i
  {
    if i < n {
      SubmissionsAreFinal(h, exec, i, n - 1, id);
      assert EventAt(h, exec, n - 1);
    }
  }

  /** The answer is right: any result anyone ever writes for an id - a node's report or a
      master's reply - is what executing the task submitted under that id gives, however often
      it was requeued, executed twice, resent, merged or restored from disk on the way. */
  lemma AnswersAreRight(h: History, exec: Task -> TaskResult, n: nat, id: Id, result: TaskResult)
    requires IsHistory(h, exec) && n <= |h.events|
    requires ResultOf(id, result) in h.states[n].wire
    ensures id in h.states[n].submitted && result == exec(h.states[n].submitted[id])
  {
    AlwaysTrue(h, exec, n);
    assert MessageTrue(WorldOf(h.states[n], exec), ResultOf(id, result));
  }

  /** No two masters, at any two times, disagree about the result of a task. */
  lemma CompletedAgrees(h: History, exec: Task -> TaskResult, i: nat, x: MasterId, j: nat, y: MasterId, id: Id)
    requires IsHistory(h, exec) && i <= |h.events| && j <= |h.events|
    requires x in h.states[i].masters && id in h.states[i].masters[x].sh.completed
    requires y in h.states[j].masters && id in h.states[j].masters[y].sh.completed
    ensures h.states[i].masters[x].sh.completed[id] == h.states[j].masters[y].sh.completed[id]
  {
    AlwaysTrue(h, exec, i);
    AlwaysTrue(h, exec, j);
    assert MasterTrue(WorldOf(h.states[i], exec), h.states[i].masters[x]);
    assert MasterTrue(WorldOf(h.states[j], exec), h.states[j].masters[y]);
    if i <= j {
      SubmissionsAreFinal(h, exec, i, j, id);
    } else {
      SubmissionsAreFinal(h, exec, j, i, id);
    }
  }

  /** Whatever a node is told to execute is the task submitted under that id. */
  lemma AssignmentsAreRight(h: History, exec: Task -> TaskResult, n: nat, id: Id, task: Task)
    requires IsHistory(h, exec) && n <= |h.events|
    requires AssignTask(id, task) in h.states[n].wire
    ensures id in h.states[n].submitted && task == h.states[n].submitted[id]
  {
    AlwaysTrue(h, exec, n);
    assert MessageTrue(WorldOf(h.states[n], exec), AssignTask(id, task));
  }
}
