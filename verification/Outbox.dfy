/** A node: tasks it is assigned are executed, the result is put in the outbox `open_tasks`,
    written, and taken out again if the write succeeded. The heartbeat loop and any number of
    direct connections share the outbox; only the heartbeat loop reconnects and resends. */
module Outbox {
  import opened Protocol

  type LoopId = nat

  datatype LoopPc =
    | Waiting                                               // read a message
    | Running(id: Id, task: Task)                           // execute_node_task
    | Holding(id: Id, m: NodeMessage)                       // open_tasks.insert
    | Delivering(id: Id, m: NodeMessage)                    // write the result
    | Clearing(id: Id)                                      // open_tasks.remove
    | Reconnecting                                          // connection lost
    | Resending(tasks: map<Id, NodeMessage>, todo: seq<Id>) // write every entry of the copy
    | Stopped

  /** `main` is the heartbeat loop; the others serve direct connections. */
  datatype Loop = Loop(main: bool, at: LoopPc)

  datatype Node = Node(open: map<Id, NodeMessage>, loops: map<LoopId, Loop>)

  datatype NodeInput = Received(m: NodeMessage) | Lost

  datatype NodeEnv = NodeEnv(input: NodeInput, ok: bool, result: TaskResult, order: seq<Id>)

  datatype NodeOutput = Nothing | Wrote(m: NodeMessage)

  datatype NodeEffect = NodeEffect(open: map<Id, NodeMessage>, at: LoopPc, out: NodeOutput)

  /** One step of one loop. A failed heartbeat is a lost connection. */
  function Work(open: map<Id, NodeMessage>, loop: Loop, env: NodeEnv): NodeEffect {
    match loop.at
    case Waiting =>
      (match env.input
       case Received(AssignTask(id, task)) => NodeEffect(open, Running(id, task), Nothing)
       case Received(_) => NodeEffect(open, Waiting, Nothing)
       case Lost => NodeEffect(open, if loop.main then Reconnecting else Stopped, Nothing))
    case Running(id, task) => NodeEffect(open, Holding(id, ResultOf(id, env.result)), Nothing)
    case Holding(id, m) => NodeEffect(open[id := m], Delivering(id, m), Nothing)
    case Delivering(id, m) =>
      if env.ok then NodeEffect(open, Clearing(id), Wrote(m)) else NodeEffect(open, Waiting, Nothing)
    case Clearing(id) => NodeEffect(open - {id}, Waiting, Nothing)
    case Reconnecting => NodeEffect(open, if env.ok then Resending(open, env.order) else Stopped, Nothing)
    case Resending(tasks, todo) =>
      if todo == [] then NodeEffect(open, Waiting, Nothing)
      else
        NodeEffect(open, Resending(tasks, todo[1..]),
                   if env.ok && todo[0] in tasks then Wrote(tasks[todo[0]]) else Nothing)
    case Stopped => NodeEffect(open, loop.at, Nothing)
  }

  datatype NodeLabel = Open(w: LoopId) | Step(w: LoopId, env: NodeEnv)

  ghost predicate NodeEnabled(s: Node, l: NodeLabel) {
    match l
    case Open(w) => w !in s.loops
    case Step(w, env) =>
      && w in s.loops && !s.loops[w].at.Stopped?
      && (s.loops[w].at.Reconnecting? ==> multiset(env.order) == multiset(s.open.Keys))
  }

  function NodeApply(s: Node, l: NodeLabel): Node {
    match l
    case Open(w) => s.(loops := s.loops[w := Loop(w == 0, Waiting)])
    case Step(w, env) =>
      if w in s.loops then
        var e := Work(s.open, s.loops[w], env);
        Node(e.open, s.loops[w := s.loops[w].(at := e.at)])
      else s
  }

  function Writes(s: Node, l: NodeLabel): NodeOutput {
    if l.Step? && l.w in s.loops then Work(s.open, s.loops[l.w], l.env).out else Nothing
  }

  /** The result a step has just computed. */
  function Executes(s: Node, l: NodeLabel): set<NodeMessage> {
    if l.Step? && l.w in s.loops && s.loops[l.w].at.Running? then {ResultOf(s.loops[l.w].at.id, l.env.result)} else {}
  }

  datatype NodeRun = NodeRun(states: seq<Node>, labels: seq<NodeLabel>)

  ghost predicate NodeStepAt(r: NodeRun, i: nat)
    requires i < |r.labels| && |r.states| == |r.labels| + 1
  {
    NodeEnabled(r.states[i], r.labels[i]) && r.states[i + 1] == NodeApply(r.states[i], r.labels[i])
  }

  ghost predicate IsNodeRun(r: NodeRun) {
    && |r.states| == |r.labels| + 1
    && r.states[0] == Node(map[], map[])
    && forall i: nat :: i < |r.labels| ==> NodeStepAt(r, i)
  }

  ghost function ExecutedIn(r: NodeRun, n: nat): set<NodeMessage>
    requires IsNodeRun(r) && n <= |r.labels|
  {
    if n == 0 then {} else ExecutedIn(r, n - 1) + Executes(r.states[n - 1], r.labels[n - 1])
  }

  ghost function WrittenIn(r: NodeRun, n: nat): set<NodeMessage>
    requires IsNodeRun(r) && n <= |r.labels|
  {
    if n == 0 then {}
    else
      var out := Writes(r.states[n - 1], r.labels[n - 1]);
      WrittenIn(r, n - 1) + (if out.Wrote? then {out.m} else {})
  }

  predicate IsResultFor(m: NodeMessage, id: Id) {
    m.ResultOf? && m.id == id
  }

  ghost predicate WrittenFor(written: set<NodeMessage>, id: Id) {
    exists m :: m in written && IsResultFor(m, id)
  }

  // ---------- only executed results are ever kept or written ----------

  ghost predicate AllExecuted(tasks: map<Id, NodeMessage>, executed: set<NodeMessage>) {
    forall id :: id in tasks ==> tasks[id] in executed && IsResultFor(tasks[id], id)
  }

  ghost predicate LoopHonest(at: LoopPc, executed: set<NodeMessage>, written: set<NodeMessage>) {
    match at
    case Holding(id, m) => m in executed && IsResultFor(m, id)
    case Delivering(id, m) => m in executed && IsResultFor(m, id)
    case Clearing(id) => WrittenFor(written, id)
    case Resending(tasks, _) => AllExecuted(tasks, executed)
    case _ => true
  }

  ghost predicate Honest(s: Node, executed: set<NodeMessage>, written: set<NodeMessage>) {
    && AllExecuted(s.open, executed)
    && (forall w :: w in s.loops ==> LoopHonest(s.loops[w].at, executed, written))
    && (forall m :: m in written ==> m in executed && m.ResultOf?)
  }

  lemma WorkHonest(open: map<Id, NodeMessage>, loop: Loop, env: NodeEnv, executed: set<NodeMessage>, written: set<NodeMessage>)
    requires AllExecuted(open, executed) && LoopHonest(loop.at, executed, written)
    ensures var e := Work(open, loop, env);
            var executed' := executed + (if loop.at.Running? then {ResultOf(loop.at.id, env.result)} else {});
            && AllExecuted(e.open, executed')
            && (e.out.Wrote? ==> e.out.m in executed && e.out.m.ResultOf?)
            && LoopHonest(e.at, executed', written + (if e.out.Wrote? then {e.out.m} else {}))
  {
    if loop.at.Delivering? && env.ok {
      assert loop.at.m in written + {loop.at.m};
    }
  }

  lemma HonestyGrows(at: LoopPc, e: set<NodeMessage>, w: set<NodeMessage>, e': set<NodeMessage>, w': set<NodeMessage>)
    requires LoopHonest(at, e, w) && e <= e' && w <= w'
    ensures LoopHonest(at, e', w')
  {
  }

  lemma {:induction false} RunHonest(r: NodeRun, n: nat)
    requires IsNodeRun(r) && n <= |r.labels|
    ensures Honest(r.states[n], ExecutedIn(r, n), WrittenIn(r, n))
  {
    if n > 0 {
      RunHonest(r, n - 1);
      assert NodeStepAt(r, n - 1);
      var s, l := r.states[n - 1], r.labels[n - 1];
      hide Honest, NodeApply, Writes, Executes, NodeEnabled;
      StepHonest(s, l, ExecutedIn(r, n - 1), WrittenIn(r, n - 1));
    }
  }

  lemma StepHonest(s: Node, l: NodeLabel, e: set<NodeMessage>, w: set<NodeMessage>)
    requires NodeEnabled(s, l) && Honest(s, e, w)
    ensures var out := Writes(s, l);
            Honest(NodeApply(s, l), e + Executes(s, l), w + (if out.Wrote? then {out.m} else {}))
  {
    var s', out := NodeApply(s, l), Writes(s, l);
    var e', w' := e + Executes(s, l), w + (if out.Wrote? then {out.m} else {});
    hide LoopHonest, Work, AllExecuted;
    if l.Step? {
      WorkHonest(s.open, s.loops[l.w], l.env, e, w);
    } else {
      assert e' == e;
    }
    forall u | u in s'.loops ensures LoopHonest(s'.loops[u].at, e', w') {
      if u in s.loops && !(l.Step? && u == l.w) {
        HonestyGrows(s.loops[u].at, e, w, e', w');
      } else if l.Open? {
        FreshLoopHonest(e', w');
      }
    }
  }

  lemma FreshLoopHonest(e: set<NodeMessage>, w: set<NodeMessage>)
    ensures LoopHonest(Waiting, e, w)
  {
  }

  // ---------- at least once ----------

  ghost predicate HeldSomewhere(s: Node, id: Id) {
    exists w :: w in s.loops && s.loops[w].at.Holding? && s.loops[w].at.id == id
  }

  /** A result for `id` is still in the node's hands or has been written in full. */
  ghost predicate Kept(s: Node, written: set<NodeMessage>, id: Id) {
    HeldSomewhere(s, id) || id in s.open || WrittenFor(written, id)
  }

  lemma StepKeeps(s: Node, l: NodeLabel, executed: set<NodeMessage>, written: set<NodeMessage>, id: Id)
    requires NodeEnabled(s, l) && Honest(s, executed, written)
    requires Kept(s, written, id) || (exists m :: m in Executes(s, l) && IsResultFor(m, id))
    ensures var out := Writes(s, l);
            Kept(NodeApply(s, l), written + (if out.Wrote? then {out.m} else {}), id)
  {
    var s', out := NodeApply(s, l), Writes(s, l);
    if HeldSomewhere(s, id) {
      var w :| w in s.loops && s.loops[w].at.Holding? && s.loops[w].at.id == id;
      assert w in s'.loops;
    } else if id in s.open && id !in s'.open {
      assert LoopHonest(s.loops[l.w].at, executed, written);
    } else if l.Step? && s.loops[l.w].at.Running? && s.loops[l.w].at.id == id {
      assert s'.loops[l.w].at.Holding?;
    }
  }

  /** At every point of every run, whatever fails: each id whose task was executed still has a
      result held, in the outbox, or fully written. */
  lemma {:induction false} AtLeastOnce(r: NodeRun, n: nat, m: NodeMessage)
    requires IsNodeRun(r) && n <= |r.labels| && m in ExecutedIn(r, n)
    ensures m.ResultOf? && Kept(r.states[n], WrittenIn(r, n), m.id)
  {
    var s, l := r.states[n - 1], r.labels[n - 1];
    assert NodeStepAt(r, n - 1);
    RunHonest(r, n - 1);
    if m in ExecutedIn(r, n - 1) {
      AtLeastOnce(r, n - 1, m);
    }
    StepKeeps(s, l, ExecutedIn(r, n - 1), WrittenIn(r, n - 1), m.id);
  }

  /** Executing a task twice gives the same result. */
  ghost predicate Deterministic(r: NodeRun)
    requires IsNodeRun(r)
  {
    forall m, m' | m in ExecutedIn(r, |r.labels|) && m' in ExecutedIn(r, |r.labels|) ::
      m.ResultOf? && m'.ResultOf? && m.id == m'.id ==> m == m'
  }

  lemma {:induction false} ExecutedGrows(r: NodeRun, i: nat, n: nat)
    requires IsNodeRun(r) && i <= n <= |r.labels|
    ensures ExecutedIn(r, i) <= ExecutedIn(r, n)
    decreases n - i
  {
    if i < n {
      ExecutedGrows(r, i, n - 1);
    }
  }

  /** With deterministic tasks it is that very result. (`ResultCanBeLost` shows that without
      determinism it need not be: two loops may execute the same id.) */
  lemma TheResultItself(r: NodeRun, n: nat, m: NodeMessage)
    requires IsNodeRun(r) && n <= |r.labels| && m in ExecutedIn(r, n) && Deterministic(r)
    ensures m.ResultOf?
    ensures var s := r.states[n];
            || m in WrittenIn(r, n)
            || (m.id in s.open && s.open[m.id] == m)
            || (exists w :: w in s.loops && s.loops[w].at == Holding(m.id, m))
  {
    var s := r.states[n];
    AtLeastOnce(r, n, m);
    RunHonest(r, n);
    ExecutedGrows(r, n, |r.labels|);
    if HeldSomewhere(s, m.id) {
      var w :| w in s.loops && s.loops[w].at.Holding? && s.loops[w].at.id == m.id;
      assert LoopHonest(s.loops[w].at, ExecutedIn(r, n), WrittenIn(r, n));
    }
  }

  // ---------- why determinism matters ----------

  ghost function LastOf(r: NodeRun): Node
    requires IsNodeRun(r)
  {
    r.states[|r.labels|]
  }

  ghost function More(r: NodeRun, l: NodeLabel): (e: NodeRun)
    requires IsNodeRun(r) && NodeEnabled(LastOf(r), l)
    ensures IsNodeRun(e) && LastOf(e) == NodeApply(LastOf(r), l) && |e.labels| == |r.labels| + 1
    ensures ExecutedIn(e, |e.labels|) == ExecutedIn(r, |r.labels|) + Executes(LastOf(r), l)
    ensures var out := Writes(LastOf(r), l);
            WrittenIn(e, |e.labels|) == WrittenIn(r, |r.labels|) + (if out.Wrote? then {out.m} else {})
  {
    var e := NodeRun(r.states + [NodeApply(LastOf(r), l)], r.labels + [l]);
    assert forall i: nat :: i < |r.labels| ==> NodeStepAt(r, i) ==> NodeStepAt(e, i);
    assert NodeStepAt(e, |r.labels|);
    SamePrefix(r, e, |r.labels|);
    e
  }

  lemma {:induction false} SamePrefix(r: NodeRun, e: NodeRun, n: nat)
    requires IsNodeRun(r) && IsNodeRun(e) && n <= |r.labels| && r.labels <= e.labels && r.states <= e.states
    ensures ExecutedIn(e, n) == ExecutedIn(r, n) && WrittenIn(e, n) == WrittenIn(r, n)
  {
    if n > 0 {
      SamePrefix(r, e, n - 1);
    }
  }

  /** Any step with the fields it does not use left at nothing in particular. */
  function Do(w: LoopId, input: NodeInput, ok: bool, result: TaskResult): NodeLabel {
    Step(w, NodeEnv(input, ok, result, []))
  }

  lemma OneRunning(id: Id, task: Task, x: TaskResult) returns (r: NodeRun)
    ensures IsNodeRun(r) && ExecutedIn(r, |r.labels|) == {} && WrittenIn(r, |r.labels|) == {}
    ensures LastOf(r) == Node(map[], map[0 := Loop(true, Running(id, task))])
  {
    r := NodeRun([Node(map[], map[])], []);
    assert IsNodeRun(r) && ExecutedIn(r, 0) == {} && WrittenIn(r, 0) == {};
    hide ExecutedIn, WrittenIn, IsNodeRun;
    r := More(r, Open(0));
    assert LastOf(r) == Node(map[], map[0 := Loop(true, Waiting)]);
    r := More(r, Do(0, Received(AssignTask(id, task)), true, x));
  }

  lemma OneExecuted(id: Id, task: Task, x: TaskResult) returns (r: NodeRun)
    ensures IsNodeRun(r) && ExecutedIn(r, |r.labels|) == {ResultOf(id, x)} && WrittenIn(r, |r.labels|) == {}
    ensures LastOf(r) == Node(map[], map[0 := Loop(true, Holding(id, ResultOf(id, x)))])
  {
    hide ExecutedIn, WrittenIn, IsNodeRun;
    r := OneRunning(id, task, x);
    r := More(r, Do(0, Lost, true, x));
  }

  lemma SecondRunning(id: Id, task: Task, x: TaskResult) returns (r: NodeRun)
    ensures IsNodeRun(r) && ExecutedIn(r, |r.labels|) == {ResultOf(id, x)} && WrittenIn(r, |r.labels|) == {}
    ensures LastOf(r) == Node(map[], map[0 := Loop(true, Holding(id, ResultOf(id, x))), 1 := Loop(false, Running(id, task))])
  {
    hide ExecutedIn, WrittenIn, IsNodeRun;
    r := OneExecuted(id, task, x);
    var one := LastOf(r).loops;
    r := More(r, Open(1));
    assert LastOf(r) == Node(map[], one[1 := Loop(false, Waiting)]);
    r := More(r, Do(1, Received(AssignTask(id, task)), true, x));
  }

  lemma BothExecuted(id: Id, task: Task, x: TaskResult, y: TaskResult) returns (r: NodeRun)
    ensures IsNodeRun(r) && ExecutedIn(r, |r.labels|) == {ResultOf(id, x), ResultOf(id, y)}
    ensures WrittenIn(r, |r.labels|) == {}
    ensures LastOf(r) == Node(map[], map[0 := Loop(true, Holding(id, ResultOf(id, x))),
                                         1 := Loop(false, Holding(id, ResultOf(id, y)))])
  {
    hide ExecutedIn, WrittenIn, IsNodeRun;
    r := SecondRunning(id, task, x);
    r := More(r, Do(1, Lost, true, y));
  }

  /** Both results are filed under the one id, and the first is written. */
  lemma FirstWritten(id: Id, task: Task, x: TaskResult, y: TaskResult) returns (r: NodeRun)
    ensures IsNodeRun(r) && ExecutedIn(r, |r.labels|) == {ResultOf(id, x), ResultOf(id, y)}
    ensures WrittenIn(r, |r.labels|) == {ResultOf(id, x)}
    ensures LastOf(r) == Node(map[id := ResultOf(id, y)],
                              map[0 := Loop(true, Clearing(id)), 1 := Loop(false, Delivering(id, ResultOf(id, y)))])
  {
    hide ExecutedIn, WrittenIn, IsNodeRun;
    r := BothExecuted(id, task, x, y);
    r := More(r, Do(0, Lost, true, x));
    r := More(r, Do(1, Lost, true, y));
    assert LastOf(r).open == map[id := ResultOf(id, y)];
    r := More(r, Do(0, Lost, true, x));
  }

  /** Two loops execute the same id with results `x` and `y`: the first one's cleanup removes
      the second one's entry, and if that one then cannot be written it is gone. */
  lemma ResultCanBeLost(id: Id, task: Task, x: TaskResult, y: TaskResult) returns (r: NodeRun)
    requires x != y
    ensures IsNodeRun(r) && ResultOf(id, y) in ExecutedIn(r, |r.labels|)
    ensures ResultOf(id, y) !in WrittenIn(r, |r.labels|) && LastOf(r).open == map[]
    ensures forall w :: w in LastOf(r).loops ==> LastOf(r).loops[w].at == Waiting
  {
    hide ExecutedIn, WrittenIn, IsNodeRun;
    r := FirstWritten(id, task, x, y);
    r := More(r, Do(0, Lost, true, x));
    r := More(r, Do(1, Lost, false, y));
  }
}
