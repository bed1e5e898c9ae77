/** At most one owner. Counting every place a task can be handed out from, a step never
    makes more copies of a task than were submitted - unless an assignment could not be
    written, or another master's node table is imported. */
module Owners {
  import opened Protocol
  import opened Regions
  import opened Machine
  import opened Counting
  import opened TaskLedger

  ghost function Owning(nodes: map<Addr, NodeInfo>, id: Id): set<Addr> {
    set a | a in nodes && id in nodes[a].activeTasks
  }

  /** The thread has taken the task from a collection and will hand it on. */
  predicate Carries(th: Thread, id: Id) {
    match th
    case Handler(_, at) =>
      (match at
       case Recording(_, i, _) => i == id
       case Assigning(_, i, _, recorded) => i == id && !recorded
       case Requeuing(i, _) => i == id
       case _ => false)
    case Reaper(_, Salvaging(_, active, _)) => id in active
    case _ => false
  }

  ghost function Carrying(threads: map<Tid, Thread>, id: Id): set<Tid> {
    set t | t in threads && Carries(threads[t], id)
  }

  function Bit(b: bool): nat { if b then 1 else 0 }

  ghost function OwnersIn(sh: Shared, id: Id): nat {
    Bit(id in sh.pending) + |Owning(sh.nodes, id)|
  }

  /** Queue entry, active entries and carried copies of one task. */
  ghost function Tokens(s: State, id: Id): nat {
    OwnersIn(s.sh, id) + |Carrying(s.threads, id)|
  }

  /** An assignment write that fails puts the task back while the node may still list it. */
  predicate FailsAssignment(s: State, l: Label) {
    && l.Move? && l.t in s.threads
    && s.threads[l.t].Handler? && s.threads[l.t].at.Assigning?
    && !l.env.ok
  }

  ghost predicate NoFailedAssignment(r: Run)
    requires |r.states| == |r.labels| + 1
  {
    forall i: nat :: i < |r.labels| ==> !FailsAssignment(r.states[i], r.labels[i])
  }

  function Submits(s: State, l: Label, id: Id): nat {
    var th := Acting(s, l);
    Bit(th.Some? && id in AcceptedBy(th.value))
  }

  ghost function SubmissionsIn(r: Run, n: nat, id: Id): nat
    requires IsRun(r) && n <= |r.labels|
  {
    if n == 0 then 0 else SubmissionsIn(r, n - 1, id) + Submits(r.states[n - 1], r.labels[n - 1], id)
  }

  // ---------- one entry ----------

  lemma OwningWith(nodes: map<Addr, NodeInfo>, a: Addr, info: NodeInfo, id: Id)
    ensures |Owning(nodes[a := info], id)| + Bit(a in nodes && id in nodes[a].activeTasks)
         == |Owning(nodes, id)| + Bit(id in info.activeTasks)
  {
    CountWith(Owning(nodes, id), Owning(nodes[a := info], id), a);
  }

  lemma OwningWithout(nodes: map<Addr, NodeInfo>, a: Addr, id: Id)
    ensures |Owning(nodes - {a}, id)| + Bit(a in nodes && id in nodes[a].activeTasks) == |Owning(nodes, id)|
  {
    CountWith(Owning(nodes, id), Owning(nodes - {a}, id), a);
  }

  lemma CarryingWith(threads: map<Tid, Thread>, t: Tid, th: Thread, id: Id)
    ensures |Carrying(threads[t := th], id)| + Bit(t in threads && Carries(threads[t], id))
         == |Carrying(threads, id)| + Bit(Carries(th, id))
  {
    hide Carries;
    CountWith(Carrying(threads, id), Carrying(threads[t := th], id), t);
  }

  // ---------- one critical section ----------

  lemma NodeSections(sh: Shared, addr: Addr, i: Id, task: Task, id: Id)
    ensures OwnersIn(RecordActive(sh, addr, i, task), id) <= OwnersIn(sh, id) + Bit(i == id && addr in sh.nodes)
    ensures OwnersIn(DropActive(sh, addr, i), id) <= OwnersIn(sh, id)
    ensures OwnersIn(RemoveNode(sh, addr), id) + Bit(id in ActiveAt(sh, addr)) == OwnersIn(sh, id)
  {
    OwningWithout(sh.nodes, addr, id);
    if addr in sh.nodes {
      OwningWith(sh.nodes, addr, RecordActive(sh, addr, i, task).nodes[addr], id);
      OwningWith(sh.nodes, addr, DropActive(sh, addr, i).nodes[addr], id);
    }
  }

  lemma MemberSections(sh: Shared, addr: Addr, role: NodeRole, now: nat, id: Id)
    ensures OwnersIn(Register(sh, addr, now), id) <= OwnersIn(sh, id)
    ensures OwnersIn(SetRole(sh, addr, role), id) == OwnersIn(sh, id)
    ensures OwnersIn(Beat(sh, addr, now), id) == OwnersIn(sh, id)
  {
    OwningWith(sh.nodes, addr, Register(sh, addr, now).nodes[addr], id);
    if addr in sh.nodes {
      OwningWith(sh.nodes, addr, SetRole(sh, addr, role).nodes[addr], id);
      OwningWith(sh.nodes, addr, Beat(sh, addr, now).nodes[addr], id);
    }
  }

  lemma PortSections(sh: Shared, addr: Addr, p: Port, id: Id)
    ensures OwnersIn(ClearPort(sh, addr), id) == OwnersIn(sh, id)
    ensures OwnersIn(StorePort(sh, addr, p), id) == OwnersIn(sh, id)
  {
    if addr in sh.nodes {
      OwningWith(sh.nodes, addr, ClearPort(sh, addr).nodes[addr], id);
      OwningWith(sh.nodes, addr, StorePort(sh, addr, p).nodes[addr], id);
    }
  }

  // ---------- one step ----------

  ghost predicate MakesNoCopies(sh: Shared, th: Thread, sh': Shared, th': Thread, id: Id) {
    OwnersIn(sh', id) + Bit(Carries(th', id)) <= OwnersIn(sh, id) + Bit(Carries(th, id)) + Bit(id in AcceptedBy(th))
  }

  lemma DispatchMakesNoCopies(sh: Shared, addr: Addr, at: HandlerPc, env: Env, id: Id)
    requires Dispatching(at) && (at.Assigning? ==> env.ok)
    ensures var (sh', at', _) := ActDispatch(sh, addr, at, env);
            MakesNoCopies(sh, Handler(addr, at), sh', Handler(addr, at'), id)
  {
    match at
    case Recording(_, i, pt) => NodeSections(sh, addr, i, pt.task, id);
    case Unrecording(i) => NodeSections(sh, addr, i, GetStorage, id);
    case _ =>
  }

  lemma MemberMakesNoCopies(sh: Shared, addr: Addr, at: HandlerPc, env: Env, id: Id)
    requires Belonging(at)
    ensures var (sh', at') := ActMember(sh, addr, at, env);
            MakesNoCopies(sh, Handler(addr, at), sh', Handler(addr, at'), id)
  {
    hide OwnersIn;
    match at
    case Greeting =>
    case Joining => MemberSections(sh, addr, Worker, env.now, id);
    case Announcing(role) => MemberSections(sh, addr, role, env.now, id);
    case Beating => MemberSections(sh, addr, Worker, env.now, id);
    case Leaving => NodeSections(sh, addr, id, GetStorage, id);
    case Closing => NodeSections(sh, addr, id, GetStorage, id);
  }

  lemma PortMakesNoCopies(sh: Shared, addr: Addr, at: HandlerPc, id: Id)
    requires Porting(at)
    ensures var (sh', at') := ActPort(sh, addr, at);
            MakesNoCopies(sh, Handler(addr, at), sh', Handler(addr, at'), id)
  {
    PortSections(sh, addr, if at.Storing? then at.port else 0, id);
  }

  lemma RequestMakesNoCopies(sh: Shared, addr: Addr, at: HandlerPc, env: Env, id: Id)
    requires !Dispatching(at) && !Belonging(at) && !Porting(at)
    ensures var (sh', at', _) := ActRequest(sh, addr, at, env);
            MakesNoCopies(sh, Handler(addr, at), sh', Handler(addr, at'), id)
  {
    if at.Finishing? {
      NodeSections(sh, addr, at.id, GetStorage, id);
    }
  }

  lemma ReaperMakesNoCopies(sh: Shared, timeout: nat, at: ReaperPc, env: Env, id: Id)
    ensures var (sh', at') := ActReaper(sh, timeout, at, env);
            MakesNoCopies(sh, Reaper(timeout, at), sh', Reaper(timeout, at'), id)
  {
    match at
    case Reaping(stale) => if stale != [] { NodeSections(sh, stale[0], id, GetStorage, id); }
    case Taking(addr, _) => PortSections(sh, addr, 0, id);
    case _ =>
  }

  lemma ActMakesNoCopies(sh: Shared, th: Thread, env: Env, id: Id)
    requires !(th.Peer? && (th.sync.MergingNodes? || th.sync.MergingPending?))
    requires th.Handler? && th.at.Assigning? ==> env.ok
    ensures var e := Act(sh, th, env); MakesNoCopies(sh, th, e.sh, e.th, id)
  {
    match th
    case Handler(addr, at) =>
      hide MakesNoCopies;
      if Dispatching(at) {
        DispatchMakesNoCopies(sh, addr, at, env, id);
      } else if Belonging(at) {
        MemberMakesNoCopies(sh, addr, at, env, id);
      } else if Porting(at) {
        PortMakesNoCopies(sh, addr, at, id);
      } else {
        RequestMakesNoCopies(sh, addr, at, env, id);
      }
    case Reaper(timeout, at) => ReaperMakesNoCopies(sh, timeout, at, env, id);
    case Peer(_, _) =>
    case Saver(_) =>
    case Shell(_, _, _) =>
  }

  /** Steps that import another master's tasks, queued or running. */
  predicate ImportsTasks(s: State, l: Label) {
    && l.Move? && l.t in s.threads && s.threads[l.t].Peer?
    && (s.threads[l.t].sync.MergingNodes? || s.threads[l.t].sync.MergingPending?)
  }

  ghost predicate ImportsNoTasks(r: Run)
    requires |r.states| == |r.labels| + 1
  {
    forall i: nat :: i < |r.labels| ==> !ImportsTasks(r.states[i], r.labels[i])
  }

  lemma StepMakesNoCopies(s: State, l: Label, id: Id)
    requires Enabled(s, l) && !ImportsTasks(s, l) && !FailsAssignment(s, l)
    ensures Tokens(Apply(s, l), id) <= Tokens(s, id) + Submits(s, l, id)
  {
    match l
    case Spawn(t, th) => CarryingWith(s.threads, t, th, id);
    case Move(t, env) =>
      ActMakesNoCopies(s.sh, s.threads[t], env, id);
      CarryingWith(s.threads, t, EffectOf(s, t, env).th, id);
  }

  // ---------- whole runs ----------

  lemma {:induction false} NoMoreCopiesThanSubmissions(r: Run, n: nat, id: Id)
    requires IsRun(r) && n <= |r.labels|
    requires ImportsNoTasks(r) && NoFailedAssignment(r)
    ensures Tokens(r.states[n], id) <= OwnersIn(r.states[0].sh, id) + SubmissionsIn(r, n, id)
  {
    if n == 0 {
      assert Carrying(r.states[0].threads, id) == {};
    } else {
      NoMoreCopiesThanSubmissions(r, n - 1, id);
      assert StepAt(r, n - 1);
      StepMakesNoCopies(r.states[n - 1], r.labels[n - 1], id);
    }
  }

  /** Each task id is handed in once, counting what the run started with. */
  ghost predicate DistinctIds(r: Run)
    requires IsRun(r)
  {
    forall id :: OwnersIn(r.states[0].sh, id) + SubmissionsIn(r, |r.labels|, id) <= 1
  }

  lemma {:induction false} SubmissionsGrow(r: Run, m: nat, n: nat, id: Id)
    requires IsRun(r) && m <= n <= |r.labels|
    ensures SubmissionsIn(r, m, id) <= SubmissionsIn(r, n, id)
  {
    if m < n {
      SubmissionsGrow(r, m, n - 1, id);
    }
  }

  /** No task is active on two nodes. */
  ghost predicate OneActive(sh: Shared) {
    forall a, b, id :: id in ActiveAt(sh, a) && id in ActiveAt(sh, b) ==> a == b
  }

  lemma {:induction false} AtMostOneOwner(r: Run, n: nat)
    requires IsRun(r) && n <= |r.labels|
    requires ImportsNoTasks(r) && NoFailedAssignment(r) && DistinctIds(r)
    ensures forall id :: Tokens(r.states[n], id) <= 1
    ensures OneActive(r.states[n].sh)
    ensures forall id :: IsActive(r.states[n].sh, id) ==> id !in r.states[n].sh.pending
  {
    forall id ensures Tokens(r.states[n], id) <= 1 {
      NoMoreCopiesThanSubmissions(r, n, id);
      SubmissionsGrow(r, n, |r.labels|, id);
    }
    forall id ensures OwnersIn(r.states[n].sh, id) <= 1 {
      assert Tokens(r.states[n], id) <= 1;
    }
    TokensBoundOwners(r.states[n].sh);
  }

  lemma TokensBoundOwners(sh: Shared)
    requires forall id :: OwnersIn(sh, id) <= 1
    ensures OneActive(sh)
    ensures forall id :: IsActive(sh, id) ==> id !in sh.pending
  {
    forall a, b, id | id in ActiveAt(sh, a) && id in ActiveAt(sh, b) ensures a == b {
      assert OwnersIn(sh, id) <= 1;
      AtMostOneOwns(sh, a, b, id);
    }
    forall id | IsActive(sh, id) ensures id !in sh.pending {
      var a :| a in sh.nodes && id in sh.nodes[a].activeTasks;
      assert OwnersIn(sh, id) <= 1;
      AtMostOneOwns(sh, a, a, id);
    }
  }

  lemma AtMostOneOwns(sh: Shared, a: Addr, b: Addr, id: Id)
    requires OwnersIn(sh, id) <= 1 && id in ActiveAt(sh, a) && id in ActiveAt(sh, b)
    ensures a == b && id !in sh.pending
  {
    assert Owning(sh.nodes, id) == {a, b} + (Owning(sh.nodes, id) - {a, b});
  }
}
