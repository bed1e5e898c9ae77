/** Conservation of ports. The queue, the node entries, the handlers' and the reaper's
    local variables and the ports dropped so far always make up the same multiset,
    however the critical sections interleave. */
module PortLedger {
  import opened Protocol
  import opened Regions
  import opened Machine
  import opened Counting

  ghost function Holders(nodes: map<Addr, NodeInfo>, p: Port): set<Addr> {
    set a | a in nodes && nodes[a].port == Some(p)
  }

  /** The port a thread has taken out of the collections and not yet put back. */
  function InHand(th: Thread): Option<Port> {
    match th
    case Handler(_, Storing(_, p)) => Some(p)
    case Handler(_, Returning(p)) => Some(p)
    case Reaper(_, Pushing(p, _)) => Some(p)
    case _ => None
  }

  ghost function Carriers(threads: map<Tid, Thread>, p: Port): set<Tid> {
    set t | t in threads && InHand(threads[t]) == Some(p)
  }

  function One(p: Option<Port>): multiset<Port> {
    if p.Some? then multiset{p.value} else multiset{}
  }

  /** The port a step makes unreachable: a node entry that is overwritten (`insert` on joining,
      a second `RequestConnection`) or removed while it holds a port, and a port allocated
      for a connection whose entry is gone. */
  function LostBy(sh: Shared, th: Thread): Option<Port> {
    match th
    case Handler(addr, at) =>
      (match at
       case Joining => PortOf(sh, addr)
       case Storing(_, p) => if addr in sh.nodes then PortOf(sh, addr) else Some(p)
       case Leaving => PortOf(sh, addr)
       case Closing => PortOf(sh, addr)
       case _ => None)
    case Reaper(_, Reaping(stale)) => if stale == [] then None else PortOf(sh, stale[0])
    case _ => None
  }

  ghost function LostIn(r: Run, n: nat): multiset<Port>
    requires IsRun(r) && n <= |r.labels|
  {
    if n == 0 then multiset{}
    else
      var s, l := r.states[n - 1], r.labels[n - 1];
      LostIn(r, n - 1) + (if l.Move? && l.t in s.threads then One(LostBy(s.sh, s.threads[l.t])) else multiset{})
  }

  ghost function InShared(sh: Shared, p: Port): nat {
    multiset(sh.ports)[p] + |Holders(sh.nodes, p)|
  }

  /** How many times port `p` is anywhere: queued, held by a node, or in a thread's hands. */
  ghost function Copies(s: State, p: Port): nat {
    InShared(s.sh, p) + |Carriers(s.threads, p)|
  }

  function Is(o: Option<Port>, p: Port): nat {
    if o == Some(p) then 1 else 0
  }

  // ---------- one entry at a time ----------

  lemma HoldersWith(nodes: map<Addr, NodeInfo>, a: Addr, info: NodeInfo, p: Port)
    ensures |Holders(nodes[a := info], p)| + (if a in nodes then Is(nodes[a].port, p) else 0)
         == |Holders(nodes, p)| + Is(info.port, p)
  {
    CountWith(Holders(nodes, p), Holders(nodes[a := info], p), a);
  }

  lemma HoldersWithout(nodes: map<Addr, NodeInfo>, a: Addr, p: Port)
    ensures |Holders(nodes - {a}, p)| + (if a in nodes then Is(nodes[a].port, p) else 0) == |Holders(nodes, p)|
  {
    CountWith(Holders(nodes, p), Holders(nodes - {a}, p), a);
  }

  lemma CarriersWith(threads: map<Tid, Thread>, t: Tid, th: Thread, p: Port)
    ensures |Carriers(threads[t := th], p)| + (if t in threads then Is(InHand(threads[t]), p) else 0)
         == |Carriers(threads, p)| + Is(InHand(th), p)
  {
    hide InHand;
    CountWith(Carriers(threads, p), Carriers(threads[t := th], p), t);
  }

  lemma SetNodeKeeps(sh: Shared, a: Addr, info: NodeInfo, p: Port)
    requires a in sh.nodes
    ensures InShared(SetNode(sh, a, info), p) + Is(sh.nodes[a].port, p) == InShared(sh, p) + Is(info.port, p)
  {
    HoldersWith(sh.nodes, a, info, p);
  }

  // ---------- one critical section ----------

  lemma SectionsThatIgnorePorts(sh: Shared, addr: Addr, id: Id, task: Task, role: NodeRole, now: nat, p: Port)
    ensures InShared(RecordActive(sh, addr, id, task), p) == InShared(sh, p)
    ensures InShared(DropActive(sh, addr, id), p) == InShared(sh, p)
    ensures InShared(SetRole(sh, addr, role), p) == InShared(sh, p)
    ensures InShared(Beat(sh, addr, now), p) == InShared(sh, p)
  {
    if addr in sh.nodes {
      var info := sh.nodes[addr];
      SetNodeKeeps(sh, addr, info.(activeTasks := info.activeTasks[id := task]), p);
      SetNodeKeeps(sh, addr, info.(activeTasks := info.activeTasks - {id}), p);
      SetNodeKeeps(sh, addr, info.(role := role), p);
      SetNodeKeeps(sh, addr, info.(lastHeartbeat := now, isWorker := true), p);
    }
  }

  lemma SectionsThatMovePorts(sh: Shared, addr: Addr, q: Port, now: nat, p: Port)
    ensures InShared(Register(sh, addr, now), p) + Is(PortOf(sh, addr), p) == InShared(sh, p)
    ensures InShared(RemoveNode(sh, addr), p) + Is(PortOf(sh, addr), p) == InShared(sh, p)
    ensures InShared(ClearPort(sh, addr), p) + Is(PortOf(sh, addr), p) == InShared(sh, p)
    ensures addr in sh.nodes ==>
              InShared(StorePort(sh, addr, q), p) + Is(PortOf(sh, addr), p) == InShared(sh, p) + Is(Some(q), p)
  {
    HoldersWith(sh.nodes, addr, Register(sh, addr, now).nodes[addr], p);
    HoldersWithout(sh.nodes, addr, p);
    if addr in sh.nodes {
      SetNodeKeeps(sh, addr, sh.nodes[addr].(port := None), p);
      SetNodeKeeps(sh, addr, sh.nodes[addr].(port := Some(q)), p);
    }
  }

  lemma QueueSections(sh: Shared, q: Port, p: Port)
    ensures InShared(PushPort(sh, q), p) == InShared(sh, p) + Is(Some(q), p)
    ensures sh.ports != [] ==> InShared(PopPort(sh), p) + Is(Some(sh.ports[0]), p) == InShared(sh, p)
  {
    if sh.ports != [] {
      assert sh.ports == [sh.ports[0]] + sh.ports[1..];
    }
  }

  // ---------- one step ----------

  lemma QueuesOfTasks(sh: Shared, id: Id, pt: PendingTask, active: map<Id, Task>, result: TaskResult, p: Port)
    ensures InShared(Enqueue(sh, id, pt), p) == InShared(RemovePending(sh, id), p) == InShared(sh, p)
    ensures InShared(RequeueAll(sh, active), p) == InShared(Complete(sh, id, result), p) == InShared(sh, p)
  {
  }

  lemma DispatchKeepsPorts(sh: Shared, addr: Addr, at: HandlerPc, env: Env, p: Port)
    requires Dispatching(at)
    ensures InShared(ActDispatch(sh, addr, at, env).0, p) == InShared(sh, p)
    ensures InHand(Handler(addr, ActDispatch(sh, addr, at, env).1)) == None
  {
    hide InShared;
    match at
    case WantNodes(_) => QueuesOfTasks(sh, if env.pick.Some? then env.pick.value else "", PendingTask(GetStorage, None), map[], Stored, p);
    case Requeuing(id, pt) => QueuesOfTasks(sh, id, pt, map[], Stored, p);
    case Recording(_, id, pt) => SectionsThatIgnorePorts(sh, addr, id, pt.task, Worker, 0, p);
    case Unrecording(id) => SectionsThatIgnorePorts(sh, addr, id, GetStorage, Worker, 0, p);
    case _ =>
  }

  lemma MemberKeepsPorts(sh: Shared, addr: Addr, at: HandlerPc, env: Env, p: Port)
    requires Belonging(at)
    ensures InShared(ActMember(sh, addr, at, env).0, p) + Is(LostBy(sh, Handler(addr, at)), p) == InShared(sh, p)
    ensures InHand(Handler(addr, at)) == InHand(Handler(addr, ActMember(sh, addr, at, env).1)) == None
  {
    hide InShared;
    match at
    case Announcing(role) => SectionsThatIgnorePorts(sh, addr, "", GetStorage, role, 0, p);
    case Beating => SectionsThatIgnorePorts(sh, addr, "", GetStorage, Worker, env.now, p);
    case Joining => SectionsThatMovePorts(sh, addr, 0, env.now, p);
    case Leaving => SectionsThatMovePorts(sh, addr, 0, 0, p);
    case Closing => SectionsThatMovePorts(sh, addr, 0, 0, p);
    case Greeting =>
  }

  lemma PortStepKeepsPorts(sh: Shared, addr: Addr, at: HandlerPc, p: Port)
    requires Porting(at)
    ensures var (sh', at') := ActPort(sh, addr, at);
            InShared(sh', p) + Is(InHand(Handler(addr, at')), p) + Is(LostBy(sh, Handler(addr, at)), p)
            == InShared(sh, p) + Is(InHand(Handler(addr, at)), p)
  {
    hide InShared;
    match at
    case Allocating(_) => QueueSections(sh, 0, p);
    case Storing(_, q) => SectionsThatMovePorts(sh, addr, q, 0, p);
    case Locating(_, _) =>
    case Releasing => SectionsThatMovePorts(sh, addr, 0, 0, p);
    case Returning(q) => QueueSections(sh, q, p);
  }

  lemma RequestKeepsPorts(sh: Shared, addr: Addr, at: HandlerPc, env: Env, p: Port)
    requires !Dispatching(at) && !Belonging(at) && !Porting(at)
    ensures InShared(ActRequest(sh, addr, at, env).0, p) == InShared(sh, p)
    ensures InHand(Handler(addr, at)) == InHand(Handler(addr, ActRequest(sh, addr, at, env).1)) == None
  {
    hide InShared;
    match at
    case Enqueuing(id, task) => QueuesOfTasks(sh, id, PendingTask(task, None), map[], Stored, p);
    case Finishing(id, _) => SectionsThatIgnorePorts(sh, addr, id, GetStorage, Worker, 0, p);
    case Unqueuing(id, result) => QueuesOfTasks(sh, id, PendingTask(GetStorage, None), map[], result, p);
    case Completing(id, result) => QueuesOfTasks(sh, id, PendingTask(GetStorage, None), map[], result, p);
    case _ =>
  }

  lemma ReaperKeepsPorts(sh: Shared, timeout: nat, at: ReaperPc, env: Env, p: Port)
    ensures var (sh', at') := ActReaper(sh, timeout, at, env);
            InShared(sh', p) + Is(InHand(Reaper(timeout, at')), p) + Is(LostBy(sh, Reaper(timeout, at)), p)
            == InShared(sh, p) + Is(InHand(Reaper(timeout, at)), p)
  {
    hide InShared;
    match at
    case Reaping(stale) => if stale != [] { SectionsThatMovePorts(sh, stale[0], 0, 0, p); }
    case Salvaging(_, active, _) => QueuesOfTasks(sh, "", PendingTask(GetStorage, None), active, Stored, p);
    case Taking(addr, _) => SectionsThatMovePorts(sh, addr, 0, 0, p);
    case Pushing(q, _) => QueueSections(sh, q, p);
    case _ =>
  }

  lemma ActKeepsPorts(sh: Shared, th: Thread, env: Env, p: Port)
    requires !(th.Peer? && th.sync.MergingNodes?)
    ensures var e := Act(sh, th, env);
            InShared(e.sh, p) + Is(InHand(e.th), p) + Is(LostBy(sh, th), p) == InShared(sh, p) + Is(InHand(th), p)
  {
    match th
    case Handler(addr, at) =>
      hide InShared, LostBy;
      if Dispatching(at) {
        DispatchKeepsPorts(sh, addr, at, env, p);
      } else if Belonging(at) {
        MemberKeepsPorts(sh, addr, at, env, p);
      } else if Porting(at) {
        PortStepKeepsPorts(sh, addr, at, p);
      } else {
        RequestKeepsPorts(sh, addr, at, env, p);
      }
    case Reaper(timeout, at) => ReaperKeepsPorts(sh, timeout, at, env, p);
    case _ =>
  }

  /** Conservation for one step of any state, reachable or not. */
  lemma StepKeepsPorts(s: State, l: Label, p: Port)
    requires Enabled(s, l) && !ImportsNodes(s, l)
    ensures Copies(Apply(s, l), p) + (if l.Move? then Is(LostBy(s.sh, s.threads[l.t]), p) else 0) == Copies(s, p)
  {
    match l
    case Spawn(t, th) => CarriersWith(s.threads, t, th, p);
    case Move(t, env) =>
      ActKeepsPorts(s.sh, s.threads[t], env, p);
      CarriersWith(s.threads, t, EffectOf(s, t, env).th, p);
  }

  // ---------- whole runs ----------

  /** The ledger: what is anywhere plus what was lost is what the run started with. */
  lemma {:induction false} PortLedger(r: Run, n: nat, p: Port)
    requires IsRun(r) && MergeFree(r) && n <= |r.labels|
    ensures Copies(r.states[n], p) + LostIn(r, n)[p] == InShared(r.states[0].sh, p)
  {
    if n == 0 {
      assert Carriers(r.states[0].threads, p) == {};
    } else {
      PortLedger(r, n - 1, p);
      assert StepAt(r, n - 1);
      hide InShared, LostBy, Apply, Enabled, Copies;
      StepKeepsPorts(r.states[n - 1], r.labels[n - 1], p);
    }
  }

  lemma RangeHasEachOnce(lo: Port, k: nat, p: Port)
    requires lo + k <= 0x1_0000
    ensures multiset(seq(k, i requires 0 <= i < k => (lo + i) as Port))[p] == if lo <= p < lo + k then 1 else 0
  {
    if k > 0 {
      var s := seq(k, i requires 0 <= i < k => (lo + i) as Port);
      var s' := seq(k - 1, i requires 0 <= i < k - 1 => (lo + i) as Port);
      assert s == s' + [(lo + k - 1) as Port];
      RangeHasEachOnce(lo, k - 1, p);
    }
  }

  lemma FreshStartCount(sh: Shared, lo: Port, hi: Port, p: Port)
    requires IsFreshStart(sh, lo, hi)
    ensures InShared(sh, p) == if lo <= p <= hi then 1 else 0
  {
    assert Holders(sh.nodes, p) == {};
    if lo <= hi {
      RangeHasEachOnce(lo, hi - lo + 1, p);
      assert sh.ports == seq(hi - lo + 1, i requires 0 <= i < hi - lo + 1 => (lo + i) as Port);
    }
  }

  /** After a fresh start every port of the range is in exactly one place or lost once,
      and no other port ever appears. */
  lemma EveryPortInOnePlace(r: Run, n: nat, lo: Port, hi: Port, p: Port)
    requires IsRun(r) && MergeFree(r) && n <= |r.labels|
    requires IsFreshStart(r.states[0].sh, lo, hi)
    ensures Copies(r.states[n], p) + LostIn(r, n)[p] == if lo <= p <= hi then 1 else 0
  {
    PortLedger(r, n, p);
    FreshStartCount(r.states[0].sh, lo, hi, p);
  }

  /** No port is duplicated: what a master that loaded a snapshot starts from and keeps. */
  ghost predicate PortsDisjoint(sh: Shared) {
    && (forall p :: p in sh.ports ==> multiset(sh.ports)[p] == 1)
    && (forall a :: a in sh.nodes && sh.nodes[a].port.Some? ==> sh.nodes[a].port.value !in sh.ports)
    && (forall a, b :: a in sh.nodes && b in sh.nodes && a != b && sh.nodes[a].port.Some? ==>
          sh.nodes[b].port != sh.nodes[a].port)
  }

  lemma DisjointMeansAtMostOne(sh: Shared)
    ensures PortsDisjoint(sh) <==> forall p: Port :: InShared(sh, p) <= 1
  {
    if PortsDisjoint(sh) {
      forall p: Port ensures InShared(sh, p) <= 1 {
        var hs := Holders(sh.nodes, p);
        if a :| a in hs {
          assert hs == {a};
        }
      }
    }
    if forall p: Port :: InShared(sh, p) <= 1 {
      forall p | p in sh.ports ensures multiset(sh.ports)[p] == 1 {
        assert InShared(sh, p) <= 1;
        assert p in multiset(sh.ports);
      }
      forall a | a in sh.nodes && sh.nodes[a].port.Some? ensures sh.nodes[a].port.value !in sh.ports {
        var p := sh.nodes[a].port.value;
        assert InShared(sh, p) <= 1 && a in Holders(sh.nodes, p);
        SubsetSize({a}, Holders(sh.nodes, p));
      }
      forall a, b | a in sh.nodes && b in sh.nodes && a != b && sh.nodes[a].port.Some?
        ensures sh.nodes[b].port != sh.nodes[a].port
      {
        var p := sh.nodes[a].port.value;
        if sh.nodes[b].port == Some(p) {
          assert InShared(sh, p) <= 1 && {a, b} <= Holders(sh.nodes, p);
          SubsetSize({a, b}, Holders(sh.nodes, p));
        }
      }
    }
  }

  /** No port is both free and held, or held by two nodes, in any merge-free run that
      starts without duplicates. */
  lemma PortsStayDisjoint(r: Run, n: nat)
    requires IsRun(r) && MergeFree(r) && n <= |r.labels|
    requires PortsDisjoint(r.states[0].sh)
    ensures PortsDisjoint(r.states[n].sh)
    ensures forall p: Port :: Copies(r.states[n], p) <= 1
  {
    DisjointMeansAtMostOne(r.states[0].sh);
    DisjointMeansAtMostOne(r.states[n].sh);
    forall p: Port ensures Copies(r.states[n], p) <= 1 {
      PortLedger(r, n, p);
      assert InShared(r.states[0].sh, p) <= 1;
    }
    forall p: Port ensures InShared(r.states[n].sh, p) <= 1 {
      assert Copies(r.states[n], p) <= 1;
    }
  }
}
