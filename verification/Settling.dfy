/** One owner even when assignments cannot be written. Between the two sections that take such an
    assignment back the task is queued while its node still lists it; no dispatcher can pick it
    then, so it still has one owner. A step makes a new claim on a task exactly when the reaper and
    a handler that takes an assignment back both get hold of it. */
module Settling {
  import opened Protocol
  import opened Regions
  import opened Machine
  import opened Counting
  import opened TaskLedger
  import opened Owners

  /** The thread has taken the task out of the collections and will hand it on. A task being
      requeued is not in its hands as long as its own entry still lists it. */
  predicate Holding(sh: Shared, th: Thread, id: Id) {
    match th
    case Handler(addr, at) =>
      (match at
       case Recording(_, i, _) => i == id
       case Assigning(_, i, _, recorded) => i == id && !recorded
       case Requeuing(i, _) => i == id && id !in ActiveAt(sh, addr)
       case _ => false)
    case Reaper(_, Salvaging(_, active, _)) => id in active
    case _ => false
  }

  ghost function HoldersOf(s: State, id: Id): set<Tid> {
    set t | t in s.threads && Holding(s.sh, s.threads[t], id)
  }

  /** A queue entry counts only while no node lists the task: the dispatcher skips it otherwise. */
  ghost function ClaimsIn(sh: Shared, id: Id): nat {
    if Owning(sh.nodes, id) == {} then Bit(id in sh.pending) else |Owning(sh.nodes, id)|
  }

  ghost function Claims(s: State, id: Id): nat {
    ClaimsIn(s.sh, id) + |HoldersOf(s, id)|
  }

  /** A task is queued while a node lists it only in the moment the handler of that node is about
      to take the assignment back. */
  ghost predicate QueuedOnlyWhileUndone(s: State, id: Id) {
    forall a :: id in s.sh.pending && id in ActiveAt(s.sh, a) ==> BeingUndone(s.threads, a, id)
  }

  /** The handler of `a` is about to queue the task of an assignment that could not be written. */
  predicate PutsBack(th: Thread, a: Addr, id: Id) {
    th.Handler? && th.addr == a && th.at.Requeuing? && th.at.id == id
  }

  ghost predicate BeingPutBack(threads: map<Tid, Thread>, a: Addr, id: Id) {
    exists u :: u in threads && PutsBack(threads[u], a, id)
  }

  /** The reaper and a handler both get hold of the task: an assignment fails after the reaper took
      the node's entry away, or the reaper takes the entry of a task that is queued as well or
      about to be. */
  ghost predicate ForksTask(s: State, l: Label, id: Id) {
    && l.Move? && l.t in s.threads
    && match s.threads[l.t]
       case Handler(addr, Assigning(_, i, _, recorded)) => i == id && recorded && !l.env.ok && id !in ActiveAt(s.sh, addr)
       case Reaper(_, Reaping(stale)) =>
         && stale != [] && id in ActiveAt(s.sh, stale[0])
         && ((id in s.sh.pending && Owning(s.sh.nodes, id) == {stale[0]}) || BeingPutBack(s.threads, stale[0], id))
       case _ => false
  }

  ghost predicate NeverForks(r: Run, id: Id)
    requires |r.states| == |r.labels| + 1
  {
    forall i: nat :: i < |r.labels| ==> !ForksTask(r.states[i], r.labels[i], id)
  }

  // ---------- one critical section ----------

  lemma ClaimsWith(sh: Shared, a: Addr, info: NodeInfo, id: Id)
    requires a in sh.nodes
    ensures ClaimsIn(SetNode(sh, a, info), id) <=
            ClaimsIn(sh, id) + Bit(id in info.activeTasks && id !in sh.nodes[a].activeTasks)
  {
    OwningWith(sh.nodes, a, info, id);
  }

  lemma EntrySections(sh: Shared, addr: Addr, i: Id, task: Task, id: Id)
    ensures ClaimsIn(RecordActive(sh, addr, i, task), id) <= ClaimsIn(sh, id) + Bit(i == id && addr in sh.nodes)
    ensures ClaimsIn(DropActive(sh, addr, i), id) <= ClaimsIn(sh, id)
  {
    if addr in sh.nodes {
      var info := sh.nodes[addr];
      ClaimsWith(sh, addr, info.(activeTasks := info.activeTasks[i := task]), id);
      ClaimsWith(sh, addr, info.(activeTasks := info.activeTasks - {i}), id);
    }
  }

  lemma MemberEntries(sh: Shared, addr: Addr, role: NodeRole, now: nat, port: Option<Port>, id: Id)
    ensures ClaimsIn(SetRole(sh, addr, role), id) <= ClaimsIn(sh, id)
    ensures ClaimsIn(Beat(sh, addr, now), id) <= ClaimsIn(sh, id)
    ensures ClaimsIn(ClearPort(sh, addr), id) <= ClaimsIn(sh, id)
    ensures port.Some? ==> ClaimsIn(StorePort(sh, addr, port.value), id) <= ClaimsIn(sh, id)
  {
    if addr in sh.nodes {
      var info := sh.nodes[addr];
      ClaimsWith(sh, addr, info.(role := role), id);
      ClaimsWith(sh, addr, info.(lastHeartbeat := now, isWorker := true), id);
      ClaimsWith(sh, addr, info.(port := None), id);
      ClaimsWith(sh, addr, info.(port := port), id);
    }
  }

  /** Removing a node gives its task back to nobody, or makes a queued one available. */
  lemma Removals(sh: Shared, addr: Addr, now: nat, id: Id)
    ensures ClaimsIn(Register(sh, addr, now), id) <= ClaimsIn(sh, id)
    ensures ClaimsIn(RemoveNode(sh, addr), id) + Bit(id in ActiveAt(sh, addr)) ==
            ClaimsIn(sh, id) + Bit(id in ActiveAt(sh, addr) && id in sh.pending && Owning(sh.nodes, id) == {addr})
  {
    OwningWith(sh.nodes, addr, Register(sh, addr, now).nodes[addr], id);
    OwningWithout(sh.nodes, addr, id);
    assert Owning(sh.nodes - {addr}, id) == Owning(sh.nodes, id) - {addr};
  }

  lemma ActiveMeansOwned(sh: Shared, a: Addr, id: Id)
    requires id in ActiveAt(sh, a)
    ensures a in Owning(sh.nodes, id) && ClaimsIn(sh, id) >= 1
  {
  }

  lemma NobodyOwns(sh: Shared, id: Id)
    requires !IsActive(sh, id)
    ensures Owning(sh.nodes, id) == {}
  {
  }

  // ---------- one step of one thread ----------

  /** The step leaves the number of claims on the task as it is, or lowers it, or hands it in. */
  ghost predicate AddsNoClaim(sh: Shared, th: Thread, sh': Shared, th': Thread, id: Id) {
    ClaimsIn(sh', id) + Bit(Holding(sh', th', id)) <= ClaimsIn(sh, id) + Bit(Holding(sh, th, id)) + Bit(id in AcceptedBy(th))
  }

  lemma DispatchAddsNoClaim(sh: Shared, addr: Addr, at: HandlerPc, env: Env, id: Id)
    requires Dispatching(at) && Sensible(sh, Handler(addr, at), env)
    requires at.Assigning? && at.id == id && !env.ok && at.recorded ==> id in ActiveAt(sh, addr)
    ensures var (sh', at', _) := ActDispatch(sh, addr, at, env);
            AddsNoClaim(sh, Handler(addr, at), sh', Handler(addr, at'), id)
  {
    match at
    case WantNodes(role) =>
      if env.pick.Some? {
        NobodyOwns(sh, env.pick.value);
      }
    case Recording(_, i, pt) => EntrySections(sh, addr, i, pt.task, id);
    case Unrecording(i) => EntrySections(sh, addr, i, GetStorage, id);
    case Requeuing(i, _) =>
      if i == id && id in ActiveAt(sh, addr) {
        ActiveMeansOwned(sh, addr, id);
      }
    case _ =>
  }

  lemma MemberAddsNoClaim(sh: Shared, addr: Addr, at: HandlerPc, env: Env, id: Id)
    requires Belonging(at)
    ensures var (sh', at') := ActMember(sh, addr, at, env);
            AddsNoClaim(sh, Handler(addr, at), sh', Handler(addr, at'), id)
  {
    hide ClaimsIn;
    match at
    case Announcing(role) => MemberEntries(sh, addr, role, 0, None, id);
    case Beating => MemberEntries(sh, addr, Worker, env.now, None, id);
    case Joining => Removals(sh, addr, env.now, id);
    case Leaving => Removals(sh, addr, 0, id);
    case Closing => Removals(sh, addr, 0, id);
    case Greeting =>
  }

  lemma PortAddsNoClaim(sh: Shared, addr: Addr, at: HandlerPc, id: Id)
    requires Porting(at)
    ensures var (sh', at') := ActPort(sh, addr, at);
            AddsNoClaim(sh, Handler(addr, at), sh', Handler(addr, at'), id)
  {
    match at
    case Storing(_, p) => MemberEntries(sh, addr, Worker, 0, Some(p), id);
    case Releasing => MemberEntries(sh, addr, Worker, 0, None, id);
    case _ =>
  }

  lemma RequestAddsNoClaim(sh: Shared, addr: Addr, at: HandlerPc, env: Env, id: Id)
    requires !Dispatching(at) && !Belonging(at) && !Porting(at)
    ensures var (sh', at', _) := ActRequest(sh, addr, at, env);
            AddsNoClaim(sh, Handler(addr, at), sh', Handler(addr, at'), id)
  {
    if at.Finishing? {
      EntrySections(sh, addr, at.id, GetStorage, id);
    }
  }

  lemma ReaperAddsNoClaim(sh: Shared, timeout: nat, at: ReaperPc, env: Env, id: Id)
    requires at.Reaping? && at.stale != [] && id in ActiveAt(sh, at.stale[0]) && id in sh.pending ==>
               Owning(sh.nodes, id) != {at.stale[0]}
    ensures var (sh', at') := ActReaper(sh, timeout, at, env);
            AddsNoClaim(sh, Reaper(timeout, at), sh', Reaper(timeout, at'), id)
  {
    match at
    case Reaping(stale) => if stale != [] { Removals(sh, stale[0], 0, id); }
    case Taking(addr, _) => MemberEntries(sh, addr, Worker, 0, None, id);
    case _ =>
  }

  lemma ActAddsNoClaim(s: State, t: Tid, env: Env, id: Id)
    requires Enabled(s, Move(t, env)) && !ImportsTasks(s, Move(t, env)) && !ForksTask(s, Move(t, env), id)
    ensures var e := EffectOf(s, t, env); AddsNoClaim(s.sh, s.threads[t], e.sh, e.th, id)
  {
    var sh, th := s.sh, s.threads[t];
    match th
    case Handler(addr, at) =>
      hide AddsNoClaim;
      if Dispatching(at) {
        DispatchAddsNoClaim(sh, addr, at, env, id);
      } else if Belonging(at) {
        MemberAddsNoClaim(sh, addr, at, env, id);
      } else if Porting(at) {
        PortAddsNoClaim(sh, addr, at, id);
      } else {
        RequestAddsNoClaim(sh, addr, at, env, id);
      }
    case Reaper(timeout, at) => ReaperAddsNoClaim(sh, timeout, at, env, id);
    case Peer(_, _) =>
    case Saver(_) =>
    case Shell(_, _, _) =>
  }

  // ---------- the other threads ----------

  lemma OtherHandlersLeaveEntry(sh: Shared, b: Addr, at: HandlerPc, env: Env, a: Addr)
    requires b != a
    ensures ActiveAt(ActHandler(sh, b, at, env).0, a) == ActiveAt(sh, a)
  {
    hide ActHandler;
    HandlerOwnEntry(sh, b, at, env, a);
  }

  /** Nobody but its own handler and the reaper changes what an entry lists. */
  lemma OthersLeaveEntry(sh: Shared, th: Thread, env: Env, a: Addr)
    requires th.Handler? ==> th.addr != a
    requires !(th.Peer? && th.sync.MergingNodes?)
    requires !TakesEntry(th, a)
    ensures ActiveAt(Act(sh, th, env).sh, a) == ActiveAt(sh, a)
  {
    match th
    case Handler(b, at) =>
      hide ActHandler, ActiveAt;
      OtherHandlersLeaveEntry(sh, b, at, env, a);
    case _ =>
  }

  lemma OthersKeepHolding(s: State, t: Tid, env: Env, id: Id, u: Tid)
    requires Enabled(s, Move(t, env)) && DistinctAddrs(s.threads)
    requires !ImportsTasks(s, Move(t, env)) && !ForksTask(s, Move(t, env), id)
    requires u in s.threads && u != t
    ensures Holding(EffectOf(s, t, env).sh, s.threads[u], id) <==> Holding(s.sh, s.threads[u], id)
  {
    var th := s.threads[u];
    if th.Handler? && PutsBack(th, th.addr, id) {
      if TakesEntry(s.threads[t], th.addr) {
        hide Act, Holding;
        TakenUnlisted(s, t, env, id, u);
      } else {
        hide Act, ActiveAt;
        OthersLeaveEntry(s.sh, s.threads[t], env, th.addr);
      }
    }
  }

  /** The reaper is about to remove the entry of `a`. */
  predicate TakesEntry(th: Thread, a: Addr) {
    th.Reaper? && th.reap.Reaping? && th.reap.stale != [] && th.reap.stale[0] == a
  }

  lemma TakenUnlisted(s: State, t: Tid, env: Env, id: Id, u: Tid)
    requires t in s.threads && u in s.threads && !ForksTask(s, Move(t, env), id)
    requires s.threads[u].Handler? && PutsBack(s.threads[u], s.threads[u].addr, id)
    requires TakesEntry(s.threads[t], s.threads[u].addr)
    ensures Holding(EffectOf(s, t, env).sh, s.threads[u], id) && Holding(s.sh, s.threads[u], id)
  {
    assert BeingPutBack(s.threads, s.threads[u].addr, id);
  }

  lemma HoldersWith(s: State, t: Tid, e: State, id: Id)
    requires t in s.threads && t in e.threads && s.threads.Keys == e.threads.Keys
    requires forall u :: u in s.threads && u != t ==>
               (Holding(e.sh, e.threads[u], id) <==> Holding(s.sh, s.threads[u], id))
    ensures |HoldersOf(e, id)| + Bit(Holding(s.sh, s.threads[t], id)) == |HoldersOf(s, id)| + Bit(Holding(e.sh, e.threads[t], id))
  {
    hide Holding;
    CountWith(HoldersOf(s, id), HoldersOf(e, id), t);
  }

  lemma MoveAddsNoClaim(s: State, t: Tid, env: Env, id: Id)
    requires Enabled(s, Move(t, env)) && DistinctAddrs(s.threads)
    requires !ImportsTasks(s, Move(t, env)) && !ForksTask(s, Move(t, env), id)
    ensures Claims(Apply(s, Move(t, env)), id) <= Claims(s, id) + Submits(s, Move(t, env), id)
  {
    ActAddsNoClaim(s, t, env, id);
    var e := Apply(s, Move(t, env));
    forall u | u in s.threads && u != t
      ensures Holding(e.sh, e.threads[u], id) <==> Holding(s.sh, s.threads[u], id)
    {
      hide Holding, Act, Enabled, ForksTask, ImportsTasks, AddsNoClaim;
      OthersKeepHolding(s, t, env, id, u);
    }
    hide Holding, Act, Enabled, ForksTask, ImportsTasks, ClaimsIn, AcceptedBy;
    HoldersWith(s, t, e, id);
  }

  // ---------- a fork does add a claim ----------

  /** Nobody else lets go of the task in a step that forks it. */
  lemma OthersStillHold(s: State, t: Tid, env: Env, id: Id, u: Tid)
    requires ForksTask(s, Move(t, env), id) && u in s.threads && u != t && Holding(s.sh, s.threads[u], id)
    ensures Holding(EffectOf(s, t, env).sh, s.threads[u], id)
  {
  }

  lemma MoreHolders(s: State, t: Tid, e: State, id: Id)
    requires t in s.threads && s.threads.Keys == e.threads.Keys && !Holding(s.sh, s.threads[t], id) && Holding(e.sh, e.threads[t], id)
    requires forall u :: u in s.threads && u != t && Holding(s.sh, s.threads[u], id) ==> Holding(e.sh, e.threads[u], id)
    ensures |HoldersOf(e, id)| >= |HoldersOf(s, id)| + 1
    ensures forall u :: u in s.threads && u != t && !Holding(s.sh, s.threads[u], id) && Holding(e.sh, e.threads[u], id) ==>
              |HoldersOf(e, id)| >= |HoldersOf(s, id)| + 2
  {
    hide Holding;
    SubsetSize(HoldersOf(s, id) + {t}, HoldersOf(e, id));
    forall u | u in s.threads && u != t && !Holding(s.sh, s.threads[u], id) && Holding(e.sh, e.threads[u], id)
      ensures |HoldersOf(e, id)| >= |HoldersOf(s, id)| + 2
    {
      SubsetSize(HoldersOf(s, id) + {t, u}, HoldersOf(e, id));
    }
  }

  lemma FailedForkAddsClaim(s: State, t: Tid, env: Env, id: Id)
    requires ForksTask(s, Move(t, env), id) && s.threads[t].Handler?
    ensures Claims(Apply(s, Move(t, env)), id) > Claims(s, id) + Submits(s, Move(t, env), id)
  {
    var e := Apply(s, Move(t, env));
    assert e.sh == s.sh;
    MoreHolders(s, t, e, id);
  }

  lemma ReaperForkAddsClaim(s: State, t: Tid, env: Env, id: Id)
    requires ForksTask(s, Move(t, env), id) && s.threads[t].Reaper?
    ensures Claims(Apply(s, Move(t, env)), id) > Claims(s, id) + Submits(s, Move(t, env), id)
  {
    var e, a := Apply(s, Move(t, env)), s.threads[t].reap.stale[0];
    assert e.sh == RemoveNode(s.sh, a) && Holding(e.sh, e.threads[t], id);
    Removals(s.sh, a, 0, id);
    forall u | u in s.threads && u != t && Holding(s.sh, s.threads[u], id) ensures Holding(e.sh, e.threads[u], id) {
      OthersStillHold(s, t, env, id, u);
    }
    MoreHolders(s, t, e, id);
    if BeingPutBack(s.threads, a, id) {
      var u :| u in s.threads && PutsBack(s.threads[u], a, id);
      assert !Holding(s.sh, s.threads[u], id) && Holding(e.sh, e.threads[u], id);
    }
  }

  /** A step makes more claims on a task than it hands in exactly when it forks the task. */
  lemma ForksExactly(s: State, l: Label, id: Id)
    requires Enabled(s, l) && DistinctAddrs(s.threads) && !ImportsTasks(s, l)
    ensures ForksTask(s, l, id) <==> Claims(Apply(s, l), id) > Claims(s, id) + Submits(s, l, id)
  {
    hide Claims, Apply, Enabled, ImportsTasks, DistinctAddrs;
    match l
    case Spawn(t, th) => SpawnAddsNoClaim(s, t, th, id);
    case Move(t, env) =>
      if !ForksTask(s, l, id) {
        hide ForksTask;
        MoveAddsNoClaim(s, t, env, id);
      } else if s.threads[t].Handler? {
        FailedForkAddsClaim(s, t, env, id);
      } else {
        ReaperForkAddsClaim(s, t, env, id);
      }
  }

  lemma SpawnAddsNoClaim(s: State, t: Tid, th: Thread, id: Id)
    requires Enabled(s, Spawn(t, th))
    ensures Claims(Apply(s, Spawn(t, th)), id) == Claims(s, id)
  {
    assert HoldersOf(Apply(s, Spawn(t, th)), id) == HoldersOf(s, id);
  }

  // ---------- queued while listed ----------

  /** How one section of a handler makes a task queued or listed. */
  ghost predicate News(sh: Shared, addr: Addr, at: HandlerPc, sh': Shared, at': HandlerPc, id: Id) {
    && (id in sh'.pending && id !in sh.pending ==>
          (at.Enqueuing? && at.id == id) || (at.Requeuing? && at.id == id && at' == Unrecording(id)))
    && (forall a :: id in ActiveAt(sh', a) && id !in ActiveAt(sh, a) ==>
          at.Recording? && at.id == id && sh'.pending == sh.pending)
    && (at.Unrecording? && at.id == id ==> id !in ActiveAt(sh', addr))
  }

  lemma DispatchNews(sh: Shared, addr: Addr, at: HandlerPc, env: Env, id: Id)
    requires Dispatching(at)
    ensures var (sh', at', _) := ActDispatch(sh, addr, at, env); News(sh, addr, at, sh', at', id)
  {
  }

  lemma OtherNews(sh: Shared, addr: Addr, at: HandlerPc, env: Env, id: Id)
    requires !Dispatching(at)
    ensures Belonging(at) ==> var (sh', at') := ActMember(sh, addr, at, env); News(sh, addr, at, sh', at', id)
    ensures Porting(at) ==> var (sh', at') := ActPort(sh, addr, at); News(sh, addr, at, sh', at', id)
  {
  }

  lemma RequestNews(sh: Shared, addr: Addr, at: HandlerPc, env: Env, id: Id)
    requires !Dispatching(at) && !Belonging(at) && !Porting(at)
    ensures var (sh', at', _) := ActRequest(sh, addr, at, env); News(sh, addr, at, sh', at', id)
  {
  }

  lemma HandlerNews(sh: Shared, addr: Addr, at: HandlerPc, env: Env, id: Id)
    ensures var (sh', at', _) := ActHandler(sh, addr, at, env); News(sh, addr, at, sh', at', id)
  {
    hide News;
    if Dispatching(at) {
      DispatchNews(sh, addr, at, env, id);
    } else if Belonging(at) || Porting(at) {
      OtherNews(sh, addr, at, env, id);
    } else {
      RequestNews(sh, addr, at, env, id);
    }
  }

  /** How a task comes to be queued or listed. */
  lemma ActNews(sh: Shared, th: Thread, env: Env, id: Id)
    requires !(th.Peer? && (th.sync.MergingNodes? || th.sync.MergingPending?))
    ensures var e := Act(sh, th, env);
            && (id in e.sh.pending && id !in sh.pending ==>
                  || id in AcceptedBy(th)
                  || (th.Reaper? && Holding(sh, th, id))
                  || (th.Handler? && th.at.Requeuing? && th.at.id == id && Undoing(e.th, th.addr, id)))
            && (forall a :: id in ActiveAt(e.sh, a) && id !in ActiveAt(sh, a) ==>
                  Holding(sh, th, id) && e.sh.pending == sh.pending)
            && (forall a :: Undoing(th, a, id) ==> id !in ActiveAt(e.sh, a))
  {
    match th
    case Handler(addr, at) =>
      hide ActHandler, ActiveAt;
      HandlerNews(sh, addr, at, env, id);
    case _ =>
  }

  lemma TwoClaims(s: State, id: Id, t: Tid)
    requires t in s.threads && Holding(s.sh, s.threads[t], id) && ClaimsIn(s.sh, id) >= 1
    ensures Claims(s, id) >= 2
  {
    assert t in HoldersOf(s, id);
  }

  lemma MoveKeepsUndone(s: State, t: Tid, env: Env, id: Id)
    requires Enabled(s, Move(t, env)) && !ImportsTasks(s, Move(t, env))
    requires QueuedOnlyWhileUndone(s, id) && Claims(s, id) + Submits(s, Move(t, env), id) <= 1
    requires Claims(Apply(s, Move(t, env)), id) <= 1
    ensures QueuedOnlyWhileUndone(Apply(s, Move(t, env)), id)
  {
    var th, e := s.threads[t], Apply(s, Move(t, env));
    ActNews(s.sh, th, env, id);
    forall a | id in e.sh.pending && id in ActiveAt(e.sh, a) ensures BeingUndone(e.threads, a, id) {
      NewlyBoth(s, t, env, id, a);
    }
  }

  lemma NewlyBoth(s: State, t: Tid, env: Env, id: Id, a: Addr)
    requires Enabled(s, Move(t, env)) && !ImportsTasks(s, Move(t, env))
    requires QueuedOnlyWhileUndone(s, id) && Claims(s, id) + Submits(s, Move(t, env), id) <= 1
    requires var e := Apply(s, Move(t, env)); id in e.sh.pending && id in ActiveAt(e.sh, a)
    ensures BeingUndone(Apply(s, Move(t, env)).threads, a, id)
  {
    var th, e := s.threads[t], Apply(s, Move(t, env));
    ActNews(s.sh, th, env, id);
    hide Act, AcceptedBy;
    if id !in ActiveAt(s.sh, a) {
      if Owning(s.sh.nodes, id) == {} {
        TwoClaims(s, id, t);
      } else {
        TwoClaims(s, id, t);
      }
    } else {
      ActiveMeansOwned(s.sh, a, id);
      if id in s.sh.pending {
        var u :| u in s.threads && Undoing(s.threads[u], a, id);
        assert u != t && Undoing(e.threads[u], a, id);
      } else if th.Handler? && th.at.Requeuing? && th.at.id == id {
        if id in ActiveAt(s.sh, th.addr) {
          OneEntry(s.sh, a, th.addr, id);
          assert Undoing(e.threads[t], a, id);
        } else {
          TwoClaims(s, id, t);
        }
      } else if th.Reaper? && Holding(s.sh, th, id) {
        TwoClaims(s, id, t);
      }
    }
  }

  lemma OneEntry(sh: Shared, a: Addr, b: Addr, id: Id)
    requires id in ActiveAt(sh, a) && id in ActiveAt(sh, b) && ClaimsIn(sh, id) <= 1
    ensures a == b
  {
    assert Owning(sh.nodes, id) == {a, b} + (Owning(sh.nodes, id) - {a, b});
  }

  lemma SpawnKeepsUndone(s: State, t: Tid, th: Thread, id: Id)
    requires Enabled(s, Spawn(t, th)) && QueuedOnlyWhileUndone(s, id)
    ensures QueuedOnlyWhileUndone(Apply(s, Spawn(t, th)), id)
  {
    var e := Apply(s, Spawn(t, th));
    forall a | id in s.sh.pending && id in ActiveAt(s.sh, a) ensures BeingUndone(e.threads, a, id) {
      var u :| u in s.threads && Undoing(s.threads[u], a, id);
      assert Undoing(e.threads[u], a, id);
    }
  }

  // ---------- whole runs ----------

  /** However often a task is handed in and however many writes fail: as long as no step forks it
      the claims on it number at most its submissions. */
  lemma {:induction false} NoMoreClaimsThanSubmissions(r: Run, n: nat, id: Id)
    requires IsRun(r) && n <= |r.labels| && ImportsNoTasks(r) && NeverForks(r, id)
    ensures Claims(r.states[n], id) <= ClaimsIn(r.states[0].sh, id) + SubmissionsIn(r, n, id)
  {
    if n == 0 {
      assert HoldersOf(r.states[0], id) == {};
    } else {
      NoMoreClaimsThanSubmissions(r, n - 1, id);
      RunKeepsDistinct(r, n - 1);
      assert StepAt(r, n - 1);
      hide Claims, Apply, Enabled, ForksTask, ImportsTasks, DistinctAddrs;
      ForksExactly(r.states[n - 1], r.labels[n - 1], id);
    }
  }

  /** Each id is handed in once, counting the claims the run started with. */
  ghost predicate DistinctClaims(r: Run)
    requires IsRun(r)
  {
    forall id :: ClaimsIn(r.states[0].sh, id) + SubmissionsIn(r, |r.labels|, id) <= 1
  }

  ghost predicate NoForks(r: Run)
    requires |r.states| == |r.labels| + 1
  {
    forall id :: NeverForks(r, id)
  }

  /** Assignment writes may fail at will, and the run may start from a snapshot made while an
      assignment was taken back: as long as no step forks a task, each has at most one claim and
      none is ever active on two nodes. */
  lemma OneOwnerThroughFailures(r: Run, n: nat)
    requires IsRun(r) && n <= |r.labels| && ImportsNoTasks(r) && NoForks(r) && DistinctClaims(r)
    ensures OneActive(r.states[n].sh)
    ensures forall id :: Claims(r.states[n], id) <= 1
  {
    var sh := r.states[n].sh;
    forall id ensures Claims(r.states[n], id) <= 1 {
      assert NeverForks(r, id);
      NoMoreClaimsThanSubmissions(r, n, id);
      SubmissionsGrow(r, n, |r.labels|, id);
    }
    forall a, b, id | id in ActiveAt(sh, a) && id in ActiveAt(sh, b) ensures a == b {
      assert Claims(r.states[n], id) <= 1;
      OneEntry(sh, a, b, id);
    }
  }

  /** In a run that starts with nothing both queued and listed, a task is queued while a node lists
      it only in the moment its assignment is being taken back. */
  lemma {:induction false} QueuedMeansUndone(r: Run, n: nat, id: Id)
    requires IsRun(r) && n <= |r.labels| && ImportsNoTasks(r) && NeverForks(r, id)
    requires OwnersIn(r.states[0].sh, id) + SubmissionsIn(r, |r.labels|, id) <= 1
    ensures QueuedOnlyWhileUndone(r.states[n], id)
  {
    OwnersAreClaims(r.states[0].sh, id);
    if n == 0 {
      forall a | id in ActiveAt(r.states[0].sh, a) ensures id !in r.states[0].sh.pending {
        AtMostOneOwns(r.states[0].sh, a, a, id);
      }
    } else {
      QueuedMeansUndone(r, n - 1, id);
      NoMoreClaimsThanSubmissions(r, n - 1, id);
      NoMoreClaimsThanSubmissions(r, n, id);
      SubmissionsGrow(r, n, |r.labels|, id);
      assert StepAt(r, n - 1);
      var s, l := r.states[n - 1], r.labels[n - 1];
      hide Claims, QueuedOnlyWhileUndone, Apply, Enabled, ForksTask, ImportsTasks, OwnersIn, ClaimsIn;
      match l
      case Move(t, env) => MoveKeepsUndone(s, t, env, id);
      case Spawn(t, th) => SpawnKeepsUndone(s, t, th, id);
    }
  }

  lemma OwnersAreClaims(sh: Shared, id: Id)
    ensures ClaimsIn(sh, id) <= OwnersIn(sh, id)
  {
  }

  lemma DistinctIdsAreClaims(r: Run)
    requires IsRun(r) && DistinctIds(r)
    ensures DistinctClaims(r)
  {
    forall id ensures ClaimsIn(r.states[0].sh, id) + SubmissionsIn(r, |r.labels|, id) <= 1 {
      OwnersAreClaims(r.states[0].sh, id);
    }
  }

  lemma {:induction false} NobodyPutsBack(r: Run, n: nat, t: Tid, a: Addr, id: Id)
    requires IsRun(r) && n <= |r.labels| && NoFailedAssignment(r)
    requires t in r.states[n].threads
    ensures !PutsBack(r.states[n].threads[t], a, id)
  {
    if n > 0 {
      assert StepAt(r, n - 1) && !FailsAssignment(r.states[n - 1], r.labels[n - 1]);
      if t in r.states[n - 1].threads {
        NobodyPutsBack(r, n - 1, t, a, id);
        PuttingBackStarts(r.states[n - 1], r.labels[n - 1], t, a, id);
      }
    }
  }

  lemma PuttingBackStarts(s: State, l: Label, t: Tid, a: Addr, id: Id)
    requires Enabled(s, l) && t in s.threads && !FailsAssignment(s, l) && !PutsBack(s.threads[t], a, id)
    ensures !PutsBack(Apply(s, l).threads[t], a, id)
  {
  }

  /** Runs in which every assignment is written and ids are distinct are a special case. */
  lemma WithoutFailuresNoForks(r: Run)
    requires IsRun(r) && NoFailedAssignment(r) && ImportsNoTasks(r) && DistinctIds(r)
    ensures NoForks(r)
  {
    forall id, i: nat | i < |r.labels| ensures !ForksTask(r.states[i], r.labels[i], id) {
      var s, l := r.states[i], r.labels[i];
      assert !FailsAssignment(s, l);
      AtMostOneOwner(r, i);
      forall u, a | u in s.threads ensures !PutsBack(s.threads[u], a, id) {
        NobodyPutsBack(r, i, u, a, id);
      }
      assert forall a :: id in ActiveAt(s.sh, a) ==> IsActive(s.sh, id);
    }
  }

  // ---------- what a clean exit loses ----------

  /** The thread names the task without owning it: it files the result, writes the assignment, is
      about to queue it again, or imports it from a peer. */
  predicate StillNames(th: Thread, id: Id) {
    match th
    case Handler(_, at) =>
      (match at
       case Finishing(i, _) => i == id
       case Unqueuing(i, _) => i == id
       case Completing(i, _) => i == id
       case Assigning(_, i, _, _) => i == id
       case Enqueuing(i, _) => i == id
       case _ => false)
    case Peer(_, _) => Mentions(th, id)
    case Shell(_, _, _) => Mentions(th, id)
    case _ => false
  }

  lemma OwnerIsOnlyMention(s: State, leaver: Tid, id: Id, u: Tid)
    requires DistinctAddrs(s.threads) && Claims(s, id) <= 1
    requires leaver in s.threads && s.threads[leaver].Handler? && IsLive(s.threads[leaver])
    requires !s.threads[leaver].at.Requeuing? && id in ActiveAt(s.sh, s.threads[leaver].addr)
    requires u in s.threads && Mentions(s.threads[u], id)
    ensures StillNames(s.threads[u], id)
  {
    ActiveMeansOwned(s.sh, s.threads[leaver].addr, id);
    var th := s.threads[u];
    if Holding(s.sh, th, id) {
      TwoClaims(s, id, u);
    } else if th.Handler? && th.at.Requeuing? {
      OneEntry(s.sh, s.threads[leaver].addr, th.addr, id);
    }
  }

  /** In a run where tasks have one owner, a clean exit loses a task its node was working on exactly
      when no result is on file and nobody else names it. */
  lemma ExitLosesUnfinished(r: Run, i: nat, id: Id)
    requires IsRun(r) && i < |r.labels| && ImportsNoTasks(r) && NoForks(r) && DistinctIds(r)
    requires Exits(r.states[i], r.labels[i])
    requires id in ActiveAt(r.states[i].sh, r.states[i].threads[r.labels[i].t].addr)
    ensures var s := r.states[i];
            !Traced(r.states[i + 1], id) <==>
              id !in s.sh.completed && forall u :: u in s.threads ==> !StillNames(s.threads[u], id)
  {
    var s, l := r.states[i], r.labels[i];
    var t, leaver := l.t, s.threads[l.t].addr;
    assert StepAt(r, i);
    DistinctIdsAreClaims(r);
    OneOwnerThroughFailures(r, i);
    RunKeepsDistinct(r, i);
    assert NeverForks(r, id) && Claims(s, id) <= 1;
    QueuedMeansUndone(r, i, id);
    assert IsActive(s.sh, id);
    ExitLosesExactly(s, l, id);
    assert !BeingUndone(s.threads, leaver, id);
    assert id !in s.sh.pending;
    forall a | id in ActiveAt(s.sh, a) ensures a == leaver {
      OneEntry(s.sh, a, leaver, id);
    }
    forall u | u in s.threads ensures Mentions(s.threads[u], id) <==> StillNames(s.threads[u], id) {
      if Mentions(s.threads[u], id) {
        OwnerIsOnlyMention(s, t, id, u);
      }
    }
  }
}
