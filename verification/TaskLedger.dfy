/** No accepted task disappears unnoticed. Wherever a task is between two critical sections
    - queue, a dispatcher's or the reaper's locals, a node's `active_tasks`, a result being
    filed, `completed_tasks` - it is somewhere, or it was dropped at one of the four steps
    `DroppedBy` names. */
module TaskLedger {
  import opened Protocol
  import opened Regions
  import opened Machine

  /** The task is in this thread's local variables and nowhere else the thread put it. */
  predicate InTransit(th: Thread, id: Id) {
    match th
    case Handler(_, at) =>
      (match at
       case Recording(_, i, _) => i == id
       case Assigning(_, i, _, recorded) => i == id && !recorded
       case Requeuing(i, _) => i == id
       case Finishing(i, _) => i == id
       case Unqueuing(i, _) => i == id
       case Completing(i, _) => i == id
       case _ => false)
    case Reaper(_, Salvaging(_, active, _)) => id in active
    case _ => false
  }

  /** This handler is about to take back an assignment it could not deliver. */
  predicate Undoing(th: Thread, a: Addr, id: Id) {
    th.Handler? && th.at.Unrecording? && th.at.id == id && th.addr == a
  }

  ghost predicate BeingUndone(threads: map<Tid, Thread>, a: Addr, id: Id) {
    exists t :: t in threads && Undoing(threads[t], a, id)
  }

  /** An active entry counts unless a handler is just about to take it back. */
  ghost predicate ActiveSomewhere(s: State, id: Id) {
    exists a :: id in ActiveAt(s.sh, a) && !BeingUndone(s.threads, a, id)
  }

  ghost predicate CarriedSomewhere(threads: map<Tid, Thread>, id: Id) {
    exists t :: t in threads && InTransit(threads[t], id)
  }

  ghost predicate Accounted(s: State, id: Id) {
    || id in s.sh.pending
    || id in s.sh.completed
    || ActiveSomewhere(s, id)
    || CarriedSomewhere(s.threads, id)
  }

  // ---------- what is accepted and what is dropped ----------

  function AcceptedBy(th: Thread): set<Id> {
    match th
    case Handler(_, Enqueuing(id, _)) => {id}
    case Shell(id, _, submitted) => if submitted then {} else {id}
    case _ => {}
  }

  /** A task is let go when the connection's own handler overwrites or removes the node
      entry that lists it (joining, `Disconnect`, end of the loop), or when an assignment was
      written for a node that had no entry to record it in. */
  function DroppedBy(sh: Shared, th: Thread, env: Env): set<Id> {
    match th
    case Handler(addr, at) =>
      (match at
       case Joining => ActiveAt(sh, addr).Keys
       case Leaving => ActiveAt(sh, addr).Keys
       case Closing => ActiveAt(sh, addr).Keys
       case Assigning(_, id, _, recorded) => if env.ok && !recorded then {id} else {}
       case _ => {})
    case _ => {}
  }

  function Acting(s: State, l: Label): Option<Thread> {
    if l.Move? && l.t in s.threads then Some(s.threads[l.t]) else None
  }

  ghost function AcceptedIn(r: Run, n: nat): set<Id>
    requires IsRun(r) && n <= |r.labels|
  {
    if n == 0 then {}
    else
      var th := Acting(r.states[n - 1], r.labels[n - 1]);
      AcceptedIn(r, n - 1) + (if th.Some? then AcceptedBy(th.value) else {})
  }

  ghost function DroppedIn(r: Run, n: nat): set<Id>
    requires IsRun(r) && n <= |r.labels|
  {
    if n == 0 then {}
    else
      var s, l := r.states[n - 1], r.labels[n - 1];
      var th := Acting(s, l);
      DroppedIn(r, n - 1) + (if th.Some? then DroppedBy(s.sh, th.value, l.env) else {})
  }

  // ---------- connections have distinct addresses ----------

  /** Assumed of every new connection (`Enabled`); the lemmas below only carry it through a run. */
  ghost predicate DistinctAddrs(threads: map<Tid, Thread>) {
    forall t, u :: t in threads && u in threads && t != u && IsLive(threads[t]) && IsLive(threads[u]) ==>
      threads[t].addr != threads[u].addr
  }

  lemma ActKeepsKind(sh: Shared, th: Thread, env: Env)
    ensures var th' := Act(sh, th, env).th;
            th'.Handler? == th.Handler? && (th.Handler? ==> th'.addr == th.addr)
  {
  }

  lemma StepKeepsDistinct(s: State, l: Label)
    requires Enabled(s, l) && DistinctAddrs(s.threads)
    ensures DistinctAddrs(Apply(s, l).threads)
  {
    if l.Move? {
      ActKeepsKind(s.sh, s.threads[l.t], l.env);
    }
  }

  lemma {:induction false} RunKeepsDistinct(r: Run, n: nat)
    requires IsRun(r) && n <= |r.labels|
    ensures DistinctAddrs(r.states[n].threads)
  {
    if n > 0 {
      RunKeepsDistinct(r, n - 1);
      assert StepAt(r, n - 1);
      StepKeepsDistinct(r.states[n - 1], r.labels[n - 1]);
    }
  }

  // ---------- a handler changes no entry but its own ----------

  ghost predicate SameEntry(sh: Shared, sh': Shared, a: Addr) {
    (a in sh'.nodes <==> a in sh.nodes) && (a in sh.nodes ==> sh'.nodes[a] == sh.nodes[a])
  }

  lemma DispatchOwnEntry(sh: Shared, addr: Addr, at: HandlerPc, env: Env, a: Addr)
    requires Dispatching(at) && a != addr
    ensures SameEntry(sh, ActDispatch(sh, addr, at, env).0, a)
  {
  }

  lemma MemberOwnEntry(sh: Shared, addr: Addr, at: HandlerPc, env: Env, a: Addr)
    requires Belonging(at) && a != addr
    ensures SameEntry(sh, ActMember(sh, addr, at, env).0, a)
  {
  }

  lemma PortOwnEntry(sh: Shared, addr: Addr, at: HandlerPc, a: Addr)
    requires Porting(at) && a != addr
    ensures SameEntry(sh, ActPort(sh, addr, at).0, a)
  {
  }

  lemma RequestOwnEntry(sh: Shared, addr: Addr, at: HandlerPc, env: Env, a: Addr)
    requires !Dispatching(at) && !Belonging(at) && !Porting(at) && a != addr
    ensures SameEntry(sh, ActRequest(sh, addr, at, env).0, a)
  {
  }

  lemma HandlerOwnEntry(sh: Shared, addr: Addr, at: HandlerPc, env: Env, a: Addr)
    requires a != addr
    ensures SameEntry(sh, ActHandler(sh, addr, at, env).0, a)
  {
    hide SameEntry, ActDispatch, ActMember, ActPort, ActRequest;
    if Dispatching(at) {
      DispatchOwnEntry(sh, addr, at, env, a);
    } else if Belonging(at) {
      MemberOwnEntry(sh, addr, at, env, a);
    } else if Porting(at) {
      PortOwnEntry(sh, addr, at, a);
    } else {
      RequestOwnEntry(sh, addr, at, env, a);
    }
  }

  // ---------- one critical section ----------

  /** The places outside the node table that one thread can see. */
  ghost predicate Safe(sh: Shared, th: Thread, id: Id) {
    id in sh.pending || id in sh.completed || InTransit(th, id)
  }

  /** What one step of one thread does to one task. */
  ghost predicate TaskMoves(sh: Shared, th: Thread, env: Env, id: Id, sh': Shared, th': Thread) {
    && (Safe(sh, th, id) ==>
          || Safe(sh', th', id)
          || (th.Handler? && th.at.Recording? && th'.Handler? && th'.at.Assigning? && id in ActiveAt(sh', th.addr))
          || id in DroppedBy(sh, th, env))
    && (forall a :: id in ActiveAt(sh, a) ==>
          id in ActiveAt(sh', a) || Undoing(th, a, id) || Safe(sh', th', id) || id in DroppedBy(sh, th, env))
    && (id in AcceptedBy(th) || (exists a :: Undoing(th', a, id)) ==> id in sh'.pending)
  }

  lemma DispatchMovesTask(sh: Shared, addr: Addr, at: HandlerPc, env: Env, id: Id)
    requires Dispatching(at)
    ensures var (sh', at', _) := ActDispatch(sh, addr, at, env);
            TaskMoves(sh, Handler(addr, at), env, id, sh', Handler(addr, at'))
  {
  }

  lemma MemberMovesTask(sh: Shared, addr: Addr, at: HandlerPc, env: Env, id: Id)
    requires Belonging(at)
    ensures var (sh', at') := ActMember(sh, addr, at, env);
            TaskMoves(sh, Handler(addr, at), env, id, sh', Handler(addr, at'))
  {
  }

  lemma PortMovesTask(sh: Shared, addr: Addr, at: HandlerPc, env: Env, id: Id)
    requires Porting(at)
    ensures var (sh', at') := ActPort(sh, addr, at);
            TaskMoves(sh, Handler(addr, at), env, id, sh', Handler(addr, at'))
  {
  }

  lemma RequestMovesTask(sh: Shared, addr: Addr, at: HandlerPc, env: Env, id: Id)
    requires !Dispatching(at) && !Belonging(at) && !Porting(at) && !at.Gone?
    ensures var (sh', at', _) := ActRequest(sh, addr, at, env);
            TaskMoves(sh, Handler(addr, at), env, id, sh', Handler(addr, at'))
  {
  }

  lemma ReaperMovesTask(sh: Shared, timeout: nat, at: ReaperPc, env: Env, id: Id)
    ensures var (sh', at') := ActReaper(sh, timeout, at, env);
            TaskMoves(sh, Reaper(timeout, at), env, id, sh', Reaper(timeout, at'))
  {
  }

  lemma PeerMovesTask(sh: Shared, incoming: bool, at: PeerPc, env: Env, id: Id)
    ensures var (sh', at', _) := ActPeer(sh, incoming, at, env);
            TaskMoves(sh, Peer(incoming, at), env, id, sh', Peer(incoming, at'))
  {
  }

  lemma ActMovesTask(sh: Shared, th: Thread, env: Env, id: Id)
    requires !Finished(th)
    ensures var e := Act(sh, th, env); TaskMoves(sh, th, env, id, e.sh, e.th)
  {
    hide TaskMoves;
    match th
    case Handler(addr, at) =>
      if Dispatching(at) {
        DispatchMovesTask(sh, addr, at, env, id);
      } else if Belonging(at) {
        MemberMovesTask(sh, addr, at, env, id);
      } else if Porting(at) {
        PortMovesTask(sh, addr, at, env, id);
      } else {
        RequestMovesTask(sh, addr, at, env, id);
      }
    case Reaper(timeout, at) => ReaperMovesTask(sh, timeout, at, env, id);
    case Peer(incoming, at) => PeerMovesTask(sh, incoming, at, env, id);
    case Saver(_) => IdleMovesTask(sh, th, env, id);
    case Shell(_, _, _) => IdleMovesTask(sh, th, env, id);
  }

  lemma IdleMovesTask(sh: Shared, th: Thread, env: Env, id: Id)
    requires th.Saver? || th.Shell?
    ensures var e := Act(sh, th, env); TaskMoves(sh, th, env, id, e.sh, e.th)
  {
  }

  // ---------- one step of the machine ----------

  lemma MoveKeepsTask(s: State, t: Tid, env: Env, id: Id)
    requires Enabled(s, Move(t, env)) && DistinctAddrs(s.threads)
    requires Accounted(s, id) || id in AcceptedBy(s.threads[t])
    ensures Accounted(Apply(s, Move(t, env)), id) || id in DroppedBy(s.sh, s.threads[t], env)
  {
    var th, s' := s.threads[t], Apply(s, Move(t, env));
    var th' := s'.threads[t];
    hide Act, DroppedBy, AcceptedBy;
    ActMovesTask(s.sh, th, env, id);
    assert TaskMoves(s.sh, th, env, id, s'.sh, th');
    if Safe(s'.sh, th', id) || id in DroppedBy(s.sh, th, env) {
    } else if Safe(s.sh, th, id) {
      assert !BeingUndone(s'.threads, th.addr, id);
    } else if CarriedSomewhere(s.threads, id) {
      var u :| u in s.threads && InTransit(s.threads[u], id);
      assert u in s'.threads && s'.threads[u] == s.threads[u];
    } else {
      var a :| id in ActiveAt(s.sh, a) && !BeingUndone(s.threads, a, id);
      if BeingUndone(s'.threads, a, id) {
        var u :| u in s'.threads && Undoing(s'.threads[u], a, id);
      }
      assert !Undoing(th, a, id);
    }
  }

  lemma StepKeepsTask(s: State, l: Label, id: Id)
    requires Enabled(s, l) && DistinctAddrs(s.threads)
    requires Accounted(s, id) || (l.Move? && id in AcceptedBy(s.threads[l.t]))
    ensures Accounted(Apply(s, l), id) || (l.Move? && id in DroppedBy(s.sh, s.threads[l.t], l.env))
  {
    match l
    case Move(t, env) => MoveKeepsTask(s, t, env, id);
    case Spawn(t, th) =>
      var s' := Apply(s, l);
      if CarriedSomewhere(s.threads, id) {
        var u :| u in s.threads && InTransit(s.threads[u], id);
        assert s'.threads[u] == s.threads[u];
      } else if ActiveSomewhere(s, id) {
        var a :| id in ActiveAt(s.sh, a) && !BeingUndone(s.threads, a, id);
        assert !BeingUndone(s'.threads, a, id);
      }
  }

  // ---------- whole runs ----------

  /** Every id a client or the shell handed in is still accounted for, or was dropped by a
      step `DroppedBy` names. Merges, requeues and failed writes are all included. */
  lemma {:induction false} EveryTaskAccounted(r: Run, n: nat, id: Id)
    requires IsRun(r) && n <= |r.labels|
    requires id in AcceptedIn(r, n)
    ensures Accounted(r.states[n], id) || id in DroppedIn(r, n)
  {
    var s, l := r.states[n - 1], r.labels[n - 1];
    assert StepAt(r, n - 1);
    if id in AcceptedIn(r, n - 1) {
      EveryTaskAccounted(r, n - 1, id);
    }
    if id !in DroppedIn(r, n - 1) {
      RunKeepsDistinct(r, n - 1);
      StepKeepsTask(s, l, id);
    }
  }

  // ---------- the other direction: nothing comes from nothing ----------

  predicate PeerMentions(ps: PeerState, id: Id) {
    || (exists a :: a in ps.nodes && id in ps.nodes[a].activeTasks)
    || id in ps.pending
    || id in ps.completed
  }

  /** The thread could still write this id into a collection. */
  predicate Mentions(th: Thread, id: Id) {
    match th
    case Handler(_, at) => InTransit(th, id) || id in AcceptedBy(th) || (at.Assigning? && at.id == id)
    case Reaper(_, _) => InTransit(th, id)
    case Saver(_) => false
    case Peer(_, at) =>
      (match at
       case MergingNodes(ps) => PeerMentions(ps, id)
       case MergingPending(ps) => PeerMentions(ps, id)
       case MergingCompleted(ps) => PeerMentions(ps, id)
       case _ => false)
    case Shell(_, _, _) => id in AcceptedBy(th)
  }

  ghost predicate InCollections(sh: Shared, id: Id) {
    id in sh.pending || id in sh.completed || IsActive(sh, id)
  }

  ghost predicate Traced(s: State, id: Id) {
    InCollections(s.sh, id) || exists t :: t in s.threads && Mentions(s.threads[t], id)
  }

  /** The only ways for an id to enter a master: a client's request, a reported result or
      another master's state being read, or the shell. */
  predicate Reads(th: Thread, env: Env, id: Id) {
    match th
    case Handler(_, Reading) =>
      env.input.Msg? && ((env.input.m.SubmitTask? && env.input.m.id == id) || (env.input.m.ResultOf? && env.input.m.id == id))
    case Peer(_, PeerReading) => env.input.PeerData? && PeerMentions(env.input.ps, id)
    case _ => false
  }

  predicate BringsIn(s: State, l: Label, id: Id) {
    match l
    case Spawn(_, th) => Mentions(th, id)
    case Move(t, env) => t in s.threads && Reads(s.threads[t], env, id)
  }

  lemma DispatchInventsNothing(sh: Shared, addr: Addr, at: HandlerPc, env: Env, id: Id)
    requires Dispatching(at) && !InCollections(sh, id) && !Mentions(Handler(addr, at), id)
    ensures var (sh', at', _) := ActDispatch(sh, addr, at, env);
            !InCollections(sh', id) && !Mentions(Handler(addr, at'), id)
  {
  }

  lemma MemberInventsNothing(sh: Shared, addr: Addr, at: HandlerPc, env: Env, id: Id)
    requires Belonging(at) && !InCollections(sh, id) && !Mentions(Handler(addr, at), id)
    ensures var (sh', at') := ActMember(sh, addr, at, env);
            !InCollections(sh', id) && !Mentions(Handler(addr, at'), id)
  {
  }

  lemma PortInventsNothing(sh: Shared, addr: Addr, at: HandlerPc, id: Id)
    requires Porting(at) && !InCollections(sh, id) && !Mentions(Handler(addr, at), id)
    ensures var (sh', at') := ActPort(sh, addr, at);
            !InCollections(sh', id) && !Mentions(Handler(addr, at'), id)
  {
  }

  lemma RequestInventsNothing(sh: Shared, addr: Addr, at: HandlerPc, env: Env, id: Id)
    requires !Dispatching(at) && !Belonging(at) && !Porting(at)
    requires !InCollections(sh, id) && !Mentions(Handler(addr, at), id) && !Reads(Handler(addr, at), env, id)
    ensures var (sh', at', _) := ActRequest(sh, addr, at, env);
            !InCollections(sh', id) && !Mentions(Handler(addr, at'), id)
  {
  }

  lemma ReaperInventsNothing(sh: Shared, timeout: nat, at: ReaperPc, env: Env, id: Id)
    requires !InCollections(sh, id) && !Mentions(Reaper(timeout, at), id)
    ensures var (sh', at') := ActReaper(sh, timeout, at, env);
            !InCollections(sh', id) && !Mentions(Reaper(timeout, at'), id)
  {
  }

  lemma PeerInventsNothing(sh: Shared, incoming: bool, at: PeerPc, env: Env, id: Id)
    requires !InCollections(sh, id) && !Mentions(Peer(incoming, at), id) && !Reads(Peer(incoming, at), env, id)
    ensures var (sh', at', _) := ActPeer(sh, incoming, at, env);
            !InCollections(sh', id) && !Mentions(Peer(incoming, at'), id)
  {
  }

  lemma ActInventsNothing(sh: Shared, th: Thread, env: Env, id: Id)
    requires !InCollections(sh, id) && !Mentions(th, id) && !Reads(th, env, id)
    ensures var e := Act(sh, th, env); !InCollections(e.sh, id) && !Mentions(e.th, id)
  {
    hide InCollections;
    match th
    case Handler(addr, at) =>
      if Dispatching(at) {
        DispatchInventsNothing(sh, addr, at, env, id);
      } else if Belonging(at) {
        MemberInventsNothing(sh, addr, at, env, id);
      } else if Porting(at) {
        PortInventsNothing(sh, addr, at, id);
      } else {
        RequestInventsNothing(sh, addr, at, env, id);
      }
    case Reaper(timeout, at) => ReaperInventsNothing(sh, timeout, at, env, id);
    case Peer(incoming, at) => PeerInventsNothing(sh, incoming, at, env, id);
    case Saver(_) =>
    case Shell(i, pt, submitted) => if !submitted { EnqueueOther(sh, i, pt, id); }
  }

  lemma EnqueueOther(sh: Shared, i: Id, pt: PendingTask, id: Id)
    requires !InCollections(sh, id) && i != id
    ensures !InCollections(Enqueue(sh, i, pt), id)
  {
  }

  lemma StepInventsNothing(s: State, l: Label, id: Id)
    requires Enabled(s, l) && !Traced(s, id) && !BringsIn(s, l, id)
    ensures !Traced(Apply(s, l), id)
  {
    if l.Move? {
      hide Act, InCollections, Mentions;
      ActInventsNothing(s.sh, s.threads[l.t], l.env, id);
    }
  }

  /** An accounted task is always traced. */
  lemma AccountedMeansTraced(s: State, id: Id)
    requires Accounted(s, id)
    ensures Traced(s, id)
  {
    if CarriedSomewhere(s.threads, id) {
      var t :| t in s.threads && InTransit(s.threads[t], id);
      assert Mentions(s.threads[t], id);
    }
  }

  /** The handler `t` is about to remove its own node entry: `Disconnect`, or the end of its loop. */
  predicate Exits(s: State, l: Label) {
    && l.Move? && l.t in s.threads && s.threads[l.t].Handler?
    && (s.threads[l.t].at.Leaving? || s.threads[l.t].at.Closing?)
  }

  /** Task `id` is in the leaver's own entry and nowhere else: not queued, not completed, not
      active at another address, in no thread's hands. */
  ghost predicate OnlyWithLeaver(s: State, leaver: Addr, id: Id) {
    && id in ActiveAt(s.sh, leaver)
    && id !in s.sh.pending && id !in s.sh.completed
    && (forall a :: a != leaver ==> id !in ActiveAt(s.sh, a))
    && (forall t :: t in s.threads ==> !Mentions(s.threads[t], id))
  }

  lemma ExitOf(s: State, l: Label)
    requires Exits(s, l)
    ensures Apply(s, l).sh == RemoveNode(s.sh, s.threads[l.t].addr)
    ensures forall id, t :: t in s.threads ==> (Mentions(Apply(s, l).threads[t], id) <==> Mentions(s.threads[t], id))
    ensures Apply(s, l).threads.Keys == s.threads.Keys
  {
  }

  lemma CollectionsAfterExit(sh: Shared, leaver: Addr, id: Id)
    ensures InCollections(RemoveNode(sh, leaver), id) <==>
              id in sh.pending || id in sh.completed || exists a :: a != leaver && id in ActiveAt(sh, a)
  {
    var sh' := RemoveNode(sh, leaver);
    if a :| a != leaver && id in ActiveAt(sh, a) {
      assert a in sh'.nodes && id in sh'.nodes[a].activeTasks;
    }
    if a :| a in sh'.nodes && id in sh'.nodes[a].activeTasks {
      assert a != leaver && id in ActiveAt(sh, a);
    }
  }

  /** A clean exit loses a task exactly when only the leaver's entry had it. */
  lemma ExitLosesExactly(s: State, l: Label, id: Id)
    requires Enabled(s, l) && Exits(s, l) && Traced(s, id)
    ensures !Traced(Apply(s, l), id) <==> OnlyWithLeaver(s, s.threads[l.t].addr, id)
  {
    var leaver, s' := s.threads[l.t].addr, Apply(s, l);
    ExitOf(s, l);
    CollectionsAfterExit(s.sh, leaver, id);
    hide Apply, Mentions, Enabled;
    if exists t :: t in s.threads && Mentions(s.threads[t], id) {
      var t :| t in s.threads && Mentions(s.threads[t], id);
      assert Mentions(s'.threads[t], id);
    } else {
      assert forall t :: t in s'.threads ==> !Mentions(s'.threads[t], id);
      if OnlyWithLeaver(s, leaver, id) {
        assert !Traced(s', id);
      } else if id !in s.sh.pending && id !in s.sh.completed {
        var a :| a in s.sh.nodes && id in s.sh.nodes[a].activeTasks;
        assert id in ActiveAt(s.sh, a);
      }
    }
  }

  lemma {:induction false} StaysUntraced(r: Run, i: nat, n: nat, id: Id)
    requires IsRun(r) && i <= n <= |r.labels| && !Traced(r.states[i], id)
    requires forall j: nat :: i <= j < n ==> !BringsIn(r.states[j], r.labels[j], id)
    ensures !Traced(r.states[n], id)
    decreases n - i
  {
    hide Traced, Apply, BringsIn;
    if n > i {
      StaysUntraced(r, i, n - 1, id);
      assert StepAt(r, n - 1);
      StepInventsNothing(r.states[n - 1], r.labels[n - 1], id);
    }
  }

  /** What a clean exit costs. The task survives it if anything but the leaver's entry has it;
      otherwise it is gone for good, unless someone outside names its id again. The reaper would
      have put it back in the queue. */
  lemma CleanExitLosesExactly(r: Run, i: nat, n: nat, id: Id)
    requires IsRun(r) && i < n <= |r.labels|
    requires Exits(r.states[i], r.labels[i]) && Traced(r.states[i], id)
    requires forall j: nat :: i < j < n ==> !BringsIn(r.states[j], r.labels[j], id)
    ensures var leaver := r.states[i].threads[r.labels[i].t].addr;
            && (!OnlyWithLeaver(r.states[i], leaver, id) ==> Traced(r.states[i + 1], id))
            && (OnlyWithLeaver(r.states[i], leaver, id) ==>
                  id in DroppedIn(r, i + 1) && !Traced(r.states[n], id) && !Accounted(r.states[n], id))
  {
    var leaver := r.states[i].threads[r.labels[i].t].addr;
    assert StepAt(r, i);
    ExitLosesExactly(r.states[i], r.labels[i], id);
    if OnlyWithLeaver(r.states[i], leaver, id) {
      hide Traced, Accounted, Apply, Enabled, BringsIn;
      StaysUntraced(r, i + 1, n, id);
      if Accounted(r.states[n], id) {
        AccountedMeansTraced(r.states[n], id);
      }
    }
  }
}
