/** What the node table says about a connection being served, and when the reaper may take it out:
    an entry always repeats the connection's own last heartbeat and its own last announced role, and
    a connection that keeps its heartbeats up is never removed. */
module Members {
  import opened Protocol
  import opened Regions
  import opened Machine
  import opened TaskLedger
  import opened Witnesses

  // ---------- a connection's own steps ----------

  /** Step `k` is handler `t`'s own. */
  ghost predicate OwnAt(r: Run, k: nat, t: Tid)
    requires IsRun(r)
  {
    k < |r.labels| && r.labels[k].Move? && r.labels[k].t == t && t in r.states[k].threads && r.states[k].threads[t].Handler?
  }

  ghost predicate JoinsAt(r: Run, k: nat, t: Tid, addr: Addr)
    requires IsRun(r)
  {
    OwnAt(r, k, t) && r.states[k].threads[t] == Handler(addr, Joining)
  }

  ghost predicate BeatsAt(r: Run, k: nat, t: Tid)
    requires IsRun(r)
  {
    OwnAt(r, k, t) && r.states[k].threads[t].at.Beating?
  }

  ghost predicate AnnouncesAt(r: Run, k: nat, t: Tid)
    requires IsRun(r)
  {
    OwnAt(r, k, t) && r.states[k].threads[t].at.Announcing?
  }

  /** The time of day at step `k`. */
  function Clock(r: Run, k: nat): nat
    requires k < |r.labels|
  {
    if r.labels[k].Move? then r.labels[k].env.now else 0
  }

  /** The connection's last heartbeat before step `n`, or its joining step `i` if there was none. */
  ghost function LastSign(r: Run, i: nat, n: nat, t: Tid): (b: nat)
    requires IsRun(r) && i < n <= |r.labels|
    ensures i <= b < n && (b > i ==> BeatsAt(r, b, t))
    ensures forall k: nat :: b < k < n ==> !BeatsAt(r, k, t)
  {
    if n == i + 1 then i
    else if BeatsAt(r, n - 1, t) then n - 1
    else LastSign(r, i, n - 1, t)
  }

  ghost predicate HasBeaten(r: Run, i: nat, n: nat, t: Tid)
    requires IsRun(r)
  {
    exists k: nat :: i < k < n && BeatsAt(r, k, t)
  }

  /** The role the connection announced last, Worker before it has announced any. */
  ghost function LastRole(r: Run, i: nat, n: nat, t: Tid): NodeRole
    requires IsRun(r) && i < n <= |r.labels|
  {
    if n == i + 1 then Worker
    else if AnnouncesAt(r, n - 1, t) then r.states[n - 1].threads[t].at.role
    else LastRole(r, i, n - 1, t)
  }

  /** Between joining and leaving. */
  predicate Serving(at: HandlerPc) {
    !at.Greeting? && !at.Joining? && !at.Closing? && !at.Gone?
  }

  ghost predicate ServingAt(r: Run, n: nat, t: Tid, addr: Addr)
    requires IsRun(r) && n <= |r.labels|
  {
    t in r.states[n].threads && r.states[n].threads[t].Handler? && r.states[n].threads[t].addr == addr
    && Serving(r.states[n].threads[t].at)
  }

  /** The reaper takes `addr` out of the table. */
  predicate Removes(th: Thread, addr: Addr) {
    th.Reaper? && th.reap.Reaping? && th.reap.stale != [] && th.reap.stale[0] == addr
  }

  ghost predicate RemovedAt(r: Run, k: nat, addr: Addr)
    requires IsRun(r)
  {
    k < |r.labels| && Acting(r.states[k], r.labels[k]).Some? && Removes(Acting(r.states[k], r.labels[k]).value, addr)
  }

  // ---------- single steps ----------

  datatype Standing = Standing(lastHeartbeat: nat, isWorker: bool, role: NodeRole)

  function StandingOf(sh: Shared, addr: Addr): Standing
    requires addr in sh.nodes
  {
    var info := sh.nodes[addr];
    Standing(info.lastHeartbeat, info.isWorker, info.role)
  }

  ghost predicate SameStanding(sh: Shared, sh': Shared, addr: Addr) {
    addr in sh.nodes ==> addr in sh'.nodes && StandingOf(sh', addr) == StandingOf(sh, addr)
  }

  predicate Steady(at: HandlerPc) {
    Serving(at) && !at.Beating? && !at.Announcing? && !at.Leaving?
  }

  lemma PlainKeeps(sh: Shared, addr: Addr, at: HandlerPc, env: Env)
    requires Steady(at)
    ensures SameStanding(sh, ActHandler(sh, addr, at, env).0, addr)
    ensures !ActHandler(sh, addr, at, env).1.Greeting? && !ActHandler(sh, addr, at, env).1.Joining?
  {
  }

  lemma SigningSteps(sh: Shared, addr: Addr, role: NodeRole, env: Env)
    requires addr in sh.nodes
    ensures var sh' := ActHandler(sh, addr, Beating, env).0;
            addr in sh'.nodes && StandingOf(sh', addr) == Standing(env.now, true, sh.nodes[addr].role)
    ensures var sh' := ActHandler(sh, addr, Announcing(role), env).0;
            addr in sh'.nodes && StandingOf(sh', addr) == StandingOf(sh, addr).(role := role)
    ensures ActHandler(sh, addr, Beating, env).1.Replying? && ActHandler(sh, addr, Announcing(role), env).1.AskRole?
  {
  }

  lemma FirstAndLastSteps(sh: Shared, addr: Addr, env: Env)
    ensures var (sh', at', _) := ActHandler(sh, addr, Joining, env);
            addr in sh'.nodes && StandingOf(sh', addr) == Standing(env.now, false, Worker) && at' == AskRole
    ensures ActHandler(sh, addr, Leaving, env).1 == Closing && ActHandler(sh, addr, Closing, env).1 == Gone
  {
  }

  lemma ReaperKeeps(sh: Shared, timeout: nat, at: ReaperPc, env: Env, addr: Addr)
    requires !Removes(Reaper(timeout, at), addr)
    ensures SameStanding(sh, ActReaper(sh, timeout, at, env).0, addr)
  {
  }

  lemma OthersKeep(sh: Shared, th: Thread, env: Env, addr: Addr)
    requires th.Handler? ==> th.addr != addr || th.at.Gone?
    requires !Removes(th, addr)
    ensures SameStanding(sh, Act(sh, th, env).sh, addr)
  {
    match th
    case Handler(a, at) => if a != addr { HandlerOwnEntry(sh, a, at, env, addr); }
    case Reaper(timeout, at) => ReaperKeeps(sh, timeout, at, env, addr);
    case Peer(_, _) =>
    case Saver(_) =>
    case Shell(_, _, _) =>
  }

  // ---------- the entry of a connection being served ----------

  /** The entry says when the connection gave its last sign of life, whether it has ever sent a
      heartbeat, and the role it announced last. */
  ghost predicate KnownAt(r: Run, i: nat, n: nat, t: Tid, addr: Addr)
    requires IsRun(r) && i < n <= |r.labels|
  {
    && addr in r.states[n].sh.nodes
    && StandingOf(r.states[n].sh, addr) ==
         Standing(Clock(r, LastSign(r, i, n, t)), HasBeaten(r, i, n, t), LastRole(r, i, n, t))
  }

  lemma OwnMove(r: Run, k: nat, t: Tid)
    requires IsRun(r) && OwnAt(r, k, t)
    ensures var th, env := r.states[k].threads[t], r.labels[k].env;
            var (sh', at', out) := ActHandler(r.states[k].sh, th.addr, th.at, env);
            r.states[k + 1].sh == sh' && t in r.states[k + 1].threads
            && r.states[k + 1].threads[t] == Handler(th.addr, at') && !th.at.Gone?
  {
    assert StepAt(r, k);
    hide ActHandler;
  }

  lemma OtherMove(r: Run, k: nat, t: Tid, addr: Addr)
    requires IsRun(r) && k < |r.labels| && !OwnAt(r, k, t)
    requires t in r.states[k].threads && r.states[k].threads[t].Handler? && r.states[k].threads[t].addr == addr
    ensures t in r.states[k + 1].threads && r.states[k + 1].threads[t] == r.states[k].threads[t]
    ensures r.states[k].threads[t].at.Gone? || RemovedAt(r, k, addr) ||
            SameStanding(r.states[k].sh, r.states[k + 1].sh, addr)
  {
    assert StepAt(r, k);
    RunKeepsDistinct(r, k);
    if r.labels[k].Move? && !r.states[k].threads[t].at.Gone? {
      var th := r.states[k].threads[r.labels[k].t];
      if !Removes(th, addr) {
        OthersKeep(r.states[k].sh, th, r.labels[k].env, addr);
      }
    }
  }

  lemma {:induction false} JoinsOnce(r: Run, i: nat, n: nat, t: Tid, addr: Addr)
    requires IsRun(r) && JoinsAt(r, i, t, addr) && i < n <= |r.labels|
    ensures t in r.states[n].threads && r.states[n].threads[t].Handler? && r.states[n].threads[t].addr == addr
    ensures !r.states[n].threads[t].at.Greeting? && !r.states[n].threads[t].at.Joining?
  {
    hide ActHandler;
    if n == i + 1 {
      OwnMove(r, i, t);
      FirstAndLastSteps(r.states[i].sh, addr, r.labels[i].env);
    } else {
      JoinsOnce(r, i, n - 1, t, addr);
      if OwnAt(r, n - 1, t) {
        OwnMove(r, n - 1, t);
        StaysJoined(r.states[n - 1].sh, addr, r.states[n - 1].threads[t].at, r.labels[n - 1].env);
      } else {
        OtherMove(r, n - 1, t, addr);
      }
    }
  }

  /** A connection being served joined and has not left since. */
  lemma StaysJoined(sh: Shared, addr: Addr, at: HandlerPc, env: Env)
    requires !at.Greeting? && !at.Joining? && !at.Gone?
    ensures var at' := ActHandler(sh, addr, at, env).1;
            !at'.Greeting? && !at'.Joining? && (Serving(at') ==> Serving(at) && !at.Leaving?)
  {
    if Steady(at) {
      PlainKeeps(sh, addr, at, env);
    } else if at.Beating? || at.Announcing? {
      assert Serving(at);
    } else {
      FirstAndLastSteps(sh, addr, env);
    }
  }

  /** As long as the reaper has not removed it, the entry of a connection being served is exactly
      what the connection itself has said. */
  lemma {:induction false} EntryIsKnown(r: Run, i: nat, n: nat, t: Tid, addr: Addr)
    requires IsRun(r) && JoinsAt(r, i, t, addr) && i < n <= |r.labels|
    requires ServingAt(r, n, t, addr)
    requires forall k: nat :: i < k < n ==> !RemovedAt(r, k, addr)
    ensures KnownAt(r, i, n, t, addr)
  {
    hide ActHandler;
    if n == i + 1 {
      OwnMove(r, i, t);
      FirstAndLastSteps(r.states[i].sh, addr, r.labels[i].env);
    } else {
      JoinsOnce(r, i, n - 1, t, addr);
      var th := r.states[n - 1].threads[t];
      if OwnAt(r, n - 1, t) {
        OwnMove(r, n - 1, t);
        StaysJoined(r.states[n - 1].sh, addr, th.at, r.labels[n - 1].env);
        EntryIsKnown(r, i, n - 1, t, addr);
        OwnStepKnown(r, i, n, t, addr);
      } else {
        OtherMove(r, n - 1, t, addr);
        EntryIsKnown(r, i, n - 1, t, addr);
        SameSaid(r, i, n, t);
      }
    }
  }

  lemma SameSaid(r: Run, i: nat, n: nat, t: Tid)
    requires IsRun(r) && i < n - 1 && n <= |r.labels| && !BeatsAt(r, n - 1, t)
    ensures HasBeaten(r, i, n, t) == HasBeaten(r, i, n - 1, t)
  {
    if HasBeaten(r, i, n, t) {
      var k: nat :| i < k < n && BeatsAt(r, k, t);
      assert k < n - 1;
    }
  }

  lemma OwnStepKnown(r: Run, i: nat, n: nat, t: Tid, addr: Addr)
    requires IsRun(r) && i < n - 1 && n <= |r.labels| && KnownAt(r, i, n - 1, t, addr)
    requires OwnAt(r, n - 1, t) && r.states[n - 1].threads[t].addr == addr
    requires Serving(r.states[n - 1].threads[t].at) && !r.states[n - 1].threads[t].at.Leaving?
    ensures KnownAt(r, i, n, t, addr)
  {
    OwnMove(r, n - 1, t);
    var sh, at, env := r.states[n - 1].sh, r.states[n - 1].threads[t].at, r.labels[n - 1].env;
    hide ActHandler;
    if at.Beating? {
      assert BeatsAt(r, n - 1, t);
      SigningSteps(sh, addr, Worker, env);
    } else {
      SameSaid(r, i, n, t);
      if at.Announcing? {
        SigningSteps(sh, addr, at.role, env);
      } else {
        PlainKeeps(sh, addr, at, env);
      }
    }
  }

  // ---------- the reaper ----------

  /** The reaper collects the stale addresses. */
  ghost predicate CollectsAt(r: Run, k: nat)
    requires IsRun(r)
  {
    && k < |r.labels| && Acting(r.states[k], r.labels[k]).Some?
    && Acting(r.states[k], r.labels[k]).value.Reaper? && Acting(r.states[k], r.labels[k]).value.reap.Resting?
  }

  ghost function TimeoutAt(r: Run, k: nat): nat
    requires IsRun(r) && CollectsAt(r, k)
  {
    Acting(r.states[k], r.labels[k]).value.timeout
  }

  /** The reaper is going to remove `addr` in the pass it is making. */
  predicate Listed(th: Thread, addr: Addr) {
    match th
    case Reaper(_, Reaping(stale)) => addr in stale
    case Reaper(_, Salvaging(_, _, rest)) => addr in rest
    case Reaper(_, Taking(_, rest)) => addr in rest
    case Reaper(_, Pushing(_, rest)) => addr in rest
    case _ => false
  }

  ghost predicate ListedIn(threads: map<Tid, Thread>, addr: Addr) {
    exists u :: u in threads && Listed(threads[u], addr)
  }

  ghost predicate ClockNeverGoesBack(r: Run) {
    forall j: nat, k: nat :: j < k < |r.labels| && r.labels[j].Move? && r.labels[k].Move? ==> Clock(r, j) <= Clock(r, k)
  }

  /** At every collection up to `n`, some sign of life (joining or a heartbeat) is at most twice the
      reaper's timeout old. */
  ghost predicate KeepsUp(r: Run, i: nat, n: nat, t: Tid)
    requires IsRun(r)
  {
    forall k: nat :: i < k < n && CollectsAt(r, k) ==>
      exists b: nat :: i <= b < k && (b == i || BeatsAt(r, b, t)) && Clock(r, k) <= Clock(r, b) + 2 * TimeoutAt(r, k)
  }

  /** A collection lists a connection being served if and only if its last sign of life is more than
      twice the timeout ago. */
  lemma CollectedExactly(r: Run, i: nat, k: nat, t: Tid, addr: Addr)
    requires IsRun(r) && JoinsAt(r, i, t, addr) && i < k && CollectsAt(r, k) && ServingAt(r, k, t, addr)
    requires forall m: nat :: i < m < k ==> !RemovedAt(r, m, addr)
    ensures r.labels[k].t in r.states[k + 1].threads
    ensures Listed(r.states[k + 1].threads[r.labels[k].t], addr) <==>
              Clock(r, k) > Clock(r, LastSign(r, i, k, t)) + 2 * TimeoutAt(r, k)
  {
    EntryIsKnown(r, i, k, t, addr);
    assert StepAt(r, k);
    var sh, env, timeout := r.states[k].sh, r.labels[k].env, TimeoutAt(r, k);
    assert multiset(env.order) == multiset(StaleNodes(sh, env.now, timeout));
    assert addr in env.order <==> addr in multiset(env.order);
  }

  lemma ReaperLists(sh: Shared, th: Thread, env: Env, addr: Addr)
    requires !(th.Reaper? && th.reap.Resting?) && !Listed(th, addr)
    ensures !Listed(Act(sh, th, env).th, addr) && !Removes(th, addr)
  {
    match th
    case Handler(_, _) =>
    case Reaper(_, _) =>
    case Peer(_, _) =>
    case Saver(_) =>
    case Shell(_, _, _) =>
  }

  /** A connection that keeps its heartbeats up is never removed by the reaper, in any run whose clock
      does not go back - unless the reaper had its address on the list already when it joined. */
  lemma {:induction false} NeverReaped(r: Run, i: nat, n: nat, t: Tid, addr: Addr)
    requires IsRun(r) && ClockNeverGoesBack(r)
    requires JoinsAt(r, i, t, addr) && i < n <= |r.labels| && ServingAt(r, n, t, addr)
    requires !ListedIn(r.states[i].threads, addr) && KeepsUp(r, i, n, t)
    ensures forall k: nat :: i < k < n ==> !RemovedAt(r, k, addr)
    ensures !ListedIn(r.states[n].threads, addr)
    ensures addr in r.states[n].sh.nodes
  {
    hide KnownAt, ActHandler, Act;
    if n == i + 1 {
      OwnMove(r, i, t);
      assert StepAt(r, i);
    } else {
      JoinsOnce(r, i, n - 1, t, addr);
      if OwnAt(r, n - 1, t) {
        OwnMove(r, n - 1, t);
        StaysJoined(r.states[n - 1].sh, addr, r.states[n - 1].threads[t].at, r.labels[n - 1].env);
      } else {
        OtherMove(r, n - 1, t, addr);
      }
      NeverReaped(r, i, n - 1, t, addr);
      NotListedNext(r, i, n - 1, t, addr);
    }
    StillThere(r, i, n, t, addr);
  }

  lemma StillThere(r: Run, i: nat, n: nat, t: Tid, addr: Addr)
    requires IsRun(r) && JoinsAt(r, i, t, addr) && i < n <= |r.labels| && ServingAt(r, n, t, addr)
    requires forall k: nat :: i < k < n ==> !RemovedAt(r, k, addr)
    ensures addr in r.states[n].sh.nodes
  {
    EntryIsKnown(r, i, n, t, addr);
  }

  lemma NotListedNext(r: Run, i: nat, n: nat, t: Tid, addr: Addr)
    requires IsRun(r) && ClockNeverGoesBack(r)
    requires JoinsAt(r, i, t, addr) && i < n < |r.labels| && ServingAt(r, n, t, addr)
    requires KeepsUp(r, i, n + 1, t)
    requires forall k: nat :: i < k < n ==> !RemovedAt(r, k, addr)
    requires !ListedIn(r.states[n].threads, addr)
    ensures !RemovedAt(r, n, addr) && !ListedIn(r.states[n + 1].threads, addr)
  {
    hide Act;
    assert StepAt(r, n);
    var s, l := r.states[n], r.labels[n];
    if l.Move? {
      if CollectsAt(r, n) {
        CollectedExactly(r, i, n, t, addr);
        var b: nat :| i <= b < n && (b == i || BeatsAt(r, b, t)) && Clock(r, n) <= Clock(r, b) + 2 * TimeoutAt(r, n);
        assert Clock(r, b) <= Clock(r, LastSign(r, i, n, t));
      } else {
        ReaperLists(s.sh, s.threads[l.t], l.env, addr);
      }
    }
  }

  // ---------- which tasks the connection is given ----------

  /** A handler about to hand over a task works for the role its node announced, and the task it has
      picked uses what nodes of that role set up. */
  predicate Fits(at: HandlerPc, addr: Addr, standing: Standing) {
    match at
    case WantPending(role) => standing.isWorker && role == standing.role
    case WantNodes(role) => standing.isWorker && role == standing.role
    case Recording(role, _, pt) => standing.isWorker && role == standing.role && ForNode(pt, addr, role)
    case Assigning(role, _, pt, _) => standing.isWorker && role == standing.role && ForNode(pt, addr, role)
    case _ => true
  }

  predicate ForNode(pt: PendingTask, addr: Addr, role: NodeRole) {
    (pt.target == None || pt.target == Some(addr)) && SetUpFor(role) == Uses(pt.task)
  }

  lemma FitsNext(sh: Shared, addr: Addr, at: HandlerPc, env: Env)
    requires addr in sh.nodes && Fits(at, addr, StandingOf(sh, addr)) && Sensible(sh, Handler(addr, at), env)
    ensures Steady(at) ==> Fits(ActHandler(sh, addr, at, env).1, addr, StandingOf(sh, addr))
    ensures forall standing :: !Steady(at) && Serving(at) ==> Fits(ActHandler(sh, addr, at, env).1, addr, standing)
  {
    if at.WantNodes? && env.pick.Some? {
      RoleIsEquipment(sh.pending[env.pick.value].task, at.role);
    }
  }

  /** A connection is handed tasks only after its first heartbeat, and only those its announced role
      sets it up for; as long as the reaper has not removed it. */
  lemma {:induction false} TasksFitTheNode(r: Run, i: nat, n: nat, t: Tid, addr: Addr)
    requires IsRun(r) && JoinsAt(r, i, t, addr) && i < n <= |r.labels| && ServingAt(r, n, t, addr)
    requires forall k: nat :: i < k < n ==> !RemovedAt(r, k, addr)
    ensures Fits(r.states[n].threads[t].at, addr, Standing(0, HasBeaten(r, i, n, t), LastRole(r, i, n, t)))
  {
    hide ActHandler, KnownAt;
    if n == i + 1 {
      OwnMove(r, i, t);
      FirstAndLastSteps(r.states[i].sh, addr, r.labels[i].env);
    } else {
      JoinsOnce(r, i, n - 1, t, addr);
      var th := r.states[n - 1].threads[t];
      if OwnAt(r, n - 1, t) {
        OwnMove(r, n - 1, t);
        StaysJoined(r.states[n - 1].sh, addr, th.at, r.labels[n - 1].env);
        TasksFitTheNode(r, i, n - 1, t, addr);
        FitsAfterOwn(r, i, n, t, addr);
      } else {
        OtherMove(r, n - 1, t, addr);
        TasksFitTheNode(r, i, n - 1, t, addr);
        SameSaid(r, i, n, t);
      }
    }
  }

  lemma FitsAfterOwn(r: Run, i: nat, n: nat, t: Tid, addr: Addr)
    requires IsRun(r) && JoinsAt(r, i, t, addr) && i < n - 1 && n <= |r.labels| && ServingAt(r, n - 1, t, addr)
    requires forall k: nat :: i < k < n ==> !RemovedAt(r, k, addr)
    requires OwnAt(r, n - 1, t) && !r.states[n - 1].threads[t].at.Leaving?
    requires Fits(r.states[n - 1].threads[t].at, addr, Standing(0, HasBeaten(r, i, n - 1, t), LastRole(r, i, n - 1, t)))
    ensures t in r.states[n].threads && r.states[n].threads[t].Handler?
    ensures Fits(r.states[n].threads[t].at, addr, Standing(0, HasBeaten(r, i, n, t), LastRole(r, i, n, t)))
  {
    var sh, at, env := r.states[n - 1].sh, r.states[n - 1].threads[t].at, r.labels[n - 1].env;
    OwnMove(r, n - 1, t);
    EntryIsKnown(r, i, n - 1, t, addr);
    assert StepAt(r, n - 1);
    hide ActHandler, Sensible;
    FitsNext(sh, addr, at, env);
    if Steady(at) {
      SameSaid(r, i, n, t);
    }
  }

  /** Connections are opened by Internet nodes only, files touched by Disk nodes only, and the rest is
      done by Workers - going by what each node announced last, not by what the master believes. */
  lemma AssignedByKind(r: Run, i: nat, n: nat, t: Tid, addr: Addr)
    requires IsRun(r) && JoinsAt(r, i, t, addr) && i < n && OwnAt(r, n, t) && r.states[n].threads[t].at.Assigning?
    requires forall k: nat :: i < k < n ==> !RemovedAt(r, k, addr)
    ensures HasBeaten(r, i, n, t)
    ensures var pt, role := r.states[n].threads[t].at.pt, LastRole(r, i, n, t);
            && (pt.target == None || pt.target == Some(addr))
            && (role == Internet <==> pt.task.Tcp? || pt.task.Udp?)
            && (role == Disk <==> pt.task.GetStorage? || pt.task.DiskWrite? || pt.task.DiskRead?)
  {
    JoinsOnce(r, i, n, t, addr);
    TasksFitTheNode(r, i, n, t, addr);
  }

  // ---------- a fresh node that is removed ----------

  const ONE := Env(1, true, Closed, None, [])

  lemma FreshSteps(sh: Shared)
    ensures ActHandler(sh, "a", Greeting, ONE) == (sh, Joining, Silent)
    ensures ActHandler(sh, "a", Joining, ONE) == (Register(sh, "a", 1), AskRole, Silent)
    ensures "a" in sh.nodes ==> ActReaper(sh, 0, Reaping(["a"]), ONE).0 == RemoveNode(sh, "a")
  {
  }

  const FOUND := Reaper(0, Reaping(["a"]))

  lemma FoundAgain() returns (r: Run)
    ensures IsRun(r) && |r.labels| == 2 && Last(r) == State(STALE, map[9 := FOUND])
    ensures forall k: nat :: k < 2 && r.labels[k].Move? ==> r.labels[k].env.now == 1
  {
    assert StaleNodes(STALE, 1, 0) == {"a"};
    hide IsRun;
    r := Begin(STALE);
    r := Extend(r, Spawn(9, Reaper(0, Resting)));
    r := Extend(r, Move(9, ONE.(order := ["a"])));
  }

  /** "a" joins again while the reaper, which has found it dead, has not come to it yet. */
  lemma JoinedAgain() returns (r: Run)
    ensures IsRun(r) && |r.labels| == 5 && JoinsAt(r, 4, 0, "a")
    ensures Last(r) == State(Register(STALE, "a", 1), map[9 := FOUND, 0 := Handler("a", AskRole)])
    ensures forall k: nat :: k < 5 && r.labels[k].Move? ==> r.labels[k].env.now == 1
  {
    FreshSteps(STALE);
    r := FoundAgain();
    hide IsRun, ActHandler, Register;
    r := Extend(r, Spawn(0, Handler("a", Greeting)));
    assert Last(r) == State(STALE, map[9 := FOUND, 0 := Handler("a", Greeting)]);
    r := Extend(r, Move(0, ONE));
    assert Last(r) == State(STALE, map[9 := FOUND, 0 := Handler("a", Joining)]);
    r := Extend(r, Move(0, ONE));
  }

  /** `NeverReaped` needs its condition on the reaper's list: a connection that has just joined, in a
      run whose clock does not go back, is removed in the pass that found its predecessor dead. */
  lemma FreshButRemoved() returns (r: Run)
    ensures IsRun(r) && ClockNeverGoesBack(r) && |r.labels| == 6
    ensures JoinsAt(r, 4, 0, "a") && ServingAt(r, 6, 0, "a") && KeepsUp(r, 4, 6, 0)
    ensures "a" !in r.states[6].sh.nodes
  {
    r := JoinedAgain();
    ghost var was := r;
    FreshSteps(Last(r).sh);
    hide IsRun, ActHandler, ActReaper, Register;
    r := Extend(r, Move(9, ONE));
    assert r.states[4] == was.states[4] && r.states[5] == Last(was);
  }
}
