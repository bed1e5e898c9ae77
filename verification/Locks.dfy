/** Lock order, deadlock and consistent snapshots. The dispatcher locks the queue before the
    node table; everything else nests nodes, ports, pending, completed in that order. */
module Locks {
  import opened Protocol
  import opened Regions
  import opened Machine

  // ---------- mutual exclusion ----------

  ghost predicate Exclusive(s: State) {
    forall t, u :: t in s.threads && u in s.threads && t != u ==> Holds(s.threads[t]) !! Holds(s.threads[u])
  }

  /** A step keeps what it held, plus the lock it waited for, or lets all of them go. */
  lemma ActTakesOneLock(sh: Shared, th: Thread, env: Env)
    ensures Holds(Act(sh, th, env).th) <= Holds(th) + (if Needs(th).Some? then {Needs(th).value} else {})
  {
  }

  lemma StepKeepsExclusive(s: State, l: Label)
    requires Enabled(s, l) && Exclusive(s)
    ensures Exclusive(Apply(s, l))
  {
    if l.Move? {
      ActTakesOneLock(s.sh, s.threads[l.t], l.env);
    }
  }

  lemma {:induction false} RunIsExclusive(r: Run, n: nat)
    requires IsRun(r) && n <= |r.labels|
    ensures Exclusive(r.states[n])
  {
    if n > 0 {
      RunIsExclusive(r, n - 1);
      assert StepAt(r, n - 1);
      StepKeepsExclusive(r.states[n - 1], r.labels[n - 1]);
    }
  }

  // ---------- progress ----------

  function Rank(l: Lock): nat {
    match l case Nodes => 0 case Ports => 1 case Pending => 2 case Completed => 3
  }

  /** The dispatcher in the middle of its search: it holds `pending_tasks` and waits for
      `connected_nodes`. */
  predicate MidScan(th: Thread) {
    th.Handler? && th.at.WantNodes?
  }

  /** Everyone else asks only for locks later in the order than all they hold. */
  lemma OthersFollowTheOrder(th: Thread, l: Lock)
    requires !MidScan(th) && l in Holds(th)
    ensures Needs(th).Some? && Rank(l) < Rank(Needs(th).value)
  {
  }

  ghost predicate WaitsFor(s: State, t: Tid, u: Tid) {
    && t in s.threads && u in s.threads
    && Needs(s.threads[t]).Some? && Needs(s.threads[t]).value in Holds(s.threads[u])
  }

  function After(i: nat, n: nat): nat {
    if i + 1 == n then 0 else i + 1
  }

  /** A cycle of threads each waiting for a lock the next one holds. */
  ghost predicate WaitCycle(s: State, c: seq<Tid>) {
    && |c| > 0
    && (forall i :: 0 <= i < |c| ==> c[i] in s.threads && Needs(s.threads[c[i]]).Some?)
    && (forall i, j :: 0 <= i < |c| && 0 <= j < |c| && j == After(i, |c|) ==> WaitsFor(s, c[i], c[j]))
  }

  lemma {:induction false} RanksClimb(s: State, c: seq<Tid>, i: nat)
    requires WaitCycle(s, c) && i < |c|
    requires forall j :: 0 <= j < |c| ==> !MidScan(s.threads[c[j]])
    ensures Rank(Needs(s.threads[c[0]]).value) + i <= Rank(Needs(s.threads[c[i]]).value)
  {
    if i > 0 {
      RanksClimb(s, c, i - 1);
      hide Needs, Holds;
      assert After(i - 1, |c|) == i && WaitsFor(s, c[i - 1], c[i]);
      OthersFollowTheOrder(s.threads[c[i]], Needs(s.threads[c[i - 1]]).value);
    }
  }

  /** Every wait cycle goes through a dispatcher in mid-scan. */
  lemma EveryCycleHasAScan(s: State, c: seq<Tid>)
    requires WaitCycle(s, c)
    ensures exists j :: 0 <= j < |c| && MidScan(s.threads[c[j]])
  {
    if forall j :: 0 <= j < |c| ==> !MidScan(s.threads[c[j]]) {
      var last := |c| - 1;
      RanksClimb(s, c, last);
      assert After(last, |c|) == 0 && WaitsFor(s, c[last], c[0]);
      OthersFollowTheOrder(s.threads[c[0]], Needs(s.threads[c[last]]).value);
      assert false;
    }
  }

  /** Somebody holds a lock and nobody who holds one can take a step. */
  ghost predicate Stuck(s: State) {
    && (exists t :: t in s.threads && Holds(s.threads[t]) != {})
    && (forall t :: t in s.threads && Holds(s.threads[t]) != {} ==> Blocked(s, t))
  }

  /** Holds `connected_nodes` and waits for `pending_tasks`: a snapshot after its second
      lock, or a peer sync after its first. */
  predicate MidSnapshot(th: Thread) {
    (th.Saver? && th.save.SavePorts?) || (th.Peer? && th.sync.CollectNodes?)
  }

  ghost predicate Embraced(s: State, t: Tid, u: Tid) {
    t in s.threads && u in s.threads && MidScan(s.threads[t]) && MidSnapshot(s.threads[u])
  }

  /** Only these two kinds of lock holder can ever be kept waiting. */
  lemma WhoCanWait(s: State, t: Tid)
    requires Exclusive(s) && t in s.threads && Holds(s.threads[t]) != {} && Blocked(s, t)
    ensures MidScan(s.threads[t]) || MidSnapshot(s.threads[t])
  {
    var u :| u in s.threads && Needs(s.threads[t]).value in Holds(s.threads[u]);
  }

  lemma WhatTheyHold(th: Thread)
    ensures MidScan(th) ==> Holds(th) == {Pending} && Needs(th) == Some(Nodes)
    ensures MidSnapshot(th) ==> Nodes in Holds(th) && Pending !in Holds(th) && Needs(th) == Some(Pending)
  {
  }

  lemma StuckMeansEmbrace(s: State)
    requires Exclusive(s) && Stuck(s)
    ensures exists t, u :: Embraced(s, t, u)
  {
    hide Holds, Needs, MidScan, MidSnapshot;
    var t :| t in s.threads && Holds(s.threads[t]) != {};
    WhoCanWait(s, t);
    WhatTheyHold(s.threads[t]);
    var u :| u in s.threads && Needs(s.threads[t]).value in Holds(s.threads[u]);
    WhoCanWait(s, u);
    WhatTheyHold(s.threads[u]);
    assert Embraced(s, t, u) || Embraced(s, u, t);
  }

  lemma EmbraceMeansStuck(s: State, t: Tid, u: Tid)
    requires Exclusive(s) && Embraced(s, t, u)
    ensures Stuck(s)
  {
    assert Holds(s.threads[t]) == {Pending} && Nodes in Holds(s.threads[u]);
    forall v | v in s.threads && Holds(s.threads[v]) != {} ensures Blocked(s, v) {
      if v != t && v != u {
        assert Holds(s.threads[v]) !! Holds(s.threads[t]) && Holds(s.threads[v]) !! Holds(s.threads[u]);
      }
    }
  }

  /** In every reachable state the lock holders are deadlocked exactly when a dispatcher in
      mid-scan meets a snapshot or peer sync that has the node table and wants the queue. */
  lemma DeadlockExactly(r: Run, n: nat)
    requires IsRun(r) && n <= |r.labels|
    ensures Stuck(r.states[n]) <==> exists t, u :: Embraced(r.states[n], t, u)
  {
    RunIsExclusive(r, n);
    if Stuck(r.states[n]) {
      StuckMeansEmbrace(r.states[n]);
    }
    if t, u :| Embraced(r.states[n], t, u) {
      EmbraceMeansStuck(r.states[n], t, u);
    }
  }

  // ---------- what a lock protects ----------

  /** The locks a thread has while it takes its next step. */
  function Mine(th: Thread): set<Lock> {
    Holds(th) + (if Needs(th).Some? then {Needs(th).value} else {})
  }

  ghost predicate ChangesOnly(sh: Shared, sh': Shared, locks: set<Lock>) {
    && (sh'.nodes != sh.nodes ==> Nodes in locks)
    && (sh'.ports != sh.ports ==> Ports in locks)
    && (sh'.pending != sh.pending ==> Pending in locks)
    && (sh'.completed != sh.completed ==> Completed in locks)
  }

  lemma DispatchRespectsLocks(sh: Shared, addr: Addr, at: HandlerPc, env: Env)
    requires Dispatching(at)
    ensures ChangesOnly(sh, ActDispatch(sh, addr, at, env).0, Mine(Handler(addr, at)))
  {
  }

  lemma MemberRespectsLocks(sh: Shared, addr: Addr, at: HandlerPc, env: Env)
    requires Belonging(at)
    ensures ChangesOnly(sh, ActMember(sh, addr, at, env).0, Mine(Handler(addr, at)))
  {
  }

  lemma PortRespectsLocks(sh: Shared, addr: Addr, at: HandlerPc)
    requires Porting(at)
    ensures ChangesOnly(sh, ActPort(sh, addr, at).0, Mine(Handler(addr, at)))
  {
  }

  lemma RequestRespectsLocks(sh: Shared, addr: Addr, at: HandlerPc, env: Env)
    requires !Dispatching(at) && !Belonging(at) && !Porting(at)
    ensures ChangesOnly(sh, ActRequest(sh, addr, at, env).0, Mine(Handler(addr, at)))
  {
  }

  lemma HandlerRespectsLocks(sh: Shared, addr: Addr, at: HandlerPc, env: Env)
    ensures ChangesOnly(sh, ActHandler(sh, addr, at, env).0, Mine(Handler(addr, at)))
  {
    hide ChangesOnly, Mine, ActDispatch, ActMember, ActPort, ActRequest;
    if Dispatching(at) {
      DispatchRespectsLocks(sh, addr, at, env);
    } else if Belonging(at) {
      MemberRespectsLocks(sh, addr, at, env);
    } else if Porting(at) {
      PortRespectsLocks(sh, addr, at);
    } else {
      RequestRespectsLocks(sh, addr, at, env);
    }
  }

  /** A collection changes only in a step that holds or takes its lock. */
  lemma ActRespectsLocks(sh: Shared, th: Thread, env: Env)
    ensures ChangesOnly(sh, Act(sh, th, env).sh, Mine(th))
  {
    match th
    case Handler(addr, at) =>
      hide ChangesOnly, Mine, ActHandler;
      HandlerRespectsLocks(sh, addr, at, env);
    case _ =>
  }

  /** While another thread holds a lock, a step leaves the collection it protects alone. */
  lemma OthersLeaveItAlone(s: State, l: Label, u: Tid)
    requires Enabled(s, l) && Exclusive(s) && u in s.threads && (l.Move? ==> l.t != u)
    ensures var sh' := Apply(s, l).sh;
            && (Nodes in Holds(s.threads[u]) ==> sh'.nodes == s.sh.nodes)
            && (Ports in Holds(s.threads[u]) ==> sh'.ports == s.sh.ports)
            && (Pending in Holds(s.threads[u]) ==> sh'.pending == s.sh.pending)
    ensures u in Apply(s, l).threads && Apply(s, l).threads[u] == s.threads[u]
  {
    if l.Move? {
      hide Act, Needs, Holds;
      ActRespectsLocks(s.sh, s.threads[l.t], l.env);
      assert Mine(s.threads[l.t]) !! Holds(s.threads[u]) by {
        assert !Blocked(s, l.t);
      }
    }
  }

  // ---------- a deadlock lasts ----------

  lemma EmbraceLasts(s: State, l: Label, t: Tid, u: Tid)
    requires Enabled(s, l) && Exclusive(s) && Embraced(s, t, u)
    ensures Embraced(Apply(s, l), t, u)
    ensures Apply(s, l).sh.nodes == s.sh.nodes && Apply(s, l).sh.pending == s.sh.pending
  {
    WhatTheyHold(s.threads[t]);
    WhatTheyHold(s.threads[u]);
    EmbraceMeansStuck(s, t, u);
    assert Blocked(s, t) && Blocked(s, u);
    hide Act, Needs, Holds, MidScan, MidSnapshot;
    OthersLeaveItAlone(s, l, t);
    OthersLeaveItAlone(s, l, u);
  }

  /** Once it happens the master is frozen for good: in no later state of any run has the
      node table or the queue changed again. */
  lemma {:induction false} DeadlockIsForever(r: Run, i: nat, n: nat, t: Tid, u: Tid)
    requires IsRun(r) && i <= n <= |r.labels| && Embraced(r.states[i], t, u)
    ensures Embraced(r.states[n], t, u)
    ensures r.states[n].sh.nodes == r.states[i].sh.nodes && r.states[n].sh.pending == r.states[i].sh.pending
    decreases n - i
  {
    if n > i {
      DeadlockIsForever(r, i, n - 1, t, u);
      RunIsExclusive(r, n - 1);
      assert StepAt(r, n - 1);
      EmbraceLasts(r.states[n - 1], r.labels[n - 1], t, u);
    }
  }

  // ---------- snapshots ----------

  /** What a half-built snapshot has copied is still what the collections contain. */
  ghost predicate CopiesTrue(sh: Shared, th: Thread) {
    match th
    case Saver(SaveNodes(nodes)) => nodes == sh.nodes
    case Saver(SavePorts(nodes, ports)) => nodes == sh.nodes && ports == sh.ports
    case Saver(SavePending(nodes, ports, pending)) => nodes == sh.nodes && ports == sh.ports && pending == sh.pending
    case Peer(_, CollectNodes(nodes)) => nodes == sh.nodes
    case Peer(_, CollectPending(nodes, pending)) => nodes == sh.nodes && pending == sh.pending
    case _ => true
  }

  ghost predicate SnapshotsTrue(s: State) {
    forall t :: t in s.threads ==> CopiesTrue(s.sh, s.threads[t])
  }

  lemma ActKeepsOwnCopies(sh: Shared, th: Thread, env: Env)
    requires CopiesTrue(sh, th)
    ensures var e := Act(sh, th, env);
            && CopiesTrue(e.sh, e.th)
            && (e.out.Saved? ==> e.out.snapshot == sh == e.sh)
            && (e.th.Peer? && e.th.sync.PeerSending? && th.sync != e.th.sync ==>
                  e.th.sync.ps == PeerState(sh.nodes, sh.pending, sh.completed) && e.sh == sh)
  {
  }

  lemma StepKeepsSnapshots(s: State, l: Label)
    requires Enabled(s, l) && Exclusive(s) && SnapshotsTrue(s)
    ensures SnapshotsTrue(Apply(s, l))
  {
    var s' := Apply(s, l);
    forall u | u in s'.threads ensures CopiesTrue(s'.sh, s'.threads[u]) {
      if l.Move? && l.t == u {
        hide CopiesTrue, Act;
        ActKeepsOwnCopies(s.sh, s.threads[u], l.env);
      } else if u in s.threads {
        hide CopiesTrue, Act, Apply;
        OthersKeepCopies(s, l, u);
      }
    }
  }

  lemma OthersKeepCopies(s: State, l: Label, u: Tid)
    requires Enabled(s, l) && Exclusive(s) && u in s.threads && (l.Move? ==> l.t != u) && CopiesTrue(s.sh, s.threads[u])
    ensures u in Apply(s, l).threads && CopiesTrue(Apply(s, l).sh, Apply(s, l).threads[u])
  {
    hide Act, Apply, Enabled, Exclusive;
    OthersLeaveItAlone(s, l, u);
  }

  lemma {:induction false} RunKeepsSnapshots(r: Run, n: nat)
    requires IsRun(r) && n <= |r.labels|
    ensures SnapshotsTrue(r.states[n])
  {
    if n > 0 {
      RunKeepsSnapshots(r, n - 1);
      RunIsExclusive(r, n - 1);
      assert StepAt(r, n - 1);
      StepKeepsSnapshots(r.states[n - 1], r.labels[n - 1]);
    }
  }

  /** What step `n` of the run puts on the state file, the wire or a peer's stream. */
  ghost function OutputAt(r: Run, n: nat): Output
    requires IsRun(r) && n < |r.labels|
  {
    var s, l := r.states[n], r.labels[n];
    if l.Move? && l.t in s.threads then EffectOf(s, l.t, l.env).out else Silent
  }

  /** Every snapshot `save_state` writes is the whole state of the master at the instant its
      last lock was taken, although the four collections are copied one by one while other
      threads run. */
  lemma SnapshotsAreConsistent(r: Run, n: nat)
    requires IsRun(r) && n < |r.labels| && OutputAt(r, n).Saved?
    ensures OutputAt(r, n).snapshot == r.states[n].sh == r.states[n + 1].sh
  {
    RunKeepsSnapshots(r, n);
    assert StepAt(r, n);
    ActKeepsOwnCopies(r.states[n].sh, r.states[n].threads[r.labels[n].t], r.labels[n].env);
  }

  /** So is every state a peer sync sends, although it too is copied piece by piece. */
  lemma PeerStatesAreConsistent(r: Run, n: nat, ps: PeerState)
    requires IsRun(r) && n < |r.labels|
    requires var s, l := r.states[n], r.labels[n];
             && l.Move? && l.t in s.threads && s.threads[l.t].Peer? && !s.threads[l.t].sync.PeerSending?
             && EffectOf(s, l.t, l.env).th.sync == PeerSending(ps)
    ensures ps == PeerState(r.states[n].sh.nodes, r.states[n].sh.pending, r.states[n].sh.completed)
  {
    RunKeepsSnapshots(r, n);
    ActKeepsOwnCopies(r.states[n].sh, r.states[n].threads[r.labels[n].t], r.labels[n].env);
  }
}
