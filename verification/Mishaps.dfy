/** Concrete runs in which a task is lost, or gets two owners: the conditions of
    `TaskLedger.CleanExitLosesExactly` and `Settling.OneOwnerThroughFailures` are really met. */
module Mishaps {
  import opened Protocol
  import opened Regions
  import opened Machine
  import opened TaskLedger
  import opened Owners
  import opened Witnesses

  const TASK := Compute("1 + 1")
  const QUEUED := PendingTask(TASK, None)
  const SHELL := Shell("t", QUEUED, false)
  const DONE := Shell("t", QUEUED, true)

  /** Every run here begins by queueing task "t" from the shell. */
  ghost function Opening(): (r: Run)
    ensures IsRun(r)
  {
    var one := Extend(Begin(EMPTY), Spawn(5, SHELL));
    assert Last(one) == State(EMPTY, map[5 := SHELL]);
    Extend(one, Move(5, CALM))
  }

  const OPENED := EMPTY.(pending := map["t" := QUEUED])

  lemma OpeningIs()
    ensures var r := Opening();
            && r.labels == [Spawn(5, SHELL), Move(5, CALM)]
            && r.states == [State(EMPTY, map[]), State(EMPTY, map[5 := SHELL]), State(OPENED, map[5 := DONE])]
  {
    assert Apply(State(EMPTY, map[5 := SHELL]), Move(5, CALM)) == State(OPENED, map[5 := DONE]);
  }

  lemma OpeningIsPlain()
    ensures ImportsNoTasks(Opening()) && NoFailedAssignment(Opening())
  {
    OpeningIs();
  }

  lemma AssignmentSteps(sh: Shared, addr: Addr)
    ensures addr in sh.nodes ==>
              ActHandler(sh, addr, Recording(Worker, "t", QUEUED), CALM) ==
              (RecordActive(sh, addr, "t", TASK), Assigning(Worker, "t", QUEUED, true), Silent)
    ensures ActHandler(sh, addr, Assigning(Worker, "t", QUEUED, true), CALM) ==
              (sh, WantPending(Worker), Sent(AssignTask("t", TASK)))
    ensures ActHandler(sh, addr, Assigning(Worker, "t", QUEUED, true), REFUSED) == (sh, Requeuing("t", QUEUED), Silent)
    ensures ActHandler(sh, addr, Requeuing("t", QUEUED), CALM) == (Enqueue(sh, "t", QUEUED), Unrecording("t"), Silent)
  {
  }

  lemma LeavingSteps(sh: Shared, addr: Addr)
    ensures ActHandler(sh, addr, Reading, Quiet(Msg(Disconnect))) == (sh, Releasing, Silent)
    ensures PortOf(sh, addr) == None ==> ActHandler(sh, addr, Releasing, CALM) == (ClearPort(sh, addr), Leaving, Silent)
    ensures ActHandler(sh, addr, Leaving, CALM) == (RemoveNode(sh, addr), Closing, Silent)
  {
  }

  const REFUSED := Env(0, false, Closed, None, [])

  /** A new connection sends a heartbeat and is a worker from then on. */
  lemma StartsWork(r: Run, base: Run, smooth: bool, t: Tid, addr: Addr) returns (e: Run)
    requires Story(r, base, smooth) && CanConnect(Last(r), t, addr)
    ensures Story(e, base, smooth)
    ensures Last(e) == At(Last(r), Beat(Register(Last(r).sh, addr, 0), addr, 0), t, Handler(addr, AskRole))
  {
    var s, sh := Last(r), Register(Last(r).sh, addr, 0);
    HeartbeatSteps(sh, addr);
    HeartbeatSteps(Beat(sh, addr, 0), addr);
    hide Story, At, ActHandler, Register, Beat;
    e := Connects(r, base, smooth, t, addr);
    hide Unlocked;
    e := Serve(s, e, base, smooth, t, addr, sh, Reading, Quiet(Msg(Heartbeat)));
    e := Serve(s, e, base, smooth, t, addr, sh, Beating, CALM);
    e := Serve(s, e, base, smooth, t, addr, Beat(sh, addr, 0), Replying(HeartbeatAck), CALM);
  }

  /** Its dispatcher takes task "t" out of the queue. */
  lemma Picks(r: Run, base: Run, smooth: bool, t: Tid, addr: Addr) returns (e: Run)
    requires Story(r, base, smooth) && t in Last(r).threads && Unlocked(Last(r), t)
    requires Last(r).threads[t] == Handler(addr, AskRole) && WorkerRole(Last(r).sh, addr) == Some(Worker)
    requires Eligible(Last(r).sh, addr, Worker, "t") && Last(r).sh.pending["t"] == QUEUED
    ensures Story(e, base, smooth)
    ensures Last(e) == At(Last(r), RemovePending(Last(r).sh, "t"), t, Handler(addr, Recording(Worker, "t", QUEUED)))
  {
    var s := Last(r);
    hide Story, At, Unlocked, ActHandler;
    AsItIs(s, t);
    SearchSteps(s.sh, addr, "t");
    e := Serve(s, r, base, smooth, t, addr, s.sh, AskRole, CALM);
    e := Serve(s, e, base, smooth, t, addr, s.sh, WantPending(Worker), CALM);
    e := Serve(s, e, base, smooth, t, addr, s.sh, WantNodes(Worker), Env(0, true, Closed, Some("t"), []));
  }

  lemma Records(r: Run, base: Run, smooth: bool, t: Tid, addr: Addr) returns (e: Run)
    requires Story(r, base, smooth) && t in Last(r).threads && Unlocked(Last(r), t)
    requires Last(r).threads[t] == Handler(addr, Recording(Worker, "t", QUEUED)) && addr in Last(r).sh.nodes
    ensures Story(e, base, smooth)
    ensures Last(e) == At(Last(r), RecordActive(Last(r).sh, addr, "t", TASK), t,
                          Handler(addr, Assigning(Worker, "t", QUEUED, true)))
  {
    var s := Last(r);
    hide Story, At, Unlocked, ActHandler;
    AsItIs(s, t);
    AssignmentSteps(s.sh, addr);
    e := Serve(s, r, base, smooth, t, addr, s.sh, Recording(Worker, "t", QUEUED), CALM);
  }

  // ---------- a clean exit loses a task ----------

  const IDLE := EMPTY.(nodes := map["a" := WORKER])
  const BUSY := EMPTY.(nodes := map["a" := WORKER.(activeTasks := map["t" := TASK])])

  lemma AIsWorking() returns (r: Run)
    ensures Story(r, Opening(), true) && Last(r).sh == IDLE.(pending := map["t" := QUEUED]) && Last(r).threads.Keys == {0, 5}
    ensures Last(r).threads[5] == DONE && Last(r).threads[0] == Handler("a", AskRole)
  {
    r := Opening();
    OpeningIs();
    assert Story(r, Opening(), true);
    hide Story, Opening;
    r := StartsWork(r, Opening(), true, 0, "a");
  }

  /** Worker "a" is about to be told about the task. */
  lemma Assigned() returns (r: Run)
    ensures Story(r, Opening(), true) && Last(r).sh == BUSY && Last(r).threads.Keys == {0, 5}
    ensures Last(r).threads[5] == DONE
    ensures Last(r).threads[0] == Handler("a", Assigning(Worker, "t", QUEUED, true))
  {
    r := AIsWorking();
    var sh := Last(r).sh;
    hide Story, Opening;
    r := Picks(r, Opening(), true, 0, "a");
    assert RemovePending(sh, "t") == IDLE;
    r := Records(r, Opening(), true, 0, "a");
    assert RecordActive(IDLE, "a", "t", TASK) == BUSY;
  }

  /** A worker is told about the task; there is no other for it. */
  lemma IsTold(r: Run, base: Run, t: Tid, addr: Addr) returns (e: Run)
    requires Story(r, base, true) && t in Last(r).threads && Unlocked(Last(r), t)
    requires Last(r).threads[t] == Handler(addr, Assigning(Worker, "t", QUEUED, true)) && Last(r).sh.pending == map[]
    ensures Story(e, base, true) && Last(e) == At(Last(r), Last(r).sh, t, Handler(addr, Reading))
  {
    var s, sh := Last(r), Last(r).sh;
    hide Story, At, Unlocked, ActHandler;
    AsItIs(s, t);
    AssignmentSteps(sh, addr);
    SearchSteps(sh, addr, "t");
    e := Serve(s, r, base, true, t, addr, sh, Assigning(Worker, "t", QUEUED, true), CALM);
    e := Serve(s, e, base, true, t, addr, sh, WantPending(Worker), CALM);
    e := Serve(s, e, base, true, t, addr, sh, WantNodes(Worker), CALM);
  }

  lemma Disconnects(r: Run, base: Run, t: Tid, addr: Addr) returns (e: Run)
    requires Story(r, base, true) && t in Last(r).threads && Unlocked(Last(r), t)
    requires Last(r).threads[t] == Handler(addr, Reading) && PortOf(Last(r).sh, addr) == None
    ensures Story(e, base, true) && Last(e) == At(Last(r), ClearPort(Last(r).sh, addr), t, Handler(addr, Leaving))
  {
    var s, sh := Last(r), Last(r).sh;
    hide Story, At, Unlocked, ActHandler, ClearPort, PortOf;
    AsItIs(s, t);
    LeavingSteps(sh, addr);
    e := Serve(s, r, base, true, t, addr, sh, Reading, Quiet(Msg(Disconnect)));
    e := Serve(s, e, base, true, t, addr, sh, Releasing, CALM);
  }

  lemma AboutToLeave() returns (r: Run)
    ensures Story(r, Opening(), true) && Last(r).sh == BUSY && Last(r).threads.Keys == {0, 5}
    ensures Last(r).threads[5] == DONE && Last(r).threads[0] == Handler("a", Leaving)
  {
    r := Assigned();
    r := IsTold(r, Opening(), 0, "a");
    r := Disconnects(r, Opening(), 0, "a");
    assert ClearPort(BUSY, "a") == BUSY;
  }

  lemma {:induction false} HandedIn(r: Run, smooth: bool, n: nat)
    requires Story(r, Opening(), smooth) && 2 <= n <= |r.labels|
    ensures "t" in AcceptedIn(r, n)
    ensures forall id :: SubmissionsIn(r, n, id) <= Bit(id == "t")
  {
    OpeningIs();
    if n > 2 {
      HandedIn(r, smooth, n - 1);
      assert Plain(r.states[n - 1], r.labels[n - 1]);
    } else {
      assert r.states[1] == Opening().states[1] && r.labels[1] == Opening().labels[1] && r.labels[0] == Opening().labels[0];
      assert Acting(r.states[1], r.labels[1]) == Some(SHELL);
      assert AcceptedIn(r, 2) == AcceptedIn(r, 1) + {"t"};
      forall id ensures SubmissionsIn(r, 2, id) <= Bit(id == "t") {
        assert SubmissionsIn(r, 1, id) == 0;
      }
    }
  }

  lemma KindStays(sh: Shared, th: Thread, env: Env)
    ensures Act(sh, th, env).th.Reaper? == th.Reaper?
  {
  }

  /** Threads neither vanish nor change their kind. */
  lemma {:induction false} NoReaperBefore(r: Run, i: nat, n: nat)
    requires IsRun(r) && i <= n <= |r.labels|
    requires forall t :: t in r.states[n].threads ==> !r.states[n].threads[t].Reaper?
    ensures forall t :: t in r.states[i].threads ==> !r.states[i].threads[t].Reaper?
    decreases n - i
  {
    if i < n {
      assert StepAt(r, n - 1);
      var s, l := r.states[n - 1], r.labels[n - 1];
      forall t | t in s.threads ensures !s.threads[t].Reaper? {
        if l.Move? && l.t == t {
          KindStays(s.sh, s.threads[t], l.env);
        }
        hide Act;
        assert !r.states[n].threads[t].Reaper?;
      }
      NoReaperBefore(r, i, n - 1);
    }
  }

  /** The last step is the one in which the handler of `addr` removes its entry on `Disconnect`. */
  ghost predicate EndsWithDisconnectOf(r: Run, addr: Addr)
    requires IsRun(r)
  {
    && |r.labels| > 0 && r.labels[|r.labels| - 1].Move?
    && var s, t := r.states[|r.labels| - 1], r.labels[|r.labels| - 1].t;
    t in s.threads && s.threads[t] == Handler(addr, Leaving)
  }

  ghost predicate NoReaper(r: Run) {
    forall i, t :: 0 <= i < |r.states| && t in r.states[i].threads ==> !r.states[i].threads[t].Reaper?
  }

  /** A task is handed in, assigned and written to worker "a" - every write succeeds, nothing is
      merged, there is no reaper - and after the worker's `Disconnect` the master has no trace of it. */
  lemma TaskIsLost() returns (r: Run)
    ensures IsRun(r) && r.states[0].sh == EMPTY && NoFailedAssignment(r) && ImportsNoTasks(r) && NoReaper(r)
    ensures EndsWithDisconnectOf(r, "a") && "t" in ActiveAt(r.states[|r.labels| - 1].sh, "a")
    ensures "t" in AcceptedIn(r, |r.labels|) && !Traced(Last(r), "t") && !Accounted(Last(r), "t")
  {
    r := AboutToLeave();
    var s := Last(r);
    r := Leaves(r);
    OpeningIs();
    OpeningIsPlain();
    assert r.states[0] == Opening().states[0];
    HandedIn(r, true, |r.labels|);
    StoryImportsNothing(r, Opening(), true);
    StorySmooth(r, Opening());
    hide Story, Opening, Accounted, Traced, AcceptedIn;
    forall i, t | 0 <= i < |r.states| && t in r.states[i].threads ensures !r.states[i].threads[t].Reaper? {
      NoReaperBefore(r, i, |r.labels|);
    }
    if Accounted(Last(r), "t") {
      AccountedMeansTraced(Last(r), "t");
    }
  }

  lemma StorySmooth(r: Run, base: Run)
    requires Story(r, base, true) && NoFailedAssignment(base)
    ensures NoFailedAssignment(r)
  {
    forall i: nat | i < |r.labels| ensures !FailsAssignment(r.states[i], r.labels[i]) {
      if i < |base.labels| {
        assert !FailsAssignment(base.states[i], base.labels[i]);
      }
    }
  }

  /** The leaver's entry is removed, and with it the only trace of the task. */
  lemma IsRemoved(r: Run, base: Run, t: Tid, addr: Addr, id: Id) returns (e: Run)
    requires Story(r, base, true) && t in Last(r).threads && Last(r).threads[t] == Handler(addr, Leaving)
    requires Unlocked(Last(r), t) && OnlyWithLeaver(Last(r), addr, id)
    ensures Story(e, base, true) && EndsWithDisconnectOf(e, addr)
    ensures id in ActiveAt(e.states[|e.labels| - 1].sh, addr) && !Traced(Last(e), id)
    ensures Last(e).threads == Last(r).threads[t := Handler(addr, Closing)]
  {
    var s := Last(r);
    LeavingSteps(s.sh, addr);
    AsItIs(s, t);
    TracedWhenActive(s, addr, id);
    Unblocked(s, t);
    hide Story, IsRun, OnlyWithLeaver, Unlocked, Mentions, Traced, ActHandler;
    e := Serve(s, r, base, true, t, addr, s.sh, Leaving, CALM);
    assert Last(e) == Apply(s, Move(t, CALM));
    ExitLosesExactly(s, Move(t, CALM), id);
    StoryRuns(e, base, true);
  }

  lemma TracedWhenActive(s: State, a: Addr, id: Id)
    requires id in ActiveAt(s.sh, a)
    ensures Traced(s, id)
  {
    assert IsActive(s.sh, id);
  }

  lemma OnlyAHasIt(s: State)
    requires s.sh == BUSY && s.threads.Keys == {0, 5} && s.threads[5] == DONE && s.threads[0] == Handler("a", Leaving)
    ensures OnlyWithLeaver(s, "a", "t") && Unlocked(s, 0)
  {
  }

  /** The worker's entry is removed, and the task with it. */
  lemma Leaves(r: Run) returns (e: Run)
    requires Story(r, Opening(), true) && Last(r).sh == BUSY && Last(r).threads.Keys == {0, 5}
    requires Last(r).threads[5] == DONE && Last(r).threads[0] == Handler("a", Leaving)
    ensures Story(e, Opening(), true) && EndsWithDisconnectOf(e, "a")
    ensures "t" in ActiveAt(e.states[|e.labels| - 1].sh, "a") && !Traced(Last(e), "t")
    ensures forall t :: t in Last(e).threads ==> !Last(e).threads[t].Reaper?
  {
    OnlyAHasIt(Last(r));
    hide Story, Opening, OnlyWithLeaver, Unlocked, Traced, EndsWithDisconnectOf;
    e := IsRemoved(r, Opening(), 0, "a", "t");
  }

  // ---------- two owners ----------

  const BACK := EMPTY.(pending := map["t" := QUEUED])

  lemma SalvageSteps()
    ensures StaleNodes(BUSY, 1, 0) == {"a"}
    ensures RemoveNode(BUSY, "a") == EMPTY && BUSY.nodes["a"].activeTasks == map["t" := TASK]
    ensures RequeueAll(EMPTY, map["t" := TASK]) == BACK
    ensures ["a"][1..] == []
  {
    assert map["t" := PendingTask(TASK, None)] == Untargeted(map["t" := TASK]);
  }

  lemma ReaperStarts() returns (r: Run)
    ensures Story(r, Opening(), false) && Last(r).sh == BUSY && Last(r).threads.Keys == {0, 5, 9}
    ensures Last(r).threads[5] == DONE && Last(r).threads[9] == Reaper(0, Reaping(["a"]))
    ensures Last(r).threads[0] == Handler("a", Assigning(Worker, "t", QUEUED, true))
  {
    r := Assigned();
    var s := Last(r);
    r := Next(r, Opening(), false, Spawn(9, Reaper(0, Resting)));
    assert Last(r) == At(s, BUSY, 9, Reaper(0, Resting));
    SalvageSteps();
    hide Story, Opening;
    r := Reap(r, Opening(), false, Env(1, true, Closed, None, ["a"]));
  }

  /** The reaper takes the silent worker "a" away while the assignment is being written to it. */
  lemma ReapedInTheMiddle() returns (r: Run)
    ensures Story(r, Opening(), false) && Last(r).sh == BACK && Last(r).threads.Keys == {0, 5, 9}
    ensures Last(r).threads[5] == DONE && Last(r).threads[9] == Reaper(0, Taking("a", []))
    ensures Last(r).threads[0] == Handler("a", Assigning(Worker, "t", QUEUED, true))
  {
    r := ReaperStarts();
    SalvageSteps();
    hide Story, Opening;
    r := Reap(r, Opening(), false, CALM);
    assert Last(r).threads[9] == Reaper(0, Salvaging("a", map["t" := TASK], [])) && Last(r).sh == EMPTY;
    r := Reap(r, Opening(), false, CALM);
  }

  const WITH_B := EMPTY.(nodes := map["b" := WORKER.(addr := "b")])
  const WITH_BC := EMPTY.(nodes := map["b" := WORKER.(addr := "b"), "c" := WORKER.(addr := "c")])

  lemma BIsWorking() returns (r: Run)
    ensures Story(r, Opening(), false) && Last(r).sh == WITH_B.(pending := map["t" := QUEUED])
    ensures Last(r).threads.Keys == {0, 1, 5, 9}
    ensures Last(r).threads[5] == DONE && Last(r).threads[9] == Reaper(0, Taking("a", []))
    ensures Last(r).threads[0] == Handler("a", Assigning(Worker, "t", QUEUED, true))
    ensures Last(r).threads[1] == Handler("b", AskRole)
  {
    r := ReapedInTheMiddle();
    hide Story, Opening;
    r := StartsWork(r, Opening(), false, 1, "b");
  }

  /** Worker "b" has taken the task the reaper put back. */
  lemma TakenByB() returns (r: Run)
    ensures Story(r, Opening(), false) && Last(r).sh == WITH_B && Last(r).threads.Keys == {0, 1, 5, 9}
    ensures Last(r).threads[5] == DONE && Last(r).threads[9] == Reaper(0, Taking("a", []))
    ensures Last(r).threads[0] == Handler("a", Assigning(Worker, "t", QUEUED, true))
    ensures Last(r).threads[1] == Handler("b", Recording(Worker, "t", QUEUED))
  {
    r := BIsWorking();
    hide Story, Opening;
    r := Picks(r, Opening(), false, 1, "b");
    assert WITH_B.(pending := map["t" := QUEUED]).pending - {"t"} == map[];
  }

  /** An assignment cannot be written, and its handler puts the task back. */
  lemma IsRefused(r: Run, base: Run, t: Tid, addr: Addr) returns (e: Run)
    requires Story(r, base, false) && t in Last(r).threads && Unlocked(Last(r), t)
    requires Last(r).threads[t] == Handler(addr, Assigning(Worker, "t", QUEUED, true))
    ensures Story(e, base, false) && Last(e) == At(Last(r), Enqueue(Last(r).sh, "t", QUEUED), t, Handler(addr, Unrecording("t")))
  {
    var s, sh := Last(r), Last(r).sh;
    hide Story, At, Unlocked, ActHandler, Enqueue;
    AsItIs(s, t);
    AssignmentSteps(sh, addr);
    e := Serve(s, r, base, false, t, addr, sh, Assigning(Worker, "t", QUEUED, true), REFUSED);
    e := Serve(s, e, base, false, t, addr, sh, Requeuing("t", QUEUED), CALM);
  }

  /** The write to "a" fails now: its handler puts the task back once more. */
  lemma PutBackAgain() returns (r: Run)
    ensures Story(r, Opening(), false) && Last(r).sh == WITH_B.(pending := map["t" := QUEUED]) && Last(r).threads.Keys == {0, 1, 5, 9}
    ensures Last(r).threads[5] == DONE && Last(r).threads[9] == Reaper(0, Taking("a", []))
    ensures Last(r).threads[0] == Handler("a", Unrecording("t"))
    ensures Last(r).threads[1] == Handler("b", Recording(Worker, "t", QUEUED))
  {
    r := TakenByB();
    hide Story, Opening;
    r := IsRefused(r, Opening(), 0, "a");
  }

  lemma CIsWorking() returns (r: Run)
    ensures Story(r, Opening(), false) && Last(r).sh == WITH_BC.(pending := map["t" := QUEUED]) && Last(r).threads.Keys == {0, 1, 2, 5, 9}
    ensures Last(r).threads[5] == DONE && Last(r).threads[9] == Reaper(0, Taking("a", []))
    ensures Last(r).threads[0] == Handler("a", Unrecording("t"))
    ensures Last(r).threads[1] == Handler("b", Recording(Worker, "t", QUEUED)) && Last(r).threads[2] == Handler("c", AskRole)
  {
    r := PutBackAgain();
    hide Story, Opening;
    r := StartsWork(r, Opening(), false, 2, "c");
  }

  /** Worker "c" takes that copy. */
  lemma TakenByC() returns (r: Run)
    ensures Story(r, Opening(), false) && Last(r).sh == WITH_BC && Last(r).threads.Keys == {0, 1, 2, 5, 9}
    ensures Last(r).threads[5] == DONE && Last(r).threads[9] == Reaper(0, Taking("a", []))
    ensures Last(r).threads[0] == Handler("a", Unrecording("t"))
    ensures Last(r).threads[1] == Handler("b", Recording(Worker, "t", QUEUED))
    ensures Last(r).threads[2] == Handler("c", Recording(Worker, "t", QUEUED))
  {
    r := CIsWorking();
    hide Story, Opening;
    r := Picks(r, Opening(), false, 2, "c");
    assert WITH_BC.(pending := map["t" := QUEUED]).pending - {"t"} == map[];
  }

  lemma BothRecorded() returns (r: Run)
    ensures Story(r, Opening(), false)
    ensures "t" in ActiveAt(Last(r).sh, "b") && "t" in ActiveAt(Last(r).sh, "c")
  {
    r := TakenByC();
    hide Story, Opening;
    r := Records(r, Opening(), false, 1, "b");
    r := Records(r, Opening(), false, 2, "c");
  }

  /** A task handed in once ends up active on two nodes, because the reaper got hold of it before its
      assignment failed. */
  lemma TwoOwners() returns (r: Run)
    ensures IsRun(r) && r.states[0].sh == EMPTY && ImportsNoTasks(r) && DistinctIds(r)
    ensures "t" in ActiveAt(Last(r).sh, "b") && "t" in ActiveAt(Last(r).sh, "c") && !OneActive(Last(r).sh)
  {
    r := BothRecorded();
    OpeningIs();
    OpeningIsPlain();
    assert r.states[0] == Opening().states[0];
    HandedIn(r, false, |r.labels|);
    StoryImportsNothing(r, Opening(), false);
    hide Story, Opening, ImportsNoTasks;
    forall id ensures OwnersIn(r.states[0].sh, id) == 0 {
      assert Owning(EMPTY.nodes, id) == {};
    }
  }
}
