/** Concrete runs of the machine that show a property cannot be had without its condition: how such
    runs are built, the deadlock, and a port two clients are told about. */
module Witnesses {
  import opened Protocol
  import opened Regions
  import opened Machine
  import opened TaskLedger
  import opened Owners
  import opened Locks
  import opened PortLedger
  import opened PortTraffic

  // ---------- building runs ----------

  ghost function Last(r: Run): State
    requires IsRun(r)
  {
    r.states[|r.labels|]
  }

  ghost function Extend(r: Run, l: Label): (e: Run)
    requires IsRun(r) && Enabled(Last(r), l)
    ensures IsRun(e) && Last(e) == Apply(Last(r), l)
    ensures e.labels == r.labels + [l] && e.states == r.states + [Last(e)]
  {
    hide Enabled, Apply;
    var e := Run(r.states + [Apply(Last(r), l)], r.labels + [l]);
    assert forall i: nat :: i < |r.labels| ==> StepAt(r, i) ==> StepAt(e, i);
    assert StepAt(e, |r.labels|);
    e
  }

  ghost function Begin(sh: Shared): (r: Run)
    ensures IsRun(r) && r.labels == [] && r.states == [State(sh, map[])]
  {
    Run([State(sh, map[])], [])
  }

  function Quiet(input: Input): Env {
    Env(0, true, input, None, [])
  }

  const CALM := Quiet(Closed)

  const EMPTY := Shared(map[], [], map[], map[])
  const NODE := NodeInfo("a", 0, None, map[], false, Worker)
  const WORKER := NODE.(isWorker := true)

  function At(s: State, sh: Shared, t: Tid, th: Thread): State {
    State(sh, s.threads[t := th])
  }

  lemma AsItIs(s: State, t: Tid)
    requires t in s.threads
    ensures s == At(s, s.sh, t, s.threads[t])
  {
  }

  /** Nobody but `t` holds a lock. */
  ghost predicate Unlocked(s: State, t: Tid) {
    forall u :: u in s.threads && u != t ==> Holds(s.threads[u]) == {}
  }

  lemma OwnLocksAreNotNeeded(th: Thread)
    ensures Needs(th).Some? ==> Needs(th).value !in Holds(th)
  {
  }

  lemma Unblocked(s: State, t: Tid)
    requires t in s.threads && Unlocked(s, t)
    ensures !Blocked(s, t)
  {
    OwnLocksAreNotNeeded(s.threads[t]);
  }

  ghost predicate CanConnect(s: State, t: Tid, addr: Addr) {
    && t !in s.threads && Unlocked(s, t)
    && forall u :: u in s.threads && IsLive(s.threads[u]) ==> s.threads[u].addr != addr
  }

  // ---------- what single steps of a handler do ----------

  lemma JoiningSteps(sh: Shared, addr: Addr)
    ensures ActHandler(sh, addr, Greeting, CALM) == (sh, Joining, Silent)
    ensures ActHandler(sh, addr, Joining, CALM) == (Register(sh, addr, 0), AskRole, Silent)
    ensures WorkerRole(sh, addr) == None ==> ActHandler(sh, addr, AskRole, CALM) == (sh, Reading, Silent)
  {
  }

  lemma HeartbeatSteps(sh: Shared, addr: Addr)
    ensures ActHandler(sh, addr, Reading, Quiet(Msg(Heartbeat))) == (sh, Beating, Silent)
    ensures ActHandler(sh, addr, Beating, CALM) == (Beat(sh, addr, 0), Replying(HeartbeatAck), Silent)
    ensures ActHandler(sh, addr, Replying(HeartbeatAck), CALM) == (sh, AskRole, Sent(HeartbeatAck))
  {
  }

  lemma SearchSteps(sh: Shared, addr: Addr, id: Id)
    ensures WorkerRole(sh, addr) == Some(Worker) ==>
              ActHandler(sh, addr, AskRole, CALM) == (sh, WantPending(Worker), Silent)
    ensures ActHandler(sh, addr, WantPending(Worker), CALM) == (sh, WantNodes(Worker), Silent)
    ensures ActHandler(sh, addr, WantNodes(Worker), CALM) == (sh, Reading, Silent)
    ensures id in sh.pending ==>
              ActHandler(sh, addr, WantNodes(Worker), Env(0, true, Closed, Some(id), [])) ==
              (RemovePending(sh, id), Recording(Worker, id, sh.pending[id]), Silent)
  {
  }

  lemma AllocationSteps(sh: Shared, addr: Addr, target: Addr, p: Port)
    ensures ActHandler(sh, addr, Reading, Quiet(Msg(RequestConnection(target)))) == (sh, Allocating(target), Silent)
    ensures sh.ports == [p] ==>
              ActHandler(sh, addr, Allocating(target), CALM) == (PopPort(sh), Storing(target, p), Silent)
  {
  }

  lemma PortSteps(sh: Shared, addr: Addr, target: Addr, p: Port)
    ensures ActHandler(sh, addr, Storing(target, p), CALM) == (StorePort(sh, addr, p), Locating(target, p), Silent)
    ensures target in sh.nodes && sh.nodes[target].addr == target ==>
              ActHandler(sh, addr, Locating(target, p), CALM) == (sh, Replying(ConnectionInfo(target, p)), Silent)
  {
  }

  // ---------- stories ----------

  /** A step that hands in no task and imports none. */
  predicate Plain(s: State, l: Label) {
    && !ImportsTasks(s, l)
    && (Acting(s, l).Some? ==> AcceptedBy(Acting(s, l).value) == {})
  }

  /** The run `r` begins as `base` and goes on with plain steps; if `smooth`, it fails no assignment. */
  ghost predicate Story(r: Run, base: Run, smooth: bool) {
    && IsRun(base) && IsRun(r) && base.labels <= r.labels && base.states <= r.states
    && (forall i: nat :: |base.labels| <= i < |r.labels| ==> Plain(r.states[i], r.labels[i]))
    && (smooth ==> forall i: nat :: |base.labels| <= i < |r.labels| ==> !FailsAssignment(r.states[i], r.labels[i]))
  }

  lemma StoryImportsNothing(r: Run, base: Run, smooth: bool)
    requires Story(r, base, smooth) && ImportsNoTasks(base)
    ensures ImportsNoTasks(r) && MergeFree(r)
  {
    forall i: nat | i < |r.labels| ensures !ImportsTasks(r.states[i], r.labels[i]) {
      if i < |base.labels| {
        assert !ImportsTasks(base.states[i], base.labels[i]);
      } else {
        assert Plain(r.states[i], r.labels[i]);
      }
    }
    forall i: nat | i < |r.labels| ensures !ImportsNodes(r.states[i], r.labels[i]) {
      assert !ImportsTasks(r.states[i], r.labels[i]);
    }
  }

  /** One more step. */
  ghost function Next(r: Run, base: Run, smooth: bool, l: Label): (e: Run)
    requires Story(r, base, smooth) && Enabled(Last(r), l) && Plain(Last(r), l)
    requires smooth ==> !FailsAssignment(Last(r), l)
    ensures Story(e, base, smooth) && Last(e) == Apply(Last(r), l)
    ensures e.labels == r.labels + [l] && e.states == r.states + [Last(e)]
  {
    hide Enabled, Apply, Plain, FailsAssignment;
    Extend(r, l)
  }

  ghost predicate NotHeldByOthers(s: State, t: Tid, l: Option<Lock>) {
    l.Some? ==> forall u :: u in s.threads && u != t ==> l.value !in Holds(s.threads[u])
  }

  /** The thread hands in nothing and imports nothing in its next step. */
  predicate Modest(th: Thread) {
    && AcceptedBy(th) == {}
    && !(th.Peer? && (th.sync.MergingNodes? || th.sync.MergingPending?))
  }

  /** A step of thread `t`, which has come from state `s` without anyone else moving. */
  ghost function Take(s: State, r: Run, base: Run, smooth: bool, t: Tid, sh: Shared, th: Thread, env: Env): (e: Run)
    requires Story(r, base, smooth) && Last(r) == At(s, sh, t, th) && NotHeldByOthers(s, t, Needs(th))
    requires !Finished(th) && Sensible(sh, th, env) && Modest(th)
    requires smooth && th.Handler? && th.at.Assigning? ==> env.ok
    ensures var f := Act(sh, th, env); Story(e, base, smooth) && Last(e) == At(s, f.sh, t, f.th)
    ensures e.labels == r.labels + [Move(t, env)] && e.states == r.states + [Last(e)]
  {
    hide Act, Finished, Sensible, Story;
    OwnLocksAreNotNeeded(th);
    hide Needs, Holds;
    var m := At(s, sh, t, th);
    assert !Blocked(m, t);
    assert m.threads[t := Act(sh, th, env).th] == s.threads[t := Act(sh, th, env).th];
    StoryRuns(r, base, smooth);
    Next(r, base, smooth, Move(t, env))
  }

  lemma StoryRuns(r: Run, base: Run, smooth: bool)
    requires Story(r, base, smooth)
    ensures IsRun(r)
  {
  }

  /** A step of handler `t`. */
  ghost function Serve(s: State, r: Run, base: Run, smooth: bool, t: Tid, addr: Addr, sh: Shared, at: HandlerPc, env: Env): (e: Run)
    requires Story(r, base, smooth) && Unlocked(s, t) && Last(r) == At(s, sh, t, Handler(addr, at))
    requires !at.Gone? && !at.Enqueuing? && Sensible(sh, Handler(addr, at), env) && (smooth && at.Assigning? ==> env.ok)
    ensures var (sh', at', _) := ActHandler(sh, addr, at, env);
            Story(e, base, smooth) && Last(e) == At(s, sh', t, Handler(addr, at'))
    ensures e.labels == r.labels + [Move(t, env)] && e.states == r.states + [Last(e)]
  {
    hide ActHandler, Story, At;
    Take(s, r, base, smooth, t, sh, Handler(addr, at), env)
  }

  /** A step of the reaper, thread 9. */
  ghost function Reap(r: Run, base: Run, smooth: bool, env: Env): (e: Run)
    requires Story(r, base, smooth) && 9 in Last(r).threads && Last(r).threads[9].Reaper? && Unlocked(Last(r), 9)
    requires Sensible(Last(r).sh, Last(r).threads[9], env)
    ensures var th := Last(r).threads[9];
            var (sh', at') := ActReaper(Last(r).sh, th.timeout, th.reap, env);
            Story(e, base, smooth) && Last(e) == At(Last(r), sh', 9, Reaper(th.timeout, at'))
  {
    AsItIs(Last(r), 9);
    hide ActReaper, Story, At;
    Take(Last(r), r, base, smooth, 9, Last(r).sh, Last(r).threads[9], env)
  }

  /** A connection arrives and is being read. */
  lemma Connects(r: Run, base: Run, smooth: bool, t: Tid, addr: Addr) returns (e: Run)
    requires Story(r, base, smooth) && CanConnect(Last(r), t, addr)
    ensures Story(e, base, smooth) && Last(e) == At(Last(r), Register(Last(r).sh, addr, 0), t, Handler(addr, Reading))
  {
    var s, sh := Last(r), Register(Last(r).sh, addr, 0);
    e := Next(r, base, smooth, Spawn(t, Handler(addr, Greeting)));
    assert Last(e) == At(s, s.sh, t, Handler(addr, Greeting));
    JoiningSteps(s.sh, addr);
    JoiningSteps(sh, addr);
    hide Story, IsRun, At, Unlocked, ActHandler;
    e := Serve(s, e, base, smooth, t, addr, s.sh, Greeting, CALM);
    e := Serve(s, e, base, smooth, t, addr, s.sh, Joining, CALM);
    e := Serve(s, e, base, smooth, t, addr, sh, AskRole, CALM);
  }

  // ---------- the deadlock ----------

  const STARTED := EMPTY.(nodes := map["a" := WORKER])

  /** A heartbeat makes the connection a worker. */
  lemma Working() returns (r: Run)
    ensures Story(r, Begin(EMPTY), true) && Last(r) == State(STARTED, map[0 := Handler("a", AskRole)])
  {
    var s, sh := State(EMPTY, map[]), Register(EMPTY, "a", 0);
    r := Connects(Begin(EMPTY), Begin(EMPTY), true, 0, "a");
    HeartbeatSteps(sh, "a");
    HeartbeatSteps(Beat(sh, "a", 0), "a");
    assert Unlocked(s, 0) && Beat(sh, "a", 0) == STARTED;
    hide Story, IsRun, Unlocked, ActHandler, Register, Beat;
    r := Serve(s, r, Begin(EMPTY), true, 0, "a", sh, Reading, Quiet(Msg(Heartbeat)));
    r := Serve(s, r, Begin(EMPTY), true, 0, "a", sh, Beating, CALM);
    r := Serve(s, r, Begin(EMPTY), true, 0, "a", Beat(sh, "a", 0), Replying(HeartbeatAck), CALM);
  }

  /** The dispatcher starts to look for tasks. */
  lemma Searching() returns (r: Run)
    ensures Story(r, Begin(EMPTY), true) && Last(r) == State(STARTED, map[0 := Handler("a", WantNodes(Worker))])
  {
    r := Working();
    var s := State(EMPTY, map[]);
    SearchSteps(STARTED, "a", "");
    hide Story, IsRun, ActHandler;
    r := Serve(s, r, Begin(EMPTY), true, 0, "a", STARTED, AskRole, CALM);
    r := Serve(s, r, Begin(EMPTY), true, 0, "a", STARTED, WantPending(Worker), CALM);
  }

  lemma SaveSteps(sh: Shared)
    ensures var e := Act(sh, Saver(SaveStart), CALM); e.sh == sh && e.th == Saver(SaveNodes(sh.nodes))
    ensures var e := Act(sh, Saver(SaveNodes(sh.nodes)), CALM); e.sh == sh && e.th == Saver(SavePorts(sh.nodes, sh.ports))
    ensures Needs(Saver(SaveStart)) == Some(Nodes) && Needs(Saver(SaveNodes(sh.nodes))) == Some(Ports)
  {
  }

  /** A snapshot of the state is begun. */
  lemma SavingStarts(r: Run, base: Run, smooth: bool, t: Tid) returns (e: Run)
    requires Story(r, base, smooth) && t !in Last(r).threads
    requires NotHeldByOthers(Last(r), t, Some(Nodes)) && NotHeldByOthers(Last(r), t, Some(Ports))
    ensures Story(e, base, smooth)
    ensures Last(e) == At(Last(r), Last(r).sh, t, Saver(SavePorts(Last(r).sh.nodes, Last(r).sh.ports)))
  {
    var s := Last(r);
    e := Next(r, base, smooth, Spawn(t, Saver(SaveStart)));
    assert Last(e) == At(s, s.sh, t, Saver(SaveStart));
    SaveSteps(s.sh);
    hide Story, IsRun, At, NotHeldByOthers, Act, Needs;
    e := Take(s, e, base, smooth, t, s.sh, Saver(SaveStart), CALM);
    e := Take(s, e, base, smooth, t, s.sh, Saver(SaveNodes(s.sh.nodes)), CALM);
  }

  /** The deadlock is reachable: one worker that has sent a heartbeat and one state save. */
  lemma DeadlockIsReachable() returns (r: Run)
    ensures IsRun(r) && r.states[0].sh == EMPTY
    ensures Embraced(Last(r), 0, 1) && Stuck(Last(r))
  {
    r := Searching();
    hide IsRun, Stuck;
    r := SavingStarts(r, Begin(EMPTY), true, 1);
    assert r.states[0] == Begin(EMPTY).states[0] && Embraced(Last(r), 0, 1);
    DeadlockExactly(r, |r.labels|);
  }

  // ---------- the same port handed out twice ----------

  lemma IsGivenPort(r: Run, base: Run, smooth: bool, t: Tid, addr: Addr) returns (e: Run)
    requires Story(r, base, smooth) && Unlocked(Last(r), t)
    requires t in Last(r).threads && Last(r).threads[t] == Handler(addr, Reading) && Last(r).sh.ports == [7]
    ensures Story(e, base, smooth)
    ensures Last(e) == At(Last(r), StorePort(PopPort(Last(r).sh), addr, 7), t, Handler(addr, Locating("a", 7)))
  {
    var s := Last(r);
    var one := PopPort(s.sh);
    hide Story, IsRun, At, Unlocked, ActHandler, StorePort, PopPort;
    AsItIs(s, t);
    AllocationSteps(s.sh, addr, "a", 7);
    PortSteps(one, addr, "a", 7);
    e := Serve(s, r, base, smooth, t, addr, s.sh, Reading, Quiet(Msg(RequestConnection("a"))));
    e := Serve(s, e, base, smooth, t, addr, s.sh, Allocating("a"), CALM);
    e := Serve(s, e, base, smooth, t, addr, one, Storing("a", 7), CALM);
  }

  /** A connected client asks for a port towards "a" and is about to be told number 7. */
  lemma AsksForPort(r: Run, base: Run, smooth: bool, t: Tid, addr: Addr) returns (e: Run)
    requires Story(r, base, smooth) && Unlocked(Last(r), t)
    requires t in Last(r).threads && Last(r).threads[t] == Handler(addr, Reading) && Last(r).sh.ports == [7]
    requires "a" in Last(r).sh.nodes && Last(r).sh.nodes["a"].addr == "a"
    ensures Story(e, base, smooth)
    ensures Last(e) == At(Last(r), StorePort(PopPort(Last(r).sh), addr, 7), t,
                          Handler(addr, Replying(ConnectionInfo("a", 7))))
  {
    var s := Last(r);
    var two := StorePort(PopPort(s.sh), addr, 7);
    PortSteps(two, addr, "a", 7);
    assert "a" in two.nodes && two.nodes["a"].addr == "a";
    hide Story, IsRun, At, Unlocked, ActHandler, StorePort, PopPort;
    e := IsGivenPort(r, base, smooth, t, addr);
    e := Serve(s, e, base, smooth, t, addr, two, Locating("a", 7), CALM);
  }

  const STALE := EMPTY.(nodes := map["a" := NODE], ports := [7])

  lemma FoundStale() returns (r: Run)
    ensures Story(r, Begin(STALE), true) && Last(r) == State(STALE, map[9 := Reaper(0, Reaping(["a"]))])
  {
    r := Begin(STALE);
    r := Next(r, Begin(STALE), true, Spawn(9, Reaper(0, Resting)));
    assert StaleNodes(STALE, 1, 0) == {"a"};
    hide IsRun;
    r := Reap(r, Begin(STALE), true, Env(1, true, Closed, None, ["a"]));
  }

  const FREED := EMPTY.(ports := [7])

  lemma ReaperSteps()
    ensures ActReaper(STALE, 0, Reaping(["a"]), CALM) == (FREED, Salvaging("a", map[], []))
    ensures ActReaper(FREED, 0, Salvaging("a", map[], []), CALM) == (FREED, Taking("a", []))
  {
    assert ["a"][1..] == [] && RemoveNode(STALE, "a").nodes == map[];
    assert Untargeted(map[]) == map[];
  }

  /** The reaper has removed a dead node "a" and is about to release the port of its address. */
  lemma Reaped() returns (r: Run)
    ensures Story(r, Begin(STALE), true) && Last(r).sh == FREED && Last(r).threads == map[9 := Reaper(0, Taking("a", []))]
  {
    r := FoundStale();
    ReaperSteps();
    hide Story, IsRun, ActReaper;
    r := Reap(r, Begin(STALE), true, CALM);
    r := Reap(r, Begin(STALE), true, CALM);
  }

  /** "a" has connected again and been given port 7. */
  lemma ConnectedAgain() returns (r: Run)
    ensures Story(r, Begin(STALE), true)
    ensures Last(r) == State(EMPTY.(nodes := map["a" := NODE.(port := Some(7))]),
                             map[9 := Reaper(0, Taking("a", [])), 0 := Handler("a", Replying(ConnectionInfo("a", 7)))])
  {
    r := Reaped();
    hide IsRun;
    r := Connects(r, Begin(STALE), true, 0, "a");
    assert Last(r) == State(STALE, map[9 := Reaper(0, Taking("a", [])), 0 := Handler("a", Reading)]);
    assert PopPort(STALE).ports == [];
    r := AsksForPort(r, Begin(STALE), true, 0, "a");
  }

  /** The reaper puts the port back. */
  lemma ReleasedUnderItsHands() returns (r: Run)
    ensures Story(r, Begin(STALE), true)
    ensures Last(r) == State(STALE, map[9 := Reaper(0, Reaping([])), 0 := Handler("a", Replying(ConnectionInfo("a", 7)))])
  {
    r := ConnectedAgain();
    hide IsRun;
    r := Reap(r, Begin(STALE), true, CALM);
    assert Last(r) == State(EMPTY.(nodes := map["a" := NODE]),
                            map[9 := Reaper(0, Pushing(7, [])), 0 := Handler("a", Replying(ConnectionInfo("a", 7)))]);
    r := Reap(r, Begin(STALE), true, CALM);
  }

  lemma BothAboutToReply() returns (r: Run)
    ensures Story(r, Begin(STALE), true) && Unlocked(Last(r), 0) && Unlocked(Last(r), 1)
    ensures var ts := Last(r).threads;
            && 0 in ts && ts[0] == Handler("a", Replying(ConnectionInfo("a", 7)))
            && 1 in ts && ts[1] == Handler("b", Replying(ConnectionInfo("a", 7)))
  {
    r := ReleasedUnderItsHands();
    hide IsRun;
    r := Connects(r, Begin(STALE), true, 1, "b");
    r := AsksForPort(r, Begin(STALE), true, 1, "b");
  }

  lemma ReplyStep(sh: Shared, addr: Addr)
    ensures var m := ConnectionInfo("a", 7);
            ActHandler(sh, addr, Replying(m), CALM) == (sh, AskRole, Sent(m))
  {
  }

  /** The reply is written. */
  lemma IsAnswered(r: Run, base: Run, smooth: bool, t: Tid, addr: Addr) returns (e: Run)
    requires Story(r, base, smooth) && Unlocked(Last(r), t)
    requires t in Last(r).threads && Last(r).threads[t] == Handler(addr, Replying(ConnectionInfo("a", 7)))
    ensures Story(e, base, smooth) && Last(e) == At(Last(r), Last(r).sh, t, Handler(addr, AskRole))
    ensures e.labels == r.labels + [Move(t, CALM)] && e.states == r.states + [Last(e)]
    ensures AnsweredAt(e, |r.labels|) == Some(7)
  {
    var s, reply := Last(r), Replying(ConnectionInfo("a", 7));
    hide ActHandler, IsRun, At, Unlocked;
    AsItIs(s, t);
    ReplyStep(s.sh, addr);
    e := Serve(s, r, base, smooth, t, addr, s.sh, reply, CALM);
  }

  /** Two clients are told about port 7 in two successive steps: no release lies between the
      replies, only between the allocations. */
  lemma SamePortTwice() returns (r: Run, i: nat)
    ensures IsRun(r) && MergeFree(r) && PortsDisjoint(r.states[0].sh)
    ensures i + 1 < |r.labels| && AnsweredAt(r, i) == AnsweredAt(r, i + 1) == Some(7)
  {
    assert PortsDisjoint(STALE) by {
      assert multiset(STALE.ports)[7] == 1;
    }
    r := BothAboutToReply();
    i := |r.labels|;
    hide MergeFree, IsRun, PortsDisjoint;
    r := IsAnswered(r, Begin(STALE), true, 1, "b");
    r := IsAnswered(r, Begin(STALE), true, 0, "a");
    StoryImportsNothing(r, Begin(STALE), true);
  }
}
