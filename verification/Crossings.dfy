/** Talks in which client and master lose step: the conditions of
    `Session.AnswersBelongToTheirCalls` are really needed. */
module Crossings {
  import opened Protocol
  import opened Regions
  import opened Machine
  import opened Session
  import W = Witnesses

  const CALM := W.CALM
  const EMPTY := W.EMPTY

  // ---------- building talks ----------

  ghost function Last(w: Talk): Link
    requires IsTalk(w, 0)
  {
    w.links[|w.moves|]
  }

  /** A talk; if `tame`, one in which nobody makes the client a worker. */
  ghost predicate Told(w: Talk, tame: bool) {
    IsTalk(w, 0) && (tame ==> NeverMadeWorker(w, 0))
  }

  ghost function Go(w: Talk, tame: bool, v: Session.Move): (e: Talk)
    requires Told(w, tame) && CanMove(Last(w), 0, v) && (tame && v.Serve? ==> !MakesWorker(Last(w).master, 0, v.l))
    ensures Told(e, tame) && Last(e) == Moved(Last(w), 0, v)
  {
    hide CanMove, Moved, MakesWorker, IsFreshLink;
    var e := Talk(w.links + [Moved(Last(w), 0, v)], w.moves + [v]);
    assert forall i: nat :: i < |w.moves| ==> TalkStep(w, 0, i) ==> TalkStep(e, 0, i);
    assert TalkStep(e, 0, |w.moves|);
    e
  }

  /** The link `k`, but the collections are `sh` and thread `u` is `th`. */
  ghost function With(k: Link, sh: Shared, u: Tid, th: Thread): Link {
    k.(master := State(sh, k.master.threads[u := th]))
  }

  ghost predicate AllSeen(k: Link, sh: Shared) {
    Pairs(sh.completed) <= k.seen
  }

  lemma AtRest(k: Link, u: Tid)
    requires u in k.master.threads
    ensures k == With(k, k.master.sh, u, k.master.threads[u])
  {
  }

  /** A step of thread `u`, which has come from link `k` without anyone else moving. */
  ghost function Turn(w: Talk, tame: bool, k: Link, sh: Shared, u: Tid, th: Thread, env: Env): (e: Talk)
    requires Told(w, tame) && Last(w) == With(k, sh, u, th) && W.Unlocked(k.master, u)
    requires !Finished(th) && Sensible(sh, th, env) && (tame ==> !th.Peer?)
    requires u == 0 && IsReading(th) ==> k.up != [] && env.input == Msg(k.up[0])
    ensures Told(e, tame)
    ensures var f := Act(sh, th, env);
            var k' := k.(up := if u == 0 && IsReading(th) && env.input.Msg? && k.up != [] then k.up[1..] else k.up,
                         down := if u == 0 && f.out.Sent? then k.down + [f.out.m] else k.down,
                         seen := k.seen + Pairs(f.sh.completed));
            Last(e) == With(k', f.sh, u, f.th)
  {
    W.OwnLocksAreNotNeeded(th);
    hide Act, Needs, Finished, Sensible;
    var m := Last(w).master;
    assert m.threads[u] == th && !Blocked(m, u);
    assert m.threads[u := Act(sh, th, env).th] == k.master.threads[u := Act(sh, th, env).th];
    Go(w, tame, Serve(Label.Move(u, env)))
  }

  /** The client's handler reads the oldest request in flight. */
  ghost function Reads(w: Talk, tame: bool, k: Link, sh: Shared, at': HandlerPc): (e: Talk)
    requires Told(w, tame) && Last(w) == With(k, sh, 0, Handler("c", Reading)) && W.Unlocked(k.master, 0)
    requires AllSeen(k, sh) && k.up != [] && ActHandler(sh, "c", Reading, W.Quiet(Msg(k.up[0]))) == (sh, at', Silent)
    ensures Told(e, tame) && Last(e) == With(k.(up := k.up[1..]), sh, 0, Handler("c", at'))
  {
    hide ActHandler, Told, With;
    assert k.seen + Pairs(sh.completed) == k.seen;
    Turn(w, tame, k, sh, 0, Handler("c", Reading), W.Quiet(Msg(k.up[0])))
  }

  /** A thread takes a step that neither reads from the client nor writes, nor files a result. */
  ghost function Works(w: Talk, tame: bool, k: Link, sh: Shared, u: Tid, th: Thread, env: Env, sh': Shared, th': Thread): (e: Talk)
    requires Told(w, tame) && Last(w) == With(k, sh, u, th) && W.Unlocked(k.master, u)
    requires !Finished(th) && Sensible(sh, th, env) && (tame ==> !th.Peer?) && (u == 0 ==> !IsReading(th))
    requires var f := Act(sh, th, env); f.sh == sh' && f.th == th' && !f.out.Sent?
    requires AllSeen(k, sh) && sh'.completed == sh.completed
    ensures Told(e, tame) && Last(e) == With(k, sh', u, th') && AllSeen(k, sh')
  {
    hide Act, Told, With, Sensible, Finished;
    assert k.seen + Pairs(sh.completed) == k.seen;
    Turn(w, tame, k, sh, u, th, env)
  }

  /** The same for a handler at a point where nothing from outside matters. */
  ghost function Handles(w: Talk, tame: bool, k: Link, sh: Shared, u: Tid, addr: Addr, at: HandlerPc, sh': Shared, at': HandlerPc): (e: Talk)
    requires Told(w, tame) && Last(w) == With(k, sh, u, Handler(addr, at)) && W.Unlocked(k.master, u)
    requires !at.Gone? && !at.Reading? && !at.Listing? && !at.WantNodes?
    requires ActHandler(sh, addr, at, CALM) == (sh', at', Silent) && AllSeen(k, sh) && sh'.completed == sh.completed
    ensures Told(e, tame) && Last(e) == With(k, sh', u, Handler(addr, at')) && AllSeen(k, sh')
  {
    hide ActHandler, Told, With, AllSeen;
    Works(w, tame, k, sh, u, Handler(addr, at), CALM, sh', Handler(addr, at'))
  }

  /** The client's handler writes to the client. */
  ghost function Writes(w: Talk, tame: bool, k: Link, sh: Shared, at: HandlerPc, m: NodeMessage, at': HandlerPc): (e: Talk)
    requires Told(w, tame) && Last(w) == With(k, sh, 0, Handler("c", at)) && W.Unlocked(k.master, 0) && AllSeen(k, sh)
    requires (at.Replying? || at.Assigning?) && ActHandler(sh, "c", at, CALM) == (sh, at', Sent(m))
    ensures Told(e, tame) && Last(e) == With(k.(down := k.down + [m]), sh, 0, Handler("c", at'))
  {
    hide ActHandler, Told, With;
    assert k.seen + Pairs(sh.completed) == k.seen;
    Turn(w, tame, k, sh, 0, Handler("c", at), CALM)
  }

  /** A handler files a result. */
  ghost function Files(w: Talk, k: Link, sh: Shared, u: Tid, addr: Addr, id: Id, r: TaskResult): (e: Talk)
    requires Told(w, true) && Last(w) == With(k, sh, u, Handler(addr, Completing(id, r))) && W.Unlocked(k.master, u)
    ensures var sh' := Complete(sh, id, r);
            Told(e, true) && Last(e) == With(k.(seen := k.seen + Pairs(sh'.completed)), sh', u, Handler(addr, AskRole))
  {
    hide Told, With;
    assert ActHandler(sh, addr, Completing(id, r), CALM) == (Complete(sh, id, r), AskRole, Silent);
    hide ActHandler;
    Turn(w, true, k, sh, u, Handler(addr, Completing(id, r)), CALM)
  }

  // ---------- requests served ----------

  const TASK := Compute("1 + 1")
  const OTHER := Compute("2 + 2")
  const R := Response("4")

  lemma RequestSteps(sh: Shared, id: Id, task: Task)
    ensures ActHandler(sh, "c", Reading, W.Quiet(Msg(SubmitTask(id, task)))) == (sh, Enqueuing(id, task), Silent)
    ensures ActHandler(sh, "c", Enqueuing(id, task), CALM) ==
            (Enqueue(sh, id, PendingTask(task, None)), Replying(TaskAccepted(id)), Silent)
    ensures ActHandler(sh, "c", Reading, W.Quiet(Msg(GetTaskResult(id)))) == (sh, Looking(id), Silent)
    ensures ActHandler(sh, "c", Looking(id), CALM) ==
            (sh, Replying(if id in sh.completed then ResultOf(id, sh.completed[id]) else DirectMessage("Pending")), Silent)
  {
  }

  lemma ReplySteps(sh: Shared, m: NodeMessage)
    ensures ActHandler(sh, "c", Replying(m), CALM) == (sh, AskRole, Sent(m))
    ensures WorkerRole(sh, "c") == None ==> ActHandler(sh, "c", AskRole, CALM) == (sh, Reading, Silent)
  {
  }

  /** The oldest request in flight is answered with `m`. */
  ghost function Replied(k: Link, sh: Shared, m: NodeMessage): Link {
    k.(master := State(sh, k.master.threads), up := if k.up == [] then [] else k.up[1..], down := k.down + [m])
  }

  ghost predicate Resting(k: Link) {
    0 in k.master.threads && k.master.threads[0] == Handler("c", Reading) && W.Unlocked(k.master, 0)
  }

  lemma RepliedIs(k: Link, sh: Shared, m: NodeMessage)
    requires k.up != [] && Resting(k)
    ensures Replied(k, sh, m) == With(k.(up := k.up[1..], down := k.down + [m]), sh, 0, Handler("c", Reading))
  {
  }

  lemma IsAcknowledged(w: Talk, tame: bool, k: Link, id: Id, task: Task) returns (e: Talk)
    requires Told(w, tame) && Last(w) == k && Resting(k) && AllSeen(k, k.master.sh)
    requires k.up != [] && k.up[0] == SubmitTask(id, task)
    ensures var sh' := Enqueue(k.master.sh, id, PendingTask(task, None));
            Told(e, tame) && Last(e) == With(k.(up := k.up[1..], down := k.down + [TaskAccepted(id)]), sh', 0, Handler("c", AskRole))
  {
    var sh, sh' := k.master.sh, Enqueue(k.master.sh, id, PendingTask(task, None));
    var one := k.(up := k.up[1..]);
    assert sh'.completed == sh.completed && AllSeen(one, sh);
    AtRest(k, 0);
    RequestSteps(sh, id, task);
    ReplySteps(sh', TaskAccepted(id));
    hide Told, ActHandler, AllSeen, With, Enqueue;
    e := Reads(w, tame, k, sh, Enqueuing(id, task));
    e := Handles(e, tame, one, sh, 0, "c", Enqueuing(id, task), sh', Replying(TaskAccepted(id)));
    e := Writes(e, tame, one, sh', Replying(TaskAccepted(id)), TaskAccepted(id), AskRole);
  }

  /** The client is no worker: its handler reads on. */
  lemma ReadsOn(w: Talk, k: Link, sh: Shared) returns (e: Talk)
    requires Told(w, true) && Last(w) == With(k, sh, 0, Handler("c", AskRole)) && W.Unlocked(k.master, 0)
    requires AllSeen(k, sh) && WorkerRole(sh, "c") == None
    ensures Told(e, true) && Last(e) == With(k, sh, 0, Handler("c", Reading))
  {
    ReplySteps(sh, HeartbeatAck);
    hide Told, ActHandler, AllSeen, With;
    e := Handles(w, true, k, sh, 0, "c", AskRole, sh, Reading);
  }

  lemma SubmitIsServed(w: Talk, k: Link, id: Id, task: Task) returns (e: Talk)
    requires Told(w, true) && Last(w) == k && Resting(k) && AllSeen(k, k.master.sh) && WorkerRole(k.master.sh, "c") == None
    requires k.up != [] && k.up[0] == SubmitTask(id, task)
    ensures Told(e, true) && Last(e) == Replied(k, Enqueue(k.master.sh, id, PendingTask(task, None)), TaskAccepted(id))
  {
    var sh' := Enqueue(k.master.sh, id, PendingTask(task, None));
    RepliedIs(k, sh', TaskAccepted(id));
    assert AllSeen(k, sh') && WorkerRole(sh', "c") == None;
    e := IsAcknowledged(w, true, k, id, task);
    hide Told, With, Replied, Enqueue;
    e := ReadsOn(e, k.(up := k.up[1..], down := k.down + [TaskAccepted(id)]), sh');
  }

  lemma PollIsServed(w: Talk, k: Link, id: Id) returns (e: Talk)
    requires Told(w, true) && Last(w) == k && Resting(k) && AllSeen(k, k.master.sh) && WorkerRole(k.master.sh, "c") == None
    requires k.up != [] && k.up[0] == GetTaskResult(id)
    ensures var sh := k.master.sh;
            var m := if id in sh.completed then ResultOf(id, sh.completed[id]) else DirectMessage("Pending");
            Told(e, true) && Last(e) == Replied(k, sh, m)
  {
    var sh := k.master.sh;
    var m := if id in sh.completed then ResultOf(id, sh.completed[id]) else DirectMessage("Pending");
    var one := k.(up := k.up[1..]);
    assert AllSeen(one, sh) && AllSeen(one.(down := k.down + [m]), sh);
    AtRest(k, 0);
    RequestSteps(sh, id, TASK);
    ReplySteps(sh, m);
    RepliedIs(k, sh, m);
    hide Told, ActHandler, AllSeen, With, Replied, WorkerRole;
    e := Reads(w, true, k, sh, Looking(id));
    e := Handles(e, true, one, sh, 0, "c", Looking(id), sh, Replying(m));
    e := Writes(e, true, one, sh, Replying(m), m, AskRole);
    e := ReadsOn(e, one.(down := k.down + [m]), sh);
  }

  // ---------- a result reported ----------

  lemma ReportSteps(sh: Shared, addr: Addr, id: Id, r: TaskResult)
    requires addr !in sh.nodes
    ensures ActHandler(sh, addr, Reading, W.Quiet(Msg(ResultOf(id, r)))) == (sh, Finishing(id, r), Silent)
    ensures ActHandler(sh, addr, Finishing(id, r), CALM) == (sh, Unqueuing(id, r), Silent)
    ensures ActHandler(sh, addr, Unqueuing(id, r), CALM) == (RemovePending(sh, id), Completing(id, r), Silent)
    ensures ActHandler(sh, addr, AskRole, CALM) == (sh, Reading, Silent)
  {
  }

  /** Handler 1, of a node, is between two requests. */
  ghost predicate NodeResting(k: Link) {
    && 1 in k.master.threads && k.master.threads[1] == Handler("n", Reading) && W.Unlocked(k.master, 1)
    && "n" !in k.master.sh.nodes
  }

  lemma ReportArrives(w: Talk, k: Link, id: Id, r: TaskResult) returns (e: Talk)
    requires Told(w, true) && Last(w) == k && NodeResting(k) && AllSeen(k, k.master.sh)
    ensures Told(e, true) && Last(e) == With(k, RemovePending(k.master.sh, id), 1, Handler("n", Completing(id, r)))
  {
    var sh, one := k.master.sh, RemovePending(k.master.sh, id);
    assert one.completed == sh.completed;
    AtRest(k, 1);
    ReportSteps(sh, "n", id, r);
    hide Told, ActHandler, AllSeen, With, RemovePending;
    e := Works(w, true, k, sh, 1, Handler("n", Reading), W.Quiet(Msg(ResultOf(id, r))), sh, Handler("n", Finishing(id, r)));
    e := Handles(e, true, k, sh, 1, "n", Finishing(id, r), sh, Unqueuing(id, r));
    e := Handles(e, true, k, sh, 1, "n", Unqueuing(id, r), one, Completing(id, r));
  }

  function Filed(sh: Shared, id: Id, r: TaskResult): Shared {
    Complete(RemovePending(sh, id), id, r)
  }

  /** A node reports a result. */
  lemma ResultIsReported(w: Talk, k: Link, id: Id, r: TaskResult) returns (e: Talk)
    requires Told(w, true) && Last(w) == k && NodeResting(k) && AllSeen(k, k.master.sh)
    ensures var sh' := Filed(k.master.sh, id, r);
            Told(e, true) && Last(e) == k.(master := State(sh', k.master.threads), seen := k.seen + Pairs(sh'.completed))
  {
    var one, two := RemovePending(k.master.sh, id), Filed(k.master.sh, id, r);
    var k' := k.(seen := k.seen + Pairs(two.completed));
    AtRest(k', 1);
    assert With(k', two, 1, Handler("n", Reading)) == k'.(master := State(two, k.master.threads));
    assert AllSeen(k', two);
    ReportSteps(two, "n", id, r);
    e := ReportArrives(w, k, id, r);
    hide Told, ActHandler, AllSeen, Pairs, With;
    e := Files(e, k, one, 1, "n", id, r);
    e := Handles(e, true, k', two, 1, "n", AskRole, two, Reading);
  }

  // ---------- three calls ----------

  const JOINED := EMPTY.(nodes := map["c" := NodeInfo("c", 0, None, map[], false, Worker)])
  const BOTH := map[0 := Handler("c", Reading), 1 := Handler("n", Reading)]
  const ONE := JOINED.(pending := map["1" := PendingTask(TASK, None)])
  const TWO := JOINED.(pending := map["1" := PendingTask(TASK, None), "2" := PendingTask(OTHER, None)])
  const DONE := ONE.(completed := map["2" := R])

  lemma JoiningSteps(sh: Shared)
    ensures ActHandler(sh, "c", Joining, CALM) == (Register(sh, "c", 0), AskRole, Silent)
    ensures Register(sh, "c", 0) == sh.(nodes := sh.nodes["c" := NodeInfo("c", 0, None, map[], false, Worker)])
  {
  }

  /** A fresh stream; the client's handler registers it and starts to read. */
  lemma Joins(k: Link) returns (w: Talk)
    requires IsFreshLink(k, 0) && k.master.threads[0] == Handler("c", Joining) && W.Unlocked(k.master, 0)
    ensures Told(w, true) && Last(w) == With(k, Register(k.master.sh, "c", 0), 0, Handler("c", Reading))
  {
    w := Talk([k], []);
    assert Told(w, true) && Last(w) == k && AllSeen(k, k.master.sh);
    var sh := Register(k.master.sh, "c", 0);
    assert WorkerRole(sh, "c") == None;
    AtRest(k, 0);
    JoiningSteps(k.master.sh);
    hide Told, ActHandler, AllSeen, With, IsFreshLink, WorkerRole;
    w := Handles(w, true, k, k.master.sh, 0, "c", Joining, sh, AskRole);
    w := ReadsOn(w, k, sh);
  }

  lemma Joined() returns (w: Talk)
    ensures Told(w, true) && Last(w) == Link(State(JOINED, BOTH), [], [], Idle, [], 0, [], {})
  {
    var k := Link(State(EMPTY, map[0 := Handler("c", Joining), 1 := Handler("n", Reading)]), [], [], Idle, [], 0, [], {});
    w := Joins(k);
    JoiningSteps(EMPTY);
  }

  /** The first call: acknowledged, then timed out with its poll unanswered. */
  lemma FirstCall() returns (w: Talk)
    ensures Told(w, true)
    ensures Last(w) == Link(State(ONE, BOTH), [GetTaskResult("1")], [], Idle, [Result("1")], 1, [], {})
  {
    w := Joined();
    hide IsTalk, NeverMadeWorker;
    w := Go(w, true, Begin("1", TASK));
    var k := Link(State(JOINED, BOTH), [SubmitTask("1", TASK)], [], AwaitAck(Call("1", TASK, 0)), [Ack("1", TASK)], 0, [], {});
    assert Last(w) == k;
    w := SubmitIsServed(w, k, "1", TASK);
    w := Go(w, true, TakeAck);
    w := Go(w, true, Poll(true));
  }

  /** The second call reads that reply as its acknowledgement. */
  lemma SecondStarts() returns (w: Talk)
    ensures Told(w, true)
    ensures Last(w) == Link(State(ONE, BOTH), [SubmitTask("2", OTHER)], [], Polling(Call("2", OTHER, 1)), [Ack("2", OTHER)], 1, [], {})
  {
    w := FirstCall();
    hide IsTalk, NeverMadeWorker;
    w := Go(w, true, Begin("2", OTHER));
    var k := Link(State(ONE, BOTH), [GetTaskResult("1"), SubmitTask("2", OTHER)], [], AwaitAck(Call("2", OTHER, 1)),
                  [Result("1"), Ack("2", OTHER)], 1, [], {});
    assert Last(w) == k;
    w := PollIsServed(w, k, "1");
    w := Go(w, true, TakeAck);
  }

  /** It times out likewise. */
  lemma SecondCall() returns (w: Talk)
    ensures Told(w, true)
    ensures Last(w) == Link(State(TWO, BOTH), [GetTaskResult("2")], [TaskAccepted("2")], Idle, [Ack("2", OTHER), Result("2")], 2, [], {})
  {
    w := SecondStarts();
    hide IsTalk, NeverMadeWorker;
    w := SubmitIsServed(w, Last(w), "2", OTHER);
    w := Go(w, true, Poll(true));
  }

  lemma OnFile()
    ensures Filed(TWO, "2", R) == DONE && Pairs(DONE.completed) == {("2", R)} && {} + {("2", R)} == {("2", R)}
    ensures Pairs(TWO.completed) == {}
  {
    assert TWO.pending - {"2"} == ONE.pending;
    forall p ensures p in Pairs(DONE.completed) <==> p == ("2", R) {
      assert p in DONE.completed.Items <==> p.0 in DONE.completed && DONE.completed[p.0] == p.1;
    }
  }

  /** Then the second task is done, and its poll answered. */
  lemma SecondIsDone() returns (w: Talk)
    ensures Told(w, true)
    ensures Last(w) == Link(State(DONE, BOTH), [], [TaskAccepted("2"), ResultOf("2", R)], Idle,
                            [Ack("2", OTHER), Result("2")], 2, [], {("2", R)})
  {
    w := SecondCall();
    OnFile();
    hide IsTalk, NeverMadeWorker, Pairs, Filed;
    w := ResultIsReported(w, Last(w), "2", R);
    w := PollIsServed(w, Last(w), "2");
  }

  lemma ThirdStarts() returns (w: Talk)
    ensures Told(w, true)
    ensures Last(w) == Link(State(DONE, BOTH), [SubmitTask("3", TASK)], [ResultOf("2", R)], Polling(Call("3", TASK, 2)),
                            [Result("2"), Ack("3", TASK)], 2, [], {("2", R)})
  {
    w := SecondIsDone();
    hide IsTalk, NeverMadeWorker;
    w := Go(w, true, Begin("3", TASK));
    assert Last(w) == Link(State(DONE, BOTH), [SubmitTask("3", TASK)], [TaskAccepted("2"), ResultOf("2", R)],
                           AwaitAck(Call("3", TASK, 2)), [Ack("2", OTHER), Result("2"), Ack("3", TASK)], 2, [], {("2", R)});
    w := Go(w, true, TakeAck);
  }

  /** Two calls time out, each leaving a reply unread. The third one, for task `TASK` under id "3",
      then returns the result of the second, although nobody has ever filed a result for "3". */
  lemma ThirdCallGetsSecondResult() returns (w: Talk)
    ensures IsTalk(w, 0) && NeverMadeWorker(w, 0)
    ensures Last(w).answers == [Answer(Call("3", TASK, 2), R)] && Last(w).seen == {("2", R)}
  {
    w := ThirdStarts();
    hide IsTalk, NeverMadeWorker;
    w := Go(w, true, Poll(false));
    w := Go(w, true, TakeReply(false));
  }

  /** Every Ok of a call that began with at most `k` replies to come is its own. */
  ghost predicate OwnAnswers(k: nat) {
    forall w, n: nat, i: nat ::
      IsTalk(w, 0) && NeverMadeWorker(w, 0) && n <= |w.moves| && i < |w.links[n].answers|
      && w.links[n].answers[i].call.ahead <= k ==>
        (w.links[n].answers[i].call.id, w.links[n].answers[i].result) in w.links[n].seen
  }

  lemma OwnAnswersExactly(k: nat)
    ensures OwnAnswers(k) <==> k <= 1
  {
    if k <= 1 {
      forall w, n: nat, i: nat | IsTalk(w, 0) && NeverMadeWorker(w, 0) && n <= |w.moves| && i < |w.links[n].answers|
                                 && w.links[n].answers[i].call.ahead <= k
        ensures (w.links[n].answers[i].call.id, w.links[n].answers[i].result) in w.links[n].seen
      {
        StaysInStep(w, 0, n);
      }
    } else {
      var w := ThirdCallGetsSecondResult();
      var n := |w.moves|;
      assert w.links[n].answers[0].call.ahead <= k && ("3", R) !in w.links[n].seen;
    }
  }

  // ---------- the client taken for a worker ----------

  const ELSEWHERE := PeerState(map["c" := NodeInfo("c", 0, None, map[], true, Worker)], map[], map[])
  const QUEUED := EMPTY.(pending := map["t" := PendingTask(OTHER, None)])
  const IMPORTED := QUEUED.(nodes := ELSEWHERE.nodes)
  const SUBMITTED := IMPORTED.(pending := QUEUED.pending["1" := PendingTask(TASK, None)])

  /** The reaper has found an older connection from "c" stale; a peer's state is about to be merged. */
  function Crowd(at: HandlerPc): map<Tid, Thread> {
    map[0 := Handler("c", at), 1 := Reaper(0, Reaping(["c"])), 2 := Peer(true, MergingNodes(ELSEWHERE))]
  }

  lemma ImportSteps()
    ensures Act(Register(QUEUED, "c", 0), Reaper(0, Reaping(["c"])), CALM) ==
            Effect(QUEUED, Reaper(0, Salvaging("c", map[], [])), Silent)
    ensures Act(QUEUED, Peer(true, MergingNodes(ELSEWHERE)), CALM) ==
            Effect(IMPORTED, Peer(true, MergingPending(ELSEWHERE)), Silent)
  {
    assert ["c"][1..] == [] && RemoveNode(Register(QUEUED, "c", 0), "c") == QUEUED;
    assert MergeNodes(QUEUED, ELSEWHERE) == IMPORTED;
  }

  /** The reaper removes the client's entry. */
  lemma IsReaped(w: Talk, k: Link) returns (e: Talk)
    requires Told(w, false) && Last(w) == k && k.master == State(Register(QUEUED, "c", 0), Crowd(Reading)) && AllSeen(k, k.master.sh)
    ensures Told(e, false) && Last(e) == With(k, QUEUED, 1, Reaper(0, Salvaging("c", map[], [])))
  {
    AtRest(k, 1);
    ImportSteps();
    assert W.Unlocked(k.master, 1);
    hide Told, Act, AllSeen, With, Register;
    e := Works(w, false, k, k.master.sh, 1, Reaper(0, Reaping(["c"])), CALM, QUEUED, Reaper(0, Salvaging("c", map[], [])));
  }

  const MERGED := Crowd(Reading)[1 := Reaper(0, Salvaging("c", map[], []))][2 := Peer(true, MergingPending(ELSEWHERE))]

  /** A peer that lists it as a worker is merged. */
  lemma IsImported(w: Talk, k: Link) returns (e: Talk)
    requires Told(w, false) && Last(w) == k && AllSeen(k, QUEUED)
    requires k.master == State(QUEUED, Crowd(Reading)[1 := Reaper(0, Salvaging("c", map[], []))])
    ensures Told(e, false) && Last(e) == k.(master := State(IMPORTED, MERGED))
  {
    AtRest(k, 2);
    ImportSteps();
    assert W.Unlocked(k.master, 2);
    hide Told, Act, AllSeen;
    e := Works(w, false, k, QUEUED, 2, Peer(true, MergingNodes(ELSEWHERE)), CALM, IMPORTED, Peer(true, MergingPending(ELSEWHERE)));
  }

  const CALL := Call("1", TASK, 0)

  lemma Arrives() returns (w: Talk)
    ensures Told(w, false)
    ensures Last(w) == Link(State(Register(QUEUED, "c", 0), Crowd(Reading)), [], [], Idle, [], 0, [], {})
  {
    var k := Link(State(QUEUED, Crowd(Joining)), [], [], Idle, [], 0, [], {});
    CrowdIsFresh(k);
    hide IsFreshLink, IsTalk, NeverMadeWorker, W.Unlocked, Register;
    w := Joins(k);
  }

  lemma CrowdIsFresh(k: Link)
    requires k == Link(State(QUEUED, Crowd(Joining)), [], [], Idle, [], 0, [], {})
    ensures IsFreshLink(k, 0) && W.Unlocked(k.master, 0)
    ensures Crowd(Joining)[0 := Handler("c", Reading)] == Crowd(Reading)
  {
  }

  lemma IsListedElsewhere() returns (w: Talk)
    ensures Told(w, false) && Last(w) == Link(State(IMPORTED, MERGED), [], [], Idle, [], 0, [], {})
  {
    w := Arrives();
    hide IsTalk, NeverMadeWorker;
    w := IsReaped(w, Last(w));
    w := IsImported(w, Last(w));
  }

  /** The client then submits a task, which is acknowledged. */
  lemma IsTakenForWorker() returns (w: Talk)
    ensures Told(w, false)
    ensures Last(w) == Link(State(SUBMITTED, MERGED[0 := Handler("c", AskRole)]), [], [TaskAccepted("1")],
                            AwaitAck(CALL), [Ack("1", TASK)], 0, [], {})
  {
    w := IsListedElsewhere();
    hide IsTalk, NeverMadeWorker;
    w := Go(w, false, Begin("1", TASK));
    var k := Link(State(IMPORTED, MERGED), [SubmitTask("1", TASK)], [], AwaitAck(CALL), [Ack("1", TASK)], 0, [], {});
    assert Last(w) == k && AllSeen(k, IMPORTED) && Resting(k);
    hide Told, Resting, AllSeen;
    w := IsAcknowledged(w, false, k, "1", TASK);
  }

  lemma DispatchSteps(sh: Shared, pt: PendingTask)
    requires WorkerRole(sh, "c") == Some(Worker) && "t" in sh.pending && sh.pending["t"] == pt
    ensures ActHandler(sh, "c", AskRole, CALM) == (sh, WantPending(Worker), Silent)
    ensures ActHandler(sh, "c", WantPending(Worker), CALM) == (sh, WantNodes(Worker), Silent)
    ensures ActHandler(sh, "c", WantNodes(Worker), Env(0, true, Closed, Some("t"), [])) ==
            (RemovePending(sh, "t"), Recording(Worker, "t", pt), Silent)
    ensures var one := RemovePending(sh, "t");
            ActHandler(one, "c", Recording(Worker, "t", pt), CALM) ==
            (RecordActive(one, "c", "t", pt.task), Assigning(Worker, "t", pt, true), Silent)
  {
  }

  lemma SendingStep(sh: Shared, pt: PendingTask)
    ensures ActHandler(sh, "c", Assigning(Worker, "t", pt, true), CALM) == (sh, WantPending(Worker), Sent(AssignTask("t", pt.task)))
  {
  }

  /** The dispatcher finds a task for the client's address and writes it into the client's stream. */
  lemma IsSent(w: Talk, k: Link, sh: Shared, pt: PendingTask) returns (e: Talk)
    requires Told(w, false) && Last(w) == With(k, sh, 0, Handler("c", AskRole)) && W.Unlocked(k.master, 0) && AllSeen(k, sh)
    requires WorkerRole(sh, "c") == Some(Worker) && Eligible(sh, "c", Worker, "t") && sh.pending["t"] == pt
    ensures Told(e, false)
    ensures var sent := k.(down := k.down + [AssignTask("t", pt.task)]);
            Last(e) == With(sent, RecordActive(RemovePending(sh, "t"), "c", "t", pt.task), 0, Handler("c", WantPending(Worker)))
  {
    var one := RemovePending(sh, "t");
    var two := RecordActive(one, "c", "t", pt.task);
    assert one.completed == sh.completed && two.completed == sh.completed;
    DispatchSteps(sh, pt);
    SendingStep(two, pt);
    hide Told, ActHandler, AllSeen, With, Eligible, WorkerRole, RemovePending, RecordActive;
    e := Handles(w, false, k, sh, 0, "c", AskRole, sh, WantPending(Worker));
    e := Handles(e, false, k, sh, 0, "c", WantPending(Worker), sh, WantNodes(Worker));
    e := Works(e, false, k, sh, 0, Handler("c", WantNodes(Worker)), Env(0, true, Closed, Some("t"), []), one, Handler("c", Recording(Worker, "t", pt)));
    e := Handles(e, false, k, one, 0, "c", Recording(Worker, "t", pt), two, Assigning(Worker, "t", pt, true));
    e := Writes(e, false, k, two, Assigning(Worker, "t", pt, true), AssignTask("t", pt.task), WantPending(Worker));
  }

  /** A client whose entry was reaped, and which a peer lists as a worker, is sent a task it never
      asked for, between the acknowledgement and the replies of its own call. */
  lemma ClientIsSentTask() returns (w: Talk)
    ensures IsTalk(w, 0) && Last(w).client == AwaitAck(CALL)
    ensures Last(w).down == [TaskAccepted("1"), AssignTask("t", OTHER)]
  {
    w := IsTakenForWorker();
    var k := Last(w);
    AtRest(k, 0);
    assert W.Unlocked(k.master, 0) && AllSeen(k, SUBMITTED);
    assert !IsActive(SUBMITTED, "t");
    hide Told;
    w := IsSent(w, k, SUBMITTED, PendingTask(OTHER, None));
  }
}
