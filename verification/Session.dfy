/** One client calling `submit_and_wait` again and again on one stream, served by one handler
    of a master whose other threads do as they please. The client never looks at the id in a
    reply; it gets the right answer because replies come in the order of the requests and it
    knows how many it has read - unless two earlier calls have left replies behind. */
module Session {
  import opened Protocol
  import opened Regions
  import opened Machine
  import opened TaskLedger

  /** `ahead` is how many replies were still to come when the call began. */
  datatype Call = Call(id: Id, task: Task, ahead: nat)

  datatype ClientPc =
    | Idle                    // between two calls
    | AwaitAck(call: Call)    // SubmitTask written, reading the acknowledgement
    | Polling(call: Call)     // about to write GetTaskResult
    | AwaitReply(call: Call)  // reading the reply
    | Broken                  // a write or read failed: no call on this stream returns Ok again

  /** A call that returned Ok. */
  datatype Answer = Answer(call: Call, result: TaskResult)

  /** A request whose reply has not been read yet. */
  datatype Due = Ack(id: Id, task: Task) | Result(id: Id)

  /** `up` and `down` are what is in flight; `due` lists the requests whose replies the client has
      not read, oldest first; `unread` counts the calls that timed out with their last reply
      unread; `answers` are the calls that returned Ok; `seen` holds every (id, result) pair
      `completed_tasks` has contained so far. */
  datatype Link = Link(
    master: State,
    up: seq<NodeMessage>,
    down: seq<NodeMessage>,
    client: ClientPc,
    due: seq<Due>,
    unread: nat,
    answers: seq<Answer>,
    seen: set<(Id, TaskResult)>)

  datatype Move =
    | Serve(l: Label)            // a step of any thread of the master
    | Begin(id: Id, task: Task)  // write SubmitTask
    | TakeAck                    // read one message, whatever it is
    | Poll(expired: bool)        // write GetTaskResult, then look at the deadline
    | TakeReply(expired: bool)   // read one message; not a result: look at the deadline
    | TimeOut                    // the deadline passes while waiting for the reply
    | Break                      // a write or read fails

  /** The handler `t` reads what this client wrote, in order; everyone else reads anything. */
  ghost predicate CanMove(k: Link, t: Tid, v: Move) {
    match v
    case Serve(l) =>
      && Enabled(k.master, l)
      && (l.Move? && l.t == t && IsReading(k.master.threads[t]) ==>
            l.env.input.Closed? || (k.up != [] && l.env.input == Msg(k.up[0])))
    case Begin(_, _) => k.client.Idle?
    case TakeAck => k.client.AwaitAck? && k.down != []
    case Poll(_) => k.client.Polling?
    case TakeReply(_) => k.client.AwaitReply? && k.down != []
    case TimeOut => k.client.AwaitReply?
    case Break => !k.client.Idle?
  }

  predicate IsReading(th: Thread) {
    th.Handler? && th.at.Reading?
  }

  ghost function Pairs(completed: map<Id, TaskResult>): set<(Id, TaskResult)> {
    completed.Items
  }

  ghost function Served(k: Link, t: Tid, l: Label): Link {
    var m := Apply(k.master, l);
    var mine := l.Move? && l.t == t && t in k.master.threads;
    var out := if mine then EffectOf(k.master, t, l.env).out else Silent;
    k.(master := m,
       up := if mine && IsReading(k.master.threads[t]) && l.env.input.Msg? && k.up != [] then k.up[1..] else k.up,
       down := if out.Sent? then k.down + [out.m] else k.down,
       seen := k.seen + Pairs(m.sh.completed))
  }

  function Rest(due: seq<Due>): seq<Due> {
    if due == [] then [] else due[1..]
  }

  ghost function Moved(k: Link, t: Tid, v: Move): Link {
    match v
    case Serve(l) => Served(k, t, l)
    case Begin(id, task) =>
      k.(up := k.up + [SubmitTask(id, task)], due := k.due + [Ack(id, task)], client := AwaitAck(Call(id, task, |k.due|)))
    case TakeAck =>
      if k.client.AwaitAck? && k.down != [] then
        k.(down := k.down[1..], due := Rest(k.due), client := Polling(k.client.call))
      else k
    case Poll(expired) =>
      if k.client.Polling? then
        var k' := k.(up := k.up + [GetTaskResult(k.client.call.id)], due := k.due + [Result(k.client.call.id)]);
        if expired then k'.(client := Idle, unread := k.unread + 1) else k'.(client := AwaitReply(k.client.call))
      else k
    case TakeReply(expired) =>
      if k.client.AwaitReply? && k.down != [] then
        var k' := k.(down := k.down[1..], due := Rest(k.due));
        if k.down[0].ResultOf? then
          k'.(client := Idle, answers := k.answers + [Answer(k.client.call, k.down[0].result)])
        else k'.(client := if expired then Idle else Polling(k.client.call))
      else k
    case TimeOut => k.(client := Idle, unread := k.unread + 1)
    case Break => k.(client := Broken)
  }

  datatype Talk = Talk(links: seq<Link>, moves: seq<Move>)

  ghost predicate TalkStep(w: Talk, t: Tid, i: nat)
    requires i < |w.moves| && |w.links| == |w.moves| + 1
  {
    CanMove(w.links[i], t, w.moves[i]) && w.links[i + 1] == Moved(w.links[i], t, w.moves[i])
  }

  ghost predicate IsFreshLink(k: Link, t: Tid) {
    && DistinctAddrs(k.master.threads)
    && t in k.master.threads && k.master.threads[t].Handler? && k.master.threads[t].at.Joining?
    && k.up == k.down == [] && k.client.Idle? && k.due == [] && k.unread == 0 && k.answers == []
    && k.seen == Pairs(k.master.sh.completed)
  }

  /** The stream is fresh: the handler has just accepted the token. */
  ghost predicate IsTalk(w: Talk, t: Tid) {
    && |w.links| == |w.moves| + 1
    && IsFreshLink(w.links[0], t)
    && forall i: nat :: i < |w.moves| ==> TalkStep(w, t, i)
  }

  // ---------- the client is never taken for a worker ----------

  /** Another master's node table lists this client as a worker, and its own entry is gone. */
  predicate MakesWorker(s: State, t: Tid, l: Label) {
    && l.Move? && l.t in s.threads && t in s.threads && s.threads[t].Handler?
    && s.threads[l.t].Peer? && s.threads[l.t].sync.MergingNodes?
    && var addr, nodes := s.threads[t].addr, s.threads[l.t].sync.ps.nodes;
    addr !in s.sh.nodes && addr in nodes && nodes[addr].isWorker
  }

  ghost predicate NeverMadeWorker(w: Talk, t: Tid)
    requires |w.links| == |w.moves| + 1
  {
    forall i: nat :: i < |w.moves| && w.moves[i].Serve? ==> !MakesWorker(w.links[i].master, t, w.moves[i].l)
  }

  /** The pcs a handler goes through for a client that only submits and polls. */
  predicate ClientPcs(at: HandlerPc) {
    || at.Joining? || at.AskRole? || at.Reading? || at.Enqueuing? || at.Looking? || at.Replying? || at.Closing? || at.Gone?
  }

  predicate NoWorker(sh: Shared, addr: Addr) {
    addr in sh.nodes ==> !sh.nodes[addr].isWorker
  }

  predicate ServesClient(sh: Shared, th: Thread) {
    th.Handler? && ClientPcs(th.at) && (!th.at.Joining? && !th.at.Gone? ==> NoWorker(sh, th.addr))
  }

  lemma OtherHandlersKeepNoWorker(sh: Shared, a: Addr, at: HandlerPc, env: Env, addr: Addr)
    requires NoWorker(sh, addr) && a != addr
    ensures NoWorker(ActHandler(sh, a, at, env).0, addr)
  {
    hide ActHandler;
    HandlerOwnEntry(sh, a, at, env, addr);
  }

  lemma OthersKeepNoWorker(sh: Shared, th: Thread, env: Env, addr: Addr)
    requires NoWorker(sh, addr)
    requires th.Handler? ==> th.addr != addr || th.at.Gone?
    requires th.Peer? && th.sync.MergingNodes? && addr !in sh.nodes && addr in th.sync.ps.nodes ==>
               !th.sync.ps.nodes[addr].isWorker
    ensures NoWorker(Act(sh, th, env).sh, addr)
  {
    match th
    case Handler(a, at) =>
      if a != addr {
        hide ActHandler, NoWorker;
        OtherHandlersKeepNoWorker(sh, a, at, env, addr);
      }
    case _ =>
  }

  /** A step of another thread makes a connected client a worker exactly in that case. */
  lemma MadeWorkerExactly(s: State, t: Tid, l: Label)
    requires Enabled(s, l) && DistinctAddrs(s.threads) && t in s.threads && IsLive(s.threads[t]) && !(l.Move? && l.t == t)
    requires NoWorker(s.sh, s.threads[t].addr)
    ensures !NoWorker(Apply(s, l).sh, s.threads[t].addr) <==> MakesWorker(s, t, l)
  {
    if l.Move? && !MakesWorker(s, t, l) {
      hide Act;
      OthersKeepNoWorker(s.sh, s.threads[l.t], l.env, s.threads[t].addr);
    }
  }

  // ---------- replies in the order of the requests ----------

  predicate IsRequest(m: NodeMessage, d: Due) {
    match d
    case Ack(id, task) => m == SubmitTask(id, task)
    case Result(id) => m == GetTaskResult(id)
  }

  ghost predicate IsReply(m: NodeMessage, d: Due, seen: set<(Id, TaskResult)>) {
    match d
    case Ack(id, _) => m == TaskAccepted(id)
    case Result(id) => m.DirectMessage? || (m.ResultOf? && m.id == id && (id, m.result) in seen)
  }

  /** The handler is in the middle of serving a request. */
  predicate Busy(at: HandlerPc) {
    at.Enqueuing? || at.Looking? || at.Replying?
  }

  ghost predicate WorksOn(at: HandlerPc, d: Due, seen: set<(Id, TaskResult)>) {
    match at
    case Enqueuing(id, task) => d == Ack(id, task)
    case Looking(id) => d == Result(id)
    case Replying(m) => IsReply(m, d, seen)
    case _ => true
  }

  function One(b: bool): nat {
    if b then 1 else 0
  }

  /** What is due is, in order: the replies in flight, the request being served, the requests in
      flight - as long as the handler is there; then the rest never comes. */
  ghost predicate InOrder(k: Link, at: HandlerPc) {
    && |k.down| + One(Busy(at)) + |k.up| <= |k.due|
    && (forall i :: 0 <= i < |k.down| ==> IsReply(k.down[i], k.due[i], k.seen))
    && (Busy(at) ==> WorksOn(at, k.due[|k.down|], k.seen))
    && (!at.Closing? && !at.Gone? ==> |k.down| + One(Busy(at)) + |k.up| == |k.due|)
    && (!at.Closing? && !at.Gone? ==>
          forall j :: 0 <= j < |k.up| ==> IsRequest(k.up[j], k.due[|k.down| + One(Busy(at)) + j]))
  }

  /** `due` counts what earlier calls left behind. */
  ghost predicate Counted(k: Link) {
    match k.client
    case Idle => |k.due| == k.unread
    case AwaitAck(c) => c.ahead == k.unread && |k.due| == k.unread + 1
    case Polling(c) => c.ahead == k.unread && |k.due| == k.unread
    case AwaitReply(c) => c.ahead == k.unread && |k.due| == k.unread + 1
    case Broken => true
  }

  ghost predicate AllOf(due: seq<Due>, id: Id) {
    forall i :: 0 <= i < |due| ==> due[i].id == id
  }

  /** A call that began with at most one reply to come: the first thing it reads swallows that
      reply, and from then on everything due is its own. */
  ghost predicate Own(k: Link) {
    match k.client
    case AwaitAck(c) => c.ahead <= 1 ==> |k.due| > 0 && AllOf(k.due[1..], c.id)
    case Polling(c) => c.ahead <= 1 ==> AllOf(k.due, c.id)
    case AwaitReply(c) => c.ahead <= 1 ==> AllOf(k.due, c.id)
    case _ => true
  }

  ghost predicate AnswersSeen(k: Link) {
    forall i :: 0 <= i < |k.answers| && k.answers[i].call.ahead <= 1 ==>
      (k.answers[i].call.id, k.answers[i].result) in k.seen
  }

  /** What holds at every point of a talk. */
  ghost predicate InStep(k: Link, t: Tid) {
    && t in k.master.threads
    && DistinctAddrs(k.master.threads)
    && ServesClient(k.master.sh, k.master.threads[t])
    && InOrder(k, k.master.threads[t].at)
    && Pairs(k.master.sh.completed) <= k.seen
    && (k.client.Broken? || (Counted(k) && Own(k)))
    && AnswersSeen(k)
  }

  // ---------- steps of the master ----------

  lemma ServedByOther(k: Link, t: Tid, l: Label)
    requires InStep(k, t) && CanMove(k, t, Serve(l)) && !MakesWorker(k.master, t, l)
    requires !(l.Move? && l.t == t)
    ensures InStep(Served(k, t, l), t)
  {
    StepKeepsDistinct(k.master, l);
    OthersKeepServing(k, t, l);
    hide ServesClient, DistinctAddrs, NoWorker, Enabled, MakesWorker;
    SeenGrows(k, Served(k, t, l), k.master.threads[t].at);
  }

  lemma OthersKeepServing(k: Link, t: Tid, l: Label)
    requires InStep(k, t) && CanMove(k, t, Serve(l)) && !MakesWorker(k.master, t, l)
    requires !(l.Move? && l.t == t)
    ensures t in Apply(k.master, l).threads && Apply(k.master, l).threads[t] == k.master.threads[t]
    ensures ServesClient(Apply(k.master, l).sh, k.master.threads[t])
  {
    if l.Move? {
      var th, mine := k.master.threads[l.t], k.master.threads[t];
      if !mine.at.Joining? && !mine.at.Gone? {
        hide Act;
        OthersKeepNoWorker(k.master.sh, th, l.env, mine.addr);
      }
    }
  }

  /** Only `seen` has grown. */
  lemma SeenGrows(k: Link, k': Link, at: HandlerPc)
    requires InOrder(k, at) && AnswersSeen(k) && k.seen <= k'.seen
    requires k'.up == k.up && k'.down == k.down && k'.due == k.due && k'.answers == k.answers
    ensures InOrder(k', at) && AnswersSeen(k')
  {
  }

  /** The client's own handler never leaves the pcs of a client, and never writes on its own; `d` is
      the request it works on or reads. */
  lemma OwnPcs(sh: Shared, addr: Addr, at: HandlerPc, env: Env, d: Due, seen: set<(Id, TaskResult)>)
    requires ServesClient(sh, Handler(addr, at)) && !at.Gone? && Pairs(sh.completed) <= seen
    requires at.Reading? ==> env.input.Closed? || (env.input.Msg? && IsRequest(env.input.m, d))
    requires WorksOn(at, d, seen)
    ensures var (sh', at', out) := ActHandler(sh, addr, at, env);
            && ServesClient(sh', Handler(addr, at')) && sh'.completed == sh.completed
            && OwnStep(at, env, at', out) && WorksOn(at', d, seen)
  {
  }

  /** One step of the client's handler, as the two streams see it. */
  predicate OwnStep(at: HandlerPc, env: Env, at': HandlerPc, out: Output) {
    && (out.Sent? <==> at.Replying? && env.ok) && (out.Sent? ==> out == Sent(at.m) && at'.AskRole?)
    && (at.Replying? && !env.ok ==> at'.Gone?)
    && (at.Closing? ==> at'.Gone?)
    && (at.Joining? || at.AskRole? ==> at'.AskRole? || at'.Reading?)
    && (at.Reading? ==> if env.input.Msg? then Busy(at') else at'.Closing?)
    && (at.Enqueuing? || at.Looking? ==> at'.Replying?)
  }

  lemma OwnEffect(k: Link, t: Tid, l: Label)
    requires t in k.master.threads && k.master.threads[t].Handler? && l.Move? && l.t == t
    ensures var th := k.master.threads[t];
            var (sh', at', out) := ActHandler(k.master.sh, th.addr, th.at, l.env);
            var m := Served(k, t, l).master;
            && m == Apply(k.master, l) && m.sh == sh' && t in m.threads && m.threads[t] == Handler(th.addr, at')
            && EffectOf(k.master, t, l.env).out == out
  {
    hide ActHandler;
  }

  lemma OwnThread(sh: Shared, th: Thread)
    requires ServesClient(sh, th)
    ensures th.Handler? && ClientPcs(th.at)
  {
  }

  /** The request the handler works on or is about to read. */
  function Current(k: Link): Due {
    if |k.down| < |k.due| then k.due[|k.down|] else Result("")
  }

  lemma CurrentIs(k: Link, at: HandlerPc)
    requires InOrder(k, at)
    ensures WorksOn(at, Current(k), k.seen)
    ensures at.Reading? && k.up != [] ==> IsRequest(k.up[0], Current(k))
  {
    hide IsReply, IsRequest;
  }

  lemma OrderAfterRead(k: Link, k': Link, at: HandlerPc, at': HandlerPc)
    requires InOrder(k, at) && at.Reading? && k.up != [] && Busy(at') && WorksOn(at', Current(k), k.seen)
    requires k'.due == k.due && k'.seen == k.seen && k'.up == k.up[1..] && k'.down == k.down
    ensures InOrder(k', at')
  {
    hide IsReply, IsRequest, WorksOn;
    forall j | 0 <= j < |k'.up| ensures IsRequest(k'.up[j], k'.due[|k'.down| + 1 + j]) {
      assert k'.up[j] == k.up[j + 1];
    }
  }

  lemma OrderAfterReply(k: Link, k': Link, at: HandlerPc)
    requires InOrder(k, at) && at.Replying?
    requires k'.due == k.due && k'.seen == k.seen && k'.up == k.up && k'.down == k.down + [at.m]
    ensures InOrder(k', AskRole)
  {
    assert IsReply(at.m, k.due[|k.down|], k.seen);
    hide IsReply, IsRequest;
  }

  /** Nothing read or written. */
  lemma OrderAfterWork(k: Link, k': Link, at: HandlerPc, at': HandlerPc)
    requires InOrder(k, at) && (Busy(at') ==> Busy(at) && WorksOn(at', Current(k), k.seen))
    requires at.Closing? ==> at'.Gone?
    requires Busy(at) && !Busy(at') ==> at'.Gone?
    requires k'.due == k.due && k'.seen == k.seen && k'.up == k.up && k'.down == k.down && !at.Gone?
    ensures InOrder(k', at')
  {
    hide IsReply, IsRequest, WorksOn;
  }

  /** The two streams move on together with the handler. */
  lemma OrderKept(k: Link, k': Link, at: HandlerPc, env: Env, at': HandlerPc, out: Output)
    requires InOrder(k, at) && ClientPcs(at) && !at.Gone? && OwnStep(at, env, at', out) && WorksOn(at', Current(k), k.seen)
    requires k'.due == k.due && k'.seen == k.seen
    requires at.Reading? && env.input.Msg? ==> k.up != []
    requires k'.up == if at.Reading? && env.input.Msg? then k.up[1..] else k.up
    requires k'.down == if out.Sent? then k.down + [out.m] else k.down
    ensures InOrder(k', at')
  {
    hide InOrder, WorksOn;
    if at.Replying? && env.ok {
      OrderAfterReply(k, k', at);
    } else if at.Reading? && env.input.Msg? {
      OrderAfterRead(k, k', at, at');
    } else {
      OrderAfterWork(k, k', at, at');
    }
  }

  lemma ServedByOwn(k: Link, t: Tid, l: Label)
    requires InStep(k, t) && CanMove(k, t, Serve(l))
    requires l.Move? && l.t == t
    ensures InStep(Served(k, t, l), t)
  {
    StepKeepsDistinct(k.master, l);
    var th, k' := k.master.threads[t], Served(k, t, l);
    OwnEffect(k, t, l);
    OwnThread(k.master.sh, th);
    CurrentIs(k, th.at);
    hide ActHandler, ServesClient, DistinctAddrs, NoWorker, Apply, EffectOf, InOrder, AnswersSeen, OwnStep, WorksOn;
    var (sh', at', out) := ActHandler(k.master.sh, th.addr, th.at, l.env);
    OwnPcs(k.master.sh, th.addr, th.at, l.env, Current(k), k.seen);
    hide IsRequest;
    OrderKept(k, k'.(seen := k.seen), th.at, l.env, at', out);
    SeenGrows(k'.(seen := k.seen), k', at');
  }

  lemma ServeKeeps(k: Link, t: Tid, l: Label)
    requires InStep(k, t) && CanMove(k, t, Serve(l)) && !MakesWorker(k.master, t, l)
    ensures InStep(Served(k, t, l), t)
  {
    if l.Move? && l.t == t {
      ServedByOwn(k, t, l);
    } else {
      ServedByOther(k, t, l);
    }
  }

  // ---------- steps of the client ----------

  lemma WritesInOrder(k: Link, k': Link, at: HandlerPc, m: NodeMessage, d: Due)
    requires InOrder(k, at) && IsRequest(m, d)
    requires k'.up == k.up + [m] && k'.due == k.due + [d] && k'.down == k.down && k'.seen == k.seen
    ensures InOrder(k', at)
  {
    hide IsReply, IsRequest;
  }

  lemma ReadsInOrder(k: Link, k': Link, at: HandlerPc)
    requires InOrder(k, at) && k.down != []
    requires k'.up == k.up && k'.due == Rest(k.due) && k'.down == k.down[1..] && k'.seen == k.seen
    ensures InOrder(k', at) && IsReply(k.down[0], k.due[0], k.seen)
  {
    hide IsReply, IsRequest;
  }

  lemma ClientOrder(k: Link, t: Tid, v: Move)
    requires InStep(k, t) && CanMove(k, t, v) && !v.Serve?
    ensures InOrder(Moved(k, t, v), k.master.threads[t].at)
  {
    var k', at := Moved(k, t, v), k.master.threads[t].at;
    hide IsReply, IsRequest, ServesClient, DistinctAddrs, AnswersSeen, Own, Counted;
    match v
    case Begin(id, task) =>
      assert IsRequest(SubmitTask(id, task), Ack(id, task)) by { BothRequests(id, task); }
      WritesInOrder(k, k', at, SubmitTask(id, task), Ack(id, task));
    case Poll(_) =>
      BothRequests(k.client.call.id, GetStorage);
      WritesInOrder(k, k', at, GetTaskResult(k.client.call.id), Result(k.client.call.id));
    case TakeAck => ReadsInOrder(k, k', at);
    case TakeReply(_) => ReadsInOrder(k, k', at);
    case TimeOut =>
    case Break =>
  }

  lemma BothRequests(id: Id, task: Task)
    ensures IsRequest(SubmitTask(id, task), Ack(id, task)) && IsRequest(GetTaskResult(id), Result(id))
  {
  }

  lemma ClientCounts(k: Link, t: Tid, v: Move)
    requires InStep(k, t) && CanMove(k, t, v) && !v.Serve?
    ensures var k' := Moved(k, t, v); k'.client.Broken? || (Counted(k') && Own(k'))
  {
    hide IsReply, IsRequest, ServesClient, DistinctAddrs, AnswersSeen;
  }

  lemma ClientAnswers(k: Link, t: Tid, v: Move)
    requires InStep(k, t) && CanMove(k, t, v) && !v.Serve?
    ensures AnswersSeen(Moved(k, t, v))
  {
    hide ServesClient, DistinctAddrs, Counted;
    if v.TakeReply? {
      assert IsReply(k.down[0], k.due[0], k.seen);
    }
  }

  lemma ClientMoves(k: Link, t: Tid, v: Move)
    requires InStep(k, t) && CanMove(k, t, v) && !v.Serve?
    ensures InStep(Moved(k, t, v), t)
  {
    ClientOrder(k, t, v);
    ClientCounts(k, t, v);
    ClientAnswers(k, t, v);
    hide ServesClient, DistinctAddrs, InOrder, Counted, Own, AnswersSeen;
  }

  // ---------- whole talks ----------

  lemma StartsInStep(k: Link, t: Tid)
    requires IsFreshLink(k, t)
    ensures InStep(k, t)
  {
  }

  lemma {:induction false} StaysInStep(w: Talk, t: Tid, n: nat)
    requires IsTalk(w, t) && NeverMadeWorker(w, t) && n <= |w.moves|
    ensures InStep(w.links[n], t)
  {
    if n == 0 {
      StartsInStep(w.links[0], t);
    } else {
      StaysInStep(w, t, n - 1);
      assert TalkStep(w, t, n - 1);
      var k, v := w.links[n - 1], w.moves[n - 1];
      hide InStep, CanMove, MakesWorker;
      if v.Serve? {
        ServeKeeps(k, t, v.l);
      } else {
        ClientMoves(k, t, v);
      }
    }
  }

  /** Between two calls exactly the replies that timed-out calls have left unread are still to come;
      when there are none, nothing is in flight. */
  lemma OneReplyPerRequest(w: Talk, t: Tid, n: nat)
    requires IsTalk(w, t) && NeverMadeWorker(w, t) && n <= |w.moves| && w.links[n].client.Idle?
    ensures |w.links[n].down| + |w.links[n].up| <= |w.links[n].due| == w.links[n].unread
  {
    StaysInStep(w, t, n);
  }

  /** A call begins with as many replies to come as calls before it have left unread. */
  lemma AheadIsUnread(w: Talk, t: Tid, n: nat)
    requires IsTalk(w, t) && NeverMadeWorker(w, t) && n < |w.moves| && w.moves[n].Begin?
    ensures w.links[n + 1].client == AwaitAck(Call(w.moves[n].id, w.moves[n].task, w.links[n].unread))
  {
    StaysInStep(w, t, n);
    assert TalkStep(w, t, n);
  }

  /** Each Ok of a call that began with at most one reply to come is a value the master had on file
      for that very call's id. */
  lemma AnswersBelongToTheirCalls(w: Talk, t: Tid, n: nat, i: nat)
    requires IsTalk(w, t) && NeverMadeWorker(w, t) && n <= |w.moves| && i < |w.links[n].answers|
    requires w.links[n].answers[i].call.ahead <= 1
    ensures exists j: nat ::
              && j <= n && var done, a := w.links[j].master.sh.completed, w.links[n].answers[i];
              a.call.id in done && done[a.call.id] == a.result
  {
    StaysInStep(w, t, n);
    SeenSometime(w, t, n, w.links[n].answers[i].call.id, w.links[n].answers[i].result);
  }

  lemma {:induction false} SeenSometime(w: Talk, t: Tid, n: nat, id: Id, result: TaskResult)
    requires IsTalk(w, t) && n <= |w.moves| && (id, result) in w.links[n].seen
    ensures exists j: nat ::
              && j <= n && var done := w.links[j].master.sh.completed;
              id in done && done[id] == result
  {
    if n > 0 && (id, result) in w.links[n - 1].seen {
      SeenSometime(w, t, n - 1, id, result);
    } else if n > 0 {
      assert TalkStep(w, t, n - 1);
      assert (id, result) in Pairs(w.links[n].master.sh.completed);
    } else {
      assert (id, result) in Pairs(w.links[0].master.sh.completed);
    }
  }

  /** The call is in progress or has been answered. */
  ghost predicate Known(k: Link, id: Id, task: Task) {
    || (k.client.AwaitAck? && k.client.call.id == id && k.client.call.task == task)
    || (k.client.Polling? && k.client.call.id == id && k.client.call.task == task)
    || (k.client.AwaitReply? && k.client.call.id == id && k.client.call.task == task)
    || exists i :: 0 <= i < |k.answers| && k.answers[i].call.id == id && k.answers[i].call.task == task
  }

  /** Every call in progress and every answer goes back to a `SubmitTask` with its id and task. */
  lemma {:induction false} CallsWereBegun(w: Talk, t: Tid, n: nat, id: Id, task: Task)
    requires IsTalk(w, t) && n <= |w.moves| && Known(w.links[n], id, task)
    ensures exists j: nat :: j < n && w.moves[j] == Begin(id, task)
  {
    if n > 0 {
      assert TalkStep(w, t, n - 1);
      if w.moves[n - 1] != Begin(id, task) {
        MoveKeepsCall(w.links[n - 1], t, w.moves[n - 1], id, task);
        CallsWereBegun(w, t, n - 1, id, task);
      }
    }
  }

  lemma MoveKeepsCall(k: Link, t: Tid, v: Move, id: Id, task: Task)
    requires CanMove(k, t, v) && v != Begin(id, task) && Known(Moved(k, t, v), id, task)
    ensures Known(k, id, task)
  {
    var answers := Moved(k, t, v).answers;
    if i :| 0 <= i < |answers| && answers[i].call.id == id && answers[i].call.task == task {
      if i < |k.answers| {
        assert k.answers[i] == answers[i];
      }
    }
  }
}
