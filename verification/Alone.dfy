/** The two views of the master agree: a thread of the machine that runs with nobody else
    moving does what the sequential method does. */
module Alone {
  import opened Protocol
  import opened Regions
  import opened Machine
  import opened MasterNode
  import opened Gossip
  import opened Counting

  /** The handler is between two requests, or has left the loop. */
  predicate AtRest(at: HandlerPc) {
    at.AskRole? || at.Closing? || at.Gone?
  }

  function Written(out: Output): seq<NodeMessage> {
    if out.Sent? then [out.m] else []
  }

  /** At most `fuel` steps of one handler, until it is at rest: the collections, where it stops,
      and what it has written. */
  function Undisturbed(sh: Shared, addr: Addr, at: HandlerPc, env: Env, fuel: nat): (Shared, HandlerPc, seq<NodeMessage>)
    decreases fuel
  {
    if fuel == 0 || AtRest(at) then (sh, at, [])
    else
      var (sh', at', out) := ActHandler(sh, addr, at, env);
      var (last, rest, sent) := Undisturbed(sh', addr, at', env, fuel - 1);
      (last, rest, Written(out) + sent)
  }

  lemma SilentStep(sh: Shared, addr: Addr, at: HandlerPc, env: Env, fuel: nat)
    requires fuel > 0 && !AtRest(at) && ActHandler(sh, addr, at, env).2.Silent?
    ensures var (sh', at', _) := ActHandler(sh, addr, at, env);
            Undisturbed(sh, addr, at, env, fuel) == Undisturbed(sh', addr, at', env, fuel - 1)
  {
    hide ActHandler;
    var (sh', at', out) := ActHandler(sh, addr, at, env);
    assert [] + Undisturbed(sh', addr, at', env, fuel - 1).2 == Undisturbed(sh', addr, at', env, fuel - 1).2;
  }

  lemma Replies(sh: Shared, addr: Addr, m: NodeMessage, env: Env, fuel: nat)
    requires fuel > 0
    ensures Undisturbed(sh, addr, Replying(m), env, fuel) ==
            (sh, if env.ok then AskRole else Gone, if env.ok then [m] else [])
  {
    var at' := if env.ok then AskRole else Gone;
    assert ActHandler(sh, addr, Replying(m), env) == (sh, at', if env.ok then Sent(m) else Silent);
    Rests(sh, addr, at', env, fuel - 1);
    hide ActHandler;
    assert [m] + [] == [m] && Written(Silent) + [] == [];
  }

  lemma Rests(sh: Shared, addr: Addr, at: HandlerPc, env: Env, fuel: nat)
    requires AtRest(at)
    ensures Undisturbed(sh, addr, at, env, fuel) == (sh, at, [])
  {
  }

  /** The thread does to the collections, and writes, what `HandleRequest` does, and goes on
      exactly when that says so. */
  ghost predicate AsHandled(sh: Shared, addr: Addr, m: NodeMessage, env: Env, done: (Shared, HandlerPc, seq<NodeMessage>)) {
    var answer := Answer(sh, m, env.order);
    && done.0 == Handled(sh, addr, m, env.now)
    && done.2 == (if env.ok then answer else [])
    && done.1 == (if m.Disconnect? then Closing else if answer != [] && !env.ok then Gone else AskRole)
  }

  lemma SectionAndReply(sh: Shared, addr: Addr, m: NodeMessage, sh': Shared, reply: NodeMessage, env: Env)
    requires var at := Request(m); !AtRest(at) && ActHandler(sh, addr, at, env) == (sh', Replying(reply), Silent)
    requires sh' == Handled(sh, addr, m, env.now) && Answer(sh, m, env.order) == [reply] && !m.Disconnect?
    ensures AsHandled(sh, addr, m, env, Undisturbed(sh, addr, Request(m), env, 4))
  {
    hide ActHandler, Undisturbed, Handled, Answer, Request;
    SilentStep(sh, addr, Request(m), env, 4);
    Replies(sh', addr, reply, env, 3);
  }

  lemma AnnouncementAlone(sh: Shared, addr: Addr, role: NodeRole, env: Env)
    ensures AsHandled(sh, addr, RegisterRole(role), env, Undisturbed(sh, addr, Announcing(role), env, 4))
  {
    hide Undisturbed;
    SilentStep(sh, addr, Announcing(role), env, 4);
    Rests(SetRole(sh, addr, role), addr, AskRole, env, 3);
  }

  lemma UnknownAlone(sh: Shared, addr: Addr, m: NodeMessage, env: Env)
    requires Request(m).AskRole?
    ensures AsHandled(sh, addr, m, env, Undisturbed(sh, addr, AskRole, env, 4))
  {
    Rests(sh, addr, AskRole, env, 4);
  }

  /** A whole request, section by section, ends where `HandleRequest` ends. */
  lemma RequestAlone(sh: Shared, addr: Addr, m: NodeMessage, env: Env)
    ensures AsHandled(sh, addr, m, env, Undisturbed(sh, addr, Request(m), env, 4))
  {
    hide Undisturbed, AsHandled;
    match m
    case RequestConnection(target) => ConnectionAlone(sh, addr, target, env);
    case Disconnect => DisconnectAlone(sh, addr, env);
    case ResultOf(id, result) => ResultAlone(sh, addr, id, result, env);
    case RegisterRole(role) => AnnouncementAlone(sh, addr, role, env);
    case GetConnectedNodes => SectionAndReply(sh, addr, m, sh, ConnectedNodes(env.order), env);
    case SubmitTask(id, task) =>
      SectionAndReply(sh, addr, m, Enqueue(sh, id, PendingTask(task, None)), TaskAccepted(id), env);
    case GetTaskResult(id) =>
      var reply := if id in sh.completed then ResultOf(id, sh.completed[id]) else DirectMessage("Pending");
      SectionAndReply(sh, addr, m, sh, reply, env);
    case Heartbeat => SectionAndReply(sh, addr, m, Beat(sh, addr, env.now), HeartbeatAck, env);
    case _ => UnknownAlone(sh, addr, m, env);
  }

  lemma ResultSteps(sh: Shared, addr: Addr, id: Id, result: TaskResult, env: Env)
    ensures ActHandler(sh, addr, Finishing(id, result), env) == (DropActive(sh, addr, id), Unqueuing(id, result), Silent)
    ensures ActHandler(sh, addr, Unqueuing(id, result), env) == (RemovePending(sh, id), Completing(id, result), Silent)
    ensures ActHandler(sh, addr, Completing(id, result), env) == (Complete(sh, id, result), AskRole, Silent)
  {
  }

  lemma ResultAlone(sh: Shared, addr: Addr, id: Id, result: TaskResult, env: Env)
    ensures AsHandled(sh, addr, ResultOf(id, result), env, Undisturbed(sh, addr, Finishing(id, result), env, 4))
  {
    hide Undisturbed, ActHandler, DropActive;
    var one, two := DropActive(sh, addr, id), RemovePending(DropActive(sh, addr, id), id);
    ResultSteps(sh, addr, id, result, env);
    ResultSteps(one, addr, id, result, env);
    ResultSteps(two, addr, id, result, env);
    SilentStep(sh, addr, Finishing(id, result), env, 4);
    SilentStep(one, addr, Unqueuing(id, result), env, 3);
    SilentStep(two, addr, Completing(id, result), env, 2);
    Rests(Complete(two, id, result), addr, AskRole, env, 1);
  }

  lemma ConnectionSteps(sh: Shared, addr: Addr, target: Addr, p: Port, env: Env)
    ensures sh.ports == [] ==> ActHandler(sh, addr, Allocating(target), env) == (sh, AskRole, Silent)
    ensures sh.ports != [] ==>
              ActHandler(sh, addr, Allocating(target), env) == (PopPort(sh), Storing(target, sh.ports[0]), Silent)
    ensures ActHandler(sh, addr, Storing(target, p), env) == (StorePort(sh, addr, p), Locating(target, p), Silent)
    ensures ActHandler(sh, addr, Locating(target, p), env) ==
            (sh, if target in sh.nodes then Replying(ConnectionInfo(sh.nodes[target].addr, p)) else AskRole, Silent)
  {
  }

  lemma ConnectionAlone(sh: Shared, addr: Addr, target: Addr, env: Env)
    ensures AsHandled(sh, addr, RequestConnection(target), env, Undisturbed(sh, addr, Allocating(target), env, 4))
  {
    hide Undisturbed, ActHandler;
    ConnectionSteps(sh, addr, target, 0, env);
    SilentStep(sh, addr, Allocating(target), env, 4);
    if sh.ports == [] {
      Rests(sh, addr, AskRole, env, 3);
    } else {
      var p, one := sh.ports[0], PopPort(sh);
      var two := StorePort(one, addr, p);
      ConnectionSteps(one, addr, target, p, env);
      ConnectionSteps(two, addr, target, p, env);
      SilentStep(one, addr, Storing(target, p), env, 3);
      SilentStep(two, addr, Locating(target, p), env, 2);
      if target in two.nodes {
        Replies(two, addr, ConnectionInfo(two.nodes[target].addr, p), env, 1);
      } else {
        Rests(two, addr, AskRole, env, 1);
      }
    }
  }

  lemma DisconnectSteps(sh: Shared, addr: Addr, p: Port, env: Env)
    ensures ActHandler(sh, addr, Releasing, env) ==
            (ClearPort(sh, addr), if PortOf(sh, addr).Some? then Returning(PortOf(sh, addr).value) else Leaving, Silent)
    ensures ActHandler(sh, addr, Returning(p), env) == (PushPort(sh, p), Leaving, Silent)
    ensures ActHandler(sh, addr, Leaving, env) == (RemoveNode(sh, addr), Closing, Silent)
  {
  }

  lemma NothingToClear(sh: Shared, addr: Addr)
    ensures PortOf(sh, addr).None? ==> ClearPort(sh, addr) == sh
    ensures PortOf(ClearPort(sh, addr), addr).None?
  {
  }

  lemma DisconnectAlone(sh: Shared, addr: Addr, env: Env)
    ensures AsHandled(sh, addr, Disconnect, env, Undisturbed(sh, addr, Releasing, env, 4))
  {
    var p, one := PortOf(sh, addr), ClearPort(sh, addr);
    NothingToClear(sh, addr);
    hide Undisturbed, ActHandler, PortOf, ClearPort, PushPort, RemoveNode;
    DisconnectSteps(sh, addr, 0, env);
    SilentStep(sh, addr, Releasing, env, 4);
    if p.Some? {
      DisconnectSteps(one, addr, p.value, env);
      var two := PushPort(one, p.value);
      DisconnectSteps(two, addr, 0, env);
      SilentStep(one, addr, Returning(p.value), env, 3);
      SilentStep(two, addr, Leaving, env, 2);
      Rests(RemoveNode(two, addr), addr, Closing, env, 1);
    } else {
      DisconnectSteps(one, addr, 0, env);
      SilentStep(one, addr, Leaving, env, 3);
      Rests(RemoveNode(one, addr), addr, Closing, env, 2);
    }
  }

  lemma DispatchSteps(sh: Shared, addr: Addr, role: NodeRole, id: Id, pt: PendingTask, env: Env)
    ensures id in sh.pending && env.pick == Some(id) ==>
              ActHandler(sh, addr, WantNodes(role), env) == (RemovePending(sh, id), Recording(role, id, sh.pending[id]), Silent)
    ensures ActHandler(sh, addr, Recording(role, id, pt), env) ==
            (RecordActive(sh, addr, id, pt.task), Assigning(role, id, pt, addr in sh.nodes), Silent)
    ensures ActHandler(sh, addr, Requeuing(id, pt), env) == (Enqueue(sh, id, pt), Unrecording(id), Silent)
    ensures ActHandler(sh, addr, Unrecording(id), env) == (DropActive(sh, addr, id), Reading, Silent)
  {
  }

  /** One dispatch iteration after the search has picked `id`: assigned when the write
      succeeds, and exactly the state before the search when it fails. */
  lemma DispatchAlone(sh: Shared, addr: Addr, role: NodeRole, id: Id, env: Env)
    requires Eligible(sh, addr, role, id) && env.pick == Some(id)
    ensures var (one, at1, _) := ActHandler(sh, addr, WantNodes(role), env);
            var (two, at2, _) := ActHandler(one, addr, at1, env);
            var (three, at3, out) := ActHandler(two, addr, at2, env);
            if env.ok then
              three == Assign(sh, addr, id) && at3 == WantPending(role) && out == Sent(AssignTask(id, sh.pending[id].task))
            else
              var (four, at4, _) := ActHandler(three, addr, at3, env);
              var (five, at5, _) := ActHandler(four, addr, at4, env);
              five == sh && at5 == Reading
  {
    var pt := sh.pending[id];
    var one := RemovePending(sh, id);
    var two := Assign(sh, addr, id);
    DispatchSteps(sh, addr, role, id, pt, env);
    DispatchSteps(one, addr, role, id, pt, env);
    WriteStep(two, addr, role, id, pt, addr in sh.nodes, env);
    DispatchSteps(two, addr, role, id, pt, env);
    DispatchSteps(Enqueue(two, id, pt), addr, role, id, pt, env);
    UndoRestores(sh, addr, role, id);
    hide ActHandler, Eligible, RecordActive, DropActive;
  }

  lemma WriteStep(sh: Shared, addr: Addr, role: NodeRole, id: Id, pt: PendingTask, recorded: bool, env: Env)
    ensures ActHandler(sh, addr, Assigning(role, id, pt, recorded), env) ==
            if env.ok then (sh, WantPending(role), Sent(AssignTask(id, pt.task))) else (sh, Requeuing(id, pt), Silent)
  {
  }

  // ---------- a pass of the reaper ----------

  function Pass(sh: Shared, timeout: nat, at: ReaperPc, env: Env, fuel: nat): (Shared, ReaperPc)
    decreases fuel
  {
    if fuel == 0 || at.Resting? then (sh, at)
    else
      var (sh', at') := ActReaper(sh, timeout, at, env);
      Pass(sh', timeout, at', env, fuel - 1)
  }

  /** What becomes of one dead node. */
  function Buried(sh: Shared, addr: Addr): Shared {
    RequeueAll(RemoveNode(sh, addr), ActiveAt(sh, addr))
  }

  lemma BurialSteps(sh: Shared, timeout: nat, stale: seq<Addr>, env: Env)
    requires stale != [] && stale[0] in sh.nodes
    ensures ActReaper(sh, timeout, Reaping(stale), env) ==
            (RemoveNode(sh, stale[0]), Salvaging(stale[0], ActiveAt(sh, stale[0]), stale[1..]))
    ensures ActReaper(RemoveNode(sh, stale[0]), timeout, Salvaging(stale[0], ActiveAt(sh, stale[0]), stale[1..]), env) ==
            (Buried(sh, stale[0]), Taking(stale[0], stale[1..]))
    ensures ActReaper(Buried(sh, stale[0]), timeout, Taking(stale[0], stale[1..]), env) ==
            (Buried(sh, stale[0]), Reaping(stale[1..]))
  {
  }

  lemma BurialPass(sh: Shared, timeout: nat, stale: seq<Addr>, env: Env, fuel: nat)
    requires stale != [] && stale[0] in sh.nodes
    ensures Pass(sh, timeout, Reaping(stale), env, fuel + 3) == Pass(Buried(sh, stale[0]), timeout, Reaping(stale[1..]), env, fuel)
  {
    var addr, rest := stale[0], stale[1..];
    var without := RemoveNode(sh, addr);
    BurialSteps(sh, timeout, stale, env);
    hide ActReaper, Buried, RemoveNode, Pass;
    PassStep(sh, timeout, Reaping(stale), env, fuel + 3);
    PassStep(without, timeout, Salvaging(addr, ActiveAt(sh, addr), rest), env, fuel + 2);
    PassStep(Buried(sh, addr), timeout, Taking(addr, rest), env, fuel + 1);
  }

  lemma PassStep(sh: Shared, timeout: nat, at: ReaperPc, env: Env, fuel: nat)
    requires fuel > 0 && !at.Resting?
    ensures var (sh', at') := ActReaper(sh, timeout, at, env);
            Pass(sh, timeout, at, env, fuel) == Pass(sh', timeout, at', env, fuel - 1)
  {
  }

  lemma BuryOneMore(start: Shared, sh: Shared, gone: set<Addr>, addr: Addr)
    requires IsReaped(start, sh, gone) && addr in sh.nodes
    ensures IsReaped(start, Buried(sh, addr), gone + {addr})
    ensures Buried(sh, addr).nodes == start.nodes - gone - {addr}
  {
    ReapOneMore(start, sh.pending, gone, addr);
    hide PendingReaped;
    assert Buried(sh, addr).nodes == start.nodes - (gone + {addr});
  }

  predicate AllDifferent(addrs: seq<Addr>) {
    forall j, k :: 0 <= j < k < |addrs| ==> addrs[j] != addrs[k]
  }

  function Listing(stale: seq<Addr>): set<Addr> {
    set a | a in stale
  }

  lemma NothingToBury(sh: Shared, timeout: nat, env: Env)
    ensures Pass(sh, timeout, Reaping([]), env, 1) == (sh, Resting)
  {
  }

  lemma OneLess(gone: set<Addr>, stale: seq<Addr>)
    ensures gone + Listing([]) == gone
    ensures stale != [] ==> gone + {stale[0]} + Listing(stale[1..]) == gone + Listing(stale)
  {
    if stale != [] {
      assert stale == [stale[0]] + stale[1..];
    }
  }

  lemma {:induction false} PassFrom(start: Shared, sh: Shared, timeout: nat, stale: seq<Addr>, gone: set<Addr>, env: Env)
      returns (sh': Shared)
    requires IsReaped(start, sh, gone) && AllDifferent(stale) && forall a :: a in stale ==> a in sh.nodes
    ensures Pass(sh, timeout, Reaping(stale), env, 3 * |stale| + 1) == (sh', Resting)
    ensures IsReaped(start, sh', gone + Listing(stale))
    decreases |stale|
  {
    hide IsReaped, Pass, Buried, Listing, AllDifferent;
    OneLess(gone, stale);
    if stale == [] {
      NothingToBury(sh, timeout, env);
      sh' := sh;
    } else {
      var first, rest := stale[0], stale[1..];
      BurialPass(sh, timeout, stale, env, 3 * |rest| + 1);
      BuryOneMore(start, sh, gone, first);
      OthersRemain(sh, stale);
      sh' := PassFrom(start, Buried(sh, first), timeout, rest, gone + {first}, env);
    }
  }

  lemma OthersRemain(sh: Shared, stale: seq<Addr>)
    requires stale != [] && AllDifferent(stale) && forall a :: a in stale ==> a in sh.nodes
    ensures AllDifferent(stale[1..]) && forall a :: a in stale[1..] ==> a in Buried(sh, stale[0]).nodes
  {
    forall a | a in stale[1..] ensures a in Buried(sh, stale[0]).nodes {
      assert a != stale[0];
    }
  }

  lemma EachOnce(order: seq<Addr>, addrs: set<Addr>)
    requires multiset(order) == multiset(addrs)
    ensures AllDifferent(order) && forall a :: a in order <==> a in addrs
  {
    forall j, k | 0 <= j < k < |order| ensures order[j] != order[k] {
      if order[j] == order[k] {
        TwiceMeansTwo(order, j, k);
      }
    }
    forall a ensures a in order <==> a in addrs {
      assert a in order <==> a in multiset(order);
    }
  }

  /** A whole pass of the reaper, from collecting the stale addresses to the end of its list, does
      what `CleanupDeadNodes` does. */
  lemma ReaperAlone(sh: Shared, timeout: nat, env: Env) returns (sh': Shared)
    requires Sensible(sh, Reaper(timeout, Resting), env)
    ensures ActReaper(sh, timeout, Resting, env) == (sh, Reaping(env.order))
    ensures Pass(sh, timeout, Reaping(env.order), env, 3 * |env.order| + 1) == (sh', Resting)
    ensures IsReaped(sh, sh', StaleNodes(sh, env.now, timeout))
  {
    EachOnce(env.order, StaleNodes(sh, env.now, timeout));
    NothingReaped(sh);
    hide IsReaped, Pass;
    sh' := PassFrom(sh, sh, timeout, env.order, {}, env);
    assert {} + Listing(env.order) == StaleNodes(sh, env.now, timeout);
  }

  // ---------- a synchronisation ----------

  /** At most `fuel` steps of one end of a synchronisation, and what it has written. */
  function Exchange(sh: Shared, incoming: bool, at: PeerPc, env: Env, fuel: nat): (Shared, PeerPc, seq<PeerState>)
    decreases fuel
  {
    if fuel == 0 || at.PeerDone? then (sh, at, [])
    else
      var (sh', at', out) := ActPeer(sh, incoming, at, env);
      var (last, rest, sent) := Exchange(sh', incoming, at', env, fuel - 1);
      (last, rest, (if out.SentPeer? then [out.ps] else []) + sent)
  }

  lemma MergeSteps(sh: Shared, incoming: bool, ps: PeerState, env: Env, fuel: nat)
    requires env.input == PeerData(ps)
    ensures Exchange(sh, incoming, PeerReading, env, fuel + 4) ==
            Exchange(Merged(sh, ps), incoming, if incoming then CollectStart else PeerDone, env, fuel)
  {
    var one, two := MergeNodes(sh, ps), MergePending(MergeNodes(sh, ps), ps);
    assert ActPeer(sh, incoming, PeerReading, env) == (sh, MergingNodes(ps), Silent);
    assert ActPeer(sh, incoming, MergingNodes(ps), env) == (one, MergingPending(ps), Silent);
    assert ActPeer(one, incoming, MergingPending(ps), env) == (two, MergingCompleted(ps), Silent);
    assert ActPeer(two, incoming, MergingCompleted(ps), env) ==
           (Merged(sh, ps), if incoming then CollectStart else PeerDone, Silent);
    hide ActPeer, MergeNodes, MergePending, Merged;
    QuietStep(sh, incoming, PeerReading, env, fuel + 4);
    QuietStep(sh, incoming, MergingNodes(ps), env, fuel + 3);
    QuietStep(one, incoming, MergingPending(ps), env, fuel + 2);
    QuietStep(two, incoming, MergingCompleted(ps), env, fuel + 1);
  }

  lemma QuietStep(sh: Shared, incoming: bool, at: PeerPc, env: Env, fuel: nat)
    requires fuel > 0 && !at.PeerDone? && ActPeer(sh, incoming, at, env).2.Silent?
    ensures var (sh', at', _) := ActPeer(sh, incoming, at, env);
            Exchange(sh, incoming, at, env, fuel) == Exchange(sh', incoming, at', env, fuel - 1)
  {
    hide ActPeer;
    var (sh', at', out) := ActPeer(sh, incoming, at, env);
    assert [] + Exchange(sh', incoming, at', env, fuel - 1).2 == Exchange(sh', incoming, at', env, fuel - 1).2;
  }

  lemma CollectSteps(sh: Shared, incoming: bool, env: Env, fuel: nat)
    requires env.ok
    ensures var (sh', at', sent) := Exchange(sh, incoming, if incoming then PeerDone else PeerReading, env, fuel);
            Exchange(sh, incoming, CollectStart, env, fuel + 4) == (sh', at', [Collected(sh)] + sent)
  {
    assert ActPeer(sh, incoming, CollectStart, env) == (sh, CollectNodes(sh.nodes), Silent);
    assert ActPeer(sh, incoming, CollectNodes(sh.nodes), env) == (sh, CollectPending(sh.nodes, sh.pending), Silent);
    assert ActPeer(sh, incoming, CollectPending(sh.nodes, sh.pending), env) == (sh, PeerSending(Collected(sh)), Silent);
    assert ActPeer(sh, incoming, PeerSending(Collected(sh)), env) ==
           (sh, if incoming then PeerDone else PeerReading, SentPeer(Collected(sh)));
    hide ActPeer, Collected;
    QuietStep(sh, incoming, CollectStart, env, fuel + 4);
    QuietStep(sh, incoming, CollectNodes(sh.nodes), env, fuel + 3);
    QuietStep(sh, incoming, CollectPending(sh.nodes, sh.pending), env, fuel + 2);
  }

  lemma IncomingAlone(sh: Shared, ps: PeerState, env: Env)
    requires env.ok && env.input == PeerData(ps)
    ensures Exchange(sh, true, PeerReading, env, 8) == (Merged(sh, ps), PeerDone, [Collected(Merged(sh, ps))])
  {
    hide Merged, Collected, Exchange;
    MergeSteps(sh, true, ps, env, 4);
    CollectSteps(Merged(sh, ps), true, env, 0);
    Ends(Merged(sh, ps), true, env, 0);
    assert [Collected(Merged(sh, ps))] + [] == [Collected(Merged(sh, ps))];
  }

  lemma OutgoingAlone(sh: Shared, ps: PeerState, env: Env)
    requires env.ok && env.input == PeerData(ps)
    ensures Exchange(sh, false, CollectStart, env, 8) == (Merged(sh, ps), PeerDone, [Collected(sh)])
  {
    hide Merged, Collected, Exchange;
    MergeSteps(sh, false, ps, env, 0);
    CollectSteps(sh, false, env, 4);
    Ends(Merged(sh, ps), false, env, 0);
    assert [Collected(sh)] + [] == [Collected(sh)];
  }

  /** Two masters whose synchronisation threads run undisturbed, each reading what the other sent,
      end where `SyncPeers` leaves them. */
  lemma SyncAlone(a: Shared, b: Shared, atA: Env, atB: Env)
    requires atA.ok && atB.ok
    requires atB.input == PeerData(Collected(a)) && atA.input == PeerData(Collected(Merged(b, Collected(a))))
    ensures Exchange(b, true, PeerReading, atB, 8) == (TwoWay(a, b).1, PeerDone, [atA.input.ps])
    ensures Exchange(a, false, CollectStart, atA, 8) == (TwoWay(a, b).0, PeerDone, [atB.input.ps])
  {
    IncomingAlone(b, Collected(a), atB);
    OutgoingAlone(a, atA.input.ps, atA);
    hide Merged, Collected, Exchange;
  }

  lemma Ends(sh: Shared, incoming: bool, env: Env, fuel: nat)
    ensures Exchange(sh, incoming, PeerDone, env, fuel) == (sh, PeerDone, [])
  {
  }
}
