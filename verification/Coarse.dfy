/** The master with one dispatch iteration, one reaper pass and one request each taken as a
    single step. At this grain a task never runs on two nodes, even when writes fail and ids
    are submitted again. */
module Coarse {
  import opened Protocol
  import opened Regions
  import opened Owners
  import opened MasterNode

  datatype Op =
    | Join(addr: Addr, now: nat)
    | Handle(addr: Addr, m: NodeMessage, now: nat)
    | Dispatch(addr: Addr, role: NodeRole, id: Id, written: bool)
    | Queue(id: Id, pt: PendingTask)                 // the shell
    | Reap(now: nat, timeout: nat, after: Shared)
    | Leave(addr: Addr)

  /** The dispatcher reads its role once, before its loop, so an iteration may find the node gone. */
  ghost predicate Possible(sh: Shared, op: Op) {
    match op
    case Dispatch(addr, role, id, _) => Eligible(sh, addr, role, id)
    case Reap(now, timeout, after) => IsReaped(sh, after, StaleNodes(sh, now, timeout))
    case _ => true
  }

  function Done(sh: Shared, op: Op): Shared {
    match op
    case Join(addr, now) => Register(sh, addr, now)
    case Handle(addr, m, now) => Handled(sh, addr, m, now)
    case Dispatch(addr, _, id, written) =>
      if written || id !in sh.pending then Assign(sh, addr, id)
      else DropActive(Enqueue(Assign(sh, addr, id), id, sh.pending[id]), addr, id)
    case Queue(id, pt) => Enqueue(sh, id, pt)
    case Reap(_, _, after) => after
    case Leave(addr) => RemoveNode(sh, addr)
  }

  /** No node gains a task. */
  ghost predicate OnlyLoses(sh: Shared, sh': Shared) {
    forall a, id :: id in ActiveAt(sh', a) ==> id in ActiveAt(sh, a)
  }

  lemma HandledOnlyLoses(sh: Shared, addr: Addr, m: NodeMessage, now: nat)
    ensures OnlyLoses(sh, Handled(sh, addr, m, now))
  {
  }

  lemma LosingKeepsOneActive(sh: Shared, sh': Shared)
    requires OneActive(sh) && OnlyLoses(sh, sh')
    ensures OneActive(sh')
  {
    forall a, b, id | id in ActiveAt(sh', a) && id in ActiveAt(sh', b) ensures a == b {
      assert id in ActiveAt(sh, a) && id in ActiveAt(sh, b);
    }
  }

  lemma OpKeepsOneActive(sh: Shared, op: Op)
    requires OneActive(sh) && Possible(sh, op)
    ensures OneActive(Done(sh, op))
  {
    match op
    case Dispatch(addr, role, id, written) =>
      if written {
        AssignKeepsOneActive(sh, addr, role, id);
      } else {
        UndoRestores(sh, addr, role, id);
      }
    case Handle(addr, m, now) =>
      HandledOnlyLoses(sh, addr, m, now);
      LosingKeepsOneActive(sh, Handled(sh, addr, m, now));
    case _ =>
      assert OnlyLoses(sh, Done(sh, op));
      LosingKeepsOneActive(sh, Done(sh, op));
  }

  ghost predicate AllPossible(sh: Shared, ops: seq<Op>)
    decreases |ops|
  {
    ops == [] || (Possible(sh, ops[0]) && AllPossible(Done(sh, ops[0]), ops[1..]))
  }

  function After(sh: Shared, ops: seq<Op>): Shared
    decreases |ops|
  {
    if ops == [] then sh else After(Done(sh, ops[0]), ops[1..])
  }

  /** Every run at this grain: no task is active on two nodes. */
  lemma {:induction false} NeverOnTwoNodes(sh: Shared, ops: seq<Op>)
    requires OneActive(sh) && AllPossible(sh, ops)
    ensures OneActive(After(sh, ops))
    decreases |ops|
  {
    if ops != [] {
      OpKeepsOneActive(sh, ops[0]);
      NeverOnTwoNodes(Done(sh, ops[0]), ops[1..]);
    }
  }
}
