/** How results spread between masters (`collect_state`, `merge_state`). */
module Gossip {
  import opened Protocol
  import opened Regions
  import opened Machine
  import opened Cluster

  // ---------- one sync, nothing else running ----------

  function Collected(sh: Shared): PeerState {
    PeerState(sh.nodes, sh.pending, sh.completed)
  }

  function Merged(sh: Shared, ps: PeerState): Shared {
    MergeCompleted(MergePending(MergeNodes(sh, ps), ps), ps)
  }

  /** `connect_to_peer` at `a` with `handle_peer_connection` at `b`: `b` merges `a`'s state and
      answers with its own, which `a` merges. */
  function TwoWay(a: Shared, b: Shared): (Shared, Shared) {
    var b' := Merged(b, Collected(a));
    (Merged(a, Collected(b')), b')
  }

  ghost predicate Agree<K, V>(m: map<K, V>, n: map<K, V>) {
    forall k :: k in m && k in n ==> m[k] == n[k]
  }

  /** A merge never changes an entry that is there, and adds exactly the others. */
  lemma MergeOnlyAdds(sh: Shared, ps: PeerState)
    ensures var sh' := Merged(sh, ps);
            && sh'.nodes.Keys == sh.nodes.Keys + ps.nodes.Keys
            && sh'.pending.Keys == sh.pending.Keys + ps.pending.Keys
            && sh'.completed.Keys == sh.completed.Keys + ps.completed.Keys
            && (forall k :: k in sh.nodes ==> sh'.nodes[k] == sh.nodes[k])
            && (forall k :: k in sh.pending ==> sh'.pending[k] == sh.pending[k])
            && (forall k :: k in sh.completed ==> sh'.completed[k] == sh.completed[k])
            && (forall k :: k in ps.nodes && k !in sh.nodes ==> sh'.nodes[k] == ps.nodes[k])
            && (forall k :: k in ps.pending && k !in sh.pending ==> sh'.pending[k] == ps.pending[k])
            && (forall k :: k in ps.completed && k !in sh.completed ==> sh'.completed[k] == ps.completed[k])
            && sh'.ports == sh.ports
  {
  }

  /** After an undisturbed two-way sync both masters know the same nodes, queued tasks and
      results by key; their contents are equal too exactly when they did not disagree before. */
  lemma TwoWayMeets(a: Shared, b: Shared)
    ensures var (a', b') := TwoWay(a, b);
            && a'.nodes.Keys == b'.nodes.Keys == a.nodes.Keys + b.nodes.Keys
            && a'.pending.Keys == b'.pending.Keys == a.pending.Keys + b.pending.Keys
            && a'.completed.Keys == b'.completed.Keys == a.completed.Keys + b.completed.Keys
            && (a'.nodes == b'.nodes <==> Agree(a.nodes, b.nodes))
            && (a'.pending == b'.pending <==> Agree(a.pending, b.pending))
            && (a'.completed == b'.completed <==> Agree(a.completed, b.completed))
  {
    UnionMeets(a.nodes, b.nodes);
    UnionMeets(a.pending, b.pending);
    UnionMeets(a.completed, b.completed);
  }

  /** The initiator keeps its own value and the responder its own; both fill in the rest. */
  lemma UnionMeets<K, V>(m: map<K, V>, n: map<K, V>)
    ensures ((m + n) + m).Keys == (m + n).Keys == m.Keys + n.Keys
    ensures (m + n) + m == m + n <==> Agree(m, n)
  {
    var l, r := (m + n) + m, m + n;
    if l == r {
      forall k | k in m && k in n ensures m[k] == n[k] {
        assert l[k] == m[k] && r[k] == n[k];
      }
    }
    if Agree(m, n) {
      forall k | k in l.Keys ensures l[k] == r[k] {
      }
    }
  }

  // ---------- results over time ----------

  lemma ActKeepsCompleted(sh: Shared, th: Thread, env: Env)
    ensures sh.completed.Keys <= Act(sh, th, env).sh.completed.Keys
  {
  }

  ghost predicate Knows(c: System, x: MasterId, id: Id) {
    x in c.masters && id in c.masters[x].sh.completed
  }

  /** From step `m` to step `n` no running master is started again. */
  ghost predicate NoRestart(h: History, m: nat, n: nat)
    requires |h.states| == |h.events| + 1 && n <= |h.events|
  {
    forall k: nat :: m <= k < n && h.events[k].Boot? ==> h.events[k].x !in h.states[k].masters
  }

  lemma {:induction false} KnowledgeLasts(h: History, exec: Task -> TaskResult, m: nat, n: nat, x: MasterId, id: Id)
    requires IsHistory(h, exec) && m <= n <= |h.events|
    requires NoRestart(h, m, n) && Knows(h.states[m], x, id)
    ensures Knows(h.states[n], x, id)
    decreases n - m
  {
    if m < n {
      KnowledgeLasts(h, exec, m, n - 1, x, id);
      assert EventAt(h, exec, n - 1);
      var c, e := h.states[n - 1], h.events[n - 1];
      if e.MasterStep? && e.x == x && e.l.Move? {
        ActKeepsCompleted(c.masters[x].sh, c.masters[x].threads[e.l.t], e.l.env);
      }
    }
  }

  // ---------- chains of transfers ----------

  /** At step `i` master `x` finishes collecting `ps`; at step `j` master `y` files its results. */
  datatype Hop = Hop(i: nat, x: MasterId, j: nat, y: MasterId, ps: PeerState)

  predicate FinishesCollecting(c: System, e: Event, x: MasterId, ps: PeerState) {
    && e.MasterStep? && e.x == x && x in c.masters && e.l.Move? && e.l.t in c.masters[x].threads
    && c.masters[x].threads[e.l.t].Peer? && c.masters[x].threads[e.l.t].sync.CollectPending?
    && EffectOf(c.masters[x], e.l.t, e.l.env).th.sync == PeerSending(ps)
  }

  predicate FilesResults(c: System, e: Event, y: MasterId, ps: PeerState) {
    && e.MasterStep? && e.x == y && y in c.masters && e.l.Move? && e.l.t in c.masters[y].threads
    && c.masters[y].threads[e.l.t].Peer? && c.masters[y].threads[e.l.t].sync == MergingCompleted(ps)
  }

  ghost predicate IsHop(h: History, hop: Hop)
    requires |h.states| == |h.events| + 1
  {
    && hop.i < hop.j < |h.events|
    && FinishesCollecting(h.states[hop.i], h.events[hop.i], hop.x, hop.ps)
    && FilesResults(h.states[hop.j], h.events[hop.j], hop.y, hop.ps)
  }

  /** Transfers in time order, each starting where the one before ended. */
  ghost predicate IsChain(h: History, hops: seq<Hop>)
    requires |h.states| == |h.events| + 1
  {
    && (forall k :: 0 <= k < |hops| ==> IsHop(h, hops[k]))
    && (forall k, l :: 0 <= k && l == k + 1 && l < |hops| ==> hops[l].x == hops[k].y && hops[k].j < hops[l].i)
  }

  lemma HopCarries(h: History, exec: Task -> TaskResult, hop: Hop, id: Id)
    requires IsHistory(h, exec) && IsHop(h, hop) && Knows(h.states[hop.i], hop.x, id)
    ensures Knows(h.states[hop.j + 1], hop.y, id)
  {
    assert EventAt(h, exec, hop.i) && EventAt(h, exec, hop.j);
    Collects(h.states[hop.i].masters[hop.x], h.events[hop.i].l, hop.ps);
    Files(h.states[hop.j].masters[hop.y], h.events[hop.j].l, hop.ps);
    hide Apply, EffectOf;
  }

  lemma Collects(s: State, l: Label, ps: PeerState)
    requires l.Move? && l.t in s.threads && s.threads[l.t].Peer? && s.threads[l.t].sync.CollectPending?
    requires EffectOf(s, l.t, l.env).th.sync == PeerSending(ps)
    ensures ps.completed == s.sh.completed
  {
  }

  lemma Files(s: State, l: Label, ps: PeerState)
    requires l.Move? && l.t in s.threads && s.threads[l.t].Peer? && s.threads[l.t].sync == MergingCompleted(ps)
    ensures Apply(s, l).sh.completed == ps.completed + s.sh.completed
  {
  }

  /** A result reaches every master that a time-ordered chain of transfers joins to a master
      that has it, and stays there, whatever else all the masters are doing meanwhile. */
  lemma {:induction false} ResultsSpread(h: History, exec: Task -> TaskResult, hops: seq<Hop>, m: nat, n: nat, id: Id)
    requires IsHistory(h, exec) && IsChain(h, hops) && |hops| > 0
    requires m <= hops[0].i && hops[|hops| - 1].j < n <= |h.events|
    requires NoRestart(h, m, n) && Knows(h.states[m], hops[0].x, id)
    ensures m <= hops[|hops| - 1].j && Knows(h.states[n], hops[|hops| - 1].y, id)
    decreases |hops|
  {
    hide Knows, EventAt, FinishesCollecting, FilesResults;
    var last := hops[|hops| - 1];
    if |hops| == 1 {
      KnowledgeLasts(h, exec, m, last.i, last.x, id);
    } else {
      var front := hops[..|hops| - 1];
      assert front[|front| - 1] == hops[|hops| - 2] && hops[|hops| - 2].j < last.i;
      assert IsChain(h, front);
      ResultsSpread(h, exec, front, m, last.i, id);
    }
    HopCarries(h, exec, last, id);
    KnowledgeLasts(h, exec, last.j + 1, n, last.y, id);
  }
}
