/** What the ledger and the first-in first-out queue mean for one port over a whole run. */
module PortTraffic {
  import opened Protocol
  import opened Regions
  import opened Counting
  import opened Machine
  import opened TaskLedger
  import opened PortLedger

  /** The port `allocate_port` hands out in this step. */
  function Allocates(s: State, l: Label): Option<Port> {
    if l.Move? && l.t in s.threads && s.threads[l.t].Handler? && s.threads[l.t].at.Allocating? && s.sh.ports != [] then
      Some(s.sh.ports[0])
    else None
  }

  /** The port `release_port` puts back in this step. */
  function Releases(s: State, l: Label): Option<Port> {
    if l.Move? && l.t in s.threads then
      match s.threads[l.t]
      case Handler(_, Returning(p)) => Some(p)
      case Reaper(_, Pushing(p, _)) => Some(p)
      case _ => None
    else None
  }

  ghost function AllocatedAt(r: Run, i: nat): Option<Port>
    requires IsRun(r) && i < |r.labels|
  {
    Allocates(r.states[i], r.labels[i])
  }

  ghost function ReleasedAt(r: Run, i: nat): Option<Port>
    requires IsRun(r) && i < |r.labels|
  {
    Releases(r.states[i], r.labels[i])
  }

  lemma OthersAndQueue(sh: Shared, addr: Addr, at: HandlerPc, env: Env)
    ensures Dispatching(at) ==> ActDispatch(sh, addr, at, env).0.ports == sh.ports
    ensures Belonging(at) ==> ActMember(sh, addr, at, env).0.ports == sh.ports
  {
  }

  lemma PortsAndQueue(sh: Shared, addr: Addr, at: HandlerPc)
    requires Porting(at)
    ensures ActPort(sh, addr, at).0.ports ==
            if at.Allocating? && sh.ports != [] then sh.ports[1..]
            else if at.Returning? then sh.ports + [at.port]
            else sh.ports
  {
  }

  lemma RequestsAndQueue(sh: Shared, addr: Addr, at: HandlerPc, env: Env)
    requires !Dispatching(at) && !Belonging(at) && !Porting(at)
    ensures ActRequest(sh, addr, at, env).0.ports == sh.ports
  {
  }

  lemma HandlerAndQueue(sh: Shared, addr: Addr, at: HandlerPc, env: Env)
    ensures ActHandler(sh, addr, at, env).0.ports ==
            if at.Allocating? && sh.ports != [] then sh.ports[1..]
            else if at.Returning? then sh.ports + [at.port]
            else sh.ports
  {
    hide ActDispatch, ActMember, ActPort, ActRequest;
    if Porting(at) {
      PortsAndQueue(sh, addr, at);
    } else if Dispatching(at) || Belonging(at) {
      OthersAndQueue(sh, addr, at, env);
    } else {
      RequestsAndQueue(sh, addr, at, env);
    }
  }

  /** The queue changes only by an allocation at its head or a release at its tail. */
  lemma StepAndQueue(s: State, l: Label)
    requires Enabled(s, l)
    ensures Apply(s, l).sh.ports ==
            if Allocates(s, l).Some? then s.sh.ports[1..]
            else if Releases(s, l).Some? then s.sh.ports + [Releases(s, l).value]
            else s.sh.ports
  {
    if l.Move? && s.threads[l.t].Handler? {
      hide ActHandler;
      HandlerAndQueue(s.sh, s.threads[l.t].addr, s.threads[l.t].at, l.env);
    }
  }

  // ---------- no reuse without a release ----------

  lemma {:induction false} StaysOut(r: Run, i: nat, j: nat, p: Port)
    requires IsRun(r) && i <= j <= |r.labels|
    requires p !in r.states[i].sh.ports
    requires forall k: nat :: i <= k < j ==> ReleasedAt(r, k) != Some(p)
    ensures p !in r.states[j].sh.ports
    decreases j - i
  {
    if i < j {
      StaysOut(r, i, j - 1, p);
      assert StepAt(r, j - 1);
      StepAndQueue(r.states[j - 1], r.labels[j - 1]);
      assert ReleasedAt(r, j - 1) != Some(p);
    }
  }

  lemma InQueueOnce(sh: Shared, p: Port)
    requires PortsDisjoint(sh) && sh.ports != [] && sh.ports[0] == p
    ensures p !in sh.ports[1..]
  {
    assert sh.ports == [p] + sh.ports[1..];
    assert multiset(sh.ports)[p] == 1;
  }

  /** Between two allocations of the same port some `release_port` has put it back. */
  lemma NoReuseWithoutRelease(r: Run, i: nat, j: nat, p: Port)
    requires IsRun(r) && MergeFree(r) && PortsDisjoint(r.states[0].sh)
    requires i < j < |r.labels| && AllocatedAt(r, i) == AllocatedAt(r, j) == Some(p)
    ensures exists k: nat :: i < k < j && ReleasedAt(r, k) == Some(p)
  {
    PortsStayDisjoint(r, i);
    InQueueOnce(r.states[i].sh, p);
    assert StepAt(r, i);
    StepAndQueue(r.states[i], r.labels[i]);
    if forall k: nat :: i < k < j ==> ReleasedAt(r, k) != Some(p) {
      StaysOut(r, i + 1, j, p);
      assert false;
    }
  }

  // ---------- first in, first out ----------

  ghost function AllocationsIn(r: Run, i: nat, j: nat): nat
    requires IsRun(r) && i <= j <= |r.labels|
    decreases j - i
  {
    if i == j then 0 else AllocationsIn(r, i, j - 1) + (if AllocatedAt(r, j - 1).Some? then 1 else 0)
  }

  lemma {:induction false} MovesUp(r: Run, i: nat, j: nat, p: Port, n: nat)
    requires IsRun(r) && i <= j <= |r.labels|
    requires n < |r.states[i].sh.ports| && r.states[i].sh.ports[n] == p && p !in r.states[i].sh.ports[..n]
    requires AllocationsIn(r, i, j) <= n
    ensures var k, ports := n - AllocationsIn(r, i, j), r.states[j].sh.ports;
            k < |ports| && ports[k] == p && p !in ports[..k]
    decreases j - i
  {
    if i < j {
      MovesUp(r, i, j - 1, p, n);
      assert StepAt(r, j - 1);
      StepAndQueue(r.states[j - 1], r.labels[j - 1]);
      var before, k := r.states[j - 1].sh.ports, n - AllocationsIn(r, i, j - 1);
      if AllocatedAt(r, j - 1).Some? {
        assert before[1..][..k - 1] == before[..k][1..];
      } else {
        assert r.states[j].sh.ports[..k] == before[..k];
      }
    }
  }

  /** A port released behind `n` queued ports rests for exactly `n` successful allocations:
      none of those gets it, and the next one does. */
  lemma QuarantineIsExact(r: Run, i: nat, j: nat, p: Port)
    requires IsRun(r) && MergeFree(r) && PortsDisjoint(r.states[0].sh)
    requires i < j < |r.labels| && ReleasedAt(r, i) == Some(p) && AllocatedAt(r, j).Some?
    ensures var n, c := |r.states[i].sh.ports|, AllocationsIn(r, i + 1, j);
            && (c < n ==> AllocatedAt(r, j) != Some(p))
            && (c == n ==> AllocatedAt(r, j) == Some(p))
  {
    var n := |r.states[i].sh.ports|;
    assert StepAt(r, i);
    StepAndQueue(r.states[i], r.labels[i]);
    PortsStayDisjoint(r, i + 1);
    var after := r.states[i + 1].sh.ports;
    assert after == r.states[i].sh.ports + [p] && multiset(after)[p] == 1;
    assert p !in after[..n];
    if AllocationsIn(r, i + 1, j) <= n {
      MovesUp(r, i + 1, j, p, n);
    }
  }

  // ---------- seen by the clients ----------

  /** The port a `ConnectionInfo` reply carries, if this step writes one. */
  function Answers(s: State, l: Label): Option<Port> {
    if l.Move? && l.t in s.threads then
      match EffectOf(s, l.t, l.env).out
      case Sent(ConnectionInfo(_, p)) => Some(p)
      case _ => None
    else None
  }

  ghost function AnsweredAt(r: Run, i: nat): Option<Port>
    requires IsRun(r) && i < |r.labels|
  {
    Answers(r.states[i], r.labels[i])
  }

  /** The thread was given port `p` for a request it has not answered yet. */
  predicate Serves(th: Thread, p: Port) {
    match th
    case Handler(_, Storing(_, q)) => p == q
    case Handler(_, Locating(_, q)) => p == q
    case Handler(_, Replying(ConnectionInfo(_, q))) => p == q
    case _ => false
  }

  ghost predicate ServesAt(r: Run, i: nat, t: Tid, p: Port)
    requires IsRun(r) && i <= |r.labels|
  {
    t in r.states[i].threads && Serves(r.states[i].threads[t], p)
  }

  lemma HandlerServing(sh: Shared, addr: Addr, at: HandlerPc, env: Env, p: Port)
    requires Serves(Handler(addr, ActHandler(sh, addr, at, env).1), p)
    ensures Serves(Handler(addr, at), p) || (at.Allocating? && sh.ports != [] && sh.ports[0] == p)
    ensures ActHandler(sh, addr, at, env).2.Silent?
  {
  }

  lemma ServingStarts(s: State, l: Label, t: Tid, p: Port)
    requires Enabled(s, l) && t in Apply(s, l).threads && Serves(Apply(s, l).threads[t], p)
    requires !(t in s.threads && Serves(s.threads[t], p))
    ensures l.Move? && l.t == t && Allocates(s, l) == Some(p)
  {
    if l.Move? && l.t == t && s.threads[t].Handler? {
      hide ActHandler;
      HandlerServing(s.sh, s.threads[t].addr, s.threads[t].at, l.env, p);
    }
  }

  /** Every request being served with port `p` goes back to its own allocation of `p`. */
  lemma {:induction false} ServingSince(r: Run, n: nat, t: Tid, p: Port) returns (k: nat)
    requires IsRun(r) && n <= |r.labels| && ServesAt(r, n, t, p)
    ensures k < n && AllocatedAt(r, k) == Some(p) && r.labels[k].t == t
    ensures forall m: nat :: k < m <= n ==> ServesAt(r, m, t, p)
  {
    assert StepAt(r, n - 1);
    if ServesAt(r, n - 1, t, p) {
      k := ServingSince(r, n - 1, t, p);
    } else {
      k := n - 1;
      ServingStarts(r.states[k], r.labels[k], t, p);
    }
  }

  lemma AnswerEndsServing(s: State, l: Label, p: Port)
    requires Enabled(s, l) && Answers(s, l) == Some(p)
    ensures l.Move? && l.t in s.threads && Serves(s.threads[l.t], p)
    ensures l.t in Apply(s, l).threads && forall q :: !Serves(Apply(s, l).threads[l.t], q)
  {
  }

  ghost predicate ServedFrom(r: Run, k: nat, i: nat, t: Tid, p: Port)
    requires IsRun(r) && i < |r.labels|
  {
    forall m: nat :: k <= m <= i ==> ServesAt(r, m, t, p)
  }

  // ---------- who releases a port under a request ----------

  /** In step `m` the reaper takes port `p` out of the entry of `addr`. */
  ghost predicate ReaperTakes(r: Run, m: nat, u: Tid, addr: Addr, p: Port)
    requires IsRun(r)
  {
    && m < |r.labels| && r.labels[m].Move? && r.labels[m].t == u && u in r.states[m].threads
    && r.states[m].threads[u].Reaper? && r.states[m].threads[u].reap.Taking?
    && r.states[m].threads[u].reap.addr == addr && PortOf(r.states[m].sh, addr) == Some(p)
  }

  /** Where port `p` can be while thread `t` serves a request with it: in `t`'s hands, in `t`'s own
      entry, or in the hands of a reaper that took it from there. */
  ghost predicate OnlyBy(r: Run, a: nat, n: nat, t: Tid, addr: Addr, p: Port)
    requires IsRun(r) && n <= |r.labels|
  {
    var s := r.states[n];
    && p !in s.sh.ports
    && (forall b :: b != addr ==> PortOf(s.sh, b) != Some(p))
    && (forall u :: u in s.threads && u != t && InHand(s.threads[u]) == Some(p) ==>
          s.threads[u].Reaper? && exists m: nat :: a < m < n && ReaperTakes(r, m, u, addr, p))
  }

  /** What one step of another thread does to the places of a port. */
  ghost predicate MovesPort(sh: Shared, th: Thread, sh': Shared, th': Thread, p: Port) {
    && (p in sh'.ports ==> p in sh.ports || InHand(th) == Some(p))
    && (forall b :: PortOf(sh', b) == Some(p) ==>
          || PortOf(sh, b) == Some(p)
          || (InHand(th) == Some(p) && th.Handler? && th.addr == b))
    && (InHand(th') == Some(p) ==>
          || InHand(th) == Some(p)
          || p in sh.ports
          || (th.Handler? && th.at.Releasing? && PortOf(sh, th.addr) == Some(p))
          || (th.Reaper? && th.reap.Taking? && PortOf(sh, th.reap.addr) == Some(p)))
    && (th.Reaper? ==> th'.Reaper?)
  }

  lemma DispatchMovesPort(sh: Shared, addr: Addr, at: HandlerPc, env: Env, p: Port)
    requires Dispatching(at)
    ensures var (sh', at', _) := ActDispatch(sh, addr, at, env);
            MovesPort(sh, Handler(addr, at), sh', Handler(addr, at'), p)
  {
  }

  lemma MemberMovesPort(sh: Shared, addr: Addr, at: HandlerPc, env: Env, p: Port)
    requires Belonging(at)
    ensures var (sh', at') := ActMember(sh, addr, at, env);
            MovesPort(sh, Handler(addr, at), sh', Handler(addr, at'), p)
  {
  }

  lemma PortMovesPort(sh: Shared, addr: Addr, at: HandlerPc, p: Port)
    requires Porting(at)
    ensures var (sh', at') := ActPort(sh, addr, at);
            MovesPort(sh, Handler(addr, at), sh', Handler(addr, at'), p)
  {
  }

  lemma RequestMovesPort(sh: Shared, addr: Addr, at: HandlerPc, env: Env, p: Port)
    requires !Dispatching(at) && !Belonging(at) && !Porting(at)
    ensures var (sh', at', _) := ActRequest(sh, addr, at, env);
            MovesPort(sh, Handler(addr, at), sh', Handler(addr, at'), p)
  {
  }

  lemma ReaperMovesPort(sh: Shared, timeout: nat, at: ReaperPc, env: Env, p: Port)
    ensures var (sh', at') := ActReaper(sh, timeout, at, env);
            MovesPort(sh, Reaper(timeout, at), sh', Reaper(timeout, at'), p)
  {
  }

  lemma ActMovesPort(sh: Shared, th: Thread, env: Env, p: Port)
    requires !(th.Peer? && th.sync.MergingNodes?)
    ensures var e := Act(sh, th, env); MovesPort(sh, th, e.sh, e.th, p)
  {
    match th
    case Handler(addr, at) =>
      hide MovesPort;
      if Dispatching(at) {
        DispatchMovesPort(sh, addr, at, env, p);
      } else if Belonging(at) {
        MemberMovesPort(sh, addr, at, env, p);
      } else if Porting(at) {
        PortMovesPort(sh, addr, at, p);
      } else {
        RequestMovesPort(sh, addr, at, env, p);
      }
    case Reaper(timeout, at) =>
      hide MovesPort;
      ReaperMovesPort(sh, timeout, at, env, p);
    case _ =>
  }

  /** As long as nobody releases the port, it stays with the request or its reaper. */
  lemma StaysWithRequest(r: Run, a: nat, n: nat, t: Tid, addr: Addr, p: Port)
    requires IsRun(r) && MergeFree(r) && a < n < |r.labels| && OnlyBy(r, a, n, t, addr, p)
    requires ServesAt(r, n, t, p) && ServesAt(r, n + 1, t, p) && r.states[n].threads[t].addr == addr
    requires ReleasedAt(r, n) != Some(p)
    ensures OnlyBy(r, a, n + 1, t, addr, p)
  {
    assert StepAt(r, n);
    var s, l := r.states[n], r.labels[n];
    RunKeepsDistinct(r, n);
    assert !ImportsNodes(s, l);
    if l.Move? {
      ActMovesPort(s.sh, s.threads[l.t], l.env, p);
      var e := EffectOf(s, l.t, l.env);
      assert MovesPort(s.sh, s.threads[l.t], e.sh, e.th, p);
      hide Act, DistinctAddrs, MergeFree, IsRun;
      OnlyByAfterMove(r, a, n, t, addr, p);
    } else {
      OnlyByAfterSpawn(r, a, n, t, addr, p);
    }
  }

  lemma OnlyByAfterSpawn(r: Run, a: nat, n: nat, t: Tid, addr: Addr, p: Port)
    requires IsRun(r) && a < n < |r.labels| && OnlyBy(r, a, n, t, addr, p) && r.labels[n].Spawn?
    ensures OnlyBy(r, a, n + 1, t, addr, p)
  {
    assert StepAt(r, n);
    var e := r.states[n + 1];
    forall u | u in e.threads && u != t && InHand(e.threads[u]) == Some(p)
      ensures e.threads[u].Reaper? && exists m: nat :: a < m < n + 1 && ReaperTakes(r, m, u, addr, p)
    {
      var m: nat :| a < m < n && ReaperTakes(r, m, u, addr, p);
    }
  }

  lemma OnlyByAfterMove(r: Run, a: nat, n: nat, t: Tid, addr: Addr, p: Port)
    requires IsRun(r) && a < n < |r.labels| && OnlyBy(r, a, n, t, addr, p) && r.labels[n].Move?
    requires ServesAt(r, n, t, p) && ServesAt(r, n + 1, t, p) && r.states[n].threads[t].addr == addr
    requires ReleasedAt(r, n) != Some(p) && DistinctAddrs(r.states[n].threads)
    requires StepAt(r, n)
    requires var s, l := r.states[n], r.labels[n];
             var e := EffectOf(s, l.t, l.env); MovesPort(s.sh, s.threads[l.t], e.sh, e.th, p)
    ensures OnlyBy(r, a, n + 1, t, addr, p)
  {
    var s, l, e := r.states[n], r.labels[n], r.states[n + 1];
    var v, th := l.t, s.threads[l.t];
    hide Act, IsRun;
    assert e.sh == EffectOf(s, v, l.env).sh && e.threads == s.threads[v := EffectOf(s, v, l.env).th];
    assert InHand(th) == Some(p) && v != t ==> th.Reaper?;
    forall u | u in e.threads && u != t && InHand(e.threads[u]) == Some(p)
      ensures e.threads[u].Reaper? && exists m: nat :: a < m < n + 1 && ReaperTakes(r, m, u, addr, p)
    {
      if u in s.threads && InHand(s.threads[u]) == Some(p) {
        var m: nat :| a < m < n && ReaperTakes(r, m, u, addr, p);
      } else {
        assert u == v && th.Reaper?;
        assert ReaperTakes(r, n, u, addr, p);
      }
    }
  }

  lemma StartsInHand(r: Run, a: nat, t: Tid, p: Port)
    requires IsRun(r) && MergeFree(r) && PortsDisjoint(r.states[0].sh)
    requires a < |r.labels| && AllocatedAt(r, a) == Some(p) && r.labels[a].t == t
    ensures t in r.states[a + 1].threads && OnlyBy(r, a, a + 1, t, r.states[a].threads[t].addr, p)
  {
    assert StepAt(r, a);
    var s := r.states[a + 1];
    PortsStayDisjoint(r, a + 1);
    assert t in Carriers(s.threads, p) && Copies(s, p) <= 1;
    CarriedIsNowhereElse(s, t, p);
  }

  lemma CarriedIsNowhereElse(s: State, t: Tid, p: Port)
    requires t in Carriers(s.threads, p) && Copies(s, p) <= 1
    ensures p !in s.sh.ports
    ensures forall b :: PortOf(s.sh, b) != Some(p)
    ensures forall u :: u in s.threads && u != t ==> InHand(s.threads[u]) != Some(p)
  {
    SubsetSize({t}, Carriers(s.threads, p));
    assert |Carriers(s.threads, p)| == 1 && InShared(s.sh, p) == 0;
    forall b ensures PortOf(s.sh, b) != Some(p) {
      assert b !in Holders(s.sh.nodes, p);
    }
    forall u | u in s.threads && u != t ensures InHand(s.threads[u]) != Some(p) {
      if InHand(s.threads[u]) == Some(p) {
        SubsetSize({t, u}, Carriers(s.threads, p));
      }
    }
  }

  predicate IsServer(s: State, t: Tid, addr: Addr) {
    t in s.threads && s.threads[t].Handler? && s.threads[t].addr == addr
  }

  lemma HandlerKeepsAddr(s: State, l: Label, t: Tid)
    requires Enabled(s, l) && t in s.threads && s.threads[t].Handler?
    ensures t in Apply(s, l).threads && Apply(s, l).threads[t].Handler? && Apply(s, l).threads[t].addr == s.threads[t].addr
  {
  }

  /** While the request is served the port is where `OnlyBy` says - or a reaper took it from the
      request's own entry. */
  lemma {:induction false} WithRequestOrReaped(r: Run, a: nat, n: nat, t: Tid, addr: Addr, p: Port)
    requires IsRun(r) && MergeFree(r) && PortsDisjoint(r.states[0].sh)
    requires a < n <= |r.labels| && AllocatedAt(r, a) == Some(p) && r.labels[a].t == t && r.states[a].threads[t].addr == addr
    requires forall m: nat :: a < m <= n ==> ServesAt(r, m, t, p)
    ensures IsServer(r.states[n], t, addr)
    ensures OnlyBy(r, a, n, t, addr, p) || exists m: nat, u: Tid :: a < m < n && ReaperTakes(r, m, u, addr, p)
  {
    assert StepAt(r, n - 1) && ServesAt(r, n, t, p);
    if n == a + 1 {
      StartsInHand(r, a, t, p);
      HandlerKeepsAddr(r.states[a], r.labels[a], t);
    } else {
      assert ServesAt(r, n - 1, t, p);
      WithRequestOrReaped(r, a, n - 1, t, addr, p);
      HandlerKeepsAddr(r.states[n - 1], r.labels[n - 1], t);
      if OnlyBy(r, a, n - 1, t, addr, p) {
        if ReleasedAt(r, n - 1) == Some(p) {
          var u := r.labels[n - 1].t;
          assert InHand(r.states[n - 1].threads[u]) == Some(p) && u != t;
        } else {
          StaysWithRequest(r, a, n - 1, t, addr, p);
        }
      }
    }
  }

  /** While the request answered at step `i` was being served, the reaper took the port out of its
      client's own entry. */
  ghost predicate ReaperTook(r: Run, p: Port, i: nat)
    requires IsRun(r) && i < |r.labels|
  {
    exists m: nat, u: Tid ::
      && m < i && r.labels[i].t in r.states[i].threads && r.states[i].threads[r.labels[i].t].Handler?
      && ReaperTakes(r, m, u, r.states[i].threads[r.labels[i].t].addr, p)
      && ServedFrom(r, m, i, r.labels[i].t, p)
  }

  /** A port released under a served request was taken from its client's entry by the reaper. */
  lemma ReleasedUnderByReaper(r: Run, a: nat, i: nat, p: Port, k: nat)
    requires IsRun(r) && MergeFree(r) && PortsDisjoint(r.states[0].sh)
    requires a < i < |r.labels| && AllocatedAt(r, a) == Some(p) && r.labels[a].t == r.labels[i].t
    requires forall m: nat :: a < m <= i ==> ServesAt(r, m, r.labels[i].t, p)
    requires a < k <= i && ReleasedAt(r, k) == Some(p)
    ensures ReaperTook(r, p, i)
  {
    var t := r.labels[i].t;
    var addr := r.states[a].threads[t].addr;
    WithRequestOrReaped(r, a, i, t, addr, p);
    WithRequestOrReaped(r, a, k, t, addr, p);
    var u := r.labels[k].t;
    if OnlyBy(r, a, k, t, addr, p) {
      assert ServesAt(r, k, t, p) && InHand(r.states[k].threads[u]) == Some(p) && u != t;
    }
    var m: nat, v: Tid :| a < m < k && ReaperTakes(r, m, v, addr, p);
    assert ServesAt(r, i, t, p) && ServedFrom(r, m, i, t, p);
  }

  /** Two clients told about the same port: it was released between the two replies, or the reaper
      took it from one of these two clients' entries before that client had its reply.
      (`Witnesses.SamePortTwice` is a run of the second kind.) */
  lemma ReleaseBetweenAnswers(r: Run, i: nat, j: nat, p: Port)
    requires IsRun(r) && MergeFree(r) && PortsDisjoint(r.states[0].sh)
    requires i < j < |r.labels| && AnsweredAt(r, i) == AnsweredAt(r, j) == Some(p)
    ensures || (exists k: nat :: i < k < j && ReleasedAt(r, k) == Some(p))
            || ReaperTook(r, p, i) || ReaperTook(r, p, j)
  {
    assert StepAt(r, i) && StepAt(r, j);
    AnswerEndsServing(r.states[i], r.labels[i], p);
    AnswerEndsServing(r.states[j], r.labels[j], p);
    var t, u := r.labels[i].t, r.labels[j].t;
    assert !ServesAt(r, i + 1, t, p);
    var a := ServingSince(r, i, t, p);
    var b := ServingSince(r, j, u, p);
    hide ReaperTook, ServesAt, ReleasedAt, AllocatedAt, MergeFree;
    if a < b {
      NoReuseWithoutRelease(r, a, b, p);
      var k: nat :| a < k < b && ReleasedAt(r, k) == Some(p);
      if k <= i {
        ReleasedUnderByReaper(r, a, i, p, k);
      }
    } else if b < a {
      NoReuseWithoutRelease(r, b, a, p);
      var k: nat :| b < k < a && ReleasedAt(r, k) == Some(p);
      ReleasedUnderByReaper(r, b, j, p, k);
    } else {
      assert false;
    }
  }
}
