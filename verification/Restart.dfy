/** A master that is stopped at any moment and started again from any snapshot it ever
    wrote, any number of times (`save_state`, `load_state`). */
module Restart {
  import opened Protocol
  import opened Regions
  import opened Machine
  import opened PortLedger
  import opened Owners
  import opened Settling
  import opened Locks

  /** `load_state` found a snapshot an earlier life had written. */
  ghost predicate LoadedFrom(r: Run, earlier: Run)
    requires IsRun(r) && IsRun(earlier)
  {
    exists n: nat :: n < |earlier.labels| && OutputAt(earlier, n) == Saved(r.states[0].sh)
  }

  /** One run per life; each starts from the configured port range or from a snapshot. */
  ghost predicate IsHistory(lives: seq<Run>, lo: Port, hi: Port) {
    && (forall k :: 0 <= k < |lives| ==> IsRun(lives[k]))
    && (forall k :: 0 <= k < |lives| ==>
          IsFreshStart(lives[k].states[0].sh, lo, hi) || exists j :: 0 <= j < k && LoadedFrom(lives[k], lives[j]))
  }

  lemma {:induction false} PortsDisjointInEveryLife(lives: seq<Run>, k: nat, n: nat, lo: Port, hi: Port)
    requires IsHistory(lives, lo, hi) && k < |lives| && n <= |lives[k].labels|
    requires forall j :: 0 <= j < |lives| ==> MergeFree(lives[j])
    ensures PortsDisjoint(lives[k].states[n].sh)
    decreases k
  {
    var r := lives[k];
    if IsFreshStart(r.states[0].sh, lo, hi) {
      forall p: Port ensures InShared(r.states[0].sh, p) <= 1 {
        FreshStartCount(r.states[0].sh, lo, hi, p);
      }
      DisjointMeansAtMostOne(r.states[0].sh);
    } else {
      var j :| 0 <= j < k && LoadedFrom(r, lives[j]);
      var m: nat :| m < |lives[j].labels| && OutputAt(lives[j], m) == Saved(r.states[0].sh);
      SnapshotsAreConsistent(lives[j], m);
      PortsDisjointInEveryLife(lives, j, m, lo, hi);
    }
    PortsStayDisjoint(r, n);
  }

  /** Ids handed in during this life are handed in once and were not among the restored ones. */
  ghost predicate NewIds(r: Run)
    requires IsRun(r)
  {
    forall id :: SubmissionsIn(r, |r.labels|, id) <= (if OwnersIn(r.states[0].sh, id) == 0 then 1 else 0)
  }

  lemma ClaimsOfState(s: State, id: Id)
    ensures ClaimsIn(s.sh, id) <= Claims(s, id)
  {
  }

  /** Each life is given new ids, imports no tasks and never forks one. */
  ghost predicate OneOwnerLives(lives: seq<Run>) {
    forall j :: 0 <= j < |lives| ==>
      IsRun(lives[j]) && NewIds(lives[j]) && ImportsNoTasks(lives[j]) && NoForks(lives[j])
  }

  lemma {:induction false} OneOwnerAtStart(lives: seq<Run>, k: nat, lo: Port, hi: Port, id: Id)
    requires IsHistory(lives, lo, hi) && k < |lives| && OneOwnerLives(lives)
    ensures ClaimsIn(lives[k].states[0].sh, id) <= 1
    decreases k, 0
  {
    var r := lives[k];
    if IsFreshStart(r.states[0].sh, lo, hi) {
      assert Owning(r.states[0].sh.nodes, id) == {};
    } else {
      var j :| 0 <= j < k && LoadedFrom(r, lives[j]);
      var m: nat :| m < |lives[j].labels| && OutputAt(lives[j], m) == Saved(r.states[0].sh);
      SnapshotsAreConsistent(lives[j], m);
      OneOwnerInEveryLife(lives, j, m, lo, hi);
      ClaimsOfState(lives[j].states[m], id);
    }
  }

  /** Over any chain of restarts from any snapshots, even one made while an assignment was being
      taken back, and with assignment writes failing at will, no task is ever active on two nodes. */
  lemma {:induction false} OneOwnerInEveryLife(lives: seq<Run>, k: nat, n: nat, lo: Port, hi: Port)
    requires IsHistory(lives, lo, hi) && k < |lives| && n <= |lives[k].labels| && OneOwnerLives(lives)
    ensures forall id :: Claims(lives[k].states[n], id) <= 1
    ensures OneActive(lives[k].states[n].sh)
    decreases k, 1
  {
    var r := lives[k];
    forall id ensures ClaimsIn(r.states[0].sh, id) + SubmissionsIn(r, |r.labels|, id) <= 1 {
      OneOwnerAtStart(lives, k, lo, hi, id);
      OwnersAreClaims(r.states[0].sh, id);
    }
    OneOwnerThroughFailures(r, n);
  }
}
