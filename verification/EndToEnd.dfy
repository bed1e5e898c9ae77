/** From `submit_and_wait` to the answer: one client's talk with one master, taking place inside a
    history of the whole system - any number of masters, nodes and other clients, requeues,
    repeated executions, resends, merges and restarts. */
module EndToEnd {
  import opened Protocol
  import opened Truth
  import Machine
  import Cluster
  import Session

  type History = Cluster.History
  type Talk = Session.Talk

  /** Move `j` of the talk is what the history does last before `time[j + 1]`: a step of the talk's
      master, the submission of the call's task, a poll on the wire - or something only the client
      notices. */
  ghost predicate Corresponds(w: Talk, h: History, x: Cluster.MasterId, time: seq<nat>, j: nat)
    requires |w.links| == |w.moves| + 1 == |time| && |h.states| == |h.events| + 1 && j < |w.moves|
    requires forall i :: 0 <= i < |time| ==> time[i] <= |h.events|
  {
    && time[j] <= time[j + 1]
    && match w.moves[j]
       case Serve(l) => time[j] < time[j + 1] && h.events[time[j + 1] - 1] == Cluster.MasterStep(x, l)
       case Begin(id, task) => time[j] < time[j + 1] && h.events[time[j + 1] - 1] == Cluster.Submit(id, task)
       case Poll(_) =>
         && time[j] < time[j + 1] && w.links[j].client.Polling?
         && h.events[time[j + 1] - 1] == Cluster.Say(GetTaskResult(w.links[j].client.call.id))
       case _ => true
  }

  /** The talk `w` is held with master `x` within history `h`; link `j` is how things stand at
      `time[j]`. */
  ghost predicate TakesPlace(w: Talk, h: History, x: Cluster.MasterId, time: seq<nat>) {
    && |w.links| == |w.moves| + 1 == |time| && |h.states| == |h.events| + 1
    && (forall j :: 0 <= j < |time| ==> time[j] <= |h.events|)
    && (forall j :: 0 <= j < |time| ==>
          x in h.states[time[j]].masters && h.states[time[j]].masters[x] == w.links[j].master)
    && (forall j: nat :: j < |w.moves| ==> Corresponds(w, h, x, time, j))
  }

  lemma {:induction false} TimeGoesOn(w: Talk, h: History, x: Cluster.MasterId, time: seq<nat>, i: nat, j: nat)
    requires TakesPlace(w, h, x, time) && i <= j < |time|
    ensures time[i] <= time[j]
    decreases j - i
  {
    if i < j {
      TimeGoesOn(w, h, x, time, i, j - 1);
      assert Corresponds(w, h, x, time, j - 1);
    }
  }

  /** The task of every call that returned Ok is the one submitted under its id. */
  lemma CallWasSubmitted(w: Talk, t: Machine.Tid, h: History, exec: Task -> TaskResult, x: Cluster.MasterId,
                         time: seq<nat>, n: nat, i: nat)
    requires Session.IsTalk(w, t) && Cluster.IsHistory(h, exec) && TakesPlace(w, h, x, time)
    requires n <= |w.moves| && i < |w.links[n].answers|
    ensures var call, submitted := w.links[n].answers[i].call, h.states[time[n]].submitted;
            call.id in submitted && submitted[call.id] == call.task
  {
    var call := w.links[n].answers[i].call;
    assert Session.Known(w.links[n], call.id, call.task);
    Session.CallsWereBegun(w, t, n, call.id, call.task);
    var m: nat :| m < n && w.moves[m] == Session.Begin(call.id, call.task);
    assert Corresponds(w, h, x, time, m);
    var e := time[m + 1] - 1;
    assert Cluster.EventAt(h, exec, e);
    assert call.id in h.states[e + 1].submitted && h.states[e + 1].submitted[call.id] == call.task;
    TimeGoesOn(w, h, x, time, m + 1, n);
    Cluster.SubmissionsAreFinal(h, exec, time[m + 1], time[n], call.id);
  }

  lemma ResultsAreTrue(h: History, exec: Task -> TaskResult, n: nat, x: Cluster.MasterId, id: Id)
    requires Cluster.IsHistory(h, exec) && n <= |h.events|
    requires x in h.states[n].masters && id in h.states[n].masters[x].sh.completed
    ensures id in h.states[n].submitted
    ensures h.states[n].masters[x].sh.completed[id] == exec(h.states[n].submitted[id])
  {
    Cluster.AlwaysTrue(h, exec, n);
    assert MasterTrue(Cluster.WorldOf(h.states[n], exec), h.states[n].masters[x]);
  }

  /** Every Ok of `submit_and_wait` is the result of executing the very task of its own call -
      although the client looks at no id, and whatever the rest of the system is doing - provided at
      most one earlier call on the stream has timed out with its last reply unread, and no import
      has made the client a worker. (`Crossings` shows that neither proviso can be dropped.) */
  lemma AnswersAreRight(w: Talk, t: Machine.Tid, h: History, exec: Task -> TaskResult, x: Cluster.MasterId,
                        time: seq<nat>, n: nat, i: nat)
    requires Session.IsTalk(w, t) && Cluster.IsHistory(h, exec) && TakesPlace(w, h, x, time)
    requires Session.NeverMadeWorker(w, t)
    requires n <= |w.moves| && i < |w.links[n].answers| && w.links[n].answers[i].call.ahead <= 1
    ensures w.links[n].answers[i].result == exec(w.links[n].answers[i].call.task)
  {
    var a := w.links[n].answers[i];
    Session.AnswersBelongToTheirCalls(w, t, n, i);
    var j: nat :| j <= n && var done := w.links[j].master.sh.completed; a.call.id in done && done[a.call.id] == a.result;
    ResultsAreTrue(h, exec, time[j], x, a.call.id);
    CallWasSubmitted(w, t, h, exec, x, time, n, i);
    TimeGoesOn(w, h, x, time, j, n);
    Cluster.SubmissionsAreFinal(h, exec, time[j], time[n], a.call.id);
  }
}
