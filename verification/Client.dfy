/** `submit_and_wait` as the client runs it: write a request, read a reply, until a result or
    the deadline. */
module Client {
  import opened Protocol

  /** What happens between a call and the world: a message written or not, a message read or not
      (the stream fails, or the deadline passes while waiting), and a look at the clock. */
  datatype Event =
    | Wrote(m: NodeMessage)
    | WriteFailed
    | Took(m: NodeMessage)
    | ReadFailed
    | Looked(expired: bool)

  predicate IsFailure(e: Event) {
    e.WriteFailed? || e.ReadFailed? || (e.Looked? && e.expired)
  }

  /** The client's end of its stream, with a log of all that happened: `inbox` is what the master
      will have sent by the time it is read. */
  class Stream {
    var inbox: seq<NodeMessage>
    var log: seq<Event>

    constructor (replies: seq<NodeMessage>)
      ensures inbox == replies && log == []
    {
      inbox, log := replies, [];
    }

    method Write(m: NodeMessage) returns (ok: bool)
      modifies this`log
      ensures log == old(log) + [if ok then Wrote(m) else WriteFailed]
    {
      ok := *;
      log := log + [if ok then Wrote(m) else WriteFailed];
    }

    method Read() returns (m: Option<NodeMessage>)
      modifies this
      ensures m.None? ==> inbox == old(inbox) && log == old(log) + [ReadFailed]
      ensures m.Some? ==> old(inbox) == [m.value] + inbox && log == old(log) + [Took(m.value)]
    {
      var arrives := *;
      if !arrives || inbox == [] {
        log := log + [ReadFailed];
        return None;
      }
      m := Some(inbox[0]);
      log := log + [Took(inbox[0])];
      inbox := inbox[1..];
    }

    /** Is the deadline over? */
    method Look() returns (expired: bool)
      modifies this`log
      ensures log == old(log) + [Looked(expired)]
    {
      expired := *;
      log := log + [Looked(expired)];
    }
  }

  /** A poll up to the reply `m`. */
  function Poll(id: Id, m: NodeMessage): seq<Event> {
    [Wrote(GetTaskResult(id)), Looked(false), Took(m)]
  }

  /** Polls that brought no result, each followed by a look at the clock that was still in time. */
  function Polls(id: Id, replies: seq<NodeMessage>): seq<Event> {
    if replies == [] then []
    else Polls(id, replies[..|replies| - 1]) + Poll(id, replies[|replies| - 1]) + [Looked(false)]
  }

  lemma PollsGrow(id: Id, replies: seq<NodeMessage>, m: NodeMessage)
    ensures Polls(id, replies + [m]) == Polls(id, replies) + Poll(id, m) + [Looked(false)]
  {
    assert (replies + [m])[..|replies|] == replies;
  }

  /** How a poll that ends the call without a result can go. */
  predicate EndsInFailure(id: Id, events: seq<Event>) {
    || events == [WriteFailed]
    || events == [Wrote(GetTaskResult(id)), Looked(true)]
    || events == [Wrote(GetTaskResult(id)), Looked(false), ReadFailed]
    || (|events| == 4 && events[2].Took? && !events[2].m.ResultOf? && events == Poll(id, events[2].m) + [Looked(true)])
  }

  /** One round of the polling loop: `Done` ends the call, `Again` means to poll once more. */
  datatype Round = Done(result: TaskResult) | Again | Stop

  method PollOnce(stream: Stream, id: Id) returns (r: Round, ghost events: seq<Event>)
    modifies stream
    ensures stream.log == old(stream.log) + events
    ensures match r
            case Done(result) =>
              && old(stream.inbox) != [] && stream.inbox == old(stream.inbox)[1..]
              && old(stream.inbox)[0].ResultOf? && old(stream.inbox)[0].result == result
              && events == Poll(id, old(stream.inbox)[0])
            case Again =>
              && old(stream.inbox) != [] && stream.inbox == old(stream.inbox)[1..]
              && !old(stream.inbox)[0].ResultOf?
              && events == Poll(id, old(stream.inbox)[0]) + [Looked(false)]
            case Stop => EndsInFailure(id, events)
  {
    ghost var before := stream.log;
    var ok := stream.Write(GetTaskResult(id));
    if !ok {
      return Stop, [WriteFailed];
    }
    events := [Wrote(GetTaskResult(id))];
    var expired := stream.Look();
    events := events + [Looked(expired)];
    if expired {
      return Stop, events;
    }
    var reply := stream.Read();
    if reply.None? {
      return Stop, events + [ReadFailed];
    }
    events := events + [Took(reply.value)];
    if reply.value.ResultOf? {
      return Done(reply.value.result), events;
    }
    expired := stream.Look();
    events := events + [Looked(expired)];
    r := if expired then Stop else Again;
  }

  /** The whole call, event by event: the submission, its acknowledgement - any message - and then
      `n` polls whose replies carry no result. What ends it is the first reply with a result, or
      the first failure. */
  predicate IsCall(id: Id, task: Task, replies: seq<NodeMessage>, n: nat, events: seq<Event>, r: Option<TaskResult>) {
    if |events| < 2 || events[0] != Wrote(SubmitTask(id, task)) || !events[1].Took? then
      r.None? && (events == [WriteFailed] || events == [Wrote(SubmitTask(id, task)), ReadFailed])
    else
      && n < |replies|
      && (forall k :: 1 <= k <= n ==> !replies[k].ResultOf?)
      && var polled := [Wrote(SubmitTask(id, task)), Took(replies[0])] + Polls(id, replies[1..n + 1]);
      && |polled| <= |events| && events[..|polled|] == polled
      && match r
         case Some(result) =>
           && n + 1 < |replies| && replies[n + 1].ResultOf? && replies[n + 1].result == result
           && events[|polled|..] == Poll(id, replies[n + 1])
         case None => EndsInFailure(id, events[|polled|..])
  }

  /** The call so far: acknowledged, and `n` polls without a result. */
  ghost predicate Waiting(id: Id, task: Task, replies: seq<NodeMessage>, n: nat, events: seq<Event>) {
    && n < |replies|
    && (forall k :: 1 <= k <= n ==> !replies[k].ResultOf?)
    && events == [Wrote(SubmitTask(id, task)), Took(replies[0])] + Polls(id, replies[1..n + 1])
  }

  lemma StartsWaiting(id: Id, task: Task, replies: seq<NodeMessage>)
    requires replies != []
    ensures Waiting(id, task, replies, 0, [Wrote(SubmitTask(id, task)), Took(replies[0])])
  {
    assert replies[1..1] == [];
  }

  lemma WaitsOn(id: Id, task: Task, replies: seq<NodeMessage>, n: nat, events: seq<Event>)
    requires Waiting(id, task, replies, n, events) && n + 1 < |replies| && !replies[n + 1].ResultOf?
    ensures Waiting(id, task, replies, n + 1, events + Poll(id, replies[n + 1]) + [Looked(false)])
  {
    assert replies[1..n + 2] == replies[1..n + 1] + [replies[n + 1]];
    PollsGrow(id, replies[1..n + 1], replies[n + 1]);
    hide Polls, Poll;
  }

  lemma CallEnds(id: Id, task: Task, replies: seq<NodeMessage>, n: nat, events: seq<Event>, last: seq<Event>, r: Option<TaskResult>)
    requires Waiting(id, task, replies, n, events)
    requires match r
             case Some(result) =>
               && n + 1 < |replies| && replies[n + 1].ResultOf? && replies[n + 1].result == result
               && last == Poll(id, replies[n + 1])
             case None => EndsInFailure(id, last)
    ensures IsCall(id, task, replies, n, events + last, r)
  {
    hide Polls, Poll, EndsInFailure;
    assert (events + last)[..|events|] == events && (events + last)[|events|..] == last;
  }

  method Submit(stream: Stream, id: Id, task: Task) returns (ok: bool, ghost events: seq<Event>)
    modifies stream
    ensures stream.log == old(stream.log) + events
    ensures ok ==>
              && old(stream.inbox) != [] && stream.inbox == old(stream.inbox)[1..]
              && events == [Wrote(SubmitTask(id, task)), Took(old(stream.inbox)[0])]
    ensures !ok ==> IsCall(id, task, old(stream.inbox), 0, events, None)
  {
    ok := stream.Write(SubmitTask(id, task));
    if !ok {
      return false, [WriteFailed];
    }
    var ack := stream.Read();
    ok := ack.Some?;
    events := [Wrote(SubmitTask(id, task)), if ok then Took(ack.value) else ReadFailed];
  }

  method SubmitAndWait(stream: Stream, id: Id, task: Task) returns (r: Option<TaskResult>, ghost n: nat, ghost events: seq<Event>)
    modifies stream
    ensures stream.log == old(stream.log) + events
    ensures IsCall(id, task, old(stream.inbox), n, events, r)
  {
    n := 0;
    ghost var all, before := stream.inbox, stream.log;
    var ok;
    ok, events := Submit(stream, id, task);
    if !ok {
      return None, 0, events;
    }
    StartsWaiting(id, task, all);
    hide IsCall, Waiting, EndsInFailure, Poll;
    while true
      invariant n < |all| && stream.inbox == all[n + 1..]
      invariant stream.log == before + events && Waiting(id, task, all, n, events)
      decreases |stream.inbox|
    {
      var round;
      ghost var last;
      round, last := PollOnce(stream, id);
      Regroup(before, events, last);
      match round
      case Stop =>
        CallEnds(id, task, all, n, events, last, None);
        return None, n, events + last;
      case Done(result) =>
        CallEnds(id, task, all, n, events, last, Some(result));
        return Some(result), n, events + last;
      case Again =>
        WaitsOn(id, task, all, n, events);
        n, events := n + 1, events + last;
    }
  }

  lemma Regroup(a: seq<Event>, b: seq<Event>, c: seq<Event>)
    ensures (a + b) + c == a + (b + c)
  {
  }

  lemma {:induction false} PollsSucceed(id: Id, replies: seq<NodeMessage>, k: nat)
    requires k < |Polls(id, replies)|
    ensures !IsFailure(Polls(id, replies)[k])
  {
    if replies != [] {
      var rest := replies[..|replies| - 1];
      if k < |Polls(id, rest)| {
        PollsSucceed(id, rest, k);
      }
    }
  }

  /** A call gives up if and only if something failed: a write, a read, or the deadline was over at
      one of the two places the client looks. */
  lemma GivesUpExactly(id: Id, task: Task, replies: seq<NodeMessage>, n: nat, events: seq<Event>, r: Option<TaskResult>)
    requires IsCall(id, task, replies, n, events, r)
    ensures r.None? <==> exists k :: 0 <= k < |events| && IsFailure(events[k])
  {
    if |events| < 2 || events[0] != Wrote(SubmitTask(id, task)) || !events[1].Took? {
      assert IsFailure(events[|events| - 1]);
    } else {
      var polls := Polls(id, replies[1..n + 1]);
      var polled := [Wrote(SubmitTask(id, task)), Took(replies[0])] + polls;
      var last := events[|polled|..];
      assert events == polled + last;
      if r.None? {
        assert IsFailure(last[|last| - 1]) && last[|last| - 1] == events[|events| - 1];
      } else if k :| 0 <= k < |events| && IsFailure(events[k]) {
        if 2 <= k < |polled| {
          PollsSucceed(id, replies[1..n + 1], k - 2);
        }
        assert false;
      }
    }
  }

  function Requests(events: seq<Event>): nat {
    if events == [] then 0 else Requests(events[..|events| - 1]) + (if events[|events| - 1].Wrote? then 1 else 0)
  }

  function Replies(events: seq<Event>): nat {
    if events == [] then 0 else Replies(events[..|events| - 1]) + (if events[|events| - 1].Took? then 1 else 0)
  }

  lemma {:induction false} CountsAdd(a: seq<Event>, b: seq<Event>)
    ensures Requests(a + b) == Requests(a) + Requests(b) && Replies(a + b) == Replies(a) + Replies(b)
    decreases |b|
  {
    if b == [] {
      assert a + b == a;
    } else {
      var rest := b[..|b| - 1];
      assert (a + b)[..|a + b| - 1] == a + rest;
      CountsAdd(a, rest);
    }
  }

  lemma CountOne(e: Event)
    ensures Requests([e]) == (if e.Wrote? then 1 else 0) && Replies([e]) == (if e.Took? then 1 else 0)
  {
    assert [e][..0] == [];
  }

  lemma CountThree(a: Event, b: Event, c: Event)
    ensures Requests([a, b]) == Requests([a]) + Requests([b]) && Replies([a, b]) == Replies([a]) + Replies([b])
    ensures Requests([a, b, c]) == Requests([a, b]) + Requests([c]) && Replies([a, b, c]) == Replies([a, b]) + Replies([c])
  {
    CountsAdd([a], [b]);
    CountsAdd([a, b], [c]);
    assert [a] + [b] == [a, b] && [a, b] + [c] == [a, b, c];
  }

  lemma PollCounts(id: Id, m: NodeMessage)
    ensures Requests(Poll(id, m)) == Replies(Poll(id, m)) == 1
    ensures Requests([Looked(false)]) == Replies([Looked(false)]) == 0
  {
    CountOne(Wrote(GetTaskResult(id)));
    CountOne(Looked(false));
    CountOne(Took(m));
    CountThree(Wrote(GetTaskResult(id)), Looked(false), Took(m));
  }

  lemma {:induction false} PollsCount(id: Id, replies: seq<NodeMessage>)
    ensures Requests(Polls(id, replies)) == Replies(Polls(id, replies)) == |replies|
  {
    if replies != [] {
      var rest, m := replies[..|replies| - 1], replies[|replies| - 1];
      PollsCount(id, rest);
      CountsAdd(Polls(id, rest), Poll(id, m));
      CountsAdd(Polls(id, rest) + Poll(id, m), [Looked(false)]);
      PollCounts(id, m);
    }
  }

  lemma FailureCounts(id: Id, events: seq<Event>)
    requires EndsInFailure(id, events)
    ensures Replies(events) <= Requests(events) <= Replies(events) + 1
  {
    CountOne(WriteFailed);
    CountOne(Wrote(GetTaskResult(id)));
    CountOne(Looked(true));
    CountOne(Looked(false));
    CountOne(ReadFailed);
    CountThree(Wrote(GetTaskResult(id)), Looked(true), ReadFailed);
    CountThree(Wrote(GetTaskResult(id)), Looked(false), ReadFailed);
    if |events| == 4 {
      CountsAdd(Poll(id, events[2].m), [Looked(true)]);
      PollCounts(id, events[2].m);
    }
  }

  /** On Ok every request has been answered; a call that gives up leaves at most one unanswered. */
  lemma AtMostOneUnread(id: Id, task: Task, replies: seq<NodeMessage>, n: nat, events: seq<Event>, r: Option<TaskResult>)
    requires IsCall(id, task, replies, n, events, r)
    ensures Replies(events) <= Requests(events) <= Replies(events) + (if r.Some? then 0 else 1)
  {
    var submit := Wrote(SubmitTask(id, task));
    CountOne(submit);
    CountOne(WriteFailed);
    CountOne(ReadFailed);
    CountThree(submit, ReadFailed, ReadFailed);
    if |events| >= 2 && events[0] == submit && events[1].Took? {
      var polls := Polls(id, replies[1..n + 1]);
      var polled := [submit, Took(replies[0])] + polls;
      var last := events[|polled|..];
      assert events == polled + last;
      CountOne(Took(replies[0]));
      CountThree(submit, Took(replies[0]), ReadFailed);
      CountsAdd([submit, Took(replies[0])], polls);
      CountsAdd(polled, last);
      PollsCount(id, replies[1..n + 1]);
      hide Requests, Replies, Polls, Poll, EndsInFailure;
      if r.None? {
        FailureCounts(id, last);
      } else {
        PollCounts(id, replies[n + 1]);
      }
    }
  }
}
