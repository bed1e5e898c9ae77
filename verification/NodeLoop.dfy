/** The node's side as it runs: the `AssignTask` arm of `heartbeat_loop` and `reconnect`. */
module NodeLoop {
  import opened Protocol
  import opened Counting

  /** One attempt to write a message. */
  datatype Try = Try(m: NodeMessage, ok: bool)

  /** A connection to a master; writes may fail. Every attempt is logged. */
  class Connection {
    var log: seq<Try>

    constructor ()
      ensures log == []
    {
      log := [];
    }

    method Write(m: NodeMessage) returns (ok: bool)
      modifies this
      ensures log == old(log) + [Try(m, ok)]
    {
      ok := *;
      log := log + [Try(m, ok)];
    }
  }

  /** What a master has been sent in full. */
  function Sent(log: seq<Try>): seq<NodeMessage> {
    if log == [] then []
    else
      var t := log[|log| - 1];
      Sent(log[..|log| - 1]) + (if t.ok then [t.m] else [])
  }

  lemma {:induction false} SentHas(log: seq<Try>, k: nat)
    requires k < |log| && log[k].ok
    ensures log[k].m in Sent(log)
  {
    if k < |log| - 1 {
      SentHas(log[..|log| - 1], k);
    }
  }

  datatype Attempt = Refused | BrokenDuringAuth | InvalidToken | Accepted

  /** One attempt to connect. */
  datatype Dial = Dial(addr: Addr, outcome: Attempt)

  function Dialled(dials: seq<Dial>): seq<Addr> {
    seq(|dials|, i requires 0 <= i < |dials| => dials[i].addr)
  }

  /** The configured addresses, `n` times over. */
  function Rounds(addresses: seq<Addr>, n: nat): seq<Addr> {
    if n == 0 then [] else Rounds(addresses, n - 1) + addresses
  }

  predicate GoesOn(outcome: Attempt) {
    outcome.Refused? || outcome.InvalidToken?
  }

  class NodeProcess {
    var openTasks: map<Id, NodeMessage>
    var dials: seq<Dial>

    constructor ()
      ensures openTasks == map[] && dials == []
    {
      openTasks, dials := map[], [];
    }

    /** The result of an assignment is in the outbox before it is written, is written once, and
        leaves the outbox only when the whole message was written. */
    method Report(stream: Connection, id: Id, result: TaskResult) returns (sent: bool)
      modifies this`openTasks, stream
      ensures stream.log == old(stream.log) + [Try(ResultOf(id, result), sent)]
      ensures openTasks == if sent then old(openTasks) - {id} else old(openTasks)[id := ResultOf(id, result)]
    {
      var msg := ResultOf(id, result);
      openTasks := openTasks[id := msg];
      sent := stream.Write(msg);
      if sent {
        openTasks := openTasks - {id};
      }
    }

    /** Dials the configured addresses in turn, up to `maxRetries + 1` times over, until one accepts
        the token; gives up early only when an accepted connection breaks during authentication.
        On success every entry of the outbox was tried once, after asking for the nodes; the
        outbox itself is not changed. */
    method Reconnect(addresses: seq<Addr>, maxRetries: nat)
      returns (stream: Connection?, ghost tried: seq<Id>, ghost made: seq<Dial>)
      modifies this`dials
      ensures dials == old(dials) + made
      ensures Dialled(made) <= Rounds(addresses, maxRetries + 1)
      ensures forall k :: 0 <= k < |made| - 1 ==> GoesOn(made[k].outcome)
      ensures stream != null <==> made != [] && made[|made| - 1].outcome.Accepted?
      ensures stream == null ==>
                || (made != [] && made[|made| - 1].outcome.BrokenDuringAuth?)
                || (Dialled(made) == Rounds(addresses, maxRetries + 1) && forall k :: 0 <= k < |made| ==> GoesOn(made[k].outcome))
      ensures stream != null ==> fresh(stream) && Resent(stream.log, openTasks, tried)
    {
      stream, tried, made := null, [], [];
      var attempt := 0;
      while attempt <= maxRetries
        invariant attempt <= maxRetries + 1
        invariant dials == old(dials) + made && Dialled(made) == Rounds(addresses, attempt)
        invariant forall k :: 0 <= k < |made| ==> GoesOn(made[k].outcome)
      {
        for k := 0 to |addresses|
          invariant dials == old(dials) + made && Dialled(made) == Rounds(addresses, attempt) + addresses[..k]
          invariant forall k :: 0 <= k < |made| ==> GoesOn(made[k].outcome)
        {
          var outcome := TryConnect(addresses[k]);
          OneMoreDial(made, addresses, attempt, maxRetries, k, outcome);
          made := made + [Dial(addresses[k], outcome)];
          match outcome
          case Refused =>
          case InvalidToken =>
          case BrokenDuringAuth => return null, [], made;
          case Accepted =>
            stream := new Connection();
            var asked := stream.Write(GetConnectedNodes);
            tried := ResendAll(stream, openTasks);
            return stream, tried, made;
        }
        assert addresses[..|addresses|] == addresses;
        attempt := attempt + 1;
      }
    }

    method TryConnect(address: Addr) returns (outcome: Attempt)
      modifies this`dials
      ensures dials == old(dials) + [Dial(address, outcome)]
    {
      var n: int := *;
      outcome := if n == 0 then Refused else if n == 1 then BrokenDuringAuth else if n == 2 then InvalidToken else Accepted;
      dials := dials + [Dial(address, outcome)];
    }
  }

  lemma {:induction false} RoundsGrow(addresses: seq<Addr>, m: nat, n: nat)
    requires m <= n
    ensures Rounds(addresses, m) <= Rounds(addresses, n)
  {
    if m < n {
      RoundsGrow(addresses, m, n - 1);
    }
  }

  lemma OneMoreDial(made: seq<Dial>, addresses: seq<Addr>, attempt: nat, maxRetries: nat, k: nat, outcome: Attempt)
    requires attempt <= maxRetries && k < |addresses| && Dialled(made) == Rounds(addresses, attempt) + addresses[..k]
    ensures Dialled(made + [Dial(addresses[k], outcome)]) == Rounds(addresses, attempt) + addresses[..k + 1]
    ensures Rounds(addresses, attempt) + addresses[..k + 1] <= Rounds(addresses, maxRetries + 1)
  {
    assert Dialled(made + [Dial(addresses[k], outcome)]) == Dialled(made) + [addresses[k]];
    assert addresses[..k + 1] == addresses[..k] + [addresses[k]];
    RoundsGrow(addresses, attempt + 1, maxRetries + 1);
  }

  /** A new connection's log: the nodes asked for, then every entry of the outbox tried once. */
  ghost predicate Resent(log: seq<Try>, tasks: map<Id, NodeMessage>, tried: seq<Id>) {
    log != [] && log[0].m == GetConnectedNodes && AllTried(log[1..], tasks, tried)
  }

  ghost predicate AllTried(log: seq<Try>, tasks: map<Id, NodeMessage>, tried: seq<Id>) {
    && multiset(tried) == multiset(tasks.Keys)
    && |log| == |tried|
    && forall k :: 0 <= k < |tried| ==> tried[k] in tasks && log[k].m == tasks[tried[k]]
  }

  /** The resend loop of `reconnect`: a failed write is logged and the loop goes on. */
  method ResendAll(stream: Connection, tasks: map<Id, NodeMessage>) returns (ghost tried: seq<Id>)
    modifies stream
    ensures |stream.log| >= |old(stream.log)| && stream.log[..|old(stream.log)|] == old(stream.log)
    ensures AllTried(stream.log[|old(stream.log)|..], tasks, tried)
  {
    tried := [];
    var todo := tasks.Keys;
    ghost var before, log := stream.log, [];
    while todo != {}
      invariant todo <= tasks.Keys && stream.log == before + log
      invariant multiset(tried) + multiset(todo) == multiset(tasks.Keys)
      invariant |log| == |tried| && forall k :: 0 <= k < |tried| ==> tried[k] in tasks && log[k].m == tasks[tried[k]]
      decreases |todo|
    {
      var id :| id in todo;
      var ok := stream.Write(tasks[id]);
      OneMoreTried(tried, todo, id);
      tried, log := tried + [id], log + [Try(tasks[id], ok)];
      todo := todo - {id};
    }
    assert stream.log[|before|..] == log;
  }

  lemma OneMoreTried(tried: seq<Id>, todo: set<Id>, id: Id)
    requires id in todo
    ensures multiset(tried + [id]) + multiset(todo - {id}) == multiset(tried) + multiset(todo)
  {
    assert todo == (todo - {id}) + {id};
  }

  /** Every entry of the outbox was tried exactly once; when no write fails the master has them all. */
  lemma EveryEntryTried(log: seq<Try>, tasks: map<Id, NodeMessage>, tried: seq<Id>, id: Id)
    requires AllTried(log, tasks, tried) && id in tasks
    ensures exists k :: 0 <= k < |log| && tried[k] == id && log[k].m == tasks[id]
    ensures forall j, k :: 0 <= j < k < |tried| ==> !(tried[j] == id && tried[k] == id)
    ensures (forall k :: 0 <= k < |log| ==> log[k].ok) ==> tasks[id] in Sent(log)
  {
    assert multiset(tasks.Keys)[id] == 1;
    assert id in multiset(tried);
    var k :| 0 <= k < |tried| && tried[k] == id;
    forall i, j | 0 <= i < j < |tried| ensures !(tried[i] == id && tried[j] == id) {
      if tried[i] == tried[j] {
        TwiceMeansTwo(tried, i, j);
      }
    }
    if forall k :: 0 <= k < |log| ==> log[k].ok {
      SentHas(log, k);
    }
  }
}
