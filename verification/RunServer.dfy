/** The run part of the mock App Server as the object its handlers update (web/scripts/mock-server.ts:370-423, 782-906). */
module RunServer {
  import opened Runs

  class Server {
    var runs: map<Id, Run>
    var idempotent: map<string, Receipt>
    var sockets: seq<Socket>
    var sequenceCounter: nat
    var next: Id

    ghost function View(): State
      reads this
    {
      State(runs, idempotent, sockets, sequenceCounter, next)
    }

    constructor ()
      ensures View() == INITIAL
    {
      runs, idempotent, sockets, sequenceCounter, next := map[], map[], [], 100, 0;
    }

    method AgentRun(valid: bool, key: string) returns (answer: Answer)
      modifies `runs, `idempotent, `next
      ensures (View(), answer) == Start(old(View()), valid, key)
    {
      if !valid {
        return InvalidRequest;
      }
      if key != "" && key in idempotent {
        return Receipted(idempotent[key]);
      }
      var run := Run(Planning, 1, [], 0);
      var receipt := Receipt(next, run.status, run.version);
      runs := runs[next := run];
      next := next + 1;
      if key != "" {
        idempotent := idempotent[key := receipt];
      }
      answer := Receipted(receipt);
    }

    /** Send one event to every follower of its run. */
    method Broadcast(e: Event)
      modifies `sockets
      ensures sockets == Tell(old(sockets), e)
    {
      ghost var before := sockets;
      var i := 0;
      while i < |sockets|
        invariant 0 <= i <= |sockets| == |before|
        invariant sockets[..i] == Tell(before[..i], e)
        invariant sockets[i..] == before[i..]
      {
        assert before[..i + 1][..i] == before[..i];
        assert sockets[i] == before[i];
        if Follows(sockets[i], e.run) {
          sockets := sockets[i := sockets[i].(received := sockets[i].received + [e])];
        }
        i := i + 1;
      }
      assert before[..i] == before && sockets[..i] == sockets;
    }

    /** Send a change of status to every follower, drawing a number for each. */
    method BroadcastStatus(run: Id, kind: Kind)
      modifies `sockets, `sequenceCounter
      ensures (sockets, sequenceCounter) == Announce(old(sockets), run, kind, old(sequenceCounter))
    {
      ghost var before, start := sockets, sequenceCounter;
      var told: seq<Socket> := [];
      while |told| < |sockets|
        invariant |told| <= |sockets| && sockets == before
        invariant (told, sequenceCounter) == Announce(before[..|told|], run, kind, start)
      {
        var k := sockets[|told|];
        AnnounceNext(before, |told|, run, kind, start);
        if Follows(k, run) {
          sequenceCounter := sequenceCounter + 1;
          k := k.(received := k.received + [Event(run, sequenceCounter, kind)]);
        }
        told := told + [k];
      }
      assert before[..|told|] == before;
      sockets := told;
    }

    method RunCancel(id: Id, expected: int) returns (answer: Answer)
      modifies `runs, `sockets, `sequenceCounter
      ensures (View(), answer) == Cancel(old(View()), id, expected)
    {
      if id !in runs {
        return NotFound;
      }
      if expected != runs[id].version {
        return NotResumable;
      }
      runs := runs[id := runs[id].(status := Cancelled, version := runs[id].version + 1)];
      BroadcastStatus(id, StatusCancelled);
      answer := Done;
    }

    /** The run's next timer: one of its five progress events, or its completion. */
    method FireTimer(id: Id)
      modifies `runs, `sockets, `sequenceCounter
      ensures View() == Fire(old(View()), id)
    {
      if id !in runs || runs[id].fired > |STAGES| {
        return;
      }
      var run := runs[id];
      runs := runs[id := run.(fired := run.fired + 1)];
      if run.status == Cancelled {
        return;
      }
      if run.fired < |STAGES| {
        sequenceCounter := sequenceCounter + 1;
        var e := Event(id, sequenceCounter, STAGES[run.fired]);
        runs := runs[id := runs[id].(events := run.events + [e])];
        Broadcast(e);
      } else {
        runs := runs[id := runs[id].(status := Completed, version := run.version + 1)];
        BroadcastStatus(id, StatusCompleted);
      }
    }

    /** One request or timer. */
    method Handle(op: Op) returns (answer: Answer)
      requires Valid(View())
      modifies this
      ensures (View(), answer) == Apply(old(View()), op) && Valid(View())
    {
      ApplyKeeps(View(), op);
      answer := Done;
      match op {
        case OpStart(valid, key) => answer := AgentRun(valid, key);
        case OpCancel(run, expected) => answer := RunCancel(run, expected);
        case OpFire(run) => FireTimer(run);
        case OpOpen => sockets := sockets + [Socket(true, {}, [])];
        case OpClose(k) =>
          if k < |sockets| {
            sockets := sockets[k := sockets[k].(open := false)];
          }
        case OpSubscribe(k, run) =>
          if run !in runs {
            answer := NotFound;
          } else if k < |sockets| {
            sockets := sockets[k := sockets[k].(following := sockets[k].following + {run})];
          }
        case OpUnsubscribe(k, run) =>
          if k < |sockets| {
            sockets := sockets[k := sockets[k].(following := sockets[k].following - {run})];
          }
      }
    }
  }
}
