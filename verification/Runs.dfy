/**
 Agent runs of the mock App Server: idempotent starts, progress on timers, version-checked cancellation and one
 sequence counter for every event of every run (web/scripts/mock-server.ts:348-423, 782-906).
 */
module Runs {

  type Id = nat

  datatype Status = Planning | Completed | Cancelled

  datatype Kind = Started | RunningNow | TaskRead | TaskInspect | TaskReport | StatusCompleted | StatusCancelled

  datatype Event = Event(run: Id, sequence: nat, kind: Kind)

  /** `fired` counts the run's timers that have fired: five for its progress, the sixth for its completion. */
  datatype Run = Run(status: Status, version: nat, events: seq<Event>, fired: nat)

  datatype Receipt = Receipt(run: Id, status: Status, version: nat)

  /** A socket ever opened, in the order of opening. */
  datatype Socket = Socket(open: bool, following: set<Id>, received: seq<Event>)

  datatype State = State(runs: map<Id, Run>, receipts: map<string, Receipt>, sockets: seq<Socket>, counter: nat, next: Id)

  datatype Answer = Done | InvalidRequest | NotFound | NotResumable | Receipted(receipt: Receipt)

  const INITIAL := State(map[], map[], [], 100, 0)
  const STAGES := [Started, RunningNow, TaskRead, TaskInspect, TaskReport]

  predicate Follows(k: Socket, run: Id) {
    k.open && run in k.following
  }

  /** Send one event, under one number, to every follower. */
  function Tell(sockets: seq<Socket>, e: Event): (r: seq<Socket>)
    ensures |r| == |sockets|
    ensures forall i :: 0 <= i < |r| ==>
      r[i] == if Follows(sockets[i], e.run) then sockets[i].(received := sockets[i].received + [e]) else sockets[i]
  {
    if sockets == [] then []
    else
      var last := sockets[|sockets| - 1];
      Tell(sockets[..|sockets| - 1], e)
      + [if Follows(last, e.run) then last.(received := last.received + [e]) else last]
  }

  /** Send a change of status to every follower, each under a number of its own. */
  function Announce(sockets: seq<Socket>, run: Id, kind: Kind, counter: nat): (r: (seq<Socket>, nat))
    ensures |r.0| == |sockets| && r.1 >= counter
  {
    if sockets == [] then ([], counter)
    else
      var last := sockets[|sockets| - 1];
      var (told, n) := Announce(sockets[..|sockets| - 1], run, kind, counter);
      if Follows(last, run) then (told + [last.(received := last.received + [Event(run, n + 1, kind)])], n + 1)
      else (told + [last], n)
  }

  lemma AnnounceNext(sockets: seq<Socket>, i: nat, run: Id, kind: Kind, counter: nat)
    requires i < |sockets|
    ensures var (told, n) := Announce(sockets[..i], run, kind, counter);
            var k := sockets[i];
            Announce(sockets[..i + 1], run, kind, counter) ==
              if Follows(k, run) then (told + [k.(received := k.received + [Event(run, n + 1, kind)])], n + 1)
              else (told + [k], n)
  {
    assert sockets[..i + 1][..i] == sockets[..i];
  }

  /** `valid` tells whether the agent and the reasoning effort are known ones. An empty key is no key. */
  function Start(s: State, valid: bool, key: string): (State, Answer) {
    if !valid then (s, InvalidRequest)
    else if key != "" && key in s.receipts then (s, Receipted(s.receipts[key]))
    else
      var receipt := Receipt(s.next, Planning, 1);
      (s.(runs := s.runs[s.next := Run(Planning, 1, [], 0)],
          receipts := if key != "" then s.receipts[key := receipt] else s.receipts,
          next := s.next + 1),
       Receipted(receipt))
  }

  function Cancel(s: State, id: Id, expected: int): (State, Answer) {
    if id !in s.runs then (s, NotFound)
    else if expected != s.runs[id].version then (s, NotResumable)
    else
      var (told, n) := Announce(s.sockets, id, StatusCancelled, s.counter);
      (s.(runs := s.runs[id := s.runs[id].(status := Cancelled, version := s.runs[id].version + 1)],
          sockets := told, counter := n),
       Done)
  }

  predicate Due(s: State, id: Id) {
    id in s.runs && s.runs[id].fired <= |STAGES|
  }

  /** The run's next timer; on a cancelled run it does nothing. */
  function Fire(s: State, id: Id): State {
    if !Due(s, id) then s
    else
      var run := s.runs[id];
      var later := run.(fired := run.fired + 1);
      if run.status == Cancelled then s.(runs := s.runs[id := later])
      else if run.fired < |STAGES| then
        var e := Event(id, s.counter + 1, STAGES[run.fired]);
        s.(runs := s.runs[id := later.(events := run.events + [e])],
           sockets := Tell(s.sockets, e), counter := s.counter + 1)
      else
        var (told, n) := Announce(s.sockets, id, StatusCompleted, s.counter);
        s.(runs := s.runs[id := later.(status := Completed, version := run.version + 1)],
           sockets := told, counter := n)
  }

  function Open(s: State): State {
    s.(sockets := s.sockets + [Socket(true, {}, [])])
  }

  function Close(s: State, k: nat): State {
    if k < |s.sockets| then s.(sockets := s.sockets[k := s.sockets[k].(open := false)]) else s
  }

  function Subscribe(s: State, k: nat, id: Id): (State, Answer) {
    if id !in s.runs then (s, NotFound)
    else if k < |s.sockets| then
      (s.(sockets := s.sockets[k := s.sockets[k].(following := s.sockets[k].following + {id})]), Done)
    else (s, Done)
  }

  function Unsubscribe(s: State, k: nat, id: Id): State {
    if k < |s.sockets| then s.(sockets := s.sockets[k := s.sockets[k].(following := s.sockets[k].following - {id})]) else s
  }

  datatype Op =
    | OpStart(valid: bool, key: string)
    | OpCancel(run: Id, expected: int)
    | OpFire(run: Id)
    | OpOpen
    | OpClose(socket: nat)
    | OpSubscribe(socket: nat, run: Id)
    | OpUnsubscribe(socket: nat, run: Id)

  function Apply(s: State, op: Op): (State, Answer) {
    match op
    case OpStart(valid, key) => Start(s, valid, key)
    case OpCancel(run, expected) => Cancel(s, run, expected)
    case OpFire(run) => (Fire(s, run), Done)
    case OpOpen => (Open(s), Done)
    case OpClose(k) => (Close(s, k), Done)
    case OpSubscribe(k, run) => Subscribe(s, k, run)
    case OpUnsubscribe(k, run) => (Unsubscribe(s, k, run), Done)
  }

  function Exec(s: State, ops: seq<Op>): State
    decreases |ops|
  {
    if ops == [] then s else Exec(Apply(s, ops[0]).0, ops[1..])
  }

  // ---- Keys ----

  lemma ApplyKeepsReceipts(s: State, op: Op, key: string)
    requires key in s.receipts
    ensures var r := Apply(s, op).0; key in r.receipts && r.receipts[key] == s.receipts[key]
  {}

  lemma {:induction false} ReceiptIsForever(s: State, ops: seq<Op>, key: string)
    requires key in s.receipts
    ensures key in Exec(s, ops).receipts && Exec(s, ops).receipts[key] == s.receipts[key]
    decreases |ops|
  {
    if ops != [] {
      ApplyKeepsReceipts(s, ops[0], key);
      ReceiptIsForever(Apply(s, ops[0]).0, ops[1..], key);
    }
  }

  /**
   A key starts one run for ever: any later start with it, after anything at all, is answered with the first receipt,
   status and version as they were then, and changes nothing.
   */
  lemma OneKeyOneRun(s: State, key: string, ops: seq<Op>)
    requires key != ""
    ensures var (r, answer) := Start(s, true, key);
            && answer.Receipted?
            && var later := Exec(r, ops); Start(later, true, key) == (later, answer)
  {
    ReceiptIsForever(Start(s, true, key).0, ops, key);
  }

  /** Without a key every valid start makes a run of its own. */
  lemma NoKeyNewRun(s: State)
    requires forall id :: id in s.runs ==> id < s.next
    ensures var (r, answer) := Start(s, true, "");
            answer.Receipted? && answer.receipt.run !in s.runs && r.runs.Keys == s.runs.Keys + {answer.receipt.run}
            && r.receipts == s.receipts
  {}

  // ---- Versions and cancellation ----

  lemma ApplyGrowsVersion(s: State, op: Op, id: Id)
    requires id in s.runs && id < s.next
    ensures var r := Apply(s, op).0;
            && id in r.runs && id < r.next && r.runs[id].version >= s.runs[id].version
            && (r.runs[id].status != s.runs[id].status ==> r.runs[id].version == s.runs[id].version + 1)
            && (s.runs[id].status == Cancelled ==>
                  r.runs[id].status == Cancelled && r.runs[id].events == s.runs[id].events)
  {}

  lemma {:induction false} VersionsGrow(s: State, ops: seq<Op>, id: Id)
    requires id in s.runs && id < s.next
    ensures var r := Exec(s, ops); id in r.runs && r.runs[id].version >= s.runs[id].version
    decreases |ops|
  {
    if ops != [] {
      ApplyGrowsVersion(s, ops[0], id);
      VersionsGrow(Apply(s, ops[0]).0, ops[1..], id);
    }
  }

  /** A cancelled run stays cancelled, and no timer adds to its history any more. */
  lemma {:induction false} CancelledIsForever(s: State, ops: seq<Op>, id: Id)
    requires id in s.runs && id < s.next && s.runs[id].status == Cancelled
    ensures var r := Exec(s, ops);
            id in r.runs && r.runs[id].status == Cancelled && r.runs[id].events == s.runs[id].events
    decreases |ops|
  {
    if ops != [] {
      ApplyGrowsVersion(s, ops[0], id);
      CancelledIsForever(Apply(s, ops[0]).0, ops[1..], id);
    }
  }

  /** Of all the cancellations that name one version of a run, at most one is accepted; the others change nothing. */
  lemma OneCancelPerVersion(s: State, id: Id, expected: int, ops: seq<Op>)
    requires id in s.runs && id < s.next && Cancel(s, id, expected).1 == Done
    ensures var later := Exec(Cancel(s, id, expected).0, ops);
            Cancel(later, id, expected) == (later, NotResumable)
  {
    ApplyGrowsVersion(s, OpCancel(id, expected), id);
    VersionsGrow(Cancel(s, id, expected).0, ops, id);
  }

  /** A cancellation is accepted exactly when it names the current version, whatever the status. */
  lemma CancelNeedsCurrentVersion(s: State, id: Id, expected: int)
    ensures Cancel(s, id, expected).1 == Done <==> id in s.runs && s.runs[id].version == expected
    ensures Cancel(s, id, expected).1 != Done ==> Cancel(s, id, expected).0 == s
  {}

  // ---- What every reachable state looks like ----

  predicate Increasing(events: seq<Event>, bound: nat) {
    && (forall i :: 0 <= i < |events| ==> events[i].sequence <= bound)
    && (forall i, j :: 0 <= i < j < |events| ==> events[i].sequence < events[j].sequence)
  }

  predicate History(events: seq<Event>, id: Id) {
    && |events| <= |STAGES|
    && forall i :: 0 <= i < |events| ==> events[i].kind == STAGES[i] && events[i].run == id
  }

  /** The status, the version, the timers and the history of a run agree. */
  predicate Consistent(run: Run) {
    match run.status
    case Planning => run.version == 1 && run.fired == |run.events| <= |STAGES|
    case Completed => run.version == 2 && run.fired == |STAGES| + 1 && |run.events| == |STAGES|
    case Cancelled => run.version >= 2 && |run.events| <= run.fired <= |STAGES| + 1
  }

  predicate RunOk(run: Run, id: Id, counter: nat) {
    Consistent(run) && History(run.events, id) && Increasing(run.events, counter)
  }

  predicate RunsOk(s: State) {
    forall id :: id in s.runs ==> id < s.next && RunOk(s.runs[id], id, s.counter)
  }

  predicate SocketsOk(sockets: seq<Socket>, counter: nat) {
    forall i :: 0 <= i < |sockets| ==> Increasing(sockets[i].received, counter)
  }

  predicate ReceiptsOk(s: State) {
    && (forall key :: key in s.receipts ==>
          && key != "" && s.receipts[key].run in s.runs
          && s.receipts[key] == Receipt(s.receipts[key].run, Planning, 1))
    && (forall k1, k2 :: k1 in s.receipts && k2 in s.receipts && s.receipts[k1].run == s.receipts[k2].run ==> k1 == k2)
  }

  predicate Valid(s: State) {
    RunsOk(s) && SocketsOk(s.sockets, s.counter) && ReceiptsOk(s)
  }

  lemma IncreasingGrows(events: seq<Event>, bound: nat, e: Event)
    requires Increasing(events, bound) && e.sequence > bound
    ensures Increasing(events + [e], e.sequence)
  {}

  lemma TellKeeps(sockets: seq<Socket>, counter: nat, e: Event)
    requires SocketsOk(sockets, counter) && e.sequence > counter
    ensures SocketsOk(Tell(sockets, e), e.sequence)
  {
    forall i | 0 <= i < |sockets|
      ensures Increasing(Tell(sockets, e)[i].received, e.sequence)
    {
      IncreasingGrows(sockets[i].received, counter, e);
    }
  }

  lemma {:induction false} AnnounceKeeps(sockets: seq<Socket>, run: Id, kind: Kind, counter: nat)
    requires SocketsOk(sockets, counter)
    ensures var (told, n) := Announce(sockets, run, kind, counter); SocketsOk(told, n)
  {
    if sockets != [] {
      var last := sockets[|sockets| - 1];
      AnnounceKeeps(sockets[..|sockets| - 1], run, kind, counter);
      var (told, n) := Announce(sockets[..|sockets| - 1], run, kind, counter);
      IncreasingGrows(last.received, n, Event(run, n + 1, kind));
    }
  }

  function Followers(sockets: seq<Socket>, run: Id): nat {
    if sockets == [] then 0
    else Followers(sockets[..|sockets| - 1], run) + if Follows(sockets[|sockets| - 1], run) then 1 else 0
  }

  /** A change of status reaches every follower once and nobody else: the n-th follower under the n-th next number. */
  lemma {:induction false} AnnounceReaches(sockets: seq<Socket>, run: Id, kind: Kind, counter: nat, i: nat)
    requires i < |sockets|
    ensures Announce(sockets, run, kind, counter).1 == counter + Followers(sockets, run)
    ensures Announce(sockets, run, kind, counter).0[i] ==
            if Follows(sockets[i], run) then
              sockets[i].(received := sockets[i].received + [Event(run, counter + Followers(sockets[..i + 1], run), kind)])
            else sockets[i]
  {
    var init := sockets[..|sockets| - 1];
    if i < |init| {
      AnnounceReaches(init, run, kind, counter, i);
      assert init[..i + 1] == sockets[..i + 1];
    } else {
      assert sockets[..i + 1] == sockets;
      if init != [] {
        AnnounceReaches(init, run, kind, counter, 0);
      }
    }
  }

  /** So no two followers see the change under one number, and the number does not identify it across sockets. */
  lemma {:induction false} AnnouncedNumbersDiffer(sockets: seq<Socket>, run: Id, i: nat, j: nat)
    requires i < j < |sockets| && Follows(sockets[j], run)
    ensures Followers(sockets[..i + 1], run) < Followers(sockets[..j + 1], run)
  {
    assert sockets[..j + 1][..j] == sockets[..j];
    if i + 1 < j {
      FollowersGrow(sockets, run, i + 1, j);
    }
  }

  lemma {:induction false} FollowersGrow(sockets: seq<Socket>, run: Id, i: nat, j: nat)
    requires i <= j <= |sockets|
    ensures Followers(sockets[..i], run) <= Followers(sockets[..j], run)
  {
    if i < j {
      FollowersGrow(sockets, run, i, j - 1);
      assert sockets[..j][..j - 1] == sockets[..j - 1];
    }
  }

  lemma StartKeeps(s: State, valid: bool, key: string)
    requires Valid(s)
    ensures Valid(Start(s, valid, key).0)
  {}

  lemma CancelKeeps(s: State, id: Id, expected: int)
    requires Valid(s)
    ensures Valid(Cancel(s, id, expected).0)
  {
    AnnounceKeeps(s.sockets, id, StatusCancelled, s.counter);
  }

  lemma MoreRoom(run: Run, id: Id, counter: nat, more: nat)
    requires RunOk(run, id, counter) && more >= counter
    ensures RunOk(run, id, more)
  {}

  lemma ProgressKeepsRun(run: Run, id: Id, counter: nat)
    requires RunOk(run, id, counter) && run.status != Cancelled && run.fired < |STAGES|
    ensures RunOk(run.(fired := run.fired + 1, events := run.events + [Event(id, counter + 1, STAGES[run.fired])]),
                  id, counter + 1)
  {
    IncreasingGrows(run.events, counter, Event(id, counter + 1, STAGES[run.fired]));
  }

  lemma ProgressKeepsRuns(s: State, id: Id)
    requires RunsOk(s) && Due(s, id) && s.runs[id].status != Cancelled && s.runs[id].fired < |STAGES|
    ensures RunsOk(Fire(s, id))
  {
    var r := Fire(s, id);
    forall x | x in r.runs ensures x < r.next && RunOk(r.runs[x], x, r.counter) {
      if x == id {
        ProgressKeepsRun(s.runs[id], id, s.counter);
      } else {
        MoreRoom(s.runs[x], x, s.counter, s.counter + 1);
      }
    }
  }

  lemma ProgressKeeps(s: State, id: Id)
    requires Valid(s) && Due(s, id) && s.runs[id].status != Cancelled && s.runs[id].fired < |STAGES|
    ensures Valid(Fire(s, id))
  {
    ProgressKeepsRuns(s, id);
    TellKeeps(s.sockets, s.counter, Event(id, s.counter + 1, STAGES[s.runs[id].fired]));
  }

  lemma FireKeeps(s: State, id: Id)
    requires Valid(s)
    ensures Valid(Fire(s, id))
  {
    if Due(s, id) && s.runs[id].status != Cancelled {
      if s.runs[id].fired < |STAGES| {
        ProgressKeeps(s, id);
      } else {
        AnnounceKeeps(s.sockets, id, StatusCompleted, s.counter);
      }
    }
  }

  lemma ApplyKeeps(s: State, op: Op)
    requires Valid(s)
    ensures Valid(Apply(s, op).0)
  {
    match op
    case OpStart(valid, key) => StartKeeps(s, valid, key);
    case OpCancel(run, expected) => CancelKeeps(s, run, expected);
    case OpFire(run) => FireKeeps(s, run);
    case OpOpen =>
    case OpClose(_) =>
    case OpSubscribe(_, _) =>
    case OpUnsubscribe(_, _) =>
  }

  lemma {:induction false} RunsAreValid(s: State, ops: seq<Op>)
    requires Valid(s)
    ensures Valid(Exec(s, ops))
    decreases |ops|
  {
    if ops != [] {
      ApplyKeeps(s, ops[0]);
      RunsAreValid(Apply(s, ops[0]).0, ops[1..]);
    }
  }

  /**
   In every reachable state the numbers a socket received and the numbers of a run's history are strictly increasing,
   a history is an initial piece of the five stages, and a run that was not cancelled is at version 1 or, completed
   with its whole history, at version 2.
   */
  lemma ReachableRuns(ops: seq<Op>, id: Id, k: nat)
    requires id in Exec(INITIAL, ops).runs && k < |Exec(INITIAL, ops).sockets|
    ensures var s := Exec(INITIAL, ops);
            && Increasing(s.sockets[k].received, s.counter)
            && Increasing(s.runs[id].events, s.counter)
            && History(s.runs[id].events, id)
            && Consistent(s.runs[id])
  {
    RunsAreValid(INITIAL, ops);
  }

  /**
   Completion is not final: the caller who knows the new version can still cancel the run, which keeps its whole
   history and never shows as completed again.
   */
  lemma CompletedCanBeCancelled(s: State, id: Id, ops: seq<Op>)
    requires Valid(s) && id in s.runs && s.runs[id].status == Completed
    ensures Cancel(s, id, 2).1 == Done
    ensures var r := Exec(Cancel(s, id, 2).0, ops);
            id in r.runs && r.runs[id].status == Cancelled && |r.runs[id].events| == |STAGES|
  {
    CancelledIsForever(Cancel(s, id, 2).0, ops, id);
  }

  /** A completed run stays so exactly as long as nobody cancels it at its version, which is two. */
  lemma {:induction false} CompletedStaysExactly(s: State, ops: seq<Op>, id: Id)
    requires Valid(s) && id in s.runs && s.runs[id].status == Completed
    ensures id in Exec(s, ops).runs
    ensures Exec(s, ops).runs[id].status == Completed <==> OpCancel(id, 2) !in ops
    decreases |ops|
  {
    if ops != [] {
      var next := Apply(s, ops[0]).0;
      ApplyKeeps(s, ops[0]);
      ApplyOnCompleted(s, ops[0], id);
      if ops[0] == OpCancel(id, 2) {
        CancelledIsForever(next, ops[1..], id);
      } else {
        CompletedStaysExactly(next, ops[1..], id);
        assert OpCancel(id, 2) in ops <==> OpCancel(id, 2) in ops[1..];
      }
    }
  }

  lemma ApplyOnCompleted(s: State, op: Op, id: Id)
    requires Valid(s) && id in s.runs && s.runs[id].status == Completed
    ensures var r := Apply(s, op).0;
            && id in r.runs && id < r.next
            && r.runs[id].status == if op == OpCancel(id, 2) then Cancelled else Completed
  {}

  // ---- What followers receive ----

  /** An invalid start changes nothing; a valid new one makes a planned run without history. */
  lemma StartMakes(s: State, valid: bool, key: string)
    ensures
      var (r, a) := Start(s, valid, key);
      && (a.InvalidRequest? <==> !valid)
      && (!valid || (key != "" && key in s.receipts) ==> r == s)
      && (valid && !(key != "" && key in s.receipts) ==>
            && s.next in r.runs && a == Receipted(Receipt(s.next, r.runs[s.next].status, r.runs[s.next].version))
            && r.runs == s.runs[s.next := r.runs[s.next]] && r.runs[s.next].events == []
            && r.runs[s.next].status.Planning? && r.runs[s.next].version == 1 && r.runs[s.next].fired == 0
            && r.sockets == s.sockets && r.counter == s.counter)
      && (valid && key != "" && key !in s.receipts ==> key in r.receipts && a == Receipted(r.receipts[key]))
  {
  }

  /** What a step says about a run: one stage, its completion, or its cancellation. */
  function Says(s: State, op: Op, id: Id): seq<Kind> {
    match op
    case OpCancel(run, expected) =>
      if run == id && id in s.runs && expected == s.runs[id].version then [StatusCancelled] else []
    case OpFire(run) =>
      if run != id || !Due(s, id) || s.runs[id].status.Cancelled? then []
      else if s.runs[id].fired < |STAGES| then [STAGES[s.runs[id].fired]]
      else [StatusCompleted]
    case _ => []
  }

  /** The kinds of the events about one run, in the order received. */
  function KindsAbout(events: seq<Event>, id: Id): seq<Kind> {
    if events == [] then []
    else
      var last := events[|events| - 1];
      KindsAbout(events[..|events| - 1], id) + if last.run == id then [last.kind] else []
  }

  lemma KindsAboutAppend(events: seq<Event>, e: Event, id: Id)
    ensures KindsAbout(events + [e], id) == KindsAbout(events, id) + if e.run == id then [e.kind] else []
  {
    assert (events + [e])[..|events|] == events;
  }

  function HeardBy(s: State, k: nat, id: Id): seq<Kind>
    requires k < |s.sockets|
  {
    KindsAbout(s.sockets[k].received, id)
  }

  lemma AnnounceSays(sockets: seq<Socket>, run: Id, kind: Kind, counter: nat, k: nat, id: Id)
    requires k < |sockets|
    ensures KindsAbout(Announce(sockets, run, kind, counter).0[k].received, id) ==
      KindsAbout(sockets[k].received, id) + if run == id && Follows(sockets[k], id) then [kind] else []
  {
    AnnounceReaches(sockets, run, kind, counter, k);
    if Follows(sockets[k], run) {
      KindsAboutAppend(sockets[k].received, Event(run, counter + Followers(sockets[..k + 1], run), kind), id);
    }
  }

  /** One step tells a socket about a run exactly what it says, if the socket follows the run, and nothing otherwise. */
  lemma StepTells(s: State, op: Op, k: nat, id: Id)
    requires k < |s.sockets|
    ensures k < |Apply(s, op).0.sockets|
    ensures HeardBy(Apply(s, op).0, k, id) == HeardBy(s, k, id) + if Follows(s.sockets[k], id) then Says(s, op, id) else []
  {
    match op {
      case OpCancel(run, expected) => AnnounceSays(s.sockets, run, StatusCancelled, s.counter, k, id);
      case OpFire(run) =>
        if Due(s, run) && s.runs[run].status != Cancelled {
          if s.runs[run].fired < |STAGES| {
            KindsAboutAppend(s.sockets[k].received, Event(run, s.counter + 1, STAGES[s.runs[run].fired]), id);
          } else {
            AnnounceSays(s.sockets, run, StatusCompleted, s.counter, k, id);
          }
        }
      case OpStart(_, _) =>
      case OpOpen =>
      case OpClose(_) =>
      case OpSubscribe(_, _) =>
      case OpUnsubscribe(_, _) =>
    }
  }

  /** The socket follows the run before every step. */
  predicate FollowsThrough(s: State, ops: seq<Op>, k: nat, id: Id)
    decreases |ops|
  {
    ops == [] || (
      && k < |s.sockets| && Follows(s.sockets[k], id)
      && FollowsThrough(Apply(s, ops[0]).0, ops[1..], k, id))
  }

  function AllSays(s: State, ops: seq<Op>, id: Id): seq<Kind>
    decreases |ops|
  {
    if ops == [] then [] else Says(s, ops[0], id) + AllSays(Apply(s, ops[0]).0, ops[1..], id)
  }

  /** A socket that follows a run throughout receives every one of its changes, once and in order. */
  lemma {:induction false} FollowerHearsEverything(s: State, ops: seq<Op>, k: nat, id: Id)
    requires k < |s.sockets| && FollowsThrough(s, ops, k, id)
    ensures k < |Exec(s, ops).sockets|
    ensures HeardBy(Exec(s, ops), k, id) == HeardBy(s, k, id) + AllSays(s, ops, id)
    decreases |ops|
  {
    if ops != [] {
      StepTells(s, ops[0], k, id);
      FollowerHearsEverything(Apply(s, ops[0]).0, ops[1..], k, id);
    }
  }

  /** The changes a run still announces when it has seen `fired` timers, if it is never cancelled. */
  function Script(fired: nat): seq<Kind> {
    if fired <= 6 then
      [Started, RunningNow, TaskRead, TaskInspect, TaskReport, StatusCompleted][fired..]
    else []
  }

  lemma ScriptGoesOn(fired: nat)
    requires fired <= |STAGES|
    ensures Script(fired) == [if fired < |STAGES| then STAGES[fired] else StatusCompleted] + Script(fired + 1)
  {
  }

  lemma FireFollowsScript(s: State, id: Id)
    requires Due(s, id) && s.runs[id].status != Cancelled
    ensures id in Fire(s, id).runs && Fire(s, id).runs[id].status != Cancelled
    ensures Says(s, OpFire(id), id) + Script(Fire(s, id).runs[id].fired) == Script(s.runs[id].fired)
  {
    ScriptGoesOn(s.runs[id].fired);
  }

  lemma OthersLeaveRun(s: State, op: Op, id: Id)
    requires id in s.runs && id != s.next
    requires !(op.OpCancel? && op.run == id) && !(op.OpFire? && op.run == id && Due(s, id))
    ensures id in Apply(s, op).0.runs && Apply(s, op).0.runs[id] == s.runs[id] && Says(s, op, id) == []
  {
  }

  lemma StepFollowsScript(s: State, op: Op, id: Id)
    requires id in s.runs && id != s.next && s.runs[id].status != Cancelled && !(op.OpCancel? && op.run == id)
    ensures id in Apply(s, op).0.runs && Apply(s, op).0.runs[id].status != Cancelled
    ensures Says(s, op, id) + Script(Apply(s, op).0.runs[id].fired) == Script(s.runs[id].fired)
  {
    if op == OpFire(id) && Due(s, id) {
      FireFollowsScript(s, id);
    } else {
      OthersLeaveRun(s, op, id);
      assert [] + Script(s.runs[id].fired) == Script(s.runs[id].fired);
    }
  }

  /**
   As long as nobody names it in a cancellation, a run announces an initial piece of the same six changes, whatever else
   happens; all of them once its timers are through.
   */
  lemma {:induction false} UncancelledRunsFollowScript(s: State, ops: seq<Op>, id: Id)
    requires Valid(s) && id in s.runs && s.runs[id].status != Cancelled
    requires forall i :: 0 <= i < |ops| ==> !(ops[i].OpCancel? && ops[i].run == id)
    ensures id in Exec(s, ops).runs && Exec(s, ops).runs[id].status != Cancelled
    ensures AllSays(s, ops, id) + Script(Exec(s, ops).runs[id].fired) == Script(s.runs[id].fired)
    decreases |ops|
  {
    if ops != [] {
      var next := Apply(s, ops[0]).0;
      ApplyKeeps(s, ops[0]);
      StepFollowsScript(s, ops[0], id);
      UncancelledRunsFollowScript(next, ops[1..], id);
      Associative(Says(s, ops[0], id), AllSays(next, ops[1..], id), Script(Exec(s, ops).runs[id].fired));
    }
  }

  lemma Associative<T>(a: seq<T>, b: seq<T>, c: seq<T>)
    ensures (a + b) + c == a + (b + c)
  {
  }

  /** Every change of a run has its effect on the run itself. */
  lemma ChangesShow(s: State, op: Op, id: Id)
    requires id in s.runs && s.next !in s.runs
    ensures
      var r := Apply(s, op).0; var says := Says(s, op, id);
      && id in r.runs
      && (says == [StatusCancelled] ==>
            r.runs[id] == s.runs[id].(status := r.runs[id].status, version := s.runs[id].version + 1) && r.runs[id].status.Cancelled?)
      && (says == [StatusCompleted] ==>
            && r.runs[id].status.Completed? && r.runs[id].version == s.runs[id].version + 1
            && r.runs[id].events == s.runs[id].events)
      && (says != [] && says != [StatusCancelled] && says != [StatusCompleted] ==>
            && r.runs[id].status == s.runs[id].status && r.runs[id].version == s.runs[id].version
            && r.runs[id].events == s.runs[id].events + [Event(id, s.counter + 1, says[0])])
      && (says == [] ==> r.runs[id] == s.runs[id].(fired := r.runs[id].fired))
  {
  }

  /** A subscription answered Done follows the run, an unsubscription ends that, and nothing else changes. */
  lemma SubscriptionsFollow(s: State, k: nat, id: Id)
    requires k < |s.sockets|
    ensures
      var (r, a) := Subscribe(s, k, id);
      && (a.Done? <==> id in s.runs) && (a.NotFound? <==> id !in s.runs) && (a.NotFound? ==> r == s)
      && (a.Done? ==>
            && (Follows(r.sockets[k], id) <==> s.sockets[k].open)
            && r == s.(sockets := s.sockets[k := r.sockets[k]])
            && (forall other :: other != id ==> (Follows(r.sockets[k], other) <==> Follows(s.sockets[k], other)))
            && r.sockets[k].received == s.sockets[k].received)
    ensures
      var r := Unsubscribe(s, k, id);
      && !Follows(r.sockets[k], id)
      && r == s.(sockets := s.sockets[k := r.sockets[k]])
      && (forall other :: other != id ==> (Follows(r.sockets[k], other) <==> Follows(s.sockets[k], other)))
      && r.sockets[k].received == s.sockets[k].received
  {
  }

  /** A new socket is open and follows nothing; a closed one follows nothing, and the others stay as they are. */
  lemma SocketsOpenAndClose(s: State, k: nat)
    ensures
      var r := Open(s); var n := |s.sockets|;
      && r == s.(sockets := s.sockets + [r.sockets[n]]) && r.sockets[n].open && r.sockets[n].received == []
      && forall id :: !Follows(r.sockets[n], id)
    ensures k < |s.sockets| ==>
      var r := Close(s, k);
      && r == s.(sockets := s.sockets[k := r.sockets[k]]) && r.sockets[k].received == s.sockets[k].received
      && forall id :: !Follows(r.sockets[k], id)
  {
  }

  // ---- Reading the history ----

  function After(events: seq<Event>, after: int): (r: seq<Event>)
    ensures |r| <= |events|
  {
    if events == [] then []
    else
      var rest := After(events[..|events| - 1], after);
      if events[|events| - 1].sequence > after then rest + [events[|events| - 1]] else rest
  }

  /**
   A positive limit keeps the newest events; zero keeps everything, because the slice then starts at the beginning, and
   a negative one leaves out as many of the oldest.
   */
  function Page(events: seq<Event>, after: int, limit: int): (r: seq<Event>) {
    var newer := After(events, after);
    if limit > 0 then (if |newer| <= limit then newer else newer[|newer| - limit..])
    else if |newer| <= -limit then []
    else newer[-limit..]
  }

  /** In an increasing history the events after a position's number are the ones behind that position. */
  lemma {:induction false} AfterIsSuffix(events: seq<Event>, bound: nat, n: nat)
    requires Increasing(events, bound) && n < |events|
    ensures After(events, events[n].sequence) == events[n + 1..]
  {
    var init := events[..|events| - 1];
    if n == |events| - 1 {
      AfterNothing(events, events[n].sequence);
      assert events[n + 1..] == [];
    } else {
      AfterIsSuffix(init, bound, n);
      assert init[n] == events[n];
      assert events[n + 1..] == init[n + 1..] + [events[|events| - 1]];
    }
  }

  lemma {:induction false} AfterNothing(events: seq<Event>, after: int)
    requires forall i :: 0 <= i < |events| ==> events[i].sequence <= after
    ensures After(events, after) == []
  {
    if events != [] {
      AfterNothing(events[..|events| - 1], after);
    }
  }

  /**
   A client that has the first n + 1 events and asks for those after the last of them can join the answer to what it
   has exactly when nothing is missing, or the limit is zero, or positive and not below the number of missing events.
   */
  lemma PageJoinsExactly(events: seq<Event>, bound: nat, n: nat, limit: int)
    requires Increasing(events, bound) && n < |events|
    ensures
      var missing := |events| - (n + 1);
      events[..n + 1] + Page(events, events[n].sequence, limit) == events
      <==> missing == 0 || limit == 0 || (limit > 0 && missing <= limit)
  {
    AfterIsSuffix(events, bound, n);
    assert events[..n + 1] + events[n + 1..] == events;
    assert limit == 0 ==> events[n + 1..][-limit..] == events[n + 1..];
  }

  /** With the default limit of 200 a reachable history is always read whole. */
  lemma DefaultLimitIsEnough(ops: seq<Op>, id: Id, n: nat)
    requires id in Exec(INITIAL, ops).runs && n < |Exec(INITIAL, ops).runs[id].events|
    ensures var events := Exec(INITIAL, ops).runs[id].events;
            events[..n + 1] + Page(events, events[n].sequence, 200) == events
  {
    RunsAreValid(INITIAL, ops);
    var s := Exec(INITIAL, ops);
    PageJoinsExactly(s.runs[id].events, s.counter, n, 200);
  }
}
