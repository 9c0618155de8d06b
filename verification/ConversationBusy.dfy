/**
 When a conversation counts as busy, step by step and over whole runs
 (web/scripts/mock-server.ts:516-518, 568-587, 702-735).
 */
module ConversationBusy {
  import opened Prelude
  import opened Conversations
  import opened ConversationRuns
  import opened ConversationTurns

  predicate Processing(s: State, c: Id) {
    c in s.conversations && s.conversations[c].processing
  }

  /** A send that will be accepted on `c`. */
  predicate Starts(s: State, op: Op, c: Id)
    requires Wired(s)
  {
    && op.OpSend? && op.c == c && c in s.live && !op.mentions && op.key !in s.receipts
    && (op.model.Some? ==> !s.conversations[c].processing && s.conversations[c].status != Running)
  }

  /** A cancellation of `c`, or the last timer of one of its turns. */
  predicate Stops(s: State, op: Op, c: Id) {
    || (op.OpCancel? && op.c == c && c in s.live)
    || (op.OpFire? && Due(s, op.timer) && s.turns[op.timer].conversation == c && s.turns[op.timer].fired == TIMERS - 1)
  }

  lemma StartTurnFlags(s: State, c: Id, key: string)
    requires Recorded(s, c)
    ensures Processing(StartTurn(s, c, key), c)
    ensures StartTurn(s, c, key).turns == s.turns + [Turn(c, s.next + 1, 0)]
  {}

  lemma SendSteps(s: State, op: Op, c: Id)
    requires Wired(s) && op.OpSend?
    ensures Processing(Apply(s, op).0, c) <==> Starts(s, op, c) || Processing(s, c)
    ensures Apply(s, op).0.turns ==
            if Starts(s, op, op.c) then s.turns + [Turn(op.c, s.next + 1, 0)] else s.turns
  {
    if Starts(s, op, op.c) {
      var m := SwitchModel(s, op.c, op.model);
      StartTurnFlags(m, op.c, op.key);
      if c != op.c {
        StartTurnRecords(m, op.c, op.key, c);
        StartTurnIsLocal(m, op.c, op.key, c);
      }
    }
  }

  lemma FireSteps(s: State, t: nat, c: Id)
    requires Wired(s) && Due(s, t)
    ensures Processing(Fire(s, t), c) <==> Processing(s, c) && !Stops(s, OpFire(t), c)
    ensures Fire(s, t).turns == s.turns[t := s.turns[t].(fired := s.turns[t].fired + 1)]
  {
    WorkLeaves(s, s.turns[t]);
    if c == s.turns[t].conversation {
      WorkFlags(s, s.turns[t]);
    } else {
      WorkIsLocal(s, s.turns[t], c);
    }
  }

  /** One step: a conversation is processing exactly when the step starts it, or it was and the step does not stop it. */
  lemma ProcessingExactly(s: State, op: Op, c: Id)
    requires Wired(s) && s.next !in s.conversations
    ensures Processing(Apply(s, op).0, c) <==> Starts(s, op, c) || (Processing(s, c) && !Stops(s, op, c))
  {
    match op
    case OpSend(_, _, _, _) => SendSteps(s, op, c);
    case OpFire(t) => if Due(s, t) { FireSteps(s, t, c); }
    case OpCreate =>
    case OpDelete(_) =>
    case OpOpen(_) =>
    case OpClose(_) =>
    case OpSubscribe(_, _, _) =>
    case OpCancel(_) =>
  }

  /** Whether a step starts (true) or stops (false) the conversation, if it does either. */
  function Switch(s: State, op: Op, c: Id): seq<bool>
    requires Wired(s)
  {
    if Starts(s, op, c) then [true] else if Stops(s, op, c) then [false] else []
  }

  function Switches(s: State, run: seq<Op>, c: Id): seq<bool>
    requires Core(s)
    decreases |run|
  {
    if run == [] then []
    else
      ApplyKeeps(s, run[0]);
      Switch(s, run[0], c) + Switches(Apply(s, run[0]).0, run[1..], c)
  }

  function Last(switches: seq<bool>, before: bool): bool {
    if switches == [] then before else switches[|switches| - 1]
  }

  lemma LastJoins(first: seq<bool>, rest: seq<bool>, before: bool)
    ensures Last(first + rest, before) == Last(rest, Last(first, before))
  {}

  lemma OneSwitch(s: State, op: Op, c: Id)
    requires Core(s)
    ensures Processing(Apply(s, op).0, c) == Last(Switch(s, op, c), Processing(s, c))
  {
    ProcessingExactly(s, op, c);
  }

  /** Over any run a conversation is processing exactly when the last of its accepted sends and stops was a send. */
  lemma {:induction false} ProcessingIsLastSwitch(s: State, run: seq<Op>, c: Id)
    requires Core(s)
    ensures Processing(Exec(s, run), c) == Last(Switches(s, run, c), Processing(s, c))
    decreases |run|
  {
    if run != [] {
      ApplyKeeps(s, run[0]);
      OneSwitch(s, run[0], c);
      var next := Apply(s, run[0]).0;
      ProcessingIsLastSwitch(next, run[1..], c);
      LastJoins(Switch(s, run[0], c), Switches(next, run[1..], c), Processing(s, c));
    }
  }

  // ----- busy against working -----

  /** The conversation is processing exactly while one of its turns is unfinished. */
  predicate InStep(s: State, c: Id) {
    Processing(s, c) <==> Unfinished(s.turns, c)
  }

  predicate OtherUnfinished(turns: seq<Turn>, t: nat, c: Id) {
    exists u :: 0 <= u < |turns| && u != t && turns[u].conversation == c && turns[u].fired < TIMERS
  }

  /** The step stops the conversation although a turn of it goes on: the cancelled one, or one that overlaps the last. */
  predicate Abandons(s: State, op: Op, c: Id) {
    || (op.OpCancel? && op.c == c && c in s.live && Unfinished(s.turns, c))
    || (op.OpFire? && Due(s, op.timer) && s.turns[op.timer].conversation == c && s.turns[op.timer].fired == TIMERS - 1
        && OtherUnfinished(s.turns, op.timer, c))
  }

  lemma AddedTurn(turns: seq<Turn>, d: Id, thinking: Id, c: Id)
    ensures Unfinished(turns + [Turn(d, thinking, 0)], c) <==> Unfinished(turns, c) || c == d
  {
    if Unfinished(turns, c) || c == d {
      NewTurnUnfinished(turns, d, thinking, c);
    }
  }

  lemma AdvancedTurn(turns: seq<Turn>, t: nat, c: Id)
    requires t < |turns| && turns[t].fired < TIMERS
    ensures var advanced := turns[t := turns[t].(fired := turns[t].fired + 1)];
            Unfinished(advanced, c) <==>
              if turns[t].conversation == c && turns[t].fired == TIMERS - 1 then OtherUnfinished(turns, t, c)
              else Unfinished(turns, c)
  {
    var advanced := turns[t := turns[t].(fired := turns[t].fired + 1)];
    if OtherUnfinished(turns, t, c) {
      var u :| 0 <= u < |turns| && u != t && turns[u].conversation == c && turns[u].fired < TIMERS;
      assert advanced[u] == turns[u];
    }
    if Unfinished(turns, c) && !(turns[t].conversation == c && turns[t].fired == TIMERS - 1) {
      AdvanceUnfinished(turns, t, c);
    }
    if Unfinished(advanced, c) {
      var u :| 0 <= u < |turns| && advanced[u].conversation == c && advanced[u].fired < TIMERS;
      assert turns[u].conversation == c && turns[u].fired < TIMERS;
    }
  }

  lemma QuietTurns(s: State, op: Op)
    requires Wired(s) && !op.OpSend? && !op.OpFire?
    ensures Apply(s, op).0.turns == s.turns
  {}

  /** Exactly which steps part the flag from the turns. */
  lemma PartedExactlyByAbandoning(s: State, op: Op, c: Id)
    requires Wired(s) && s.next !in s.conversations && InStep(s, c)
    ensures !InStep(Apply(s, op).0, c) <==> Abandons(s, op, c)
  {
    ProcessingExactly(s, op, c);
    if op.OpSend? {
      SendSteps(s, op, c);
      if Starts(s, op, op.c) {
        AddedTurn(s.turns, op.c, s.next + 1, c);
      }
    } else if op.OpFire? {
      if Due(s, op.timer) {
        FireSteps(s, op.timer, c);
        AdvancedTurn(s.turns, op.timer, c);
      }
    } else {
      QuietTurns(s, op);
    }
  }

  predicate AlwaysInStep(s: State, run: seq<Op>, c: Id)
    requires Core(s)
    decreases |run|
  {
    InStep(s, c) && (run == [] || (
      ApplyKeeps(s, run[0]);
      AlwaysInStep(Apply(s, run[0]).0, run[1..], c)))
  }

  predicate NeverAbandons(s: State, run: seq<Op>, c: Id)
    requires Core(s)
    decreases |run|
  {
    run == [] || (
      ApplyKeeps(s, run[0]);
      !Abandons(s, run[0], c) && NeverAbandons(Apply(s, run[0]).0, run[1..], c))
  }

  /**
   A conversation is busy exactly while a turn of it is unfinished, at every moment of a run, if and only if the run
   neither cancels it during a turn nor lets a turn of it end while another one goes on.
   */
  lemma {:induction false} AlwaysInStepExactly(s: State, run: seq<Op>, c: Id)
    requires Core(s) && InStep(s, c)
    ensures AlwaysInStep(s, run, c) <==> NeverAbandons(s, run, c)
    decreases |run|
  {
    if run != [] {
      ApplyKeeps(s, run[0]);
      PartedExactlyByAbandoning(s, run[0], c);
      if !Abandons(s, run[0], c) {
        AlwaysInStepExactly(Apply(s, run[0]).0, run[1..], c);
      }
    }
  }

  /** As long as flag and turns agree, a model switch is refused as busy exactly while a turn is unfinished. */
  lemma ConflictExactlyInStep(s: State, c: Id, model: string, key: string)
    requires Wired(s) && BusyOnlyWithTurn(s) && InStep(s, c) && c in s.live
    ensures Send(s, c, false, Some(model), key).1.Conflict? <==> Unfinished(s.turns, c)
  {}

  /** Two turns overlap because a send without a model is accepted while one runs; the first to end clears the flag. */
  lemma OverlappingTurnsPart(s: State, t: nat, u: nat, c: Id)
    requires Wired(s) && Due(s, t) && Due(s, u) && t != u
    requires s.turns[t].conversation == c && s.turns[u].conversation == c && s.turns[t].fired == TIMERS - 1
    ensures !Processing(Fire(s, t), c) && Due(Fire(s, t), u) && Fire(s, t).turns[u] == s.turns[u]
  {
    FireSteps(s, t, c);
  }
}
