/** The events and messages of a conversation are exactly those its turns account for. */
module ConversationTurns {
  import opened Prelude
  import opened Conversations
  import opened ConversationRuns

  function Seen(log: seq<Event>, kind: Kind): nat {
    if log == [] then 0
    else Seen(log[..|log| - 1], kind) + if log[|log| - 1].kind == kind then 1 else 0
  }

  function Held(messages: seq<Message>, role: Role): nat {
    if messages == [] then 0
    else Held(messages[..|messages| - 1], role) + if messages[|messages| - 1].role == role then 1 else 0
  }

  /** How many turns of `c` have had at least `n` timers fire. */
  function Tally(turns: seq<Turn>, c: Id, n: nat): nat {
    if turns == [] then 0
    else
      var last := turns[|turns| - 1];
      Tally(turns[..|turns| - 1], c, n) + if last.conversation == c && last.fired >= n then 1 else 0
  }

  function ExpectedEvents(turns: seq<Turn>, c: Id, kind: Kind): nat {
    match kind
    case MessageCreated | TurnRunning => Tally(turns, c, 0)
    case Thinking => Tally(turns, c, 1) + Tally(turns, c, 3)
    case Tips => Tally(turns, c, 2)
    case Tool => Tally(turns, c, 4)
    case ThinkingDone => Tally(turns, c, 5)
    case Delta | ContextUsage | TurnCompleted => Tally(turns, c, 6)
  }

  function ExpectedMessages(turns: seq<Turn>, c: Id, role: Role): nat {
    match role
    case User => Tally(turns, c, 0)
    case Activity => Tally(turns, c, 5)
    case Assistant => Tally(turns, c, 6)
  }

  predicate AccountedFor(s: State, c: Id)
    requires Recorded(s, c)
  {
    && (forall kind :: Seen(s.log[c], kind) == ExpectedEvents(s.turns, c, kind))
    && (forall role :: Held(s.conversations[c].messages, role) == ExpectedMessages(s.turns, c, role))
  }

  ghost predicate Accounted(s: State) {
    forall c :: Recorded(s, c) ==> AccountedFor(s, c)
  }

  // ---- Counting one step ----

  lemma EmitCounts(s: State, c: Id, kind: Kind, k: Kind)
    requires Recorded(s, c)
    ensures Seen(Emit(s, c, kind).log[c], k) == Seen(s.log[c], k) + if k == kind then 1 else 0
    ensures Emit(s, c, kind).conversations[c].messages == s.conversations[c].messages
  {
    var e := Event(s.conversations[c].sequence + 1, kind);
    assert (s.log[c] + [e])[..|s.log[c]|] == s.log[c];
  }

  lemma PushCounts(messages: seq<Message>, m: Message, role: Role)
    ensures Held(messages + [m], role) == Held(messages, role) + if role == m.role then 1 else 0
  {
    assert (messages + [m])[..|messages|] == messages;
  }

  lemma StartTurnCounts(s: State, c: Id, key: string, k: Kind, role: Role)
    requires Recorded(s, c)
    ensures var r := StartTurn(s, c, key);
            && Recorded(r, c)
            && Seen(r.log[c], k) == Seen(s.log[c], k) + (if k == MessageCreated || k == TurnRunning then 1 else 0)
            && Held(r.conversations[c].messages, role)
               == Held(s.conversations[c].messages, role) + if role.User? then 1 else 0
  {
    var stored := Store(s, c, key);
    PushCounts(s.conversations[c].messages, Message(s.next, User), role);
    EmitCounts(stored, c, MessageCreated, k);
    var running := Settle(Emit(stored, c, MessageCreated), c, true, Running);
    EmitCounts(running, c, TurnRunning, k);
  }

  /** The kinds of event the next timer of a turn sends. */
  predicate Sends(fired: nat, k: Kind) {
    match k
    case Thinking => fired == 0 || fired == 2
    case Tips => fired == 1
    case Tool => fired == 3
    case ThinkingDone => fired == 4
    case Delta | ContextUsage | TurnCompleted => fired == 5
    case MessageCreated | TurnRunning => false
  }

  predicate Adds(fired: nat, role: Role) {
    (role.Activity? && fired == 4) || (role.Assistant? && fired == 5)
  }

  lemma FinishCounts(s: State, c: Id, k: Kind, role: Role)
    requires Recorded(s, c)
    ensures var r := Finish(s, c);
            && Recorded(r, c)
            && Seen(r.log[c], k) == Seen(s.log[c], k) + (if Sends(5, k) then 1 else 0)
            && Held(r.conversations[c].messages, role)
               == Held(s.conversations[c].messages, role) + if Adds(5, role) then 1 else 0
  {
    var answered := AddAnswer(s, c);
    PushCounts(s.conversations[c].messages, Message(s.next, Assistant), role);
    EmitCounts(answered, c, Delta, k);
    EmitCounts(Emit(answered, c, Delta), c, ContextUsage, k);
    EmitCounts(Settle(Report(answered, c), c, false, Finished), c, TurnCompleted, k);
  }

  lemma WorkCounts(s: State, turn: Turn, k: Kind, role: Role)
    requires Recorded(s, turn.conversation) && turn.fired < TIMERS
    ensures var r := Work(s, turn);
            var c := turn.conversation;
            && Recorded(r, c)
            && Seen(r.log[c], k) == Seen(s.log[c], k) + (if Sends(turn.fired, k) then 1 else 0)
            && Held(r.conversations[c].messages, role)
               == Held(s.conversations[c].messages, role) + if Adds(turn.fired, role) then 1 else 0
  {
    var c := turn.conversation;
    if turn.fired == 4 {
      PushCounts(s.conversations[c].messages, Message(turn.thinking, Activity), role);
      EmitCounts(Push(s, c, Message(turn.thinking, Activity)), c, ThinkingDone, k);
    } else if turn.fired < 4 {
      EmitCounts(s, c, if turn.fired == 1 then Tips else if turn.fired == 3 then Tool else Thinking, k);
    } else {
      FinishCounts(s, c, k, role);
    }
  }

  lemma {:induction false} TallyNewTurn(turns: seq<Turn>, c: Id, thinking: Id, d: Id, n: nat)
    ensures Tally(turns + [Turn(c, thinking, 0)], d, n) == Tally(turns, d, n) + if d == c && n == 0 then 1 else 0
  {
    assert (turns + [Turn(c, thinking, 0)])[..|turns|] == turns;
  }

  lemma {:induction false} TallyAdvance(turns: seq<Turn>, t: nat, d: Id, n: nat)
    requires t < |turns|
    ensures var turn := turns[t];
            Tally(turns[t := turn.(fired := turn.fired + 1)], d, n)
            == Tally(turns, d, n) + if d == turn.conversation && n == turn.fired + 1 then 1 else 0
  {
    var turn := turns[t];
    var advanced := turns[t := turn.(fired := turn.fired + 1)];
    if t == |turns| - 1 {
      assert advanced[..t] == turns[..t];
    } else {
      var init := turns[..|turns| - 1];
      assert advanced[..|turns| - 1] == init[t := turn.(fired := turn.fired + 1)];
      TallyAdvance(init, t, d, n);
    }
  }

  lemma {:induction false} NoTurnsYet(turns: seq<Turn>, c: Id, n: nat)
    requires forall t :: 0 <= t < |turns| ==> turns[t].conversation != c
    ensures Tally(turns, c, n) == 0
  {
    if turns != [] {
      NoTurnsYet(turns[..|turns| - 1], c, n);
    }
  }

  lemma ExpectedAdvance(turns: seq<Turn>, t: nat, d: Id, k: Kind, role: Role)
    requires t < |turns| && turns[t].fired < TIMERS
    ensures var turn := turns[t];
            var advanced := turns[t := turn.(fired := turn.fired + 1)];
            && ExpectedEvents(advanced, d, k)
               == ExpectedEvents(turns, d, k) + (if d == turn.conversation && Sends(turn.fired, k) then 1 else 0)
            && ExpectedMessages(advanced, d, role)
               == ExpectedMessages(turns, d, role) + if d == turn.conversation && Adds(turn.fired, role) then 1 else 0
  {
    TallyAdvance(turns, t, d, 0);
    TallyAdvance(turns, t, d, 1);
    TallyAdvance(turns, t, d, 2);
    TallyAdvance(turns, t, d, 3);
    TallyAdvance(turns, t, d, 4);
    TallyAdvance(turns, t, d, 5);
    TallyAdvance(turns, t, d, 6);
  }

  lemma ExpectedNewTurn(turns: seq<Turn>, c: Id, thinking: Id, d: Id, k: Kind, role: Role)
    ensures var more := turns + [Turn(c, thinking, 0)];
            && ExpectedEvents(more, d, k)
               == ExpectedEvents(turns, d, k) + (if d == c && (k == MessageCreated || k == TurnRunning) then 1 else 0)
            && ExpectedMessages(more, d, role) == ExpectedMessages(turns, d, role) + if d == c && role.User? then 1 else 0
  {
    TallyNewTurn(turns, c, thinking, d, 0);
    TallyNewTurn(turns, c, thinking, d, 1);
    TallyNewTurn(turns, c, thinking, d, 2);
    TallyNewTurn(turns, c, thinking, d, 3);
    TallyNewTurn(turns, c, thinking, d, 4);
    TallyNewTurn(turns, c, thinking, d, 5);
    TallyNewTurn(turns, c, thinking, d, 6);
  }

  // ---- Every step keeps the account ----

  /** The record and the log of `d` are as they were. */
  predicate Untouched(s: State, r: State, d: Id) {
    && (d in r.log <==> d in s.log) && (d in r.conversations <==> d in s.conversations)
    && (Recorded(s, d) ==> r.log[d] == s.log[d] && r.conversations[d] == s.conversations[d])
  }

  lemma FinishIsLocal(s: State, c: Id, d: Id)
    requires Recorded(s, c) && d != c
    ensures Untouched(s, Finish(s, c), d)
  {}

  lemma WorkIsLocal(s: State, turn: Turn, d: Id)
    requires Recorded(s, turn.conversation) && d != turn.conversation
    ensures Untouched(s, Work(s, turn), d)
  {
    FinishIsLocal(s, turn.conversation, d);
  }

  lemma StartTurnIsLocal(s: State, c: Id, key: string, d: Id)
    requires Recorded(s, c) && d != c
    ensures Untouched(s, StartTurn(s, c, key), d)
  {}

  lemma StartTurnAccountsFor(s: State, c: Id, key: string, d: Id, k: Kind, role: Role)
    requires Recorded(s, c) && Recorded(s, d) && AccountedFor(s, d)
    ensures var r := StartTurn(s, c, key);
            && Recorded(r, d)
            && Seen(r.log[d], k) == ExpectedEvents(r.turns, d, k)
            && Held(r.conversations[d].messages, role) == ExpectedMessages(r.turns, d, role)
  {
    ExpectedNewTurn(s.turns, c, s.next + 1, d, k, role);
    assert StartTurn(s, c, key).turns == s.turns + [Turn(c, s.next + 1, 0)];
    if d == c {
      StartTurnCounts(s, c, key, k, role);
    } else {
      StartTurnIsLocal(s, c, key, d);
    }
  }

  lemma StartTurnRecords(s: State, c: Id, key: string, d: Id)
    requires Recorded(s, c)
    ensures Recorded(StartTurn(s, c, key), d) == Recorded(s, d)
  {}

  lemma StartTurnAccounts(s: State, c: Id, key: string)
    requires Recorded(s, c) && Accounted(s)
    ensures Accounted(StartTurn(s, c, key))
  {
    var r := StartTurn(s, c, key);
    forall d | Recorded(r, d)
      ensures AccountedFor(r, d)
    {
      StartTurnRecords(s, c, key, d);
      forall k
        ensures Seen(r.log[d], k) == ExpectedEvents(r.turns, d, k)
      {
        StartTurnAccountsFor(s, c, key, d, k, User);
      }
      forall role
        ensures Held(r.conversations[d].messages, role) == ExpectedMessages(r.turns, d, role)
      {
        StartTurnAccountsFor(s, c, key, d, Delta, role);
      }
    }
  }

  lemma FireAccountsFor(s: State, t: nat, d: Id, k: Kind, role: Role)
    requires Due(s, t) && Recorded(s, s.turns[t].conversation)
    requires Recorded(s, d) && AccountedFor(s, d)
    ensures var r := Fire(s, t);
            && Recorded(r, d)
            && Seen(r.log[d], k) == ExpectedEvents(r.turns, d, k)
            && Held(r.conversations[d].messages, role) == ExpectedMessages(r.turns, d, role)
  {
    ExpectedAdvance(s.turns, t, d, k, role);
    if d == s.turns[t].conversation {
      WorkCounts(s, s.turns[t], k, role);
    } else {
      WorkIsLocal(s, s.turns[t], d);
    }
  }

  lemma FireRecords(s: State, t: nat, d: Id)
    requires Due(s, t) && Recorded(s, s.turns[t].conversation)
    ensures Recorded(Fire(s, t), d) == Recorded(s, d)
  {
    if d != s.turns[t].conversation {
      WorkIsLocal(s, s.turns[t], d);
    } else {
      WorkCounts(s, s.turns[t], Delta, User);
    }
  }

  lemma FireAccounts(s: State, t: nat)
    requires Due(s, t) && Recorded(s, s.turns[t].conversation) && Accounted(s)
    ensures Accounted(Fire(s, t))
  {
    forall d | Recorded(Fire(s, t), d)
      ensures AccountedFor(Fire(s, t), d)
    {
      FireRecords(s, t, d);
      var r := Fire(s, t);
      forall k
        ensures Seen(r.log[d], k) == ExpectedEvents(r.turns, d, k)
      {
        FireAccountsFor(s, t, d, k, User);
      }
      forall role
        ensures Held(r.conversations[d].messages, role) == ExpectedMessages(r.turns, d, role)
      {
        FireAccountsFor(s, t, d, Delta, role);
      }
    }
  }

  lemma CreateAccounts(s: State)
    requires Core(s) && Accounted(s)
    ensures Accounted(Create(s))
  {
    var r := Create(s);
    forall d | Recorded(r, d)
      ensures AccountedFor(r, d)
    {
      if d == s.next {
        forall n: nat {
          NoTurnsYet(s.turns, d, n);
        }
      } else {
        assert AccountedFor(s, d);
      }
    }
  }

  /** A change that neither sends, stores nor schedules anything. */
  lemma UnrelatedAccounts(s: State, r: State)
    requires Accounted(s) && SameMessages(s, r) && r.log == s.log && r.turns == s.turns
    ensures Accounted(r)
  {
    forall d | Recorded(r, d)
      ensures AccountedFor(r, d)
    {
      assert AccountedFor(s, d);
    }
  }

  lemma SendAccounts(s: State, c: Id, mentions: bool, model: Option<string>, key: string)
    requires c in s.live ==> Recorded(s, c)
    requires Accounted(s)
    ensures Accounted(Send(s, c, mentions, model, key).0)
  {
    if Answered(Send(s, c, mentions, model, key).1) {
      UnrelatedAccounts(s, SwitchModel(s, c, model));
      if key !in s.receipts {
        StartTurnAccounts(SwitchModel(s, c, model), c, key);
      }
    }
  }

  lemma FollowingAccounts(s: State, op: Op)
    requires Wired(s) && Accounted(s) && !op.OpCreate? && !op.OpSend? && !op.OpFire?
    ensures Accounted(Apply(s, op).0)
  {
    UnrelatedAccounts(s, Apply(s, op).0);
  }

  lemma ApplyAccounts(s: State, op: Op)
    requires Core(s) && Accounted(s)
    ensures Accounted(Apply(s, op).0)
  {
    if op.OpCreate? {
      CreateAccounts(s);
    } else if op.OpSend? {
      SendAccounts(s, op.c, op.mentions, op.model, op.key);
    } else if op.OpFire? {
      if Due(s, op.timer) {
        FireAccounts(s, op.timer);
      }
    } else {
      FollowingAccounts(s, op);
    }
  }

  /**
   In every run, every accepted send of a conversation accounts for one user message, one creation and one start,
   and every turn for one event per timer fired, one activity message and, once all six have fired, one answer and one
   completion; the conversation holds and sent nothing else.
   */
  lemma {:induction false} TurnsAccountForEverything(s: State, run: seq<Op>)
    requires Core(s) && Accounted(s)
    ensures Accounted(Exec(s, run))
    decreases |run|
  {
    if run != [] {
      ApplyKeeps(s, run[0]);
      ApplyAccounts(s, run[0]);
      TurnsAccountForEverything(Apply(s, run[0]).0, run[1..]);
    }
  }

  lemma InitialIsAccounted()
    ensures Core(INITIAL) && Accounted(INITIAL)
  {}

  // ---- Busy conversations ----

  predicate Unfinished(turns: seq<Turn>, c: Id) {
    exists t :: 0 <= t < |turns| && turns[t].conversation == c && turns[t].fired < TIMERS
  }

  /** A conversation is marked as processing in both of its flags or in neither, and only while a turn is unfinished. */
  predicate BusyOnlyWithTurn(s: State) {
    forall c :: c in s.conversations ==>
      && (s.conversations[c].processing <==> s.conversations[c].status.Running?)
      && (s.conversations[c].processing ==> Unfinished(s.turns, c))
  }

  lemma NewTurnUnfinished(turns: seq<Turn>, c: Id, thinking: Id, d: Id)
    requires Unfinished(turns, d) || d == c
    ensures Unfinished(turns + [Turn(c, thinking, 0)], d)
  {
    var more := turns + [Turn(c, thinking, 0)];
    if d == c {
      assert more[|turns|].conversation == c;
    } else {
      var t :| 0 <= t < |turns| && turns[t].conversation == d && turns[t].fired < TIMERS;
      assert more[t] == turns[t];
    }
  }

  lemma AdvanceUnfinished(turns: seq<Turn>, t: nat, d: Id)
    requires t < |turns| && turns[t].fired < TIMERS && Unfinished(turns, d)
    requires turns[t].conversation != d || turns[t].fired + 1 < TIMERS
    ensures Unfinished(turns[t := turns[t].(fired := turns[t].fired + 1)], d)
  {
    var u :| 0 <= u < |turns| && turns[u].conversation == d && turns[u].fired < TIMERS;
    assert turns[t := turns[t].(fired := turns[t].fired + 1)][u].conversation == d;
  }

  lemma WorkFlags(s: State, turn: Turn)
    requires Recorded(s, turn.conversation) && turn.fired < TIMERS
    ensures var r := Work(s, turn).conversations; var c := turn.conversation;
            && c in r
            && (turn.fired < 5 ==> r[c].processing == s.conversations[c].processing && r[c].status == s.conversations[c].status)
            && (turn.fired == 5 ==> !r[c].processing && r[c].status == Finished)
  {}

  lemma FireBusy(s: State, t: nat, d: Id)
    requires Due(s, t) && s.log.Keys == s.conversations.Keys && Recorded(s, s.turns[t].conversation)
    requires BusyOnlyWithTurn(s) && d in s.conversations
    ensures var r := Fire(s, t);
            && d in r.conversations
            && (r.conversations[d].processing <==> r.conversations[d].status.Running?)
            && (r.conversations[d].processing ==> Unfinished(r.turns, d))
  {
    if d == s.turns[t].conversation {
      WorkFlags(s, s.turns[t]);
    } else {
      WorkIsLocal(s, s.turns[t], d);
    }
    if Fire(s, t).conversations[d].processing {
      AdvanceUnfinished(s.turns, t, d);
    }
  }

  lemma StartTurnBusy(s: State, c: Id, key: string, d: Id)
    requires Recorded(s, c) && Recorded(s, d) && BusyOnlyWithTurn(s)
    ensures var r := StartTurn(s, c, key);
            && d in r.conversations
            && (r.conversations[d].processing <==> r.conversations[d].status.Running?)
            && (r.conversations[d].processing ==> Unfinished(r.turns, d))
  {
    var r := StartTurn(s, c, key);
    if d != c {
      StartTurnIsLocal(s, c, key, d);
    }
    if r.conversations[d].processing {
      NewTurnUnfinished(s.turns, c, s.next + 1, d);
    }
  }

  lemma SendBusy(s: State, c: Id, mentions: bool, model: Option<string>, key: string)
    requires s.log.Keys == s.conversations.Keys && BusyOnlyWithTurn(s)
    requires c in s.live ==> Recorded(s, c)
    ensures BusyOnlyWithTurn(Send(s, c, mentions, model, key).0)
  {
    var r := Send(s, c, mentions, model, key).0;
    if Send(s, c, mentions, model, key).1.Accepted? {
      forall d | d in r.conversations
        ensures r.conversations[d].processing <==> r.conversations[d].status.Running?
        ensures r.conversations[d].processing ==> Unfinished(r.turns, d)
      {
        StartTurnRecords(SwitchModel(s, c, model), c, key, d);
        if d != c {
          StartTurnIsLocal(SwitchModel(s, c, model), c, key, d);
        }
        StartTurnBusy(SwitchModel(s, c, model), c, key, d);
      }
    }
  }

  lemma FireKeepsBusy(s: State, t: nat)
    requires Due(s, t) && s.log.Keys == s.conversations.Keys && Recorded(s, s.turns[t].conversation)
    requires BusyOnlyWithTurn(s)
    ensures BusyOnlyWithTurn(Fire(s, t))
  {
    var r := Fire(s, t);
    forall d | d in r.conversations
      ensures r.conversations[d].processing <==> r.conversations[d].status.Running?
      ensures r.conversations[d].processing ==> Unfinished(r.turns, d)
    {
      if d != s.turns[t].conversation {
        WorkIsLocal(s, s.turns[t], d);
      }
      FireBusy(s, t, d);
    }
  }

  lemma ApplyBusy(s: State, op: Op)
    requires Core(s) && BusyOnlyWithTurn(s)
    ensures BusyOnlyWithTurn(Apply(s, op).0)
  {
    match op
    case OpCreate =>
    case OpSend(c, mentions, model, key) => SendBusy(s, c, mentions, model, key);
    case OpFire(t) => if Due(s, t) { FireKeepsBusy(s, t); }
    case OpCancel(_) =>
    case OpDelete(_) =>
    case OpOpen(_) =>
    case OpClose(_) =>
    case OpSubscribe(_, _, _) =>
  }

  lemma {:induction false} ProcessingMeansTurn(s: State, run: seq<Op>)
    requires Core(s) && BusyOnlyWithTurn(s)
    ensures BusyOnlyWithTurn(Exec(s, run))
    decreases |run|
  {
    if run != [] {
      ApplyKeeps(s, run[0]);
      ApplyBusy(s, run[0]);
      ProcessingMeansTurn(Apply(s, run[0]).0, run[1..]);
    }
  }

  /** A send that switches the model is refused for being busy only while a turn of that conversation is unfinished. */
  lemma ConflictMeansTurn(s: State, c: Id, model: string, key: string)
    requires Core(s) && BusyOnlyWithTurn(s)
    requires Send(s, c, false, Some(model), key).1.Conflict?
    ensures Unfinished(s.turns, c)
    ensures s.conversations[c].processing && s.conversations[c].status == Running
  {}

  /**
   The other half fails: a cancelled turn still sends its events and its answer, and meanwhile the model may be
   switched. So a switch is refused exactly while `processing` is set, which is not exactly while a turn works.
   */
  lemma CancelledTurnGoesOn(s: State, t: nat, c: Id, model: string, key: string, r: State)
    requires Due(s, t) && s.turns[t].conversation == c && c in s.live && Recorded(s, c)
    requires r == Cancel(s, c).0
    ensures Recorded(r, c) && Due(r, t) && r.turns[t].conversation == c
    ensures Answered(Send(r, c, false, Some(model), key).1)
    ensures c in Fire(r, t).log && |r.log[c]| < |Fire(r, t).log[c]|
  {
    assert r.turns == s.turns;
    WorkGrowsLog(r, r.turns[t]);
  }

  lemma FinishGrowsLog(s: State, c: Id)
    requires Recorded(s, c)
    ensures c in Finish(s, c).log && |Finish(s, c).log[c]| > |s.log[c]|
  {}

  lemma WorkGrowsLog(s: State, turn: Turn)
    requires Recorded(s, turn.conversation)
    ensures turn.conversation in Work(s, turn).log
    ensures |Work(s, turn).log[turn.conversation]| > |s.log[turn.conversation]|
  {
    FinishGrowsLog(s, turn.conversation);
  }
}
