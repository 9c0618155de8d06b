/** Whole runs of the conversation server: any requests from any sockets, and any timers that are due. */
module ConversationRuns {
  import opened Prelude
  import opened Conversations

  datatype Op =
    | OpCreate
    | OpDelete(c: Id)
    | OpOpen(socket: Socket)
    | OpClose(socket: Socket)
    | OpSubscribe(socket: Socket, c: Id, subscribing: bool)
    | OpSend(c: Id, mentions: bool, model: Option<string>, key: string)
    | OpCancel(c: Id)
    | OpFire(timer: nat)

  function Apply(s: State, op: Op): (State, Answer)
    requires Wired(s)
  {
    match op
    case OpCreate => (Create(s), Done)
    case OpDelete(c) => Delete(s, c)
    case OpOpen(socket) => (OpenSocket(s, socket), Done)
    case OpClose(socket) => (CloseSocket(s, socket), Done)
    case OpSubscribe(socket, c, subscribing) => Subscribe(s, socket, c, subscribing)
    case OpSend(c, mentions, model, key) => Send(s, c, mentions, model, key)
    case OpCancel(c) => Cancel(s, c)
    case OpFire(t) => (Fire(s, t), Done)
  }

  lemma CreateKeepsMessages(s: State)
    requires Core(s)
    ensures OneMessagePerKey(Create(s))
  {
    var r := Create(s);
    assert s.next !in s.conversations;
    forall key | key in r.receipts
      ensures Stored(r.conversations, r.receipts[key])
    {
      assert Stored(s.conversations, s.receipts[key]);
    }
  }

  lemma CreateKeeps(s: State)
    requires Core(s)
    ensures Core(Create(s))
  {
    assert s.next !in s.conversations;
    CreateKeepsMessages(s);
  }

  lemma StartTurnKeeps(s: State, c: Id, key: string)
    requires Core(s) && c in s.live && key !in s.receipts
    ensures Core(StartTurn(s, c, key))
  {
    StoreKeeps(s, c, key);
    var stored := Store(s, c, key);
    EmitKeeps(stored, c, MessageCreated);
    var created := Emit(stored, c, MessageCreated);
    SettleKeeps(created, c, true, Running);
    EmitKeeps(Settle(created, c, true, Running), c, TurnRunning);
    ScheduleKeeps(Emit(Settle(created, c, true, Running), c, TurnRunning), c);
  }

  lemma ScheduleKeeps(s: State, c: Id)
    requires Core(s) && Recorded(s, c)
    ensures Core(Schedule(s, c))
  {
    SameMessagesKeep(s, Schedule(s, c));
  }

  lemma AdmitKeeps(s: State, c: Id, key: string)
    requires Core(s) && c in s.live
    ensures Core(Admit(s, c, key).0)
  {
    if key !in s.receipts {
      StartTurnKeeps(s, c, key);
    }
  }

  lemma SendKeeps(s: State, c: Id, mentions: bool, model: Option<string>, key: string)
    requires Core(s)
    ensures Core(Send(s, c, mentions, model, key).0)
  {
    if Send(s, c, mentions, model, key).1 in {NotFound, InvalidRequest, Conflict} {
      assert Send(s, c, mentions, model, key).0 == s;
    } else {
      SwitchModelKeeps(s, c, model);
      AdmitKeeps(SwitchModel(s, c, model), c, key);
    }
  }

  lemma DrawKeeps(s: State)
    requires Core(s)
    ensures Core(s.(next := s.next + 1))
  {
    SameMessagesKeep(s, s.(next := s.next + 1));
  }

  lemma AddAnswerKeeps(s: State, c: Id)
    requires Core(s) && Recorded(s, c)
    ensures Core(AddAnswer(s, c))
  {
    PushKeeps(s, c, Message(s.next, Assistant));
    DrawKeeps(Push(s, c, Message(s.next, Assistant)));
  }

  lemma ReportKeeps(s: State, c: Id)
    requires Core(s) && Recorded(s, c)
    ensures Core(Report(s, c))
  {
    EmitKeeps(s, c, Delta);
    EmitKeeps(Emit(s, c, Delta), c, ContextUsage);
  }

  lemma CompleteKeeps(s: State, c: Id)
    requires Core(s) && Recorded(s, c)
    ensures Core(Complete(s, c))
  {
    SettleKeeps(s, c, false, Finished);
    EmitKeeps(Settle(s, c, false, Finished), c, TurnCompleted);
  }

  lemma FinishKeeps(s: State, c: Id)
    requires Core(s) && Recorded(s, c)
    ensures Core(Finish(s, c))
  {
    AddAnswerKeeps(s, c);
    ReportKeeps(AddAnswer(s, c), c);
    CompleteKeeps(Report(AddAnswer(s, c), c), c);
  }

  lemma WorkKeeps(s: State, turn: Turn)
    requires Core(s) && Recorded(s, turn.conversation)
    ensures Core(Work(s, turn))
  {
    var c := turn.conversation;
    if turn.fired == 4 {
      PushKeeps(s, c, Message(turn.thinking, Activity));
      EmitKeeps(Push(s, c, Message(turn.thinking, Activity)), c, ThinkingDone);
    } else if turn.fired < 4 {
      EmitKeeps(s, c, if turn.fired == 1 then Tips else if turn.fired == 3 then Tool else Thinking);
    } else {
      FinishKeeps(s, c);
    }
  }

  lemma AdvanceKeeps(s: State, t: nat)
    requires Core(s) && Due(s, t)
    ensures Core(s.(turns := s.turns[t := s.turns[t].(fired := s.turns[t].fired + 1)]))
  {
    SameMessagesKeep(s, s.(turns := s.turns[t := s.turns[t].(fired := s.turns[t].fired + 1)]));
  }

  lemma FinishLeaves(s: State, c: Id)
    requires Recorded(s, c)
    ensures var r := Finish(s, c);
            r.turns == s.turns && r.receipts == s.receipts && r.following == s.following && r.live == s.live
  {}

  lemma WorkLeaves(s: State, turn: Turn)
    requires Recorded(s, turn.conversation)
    ensures var r := Work(s, turn);
            r.turns == s.turns && r.receipts == s.receipts && r.following == s.following && r.live == s.live
  {
    FinishLeaves(s, turn.conversation);
  }

  lemma FireLeaves(s: State, t: nat)
    requires Due(s, t) ==> Recorded(s, s.turns[t].conversation)
    ensures var r := Fire(s, t); r.receipts == s.receipts && r.following == s.following && r.live == s.live
  {
    if Due(s, t) {
      WorkLeaves(s, s.turns[t]);
    }
  }

  lemma FireKeeps(s: State, t: nat)
    requires Core(s)
    ensures Core(Fire(s, t))
  {
    if Due(s, t) {
      WorkKeeps(s, s.turns[t]);
      WorkLeaves(s, s.turns[t]);
      AdvanceKeeps(Work(s, s.turns[t]), t);
    }
  }

  lemma FollowingKeeps(s: State, r: State)
    requires Core(s) && r == s.(following := r.following, live := r.live)
    requires r.live <= s.conversations.Keys
    requires forall k, c :: k in r.following && c in r.following[k] ==> c in r.live
    ensures Core(r)
  {
    SameMessagesKeep(s, r);
  }

  lemma ApplyKeeps(s: State, op: Op)
    requires Core(s)
    ensures Core(Apply(s, op).0)
  {
    match op
    case OpCreate => CreateKeeps(s);
    case OpSend(c, mentions, model, key) => SendKeeps(s, c, mentions, model, key);
    case OpFire(t) => FireKeeps(s, t);
    case OpCancel(c) => if c in s.live { SettleKeeps(s, c, false, Finished); }
    case OpDelete(c) => FollowingKeeps(s, Apply(s, op).0);
    case OpOpen(_) => FollowingKeeps(s, Apply(s, op).0);
    case OpClose(_) => FollowingKeeps(s, Apply(s, op).0);
    case OpSubscribe(_, _, _) => FollowingKeeps(s, Apply(s, op).0);
  }

  function Exec(s: State, run: seq<Op>): (r: State)
    requires Core(s)
    ensures Core(r)
    decreases |run|
  {
    if run == [] then s
    else
      ApplyKeeps(s, run[0]);
      Exec(Apply(s, run[0]).0, run[1..])
  }

  lemma InitialIsCore()
    ensures Core(INITIAL)
  {}

  // ---- Idempotency ----

  predicate Answered(a: Answer) {
    a.Accepted? || a.Replayed?
  }

  lemma AdmitKeepsReceipts(s: State, c: Id, key: string, k: string)
    requires Recorded(s, c) && k in s.receipts
    ensures var r := Admit(s, c, key).0; k in r.receipts && r.receipts[k] == s.receipts[k]
  {}

  lemma SendKeepsReceipts(s: State, c: Id, mentions: bool, model: Option<string>, key: string, k: string)
    requires c in s.live ==> Recorded(s, c)
    requires k in s.receipts
    ensures var r := Send(s, c, mentions, model, key).0; k in r.receipts && r.receipts[k] == s.receipts[k]
  {
    if Answered(Send(s, c, mentions, model, key).1) {
      AdmitKeepsReceipts(SwitchModel(s, c, model), c, key, k);
    }
  }

  lemma ApplyKeepsReceipts(s: State, op: Op, k: string)
    requires Wired(s) && k in s.receipts
    ensures var r := Apply(s, op).0; k in r.receipts && r.receipts[k] == s.receipts[k]
  {
    match op
    case OpFire(t) => FireLeaves(s, t);
    case OpSend(c, mentions, model, key) => SendKeepsReceipts(s, c, mentions, model, key, k);
    case OpCreate =>
    case OpDelete(_) =>
    case OpOpen(_) =>
    case OpClose(_) =>
    case OpSubscribe(_, _, _) =>
    case OpCancel(_) =>
  }

  lemma {:induction false} ReceiptIsForever(s: State, run: seq<Op>, key: string)
    requires Core(s) && key in s.receipts
    ensures key in Exec(s, run).receipts && Exec(s, run).receipts[key] == s.receipts[key]
    decreases |run|
  {
    if run != [] {
      ApplyKeeps(s, run[0]);
      ApplyKeepsReceipts(s, run[0], key);
      ReceiptIsForever(Apply(s, run[0]).0, run[1..], key);
    }
  }

  lemma SendRecordsReceipt(s: State, op: Op)
    requires Wired(s) && op.OpSend? && Answered(Apply(s, op).1)
    ensures op.key in Apply(s, op).0.receipts && Apply(s, op).0.receipts[op.key] == Apply(s, op).1.receipt
  {}

  lemma SeenKeyChangesNoMessage(s: State, op: Op)
    requires Wired(s) && op.OpSend? && op.key in s.receipts
    ensures var (r, a) := Apply(s, op);
            && r == s.(conversations := r.conversations)
            && SameMessages(s, r)
            && (Answered(a) ==> a == Replayed(s.receipts[op.key]))
  {}

  /**
   Sends with the same key that are not refused all get one receipt, whatever happens between them and whatever
   conversations they name, and only the first of them makes a message, an event or a turn.
   */
  lemma OneKeyOneReceipt(s: State, first: Op, run: seq<Op>, second: Op)
    requires Core(s)
    requires first.OpSend? && Answered(Apply(s, first).1)
    requires second.OpSend? && second.key == first.key
    ensures Core(Apply(s, first).0)
    ensures var before := Exec(Apply(s, first).0, run);
            var (after, answer) := Apply(before, second);
            && (Answered(answer) ==> answer == Replayed(Apply(s, first).1.receipt))
            && SameMessages(before, after) && after.turns == before.turns && after.log == before.log
  {
    ApplyKeeps(s, first);
    SendRecordsReceipt(s, first);
    ReceiptIsForever(Apply(s, first).0, run, first.key);
    SeenKeyChangesNoMessage(Exec(Apply(s, first).0, run), second);
  }

  /** The i-th message of the conversation is the user message with this identifier. */
  predicate UserMessageAt(s: State, c: Id, i: nat, id: Id) {
    c in s.conversations && i < |s.conversations[c].messages| && s.conversations[c].messages[i] == Message(id, User)
  }

  /** In every run: each key made exactly one user message, in the conversation on its receipt and in no other. */
  lemma OneKeyOneMessage(run: seq<Op>, key: string)
    requires key in Exec(INITIAL, run).receipts
    ensures var s := Exec(INITIAL, run);
            var r := s.receipts[key];
            && (exists i :: UserMessageAt(s, r.conversation, i, r.message))
            && (forall c, i :: UserMessageAt(s, c, i, r.message) ==> c == r.conversation)
            && (forall c, i, j :: UserMessageAt(s, c, i, r.message) && UserMessageAt(s, c, j, r.message) ==> i == j)
  {
    var s := Exec(INITIAL, run);
    var r := s.receipts[key];
    assert Stored(s.conversations, r);
    var k :| 0 <= k < |s.conversations[r.conversation].messages|
             && s.conversations[r.conversation].messages[k] == Message(r.message, User);
    assert UserMessageAt(s, r.conversation, k, r.message);
    forall c, i | UserMessageAt(s, c, i, r.message)
      ensures c == r.conversation
      ensures forall j :: UserMessageAt(s, c, j, r.message) ==> i == j
    {
      assert Message(r.message, User) in s.conversations[c].messages;
      assert Keyed(s.receipts, Receipt(c, r.message));
      assert DistinctUsers(s.conversations[c].messages);
    }
  }

  /** And the other way round: every user message was made by exactly one key. */
  lemma EveryMessageHasItsKey(run: seq<Op>, c: Id, m: Message)
    requires c in Exec(INITIAL, run).conversations
    requires m in Exec(INITIAL, run).conversations[c].messages && m.role.User?
    ensures var receipts := Exec(INITIAL, run).receipts;
            exists key :: key in receipts && receipts[key] == Receipt(c, m.id)
              && forall other :: other in receipts && receipts[other] == Receipt(c, m.id) ==> other == key
  {
    var receipts := Exec(INITIAL, run).receipts;
    assert Keyed(receipts, Receipt(c, m.id));
    var key :| key in receipts && receipts[key] == Receipt(c, m.id);
  }

  /**
   A send without a key is a send with the empty key, so after one of them is accepted every other one, in any
   conversation, is answered with its receipt and its text is dropped.
   */
  lemma OnlyOneKeylessSend(s: State, c: Id, run: seq<Op>, d: Id)
    requires Core(s)
    requires Apply(s, OpSend(c, false, None, "")).1.Accepted?
    ensures Core(Apply(s, OpSend(c, false, None, "")).0)
    ensures var before := Exec(Apply(s, OpSend(c, false, None, "")).0, run);
            d in before.live ==>
              Apply(before, OpSend(d, false, None, "")) == (before, Replayed(Receipt(c, s.next)))
  {
    ApplyKeeps(s, OpSend(c, false, None, ""));
    SendRecordsReceipt(s, OpSend(c, false, None, ""));
    ReceiptIsForever(Apply(s, OpSend(c, false, None, "")).0, run, "");
  }
}
