/**
 What each request and timer of a conversation changes, says and answers, and what a deletion, a model switch and the
 order of events come to over whole runs (web/scripts/mock-server.ts:451-464, 516-588, 607-636, 691-745).
 */
module ConversationRequests {
  import opened Prelude
  import opened Conversations
  import opened ConversationRuns
  import opened ConversationEvents
  import opened ConversationTurns

  /** Every follower of every other conversation, and every other conversation's registration, is as before. */
  ghost predicate OthersFollow(s: State, r: State, c: Id) {
    forall k, d :: d != c ==> (Follows(r, k, d) <==> Follows(s, k, d))
  }

  ghost predicate OthersLive(s: State, r: State, c: Id) {
    forall d :: d != c ==> (d in r.live <==> d in s.live)
  }

  // ---- Deletion ----

  /** A deletion that is answered Done takes the conversation and every subscription to it away, and nothing else. */
  lemma DeletionRemoves(s: State, c: Id)
    requires Wired(s)
    ensures
      var (r, a) := Apply(s, OpDelete(c));
      && (a.Done? <==> c in s.live) && (a.NotFound? <==> c !in s.live)
      && c !in r.live && OthersLive(s, r, c)
      && (a.Done? ==> forall k :: !Follows(r, k, c))
      && OthersFollow(s, r, c) && r.following.Keys == s.following.Keys
      && r == s.(live := r.live, following := r.following)
  {
  }

  /** The requests that name the conversation. */
  predicate Names(op: Op, c: Id) {
    (op.OpSend? || op.OpCancel? || op.OpSubscribe? || op.OpDelete?) && op.c == c
  }

  lemma UnregisteredIsNotFound(s: State, op: Op, c: Id)
    requires Wired(s) && Names(op, c) && c !in s.live
    ensures Apply(s, op) == (s, NotFound)
  {
  }

  /**
   From the moment a deletion is answered Done, whatever else is requested and whatever timers fire, no socket receives
   anything more about the conversation, and every request that names it is answered NotFound and changes nothing.
   */
  lemma DeletionIsForEver(s: State, c: Id, run: seq<Op>)
    requires Core(s) && Apply(s, OpDelete(c)).1.Done?
    ensures Core(Apply(s, OpDelete(c)).0)
    ensures
      var after := Exec(Apply(s, OpDelete(c)).0, run);
      && c !in after.live
      && (forall socket :: Received(after, (socket, c)) == Received(s, (socket, c)))
      && (forall op :: Names(op, c) ==> Apply(after, op) == (after, NotFound))
  {
    ApplyKeeps(s, OpDelete(c));
    DeletionRemoves(s, c);
    var deleted := Apply(s, OpDelete(c)).0;
    var after := Exec(deleted, run);
    forall socket
      ensures Received(after, (socket, c)) == Received(s, (socket, c)) && c !in after.live
    {
      DeletedIsSilent(deleted, run, socket, c);
    }
    DeletedIsSilent(deleted, run, 0, c);
    forall op | Names(op, c)
      ensures Apply(after, op) == (after, NotFound)
    {
      UnregisteredIsNotFound(after, op, c);
    }
  }

  // ---- Conversations, sockets and subscriptions ----

  /** A new conversation is registered, empty, idle and followed by nobody. */
  lemma CreationStartsEmpty(s: State)
    requires Core(s)
    ensures
      var r := Apply(s, OpCreate).0;
      && s.next !in s.conversations && r.live == s.live + {s.next}
      && r.conversations == s.conversations[s.next := r.conversations[s.next]]
      && r.log == s.log[s.next := []]
      && r.conversations[s.next].messages == [] && r.conversations[s.next].sequence == 0
      && !r.conversations[s.next].processing && r.conversations[s.next].status.Pending?
      && (forall k :: !Follows(r, k, s.next) && Received(r, (k, s.next)) == [])
      && r.following == s.following && r.delivered == s.delivered && r.turns == s.turns && r.receipts == s.receipts
  {
    forall k: Socket ensures !Follows(Apply(s, OpCreate).0, k, s.next) && Received(Apply(s, OpCreate).0, (k, s.next)) == [] {
      assert (k, s.next) in s.delivered ==> s.next in s.log;
    }
  }

  /** A subscription that is answered Done makes this socket follow this conversation, or stop, and changes nothing else. */
  lemma SubscriptionFollows(s: State, socket: Socket, c: Id, subscribing: bool)
    requires Wired(s)
    ensures
      var (r, a) := Apply(s, OpSubscribe(socket, c, subscribing));
      && (a.Done? <==> c in s.live) && (a.NotFound? <==> c !in s.live) && (a.NotFound? ==> r == s)
      && (a.Done? ==> (Follows(r, socket, c) <==> subscribing))
      && (forall k: Socket, d: Id :: k != socket || d != c ==> (Follows(r, k, d) <==> Follows(s, k, d)))
      && r == s.(following := r.following)
  {
  }

  /** Opening or closing a socket ends what it followed and touches no other socket. */
  lemma SocketStartsAfresh(s: State, op: Op)
    requires Wired(s) && (op.OpOpen? || op.OpClose?)
    ensures
      var r := Apply(s, op).0;
      && (op.socket in r.following <==> op.OpOpen?)
      && (forall c :: !Follows(r, op.socket, c))
      && (forall k, c :: k != op.socket ==> (Follows(r, k, c) <==> Follows(s, k, c)))
      && r == s.(following := r.following)
  {
  }

  /** A cancellation clears the flags of a registered conversation; its turns, events and messages stay. */
  lemma CancellationSettles(s: State, c: Id)
    requires Wired(s)
    ensures
      var (r, a) := Apply(s, OpCancel(c));
      && (a.Done? <==> c in s.live) && (a.NotFound? <==> c !in s.live) && (a.NotFound? ==> r == s)
      && (a.Done? ==>
            && !r.conversations[c].processing && r.conversations[c].status.Finished?
            && r == s.(conversations := s.conversations[c := r.conversations[c]])
            && r.conversations[c] == s.conversations[c].(processing := false, status := r.conversations[c].status))
  {
  }

  // ---- Sends ----

  predicate Busy(s: State, c: Id) {
    c in s.conversations && (s.conversations[c].processing || s.conversations[c].status.Running?)
  }

  /** Which of the answers a send gets: the refusals come before the key is looked at. */
  lemma SendAnswers(s: State, op: Op)
    requires Wired(s) && op.OpSend?
    ensures
      var (r, a) := Apply(s, op);
      && (a.NotFound? <==> op.c !in s.live)
      && (a.InvalidRequest? <==> op.c in s.live && op.mentions)
      && (a.Conflict? <==> op.c in s.live && !op.mentions && op.model.Some? && Busy(s, op.c))
      && (Answered(a) ==> (a.Replayed? <==> op.key in s.receipts))
      && (a.Accepted? ==> a.receipt == Receipt(op.c, s.next))
      && !a.Done?
      && (!Answered(a) ==> r == s)
  {
  }

  lemma StartTurnKeepsModel(s: State, c: Id, key: string, d: Id)
    requires Recorded(s, c) && Recorded(s, d)
    ensures
      var r := StartTurn(s, c, key);
      && Recorded(r, d) && r.conversations[d].model == s.conversations[d].model
      && (d == c ==> r.conversations[c].messages == s.conversations[c].messages + [Message(s.next, User)])
  {
    StartTurnRecords(s, c, key, d);
    if d != c {
      StartTurnIsLocal(s, c, key, d);
    }
  }

  lemma FinishKeepsModel(s: State, c: Id)
    requires Recorded(s, c)
    ensures c in Finish(s, c).conversations && Finish(s, c).conversations[c].model == s.conversations[c].model
  {
  }

  lemma WorkKeepsModel(s: State, turn: Turn)
    requires Recorded(s, turn.conversation)
    ensures turn.conversation in Work(s, turn).conversations
    ensures Work(s, turn).conversations[turn.conversation].model == s.conversations[turn.conversation].model
  {
    FinishKeepsModel(s, turn.conversation);
  }

  /** The model a step sets on the conversation, if it sets one: that of a send that is not refused, even if replayed. */
  function Asks(s: State, op: Op, c: Id): seq<string>
    requires Wired(s)
  {
    if op.OpSend? && op.c == c && op.model.Some? && Answered(Apply(s, op).1) then [op.model.value] else []
  }

  function ModelOf(s: State, c: Id): string {
    if c in s.conversations then s.conversations[c].model else ""
  }

  function LastAsked(asked: seq<string>, before: string): string {
    if asked == [] then before else asked[|asked| - 1]
  }

  lemma StartTurnModel(s: State, c: Id, key: string, d: Id)
    requires Recorded(s, c) && s.log.Keys == s.conversations.Keys
    ensures ModelOf(StartTurn(s, c, key), d) == ModelOf(s, d)
  {
    if d in s.conversations {
      StartTurnKeepsModel(s, c, key, d);
    } else {
      StartTurnIsLocal(s, c, key, d);
    }
  }

  lemma StartedModel(s: State, c: Id, model: Option<string>, key: string, d: Id)
    requires Recorded(s, c) && s.log.Keys == s.conversations.Keys
    ensures ModelOf(StartTurn(SwitchModel(s, c, model), c, key), d) ==
      if d == c && model.Some? then model.value else ModelOf(s, d)
  {
    StartTurnModel(SwitchModel(s, c, model), c, key, d);
  }

  lemma SendModel(s: State, op: Op, c: Id)
    requires Wired(s) && op.OpSend?
    ensures ModelOf(Apply(s, op).0, c) == LastAsked(Asks(s, op, c), ModelOf(s, c))
  {
    if Apply(s, op).1.Accepted? {
      StartedModel(s, op.c, op.model, op.key, c);
    }
  }

  lemma FireModel(s: State, t: nat, c: Id)
    requires Wired(s) && Due(s, t)
    ensures ModelOf(Fire(s, t), c) == ModelOf(s, c)
  {
    var turn := s.turns[t];
    assert Fire(s, t).conversations == Work(s, turn).conversations;
    if c == turn.conversation {
      WorkKeepsModel(s, turn);
    } else {
      WorkIsLocal(s, turn, c);
    }
  }

  lemma ModelStep(s: State, op: Op, c: Id)
    requires Wired(s) && s.next !in s.conversations
    ensures ModelOf(Apply(s, op).0, c) == LastAsked(Asks(s, op, c), ModelOf(s, c))
  {
    match op
    case OpSend(_, _, _, _) => SendModel(s, op, c);
    case OpFire(t) => if Due(s, t) { FireModel(s, t, c); }
    case OpCreate =>
    case OpDelete(_) =>
    case OpOpen(_) =>
    case OpClose(_) =>
    case OpSubscribe(_, _, _) =>
    case OpCancel(_) =>
  }

  function AllAsked(s: State, run: seq<Op>, c: Id): seq<string>
    requires Core(s)
    decreases |run|
  {
    if run == [] then []
    else
      ApplyKeeps(s, run[0]);
      Asks(s, run[0], c) + AllAsked(Apply(s, run[0]).0, run[1..], c)
  }

  lemma LastAskedJoins(first: seq<string>, rest: seq<string>, before: string)
    ensures LastAsked(first + rest, before) == LastAsked(rest, LastAsked(first, before))
  {
  }

  /** After any run the model of a conversation is the one the newest send that was not refused asked for. */
  lemma {:induction false} ModelIsLastAsked(s: State, run: seq<Op>, c: Id)
    requires Core(s)
    ensures ModelOf(Exec(s, run), c) == LastAsked(AllAsked(s, run, c), ModelOf(s, c))
    decreases |run|
  {
    if run != [] {
      ApplyKeeps(s, run[0]);
      ModelStep(s, run[0], c);
      var next := Apply(s, run[0]).0;
      ModelIsLastAsked(next, run[1..], c);
      LastAskedJoins(Asks(s, run[0], c), AllAsked(next, run[1..], c), ModelOf(s, c));
    }
  }

  // ---- The order of events ----

  /** What the n-th timer of a turn sends. */
  function TimerKinds(n: nat): seq<Kind> {
    if n == 0 || n == 2 then [Thinking]
    else if n == 1 then [Tips]
    else if n == 3 then [Tool]
    else if n == 4 then [ThinkingDone]
    else [Delta, ContextUsage, TurnCompleted]
  }

  /** What a step says about a conversation: an accepted send starts its turn, and a due timer says its part. */
  function Says(s: State, op: Op, c: Id): seq<Kind>
    requires Wired(s)
  {
    if op.OpSend? && op.c == c && Apply(s, op).1.Accepted? then [MessageCreated, TurnRunning]
    else if op.OpFire? && Due(s, op.timer) && s.turns[op.timer].conversation == c then TimerKinds(s.turns[op.timer].fired)
    else []
  }

  function Kinds(log: seq<Event>): (r: seq<Kind>)
    ensures |r| == |log| && forall k :: 0 <= k < |log| ==> r[k] == log[k].kind
  {
    seq(|log|, k requires 0 <= k < |log| => log[k].kind)
  }

  function KindsOf(s: State, c: Id): seq<Kind> {
    if c in s.log then Kinds(s.log[c]) else []
  }

  lemma EmitSays(s: State, c: Id, kind: Kind)
    requires Recorded(s, c)
    ensures Recorded(Emit(s, c, kind), c) && KindsOf(Emit(s, c, kind), c) == KindsOf(s, c) + [kind]
  {
    assert Kinds(s.log[c] + [Event(s.conversations[c].sequence + 1, kind)]) == Kinds(s.log[c]) + [kind];
  }

  lemma StartTurnSays(s: State, c: Id, key: string)
    requires Recorded(s, c)
    ensures KindsOf(StartTurn(s, c, key), c) == KindsOf(s, c) + [MessageCreated, TurnRunning]
  {
    var stored := Store(s, c, key);
    EmitSays(stored, c, MessageCreated);
    var created := Settle(Emit(stored, c, MessageCreated), c, true, Running);
    EmitSays(created, c, TurnRunning);
    assert KindsOf(s, c) + [MessageCreated] + [TurnRunning] == KindsOf(s, c) + [MessageCreated, TurnRunning];
  }

  lemma FinishSays(s: State, c: Id)
    requires Recorded(s, c)
    ensures KindsOf(Finish(s, c), c) == KindsOf(s, c) + [Delta, ContextUsage, TurnCompleted]
  {
    var answered := AddAnswer(s, c);
    EmitSays(answered, c, Delta);
    EmitSays(Emit(answered, c, Delta), c, ContextUsage);
    var reported := Report(answered, c);
    EmitSays(Settle(reported, c, false, Finished), c, TurnCompleted);
    assert KindsOf(s, c) + [Delta] + [ContextUsage] + [TurnCompleted] == KindsOf(s, c) + [Delta, ContextUsage, TurnCompleted];
  }

  lemma WorkSays(s: State, turn: Turn)
    requires Recorded(s, turn.conversation)
    ensures KindsOf(Work(s, turn), turn.conversation) == KindsOf(s, turn.conversation) + TimerKinds(turn.fired)
  {
    var c := turn.conversation;
    if turn.fired == 4 {
      EmitSays(Push(s, c, Message(turn.thinking, Activity)), c, ThinkingDone);
    } else if turn.fired < 4 {
      EmitSays(s, c, TimerKinds(turn.fired)[0]);
    } else {
      FinishSays(s, c);
    }
  }

  lemma StartTurnLeavesLog(s: State, c: Id, key: string, d: Id)
    requires Recorded(s, c) && s.log.Keys == s.conversations.Keys && d != c
    ensures KindsOf(StartTurn(s, c, key), d) == KindsOf(s, d)
  {
    StartTurnIsLocal(s, c, key, d);
  }

  lemma StartedSays(s: State, c: Id, model: Option<string>, key: string, d: Id)
    requires Recorded(s, c) && s.log.Keys == s.conversations.Keys
    ensures KindsOf(StartTurn(SwitchModel(s, c, model), c, key), d) ==
      KindsOf(s, d) + if d == c then [MessageCreated, TurnRunning] else []
  {
    if d == c {
      StartTurnSays(SwitchModel(s, c, model), c, key);
    } else {
      StartTurnLeavesLog(SwitchModel(s, c, model), c, key, d);
    }
  }

  lemma SendSays(s: State, op: Op, c: Id)
    requires Wired(s) && op.OpSend?
    ensures KindsOf(Apply(s, op).0, c) == KindsOf(s, c) + Says(s, op, c)
  {
    if Apply(s, op).1.Accepted? {
      StartedSays(s, op.c, op.model, op.key, c);
    }
  }

  lemma FireSays(s: State, t: nat, c: Id)
    requires Wired(s) && Due(s, t)
    ensures KindsOf(Fire(s, t), c) == KindsOf(s, c) + Says(s, OpFire(t), c)
  {
    var turn := s.turns[t];
    assert Fire(s, t).log == Work(s, turn).log;
    if c == turn.conversation {
      WorkSays(s, turn);
    } else {
      WorkIsLocal(s, turn, c);
    }
  }

  lemma StepSays(s: State, op: Op, c: Id)
    requires Wired(s) && s.next !in s.conversations
    ensures KindsOf(Apply(s, op).0, c) == KindsOf(s, c) + Says(s, op, c)
  {
    match op
    case OpSend(_, _, _, _) => SendSays(s, op, c);
    case OpFire(t) => if Due(s, t) { FireSays(s, t, c); }
    case OpCreate =>
    case OpDelete(_) =>
    case OpOpen(_) =>
    case OpClose(_) =>
    case OpSubscribe(_, _, _) =>
    case OpCancel(_) =>
  }

  function AllSays(s: State, run: seq<Op>, c: Id): seq<Kind>
    requires Core(s)
    decreases |run|
  {
    if run == [] then []
    else
      ApplyKeeps(s, run[0]);
      Says(s, run[0], c) + AllSays(Apply(s, run[0]).0, run[1..], c)
  }

  lemma Associative<T>(a: seq<T>, b: seq<T>, c: seq<T>)
    ensures (a + b) + c == a + (b + c)
  {
  }

  /**
   Over any run the events of a conversation are, in this order, those of its accepted sends and due timers: a turn
   starts with its creation, and ends with its answer, the context usage and its completion side by side.
   */
  lemma {:induction false} EventsInOrder(s: State, run: seq<Op>, c: Id)
    requires Core(s)
    ensures KindsOf(Exec(s, run), c) == KindsOf(s, c) + AllSays(s, run, c)
    decreases |run|
  {
    if run != [] {
      ApplyKeeps(s, run[0]);
      StepSays(s, run[0], c);
      var next := Apply(s, run[0]).0;
      EventsInOrder(next, run[1..], c);
      Associative(KindsOf(s, c), Says(s, run[0], c), AllSays(next, run[1..], c));
    }
  }

  // ---- The order of messages ----

  function MessagesOf(s: State, c: Id): seq<Message> {
    if c in s.conversations then s.conversations[c].messages else []
  }

  /** The message a step adds to a conversation: the user's, or the activity or the answer of a turn. */
  function AddsTo(s: State, op: Op, c: Id): seq<Message>
    requires Wired(s)
  {
    if op.OpSend? && op.c == c && Apply(s, op).1.Accepted? then [Message(Apply(s, op).1.receipt.message, User)]
    else if op.OpFire? && Due(s, op.timer) && s.turns[op.timer].conversation == c then
      TimerMessages(s.turns[op.timer], s.next)
    else []
  }

  function TimerMessages(turn: Turn, next: Id): seq<Message> {
    if turn.fired == 4 then [Message(turn.thinking, Activity)]
    else if turn.fired == 5 then [Message(next, Assistant)]
    else []
  }

  lemma FinishAdds(s: State, c: Id)
    requires Recorded(s, c)
    ensures MessagesOf(Finish(s, c), c) == MessagesOf(s, c) + [Message(s.next, Assistant)]
  {
  }

  lemma WorkAdds(s: State, turn: Turn)
    requires Recorded(s, turn.conversation) && turn.fired < TIMERS
    ensures MessagesOf(Work(s, turn), turn.conversation) == MessagesOf(s, turn.conversation) + TimerMessages(turn, s.next)
  {
    if turn.fired == 5 {
      FinishAdds(s, turn.conversation);
    }
  }

  lemma StartedAdds(s: State, c: Id, model: Option<string>, key: string, d: Id)
    requires Recorded(s, c) && s.log.Keys == s.conversations.Keys
    ensures MessagesOf(StartTurn(SwitchModel(s, c, model), c, key), d) ==
      MessagesOf(s, d) + if d == c then [Message(s.next, User)] else []
  {
    var switched := SwitchModel(s, c, model);
    if d in s.conversations {
      StartTurnKeepsModel(switched, c, key, d);
    }
    if d != c {
      StartTurnIsLocal(switched, c, key, d);
    }
  }

  lemma SendAdds(s: State, op: Op, c: Id)
    requires Wired(s) && op.OpSend?
    ensures MessagesOf(Apply(s, op).0, c) == MessagesOf(s, c) + AddsTo(s, op, c)
  {
    if Apply(s, op).1.Accepted? {
      StartedAdds(s, op.c, op.model, op.key, c);
    }
  }

  lemma FireAdds(s: State, t: nat, c: Id)
    requires Wired(s) && Due(s, t)
    ensures MessagesOf(Fire(s, t), c) == MessagesOf(s, c) + AddsTo(s, OpFire(t), c)
  {
    var turn := s.turns[t];
    assert Fire(s, t).conversations == Work(s, turn).conversations;
    if c == turn.conversation {
      WorkAdds(s, turn);
    } else {
      WorkIsLocal(s, turn, c);
    }
  }

  lemma StepAdds(s: State, op: Op, c: Id)
    requires Wired(s) && s.next !in s.conversations
    ensures MessagesOf(Apply(s, op).0, c) == MessagesOf(s, c) + AddsTo(s, op, c)
  {
    match op
    case OpSend(_, _, _, _) => SendAdds(s, op, c);
    case OpFire(t) => if Due(s, t) { FireAdds(s, t, c); }
    case OpCreate =>
    case OpDelete(_) =>
    case OpOpen(_) =>
    case OpClose(_) =>
    case OpSubscribe(_, _, _) =>
    case OpCancel(_) =>
  }

  function AllAdds(s: State, run: seq<Op>, c: Id): seq<Message>
    requires Core(s)
    decreases |run|
  {
    if run == [] then []
    else
      ApplyKeeps(s, run[0]);
      AddsTo(s, run[0], c) + AllAdds(Apply(s, run[0]).0, run[1..], c)
  }

  /** Over any run the messages of a conversation only grow, by these messages in this order. */
  lemma {:induction false} MessagesInOrder(s: State, run: seq<Op>, c: Id)
    requires Core(s)
    ensures MessagesOf(Exec(s, run), c) == MessagesOf(s, c) + AllAdds(s, run, c)
    decreases |run|
  {
    if run != [] {
      ApplyKeeps(s, run[0]);
      StepAdds(s, run[0], c);
      var next := Apply(s, run[0]).0;
      MessagesInOrder(next, run[1..], c);
      Associative(MessagesOf(s, c), AddsTo(s, run[0], c), AllAdds(next, run[1..], c));
    }
  }
}
