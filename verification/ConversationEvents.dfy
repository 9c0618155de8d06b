/** What a socket receives of a conversation, over whole runs. */
module ConversationEvents {
  import opened Prelude
  import opened Conversations
  import opened ConversationRuns

  /**
   From `s` to `r` the conversation's log only grew, and the socket received exactly what was added if it follows
   the conversation, and nothing otherwise.
   */
  predicate Tells(s: State, r: State, p: (Socket, Id)) {
    && p.1 in s.log && p.1 in r.log && s.log[p.1] <= r.log[p.1]
    && Received(r, p) == Received(s, p) + (if Follows(s, p.0, p.1) then r.log[p.1][|s.log[p.1]|..] else [])
  }

  lemma TellsOn(s: State, m: State, r: State, p: (Socket, Id))
    requires Tells(s, m, p) && Tells(m, r, p) && Follows(s, p.0, p.1) == Follows(m, p.0, p.1)
    ensures Tells(s, r, p)
  {
    var a, b, d := s.log[p.1], m.log[p.1], r.log[p.1];
    assert d[|a|..] == b[|a|..] + d[|b|..];
  }

  lemma EmitTells(s: State, c: Id, kind: Kind, p: (Socket, Id))
    requires Recorded(s, c) && p.1 in s.log
    ensures Tells(s, Emit(s, c, kind), p) && Emit(s, c, kind).following == s.following
  {
    var e := Event(s.conversations[c].sequence + 1, kind);
    if p.1 == c {
      assert (s.log[c] + [e])[|s.log[c]|..] == [e];
    }
  }

  lemma StartTurnTells(s: State, c: Id, key: string, p: (Socket, Id))
    requires Recorded(s, c) && p.1 in s.log
    ensures Tells(s, StartTurn(s, c, key), p) && StartTurn(s, c, key).following == s.following
  {
    var stored := Store(s, c, key);
    EmitTells(stored, c, MessageCreated, p);
    var created := Emit(stored, c, MessageCreated);
    var running := Settle(created, c, true, Running);
    EmitTells(running, c, TurnRunning, p);
    TellsOn(stored, created, Emit(running, c, TurnRunning), p);
  }

  lemma FinishTells(s: State, c: Id, p: (Socket, Id))
    requires Recorded(s, c) && p.1 in s.log
    ensures Tells(s, Finish(s, c), p) && Finish(s, c).following == s.following
  {
    var answered := AddAnswer(s, c);
    EmitTells(answered, c, Delta, p);
    EmitTells(Emit(answered, c, Delta), c, ContextUsage, p);
    var reported := Report(answered, c);
    TellsOn(answered, Emit(answered, c, Delta), reported, p);
    EmitTells(Settle(reported, c, false, Finished), c, TurnCompleted, p);
    TellsOn(answered, reported, Complete(reported, c), p);
  }

  lemma WorkTells(s: State, turn: Turn, p: (Socket, Id))
    requires Recorded(s, turn.conversation) && p.1 in s.log
    ensures Tells(s, Work(s, turn), p) && Work(s, turn).following == s.following
  {
    var c := turn.conversation;
    if turn.fired == 4 {
      EmitTells(Push(s, c, Message(turn.thinking, Activity)), c, ThinkingDone, p);
    } else if turn.fired < 4 {
      EmitTells(s, c, if turn.fired == 1 then Tips else if turn.fired == 3 then Tool else Thinking, p);
    } else {
      FinishTells(s, c, p);
    }
  }

  lemma AdmitTells(s: State, c: Id, key: string, p: (Socket, Id))
    requires Recorded(s, c) && p.1 in s.log
    ensures Tells(s, Admit(s, c, key).0, p)
  {
    if key !in s.receipts {
      StartTurnTells(s, c, key, p);
    }
  }

  lemma SendTells(s: State, c: Id, mentions: bool, model: Option<string>, key: string, p: (Socket, Id))
    requires c in s.live ==> Recorded(s, c)
    requires p.1 in s.log
    ensures Tells(s, Send(s, c, mentions, model, key).0, p)
  {
    if Answered(Send(s, c, mentions, model, key).1) {
      AdmitTells(SwitchModel(s, c, model), c, key, p);
    }
  }

  lemma FireTells(s: State, t: nat, p: (Socket, Id))
    requires Due(s, t) ==> Recorded(s, s.turns[t].conversation)
    requires p.1 in s.log
    ensures Tells(s, Fire(s, t), p)
  {
    if Due(s, t) {
      WorkTells(s, s.turns[t], p);
    }
  }

  lemma ApplyTells(s: State, op: Op, p: (Socket, Id))
    requires Wired(s) && p.1 in s.log && p.1 != s.next
    ensures Tells(s, Apply(s, op).0, p)
  {
    match op
    case OpFire(t) => FireTells(s, t, p);
    case OpSend(c, mentions, model, key) => SendTells(s, c, mentions, model, key, p);
    case OpCreate =>
    case OpDelete(_) =>
    case OpOpen(_) =>
    case OpClose(_) =>
    case OpSubscribe(_, _, _) =>
    case OpCancel(_) =>
  }

  /** The socket follows the conversation before every step of the run. */
  predicate FollowsThrough(s: State, run: seq<Op>, socket: Socket, c: Id)
    requires Core(s)
    decreases |run|
  {
    run == [] || (
      ApplyKeeps(s, run[0]);
      Follows(s, socket, c) && FollowsThrough(Apply(s, run[0]).0, run[1..], socket, c))
  }

  /** From `s` to `r` the socket received every event that was added to the log, in the log's order. */
  predicate HearsAll(s: State, r: State, p: (Socket, Id)) {
    && p.1 in s.log && p.1 in r.log && s.log[p.1] <= r.log[p.1]
    && Received(r, p) == Received(s, p) + r.log[p.1][|s.log[p.1]|..]
  }

  lemma HearsAllOn(s: State, m: State, r: State, p: (Socket, Id))
    requires Tells(s, m, p) && Follows(s, p.0, p.1) && HearsAll(m, r, p)
    ensures HearsAll(s, r, p)
  {
    var a, b, d := s.log[p.1], m.log[p.1], r.log[p.1];
    assert d[|a|..] == b[|a|..] + d[|b|..];
  }

  /**
   A continuously subscribed socket receives every event sent meanwhile, in order: the ones numbered from just after
   the last event sent before up to the last event sent, each once.
   */
  lemma {:induction false} SubscriberHearsEverything(s: State, run: seq<Op>, socket: Socket, c: Id)
    requires Core(s) && c in s.log && FollowsThrough(s, run, socket, c)
    ensures HearsAll(s, Exec(s, run), (socket, c))
    decreases |run|
  {
    if run == [] {
      assert s.log[c][|s.log[c]|..] == [];
    } else {
      ApplyKeeps(s, run[0]);
      ApplyTells(s, run[0], (socket, c));
      var m := Apply(s, run[0]).0;
      SubscriberHearsEverything(m, run[1..], socket, c);
      HearsAllOn(s, m, Exec(m, run[1..]), (socket, c));
    }
  }

  /** The events of a conversation are numbered 1, 2, ... without a gap, as many as its counter says. */
  lemma EventsAreNumbered(run: seq<Op>, c: Id, k: nat)
    requires c in Exec(INITIAL, run).log && k < |Exec(INITIAL, run).log[c]|
    ensures Exec(INITIAL, run).log[c][k].sequence == k + 1
    ensures c in Exec(INITIAL, run).conversations
    ensures |Exec(INITIAL, run).log[c]| == Exec(INITIAL, run).conversations[c].sequence
  {
    assert NumberedLog(Exec(INITIAL, run).log[c]);
  }

  lemma ApplyKeepsDeleted(s: State, op: Op, c: Id)
    requires Core(s) && c in s.log && c !in s.live
    ensures c in Apply(s, op).0.log && c !in Apply(s, op).0.live
  {
    ApplyTells(s, op, (0, c));
    if op.OpFire? && Due(s, op.timer) {
      WorkLeaves(s, s.turns[op.timer]);
    }
  }

  /** After its deletion a conversation is silent for ever, although the timers of its turns go on. */
  lemma {:induction false} DeletedIsSilent(s: State, run: seq<Op>, socket: Socket, c: Id)
    requires Core(s) && c in s.log && c !in s.live
    ensures Received(Exec(s, run), (socket, c)) == Received(s, (socket, c)) && c !in Exec(s, run).live
    decreases |run|
  {
    if run != [] {
      ApplyKeeps(s, run[0]);
      assert !Follows(s, socket, c);
      ApplyTells(s, run[0], (socket, c));
      ApplyKeepsDeleted(s, run[0], c);
      DeletedIsSilent(Apply(s, run[0]).0, run[1..], socket, c);
    }
  }

  /** Two sockets that received an event with the same number received the same event. */
  lemma SocketsAgree(run: seq<Op>, c: Id, a: Socket, b: Socket, i: nat, j: nat)
    requires var s := Exec(INITIAL, run);
             && i < |Received(s, (a, c))| && j < |Received(s, (b, c))|
             && Received(s, (a, c))[i].sequence == Received(s, (b, c))[j].sequence
    ensures Received(Exec(INITIAL, run), (a, c))[i] == Received(Exec(INITIAL, run), (b, c))[j]
  {
    var s := Exec(INITIAL, run);
    assert InOrder(s.delivered[(a, c)], s.log[c]) && InOrder(s.delivered[(b, c)], s.log[c]);
  }
}
