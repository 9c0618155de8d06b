/**
 The conversation part of the mock App Server as the object its handlers update
 (web/scripts/mock-server.ts:451-464, 516-588, 607-636, 691-745).
 */
module ConversationServer {
  import opened Prelude
  import opened Conversations
  import opened ConversationRuns

  class Server {
    var conversations: map<Id, Conversation>
    var live: set<Id>
    var receipts: map<string, Receipt>
    var following: map<Socket, set<Id>>
    var turns: seq<Turn>
    /** What was sent on each socket about each conversation. */
    var delivered: map<(Socket, Id), seq<Event>>
    var next: Id
    /** Every event ever numbered; the server itself keeps only the counters. */
    ghost var log: map<Id, seq<Event>>

    ghost function View(): State
      reads this
    {
      State(conversations, live, receipts, following, turns, log, delivered, next)
    }

    constructor ()
      ensures View() == INITIAL
    {
      conversations, live, receipts, following := map[], {}, map[], map[];
      turns, delivered, next, log := [], map[], 0, map[];
    }

    /** Send an event to every socket that follows the conversation. */
    method Broadcast(c: Id, event: Event)
      modifies `delivered
      ensures delivered == Deliver(old(View()), c, event)
    {
      ghost var before := View();
      var todo := following.Keys;
      while todo != {}
        invariant todo <= following.Keys
        invariant forall p :: p in delivered <==>
          (p in before.delivered || (p.0 !in todo && p.1 == c && Follows(before, p.0, c)))
        invariant forall p :: p in delivered && p.0 !in todo && p.1 == c && Follows(before, p.0, c) ==>
          delivered[p] == Received(before, p) + [event]
        invariant forall p :: p in delivered && !(p.0 !in todo && p.1 == c && Follows(before, p.0, c)) ==>
          delivered[p] == Received(before, p)
        decreases |todo|
      {
        var s :| s in todo;
        todo := todo - {s};
        if c in following[s] {
          delivered := delivered[(s, c) := (if (s, c) in delivered then delivered[(s, c)] else []) + [event]];
        }
      }
      assert delivered == Deliver(before, c, event);
    }

    /** Number an event and send it. */
    method SendConversationEvent(c: Id, kind: Kind)
      requires Recorded(View(), c)
      modifies `conversations, `delivered, `log
      ensures View() == Emit(old(View()), c, kind)
    {
      var event := Event(conversations[c].sequence + 1, kind);
      Broadcast(c, event);
      conversations := conversations[c := conversations[c].(sequence := event.sequence)];
      log := log[c := log[c] + [event]];
    }

    method CreateConversation() returns (id: Id)
      modifies `conversations, `live, `next, `log
      ensures View() == Create(old(View())) && id == old(next)
    {
      id := next;
      next := next + 1;
      conversations := conversations[id := Conversation([], 0, false, Pending, "")];
      log := log[id := []];
      live := live + {id};
    }

    method DeleteConversation(c: Id) returns (answer: Answer)
      modifies `live, `following
      ensures (View(), answer) == Delete(old(View()), c)
      ensures live == old(live) - {c} && (answer.Done? <==> c in old(live))
      ensures answer.Done? ==>
        following.Keys == old(following).Keys && forall k :: k in following ==> following[k] == old(following)[k] - {c}
      ensures !answer.Done? ==> answer.NotFound? && following == old(following)
    {
      if c !in live {
        return NotFound;
      }
      live := live - {c};
      ghost var before := following;
      var todo := following.Keys;
      while todo != {}
        invariant live == old(live) - {c}
        invariant todo <= before.Keys && following.Keys == before.Keys
        invariant forall s :: s in before ==> following[s] == if s in todo then before[s] else before[s] - {c}
        decreases |todo|
      {
        var s :| s in todo;
        todo := todo - {s};
        following := following[s := following[s] - {c}];
      }
      assert following == Unfollowed(before, c);
      answer := Done;
    }

    method FollowConversation(socket: Socket, c: Id, subscribing: bool) returns (answer: Answer)
      modifies `following
      ensures (View(), answer) == Subscribe(old(View()), socket, c, subscribing)
      ensures answer == if c in live then Done else NotFound
      ensures answer.Done? ==> socket in following && (c in following[socket] <==> subscribing)
    {
      if c !in live {
        return NotFound;
      }
      var set0 := if socket in following then following[socket] else {};
      if subscribing {
        set0 := set0 + {c};
      } else {
        set0 := set0 - {c};
      }
      following := following[socket := set0];
      answer := Done;
    }

    method RunTurn(c: Id)
      requires Recorded(View(), c)
      modifies `conversations, `delivered, `log, `turns, `next
      ensures View() == Schedule(Emit(Settle(old(View()), c, true, Running), c, TurnRunning), c)
    {
      conversations := conversations[c := conversations[c].(processing := true, status := Running)];
      SendConversationEvent(c, TurnRunning);
      turns := turns + [Turn(c, next, 0)];
      next := next + 1;
    }

    method SendMessage(c: Id, mentions: bool, model: Option<string>, key: string) returns (answer: Answer)
      requires c in live ==> Recorded(View(), c)
      modifies this
      ensures (View(), answer) == Send(old(View()), c, mentions, model, key)
    {
      if c !in live {
        return NotFound;
      }
      if mentions {
        return InvalidRequest;
      }
      if model.Some? {
        if conversations[c].processing || conversations[c].status == Running {
          return Conflict;
        }
        conversations := conversations[c := conversations[c].(model := model.value)];
      }
      if key in receipts {
        return Replayed(receipts[key]);
      }
      var message := Message(next, User);
      next := next + 1;
      conversations := conversations[c := conversations[c].(messages := conversations[c].messages + [message])];
      var receipt := Receipt(c, message.id);
      receipts := receipts[key := receipt];
      SendConversationEvent(c, MessageCreated);
      RunTurn(c);
      answer := Accepted(receipt);
    }

    method CancelTurn(c: Id) returns (answer: Answer)
      requires c in live ==> Recorded(View(), c)
      modifies `conversations
      ensures (View(), answer) == Cancel(old(View()), c)
    {
      if c !in live {
        return NotFound;
      }
      conversations := conversations[c := conversations[c].(processing := false, status := Finished)];
      answer := Done;
    }

    method AnswerTurn(c: Id)
      requires Recorded(View(), c)
      modifies `conversations, `next
      ensures View() == AddAnswer(old(View()), c)
    {
      var message := Message(next, Assistant);
      next := next + 1;
      conversations := conversations[c := conversations[c].(messages := conversations[c].messages + [message])];
    }

    method FinishTurn(c: Id)
      requires Recorded(View(), c)
      modifies `conversations, `delivered, `log, `next
      ensures View() == Finish(old(View()), c)
    {
      AnswerTurn(c);
      SendConversationEvent(c, Delta);
      SendConversationEvent(c, ContextUsage);
      assert View() == Report(AddAnswer(old(View()), c), c);
      conversations := conversations[c := conversations[c].(processing := false, status := Finished)];
      SendConversationEvent(c, TurnCompleted);
    }

    method FireTimer(t: nat)
      requires Due(View(), t) ==> Recorded(View(), turns[t].conversation)
      modifies this
      ensures View() == Fire(old(View()), t)
    {
      if t >= |turns| || turns[t].fired >= TIMERS {
        return;
      }
      var turn := turns[t];
      var c := turn.conversation;
      if turn.fired == 5 {
        FinishTurn(c);
      } else if turn.fired == 4 {
        var message := Message(turn.thinking, Activity);
        conversations := conversations[c := conversations[c].(messages := conversations[c].messages + [message])];
        SendConversationEvent(c, ThinkingDone);
      } else {
        SendConversationEvent(c, if turn.fired == 1 then Tips else if turn.fired == 3 then Tool else Thinking);
      }
      turns := turns[t := turn.(fired := turn.fired + 1)];
    }

    /** One request or timer. */
    method Handle(op: Op) returns (answer: Answer)
      requires Core(View())
      modifies this
      ensures (View(), answer) == Apply(old(View()), op) && Core(View())
    {
      ApplyKeeps(View(), op);
      answer := Done;
      match op {
        case OpCreate => var _ := CreateConversation();
        case OpDelete(c) => answer := DeleteConversation(c);
        case OpOpen(socket) => following := following[socket := {}];
        case OpClose(socket) => following := following - {socket};
        case OpSubscribe(socket, c, subscribing) => answer := FollowConversation(socket, c, subscribing);
        case OpSend(c, mentions, model, key) => answer := SendMessage(c, mentions, model, key);
        case OpCancel(c) => answer := CancelTurn(c);
        case OpFire(t) => FireTimer(t);
      }
    }
  }
}
