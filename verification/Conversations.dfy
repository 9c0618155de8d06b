/**
 Conversations of the mock App Server: idempotent sends, turns on timers, numbered events and subscriptions
 (web/scripts/mock-server.ts:451-464, 516-588, 607-636, 691-745, 1078-1088). Identifiers are drawn from a
 counter, where the server draws random ones that never repeat.
 */
module Conversations {
  import opened Prelude

  type Id = nat
  type Socket = nat

  datatype Role = User | Activity | Assistant

  datatype Message = Message(id: Id, role: Role)

  datatype Status = Pending | Running | Finished

  datatype Kind =
    | MessageCreated | TurnRunning | Thinking | Tips | Tool | ThinkingDone | Delta | ContextUsage | TurnCompleted

  datatype Event = Event(sequence: nat, kind: Kind)

  datatype Conversation =
    Conversation(messages: seq<Message>, sequence: nat, processing: bool, status: Status, model: string)

  datatype Receipt = Receipt(conversation: Id, message: Id)

  /** A started turn and how many of its six timers have fired. */
  datatype Turn = Turn(conversation: Id, thinking: Id, fired: nat)

  datatype Answer = Done | NotFound | InvalidRequest | Conflict | Replayed(receipt: Receipt) | Accepted(receipt: Receipt)

  /**
   The timers of a deleted conversation keep working on its record, so `conversations` holds every record ever made
   and `live` those still registered. `log` is every event sent to anyone, `delivered` what each socket received.
   */
  datatype State = State(
    conversations: map<Id, Conversation>,
    live: set<Id>,
    receipts: map<string, Receipt>,
    following: map<Socket, set<Id>>,
    turns: seq<Turn>,
    log: map<Id, seq<Event>>,
    delivered: map<(Socket, Id), seq<Event>>,
    next: Id)

  const INITIAL := State(map[], {}, map[], map[], [], map[], map[], 0)
  const TIMERS: nat := 6

  predicate Follows(s: State, socket: Socket, c: Id) {
    socket in s.following && c in s.following[socket]
  }

  function Received(s: State, p: (Socket, Id)): seq<Event> {
    if p in s.delivered then s.delivered[p] else []
  }

  // ---- The steps every request and timer is made of ----

  predicate Recorded(s: State, c: Id) {
    c in s.conversations && c in s.log
  }

  function Deliver(s: State, c: Id, e: Event): map<(Socket, Id), seq<Event>> {
    map p | p in s.delivered.Keys + (set k | k in s.following && c in s.following[k] :: (k, c)) ::
      if p.1 == c && Follows(s, p.0, c) then Received(s, p) + [e] else Received(s, p)
  }

  function Emit(s: State, c: Id, kind: Kind): State
    requires Recorded(s, c)
  {
    var e := Event(s.conversations[c].sequence + 1, kind);
    s.(conversations := s.conversations[c := s.conversations[c].(sequence := e.sequence)],
       log := s.log[c := s.log[c] + [e]],
       delivered := Deliver(s, c, e))
  }

  function Push(s: State, c: Id, m: Message): State
    requires Recorded(s, c)
  {
    s.(conversations := s.conversations[c := s.conversations[c].(messages := s.conversations[c].messages + [m])])
  }

  function Settle(s: State, c: Id, processing: bool, status: Status): State
    requires Recorded(s, c)
  {
    s.(conversations := s.conversations[c := s.conversations[c].(processing := processing, status := status)])
  }

  function SwitchModel(s: State, c: Id, model: Option<string>): State
    requires Recorded(s, c)
  {
    if model.None? then s
    else s.(conversations := s.conversations[c := s.conversations[c].(model := model.value)])
  }

  /** Store the user message and its receipt under the key. */
  function Store(s: State, c: Id, key: string): State
    requires Recorded(s, c)
  {
    Push(s, c, Message(s.next, User)).(
      receipts := s.receipts[key := Receipt(c, s.next)],
      next := s.next + 1)
  }

  function Schedule(s: State, c: Id): State {
    s.(turns := s.turns + [Turn(c, s.next, 0)], next := s.next + 1)
  }

  // ---- Requests ----

  function Create(s: State): State {
    s.(conversations := s.conversations[s.next := Conversation([], 0, false, Pending, "")],
       log := s.log[s.next := []],
       live := s.live + {s.next},
       next := s.next + 1)
  }

  function Unfollowed(following: map<Socket, set<Id>>, c: Id): map<Socket, set<Id>> {
    map k | k in following :: following[k] - {c}
  }

  function Delete(s: State, c: Id): (State, Answer) {
    if c !in s.live then (s, NotFound)
    else (s.(live := s.live - {c}, following := Unfollowed(s.following, c)), Done)
  }

  function Followed(s: State, socket: Socket): set<Id> {
    if socket in s.following then s.following[socket] else {}
  }

  function Subscribe(s: State, socket: Socket, c: Id, subscribing: bool): (State, Answer) {
    if c !in s.live then (s, NotFound)
    else
      var set0 := Followed(s, socket);
      (s.(following := s.following[socket := if subscribing then set0 + {c} else set0 - {c}]), Done)
  }

  function OpenSocket(s: State, socket: Socket): State {
    s.(following := s.following[socket := {}])
  }

  function CloseSocket(s: State, socket: Socket): State {
    s.(following := s.following - {socket})
  }

  function StartTurn(s: State, c: Id, key: string): State
    requires Recorded(s, c)
  {
    var created := Emit(Store(s, c, key), c, MessageCreated);
    Schedule(Emit(Settle(created, c, true, Running), c, TurnRunning), c)
  }

  /** A key seen before, on any conversation, is answered with its first receipt. */
  function Admit(s: State, c: Id, key: string): (State, Answer)
    requires Recorded(s, c)
  {
    if key in s.receipts then (s, Replayed(s.receipts[key]))
    else (StartTurn(s, c, key), Accepted(Receipt(c, s.next)))
  }

  /** `mentions` tells whether the request mentions anything but a skill; `model` is the model it asks to switch to. */
  function Send(s: State, c: Id, mentions: bool, model: Option<string>, key: string): (State, Answer)
    requires c in s.live ==> Recorded(s, c)
  {
    if c !in s.live then (s, NotFound)
    else if mentions then (s, InvalidRequest)
    else if model.Some? && (s.conversations[c].processing || s.conversations[c].status == Running) then (s, Conflict)
    else Admit(SwitchModel(s, c, model), c, key)
  }

  function Cancel(s: State, c: Id): (State, Answer)
    requires c in s.live ==> Recorded(s, c)
  {
    if c !in s.live then (s, NotFound) else (Settle(s, c, false, Finished), Done)
  }

  // ---- Timers, in the order of their delays ----

  function AddAnswer(s: State, c: Id): State
    requires Recorded(s, c)
  {
    Push(s, c, Message(s.next, Assistant)).(next := s.next + 1)
  }

  function Report(s: State, c: Id): State
    requires Recorded(s, c)
  {
    Emit(Emit(s, c, Delta), c, ContextUsage)
  }

  function Complete(s: State, c: Id): State
    requires Recorded(s, c)
  {
    Emit(Settle(s, c, false, Finished), c, TurnCompleted)
  }

  function Finish(s: State, c: Id): State
    requires Recorded(s, c)
  {
    Complete(Report(AddAnswer(s, c), c), c)
  }

  function Work(s: State, turn: Turn): State
    requires Recorded(s, turn.conversation)
  {
    var c := turn.conversation;
    if turn.fired == 0 || turn.fired == 2 then Emit(s, c, Thinking)
    else if turn.fired == 1 then Emit(s, c, Tips)
    else if turn.fired == 3 then Emit(s, c, Tool)
    else if turn.fired == 4 then Emit(Push(s, c, Message(turn.thinking, Activity)), c, ThinkingDone)
    else Finish(s, c)
  }

  predicate Due(s: State, t: nat) {
    t < |s.turns| && s.turns[t].fired < TIMERS
  }

  function Fire(s: State, t: nat): State
    requires Due(s, t) ==> Recorded(s, s.turns[t].conversation)
  {
    if !Due(s, t) then s
    else
      var turn := s.turns[t];
      Work(s, turn).(turns := s.turns[t := turn.(fired := turn.fired + 1)])
  }

  // ---- Invariants ----

  /** Events of a conversation are numbered from one without a gap. */
  predicate Numbered(s: State) {
    && s.log.Keys == s.conversations.Keys
    && forall c :: c in s.log ==> NumberedLog(s.log[c]) && |s.log[c]| == s.conversations[c].sequence
  }

  predicate NumberedLog(log: seq<Event>) {
    forall k :: 0 <= k < |log| ==> log[k].sequence == k + 1
  }

  /** A socket received some of the events, each as it was sent, in order and none twice. */
  predicate InOrder(heard: seq<Event>, log: seq<Event>) {
    && (forall k :: 0 <= k < |heard| ==> 1 <= heard[k].sequence <= |log| && heard[k] == log[heard[k].sequence - 1])
    && (forall i, j :: 0 <= i < j < |heard| ==> heard[i].sequence < heard[j].sequence)
  }

  predicate Heard(delivered: map<(Socket, Id), seq<Event>>, log: map<Id, seq<Event>>) {
    forall p :: p in delivered ==> p.1 in log && InOrder(delivered[p], log[p.1])
  }

  /** Whatever a request or a timer refers to is on record. */
  predicate Wired(s: State) {
    && s.log.Keys == s.conversations.Keys && s.live <= s.conversations.Keys
    && forall t :: 0 <= t < |s.turns| ==> s.turns[t].conversation in s.conversations && s.turns[t].fired <= TIMERS
  }

  predicate Known(s: State) {
    && Wired(s)
    && (forall c :: c in s.conversations ==> c < s.next)
    && (forall k, c :: k in s.following && c in s.following[k] ==> c in s.live)
  }

  predicate Stored(conversations: map<Id, Conversation>, r: Receipt) {
    r.conversation in conversations && Message(r.message, User) in conversations[r.conversation].messages
  }

  predicate Keyed(receipts: map<string, Receipt>, r: Receipt) {
    exists key :: key in receipts && receipts[key] == r
  }

  predicate ReceiptsStored(s: State) {
    forall key :: key in s.receipts ==> Stored(s.conversations, s.receipts[key]) && s.receipts[key].message < s.next
  }

  predicate UsersKeyed(s: State) {
    forall c, m :: c in s.conversations && m in s.conversations[c].messages && m.role.User? ==>
      m.id < s.next && Keyed(s.receipts, Receipt(c, m.id))
  }

  predicate DistinctUsers(messages: seq<Message>) {
    forall i, j :: 0 <= i < j < |messages| && messages[i].role.User? && messages[j].role.User? ==>
      messages[i].id != messages[j].id
  }

  predicate DistinctReceipts(receipts: map<string, Receipt>) {
    forall k1, k2 :: k1 in receipts && k2 in receipts && receipts[k1].message == receipts[k2].message ==> k1 == k2
  }

  /** Receipts and user messages are in one-to-one correspondence. */
  predicate OneMessagePerKey(s: State) {
    && ReceiptsStored(s) && UsersKeyed(s) && DistinctReceipts(s.receipts)
    && forall c :: c in s.conversations ==> DistinctUsers(s.conversations[c].messages)
  }

  predicate Core(s: State) {
    Numbered(s) && Heard(s.delivered, s.log) && Known(s) && OneMessagePerKey(s)
  }

  lemma InOrderGrows(heard: seq<Event>, log: seq<Event>, e: Event)
    requires InOrder(heard, log) && e.sequence == |log| + 1
    ensures InOrder(heard, log + [e]) && InOrder(heard + [e], log + [e])
  {
    forall k | 0 <= k < |heard|
      ensures heard[k] == (log + [e])[heard[k].sequence - 1]
    {}
  }

  lemma DeliverKeepsHeard(s: State, c: Id, e: Event)
    requires c in s.log && e.sequence == |s.log[c]| + 1 && Heard(s.delivered, s.log)
    ensures Heard(Deliver(s, c, e), s.log[c := s.log[c] + [e]])
  {
    forall p | p in Deliver(s, c, e)
      ensures p.1 in s.log && InOrder(Deliver(s, c, e)[p], s.log[c := s.log[c] + [e]][p.1])
    {
      if p.1 == c {
        InOrderGrows(Received(s, p), s.log[c], e);
      }
    }
  }

  lemma LogKeepsNumbered(log: seq<Event>, e: Event)
    requires NumberedLog(log) && e.sequence == |log| + 1
    ensures NumberedLog(log + [e])
  {}

  /** A change that sends nothing and schedules nothing. */
  predicate Quiet(s: State, r: State) {
    && r.conversations.Keys == s.conversations.Keys && r.live == s.live && r.following == s.following
    && r.turns == s.turns && r.log == s.log && r.delivered == s.delivered && r.next >= s.next
    && forall c :: c in s.conversations ==> r.conversations[c].sequence == s.conversations[c].sequence
  }

  lemma QuietKeeps(s: State, r: State)
    requires Core(s) && Quiet(s, r)
    ensures Numbered(r) && Heard(r.delivered, r.log) && Known(r)
  {}

  /** A change that leaves every message alone. */
  predicate SameMessages(s: State, r: State) {
    && r.conversations.Keys == s.conversations.Keys
    && forall c :: c in s.conversations ==> r.conversations[c].messages == s.conversations[c].messages
  }

  lemma SameMessagesKeep(s: State, r: State)
    requires OneMessagePerKey(s) && SameMessages(s, r) && r.receipts == s.receipts && r.next >= s.next
    ensures OneMessagePerKey(r)
  {
    assert ReceiptsStored(r) by {
      forall key | key in r.receipts
        ensures Stored(r.conversations, r.receipts[key])
      {
        assert Stored(s.conversations, s.receipts[key]);
      }
    }
  }

  lemma EmitKeeps(s: State, c: Id, kind: Kind)
    requires Recorded(s, c) && Core(s)
    ensures Core(Emit(s, c, kind))
  {
    var e := Event(s.conversations[c].sequence + 1, kind);
    DeliverKeepsHeard(s, c, e);
    LogKeepsNumbered(s.log[c], e);
    SameMessagesKeep(s, Emit(s, c, kind));
  }

  lemma SettleKeeps(s: State, c: Id, processing: bool, status: Status)
    requires Recorded(s, c) && Core(s)
    ensures Core(Settle(s, c, processing, status))
  {
    QuietKeeps(s, Settle(s, c, processing, status));
    SameMessagesKeep(s, Settle(s, c, processing, status));
  }

  lemma SwitchModelKeeps(s: State, c: Id, model: Option<string>)
    requires Recorded(s, c) && Core(s)
    ensures Core(SwitchModel(s, c, model))
  {
    QuietKeeps(s, SwitchModel(s, c, model));
    SameMessagesKeep(s, SwitchModel(s, c, model));
  }

  lemma PushKeepsStored(s: State, c: Id, m: Message, r: Receipt)
    requires Recorded(s, c) && Stored(s.conversations, r)
    ensures Stored(Push(s, c, m).conversations, r)
  {
    if r.conversation == c {
      var i :| 0 <= i < |s.conversations[c].messages| && s.conversations[c].messages[i] == Message(r.message, User);
      assert (s.conversations[c].messages + [m])[i] == Message(r.message, User);
    }
  }

  lemma PushKeepsUsers(s: State, c: Id, m: Message)
    requires Recorded(s, c) && OneMessagePerKey(s) && !m.role.User?
    ensures UsersKeyed(Push(s, c, m))
    ensures forall d :: d in s.conversations ==> DistinctUsers(Push(s, c, m).conversations[d].messages)
  {
    var r := Push(s, c, m);
    forall d, n | d in r.conversations && n in r.conversations[d].messages && n.role.User?
      ensures n.id < r.next && Keyed(r.receipts, Receipt(d, n.id))
    {
      assert n in s.conversations[d].messages;
    }
  }

  lemma PushKeeps(s: State, c: Id, m: Message)
    requires Recorded(s, c) && Core(s) && !m.role.User?
    ensures Core(Push(s, c, m))
  {
    var r := Push(s, c, m);
    QuietKeeps(s, r);
    PushKeepsUsers(s, c, m);
    forall key | key in r.receipts
      ensures Stored(r.conversations, r.receipts[key])
    {
      PushKeepsStored(s, c, m, s.receipts[key]);
    }
  }

  lemma RecordKeepsKeyed(receipts: map<string, Receipt>, key: string, issued: Receipt, r: Receipt)
    requires key !in receipts && (Keyed(receipts, r) || r == issued)
    ensures Keyed(receipts[key := issued], r)
  {
    if r == issued {
      assert key in receipts[key := issued] && receipts[key := issued][key] == r;
    } else {
      var k :| k in receipts && receipts[k] == r;
      assert k in receipts[key := issued] && receipts[key := issued][k] == r;
    }
  }

  lemma StoreKeepsReceipts(s: State, c: Id, key: string)
    requires Recorded(s, c) && ReceiptsStored(s) && DistinctReceipts(s.receipts) && key !in s.receipts
    ensures ReceiptsStored(Store(s, c, key)) && DistinctReceipts(Store(s, c, key).receipts)
  {
    var r := Store(s, c, key);
    var m := Message(s.next, User);
    forall k | k in r.receipts
      ensures Stored(r.conversations, r.receipts[k]) && r.receipts[k].message < r.next
    {
      if k == key {
        assert r.conversations[c].messages[|s.conversations[c].messages|] == m;
      } else {
        PushKeepsStored(s, c, m, s.receipts[k]);
      }
    }
  }

  lemma StoreKeepsUsers(s: State, c: Id, key: string)
    requires Recorded(s, c) && UsersKeyed(s) && key !in s.receipts
    ensures UsersKeyed(Store(s, c, key))
  {
    var r := Store(s, c, key);
    forall d, n | d in r.conversations && n in r.conversations[d].messages && n.role.User?
      ensures n.id < r.next && Keyed(r.receipts, Receipt(d, n.id))
    {
      if n in s.conversations[d].messages {
        assert Keyed(s.receipts, Receipt(d, n.id));
      }
      RecordKeepsKeyed(s.receipts, key, Receipt(c, s.next), Receipt(d, n.id));
    }
  }

  lemma StoreKeepsDistinct(s: State, c: Id, key: string)
    requires Recorded(s, c) && OneMessagePerKey(s)
    ensures forall d :: d in s.conversations ==> DistinctUsers(Store(s, c, key).conversations[d].messages)
  {
    assert DistinctUsers(s.conversations[c].messages + [Message(s.next, User)]) by {
      assert forall m :: m in s.conversations[c].messages && m.role.User? ==> m.id < s.next;
    }
  }

  lemma StoreKeeps(s: State, c: Id, key: string)
    requires Recorded(s, c) && Core(s) && key !in s.receipts
    ensures Core(Store(s, c, key))
  {
    QuietKeeps(s, Store(s, c, key));
    StoreKeepsReceipts(s, c, key);
    StoreKeepsUsers(s, c, key);
    StoreKeepsDistinct(s, c, key);
  }
}
