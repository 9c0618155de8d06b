/**
 Keyset paging of a conversation's history (web/scripts/mock-server.ts:482-514). A cursor is a decoded
 `created_at:message_id` pair; page sizes are real numbers, as a JSON client may send them.
 */
module HistoryPaging {
  import opened Prelude

  datatype Message = Message(createdAt: int, id: string)

  datatype Cursor = NoCursor | Malformed | At(createdAt: int, id: string)

  datatype Page = Page(items: seq<Message>, hasMore: bool)

  predicate IdLess(a: string, b: string) {
    b != [] && (a == [] || a[0] < b[0] || (a[0] == b[0] && IdLess(a[1..], b[1..])))
  }

  predicate Less(a: Message, b: Message) {
    a.createdAt < b.createdAt || (a.createdAt == b.createdAt && IdLess(a.id, b.id))
  }

  lemma {:induction false} IdLessIsStrictOrder(a: string, b: string, c: string)
    ensures IdLess(a, b) ==> !IdLess(b, a)
    ensures IdLess(a, b) && IdLess(b, c) ==> IdLess(a, c)
  {
    if a != [] && b != [] && c != [] {
      IdLessIsStrictOrder(a[1..], b[1..], c[1..]);
    } else if a != [] && b != [] {
      IdLessIsStrictOrder(a[1..], b[1..], []);
    }
  }

  /** Insert after every message that is not newer. */
  function Insert(sorted: seq<Message>, m: Message): seq<Message> {
    if sorted == [] || sorted[|sorted| - 1].createdAt <= m.createdAt then sorted + [m]
    else Insert(sorted[..|sorted| - 1], m) + [sorted[|sorted| - 1]]
  }

  /** The stable sort by creation time; the message id plays no part in it. */
  function Sort(messages: seq<Message>): seq<Message> {
    if messages == [] then [] else Insert(Sort(messages[..|messages| - 1]), messages[|messages| - 1])
  }

  predicate Chronological(list: seq<Message>) {
    forall i, j :: 0 <= i < j < |list| ==> list[i].createdAt <= list[j].createdAt
  }

  predicate StrictlyIncreasing(list: seq<Message>) {
    forall i, j :: 0 <= i < j < |list| ==> Less(list[i], list[j])
  }

  /** The messages of one instant, in order. */
  function Instant(list: seq<Message>, t: int): seq<Message> {
    if list == [] then []
    else Instant(list[..|list| - 1], t) + if list[|list| - 1].createdAt == t then [list[|list| - 1]] else []
  }

  lemma {:induction false} InsertKeeps(sorted: seq<Message>, m: Message)
    ensures multiset(Insert(sorted, m)) == multiset(sorted) + multiset{m}
  {
    if sorted != [] && sorted[|sorted| - 1].createdAt > m.createdAt {
      InsertKeeps(sorted[..|sorted| - 1], m);
      assert sorted == sorted[..|sorted| - 1] + [sorted[|sorted| - 1]];
    }
  }

  lemma {:induction false} InsertSorts(sorted: seq<Message>, m: Message)
    requires Chronological(sorted)
    ensures Chronological(Insert(sorted, m))
  {
    if sorted != [] && sorted[|sorted| - 1].createdAt > m.createdAt {
      var init, last := sorted[..|sorted| - 1], sorted[|sorted| - 1];
      InsertSorts(init, m);
      InsertKeeps(init, m);
      forall i | 0 <= i < |Insert(init, m)| ensures Insert(init, m)[i].createdAt <= last.createdAt {
        assert Insert(init, m)[i] in multiset(Insert(init, m));
      }
    }
  }

  lemma InstantAppend(list: seq<Message>, m: Message, t: int)
    ensures Instant(list + [m], t) == Instant(list, t) + if m.createdAt == t then [m] else []
  {
    assert (list + [m])[..|list|] == list;
  }

  lemma BothEnds(init: seq<Message>, inserted: seq<Message>, m: Message, last: Message, t: int)
    requires last.createdAt > m.createdAt
    requires Instant(inserted, t) == Instant(init, t) + if m.createdAt == t then [m] else []
    ensures Instant(inserted + [last], t) == Instant(init + [last], t) + if m.createdAt == t then [m] else []
  {
    InstantAppend(inserted, last, t);
    InstantAppend(init, last, t);
    assert Instant(init, t) + [] == Instant(init, t);
  }

  lemma {:induction false} InsertIsStable(sorted: seq<Message>, m: Message, t: int)
    requires Chronological(sorted)
    ensures Instant(Insert(sorted, m), t) == Instant(sorted, t) + if m.createdAt == t then [m] else []
  {
    if sorted == [] || sorted[|sorted| - 1].createdAt <= m.createdAt {
      InstantAppend(sorted, m, t);
    } else {
      var init, last := sorted[..|sorted| - 1], sorted[|sorted| - 1];
      assert sorted == init + [last];
      InsertIsStable(init, m, t);
      BothEnds(init, Insert(init, m), m, last, t);
    }
  }

  lemma {:induction false} SortSorts(messages: seq<Message>)
    ensures Chronological(Sort(messages)) && multiset(Sort(messages)) == multiset(messages)
  {
    if messages != [] {
      var init, last := messages[..|messages| - 1], messages[|messages| - 1];
      SortSorts(init);
      InsertSorts(Sort(init), last);
      InsertKeeps(Sort(init), last);
      assert messages == init + [last];
    }
  }

  lemma InsertKeepsInstant(sorted: seq<Message>, arrived: seq<Message>, m: Message, t: int)
    requires Chronological(sorted) && Instant(sorted, t) == Instant(arrived, t)
    ensures Instant(Insert(sorted, m), t) == Instant(arrived + [m], t)
  {
    InsertIsStable(sorted, m, t);
    InstantAppend(arrived, m, t);
  }

  lemma SortIsChronological(messages: seq<Message>)
    ensures Chronological(Sort(messages))
  {
    SortSorts(messages);
  }

  lemma SortOneMore(init: seq<Message>, last: Message)
    ensures Sort(init + [last]) == Insert(Sort(init), last)
  {
    assert (init + [last])[..|init|] == init;
  }

  lemma {:induction false} SortKeepsInstants(messages: seq<Message>, t: int)
    ensures Instant(Sort(messages), t) == Instant(messages, t)
  {
    if messages != [] {
      var init, last := messages[..|messages| - 1], messages[|messages| - 1];
      assert messages == init + [last];
      SortKeepsInstants(init, t);
      SortIsChronological(init);
      SortOneMore(init, last);
      InsertKeepsInstant(Sort(init), init, last, t);
    }
  }

  /** Sorting keeps the messages, orders them by time, and keeps the arrival order within each instant. */
  lemma SortIsStable(messages: seq<Message>, t: int)
    ensures Chronological(Sort(messages)) && multiset(Sort(messages)) == multiset(messages)
    ensures Instant(Sort(messages), t) == Instant(messages, t)
  {
    SortSorts(messages);
    SortKeepsInstants(messages, t);
  }

  function Earlier(list: seq<Message>, c: Cursor): seq<Message>
    requires c.At?
  {
    if list == [] then []
    else
      var m := list[|list| - 1];
      Earlier(list[..|list| - 1], c) + if Less(m, Message(c.createdAt, c.id)) then [m] else []
  }

  /** The newest `size` entries: the start index may be fractional and is cut down to slice. */
  function Window(list: seq<Message>, size: real): Page
    requires size > 0.0
  {
    var start := if |list| as real > size then |list| as real - size else 0.0;
    Page(list[start.Floor..], start > 0.0)
  }

  function ConversationMessages(messages: seq<Message>, pageSize: Option<real>, cursor: Cursor): Page {
    var size := if pageSize.Some? && pageSize.value > 0.0 then pageSize.value else 60.0;
    match cursor
    case NoCursor => Window(Sort(messages), size)
    case At(_, _) => Window(Earlier(Sort(messages), cursor), size)
    case Malformed => Page([], false)
  }

  /** `has_more` tells the truth exactly when the page size does not cut a message in two. */
  lemma HasMoreIsTrueExactly(list: seq<Message>, size: real)
    requires size > 0.0
    ensures (Window(list, size).hasMore <==> |Window(list, size).items| < |list|)
       <==> !(0.0 < |list| as real - size < 1.0)
  {
  }

  /** The window for a whole page size. */
  function LastOf(list: seq<Message>, size: nat): Page {
    if |list| > size then Page(list[|list| - size..], true) else Page(list, false)
  }

  lemma WholeWindow(list: seq<Message>, size: nat)
    requires size > 0
    ensures Window(list, size as real) == LastOf(list, size)
  {
    if |list| > size {
      assert |list| as real - size as real == (|list| - size) as real;
    }
  }

  // ----- a client that pages back -----

  function CursorOf(m: Message): Cursor {
    At(m.createdAt, m.id)
  }

  datatype Trace = Trace(received: seq<Message>, requests: nat, more: bool)

  /** Ask for a page, put it in front of what is there, and go on from its oldest message; `serve` answers requests. */
  function PageBack(serve: (nat, Cursor) -> Page, request: nat, cursor: Cursor, fuel: nat): Trace
    decreases fuel
  {
    var page := serve(request, cursor);
    if !page.hasMore || page.items == [] || fuel == 0 then Trace(page.items, 1, page.hasMore)
    else
      var rest := PageBack(serve, request + 1, CursorOf(page.items[0]), fuel - 1);
      Trace(rest.received + page.items, rest.requests + 1, rest.more)
  }

  /** The mock server when request k finds the history `history(k)`. */
  function Server(history: nat -> seq<Message>, size: nat): (nat, Cursor) -> Page {
    (k: nat, c: Cursor) => ConversationMessages(history(k), Some(size as real), c)
  }

  lemma {:induction false} EarlierIsPrefix(list: seq<Message>, k: nat, n: nat)
    requires StrictlyIncreasing(list) && k < |list| && n <= |list|
    ensures Earlier(list[..n], CursorOf(list[k])) == if n <= k then list[..n] else list[..k]
  {
    if n > 0 {
      EarlierIsPrefix(list, k, n - 1);
      assert list[..n][..n - 1] == list[..n - 1];
      IdLessIsStrictOrder(list[k].id, list[n - 1].id, []);
      if n <= k {
        assert list[..n] == list[..n - 1] + [list[n - 1]];
      }
    }
  }

  /** How many pages of a given size hold `n` messages; an empty history still takes one request. */
  function Pages(n: nat, size: nat): nat
    requires size > 0
  {
    if n <= size then 1 else 1 + Pages(n - size, size)
  }

  /** It is the least number, and at least one, of pages that hold them all. */
  lemma {:induction false} PagesIsLeast(n: nat, size: nat)
    requires size > 0
    ensures Pages(n, size) >= 1 && n <= Pages(n, size) * size
    ensures n > 0 ==> (Pages(n, size) - 1) * size < n
    decreases n
  {
    if n > size {
      PagesIsLeast(n - size, size);
      var p := Pages(n - size, size);
      assert (p + 1) * size == p * size + size;
      assert (p - 1) * size == p * size - size;
    }
  }

  /** Every message of the snapshot, as a cursor, is answered with the page before it. */
  ghost predicate AnswersExactly(serve: (nat, Cursor) -> Page, snapshot: seq<Message>, size: nat) {
    forall r: nat, j: nat :: j < |snapshot| ==> serve(r, CursorOf(snapshot[j])) == LastOf(snapshot[..j], size)
  }

  /** From any request answered with the page before message k on, exactly the messages before it arrive. */
  lemma {:induction false} PagesFrom(serve: (nat, Cursor) -> Page, snapshot: seq<Message>, size: nat, request: nat,
                                     cursor: Cursor, k: nat, fuel: nat)
    requires size > 0 && AnswersExactly(serve, snapshot, size) && k <= |snapshot| && fuel >= k
    requires serve(request, cursor) == LastOf(snapshot[..k], size)
    ensures PageBack(serve, request, cursor, fuel) == Trace(snapshot[..k], Pages(k, size), false)
    decreases fuel
  {
    if k > size {
      assert snapshot[..k][k - size..][0] == snapshot[k - size];
      PagesFrom(serve, snapshot, size, request + 1, CursorOf(snapshot[k - size]), k - size, fuel - 1);
      assert snapshot[..k - size] + snapshot[..k][k - size..] == snapshot[..k];
    }
  }

  /** The history at each request: the first snapshot, followed by whatever arrived since. */
  ghost predicate Grows(history: nat -> seq<Message>, snapshot: seq<Message>) {
    forall k :: StrictlyIncreasing(Sort(history(k))) && snapshot <= Sort(history(k))
  }

  lemma ServerAnswersExactly(history: nat -> seq<Message>, snapshot: seq<Message>, size: nat)
    requires size > 0 && Grows(history, snapshot)
    ensures AnswersExactly(Server(history, size), snapshot, size)
  {
    forall r: nat, j: nat | j < |snapshot|
      ensures Server(history, size)(r, CursorOf(snapshot[j])) == LastOf(snapshot[..j], size)
    {
      var all := Sort(history(r));
      assert StrictlyIncreasing(all) && snapshot <= all;
      assert all[j] == snapshot[j] && all[..j] == snapshot[..j];
      EarlierIsPrefix(all, j, |all|);
      assert all[..|all|] == all;
      WholeWindow(snapshot[..j], size);
    }
  }

  /**
   Paging back from no cursor returns every message of the first snapshot exactly once and in order, in the
   least number of requests, whatever newer messages arrive in between.
   */
  lemma PagingReturnsEverything(history: nat -> seq<Message>, size: nat, fuel: nat)
    requires size > 0 && Grows(history, Sort(history(0))) && fuel >= |history(0)|
    ensures PageBack(Server(history, size), 0, NoCursor, fuel)
         == Trace(Sort(history(0)), Pages(|history(0)|, size), false)
  {
    var snapshot := Sort(history(0));
    SortIsStable(history(0), 0);
    assert |multiset(snapshot)| == |multiset(history(0))|;
    ServerAnswersExactly(history, snapshot, size);
    WholeWindow(snapshot, size);
    assert snapshot[..|snapshot|] == snapshot;
    PagesFrom(Server(history, size), snapshot, size, 0, NoCursor, |snapshot|, fuel);
  }

  /** A missing page size, or one that is not positive, stands for sixty; a malformed cursor gets an empty last page. */
  lemma PageDefaults(messages: seq<Message>, pageSize: Option<real>, cursor: Cursor)
    ensures pageSize.None? || pageSize.value <= 0.0 ==>
      ConversationMessages(messages, pageSize, cursor) == ConversationMessages(messages, Some(60 as real), cursor)
    ensures cursor.Malformed? ==> ConversationMessages(messages, pageSize, cursor) == Page([], false)
  {
  }

  /** The server as a client sees it that asks for no page size, or not for a positive one. */
  function DefaultServer(history: nat -> seq<Message>, pageSize: Option<real>): (nat, Cursor) -> Page {
    (k: nat, c: Cursor) => ConversationMessages(history(k), pageSize, c)
  }

  /** Paging back without a page size returns everything all the same, by sixty. */
  lemma DefaultPagingReturnsEverything(history: nat -> seq<Message>, pageSize: Option<real>, fuel: nat)
    requires pageSize.None? || pageSize.value <= 0.0
    requires Grows(history, Sort(history(0))) && fuel >= |history(0)|
    ensures PageBack(DefaultServer(history, pageSize), 0, NoCursor, fuel)
         == Trace(Sort(history(0)), Pages(|history(0)|, 60), false)
  {
    var snapshot, serve := Sort(history(0)), DefaultServer(history, pageSize);
    SortIsStable(history(0), 0);
    assert |multiset(snapshot)| == |multiset(history(0))|;
    ServerAnswersExactly(history, snapshot, 60);
    forall r: nat, j: nat | j < |snapshot| ensures serve(r, CursorOf(snapshot[j])) == LastOf(snapshot[..j], 60) {
      PageDefaults(history(r), pageSize, CursorOf(snapshot[j]));
      assert Server(history, 60)(r, CursorOf(snapshot[j])) == LastOf(snapshot[..j], 60);
    }
    PageDefaults(history(0), pageSize, NoCursor);
    WholeWindow(snapshot, 60);
    assert snapshot[..|snapshot|] == snapshot;
    PagesFrom(serve, snapshot, 60, 0, NoCursor, |snapshot|, fuel);
  }

  // ----- and only then -----

  lemma {:induction false} EarlierAreLess(list: seq<Message>, c: Message)
    ensures forall k :: 0 <= k < |Earlier(list, CursorOf(c))| ==> Less(Earlier(list, CursorOf(c))[k], c)
  {
    if list != [] {
      EarlierAreLess(list[..|list| - 1], c);
    }
  }

  predicate Ascending(list: seq<Message>) {
    forall k :: 0 < k < |list| ==> Less(list[k - 1], list[k])
  }

  /** Pages of at most one message, older than the cursor. */
  ghost predicate AnswersOlder(serve: (nat, Cursor) -> Page) {
    && (forall r: nat, c :: |serve(r, c).items| <= 1)
    && (forall r: nat, m :: serve(r, CursorOf(m)).items != [] ==> Less(serve(r, CursorOf(m)).items[0], m))
  }

  /** Such pages ascend strictly, whatever the history looks like. */
  lemma {:induction false} SinglePagesAscend(serve: (nat, Cursor) -> Page, request: nat, cursor: Cursor, fuel: nat)
    requires AnswersOlder(serve)
    ensures
      var r := PageBack(serve, request, cursor, fuel).received;
      && Ascending(r)
      && (r != [] && cursor.At? ==> Less(r[|r| - 1], Message(cursor.createdAt, cursor.id)))
    decreases fuel
  {
    var page := serve(request, cursor);
    if cursor.At? {
      assert cursor == CursorOf(Message(cursor.createdAt, cursor.id));
    }
    if page.hasMore && page.items != [] && fuel > 0 {
      SinglePagesAscend(serve, request + 1, CursorOf(page.items[0]), fuel - 1);
    }
  }

  lemma SinglePageIsSmall(messages: seq<Message>, c: Cursor)
    ensures |ConversationMessages(messages, Some(1 as real), c).items| <= 1
  {
    WholeWindow(Sort(messages), 1);
    if c.At? { WholeWindow(Earlier(Sort(messages), c), 1); }
  }

  lemma SinglePageIsOlder(messages: seq<Message>, m: Message)
    ensures
      var items := ConversationMessages(messages, Some(1 as real), CursorOf(m)).items;
      items != [] ==> Less(items[0], m)
  {
    EarlierAreLess(Sort(messages), m);
    WholeWindow(Earlier(Sort(messages), CursorOf(m)), 1);
  }

  lemma SingleServerAnswersOlder(messages: seq<Message>)
    ensures AnswersOlder(Server(_ => messages, 1))
  {
    var serve := Server(_ => messages, 1);
    forall r: nat, c ensures |serve(r, c).items| <= 1 {
      SinglePageIsSmall(messages, c);
    }
    forall r: nat, m | serve(r, CursorOf(m)).items != [] ensures Less(serve(r, CursorOf(m)).items[0], m) {
      SinglePageIsOlder(messages, m);
    }
  }

  lemma {:induction false} AscendingIsStrict(list: seq<Message>, i: nat, j: nat)
    requires Ascending(list) && i < j < |list|
    ensures Less(list[i], list[j])
  {
    if i + 1 < j {
      AscendingIsStrict(list, i, j - 1);
      IdLessIsStrictOrder(list[i].id, list[j - 1].id, list[j].id);
      assert Less(list[j - 1], list[j]);
    }
  }

  /** Paging back with this page size returns the whole history in order. */
  predicate PagesCompletely(messages: seq<Message>, size: nat) {
    PageBack(Server(_ => messages, size), 0, NoCursor, |messages|).received == Sort(messages)
  }

  /**
   A history can be paged completely with every page size exactly when its time order is strictly increasing
   by time and id: the sort ignores the id that the cursor relies on.
   */
  lemma PagingIsCompleteExactly(messages: seq<Message>)
    ensures (forall size :: size > 0 ==> PagesCompletely(messages, size)) <==> StrictlyIncreasing(Sort(messages))
  {
    if StrictlyIncreasing(Sort(messages)) {
      forall size: nat | size > 0 ensures PagesCompletely(messages, size) {
        PagingReturnsEverything(_ => messages, size, |messages|);
      }
    }
    if PagesCompletely(messages, 1) {
      SingleServerAnswersOlder(messages);
      SinglePagesAscend(Server(_ => messages, 1), 0, NoCursor, |messages|);
      forall i, j | 0 <= i < j < |Sort(messages)| ensures Less(Sort(messages)[i], Sort(messages)[j]) {
        AscendingIsStrict(Sort(messages), i, j);
      }
    }
  }
}
