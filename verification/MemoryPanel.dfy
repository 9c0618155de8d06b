/**
 The session behind the memory-panel window (apps/desktop/src/memory_panel_window.rs:34-125) as an object.
 */
module MemoryPanelSession {
  import opened Prelude

  const MAX_PANEL_DIMENSION := 4096

  type Id = string
  type Owner = string

  datatype Rect = Rect(x: int, y: int, width: nat, height: nat)

  predicate ValidRect(r: Rect) {
    0 < r.width <= MAX_PANEL_DIMENSION && 0 < r.height <= MAX_PANEL_DIMENSION
  }

  predicate Blank(id: Id) {
    forall c :: c in id ==> c in {' ', '\t', '\n', '\r'}
  }

  datatype Session = NoSession | Session(request: Id, owner: Owner, rect: Rect)

  function Place(s: Session, request: Id, owner: Owner, ownerOk: bool, rect: Rect): (Session, bool) {
    if Blank(request) || !ownerOk || !ValidRect(rect) then (s, false) else (Session(request, owner, rect), true)
  }

  predicate Current(s: Session, request: Id, owner: Owner) {
    s.Session? && s.request == request && s.owner == owner
  }

  function FinishHide(s: Session, request: Id): (Session, bool) {
    if s.Session? && s.request == request then (NoSession, true) else (s, false)
  }

  function InvalidateOwnerUnless(s: Session, enabled: set<Owner>): (Session, bool) {
    if s.Session? && s.owner !in enabled then (NoSession, true) else (s, false)
  }

  class MemoryPanelWindowState {
    var requestId: Option<Id>
    var ownerCompanionId: Option<Owner>
    var rect: Option<Rect>

    /** The three fields are set and cleared together. */
    predicate Valid()
      reads this
    {
      (requestId.Some? <==> ownerCompanionId.Some?) && (requestId.Some? <==> rect.Some?)
    }

    function Value(): Session
      requires Valid()
      reads this
    {
      if requestId.Some? then Session(requestId.value, ownerCompanionId.value, rect.value) else NoSession
    }

    constructor ()
      ensures Valid() && Value() == NoSession
    {
      requestId, ownerCompanionId, rect := None, None, None;
    }

    method PlaceAt(request: Id, owner: Owner, ownerOk: bool, at: Rect) returns (ok: bool)
      requires Valid()
      modifies this
      ensures Valid() && (Value(), ok) == Place(old(Value()), request, owner, ownerOk, at)
      ensures ok <==> !Blank(request) && ownerOk && 0 < at.width <= 4096 && 0 < at.height <= 4096
      ensures Value() == if ok then Session(request, owner, at) else old(Value())
    {
      if Blank(request) || !ownerOk || !ValidRect(at) {
        return false;
      }
      requestId, ownerCompanionId, rect := Some(request), Some(owner), Some(at);
      return true;
    }

    method CanShow(request: Id, owner: Owner) returns (r: bool)
      requires Valid()
      ensures r <==> Current(Value(), request, owner)
      ensures r <==> exists at :: Value() == Session(request, owner, at)
    {
      r := requestId == Some(request) && ownerCompanionId == Some(owner) && rect.Some?;
    }

    method Hide(request: Id) returns (hidden: bool)
      requires Valid()
      modifies this
      ensures Valid() && (Value(), hidden) == FinishHide(old(Value()), request)
      ensures hidden <==> old(Value()).Session? && old(Value()).request == request
      ensures Value() == if hidden then NoSession else old(Value())
    {
      if requestId != Some(request) {
        return false;
      }
      requestId, ownerCompanionId, rect := None, None, None;
      return true;
    }

    method Invalidate(enabled: set<Owner>) returns (invalid: bool)
      requires Valid()
      modifies this
      ensures Valid() && (Value(), invalid) == InvalidateOwnerUnless(old(Value()), enabled)
      ensures Value().Session? ==> Value() == old(Value()) && Value().owner in enabled
      ensures old(Value()).Session? && old(Value()).owner in enabled ==> Value() == old(Value())
      ensures invalid <==> old(Value()) != Value()
    {
      invalid := ownerCompanionId.Some? && ownerCompanionId.value !in enabled;
      if invalid {
        requestId, ownerCompanionId, rect := None, None, None;
      }
    }
  }
}

/**
 The place, show, hide and companion-sync commands as tasks that meet on the main thread in any order
 (apps/desktop/src/memory_panel_window.rs:127-211, apps/desktop/src/main.rs:1146-1157, 2837-2882).
 `shown` is the request the visible window was last shown for.
 */
module MemoryPanel {
  import opened Prelude
  import opened MemoryPanelSession

  type Tid = nat

  datatype Task =
    | PlaceQueued(request: Id, owner: Owner, rect: Rect)
    | PlaceFailed(request: Id)
    | ShowQueued(request: Id, owner: Owner)
    | HideQueued

  /** What the rest of the system must not do, or the native layer must not fail at. */
  datatype Lapse = ReusedRequest | EarlyShow | PlaceNotDispatched | HideNotDispatched | HideRefused

  datatype State = State(
    session: Session,
    prepared: bool,
    shown: Option<Id>,
    tasks: map<Tid, Task>,
    used: set<Id>,
    placed: set<Id>,
    lapses: set<Lapse>)

  const INITIAL := State(NoSession, false, None, map[], {}, {}, {})

  datatype Action =
    | Prepare
    | PlaceCommand(t: Tid, request: Id, owner: Owner, ownerOk: bool, rect: Rect, dispatched: bool)
    | PlaceTask(t: Tid, hides: bool, moves: bool)
    | PlaceFollowUp(t: Tid)
    | ShowCommand(t: Tid, request: Id, owner: Owner, dispatched: bool)
    | ShowTask(t: Tid, shows: bool)
    | HideCommand(t: Tid, request: Id, dispatched: bool)
    | SyncCommand(t: Tid, enabled: set<Owner>, dispatched: bool)
    | HideTask(t: Tid, hides: bool)

  function Lapsed(s: State, happened: bool, l: Lapse): State {
    if happened then s.(lapses := s.lapses + {l}) else s
  }

  function Place1(s: State, a: Action): State
    requires a.PlaceCommand?
  {
    var (session, ok) := Place(s.session, a.request, a.owner, a.ownerOk, a.rect);
    if !ok || a.t in s.tasks then s
    else
      var task := if a.dispatched then PlaceQueued(a.request, a.owner, a.rect) else PlaceFailed(a.request);
      var s1 := Lapsed(Lapsed(s, a.request in s.used, ReusedRequest), !a.dispatched, PlaceNotDispatched);
      s1.(session := session, tasks := s.tasks[a.t := task], used := s.used + {a.request})
  }

  /** Hide, resize and move, unless a newer request has taken over; a failed hide is ignored. */
  function Place2(s: State, t: Tid, hides: bool, moves: bool): State
    requires t in s.tasks && s.tasks[t].PlaceQueued?
  {
    var task := s.tasks[t];
    if !Current(s.session, task.request, task.owner) then
      s.(tasks := s.tasks - {t}, placed := s.placed + {task.request})
    else if !s.prepared then s.(tasks := s.tasks[t := PlaceFailed(task.request)])
    else
      var s1 := Lapsed(s, !hides, HideRefused).(shown := if hides then None else s.shown);
      if moves then s1.(tasks := s.tasks - {t}, placed := s.placed + {task.request})
      else s1.(tasks := s.tasks[t := PlaceFailed(task.request)])
  }

  function Hide1(s: State, t: Tid, session: Session, hidden: bool, dispatched: bool): State {
    if !hidden || t in s.tasks then s
    else if dispatched then s.(session := session, tasks := s.tasks[t := HideQueued])
    else Lapsed(s, true, HideNotDispatched).(session := session)
  }

  function Step(s: State, a: Action): State {
    match a
    case Prepare => s.(prepared := true)
    case PlaceCommand(_, _, _, _, _, _) => Place1(s, a)
    case PlaceTask(t, hides, moves) =>
      if t in s.tasks && s.tasks[t].PlaceQueued? then Place2(s, t, hides, moves) else s
    case PlaceFollowUp(t) =>
      if t in s.tasks && s.tasks[t].PlaceFailed? then
        s.(session := FinishHide(s.session, s.tasks[t].request).0, tasks := s.tasks - {t})
      else s
    case ShowCommand(t, request, owner, dispatched) =>
      if t in s.tasks || !Current(s.session, request, owner) then s
      else
        var s1 := Lapsed(s, request !in s.placed, EarlyShow);
        if dispatched then s1.(tasks := s.tasks[t := ShowQueued(request, owner)]) else s1
    case ShowTask(t, shows) =>
      if t in s.tasks && s.tasks[t].ShowQueued? then
        var runs := shows && s.prepared && Current(s.session, s.tasks[t].request, s.tasks[t].owner);
        s.(shown := if runs then Some(s.tasks[t].request) else s.shown, tasks := s.tasks - {t})
      else s
    case HideCommand(t, request, dispatched) =>
      var (session, hidden) := FinishHide(s.session, request);
      Hide1(s, t, session, hidden, dispatched)
    case SyncCommand(t, enabled, dispatched) =>
      var (session, invalid) := InvalidateOwnerUnless(s.session, enabled);
      Hide1(s, t, session, invalid, dispatched)
    case HideTask(t, hides) =>
      if t in s.tasks && s.tasks[t].HideQueued? then
        var runs := s.session.NoSession? && s.prepared;
        Lapsed(s, runs && !hides, HideRefused).(
          shown := if runs && hides then None else s.shown, tasks := s.tasks - {t})
      else s
  }

  function Exec(run: seq<Action>): State {
    if run == [] then INITIAL else Step(Exec(run[..|run| - 1]), run[|run| - 1])
  }

  /** The window shows the current request, or a task that will take it down is pending. */
  ghost predicate Safe(s: State) {
    s.shown.Some? ==>
      match s.session
      case NoSession => exists t :: t in s.tasks && s.tasks[t].HideQueued?
      case Session(r, _, _) =>
        s.shown.value == r || exists t :: t in s.tasks && s.tasks[t].PlaceQueued? && s.tasks[t].request == r
  }

  ghost predicate Inv(s: State) {
    && Safe(s)
    && (s.session.Session? ==> s.session.request in s.used)
    && s.placed <= s.used
    && (s.shown.Some? ==> s.shown.value in s.placed && s.prepared)
    && (forall t :: t in s.tasks ==> TaskInv(s, s.tasks[t]))
    && (forall t, u :: t in s.tasks && u in s.tasks && t != u && Placing(s.tasks[t]) && Placing(s.tasks[u])
                       ==> s.tasks[t].request != s.tasks[u].request)
  }

  predicate Placing(task: Task) {
    task.PlaceQueued? || task.PlaceFailed?
  }

  predicate TaskInv(s: State, task: Task) {
    && (Placing(task) ==> task.request in s.used && task.request !in s.placed)
    && (task.PlaceQueued? && s.session.Session? && s.session.request == task.request
        ==> s.session == Session(task.request, task.owner, task.rect))
    && (task.PlaceFailed? && s.session.Session? && s.session.request == task.request ==> s.shown.None?)
    && (task.ShowQueued? ==> task.request in s.placed)
  }

  lemma Place1Keeps(s: State, a: Action)
    requires Inv(s) && a.PlaceCommand? && Place1(s, a).lapses == {}
    ensures Inv(Place1(s, a))
  {
    var s' := Place1(s, a);
    if s' != s {
      assert PlaceNotDispatched !in s'.lapses && ReusedRequest !in s'.lapses;
      assert s'.tasks[a.t] == PlaceQueued(a.request, a.owner, a.rect);
    }
  }

  lemma Place2Keeps(s: State, t: Tid, hides: bool, moves: bool)
    requires Inv(s) && t in s.tasks && s.tasks[t].PlaceQueued?
    requires Place2(s, t, hides, moves).lapses == {}
    ensures Inv(Place2(s, t, hides, moves))
  {
    var s' := Place2(s, t, hides, moves);
    var r := s.tasks[t].request;
    assert TaskInv(s, s.tasks[t]);
    assert HideRefused !in s'.lapses;
    forall u | u in s'.tasks ensures TaskInv(s', s'.tasks[u]) {
      assert TaskInv(s, s.tasks[u]);
    }
    if s.shown.Some? && s'.shown.Some? && s.session.Session? && s.shown.value != s.session.request {
      var u :| u in s.tasks && s.tasks[u].PlaceQueued? && s.tasks[u].request == s.session.request;
      assert u != t ==> u in s'.tasks && s'.tasks[u] == s.tasks[u];
    }
    if s.shown.Some? && s'.shown.Some? && s.session.NoSession? {
      var u :| u in s.tasks && s.tasks[u].HideQueued?;
      assert u in s'.tasks && s'.tasks[u] == s.tasks[u];
    }
  }

  lemma Hide1Keeps(s: State, t: Tid, dispatched: bool)
    requires Inv(s)
    requires Hide1(s, t, NoSession, true, dispatched).lapses == {}
    ensures Inv(Hide1(s, t, NoSession, true, dispatched))
  {
    var s' := Hide1(s, t, NoSession, true, dispatched);
    if t !in s.tasks {
      assert HideNotDispatched !in s'.lapses;
      assert s'.tasks[t].HideQueued?;
      forall u | u in s'.tasks ensures TaskInv(s', s'.tasks[u]) {
        if u != t { assert TaskInv(s, s.tasks[u]); }
      }
    }
  }

  lemma RemovalKeeps(s: State, t: Tid, s': State)
    requires Inv(s) && t in s.tasks && s' == s.(tasks := s.tasks - {t})
    requires s.tasks[t].ShowQueued? || (s.tasks[t].HideQueued? && (s.session.Session? || s.shown.None?))
          || (s.tasks[t].PlaceFailed?)
    ensures Inv(s')
  {
    forall u | u in s'.tasks ensures TaskInv(s', s'.tasks[u]) { assert TaskInv(s, s.tasks[u]); }
    if s.shown.Some? && s.session.Session? && s.shown.value != s.session.request {
      var u :| u in s.tasks && s.tasks[u].PlaceQueued? && s.tasks[u].request == s.session.request;
      assert u in s'.tasks;
    }
    if s.shown.Some? && s.session.NoSession? {
      var u :| u in s.tasks && s.tasks[u].HideQueued?;
      assert u in s'.tasks;
    }
  }

  lemma FollowUpKeeps(s: State, t: Tid)
    requires Inv(s) && t in s.tasks && s.tasks[t].PlaceFailed?
    ensures Inv(Step(s, PlaceFollowUp(t)))
  {
    assert TaskInv(s, s.tasks[t]);
    var s1 := s.(session := FinishHide(s.session, s.tasks[t].request).0);
    forall u | u in s1.tasks ensures TaskInv(s1, s1.tasks[u]) { assert TaskInv(s, s.tasks[u]); }
    RemovalKeeps(s1, t, Step(s, PlaceFollowUp(t)));
  }

  lemma ShowTaskKeeps(s: State, t: Tid, shows: bool)
    requires Inv(s) && t in s.tasks && s.tasks[t].ShowQueued?
    ensures Inv(Step(s, ShowTask(t, shows)))
  {
    assert TaskInv(s, s.tasks[t]);
    var s' := Step(s, ShowTask(t, shows));
    var s1 := s.(shown := s'.shown);
    forall u | u in s1.tasks ensures TaskInv(s1, s1.tasks[u]) { assert TaskInv(s, s.tasks[u]); }
    RemovalKeeps(s1, t, s');
  }

  lemma HideTaskKeeps(s: State, t: Tid, hides: bool)
    requires Inv(s) && t in s.tasks && s.tasks[t].HideQueued?
    requires Step(s, HideTask(t, hides)).lapses == {}
    ensures Inv(Step(s, HideTask(t, hides)))
  {
    var s' := Step(s, HideTask(t, hides));
    assert HideRefused !in s'.lapses;
    var s1 := s.(shown := s'.shown);
    forall u | u in s1.tasks ensures TaskInv(s1, s1.tasks[u]) { assert TaskInv(s, s.tasks[u]); }
    assert s'.lapses == s.lapses;
    RemovalKeeps(s1, t, s');
  }

  lemma ShowCommandKeeps(s: State, a: Action)
    requires Inv(s) && a.ShowCommand? && Step(s, a).lapses == {}
    ensures Inv(Step(s, a))
  {
    var s' := Step(s, a);
    if s' != s {
      assert EarlyShow !in s'.lapses;
      forall u | u in s'.tasks ensures TaskInv(s', s'.tasks[u]) {
        if u != a.t { assert TaskInv(s, s.tasks[u]); }
      }
    }
  }

  lemma LapsesGrow(s: State, a: Action)
    ensures s.lapses <= Step(s, a).lapses
  {
  }

  lemma StepKeeps(s: State, a: Action)
    requires Inv(s) && Step(s, a).lapses == {}
    ensures Inv(Step(s, a))
  {
    match a {
      case Prepare => forall u | u in s.tasks ensures TaskInv(Step(s, a), s.tasks[u]) { assert TaskInv(s, s.tasks[u]); }
      case PlaceCommand(_, _, _, _, _, _) => Place1Keeps(s, a);
      case PlaceTask(t, hides, moves) => if t in s.tasks && s.tasks[t].PlaceQueued? { Place2Keeps(s, t, hides, moves); }
      case PlaceFollowUp(t) => if t in s.tasks && s.tasks[t].PlaceFailed? { FollowUpKeeps(s, t); }
      case ShowCommand(_, _, _, _) => ShowCommandKeeps(s, a);
      case ShowTask(t, shows) => if t in s.tasks && s.tasks[t].ShowQueued? { ShowTaskKeeps(s, t, shows); }
      case HideCommand(t, request, dispatched) =>
        if FinishHide(s.session, request).1 { Hide1Keeps(s, t, dispatched); }
      case SyncCommand(t, enabled, dispatched) =>
        if InvalidateOwnerUnless(s.session, enabled).1 { Hide1Keeps(s, t, dispatched); }
      case HideTask(t, hides) => if t in s.tasks && s.tasks[t].HideQueued? { HideTaskKeeps(s, t, hides); }
    }
  }

  lemma {:induction false} ExecKeeps(run: seq<Action>)
    requires Exec(run).lapses == {}
    ensures Inv(Exec(run))
  {
    if run != [] {
      LapsesGrow(Exec(run[..|run| - 1]), run[|run| - 1]);
      ExecKeeps(run[..|run| - 1]);
      StepKeeps(Exec(run[..|run| - 1]), run[|run| - 1]);
    }
  }

  /**
   Under every interleaving of any number of commands without a lapse, the visible panel belongs to the
   current request or is about to be taken down; with nothing pending it belongs to the current request.
   */
  lemma PanelIsSafe(run: seq<Action>)
    requires Exec(run).lapses == {}
    ensures Safe(Exec(run))
    ensures
      var s := Exec(run);
      s.tasks == map[] && s.shown.Some? ==> s.session.Session? && s.session.request == s.shown.value
  {
    ExecKeeps(run);
  }

  // ----- what a sync of the enabled companions takes down -----

  /** A sync ends the session exactly when its owner is not enabled, and then has the window hidden. */
  lemma SyncEndsDisabled(s: State, t: Tid, enabled: set<Owner>, dispatched: bool)
    requires t !in s.tasks
    ensures
      var s' := Step(s, SyncCommand(t, enabled, dispatched));
      && (s'.session.Session? ==> s' == s && s.session.owner in enabled)
      && (s.session.Session? && s.session.owner in enabled ==> s' == s)
      && (s.session.Session? && s.session.owner !in enabled ==>
            if dispatched then t in s'.tasks && s'.tasks[t].HideQueued? else HideNotDispatched in s'.lapses)
  {
  }

  predicate Places(a: Action, session: Session)
    requires session.Session?
  {
    a.PlaceCommand? && a.ownerOk && a.request == session.request && a.owner == session.owner && a.rect == session.rect
  }

  /** The session after a sync is of an enabled owner, or was placed by one of the commands that followed. */
  ghost predicate EnabledOrPlaced(session: Session, enabled: set<Owner>, later: seq<Action>) {
    session.Session? ==> session.owner in enabled || exists k :: 0 <= k < |later| && Places(later[k], session)
  }

  lemma SessionComesFrom(s: State, a: Action)
    ensures
      var session := Step(s, a).session;
      session == s.session || session.NoSession? || Places(a, session)
  {
  }

  lemma {:induction false} OwnersAfterSync(before: seq<Action>, sync: Action, later: seq<Action>)
    requires sync.SyncCommand? && sync.t !in Exec(before).tasks
    ensures EnabledOrPlaced(Exec(before + [sync] + later).session, sync.enabled, later)
  {
    var run := before + [sync] + later;
    if later == [] {
      assert run[..|run| - 1] == before && run[|run| - 1] == sync;
      SyncEndsDisabled(Exec(before), sync.t, sync.enabled, sync.dispatched);
    } else {
      var init, a := later[..|later| - 1], later[|later| - 1];
      OwnersAfterSync(before, sync, init);
      assert run[..|run| - 1] == before + [sync] + init && run[|run| - 1] == a;
      SessionComesFrom(Exec(before + [sync] + init), a);
      var session := Exec(run).session;
      if session.Session? && session.owner !in sync.enabled {
        if k :| 0 <= k < |init| && Places(init[k], session) {
          assert Places(later[k], session);
        } else {
          assert Places(later[|later| - 1], session);
        }
      }
    }
  }

  /**
   Once nothing is pending after a sync, in a run without a lapse, the visible panel is of an owner that the sync left
   enabled, or one that a later command placed.
   */
  lemma NoPanelOfDisabledOwner(before: seq<Action>, sync: Action, later: seq<Action>)
    requires sync.SyncCommand? && sync.t !in Exec(before).tasks
    requires Exec(before + [sync] + later).lapses == {} && Exec(before + [sync] + later).tasks == map[]
    ensures
      var s := Exec(before + [sync] + later);
      s.shown.Some? ==>
        && s.session.Session? && s.session.request == s.shown.value
        && EnabledOrPlaced(s.session, sync.enabled, later)
  {
    PanelIsSafe(before + [sync] + later);
    OwnersAfterSync(before, sync, later);
  }

  // ----- how long a panel stays -----

  /** The step ends the session: a hide or a failed place of its own request, or a sync without its owner. */
  predicate Ends(s: State, a: Action)
    requires s.session.Session?
  {
    match a
    case PlaceFollowUp(t) => t in s.tasks && s.tasks[t].PlaceFailed? && s.tasks[t].request == s.session.request
    case HideCommand(t, request, _) => t !in s.tasks && request == s.session.request
    case SyncCommand(t, enabled, _) => t !in s.tasks && s.session.owner !in enabled
    case _ => false
  }

  /** The step puts another session in its place. */
  predicate Replaces(s: State, a: Action) {
    && a.PlaceCommand? && a.t !in s.tasks && !Blank(a.request) && a.ownerOk && ValidRect(a.rect)
    && s.session != Session(a.request, a.owner, a.rect)
  }

  /** A session is left exactly so. */
  lemma SessionEndsExactly(s: State, a: Action)
    requires s.session.Session?
    ensures Step(s, a).session.NoSession? <==> Ends(s, a)
    ensures Step(s, a).session != s.session <==> Ends(s, a) || Replaces(s, a)
  {
  }

  /** The step takes the window down: a hide without a session, or the current place before it moves the window. */
  predicate TakesDown(s: State, a: Action) {
    && s.prepared && (a.HideTask? || a.PlaceTask?) && a.hides && a.t in s.tasks
    && (a.HideTask? ==> s.tasks[a.t].HideQueued? && s.session.NoSession?)
    && (a.PlaceTask? ==> s.tasks[a.t].PlaceQueued? && Current(s.session, s.tasks[a.t].request, s.tasks[a.t].owner))
  }

  /** The step shows the window for the current request. */
  predicate Shows(s: State, a: Action) {
    && s.prepared && a.ShowTask? && a.shows && a.t in s.tasks && s.tasks[a.t].ShowQueued?
    && Current(s.session, s.tasks[a.t].request, s.tasks[a.t].owner)
  }

  lemma WindowChangesExactly(s: State, a: Action)
    ensures Step(s, a).shown ==
      if Shows(s, a) then Some(s.session.request) else if TakesDown(s, a) then None else s.shown
  {
  }

  /** At every moment of `later` the panel is up for its session. */
  predicate StaysUp(run: seq<Action>, later: seq<Action>, session: Session)
    requires session.Session?
  {
    && Exec(run + later).session == session && Exec(run + later).shown == Some(session.request)
    && (later != [] ==> StaysUp(run, later[..|later| - 1], session))
  }

  /** No step of `later` ends or replaces the session or takes the window down. */
  predicate Undisturbed(run: seq<Action>, later: seq<Action>) {
    later == [] || (
      var init, a := later[..|later| - 1], later[|later| - 1];
      var s := Exec(run + init);
      && Undisturbed(run, init)
      && !(s.session.Session? && Ends(s, a)) && !Replaces(s, a) && !TakesDown(s, a))
  }

  lemma StaysUpNext(s: State, a: Action)
    requires s.session.Session? && s.shown == Some(s.session.request)
    ensures Step(s, a).session == s.session && Step(s, a).shown == s.shown <==>
      !Ends(s, a) && !Replaces(s, a) && !TakesDown(s, a)
  {
    SessionEndsExactly(s, a);
    WindowChangesExactly(s, a);
  }

  /**
   A panel that is up stays up for its session, in the place given, at every moment of whatever follows exactly if nobody
   hides or fails to place its request, syncs its owner away, places another session or takes the window down to move it.
   */
  lemma {:induction false} PanelStaysExactly(run: seq<Action>, later: seq<Action>)
    requires Exec(run).session.Session? && Exec(run).shown == Some(Exec(run).session.request)
    ensures StaysUp(run, later, Exec(run).session) <==> Undisturbed(run, later)
  {
    var session := Exec(run).session;
    if later == [] {
      assert run + later == run;
    } else {
      var init, a := later[..|later| - 1], later[|later| - 1];
      PanelStaysExactly(run, init);
      assert (run + later)[..|run + later| - 1] == run + init;
      if StaysUp(run, init, session) {
        StaysUpNext(Exec(run + init), a);
      }
    }
  }

  // ----- every lapse matters -----

  ghost predicate Stable(holds: State -> bool) {
    holds(INITIAL) && forall s, a :: holds(s) ==> holds(Step(s, a))
  }

  const UNIT := Rect(0, 0, 1, 1)
  const SHOWN := State(Session("a", "o", UNIT), true, Some("a"), map[], {"a"}, {"a"}, {})

  lemma NotBlank(c: char)
    requires c in {'a', 'b'}
    ensures !Blank([c])
  {
    assert c in [c];
  }

  lemma ShowA(holds: State -> bool)
    requires Stable(holds)
    ensures holds(SHOWN)
  {
    NotBlank('a');
    var s1 := Step(INITIAL, Prepare);
    var s2 := Step(s1, PlaceCommand(0, "a", "o", true, UNIT, true));
    assert s2 == State(Session("a", "o", UNIT), true, None, map[0 := PlaceQueued("a", "o", UNIT)], {"a"}, {}, {});
    var s3 := Step(s2, PlaceTask(0, true, true));
    assert s3 == State(Session("a", "o", UNIT), true, None, map[], {"a"}, {"a"}, {});
    var s4 := Step(s3, ShowCommand(0, "a", "o", true));
    var s5 := Step(s4, ShowTask(0, true));
    assert s5 == SHOWN;
  }

  lemma HideLapses(holds: State -> bool, dispatched: bool) returns (s: State)
    requires Stable(holds)
    ensures holds(s) && s.tasks == map[] && !Safe(s)
    ensures s.lapses == {if dispatched then HideRefused else HideNotDispatched}
  {
    ShowA(holds);
    s := Step(SHOWN, HideCommand(0, "a", dispatched));
    if dispatched {
      s := Step(s, HideTask(0, false));
      assert s.tasks == map[];
    }
  }

  lemma PlaceLapse(holds: State -> bool) returns (s: State)
    requires Stable(holds)
    ensures holds(s) && s.tasks == map[] && !Safe(s) && s.lapses == {PlaceNotDispatched}
  {
    ShowA(holds);
    NotBlank('b');
    var s1 := Step(SHOWN, PlaceCommand(0, "b", "o", true, UNIT, false));
    assert s1.tasks == map[0 := PlaceFailed("b")] && s1.lapses == {PlaceNotDispatched};
    s := Step(s1, PlaceFollowUp(0));
    assert s.tasks == map[];
  }

  /** A show that overtakes its own failing place: from a fresh window, or for a request that is placed twice. */
  lemma OvertakingShow(holds: State -> bool, from: State) returns (s: State)
    requires Stable(holds) && holds(from) && from.prepared && from.tasks == map[]
    ensures holds(s) && s.tasks == map[] && !Safe(s)
    ensures s.lapses == from.lapses + (if "a" in from.used then {ReusedRequest} else {}) + (if "a" in from.placed then {} else {EarlyShow})
  {
    NotBlank('a');
    var s1 := Step(from, PlaceCommand(0, "a", "o", true, UNIT, true));
    var s2 := Step(s1, ShowCommand(1, "a", "o", true));
    assert s2.session == Session("a", "o", UNIT);
    assert s2.tasks == map[0 := PlaceQueued("a", "o", UNIT), 1 := ShowQueued("a", "o")];
    var s3 := Step(s2, PlaceTask(0, true, false));
    assert s3.tasks == map[0 := PlaceFailed("a"), 1 := ShowQueued("a", "o")];
    var s4 := Step(s3, ShowTask(1, true));
    assert s4.shown == Some("a") && s4.tasks == map[0 := PlaceFailed("a")];
    s := Step(s4, PlaceFollowUp(0));
    assert s.tasks == map[];
  }

  /** Each assumption of `PanelIsSafe` is needed: dropping just that one leaves the panel up for nobody. */
  lemma EveryLapseMatters(l: Lapse)
    ensures exists run :: Exec(run).lapses == {l} && Exec(run).tasks == map[] && !Safe(Exec(run))
  {
    var holds: State -> bool := s => exists run :: Exec(run) == s;
    assert Exec([]) == INITIAL;
    forall s, a | holds(s) ensures holds(Step(s, a)) {
      var run :| Exec(run) == s;
      assert (run + [a])[..|run|] == run;
      assert Exec(run + [a]) == Step(s, a);
    }
    var s;
    match l {
      case HideNotDispatched => s := HideLapses(holds, false);
      case HideRefused => s := HideLapses(holds, true);
      case PlaceNotDispatched => s := PlaceLapse(holds);
      case EarlyShow => s := OvertakingShow(holds, Step(INITIAL, Prepare));
      case ReusedRequest => ShowA(holds); s := OvertakingShow(holds, SHOWN);
    }
    assert holds(s);
  }
}
