/** The completion-toast slot and its generation counter (apps/desktop/src/completion_toast.rs:23-67). */
module ToastState {
  import opened Prelude

  const WORD: nat := 0x1_0000_0000_0000_0000

  datatype Payload = Payload(generation: nat, body: string)

  function TakeIfGeneration(slot: Option<Payload>, g: nat): (Option<Payload>, Option<Payload>) {
    if slot.Some? && slot.value.generation == g then (None, slot) else (slot, None)
  }

  class CompletionToastState {
    var generation: nat
    var payload: Option<Payload>

    constructor ()
      ensures generation == 0 && payload == None
    {
      generation, payload := 0, None;
    }

    /** Atomic fetch-and-add on a 64-bit counter. */
    method NextGeneration() returns (g: nat)
      modifies `generation
      ensures generation == (old(generation) + 1) % WORD && g == generation
    {
      g := (generation + 1) % WORD;
      generation := g;
    }

    method SetPayload(p: Payload)
      modifies `payload
      ensures payload == Some(p)
    {
      payload := Some(p);
    }

    method Take(g: nat) returns (taken: Option<Payload>)
      modifies `payload
      ensures (payload, taken) == TakeIfGeneration(old(payload), g)
      ensures taken.Some? ==> taken.value.generation == g && old(payload) == taken && payload.None?
      ensures taken.None? ==> payload == old(payload) && (payload.Some? ==> payload.value.generation != g)
    {
      taken := None;
      if payload.Some? && payload.value.generation == g {
        taken := payload;
        payload := None;
      }
    }

    method CurrentGeneration() returns (g: Option<nat>)
      ensures g == if payload.Some? then Some(payload.value.generation) else None
    {
      g := if payload.Some? then Some(payload.value.generation) else None;
    }
  }
}

/**
 Shows, clicks, dismissals, timers and rollbacks in any interleaving
 (apps/desktop/src/completion_toast.rs:91-143, 214-252).
 */
module Toast {
  import opened Prelude
  import opened ToastState

  type Tid = nat

  /** A running `show_completion_toast` or the auto-dismiss timer it left behind. */
  datatype Pc =
    | Storing(payload: Payload)
    | Dispatching(g: nat)
    | RollingBack(g: nat)
    | TimerArmed(g: nat)
    | TimerTaking(g: nat)

  datatype Event = Stored(p: Payload) | Obtained(p: Payload) | Displaced(p: Payload)

  datatype State = State(issued: nat, slot: Option<Payload>, threads: map<Tid, Pc>, log: seq<Event>)

  const INITIAL := State(0, None, map[], [])

  datatype Action =
    | Show(t: Tid, body: string)
    | Store(t: Tid)
    | Dispatch(t: Tid, ok: bool)
    | ShowTaskFailed(g: nat)
    | RollBack(t: Tid)
    | TimerFires(t: Tid)
    | TimerTakes(t: Tid)
    | ClickOrDismiss(g: nat)

  function TakeStep(s: State, g: nat): State {
    var (slot, taken) := TakeIfGeneration(s.slot, g);
    s.(slot := slot, log := if taken.Some? then s.log + [Obtained(taken.value)] else s.log)
  }

  function StorePayload(s: State, p: Payload): State {
    var log := if s.slot.Some? then s.log + [Displaced(s.slot.value)] else s.log;
    s.(slot := Some(p), log := log + [Stored(p)])
  }

  function Step(s: State, a: Action): State {
    match a
    case Show(t, body) =>
      if t in s.threads then s
      else s.(issued := s.issued + 1, threads := s.threads[t := Storing(Payload((s.issued + 1) % WORD, body))])
    case Store(t) =>
      if t in s.threads && s.threads[t].Storing? then
        StorePayload(s, s.threads[t].payload).(threads := s.threads[t := Dispatching(s.threads[t].payload.generation)])
      else s
    case Dispatch(t, ok) =>
      if t in s.threads && s.threads[t].Dispatching? then
        s.(threads := s.threads[t := if ok then TimerArmed(s.threads[t].g) else RollingBack(s.threads[t].g)])
      else s
    case ShowTaskFailed(g) => TakeStep(s, g)
    case RollBack(t) =>
      if t in s.threads && s.threads[t].RollingBack? then TakeStep(s, s.threads[t].g).(threads := s.threads - {t}) else s
    case TimerFires(t) =>
      if t in s.threads && s.threads[t].TimerArmed? then
        if s.slot.Some? && s.slot.value.generation == s.threads[t].g
        then s.(threads := s.threads[t := TimerTaking(s.threads[t].g)])
        else s.(threads := s.threads - {t})
      else s
    case TimerTakes(t) =>
      if t in s.threads && s.threads[t].TimerTaking? then TakeStep(s, s.threads[t].g).(threads := s.threads - {t}) else s
    case ClickOrDismiss(g) => TakeStep(s, g)
  }

  function Exec(run: seq<Action>): State {
    if run == [] then INITIAL else Step(Exec(run[..|run| - 1]), run[|run| - 1])
  }

  function InSlot(s: State, p: Payload): nat { if s.slot == Some(p) then 1 else 0 }

  /** Every stored payload is in the slot, was displaced by a later store, or was obtained. */
  ghost predicate Conserved(s: State) {
    forall p :: Count(s.log, Stored(p)) == Count(s.log, Obtained(p)) + Count(s.log, Displaced(p)) + InSlot(s, p)
  }

  ghost predicate FreshIn(log: seq<Event>, g: nat) {
    forall p :: Stored(p) in log ==> p.generation != g
  }

  ghost predicate LogDistinct(log: seq<Event>, issued: nat) {
    && (forall p :: Stored(p) in log ==> p.generation <= issued)
    && (forall p :: Count(log, Stored(p)) <= 1)
    && (forall p, q :: Stored(p) in log && Stored(q) in log && p.generation == q.generation ==> p == q)
  }

  ghost predicate ThreadsDistinct(threads: map<Tid, Pc>, log: seq<Event>, issued: nat) {
    && (forall t :: t in threads && threads[t].Storing? ==>
          threads[t].payload.generation <= issued && FreshIn(log, threads[t].payload.generation))
    && (forall t, u :: t in threads && u in threads && t != u && threads[t].Storing? && threads[u].Storing?
          ==> threads[t].payload.generation != threads[u].payload.generation)
  }

  /** A generation belongs to one show: stored once, or still waiting to be stored by one thread. */
  ghost predicate Distinct(s: State) {
    LogDistinct(s.log, s.issued) && ThreadsDistinct(s.threads, s.log, s.issued)
  }

  lemma TakeKeeps(s: State, g: nat)
    requires Conserved(s) && Distinct(s)
    ensures Conserved(TakeStep(s, g)) && Distinct(TakeStep(s, g))
    ensures forall p :: Stored(p) in TakeStep(s, g).log <==> Stored(p) in s.log
  {
    var s' := TakeStep(s, g);
    if s'.log != s.log {
      var e := Obtained(s.slot.value);
      forall p
        ensures Count(s'.log, Stored(p)) == Count(s.log, Stored(p))
        ensures Count(s'.log, Obtained(p)) == Count(s.log, Obtained(p)) + if e == Obtained(p) then 1 else 0
        ensures Count(s'.log, Displaced(p)) == Count(s.log, Displaced(p))
      {
        CountAppend(s.log, e, Stored(p));
        CountAppend(s.log, e, Obtained(p));
        CountAppend(s.log, e, Displaced(p));
      }
    }
  }

  lemma StoreConserves(s: State, p0: Payload)
    requires Conserved(s)
    ensures Conserved(StorePayload(s, p0))
    ensures forall p :: Count(StorePayload(s, p0).log, Stored(p)) == Count(s.log, Stored(p)) + if p == p0 then 1 else 0
    ensures forall p :: Stored(p) in StorePayload(s, p0).log <==> p == p0 || Stored(p) in s.log
  {
    var s' := StorePayload(s, p0);
    var log := if s.slot.Some? then s.log + [Displaced(s.slot.value)] else s.log;
    forall p
      ensures Count(s'.log, Stored(p)) == Count(s.log, Stored(p)) + if p == p0 then 1 else 0
      ensures Count(s'.log, Stored(p)) == Count(s'.log, Obtained(p)) + Count(s'.log, Displaced(p)) + InSlot(s', p)
    {
      if s.slot.Some? {
        CountAppend(s.log, Displaced(s.slot.value), Stored(p));
        CountAppend(s.log, Displaced(s.slot.value), Obtained(p));
        CountAppend(s.log, Displaced(s.slot.value), Displaced(p));
      }
      CountAppend(log, Stored(p0), Stored(p));
      CountAppend(log, Stored(p0), Obtained(p));
      CountAppend(log, Stored(p0), Displaced(p));
    }
  }

  lemma StoreKeepsLog(log: seq<Event>, log': seq<Event>, p0: Payload, issued: nat)
    requires LogDistinct(log, issued) && FreshIn(log, p0.generation) && p0.generation <= issued
    requires forall p :: Count(log', Stored(p)) == Count(log, Stored(p)) + if p == p0 then 1 else 0
    requires forall p :: Stored(p) in log' <==> p == p0 || Stored(p) in log
    ensures LogDistinct(log', issued)
  {
    CountWitness(log, Stored(p0));
  }

  lemma StoreKeepsThreads(threads: map<Tid, Pc>, t: Tid, log: seq<Event>, log': seq<Event>, issued: nat)
    requires ThreadsDistinct(threads, log, issued) && t in threads && threads[t].Storing?
    requires forall p :: Stored(p) in log' <==> p == threads[t].payload || Stored(p) in log
    ensures ThreadsDistinct(threads[t := Dispatching(threads[t].payload.generation)], log', issued)
  {
    var threads' := threads[t := Dispatching(threads[t].payload.generation)];
    forall u | u in threads' && threads'[u].Storing? ensures FreshIn(log', threads'[u].payload.generation) {
      assert u != t && threads'[u] == threads[u];
      assert FreshIn(log, threads[u].payload.generation);
    }
  }

  lemma StoreKeeps(s: State, t: Tid)
    requires Conserved(s) && Distinct(s) && t in s.threads && s.threads[t].Storing?
    ensures Conserved(Step(s, Store(t))) && Distinct(Step(s, Store(t)))
  {
    var s1 := StorePayload(s, s.threads[t].payload);
    StoreConserves(s, s.threads[t].payload);
    StoreKeepsLog(s.log, s1.log, s.threads[t].payload, s.issued);
    StoreKeepsThreads(s.threads, t, s.log, s1.log, s.issued);
    SameLogAndSlot(s1, Step(s, Store(t)));
  }

  /** Steps that neither store nor issue leave the generations where they are. */
  lemma DistinctFrame(s: State, s': State)
    requires Distinct(s) && s'.issued == s.issued
    requires forall p :: Count(s'.log, Stored(p)) == Count(s.log, Stored(p))
    requires forall p :: Stored(p) in s'.log <==> Stored(p) in s.log
    requires forall t :: t in s'.threads && s'.threads[t].Storing? ==> t in s.threads && s'.threads[t] == s.threads[t]
    ensures Distinct(s')
  {
  }

  lemma ShowKeeps(s: State, t: Tid, body: string)
    requires Distinct(s) && t !in s.threads && s.issued + 1 < WORD
    ensures Distinct(Step(s, Show(t, body)))
  {
    var threads' := Step(s, Show(t, body)).threads;
    assert threads'[t] == Storing(Payload(s.issued + 1, body));
    forall u | u in threads' && threads'[u].Storing? ensures FreshIn(s.log, threads'[u].payload.generation) {
      if u != t { assert threads'[u] == s.threads[u]; }
    }
  }

  lemma StepKeeps(s: State, a: Action)
    requires Conserved(s) && Distinct(s) && Step(s, a).issued < WORD
    ensures Conserved(Step(s, a)) && Distinct(Step(s, a))
  {
    var s' := Step(s, a);
    match a {
      case Show(t, body) =>
        SameLogAndSlot(s, s');
        if t !in s.threads { ShowKeeps(s, t, body); }
      case Store(t) => if t in s.threads && s.threads[t].Storing? { StoreKeeps(s, t); }
      case Dispatch(t, ok) => SameLogAndSlot(s, s'); DistinctFrame(s, s');
      case ShowTaskFailed(g) => TakeKeeps(s, g);
      case RollBack(t) =>
        if t in s.threads && s.threads[t].RollingBack? { TakeAndLeave(s, t, s.threads[t].g, s'); }
      case TimerFires(t) => SameLogAndSlot(s, s'); DistinctFrame(s, s');
      case TimerTakes(t) =>
        if t in s.threads && s.threads[t].TimerTaking? { TakeAndLeave(s, t, s.threads[t].g, s'); }
      case ClickOrDismiss(g) => TakeKeeps(s, g);
    }
  }

  lemma TakeAndLeave(s: State, t: Tid, g: nat, s': State)
    requires Conserved(s) && Distinct(s) && s' == TakeStep(s, g).(threads := s.threads - {t})
    ensures Conserved(s') && Distinct(s')
  {
    TakeKeeps(s, g);
    SameLogAndSlot(TakeStep(s, g), s');
    DistinctFrame(TakeStep(s, g), s');
  }

  lemma SameLogAndSlot(s: State, s': State)
    requires Conserved(s) && s'.log == s.log && s'.slot == s.slot
    ensures Conserved(s')
  {
    assert forall p :: InSlot(s', p) == InSlot(s, p);
  }

  lemma IssuedGrows(s: State, a: Action)
    ensures s.issued <= Step(s, a).issued
  {
  }

  lemma {:induction false} ExecKeeps(run: seq<Action>)
    requires Exec(run).issued < WORD
    ensures Conserved(Exec(run)) && Distinct(Exec(run))
  {
    if run != [] {
      IssuedGrows(Exec(run[..|run| - 1]), run[|run| - 1]);
      ExecKeeps(run[..|run| - 1]);
      StepKeeps(Exec(run[..|run| - 1]), run[|run| - 1]);
    }
  }

  /**
   While the counter has not wrapped, each generation's payload is obtained at most once, by whichever of
   click, dismissal, timer and rollback comes first, and only what was stored is ever obtained.
   */
  lemma ObtainedAtMostOnce(run: seq<Action>, p: Payload, q: Payload)
    requires Exec(run).issued < WORD
    ensures Count(Exec(run).log, Obtained(p)) <= 1
    ensures Obtained(p) in Exec(run).log ==> Stored(p) in Exec(run).log && Displaced(p) !in Exec(run).log
    ensures Obtained(p) in Exec(run).log && Obtained(q) in Exec(run).log && p.generation == q.generation ==> p == q
  {
    ExecKeeps(run);
    var log := Exec(run).log;
    CountWitness(log, Obtained(p));
    CountWitness(log, Stored(p));
    CountWitness(log, Displaced(p));
    CountWitness(log, Obtained(q));
    CountWitness(log, Stored(q));
  }

  // ----- whose toast a take obtains -----

  /** The generation a click, dismissal, failed show, rollback or timer asks for. */
  function AsksFor(s: State, a: Action): Option<nat> {
    match a
    case ClickOrDismiss(g) => Some(g)
    case ShowTaskFailed(g) => Some(g)
    case RollBack(t) => if t in s.threads && s.threads[t].RollingBack? then Some(s.threads[t].g) else None
    case TimerTakes(t) => if t in s.threads && s.threads[t].TimerTaking? then Some(s.threads[t].g) else None
    case _ => None
  }

  predicate StoresOther(s: State, a: Action, p: Payload) {
    a.Store? && a.t in s.threads && s.threads[a.t].Storing? && s.threads[a.t].payload != p
  }

  /** A step obtains exactly the payload in the slot if it asks for its generation, and otherwise obtains nothing. */
  lemma ObtainsOwnGenerationExactly(s: State, a: Action, p: Payload)
    ensures Step(s, a).log == s.log + [Obtained(p)] <==> s.slot == Some(p) && AsksFor(s, a) == Some(p.generation)
    ensures s.slot == Some(p) && AsksFor(s, a) == Some(p.generation) ==> Step(s, a).slot == None
    ensures s.slot == Some(p) && Step(s, a).slot != s.slot <==>
      s.slot == Some(p) && (StoresOther(s, a, p) || AsksFor(s, a) == Some(p.generation))
  {
    var log := Step(s, a).log;
    if log == s.log + [Obtained(p)] {
      assert log[|s.log|] == Obtained(p);
    }
  }

  /** The generation a thread acts for. */
  function Generation(pc: Pc): nat {
    match pc
    case Storing(p) => p.generation
    case Dispatching(g) => g
    case RollingBack(g) => g
    case TimerArmed(g) => g
    case TimerTaking(g) => g
  }

  /** A show and the timer it leaves behind act for the generation that the show was given, to their end. */
  lemma ThreadKeepsGeneration(s: State, a: Action, t: Tid)
    requires t in Step(s, a).threads
    ensures Generation(Step(s, a).threads[t]) == if t in s.threads then Generation(s.threads[t]) else (s.issued + 1) % WORD
    ensures t !in s.threads ==> a.Show? && a.t == t && Step(s, a).threads[t] == Storing(Payload((s.issued + 1) % WORD, a.body))
  {
  }

  /** The toast is in the slot at every moment of `later`. */
  predicate StaysUp(run: seq<Action>, later: seq<Action>, p: Payload) {
    Exec(run + later).slot == Some(p) && (later != [] ==> StaysUp(run, later[..|later| - 1], p))
  }

  /** No step of `later` asks for the toast's generation or stores another toast. */
  predicate Undisturbed(run: seq<Action>, later: seq<Action>, p: Payload) {
    later == [] || (
      var init, a := later[..|later| - 1], later[|later| - 1];
      && Undisturbed(run, init, p)
      && AsksFor(Exec(run + init), a) != Some(p.generation) && !StoresOther(Exec(run + init), a, p))
  }

  /** A toast is there for as long as nobody asks for its own generation and no other toast is stored, and no longer. */
  lemma {:induction false} ToastStaysExactly(run: seq<Action>, later: seq<Action>, p: Payload)
    requires Exec(run).slot == Some(p)
    ensures StaysUp(run, later, p) <==> Undisturbed(run, later, p)
  {
    if later == [] {
      assert run + later == run;
    } else {
      var init, a := later[..|later| - 1], later[|later| - 1];
      ToastStaysExactly(run, init, p);
      assert (run + later)[..|run + later| - 1] == run + init;
      ObtainsOwnGenerationExactly(Exec(run + init), a, p);
      if StaysUp(run, init, p) {
        assert Exec(run + init).slot == Some(p);
      }
    }
  }

  // ----- which toast displaces which -----

  /** One step of a run displaces a newer toast by an older one exactly when an overtaken show stores its payload. */
  lemma DisplacesNewerExactly(s: State, a: Action)
    ensures
      (exists p, q :: Step(s, a).log == s.log + [Displaced(p), Stored(q)] && q.generation < p.generation)
      <==>
      && a.Store? && a.t in s.threads && s.threads[a.t].Storing?
      && s.slot.Some? && s.slot.value.generation > s.threads[a.t].payload.generation
  {
    var log := Step(s, a).log;
    if a.Store? && a.t in s.threads && s.threads[a.t].Storing? && s.slot.Some? {
      var p, q := s.slot.value, s.threads[a.t].payload;
      assert log == s.log + [Displaced(p), Stored(q)];
      forall p', q' | log == s.log + [Displaced(p'), Stored(q')] ensures p' == p && q' == q {
        assert log[|s.log|] == Displaced(p') && log[|s.log| + 1] == Stored(q');
      }
    } else {
      assert |log| <= |s.log| + 1;
    }
  }

  /** A store does not overtake a show that was numbered before. */
  predicate InNumberingOrder(s: State, a: Action) {
    a.Store? && a.t in s.threads && s.threads[a.t].Storing? ==>
      forall u :: u in s.threads && s.threads[u].Storing? ==>
        s.threads[a.t].payload.generation <= s.threads[u].payload.generation
  }

  ghost predicate StoresInOrder(run: seq<Action>) {
    forall k :: 0 <= k < |run| ==> InNumberingOrder(Exec(run[..k]), run[k])
  }

  /** The stored generations increase. */
  predicate Increasing(log: seq<Event>) {
    forall i, j :: 0 <= i < j < |log| && log[i].Stored? && log[j].Stored? ==> log[i].p.generation < log[j].p.generation
  }

  /** Whatever is displaced is displaced by the newer toast stored next. */
  predicate NewerDisplacesOlder(log: seq<Event>) {
    forall i :: 0 <= i < |log| && log[i].Displaced? ==>
      i + 1 < |log| && log[i + 1].Stored? && log[i].p.generation < log[i + 1].p.generation
  }

  /** Everything stored so far is older than `g`. */
  predicate StoredBelow(log: seq<Event>, g: nat) {
    forall i :: 0 <= i < |log| && log[i].Stored? ==> log[i].p.generation < g
  }

  predicate OlderThan(s: State, g: nat) {
    StoredBelow(s.log, g) && (s.slot.Some? ==> s.slot.value.generation < g)
  }

  predicate StoringDistinct(threads: map<Tid, Pc>) {
    forall t, u :: t in threads && u in threads && t != u && threads[t].Storing? && threads[u].Storing? ==>
      threads[t].payload.generation != threads[u].payload.generation
  }

  /** Every show that waits to store is newer than everything stored, and was numbered. */
  predicate NoneOvertaken(s: State) {
    && OlderThan(s, s.issued + 1)
    && forall t :: t in s.threads && s.threads[t].Storing? ==>
         s.threads[t].payload.generation <= s.issued && OlderThan(s, s.threads[t].payload.generation)
  }

  predicate OrderedLog(log: seq<Event>) {
    Increasing(log) && NewerDisplacesOlder(log)
  }

  lemma ObtainedKeepsOrder(log: seq<Event>, p: Payload)
    requires OrderedLog(log)
    ensures OrderedLog(log + [Obtained(p)])
    ensures forall g :: StoredBelow(log, g) ==> StoredBelow(log + [Obtained(p)], g)
  {
    var log' := log + [Obtained(p)];
    forall i | 0 <= i < |log'| && log'[i].Displaced?
      ensures i + 1 < |log'| && log'[i + 1].Stored? && log'[i].p.generation < log'[i + 1].p.generation
    {
      assert log[i].Displaced?;
    }
  }

  lemma StoredKeepsOrder(s: State, q: Payload)
    requires OrderedLog(s.log) && OlderThan(s, q.generation)
    ensures OrderedLog(StorePayload(s, q).log)
    ensures forall g :: g > q.generation ==> OlderThan(StorePayload(s, q), g)
  {
    var log' := StorePayload(s, q).log;
    forall i | 0 <= i < |log'| && log'[i].Displaced?
      ensures i + 1 < |log'| && log'[i + 1].Stored? && log'[i].p.generation < log'[i + 1].p.generation
    {
      if i < |s.log| {
        assert s.log[i].Displaced?;
      }
    }
  }

  lemma StoreKeepsOrder(s: State, t: Tid)
    requires NoneOvertaken(s) && OrderedLog(s.log) && StoringDistinct(s.threads)
    requires t in s.threads && s.threads[t].Storing? && InNumberingOrder(s, Store(t))
    ensures NoneOvertaken(Step(s, Store(t))) && OrderedLog(Step(s, Store(t)).log)
  {
    var q := s.threads[t].payload;
    var s' := Step(s, Store(t));
    StoredKeepsOrder(s, q);
    forall u | u in s'.threads && s'.threads[u].Storing?
      ensures s'.threads[u].payload.generation <= s'.issued && OlderThan(s', s'.threads[u].payload.generation)
    {
      assert u != t && s'.threads[u] == s.threads[u];
      assert OlderThan(StorePayload(s, q), s'.threads[u].payload.generation);
    }
  }

  lemma TakeKeepsOrder(s: State, g: nat, s': State)
    requires NoneOvertaken(s) && OrderedLog(s.log)
    requires s'.log == TakeStep(s, g).log && s'.slot == TakeStep(s, g).slot && s'.issued == s.issued
    requires forall t :: t in s'.threads ==> t in s.threads && s'.threads[t] == s.threads[t]
    ensures NoneOvertaken(s') && OrderedLog(s'.log)
  {
    if s.slot.Some? {
      ObtainedKeepsOrder(s.log, s.slot.value);
    }
  }

  lemma ShowKeepsOrder(s: State, t: Tid, body: string)
    requires NoneOvertaken(s) && t !in s.threads && s.issued + 1 < WORD
    ensures NoneOvertaken(Step(s, Show(t, body)))
  {
  }

  /** Steps that neither number, store nor take anything. */
  lemma OrderFrame(s: State, s': State)
    requires NoneOvertaken(s) && s'.log == s.log && s'.slot == s.slot && s'.issued == s.issued
    requires forall t :: t in s'.threads && s'.threads[t].Storing? ==> t in s.threads && s'.threads[t] == s.threads[t]
    ensures NoneOvertaken(s')
  {
  }

  lemma StepKeepsOrder(s: State, a: Action)
    requires NoneOvertaken(s) && OrderedLog(s.log) && StoringDistinct(s.threads) && Step(s, a).issued < WORD
    requires InNumberingOrder(s, a)
    ensures NoneOvertaken(Step(s, a)) && OrderedLog(Step(s, a).log)
  {
    var s' := Step(s, a);
    match a {
      case Show(t, body) => if t !in s.threads { ShowKeepsOrder(s, t, body); }
      case Store(t) => if t in s.threads && s.threads[t].Storing? { StoreKeepsOrder(s, t); }
      case Dispatch(t, ok) => OrderFrame(s, s');
      case ShowTaskFailed(g) => TakeKeepsOrder(s, g, s');
      case RollBack(t) =>
        if t in s.threads && s.threads[t].RollingBack? { TakeKeepsOrder(s, s.threads[t].g, s'); }
      case TimerFires(t) => OrderFrame(s, s');
      case TimerTakes(t) =>
        if t in s.threads && s.threads[t].TimerTaking? { TakeKeepsOrder(s, s.threads[t].g, s'); }
      case ClickOrDismiss(g) => TakeKeepsOrder(s, g, s');
    }
  }

  lemma StoresInOrderInit(run: seq<Action>)
    requires run != [] && StoresInOrder(run)
    ensures StoresInOrder(run[..|run| - 1]) && InNumberingOrder(Exec(run[..|run| - 1]), run[|run| - 1])
  {
    var init := run[..|run| - 1];
    forall k | 0 <= k < |init| ensures InNumberingOrder(Exec(init[..k]), init[k]) {
      assert init[..k] == run[..k] && init[k] == run[k];
    }
  }

  lemma {:induction false} InOrderRuns(run: seq<Action>)
    requires Exec(run).issued < WORD && StoresInOrder(run)
    ensures NoneOvertaken(Exec(run)) && OrderedLog(Exec(run).log)
  {
    if run != [] {
      var init := run[..|run| - 1];
      StoresInOrderInit(run);
      IssuedGrows(Exec(init), run[|run| - 1]);
      InOrderRuns(init);
      ExecKeeps(init);
      StepKeepsOrder(Exec(init), run[|run| - 1]);
    }
  }

  /** While stores keep the numbering order, stored generations increase and only newer toasts displace older ones. */
  lemma OnlyNewerDisplaces(run: seq<Action>)
    requires Exec(run).issued < WORD && StoresInOrder(run)
    ensures Increasing(Exec(run).log) && NewerDisplacesOlder(Exec(run).log)
  {
    InOrderRuns(run);
  }

  /** Some show waits to store although something newer was stored. */
  predicate Overtaken(s: State) {
    exists t :: t in s.threads && s.threads[t].Storing? && !StoredBelow(s.log, s.threads[t].payload.generation + 1)
  }

  predicate NothingWaits(s: State) {
    forall t :: t in s.threads ==> !s.threads[t].Storing?
  }

  lemma LogOnlyGrows(s: State, a: Action)
    ensures s.log <= Step(s, a).log
  {
  }

  lemma DisorderStays(s: State, a: Action)
    requires Overtaken(s) || !Increasing(s.log)
    ensures Overtaken(Step(s, a)) || !Increasing(Step(s, a).log)
  {
    var s' := Step(s, a);
    LogOnlyGrows(s, a);
    if Increasing(s.log) {
      var t :| t in s.threads && s.threads[t].Storing? && !StoredBelow(s.log, s.threads[t].payload.generation + 1);
      var i :| 0 <= i < |s.log| && s.log[i].Stored? && s.log[i].p.generation > s.threads[t].payload.generation;
      assert s'.log[i] == s.log[i];
      if a == Store(t) {
        var last := |s'.log| - 1;
        assert s'.log[last] == Stored(s.threads[t].payload);
      } else {
        assert s'.threads[t] == s.threads[t];
      }
    }
  }

  lemma OvertakingStore(s: State, a: Action)
    requires !InNumberingOrder(s, a)
    ensures Overtaken(Step(s, a))
  {
    var s' := Step(s, a);
    var u :| u in s.threads && s.threads[u].Storing? && s.threads[a.t].payload.generation > s.threads[u].payload.generation;
    var last := |s'.log| - 1;
    assert s'.log[last] == Stored(s.threads[a.t].payload);
    assert s'.threads[u] == s.threads[u];
  }

  lemma {:induction false} DisorderShows(run: seq<Action>, k: nat)
    requires k < |run| && !InNumberingOrder(Exec(run[..k]), run[k])
    ensures Overtaken(Exec(run)) || !Increasing(Exec(run).log)
  {
    var init := run[..|run| - 1];
    if k == |run| - 1 {
      OvertakingStore(Exec(init), run[k]);
    } else {
      assert init[..k] == run[..k] && init[k] == run[k];
      DisorderShows(init, k);
      DisorderStays(Exec(init), run[|run| - 1]);
    }
  }

  /**
   Once every numbered show has stored its payload, the payloads were stored in the order of their generations exactly
   when no store overtook a show that was numbered before and still waited.
   */
  lemma StoredInOrderExactly(run: seq<Action>)
    requires Exec(run).issued < WORD && NothingWaits(Exec(run))
    ensures Increasing(Exec(run).log) <==> StoresInOrder(run)
  {
    if StoresInOrder(run) {
      OnlyNewerDisplaces(run);
    } else {
      var k :| 0 <= k < |run| && !InNumberingOrder(Exec(run[..k]), run[k]);
      DisorderShows(run, k);
    }
  }

  /** Numbering and storing are two steps, so an older toast can displace a newer one and stay. */
  lemma OlderToastCanDisplaceNewer(body: string) returns (run: seq<Action>)
    ensures Exec(run).slot == Some(Payload(1, body)) && Displaced(Payload(2, body)) in Exec(run).log
  {
    var s1 := Step(INITIAL, Show(0, body));
    var s2 := Step(s1, Show(1, body));
    assert s2.threads == map[0 := Storing(Payload(1, body)), 1 := Storing(Payload(2, body))];
    var s3 := Step(s2, Store(1));
    var s4 := Step(s3, Store(0));
    assert s4.slot == Some(Payload(1, body));
    assert s4.log == [Stored(Payload(2, body)), Displaced(Payload(2, body)), Stored(Payload(1, body))];
    run := [Show(0, body), Show(1, body), Store(1), Store(0)];
    assert run[..3] == [Show(0, body), Show(1, body), Store(1)];
    assert run[..3][..2] == [Show(0, body), Show(1, body)];
    assert run[..3][..2][..1] == [Show(0, body)];
    assert run[..3][..2][..1][..0] == [];
    assert Exec(run[..3][..2][..1]) == s1;
    assert Exec(run[..3][..2]) == s2;
    assert Exec(run[..3]) == s3;
  }
}
