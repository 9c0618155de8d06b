/**
 The exit coordinator once more, now with every load, store, swap and compare-exchange of
 apps/desktop/src/main.rs:1719-1814 as its own step, taken by any number of threads in any order
 (sequentially consistent interleaving).
 */
module AtomicExit {
  import opened Prelude
  import P = ExitProtocol

  type Tid = nat

  /** The next atomic operation of a thread inside a coordinator method. */
  datatype Pc =
    | ExitLoadRestart(code: Option<int>)
    | ExitLoadPhase(code: Option<int>)
    | ExitCas(code: Option<int>, seen: P.Phase)
    | ExitStoreCode(code: Option<int>)
    | RestartStore
    | RestartCas
    | ModeLoadPhase
    | ModeLoadRestart
    | ClaimLoadPhase
    | ClaimLoadRestart
    | ClaimSwap
    | VerifiedStore
    | VerifiedLoadPhase
    | VerifiedStorePhase
    | FailedStore
    | FailedLoadPhase
    | FailedStorePhase
    | FailedClearStarted
    | FatalLoadRestart
    | FatalLoadVerified
    | FatalSwap
    | FatalStorePhase
    | AllowedLoadVerified
    | AllowedLoadPhase

  datatype Event =
    | RestartStored
    | RestartStarted
    | VerifiedStored
    | FailedCalled
    | ExitAccepted
    | ShutdownClaimed
    | FatalClaimed
    | ModeReturned(mode: Option<P.ShutdownMode>)
    | AllowedReturned(allowed: bool)

  /** The effect of one atomic operation: new shared state, next operation (None when the method returns), event. */
  datatype Effect = Effect(shared: P.ExitState, next: Option<Pc>, event: Option<Event>)

  function Atomic(c: P.ExitState, pc: Pc): Effect {
    match pc
    case ExitLoadRestart(code) => Effect(c, if c.restartRequested then None else Some(ExitLoadPhase(code)), None)
    case ExitLoadPhase(code) =>
      Effect(c, if c.phase.Running? || c.phase.CleanupFailed? then Some(ExitCas(code, c.phase)) else None, None)
    case ExitCas(code, seen) =>
      if c.phase == seen then Effect(c.(phase := P.ShuttingDown), Some(ExitStoreCode(code)), Some(ExitAccepted))
      else Effect(c, Some(ExitLoadPhase(code)), None)
    case ExitStoreCode(code) => Effect(c.(originalCode := code), None, None)

    case RestartStore => Effect(c.(restartRequested := true), Some(RestartCas), Some(RestartStored))
    case RestartCas =>
      if c.phase.Running? then Effect(c.(phase := P.Restarting), None, Some(RestartStarted)) else Effect(c, None, None)

    case ModeLoadPhase =>
      if c.phase.ShuttingDown? then Effect(c, Some(ModeLoadRestart), None)
      else Effect(c, None, Some(ModeReturned(if c.phase.Restarting? then Some(P.Restart) else None)))
    case ModeLoadRestart =>
      Effect(c, None, Some(ModeReturned(Some(if c.restartRequested then P.Restart else P.Normal))))

    case ClaimLoadPhase =>
      Effect(c, if c.phase.ShuttingDown? then Some(ClaimLoadRestart)
                else if c.phase.Restarting? then Some(ClaimSwap)
                else None, None)
    case ClaimLoadRestart => Effect(c, Some(ClaimSwap), None)
    case ClaimSwap => Effect(c.(shutdownStarted := true), None, if c.shutdownStarted then None else Some(ShutdownClaimed))

    case VerifiedStore => Effect(c.(cleanupVerified := true), Some(VerifiedLoadPhase), Some(VerifiedStored))
    case VerifiedLoadPhase => Effect(c, if c.phase.Fatal? then None else Some(VerifiedStorePhase), None)
    case VerifiedStorePhase => Effect(c.(phase := P.Complete), None, None)

    case FailedStore => Effect(c.(cleanupVerified := false), Some(FailedLoadPhase), Some(FailedCalled))
    case FailedLoadPhase =>
      Effect(c, Some(if c.phase.ShuttingDown? || c.phase.Restarting? || c.phase.Fatal? then FailedClearStarted
                     else FailedStorePhase), None)
    case FailedStorePhase => Effect(c.(phase := P.CleanupFailed), Some(FailedClearStarted), None)
    case FailedClearStarted => Effect(c.(shutdownStarted := false), None, None)

    case FatalLoadRestart => Effect(c, if c.restartRequested then None else Some(FatalLoadVerified), None)
    case FatalLoadVerified => Effect(c, if c.cleanupVerified then Some(FatalSwap) else None, None)
    case FatalSwap =>
      if c.fatalDialogStarted then Effect(c, None, None)
      else Effect(c.(fatalDialogStarted := true), Some(FatalStorePhase), Some(FatalClaimed))
    case FatalStorePhase => Effect(c.(phase := P.Fatal), None, None)

    case AllowedLoadVerified =>
      if c.cleanupVerified then Effect(c, Some(AllowedLoadPhase), None)
      else Effect(c, None, Some(AllowedReturned(false)))
    case AllowedLoadPhase => Effect(c, None, Some(AllowedReturned(c.phase.Complete? || c.phase.Fatal?)))
  }

  /** Where a call of a method starts. */
  function Entry(op: P.Op): Pc {
    match op
    case NormalExit(code) => ExitLoadRestart(code)
    case RestartRequest => RestartStore
    case ClaimShutdown => ClaimLoadPhase
    case CleanupVerifiedOp => VerifiedStore
    case CleanupFailedOp => FailedStore
    case ClaimFatal => FatalLoadRestart
  }

  /** The state after at most `fuel` operations of a thread that nobody interrupts. */
  function Alone(c: P.ExitState, pc: Option<Pc>, fuel: nat): (P.ExitState, Option<Pc>)
    decreases fuel
  {
    if pc.None? || fuel == 0 then (c, pc)
    else
      var e := Atomic(c, pc.value);
      Alone(e.shared, e.next, fuel - 1)
  }

  function Events(e: Effect): seq<Event> {
    if e.event.Some? then [e.event.value] else []
  }

  /** What it reports meanwhile. */
  function AloneLog(c: P.ExitState, pc: Option<Pc>, fuel: nat): seq<Event>
    decreases fuel
  {
    if pc.None? || fuel == 0 then []
    else
      var e := Atomic(c, pc.value);
      Events(e) + AloneLog(e.shared, e.next, fuel - 1)
  }

  /** The answer of a method as its caller gets it. */
  function Answer(c: P.ExitState, op: P.Op): bool {
    match op
    case NormalExit(code) => P.RequestNormalExit(c, code).1
    case RestartRequest => P.RequestRestart(c).1
    case ClaimShutdown => P.ClaimShutdownStart(c).1
    case CleanupVerifiedOp => true
    case CleanupFailedOp => true
    case ClaimFatal => P.ClaimFatalExit(c).1
  }

  /** What a method that answers yes reports. */
  function Success(op: P.Op): Event {
    match op
    case NormalExit(_) => ExitAccepted
    case RestartRequest => RestartStarted
    case ClaimShutdown => ShutdownClaimed
    case CleanupVerifiedOp => VerifiedStored
    case CleanupFailedOp => FailedCalled
    case ClaimFatal => FatalClaimed
  }

  /** A restart request is reported before its answer; every other method reports its answer alone. */
  function Reported(c: P.ExitState, op: P.Op): seq<Event> {
    (if op.RestartRequest? then [RestartStored] else []) + (if Answer(c, op) then [Success(op)] else [])
  }

  lemma AloneStep(c: P.ExitState, pc: Pc, fuel: nat, e: Effect)
    requires fuel > 0 && e == Atomic(c, pc)
    ensures Alone(c, Some(pc), fuel) == Alone(e.shared, e.next, fuel - 1)
    ensures AloneLog(c, Some(pc), fuel) == Events(e) + AloneLog(e.shared, e.next, fuel - 1)
  {
  }

  lemma NormalExitAlone(c: P.ExitState, code: Option<int>, fuel: nat)
    requires fuel >= 4
    ensures Alone(c, Some(ExitLoadRestart(code)), fuel) == (P.RequestNormalExit(c, code).0, None)
    ensures AloneLog(c, Some(ExitLoadRestart(code)), fuel) == Reported(c, P.NormalExit(code))
  {
    if c.restartRequested {
      AloneStep(c, ExitLoadRestart(code), fuel, Effect(c, None, None));
    } else {
      AloneStep(c, ExitLoadRestart(code), fuel, Effect(c, Some(ExitLoadPhase(code)), None));
      if c.phase.Running? || c.phase.CleanupFailed? {
        var c' := c.(phase := P.ShuttingDown);
        AloneStep(c, ExitLoadPhase(code), fuel - 1, Effect(c, Some(ExitCas(code, c.phase)), None));
        AloneStep(c, ExitCas(code, c.phase), fuel - 2, Effect(c', Some(ExitStoreCode(code)), Some(ExitAccepted)));
        AloneStep(c', ExitStoreCode(code), fuel - 3, Effect(c'.(originalCode := code), None, None));
      } else {
        AloneStep(c, ExitLoadPhase(code), fuel - 1, Effect(c, None, None));
      }
    }
  }

  lemma CleanupFailedAlone(c: P.ExitState, fuel: nat)
    requires fuel >= 4
    ensures Alone(c, Some(FailedStore), fuel) == (P.MarkCleanupFailed(c), None)
    ensures AloneLog(c, Some(FailedStore), fuel) == [FailedCalled]
  {
    var c1 := c.(cleanupVerified := false);
    AloneStep(c, FailedStore, fuel, Effect(c1, Some(FailedLoadPhase), Some(FailedCalled)));
    if c.phase.ShuttingDown? || c.phase.Restarting? || c.phase.Fatal? {
      AloneStep(c1, FailedLoadPhase, fuel - 1, Effect(c1, Some(FailedClearStarted), None));
      AloneStep(c1, FailedClearStarted, fuel - 2, Effect(c1.(shutdownStarted := false), None, None));
    } else {
      var c2 := c1.(phase := P.CleanupFailed);
      AloneStep(c1, FailedLoadPhase, fuel - 1, Effect(c1, Some(FailedStorePhase), None));
      AloneStep(c1, FailedStorePhase, fuel - 2, Effect(c2, Some(FailedClearStarted), None));
      AloneStep(c2, FailedClearStarted, fuel - 3, Effect(c2.(shutdownStarted := false), None, None));
    }
  }

  lemma ClaimFatalAlone(c: P.ExitState, fuel: nat)
    requires fuel >= 4
    ensures Alone(c, Some(FatalLoadRestart), fuel) == (P.ClaimFatalExit(c).0, None)
    ensures AloneLog(c, Some(FatalLoadRestart), fuel) == Reported(c, P.ClaimFatal)
  {
    if c.restartRequested {
      AloneStep(c, FatalLoadRestart, fuel, Effect(c, None, None));
    } else {
      AloneStep(c, FatalLoadRestart, fuel, Effect(c, Some(FatalLoadVerified), None));
      if !c.cleanupVerified {
        AloneStep(c, FatalLoadVerified, fuel - 1, Effect(c, None, None));
      } else {
        AloneStep(c, FatalLoadVerified, fuel - 1, Effect(c, Some(FatalSwap), None));
        if c.fatalDialogStarted {
          AloneStep(c, FatalSwap, fuel - 2, Effect(c, None, None));
        } else {
          var c' := c.(fatalDialogStarted := true);
          AloneStep(c, FatalSwap, fuel - 2, Effect(c', Some(FatalStorePhase), Some(FatalClaimed)));
          AloneStep(c', FatalStorePhase, fuel - 3, Effect(c'.(phase := P.Fatal), None, None));
        }
      }
    }
  }

  lemma ClaimShutdownAlone(c: P.ExitState, fuel: nat)
    requires fuel >= 4
    ensures Alone(c, Some(ClaimLoadPhase), fuel) == (P.ClaimShutdownStart(c).0, None)
    ensures AloneLog(c, Some(ClaimLoadPhase), fuel) == Reported(c, P.ClaimShutdown)
  {
    var e := Atomic(c, ClaimLoadPhase);
    AloneStep(c, ClaimLoadPhase, fuel, e);
    if c.phase.ShuttingDown? {
      AloneStep(c, ClaimLoadRestart, fuel - 1, Effect(c, Some(ClaimSwap), None));
      AloneStep(c, ClaimSwap, fuel - 2, Atomic(c, ClaimSwap));
    } else if c.phase.Restarting? {
      AloneStep(c, ClaimSwap, fuel - 1, Atomic(c, ClaimSwap));
    }
  }

  /**
   Uninterrupted, the atomic operations of a method add up to the one-step method, report its answer and nothing
   else, and are no more than four.
   */
  lemma UninterruptedIsTheMethod(c: P.ExitState, op: P.Op, fuel: nat)
    requires fuel >= 4
    ensures Alone(c, Some(Entry(op)), fuel) == (P.Apply(c, op), None)
    ensures AloneLog(c, Some(Entry(op)), fuel) == Reported(c, op)
  {
    match op {
      case NormalExit(code) => NormalExitAlone(c, code, fuel);
      case RestartRequest =>
        var c' := c.(restartRequested := true);
        AloneStep(c, RestartStore, fuel, Effect(c', Some(RestartCas), Some(RestartStored)));
        AloneStep(c', RestartCas, fuel - 1,
                  Effect(P.RequestRestart(c).0, None, if c.phase.Running? then Some(RestartStarted) else None));
      case ClaimShutdown => ClaimShutdownAlone(c, fuel);
      case CleanupVerifiedOp =>
        var c' := c.(cleanupVerified := true);
        AloneStep(c, VerifiedStore, fuel, Effect(c', Some(VerifiedLoadPhase), Some(VerifiedStored)));
        AloneStep(c', VerifiedLoadPhase, fuel - 1, Effect(c', if c.phase.Fatal? then None else Some(VerifiedStorePhase), None));
        if !c.phase.Fatal? {
          AloneStep(c', VerifiedStorePhase, fuel - 2, Effect(c'.(phase := P.Complete), None, None));
        }
      case CleanupFailedOp => CleanupFailedAlone(c, fuel);
      case ClaimFatal => ClaimFatalAlone(c, fuel);
    }
  }

  /** A mode or a permission read without interruption is that of the state it was read in. */
  lemma UninterruptedReads(c: P.ExitState, fuel: nat)
    requires fuel >= 2
    ensures Alone(c, Some(ModeLoadPhase), fuel) == (c, None)
    ensures AloneLog(c, Some(ModeLoadPhase), fuel) == [ModeReturned(P.Mode(c))]
    ensures Alone(c, Some(AllowedLoadVerified), fuel) == (c, None)
    ensures AloneLog(c, Some(AllowedLoadVerified), fuel) == [AllowedReturned(P.IsExitAllowed(c))]
  {
    AloneStep(c, ModeLoadPhase, fuel, Atomic(c, ModeLoadPhase));
    if c.phase.ShuttingDown? {
      AloneStep(c, ModeLoadRestart, fuel - 1, Atomic(c, ModeLoadRestart));
    }
    AloneStep(c, AllowedLoadVerified, fuel, Atomic(c, AllowedLoadVerified));
    if c.cleanupVerified {
      AloneStep(c, AllowedLoadPhase, fuel - 1, Atomic(c, AllowedLoadPhase));
    }
  }

  datatype State = State(shared: P.ExitState, threads: map<Tid, Pc>, log: seq<Event>)

  /** A thread outside the coordinator enters a method, or a thread inside takes its next operation. */
  datatype Action = Call(t: Tid, op: P.Op) | CallMode(t: Tid) | CallAllowed(t: Tid) | Go(t: Tid)

  const INITIAL := State(P.INITIAL, map[], [])

  function Enter(s: State, t: Tid, pc: Pc): State {
    if t in s.threads then s else s.(threads := s.threads[t := pc])
  }

  /** The state after thread `t` took an operation with effect `e`. */
  function Moved(s: State, t: Tid, e: Effect): State {
    State(e.shared,
          if e.next.Some? then s.threads[t := e.next.value] else s.threads - {t},
          if e.event.Some? then s.log + [e.event.value] else s.log)
  }

  function Step(s: State, a: Action): State {
    match a
    case Call(t, op) => Enter(s, t, Entry(op))
    case CallMode(t) => Enter(s, t, ModeLoadPhase)
    case CallAllowed(t) => Enter(s, t, AllowedLoadVerified)
    case Go(t) =>
      if t !in s.threads then s
      else Moved(s, t, Atomic(s.shared, s.threads[t]))
  }

  function Exec(run: seq<Action>): State {
    if run == [] then INITIAL else Step(Exec(run[..|run| - 1]), run[|run| - 1])
  }

  ghost predicate Reachable(s: State) {
    exists run :: Exec(run) == s
  }

  lemma ReachStep(s: State, a: Action)
    requires Reachable(s)
    ensures Reachable(Step(s, a))
  {
    var run :| Exec(run) == s;
    assert (run + [a])[..|run|] == run;
    assert Exec(run + [a]) == Step(s, a);
  }

  // ----- counting claims against failed cleanups -----

  /** Threads that reported a failed cleanup but have not yet released the shutdown claim. */
  function Unreleased(threads: map<Tid, Pc>): set<Tid> {
    set t | t in threads && (threads[t].FailedLoadPhase? || threads[t].FailedStorePhase? || threads[t].FailedClearStarted?)
  }

  /** Threads that reported a failed cleanup and may still store the failed phase. */
  function Unstored(threads: map<Tid, Pc>): set<Tid> {
    set t | t in threads && (threads[t].FailedLoadPhase? || threads[t].FailedStorePhase?)
  }

  predicate OpenPhase(c: P.ExitState) {
    c.phase.Running? || c.phase.CleanupFailed?
  }

  predicate ClaimsBalance(s: State) {
    Count(s.log, ShutdownClaimed) + |Unreleased(s.threads)| <= Count(s.log, FailedCalled) + Bit(s.shared.shutdownStarted)
  }

  predicate ExitsBalance(s: State) {
    Count(s.log, ExitAccepted) + Bit(OpenPhase(s.shared)) + |Unstored(s.threads)| <= 1 + Count(s.log, FailedCalled)
  }

  predicate OneRestart(s: State) {
    Count(s.log, RestartStarted) + Bit(s.shared.phase.Running?) <= 1
  }

  predicate OneDialog(s: State) {
    Count(s.log, FatalClaimed) == Bit(s.shared.fatalDialogStarted)
  }

  /** A compare-exchange only ever expects a phase in which a normal exit may start. */
  predicate CasExpectsOpen(pc: Pc) {
    pc.ExitCas? ==> pc.seen.Running? || pc.seen.CleanupFailed?
  }

  predicate Counted(s: State) {
    && OneDialog(s) && OneRestart(s) && ClaimsBalance(s) && ExitsBalance(s)
    && forall t :: t in s.threads ==> CasExpectsOpen(s.threads[t])
  }

  /** Membership of a per-thread set after one thread moved on. */
  lemma SetMoves(before: set<Tid>, after: set<Tid>, t: Tid)
    requires forall u :: u != t ==> (u in before <==> u in after)
    ensures |after| == |before| - Bit(t in before) + Bit(t in after)
  {
    assert before - {t} == after - {t};
    assert t in before ==> before == (before - {t}) + {t};
    assert t in after ==> after == (after - {t}) + {t};
    assert t !in before ==> before == before - {t};
    assert t !in after ==> after == after - {t};
  }

  predicate Releasing(pc: Option<Pc>) {
    pc.Some? && (pc.value.FailedLoadPhase? || pc.value.FailedStorePhase? || pc.value.FailedClearStarted?)
  }

  predicate Storing(pc: Option<Pc>) {
    pc.Some? && (pc.value.FailedLoadPhase? || pc.value.FailedStorePhase?)
  }

  /** How one atomic operation moves the three balances. */
  lemma AtomicBalance(c: P.ExitState, pc: Pc)
    requires CasExpectsOpen(pc)
    ensures
      var e := Atomic(c, pc);
      && Bit(e.shared.fatalDialogStarted) == Bit(c.fatalDialogStarted) + Bit(e.event == Some(FatalClaimed))
      && Bit(e.event == Some(RestartStarted)) + Bit(e.shared.phase.Running?) <= Bit(c.phase.Running?)
      && Bit(e.event == Some(ShutdownClaimed)) + Bit(Releasing(e.next)) + Bit(c.shutdownStarted)
         <= Bit(e.event == Some(FailedCalled)) + Bit(Releasing(Some(pc))) + Bit(e.shared.shutdownStarted)
      && Bit(e.event == Some(ExitAccepted)) + Bit(Storing(e.next)) + Bit(OpenPhase(e.shared))
         <= Bit(e.event == Some(FailedCalled)) + Bit(Storing(Some(pc))) + Bit(OpenPhase(c))
      && (e.next.Some? ==> CasExpectsOpen(e.next.value))
  {
  }

  lemma OneDialogMove(s: State, t: Tid, e: Effect)
    requires OneDialog(s)
    requires Bit(e.shared.fatalDialogStarted) == Bit(s.shared.fatalDialogStarted) + Bit(e.event == Some(FatalClaimed))
    ensures OneDialog(Moved(s, t, e))
  {
    if e.event.Some? {
      CountAppend(s.log, e.event.value, FatalClaimed);
    }
  }

  lemma OneRestartMove(s: State, t: Tid, e: Effect)
    requires OneRestart(s)
    requires Bit(e.event == Some(RestartStarted)) + Bit(e.shared.phase.Running?) <= Bit(s.shared.phase.Running?)
    ensures OneRestart(Moved(s, t, e))
  {
    if e.event.Some? {
      CountAppend(s.log, e.event.value, RestartStarted);
    }
  }

  lemma ClaimsMove(s: State, t: Tid, e: Effect)
    requires ClaimsBalance(s) && t in s.threads
    requires Bit(e.event == Some(ShutdownClaimed)) + Bit(Releasing(e.next)) + Bit(s.shared.shutdownStarted)
          <= Bit(e.event == Some(FailedCalled)) + Bit(Releasing(Some(s.threads[t]))) + Bit(e.shared.shutdownStarted)
    ensures ClaimsBalance(Moved(s, t, e))
  {
    SetMoves(Unreleased(s.threads), Unreleased(Moved(s, t, e).threads), t);
    if e.event.Some? {
      CountAppend(s.log, e.event.value, ShutdownClaimed);
      CountAppend(s.log, e.event.value, FailedCalled);
    }
  }

  lemma ExitsMove(s: State, t: Tid, e: Effect)
    requires ExitsBalance(s) && t in s.threads
    requires Bit(e.event == Some(ExitAccepted)) + Bit(Storing(e.next)) + Bit(OpenPhase(e.shared))
          <= Bit(e.event == Some(FailedCalled)) + Bit(Storing(Some(s.threads[t]))) + Bit(OpenPhase(s.shared))
    ensures ExitsBalance(Moved(s, t, e))
  {
    SetMoves(Unstored(s.threads), Unstored(Moved(s, t, e).threads), t);
    if e.event.Some? {
      CountAppend(s.log, e.event.value, ExitAccepted);
      CountAppend(s.log, e.event.value, FailedCalled);
    }
  }

  lemma CountedStep(s: State, a: Action)
    requires Counted(s)
    ensures Counted(Step(s, a))
  {
    if a.Go? && a.t in s.threads {
      AtomicBalance(s.shared, s.threads[a.t]);
      var e := Atomic(s.shared, s.threads[a.t]);
      OneDialogMove(s, a.t, e);
      OneRestartMove(s, a.t, e);
      ClaimsMove(s, a.t, e);
      ExitsMove(s, a.t, e);
    } else {
      assert Unreleased(Step(s, a).threads) == Unreleased(s.threads);
      assert Unstored(Step(s, a).threads) == Unstored(s.threads);
    }
  }

  lemma {:induction false} ExecCounted(run: seq<Action>)
    ensures Counted(Exec(run))
  {
    if run != [] {
      ExecCounted(run[..|run| - 1]);
      CountedStep(Exec(run[..|run| - 1]), run[|run| - 1]);
    }
  }

  /**
   Under every interleaving: the fatal dialog is claimed and a restart is started at most once, and shutdown claims and
   accepted normal exits each number at most one more than the failed-cleanup reports.
   */
  lemma ClaimsAreBounded(run: seq<Action>)
    ensures Count(Exec(run).log, FatalClaimed) <= 1 && Count(Exec(run).log, RestartStarted) <= 1
    ensures Count(Exec(run).log, ShutdownClaimed) <= 1 + Count(Exec(run).log, FailedCalled)
    ensures Count(Exec(run).log, ExitAccepted) <= 1 + Count(Exec(run).log, FailedCalled)
  {
    ExecCounted(run);
  }

  // ----- order of events -----

  ghost predicate Ordered(s: State) {
    && (s.shared.restartRequested <==> RestartStored in s.log)
    && (s.shared.cleanupVerified ==> VerifiedStored in s.log)
    && (forall t :: t in s.threads && (s.threads[t].AllowedLoadPhase? || s.threads[t].FatalSwap?) ==> VerifiedStored in s.log)
    && (forall t :: t in s.threads && s.threads[t].RestartCas? ==> s.shared.restartRequested)
    && forall k :: 0 <= k < |s.log| ==> WellOrdered(s.log, k)
  }

  /** What the k-th event says about the events before it. */
  ghost predicate WellOrdered(log: seq<Event>, k: nat)
    requires k < |log|
  {
    && (log[k] == ModeReturned(Some(P.Normal)) ==> RestartStored !in log[..k])
    && (log[k] == AllowedReturned(true) ==> VerifiedStored in log[..k])
    && (log[k] == FatalClaimed ==> VerifiedStored in log[..k])
    && (log[k] == RestartStarted ==> RestartStored in log[..k])
  }

  lemma AtomicOrder(c: P.ExitState, pc: Pc)
    ensures
      var e := Atomic(c, pc);
      && (e.shared.restartRequested <==> c.restartRequested || e.event == Some(RestartStored))
      && (e.shared.cleanupVerified ==> c.cleanupVerified || e.event == Some(VerifiedStored))
      && (e.event == Some(ModeReturned(Some(P.Normal))) ==> !c.restartRequested)
      && (e.event == Some(AllowedReturned(true)) ==> pc.AllowedLoadPhase?)
      && (e.event == Some(FatalClaimed) ==> pc.FatalSwap?)
      && (e.event == Some(RestartStarted) ==> pc.RestartCas?)
      && (e.next == Some(RestartCas) ==> e.shared.restartRequested)
      && (e.next.Some? && (e.next.value.AllowedLoadPhase? || e.next.value.FatalSwap?) ==> c.cleanupVerified)
  {
  }

  lemma OrderedStep(s: State, a: Action)
    requires Ordered(s)
    ensures Ordered(Step(s, a))
  {
    if a.Go? && a.t in s.threads {
      AtomicOrder(s.shared, s.threads[a.t]);
      OrderedMove(s, a.t, Atomic(s.shared, s.threads[a.t]));
    }
  }

  lemma OrderedMove(s: State, t: Tid, e: Effect)
    requires Ordered(s) && t in s.threads
    requires e.shared.restartRequested <==> s.shared.restartRequested || e.event == Some(RestartStored)
    requires e.shared.cleanupVerified ==> s.shared.cleanupVerified || e.event == Some(VerifiedStored)
    requires e.event == Some(ModeReturned(Some(P.Normal))) ==> !s.shared.restartRequested
    requires e.event == Some(AllowedReturned(true)) ==> s.threads[t].AllowedLoadPhase?
    requires e.event == Some(FatalClaimed) ==> s.threads[t].FatalSwap?
    requires e.event == Some(RestartStarted) ==> s.threads[t].RestartCas?
    requires e.next == Some(RestartCas) ==> e.shared.restartRequested
    requires e.next.Some? && (e.next.value.AllowedLoadPhase? || e.next.value.FatalSwap?) ==> s.shared.cleanupVerified
    ensures Ordered(Moved(s, t, e))
  {
    var s' := Moved(s, t, e);
    forall k | 0 <= k < |s'.log| ensures WellOrdered(s'.log, k) {
      if k < |s.log| {
        assert s'.log[..k] == s.log[..k];
        assert WellOrdered(s.log, k);
      } else {
        assert s'.log[..k] == s.log;
      }
    }
  }

  /**
   Under every interleaving: no shutdown mode read after a restart was requested is Normal, and neither
   an allowed exit nor a fatal claim comes before some verified cleanup.
   */
  lemma {:induction false} EventsAreOrdered(run: seq<Action>)
    ensures Ordered(Exec(run))
  {
    if run != [] {
      EventsAreOrdered(run[..|run| - 1]);
      OrderedStep(Exec(run[..|run| - 1]), run[|run| - 1]);
    }
  }

  // ----- what does not survive interleaving -----

  /** A thread that decided on a phase store before the phase became fatal. */
  predicate StalePhaseStore(s: State, a: Action) {
    a.Go? && a.t in s.threads && (s.threads[a.t].VerifiedStorePhase? || s.threads[a.t].FailedStorePhase?)
  }

  lemma FatalStore(c: P.ExitState, pc: Pc)
    requires c.phase.Fatal?
    requires CasExpectsOpen(pc)
    ensures !Atomic(c, pc).shared.phase.Fatal? <==> pc.VerifiedStorePhase? || pc.FailedStorePhase?
  {
  }

  /** Exactly which steps take the coordinator out of the fatal phase. */
  lemma FatalIsLeftExactlyByStaleStores(run: seq<Action>, a: Action)
    requires Exec(run).shared.phase.Fatal?
    ensures !Step(Exec(run), a).shared.phase.Fatal? <==> StalePhaseStore(Exec(run), a)
  {
    var s := Exec(run);
    ExecCounted(run);
    if a.Go? && a.t in s.threads {
      FatalStore(s.shared, s.threads[a.t]);
    }
  }

  /** Nobody is about to store a phase other than through a compare-exchange. */
  predicate NoPhaseStorePending(threads: map<Tid, Pc>) {
    forall t :: t in threads ==> !IsPhaseStore(threads[t])
  }

  predicate IsPhaseStore(pc: Pc) {
    pc.VerifiedStorePhase? || pc.FailedStorePhase?
  }

  /** Whoever looks at a fatal phase decides against storing another. */
  lemma FatalAtomic(c: P.ExitState, pc: Pc)
    requires c.phase.Fatal? && CasExpectsOpen(pc) && !IsPhaseStore(pc)
    ensures Atomic(c, pc).shared.phase.Fatal?
    ensures Atomic(c, pc).next.Some? ==> !IsPhaseStore(Atomic(c, pc).next.value)
  {
  }

  lemma FatalStepKeeps(s: State, a: Action)
    requires Counted(s) && s.shared.phase.Fatal? && NoPhaseStorePending(s.threads)
    ensures Step(s, a).shared.phase.Fatal? && NoPhaseStorePending(Step(s, a).threads)
  {
    if a.Go? && a.t in s.threads {
      FatalAtomic(s.shared, s.threads[a.t]);
    }
  }

  lemma ExecOneMore(run: seq<Action>, a: Action)
    ensures Exec(run + [a]) == Step(Exec(run), a)
  {
    assert (run + [a])[..|run|] == run;
  }

  lemma {:induction false} FatalStays(run: seq<Action>, later: seq<Action>)
    requires Exec(run).shared.phase.Fatal? && NoPhaseStorePending(Exec(run).threads)
    ensures Exec(run + later).shared.phase.Fatal? && NoPhaseStorePending(Exec(run + later).threads)
  {
    if later == [] {
      assert run + later == run;
    } else {
      var init, last := later[..|later| - 1], later[|later| - 1];
      FatalStays(run, init);
      ExecCounted(run + init);
      FatalStepKeeps(Exec(run + init), last);
      ExecOneMore(run + init, last);
      assert run + later == (run + init) + [last];
    }
  }

  /**
   A fatal coordinator is fatal for ever, whatever any threads do next, exactly when at this moment no thread inside a
   cleanup report has already decided to store a phase. Threads that look at the phase from now on cannot leave it.
   */
  lemma FatalIsForEverExactly(run: seq<Action>)
    requires Exec(run).shared.phase.Fatal?
    ensures (forall later :: Exec(run + later).shared.phase.Fatal?) <==> NoPhaseStorePending(Exec(run).threads)
  {
    var s := Exec(run);
    if NoPhaseStorePending(s.threads) {
      forall later ensures Exec(run + later).shared.phase.Fatal? {
        FatalStays(run, later);
      }
    } else {
      var t :| t in s.threads && IsPhaseStore(s.threads[t]);
      ExecOneMore(run, Go(t));
      assert !Exec(run + [Go(t)]).shared.phase.Fatal?;
    }
  }

  // ----- when a verified cleanup allows the exit -----

  predicate Verifying(threads: map<Tid, Pc>) {
    exists t :: t in threads && (threads[t].VerifiedLoadPhase? || threads[t].VerifiedStorePhase?)
  }

  /** A verified cleanup shows in the phase, or a thread is about to make it show. */
  predicate Settled(s: State) {
    s.shared.cleanupVerified ==> s.shared.phase.Complete? || s.shared.phase.Fatal? || Verifying(s.threads)
  }

  /** A failed cleanup's late phase store after another thread's verified cleanup has finished. */
  predicate Overwrites(s: State, a: Action) {
    && a.Go? && a.t in s.threads && s.threads[a.t].FailedStorePhase?
    && s.shared.cleanupVerified && !Verifying(s.threads)
  }

  /** What one operation does to the phase and to the thread's own place in a verified report. */
  lemma AtomicSettles(c: P.ExitState, pc: Pc)
    requires CasExpectsOpen(pc)
    ensures
      var e := Atomic(c, pc);
      && (!c.cleanupVerified && e.shared.cleanupVerified ==> e.next == Some(VerifiedLoadPhase))
      && (pc.VerifiedLoadPhase? ==> e.next == Some(VerifiedStorePhase) || c.phase.Fatal?)
      && (pc.VerifiedStorePhase? ==> e.shared.phase.Complete?)
      && ((c.phase.Complete? || c.phase.Fatal?) && !pc.FailedStorePhase? ==> e.shared.phase.Complete? || e.shared.phase.Fatal?)
      && (pc.FailedStorePhase? ==> e.shared == c.(phase := P.CleanupFailed) && e.next == Some(FailedClearStarted))
  {
  }

  lemma OthersKeepVerifying(s: State, t: Tid, e: Effect)
    requires t in s.threads
    requires Verifying(s.threads) && !s.threads[t].VerifiedLoadPhase? && !s.threads[t].VerifiedStorePhase?
    ensures Verifying(Moved(s, t, e).threads)
  {
    var u :| u in s.threads && (s.threads[u].VerifiedLoadPhase? || s.threads[u].VerifiedStorePhase?);
    assert Moved(s, t, e).threads[u] == s.threads[u];
  }

  /** Exactly which step parts a verified cleanup from its phase. */
  lemma UnsettledExactlyByOverwriting(s: State, a: Action)
    requires Counted(s) && Settled(s)
    ensures !Settled(Step(s, a)) <==> Overwrites(s, a)
  {
    if a.Go? && a.t in s.threads {
      var pc := s.threads[a.t];
      var e := Atomic(s.shared, pc);
      var s' := Moved(s, a.t, e);
      AtomicSettles(s.shared, pc);
      if e.next == Some(VerifiedLoadPhase) || e.next == Some(VerifiedStorePhase) {
        assert a.t in s'.threads && s'.threads[a.t] == e.next.value;
      } else if Verifying(s.threads) && !pc.VerifiedLoadPhase? && !pc.VerifiedStorePhase? {
        OthersKeepVerifying(s, a.t, e);
      }
    } else if Verifying(s.threads) {
      var u :| u in s.threads && (s.threads[u].VerifiedLoadPhase? || s.threads[u].VerifiedStorePhase?);
      assert Step(s, a).threads[u] == s.threads[u];
    }
  }

  ghost predicate NeverOverwrites(run: seq<Action>) {
    forall k :: 0 <= k < |run| ==> !Overwrites(Exec(run[..k]), run[k])
  }

  ghost predicate AlwaysSettled(run: seq<Action>) {
    forall k :: 0 <= k <= |run| ==> Settled(Exec(run[..k]))
  }

  lemma PrefixesSettled(run: seq<Action>, last: Action)
    requires AlwaysSettled(run) && Settled(Exec(run + [last]))
    ensures AlwaysSettled(run + [last])
  {
    forall k | 0 <= k <= |run| + 1 ensures Settled(Exec((run + [last])[..k])) {
      if k <= |run| {
        assert (run + [last])[..k] == run[..k];
      } else {
        assert (run + [last])[..k] == run + [last];
      }
    }
  }

  lemma PrefixNeverOverwrites(run: seq<Action>, last: Action)
    requires NeverOverwrites(run + [last])
    ensures NeverOverwrites(run) && !Overwrites(Exec(run), last)
  {
    forall k | 0 <= k < |run| ensures !Overwrites(Exec(run[..k]), run[k]) {
      assert (run + [last])[..k] == run[..k] && (run + [last])[k] == run[k];
    }
    assert (run + [last])[..|run|] == run && (run + [last])[|run|] == last;
  }

  lemma {:induction false} SettledThroughout(run: seq<Action>)
    requires NeverOverwrites(run)
    ensures AlwaysSettled(run)
  {
    if run == [] {
      assert forall k :: 0 <= k <= |run| ==> run[..k] == [];
    } else {
      var init, last := run[..|run| - 1], run[|run| - 1];
      assert run == init + [last];
      PrefixNeverOverwrites(init, last);
      SettledThroughout(init);
      assert init[..|init|] == init;
      ExecCounted(init);
      UnsettledExactlyByOverwriting(Exec(init), last);
      ExecOneMore(init, last);
      PrefixesSettled(init, last);
    }
  }

  lemma OverwritingUnsettles(run: seq<Action>, k: nat)
    requires AlwaysSettled(run) && k < |run|
    ensures !Overwrites(Exec(run[..k]), run[k])
  {
    ExecCounted(run[..k]);
    assert run[..k + 1][..k] == run[..k];
    assert Exec(run[..k + 1]) == Step(Exec(run[..k]), run[k]);
    UnsettledExactlyByOverwriting(Exec(run[..k]), run[k]);
  }

  /** A verified cleanup is settled at every moment of a run exactly when no late store overwrites one. */
  lemma AlwaysSettledExactly(run: seq<Action>)
    ensures AlwaysSettled(run) <==> NeverOverwrites(run)
  {
    if NeverOverwrites(run) {
      SettledThroughout(run);
    } else if AlwaysSettled(run) {
      forall k | 0 <= k < |run| ensures !Overwrites(Exec(run[..k]), run[k]) {
        OverwritingUnsettles(run, k);
      }
    }
  }

  /** In such a run, whenever no cleanup report is half way, an exit is allowed exactly when a cleanup is verified. */
  lemma ExitAllowedIsCleanupVerified(run: seq<Action>)
    requires NeverOverwrites(run) && !Verifying(Exec(run).threads)
    ensures P.IsExitAllowed(Exec(run).shared) <==> Exec(run).shared.cleanupVerified
  {
    SettledThroughout(run);
    assert run[..|run|] == run;
  }

  // ----- reaching a state -----

  /** `holds` is any property that every reachable state has, such as being reachable. */
  ghost predicate Stable(holds: State -> bool) {
    holds(INITIAL) && forall s, a :: holds(s) ==> holds(Step(s, a))
  }

  lemma Entered(holds: State -> bool, s: State, t: Tid, op: P.Op) returns (s': State)
    requires Stable(holds) && holds(s) && t !in s.threads
    ensures holds(s') && s'.shared == s.shared && s'.threads == s.threads[t := Entry(op)] && s'.log == s.log
  {
    s' := Step(s, Call(t, op));
  }

  lemma Went(holds: State -> bool, s: State, t: Tid, e: Effect) returns (s': State)
    requires Stable(holds) && holds(s) && t in s.threads && e == Atomic(s.shared, s.threads[t])
    ensures holds(s') && s'.shared == e.shared && s'.log == s.log + Events(e)
    ensures s'.threads == if e.next.Some? then s.threads[t := e.next.value] else s.threads - {t}
  {
    s' := Step(s, Go(t));
    assert s.log + [] == s.log;
  }

  /** A thread inside a method runs on alone until it returns; the others keep their places. */
  lemma Finish(holds: State -> bool, s: State, t: Tid, fuel: nat) returns (s': State)
    requires Stable(holds) && holds(s) && t in s.threads
    requires Alone(s.shared, Some(s.threads[t]), fuel).1.None?
    ensures holds(s') && s'.shared == Alone(s.shared, Some(s.threads[t]), fuel).0
    ensures s'.threads == s.threads - {t} && s'.log == s.log + AloneLog(s.shared, Some(s.threads[t]), fuel)
    decreases fuel
  {
    var e := Atomic(s.shared, s.threads[t]);
    s' := Went(holds, s, t, e);
    if e.next.Some? {
      s' := Finish(holds, s', t, fuel - 1);
      assert s'.threads == s.threads - {t};
    }
  }

  /** Among any number of threads, one more can always carry out a whole method, effect and answer as in one step. */
  lemma WholeCall(holds: State -> bool, s: State, t: Tid, op: P.Op) returns (s': State)
    requires Stable(holds) && holds(s) && t !in s.threads
    ensures holds(s') && s'.shared == P.Apply(s.shared, op) && s'.threads == s.threads
    ensures s'.log == s.log + Reported(s.shared, op)
  {
    var entered := Entered(holds, s, t, op);
    UninterruptedIsTheMethod(s.shared, op, 4);
    s' := Finish(holds, entered, t, 4);
    assert s'.threads == s.threads;
  }

  lemma LeaveFatal(holds: State -> bool) returns (s: State, t: Tid)
    requires Stable(holds)
    ensures holds(s) && s.shared.phase.Fatal? && t in s.threads && s.threads[t] == VerifiedStorePhase
  {
    var c := P.INITIAL.(cleanupVerified := true);
    t := 0;
    s := Entered(holds, INITIAL, t, P.CleanupVerifiedOp);
    s := Went(holds, s, t, Effect(c, Some(VerifiedLoadPhase), Some(VerifiedStored)));
    s := Went(holds, s, t, Effect(c, Some(VerifiedStorePhase), None));
    s := WholeCall(holds, s, 1, P.ClaimFatal);
  }

  lemma ReachableIsStable()
    ensures Stable(s => Reachable(s))
  {
    assert Exec([]) == INITIAL;
    forall s, a | Reachable(s) ensures Reachable(Step(s, a)) { ReachStep(s, a); }
  }

  /** Such a step is reachable: a second verifier reads the phase just before the fatal claim stores it. */
  lemma FatalCanBeLeft() returns (s: State, t: Tid)
    ensures Reachable(s) && s.shared.phase.Fatal? && !Step(s, Go(t)).shared.phase.Fatal?
  {
    ReachableIsStable();
    s, t := LeaveFatal(s => Reachable(s));
  }

  lemma ParkedFailure(holds: State -> bool) returns (s: State)
    requires Stable(holds)
    ensures holds(s) && s.threads == map[0 := FailedStorePhase] && s.shared == P.INITIAL
  {
    s := Entered(holds, INITIAL, 0, P.CleanupFailedOp);
    s := Went(holds, s, 0, Effect(P.INITIAL, Some(FailedLoadPhase), Some(FailedCalled)));
    s := Went(holds, s, 0, Effect(P.INITIAL, Some(FailedStorePhase), None));
  }

  lemma VerifyInsideFailure(holds: State -> bool) returns (s: State)
    requires Stable(holds)
    ensures holds(s) && s.threads == map[] && s.shared.cleanupVerified && s.shared.phase.CleanupFailed?
  {
    s := ParkedFailure(holds);
    s := WholeCall(holds, s, 1, P.CleanupVerifiedOp);
    var c := P.INITIAL.(cleanupVerified := true, phase := P.CleanupFailed);
    s := Went(holds, s, 0, Effect(c, Some(FailedClearStarted), None));
    s := Went(holds, s, 0, Effect(c, None, None));
    assert s.threads.Keys == {};
  }

  /** With nobody inside a method, cleanup can be verified although the phase says it failed. */
  lemma VerifiedAndFailedCanMeet() returns (s: State)
    ensures Reachable(s) && s.threads == map[]
    ensures s.shared.cleanupVerified && s.shared.phase.CleanupFailed? && !P.IsExitAllowed(s.shared)
  {
    ReachableIsStable();
    s := VerifyInsideFailure(s => Reachable(s));
  }
}
