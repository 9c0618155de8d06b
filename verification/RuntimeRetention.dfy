/**
 Who owns the backend runtime when the backend thread ends (apps/desktop/src/main.rs:1582-1642,
 2514-2567, 3322-3388): dropped only after a clean run or a successful cleanup, and otherwise held by
 exactly one retained owner.
 */
module RuntimeRetention {
  import opened Prelude
  import opened ExitCoordination
  import E = ExitProtocol
  import B = BackendProtocol

  datatype StartupCleanup =
    | NotStarted
    | StartingUnverified
    | FailedVerified
    | RetainedKeepAlive(keepAlive: nat)
    | Server(server: B.Server)

  /** How a fallible native call ends. */
  datatype Outcome = Ok | Err | Panic

  datatype BackendRun = Clean | Failed | Panicked

  /** Cleanup as far as the shell knows it; `native` is how the cleanup owner's own shutdown ends. */
  function CleanupOutcome(c: StartupCleanup, native: Outcome): Outcome {
    match c
    case NotStarted => Ok
    case FailedVerified => Ok
    case StartingUnverified => Err
    case RetainedKeepAlive(_) => native
    case Server(_) => native
  }

  /** What the backend thread goes on to do. */
  datatype Next = Return | ShowFatal | RetryServer(server: B.Server) | RetryStartup(authority: Authority) | HoldRestart

  function Held(authority: Option<Authority>, runtime: Runtime): nat {
    if authority.Some? && authority.value.runtime == runtime then 1 else 0
  }

  class BackendThread {
    const coord: ExitCoordinator
    var startupCleanup: StartupCleanup

    constructor (coord: ExitCoordinator)
      ensures this.coord == coord && startupCleanup == NotStarted
    {
      this.coord, startupCleanup := coord, NotStarted;
    }

    /** How many owners the coordinator has for a runtime. */
    function Owners(runtime: Runtime): nat
      reads coord
    {
      Count(coord.retainedBackendRuntimes, runtime) + Held(coord.retainedStartupCleanup, runtime)
    }

    /** The closure that `finish_backend_runtime` calls after a failed run. */
    method Cleanup(native: Outcome) returns (outcome: Outcome)
      modifies this, coord`backend
      ensures old(coord.Valid()) ==> coord.Valid()
      ensures outcome.Ok? <==>
        || old(startupCleanup).NotStarted? || old(startupCleanup).FailedVerified?
        || ((old(startupCleanup).Server? || old(startupCleanup).RetainedKeepAlive?) && native.Ok?)
      ensures outcome.Panic? <==> (old(startupCleanup).Server? || old(startupCleanup).RetainedKeepAlive?) && native.Panic?
      ensures startupCleanup == if outcome.Ok? then FailedVerified else old(startupCleanup)
      ensures coord.backend == if old(startupCleanup).Server?
                               then B.Apply(old(coord.backend), B.CleanupPending(old(startupCleanup).server))
                               else old(coord.backend)
    {
      if startupCleanup.Server? {
        coord.UpdateBackend(B.CleanupPending(startupCleanup.server));
      }
      outcome := CleanupOutcome(startupCleanup, native);
      if outcome.Ok? {
        startupCleanup := FailedVerified;
      }
    }

    /** Hand the runtime to the owner that goes on with it. */
    method Retain(runtime: Runtime, freshId: nat) returns (next: Next)
      modifies coord`backend, coord`retainedBackendRuntimes, coord`retainedStartupCleanup
      ensures coord.Exit() == old(coord.Exit())
      ensures !B.Open(coord.backend)
      ensures old(Owners(runtime)) == 0 ==> Owners(runtime) == 1
      ensures match startupCleanup
        case Server(s) => next == RetryServer(s)
        case RetainedKeepAlive(k) => next == RetryStartup(Authority(freshId, k, runtime))
        case _ => next == HoldRestart
      ensures next.RetryServer? ==> coord.retainedBackendRuntimes == old(coord.retainedBackendRuntimes) + [runtime]
      ensures next.RetryStartup? ==>
        && coord.retainedStartupCleanup == Some(next.authority)
        && coord.retainedBackendRuntimes == old(coord.retainedBackendRuntimes)
    {
      CountAppend(coord.retainedBackendRuntimes, runtime, runtime);
      if startupCleanup.Server? {
        coord.UpdateBackend(B.MarkFailedRetained(startupCleanup.server));
        coord.RetainBackendRuntime(runtime);
        next := RetryServer(startupCleanup.server);
      } else if startupCleanup.RetainedKeepAlive? {
        var authority := Authority(freshId, startupCleanup.keepAlive, runtime);
        coord.RetainStartupCleanupAuthority(authority);
        coord.UpdateBackend(B.MarkFailedUnverified);
        next := RetryStartup(authority);
      } else {
        coord.RetainBackendRuntime(runtime);
        coord.UpdateBackend(B.MarkFailedUnverified);
        next := HoldRestart;
      }
    }

    /** The end of the backend thread: `dropped` says whether the runtime is gone. */
    method Finish(run: BackendRun, runtime: Runtime, native: Outcome, freshId: nat) returns (dropped: bool, next: Next)
      modifies this, coord
      ensures old(coord.Valid()) ==> coord.Valid()
      ensures dropped <==>
        || run.Clean? || old(startupCleanup).NotStarted? || old(startupCleanup).FailedVerified?
        || ((old(startupCleanup).Server? || old(startupCleanup).RetainedKeepAlive?) && native.Ok?)
      ensures dropped ==>
        && coord.retainedBackendRuntimes == old(coord.retainedBackendRuntimes)
        && coord.retainedStartupCleanup == old(coord.retainedStartupCleanup)
      ensures !dropped && old(Owners(runtime)) == 0 ==> Owners(runtime) == 1
      ensures run.Clean? ==> next == Return && coord.Exit() == old(coord.Exit()) && coord.backend == old(coord.backend)
      ensures !run.Clean? && dropped ==>
        && next == ShowFatal && startupCleanup == FailedVerified
        && coord.Exit() == E.MarkCleanupVerified(old(coord.Exit()))
        && (coord.backend.FailedVerified? || coord.backend.StoppedVerified?)
      ensures !dropped ==>
        && coord.Exit() == E.MarkCleanupFailed(old(coord.Exit()))
        && !coord.cleanupVerified && !B.Open(coord.backend)
      ensures !dropped ==>
        match old(startupCleanup)
        case Server(s) => next == RetryServer(s)
        case RetainedKeepAlive(k) => next == RetryStartup(Authority(freshId, k, runtime))
        case _ => next == HoldRestart
      ensures next.RetryServer? ==> coord.retainedBackendRuntimes == old(coord.retainedBackendRuntimes) + [runtime]
      ensures next.RetryStartup? ==>
        && coord.retainedStartupCleanup == Some(next.authority)
        && coord.retainedBackendRuntimes == old(coord.retainedBackendRuntimes)
    {
      if run.Clean? {
        return true, Return;
      }
      var outcome := Cleanup(native);
      if outcome.Ok? {
        coord.MarkCleanupVerified();
        coord.UpdateBackend(B.MarkFailedVerified);
        return true, ShowFatal;
      }
      coord.MarkCleanupFailed();
      dropped := false;
      next := Retain(runtime, freshId);
    }
  }
}

/**
 The retained startup-cleanup authority used by any number of concurrent callers, one step per atomic
 load, lock, shutdown, store and unlock (apps/desktop/src/main.rs:1546-1580).
 */
module StartupAuthority {
  import opened Prelude
  import opened RuntimeRetention

  type Tid = nat

  datatype Pc = CheckBefore | AcquireGate | CheckInside | Shutdown | StoreVerified | ReleaseGate

  datatype Event = ShutdownSucceeded | ShutdownFailed | ReturnedOk(t: Tid)

  datatype State = State(verified: bool, gate: Option<Tid>, threads: map<Tid, Pc>, log: seq<Event>)

  /** A call of `cleanup` by thread `t`, or its next step; `native` is used when that step is the shutdown itself. */
  datatype Action = Call(t: Tid) | Go(t: Tid, native: Outcome)

  const INITIAL := State(false, None, map[], [])

  function Return(s: State, t: Tid, events: seq<Event>): State {
    s.(threads := s.threads - {t}, log := s.log + events)
  }

  function Goto(s: State, t: Tid, pc: Pc): State {
    s.(threads := s.threads[t := pc])
  }

  function Go1(s: State, t: Tid, native: Outcome): State
    requires t in s.threads
  {
    match s.threads[t]
    case CheckBefore => if s.verified then Return(s, t, [ReturnedOk(t)]) else Goto(s, t, AcquireGate)
    case AcquireGate => if s.gate.Some? then s else Goto(s.(gate := Some(t)), t, CheckInside)
    case CheckInside => Goto(s, t, if s.verified then ReleaseGate else Shutdown)
    case Shutdown =>
      if native.Ok? then Goto(s.(log := s.log + [ShutdownSucceeded]), t, StoreVerified)
      else Return(s.(gate := None), t, [ShutdownFailed])
    case StoreVerified => Goto(s.(verified := true), t, ReleaseGate)
    case ReleaseGate => Return(s.(gate := None), t, [ReturnedOk(t)])
  }

  function Step(s: State, a: Action): State {
    match a
    case Call(t) => if t in s.threads then s else Goto(s, t, CheckBefore)
    case Go(t, native) => if t in s.threads then Go1(s, t, native) else s
  }

  function Exec(run: seq<Action>): State {
    if run == [] then INITIAL else Step(Exec(run[..|run| - 1]), run[|run| - 1])
  }

  predicate Inside(pc: Pc) {
    !pc.CheckBefore? && !pc.AcquireGate?
  }

  /** The gate holder has shut down but not yet recorded it. */
  predicate Storing(s: State) {
    s.gate.Some? && s.gate.value in s.threads && s.threads[s.gate.value].StoreVerified?
  }

  /** The gate is held by exactly the caller inside it, and what that caller knows of `verified` is true. */
  predicate GateOk(s: State) {
    && (forall t :: t in s.threads && Inside(s.threads[t]) ==> s.gate == Some(t))
    && (s.gate.Some? ==> s.gate.value in s.threads && Inside(s.threads[s.gate.value]))
    && (Storing(s) ==> !s.verified)
    && (forall t :: t in s.threads && s.threads[t].Shutdown? ==> !s.verified)
    && (forall t :: t in s.threads && s.threads[t].ReleaseGate? ==> s.verified)
  }

  ghost predicate Inv(s: State) {
    && GateOk(s)
    && Count(s.log, ShutdownSucceeded) == (if s.verified || Storing(s) then 1 else 0)
    && forall k :: 0 <= k < |s.log| ==> Justified(s.log, k)
  }

  /** An Ok return follows the one successful shutdown; a failed one precedes it. */
  ghost predicate Justified(log: seq<Event>, k: nat)
    requires k < |log|
  {
    && (log[k].ReturnedOk? ==> ShutdownSucceeded in log[..k])
    && (log[k].ShutdownFailed? ==> ShutdownSucceeded !in log[..k])
  }

  lemma LogGrows(s: State, s': State)
    requires forall k :: 0 <= k < |s.log| ==> Justified(s.log, k)
    requires s'.log == s.log || (|s'.log| == |s.log| + 1 && s'.log[..|s.log|] == s.log && Justified(s'.log, |s.log|))
    ensures forall k :: 0 <= k < |s'.log| ==> Justified(s'.log, k)
  {
    forall k | 0 <= k < |s'.log| ensures Justified(s'.log, k) {
      if k < |s.log| {
        assert s'.log[..k] == s.log[..k];
        assert Justified(s.log, k);
      }
    }
  }

  lemma GateStep(s: State, a: Action)
    requires GateOk(s)
    ensures GateOk(Step(s, a))
  {}

  lemma InvStep(s: State, a: Action)
    requires Inv(s)
    ensures Inv(Step(s, a))
  {
    var s' := Step(s, a);
    GateStep(s, a);
    CountWitness(s.log, ShutdownSucceeded);
    if |s'.log| > |s.log| {
      var e := s'.log[|s.log|];
      assert s'.log == s.log + [e];
      CountAppend(s.log, e, ShutdownSucceeded);
    }
    LogGrows(s, s');
  }

  /**
   For any number of concurrent callers: the shutdown succeeds at most once, every Ok return comes after
   that success, and no attempt is made once it happened.
   */
  lemma {:induction false} ShutdownSucceedsAtMostOnce(run: seq<Action>)
    ensures Inv(Exec(run))
    ensures Count(Exec(run).log, ShutdownSucceeded) <= 1
    ensures forall k :: 0 <= k < |Exec(run).log| ==> Justified(Exec(run).log, k)
  {
    if run != [] {
      ShutdownSucceedsAtMostOnce(run[..|run| - 1]);
      InvStep(Exec(run[..|run| - 1]), run[|run| - 1]);
    }
  }

  /** `n` steps of one caller. */
  function Goes(s: State, t: Tid, native: Outcome, n: nat): State
    decreases n
  {
    if n == 0 then s else Goes(Step(s, Go(t, native)), t, native, n - 1)
  }

  lemma GoesOn(s: State, t: Tid, native: Outcome, n: nat, next: State)
    requires n > 0 && next == Step(s, Go(t, native))
    ensures Goes(s, t, native, n) == Goes(next, t, native, n - 1)
  {
  }

  lemma {:induction false} GoesNowhere(s: State, t: Tid, native: Outcome, n: nat)
    requires t !in s.threads
    ensures Goes(s, t, native, n) == s
  {
    if n > 0 {
      GoesNowhere(s, t, native, n - 1);
    }
  }

  /**
   A caller that meets nobody inside ends within six steps, Ok without an attempt once a shutdown succeeded, and otherwise
   as its own attempt does; the gate is free again.
   */
  lemma CallEnds(s: State, t: Tid, native: Outcome)
    requires t !in s.threads && s.gate.None?
    ensures
      Goes(Step(s, Call(t)), t, native, 6) ==
        if s.verified then s.(log := s.log + [ReturnedOk(t)])
        else if native.Ok? then s.(verified := true, log := s.log + [ShutdownSucceeded, ReturnedOk(t)])
        else s.(log := s.log + [ShutdownFailed])
  {
    var s0 := Goto(s, t, CheckBefore);
    Leaves(s, t, CheckBefore, [ReturnedOk(t)]);
    if s.verified {
      var s1 := s.(log := s.log + [ReturnedOk(t)]);
      GoesOn(s0, t, native, 6, s1);
      GoesNowhere(s1, t, native, 5);
    } else {
      GoesOn(s0, t, native, 6, Goto(s, t, AcquireGate));
      GoesOn(Goto(s, t, AcquireGate), t, native, 5, Goto(s.(gate := Some(t)), t, CheckInside));
      AttemptEnds(s, t, native);
    }
  }

  lemma Leaves(s: State, t: Tid, pc: Pc, events: seq<Event>)
    requires t !in s.threads
    ensures Return(Goto(s, t, pc), t, events) == s.(log := s.log + events)
  {
    assert s.threads[t := pc] - {t} == s.threads;
  }

  lemma Enters(s: State, t: Tid, pc: Pc, next: Pc)
    ensures Goto(Goto(s, t, pc), t, next) == Goto(s, t, next)
  {
    assert s.threads[t := pc][t := next] == s.threads[t := next];
  }

  lemma AttemptEnds(s: State, t: Tid, native: Outcome)
    requires t !in s.threads && s.gate.None? && !s.verified
    ensures
      Goes(Goto(s.(gate := Some(t)), t, CheckInside), t, native, 4) ==
        if native.Ok? then s.(verified := true, log := s.log + [ShutdownSucceeded, ReturnedOk(t)])
        else s.(log := s.log + [ShutdownFailed])
  {
    var inside := s.(gate := Some(t));
    Enters(inside, t, CheckInside, Shutdown);
    GoesOn(Goto(inside, t, CheckInside), t, native, 4, Goto(inside, t, Shutdown));
    if native.Ok? {
      SuccessEnds(s, t);
      assert native == Outcome.Ok;
    } else {
      var ended := s.(log := s.log + [ShutdownFailed]);
      Leaves(s, t, Shutdown, [ShutdownFailed]);
      assert Goto(inside, t, Shutdown).(gate := None) == Goto(s, t, Shutdown);
      GoesOn(Goto(inside, t, Shutdown), t, native, 3, ended);
      GoesNowhere(ended, t, native, 2);
    }
  }

  lemma SuccessEnds(s: State, t: Tid)
    requires t !in s.threads && s.gate.None? && !s.verified
    ensures Goes(Goto(s.(gate := Some(t)), t, Shutdown), t, Outcome.Ok, 3) ==
      s.(verified := true, log := s.log + [ShutdownSucceeded, ReturnedOk(t)])
  {
    var inside := s.(gate := Some(t));
    var down := inside.(log := s.log + [ShutdownSucceeded]);
    Enters(down, t, Shutdown, StoreVerified);
    GoesOn(Goto(inside, t, Shutdown), t, Outcome.Ok, 3, Goto(down, t, StoreVerified));
    var stored := down.(verified := true);
    Enters(stored, t, StoreVerified, ReleaseGate);
    GoesOn(Goto(down, t, StoreVerified), t, Outcome.Ok, 2, Goto(stored, t, ReleaseGate));
    var ended := s.(verified := true, log := s.log + [ShutdownSucceeded]);
    Leaves(ended, t, ReleaseGate, [ReturnedOk(t)]);
    assert Goto(stored, t, ReleaseGate).(gate := None) == Goto(ended, t, ReleaseGate);
    assert s.log + [ShutdownSucceeded] + [ReturnedOk(t)] == s.log + [ShutdownSucceeded, ReturnedOk(t)];
    GoesOn(Goto(stored, t, ReleaseGate), t, Outcome.Ok, 1, Return(Goto(ended, t, ReleaseGate), t, [ReturnedOk(t)]));
  }
}
