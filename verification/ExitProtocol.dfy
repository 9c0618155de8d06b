/**
 The exit coordinator of the desktop shell, one atomic step per method
 (apps/desktop/src/main.rs:1510-1535, 1719-1835), and what holds over every sequence of calls.
 */
module ExitProtocol {
  import opened Prelude

  datatype Phase = Running | ShuttingDown | Restarting | Complete | Fatal | CleanupFailed

  datatype ShutdownMode = Normal | Restart

  datatype ExitState = ExitState(
    phase: Phase,
    restartRequested: bool,
    shutdownStarted: bool,
    fatalDialogStarted: bool,
    cleanupVerified: bool,
    originalCode: Option<int>)

  const INITIAL := ExitState(Running, false, false, false, false, None)

  function RequestNormalExit(s: ExitState, code: Option<int>): (ExitState, bool) {
    if s.restartRequested || !(s.phase.Running? || s.phase.CleanupFailed?) then (s, false)
    else (s.(phase := ShuttingDown, originalCode := code), true)
  }

  function RequestRestart(s: ExitState): (ExitState, bool) {
    (s.(restartRequested := true, phase := if s.phase.Running? then Restarting else s.phase), s.phase.Running?)
  }

  function Mode(s: ExitState): Option<ShutdownMode> {
    match s.phase
    case ShuttingDown => Some(if s.restartRequested then Restart else Normal)
    case Restarting => Some(Restart)
    case _ => None
  }

  function ClaimShutdownStart(s: ExitState): (ExitState, bool) {
    if Mode(s).None? then (s, false) else (s.(shutdownStarted := true), !s.shutdownStarted)
  }

  function MarkCleanupVerified(s: ExitState): ExitState {
    s.(cleanupVerified := true, phase := if s.phase.Fatal? then Fatal else Complete)
  }

  function MarkCleanupFailed(s: ExitState): ExitState {
    s.(cleanupVerified := false,
       shutdownStarted := false,
       phase := if s.phase.ShuttingDown? || s.phase.Restarting? || s.phase.Fatal? then s.phase else CleanupFailed)
  }

  function ClaimFatalExit(s: ExitState): (ExitState, bool) {
    if s.restartRequested || !s.cleanupVerified || s.fatalDialogStarted then (s, false)
    else (s.(fatalDialogStarted := true, phase := Fatal), true)
  }

  predicate IsExitAllowed(s: ExitState) {
    s.cleanupVerified && (s.phase.Complete? || s.phase.Fatal?)
  }

  datatype Op =
    | NormalExit(code: Option<int>)
    | RestartRequest
    | ClaimShutdown
    | CleanupVerifiedOp
    | CleanupFailedOp
    | ClaimFatal

  function Apply(s: ExitState, op: Op): ExitState {
    match op
    case NormalExit(code) => RequestNormalExit(s, code).0
    case RestartRequest => RequestRestart(s).0
    case ClaimShutdown => ClaimShutdownStart(s).0
    case CleanupVerifiedOp => MarkCleanupVerified(s)
    case CleanupFailedOp => MarkCleanupFailed(s)
    case ClaimFatal => ClaimFatalExit(s).0
  }

  /** The state after a sequence of calls on a fresh coordinator. */
  function Run(ops: seq<Op>): ExitState {
    if ops == [] then INITIAL else Apply(Run(ops[..|ops| - 1]), ops[|ops| - 1])
  }

  lemma RunStep(ops: seq<Op>, op: Op)
    ensures Run(ops + [op]) == Apply(Run(ops), op)
  {
    assert (ops + [op])[..|ops|] == ops;
  }

  /** What is true of a coordinator between calls; `ReachableExactly` shows it is all that is true. */
  predicate Consistent(s: ExitState) {
    && (s.cleanupVerified ==> s.phase.Complete? || s.phase.Fatal?)
    && (s.phase.Complete? ==> s.cleanupVerified)
    && (s.phase.Restarting? ==> s.restartRequested && s.originalCode.None?)
    && (s.phase.Fatal? <==> s.fatalDialogStarted)
    && (s.phase.Fatal? && !s.cleanupVerified ==> !s.shutdownStarted)
    && (s.phase.CleanupFailed? ==> !s.shutdownStarted)
    && (s.phase.Running? ==> s == INITIAL)
  }

  lemma {:induction false} RunIsConsistent(ops: seq<Op>)
    ensures Consistent(Run(ops))
  {
    if ops != [] {
      RunIsConsistent(ops[..|ops| - 1]);
    }
  }

  /** A call sequence reaching a given consistent state. */
  lemma ReachConsistent(s: ExitState) returns (ops: seq<Op>)
    requires Consistent(s)
    ensures Run(ops) == s
  {
    ops := [];
    if s.phase.Running? { return; }
    if s.phase.Restarting? {
      RunStep(ops, RestartRequest);
      ops := ops + [RestartRequest];
      if s.shutdownStarted { RunStep(ops, ClaimShutdown); ops := ops + [ClaimShutdown]; }
      return;
    }
    RunStep(ops, NormalExit(s.originalCode));
    ops := ops + [NormalExit(s.originalCode)];
    if s.shutdownStarted { RunStep(ops, ClaimShutdown); ops := ops + [ClaimShutdown]; }
    if !s.phase.ShuttingDown? { RunStep(ops, CleanupVerifiedOp); ops := ops + [CleanupVerifiedOp]; }
    if s.phase.Fatal? { RunStep(ops, ClaimFatal); ops := ops + [ClaimFatal]; }
    if s.restartRequested { RunStep(ops, RestartRequest); ops := ops + [RestartRequest]; }
    if !s.phase.ShuttingDown? && !s.cleanupVerified { RunStep(ops, CleanupFailedOp); ops := ops + [CleanupFailedOp]; }
  }

  /** `Consistent` is exactly the set of states some sequence of calls reaches. */
  lemma ReachableExactly(s: ExitState)
    ensures Consistent(s) <==> exists ops :: Run(ops) == s
  {
    if Consistent(s) {
      var ops := ReachConsistent(s);
    } else {
      forall ops | Run(ops) == s ensures false { RunIsConsistent(ops); }
    }
  }

  /** Between calls, "may exit" and "cleanup verified" are the same fact. */
  lemma ExitAllowedIsCleanupVerified(ops: seq<Op>)
    ensures IsExitAllowed(Run(ops)) <==> Run(ops).cleanupVerified
  {
    RunIsConsistent(ops);
  }

  /** A coordinator that became fatal stays fatal whatever is called afterwards. */
  lemma {:induction false} FatalIsNeverLeft(ops: seq<Op>, later: seq<Op>)
    requires Run(ops).phase.Fatal?
    ensures Run(ops + later).phase.Fatal?
  {
    if later == [] {
      assert ops + later == ops;
    } else {
      var init := later[..|later| - 1];
      FatalIsNeverLeft(ops, init);
      assert ops + later == (ops + init) + [later[|later| - 1]];
      RunStep(ops + init, later[|later| - 1]);
    }
  }

  /** A restart, once requested, is requested for ever; no normal exit is accepted any more. */
  lemma {:induction false} RestartRequestIsForEver(ops: seq<Op>, code: Option<int>)
    ensures Run(ops).restartRequested <==> RestartRequest in ops
    ensures RequestNormalExit(Run(ops), code).1 <==>
      RestartRequest !in ops && (Run(ops).phase.Running? || Run(ops).phase.CleanupFailed?)
  {
    if ops != [] {
      RestartRequestIsForEver(ops[..|ops| - 1], code);
      assert ops == ops[..|ops| - 1] + [ops[|ops| - 1]];
    }
  }

  /** The calls that end the running phase. */
  predicate Decides(op: Op) {
    op.NormalExit? || op.RestartRequest? || op.CleanupVerifiedOp? || op.CleanupFailedOp?
  }

  /** A restart request is told to start the restart exactly when no exit, restart or cleanup report came before it. */
  lemma {:induction false} RestartStartsExactly(ops: seq<Op>)
    ensures RequestRestart(Run(ops)).1 <==> forall k :: 0 <= k < |ops| ==> !Decides(ops[k])
  {
    if ops != [] {
      var init := ops[..|ops| - 1];
      RestartStartsExactly(init);
      RunIsConsistent(init);
      assert forall k :: 0 <= k < |init| ==> init[k] == ops[k];
    }
  }

  /** How many of the fatal claims were answered yes. */
  function FatalClaims(ops: seq<Op>): nat {
    if ops == [] then 0
    else
      var init := ops[..|ops| - 1];
      FatalClaims(init) + Bit(ops[|ops| - 1].ClaimFatal? && ClaimFatalExit(Run(init)).1)
  }

  /** Exactly one claim gets the dialog if the coordinator is fatal, and none if it is not. */
  lemma {:induction false} FatalIsClaimedOnce(ops: seq<Op>)
    ensures FatalClaims(ops) == Bit(Run(ops).phase.Fatal?)
    ensures ClaimFatalExit(Run(ops)).1 <==>
      Run(ops).phase.Complete? && RestartRequest !in ops
  {
    RestartRequestIsForEver(ops, None);
    RunIsConsistent(ops);
    if ops != [] {
      FatalIsClaimedOnce(ops[..|ops| - 1]);
      RunIsConsistent(ops[..|ops| - 1]);
    }
  }

  /** The code of the newest normal exit that was accepted, read off the call history. */
  function LastAcceptedCode(ops: seq<Op>): Option<int> {
    if ops == [] then None
    else
      var init := ops[..|ops| - 1];
      var op := ops[|ops| - 1];
      if op.NormalExit? && RequestNormalExit(Run(init), op.code).1 then op.code else LastAcceptedCode(init)
  }

  lemma {:induction false} OriginalCodeIsLastAccepted(ops: seq<Op>)
    ensures Run(ops).originalCode == LastAcceptedCode(ops)
  {
    if ops != [] {
      OriginalCodeIsLastAccepted(ops[..|ops| - 1]);
    }
  }

  /** Exactly when a normal quit that is not already allowed gets to start the shutdown. */
  lemma QuitStartsShutdown(ops: seq<Op>, code: Option<int>)
    requires !IsExitAllowed(Run(ops))
    ensures
      var s := Run(ops);
      ClaimShutdownStart(RequestNormalExit(s, code).0).1
      <==> !s.shutdownStarted && !s.phase.Fatal? && !(s.phase.CleanupFailed? && s.restartRequested)
  {
    RunIsConsistent(ops);
  }
}
