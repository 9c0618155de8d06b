/**
 `ExitCoordinator` as an object: every method of apps/desktop/src/main.rs:1685-2029 that the restart,
 quit and backend-failure paths call, each proved against the value-level protocol.
 */
module ExitCoordination {
  import opened Prelude
  import E = ExitProtocol
  import B = BackendProtocol

  type Runtime = nat

  /** The shared cleanup authority of a failed startup; `id` is the identity of the shared pointer. */
  datatype Authority = Authority(id: nat, keepAlive: nat, runtime: Runtime)

  class ExitCoordinator {
    var phase: E.Phase
    var restartRequested: bool
    var shutdownStarted: bool
    var fatalDialogStarted: bool
    var cleanupVerified: bool
    var deferredExitWaitStarted: bool
    var originalCode: Option<int>
    var backend: B.Registration
    var retainedBackendRuntimes: seq<Runtime>
    var retainedStartupCleanup: Option<Authority>

    function Exit(): E.ExitState
      reads this
    {
      E.ExitState(phase, restartRequested, shutdownStarted, fatalDialogStarted, cleanupVerified, originalCode)
    }

    predicate Valid()
      reads this
    {
      E.Consistent(Exit())
    }

    constructor ()
      ensures Valid() && Exit() == E.INITIAL && backend == B.Starting
      ensures !deferredExitWaitStarted && retainedBackendRuntimes == [] && retainedStartupCleanup == None
    {
      phase, restartRequested, shutdownStarted := E.Running, false, false;
      fatalDialogStarted, cleanupVerified, deferredExitWaitStarted := false, false, false;
      originalCode, backend := None, B.Starting;
      retainedBackendRuntimes, retainedStartupCleanup := [], None;
    }

    method RequestNormalExit(code: Option<int>) returns (accepted: bool)
      modifies `phase, `originalCode
      ensures old(Valid()) ==> Valid()
      ensures (Exit(), accepted) == E.RequestNormalExit(old(Exit()), code)
    {
      if restartRequested {
        return false;
      }
      if phase != E.Running && phase != E.CleanupFailed {
        return false;
      }
      phase := E.ShuttingDown;
      originalCode := code;
      return true;
    }

    method RequestRestart() returns (started: bool)
      modifies `phase, `restartRequested
      ensures old(Valid()) ==> Valid()
      ensures (Exit(), started) == E.RequestRestart(old(Exit()))
    {
      restartRequested := true;
      started := phase == E.Running;
      if started {
        phase := E.Restarting;
      }
    }

    method ClaimShutdownStart() returns (claimed: bool)
      modifies `shutdownStarted
      ensures old(Valid()) ==> Valid()
      ensures (Exit(), claimed) == E.ClaimShutdownStart(old(Exit()))
    {
      if E.Mode(Exit()).None? {
        return false;
      }
      claimed := !shutdownStarted;
      shutdownStarted := true;
    }

    method MarkCleanupVerified()
      modifies `phase, `cleanupVerified
      ensures old(Valid()) ==> Valid()
      ensures Exit() == E.MarkCleanupVerified(old(Exit()))
    {
      cleanupVerified := true;
      if phase != E.Fatal {
        phase := E.Complete;
      }
    }

    method MarkCleanupFailed()
      modifies `phase, `cleanupVerified, `shutdownStarted
      ensures old(Valid()) ==> Valid()
      ensures Exit() == E.MarkCleanupFailed(old(Exit()))
    {
      cleanupVerified := false;
      if phase != E.ShuttingDown && phase != E.Restarting && phase != E.Fatal {
        phase := E.CleanupFailed;
      }
      shutdownStarted := false;
    }

    method ClaimFatalExit() returns (claimed: bool)
      modifies `phase, `fatalDialogStarted
      ensures old(Valid()) ==> Valid()
      ensures (Exit(), claimed) == E.ClaimFatalExit(old(Exit()))
    {
      if restartRequested || !cleanupVerified || fatalDialogStarted {
        return false;
      }
      fatalDialogStarted := true;
      phase := E.Fatal;
      return true;
    }

    /** Every registration update runs under the backend lock as one step. */
    method UpdateBackend(op: B.Op)
      modifies `backend
      ensures backend == B.Apply(old(backend), op)
    {
      var open := backend == B.Starting || backend.Ready?;
      match op {
        case Register(s) =>
          if backend == B.Starting { backend := B.Ready(s); }
        case CleanupPending(s) =>
          if open { backend := B.FailedRetained(s); }
        case MarkStopped =>
          if open { backend := B.StoppedVerified; }
        case MarkFailedVerified =>
          if backend != B.StoppedVerified { backend := B.FailedVerified; }
        case MarkFailedRetained(s) =>
          if open { backend := B.FailedRetained(s); }
        case MarkFailedUnverified =>
          if open { backend := B.FailedUnverified; }
      }
    }

    /** Tells whether the server was registered: not if the backend has been decided meanwhile. */
    method RegisterBackend(server: B.Server) returns (registered: bool)
      modifies `backend
      ensures backend == B.Apply(old(backend), B.Register(server))
      ensures registered <==> old(backend).Starting?
      ensures registered ==> B.Visible(backend) == Some(server)
    {
      registered := backend.Starting?;
      UpdateBackend(B.Register(server));
    }

    method RetainBackendRuntime(runtime: Runtime)
      modifies `retainedBackendRuntimes
      ensures retainedBackendRuntimes == old(retainedBackendRuntimes) + [runtime]
    {
      retainedBackendRuntimes := retainedBackendRuntimes + [runtime];
    }

    method ReleaseBackendRuntimes() returns (released: seq<Runtime>)
      modifies `retainedBackendRuntimes
      ensures released == old(retainedBackendRuntimes) && retainedBackendRuntimes == []
    {
      released := retainedBackendRuntimes;
      retainedBackendRuntimes := [];
    }

    method RetainStartupCleanupAuthority(authority: Authority)
      modifies `retainedStartupCleanup
      ensures retainedStartupCleanup == Some(authority)
    {
      retainedStartupCleanup := Some(authority);
    }

    /** Only the very authority that was cleaned up is released. */
    method ReleaseStartupCleanupAuthority(authority: Authority)
      modifies `retainedStartupCleanup
      ensures old(retainedStartupCleanup).Some? && old(retainedStartupCleanup).value.id == authority.id
              ==> retainedStartupCleanup == None
      ensures !(old(retainedStartupCleanup).Some? && old(retainedStartupCleanup).value.id == authority.id)
              ==> retainedStartupCleanup == old(retainedStartupCleanup)
    {
      if retainedStartupCleanup.Some? && retainedStartupCleanup.value.id == authority.id {
        retainedStartupCleanup := None;
      }
    }
  }
}
