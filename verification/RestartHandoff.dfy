/**
 The synchronous restart handler and the quit path (apps/desktop/src/main.rs:1111-1135, 2042-2251,
 2267-2385, 2749-2815).

 While a handler sleeps or waits, other threads run. `world(k)` is whatever they have made of the shared
 state when the handler goes on for the k-th time: any coordinator, any registration, any retained
 authority. `succeeds(i)` says how the i-th cleanup attempt ends.
 */
module RestartHandoff {
  import opened Prelude
  import opened ExitCoordination
  import E = ExitProtocol
  import B = BackendProtocol

  const RESTART_CLEANUP_MAX_ATTEMPTS := 4
  const EXIT_SHUTDOWN_RETRY_MAX_ATTEMPTS := 4

  datatype World = World(
    exit: E.ExitState,
    backend: B.Registration,
    runtimes: seq<Runtime>,
    startup: Option<Authority>,
    managed: Option<B.Server>)

  /** How a restart handoff came to be allowed. */
  datatype Handoff = Verified | Exhausted | NoAuthority

  datatype Quit =
    | AlreadyAllowed
    | NotClaimed
    | AlreadyWaiting
    | Exited(code: int)
    | LeftToRestart

  /** What a handler leaves for the others to see when it sleeps or waits. */
  datatype Left = Left(exit: E.ExitState, backend: B.Registration)

  class Shell {
    const coord: ExitCoordinator
    const succeeds: nat -> bool
    const world: nat -> World
    var managed: Option<B.Server>
    var attempts: nat
    var resumes: nat
    var finalExit: Option<int>
    /** One entry for each time the others were let on. */
    ghost var left: seq<Left>

    constructor (coord: ExitCoordinator, succeeds: nat -> bool, world: nat -> World)
      ensures fresh(this) && this.coord == coord && attempts == 0 && finalExit == None && left == []
      ensures this.succeeds == succeeds && this.world == world && managed == None
    {
      this.coord, this.succeeds, this.world := coord, succeeds, world;
      managed, attempts, resumes, finalExit, left := None, 0, 0, None, [];
    }

    predicate FailedAll(lo: int, hi: int) {
      forall i: nat :: lo <= i < hi ==> !succeeds(i)
    }

    predicate Allowed()
      reads coord
    {
      E.IsExitAllowed(coord.Exit())
    }

    function OriginalCode(): int
      reads coord
    {
      if coord.originalCode.Some? then coord.originalCode.value else 0
    }

    /** The retained runtimes are what the others left when this thread last went on, or `before`. */
    predicate RuntimesSince(resumed: nat, before: seq<Runtime>)
      reads this, coord
    {
      && resumes >= resumed
      && coord.retainedBackendRuntimes == if resumes == resumed then before else world(resumes - 1).runtimes
    }

    /**
     So are the restart request and the original exit code, which no cleanup attempt or handoff touches; and nobody but
     the others claims a shutdown.
     */
    predicate RequestSince(resumed: nat, requested: bool, code: Option<int>, claimed: bool)
      reads this, coord
    {
      && resumes >= resumed
      && (coord.shutdownStarted ==> if resumes == resumed then claimed else world(resumes - 1).exit.shutdownStarted)
      && coord.restartRequested == (if resumes == resumed then requested else world(resumes - 1).exit.restartRequested)
      && coord.originalCode == (if resumes == resumed then code else world(resumes - 1).exit.originalCode)
    }

    /** Since there were `n` entries the others were let on, the first time with this to see. */
    ghost predicate LeftFirst(n: nat, exit: E.ExitState, backend: B.Registration)
      reads this
    {
      n < |left| && left[n] == Left(exit, backend)
    }

    /** Every failure since is reported before the others are let on. */
    ghost predicate FailuresLeft(n: nat)
      reads this
    {
      n <= |left| && forall i :: n <= i < |left| ==> !left[i].exit.cleanupVerified && !left[i].exit.shutdownStarted
    }

    /** Other threads run while this one sleeps or waits. */
    method Interfere()
      modifies this`managed, this`resumes, this`left, coord
      ensures resumes == old(resumes) + 1
      ensures
        var w := world(old(resumes));
        && coord.Exit() == w.exit && coord.backend == w.backend && managed == w.managed
        && coord.retainedBackendRuntimes == w.runtimes && coord.retainedStartupCleanup == w.startup
      ensures coord.deferredExitWaitStarted == old(coord.deferredExitWaitStarted)
      ensures left == old(left) + [Left(old(coord.Exit()), old(coord.backend))]
    {
      left := left + [Left(coord.Exit(), coord.backend)];
      var w := world(resumes);
      resumes := resumes + 1;
      managed := w.managed;
      coord.phase, coord.restartRequested := w.exit.phase, w.exit.restartRequested;
      coord.shutdownStarted, coord.fatalDialogStarted := w.exit.shutdownStarted, w.exit.fatalDialogStarted;
      coord.cleanupVerified, coord.originalCode := w.exit.cleanupVerified, w.exit.originalCode;
      coord.backend, coord.retainedBackendRuntimes := w.backend, w.runtimes;
      coord.retainedStartupCleanup := w.startup;
    }

    method Attempt() returns (ok: bool)
      modifies this`attempts
      ensures attempts == old(attempts) + 1 && ok == succeeds(old(attempts))
    {
      ok := succeeds(attempts);
      attempts := attempts + 1;
    }

    /** Up to `maxAttempts` cleanup attempts, at least one, reporting and sleeping between failures. */
    method CleanupUntilVerifiedBounded(maxAttempts: nat) returns (verified: bool)
      modifies this`managed, this`resumes, this`attempts, this`left, coord
      ensures old(attempts) < attempts <= old(attempts) + (if maxAttempts == 0 then 1 else maxAttempts)
      ensures FailedAll(old(attempts), attempts - 1)
      ensures verified <==> succeeds(attempts - 1)
      ensures !verified ==> attempts == old(attempts) + if maxAttempts == 0 then 1 else maxAttempts
      ensures !verified ==> !coord.cleanupVerified && !coord.shutdownStarted
      ensures old(left) <= left && FailuresLeft(|old(left)|)
      ensures RuntimesSince(old(resumes), old(coord.retainedBackendRuntimes))
      ensures coord.deferredExitWaitStarted == old(coord.deferredExitWaitStarted)
      ensures RequestSince(old(resumes), old(coord.restartRequested), old(coord.originalCode), old(coord.shutdownStarted))
    {
      var bound := if maxAttempts == 0 then 1 else maxAttempts;
      for attempt := 1 to bound + 1
        invariant attempts == old(attempts) + attempt - 1
        invariant FailedAll(old(attempts), attempts)
        invariant RuntimesSince(old(resumes), old(coord.retainedBackendRuntimes))
        invariant RequestSince(old(resumes), old(coord.restartRequested), old(coord.originalCode), old(coord.shutdownStarted))
        invariant coord.deferredExitWaitStarted == old(coord.deferredExitWaitStarted)
        invariant old(left) <= left && FailuresLeft(|old(left)|)
        invariant attempt == bound + 1 ==> !coord.cleanupVerified && !coord.shutdownStarted
      {
        var ok := Attempt();
        if ok {
          return true;
        }
        coord.MarkCleanupFailed();
        if attempt < bound {
          Interfere();
        }
      }
      verified := false;
    }

    method AllowHandoffWithoutVerifiedCleanup() returns (code: int)
      modifies coord
      ensures Allowed()
      ensures coord.backend == B.Apply(old(coord.backend), B.MarkFailedUnverified)
      ensures coord.Exit() == E.MarkCleanupVerified(old(coord.Exit()))
      ensures coord.retainedStartupCleanup == old(coord.retainedStartupCleanup)
      ensures coord.retainedBackendRuntimes == old(coord.retainedBackendRuntimes)
      ensures coord.deferredExitWaitStarted == old(coord.deferredExitWaitStarted)
      ensures code == OriginalCode()
    {
      coord.UpdateBackend(B.MarkFailedUnverified);
      coord.MarkCleanupVerified();
      code := OriginalCode();
    }

    method RestartCleanupBounded() returns (verified: bool)
      modifies this`managed, this`resumes, this`attempts, this`left, coord
      ensures old(attempts) < attempts <= old(attempts) + RESTART_CLEANUP_MAX_ATTEMPTS
      ensures FailedAll(old(attempts), attempts - 1)
      ensures verified <==> succeeds(attempts - 1)
      ensures !verified ==> attempts == old(attempts) + RESTART_CLEANUP_MAX_ATTEMPTS
      ensures !verified ==> Allowed() && !B.Open(coord.backend)
      ensures RuntimesSince(old(resumes), old(coord.retainedBackendRuntimes))
      ensures RequestSince(old(resumes), old(coord.restartRequested), old(coord.originalCode), old(coord.shutdownStarted))
      ensures old(left) <= left && FailuresLeft(|old(left)|)
    {
      verified := CleanupUntilVerifiedBounded(RESTART_CLEANUP_MAX_ATTEMPTS);
      if !verified {
        var _ := AllowHandoffWithoutVerifiedCleanup();
      }
    }

    method CleanupForRestartUntilVerified() returns (outcome: Handoff)
      modifies this`managed, this`resumes, this`attempts, this`left, coord
      ensures Allowed() && !B.Open(coord.backend)
      ensures old(attempts) < attempts <= old(attempts) + RESTART_CLEANUP_MAX_ATTEMPTS
      ensures FailedAll(old(attempts), attempts - 1)
      ensures outcome == if succeeds(attempts - 1) then Verified else Exhausted
      ensures outcome.Exhausted? ==> attempts == old(attempts) + RESTART_CLEANUP_MAX_ATTEMPTS
      ensures outcome.Verified? ==> coord.retainedBackendRuntimes == []
      ensures outcome.Exhausted? ==> RuntimesSince(old(resumes), old(coord.retainedBackendRuntimes))
      ensures RequestSince(old(resumes), old(coord.restartRequested), old(coord.originalCode), old(coord.shutdownStarted))
      ensures old(left) <= left && FailuresLeft(|old(left)|)
    {
      var verified := RestartCleanupBounded();
      if verified {
        var _ := coord.ReleaseBackendRuntimes();
        coord.MarkCleanupVerified();
        coord.UpdateBackend(B.MarkStopped);
        return Verified;
      }
      return Exhausted;
    }

    method CleanupStartupForRestartUntilVerified(authority: Authority) returns (outcome: Handoff)
      modifies this`managed, this`resumes, this`attempts, this`left, coord
      ensures Allowed() && !B.Open(coord.backend)
      ensures old(attempts) < attempts <= old(attempts) + RESTART_CLEANUP_MAX_ATTEMPTS
      ensures FailedAll(old(attempts), attempts - 1)
      ensures outcome == if succeeds(attempts - 1) then Verified else Exhausted
      ensures outcome.Exhausted? ==> attempts == old(attempts) + RESTART_CLEANUP_MAX_ATTEMPTS
      ensures outcome.Verified? ==> coord.backend.StoppedVerified? || coord.backend.FailedVerified?
      ensures outcome.Verified? && coord.retainedStartupCleanup.Some? ==> coord.retainedStartupCleanup.value.id != authority.id
      ensures RequestSince(old(resumes), old(coord.restartRequested), old(coord.originalCode), old(coord.shutdownStarted))
      ensures old(left) <= left && FailuresLeft(|old(left)|)
    {
      var verified := RestartCleanupBounded();
      if verified {
        coord.ReleaseStartupCleanupAuthority(authority);
        coord.MarkCleanupVerified();
        coord.UpdateBackend(B.MarkFailedVerified);
        return Verified;
      }
      return Exhausted;
    }

    /** The managed server, else the registered one, else whatever a bounded wait turns up. */
    method FindServer() returns (server: Option<B.Server>)
      modifies this`managed, this`resumes, this`left, coord
      ensures server.None? ==> B.Visible(coord.backend).None?
      ensures old(managed).Some? ==> server == old(managed)
      ensures old(managed).None? && B.Visible(old(coord.backend)).Some? ==> server == B.Visible(old(coord.backend))
      ensures resumes == old(resumes) <==> old(managed).Some? || B.Visible(old(coord.backend)).Some?
      ensures left == old(left) + if resumes == old(resumes) then [] else [Left(old(coord.Exit()), old(coord.backend))]
      ensures RequestSince(old(resumes), old(coord.restartRequested), old(coord.originalCode), old(coord.shutdownStarted))
    {
      server := managed;
      if server.None? {
        server := B.Visible(coord.backend);
      }
      if server.None? {
        Interfere();
        server := B.Visible(coord.backend);
      }
    }

    method HoldRestartWithoutCleanupAuthority() returns (outcome: Handoff)
      modifies this`managed, this`resumes, this`attempts, this`left, coord
      ensures Allowed() && !B.Open(coord.backend)
      ensures old(attempts) <= attempts <= old(attempts) + RESTART_CLEANUP_MAX_ATTEMPTS
      ensures outcome.NoAuthority? <==> attempts == old(attempts)
      ensures attempts > old(attempts) ==>
        && FailedAll(old(attempts), attempts - 1)
        && outcome == (if succeeds(attempts - 1) then Verified else Exhausted)
        && (outcome.Exhausted? ==> attempts == old(attempts) + RESTART_CLEANUP_MAX_ATTEMPTS)
      ensures outcome.NoAuthority? ==> B.Visible(coord.backend).None? && coord.retainedStartupCleanup.None?
      ensures RequestSince(old(resumes), old(coord.restartRequested), old(coord.originalCode), false)
      ensures old(left) <= left && FailuresLeft(|old(left)|)
    {
      coord.MarkCleanupFailed();
      Interfere();
      if B.Visible(coord.backend).Some? {
        outcome := CleanupForRestartUntilVerified();
      } else if coord.retainedStartupCleanup.Some? {
        outcome := CleanupStartupForRestartUntilVerified(coord.retainedStartupCleanup.value);
      } else {
        var _ := AllowHandoffWithoutVerifiedCleanup();
        outcome := NoAuthority;
      }
    }

    method AbortRestart() returns (outcome: Handoff)
      modifies this`managed, this`resumes, this`attempts, this`left, coord
      ensures Allowed() && !B.Open(coord.backend)
      ensures old(attempts) <= attempts <= old(attempts) + RESTART_CLEANUP_MAX_ATTEMPTS
      ensures outcome.NoAuthority? <==> attempts == old(attempts)
      ensures attempts > old(attempts) ==>
        && FailedAll(old(attempts), attempts - 1)
        && outcome == (if succeeds(attempts - 1) then Verified else Exhausted)
        && (outcome.Exhausted? ==> attempts == old(attempts) + RESTART_CLEANUP_MAX_ATTEMPTS)
      ensures outcome.NoAuthority? ==> B.Visible(coord.backend).None? && coord.retainedStartupCleanup.None?
      ensures RequestSince(old(resumes), old(coord.restartRequested), old(coord.originalCode), false)
      ensures old(left) <= left && FailuresLeft(|old(left)|)
    {
      coord.MarkCleanupFailed();
      var server := FindServer();
      if server.Some? {
        outcome := CleanupForRestartUntilVerified();
      } else if coord.retainedStartupCleanup.Some? {
        outcome := CleanupStartupForRestartUntilVerified(coord.retainedStartupCleanup.value);
      } else {
        outcome := HoldRestartWithoutCleanupAuthority();
      }
    }

    /**
     Handle the restart sentinel. Whatever the cleanup attempts do and whatever other threads do
     meanwhile, the process may exit afterwards, no server is offered any more, and the restart stays requested
     unless another thread took the request back; without a verified cleanup that takes four failures in a row or
     nothing left to clean up with.
     */
    method HandleRestart() returns (outcome: Handoff, found: bool)
      modifies this`managed, this`resumes, this`attempts, this`left, coord
      ensures Allowed() && !B.Open(coord.backend)
      ensures RequestSince(old(resumes), true, old(coord.originalCode), old(coord.shutdownStarted))
      ensures attempts <= old(attempts) + 1 + RESTART_CLEANUP_MAX_ATTEMPTS
      ensures FailedAll(old(attempts), attempts - 1)
      ensures found ==> attempts > old(attempts)
      ensures old(managed.Some? || B.Visible(coord.backend).Some?) ==>
        && found
        && (succeeds(old(attempts)) ==> attempts == old(attempts) + 1 && resumes == old(resumes))
      ensures outcome.Verified? <==> attempts > old(attempts) && succeeds(attempts - 1)
      ensures outcome.Exhausted? ==> attempts >= old(attempts) + RESTART_CLEANUP_MAX_ATTEMPTS
      ensures outcome.NoAuthority? ==>
        && attempts <= old(attempts) + 1
        && B.Visible(coord.backend).None? && coord.retainedStartupCleanup.None?
    {
      var _ := coord.RequestRestart();
      var server := FindServer();
      found := server.Some?;
      if found {
        var ok := Attempt();
        if ok {
          coord.MarkCleanupVerified();
          coord.UpdateBackend(B.MarkStopped);
          outcome := Verified;
        } else {
          outcome := AbortRestart();
        }
      } else {
        outcome := AbortRestart();
        found := !outcome.NoAuthority?;
      }
    }

    // ----- the quit path -----

    method RequestFinalExit(code: int)
      modifies this`finalExit
      ensures finalExit == Some(code)
    {
      finalExit := Some(code);
    }

    /** A verified cleanup ends a quit: report it, close the registration, and exit unless a restart owns the handoff. */
    method FinishQuit(op: B.Op) returns (quit: Quit)
      requires op == B.MarkStopped || op == B.MarkFailedVerified
      modifies this`finalExit, coord
      ensures Allowed()
      ensures coord.Exit() == E.MarkCleanupVerified(old(coord.Exit()))
      ensures coord.backend == B.Apply(old(coord.backend), op) && !B.Open(coord.backend)
      ensures coord.deferredExitWaitStarted == old(coord.deferredExitWaitStarted)
      ensures quit == if coord.restartRequested then LeftToRestart else Exited(OriginalCode())
      ensures finalExit == if coord.restartRequested then old(finalExit) else Some(OriginalCode())
    {
      var restart := coord.restartRequested;
      var code := OriginalCode();
      coord.MarkCleanupVerified();
      coord.UpdateBackend(op);
      if restart {
        return LeftToRestart;
      }
      RequestFinalExit(code);
      return Exited(code);
    }

    /** Let the others run until the asynchronous attempt reports back. */
    method AsyncAttempt() returns (ok: bool)
      modifies this`managed, this`resumes, this`attempts, this`left, coord
      ensures attempts == old(attempts) + 1 && ok == succeeds(old(attempts))
      ensures coord.Exit() == world(old(resumes)).exit && coord.backend == world(old(resumes)).backend
      ensures resumes == old(resumes) + 1
      ensures left == old(left) + [Left(old(coord.Exit()), old(coord.backend))]
      ensures coord.deferredExitWaitStarted == old(coord.deferredExitWaitStarted)
    {
      Interfere();
      ok := Attempt();
    }

    /** Two asynchronous attempts, then the bounded retry thread; the claim makes the whole chain single-flight. */
    method StartShutdownIfNeeded(server: B.Server) returns (quit: Quit)
      modifies this, coord
      ensures quit.NotClaimed? <==> !old(E.ClaimShutdownStart(coord.Exit()).1)
      ensures quit.NotClaimed? ==>
        && attempts == old(attempts) && finalExit == old(finalExit) && left == old(left)
        && coord.Exit() == E.ClaimShutdownStart(old(coord.Exit())).0
      ensures !quit.NotClaimed? ==>
        && Allowed() && !B.Open(coord.backend)
        && old(attempts) < attempts <= old(attempts) + 2 + EXIT_SHUTDOWN_RETRY_MAX_ATTEMPTS
        && FailedAll(old(attempts), attempts - 1)
        && (succeeds(attempts - 1) || attempts == old(attempts) + 2 + EXIT_SHUTDOWN_RETRY_MAX_ATTEMPTS)
        && old(left) <= left && LeftFirst(|old(left)|, E.ClaimShutdownStart(old(coord.Exit())).0, old(coord.backend))
        && quit == (if coord.restartRequested then LeftToRestart else Exited(OriginalCode()))
        && finalExit == (if coord.restartRequested then old(finalExit) else Some(OriginalCode()))
      ensures coord.deferredExitWaitStarted == old(coord.deferredExitWaitStarted)
    {
      var claimed := coord.ClaimShutdownStart();
      if !claimed {
        return NotClaimed;
      }
      var ok := AsyncAttempt();
      if ok {
        quit := FinishQuit(B.MarkStopped);
        return;
      }
      quit := RetryShutdown(server);
    }

    /** The second asynchronous attempt and, after it, the retry thread. */
    method RetryShutdown(server: B.Server) returns (quit: Quit)
      modifies this, coord
      ensures Allowed() && !B.Open(coord.backend)
      ensures old(attempts) < attempts <= old(attempts) + 1 + EXIT_SHUTDOWN_RETRY_MAX_ATTEMPTS
      ensures FailedAll(old(attempts), attempts - 1)
      ensures succeeds(attempts - 1) || attempts == old(attempts) + 1 + EXIT_SHUTDOWN_RETRY_MAX_ATTEMPTS
      ensures old(left) <= left
      ensures !succeeds(old(attempts)) ==>
        var w := world(old(resumes));
        LeftFirst(|old(left)| + 1, E.MarkCleanupFailed(w.exit), B.Apply(w.backend, B.MarkFailedRetained(server)))
      ensures quit == if coord.restartRequested then LeftToRestart else Exited(OriginalCode())
      ensures finalExit == if coord.restartRequested then old(finalExit) else Some(OriginalCode())
      ensures coord.deferredExitWaitStarted == old(coord.deferredExitWaitStarted)
    {
      var ok := AsyncAttempt();
      if ok {
        quit := FinishQuit(B.MarkStopped);
        return;
      }
      coord.MarkCleanupFailed();
      coord.UpdateBackend(B.MarkFailedRetained(server));
      quit := RetryShutdownUntilVerified();
    }

    /** The exit all the same, unless a restart owns the handoff. */
    method QuitUnverified() returns (quit: Quit)
      modifies this`finalExit, coord
      ensures Allowed() && !B.Open(coord.backend)
      ensures coord.retainedBackendRuntimes == old(coord.retainedBackendRuntimes)
      ensures quit == if coord.restartRequested then LeftToRestart else Exited(OriginalCode())
      ensures finalExit == if coord.restartRequested then old(finalExit) else Some(OriginalCode())
      ensures coord.deferredExitWaitStarted == old(coord.deferredExitWaitStarted)
    {
      var restart := coord.restartRequested;
      var code := AllowHandoffWithoutVerifiedCleanup();
      if restart {
        return LeftToRestart;
      }
      RequestFinalExit(code);
      return Exited(code);
    }

    method RetryShutdownUntilVerified() returns (quit: Quit)
      modifies this, coord
      ensures Allowed() && !B.Open(coord.backend)
      ensures old(attempts) < attempts <= old(attempts) + EXIT_SHUTDOWN_RETRY_MAX_ATTEMPTS
      ensures FailedAll(old(attempts), attempts - 1)
      ensures succeeds(attempts - 1) || attempts == old(attempts) + EXIT_SHUTDOWN_RETRY_MAX_ATTEMPTS
      ensures old(left) <= left && LeftFirst(|old(left)|, old(coord.Exit()), old(coord.backend))
      ensures succeeds(attempts - 1) ==> coord.retainedBackendRuntimes == []
      ensures !succeeds(attempts - 1) ==> RuntimesSince(old(resumes), old(coord.retainedBackendRuntimes))
      ensures quit == if coord.restartRequested then LeftToRestart else Exited(OriginalCode())
      ensures finalExit == if coord.restartRequested then old(finalExit) else Some(OriginalCode())
      ensures coord.deferredExitWaitStarted == old(coord.deferredExitWaitStarted)
    {
      Interfere();
      var verified := CleanupUntilVerifiedBounded(EXIT_SHUTDOWN_RETRY_MAX_ATTEMPTS);
      if verified {
        quit := FinishQuit(B.MarkFailedVerified);
        var _ := coord.ReleaseBackendRuntimes();
        return;
      }
      quit := QuitUnverified();
    }

    /** A server has appeared, but its shutdown is claimed already or no shutdown is going on. */
    predicate NotClaimable(w: World) {
      B.Visible(w.backend).Some? && !E.ClaimShutdownStart(w.exit).1
    }

    /** A quit that found no server waits for one, once, and then exits with or without it. */
    method DeferredExitShutdown() returns (quit: Quit)
      modifies this, coord
      ensures coord.deferredExitWaitStarted
      ensures quit.AlreadyWaiting? <==> old(coord.deferredExitWaitStarted)
      ensures quit.AlreadyWaiting? ==> finalExit == old(finalExit) && coord.Exit() == old(coord.Exit())
      ensures !quit.AlreadyWaiting? ==> LeftFirst(|old(left)|, old(coord.Exit()), old(coord.backend))
      ensures quit.Exited? ==> Allowed() && finalExit == Some(quit.code) && quit.code == OriginalCode()
      ensures quit.LeftToRestart? ==> Allowed() && coord.restartRequested
      ensures quit.NotClaimed? <==> !old(coord.deferredExitWaitStarted) && NotClaimable(world(old(resumes)))
      ensures !quit.AlreadyAllowed?
    {
      if coord.deferredExitWaitStarted {
        return AlreadyWaiting;
      }
      coord.deferredExitWaitStarted := true;
      Interfere();
      var server := B.Visible(coord.backend);
      if server.Some? {
        quit := StartShutdownIfNeeded(server.value);
        return;
      }
      if !Allowed() {
        coord.MarkCleanupVerified();
      }
      RequestFinalExit(OriginalCode());
      return Exited(OriginalCode());
    }

    /**
     Handle a normal exit request. A request that is not let through is never lost: it starts a shutdown
     that ends in an exit or a restart, or one is claimed, waiting or refused as `ExitProtocol.QuitStartsShutdown` says.
     */
    method HandleQuit(code: Option<int>) returns (quit: Quit)
      modifies this, coord
      ensures quit.AlreadyAllowed? <==> old(E.IsExitAllowed(coord.Exit()))
      ensures quit.AlreadyAllowed? ==> coord.Exit() == old(coord.Exit())
      ensures quit.Exited? ==> Allowed() && finalExit == Some(quit.code) && quit.code == OriginalCode()
      ensures quit.LeftToRestart? ==> Allowed() && coord.restartRequested
      ensures quit.AlreadyWaiting? ==>
        old(coord.deferredExitWaitStarted) && coord.Exit() == E.RequestNormalExit(old(coord.Exit()), code).0
      ensures quit.NotClaimed? && old(managed.Some? || B.Visible(coord.backend).Some?) ==>
        coord.Exit() == E.ClaimShutdownStart(E.RequestNormalExit(old(coord.Exit()), code).0).0
      ensures !quit.AlreadyAllowed? && !quit.AlreadyWaiting? ==>
        var requested := E.RequestNormalExit(old(coord.Exit()), code).0;
        if old(managed.Some? || B.Visible(coord.backend).Some?)
        then quit.NotClaimed? || LeftFirst(|old(left)|, E.ClaimShutdownStart(requested).0, old(coord.backend))
        else LeftFirst(|old(left)|, requested, old(coord.backend))
      ensures
        var serverKnown := old(managed.Some? || B.Visible(coord.backend).Some?);
        var s := old(coord.Exit());
        !old(E.IsExitAllowed(coord.Exit())) ==>
          && (serverKnown ==> (quit.NotClaimed? <==> !E.ClaimShutdownStart(E.RequestNormalExit(s, code).0).1))
          && (serverKnown && E.Consistent(s) ==>
                (quit.NotClaimed? <==> s.shutdownStarted || s.phase.Fatal? || (s.phase.CleanupFailed? && s.restartRequested)))
          && (!serverKnown ==>
                (quit.NotClaimed? <==> !old(coord.deferredExitWaitStarted) && NotClaimable(world(old(resumes)))))
    {
      if Allowed() {
        return AlreadyAllowed;
      }
      var _ := coord.RequestNormalExit(code);
      var server := if managed.Some? then managed else B.Visible(coord.backend);
      if server.Some? {
        quit := StartShutdownIfNeeded(server.value);
      } else {
        quit := DeferredExitShutdown();
      }
    }
  }
}
