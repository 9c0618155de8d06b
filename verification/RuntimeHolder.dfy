/**
 What the coordinator retains, over whole runs: runtimes and startup authorities that any number of threads retain,
 and release as a step of its own after a cleanup that succeeded
 (apps/desktop/src/main.rs:1877-1929, 2042-2066, 2340-2369, 3342-3378).
 */
module RuntimeHolder {
  import opened Prelude
  import opened ExitCoordination

  type Tid = nat

  /** What a thread whose cleanup succeeded is about to release. */
  datatype Release = AllRuntimes | TheAuthority(authority: Authority)

  datatype Event =
    | Retained(runtime: Runtime)
    | Released(runtime: Runtime)
    | ServerCleaned
    | AuthorityRetained(authority: Authority)
    | AuthorityCleaned(authority: Authority)
    | AuthorityReleased(authority: Authority)
    | AuthorityReplaced(authority: Authority)

  datatype State = State(runtimes: seq<Runtime>, authority: Option<Authority>, releasing: map<Tid, Release>, log: seq<Event>)

  datatype Action =
    | Retain(runtime: Runtime)
    | RetainAuthority(authority: Authority)
    | CleanServer(t: Tid, ok: bool)
    | CleanAuthority(t: Tid, authority: Authority, ok: bool)
    | ReleaseHeld(t: Tid)

  const INITIAL := State([], None, map[], [])

  function Releases(runtimes: seq<Runtime>): seq<Event> {
    seq(|runtimes|, i requires 0 <= i < |runtimes| => Released(runtimes[i]))
  }

  function Step(s: State, a: Action): State {
    match a
    case Retain(r) => s.(runtimes := s.runtimes + [r], log := s.log + [Retained(r)])
    case RetainAuthority(x) =>
      s.(authority := Some(x),
         log := s.log + (if s.authority.Some? then [AuthorityReplaced(s.authority.value)] else []) + [AuthorityRetained(x)])
    case CleanServer(t, ok) =>
      if t in s.releasing || !ok then s
      else s.(releasing := s.releasing[t := AllRuntimes], log := s.log + [ServerCleaned])
    case CleanAuthority(t, x, ok) =>
      if t in s.releasing || !ok then s
      else s.(releasing := s.releasing[t := TheAuthority(x)], log := s.log + [AuthorityCleaned(x)])
    case ReleaseHeld(t) =>
      if t !in s.releasing then s
      else
        var left := s.(releasing := s.releasing - {t});
        match s.releasing[t]
        case AllRuntimes => left.(runtimes := [], log := s.log + Releases(s.runtimes))
        case TheAuthority(x) =>
          if s.authority == Some(x) then left.(authority := None, log := s.log + [AuthorityReleased(x)]) else left
  }

  function Exec(run: seq<Action>): State {
    if run == [] then INITIAL else Step(Exec(run[..|run| - 1]), run[|run| - 1])
  }

  // ----- every release follows a cleanup -----

  /** What the k-th event says about the events before it. */
  ghost predicate Justified(log: seq<Event>, k: nat)
    requires k < |log|
  {
    && (log[k].Released? ==> ServerCleaned in log[..k])
    && (log[k].AuthorityReleased? ==> AuthorityCleaned(log[k].authority) in log[..k])
  }

  ghost predicate Ordered(s: State) {
    && (forall t :: t in s.releasing ==>
          match s.releasing[t]
          case AllRuntimes => ServerCleaned in s.log
          case TheAuthority(x) => AuthorityCleaned(x) in s.log)
    && forall k :: 0 <= k < |s.log| ==> Justified(s.log, k)
  }

  lemma LogGrows(log: seq<Event>, more: seq<Event>)
    requires forall k :: 0 <= k < |log| ==> Justified(log, k)
    requires forall e :: e in more && e.Released? ==> ServerCleaned in log
    requires forall e :: e in more && e.AuthorityReleased? ==> AuthorityCleaned(e.authority) in log
    ensures forall k :: 0 <= k < |log + more| ==> Justified(log + more, k)
  {
    forall k | 0 <= k < |log + more| ensures Justified(log + more, k) {
      if k < |log| {
        assert (log + more)[..k] == log[..k];
        assert Justified(log, k);
      } else {
        assert (log + more)[..k] == log + more[..k - |log|];
        assert (log + more)[k] == more[k - |log|];
      }
    }
  }

  lemma StepKeepsOrder(s: State, a: Action)
    requires Ordered(s)
    ensures Ordered(Step(s, a))
  {
    var s' := Step(s, a);
    var more := s'.log[|s.log|..];
    assert s'.log == s.log + more;
    LogGrows(s.log, more);
  }

  // ----- nothing is lost -----

  function IsHeld(s: State, x: Authority): nat {
    Bit(s.authority == Some(x))
  }

  predicate RuntimeConserved(s: State, r: Runtime) {
    Count(s.log, Retained(r)) == Count(s.log, Released(r)) + Count(s.runtimes, r)
  }

  predicate AuthorityConserved(s: State, x: Authority) {
    Count(s.log, AuthorityRetained(x)) ==
      Count(s.log, AuthorityReleased(x)) + Count(s.log, AuthorityReplaced(x)) + IsHeld(s, x)
  }

  lemma {:induction false} CountReleases(log: seq<Event>, runtimes: seq<Runtime>, e: Event)
    ensures Count(log + Releases(runtimes), e) == Count(log, e) + if e.Released? then Count(runtimes, e.runtime) else 0
  {
    if runtimes == [] {
      assert log + Releases(runtimes) == log;
    } else {
      var init, last := runtimes[..|runtimes| - 1], runtimes[|runtimes| - 1];
      CountReleases(log, init, e);
      assert log + Releases(runtimes) == (log + Releases(init)) + [Released(last)];
      CountAppend(log + Releases(init), Released(last), e);
    }
  }

  /** How often an event occurs after one step. */
  lemma StepCounts(s: State, a: Action, e: Event)
    ensures Count(Step(s, a).log, e) == Count(s.log, e) +
      match a
      case Retain(r) => Bit(e == Retained(r))
      case RetainAuthority(x) =>
        Bit(s.authority.Some? && e == AuthorityReplaced(s.authority.value)) + Bit(e == AuthorityRetained(x))
      case CleanServer(t, ok) => Bit(t !in s.releasing && ok && e == ServerCleaned)
      case CleanAuthority(t, x, ok) => Bit(t !in s.releasing && ok && e == AuthorityCleaned(x))
      case ReleaseHeld(t) =>
        if t !in s.releasing then 0
        else if s.releasing[t].AllRuntimes? then (if e.Released? then Count(s.runtimes, e.runtime) else 0)
        else Bit(s.authority == Some(s.releasing[t].authority) && e == AuthorityReleased(s.releasing[t].authority))
  {
    match a
    case Retain(r) => CountAppend(s.log, Retained(r), e);
    case RetainAuthority(x) =>
      var log := s.log;
      if s.authority.Some? {
        CountAppend(log, AuthorityReplaced(s.authority.value), e);
        log := log + [AuthorityReplaced(s.authority.value)];
      }
      assert Step(s, a).log == log + [AuthorityRetained(x)];
      CountAppend(log, AuthorityRetained(x), e);
    case CleanServer(t, ok) => CountAppend(s.log, ServerCleaned, e);
    case CleanAuthority(t, x, ok) => CountAppend(s.log, AuthorityCleaned(x), e);
    case ReleaseHeld(t) =>
      if t in s.releasing {
        if s.releasing[t].AllRuntimes? {
          CountReleases(s.log, s.runtimes, e);
        } else {
          CountAppend(s.log, AuthorityReleased(s.releasing[t].authority), e);
        }
      }
  }

  lemma StepConservesRuntime(s: State, a: Action, r: Runtime)
    requires RuntimeConserved(s, r)
    ensures RuntimeConserved(Step(s, a), r)
  {
    StepCounts(s, a, Retained(r));
    StepCounts(s, a, Released(r));
    if a.Retain? {
      CountAppend(s.runtimes, a.runtime, r);
    }
  }

  lemma StepConservesAuthority(s: State, a: Action, x: Authority)
    requires AuthorityConserved(s, x)
    ensures AuthorityConserved(Step(s, a), x)
  {
    StepCounts(s, a, AuthorityRetained(x));
    StepCounts(s, a, AuthorityReleased(x));
    StepCounts(s, a, AuthorityReplaced(x));
  }

  lemma {:induction false} ExecKeeps(run: seq<Action>, r: Runtime, x: Authority)
    ensures Ordered(Exec(run)) && RuntimeConserved(Exec(run), r) && AuthorityConserved(Exec(run), x)
  {
    if run != [] {
      var before, a := Exec(run[..|run| - 1]), run[|run| - 1];
      ExecKeeps(run[..|run| - 1], r, x);
      StepKeepsOrder(before, a);
      StepConservesRuntime(before, a, r);
      StepConservesAuthority(before, a, x);
    }
  }

  /**
   In every run a retained runtime is still held as often as it was retained and not released, and a release comes
   only after a successful cleanup: while none has succeeded, everything retained is still there.
   */
  lemma RuntimesAreHeldUntilCleaned(run: seq<Action>, r: Runtime)
    ensures Count(Exec(run).log, Retained(r)) == Count(Exec(run).log, Released(r)) + Count(Exec(run).runtimes, r)
    ensures ServerCleaned !in Exec(run).log ==> Count(Exec(run).runtimes, r) == Count(Exec(run).log, Retained(r))
  {
    ExecKeeps(run, r, Authority(0, 0, r));
    var log := Exec(run).log;
    CountWitness(log, Released(r));
    if Released(r) in log {
      var k :| 0 <= k < |log| && log[k] == Released(r);
      assert Justified(log, k);
      assert ServerCleaned in log[..k];
    }
  }

  /** A retained startup authority is held until it was itself cleaned up, or until a later startup's takes its place. */
  lemma AuthorityIsHeldUntilCleaned(run: seq<Action>, x: Authority)
    ensures AuthorityRetained(x) in Exec(run).log && AuthorityCleaned(x) !in Exec(run).log
            && AuthorityReplaced(x) !in Exec(run).log ==>
              Exec(run).authority == Some(x)
  {
    ExecKeeps(run, x.runtime, x);
    var log := Exec(run).log;
    CountWitness(log, AuthorityRetained(x));
    CountWitness(log, AuthorityReleased(x));
    CountWitness(log, AuthorityReplaced(x));
    if AuthorityReleased(x) in log {
      var k :| 0 <= k < |log| && log[k] == AuthorityReleased(x);
      assert Justified(log, k);
      assert AuthorityCleaned(x) in log[..k];
    }
  }

  // ----- a cleanup that succeeded does release -----

  lemma ExecOneMore(run: seq<Action>, a: Action)
    ensures Exec(run + [a]) == Step(Exec(run), a)
  {
    assert (run + [a])[..|run|] == run;
  }

  lemma {:induction false} ReleaseStaysPending(run: seq<Action>, t: Tid, between: seq<Action>)
    requires t in Exec(run).releasing && forall k :: 0 <= k < |between| ==> between[k] != ReleaseHeld(t)
    ensures t in Exec(run + between).releasing && Exec(run + between).releasing[t] == Exec(run).releasing[t]
  {
    if between == [] {
      assert run + between == run;
    } else {
      var init, last := between[..|between| - 1], between[|between| - 1];
      ReleaseStaysPending(run, t, init);
      assert run + between == (run + init) + [last];
      ExecOneMore(run + init, last);
    }
  }

  /** What a successful cleanup by `t` sets out to release is released by its next release step, whatever others do. */
  lemma ReleaseComes(run: seq<Action>, t: Tid, cleanup: Action, between: seq<Action>)
    requires cleanup == CleanServer(t, true) || (cleanup.CleanAuthority? && cleanup.t == t && cleanup.ok)
    requires t !in Exec(run).releasing && forall k :: 0 <= k < |between| ==> between[k] != ReleaseHeld(t)
    ensures
      var before := Exec(run + [cleanup] + between);
      && t in before.releasing
      && before.releasing[t] == (if cleanup.CleanServer? then AllRuntimes else TheAuthority(cleanup.authority))
      && Exec(run + [cleanup] + between + [ReleaseHeld(t)]) == Step(before, ReleaseHeld(t))
  {
    ExecOneMore(run, cleanup);
    ReleaseStaysPending(run + [cleanup], t, between);
    ExecOneMore(run + [cleanup] + between, ReleaseHeld(t));
  }

  lemma ReleaseTakes(s: State, t: Tid)
    requires t in s.releasing
    ensures
      var s' := Step(s, ReleaseHeld(t));
      match s.releasing[t]
      case AllRuntimes => s'.runtimes == [] && s'.authority == s.authority
      case TheAuthority(x) => s'.runtimes == s.runtimes && s'.authority == if s.authority == Some(x) then None else s.authority
  {
  }

  /** Whatever others do in between, a thread whose server cleanup succeeded then releases every runtime held. */
  lemma ServerCleanupReleasesAll(run: seq<Action>, t: Tid, between: seq<Action>, r: Runtime)
    requires t !in Exec(run).releasing && forall k :: 0 <= k < |between| ==> between[k] != ReleaseHeld(t)
    ensures
      var s := Exec(run + [CleanServer(t, true)] + between + [ReleaseHeld(t)]);
      s.runtimes == [] && Count(s.log, Retained(r)) == Count(s.log, Released(r))
  {
    ReleaseComes(run, t, CleanServer(t, true), between);
    ReleaseTakes(Exec(run + [CleanServer(t, true)] + between), t);
    RuntimesAreHeldUntilCleaned(run + [CleanServer(t, true)] + between + [ReleaseHeld(t)], r);
  }

  /** And one that cleaned up a startup authority lets go of it, and of no other. */
  lemma AuthorityCleanupReleasesIt(run: seq<Action>, t: Tid, x: Authority, between: seq<Action>)
    requires t !in Exec(run).releasing && forall k :: 0 <= k < |between| ==> between[k] != ReleaseHeld(t)
    ensures
      var before := Exec(run + [CleanAuthority(t, x, true)] + between);
      var s := Exec(run + [CleanAuthority(t, x, true)] + between + [ReleaseHeld(t)]);
      s.authority == (if before.authority == Some(x) then None else before.authority) && s.runtimes == before.runtimes
  {
    ReleaseComes(run, t, CleanAuthority(t, x, true), between);
    ReleaseTakes(Exec(run + [CleanAuthority(t, x, true)] + between), t);
  }
}
