/**
 The backend registration held by the exit coordinator (apps/desktop/src/main.rs:1537-1544, 1841-2029).
 A `Server` is the identity of the shared server handle.
 */
module BackendProtocol {
  import opened Prelude

  type Server = nat

  datatype Registration =
    | Starting
    | Ready(server: Server)
    | StoppedVerified
    | FailedVerified
    | FailedUnverified
    | FailedRetained(server: Server)

  datatype Op =
    | Register(s: Server)
    | CleanupPending(s: Server)
    | MarkStopped
    | MarkFailedVerified
    | MarkFailedRetained(s: Server)
    | MarkFailedUnverified

  predicate Open(r: Registration) {
    r.Starting? || r.Ready?
  }

  function Apply(r: Registration, op: Op): Registration {
    match op
    case Register(s) => if r.Starting? then Ready(s) else r
    case CleanupPending(s) => if Open(r) then FailedRetained(s) else r
    case MarkStopped => if Open(r) then StoppedVerified else r
    case MarkFailedVerified => if r.StoppedVerified? then r else FailedVerified
    case MarkFailedRetained(s) => if Open(r) then FailedRetained(s) else r
    case MarkFailedUnverified => if Open(r) then FailedUnverified else r
  }

  /** The server an exit path can still use, if any. */
  function Visible(r: Registration): Option<Server> {
    match r
    case Ready(s) => Some(s)
    case FailedRetained(s) => Some(s)
    case _ => None
  }

  function Rank(r: Registration): nat {
    match r
    case Starting => 3
    case Ready(_) => 2
    case FailedUnverified => 1
    case FailedRetained(_) => 1
    case _ => 0
  }

  function Run(r: Registration, ops: seq<Op>): Registration {
    if ops == [] then r else Apply(Run(r, ops[..|ops| - 1]), ops[|ops| - 1])
  }

  /** How many of the calls changed the registration. */
  function Changes(r: Registration, ops: seq<Op>): nat {
    if ops == [] then 0
    else
      var before := Run(r, ops[..|ops| - 1]);
      Changes(r, ops[..|ops| - 1]) + if Apply(before, ops[|ops| - 1]) == before then 0 else 1
  }

  /** Every change uses up rank, so a registration changes at most three times. */
  lemma {:induction false} ChangesAreBounded(r: Registration, ops: seq<Op>)
    ensures Changes(r, ops) <= Rank(r) - Rank(Run(r, ops))
    ensures Changes(r, ops) <= 3
    ensures Rank(Run(r, ops)) == Rank(r) ==> Run(r, ops) == r
  {
    if ops != [] {
      ChangesAreBounded(r, ops[..|ops| - 1]);
    }
  }

  /** The bound of three is met: start, register, lose the server, verify late. */
  lemma ThreeChangesHappen(s: Server)
    ensures Changes(Starting, [Register(s), MarkFailedRetained(s), MarkFailedVerified]) == 3
  {
    var a, b, c := Register(s), MarkFailedRetained(s), MarkFailedVerified;
    assert [a, b, c][..2] == [a, b];
    assert [a, b][..1] == [a];
    assert [a][..0] == [];
    assert Run(Starting, [a]) == Ready(s);
    assert Run(Starting, [a, b]) == FailedRetained(s);
    assert Changes(Starting, [a]) == 1;
    assert Changes(Starting, [a, b]) == 2;
  }

  /** Starting and Ready are never re-entered; the two verified states are final. */
  lemma {:induction false} NoReturn(r: Registration, ops: seq<Op>)
    ensures !r.Starting? ==> !Run(r, ops).Starting?
    ensures !Open(r) ==> !Open(Run(r, ops))
    ensures r.Ready? && Run(r, ops).Ready? ==> Run(r, ops) == r
    ensures r.StoppedVerified? || r.FailedVerified? ==> Run(r, ops) == r
  {
    if ops != [] {
      NoReturn(r, ops[..|ops| - 1]);
      ChangesAreBounded(r, ops);
    }
  }

  /** Once a decided registration shows no server, none is ever shown again. */
  lemma {:induction false} GoneServerStaysGone(r: Registration, ops: seq<Op>)
    requires !r.Starting? && Visible(r).None?
    ensures !Run(r, ops).Starting? && Visible(Run(r, ops)).None?
  {
    if ops != [] {
      GoneServerStaysGone(r, ops[..|ops| - 1]);
    }
  }

  lemma {:induction false} RunConcat(r: Registration, first: seq<Op>, second: seq<Op>)
    ensures Run(r, first + second) == Run(Run(r, first), second)
  {
    if second == [] {
      assert first + second == first;
    } else {
      var init := second[..|second| - 1];
      RunConcat(r, first, init);
      assert (first + second)[..|first + second| - 1] == first + init;
    }
  }

  /** A retained server is released only by a verified failure: a later "stopped" report does not hide it. */
  lemma RetainedServerIsHiddenExactlyByVerifiedFailure(s: Server, ops: seq<Op>)
    ensures Visible(Run(FailedRetained(s), ops)) == (if MarkFailedVerified in ops then None else Some(s))
  {
    RetainedRun(s, ops);
  }

  lemma {:induction false} RetainedRun(s: Server, ops: seq<Op>)
    ensures Run(FailedRetained(s), ops) == if MarkFailedVerified in ops then FailedVerified else FailedRetained(s)
  {
    if ops != [] {
      var init, last := ops[..|ops| - 1], ops[|ops| - 1];
      RetainedRun(s, init);
      assert ops == init + [last];
    }
  }

  /** What a report that ends an open registration makes of it. */
  function Decided(op: Op): Registration
    requires !op.Register?
  {
    match op
    case CleanupPending(s) => FailedRetained(s)
    case MarkStopped => StoppedVerified
    case MarkFailedVerified => FailedVerified
    case MarkFailedRetained(s) => FailedRetained(s)
    case MarkFailedUnverified => FailedUnverified
  }

  /** While there are only registrations, the first one counts. */
  lemma {:induction false} FirstRegistrationCounts(r: Registration, ops: seq<Op>)
    requires Open(r) && forall i :: 0 <= i < |ops| ==> ops[i].Register?
    ensures Run(r, ops) == if r.Ready? then r else if ops == [] then Starting else Ready(ops[0].s)
  {
    if ops != [] {
      FirstRegistrationCounts(r, ops[..|ops| - 1]);
    }
  }

  /** Of the reports the first one decides for ever, except that a verified failure overrules all but a verified stop. */
  lemma {:induction false} FirstReportDecides(r: Registration, ops: seq<Op>, k: nat)
    requires Open(r) && k < |ops| && !ops[k].Register? && forall i :: 0 <= i < k ==> ops[i].Register?
    ensures Run(r, ops) ==
      if !ops[k].MarkStopped? && MarkFailedVerified in ops[k..] then FailedVerified else Decided(ops[k])
  {
    var init, last := ops[..|ops| - 1], ops[|ops| - 1];
    if k == |ops| - 1 {
      FirstRegistrationCounts(r, init);
      assert ops[k..] == [last];
    } else {
      assert init[k] == ops[k];
      FirstReportDecides(r, init, k);
      assert ops[k..] == init[k..] + [last];
    }
  }

  /** The snapshots a waiter takes under the lock, in order, of a registration that other threads move on. */
  ghost predicate History(looks: seq<Registration>, between: seq<seq<Op>>) {
    && |looks| == |between| + 1
    && forall k :: 0 <= k < |between| ==> looks[k + 1] == Run(looks[k], between[k])
  }

  /**
   Wait until the registration is decided. `looks` are the registrations seen at each wake-up
   before the deadline; running out of them is the timeout.
   */
  method WaitForBackend(looks: seq<Registration>) returns (server: Option<Server>, looked: nat)
    ensures looked <= |looks|
    ensures forall k :: 0 <= k < looked - 1 ==> looks[k].Starting?
    ensures server.Some? ==> looked > 0 && Visible(looks[looked - 1]) == server
    ensures server.None? && (exists k :: 0 <= k < |looks| && !looks[k].Starting?)
            ==> looked > 0 && !looks[looked - 1].Starting? && Visible(looks[looked - 1]).None?
    ensures (forall k :: 0 <= k < |looks| ==> looks[k].Starting?) ==> server.None?
  {
    looked := 0;
    while looked < |looks|
      invariant looked <= |looks|
      invariant forall k :: 0 <= k < looked ==> looks[k].Starting?
    {
      var backend := looks[looked];
      looked := looked + 1;
      match backend {
        case Ready(s) => return Some(s), looked;
        case FailedRetained(s) => return Some(s), looked;
        case StoppedVerified => return None, looked;
        case FailedVerified => return None, looked;
        case FailedUnverified => return None, looked;
        case Starting =>
      }
    }
    server := None;
  }

  /** A wait that ended in "no server" before its deadline is final: no later moment shows one. */
  lemma {:induction false} NoServerIsFinal(looks: seq<Registration>, between: seq<seq<Op>>, k: nat, later: nat)
    requires History(looks, between)
    requires k <= later < |looks|
    requires !looks[k].Starting? && Visible(looks[k]).None?
    ensures !looks[later].Starting? && Visible(looks[later]).None?
  {
    if k < later {
      NoServerIsFinal(looks, between, k, later - 1);
      GoneServerStaysGone(looks[later - 1], between[later - 1]);
      assert looks[later - 1 + 1] == Run(looks[later - 1], between[later - 1]);
    }
  }
}
