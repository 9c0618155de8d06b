/**
 The single slot that holds the in-app update package (apps/desktop/src/main.rs:447-667): its operations,
 the ledger they keep over any sequence of calls, and what download and install tasks can rely on.
 */
module UpdateSlot {
  import opened Prelude

  type Version = string

  datatype Slot<+P> =
    | Empty
    | Downloading(version: Version)
    | Ready(version: Version, payload: P)
    | Installing(version: Version)

  datatype Begin =
    | Refused(active: Version)
    | AlreadyReady
    | Start
    | StartReplacingReady(replaced: Version)

  datatype Take<+P> =
    | Taken(payload: P)
    | NotRetained
    | StillDownloading
    | AlreadyInstalling

  function BeginDownload<P>(slot: Slot<P>, v: Version): (Slot<P>, Begin) {
    match slot
    case Downloading(active) => (slot, Refused(active))
    case Installing(active) => (slot, Refused(active))
    case Ready(ready, _) => if ready == v then (slot, AlreadyReady) else (Downloading(v), StartReplacingReady(ready))
    case Empty => (Downloading(v), Start)
  }

  function CancelDownload<P>(slot: Slot<P>, v: Version): Slot<P> {
    if slot.Downloading? && slot.version == v then Empty else slot
  }

  function FinishDownload<P>(slot: Slot<P>, v: Version, payload: P): (Slot<P>, bool) {
    if slot.Downloading? && slot.version == v then (Ready(v, payload), true) else (slot, false)
  }

  function TakeReady<P>(slot: Slot<P>, v: Version): (Slot<P>, Take<P>) {
    match slot
    case Ready(ready, payload) => if ready == v then (Installing(v), Taken(payload)) else (slot, NotRetained)
    case Downloading(_) => (slot, StillDownloading)
    case Installing(_) => (slot, AlreadyInstalling)
    case Empty => (slot, NotRetained)
  }

  function RestoreReady<P>(slot: Slot<P>, v: Version, payload: P): Slot<P> {
    if slot.Installing? && slot.version == v then Ready(v, payload) else slot
  }

  function FinishInstall<P>(slot: Slot<P>, v: Version): Slot<P> {
    if slot.Installing? && slot.version == v then Empty else slot
  }

  // ----- any sequence of calls -----

  datatype Op<+P> =
    | BeginOp(v: Version)
    | CancelOp(v: Version)
    | FinishOp(v: Version, payload: P)
    | TakeOp(v: Version)
    | RestoreOp(v: Version, payload: P)
    | FinishInstallOp(v: Version)

  function Apply<P>(slot: Slot<P>, op: Op<P>): Slot<P> {
    match op
    case BeginOp(v) => BeginDownload(slot, v).0
    case CancelOp(v) => CancelDownload(slot, v)
    case FinishOp(v, p) => FinishDownload(slot, v, p).0
    case TakeOp(v) => TakeReady(slot, v).0
    case RestoreOp(v, p) => RestoreReady(slot, v, p)
    case FinishInstallOp(v) => FinishInstall(slot, v)
  }

  function Run<P>(ops: seq<Op<P>>): Slot<P> {
    if ops == [] then Empty else Apply(Run(ops[..|ops| - 1]), ops[|ops| - 1])
  }

  /** A finished package leaves the slot only to be installed, or to make room for another version. */
  lemma ReadyLeavesExactly<P>(slot: Slot<P>, op: Op<P>)
    requires slot.Ready?
    ensures Apply(slot, op) != slot <==> op == TakeOp(slot.version) || (op.BeginOp? && op.v != slot.version)
    ensures op == TakeOp(slot.version) ==> TakeReady(slot, op.v) == (Installing(op.v), Taken(slot.payload))
    ensures op.BeginOp? && op.v != slot.version ==>
      BeginDownload(slot, op.v) == (Downloading(op.v), StartReplacingReady(slot.version))
    ensures op == BeginOp(slot.version) ==> BeginDownload(slot, op.v).1 == AlreadyReady
  {
  }

  datatype Ledger = Ledger(
    begins: nat, replaced: nat, cancels: nat, finishes: nat, takes: nat, restores: nat, installs: nat)

  /** Calls that had an effect, as their caller sees it: by the result, or by the slot they changed. */
  function Book<P(==)>(l: Ledger, slot: Slot<P>, op: Op<P>): Ledger {
    match op
    case BeginOp(v) =>
      var r := BeginDownload(slot, v).1;
      l.(begins := l.begins + Bit(r.Start? || r.StartReplacingReady?), replaced := l.replaced + Bit(r.StartReplacingReady?))
    case CancelOp(v) => l.(cancels := l.cancels + Bit(CancelDownload(slot, v) != slot))
    case FinishOp(v, p) => l.(finishes := l.finishes + Bit(FinishDownload(slot, v, p).1))
    case TakeOp(v) => l.(takes := l.takes + Bit(TakeReady(slot, v).1.Taken?))
    case RestoreOp(v, p) => l.(restores := l.restores + Bit(RestoreReady(slot, v, p) != slot))
    case FinishInstallOp(v) => l.(installs := l.installs + Bit(FinishInstall(slot, v) != slot))
  }

  function Books<P(==)>(ops: seq<Op<P>>): Ledger {
    if ops == [] then Ledger(0, 0, 0, 0, 0, 0, 0)
    else Book(Books(ops[..|ops| - 1]), Run(ops[..|ops| - 1]), ops[|ops| - 1])
  }

  /** No download, package or install claim is ever created or lost: every one is in the slot or accounted for. */
  lemma {:induction false} Conservation<P>(ops: seq<Op<P>>)
    ensures
      var l, slot := Books(ops), Run(ops);
      && l.begins == l.cancels + l.finishes + Bit(slot.Downloading?)
      && l.finishes + l.restores == l.takes + l.replaced + Bit(slot.Ready?)
      && l.takes == l.restores + l.installs + Bit(slot.Installing?)
  {
    if ops != [] {
      Conservation(ops[..|ops| - 1]);
    }
  }
}

module UpdateCache {
  import opened Prelude
  import S = UpdateSlot

  type Version = S.Version

  /** The cache object: each method is one critical section of the slot mutex. */
  class DownloadedUpdateCache<P> {
    var slot: S.Slot<P>
    var transferred: nat
    var total: nat

    constructor ()
      ensures slot == S.Empty && transferred == 0 && total == 0
    {
      slot, transferred, total := S.Empty, 0, 0;
    }

    /** `measure` sizes a payload that is already there, under the same lock that decided so. */
    method BeginDownload(v: Version, measure: P -> nat) returns (r: S.Begin, retainedLen: nat)
      modifies this
      ensures (slot, r) == S.BeginDownload(old(slot), v)
      ensures old(slot).Ready? && old(slot).version == v ==>
        slot == old(slot) && r.AlreadyReady? && retainedLen == measure(old(slot).payload)
      ensures old(slot).Downloading? || old(slot).Installing? ==> slot == old(slot) && r == S.Refused(old(slot).version)
      ensures old(slot).Ready? && old(slot).version != v ==>
        slot == S.Downloading(v) && r == S.StartReplacingReady(old(slot).version)
      ensures old(slot).Empty? ==> slot == S.Downloading(v) && r == S.Start
      ensures if r.Start? || r.StartReplacingReady? then transferred == 0 && total == 0
              else transferred == old(transferred) && total == old(total)
    {
      retainedLen := 0;
      if slot.Downloading? || slot.Installing? {
        return S.Refused(slot.version), 0;
      }
      if slot.Ready? && slot.version == v {
        return S.AlreadyReady, measure(slot.payload);
      }
      r := if slot.Ready? then S.StartReplacingReady(slot.version) else S.Start;
      transferred, total := 0, 0;
      slot := S.Downloading(v);
    }

    method CancelDownload(v: Version)
      modifies `slot
      ensures slot == S.CancelDownload(old(slot), v)
      ensures slot == if old(slot) == S.Downloading(v) then S.Empty else old(slot)
    {
      if slot.Downloading? && slot.version == v {
        slot := S.Empty;
      }
    }

    method FinishDownload(v: Version, payload: P) returns (ok: bool)
      modifies `slot
      ensures (slot, ok) == S.FinishDownload(old(slot), v, payload)
      ensures ok <==> old(slot) == S.Downloading(v)
      ensures slot == if ok then S.Ready(v, payload) else old(slot)
    {
      if !(slot.Downloading? && slot.version == v) {
        return false;
      }
      slot := S.Ready(v, payload);
      return true;
    }

    /** The slot is emptied first and put back on every refusal. */
    method TakeReady(v: Version) returns (r: S.Take<P>)
      modifies `slot
      ensures (slot, r) == S.TakeReady(old(slot), v)
      ensures !r.Taken? ==> slot == old(slot)
      ensures r.Taken? ==> slot == S.Installing(v) && old(slot) == S.Ready(v, r.payload)
      ensures r.StillDownloading? <==> old(slot).Downloading?
      ensures r.AlreadyInstalling? <==> old(slot).Installing?
      ensures r.NotRetained? <==> old(slot).Empty? || (old(slot).Ready? && old(slot).version != v)
    {
      var other := slot;
      slot := S.Empty;
      match other {
        case Ready(ready, payload) =>
          if ready == v {
            slot := S.Installing(ready);
            r := S.Taken(payload);
          } else {
            slot := other;
            r := S.NotRetained;
          }
        case Downloading(_) =>
          slot := other;
          r := S.StillDownloading;
        case Installing(_) =>
          slot := other;
          r := S.AlreadyInstalling;
        case Empty =>
          r := S.NotRetained;
      }
    }

    method RestoreReady(v: Version, payload: P)
      modifies `slot
      ensures slot == S.RestoreReady(old(slot), v, payload)
      ensures slot == if old(slot) == S.Installing(v) then S.Ready(v, payload) else old(slot)
    {
      if slot.Installing? && slot.version == v {
        slot := S.Ready(v, payload);
      }
    }

    method FinishInstall(v: Version)
      modifies `slot
      ensures slot == S.FinishInstall(old(slot), v)
      ensures slot == if old(slot) == S.Installing(v) then S.Empty else old(slot)
    {
      if slot.Installing? && slot.version == v {
        slot := S.Empty;
      }
    }

    /** Feed the progress counters of the running download. */
    method Record(chunk: nat, contentLength: Option<nat>)
      modifies `transferred, `total
      ensures transferred == old(transferred) + chunk
      ensures total == if contentLength.Some? then contentLength.value else old(total)
    {
      transferred := transferred + chunk;
      if contentLength.Some? {
        total := contentLength.value;
      }
    }
  }
}

module UpdateTasks {
  import opened Prelude
  import opened UpdateSlot

  // ----- concurrent download and install tasks -----

  type Tid = nat

  /** What a live task holds: a download it owns, a download it must cancel, or a package being installed. */
  datatype Task<+P> =
    | Fetching(v: Version, received: nat)
    | Cancelling(v: Version)
    | Holding(v: Version, payload: P)

  datatype Event<+P> =
    | Finished(v: Version, payload: P)
    | Took(v: Version, payload: P)
    | FinishRefused
    | RestoreDiscarded
    | InstallDiscarded

  datatype State<+P> = State(slot: Slot<P>, transferred: nat, tasks: map<Tid, Task<P>>, log: seq<Event<P>>)

  datatype Action<+P> =
    | Download(t: Tid, v: Version)
    | Chunk(t: Tid, bytes: nat)
    | DownloadOk(t: Tid, payload: P)
    | DownloadErr(t: Tid)
    | Cancel(t: Tid)
    | Install(t: Tid, v: Version)
    | InstallOk(t: Tid)
    | InstallErr(t: Tid)

  function Initial<P>(): State<P> {
    State(Empty, 0, map[], [])
  }

  /** One critical section of `download_update` or `install_update`, or one progress callback. */
  function Step<P(==)>(s: State<P>, a: Action<P>): State<P> {
    match a
    case Download(t, v) =>
      if t in s.tasks then s
      else
        var (slot, r) := BeginDownload(s.slot, v);
        if r.Start? || r.StartReplacingReady? then s.(slot := slot, transferred := 0, tasks := s.tasks[t := Fetching(v, 0)])
        else s
    case Chunk(t, bytes) =>
      if t in s.tasks && s.tasks[t].Fetching? then
        s.(transferred := s.transferred + bytes,
           tasks := s.tasks[t := Fetching(s.tasks[t].v, s.tasks[t].received + bytes)])
      else s
    case DownloadOk(t, payload) =>
      if t in s.tasks && s.tasks[t].Fetching? then
        var v := s.tasks[t].v;
        var (slot, ok) := FinishDownload(s.slot, v, payload);
        if ok then s.(slot := slot, tasks := s.tasks - {t}, log := s.log + [Finished(v, payload)])
        else s.(slot := slot, tasks := s.tasks[t := Cancelling(v)], log := s.log + [FinishRefused])
      else s
    case DownloadErr(t) =>
      if t in s.tasks && s.tasks[t].Fetching? then s.(tasks := s.tasks[t := Cancelling(s.tasks[t].v)]) else s
    case Cancel(t) =>
      if t in s.tasks && s.tasks[t].Cancelling? then
        s.(slot := CancelDownload(s.slot, s.tasks[t].v), tasks := s.tasks - {t})
      else s
    case Install(t, v) =>
      if t in s.tasks then s
      else
        var (slot, r) := TakeReady(s.slot, v);
        if r.Taken? then s.(slot := slot, tasks := s.tasks[t := Holding(v, r.payload)], log := s.log + [Took(v, r.payload)])
        else s.(slot := slot)
    case InstallOk(t) =>
      if t in s.tasks && s.tasks[t].Holding? then
        var slot := FinishInstall(s.slot, s.tasks[t].v);
        s.(slot := slot, tasks := s.tasks - {t}, log := if slot == s.slot then s.log + [InstallDiscarded] else s.log)
      else s
    case InstallErr(t) =>
      if t in s.tasks && s.tasks[t].Holding? then
        var slot := RestoreReady(s.slot, s.tasks[t].v, s.tasks[t].payload);
        s.(slot := slot, tasks := s.tasks - {t}, log := if slot == s.slot then s.log + [RestoreDiscarded] else s.log)
      else s
  }

  function Exec<P(==)>(run: seq<Action<P>>): State<P> {
    if run == [] then Initial() else Step(Exec(run[..|run| - 1]), run[|run| - 1])
  }

  /** The payload of the newest successful finish of a version. */
  function LastFinished<P>(log: seq<Event<P>>, v: Version): Option<P> {
    if log == [] then None
    else
      var e := log[|log| - 1];
      if e.Finished? && e.v == v then Some(e.payload) else LastFinished(log[..|log| - 1], v)
  }

  lemma LastFinishedAppend<P>(log: seq<Event<P>>, e: Event<P>, v: Version)
    ensures LastFinished(log + [e], v) == if e.Finished? && e.v == v then Some(e.payload) else LastFinished(log, v)
  {
    assert (log + [e])[..|log|] == log;
  }

  /** The slot is claimed for download or install exactly by one live task, with that task's version. */
  predicate Owned<P(==)>(s: State<P>) {
    && (forall t :: t in s.tasks ==> Claims(s, t))
    && (forall t, u :: t in s.tasks && u in s.tasks ==> t == u)
    && (s.slot.Downloading? || s.slot.Installing? ==> s.tasks != map[])
  }

  predicate Claims<P(==)>(s: State<P>, t: Tid)
    requires t in s.tasks
  {
    match s.tasks[t]
    case Fetching(v, received) => s.slot == Downloading(v) && s.transferred == received
    case Cancelling(v) => s.slot == Downloading(v)
    case Holding(v, payload) => s.slot == Installing(v) && LastFinished(s.log, v) == Some(payload)
  }

  predicate Faithful<P(==)>(s: State<P>) {
    && (s.slot.Ready? ==> LastFinished(s.log, s.slot.version) == Some(s.slot.payload))
    && (forall k :: 0 <= k < |s.log| ==> !s.log[k].FinishRefused? && !s.log[k].RestoreDiscarded? && !s.log[k].InstallDiscarded?)
    && (forall k :: 0 <= k < |s.log| && s.log[k].Took? ==> LastFinished(s.log[..k], s.log[k].v) == Some(s.log[k].payload))
  }

  lemma LogStays<P>(s: State<P>, e: Event<P>, s': State<P>)
    requires Faithful(s) && s'.log == s.log + [e]
    requires !e.FinishRefused? && !e.RestoreDiscarded? && !e.InstallDiscarded?
    requires e.Took? ==> LastFinished(s.log, e.v) == Some(e.payload)
    ensures forall k :: 0 <= k < |s'.log| ==> !s'.log[k].FinishRefused? && !s'.log[k].RestoreDiscarded? && !s'.log[k].InstallDiscarded?
    ensures forall k :: 0 <= k < |s'.log| && s'.log[k].Took? ==> LastFinished(s'.log[..k], s'.log[k].v) == Some(s'.log[k].payload)
  {
    forall k | 0 <= k < |s'.log| && s'.log[k].Took?
      ensures LastFinished(s'.log[..k], s'.log[k].v) == Some(s'.log[k].payload)
    {
      assert s'.log[..k] == s.log[..k];
      assert s.log[..|s.log|] == s.log;
    }
  }

  lemma NewestFinish<P>(s: State<P>, a: Action<P>, v: Version)
    ensures var log := Step(s, a).log;
            log == s.log || (
              && |log| == |s.log| + 1 && log[..|s.log|] == s.log
              && var e := log[|s.log|];
                 LastFinished(log, v) == if e.Finished? && e.v == v then Some(e.payload) else LastFinished(s.log, v))
  {
    var log := Step(s, a).log;
    if |log| > |s.log| {
      assert log == s.log + [log[|s.log|]];
      LastFinishedAppend(s.log, log[|s.log|], v);
    }
  }

  lemma StepKeepsOwned<P>(s: State<P>, a: Action<P>)
    requires Owned(s) && Faithful(s)
    ensures Owned(Step(s, a))
  {
    var s' := Step(s, a);
    forall v {
      NewestFinish(s, a, v);
    }
    if s'.tasks != map[] && s.tasks == map[] {
      assert forall t :: t in s'.tasks ==> t == a.t;
    }
  }

  lemma StepKeepsFaithful<P>(s: State<P>, a: Action<P>)
    requires Owned(s) && Faithful(s)
    ensures Faithful(Step(s, a))
  {
    var s' := Step(s, a);
    if s'.slot.Ready? {
      NewestFinish(s, a, s'.slot.version);
    }
    if |s'.log| > |s.log| {
      assert s'.log == s.log + [s'.log[|s.log|]];
      LogStays(s, s'.log[|s.log|], s');
    }
  }

  lemma StepKeeps<P>(s: State<P>, a: Action<P>)
    requires Owned(s) && Faithful(s)
    ensures Owned(Step(s, a)) && Faithful(Step(s, a))
  {
    StepKeepsOwned(s, a);
    StepKeepsFaithful(s, a);
  }

  /**
   Over every interleaving of any number of download and install tasks: at most one of them is live past
   its first critical section, the slot says which claim it has, its progress counter is what that task
   received, no finish is refused, no restore or completed install is dropped, and every package taken is
   the newest one finished for its version.
   */
  lemma {:induction false} TasksOwnTheSlot<P>(run: seq<Action<P>>)
    ensures Owned(Exec(run)) && Faithful(Exec(run))
  {
    if run != [] {
      TasksOwnTheSlot(run[..|run| - 1]);
      StepKeeps(Exec(run[..|run| - 1]), run[|run| - 1]);
    }
  }

  /** The slot cannot be wedged: with no task live, a download of any version is accepted or already there. */
  lemma NeverWedged<P>(run: seq<Action<P>>, v: Version)
    ensures Exec(run).tasks == map[] ==> !BeginDownload(Exec(run).slot, v).1.Refused?
    ensures Exec(run).slot.Downloading? <==> exists t :: t in Exec(run).tasks && !Exec(run).tasks[t].Holding?
    ensures Exec(run).slot.Installing? <==> exists t :: t in Exec(run).tasks && Exec(run).tasks[t].Holding?
  {
    TasksOwnTheSlot(run);
    var s := Exec(run);
    if s.tasks != map[] {
      var t :| t in s.tasks;
      assert Claims(s, t);
    }
  }

  /** However a live task ends, it frees the slot: what it finished or could not install is there, all else is gone. */
  lemma TasksFreeTheSlot<P>(s: State<P>, t: Tid, payload: P)
    requires Owned(s) && t in s.tasks
    ensures
      match s.tasks[t]
      case Fetching(v, _) =>
        && Step(s, DownloadOk(t, payload)).slot == Ready(v, payload) && Step(s, DownloadOk(t, payload)).tasks == map[]
        && Step(s, DownloadErr(t)).slot == s.slot && Step(s, DownloadErr(t)).tasks == map[t := Cancelling(v)]
      case Cancelling(v) =>
        Step(s, Cancel(t)).slot == Empty && Step(s, Cancel(t)).tasks == map[]
      case Holding(v, p) =>
        && Step(s, InstallErr(t)).slot == Ready(v, p) && Step(s, InstallErr(t)).tasks == map[]
        && Step(s, InstallOk(t)).slot == Empty && Step(s, InstallOk(t)).tasks == map[]
  {
    assert Claims(s, t);
    assert s.tasks.Keys == {t};
    assert s.tasks - {t} == map[];
  }

  /** What takes a finished package of version `w` out of the slot: its installation, or the download of another version. */
  predicate Leaves<P>(a: Action<P>, w: Version) {
    (a.Install? && a.v == w) || (a.Download? && a.v != w)
  }

  lemma ReadyStep<P>(s: State<P>, a: Action<P>)
    requires Owned(s) && s.slot.Ready?
    ensures Step(s, a).slot != s.slot <==> Leaves(a, s.slot.version)
    ensures a.Install? && a.v == s.slot.version ==>
      && Step(s, a).slot == Installing(a.v) && Step(s, a).tasks == map[a.t := Holding(a.v, s.slot.payload)]
      && Step(s, a).log == s.log + [Took(a.v, s.slot.payload)]
    ensures a.Download? && a.v != s.slot.version ==>
      Step(s, a).slot == Downloading(a.v) && Step(s, a).tasks == map[a.t := Fetching(a.v, 0)]
  {
    assert s.tasks.Keys == {};
  }

  /** At every moment of `later` the slot is this one. */
  predicate Stays<P(==)>(run: seq<Action<P>>, later: seq<Action<P>>, slot: Slot<P>) {
    Exec(run + later).slot == slot && (later != [] ==> Stays(run, later[..|later| - 1], slot))
  }

  lemma StaysNext<P>(run: seq<Action<P>>, later: seq<Action<P>>, a: Action<P>, slot: Slot<P>)
    requires slot.Ready?
    ensures Stays(run, later + [a], slot) <==> Stays(run, later, slot) && !Leaves(a, slot.version)
  {
    var all := later + [a];
    assert all[..|all| - 1] == later;
    assert (run + all)[..|run + all| - 1] == run + later;
    if Stays(run, later, slot) {
      TasksOwnTheSlot(run + later);
      ReadyStep(Exec(run + later), a);
    }
  }

  /**
   A finished package is there at every moment of whatever the tasks do next exactly if none of them installs it or
   downloads another version; no cancelled, failed or finished task can touch it.
   */
  lemma {:induction false} PackageStaysExactly<P>(run: seq<Action<P>>, later: seq<Action<P>>)
    requires Exec(run).slot.Ready?
    ensures Stays(run, later, Exec(run).slot) <==>
      forall k :: 0 <= k < |later| ==> !Leaves(later[k], Exec(run).slot.version)
  {
    if later == [] {
      assert run + later == run;
    } else {
      var init, a := later[..|later| - 1], later[|later| - 1];
      PackageStaysExactly(run, init);
      assert later == init + [a];
      StaysNext(run, init, a, Exec(run).slot);
    }
  }
}
