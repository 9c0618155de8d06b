/**
 Workspaces of the mock App Server: created by path, revoked softly, re-activated by creating the path again
 (web/scripts/mock-server.ts:78-95, 607-620, 643-669, 1060-1077).
 Workspaces are never removed, so a workspace's identifier is modelled as its place in the order of creation.
 */
module Workspaces {

  type Id = nat

  datatype Workspace = Workspace(rootPath: string, createdAt: nat, updatedAt: nat, revoked: bool)

  datatype Answer = InvalidRequest | Denied | Created(id: Id) | Revoked(done: bool) | Bound

  predicate Blank(c: char) {
    c in " \t\r\n"
  }

  function TrimStart(s: string): (r: string)
    ensures |r| <= |s| && (r != "" ==> !Blank(r[0]))
  {
    if s != "" && Blank(s[0]) then TrimStart(s[1..]) else s
  }

  function TrimEnd(s: string): (r: string)
    ensures r <= s && (r != "" ==> !Blank(r[|r| - 1]))
  {
    if s != "" && Blank(s[|s| - 1]) then TrimEnd(s[..|s| - 1]) else s
  }

  function Trim(s: string): (r: string)
    ensures r != "" ==> !Blank(r[0]) && !Blank(r[|r| - 1])
  {
    TrimEnd(TrimStart(s))
  }

  /** An absolute path: rooted, or with a drive letter. */
  predicate Absolute(path: string) {
    || (|path| > 0 && path[0] == '/')
    || (|path| > 2 && ('A' <= path[0] <= 'Z' || 'a' <= path[0] <= 'z') && path[1] == ':' && path[2] in "\\/")
  }

  function Touch(w: Workspace, now: nat): Workspace {
    w.(updatedAt := now, revoked := false)
  }

  predicate FirstAt(all: seq<Workspace>, path: string, i: nat) {
    i < |all| && all[i].rootPath == path && forall j :: 0 <= j < i ==> all[j].rootPath != path
  }

  class Registry {
    var workspaces: seq<Workspace>

    constructor ()
      ensures workspaces == []
    {
      workspaces := [];
    }

    method EnsureWorkspace(path: string, now: nat) returns (id: Id)
      modifies this
      ensures (workspaces, id) == Ensure(old(workspaces), path, now)
    {
      id := 0;
      while id < |workspaces|
        invariant 0 <= id <= |workspaces|
        invariant workspaces == old(workspaces)
        invariant forall j :: 0 <= j < id ==> workspaces[j].rootPath != path
      {
        if workspaces[id].rootPath == path {
          FirstIsFound(workspaces, path, id);
          workspaces := workspaces[id := Touch(workspaces[id], now)];
          return;
        }
        id := id + 1;
      }
      AbsentIsNotFound(workspaces, path);
      workspaces := workspaces + [Workspace(path, now, now, false)];
    }

    method CreateWorkspace(raw: string, now: nat) returns (answer: Answer)
      modifies this
      ensures (workspaces, answer) == Apply(old(workspaces), Create(raw, now))
    {
      var path := Trim(raw);
      if path == "" {
        return InvalidRequest;
      }
      if !Absolute(path) {
        return Denied;
      }
      var id := EnsureWorkspace(path, now);
      answer := Created(id);
    }

    method RevokeWorkspace(id: Id, now: nat) returns (answer: Answer)
      modifies this
      ensures (workspaces, answer) == Apply(old(workspaces), Revoke(id, now))
      ensures answer == Revoked(id < |old(workspaces)|)
      ensures id < |workspaces| ==>
        workspaces == old(workspaces)[id := workspaces[id]] && workspaces[id].revoked
        && workspaces[id].rootPath == old(workspaces)[id].rootPath
    {
      if id >= |workspaces| {
        return Revoked(false);
      }
      workspaces := workspaces[id := workspaces[id].(updatedAt := now, revoked := true)];
      answer := Revoked(true);
    }
  }

  /** The place of the first workspace with the path, or the number of workspaces. */
  function Find(all: seq<Workspace>, path: string): (i: nat)
    ensures i <= |all|
  {
    if all == [] then 0
    else
      var before := Find(all[..|all| - 1], path);
      if before < |all| - 1 || all[|all| - 1].rootPath == path then before else |all|
  }

  function Ensure(all: seq<Workspace>, path: string, now: nat): (seq<Workspace>, Id) {
    var i := Find(all, path);
    if i < |all| then (all[i := Touch(all[i], now)], i)
    else (all + [Workspace(path, now, now, false)], |all|)
  }

  /** `HttpCreate` is the HTTP endpoint, which registers a directory of the server's own naming without looking. */
  datatype Op =
    | Create(raw: string, now: nat)
    | HttpCreate(path: string, now: nat)
    | Revoke(id: Id, now: nat)
    | Bind(id: Id)

  /** `Bind` is the creation of a conversation that names a workspace. */
  function Apply(all: seq<Workspace>, op: Op): (seq<Workspace>, Answer) {
    match op
    case Create(raw, now) =>
      if Trim(raw) == "" then (all, InvalidRequest)
      else if !Absolute(Trim(raw)) then (all, Denied)
      else var (r, id) := Ensure(all, Trim(raw), now); (r, Created(id))
    case HttpCreate(path, now) => (all + [Workspace(path, now, now, false)], Created(|all|))
    case Revoke(id, now) =>
      if id >= |all| then (all, Revoked(false))
      else (all[id := all[id].(updatedAt := now, revoked := true)], Revoked(true))
    case Bind(id) => (all, if id >= |all| || all[id].revoked then Denied else Bound)
  }

  function Exec(all: seq<Workspace>, ops: seq<Op>): seq<Workspace>
    decreases |ops|
  {
    if ops == [] then all else Exec(Apply(all, ops[0]).0, ops[1..])
  }

  lemma {:induction false} FindIsFirst(all: seq<Workspace>, path: string)
    ensures Find(all, path) < |all| ==> FirstAt(all, path, Find(all, path))
    ensures Find(all, path) == |all| ==> forall j :: 0 <= j < |all| ==> all[j].rootPath != path
  {
    if all != [] {
      FindIsFirst(all[..|all| - 1], path);
    }
  }

  lemma FirstIsFound(all: seq<Workspace>, path: string, i: nat)
    requires FirstAt(all, path, i)
    ensures Find(all, path) == i
  {
    FindIsFirst(all, path);
  }

  lemma AbsentIsNotFound(all: seq<Workspace>, path: string)
    requires forall j :: 0 <= j < |all| ==> all[j].rootPath != path
    ensures Find(all, path) == |all|
  {
    FindIsFirst(all, path);
  }

  lemma ApplyKeepsPaths(all: seq<Workspace>, op: Op)
    ensures var r := Apply(all, op).0;
            && |all| <= |r|
            && forall i :: 0 <= i < |all| ==> r[i].rootPath == all[i].rootPath && r[i].createdAt == all[i].createdAt
  {}

  lemma {:induction false} PathsAreForever(all: seq<Workspace>, ops: seq<Op>)
    ensures var r := Exec(all, ops);
            && |all| <= |r|
            && forall i :: 0 <= i < |all| ==> r[i].rootPath == all[i].rootPath && r[i].createdAt == all[i].createdAt
    decreases |ops|
  {
    if ops != [] {
      ApplyKeepsPaths(all, ops[0]);
      PathsAreForever(Apply(all, ops[0]).0, ops[1..]);
    }
  }

  /**
   A path that was created once keeps its workspace: after any other creations, revocations and bindings, creating it
   again gives the same identifier, active again, with the time of its first creation.
   */
  lemma PathKeepsWorkspace(all: seq<Workspace>, raw: string, now: nat, ops: seq<Op>, again: string, later: nat)
    requires Apply(all, Create(raw, now)).1.Created? && Trim(again) == Trim(raw)
    ensures var (r, answer) := Apply(all, Create(raw, now));
            var (last, second) := Apply(Exec(r, ops), Create(again, later));
            && second == answer
            && answer.id < |r| && answer.id < |last|
            && last[answer.id] == Workspace(Trim(raw), r[answer.id].createdAt, later, false)
  {
    var (r, answer) := Apply(all, Create(raw, now));
    FindIsFirst(all, Trim(raw));
    assert FirstAt(r, Trim(raw), answer.id);
    PathsAreForever(r, ops);
    FirstIsFound(Exec(r, ops), Trim(raw), answer.id);
  }

  /** A conversation is bound to a workspace exactly when it is known and not revoked, and that changes nothing. */
  lemma BindsExactly(all: seq<Workspace>, id: Id)
    ensures Apply(all, Bind(id)).0 == all
    ensures Apply(all, Bind(id)).1 == Bound <==> id < |all| && !all[id].revoked
    ensures Apply(all, Bind(id)).1 == Denied <==> !(id < |all| && !all[id].revoked)
  {
  }

  /** An active workspace is revoked by its own revocation and by nothing else. */
  lemma ActiveStays(all: seq<Workspace>, op: Op, id: Id)
    requires id < |all| && !all[id].revoked
    ensures id < |Apply(all, op).0|
    ensures Apply(all, op).0[id].revoked <==> op.Revoke? && op.id == id
  {
  }

  lemma {:induction false} ActiveThrough(all: seq<Workspace>, id: Id, ops: seq<Op>)
    requires id < |all| && !all[id].revoked
    requires forall k :: 0 <= k < |ops| ==> !(ops[k].Revoke? && ops[k].id == id)
    ensures id < |Exec(all, ops)| && !Exec(all, ops)[id].revoked
    decreases |ops|
  {
    if ops != [] {
      ActiveStays(all, ops[0], id);
      ActiveThrough(Apply(all, ops[0]).0, id, ops[1..]);
    }
  }

  /** A path that was created, or created again, gives a workspace that conversations bind to until it is revoked. */
  lemma CreatedBinds(all: seq<Workspace>, raw: string, now: nat, ops: seq<Op>)
    requires Apply(all, Create(raw, now)).1.Created?
    requires
      var id := Apply(all, Create(raw, now)).1.id;
      forall k :: 0 <= k < |ops| ==> !(ops[k].Revoke? && ops[k].id == id)
    ensures
      var (r, a) := Apply(all, Create(raw, now));
      Apply(Exec(r, ops), Bind(a.id)).1 == Bound
  {
    var (r, a) := Apply(all, Create(raw, now));
    FindIsFirst(all, Trim(raw));
    ActiveThrough(r, a.id, ops);
  }

  predicate AllBlank(s: string) {
    forall k :: 0 <= k < |s| ==> s[k] in {' ', 9 as char, 13 as char, 10 as char}
  }

  lemma {:induction false} TrimStartDrops(s: string) returns (lead: string)
    ensures s == lead + TrimStart(s) && AllBlank(lead)
  {
    if s != "" && Blank(s[0]) {
      lead := TrimStartDrops(s[1..]);
      lead := [s[0]] + lead;
      assert s == [s[0]] + s[1..];
    } else {
      lead := "";
    }
  }

  lemma {:induction false} TrimEndDrops(s: string) returns (trail: string)
    ensures s == TrimEnd(s) + trail && AllBlank(trail)
  {
    if s != "" && Blank(s[|s| - 1]) {
      trail := TrimEndDrops(s[..|s| - 1]);
      trail := trail + [s[|s| - 1]];
      assert s == s[..|s| - 1] + [s[|s| - 1]];
    } else {
      trail := "";
    }
  }

  /** Trimming takes blanks from both ends and nothing else. */
  lemma TrimDropsOnlyBlanks(s: string) returns (lead: string, trail: string)
    ensures s == lead + Trim(s) + trail && AllBlank(lead) && AllBlank(trail)
  {
    lead := TrimStartDrops(s);
    trail := TrimEndDrops(TrimStart(s));
    assert lead + (Trim(s) + trail) == lead + Trim(s) + trail;
  }

  /** No step but creating the path again re-activates a revoked workspace. */
  predicate Readds(all: seq<Workspace>, op: Op, id: Id) {
    op.Create? && Absolute(Trim(op.raw)) && FirstAt(all, Trim(op.raw), id)
  }

  lemma RevokedStays(all: seq<Workspace>, op: Op, id: Id)
    requires id < |all| && all[id].revoked
    ensures id < |Apply(all, op).0|
    ensures Apply(all, op).0[id].revoked <==> !Readds(all, op, id)
  {
    if op.Create? {
      FindIsFirst(all, Trim(op.raw));
    }
  }

  predicate NeverReadded(all: seq<Workspace>, ops: seq<Op>, id: Id)
    decreases |ops|
  {
    ops == [] || (!Readds(all, ops[0], id) && NeverReadded(Apply(all, ops[0]).0, ops[1..], id))
  }

  /** A revoked workspace is refused to every conversation until its path is created again. */
  lemma {:induction false} RevokedIsRefused(all: seq<Workspace>, id: Id, now: nat, ops: seq<Op>)
    requires id < |all| && NeverReadded(Apply(all, Revoke(id, now)).0, ops, id)
    ensures Apply(Exec(Apply(all, Revoke(id, now)).0, ops), Bind(id)).1 == Denied
  {
    RevokedThrough(Apply(all, Revoke(id, now)).0, id, ops);
  }

  lemma {:induction false} RevokedThrough(all: seq<Workspace>, id: Id, ops: seq<Op>)
    requires id < |all| && all[id].revoked && NeverReadded(all, ops, id)
    ensures id < |Exec(all, ops)| && Exec(all, ops)[id].revoked
    decreases |ops|
  {
    if ops != [] {
      RevokedStays(all, ops[0], id);
      RevokedThrough(Apply(all, ops[0]).0, id, ops[1..]);
    }
  }

  /** Creating a path twice never gives two workspaces; only the HTTP endpoint can repeat a path. */
  lemma CreateKeepsPathsDistinct(all: seq<Workspace>, raw: string, now: nat)
    requires forall i, j :: 0 <= i < j < |all| ==> all[i].rootPath != all[j].rootPath
    ensures var r := Apply(all, Create(raw, now)).0;
            forall i, j :: 0 <= i < j < |r| ==> r[i].rootPath != r[j].rootPath
  {
    FindIsFirst(all, Trim(raw));
  }
}
