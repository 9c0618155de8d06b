/**
 Full upload runs and rollbacks against one release repository
 (scripts/upload-modelscope-release.py:315-329, 396-435, 560-743, scripts/rollback-modelscope-release.py:127-188).
 The repository is a map from path to content; every upload attempt may be stored, lost, or stored although
 it is reported lost.
 */
module ReleasePublish {
  import opened Prelude
  import opened Text
  import opened UrlCodec
  import opened ReleaseUrls
  import opened ReleaseManifest

  datatype Content =
    | Blob(size: nat, data: nat)
    | Doc(manifest: Manifest)
    | Pointer(version: string)

  datatype File = File(name: string, content: Content)

  datatype Attempt = Stored | StoredButReportedLost | Lost

  datatype Uploaded = Ok | Skipped | Failed

  datatype Outcome = Rejected | ArtifactsFailed(count: nat) | Published(failures: nat)

  function Size(c: Content): nat {
    if c.Blob? then c.size else 0
  }

  /** The backoff before retry `k + 1`. */
  function Delay(base: nat, k: nat): nat {
    if k == 0 then base else 2 * Delay(base, k - 1)
  }

  function Pow2(k: nat): nat {
    if k == 0 then 1 else Pow2(k - 1) + Pow2(k - 1)
  }

  lemma {:induction false} BackoffIsExponential(base: nat, k: nat)
    ensures Delay(base, k) == base * Pow2(k)
  {
    if k > 0 {
      BackoffIsExponential(base, k - 1);
    }
  }

  // ----- collecting the artifacts of a build -----

  predicate Has(files: seq<File>, name: string) {
    exists k :: 0 <= k < |files| && files[k].name == name
  }

  function Named(files: seq<File>, name: string): Option<File> {
    if files == [] then None
    else if files[0].name == name then Some(files[0])
    else Named(files[1..], name)
  }

  lemma {:induction false} NamedIsThere(files: seq<File>, name: string)
    ensures Named(files, name).Some? ==> Named(files, name).value in files && Named(files, name).value.name == name
  {
    if files != [] {
      NamedIsThere(files[1..], name);
    }
  }

  function SigOf(name: string): string {
    name + ".sig"
  }

  /** Packages with their signatures among the first `n` files; None is the error for a missing signature. */
  function Collected(dist: seq<File>, n: nat, package: string -> bool): Option<seq<File>>
    requires n <= |dist|
  {
    if n == 0 then Some([])
    else
      var list := Collected(dist, n - 1, package);
      var sig := Named(dist, SigOf(dist[n - 1].name));
      if list.None? || !package(dist[n - 1].name) then list
      else if sig.None? then None
      else Some(list.value + [dist[n - 1], sig.value])
  }

  lemma {:induction false} CollectedStaysNone(dist: seq<File>, n: nat, m: nat, package: string -> bool)
    requires n <= m <= |dist| && Collected(dist, n, package).None?
    ensures Collected(dist, m, package).None?
  {
    if n < m {
      CollectedStaysNone(dist, n, m - 1, package);
    }
  }

  lemma {:induction false} CollectedEmptyExactly(dist: seq<File>, n: nat, package: string -> bool)
    requires n <= |dist|
    ensures Collected(dist, n, package) == Some([]) <==> forall k :: 0 <= k < n ==> !package(dist[k].name)
  {
    if n > 0 {
      CollectedEmptyExactly(dist, n - 1, package);
    }
  }

  method CollectArtifacts(dist: seq<File>, package: string -> bool) returns (found: Option<seq<File>>)
    ensures found == Collected(dist, |dist|, package)
  {
    var list: seq<File> := [];
    for i := 0 to |dist|
      invariant Collected(dist, i, package) == Some(list)
    {
      if package(dist[i].name) {
        var sig := Named(dist, SigOf(dist[i].name));
        if sig.None? {
          CollectedStaysNone(dist, i + 1, |dist|, package);
          return None;
        }
        list := list + [dist[i], sig.value];
      }
    }
    found := Some(list);
  }

  /** A package or the signature of one. */
  ghost predicate Collectable(dist: seq<File>, f: File, package: string -> bool) {
    f in dist && (package(f.name) || exists name :: package(name) && f.name == SigOf(name))
  }

  /** The collection succeeds exactly when no package lacks its signature, and then holds every package and its signature. */
  lemma {:induction false} CollectedExactly(dist: seq<File>, n: nat, package: string -> bool)
    requires n <= |dist|
    ensures Collected(dist, n, package).Some? <==>
      forall k :: 0 <= k < n && package(dist[k].name) ==> Named(dist, SigOf(dist[k].name)).Some?
    ensures Collected(dist, n, package).Some? ==>
      && (forall k :: 0 <= k < n && package(dist[k].name) ==>
            dist[k] in Collected(dist, n, package).value && Named(dist, SigOf(dist[k].name)).value in Collected(dist, n, package).value)
      && (forall f :: f in Collected(dist, n, package).value ==> Collectable(dist, f, package))
  {
    if n > 0 {
      CollectedExactly(dist, n - 1, package);
      NamedIsThere(dist, SigOf(dist[n - 1].name));
    }
  }

  /** An updater package or the signature of one. */
  predicate IsArtifact(name: string) {
    HasUpdaterSuffix(name) || (EndsWith(name, ".sig") && HasUpdaterSuffix(BaseName(name)))
  }

  lemma SigIsArtifact(name: string)
    requires HasUpdaterSuffix(name)
    ensures IsArtifact(SigOf(name))
  {
    NotASignature(name);
    assert (name + ".sig")[|name|..] == ".sig";
  }

  lemma ArtifactHasFolder(entries: seq<Entry>, name: string)
    requires IsArtifact(name)
    ensures RemoteFolder(entries, name).Some?
  {
    if HasUpdaterSuffix(name) {
      UpdaterArtifactsAlwaysMap(entries, name);
    } else {
      assert name == BaseName(name) + ".sig";
      UpdaterArtifactsAlwaysMap(entries, BaseName(name));
    }
  }

  /** One run of the publishing scripts. */
  datatype Run =
    | Upload(dist: seq<File>, manifest: Manifest, channel: Channel, mergeRemote: bool, fetched: bool,
             skipExisting: bool, retries: nat, baseDelay: nat)
    | Rollback(channel: Channel, toVersion: string, fetched: bool)

  /**
   What a run may be given: blobs under distinct file names, at least one attempt, a version without percent signs, and a
   manifest whose locally built packages are updater packages with names free of percent escapes.
   */
  predicate Sound(run: Run) {
    run.Upload? ==>
      && run.retries >= 1
      && Bytes(run.manifest.version) && '%' !in run.manifest.version
      && (forall k :: 0 <= k < |run.dist| ==> run.dist[k].content.Blob? && Bytes(run.dist[k].name) && Component(run.dist[k].name))
      && OneFilePerName(run.dist)
      && (forall k :: 0 <= k < |run.manifest.platforms| && Local(run.manifest.platforms[k], Names(run.dist)) ==>
            HasUpdaterSuffix(Basename(run.manifest.platforms[k].url)) && Plain(Basename(run.manifest.platforms[k].url)))
  }

  predicate OneFilePerName(files: seq<File>) {
    forall j, k :: 0 <= j < |files| && 0 <= k < |files| && files[j].name == files[k].name ==> files[j] == files[k]
  }

  function Names(dist: seq<File>): set<string> {
    set k | 0 <= k < |dist| :: dist[k].name
  }

  /** The place all scripts are configured with. */
  datatype Place = Place(host: string, repo: string, prefix: string)

  predicate ValidPlace(p: Place) {
    UrlPart(p.host) && UrlPart(p.repo) && Bytes(p.prefix) && '%' !in p.prefix
  }

  function ArtifactPath(p: Place, channel: Channel, tag: string, name: string): (path: string)
    ensures Bytes(p.prefix) && Bytes(tag) && Bytes(name) ==> Bytes(path)
  {
    FilePath(p.prefix, Folder(channel), tag, name)
  }

  function LatestPath(p: Place, channel: Channel): string {
    p.prefix + "/" + "channels/" + Folder(channel) + "/latest.json"
  }

  function ChannelPath(p: Place, channel: Channel): string {
    p.prefix + "/" + "channels/" + Folder(channel) + "/channel.yml"
  }

  function HistoryPath(p: Place, channel: Channel, tag: string): string {
    p.prefix + "/" + "channels/" + Folder(channel) + "/history/" + tag + ".json"
  }

  /** Paths under `channels/`, where no artifact ever goes. */
  predicate DocPath(p: Place, path: string) {
    |path| > |p.prefix| + 1 && path[|p.prefix| + 1] == 'c'
  }

  lemma DocPathsAreDocPaths(p: Place, channel: Channel, tag: string)
    ensures DocPath(p, LatestPath(p, channel)) && DocPath(p, ChannelPath(p, channel)) && DocPath(p, HistoryPath(p, channel, tag))
  {
  }

  lemma FoldersAreNotChannels(folder: string, p: Place, tag: string, name: string)
    requires folder == "windows" || folder == "macos" || folder == "linux"
    ensures !DocPath(p, FilePath(p.prefix, folder, tag, name))
  {
    assert FilePath(p.prefix, folder, tag, name)[|p.prefix| + 1] == folder[0];
  }

  /** The entry's URL is the canonical one of an artifact of this name in this release. */
  ghost predicate Pointed(p: Place, e: Entry, channel: Channel, tag: string, name: string) {
    && Bytes(p.prefix) && Bytes(tag)
    && Allowed(channel, e.key)
    && Bytes(name) && Component(name) && Plain(name)
    && e.url == FileUrl(p.host, p.repo, ArtifactPath(p, channel, tag, name))
  }

  ghost predicate Held(p: Place, files: map<string, Content>, e: Entry, tag: string) {
    exists channel, name :: Pointed(p, e, channel, tag, name)
      && ArtifactPath(p, channel, tag, name) in files && files[ArtifactPath(p, channel, tag, name)].Blob?
  }

  ghost predicate GoodManifest(p: Place, files: map<string, Content>, m: Manifest) {
    && Bytes(m.version) && '%' !in m.version
    && forall k :: 0 <= k < |m.platforms| ==> Held(p, files, m.platforms[k], UploaderTag(Strip(m.version)))
  }

  /** Every published manifest points only at artifacts that are there; nothing but blobs lies outside `channels/`. */
  ghost predicate Inv(p: Place, files: map<string, Content>) {
    && (forall path :: path in files && files[path].Doc? ==> GoodManifest(p, files, files[path].manifest))
    && (forall path :: path in files && !files[path].Blob? ==> DocPath(p, path))
  }

  /** No published manifest names a path that holds no artifact. */
  ghost predicate NothingDangles(p: Place, files: map<string, Content>) {
    forall path, k :: path in files && files[path].Doc? && 0 <= k < |files[path].manifest.platforms| ==>
      Resolves(p, files, files[path].manifest.platforms[k].url)
  }

  ghost predicate Resolves(p: Place, files: map<string, Content>, url: string) {
    exists target :: Bytes(target) && url == FileUrl(p.host, p.repo, target) && target in files && files[target].Blob?
  }

  lemma InvMeansNothingDangles(p: Place, files: map<string, Content>)
    requires ValidPlace(p) && Inv(p, files)
    ensures NothingDangles(p, files)
  {
    forall path, k | path in files && files[path].Doc? && 0 <= k < |files[path].manifest.platforms|
      ensures Resolves(p, files, files[path].manifest.platforms[k].url)
    {
      var m := files[path].manifest;
      assert Held(p, files, m.platforms[k], UploaderTag(Strip(m.version)));
      var channel, name :| Pointed(p, m.platforms[k], channel, UploaderTag(Strip(m.version)), name)
        && ArtifactPath(p, channel, UploaderTag(Strip(m.version)), name) in files
        && files[ArtifactPath(p, channel, UploaderTag(Strip(m.version)), name)].Blob?;
      assert Bytes(ArtifactPath(p, channel, UploaderTag(Strip(m.version)), name));
    }
  }

  // ----- the four computations agree on the path -----

  lemma PointedName(p: Place, e: Entry, channel: Channel, tag: string, name: string)
    requires ValidPlace(p) && '%' !in tag && Pointed(p, e, channel, tag, name)
    ensures Basename(e.url) == name
  {
    var dir := p.prefix + "/" + Folder(channel) + "/" + tag;
    FolderHasNoPercent(channel);
    BasenameOfFileUrlExactly(p.host, p.repo, dir, name);
    assert ArtifactPath(p, channel, tag, name) == dir + "/" + name;
  }

  lemma FolderHasNoPercent(channel: Channel)
    ensures '%' !in Folder(channel) && Bytes(Folder(channel))
  {
  }

  /** Rewriting an allowed entry makes it point at its own artifact name, and rewriting it again changes nothing. */
  lemma RewritingPoints(p: Place, e: Entry, channel: Channel, tag: string)
    requires ValidPlace(p) && Bytes(tag) && '%' !in tag && Allowed(channel, e.key)
    requires Bytes(Basename(e.url)) && Component(Basename(e.url)) && Plain(Basename(e.url))
    ensures
      var e' := Rewritten(e, p.host, p.repo, p.prefix, tag);
      && Pointed(p, e', channel, tag, Basename(e.url))
      && Basename(e'.url) == Basename(e.url)
      && Rewritten(e', p.host, p.repo, p.prefix, tag) == e'
  {
    AllowedKeyHasChannelFolder(channel, e.key);
    var e' := Rewritten(e, p.host, p.repo, p.prefix, tag);
    PointedName(p, e', channel, tag, Basename(e.url));
  }

  /** An artifact named by an entry is uploaded to the very path that the entry's URL names. */
  lemma ArtifactGoesWhereItsUrlPoints(p: Place, entries: seq<Entry>, channel: Channel, tag: string, k: nat, name: string)
    requires ValidPlace(p) && '%' !in tag && HasUpdaterSuffix(name)
    requires forall i :: 0 <= i < |entries| ==> Allowed(channel, entries[i].key)
    requires k < |entries| && Pointed(p, entries[k], channel, tag, name)
    ensures RemoteFolder(entries, name) == Some(Folder(channel))
  {
    NotASignature(name);
    PointedName(p, entries[k], channel, tag, name);
    FolderByUrlInChannel(entries, name, channel, k);
  }

  lemma AllowedOnce(a: Channel, b: Channel, key: string)
    requires Allowed(a, key) && Allowed(b, key)
    ensures a == b
  {
    assert "windows-x86_64"[0] == 'w' && "windows-aarch64"[0] == 'w';
    assert "darwin-x86_64"[0] == 'd' && "darwin-aarch64"[0] == 'd';
    assert "linux-x86_64"[0] == 'l' && "linux-aarch64"[0] == 'l';
  }
}
