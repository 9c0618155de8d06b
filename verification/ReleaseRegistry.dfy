/**
 The release repository as an object that upload runs and rollbacks change
 (scripts/upload-modelscope-release.py:396-435, 560-743, scripts/rollback-modelscope-release.py:127-188).
 */
module ReleaseRegistry {
  import opened Prelude
  import opened Text
  import opened UrlCodec
  import opened ReleaseUrls
  import opened ReleaseManifest
  import opened ReleasePublish

  /** Blobs stay where they are, possibly replaced by other blobs. */
  predicate BlobsStay(files: map<string, Content>, files': map<string, Content>) {
    forall q :: q in files && files[q].Blob? ==> q in files' && files'[q].Blob?
  }

  /** The published documents are the same. */
  predicate DocsStay(files: map<string, Content>, files': map<string, Content>) {
    && (forall q :: q in files && !files[q].Blob? ==> q in files' && files'[q] == files[q])
    && (forall q :: q in files' && !files'[q].Blob? ==> q in files && files[q] == files'[q])
  }

  lemma HeldStays(p: Place, files: map<string, Content>, files': map<string, Content>, e: Entry, tag: string)
    requires BlobsStay(files, files') && Held(p, files, e, tag)
    ensures Held(p, files', e, tag)
  {
    var channel, name :| Pointed(p, e, channel, tag, name)
      && ArtifactPath(p, channel, tag, name) in files && files[ArtifactPath(p, channel, tag, name)].Blob?;
    assert ArtifactPath(p, channel, tag, name) in files';
  }

  lemma GoodStays(p: Place, files: map<string, Content>, files': map<string, Content>, m: Manifest)
    requires BlobsStay(files, files') && GoodManifest(p, files, m)
    ensures GoodManifest(p, files', m)
  {
    forall k | 0 <= k < |m.platforms| ensures Held(p, files', m.platforms[k], UploaderTag(Strip(m.version))) {
      HeldStays(p, files, files', m.platforms[k], UploaderTag(Strip(m.version)));
    }
  }

  lemma AddingBlobKeeps(p: Place, files: map<string, Content>, path: string, content: Content)
    requires Inv(p, files) && content.Blob? && !DocPath(p, path)
    ensures
      var files' := files[path := content];
      Inv(p, files') && BlobsStay(files, files') && DocsStay(files, files')
  {
    var files' := files[path := content];
    forall q | q in files' && files'[q].Doc? ensures GoodManifest(p, files', files'[q].manifest) {
      GoodStays(p, files, files', files[q].manifest);
    }
  }

  lemma AddingDocKeeps(p: Place, files: map<string, Content>, path: string, content: Content)
    requires Inv(p, files) && DocPath(p, path) && !content.Blob?
    requires forall q :: q in files && files[q].Blob? ==> !DocPath(p, q)
    requires content.Doc? ==> GoodManifest(p, files, content.manifest)
    ensures
      var files' := files[path := content];
      && Inv(p, files') && BlobsStay(files, files')
      && forall q :: q in files' && files'[q].Blob? ==> !DocPath(p, q)
  {
    var files' := files[path := content];
    forall q | q in files' && files'[q].Doc? ensures GoodManifest(p, files', files'[q].manifest) {
      GoodStays(p, files, files', if q == path then content.manifest else files[q].manifest);
    }
  }

  /** The path an artifact is uploaded to. */
  function Target(p: Place, entries: seq<Entry>, tag: string, name: string): string {
    var folder := RemoteFolder(entries, name);
    FilePath(p.prefix, if folder.Some? then folder.value else [], tag, name)
  }

  lemma TargetIsNoDocPath(p: Place, entries: seq<Entry>, tag: string, name: string)
    requires IsArtifact(name)
    ensures !DocPath(p, Target(p, entries, tag, name))
  {
    ArtifactHasFolder(entries, name);
    FolderIsKnown(entries, name);
    FoldersAreNotChannels(RemoteFolder(entries, name).value, p, tag, name);
  }

  lemma {:induction false} FolderByUrlIsKnown(entries: seq<Entry>, base: string)
    ensures
      var f := FolderByUrl(entries, base);
      f.Some? ==> f.value == "windows" || f.value == "macos" || f.value == "linux"
  {
    if entries != [] && Basename(entries[0].url) != base {
      FolderByUrlIsKnown(entries[1..], base);
    }
  }

  lemma FolderIsKnown(entries: seq<Entry>, name: string)
    ensures
      var f := RemoteFolder(entries, name);
      f.Some? ==> f.value == "windows" || f.value == "macos" || f.value == "linux"
  {
    FolderByUrlIsKnown(entries, BaseName(name));
  }

  /** Nothing but this one path changed, and if it did, to this content. */
  predicate ChangedAt(files: map<string, Content>, files': map<string, Content>, path: string, content: Content) {
    files' == files || files' == files[path := content]
  }

  lemma TargetEndsWithName(p: Place, entries: seq<Entry>, tag: string, name: string)
    requires Component(name)
    ensures AfterLast(Target(p, entries, tag, name), '/') == name
  {
    var folder := RemoteFolder(entries, name);
    var head := p.prefix + "/" + (if folder.Some? then folder.value else []) + "/" + tag;
    assert Target(p, entries, tag, name) == head + ['/'] + name;
    LastCut(head, '/', name);
  }

  /** The path holds this very artifact or, when files of the same size count as there, a blob of its size. */
  predicate Carries(files: map<string, Content>, path: string, content: Content, skipExisting: bool) {
    && path in files && files[path].Blob?
    && (files[path] == content || (skipExisting && Size(files[path]) == Size(content)))
  }

  /** The artifact is where it goes. */
  predicate Arrived(p: Place, files: map<string, Content>, entries: seq<Entry>, tag: string, f: File, skipExisting: bool) {
    Carries(files, Target(p, entries, tag, f.name), f.content, skipExisting)
  }

  lemma ArrivalsStay(p: Place, files: map<string, Content>, files': map<string, Content>, entries: seq<Entry>,
                     list: seq<File>, tag: string, i: nat, skipExisting: bool)
    requires i < |list| && OneFilePerName(list) && forall k :: 0 <= k < |list| ==> Component(list[k].name)
    requires forall k :: 0 <= k < i ==> Arrived(p, files, entries, tag, list[k], skipExisting)
    requires ChangedAt(files, files', Target(p, entries, tag, list[i].name), list[i].content)
    requires Arrived(p, files', entries, tag, list[i], skipExisting)
    ensures forall k :: 0 <= k < i + 1 ==> Arrived(p, files', entries, tag, list[k], skipExisting)
  {
    forall k | 0 <= k < i + 1 ensures Arrived(p, files', entries, tag, list[k], skipExisting) {
      if Target(p, entries, tag, list[k].name) == Target(p, entries, tag, list[i].name) {
        TargetEndsWithName(p, entries, tag, list[k].name);
        TargetEndsWithName(p, entries, tag, list[i].name);
        assert list[k] == list[i];
      }
    }
  }

  /** Writing documents moves no artifact. */
  lemma ArrivedUnderDocs(p: Place, files: map<string, Content>, files': map<string, Content>, entries: seq<Entry>,
                         tag: string, f: File, skipExisting: bool)
    requires IsArtifact(f.name) && Arrived(p, files, entries, tag, f, skipExisting)
    requires forall q :: q in files && !DocPath(p, q) ==> q in files' && files'[q] == files[q]
    ensures Arrived(p, files', entries, tag, f, skipExisting)
  {
    TargetIsNoDocPath(p, entries, tag, f.name);
  }

  lemma HistoryIsNotLatest(p: Place, channel: Channel, tag: string)
    ensures HistoryPath(p, channel, tag) != LatestPath(p, channel)
  {
    var n := |p.prefix + "/" + "channels/" + Folder(channel)| + 1;
    assert HistoryPath(p, channel, tag)[n] == 'h' && LatestPath(p, channel)[n] == 'l';
  }

  // ----- the entries of a run -----

  lemma CollectedAreArtifacts(dist: seq<File>, list: seq<File>)
    requires Collected(dist, |dist|, HasUpdaterSuffix) == Some(list)
    ensures forall k :: 0 <= k < |list| ==> IsArtifact(list[k].name) && list[k] in dist
    ensures forall k :: 0 <= k < |dist| && HasUpdaterSuffix(dist[k].name) ==> dist[k] in list
  {
    CollectedExactly(dist, |dist|, HasUpdaterSuffix);
    forall k | 0 <= k < |list| ensures IsArtifact(list[k].name) && list[k] in dist {
      assert Collectable(dist, list[k], HasUpdaterSuffix);
      if !HasUpdaterSuffix(list[k].name) {
        var name :| HasUpdaterSuffix(name) && list[k].name == SigOf(name);
        SigIsArtifact(name);
      }
    }
  }

  /** An entry whose package is built here: its name is an updater package in the build directory. */
  predicate BuiltHere(run: Run, e: Entry)
    requires run.Upload?
  {
    var name := Basename(e.url);
    && Allowed(run.channel, e.key)
    && name in Names(run.dist) && Bytes(name) && Component(name) && Plain(name) && HasUpdaterSuffix(name)
  }

  lemma KeptAreLocal(run: Run, inChannel: seq<Entry>, kept: seq<Entry>)
    requires run.Upload? && Sound(run)
    requires forall k :: 0 <= k < |inChannel| ==> Allowed(run.channel, inChannel[k].key) && inChannel[k] in run.manifest.platforms
    requires forall k :: 0 <= k < |kept| ==> Local(kept[k], Names(run.dist)) && kept[k] in inChannel
    ensures forall k :: 0 <= k < |kept| ==> BuiltHere(run, kept[k])
  {
  }

  /** Every merged entry comes from this run or from the published manifest of the same release. */
  lemma MergedAreHeld(p: Place, files: map<string, Content>, local: seq<Entry>, remote: Manifest, merged: seq<Entry>, channel: Channel)
    requires GoodManifest(p, files, remote)
    requires local <= merged
    requires forall k :: |local| <= k < |merged| ==> merged[k] in remote.platforms && Allowed(channel, merged[k].key)
    ensures forall k :: |local| <= k < |merged| ==>
      Allowed(channel, merged[k].key) && Held(p, files, merged[k], UploaderTag(Strip(remote.version)))
  {
  }

  lemma StripKeeps(t: string)
    ensures Bytes(t) ==> Bytes(Strip(t))
    ensures '%' !in t ==> '%' !in Strip(t)
  {
    StripStartKeeps(t);
    forall k | 0 <= k < |Strip(t)| ensures Strip(t)[k] in t {
      assert Strip(t)[k] == StripStart(t)[k];
    }
  }

  lemma {:induction false} StripStartKeeps(t: string)
    ensures forall c :: c in StripStart(t) ==> c in t
  {
    if t != [] && White(t[0]) {
      StripStartKeeps(t[1..]);
    }
  }

  lemma TagIsPlain(version: string)
    requires Bytes(version) && '%' !in version
    ensures Bytes(UploaderTag(Strip(version))) && '%' !in UploaderTag(Strip(version))
  {
    StripKeeps(version);
  }

  predicate PlainTag(tag: string) {
    Bytes(tag) && '%' !in tag
  }

  /** The first entries are built here, the others already held. */
  ghost predicate FromRunOrRemote(p: Place, files: map<string, Content>, run: Run, local: seq<Entry>, kept: seq<Entry>, tag: string)
    requires run.Upload?
  {
    && local <= kept
    && (forall k :: 0 <= k < |local| ==> BuiltHere(run, kept[k]))
    && (forall k :: |local| <= k < |kept| ==> Allowed(run.channel, kept[k].key) && Held(p, files, kept[k], tag))
  }

  lemma HeldName(p: Place, files: map<string, Content>, e: Entry, tag: string, channel: Channel)
    returns (name: string)
    requires ValidPlace(p) && PlainTag(tag) && Allowed(channel, e.key) && Held(p, files, e, tag)
    ensures Basename(e.url) == name && Pointed(p, e, channel, tag, name)
    ensures ArtifactPath(p, channel, tag, name) in files && files[ArtifactPath(p, channel, tag, name)].Blob?
  {
    var c, n :| Pointed(p, e, c, tag, n) && ArtifactPath(p, c, tag, n) in files && files[ArtifactPath(p, c, tag, n)].Blob?;
    AllowedOnce(c, channel, e.key);
    PointedName(p, e, c, tag, n);
    name := n;
  }

  lemma RewritableEntries(p: Place, files: map<string, Content>, run: Run, local: seq<Entry>, kept: seq<Entry>, tag: string)
    requires ValidPlace(p) && PlainTag(tag) && run.Upload? && FromRunOrRemote(p, files, run, local, kept, tag)
    ensures forall k :: 0 <= k < |kept| ==> Allowed(run.channel, kept[k].key)
    ensures forall k :: 0 <= k < |kept| ==>
      Bytes(Basename(kept[k].url)) && Component(Basename(kept[k].url)) && Plain(Basename(kept[k].url))
  {
    forall k | 0 <= k < |kept|
      ensures Allowed(run.channel, kept[k].key)
      ensures Bytes(Basename(kept[k].url)) && Component(Basename(kept[k].url)) && Plain(Basename(kept[k].url))
    {
      if k >= |local| {
        var name := HeldName(p, files, kept[k], tag, run.channel);
      } else {
        assert BuiltHere(run, kept[k]);
      }
    }
  }

  /** Entries built here point at their own artifact; held entries come out unchanged. */
  lemma RewrittenEntries(p: Place, files: map<string, Content>, run: Run, local: seq<Entry>, kept: seq<Entry>,
                         entries: seq<Entry>, tag: string)
    requires ValidPlace(p) && PlainTag(tag) && run.Upload? && FromRunOrRemote(p, files, run, local, kept, tag)
    requires forall k :: 0 <= k < |kept| ==> Bytes(Basename(kept[k].url))
    requires entries == RewriteEntries(kept, p.host, p.repo, p.prefix, tag)
    ensures forall k :: 0 <= k < |entries| ==> Allowed(run.channel, entries[k].key)
    ensures forall k :: 0 <= k < |local| ==> Pointed(p, entries[k], run.channel, tag, Basename(local[k].url))
    ensures forall k :: |local| <= k < |entries| ==> entries[k] == kept[k]
  {
    RewritableEntries(p, files, run, local, kept, tag);
    forall k | 0 <= k < |entries|
      ensures Allowed(run.channel, entries[k].key)
      ensures k < |local| ==> Pointed(p, entries[k], run.channel, tag, Basename(local[k].url))
      ensures k >= |local| ==> entries[k] == kept[k]
    {
      RewritingPoints(p, kept[k], run.channel, tag);
      if k >= |local| {
        var name := HeldName(p, files, kept[k], tag, run.channel);
        AllowedKeyHasChannelFolder(run.channel, kept[k].key);
      }
    }
  }

  function LocalBuilds(run: Run): seq<Entry>
    requires run.Upload?
  {
    FilterLocal(FilterChannel(run.manifest.platforms, run.channel), Names(run.dist))
  }

  /** They are the manifest's entries of the channel whose package is in the build directory. */
  lemma LocalBuildsExactly(run: Run, e: Entry)
    requires run.Upload?
    ensures e in LocalBuilds(run) <==>
      e in run.manifest.platforms && Allowed(run.channel, e.key) && Local(e, Names(run.dist))
  {
    FilterLocalFacts(FilterChannel(run.manifest.platforms, run.channel), Names(run.dist));
    FilterChannelFacts(run.manifest.platforms, run.channel);
  }

  /** The published entries a merging run adds to: those of the channel's latest manifest, if it is of the same version. */
  function MergedWith(p: Place, files: map<string, Content>, run: Run): seq<Entry>
    requires run.Upload?
  {
    var latest := LatestPath(p, run.channel);
    if run.mergeRemote && latest in files && files[latest].Doc?
       && Strip(files[latest].manifest.version) == Strip(run.manifest.version)
    then files[latest].manifest.platforms else []
  }

  /**
   Every usable remote entry has its platform among the entries, and is there unchanged unless that platform was built
   here; besides the local builds nothing else is there.
   */
  predicate CarriesOver(run: Run, remote: seq<Entry>, entries: seq<Entry>)
    requires run.Upload?
  {
    var local := LocalBuilds(run);
    && (forall k :: 0 <= k < |remote| && Allowed(run.channel, remote[k].key) && remote[k].url != [] && remote[k].signature != []
          ==> CarriedOver(local, remote, k, entries))
    && (forall k :: |local| <= k < |entries| ==> entries[k] in remote && !HasKey(local, entries[k].key))
  }

  predicate CarriedOver(local: seq<Entry>, remote: seq<Entry>, k: nat, entries: seq<Entry>)
    requires k < |remote|
  {
    && HasKey(entries, remote[k].key)
    && (!HasKey(local, remote[k].key) && !HasKey(remote[..k], remote[k].key) ==> remote[k] in entries)
  }

  lemma MergeCarriesOver(run: Run, remote: seq<Entry>)
    requires run.Upload?
    ensures CarriesOver(run, remote, MergeEntries(LocalBuilds(run), remote, run.channel))
  {
    var local := LocalBuilds(run);
    MergeAddsOnlyRemote(local, remote, run.channel);
    forall k | 0 <= k < |remote| && Allowed(run.channel, remote[k].key) && remote[k].url != [] && remote[k].signature != []
      ensures CarriedOver(local, remote, k, MergeEntries(local, remote, run.channel))
    {
      MergeBringsRemote(local, remote, run.channel, k);
    }
  }

  /** Rewriting keeps the keys of the local builds and everything behind them. */
  lemma RewritingCarriesOver(run: Run, remote: seq<Entry>, kept: seq<Entry>, entries: seq<Entry>)
    requires run.Upload? && CarriesOver(run, remote, kept) && LocalBuilds(run) <= kept && |entries| == |kept|
    requires forall k :: 0 <= k < |kept| ==> entries[k].key == kept[k].key
    requires forall k :: |LocalBuilds(run)| <= k < |kept| ==> entries[k] == kept[k]
    ensures CarriesOver(run, remote, entries)
  {
    var local := LocalBuilds(run);
    forall k | 0 <= k < |remote| && Allowed(run.channel, remote[k].key) && remote[k].url != [] && remote[k].signature != []
      ensures CarriedOver(local, remote, k, entries)
    {
      assert CarriedOver(local, remote, k, kept);
      var i :| 0 <= i < |kept| && kept[i].key == remote[k].key;
      assert entries[i].key == remote[k].key;
      if !HasKey(local, remote[k].key) && !HasKey(remote[..k], remote[k].key) {
        assert forall i :: 0 <= i < |local| ==> local[i].key != remote[k].key;
        var j :| 0 <= j < |kept| && kept[j] == remote[k];
        assert forall i :: 0 <= i < |local| ==> local[i] == kept[i];
        assert entries[j] == remote[k];
      }
    }
  }

  /** Each platform built here is listed first, pointing at its own artifact with its own signature. */
  ghost predicate ListsEveryLocalBuild(p: Place, run: Run, entries: seq<Entry>)
    requires run.Upload?
  {
    var local := LocalBuilds(run);
    && |local| <= |entries|
    && forall k :: 0 <= k < |local| ==>
         && entries[k].key == local[k].key && entries[k].signature == local[k].signature
         && Pointed(p, entries[k], run.channel, UploaderTag(Strip(run.manifest.version)), Basename(local[k].url))
  }

  /** What a run that is not rejected sets out to publish. */
  ghost predicate Planned(p: Place, files: map<string, Content>, run: Run, entries: seq<Entry>, list: seq<File>)
    requires run.Upload?
  {
    var tag := UploaderTag(Strip(run.manifest.version));
    var local := LocalBuilds(run);
    && PlainTag(tag) && entries != []
    && Uploadable(run, list)
    && (forall k :: 0 <= k < |entries| ==> Allowed(run.channel, entries[k].key))
    && ListsEveryLocalBuild(p, run, entries) && CarriesOver(run, MergedWith(p, files, run), entries)
    && (forall k :: 0 <= k < |local| ==> BuiltHere(run, local[k]))
    && (forall k :: |local| <= k < |entries| ==> Held(p, files, entries[k], tag))
  }

  /** A package with its signature, as an upload takes it. */
  predicate Uploadable(run: Run, list: seq<File>)
    requires run.Upload?
  {
    && (forall k :: 0 <= k < |list| ==> IsArtifact(list[k].name) && list[k].content.Blob? && Component(list[k].name))
    && OneFilePerName(list)
    && (forall k :: 0 <= k < |run.dist| && HasUpdaterSuffix(run.dist[k].name) ==> run.dist[k] in list)
  }

  lemma EntriesArePlanned(p: Place, files: map<string, Content>, run: Run, kept: seq<Entry>, entries: seq<Entry>,
                          list: seq<File>)
    requires ValidPlace(p) && run.Upload? && PlainTag(UploaderTag(Strip(run.manifest.version)))
    requires kept != [] && FromRunOrRemote(p, files, run, LocalBuilds(run), kept, UploaderTag(Strip(run.manifest.version)))
    requires forall k :: 0 <= k < |kept| ==> Bytes(Basename(kept[k].url))
    requires entries == RewriteEntries(kept, p.host, p.repo, p.prefix, UploaderTag(Strip(run.manifest.version)))
    requires Uploadable(run, list) && CarriesOver(run, MergedWith(p, files, run), kept)
    ensures Planned(p, files, run, entries, list)
  {
    RewrittenEntries(p, files, run, LocalBuilds(run), kept, entries, UploaderTag(Strip(run.manifest.version)));
    RewritingCarriesOver(run, MergedWith(p, files, run), kept, entries);
  }

  /** Once the artifacts are up, every entry of the new manifest is held. */
  lemma EverythingHeld(p: Place, before: map<string, Content>, files: map<string, Content>, run: Run,
                       entries: seq<Entry>, list: seq<File>)
    requires ValidPlace(p) && run.Upload? && Planned(p, before, run, entries, list) && BlobsStay(before, files)
    requires forall k :: 0 <= k < |list| ==>
      Arrived(p, files, entries, UploaderTag(Strip(run.manifest.version)), list[k], run.skipExisting)
    ensures forall k :: 0 <= k < |entries| ==> Held(p, files, entries[k], UploaderTag(Strip(run.manifest.version)))
  {
    var tag, local := UploaderTag(Strip(run.manifest.version)), LocalBuilds(run);
    forall k | 0 <= k < |entries| ensures Held(p, files, entries[k], tag) {
      if k < |local| {
        LocalBuildHeld(p, files, run, entries, list, k);
      } else {
        HeldStays(p, before, files, entries[k], tag);
      }
    }
  }

  lemma LocalBuildHeld(p: Place, files: map<string, Content>, run: Run, entries: seq<Entry>, list: seq<File>, k: nat)
    requires ValidPlace(p) && run.Upload? && k < |LocalBuilds(run)| && ListsEveryLocalBuild(p, run, entries)
    requires PlainTag(UploaderTag(Strip(run.manifest.version))) && BuiltHere(run, LocalBuilds(run)[k])
    requires forall k :: 0 <= k < |run.dist| && HasUpdaterSuffix(run.dist[k].name) ==> run.dist[k] in list
    requires forall k :: 0 <= k < |entries| ==> Allowed(run.channel, entries[k].key)
    requires forall k :: 0 <= k < |list| ==>
      Arrived(p, files, entries, UploaderTag(Strip(run.manifest.version)), list[k], run.skipExisting)
    ensures Held(p, files, entries[k], UploaderTag(Strip(run.manifest.version)))
  {
    var tag, name := UploaderTag(Strip(run.manifest.version)), Basename(LocalBuilds(run)[k].url);
    var d :| 0 <= d < |run.dist| && run.dist[d].name == name;
    var i :| 0 <= i < |list| && list[i] == run.dist[d];
    ArtifactGoesWhereItsUrlPoints(p, entries, run.channel, tag, k, name);
    assert Arrived(p, files, entries, tag, list[i], run.skipExisting);
    assert Target(p, entries, tag, name) == ArtifactPath(p, run.channel, tag, name);
  }

  /** Publishing the documents leaves every uploaded package where it is. */
  lemma PackagesInPlace(p: Place, uploaded: map<string, Content>, files: map<string, Content>, run: Run,
                        entries: seq<Entry>, list: seq<File>)
    requires run.Upload?
    requires forall k :: 0 <= k < |run.dist| && HasUpdaterSuffix(run.dist[k].name) ==> run.dist[k] in list
    requires forall k :: 0 <= k < |list| ==>
      Arrived(p, uploaded, entries, UploaderTag(Strip(run.manifest.version)), list[k], run.skipExisting)
    requires forall q :: q in uploaded && !DocPath(p, q) ==> q in files && files[q] == uploaded[q]
    ensures forall k :: 0 <= k < |run.dist| && HasUpdaterSuffix(run.dist[k].name) ==>
      Arrived(p, files, entries, UploaderTag(Strip(run.manifest.version)), run.dist[k], run.skipExisting)
  {
    var tag := UploaderTag(Strip(run.manifest.version));
    forall k | 0 <= k < |run.dist| && HasUpdaterSuffix(run.dist[k].name)
      ensures Arrived(p, files, entries, tag, run.dist[k], run.skipExisting)
    {
      var i :| 0 <= i < |list| && list[i] == run.dist[k];
      assert Arrived(p, uploaded, entries, tag, list[i], run.skipExisting);
      ArrivedUnderDocs(p, uploaded, files, entries, tag, run.dist[k], run.skipExisting);
    }
  }

  // ----- rolling back -----

  /** The version a rollback is asked for, without white space and without one leading v. */
  function Requested(toVersion: string): string {
    var t := Strip(toVersion);
    if t != [] && t[0] == 'v' then t[1..] else t
  }

  predicate Accepted(p: Place, files: map<string, Content>, channel: Channel, toVersion: string) {
    var history := HistoryPath(p, channel, "v" + Requested(toVersion));
    && history in files && files[history].Doc?
    && Strip(files[history].manifest.version) == Requested(toVersion)
  }

  lemma StrippedIsStrip(t: string)
    ensures Strip(Strip(t)) == Strip(t)
  {
  }

  /** A published release can be rolled back to exactly when its version does not start with a v. */
  lemma RollbackReachesExactly(p: Place, files: map<string, Content>, channel: Channel, m: Manifest)
    requires Strip(m.version) != []
    requires HistoryPath(p, channel, UploaderTag(Strip(m.version))) in files
    requires files[HistoryPath(p, channel, UploaderTag(Strip(m.version)))] == Doc(m)
    ensures (exists toVersion :: "v" + Requested(toVersion) == UploaderTag(Strip(m.version)) && Accepted(p, files, channel, toVersion))
       <==> Strip(m.version)[0] != 'v'
  {
    var w := Strip(m.version);
    StrippedIsStrip(m.version);
    if w[0] != 'v' {
      assert Requested(w) == w;
      assert Accepted(p, files, channel, w);
    } else {
      forall toVersion | "v" + Requested(toVersion) == w ensures !Accepted(p, files, channel, toVersion) {
        assert |Requested(toVersion)| < |w|;
      }
    }
  }

  // ----- what a run comes to -----

  predicate Holds(files: map<string, Content>, path: string, content: Content) {
    path in files && files[path] == content
  }

  lemma PointerPathsDiffer(p: Place, channel: Channel, tag: string)
    ensures ChannelPath(p, channel) != LatestPath(p, channel)
    ensures ChannelPath(p, channel) != HistoryPath(p, channel, tag)
    ensures HistoryPath(p, channel, tag) != LatestPath(p, channel)
  {
    var head := p.prefix + "/" + "channels/" + Folder(channel);
    assert ChannelPath(p, channel) == head + "/channel.yml" && LatestPath(p, channel) == head + "/latest.json";
    assert ChannelPath(p, channel)[|head| + 1] == 'c' && LatestPath(p, channel)[|head| + 1] == 'l';
    assert HistoryPath(p, channel, tag)[|head| + 1] == 'h';
  }

  /** The remote manifest a merging run needs cannot be read. */
  predicate RemoteUnreadable(p: Place, files: map<string, Content>, run: Run)
    requires run.Upload?
  {
    run.mergeRemote
    && (!run.fetched || LatestPath(p, run.channel) !in files || !files[LatestPath(p, run.channel)].Doc?)
  }

  /** Nothing in the manifest is built here, and there is nothing to merge. */
  predicate NothingSelected(p: Place, files: map<string, Content>, run: Run)
    requires run.Upload? && !RemoteUnreadable(p, files, run)
  {
    && LocalBuilds(run) == []
    && (run.mergeRemote ==>
          var remote := files[LatestPath(p, run.channel)].manifest;
          Strip(remote.version) == Strip(run.manifest.version) ==>
            forall k :: 0 <= k < |remote.platforms| ==> !Mergeable(remote.platforms[k], [], run.channel))
  }

  /** There is no package, or one without its signature. */
  predicate NothingToUpload(run: Run)
    requires run.Upload?
  {
    || (forall k :: 0 <= k < |run.dist| ==> !HasUpdaterSuffix(run.dist[k].name))
    || (exists k :: 0 <= k < |run.dist| && HasUpdaterSuffix(run.dist[k].name)
          && Named(run.dist, SigOf(run.dist[k].name)).None?)
  }

  lemma CollectionExactly(run: Run, list: Option<seq<File>>)
    requires run.Upload? && list == Collected(run.dist, |run.dist|, HasUpdaterSuffix)
    ensures list.None? || list.value == [] <==> NothingToUpload(run)
  {
    CollectedExactly(run.dist, |run.dist|, HasUpdaterSuffix);
    CollectedEmptyExactly(run.dist, |run.dist|, HasUpdaterSuffix);
  }

  lemma CollectionIsUploadable(run: Run, list: seq<File>)
    requires run.Upload? && Sound(run) && Collected(run.dist, |run.dist|, HasUpdaterSuffix) == Some(list)
    ensures Uploadable(run, list)
  {
    CollectedAreArtifacts(run.dist, list);
  }

  /** Why a run ends before its first upload. */
  predicate Refused(p: Place, files: map<string, Content>, run: Run)
    requires run.Upload?
  {
    || Strip(run.manifest.version) == []
    || NothingToUpload(run)
    || RemoteUnreadable(p, files, run)
    || NothingSelected(p, files, run)
  }

  /** The k-th upload attempt is stored and reported so. */
  predicate StoredAt(net: nat -> Attempt, k: nat) {
    net(k).Stored?
  }

  /** Where the attempts for a file that start at `lo` end: after the first stored one, or after `retries`. */
  function AttemptsEnd(net: nat -> Attempt, lo: nat, retries: nat): (hi: nat)
    requires retries >= 1
    ensures lo < hi <= lo + retries
    ensures StoredAt(net, hi - 1) || hi == lo + retries
    decreases retries
  {
    if StoredAt(net, lo) || retries == 1 then lo + 1 else AttemptsEnd(net, lo + 1, retries - 1)
  }

  /** The attempts that start at `lo` get their file stored. */
  predicate FileStored(net: nat -> Attempt, lo: nat, retries: nat)
    requires retries >= 1
  {
    StoredAt(net, AttemptsEnd(net, lo, retries) - 1)
  }

  lemma {:induction false} AttemptsEndAt(net: nat -> Attempt, lo: nat, retries: nat, hi: nat)
    requires retries >= 1 && lo < hi <= lo + retries
    requires AllFail(net, lo, hi - 1 - lo) && (StoredAt(net, hi - 1) || hi == lo + retries)
    ensures AttemptsEnd(net, lo, retries) == hi
    decreases retries
  {
    if !StoredAt(net, lo) && retries > 1 {
      AttemptsEndAt(net, lo + 1, retries - 1, hi);
    }
  }

  lemma {:induction false} AttemptsBeforeEndFail(net: nat -> Attempt, lo: nat, retries: nat)
    requires retries >= 1
    ensures AllFail(net, lo, AttemptsEnd(net, lo, retries) - 1 - lo)
    decreases retries
  {
    if !StoredAt(net, lo) && retries > 1 {
      AttemptsBeforeEndFail(net, lo + 1, retries - 1);
    }
  }

  /** None of the `n` attempts from `lo` on is stored for sure. */
  predicate AllFail(net: nat -> Attempt, lo: nat, n: nat) {
    forall k :: lo <= k < lo + n ==> !StoredAt(net, k)
  }

  /** Among the attempts from `lo` on, as many in a row as one file is given are not stored. */
  ghost predicate GivesUp(net: nat -> Attempt, lo: nat, hi: nat, retries: nat) {
    exists k: nat :: lo <= k && k + retries <= hi && AllFail(net, k, retries)
  }

  /** `failures` counts the files that ran out of attempts between `lo` and `hi`. */
  ghost predicate Counts(net: nat -> Attempt, lo: nat, hi: nat, retries: nat, failures: nat) {
    && lo <= hi
    && (failures == 0 <==> !GivesUp(net, lo, hi, retries))
    && (failures == 0 && hi > lo ==> StoredAt(net, hi - 1))
  }

  lemma FailingFile(net: nat -> Attempt, lo: nat, mid: nat, retries: nat)
    requires retries >= 1 && lo <= mid && !StoredAt(net, AttemptsEnd(net, mid, retries) - 1)
    ensures GivesUp(net, lo, AttemptsEnd(net, mid, retries), retries)
  {
    AttemptsBeforeEndFail(net, mid, retries);
    assert AllFail(net, mid, retries);
  }

  lemma StoredFile(net: nat -> Attempt, lo: nat, mid: nat, retries: nat, failures: nat)
    requires retries >= 1 && Counts(net, lo, mid, retries, failures)
    requires StoredAt(net, AttemptsEnd(net, mid, retries) - 1)
    ensures GivesUp(net, lo, AttemptsEnd(net, mid, retries), retries) <==> failures > 0
  {
    var hi := AttemptsEnd(net, mid, retries);
    if failures == 0 {
      forall k: nat | lo <= k && k + retries <= hi
        ensures !AllFail(net, k, retries)
      {
        if k + retries > mid {
          if hi - 1 < k + retries {
            assert k <= hi - 1;
          } else {
            assert k <= mid - 1 < k + retries;
          }
        }
      }
    } else {
      var k: nat :| lo <= k && k + retries <= mid && AllFail(net, k, retries);
    }
  }

  /** One more file. */
  lemma CountsNext(net: nat -> Attempt, lo: nat, mid: nat, retries: nat, failures: nat)
    requires retries >= 1 && Counts(net, lo, mid, retries, failures)
    ensures Counts(net, lo, AttemptsEnd(net, mid, retries), retries, failures + Bit(!FileStored(net, mid, retries)))
  {
    if FileStored(net, mid, retries) {
      StoredFile(net, lo, mid, retries, failures);
    } else {
      FailingFile(net, lo, mid, retries);
    }
  }

  lemma CountsNothing(net: nat -> Attempt, lo: nat, retries: nat)
    requires retries >= 1
    ensures Counts(net, lo, lo, retries, 0)
  {
  }

  /** Where the attempts of the second and the third pointer start; each has its own, whatever became of the others. */
  function Second(net: nat -> Attempt, lo: nat, retries: nat): nat
    requires retries >= 1
  {
    AttemptsEnd(net, lo, retries)
  }

  function Third(net: nat -> Attempt, lo: nat, retries: nat): nat
    requires retries >= 1
  {
    AttemptsEnd(net, Second(net, lo, retries), retries)
  }

  function PointersEnd(net: nat -> Attempt, lo: nat, retries: nat): nat
    requires retries >= 1
  {
    AttemptsEnd(net, Third(net, lo, retries), retries)
  }

  function PointerFailures(net: nat -> Attempt, lo: nat, retries: nat): nat
    requires retries >= 1
  {
    Bit(!FileStored(net, lo, retries)) + Bit(!FileStored(net, Second(net, lo, retries), retries))
    + Bit(!FileStored(net, Third(net, lo, retries), retries))
  }

  /** The three pointers after artifacts none of which failed. */
  lemma CountsPointers(net: nat -> Attempt, lo: nat, mid: nat, retries: nat)
    requires retries >= 1 && Counts(net, lo, mid, retries, 0)
    ensures Counts(net, lo, PointersEnd(net, mid, retries), retries, PointerFailures(net, mid, retries))
  {
    var second, third := Second(net, mid, retries), Third(net, mid, retries);
    CountsNext(net, lo, mid, retries, 0);
    CountsNext(net, lo, second, retries, Bit(!FileStored(net, mid, retries)));
    CountsNext(net, lo, third, retries, Bit(!FileStored(net, mid, retries)) + Bit(!FileStored(net, second, retries)));
  }

  /** What three uploads in a row, each stored for sure or perhaps, leave behind. */
  lemma PointersWritten(p: Place, channel: Channel, m: Manifest, files: map<string, Content>, first: map<string, Content>,
                        second: map<string, Content>, third: map<string, Content>, a: bool, b: bool, c: bool)
    requires ChangedAt(files, first, ChannelPath(p, channel), Pointer(m.version))
    requires a ==> first == files[ChannelPath(p, channel) := Pointer(m.version)]
    requires ChangedAt(first, second, LatestPath(p, channel), Doc(m))
    requires b ==> second == first[LatestPath(p, channel) := Doc(m)]
    requires ChangedAt(second, third, HistoryPath(p, channel, UploaderTag(Strip(m.version))), Doc(m))
    requires c ==> third == second[HistoryPath(p, channel, UploaderTag(Strip(m.version))) := Doc(m)]
    ensures forall q :: q in files && !DocPath(p, q) ==> q in third && third[q] == files[q]
    ensures a ==> Holds(third, ChannelPath(p, channel), Pointer(m.version))
    ensures b ==> Holds(third, LatestPath(p, channel), Doc(m))
    ensures c ==> Holds(third, HistoryPath(p, channel, UploaderTag(Strip(m.version))), Doc(m))
    ensures a && b && c ==>
      third == files[ChannelPath(p, channel) := Pointer(m.version)]
                    [LatestPath(p, channel) := Doc(m)]
                    [HistoryPath(p, channel, UploaderTag(Strip(m.version))) := Doc(m)]
  {
    PointerPathsDiffer(p, channel, UploaderTag(Strip(m.version)));
    DocPathsAreDocPaths(p, channel, UploaderTag(Strip(m.version)));
  }

  datatype End = UploadEnded(outcome: Outcome) | RollbackEnded(done: bool)

  /**
   The release is what its channel points at, with its snapshot, every local build, every platform a merging run found
   there for that version, and every package in place.
   */
  ghost predicate IsPublished(p: Place, before: map<string, Content>, files: map<string, Content>, run: Run)
    requires run.Upload?
  {
    var latest := LatestPath(p, run.channel);
    var tag := UploaderTag(Strip(run.manifest.version));
    && Holds(files, ChannelPath(p, run.channel), Pointer(run.manifest.version))
    && latest in files && files[latest].Doc? && files[latest].manifest.version == run.manifest.version
    && Holds(files, HistoryPath(p, run.channel, tag), files[latest])
    && CarriesOver(run, MergedWith(p, before, run), files[latest].manifest.platforms)
    && ListsEveryLocalBuild(p, run, files[latest].manifest.platforms)
    && forall k :: 0 <= k < |run.dist| && HasUpdaterSuffix(run.dist[k].name) ==>
         Arrived(p, files, files[latest].manifest.platforms, tag, run.dist[k], run.skipExisting)
  }

  lemma ReleaseIsPublished(p: Place, before: map<string, Content>, uploaded: map<string, Content>,
                           files: map<string, Content>, run: Run, entries: seq<Entry>)
    requires run.Upload? && ListsEveryLocalBuild(p, run, entries) && CarriesOver(run, MergedWith(p, before, run), entries)
    requires files == uploaded[ChannelPath(p, run.channel) := Pointer(run.manifest.version)]
                              [LatestPath(p, run.channel) := Doc(Manifest(run.manifest.version, entries))]
                              [HistoryPath(p, run.channel, UploaderTag(Strip(run.manifest.version))) :=
                                 Doc(Manifest(run.manifest.version, entries))]
    requires forall k :: 0 <= k < |run.dist| && HasUpdaterSuffix(run.dist[k].name) ==>
      Arrived(p, files, entries, UploaderTag(Strip(run.manifest.version)), run.dist[k], run.skipExisting)
    ensures IsPublished(p, before, files, run)
  {
    PointerPathsDiffer(p, run.channel, UploaderTag(Strip(run.manifest.version)));
  }

  /** The document at the path is this run's manifest. */
  ghost predicate Describes(p: Place, before: map<string, Content>, files: map<string, Content>, path: string, run: Run)
    requires run.Upload?
  {
    && path in files && files[path].Doc? && files[path].manifest.version == run.manifest.version
    && ListsEveryLocalBuild(p, run, files[path].manifest.platforms)
    && CarriesOver(run, MergedWith(p, before, run), files[path].manifest.platforms)
  }

  /** From attempt `mid` on each pointer had its own attempts, and those that were stored are there. */
  ghost predicate PointersTried(p: Place, net: nat -> Attempt, run: Run, before: map<string, Content>, mid: nat, hi: nat,
                                failures: nat, after: map<string, Content>)
    requires run.Upload? && run.retries >= 1
  {
    var tag := UploaderTag(Strip(run.manifest.version));
    && hi == PointersEnd(net, mid, run.retries) && failures == PointerFailures(net, mid, run.retries)
    && (FileStored(net, mid, run.retries) ==> Holds(after, ChannelPath(p, run.channel), Pointer(run.manifest.version)))
    && (FileStored(net, Second(net, mid, run.retries), run.retries) ==>
          Describes(p, before, after, LatestPath(p, run.channel), run))
    && (FileStored(net, Third(net, mid, run.retries), run.retries) ==>
          Describes(p, before, after, HistoryPath(p, run.channel, tag), run))
  }

  ghost predicate DidUpload(p: Place, net: nat -> Attempt, run: Run, before: map<string, Content>, lo: nat,
                            outcome: Outcome, after: map<string, Content>, hi: nat)
    requires run.Upload? && run.retries >= 1
  {
    && lo <= hi
    && (outcome.Rejected? <==> Refused(p, before, run))
    && (outcome.Rejected? ==> after == before && hi == lo)
    && (outcome.ArtifactsFailed? ==> outcome.count > 0 && DocsStay(before, after) && GivesUp(net, lo, hi, run.retries))
    && (outcome == Published(0) <==> !Refused(p, before, run) && !GivesUp(net, lo, hi, run.retries))
    && (outcome == Published(0) ==> IsPublished(p, before, after, run))
    && (outcome.Published? ==>
          exists mid: nat :: lo <= mid && !GivesUp(net, lo, mid, run.retries)
            && PointersTried(p, net, run, before, mid, hi, outcome.failures, after))
  }

  predicate DidRollBack(p: Place, net: nat -> Attempt, channel: Channel, toVersion: string, fetched: bool,
                        before: map<string, Content>, lo: nat, done: bool, after: map<string, Content>)
  {
    && (done <==> fetched && Accepted(p, before, channel, toVersion) && StoredAt(net, lo) && StoredAt(net, lo + 1))
    && (!fetched || !Accepted(p, before, channel, toVersion) ==> after == before)
    && (done ==>
          var m := before[HistoryPath(p, channel, "v" + Requested(toVersion))].manifest;
          after == before[ChannelPath(p, channel) := Pointer(m.version)][LatestPath(p, channel) := Doc(m)])
  }

  /** What one run does to the repository, from its first attempt `lo` to before its next attempt `hi`. */
  ghost predicate Did(p: Place, net: nat -> Attempt, run: Run, before: map<string, Content>, lo: nat, end: End,
                      after: map<string, Content>, hi: nat)
    requires Sound(run)
  {
    && BlobsStay(before, after)
    && match run
       case Upload(_, _, _, _, _, _, _, _) =>
         end.UploadEnded? && DidUpload(p, net, run, before, lo, end.outcome, after, hi)
       case Rollback(channel, toVersion, fetched) =>
         end.RollbackEnded? && DidRollBack(p, net, channel, toVersion, fetched, before, lo, end.done, after)
  }

  /** The k-th of a sequence of runs did what it says, and left no published URL dangling. */
  ghost predicate DidRun(p: Place, net: nat -> Attempt, runs: seq<Run>, ends: seq<End>,
                         states: seq<(map<string, Content>, nat)>, k: nat)
  {
    && k < |runs| && k < |ends| && k + 1 < |states| && Sound(runs[k])
    && Did(p, net, runs[k], states[k].0, states[k].1, ends[k], states[k + 1].0, states[k + 1].1)
    && NothingDangles(p, states[k + 1].0)
  }

  class Registry {
    const place: Place
    const net: nat -> Attempt
    const probes: nat -> bool
    var files: map<string, Content>
    var calls: nat
    var probed: nat
    var slept: nat

    ghost predicate Valid()
      reads this
    {
      && ValidPlace(place) && Inv(place, files)
      && forall q :: q in files && files[q].Blob? ==> !DocPath(place, q)
    }

    constructor (place: Place, net: nat -> Attempt, probes: nat -> bool)
      requires ValidPlace(place)
      ensures Valid() && files == map[] && this.place == place && this.net == net && this.probes == probes
    {
      this.place, this.net, this.probes := place, net, probes;
      files, calls, probed, slept := map[], 0, 0, 0;
    }

    /** One file with exponential backoff; a file of the same size may count as already there. */
    method UploadFileWithRetry(path: string, content: Content, retries: nat, baseDelay: nat, skipExisting: bool)
      returns (r: Uploaded)
      requires retries >= 1
      modifies `files, `calls, `probed, `slept
      ensures r.Skipped? ==>
        && files == old(files) && skipExisting && path in files && Size(files[path]) == Size(content)
        && calls == old(calls) && slept == old(slept)
      ensures r.Ok? ==> files == old(files)[path := content]
      ensures r.Failed? ==> (files == old(files) || files == old(files)[path := content]) && calls == old(calls) + retries
      ensures !r.Skipped? ==>
        && old(calls) < calls <= old(calls) + retries
        && AllFail(net, old(calls), calls - 1 - old(calls))
        && (r.Ok? <==> FileStored(net, old(calls), retries))
        && slept + baseDelay == old(slept) + Delay(baseDelay, calls - 1 - old(calls))
        && calls == AttemptsEnd(net, old(calls), retries)
    {
      if skipExisting {
        var answered := probes(probed);
        probed := probed + 1;
        if answered && path in files && Size(files[path]) == Size(content) {
          return Skipped;
        }
      }
      var delay := baseDelay;
      var attempt := 1;
      while true
        invariant 1 <= attempt <= retries
        invariant calls == old(calls) + attempt - 1
        invariant delay == Delay(baseDelay, attempt - 1)
        invariant slept + baseDelay == old(slept) + delay
        invariant files == old(files) || files == old(files)[path := content]
        invariant AllFail(net, old(calls), calls - old(calls))
        decreases retries - attempt
      {
        var outcome := net(calls);
        calls := calls + 1;
        if !outcome.Lost? {
          files := files[path := content];
        }
        if outcome.Stored? {
          AttemptsEndAt(net, old(calls), retries, calls);
          return Ok;
        }
        if attempt >= retries {
          AttemptsEndAt(net, old(calls), retries, calls);
          return Failed;
        }
        slept := slept + delay;
        delay := 2 * delay;
        attempt := attempt + 1;
      }
    }

    /** The same, with the files that ran out of attempts counted since attempt `lo`. */
    method UploadCounted(path: string, content: Content, retries: nat, baseDelay: nat, skipExisting: bool,
                         ghost lo: nat, ghost failures: nat)
      returns (r: Uploaded)
      requires retries >= 1 && Counts(net, lo, calls, retries, failures)
      modifies `files, `calls, `probed, `slept
      ensures r.Skipped? ==>
        files == old(files) && skipExisting && path in files && Size(files[path]) == Size(content)
      ensures r.Ok? ==> files == old(files)[path := content]
      ensures ChangedAt(old(files), files, path, content)
      ensures Counts(net, lo, calls, retries, failures + Bit(r.Failed?))
      ensures calls >= old(calls) + Bit(!skipExisting)
    {
      CountsNext(net, lo, calls, retries, failures);
      r := UploadFileWithRetry(path, content, retries, baseDelay, skipExisting);
    }

    /** One artifact: it is then where it goes, unless every attempt failed. */
    method UploadArtifact(entries: seq<Entry>, artifact: File, tag: string, retries: nat, baseDelay: nat, skipExisting: bool,
                          ghost lo: nat, ghost failures: nat)
      returns (r: Uploaded)
      requires Valid() && retries >= 1 && IsArtifact(artifact.name) && artifact.content.Blob?
      requires Counts(net, lo, calls, retries, failures)
      modifies `files, `calls, `probed, `slept
      ensures Valid() && BlobsStay(old(files), files) && DocsStay(old(files), files)
      ensures ChangedAt(old(files), files, Target(place, entries, tag, artifact.name), artifact.content)
      ensures !r.Failed? ==> Arrived(place, files, entries, tag, artifact, skipExisting)
      ensures Counts(net, lo, calls, retries, failures + Bit(r.Failed?))
      ensures calls >= old(calls) + Bit(!skipExisting)
    {
      var path := Target(place, entries, tag, artifact.name);
      TargetIsNoDocPath(place, entries, tag, artifact.name);
      AddingBlobKeeps(place, files, path, artifact.content);
      r := UploadCounted(path, artifact.content, retries, baseDelay, skipExisting, lo, failures);
    }

    /** Upload every artifact, carrying on after failures and counting them. */
    method UploadArtifacts(entries: seq<Entry>, list: seq<File>, tag: string, retries: nat, baseDelay: nat, skipExisting: bool)
      returns (failures: nat)
      requires Valid() && retries >= 1
      requires forall k :: 0 <= k < |list| ==> IsArtifact(list[k].name) && list[k].content.Blob? && Component(list[k].name)
      requires OneFilePerName(list)
      modifies `files, `calls, `probed, `slept
      ensures Valid() && BlobsStay(old(files), files) && DocsStay(old(files), files)
      ensures failures <= |list|
      ensures failures == 0 ==> forall k :: 0 <= k < |list| ==> Arrived(place, files, entries, tag, list[k], skipExisting)
      ensures Counts(net, old(calls), calls, retries, failures)
      ensures !skipExisting ==> calls >= old(calls) + |list|
    {
      failures := 0;
      CountsNothing(net, calls, retries);
      for i := 0 to |list|
        invariant Valid() && BlobsStay(old(files), files) && DocsStay(old(files), files)
        invariant failures <= i
        invariant failures == 0 ==> forall k :: 0 <= k < i ==> Arrived(place, files, entries, tag, list[k], skipExisting)
        invariant Counts(net, old(calls), calls, retries, failures)
        invariant !skipExisting ==> calls >= old(calls) + i
      {
        ghost var before := files;
        var r := UploadArtifact(entries, list[i], tag, retries, baseDelay, skipExisting, old(calls), failures);
        if r.Failed? {
          failures := failures + 1;
        } else if failures == 0 {
          ArrivalsStay(place, before, files, entries, list, tag, i, skipExisting);
        }
      }
    }

    /** The pointers of a release, each with its own attempts whatever became of the others. */
    method PublishPointers(m: Manifest, channel: Channel, retries: nat, baseDelay: nat) returns (failures: nat)
      requires Valid() && retries >= 1 && GoodManifest(place, files, m)
      modifies `files, `calls, `probed, `slept
      ensures Valid() && BlobsStay(old(files), files) && failures <= 3
      ensures forall q :: q in old(files) && !DocPath(place, q) ==> q in files && files[q] == old(files)[q]
      ensures failures == 0 ==>
        && files == old(files)[ChannelPath(place, channel) := Pointer(m.version)]
                              [LatestPath(place, channel) := Doc(m)]
                              [HistoryPath(place, channel, UploaderTag(Strip(m.version))) := Doc(m)]
      ensures calls == PointersEnd(net, old(calls), retries) && failures == PointerFailures(net, old(calls), retries)
      ensures FileStored(net, old(calls), retries) ==> Holds(files, ChannelPath(place, channel), Pointer(m.version))
      ensures FileStored(net, Second(net, old(calls), retries), retries) ==> Holds(files, LatestPath(place, channel), Doc(m))
      ensures FileStored(net, Third(net, old(calls), retries), retries) ==>
        Holds(files, HistoryPath(place, channel, UploaderTag(Strip(m.version))), Doc(m))
    {
      var tag := UploaderTag(Strip(m.version));
      DocPathsAreDocPaths(place, channel, tag);
      var a := PublishPointer(ChannelPath(place, channel), Pointer(m.version), m, retries, baseDelay);
      ghost var first := files;
      var b := PublishPointer(LatestPath(place, channel), Doc(m), m, retries, baseDelay);
      ghost var second := files;
      var c := PublishPointer(HistoryPath(place, channel, tag), Doc(m), m, retries, baseDelay);
      PointersWritten(place, channel, m, old(files), first, second, files, a, b, c);
      failures := Bit(!a) + Bit(!b) + Bit(!c);
    }

    /** One of them. */
    method PublishPointer(path: string, content: Content, ghost m: Manifest, retries: nat, baseDelay: nat)
      returns (stored: bool)
      requires Valid() && retries >= 1 && GoodManifest(place, files, m)
      requires DocPath(place, path) && !content.Blob? && (content.Doc? ==> content.manifest == m)
      modifies `files, `calls, `probed, `slept
      ensures Valid() && BlobsStay(old(files), files) && GoodManifest(place, files, m)
      ensures ChangedAt(old(files), files, path, content)
      ensures calls == AttemptsEnd(net, old(calls), retries) && stored == FileStored(net, old(calls), retries)
      ensures stored ==> files == old(files)[path := content]
    {
      AddingDocKeeps(place, files, path, content);
      var r := UploadFileWithRetry(path, content, retries, baseDelay, false);
      stored := r.Ok?;
      GoodStays(place, old(files), files, m);
    }

    /** Those built here together with the published ones, if these can be read. */
    method MergeFetched(run: Run, local: seq<Entry>) returns (kept: Option<seq<Entry>>)
      requires Valid() && run.Upload? && run.mergeRemote && local == LocalBuilds(run)
      requires forall k :: 0 <= k < |local| ==> BuiltHere(run, local[k])
      ensures kept.None? <==> RemoteUnreadable(place, files, run) || NothingSelected(place, files, run)
      ensures kept.Some? ==>
        && kept.value != [] && FromRunOrRemote(place, files, run, local, kept.value, UploaderTag(Strip(run.manifest.version)))
        && CarriesOver(run, MergedWith(place, files, run), kept.value)
    {
      var latest := LatestPath(place, run.channel);
      if !run.fetched || latest !in files || !files[latest].Doc? {
        return None;
      }
      var remote := files[latest].manifest;
      var all := MergeRemoteSameChannel(run.manifest.version, local, remote, run.channel);
      MergedAreHeld(place, files, local, remote, all, run.channel);
      MergesNothingExactly(remote.platforms, run.channel);
      MergeCarriesOver(run, MergedWith(place, files, run));
      kept := if all == [] then None else Some(all);
    }

    /** The entries to publish: those built here and, on request, the published ones of the same release. */
    method SelectEntries(run: Run) returns (local: seq<Entry>, kept: Option<seq<Entry>>)
      requires Valid() && run.Upload? && Sound(run)
      ensures local == LocalBuilds(run)
      ensures kept.None? <==> RemoteUnreadable(place, files, run) || NothingSelected(place, files, run)
      ensures kept.Some? ==>
        && kept.value != [] && FromRunOrRemote(place, files, run, local, kept.value, UploaderTag(Strip(run.manifest.version)))
        && CarriesOver(run, MergedWith(place, files, run), kept.value)
    {
      var inChannel, _ := FilterManifestToChannel(run.manifest.platforms, run.channel);
      var builds, _ := FilterManifestToLocalPlatforms(inChannel, Names(run.dist));
      local := builds;
      KeptAreLocal(run, inChannel, local);
      if !run.mergeRemote {
        MergeCarriesOver(run, []);
        kept := if local == [] then None else Some(local);
      } else {
        kept := MergeFetched(run, local);
      }
    }

    /** The packages of a run with their signatures, if there are any and every signature is there. */
    method CollectPackages(run: Run) returns (list: Option<seq<File>>)
      requires run.Upload? && Sound(run)
      ensures list.None? <==> NothingToUpload(run)
      ensures list.Some? ==> Uploadable(run, list.value)
    {
      list := CollectArtifacts(run.dist, HasUpdaterSuffix);
      CollectionExactly(run, list);
      if list.Some? {
        CollectionIsUploadable(run, list.value);
        if list.value == [] {
          return None;
        }
      }
    }

    /** Everything of a run that happens before the first upload; None is an error exit. */
    method Prepare(run: Run) returns (plan: Option<(seq<Entry>, seq<File>)>)
      requires Valid() && run.Upload? && Sound(run)
      ensures plan.None? <==> Refused(place, files, run)
      ensures plan.Some? ==> Planned(place, files, run, plan.value.0, plan.value.1)
    {
      if Strip(run.manifest.version) == [] {
        return None;
      }
      var tag := UploaderTag(Strip(run.manifest.version));
      TagIsPlain(run.manifest.version);
      var list := CollectPackages(run);
      if list.None? {
        return None;
      }
      var local, kept := SelectEntries(run);
      if kept.None? {
        return None;
      }
      RewritableEntries(place, files, run, local, kept.value, tag);
      var entries := RewriteEntries(kept.value, place.host, place.repo, place.prefix, tag);
      EntriesArePlanned(place, files, run, kept.value, entries, list.value);
      plan := Some((entries, list.value));
    }

    /**
     One full upload run: filter, collect, merge, rewrite, upload the artifacts, and only then the pointers.
     It publishes everything exactly when it is not refused and no file runs out of attempts; any failed artifact
     leaves every published document as it was.
     */
    method Publish(run: Run) returns (outcome: Outcome)
      requires Valid() && run.Upload? && Sound(run)
      modifies `files, `calls, `probed, `slept
      ensures Valid()
      ensures Did(place, net, run, old(files), old(calls), UploadEnded(outcome), files, calls)
    {
      var plan := Prepare(run);
      if plan.None? {
        return Rejected;
      }
      outcome := PublishPlan(run, plan.value.0, plan.value.1);
    }

    method PublishPlan(run: Run, entries: seq<Entry>, list: seq<File>) returns (outcome: Outcome)
      requires Valid() && run.Upload? && Sound(run) && Planned(place, files, run, entries, list)
      modifies `files, `calls, `probed, `slept
      ensures Valid() && BlobsStay(old(files), files) && old(calls) <= calls
      ensures !outcome.Rejected?
      ensures outcome.ArtifactsFailed? ==>
        outcome.count > 0 && DocsStay(old(files), files) && GivesUp(net, old(calls), calls, run.retries)
      ensures outcome == Published(0) <==> !GivesUp(net, old(calls), calls, run.retries)
      ensures outcome == Published(0) ==> IsPublished(place, old(files), files, run)
      ensures outcome.Published? ==>
        exists mid: nat :: old(calls) <= mid && !GivesUp(net, old(calls), mid, run.retries)
          && PointersTried(place, net, run, old(files), mid, calls, outcome.failures, files)
    {
      var tag := UploaderTag(Strip(run.manifest.version));
      var failures := UploadArtifacts(entries, list, tag, run.retries, run.baseDelay, run.skipExisting);
      if failures > 0 {
        return ArtifactsFailed(failures);
      }
      EverythingHeld(place, old(files), files, run, entries, list);
      ghost var uploaded, mid := files, calls;
      CountsPointers(net, old(calls), calls, run.retries);
      failures := PublishPointers(Manifest(run.manifest.version, entries), run.channel, run.retries, run.baseDelay);
      if failures == 0 {
        PackagesInPlace(place, uploaded, files, run, entries, list);
        ReleaseIsPublished(place, old(files), uploaded, files, run, entries);
      }
      outcome := Published(failures);
      assert PointersTried(place, net, run, old(files), mid, calls, failures, files);
    }

    /**
     Point a channel back at a snapshot: nothing happens unless the snapshot is there and is of the requested
     version; either upload may fail and ends the rollback.
     */
    method RollBack(channel: Channel, toVersion: string, fetched: bool) returns (done: bool)
      requires Valid()
      modifies `files, `calls
      ensures Valid()
      ensures Did(place, net, Rollback(channel, toVersion, fetched), old(files), old(calls), RollbackEnded(done), files, calls)
    {
      var history := HistoryPath(place, channel, "v" + Requested(toVersion));
      if !fetched || history !in files || !files[history].Doc? {
        return false;
      }
      var m := files[history].manifest;
      if Strip(m.version) != Requested(toVersion) {
        return false;
      }
      DocPathsAreDocPaths(place, channel, []);
      ghost var before := files;
      AddingDocKeeps(place, files, ChannelPath(place, channel), Pointer(m.version));
      var outcome := net(calls);
      calls := calls + 1;
      if !outcome.Lost? {
        files := files[ChannelPath(place, channel) := Pointer(m.version)];
      }
      if !outcome.Stored? {
        return false;
      }
      GoodStays(place, before, files, m);
      AddingDocKeeps(place, files, LatestPath(place, channel), Doc(m));
      outcome := net(calls);
      calls := calls + 1;
      if !outcome.Lost? {
        files := files[LatestPath(place, channel) := Doc(m)];
      }
      done := outcome.Stored?;
    }

    method RunOne(run: Run) returns (end: End)
      requires Valid() && Sound(run)
      modifies `files, `calls, `probed, `slept
      ensures Valid() && NothingDangles(place, files)
      ensures Did(place, net, run, old(files), old(calls), end, files, calls)
    {
      match run {
        case Upload(_, _, _, _, _, _, _, _) =>
          var outcome := Publish(run);
          end := UploadEnded(outcome);
        case Rollback(channel, toVersion, fetched) =>
          var done := RollBack(channel, toVersion, fetched);
          end := RollbackEnded(done);
      }
      InvMeansNothingDangles(place, files);
    }

    /**
     Any sequence of runs: each does what it says, and after each no published URL dangles. `states` are the contents
     of the repository and the number of attempts before every run and after the last.
     */
    method RunAll(runs: seq<Run>) returns (ends: seq<End>, ghost states: seq<(map<string, Content>, nat)>)
      requires Valid() && forall k :: 0 <= k < |runs| ==> Sound(runs[k])
      modifies `files, `calls, `probed, `slept
      ensures Valid() && NothingDangles(place, files) && BlobsStay(old(files), files)
      ensures |ends| == |runs| && |states| == |runs| + 1
      ensures states[0] == (old(files), old(calls)) && states[|runs|] == (files, calls)
      ensures forall k :: 0 <= k < |runs| ==> DidRun(place, net, runs, ends, states, k)
    {
      InvMeansNothingDangles(place, files);
      ends, states := [], [(files, calls)];
      for i := 0 to |runs|
        invariant Valid() && NothingDangles(place, files) && BlobsStay(old(files), files)
        invariant |ends| == i && |states| == i + 1
        invariant states[0] == (old(files), old(calls)) && states[i] == (files, calls)
        invariant forall k :: 0 <= k < i ==> DidRun(place, net, runs, ends, states, k)
      {
        ghost var ends0, states0 := ends, states;
        var end := RunOne(runs[i]);
        ends := ends + [end];
        states := states + [(files, calls)];
        forall k | 0 <= k < i ensures DidRun(place, net, runs, ends, states, k) {
          assert DidRun(place, net, runs, ends0, states0, k);
        }
      }
    }
  }
}
