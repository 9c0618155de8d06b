/**
 Release manifests: filtering, merging and rewriting their platform entries, and where each artifact goes
 (scripts/upload-modelscope-release.py:36-58, 127-259, 315-329). Entries are kept in file order.
 */
module ReleaseManifest {
  import opened Prelude
  import opened Text
  import opened UrlCodec
  import opened ReleaseUrls

  datatype Channel = Windows | Macos | Linux

  datatype Entry = Entry(key: string, url: string, signature: string)

  datatype Manifest = Manifest(version: string, platforms: seq<Entry>)

  function Folder(channel: Channel): string {
    match channel
    case Windows => "windows"
    case Macos => "macos"
    case Linux => "linux"
  }

  predicate Allowed(channel: Channel, key: string) {
    match channel
    case Windows => key == "windows-x86_64" || key == "windows-aarch64"
    case Macos => key == "darwin-x86_64" || key == "darwin-aarch64"
    case Linux => key == "linux-x86_64" || key == "linux-aarch64"
  }

  /** The folder of a platform key; None is the error for an unsupported key. */
  function PlatformFolder(key: string): (folder: Option<string>)
    ensures folder.Some? ==> Bytes(folder.value)
  {
    if "windows-" <= key then Some("windows")
    else if "darwin-" <= key then Some("macos")
    else if "linux-" <= key then Some("linux")
    else None
  }

  lemma AllowedKeyHasChannelFolder(channel: Channel, key: string)
    requires Allowed(channel, key)
    ensures PlatformFolder(key) == Some(Folder(channel))
  {
    assert "windows-x86_64"[..8] == "windows-" && "windows-aarch64"[..8] == "windows-";
    assert "darwin-x86_64"[..7] == "darwin-" && "darwin-aarch64"[..7] == "darwin-";
    assert "linux-x86_64"[..6] == "linux-" && "linux-aarch64"[..6] == "linux-";
    assert key[0] == 'd' ==> !("windows-" <= key);
    assert key[0] == 'l' ==> !("windows-" <= key) && !("darwin-" <= key);
  }

  // ----- the three passes over the platform entries -----

  function FilterChannel(entries: seq<Entry>, channel: Channel): seq<Entry> {
    if entries == [] then []
    else
      var e := entries[|entries| - 1];
      FilterChannel(entries[..|entries| - 1], channel) + if Allowed(channel, e.key) then [e] else []
  }

  lemma {:induction false} FilterChannelFacts(entries: seq<Entry>, channel: Channel)
    ensures forall e :: e in FilterChannel(entries, channel) <==> e in entries && Allowed(channel, e.key)
  {
    if entries != [] {
      FilterChannelFacts(entries[..|entries| - 1], channel);
      assert entries == entries[..|entries| - 1] + [entries[|entries| - 1]];
    }
  }

  predicate Local(e: Entry, names: set<string>) {
    Basename(e.url) != [] && Basename(e.url) in names
  }

  function FilterLocal(entries: seq<Entry>, names: set<string>): seq<Entry> {
    if entries == [] then []
    else
      var e := entries[|entries| - 1];
      FilterLocal(entries[..|entries| - 1], names) + if Local(e, names) then [e] else []
  }

  /** The keys that are left out, in file order. */
  function ChannelDropped(entries: seq<Entry>, channel: Channel): seq<string> {
    if entries == [] then []
    else
      var e := entries[|entries| - 1];
      ChannelDropped(entries[..|entries| - 1], channel) + if Allowed(channel, e.key) then [] else [e.key]
  }

  function LocalDropped(entries: seq<Entry>, names: set<string>): seq<string> {
    if entries == [] then []
    else
      var e := entries[|entries| - 1];
      LocalDropped(entries[..|entries| - 1], names) + if Local(e, names) then [] else [e.key]
  }

  lemma FilterLocalNext(entries: seq<Entry>, i: nat, names: set<string>)
    requires i < |entries|
    ensures FilterLocal(entries[..i + 1], names) ==
      FilterLocal(entries[..i], names) + if Local(entries[i], names) then [entries[i]] else []
    ensures LocalDropped(entries[..i + 1], names) ==
      LocalDropped(entries[..i], names) + if Local(entries[i], names) then [] else [entries[i].key]
  {
    assert entries[..i + 1][..i] == entries[..i];
  }

  lemma {:induction false} FilterLocalFacts(entries: seq<Entry>, names: set<string>)
    ensures |FilterLocal(entries, names)| + |LocalDropped(entries, names)| == |entries|
    ensures forall e :: e in FilterLocal(entries, names) <==> e in entries && Local(e, names)
  {
    if entries != [] {
      FilterLocalFacts(entries[..|entries| - 1], names);
      assert entries == entries[..|entries| - 1] + [entries[|entries| - 1]];
    }
  }

  predicate HasKey(entries: seq<Entry>, key: string) {
    exists k :: 0 <= k < |entries| && entries[k].key == key
  }

  predicate Mergeable(e: Entry, local: seq<Entry>, channel: Channel) {
    Allowed(channel, e.key) && !HasKey(local, e.key) && e.url != [] && e.signature != []
  }

  function MergeEntries(local: seq<Entry>, remote: seq<Entry>, channel: Channel): seq<Entry> {
    if remote == [] then local
    else
      var merged := MergeEntries(local, remote[..|remote| - 1], channel);
      var e := remote[|remote| - 1];
      if Mergeable(e, merged, channel) then merged + [e] else merged
  }

  function Rewritten(e: Entry, host: string, repo: string, prefix: string, tag: string): Entry
    requires Bytes(prefix) && Bytes(tag) && Bytes(Basename(e.url))
  {
    if Basename(e.url) == [] || PlatformFolder(e.key).None? then e
    else e.(url := FileUrl(host, repo, FilePath(prefix, PlatformFolder(e.key).value, tag, Basename(e.url))))
  }

  function FilePath(prefix: string, folder: string, tag: string, name: string): (path: string)
    ensures Bytes(prefix) && Bytes(folder) && Bytes(tag) && Bytes(name) ==> Bytes(path)
  {
    prefix + "/" + folder + "/" + tag + "/" + name
  }

  function RewriteEntries(entries: seq<Entry>, host: string, repo: string, prefix: string, tag: string): (r: seq<Entry>)
    requires Bytes(prefix) && Bytes(tag) && forall k :: 0 <= k < |entries| ==> Bytes(Basename(entries[k].url))
    ensures |r| == |entries|
    ensures forall k :: 0 <= k < |entries| ==> r[k] == Rewritten(entries[k], host, repo, prefix, tag)
  {
    seq(|entries|, k requires 0 <= k < |entries| => Rewritten(entries[k], host, repo, prefix, tag))
  }

  /** Keep the entries of one channel, and name the keys that were dropped. */
  method FilterManifestToChannel(entries: seq<Entry>, channel: Channel) returns (kept: seq<Entry>, dropped: seq<string>)
    ensures kept == FilterChannel(entries, channel) && dropped == ChannelDropped(entries, channel)
    ensures |kept| + |dropped| == |entries|
    ensures forall e :: e in kept <==> e in entries && Allowed(channel, e.key)
    ensures forall k :: 0 <= k < |dropped| ==> !Allowed(channel, dropped[k])
  {
    kept, dropped := [], [];
    for i := 0 to |entries|
      invariant kept == FilterChannel(entries[..i], channel) && dropped == ChannelDropped(entries[..i], channel)
      invariant |kept| + |dropped| == i
      invariant forall e :: e in kept <==> e in entries[..i] && Allowed(channel, e.key)
      invariant forall k :: 0 <= k < |dropped| ==> !Allowed(channel, dropped[k])
    {
      assert entries[..i + 1][..i] == entries[..i];
      if Allowed(channel, entries[i].key) {
        kept := kept + [entries[i]];
      } else {
        dropped := dropped + [entries[i].key];
      }
    }
    assert entries[..|entries|] == entries;
  }

  /** Keep the entries whose artifact lies in the build directory. */
  method FilterManifestToLocalPlatforms(entries: seq<Entry>, names: set<string>)
    returns (kept: seq<Entry>, dropped: seq<string>)
    ensures kept == FilterLocal(entries, names) && dropped == LocalDropped(entries, names)
    ensures |kept| + |dropped| == |entries|
    ensures forall e :: e in kept <==> e in entries && Local(e, names)
  {
    kept, dropped := [], [];
    for i := 0 to |entries|
      invariant kept == FilterLocal(entries[..i], names) && dropped == LocalDropped(entries[..i], names)
    {
      FilterLocalNext(entries, i, names);
      if Local(entries[i], names) {
        kept := kept + [entries[i]];
      } else {
        dropped := dropped + [entries[i].key];
      }
    }
    assert entries[..|entries|] == entries;
    FilterLocalFacts(entries, names);
  }

  /** Add the remote entries whose platforms were not built here, if the remote manifest is of the same release. */
  method MergeRemoteSameChannel(version: string, local: seq<Entry>, remote: Manifest, channel: Channel)
    returns (merged: seq<Entry>)
    ensures merged ==
      if Strip(remote.version) == Strip(version) then MergeEntries(local, remote.platforms, channel) else local
    ensures local <= merged
    ensures forall k :: |local| <= k < |merged| ==> merged[k] in remote.platforms && Allowed(channel, merged[k].key)
  {
    merged := local;
    if Strip(remote.version) != Strip(version) {
      return;
    }
    for i := 0 to |remote.platforms|
      invariant merged == MergeEntries(local, remote.platforms[..i], channel)
      invariant local <= merged
      invariant forall k :: |local| <= k < |merged| ==> merged[k] in remote.platforms && Allowed(channel, merged[k].key)
    {
      assert remote.platforms[..i + 1][..i] == remote.platforms[..i];
      if Mergeable(remote.platforms[i], merged, channel) {
        merged := merged + [remote.platforms[i]];
      }
    }
    assert remote.platforms[..|remote.platforms|] == remote.platforms;
  }

  lemma {:induction false} MergedKeysComeFrom(local: seq<Entry>, remote: seq<Entry>, channel: Channel, key: string)
    requires HasKey(MergeEntries(local, remote, channel), key)
    ensures HasKey(local, key) || HasKey(remote, key)
  {
    if remote != [] {
      var init, last := remote[..|remote| - 1], remote[|remote| - 1];
      var before := MergeEntries(local, init, channel);
      if HasKey(before, key) {
        MergedKeysComeFrom(local, init, channel, key);
        assert HasKey(init, key) ==> HasKey(remote, key) by {
          if HasKey(init, key) {
            var i :| 0 <= i < |init| && init[i].key == key;
            assert remote[i].key == key;
          }
        }
      } else {
        assert MergeEntries(local, remote, channel) == before + [last];
        assert remote[|remote| - 1].key == key;
      }
    }
  }

  /**
   Every remote entry of the channel with a URL and a signature has its platform in the merged manifest, and is there
   itself when that platform was not built here, the first one if the remote manifest lists it more than once.
   */
  lemma {:induction false} MergeBringsRemote(local: seq<Entry>, remote: seq<Entry>, channel: Channel, k: nat)
    requires k < |remote| && Allowed(channel, remote[k].key) && remote[k].url != [] && remote[k].signature != []
    ensures HasKey(MergeEntries(local, remote, channel), remote[k].key)
    ensures !HasKey(local, remote[k].key) && !HasKey(remote[..k], remote[k].key) ==>
      remote[k] in MergeEntries(local, remote, channel)
  {
    var init, last := remote[..|remote| - 1], remote[|remote| - 1];
    var before, m := MergeEntries(local, init, channel), MergeEntries(local, remote, channel);
    if k < |init| {
      assert init[k] == remote[k] && init[..k] == remote[..k];
      MergeBringsRemote(local, init, channel, k);
      var i :| 0 <= i < |before| && before[i].key == remote[k].key;
      assert m[i].key == remote[k].key;
    } else {
      assert remote[..k] == init;
      if HasKey(before, last.key) {
        MergedKeysComeFrom(local, init, channel, last.key);
        var i :| 0 <= i < |before| && before[i].key == last.key;
        assert m[i].key == last.key;
      } else {
        assert m[|m| - 1] == last;
      }
    }
  }

  /** What is added comes from the remote manifest, for platforms not built here. */
  lemma {:induction false} MergeAddsOnlyRemote(local: seq<Entry>, remote: seq<Entry>, channel: Channel)
    ensures
      var m := MergeEntries(local, remote, channel);
      local <= m && forall k :: |local| <= k < |m| ==> m[k] in remote && !HasKey(local, m[k].key)
  {
    if remote != [] {
      var init, last := remote[..|remote| - 1], remote[|remote| - 1];
      MergeAddsOnlyRemote(local, init, channel);
      var before := MergeEntries(local, init, channel);
      if HasKey(local, last.key) {
        var i :| 0 <= i < |local| && local[i].key == last.key;
        assert before[i].key == last.key;
      }
      assert remote == init + [last];
    }
  }

  lemma {:induction false} MergesNothingExactly(remote: seq<Entry>, channel: Channel)
    ensures MergeEntries([], remote, channel) == [] <==>
      forall k :: 0 <= k < |remote| ==> !Mergeable(remote[k], [], channel)
  {
    if remote != [] {
      var init := remote[..|remote| - 1];
      MergesNothingExactly(init, channel);
      assert forall k :: 0 <= k < |init| ==> init[k] == remote[k];
    }
  }

  /** Merging never loses or doubles a platform: every key is there once if it was there at most once before. */
  lemma {:induction false} MergeKeepsKeysDistinct(local: seq<Entry>, remote: seq<Entry>, channel: Channel)
    requires forall i, j :: 0 <= i < j < |local| ==> local[i].key != local[j].key
    ensures
      var m := MergeEntries(local, remote, channel);
      && local <= m
      && (forall i, j :: 0 <= i < j < |m| ==> m[i].key != m[j].key)
      && (forall k :: 0 <= k < |remote| && Allowed(channel, remote[k].key) && remote[k].url != [] && remote[k].signature != []
                      ==> HasKey(m, remote[k].key))
  {
    if remote != [] {
      var init := remote[..|remote| - 1];
      MergeKeepsKeysDistinct(local, init, channel);
      var before, m := MergeEntries(local, init, channel), MergeEntries(local, remote, channel);
      forall k | 0 <= k < |remote| && Allowed(channel, remote[k].key) && remote[k].url != [] && remote[k].signature != []
        ensures HasKey(m, remote[k].key)
      {
        if k < |remote| - 1 {
          assert init[k] == remote[k];
          var i :| 0 <= i < |before| && before[i].key == remote[k].key;
          assert m[i].key == remote[k].key;
        } else if Mergeable(remote[k], before, channel) {
          assert m[|m| - 1] == remote[k];
        }
      }
    }
  }

  // ----- where an artifact goes -----

  function Lower(t: string): string {
    seq(|t|, k requires 0 <= k < |t| => if 'A' <= t[k] <= 'Z' then (t[k] as int + 32) as char else t[k])
  }

  predicate EndsWith(t: string, suffix: string) {
    |t| >= |suffix| && t[|t| - |suffix|..] == suffix
  }

  /** The package name behind a detached signature. */
  function BaseName(artifact: string): string {
    if EndsWith(artifact, ".sig") then artifact[..|artifact| - 4] else artifact
  }

  function FolderByName(artifact: string): Option<string> {
    var lower := Lower(BaseName(artifact));
    if EndsWith(lower, "-setup.exe") || EndsWith(lower, ".exe") || EndsWith(lower, ".msi") then Some("windows")
    else if EndsWith(lower, ".app.tar.gz") then Some("macos")
    else if EndsWith(lower, ".appimage") || EndsWith(lower, ".deb") || EndsWith(lower, ".rpm") then Some("linux")
    else None
  }

  /** The folder of the first entry that names the package. */
  function FolderByUrl(entries: seq<Entry>, base: string): Option<string> {
    if entries == [] then None
    else if Basename(entries[0].url) == base then PlatformFolder(entries[0].key)
    else FolderByUrl(entries[1..], base)
  }

  function RemoteFolder(entries: seq<Entry>, artifact: string): Option<string> {
    var byUrl := FolderByUrl(entries, BaseName(artifact));
    if byUrl.Some? then byUrl else FolderByName(artifact)
  }

  predicate HasUpdaterSuffix(name: string) {
    EndsWith(name, "-setup.exe") || EndsWith(name, ".app.tar.gz") || EndsWith(name, ".AppImage")
  }

  lemma {:induction false} FolderByUrlInChannel(entries: seq<Entry>, base: string, channel: Channel, k: nat)
    requires forall i :: 0 <= i < |entries| ==> Allowed(channel, entries[i].key)
    requires k < |entries| && Basename(entries[k].url) == base
    ensures FolderByUrl(entries, base) == Some(Folder(channel))
  {
    AllowedKeyHasChannelFolder(channel, entries[0].key);
    if Basename(entries[0].url) != base {
      FolderByUrlInChannel(entries[1..], base, channel, k - 1);
    }
  }

  lemma SuffixEndsLower(name: string, suffix: string)
    requires EndsWith(name, suffix)
    ensures EndsWith(Lower(name), Lower(suffix))
  {
  }

  lemma LastCharacter(t: string, suffix: string)
    requires EndsWith(t, suffix) && suffix != []
    ensures t[|t| - 1] == suffix[|suffix| - 1]
  {
    assert t[|t| - |suffix|..][|suffix| - 1] == t[|t| - 1];
  }

  lemma NotASignature(name: string)
    requires HasUpdaterSuffix(name)
    ensures BaseName(name) == name && BaseName(name + ".sig") == name
  {
    assert (name + ".sig")[|name|..] == ".sig";
    if EndsWith(name, "-setup.exe") { LastCharacter(name, "-setup.exe"); }
    else if EndsWith(name, ".app.tar.gz") { LastCharacter(name, ".app.tar.gz"); }
    else { LastCharacter(name, ".AppImage"); }
    if EndsWith(name, ".sig") { LastCharacter(name, ".sig"); }
  }

  lemma LowerOfSuffixes()
    ensures Lower("-setup.exe") == "-setup.exe" && Lower(".app.tar.gz") == ".app.tar.gz" && Lower(".AppImage") == ".appimage"
  {
  }

  /** A name does not end in two suffixes whose last or last but one characters differ. */
  lemma OtherEnding(t: string, suffix: string, other: string)
    requires EndsWith(t, suffix) && |suffix| >= 2 && |other| >= 2
    requires suffix[|suffix| - 1] != other[|other| - 1] || suffix[|suffix| - 2] != other[|other| - 2]
    ensures !EndsWith(t, other)
  {
    assert t[|t| - |suffix|..][|suffix| - 1] == t[|t| - 1] && t[|t| - |suffix|..][|suffix| - 2] == t[|t| - 2];
    if |t| >= |other| {
      assert t[|t| - |other|..][|other| - 1] == t[|t| - 1] && t[|t| - |other|..][|other| - 2] == t[|t| - 2];
    }
  }

  lemma NotWindows(t: string, suffix: string)
    requires EndsWith(t, suffix) && suffix in {".app.tar.gz", ".appimage"}
    ensures !EndsWith(t, "-setup.exe") && !EndsWith(t, ".exe") && !EndsWith(t, ".msi")
  {
    OtherEnding(t, suffix, "-setup.exe");
    OtherEnding(t, suffix, ".exe");
    OtherEnding(t, suffix, ".msi");
  }

  lemma SetupIsWindows(name: string)
    requires EndsWith(name, "-setup.exe") && BaseName(name) == name
    ensures FolderByName(name) == Some("windows")
  {
    LowerOfSuffixes();
    SuffixEndsLower(name, "-setup.exe");
  }

  lemma ArchiveIsMacos(name: string)
    requires EndsWith(name, ".app.tar.gz") && BaseName(name) == name
    ensures FolderByName(name) == Some("macos")
  {
    LowerOfSuffixes();
    SuffixEndsLower(name, ".app.tar.gz");
    NotWindows(Lower(name), ".app.tar.gz");
  }

  lemma AppImageIsLinux(name: string)
    requires EndsWith(name, ".AppImage") && BaseName(name) == name
    ensures FolderByName(name) == Some("linux")
  {
    LowerOfSuffixes();
    SuffixEndsLower(name, ".AppImage");
    NotWindows(Lower(name), ".appimage");
    OtherEnding(Lower(name), ".appimage", ".app.tar.gz");
  }

  /** The folder of an updater package that no entry names goes by its suffix. */
  lemma UpdaterNameHasFolder(name: string)
    requires HasUpdaterSuffix(name) && BaseName(name) == name
    ensures FolderByName(name) == Some(
      if EndsWith(name, "-setup.exe") then "windows" else if EndsWith(name, ".app.tar.gz") then "macos" else "linux")
  {
    if EndsWith(name, "-setup.exe") {
      SetupIsWindows(name);
    } else if EndsWith(name, ".app.tar.gz") {
      ArchiveIsMacos(name);
    } else {
      AppImageIsLinux(name);
    }
  }

  /** Every collected artifact has a place, matched or not, and its signature goes to the same one. */
  lemma UpdaterArtifactsAlwaysMap(entries: seq<Entry>, name: string)
    requires HasUpdaterSuffix(name)
    ensures RemoteFolder(entries, name).Some? && RemoteFolder(entries, name + ".sig") == RemoteFolder(entries, name)
    ensures FolderByUrl(entries, name).None? ==>
      RemoteFolder(entries, name) == Some(
        if EndsWith(name, "-setup.exe") then "windows" else if EndsWith(name, ".app.tar.gz") then "macos" else "linux")
  {
    NotASignature(name);
    UpdaterNameHasFolder(name);
  }
}
