/** The installer's loop over the pinned voice models (scripts/prepare-voice-models.py:249-252, 420-498). */
module VoiceModels {
  import opened Prelude
  import opened ResumableDownload

  /** A model: its path below the models directory, where to get it, and its pinned hash unless it has none. */
  datatype Item = Item(relPath: string, modelscope: Option<string>, hf: string, sha: Option<string>)

  /** What requesting a URL comes to, and what requesting it again after a 416 comes to. */
  datatype Exchange = Exchange(first: Reply, again: Reply)

  /** An item ends as an entry of the checksum manifest, or ends the script. */
  datatype Outcome = Entry(sha: string) | Exit

  const KEYWORDS := "kws/keywords.txt"
  const VAD := "vad/silero_vad.onnx"
  const HF_MIRROR := "https://hf-mirror.com/"
  const HF_OFFICIAL := "https://huggingface.co/"

  function Candidates(item: Item, useModelscope: bool): (urls: seq<string>)
    ensures 1 <= |urls| <= 2
  {
    var url := if useModelscope && item.modelscope.Some? then item.modelscope.value else item.hf;
    if HF_MIRROR <= url then [url, HF_OFFICIAL + url[|HF_MIRROR|..]] else [url]
  }

  /** Whether a file with this hash is taken for the item's. */
  predicate Acceptable(item: Item, sha: string) {
    item.sha.Some? ==> sha == item.sha.value || (item.relPath == VAD && sha == VAD_ALTERNATE)
  }

  /** The file after trying the addresses in turn, up to the first success. */
  function Tries(hash: Bytes -> string, f: File, sha: Option<string>, urls: seq<string>, net: string -> Exchange): (r: (File, bool))
    ensures r.1 ==> r.0.target.Some?
  {
    if urls == [] then (f, false)
    else
      var (g, ok) := Tries(hash, f, sha, urls[..|urls| - 1], net);
      if ok then (g, true)
      else
        var x := net(urls[|urls| - 1]);
        Download(hash, g, sha, x.first, x.again)
  }

  lemma {:induction false} SuccessIsLast(
      hash: Bytes -> string, f: File, sha: Option<string>, urls: seq<string>, i: nat, net: string -> Exchange)
    requires i <= |urls| && Tries(hash, f, sha, urls[..i], net).1
    ensures Tries(hash, f, sha, urls, net) == Tries(hash, f, sha, urls[..i], net)
  {
    if i == |urls| {
      assert urls[..i] == urls;
    } else {
      assert urls[..|urls| - 1][..i] == urls[..i];
      SuccessIsLast(hash, f, sha, urls[..|urls| - 1], i, net);
    }
  }

  function Step(hash: Bytes -> string, keywords: Bytes, f: File, item: Item, useModelscope: bool, net: string -> Exchange)
    : (r: (File, Outcome))
    ensures r.1.Entry? ==> r.0.target.Some? && hash(r.0.target.value) == r.1.sha
  {
    if f.target.Some? && Acceptable(item, hash(f.target.value)) then (f, Entry(hash(f.target.value)))
    else
      var (g, ok) := Tries(hash, f, item.sha, Candidates(item, useModelscope), net);
      if !ok then
        if item.relPath == KEYWORDS then (g.(target := Some(keywords)), Entry(hash(keywords))) else (g, Exit)
      else if !Acceptable(item, hash(g.target.value)) then (g.(target := None), Exit)
      else (g, Entry(hash(g.target.value)))
  }

  /**
   Whatever the network does, an item other than the keyword list is recorded only with its pinned hash or, for the
   voice detector alone, the alternate; so what the download accepts too freely after a 416 is caught here.
   */
  lemma EntryIsAcceptable(
      hash: Bytes -> string, keywords: Bytes, f: File, item: Item, useModelscope: bool, net: string -> Exchange)
    requires item.relPath != KEYWORDS
    ensures var r := Step(hash, keywords, f, item, useModelscope, net);
            && (r.1.Entry? && item.sha.Some? ==>
                  r.1.sha == item.sha.value || (item.relPath == VAD && r.1.sha == VAD_ALTERNATE))
            && (r.1.Exit? && item.sha.Some? && r.0.target.Some? ==>
                  f.target.Some? && r.0.target == f.target)
  {
    if !(f.target.Some? && Acceptable(item, hash(f.target.value))) {
      FailureLeavesTarget(hash, f, item.sha, Candidates(item, useModelscope), net);
    }
  }

  lemma {:induction false} FailureLeavesTarget(
      hash: Bytes -> string, f: File, sha: Option<string>, urls: seq<string>, net: string -> Exchange)
    ensures var (r, ok) := Tries(hash, f, sha, urls, net); !ok ==> r.target == f.target
  {
    if urls != [] {
      FailureLeavesTarget(hash, f, sha, urls[..|urls| - 1], net);
    }
  }

  /**
   What a download accepts after a 416, without asking again, is what the installer accepts afterwards, except for
   items without a pinned hash, which are downloaded afresh, and for the alternate hash of the voice detector found in
   the part file of another item.
   */
  lemma ResumeDisagreesExactly(hash: Bytes -> string, f: File, item: Item)
    requires f.part.Some?
    ensures
      var accepted := Download(hash, f, item.sha, Unsatisfiable, Failed) == (Renamed(f.part.value), true);
      accepted != Acceptable(item, hash(f.part.value))
      <==>
      || item.sha.None?
      || (hash(f.part.value) == VAD_ALTERNATE && item.relPath != VAD && item.sha.value != VAD_ALTERNATE)
  {
  }

  /** In that last case the installer's check ends the script, with both files gone, instead of downloading again. */
  lemma AlternateElsewhereExits(
      hash: Bytes -> string, keywords: Bytes, f: File, item: Item, useModelscope: bool, net: string -> Exchange)
    requires f.part.Some? && item.sha.Some? && (f.target.Some? ==> !Acceptable(item, hash(f.target.value)))
    requires hash(f.part.value) == VAD_ALTERNATE && item.relPath != VAD && item.sha.value != VAD_ALTERNATE
    requires net(Candidates(item, useModelscope)[0]).first.Unsatisfiable?
    ensures Step(hash, keywords, f, item, useModelscope, net) == (File(None, None), Exit)
  {
    var urls := Candidates(item, useModelscope);
    assert urls[..1] == [urls[0]] && urls[..1][..0] == [];
    assert Tries(hash, f, item.sha, urls[..1], net) == (Renamed(f.part.value), true);
    SuccessIsLast(hash, f, item.sha, urls, 1, net);
  }

  /** With hashes that tell contents apart, a recorded pinned item is on disk byte for byte. */
  lemma EntryIsContent(
      hash: Bytes -> string, keywords: Bytes, f: File, item: Item, useModelscope: bool, net: string -> Exchange,
      content: Bytes)
    requires forall a, b :: hash(a) == hash(b) ==> a == b
    requires item.relPath != KEYWORDS && item.relPath != VAD && item.sha == Some(hash(content))
    ensures var r := Step(hash, keywords, f, item, useModelscope, net);
            r.1.Entry? ==> r.0.target == Some(content) && r.1.sha == hash(content)
  {
    EntryIsAcceptable(hash, keywords, f, item, useModelscope, net);
  }

  /** A server that answers a request for the rest of `part` with the rest of the content, or with all of it. */
  predicate Serves(content: Bytes, part: Option<Bytes>, x: Exchange) {
    && Honest(content, Size(part), x.first) && Whole(content, Size(part), x.first)
    && (x.first.Unsatisfiable? || (x.first.Body? && x.first.end.EndOfFile?))
  }

  lemma ServedDownload(hash: Bytes -> string, f: File, content: Bytes, x: Exchange)
    requires IsPrefix(f.part, content) && Serves(content, f.part, x)
    ensures Download(hash, f, Some(hash(content)), x.first, x.again) == (Renamed(content), true)
  {
    if x.first.Body? {
      TakeKeeps(content, f, x.first);
    } else {
      assert f.part.value == content;
    }
  }

  /**
   Resuming works: if what is on disk is a prefix of the pinned content and the first address serves it whole, the
   item is recorded and complete, whether the server answers 200, 206 or 416.
   */
  lemma GoodMirrorSucceeds(
      hash: Bytes -> string, keywords: Bytes, f: File, item: Item, useModelscope: bool, net: string -> Exchange,
      content: Bytes)
    requires item.sha == Some(hash(content)) && IsPrefix(f.part, content)
    requires f.target.Some? ==> !Acceptable(item, hash(f.target.value))
    requires Serves(content, f.part, net(Candidates(item, useModelscope)[0]))
    ensures Step(hash, keywords, f, item, useModelscope, net) == (Renamed(content), Entry(hash(content)))
  {
    var urls := Candidates(item, useModelscope);
    assert urls[..1] == [urls[0]];
    assert urls[..1][..0] == [];
    ServedDownload(hash, f, content, net(urls[0]));
    assert Tries(hash, f, item.sha, urls[..1], net) == (Renamed(content), true);
    SuccessIsLast(hash, f, item.sha, urls, 1, net);
  }

  /** A file that is there and has the pinned hash, or needs none, is recorded as it is, whatever the network does. */
  lemma ValidFileSurvives(
      hash: Bytes -> string, keywords: Bytes, f: File, item: Item, useModelscope: bool, net: string -> Exchange)
    requires f.target.Some?
    requires
      || item.sha.None? || item.sha == Some(hash(f.target.value))
      || (item.relPath == "vad/silero_vad.onnx" && hash(f.target.value) == VAD_ALTERNATE)
    ensures Step(hash, keywords, f, item, useModelscope, net) == (f, Entry(hash(f.target.value)))
  {
  }

  ghost predicate Dead(net: string -> Exchange) {
    forall url :: net(url).first.Failed?
  }

  lemma {:induction false} DeadTries(hash: Bytes -> string, f: File, sha: Option<string>, urls: seq<string>, net: string -> Exchange)
    requires Dead(net)
    ensures Tries(hash, f, sha, urls, net) == (f, false)
  {
    if urls != [] {
      DeadTries(hash, f, sha, urls[..|urls| - 1], net);
    }
  }

  /**
   Without a network the script goes on past an item exactly if its file is already valid or it is the keyword list, which
   is then generated; anything else, a half-downloaded part file included, stays as it was.
   */
  lemma DeadNetworkExactly(
      hash: Bytes -> string, keywords: Bytes, f: File, item: Item, useModelscope: bool, net: string -> Exchange)
    requires Dead(net)
    ensures
      var valid := f.target.Some? && Acceptable(item, hash(f.target.value));
      Step(hash, keywords, f, item, useModelscope, net) ==
        if valid then (f, Entry(hash(f.target.value)))
        else if item.relPath == "kws/keywords.txt" then (f.(target := Some(keywords)), Entry(hash(keywords)))
        else (f, Exit)
  {
    DeadTries(hash, f, item.sha, Candidates(item, useModelscope), net);
  }

  /** The keyword list, which has no pinned hash, never ends the script, whatever the network does. */
  lemma KeywordsNeverExit(
      hash: Bytes -> string, keywords: Bytes, f: File, item: Item, useModelscope: bool, net: string -> Exchange)
    requires item.relPath == "kws/keywords.txt" && item.sha.None?
    ensures Step(hash, keywords, f, item, useModelscope, net).1.Entry?
  {
  }

  /** The addresses tried: the ModelScope one if wanted and there is one, else the mirror and behind it the official host. */
  lemma AddressesTried(item: Item, useModelscope: bool, path: string)
    ensures useModelscope && item.modelscope.Some? && !("https://hf-mirror.com/" <= item.modelscope.value) ==>
      Candidates(item, useModelscope) == [item.modelscope.value]
    ensures !(useModelscope && item.modelscope.Some?) && item.hf == "https://hf-mirror.com/" + path ==>
      Candidates(item, useModelscope) == ["https://hf-mirror.com/" + path, "https://huggingface.co/" + path]
    ensures !(useModelscope && item.modelscope.Some?) && !("https://hf-mirror.com/" <= item.hf) ==>
      Candidates(item, useModelscope) == [item.hf]
  {
    assert ("https://hf-mirror.com/" + path)[|"https://hf-mirror.com/"|..] == path;
  }

  /** When the mirror is down and the official host serves the content, the item is recorded and complete. */
  lemma OfficialHostRescues(
      hash: Bytes -> string, keywords: Bytes, f: File, item: Item, useModelscope: bool, net: string -> Exchange,
      content: Bytes, path: string)
    requires item.sha == Some(hash(content)) && IsPrefix(f.part, content)
    requires f.target.Some? ==> !Acceptable(item, hash(f.target.value))
    requires !(useModelscope && item.modelscope.Some?) && item.hf == "https://hf-mirror.com/" + path
    requires net("https://hf-mirror.com/" + path).first.Failed?
    requires Serves(content, f.part, net("https://huggingface.co/" + path))
    ensures Step(hash, keywords, f, item, useModelscope, net) == (Renamed(content), Entry(hash(content)))
  {
    AddressesTried(item, useModelscope, path);
    var mirror, official := "https://hf-mirror.com/" + path, "https://huggingface.co/" + path;
    assert [mirror, official][..1] == [mirror] && [mirror][..0] == [];
    assert Tries(hash, f, item.sha, [mirror], net) == (f, false);
    ServedDownload(hash, f, content, net(official));
    assert Tries(hash, f, item.sha, [mirror, official], net) == (Renamed(content), true);
  }

  predicate DistinctPaths(manifest: seq<Item>) {
    forall i, j :: 0 <= i < j < |manifest| ==> manifest[i].relPath != manifest[j].relPath
  }

  function Paths(manifest: seq<Item>): set<string> {
    set item | item in manifest :: item.relPath
  }

  lemma PathsOfNext(manifest: seq<Item>, n: nat)
    requires n < |manifest| && DistinctPaths(manifest)
    ensures Paths(manifest[..n + 1]) == Paths(manifest[..n]) + {manifest[n].relPath}
    ensures manifest[n].relPath !in Paths(manifest[..n])
  {
    assert manifest[..n + 1] == manifest[..n] + [manifest[n]];
  }

  class Setup {
    const hash: Bytes -> string
    /** The keyword list that is generated when it cannot be downloaded. */
    const keywords: Bytes
    var files: map<string, File>
    var verified: map<string, string>
    var successCount: nat

    constructor (hash: Bytes -> string, keywords: Bytes, files: map<string, File>)
      ensures this.hash == hash && this.keywords == keywords && this.files == files
      ensures verified == map[] && successCount == 0
    {
      this.hash, this.keywords, this.files := hash, keywords, files;
      verified, successCount := map[], 0;
    }

    function At(path: string): File
      reads this
    {
      if path in files then files[path] else File(None, None)
    }

    /** Try the mirror, then the official host, until one download succeeds. */
    method Fetch(path: string, sha: Option<string>, urls: seq<string>, net: string -> Exchange) returns (ok: bool)
      modifies `files
      ensures forall p :: p != path ==> At(p) == old(At(p))
      ensures (At(path), ok) == Tries(hash, old(At(path)), sha, urls, net)
    {
      var i := 0;
      ok := false;
      while i < |urls| && !ok
        invariant 0 <= i <= |urls|
        invariant forall p :: p != path ==> At(p) == old(At(p))
        invariant (At(path), ok) == Tries(hash, old(At(path)), sha, urls[..i], net)
      {
        assert urls[..i + 1][..i] == urls[..i];
        var x := net(urls[i]);
        var installer := new Installer(hash, At(path).part, At(path).target);
        ok := installer.DownloadFileWithResume(sha, x.first, x.again);
        files := files[path := installer.View()];
        i := i + 1;
      }
      if ok {
        SuccessIsLast(hash, old(At(path)), sha, urls, i, net);
      } else {
        assert urls[..i] == urls;
      }
    }

    /** The item is recorded with an acceptable hash, and that is the hash of the file on disk. */
    predicate Recorded(item: Item)
      reads this
    {
      && item.relPath in verified
      && At(item.relPath).target.Some? && hash(At(item.relPath).target.value) == verified[item.relPath]
      && (item.relPath != KEYWORDS ==> Acceptable(item, verified[item.relPath]))
    }

    /** Process one item; `ok` is false when the script exits. */
    method Process(item: Item, useModelscope: bool, net: string -> Exchange) returns (ok: bool)
      modifies this
      ensures forall p :: p != item.relPath ==> At(p) == old(At(p))
      ensures var (f, outcome) := Step(hash, keywords, old(At(item.relPath)), item, useModelscope, net);
              && At(item.relPath) == f
              && ok == outcome.Entry?
              && verified == (if ok then old(verified)[item.relPath := outcome.sha] else old(verified))
              && successCount == old(successCount) + if ok then 1 else 0
      ensures ok ==> Recorded(item)
    {
      var path := item.relPath;
      if path != KEYWORDS {
        EntryIsAcceptable(hash, keywords, At(path), item, useModelscope, net);
      }
      if At(path).target.Some? && Acceptable(item, hash(At(path).target.value)) {
        verified := verified[path := hash(At(path).target.value)];
        successCount := successCount + 1;
        return true;
      }
      ok := Fetch(path, item.sha, Candidates(item, useModelscope), net);
      if !ok {
        if path != KEYWORDS {
          return false;
        }
        files := files[path := At(path).(target := Some(keywords))];
        verified := verified[path := hash(keywords)];
        successCount := successCount + 1;
        return true;
      }
      var actual := hash(At(path).target.value);
      if !Acceptable(item, actual) {
        files := files[path := At(path).(target := None)];
        return false;
      }
      verified := verified[path := actual];
      successCount := successCount + 1;
    }

    /** One more item of the manifest. */
    method Advance(manifest: seq<Item>, n: nat, useModelscope: bool, net: string -> Exchange) returns (ok: bool)
      requires n < |manifest| && DistinctPaths(manifest)
      requires forall i :: 0 <= i < n ==> Recorded(manifest[i])
      modifies this
      ensures forall p :: p != manifest[n].relPath ==> At(p) == old(At(p))
      ensures forall i :: 0 <= i < n ==> Recorded(manifest[i])
      ensures ok <==> Step(hash, keywords, old(At(manifest[n].relPath)), manifest[n], useModelscope, net).1.Entry?
      ensures ok ==> Recorded(manifest[n]) && verified.Keys == old(verified.Keys) + {manifest[n].relPath}
      ensures !ok ==> verified == old(verified)
      ensures successCount == old(successCount) + if ok then 1 else 0
    {
      ok := Process(manifest[n], useModelscope, net);
      forall i | 0 <= i < n
        ensures Recorded(manifest[i])
      {
        assert old(Recorded(manifest[i]));
      }
    }

    /**
     The whole manifest, in order. On success everything is recorded and nothing else is; on exit everything up to the
     item that failed is, that item is not, and later files are untouched.
     */
    method Install(manifest: seq<Item>, useModelscope: bool, net: string -> Exchange) returns (ok: bool, done: nat)
      requires DistinctPaths(manifest) && verified == map[] && successCount == 0
      modifies this
      ensures done <= |manifest| && ok == (done == |manifest|) && successCount == done
      ensures forall i :: 0 <= i < done ==> Recorded(manifest[i])
      ensures verified.Keys == Paths(manifest[..done])
      ensures !ok ==> Step(hash, keywords, old(At(manifest[done].relPath)), manifest[done], useModelscope, net).1.Exit?
      ensures forall p :: p !in Paths(manifest[..if ok then done else done + 1]) ==> At(p) == old(At(p))
    {
      done := 0;
      while done < |manifest|
        invariant 0 <= done <= |manifest| && successCount == done
        invariant forall i :: 0 <= i < done ==> Recorded(manifest[i])
        invariant verified.Keys == Paths(manifest[..done])
        invariant forall p :: p !in Paths(manifest[..done]) ==> At(p) == old(At(p))
      {
        PathsOfNext(manifest, done);
        var next := Advance(manifest, done, useModelscope, net);
        if !next {
          return false, done;
        }
        done := done + 1;
      }
      ok := true;
    }
  }
}
