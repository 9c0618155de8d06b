/**
 The update mirrors of the desktop client (apps/desktop/src/ota_mirrors.rs:132-253): reading an artifact
 name out of a download URL, and writing the URL of an artifact on each mirror.
 */
module Mirrors {
  import opened Prelude
  import opened Text
  import opened UrlCodec
  import opened ReleaseUrls
  import ReleaseManifest

  const GITHUB_REPO := "Michael-Lfx/allo"
  const MS_CN_REPO := "flowy2025/flowyaipc"
  const MS_AI_REPO := "flowy2025/flowy"
  const MS_PREFIX := "allo"

  datatype OtaHost = ModelscopeCn | ModelscopeAi | Github

  predicate White(c: char) {
    c == ' ' || 9 as char <= c <= 13 as char
  }

  function TrimStart(t: string): string {
    if t != [] && White(t[0]) then TrimStart(t[1..]) else t
  }

  function TrimEnd(t: string): string {
    if t != [] && White(t[|t| - 1]) then TrimEnd(t[..|t| - 1]) else t
  }

  function Trim(t: string): string {
    TrimEnd(TrimStart(t))
  }

  /** No white space at either end. */
  predicate Trimmed(t: string) {
    t != [] ==> !White(t[0]) && !White(t[|t| - 1])
  }

  function DropV(t: string): string {
    if t != [] && t[0] == 'v' then DropV(t[1..]) else t
  }

  /** The client's release tag: every leading v is replaced by one. */
  function VersionTag(version: string): string {
    "v" + DropV(Trim(version))
  }

  lemma {:induction false} DropVLength(t: string)
    ensures |DropV(t)| <= |t|
    ensures |DropV(t)| == |t| <==> t == [] || t[0] != 'v'
    ensures |DropV(t)| == |t| ==> DropV(t) == t
  {
    if t != [] && t[0] == 'v' {
      DropVLength(t[1..]);
    }
  }

  /** The two tags of a trimmed version agree exactly when it does not start with two v's; the client's is never longer. */
  lemma TagsAgreeExactly(version: string)
    requires Trimmed(version)
    ensures VersionTag(version) == UploaderTag(version) <==> !(|version| >= 2 && version[0] == 'v' && version[1] == 'v')
    ensures |VersionTag(version)| <= |UploaderTag(version)|
    ensures |VersionTag(version)| == |UploaderTag(version)| ==> VersionTag(version) == UploaderTag(version)
  {
    assert Trim(version) == version;
    DropVLength(version);
    if version != [] && version[0] == 'v' {
      DropVLength(version[1..]);
      assert version == ['v'] + version[1..];
    }
  }

  /** The text after the first occurrence of `needle`. */
  function AfterFirst(t: string, needle: string): Option<string> {
    if |t| < |needle| then None
    else if t[..|needle|] == needle then Some(t[|needle|..])
    else if t == [] then None
    else AfterFirst(t[1..], needle)
  }

  function NonEmpty(t: string): Option<string> {
    if t == [] then None else Some(t)
  }

  function ArtifactFilename(downloadUrl: string): Option<string> {
    var url := Trim(downloadUrl);
    var path := AfterFirst(url, FilePathKey());
    if path.Some? then NonEmpty(AfterLast(PercentDecode(Before(path.value, '&')), '/'))
    else NonEmpty(AfterLast(Before(url, '?'), '/'))
  }

  function GithubBase(): string {
    "https://github.com/" + GITHUB_REPO + "/releases/download/"
  }

  function GithubUrl(tag: string, filename: string): string {
    GithubBase() + tag + "/" + filename
  }

  function ArtifactPath(folder: string, tag: string, filename: string): string {
    MS_PREFIX + "/" + folder + "/" + tag + "/" + filename
  }

  function ArtifactUrl(host: OtaHost, version: string, folder: string, filename: string): string {
    match host
    case ModelscopeCn => RawFileUrl("modelscope.cn", MS_CN_REPO, ArtifactPath(folder, VersionTag(version), filename))
    case ModelscopeAi => RawFileUrl("modelscope.ai", MS_AI_REPO, ArtifactPath(folder, VersionTag(version), filename))
    case Github => GithubUrl(VersionTag(version), filename)
  }

  function CandidateArtifactUrls(version: string, folder: string, filename: string): seq<(OtaHost, string)> {
    [(ModelscopeCn, ArtifactUrl(ModelscopeCn, version, folder, filename)),
     (ModelscopeAi, ArtifactUrl(ModelscopeAi, version, folder, filename)),
     (Github, ArtifactUrl(Github, version, folder, filename))]
  }

  // ----- reading names back -----

  predicate FreeOf(t: string, needle: string) {
    AfterFirst(t, needle).None?
  }

  /** A needle whose first character it does not repeat is found right behind a head that does not contain it. */
  lemma {:induction false} FoundAfter(head: string, needle: string, tail: string)
    requires needle != [] && needle[0] !in needle[1..] && FreeOf(head, needle)
    ensures AfterFirst(head + needle + tail, needle) == Some(tail)
  {
    var t := head + needle + tail;
    if head == [] {
      assert t == needle + tail;
    } else {
      if |head| >= |needle| {
        assert t[..|needle|] == head[..|needle|];
      } else {
        assert t[..|needle|][|head|] == needle[0];
        assert needle[|head|] == needle[1..][|head| - 1];
      }
      assert t[1..] == head[1..] + needle + tail;
      FoundAfter(head[1..], needle, tail);
    }
  }

  /** No occurrence straddles a character the needle does not have. */
  lemma {:induction false} FreeJoin(a: string, c: char, b: string, needle: string)
    requires needle != [] && c !in needle && FreeOf(a, needle) && FreeOf(b, needle)
    ensures FreeOf(a + [c] + b, needle)
  {
    var t := a + [c] + b;
    if a == [] {
      assert t[1..] == b;
      assert |t| >= |needle| ==> t[..|needle|][0] == c;
    } else {
      if |needle| <= |a| {
        assert t[..|needle|] == a[..|needle|];
      } else if |needle| <= |t| {
        assert t[..|needle|][|a|] == c;
      }
      assert t[1..] == a[1..] + [c] + b;
      FreeJoin(a[1..], c, b, needle);
    }
  }

  lemma {:induction false} NotFound(t: string, needle: string, c: char)
    requires c in needle && c !in t
    ensures AfterFirst(t, needle).None?
  {
    if |t| >= |needle| {
      var k :| 0 <= k < |needle| && needle[k] == c;
      assert t[..|needle|][k] != needle[k];
      NotFound(t[1..], needle, c);
    }
  }

  lemma TrimmedIsTrim(t: string)
    requires Trimmed(t)
    ensures Trim(t) == t
  {
  }

  function FilePathKey(): string {
    Parameter("FilePath", [])
  }

  lemma KeyFacts()
    ensures FilePathKey() != [] && FilePathKey()[0] == 'F' && 'F' in FilePathKey() && 'F' !in FilePathKey()[1..]
    ensures '/' !in FilePathKey() && '?' !in FilePathKey() && '&' !in FilePathKey()
  {
    assert FilePathKey() == "FilePath=";
  }

  lemma WithoutKey(t: string)
    requires 'F' !in t
    ensures FreeOf(t, FilePathKey())
  {
    KeyFacts();
    NotFound(t, FilePathKey(), 'F');
  }

  lemma PathIsFree(scheme: string, host: string, api: string, repo: string, last: string, needle: string)
    requires needle != [] && '/' !in needle
    requires FreeOf(scheme, needle) && FreeOf(host, needle) && FreeOf(api, needle)
    requires FreeOf(repo, needle) && FreeOf(last, needle)
    ensures FreeOf(scheme + ['/'] + host + ['/'] + api + ['/'] + repo + ['/'] + last, needle)
  {
    FreeJoin(scheme, '/', host, needle);
    FreeJoin(scheme + ['/'] + host, '/', api, needle);
    FreeJoin(scheme + ['/'] + host + ['/'] + api, '/', repo, needle);
    FreeJoin(scheme + ['/'] + host + ['/'] + api + ['/'] + repo, '/', last, needle);
  }

  lemma QueryIsFree(path: string, parameter: string, needle: string)
    requires needle != [] && '?' !in needle && '&' !in needle && FreeOf(path, needle) && FreeOf(parameter, needle)
    ensures FreeOf(path + ['?'] + parameter + ['&'], needle)
  {
    FreeJoin(path, '?', parameter, needle);
    FreeJoin(path + ['?'] + parameter, '&', [], needle);
    assert path + ['?'] + parameter + ['&'] + [] == path + ['?'] + parameter + ['&'];
  }

  lemma EndpointSplit(host: string, repo: string)
    ensures Endpoint(host, repo) == "https:/" + ['/'] + host + ['/'] + "api/v1/models" + ['/'] + repo + ['/'] + "repo"
    ensures Endpoint(host, repo)[0] == 'h'
  {
    assert "https://" == "https:/" + ['/'] && "/api/v1/models/" == ['/'] + "api/v1/models" + ['/'];
    assert "/repo" == ['/'] + "repo";
  }

  lemma PiecesAreFree(scheme: string, host: string, api: string, repo: string, last: string, parameter: string)
    requires 'F' !in scheme && 'F' !in api && 'F' !in last && 'F' !in parameter
    requires FreeOf(host, FilePathKey()) && FreeOf(repo, FilePathKey())
    ensures
      var path := scheme + ['/'] + host + ['/'] + api + ['/'] + repo + ['/'] + last;
      FreeOf(path + ['?'] + parameter + ['&'], FilePathKey())
  {
    KeyFacts();
    WithoutKey(scheme);
    WithoutKey(api);
    WithoutKey(last);
    WithoutKey(parameter);
    PathIsFree(scheme, host, api, repo, last, FilePathKey());
    QueryIsFree(scheme + ['/'] + host + ['/'] + api + ['/'] + repo + ['/'] + last, parameter, FilePathKey());
  }

  /** Everything before the parameter is free of its key when host and repository are. */
  lemma HeadIsFree(host: string, repo: string)
    requires FreeOf(host, FilePathKey()) && FreeOf(repo, FilePathKey())
    ensures FreeOf(Endpoint(host, repo) + ['?'] + Parameter("Revision", "master") + ['&'], FilePathKey())
  {
    EndpointSplit(host, repo);
    PiecesAreFree("https:/", host, "api/v1/models", repo, "repo", Parameter("Revision", "master"));
  }

  lemma NameAfter(head: string, path: string)
    requires FreeOf(head, FilePathKey()) && head != [] && head[0] == 'h'
    requires path != [] && '&' !in path && !White(path[|path| - 1])
    ensures ArtifactFilename(head + FilePathKey() + path) == NonEmpty(AfterLast(PercentDecode(path), '/'))
  {
    var url := head + FilePathKey() + path;
    assert url[0] == 'h' && url[|url| - 1] == path[|path| - 1];
    TrimmedIsTrim(url);
    KeyFacts();
    FoundAfter(head, FilePathKey(), path);
    NoCut(path, '&');
  }

  /** What the client reads out of any file URL: the last component of the decoded parameter. */
  lemma NameInFileUrl(host: string, repo: string, path: string)
    requires FreeOf(host, FilePathKey()) && FreeOf(repo, FilePathKey())
    requires path != [] && '&' !in path && !White(path[|path| - 1])
    ensures ArtifactFilename(RawFileUrl(host, repo, path)) == NonEmpty(AfterLast(PercentDecode(path), '/'))
  {
    var head := Endpoint(host, repo) + ['?'] + Parameter("Revision", "master") + ['&'];
    HeadIsFree(host, repo);
    EndpointSplit(host, repo);
    RawUrlSplit(host, repo, path);
    NameAfter(head, path);
  }

  lemma RawUrlSplit(host: string, repo: string, path: string)
    ensures RawFileUrl(host, repo, path)
         == Endpoint(host, repo) + ['?'] + Parameter("Revision", "master") + ['&'] + FilePathKey() + path
  {
    assert Parameter("FilePath", path) == FilePathKey() + path;
  }

  lemma QuoteEnds(t: string)
    requires Bytes(t) && t != []
    ensures Quote(t) != [] && '&' !in Quote(t) && !White(Quote(t)[|Quote(t)| - 1])
  {
    QuoteAlphabet(t);
  }

  /**
   From every URL the uploader prints, the client recovers the artifact's name: byte for byte always, and as
   the same text exactly when the name is ASCII.
   */
  lemma UploadedNameIsRecovered(host: string, repo: string, dir: string, name: string)
    requires FreeOf(host, FilePathKey()) && FreeOf(repo, FilePathKey())
    requires Bytes(dir) && name != [] && '/' !in Utf8(name)
    ensures Bytes(dir + "/" + Utf8(name))
    ensures ArtifactFilename(FileUrl(host, repo, dir + "/" + Utf8(name))) == Some(Utf8(name))
    ensures ArtifactFilename(FileUrl(host, repo, dir + "/" + Utf8(name))) == Some(name) <==> Ascii(name)
  {
    Utf8IsBytes(name);
    var path := dir + "/" + Utf8(name);
    QuoteEnds(path);
    NameInFileUrl(host, repo, Quote(path));
    DecodeUndoesQuote(path);
    LastCut(dir, '/', Utf8(name));
  }

  predicate AllUnreserved(t: string) {
    forall k :: 0 <= k < |t| ==> Unreserved(t[k])
  }

  lemma {:induction false} DropVKeeps(t: string)
    requires AllUnreserved(t)
    ensures AllUnreserved(DropV(t))
  {
    if t != [] && t[0] == 'v' {
      DropVKeeps(t[1..]);
    }
  }

  lemma UnreservedIsPlain(t: string)
    requires AllUnreserved(t)
    ensures Trimmed(t)
    ensures forall c :: c in {'%', '&', '=', '?', '/'} ==> c !in t
  {
  }

  lemma TagIsUnreserved(version: string)
    requires AllUnreserved(version)
    ensures AllUnreserved(VersionTag(version))
  {
    UnreservedIsPlain(version);
    DropVKeeps(version);
  }

  lemma LiteralsArePlain(c: char)
    requires c in {'%', '&', '=', '?'}
    ensures c !in MS_PREFIX && c !in GithubBase()
  {
    assert c !in "https://github.com/" && c !in GITHUB_REPO && c !in "/releases/download/";
  }

  predicate KnownFolder(folder: string) {
    folder == "windows" || folder == "macos" || folder == "linux"
  }

  lemma FoldersAreUnreserved(folder: string)
    requires KnownFolder(folder)
    ensures AllUnreserved(folder)
  {
  }

  lemma RawPathName(host: string, repo: string, folder: string, tag: string, filename: string)
    requires 'F' !in host && 'F' !in repo
    requires AllUnreserved(folder) && AllUnreserved(tag) && AllUnreserved(filename) && filename != []
    ensures ArtifactFilename(RawFileUrl(host, repo, ArtifactPath(folder, tag, filename))) == Some(filename)
  {
    var path := ArtifactPath(folder, tag, filename);
    UnreservedIsPlain(folder);
    UnreservedIsPlain(tag);
    UnreservedIsPlain(filename);
    LiteralsArePlain('&');
    LiteralsArePlain('%');
    assert path[|path| - 1] == filename[|filename| - 1];
    WithoutKey(host);
    WithoutKey(repo);
    NameInFileUrl(host, repo, path);
    DecodeNoPercent(path);
    LastCut(MS_PREFIX + "/" + folder + "/" + tag, '/', filename);
  }

  lemma GithubName(tag: string, filename: string)
    requires AllUnreserved(tag) && AllUnreserved(filename) && filename != []
    ensures ArtifactFilename(GithubUrl(tag, filename)) == Some(filename)
  {
    var url := GithubUrl(tag, filename);
    UnreservedIsPlain(tag);
    UnreservedIsPlain(filename);
    LiteralsArePlain('=');
    LiteralsArePlain('?');
    assert GithubBase()[0] == 'h';
    assert url[0] == 'h' && url[|url| - 1] == filename[|filename| - 1];
    TrimmedIsTrim(url);
    assert FilePathKey()[8] == '=';
    NotFound(url, FilePathKey(), '=');
    NoCut(url, '?');
    LastCut(GithubBase() + tag, '/', filename);
  }

  lemma RepositoriesAvoidF()
    ensures 'F' !in "modelscope.cn" && 'F' !in "modelscope.ai" && 'F' !in MS_CN_REPO && 'F' !in MS_AI_REPO
  {
  }

  lemma CandidateName(host: OtaHost, version: string, folder: string, filename: string)
    requires AllUnreserved(version) && AllUnreserved(filename) && filename != [] && KnownFolder(folder)
    ensures ArtifactFilename(ArtifactUrl(host, version, folder, filename)) == Some(filename)
  {
    TagIsUnreserved(version);
    FoldersAreUnreserved(folder);
    RepositoriesAvoidF();
    match host {
      case ModelscopeCn => RawPathName("modelscope.cn", MS_CN_REPO, folder, VersionTag(version), filename);
      case ModelscopeAi => RawPathName("modelscope.ai", MS_AI_REPO, folder, VersionTag(version), filename);
      case Github => GithubName(VersionTag(version), filename);
    }
  }

  /** Re-reading the name from any candidate regenerates the very same candidates. */
  lemma CandidatesAreStable(version: string, folder: string, filename: string, k: nat)
    requires AllUnreserved(version) && AllUnreserved(filename) && filename != [] && KnownFolder(folder) && k < 3
    ensures
      var candidates := CandidateArtifactUrls(version, folder, filename);
      var name := ArtifactFilename(candidates[k].1);
      name == Some(filename) && CandidateArtifactUrls(version, folder, name.value) == candidates
  {
    CandidateName(CandidateArtifactUrls(version, folder, filename)[k].0, version, folder, filename);
  }

  // ----- the client and the uploader name the same file -----

  lemma {:induction false} QuoteJoins(a: string, b: string)
    requires Bytes(a) && Bytes(b)
    ensures Quote(a + b) == Quote(a) + Quote(b)
  {
    if a == [] {
      assert a + b == b;
    } else {
      assert (a + b)[1..] == a[1..] + b;
      QuoteJoins(a[1..], b);
    }
  }

  lemma RawUrlDependsOnPath(host: string, repo: string, p: string, q: string)
    ensures RawFileUrl(host, repo, p) == RawFileUrl(host, repo, q) <==> p == q
  {
    RawUrlSplit(host, repo, p);
    RawUrlSplit(host, repo, q);
    var head := Endpoint(host, repo) + ['?'] + Parameter("Revision", "master") + ['&'] + FilePathKey();
    assert p == (head + p)[|head|..] && q == (head + q)[|head|..];
  }

  /** A URL written out as the client does is the quoted one exactly when nothing needs quoting and the tags agree. */
  lemma RawUrlIsPublishedExactly(host: string, repo: string, folder: string, version: string, filename: string)
    requires Bytes(folder) && Bytes(version) && Bytes(filename) && Trimmed(version)
    ensures Bytes(ArtifactPath(folder, UploaderTag(version), filename))
    ensures
      RawFileUrl(host, repo, ArtifactPath(folder, VersionTag(version), filename))
        == FileUrl(host, repo, ArtifactPath(folder, UploaderTag(version), filename))
      <==>
      && (forall k :: 0 <= k < |ArtifactPath(folder, UploaderTag(version), filename)|
                      ==> Safe(ArtifactPath(folder, UploaderTag(version), filename)[k]))
      && !(|version| >= 2 && version[0] == 'v' && version[1] == 'v')
  {
    var mine := ArtifactPath(folder, VersionTag(version), filename);
    var theirs := ArtifactPath(folder, UploaderTag(version), filename);
    RawUrlDependsOnPath(host, repo, mine, Quote(theirs));
    TagsAgreeExactly(version);
    QuoteAlphabet(theirs);
    QuoteIsIdentityExactly(theirs);
    QuoteLength(theirs);
    if mine == Quote(theirs) {
      assert |mine| <= |theirs|;
      assert |mine| == |theirs|;
      assert VersionTag(version) == UploaderTag(version);
    }
  }

  lemma {:induction false} QuoteLength(t: string)
    requires Bytes(t)
    ensures |Quote(t)| == |t| ==> Quote(t) == t
  {
    if t != [] {
      QuoteLength(t[1..]);
      QuoteAlphabet(t[1..]);
      assert t == [t[0]] + t[1..];
    }
  }

  /** Host and repository of a ModelScope mirror. */
  predicate Modelscope(host: OtaHost, name: string, repo: string) {
    || (host.ModelscopeCn? && name == "modelscope.cn" && repo == "flowy2025/flowyaipc")
    || (host.ModelscopeAi? && name == "modelscope.ai" && repo == "flowy2025/flowy")
  }

  /**
   The URL the client asks a ModelScope mirror for is the URL the uploader published there, under the prefix allo, exactly
   when the path needs no quoting and the version does not start with two v's.
   */
  lemma ClientAsksForThePublishedUrlExactly(
      host: OtaHost, name: string, repo: string, folder: string, version: string, filename: string)
    requires Modelscope(host, name, repo)
    requires Bytes(folder) && Bytes(version) && Bytes(filename) && Trimmed(version)
    ensures
      var published := ReleaseManifest.FilePath("allo", folder, UploaderTag(version), filename);
      && Bytes(published)
      && (ArtifactUrl(host, version, folder, filename) == FileUrl(name, repo, published)
          <==>
          && (forall k :: 0 <= k < |published| ==> Safe(published[k]))
          && !(|version| >= 2 && version[0] == 'v' && version[1] == 'v'))
  {
    assert Bytes("allo") && Bytes(UploaderTag(version));
    assert ReleaseManifest.FilePath("allo", folder, UploaderTag(version), filename)
        == ArtifactPath(folder, UploaderTag(version), filename);
    RawUrlIsPublishedExactly(name, repo, folder, version, filename);
  }

  /** The last resort is the release on GitHub, after the two mirrors. */
  lemma GithubIsLast(version: string, folder: string, filename: string)
    ensures
      var candidates := CandidateArtifactUrls(version, folder, filename);
      && |candidates| == 3
      && candidates[0] == (ModelscopeCn, ArtifactUrl(ModelscopeCn, version, folder, filename))
      && candidates[1] == (ModelscopeAi, ArtifactUrl(ModelscopeAi, version, folder, filename))
      && candidates[2].0 == Github
      && candidates[2].1
         == "https://github.com/Michael-Lfx/allo/releases/download/" + VersionTag(version) + "/" + filename
  {
    assert GithubBase() == "https://github.com/Michael-Lfx/allo/releases/download/";
  }
}
