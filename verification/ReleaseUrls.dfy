/**
 The URL of a published file and the artifact name the uploader reads back out of a URL
 (scripts/upload-modelscope-release.py:118-124, 152-159).
 */
module ReleaseUrls {
  import opened Text
  import opened UrlCodec

  /** A host or repository name that cannot be mistaken for a later part of the URL. */
  predicate UrlPart(t: string) {
    '?' !in t && '#' !in t
  }

  function Endpoint(host: string, repo: string): string {
    "https://" + host + "/api/v1/models/" + repo + "/repo"
  }

  function Parameter(key: string, value: string): string {
    key + ['='] + value
  }

  /** What the scripts strip from the ends of a text. */
  predicate White(c: char) {
    c == ' ' || 9 as char <= c <= 13 as char || 28 as char <= c <= 31 as char
  }

  function StripStart(t: string): (r: string)
    ensures r != [] ==> !White(r[0])
    ensures t != [] && !White(t[0]) ==> r == t
  {
    if t != [] && White(t[0]) then StripStart(t[1..]) else t
  }

  function StripEnd(t: string): (r: string)
    ensures r <= t
    ensures r != [] ==> !White(r[|r| - 1])
    ensures t != [] && !White(t[|t| - 1]) ==> r == t
  {
    if t != [] && White(t[|t| - 1]) then StripEnd(t[..|t| - 1]) else t
  }

  function Strip(t: string): (r: string)
    ensures r != [] ==> !White(r[0]) && !White(r[|r| - 1])
  {
    assert StripEnd(StripStart(t)) != [] ==> StripEnd(StripStart(t))[0] == StripStart(t)[0];
    StripEnd(StripStart(t))
  }

  /** The uploader's release tag: a v is added only when missing (scripts/upload-modelscope-release.py:571). */
  function UploaderTag(version: string): string {
    if version != [] && version[0] == 'v' then version else "v" + version
  }

  /** The URL with a file-path parameter written out as given. */
  function RawFileUrl(host: string, repo: string, path: string): string {
    Endpoint(host, repo) + ['?'] + (Parameter("Revision", "master") + ['&'] + Parameter("FilePath", path))
  }

  function FileUrl(host: string, repo: string, path: string): string
    requires Bytes(path)
  {
    RawFileUrl(host, repo, Quote(path))
  }

  function UrlQuery(url: string): string {
    After(Before(url, '#'), '?')
  }

  /** The value of the first non-blank `FilePath` parameter, or the empty text. */
  function FilePathValue(query: string): string
    decreases |query|
  {
    var piece := Before(query, '&');
    if '=' in piece && Unquote(PlusToSpace(Before(piece, '='))) == "FilePath" && After(piece, '=') != []
    then Unquote(PlusToSpace(After(piece, '=')))
    else if '&' in query then AfterIsShorter(query, '&'); FilePathValue(After(query, '&'))
    else []
  }

  lemma {:induction false} AfterIsShorter(t: string, c: char)
    requires c in t
    ensures |After(t, c)| < |t|
  {
    if t[0] != c {
      AfterIsShorter(t[1..], c);
    }
  }

  /** The path of a URL without its parameters, for URLs that carry no `FilePath`. */
  function UrlPath(url: string): string {
    var u := Before(Before(url, '#'), '?');
    var a := After(u, ':');
    var path := if |a| >= 2 && a[..2] == "//" then After(a[2..], '/') else u;
    AfterLastIsShort(path, '/');
    var last := AfterLast(path, '/');
    path[..|path| - |last|] + Before(last, ';')
  }

  /** The final component of a path: empty and "." components do not count. */
  function PathName(t: string): string
    decreases |t|
  {
    AfterLastIsShort(t, '/');
    var last := AfterLast(t, '/');
    if last != [] && last != "." then last
    else if '/' !in t then []
    else AfterLastIsProper(t, '/'); PathName(t[..|t| - |last| - 1])
  }

  lemma {:induction false} AfterLastIsProper(t: string, c: char)
    requires c in t
    ensures |AfterLast(t, c)| < |t| && t[|t| - |AfterLast(t, c)| - 1] == c
    ensures t == t[..|t| - |AfterLast(t, c)| - 1] + [c] + AfterLast(t, c)
  {
    if t[|t| - 1] != c {
      var init := t[..|t| - 1];
      assert t == init + [t[|t| - 1]];
      AfterLastIsProper(init, c);
    }
  }

  function Basename(url: string): string {
    if url == [] then []
    else
      var file := FilePathValue(UrlQuery(url));
      PathName(Unquote(if file != [] then file else UrlPath(url)))
  }

  // ----- reading back a published URL -----

  lemma QuoteAvoids(t: string, c: char)
    requires Bytes(t) && !Safe(c) && c != '%'
    ensures c !in Quote(t)
  {
    QuoteAlphabet(t);
  }

  lemma EndpointAvoids(host: string, repo: string, c: char)
    requires c in {'?', '#'} && c !in host && c !in repo
    ensures c !in Endpoint(host, repo)
  {
    assert c !in "https://" && c !in "/api/v1/models/" && c !in "/repo";
  }

  lemma KeyFacts(c: char)
    requires c in {'=', '&', '+', '%', '#'}
    ensures c !in "FilePath" && c !in "Revision" && c !in "master"
    ensures "Revision" != "FilePath"
  {
    assert "Revision"[0] != "FilePath"[0];
  }

  /** A key that the parser reads back as written. */
  predicate PlainKey(key: string) {
    '=' !in key && '&' !in key && '+' !in key && '%' !in key
  }

  lemma ParameterParts(key: string, value: string)
    requires PlainKey(key)
    ensures '=' in Parameter(key, value)
    ensures Before(Parameter(key, value), '=') == key && After(Parameter(key, value), '=') == value
    ensures Unquote(PlusToSpace(key)) == key
  {
    CutAt(key, '=', value);
    assert Parameter(key, value)[|key|] == '=';
    NoPlus(key);
    UnquotePlainPrefix(key, []);
    assert key + [] == key;
  }

  lemma OnlyParameter(key: string, value: string)
    requires PlainKey(key) && '&' !in value && value != []
    ensures key == "FilePath" ==> FilePathValue(Parameter(key, value)) == Unquote(PlusToSpace(value))
  {
    ParameterParts(key, value);
    NoCut(Parameter(key, value), '&');
  }

  lemma SkippedParameter(key: string, value: string, rest: string)
    requires PlainKey(key) && '&' !in value
    ensures key != "FilePath" ==> FilePathValue(Parameter(key, value) + ['&'] + rest) == FilePathValue(rest)
  {
    ParameterParts(key, value);
    CutAt(Parameter(key, value), '&', rest);
    assert (Parameter(key, value) + ['&'] + rest)[|Parameter(key, value)|] == '&';
  }

  lemma QueryCut(head: string, tail: string)
    requires '?' !in head && '#' !in head && '#' !in tail
    ensures UrlQuery(head + ['?'] + tail) == tail
  {
    NoCut(head + ['?'] + tail, '#');
    CutAt(head, '?', tail);
  }

  lemma KeysArePlain()
    ensures PlainKey("Revision") && PlainKey("FilePath") && "Revision" != "FilePath" && '&' !in "master"
  {
    KeyFacts('=');
    KeyFacts('&');
    KeyFacts('+');
    KeyFacts('%');
  }

  lemma QueryAvoidsHash(value: string)
    requires '#' !in value
    ensures '#' !in Parameter("Revision", "master") + ['&'] + Parameter("FilePath", value)
  {
    KeyFacts('#');
  }

  lemma FilePathOfFileUrl(host: string, repo: string, path: string)
    requires Bytes(path) && path != [] && UrlPart(host) && UrlPart(repo)
    ensures FilePathValue(UrlQuery(FileUrl(host, repo, path))) == path
  {
    var q := Quote(path);
    QuoteAlphabet(path);
    EndpointAvoids(host, repo, '?');
    EndpointAvoids(host, repo, '#');
    QueryAvoidsHash(q);
    QueryCut(Endpoint(host, repo), Parameter("Revision", "master") + ['&'] + Parameter("FilePath", q));
    KeysArePlain();
    SkippedParameter("Revision", "master", Parameter("FilePath", q));
    OnlyParameter("FilePath", q);
    NoPlus(q);
    UnquoteUndoesQuote(path);
  }

  /** A file name as one path component. */
  predicate Component(name: string) {
    name != [] && name != "." && '/' !in name
  }

  lemma PathNameOfLast(dir: string, u: string)
    requires '/' !in u
    ensures PathName(dir + "/" + u) == if u == [] || u == "." then PathName(dir) else u
  {
    var t := dir + "/" + u;
    LastCut(dir, '/', u);
    assert t[..|t| - |u| - 1] == dir;
  }

  /** A path that does not end in its only component is named like what comes before its last slash, or by what follows. */
  lemma PathNameSkips(dir: string, rest: string, last: string)
    requires '/' !in last
    ensures PathName(dir + "/" + (rest + "/" + last)) ==
            if last == [] || last == "." then PathName(dir + "/" + rest) else last
  {
    assert dir + "/" + (rest + "/" + last) == (dir + "/" + rest) + "/" + last;
    PathNameOfLast(dir + "/" + rest, last);
  }

  lemma {:induction false} PathNameOfJoin(dir: string, u: string)
    ensures |PathName(dir + "/" + u)| <= |u| || PathName(dir + "/" + u) == PathName(dir)
    ensures Component(u) ==> PathName(dir + "/" + u) == u
    decreases |u|
  {
    if '/' !in u {
      PathNameOfLast(dir, u);
    } else {
      AfterLastIsProper(u, '/');
      AfterLastIsShort(u, '/');
      var last := AfterLast(u, '/');
      var rest := u[..|u| - |last| - 1];
      assert u == rest + "/" + last;
      PathNameSkips(dir, rest, last);
      PathNameOfJoin(dir, rest);
    }
  }

  lemma {:induction false} AfterLastKeeps(t: string, c: char, x: char)
    requires x !in t
    ensures x !in AfterLast(t, c)
  {
    if t != [] && t[|t| - 1] != c {
      AfterLastKeeps(t[..|t| - 1], c, x);
    }
  }

  lemma {:induction false} PathNameKeeps(t: string, x: char)
    requires x !in t
    ensures x !in PathName(t)
    decreases |t|
  {
    AfterLastKeeps(t, '/', x);
    AfterLastIsShort(t, '/');
    var last := AfterLast(t, '/');
    if (last == [] || last == ".") && '/' in t {
      AfterLastIsProper(t, '/');
      PathNameKeeps(t[..|t| - |last| - 1], x);
    }
  }

  lemma PlainWithoutPercent(name: string)
    ensures '%' !in name ==> Plain(name)
  {
    if '%' !in name {
      UnquotePlainPrefix(name, []);
      assert name + [] == name;
    }
  }

  /**
   The name read back from a published URL is the published name exactly when a second unquoting leaves
   that name alone.
   */
  lemma BasenameOfFileUrlExactly(host: string, repo: string, dir: string, name: string)
    requires UrlPart(host) && UrlPart(repo) && '%' !in dir && Component(name)
    requires Bytes(dir) && Bytes(name)
    ensures Bytes(dir + "/" + name)
    ensures Basename(FileUrl(host, repo, dir + "/" + name)) == name <==> Plain(name)
  {
    var path := dir + "/" + name;
    FilePathOfFileUrl(host, repo, path);
    UnquotePlainPrefix(dir + "/", name);
    assert path == (dir + "/") + name;
    UnquoteLength(name);
    var u := Unquote(name);
    PathNameOfJoin(dir, u);
    if u != name {
      PathNameKeeps(dir, '%');
      PlainWithoutPercent(name);
    }
  }
}
