/**
 One model file on disk and the download that resumes it (scripts/prepare-voice-models.py:262-371), against a server
 whose answers follow sections 14.2, 15.3.7 and 15.5.17 of RFC 9110.
 */
module ResumableDownload {
  import opened Prelude

  type Bytes = seq<bv8>
  /** What one read returns before the end of the body. */
  type Chunk = c: Bytes | |c| > 0 witness [0]

  /** The `.part` file and the file itself. */
  datatype File = File(part: Option<Bytes>, target: Option<Bytes>)

  /** How a body ended: at its end of file, or with an exception. */
  datatype End = EndOfFile | Raised

  /** What a request came to. `Failed` stands for every other status and every network error. */
  datatype Reply = Body(partial: bool, chunks: seq<Chunk>, end: End) | Unsatisfiable | Failed

  const VAD_ALTERNATE := "1a153a22f4509e292a94e67d6f9b85e8deb25b4988682b7e174c65279d8788e3"

  function Join(chunks: seq<Chunk>): Bytes {
    if chunks == [] then [] else Join(chunks[..|chunks| - 1]) + chunks[|chunks| - 1]
  }

  function Size(part: Option<Bytes>): nat {
    if part.Some? then |part.value| else 0
  }

  /** Only a 206 keeps what is there: the file is opened for appending, and truncated otherwise. */
  function Received(part: Option<Bytes>, reply: Reply): Option<Bytes>
    requires reply.Body?
  {
    Some((if reply.partial && part.Some? then part.value else []) + Join(reply.chunks))
  }

  function Renamed(part: Bytes): File {
    File(None, Some(part))
  }

  /** Write a body into the part file and, when it came to its end, put the part file in the target's place. */
  function Take(f: File, reply: Reply): (File, bool)
    requires reply.Body?
  {
    var part := Received(f.part, reply);
    if reply.end.EndOfFile? then (Renamed(part.value), true) else (f.(part := part), false)
  }

  /** `again` is what the second request after a 416 comes to. */
  function Download(hash: Bytes -> string, f: File, expected: Option<string>, first: Reply, again: Reply): (File, bool) {
    match first
    case Failed => (f, false)
    case Body(_, _, _) => Take(f, first)
    case Unsatisfiable =>
      if f.part.None? then (f, false)
      else if expected.Some? && hash(f.part.value) in {expected.value, VAD_ALTERNATE} then (Renamed(f.part.value), true)
      else
        var cleared := f.(part := None);
        if again.Body? then Take(cleared, again.(partial := false)) else (cleared, false)
  }

  class Installer {
    var part: Option<Bytes>
    var target: Option<Bytes>
    const hash: Bytes -> string

    constructor (hash: Bytes -> string, part: Option<Bytes>, target: Option<Bytes>)
      ensures this.hash == hash && this.part == part && this.target == target
    {
      this.hash, this.part, this.target := hash, part, target;
    }

    function View(): File
      reads this
    {
      File(part, target)
    }

    /** Write chunk after chunk, so that what arrived before an exception stays on disk. */
    method WriteBody(append: bool, chunks: seq<Chunk>)
      modifies `part
      ensures part == Received(old(part), Body(append, chunks, EndOfFile))
    {
      if !append || part.None? {
        part := Some([]);
      }
      ghost var start := part.value;
      var i := 0;
      while i < |chunks|
        invariant 0 <= i <= |chunks|
        invariant part.Some? && part.value == start + Join(chunks[..i])
      {
        assert chunks[..i + 1][..i] == chunks[..i];
        part := Some(part.value + chunks[i]);
        i := i + 1;
      }
      assert chunks[..i] == chunks;
    }

    method Rename()
      requires part.Some?
      modifies this
      ensures View() == Renamed(old(part).value)
    {
      target := part;
      part := None;
    }

    method DownloadFileWithResume(expected: Option<string>, first: Reply, again: Reply) returns (ok: bool)
      modifies this
      ensures (View(), ok) == Download(hash, old(View()), expected, first, again)
    {
      match first {
        case Failed =>
          ok := false;
        case Body(partial, chunks, end) =>
          WriteBody(partial, chunks);
          ok := end.EndOfFile?;
          if ok {
            Rename();
          }
        case Unsatisfiable =>
          if part.None? {
            return false;
          }
          var sha := hash(part.value);
          if expected.Some? && (sha == expected.value || sha == VAD_ALTERNATE) {
            Rename();
            return true;
          }
          part := None;
          if again.Body? {
            WriteBody(false, again.chunks);
            ok := again.end.EndOfFile?;
            if ok {
              Rename();
            }
          } else {
            ok := false;
          }
      }
    }
  }

  // ---- A server with fixed content ----

  /**
   A reply of a server that has `content`, to a request that resumes at `from` (0: for everything). A range request may
   be ignored; a 206 carries the rest; a 416 means that there is no rest. An exception may cut any body short.
   */
  predicate Honest(content: Bytes, from: nat, reply: Reply) {
    match reply
    case Failed => true
    case Unsatisfiable => 0 < from && |content| <= from
    case Body(partial, chunks, end) =>
      && (partial ==> 0 < from < |content|)
      && var promised := if partial then content[from..] else content;
         Join(chunks) <= promised
  }

  /** A body that came to its end came to its end whole. */
  predicate Whole(content: Bytes, from: nat, reply: Reply) {
    reply.Body? && reply.end.EndOfFile? && (reply.partial ==> from <= |content|) ==>
      Join(reply.chunks) == if reply.partial then content[from..] else content
  }

  predicate IsPrefix(part: Option<Bytes>, content: Bytes) {
    part.Some? ==> part.value <= content
  }

  /** The part file holds a prefix of the content however the reply ended. */
  lemma PartStaysPrefix(content: Bytes, part: Option<Bytes>, reply: Reply)
    requires IsPrefix(part, content) && reply.Body? && Honest(content, Size(part), reply)
    ensures IsPrefix(Received(part, reply), content)
  {
    if reply.partial {
      var from := Size(part);
      assert content == content[..from] + content[from..];
    }
  }

  /** A body gives the content exactly when it is whole: an end of file that came early is taken for the end. */
  lemma BodyGivesContentExactly(content: Bytes, part: Option<Bytes>, reply: Reply)
    requires IsPrefix(part, content) && reply.Body? && reply.end.EndOfFile? && Honest(content, Size(part), reply)
    ensures Take(File(part, None), reply) == (Renamed(content), true) <==> Whole(content, Size(part), reply)
  {
    var from := Size(part);
    if reply.partial {
      assert part.value == content[..from];
      assert content == content[..from] + content[from..];
      if content[..from] + Join(reply.chunks) == content {
        assert Join(reply.chunks) == (content[..from] + Join(reply.chunks))[from..];
      }
    } else {
      assert Join(reply.chunks) == [] + Join(reply.chunks);
    }
  }

  lemma TakeKeeps(content: Bytes, f: File, reply: Reply)
    requires IsPrefix(f.part, content) && reply.Body?
    requires Honest(content, Size(f.part), reply) && Whole(content, Size(f.part), reply)
    ensures var (r, ok) := Take(f, reply);
            && IsPrefix(r.part, content)
            && r.target == if ok then Some(content) else f.target
  {
    PartStaysPrefix(content, f.part, reply);
    if reply.end.EndOfFile? {
      BodyGivesContentExactly(content, f.part, reply);
    }
  }

  /**
   One download from a server with fixed content: the part file stays a prefix of the content, and the target is
   either left alone, when the download reports failure, or becomes the content, when it reports success. That
   includes a 416, which can only come when the part file is already complete.
   */
  lemma DownloadKeeps(hash: Bytes -> string, content: Bytes, f: File, expected: Option<string>, first: Reply, again: Reply)
    requires IsPrefix(f.part, content)
    requires Honest(content, Size(f.part), first) && Whole(content, Size(f.part), first)
    requires Honest(content, 0, again) && Whole(content, 0, again)
    ensures var (r, ok) := Download(hash, f, expected, first, again);
            && IsPrefix(r.part, content)
            && r.target == if ok then Some(content) else f.target
  {
    if first.Body? {
      TakeKeeps(content, f, first);
    } else if first.Unsatisfiable? {
      assert f.part.value == content;
      if again.Body? {
        TakeKeeps(content, f.(part := None), again.(partial := false));
      }
    }
  }

  /** One attempt of a run; the expected hash may differ from attempt to attempt. */
  datatype Attempt = Attempt(expected: Option<string>, first: Reply, again: Reply)

  function Attempts(hash: Bytes -> string, f: File, run: seq<Attempt>): File {
    if run == [] then f
    else
      var last := run[|run| - 1];
      Download(hash, Attempts(hash, f, run[..|run| - 1]), last.expected, last.first, last.again).0
  }

  /** Every reply of the run is one the server can give to the request made at that moment. */
  predicate Served(hash: Bytes -> string, content: Bytes, f: File, run: seq<Attempt>) {
    run == [] || (
      var last := run[|run| - 1];
      && Served(hash, content, f, run[..|run| - 1])
      && Honest(content, Size(Attempts(hash, f, run[..|run| - 1]).part), last.first)
      && Honest(content, 0, last.again))
  }

  /** No body of the run ended early without an exception. */
  predicate NoEarlyEnd(hash: Bytes -> string, content: Bytes, f: File, run: seq<Attempt>) {
    run == [] || (
      var last := run[|run| - 1];
      && NoEarlyEnd(hash, content, f, run[..|run| - 1])
      && Whole(content, Size(Attempts(hash, f, run[..|run| - 1]).part), last.first)
      && Whole(content, 0, last.again))
  }

  lemma DownloadKeepsPart(hash: Bytes -> string, content: Bytes, f: File, expected: Option<string>, first: Reply, again: Reply)
    requires IsPrefix(f.part, content) && Honest(content, Size(f.part), first) && Honest(content, 0, again)
    ensures var r := Download(hash, f, expected, first, again).0;
            IsPrefix(r.part, content) && (r.target == f.target || IsPrefix(r.target, content))
  {
    if first.Body? {
      PartStaysPrefix(content, f.part, first);
    } else if first.Unsatisfiable? && again.Body? {
      PartStaysPrefix(content, None, again.(partial := false));
    }
  }

  /** Any number of downloads, broken off anywhere and even ended early: the part file is a prefix of the content. */
  lemma {:induction false} PartIsAlwaysPrefix(hash: Bytes -> string, content: Bytes, f: File, run: seq<Attempt>)
    requires IsPrefix(f.part, content) && Served(hash, content, f, run)
    ensures var r := Attempts(hash, f, run);
            IsPrefix(r.part, content) && (r.target == f.target || IsPrefix(r.target, content))
  {
    if run != [] {
      var last := run[|run| - 1];
      var before := Attempts(hash, f, run[..|run| - 1]);
      PartIsAlwaysPrefix(hash, content, f, run[..|run| - 1]);
      DownloadKeepsPart(hash, content, before, last.expected, last.first, last.again);
    }
  }

  /** When moreover no body ends early, the target is only ever replaced by the content. */
  lemma {:induction false} TargetIsOnlyContent(hash: Bytes -> string, content: Bytes, f: File, run: seq<Attempt>)
    requires IsPrefix(f.part, content) && Served(hash, content, f, run) && NoEarlyEnd(hash, content, f, run)
    ensures var r := Attempts(hash, f, run); r.target == f.target || r.target == Some(content)
  {
    if run != [] {
      var last := run[|run| - 1];
      var before := Attempts(hash, f, run[..|run| - 1]);
      PartIsAlwaysPrefix(hash, content, f, run[..|run| - 1]);
      TargetIsOnlyContent(hash, content, f, run[..|run| - 1]);
      DownloadKeeps(hash, content, before, last.expected, last.first, last.again);
    }
  }

  /**
   A download that fails loses nothing it cannot get again: without an answer the files stay, and a broken body is
   appended to the part file after a 206 and replaces it otherwise. Only the target of a success ever changes.
   */
  lemma FailureKeepsProgress(hash: Bytes -> string, f: File, expected: Option<string>, first: Reply, again: Reply)
    ensures var (r, ok) := Download(hash, f, expected, first, again);
            && (!ok ==> r.target == f.target)
            && (first.Failed? ==> r == f && !ok)
            && (first.Body? && first.end.Raised? && first.partial && f.part.Some? ==>
                  !ok && r.part == Some(f.part.value + Join(first.chunks)))
            && (first.Body? && first.end.Raised? && !first.partial ==> !ok && r.part == Some(Join(first.chunks)))
  {
    assert first.Body? ==> [] + Join(first.chunks) == Join(first.chunks);
  }

  /** A part file that a 416 shows to be of no use is discarded, and everything is asked for again. */
  lemma WrongPartIsDiscarded(hash: Bytes -> string, f: File, expected: Option<string>, again: Reply)
    requires f.part.Some?
    requires expected.Some? ==> hash(f.part.value) != expected.value && hash(f.part.value) != VAD_ALTERNATE
    ensures Download(hash, f, expected, Unsatisfiable, again) ==
      if !again.Body? then (File(None, f.target), false)
      else if again.end.EndOfFile? then (Renamed(Join(again.chunks)), true)
      else (File(Some(Join(again.chunks)), f.target), false)
  {
    assert again.Body? ==> [] + Join(again.chunks) == Join(again.chunks);
  }

  /** No reply of the run starts over: each is a failure, or a broken rest. */
  predicate OnlyRests(run: seq<Attempt>) {
    forall k :: 0 <= k < |run| ==>
      run[k].first.Failed? || (run[k].first.Body? && run[k].first.partial && run[k].first.end.Raised?)
  }

  /** However often such a download breaks off, all that arrived so far is on disk, in order. */
  function Arrived(run: seq<Attempt>): Bytes {
    if run == [] then []
    else
      var last := run[|run| - 1].first;
      Arrived(run[..|run| - 1]) + if last.Body? then Join(last.chunks) else []
  }

  lemma {:induction false} NothingArrivedIsLost(hash: Bytes -> string, f: File, run: seq<Attempt>)
    requires f.part.Some? && OnlyRests(run)
    ensures Attempts(hash, f, run) == File(Some(f.part.value + Arrived(run)), f.target)
  {
    if run == [] {
      assert f.part.value + [] == f.part.value;
    } else {
      var init, last := run[..|run| - 1], run[|run| - 1];
      NothingArrivedIsLost(hash, f, init);
      var arrived := Arrived(init);
      if last.first.Body? {
        assert (f.part.value + arrived) + Join(last.first.chunks) == f.part.value + (arrived + Join(last.first.chunks));
      } else {
        assert arrived + [] == arrived;
      }
    }
  }

  /** An early end of file is reported as success and replaces even a complete file. */
  lemma EarlyEndReplacesFile(hash: Bytes -> string, content: Bytes, f: File, expected: Option<string>, first: Reply, again: Reply)
    requires first.Body? && first.end.EndOfFile? && !first.partial
    requires Honest(content, Size(f.part), first) && Join(first.chunks) != content
    ensures var (r, ok) := Download(hash, f, expected, first, again);
            ok && r.target == Some(Join(first.chunks)) && r.target != Some(content)
  {
    assert [] + Join(first.chunks) == Join(first.chunks);
  }

  /** After a 416 any file with a pinned hash accepts the alternate hash, which was meant for one of them. */
  lemma AlternateAcceptedForAnyFile(hash: Bytes -> string, f: File, expected: string, again: Reply)
    requires f.part.Some? && hash(f.part.value) == VAD_ALTERNATE
    ensures Download(hash, f, Some(expected), Unsatisfiable, again) == (Renamed(f.part.value), true)
  {}
}
