/**
 Coalesced download progress (apps/desktop/src/main.rs:678-705, 943-1008): byte counts are 64-bit and wrap,
 the clock difference saturates at zero.
 */
module Progress {
  import opened Prelude

  const WORD: nat := 0x1_0000_0000_0000_0000

  datatype Chunk = Chunk(bytes: nat, now: nat)

  function Elapsed(now: nat, since: nat): nat {
    if now < since then 0 else now - since
  }

  /** Add a chunk to the buffer and decide whether to publish everything buffered so far. */
  method CoalesceChunk(buffered: nat, lastSent: nat, chunk: nat, minInterval: nat, now: nat)
    returns (buffered': nat, lastSent': nat, publish: Option<nat>)
    requires buffered < WORD
    ensures buffered' < WORD
    ensures publish.Some? <==> Elapsed(now, lastSent) >= minInterval
    ensures publish.Some? ==> buffered' == 0 && lastSent' == now && publish.value == (buffered + chunk) % WORD
    ensures publish.None? ==> buffered' == (buffered + chunk) % WORD && lastSent' == lastSent
  {
    var pending := (buffered + chunk) % WORD;
    buffered' := pending;
    lastSent' := lastSent;
    if Elapsed(now, lastSent) < minInterval {
      return buffered', lastSent', None;
    }
    return 0, now, Some(pending);
  }

  function Total(chunks: seq<Chunk>): nat {
    if chunks == [] then 0 else Total(chunks[..|chunks| - 1]) + chunks[|chunks| - 1].bytes
  }

  function Sum(values: seq<nat>): nat {
    if values == [] then 0 else Sum(values[..|values| - 1]) + values[|values| - 1]
  }

  lemma TotalAppend(chunks: seq<Chunk>, k: nat)
    requires k < |chunks|
    ensures Total(chunks[..k + 1]) == Total(chunks[..k]) + chunks[k].bytes
  {
    assert chunks[..k + 1][..k] == chunks[..k];
  }

  lemma SumAppend(values: seq<nat>, v: nat)
    ensures Sum(values + [v]) == Sum(values) + v
  {
    assert (values + [v])[..|values|] == values;
  }

  lemma {:induction false} TotalMonotone(chunks: seq<Chunk>, k: nat)
    requires k <= |chunks|
    ensures Total(chunks[..k]) <= Total(chunks)
    decreases |chunks| - k
  {
    if k < |chunks| {
      TotalAppend(chunks, k);
      TotalMonotone(chunks, k + 1);
    } else {
      assert chunks[..k] == chunks;
    }
  }

  /** One more chunk keeps published plus buffered congruent to the bytes received. */
  lemma WrapStep(sent: nat, buffered: nat, received: nat, chunk: nat)
    requires (sent + buffered) % WORD == received % WORD
    ensures (sent + (buffered + chunk) % WORD) % WORD == (received + chunk) % WORD
    ensures sent + buffered + chunk < WORD ==> (buffered + chunk) % WORD == buffered + chunk
  {
  }

  /**
   The progress of one whole download: what was published chunk by chunk, and what the completion callback
   flushes. The total is exact modulo 2^64 always and exact outright below 2^64; `k` messages take at least
   `k` intervals.
   */
  method ReportDownload(chunks: seq<Chunk>, minInterval: nat, start: nat)
    returns (published: seq<nat>, tail: nat, lastSent: nat)
    ensures (Sum(published) + tail) % WORD == Total(chunks) % WORD
    ensures Total(chunks) < WORD ==> Sum(published) + tail == Total(chunks)
    ensures minInterval > 0 ==> lastSent >= start + |published| * minInterval
    ensures published == [] ==> lastSent == start
    ensures published != [] ==> exists k :: 0 <= k < |chunks| && lastSent == chunks[k].now
    ensures |published| <= |chunks|
  {
    var buffered: nat := 0;
    published := [];
    lastSent := start;
    for i := 0 to |chunks|
      invariant buffered < WORD && |published| <= i
      invariant (Sum(published) + buffered) % WORD == Total(chunks[..i]) % WORD
      invariant Total(chunks) < WORD ==> Sum(published) + buffered == Total(chunks[..i])
      invariant minInterval > 0 ==> lastSent >= start + |published| * minInterval
      invariant published == [] ==> lastSent == start
      invariant published != [] ==> exists k :: 0 <= k < i && lastSent == chunks[k].now
    {
      TotalAppend(chunks, i);
      TotalMonotone(chunks, i + 1);
      WrapStep(Sum(published), buffered, Total(chunks[..i]), chunks[i].bytes);
      var publish;
      buffered, lastSent, publish := CoalesceChunk(buffered, lastSent, chunks[i].bytes, minInterval, chunks[i].now);
      if publish.Some? {
        SumAppend(published, publish.value);
        assert (|published| + 1) * minInterval == |published| * minInterval + minInterval;
        published := published + [publish.value];
      }
    }
    assert chunks[..|chunks|] == chunks;
    tail := buffered;
  }
}
