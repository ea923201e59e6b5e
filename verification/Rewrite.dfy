/**
 Multi-call rewrites: each call copies one window of the source into the staged destination
 (gcs/rewrite.py and the handlers in testbench/grpc_server.py and testbench/rest_server.py).
 */
module Rewrite {

  import opened Bytes
  import opened Wrappers

  const MIN_REWRITE_BYTES := 1024 * 1024

  /** The least window a caller may ask for is 1 MiB; the default is the same. */
  function NormalizeMaxBytes(maxBytes: Option<int>): (m: int)
    ensures m >= MIN_REWRITE_BYTES
    ensures maxBytes.Some? && maxBytes.value >= MIN_REWRITE_BYTES ==> m == maxBytes.value
    ensures maxBytes.None? || maxBytes.value < MIN_REWRITE_BYTES ==> m == MIN_REWRITE_BYTES
  {
    Max(if maxBytes.None? then MIN_REWRITE_BYTES else maxBytes.value, MIN_REWRITE_BYTES)
  }

  /** What one call answers. */
  datatype Response = Response(totalBytesRewritten: int, objectSize: nat, done: bool)

  /** How many bytes are in the destination after a call. */
  function Total(offset: nat, max: int, length: nat): int {
    offset + Min(max, length - offset)
  }

  class Rewrite {
    var media: Bytes
    const maxBytesRewrittenPerCall: int

    constructor (maxBytes: Option<int>)
      ensures media == []
      ensures maxBytesRewrittenPerCall == NormalizeMaxBytes(maxBytes)
    {
      media := [];
      maxBytesRewrittenPerCall := NormalizeMaxBytes(maxBytes);
    }

    /** One call: append this window of the source, chunk by chunk. */
    method Call(source: Bytes, size: int) returns (response: Response)
      requires size > 0
      modifies this
      ensures media == Window(old(media), source, maxBytesRewrittenPerCall)
      ensures response == Response(Total(|old(media)|, maxBytesRewrittenPerCall, |source|), |source|,
                                   Done(old(media), source, maxBytesRewrittenPerCall))
    {
      var offset := |media|;
      var totalBytesRewritten := offset + Min(maxBytesRewrittenPerCall, |source| - offset);
      ghost var before := media;
      var pos := offset;
      assert Slice(source, offset, pos) == [];
      while pos < totalBytesRewritten
        invariant offset <= pos
        invariant pos <= totalBytesRewritten || pos == offset
        invariant pos > offset ==> totalBytesRewritten <= |source|
        invariant media == before + Slice(source, offset, pos)
        decreases totalBytesRewritten - pos
      {
        var stop := Min(pos + size, totalBytesRewritten);
        assert source[offset..stop] == source[offset..pos] + source[pos..stop];
        media := media + Slice(source, pos, stop);
        pos := stop;
      }
      response := Response(totalBytesRewritten, |source|, totalBytesRewritten == |source|);
    }
  }

  /** The destination after one call over the given source. */
  function Window(media: Bytes, source: Bytes, max: int): Bytes {
    media + Slice(source, |media|, Max(|media|, Total(|media|, max, |source|)))
  }

  function Done(media: Bytes, source: Bytes, max: int): bool {
    Total(|media|, max, |source|) == |source|
  }

  /** The destination after `calls` calls over an unchanged source. */
  function AfterCalls(source: Bytes, max: int, calls: nat): Bytes {
    if calls == 0 then [] else Window(AfterCalls(source, max, calls - 1), source, max)
  }

  lemma {:induction false} CopiedSoFar(source: Bytes, max: int, calls: nat)
    requires max > 0
    ensures AfterCalls(source, max, calls) == source[..Min(|source|, calls * max)]
  {
    if calls > 0 {
      CopiedSoFar(source, max, calls - 1);
      var copied := (calls - 1) * max;
      MulMono(0, calls - 1, max);
      WindowStep(source, max, copied);
      assert calls * max == copied + max;
    }
  }

  lemma WindowStep(source: Bytes, max: int, copied: nat)
    requires max > 0
    ensures Window(source[..Min(|source|, copied)], source, max) == source[..Min(|source|, copied + max)]
  {
    var a, b := Min(|source|, copied), Min(|source|, copied + max);
    assert source[..a] + source[a..b] == source[..b];
  }

  /** `calls` windows cover `n` bytes exactly when `calls` is at least the rounded-up quotient. */
  lemma CallsCover(n: nat, max: int, calls: nat)
    requires max > 0
    ensures calls >= (n + max - 1) / max <==> n <= calls * max
  {
    var q := (n + max - 1) / max;
    assert (q - 1) * max == q * max - max;
    assert q * max - max < n <= q * max;
    if calls >= q {
      MulMono(q, calls, max);
    } else {
      MulMono(calls, q - 1, max);
    }
  }

  /**
   With an unchanged source the client's loop ends after exactly the calls that cover the source in
   windows, one for an empty source; the destination then holds the source, and the copied length
   grows on every call before the last.
   */
  lemma RewriteCompletes(source: Bytes, max: int, calls: nat)
    requires max >= MIN_REWRITE_BYTES && calls > 0
    ensures var needed := Max(1, (|source| + max - 1) / max);
            && (Done(AfterCalls(source, max, calls - 1), source, max) <==> calls >= needed)
            && (calls == needed ==> AfterCalls(source, max, calls) == source)
            && (calls < needed ==> |AfterCalls(source, max, calls - 1)| < |AfterCalls(source, max, calls)| < |source|)
  {
    hide AfterCalls;
    CopiedSoFar(source, max, calls - 1);
    CopiedSoFar(source, max, calls);
    CallsCover(|source|, max, calls - 1);
    CallsCover(|source|, max, calls);
    assert calls * max == (calls - 1) * max + max;
  }

  /**
   When the source may change between calls: the last call leaves the new source in the destination
   exactly when what was copied before is a prefix of it.
   */
  lemma FinishedCopy(media: Bytes, source: Bytes, max: int)
    requires max > 0 && Done(media, source, max)
    ensures Window(media, source, max) == source <==> media <= source
  {
    if media <= source {
      assert media == source[..|media|];
      assert source[..|media|] + source[|media|..] == source;
    }
  }
}
