/** Byte strings, Python's slicing of them, and cutting a range into chunks. */
module Bytes {

  type Byte = bv8
  type Bytes = seq<Byte>

  function Min(a: int, b: int): int {
    if a < b then a else b
  }

  function Max(a: int, b: int): int {
    if a < b then b else a
  }

  /** The index a Python slice bound stands for in a sequence of length `n`. */
  function Bound(i: int, n: nat): (b: nat)
    ensures b <= n
  {
    if i < 0 then Max(0, n + i) else Min(i, n)
  }

  /** Python's `s[begin:end]`: negative and over-long bounds are clamped, crossed bounds give nothing. */
  function Slice<T>(s: seq<T>, begin: int, end: int): (r: seq<T>)
    ensures 0 <= begin <= end <= |s| ==> r == s[begin..end]
  {
    var b, e := Bound(begin, |s|), Bound(end, |s|);
    if b <= e then s[b..e] else []
  }

  /** What Python says of slices: negative bounds count from the end, over-long ones stop at the ends. */
  lemma SliceBounds<T>(s: seq<T>, begin: int, end: int)
    ensures begin < 0 ==> Slice(s, begin, end) == Slice(s, if -begin <= |s| then |s| - (-begin) else 0, end)
    ensures end < 0 ==> Slice(s, begin, end) == Slice(s, begin, if -end <= |s| then |s| - (-end) else 0)
    ensures begin > |s| ==> Slice(s, begin, end) == []
    ensures end > |s| ==> Slice(s, begin, end) == Slice(s, begin, |s|)
    ensures 0 <= end <= begin ==> Slice(s, begin, end) == []
  {
  }

  function Concat(parts: seq<Bytes>): Bytes {
    if parts == [] then [] else Concat(parts[..|parts| - 1]) + parts[|parts| - 1]
  }

  /** `Media.chunks(begin, end, size)` over the bytes `s`. */
  function Chunks(s: Bytes, begin: int, end: int, size: int): seq<Bytes>
    requires size > 0
    decreases end - begin
  {
    if begin >= end then []
    else
      var stop := Min(begin + size, end);
      [Slice(s, begin, stop)] + Chunks(s, stop, end, size)
  }

  lemma {:induction false} ConcatAppend(a: seq<Bytes>, b: seq<Bytes>)
    ensures Concat(a + b) == Concat(a) + Concat(b)
  {
    if b == [] {
      assert a + b == a;
    } else {
      var init := b[..|b| - 1];
      ConcatAppend(a, init);
      assert (a + b)[..|a + b| - 1] == a + init;
    }
  }

  lemma ConcatCons(first: Bytes, rest: seq<Bytes>)
    ensures Concat([first] + rest) == first + Concat(rest)
  {
    ConcatAppend([first], rest);
    assert Concat([first]) == first;
  }

  /** Chunks of an in-bounds range concatenate to the range, and none of them is empty or over-long. */
  lemma {:induction false} ChunksCover(s: Bytes, begin: int, end: int, size: int)
    requires size > 0 && 0 <= begin <= end <= |s|
    ensures Concat(Chunks(s, begin, end, size)) == s[begin..end]
    ensures forall k :: 0 <= k < |Chunks(s, begin, end, size)| ==> 0 < |Chunks(s, begin, end, size)[k]| <= size
    decreases end - begin
  {
    if begin < end {
      var stop := Min(begin + size, end);
      var first, rest := s[begin..stop], Chunks(s, stop, end, size);
      ChunksCover(s, stop, end, size);
      assert Chunks(s, begin, end, size) == [first] + rest;
      ConcatCons(first, rest);
      assert first + s[stop..end] == s[begin..end];
    }
  }

  /** As many chunks as it takes, and no more. */
  lemma {:induction false} ChunkCount(s: Bytes, begin: int, end: int, size: int)
    requires size > 0 && begin <= end
    ensures |Chunks(s, begin, end, size)| == (end - begin + size - 1) / size
    decreases end - begin
  {
    CeilStep(end - begin, size);
    if begin < end {
      ChunkCount(s, Min(begin + size, end), end, size);
    }
  }

  lemma CeilStep(n: nat, size: int)
    requires size > 0
    ensures n == 0 ==> (n + size - 1) / size == 0
    ensures 0 < n <= size ==> (n + size - 1) / size == 1
    ensures size < n ==> (n + size - 1) / size == 1 + (n - size + size - 1) / size
  {
    if 0 < n <= size {
      DivUnique(n + size - 1, size, 1);
    } else if size < n {
      var q := (n - 1) / size;
      DivUnique(n + size - 1, size, 1 + q);
    }
  }

  lemma DivUnique(a: int, d: int, q: int)
    requires d > 0 && q * d <= a < q * d + d
    ensures a / d == q
  {
    var r := a / d;
    assert r * d <= a < r * d + d;
    if r < q {
      MulMono(r + 1, q, d);
    } else if q < r {
      MulMono(q + 1, r, d);
    }
  }

  lemma MulMono(a: int, b: int, d: int)
    requires a <= b && d >= 0
    ensures a * d <= b * d
  {
  }

  /** A negative offset counts from the end of the object's bytes. */
  function Start(media: Bytes, readOffset: int): (start: nat)
    ensures readOffset >= 0 ==> start == readOffset
    ensures readOffset < 0 ==> start <= |media|
  {
    if readOffset < 0 then Max(0, |media| + readOffset) else readOffset
  }

  // ---- A range of a read, by an offset and a limit ----

  /** The bytes from an offset on; a negative one asks for that many of the last bytes. */
  function Tail(media: Bytes, offset: int): Bytes {
    if offset >= 0 then (if offset <= |media| then media[offset..] else [])
    else if -offset >= |media| then media else media[|media| - (-offset)..]
  }

  /** At most `limit` of them, if that is more than nothing; all of them otherwise. */
  function Part(media: Bytes, offset: int, limit: int): (part: Bytes)
    ensures part <= Tail(media, offset)
    ensures limit > 0 ==> |part| == Min(limit, |Tail(media, offset)|)
    ensures limit <= 0 ==> part == Tail(media, offset)
  {
    var tail := Tail(media, offset);
    if limit > 0 && limit < |tail| then tail[..limit] else tail
  }

  /** A start and an end that cut out the same. */
  lemma PartIs(media: Bytes, offset: int, limit: int)
    requires Start(media, offset) <= |media|
    ensures var start := Start(media, offset);
            && start == |media| - |Tail(media, offset)|
            && Part(media, offset, limit) == media[start..if limit > 0 then Min(|media|, start + limit) else |media|]
    ensures Start(media, offset) <= |media| <==> offset <= |media|
  {
  }

  lemma SliceOfSlice(s: Bytes, a: nat, b: nat, i: nat, j: nat)
    requires a <= b <= |s| && i <= j <= b - a
    ensures s[a..b][i..j] == s[a + i..a + j]
  {
    var part, direct := s[a..b][i..j], s[a + i..a + j];
    assert |part| == |direct|;
    forall k | 0 <= k < |part|
      ensures part[k] == direct[k]
    {
      assert part[k] == s[a..b][i + k] == s[a + i + k];
    }
  }
}
