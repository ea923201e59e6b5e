/**
 The server-streaming read (ReadObject in testbench/grpc_server.py): a range is cut into chunks,
 with a trailing empty response, and an injected fault may break the stream.
 */
module ReadObject {

  import opened Bytes
  import opened Wrappers

  datatype ContentRange = ContentRange(start: int, end: int, completeLength: nat)

  datatype Response = Response(content: Bytes, metadata: bool, contentRange: Option<ContentRange>)

  /** What a stream sent, and whether it was then aborted by a broken-stream fault. */
  datatype Stream = Stream(responses: seq<Response>, aborted: bool)

  datatype Outcome = Streamed(stream: Stream) | RangeNotSatisfiable

  function ReadEnd(media: Bytes, start: int, readLimit: int): int {
    if readLimit > 0 then Min(|media|, start + readLimit) else |media|
  }

  /**
   The reference: one response per pass of `while start <= end`, advancing by `size`, so a range
   whose length is a multiple of `size` ends with an empty response. `broken` is 0 for no fault.
   */
  function EarlierLoop(media: Bytes, start: int, end: int, size: int, broken: nat,
                       metadata: bool, range: Option<ContentRange>): Stream
    requires size > 0
    decreases end - start + 1
  {
    if start > end then Stream([], false)
    else
      var stop := Min(start + size, end);
      if broken > 0 && stop >= broken then
        Stream([Response(Slice(media, start, broken), metadata, range)], true)
      else
        var rest := EarlierLoop(media, start + size, end, size, broken, false, None);
        Stream([Response(Slice(media, start, stop), metadata, range)] + rest.responses, rest.aborted)
  }

  /** Today's loop over `chunks` with the conditional trailing response emits the same stream. */
  method ReadObject(media: Bytes, readOffset: int, readLimit: int, size: int, broken: nat) returns (o: Outcome)
    requires size > 0
    ensures var start := Start(media, readOffset);
            var end := ReadEnd(media, start, readLimit);
            var range := if readOffset > 0 || readLimit > 0 then Some(ContentRange(start, end, |media|)) else None;
            o == if start > |media| then RangeNotSatisfiable
                 else Streamed(EarlierLoop(media, start, end, size, broken, true, range))
    ensures o.RangeNotSatisfiable? <==> readOffset > |media|
    ensures o.Streamed? ==> Delivers(o.stream, media, readOffset, readLimit, broken)
  {
    hide EarlierLoop, Delivers;
    RangeDecided(media, readOffset, readLimit, size, broken);
    var start := readOffset;
    if start < 0 {
      start := Max(0, |media| + start);
    }
    var readEnd := |media|;
    if start > readEnd {
      return RangeNotSatisfiable;
    }
    if readLimit > 0 {
      readEnd := Min(readEnd, start + readLimit);
    }
    var contentRange := None;
    if readOffset > 0 || readLimit > 0 {
      contentRange := Some(ContentRange(start, readEnd, |media|));
    }
    var stream := StreamRange(media, start, readEnd, size, broken, contentRange);
    return Streamed(stream);
  }

  /**
   What a stream has to deliver: the bytes from the offset on, as many as asked for, or those of them
   before the fault; metadata on the first response, and the range there exactly if one was asked for.
   */
  ghost predicate Delivers(s: Stream, media: Bytes, readOffset: int, readLimit: int, broken: nat) {
    var part := Part(media, readOffset, readLimit);
    var start := |media| - |Tail(media, readOffset)|;
    && (s.aborted <==> 0 < broken <= start + |part|)
    && Contents(s.responses) == (if s.aborted then part[..Max(0, broken - start)] else part)
    && s.responses != [] && s.responses[0].metadata
    && s.responses[0].contentRange ==
       (if readOffset > 0 || readLimit > 0 then Some(ContentRange(start, start + |part|, |media|)) else None)
    && forall k :: 1 <= k < |s.responses| ==> !s.responses[k].metadata && s.responses[k].contentRange == None
  }

  lemma RangeDecided(media: Bytes, readOffset: int, readLimit: int, size: int, broken: nat)
    requires size > 0
    ensures Start(media, readOffset) <= |media| <==> readOffset <= |media|
    ensures var start := Start(media, readOffset);
            var end := ReadEnd(media, start, readLimit);
            var range := if readOffset > 0 || readLimit > 0 then Some(ContentRange(start, end, |media|)) else None;
            start <= |media| ==> Delivers(EarlierLoop(media, start, end, size, broken, true, range), media, readOffset, readLimit, broken)
  {
    hide EarlierLoop, Contents, Delivers;
    var start := Start(media, readOffset);
    var end := ReadEnd(media, start, readLimit);
    var range := if readOffset > 0 || readLimit > 0 then Some(ContentRange(start, end, |media|)) else None;
    if start <= |media| {
      PartIs(media, readOffset, readLimit);
      StreamDelivers(media, start, end, size, broken, range);
      SameRange(EarlierLoop(media, start, end, size, broken, true, range), media, readOffset, readLimit, broken, start, end, range);
    }
  }

  /** What the stream over a range delivers, by where the range begins and ends. */
  ghost predicate DeliversRange(s: Stream, media: Bytes, start: nat, end: nat, broken: nat, range: Option<ContentRange>)
    requires start <= end <= |media|
  {
    && (s.aborted <==> 0 < broken <= end)
    && Contents(s.responses) == (if s.aborted then media[start..Max(start, broken)] else media[start..end])
    && s.responses != [] && s.responses[0].metadata && s.responses[0].contentRange == range
    && forall k :: 1 <= k < |s.responses| ==> !s.responses[k].metadata && s.responses[k].contentRange == None
  }

  lemma StreamDelivers(media: Bytes, start: nat, end: nat, size: int, broken: nat, range: Option<ContentRange>)
    requires size > 0 && start <= end <= |media|
    ensures DeliversRange(EarlierLoop(media, start, end, size, broken, true, range), media, start, end, broken, range)
  {
    hide EarlierLoop, Contents;
    if 0 < broken <= end {
      FaultedStream(media, start, end, size, broken, true, range);
      FaultedHeads(media, start, end, size, broken, true, range);
    } else {
      FaultFreeStream(media, start, end, size, broken, true, range);
    }
  }

  lemma SameRange(s: Stream, media: Bytes, readOffset: int, readLimit: int, broken: nat, start: nat, end: nat,
                  range: Option<ContentRange>)
    requires start <= end <= |media| && DeliversRange(s, media, start, end, broken, range)
    requires start == |media| - |Tail(media, readOffset)| && Part(media, readOffset, readLimit) == media[start..end]
    requires range == if readOffset > 0 || readLimit > 0 then Some(ContentRange(start, end, |media|)) else None
    ensures Delivers(s, media, readOffset, readLimit, broken)
  {
    hide Contents, Part, Tail;
    if s.aborted {
      assert media[start..end][..Max(0, broken - start)] == media[start..Max(start, broken)];
    }
  }

  /** A stream that is cut short carries its metadata in the same place. */
  lemma {:induction false} FaultedHeads(media: Bytes, start: int, end: int, size: int, broken: nat,
                                       metadata: bool, range: Option<ContentRange>)
    requires size > 0 && 0 <= start <= end <= |media| && 0 < broken <= end
    ensures var s := EarlierLoop(media, start, end, size, broken, metadata, range);
            && s.responses != [] && s.responses[0].metadata == metadata && s.responses[0].contentRange == range
            && forall k :: 1 <= k < |s.responses| ==> !s.responses[k].metadata && s.responses[k].contentRange == None
    decreases end - start
  {
    hide EarlierLoop, Contents;
    if start + size < broken {
      FullPass(media, start, end, size, broken, metadata, range);
      FaultedHeads(media, start + size, end, size, broken, false, None);
    } else {
      FaultStep([], media, start, end, size, broken, metadata, range);
      NothingSent(EarlierLoop(media, start, end, size, broken, metadata, range));
    }
  }

  method StreamRange(media: Bytes, start: int, readEnd: int, size: int, broken: nat, range: Option<ContentRange>)
    returns (stream: Stream)
    requires size > 0 && 0 <= start <= readEnd <= |media|
    ensures stream == EarlierLoop(media, start, readEnd, size, broken, true, range)
  {
    hide EarlierLoop;
    var meta, contentRange := true, range;
    var responses: seq<Response> := [];
    var pos := start;
    NothingSent(EarlierLoop(media, start, readEnd, size, broken, true, range));
    ghost var whole := EarlierLoop(media, start, readEnd, size, broken, true, range);
    ghost var next := start;  // where the earlier loop stands
    while pos < readEnd
      invariant start <= next < readEnd + size
      invariant pos == Min(next, readEnd)
      invariant Stepped(start, next, size)
      invariant whole == Resume(responses, EarlierLoop(media, next, readEnd, size, broken, meta, contentRange))
      decreases readEnd - pos
    {
      var end := Min(pos + size, readEnd);
      var chunk := Slice(media, pos, end);
      if broken > 0 && end >= broken {
        FaultStep(responses, media, next, readEnd, size, broken, meta, contentRange);
        chunk := Slice(media, pos, broken);
        return Stream(responses + [Response(chunk, meta, contentRange)], true);
      }
      LoopStep(responses, media, next, readEnd, size, broken, meta, contentRange);
      responses := responses + [Response(chunk, meta, contentRange)];
      meta := false;
      contentRange := None;
      pos := end;
      next := next + size;
    }
    stream := FinishRange(media, responses, start, readEnd, size, broken, meta, contentRange, next);
  }

  /** After the chunks: a trailing empty response when the length is a multiple of the chunk size. */
  method FinishRange(media: Bytes, responses: seq<Response>, start: int, readEnd: int, size: int, broken: nat, meta: bool,
                     contentRange: Option<ContentRange>, ghost next: int) returns (stream: Stream)
    requires size > 0 && 0 <= start <= readEnd <= |media|
    requires readEnd <= next < readEnd + size && Stepped(start, next, size)
    ensures stream == Resume(responses, EarlierLoop(media, next, readEnd, size, broken, meta, contentRange))
  {
    ExactMultiple(start, readEnd, size, next);
    if (readEnd - start) % size == 0 {
      stream := TrailingResponse(media, responses, readEnd, size, broken, meta, contentRange);
    } else {
      assert responses + [] == responses;
      stream := Stream(responses, false);
    }
  }

  /** The last pass of the earlier loop, over nothing. */
  method TrailingResponse(media: Bytes, responses: seq<Response>, readEnd: int, size: int, broken: nat, meta: bool,
                          contentRange: Option<ContentRange>) returns (stream: Stream)
    requires size > 0 && 0 <= readEnd <= |media|
    ensures stream == Resume(responses, EarlierLoop(media, readEnd, readEnd, size, broken, meta, contentRange))
  {
    if broken > 0 && readEnd >= broken {
      return Stream(responses + [Response(Slice(media, readEnd, broken), meta, contentRange)], true);
    }
    return Stream(responses + [Response([], meta, contentRange)], false);
  }

  function Resume(sent: seq<Response>, rest: Stream): Stream {
    Stream(sent + rest.responses, rest.aborted)
  }

  /** One pass of the earlier loop that does not hit the fault. */
  lemma LoopStep(sent: seq<Response>, media: Bytes, start: int, end: int, size: int, broken: nat,
                 metadata: bool, range: Option<ContentRange>)
    requires size > 0 && start <= end && !(broken > 0 && Min(start + size, end) >= broken)
    ensures var response := Response(Slice(media, start, Min(start + size, end)), metadata, range);
            Resume(sent, EarlierLoop(media, start, end, size, broken, metadata, range)) ==
            Resume(sent + [response], EarlierLoop(media, start + size, end, size, broken, false, None))
  {
    var rest := EarlierLoop(media, start + size, end, size, broken, false, None);
    var response := Response(Slice(media, start, Min(start + size, end)), metadata, range);
    assert sent + ([response] + rest.responses) == sent + [response] + rest.responses;
  }

  /** The pass that hits the fault is the last. */
  lemma FaultStep(sent: seq<Response>, media: Bytes, start: int, end: int, size: int, broken: nat,
                  metadata: bool, range: Option<ContentRange>)
    requires size > 0 && start <= end && broken > 0 && Min(start + size, end) >= broken
    ensures Resume(sent, EarlierLoop(media, start, end, size, broken, metadata, range)) ==
            Stream(sent + [Response(Slice(media, start, broken), metadata, range)], true)
  {
  }

  lemma NothingSent(stream: Stream)
    ensures Resume([], stream) == stream
  {
    assert [] + stream.responses == stream.responses;
  }

  /** `next` is reached from `start` in steps of `size`. */
  ghost predicate Stepped(start: int, next: int, size: int)
    requires size > 0
    decreases next - start
  {
    next == start || (next > start && Stepped(start, next - size, size))
  }

  lemma StepDiv(n: nat, size: int)
    requires size > 0
    ensures (n + size) % size == n % size
    ensures (n + size) / size == n / size + 1
  {
    DivUnique(n + size, size, n / size + 1);
  }

  /** The trailing response is due exactly when the last step landed on the end of the range. */
  lemma {:induction false} ExactMultiple(start: int, end: int, size: int, next: int)
    requires size > 0 && start <= end <= next < end + size && Stepped(start, next, size)
    ensures (end - start) % size == 0 <==> end == next
    decreases next - start
  {
    if start + size <= end {
      ExactMultiple(start, end - size, size, next - size);
      StepDiv(end - size - start, size);
    } else if start < next && next != end {
      assert !Stepped(start, next - 2 * size, size);
    }
  }

  function Contents(responses: seq<Response>): Bytes {
    if responses == [] then [] else responses[0].content + Contents(responses[1..])
  }

  lemma ContentsCons(response: Response, rest: seq<Response>)
    ensures Contents([response] + rest) == response.content + Contents(rest)
  {
    assert ([response] + rest)[1..] == rest;
  }

  /** The last pass of a stream without a fault. */
  lemma LastPass(media: Bytes, start: int, end: int, size: int, broken: nat, metadata: bool, range: Option<ContentRange>)
    requires size > 0 && 0 <= start <= end <= |media| && end < start + size && (broken == 0 || end < broken)
    ensures EarlierLoop(media, start, end, size, broken, metadata, range) ==
            Stream([Response(media[start..end], metadata, range)], false)
  {
  }

  /** A pass that is not the last: a full chunk, and then the rest. */
  lemma FullPass(media: Bytes, start: int, end: int, size: int, broken: nat, metadata: bool, range: Option<ContentRange>)
    requires size > 0 && 0 <= start && start + size <= end <= |media| && (broken == 0 || start + size < broken)
    ensures EarlierLoop(media, start, end, size, broken, metadata, range) ==
            Resume([Response(media[start..start + size], metadata, range)],
                   EarlierLoop(media, start + size, end, size, broken, false, None))
  {
  }

  /** Without a fault in range: all the bytes, no abort, and metadata on the first response only. */
  lemma {:induction false} FaultFreeStream(media: Bytes, start: int, end: int, size: int, broken: nat,
                                          metadata: bool, range: Option<ContentRange>)
    requires size > 0 && 0 <= start <= end <= |media| && (broken == 0 || end < broken)
    ensures var s := EarlierLoop(media, start, end, size, broken, metadata, range);
            && !s.aborted
            && Contents(s.responses) == media[start..end] && s.responses != []
            && s.responses[0].metadata == metadata && s.responses[0].contentRange == range
            && forall k :: 1 <= k < |s.responses| ==> !s.responses[k].metadata && s.responses[k].contentRange == None
    decreases end - start
  {
    hide EarlierLoop, Contents;
    if start + size <= end {
      FullPass(media, start, end, size, broken, metadata, range);
      FaultFreeStream(media, start + size, end, size, broken, false, None);
      var rest := EarlierLoop(media, start + size, end, size, broken, false, None).responses;
      ContentsCons(Response(media[start..start + size], metadata, range), rest);
      assert media[start..start + size] + media[start + size..end] == media[start..end];
    } else {
      LastPass(media, start, end, size, broken, metadata, range);
      OneResponse(Response(media[start..end], metadata, range));
    }
  }

  lemma OneResponse(response: Response)
    ensures Contents([response]) == response.content
  {
    ContentsCons(response, []);
    assert [response] + [] == [response];
    assert response.content + [] == response.content;
  }

  /** One response per full chunk, and a last one, short or empty. */
  lemma {:induction false} ResponseCount(media: Bytes, start: int, end: int, size: int, broken: nat,
                                        metadata: bool, range: Option<ContentRange>)
    requires size > 0 && 0 <= start <= end <= |media| && (broken == 0 || end < broken)
    ensures |EarlierLoop(media, start, end, size, broken, metadata, range).responses| == (end - start) / size + 1
    decreases end - start
  {
    hide EarlierLoop;
    if start + size <= end {
      FullPass(media, start, end, size, broken, metadata, range);
      ResponseCount(media, start + size, end, size, broken, false, None);
      StepDiv(end - start - size, size);
    } else {
      LastPass(media, start, end, size, broken, metadata, range);
      DivUnique(end - start, size, 0);
    }
  }

  /** Full chunks, and then what is left over, which is less than one. */
  lemma {:induction false} ChunkSizes(media: Bytes, start: int, end: int, size: int, broken: nat,
                                     metadata: bool, range: Option<ContentRange>)
    requires size > 0 && 0 <= start <= end <= |media| && (broken == 0 || end < broken)
    ensures var responses := EarlierLoop(media, start, end, size, broken, metadata, range).responses;
            && (forall k :: 0 <= k < |responses| - 1 ==> |responses[k].content| == size)
            && responses != [] && |responses[|responses| - 1].content| < size
    decreases end - start
  {
    hide EarlierLoop;
    if start + size <= end {
      FullPass(media, start, end, size, broken, metadata, range);
      ChunkSizes(media, start + size, end, size, broken, false, None);
    } else {
      LastPass(media, start, end, size, broken, metadata, range);
    }
  }

  /** A fault at `broken` within the range delivers exactly the bytes before it and aborts. */
  lemma {:induction false} FaultedStream(media: Bytes, start: int, end: int, size: int, broken: nat,
                                        metadata: bool, range: Option<ContentRange>)
    requires size > 0 && 0 <= start <= end <= |media| && 0 < broken <= end
    ensures var s := EarlierLoop(media, start, end, size, broken, metadata, range);
            s.aborted && Contents(s.responses) == media[start..Max(start, broken)]
    decreases end - start
  {
    hide EarlierLoop, Contents;
    if start + size < broken {
      FullPass(media, start, end, size, broken, metadata, range);
      FaultedStream(media, start + size, end, size, broken, false, None);
      var rest := EarlierLoop(media, start + size, end, size, broken, false, None).responses;
      ContentsCons(Response(media[start..start + size], metadata, range), rest);
      assert media[start..start + size] + media[start + size..broken] == media[start..broken];
    } else {
      var response := Response(Slice(media, start, broken), metadata, range);
      FaultStep([], media, start, end, size, broken, metadata, range);
      NothingSent(EarlierLoop(media, start, end, size, broken, metadata, range));
      assert [] + [response] == [response];
      OneResponse(response);
    }
  }
}
