/**
 Resumable uploads over REST: one chunk request (resumable_upload_chunk in testbench/rest_server.py
 and the injected failures of testbench/common.py).
 */
module RestUpload {

  import opened Bytes
  import opened RetryTests
  import opened Wrappers

  const INSERT := "storage.objects.insert"

  /**
   The content-range header: `bytes *\/total`, or `bytes first-last/total` with stars for unknowns.
   A header of another form is not answered with an error of its own: the request fails.
   */
  datatype ContentRange =
    | NoHeader
    | Malformed
    | Status(total: Option<nat>)
    | Chunk(first: nat, last: Option<nat>, total: Option<nat>)

  datatype Request = Request(data: Bytes, contentLength: Option<nat>, range: ContentRange,
                             return503After256K: bool, testing: bool)

  datatype Response =
    | AlreadyComplete
    | Inserted
    | ResumeIncomplete
    | BadRequest
    | ServerError
    | LengthMismatch
    | InjectedFault(code: nat)

  datatype State = State(media: Bytes, complete: bool, queue: seq<Instruction>)

  /** A fault in force: its code, where it strikes, and whether it comes from the queue. */
  datatype Fault = Fault(code: nat, afterBytes: nat, queued: bool)

  function QueuedFault(queue: seq<Instruction>, testing: bool): Option<Fault> {
    if testing && queue != [] && queue[0].ReturnAfterBytes? && queue[0].code != 0
    then Some(Fault(queue[0].code, queue[0].kibibytes * 1024, true))
    else None
  }

  function FaultInForce(queue: seq<Instruction>, r: Request): Option<Fault> {
    var queued := QueuedFault(queue, r.testing);
    if r.return503After256K then Some(Fault(503, 262144, queued.Some?)) else queued
  }

  /** The position of the last persisted byte; with nothing persisted it is 0, as with one byte. */
  function LastBytePersisted(media: Bytes): nat {
    if |media| == 0 then 0 else |media| - 1
  }

  /** How many bytes of a chunk are skipped as persisted. */
  function Skipped(media: Bytes, first: nat): nat {
    var last := LastBytePersisted(media);
    if last != 0 && first <= last then last - first + 1 else 0
  }

  function ChunkLast(r: Request): int
    requires r.range.Chunk?
  {
    if r.range.last.Some? then r.range.last.value else r.range.first + |r.data| - 1
  }

  /** The upload length in force: a chunk of unknown end declares its own length if nothing else did. */
  function UploadLength(declared: nat, r: Request): nat
    requires r.range.Chunk?
  {
    if r.range.last.None? && declared == 0 then |r.data| else declared
  }

  function TotalSize(declared: nat, r: Request): nat
    requires r.range.Chunk?
  {
    if r.range.total.Some? then r.range.total.value else UploadLength(declared, r)
  }

  /** The media after a fault helper that may commit a part of the chunk. */
  function Committed(media: Bytes, r: Request, afterBytes: nat): Bytes
    requires r.range.Chunk?
  {
    var last := ChunkLast(r);
    if LastBytePersisted(media) < afterBytes <= last + 1 then
      var end := if afterBytes <= last then |r.data| - (last - afterBytes + 1) else |r.data|;
      media + Slice(r.data, Skipped(media, r.range.first), end)
    else media
  }

  /** The media after a chunk that no fault cuts; what is skipped was measured before any fault. */
  function Appended(media: Bytes, before: Bytes, r: Request): Bytes
    requires r.range.Chunk?
  {
    var skipped := Skipped(before, r.range.first);
    media + if skipped != 0 then Slice(r.data, skipped, ChunkLast(r) + 1) else r.data
  }

  class Upload {
    var media: Bytes
    var complete: bool
    const declaredLength: nat  // the x-upload-content-length header, 0 when absent

    constructor (declaredLength: nat)
      ensures media == [] && !complete && this.declaredLength == declaredLength
    {
      media, complete := [], false;
      this.declaredLength := declaredLength;
    }

    function Abs(retry: RetryTest): State
      reads this, retry
    {
      State(media, complete, if retry.transport == "HTTP" then retry.Queue(INSERT) else [])
    }

    /** The part of the chunk before the fault, without what is already persisted. */
    method CommitPart(r: Request, afterBytes: nat, lastBytePersisted: nat)
      requires r.range.Chunk? && lastBytePersisted == LastBytePersisted(media) && !complete
      modifies this
      ensures media == Committed(old(media), r, afterBytes) && !complete
    {
      var chunkLastByte := ChunkLast(r);
      if afterBytes > lastBytePersisted && afterBytes <= chunkLastByte + 1 {
        var rangeStart := 0;
        if lastBytePersisted != 0 && r.range.first <= lastBytePersisted {
          rangeStart := lastBytePersisted - r.range.first + 1;
        }
        var rangeEnd := |r.data|;
        if afterBytes <= chunkLastByte {
          rangeEnd := |r.data| - (chunkLastByte - afterBytes + 1);
        }
        media := media + Slice(r.data, rangeStart, rangeEnd);
        complete := false;
      }
    }

    /** The request fails once the bytes before the fault are persisted. */
    method HandleFault(r: Request, retry: RetryTest, fault: Fault, lastBytePersisted: nat) returns (raised: bool)
      requires r.range.Chunk? && lastBytePersisted == LastBytePersisted(media) && !complete
      requires retry.Valid() && (fault.queued ==> retry.transport == "HTTP" && retry.Queue(INSERT) != [])
      modifies this, retry
      ensures retry.Valid()
      ensures raised <==> |media| >= fault.afterBytes
      ensures Abs(retry) == old(Abs(retry)).(media := Committed(old(media), r, fault.afterBytes),
                                             queue := if raised && fault.queued then old(Abs(retry)).queue[1..]
                                                      else old(Abs(retry)).queue)
    {
      CommitPart(r, fault.afterBytes, lastBytePersisted);
      raised := |media| >= fault.afterBytes;
      if raised && fault.queued {
        var _ := retry.DequeueNextInstruction(INSERT);
      }
    }

    /** One PUT request of a resumable upload. */
    method ResumableUploadChunk(r: Request, retry: RetryTest) returns (response: Response)
      requires retry.Valid()
      modifies this, retry
      ensures retry.Valid()
      ensures (Abs(retry), response) == old(Step(Abs(retry), declaredLength, r))
    {
      if complete {
        return AlreadyComplete;
      }
      var lastBytePersisted := if |media| == 0 then 0 else |media| - 1;
      if r.contentLength.Some? && r.contentLength.value != |r.data| {
        return BadRequest;
      }
      match r.range {
        case NoHeader =>
          media := media + r.data;
          complete := true;
        case Malformed =>
          return ServerError;
        case Status(total) =>
          if total.Some? && total.value == |media| {
            complete := true;
            return Inserted;
          }
          return ResumeIncomplete;
        case Chunk(first, last, total) =>
          response := ReceiveChunk(r, retry, lastBytePersisted);
          return;
      }
      return Inserted;
    }

    method ReceiveChunk(r: Request, retry: RetryTest, lastBytePersisted: nat) returns (response: Response)
      requires r.range.Chunk? && lastBytePersisted == LastBytePersisted(media) && !complete
      requires retry.Valid()
      modifies this, retry
      ensures retry.Valid()
      ensures (Abs(retry), response) == old(ChunkStep(Abs(retry), declaredLength, r))
    {
      var first := r.range.first;
      var uploadLength := declaredLength;
      var chunkLastByte;
      if r.range.last.None? {
        uploadLength := if uploadLength == 0 then |r.data| else uploadLength;
        chunkLastByte := first + |r.data| - 1;
      } else {
        chunkLastByte := r.range.last.value;
      }
      var totalObjectSize := if r.range.total.Some? then r.range.total.value else uploadLength;
      if uploadLength != 0 && uploadLength != totalObjectSize {
        return LengthMismatch;
      }
      response := FaultOrStoreChunk(r, retry, lastBytePersisted, chunkLastByte, totalObjectSize);
    }

    method FaultOrStoreChunk(r: Request, retry: RetryTest, lastBytePersisted: nat, chunkLastByte: int, totalObjectSize: nat)
      returns (response: Response)
      requires r.range.Chunk? && lastBytePersisted == LastBytePersisted(media) && !complete
      requires chunkLastByte == ChunkLast(r) && totalObjectSize == TotalSize(declaredLength, r)
      requires retry.Valid()
      modifies this, retry
      ensures retry.Valid()
      ensures (Abs(retry), response) == old(FaultOrStore(Abs(retry), declaredLength, r))
    {
      ghost var before := media;
      var fault := FindFault(r, retry);
      if fault.Some? {
        var raised := HandleFault(r, retry, fault.value, lastBytePersisted);
        if raised {
          return InjectedFault(fault.value.code);
        }
      }
      response := StoreChunk(r, lastBytePersisted, chunkLastByte, totalObjectSize, before, retry);
    }

    /** Skip the bytes that were persisted when the request arrived, append, test for completion. */
    method StoreChunk(r: Request, lastBytePersisted: nat, chunkLastByte: int, totalObjectSize: nat,
                      ghost before: Bytes, ghost retry: RetryTest)
      returns (response: Response)
      requires r.range.Chunk? && lastBytePersisted == LastBytePersisted(before)
      requires chunkLastByte == ChunkLast(r) && totalObjectSize == TotalSize(declaredLength, r)
      modifies this
      ensures (Abs(retry), response) == old(Store(Abs(retry), Appended(media, before, r), declaredLength, r))
    {
      var first, rangeStart := r.range.first, 0;
      if lastBytePersisted != 0 && first <= lastBytePersisted {
        rangeStart := lastBytePersisted - first + 1;
      }
      var data := r.data;
      if rangeStart != 0 {
        data := Slice(data, rangeStart, chunkLastByte + 1);
      }
      media := media + data;
      complete := totalObjectSize == |media| || chunkLastByte + 1 == totalObjectSize;
      return if complete then Inserted else ResumeIncomplete;
    }

    method FindFault(r: Request, retry: RetryTest) returns (fault: Option<Fault>)
      requires retry.Valid()
      ensures fault == FaultInForce(Abs(retry).queue, r)
    {
      fault := None;
      if r.testing {
        var armed := retry.HasInstructions(INSERT, "HTTP");
        if armed {
          var next := retry.PeekNextInstruction(INSERT);
          if next.value.ReturnAfterBytes? && next.value.code != 0 {
            fault := Some(Fault(next.value.code, next.value.kibibytes * 1024, true));
          }
        }
      }
      if r.return503After256K {
        fault := Some(Fault(503, 262144, fault.Some?));
      }
    }
  }

  /** What one request does. */
  function Step(s: State, declared: nat, r: Request): (State, Response) {
    if s.complete then (s, AlreadyComplete)
    else if r.contentLength.Some? && r.contentLength.value != |r.data| then (s, BadRequest)
    else match r.range
      case NoHeader => (s.(media := s.media + r.data, complete := true), Inserted)
      case Malformed => (s, ServerError)
      case Status(total) =>
        if total == Some(|s.media|) then (s.(complete := true), Inserted) else (s, ResumeIncomplete)
      case Chunk(_, _, _) => ChunkStep(s, declared, r)
  }

  function ChunkStep(s: State, declared: nat, r: Request): (State, Response)
    requires r.range.Chunk?
  {
    if UploadLength(declared, r) != 0 && UploadLength(declared, r) != TotalSize(declared, r) then (s, LengthMismatch)
    else FaultOrStore(s, declared, r)
  }

  function FaultOrStore(s: State, declared: nat, r: Request): (State, Response)
    requires r.range.Chunk?
  {
    match FaultInForce(s.queue, r)
    case None => Store(s, Appended(s.media, s.media, r), declared, r)
    case Some(fault) =>
      var committed := Committed(s.media, r, fault.afterBytes);
      if |committed| >= fault.afterBytes then
        (s.(media := committed, queue := if fault.queued then s.queue[1..] else s.queue), InjectedFault(fault.code))
      else
        Store(s.(media := committed), Appended(committed, s.media, r), declared, r)
  }

  function Store(s: State, media: Bytes, declared: nat, r: Request): (State, Response)
    requires r.range.Chunk?
  {
    var complete := TotalSize(declared, r) == |media| || ChunkLast(r) + 1 == TotalSize(declared, r);
    (s.(media := media, complete := complete), if complete then Inserted else ResumeIncomplete)
  }

  // ---- Chunks of a client's object ----

  function EndOffset(r: Request): nat
    requires r.range.Chunk?
  {
    r.range.first + |r.data|
  }

  /** The chunk carries the client object's bytes at the place its header names. */
  predicate Honest(r: Request, client: Bytes) {
    && r.range.Chunk?
    && EndOffset(r) <= |client| && r.data == client[r.range.first..EndOffset(r)]
    && ChunkLast(r) == EndOffset(r) - 1
  }

  /** It leaves no gap, and does not send again the one byte that is persisted. */
  predicate InPlace(media: Bytes, r: Request)
    requires r.range.Chunk?
  {
    r.range.first <= |media| && !(|media| == 1 && r.range.first == 0 && r.data != [])
  }

  /**
   Overlaps are trimmed correctly exactly for chunks in place: a gap is not refused, and with one
   byte persisted a chunk from the start duplicates it.
   */
  lemma TrimmingIsExact(media: Bytes, r: Request, client: Bytes)
    requires media <= client && Honest(r, client)
    ensures Appended(media, media, r) == client[..Max(|media|, EndOffset(r))] <==> InPlace(media, r)
  {
    var first, end := r.range.first, EndOffset(r);
    assert media == client[..|media|];
    if first < |media| && |media| != 1 {
      if end <= |media| {
        assert Slice(r.data, Skipped(media, first), end) == [];
        assert media + [] == media;
      } else {
        assert Slice(r.data, Skipped(media, first), end) == client[|media|..end];
      }
    }
  }

  /** A byte is duplicated: the smallest upload on which a resent chunk is not recognised. */
  lemma ResentFirstByteIsDuplicated(b: Byte)
    ensures var r := Request([b], None, Chunk(0, Some(0), None), false, false);
            Honest(r, [b]) && Appended([b], [b], r) == [b, b]
  {
  }

  /** A fault in force commits exactly the bytes before it, whatever the overlap of the chunk. */
  lemma FaultIsExact(media: Bytes, r: Request, client: Bytes, afterBytes: nat)
    requires media <= client && Honest(r, client) && InPlace(media, r)
    ensures var committed := Committed(media, r, afterBytes);
            var end := Max(|media|, EndOffset(r));
            && (|committed| >= afterBytes <==> afterBytes <= end)
            && committed == if afterBytes <= end then client[..Max(|media|, afterBytes)] else media
  {
    hide Committed, Slice, Skipped;
    var end := EndOffset(r);
    assert media == client[..|media|];
    if LastBytePersisted(media) < afterBytes <= end && r.data != [] {
      SkippedInPlace(media, r);
      SliceOfHonest(r, client, |media|, Max(|media|, afterBytes));
      CommittedIs(media, r, afterBytes);
      assert client[..|media|] + client[|media|..Max(|media|, afterBytes)] == client[..Max(|media|, afterBytes)];
    } else {
      NothingCommitted(media, r, afterBytes);
    }
  }

  lemma NothingCommitted(media: Bytes, r: Request, afterBytes: nat)
    requires r.range.Chunk? && ChunkLast(r) == EndOffset(r) - 1
    requires !(LastBytePersisted(media) < afterBytes <= EndOffset(r)) || r.data == []
    ensures Committed(media, r, afterBytes) == media
  {
    if LastBytePersisted(media) < afterBytes <= EndOffset(r) {
      var last := ChunkLast(r);
      var end := if afterBytes <= last then |r.data| - (last - afterBytes + 1) else |r.data|;
      var kept := Slice(r.data, Skipped(media, r.range.first), end);
      assert |kept| == 0;
      assert media + kept == media;
    }
  }

  lemma SkippedInPlace(media: Bytes, r: Request)
    requires r.range.Chunk? && InPlace(media, r) && r.data != []
    ensures Skipped(media, r.range.first) == |media| - r.range.first
  {
  }

  lemma SliceOfHonest(r: Request, client: Bytes, begin: nat, end: nat)
    requires Honest(r, client) && r.range.first <= begin <= end <= EndOffset(r)
    ensures Slice(r.data, begin - r.range.first, end - r.range.first) == client[begin..end]
  {
    var first := r.range.first;
    assert Slice(r.data, begin - first, end - first) == r.data[begin - first..end - first];
    SliceOfSlice(client, first, EndOffset(r), begin - first, end - first);
  }

  lemma CommittedIs(media: Bytes, r: Request, afterBytes: nat)
    requires r.range.Chunk? && ChunkLast(r) == EndOffset(r) - 1 && LastBytePersisted(media) < afterBytes <= EndOffset(r)
    requires r.range.first <= |media| <= EndOffset(r)
    ensures Committed(media, r, afterBytes) == media + Slice(r.data, Skipped(media, r.range.first), afterBytes - r.range.first)
  {
  }

  /** What the client declares is its object's size, or nothing. */
  predicate Truthful(declared: nat, r: Request, client: Bytes)
    requires r.range.Chunk?
  {
    TotalSize(declared, r) == |client| || (TotalSize(declared, r) == 0 && r.data != [])
  }

  /**
   One honest chunk in place. A fault that is due leaves exactly the bytes before it (or what was
   there already) and takes its instruction; otherwise everything up to the chunk's end is
   persisted and the upload is complete exactly when its length is the declared total.
   */
  lemma ChunkIsExact(s: State, declared: nat, r: Request, client: Bytes)
    requires s.media <= client && !s.complete
    requires Honest(r, client) && InPlace(s.media, r)
    requires r.contentLength.Some? ==> r.contentLength.value == |r.data|
    requires !(UploadLength(declared, r) != 0 && UploadLength(declared, r) != TotalSize(declared, r))
    ensures var (after, response) := Step(s, declared, r);
            var end := Max(|s.media|, EndOffset(r));
            var fault := FaultInForce(s.queue, r);
            if fault.Some? && fault.value.afterBytes <= end then
              && response == InjectedFault(fault.value.code)
              && after.media == client[..Max(|s.media|, fault.value.afterBytes)] && !after.complete
              && after.queue == if fault.value.queued then s.queue[1..] else s.queue
            else
              && after.media == client[..end] && after.queue == s.queue
              && response == (if after.complete then Inserted else ResumeIncomplete)
              && (Truthful(declared, r, client) ==>
                    (after.complete <==> |after.media| == TotalSize(declared, r)))
  {
    hide Committed, Slice;
    TrimmingIsExact(s.media, r, client);
    var fault := FaultInForce(s.queue, r);
    if fault.Some? {
      FaultIsExact(s.media, r, client, fault.value.afterBytes);
    }
  }

  /**
   The two completion tests, on the length and on the chunk's last byte, agree except when the
   chunk ends at the declared total while more than that is persisted.
   */
  lemma CompletionTestsAgree(s: State, declared: nat, r: Request, client: Bytes)
    requires s.media <= client && Honest(r, client) && InPlace(s.media, r)
    ensures var after := Store(s, Appended(s.media, s.media, r), declared, r).0;
            (after.complete <==> |after.media| == TotalSize(declared, r)) <==>
            !(EndOffset(r) == TotalSize(declared, r) < |s.media|)
  {
    TrimmingIsExact(s.media, r, client);
    var media := Appended(s.media, s.media, r);
    assert |media| == Max(|s.media|, EndOffset(r));
  }

  // ---- Whole uploads ----

  function Run(s: State, declared: nat, requests: seq<Request>): State {
    if requests == [] then s
    else Step(Run(s, declared, requests[..|requests| - 1]), declared, requests[|requests| - 1]).0
  }

  /** A request an honest client may send in this state; status queries and refused ones are free. */
  predicate Fair(s: State, declared: nat, r: Request, client: Bytes) {
    match r.range
    case NoHeader => s.media == [] && r.data == client
    case Malformed => true
    case Status(total) => total.Some? ==> total.value == |client|
    case Chunk(_, _, _) => Honest(r, client) && InPlace(s.media, r) && Truthful(declared, r, client)
  }

  /**
   Over any run of fair requests, with any faults: the media is a prefix of the client's object, it
   only grows, a complete upload holds the whole object, and instructions are taken from the front.
   */
  lemma {:induction false} UploadIsExact(s: State, declared: nat, requests: seq<Request>, client: Bytes)
    returns (taken: nat)
    requires s.media <= client && (s.complete ==> s.media == client)
    requires forall k :: 0 <= k < |requests| ==> Fair(Run(s, declared, requests[..k]), declared, requests[k], client)
    ensures var after := Run(s, declared, requests);
            && s.media <= after.media <= client
            && (after.complete ==> after.media == client)
            && taken <= |requests| && taken <= |s.queue| && after.queue == s.queue[taken..]
  {
    taken := 0;
    if requests != [] {
      var n := |requests| - 1;
      var before, r := Run(s, declared, requests[..n]), requests[n];
      assert forall k :: 0 <= k < n ==> requests[..n][..k] == requests[..k];
      taken := UploadIsExact(s, declared, requests[..n], client);
      assert Fair(before, declared, r, client);
      FairStep(before, declared, r, client);
      if Step(before, declared, r).0.queue != before.queue {
        taken := taken + 1;
      }
    }
  }

  lemma FairStep(s: State, declared: nat, r: Request, client: Bytes)
    requires s.media <= client && (s.complete ==> s.media == client) && Fair(s, declared, r, client)
    ensures var after := Step(s, declared, r).0;
            && s.media <= after.media <= client
            && (after.complete ==> after.media == client)
            && (after.queue == s.queue || (s.queue != [] && after.queue == s.queue[1..]))
  {
    hide Honest, InPlace, Truthful, FaultOrStore;
    assert s.media == client[..|s.media|];
    if r.range.Chunk? && !s.complete
       && (r.contentLength.Some? ==> r.contentLength.value == |r.data|)
       && !(UploadLength(declared, r) != 0 && UploadLength(declared, r) != TotalSize(declared, r)) {
      FairChunk(s, declared, r, client);
    }
  }

  lemma FairChunk(s: State, declared: nat, r: Request, client: Bytes)
    requires s.media <= client && !s.complete && r.range.Chunk? && Fair(s, declared, r, client)
    requires r.contentLength.Some? ==> r.contentLength.value == |r.data|
    requires !(UploadLength(declared, r) != 0 && UploadLength(declared, r) != TotalSize(declared, r))
    ensures var after := Step(s, declared, r).0;
            && s.media <= after.media <= client
            && (after.complete ==> after.media == client)
            && (after.queue == s.queue || (s.queue != [] && after.queue == s.queue[1..]))
  {
    hide Step, InPlace;
    ChunkIsExact(s, declared, r, client);
    assert s.media == client[..|s.media|];
  }
}
