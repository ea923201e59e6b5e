/** Any conversation with a media and its readers: the file-backed one answers like the in-memory one. */
module MediaRuns {

  import opened Bytes
  import opened Checksums
  import opened FileMedia
  import opened Media

  /** A reader stays open: the media may grow before it is read again. */
  datatype Request =
    | Append(data: Bytes)
    | ReadSlice(begin: int, end: int)
    | ReadChunks(start: nat, stop: nat, size: int)
    | OpenReader
    | ReadFrom(reader: nat, length: nat)
    | GetCrc
    | GetMd5

  datatype Reply = Done | Data(data: Bytes) | Pieces(pieces: seq<Bytes>) | Crc(crc: bv32) | Digest(md5: Md5)

  /** A reader as its user sees it: the bytes there were when it was opened, and a position. */
  datatype Cursor = Cursor(bytes: Bytes, pos: nat)

  /** What the callers keep to: chunked reads stay within the bytes there are, and readers are opened first. */
  predicate Fair(request: Request, n: nat, readers: nat) {
    match request
    case ReadChunks(_, end, size) => size > 0 && end <= n
    case ReadFrom(k, _) => k < readers
    case _ => true
  }

  predicate AllFair(requests: seq<Request>, n: nat, readers: nat)
    decreases |requests|
  {
    requests == [] ||
    (Fair(requests[0], n, readers) &&
     AllFair(requests[1..], n + if requests[0].Append? then |requests[0].data| else 0, readers + if requests[0].OpenReader? then 1 else 0))
  }

  /** Fair requests stay fair, one by one. */
  lemma FairOn(requests: seq<Request>, k: nat, n: nat, cursors: seq<Cursor>, contents: Bytes)
    requires k < |requests| && AllFair(requests[k..], n, |cursors|) && n == |contents|
    ensures Fair(requests[k], n, |cursors|)
    ensures var request := requests[k];
            AllFair(requests[k + 1..], n + if request.Append? then |request.data| else 0, |Cursors(contents, cursors, request)|)
  {
    assert requests[k..][1..] == requests[k + 1..];
    hide Slice;
  }

  lemma WithinBounds(begin: nat, end: nat, size: int, n: nat)
    requires size > 0 && end <= n
    ensures StartsWithin(begin, end, size, n)
    decreases end - begin
  {
  }

  // ---- The plain byte string ----

  function Answer(contents: Bytes, cursors: seq<Cursor>, request: Request): Reply
    requires Fair(request, |contents|, |cursors|)
  {
    match request
    case Append(_) => Done
    case ReadSlice(begin, end) => Data(Slice(contents, begin, end))
    case ReadChunks(begin, end, size) => Pieces(Chunks(contents, begin, end, size))
    case OpenReader => Done
    case ReadFrom(k, length) => Data(Slice(cursors[k].bytes, cursors[k].pos, cursors[k].pos + length))
    case GetCrc => Crc(Crc32c(contents, 0))
    case GetMd5 => Digest(Md5(contents))
  }

  function Cursors(contents: Bytes, cursors: seq<Cursor>, request: Request): seq<Cursor>
    requires Fair(request, |contents|, |cursors|)
  {
    match request
    case OpenReader => cursors + [Cursor(contents, 0)]
    case ReadFrom(k, length) =>
      var read := Slice(cursors[k].bytes, cursors[k].pos, cursors[k].pos + length);
      cursors[k := cursors[k].(pos := cursors[k].pos + |read|)]
    case _ => cursors
  }

  // ---- The two backends ----

  ghost predicate InMemory(readers: seq<BytesReader>, cursors: seq<Cursor>)
    reads readers
  {
    && |readers| == |cursors|
    && (forall k :: 0 <= k < |readers| ==> Cursor(readers[k].bytes, readers[k].pos) == cursors[k] && cursors[k].pos <= |cursors[k].bytes|)
    && forall j, k :: 0 <= j < k < |readers| ==> readers[j] != readers[k]
  }

  method AskMemory(m: BytesMedia, readers: seq<BytesReader>, request: Request, ghost cursors: seq<Cursor>)
    returns (reply: Reply, opened_: seq<BytesReader>)
    requires m.Valid() && InMemory(readers, cursors) && Fair(request, |m.Contents()|, |readers|)
    modifies m, readers
    ensures m.Valid()
    ensures m.Contents() == old(m.Contents()) + if request.Append? then request.data else []
    ensures reply == Answer(old(m.Contents()), cursors, request)
    ensures InMemory(opened_, Cursors(old(m.Contents()), cursors, request))
    ensures forall k :: 0 <= k < |opened_| ==> fresh(opened_[k]) || opened_[k] in readers
  {
    hide Chunks, Crc32c, Bound;
    opened_ := readers;
    match request {
      case Append(data) =>
        m.Append(data);
        reply := Done;
      case ReadSlice(begin, end) =>
        var data := m.GetSlice(begin, end);
        reply := Data(data);
      case ReadChunks(begin, end, size) =>
        var pieces := m.GetChunks(begin, end, size);
        reply := Pieces(pieces);
      case OpenReader =>
        var reader := m.Reader();
        opened_ := readers + [reader];
        reply := Done;
      case ReadFrom(k, length) =>
        var data := readers[k].Read(length);
        reply := Data(data);
      case GetCrc =>
        var crc := m.GetCrc32c();
        reply := Crc(crc);
      case GetMd5 =>
        var md5 := m.GetMd5();
        reply := Digest(md5);
    }
  }

  /** Readers of this file, each over what it held when the reader was opened. */
  ghost predicate OnFile(f: FileMedia, readers: seq<PreadReader>, cursors: seq<Cursor>)
    reads f, f.disk, readers
    requires f.Valid()
  {
    && |readers| == |cursors|
    && (forall k :: 0 <= k < |readers| ==>
          && readers[k].disk == f.disk && readers[k].readFd == f.handle.readFd
          && readers[k].size == |cursors[k].bytes| && readers[k].pos == cursors[k].pos <= |cursors[k].bytes|
          && cursors[k].bytes <= f.Contents())
    && forall j, k :: 0 <= j < k < |readers| ==> readers[j] != readers[k]
  }

  lemma MoreBytes(cursors: seq<Cursor>, contents: Bytes, data: Bytes)
    requires forall k :: 0 <= k < |cursors| ==> cursors[k].bytes <= contents
    ensures forall k :: 0 <= k < |cursors| ==> cursors[k].bytes <= contents + data
  {
  }

  method AppendToFile(f: FileMedia, readers: seq<PreadReader>, data: Bytes, ghost cursors: seq<Cursor>)
    requires f.Valid() && f.handle.staging.Some? && OnFile(f, readers, cursors)
    modifies f, f.disk
    ensures f.Valid() && f.handle.staging.Some? && OnFile(f, readers, cursors)
    ensures f.Contents() == old(f.Contents()) + data
  {
    MoreBytes(cursors, f.Contents(), data);
    var _ := f.Append(data);
  }

  method ReadFromFile(f: FileMedia, readers: seq<PreadReader>, k: nat, length: nat, ghost cursors: seq<Cursor>)
    returns (data: Bytes)
    requires f.Valid() && OnFile(f, readers, cursors) && k < |readers|
    modifies readers
    ensures f.Valid()
    ensures data == Slice(cursors[k].bytes, cursors[k].pos, cursors[k].pos + length)
    ensures OnFile(f, readers, cursors[k := cursors[k].(pos := cursors[k].pos + |data|)])
  {
    data := readers[k].ReadInto(length, cursors[k].bytes);
  }

  method OpenOnFile(f: FileMedia, readers: seq<PreadReader>, ghost cursors: seq<Cursor>) returns (opened_: seq<PreadReader>)
    requires f.Valid() && OnFile(f, readers, cursors)
    ensures |opened_| == |readers| + 1 && opened_[..|readers|] == readers && fresh(opened_[|readers|])
    ensures OnFile(f, opened_, cursors + [Cursor(f.Contents(), 0)])
  {
    var reader := f.Reader();
    opened_ := readers + [reader];
  }

  method AskFile(f: FileMedia, readers: seq<PreadReader>, request: Request, ghost cursors: seq<Cursor>)
    returns (reply: Reply, opened_: seq<PreadReader>)
    requires f.Valid() && f.handle.staging.Some? && OnFile(f, readers, cursors) && Fair(request, |f.Contents()|, |readers|)
    modifies f, f.disk, readers
    ensures f.Valid() && f.handle.staging.Some?
    ensures f.Contents() == old(f.Contents()) + if request.Append? then request.data else []
    ensures reply == Answer(old(f.Contents()), cursors, request)
    ensures OnFile(f, opened_, Cursors(old(f.Contents()), cursors, request))
    ensures forall k :: 0 <= k < |opened_| ==> fresh(opened_[k]) || opened_[k] in readers
  {
    hide OnFile, Crc32c, Chunks, Slice, Concat;
    opened_ := readers;
    match request {
      case Append(data) =>
        AppendToFile(f, readers, data, cursors);
        reply := Done;
      case OpenReader =>
        opened_ := OpenOnFile(f, readers, cursors);
        reply := Done;
      case ReadFrom(k, length) =>
        var data := ReadFromFile(f, readers, k, length, cursors);
        reply := Data(data);
      case _ =>
        reply := AskBytes(f, request, cursors);
    }
  }

  /** The requests that only look at the bytes there are. */
  method AskBytes(f: FileMedia, request: Request, ghost cursors: seq<Cursor>) returns (reply: Reply)
    requires f.Valid() && Fair(request, |f.Contents()|, |cursors|)
    requires request.ReadSlice? || request.ReadChunks? || request.GetCrc? || request.GetMd5?
    ensures reply == Answer(f.Contents(), cursors, request)
  {
    match request {
      case ReadSlice(begin, end) =>
        var data := f.GetSlice(begin, end);
        reply := Data(data.value);
      case ReadChunks(begin, end, size) =>
        WithinBounds(begin, end, size, |f.Contents()|);
        var pieces := f.GetChunks(begin, end, size);
        reply := Pieces(pieces.value);
      case GetCrc =>
        var crc := f.GetCrc32c();
        reply := Crc(crc);
      case GetMd5 =>
        var md5 := f.GetMd5();
        reply := Digest(md5);
    }
  }

  /** The conversation so far: both media hold the same bytes, and their readers stand at the same places. */
  ghost predicate Alike(m: BytesMedia, f: FileMedia, here: seq<BytesReader>, there: seq<PreadReader>, cursors: seq<Cursor>)
    reads m, f, f.disk, here, there
  {
    && m.Valid() && f.Valid() && f.handle.staging.Some? && m.Contents() == f.Contents()
    && InMemory(here, cursors) && OnFile(f, there, cursors)
  }

  method AskBoth(m: BytesMedia, f: FileMedia, here: seq<BytesReader>, there: seq<PreadReader>, request: Request,
                 ghost cursors: seq<Cursor>)
    returns (reply: Reply, same: Reply, here': seq<BytesReader>, there': seq<PreadReader>)
    requires Alike(m, f, here, there, cursors) && Fair(request, |m.Contents()|, |cursors|)
    modifies m, f, f.disk, here, there
    ensures reply == same && m.Contents() == old(m.Contents()) + if request.Append? then request.data else []
    ensures Alike(m, f, here', there', Cursors(old(m.Contents()), cursors, request))
    ensures forall k :: 0 <= k < |here'| ==> fresh(here'[k]) || here'[k] in here
    ensures forall k :: 0 <= k < |there'| ==> fresh(there'[k]) || there'[k] in there
  {
    hide Answer, Cursors, Crc32c;
    reply, here' := AskMemory(m, here, request, cursors);
    same, there' := AskFile(f, there, request, cursors);
  }

  /**
   Two media that start alike answer every sequence of requests alike, readers that were opened before
   an append and are read after it included.
   */
  method Converse(m: BytesMedia, f: FileMedia, requests: seq<Request>)
    returns (memory: seq<Reply>, file: seq<Reply>)
    requires m.Valid() && f.Valid() && f.handle.staging.Some? && m.Contents() == f.Contents()
    requires AllFair(requests, |m.Contents()|, 0)
    modifies m, f, f.disk
    ensures |memory| == |requests| && memory == file
    ensures m.Valid() && f.Valid() && m.Contents() == f.Contents()
  {
    hide InMemory, OnFile, AllFair, Fair, Answer, Cursors, Crc32c;
    memory, file := [], [];
    var here: seq<BytesReader>, there: seq<PreadReader> := [], [];
    ghost var cursors: seq<Cursor> := [];
    NoReaders(m, f);
    for k := 0 to |requests|
      invariant Alike(m, f, here, there, cursors) && AllFair(requests[k..], |m.Contents()|, |cursors|)
      invariant (forall j :: 0 <= j < |here| ==> fresh(here[j])) && (forall j :: 0 <= j < |there| ==> fresh(there[j]))
      invariant |memory| == k && memory == file
    {
      FairOn(requests, k, |m.Contents()|, cursors, m.Contents());
      ghost var contents := m.Contents();
      var reply, same;
      reply, same, here, there := AskBoth(m, f, here, there, requests[k], cursors);
      memory := memory + [reply];
      file := file + [same];
      cursors := Cursors(contents, cursors, requests[k]);
    }
  }

  lemma NoReaders(m: BytesMedia, f: FileMedia)
    requires m.Valid() && f.Valid() && f.handle.staging.Some? && m.Contents() == f.Contents()
    ensures Alike(m, f, [], [], [])
  {
  }
}
