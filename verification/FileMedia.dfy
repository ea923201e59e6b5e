/**
 Media backed by a file (testbench/filemedia.py): read at any offset through a descriptor, appended
 to while it is staged, then promoted or sealed. Names may change under it; its bytes do not.
 */
module FileMedia {

  import opened Bytes
  import opened Checksums
  import opened Pathing
  import opened Posix
  import opened Wrappers

  /** The rolling MD5 while media is staged, and the digest afterwards. */
  datatype Digester = Live(fed: Bytes) | Frozen(digest: Md5)

  /** The staging name and the descriptor that appends to it. */
  datatype Staging = Staging(place: Place, appendFd: Descriptor)

  /** The fields of a file-backed media. */
  datatype Handle = Handle(readFd: Descriptor, size: nat, crc: bv32, md5: Digester, staging: Option<Staging>)

  const READ_CHUNK := 1024 * 1024

  function DigestOf(d: Digester): Md5 {
    match d
    case Live(fed) => Md5(fed)
    case Frozen(digest) => digest
  }

  /** Rolling state that agrees with the bytes it stands for. */
  ghost predicate Rolling(h: Handle, bytes: Bytes) {
    h.size == |bytes| && h.crc == Crc32c(bytes, 0) && DigestOf(h.md5) == Md5(bytes) && (h.staging.Some? ==> h.md5.Live?)
  }

  /** The media's inode, read and appended through its own descriptors. */
  ghost predicate Holds(fs: Fs, h: Handle, inode: Inode) {
    && InodeOf(fs, h.readFd) == Some(inode) && inode < |fs.inodes| && fs.inodes[inode].Media?
    && (h.staging.Some? ==> h.staging.value.appendFd != h.readFd && InodeOf(fs, h.staging.value.appendFd) == Some(inode))
  }

  ghost predicate WellFormed(fs: Fs, h: Handle) {
    match InodeOf(fs, h.readFd)
    case None => false
    case Some(inode) => Holds(fs, h, inode) && Rolling(h, fs.inodes[inode].bytes)
  }

  ghost function BytesOf(fs: Fs, h: Handle): Bytes
    requires WellFormed(fs, h)
  {
    fs.inodes[InodeOf(fs, h.readFd).value].bytes
  }

  // ---- What each operation does to the file system and the fields ----

  function Stage(fs: Fs, place: Place): Outcome<(Fs, Handle)>
    requires place.path != []
  {
    var appender :- OpenAppend(fs, place);
    var reader :- Open(appender.0, place);
    Ok((reader.0, Handle(reader.1, 0, 0, Live([]), Some(Staging(place, appender.1)))))
  }

  function Grown(h: Handle, data: Bytes): Handle {
    h.(size := h.size + |data|, crc := Crc32c(data, h.crc),
       md5 := if h.md5.Live? then Live(h.md5.fed + data) else h.md5)
  }

  function AppendTo(fs: Fs, h: Handle, data: Bytes): Outcome<(Fs, Handle)> {
    if h.staging.None? then Fail(NotStaging)
    else
      var after :- Append(fs, h.staging.value.appendFd, data);
      Ok((after, Grown(h, data)))
  }

  function Sealed(h: Handle): Handle {
    h.(md5 := Frozen(DigestOf(h.md5)), staging := None)
  }

  /** Promote: the staging file is renamed onto the destination. Nothing to do twice. */
  function PromoteTo(fs: Fs, h: Handle, destination: Place): Outcome<(Fs, Handle)>
    requires destination.path != []
  {
    if h.staging.None? then Ok((fs, h))
    else
      var promoted :- Rename(Close(fs, h.staging.value.appendFd), h.staging.value.place, destination);
      Ok((promoted, Sealed(h)))
  }

  /** The destination becomes a second name of the file that is still growing. */
  function LinkTo(fs: Fs, h: Handle, destination: Place): Outcome<Fs>
    requires destination.path != []
  {
    if h.staging.None? then Fail(NotStaging) else Link(fs, h.staging.value.place, destination)
  }

  /** The end of an appendable object: the staging name goes, the destination stays. */
  function SealOff(fs: Fs, h: Handle): Outcome<(Fs, Handle)> {
    if h.staging.None? then Ok((fs, h))
    else
      var unlinked :- Unlink(Close(fs, h.staging.value.appendFd), h.staging.value.place);
      Ok((unlinked, Sealed(h)))
  }

  /** Hydration: trust the recorded checksums, do not read the file. */
  function FromExisting(readFd: Descriptor, size: nat, crc: bv32, md5: Md5): Handle {
    Handle(readFd, size, crc, Frozen(md5), None)
  }

  // ---- The bytes behind a media are its own ----

  /** A staging name that is taken gives a sound media exactly if its file is empty. */
  lemma StagedValid(fs: Fs, place: Place)
    requires place.path != []
    ensures var r := Stage(fs, place);
            r.Ok? ==>
              && (WellFormed(r.value.0, r.value.1) <==> FileAt(fs, place).None? || ContentAt(fs, place) == Some(Posix.Content.Media([])))
              && (WellFormed(r.value.0, r.value.1) ==> BytesOf(r.value.0, r.value.1) == [])
  {
    Crc32cOfNothing(0);
  }

  lemma GrownRolls(h: Handle, bytes: Bytes, data: Bytes)
    requires Rolling(h, bytes)
    ensures h.md5.Live? ==> Rolling(Grown(h, data), bytes + data)
  {
    Crc32cChains(bytes, data, 0);
  }

  /** Appending to a staged media adds exactly the data, and touches no other inode. */
  lemma AppendAdds(fs: Fs, h: Handle, data: Bytes)
    requires WellFormed(fs, h) && h.staging.Some?
    ensures AppendTo(fs, h, data).Ok?
    ensures var (after, grown) := AppendTo(fs, h, data).value;
            && WellFormed(after, grown) && BytesOf(after, grown) == BytesOf(fs, h) + data
            && after == fs.(inodes := after.inodes) && |after.inodes| == |fs.inodes|
            && forall i :: 0 <= i < |fs.inodes| && Some(i) != InodeOf(fs, h.readFd) ==> after.inodes[i] == fs.inodes[i]
  {
    GrownRolls(h, BytesOf(fs, h), data);
  }

  /** A media keeps its bytes while its descriptors and the content of its inode stay. */
  lemma Unmoved(fs: Fs, after: Fs, h: Handle)
    requires WellFormed(fs, h)
    requires InodeOf(after, h.readFd) == InodeOf(fs, h.readFd)
    requires h.staging.Some? ==> InodeOf(after, h.staging.value.appendFd) == InodeOf(fs, h.staging.value.appendFd)
    requires var i := InodeOf(fs, h.readFd).value; i < |after.inodes| && after.inodes[i] == fs.inodes[i]
    ensures WellFormed(after, h) && BytesOf(after, h) == BytesOf(fs, h)
  {
  }

  /** Renaming, linking and unlinking are about names only. */
  lemma NamesOnly(fs: Fs, source: Place, destination: Place)
    requires destination.path != []
    ensures var r := Rename(fs, source, destination);
            r.Ok? ==> r.value.inodes == fs.inodes && r.value.descriptors == fs.descriptors
    ensures var r := Link(fs, source, destination);
            r.Ok? ==> r.value.inodes == fs.inodes && r.value.descriptors == fs.descriptors
    ensures var r := Unlink(fs, source);
            r.Ok? ==> r.value.inodes == fs.inodes && r.value.descriptors == fs.descriptors
  {
  }

  /** Promotion and sealing end the growth and keep every byte. */
  lemma EndsKeepBytes(fs: Fs, h: Handle, destination: Place)
    requires WellFormed(fs, h) && destination.path != []
    ensures var r := PromoteTo(fs, h, destination);
            r.Ok? ==> WellFormed(r.value.0, r.value.1) && BytesOf(r.value.0, r.value.1) == BytesOf(fs, h)
                      && r.value.1.staging.None?
    ensures var r := SealOff(fs, h);
            r.Ok? ==> WellFormed(r.value.0, r.value.1) && BytesOf(r.value.0, r.value.1) == BytesOf(fs, h)
                      && r.value.1.staging.None?
  {
    if h.staging.Some? {
      var closed := Close(fs, h.staging.value.appendFd);
      NamesOnly(closed, h.staging.value.place, destination);
      assert Rolling(Sealed(h), BytesOf(fs, h));
    }
  }

  // ---- Reading ----

  /** Every chunk of the range starts within the `n` bytes there are, or right behind them. */
  predicate StartsWithin(begin: int, end: int, size: int, n: int)
    requires size > 0
    decreases end - begin
  {
    begin >= end || (begin <= n && StartsWithin(Min(begin + size, end), end, size, n))
  }

  lemma OneChunkOn(rest: nat, size: int)
    requires size > 0
    ensures (rest + size) / size * size == rest / size * size + size
    ensures rest / size * size >= 0
  {
    DivUnique(rest + size, size, rest / size + 1);
    MulMono(0, rest / size, size);
    assert (rest / size + 1) * size == rest / size * size + size;
  }

  /** The last chunk decides. */
  lemma {:induction false} LastChunkDecides(begin: int, end: int, size: int, n: int)
    requires size > 0 && begin < end
    ensures StartsWithin(begin, end, size, n) <==> begin + (end - begin - 1) / size * size <= n
    decreases end - begin
  {
    if begin + size < end {
      LastChunkDecides(begin + size, end, size, n);
      OneChunkOn(end - begin - size - 1, size);
    } else {
      DivUnique(end - begin - 1, size, 0);
      assert Min(begin + size, end) >= end;
    }
  }

  lemma ChunkStep(chunks: seq<Bytes>, all: Bytes, pos: int, end: int, size: int)
    requires size > 0 && 0 <= pos < end
    ensures var stop := Min(pos + size, end);
            chunks + Chunks(all, pos, end, size) == chunks + [Slice(all, pos, stop)] + Chunks(all, stop, end, size)
  {
    var stop := Min(pos + size, end);
    assert chunks + ([Slice(all, pos, stop)] + Chunks(all, stop, end, size)) ==
           chunks + [Slice(all, pos, stop)] + Chunks(all, stop, end, size);
  }

  /** The checksums of a file in one pass of bounded reads: what a single computation would give. */
  method Recompute(fs: Fs, readFd: Descriptor) returns (h: Handle)
    requires match InodeOf(fs, readFd) case None => false case Some(i) => i < |fs.inodes| && fs.inodes[i].Media?
    ensures WellFormed(fs, h) && h.readFd == readFd && h.staging.None?
  {
    var bytes := fs.inodes[InodeOf(fs, readFd).value].bytes;
    var size := |bytes|;
    var crc: bv32, fed: Bytes, off := 0, [], 0;
    Crc32cOfNothing(0);
    while off < size
      invariant 0 <= off <= size && fed == bytes[..off] && crc == Crc32c(fed, 0)
    {
      var buf := Pread(fs, readFd, Min(READ_CHUNK, size - off), off).value;
      assert bytes[..off] + buf == bytes[..off + |buf|];
      crc := Continue(fed, crc, buf);
      fed := fed + buf;
      off := off + |buf|;
    }
    assert bytes[..size] == bytes;
    h := Handle(readFd, size, crc, Frozen(Md5(fed)), None);
  }

  method Continue(fed: Bytes, crc: bv32, buf: Bytes) returns (r: bv32)
    requires crc == Crc32c(fed, 0)
    ensures r == Crc32c(fed + buf, 0)
  {
    Crc32cChains(fed, buf, 0);
    r := Crc32c(buf, crc);
  }

  /** The one file system all media share. */
  class Disk {
    var fs: Fs

    constructor (fs: Fs)
      ensures this.fs == fs
    {
      this.fs := fs;
    }
  }

  /** A reader with its own position over a media's descriptor. */
  class PreadReader {
    const disk: Disk
    const readFd: Descriptor
    const size: nat
    var pos: nat

    /** The bytes the file held when the reader was made; it may have grown since. */
    ghost predicate Over(bytes: Bytes)
      reads this, disk
    {
      && size == |bytes| && pos <= size
      && match InodeOf(disk.fs, readFd) case None => false
         case Some(i) => i < |disk.fs.inodes| && disk.fs.inodes[i].Media? && bytes <= disk.fs.inodes[i].bytes
    }

    constructor (disk: Disk, readFd: Descriptor, size: nat)
      ensures pos == 0 && this.disk == disk && this.readFd == readFd && this.size == size
    {
      this.disk, this.readFd, this.size, this.pos := disk, readFd, size, 0;
    }

    method ReadInto(length: nat, ghost bytes: Bytes) returns (data: Bytes)
      requires Over(bytes)
      modifies this
      ensures Over(bytes)
      ensures data == Slice(bytes, old(pos), old(pos) + length) && pos == old(pos) + |data|
    {
      if pos >= size {
        return [];
      }
      data := Pread(disk.fs, readFd, Min(length, size - pos), pos).value;
      pos := pos + |data|;
    }
  }

  /** Reading to the end, by any positive amounts, gives the whole media. */
  method Drain(disk: Disk, h: Handle, length: nat) returns (data: Bytes)
    requires WellFormed(disk.fs, h) && length > 0
    ensures data == BytesOf(disk.fs, h)
  {
    ghost var bytes := BytesOf(disk.fs, h);
    var reader := new PreadReader(disk, h.readFd, h.size);
    data := [];
    while reader.pos < reader.size
      invariant reader.Over(bytes) && reader.size == |bytes| && data == bytes[..reader.pos]
      decreases |bytes| - reader.pos
    {
      var more := reader.ReadInto(length, bytes);
      data := data + more;
    }
    assert bytes[..|bytes|] == bytes;
  }

  /** An over-long read is cut at the end of the media. */
  lemma ClampedRead(bytes: Bytes, begin: nat, end: int)
    ensures end <= begin || bytes == [] ==> Slice(bytes, begin, Max(begin, end)) == []
    ensures begin < end && begin <= |bytes| ==>
              Slice(bytes, begin, begin + (Min(end, |bytes|) - begin)) == Slice(bytes, begin, Max(begin, end))
  {
  }

  // ---- The class, with the contracts of the in-memory media ----

  class FileMedia {
    const disk: Disk
    var handle: Handle

    ghost predicate Valid()
      reads this, disk
    {
      WellFormed(disk.fs, handle)
    }

    ghost function Contents(): Bytes
      reads this, disk
      requires Valid()
    {
      BytesOf(disk.fs, handle)
    }

    /** Open an existing file and compute its checksums in one bounded pass. */
    constructor FromPath(disk: Disk, place: Place, readFd: Descriptor)
      requires match InodeOf(disk.fs, readFd) case None => false
                     case Some(i) => i < |disk.fs.inodes| && disk.fs.inodes[i].Media?
      ensures Valid() && handle.staging.None?
      ensures this.disk == disk && InodeOf(disk.fs, handle.readFd) == InodeOf(disk.fs, readFd)
    {
      this.disk := disk;
      var recomputed := Recompute(disk.fs, readFd);
      this.handle := recomputed;
    }

    constructor (disk: Disk, handle: Handle)
      ensures this.disk == disk && this.handle == handle
    {
      this.disk, this.handle := disk, handle;
    }

    static method NewStaging(disk: Disk, place: Place) returns (r: Outcome<FileMedia>)
      requires place.path != []
      modifies disk
      ensures r.Ok? == Stage(old(disk.fs), place).Ok?
      ensures r.Ok? ==> (disk.fs, r.value.handle) == Stage(old(disk.fs), place).value
      ensures r.Ok? ==> fresh(r.value) && r.value.disk == disk
      ensures r.Ok? ==> (r.value.Valid() <==> FileAt(old(disk.fs), place).None? || ContentAt(old(disk.fs), place) == Some(Posix.Content.Media([])))
      ensures r.Ok? && r.value.Valid() ==> r.value.Contents() == []
    {
      StagedValid(disk.fs, place);
      var appender := OpenAppend(disk.fs, place);
      if appender.Fail? {
        return Fail(appender.error);
      }
      disk.fs := appender.value.0;
      var reader := Open(disk.fs, place);
      if reader.Fail? {
        return Fail(reader.error);
      }
      disk.fs := reader.value.0;
      var media := new FileMedia(disk, Handle(reader.value.1, 0, 0, Live([]), Some(Staging(place, appender.value.1))));
      return Ok(media);
    }

    method Append(data: Bytes) returns (r: Outcome<()>)
      requires Valid()
      modifies this, disk
      ensures Valid()
      ensures r.Ok? <==> old(handle).staging.Some?
      ensures r.Ok? ==> Contents() == old(Contents()) + data && handle.staging == old(handle).staging
      ensures handle.readFd == old(handle).readFd
      ensures r.Fail? ==> Contents() == old(Contents()) && r.error == NotStaging
    {
      if handle.staging.None? {
        return Fail(NotStaging);
      }
      AppendAdds(disk.fs, handle, data);
      disk.fs := Posix.Append(disk.fs, handle.staging.value.appendFd, data).value;
      handle := Grown(handle, data);
      return Ok(());
    }

    method Finalize(destination: Place) returns (r: Outcome<()>)
      requires Valid() && destination.path != []
      modifies this, disk
      ensures r.Ok? == PromoteTo(old(disk.fs), old(handle), destination).Ok?
      ensures r.Ok? ==> (disk.fs, handle) == PromoteTo(old(disk.fs), old(handle), destination).value
      ensures r.Ok? ==> Valid() && handle.staging.None? && Contents() == old(Contents())
    {
      EndsKeepBytes(disk.fs, handle, destination);
      if handle.staging.None? {
        return Ok(());
      }
      disk.fs := Close(disk.fs, handle.staging.value.appendFd);
      var promoted := Rename(disk.fs, handle.staging.value.place, destination);
      if promoted.Fail? {
        return Fail(promoted.error);
      }
      disk.fs := promoted.value;
      handle := Sealed(handle);
      return Ok(());
    }

    method LinkInto(destination: Place) returns (r: Outcome<()>)
      requires Valid() && destination.path != []
      modifies disk
      ensures Valid() && Contents() == old(Contents())
      ensures r.Ok? == LinkTo(old(disk.fs), handle, destination).Ok?
      ensures disk.fs == if r.Ok? then LinkTo(old(disk.fs), handle, destination).value else old(disk.fs)
    {
      if handle.staging.None? {
        return Fail(NotStaging);
      }
      NamesOnly(disk.fs, handle.staging.value.place, destination);
      var linked := Link(disk.fs, handle.staging.value.place, destination);
      if linked.Fail? {
        return Fail(linked.error);
      }
      disk.fs := linked.value;
      return Ok(());
    }

    method Seal() returns (r: Outcome<()>)
      requires Valid()
      modifies this, disk
      ensures r.Ok? == SealOff(old(disk.fs), old(handle)).Ok?
      ensures r.Ok? ==> (disk.fs, handle) == SealOff(old(disk.fs), old(handle)).value
      ensures r.Ok? ==> Valid() && handle.staging.None? && Contents() == old(Contents())
    {
      EndsKeepBytes(disk.fs, handle, Place("", [GCS]));
      if handle.staging.None? {
        return Ok(());
      }
      disk.fs := Close(disk.fs, handle.staging.value.appendFd);
      var unlinked := Unlink(disk.fs, handle.staging.value.place);
      if unlinked.Fail? {
        return Fail(unlinked.error);
      }
      disk.fs := unlinked.value;
      handle := Sealed(handle);
      return Ok(());
    }

    /** `_pread`: an empty range asks for nothing; a range that starts past the end cannot be asked for. */
    method ReadAt(begin: nat, end: int) returns (r: Outcome<Bytes>)
      requires Valid()
      ensures r == if begin < end && 0 < |Contents()| < begin then Fail(InvalidLength)
                   else Ok(Slice(Contents(), begin, Max(begin, end)))
    {
      ClampedRead(Contents(), begin, end);
      if end <= begin || handle.size == 0 {
        return Ok([]);
      }
      var length := Min(end, handle.size) - begin;
      if length < 0 {
        return Fail(InvalidLength);
      }
      r := Pread(disk.fs, handle.readFd, length, begin);
    }

    method GetSlice(begin: int, end: int) returns (r: Outcome<Bytes>)
      requires Valid()
      ensures r == Ok(Slice(Contents(), begin, end))
    {
      r := ReadAt(Bound(begin, handle.size), Bound(end, handle.size));
    }

    /** The chunks of the in-memory media, as long as no chunk starts past the end. */
    method GetChunks(begin: nat, end: nat, size: int) returns (r: Outcome<seq<Bytes>>)
      requires Valid() && size > 0
      ensures r == if Contents() == [] || StartsWithin(begin, end, size, |Contents()|)
                   then Ok(Chunks(Contents(), begin, end, size)) else Fail(InvalidLength)
    {
      var chunks: seq<Bytes> := [];
      ghost var all, n := Contents(), |Contents()|;
      var pos := begin;
      while pos < end
        invariant begin <= pos
        invariant chunks + Chunks(all, pos, end, size) == Chunks(all, begin, end, size)
        invariant n == 0 || StartsWithin(begin, end, size, n) == StartsWithin(pos, end, size, n)
        decreases end - pos
      {
        var stop := Min(pos + size, end);
        var chunk := ReadAt(pos, stop);
        if chunk.Fail? {
          return Fail(chunk.error);
        }
        ChunkStep(chunks, all, pos, end, size);
        chunks := chunks + [chunk.value];
        pos := stop;
      }
      assert chunks + [] == chunks;
      return Ok(chunks);
    }

    /** A reader with its own position, over the bytes there are now. */
    method Reader() returns (reader: PreadReader)
      requires Valid()
      ensures fresh(reader) && reader.disk == disk && reader.readFd == handle.readFd
      ensures reader.size == |Contents()| && reader.pos == 0 && reader.Over(Contents())
    {
      reader := new PreadReader(disk, handle.readFd, handle.size);
    }

    method GetCrc32c() returns (r: bv32)
      requires Valid()
      ensures r == Crc32c(Contents(), 0)
    {
      r := handle.crc;
    }

    method GetMd5() returns (r: Md5)
      requires Valid()
      ensures r == Md5(Contents())
    {
      r := DigestOf(handle.md5);
    }
  }
}
