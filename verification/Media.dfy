/**
 The two backends of an object's bytes: a buffer in memory, and a file (testbench/media.py,
 testbench/filemedia.py). Both answer like the plain byte string they stand for.
 */
module Media {

  import opened Bytes
  import opened Checksums

  /** `io.BytesIO`: its own copy and its own position. */
  class BytesReader {
    const bytes: Bytes
    var pos: nat

    constructor (bytes: Bytes)
      ensures this.bytes == bytes && pos == 0
    {
      this.bytes, this.pos := bytes, 0;
    }

    method Read(length: nat) returns (data: Bytes)
      requires pos <= |bytes|
      modifies this
      ensures data == Slice(bytes, old(pos), old(pos) + length) && pos == old(pos) + |data| && pos <= |bytes|
    {
      data := Slice(bytes, pos, pos + length);
      pos := pos + |data|;
    }
  }

  class BytesMedia {
    var buf: Bytes
    var crc: bv32
    var fed: Bytes  // what the rolling MD5 was fed

    ghost predicate Valid()
      reads this
    {
      crc == Crc32c(buf, 0) && fed == buf
    }

    ghost function Contents(): Bytes
      reads this
    {
      buf
    }

    constructor (initial: Bytes)
      ensures Valid() && Contents() == initial
    {
      buf, crc, fed := initial, Crc32c(initial, 0), initial;
    }

    method Append(data: Bytes)
      requires Valid()
      modifies this
      ensures Valid() && Contents() == old(Contents()) + data
    {
      Crc32cChains(buf, data, 0);
      buf := buf + data;
      crc := Crc32c(data, crc);
      fed := fed + data;
    }

    method GetSlice(begin: int, end: int) returns (r: Bytes)
      ensures r == Slice(Contents(), begin, end)
    {
      r := Slice(buf, begin, end);
    }

    method GetChunks(begin: nat, end: nat, size: int) returns (chunks: seq<Bytes>)
      requires size > 0
      ensures chunks == Chunks(Contents(), begin, end, size)
    {
      chunks := [];
      var pos := begin;
      while pos < end
        invariant begin <= pos
        invariant chunks + Chunks(buf, pos, end, size) == Chunks(buf, begin, end, size)
        decreases end - pos
      {
        var stop := Min(pos + size, end);
        chunks := chunks + [Slice(buf, pos, stop)];
        pos := stop;
      }
    }

    /** A reader over a copy of the bytes there are. */
    method Reader() returns (reader: BytesReader)
      ensures fresh(reader) && reader.bytes == Contents() && reader.pos == 0
    {
      reader := new BytesReader(buf);
    }

    method GetCrc32c() returns (r: bv32)
      requires Valid()
      ensures r == Crc32c(Contents(), 0)
    {
      r := crc;
    }

    method GetMd5() returns (r: Md5)
      requires Valid()
      ensures r == Md5(Contents())
    {
      r := Md5(fed);
    }
  }
}
