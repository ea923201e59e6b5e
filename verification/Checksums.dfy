/** The rolling checksums of media: CRC32C (section 12.1 of RFC 3720) and MD5. */
module Checksums {

  import opened Bytes

  /** The Castagnoli polynomial, bit-reflected. */
  const POLYNOMIAL: bv32 := 0x82F6_3B78
  const ALL_ONES: bv32 := 0xFFFF_FFFF

  function ShiftOut(register: bv32, bits: nat): bv32
    decreases bits
  {
    if bits == 0 then register
    else ShiftOut(if register & 1 == 1 then (register >> 1) ^ POLYNOMIAL else register >> 1, bits - 1)
  }

  function FeedByte(register: bv32, byte: Byte): bv32 {
    ShiftOut(register ^ (byte as bv32), 8)
  }

  function Feed(register: bv32, data: Bytes): bv32 {
    if data == [] then register
    else FeedByte(Feed(register, data[..|data| - 1]), data[|data| - 1])
  }

  function Complement(register: bv32): bv32 {
    register ^ ALL_ONES
  }

  /** `crc32c.crc32c(data, seed)`. */
  function Crc32c(data: Bytes, seed: bv32): bv32 {
    Complement(Feed(Complement(seed), data))
  }

  lemma DoubleComplement(x: bv32)
    ensures Complement(Complement(x)) == x
  {
  }

  lemma FeedSnoc(register: bv32, data: Bytes, byte: Byte)
    ensures Feed(register, data + [byte]) == FeedByte(Feed(register, data), byte)
  {
    hide FeedByte;
    assert (data + [byte])[..|data|] == data;
  }

  lemma {:induction false} FeedAppend(register: bv32, a: Bytes, b: Bytes)
    ensures Feed(register, a + b) == Feed(Feed(register, a), b)
  {
    if b == [] {
      assert a + b == a;
    } else {
      hide Feed, FeedByte;
      var init, last := b[..|b| - 1], b[|b| - 1];
      FeedAppend(register, a, init);
      FeedSnoc(register, a + init, last);
      FeedSnoc(Feed(register, a), init, last);
      assert a + b == a + init + [last] && b == init + [last];
    }
  }

  /** The chaining law: a checksum may be continued over more data. */
  lemma Crc32cChains(a: Bytes, b: Bytes, seed: bv32)
    ensures Crc32c(a + b, seed) == Crc32c(b, Crc32c(a, seed))
  {
    var start := Complement(seed);
    FeedAppend(start, a, b);
    DoubleComplement(Feed(start, a));
  }

  lemma Crc32cOfNothing(seed: bv32)
    ensures Crc32c([], seed) == seed
  {
    DoubleComplement(seed);
  }

  /** The check value of CRC32C: the checksum of the digits from 1 to 9. */
  lemma CheckValue()
    ensures Crc32c([0x31, 0x32, 0x33, 0x34, 0x35, 0x36, 0x37, 0x38, 0x39], 0) == 0xE306_9283
  {
    hide Feed, FeedByte;
    Digits();
    var digits: Bytes := [0x31, 0x32, 0x33, 0x34, 0x35, 0x36, 0x37, 0x38, 0x39];
    FeedNothing(ALL_ONES);
    FeedTo(digits, 0, 0xFFFF_FFFF, 0x6F0A_661C);
    FeedTo(digits, 1, 0x6F0A_661C, 0x8CAA_3B9F);
    FeedTo(digits, 2, 0x8CAA_3B9F, 0xEF84_D04D);
    FeedTo(digits, 3, 0xEF84_D04D, 0x09C5_0B11);
    FeedTo(digits, 4, 0x09C5_0B11, 0xE72E_DCCA);
    FeedTo(digits, 5, 0xE72E_DCCA, 0xBECA_8E79);
    FeedTo(digits, 6, 0xBECA_8E79, 0xEDBD_6815);
    FeedTo(digits, 7, 0xEDBD_6815, 0x9F78_7F65);
    FeedTo(digits, 8, 0x9F78_7F65, 0x1CF9_6D7C);
    assert digits[..9] == digits;
  }

  lemma Digits()
    ensures FeedByte(0xFFFF_FFFF, 0x31) == 0x6F0A_661C
    ensures FeedByte(0x6F0A_661C, 0x32) == 0x8CAA_3B9F
    ensures FeedByte(0x8CAA_3B9F, 0x33) == 0xEF84_D04D
    ensures FeedByte(0xEF84_D04D, 0x34) == 0x09C5_0B11
    ensures FeedByte(0x09C5_0B11, 0x35) == 0xE72E_DCCA
    ensures FeedByte(0xE72E_DCCA, 0x36) == 0xBECA_8E79
    ensures FeedByte(0xBECA_8E79, 0x37) == 0xEDBD_6815
    ensures FeedByte(0xEDBD_6815, 0x38) == 0x9F78_7F65
    ensures FeedByte(0x9F78_7F65, 0x39) == 0x1CF9_6D7C
  {
  }

  lemma FeedNothing(register: bv32)
    ensures Feed(register, []) == register
  {
  }

  lemma FeedTo(data: Bytes, n: nat, register: bv32, next: bv32)
    requires n < |data| && Feed(ALL_ONES, data[..n]) == register && FeedByte(register, data[n]) == next
    ensures Feed(ALL_ONES, data[..n + 1]) == next
  {
    hide FeedByte;
    FeedSnoc(ALL_ONES, data[..n], data[n]);
    assert data[..n + 1] == data[..n] + [data[n]];
  }

  /** An MD5 digest, taken to identify the bytes it was computed from. */
  datatype Md5 = Md5(of: Bytes)
}
