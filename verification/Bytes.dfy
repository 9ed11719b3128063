/**
 Byte strings and the two integer readings of them. Shifts and masks by whole
 numbers of bits appear as division and remainder by powers of two.
 */
module Bytes {
  type Byte = b: int | 0 <= b < 256
  type Data = seq<Byte>

  function Power(base: nat, exponent: nat): (r: nat)
    ensures base > 0 ==> r > 0
  {
    if exponent == 0 then 1 else base * Power(base, exponent - 1)
  }

  /** The number whose base-256 digits, least significant first, are `bytes`. */
  function FromLittleEndian(bytes: Data): nat {
    if bytes == [] then 0 else bytes[0] + 256 * FromLittleEndian(bytes[1..])
  }

  function ToLittleEndian(value: nat, size: nat): (r: Data)
    ensures |r| == size
  {
    if size == 0 then [] else [value % 256] + ToLittleEndian(value / 256, size - 1)
  }

  lemma {:induction false} LittleEndianReadsBack(value: nat, size: nat)
    requires value < Power(256, size)
    ensures FromLittleEndian(ToLittleEndian(value, size)) == value
  {
    if size > 0 {
      assert value / 256 < Power(256, size - 1);
      LittleEndianReadsBack(value / 256, size - 1);
      assert ToLittleEndian(value, size)[1..] == ToLittleEndian(value / 256, size - 1);
    }
  }

  lemma {:induction false} LittleEndianWritesBack(bytes: Data)
    ensures FromLittleEndian(bytes) < Power(256, |bytes|)
    ensures ToLittleEndian(FromLittleEndian(bytes), |bytes|) == bytes
  {
    if bytes != [] {
      LittleEndianWritesBack(bytes[1..]);
      assert bytes == [bytes[0]] + bytes[1..];
    }
  }

  /** The number whose base-256 digits, most significant first, are `bytes`. */
  function FromBigEndian(bytes: Data): nat {
    if bytes == [] then 0
    else FromBigEndian(bytes[..|bytes| - 1]) * 256 + bytes[|bytes| - 1]
  }

  function ToBigEndian(value: nat, size: nat): (r: Data)
    ensures |r| == size
  {
    if size == 0 then [] else ToBigEndian(value / 256, size - 1) + [value % 256]
  }

  lemma {:induction false} BigEndianWritesBack(bytes: Data)
    ensures ToBigEndian(FromBigEndian(bytes), |bytes|) == bytes
  {
    if bytes != [] {
      var n := |bytes| - 1;
      BigEndianWritesBack(bytes[..n]);
      assert bytes == bytes[..n] + [bytes[n]];
    }
  }

  lemma {:induction false} BigEndianBelow(bytes: Data)
    ensures FromBigEndian(bytes) < Power(256, |bytes|)
  {
    if bytes != [] {
      BigEndianBelow(bytes[..|bytes| - 1]);
    }
  }
}
