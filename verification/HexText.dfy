/** Bytes as hex text of either case, and what a signature is in it. */
module HexText {
  import opened Wrappers
  import opened Bytes
  import opened JsonText

  predicate IsHexUnit(u: CodeUnit) {
    0x30 <= u <= 0x39 || 0x41 <= u <= 0x46 || 0x61 <= u <= 0x66
  }

  function Nibble(u: CodeUnit): (r: nat)
    requires IsHexUnit(u)
    ensures r < 16
  {
    if u <= 0x39 then u - 0x30 else if u <= 0x46 then u - 0x37 else u - 0x57
  }

  function Hex(data: Data): (r: Text)
    ensures |r| == 2 * |data|
    ensures forall i :: 0 <= i < |r| ==> IsHexUnit(r[i])
  {
    if data == [] then [] else [HexDigit(data[0] as int / 16), HexDigit(data[0] as int % 16)] + Hex(data[1..])
  }

  function Unhex(text: Text): (r: Data)
    requires |text| % 2 == 0 && forall i :: 0 <= i < |text| ==> IsHexUnit(text[i])
    ensures 2 * |r| == |text|
  {
    if text == [] then [] else [(16 * Nibble(text[0]) + Nibble(text[1])) as Byte] + Unhex(text[2..])
  }

  lemma {:induction false} HexReadsBack(data: Data)
    ensures Unhex(Hex(data)) == data
  {
    if data != [] {
      HexReadsBack(data[1..]);
      assert Hex(data)[2..] == Hex(data[1..]);
    }
  }

  /** `toLowerCase`, where it matters: on the letters hex text may hold. */
  function Lower(text: Text): (r: Text)
    ensures |r| == |text|
  {
    seq(|text|, i requires 0 <= i < |text| => LowerUnit(text[i]))
  }

  function LowerUnit(u: CodeUnit): CodeUnit {
    if 0x41 <= u <= 0x5a then u + 0x20 else u
  }

  lemma {:induction false} LowerKeepsHex(text: Text)
    ensures forall i :: 0 <= i < |text| ==> (IsHexUnit(Lower(text)[i]) <==> IsHexUnit(text[i]))
    ensures Lower(Lower(text)) == Lower(text)
  {
  }

  lemma {:induction false} NibbleDigit(u: CodeUnit)
    requires IsHexUnit(u)
    ensures HexDigit(Nibble(u)) == LowerUnit(u)
  {
  }

  lemma {:induction false} LowerFirstTwo(text: Text)
    requires |text| >= 2
    ensures Lower(text) == [LowerUnit(text[0]), LowerUnit(text[1])] + Lower(text[2..])
  {
  }

  lemma {:induction false} HexOfByte(high: nat, low: nat, rest: Data)
    requires high < 16 && low < 16
    ensures Hex([(16 * high + low) as Byte] + rest) == [HexDigit(high), HexDigit(low)] + Hex(rest)
  {
    var b := 16 * high + low;
    assert b / 16 == high && b % 16 == low;
    assert ([b as Byte] + rest)[1..] == rest;
  }

  /** Hex text is, in lower case, the hex of the bytes it reads as. */
  lemma {:induction false} HexWritesBack(text: Text)
    requires |text| % 2 == 0 && forall i :: 0 <= i < |text| ==> IsHexUnit(text[i])
    ensures Hex(Unhex(text)) == Lower(text)
  {
    if text != [] {
      var rest := text[2..];
      HexWritesBack(rest);
      NibbleDigit(text[0]);
      NibbleDigit(text[1]);
      LowerFirstTwo(text);
      HexOfByte(Nibble(text[0]), Nibble(text[1]), Unhex(rest));
    }
  }

  lemma {:induction false} LastByte(text: Text)
    requires text != [] && |text| % 2 == 0 && forall i :: 0 <= i < |text| ==> IsHexUnit(text[i])
    ensures var bytes, n := Unhex(text), |text|;
            bytes[|bytes| - 1] == 16 * Nibble(text[n - 2]) + Nibble(text[n - 1])
  {
    if |text| > 2 {
      LastByte(text[2..]);
      assert Unhex(text)[1..] == Unhex(text[2..]);
    }
  }

  // ----- signatures -----------------------------------------------------------

  /** Hex digits that end in 01, the code for signing everything. */
  predicate ValidSignature(v: Json) {
    && v.Str? && v.text != [] && |v.text| % 2 == 0
    && (forall i :: 0 <= i < |v.text| ==> IsHexUnit(v.text[i]))
    && v.text[|v.text| - 2] == 0x30 && v.text[|v.text| - 1] == 0x31
  }

  /** The value is the text, in either case, of bytes of which the last is 1. */
  ghost predicate IsSignature(v: Json) {
    v.Str? && exists bytes: Data :: bytes != [] && bytes[|bytes| - 1] == 1 && Lower(v.text) == Hex(bytes)
  }

  /** The check accepts exactly such texts. */
  lemma {:induction false} SignaturesAre(v: Json)
    ensures ValidSignature(v) <==> IsSignature(v)
  {
    if ValidSignature(v) {
      var bytes := ReadsTo(v.text);
    }
    if v.Str? {
      forall bytes: Data | bytes != [] && bytes[|bytes| - 1] == 1 && Lower(v.text) == Hex(bytes)
        ensures ValidSignature(v)
      {
        SpeltBy(v.text, bytes);
      }
    }
  }

  lemma {:induction false} ReadsTo(text: Text) returns (bytes: Data)
    requires ValidSignature(Str(text))
    ensures bytes != [] && bytes[|bytes| - 1] == 1 && Lower(text) == Hex(bytes)
  {
    bytes := Unhex(text);
    HexWritesBack(text);
    LastByte(text);
  }

  lemma {:induction false} SpeltBy(text: Text, bytes: Data)
    requires bytes != [] && bytes[|bytes| - 1] == 1 && Lower(text) == Hex(bytes)
    ensures ValidSignature(Str(text))
  {
    HexEnds(bytes);
    var n := |text|;
    assert LowerUnit(text[n - 2]) == 0x30 && LowerUnit(text[n - 1]) == 0x31;
    forall i | 0 <= i < n
      ensures IsHexUnit(text[i])
    {
      assert Lower(text)[i] == Hex(bytes)[i];
    }
  }

  lemma {:induction false} HexEnds(bytes: Data)
    requires bytes != []
    ensures var text, last := Hex(bytes), bytes[|bytes| - 1];
            text[|text| - 2] == HexDigit(last / 16) && text[|text| - 1] == HexDigit(last % 16)
  {
    if |bytes| > 1 {
      HexEnds(bytes[1..]);
      assert Hex(bytes)[2..] == Hex(bytes[1..]);
    }
  }
}
