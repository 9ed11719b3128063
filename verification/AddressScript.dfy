/**
 From a Kaspa address to the pay-to-key script it names, by regrouping the
 5-bit characters of the address into bytes (backend/src/membership-contract.ts
 and the copy in backend/src/payment-gateway.ts).
 */
module AddressScript {
  import opened Wrappers
  import opened Bytes
  import opened MembershipContract

  const CHECKSUM_LENGTH := 8

  /** Version 0, push 32 bytes, the key, check signature: `000020..ac`. */
  function KeyScript(key: Key): Data {
    [0, 0, 0x20] + key + [0xac]
  }

  // ----- characters -----------------------------------------------------------

  /** Position of a character in "qpzry9x8gf2tvdw0s3jn54khce6mua7l", or -1. */
  function IndexInCharset(c: char): (r: int)
    ensures -1 <= r < 32
  {
    if c == 'q' then 0 else if c == 'p' then 1 else if c == 'z' then 2 else if c == 'r' then 3 else
    if c == 'y' then 4 else if c == '9' then 5 else if c == 'x' then 6 else if c == '8' then 7 else
    if c == 'g' then 8 else if c == 'f' then 9 else if c == '2' then 10 else if c == 't' then 11 else
    if c == 'v' then 12 else if c == 'd' then 13 else if c == 'w' then 14 else if c == '0' then 15 else
    if c == 's' then 16 else if c == '3' then 17 else if c == 'j' then 18 else if c == 'n' then 19 else
    if c == '5' then 20 else if c == '4' then 21 else if c == 'k' then 22 else if c == 'h' then 23 else
    if c == 'c' then 24 else if c == 'e' then 25 else if c == '6' then 26 else if c == 'm' then 27 else
    if c == 'u' then 28 else if c == 'a' then 29 else if c == '7' then 30 else if c == 'l' then 31 else -1
  }

  function CharsetAt(v: nat): char
    requires v < 32
  {
    if v == 0 then 'q' else if v == 1 then 'p' else if v == 2 then 'z' else if v == 3 then 'r' else
    if v == 4 then 'y' else if v == 5 then '9' else if v == 6 then 'x' else if v == 7 then '8' else
    if v == 8 then 'g' else if v == 9 then 'f' else if v == 10 then '2' else if v == 11 then 't' else
    if v == 12 then 'v' else if v == 13 then 'd' else if v == 14 then 'w' else if v == 15 then '0' else
    if v == 16 then 's' else if v == 17 then '3' else if v == 18 then 'j' else if v == 19 then 'n' else
    if v == 20 then '5' else if v == 21 then '4' else if v == 22 then 'k' else if v == 23 then 'h' else
    if v == 24 then 'c' else if v == 25 then 'e' else if v == 26 then '6' else if v == 27 then 'm' else
    if v == 28 then 'u' else if v == 29 then 'a' else if v == 30 then '7' else 'l'
  }

  lemma {:induction false} CharsetReadsBack(v: nat)
    requires v < 32
    ensures IndexInCharset(CharsetAt(v)) == v && CharsetAt(v) != ':'
  {
  }

  function LastIndexOf(text: string, c: char): (r: int)
    ensures -1 <= r < |text|
    ensures forall i :: r < i < |text| ==> text[i] != c
  {
    if text == "" then -1
    else if text[|text| - 1] == c then |text| - 1
    else LastIndexOf(text[..|text| - 1], c)
  }

  /** What stands between the prefix and the checksum. */
  function AddressData(address: string): string {
    var start, end := LastIndexOf(address, ':') + 1, |address| - CHECKSUM_LENGTH;
    if start >= end then "" else address[start..end]
  }

  predicate InCharset(data: string) {
    forall i :: 0 <= i < |data| ==> IndexInCharset(data[i]) >= 0
  }

  function Values(data: string): (r: seq<int>)
    ensures |r| == |data|
    ensures forall i :: 0 <= i < |r| ==> r[i] == IndexInCharset(data[i])
  {
    seq(|data|, i requires 0 <= i < |data| => IndexInCharset(data[i]))
  }

  // ----- the regrouping, one character at a time ------------------------------

  datatype Acc = Acc(buffer: int, bits: nat, bytes: Data)

  function Shift(bits: nat): (r: nat)
    ensures r > 0
  {
    if bits == 0 then 1 else 2 * Shift(bits - 1)
  }

  /**
   `(buffer << 5) | value`. The low five bits of the shifted buffer are clear,
   so the disjunction adds, except for -1, whose bits are all set.
   */
  function ShiftIn(buffer: int, value: int): int {
    if value == -1 then -1 else buffer * 32 + value
  }

  function Emit(acc: Acc): Acc
    requires acc.bits >= 8
  {
    var bits := acc.bits - 8;
    Acc(acc.buffer % Shift(bits), bits, acc.bytes + [(acc.buffer / Shift(bits)) % 256])
  }

  function Settle(acc: Acc): Acc {
    if acc.bits >= 8 then Emit(acc) else acc
  }

  /** One character moves the bit count by five, so it completes one byte at most. */
  function Absorb(acc: Acc, value: int): Acc {
    Settle(Acc(ShiftIn(acc.buffer, value), acc.bits + 5, acc.bytes))
  }

  function Regroup(values: seq<int>): (acc: Acc) {
    if values == [] then Acc(0, 0, [])
    else Absorb(Regroup(values[..|values| - 1]), values[|values| - 1])
  }

  lemma {:induction false} RegroupSize(values: seq<int>)
    ensures var acc := Regroup(values);
            acc.bits < 8 && 8 * |acc.bytes| + acc.bits == 5 * |values|
  {
    if values != [] {
      RegroupSize(values[..|values| - 1]);
    }
  }

  lemma {:induction false} RegroupNext(values: seq<int>, i: nat)
    requires i < |values|
    ensures Regroup(values[..i]).bits < 8
    ensures Regroup(values[..i + 1]) == Absorb(Regroup(values[..i]), values[i])
  {
    RegroupSize(values[..i]);
    assert values[..i + 1][..i] == values[..i];
  }

  /** A version byte 0 and a key, or the error. */
  function WholeKey(bytes: Data, error: string): Result<Data> {
    if |bytes| != 33 || bytes[0] != 0 then Err(error) else Ok(KeyScript(bytes[1..]))
  }

  function ScriptOf(values: seq<int>, error: string): Result<Data> {
    WholeKey(Regroup(values).bytes, error)
  }

  const INVALID_MEMBERSHIP_ADDRESS := "INVALID_MEMBERSHIP_ADDRESS"
  const INVALID_CREATOR_ADDRESS := "INVALID_CREATOR_ADDRESS"

  function MembershipScriptFor(address: string): Result<Data> {
    var data := AddressData(address);
    if InCharset(data) then ScriptOf(Values(data), INVALID_MEMBERSHIP_ADDRESS)
    else Err(INVALID_MEMBERSHIP_ADDRESS)
  }

  /** The body of both loops: shift the character in, move whole bytes out. */
  method AbsorbInto(acc: Acc, value: int) returns (r: Acc)
    requires acc.bits < 8
    ensures r == Absorb(acc, value)
  {
    var buffer, bits: nat, bytes: Data := ShiftIn(acc.buffer, value), acc.bits + 5, acc.bytes;
    while bits >= 8
      invariant bits < 16
      invariant Settle(Acc(buffer, bits, bytes)) == Absorb(acc, value)
    {
      bits := bits - 8;
      bytes := bytes + [(buffer / Shift(bits)) % 256];
      buffer := buffer % Shift(bits);
    }
    r := Acc(buffer, bits, bytes);
  }

  /** `addressScript`, which refuses a character outside the charset. */
  method AddressScript(address: string) returns (r: Result<Data>)
    ensures r == MembershipScriptFor(address)
  {
    var data := AddressData(address);
    ghost var values := Values(data);
    var acc := Acc(0, 0, []);
    for i := 0 to |data|
      invariant forall j :: 0 <= j < i ==> IndexInCharset(data[j]) >= 0
      invariant Regroup(values[..i]) == acc
    {
      var value := IndexInCharset(data[i]);
      if value < 0 {
        assert !InCharset(data);
        return Err(INVALID_MEMBERSHIP_ADDRESS);
      }
      RegroupNext(values, i);
      acc := AbsorbInto(acc, value);
    }
    assert values[..|data|] == values;
    r := WholeKey(acc.bytes, INVALID_MEMBERSHIP_ADDRESS);
  }

  /** `scriptFor`, which lets an unknown character through as -1. */
  method ScriptFor(address: string) returns (r: Result<Data>)
    ensures r == ScriptOf(Values(AddressData(address)), INVALID_CREATOR_ADDRESS)
  {
    var values := Values(AddressData(address));
    var acc := Acc(0, 0, []);
    for i := 0 to |values|
      invariant Regroup(values[..i]) == acc
    {
      RegroupNext(values, i);
      acc := AbsorbInto(acc, values[i]);
    }
    assert values[..|values|] == values;
    r := WholeKey(acc.bytes, INVALID_CREATOR_ADDRESS);
  }

  // ----- what the bytes mean --------------------------------------------------

  /** The number whose base-32 digits, most significant first, are `values`. */
  function FromBase32(values: seq<nat>): nat {
    if values == [] then 0
    else FromBase32(values[..|values| - 1]) * 32 + values[|values| - 1]
  }

  function ToBase32(value: nat, size: nat): (r: seq<nat>)
    ensures |r| == size && forall i :: 0 <= i < size ==> r[i] < 32
  {
    if size == 0 then [] else ToBase32(value / 32, size - 1) + [value % 32]
  }

  lemma {:induction false} Base32ReadsBack(value: nat, size: nat)
    requires value < Power(32, size)
    ensures FromBase32(ToBase32(value, size)) == value
  {
    if size > 0 {
      Base32ReadsBack(value / 32, size - 1);
      assert ToBase32(value, size)[..size - 1] == ToBase32(value / 32, size - 1);
    }
  }

  ghost predicate Represents(acc: Acc, number: nat) {
    && acc.bits < 8
    && 0 <= acc.buffer < Shift(acc.bits)
    && FromBigEndian(acc.bytes) * Shift(acc.bits) + acc.buffer == number
  }

  lemma {:induction false} Shifts()
    ensures Shift(0) == 1 && Shift(1) == 2 && Shift(2) == 4 && Shift(3) == 8 && Shift(4) == 16
    ensures Shift(5) == 32 && Shift(6) == 64 && Shift(7) == 128
  {
    assert Shift(2) == 4;
    assert Shift(4) == 16;
    assert Shift(6) == 64;
  }

  lemma {:induction false} AbsorbRepresents(acc: Acc, number: nat, value: nat)
    requires Represents(acc, number) && value < 32
    ensures Represents(Absorb(acc, value), number * 32 + value)
  {
    Shifts();
    if acc.bits >= 3 {
      var byte := (acc.buffer * 32 + value) / Shift(acc.bits - 3) % 256;
      assert (acc.bytes + [byte])[..|acc.bytes|] == acc.bytes;
      EmitKeeps(FromBigEndian(acc.bytes), acc.buffer, acc.bits, value);
    }
  }

  lemma {:induction false} EmitKeeps(front: nat, buffer: nat, bits: nat, value: nat)
    requires 3 <= bits < 8 && buffer < Shift(bits) && value < 32
    ensures var grown, shift := buffer * 32 + value, Shift(bits - 3);
            (front * 256 + grown / shift % 256) * shift + grown % shift ==
            (front * Shift(bits) + buffer) * 32 + value
  {
    Shifts();
    if bits == 3 {
    } else if bits == 4 {
    } else if bits == 5 {
    } else if bits == 6 {
    } else {
      assert bits == 7;
    }
  }

  /** The bytes are the leading bits of the base-32 number, the buffer its last. */
  lemma {:induction false} BytesAreLeadingBits(values: seq<nat>)
    requires forall i :: 0 <= i < |values| ==> values[i] < 32
    ensures Represents(Regroup(values), FromBase32(values))
  {
    if values != [] {
      var n := |values| - 1;
      BytesAreLeadingBits(values[..n]);
      AbsorbRepresents(Regroup(values[..n]), FromBase32(values[..n]), values[n]);
    }
  }

  /** The number without its last bits. */
  function WithoutLast(number: nat, bits: nat): nat {
    QuotientIsNatural(number, Shift(bits));
    number / Shift(bits)
  }

  lemma {:induction false} QuotientIsNatural(number: nat, divisor: nat)
    requires divisor > 0
    ensures number / divisor >= 0
  {
    Multiples(number / divisor, divisor);
    assert number == number / divisor * divisor + number % divisor;
  }

  lemma {:induction false} LeadingBytes(values: seq<nat>)
    requires forall i :: 0 <= i < |values| ==> values[i] < 32
    ensures var acc := Regroup(values);
            acc.bytes == ToBigEndian(WithoutLast(FromBase32(values), acc.bits), |acc.bytes|)
  {
    BytesAreLeadingBits(values);
    RepresentedBytes(Regroup(values), FromBase32(values));
  }

  lemma {:induction false} RepresentedBytes(acc: Acc, number: nat)
    requires Represents(acc, number)
    ensures acc.bytes == ToBigEndian(WithoutLast(number, acc.bits), |acc.bytes|)
  {
    var front, shift := FromBigEndian(acc.bytes), Shift(acc.bits);
    BigEndianWritesBack(acc.bytes);
    DividesOut(front, shift, acc.buffer);
    assert WithoutLast(number, acc.bits) == front;
  }

  lemma {:induction false} DividesOut(quotient: nat, divisor: nat, rest: nat)
    requires rest < divisor
    ensures (quotient * divisor + rest) / divisor == quotient
  {
    var number := quotient * divisor + rest;
    var off := number / divisor - quotient;
    assert off * divisor == rest - number % divisor;
    Multiples(off, divisor);
  }

  lemma {:induction false} Multiples(count: int, size: nat)
    ensures count >= 1 ==> count * size >= size
    ensures count <= -1 ==> count * size <= 0 - size
  {
  }

  // ----- every key's own address ----------------------------------------------

  /** The 53 characters of a version byte 0 and a key, padded with one zero bit. */
  function KeyData(key: Key): (r: string)
    ensures |r| == 53
  {
    var digits := ToBase32(2 * FromBigEndian([0] + key), 53);
    seq(53, i requires 0 <= i < 53 => CharsetAt(digits[i]))
  }

  /** Decoding the 5-bit form of any 32-byte key gives that key's script. */
  lemma {:induction false} KeyAddressDecodes(prefix: string, key: Key, checksum: string)
    requires |checksum| == 8 && ':' !in checksum
    ensures var address := prefix + ":" + KeyData(key) + checksum;
            MembershipScriptFor(address) == Ok([0x00, 0x00, 0x20] + key + [0xac]) &&
            ScriptOf(Values(AddressData(address)), INVALID_CREATOR_ADDRESS) == Ok([0x00, 0x00, 0x20] + key + [0xac])
  {
    KeyDataStandsAlone(prefix, key, checksum);
    KeyDataValues(key);
    var bytes := [0] + key;
    DoubledFits(bytes, |KeyData(key)|);
    DigitsRegroup(FromBigEndian(bytes), |KeyData(key)|);
    BigEndianWritesBack(bytes);
    assert bytes[1..] == key;
  }

  lemma {:induction false} KeyDataStandsAlone(prefix: string, key: Key, checksum: string)
    requires |checksum| == 8 && ':' !in checksum
    ensures AddressData(prefix + ":" + KeyData(key) + checksum) == KeyData(key)
  {
    var address := prefix + ":" + KeyData(key) + checksum;
    var digits := ToBase32(2 * FromBigEndian([0] + key), 53);
    forall i | |prefix| < i < |address|
      ensures address[i] != ':'
    {
      if i < |prefix| + 54 {
        CharsetReadsBack(digits[i - |prefix| - 1]);
      } else {
        assert address[i] == checksum[i - |prefix| - 54];
      }
    }
    LastIndexIs(address, ':', |prefix|);
  }

  /** The data is what stands between the last colon, if any, and the last eight characters. */
  lemma {:induction false} DataIsBetween(prefix: string, data: string, checksum: string)
    requires |checksum| == 8 && ':' !in checksum && ':' !in data
    ensures AddressData(prefix + ":" + data + checksum) == data && AddressData(data + checksum) == data
  {
    var address, bare := prefix + ":" + data + checksum, data + checksum;
    forall i | |prefix| < i < |address|
      ensures address[i] != ':'
    {
      assert address[i] == bare[i - |prefix| - 1];
      assert bare[i - |prefix| - 1] in data || bare[i - |prefix| - 1] in checksum;
    }
    LastIndexIs(address, ':', |prefix|);
    forall i | 0 <= i < |bare|
      ensures bare[i] != ':'
    {
      assert bare[i] in data || bare[i] in checksum;
    }
    NoIndex(bare, ':');
  }

  lemma {:induction false} NoIndex(text: string, c: char)
    requires forall i :: 0 <= i < |text| ==> text[i] != c
    ensures LastIndexOf(text, c) == -1
  {
    if text != "" {
      NoIndex(text[..|text| - 1], c);
    }
  }

  lemma {:induction false} DoubledFits(bytes: Data, size: nat)
    requires |bytes| == 33 && size == 53
    ensures 2 * FromBigEndian(bytes) < Power(32, size)
  {
    BigEndianBelow(bytes);
    PowersAgree(size, |bytes|);
  }

  lemma {:induction false} DigitsRegroup(number: nat, size: nat)
    requires 5 * size % 8 == 1 && 2 * number < Power(32, size)
    ensures Regroup(ToBase32(2 * number, size)).bytes == ToBigEndian(number, 5 * size / 8)
  {
    var values := ToBase32(2 * number, size);
    Base32ReadsBack(2 * number, size);
    RegroupSize(values);
    OneBitLeft(Regroup(values), size);
    LeadingBytes(values);
    HalfOfTwice(number);
  }

  lemma {:induction false} OneBitLeft(acc: Acc, size: nat)
    requires acc.bits < 8 && 8 * |acc.bytes| + acc.bits == 5 * size && 5 * size % 8 == 1
    ensures acc.bits == 1 && |acc.bytes| == 5 * size / 8
  {
  }

  lemma {:induction false} HalfOfTwice(number: nat)
    ensures WithoutLast(2 * number, 1) == number
  {
    assert Shift(1) == 2;
  }

  lemma {:induction false} KeyDataValues(key: Key)
    ensures InCharset(KeyData(key))
    ensures Values(KeyData(key)) == ToBase32(2 * FromBigEndian([0] + key), 53)
  {
    var digits := ToBase32(2 * FromBigEndian([0] + key), 53);
    forall i | 0 <= i < 53
      ensures IndexInCharset(KeyData(key)[i]) == digits[i]
    {
      CharsetReadsBack(digits[i]);
    }
  }

  lemma {:induction false} LastIndexIs(text: string, c: char, at: nat)
    requires at < |text| && text[at] == c && forall i :: at < i < |text| ==> text[i] != c
    ensures LastIndexOf(text, c) == at
  {
    if at < |text| - 1 {
      LastIndexIs(text[..|text| - 1], c, at);
    }
  }

  lemma {:induction false} PowersAgree(size: nat, bytes: nat)
    requires 5 * size == 8 * bytes + 1
    ensures Power(32, size) == 2 * Power(256, bytes)
  {
    PowerOf32(size);
    PowerOf256(bytes);
    assert Power(2, 8 * bytes + 1) == 2 * Power(2, 8 * bytes);
  }

  lemma {:induction false} PowerOf32(k: nat)
    ensures Power(32, k) == Power(2, 5 * k)
  {
    if k > 0 {
      PowerOf32(k - 1);
      var n := 5 * (k - 1);
      assert Power(2, n + 2) == 4 * Power(2, n);
      assert Power(2, n + 4) == 16 * Power(2, n);
      assert Power(2, n + 5) == 32 * Power(2, n);
    }
  }

  lemma {:induction false} PowerOf256(k: nat)
    ensures Power(256, k) == Power(2, 8 * k)
  {
    if k > 0 {
      PowerOf256(k - 1);
      var n := 8 * (k - 1);
      assert Power(2, n + 2) == 4 * Power(2, n);
      assert Power(2, n + 4) == 16 * Power(2, n);
      assert Power(2, n + 6) == 64 * Power(2, n);
      assert Power(2, n + 8) == 256 * Power(2, n);
    }
  }

  // ----- which addresses are accepted, and where the two copies part -----------

  /** The first four characters of the charset: their upper three bits are zero. */
  predicate IsEarly(c: char) {
    c == 'q' || c == 'p' || c == 'z' || c == 'r'
  }

  /** Long enough for 33 bytes, and the first eight bits are zero. */
  predicate NamesVersionZero(data: string) {
    (|data| == 53 || |data| == 54) && data[0] == 'q' && IsEarly(data[1])
  }

  lemma {:induction false} FirstTwo(a: int, b: int)
    requires -1 <= a < 32 && -1 <= b < 32
    ensures ShiftIn(ShiftIn(0, a), b) / 4 % 256 == 0 <==> a == 0 && 0 <= b < 4
  {
    if a == -1 || b == -1 {
      assert -32 <= ShiftIn(ShiftIn(0, a), b) <= -1;
    }
  }

  lemma {:induction false} FirstByte(values: seq<int>)
    requires |values| >= 2 && -1 <= values[0] < 32 && -1 <= values[1] < 32
    ensures |Regroup(values).bytes| > 0
    ensures Regroup(values).bytes[0] == 0 <==> values[0] == 0 && 0 <= values[1] < 4
  {
    var n := |values| - 1;
    var acc := Regroup(values[..n]);
    if n == 1 {
      assert values[..1][..0] == [];
      assert Regroup(values[..1]) == Absorb(Acc(0, 0, []), values[0]);
      Shifts();
      FirstTwo(values[0], values[1]);
      assert acc == Acc(ShiftIn(0, values[0]), 5, []);
    } else {
      FirstByte(values[..n]);
    }
  }

  lemma {:induction false} ScriptOfSucceeds(data: string, error: string)
    ensures ScriptOf(Values(data), error).Ok? <==> NamesVersionZero(data)
  {
    var values := Values(data);
    RegroupSize(values);
    if |data| >= 2 {
      FirstByte(values);
    }
  }

  lemma {:induction false} AcceptedAddresses(address: string)
    ensures var data := AddressData(address);
            MembershipScriptFor(address).Ok? <==> InCharset(data) && NamesVersionZero(data)
  {
    ScriptOfSucceeds(AddressData(address), INVALID_MEMBERSHIP_ADDRESS);
  }

  /**
   The two copies agree on an address, on the script or that there is none, exactly
   when its data is over the charset or could not name a version 0 key anyway.
   */
  lemma {:induction false} CopiesAgree(address: string)
    ensures var data := AddressData(address);
            var left, right := MembershipScriptFor(address), ScriptOf(Values(data), INVALID_CREATOR_ADDRESS);
            ((left.Ok? <==> right.Ok?) && (left.Ok? ==> left == right))
            <==> InCharset(data) || !NamesVersionZero(data)
  {
    var data := AddressData(address);
    ScriptOfSucceeds(data, INVALID_CREATOR_ADDRESS);
    ScriptOfSucceeds(data, INVALID_MEMBERSHIP_ADDRESS);
  }
}
