/**
 The state of a membership covenant and its byte form inside the redeem script
 (backend/src/membership-contract.ts). Keys are the 32 bytes their hex spells.
 */
module MembershipContract {
  import opened Wrappers
  import opened Bytes

  const MEMBERSHIP_DURATION_DAA := 25_920_000
  const MEMBERSHIP_INDEX_VALUE := 50_000_000
  const MEMBERSHIP_OUTPUT_VALUE := 50_000_000
  const MAX_I64 := 0x7fff_ffff_ffff_ffff
  const STATE_SPAN := 119
  const PUSH_LIMIT := 75
  const OP_PUSHDATA1 := 76

  type Key = k: Data | |k| == 32 witness seq(32, _ => 0)

  datatype State = State(
    creator: Key, platform: Key, owner: Key,
    expiresAtDaa: int, priceSompi: int, isMinter: bool)

  /** The compiled covenant around its state span: fixed bytes on either side. */
  datatype Contract = Contract(prefix: Data, suffix: Data)

  // ----- integers -------------------------------------------------------------

  predicate IsI64(value: int) {
    -MAX_I64 - 1 <= value <= MAX_I64
  }

  /** The covenant's own 64-bit integers: two's complement, least byte first. */
  function EncodeI64(value: int): (r: Data)
    requires IsI64(value)
    ensures |r| == 8
  {
    ToLittleEndian(if value < 0 then value + 2 * MAX_I64 + 2 else value, 8)
  }

  function EncodedPositiveI64(value: int): Result<Data> {
    if value < 0 || value > MAX_I64 then Err("INVALID_DAA") else Ok(EncodeI64(value))
  }

  function DecodedPositiveI64(bytes: Data): int
    requires |bytes| == 8
  {
    if bytes[7] >= 0x80 then -1 else FromLittleEndian(bytes)
  }

  method EncodePositiveI64(value: int) returns (r: Result<Data>)
    ensures r == EncodedPositiveI64(value)
  {
    if value < 0 || value > MAX_I64 {
      return Err("INVALID_DAA");
    }
    var bytes := new Byte[8](_ => 0);
    var remaining: nat := value;
    assert bytes[..0] + ToLittleEndian(remaining, 8) == ToLittleEndian(value, 8);
    for index := 0 to bytes.Length
      invariant bytes[..index] + ToLittleEndian(remaining, 8 - index) == ToLittleEndian(value, 8)
    {
      ghost var before := bytes[..index];
      bytes[index] := remaining % 256;
      assert bytes[..index + 1] == before + [remaining % 256];
      remaining := remaining / 256;
    }
    assert bytes[..8] + [] == bytes[..];
    r := Ok(bytes[..]);
  }

  method DecodePositiveI64(bytes: Data) returns (value: int)
    requires |bytes| == 8
    ensures value == DecodedPositiveI64(bytes)
  {
    if bytes[7] >= 0x80 {
      return -1;
    }
    value := 0;
    ghost var all := FromLittleEndian(bytes);
    assert bytes[0..] == bytes;
    var index := |bytes| - 1;
    while index >= 0
      invariant -1 <= index < |bytes|
      invariant value == FromLittleEndian(bytes[index + 1..])
    {
      ReadsFrom(bytes, index);
      value := value * 256 + bytes[index];
      index := index - 1;
    }
    assert value == all;
  }

  lemma {:induction false} ReadsFrom(bytes: Data, index: nat)
    requires index < |bytes|
    ensures FromLittleEndian(bytes[index..]) == bytes[index] + 256 * FromLittleEndian(bytes[index + 1..])
  {
    assert bytes[index..][1..] == bytes[index + 1..];
  }

  /** The top bit of the last byte is the sign. */
  lemma {:induction false} TopBitIsSign(bytes: Data)
    requires |bytes| == 8
    ensures bytes[7] >= 0x80 <==> FromLittleEndian(bytes) > MAX_I64
  {
    var low := bytes[..7];
    SplitTop(bytes, 7);
    LittleEndianWritesBack(low);
    assert Power(256, 7) == 0x100_0000_0000_0000 by { PowersOf256(); }
  }

  lemma {:induction false} PowersOf256()
    ensures Power(256, 7) == 0x100_0000_0000_0000 && Power(256, 8) == 2 * MAX_I64 + 2
  {
    assert Power(256, 2) == 0x1_0000;
    assert Power(256, 4) == 0x1_0000_0000;
    assert Power(256, 6) == 0x1_0000_0000_0000;
    assert Power(256, 7) == 256 * Power(256, 6);
    assert Power(256, 8) == 256 * Power(256, 7);
  }

  lemma {:induction false} SplitTop(bytes: Data, n: nat)
    requires |bytes| == n + 1
    ensures FromLittleEndian(bytes) == FromLittleEndian(bytes[..n]) + Power(256, n) * bytes[n]
  {
    if n > 0 {
      SplitTop(bytes[1..], n - 1);
      assert bytes[1..][..n - 1] == bytes[..n][1..];
    }
  }

  /** A 64-bit integer reads back as itself, or as -1 when it is negative. */
  lemma {:induction false} I64ReadsBack(value: int)
    requires IsI64(value)
    ensures DecodedPositiveI64(EncodeI64(value)) == if value < 0 then -1 else value
  {
    PowersOf256();
    var unsigned := if value < 0 then value + 2 * MAX_I64 + 2 else value;
    LittleEndianReadsBack(unsigned, 8);
    TopBitIsSign(EncodeI64(value));
  }

  /** Eight bytes the decoder accepts as a number are the encoding of that number. */
  lemma {:induction false} I64WritesBack(bytes: Data)
    requires |bytes| == 8
    ensures EncodedPositiveI64(DecodedPositiveI64(bytes)) ==
            if bytes[7] >= 0x80 then Err("INVALID_DAA") else Ok(bytes)
  {
    TopBitIsSign(bytes);
    LittleEndianWritesBack(bytes);
  }

  // ----- pushes ---------------------------------------------------------------

  function FixedPush(value: Data): (r: Data)
    requires |value| <= PUSH_LIMIT
  {
    [|value|] + value
  }

  /** The opcode at the head of `script`: bytes to skip and bytes it pushes. */
  function PushHeader(script: Data): Option<(nat, nat)>
    requires script != []
  {
    if script[0] <= PUSH_LIMIT then Some((1, script[0]))
    else if script[0] == OP_PUSHDATA1 && |script| > 1 then Some((2, script[1]))
    else None
  }

  function Pushes(script: Data): Option<seq<Data>> {
    if script == [] then Some([])
    else
      match PushHeader(script)
      case None => None
      case Some((skip, size)) =>
        if skip + size > |script| then None
        else Prepend([script[skip..skip + size]], Pushes(script[skip + size..]))
  }

  function Prepend(front: seq<Data>, rest: Option<seq<Data>>): Option<seq<Data>> {
    if rest.None? then None else Some(front + rest.value)
  }

  lemma {:induction false} PrependTwice(a: seq<Data>, b: seq<Data>, rest: Option<seq<Data>>)
    ensures Prepend(a, Prepend(b, rest)) == Prepend(a + b, rest)
    ensures Prepend([], rest) == rest
  {
    if rest.Some? {
      assert a + (b + rest.value) == a + b + rest.value;
      assert [] + rest.value == rest.value;
    }
  }

  /** Parsing from `offset` when the push there has its data at `start`. */
  lemma {:induction false} PushAt(script: Data, offset: nat, start: nat, size: nat)
    requires offset < start && start + size <= |script|
    requires PushHeader(script[offset..]) == Some((start - offset, size))
    ensures Pushes(script[offset..]) ==
            Prepend([script[start..start + size]], Pushes(script[start + size..]))
  {
    var rest, skip := script[offset..], start - offset;
    assert rest[skip..skip + size] == script[start..start + size];
    assert rest[skip + size..] == script[start + size..];
  }

  /** One push, read behind those already read. */
  lemma {:induction false} PushRead(script: Data, values: seq<Data>, offset: nat, start: nat, size: nat)
    requires offset < start && start + size <= |script|
    requires PushHeader(script[offset..]) == Some((start - offset, size))
    ensures Prepend(values, Pushes(script[offset..])) ==
            Prepend(values + [script[start..start + size]], Pushes(script[start + size..]))
  {
    PushAt(script, offset, start, size);
    PrependTwice(values, [script[start..start + size]], Pushes(script[start + size..]));
  }

  lemma {:induction false} PushUnreadable(script: Data, values: seq<Data>, offset: nat)
    requires offset < |script|
    requires match PushHeader(script[offset..])
             case None => true
             case Some((skip, size)) => offset + skip + size > |script|
    ensures Prepend(values, Pushes(script[offset..])) == None
  {
  }

  method ParsePushes(script: Data) returns (r: Option<seq<Data>>)
    ensures r == Pushes(script)
  {
    var values: seq<Data> := [];
    var offset := 0;
    ghost var all := Pushes(script);
    assert script[0..] == script;
    PrependTwice(values, [], all);
    while offset < |script|
      invariant 0 <= offset <= |script|
      invariant all == Prepend(values, Pushes(script[offset..]))
    {
      ghost var start := offset;
      var opcode := script[offset];
      offset := offset + 1;
      var size: int;
      if opcode <= PUSH_LIMIT {
        size := opcode;
      } else if opcode == OP_PUSHDATA1 {
        size := if offset < |script| then script[offset] else -1;
        offset := offset + 1;
      } else {
        PushUnreadable(script, values, start);
        return None;
      }
      if size < 0 || offset + size > |script| {
        PushUnreadable(script, values, start);
        return None;
      }
      PushRead(script, values, start, offset, size);
      values := values + [script[offset..offset + size]];
      offset := offset + size;
    }
    assert script[|script|..] == [] && values + [] == values;
    r := Some(values);
  }

  /** Fewest bytes that can push these values: one length byte for each. */
  function PushCost(values: seq<Data>): nat {
    if values == [] then 0 else 1 + |values[0]| + PushCost(values[1..])
  }

  ghost predicate Pushable(values: seq<Data>) {
    forall i :: 0 <= i < |values| ==> |values[i]| <= PUSH_LIMIT
  }

  function PushAll(values: seq<Data>): (r: Data)
    requires Pushable(values)
    ensures |r| == PushCost(values)
  {
    if values == [] then [] else FixedPush(values[0]) + PushAll(values[1..])
  }

  lemma {:induction false} PushesReadBack(values: seq<Data>)
    requires Pushable(values)
    ensures Pushes(PushAll(values)) == Some(values)
  {
    if values != [] {
      PushesReadBack(values[1..]);
      var script := PushAll(values);
      var size := |values[0]|;
      assert script[1..1 + size] == values[0];
      assert script[1 + size..] == PushAll(values[1..]);
      assert values == [values[0]] + values[1..];
    }
  }

  lemma {:induction false} PlainPush(script: Data, size: nat)
    requires 1 + size <= |script| && script[0] == size && size <= PUSH_LIMIT
    ensures script == FixedPush(script[1..1 + size]) + script[1 + size..]
  {
  }

  /** A script that costs no more than its values need is their plain pushes. */
  lemma {:induction false} TightPushesWriteBack(script: Data)
    requires Pushes(script).Some?
    ensures |script| >= PushCost(Pushes(script).value)
    ensures |script| == PushCost(Pushes(script).value) && Pushable(Pushes(script).value)
            ==> script == PushAll(Pushes(script).value)
  {
    if script != [] {
      var (skip, size) := PushHeader(script).value;
      var rest := script[skip + size..];
      TightPushesWriteBack(rest);
      var values := Pushes(script).value;
      assert values[0] == script[skip..skip + size] && values[1..] == Pushes(rest).value;
      if skip == 1 {
        PlainPush(script, size);
      }
    }
  }

  // ----- state span and redeem script -----------------------------------------

  predicate Encodable(s: State) {
    0 <= s.expiresAtDaa <= MAX_I64 && 0 <= s.priceSompi <= MAX_I64
  }

  predicate InContractRange(s: State) {
    IsI64(s.expiresAtDaa) && IsI64(s.priceSompi)
  }

  function Fields(s: State): (r: seq<Data>)
    requires InContractRange(s)
  {
    [s.creator, s.platform, s.owner,
     EncodeI64(s.expiresAtDaa), EncodeI64(s.priceSompi), [if s.isMinter then 1 else 0]]
  }

  /** The state span as the covenant itself writes it, for any 64-bit integers. */
  function Span(s: State): (r: Data)
    requires InContractRange(s)
    ensures |r| == STATE_SPAN
  {
    assert PushCost(Fields(s)) == STATE_SPAN by { SixFields(Fields(s)); }
    PushAll(Fields(s))
  }

  lemma {:induction false} CostFrom(values: seq<Data>, i: nat)
    requires i < |values|
    ensures PushCost(values[i..]) == 1 + |values[i]| + PushCost(values[i + 1..])
  {
    assert values[i..][1..] == values[i + 1..];
  }

  lemma {:induction false} SixFields(values: seq<Data>)
    requires |values| == 6
    ensures PushCost(values) == 6 + |values[0]| + |values[1]| + |values[2]| + |values[3]| + |values[4]| + |values[5]|
  {
    CostFrom(values, 0);
    CostFrom(values, 1);
    CostFrom(values, 2);
    CostFrom(values, 3);
    CostFrom(values, 4);
    CostFrom(values, 5);
    assert values[6..] == [] && values[0..] == values;
  }

  function RedeemBytes(c: Contract, s: State): Data
    requires InContractRange(s)
  {
    c.prefix + Span(s) + c.suffix
  }

  function MembershipRedeemScript(c: Contract, s: State): Result<Data> {
    if Encodable(s) then Ok(RedeemBytes(c, s)) else Err("INVALID_DAA")
  }

  function DecodeMembershipRedeemScript(c: Contract, script: Data): Option<State> {
    var offset := |c.prefix|;
    if |script| != offset + STATE_SPAN + |c.suffix| then None
    else if script[..offset] != c.prefix || script[offset + STATE_SPAN..] != c.suffix then None
    else
      match Pushes(script[offset..offset + STATE_SPAN])
      case None => None
      case Some(pushes) => StateOfPushes(pushes)
  }

  function StateOfPushes(pushes: seq<Data>): Option<State> {
    if |pushes| != 6 then None
    else if |pushes[0]| != 32 || |pushes[1]| != 32 || |pushes[2]| != 32
         || |pushes[3]| != 8 || |pushes[4]| != 8 || |pushes[5]| != 1 then None
    else if pushes[5][0] != 0 && pushes[5][0] != 1 then None
    else Some(State(pushes[0], pushes[1], pushes[2],
                    DecodedPositiveI64(pushes[3]), DecodedPositiveI64(pushes[4]), pushes[5][0] == 1))
  }

  /** What the decoder makes of a state: negative integers all read as -1. */
  function Blurred(s: State): State {
    s.(expiresAtDaa := if s.expiresAtDaa < 0 then -1 else s.expiresAtDaa,
       priceSompi := if s.priceSompi < 0 then -1 else s.priceSompi)
  }

  /** Every script the covenant can move to decodes to its state. */
  lemma {:induction false} ContractScriptDecodes(c: Contract, s: State)
    requires InContractRange(s)
    ensures DecodeMembershipRedeemScript(c, RedeemBytes(c, s)) == Some(Blurred(s))
  {
    var script, offset := RedeemBytes(c, s), |c.prefix|;
    assert script[..offset] == c.prefix;
    assert script[offset..offset + STATE_SPAN] == Span(s);
    assert script[offset + STATE_SPAN..] == c.suffix;
    PushesReadBack(Fields(s));
    I64ReadsBack(s.expiresAtDaa);
    I64ReadsBack(s.priceSompi);
  }

  /** Decoding an encoded state gives the state back. */
  lemma {:induction false} EncodeThenDecode(c: Contract, s: State)
    requires Encodable(s)
    ensures MembershipRedeemScript(c, s).Ok?
    ensures DecodeMembershipRedeemScript(c, MembershipRedeemScript(c, s).value) == Some(s)
  {
    ContractScriptDecodes(c, s);
  }

  /**
   An accepted script re-encodes to the same bytes exactly when neither integer
   has its top bit set; otherwise re-encoding throws.
   */
  lemma {:induction false} DecodeThenEncode(c: Contract, script: Data)
    requires DecodeMembershipRedeemScript(c, script).Some?
    ensures var s := DecodeMembershipRedeemScript(c, script).value;
            MembershipRedeemScript(c, s) ==
            if s.expiresAtDaa == -1 || s.priceSompi == -1 then Err("INVALID_DAA") else Ok(script)
  {
    var offset := |c.prefix|;
    var span := script[offset..offset + STATE_SPAN];
    assert script == c.prefix + span + c.suffix;
    SpanWritesBack(span);
  }

  lemma {:induction false} SpanWritesBack(span: Data)
    requires |span| == STATE_SPAN && Pushes(span).Some? && StateOfPushes(Pushes(span).value).Some?
    ensures var s := StateOfPushes(Pushes(span).value).value;
            if s.expiresAtDaa == -1 || s.priceSompi == -1 then !Encodable(s)
            else Encodable(s) && Span(s) == span
  {
    var pushes := Pushes(span).value;
    var s := StateOfPushes(pushes).value;
    IntegersWriteBack(pushes);
    if s.expiresAtDaa != -1 && s.priceSompi != -1 {
      SixFields(pushes);
      TightPushesWriteBack(span);
    }
  }

  lemma {:induction false} IntegersWriteBack(pushes: seq<Data>)
    requires StateOfPushes(pushes).Some?
    ensures var s := StateOfPushes(pushes).value;
            if s.expiresAtDaa == -1 || s.priceSompi == -1 then !Encodable(s)
            else Encodable(s) && Fields(s) == pushes
  {
    I64WritesBack(pushes[3]);
    I64WritesBack(pushes[4]);
    assert pushes == [pushes[0], pushes[1], pushes[2], pushes[3], pushes[4], pushes[5]];
    assert pushes[5] == [pushes[5][0]];
  }

  /** Different states have different redeem scripts. */
  lemma {:induction false} RedeemBytesInjective(c: Contract, left: State, right: State)
    requires InContractRange(left) && InContractRange(right)
    requires RedeemBytes(c, left) == RedeemBytes(c, right)
    ensures left == right
  {
    var offset := |c.prefix|;
    assert Span(left) == RedeemBytes(c, left)[offset..offset + STATE_SPAN];
    assert Span(right) == RedeemBytes(c, right)[offset..offset + STATE_SPAN];
    PushesReadBack(Fields(left));
    PushesReadBack(Fields(right));
    EncodeI64Injective(Fields(left)[3], left.expiresAtDaa, right.expiresAtDaa);
    EncodeI64Injective(Fields(left)[4], left.priceSompi, right.priceSompi);
    assert Fields(left)[5] == Fields(right)[5];
  }

  lemma {:induction false} EncodeI64Injective(bytes: Data, left: int, right: int)
    requires IsI64(left) && IsI64(right)
    requires EncodeI64(left) == bytes == EncodeI64(right)
    ensures left == right
  {
    PowersOf256();
    LittleEndianReadsBack(if left < 0 then left + 2 * MAX_I64 + 2 else left, 8);
    LittleEndianReadsBack(if right < 0 then right + 2 * MAX_I64 + 2 else right, 8);
    if (left < 0) != (right < 0) {
      I64ReadsBack(left);
      I64ReadsBack(right);
    }
  }
}
