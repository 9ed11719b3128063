/**
 JSON values as JavaScript holds them, the text `JSON.stringify` writes for them
 (backend/src/payment-gateway.ts, `sameTransaction`), and the proof that the text
 determines the value.

 Text is a sequence of UTF-16 code units, as in JavaScript. A number is its
 printed form, so numbers that print alike count as equal.
 */
module JsonText {
  import opened Wrappers

  type CodeUnit = u: int | 0 <= u < 0x1_0000
  type Text = seq<CodeUnit>

  datatype Json =
    | Null
    | Bool(value: bool)
    | Number(printed: Text)
    | Str(text: Text)
    | Array(items: seq<Json>)
    | Object(fields: seq<Field>)

  datatype Field = Field(key: Text, value: Json)

  const QUOTE: CodeUnit := 0x22
  const COMMA: CodeUnit := 0x2c
  const COLON: CodeUnit := 0x3a
  const BACKSLASH: CodeUnit := 0x5c
  const OPEN_ARRAY: CodeUnit := 0x5b
  const CLOSE_ARRAY: CodeUnit := 0x5d
  const OPEN_OBJECT: CodeUnit := 0x7b
  const CLOSE_OBJECT: CodeUnit := 0x7d
  const LETTER_U: CodeUnit := 0x75
  const NULL_TEXT: Text := [0x6e, 0x75, 0x6c, 0x6c]
  const TRUE_TEXT: Text := [0x74, 0x72, 0x75, 0x65]
  const FALSE_TEXT: Text := [0x66, 0x61, 0x6c, 0x73, 0x65]

  // ----- well-formed values ----------------------------------------------------

  /** Digits, sign, point and exponent mark. */
  predicate IsNumberUnit(u: CodeUnit) {
    0x30 <= u <= 0x39 || u == 0x2b || u == 0x2d || u == 0x2e || u == 0x65
  }

  ghost predicate DistinctKeys(fields: seq<Field>) {
    forall i, j :: 0 <= i < j < |fields| ==> fields[i].key != fields[j].key
  }

  ghost predicate WellFormed(v: Json) {
    match v
    case Number(printed) => printed != [] && forall i :: 0 <= i < |printed| ==> IsNumberUnit(printed[i])
    case Array(items) => forall i :: 0 <= i < |items| ==> WellFormed(items[i])
    case Object(fields) =>
      DistinctKeys(fields) && forall i :: 0 <= i < |fields| ==> WellFormed(fields[i].value)
    case _ => true
  }

  function Keys(fields: seq<Field>): set<Text> {
    set i | 0 <= i < |fields| :: fields[i].key
  }

  function Find(fields: seq<Field>, key: Text): (r: Field)
    requires key in Keys(fields)
    ensures r in fields && r.key == key
  {
    if fields[0].key == key then fields[0] else Find(fields[1..], key)
  }

  // ----- quoting, section 7 of RFC 8259 ---------------------------------------

  function HexDigit(d: int): CodeUnit
    requires 0 <= d < 16
  {
    if d < 10 then 0x30 + d else 0x57 + d
  }

  function HexValue(u: CodeUnit): int {
    if 0x30 <= u <= 0x39 then u - 0x30 else u - 0x57
  }

  function UnicodeEscape(u: CodeUnit): Text {
    [BACKSLASH, LETTER_U, HexDigit(u / 4096), HexDigit(u / 256 % 16), HexDigit(u / 16 % 16), HexDigit(u % 16)]
  }

  /** The letter of a two-unit escape, for the units that have one. */
  function ShortEscape(u: CodeUnit): Option<CodeUnit> {
    if u == QUOTE || u == BACKSLASH then Some(u)
    else if u == 0x08 then Some(0x62)
    else if u == 0x09 then Some(0x74)
    else if u == 0x0a then Some(0x6e)
    else if u == 0x0c then Some(0x66)
    else if u == 0x0d then Some(0x72)
    else None
  }

  function ShortUnescape(letter: CodeUnit): CodeUnit {
    if letter == 0x62 then 0x08
    else if letter == 0x74 then 0x09
    else if letter == 0x6e then 0x0a
    else if letter == 0x66 then 0x0c
    else if letter == 0x72 then 0x0d
    else letter
  }

  predicate IsHighSurrogate(u: CodeUnit) { 0xd800 <= u < 0xdc00 }
  predicate IsLowSurrogate(u: CodeUnit) { 0xdc00 <= u < 0xe000 }

  predicate StartsWithPair(text: Text) {
    |text| > 1 && IsHighSurrogate(text[0]) && IsLowSurrogate(text[1])
  }

  /** How `JSON.stringify` writes the first unit, or the first surrogate pair. */
  function EscapeHead(text: Text): Text
    requires text != []
  {
    if ShortEscape(text[0]).Some? then [BACKSLASH, ShortEscape(text[0]).value]
    else if StartsWithPair(text) then text[..2]
    else if text[0] < 0x20 || IsHighSurrogate(text[0]) || IsLowSurrogate(text[0]) then UnicodeEscape(text[0])
    else [text[0]]
  }

  function HeadWidth(text: Text): nat {
    if StartsWithPair(text) then 2 else 1
  }

  /** The inside of a quoted string. */
  function Escape(text: Text): Text {
    if text == [] then [] else EscapeHead(text) + Escape(text[HeadWidth(text)..])
  }

  function Quote(text: Text): Text {
    [QUOTE] + Escape(text) + [QUOTE]
  }

  /** Reads a quoted string from behind its opening quote. */
  function Unquote(input: Text): Option<(Text, Text)> {
    if input == [] then None
    else if input[0] == QUOTE then Some(([], input[1..]))
    else if input[0] != BACKSLASH then Push(input[0], Unquote(input[1..]))
    else if |input| < 2 then None
    else if input[1] != LETTER_U then Push(ShortUnescape(input[1]), Unquote(input[2..]))
    else if |input| < 6 then None
    else
      var u := 4096 * HexValue(input[2]) + 256 * HexValue(input[3]) + 16 * HexValue(input[4]) + HexValue(input[5]);
      if 0 <= u < 0x1_0000 then Push(u, Unquote(input[6..])) else None
  }

  function Push(u: CodeUnit, read: Option<(Text, Text)>): Option<(Text, Text)> {
    if read.None? then None else Some(([u] + read.value.0, read.value.1))
  }

  lemma {:induction false} UnquotePlain(u: CodeUnit, rest: Text)
    requires u != QUOTE && u != BACKSLASH
    ensures Unquote([u] + rest) == Push(u, Unquote(rest))
  {
    assert ([u] + rest)[1..] == rest;
  }

  lemma {:induction false} UnquoteShort(u: CodeUnit, rest: Text)
    requires ShortEscape(u).Some?
    ensures Unquote([BACKSLASH, ShortEscape(u).value] + rest) == Push(u, Unquote(rest))
  {
    assert ([BACKSLASH, ShortEscape(u).value] + rest)[2..] == rest;
  }

  lemma {:induction false} UnquoteUnicode(u: CodeUnit, rest: Text)
    ensures Unquote(UnicodeEscape(u) + rest) == Push(u, Unquote(rest))
  {
    var input := UnicodeEscape(u) + rest;
    assert input[6..] == rest;
    HexReads(u / 4096);
    HexReads(u / 256 % 16);
    HexReads(u / 16 % 16);
    HexReads(u % 16);
    FourDigits(u);
  }

  lemma {:induction false} HexReads(d: int)
    requires 0 <= d < 16
    ensures HexValue(HexDigit(d)) == d
  {
  }

  lemma {:induction false} FourDigits(u: CodeUnit)
    ensures u == 4096 * (u / 4096) + 256 * (u / 256 % 16) + 16 * (u / 16 % 16) + u % 16
  {
    NextDigit(u, u / 16);
    NextDigit(u / 16, u / 256);
    NextDigit(u / 256, u / 4096);
  }

  lemma {:induction false} NextDigit(x: int, y: int)
    requires y == x / 16
    ensures x == 16 * y + x % 16
  {
  }

  lemma {:induction false} HeadReadsBack(text: Text, after: Text)
    requires text != []
    ensures var read := Unquote(after);
            Unquote(EscapeHead(text) + after) ==
            if read.None? then None else Some((text[..HeadWidth(text)] + read.value.0, read.value.1))
  {
    var u := text[0];
    assert text[..1] == [u];
    if ShortEscape(u).Some? {
      UnquoteShort(u, after);
    } else if StartsWithPair(text) {
      UnquotePlain(text[1], after);
      UnquotePlain(u, [text[1]] + after);
      assert EscapeHead(text) + after == [u] + ([text[1]] + after);
      var read := Unquote(after);
      if read.Some? {
        assert [u] + ([text[1]] + read.value.0) == text[..2] + read.value.0;
      }
    } else if u < 0x20 || IsHighSurrogate(u) || IsLowSurrogate(u) {
      UnquoteUnicode(u, after);
    } else {
      UnquotePlain(u, after);
    }
  }

  lemma {:induction false} EscapeReadsBack(text: Text, rest: Text)
    ensures Unquote(Escape(text) + [QUOTE] + rest) == Some((text, rest))
  {
    if text == [] {
      assert (Escape(text) + [QUOTE] + rest)[1..] == rest;
    } else {
      var width := HeadWidth(text);
      var after := Escape(text[width..]) + [QUOTE] + rest;
      EscapeReadsBack(text[width..], rest);
      HeadReadsBack(text, after);
      assert Escape(text) + [QUOTE] + rest == EscapeHead(text) + after;
      assert text == text[..width] + text[width..];
    }
  }

  lemma {:induction false} QuoteReadsBack(text: Text, rest: Text)
    ensures Quote(text) + rest != [] && Unquote((Quote(text) + rest)[1..]) == Some((text, rest))
  {
    EscapeReadsBack(text, rest);
    assert (Quote(text) + rest)[1..] == Escape(text) + [QUOTE] + rest;
  }

  lemma {:induction false} QuoteCancels(left: Text, right: Text, r: Text, s: Text)
    requires Quote(left) + r == Quote(right) + s
    ensures left == right && r == s
  {
    QuoteReadsBack(left, r);
    QuoteReadsBack(right, s);
  }

  /** No control character, quote or backslash, and every surrogate one of a pair. */
  ghost predicate IsPlain(text: Text) {
    forall i :: 0 <= i < |text| ==> IsPlainAt(text, i)
  }

  ghost predicate IsPlainAt(text: Text, i: nat)
    requires i < |text|
  {
    && text[i] >= 0x20 && text[i] != 0x22 && text[i] != 0x5c
    && (0xd800 <= text[i] < 0xdc00 ==> i + 1 < |text| && 0xdc00 <= text[i + 1] < 0xe000)
    && (0xdc00 <= text[i] < 0xe000 ==> i > 0 && 0xd800 <= text[i - 1] < 0xdc00)
  }

  lemma {:induction false} HeadIsKeptWhen(text: Text)
    requires text != []
    ensures |EscapeHead(text)| >= HeadWidth(text)
    ensures IsPlain(text) ==> EscapeHead(text) == text[..HeadWidth(text)] && IsPlain(text[HeadWidth(text)..])
    ensures |EscapeHead(text)| == HeadWidth(text) && IsPlain(text[HeadWidth(text)..]) ==> IsPlain(text)
  {
    var width := HeadWidth(text);
    var rest := text[width..];
    assert forall i :: 0 <= i < |rest| ==> rest[i] == text[i + width];
    if |EscapeHead(text)| == width && IsPlain(rest) {
      forall i | 0 <= i < |text|
        ensures IsPlainAt(text, i)
      {
        if i >= width {
          assert IsPlainAt(rest, i - width);
          assert i + 1 < |text| ==> text[i + 1] == rest[i + 1 - width];
          assert i > width ==> text[i - 1] == rest[i - 1 - width];
        }
      }
    } else if IsPlain(text) {
      assert IsPlainAt(text, 0);
      forall i | 0 <= i < |rest|
        ensures IsPlainAt(rest, i)
      {
        assert IsPlainAt(text, i + width);
        assert width == 2 ==> !(0xd800 <= text[1] < 0xdc00);
      }
    }
  }

  lemma {:induction false} EscapeGrows(text: Text)
    ensures |Escape(text)| >= |text|
  {
    if text != [] {
      HeadIsKeptWhen(text);
      EscapeGrows(text[HeadWidth(text)..]);
    }
  }

  /** Exactly plain text stands unchanged between its quotes. */
  lemma {:induction false} PlainTextIsKept(text: Text)
    ensures Quote(text) == [0x22] + text + [0x22] <==> IsPlain(text)
  {
    EscapeKeeps(text);
    assert Quote(text)[1..|Quote(text)| - 1] == Escape(text);
    assert ([0x22] + text + [0x22])[1..|text| + 1] == text;
  }

  lemma {:induction false} EscapeKeeps(text: Text)
    ensures Escape(text) == text <==> IsPlain(text)
  {
    if text != [] {
      var width := HeadWidth(text);
      var rest := text[width..];
      HeadIsKeptWhen(text);
      EscapeGrows(rest);
      EscapeKeeps(rest);
      if Escape(text) == text {
        assert |EscapeHead(text)| + |Escape(rest)| == |text|;
        assert Escape(text)[|EscapeHead(text)|..] == Escape(rest);
      }
      assert text == text[..width] + rest;
    }
  }

  lemma {:induction false} JoinTwo(a: Text, b: Text)
    ensures Join([a, b]) == a + [0x2c] + b
  {
    assert [a, b][1..] == [b];
  }

  /** The marks of an array and of an object, in their own characters. */
  lemma {:induction false} MarksAre(a: Json, b: Json, k: Text, l: Text)
    ensures Print(Array([a, b])) == [0x5b] + (Print(a) + [0x2c] + Print(b)) + [0x5d]
    ensures Print(Object([Field(k, a), Field(l, b)])) ==
            [0x7b] + ((Quote(k) + [0x3a] + Print(a)) + [0x2c] + (Quote(l) + [0x3a] + Print(b))) + [0x7d]
  {
    var v, fields := Array([a, b]), [Field(k, a), Field(l, b)];
    PrintShape(v);
    PrintShape(Object(fields));
    assert Parts(false, AsFields(v.items)) == [Print(a), Print(b)];
    assert Parts(true, fields) == [Quote(k) + [0x3a] + Print(a), Quote(l) + [0x3a] + Print(b)];
    JoinTwo(Print(a), Print(b));
    JoinTwo(Quote(k) + [0x3a] + Print(a), Quote(l) + [0x3a] + Print(b));
  }

  /** The units that have a short escape, and how another control character is written. */
  lemma {:induction false} EscapesAre()
    ensures Escape([0x22]) == [0x5c, 0x22] && Escape([0x5c]) == [0x5c, 0x5c]
    ensures Escape([0x08]) == [0x5c, 0x62] && Escape([0x09]) == [0x5c, 0x74] && Escape([0x0a]) == [0x5c, 0x6e]
    ensures Escape([0x0c]) == [0x5c, 0x66] && Escape([0x0d]) == [0x5c, 0x72]
    ensures Escape([0x1f]) == [0x5c, 0x75, 0x30, 0x30, 0x31, 0x66]
  {
    OneEscape(0x22);
    OneEscape(0x5c);
    OneEscape(0x08);
    OneEscape(0x09);
    OneEscape(0x0a);
    OneEscape(0x0c);
    OneEscape(0x0d);
    OneEscape(0x1f);
  }

  lemma {:induction false} OneEscape(u: CodeUnit)
    ensures Escape([u]) == EscapeHead([u])
  {
    assert [u][1..] == [];
  }

  /** The texts JavaScript prints for numbers are well formed, as -1.5e+21 is. */
  lemma {:induction false} NumbersAreWellFormed()
    ensures WellFormed(Number([0x2d, 0x31, 0x2e, 0x35, 0x65, 0x2b, 0x32, 0x31]))
  {
  }

  // ----- the platform's own text ----------------------------------------------

  function Join(parts: seq<Text>): Text {
    if parts == [] then []
    else if |parts| == 1 then parts[0]
    else parts[0] + [COMMA] + Join(parts[1..])
  }

  /** `JSON.stringify`, which keeps the order of the keys. */
  function Print(v: Json): Text {
    match v
    case Null => NULL_TEXT
    case Bool(value) => if value then TRUE_TEXT else FALSE_TEXT
    case Number(printed) => printed
    case Str(text) => Quote(text)
    case Array(items) =>
      [OPEN_ARRAY] + Join(seq(|items|, i requires 0 <= i < |items| => Print(items[i]))) + [CLOSE_ARRAY]
    case Object(fields) =>
      [OPEN_OBJECT]
      + Join(seq(|fields|, i requires 0 <= i < |fields| => Quote(fields[i].key) + [COLON] + Print(fields[i].value)))
      + [CLOSE_OBJECT]
  }

  // ----- the text determines the value ----------------------------------------

  /** One part of an array or object: an item, or a key with its value. */
  function PartText(keyed: bool, field: Field): Text {
    if keyed then Quote(field.key) + [COLON] + Print(field.value) else Print(field.value)
  }

  function Parts(keyed: bool, fields: seq<Field>): (r: seq<Text>)
    ensures |r| == |fields|
  {
    seq(|fields|, i requires 0 <= i < |fields| => PartText(keyed, fields[i]))
  }

  function AsFields(items: seq<Json>): (r: seq<Field>)
    ensures |r| == |items|
  {
    seq(|items|, i requires 0 <= i < |items| => Field([], items[i]))
  }

  lemma {:induction false} PrintShape(v: Json)
    ensures v.Array? ==> Print(v) == [OPEN_ARRAY] + Join(Parts(false, AsFields(v.items))) + [CLOSE_ARRAY]
    ensures v.Object? ==> Print(v) == [OPEN_OBJECT] + Join(Parts(true, v.fields)) + [CLOSE_OBJECT]
  {
    if v.Array? {
      var texts := seq(|v.items|, i requires 0 <= i < |v.items| => Print(v.items[i]));
      assert texts == Parts(false, AsFields(v.items));
    } else if v.Object? {
      var texts := seq(|v.fields|, i requires 0 <= i < |v.fields| =>
        Quote(v.fields[i].key) + [COLON] + Print(v.fields[i].value));
      assert texts == Parts(true, v.fields);
    }
  }

  predicate Closes(u: CodeUnit) {
    u == COMMA || u == CLOSE_ARRAY || u == CLOSE_OBJECT
  }

  /** What can follow a value: nothing, a comma or a closing bracket. */
  predicate Ends(rest: Text) {
    rest == [] || Closes(rest[0])
  }

  function FirstUnit(v: Json): CodeUnit
    requires WellFormed(v)
  {
    match v
    case Null => 0x6e
    case Bool(value) => if value then 0x74 else 0x66
    case Number(printed) => printed[0]
    case Str(_) => QUOTE
    case Array(_) => OPEN_ARRAY
    case Object(_) => OPEN_OBJECT
  }

  lemma {:induction false} Opens(v: Json)
    requires WellFormed(v)
    ensures Print(v) != [] && Print(v)[0] == FirstUnit(v) && !Closes(FirstUnit(v))
  {
    PrintShape(v);
  }

  /** The first unit tells the kinds of value apart. */
  lemma {:induction false} SameKind(a: Json, b: Json, r: Text, s: Text)
    requires WellFormed(a) && WellFormed(b) && Print(a) + r == Print(b) + s
    ensures FirstUnit(a) == FirstUnit(b)
    ensures (a.Null? <==> b.Null?) && (a.Bool? <==> b.Bool?) && (a.Number? <==> b.Number?)
    ensures (a.Str? <==> b.Str?) && (a.Array? <==> b.Array?) && (a.Object? <==> b.Object?)
    ensures a.Bool? ==> a == b
  {
    Opens(a);
    Opens(b);
    assert (Print(a) + r)[0] == (Print(b) + s)[0];
  }

  function LeadingNumber(text: Text): nat {
    if text == [] || !IsNumberUnit(text[0]) then 0 else 1 + LeadingNumber(text[1..])
  }

  lemma {:induction false} NumberLength(printed: Text, rest: Text)
    requires Ends(rest) && forall i :: 0 <= i < |printed| ==> IsNumberUnit(printed[i])
    ensures LeadingNumber(printed + rest) == |printed|
  {
    if printed != [] {
      NumberLength(printed[1..], rest);
      assert (printed + rest)[1..] == printed[1..] + rest;
    } else {
      assert printed + rest == rest;
    }
  }

  /** Equal wholes with equally long fronts are equal in both halves. */
  lemma {:induction false} SplitsAlike(left: Text, right: Text, r: Text, s: Text)
    requires left + r == right + s && |left| == |right|
    ensures left == right && r == s
  {
    assert left == (left + r)[..|left|] && right == (right + s)[..|right|];
    assert r == (left + r)[|left|..] && s == (right + s)[|right|..];
  }

  lemma {:induction false} ValuesCancel(a: Json, b: Json, r: Text, s: Text)
    requires WellFormed(a) && WellFormed(b) && Ends(r) && Ends(s)
    requires Print(a) + r == Print(b) + s
    ensures a == b && r == s
    decreases a, 3, 0
  {
    SameKind(a, b, r, s);
    if a.Array? {
      ArraysCancel(a, b, r, s);
    } else if a.Object? {
      ObjectsCancel(a, b, r, s);
    } else {
      LeavesCancel(a, b, r, s);
    }
  }

  lemma {:induction false} LeavesCancel(a: Json, b: Json, r: Text, s: Text)
    requires WellFormed(a) && WellFormed(b) && Ends(r) && Ends(s)
    requires !a.Array? && !a.Object? && Print(a) + r == Print(b) + s
    ensures a == b && r == s
  {
    SameKind(a, b, r, s);
    if a.Str? {
      QuoteCancels(a.text, b.text, r, s);
    } else {
      if a.Number? {
        NumberLength(a.printed, r);
        NumberLength(b.printed, s);
      }
      SplitsAlike(Print(a), Print(b), r, s);
    }
  }

  lemma {:induction false} HeadsCancel(u: CodeUnit, v: CodeUnit, r: Text, s: Text)
    requires [u] + r == [v] + s
    ensures u == v && r == s
  {
    assert ([u] + r)[0] == ([v] + s)[0];
    assert r == ([u] + r)[1..] && s == ([v] + s)[1..];
  }

  lemma {:induction false} BracketsCancel(open: CodeUnit, x: Text, y: Text, close: CodeUnit, r: Text, s: Text)
    requires [open] + x + [close] + r == [open] + y + [close] + s
    ensures x + [close] + r == y + [close] + s
  {
    assert [open] + x + [close] + r == [open] + (x + [close] + r);
    assert [open] + y + [close] + s == [open] + (y + [close] + s);
    HeadsCancel(open, open, x + [close] + r, y + [close] + s);
  }

  lemma {:induction false} ArraysCancel(a: Json, b: Json, r: Text, s: Text)
    requires WellFormed(a) && WellFormed(b) && Ends(r) && Ends(s) && a.Array? && b.Array?
    requires Print(a) + r == Print(b) + s
    ensures a == b && r == s
    decreases a, 2, 0
  {
    var left, right := AsFields(a.items), AsFields(b.items);
    PrintShape(a);
    PrintShape(b);
    BracketsCancel(OPEN_ARRAY, Join(Parts(false, left)), Join(Parts(false, right)), CLOSE_ARRAY, r, s);
    PartsCancel(a, false, left, right, CLOSE_ARRAY, r, s);
    SameItems(a.items, b.items);
  }

  lemma {:induction false} ObjectsCancel(a: Json, b: Json, r: Text, s: Text)
    requires WellFormed(a) && WellFormed(b) && Ends(r) && Ends(s) && a.Object? && b.Object?
    requires Print(a) + r == Print(b) + s
    ensures a == b && r == s
    decreases a, 2, 0
  {
    PrintShape(a);
    PrintShape(b);
    BracketsCancel(OPEN_OBJECT, Join(Parts(true, a.fields)), Join(Parts(true, b.fields)), CLOSE_OBJECT, r, s);
    PartsCancel(a, true, a.fields, b.fields, CLOSE_OBJECT, r, s);
  }

  ghost predicate Fit(fields: seq<Field>) {
    forall i :: 0 <= i < |fields| ==> WellFormed(fields[i].value)
  }

  lemma {:induction false} SameItems(left: seq<Json>, right: seq<Json>)
    requires AsFields(left) == AsFields(right)
    ensures left == right
  {
    assert |left| == |AsFields(left)| == |right|;
    forall i | 0 <= i < |left|
      ensures left[i] == right[i]
    {
      assert AsFields(left)[i].value == left[i] && AsFields(right)[i].value == right[i];
    }
  }

  /** What stands behind the first part: the other parts, or the end. */
  function Tail(parts: seq<Text>, close: CodeUnit, rest: Text): Text
    requires parts != []
  {
    if |parts| == 1 then [close] + rest else [COMMA] + (Join(parts[1..]) + [close] + rest)
  }

  lemma {:induction false} JoinSplits(parts: seq<Text>, close: CodeUnit, rest: Text)
    requires parts != []
    ensures Join(parts) + [close] + rest == parts[0] + Tail(parts, close, rest)
  {
  }

  lemma {:induction false} PartsCancel(
    parent: Json, keyed: bool, left: seq<Field>, right: seq<Field>, close: CodeUnit, r: Text, s: Text)
    requires close == CLOSE_ARRAY || close == CLOSE_OBJECT
    requires Fit(left) && Fit(right) && Ends(r) && Ends(s)
    requires forall i :: 0 <= i < |left| ==> left[i].value < parent
    requires !keyed ==> Keyless(left) && Keyless(right)
    requires Join(Parts(keyed, left)) + [close] + r == Join(Parts(keyed, right)) + [close] + s
    ensures left == right && r == s
    decreases parent, 1, |left|
  {
    PartOpens(keyed, left, close, r);
    PartOpens(keyed, right, close, s);
    if left != [] {
      FirstPartCancels(parent, keyed, left, right, close, r, s);
      if |left| > 1 {
        RestFits(keyed, left);
        RestFits(keyed, right);
        PartsCancel(parent, keyed, left[1..], right[1..], close, r, s);
        assert left == left[..1] + left[1..] && right == right[..1] + right[1..];
      }
    } else {
      assert Join(Parts(keyed, left)) + [close] + r == [close] + r;
      assert Join(Parts(keyed, right)) + [close] + s == [close] + s;
      HeadsCancel(close, close, r, s);
    }
  }

  lemma {:induction false} RestFits(keyed: bool, fields: seq<Field>)
    requires fields != [] && Fit(fields)
    ensures Parts(keyed, fields)[1..] == Parts(keyed, fields[1..]) && Fit(fields[1..])
    ensures Keyless(fields) ==> Keyless(fields[1..])
  {
  }

  ghost predicate Keyless(fields: seq<Field>) {
    forall i :: 0 <= i < |fields| ==> fields[i].key == []
  }

  lemma {:induction false} FirstPartCancels(
    parent: Json, keyed: bool, left: seq<Field>, right: seq<Field>, close: CodeUnit, r: Text, s: Text)
    requires left != [] && right != [] && (close == CLOSE_ARRAY || close == CLOSE_OBJECT)
    requires Fit(left) && Fit(right) && Ends(r) && Ends(s) && left[0].value < parent
    requires !keyed ==> Keyless(left) && Keyless(right)
    requires Join(Parts(keyed, left)) + [close] + r == Join(Parts(keyed, right)) + [close] + s
    ensures left[..1] == right[..1] && (|left| == 1 <==> |right| == 1)
    ensures if |left| == 1 then r == s
            else Join(Parts(keyed, left)[1..]) + [close] + r == Join(Parts(keyed, right)[1..]) + [close] + s
    decreases parent, 0, 1
  {
    var a, b := Parts(keyed, left), Parts(keyed, right);
    JoinSplits(a, close, r);
    JoinSplits(b, close, s);
    PartCancels(parent, keyed, left[0], right[0], Tail(a, close, r), Tail(b, close, s));
    HeadsCancel(if |a| == 1 then close else COMMA, if |b| == 1 then close else COMMA,
                if |a| == 1 then r else Join(a[1..]) + [close] + r,
                if |b| == 1 then s else Join(b[1..]) + [close] + s);
  }

  /** The text of some parts opens with the closing unit only when there are none. */
  lemma {:induction false} PartOpens(keyed: bool, fields: seq<Field>, close: CodeUnit, rest: Text)
    requires Fit(fields) && (close == CLOSE_ARRAY || close == CLOSE_OBJECT)
    ensures (Join(Parts(keyed, fields)) + [close] + rest)[0] == close <==> fields == []
  {
    if fields != [] {
      Opens(fields[0].value);
      JoinSplits(Parts(keyed, fields), close, rest);
      assert Parts(keyed, fields)[0] == PartText(keyed, fields[0]);
    }
  }

  lemma {:induction false} KeyedText(field: Field, rest: Text)
    ensures PartText(true, field) + rest == Quote(field.key) + ([COLON] + (Print(field.value) + rest))
    ensures PartText(false, field) + rest == Print(field.value) + rest
  {
  }

  lemma {:induction false} PartCancels(parent: Json, keyed: bool, left: Field, right: Field, r: Text, s: Text)
    requires WellFormed(left.value) && WellFormed(right.value) && left.value < parent
    requires Ends(r) && Ends(s) && (keyed || left.key == right.key)
    requires PartText(keyed, left) + r == PartText(keyed, right) + s
    ensures left == right && r == s
    decreases parent, 0, 0
  {
    var a, b := Print(left.value) + r, Print(right.value) + s;
    KeyedText(left, r);
    KeyedText(right, s);
    if keyed {
      QuoteCancels(left.key, right.key, [COLON] + a, [COLON] + b);
      HeadsCancel(COLON, COLON, a, b);
    }
    ValuesCancel(left.value, right.value, r, s);
  }

  /** Two well-formed values print alike exactly when they are the same, key order included. */
  lemma {:induction false} PrintIsInjective(a: Json, b: Json)
    requires WellFormed(a) && WellFormed(b)
    ensures Print(a) == Print(b) <==> a == b
  {
    if Print(a) == Print(b) {
      ValuesCancel(a, b, [], []);
    }
  }
}
