/**
 Prices as text: the parsers of shared/src/index.ts and the printer of
 frontend/src/format.ts that they undo.
 */
module PriceText {
  import opened Wrappers

  const SOMPI_PER_KAS := 100_000_000
  const MIN_MEMBERSHIP_PRICE_SOMPI := 100_000_000
  const MAX_MEMBERSHIP_PRICE_SOMPI := 100_000_000_000_000
  const FRACTION_DIGITS := 8

  // ----- digits ---------------------------------------------------------------

  predicate IsDigit(c: char) {
    '0' <= c <= '9'
  }

  predicate AllDigits(s: string) {
    forall i :: 0 <= i < |s| ==> IsDigit(s[i])
  }

  predicate AllZeros(s: string) {
    forall i :: 0 <= i < |s| ==> s[i] == '0'
  }

  function DigitOf(d: nat): (c: char)
    requires d < 10
    ensures IsDigit(c) && c as int - '0' as int == d
  {
    ('0' as int + d) as char
  }

  /** `BigInt` of a string of digits; the empty string is zero. */
  function ValueOf(s: string): nat
    requires AllDigits(s)
  {
    if s == "" then 0 else ValueOf(s[..|s| - 1]) * 10 + (s[|s| - 1] as int - '0' as int)
  }

  function Power10(k: nat): nat {
    if k == 0 then 1 else 10 * Power10(k - 1)
  }

  lemma {:induction false} ValueOfConcat(left: string, right: string)
    requires AllDigits(left) && AllDigits(right)
    ensures AllDigits(left + right)
    ensures ValueOf(left + right) == ValueOf(left) * Power10(|right|) + ValueOf(right)
  {
    if right == "" {
      assert left + right == left;
    } else {
      var n := |right| - 1;
      ValueOfConcat(left, right[..n]);
      assert (left + right)[..|left + right| - 1] == left + right[..n];
      TenTimes(ValueOf(left), Power10(n));
    }
  }

  lemma {:induction false} TenTimes(a: nat, b: nat)
    ensures a * (10 * b) == 10 * (a * b)
  {
  }

  lemma {:induction false} ZerosAreZero(s: string)
    requires AllZeros(s)
    ensures AllDigits(s) && ValueOf(s) == 0
  {
    if s != "" {
      ZerosAreZero(s[..|s| - 1]);
    }
  }

  // ----- parsing --------------------------------------------------------------

  /** What `String.prototype.trim` removes. */
  predicate IsSpace(c: char) {
    var u := c as int;
    || 0x09 <= u <= 0x0d || u == 0x20 || u == 0xa0 || u == 0x1680 || 0x2000 <= u <= 0x200a
    || u == 0x2028 || u == 0x2029 || u == 0x202f || u == 0x205f || u == 0x3000 || u == 0xfeff
  }

  function Trim(s: string): string {
    if s == "" then ""
    else if IsSpace(s[0]) then Trim(s[1..])
    else if IsSpace(s[|s| - 1]) then Trim(s[..|s| - 1])
    else s
  }

  function LeadingDigits(s: string): (k: nat)
    ensures k <= |s| && AllDigits(s[..k]) && (k < |s| ==> !IsDigit(s[k]))
  {
    if s == "" || !IsDigit(s[0]) then 0
    else
      var k := 1 + LeadingDigits(s[1..]);
      assert s[..k] == [s[0]] + s[1..][..k - 1];
      k
  }

  datatype Price = Price(whole: string, fraction: string)

  ghost predicate IsPrice(p: Price) {
    p.whole != "" && AllDigits(p.whole) && AllDigits(p.fraction) && |p.fraction| <= FRACTION_DIGITS
  }

  /** `/^(\d+)(?:\.(\d{1,8}))?$/`; an absent fraction is the empty string. */
  function MatchPrice(s: string): (r: Option<Price>)
    ensures r.Some? ==> IsPrice(r.value)
  {
    var k := LeadingDigits(s);
    if k == 0 then None
    else if k == |s| then Some(Price(s, ""))
    else if s[k] == '.' && 1 <= |s| - k - 1 <= FRACTION_DIGITS && AllDigits(s[k + 1..]) then
      Some(Price(s[..k], s[k + 1..]))
    else None
  }

  function PadEnd(s: string, size: nat): (r: string)
    ensures |s| <= size ==> |r| == size
    ensures s <= r && AllZeros(r[|s|..])
    decreases size - |s|
  {
    if |s| >= size then s else PadEnd(s + "0", size)
  }

  function Sompi(p: Price): nat
    requires IsPrice(p)
  {
    PaddedIsDigits(p.fraction, FRACTION_DIGITS);
    ValueOf(p.whole) * SOMPI_PER_KAS + ValueOf(PadEnd(p.fraction, FRACTION_DIGITS))
  }

  lemma {:induction false} PaddedIsDigits(s: string, size: nat)
    requires AllDigits(s)
    ensures AllDigits(PadEnd(s, size))
  {
    var r := PadEnd(s, size);
    assert forall i :: |s| <= i < |r| ==> r[i] == r[|s|..][i - |s|];
  }

  function ParsePostPrice(value: string): Option<nat> {
    match MatchPrice(Trim(value))
    case None => None
    case Some(p) => Some(Sompi(p))
  }

  function ParseKasToSompi(value: string): Option<nat> {
    match MatchPrice(Trim(value))
    case None => None
    case Some(p) => if Sompi(p) > 0 then Some(Sompi(p)) else None
  }

  datatype PriceProblem = Empty | Format | BelowMin | AboveMax

  function MembershipPriceProblem(value: string): Option<PriceProblem> {
    match MatchPrice(Trim(value))
    case None => Some(if Trim(value) != "" then Format else Empty)
    case Some(p) =>
      if Sompi(p) < MIN_MEMBERSHIP_PRICE_SOMPI then Some(BelowMin)
      else if Sompi(p) > MAX_MEMBERSHIP_PRICE_SOMPI then Some(AboveMax)
      else None
  }

  function ParseMembershipPrice(value: string): Option<nat> {
    if MembershipPriceProblem(value).Some? then None else ParseKasToSompi(value)
  }

  // ----- what the parsers accept and return -----------------------------------

  function Spelling(p: Price): string {
    p.whole + if p.fraction == "" then "" else "." + p.fraction
  }

  lemma {:induction false} LeadingDigitsAre(s: string, k: nat)
    requires k <= |s| && AllDigits(s[..k]) && (k < |s| ==> !IsDigit(s[k]))
    ensures LeadingDigits(s) == k
  {
    if k > 0 {
      assert s[0] == s[..k][0];
      assert s[1..][..k - 1] == s[..k][1..];
      LeadingDigitsAre(s[1..], k - 1);
    }
  }

  /** The match finds the one whole and fraction that spell the text. */
  lemma {:induction false} MatchesSpelling(p: Price)
    requires IsPrice(p)
    ensures MatchPrice(Spelling(p)) == Some(p)
  {
    var s := Spelling(p);
    assert s[..|p.whole|] == p.whole;
    LeadingDigitsAre(s, |p.whole|);
    if p.fraction != "" {
      assert s[|p.whole| + 1..] == p.fraction;
    } else {
      assert s == p.whole;
    }
  }

  lemma {:induction false} MatchIsSpelling(s: string)
    requires MatchPrice(s).Some?
    ensures Spelling(MatchPrice(s).value) == s
  {
    var k := LeadingDigits(s);
    if k < |s| {
      assert s == s[..k] + "." + s[k + 1..];
    } else {
      assert s[..k] == s;
    }
  }

  /** The sompi amount is the exact decimal, eight places up: nothing is rounded. */
  lemma {:induction false} SompiIsExact(p: Price)
    requires IsPrice(p)
    ensures Sompi(p) * Power10(|p.fraction|) ==
            (ValueOf(p.whole) * Power10(|p.fraction|) + ValueOf(p.fraction)) * SOMPI_PER_KAS
  {
    var padded := PadEnd(p.fraction, FRACTION_DIGITS);
    var zeros := padded[|p.fraction|..];
    assert padded == p.fraction + zeros;
    ZerosAreZero(zeros);
    ValueOfConcat(p.fraction, zeros);
    PowersFill(|p.fraction|);
    Distributes(ValueOf(p.whole), ValueOf(p.fraction), Power10(|zeros|), Power10(|p.fraction|));
  }

  lemma {:induction false} Distributes(whole: nat, fraction: nat, fill: nat, up: nat)
    requires fill * up == SOMPI_PER_KAS
    ensures (whole * SOMPI_PER_KAS + fraction * fill) * up == (whole * up + fraction) * SOMPI_PER_KAS
  {
    assert fraction * fill * up == fraction * (fill * up);
  }

  lemma {:induction false} PowersFill(k: nat)
    requires k <= FRACTION_DIGITS
    ensures Power10(FRACTION_DIGITS - k) * Power10(k) == SOMPI_PER_KAS
  {
    assert Power10(2) == 100;
    assert Power10(4) == 10_000;
    assert Power10(6) == 1_000_000;
    assert Power10(8) == 100_000_000;
    assert Power10(1) == 10 && Power10(3) == 1_000 && Power10(5) == 100_000 && Power10(7) == 10_000_000;
    assert k in {0, 1, 2, 3, 4, 5, 6, 7, 8};
  }

  /**
   A membership price is accepted exactly when the trimmed text spells a decimal
   that is within the covenant's bounds, and is then that decimal.
   */
  lemma {:induction false} MembershipPricesAre(value: string, price: nat)
    ensures ParseMembershipPrice(value) == Some(price) <==>
            && MIN_MEMBERSHIP_PRICE_SOMPI <= price <= MAX_MEMBERSHIP_PRICE_SOMPI
            && exists p :: IsPrice(p) && Spelling(p) == Trim(value) && Sompi(p) == price
  {
    var text := Trim(value);
    if MatchPrice(text).Some? {
      MatchIsSpelling(text);
    }
    forall p | IsPrice(p) && Spelling(p) == text
      ensures MatchPrice(text) == Some(p)
    {
      MatchesSpelling(p);
    }
  }

  // ----- printing -------------------------------------------------------------

  /** `BigInt.prototype.toString`. */
  function Decimal(n: nat): (s: string)
    ensures s != "" && AllDigits(s)
  {
    if n < 10 then [DigitOf(n)] else Decimal(n / 10) + [DigitOf(n % 10)]
  }

  function PadStart(s: string, size: nat): (r: string)
    ensures |r| >= size && |r| >= |s|
    ensures AllDigits(s) ==> AllDigits(r)
    decreases size - |s|
  {
    if |s| >= size then s else PadStart("0" + s, size)
  }

  /** `/\.?0+$/` matches at `i`: an optional point, then zeros to the end. */
  predicate TailAt(s: string, i: nat) {
    i < |s| && var from := if s[i] == '.' then i + 1 else i; from < |s| && AllZeros(s[from..])
  }

  /** `s.replace(/\.?0+$/, "")`, searching for the leftmost match from `i`. */
  function StripTail(s: string, i: nat): string
    requires i <= |s|
    decreases |s| - i
  {
    if i == |s| then s else if TailAt(s, i) then s[..i] else StripTail(s, i + 1)
  }

  function FormatKas(sompi: nat): string {
    var padded := PadStart(Decimal(sompi), FRACTION_DIGITS + 1);
    var point := |padded| - FRACTION_DIGITS;
    StripTail(padded[..point] + "." + padded[point..], 0)
  }

  // ----- the round trip -------------------------------------------------------

  lemma {:induction false} DecimalReadsBack(n: nat)
    ensures ValueOf(Decimal(n)) == n
  {
    if n >= 10 {
      DecimalReadsBack(n / 10);
      assert Decimal(n)[..|Decimal(n)| - 1] == Decimal(n / 10);
    } else {
      assert Decimal(n)[..0] == "";
    }
  }

  lemma {:induction false} PadStartKeepsValue(s: string, size: nat)
    requires AllDigits(s)
    ensures ValueOf(PadStart(s, size)) == ValueOf(s)
    decreases size - |s|
  {
    if |s| < size {
      PadStartKeepsValue("0" + s, size);
      ZerosAreZero("0");
      ValueOfConcat("0", s);
    }
  }

  lemma {:induction false} StripsAt(s: string, i: nat, k: nat)
    requires i <= k <= |s| && (k == |s| || TailAt(s, k))
    requires forall j :: i <= j < k ==> !TailAt(s, j)
    ensures StripTail(s, i) == s[..k]
    decreases k - i
  {
    if i < k {
      StripsAt(s, i + 1, k);
    }
  }

  /** Length of `s` without its trailing zeros. */
  function Significant(s: string): (k: nat)
    ensures k <= |s| && AllZeros(s[k..]) && (k > 0 ==> s[k - 1] != '0')
  {
    if s == "" || s[|s| - 1] != '0' then |s|
    else
      var k := Significant(s[..|s| - 1]);
      assert s[k..] == s[..|s| - 1][k..] + "0";
      k
  }

  lemma {:induction false} NoTailBefore(s: string, j: nat, stop: nat)
    requires j <= stop < |s| && s[stop] != '0' && (s[j] == '.' ==> j < stop)
    ensures !TailAt(s, j)
  {
    var from := if s[j] == '.' then j + 1 else j;
    assert s[from..][stop - from] == s[stop];
  }

  lemma {:induction false} StripsToSpelling(whole: string, fraction: string, k: nat)
    requires AllDigits(whole) && AllDigits(fraction) && fraction != ""
    requires k <= |fraction| && AllZeros(fraction[k..]) && (k > 0 ==> fraction[k - 1] != '0')
    ensures StripTail(whole + "." + fraction, 0) == Spelling(Price(whole, fraction[..k]))
  {
    var s, n := whole + "." + fraction, |whole|;
    var cut := if k == 0 then n else n + 1 + k;
    DecimalUnits(s, whole, fraction);
    NoTails(s, n, k, cut);
    TailBehind(s, whole, fraction, k, cut);
    StripsAt(s, 0, cut);
    CutSpells(s, whole, fraction, k, cut);
  }

  lemma {:induction false} DecimalUnits(s: string, whole: string, fraction: string)
    requires s == whole + "." + fraction && AllDigits(whole) && AllDigits(fraction)
    ensures |s| == |whole| + 1 + |fraction| && s[|whole|] == '.'
    ensures forall j :: 0 <= j < |s| && j != |whole| ==> IsDigit(s[j])
    ensures forall i :: 0 <= i < |fraction| ==> s[|whole| + 1 + i] == fraction[i]
  {
    forall j | 0 <= j < |s| && j != |whole|
      ensures IsDigit(s[j])
    {
      assert s[j] == if j < |whole| then whole[j] else fraction[j - |whole| - 1];
    }
  }

  lemma {:induction false} TailBehind(s: string, whole: string, fraction: string, k: nat, cut: nat)
    requires s == whole + "." + fraction && k <= |fraction| && AllZeros(fraction[k..])
    requires cut == if k == 0 then |whole| else |whole| + 1 + k
    requires fraction != ""
    ensures cut <= |s| && (cut == |s| || TailAt(s, cut))
  {
    var from := |whole| + 1 + k;
    assert s[from..] == fraction[k..];
    if cut < |s| && k > 0 {
      assert s[cut] == fraction[k..][0];
    }
  }

  lemma {:induction false} CutSpells(s: string, whole: string, fraction: string, k: nat, cut: nat)
    requires s == whole + "." + fraction && k <= |fraction|
    requires cut == if k == 0 then |whole| else |whole| + 1 + k
    ensures s[..cut] == Spelling(Price(whole, fraction[..k]))
  {
    if k == 0 {
      assert s[..cut] == whole;
    } else {
      assert s[..cut] == whole + "." + fraction[..k];
      assert whole + ("." + fraction[..k]) == whole + "." + fraction[..k];
    }
  }

  lemma {:induction false} NoTails(s: string, n: nat, k: nat, cut: nat)
    requires n + 1 + k <= |s| && s[n] == '.' && cut == if k == 0 then n else n + 1 + k
    requires forall j :: 0 <= j < |s| && j != n ==> IsDigit(s[j])
    requires k > 0 ==> s[n + k] != '0'
    ensures forall j :: 0 <= j < cut ==> !TailAt(s, j)
  {
    forall j | 0 <= j < cut
      ensures !TailAt(s, j)
    {
      NoTailBefore(s, j, if j < n then n else n + k);
    }
  }

  lemma {:induction false} TrimKeepsPrice(p: Price)
    requires IsPrice(p)
    ensures Trim(Spelling(p)) == Spelling(p)
  {
    var s := Spelling(p);
    assert s[0] == p.whole[0];
    assert s[|s| - 1] == if p.fraction == "" then p.whole[|p.whole| - 1] else p.fraction[|p.fraction| - 1];
  }

  lemma {:induction false} DigitsSplit(s: string, k: nat)
    requires k <= |s| && AllDigits(s)
    ensures AllDigits(s[..k]) && AllDigits(s[k..])
  {
  }

  lemma {:induction false} PadEndRestores(s: string, k: nat)
    requires k <= |s| && AllZeros(s[k..])
    ensures PadEnd(s[..k], |s|) == s
  {
    var r := PadEnd(s[..k], |s|);
    forall i | 0 <= i < |s|
      ensures r[i] == s[i]
    {
      if i >= k {
        assert s[k..][i - k] == '0' && r[k..][i - k] == '0';
      }
    }
  }

  lemma {:induction false} SompiOfStripped(whole: string, fraction: string, k: nat)
    requires whole != "" && |fraction| == FRACTION_DIGITS && AllDigits(whole) && AllDigits(fraction)
    requires k <= |fraction| && AllZeros(fraction[k..])
    ensures IsPrice(Price(whole, fraction[..k]))
    ensures Sompi(Price(whole, fraction[..k])) == ValueOf(whole) * SOMPI_PER_KAS + ValueOf(fraction)
  {
    DigitsSplit(fraction, k);
    PadEndRestores(fraction, k);
  }

  lemma {:induction false} SpellingParses(p: Price)
    requires IsPrice(p)
    ensures ParsePostPrice(Spelling(p)) == Some(Sompi(p))
  {
    TrimKeepsPrice(p);
    MatchesSpelling(p);
  }

  /** Reading back a printed amount gives the amount, for every amount. */
  lemma {:induction false} ParserUndoesPrinter(n: nat)
    ensures ParsePostPrice(FormatKas(n)) == Some(n)
  {
    var p := PrintsTightly(n);
    SpellingParses(p);
  }

  /** The membership parser undoes the printer on exactly the prices a covenant allows. */
  lemma {:induction false} MembershipParserUndoesPrinter(n: nat)
    ensures ParseMembershipPrice(FormatKas(n)) ==
            if MIN_MEMBERSHIP_PRICE_SOMPI <= n <= MAX_MEMBERSHIP_PRICE_SOMPI then Some(n) else None
  {
    ParserUndoesPrinter(n);
  }

  // ----- what the parsers make of any text ------------------------------------

  predicate AllSpaces(s: string) {
    forall i :: 0 <= i < |s| ==> IsSpace(s[i])
  }

  /** Trimming takes spaces off both ends, and all of them: the rest is empty or neither starts nor ends with one. */
  lemma {:induction false} TrimIs(s: string) returns (front: string, back: string)
    ensures s == front + Trim(s) + back && AllSpaces(front) && AllSpaces(back)
    ensures Trim(s) != "" ==> !IsSpace(Trim(s)[0]) && !IsSpace(Trim(s)[|Trim(s)| - 1])
    decreases |s|
  {
    front, back := "", "";
    if s != "" && IsSpace(s[0]) {
      var rest, tail := TrimIs(s[1..]);
      front, back := [s[0]] + rest, tail;
      SpaceInFront(s, rest, Trim(s[1..]), tail);
    } else if s != "" && IsSpace(s[|s| - 1]) {
      var head, rest := TrimIs(s[..|s| - 1]);
      front, back := head, rest + [s[|s| - 1]];
      SpaceBehind(s, head, Trim(s[..|s| - 1]), rest);
    }
  }

  lemma {:induction false} SpaceInFront(s: string, front: string, middle: string, back: string)
    requires s != "" && s[1..] == front + middle + back && AllSpaces(front) && IsSpace(s[0])
    ensures s == [s[0]] + front + middle + back && AllSpaces([s[0]] + front)
  {
    assert s == [s[0]] + s[1..];
  }

  lemma {:induction false} SpaceBehind(s: string, front: string, middle: string, back: string)
    requires s != "" && s[..|s| - 1] == front + middle + back && AllSpaces(back) && IsSpace(s[|s| - 1])
    ensures s == front + middle + (back + [s[|s| - 1]]) && AllSpaces(back + [s[|s| - 1]])
  {
    assert s == s[..|s| - 1] + [s[|s| - 1]];
  }

  /** The trimmed text spells this amount, as a decimal of at most eight places. */
  ghost predicate Spells(value: string, amount: nat) {
    exists p :: IsPrice(p) && Spelling(p) == Trim(value) && Sompi(p) == amount
  }

  lemma {:induction false} SpellsOnce(value: string, p: Price)
    requires IsPrice(p) && Spelling(p) == Trim(value)
    ensures MatchPrice(Trim(value)) == Some(p)
  {
    MatchesSpelling(p);
  }

  lemma {:induction false} MatchedSpells(value: string)
    ensures forall amount: nat :: Spells(value, amount) <==> MatchPrice(Trim(value)).Some? && Sompi(MatchPrice(Trim(value)).value) == amount
  {
    var matched := MatchPrice(Trim(value));
    if matched.Some? {
      MatchIsSpelling(Trim(value));
    }
    forall amount: nat | Spells(value, amount)
      ensures matched.Some? && Sompi(matched.value) == amount
    {
      var p :| IsPrice(p) && Spelling(p) == Trim(value) && Sompi(p) == amount;
      SpellsOnce(value, p);
    }
  }

  /** A post's price is whatever the text spells; `parseKasToSompi` takes only what is more than nothing. */
  lemma {:induction false} ParsedPricesAre(value: string, amount: nat)
    ensures ParsePostPrice(value) == Some(amount) <==> Spells(value, amount)
    ensures ParseKasToSompi(value) == Some(amount) <==> Spells(value, amount) && amount > 0
  {
    MatchedSpells(value);
  }

  /** What is wrong with a membership price: nothing there, no decimal, below 1 KAS, above 1,000,000 KAS, or nothing. */
  lemma {:induction false} ProblemsAre(value: string)
    ensures var problem := MembershipPriceProblem(value);
            && (problem == Some(Empty) <==> AllSpaces(value))
            && (problem == Some(Format) <==> !AllSpaces(value) && !exists amount :: Spells(value, amount))
            && (problem == Some(BelowMin) <==> exists amount :: Spells(value, amount) && amount < 100_000_000)
            && (problem == Some(AboveMax) <==> exists amount :: Spells(value, amount) && amount > 100_000_000_000_000)
            && (problem == None <==> exists amount :: Spells(value, amount) && 100_000_000 <= amount <= 100_000_000_000_000)
  {
    MatchedSpells(value);
    BlankIsEmpty(value);
    var matched := MatchPrice(Trim(value));
    if matched.Some? {
      assert Spells(value, Sompi(matched.value));
    }
  }

  lemma {:induction false} BlankIsEmpty(value: string)
    ensures AllSpaces(value) <==> Trim(value) == ""
    ensures Trim(value) == "" ==> MatchPrice(Trim(value)).None?
  {
    var front, back := TrimIs(value);
    if Trim(value) == "" {
      assert value == front + back;
    } else {
      assert value[|front|] == Trim(value)[0];
    }
  }

  // ----- the shortest spelling ------------------------------------------------

  /** No zero in front of the whole but the last, none behind the fraction. */
  ghost predicate IsTight(p: Price) {
    && (p.whole == "0" || (p.whole != "" && p.whole[0] != '0'))
    && (p.fraction != "" ==> p.fraction[|p.fraction| - 1] != '0')
  }

  lemma {:induction false} DecimalIsTight(n: nat)
    ensures n > 0 ==> Decimal(n)[0] != '0'
  {
    if n >= 10 {
      DecimalIsTight(n / 10);
    }
  }

  lemma {:induction false} PadStartFills(s: string, size: nat)
    ensures |PadStart(s, size)| == if |s| >= size then |s| else size
    ensures |s| >= size ==> PadStart(s, size) == s
    decreases size - |s|
  {
    if |s| < size {
      PadStartFills("0" + s, size);
    }
  }

  /** The printer's whole part has no leading zero but a lone one. */
  lemma {:induction false} PrintedWholeIsTight(n: nat)
    ensures var padded := PadStart(Decimal(n), FRACTION_DIGITS + 1);
            var whole := padded[..|padded| - FRACTION_DIGITS];
            whole == "0" || (whole != "" && whole[0] != '0')
  {
    var digits := Decimal(n);
    var padded := PadStart(digits, FRACTION_DIGITS + 1);
    PadStartFills(digits, FRACTION_DIGITS + 1);
    DecimalIsTight(n);
    if |digits| <= FRACTION_DIGITS {
      assert |padded| == FRACTION_DIGITS + 1;
      assert padded[..1] == [padded[0]];
    }
  }

  lemma {:induction false} PrintsTightly(n: nat) returns (p: Price)
    ensures IsPrice(p) && FormatKas(n) == Spelling(p) && Sompi(p) == n && IsTight(p)
  {
    var padded := PadStart(Decimal(n), FRACTION_DIGITS + 1);
    var point := |padded| - FRACTION_DIGITS;
    var k := Significant(padded[point..]);
    p := Price(padded[..point], padded[point..][..k]);
    PrintedPrice(n, padded, point, k, p);
    PrintedWholeIsTight(n);
  }

  lemma {:induction false} PrintedPrice(n: nat, padded: string, point: nat, k: nat, p: Price)
    requires padded == PadStart(Decimal(n), FRACTION_DIGITS + 1) && point == |padded| - FRACTION_DIGITS
    requires k == Significant(padded[point..]) && p == Price(padded[..point], padded[point..][..k])
    ensures IsPrice(p) && FormatKas(n) == Spelling(p) && Sompi(p) == n
    ensures p.fraction != "" ==> p.fraction[|p.fraction| - 1] != '0'
  {
    var whole, fraction := padded[..point], padded[point..];
    DecimalReadsBack(n);
    PadStartKeepsValue(Decimal(n), FRACTION_DIGITS + 1);
    DigitsSplit(padded, point);
    assert padded == whole + fraction;
    ValueOfConcat(whole, fraction);
    PowersFill(0);
    assert Power10(0) == 1;
    SompiOfStripped(whole, fraction, k);
    StripsToSpelling(whole, fraction, k);
  }

  lemma {:induction false} LeadingDigitCounts(s: string)
    requires AllDigits(s) && s != "" && s[0] != '0'
    ensures ValueOf(s) >= Power10(|s| - 1)
  {
    if |s| > 1 {
      LeadingDigitCounts(s[..|s| - 1]);
    } else {
      assert s[..0] == "";
    }
  }

  lemma {:induction false} DigitsBound(s: string)
    requires AllDigits(s)
    ensures ValueOf(s) < Power10(|s|)
  {
    if s != "" {
      DigitsBound(s[..|s| - 1]);
    }
  }

  lemma {:induction false} PowersGrow(a: nat, b: nat)
    requires a <= b
    ensures Power10(a) <= Power10(b)
    decreases b
  {
    if a < b {
      PowersGrow(a, b - 1);
    }
  }

  /** Of two digit strings of one value a tight one is no longer. */
  lemma {:induction false} TightWholeIsShortest(tight: string, other: string)
    requires AllDigits(tight) && AllDigits(other) && other != "" && ValueOf(tight) == ValueOf(other)
    requires tight == "0" || (tight != "" && tight[0] != '0')
    ensures |tight| <= |other|
  {
    if tight != "0" && |tight| > |other| {
      LeadingDigitCounts(tight);
      DigitsBound(other);
      PowersGrow(|other|, |tight| - 1);
    }
  }

  /** Digit strings of one length and one value are the same. */
  lemma {:induction false} DigitsDetermined(left: string, right: string)
    requires AllDigits(left) && AllDigits(right) && |left| == |right| && ValueOf(left) == ValueOf(right)
    ensures left == right
  {
    if left != "" {
      var n := |left| - 1;
      var l, r := left[n] as int - '0' as int, right[n] as int - '0' as int;
      assert ValueOf(left) == ValueOf(left[..n]) * 10 + l && ValueOf(right) == ValueOf(right[..n]) * 10 + r;
      DigitsDetermined(left[..n], right[..n]);
      assert left == left[..n] + [left[n]] && right == right[..n] + [right[n]];
    }
  }

  lemma {:induction false} TightFractionIsShortest(tight: string, other: string)
    requires AllDigits(tight) && AllDigits(other) && |tight| <= FRACTION_DIGITS && |other| <= FRACTION_DIGITS
    requires PadEnd(tight, FRACTION_DIGITS) == PadEnd(other, FRACTION_DIGITS)
    requires tight != "" ==> tight[|tight| - 1] != '0'
    ensures |tight| <= |other|
  {
    if tight != "" {
      PaddedAt(tight, FRACTION_DIGITS, |tight| - 1);
      PaddedAt(other, FRACTION_DIGITS, |tight| - 1);
    }
  }

  lemma {:induction false} PaddedAt(s: string, size: nat, i: nat)
    requires |s| <= size && i < size
    ensures PadEnd(s, size)[i] == if i < |s| then s[i] else '0'
  {
    var r := PadEnd(s, size);
    if i >= |s| {
      assert r[|s|..][i - |s|] == r[i];
    }
  }

  lemma {:induction false} SamePartsOfSompi(a: Price, b: Price)
    requires IsPrice(a) && IsPrice(b) && Sompi(a) == Sompi(b)
    ensures ValueOf(a.whole) == ValueOf(b.whole) && PadEnd(a.fraction, FRACTION_DIGITS) == PadEnd(b.fraction, FRACTION_DIGITS)
  {
    var x, y := PadEnd(a.fraction, FRACTION_DIGITS), PadEnd(b.fraction, FRACTION_DIGITS);
    PaddedIsDigits(a.fraction, FRACTION_DIGITS);
    PaddedIsDigits(b.fraction, FRACTION_DIGITS);
    DigitsBound(x);
    DigitsBound(y);
    PowersFill(8);
    assert Power10(0) == 1 && Power10(8) == SOMPI_PER_KAS;
    DigitsDetermined(x, y);
  }

  /** An amount is printed in the shortest of all texts that spell it, without a leading or trailing zero too many. */
  lemma {:induction false} PrintsShortest(n: nat, other: Price)
    requires IsPrice(other) && Sompi(other) == n
    ensures |FormatKas(n)| <= |Spelling(other)|
    ensures exists p :: IsPrice(p) && IsTight(p) && FormatKas(n) == Spelling(p)
  {
    var p := PrintsTightly(n);
    SamePartsOfSompi(p, other);
    TightWholeIsShortest(p.whole, other.whole);
    TightFractionIsShortest(p.fraction, other.fraction);
  }
}
