/** Printing and parsing bitcoin amounts. */
module Amount {
  const MAX64: int := 0x7fff_ffff_ffff_ffff
  const THIN_SPACE: char := '\U{2009}'

  datatype Unit = BTC | MilliBTC | MicroBTC | SAT
  datatype Separators = Never | Standard | Always

  function Factor(unit: Unit): (r: nat) {
    match unit
    case BTC => 100_000_000
    case MilliBTC => 100_000
    case MicroBTC => 100
    case SAT => 1
  }

  function Decimals(unit: Unit): nat {
    match unit
    case BTC => 8
    case MilliBTC => 5
    case MicroBTC => 2
    case SAT => 0
  }

  // ---- Decimal digits ----

  predicate IsDigit(c: char) {
    '0' <= c <= '9'
  }

  predicate AllDigits(s: string) {
    forall i :: 0 <= i < |s| ==> IsDigit(s[i])
  }

  function Digit(n: nat): (c: char)
    requires n < 10
    ensures IsDigit(c) && Weight(c) == n
  {
    (48 + n) as char
  }

  function Weight(c: char): nat {
    if IsDigit(c) then c as int - 48 else 0
  }

  function Number(n: nat): string {
    if n < 10 then [Digit(n)] else Number(n / 10) + [Digit(n % 10)]
  }

  function Value(s: string): nat {
    if s == "" then 0 else 10 * Value(s[..|s| - 1]) + Weight(s[|s| - 1])
  }

  function Pow10(n: nat): (r: nat)
    ensures r > 0
  {
    if n == 0 then 1 else 10 * Pow10(n - 1)
  }

  function Zeros(n: nat): (r: string)
    ensures |r| == n && AllDigits(r)
  {
    seq(n, _ => '0')
  }

  lemma FactorIsPower(unit: Unit)
    ensures Factor(unit) == Pow10(Decimals(unit))
  {
    assert Pow10(2) == 100;
    assert Pow10(5) == 1000 * Pow10(2);
    assert Pow10(8) == 1000 * Pow10(5);
  }

  lemma {:induction false} NumberReads(n: nat)
    ensures AllDigits(Number(n)) && Number(n) != "" && Value(Number(n)) == n
  {
    if n < 10 {
      assert Value([Digit(n)]) == 10 * Value([Digit(n)][..0]) + n;
    } else {
      NumberReads(n / 10);
      ValueSnoc(Number(n / 10), Digit(n % 10));
    }
  }

  lemma ValueSnoc(s: string, c: char)
    ensures Value(s + [c]) == 10 * Value(s) + Weight(c)
  {
    assert (s + [c])[..|s|] == s;
  }

  lemma {:induction false} NumberLength(n: nat, width: nat)
    requires width > 0 && n < Pow10(width)
    ensures |Number(n)| <= width
  {
    assert Pow10(1) == 10 * Pow10(0);
    if n >= 10 {
      NumberLength(n / 10, width - 1);
    }
  }

  lemma {:induction false} ValueBelow(s: string)
    ensures Value(s) < Pow10(|s|)
  {
    if s != "" {
      ValueBelow(s[..|s| - 1]);
    }
  }

  lemma {:induction false} ValueConcat(s: string, t: string)
    ensures Value(s + t) == Value(s) * Pow10(|t|) + Value(t)
  {
    if t == "" {
      assert s + t == s;
    } else {
      var n := |t| - 1;
      ValueConcat(s, t[..n]);
      assert s + t == s + t[..n] + [t[n]];
      ValueSnoc(s + t[..n], t[n]);
      Regroup(Value(s), Pow10(n));
    }
  }

  lemma Regroup(v: nat, p: nat)
    ensures 10 * (v * p) == v * (10 * p)
  {
  }

  lemma {:induction false} ValueZeros(n: nat)
    ensures Value(Zeros(n)) == 0
  {
    if n > 0 {
      ValueZeros(n - 1);
      assert Zeros(n)[..n - 1] == Zeros(n - 1);
    }
  }

  // ---- Printing ----

  /** Digits in groups of three from the right. */
  function Grouped(digits: string): string
    decreases |digits|
  {
    if |digits| <= 3 then digits
    else Grouped(digits[..|digits| - 3]) + [THIN_SPACE] + digits[|digits| - 3..]
  }

  /** The last `k` groups, with a separator before each. */
  function GroupedTail(digits: string, k: nat): string
    requires 3 * k <= |digits|
  {
    if k == 0 then ""
    else [THIN_SPACE] + Group(digits, 3 * k) + GroupedTail(digits, k - 1)
  }

  lemma Regrouped(a: string, b: string, c: string, d: string)
    ensures (a + b + c) + d == a + (b + c + d)
  {
  }

  /** The text before the last `n` digits. */
  function Before(digits: string, n: nat): string
    requires n <= |digits|
  {
    digits[..|digits| - n]
  }

  function Group(digits: string, n: nat): string
    requires 3 <= n <= |digits|
  {
    digits[|digits| - n..|digits| - n + 3]
  }

  lemma GroupedStep(digits: string, n: nat)
    requires 3 <= n < |digits|
    ensures Grouped(Before(digits, n - 3)) == Grouped(Before(digits, n)) + [THIN_SPACE] + Group(digits, n)
  {
    var front := Before(digits, n - 3);
    assert front[..|front| - 3] == Before(digits, n);
    assert front[|front| - 3..] == Group(digits, n);
  }

  lemma {:induction false} GroupedSplits(digits: string, k: nat)
    requires 3 * k < |digits|
    ensures Grouped(digits) == Grouped(Before(digits, 3 * k)) + GroupedTail(digits, k)
  {
    if k == 0 {
      assert digits[..|digits|] == digits;
    } else {
      GroupedSplits(digits, k - 1);
      GroupedStep(digits, 3 * k);
      assert GroupedTail(digits, k) == [THIN_SPACE] + Group(digits, 3 * k) + GroupedTail(digits, k - 1);
      hide *;
      Regrouped(Grouped(Before(digits, 3 * k)), [THIN_SPACE], Group(digits, 3 * k), GroupedTail(digits, k - 1));
    }
  }

  /** One separator goes in front of the groups already made. */
  lemma InsertOne(digits: string, k: nat, s: string)
    requires 3 * (k + 1) <= |digits| && s == digits[..|digits| - 3 * k] + GroupedTail(digits, k)
    ensures var at := |digits| - 3 * (k + 1);
      at <= |s| && s[..at] + [THIN_SPACE] + s[at..] == digits[..at] + GroupedTail(digits, k + 1)
  {
    var at := |digits| - 3 * (k + 1);
    var group := digits[at..at + 3];
    assert s[..at] == digits[..at];
    assert s[at..] == group + GroupedTail(digits, k);
    Regrouped(digits[..at], [THIN_SPACE], group, GroupedTail(digits, k));
    Regrouped(digits[..at], [THIN_SPACE], "", group + GroupedTail(digits, k));
  }

  method InsertSeparators(digits: string) returns (s: string)
    ensures s == Grouped(digits)
  {
    hide GroupedTail;
    s := digits;
    GroupedTailEmpty(digits);
    var size := |digits|;
    var i := 3;
    ghost var k := 0;
    while i < size
      invariant i == 3 * k + 3 && 3 * k <= size && (k > 0 ==> 3 * k < size)
      invariant s == digits[..size - 3 * k] + GroupedTail(digits, k)
    {
      InsertOne(digits, k, s);
      s := s[..size - i] + [THIN_SPACE] + s[size - i..];
      i, k := i + 3, k + 1;
    }
    if size > 0 {
      GroupedSplits(digits, k);
    }
  }

  lemma GroupedTailEmpty(digits: string)
    ensures digits == digits[..|digits|] + GroupedTail(digits, 0)
  {
  }

  function Separated(digits: string, separators: Separators): string {
    if separators == Always || (separators == Standard && |digits| > 4) then Grouped(digits) else digits
  }

  function Sign(n: int, plus: bool): string {
    if n < 0 then "-" else if plus && n > 0 then "+" else ""
  }

  function Abs(n: int): nat {
    if n < 0 then -n else n
  }

  function RightJustified(s: string, width: nat): string {
    Zeros(if |s| < width then width - |s| else 0) + s
  }

  function FormatText(unit: Unit, n: int, plus: bool, separators: Separators): string {
    var whole := Sign(n, plus) + Separated(Number(Abs(n) / Factor(unit)), separators);
    if Decimals(unit) == 0 then whole
    else whole + "." + RightJustified(Number(Abs(n) % Factor(unit)), Decimals(unit))
  }

  /** The printer; the smallest 64-bit value has no absolute value and is left out. */
  method Format(unit: Unit, n: int, plus: bool, separators: Separators) returns (s: string)
    requires -MAX64 <= n <= MAX64
    ensures s == FormatText(unit, n, plus, separators)
  {
    hide Number, Grouped, RightJustified;
    var coin := Factor(unit);
    var magnitude := if n > 0 then n else -n;
    var quotient := Number(magnitude / coin);
    if separators == Always || (separators == Standard && |quotient| > 4) {
      quotient := InsertSeparators(quotient);
    }
    if n < 0 {
      quotient := "-" + quotient;
    } else if plus && n > 0 {
      quotient := "+" + quotient;
    }
    assert quotient == Sign(n, plus) + Separated(Number(Abs(n) / coin), separators);
    hide Sign, Separated;
    if Decimals(unit) == 0 {
      return quotient;
    }
    var remainder := RightJustified(Number(magnitude % coin), Decimals(unit));
    s := quotient + "." + remainder;
  }

  // ---- Parsing ----

  /** Only the characters an amount may contain. */
  function Keep(s: string, dots: bool): string {
    if s == "" then ""
    else
      var n := |s| - 1;
      Keep(s[..n], dots) + if IsDigit(s[n]) || (dots && s[n] == '.') then [s[n]] else ""
  }

  function FirstDot(s: string): (k: nat)
    ensures k <= |s| && forall i :: 0 <= i < k ==> s[i] != '.'
    ensures k < |s| ==> s[k] == '.'
  {
    if s == "" || s[0] == '.' then 0 else 1 + FirstDot(s[1..])
  }

  function SplitDots(s: string): (r: seq<string>)
    ensures |r| > 0
    decreases |s|
  {
    var k := FirstDot(s);
    if k == |s| then [s] else [s[..k]] + SplitDots(s[k + 1..])
  }

  /** `toLongLong` on digits: zero if empty or out of range. */
  function ToLongLong(s: string): (r: nat)
    ensures r <= MAX64
  {
    if Value(s) > MAX64 then 0 else Value(s)
  }

  function LeftJustified(s: string, width: nat): string {
    s + Zeros(if |s| < width then width - |s| else 0)
  }

  function Sanitize(text: string, unit: Unit): string {
    var result := Keep(text, true);
    var parts := SplitDots(result);
    if |parts| == 2 && |parts[1]| > Decimals(unit) then parts[0] + "." + parts[1][..Decimals(unit)]
    else if |parts| > 2 then parts[0] + "." + parts[1]
    else result
  }

  /** The signed addition of the source may overflow, which has no defined result. */
  datatype Parsed = Sats(value: int) | Overflow

  function Combine(whole: nat, fraction: nat, unit: Unit): Parsed {
    if whole > MAX64 / Factor(unit) then Sats(MAX64)
    else if whole * Factor(unit) + fraction > MAX64 then Overflow
    else Sats(whole * Factor(unit) + fraction)
  }

  function DisplayToSats(sanitized: string, unit: Unit): Parsed {
    if sanitized == "" || sanitized == "." then Sats(0)
    else
      var parts := SplitDots(if sanitized[0] == '.' then "0" + sanitized else sanitized);
      Combine(ToLongLong(parts[0]),
              if |parts| == 2 then ToLongLong(LeftJustified(parts[1], Decimals(unit))) else 0, unit)
  }

  function Parse(text: string, unit: Unit): Parsed {
    if unit == SAT then Sats(ToLongLong(Keep(text, false))) else DisplayToSats(Sanitize(text, unit), unit)
  }

  // ---- Text lemmas ----

  lemma {:induction false} KeepConcat(s: string, t: string, dots: bool)
    ensures Keep(s + t, dots) == Keep(s, dots) + Keep(t, dots)
  {
    if t == "" {
      assert s + t == s;
    } else {
      var n := |t| - 1;
      KeepConcat(s, t[..n], dots);
      assert (s + t)[..|s + t| - 1] == s + t[..n];
    }
  }

  lemma {:induction false} KeepDigits(s: string, dots: bool)
    requires AllDigits(s)
    ensures Keep(s, dots) == s
  {
    if s != "" {
      KeepDigits(s[..|s| - 1], dots);
    }
  }

  lemma {:induction false} KeepGrouped(digits: string, dots: bool)
    requires AllDigits(digits)
    ensures Keep(Grouped(digits), dots) == digits
    decreases |digits|
  {
    hide Keep;
    if |digits| <= 3 {
      KeepDigits(digits, dots);
    } else {
      var front, back := digits[..|digits| - 3], digits[|digits| - 3..];
      assert Grouped(digits) == Grouped(front) + [THIN_SPACE] + back;
      hide Grouped;
      KeepGrouped(front, dots);
      KeepDigits(back, dots);
      KeepSeparated(Grouped(front), back, dots);
      assert front + back == digits;
    }
  }

  lemma KeepSeparated(a: string, b: string, dots: bool)
    ensures Keep(a + [THIN_SPACE] + b, dots) == Keep(a, dots) + Keep(b, dots)
  {
    KeepChar(THIN_SPACE, dots);
    hide Keep;
    KeepConcat(a, [THIN_SPACE], dots);
    KeepConcat(a + [THIN_SPACE], b, dots);
    assert Keep(a, dots) + "" == Keep(a, dots);
  }

  lemma KeepChar(c: char, dots: bool)
    ensures Keep([c], dots) == if IsDigit(c) || (dots && c == '.') then [c] else ""
  {
    assert [c][..0] == "";
  }

  /** Nothing but digits and, where allowed, dots is kept. */
  lemma {:induction false} KeptChars(s: string, dots: bool)
    ensures forall i :: 0 <= i < |Keep(s, dots)| ==>
              var c := Keep(s, dots)[i]; IsDigit(c) || (dots && c == '.')
  {
    if s != "" {
      KeptChars(s[..|s| - 1], dots);
    }
  }

  lemma SplitOne(a: string)
    requires AllDigits(a)
    ensures SplitDots(a) == [a]
  {
    assert FirstDot(a) == |a|;
  }

  lemma SplitTwo(a: string, b: string)
    requires AllDigits(a) && AllDigits(b)
    ensures SplitDots(a + "." + b) == [a, b]
  {
    var s := a + "." + b;
    var k := FirstDot(s);
    assert s[|a|] == '.';
    assert forall i :: 0 <= i < |a| ==> s[i] == a[i];
    assert k == |a|;
    assert s[..k] == a && s[k + 1..] == b;
    SplitOne(b);
  }

  /** The parts of a kept text are digits, and joining two of them restores it. */
  lemma {:induction false} SplitParts(s: string)
    requires forall i :: 0 <= i < |s| ==> IsDigit(s[i]) || s[i] == '.'
    ensures forall j :: 0 <= j < |SplitDots(s)| ==> AllDigits(SplitDots(s)[j])
    ensures |SplitDots(s)| == 1 ==> s == SplitDots(s)[0]
    ensures |SplitDots(s)| == 2 ==> s == SplitDots(s)[0] + "." + SplitDots(s)[1]
    decreases |s|
  {
    var k := FirstDot(s);
    if k < |s| {
      SplitParts(s[k + 1..]);
      assert s == s[..k] + "." + s[k + 1..];
    }
  }

  // ---- What the parser computes ----

  /** The digits after the dot that the parser uses. */
  function UsedFraction(parts: seq<string>, unit: Unit): string
    requires |parts| > 0
  {
    if |parts| == 1 then ""
    else if |parts| == 2 && |parts[1]| > Decimals(unit) then parts[1][..Decimals(unit)]
    else parts[1]
  }

  lemma ZeroValues(width: nat)
    ensures ToLongLong("0") == 0 == ToLongLong("") && ToLongLong(LeftJustified("", width)) == 0
  {
    assert Value("0") == 10 * Value("0"[..0]) + Weight('0');
    ValueZeros(width);
    assert LeftJustified("", width) == Zeros(width);
  }

  lemma DisplayTwo(a: string, b: string, unit: Unit)
    requires AllDigits(a) && AllDigits(b)
    ensures DisplayToSats(a + "." + b, unit) == Combine(ToLongLong(a), ToLongLong(LeftJustified(b, Decimals(unit))),
        unit)
  {
    hide ToLongLong, LeftJustified, SplitDots;
    ZeroValues(Decimals(unit));
    var s := a + "." + b;
    if a == "" && b == "" {
      assert s == ".";
    } else if a == "" {
      assert s[0] == '.' && |s| > 1;
      SplitTwo("0", b);
      assert "0" + s == "0" + "." + b;
      hide Combine;
    } else {
      assert s[0] == a[0] && |s| >= 2;
      SplitTwo(a, b);
      hide Combine;
    }
  }

  lemma DisplayOne(a: string, unit: Unit)
    requires AllDigits(a)
    ensures DisplayToSats(a, unit) == Combine(ToLongLong(a), 0, unit)
  {
    ZeroValues(0);
    SplitOne(a);
  }

  /** On every text, the parser combines the digits before the first dot with those it uses after it. */
  lemma ParseUses(text: string, unit: Unit)
    requires unit != SAT
    ensures var parts := SplitDots(Keep(text, true));
      Parse(text, unit)
      == Combine(ToLongLong(parts[0]), ToLongLong(LeftJustified(UsedFraction(parts, unit), Decimals(unit))), unit)
  {
    hide Keep, SplitDots, DisplayToSats, Combine, ToLongLong, LeftJustified;
    var s := Keep(text, true);
    KeptChars(text, true);
    SplitParts(s);
    var parts := SplitDots(s);
    if |parts| == 1 {
      ZeroValues(Decimals(unit));
      DisplayOne(parts[0], unit);
    } else {
      DisplayTwo(parts[0], UsedFraction(parts, unit), unit);
    }
  }

  lemma KeepWhole(n: int, plus: bool, digits: string, separators: Separators, dots: bool)
    requires AllDigits(digits)
    ensures Keep(Sign(n, plus) + Separated(digits, separators), dots) == digits
  {
    KeepDigits(digits, dots);
    KeepGrouped(digits, dots);
    KeepChar('-', dots);
    KeepChar('+', dots);
    assert Keep(Sign(n, plus), dots) == "";
    hide Keep, Grouped, Sign;
    KeepConcat(Sign(n, plus), Separated(digits, separators), dots);
    assert "" + digits == digits;
  }

  lemma Justified(r: nat, width: nat)
    requires width > 0 && r < Pow10(width)
    ensures var s := RightJustified(Number(r), width); |s| == width && AllDigits(s) && Value(s) == r
    ensures LeftJustified(RightJustified(Number(r), width), width) == RightJustified(Number(r), width)
  {
    NumberReads(r);
    NumberLength(r, width);
    ZerosInFront(width - |Number(r)|, Number(r));
    hide Number, Value, Pow10;
  }

  lemma ZerosInFront(n: nat, s: string)
    ensures Value(Zeros(n) + s) == Value(s)
  {
    hide Value, Pow10, Zeros;
    ValueZeros(n);
    ValueConcat(Zeros(n), s);
    NoTimes(Pow10(|s|));
  }

  lemma NoTimes(x: nat)
    ensures 0 * x == 0
  {
  }

  lemma CombineExact(n: nat, unit: Unit)
    requires n <= MAX64
    ensures n / Factor(unit) <= MAX64 && n % Factor(unit) <= MAX64
    ensures Combine(n / Factor(unit), n % Factor(unit), unit) == Sats(n)
  {
  }

  lemma KeepPrinted(whole: string, digits: string, fraction: string)
    requires Keep(whole, true) == digits && AllDigits(fraction)
    ensures Keep(whole + "." + fraction, true) == digits + "." + fraction
  {
    KeepChar('.', true);
    KeepDigits(fraction, true);
    hide Keep;
    KeepConcat(whole, ".", true);
    KeepConcat(whole + ".", fraction, true);
  }

  /** The parts of printed text are quotient and padded remainder. */
  lemma PrintedParts(unit: Unit, n: int, plus: bool, separators: Separators, q: nat, fraction: string)
    requires unit != SAT && q == Abs(n) / Factor(unit) && AllDigits(fraction)
    requires fraction == RightJustified(Number(Abs(n) % Factor(unit)), Decimals(unit))
    ensures SplitDots(Keep(FormatText(unit, n, plus, separators), true)) == [Number(q), fraction]
  {
    NumberReads(q);
    KeepWhole(n, plus, Number(q), separators, true);
    hide Keep, Sign, Separated, Number, SplitDots, RightJustified;
    KeepPrinted(Sign(n, plus) + Separated(Number(q), separators), Number(q), fraction);
    SplitTwo(Number(q), fraction);
  }

  /** Printed text in units with decimals: quotient and remainder go back into the parser as they are. */
  lemma PrintedParses(unit: Unit, n: int, plus: bool, separators: Separators)
    requires unit != SAT && Abs(n) / Factor(unit) <= MAX64
    ensures Parse(FormatText(unit, n, plus, separators), unit)
         == Combine(Abs(n) / Factor(unit), Abs(n) % Factor(unit), unit)
  {
    var q, r := Abs(n) / Factor(unit), Abs(n) % Factor(unit);
    var fraction := RightJustified(Number(r), Decimals(unit));
    FactorIsPower(unit);
    assert r < Factor(unit) <= MAX64;
    hide Keep, Number, Value, Combine, SplitDots, RightJustified, LeftJustified, Pow10, Parse, FormatText, Abs;
    NumberReads(q);
    Justified(r, Decimals(unit));
    PrintedParts(unit, n, plus, separators, q, fraction);
    ParseUses(FormatText(unit, n, plus, separators), unit);
  }

  lemma {:induction false} LongNumber(n: nat, k: nat)
    ensures |Number(n)| > k <==> k == 0 || n >= Pow10(k)
  {
    if k > 0 && n >= 10 {
      LongNumber(n / 10, k - 1);
    }
  }

  lemma GroupedHasSeparator(digits: string)
    requires AllDigits(digits)
    ensures THIN_SPACE in Grouped(digits) <==> |digits| > 3
  {
  }

  /**
   * Separators are printed exactly where they are asked for and the whole part is long enough: from a thousand units
   * on when always, from ten thousand on in the standard style.
   */
  lemma SeparatorsExact(unit: Unit, n: int, plus: bool, separators: Separators)
    ensures THIN_SPACE in FormatText(unit, n, plus, separators)
       <==> (separators == Always && Abs(n) / Factor(unit) >= 1000)
            || (separators == Standard && Abs(n) / Factor(unit) >= 10000)
  {
    SeparatedExact(Abs(n) / Factor(unit), separators);
    SeparatorsInWhole(unit, n, plus, separators);
    hide FormatText, Separated;
  }

  lemma SeparatedExact(q: nat, separators: Separators)
    ensures THIN_SPACE in Separated(Number(q), separators)
       <==> (separators == Always && q >= 1000) || (separators == Standard && q >= 10000)
  {
    LongNumber(q, 3);
    LongNumber(q, 4);
    assert Pow10(1) == 10 && Pow10(2) == 100;
    assert Pow10(3) == 1000;
    assert Pow10(4) == 10000;
    NumberReads(q);
    GroupedHasSeparator(Number(q));
    hide Number, Grouped, Value, Pow10;
  }

  /** Neither the sign nor the fraction holds a separator. */
  lemma SeparatorsInWhole(unit: Unit, n: int, plus: bool, separators: Separators)
    ensures THIN_SPACE in FormatText(unit, n, plus, separators)
       <==> THIN_SPACE in Separated(Number(Abs(n) / Factor(unit)), separators)
  {
    if Decimals(unit) > 0 {
      FactorIsPower(unit);
      Justified(Abs(n) % Factor(unit), Decimals(unit));
    }
    hide Number, Separated, RightJustified, LeftJustified, Abs, Value, Factor, Decimals, Pow10;
  }

  /** The sign in front says what the magnitude cannot: a minus exactly for negative amounts, a plus exactly for
      positive ones when asked for; behind it stands the text of the magnitude. */
  lemma SignedText(unit: Unit, n: int, plus: bool, separators: Separators)
    ensures FormatText(unit, n, plus, separators)
         == (if n < 0 then "-" else if n > 0 && plus then "+" else "") + FormatText(unit, Abs(n), false, separators)
  {
    var shown := Separated(Number(Abs(n) / Factor(unit)), separators);
    assert Sign(n, plus) == if n < 0 then "-" else if n > 0 && plus then "+" else "";
    assert Abs(Abs(n)) == Abs(n);
    assert Sign(Abs(n), false) == "";
    hide Number, Grouped, RightJustified, Separated, Abs, Sign;
    assert "" + shown == shown;
    SignFirst(Sign(n, plus), shown, RightJustified(Number(Abs(n) % Factor(unit)), Decimals(unit)));
  }

  lemma SignFirst(sign: string, shown: string, fraction: string)
    ensures sign + shown + "." + fraction == sign + (shown + "." + fraction)
  {
  }

  /** The round trip: what was printed is read back, without overflow, for every unit, sign and grouping. */
  lemma RoundTrip(unit: Unit, n: int, plus: bool, separators: Separators)
    requires -MAX64 <= n <= MAX64
    ensures Parse(FormatText(unit, n, plus, separators), unit) == Sats(Abs(n))
  {
    hide Keep, Sign, Separated, Number, Value, Combine, DisplayToSats, Sanitize, RightJustified;
    if unit == SAT {
      NumberReads(Abs(n));
      KeepWhole(n, plus, Number(Abs(n)), separators, false);
    } else {
      CombineExact(Abs(n), unit);
      PrintedParses(unit, n, plus, separators);
    }
  }

  // ---- Exact bounds of the parser ----

  lemma {:induction false} Pow10Add(a: nat, b: nat)
    ensures Pow10(a + b) == Pow10(a) * Pow10(b)
  {
    if a > 0 {
      Pow10Add(a - 1, b);
      assert Pow10(a + b) == 10 * Pow10(a - 1 + b) && Pow10(a) == 10 * Pow10(a - 1);
      hide Pow10;
      TenTimes(Pow10(a - 1), Pow10(b));
    }
  }

  lemma TenTimes(x: nat, y: nat)
    ensures 10 * (x * y) == (10 * x) * y
  {
  }

  /** `t` is `v` out of `scale`, counted in parts of which `whole` make one, rounded down. */
  predicate RoundsDown(t: nat, v: nat, whole: nat, scale: nat) {
    t * scale <= v * whole < (t + 1) * scale
  }

  lemma RoundsDownCut(v: nat, p: nat, r: nat, d: nat)
    requires r < p && d > 0
    ensures RoundsDown(v, v * p + r, d, d * p)
  {
    assert (v * p + r) * d == v * (d * p) + r * d;
    assert r * d < p * d;
    assert (v + 1) * (d * p) == v * (d * p) + d * p;
  }

  lemma RoundsDownPadded(v: nat, q: nat, l: nat)
    requires l > 0
    ensures RoundsDown(v * q, v, q * l, l)
  {
    assert (v * q) * l == v * (q * l);
    assert (v * q + 1) * l == (v * q) * l + l;
  }

  /** The digits after the dot in units, cut to the unit's precision. */
  function FractionUnits(fraction: string, unit: Unit): nat {
    var d := Decimals(unit);
    ToLongLong(LeftJustified(if |fraction| > d then fraction[..d] else fraction, d))
  }

  lemma ZerosBehind(s: string, n: nat)
    ensures Value(s + Zeros(n)) == Value(s) * Pow10(n)
  {
    hide Value, Pow10, Zeros;
    ValueZeros(n);
    ValueConcat(s, Zeros(n));
  }

  lemma CutFraction(used: string, rest: string, d: nat)
    requires |used| == d
    ensures RoundsDown(Value(used), Value(used + rest), Pow10(d), Pow10(d + |rest|))
  {
    hide Value, Pow10, RoundsDown;
    ValueConcat(used, rest);
    ValueBelow(rest);
    Pow10Add(d, |rest|);
    RoundsDownCut(Value(used), Pow10(|rest|), Value(rest), Pow10(d));
  }

  lemma PaddedFraction(used: string, n: nat)
    ensures RoundsDown(Value(used + Zeros(n)), Value(used), Pow10(n + |used|), Pow10(|used|))
  {
    hide Value, Pow10, RoundsDown, Zeros;
    ZerosBehind(used, n);
    Pow10Add(n, |used|);
    RoundsDownPadded(Value(used), Pow10(n), Pow10(|used|));
  }

  lemma ShortReads(s: string, unit: Unit)
    requires |s| == Decimals(unit)
    ensures ToLongLong(s) == Value(s) < Factor(unit)
  {
    FactorIsPower(unit);
    ValueBelow(s);
    hide Pow10, Value;
  }

  lemma Fits(s: string)
    ensures LeftJustified(s, |s|) == s
  {
  }

  lemma UnitsOfLong(fraction: string, unit: Unit)
    requires |fraction| > Decimals(unit)
    ensures var used := fraction[..Decimals(unit)];
      FractionUnits(fraction, unit) == Value(used) < Factor(unit) && fraction == used + fraction[Decimals(unit)..]
  {
    hide Value, ToLongLong, LeftJustified;
    Fits(fraction[..Decimals(unit)]);
    ShortReads(fraction[..Decimals(unit)], unit);
  }

  lemma UnitsOfShort(fraction: string, unit: Unit)
    requires |fraction| <= Decimals(unit)
    ensures FractionUnits(fraction, unit) == Value(fraction + Zeros(Decimals(unit) - |fraction|)) < Factor(unit)
  {
    hide Value, ToLongLong;
    assert LeftJustified(fraction, Decimals(unit)) == fraction + Zeros(Decimals(unit) - |fraction|);
    ShortReads(fraction + Zeros(Decimals(unit) - |fraction|), unit);
  }

  /** The fraction is cut to the unit's precision, never rounded up. */
  lemma FractionRoundsDown(fraction: string, unit: Unit)
    ensures FractionUnits(fraction, unit) < Factor(unit)
    ensures RoundsDown(FractionUnits(fraction, unit), Value(fraction), Factor(unit), Pow10(|fraction|))
  {
    hide *;
    var d := Decimals(unit);
    FactorIsPower(unit);
    if |fraction| > d {
      UnitsOfLong(fraction, unit);
      CutFraction(fraction[..d], fraction[d..], d);
    } else {
      UnitsOfShort(fraction, unit);
      PaddedFraction(fraction, d - |fraction|);
    }
  }

  /** The digits before the first dot, as the parser reads them. */
  function WholeUnits(text: string): nat {
    ToLongLong(SplitDots(Keep(text, true))[0])
  }

  /** The digits after it, as the parser reads them. */
  function UsedUnits(text: string, unit: Unit): nat {
    ToLongLong(LeftJustified(UsedFraction(SplitDots(Keep(text, true)), unit), Decimals(unit)))
  }

  /** The whole part passes the guard, but the fraction does not fit beside it. */
  predicate Overflows(text: string, unit: Unit) {
    unit != SAT && WholeUnits(text) <= MAX64 / Factor(unit)
    && UsedUnits(text, unit) > MAX64 - WholeUnits(text) * Factor(unit)
  }

  /** On every text and unit: when the sum overflows, and what the result is otherwise. */
  lemma ParseExact(text: string, unit: Unit)
    ensures Parse(text, unit) == Overflow <==> Overflows(text, unit)
    ensures unit == SAT ==> Parse(text, unit) == Sats(ToLongLong(Keep(text, false)))
    ensures unit != SAT && WholeUnits(text) > MAX64 / Factor(unit) ==> Parse(text, unit) == Sats(MAX64)
    ensures unit != SAT && WholeUnits(text) <= MAX64 / Factor(unit) && !Overflows(text, unit) ==>
              Parse(text, unit) == Sats(WholeUnits(text) * Factor(unit) + UsedUnits(text, unit))
  {
    if unit != SAT {
      ParseUses(text, unit);
      hide Keep, SplitDots, ToLongLong, LeftJustified, Parse, UsedFraction;
    }
  }

  /** With at most one dot the fraction is that of the text, rounded down, and the sum overflows exactly when the whole
      part is the largest that fits and the fraction exceeds what is left beside it. */
  lemma OneDotExact(text: string, unit: Unit)
    requires unit != SAT && |SplitDots(Keep(text, true))| <= 2
    ensures var parts := SplitDots(Keep(text, true)); var fraction := if |parts| == 2 then parts[1] else "";
      && RoundsDown(UsedUnits(text, unit), Value(fraction), Factor(unit), Pow10(|fraction|))
      && (Overflows(text, unit) <==>
            WholeUnits(text) == MAX64 / Factor(unit) && UsedUnits(text, unit) > MAX64 % Factor(unit))
  {
    hide Keep, SplitDots, Value, Pow10, ToLongLong, LeftJustified, RoundsDown;
    var parts := SplitDots(Keep(text, true));
    var fraction := if |parts| == 2 then parts[1] else "";
    FractionRoundsDown(fraction, unit);
    assert UsedUnits(text, unit) == FractionUnits(fraction, unit);
    CombineBounds(WholeUnits(text), UsedUnits(text, unit), unit);
    hide *;
  }

  lemma CombineBounds(whole: nat, t: nat, unit: Unit)
    requires t < Factor(unit)
    ensures whole <= MAX64 / Factor(unit) && t > MAX64 - whole * Factor(unit)
            <==> whole == MAX64 / Factor(unit) && t > MAX64 % Factor(unit)
  {
  }

  /** Texts just past the maximum overflow: the printed form of every amount beyond it with the same whole part. */
  lemma PastMaximumOverflows(unit: Unit, n: nat, plus: bool, separators: Separators)
    requires unit != SAT && MAX64 < n && n / Factor(unit) == MAX64 / Factor(unit)
    ensures Overflows(FormatText(unit, n, plus, separators), unit)
  {
    assert Combine(n / Factor(unit), n % Factor(unit), unit) == Overflow;
    hide FormatText, Parse, Overflows, Combine, UsedUnits, WholeUnits, Keep;
    assert Abs(n) == n;
    PrintedParses(unit, n, plus, separators);
    ParseExact(FormatText(unit, n, plus, separators), unit);
  }

  lemma Extend(n: nat, d: nat, text: string, c: char)
    requires n > 0 && d < 10 && Number(n) == text && c as int == 48 + d
    ensures Number(10 * n + d) == text + [c]
  {
    assert (10 * n + d) / 10 == n && (10 * n + d) % 10 == d;
  }

  lemma LargestWhole()
    ensures Number(92233720368) == "92233720368"
  {
    assert Number(9) == "9";
    hide Number;
    Extend(9, 2, "9", '2');
    Extend(92, 2, "92", '2');
    Extend(922, 3, "922", '3');
    Extend(9223, 3, "9223", '3');
    Extend(92233, 7, "92233", '7');
    Extend(922337, 2, "922337", '2');
    Extend(9223372, 0, "9223372", '0');
    Extend(92233720, 3, "92233720", '3');
    Extend(922337203, 6, "922337203", '6');
    Extend(9223372036, 8, "9223372036", '8');
  }

  lemma FractionTooMany()
    ensures Number(54775808) == "54775808"
  {
    assert Number(5) == "5";
    hide Number;
    Extend(5, 4, "5", '4');
    Extend(54, 7, "54", '7');
    Extend(547, 7, "547", '7');
    Extend(5477, 5, "5477", '5');
    Extend(54775, 8, "54775", '8');
    Extend(547758, 0, "547758", '0');
    Extend(5477580, 8, "5477580", '8');
  }

  lemma Unpadded(s: string)
    ensures RightJustified(s, |s|) == s
  {
  }

  lemma JustPastMaximum()
    ensures FormatText(BTC, MAX64 + 1, false, Never) == "92233720368" + "." + "54775808"
  {
    LargestWhole();
    FractionTooMany();
    Unpadded("54775808");
    hide Number, RightJustified;
    assert Sign(MAX64 + 1, false) + Separated("92233720368", Never) == "92233720368";
  }

  /** The smallest such amount in whole coins, one satoshi past the maximum. */
  lemma OneSatoshiTooMany()
    ensures Overflows("92233720368.54775808", BTC)
  {
    hide Overflows, FormatText;
    JustPastMaximum();
    assert "92233720368" + "." + "54775808" == "92233720368.54775808";
    PastMaximumOverflows(BTC, MAX64 + 1, false, Never);
  }

  /** A second dot, whatever follows it, switches the precision limit off: all digits before it count as units. */
  lemma SecondDot(a: string, b: string, tail: string, unit: Unit)
    requires unit != SAT && AllDigits(a) && AllDigits(b)
    ensures Parse(a + "." + b + "." + tail, unit)
         == Combine(ToLongLong(a), ToLongLong(LeftJustified(b, Decimals(unit))), unit)
  {
    hide Combine, ToLongLong, LeftJustified;
    var text := a + "." + b + "." + tail;
    var rest := b + "." + Keep(tail, true);
    KeepTwoDots(a, b, tail);
    assert Keep(text, true) == a + "." + rest;
    SplitFirst(a, rest);
    SplitFirst(b, Keep(tail, true));
    ParseUses(text, unit);
    hide Keep, SplitDots, Parse;
  }

  lemma KeepTwoDots(a: string, b: string, tail: string)
    requires AllDigits(a) && AllDigits(b)
    ensures Keep(a + "." + b + "." + tail, true) == a + "." + (b + "." + Keep(tail, true))
  {
    KeepDigits(a, true);
    KeepPrinted(a, a, b);
    KeepChar('.', true);
    hide Keep;
    KeepConcat(a + "." + b, ".", true);
    KeepConcat(a + "." + b + ".", tail, true);
    DotsRegrouped(a, b, Keep(tail, true));
  }

  lemma DotsRegrouped(a: string, b: string, c: string)
    ensures a + "." + b + "." + c == a + "." + (b + "." + c)
  {
  }

  lemma SplitFirst(a: string, rest: string)
    requires AllDigits(a)
    ensures SplitDots(a + "." + rest) == [a] + SplitDots(rest)
  {
    var s := a + "." + rest;
    assert s[|a|] == '.' && forall i :: 0 <= i < |a| ==> s[i] == a[i];
    assert FirstDot(s) == |a|;
    assert s[..|a|] == a && s[|a| + 1..] == rest;
  }

  /** With two decimals, "0.123" is 12 units, but "0.123." is 123. */
  lemma SecondDotLiftsCap()
    ensures Parse("0.123", MicroBTC) == Sats(12)
    ensures Parse("0.123.", MicroBTC) == Sats(123)
  {
    hide Parse, Keep, SplitDots, Value, LeftJustified;
    assert "0.123" == "0" + "." + "123" && "0.123." == "0" + "." + "123" + "." + "";
    SecondDot("0", "123", "", MicroBTC);
    KeepDigits("0", true);
    KeepPrinted("0", "0", "123");
    SplitTwo("0", "123");
    ParseUses("0.123", MicroBTC);
    ZeroValues(0);
    SmallValues();
  }

  lemma SmallValues()
    ensures Value("12") == 12 && Value("123") == 123 && "123"[..2] == "12"
    ensures LeftJustified("12", 2) == "12" && LeftJustified("123", 2) == "123"
  {
    assert Value("1") == 10 * Value("1"[..0]) + 1;
    assert "12" == "1" + "2" && "123" == "12" + "3";
    ValueSnoc("1", '2');
    ValueSnoc("12", '3');
  }

  // ---- The amount object ----

  predicate IsSpace(c: char) {
    c == ' ' || '\t' <= c <= '\r' || c == '\U{0085}' || c == '\U{00A0}' || c == '\U{1680}'
    || '\U{2000}' <= c <= '\U{200A}' || '\U{2028}' <= c <= '\U{2029}' || c == '\U{202F}' || c == '\U{205F}'
        || c == '\U{3000}'
  }

  /** What `trimmed().isEmpty()` finds. */
  predicate Blank(text: string) {
    forall i :: 0 <= i < |text| ==> IsSpace(text[i])
  }

  lemma PrintedNotBlank(unit: Unit, n: int, plus: bool, separators: Separators)
    ensures !Blank(FormatText(unit, n, plus, separators))
  {
    var digits := Number(Abs(n) / Factor(unit));
    var shown := Separated(digits, separators);
    NumberReads(Abs(n) / Factor(unit));
    GroupedStartsSame(digits);
    assert shown != "" && IsDigit(shown[0]);
    DigitInside(Sign(n, plus), shown, "");
    DigitInside(Sign(n, plus), shown, "." + RightJustified(Number(Abs(n) % Factor(unit)), Decimals(unit)));
    hide Blank, Number, RightJustified, Sign, Separated, Grouped;
    var whole := Sign(n, plus) + shown;
    assert whole + "" == whole;
    if unit != SAT {
      var fraction := RightJustified(Number(Abs(n) % Factor(unit)), Decimals(unit));
      assert whole + ("." + fraction) == whole + "." + fraction;
    }
  }

  lemma DigitInside(a: string, b: string, c: string)
    requires b != "" && IsDigit(b[0])
    ensures !Blank(a + b + c)
  {
    assert (a + b + c)[|a|] == b[0];
  }

  lemma {:induction false} GroupedStartsSame(digits: string)
    requires digits != ""
    ensures Grouped(digits) != "" && Grouped(digits)[0] == digits[0]
    decreases |digits|
  {
    if |digits| > 3 {
      GroupedStartsSame(digits[..|digits| - 3]);
    }
  }

  class BitcoinAmount {
    var satoshi: int
    var isSet: bool
    var unit: Unit

    constructor ()
      ensures satoshi == 0 && !isSet && unit == BTC
    {
      satoshi, isSet, unit := 0, false, BTC;
    }

    method SetSatoshi(amount: int) returns (changed: bool)
      modifies this
      ensures satoshi == amount && isSet && unit == old(unit)
      ensures changed <==> old(satoshi) != amount || !old(isSet)
    {
      changed := satoshi != amount || !isSet;
      if changed {
        isSet := true;
        satoshi := amount;
      }
    }

    method Clear() returns (changed: bool)
      modifies this
      ensures satoshi == 0 && !isSet && unit == old(unit)
      ensures changed <==> old(isSet) || old(satoshi) != 0
    {
      if !isSet && satoshi == 0 {
        return false;
      }
      satoshi, isSet := 0, false;
      changed := true;
    }

    method SetUnit(next: Unit) returns (changed: bool)
      modifies this`unit
      ensures unit == next && (changed <==> old(unit) != next)
    {
      changed := unit != next;
      unit := next;
    }

    method ToDisplay() returns (text: string)
      requires -MAX64 <= satoshi <= MAX64
      ensures text == if isSet then FormatText(unit, satoshi, false, Never) else ""
    {
      if !isSet {
        return "";
      }
      text := Format(unit, satoshi, false, Never);
    }

    /** The one demand on the text is that the addition stays inside 64 bits. */
    method FromDisplay(text: string) returns (changed: bool)
      requires !Overflows(text, unit)
      modifies this
      ensures unit == old(unit)
      ensures Blank(text) ==> !isSet && satoshi == 0
      ensures !Blank(text) ==> isSet && Parse(text, unit) == Sats(satoshi)
      ensures changed <==> satoshi != old(satoshi) || isSet != old(isSet)
    {
      hide Parse, Overflows;
      ParseExact(text, unit);
      if Blank(text) {
        changed := Clear();
        return;
      }
      changed := SetSatoshi(Parse(text, unit).value);
    }

    /** Showing the amount and entering what is shown changes nothing. */
    method Reenter() returns (changed: bool)
      requires 0 <= satoshi <= MAX64 && (!isSet ==> satoshi == 0)
      modifies this
      ensures !changed && satoshi == old(satoshi) && isSet == old(isSet) && unit == old(unit)
    {
      hide Parse, FormatText, Overflows;
      var text := ToDisplay();
      if isSet {
        RoundTrip(unit, satoshi, false, Never);
        PrintedNotBlank(unit, satoshi, false, Never);
      } else {
        EmptyParses(unit);
      }
      ParseExact(text, unit);
      changed := FromDisplay(text);
    }
  }

  lemma EmptyParses(unit: Unit)
    ensures Parse("", unit) == Sats(0) && Blank("")
  {
    assert SplitDots("") == [""];
  }
}
