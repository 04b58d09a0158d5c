/** Exact money: int64 minor units, overflow-checked arithmetic, and the strict decimal
    reader and printer. Machine arithmetic is written out with its wrap-around. */
module Moneys {
  import opened Domain

  datatype Result<+T, +E> = Ok(value: T) | Err(error: E)

  datatype MoneyError = InvalidAmount | InvalidCurrency | CurrencyMismatched | Overflow

  const TWO_64: int := 0x1_0000_0000_0000_0000

  predicate IsInt64(x: int) { MIN_INT64 <= x <= MAX_INT64 }

  /** The value a 64-bit two's complement register keeps of x. */
  function Wrap(x: int): (r: int)
    ensures IsInt64(r)
    ensures IsInt64(x) ==> r == x
  {
    (x - MIN_INT64) % TWO_64 + MIN_INT64
  }

  datatype Money = Money(amount: int, currency: Name) {
    predicate IsValid() { currency != NO_NAME }
  }

  function Compatible(m: Money, n: Money): Option<MoneyError> {
    if !m.IsValid() || !n.IsValid() then Some(InvalidCurrency)
    else if m.currency != n.currency then Some(CurrencyMismatched)
    else None
  }

  lemma WrapOnce(x: int)
    ensures MIN_INT64 - TWO_64 <= x < MIN_INT64 ==> Wrap(x) == x + TWO_64
    ensures MAX_INT64 < x <= MAX_INT64 + TWO_64 ==> Wrap(x) == x - TWO_64
  {
  }

  /** Addition in the register, with the check that follows it. It succeeds exactly when
      the true sum is representable, and then gives the true sum. */
  function Add(m: Money, n: Money): (r: Result<Money, MoneyError>)
    requires IsInt64(m.amount) && IsInt64(n.amount)
    ensures r.Ok? <==> Compatible(m, n).None? && IsInt64(m.amount + n.amount)
    ensures r.Ok? ==> r.value == Money(m.amount + n.amount, m.currency)
    ensures Compatible(m, n).None? && !IsInt64(m.amount + n.amount) ==> r == Err(Overflow)
  {
    if Compatible(m, n).Some? then Err(Compatible(m, n).value)
    else
      var sum := Wrap(m.amount + n.amount);
      WrapOnce(m.amount + n.amount);
      if (n.amount > 0 && sum < m.amount) || (n.amount < 0 && sum > m.amount) then Err(Overflow)
      else Ok(Money(sum, m.currency))
  }

  function Sub(m: Money, n: Money): (r: Result<Money, MoneyError>)
    requires IsInt64(m.amount) && IsInt64(n.amount)
    ensures r.Ok? <==> Compatible(m, n).None? && IsInt64(m.amount - n.amount)
    ensures r.Ok? ==> r.value == Money(m.amount - n.amount, m.currency)
    ensures Compatible(m, n).None? && !IsInt64(m.amount - n.amount) ==> r == Err(Overflow)
  {
    if Compatible(m, n).Some? then Err(Compatible(m, n).value)
    else
      var diff := Wrap(m.amount - n.amount);
      WrapOnce(m.amount - n.amount);
      if (n.amount < 0 && diff < m.amount) || (n.amount > 0 && diff > m.amount) then Err(Overflow)
      else Ok(Money(diff, m.currency))
  }

  // ----- numerals -------------------------------------------------------------------

  predicate IsDigit(c: char) { '0' <= c <= '9' }

  predicate AllDigits(s: string) {
    forall i :: 0 <= i < |s| ==> IsDigit(s[i])
  }

  function Value(s: string): nat
    requires AllDigits(s)
  {
    if s == "" then 0 else Value(s[..|s| - 1]) * 10 + (s[|s| - 1] as int - '0' as int)
  }

  /** The grammar: an optional minus, digits, and at most two decimals. */
  predicate Parts(s: string, negative: bool, major: string, minor: string) {
    && s == (if negative then "-" else "") + major + (if minor == "" then "" else "." + minor)
    && major != "" && AllDigits(major)
    && AllDigits(minor) && |minor| <= 2
  }

  function Scaled(minor: string): nat
    requires AllDigits(minor) && |minor| <= 2
  {
    if |minor| == 1 then 10 * Value(minor) else Value(minor)
  }

  function WithSign(negative: bool, magnitude: int): int {
    if negative then -magnitude else magnitude
  }

  function Fit(v: int): Result<int, MoneyError> {
    if IsInt64(v) then Ok(v) else Err(Overflow)
  }

  /** Hundredths a numeral with these parts stands for. */
  function Hundredths(negative: bool, major: string, minor: string): int
    requires AllDigits(major) && AllDigits(minor) && |minor| <= 2
  {
    WithSign(negative, Value(major) * 100 + Scaled(minor))
  }

  /** s is a numeral whose value times 100 is v. */
  ghost predicate Reads(s: string, v: int) {
    exists negative, major, minor :: Parts(s, negative, major, minor) && v == Hundredths(negative, major, minor)
  }

  /** strings.IndexByte for '.'. */
  function Dot(s: string): (i: int)
    ensures -1 <= i < |s|
    ensures 0 <= i ==> s[i] == '.'
    ensures forall j :: 0 <= j < (if i < 0 then |s| else i) ==> s[j] != '.'
  {
    if s == "" then -1
    else if s[0] == '.' then 0
    else if Dot(s[1..]) < 0 then -1
    else Dot(s[1..]) + 1
  }

  function Unsigned(s: string): string {
    if s != "" && s[0] == '-' then s[1..] else s
  }

  function MajorOf(u: string): string { if Dot(u) < 0 then u else u[..Dot(u)] }

  function MinorOf(u: string): string { if Dot(u) < 0 then "" else u[Dot(u) + 1..] }

  /** The regular expression of amounts, as a test. */
  predicate MatchesPattern(s: string) {
    var u := Unsigned(s);
    if Dot(u) < 0 then u != "" && AllDigits(u)
    else
      && 1 <= Dot(u) && AllDigits(u[..Dot(u)])
      && AllDigits(u[Dot(u) + 1..]) && 1 <= |u| - Dot(u) - 1 <= 2
  }

  lemma PartsAreFound(s: string, negative: bool, major: string, minor: string)
    requires Parts(s, negative, major, minor)
    ensures MatchesPattern(s)
    ensures negative <==> s[0] == '-'
    ensures var u := Unsigned(s);
            if Dot(u) < 0 then major == u && minor == "" else major == u[..Dot(u)] && minor == u[Dot(u) + 1..]
  {
    var u := Unsigned(s);
    assert u == major + (if minor == "" then "" else "." + minor);
    if minor == "" {
      assert u == major;
    } else {
      assert u[|major|] == '.';
      assert u[..|major|] == major && u[|major| + 1..] == minor;
      assert forall j :: 0 <= j < |major| ==> u[j] == major[j];
      assert Dot(u) == |major|;
    }
  }

  lemma SplitAtDot(u: string)
    requires 0 <= Dot(u)
    ensures u == u[..Dot(u)] + ("." + u[Dot(u) + 1..])
  {
  }

  lemma SplitAtSign(s: string)
    ensures s == (if s != "" && s[0] == '-' then "-" else "") + Unsigned(s)
  {
  }

  lemma Regroup(a: string, b: string, c: string)
    ensures a + (b + c) == a + b + c
  {
  }

  lemma PatternHasParts(s: string)
    requires MatchesPattern(s)
    ensures Parts(s, s[0] == '-', MajorOf(Unsigned(s)), MinorOf(Unsigned(s)))
  {
    var u := Unsigned(s);
    SplitAtSign(s);
    if 0 <= Dot(u) {
      SplitAtDot(u);
      Regroup(if s[0] == '-' then "-" else "", MajorOf(u), "." + MinorOf(u));
    }
  }

  /** A string reads as one value at most. */
  lemma ReadsOneValue(s: string, v: int, w: int)
    requires Reads(s, v) && Reads(s, w)
    ensures v == w
  {
    var n1, a1, b1 :| Parts(s, n1, a1, b1) && v == Hundredths(n1, a1, b1);
    var n2, a2, b2 :| Parts(s, n2, a2, b2) && w == Hundredths(n2, a2, b2);
    PartsAreFound(s, n1, a1, b1);
    PartsAreFound(s, n2, a2, b2);
  }

  /** strconv.ParseUint on decimal digits: fails beyond 64 bits. */
  function ParseUint(s: string): Option<nat>
    requires AllDigits(s)
  {
    if Value(s) < TWO_64 then Some(Value(s)) else None
  }

  lemma PaddedValue(s: string)
    requires AllDigits(s)
    ensures AllDigits(s + "0") && Value(s + "0") == 10 * Value(s)
  {
    assert (s + "0")[..|s|] == s;
  }

  lemma {:induction false} ShortValue(s: string)
    requires AllDigits(s) && |s| <= 2
    ensures Value(s) <= 99 && (|s| <= 1 ==> Value(s) <= 9)
  {
    if s != "" {
      ShortValue(s[..|s| - 1]);
    }
  }

  /** What reading a string should give: the value of the numeral, if it is one and fits. */
  ghost function Parsed(s: string): Result<int, MoneyError> {
    if exists v :: Reads(s, v) then
      var v :| Reads(s, v);
      Fit(v)
    else Err(InvalidAmount)
  }

  lemma ParsedIs(s: string, v: int)
    requires Reads(s, v)
    ensures Parsed(s) == Fit(v)
  {
    forall w | Reads(s, w) ensures v == w {
      ReadsOneValue(s, v, w);
    }
  }

  /** Fractional digits brought to two places: for len(minorPart) < Scale. */
  method Pad(decimals: string) returns (minorPart: string)
    requires AllDigits(decimals) && 1 <= |decimals| <= 2
    ensures AllDigits(minorPart) && |minorPart| == 2
    ensures Value(minorPart) == Scaled(decimals)
  {
    minorPart := decimals;
    while |minorPart| < 2
      invariant |decimals| <= |minorPart| <= 2 && AllDigits(minorPart)
      invariant |minorPart| == |decimals| ==> minorPart == decimals
      invariant |minorPart| > |decimals| ==> |decimals| == 1 && Value(minorPart) == 10 * Value(decimals)
      decreases 2 - |minorPart|
    {
      PaddedValue(minorPart);
      minorPart := minorPart + "0";
    }
  }

  /** The range checks on unsigned magnitudes, and the sign. */
  method Combine(negative: bool, majorPart: string, minorPart: string) returns (r: Result<int, MoneyError>)
    requires AllDigits(majorPart) && AllDigits(minorPart) && |minorPart| <= 2
    ensures r == Fit(WithSign(negative, Value(majorPart) * 100 + Value(minorPart)))
  {
    var major := ParseUint(majorPart);
    var minor := ParseUint(minorPart);
    ShortValue(minorPart);
    if major.None? {
      return Err(Overflow);
    }
    var maxMagnitude := if negative then MAX_INT64 + 1 else MAX_INT64;
    if major.value > (maxMagnitude - minor.value) / 100 {
      return Err(Overflow);
    }
    var magnitude := major.value * 100 + minor.value;
    return Ok(if negative then -magnitude else magnitude);
  }

  lemma NothingElseReads(s: string)
    requires s == "" || !MatchesPattern(s)
    ensures Parsed(s) == Err(InvalidAmount)
  {
    forall negative, major, minor ensures !Parts(s, negative, major, minor) {
      if Parts(s, negative, major, minor) {
        PartsAreFound(s, negative, major, minor);
      }
    }
  }

  lemma PatternReads(s: string)
    requires MatchesPattern(s)
    ensures AllDigits(MajorOf(Unsigned(s))) && AllDigits(MinorOf(Unsigned(s))) && |MinorOf(Unsigned(s))| <= 2
    ensures 0 <= Dot(Unsigned(s)) ==> MinorOf(Unsigned(s)) != ""
    ensures var v := Hundredths(s[0] == '-', MajorOf(Unsigned(s)), MinorOf(Unsigned(s)));
            Parsed(s) == Fit(v)
  {
    PatternHasParts(s);
    var v := Hundredths(s[0] == '-', MajorOf(Unsigned(s)), MinorOf(Unsigned(s)));
    assert Reads(s, v);
    ParsedIs(s, v);
  }

  /** The two sides of the decimal point. */
  method Cut(unsigned: string) returns (majorPart: string, minorPart: string)
    requires AllDigits(MajorOf(unsigned)) && AllDigits(MinorOf(unsigned)) && |MinorOf(unsigned)| <= 2
    requires 0 <= Dot(unsigned) ==> MinorOf(unsigned) != ""
    ensures majorPart == MajorOf(unsigned)
    ensures AllDigits(minorPart) && |minorPart| <= 2 && Value(minorPart) == Scaled(MinorOf(unsigned))
  {
    majorPart, minorPart := unsigned, "0";
    assert Value("0") == 0;
    var idx := Dot(unsigned);
    if 0 <= idx {
      majorPart := unsigned[..idx];
      minorPart := Pad(unsigned[idx + 1..]);
    }
  }

  /** The reader accepts exactly the numerals whose hundredths fit int64, of any length,
      and returns those hundredths. */
  method ParseMinorUnits(amount: string) returns (r: Result<int, MoneyError>)
    ensures r == Parsed(amount)
  {
    if amount == "" || !MatchesPattern(amount) {
      NothingElseReads(amount);
      return Err(InvalidAmount);
    }
    PatternReads(amount);
    var majorPart, minorPart := Cut(Unsigned(amount));
    r := Combine(amount[0] == '-', majorPart, minorPart);
  }

  // ----- printing -------------------------------------------------------------------

  function Digit(d: nat): char
    requires d < 10
  {
    ('0' as int + d) as char
  }

  /** strconv.FormatUint in base 10. */
  function FormatUint(n: nat): (s: string)
    ensures s != "" && AllDigits(s) && Value(s) == n
  {
    if n < 10 then
      assert Value([Digit(n)]) == Value("") * 10 + n;
      [Digit(n)]
    else
      var s := FormatUint(n / 10) + [Digit(n % 10)];
      assert s[..|s| - 1] == FormatUint(n / 10);
      s
  }

  function TwoDigits(n: nat): (s: string)
    requires n < 100
    ensures |s| == 2 && AllDigits(s) && Value(s) == n
  {
    var s := [Digit(n / 10), Digit(n % 10)];
    assert s[..1][..0] == "";
    assert Value(s[..1]) == n / 10;
    s
  }

  /** The fixed-scale decimal of minor units; the magnitude of MinInt64 is taken without
      leaving the 64-bit range. */
  function FormatMinorUnits(units: int): string
    requires IsInt64(units)
  {
    var absolute := if units < 0 then -(units + 1) + 1 else units;
    var formatted := FormatUint(absolute / 100) + "." + TwoDigits(absolute % 100);
    if units < 0 then "-" + formatted else formatted
  }

  lemma FormatReads(units: int)
    requires IsInt64(units)
    ensures Reads(FormatMinorUnits(units), units)
  {
    var absolute := if units < 0 then -units else units;
    var major, minor := FormatUint(absolute / 100), TwoDigits(absolute % 100);
    assert FormatMinorUnits(units) == (if units < 0 then "-" else "") + major + ("." + minor);
    assert Parts(FormatMinorUnits(units), units < 0, major, minor);
  }

  /** Reading what was printed gives the amount back, MinInt64 included. */
  lemma RoundTrip(units: int)
    requires IsInt64(units)
    ensures Parsed(FormatMinorUnits(units)) == Ok(units)
  {
    FormatReads(units);
    ParsedIs(FormatMinorUnits(units), units);
  }

  /** Two accepted strings print alike exactly when they stand for the same amount. */
  lemma PrintAlikeIffEqual(s: string, t: string, v: int, w: int)
    requires Parsed(s) == Ok(v) && Parsed(t) == Ok(w)
    ensures FormatMinorUnits(v) == FormatMinorUnits(w) <==> v == w
  {
    if FormatMinorUnits(v) == FormatMinorUnits(w) {
      FormatReads(v);
      FormatReads(w);
      ReadsOneValue(FormatMinorUnits(v), v, w);
    }
  }
}
