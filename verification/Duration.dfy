/** TTL strings, their encoding in seconds, and the expiry date the seconds stand for. */
module Duration {
  import opened Prelude

  const DAY_SECONDS := 24 * 60 * 60
  const MONTH_SECONDS := 30 * DAY_SECONDS
  const YEAR_SECONDS := 365 * DAY_SECONDS
  const MAX_INT := 0x7FFF_FFFF_FFFF_FFFF

  /** Go's int and Duration are 64 bits wide and wrap around. */
  function Wrap(x: int): int {
    (x + 0x8000_0000_0000_0000) % 0x1_0000_0000_0000_0000 - 0x8000_0000_0000_0000
  }

  const DIGITS := "0123456789"

  predicate IsDigit(c: char) {
    '0' <= c <= '9'
  }

  function DigitOf(c: char): (d: nat)
    ensures d < 10
  {
    if c == '1' then 1 else if c == '2' then 2 else if c == '3' then 3 else if c == '4' then 4
    else if c == '5' then 5 else if c == '6' then 6 else if c == '7' then 7 else if c == '8' then 8
    else if c == '9' then 9 else 0
  }

  /** The value of a string of digits. */
  function DigitsValue(s: string): nat {
    if s == [] then 0 else 10 * DigitsValue(s[..|s| - 1]) + DigitOf(s[|s| - 1])
  }

  predicate AllDigits(s: string) {
    forall i :: 0 <= i < |s| ==> IsDigit(s[i])
  }

  /** strconv.Atoi: an optional sign, at least one digit, in range. */
  function Atoi(s: string): Option<int> {
    var negative := s != [] && s[0] == '-';
    var digits := if s != [] && (s[0] == '-' || s[0] == '+') then s[1..] else s;
    if digits == [] || !AllDigits(digits) then None
    else
      var v: int := if negative then -(DigitsValue(digits) as int) else DigitsValue(digits);
      if -MAX_INT - 1 <= v <= MAX_INT then Some(v) else None
  }

  /** time.ParseDuration on an integer followed by one letter, in whole seconds: only hours,
      minutes and seconds have one letter, and the nanoseconds must fit. */
  function ParseDuration(value: int, unit: char): Option<int> {
    var seconds := if unit == 'h' then 3600 else if unit == 'm' then 60 else 1;
    if unit !in {'h', 'm', 's'} then None
    else if -MAX_INT <= value * seconds * 1_000_000_000 <= MAX_INT then Some(value * seconds)
    else None
  }

  predicate HasSuffix(s: string, suffix: string) {
    |s| >= |suffix| && s[|s| - |suffix|..] == suffix
  }

  /** The seconds of a TTL, or None for a malformed one. */
  function TTLToSeconds(ttl: string): Option<int> {
    if |ttl| < 2 then None
    else if HasSuffix(ttl, "mo") then
      match Atoi(ttl[..|ttl| - 2])
      case None => None
      case Some(value) => Some(Wrap(value * MONTH_SECONDS))
    else
      var unit := ttl[|ttl| - 1];
      match Atoi(ttl[..|ttl| - 1])
      case None => None
      case Some(value) =>
        if unit in {'y', 'Y'} then Some(Wrap(value * YEAR_SECONDS))
        else if unit in {'d', 'D'} then Some(Wrap(value * DAY_SECONDS))
        else ParseDuration(value, unit)
  }

  /** How far a date is moved: calendar units, or an exact duration. */
  datatype Shift = Years(n: int) | Months(n: int) | Days(n: int) | Nanoseconds(n: int)

  function SecondsToExpirationDate(seconds: int): Shift {
    if seconds % YEAR_SECONDS == 0 then Years(seconds / YEAR_SECONDS)
    else if seconds % MONTH_SECONDS == 0 then Months(seconds / MONTH_SECONDS)
    else if seconds % DAY_SECONDS == 0 then Days(seconds / DAY_SECONDS)
    else Nanoseconds(Wrap(seconds * 1_000_000_000))
  }

  // ----- Decimal numerals -----

  function Digits(n: nat): (s: string)
    ensures |s| >= 1 && forall i :: 0 <= i < |s| ==> IsDigit(s[i])
  {
    var last := [DIGITS[n % 10]];
    if n < 10 then last else Digits(n / 10) + last
  }

  function Decimal(n: int): string {
    if n < 0 then "-" + Digits(-n) else Digits(n)
  }

  lemma {:induction false} DigitsRoundTrip(n: nat)
    ensures DigitsValue(Digits(n)) == n
  {
    var s := Digits(n);
    if n < 10 {
      assert s[..|s| - 1] == [];
    } else {
      DigitsRoundTrip(n / 10);
      assert s[..|s| - 1] == Digits(n / 10);
    }
  }

  lemma AtoiDecimal(n: int)
    requires -MAX_INT - 1 <= n <= MAX_INT
    ensures Atoi(Decimal(n)) == Some(n)
  {
    DigitsRoundTrip(if n < 0 then -n else n);
    if n < 0 {
      assert Decimal(n)[1..] == Digits(-n);
    } else {
      assert IsDigit(Decimal(n)[0]);
    }
  }

  /** Within the int range, a decimal followed by y, mo or d is that many units in seconds. */
  lemma TTLOfDecimal(n: int)
    requires -MAX_INT - 1 <= n <= MAX_INT
    ensures TTLToSeconds(Decimal(n) + "y") == Some(Wrap(n * YEAR_SECONDS))
    ensures TTLToSeconds(Decimal(n) + "mo") == Some(Wrap(n * MONTH_SECONDS))
    ensures TTLToSeconds(Decimal(n) + "d") == Some(Wrap(n * DAY_SECONDS))
  {
    AtoiDecimal(n);
    var d := Decimal(n);
    assert (d + "y")[..|d|] == d && (d + "mo")[..|d|] == d && (d + "d")[..|d|] == d;
    assert (d + "mo")[|d|..] == "mo";
    assert (d + "y")[|d|] == 'y' && (d + "d")[|d|] == 'd';
    assert !HasSuffix(d + "y", "mo") by { assert (d + "y")[|d| - 1..][1] == 'y'; }
    assert !HasSuffix(d + "d", "mo") by { assert (d + "d")[|d| - 1..][1] == 'd'; }
  }

  lemma WrapFits(x: int)
    ensures Wrap(x) == x <==> -MAX_INT - 1 <= x <= MAX_INT
  {
  }

  // ----- The unit survives exactly when arithmetic allows -----

  lemma MonthsAreYears(n: int)
    ensures (n * MONTH_SECONDS) % YEAR_SECONDS == 0 <==> n % 73 == 0
    ensures n % 73 == 0 ==> n * MONTH_SECONDS / YEAR_SECONDS == n / 73 * 6
  {
    var q, r := n / 73, n % 73;
    assert n * MONTH_SECONDS == q * 6 * YEAR_SECONDS + r * MONTH_SECONDS;
  }

  lemma DaysAreYears(n: int)
    ensures (n * DAY_SECONDS) % YEAR_SECONDS == 0 <==> n % 365 == 0
    ensures n % 365 == 0 ==> n * DAY_SECONDS / YEAR_SECONDS == n / 365
  {
  }

  lemma DaysAreMonths(n: int)
    ensures (n * DAY_SECONDS) % MONTH_SECONDS == 0 <==> n % 30 == 0
    ensures n % 30 == 0 ==> n * DAY_SECONDS / MONTH_SECONDS == n / 30
  {
  }

  lemma YearsStayYears(n: int)
    ensures (n * YEAR_SECONDS) % YEAR_SECONDS == 0 && n * YEAR_SECONDS / YEAR_SECONDS == n
  {
  }

  lemma MonthsStayMonths(n: int)
    ensures (n * MONTH_SECONDS) % MONTH_SECONDS == 0 && n * MONTH_SECONDS / MONTH_SECONDS == n
  {
  }

  lemma DaysStayDays(n: int)
    ensures (n * DAY_SECONDS) % DAY_SECONDS == 0 && n * DAY_SECONDS / DAY_SECONDS == n
  {
  }

  /** n years move the date by n years, always. */
  lemma YearsSurvive(n: int)
    requires -MAX_INT - 1 <= n * YEAR_SECONDS <= MAX_INT
    ensures TTLToSeconds(Decimal(n) + "y") == Some(n * YEAR_SECONDS)
    ensures SecondsToExpirationDate(n * YEAR_SECONDS) == Years(n)
  {
    TTLOfDecimal(n);
    WrapFits(n * YEAR_SECONDS);
    YearsStayYears(n);
  }

  /** n months move the date by n months exactly when 73 does not divide n; otherwise by the
      years that have as many seconds. */
  lemma MonthsSurvive(n: int)
    requires -MAX_INT - 1 <= n * MONTH_SECONDS <= MAX_INT
    ensures TTLToSeconds(Decimal(n) + "mo") == Some(n * MONTH_SECONDS)
    ensures SecondsToExpirationDate(n * MONTH_SECONDS) == Months(n) <==> n % 73 != 0
    ensures n % 73 == 0 ==> SecondsToExpirationDate(n * MONTH_SECONDS) == Years(n / 73 * 6)
  {
    TTLOfDecimal(n);
    WrapFits(n * MONTH_SECONDS);
    MonthsStayMonths(n);
    MonthsAreYears(n);
  }

  /** n days move the date by n days exactly when neither 30 nor 365 divides n; otherwise by the
      coarsest unit that divides them. */
  lemma DaysSurvive(n: int)
    requires -MAX_INT - 1 <= n * DAY_SECONDS <= MAX_INT
    ensures TTLToSeconds(Decimal(n) + "d") == Some(n * DAY_SECONDS)
    ensures SecondsToExpirationDate(n * DAY_SECONDS) == Days(n) <==> n % 30 != 0 && n % 365 != 0
    ensures n % 365 == 0 ==> SecondsToExpirationDate(n * DAY_SECONDS) == Years(n / 365)
    ensures n % 30 == 0 && n % 365 != 0 ==> SecondsToExpirationDate(n * DAY_SECONDS) == Months(n / 30)
  {
    TTLOfDecimal(n);
    WrapFits(n * DAY_SECONDS);
    DaysStayDays(n);
    DaysAreYears(n);
    DaysAreMonths(n);
  }

  /** Years, months and days are 365 days, 30 days and 24 hours in seconds; hours, minutes and seconds
      must fit into 64 bits as nanoseconds. */
  lemma TTLInPlainTerms(n: int)
    requires -0x8000_0000_0000_0000 <= n < 0x8000_0000_0000_0000
    ensures -0x8000_0000_0000_0000 <= n * 31_536_000 < 0x8000_0000_0000_0000 ==> TTLToSeconds(Decimal(n) + "y") == Some(n * 31_536_000)
    ensures -0x8000_0000_0000_0000 <= n * 2_592_000 < 0x8000_0000_0000_0000 ==> TTLToSeconds(Decimal(n) + "mo") == Some(n * 2_592_000)
    ensures -0x8000_0000_0000_0000 <= n * 86_400 < 0x8000_0000_0000_0000 ==> TTLToSeconds(Decimal(n) + "d") == Some(n * 86_400)
  {
    TTLOfDecimal(n);
    WrapFits(n * YEAR_SECONDS);
    WrapFits(n * MONTH_SECONDS);
    WrapFits(n * DAY_SECONDS);
  }

  lemma ShortTTLInPlainTerms(n: int, unit: char)
    requires -0x8000_0000_0000_0000 <= n < 0x8000_0000_0000_0000 && unit in "hms"
    ensures var seconds := n * if unit == 'h' then 3_600 else if unit == 'm' then 60 else 1;
      TTLToSeconds(Decimal(n) + [unit])
        == if -9_223_372_036_854_775_807 <= seconds * 1_000_000_000 <= 9_223_372_036_854_775_807 then Some(seconds) else None
  {
    IsParsed(n, unit);
    ParseInPlainTerms(n, unit);
  }

  lemma IsParsed(n: int, unit: char)
    requires -0x8000_0000_0000_0000 <= n < 0x8000_0000_0000_0000 && unit !in "yYdDo"
    ensures TTLToSeconds(Decimal(n) + [unit]) == ParseDuration(n, unit)
  {
    AtoiDecimal(n);
    var d := Decimal(n);
    assert (d + [unit])[..|d|] == d && (d + [unit])[|d|] == unit;
    assert !HasSuffix(d + [unit], "mo") by { assert (d + [unit])[|d| - 1..][1] == unit; }
  }

  lemma ParseInPlainTerms(n: int, unit: char)
    requires unit in "hms"
    ensures var seconds := n * if unit == 'h' then 3_600 else if unit == 'm' then 60 else 1;
      ParseDuration(n, unit)
        == if -9_223_372_036_854_775_807 <= seconds * 1_000_000_000 <= 9_223_372_036_854_775_807 then Some(seconds) else None
  {
  }

  /** A number of seconds is read as the coarsest of these units that divides it. */
  lemma ExpirationInPlainTerms(seconds: int)
    ensures var date := SecondsToExpirationDate(seconds);
      && (date.Years? <==> seconds % 31_536_000 == 0)
      && (date.Months? <==> seconds % 2_592_000 == 0 && seconds % 31_536_000 != 0)
      && (date.Days? <==> seconds % 86_400 == 0 && seconds % 2_592_000 != 0 && seconds % 31_536_000 != 0)
      && (date.Years? ==> date.n * 31_536_000 == seconds) && (date.Months? ==> date.n * 2_592_000 == seconds)
      && (date.Days? ==> date.n * 86_400 == seconds)
      && (date.Nanoseconds? && -9_000_000_000 <= seconds <= 9_000_000_000 ==> date.n == seconds * 1_000_000_000)
  {
  }

  lemma DigitInPlainTerms(c: char)
    requires '0' <= c <= '9'
    ensures IsDigit(c) && DigitOf(c) == c as int - '0' as int && DIGITS[DigitOf(c)] == c
  {
  }

  /** What is malformed: too short, something that is no number before the unit, or another unit. */
  lemma MalformedTTL(ttl: string, i: nat)
    ensures |ttl| < 2 ==> TTLToSeconds(ttl).None?
    ensures |ttl| >= 2 && ttl[|ttl| - 1] !in "yYdDhmso" ==> TTLToSeconds(ttl).None?
    ensures |ttl| > 3 && 0 < i < |ttl| - 2 && !('0' <= ttl[i] <= '9') ==> TTLToSeconds(ttl).None?
  {
    if |ttl| > 3 && 0 < i < |ttl| - 2 && !('0' <= ttl[i] <= '9') {
      NoNumber(ttl[..|ttl| - 2], i);
      NoNumber(ttl[..|ttl| - 1], i);
    }
  }

  lemma NoNumber(s: string, i: nat)
    requires 0 < i < |s| && !('0' <= s[i] <= '9')
    ensures Atoi(s).None?
  {
    assert !AllDigits(s) by { assert !IsDigit(s[i]); }
    assert !AllDigits(s[1..]) by { assert !IsDigit(s[1..][i - 1]); }
  }

  /** Nor does a number of more than 64 bits do. */
  lemma TooLargeTTL(n: int, unit: char)
    requires !(-0x8000_0000_0000_0000 <= n < 0x8000_0000_0000_0000) && unit !in "o"
    ensures TTLToSeconds(Decimal(n) + [unit]).None? && TTLToSeconds(Decimal(n) + "mo").None?
  {
    TooLarge(n);
    var d := Decimal(n);
    assert (d + [unit])[..|d|] == d && (d + "mo")[..|d|] == d;
    assert (d + "mo")[|d|..] == "mo";
    assert !HasSuffix(d + [unit], "mo") by { assert (d + [unit])[|d| - 1..][1] == unit; }
  }

  lemma TooLarge(n: int)
    requires !(-0x8000_0000_0000_0000 <= n < 0x8000_0000_0000_0000)
    ensures Atoi(Decimal(n)).None?
  {
    DigitsRoundTrip(if n < 0 then -n else n);
    if n < 0 {
      assert Decimal(n)[1..] == Digits(-n);
    } else {
      assert IsDigit(Decimal(n)[0]);
    }
  }
}
