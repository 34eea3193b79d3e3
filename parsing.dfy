/**
 * The two conversions the controllers apply to request values: Python's
 * `int(s)` on a string and `datetime.strptime(s, '%d.%m.%Y')`.
 * Both are modelled for ASCII input.
 */
module Parsing {

  datatype Option<T> = None | Some(value: T)

  predicate IsDigit(c: char) { '0' <= c <= '9' }

  function DigitValue(c: char): (d: nat)
    requires IsDigit(c)
    ensures d < 10
  {
    (c as int) - ('0' as int)
  }

  function DigitChar(d: nat): (c: char)
    requires d < 10
    ensures IsDigit(c) && DigitValue(c) == d
  {
    (('0' as int) + d) as char
  }

  predicate AllDigits(s: string)
  {
    forall i :: 0 <= i < |s| ==> IsDigit(s[i])
  }

  predicate DigitsOrUnderscores(s: string)
  {
    forall i :: 0 <= i < |s| ==> IsDigit(s[i]) || s[i] == '_'
  }

  /** Decimal value of a string of digits, possibly with `_` separators, which add nothing. */
  function GroupValue(s: string): nat
    requires DigitsOrUnderscores(s)
  {
    if s == [] then 0
    else if s[|s| - 1] == '_' then GroupValue(s[..|s| - 1])
    else GroupValue(s[..|s| - 1]) * 10 + DigitValue(s[|s| - 1])
  }

  // ---------------------------------------------------------------------------
  // int(s)
  // ---------------------------------------------------------------------------

  /** The ASCII whitespace that `int()` skips around the number. */
  predicate IsSpace(c: char)
  {
    c == ' ' || c == '\t' || c == '\n' || c == '\r' || c == '\U{000B}' || c == '\U{000C}'
  }

  function TrimStart(s: string): (t: string)
    ensures |t| <= |s| && t == s[|s| - |t|..]
    ensures t != [] ==> !IsSpace(t[0])
  {
    if s != [] && IsSpace(s[0]) then TrimStart(s[1..]) else s
  }

  function TrimEnd(s: string): (t: string)
    ensures |t| <= |s| && t == s[..|t|]
    ensures t != [] ==> !IsSpace(t[|t| - 1])
  {
    if s != [] && IsSpace(s[|s| - 1]) then TrimEnd(s[..|s| - 1]) else s
  }

  function Trim(s: string): string
  {
    TrimEnd(TrimStart(s))
  }

  /**
   * A run of digits in which single underscores may separate two digits
   * (`1_000`), but which neither starts nor ends with one.
   */
  predicate IsDigitGroup(s: string)
  {
    && |s| > 0
    && DigitsOrUnderscores(s)
    && forall i :: 0 <= i < |s| && s[i] == '_' ==> 0 < i < |s| - 1 && s[i + 1] != '_'
  }

  /**
   * `int(s)` for a string: optional surrounding whitespace, an optional sign,
   * then a digit group; anything else raises ValueError, modelled as None.
   */
  function ParseInt(s: string): (r: Option<int>)
    ensures r.Some? ==> Trim(s) != [] && IsDigit(Trim(s)[|Trim(s)| - 1])
  {
    var t := Trim(s);
    if t != [] && (t[0] == '+' || t[0] == '-') then
      var body := t[1..];
      if IsDigitGroup(body) then
        var v: int := GroupValue(body);
        assert IsDigit(body[|body| - 1]);
        Some(if t[0] == '-' then -v else v)
      else None
    else if IsDigitGroup(t) then
      assert IsDigit(t[|t| - 1]);
      Some(GroupValue(t))
    else None
  }

  /** `int()` reads a non-empty run of plain digits as its decimal value. */
  lemma PlainDigitsParse(s: string)
    requires |s| > 0 && AllDigits(s)
    ensures ParseInt(s) == Some(GroupValue(s))
  {
    assert IsDigit(s[0]) && IsDigit(s[|s| - 1]);
    UntrimmedStaysPut(s);
    assert IsDigitGroup(s);
  }

  /** Decimal rendering of a natural number, most significant digit first. */
  function ShowNat(n: nat): (s: string)
    ensures |s| > 0 && AllDigits(s)
  {
    if n < 10 then [DigitChar(n)] else ShowNat(n / 10) + [DigitChar(n % 10)]
  }

  /** `str(n)` for an integer. */
  function Show(n: int): (s: string)
    ensures |s| > 0
  {
    if n < 0 then "-" + ShowNat(-n) else ShowNat(n)
  }

  lemma {:induction false} ShowNatValue(n: nat)
    ensures GroupValue(ShowNat(n)) == n
  {
    var s := ShowNat(n);
    if n >= 10 {
      var p := ShowNat(n / 10);
      assert s == p + [DigitChar(n % 10)];
      assert s[..|s| - 1] == p;
      ShowNatValue(n / 10);
    }
  }

  lemma ShowNatIsGroup(n: nat)
    ensures IsDigitGroup(ShowNat(n))
  {
  }

  lemma UntrimmedStaysPut(s: string)
    requires s != [] && !IsSpace(s[0]) && !IsSpace(s[|s| - 1])
    ensures Trim(s) == s
  {
  }

  /** `int()` reads a minus sign followed by a digit group as the negated value. */
  lemma NegatedGroupParses(digits: string, v: nat)
    requires IsDigitGroup(digits) && GroupValue(digits) == v
    ensures ParseInt("-" + digits) == Some(-(v as int))
  {
    var s := "-" + digits;
    assert s[|s| - 1] == digits[|digits| - 1];
    UntrimmedStaysPut(s);
    assert s[1..] == digits;
  }

  lemma ParseShowNat(m: nat)
    ensures ParseInt(ShowNat(m)) == Some(m)
  {
    ShowNatValue(m);
    PlainDigitsParse(ShowNat(m));
  }

  lemma ParseShowNegative(m: nat)
    ensures ParseInt("-" + ShowNat(m)) == Some(-(m as int))
  {
    ShowNatValue(m);
    ShowNatIsGroup(m);
    NegatedGroupParses(ShowNat(m), m);
  }

  /** Every integer the store renders with `str` reads back as itself under `int`. */
  lemma {:induction false} ParseShow(n: int)
    ensures ParseInt(Show(n)) == Some(n)
  {
    if n < 0 {
      var m: nat := -n;
      assert Show(n) == "-" + ShowNat(m);
      ParseShowNegative(m);
      assert ParseInt("-" + ShowNat(m)) == Some(n);
    } else {
      assert Show(n) == ShowNat(n);
      ParseShowNat(n);
    }
  }

  // ---------------------------------------------------------------------------
  // datetime.strptime(s, '%d.%m.%Y')
  // ---------------------------------------------------------------------------

  datatype Date = Date(day: int, month: int, year: int)

  predicate IsLeapYear(y: int)
  {
    y % 4 == 0 && (y % 100 != 0 || y % 400 == 0)
  }

  function DaysInMonth(month: int, year: int): (n: int)
    requires 1 <= month <= 12
    ensures 28 <= n <= 31
  {
    if month == 2 then (if IsLeapYear(year) then 29 else 28)
    else if month == 4 || month == 6 || month == 9 || month == 11 then 30
    else 31
  }

  /** A day that Python's `date` type accepts (years 1 to 9999, proleptic Gregorian). */
  predicate ValidDate(d: Date)
  {
    && 1 <= d.year <= 9999
    && 1 <= d.month <= 12
    && 1 <= d.day <= DaysInMonth(d.month, d.year)
  }

  /** The pieces of `s` between the dots. */
  function SplitOnDot(s: string): (parts: seq<string>)
    ensures |parts| >= 1
  {
    if s == [] then [[]]
    else
      var rest := SplitOnDot(s[1..]);
      if s[0] == '.' then [[]] + rest else [[s[0]] + rest[0]] + rest[1..]
  }

  /** `%d`: `01`..`31`, `1`..`9` or a space-padded ` 1`..` 9`. */
  function DayField(f: string): Option<int>
  {
    if |f| == 1 && '1' <= f[0] <= '9' then Some(DigitValue(f[0]))
    else if |f| == 2 && f[0] == ' ' && '1' <= f[1] <= '9' then Some(DigitValue(f[1]))
    else if |f| == 2 && AllDigits(f) && 1 <= GroupValue(f) <= 31 then Some(GroupValue(f))
    else None
  }

  /** `%m`: `01`..`12` or `1`..`9`. */
  function MonthField(f: string): Option<int>
  {
    if |f| == 1 && '1' <= f[0] <= '9' then Some(DigitValue(f[0]))
    else if |f| == 2 && AllDigits(f) && 1 <= GroupValue(f) <= 12 then Some(GroupValue(f))
    else None
  }

  /** `%Y`: exactly four digits. */
  function YearField(f: string): Option<int>
  {
    if |f| == 4 && AllDigits(f) then Some(GroupValue(f)) else None
  }

  /**
   * `strptime(s, '%d.%m.%Y')`: the whole string must match the three fields
   * separated by dots, and the result must be a real calendar day.
   */
  function ParseDate(s: string): (r: Option<Date>)
    ensures r.Some? ==> ValidDate(r.value)
  {
    var parts := SplitOnDot(s);
    if |parts| != 3 then None
    else
      match (DayField(parts[0]), MonthField(parts[1]), YearField(parts[2]))
      case (Some(d), Some(m), Some(y)) =>
        if ValidDate(Date(d, m, y)) then Some(Date(d, m, y)) else None
      case _ => None
  }

  predicate IsDate(s: string)
  {
    ParseDate(s).Some?
  }

  /** Two zero-padded digits. */
  function Pad2(n: nat): (s: string)
    requires n < 100
    ensures |s| == 2 && AllDigits(s) && GroupValue(s) == n
  {
    var s := [DigitChar(n / 10), DigitChar(n % 10)];
    assert s[..1] == [DigitChar(n / 10)] && s[..1][..0] == [];
    assert GroupValue(s[..1]) == n / 10;
    assert GroupValue(s) == (n / 10) * 10 + n % 10;
    s
  }

  /** A date as `DD.MM.YYYY`. */
  function FormatDate(d: Date): string
    requires ValidDate(d)
  {
    Pad2(d.day) + "." + Pad2(d.month) + "." + Pad2(d.year / 100) + Pad2(d.year % 100)
  }

  lemma {:induction false} SplitWithoutDot(a: string)
    requires '.' !in a
    ensures SplitOnDot(a) == [a]
  {
    if a != [] {
      SplitWithoutDot(a[1..]);
      assert [a[0]] + a[1..] == a;
    }
  }

  lemma {:induction false} SplitAfterField(a: string, rest: string)
    requires '.' !in a
    ensures SplitOnDot(a + "." + rest) == [a] + SplitOnDot(rest)
  {
    if a == [] {
      assert a + "." + rest == "." + rest;
      assert ("." + rest)[1..] == rest;
    } else {
      var s := a + "." + rest;
      assert s[1..] == a[1..] + "." + rest;
      SplitAfterField(a[1..], rest);
      assert [a[0]] + a[1..] == a;
    }
  }

  lemma FourDigitValue(hi: nat, lo: nat)
    requires hi < 100 && lo < 100
    ensures GroupValue(Pad2(hi) + Pad2(lo)) == hi * 100 + lo
  {
    var s := Pad2(hi) + Pad2(lo);
    assert s[..3][..2] == Pad2(hi);
    assert s[..3] == Pad2(hi) + [DigitChar(lo / 10)];
    assert s[..|s| - 1] == s[..3];
    assert GroupValue(s[..3]) == hi * 10 + lo / 10;
  }

  /** Every valid date written as `DD.MM.YYYY` is accepted and read back unchanged. */
  lemma ParseFormatDate(d: Date)
    requires ValidDate(d)
    ensures ParseDate(FormatDate(d)) == Some(d)
  {
    var day, month := Pad2(d.day), Pad2(d.month);
    var year := Pad2(d.year / 100) + Pad2(d.year % 100);
    assert FormatDate(d) == day + "." + (month + "." + year);
    SplitAfterField(day, month + "." + year);
    SplitAfterField(month, year);
    SplitWithoutDot(year);
    FourDigitValue(d.year / 100, d.year % 100);
    assert SplitOnDot(FormatDate(d)) == [day, month, year];
  }
}
