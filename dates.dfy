/**
 * Calendar dates given as text: the check the two search tools perform with
 * `datetime.strptime(s, "%Y-%m-%d")`, and how Python's string comparison of
 * two such texts relates to the order of the days they name.
 *
 * `strptime` matches the text against the pattern
 * `(\d\d\d\d)-(1[0-2]|0[1-9]|[1-9])-(3[01]|[12]\d|0[1-9]|[1-9]| [1-9])`,
 * from the start of the text, and then refuses any text left over after
 * the match. Taking, as the model does, the first alternative of each group
 * that matches gives the same result as the backtracking matcher: where a
 * two-digit month matches, the one-digit alternative would be followed by a
 * digit instead of the `-` the pattern demands; and the day ends the
 * pattern, so a shorter day alternative leaves text over, which is refused.
 * The date is then built, which fails for year 0 and for a day past the end
 * of its month. So unpadded months and days
 * (`2024-9-1`) and a day written with a leading blank (`2024-09- 1`) are
 * accepted.
 */
module Dates {
  import opened Wrappers
  import opened Text

  /** The fields of a parsed date. */
  datatype Date = Date(year: int, month: int, day: int)

  predicate IsLeapYear(y: int)
  {
    y % 4 == 0 && (y % 100 != 0 || y % 400 == 0)
  }

  function DaysInMonth(y: int, m: int): (n: int)
    requires 1 <= m <= 12
    ensures 28 <= n <= 31
    ensures n == 29 <==> m == 2 && IsLeapYear(y)
  {
    if m == 2 then (if IsLeapYear(y) then 29 else 28)
    else if m == 4 || m == 6 || m == 9 || m == 11 then 30
    else 31
  }

  lemma OneDigit(t: string)
    requires |t| == 1 && AllDigits(t)
    ensures DigitsValue(t) == DigitValue(t[0])
  {
    assert t[..0] == [];
  }

  lemma TwoDigits(t: string)
    requires |t| == 2 && AllDigits(t)
    ensures DigitsValue(t) == 10 * DigitValue(t[0]) + DigitValue(t[1])
  {
    OneDigit(t[..1]);
  }

  predicate NonZeroDigit(ch: char)
  {
    '1' <= ch <= '9'
  }

  /**
   * The length of the `%m` token at the start of `s`, 0 when there is none:
   * the first of `1[0-2]`, `0[1-9]`, `[1-9]` that matches.
   */
  function MonthToken(s: string): (k: nat)
    ensures k <= 2 && k <= |s|
    ensures k > 0 ==> AllDigits(s[..k]) && 1 <= DigitsValue(s[..k]) <= 12
  {
    if |s| >= 2 && s[0] == '1' && '0' <= s[1] <= '2' then TwoDigits(s[..2]); 2
    else if |s| >= 2 && s[0] == '0' && NonZeroDigit(s[1]) then TwoDigits(s[..2]); 2
    else if |s| >= 1 && NonZeroDigit(s[0]) then OneDigit(s[..1]); 1
    else 0
  }

  /**
   * The length of the `%d` token at the start of `s`, 0 when there is none:
   * the first of `3[01]`, `[12]\d`, `0[1-9]`, `[1-9]`, ` [1-9]` that matches.
   */
  function DayToken(s: string): (k: nat)
    ensures k <= 2 && k <= |s|
  {
    if |s| >= 2 && s[0] == '3' && (s[1] == '0' || s[1] == '1') then 2
    else if |s| >= 2 && (s[0] == '1' || s[0] == '2') && IsDigit(s[1]) then 2
    else if |s| >= 2 && s[0] == '0' && NonZeroDigit(s[1]) then 2
    else if |s| >= 1 && NonZeroDigit(s[0]) then 1
    else if |s| >= 2 && s[0] == ' ' && NonZeroDigit(s[1]) then 2
    else 0
  }

  /** The number a day token denotes; `int` ignores the leading blank. */
  function DayValue(t: string): (d: nat)
    requires 0 < |t| == DayToken(t)
    ensures 1 <= d <= 31
  {
    if t[0] == ' ' then DigitValue(t[1])
    else if |t| == 1 then OneDigit(t); DigitsValue(t)
    else TwoDigits(t); DigitsValue(t)
  }

  /** The fields `strptime` reads from `s`, or `None` when `s` does not match the format. */
  function ParseDate(s: string): (r: Option<Date>)
    ensures r.Some? ==> 0 <= r.value.year && 1 <= r.value.month <= 12 && 1 <= r.value.day <= 31
  {
    if |s| < 5 || !AllDigits(s[..4]) || s[4] != '-' then None
    else
      var m := MonthToken(s[5..]);
      if m == 0 || |s| <= 5 + m || s[5 + m] != '-' then None
      else
        var rest := s[6 + m..];
        var d := DayToken(rest);
        if d == 0 || d != |rest| then None
        else
          assert s[5..][..m] == s[5..5 + m];
          Some(Date(DigitsValue(s[..4]), DigitsValue(s[5..5 + m]), DayValue(rest)))
  }

  /** A day of the proleptic Gregorian calendar from year 1 on. */
  predicate InCalendar(d: Date)
  {
    1 <= d.year && 1 <= d.month <= 12 && 1 <= d.day <= DaysInMonth(d.year, d.month)
  }

  /** `datetime.strptime(s, "%Y-%m-%d")` succeeds. */
  predicate ValidDate(s: string)
  {
    ParseDate(s).Some? && InCalendar(ParseDate(s).value)
  }

  /** The day a valid date text names. */
  function DateOf(s: string): Date
    requires ValidDate(s)
  {
    ParseDate(s).value
  }

  /** `a` is an earlier day than `b`: year, month and day compared in turn. */
  predicate Before(a: Date, b: Date)
  {
    a.year < b.year || (a.year == b.year && (a.month < b.month || (a.month == b.month && a.day < b.day)))
  }

  // ---------------------------------------------------------------------------
  // Zero-padded dates

  /** The `YYYY-MM-DD` shape: four digits, a dash, two digits, a dash, two digits. */
  predicate Padded(s: string)
  {
    |s| == 10 && s[4] == '-' && s[7] == '-' &&
    AllDigits(s[..4]) && AllDigits(s[5..7]) && AllDigits(s[8..])
  }

  /** The numbers written in the three fields of a padded date. */
  function PaddedFields(s: string): Date
    requires Padded(s)
  {
    Date(DigitsValue(s[..4]), DigitsValue(s[5..7]), DigitsValue(s[8..]))
  }

  /**
   * A padded text matches the format exactly when its month is 01 to 12
   * and its day is 01 to 31, and then `strptime` reads the written numbers.
   */
  lemma PaddedParse(s: string)
    requires Padded(s)
    ensures ParseDate(s).Some? <==> 1 <= PaddedFields(s).month <= 12 && 1 <= PaddedFields(s).day <= 31
    ensures ParseDate(s).Some? ==> ParseDate(s).value == PaddedFields(s)
  {
    TwoDigits(s[5..7]);
    TwoDigits(s[8..]);
    assert s[5..][..2] == s[5..7] && s[5..][0] == s[5] && s[5..][1] == s[6];
    assert s[5..][..1] == [s[5]];
    assert s[8..][0] == s[8] && s[8..][1] == s[9];
  }

  /**
   * On padded texts, Python's `a < b` is the order of the days they name,
   * and string equality is equality of the fields.
   */
  lemma {:induction false} StringOrderIsDateOrder(a: string, b: string)
    requires Padded(a) && Padded(b)
    ensures LexLess(a, b) <==> Before(PaddedFields(a), PaddedFields(b))
    ensures a == b <==> PaddedFields(a) == PaddedFields(b)
  {
    assert a == a[..4] + (a[4..5] + (a[5..7] + (a[7..8] + a[8..])));
    assert b == b[..4] + (b[4..5] + (b[5..7] + (b[7..8] + b[8..])));
    assert a[4..5] == b[4..5] == "-" && a[7..8] == b[7..8] == "-";
    DigitsOrder(a[..4], b[..4]);
    DigitsOrder(a[5..7], b[5..7]);
    DigitsOrder(a[8..], b[8..]);
    LexLessConcat(a[..4], a[4..5] + (a[5..7] + (a[7..8] + a[8..])), b[..4], b[4..5] + (b[5..7] + (b[7..8] + b[8..])));
    LexLessConcat(a[4..5], a[5..7] + (a[7..8] + a[8..]), b[4..5], b[5..7] + (b[7..8] + b[8..]));
    LexLessConcat(a[5..7], a[7..8] + a[8..], b[5..7], b[7..8] + b[8..]);
    LexLessConcat(a[7..8], a[8..], b[7..8], b[8..]);
    assert !LexLess("-", "-");
  }

  /** For valid padded dates, string order is the order of the days named. */
  lemma PaddedOrder(a: string, b: string)
    requires Padded(a) && Padded(b) && ValidDate(a) && ValidDate(b)
    ensures LexLess(a, b) <==> Before(DateOf(a), DateOf(b))
  {
    PaddedParse(a);
    PaddedParse(b);
    StringOrderIsDateOrder(a, b);
  }
}
