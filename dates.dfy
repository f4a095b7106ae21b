/** Civil (proleptic Gregorian) dates in place of JavaScript `Date` objects,
    the `YYYY-MM-DD` text both the profile screen and the doctor service send
    to the API, and day arithmetic standing for `setDate` overflow. */
module Dates {
  import opened Wrappers
  import opened Text

  /** A date as a `Date`'s local getters report it: `getFullYear()`,
      `getMonth()` (0 = January) and `getDate()`. */
  datatype CivilDate = CivilDate(year: int, monthIndex: int, day: int)

  predicate IsLeapYear(year: int) {
    (year % 4 == 0 && year % 100 != 0) || year % 400 == 0
  }

  function DaysInMonth(year: int, monthIndex: int): (n: int)
    requires 0 <= monthIndex < 12
    ensures 28 <= n <= 31
    ensures n == 29 <==> monthIndex == 1 && IsLeapYear(year)
  {
    if monthIndex == 1 then (if IsLeapYear(year) then 29 else 28)
    else if monthIndex == 3 || monthIndex == 5 || monthIndex == 8 || monthIndex == 10 then 30
    else 31
  }

  /** The dates a `Date` object can hold: its getters are always normalised. */
  predicate ValidDate(d: CivilDate) {
    0 <= d.monthIndex < 12 && 1 <= d.day <= DaysInMonth(d.year, d.monthIndex)
  }

  /** Calendar order. */
  predicate Before(a: CivilDate, b: CivilDate) {
    || a.year < b.year
    || (a.year == b.year && a.monthIndex < b.monthIndex)
    || (a.year == b.year && a.monthIndex == b.monthIndex && a.day < b.day)
  }

  /** The day after d. */
  function NextDay(d: CivilDate): (e: CivilDate)
    requires ValidDate(d)
    ensures ValidDate(e) && Before(d, e)
  {
    if d.day < DaysInMonth(d.year, d.monthIndex) then CivilDate(d.year, d.monthIndex, d.day + 1)
    else if d.monthIndex < 11 then CivilDate(d.year, d.monthIndex + 1, 1)
    else CivilDate(d.year + 1, 0, 1)
  }

  /** NextDay skips no date: no valid date lies strictly between d and NextDay(d). */
  lemma NextDayIsSuccessor(d: CivilDate, x: CivilDate)
    requires ValidDate(d) && ValidDate(x) && Before(d, x)
    ensures !Before(x, NextDay(d))
  {
  }

  /** The date n days after d; `date.setDate(date.getDate() + n)` for n >= 0. */
  function AddDays(d: CivilDate, n: nat): (e: CivilDate)
    requires ValidDate(d)
    ensures ValidDate(e)
    ensures n == 0 <==> e == d
    ensures n > 0 ==> Before(d, e)
    decreases n
  {
    if n == 0 then d else AddDays(NextDay(d), n - 1)
  }

  /** Moving m days and then n days is moving m + n days. */
  lemma {:induction false} AddDaysAdditive(d: CivilDate, m: nat, n: nat)
    requires ValidDate(d)
    ensures AddDays(AddDays(d, m), n) == AddDays(d, m + n)
    decreases m
  {
    if m > 0 {
      AddDaysAdditive(NextDay(d), m - 1, n);
    }
  }

  /** Where the pieces of `y-mm-dd` sit when mm and dd have two characters. */
  lemma JoinedPieces(y: string, mm: string, dd: string)
    requires |mm| == 2 && |dd| == 2
    ensures var s := y + "-" + mm + "-" + dd;
      && |s| == |y| + 6 && s[|s| - 6] == '-' && s[|s| - 3] == '-'
      && s[..|s| - 6] == y && s[|s| - 5..|s| - 3] == mm && s[|s| - 2..] == dd
  {
  }

  /** s reads as `y-mm-dd` with the year, the month number and the day of d. */
  predicate Denotes(s: string, d: CivilDate) {
    && |s| >= 7 && s[|s| - 6] == '-' && s[|s| - 3] == '-'
    && ParseInt(s[..|s| - 6]) == Some(d.year)
    && AllDigits(s[|s| - 5..|s| - 3]) && ParseDigits(s[|s| - 5..|s| - 3]) == d.monthIndex + 1
    && AllDigits(s[|s| - 2..]) && ParseDigits(s[|s| - 2..]) == d.day
  }

  /** `${year}-${('0' + (month + 1)).slice(-2)}-${('0' + day).slice(-2)}` */
  function FormatYmd(d: CivilDate): (s: string)
    requires ValidDate(d)
    ensures Denotes(s, d)
  {
    var y, mm, dd := IntToString(d.year), Pad2(d.monthIndex + 1), Pad2(d.day);
    FormattedPieces(d, y, mm, dd);
    y + "-" + mm + "-" + dd
  }

  /** The three printed parts of a date read back as its year, month and day. */
  lemma FormattedPieces(d: CivilDate, y: string, mm: string, dd: string)
    requires ValidDate(d)
    requires y == IntToString(d.year) && mm == Pad2(d.monthIndex + 1) && dd == Pad2(d.day)
    ensures Denotes(y + "-" + mm + "-" + dd, d)
  {
    Pad2Exact(d.monthIndex + 1);
    Pad2Exact(d.day);
    ParseIntToString(d.year);
    JoinedPieces(y, mm, dd);
  }

  /** Reads `YYYY-MM-DD` text back; None for text that is not a valid date. */
  function ParseYmd(s: string): (r: Option<CivilDate>)
    ensures r.Some? ==> ValidDate(r.value)
  {
    if |s| < 7 || s[|s| - 6] != '-' || s[|s| - 3] != '-' then None
    else
      var year, mm, dd := ParseInt(s[..|s| - 6]), s[|s| - 5..|s| - 3], s[|s| - 2..];
      if year.None? || !AllDigits(mm) || !AllDigits(dd) then None
      else
        var d := CivilDate(year.value, ParseDigits(mm) - 1, ParseDigits(dd));
        if ValidDate(d) then Some(d) else None
  }

  /** The formatted text denotes exactly the date it was made from. */
  lemma ParseFormatYmd(d: CivilDate)
    requires ValidDate(d)
    ensures ParseYmd(FormatYmd(d)) == Some(d)
  {
  }

  /** Formatting is injective on dates. */
  lemma FormatYmdInjective(a: CivilDate, b: CivilDate)
    requires ValidDate(a) && ValidDate(b) && FormatYmd(a) == FormatYmd(b)
    ensures a == b
  {
    ParseFormatYmd(a);
    ParseFormatYmd(b);
  }
}
