/**
 * Input validation and small arithmetic helpers of the library application
 * (`src/app/utils/validation.utils.ts`). Each regular expression of the source is
 * written out as a predicate over the characters of the string; the clock is a
 * parameter (`now`, `currentYear`).
 */
module ValidationUtils {
  import opened Text
  import Lists

  // ---------------------------------------------------------------- ISBN

  predicate NotHyphen(c: char) {
    c != '-'
  }

  /** `isbn.replace(/-/g, '')` */
  function RemoveHyphens(s: string): string {
    Lists.Filter(s, NotHyphen)
  }

  function CountChar(s: string, c: char): nat {
    if s == [] then 0 else (if s[0] == c then 1 else 0) + CountChar(s[1..], c)
  }

  /** Removing the hyphens removes exactly the hyphens: the rest are digits exactly when the input is digits and hyphens. */
  lemma {:induction false} RemoveHyphensShape(s: string)
    ensures |RemoveHyphens(s)| + CountChar(s, '-') == |s|
    ensures (forall i :: 0 <= i < |RemoveHyphens(s)| ==> IsDigit(RemoveHyphens(s)[i]))
            <==> (forall i :: 0 <= i < |s| ==> s[i] == '-' || IsDigit(s[i]))
  {
    if s != [] {
      RemoveHyphensShape(s[1..]);
      var r := RemoveHyphens(s[1..]);
      assert forall i :: 1 <= i < |s| ==> s[i] == s[1..][i - 1];
      if s[0] != '-' {
        var full := [s[0]] + r;
        assert RemoveHyphens(s) == full;
        assert forall i :: 1 <= i < |full| ==> full[i] == r[i - 1];
        assert full[0] == s[0];
        if forall i :: 0 <= i < |r| ==> IsDigit(r[i]) {
          if IsDigit(s[0]) {
            forall i | 0 <= i < |full| ensures IsDigit(full[i]) {
              if i > 0 { assert full[i] == r[i - 1]; }
            }
          }
        }
        if forall i :: 0 <= i < |full| ==> IsDigit(full[i]) {
          forall i | 0 <= i < |r| ensures IsDigit(r[i]) {
            assert full[i + 1] == r[i];
          }
        }
        assert (forall i :: 0 <= i < |s| ==> s[i] == '-' || IsDigit(s[i]))
               <==> IsDigit(s[0]) && (forall i :: 0 <= i < |s[1..]| ==> s[1..][i] == '-' || IsDigit(s[1..][i]));
      } else {
        assert RemoveHyphens(s) == r;
      }
    }
  }

  /** `/^(?:\d{10}|\d{13})$/`: ten or thirteen ASCII digits and nothing else. */
  predicate IsbnDigits(s: string) {
    (|s| == 10 || |s| == 13) && forall i :: 0 <= i < |s| ==> IsDigit(s[i])
  }

  /** `validateISBN` */
  predicate ValidateIsbn(isbn: string)
    ensures ValidateIsbn(isbn) ==> |isbn| >= 10
  {
    if isbn == [] then false else IsbnDigits(RemoveHyphens(isbn))
  }

  /**
   * An ISBN is valid exactly when it consists of digits and hyphens only and, hyphens
   * aside, has ten or thirteen digits; the empty string is rejected.
   */
  lemma IsbnCharacterisation(isbn: string)
    ensures ValidateIsbn(isbn) <==>
      && isbn != []
      && (forall i :: 0 <= i < |isbn| ==> isbn[i] == '-' || IsDigit(isbn[i]))
      && (|isbn| - CountChar(isbn, '-') == 10 || |isbn| - CountChar(isbn, '-') == 13)
  {
    RemoveHyphensShape(isbn);
  }

  /** Hyphens are ignored wherever they stand. */
  lemma IsbnIgnoresHyphen(a: string, b: string)
    ensures ValidateIsbn(a + "-" + b) == ValidateIsbn(a + b)
  {
    var fa, fb := RemoveHyphens(a), RemoveHyphens(b);
    Lists.FilterConcat(a, "-", NotHyphen);
    assert Lists.Filter("-", NotHyphen) == [];
    assert RemoveHyphens(a + "-") == fa + [];
    Lists.FilterConcat(a + "-", b, NotHyphen);
    assert RemoveHyphens(a + "-" + b) == fa + fb;
    Lists.FilterConcat(a, b, NotHyphen);
    assert RemoveHyphens(a + b) == fa + fb;
    assert a + "-" + b != [];
  }

  /** A string of ten or thirteen digits is a valid ISBN. */
  lemma IsbnOfDigits(s: string)
    requires IsbnDigits(s)
    ensures ValidateIsbn(s)
  {
    Lists.FilterAll(s, NotHyphen);
  }

  /** A string with fewer than ten characters is never a valid ISBN. */
  lemma IsbnTooShort(s: string)
    requires |s| < 10
    ensures !ValidateIsbn(s)
  {
  }

  /** The ten-digit and the thirteen-digit number of the tests are accepted. */
  lemma IsbnDigitExamples()
    ensures ValidateIsbn("1234567890")
    ensures ValidateIsbn("1234567890123")
  {
    var ten, thirteen := "1234567890", "1234567890123";
    assert IsbnDigits(ten);
    assert IsbnDigits(thirteen);
    IsbnOfDigits(ten);
    IsbnOfDigits(thirteen);
  }

  lemma IsbnShortExamples()
    ensures !ValidateIsbn("12345")
    ensures !ValidateIsbn("")
  {
    IsbnTooShort("12345");
    IsbnTooShort("");
  }

  /** Digit groups joined by hyphens, such as `123-456-789-0`, form a valid ISBN when the digits number ten or thirteen. */
  lemma HyphenatedIsbn(a: string, b: string, c: string, d: string)
    requires IsbnDigits(a + b + c + d)
    ensures ValidateIsbn(a + "-" + b + "-" + c + "-" + d)
  {
    IsbnIgnoresHyphen(a + "-" + b + "-" + c, d);
    assert a + "-" + b + "-" + c + d == a + "-" + b + "-" + (c + d);
    IsbnIgnoresHyphen(a + "-" + b, c + d);
    assert a + "-" + b + (c + d) == a + "-" + (b + c + d);
    IsbnIgnoresHyphen(a, b + c + d);
    assert a + (b + c + d) == a + b + c + d;
    IsbnOfDigits(a + b + c + d);
  }

  lemma IsbnHyphenExample()
    ensures ValidateIsbn("123-456-789-0")
  {
    var a, b, c, d := "123", "456", "789", "0";
    var digits := a + b + c + d;
    assert |digits| == 10;
    assert forall i :: 0 <= i < 10 ==> IsDigit(digits[i]);
    HyphenatedIsbn(a, b, c, d);
    assert a + "-" + b + "-" + c + "-" + d == "123-456-789-0";
  }

  // ---------------------------------------------------------------- e-mail

  /** `[^\s@]+` */
  predicate EmailAtom(s: string) {
    s != [] && forall i :: 0 <= i < |s| ==> !IsWhitespace(s[i]) && s[i] != '@'
  }

  /**
   * `validateEmail`: the string matches `/^[^\s@]+@[^\s@]+\.[^\s@]+$/`, that is, it
   * splits at an `@` (position `at`) and a later `.` (position `dot`) into three atoms.
   */
  predicate ValidateEmail(email: string)
    ensures ValidateEmail(email) ==> '@' in email && |email| >= 5
  {
    && email != []
    && exists at, dot :: 0 < at && at + 1 < dot && dot + 1 < |email| && email[at] == '@' && email[dot] == '.'
        && EmailAtom(email[..at]) && EmailAtom(email[at + 1..dot]) && EmailAtom(email[dot + 1..])
  }

  /** No white space, a single `@`, and a `.` with a character on each side in the part after it. */
  predicate EmailShape(email: string) {
    && (forall i :: 0 <= i < |email| ==> !IsWhitespace(email[i]))
    && CountChar(email, '@') == 1
    && exists at, dot :: 0 < at && at + 1 < dot && dot + 1 < |email| && email[at] == '@' && email[dot] == '.'
  }

  /** What the pattern amounts to: the e-mail check holds exactly of the strings of that shape. */
  lemma EmailCharacterisation(email: string)
    ensures ValidateEmail(email) <==> EmailShape(email)
  {
    if ValidateEmail(email) {
      EmailValidHasShape(email);
    }
    if EmailShape(email) {
      EmailShapeIsValid(email);
    }
  }

  lemma EmailValidHasShape(email: string)
    requires ValidateEmail(email)
    ensures EmailShape(email)
  {
    var at, dot :| 0 < at && at + 1 < dot && dot + 1 < |email| && email[at] == '@' && email[dot] == '.'
      && EmailAtom(email[..at]) && EmailAtom(email[at + 1..dot]) && EmailAtom(email[dot + 1..]);
    ShapeOfAtoms(email, at, dot);
  }

  lemma ShapeOfAtoms(email: string, at: int, dot: int)
    requires 0 < at && at + 1 < dot && dot + 1 < |email| && email[at] == '@' && email[dot] == '.'
    requires EmailAtom(email[..at]) && EmailAtom(email[at + 1..dot]) && EmailAtom(email[dot + 1..])
    ensures EmailShape(email)
  {
    assert email[..at] == email[0..at];
    SliceAtom(email, 0, at);
    SliceAtom(email, at + 1, dot);
    SliceAtom(email, dot + 1, |email|);
    forall i | 0 <= i < |email| ensures !IsWhitespace(email[i]) && (i != at ==> email[i] != '@') {
      if i < at {
      } else if at < i < dot {
      } else if dot < i {
      }
    }
    CountOnlyAt(email, '@', at);
  }

  lemma EmailShapeIsValid(email: string)
    requires EmailShape(email)
    ensures ValidateEmail(email)
  {
    var at, dot :| 0 < at && at + 1 < dot && dot + 1 < |email| && email[at] == '@' && email[dot] == '.';
    forall i | 0 <= i < |email| && i != at ensures email[i] != '@' {
      if email[i] == '@' { CountTwo(email, '@', at, i); }
    }
    AtomSlice(email, 0, at);
    AtomSlice(email, at + 1, dot);
    AtomSlice(email, dot + 1, |email|);
  }

  lemma SliceAtom(s: string, lo: int, hi: int)
    requires 0 <= lo < hi <= |s|
    requires EmailAtom(s[lo..hi])
    ensures forall i :: lo <= i < hi ==> !IsWhitespace(s[i]) && s[i] != '@'
  {
    forall i | lo <= i < hi ensures !IsWhitespace(s[i]) && s[i] != '@' {
      assert s[lo..hi][i - lo] == s[i];
    }
  }

  lemma AtomSlice(s: string, lo: int, hi: int)
    requires 0 <= lo < hi <= |s|
    requires forall i :: lo <= i < hi ==> !IsWhitespace(s[i]) && s[i] != '@'
    ensures EmailAtom(s[lo..hi])
  {
    forall i | 0 <= i < hi - lo ensures !IsWhitespace(s[lo..hi][i]) && s[lo..hi][i] != '@' {
      assert s[lo..hi][i] == s[lo + i];
    }
  }

  /** A character occurring only at position `k` occurs once. */
  lemma {:induction false} CountOnlyAt(s: string, c: char, k: nat)
    requires k < |s| && s[k] == c
    requires forall i :: 0 <= i < |s| && i != k ==> s[i] != c
    ensures CountChar(s, c) == 1
  {
    if k == 0 {
      CountAbsent(s[1..], c);
    } else {
      CountOnlyAt(s[1..], c, k - 1);
    }
  }

  lemma {:induction false} CountAbsent(s: string, c: char)
    requires forall i :: 0 <= i < |s| ==> s[i] != c
    ensures CountChar(s, c) == 0
  {
    if s != [] { CountAbsent(s[1..], c); }
  }

  /** A character occurring at two positions occurs at least twice. */
  lemma {:induction false} CountTwo(s: string, c: char, j: nat, k: nat)
    requires j < |s| && k < |s| && j != k && s[j] == c && s[k] == c
    ensures CountChar(s, c) >= 2
  {
    if j == 0 || k == 0 {
      CountAtLeastOne(s[1..], c, if j == 0 then k - 1 else j - 1);
    } else {
      CountTwo(s[1..], c, j - 1, k - 1);
    }
  }

  lemma {:induction false} CountAtLeastOne(s: string, c: char, k: nat)
    requires k < |s| && s[k] == c
    ensures CountChar(s, c) >= 1
  {
    if k > 0 { CountAtLeastOne(s[1..], c, k - 1); }
  }

  lemma EmailAccepted()
    ensures ValidateEmail("test@example.com")
  {
    var e := "test@example.com";
    assert e[4] == '@' && e[12] == '.';
    AtomSlice(e, 0, 4);
    AtomSlice(e, 5, 12);
    AtomSlice(e, 13, |e|);
  }

  lemma EmailRejected()
    ensures !ValidateEmail("invalid-email")
    ensures !ValidateEmail("")
  {
    var email := "invalid-email";
    assert forall i :: 0 <= i < |email| ==> email[i] != '@';
  }

  // ---------------------------------------------------------------- phone

  /** `phone.replace(/\D/g, '')` */
  function KeepDigits(s: string): string {
    Lists.Filter(s, IsDigit)
  }

  /** `validatePhone`: exactly ten digits once every other character is dropped. */
  predicate ValidatePhone(phone: string)
    ensures ValidatePhone(phone) ==> |phone| >= 10
  {
    if phone == [] then false else |KeepDigits(phone)| == 10
  }

  /** Formatting characters are ignored: inserting non-digits anywhere does not change the verdict. */
  lemma InsertFormatting(a: string, f: string, b: string)
    requires forall i :: 0 <= i < |f| ==> !IsDigit(f[i])
    requires a + b != []
    ensures ValidatePhone(a + f + b) == ValidatePhone(a + b)
  {
    Lists.FilterConcat(a + f, b, IsDigit);
    Lists.FilterConcat(a, f, IsDigit);
    Lists.FilterConcat(a, b, IsDigit);
    NoDigits(f);
  }

  lemma {:induction false} NoDigits(s: string)
    requires forall i :: 0 <= i < |s| ==> !IsDigit(s[i])
    ensures KeepDigits(s) == []
  {
    if s != [] { NoDigits(s[1..]); }
  }

  lemma PhoneDigitsExample()
    ensures ValidatePhone("1234567890")
  {
    Lists.FilterAll("1234567890", IsDigit);
  }

  lemma PhoneRejectedExamples()
    ensures !ValidatePhone("123")
    ensures !ValidatePhone("")
  {
  }

  /** The usual `(area) exchange-line` layout is accepted when the three groups hold ten digits. */
  lemma FormattedPhone(a: string, b: string, c: string)
    requires |a + b + c| == 10 && forall i :: 0 <= i < |a + b + c| ==> IsDigit((a + b + c)[i])
    ensures ValidatePhone("(" + a + ") " + b + "-" + c)
  {
    InsertFormatting([], "(", a + ") " + b + "-" + c);
    assert [] + "(" + (a + ") " + b + "-" + c) == "(" + a + ") " + b + "-" + c;
    InsertFormatting(a, ") ", b + "-" + c);
    assert [] + (a + ") " + b + "-" + c) == a + ") " + (b + "-" + c);
    InsertFormatting(a + b, "-", c);
    assert a + (b + "-" + c) == a + b + "-" + c;
    Lists.FilterAll(a + b + c, IsDigit);
  }

  // ---------------------------------------------------------------- year, fine, dates

  /** `validatePublishYear`, with the current calendar year as a parameter. */
  predicate ValidatePublishYear(year: int, currentYear: int)
    ensures currentYear < 1000 ==> !ValidatePublishYear(year, currentYear)
    ensures year > currentYear ==> !ValidatePublishYear(year, currentYear)
  {
    year >= 1000 && year <= currentYear
  }

  /** A year accepted in one calendar year is accepted in every later one. */
  lemma PublishYearStaysValid(year: int, currentYear: int, laterYear: int)
    requires ValidatePublishYear(year, currentYear) && currentYear <= laterYear
    ensures ValidatePublishYear(year, laterYear)
  {
  }

  /** In any calendar year from 2020 to 2099, 2020 and 1950 are accepted and 999 and 2100 rejected. */
  lemma PublishYearExamples(currentYear: int)
    requires 2020 <= currentYear < 2100
    ensures ValidatePublishYear(2020, currentYear) && ValidatePublishYear(1950, currentYear)
    ensures !ValidatePublishYear(999, currentYear) && !ValidatePublishYear(2100, currentYear)
  {
  }

  /** `calculateFine(daysOverdue, dailyRate = 10)` */
  function CalculateFine(daysOverdue: int, dailyRate: int := 10): (fine: int)
    ensures daysOverdue <= 0 ==> fine == 0
    ensures dailyRate >= 0 ==> fine >= 0
  {
    if daysOverdue <= 0 then 0 else daysOverdue * dailyRate
  }

  /** With a non-negative rate the fine is never negative and grows with the delay. */
  lemma FineMonotone(d1: int, d2: int, rate: int)
    requires d1 <= d2 && rate >= 0
    ensures 0 <= CalculateFine(d1, rate) <= CalculateFine(d2, rate)
  {
    if d1 > 0 {
      assert d1 * rate <= d2 * rate by {
        assert (d2 - d1) * rate >= 0;
      }
    }
  }

  /** Each further day overdue adds one day's rate: with `CalculateFine(0, rate) == 0` this fixes the fine at days times rate. */
  lemma FineStep(days: int, rate: int)
    requires days >= 0
    ensures CalculateFine(days + 1, rate) == CalculateFine(days, rate) + rate
  {
    assert (days + 1) * rate == days * rate + rate;
  }

  lemma FineExamples()
    ensures CalculateFine(5, 10) == 50 && CalculateFine(5) == 50
    ensures CalculateFine(0, 10) == 0 && CalculateFine(-1, 10) == 0
  {
  }

  /** `isDateInPast(date)` for time stamps in milliseconds, `now` standing for `new Date()`. */
  predicate IsDateInPast(date: int, now: int)
    ensures date == now ==> !IsDateInPast(date, now)
    ensures IsDateInPast(date, now) ==> date <= now - 1
  {
    date < now
  }

  /** A date in the past stays in the past as the clock advances; a date after the clock is not past. */
  lemma PastStaysPast(date: int, now: int, later: int)
    requires now <= later
    ensures IsDateInPast(date, now) ==> IsDateInPast(date, later)
    ensures date >= later ==> !IsDateInPast(date, now)
  {
  }

  /**
   * A local calendar date: `getFullYear()`, `getMonth()` (0 to 11), `getDate()` (1 to 31)
   * and the time of day in milliseconds, which `daysBetween` ignores.
   */
  datatype CalendarDate = CalendarDate(year: int, month: int, day: int, msOfDay: int)

  function DaysInMonth(year: int, month: int): int
    requires 0 <= month < 12
  {
    if month == 1 then (if (year % 4 == 0 && year % 100 != 0) || year % 400 == 0 then 29 else 28)
    else if month == 3 || month == 5 || month == 8 || month == 10 then 30
    else 31
  }

  predicate ValidDate(d: CalendarDate) {
    0 <= d.month < 12 && 1 <= d.day <= DaysInMonth(d.year, d.month) && 0 <= d.msOfDay < MsPerDay
  }

  const MsPerDay: int := 1000 * 60 * 60 * 24

  /**
   * The number of days from 1970-01-01 to the given proleptic Gregorian date (the
   * days-from-civil computation over 400-year eras). A day past the end of the month
   * runs on into the next, as in `Date.UTC`.
   */
  function DayNumber(year: int, month: int, day: int): int
    requires 0 <= month < 12
  {
    var m := month + 1;
    var y := if m <= 2 then year - 1 else year;
    var era := y / 400;
    var yoe := y - era * 400;
    var mp := if m > 2 then m - 3 else m + 9;
    var doy := (153 * mp + 2) / 5 + day - 1;
    var doe := yoe * 365 + yoe / 4 - yoe / 100 + doy;
    era * 146097 + doe - 719468
  }

  /**
   * `daysBetween(date1, date2)`: the whole days between the two calendar dates. Both
   * UTC values are multiples of a day, so `Math.floor` of their difference over a day
   * is the difference of the day numbers.
   */
  function DaysBetween(d1: CalendarDate, d2: CalendarDate): (r: int)
    requires ValidDate(d1) && ValidDate(d2)
    ensures d1.year == d2.year && d1.month == d2.month ==> r == d2.day - d1.day
  {
    UtcDay(d2) - UtcDay(d1)
  }

  /** The year `Date.UTC` uses: the years 0 to 99 stand for 1900 to 1999. */
  function UtcYear(year: int): (r: int)
    ensures 1900 <= r <= 1999 <==> 0 <= year <= 99 || 1900 <= year <= 1999
    ensures r < 0 || r > 99
  {
    if 0 <= year <= 99 then 1900 + year else year
  }

  /** `Date.UTC(getFullYear(), getMonth(), getDate()) / msPerDay`. */
  function UtcDay(d: CalendarDate): int
    requires 0 <= d.month < 12
  {
    DayNumber(UtcYear(d.year), d.month, d.day)
  }

  /** The day numbering starts at 1970-01-01. */
  lemma Epoch()
    ensures DayNumber(1970, 0, 1) == 0
  {
  }

  /** The last day of a month and the first of the next are one day apart. */
  lemma NextMonth(year: int, month: int)
    requires 0 <= month < 11
    ensures DayNumber(year, month + 1, 1) - DayNumber(year, month, DaysInMonth(year, month)) == 1
  {
    if month == 1 {
      MarchFollowsFebruary(year);
    }
  }

  /** The day after the last of February is 1 March, in a leap year or not. */
  lemma MarchFollowsFebruary(year: int)
    ensures DayNumber(year, 2, 1) - DayNumber(year, 1, DaysInMonth(year, 1)) == 1
  {
    var era := (year - 1) / 400;
    var r := year - era * 400;
    var february := DaysInMonth(year, 1);
    FebruaryDayNumber(year, february, era, r);
    if r == 400 {
      assert year / 400 == era + 1 && year % 400 == 0;
      assert DayNumber(year, 2, 1) == (era + 1) * 146097 - 719468;
    } else {
      assert year / 400 == era;
      assert DayNumber(year, 2, 1) == era * 146097 + r * 365 + r / 4 - r / 100 - 719468;
      LeapByRemainder(year, era, r);
      QuotientStep(r, 4);
      QuotientStep(r, 100);
    }
  }

  /** A day of February counts from the March-based year before, in the era of `year - 1`. */
  lemma FebruaryDayNumber(year: int, day: int, era: int, r: int)
    requires era == (year - 1) / 400 && r == year - era * 400
    ensures 1 <= r <= 400
    ensures DayNumber(year, 1, day) == era * 146097 + (r - 1) * 365 + (r - 1) / 4 - (r - 1) / 100 + 336 + day - 719468
  {
  }

  /** Within a 400-year era, the leap rule depends only on the year's place in the era. */
  lemma LeapByRemainder(year: int, era: int, r: int)
    requires year == era * 400 + r && 1 <= r < 400
    ensures DaysInMonth(year, 1) == if r % 4 == 0 && r % 100 != 0 then 29 else 28
  {
    assert year % 400 == r;
    assert year % 4 == r % 4 by { EraRemainder(era, r, 4); }
    assert year % 100 == r % 100 by { EraRemainder(era, r, 100); }
  }

  /** A whole number of eras changes neither the remainder by 4 nor by 100. */
  lemma EraRemainder(era: int, r: int, n: int)
    requires n == 4 || n == 100
    ensures (era * 400 + r) % n == r % n
  {
    var k := era * (400 / n);
    assert era * 400 + r == k * n + r;
    var a := (k * n + r) / n;
    var b := r / n;
    assert (a - k - b) * n + (k * n + r) % n == r % n;
  }

  /** The quotient by 4 or by 100 moves up by one exactly when the numerator reaches a multiple. */
  lemma QuotientStep(r: int, n: int)
    requires n == 4 || n == 100
    ensures r / n - (r - 1) / n == if r % n == 0 then 1 else 0
  {
  }

  /** The last day of a year and the first of the next are one day apart. */
  lemma NextYear(year: int)
    ensures DayNumber(year + 1, 0, 1) - DayNumber(year, 11, 31) == 1
  {
  }

  /**
   * A year below 100 is read as 19xx: from 0099-12-31 to 0100-01-01 the count runs
   * back from 1999-12-31, not one day forward.
   */
  lemma TwoDigitYears()
    ensures DaysBetween(CalendarDate(99, 11, 31, 0), CalendarDate(100, 0, 1, 0)) == DayNumber(100, 0, 1) - DayNumber(1999, 11, 31)
    ensures DaysBetween(CalendarDate(99, 11, 31, 0), CalendarDate(100, 0, 1, 0)) == -693959
    ensures DaysBetween(CalendarDate(1999, 11, 31, 0), CalendarDate(2000, 0, 1, 0)) == 1
  {
    assert UtcYear(99) == 1999 && UtcYear(100) == 100;
    assert DayNumber(1999, 11, 31) == 10956;
    assert DayNumber(100, 0, 1) == -683003;
    NextYear(1999);
  }

  /** The day count is zero on a date and itself, changes sign when swapped and adds up over consecutive intervals. */
  lemma DaysBetweenLaws(a: CalendarDate, b: CalendarDate, c: CalendarDate)
    requires ValidDate(a) && ValidDate(b) && ValidDate(c)
    ensures DaysBetween(a, a) == 0
    ensures DaysBetween(a, b) == -DaysBetween(b, a)
    ensures DaysBetween(a, b) + DaysBetween(b, c) == DaysBetween(a, c)
  {
  }

  /** The time of day plays no part. */
  lemma DaysBetweenIgnoresTime(a: CalendarDate, b: CalendarDate, t1: int, t2: int)
    requires ValidDate(a) && ValidDate(b) && 0 <= t1 < MsPerDay && 0 <= t2 < MsPerDay
    ensures DaysBetween(a.(msOfDay := t1), b.(msOfDay := t2)) == DaysBetween(a, b)
  {
  }

  lemma DaysBetweenExample()
    ensures DaysBetween(CalendarDate(2024, 0, 1, 0), CalendarDate(2024, 0, 11, 0)) == 10
  {
  }

  // ---------------------------------------------------------------- sanitising

  /**
   * Replaces every maximal run of white space by one space: a white space
   * character followed by more white space is dropped, the last one of a run
   * becomes a space.
   */
  function CollapseWhitespace(s: string): (r: string)
    ensures |r| <= |s|
  {
    if s == [] then []
    else if !IsWhitespace(s[0]) then [s[0]] + CollapseWhitespace(s[1..])
    else if |s| > 1 && IsWhitespace(s[1]) then CollapseWhitespace(s[1..])
    else " " + CollapseWhitespace(s[1..])
  }

  /** `sanitizeString`: `input.trim().replace(/\s+/g, ' ')`, and `''` for the empty string. */
  function SanitizeString(input: string): (r: string)
    ensures |r| <= |input|
    ensures r == [] <==> AllWhitespace(input)
  {
    if input == [] then "" else
      TrimEmptyIffAllWhitespace(input);
      CollapseShape(Trim(input));
      CollapseWhitespace(Trim(input))
  }

  /** The shape of a sanitised string: no white space at either end, and only single spaces inside. */
  predicate Sanitized(s: string) {
    && (s == [] || (!IsWhitespace(s[0]) && !IsWhitespace(s[|s| - 1])))
    && (forall i :: 0 <= i < |s| && IsWhitespace(s[i]) ==> s[i] == ' ')
    && (forall i :: 0 <= i < |s| - 1 ==> !(IsWhitespace(s[i]) && IsWhitespace(s[i + 1])))
  }

  /** Collapsing leaves only single spaces, and keeps whether each end is white space. */
  lemma {:induction false} CollapseShape(s: string)
    ensures var r := CollapseWhitespace(s);
      && (forall i :: 0 <= i < |r| && IsWhitespace(r[i]) ==> r[i] == ' ')
      && (forall i :: 0 <= i < |r| - 1 ==> !(IsWhitespace(r[i]) && IsWhitespace(r[i + 1])))
      && (s != [] ==> r != [] && (IsWhitespace(r[0]) <==> IsWhitespace(s[0])))
      && (s != [] && !IsWhitespace(s[|s| - 1]) ==> !IsWhitespace(r[|r| - 1]))
  {
    if s != [] {
      var r := CollapseWhitespace(s);
      var r' := CollapseWhitespace(s[1..]);
      CollapseShape(s[1..]);
      if |s| > 1 {
        assert s[|s| - 1] == s[1..][|s| - 2];
      }
      if !IsWhitespace(s[0]) {
        assert r == [s[0]] + r';
      } else if |s| > 1 && IsWhitespace(s[1]) {
        assert r == r';
      } else {
        assert r == " " + r';
      }
    }
  }

  /** A string already in sanitised shape is left alone by collapsing. */
  lemma {:induction false} CollapseFixed(s: string)
    requires forall i :: 0 <= i < |s| && IsWhitespace(s[i]) ==> s[i] == ' '
    requires forall i :: 0 <= i < |s| - 1 ==> !(IsWhitespace(s[i]) && IsWhitespace(s[i + 1]))
    ensures CollapseWhitespace(s) == s
  {
    if s != [] {
      if IsWhitespace(s[0]) {
        assert s[0] == ' ';
        assert |s| == 1 || !IsWhitespace(s[1]);
      }
      CollapseFixed(s[1..]);
      assert s == [s[0]] + s[1..];
    }
  }

  /** The result of sanitising has the sanitised shape. */
  lemma SanitizeShape(input: string)
    ensures Sanitized(SanitizeString(input))
  {
    if input != [] {
      var t := Trim(input);
      CollapseShape(t);
      var r := CollapseWhitespace(t);
      assert SanitizeString(input) == r;
      if t != [] {
        assert !IsWhitespace(t[0]) && !IsWhitespace(t[|t| - 1]);
      }
    }
  }

  /** Sanitising is idempotent. */
  lemma SanitizeIdempotent(input: string)
    ensures SanitizeString(SanitizeString(input)) == SanitizeString(input)
  {
    var s := SanitizeString(input);
    SanitizeShape(input);
    if s != [] {
      assert TrimStart(s) == s;
      assert TrimEnd(s) == s;
      CollapseFixed(s);
    }
  }

  /** Characters other than white space are copied through. */
  lemma {:induction false} CollapsePrefix(a: string, b: string)
    requires forall i :: 0 <= i < |a| ==> !IsWhitespace(a[i])
    ensures CollapseWhitespace(a + b) == a + CollapseWhitespace(b)
  {
    if a == [] {
      assert a + b == b;
    } else {
      assert (a + b)[1..] == a[1..] + b;
      CollapsePrefix(a[1..], b);
    }
  }

  predicate NoWhitespace(s: string) {
    forall i :: 0 <= i < |s| ==> !IsWhitespace(s[i])
  }

  /** Trimming strips exactly the white space padding around a core that neither starts nor ends with white space. */
  lemma TrimPadded(w1: string, core: string, w3: string)
    requires AllWhitespace(w1) && AllWhitespace(w3)
    requires core != [] && !IsWhitespace(core[0]) && !IsWhitespace(core[|core| - 1])
    ensures Trim(w1 + core + w3) == core
  {
    assert w1 + core + w3 == w1 + (core + w3);
    TrimStartSkip(w1, core + w3);
    assert (core + w3)[0] == core[0];
    TrimEndSkip(core, w3);
  }

  /** Two words with white space before, between and after them come out as the words joined by one space. */
  lemma SanitizeTwoWords(w1: string, a: string, w2: string, b: string, w3: string)
    requires AllWhitespace(w1) && AllWhitespace(w2) && AllWhitespace(w3) && w2 != []
    requires a != [] && b != [] && NoWhitespace(a) && NoWhitespace(b)
    ensures SanitizeString(w1 + a + w2 + b + w3) == a + " " + b
  {
    var x := w1 + a + w2 + b + w3;
    var core := a + w2 + b;
    assert core[0] == a[0];
    assert core[|core| - 1] == b[|b| - 1];
    assert x == w1 + core + w3;
    TrimPadded(w1, core, w3);
    assert x[|w1|] == a[0];
    CollapseGap(a, w2, b);
    assert SanitizeString(x) == CollapseWhitespace(core);
  }

  lemma CollapseGap(a: string, w: string, b: string)
    requires AllWhitespace(w) && w != []
    requires b != [] && NoWhitespace(a) && NoWhitespace(b)
    ensures CollapseWhitespace(a + w + b) == a + " " + b
  {
    var t := w + b;
    CollapseRun(w, b);
    CollapseFixed(b);
    assert CollapseWhitespace(t) == " " + b;
    CollapsePrefix(a, t);
    assert a + w + b == a + t;
    assert a + (" " + b) == a + " " + b;
  }

  /** A run of white space in front of a word becomes one space. */
  lemma {:induction false} CollapseRun(w: string, b: string)
    requires AllWhitespace(w) && w != []
    requires b != [] && !IsWhitespace(b[0])
    ensures CollapseWhitespace(w + b) == " " + CollapseWhitespace(b)
  {
    assert (w + b)[0] == w[0];
    assert (w + b)[1..] == w[1..] + b;
    if |w| == 1 {
      assert (w + b)[1] == b[0];
      assert w[1..] + b == b;
    } else {
      assert (w + b)[1] == w[1];
      CollapseRun(w[1..], b);
    }
  }
}
