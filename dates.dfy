/**
 * Calendar dates as the results walker and the incremental worker use them:
 * headlines such as "Results for December 12th 2025" are parsed the way
 * `datetime.strptime(..., "%B %d %Y")` parses them and printed as
 * "YYYY-MM-DD", and the lookback window is a whole number of days before now.
 */
module Dates {
  import opened Wrappers
  import opened Strings

  /** A proleptic Gregorian date, as Python's `datetime.date`. */
  datatype Date = Date(year: nat, month: nat, day: nat)

  predicate IsLeap(y: nat) { y % 4 == 0 && (y % 100 != 0 || y % 400 == 0) }

  function DaysInMonth(y: nat, m: nat): (n: nat)
    requires 1 <= m <= 12
    ensures 28 <= n <= 31
  {
    if m == 2 then (if IsLeap(y) then 29 else 28)
    else if m == 4 || m == 6 || m == 9 || m == 11 then 30
    else 31
  }

  /** The dates `datetime` can represent: years 1 to 9999. */
  predicate ValidDate(d: Date) {
    1 <= d.year <= 9999 && 1 <= d.month <= 12 && 1 <= d.day <= DaysInMonth(d.year, d.month)
  }

  /** Chronological order. */
  predicate Before(a: Date, b: Date) {
    a.year < b.year
    || (a.year == b.year && a.month < b.month)
    || (a.year == b.year && a.month == b.month && a.day < b.day)
  }

  // ---------------------------------------------------------------- ISO text

  /** `n` written with exactly `w` decimal digits, zero-padded on the left. */
  function Digits(n: nat, w: nat): (s: string)
    requires n < Pow10(w)
    ensures |s| == w && AllDigits(s)
  {
    if w == 0 then "" else Digits(n / 10, w - 1) + [DigitChar(n % 10)]
  }

  lemma {:induction false} DigitsParse(n: nat, w: nat)
    requires n < Pow10(w)
    ensures ParseNat(Digits(n, w)) == n
  {
    if w > 0 {
      var s := Digits(n, w);
      assert s[..|s| - 1] == Digits(n / 10, w - 1);
      DigitsParse(n / 10, w - 1);
    }
  }

  /** Fixed-width digit strings compare as the numbers they denote. */
  lemma {:induction false} DigitsOrder(a: nat, b: nat, w: nat)
    requires a < Pow10(w) && b < Pow10(w)
    ensures StrLess(Digits(a, w), Digits(b, w)) <==> a < b
    ensures Digits(a, w) == Digits(b, w) <==> a == b
  {
    if w > 0 {
      var da, db := Digits(a / 10, w - 1), Digits(b / 10, w - 1);
      var ca, cb := DigitChar(a % 10), DigitChar(b % 10);
      DigitsOrder(a / 10, b / 10, w - 1);
      StrLessConcat(da, [ca], db, [cb]);
      assert StrLess([ca], [cb]) <==> a % 10 < b % 10 by {
        assert [ca][1..] == [] && [cb][1..] == [];
      }
      if Digits(a, w) == Digits(b, w) {
        assert Digits(a, w)[w - 1] == ca && Digits(b, w)[w - 1] == cb;
        assert Digits(a, w)[..w - 1] == da && Digits(b, w)[..w - 1] == db;
      }
    }
  }

  /** `strftime("%Y-%m-%d")`. */
  function Iso(d: Date): (s: string)
    requires ValidDate(d)
    ensures |s| == 10 && s[4] == '-' && s[7] == '-'
  {
    Digits(d.year, 4) + "-" + Digits(d.month, 2) + "-" + Digits(d.day, 2)
  }

  /** Comparing ISO strings with `<`, as the source does, is chronological order. */
  lemma IsoOrder(a: Date, b: Date)
    requires ValidDate(a) && ValidDate(b)
    ensures StrLess(Iso(a), Iso(b)) <==> Before(a, b)
    ensures Iso(a) == Iso(b) <==> a == b
  {
    var ya, ma, da := Digits(a.year, 4), Digits(a.month, 2), Digits(a.day, 2);
    var yb, mb, db := Digits(b.year, 4), Digits(b.month, 2), Digits(b.day, 2);
    DigitsOrder(a.year, b.year, 4);
    DigitsOrder(a.month, b.month, 2);
    DigitsOrder(a.day, b.day, 2);
    var ta, tb := ("-" + ma) + ("-" + da), ("-" + mb) + ("-" + db);
    IsoParts(a);
    IsoParts(b);
    StrLessConcat(ya, ta, yb, tb);
    TailOrder(ma, da, mb, db);
    IsoInjective(a, b);
  }

  /** The year, then the dashed month, then the dashed day. */
  lemma IsoParts(d: Date)
    requires ValidDate(d)
    ensures Iso(d) == Digits(d.year, 4) + (("-" + Digits(d.month, 2)) + ("-" + Digits(d.day, 2)))
  {
  }

  /** The month and day part compares by month first, then by day. */
  lemma TailOrder(ma: string, da: string, mb: string, db: string)
    requires |ma| == |mb| && |da| == |db|
    ensures StrLess(("-" + ma) + ("-" + da), ("-" + mb) + ("-" + db)) == if ma != mb then StrLess(ma, mb) else StrLess(da, db)
  {
    StrLessConcat("-" + ma, "-" + da, "-" + mb, "-" + db);
    Dashed(ma, mb);
    Dashed(da, db);
  }

  /** A leading dash on both sides changes neither the order nor equality. */
  lemma Dashed(x: string, y: string)
    ensures StrLess("-" + x, "-" + y) == StrLess(x, y)
    ensures ("-" + x == "-" + y) == (x == y)
  {
    var dx, dy := "-" + x, "-" + y;
    assert dx[0] == dy[0] && dx[1..] == x && dy[1..] == y;
  }

  /** Equal texts made of parts of equal lengths have equal parts. */
  lemma SplitEqual(x1: string, r1: string, x2: string, r2: string)
    requires |x1| == |x2| && x1 + r1 == x2 + r2
    ensures x1 == x2 && r1 == r2
  {
    assert x1 == (x1 + r1)[..|x1|] && x2 == (x2 + r2)[..|x2|];
    assert r1 == (x1 + r1)[|x1|..] && r2 == (x2 + r2)[|x2|..];
  }

  lemma IsoInjective(a: Date, b: Date)
    requires ValidDate(a) && ValidDate(b)
    ensures Iso(a) == Iso(b) <==> a == b
  {
    var ya, ma, da := Digits(a.year, 4), Digits(a.month, 2), Digits(a.day, 2);
    var yb, mb, db := Digits(b.year, 4), Digits(b.month, 2), Digits(b.day, 2);
    DigitsOrder(a.year, b.year, 4);
    DigitsOrder(a.month, b.month, 2);
    DigitsOrder(a.day, b.day, 2);
    if Iso(a) == Iso(b) {
      IsoParts(a);
      IsoParts(b);
      SplitEqual(ya, ("-" + ma) + ("-" + da), yb, ("-" + mb) + ("-" + db));
      SplitEqual("-" + ma, "-" + da, "-" + mb, "-" + db);
      Dashed(ma, mb);
      Dashed(da, db);
    }
  }

  // ---------------------------------------------------------------- strptime

  const MonthNames: seq<string> :=
    ["january", "february", "march", "april", "may", "june",
     "july", "august", "september", "october", "november", "december"]

  /** How the site writes month names. */
  const MonthTitles: seq<string> :=
    ["January", "February", "March", "April", "May", "June",
     "July", "August", "September", "October", "November", "December"]

  function MonthFrom(w: string, i: nat): (r: Option<nat>)
    requires i <= 12
    ensures r.Some? ==> i < r.value <= 12 && w == MonthNames[r.value - 1]
    ensures r.None? ==> forall k :: i <= k < 12 ==> w != MonthNames[k]
    decreases 12 - i
  {
    if i == 12 then None else if w == MonthNames[i] then Some(i + 1) else MonthFrom(w, i + 1)
  }

  /** `%B`: a full month name in any letter case, numbered from 1. */
  function MonthNumber(w: string): (r: Option<nat>)
    ensures r.Some? ==> 1 <= r.value <= 12 && Lower(w) == MonthNames[r.value - 1]
    ensures r.None? ==> Lower(w) !in MonthNames
  {
    MonthFrom(Lower(w), 0)
  }

  lemma MonthNumberOfTitle(m: nat)
    requires 1 <= m <= 12
    ensures MonthNumber(MonthTitles[m - 1]) == Some(m)
  {
    var w := MonthTitles[m - 1];
    assert Lower(w) == MonthNames[m - 1] by { LowerTitles(m - 1); }
    forall k | 0 <= k < m - 1 ensures MonthNames[k] != MonthNames[m - 1] {
      MonthNamesDistinct(k, m - 1);
    }
    MonthFromFinds(Lower(w), 0, m);
  }

  lemma LowerTitles(k: nat)
    requires k < 12
    ensures Lower(MonthTitles[k]) == MonthNames[k]
  {
    var t := MonthTitles[k];
    assert |t| == |MonthNames[k]|;
    assert forall i :: 0 <= i < |t| ==> LowerChar(t[i]) == MonthNames[k][i];
    LowerTo(t, MonthNames[k]);
  }

  /** Month titles are non-empty runs of letters other than 'R'. */
  lemma TitleLetters(k: nat)
    requires k < 12
    ensures MonthTitles[k] != ""
    ensures forall i :: 0 <= i < |MonthTitles[k]| ==> IsLetter(MonthTitles[k][i]) && MonthTitles[k][i] != 'R'
  {
  }

  lemma MonthNamesDistinct(j: nat, k: nat)
    requires j < k < 12
    ensures MonthNames[j] != MonthNames[k]
  {
    var a, b := MonthNames[j], MonthNames[k];
    assert |a| != |b| || a[0] != b[0] || a[1] != b[1] || a[2] != b[2];
  }

  lemma {:induction false} MonthFromFinds(w: string, i: nat, m: nat)
    requires i < m <= 12 && w == MonthNames[m - 1]
    requires forall k :: i <= k < m - 1 ==> MonthNames[k] != w
    ensures MonthFrom(w, i) == Some(m)
    decreases m - i
  {
    if i < m - 1 { MonthFromFinds(w, i + 1, m); }
  }

  /** `%d`: one digit 1-9, or two digits from 01 to 31. */
  function DayNumber(w: string): (r: Option<nat>)
    ensures r.Some? ==> 1 <= r.value <= 31 && AllDigits(w) && 1 <= |w| <= 2 && r.value == ParseNat(w)
  {
    if |w| == 1 && '1' <= w[0] <= '9' then
      assert w[..0] == [];
      Some(DigitVal(w[0]))
    else if |w| == 2 && AllDigits(w) && 1 <= ParseNat(w) <= 31 then Some(ParseNat(w))
    else None
  }

  /** `%Y`: exactly four digits. */
  function YearNumber(w: string): (r: Option<nat>)
    ensures r.Some? ==> |w| == 4 && AllDigits(w) && r.value == ParseNat(w) && r.value <= 9999
  {
    if |w| == 4 && AllDigits(w) then
      assert ParseNat(w) < 10000 by { ParseNatBound(w); }
      Some(ParseNat(w))
    else None
  }

  lemma {:induction false} ParseNatBound(s: string)
    requires AllDigits(s)
    ensures ParseNat(s) < Pow10(|s|)
  {
    if |s| > 0 { ParseNatBound(s[..|s| - 1]); }
  }

  /**
   * `datetime.strptime(s, "%B %d %Y")`: whitespace-separated month, day and
   * year filling the whole text, forming a date that exists; None where
   * Python raises ValueError.
   */
  function Strptime(s: string): (r: Option<Date>)
    ensures r.Some? ==> ValidDate(r.value)
    ensures r.Some? ==> (|Words(s)| == 3
      && MonthNumber(Words(s)[0]) == Some(r.value.month)
      && DayNumber(Words(s)[1]) == Some(r.value.day)
      && YearNumber(Words(s)[2]) == Some(r.value.year))
  {
    var ws := Words(s);
    if |ws| != 3 then None
    else
      match (MonthNumber(ws[0]), DayNumber(ws[1]), YearNumber(ws[2]))
      case (Some(m), Some(d), Some(y)) =>
        if 1 <= y && d <= DaysInMonth(y, m) then Some(Date(y, m, d)) else None
      case _ => None
  }

  // ---------------------------------------------------------------- headlines

  const OrdinalSuffixes: seq<string> := ["st", "nd", "rd", "th"]

  /**
   * `re.sub(r'(\d+)(st|nd|rd|th)', r'\1', s)`: an ordinal suffix directly
   * after a digit is dropped.  As the suffixes hold no digit, a digit run
   * can only be followed by its suffix at its last digit.
   */
  function StripOrdinals(s: string): (r: string)
    ensures |r| <= |s|
  {
    if |s| == 0 then ""
    else if OrdinalAt(s) then [s[0]] + StripOrdinals(s[3..])
    else [s[0]] + StripOrdinals(s[1..])
  }

  /** The text begins with a digit and an ordinal suffix. */
  predicate OrdinalAt(s: string) {
    |s| >= 3 && IsDigit(s[0]) && s[1..3] in OrdinalSuffixes
  }

  /** Text ending in neither of its last two characters with a digit begins with an ordinal exactly when it does followed by more. */
  lemma OrdinalAtAppend(a: string, b: string)
    requires |a| > 0
    requires !IsDigit(a[|a| - 1])
    requires |a| < 2 || !IsDigit(a[|a| - 2])
    ensures OrdinalAt(a + b) == OrdinalAt(a)
  {
    var s := a + b;
    assert s[0] == a[0];
    if |a| >= 3 {
      assert s[1..3] == a[1..3];
    }
  }

  lemma {:induction false} StripOrdinalsOfDigits(s: string)
    requires AllDigits(s)
    ensures StripOrdinals(s) == s
  {
    if |s| > 0 {
      if |s| >= 3 { assert IsDigit(s[1..3][0]); }
      StripOrdinalsOfDigits(s[1..]);
      assert s == [s[0]] + s[1..];
    }
  }

  /** Text ending in neither of its last two characters with a digit is processed on its own. */
  lemma {:induction false} StripOrdinalsAppend(a: string, b: string)
    requires |a| < 1 || !IsDigit(a[|a| - 1])
    requires |a| < 2 || !IsDigit(a[|a| - 2])
    ensures StripOrdinals(a + b) == StripOrdinals(a) + StripOrdinals(b)
  {
    if |a| == 0 {
      assert a + b == b;
    } else {
      var s := a + b;
      assert s[0] == a[0];
      OrdinalAtAppend(a, b);
      if OrdinalAt(a) {
        assert s[3..] == a[3..] + b;
        StripOrdinalsAppend(a[3..], b);
      } else {
        assert s[1..] == a[1..] + b;
        StripOrdinalsAppend(a[1..], b);
      }
    }
  }

  /** A digit run with a suffix loses the suffix. */
  lemma {:induction false} StripOrdinalsOfOrdinal(ds: string, suffix: string, rest: string)
    requires ds != "" && AllDigits(ds) && suffix in OrdinalSuffixes
    ensures StripOrdinals(ds + suffix + rest) == ds + StripOrdinals(rest)
  {
    var s := ds + suffix + rest;
    assert s[0] == ds[0];
    if |ds| == 1 {
      assert s[1..3] == suffix;
      assert s[3..] == rest;
    } else {
      assert s[1] == ds[1];
      assert s[1..3] !in OrdinalSuffixes by { assert IsDigit(s[1..3][0]); }
      assert s[1..] == ds[1..] + suffix + rest;
      StripOrdinalsOfOrdinal(ds[1..], suffix, rest);
      assert ds == [ds[0]] + ds[1..];
    }
  }

  const ResultsFor: string := "Results for "

  /** The date a headline names, if `_parse_date` can read it. */
  function HeadlineDate(headline: Option<string>): (r: Option<Date>)
    ensures r.Some? ==> Truthy(headline) && ValidDate(r.value)
  {
    if !Truthy(headline) then None
    else Strptime(Trim(RemoveAll(StripOrdinals(headline.value), ResultsFor)))
  }

  /**
   * `_parse_date`: ordinal suffixes removed, every "Results for " removed,
   * the rest parsed as "Month Day Year" and printed as "YYYY-MM-DD"; None
   * for a missing, empty or unreadable headline.
   */
  function ParseDate(headline: Option<string>): (r: Option<string>)
    ensures r.Some? <==> HeadlineDate(headline).Some?
    ensures r.Some? ==> ValidDate(HeadlineDate(headline).value) && r.value == Iso(HeadlineDate(headline).value)
  {
    match HeadlineDate(headline)
    case Some(d) => Some(Iso(d))
    case None => None
  }

  /** How the site writes a day heading: month name, day with its ordinal suffix, four-digit year. */
  function Headline(lead: string, d: Date, suffix: string): string
    requires ValidDate(d)
  {
    lead + (MonthTitles[d.month - 1] + " " + (NatToString(d.day) + suffix + (" " + Digits(d.year, 4))))
  }

  /** The heading with the ordinal suffix dropped. */
  function Body(d: Date): string
    requires ValidDate(d)
  {
    MonthTitles[d.month - 1] + " " + (NatToString(d.day) + (" " + Digits(d.year, 4)))
  }

  /** Every site heading, with or without its "Results for " lead, parses back to its date. */
  lemma ParseDateOfHeadline(lead: string, d: Date, suffix: string)
    requires ValidDate(d) && suffix in OrdinalSuffixes && (lead == "" || lead == ResultsFor)
    ensures ParseDate(Some(Headline(lead, d, suffix))) == Some(Iso(d))
  {
    HeadlineCleaned(lead, d, suffix);
    StrptimeOfBody(d);
  }

  /** Cleaning a heading leaves month, day and year separated by single spaces. */
  lemma HeadlineCleaned(lead: string, d: Date, suffix: string)
    requires ValidDate(d) && suffix in OrdinalSuffixes && (lead == "" || lead == ResultsFor)
    ensures Trim(RemoveAll(StripOrdinals(Headline(lead, d, suffix)), ResultsFor)) == Body(d)
  {
    var body := Body(d);
    HeadlineStripped(lead, d, suffix);
    BodyHasNoCapitalR(d);
    if lead == ResultsFor {
      RemoveAllPrefix(ResultsFor, body);
    } else {
      assert lead + body == body;
    }
    RemoveAllAbsent(body, ResultsFor);
    BodyWords(d);
  }

  lemma StrptimeOfBody(d: Date)
    requires ValidDate(d)
    ensures Strptime(Body(d)) == Some(d)
  {
    BodyWords(d);
    MonthNumberOfTitle(d.month);
    DayNumberOfDay(d.day);
    DigitsParse(d.year, 4);
  }

  lemma BodyHasNoCapitalR(d: Date)
    requires ValidDate(d)
    ensures 'R' !in Body(d)
  {
    var month, day, year := MonthTitles[d.month - 1], NatToString(d.day), Digits(d.year, 4);
    TitleLetters(d.month - 1);
    assert 'R' !in day && 'R' !in year by {
      assert forall k :: 0 <= k < |day| ==> IsDigit(day[k]);
      assert forall k :: 0 <= k < |year| ==> IsDigit(year[k]);
    }
    assert Body(d) == month + " " + day + " " + year;
  }

  lemma HeadlineStripped(lead: string, d: Date, suffix: string)
    requires ValidDate(d) && suffix in OrdinalSuffixes && (lead == "" || lead == ResultsFor)
    ensures StripOrdinals(Headline(lead, d, suffix)) == lead + Body(d)
  {
    var month, day, year := MonthTitles[d.month - 1], NatToString(d.day), Digits(d.year, 4);
    TitleLetters(d.month - 1);
    NoDigitConcat(month, " ");
    StripOrdinalParts(month + " ", day, suffix, year);
    LeadLetters(lead);
    StripOrdinalsAppend(lead, month + " " + (day + suffix + (" " + year)));
    StripOrdinalsNoDigit(lead);
  }

  lemma LeadLetters(lead: string)
    requires lead == "" || lead == ResultsFor
    ensures forall k :: 0 <= k < |lead| ==> !IsDigit(lead[k])
  {
  }

  lemma NoDigitConcat(a: string, b: string)
    requires forall k :: 0 <= k < |a| ==> !IsDigit(a[k])
    requires forall k :: 0 <= k < |b| ==> !IsDigit(b[k])
    ensures forall k :: 0 <= k < |a + b| ==> !IsDigit((a + b)[k])
  {
  }

  lemma StripOrdinalParts(head: string, day: string, suffix: string, year: string)
    requires forall k :: 0 <= k < |head| ==> !IsDigit(head[k])
    requires day != "" && AllDigits(day) && AllDigits(year) && suffix in OrdinalSuffixes
    ensures StripOrdinals(head + (day + suffix + (" " + year))) == head + (day + (" " + year))
  {
    StripOrdinalsAppend(head, day + suffix + (" " + year));
    StripOrdinalsNoDigit(head);
    StripOrdinalsOfOrdinal(day, suffix, " " + year);
    StripOrdinalsSpaced(year);
  }

  /** A space and a digit run are left as they are. */
  lemma StripOrdinalsSpaced(year: string)
    requires AllDigits(year)
    ensures StripOrdinals(" " + year) == " " + year
  {
    StripOrdinalsAppend(" ", year);
    StripOrdinalsOfDigits(year);
    assert StripOrdinals(" ") == " ";
  }

  lemma BodyWords(d: Date)
    requires ValidDate(d)
    ensures Trim(Body(d)) == Body(d)
    ensures Words(Body(d)) == [MonthTitles[d.month - 1], NatToString(d.day), Digits(d.year, 4)]
  {
    var month, day, year := MonthTitles[d.month - 1], NatToString(d.day), Digits(d.year, 4);
    TitleLetters(d.month - 1);
    assert NoSpace(day) by { assert forall k :: 0 <= k < |day| ==> IsDigit(day[k]); }
    assert NoSpace(year) by { assert forall k :: 0 <= k < |year| ==> IsDigit(year[k]); }
    ThreeWords(month, day, year);
  }

  lemma ThreeWords(a: string, b: string, c: string)
    requires a != "" && b != "" && c != "" && NoSpace(a) && NoSpace(b) && NoSpace(c)
    ensures Trim(a + " " + (b + (" " + c))) == a + " " + (b + (" " + c))
    ensures Words(a + " " + (b + (" " + c))) == [a, b, c]
  {
    WordsCons(a, " ", b + (" " + c));
    TwoWords(b, c);
    Unpadded(a + " " + (b + (" " + c)));
  }

  lemma TwoWords(b: string, c: string)
    requires b != "" && c != "" && NoSpace(b) && NoSpace(c)
    ensures Words(b + (" " + c)) == [b, c]
  {
    assert b + (" " + c) == b + " " + c;
    WordsCons(b, " ", c);
    WordsSingle(c);
  }

  lemma Unpadded(s: string)
    requires s != "" && !IsSpace(s[0]) && !IsSpace(s[|s| - 1])
    ensures Trim(s) == s
  {
    TrimRightOfUnpadded(s);
    TrimLeftOfUnpadded(s);
  }

  lemma {:induction false} StripOrdinalsNoDigit(s: string)
    requires forall k :: 0 <= k < |s| ==> !IsDigit(s[k])
    ensures StripOrdinals(s) == s
  {
    if |s| > 0 {
      StripOrdinalsNoDigit(s[1..]);
      assert s == [s[0]] + s[1..];
    }
  }

  lemma DayNumberOfDay(day: nat)
    requires 1 <= day <= 31
    ensures DayNumber(NatToString(day)) == Some(day)
  {
    ParseNatToString(day);
    if day >= 10 {
      assert NatToString(day) == NatToString(day / 10) + [DigitChar(day % 10)];
    }
  }

  // ---------------------------------------------------------------- day arithmetic

  /** The day before, None before 1 January of year 1 (Python's OverflowError). */
  function PrevDay(d: Date): (r: Option<Date>)
    requires ValidDate(d)
    ensures r.Some? ==> ValidDate(r.value) && Before(r.value, d)
  {
    if d.day > 1 then Some(Date(d.year, d.month, d.day - 1))
    else if d.month > 1 then Some(Date(d.year, d.month - 1, DaysInMonth(d.year, d.month - 1)))
    else if d.year > 1 then Some(Date(d.year - 1, 12, 31))
    else None
  }

  /** The day after, None after 31 December 9999. */
  function NextDay(d: Date): (r: Option<Date>)
    requires ValidDate(d)
    ensures r.Some? ==> ValidDate(r.value) && Before(d, r.value)
  {
    if d.day < DaysInMonth(d.year, d.month) then Some(Date(d.year, d.month, d.day + 1))
    else if d.month < 12 then Some(Date(d.year, d.month + 1, 1))
    else if d.year < 9999 then Some(Date(d.year + 1, 1, 1))
    else None
  }

  /** Stepping back a day and forward again returns to the same date. */
  lemma NextOfPrev(d: Date)
    requires ValidDate(d) && PrevDay(d).Some?
    ensures NextDay(PrevDay(d).value) == Some(d)
  {
  }

  /** `d - timedelta(days=n)` for a whole number of days; negative `n` moves forward. */
  function ShiftBack(d: Date, n: int): (r: Option<Date>)
    requires ValidDate(d)
    ensures r.Some? ==> ValidDate(r.value)
    ensures r.Some? && n > 0 ==> Before(r.value, d)
    ensures r.Some? && n < 0 ==> Before(d, r.value)
    ensures r.Some? && n == 0 ==> r.value == d
    decreases if n < 0 then -n else n
  {
    if n == 0 then Some(d)
    else if n > 0 then
      match PrevDay(d)
      case None => None
      case Some(p) =>
        var r := ShiftBack(p, n - 1);
        if r.Some? then BeforeTransitive(r.value, p, d); r else r
    else
      match NextDay(d)
      case None => None
      case Some(q) =>
        var r := ShiftBack(q, n + 1);
        if r.Some? then BeforeTransitive(d, q, r.value); r else r
  }

  lemma BeforeTransitive(a: Date, b: Date, c: Date)
    requires (Before(a, b) || a == b) && (Before(b, c) || b == c) && (Before(a, b) || Before(b, c))
    ensures Before(a, c)
  {
  }

  /**
   * `_get_date_range`: the window from `lookback` days before `today` to
   * `today`, both as "YYYY-MM-DD"; None where the subtraction overflows.
   */
  function DateRange(today: Date, lookback: int): (r: Option<(string, string)>)
    requires ValidDate(today)
    ensures r.Some? <==> ShiftBack(today, lookback).Some?
    ensures r.Some? ==> r.value.1 == Iso(today) && r.value.0 == Iso(ShiftBack(today, lookback).value)
  {
    match ShiftBack(today, lookback)
    case Some(start) => Some((Iso(start), Iso(today)))
    case None => None
  }

  /** A non-negative lookback gives a window that is not empty: start <= end as strings. */
  lemma DateRangeOrdered(today: Date, lookback: int)
    requires ValidDate(today) && lookback >= 0 && DateRange(today, lookback).Some?
    ensures !StrLess(DateRange(today, lookback).value.1, DateRange(today, lookback).value.0)
    ensures lookback > 0 ==> StrLess(DateRange(today, lookback).value.0, DateRange(today, lookback).value.1)
  {
    var start := ShiftBack(today, lookback).value;
    IsoOrder(start, today);
    IsoOrder(today, start);
  }
}
