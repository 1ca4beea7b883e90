/**
 * The results listing scraper (`HLTVMatchResults`,
 * `app/services/matches/results.py`).  A listing page is given as its date
 * sections, each with the texts of its headline query and one record per
 * match container, and the texts of the "next page" query.
 */
module Results {
  import opened Wrappers
  import opened Strings
  import opened Links
  import opened Dates

  /** How far one listing page advances the offset. */
  const PageSize: int := 100

  const ResultsBase: string := "https://www.hltv.org/results"
  const OffsetQuery: string := "?offset="

  /** The listing URL: the offset appears in the query only when it is positive. */
  function ResultsUrl(offset: int): (u: string)
    ensures offset <= 0 ==> u == ResultsBase
    ensures offset > 0 ==> u == ResultsBase + OffsetQuery + NatToString(offset)
  {
    if offset > 0 then ResultsBase + OffsetQuery + NatToString(offset) else ResultsBase
  }

  /** The offset can be read back from a listing URL: distinct offsets give distinct pages. */
  lemma ResultsUrlOffset(offset: int)
    requires offset > 0
    ensures var u := ResultsUrl(offset);
      StartsWith(u, ResultsBase + OffsetQuery)
      && ParseNat(u[|ResultsBase + OffsetQuery|..]) == offset
  {
    var u := ResultsUrl(offset);
    var p := ResultsBase + OffsetQuery;
    assert u[..|p|] == p && u[|p|..] == NatToString(offset);
    ParseNatToString(offset);
  }

  // ---------------------------------------------------------------- one match container

  /** The texts of the queries about one match container. */
  datatype Container = Container(
    link: seq<string>, team1: seq<string>, team2: seq<string>,
    score1: seq<string>, score2: seq<string>, event: seq<string>, format: seq<string>)

  datatype Section = Section(headline: seq<string>, containers: seq<Container>)

  datatype ListingPage = ListingPage(sections: seq<Section>, next: seq<string>)

  /** One entry of the `matches` list `get_results` returns. */
  datatype ListedMatch = ListedMatch(
    matchId: string, matchUrl: string,
    team1Name: string, team2Name: string,
    team1Score: Option<int>, team2Score: Option<int>,
    eventName: Option<string>, matchFormat: Option<string>,
    date: Option<string>, dateParsed: Option<string>)

  /** `_extract_match_id` finds the digits after "/matches/" and before the next '/'. */
  lemma MatchIdOfPath(d: string, rest: string)
    requires d != "" && AllDigits(d)
    ensures MatchId(Some("/matches/" + d + "/" + rest)) == Some(d)
  {
    ExtractIdOfPrefix(MatchPrefixes, "/matches/", d, rest);
  }

  /** `_parse_format`: lower-cased and stripped; None for a missing or empty text. */
  function ParseFormat(f: Option<string>): (r: Option<string>)
    ensures r.Some? <==> Truthy(f)
    ensures r.Some? ==> r.value == Trim(Lower(f.value))
  {
    if !Truthy(f) then None else Some(Trim(Lower(f.value)))
  }

  /** A normalised format is settled: normalising it again changes nothing unless it was blank. */
  lemma ParseFormatIdempotent(f: Option<string>)
    requires ParseFormat(f).Some? && ParseFormat(f).value != ""
    ensures ParseFormat(ParseFormat(f)) == ParseFormat(f)
  {
    TrimIdempotent(Lower(f.value));
    LowerIdempotent(f.value);
    LowerOfTrimmedLower(Lower(f.value));
  }

  /** Lower-casing a lower-cased text, trimmed or not, changes nothing. */
  lemma LowerOfTrimmedLower(l: string)
    requires Lower(l) == l
    ensures Lower(Trim(l)) == Trim(l)
  {
    var r := TrimRight(l);
    TrimRightShape(l);
    TrimLeftShape(r);
    var lo := |r| - |Trim(l)|;
    assert Trim(l) == l[lo..|r|];
    LowerOfSlice(l, lo, |r|);
  }

  /** A slice of a lower-cased text is lower-cased. */
  lemma LowerOfSlice(l: string, lo: nat, hi: nat)
    requires Lower(l) == l && lo <= hi <= |l|
    ensures Lower(l[lo..hi]) == l[lo..hi]
  {
    LowerChars(l);
    var t := l[lo..hi];
    forall i | 0 <= i < |t| ensures LowerChar(t[i]) == t[i] {
      assert t[i] == l[lo + i];
      assert Lower(l)[lo + i] == LowerChar(l[lo + i]);
    }
    LowerTo(t, t);
  }

  /** A score: `int(trim(elems[0]))`, None when there is no text or it is not a number. */
  function ScoreText(elems: seq<string>): (r: Option<int>)
    ensures elems == [] ==> r.None?
    ensures elems != [] ==> r == PyInt(Trim(elems[0]))
  {
    if elems == [] then None else PyInt(Trim(elems[0]))
  }

  /** A team name: the first text, trimmed, or "Unknown". */
  function TeamName(elems: seq<string>): (r: string)
    ensures elems == [] ==> r == "Unknown"
    ensures elems != [] ==> r == Trim(elems[0])
  {
    if elems == [] then "Unknown" else Trim(elems[0])
  }

  /**
   * `_parse_match_container`: None for a container without a link or whose
   * link holds no match number; the date fields are filled in by the walker.
   */
  function ParseContainer(c: Container): (r: Option<ListedMatch>)
    ensures r.Some? <==> c.link != [] && MatchId(Some(c.link[0])).Some?
    ensures r.Some? ==> r.value.matchId == MatchId(Some(c.link[0])).value && r.value.matchUrl == SiteRoot + c.link[0]
    ensures r.Some? ==> r.value.matchId != "" && AllDigits(r.value.matchId)
    ensures r.Some? ==> r.value.team1Name == TeamName(c.team1) && r.value.team2Name == TeamName(c.team2)
    ensures r.Some? ==> r.value.team1Score == ScoreText(c.score1) && r.value.team2Score == ScoreText(c.score2)
    ensures r.Some? ==> r.value.matchFormat == (if c.format == [] then None else ParseFormat(Some(Trim(c.format[0]))))
    ensures r.Some? ==> r.value.eventName == (if c.event == [] then None else Some(Trim(c.event[0])))
    ensures r.Some? ==> r.value.date.None? && r.value.dateParsed.None?
  {
    if c.link == [] then None
    else
      match MatchId(Some(c.link[0]))
      case None => None
      case Some(id) =>
        Some(ListedMatch(
          id, SiteRoot + c.link[0],
          TeamName(c.team1), TeamName(c.team2),
          ScoreText(c.score1), ScoreText(c.score2),
          if c.event == [] then None else Some(Trim(c.event[0])),
          if c.format == [] then None else ParseFormat(Some(Trim(c.format[0]))),
          None, None))
  }

  /** A container linking to "/matches/<digits>/..." is listed under those digits. */
  lemma ContainerOfMatchLink(c: Container, d: string, rest: string)
    requires c.link != [] && c.link[0] == "/matches/" + d + "/" + rest
    requires d != "" && AllDigits(d)
    ensures ParseContainer(c).Some? && ParseContainer(c).value.matchId == d
  {
    MatchIdOfPath(d, rest);
  }

  // ---------------------------------------------------------------- date filters

  /**
   * The date reader and the bounds a listing walk filters by.  The listing
   * reads dates with `_parse_date` (`Listing`); the walk is stated for any
   * reader.
   */
  datatype Window = Window(parse: Option<string> -> Option<string>, start: Option<string>, end: Option<string>)

  function Listing(start: Option<string>, end: Option<string>): (w: Window)
    ensures w.start == start && w.end == end
  {
    Window(ParseDate, start, end)
  }

  /** A missing or unreadable date is let through; a readable one must not sort before the start or after the end. */
  predicate InWindow(w: Window, matchDate: Option<string>) {
    !Truthy(matchDate) || !Truthy(w.parse(matchDate))
    || (!(Truthy(w.start) && StrLess(w.parse(matchDate).value, w.start.value))
        && !(Truthy(w.end) && StrLess(w.end.value, w.parse(matchDate).value)))
  }

  /** A start is set, the date is readable, and it sorts before the start. */
  predicate PastStart(w: Window, matchDate: Option<string>) {
    Truthy(matchDate) && Truthy(w.start) && Truthy(w.parse(matchDate)) && StrLess(w.parse(matchDate).value, w.start.value)
  }

  /** `_is_in_date_range`. */
  predicate InDateRange(matchDate: Option<string>, start: Option<string>, end: Option<string>) {
    InWindow(Listing(start, end), matchDate)
  }

  /** `_is_before_start_date`; the end bound plays no part. */
  predicate BeforeStart(matchDate: Option<string>, start: Option<string>) {
    PastStart(Listing(start, None), matchDate)
  }

  /** Missing and unreadable dates fail open. */
  lemma UnreadableInRange(matchDate: Option<string>, start: Option<string>, end: Option<string>)
    requires ParseDate(matchDate).None?
    ensures InDateRange(matchDate, start, end) && !BeforeStart(matchDate, start)
  {
  }

  /** A date before the start is out of range, whatever the end. */
  lemma BeforeStartOutOfRange(matchDate: Option<string>, start: Option<string>, end: Option<string>)
    requires BeforeStart(matchDate, start)
    ensures !InDateRange(matchDate, start, end) && PastStart(Listing(start, end), matchDate)
  {
  }

  /**
   * With the bounds given as ISO dates, the string comparisons are the
   * calendar ones: a readable date is in range exactly when it lies on or
   * between the two days, and before the start exactly when it is earlier.
   */
  lemma InDateRangeIsCalendar(matchDate: Option<string>, a: Date, b: Date)
    requires ValidDate(a) && ValidDate(b) && HeadlineDate(matchDate).Some?
    ensures var x := HeadlineDate(matchDate).value;
      InDateRange(matchDate, Some(Iso(a)), Some(Iso(b))) <==> !Before(x, a) && !Before(b, x)
    ensures BeforeStart(matchDate, Some(Iso(a))) <==> Before(HeadlineDate(matchDate).value, a)
  {
    var x := HeadlineDate(matchDate).value;
    IsoOrder(x, a);
    IsoOrder(b, x);
  }

  // ---------------------------------------------------------------- the section walker

  /** What the walk over the sections has built so far. */
  datatype Walk = Walk(matches: seq<ListedMatch>, currentDate: Option<string>, reachedBeforeStart: bool)

  /** A listed match stamped with its section's date and that date as read. */
  function Dated(m: Option<ListedMatch>, win: Window, date: Option<string>): (r: Option<ListedMatch>)
    ensures r.Some? <==> m.Some?
    ensures r.Some? ==> r.value == m.value.(date := date, dateParsed := win.parse(date))
  {
    match m
    case Some(v) => Some(v.(date := date, dateParsed := win.parse(date)))
    case None => None
  }

  /** The dated entry each container gives, in order. */
  function ContainerEntries(cs: seq<Container>, win: Window, date: Option<string>): (r: seq<Option<ListedMatch>>)
    ensures |r| == |cs|
  {
    seq(|cs|, i requires 0 <= i < |cs| => Dated(ParseContainer(cs[i]), win, date))
  }

  /** The matches of one section, in container order. */
  function SectionMatches(cs: seq<Container>, win: Window, date: Option<string>): (r: seq<ListedMatch>)
    ensures |r| <= |cs|
  {
    Somes(ContainerEntries(cs, win, date))
  }

  /** The date in force for a section: its own headline, trimmed, or the previous one. */
  function SectionDate(s: Section, current: Option<string>): (r: Option<string>)
    ensures s.headline == [] ==> r == current
    ensures s.headline != [] ==> r == Some(Trim(s.headline[0]))
  {
    if s.headline != [] then Some(Trim(s.headline[0])) else current
  }

  /** The loop body over one section: stop, skip, or add the section's matches. */
  function SectionStep(w: Walk, s: Section, win: Window): (r: Walk)
    ensures r.currentDate == SectionDate(s, w.currentDate)
  {
    var date := SectionDate(s, w.currentDate);
    if s.headline != [] && PastStart(win, date) then Walk(w.matches, date, true)
    else if !InWindow(win, date) then Walk(w.matches, date, false)
    else Walk(w.matches + SectionMatches(s.containers, win, date), date, false)
  }

  /**
   * A section stops the walk exactly when it has a headline before the start;
   * it adds its matches only when its date is in range and it does not stop.
   */
  lemma SectionStepFacts(w: Walk, s: Section, win: Window)
    ensures var r := SectionStep(w, s, win);
      (r.reachedBeforeStart <==> s.headline != [] && PastStart(win, r.currentDate))
      && (r.matches == w.matches ||
          (InWindow(win, r.currentDate) && !r.reachedBeforeStart
           && r.matches == w.matches + SectionMatches(s.containers, win, r.currentDate)))
  {
  }

  /** The state after the sections, stopping at the first headline before the start. */
  function WalkOf(secs: seq<Section>, win: Window): (w: Walk)
  {
    if secs == [] then Walk([], None, false)
    else
      var w := WalkOf(secs[..|secs| - 1], win);
      if w.reachedBeforeStart then w else SectionStep(w, secs[|secs| - 1], win)
  }

  lemma WalkStep(secs: seq<Section>, i: nat, win: Window)
    requires i < |secs|
    ensures var w := WalkOf(secs[..i], win);
      WalkOf(secs[..i + 1], win) == if w.reachedBeforeStart then w else SectionStep(w, secs[i], win)
  {
    assert secs[..i + 1][..i] == secs[..i];
  }

  /** Section `k` has a headline before the start date. */
  predicate StopsAt(secs: seq<Section>, k: int, win: Window) {
    0 <= k < |secs| && secs[k].headline != [] && PastStart(win, Some(Trim(secs[k].headline[0])))
  }

  /** The walk stops exactly when some section's headline is before the start date. */
  lemma {:induction false} WalkReached(secs: seq<Section>, win: Window)
    ensures WalkOf(secs, win).reachedBeforeStart <==> exists k :: StopsAt(secs, k, win)
  {
    if secs != [] {
      var init := secs[..|secs| - 1];
      WalkReached(init, win);
      var w := WalkOf(init, win);
      if !w.reachedBeforeStart {
        var last := secs[|secs| - 1];
        SectionStepFacts(w, last, win);
        if last.headline != [] {
          assert SectionDate(last, w.currentDate) == Some(Trim(last.headline[0]));
          assert StopsAt(secs, |secs| - 1, win) <==> SectionStep(w, last, win).reachedBeforeStart;
        } else {
          assert !StopsAt(secs, |secs| - 1, win);
        }
      }
      if exists k :: StopsAt(init, k, win) {
        var k :| StopsAt(init, k, win);
        assert secs[k] == init[k];
        assert StopsAt(secs, k, win);
      }
      if exists k :: StopsAt(secs, k, win) {
        var k :| StopsAt(secs, k, win);
        if k < |init| {
          assert init[k] == secs[k];
          assert StopsAt(init, k, win);
        }
      }
    }
  }

  /** Once the walk has stopped, later sections change nothing. */
  lemma {:induction false} WalkStopped(secs: seq<Section>, i: nat, win: Window)
    requires i <= |secs| && WalkOf(secs[..i], win).reachedBeforeStart
    ensures WalkOf(secs, win) == WalkOf(secs[..i], win)
    decreases |secs| - i
  {
    if i < |secs| {
      WalkStep(secs, i, win);
      WalkStopped(secs, i + 1, win);
    } else {
      assert secs[..i] == secs;
    }
  }

  /** No section before `k` stops the walk, so the walk has not stopped there. */
  lemma NotStoppedBefore(secs: seq<Section>, k: nat, win: Window)
    requires k <= |secs| && forall j :: 0 <= j < k ==> !StopsAt(secs, j, win)
    ensures !WalkOf(secs[..k], win).reachedBeforeStart
  {
    var prefix := secs[..k];
    WalkReached(prefix, win);
    if exists j :: StopsAt(prefix, j, win) {
      var j :| StopsAt(prefix, j, win);
      assert prefix[j] == secs[j];
      assert StopsAt(secs, j, win);
    }
  }

  /**
   * The section that stops the walk adds nothing: the matches are those of
   * the sections before the first headline that is before the start.
   */
  lemma StopSectionAddsNothing(secs: seq<Section>, k: nat, win: Window)
    requires StopsAt(secs, k, win)
    requires forall j :: 0 <= j < k ==> !StopsAt(secs, j, win)
    ensures WalkOf(secs, win).reachedBeforeStart
    ensures WalkOf(secs, win).matches == WalkOf(secs[..k], win).matches
  {
    NotStoppedBefore(secs, k, win);
    WalkStep(secs, k, win);
    WalkStopped(secs, k + 1, win);
  }

  /** Every listed match carries a date in range, that date as read, and a match number. */
  predicate WellDated(ms: seq<ListedMatch>, win: Window) {
    forall i :: 0 <= i < |ms| ==>
      InWindow(win, ms[i].date) && ms[i].dateParsed == win.parse(ms[i].date)
      && ms[i].matchId != "" && AllDigits(ms[i].matchId)
  }

  lemma SectionWellDated(cs: seq<Container>, win: Window, date: Option<string>)
    requires InWindow(win, date)
    ensures WellDated(SectionMatches(cs, win, date), win)
  {
    var xs := ContainerEntries(cs, win, date);
    var ms := SectionMatches(cs, win, date);
    forall i | 0 <= i < |ms|
      ensures InWindow(win, ms[i].date) && ms[i].dateParsed == win.parse(ms[i].date)
      ensures ms[i].matchId != "" && AllDigits(ms[i].matchId)
    {
      SomesSound(xs, i);
      var j :| 0 <= j < |xs| && xs[j] == Some(ms[i]);
      assert xs[j] == Dated(ParseContainer(cs[j]), win, date);
    }
  }

  /** Skipped sections add nothing, and added sections are the in-range ones. */
  lemma {:induction false} WalkWellDated(secs: seq<Section>, win: Window)
    ensures WellDated(WalkOf(secs, win).matches, win)
  {
    if secs != [] {
      var init := secs[..|secs| - 1];
      WalkWellDated(init, win);
      var w := WalkOf(init, win);
      if !w.reachedBeforeStart {
        var s := secs[|secs| - 1];
        var r := SectionStep(w, s, win);
        SectionStepFacts(w, s, win);
        if r.matches != w.matches {
          var sm := SectionMatches(s.containers, win, r.currentDate);
          SectionWellDated(s.containers, win, r.currentDate);
          assert forall i :: 0 <= i < |r.matches| ==> r.matches[i] == (if i < |w.matches| then w.matches[i] else sm[i - |w.matches|]);
        }
      }
    }
  }

  /** The walk only appends: a prefix's matches stay at the front. */
  lemma {:induction false} WalkGrows(secs: seq<Section>, i: nat, win: Window)
    requires i <= |secs|
    ensures WalkOf(secs[..i], win).matches <= WalkOf(secs, win).matches
    decreases |secs| - i
  {
    if i < |secs| {
      WalkStep(secs, i, win);
      SectionStepFacts(WalkOf(secs[..i], win), secs[i], win);
      WalkGrows(secs, i + 1, win);
    } else {
      assert secs[..i] == secs;
    }
  }

  /** A section that does not stop the walk and whose date is in range adds its matches. */
  lemma SectionStepAdds(w: Walk, s: Section, win: Window)
    requires !(s.headline != [] && PastStart(win, SectionDate(s, w.currentDate)))
    requires InWindow(win, SectionDate(s, w.currentDate))
    ensures SectionStep(w, s, win).matches == w.matches + SectionMatches(s.containers, win, SectionDate(s, w.currentDate))
    ensures !SectionStep(w, s, win).reachedBeforeStart
  {
  }

  /** Every readable container of an in-range section before the stop is listed, with that section's date. */
  lemma ContainerListed(secs: seq<Section>, k: nat, j: nat, win: Window)
    requires k < |secs| && j < |secs[k].containers|
    requires forall i :: 0 <= i <= k ==> !StopsAt(secs, i, win)
    requires InWindow(win, WalkOf(secs[..k + 1], win).currentDate)
    requires ParseContainer(secs[k].containers[j]).Some?
    ensures Dated(ParseContainer(secs[k].containers[j]), win, WalkOf(secs[..k + 1], win).currentDate).value
      in WalkOf(secs, win).matches
  {
    NotStoppedBefore(secs, k, win);
    WalkStep(secs, k, win);
    var s := secs[k];
    var w := WalkOf(secs[..k], win);
    var date := SectionDate(s, w.currentDate);
    assert !StopsAt(secs, k, win);
    SectionStepAdds(w, s, win);
    var r := WalkOf(secs[..k + 1], win);
    assert r == SectionStep(w, s, win) && r.currentDate == date;
    var cs := s.containers;
    var xs := ContainerEntries(cs, win, date);
    assert xs[j] == Dated(ParseContainer(cs[j]), win, date);
    SomesComplete(xs, j);
    var m := xs[j].value;
    assert m in r.matches;
    var at :| 0 <= at < |r.matches| && r.matches[at] == m;
    WalkGrows(secs, k + 1, win);
    assert WalkOf(secs, win).matches[at] == m;
  }

  // ---------------------------------------------------------------- the response

  datatype ResultsResponse = ResultsResponse(
    matches: seq<ListedMatch>, totalCount: nat, offset: int,
    hasMore: bool, nextOffset: Option<int>, reachedBeforeStart: bool)

  /** `get_results` on a fetched page, as a value. */
  function ResultsOf(page: ListingPage, offset: int, start: Option<string>, end: Option<string>): (r: ResultsResponse)
    ensures r.totalCount == |r.matches| && r.offset == offset
    ensures r.hasMore <==> page.next != [] && !r.reachedBeforeStart
    ensures r.nextOffset.Some? <==> r.hasMore
    ensures r.nextOffset.Some? ==> r.nextOffset.value == offset + PageSize
    ensures r.matches == WalkOf(page.sections, Listing(start, end)).matches
    ensures r.reachedBeforeStart == WalkOf(page.sections, Listing(start, end)).reachedBeforeStart
  {
    var w := WalkOf(page.sections, Listing(start, end));
    var hasMore := page.next != [] && !w.reachedBeforeStart;
    ResultsResponse(w.matches, |w.matches|, offset, hasMore, if hasMore then Some(offset + PageSize) else None,
                    w.reachedBeforeStart)
  }

  /** The inner loop of `get_results` over one section's containers. */
  method GetSectionMatches(cs: seq<Container>, win: Window, date: Option<string>) returns (ms: seq<ListedMatch>)
    ensures ms == SectionMatches(cs, win, date)
  {
    ghost var xs := ContainerEntries(cs, win, date);
    ms := [];
    var j := 0;
    while j < |cs|
      invariant 0 <= j <= |cs|
      invariant ms == Somes(xs[..j])
    {
      SomesStep(xs, j);
      var m := ParseContainer(cs[j]);
      assert xs[j] == Dated(m, win, date);
      if m.Some? {
        ms := ms + [m.value.(date := date, dateParsed := win.parse(date))];
      }
      j := j + 1;
    }
    assert xs[..j] == xs;
  }

  /**
   * Every match of the response lies in the window with its section's date,
   * and the walk reports reaching the start date exactly when some section
   * is dated before it.
   */
  lemma ResultsDated(page: ListingPage, offset: int, start: Option<string>, end: Option<string>)
    ensures WellDated(ResultsOf(page, offset, start, end).matches, Listing(start, end))
    ensures ResultsOf(page, offset, start, end).reachedBeforeStart <==> exists k :: StopsAt(page.sections, k, Listing(start, end))
  {
    WalkWellDated(page.sections, Listing(start, end));
    WalkReached(page.sections, Listing(start, end));
  }

  /** `get_results`: the loop over the date sections. */
  method GetResults(page: ListingPage, offset: int, start: Option<string>, end: Option<string>)
    returns (r: ResultsResponse)
    ensures r == ResultsOf(page, offset, start, end)
  {
    var secs := page.sections;
    var win := Listing(start, end);
    var matches: seq<ListedMatch> := [];
    var currentDate: Option<string> := None;
    var reached := false;
    var i := 0;
    while i < |secs|
      invariant 0 <= i <= |secs|
      invariant WalkOf(secs[..i], win) == Walk(matches, currentDate, false)
    {
      WalkStep(secs, i, win);
      var section := secs[i];
      ghost var w := WalkOf(secs[..i], win);
      if section.headline != [] {
        currentDate := Some(Trim(section.headline[0]));
        if PastStart(win, currentDate) {
          reached := true;
          assert WalkOf(secs[..i + 1], win) == Walk(matches, currentDate, true);
          WalkStopped(secs, i + 1, win);
          break;
        }
      }
      assert currentDate == SectionDate(section, w.currentDate);
      if !InWindow(win, currentDate) {
        assert WalkOf(secs[..i + 1], win) == Walk(matches, currentDate, false);
        i := i + 1;
        continue;
      }
      var added := GetSectionMatches(section.containers, win, currentDate);
      SectionStepAdds(w, section, win);
      assert WalkOf(secs[..i + 1], win) == Walk(matches + added, currentDate, false);
      matches := matches + added;
      i := i + 1;
    }
    if !reached {
      assert secs[..i] == secs;
    }
    var hasMore := page.next != [] && !reached;
    r := ResultsResponse(matches, |matches|, offset, hasMore, if hasMore then Some(offset + PageSize) else None, reached);
  }

  /** `get_all_match_ids`: the match numbers of the listed matches, in order. */
  function MatchIds(r: ResultsResponse): (ids: seq<string>)
    ensures |ids| == |r.matches|
    ensures forall i :: 0 <= i < |ids| ==> ids[i] == r.matches[i].matchId
  {
    seq(|r.matches|, i requires 0 <= i < |r.matches| => r.matches[i].matchId)
  }

  /** Every listed identifier is a match number. */
  lemma MatchIdsNumeric(page: ListingPage, offset: int, start: Option<string>, end: Option<string>)
    ensures forall i :: 0 <= i < |MatchIds(ResultsOf(page, offset, start, end))| ==>
      MatchIds(ResultsOf(page, offset, start, end))[i] != "" && AllDigits(MatchIds(ResultsOf(page, offset, start, end))[i])
  {
    ResultsDated(page, offset, start, end);
  }
}
