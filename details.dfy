/**
 * The match page scraper (`HLTVMatchDetails`,
 * `app/services/matches/details.py`).  A fetched page is given as the
 * results of the queries the scraper runs on it: node texts for the
 * team, event, date and format fields, and one record per map holder and
 * per statistics table holding the texts of its sub-queries.
 */
module Details {
  import opened Wrappers
  import opened Strings
  import opened Links
  import opened Extract
  import opened Schema

  // ---------------------------------------------------------------- the page

  /** The five queries about one team in the match header. */
  datatype TeamBlock = TeamBlock(name: Raw, link: Raw, logo: Raw, scoreWon: Raw, scoreLost: Raw)

  /** One map holder: the texts of its sub-queries, and whether the "won" marker of each team is present. */
  datatype MapHolder = MapHolder(
    name: seq<string>,
    team1Score: seq<string>, team2Score: seq<string>,
    team1Ct: seq<string>, team1T: seq<string>, team2Ct: seq<string>, team2T: seq<string>,
    team1Won: bool, team2Won: bool)

  datatype StatsHeader = StatsHeader(teamName: seq<string>, teamLink: seq<string>, teamLogo: seq<string>)

  datatype PlayerRow = PlayerRow(
    link: seq<string>, nick: seq<string>, flag: seq<string>,
    kd: seq<string>, adr: seq<string>, kast: seq<string>, rating: seq<string>, swing: seq<string>)

  /** A statistics table: its header rows (only the first is read) and its player rows. */
  datatype StatsTable = StatsTable(header: seq<StatsHeader>, rows: seq<PlayerRow>)

  datatype MatchPage = MatchPage(
    canonical: seq<string>,
    team1: TeamBlock, team2: TeamBlock,
    eventLink: Raw, eventName: Raw, date: Raw, timeUnix: Raw, matchFormat: Raw,
    mapHolders: seq<MapHolder>,
    statsTables: seq<StatsTable>)

  /** `elems[0] if elems else None`. */
  function First(elems: seq<string>): (r: Option<string>)
    ensures r.Some? <==> elems != []
  {
    if elems != [] then Some(elems[0]) else None
  }

  /** `trim(elems[0]) if elems else None`. */
  function FirstTrimmed(elems: seq<string>): (r: Option<string>)
    ensures r.Some? <==> elems != []
    ensures r.Some? ==> Trim(r.value) == r.value
  {
    if elems != [] then TrimIdempotent(elems[0]); Some(Trim(elems[0])) else None
  }

  // ---------------------------------------------------------------- the match URL

  /** The URL requested for a match id, before the canonical link replaces it. */
  function RequestUrl(id: string): string {
    SiteRoot + ("/matches/" + (id + "/_"))
  }

  /** The page's canonical link when it has one, else the requested URL. */
  function MatchUrl(id: string, canonical: seq<string>): (u: string)
    ensures canonical != [] ==> u == canonical[0]
    ensures canonical == [] ==> u == RequestUrl(id)
  {
    if canonical != [] then canonical[0] else RequestUrl(id)
  }

  /** The requested URL carries the match id where the match-id pattern finds it. */
  lemma RequestUrlHoldsId(id: string)
    requires id != "" && AllDigits(id)
    ensures MatchId(Some(RequestUrl(id))) == Some(id)
  {
    var tail := "/matches/" + (id + "/_");
    var url := SiteRoot + tail;
    assert |SiteRoot| == 20 && url[20..] == tail;
    assert url[20..29] == "/matches/";
    assert url[29..29 + |id|] == id;
    assert url[29 + |id|] == '/';
    assert DelimitedAt(url, 20, "/matches/", id);
    forall k: nat | k < 20
      ensures IdAtAny(url, k, MatchPrefixes).None?
    {
      assert url[k] == SiteRoot[k] && url[k + 1] == (SiteRoot + "/")[k + 1];
      assert url[k] != '/' || url[k + 1] != 'm';
      if IdAt(url, k, "/matches/").Some? {
        IdAtHead(url, k, "/matches/");
      }
    }
    ExtractIdAt(url, 20, MatchPrefixes, id);
  }

  // ---------------------------------------------------------------- format and K-D

  /** `_parse_format_type`: "bo1", "bo3" or "bo5" by the first "best of N" found, checked in that order. */
  function FormatType(format: Option<string>): (r: Option<string>)
    ensures r.Some? ==> Truthy(format) && (r.value == "bo1" || r.value == "bo3" || r.value == "bo5")
  {
    if !Truthy(format) then None
    else
      var l := Lower(format.value);
      if Contains(l, "best of 1") then Some("bo1")
      else if Contains(l, "best of 3") then Some("bo3")
      else if Contains(l, "best of 5") then Some("bo5")
      else None
  }

  /** A header "Best of N ..." with N one of 1, 3, 5 and no other digit reads as "boN". */
  lemma FormatOfLabel(n: char, rest: string)
    requires n == '1' || n == '3' || n == '5'
    requires forall i :: 0 <= i < |rest| ==> !IsDigit(rest[i])
    ensures FormatType(Some("Best of " + [n] + rest)) == Some("bo" + [n])
  {
    var s := "Best of " + [n] + rest;
    var l := Lower(s);
    LowerChars(s);
    var p := "best of " + [n];
    assert l[..9] == p;
    assert StartsWith(l, p);
    forall i | 0 <= i < |l| && IsDigit(l[i])
      ensures i == 8
    {
    }
    assert Contains(l, p);
    if n != '1' {
      NotContains(l, "best of 1", 8);
    }
    if n == '5' {
      NotContains(l, "best of 3", 8);
    }
    if n == '1' {
      assert p == "best of 1" && "bo" + [n] == "bo1";
    } else if n == '3' {
      assert p == "best of 3" && "bo" + [n] == "bo3";
    } else {
      assert p == "best of 5" && "bo" + [n] == "bo5";
    }
  }

  /** A string has `p` nowhere when the digit `p` ends with appears in it only at `j`, and differs there. */
  lemma {:induction false} NotContains(s: string, p: string, j: int)
    requires |p| == 9 && IsDigit(p[8])
    requires forall i :: 0 <= i < |s| && IsDigit(s[i]) ==> i == j
    requires 0 <= j < |s| ==> s[j] != p[8]
    ensures !Contains(s, p)
    decreases |s|
  {
    if |s| > 0 {
      NotContains(s[1..], p, j - 1);
    }
  }

  /** `_parse_kd`: "K-D" with exactly one '-' gives both counts; anything else neither. */
  function ParseKd(kd: Option<string>): (r: (Option<int>, Option<int>))
    ensures r.0.Some? <==> r.1.Some?
    ensures r.0.Some? ==> Truthy(kd) && Count(kd.value, '-') == 1
    ensures r.0.Some? ==> r.0.value >= 0 && r.1.value >= 0
  {
    if !Truthy(kd) then (None, None)
    else
      var parts := Split(kd.value, '-');
      SplitLength(kd.value, '-');
      if |parts| == 2 && PyInt(parts[0]).Some? && PyInt(parts[1]).Some? then
        SplitPiecesClean(kd.value, '-');
        NoMinusNonNegative(parts[0]);
        NoMinusNonNegative(parts[1]);
        (PyInt(parts[0]), PyInt(parts[1]))
      else (None, None)
  }

  /** Writing two counts as "K-D" and parsing gives them back. */
  lemma KdRoundTrip(k: nat, d: nat)
    ensures ParseKd(Some(NatToString(k) + "-" + NatToString(d))) == (Some(k), Some(d))
  {
    var a := NatToString(k);
    var b := NatToString(d);
    assert '-' !in a && '-' !in b by {
      assert forall i :: 0 <= i < |a| ==> IsDigit(a[i]);
      assert forall i :: 0 <= i < |b| ==> IsDigit(b[i]);
    }
    SplitAtFirst(a, '-', b);
    SplitNoSeparator(b, '-');
    assert Split(a + "-" + b, '-') == [a, b];
    PyIntOfDigits(a);
    PyIntOfDigits(b);
    ParseNatToString(k);
    ParseNatToString(d);
  }

  // ---------------------------------------------------------------- teams

  /** `int(score) if score and score.isdigit() else None`. */
  function ScoreOf(score: Option<string>): (r: Option<int>)
    ensures r.Some? ==> r.value >= 0 && Truthy(score) && PyInt(score.value) == r
    ensures r.Some? <==> Truthy(score) && AllDigits(score.value)
  {
    if Truthy(score) && AllDigits(score.value) then
      PyIntOfDigits(score.value);
      Some(ParseNat(score.value))
    else None
  }

  /** `_get_team_info`: the id from the team link, the name or "Unknown", the logo, and the score. */
  function TeamInfoOf(b: TeamBlock): (t: TeamInfo)
    ensures t.name != ""
    ensures t.teamId == TeamId(Text(b.link)) && t.logoUrl == Text(b.logo)
    ensures Text(b.name).Some? ==> t.name == Text(b.name).value
  {
    TextClean(b.name);
    var name := Text(b.name);
    var won := Text(b.scoreWon);
    var score := if Truthy(won) then won else Text(b.scoreLost);
    TeamInfo(TeamId(Text(b.link)), if Truthy(name) then name.value else "Unknown", Text(b.logo), ScoreOf(score))
  }

  /**
   * The score comes from the "won" field when it has text, and only then
   * from the "lost" one: a "won" text that is not a number gives no score
   * even when "lost" holds one.
   */
  lemma TeamScoreSources(b: TeamBlock, n: nat)
    ensures Text(b.scoreWon) == Some(NatToString(n)) ==> TeamInfoOf(b).score == Some(n)
    ensures Text(b.scoreWon) == None && Text(b.scoreLost) == Some(NatToString(n)) ==> TeamInfoOf(b).score == Some(n)
    ensures Text(b.scoreWon).Some? && !AllDigits(Text(b.scoreWon).value) ==> TeamInfoOf(b).score == None
    ensures Text(b.scoreWon) == None && Text(b.scoreLost) == None ==> TeamInfoOf(b).score == None
    ensures Text(b.name) == None ==> TeamInfoOf(b).name == "Unknown"
  {
    ParseNatToString(n);
  }

  /** The match winner and the final score "S1-S2", set only when both scores are known. */
  function WinnerAndScore(t1: TeamInfo, t2: TeamInfo): (r: (Option<Side>, Option<string>))
    ensures r.1.Some? <==> t1.score.Some? && t2.score.Some?
    ensures r.0 == Some(Team1) <==> t1.score.Some? && t2.score.Some? && t1.score.value > t2.score.value
    ensures r.0 == Some(Team2) <==> t1.score.Some? && t2.score.Some? && t2.score.value > t1.score.value
  {
    if t1.score.Some? && t2.score.Some? then
      var a := t1.score.value;
      var b := t2.score.value;
      (if a > b then Some(Team1) else if b > a then Some(Team2) else None, Some(IntToString(a) + "-" + IntToString(b)))
    else (None, None)
  }

  function Other(s: Side): Side {
    if s == Team1 then Team2 else Team1
  }

  /** Swapping the teams swaps the winner. */
  lemma WinnerSymmetric(t1: TeamInfo, t2: TeamInfo)
    ensures WinnerAndScore(t2, t1).0 == (if WinnerAndScore(t1, t2).0.Some? then Some(Other(WinnerAndScore(t1, t2).0.value)) else None)
  {
  }

  /** The final score of two page scores parses back, as a K-D text, into those scores. */
  lemma FinalScoreRoundTrip(t1: TeamInfo, t2: TeamInfo)
    requires t1.score.Some? && t2.score.Some? && t1.score.value >= 0 && t2.score.value >= 0
    ensures ParseKd(WinnerAndScore(t1, t2).1) == (t1.score, t2.score)
  {
    KdRoundTrip(t1.score.value, t2.score.value);
  }

  // ---------------------------------------------------------------- maps

  /** The first run of digits at or after `i`: its start and length. */
  function FirstDigitRun(s: string, i: nat): (r: Option<(nat, nat)>)
    requires i <= |s|
    ensures r.Some? ==> i <= r.value.0 && r.value.1 > 0 && r.value.0 + r.value.1 <= |s|
    ensures r.Some? ==> AllDigits(s[r.value.0..r.value.0 + r.value.1])
    ensures r.Some? ==> forall k :: i <= k < r.value.0 ==> !IsDigit(s[k])
    ensures r.Some? && r.value.0 + r.value.1 < |s| ==> !IsDigit(s[r.value.0 + r.value.1])
    ensures r.None? ==> forall k :: i <= k < |s| ==> !IsDigit(s[k])
    decreases |s| - i
  {
    if i == |s| then None
    else if IsDigit(s[i]) then Some((i, DigitRun(s, i)))
    else FirstDigitRun(s, i + 1)
  }

  /** A map score: the first number in the first text, `re.search(r'(\d+)', ...)`. */
  function MapScore(elems: seq<string>): (r: Option<int>)
    ensures r.Some? ==> elems != [] && r.value >= 0
  {
    if elems == [] then None
    else
      var t := Trim(elems[0]);
      match FirstDigitRun(t, 0)
      case Some(run) => Some(ParseNat(t[run.0..run.0 + run.1]))
      case None => None
  }

  /** A score written as a number, alone or after text without digits, is read back. */
  lemma MapScoreOfNumber(lead: string, n: nat, more: seq<string>)
    requires lead == "" || !IsSpace(lead[0])
    requires forall i :: 0 <= i < |lead| ==> !IsDigit(lead[i])
    ensures MapScore([lead + NatToString(n)] + more) == Some(n)
  {
    ParseNatToString(n);
    MapScoreOfDigits(lead, NatToString(n), more);
  }

  lemma MapScoreOfDigits(lead: string, d: string, more: seq<string>)
    requires lead == "" || !IsSpace(lead[0])
    requires forall i :: 0 <= i < |lead| ==> !IsDigit(lead[i])
    requires d != "" && AllDigits(d)
    ensures MapScore([lead + d] + more) == Some(ParseNat(d))
  {
    NumberAfterLead(lead, d);
    LeadAndDigitsTrimmed(lead, d);
    MapScoreOfRun(lead + d, more, |lead|, d);
  }

  lemma MapScoreOfRun(s: string, more: seq<string>, p: nat, d: string)
    requires Trim(s) == s && FirstDigitRun(s, 0) == Some((p, |d|)) && s[p..p + |d|] == d
    ensures MapScore([s] + more) == Some(ParseNat(d))
  {
    assert ([s] + more)[0] == s;
  }

  /** Text without digits, then digits: the first run is the digits. */
  lemma NumberAfterLead(lead: string, d: string)
    requires lead == "" || !IsSpace(lead[0])
    requires forall i :: 0 <= i < |lead| ==> !IsDigit(lead[i])
    requires d != "" && AllDigits(d)
    ensures FirstDigitRun(lead + d, 0) == Some((|lead|, |d|))
    ensures (lead + d)[|lead|..|lead| + |d|] == d
  {
    var s := lead + d;
    assert s[|lead|..] == d;
    FirstRunAfter(s, |lead|, 0);
  }

  /** Text that starts with no space and ends in a digit is already trimmed. */
  lemma LeadAndDigitsTrimmed(lead: string, d: string)
    requires lead == "" || !IsSpace(lead[0])
    requires d != "" && AllDigits(d)
    ensures Trim(lead + d) == lead + d
  {
    var s := lead + d;
    var last := d[|d| - 1];
    assert IsDigit(last) && s[|s| - 1] == last;
    if lead == "" {
      assert IsDigit(d[0]) && s[0] == d[0];
      TrimOfUnpadded(s, d[0], last);
    } else {
      assert s[0] == lead[0];
      TrimOfUnpadded(s, lead[0], last);
    }
  }

  lemma TrimOfUnpadded(s: string, first: char, last: char)
    requires s != "" && s[0] == first && s[|s| - 1] == last && !IsSpace(first) && !IsSpace(last)
    ensures Trim(s) == s
  {
    TrimRightOfUnpadded(s);
    TrimLeftOfUnpadded(s);
  }

  /** Before a digit string that runs to the end, only non-digits: the run is found whole. */
  lemma {:induction false} FirstRunAfter(s: string, p: nat, i: nat)
    requires i <= p < |s| && AllDigits(s[p..])
    requires forall k :: i <= k < p ==> !IsDigit(s[k])
    ensures FirstDigitRun(s, i) == Some((p, |s| - p))
    decreases p - i
  {
    if i < p {
      FirstRunAfter(s, p, i + 1);
    } else {
      assert IsDigit(s[p]) by { assert s[p..][0] == s[p]; }
      DigitRunToEnd(s, p);
    }
  }

  lemma {:induction false} DigitRunToEnd(s: string, j: nat)
    requires j <= |s| && AllDigits(s[j..])
    ensures DigitRun(s, j) == |s| - j
    decreases |s| - j
  {
    if j < |s| {
      assert s[j] == s[j..][0];
      assert s[j + 1..] == s[j..][1..];
      DigitRunToEnd(s, j + 1);
    }
  }

  /** A half score, `int(trim(elems[0]))`: outer None is the ValueError a non-number raises. */
  function HalfScore(elems: seq<string>): (r: Option<Option<int>>)
    ensures elems == [] ==> r == Some(None)
    ensures elems != [] ==> (r.None? <==> PyInt(Trim(elems[0])).None?)
    ensures elems != [] && r.Some? ==> r.value == PyInt(Trim(elems[0]))
  {
    if elems == [] then Some(None)
    else
      match PyInt(Trim(elems[0]))
      case Some(v) => Some(Some(v))
      case None => None
  }

  function MapWinner(h: MapHolder): (w: Option<Side>)
    ensures w == Some(Team1) <==> h.team1Won
    ensures w == Some(Team2) <==> !h.team1Won && h.team2Won
  {
    if h.team1Won then Some(Team1) else if h.team2Won then Some(Team2) else None
  }

  /** What one map holder adds: nothing (no name, or "TBA"), a map, or a ValueError. */
  datatype MapStep = Skip | Keep(result: MapResult) | Fail

  predicate NamedMap(name: string) {
    name != "" && Trim(name) == name && Lower(name) != "tba"
  }

  /** The loop body of `_get_map_results` for the holder numbered `number`. */
  function MapStepOf(h: MapHolder, number: nat): (r: MapStep)
    ensures r.Skip? <==> h.name == [] || !NamedMap(Trim(h.name[0]))
    ensures r.Keep? ==> r.result.mapNumber == number && NamedMap(r.result.mapName) && r.result.mapName == Trim(h.name[0])
    ensures r.Keep? ==> r.result.winner == MapWinner(h)
  {
    var name := FirstTrimmed(h.name);
    if !Truthy(name) || Lower(name.value) == "tba" then Skip
    else
      var c1 := HalfScore(h.team1Ct);
      var t1 := HalfScore(h.team1T);
      var c2 := HalfScore(h.team2Ct);
      var t2 := HalfScore(h.team2T);
      if c1.None? || t1.None? || c2.None? || t2.None? then Fail
      else
        Keep(MapResult(number, name.value, MapScore(h.team1Score), MapScore(h.team2Score),
                       c1.value, t1.value, c2.value, t2.value, MapWinner(h)))
  }

  /** The step of each holder, numbered from 1. */
  function MapSteps(hs: seq<MapHolder>): (r: seq<MapStep>)
    ensures |r| == |hs|
  {
    seq(|hs|, i requires 0 <= i < |hs| => MapStepOf(hs[i], i + 1))
  }

  /** The maps the steps keep, in order; None from the first failing step on. */
  function Collect(steps: seq<MapStep>): (r: Option<seq<MapResult>>)
    ensures r.Some? ==> |r.value| <= |steps|
  {
    if steps == [] then Some([])
    else
      match Collect(steps[..|steps| - 1])
      case None => None
      case Some(acc) =>
        match steps[|steps| - 1]
        case Skip => Some(acc)
        case Keep(m) => Some(acc + [m])
        case Fail => None
  }

  /** Every kept step carries its own position, counted from 1, as its map number. */
  predicate Numbered(steps: seq<MapStep>) {
    forall i :: 0 <= i < |steps| && steps[i].Keep? ==> steps[i].result.mapNumber == i + 1
  }

  /** Each collected map comes from the step its number names, and the numbers increase. */
  lemma {:induction false} CollectNumbered(steps: seq<MapStep>)
    requires Numbered(steps) && Collect(steps).Some?
    ensures forall k :: 0 <= k < |Collect(steps).value| ==>
      1 <= Collect(steps).value[k].mapNumber <= |steps|
      && steps[Collect(steps).value[k].mapNumber - 1] == Keep(Collect(steps).value[k])
    ensures forall j, k :: 0 <= j < k < |Collect(steps).value| ==>
      Collect(steps).value[j].mapNumber < Collect(steps).value[k].mapNumber
  {
    if steps != [] {
      var init := steps[..|steps| - 1];
      assert Numbered(init) by {
        forall i | 0 <= i < |init| && init[i].Keep? ensures init[i].result.mapNumber == i + 1 {
          assert init[i] == steps[i];
        }
      }
      CollectNumbered(init);
      var acc := Collect(init).value;
      assert forall k :: 0 <= k < |acc| ==> steps[acc[k].mapNumber - 1] == init[acc[k].mapNumber - 1];
    }
  }

  /** The steps fail exactly when one of them fails. */
  lemma {:induction false} CollectFails(steps: seq<MapStep>)
    ensures Collect(steps).None? <==> exists j :: 0 <= j < |steps| && steps[j].Fail?
  {
    if steps != [] {
      var init := steps[..|steps| - 1];
      CollectFails(init);
      if exists j :: 0 <= j < |init| && init[j].Fail? {
        var j :| 0 <= j < |init| && init[j].Fail?;
        assert steps[j] == init[j];
      }
      if exists j :: 0 <= j < |steps| && steps[j].Fail? {
        var j :| 0 <= j < |steps| && steps[j].Fail?;
        if j < |init| {
          assert init[j] == steps[j];
        }
      }
    }
  }

  /** Every kept step's map is collected. */
  lemma {:induction false} CollectComplete(steps: seq<MapStep>, j: nat)
    requires Collect(steps).Some? && j < |steps| && steps[j].Keep?
    ensures steps[j].result in Collect(steps).value
  {
    var init := steps[..|steps| - 1];
    if j < |init| {
      assert init[j] == steps[j];
      CollectComplete(init, j);
    }
  }

  /** Collecting one more step extends the maps by what that step keeps. */
  lemma CollectStep(steps: seq<MapStep>, i: nat)
    requires i < |steps|
    ensures Collect(steps[..i + 1]) ==
      match Collect(steps[..i])
      case None => None
      case Some(acc) =>
        match steps[i]
        case Skip => Some(acc)
        case Keep(m) => Some(acc + [m])
        case Fail => None
  {
    assert steps[..i + 1][..i] == steps[..i];
  }

  /** Once a prefix fails, so does the whole. */
  lemma {:induction false} CollectFailPropagates(steps: seq<MapStep>, i: nat)
    requires i <= |steps| && Collect(steps[..i]).None?
    ensures Collect(steps).None?
    decreases |steps| - i
  {
    if i < |steps| {
      CollectStep(steps, i);
      CollectFailPropagates(steps, i + 1);
    } else {
      assert steps[..i] == steps;
    }
  }

  /**
   * `_get_map_results` over the holders, numbered from 1: the maps with a
   * name other than "TBA", in order; None when a half score is not a number.
   */
  function MapsOf(hs: seq<MapHolder>): (r: Option<seq<MapResult>>)
    ensures r.Some? ==> |r.value| <= |hs|
  {
    Collect(MapSteps(hs))
  }

  lemma MapStepsNumbered(hs: seq<MapHolder>)
    ensures Numbered(MapSteps(hs))
  {
    var steps := MapSteps(hs);
    forall i | 0 <= i < |steps| && steps[i].Keep? ensures steps[i].result.mapNumber == i + 1 {
      assert steps[i] == MapStepOf(hs[i], i + 1);
    }
  }

  /**
   * Each map comes from the holder its number names, numbered from 1, with
   * a name that is not "TBA"; the numbers increase along the list.
   */
  lemma MapsSound(hs: seq<MapHolder>)
    requires MapsOf(hs).Some?
    ensures forall k :: 0 <= k < |MapsOf(hs).value| ==>
      1 <= MapsOf(hs).value[k].mapNumber <= |hs|
      && MapStepOf(hs[MapsOf(hs).value[k].mapNumber - 1], MapsOf(hs).value[k].mapNumber) == Keep(MapsOf(hs).value[k])
      && NamedMap(MapsOf(hs).value[k].mapName)
    ensures forall j, k :: 0 <= j < k < |MapsOf(hs).value| ==> MapsOf(hs).value[j].mapNumber < MapsOf(hs).value[k].mapNumber
  {
    var steps := MapSteps(hs);
    MapStepsNumbered(hs);
    CollectNumbered(steps);
    var ms := MapsOf(hs).value;
    forall k | 0 <= k < |ms|
      ensures MapStepOf(hs[ms[k].mapNumber - 1], ms[k].mapNumber) == Keep(ms[k]) && NamedMap(ms[k].mapName)
    {
      assert steps[ms[k].mapNumber - 1] == Keep(ms[k]);
    }
  }

  /** The maps fail exactly when some named holder has a half score that is not a number. */
  lemma MapsFailure(hs: seq<MapHolder>)
    ensures MapsOf(hs).None? <==> exists j :: 0 <= j < |hs| && MapStepOf(hs[j], j + 1).Fail?
  {
    var steps := MapSteps(hs);
    CollectFails(steps);
    if MapsOf(hs).None? {
      var j :| 0 <= j < |steps| && steps[j].Fail?;
      MapStepsAt(hs, j);
    }
    if exists j :: 0 <= j < |hs| && MapStepOf(hs[j], j + 1).Fail? {
      var j :| 0 <= j < |hs| && MapStepOf(hs[j], j + 1).Fail?;
      MapStepsAt(hs, j);
    }
  }

  /** The step at position `j` is that of holder `j`, numbered `j + 1`. */
  lemma MapStepsAt(hs: seq<MapHolder>, j: nat)
    requires j < |hs|
    ensures MapSteps(hs)[j] == MapStepOf(hs[j], j + 1)
  {
  }

  /** No named holder is lost: each one's map is in the result. */
  lemma MapsComplete(hs: seq<MapHolder>, j: nat)
    requires MapsOf(hs).Some? && j < |hs| && MapStepOf(hs[j], j + 1).Keep?
    ensures MapStepOf(hs[j], j + 1).result in MapsOf(hs).value
  {
    CollectComplete(MapSteps(hs), j);
  }

  /** `_get_map_results`: the loop over the map holders. */
  method GetMapResults(hs: seq<MapHolder>) returns (r: Option<seq<MapResult>>)
    ensures r == MapsOf(hs)
  {
    ghost var steps := MapSteps(hs);
    var maps: seq<MapResult> := [];
    var i := 0;
    while i < |hs|
      invariant 0 <= i <= |hs|
      invariant Collect(steps[..i]) == Some(maps)
    {
      CollectStep(steps, i);
      var step := MapStepOf(hs[i], i + 1);
      assert step == steps[i];
      match step {
        case Skip =>
        case Keep(m) =>
          maps := maps + [m];
        case Fail =>
          CollectFailPropagates(steps, i + 1);
          return None;
      }
      i := i + 1;
    }
    assert steps[..i] == steps;
    r := Some(maps);
  }

  // ---------------------------------------------------------------- player statistics

  /** Kills, deaths and their difference, from the K-D text. */
  function KdFields(kd: Option<string>): (r: (Option<int>, Option<int>, Option<int>))
    ensures (r.0.Some? <==> r.1.Some?) && (r.2.Some? <==> r.0.Some?)
    ensures r.0.Some? ==> r.0.value >= 0 && r.1.value >= 0 && r.2.value == r.0.value - r.1.value
    ensures (r.0, r.1) == ParseKd(kd)
  {
    var p := ParseKd(kd);
    (p.0, p.1, if p.0.Some? && p.1.Some? then Some(p.0.value - p.1.value) else None)
  }

  /** The loop body over one player row; None for a row without a nick. */
  function PlayerOf(row: PlayerRow, teamLink: Option<string>): (r: Option<PlayerMatchStats>)
    ensures r.Some? <==> row.nick != [] && Trim(row.nick[0]) != ""
    ensures r.Some? ==> r.value.playerName == Trim(row.nick[0]) && r.value.playerNick == Some(r.value.playerName)
    ensures r.Some? ==> r.value.teamId == TeamId(teamLink) && r.value.playerId == PlayerId(First(row.link))
  {
    var nick := FirstTrimmed(row.nick);
    if !Truthy(nick) then None
    else
      var kd := KdFields(FirstTrimmed(row.kd));
      var adr := FirstTrimmed(row.adr);
      var kast := FirstTrimmed(row.kast);
      var rating := FirstTrimmed(row.rating);
      var swing := FirstTrimmed(row.swing);
      Some(PlayerMatchStats(
        PlayerId(First(row.link)), nick.value, Some(nick.value), First(row.flag), TeamId(teamLink),
        kd.0, kd.1, kd.2,
        if Truthy(adr) then Some(adr.value) else None,
        if Truthy(kast) then RemoveCharGone(kast.value, '%'); Some(RemoveAll(kast.value, "%")) else None,
        if Truthy(rating) then Some(rating.value) else None,
        if Truthy(swing) then Some(SwingText(swing.value)) else None))
  }

  /**
   * A player's statistics as read: kills and deaths present together, with
   * their difference; no '%' left in KAST, no '%' or '+' in the swing.
   */
  lemma PlayerFields(row: PlayerRow, teamLink: Option<string>)
    requires PlayerOf(row, teamLink).Some?
    ensures var p := PlayerOf(row, teamLink).value;
      (p.kills, p.deaths) == ParseKd(FirstTrimmed(row.kd))
      && (p.kdDiff.Some? <==> p.kills.Some?)
      && (p.kills.Some? ==> p.kills.value >= 0 && p.deaths.value >= 0 && p.kdDiff.value == p.kills.value - p.deaths.value)
      && (p.kast.Some? ==> '%' !in p.kast.value)
      && (p.swing.Some? ==> '%' !in p.swing.value && '+' !in p.swing.value)
  {
    var p := PlayerOf(row, teamLink).value;
    var kd := KdFields(FirstTrimmed(row.kd));
    var kast := FirstTrimmed(row.kast);
    var swing := FirstTrimmed(row.swing);
    assert (p.kills, p.deaths, p.kdDiff) == kd;
    if Truthy(kast) {
      RemoveCharGone(kast.value, '%');
      assert p.kast == Some(RemoveAll(kast.value, "%"));
    }
    if Truthy(swing) {
      assert p.swing == Some(SwingText(swing.value));
    }
  }

  /** What each row gives, in row order. */
  function RowPlayers(rows: seq<PlayerRow>, teamLink: Option<string>): (r: seq<Option<PlayerMatchStats>>)
    ensures |r| == |rows|
  {
    seq(|rows|, i requires 0 <= i < |rows| => PlayerOf(rows[i], teamLink))
  }

  /** The players of a table's rows, in row order. */
  function PlayersOf(rows: seq<PlayerRow>, teamLink: Option<string>): (ps: seq<PlayerMatchStats>)
    ensures |ps| <= |rows|
  {
    Somes(RowPlayers(rows, teamLink))
  }

  /** Every player comes from a row with a nick, and carries the team's id. */
  lemma PlayersSound(rows: seq<PlayerRow>, teamLink: Option<string>, k: nat)
    requires k < |PlayersOf(rows, teamLink)|
    ensures exists j :: 0 <= j < |rows| && PlayerOf(rows[j], teamLink) == Some(PlayersOf(rows, teamLink)[k])
    ensures PlayersOf(rows, teamLink)[k].teamId == TeamId(teamLink)
  {
    var xs := RowPlayers(rows, teamLink);
    SomesSound(xs, k);
    var j :| 0 <= j < |xs| && xs[j] == Some(Somes(xs)[k]);
    assert PlayerOf(rows[j], teamLink) == xs[j];
  }

  /** Every row with a nick gives a player. */
  lemma PlayersComplete(rows: seq<PlayerRow>, teamLink: Option<string>, j: nat)
    requires j < |rows| && PlayerOf(rows[j], teamLink).Some?
    ensures PlayerOf(rows[j], teamLink).value in PlayersOf(rows, teamLink)
  {
    var xs := RowPlayers(rows, teamLink);
    assert xs[j] == PlayerOf(rows[j], teamLink);
    SomesComplete(xs, j);
  }

  /** The inner loop over the player rows of one table. */
  method GetPlayers(rows: seq<PlayerRow>, teamLink: Option<string>) returns (ps: seq<PlayerMatchStats>)
    ensures ps == PlayersOf(rows, teamLink)
  {
    ghost var xs := RowPlayers(rows, teamLink);
    ps := [];
    var i := 0;
    while i < |rows|
      invariant 0 <= i <= |rows|
      invariant ps == Somes(xs[..i])
    {
      SomesStep(xs, i);
      var p := PlayerOf(rows[i], teamLink);
      assert p == xs[i];
      if p.Some? {
        ps := ps + [p.value];
      }
      i := i + 1;
    }
    assert xs[..i] == xs;
  }

  /** One table's team statistics; None for a table without a header row. */
  function TeamStatsOf(table: StatsTable): (r: Option<TeamMatchStats>)
    ensures r.Some? <==> table.header != []
    ensures r.Some? ==> forall k :: 0 <= k < |r.value.players| ==> r.value.players[k].teamId == r.value.teamId
    ensures r.Some? && table.header[0].teamName == [] ==> r.value.teamName == "Unknown"
  {
    if table.header == [] then None
    else
      var h := table.header[0];
      var name := FirstTrimmed(h.teamName);
      var link := First(h.teamLink);
      var players := PlayersOf(table.rows, link);
      assert forall k :: 0 <= k < |players| ==> players[k].teamId == TeamId(link) by {
        forall k | 0 <= k < |players| ensures players[k].teamId == TeamId(link) {
          PlayersSound(table.rows, link, k);
        }
      }
      Some(TeamMatchStats(TeamId(link), if name.Some? then name.value else "Unknown", First(h.teamLogo), players))
  }

  /** What each table gives, in order. */
  function TableStats(tables: seq<StatsTable>): (r: seq<Option<TeamMatchStats>>)
    ensures |r| == |tables|
  {
    seq(|tables|, i requires 0 <= i < |tables| => TeamStatsOf(tables[i]))
  }

  /** The team statistics of the given tables, skipping those without a header. */
  function StatsList(tables: seq<StatsTable>): (ts: seq<TeamMatchStats>)
    ensures |ts| <= |tables|
  {
    Somes(TableStats(tables))
  }

  /** At most the first two tables count. */
  function FirstTwo<T>(xs: seq<T>): (r: seq<T>)
    ensures |r| <= 2 && |r| <= |xs| && r == xs[..|r|]
    ensures |xs| >= 2 ==> |r| == 2
    ensures |xs| < 2 ==> r == xs
  {
    if |xs| > 2 then xs[..2] else xs
  }

  /** `_get_player_stats`: the first and second team statistics found in the first two tables. */
  function PlayerStatsOf(tables: seq<StatsTable>): (r: (Option<TeamMatchStats>, Option<TeamMatchStats>))
    ensures r.1.Some? ==> r.0.Some?
  {
    var ts := StatsList(FirstTwo(tables));
    (if |ts| > 0 then Some(ts[0]) else None, if |ts| > 1 then Some(ts[1]) else None)
  }

  /**
   * Which table each side comes from: a headerless first table lets the
   * second stand in as team 1, and the third table and later are never read.
   */
  lemma PlayerStatsSources(tables: seq<StatsTable>)
    ensures |tables| >= 1 && tables[0].header != [] ==> PlayerStatsOf(tables).0 == TeamStatsOf(tables[0])
    ensures |tables| >= 2 && tables[0].header == [] ==> PlayerStatsOf(tables) == (TeamStatsOf(tables[1]), None)
    ensures PlayerStatsOf(tables).1.Some? <==> |tables| >= 2 && tables[0].header != [] && tables[1].header != []
    ensures PlayerStatsOf(tables).1.Some? ==> PlayerStatsOf(tables).1 == TeamStatsOf(tables[1])
    ensures |tables| == 0 ==> PlayerStatsOf(tables) == (None, None)
  {
    var f := FirstTwo(tables);
    var xs := TableStats(f);
    if |f| == 1 {
      SomesOfOne(xs);
    } else if |f| == 2 {
      SomesOfTwo(xs);
      assert xs[0] == TeamStatsOf(tables[0]) && xs[1] == TeamStatsOf(tables[1]);
    }
  }

  /** The value of a single optional element, if any. */
  lemma SomesOfOne<T>(xs: seq<Option<T>>)
    requires |xs| == 1
    ensures Somes(xs) == if xs[0].Some? then [xs[0].value] else []
  {
    assert xs[..0] == [];
  }

  /** The values of two optional elements, in order. */
  lemma SomesOfTwo<T>(xs: seq<Option<T>>)
    requires |xs| == 2
    ensures Somes(xs) == (if xs[0].Some? then [xs[0].value] else []) + (if xs[1].Some? then [xs[1].value] else [])
  {
    SomesOfOne(xs[..1]);
  }

  /** The team statistics of a table with a header row, field by field. */
  lemma TeamStatsOfHeader(table: StatsTable)
    requires table.header != []
    ensures var h := table.header[0];
      var name := FirstTrimmed(h.teamName);
      TeamStatsOf(table) == Some(TeamMatchStats(TeamId(First(h.teamLink)), if name.Some? then name.value else "Unknown",
                                                First(h.teamLogo), PlayersOf(table.rows, First(h.teamLink))))
  {
  }

  /** `_get_player_stats`: the loop over the first two tables. */
  method GetPlayerStats(tables: seq<StatsTable>) returns (team1: Option<TeamMatchStats>, team2: Option<TeamMatchStats>)
    ensures (team1, team2) == PlayerStatsOf(tables)
  {
    var head := FirstTwo(tables);
    ghost var xs := TableStats(head);
    var ts: seq<TeamMatchStats> := [];
    var i := 0;
    while i < |head|
      invariant 0 <= i <= |head|
      invariant ts == Somes(xs[..i])
    {
      SomesStep(xs, i);
      var table := head[i];
      assert xs[i] == TeamStatsOf(table);
      if table.header != [] {
        var h := table.header[0];
        var name := FirstTrimmed(h.teamName);
        var link := First(h.teamLink);
        var players := GetPlayers(table.rows, link);
        var t := TeamMatchStats(TeamId(link), if name.Some? then name.value else "Unknown", First(h.teamLogo), players);
        TeamStatsOfHeader(table);
        assert Somes(xs[..i + 1]) == ts + [t];
        ts := ts + [t];
      } else {
        assert Somes(xs[..i + 1]) == ts;
      }
      i := i + 1;
    }
    assert xs[..i] == xs;
    assert ts == StatsList(head);
    team1 := if |ts| > 0 then Some(ts[0]) else None;
    team2 := if |ts| > 1 then Some(ts[1]) else None;
  }

  // ---------------------------------------------------------------- the whole page

  /** `int(time_unix) if time_unix else None`; outer None is the ValueError. */
  function TimeUnix(t: Option<string>): (r: Option<Option<int>>)
    ensures !Truthy(t) ==> r == Some(None)
    ensures Truthy(t) ==> (r.None? <==> PyInt(t.value).None?)
    ensures Truthy(t) && r.Some? ==> r.value == PyInt(t.value)
  {
    if !Truthy(t) then Some(None)
    else
      match PyInt(t.value)
      case Some(v) => Some(Some(v))
      case None => None
  }

  /** `get_match_details`: the record of a match page, or None where the source raises ValueError. */
  function MatchDetailsOf(id: string, page: MatchPage): (r: Option<MatchDetails>)
    ensures r.None? <==> MapsOf(page.mapHolders).None? || TimeUnix(Text(page.timeUnix)).None?
    ensures r.Some? ==> r.value.matchId == id && r.value.matchUrl == Some(MatchUrl(id, page.canonical))
    ensures r.Some? ==> r.value.team1 == TeamInfoOf(page.team1) && r.value.team2 == TeamInfoOf(page.team2)
    ensures r.Some? ==> (r.value.winner, r.value.finalScore) == WinnerAndScore(r.value.team1, r.value.team2)
    ensures r.Some? ==> r.value.maps == MapsOf(page.mapHolders).value
    ensures r.Some? ==> (r.value.team1Stats, r.value.team2Stats) == PlayerStatsOf(page.statsTables)
    ensures r.Some? ==> r.value.eventId == EventId(Text(page.eventLink))
    ensures r.Some? ==> (r.value.eventUrl.Some? <==> Text(page.eventLink).Some?)
    ensures r.Some? && r.value.eventUrl.Some? ==> r.value.eventUrl.value == SiteRoot + Text(page.eventLink).value
    ensures r.Some? ==> r.value.eventName == Text(page.eventName) && r.value.date == Text(page.date)
    ensures r.Some? ==> r.value.timeUnix == TimeUnix(Text(page.timeUnix)).value
    ensures r.Some? ==> r.value.matchFormat == Text(page.matchFormat)
    ensures r.Some? ==> r.value.formatType == FormatType(Text(page.matchFormat))
  {
    TextClean(page.eventLink);
    var t1 := TeamInfoOf(page.team1);
    var t2 := TeamInfoOf(page.team2);
    var eventLink := Text(page.eventLink);
    var format := Text(page.matchFormat);
    var outcome := WinnerAndScore(t1, t2);
    var stats := PlayerStatsOf(page.statsTables);
    match MapsOf(page.mapHolders)
    case None => None
    case Some(maps) =>
      match TimeUnix(Text(page.timeUnix))
      case None => None
      case Some(time) =>
        Some(MatchDetails(
          id, Some(MatchUrl(id, page.canonical)), t1, t2,
          EventId(eventLink), Text(page.eventName),
          if Truthy(eventLink) then Some(SiteRoot + eventLink.value) else None,
          Text(page.date), time, format, FormatType(format),
          outcome.0, outcome.1, maps, stats.0, stats.1))
  }

  /** A match with both scores known has a final score that reads back as those scores. */
  lemma FinalScoreOfPage(id: string, page: MatchPage)
    requires MatchDetailsOf(id, page).Some?
    requires MatchDetailsOf(id, page).value.finalScore.Some?
    ensures var m := MatchDetailsOf(id, page).value;
      ParseKd(m.finalScore) == (m.team1.score, m.team2.score)
  {
    var m := MatchDetailsOf(id, page).value;
    FinalScoreRoundTrip(m.team1, m.team2);
  }

  /** `get_match_details`: builds the record, running the map and statistics loops. */
  method GetMatchDetails(id: string, page: MatchPage) returns (r: Option<MatchDetails>)
    ensures r == MatchDetailsOf(id, page)
  {
    var t1 := TeamInfoOf(page.team1);
    var t2 := TeamInfoOf(page.team2);
    var eventLink := Text(page.eventLink);
    var format := Text(page.matchFormat);
    var maps := GetMapResults(page.mapHolders);
    var outcome := WinnerAndScore(t1, t2);
    var stats1, stats2 := GetPlayerStats(page.statsTables);
    var time := TimeUnix(Text(page.timeUnix));
    if maps.None? || time.None? {
      return None;
    }
    r := Some(MatchDetails(
      id, Some(MatchUrl(id, page.canonical)), t1, t2,
      EventId(eventLink), Text(page.eventName),
      if Truthy(eventLink) then Some(SiteRoot + eventLink.value) else None,
      Text(page.date), time.value, format, FormatType(format),
      outcome.0, outcome.1, maps.value, stats1, stats2));
  }
}
