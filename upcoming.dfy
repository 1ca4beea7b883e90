/**
 * The upcoming-matches and lineup scrapers (`HLTVUpcomingMatches` and
 * `HLTVMatchLineup`, `app/services/matches/upcoming.py`).  A page is given
 * as the texts and attribute values its queries return.
 */
module Upcoming {
  import opened Wrappers
  import opened Strings
  import opened Links
  import Schema
  import Details
  import Results

  // ---------------------------------------------------------------- the upcoming list

  datatype UpcomingMatch = UpcomingMatch(matchId: string, matchUrl: string)

  datatype UpcomingResponse = UpcomingResponse(matches: seq<UpcomingMatch>, totalCount: int)

  /** The match numbers held by some of the links. */
  function Ids(links: seq<string>): set<string> {
    if |links| == 0 then {}
    else
      var id := MatchId(Some(links[|links| - 1]));
      Ids(links[..|links| - 1]) + (if id.Some? then {id.value} else {})
  }

  /** The entry of link `j` when no earlier link holds its match number; None otherwise. */
  function FirstEntry(links: seq<string>, j: nat): (r: Option<UpcomingMatch>)
    requires j < |links|
  {
    var id := MatchId(Some(links[j]));
    if id.Some? && id.value !in Ids(links[..j]) then Some(UpcomingMatch(id.value, SiteRoot + links[j])) else None
  }

  function FirstEntries(links: seq<string>): (r: seq<Option<UpcomingMatch>>)
    ensures |r| == |links|
  {
    seq(|links|, j requires 0 <= j < |links| => FirstEntry(links, j))
  }

  /**
   * One entry per match number, for the first link that holds it, in the
   * order of the links: what the loop of `get_upcoming` gathers before the
   * limit cuts it short.
   */
  function Firsts(links: seq<string>): (r: seq<UpcomingMatch>)
    ensures |r| <= |links|
  {
    Somes(FirstEntries(links))
  }

  function MatchNumbers(ms: seq<UpcomingMatch>): (r: seq<string>)
    ensures |r| == |ms| && forall k :: 0 <= k < |ms| ==> r[k] == ms[k].matchId
  {
    seq(|ms|, k requires 0 <= k < |ms| => ms[k].matchId)
  }

  /** A link's match number is among those of the links. */
  lemma {:induction false} IdsHold(links: seq<string>, j: nat)
    requires j < |links| && MatchId(Some(links[j])).Some?
    ensures MatchId(Some(links[j])).value in Ids(links)
  {
    var init := links[..|links| - 1];
    if j < |init| {
      assert init[j] == links[j];
      IdsHold(init, j);
    }
  }

  /** Every number among the links' is held by a first link, one whose predecessors do not hold it. */
  lemma {:induction false} IdsFirstHolder(links: seq<string>, d: string)
    requires d in Ids(links)
    ensures exists j :: 0 <= j < |links| && MatchId(Some(links[j])) == Some(d) && d !in Ids(links[..j])
  {
    var init := links[..|links| - 1];
    if d in Ids(init) {
      IdsFirstHolder(init, d);
      var j :| 0 <= j < |init| && MatchId(Some(init[j])) == Some(d) && d !in Ids(init[..j]);
      PrefixOfPrefix(links, |links| - 1, j);
    } else {
      var j := |links| - 1;
      assert links[..j] == init;
    }
  }

  lemma PrefixOfPrefix(links: seq<string>, n: nat, j: nat)
    requires j < n <= |links|
    ensures links[..n][..j] == links[..j] && links[..n][j] == links[j]
  {
  }

  /** No match number is listed twice. */
  lemma FirstsDistinct(links: seq<string>)
    ensures forall p, q :: 0 <= p < q < |Firsts(links)| ==> Firsts(links)[p].matchId != Firsts(links)[q].matchId
  {
    var xs := FirstEntries(links);
    forall i, j | 0 <= i < j < |xs| && xs[i].Some? && xs[j].Some?
      ensures xs[i].value.matchId != xs[j].value.matchId
    {
      assert xs[i] == FirstEntry(links, i) && xs[j] == FirstEntry(links, j);
      var pre := links[..j];
      assert pre[i] == links[i];
      IdsHold(pre, i);
    }
    DistinctOfEntries(xs);
    assert Firsts(links) == Somes(xs);
  }

  /** Entries whose numbers differ pairwise collect to a list without a repeated number. */
  lemma {:induction false} DistinctOfEntries(xs: seq<Option<UpcomingMatch>>)
    requires forall i, j :: 0 <= i < j < |xs| && xs[i].Some? && xs[j].Some? ==> xs[i].value.matchId != xs[j].value.matchId
    ensures forall p, q :: 0 <= p < q < |Somes(xs)| ==> Somes(xs)[p].matchId != Somes(xs)[q].matchId
  {
    if xs != [] {
      var init := xs[..|xs| - 1];
      assert forall i :: 0 <= i < |init| ==> init[i] == xs[i];
      DistinctOfEntries(init);
      var f := Somes(init);
      var last := xs[|xs| - 1];
      if last.Some? {
        forall p | 0 <= p < |f|
          ensures f[p].matchId != last.value.matchId
        {
          SomesSound(init, p);
          var i :| 0 <= i < |init| && init[i] == Some(f[p]);
          assert xs[i] == Some(f[p]);
        }
        var r := f + [last.value];
        assert Somes(xs) == r;
        assert forall p :: 0 <= p < |f| ==> r[p] == f[p];
        assert r[|f|] == last.value;
      } else {
        assert Somes(xs) == f;
      }
    }
  }

  /** Every entry is the first link holding its match number, made absolute. */
  lemma FirstsSound(links: seq<string>, k: nat)
    requires k < |Firsts(links)|
    ensures exists j :: (0 <= j < |links|
      && MatchId(Some(links[j])) == Some(Firsts(links)[k].matchId)
      && Firsts(links)[k].matchUrl == SiteRoot + links[j]
      && Firsts(links)[k].matchId !in Ids(links[..j]))
  {
    SomesSound(FirstEntries(links), k);
  }

  /** Every match number some link holds is listed. */
  lemma FirstsComplete(links: seq<string>, j: nat)
    requires j < |links| && MatchId(Some(links[j])).Some?
    ensures MatchId(Some(links[j])).value in MatchNumbers(Firsts(links))
  {
    var d := MatchId(Some(links[j])).value;
    IdsHold(links, j);
    IdsFirstHolder(links, d);
    var i :| 0 <= i < |links| && MatchId(Some(links[i])) == Some(d) && d !in Ids(links[..i]);
    var xs := FirstEntries(links);
    assert xs[i] == FirstEntry(links, i);
    SomesComplete(xs, i);
    var f := Firsts(links);
    var k :| 0 <= k < |f| && f[k] == xs[i].value;
    assert MatchNumbers(f)[k] == d;
  }

  /**
   * Entries come in first-occurrence order: of two links that are the first
   * to hold their numbers, the earlier one's entry is listed first.
   */
  lemma FirstsOrder(links: seq<string>, i: nat, j: nat)
    requires i < j < |links|
    requires MatchId(Some(links[i])).Some? && MatchId(Some(links[i])).value !in Ids(links[..i])
    requires MatchId(Some(links[j])).Some? && MatchId(Some(links[j])).value !in Ids(links[..j])
    ensures exists p, q :: (0 <= p < q < |Firsts(links)|
      && Firsts(links)[p] == UpcomingMatch(MatchId(Some(links[i])).value, SiteRoot + links[i])
      && Firsts(links)[q] == UpcomingMatch(MatchId(Some(links[j])).value, SiteRoot + links[j]))
  {
    var xs := FirstEntries(links);
    var ei := UpcomingMatch(MatchId(Some(links[i])).value, SiteRoot + links[i]);
    var ej := UpcomingMatch(MatchId(Some(links[j])).value, SiteRoot + links[j]);
    assert xs[i] == FirstEntry(links, i) == Some(ei);
    assert xs[j] == FirstEntry(links, j) == Some(ej);
    SomesOrder(xs, i, j);
    var f := Somes(xs);
    var p, q :| 0 <= p < q < |f| && f[p] == ei && f[q] == ej;
    assert Firsts(links) == f;
  }

  /** How many entries the loop can gather: it compares the count with the limit after each append. */
  function Cap(limit: int): nat {
    if limit < 1 then 1 else limit
  }

  /** `get_upcoming(limit)`: the first entries, at most the limit, with their count. */
  function UpcomingOf(links: seq<string>, limit: int): (r: UpcomingResponse)
    ensures r.totalCount == |r.matches|
    ensures r.matches <= Firsts(links)
    ensures |r.matches| == if |Firsts(links)| < Cap(limit) then |Firsts(links)| else Cap(limit)
  {
    var f := Firsts(links);
    var ms := if |f| <= Cap(limit) then f else f[..Cap(limit)];
    UpcomingResponse(ms, |ms|)
  }

  /** With a positive limit, no more than `limit` matches are returned, all distinct. */
  lemma UpcomingBounded(links: seq<string>, limit: int)
    requires limit >= 1
    ensures var ms := UpcomingOf(links, limit).matches;
      |ms| <= limit && forall p, q :: 0 <= p < q < |ms| ==> ms[p].matchId != ms[q].matchId
  {
    FirstsDistinct(links);
    var ms := UpcomingOf(links, limit).matches;
    var f := Firsts(links);
    assert forall p :: 0 <= p < |ms| ==> ms[p] == f[p];
  }

  /** Fewer matches than the limit means none was left out. */
  lemma UpcomingComplete(links: seq<string>, limit: int, j: nat)
    requires j < |links| && MatchId(Some(links[j])).Some?
    requires |UpcomingOf(links, limit).matches| < limit
    ensures MatchId(Some(links[j])).value in MatchNumbers(UpcomingOf(links, limit).matches)
  {
    FirstsComplete(links, j);
  }

  /** One more link adds its number to those seen, and its entry if it is the first to hold it. */
  lemma UpcomingStep(links: seq<string>, i: nat)
    requires i < |links|
    ensures var id := MatchId(Some(links[i]));
      Ids(links[..i + 1]) == Ids(links[..i]) + (if id.Some? then {id.value} else {})
    ensures var id := MatchId(Some(links[i]));
      Somes(FirstEntries(links)[..i + 1]) == Somes(FirstEntries(links)[..i])
        + (if id.Some? && id.value !in Ids(links[..i]) then [UpcomingMatch(id.value, SiteRoot + links[i])] else [])
  {
    var xs := FirstEntries(links);
    SomesStep(xs, i);
    assert xs[i] == FirstEntry(links, i);
    assert links[..i + 1][..i] == links[..i];
  }

  /** Once the entries of the first `i` links reach the cap, they are the answer. */
  lemma UpcomingStops(links: seq<string>, limit: int, i: nat)
    requires i <= |links| && |Somes(FirstEntries(links)[..i])| == Cap(limit)
    ensures UpcomingOf(links, limit) == UpcomingResponse(Somes(FirstEntries(links)[..i]), Cap(limit))
  {
    SomesGrows(FirstEntries(links), i);
  }

  /** `get_upcoming`: the loop over the match links with its set of seen numbers. */
  method GetUpcoming(links: seq<string>, limit: int) returns (r: UpcomingResponse)
    ensures r == UpcomingOf(links, limit)
  {
    ghost var xs := FirstEntries(links);
    var matches: seq<UpcomingMatch> := [];
    var seen: set<string> := {};
    var i := 0;
    while i < |links|
      invariant 0 <= i <= |links|
      invariant matches == Somes(xs[..i]) && seen == Ids(links[..i])
      invariant |matches| < Cap(limit)
    {
      UpcomingStep(links, i);
      var link := links[i];
      var id := MatchId(Some(link));
      if id.None? || id.value in seen {
        assert Somes(xs[..i + 1]) == matches;
        i := i + 1;
        continue;
      }
      assert Somes(xs[..i + 1]) == matches + [UpcomingMatch(id.value, SiteRoot + link)];
      seen := seen + {id.value};
      matches := matches + [UpcomingMatch(id.value, SiteRoot + link)];
      i := i + 1;
      if |matches| >= limit {
        assert |matches| == Cap(limit);
        UpcomingStops(links, limit, i);
        r := UpcomingResponse(matches, |matches|);
        return;
      }
    }
    assert xs[..i] == xs;
    assert matches == Firsts(links);
    r := UpcomingResponse(matches, |matches|);
  }

  // ---------------------------------------------------------------- lineups

  datatype LineupPlayer = LineupPlayer(playerId: Option<string>, playerName: string, country: Option<string>)

  datatype TeamLineup = TeamLineup(teamId: Option<string>, teamName: string, teamLogo: Option<string>, players: seq<LineupPlayer>)

  /** The texts of a team's header queries: name, links and logo sources. */
  datatype TeamHeader = TeamHeader(names: seq<string>, links: seq<string>, logos: seq<string>)

  /** A standard lineup box: the name texts, link targets and flag titles of its player cells. */
  datatype LineupBox = LineupBox(names: seq<string>, links: seq<string>, flags: seq<string>)

  /** A row of a totalstats table other than its header row. */
  datatype StatsRow = StatsRow(links: seq<string>, nicks: seq<string>, flags: seq<string>)

  /** A player link of a lineups-compare panel: its href ("" when absent), inner div texts and flag titles. */
  datatype PanelLink = PanelLink(href: string, divTexts: seq<string>, flags: seq<string>)

  /**
   * A match page as the lineup scraper reads it; `countdown` and
   * `liveIndicator` say whether those elements occur at all.
   */
  datatype LineupPage = LineupPage(
    canonical: seq<string>,
    header1: TeamHeader, header2: TeamHeader,
    boxes: seq<LineupBox>,
    tables: seq<seq<StatsRow>>,
    leftPanels: seq<seq<PanelLink>>, rightPanels: seq<seq<PanelLink>>,
    eventNames: seq<string>, times: seq<string>, dates: seq<string>, formats: seq<string>,
    countdown: bool, liveIndicator: bool)

  /** The position of a team's box or table; the source's `team_num - 1`. */
  function Index(side: Schema.Side): nat {
    match side
    case Team1 => 0
    case Team2 => 1
  }

  /** `trim(x) if x else None` on an optional attribute value. */
  function TrimmedOrNone(x: Option<string>): Option<string> {
    if Truthy(x) then Some(Trim(x.value)) else None
  }

  /** The first text, trimmed, or None when the query found nothing. */
  function FirstTrimmed(xs: seq<string>): Option<string> {
    if xs == [] then None else Some(Trim(xs[0]))
  }

  function At(xs: seq<string>, i: nat): Option<string> {
    if i < |xs| then Some(xs[i]) else None
  }

  // strategy 1: the standard lineup box

  function BoxPlayer(b: LineupBox, i: nat): LineupPlayer
    requires i < |b.names|
  {
    LineupPlayer(PlayerId(At(b.links, i)), Trim(b.names[i]), TrimmedOrNone(At(b.flags, i)))
  }

  /** One player per name, in order. */
  function BoxPlayers(b: LineupBox): (r: seq<LineupPlayer>)
    ensures |r| == |b.names|
  {
    seq(|b.names|, i requires 0 <= i < |b.names| => BoxPlayer(b, i))
  }

  /**
   * The i-th name goes with the i-th link and flag; a player past the end of
   * the link list has no id, one past the end of the flag list no country.
   */
  lemma BoxPairing(b: LineupBox, i: nat)
    requires i < |b.names|
    ensures BoxPlayers(b)[i].playerName == Trim(b.names[i])
    ensures i < |b.links| ==> BoxPlayers(b)[i].playerId == PlayerId(Some(b.links[i]))
    ensures i >= |b.links| ==> BoxPlayers(b)[i].playerId.None?
    ensures BoxPlayers(b)[i].country.Some? <==> i < |b.flags| && b.flags[i] != ""
    ensures BoxPlayers(b)[i].country.Some? ==> BoxPlayers(b)[i].country.value == Trim(b.flags[i])
  {
  }

  function BoxStrategy(page: LineupPage, side: Schema.Side): (r: seq<LineupPlayer>)
  {
    if Index(side) < |page.boxes| then BoxPlayers(page.boxes[Index(side)]) else []
  }

  method GetBoxPlayers(b: LineupBox) returns (ps: seq<LineupPlayer>)
    ensures ps == BoxPlayers(b)
  {
    ps := [];
    var i := 0;
    while i < |b.names|
      invariant 0 <= i <= |b.names|
      invariant ps == BoxPlayers(b)[..i]
    {
      var link := if i < |b.links| then Some(b.links[i]) else None;
      var flag := if i < |b.flags| then Some(b.flags[i]) else None;
      ps := ps + [LineupPlayer(PlayerId(link), Trim(b.names[i]), if Truthy(flag) then Some(Trim(flag.value)) else None)];
      assert BoxPlayers(b)[..i + 1] == BoxPlayers(b)[..i] + [BoxPlayer(b, i)];
      i := i + 1;
    }
    assert BoxPlayers(b)[..i] == BoxPlayers(b);
  }

  // strategy 2: the totalstats table

  /** A row's player, or None for a row without a nick. */
  function RowPlayer(row: StatsRow): (r: Option<LineupPlayer>)
  {
    if row.nicks == [] then None
    else Some(LineupPlayer(PlayerId(At(row.links, 0)), Trim(row.nicks[0]), FirstTrimmed(row.flags)))
  }

  function RowEntries(rows: seq<StatsRow>): (r: seq<Option<LineupPlayer>>)
    ensures |r| == |rows|
  {
    seq(|rows|, i requires 0 <= i < |rows| => RowPlayer(rows[i]))
  }

  function TablePlayers(rows: seq<StatsRow>): (r: seq<LineupPlayer>)
    ensures |r| <= |rows|
  {
    Somes(RowEntries(rows))
  }

  /** Every player of the table comes from a row with a nick, named by its first nick text. */
  lemma TableSound(rows: seq<StatsRow>, k: nat)
    requires k < |TablePlayers(rows)|
    ensures exists j :: (0 <= j < |rows| && rows[j].nicks != []
      && TablePlayers(rows)[k].playerName == Trim(rows[j].nicks[0])
      && TablePlayers(rows)[k].playerId == PlayerId(At(rows[j].links, 0)))
  {
    SomesSound(RowEntries(rows), k);
  }

  /** Every row with a nick yields a player; rows without one are skipped. */
  lemma TableComplete(rows: seq<StatsRow>, j: nat)
    requires j < |rows| && rows[j].nicks != []
    ensures RowPlayer(rows[j]).Some? && RowPlayer(rows[j]).value in TablePlayers(rows)
  {
    assert RowEntries(rows)[j] == RowPlayer(rows[j]);
    SomesComplete(RowEntries(rows), j);
  }

  function TableStrategy(page: LineupPage, side: Schema.Side): (r: seq<LineupPlayer>)
  {
    if Index(side) < |page.tables| then TablePlayers(page.tables[Index(side)]) else []
  }

  method GetTablePlayers(rows: seq<StatsRow>) returns (ps: seq<LineupPlayer>)
    ensures ps == TablePlayers(rows)
  {
    ghost var xs := RowEntries(rows);
    ps := [];
    var i := 0;
    while i < |rows|
      invariant 0 <= i <= |rows|
      invariant ps == Somes(xs[..i])
    {
      SomesStep(xs, i);
      var row := rows[i];
      assert xs[i] == RowPlayer(row);
      if row.nicks != [] {
        var link := if row.links != [] then Some(row.links[0]) else None;
        ps := ps + [LineupPlayer(PlayerId(link), Trim(row.nicks[0]), if row.flags != [] then Some(Trim(row.flags[0])) else None)];
      }
      i := i + 1;
    }
    assert xs[..i] == xs;
  }

  // strategy 3: the lineups-compare panel

  /** The name read from a player link: its last path segment, hyphens as spaces, title-cased. */
  function SlugName(href: string): string {
    var parts := Split(href, '/');
    Title(ReplaceChar(parts[|parts| - 1], '-', ' '))
  }

  /** A link ending in "/<slug>" names its player after the slug. */
  lemma SlugNameOfPath(path: string, slug: string)
    requires '/' !in slug
    ensures SlugName(path + "/" + slug) == Title(ReplaceChar(slug, '-', ' '))
    ensures '-' !in SlugName(path + "/" + slug)
  {
    SplitLastPiece(path, '/', slug);
    var t := ReplaceChar(slug, '-', ' ');
    TitleChars(t);
    forall i | 0 <= i < |t|
      ensures Title(t)[i] != '-'
    {
      var c := t[i];
      assert c != '-';
      assert Title(t)[i] == LowerChar(c) || Title(t)[i] == UpperChar(c);
      assert LowerChar(c) != '-';
      assert UpperChar(c) != '-';
    }
  }

  /** The name a panel link gives: its inner text when it has one, else the slug of a non-empty href. */
  function PanelName(p: PanelLink): (name: Option<string>)
    ensures p.divTexts != [] ==> name == Some(Trim(p.divTexts[0]))
    ensures p.divTexts == [] ==> (name.Some? <==> p.href != "")
  {
    if p.divTexts != [] then Some(Trim(p.divTexts[0]))
    else if p.href != "" then Some(SlugName(p.href))
    else None
  }

  /** A panel link's player, or None when it gives no name or an empty one. */
  function PanelPlayer(p: PanelLink): (r: Option<LineupPlayer>)
    ensures r.Some? <==> Truthy(PanelName(p))
    ensures r.Some? ==> r.value.playerName == PanelName(p).value && r.value.playerId == PlayerId(Some(p.href))
  {
    var name := PanelName(p);
    if Truthy(name) then Some(LineupPlayer(PlayerId(Some(p.href)), name.value, FirstTrimmed(p.flags))) else None
  }

  function PanelEntries(links: seq<PanelLink>): (r: seq<Option<LineupPlayer>>)
    ensures |r| == |links|
  {
    seq(|links|, i requires 0 <= i < |links| => PanelPlayer(links[i]))
  }

  function PanelPlayers(links: seq<PanelLink>): (r: seq<LineupPlayer>)
    ensures |r| <= |links|
  {
    Somes(PanelEntries(links))
  }

  /** Every player of the panel has a non-empty name taken from one of its links. */
  lemma PanelSound(links: seq<PanelLink>, k: nat)
    requires k < |PanelPlayers(links)|
    ensures PanelPlayers(links)[k].playerName != ""
    ensures exists j :: 0 <= j < |links| && PanelName(links[j]) == Some(PanelPlayers(links)[k].playerName)
  {
    SomesSound(PanelEntries(links), k);
  }

  /** Every link that gives a non-empty name yields a player. */
  lemma PanelComplete(links: seq<PanelLink>, j: nat)
    requires j < |links| && Truthy(PanelName(links[j]))
    ensures PanelPlayer(links[j]).Some? && PanelPlayer(links[j]).value in PanelPlayers(links)
  {
    assert PanelEntries(links)[j] == PanelPlayer(links[j]);
    SomesComplete(PanelEntries(links), j);
  }

  function PanelStrategy(page: LineupPage, side: Schema.Side): (r: seq<LineupPlayer>)
  {
    var panels := if side.Team1? then page.leftPanels else page.rightPanels;
    if panels != [] then PanelPlayers(panels[0]) else []
  }

  method GetPanelPlayers(links: seq<PanelLink>) returns (ps: seq<LineupPlayer>)
    ensures ps == PanelPlayers(links)
  {
    ghost var xs := PanelEntries(links);
    ps := [];
    var i := 0;
    while i < |links|
      invariant 0 <= i <= |links|
      invariant ps == Somes(xs[..i])
    {
      SomesStep(xs, i);
      var p := links[i];
      assert xs[i] == PanelPlayer(p);
      var name: Option<string> := if p.href != "" then Some(SlugName(p.href)) else None;
      if p.divTexts != [] {
        name := Some(Trim(p.divTexts[0]));
      }
      if Truthy(name) {
        ps := ps + [LineupPlayer(PlayerId(Some(p.href)), name.value, if p.flags != [] then Some(Trim(p.flags[0])) else None)];
      }
      i := i + 1;
    }
    assert xs[..i] == xs;
  }

  // the lineup of one team

  /** The players of the first strategy that finds any. */
  function LineupPlayers(page: LineupPage, side: Schema.Side): (ps: seq<LineupPlayer>)
  {
    var s1 := BoxStrategy(page, side);
    if s1 != [] then s1
    else
      var s2 := TableStrategy(page, side);
      if s2 != [] then s2 else PanelStrategy(page, side)
  }

  /**
   * The strategies are tried in order, each only when those before found no
   * player; the lineup is empty only when all three are.
   */
  lemma LineupFallback(page: LineupPage, side: Schema.Side)
    ensures var ps := LineupPlayers(page, side);
      var s1 := BoxStrategy(page, side);
      var s2 := TableStrategy(page, side);
      var s3 := PanelStrategy(page, side);
      (ps == [] <==> s1 == [] && s2 == [] && s3 == [])
      && (s1 != [] ==> ps == s1)
      && (s1 == [] && s2 != [] ==> ps == s2)
      && (s1 == [] && s2 == [] ==> ps == s3)
  {
  }

  /** `_get_team_lineup(team_num)`. */
  function TeamLineupOf(page: LineupPage, side: Schema.Side): (t: TeamLineup)
    ensures t.teamName == Results.TeamName(if side.Team1? then page.header1.names else page.header2.names)
    ensures t.players == LineupPlayers(page, side)
  {
    var h := if side.Team1? then page.header1 else page.header2;
    TeamLineup(TeamId(At(h.links, 0)), Results.TeamName(h.names), At(h.logos, 0), LineupPlayers(page, side))
  }

  /** A team header without a name shows "Unknown"; one without a link has no team id. */
  lemma TeamDefaults(page: LineupPage, side: Schema.Side)
    ensures var h := if side.Team1? then page.header1 else page.header2;
      (h.names == [] ==> TeamLineupOf(page, side).teamName == "Unknown")
      && (h.links == [] ==> TeamLineupOf(page, side).teamId.None?)
      && (h.logos == [] <==> TeamLineupOf(page, side).teamLogo.None?)
  {
  }

  method GetTeamLineup(page: LineupPage, side: Schema.Side) returns (t: TeamLineup)
    ensures t == TeamLineupOf(page, side)
  {
    var h := if side.Team1? then page.header1 else page.header2;
    var players: seq<LineupPlayer> := [];
    if Index(side) < |page.boxes| {
      players := GetBoxPlayers(page.boxes[Index(side)]);
    }
    if players == [] && Index(side) < |page.tables| {
      players := GetTablePlayers(page.tables[Index(side)]);
    }
    if players == [] {
      var panels := if side.Team1? then page.leftPanels else page.rightPanels;
      if panels != [] {
        players := GetPanelPlayers(panels[0]);
      }
    }
    var teamLink := if h.links != [] then Some(h.links[0]) else None;
    t := TeamLineup(TeamId(teamLink), Results.TeamName(h.names), if h.logos != [] then Some(h.logos[0]) else None, players);
  }

  // ---------------------------------------------------------------- get_lineups

  datatype Lineups = Lineups(
    matchId: string, matchUrl: string,
    eventName: Option<string>, matchTimeUnix: Option<int>,
    matchDate: Option<string>, matchFormat: Option<string>,
    isLive: bool, team1: TeamLineup, team2: TeamLineup)

  /** No countdown on the page, or a live-match indicator on it. */
  function IsLive(page: LineupPage): (live: bool)
  {
    var noCountdown := !page.countdown;
    if page.liveIndicator then true else noCountdown
  }

  /** A match is shown live unless it has a countdown and no live indicator. */
  lemma LiveUnlessCountingDown(page: LineupPage)
    ensures !IsLive(page) <==> page.countdown && !page.liveIndicator
    ensures page.liveIndicator ==> IsLive(page)
  {
  }

  /**
   * `get_lineups`: None where `int()` of the first start-time attribute
   * raises ValueError; an absent attribute leaves the time None.
   */
  function LineupsOf(matchId: string, page: LineupPage): (r: Option<Lineups>)
    ensures r.None? <==> page.times != [] && PyInt(page.times[0]).None?
    ensures r.Some? ==> r.value.matchId == matchId && r.value.matchUrl == Details.MatchUrl(matchId, page.canonical)
    ensures r.Some? ==> (r.value.isLive <==> !page.countdown || page.liveIndicator)
    ensures r.Some? ==> r.value.team1 == TeamLineupOf(page, Schema.Team1) && r.value.team2 == TeamLineupOf(page, Schema.Team2)
    ensures r.Some? ==> r.value.eventName == FirstTrimmed(page.eventNames) && r.value.matchDate == FirstTrimmed(page.dates)
    ensures r.Some? ==> r.value.matchFormat == FirstTrimmed(page.formats)
    ensures r.Some? ==> r.value.matchTimeUnix == (if page.times == [] then None else PyInt(page.times[0]))
  {
    var time := if page.times == [] then Some(None) else
      match PyInt(page.times[0])
      case Some(v) => Some(Some(v))
      case None => None;
    if time.None? then None
    else
      Some(Lineups(matchId, Details.MatchUrl(matchId, page.canonical),
                   FirstTrimmed(page.eventNames), time.value, FirstTrimmed(page.dates), FirstTrimmed(page.formats),
                   IsLive(page), TeamLineupOf(page, Schema.Team1), TeamLineupOf(page, Schema.Team2)))
  }

  method GetLineups(matchId: string, page: LineupPage) returns (r: Option<Lineups>)
    ensures r == LineupsOf(matchId, page)
  {
    var isLive := !page.countdown;
    if page.liveIndicator {
      isLive := true;
    }
    var team1 := GetTeamLineup(page, Schema.Team1);
    var team2 := GetTeamLineup(page, Schema.Team2);
    var time: Option<int> := None;
    if page.times != [] {
      var v := PyInt(page.times[0]);
      if v.None? {
        return None;
      }
      time := v;
    }
    r := Some(Lineups(matchId, Details.MatchUrl(matchId, page.canonical),
                      FirstTrimmed(page.eventNames), time, FirstTrimmed(page.dates), FirstTrimmed(page.formats),
                      isLive, team1, team2));
  }
}
