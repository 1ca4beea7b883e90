/**
 * The CSV storage backend (`app/storage/csv_storage.py`).  A match is
 * spread over six files, one row per match, per map, per player line, per
 * roster line, per identified team and per identified player; the set of
 * stored match identifiers is kept beside the files and guards against
 * saving a match twice.
 *
 * The files are modelled as tables of cells (the rows after each file's
 * header); a cell is empty (Python's None), a text or an integer.  The text
 * encoding of a row, its quoting and its line breaks are not modelled.
 * `datetime.now()` is the parameter `now`, one value for every row of a save
 * (the source reads the clock once per row, so its stamps within one save
 * may differ).  A failing disk write is the parameter `failAt`: the number
 * of rows appended before the first append that raises.
 */
module Csv {
  import opened Wrappers
  import opened Strings
  import opened Schema
  import StorageContract

  datatype Cell = Empty | Text(s: string) | Int(i: int)
  type Row = seq<Cell>

  const MatchesHeader: seq<string> := [
    "match_id", "match_url", "team1_id", "team1_name", "team1_score",
    "team2_id", "team2_name", "team2_score", "event_id", "event_name",
    "event_url", "date", "time_unix", "match_format", "format_type",
    "winner", "final_score", "scraped_at"]
  const MapsHeader: seq<string> := [
    "match_id", "map_number", "map_name", "team1_score", "team2_score",
    "team1_ct_score", "team1_t_score", "team2_ct_score", "team2_t_score",
    "winner"]
  const PlayerStatsHeader: seq<string> := [
    "match_id", "team_id", "player_id", "player_name", "player_nick",
    "country", "kills", "deaths", "kd_diff", "adr", "kast", "rating", "swing"]
  const MatchPlayersHeader: seq<string> := [
    "match_id", "team_id", "team_name", "player_id", "player_nick", "country"]
  const TeamsHeader: seq<string> := ["team_id", "team_name", "team_logo_url", "last_updated"]
  const PlayersHeader: seq<string> := ["player_id", "player_name", "player_nick", "country", "last_updated"]

  function OptText(o: Option<string>): Cell {
    match o
    case Some(s) => Text(s)
    case None => Empty
  }

  function OptInt(o: Option<int>): Cell {
    match o
    case Some(i) => Int(i)
    case None => Empty
  }

  function OptSide(o: Option<Side>): Cell {
    match o
    case Some(s) => Text(SideName(s))
    case None => Empty
  }

  // ---------------------------------------------------------------- columns

  /** The columns of matches.csv, one constructor per header name. */
  datatype MatchColumn =
    MatchIdCol
    | MatchUrlCol
    | Team1IdCol
    | Team1NameCol
    | Team1ScoreCol
    | Team2IdCol
    | Team2NameCol
    | Team2ScoreCol
    | EventIdCol
    | EventNameCol
    | EventUrlCol
    | DateCol
    | TimeUnixCol
    | MatchFormatCol
    | FormatTypeCol
    | WinnerCol
    | FinalScoreCol
    | ScrapedAtCol

  const MatchColumns: seq<MatchColumn> := [
    MatchIdCol, MatchUrlCol, Team1IdCol, Team1NameCol,
    Team1ScoreCol, Team2IdCol, Team2NameCol, Team2ScoreCol,
    EventIdCol, EventNameCol, EventUrlCol, DateCol,
    TimeUnixCol, MatchFormatCol, FormatTypeCol, WinnerCol,
    FinalScoreCol, ScrapedAtCol]

  /** The header name of a matches.csv column. */
  function MatchColumnName(c: MatchColumn): string {
    match c
    case MatchIdCol => "match_id"
    case MatchUrlCol => "match_url"
    case Team1IdCol => "team1_id"
    case Team1NameCol => "team1_name"
    case Team1ScoreCol => "team1_score"
    case Team2IdCol => "team2_id"
    case Team2NameCol => "team2_name"
    case Team2ScoreCol => "team2_score"
    case EventIdCol => "event_id"
    case EventNameCol => "event_name"
    case EventUrlCol => "event_url"
    case DateCol => "date"
    case TimeUnixCol => "time_unix"
    case MatchFormatCol => "match_format"
    case FormatTypeCol => "format_type"
    case WinnerCol => "winner"
    case FinalScoreCol => "final_score"
    case ScrapedAtCol => "scraped_at"
  }

  /** The header of matches.csv names its columns in `MatchColumns` order. */
  lemma MatchesHeaderNames()
    ensures |MatchesHeader| == |MatchColumns|
    ensures forall k :: 0 <= k < |MatchColumns| ==> MatchesHeader[k] == MatchColumnName(MatchColumns[k])
  {
  }

  /**
   * The value a matches.csv column holds for a match: the match field of the
   * column's name, a team field for the `team1_`/`team2_` columns, and the
   * time of writing for `scraped_at`.
   */
  function MatchField(d: MatchDetails, now: string, c: MatchColumn): Cell {
    match c
    case MatchIdCol => Text(d.matchId)
    case MatchUrlCol => OptText(d.matchUrl)
    case Team1IdCol => OptText(d.team1.teamId)
    case Team1NameCol => Text(d.team1.name)
    case Team1ScoreCol => OptInt(d.team1.score)
    case Team2IdCol => OptText(d.team2.teamId)
    case Team2NameCol => Text(d.team2.name)
    case Team2ScoreCol => OptInt(d.team2.score)
    case EventIdCol => OptText(d.eventId)
    case EventNameCol => OptText(d.eventName)
    case EventUrlCol => OptText(d.eventUrl)
    case DateCol => OptText(d.date)
    case TimeUnixCol => OptInt(d.timeUnix)
    case MatchFormatCol => OptText(d.matchFormat)
    case FormatTypeCol => OptText(d.formatType)
    case WinnerCol => OptSide(d.winner)
    case FinalScoreCol => OptText(d.finalScore)
    case ScrapedAtCol => Text(now)
  }

  /** The columns of maps.csv, one constructor per header name. */
  datatype MapColumn =
    MapMatchIdCol
    | MapNumberCol
    | MapNameCol
    | MapTeam1ScoreCol
    | MapTeam2ScoreCol
    | Team1CtScoreCol
    | Team1TScoreCol
    | Team2CtScoreCol
    | Team2TScoreCol
    | MapWinnerCol

  const MapColumns: seq<MapColumn> := [
    MapMatchIdCol, MapNumberCol, MapNameCol, MapTeam1ScoreCol,
    MapTeam2ScoreCol, Team1CtScoreCol, Team1TScoreCol, Team2CtScoreCol,
    Team2TScoreCol, MapWinnerCol]

  /** The header name of a maps.csv column. */
  function MapColumnName(c: MapColumn): string {
    match c
    case MapMatchIdCol => "match_id"
    case MapNumberCol => "map_number"
    case MapNameCol => "map_name"
    case MapTeam1ScoreCol => "team1_score"
    case MapTeam2ScoreCol => "team2_score"
    case Team1CtScoreCol => "team1_ct_score"
    case Team1TScoreCol => "team1_t_score"
    case Team2CtScoreCol => "team2_ct_score"
    case Team2TScoreCol => "team2_t_score"
    case MapWinnerCol => "winner"
  }

  /** The header of maps.csv names its columns in `MapColumns` order. */
  lemma MapsHeaderNames()
    ensures |MapsHeader| == |MapColumns|
    ensures forall k :: 0 <= k < |MapColumns| ==> MapsHeader[k] == MapColumnName(MapColumns[k])
  {
  }

  /** The value a maps.csv column holds for one map of match `matchId`. */
  function MapField(matchId: string, m: MapResult, c: MapColumn): Cell {
    match c
    case MapMatchIdCol => Text(matchId)
    case MapNumberCol => Int(m.mapNumber)
    case MapNameCol => Text(m.mapName)
    case MapTeam1ScoreCol => OptInt(m.team1Score)
    case MapTeam2ScoreCol => OptInt(m.team2Score)
    case Team1CtScoreCol => OptInt(m.team1CtScore)
    case Team1TScoreCol => OptInt(m.team1TScore)
    case Team2CtScoreCol => OptInt(m.team2CtScore)
    case Team2TScoreCol => OptInt(m.team2TScore)
    case MapWinnerCol => OptSide(m.winner)
  }

  // ---------------------------------------------------------------- rows

  /** `_extract_match_row`: the match's fields in header order, stamped with `now`. */
  function MatchRow(d: MatchDetails, now: string): (r: Row)
    ensures |r| == |MatchesHeader| == |MatchColumns|
    ensures r[0] == Text(d.matchId) && r[17] == Text(now)
  {
    [Text(d.matchId), OptText(d.matchUrl),
     OptText(d.team1.teamId), Text(d.team1.name), OptInt(d.team1.score),
     OptText(d.team2.teamId), Text(d.team2.name), OptInt(d.team2.score),
     OptText(d.eventId), OptText(d.eventName), OptText(d.eventUrl),
     OptText(d.date), OptInt(d.timeUnix), OptText(d.matchFormat), OptText(d.formatType),
     OptSide(d.winner), OptText(d.finalScore), Text(now)]
  }

  /** Cell k of the match row is the match's value for the k-th column of the matches header. */
  lemma MatchRowInHeaderOrder(d: MatchDetails, now: string)
    ensures forall k :: 0 <= k < |MatchColumns| ==> MatchRow(d, now)[k] == MatchField(d, now, MatchColumns[k])
  {
    MatchIdentityCells(d, now);
    MatchTeam1Cells(d, now);
    MatchTeam2Cells(d, now);
    MatchEventCells(d, now);
    MatchFormatCells(d, now);
    MatchOutcomeCells(d, now);
  }

  /** Columns 0 to 2: the match's identity and the first team's id. */
  lemma MatchIdentityCells(d: MatchDetails, now: string)
    ensures forall k :: 0 <= k < 3 ==> MatchRow(d, now)[k] == MatchField(d, now, MatchColumns[k])
  {
  }

  /** Columns 3 to 5: the first team's name and score, and the second team's id. */
  lemma MatchTeam1Cells(d: MatchDetails, now: string)
    ensures forall k :: 3 <= k < 6 ==> MatchRow(d, now)[k] == MatchField(d, now, MatchColumns[k])
  {
  }

  /** Columns 6 to 8: the second team's name and score, and the event id. */
  lemma MatchTeam2Cells(d: MatchDetails, now: string)
    ensures forall k :: 6 <= k < 9 ==> MatchRow(d, now)[k] == MatchField(d, now, MatchColumns[k])
  {
  }

  /** Columns 9 to 11: the event's name and URL, and the date. */
  lemma MatchEventCells(d: MatchDetails, now: string)
    ensures forall k :: 9 <= k < 12 ==> MatchRow(d, now)[k] == MatchField(d, now, MatchColumns[k])
  {
  }

  /** Columns 12 to 14: the time and the two format columns. */
  lemma MatchFormatCells(d: MatchDetails, now: string)
    ensures forall k :: 12 <= k < 15 ==> MatchRow(d, now)[k] == MatchField(d, now, MatchColumns[k])
  {
  }

  /** Columns 15 to 17: the winner, the final score and the stamp. */
  lemma MatchOutcomeCells(d: MatchDetails, now: string)
    ensures forall k :: 15 <= k < 18 ==> MatchRow(d, now)[k] == MatchField(d, now, MatchColumns[k])
  {
  }

  /** One row of `_extract_map_rows`. */
  function MapRow(matchId: string, m: MapResult): (r: Row)
    ensures |r| == |MapsHeader| == |MapColumns|
    ensures forall k :: 0 <= k < |r| ==> r[k] == MapField(matchId, m, MapColumns[k])
  {
    [Text(matchId), Int(m.mapNumber), Text(m.mapName),
     OptInt(m.team1Score), OptInt(m.team2Score),
     OptInt(m.team1CtScore), OptInt(m.team1TScore),
     OptInt(m.team2CtScore), OptInt(m.team2TScore),
     OptSide(m.winner)]
  }


  /** One row of `_extract_player_stats_rows`; the team identifier comes from the team's block. */
  function PlayerStatsRow(matchId: string, teamId: Option<string>, p: PlayerMatchStats): (r: Row)
    ensures |r| == |PlayerStatsHeader| && r[0] == Text(matchId) && r[2] == OptText(p.playerId)
  {
    [Text(matchId), OptText(teamId), OptText(p.playerId), Text(p.playerName),
     OptText(p.playerNick), OptText(p.country),
     OptInt(p.kills), OptInt(p.deaths), OptInt(p.kdDiff),
     OptText(p.adr), OptText(p.kast), OptText(p.rating), OptText(p.swing)]
  }

  /** One row of `_extract_match_players_rows`. */
  function MatchPlayerRow(matchId: string, t: TeamMatchStats, p: PlayerMatchStats): (r: Row)
    ensures |r| == |MatchPlayersHeader| && r[0] == Text(matchId) && r[3] == OptText(p.playerId)
  {
    [Text(matchId), OptText(t.teamId), Text(t.teamName),
     OptText(p.playerId), OptText(p.playerNick), OptText(p.country)]
  }

  /**
   * `_extract_team_row` on a match's `team1`/`team2` record: none without a
   * team identifier.  The record has no `team_name` or `team_logo_url` key,
   * so an empty name or a missing logo falls back to an empty cell.
   */
  function TeamRow(t: TeamInfo, now: string): (r: Option<Row>)
    ensures r.Some? <==> Truthy(t.teamId)
    ensures r.Some? ==> |r.value| == |TeamsHeader| && r.value[0] == Text(t.teamId.value)
  {
    if !Truthy(t.teamId) then None
    else
      Some([Text(t.teamId.value),
            if t.name != "" then Text(t.name) else Empty,
            if Truthy(t.logoUrl) then Text(t.logoUrl.value) else Empty,
            Text(now)])
  }

  /** `_extract_player_row`: none without a player identifier. */
  function PlayerRow(p: PlayerMatchStats, now: string): (r: Option<Row>)
    ensures r.Some? <==> Truthy(p.playerId)
    ensures r.Some? ==> |r.value| == |PlayersHeader| && r.value[0] == Text(p.playerId.value)
  {
    if !Truthy(p.playerId) then None
    else Some([Text(p.playerId.value), Text(p.playerName), OptText(p.playerNick), OptText(p.country), Text(now)])
  }

  /** The player lines of one team block, each with its block. */
  function TeamEntries(ts: Option<TeamMatchStats>): (r: seq<(TeamMatchStats, PlayerMatchStats)>)
    ensures ts.None? ==> r == []
    ensures ts.Some? ==> |r| == |ts.value.players|
    ensures forall i :: 0 <= i < |r| ==> r[i].0 == ts.value && r[i].1 == ts.value.players[i]
  {
    match ts
    case None => []
    case Some(t) => seq(|t.players|, i requires 0 <= i < |t.players| => (t, t.players[i]))
  }

  /** The player lines of `team1_stats` followed by those of `team2_stats`. */
  function Entries(d: MatchDetails): seq<(TeamMatchStats, PlayerMatchStats)> {
    TeamEntries(d.team1Stats) + TeamEntries(d.team2Stats)
  }

  /** The number of player lines the match carries. */
  function PlayerCount(d: MatchDetails): nat {
    (if d.team1Stats.Some? then |d.team1Stats.value.players| else 0)
    + (if d.team2Stats.Some? then |d.team2Stats.value.players| else 0)
  }

  function MapRows(d: MatchDetails): (r: seq<Row>)
    ensures |r| == |d.maps|
  {
    seq(|d.maps|, i requires 0 <= i < |d.maps| => MapRow(d.matchId, d.maps[i]))
  }

  function StatsRows(d: MatchDetails): (r: seq<Row>)
    ensures |r| == |Entries(d)|
  {
    var e := Entries(d);
    seq(|e|, i requires 0 <= i < |e| => PlayerStatsRow(d.matchId, e[i].0.teamId, e[i].1))
  }

  function MatchPlayersRows(d: MatchDetails): (r: seq<Row>)
    ensures |r| == |Entries(d)|
  {
    var e := Entries(d);
    seq(|e|, i requires 0 <= i < |e| => MatchPlayerRow(d.matchId, e[i].0, e[i].1))
  }

  function TeamRows(d: MatchDetails, now: string): seq<Row> {
    Somes([TeamRow(d.team1, now), TeamRow(d.team2, now)])
  }

  function PlayerRowsOf(d: MatchDetails, now: string): seq<Option<Row>> {
    var e := Entries(d);
    seq(|e|, i requires 0 <= i < |e| => PlayerRow(e[i].1, now))
  }

  function PlayerRows(d: MatchDetails, now: string): seq<Row> {
    Somes(PlayerRowsOf(d, now))
  }

  /** One player-statistics row and one roster row for every player line of either team. */
  lemma PlayerLineRows(d: MatchDetails, now: string)
    ensures |Entries(d)| == PlayerCount(d)
    ensures |StatsRows(d)| == PlayerCount(d) && |MatchPlayersRows(d)| == PlayerCount(d)
    ensures |PlayerRows(d, now)| <= PlayerCount(d)
    ensures forall i :: 0 <= i < |StatsRows(d)| ==>
      StatsRows(d)[i][2] == MatchPlayersRows(d)[i][3] == OptText(Entries(d)[i].1.playerId)
  {
  }

  /** Every listed player with an identifier has a player row. */
  lemma PlayerRowsExact(d: MatchDetails, now: string, i: nat)
    requires i < |Entries(d)|
    ensures Truthy(Entries(d)[i].1.playerId) ==> PlayerRow(Entries(d)[i].1, now).value in PlayerRows(d, now)
  {
    if Truthy(Entries(d)[i].1.playerId) {
      SomesComplete(PlayerRowsOf(d, now), i);
    }
  }

  /** Every player row is the row of a listed player with an identifier. */
  lemma PlayerRowsSound(d: MatchDetails, now: string, k: nat)
    requires k < |PlayerRows(d, now)|
    ensures exists i ::
              0 <= i < |Entries(d)| && Truthy(Entries(d)[i].1.playerId) &&
              PlayerRows(d, now)[k] == PlayerRow(Entries(d)[i].1, now).value
  {
    SomesSound(PlayerRowsOf(d, now), k);
    var i :| 0 <= i < |PlayerRowsOf(d, now)| && PlayerRowsOf(d, now)[i] == Some(PlayerRows(d, now)[k]);
    assert PlayerRowsOf(d, now)[i] == PlayerRow(Entries(d)[i].1, now);
  }

  /** A team row exactly for each side whose team identifier is set, team1 first. */
  lemma TeamRowsExact(d: MatchDetails, now: string)
    ensures |TeamRows(d, now)| == (if Truthy(d.team1.teamId) then 1 else 0) + (if Truthy(d.team2.teamId) then 1 else 0)
    ensures Truthy(d.team1.teamId) ==> TeamRows(d, now)[0] == TeamRow(d.team1, now).value
    ensures Truthy(d.team2.teamId) ==> TeamRows(d, now)[|TeamRows(d, now)| - 1] == TeamRow(d.team2, now).value
  {
    var xs := [TeamRow(d.team1, now), TeamRow(d.team2, now)];
    assert Somes(xs[..1]) == (if xs[0].Some? then [xs[0].value] else []) by {
      assert xs[..1][..0] == [];
    }
    assert xs[..|xs| - 1] == xs[..1];
    assert Somes(xs) == Somes(xs[..1]) + (if xs[1].Some? then [xs[1].value] else []);
  }

  // ---------------------------------------------------------------- extraction loops

  /** `_extract_map_rows`. */
  method ExtractMapRows(d: MatchDetails) returns (rows: seq<Row>)
    ensures rows == MapRows(d)
  {
    rows := [];
    var i := 0;
    while i < |d.maps|
      invariant i <= |d.maps| && rows == MapRows(d)[..i]
    {
      rows := rows + [MapRow(d.matchId, d.maps[i])];
      i := i + 1;
    }
  }

  /** The player lines of one optional team block, in order. */
  method TeamLines(ts: Option<TeamMatchStats>) returns (lines: seq<(TeamMatchStats, PlayerMatchStats)>)
    ensures lines == TeamEntries(ts)
  {
    lines := [];
    if ts.Some? {
      var t := ts.value;
      var i := 0;
      while i < |t.players|
        invariant i <= |t.players| && lines == TeamEntries(ts)[..i]
      {
        lines := lines + [(t, t.players[i])];
        i := i + 1;
      }
    }
  }

  /** `_extract_player_stats_rows`: the two team blocks in turn, absent ones skipped. */
  method ExtractPlayerStatsRows(d: MatchDetails) returns (rows: seq<Row>)
    ensures rows == StatsRows(d)
  {
    var l1 := TeamLines(d.team1Stats);
    var l2 := TeamLines(d.team2Stats);
    var e := l1 + l2;
    rows := [];
    var i := 0;
    while i < |e|
      invariant e == Entries(d)
      invariant i <= |e| && rows == StatsRows(d)[..i]
    {
      rows := rows + [PlayerStatsRow(d.matchId, e[i].0.teamId, e[i].1)];
      i := i + 1;
    }
  }

  /** `_extract_match_players_rows`. */
  method ExtractMatchPlayersRows(d: MatchDetails) returns (rows: seq<Row>)
    ensures rows == MatchPlayersRows(d)
  {
    var l1 := TeamLines(d.team1Stats);
    var l2 := TeamLines(d.team2Stats);
    var e := l1 + l2;
    rows := [];
    var i := 0;
    while i < |e|
      invariant e == Entries(d)
      invariant i <= |e| && rows == MatchPlayersRows(d)[..i]
    {
      rows := rows + [MatchPlayerRow(d.matchId, e[i].0, e[i].1)];
      i := i + 1;
    }
  }

  // ---------------------------------------------------------------- files and writes

  datatype Table = Matches | Maps | PlayerStats | MatchPlayers | Teams | Players

  /** The column names a table's file starts with. */
  function Header(t: Table): seq<string> {
    match t
    case Matches => MatchesHeader
    case Maps => MapsHeader
    case PlayerStats => PlayerStatsHeader
    case MatchPlayers => MatchPlayersHeader
    case Teams => TeamsHeader
    case Players => PlayersHeader
  }

  /** The rows of the six files, below their headers. */
  datatype Files = Files(
    matches: seq<Row>, maps: seq<Row>, playerStats: seq<Row>,
    matchPlayers: seq<Row>, teams: seq<Row>, players: seq<Row>)

  const NoRows: Files := Files([], [], [], [], [], [])

  function Rows(f: Files, t: Table): seq<Row> {
    match t
    case Matches => f.matches
    case Maps => f.maps
    case PlayerStats => f.playerStats
    case MatchPlayers => f.matchPlayers
    case Teams => f.teams
    case Players => f.players
  }

  /** Every row of every table has as many cells as its header names. */
  predicate WellShaped(f: Files) {
    forall t: Table, i :: 0 <= i < |Rows(f, t)| ==> |Rows(f, t)[i]| == |Header(t)|
  }

  /** `_append_row`: one more row at the end of one file. */
  function Append(f: Files, t: Table, row: Row): (g: Files)
    ensures Rows(g, t) == Rows(f, t) + [row]
    ensures forall u :: u != t ==> Rows(g, u) == Rows(f, u)
  {
    match t
    case Matches => f.(matches := f.matches + [row])
    case Maps => f.(maps := f.maps + [row])
    case PlayerStats => f.(playerStats := f.playerStats + [row])
    case MatchPlayers => f.(matchPlayers := f.matchPlayers + [row])
    case Teams => f.(teams := f.teams + [row])
    case Players => f.(players := f.players + [row])
  }

  datatype Write = Write(table: Table, row: Row)

  /** The appends of `ws`, in order. */
  function ApplyWrites(f: Files, ws: seq<Write>): Files
    decreases |ws|
  {
    if ws == [] then f
    else
      var w := ws[|ws| - 1];
      Append(ApplyWrites(f, ws[..|ws| - 1]), w.table, w.row)
  }

  /** The rows of `ws` addressed to table `t`, in order. */
  function Written(ws: seq<Write>, t: Table): seq<Row>
    decreases |ws|
  {
    if ws == [] then []
    else
      var w := ws[|ws| - 1];
      Written(ws[..|ws| - 1], t) + (if w.table == t then [w.row] else [])
  }

  /** Applying writes appends to each table exactly the rows addressed to it. */
  lemma {:induction false} ApplyRows(f: Files, ws: seq<Write>, t: Table)
    ensures Rows(ApplyWrites(f, ws), t) == Rows(f, t) + Written(ws, t)
    decreases |ws|
  {
    if ws != [] {
      ApplyRows(f, ws[..|ws| - 1], t);
    }
  }

  lemma {:induction false} WrittenConcat(a: seq<Write>, b: seq<Write>, t: Table)
    ensures Written(a + b, t) == Written(a, t) + Written(b, t)
    decreases |b|
  {
    if b == [] {
      assert a + b == a;
    } else {
      assert (a + b)[..|a + b| - 1] == a + b[..|b| - 1];
      WrittenConcat(a, b[..|b| - 1], t);
    }
  }

  /** The rows written before a failure begin the rows of the whole plan. */
  lemma {:induction false} WrittenPrefix(ws: seq<Write>, k: nat, t: Table)
    requires k <= |ws|
    ensures Written(ws[..k], t) <= Written(ws, t)
  {
    assert ws == ws[..k] + ws[k..];
    WrittenConcat(ws[..k], ws[k..], t);
  }

  /** Writes of `rows` to one table. */
  function WritesTo(t: Table, rows: seq<Row>): seq<Write> {
    seq(|rows|, i requires 0 <= i < |rows| => Write(t, rows[i]))
  }

  lemma {:induction false} WrittenTo(t: Table, rows: seq<Row>, u: Table)
    ensures Written(WritesTo(t, rows), u) == if u == t then rows else []
    decreases |rows|
  {
    if rows != [] {
      var init := rows[..|rows| - 1];
      assert WritesTo(t, rows)[..|rows| - 1] == WritesTo(t, init);
      WrittenTo(t, init, u);
    }
  }

  /** The appends `save_match` performs, in its order, given the three extracted row groups. */
  function PlanFrom(d: MatchDetails, now: string, mapRows: seq<Row>, statsRows: seq<Row>, rosterRows: seq<Row>): seq<Write> {
    WritesTo(Matches, [MatchRow(d, now)]) + WritesTo(Maps, mapRows)
    + WritesTo(PlayerStats, statsRows) + WritesTo(MatchPlayers, rosterRows)
    + WritesTo(Teams, TeamRows(d, now)) + WritesTo(Players, PlayerRows(d, now))
  }

  function Plan(d: MatchDetails, now: string): seq<Write> {
    PlanFrom(d, now, MapRows(d), StatsRows(d), MatchPlayersRows(d))
  }

  /** The rows of the six groups, one table each. */
  function PlannedRows(d: MatchDetails, now: string, t: Table): seq<Row> {
    match t
    case Matches => [MatchRow(d, now)]
    case Maps => MapRows(d)
    case PlayerStats => StatsRows(d)
    case MatchPlayers => MatchPlayersRows(d)
    case Teams => TeamRows(d, now)
    case Players => PlayerRows(d, now)
  }

  lemma Written6(w1: seq<Write>, w2: seq<Write>, w3: seq<Write>, w4: seq<Write>, w5: seq<Write>, w6: seq<Write>, t: Table)
    ensures Written(w1 + w2 + w3 + w4 + w5 + w6, t)
      == Written(w1, t) + Written(w2, t) + Written(w3, t) + Written(w4, t) + Written(w5, t) + Written(w6, t)
  {
    WrittenConcat(w1, w2, t);
    WrittenConcat(w1 + w2, w3, t);
    WrittenConcat(w1 + w2 + w3, w4, t);
    WrittenConcat(w1 + w2 + w3 + w4, w5, t);
    WrittenConcat(w1 + w2 + w3 + w4 + w5, w6, t);
  }

  /** Six groups written to the six tables in turn put each group in its own table. */
  lemma WrittenGroups(r1: seq<Row>, r2: seq<Row>, r3: seq<Row>, r4: seq<Row>, r5: seq<Row>, r6: seq<Row>, t: Table)
    ensures Written(WritesTo(Matches, r1) + WritesTo(Maps, r2) + WritesTo(PlayerStats, r3)
      + WritesTo(MatchPlayers, r4) + WritesTo(Teams, r5) + WritesTo(Players, r6), t)
      == match t
         case Matches => r1
         case Maps => r2
         case PlayerStats => r3
         case MatchPlayers => r4
         case Teams => r5
         case Players => r6
  {
    var w1, w2, w3 := WritesTo(Matches, r1), WritesTo(Maps, r2), WritesTo(PlayerStats, r3);
    var w4, w5, w6 := WritesTo(MatchPlayers, r4), WritesTo(Teams, r5), WritesTo(Players, r6);
    Written6(w1, w2, w3, w4, w5, w6, t);
    WrittenTo(Matches, r1, t);
    WrittenTo(Maps, r2, t);
    WrittenTo(PlayerStats, r3, t);
    WrittenTo(MatchPlayers, r4, t);
    WrittenTo(Teams, r5, t);
    WrittenTo(Players, r6, t);
  }

  /** A saved match adds to each table exactly its own group of rows. */
  lemma PlanRows(d: MatchDetails, now: string, t: Table)
    ensures Written(Plan(d, now), t) == PlannedRows(d, now, t)
  {
    WrittenGroups([MatchRow(d, now)], MapRows(d), StatsRows(d), MatchPlayersRows(d), TeamRows(d, now), PlayerRows(d, now), t);
  }

  /** Every planned row has its table's width. */
  lemma PlannedShape(d: MatchDetails, now: string, t: Table, i: nat)
    requires i < |PlannedRows(d, now, t)|
    ensures |PlannedRows(d, now, t)[i]| == |Header(t)|
  {
    match t
    case Teams =>
      var xs := [TeamRow(d.team1, now), TeamRow(d.team2, now)];
      var k := SomesSoundIndex(xs, i);
    case Players =>
      var k := SomesSoundIndex(PlayerRowsOf(d, now), i);
    case _ =>
  }

  /** The position a collected value came from. */
  lemma SomesSoundIndex<T>(xs: seq<Option<T>>, k: nat) returns (j: nat)
    requires k < |Somes(xs)|
    ensures j < |xs| && xs[j] == Some(Somes(xs)[k])
  {
    SomesSound(xs, k);
    j :| 0 <= j < |xs| && xs[j] == Some(Somes(xs)[k]);
  }

  // ---------------------------------------------------------------- the store

  /** The files together with the cache of stored match identifiers. */
  datatype Store = Store(files: Files, ids: set<string>)

  /**
   * `save_match`: refuse an empty identifier and a stored one; otherwise
   * append the plan and record the identifier, unless an append fails, in
   * which case the rows appended so far stay and the identifier is not
   * recorded.
   */
  function SaveOf(s: Store, d: MatchDetails, now: string, failAt: Option<nat>): (res: (Store, bool))
    ensures StorageContract.SaveMatchContract(s.ids, res.0.ids, d.matchId, res.1)
    ensures res.1 ==> d.matchId != ""
  {
    if d.matchId == "" || d.matchId in s.ids then (s, false)
    else Commit(s, d.matchId, Plan(d, now), failAt)
  }

  /** The appends of `ws` up to the failing one; the identifier is recorded only if none fails. */
  function Commit(s: Store, id: string, ws: seq<Write>, failAt: Option<nat>): (res: (Store, bool))
    ensures res.0.ids == if res.1 then s.ids + {id} else s.ids
  {
    if failAt.Some? && failAt.value < |ws| then (Store(ApplyWrites(s.files, ws[..failAt.value]), s.ids), false)
    else (Store(ApplyWrites(s.files, ws), s.ids + {id}), true)
  }

  /** A saved match adds one match row, one row per map, one statistics and one roster row per player line. */
  lemma SavedRows(s: Store, d: MatchDetails, now: string, failAt: Option<nat>, t: Table)
    requires SaveOf(s, d, now, failAt).1
    ensures Rows(SaveOf(s, d, now, failAt).0.files, t) == Rows(s.files, t) + PlannedRows(d, now, t)
  {
    ApplyRows(s.files, Plan(d, now), t);
    PlanRows(d, now, t);
  }

  /** A refused or failed save appends at most a beginning of the planned rows, and none when refused. */
  lemma UnsavedRows(s: Store, d: MatchDetails, now: string, failAt: Option<nat>, t: Table)
    requires !SaveOf(s, d, now, failAt).1
    ensures Rows(s.files, t) <= Rows(SaveOf(s, d, now, failAt).0.files, t) <= Rows(s.files, t) + PlannedRows(d, now, t)
    ensures d.matchId == "" || d.matchId in s.ids ==> SaveOf(s, d, now, failAt).0 == s
  {
    if d.matchId != "" && d.matchId !in s.ids {
      var ws := Plan(d, now);
      var k := failAt.value;
      ApplyRows(s.files, ws[..k], t);
      WrittenPrefix(ws, k, t);
      PlanRows(d, now, t);
    }
  }

  /** Saving keeps every row of every table at its header's width. */
  lemma SaveKeepsShape(s: Store, d: MatchDetails, now: string, failAt: Option<nat>)
    requires WellShaped(s.files)
    ensures WellShaped(SaveOf(s, d, now, failAt).0.files)
  {
    var g := SaveOf(s, d, now, failAt).0.files;
    forall t: Table, i | 0 <= i < |Rows(g, t)|
      ensures |Rows(g, t)[i]| == |Header(t)|
    {
      var before := Rows(s.files, t);
      if SaveOf(s, d, now, failAt).1 {
        SavedRows(s, d, now, failAt, t);
      } else {
        UnsavedRows(s, d, now, failAt, t);
      }
      assert Rows(g, t) <= before + PlannedRows(d, now, t);
      if i >= |before| {
        assert Rows(g, t)[i] == PlannedRows(d, now, t)[i - |before|];
        PlannedShape(d, now, t, i - |before|);
      }
    }
  }

  /** `save_matches`: each match in turn, counting the saves; `fails(k)` is the failure point of the k-th. */
  function SaveAllOf(s: Store, ms: seq<MatchDetails>, now: string, fails: nat -> Option<nat>): (res: (Store, nat))
    ensures StorageContract.SaveMatchesContract(s.ids, res.0.ids, res.1)
    ensures res.1 <= |ms|
    decreases |ms|
  {
    if ms == [] then (s, 0)
    else
      var prev := SaveAllOf(s, ms[..|ms| - 1], now, fails);
      var one := SaveOf(prev.0, ms[|ms| - 1], now, fails(|ms| - 1));
      (one.0, prev.1 + if one.1 then 1 else 0)
  }

  /** One more match saves it after the others and counts it if it was saved. */
  lemma SaveAllStep(s: Store, ms: seq<MatchDetails>, i: nat, now: string, fails: nat -> Option<nat>)
    requires i < |ms|
    ensures var prev := SaveAllOf(s, ms[..i], now, fails);
      var one := SaveOf(prev.0, ms[i], now, fails(i));
      SaveAllOf(s, ms[..i + 1], now, fails) == (one.0, prev.1 + if one.1 then 1 else 0)
  {
    var t := ms[..i + 1];
    assert t[..|t| - 1] == ms[..i] && t[|t| - 1] == ms[i] && |t| - 1 == i;
  }

  /** Saving the same batch again stores nothing new: every identifier is by then held. */
  lemma {:induction false} SaveAllAgain(s: Store, ms: seq<MatchDetails>, now: string, fails: nat -> Option<nat>)
    requires forall k :: 0 <= k < |ms| ==> ms[k].matchId in s.ids
    ensures SaveAllOf(s, ms, now, fails) == (s, 0)
    decreases |ms|
  {
    if ms != [] {
      SaveAllAgain(s, ms[..|ms| - 1], now, fails);
    }
  }

  /** Without failures, every match of the batch with an identifier is held afterwards. */
  lemma {:induction false} SaveAllHolds(s: Store, ms: seq<MatchDetails>, now: string, fails: nat -> Option<nat>, k: nat)
    requires forall j :: 0 <= j < |ms| ==> fails(j).None?
    requires k < |ms| && ms[k].matchId != ""
    ensures ms[k].matchId in SaveAllOf(s, ms, now, fails).0.ids
    decreases |ms|
  {
    var prev := SaveAllOf(s, ms[..|ms| - 1], now, fails);
    if k < |ms| - 1 {
      SaveAllHolds(s, ms[..|ms| - 1], now, fails, k);
    }
  }

  // ---------------------------------------------------------------- reading back

  /** The text `csv.writer` gives a cell: None as the empty text. */
  function CellText(c: Cell): string {
    match c
    case Empty => ""
    case Text(s) => s
    case Int(i) => IntToString(i)
  }

  function RenderRow(r: Row): (t: seq<string>)
    ensures |t| == |r| && forall i :: 0 <= i < |r| ==> t[i] == CellText(r[i])
  {
    seq(|r|, i requires 0 <= i < |r| => CellText(r[i]))
  }

  function RenderRows(rows: seq<Row>): (t: seq<seq<string>>)
    ensures |t| == |rows| && forall i :: 0 <= i < |rows| ==> t[i] == RenderRow(rows[i])
  {
    seq(|rows|, i requires 0 <= i < |rows| => RenderRow(rows[i]))
  }

  /** The column `csv.DictReader` maps a name to: the last of equal names wins. */
  function LastIndex(header: seq<string>, name: string): (r: Option<nat>)
    ensures r.Some? ==> r.value < |header| && header[r.value] == name
    ensures r.Some? ==> forall k :: r.value < k < |header| ==> header[k] != name
    ensures r.None? <==> name !in header
    decreases |header|
  {
    if header == [] then None
    else if header[|header| - 1] == name then Some(|header| - 1)
    else LastIndex(header[..|header| - 1], name)
  }

  /** The values of column `col` in the records long enough to have it. */
  function ColumnValues(records: seq<seq<string>>, col: nat): set<string>
    decreases |records|
  {
    if records == [] then {}
    else
      var r := records[|records| - 1];
      ColumnValues(records[..|records| - 1], col) + (if col < |r| then {r[col]} else {})
  }

  lemma {:induction false} ColumnValuesExact(records: seq<seq<string>>, col: nat, x: string)
    ensures x in ColumnValues(records, col) <==>
      exists j :: 0 <= j < |records| && col < |records[j]| && records[j][col] == x
    decreases |records|
  {
    if records != [] {
      var init := records[..|records| - 1];
      ColumnValuesExact(init, col, x);
      if x in ColumnValues(init, col) {
        var j :| 0 <= j < |init| && col < |init[j]| && init[j][col] == x;
        assert records[j] == init[j];
      }
      if exists j :: 0 <= j < |records| && col < |records[j]| && records[j][col] == x {
        var j :| 0 <= j < |records| && col < |records[j]| && records[j][col] == x;
        if j < |init| {
          assert init[j] == records[j];
        }
      }
    }
  }

  /**
   * `_load_match_ids` on the records of `matches.csv` (None when the file
   * is missing): the first record names the columns, and every later record
   * contributes its `match_id` value.
   */
  function LoadedIds(file: Option<seq<seq<string>>>): set<string> {
    if file.None? || file.value == [] then {}
    else
      match LastIndex(file.value[0], "match_id")
      case None => {}
      case Some(col) => ColumnValues(file.value[1..], col)
  }

  /** `match_id` names the first column of `matches.csv` only. */
  lemma MatchIdColumn()
    ensures LastIndex(MatchesHeader, "match_id") == Some(0)
  {
    assert "match_id" !in MatchesHeader[1..];
    assert MatchesHeader[..1] == ["match_id"];
    assert LastIndex(MatchesHeader[..1], "match_id") == Some(0);
    LastIndexPast(MatchesHeader, 1, "match_id");
  }

  lemma {:induction false} LastIndexPast(header: seq<string>, n: nat, name: string)
    requires n <= |header| && name !in header[n..]
    ensures LastIndex(header, name) == LastIndex(header[..n], name)
    decreases |header| - n
  {
    if n < |header| {
      assert header[..|header| - 1][n..] == header[n..|header| - 1];
      assert header[..|header| - 1][..n] == header[..n];
      LastIndexPast(header[..|header| - 1], n, name);
    } else {
      assert header[..n] == header;
    }
  }

  /** Read back, the matches file names exactly the identifiers of its rows. */
  lemma ReloadIds(rows: seq<Row>, x: string)
    requires forall i :: 0 <= i < |rows| ==> |rows[i]| == |MatchesHeader|
    ensures x in LoadedIds(Some([MatchesHeader] + RenderRows(rows))) <==>
      exists j :: 0 <= j < |rows| && CellText(rows[j][0]) == x
  {
    var rendered := RenderRows(rows);
    LoadedMatchIds(rendered);
    ColumnValuesExact(rendered, 0, x);
    if x in ColumnValues(rendered, 0) {
      var j :| 0 <= j < |rendered| && 0 < |rendered[j]| && rendered[j][0] == x;
      assert rendered[j] == RenderRow(rows[j]);
    }
    if exists j :: 0 <= j < |rows| && CellText(rows[j][0]) == x {
      var j :| 0 <= j < |rows| && CellText(rows[j][0]) == x;
      assert rendered[j] == RenderRow(rows[j]);
    }
  }

  /** Read back, the matches file yields the first cells of its records. */
  lemma LoadedMatchIds(records: seq<seq<string>>)
    ensures LoadedIds(Some([MatchesHeader] + records)) == ColumnValues(records, 0)
  {
    var file := [MatchesHeader] + records;
    MatchIdColumn();
    assert file[0] == MatchesHeader && file[1..] == records;
  }

  /** A saved match is found again when `matches.csv` is read back. */
  lemma ReloadFindsSaved(s: Store, d: MatchDetails, now: string, failAt: Option<nat>)
    requires WellShaped(s.files) && SaveOf(s, d, now, failAt).1
    ensures d.matchId in LoadedIds(Some([MatchesHeader] + RenderRows(SaveOf(s, d, now, failAt).0.files.matches)))
  {
    var after := SaveOf(s, d, now, failAt).0.files;
    SaveKeepsShape(s, d, now, failAt);
    SavedRows(s, d, now, failAt, Matches);
    var j := |s.files.matches|;
    assert after.matches[j] == MatchRow(d, now);
    assert forall i :: 0 <= i < |after.matches| ==> |after.matches[i]| == |Header(Matches)|;
    ReloadIds(after.matches, d.matchId);
  }

  // ---------------------------------------------------------------- statistics

  /** The greatest instant among the stamps that parse, if any. */
  function Latest(stamps: seq<Option<string>>, instant: string -> Option<int>): (r: Option<int>)
    decreases |stamps|
  {
    if stamps == [] then None
    else
      var prev := Latest(stamps[..|stamps| - 1], instant);
      var s := stamps[|stamps| - 1];
      var cur := if Truthy(s) then instant(s.value) else None;
      if cur.Some? && (prev.None? || cur.value > prev.value) then cur else prev
  }

  /** The latest stamp is the largest instant that parses, and there is one unless none parses. */
  lemma {:induction false} LatestIsMax(stamps: seq<Option<string>>, instant: string -> Option<int>)
    ensures var r := Latest(stamps, instant);
      && (r.Some? ==> exists j :: 0 <= j < |stamps| && Truthy(stamps[j]) && instant(stamps[j].value) == r)
      && (forall j :: 0 <= j < |stamps| && Truthy(stamps[j]) && instant(stamps[j].value).Some? ==>
            r.Some? && instant(stamps[j].value).value <= r.value)
    decreases |stamps|
  {
    if stamps != [] {
      var init := stamps[..|stamps| - 1];
      LatestIsMax(init, instant);
      var prev := Latest(init, instant);
      if prev.Some? && Latest(stamps, instant) == prev {
        var j :| 0 <= j < |init| && Truthy(init[j]) && instant(init[j].value) == prev;
        assert stamps[j] == init[j];
      }
      forall j | 0 <= j < |stamps| - 1
        ensures stamps[j] == init[j]
      {
      }
    }
  }

  /** `get_statistics`: a file of `lines` lines holds `lines - 1` rows below its header, and never fewer than none. */
  function RowCount(lines: int): (n: nat)
    ensures lines >= 1 ==> n == lines - 1
    ensures lines < 1 ==> n == 0
  {
    if lines - 1 > 0 then lines - 1 else 0
  }

  /** A file written as a header line and one line per row reports its rows. */
  lemma RowCountOfFile(t: Table, rows: seq<Row>)
    ensures RowCount(|[Header(t)] + RenderRows(rows)|) == |rows|
  {
  }

  // ---------------------------------------------------------------- the backend object

  class CsvStorage {
    var files: Files
    var matchIds: set<string>

    function State(): Store
      reads this
    {
      Store(files, matchIds)
    }

    /** Loads the stored identifiers from `matches.csv`; the rows held afterwards are those this object appends. */
    constructor (matchesFile: Option<seq<seq<string>>>)
      ensures files == NoRows && matchIds == LoadedIds(matchesFile)
    {
      files := NoRows;
      var ids := LoadMatchIds(matchesFile);
      matchIds := ids;
    }

    /** `_load_match_ids`. */
    static method LoadMatchIds(file: Option<seq<seq<string>>>) returns (ids: set<string>)
      ensures ids == LoadedIds(file)
    {
      ids := {};
      if file.None? || file.value == [] {
        return;
      }
      var col := LastIndex(file.value[0], "match_id");
      if col.None? {
        return;
      }
      var records := file.value[1..];
      var i := 0;
      while i < |records|
        invariant i <= |records| && ids == ColumnValues(records[..i], col.value)
      {
        assert records[..i + 1][..i] == records[..i];
        if col.value < |records[i]| {
          ids := ids + {records[i][col.value]};
        }
        i := i + 1;
      }
      assert records[..i] == records;
    }

    /** `save_match`: the appends run one at a time, and an append may raise after `failAt` of them. */
    method SaveMatch(d: MatchDetails, now: string, failAt: Option<nat>) returns (saved: bool)
      modifies this
      ensures (State(), saved) == SaveOf(old(State()), d, now, failAt)
    {
      if d.matchId == "" || d.matchId in matchIds {
        return false;
      }
      var mapRows := ExtractMapRows(d);
      var statsRows := ExtractPlayerStatsRows(d);
      var rosterRows := ExtractMatchPlayersRows(d);
      var ws := PlanFrom(d, now, mapRows, statsRows, rosterRows);
      saved := AppendAll(ws, failAt);
      if saved {
        matchIds := matchIds + {d.matchId};
      }
    }

    /** The appends of `ws` one at a time, stopping at the one that raises. */
    method AppendAll(ws: seq<Write>, failAt: Option<nat>) returns (ok: bool)
      modifies this
      ensures ok <==> !(failAt.Some? && failAt.value < |ws|)
      ensures files == ApplyWrites(old(files), if ok then ws else ws[..failAt.value])
      ensures matchIds == old(matchIds)
    {
      var i := 0;
      while i < |ws|
        invariant i <= |ws| && files == ApplyWrites(old(files), ws[..i])
        invariant matchIds == old(matchIds)
        invariant failAt.Some? ==> failAt.value >= i
      {
        if failAt == Some(i) {
          return false;
        }
        assert ws[..i + 1][..i] == ws[..i];
        files := Append(files, ws[i].table, ws[i].row);
        i := i + 1;
      }
      assert ws[..i] == ws;
      ok := true;
    }

    /** `save_matches`. */
    method SaveMatches(ms: seq<MatchDetails>, now: string, fails: nat -> Option<nat>) returns (count: nat)
      modifies this
      ensures (State(), count) == SaveAllOf(old(State()), ms, now, fails)
    {
      count := 0;
      ghost var s0 := State();
      var i := 0;
      while i < |ms|
        invariant i <= |ms| && (State(), count) == SaveAllOf(s0, ms[..i], now, fails)
      {
        SaveAllStep(s0, ms, i, now, fails);
        ghost var before := State();
        var ok := SaveMatch(ms[i], now, fails(i));
        ghost var one := SaveOf(before, ms[i], now, fails(i));
        assert State() == one.0 && ok == one.1;
        if ok {
          count := count + 1;
        }
        i := i + 1;
      }
      assert ms[..i] == ms;
    }

    /** `match_exists`. */
    method MatchExists(id: string) returns (r: bool)
      ensures StorageContract.MatchExistsContract(matchIds, id, r)
    {
      r := id in matchIds;
    }

    /** `get_match_count`. */
    method GetMatchCount() returns (n: nat)
      ensures StorageContract.MatchCountContract(matchIds, n)
    {
      n := |matchIds|;
    }

    /** `get_scraped_match_ids`: `list()` of the cached set, in whatever order the set yields. */
    method GetScrapedMatchIds() returns (ids: seq<string>)
      ensures StorageContract.ScrapedIdsContract(matchIds, ids)
    {
      ids := [];
      var rest := matchIds;
      while rest != {}
        invariant rest <= matchIds
        invariant forall x :: x in ids <==> x in matchIds - rest
        invariant forall i, j :: 0 <= i < j < |ids| ==> ids[i] != ids[j]
        decreases |rest|
      {
        var x :| x in rest;
        assert x !in ids;
        assert forall i :: 0 <= i < |ids| ==> ids[i] != x;
        ids := ids + [x];
        rest := rest - {x};
      }
    }

    /** `get_last_scraped_date` over the `scraped_at` values of `matches.csv` (None when the file is missing). */
    static method GetLastScrapedDate(stamps: Option<seq<Option<string>>>, instant: string -> Option<int>)
      returns (last: Option<int>)
      ensures stamps.None? ==> last.None?
      ensures stamps.Some? ==> last == Latest(stamps.value, instant)
      ensures stamps.Some? ==> StorageContract.LastScrapedContract(stamps.value, last)
    {
      if stamps.None? {
        return None;
      }
      var ss := stamps.value;
      last := None;
      var i := 0;
      while i < |ss|
        invariant i <= |ss| && last == Latest(ss[..i], instant)
      {
        assert ss[..i + 1][..i] == ss[..i];
        if Truthy(ss[i]) {
          var dt := instant(ss[i].value);
          if dt.Some? && (last.None? || dt.value > last.value) {
            last := dt;
          }
        }
        i := i + 1;
      }
      assert ss[..i] == ss;
    }
  }
}
