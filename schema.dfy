/**
 * Record shapes of a match and the coercions the player-statistics model
 * applies to its inputs (`app/schemas/matches/match.py`).  Floating-point
 * conversion is not modelled: where the source calls `float(text)`, the
 * model keeps the text that would be converted.
 */
module Schema {
  import opened Wrappers
  import opened Strings

  /** Which side of a match a result refers to; written "team1" or "team2". */
  datatype Side = Team1 | Team2

  function SideName(s: Side): (n: string)
    ensures n == "team1" || n == "team2"
  {
    match s
    case Team1 => "team1"
    case Team2 => "team2"
  }

  datatype TeamInfo = TeamInfo(teamId: Option<string>, name: string, logoUrl: Option<string>, score: Option<int>)

  datatype MapResult = MapResult(
    mapNumber: int,
    mapName: string,
    team1Score: Option<int> := None,
    team2Score: Option<int> := None,
    team1CtScore: Option<int> := None,
    team1TScore: Option<int> := None,
    team2CtScore: Option<int> := None,
    team2TScore: Option<int> := None,
    winner: Option<Side> := None)

  /** A player's line; the four float statistics are kept as the text `float()` would convert. */
  datatype PlayerMatchStats = PlayerMatchStats(
    playerId: Option<string>,
    playerName: string,
    playerNick: Option<string> := None,
    country: Option<string> := None,
    teamId: Option<string> := None,
    kills: Option<int> := None,
    deaths: Option<int> := None,
    kdDiff: Option<int> := None,
    adr: Option<string> := None,
    kast: Option<string> := None,
    rating: Option<string> := None,
    swing: Option<string> := None)

  datatype TeamMatchStats = TeamMatchStats(
    teamId: Option<string>,
    teamName: string,
    teamLogoUrl: Option<string> := None,
    players: seq<PlayerMatchStats> := [])

  datatype MatchDetails = MatchDetails(
    matchId: string,
    matchUrl: Option<string>,
    team1: TeamInfo,
    team2: TeamInfo,
    eventId: Option<string> := None,
    eventName: Option<string> := None,
    eventUrl: Option<string> := None,
    date: Option<string> := None,
    timeUnix: Option<int> := None,
    matchFormat: Option<string> := None,
    formatType: Option<string> := None,
    winner: Option<Side> := None,
    finalScore: Option<string> := None,
    maps: seq<MapResult> := [],
    team1Stats: Option<TeamMatchStats> := None,
    team2Stats: Option<TeamMatchStats> := None)

  /** `maps` and `players` default to empty lists. */
  lemma ListDefaults(id: string, t1: TeamInfo, t2: TeamInfo, team: Option<string>, name: string)
    ensures MatchDetails(id, None, t1, t2).maps == []
    ensures TeamMatchStats(team, name).players == []
  {
  }

  // ---------------------------------------------------------------- validators

  /** The Python values a validator can be handed. */
  datatype PyValue = PNone | PInt(i: int) | PFloat(r: real) | PStr(s: string)

  /** `int(x)` on a float: truncation toward zero. */
  function Truncate(x: real): (n: int)
    ensures x >= 0.0 ==> n as real <= x < n as real + 1.0
    ensures x < 0.0 ==> n as real - 1.0 < x <= n as real
  {
    if x >= 0.0 then x.Floor else -((-x).Floor)
  }

  /**
   * `PlayerMatchStats.parse_kd`: None stays None, an int passes, a text
   * holding '-' is left to the service layer (None), anything else is
   * `int(v)` or None when that fails.
   */
  function CoerceKd(v: PyValue): (r: Option<int>)
    ensures v.PNone? ==> r.None?
    ensures v.PInt? ==> r == Some(v.i)
    ensures v.PStr? && '-' in v.s ==> r.None?
    ensures v.PStr? && r.Some? ==> r.value >= 0 && r == PyInt(v.s)
    ensures v.PStr? && '-' !in v.s ==> r == PyInt(v.s)
    ensures v.PFloat? ==> r == Some(Truncate(v.r))
  {
    match v
    case PNone => None
    case PInt(i) => Some(i)
    case PStr(s) =>
      if '-' in s then None
      else
        NoMinusNonNegative(s);
        PyInt(s)
    case PFloat(x) => Some(Truncate(x))
  }

  lemma NoMinusNonNegative(s: string)
    requires '-' !in s
    ensures PyInt(s).Some? ==> PyInt(s).value >= 0
  {
    var t := Trim(s);
    if |t| > 0 {
      assert t[0] in s by { TrimInside(s); }
    }
  }

  lemma TrimInside(s: string)
    requires Trim(s) != ""
    ensures forall i :: 0 <= i < |Trim(s)| ==> Trim(s)[i] in s
  {
    var r := TrimRight(s);
    TrimRightShape(s);
    assert forall i :: 0 <= i < |r| ==> r[i] == s[i];
    var t := TrimLeft(r);
    TrimLeftShape(r);
    assert forall i :: 0 <= i < |t| ==> t[i] == r[|r| - |t| + i];
  }

  /** Statistics that read "12.3", "71.4%" and the like are parsed from the text. */
  datatype FloatInput = NoFloat | AlreadyFloat(x: real) | FloatText(text: string)

  /** The text `str(v)` gives for an int or a string. */
  function StrOf(v: PyValue): string
    requires v.PInt? || v.PStr?
  {
    if v.PInt? then IntToString(v.i) else v.s
  }

  /**
   * `parse_float_stat` (adr, rating) and `parse_kast`, which share one body:
   * None stays None, a float passes, anything else is `float` of its text
   * with every '%' removed.
   */
  function PercentStat(v: PyValue): (r: FloatInput)
    ensures v.PNone? <==> r.NoFloat?
    ensures v.PFloat? <==> r.AlreadyFloat?
    ensures r.FloatText? ==> '%' !in r.text
    ensures (v.PInt? || v.PStr?) ==> r == FloatText(WithoutChar(StrOf(v), '%'))
  {
    match v
    case PNone => NoFloat
    case PFloat(x) => AlreadyFloat(x)
    case _ =>
      RemoveCharGone(StrOf(v), '%');
      RemoveCharKeepsOrder(StrOf(v), '%');
      FloatText(RemoveAll(StrOf(v), "%"))
  }

  /** A KAST of "71.4%" is read from "71.4", and an int from its digits. */
  lemma PercentExample()
    ensures PercentStat(PStr("71.4%")) == FloatText("71.4")
    ensures PercentStat(PInt(85)) == FloatText("85")
  {
    assert "71.4%"[1..] == "1.4%" && "1.4%"[1..] == ".4%" && ".4%"[1..] == "4%" && "4%"[1..] == "%";
    assert WithoutChar("%", '%') == "";
    assert WithoutChar("4%", '%') == "4";
    assert WithoutChar(".4%", '%') == ".4";
    assert WithoutChar("1.4%", '%') == "1.4";
    assert IntToString(85) == "85" by { assert NatToString(8) == "8"; }
    WithoutCharAbsent("85", '%');
  }

  /** `parse_swing`: like `PercentStat`, and every '+' is removed as well. */
  function SwingStat(v: PyValue): (r: FloatInput)
    ensures v.PNone? <==> r.NoFloat?
    ensures v.PFloat? <==> r.AlreadyFloat?
    ensures r.FloatText? ==> '%' !in r.text && '+' !in r.text
    ensures (v.PInt? || v.PStr?) ==> r == FloatText(KeepOther(StrOf(v)))
  {
    match v
    case PNone => NoFloat
    case PFloat(x) => AlreadyFloat(x)
    case _ =>
      SwingTextKeepsOrder(StrOf(v));
      FloatText(SwingText(StrOf(v)))
  }

  /** The swing text with '%' and '+' removed; every other character stays, in order. */
  function SwingText(s: string): (t: string)
    ensures '%' !in t && '+' !in t
    ensures forall c :: c != '%' && c != '+' ==> multiset(t)[c] == multiset(s)[c]
  {
    var u := RemoveAll(s, "%");
    RemoveCharGone(s, '%');
    RemoveCharGone(u, '+');
    var t := RemoveAll(u, "+");
    assert multiset(t)['%'] == multiset(u)['%'] == 0;
    t
  }

  /** Removing '%' and then '+' removes exactly those; what is left keeps its order. */
  lemma {:induction false} SwingTextKeepsOrder(s: string)
    ensures SwingText(s) == KeepOther(s)
  {
    if |s| > 0 {
      SwingTextKeepsOrder(s[1..]);
      var u := RemoveAll(s, "%");
      if s[0] == '%' {
        assert StartsWith(s, "%");
        assert u == RemoveAll(s[1..], "%");
      } else {
        assert !StartsWith(s, "%") by { assert s[..1] == [s[0]]; }
        assert u == [s[0]] + RemoveAll(s[1..], "%");
        var w := RemoveAll(s[1..], "%");
        if s[0] == '+' {
          assert StartsWith(u, "+");
          assert u[1..] == w;
        } else {
          assert !StartsWith(u, "+") by { assert u[..1] == [s[0]]; }
          assert u[1..] == w;
        }
      }
    }
  }

  /** The characters of `s` other than '%' and '+', in order. */
  function KeepOther(s: string): string {
    if |s| == 0 then ""
    else if s[0] == '%' || s[0] == '+' then KeepOther(s[1..])
    else [s[0]] + KeepOther(s[1..])
  }

  /** A swing of "+4.12%" is read from "4.12". */
  lemma SwingExample()
    ensures SwingStat(PStr("+4.12%")) == FloatText("4.12")
  {
    var s := "+4.12%";
    SwingTextKeepsOrder(s);
    assert s[1..] == "4.12%";
    assert KeepOther("%") == "";
    assert KeepOther("2%") == "2";
    assert KeepOther("12%") == "12";
    assert KeepOther(".12%") == ".12";
    assert KeepOther("4.12%") == "4.12";
  }
}
