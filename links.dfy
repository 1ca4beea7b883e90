/**
 * Numeric identifiers embedded in site paths.  The source finds them with
 * `re.search(r'/team/(\d+)/', url)` and its siblings for players, events
 * (`/events?/`) and matches; here a search is the leftmost position where a
 * path prefix is followed by a run of digits and a closing '/'.
 */
module Links {
  import opened Wrappers
  import opened Strings

  /** The site every relative link is resolved against. */
  const SiteRoot: string := "https://www.hltv.org"

  const TeamPrefixes: seq<string> := ["/team/"]
  const PlayerPrefixes: seq<string> := ["/player/"]
  /** `/events?/`: the plural is tried first, as the greedy `s?` does. */
  const EventPrefixes: seq<string> := ["/events/", "/event/"]
  const MatchPrefixes: seq<string> := ["/matches/"]

  /** The length of the run of digits that starts at `j`. */
  function DigitRun(s: string, j: nat): (n: nat)
    requires j <= |s|
    ensures j + n <= |s|
    ensures forall k :: j <= k < j + n ==> IsDigit(s[k])
    ensures j + n < |s| ==> !IsDigit(s[j + n])
    decreases |s| - j
  {
    if j < |s| && IsDigit(s[j]) then 1 + DigitRun(s, j + 1) else 0
  }

  /** At position `i`, `s` reads `prefix`, then the non-empty digit string `d`, then '/'. */
  predicate DelimitedAt(s: string, i: nat, prefix: string, d: string) {
    && d != "" && AllDigits(d)
    && i + |prefix| + |d| < |s|
    && s[i..i + |prefix|] == prefix
    && s[i + |prefix|..i + |prefix| + |d|] == d
    && s[i + |prefix| + |d|] == '/'
  }

  /** The pattern `prefix(\d+)/` matched at position `i`, giving the digits. */
  function IdAt(s: string, i: nat, prefix: string): (r: Option<string>)
    ensures r.Some? ==> DelimitedAt(s, i, prefix, r.value)
  {
    if i + |prefix| <= |s| && s[i..i + |prefix|] == prefix then
      var j := i + |prefix|;
      var n := DigitRun(s, j);
      if n > 0 && j + n < |s| && s[j + n] == '/' then Some(s[j..j + n]) else None
    else None
  }

  /** The digits between a prefix and the next '/' are determined by the position. */
  lemma IdAtComplete(s: string, i: nat, prefix: string, d: string)
    requires DelimitedAt(s, i, prefix, d)
    ensures IdAt(s, i, prefix) == Some(d)
  {
    var j := i + |prefix|;
    var n := DigitRun(s, j);
    if |d| != n {
      assert false;
    }
  }

  /** The first of `prefixes` that matches at `i`, in order. */
  function IdAtAny(s: string, i: nat, prefixes: seq<string>): (r: Option<string>)
    ensures r.Some? ==> exists k :: 0 <= k < |prefixes| && DelimitedAt(s, i, prefixes[k], r.value)
  {
    if |prefixes| == 0 then None
    else
      match IdAt(s, i, prefixes[0])
      case Some(d) => assert DelimitedAt(s, i, prefixes[0], d); Some(d)
      case None =>
        var r := IdAtAny(s, i, prefixes[1..]);
        if r.Some? then
          var k :| 0 <= k < |prefixes[1..]| && DelimitedAt(s, i, prefixes[1..][k], r.value);
          assert DelimitedAt(s, i, prefixes[k + 1], r.value);
          r
        else r
  }

  lemma {:induction false} IdAtAnyComplete(s: string, i: nat, prefixes: seq<string>, k: nat, d: string)
    requires k < |prefixes| && DelimitedAt(s, i, prefixes[k], d)
    ensures IdAtAny(s, i, prefixes).Some?
  {
    if k == 0 {
      IdAtComplete(s, i, prefixes[0], d);
    } else if IdAt(s, i, prefixes[0]).None? {
      IdAtAnyComplete(s, i, prefixes[1..], k - 1, d);
    }
  }

  /** `re.search`: the leftmost position at or after `i` where some prefix matches. */
  function SearchFrom(s: string, prefixes: seq<string>, i: nat): (r: Option<(nat, string)>)
    ensures r.Some? ==> i <= r.value.0 && IdAtAny(s, r.value.0, prefixes) == Some(r.value.1)
    ensures r.Some? ==> forall k :: i <= k < r.value.0 ==> IdAtAny(s, k, prefixes).None?
    ensures r.None? ==> forall k :: i <= k ==> IdAtAny(s, k, prefixes).None?
    decreases |s| - i
  {
    if i >= |s| then
      NoMatchPastEnd(s, prefixes, i);
      None
    else
      match IdAtAny(s, i, prefixes)
      case Some(d) => Some((i, d))
      case None =>
        var r := SearchFrom(s, prefixes, i + 1);
        r
  }

  lemma {:induction false} NoMatchPastEnd(s: string, prefixes: seq<string>, i: nat)
    requires i >= |s|
    ensures forall k :: i <= k ==> IdAtAny(s, k, prefixes).None?
    decreases |prefixes|
  {
    if |prefixes| > 0 {
      NoMatchPastEnd(s, prefixes[1..], i);
    }
  }

  /** One of the source's `_extract_*_id` helpers: None for a missing or empty URL or no match. */
  function ExtractId(url: Option<string>, prefixes: seq<string>): (r: Option<string>)
    ensures r.Some? ==> Truthy(url) && r.value != "" && AllDigits(r.value)
    ensures r.Some? ==> exists i: nat, k :: 0 <= k < |prefixes| && DelimitedAt(url.value, i, prefixes[k], r.value)
  {
    if !Truthy(url) then None
    else
      match SearchFrom(url.value, prefixes, 0)
      case Some(hit) => Some(hit.1)
      case None => None
  }

  function TeamId(url: Option<string>): Option<string> { ExtractId(url, TeamPrefixes) }
  function PlayerId(url: Option<string>): Option<string> { ExtractId(url, PlayerPrefixes) }
  function EventId(url: Option<string>): Option<string> { ExtractId(url, EventPrefixes) }
  function MatchId(url: Option<string>): Option<string> { ExtractId(url, MatchPrefixes) }

  /** Whenever some position of a URL matches one of the prefixes, an identifier is returned. */
  lemma ExtractIdComplete(url: string, prefixes: seq<string>, i: nat, k: nat, d: string)
    requires k < |prefixes| && DelimitedAt(url, i, prefixes[k], d)
    ensures ExtractId(Some(url), prefixes).Some?
  {
    IdAtAnyComplete(url, i, prefixes, k, d);
  }

  /** A match at `i` starts with the prefix. */
  lemma IdAtHead(s: string, i: nat, prefix: string)
    requires IdAt(s, i, prefix).Some? && |prefix| >= 2
    ensures i + 1 < |s| && s[i] == prefix[0] && s[i + 1] == prefix[1]
  {
    assert s[i..i + |prefix|][0] == s[i] && s[i..i + |prefix|][1] == s[i + 1];
  }

  /** The first prefix matching at `p`, with no match anywhere before `p`, gives the identifier. */
  lemma ExtractIdAt(url: string, p: nat, prefixes: seq<string>, d: string)
    requires |prefixes| > 0 && DelimitedAt(url, p, prefixes[0], d)
    requires forall k: nat :: k < p ==> IdAtAny(url, k, prefixes).None?
    ensures ExtractId(Some(url), prefixes) == Some(d)
  {
    IdAtComplete(url, p, prefixes[0], d);
    assert IdAtAny(url, p, prefixes) == Some(d);
    var r := SearchFrom(url, prefixes, 0);
    assert r.Some?;
    assert r.value.0 == p;
  }

  /** The plural event path gives the event's digits. */
  lemma EventIdOfPlural(d: string, rest: string)
    requires d != "" && AllDigits(d)
    ensures EventId(Some("/events/" + d + "/" + rest)) == Some(d)
  {
    ExtractIdOfPrefix(EventPrefixes, "/events/", d, rest);
  }

  /** The singular event path gives the event's digits: "/events/" cannot match at its start. */
  lemma EventIdOfSingular(d: string, rest: string)
    requires d != "" && AllDigits(d)
    ensures EventId(Some("/event/" + d + "/" + rest)) == Some(d)
  {
    var url := "/event/" + d + "/" + rest;
    assert url[6] == '/';
    if 8 <= |url| {
      assert url[..8][6] == '/' != "/events/"[6];
    }
    assert IdAt(url, 0, "/events/").None?;
    ExtractIdOfPrefix(EventPrefixes[1..], "/event/", d, rest);
    assert IdAtAny(url, 0, EventPrefixes) == IdAtAny(url, 0, EventPrefixes[1..]);
  }

  /** When the first prefix tried at position 0 is `p`, the URL's digits after `p` are the identifier. */
  lemma ExtractIdOfPrefix(prefixes: seq<string>, p: string, d: string, rest: string)
    requires |prefixes| > 0 && prefixes[0] == p
    requires d != "" && AllDigits(d)
    ensures IdAtAny(p + d + "/" + rest, 0, prefixes) == Some(d)
    ensures ExtractId(Some(p + d + "/" + rest), prefixes) == Some(d)
  {
    var url := p + d + "/" + rest;
    assert url[..|p|] == p;
    assert url[|p|..|p| + |d|] == d;
    assert DelimitedAt(url, 0, p, d);
    IdAtComplete(url, 0, p, d);
  }
}
