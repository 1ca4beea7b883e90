/**
 * The two steps both scraping workers share (`app/workers/scraper.py` and
 * `app/workers/incremental.py` carry identical copies): fetching one match
 * with retries, and walking the result listing page by page.
 *
 * The network is a parameter.  `fetch(k)` is the page the k-th attempt
 * downloads, None when the download raises; `pages[k]` is the listing the
 * k-th listing request yields, None when it raises, and a request past the
 * end of `pages` raises too.  Sleeping is recorded as the list of waits.
 */
module Workers {
  import opened Wrappers
  import opened Strings
  import opened Schema
  import Results
  import Details

  // ---------------------------------------------------------------- one match, with retries

  /** Attempt `k` for match `id`: the record, or None where the download or `get_match_details` raises. */
  function Try(id: string, fetch: nat -> Option<Details.MatchPage>, k: nat): (r: Option<MatchDetails>)
    ensures r.Some? ==> r.value.matchId == id
  {
    match fetch(k)
    case None => None
    case Some(page) => Details.MatchDetailsOf(id, page)
  }

  /** What each attempt for match `id` yields. */
  function Attempts(id: string, fetch: nat -> Option<Details.MatchPage>): nat -> Option<MatchDetails> {
    (k: nat) => Try(id, fetch, k)
  }

  /**
   * `_scrape_match_with_retry` from attempt `k` on, where `attempts(a)` is
   * what attempt `a` yields: the first record, and the waits made, one
   * after every failed attempt but the last.  A wait is recorded as its
   * multiple of the delay, `attempt + 1`, so the wait lasts
   * `delay_seconds * (attempt + 1)`.
   */
  function RetryFrom(attempts: nat -> Option<MatchDetails>, k: nat, maxRetries: int)
    : (r: (Option<MatchDetails>, seq<nat>))
    decreases maxRetries - k
  {
    if k >= maxRetries then (None, [])
    else
      match attempts(k)
      case Some(d) => (Some(d), [])
      case None =>
        var rest := RetryFrom(attempts, k + 1, maxRetries);
        (rest.0, (if k < maxRetries - 1 then [k + 1] else []) + rest.1)
  }

  /** The first attempt in `[k, maxRetries)` that yields a record. */
  function FirstSuccess(attempts: nat -> Option<MatchDetails>, k: nat, maxRetries: int): (j: Option<nat>)
    ensures j.Some? ==> k <= j.value < maxRetries && attempts(j.value).Some?
    ensures j.Some? ==> forall a: nat :: k <= a < j.value ==> attempts(a).None?
    ensures j.None? ==> forall a: nat :: k <= a < maxRetries ==> attempts(a).None?
    decreases maxRetries - k
  {
    if k >= maxRetries then None
    else if attempts(k).Some? then Some(k)
    else FirstSuccess(attempts, k + 1, maxRetries)
  }

  /** The waits after attempts `k, k + 1, ...` before attempt `n`, as multiples `k + 1, k + 2, ...` of the delay. */
  function Waits(k: nat, n: nat): (w: seq<nat>)
    ensures |w| == if n > k then n - k else 0
    ensures forall i :: 0 <= i < |w| ==> w[i] == k + i + 1
    decreases n - k
  {
    if n <= k then [] else [k + 1] + Waits(k + 1, n)
  }

  /**
   * The retry loop returns the record of the first attempt that succeeds,
   * after waiting once per earlier attempt; when all `maxRetries` attempts
   * fail it returns None having waited after all but the last.
   */
  lemma {:induction false} RetryCharacterised(attempts: nat -> Option<MatchDetails>, k: nat, maxRetries: int)
    ensures var r := RetryFrom(attempts, k, maxRetries);
      match FirstSuccess(attempts, k, maxRetries)
      case Some(j) => r == (attempts(j), Waits(k, j))
      case None => r == (None, Waits(k, if maxRetries - 1 > k then maxRetries - 1 else k))
    decreases maxRetries - k
  {
    if k < maxRetries && attempts(k).None? {
      RetryCharacterised(attempts, k + 1, maxRetries);
      var j := FirstSuccess(attempts, k + 1, maxRetries);
      assert FirstSuccess(attempts, k, maxRetries) == j;
      var rest := RetryFrom(attempts, k + 1, maxRetries);
      assert RetryFrom(attempts, k, maxRetries)
        == (rest.0, (if k < maxRetries - 1 then [k + 1] else []) + rest.1);
      if j.Some? {
        assert Waits(k, j.value) == [k + 1] + Waits(k + 1, j.value);
        assert RetryFrom(attempts, k, maxRetries) == (attempts(j.value), Waits(k, j.value));
      } else if k < maxRetries - 1 {
        assert Waits(k, maxRetries - 1) == [k + 1] + Waits(k + 1, maxRetries - 1);
        assert RetryFrom(attempts, k, maxRetries) == (None, Waits(k, maxRetries - 1));
      } else {
        assert rest == (None, []);
        assert Waits(k, k) == [];
        assert RetryFrom(attempts, k, maxRetries).1 == [];
      }
    } else if k < maxRetries {
      assert FirstSuccess(attempts, k, maxRetries) == Some(k);
      assert Waits(k, k) == [];
    } else {
      assert FirstSuccess(attempts, k, maxRetries) == None;
      assert Waits(k, k) == [];
    }
  }

  /** A record is returned exactly when some attempt below `maxRetries` succeeds, and it is that match's. */
  lemma RetrySucceeds(id: string, fetch: nat -> Option<Details.MatchPage>, maxRetries: int)
    ensures RetryFrom(Attempts(id, fetch), 0, maxRetries).0.Some? <==>
      exists a: nat :: a < maxRetries && Try(id, fetch, a).Some?
    ensures RetryFrom(Attempts(id, fetch), 0, maxRetries).0.Some? ==>
      RetryFrom(Attempts(id, fetch), 0, maxRetries).0.value.matchId == id
  {
    var at := Attempts(id, fetch);
    RetryCharacterised(at, 0, maxRetries);
    var j := FirstSuccess(at, 0, maxRetries);
    if j.Some? {
      assert at(j.value) == Try(id, fetch, j.value);
    } else {
      forall a: nat | a < maxRetries
        ensures Try(id, fetch, a).None?
      {
        assert at(a) == Try(id, fetch, a);
      }
    }
  }

  lemma WaitsSnoc(k: nat, n: nat)
    requires k <= n
    ensures Waits(k, n + 1) == Waits(k, n) + [n + 1]
  {
    assert Waits(k, n + 1)[..n - k] == Waits(k, n);
  }

  /** `_scrape_match_with_retry`: each attempt downloads the page and builds the record. */
  method ScrapeWithRetry(id: string, fetch: nat -> Option<Details.MatchPage>, maxRetries: int)
    returns (r: Option<MatchDetails>, waits: seq<nat>)
    ensures (r, waits) == RetryFrom(Attempts(id, fetch), 0, maxRetries)
  {
    r, waits := RetryLoop(id, fetch, maxRetries, Attempts(id, fetch));
  }

  /** `attempts` says what each attempt for match `id` yields. */
  ghost predicate AttemptsAre(attempts: nat -> Option<MatchDetails>, id: string, fetch: nat -> Option<Details.MatchPage>) {
    forall k: nat {:trigger Try(id, fetch, k)} :: attempts(k) == Try(id, fetch, k)
  }

  /** The attempts loop of `_scrape_match_with_retry`, for attempts described by `attempts`. */
  method RetryLoop(id: string, fetch: nat -> Option<Details.MatchPage>, maxRetries: int,
                   ghost attempts: nat -> Option<MatchDetails>)
    returns (r: Option<MatchDetails>, waits: seq<nat>)
    requires AttemptsAre(attempts, id, fetch)
    ensures (r, waits) == RetryFrom(attempts, 0, maxRetries)
  {
    waits := [];
    var attempt: nat := 0;
    assert waits + RetryFrom(attempts, 0, maxRetries).1 == RetryFrom(attempts, 0, maxRetries).1;
    while attempt < maxRetries
      invariant RetryFrom(attempts, 0, maxRetries)
        == (RetryFrom(attempts, attempt, maxRetries).0, waits + RetryFrom(attempts, attempt, maxRetries).1)
      decreases maxRetries - attempt
    {
      var data := AttemptOnce(id, fetch, attempt, attempts);
      if data.Some? {
        assert RetryFrom(attempts, attempt, maxRetries) == (data, []);
        assert waits + [] == waits;
        return data, waits;
      }
      RetryFailed(attempts, attempt, maxRetries, waits);
      if attempt < maxRetries - 1 {
        waits := waits + [attempt + 1];
      }
      attempt := attempt + 1;
    }
    assert RetryFrom(attempts, attempt, maxRetries) == (None, []);
    assert waits + [] == waits;
    r := None;
  }

  /** After a failed attempt `k`, the retry from `k` is the wait then the retry from `k + 1`. */
  lemma RetryFailed(attempts: nat -> Option<MatchDetails>, k: nat, maxRetries: int, waits: seq<nat>)
    requires k < maxRetries && attempts(k).None?
    ensures var next := RetryFrom(attempts, k + 1, maxRetries);
      var gap := if k < maxRetries - 1 then [k + 1] else [];
      (RetryFrom(attempts, k, maxRetries).0, waits + RetryFrom(attempts, k, maxRetries).1)
        == (next.0, (waits + gap) + next.1)
  {
    var next := RetryFrom(attempts, k + 1, maxRetries);
    var gap := if k < maxRetries - 1 then [k + 1] else [];
    assert RetryFrom(attempts, k, maxRetries) == (next.0, gap + next.1);
    assert waits + (gap + next.1) == (waits + gap) + next.1;
  }

  /** One attempt: download the page, then build the record from it. */
  method AttemptOnce(id: string, fetch: nat -> Option<Details.MatchPage>, k: nat,
                     ghost attempts: nat -> Option<MatchDetails>)
    returns (data: Option<MatchDetails>)
    requires AttemptsAre(attempts, id, fetch)
    ensures data == Try(id, fetch, k) && data == attempts(k)
  {
    data := None;
    var page := fetch(k);
    if page.Some? {
      data := Details.GetMatchDetails(id, page.value);
    }
  }

  // ---------------------------------------------------------------- the listing, page by page

  /** The identifiers collected and the offsets requested, in order. */
  datatype Paging = Paging(ids: seq<string>, requests: seq<int>)

  /**
   * The paging loop of `_get_all_match_ids` / `_get_new_match_ids` from
   * request `k` at `offset`: take the page's match numbers, and go on at
   * the next offset while the page says there is more; a request that
   * raises ends the walk, keeping what was collected.
   */
  function Gather(pages: seq<Option<Results.ListingPage>>, k: nat, offset: int, start: Option<string>, end: Option<string>)
    : (g: Paging)
    ensures |g.requests| >= 1 && g.requests[0] == offset
    decreases |pages| - k
  {
    if k >= |pages| || pages[k].None? then Paging([], [offset])
    else
      var r := Results.ResultsOf(pages[k].value, offset, start, end);
      if r.hasMore then
        var rest := Gather(pages, k + 1, r.nextOffset.value, start, end);
        Paging(Results.MatchIds(r) + rest.ids, [offset] + rest.requests)
      else Paging(Results.MatchIds(r), [offset])
  }

  /** The i-th request asks for the offset `offset + 100 * i`, and there is at most one request per page and one more. */
  lemma GatherOffsets(pages: seq<Option<Results.ListingPage>>, k: nat, offset: int, start: Option<string>, end: Option<string>)
    requires k <= |pages|
    ensures |Gather(pages, k, offset, start, end).requests| <= |pages| - k + 1
    ensures forall i :: 0 <= i < |Gather(pages, k, offset, start, end).requests| ==>
      Gather(pages, k, offset, start, end).requests[i] == offset + Results.PageSize * i
  {
    GatherRequestCount(pages, k, offset, start, end);
    GatherRequestOffsets(pages, k, offset, start, end);
  }

  /** At most one request per page and one more. */
  lemma {:induction false} GatherRequestCount(pages: seq<Option<Results.ListingPage>>, k: nat, offset: int, start: Option<string>, end: Option<string>)
    requires k <= |pages|
    ensures |Gather(pages, k, offset, start, end).requests| <= |pages| - k + 1
    decreases |pages| - k
  {
    if k < |pages| && pages[k].Some? {
      var r := Results.ResultsOf(pages[k].value, offset, start, end);
      if r.hasMore {
        GatherRequestCount(pages, k + 1, r.nextOffset.value, start, end);
      }
    }
  }

  /** The i-th request asks for the offset `offset + 100 * i`. */
  lemma {:induction false} GatherRequestOffsets(pages: seq<Option<Results.ListingPage>>, k: nat, offset: int, start: Option<string>, end: Option<string>)
    ensures forall i :: 0 <= i < |Gather(pages, k, offset, start, end).requests| ==>
      Gather(pages, k, offset, start, end).requests[i] == offset + Results.PageSize * i
    decreases |pages| - k
  {
    if k < |pages| && pages[k].Some? {
      var r := Results.ResultsOf(pages[k].value, offset, start, end);
      if r.hasMore {
        GatherRequestOffsets(pages, k + 1, r.nextOffset.value, start, end);
      }
    }
  }

  /** Every collected identifier is a match number. */
  lemma {:induction false} GatherNumeric(pages: seq<Option<Results.ListingPage>>, k: nat, offset: int, start: Option<string>, end: Option<string>)
    ensures forall i :: 0 <= i < |Gather(pages, k, offset, start, end).ids| ==>
      Gather(pages, k, offset, start, end).ids[i] != "" && AllDigits(Gather(pages, k, offset, start, end).ids[i])
    decreases |pages| - k
  {
    if k < |pages| && pages[k].Some? {
      var r := Results.ResultsOf(pages[k].value, offset, start, end);
      Results.MatchIdsNumeric(pages[k].value, offset, start, end);
      if r.hasMore {
        GatherNumeric(pages, k + 1, r.nextOffset.value, start, end);
        var a, b := Results.MatchIds(r), Gather(pages, k + 1, r.nextOffset.value, start, end).ids;
        NumericConcat(a, b);
        assert Gather(pages, k, offset, start, end).ids == a + b;
      }
    }
  }

  lemma NumericConcat(a: seq<string>, b: seq<string>)
    requires forall i :: 0 <= i < |a| ==> a[i] != "" && AllDigits(a[i])
    requires forall i :: 0 <= i < |b| ==> b[i] != "" && AllDigits(b[i])
    ensures forall i :: 0 <= i < |a + b| ==> (a + b)[i] != "" && AllDigits((a + b)[i])
  {
    forall i | 0 <= i < |a + b|
      ensures (a + b)[i] != "" && AllDigits((a + b)[i])
    {
      if i < |a| {
        assert (a + b)[i] == a[i];
      } else {
        assert (a + b)[i] == b[i - |a|];
      }
    }
  }

  /**
   * The walk asks for another page only after a page that said there is
   * more: every request but the last got an answer with `has_more` set,
   * and that page's match numbers begin what is collected from it on.
   */
  lemma {:induction false} GatherContinues(pages: seq<Option<Results.ListingPage>>, k: nat, offset: int, start: Option<string>, end: Option<string>)
    ensures var g := Gather(pages, k, offset, start, end);
      |g.requests| > 1 ==> (
        && k < |pages| && pages[k].Some?
        && Results.ResultsOf(pages[k].value, offset, start, end).hasMore
        && Results.MatchIds(Results.ResultsOf(pages[k].value, offset, start, end)) <= g.ids)
    ensures var g := Gather(pages, k, offset, start, end);
      |g.requests| == 1 ==> (
        g.ids == if k < |pages| && pages[k].Some? then Results.MatchIds(Results.ResultsOf(pages[k].value, offset, start, end)) else [])
  {
    if k < |pages| && pages[k].Some? {
      var r := Results.ResultsOf(pages[k].value, offset, start, end);
      if r.hasMore {
        assert |Gather(pages, k + 1, r.nextOffset.value, start, end).requests| >= 1;
      }
    }
  }

  /** One page of the walk: its match numbers, then the rest of the walk if it says there is more. */
  lemma GatherAdvance(pages: seq<Option<Results.ListingPage>>, k: nat, offset: int, start: Option<string>, end: Option<string>,
                      r: Results.ResultsResponse, whole: Paging, ids: seq<string>, requests: seq<int>)
    requires k < |pages| && pages[k].Some? && r == Results.ResultsOf(pages[k].value, offset, start, end)
    requires whole.ids == ids + Gather(pages, k, offset, start, end).ids
    requires whole.requests == requests + Gather(pages, k, offset, start, end).requests
    ensures r.hasMore ==> whole.ids == (ids + Results.MatchIds(r)) + Gather(pages, k + 1, r.nextOffset.value, start, end).ids
    ensures r.hasMore ==> whole.requests == (requests + [offset]) + Gather(pages, k + 1, r.nextOffset.value, start, end).requests
    ensures !r.hasMore ==> whole == Paging(ids + Results.MatchIds(r), requests + [offset])
  {
    if r.hasMore {
      var next := Gather(pages, k + 1, r.nextOffset.value, start, end);
      assert Gather(pages, k, offset, start, end) == Paging(Results.MatchIds(r) + next.ids, [offset] + next.requests);
      assert ids + (Results.MatchIds(r) + next.ids) == (ids + Results.MatchIds(r)) + next.ids;
      assert requests + ([offset] + next.requests) == (requests + [offset]) + next.requests;
    } else {
      assert Gather(pages, k, offset, start, end) == Paging(Results.MatchIds(r), [offset]);
    }
  }

  /** The paging loop itself, calling `get_results` for each page. */
  method GatherIds(pages: seq<Option<Results.ListingPage>>, offset0: int, start: Option<string>, end: Option<string>)
    returns (g: Paging)
    ensures g == Gather(pages, 0, offset0, start, end)
  {
    ghost var whole := Gather(pages, 0, offset0, start, end);
    var ids: seq<string> := [];
    var requests: seq<int> := [];
    var offset := offset0;
    var hasMore := true;
    var k := 0;
    while hasMore
      invariant k <= |pages|
      invariant hasMore ==> whole.ids == ids + Gather(pages, k, offset, start, end).ids
      invariant hasMore ==> whole.requests == requests + Gather(pages, k, offset, start, end).requests
      invariant !hasMore ==> whole == Paging(ids, requests)
      decreases |pages| - k, hasMore
    {
      if k >= |pages| || pages[k].None? {
        assert Gather(pages, k, offset, start, end) == Paging([], [offset]);
        requests := requests + [offset];
        hasMore := false;
      } else {
        var r := Results.GetResults(pages[k].value, offset, start, end);
        GatherAdvance(pages, k, offset, start, end, r, whole, ids, requests);
        ids := ids + Results.MatchIds(r);
        requests := requests + [offset];
        hasMore := r.hasMore;
        if hasMore {
          offset := r.nextOffset.value;
          k := k + 1;
        }
      }
    }
    g := Paging(ids, requests);
  }
}
