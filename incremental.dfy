/**
 * The incremental scraper (`app/workers/incremental.py`): look at the
 * listing of the last `lookback_days` days, keep the match numbers the
 * storage does not hold yet, and fetch and save each of them.
 *
 * The storage is the CSV backend.  The network is a parameter as in the
 * historical scraper; the day is the parameter `today`; the instant the
 * i-th new match is saved at is `clock(i)`, and `fails(i)` says which
 * write of that save raises, if any.
 */
module Incremental {
  import opened Wrappers
  import opened Schema
  import Details
  import Results
  import Workers
  import Dates
  import Csv
  import StorageContract

  /** Each listed match number, where it is not held. */
  function Unheld(all: seq<string>, existing: set<string>): (r: seq<Option<string>>)
    ensures |r| == |all| && forall i :: 0 <= i < |all| ==> r[i] == if all[i] in existing then None else Some(all[i])
  {
    seq(|all|, i requires 0 <= i < |all| => if all[i] in existing then None else Some(all[i]))
  }

  /** `_get_new_match_ids`'s filter: the match numbers not held, in listing order, repeats kept. */
  function NewIds(all: seq<string>, existing: set<string>): (r: seq<string>)
    ensures |r| <= |all|
  {
    Somes(Unheld(all, existing))
  }

  /** A match number is new exactly when it is listed and not held. */
  lemma NewIdsExact(all: seq<string>, existing: set<string>, x: string)
    ensures x in NewIds(all, existing) <==> x in all && x !in existing
  {
    var xs := Unheld(all, existing);
    if x in NewIds(all, existing) {
      var k :| 0 <= k < |Somes(xs)| && Somes(xs)[k] == x;
      SomesSound(xs, k);
    }
    if x in all && x !in existing {
      var j :| 0 <= j < |all| && all[j] == x;
      SomesComplete(xs, j);
    }
  }

  /** New match numbers keep the order of the listing. */
  lemma NewIdsOrdered(all: seq<string>, existing: set<string>, a: nat, b: nat)
    requires a < b < |all| && all[a] !in existing && all[b] !in existing
    ensures exists p, q :: 0 <= p < q < |NewIds(all, existing)| && NewIds(all, existing)[p] == all[a] && NewIds(all, existing)[q] == all[b]
  {
    var xs := Unheld(all, existing);
    SomesOrder(xs, a, b);
    var p, q :| 0 <= p < q < |Somes(xs)| && Somes(xs)[p] == xs[a].value && Somes(xs)[q] == xs[b].value;
    assert NewIds(all, existing)[p] == all[a] && NewIds(all, existing)[q] == all[b];
  }

  /** The counters `update` keeps, with the storage. */
  datatype Account = Account(store: Csv.Store, scraped: nat, failed: nat, failedIds: seq<string>)

  /** What the retry loop yields for each match number. */
  function Outcome(maxRetries: int, fetch: string -> nat -> Option<Details.MatchPage>): string -> Option<MatchDetails> {
    (id: string) => Workers.RetryFrom(Workers.Attempts(id, fetch(id)), 0, maxRetries).0
  }

  /** One turn of `update`'s loop: a failed fetch is counted and listed; a record is saved and counted if the save says so. */
  function Visit(acc: Account, id: string, o: Option<MatchDetails>, now: string, failAt: Option<nat>): Account {
    match o
    case None => acc.(failed := acc.failed + 1, failedIds := acc.failedIds + [id])
    case Some(d) =>
      var (s, saved) := Csv.SaveOf(acc.store, d, now, failAt);
      acc.(store := s, scraped := if saved then acc.scraped + 1 else acc.scraped)
  }

  /** A turn with a record saves it and counts it when the save says so. */
  lemma VisitSaves(acc: Account, id: string, d: MatchDetails, now: string, failAt: Option<nat>)
    ensures var (s, saved) := Csv.SaveOf(acc.store, d, now, failAt);
      Visit(acc, id, Some(d), now, failAt) == Account(s, if saved then acc.scraped + 1 else acc.scraped, acc.failed, acc.failedIds)
  {
  }

  /** The loop over the first `n` new match numbers. */
  function UpdateLoop(acc0: Account, ids: seq<string>, n: nat, outcome: string -> Option<MatchDetails>,
                      clock: nat -> string, fails: nat -> Option<nat>): Account
    requires n <= |ids|
  {
    if n == 0 then acc0
    else Visit(UpdateLoop(acc0, ids, n - 1, outcome, clock, fails), ids[n - 1], outcome(ids[n - 1]), clock(n - 1), fails(n - 1))
  }

  /** The failed new match numbers among the first `n`, in order. */
  function Failures(ids: seq<string>, n: nat, outcome: string -> Option<MatchDetails>): (r: seq<Option<string>>)
    requires n <= |ids|
    ensures |r| == n && forall i :: 0 <= i < n ==> r[i] == if outcome(ids[i]).None? then Some(ids[i]) else None
  {
    seq(n, i requires 0 <= i < n => if outcome(ids[i]).None? then Some(ids[i]) else None)
  }

  /** A turn counts its match at most once; the storage only gains, by one per match counted as scraped. */
  lemma VisitAccounts(acc: Account, id: string, o: Option<MatchDetails>, now: string, failAt: Option<nat>)
    ensures var v := Visit(acc, id, o, now, failAt);
      && v.scraped + v.failed <= acc.scraped + acc.failed + 1
      && v.failedIds == acc.failedIds + (if o.None? then [id] else [])
      && v.failed == acc.failed + (if o.None? then 1 else 0)
      && acc.store.ids <= v.store.ids
      && |v.store.ids| == |acc.store.ids| + (v.scraped - acc.scraped)
      && acc.scraped <= v.scraped
  {
    if o.Some? {
      var (s, saved) := Csv.SaveOf(acc.store, o.value, now, failAt);
      assert StorageContract.SaveMatchContract(acc.store.ids, s.ids, o.value.matchId, saved);
    }
  }

  /**
   * Over the loop: scraped and failed together are at most the matches
   * visited; the failures are listed in order and counted; the storage
   * gains one match per match counted as scraped.
   */
  lemma {:induction false} LoopAccounts(acc0: Account, ids: seq<string>, n: nat, outcome: string -> Option<MatchDetails>,
                                        clock: nat -> string, fails: nat -> Option<nat>)
    requires n <= |ids|
    ensures var acc := UpdateLoop(acc0, ids, n, outcome, clock, fails);
      && acc.scraped + acc.failed <= acc0.scraped + acc0.failed + n
      && acc.failedIds == acc0.failedIds + Somes(Failures(ids, n, outcome))
      && acc.failed == acc0.failed + |Somes(Failures(ids, n, outcome))|
      && acc0.store.ids <= acc.store.ids
      && acc0.scraped <= acc.scraped
      && |acc.store.ids| == |acc0.store.ids| + (acc.scraped - acc0.scraped)
  {
    if n > 0 {
      var prev := UpdateLoop(acc0, ids, n - 1, outcome, clock, fails);
      var id := ids[n - 1];
      LoopAccounts(acc0, ids, n - 1, outcome, clock, fails);
      VisitAccounts(prev, id, outcome(id), clock(n - 1), fails(n - 1));
      FailuresStep(ids, n, outcome);
      assert UpdateLoop(acc0, ids, n, outcome, clock, fails) == Visit(prev, id, outcome(id), clock(n - 1), fails(n - 1));
    }
  }

  /** One more match number adds it to the failures exactly when it failed. */
  lemma FailuresStep(ids: seq<string>, n: nat, outcome: string -> Option<MatchDetails>)
    requires 0 < n <= |ids|
    ensures Somes(Failures(ids, n, outcome)) == Somes(Failures(ids, n - 1, outcome)) + (if outcome(ids[n - 1]).None? then [ids[n - 1]] else [])
  {
    var fs := Failures(ids, n, outcome);
    assert fs[..n - 1] == Failures(ids, n - 1, outcome);
    SomesStep(fs, n - 1);
    assert fs[..n] == fs;
  }

  /** `update`'s answer; Aborted is the overflow `_get_date_range` raises for a lookback past year 1. */
  datatype Summary =
    | NoUpdates
    | Updated(newMatches: nat, failedMatches: nat, failedIds: seq<string>, totalInStorage: int)
    | Aborted

  /** The match numbers `_get_new_match_ids` finds for a date window. */
  function NewIdsOf(s: Csv.Store, pages: seq<Option<Results.ListingPage>>, start: string, end: string): seq<string> {
    NewIds(Workers.Gather(pages, 0, 0, Some(start), Some(end)).ids, s.ids)
  }

  /** `update`. */
  function UpdateOf(s: Csv.Store, today: Dates.Date, lookback: int, maxRetries: int, pages: seq<Option<Results.ListingPage>>,
                    fetch: string -> nat -> Option<Details.MatchPage>, clock: nat -> string, fails: nat -> Option<nat>)
    : (Csv.Store, Summary)
    requires Dates.ValidDate(today)
  {
    match Dates.DateRange(today, lookback)
    case None => (s, Aborted)
    case Some((start, end)) =>
      var ids := NewIdsOf(s, pages, start, end);
      if ids == [] then (s, NoUpdates)
      else
        var acc := UpdateLoop(Account(s, 0, 0, []), ids, |ids|, Outcome(maxRetries, fetch), clock, fails);
        (acc.store, Updated(acc.scraped, acc.failed, acc.failedIds, |acc.store.ids|))
  }

  /**
   * No updates exactly when nothing new is listed, and then the storage is
   * untouched.  Otherwise the new matches and the failures together are at
   * most the new match numbers; the count of failures is the length of
   * their list; and the total held is what was held plus the new matches.
   */
  lemma UpdateReports(s: Csv.Store, today: Dates.Date, lookback: int, maxRetries: int, pages: seq<Option<Results.ListingPage>>,
                      fetch: string -> nat -> Option<Details.MatchPage>, clock: nat -> string, fails: nat -> Option<nat>)
    requires Dates.ValidDate(today)
    ensures var (t, sum) := UpdateOf(s, today, lookback, maxRetries, pages, fetch, clock, fails);
      && (sum.Aborted? <==> Dates.DateRange(today, lookback).None?)
      && (sum.NoUpdates? <==> Dates.DateRange(today, lookback).Some? && NewIdsOf(s, pages, Dates.DateRange(today, lookback).value.0, Dates.DateRange(today, lookback).value.1) == [])
      && (!sum.Updated? ==> t == s)
    ensures var (t, sum) := UpdateOf(s, today, lookback, maxRetries, pages, fetch, clock, fails);
      sum.Updated? ==>
        && sum.newMatches + sum.failedMatches <= |NewIdsOf(s, pages, Dates.DateRange(today, lookback).value.0, Dates.DateRange(today, lookback).value.1)|
        && sum.failedMatches == |sum.failedIds|
        && s.ids <= t.ids
        && sum.totalInStorage == |t.ids| == |s.ids| + sum.newMatches
  {
    if Dates.DateRange(today, lookback).Some? {
      var (start, end) := Dates.DateRange(today, lookback).value;
      var ids := NewIdsOf(s, pages, start, end);
      if ids != [] {
        LoopAccounts(Account(s, 0, 0, []), ids, |ids|, Outcome(maxRetries, fetch), clock, fails);
      }
    }
  }

  /** The incremental scraper over a CSV storage. */
  class IncrementalScraper {
    const storage: Csv.CsvStorage
    const maxRetries: int
    const lookbackDays: int

    constructor(storage: Csv.CsvStorage, maxRetries: int, lookbackDays: int)
      ensures this.storage == storage && this.maxRetries == maxRetries && this.lookbackDays == lookbackDays
    {
      this.storage := storage;
      this.maxRetries := maxRetries;
      this.lookbackDays := lookbackDays;
    }

    /** `_get_new_match_ids` over the window `start`..`end`. */
    method GetNewMatchIds(pages: seq<Option<Results.ListingPage>>, start: string, end: string) returns (ids: seq<string>)
      ensures ids == NewIdsOf(storage.State(), pages, start, end)
    {
      var held := storage.GetScrapedMatchIds();
      var existing := set x | x in held;
      assert existing == storage.matchIds;
      var g := Workers.GatherIds(pages, 0, Some(start), Some(end));
      ids := NewIds(g.ids, existing);
    }

    /** One turn of `update`'s loop, for match `id`. */
    method UpdateOne(id: string, fetch: string -> nat -> Option<Details.MatchPage>, now: string, failAt: Option<nat>,
                     scraped0: nat, failed0: nat, failedIds0: seq<string>) returns (scraped: nat, failed: nat, failedIds: seq<string>)
      modifies storage
      ensures Account(storage.State(), scraped, failed, failedIds)
        == Visit(Account(old(storage.State()), scraped0, failed0, failedIds0), id, Outcome(maxRetries, fetch)(id), now, failAt)
    {
      scraped, failed, failedIds := scraped0, failed0, failedIds0;
      ghost var acc := Account(storage.State(), scraped0, failed0, failedIds0);
      var data, _ := Workers.ScrapeWithRetry(id, fetch(id), maxRetries);
      assert data == Outcome(maxRetries, fetch)(id);
      if data.Some? {
        var saved := storage.SaveMatch(data.value, now, failAt);
        VisitSaves(acc, id, data.value, now, failAt);
        if saved {
          scraped := scraped + 1;
        }
      } else {
        failed := failed + 1;
        failedIds := failedIds + [id];
      }
    }

    /** `update`. */
    method Update(today: Dates.Date, pages: seq<Option<Results.ListingPage>>, fetch: string -> nat -> Option<Details.MatchPage>,
                  clock: nat -> string, fails: nat -> Option<nat>) returns (summary: Summary)
      requires Dates.ValidDate(today)
      modifies storage
      ensures (storage.State(), summary) == UpdateOf(old(storage.State()), today, lookbackDays, maxRetries, pages, fetch, clock, fails)
    {
      var range := Dates.DateRange(today, lookbackDays);
      if range.None? {
        return Aborted;
      }
      var (start, end) := range.value;
      var ids := GetNewMatchIds(pages, start, end);
      if ids == [] {
        return NoUpdates;
      }
      ghost var acc0 := Account(storage.State(), 0, 0, []);
      var scraped, failed := 0, 0;
      var failedIds: seq<string> := [];
      for i := 0 to |ids|
        invariant Account(storage.State(), scraped, failed, failedIds) == UpdateLoop(acc0, ids, i, Outcome(maxRetries, fetch), clock, fails)
      {
        scraped, failed, failedIds := UpdateOne(ids[i], fetch, clock(i), fails(i), scraped, failed, failedIds);
      }
      var total := storage.GetMatchCount();
      summary := Updated(scraped, failed, failedIds, total);
    }
  }
}
