/**
 * The historical scraper (`app/workers/scraper.py`): collect every match
 * number of the listing from the checkpointed offset on, then fetch each
 * match with retries.  The scraper keeps a checkpoint of its progress in a
 * JSON file so that an interrupted run can resume.
 *
 * The network is a parameter: `pages` are the listing answers and
 * `fetch(id)(k)` is the page attempt `k` downloads for match `id`.  The
 * clock is a parameter too: `_load_progress` reads the instant `now`, and
 * the n-th checkpoint write reads `clock(n)`.  The two optional callbacks
 * are recorded as the lists of what they were handed.
 */
module Scraper {
  import opened Wrappers
  import opened Schema
  import Details
  import Results
  import Workers

  // ---------------------------------------------------------------- the checkpoint

  /** `ScraperProgress`. */
  datatype Progress = Progress(
    startDate: Option<string>,
    endDate: Option<string>,
    currentOffset: int,
    totalMatchesFound: int,
    totalMatchesScraped: int,
    failedMatches: seq<string>,
    lastMatchId: Option<string>,
    startedAt: Option<string>,
    lastUpdated: Option<string>,
    completed: bool)

  /** The progress a run starts from when there is nothing to resume. */
  function Fresh(start: Option<string>, end: Option<string>, now: string): Progress {
    Progress(start, end, 0, 0, 0, [], None, Some(now), None, false)
  }

  /** The JSON values a checkpoint holds. */
  datatype Json = JNull | JBool(b: bool) | JInt(i: int) | JStr(s: string) | JList(items: seq<Json>)

  /** The ten keys of a checkpoint. */
  const Keys: set<string> := {"start_date", "end_date", "current_offset", "total_matches_found",
    "total_matches_scraped", "failed_matches", "last_match_id", "started_at", "last_updated", "completed"}

  function OptJson(o: Option<string>): Json {
    match o
    case None => JNull
    case Some(s) => JStr(s)
  }

  function StrsJson(xs: seq<string>): (r: seq<Json>)
    ensures |r| == |xs| && forall i :: 0 <= i < |xs| ==> r[i] == JStr(xs[i])
  {
    seq(|xs|, i requires 0 <= i < |xs| => JStr(xs[i]))
  }

  /** `to_dict`: one entry per field. */
  function ToDict(p: Progress): (d: map<string, Json>) {
    map[
      "start_date" := OptJson(p.startDate),
      "end_date" := OptJson(p.endDate),
      "current_offset" := JInt(p.currentOffset),
      "total_matches_found" := JInt(p.totalMatchesFound),
      "total_matches_scraped" := JInt(p.totalMatchesScraped),
      "failed_matches" := JList(StrsJson(p.failedMatches)),
      "last_match_id" := OptJson(p.lastMatchId),
      "started_at" := OptJson(p.startedAt),
      "last_updated" := OptJson(p.lastUpdated),
      "completed" := JBool(p.completed)]
  }

  /** A written checkpoint holds exactly the ten keys. */
  lemma ToDictKeys(p: Progress)
    ensures ToDict(p).Keys == Keys
  {
  }

  /** `data.get(key)` for an optional text field: absent and null are None. */
  function OptAt(d: map<string, Json>, key: string): Option<Option<string>> {
    if key !in d then Some(None)
    else
      match d[key]
      case JNull => Some(None)
      case JStr(s) => Some(Some(s))
      case _ => None
  }

  /** `data.get(key, dflt)` for a number. */
  function IntAt(d: map<string, Json>, key: string, dflt: int): Option<int> {
    if key !in d then Some(dflt)
    else if d[key].JInt? then Some(d[key].i)
    else None
  }

  /** `data.get(key, dflt)` for a flag. */
  function BoolAt(d: map<string, Json>, key: string, dflt: bool): Option<bool> {
    if key !in d then Some(dflt)
    else if d[key].JBool? then Some(d[key].b)
    else None
  }

  /** A JSON list of texts. */
  function StrsOf(items: seq<Json>): (r: Option<seq<string>>)
    ensures r.Some? ==> |r.value| == |items| && forall i :: 0 <= i < |items| ==> items[i] == JStr(r.value[i])
    ensures r.None? ==> exists i :: 0 <= i < |items| && !items[i].JStr?
  {
    if items == [] then Some([])
    else
      match StrsOf(items[..|items| - 1])
      case None => None
      case Some(init) =>
        if items[|items| - 1].JStr? then Some(init + [items[|items| - 1].s]) else None
  }

  /** `data.get(key, [])` for the list of failed match numbers. */
  function ListAt(d: map<string, Json>, key: string): Option<seq<string>> {
    if key !in d then Some([])
    else if d[key].JList? then StrsOf(d[key].items)
    else None
  }

  /**
   * `from_dict`: every field from its key, with the defaults of the
   * dataclass where the key is missing; other keys are ignored.  A value of
   * the wrong JSON type makes the checkpoint unusable (None).
   */
  function FromDict(d: map<string, Json>): Option<Progress> {
    var startDate := OptAt(d, "start_date");
    var endDate := OptAt(d, "end_date");
    var offset := IntAt(d, "current_offset", 0);
    var found := IntAt(d, "total_matches_found", 0);
    var scraped := IntAt(d, "total_matches_scraped", 0);
    var failed := ListAt(d, "failed_matches");
    var lastId := OptAt(d, "last_match_id");
    var startedAt := OptAt(d, "started_at");
    var lastUpdated := OptAt(d, "last_updated");
    var completed := BoolAt(d, "completed", false);
    if startDate.Some? && endDate.Some? && offset.Some? && found.Some? && scraped.Some? && failed.Some?
      && lastId.Some? && startedAt.Some? && lastUpdated.Some? && completed.Some?
    then Some(Progress(startDate.value, endDate.value, offset.value, found.value, scraped.value,
      failed.value, lastId.value, startedAt.value, lastUpdated.value, completed.value))
    else None
  }

  lemma OptAtJson(d: map<string, Json>, key: string, o: Option<string>)
    requires key in d && d[key] == OptJson(o)
    ensures OptAt(d, key) == Some(o)
  {
  }

  lemma {:induction false} StrsOfJson(xs: seq<string>)
    ensures StrsOf(StrsJson(xs)) == Some(xs)
    decreases |xs|
  {
    if xs != [] {
      var items := StrsJson(xs);
      assert items[..|items| - 1] == StrsJson(xs[..|xs| - 1]);
      StrsOfJson(xs[..|xs| - 1]);
      assert xs[..|xs| - 1] + [xs[|xs| - 1]] == xs;
    }
  }

  /** Writing a checkpoint and reading it back gives the same progress, all ten fields. */
  lemma RoundTrip(p: Progress)
    ensures FromDict(ToDict(p)) == Some(p)
  {
    var d := ToDict(p);
    OptAtJson(d, "start_date", p.startDate);
    OptAtJson(d, "end_date", p.endDate);
    OptAtJson(d, "last_match_id", p.lastMatchId);
    OptAtJson(d, "started_at", p.startedAt);
    OptAtJson(d, "last_updated", p.lastUpdated);
    assert IntAt(d, "current_offset", 0) == Some(p.currentOffset);
    assert IntAt(d, "total_matches_found", 0) == Some(p.totalMatchesFound);
    assert IntAt(d, "total_matches_scraped", 0) == Some(p.totalMatchesScraped);
    assert BoolAt(d, "completed", false) == Some(p.completed);
    StrsOfJson(p.failedMatches);
    assert ListAt(d, "failed_matches") == Some(p.failedMatches);
  }

  /** Missing keys take the defaults: no dates, offset and counts 0, no failures, not completed. */
  lemma EmptyDefaults()
    ensures FromDict(map[]) == Some(Progress(None, None, 0, 0, 0, [], None, None, None, false))
  {
  }

  /** Keys other than the ten are ignored. */
  lemma OtherKeysIgnored(d: map<string, Json>)
    ensures FromDict(d) == FromDict(map k | k in d && k in Keys :: d[k])
  {
  }

  /** Conversely, every one of the ten keys a usable checkpoint holds is what writing its progress back would write. */
  lemma FromDictAgrees(d: map<string, Json>, k: string)
    requires FromDict(d).Some? && k in d && k in Keys
    ensures ToDict(FromDict(d).value)[k] == d[k]
  {
    var p := FromDict(d).value;
    if k == "failed_matches" {
      var items := d[k].items;
      assert StrsJson(p.failedMatches) == items;
    }
  }

  // ---------------------------------------------------------------- loading

  /** The progress file: absent, unreadable (not JSON, or not an object), or the object it holds. */
  datatype Checkpoint = Missing | Unreadable | Stored(data: map<string, Json>)

  /** A stored progress is resumed only for the same date range, and only if it did not complete. */
  predicate Resumable(p: Progress, start: Option<string>, end: Option<string>) {
    p.startDate == start && p.endDate == end && !p.completed
  }

  /** `_load_progress`: the stored progress when it is resumable, otherwise a fresh one started at `now`. */
  function LoadProgress(file: Checkpoint, start: Option<string>, end: Option<string>, now: string): (p: Progress)
    ensures p.startDate == start && p.endDate == end && !p.completed
  {
    if file.Stored? && FromDict(file.data).Some? && Resumable(FromDict(file.data).value, start, end)
    then FromDict(file.data).value
    else Fresh(start, end, now)
  }

  /**
   * A usable stored progress is resumed exactly when it is resumable; a
   * missing, unreadable or unusable file starts fresh, at offset 0.
   */
  lemma LoadDecides(file: Checkpoint, start: Option<string>, end: Option<string>, now: string)
    ensures file.Stored? && FromDict(file.data).Some? ==>
      (LoadProgress(file, start, end, now) == FromDict(file.data).value <==> Resumable(FromDict(file.data).value, start, end))
    ensures !(file.Stored? && FromDict(file.data).Some?) ==> LoadProgress(file, start, end, now) == Fresh(start, end, now)
    ensures LoadProgress(file, start, end, now) == Fresh(start, end, now) || LoadProgress(file, start, end, now) == FromDict(file.data).value
  {
  }

  /** A checkpoint written for a run is resumed by the next run over the same dates, unless the run completed. */
  lemma ReloadAfterSave(p: Progress, now: string)
    ensures LoadProgress(Stored(ToDict(p)), p.startDate, p.endDate, now) == if p.completed then Fresh(p.startDate, p.endDate, now) else p
  {
    RoundTrip(p);
  }

  // ---------------------------------------------------------------- the scraper's state

  /** What a scraper is built with; `clock(n)` is the instant the n-th checkpoint write reads. */
  datatype Config = Config(
    startDate: Option<string>,
    endDate: Option<string>,
    maxRetries: int,
    notifyEachMatch: bool,
    notifyBatches: bool,
    clock: nat -> string)

  /**
   * The scraper's progress, its progress file, the number of writes to it
   * so far, and what the batch and per-match callbacks were handed.
   */
  datatype ScraperState = ScraperState(
    progress: Progress,
    checkpoint: Checkpoint,
    saves: nat,
    batches: seq<seq<MatchDetails>>,
    delivered: seq<MatchDetails>)

  /** `_save_progress`: stamp the progress with the clock, and write it. */
  function Saved(s: ScraperState, clock: nat -> string): (t: ScraperState) {
    var p := s.progress.(lastUpdated := Some(clock(s.saves)));
    s.(progress := p, checkpoint := Stored(ToDict(p)), saves := s.saves + 1)
  }

  /** After a write the file holds the progress, and reading it back resumes it unless it completed. */
  lemma SavedReloads(s: ScraperState, clock: nat -> string, now: string)
    ensures Saved(s, clock).checkpoint == Stored(ToDict(Saved(s, clock).progress))
    ensures var p := Saved(s, clock).progress;
      LoadProgress(Saved(s, clock).checkpoint, p.startDate, p.endDate, now) == if p.completed then Fresh(p.startDate, p.endDate, now) else p
    ensures Saved(s, clock).saves == s.saves + 1
  {
    ReloadAfterSave(Saved(s, clock).progress, now);
  }

  /** `_get_all_match_ids`: the listing walk from the checkpointed offset; the count found is recorded and saved. */
  function CollectOf(cfg: Config, s: ScraperState, pages: seq<Option<Results.ListingPage>>): (seq<string>, ScraperState) {
    var ids := Workers.Gather(pages, 0, s.progress.currentOffset, cfg.startDate, cfg.endDate).ids;
    (ids, Saved(s.(progress := s.progress.(totalMatchesFound := |ids|)), cfg.clock))
  }

  /** The collection records how many it found, writes the checkpoint once, and never moves the offset. */
  lemma CollectRecords(cfg: Config, s: ScraperState, pages: seq<Option<Results.ListingPage>>)
    ensures CollectOf(cfg, s, pages).1.progress.totalMatchesFound == |CollectOf(cfg, s, pages).0|
    ensures CollectOf(cfg, s, pages).1.progress.currentOffset == s.progress.currentOffset
    ensures CollectOf(cfg, s, pages).1.saves == s.saves + 1
    ensures forall i :: 0 <= i < |CollectOf(cfg, s, pages).0| ==>
      CollectOf(cfg, s, pages).0[i] != "" && Strings.AllDigits(CollectOf(cfg, s, pages).0[i])
  {
    Workers.GatherNumeric(pages, 0, s.progress.currentOffset, cfg.startDate, cfg.endDate);
  }

  // ---------------------------------------------------------------- scraping every match

  /** The loop's state: the scraper's and the batch being filled. */
  datatype Run = Run(st: ScraperState, batch: seq<MatchDetails>)

  /** What `_scrape_match_with_retry` yields for each match number. */
  function Outcome(cfg: Config, fetch: string -> nat -> Option<Details.MatchPage>): string -> Option<MatchDetails> {
    (id: string) => Workers.RetryFrom(Workers.Attempts(id, fetch(id)), 0, cfg.maxRetries).0
  }

  /**
   * The outcome `o` of fetching match `id`: a record joins the batch,
   * counts as scraped and is handed to the per-match callback; a failure
   * is listed.
   */
  function Record(cfg: Config, run: Run, id: string, o: Option<MatchDetails>): Run {
    var p := run.st.progress;
    match o
    case Some(d) =>
      Run(run.st.(progress := p.(totalMatchesScraped := p.totalMatchesScraped + 1, lastMatchId := Some(id)),
                  delivered := if cfg.notifyEachMatch then run.st.delivered + [d] else run.st.delivered),
          run.batch + [d])
    case None => Run(run.st.(progress := p.(failedMatches := p.failedMatches + [id])), run.batch)
  }

  /** A batch that reached `batchSize` writes the checkpoint, goes to the batch callback and is emptied. */
  function Close(cfg: Config, batchSize: int, run: Run): Run {
    if |run.batch| >= batchSize then
      var st := Saved(run.st, cfg.clock);
      Run(st.(batches := if cfg.notifyBatches then st.batches + [run.batch] else st.batches), [])
    else run
  }

  /** One turn of the loop of `scrape_all`, for the match number `id` at index `i`: indices below `skip` are passed over. */
  function Visit(cfg: Config, outcome: string -> Option<MatchDetails>, skip: int, batchSize: int, run: Run, i: nat, id: string): Run {
    if skip > i then run else Close(cfg, batchSize, Record(cfg, run, id, outcome(id)))
  }

  /** Closing a batch moves it, whole, to the batches handed over. */
  lemma CloseHandsOver(cfg: Config, batchSize: int, run: Run, k: nat)
    requires k <= |run.st.batches|
    ensures run.st.batches <= Close(cfg, batchSize, run).st.batches
    ensures cfg.notifyBatches ==>
      Flatten(Close(cfg, batchSize, run).st.batches[k..]) + Close(cfg, batchSize, run).batch == Flatten(run.st.batches[k..]) + run.batch
  {
    var c := Close(cfg, batchSize, run);
    if |run.batch| >= batchSize && cfg.notifyBatches {
      assert c.st.batches[k..] == run.st.batches[k..] + [run.batch];
      FlattenAppend(run.st.batches[k..], [run.batch]);
      assert Flatten([run.batch]) == Flatten([]) + run.batch;
    }
  }

  /** The loop over the first `n` match numbers. */
  function Loop(cfg: Config, outcome: string -> Option<MatchDetails>, skip: int, batchSize: int, run0: Run, ids: seq<string>, n: nat): Run
    requires n <= |ids|
  {
    if n == 0 then run0 else Visit(cfg, outcome, skip, batchSize, Loop(cfg, outcome, skip, batchSize, run0, ids, n - 1), n - 1, ids[n - 1])
  }

  /** How many of the first `n` indices are at least `skip`. */
  function Processed(skip: int, n: nat): nat {
    if skip <= 0 then n else if skip >= n then 0 else n - skip
  }

  /** The records of the processed matches among the first `n`, in order (None for a skipped or failed one). */
  function Records(outcome: string -> Option<MatchDetails>, skip: int, ids: seq<string>, n: nat): (r: seq<Option<MatchDetails>>)
    requires n <= |ids|
    ensures |r| == n && forall i :: 0 <= i < n ==> r[i] == if i >= skip then outcome(ids[i]) else None
  {
    seq(n, i requires 0 <= i < n => if i >= skip then outcome(ids[i]) else None)
  }

  /** The processed match numbers among the first `n` that failed, in order. */
  function Failures(outcome: string -> Option<MatchDetails>, skip: int, ids: seq<string>, n: nat): (r: seq<Option<string>>)
    requires n <= |ids|
    ensures |r| == n && forall i :: 0 <= i < n ==> r[i] == if i >= skip && outcome(ids[i]).None? then Some(ids[i]) else None
  {
    seq(n, i requires 0 <= i < n => if i >= skip && outcome(ids[i]).None? then Some(ids[i]) else None)
  }

  /**
   * `p` carries on from `p0`: the dates, the offset, the count found, the
   * start and the completion flag are as they were, the count scraped has
   * not gone down and the failures were only appended to.
   */
  ghost predicate Carries(p0: Progress, p: Progress) {
    && p.startDate == p0.startDate && p.endDate == p0.endDate && p.currentOffset == p0.currentOffset
    && p.totalMatchesFound == p0.totalMatchesFound && p.startedAt == p0.startedAt && p.completed == p0.completed
    && p0.totalMatchesScraped <= p.totalMatchesScraped
    && p0.failedMatches <= p.failedMatches
  }

  /** Matches accounted for: scraped or failed. */
  function Tally(p: Progress): int {
    p.totalMatchesScraped + |p.failedMatches|
  }

  /** Closing a batch touches the progress only through the save's stamp. */
  lemma CloseKeeps(cfg: Config, batchSize: int, run: Run)
    ensures Close(cfg, batchSize, run).st.progress == run.st.progress
      || Close(cfg, batchSize, run).st.progress == run.st.progress.(lastUpdated := Some(cfg.clock(run.st.saves)))
    ensures run.st.saves <= Close(cfg, batchSize, run).st.saves
  {
  }

  /** A turn accounts for its match once, or not at all when it is passed over. */
  lemma VisitAccounts(cfg: Config, outcome: string -> Option<MatchDetails>, skip: int, batchSize: int, run: Run, i: nat, id: string)
    ensures Carries(run.st.progress, Visit(cfg, outcome, skip, batchSize, run, i, id).st.progress)
    ensures Tally(Visit(cfg, outcome, skip, batchSize, run, i, id).st.progress) == Tally(run.st.progress) + (if skip > i then 0 else 1)
    ensures run.st.saves <= Visit(cfg, outcome, skip, batchSize, run, i, id).st.saves
  {
    if skip <= i {
      var rec := Record(cfg, run, id, outcome(id));
      assert Carries(run.st.progress, rec.st.progress) && Tally(rec.st.progress) == Tally(run.st.progress) + 1;
      CloseKeeps(cfg, batchSize, rec);
    }
  }

  /** Each match number past `skip` counts once, as scraped or as failed; nothing else in the progress moves. */
  lemma {:induction false} LoopAccounts(cfg: Config, outcome: string -> Option<MatchDetails>, skip: int, batchSize: int, run0: Run, ids: seq<string>, n: nat)
    requires n <= |ids|
    ensures Carries(run0.st.progress, Loop(cfg, outcome, skip, batchSize, run0, ids, n).st.progress)
    ensures Tally(Loop(cfg, outcome, skip, batchSize, run0, ids, n).st.progress) == Tally(run0.st.progress) + Processed(skip, n)
    ensures run0.st.saves <= Loop(cfg, outcome, skip, batchSize, run0, ids, n).st.saves
  {
    if n > 0 {
      var prev := Loop(cfg, outcome, skip, batchSize, run0, ids, n - 1);
      LoopAccounts(cfg, outcome, skip, batchSize, run0, ids, n - 1);
      VisitAccounts(cfg, outcome, skip, batchSize, prev, n - 1, ids[n - 1]);
    }
  }

  /** All the batches handed over, one after another. */
  function Flatten(bs: seq<seq<MatchDetails>>): (r: seq<MatchDetails>) {
    if bs == [] then [] else Flatten(bs[..|bs| - 1]) + bs[|bs| - 1]
  }

  lemma {:induction false} FlattenAppend(a: seq<seq<MatchDetails>>, b: seq<seq<MatchDetails>>)
    ensures Flatten(a + b) == Flatten(a) + Flatten(b)
    decreases |b|
  {
    if b != [] {
      var bi := b[..|b| - 1];
      assert (a + b)[..|a + b| - 1] == a + bi;
      FlattenAppend(a, bi);
    } else {
      assert a + b == a;
    }
  }

  /** What a turn lists as failed, hands to the per-match callback, and adds to the batches. */
  lemma VisitRecords(cfg: Config, outcome: string -> Option<MatchDetails>, skip: int, batchSize: int, run: Run, i: nat, id: string, k: nat)
    requires k <= |run.st.batches|
    ensures Visit(cfg, outcome, skip, batchSize, run, i, id).st.progress.failedMatches
      == run.st.progress.failedMatches + (if skip <= i && outcome(id).None? then [id] else [])
    ensures Visit(cfg, outcome, skip, batchSize, run, i, id).st.delivered
      == run.st.delivered + (if skip <= i && cfg.notifyEachMatch && outcome(id).Some? then [outcome(id).value] else [])
    ensures run.st.batches <= Visit(cfg, outcome, skip, batchSize, run, i, id).st.batches
    ensures var v := Visit(cfg, outcome, skip, batchSize, run, i, id);
      cfg.notifyBatches ==>
        Flatten(v.st.batches[k..]) + v.batch
          == Flatten(run.st.batches[k..]) + run.batch + (if skip <= i && outcome(id).Some? then [outcome(id).value] else [])
  {
    if skip <= i {
      var rec := Record(cfg, run, id, outcome(id));
      CloseHandsOver(cfg, batchSize, rec, k);
    }
  }

  /** The failures are listed in order, after those already listed. */
  lemma {:induction false} LoopFailures(cfg: Config, outcome: string -> Option<MatchDetails>, skip: int, batchSize: int, run0: Run, ids: seq<string>, n: nat)
    requires n <= |ids|
    ensures Loop(cfg, outcome, skip, batchSize, run0, ids, n).st.progress.failedMatches
      == run0.st.progress.failedMatches + Somes(Failures(outcome, skip, ids, n))
  {
    if n > 0 {
      var prev := Loop(cfg, outcome, skip, batchSize, run0, ids, n - 1);
      LoopFailures(cfg, outcome, skip, batchSize, run0, ids, n - 1);
      VisitRecords(cfg, outcome, skip, batchSize, prev, n - 1, ids[n - 1], 0);
      FailuresStep(outcome, skip, ids, n);
      assert Loop(cfg, outcome, skip, batchSize, run0, ids, n) == Visit(cfg, outcome, skip, batchSize, prev, n - 1, ids[n - 1]);
    }
  }

  /** One more match number adds it to the failures exactly when it is processed and fails. */
  lemma FailuresStep(outcome: string -> Option<MatchDetails>, skip: int, ids: seq<string>, n: nat)
    requires 0 < n <= |ids|
    ensures Somes(Failures(outcome, skip, ids, n))
      == Somes(Failures(outcome, skip, ids, n - 1)) + (if skip <= n - 1 && outcome(ids[n - 1]).None? then [ids[n - 1]] else [])
  {
    var fs := Failures(outcome, skip, ids, n);
    assert fs[..n - 1] == Failures(outcome, skip, ids, n - 1);
    SomesStep(fs, n - 1);
    assert fs[..n] == fs;
  }

  /** One more match number adds its record exactly when it is processed and succeeds. */
  lemma RecordsStep(outcome: string -> Option<MatchDetails>, skip: int, ids: seq<string>, n: nat)
    requires 0 < n <= |ids|
    ensures Somes(Records(outcome, skip, ids, n))
      == Somes(Records(outcome, skip, ids, n - 1)) + (if skip <= n - 1 && outcome(ids[n - 1]).Some? then [outcome(ids[n - 1]).value] else [])
  {
    var rs := Records(outcome, skip, ids, n);
    assert rs[..n - 1] == Records(outcome, skip, ids, n - 1);
    SomesStep(rs, n - 1);
    assert rs[..n] == rs;
  }

  /** The per-match callback, when there is one, gets every record in order. */
  lemma {:induction false} LoopDelivers(cfg: Config, outcome: string -> Option<MatchDetails>, skip: int, batchSize: int, run0: Run, ids: seq<string>, n: nat)
    requires n <= |ids|
    ensures Loop(cfg, outcome, skip, batchSize, run0, ids, n).st.delivered
      == run0.st.delivered + (if cfg.notifyEachMatch then Somes(Records(outcome, skip, ids, n)) else [])
  {
    if n > 0 {
      var prev := Loop(cfg, outcome, skip, batchSize, run0, ids, n - 1);
      LoopDelivers(cfg, outcome, skip, batchSize, run0, ids, n - 1);
      VisitRecords(cfg, outcome, skip, batchSize, prev, n - 1, ids[n - 1], 0);
      RecordsStep(outcome, skip, ids, n);
      assert Loop(cfg, outcome, skip, batchSize, run0, ids, n) == Visit(cfg, outcome, skip, batchSize, prev, n - 1, ids[n - 1]);
    }
  }

  /** The batches handed to the batch callback, followed by the batch still being filled, are the records in order. */
  lemma {:induction false} LoopHandsOver(cfg: Config, outcome: string -> Option<MatchDetails>, skip: int, batchSize: int, run0: Run, ids: seq<string>, n: nat)
    requires n <= |ids|
    ensures run0.st.batches <= Loop(cfg, outcome, skip, batchSize, run0, ids, n).st.batches
    ensures var r := Loop(cfg, outcome, skip, batchSize, run0, ids, n);
      cfg.notifyBatches ==> Flatten(r.st.batches[|run0.st.batches|..]) + r.batch == run0.batch + Somes(Records(outcome, skip, ids, n))
  {
    if n > 0 {
      var prev := Loop(cfg, outcome, skip, batchSize, run0, ids, n - 1);
      LoopHandsOver(cfg, outcome, skip, batchSize, run0, ids, n - 1);
      VisitRecords(cfg, outcome, skip, batchSize, prev, n - 1, ids[n - 1], |run0.st.batches|);
      RecordsStep(outcome, skip, ids, n);
      assert Loop(cfg, outcome, skip, batchSize, run0, ids, n) == Visit(cfg, outcome, skip, batchSize, prev, n - 1, ids[n - 1]);
    } else {
      assert run0.st.batches[|run0.st.batches|..] == [];
    }
  }

  /** A turn with a positive batch size hands over only full batches and leaves the batch short; otherwise it always saves. */
  lemma VisitBatches(cfg: Config, outcome: string -> Option<MatchDetails>, skip: int, batchSize: int, run: Run, i: nat, id: string)
    ensures var v := Visit(cfg, outcome, skip, batchSize, run, i, id);
      0 < batchSize && |run.batch| < batchSize ==>
        && |v.batch| < batchSize
        && (forall k :: |run.st.batches| <= k < |v.st.batches| ==> |v.st.batches[k]| == batchSize)
    ensures var v := Visit(cfg, outcome, skip, batchSize, run, i, id);
      batchSize <= 0 ==> v.st.saves == run.st.saves + (if skip > i then 0 else 1)
    ensures run.st.batches <= Visit(cfg, outcome, skip, batchSize, run, i, id).st.batches
  {
  }

  /** The batches from index `k0` on each hold `size` records. */
  ghost predicate AllFull(bs: seq<seq<MatchDetails>>, k0: nat, size: int) {
    forall k :: k0 <= k < |bs| ==> |bs[k]| == size
  }

  /** With a positive batch size every batch handed over is exactly full and the one being filled stays short of it. */
  lemma {:induction false} LoopBatches(cfg: Config, outcome: string -> Option<MatchDetails>, skip: int, batchSize: int, run0: Run, ids: seq<string>, n: nat)
    requires n <= |ids|
    requires 0 < batchSize && |run0.batch| < batchSize
    ensures |Loop(cfg, outcome, skip, batchSize, run0, ids, n).batch| < batchSize
    ensures AllFull(Loop(cfg, outcome, skip, batchSize, run0, ids, n).st.batches, |run0.st.batches|, batchSize)
  {
    if n > 0 {
      var prev := Loop(cfg, outcome, skip, batchSize, run0, ids, n - 1);
      LoopBatches(cfg, outcome, skip, batchSize, run0, ids, n - 1);
      VisitBatches(cfg, outcome, skip, batchSize, prev, n - 1, ids[n - 1]);
    }
  }

  /** With a batch size of zero or less the checkpoint is written after every processed match. */
  lemma {:induction false} LoopSavesEach(cfg: Config, outcome: string -> Option<MatchDetails>, skip: int, batchSize: int, run0: Run, ids: seq<string>, n: nat)
    requires n <= |ids|
    requires batchSize <= 0
    ensures Loop(cfg, outcome, skip, batchSize, run0, ids, n).st.saves == run0.st.saves + Processed(skip, n)
  {
    if n > 0 {
      var prev := Loop(cfg, outcome, skip, batchSize, run0, ids, n - 1);
      LoopSavesEach(cfg, outcome, skip, batchSize, run0, ids, n - 1);
      VisitBatches(cfg, outcome, skip, batchSize, prev, n - 1, ids[n - 1]);
    }
  }

  /** `scrape_all`'s answer. */
  datatype Summary = NoMatches | Completed(totalFound: int, totalScraped: int, failed: int, failedIds: seq<string>)

  /** After the loop: the last, partial batch goes to the batch callback; the run is marked complete and saved. */
  function Finish(cfg: Config, run: Run): (ScraperState, Summary) {
    var st := if run.batch != [] && cfg.notifyBatches then run.st.(batches := run.st.batches + [run.batch]) else run.st;
    var done := Saved(st.(progress := st.progress.(completed := true)), cfg.clock);
    var p := done.progress;
    (done, Completed(p.totalMatchesFound, p.totalMatchesScraped, |p.failedMatches|, p.failedMatches))
  }

  /**
   * `scrape_all`: collect the match numbers and stop if there are none;
   * otherwise pass over the first `total_matches_scraped` indices (its
   * value before the loop) and scrape the rest.
   */
  function ScrapeAllOf(cfg: Config, s: ScraperState, pages: seq<Option<Results.ListingPage>>,
                       fetch: string -> nat -> Option<Details.MatchPage>, batchSize: int): (ScraperState, Summary)
  {
    var (ids, s1) := CollectOf(cfg, s, pages);
    if ids == [] then (s1, NoMatches)
    else Finish(cfg, Loop(cfg, Outcome(cfg, fetch), s1.progress.totalMatchesScraped, batchSize, Run(s1, []), ids, |ids|))
  }

  /**
   * A run answers NoMatches exactly when the listing yields nothing.  A
   * completed run reports the progress it wrote last: every match number
   * past the skipped prefix counted once, as scraped or as failed; the
   * offset never moved; and the file it leaves is not resumed.
   */
  lemma ScrapeAllReports(cfg: Config, s: ScraperState, pages: seq<Option<Results.ListingPage>>,
                         fetch: string -> nat -> Option<Details.MatchPage>, batchSize: int, now: string)
    ensures var (ids, _) := CollectOf(cfg, s, pages);
      ScrapeAllOf(cfg, s, pages, fetch, batchSize).1.NoMatches? <==> ids == []
    ensures var (t, sum) := ScrapeAllOf(cfg, s, pages, fetch, batchSize);
      sum.NoMatches? ==> t.progress.totalMatchesFound == 0 && t.saves == s.saves + 1 && t.progress.completed == s.progress.completed
    ensures var (ids, _) := CollectOf(cfg, s, pages);
      var (t, sum) := ScrapeAllOf(cfg, s, pages, fetch, batchSize);
      sum.Completed? ==>
        && sum == Completed(t.progress.totalMatchesFound, t.progress.totalMatchesScraped, |t.progress.failedMatches|, t.progress.failedMatches)
        && sum.totalFound == |ids|
        && sum.totalScraped + sum.failed == s.progress.totalMatchesScraped + |s.progress.failedMatches|
             + Processed(s.progress.totalMatchesScraped, |ids|)
        && t.progress.currentOffset == s.progress.currentOffset
        && t.progress.completed
        && t.saves >= s.saves + 2
        && t.checkpoint == Stored(ToDict(t.progress))
        && LoadProgress(t.checkpoint, t.progress.startDate, t.progress.endDate, now) == Fresh(t.progress.startDate, t.progress.endDate, now)
  {
    var (ids, s1) := CollectOf(cfg, s, pages);
    if ids != [] {
      var run := Loop(cfg, Outcome(cfg, fetch), s1.progress.totalMatchesScraped, batchSize, Run(s1, []), ids, |ids|);
      LoopAccounts(cfg, Outcome(cfg, fetch), s1.progress.totalMatchesScraped, batchSize, Run(s1, []), ids, |ids|);
      var t := Finish(cfg, run).0;
      ReloadAfterSave(t.progress, now);
    }
  }

  /** The scraper: its configuration, its progress, its progress file and what its callbacks were handed. */
  class HistoricalScraper {
    const config: Config
    var progress: Progress
    var checkpoint: Checkpoint
    var saves: nat
    var batches: seq<seq<MatchDetails>>
    var delivered: seq<MatchDetails>

    function State(): ScraperState
      reads this
    {
      ScraperState(progress, checkpoint, saves, batches, delivered)
    }

    /** `__init__`: load the progress file, or start fresh at `now`. */
    constructor(config: Config, file: Checkpoint, now: string)
      ensures this.config == config
      ensures State() == ScraperState(LoadProgress(file, config.startDate, config.endDate, now), file, 0, [], [])
    {
      this.config := config;
      progress := LoadProgress(file, config.startDate, config.endDate, now);
      checkpoint := file;
      saves := 0;
      batches := [];
      delivered := [];
    }

    /** `_save_progress`. */
    method SaveProgress()
      modifies this
      ensures State() == Saved(old(State()), config.clock)
    {
      progress := progress.(lastUpdated := Some(config.clock(saves)));
      checkpoint := Stored(ToDict(progress));
      saves := saves + 1;
    }

    /** `_get_all_match_ids`. */
    method GetAllMatchIds(pages: seq<Option<Results.ListingPage>>) returns (ids: seq<string>)
      modifies this
      ensures (ids, State()) == CollectOf(config, old(State()), pages)
    {
      var g := Workers.GatherIds(pages, progress.currentOffset, config.startDate, config.endDate);
      ids := g.ids;
      progress := progress.(totalMatchesFound := |ids|);
      SaveProgress();
    }

    /** The loop of `scrape_all` over `ids`, passing over the indices below `skip`; it answers the batch left unfinished. */
    method ScrapeEach(ids: seq<string>, fetch: string -> nat -> Option<Details.MatchPage>, batchSize: int, skip: int)
      returns (batch: seq<MatchDetails>)
      modifies this
      ensures Run(State(), batch) == Loop(config, Outcome(config, fetch), skip, batchSize, Run(old(State()), []), ids, |ids|)
    {
      ghost var run0 := Run(State(), []);
      batch := [];
      for i := 0 to |ids|
        invariant Run(State(), batch) == Loop(config, Outcome(config, fetch), skip, batchSize, run0, ids, i)
      {
        batch := VisitMatch(i, ids[i], fetch, batchSize, skip, batch);
      }
    }

    /** One turn of that loop, for `id` at index `i`. */
    method VisitMatch(i: nat, id: string, fetch: string -> nat -> Option<Details.MatchPage>, batchSize: int, skip: int,
                      batch0: seq<MatchDetails>) returns (batch: seq<MatchDetails>)
      modifies this
      ensures Run(State(), batch) == Visit(config, Outcome(config, fetch), skip, batchSize, Run(old(State()), batch0), i, id)
    {
      batch := batch0;
      if skip <= i {
        var data, _ := Workers.ScrapeWithRetry(id, fetch(id), config.maxRetries);
        assert data == Outcome(config, fetch)(id);
        batch := RecordOutcome(id, data, batch);
        batch := CloseBatch(batchSize, batch);
      }
    }

    /** Record what fetching `id` gave: a success joins the batch, a failure is listed in `failed_matches`. */
    method RecordOutcome(id: string, data: Option<MatchDetails>, batch0: seq<MatchDetails>) returns (batch: seq<MatchDetails>)
      modifies this
      ensures Run(State(), batch) == Record(config, Run(old(State()), batch0), id, data)
    {
      batch := batch0;
      if data.Some? {
        batch := batch + [data.value];
        progress := progress.(totalMatchesScraped := progress.totalMatchesScraped + 1, lastMatchId := Some(id));
        if config.notifyEachMatch {
          delivered := delivered + [data.value];
        }
      } else {
        progress := progress.(failedMatches := progress.failedMatches + [id]);
      }
    }

    /** Save and hand over a full batch. */
    method CloseBatch(batchSize: int, batch0: seq<MatchDetails>) returns (batch: seq<MatchDetails>)
      modifies this
      ensures Run(State(), batch) == Close(config, batchSize, Run(old(State()), batch0))
    {
      batch := batch0;
      if |batch| >= batchSize {
        SaveProgress();
        if config.notifyBatches {
          batches := batches + [batch];
        }
        batch := [];
      }
    }

    /** `scrape_all`. */
    method ScrapeAll(pages: seq<Option<Results.ListingPage>>, fetch: string -> nat -> Option<Details.MatchPage>, batchSize: int)
      returns (summary: Summary)
      modifies this
      ensures (State(), summary) == ScrapeAllOf(config, old(State()), pages, fetch, batchSize)
    {
      var ids := GetAllMatchIds(pages);
      if ids == [] {
        return NoMatches;
      }
      var batch := ScrapeEach(ids, fetch, batchSize, progress.totalMatchesScraped);
      if batch != [] && config.notifyBatches {
        batches := batches + [batch];
      }
      progress := progress.(completed := true);
      SaveProgress();
      summary := Completed(progress.totalMatchesFound, progress.totalMatchesScraped, |progress.failedMatches|, progress.failedMatches);
    }
  }
}
