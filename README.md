# HLTV match ingestion, modelled in Dafny

This project models the match-ingestion pipeline of the HLTV scraping API. The pipeline has five parts.

- **Fetching.** It downloads pages with a retry policy. Blocked statuses back off. Client errors and redirects fail at once. Transport errors back off and are raised when the attempts run out.
- **Reading pages.** It reads the fetched pages with a small field extractor (`get_text_by_xpath`, `get_all_by_xpath`).
- **Parsing.** It turns pages into records:
  - a match page into `MatchDetails`: teams, scores, winner, maps and player statistics;
  - a results listing into dated match entries, with early termination at the start date and paging by offset;
  - the upcoming list into distinct match numbers, cut at a limit;
  - a match page into lineups, using three fallback strategies.
- **Validation.** The record schema coerces kills/deaths and percentage/swing texts.
- **Workers and storage.** Two workers drive the pipeline.
  - The historical scraper pages through the listing and collects ids. It downloads each match with its own retry loop. It accounts for successes and failures and hands matches over in batches. It keeps a JSON checkpoint it can resume from, saved after the ids are collected, after every full batch, and at the end of the run.
  - The incremental updater computes the last `lookback_days` window. It keeps only the ids the storage does not yet hold, and saves each new match.
  - Matches go to a storage backend. The backend's abstract contract is stated as predicates. The CSV backend is modelled as six row tables plus a cache of held match ids.

Everything outside the program is an input:
- the network is a function from attempt number to page or outcome;
- the HTML is plain datatypes holding the texts each query returns;
- the clock, the random jitter and file contents are parameters.

Every module is proved in plain Dafny. One file per component:

| file | models |
|---|---|
| `wrappers.dfy` | `Option`, and `Somes`, which collects the present values of a list |
| `strings.dfy` | the Python string builtins the source uses: `strip`, `lower`, `title`, `split`, `replace`, `int()`, `str()`, `<` on strings |
| `links.dfy` | the `re.search(r'/team/(\d+)/', ...)` family of id extractors |
| `extract.dfy` | `get_text_by_xpath`, `get_all_by_xpath`, `raise_exception_if_not_found` |
| `fetch.dfy` | `make_request` |
| `schema.dfy` | the record shapes and the `PlayerMatchStats` validators |
| `dates.dfy` | `strptime("%B %d %Y")`, `strftime("%Y-%m-%d")`, ISO order, `timedelta`, `_parse_date`, `_get_date_range` |
| `details.dfy` | the match-details service |
| `results.dfy` | the results-listing service |
| `upcoming.dfy` | the upcoming-matches and lineups service |
| `storage_contract.dfy` | the abstract `StorageBackend` contract |
| `csv_storage.dfy` | `CSVStorage` |
| `workers.dfy` | the retry loop and the paging loop shared by both workers |
| `scraper.dfy` | `ScraperProgress` and `HistoricalMatchScraper` |
| `incremental.dfy` | `IncrementalScraper` |

Loops in the source are `method`s with loop invariants. Each is proved equal to a specification function, and the properties are lemmas about that function. The two workers and the CSV backend are classes whose methods update their fields. Their `ensures` give the new state as a function of the old one.

## Model

| member | source | states |
|---|---|---|
| Strings.Trim | app/services/base.py:176 | `trim`: the result has no leading or trailing whitespace and is no longer than the input |
| Strings.TrimLeftShape | app/services/base.py:176 | the left strip removes exactly a run of leading whitespace and keeps the rest |
| Strings.TrimRightShape | app/services/base.py:176 | the right strip removes exactly a run of trailing whitespace and keeps the rest |
| Strings.TrimIdempotent | app/services/base.py:176 | stripping twice equals stripping once |
| Strings.TrimOfNoSpace | app/services/base.py:176 | a text without whitespace is left unchanged |
| Strings.Lower | app/services/matches/results.py:54 | `str.lower()` keeps the length |
| Strings.LowerChars | app/services/matches/results.py:54 | lower-casing works character by character |
| Strings.LowerIdempotent | app/services/matches/results.py:54 | lower-casing twice equals lower-casing once |
| Strings.Title | app/services/matches/upcoming.py:168 | `str.title()` keeps the length |
| Strings.TitleChars | app/services/matches/upcoming.py:168 | each letter after a letter is lower-cased; every other letter is upper-cased |
| Strings.RemoveAll | app/schemas/matches/match.py:69 | `replace(pat, "")` never lengthens the text |
| Strings.RemoveCharGone | app/schemas/matches/match.py:95 | removing a character leaves no copy of it and keeps the count of every other character |
| Strings.RemoveAllAbsent | app/schemas/matches/match.py:95 | a pattern whose first character never occurs removes nothing |
| Strings.ReplaceChar | app/services/matches/upcoming.py:168 | `replace(a, b)` maps exactly the copies of `a` to `b`, position by position |
| Strings.Split | app/services/matches/details.py:72 | `split(c)` always yields at least one piece |
| Strings.SplitLength | app/services/matches/details.py:72-73 | there is one more piece than there are separators |
| Strings.SplitPiecesClean | app/services/matches/details.py:72 | no piece contains the separator |
| Strings.JoinSplit | app/services/matches/details.py:72 | joining the pieces with the separator gives the text back |
| Strings.SplitAtFirst | app/services/matches/details.py:72 | the text before the first separator is the first piece |
| Strings.SplitLastPiece | app/services/matches/upcoming.py:168 | `split("/")[-1]` is the text after the last `/` |
| Strings.Words | app/services/matches/results.py:133 | `split()` yields non-empty pieces without whitespace |
| Strings.TakeWord | app/services/matches/results.py:133 | the first word is the longest prefix without whitespace |
| Strings.WordsCons | app/services/matches/results.py:133 | a word followed by whitespace heads the word list |
| Strings.NatToString | app/services/matches/details.py:290 | `str(n)` of a non-negative number is a non-empty digit string |
| Strings.ParseNatToString | app/services/matches/details.py:290 | reading back `str(n)` gives `n` |
| Strings.IntToString | app/services/matches/details.py:290 | `str(i)` has no whitespace and no `-` after its first character |
| Strings.PyInt | app/services/matches/details.py:74 | `int(s)` succeeds only on text that is not blank |
| Strings.PyIntAccepts | app/services/matches/details.py:74 | `int(s)` succeeds exactly when the stripped text is an optional sign and a digit body, where single underscores may stand between digits; the value is that of the digits, negated after `-` |
| Strings.PyIntUnderscores | app/services/matches/details.py:74 | `int("1_000") == 1000` and `int("+1_0") == 10` |
| Strings.PyIntRefusesUnderscores | app/services/matches/details.py:74 | `int("1__0")` and `int("_1")` raise ValueError |
| Strings.DigitsValueOf | app/services/matches/details.py:109 | exactly the digit bodies have a value, and it is the decimal value of their digits without the underscores |
| Strings.RemoveCharKeepsOrder | app/schemas/matches/match.py:70 | `replace(c, "")` keeps every other character, in order |
| Strings.PyIntOfIntToString | app/services/matches/details.py:74 | `int(str(i)) == i` for every integer |
| Strings.PyIntOfDigits | app/services/matches/details.py:109 | a digit string is a valid `int()` literal with its decimal value |
| Strings.StrLessConcat | app/services/matches/results.py:147-150 | two texts with equal-length heads compare by the heads unless the heads are equal |
| Strings.StrLessIrreflexive | app/services/matches/results.py:147-150 | no text sorts before itself |
| Links.DigitRun | app/services/matches/details.py:37 | `\d+` matches the maximal run of digits from a position |
| Links.IdAt | app/services/matches/details.py:37 | a match at a position is the prefix, a non-empty digit string, then `/` |
| Links.IdAtComplete | app/services/matches/details.py:37 | whenever the prefix, digits and `/` appear at a position, those digits are the match |
| Links.IdAtAny | app/services/matches/details.py:44 | `/events?/` tries its alternatives in order; a result is one of them |
| Links.IdAtAnyComplete | app/services/matches/details.py:44 | if any alternative matches at a position, the match succeeds there |
| Links.SearchFrom | app/services/matches/details.py:37 | `re.search` finds the leftmost matching position; no earlier one matches, and None means no position matches |
| Links.ExtractId | app/services/matches/details.py:33-52 | the `_extract_*_id` helpers return only a non-empty digit string found between a prefix and a `/` of a non-empty URL |
| Links.ExtractIdComplete | app/services/matches/details.py:33-52 | a URL in which a prefix, digits and `/` occur always yields an id |
| Links.ExtractIdAt | app/services/matches/details.py:33-52 | the leftmost match determines the id |
| Links.ExtractIdOfPrefix | app/services/matches/details.py:33-52 | a URL starting with the prefix, digits and `/` yields those digits |
| Links.EventIdOfPlural | app/services/matches/details.py:40-45 | `/events/<d>/…` gives the event id `d` |
| Links.EventIdOfSingular | app/services/matches/details.py:40-45 | `/event/<d>/…` gives the event id `d` |
| Extract.Kept | app/services/base.py:216-223 | the filter never yields more values than there are texts |
| Extract.KeptClean | app/services/base.py:216-223 | the values that survive the filter are trimmed and non-empty |
| Extract.KeptOfTexts | app/services/base.py:216-223 | when every value is present, trimmed and non-blank, all are kept in order |
| Extract.PyIndex | app/services/base.py:225-226 | Python indexing succeeds exactly for `-len <= i < len`, counting negative indices from the end |
| Extract.PySliceIsRun | app/services/base.py:228-233 | a slice is a contiguous run of the list |
| Extract.GetText | app/services/base.py:181-241 | a query that matched nothing gives None; an IndexError escapes exactly when an integer `iloc` is below `-len` of the kept values |
| Extract.GetTextPicksKept | app/services/base.py:225-241 | without a join, any text returned is one of the kept values |
| Extract.IlocTakesPrecedence | app/services/base.py:225-226 | an integer `iloc` ignores `pos`, the slice bounds and the join; an index in range gives that value, one past the end gives None |
| Extract.JoinJoinsAll | app/services/base.py:235-236 | a non-empty join string joins every kept value, giving "" when none was kept |
| Extract.TextIsFirstKept | app/services/base.py:238-241 | with the defaults, the result is the first kept value, or None |
| Extract.BlankTextsGiveNone | app/services/base.py:211-223 | a query whose every value is blank gives None |
| Extract.GetAll | app/services/base.py:161-179 | `get_all_by_xpath` returns trimmed texts and never more than it was given |
| Extract.GetAllLength | app/services/base.py:176 | exactly the empty strings are dropped |
| Extract.NotFoundStatus | app/services/base.py:243-256 | a 404 is raised exactly when the default text is missing or blank |
| Fetch.Decide | app/services/base.py:95-108 | a deciding attempt returns a status that is neither blocked nor 4xx, raises a 4xx status, or raises 404 for a redirect error |
| Fetch.MakeRequest | app/services/base.py:34-115 | the loop's reply, waits and attempt count equal those of the attempt recursion |
| Fetch.FirstDecisive | app/services/base.py:57-112 | the first attempt below `max_retries` whose outcome ends the loop, or None when every attempt retries |
| Fetch.AttemptsCharacterised | app/services/base.py:57-115 | the first deciding attempt decides the reply, after one backoff per earlier attempt; with none, every attempt backs off; it then raises 500, from the last transport error if there was one, else "Max retries exceeded" |
| Fetch.NeverReturnsBlockedOrClientError | app/services/base.py:90-101 | 403, 429, 503 and other 4xx statuses are never returned |
| Fetch.ClientErrorIsFinal | app/services/base.py:95-99 | a 4xx status other than 403/429 raises at once with that status, after exactly `k + 1` attempts |
| Fetch.AttemptsBounded | app/services/base.py:57 | at most `max_retries` attempts are made, each failed one except the decisive one followed by a wait |
| Fetch.WaitsBounded | app/services/base.py:91-110 | with jitter in [2, 5] the wait after attempt `j` lies in [2^j + 2, 2^j + 5] |
| Schema.SideName | app/services/matches/details.py:292-294 | a side is written "team1" or "team2" |
| Schema.ListDefaults | app/schemas/matches/match.py:105-146 | `maps` and `players` default to empty lists |
| Schema.Truncate | app/schemas/matches/match.py:56 | `int()` of a float truncates toward zero |
| Schema.CoerceKd | app/schemas/matches/match.py:44-58 | None stays None, an int passes, a text holding `-` gives None, a text without `-` gives exactly `int()` of it (None when that raises), and a float truncates |
| Schema.NoMinusNonNegative | app/schemas/matches/match.py:52-56 | a text without `-` that converts gives a non-negative number |
| Schema.PercentStat | app/schemas/matches/match.py:60-84 | None stays None, a float passes, and an int or text becomes the characters of `str(v)` other than `%`, in order |
| Schema.PercentExample | app/schemas/matches/match.py:60-84 | "71.4%" is read from "71.4" and 85 from "85" |
| Schema.SwingStat | app/schemas/matches/match.py:86-97 | None stays None, a float passes, and an int or text becomes the characters of `str(v)` other than `%` and `+`, in order |
| Schema.SwingText | app/schemas/matches/match.py:95 | removes exactly the `%` and `+` characters, keeping the count of every other character |
| Schema.SwingTextKeepsOrder | app/schemas/matches/match.py:95 | the remaining characters keep their order |
| Schema.SwingExample | app/schemas/matches/match.py:95 | "+4.12%" is read as "4.12" |
| Dates.DaysInMonth | app/services/matches/results.py:133 | every month has 28 to 31 days |
| Dates.Digits | app/workers/incremental.py:78-79 | fixed-width zero-padded numbers have their width and only digits |
| Dates.DigitsParse | app/workers/incremental.py:78-79 | a zero-padded number reads back as itself |
| Dates.DigitsOrder | app/services/matches/results.py:147-150 | zero-padded numbers of one width compare as the numbers do |
| Dates.Iso | app/services/matches/results.py:134 | `strftime("%Y-%m-%d")` is ten characters with dashes at positions 4 and 7 |
| Dates.IsoOrder | app/services/matches/results.py:147-150 | comparing ISO strings with `<` is chronological order, and equal strings mean equal dates |
| Dates.IsoInjective | app/services/matches/results.py:134 | distinct dates print differently |
| Dates.MonthFrom | app/services/matches/results.py:133 | a month is found only when the word matches its name, and a miss means no name from there on matches |
| Dates.MonthNumber | app/services/matches/results.py:133 | `%B` accepts a full month name in any case and numbers it from 1 |
| Dates.MonthNumberOfTitle | app/services/matches/results.py:133 | the site's month names are read as their numbers |
| Dates.MonthNamesDistinct | app/services/matches/results.py:133 | no two month names are equal |
| Dates.DayNumber | app/services/matches/results.py:133 | `%d` accepts one or two digits denoting 1 to 31 |
| Dates.DayNumberOfDay | app/services/matches/results.py:133 | every day 1..31 written by `str` is accepted |
| Dates.YearNumber | app/services/matches/results.py:133 | `%Y` here accepts exactly four digits |
| Dates.Strptime | app/services/matches/results.py:133 | a parsed text is exactly three words forming a date that exists |
| Dates.StrptimeOfBody | app/services/matches/results.py:133 | "Month D YYYY" of a valid date parses back to it |
| Dates.StripOrdinals | app/services/matches/results.py:130 | removing ordinal suffixes never lengthens the text |
| Dates.StripOrdinalsOfOrdinal | app/services/matches/results.py:130 | a digit run followed by "st", "nd", "rd" or "th" loses the suffix |
| Dates.StripOrdinalsAppend | app/services/matches/results.py:130 | a text not ending in digits is processed independently of what follows |
| Dates.StripOrdinalsOfDigits | app/services/matches/results.py:130 | a digit string is unchanged |
| Dates.StripOrdinalsNoDigit | app/services/matches/results.py:130 | a text without digits is unchanged |
| Dates.HeadlineDate | app/services/matches/results.py:120-136 | only a non-empty headline can give a date, and the date exists |
| Dates.ParseDate | app/services/matches/results.py:120-136 | `_parse_date` returns text exactly when the headline names a date, and then returns that date in ISO form |
| Dates.ParseDateOfHeadline | app/services/matches/results.py:120-136 | every site heading, with or without "Results for ", parses to its date |
| Dates.HeadlineCleaned | app/services/matches/results.py:130-133 | cleaning a heading leaves month, day and year separated by single spaces |
| Dates.HeadlineStripped | app/services/matches/results.py:130 | removing ordinals from a heading drops just the day's suffix |
| Dates.BodyHasNoCapitalR | app/services/matches/results.py:132 | a cleaned heading holds no "R", so removing "Results for " leaves it unchanged |
| Dates.BodyWords | app/services/matches/results.py:133 | a cleaned heading is trimmed and splits into month, day and year |
| Dates.PrevDay | app/workers/incremental.py:76 | the day before is a valid, earlier date |
| Dates.NextDay | app/workers/incremental.py:76 | the day after is a valid, later date |
| Dates.NextOfPrev | app/workers/incremental.py:76 | stepping back a day and forward again returns to the same date |
| Dates.ShiftBack | app/workers/incremental.py:76 | `d - timedelta(days=n)` is valid, earlier for `n > 0`, later for `n < 0`, and `d` for `n = 0` |
| Dates.BeforeTransitive | app/workers/incremental.py:76 | chronological order is transitive |
| Dates.DateRange | app/workers/incremental.py:73-80 | the window ends at today and starts `lookback` days before, both in ISO form; None exactly when the subtraction overflows |
| Dates.DateRangeOrdered | app/workers/incremental.py:73-80 | a non-negative lookback gives start <= end as strings, and start < end when it is positive |
| Details.First | app/services/matches/details.py:193-194 | `elems[0] if elems else None` is present exactly when the list is not empty |
| Details.FirstTrimmed | app/services/matches/details.py:121 | the trimmed first element is present exactly when the list is not empty |
| Details.MatchUrl | app/services/matches/details.py:25-31 | the canonical link when the page has one, otherwise the requested URL |
| Details.RequestUrlHoldsId | app/services/matches/details.py:26 | the requested URL carries the match id where the match-id pattern finds it |
| Details.FormatType | app/services/matches/details.py:54-65 | a result is "bo1", "bo3" or "bo5" and needs a non-empty format text |
| Details.FormatOfLabel | app/services/matches/details.py:58-64 | a heading "Best of N …" with N in {1, 3, 5} and no other digit gives "boN" |
| Details.ParseKd | app/services/matches/details.py:67-77 | both counts or neither; counts only for a text with exactly one `-`; both non-negative |
| Details.KdRoundTrip | app/services/matches/details.py:67-77 | parsing "K-D" gives back `(K, D)` |
| Details.ScoreOf | app/services/matches/details.py:109 | a score exactly when the text is present and all digits, and then its non-negative `int()` value |
| Details.TeamInfoOf | app/services/matches/details.py:79-110 | the team id comes from the link and the logo is passed through; the name is the page's name, and never empty |
| Details.TeamScoreSources | app/services/matches/details.py:100-109 | the score comes from the "won" text if present, else from the "lost" one; a non-number "won" text gives no score; a missing name is "Unknown" |
| Details.WinnerAndScore | app/services/matches/details.py:284-294 | a final score exactly when both scores are known; the strictly greater score wins; equal scores have no winner |
| Details.WinnerSymmetric | app/services/matches/details.py:287-294 | swapping the teams swaps the winner |
| Details.FinalScoreRoundTrip | app/services/matches/details.py:290 | the final score "S1-S2" parses back as a K-D text to the two scores |
| Details.FirstDigitRun | app/services/matches/details.py:135 | `re.search(r'(\d+)')` finds the first maximal digit run, with non-digits before it |
| Details.MapScore | app/services/matches/details.py:133-143 | a map score needs a text and is non-negative |
| Details.MapScoreOfNumber | app/services/matches/details.py:133-143 | a number alone, or after text without digits, is read back as the score |
| Details.HalfScore | app/services/matches/details.py:165-168 | no text gives None; otherwise `int(trim(...))`, with a ValueError exactly when the text is not an integer |
| Details.MapWinner | app/services/matches/details.py:151-158 | team1 exactly when its "won" marker is present, team2 when only the other one is |
| Details.MapStepOf | app/services/matches/details.py:119-170 | a holder is skipped exactly when it has no name or the name is "tba" in any case; a kept map carries its holder's number, trimmed name and winner |
| Details.MapSteps | app/services/matches/details.py:118 | one step per holder |
| Details.Collect | app/services/matches/details.py:117-172 | the collected maps are no more than the steps |
| Details.CollectNumbered | app/services/matches/details.py:118-161 | each collected map comes from the step its number names, and the numbers increase |
| Details.CollectFails | app/services/matches/details.py:165-168 | collecting fails exactly when some step fails |
| Details.CollectComplete | app/services/matches/details.py:160 | every kept step's map is collected |
| Details.CollectStep | app/services/matches/details.py:118-170 | one more step extends the maps by what that step keeps |
| Details.CollectFailPropagates | app/services/matches/details.py:165-168 | once a prefix fails, the whole fails |
| Details.MapsOf | app/services/matches/details.py:112-172 | no more maps than holders |
| Details.MapStepsNumbered | app/services/matches/details.py:118-161 | holders are numbered from 1 by their position among all holders |
| Details.MapsSound | app/services/matches/details.py:118-161 | each map comes from the holder its number names, has a name other than "tba", and the numbers strictly increase |
| Details.MapsFailure | app/services/matches/details.py:165-168 | the maps fail (ValueError) exactly when a named holder has a half score that is not an integer |
| Details.MapsComplete | app/services/matches/details.py:118-170 | every named holder's map is in the result |
| Details.GetMapResults | app/services/matches/details.py:112-172 | the loop returns the maps of the specification |
| Details.KdFields | app/services/matches/details.py:220-236 | kills and deaths are present together, `kd_diff = kills - deaths` when they are, and they are the K-D parse |
| Details.PlayerOf | app/services/matches/details.py:200-241 | a row yields a player exactly when it has a non-blank nick; the name and nick are the nick, the team id comes from the table, and the player id from the row's link |
| Details.PlayerFields | app/services/matches/details.py:220-240 | kills and deaths come from the K-D parse with their difference; KAST holds no `%`; swing holds no `%` or `+` |
| Details.RowPlayers | app/services/matches/details.py:200 | one entry per row |
| Details.PlayersOf | app/services/matches/details.py:197-241 | no more players than rows |
| Details.PlayersSound | app/services/matches/details.py:200-241 | every player comes from a row with a nick and carries the table's team id |
| Details.PlayersComplete | app/services/matches/details.py:210-211 | every row with a nick gives a player |
| Details.GetPlayers | app/services/matches/details.py:197-241 | the row loop returns the players of the specification |
| Details.TeamStatsOf | app/services/matches/details.py:183-248 | a table gives statistics exactly when it has a header; all its players carry its team id; a missing team name is "Unknown" |
| Details.TableStats | app/services/matches/details.py:181 | one entry per table |
| Details.StatsList | app/services/matches/details.py:179-248 | no more team blocks than tables |
| Details.FirstTwo | app/services/matches/details.py:181 | `stats_tables[:2]`: the first two tables, or all when fewer |
| Details.PlayerStatsOf | app/services/matches/details.py:174-254 | a second team block only when there is a first |
| Details.PlayerStatsSources | app/services/matches/details.py:181-252 | a headed first table is team 1; a headerless first table lets the second stand in as team 1; team 2 exists exactly when both tables are headed; tables past the second are never read |
| Details.GetPlayerStats | app/services/matches/details.py:174-254 | the table loop returns the team blocks of the specification |
| Details.TimeUnix | app/services/matches/details.py:308 | no text gives None; otherwise the value of `int()` on the text, raising exactly when the text is not an integer |
| Details.MatchDetailsOf | app/services/matches/details.py:256-318 | the record fails exactly when the maps or the time raise ValueError; otherwise it holds the id, the URL, both teams, the winner and final score derived from them, the maps, the two stats blocks, the event id and absolute event URL, the event name, date and format text read from the page, the time's `int()` value, and the format type of that format text |
| Details.FinalScoreOfPage | app/services/matches/details.py:287-290 | a match's final score reads back as its two teams' scores |
| Details.GetMatchDetails | app/services/matches/details.py:256-318 | the service returns the record of the specification |
| Results.ResultsUrl | app/services/matches/results.py:29-35 | the offset appears in the URL exactly when it is positive |
| Results.ResultsUrlOffset | app/services/matches/results.py:32-33 | the offset reads back from the URL, so distinct offsets request distinct pages |
| Results.MatchIdOfPath | app/services/matches/results.py:43-48 | `/matches/<d>/…` gives the id `d` |
| Results.ParseFormat | app/services/matches/results.py:50-57 | a result exactly for a non-empty text, lower-cased and stripped |
| Results.ParseFormatIdempotent | app/services/matches/results.py:54 | normalising a normalised format changes nothing |
| Results.ScoreText | app/services/matches/results.py:87-98 | no text gives no score; otherwise `int(trim(...))`, None when that fails |
| Results.TeamName | app/services/matches/results.py:78-79 | the trimmed first text, or "Unknown" |
| Results.ParseContainer | app/services/matches/results.py:59-118 | a container is listed exactly when it has a link holding a match number; the entry holds that number, the absolute URL, the team names and scores, the trimmed event name, and the normalised format; dates are filled in later |
| Results.ContainerOfMatchLink | app/services/matches/results.py:63-70 | a container linking to `/matches/<d>/…` is listed as `d` |
| Results.UnreadableInRange | app/services/matches/results.py:138-158 | a missing or unreadable date is in range and not before the start |
| Results.BeforeStartOutOfRange | app/services/matches/results.py:138-162 | a date before the start is out of range, whatever the end |
| Results.InDateRangeIsCalendar | app/services/matches/results.py:138-162 | with ISO bounds, being in range is lying on or between the two days, and being before the start is being chronologically earlier |
| Results.Dated | app/services/matches/results.py:200-203 | an entry is stamped with its section's date and that date as read |
| Results.ContainerEntries | app/services/matches/results.py:199 | one entry per container |
| Results.SectionMatches | app/services/matches/results.py:197-204 | no more matches than containers |
| Results.SectionDate | app/services/matches/results.py:183-185 | a section with a headline uses it, trimmed; one without inherits the previous date |
| Results.SectionStep | app/services/matches/results.py:181-204 | the step records the date in force |
| Results.SectionStepFacts | app/services/matches/results.py:186-194 | a section stops the walk exactly when its headline is before the start; it adds matches only when its date is in range and it does not stop |
| Results.WalkStep | app/services/matches/results.py:181-204 | the walk over one more section is the step applied to the walk so far |
| Results.WalkReached | app/services/matches/results.py:186-190 | `reached_before_start` holds exactly when some section's headline is before the start |
| Results.WalkStopped | app/services/matches/results.py:190 | after the stop, later sections change nothing |
| Results.StopSectionAddsNothing | app/services/matches/results.py:186-190 | the stopping section adds nothing: the matches are those of the sections before it |
| Results.WalkWellDated | app/services/matches/results.py:192-204 | every listed match has an in-range date, that date as read, and a match number |
| Results.WalkGrows | app/services/matches/results.py:204 | the walk only appends |
| Results.SectionStepAdds | app/services/matches/results.py:192-204 | an in-range section that does not stop adds its matches |
| Results.ContainerListed | app/services/matches/results.py:197-204 | every readable container of an in-range section before the stop is listed with its section's date |
| Results.ResultsOf | app/services/matches/results.py:164-220 | `total_count` is the number of matches; `has_more` holds exactly when there is a next link and the walk did not stop; `next_offset` is `offset + 100` exactly when `has_more`; the matches and the stop flag are the walk's |
| Results.GetSectionMatches | app/services/matches/results.py:199-204 | the container loop returns the section's matches |
| Results.ResultsDated | app/services/matches/results.py:181-217 | every match of the response is well dated, and the stop flag is set exactly when some section is before the start |
| Results.GetResults | app/services/matches/results.py:164-220 | the section loop returns the response of the specification |
| Results.MatchIds | app/services/matches/results.py:222-230 | the ids of the listed matches, in order |
| Results.MatchIdsNumeric | app/services/matches/results.py:222-230 | every listed id is a non-empty digit string |
| Upcoming.Firsts | app/services/matches/upcoming.py:54-66 | no more entries than links |
| Upcoming.MatchNumbers | app/services/matches/upcoming.py:64 | the match numbers of the entries, in order |
| Upcoming.IdsFirstHolder | app/services/matches/upcoming.py:57-61 | every number held by a link has a first link holding it |
| Upcoming.FirstsDistinct | app/services/matches/upcoming.py:55-61 | no match number is listed twice |
| Upcoming.FirstsSound | app/services/matches/upcoming.py:57-66 | every entry is the first link holding its number, made absolute |
| Upcoming.FirstsComplete | app/services/matches/upcoming.py:57-66 | every number some link holds is listed |
| Upcoming.FirstsOrder | app/services/matches/upcoming.py:57-66 | entries come in first-occurrence order |
| Upcoming.UpcomingOf | app/services/matches/upcoming.py:41-76 | `total_count` equals the number of matches, which are a prefix of the first entries, cut at the limit |
| Upcoming.UpcomingBounded | app/services/matches/upcoming.py:68-69 | with `limit >= 1`, at most `limit` matches, all distinct |
| Upcoming.UpcomingComplete | app/services/matches/upcoming.py:57-69 | fewer matches than the limit means no match number was left out |
| Upcoming.GetUpcoming | app/services/matches/upcoming.py:41-76 | the loop with its seen set returns the response of the specification |
| Upcoming.BoxPlayers | app/services/matches/upcoming.py:124-139 | strategy 1 gives one player per name |
| Upcoming.BoxPairing | app/services/matches/upcoming.py:132-139 | the i-th name goes with the i-th link and flag, with no id or country when those lists are shorter |
| Upcoming.GetBoxPlayers | app/services/matches/upcoming.py:124-139 | the strategy 1 loop returns the specified players |
| Upcoming.TablePlayers | app/services/matches/upcoming.py:141-157 | strategy 2 gives no more players than rows |
| Upcoming.TableSound | app/services/matches/upcoming.py:148-157 | every player of strategy 2 comes from a row with a nick, named by it |
| Upcoming.TableComplete | app/services/matches/upcoming.py:148-157 | every row with a nick gives a player; the others are skipped |
| Upcoming.GetTablePlayers | app/services/matches/upcoming.py:141-157 | the strategy 2 loop returns the specified players |
| Upcoming.SlugNameOfPath | app/services/matches/upcoming.py:168 | a link ending in `/<slug>` names the player by the slug with `-` as spaces, title-cased |
| Upcoming.PanelName | app/services/matches/upcoming.py:166-171 | inner div text wins; otherwise the slug of a non-empty href |
| Upcoming.PanelPlayer | app/services/matches/upcoming.py:166-178 | a player exactly when the name is non-empty, with its id from the href |
| Upcoming.PanelPlayers | app/services/matches/upcoming.py:159-179 | strategy 3 gives no more players than links |
| Upcoming.PanelSound | app/services/matches/upcoming.py:172-178 | every strategy 3 player has a non-empty name taken from one of the links |
| Upcoming.PanelComplete | app/services/matches/upcoming.py:172-178 | every link giving a non-empty name gives a player |
| Upcoming.GetPanelPlayers | app/services/matches/upcoming.py:159-179 | the strategy 3 loop returns the specified players |
| Upcoming.LineupFallback | app/services/matches/upcoming.py:124-179 | each strategy is used only when all earlier ones found no player; the lineup is empty only when all three are |
| Upcoming.TeamLineupOf | app/services/matches/upcoming.py:113-186 | the team name is the trimmed header name or "Unknown", and the players are those of the fallback |
| Upcoming.TeamDefaults | app/services/matches/upcoming.py:115-186 | a header without a name shows "Unknown"; one without a link has no team id |
| Upcoming.GetTeamLineup | app/services/matches/upcoming.py:113-186 | the three strategy loops return the specified lineup |
| Upcoming.LiveUnlessCountingDown | app/services/matches/upcoming.py:202-205 | a match is not live exactly when it has a countdown and no live indicator |
| Upcoming.LineupsOf | app/services/matches/upcoming.py:188-223 | fails exactly when `int()` of the first start time raises; otherwise it holds the id, the URL, the live flag, both teams' lineups, the first event name, date and format texts, and the start time's `int()` value |
| Upcoming.GetLineups | app/services/matches/upcoming.py:188-223 | the service returns the lineups of the specification |
| Csv.MatchRow | app/storage/csv_storage.py:104-128 | the match row has exactly the matches header's width, starting with the id and ending with the write time |
| Csv.MatchRowInHeaderOrder | app/storage/csv_storage.py:104-128 | cell k of the match row holds the match's value for the k-th column (`MatchField`, written per column name) |
| Csv.MatchesHeaderNames | app/storage/csv_storage.py:57-62 | the k-th name of the matches header is the name of the k-th column, so each cell sits under its own header name |
| Csv.MapRow | app/storage/csv_storage.py:130-150 | a map row has the maps header's width, and cell k holds the map's value for the k-th column (`MapField`) |
| Csv.MapsHeaderNames | app/storage/csv_storage.py:63-67 | the k-th name of the maps header is the name of the k-th column |
| Csv.PlayerStatsRow | app/storage/csv_storage.py:178-208 | a statistics row has its header's width, with the match id and player id in place |
| Csv.MatchPlayerRow | app/storage/csv_storage.py:152-176 | a roster row has its header's width, with the match id and player id in place |
| Csv.TeamRow | app/storage/csv_storage.py:210-221 | a team row exactly when the team id is set, keyed by it, of the header's width |
| Csv.PlayerRow | app/storage/csv_storage.py:223-235 | a player row exactly when the player id is set, keyed by it, of the header's width |
| Csv.TeamEntries | app/storage/csv_storage.py:158-186 | an absent team block gives no lines; a present one gives one line per player, in order |
| Csv.MapRows | app/storage/csv_storage.py:130-150 | one map row per map |
| Csv.StatsRows | app/storage/csv_storage.py:178-208 | one statistics row per player line |
| Csv.MatchPlayersRows | app/storage/csv_storage.py:152-176 | one roster row per player line |
| Csv.PlayerLineRows | app/storage/csv_storage.py:152-284 | one statistics row and one roster row for each player line of either team; at most one player row each |
| Csv.PlayerRowsExact | app/storage/csv_storage.py:276-284 | every player with an id has its player row |
| Csv.PlayerRowsSound | app/storage/csv_storage.py:276-284 | every player row is the row of a listed player with an id |
| Csv.TeamRowsExact | app/storage/csv_storage.py:269-274 | a team row exactly for each side whose team id is set, team1 first |
| Csv.ExtractMapRows | app/storage/csv_storage.py:130-150 | the loop returns the map rows |
| Csv.TeamLines | app/storage/csv_storage.py:184-186 | the loop returns one team block's lines |
| Csv.ExtractPlayerStatsRows | app/storage/csv_storage.py:178-208 | the loop returns the statistics rows |
| Csv.ExtractMatchPlayersRows | app/storage/csv_storage.py:152-176 | the loop returns the roster rows |
| Csv.Append | app/storage/csv_storage.py:98-102 | `_append_row` adds one row at the end of one table and leaves the others alone |
| Csv.ApplyRows | app/storage/csv_storage.py:250-284 | applying the writes appends to each table exactly the rows addressed to it |
| Csv.WrittenPrefix | app/storage/csv_storage.py:287-293 | what a failing save wrote is a beginning of what the whole plan writes |
| Csv.PlanRows | app/storage/csv_storage.py:250-284 | a save writes to each table exactly its own group of rows |
| Csv.PlannedShape | app/storage/csv_storage.py:57-284 | every planned row has its table's width |
| Csv.SaveOf | app/storage/csv_storage.py:237-293 | meets the storage contract: True only for a new, non-empty id that is now held; otherwise the held ids are unchanged |
| Csv.Commit | app/storage/csv_storage.py:250-293 | the id is recorded exactly when every append succeeds |
| Csv.SavedRows | app/storage/csv_storage.py:250-289 | a successful save adds one match row, one row per map, and one statistics and one roster row per player line |
| Csv.UnsavedRows | app/storage/csv_storage.py:239-293 | a refused save (empty or known id) changes nothing; a failed one leaves a beginning of the planned rows |
| Csv.SaveKeepsShape | app/storage/csv_storage.py:57-284 | saving keeps every row of every table at its header's width |
| Csv.SaveAllOf | app/storage/csv_storage.py:295-301 | meets the `save_matches` contract: the count is the number of ids newly held, at most the batch size |
| Csv.SaveAllAgain | app/storage/csv_storage.py:245-301 | saving a batch whose ids are all held stores nothing and counts 0 |
| Csv.SaveAllHolds | app/storage/csv_storage.py:287-301 | without failures every match of the batch with an id is held afterwards |
| Csv.RenderRow | app/storage/csv_storage.py:98-102 | a row is written as one text per cell, with None as "" |
| Csv.LastIndex | app/storage/csv_storage.py:92-94 | `csv.DictReader` maps a name to its last column, and finds no column when no column has the name |
| Csv.ColumnValuesExact | app/storage/csv_storage.py:92-94 | a value is loaded exactly when some record long enough has it in the column |
| Csv.MatchIdColumn | app/storage/csv_storage.py:57-96 | `match_id` names only the first column of matches.csv |
| Csv.ReloadIds | app/storage/csv_storage.py:89-96 | read back, the matches file yields exactly the ids of its rows |
| Csv.ReloadFindsSaved | app/storage/csv_storage.py:89-289 | a saved match is found again when matches.csv is loaded |
| Csv.LatestIsMax | app/storage/csv_storage.py:307-325 | the latest stamp is the greatest instant that parses, and exists unless none parses |
| Csv.RowCount | app/storage/csv_storage.py:358-364 | a file of `n` lines reports `n - 1` rows, and never fewer than 0 |
| Csv.RowCountOfFile | app/storage/csv_storage.py:358-364 | a file written as a header and one line per row reports its rows |
| Csv.CsvStorage.constructor | app/storage/csv_storage.py:26-96 | starts with no appended rows and the ids loaded from matches.csv |
| Csv.CsvStorage.LoadMatchIds | app/storage/csv_storage.py:89-96 | the loop returns the ids loaded from the file |
| Csv.CsvStorage.SaveMatch | app/storage/csv_storage.py:237-293 | the new files, ids and result are those of `SaveOf` |
| Csv.CsvStorage.AppendAll | app/storage/csv_storage.py:250-293 | succeeds exactly when no append fails, having applied the writes up to the failing one, and leaves the ids alone |
| Csv.CsvStorage.SaveMatches | app/storage/csv_storage.py:295-301 | the new state and count are those of `SaveAllOf` |
| Csv.CsvStorage.MatchExists | app/storage/csv_storage.py:303-305 | true exactly when the id is held |
| Csv.CsvStorage.GetMatchCount | app/storage/csv_storage.py:327-329 | the number of held ids |
| Csv.CsvStorage.GetScrapedMatchIds | app/storage/csv_storage.py:331-333 | every held id, each once |
| Csv.CsvStorage.GetLastScrapedDate | app/storage/csv_storage.py:307-325 | None without a file or stamps; otherwise the latest stamp |
| Workers.Try | app/workers/scraper.py:150-153 | a record from an attempt is the requested match's |
| Workers.FirstSuccess | app/workers/scraper.py:149-162 | the first attempt below `max_retries` that yields a record, or None when none does |
| Workers.Waits | app/workers/scraper.py:159-160 | the waits are the delay multiples `k + 1, k + 2, …`, one per failed attempt |
| Workers.RetryCharacterised | app/workers/scraper.py:147-162 | returns the first successful attempt's record after one wait per earlier attempt; when every attempt fails, returns None, with a wait after all but the last |
| Workers.RetrySucceeds | app/workers/scraper.py:147-162 | a record exactly when some attempt below `max_retries` succeeds, and it is that match's |
| Workers.ScrapeWithRetry | app/workers/scraper.py:147-162 | the loop returns the record and waits of the specification |
| Workers.RetryLoop | app/workers/scraper.py:147-162 | for any description `attempts` of what each attempt yields, the loop returns the record and waits `RetryFrom` gives |
| Workers.AttemptOnce | app/workers/scraper.py:150-153 | one attempt downloads the page and builds its record, which is what `attempts` says attempt `k` yields |
| Workers.Gather | app/workers/scraper.py:172-196 | the first request asks for the starting offset |
| Workers.GatherOffsets | app/workers/scraper.py:167-196 | the i-th request asks for `offset + 100 * i`, with at most one request per page and one more |
| Workers.GatherNumeric | app/workers/scraper.py:172-196 | every collected id is a match number |
| Workers.GatherContinues | app/workers/scraper.py:172-196 | another page is requested only after one that answered with `has_more` set, and that page's ids begin what is collected; a walk of one request keeps that page's ids, or none when the request raised |
| Workers.GatherAdvance | app/workers/scraper.py:172-196 | one page adds its match numbers, then the rest if it says there is more |
| Workers.GatherIds | app/workers/incremental.py:92-116 | the paging loop returns the ids and requests of the specification |
| Scraper.RoundTrip | app/workers/scraper.py:37-64 | `from_dict(to_dict(p)) == p` for all ten fields |
| Scraper.ToDictKeys | app/workers/scraper.py:37-49 | `to_dict` writes exactly the ten keys |
| Scraper.StrsOf | app/workers/scraper.py:61 | a list of texts is read back element by element; a non-text element is rejected |
| Scraper.StrsOfJson | app/workers/scraper.py:48-61 | a list of ids written as JSON reads back as itself |
| Scraper.OptAtJson | app/workers/scraper.py:38-63 | an optional text written as JSON reads back as itself |
| Scraper.EmptyDefaults | app/workers/scraper.py:56-63 | an empty dict gives offset 0, counts 0, no failures, no dates and `completed` false |
| Scraper.OtherKeysIgnored | app/workers/scraper.py:51-64 | keys other than the ten make no difference |
| Scraper.FromDictAgrees | app/workers/scraper.py:51-64 | a field read from a dict writes back as the value that was read |
| Scraper.LoadProgress | app/workers/scraper.py:118-139 | the progress in use always has the requested dates and is not completed |
| Scraper.LoadDecides | app/workers/scraper.py:118-139 | a readable checkpoint is reused exactly when its dates match and it is not completed; otherwise, or on a missing or unreadable file, the progress is fresh |
| Scraper.ReloadAfterSave | app/workers/scraper.py:118-145 | reloading a saved checkpoint resumes it, unless it was completed |
| Scraper.SavedReloads | app/workers/scraper.py:141-145 | a save stamps `last_updated`, writes the progress, and counts one more write |
| Scraper.CollectRecords | app/workers/scraper.py:164-200 | the offset is read but not advanced; `total_matches_found` is the number of ids; one write; every id is a match number |
| Scraper.Records | app/workers/scraper.py:224-247 | indices before the skip count give nothing; the others give their outcome |
| Scraper.Failures | app/workers/scraper.py:242-247 | exactly the processed ids whose outcome failed |
| Scraper.CloseHandsOver | app/workers/scraper.py:249-257 | closing a batch only appends to the batches handed over; what was handed over plus the open batch stays the same records in the same order |
| Scraper.CloseKeeps | app/workers/scraper.py:249-257 | closing a batch leaves the progress alone and never loses a write |
| Scraper.VisitAccounts | app/workers/scraper.py:224-247 | one id leaves the dates, offset, found count, start and `completed` alone, and adds exactly one to successes plus failures when processed |
| Scraper.LoopAccounts | app/workers/scraper.py:222-257 | over the loop, successes plus failures grow by exactly the number of processed ids; failures are only appended; the dates, offset, found count, start and `completed` stay as they were |
| Scraper.FlattenAppend | app/workers/scraper.py:249-257 | handing over batches in two parts hands over their concatenation |
| Scraper.VisitRecords | app/workers/scraper.py:233-257 | one id appends its failure, its delivery and its batch entry |
| Scraper.LoopFailures | app/workers/scraper.py:242-247 | `failed_matches` grows by the failed ids, in order |
| Scraper.LoopDelivers | app/workers/scraper.py:236-240 | with per-match callbacks, exactly the successful records are delivered, in order |
| Scraper.LoopHandsOver | app/workers/scraper.py:249-257 | with batch callbacks, the handed-over batches plus the open batch are exactly the successes, in order |
| Scraper.VisitBatches | app/workers/scraper.py:249-257 | one id either keeps the batch below the size or closes it |
| Scraper.LoopBatches | app/workers/scraper.py:249-257 | with a positive batch size, every batch handed over has exactly that size, and the open batch stays below it |
| Scraper.LoopSavesEach | app/workers/scraper.py:249-251 | with a batch size of 0 or less, every processed id triggers a write |
| Scraper.ScrapeAllReports | app/workers/scraper.py:202-282 | "no_matches" exactly when no id was found, after one write; otherwise the summary mirrors the final progress and counts every id found; successes plus failures account for every processed id; the offset never moved; at least two writes were made; and the file holds the completed progress, so a reload starts fresh |
| Scraper.HistoricalScraper.constructor | app/workers/scraper.py:79-116 | the scraper starts with the loaded progress and no writes |
| Scraper.HistoricalScraper.SaveProgress | app/workers/scraper.py:141-145 | the new state is the old one saved |
| Scraper.HistoricalScraper.GetAllMatchIds | app/workers/scraper.py:164-200 | the ids and new state are those of `CollectOf` |
| Scraper.HistoricalScraper.ScrapeEach | app/workers/scraper.py:222-257 | the loop's state and open batch are those of `Loop` |
| Scraper.HistoricalScraper.VisitMatch | app/workers/scraper.py:224-257 | one loop step is the `Visit` step |
| Scraper.HistoricalScraper.RecordOutcome | app/workers/scraper.py:233-247 | recording an outcome is the `Record` step |
| Scraper.HistoricalScraper.CloseBatch | app/workers/scraper.py:249-257 | saving and handing over a full batch is the `Close` step |
| Scraper.HistoricalScraper.ScrapeAll | app/workers/scraper.py:202-282 | the new state and summary are those of `ScrapeAllOf` |
| Incremental.Unheld | app/workers/incremental.py:119 | each gathered id is kept exactly when it is not held |
| Incremental.NewIds | app/workers/incremental.py:119 | no more new ids than gathered ones |
| Incremental.NewIdsExact | app/workers/incremental.py:88-119 | an id is new exactly when it was gathered and is not held |
| Incremental.NewIdsOrdered | app/workers/incremental.py:119 | new ids keep the listing order |
| Incremental.Failures | app/workers/incremental.py:158-161 | exactly the ids whose download failed |
| Incremental.VisitAccounts | app/workers/incremental.py:149-161 | one id counts at most once; a failed download adds one failure and lists its id; the held ids only grow, by one for each match counted as new |
| Incremental.LoopAccounts | app/workers/incremental.py:149-163 | `scraped + failed <= n`; `failed_ids` are the failed ids in order; stored ids only grow, by the number scraped |
| Incremental.UpdateReports | app/workers/incremental.py:124-174 | aborted exactly when the date window overflows; "no_updates" exactly when nothing new is listed in the window; the store is untouched in both cases; otherwise new + failed is at most the new ids, `failed_matches` is the number of failed ids, and `total_in_storage` is the held count, grown by the number saved |
| Incremental.IncrementalScraper.constructor | app/workers/incremental.py:36-55 | keeps the storage, retry count and lookback |
| Incremental.IncrementalScraper.GetNewMatchIds | app/workers/incremental.py:82-122 | the ids returned are the new ids of the window |
| Incremental.IncrementalScraper.UpdateOne | app/workers/incremental.py:149-161 | one loop step is the `Visit` step |
| Incremental.IncrementalScraper.Update | app/workers/incremental.py:124-174 | the new storage state and summary are those of `UpdateOf` |

## Left out

- Text is ASCII. The whitespace set of `strip`/`split` is the ASCII characters `str.isspace` accepts, and letter case covers only A-Z. `int()` reads only the ASCII digits 0-9, while Python also accepts other Unicode decimal digits.
- `trim` from app/utils/utils.py is not part of this model. It is modelled as a strip of surrounding whitespace.
- `float()` of ADR, KAST, rating and swing: floating point. Only the text cleanup before the conversion is modelled. The statistics are kept as the cleaned text, so the ValueError that `float()` raises on a non-numeric text is not modelled.
- HTTP transports, HTML parsing and the XPath selectors in app/utils/xpath.py are foreign libraries and configuration. Pages are datatypes holding the texts each query returns, and downloads are functions from attempt number to page or outcome.
- `time.sleep`, `random.uniform` and the rate-limit delays: waits are returned as values.
  - `make_request` returns its waits in seconds, from a jitter function.
  - The workers' retry loops return multiples of the delay.
  - The delays between listing pages and between matches are not recorded.
- `datetime.now()` and `datetime.fromisoformat`: the clock is a parameter (today's date, a stamp per checkpoint write, and one stamp for every row of a saved match; the source reads the clock separately for the match row and for each team and player row, so one save can stamp its rows with different instants), and stamp parsing is a function passed to `GetLastScrapedDate`.
- JSON and CSV file I/O: the checkpoint is a value (`Missing`, `Unreadable` or a dictionary), and each CSV file is a sequence of rows.
  - CSV quoting and encoding, `_init_csv_files` and `export_to_csv` are not modelled.
  - A loaded matches.csv record that stops before the `match_id` column contributes nothing to the id set; Python's `DictReader` adds None for it.
- `get_statistics`: only the per-file row count is modelled (`RowCount`). The dictionary assembly around it is left out.
- `threading.Lock`: concurrency.
- The PostgreSQL backend, the ORM models, the FastAPI endpoints and the diagnostic scripts under tests/ are outside the pipeline core.
- `StorageBackend` is an abstract class. It is modelled as predicates over the set of held ids, which the CSV backend's operations are proved to meet. The incremental updater is modelled over the CSV backend.
- Callbacks: `on_match_scraped` and `on_batch_complete` are recorded as the lists of records handed to them. A callback that raises is taken to be reported and ignored.
- The listing is a finite list of page answers. A request past its end behaves as a fetch error and ends paging.
- `_get_date_range` with a lookback that leaves the calendar raises OverflowError in the source. The model's `update` returns `Aborted` in that case.
- Csv.TeamRow: the `team_name`/`team_logo_url` fallback keys are absent from a match's team record. So the row uses `name` and `logo_url`, and an empty name or a missing logo is not replaced.
- Scraper.FromDict: a field of the wrong JSON type makes the checkpoint unreadable, so a fresh progress is used. Python would carry the ill-typed value into the progress.
- `HistoricalMatchScraper.get_status`, and the `main`/`run_incremental_update` entry points with their argument parsing and printing.
