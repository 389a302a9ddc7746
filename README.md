# tvguide2xmltv in Dafny

This project models the core of `tvguide2xmltv.py`, which turns TV Guide API listings into an XMLTV document, and proves what that core promises. The model covers five parts:

- **`CacheManager`** (module `Cache`): one JSON file per (platform, region, date, hour), valid while it is younger than the time-to-live. The directory is a `map` field of the class, which its methods update in place.
- **`TVGuideAPIClient.fetch_listings`** (module `Client`): the cache is consulted first. Cache-only mode fails on a miss. Otherwise there are up to `max_retries + 1` HTTP attempts with exponential backoff, and a successful listing is written back to the cache.
- **`fetch_multiple_hours` / `fetch_multiple_days`** (modules `Merge`, `RangeFetch`):
  - they walk an inclusive range of hours, and of days;
  - each page is merged into `channels_dict`, keyed by `pa_id`;
  - a repeated channel gains only the schedules whose `(pa_id, start_at)` key it lacked;
  - in cache-only mode a cache miss is skipped, and every other error propagates.
- **`calculate_now_range`** and the now mode of `main` (module `NowWindow`).
- **`TVGuideConverter`** (module `Converter`):
  - `parse_json`, `_parse_channel` and `_parse_programme` fill a channel table and a programme list. The table keeps the first insertion order, and later metadata overwrites earlier;
  - `generate_xmltv` renders the table and list as an element tree;
  - `_format_xmltv_time` writes `%Y%m%d%H%M%S %z`.

Supporting modules:

- `CivilTime`: the proleptic Gregorian calendar, Python's `date.min`..`date.max`, and fixed-offset times.
- `TimeText`: the XMLTV and ISO-8601 time texts, with their round trips.
- `Listings`: the payload and the error kinds.
- `Wrappers`: `Option` and `Result`.

Where the source works in place, the model does too:

- `CacheManager`, `ApiClient` and `TvGuideConverter` are classes whose methods update their fields.
- The merge, hour, day, retry and render loops are methods with `while` loops.
- Each method is proved equal to a specification function, and the properties are proved about those functions as lemmas.

Calls the model cannot see become parameters:

- the HTTP layer is `net` (what attempt `i` yields);
- `fetch_listings` as seen by the range functions is `pages` (what a (date, hour) request returns or raises);
- the clock is `now`;
- whether a cache write succeeds is `writeOk`.

## Model

| member | source | states |
|---|---|---|
| Cache.Digits | tvguide2xmltv.py:37 | `str(hour)` for a natural number is a non-empty digit string without a sign that reads back as the number |
| Cache.IntTextInjective | tvguide2xmltv.py:37 | two hours with the same `str` text are the same hour |
| Cache.SplitAtUnderscore | tvguide2xmltv.py:37 | a text joined at `_` splits back into its parts when the first part has no `_` |
| Cache.JoinInjective | tvguide2xmltv.py:37 | `os.path.join` with one directory and relative names is injective |
| Cache.FileName | tvguide2xmltv.py:35-37 | the file name ends in the key followed by `.json`; it lies inside the cache directory unless the key is itself an absolute path, which `os.path.join` then returns alone |
| Cache.KeyInjective | tvguide2xmltv.py:113 | the cache key determines platform, region, date and hour when none of the texts contains `_` |
| Cache.FileNameInjective | tvguide2xmltv.py:35-37 | the cache file name determines the request when the texts have no `_` and the platform is relative |
| Cache.KeyCollision | tvguide2xmltv.py:37 | with `_` inside a name, two different requests share a cache file (`sky_hd`/`london` vs `sky`/`hd_london`) |
| Cache.CacheManager.constructor | tvguide2xmltv.py:25-28 | a manager over the given directory and its existing files |
| Cache.ValidityDecays | tvguide2xmltv.py:57-66 | a file valid now was valid at every earlier moment, and is invalid from its modification time plus the TTL on |
| Cache.CacheManager.GetCachedData | tvguide2xmltv.py:68-91 | returns the file's listing only if the file exists, is younger than the TTL and reads back as JSON; otherwise None |
| Cache.CacheManager.SaveCachedData | tvguide2xmltv.py:93-125 | a successful write replaces exactly that request's file with the data stamped `now`; a failed write changes nothing |
| Cache.SaveThenGet | tvguide2xmltv.py:57-109 | reading back a file just saved gives the data while its age is below the TTL, and nothing after |
| Cache.MissWithoutError | tvguide2xmltv.py:57-91 | a lookup hits iff the file exists, is fresh and is readable JSON: every failure is a silent miss |
| Cache.SaveKeepsOthers | tvguide2xmltv.py:104-109 | saving one file leaves every other file's lookup unchanged |
| Client.Pow2 | tvguide2xmltv.py:242 | every backoff wait `2 ** attempt` is at least one second, and longer than the attempt number |
| Client.DefaultBackoff | tvguide2xmltv.py:241-243 | with three retries the waits are 1, 2 and 4 seconds, as the comment promises |
| Client.BackoffDoubles | tvguide2xmltv.py:242 | each wait is twice the one before it |
| Client.Answer | tvguide2xmltv.py:224-236 | a response that is not a transport error ends the loop, and succeeds iff it is a JSON list |
| Client.RetryFrom | tvguide2xmltv.py:214-249 | from attempt `i`, between one and the remaining allowed attempts are made, with one sleep fewer than attempts; a listing is saved exactly when one is returned |
| Client.FetchSpec | tvguide2xmltv.py:194-249 | a cache hit is returned with no attempt and nothing saved; a listing is saved only when the cache is in use, and then it is the fetched result; a fetched success is saved iff the cache is in use |
| Client.RetryShape | tvguide2xmltv.py:214-249 | the loop makes between 1 and `max_retries + 1` attempts; the waits are `2**i` for each failed attempt but the last; every earlier attempt failed in transport; success iff a listing is saved; failures are only InvalidJson, NotAList or FetchFailed(`max_retries + 1`) |
| Client.RetryFirstAnswer | tvguide2xmltv.py:214-236 | the first non-transport response decides the result, after exactly that many attempts and the waits before it |
| Client.RetryAllTransport | tvguide2xmltv.py:238-249 | when every attempt fails in transport, the fetch raises after `max_retries + 1` attempts with `max_retries` waits and saves nothing |
| Client.FetchPolicy | tvguide2xmltv.py:194-249 | the network is used iff there is no cache hit, the mode is not cache-only and `max_retries >= 0`; a listing is saved iff the cache is in use and a fetch succeeded; CacheMiss is raised iff the mode is cache-only and there is no hit |
| Client.Retry | tvguide2xmltv.py:214-249 | the retry loop computes `RetryFrom(net, max_retries, 0)` |
| Client.ApiClient.constructor | tvguide2xmltv.py:158-167 | a client with a fresh cache manager over the given directory |
| Client.ApiClient.FetchListings | tvguide2xmltv.py:169-249 | result, attempts and waits follow `FetchSpec` over the cache's lookup; the cache changes only by storing a fetched listing when caching is on and the write succeeds |
| Merge.Values | tvguide2xmltv.py:479 | `list(channels_dict.values())` lists the stored channels in key-insertion order |
| Merge.FirstKeyError | tvguide2xmltv.py:464-466 | a list of schedules raises KeyError iff some schedule lacks `pa_id` or `start_at` |
| Merge.Keys | tvguide2xmltv.py:464 | the key set holds exactly the `(pa_id, start_at)` pairs of the list |
| Merge.Absent | tvguide2xmltv.py:465-468 | the incoming schedules kept are keyed, and there are no more of them than came in |
| Merge.MergeChannel | tvguide2xmltv.py:458-468 | merging one channel keeps the dictionary well formed, and fails only with KeyError |
| Merge.MergeBatch | tvguide2xmltv.py:458-468 | merging a page keeps the dictionary well formed, and fails only with KeyError |
| Merge.MergeInto | tvguide2xmltv.py:458-468 | the merge loop computes `MergeBatch` |
| Merge.MergeOne | tvguide2xmltv.py:459-468 | one pass of the merge loop computes `MergeChannel`: an unseen channel is stored whole, a known one gets the incoming schedules absent from its snapshot appended, and the first KeyError is raised |
| Merge.AppendAbsent | tvguide2xmltv.py:465-468 | the inner loop raises the first KeyError of the incoming list, and otherwise appends the incoming schedules absent from the snapshot, in order |
| Merge.MergeBatchOfPrefix | tvguide2xmltv.py:458-468 | once a prefix of a page fails, the whole page fails the same way |
| Merge.FirstKeyErrorOfPrefix | tvguide2xmltv.py:465-466 | a KeyError in a prefix is the list's KeyError |
| Merge.Dedup | tvguide2xmltv.py:460-461 | the dictionary's key order: distinct, the same members, ordered by first appearance |
| Merge.DedupOfDistinct | tvguide2xmltv.py:460-461 | a list without repeats is its own key order |
| Merge.DedupPrefix | tvguide2xmltv.py:283 | ordering a prefix of the keys first does not change the final key order |
| Merge.MergeChannelIds | tvguide2xmltv.py:459-461 | a new `pa_id` is appended to the key order; a known one keeps its place |
| Merge.MergeChannelStored | tvguide2xmltv.py:458-468 | a new channel is stored as it is; a known one keeps its metadata and gains exactly the incoming schedules absent from its stored keys; other entries are untouched |
| Merge.MergeSucceeds | tvguide2xmltv.py:458-468 | a page whose channels all carry `pa_id`, `schedules` and keyed schedules merges without error, onto exactly the old ids plus the page's |
| Merge.MergeOrder | tvguide2xmltv.py:458-479 | after a successful merge the key order is the old ids followed by the page's `pa_id`s in order of first appearance |
| Merge.MergeKeepsFirstMetadata | tvguide2xmltv.py:460-461 | every stored channel keeps the metadata of its first occurrence |
| Merge.MergeSchedules | tvguide2xmltv.py:462-468 | each stored schedule list is its base followed by each later occurrence's absent schedules, in page order |
| Merge.KeysOfAbsent | tvguide2xmltv.py:464-468 | the kept schedules carry exactly the incoming keys missing from the snapshot |
| Merge.AbsentOfCovered | tvguide2xmltv.py:464-468 | a channel whose keys are all stored adds nothing |
| Merge.CombineExtends | tvguide2xmltv.py:468 | merging only appends to a stored list |
| Merge.CombineKeys | tvguide2xmltv.py:464-468 | the merged list's keys are the base keys together with every incoming key |
| Merge.AbsentDistinct | tvguide2xmltv.py:464-468 | filtering keeps a list with distinct keys distinct |
| Merge.CombineDistinct | tvguide2xmltv.py:464-468 | merged lists keep distinct keys when every input list has them |
| Merge.RepeatWithinOneListKept | tvguide2xmltv.py:464-468 | the snapshot is taken once per channel, so a key repeated within one incoming list is appended twice |
| Merge.MergeCovers | tvguide2xmltv.py:458-468 | after a merge every stored list still starts with its old contents, and every page channel's keys are present under its `pa_id` |
| Merge.MergeCoveredBatch | tvguide2xmltv.py:458-468 | merging a page whose keys are all stored changes nothing |
| Merge.MergeIdempotent | tvguide2xmltv.py:458-468 | merging the same page twice gives the same dictionary as merging it once |
| Merge.MergeNoRepeatedKeys | tvguide2xmltv.py:464-468 | no stored list gains a repeated key when the inputs have none |
| Merge.MergedSchedulesOf | tvguide2xmltv.py:462-468 | one stored list after a successful merge is its base combined with the page's lists for that id |
| Merge.MergedListDistinct | tvguide2xmltv.py:464-468 | one stored list has distinct keys after the merge when the inputs do |
| Merge.MergeBatchAppend | tvguide2xmltv.py:438-468 | merging two pages in a row is merging their concatenation |
| Merge.MergeBatchSnoc | tvguide2xmltv.py:458-468 | merging a page and then one more channel is merging the page extended by that channel |
| Merge.MergeKeepsStored | tvguide2xmltv.py:462-468 | every stored schedule list stays a prefix of its list after the merge |
| Merge.MergeHoldsBatch | tvguide2xmltv.py:458-468 | after a merge every schedule the page brought is present, by key, under its channel |
| Merge.MergeChannelIdsMatch | tvguide2xmltv.py:459-461 | one merged channel keeps every entry stored under its own `pa_id` |
| Merge.MergeBatchIdsMatch | tvguide2xmltv.py:458-461 | a merged page keeps every entry stored under its own `pa_id` |
| Merge.ValuesUnique | tvguide2xmltv.py:479 | `list(channels_dict.values())` holds one channel per `pa_id` |
| Merge.AbsentAppend | tvguide2xmltv.py:464-468 | filtering a concatenation against one snapshot is filtering each part |
| Merge.AbsentTwice | tvguide2xmltv.py:464-468 | filtering against one snapshot and then another is filtering against both |
| Merge.MergeAbsorbed | tvguide2xmltv.py:458-468 | merging a channel whose schedules already absorbed a later one of the same id is merging the two in turn |
| Merge.MergeCommutes | tvguide2xmltv.py:458-468 | two channels with different ids merge in either order to the same dictionary |
| Merge.MergeAbsorbedInBatch | tvguide2xmltv.py:458-468 | absorbing a channel into the one page entry with its id is merging it after the whole page |
| Merge.MergeValuesStep | tvguide2xmltv.py:458-479 | merging the values of a dictionary grown by one channel is merging the old values and then that channel |
| Merge.MergeOfMerged | tvguide2xmltv.py:458-479 | merging the value list of an earlier merge is merging the pages that went into it |
| Merge.MergeSplit | tvguide2xmltv.py:458-479 | merging the result of one run of pages into the result of another is merging all the pages in one run |
| RangeFetch.AddPage | tvguide2xmltv.py:457-476 | one fetch either merges its page, is skipped (a cache miss in cache-only mode) or raises; the dictionary stays well formed |
| RangeFetch.AddPageInto | tvguide2xmltv.py:442-476 | the try block computes `AddPage` |
| RangeFetch.FetchHours | tvguide2xmltv.py:403-479 | a successful hour run returns one channel per `pa_id` |
| RangeFetch.HoursFoldIdsMatch | tvguide2xmltv.py:457-461 | the hour loop stores each channel under its own `pa_id` |
| RangeFetch.FetchMultipleHours | tvguide2xmltv.py:403-479 | returns `FetchHours` and asks for exactly `HourRequests`, in order |
| RangeFetch.MergeHours | tvguide2xmltv.py:434-476 | the hour loop ends with `channels_dict` equal to `HoursFold` over every hour, or its first error, having asked for exactly `HoursAsked` |
| RangeFetch.HoursFoldStep | tvguide2xmltv.py:438-476 | each further hour asks for `(date, hour)` once and merges that page |
| RangeFetch.HoursFoldStopsAt | tvguide2xmltv.py:470-476 | after an error no later hour is asked for and the error is the result |
| RangeFetch.HoursAskedSpan | tvguide2xmltv.py:438-476 | a run asks for every hour in order when it succeeds, and for an initial run of hours ending at the failing one when it fails |
| RangeFetch.HourRequestsInOrder | tvguide2xmltv.py:428-476 | `start_hour > end_hour` raises before any request; otherwise the requests are hours `start_hour..end_hour` in order, or a prefix of them that ends at the error |
| RangeFetch.SkipIsEmptyPage | tvguide2xmltv.py:470-474 | in cache-only mode a skipped hour acts as an empty page |
| RangeFetch.HoursFoldNeverMisses | tvguide2xmltv.py:470-476 | in cache-only mode an hour run never raises a cache miss |
| RangeFetch.DaySkipUnreachable | tvguide2xmltv.py:567-573 | the day loop's cache-miss skip never fires: a day's failure always propagates |
| RangeFetch.HoursErrorOrigin | tvguide2xmltv.py:442-476 | an hour run's error is a merge KeyError or the unskipped error of some requested hour |
| RangeFetch.HoursFoldIsOneMerge | tvguide2xmltv.py:434-479 | page-by-page merging equals one merge of all pages gathered in order |
| RangeFetch.DayStringsCount | tvguide2xmltv.py:525-527 | the loop visits `end - start + 1` days when `start <= end`, and none otherwise |
| RangeFetch.DayStringsAt | tvguide2xmltv.py:525-527 | every date from `start` to `end` is visited, `%Y-%m-%d`-formatted, at position `date - start` |
| RangeFetch.DayEndHour | tvguide2xmltv.py:532-534 | the last-day adjustment leaves the end hour unchanged |
| RangeFetch.DaysFold | tvguide2xmltv.py:536-575 | merging day results keeps the dictionary well formed |
| RangeFetch.FetchDays | tvguide2xmltv.py:482-578 | a successful day run returns one channel per `pa_id` |
| RangeFetch.DaysFoldIdsMatch | tvguide2xmltv.py:556-561 | the day loop stores each channel under its own `pa_id` |
| RangeFetch.DayStringsStep | tvguide2xmltv.py:525-527 | the first date visited is the start; from `date.max` only one is visited, otherwise the rest start on the next day |
| RangeFetch.FetchMultipleDays | tvguide2xmltv.py:482-578 | returns `FetchDays` and asks for exactly `DayRequests`, in order |
| RangeFetch.FetchDaysUnfold | tvguide2xmltv.py:515-578 | `start > end` raises before any request; otherwise the days are folded, and ending on `date.max` overflows |
| RangeFetch.DaysFoldStep | tvguide2xmltv.py:536-575 | each further day asks for its hours and merges its result |
| RangeFetch.DaysFoldStopsAt | tvguide2xmltv.py:567-575 | after a day fails no later day is asked for |
| RangeFetch.DayMerged | tvguide2xmltv.py:536-566 | a day that let the loop go on merged its hours on their own, and that result into the dictionary |
| RangeFetch.DaysFoldIsOneMerge | tvguide2xmltv.py:522-578 | day-by-day merging of each day's merged hours equals one merge of every raw hour page, days in order and hours ascending |
| RangeFetch.DayPagesMerged | tvguide2xmltv.py:522-578 | a run that went on past a day succeeded on the days before it, and one more day's raw pages extend the one merge |
| RangeFetch.DaysFoldPrefix | tvguide2xmltv.py:525-575 | the first days of a longer list fold and gather as the same days alone |
| RangeFetch.DaysPagesAppend | tvguide2xmltv.py:525-566 | the pages of two runs of days back to back are the first run's pages, then the second's |
| RangeFetch.DaysPagesOfJoin | tvguide2xmltv.py:525-566 | the same for two whole runs of days |
| RangeFetch.DaysFoldEarlier | tvguide2xmltv.py:525-575 | a successful run of days also succeeded on each of its first days |
| RangeFetch.DaysFoldOfFirstPart | tvguide2xmltv.py:525-575 | a successful run over two parts succeeded on its first part |
| RangeFetch.DaysFoldOfParts | tvguide2xmltv.py:525-575 | a successful run over two parts is one merge of the first part's pages followed by the second's |
| RangeFetch.DaysSplit | tvguide2xmltv.py:482-578 | fetching days `a`, then merging in what fetching days `b` on their own returned, is fetching `a + b` in one run |
| RangeFetch.DaysAskedSpan | tvguide2xmltv.py:525-575 | a successful run asks for hours `start_hour..end_hour` of every day in order |
| RangeFetch.DaySucceeds | tvguide2xmltv.py:536-575 | a successful day asked for all its hours |
| RangeFetch.FetchDaysCovers | tvguide2xmltv.py:482-578 | a successful run covers `end - start + 1` days, asks for every (day, hour) in order, and returns the values of one merge of every raw hour page, in order |
| NowWindow.NowRange | tvguide2xmltv.py:582-603 | the window starts in the hour slot before now and ends on `now + days` at hour 23; it fails with an overflow iff either end leaves the years a date can hold |
| NowWindow.FetchNow | tvguide2xmltv.py:809-828 | an overflowing window raises OverflowError before any fetch; a successful now mode returns one channel per `pa_id` |
| NowWindow.NowRequests | tvguide2xmltv.py:809-828 | an overflowing window asks for nothing, and every request names an hour of the day (0–23) |
| NowWindow.NowExampleWindow | tvguide2xmltv.py:594-603 | now 2025-01-15 15:30 with one day gives 2025-01-15 hour 14 to 2025-01-16 hour 23 |
| NowWindow.DaysAskedHours | tvguide2xmltv.py:536-548 | every request of a day run has an hour between `start_hour` and `end_hour` |
| NowWindow.FirstDayCovered | tvguide2xmltv.py:437-476 | a successful hour run to 23 asked for every hour from its start hour on |
| NowWindow.NowSkipsEarlyHours | tvguide2xmltv.py:809-828 | as written, now mode never asks for an hour before the first day's start hour, on any day |
| NowWindow.NowMissesMidnight | tvguide2xmltv.py:809-828 | as written, now 2025-01-15 15:30 with one day never asks for 2025-01-16 hour 0 |
| NowWindow.WindowOrder | tvguide2xmltv.py:594-599 | with at least one day the window spans at least two dates |
| NowWindow.FetchNowWindow | tvguide2xmltv.py:809-828 | the corrected now mode (first day from its start hour, later days whole) computes `NowFixed` and asks for `NowFixedRequests` |
| NowWindow.WholeDaysCovered | tvguide2xmltv.py:482-578 | a successful whole-day run asks for every hour of every day in range |
| NowWindow.WindowCovers | tvguide2xmltv.py:584-585 | the corrected fetch asks for every (day, hour) from the window's start to its end |
| NowWindow.NowFixedCovers | tvguide2xmltv.py:584-585 | the corrected now mode asks for every hour from one hour before now to the end of day `now + days` |
| NowWindow.NowFixedGetsMidnight | tvguide2xmltv.py:584-585 | the corrected now mode asks for 2025-01-16 hour 0 from now 2025-01-15 15:30 |
| NowWindow.SecondDayText | tvguide2xmltv.py:527 | 2025-01-16 is written `2025-01-16` |
| CivilTime.DaysInMonth | tvguide2xmltv.py:575 | months have 28 to 31 days, and 29 exactly for February of a leap year |
| CivilTime.DateLeIsOrdinalOrder | tvguide2xmltv.py:526 | comparing dates field by field is comparing day numbers, and equal day numbers mean equal dates |
| CivilTime.OrdinalInRange | tvguide2xmltv.py:575 | a date lies in `date.min..date.max` iff its day number does |
| CivilTime.NextDay | tvguide2xmltv.py:575 | `+ timedelta(days=1)` moves to the next day number |
| CivilTime.NextDayInRange | tvguide2xmltv.py:575 | stepping a day stays in range except from `date.max` |
| CivilTime.UpToMaxDate | tvguide2xmltv.py:526 | every date is at most `date.max` |
| CivilTime.AddDays | tvguide2xmltv.py:596 | `+ timedelta(days=k)` moves the day number by k |
| CivilTime.AddMinutes | tvguide2xmltv.py:314-317 | adding minutes moves the wall clock by exactly that many minutes in the same offset |
| CivilTime.StopTime | tvguide2xmltv.py:311-317 | the stop time has second 0, the start's offset, and lies `duration` minutes after the start truncated to the minute |
| CivilTime.ToUtc | tvguide2xmltv.py:314-317 | the same instant on the UTC clock |
| CivilTime.RepresentableUtc | tvguide2xmltv.py:314-317 | `fromtimestamp` builds an aware stop iff both its local date and its date on the UTC clock lie in years 1..9999 |
| CivilTime.YearZeroStop | tvguide2xmltv.py:314-317 | `0001-01-01T00:10+01:00` plus 30 minutes stays in year 1 locally but cannot be built, its UTC instant being in year 0 |
| CivilTime.YearTenThousandStop | tvguide2xmltv.py:314-317 | `9999-12-31T23:50-01:00` plus 5 minutes stays in year 9999 locally but cannot be built, its UTC instant being in year 10000 |
| CivilTime.StopAfterStart | tvguide2xmltv.py:309-317 | a programme of at least one minute stops strictly after it starts and at most `duration` minutes later |
| CivilTime.ZeroDurationStopsEarly | tvguide2xmltv.py:311-317 | a zero-minute programme starting at second 30 stops before it starts |
| TimeText.XmltvDigits | tvguide2xmltv.py:383 | `%Y%m%d%H%M%S` is fourteen digits whose fields read back as the time's fields |
| TimeText.OffsetText | tvguide2xmltv.py:383 | `%z` is empty for a naive time, and otherwise a sign and four digits that denote the offset |
| TimeText.FormatXmltvTime | tvguide2xmltv.py:381-383 | the text is 15 characters for a naive time and 20 for an aware one, and reads back as exactly the time that was written |
| TimeText.FormatDate | tvguide2xmltv.py:527 | `%Y-%m-%d` with each field zero-padded: ten characters with dashes at 4 and 7 (years below 1000 as under Left out) |
| TimeText.ReplaceZ | tvguide2xmltv.py:305 | after `.replace('Z', '+00:00')` no `Z` remains, and a text without `Z` is unchanged |
| TimeText.ReplaceZAppend | tvguide2xmltv.py:305 | the replacement works piecewise on a concatenation |
| TimeText.ClockOf | tvguide2xmltv.py:305 | a clock is `HH`, `HH:MM`, `HH:MM:SS` or that with 3 or 6 fraction digits after a `.` or a `:`, colons at 2 and 5, two-digit fields |
| TimeText.ClockWithFraction | tvguide2xmltv.py:305 | seconds followed by `.` or `:` and 3 or 6 digits read as that clock with the fraction, in microseconds |
| TimeText.ColonLikeDot | tvguide2xmltv.py:305 | in a clock and in an offset, a `:` before the fraction reads exactly as a `.` |
| TimeText.SignAt | tvguide2xmltv.py:305 | the time part splits at its first `+` or `-`, and no sign comes before it |
| TimeText.OffsetMinutes | tvguide2xmltv.py:305 | an accepted offset is under a day |
| TimeText.OffsetWithSeconds | tvguide2xmltv.py:305 | an offset may carry seconds: `05:30:00` is 330 minutes |
| TimeText.OffsetOfADay | tvguide2xmltv.py:305 | an offset of 24 hours is rejected |
| TimeText.ParseIsoDateTime | tvguide2xmltv.py:305 | whatever `fromisoformat` accepts is a valid time within `date.min`..`date.max` |
| TimeText.ParseStartAt | tvguide2xmltv.py:305 | text without `Z` is read by `fromisoformat` unchanged; an accepted `start_at` is a valid time in range |
| TimeText.IsoOffsetRoundTrip | tvguide2xmltv.py:305 | a clock followed by an offset written `±HH:MM` reads back as the clock and the offset |
| TimeText.TimeOfClock | tvguide2xmltv.py:305 | a clock text followed by what `isoformat` writes for an offset, or nothing, reads back as both |
| TimeText.JoinedReadsBack | tvguide2xmltv.py:305 | a date, any separator character and a time part read as the date at that time |
| TimeText.AnySeparator | tvguide2xmltv.py:305 | the character between date and time may be any one character |
| TimeText.DanglingSeparator | tvguide2xmltv.py:305 | a date followed by a separator and no time is rejected |
| TimeText.ColonFractionReadsBack | tvguide2xmltv.py:305 | `…THH:MM:SS:fff` (or six digits) reads as that date and second, naive, as Python 3.7–3.10 accepts it |
| TimeText.DateOnlyReadsBack | tvguide2xmltv.py:305 | a date alone reads as midnight of that date, naive |
| TimeText.HourOnlyReadsBack | tvguide2xmltv.py:305 | `…THH` reads as that hour, naive |
| TimeText.MinuteReadsBack | tvguide2xmltv.py:305 | `…THH:MM` with or without an offset reads as that minute |
| TimeText.IsoRoundTrip | tvguide2xmltv.py:305 | `fromisoformat` reads an ISO text back as the time that was written |
| TimeText.TrailingZ | tvguide2xmltv.py:305 | a single trailing `Z` becomes `+00:00` |
| TimeText.ShortZuluStartAt | tvguide2xmltv.py:305 | `…THH:MMZ` reads as that minute at offset zero |
| TimeText.ZuluStartAt | tvguide2xmltv.py:305 | a `start_at` ending in `Z` parses as the same wall clock at offset zero |
| Listings.KeyOf | tvguide2xmltv.py:464-466 | the dedup key is `(pa_id, start_at)`; a missing `pa_id` raises KeyError for `pa_id` first |
| Converter.FirstAbsent | tvguide2xmltv.py:275-277 | the field loop stops at the first absent field, and all fields before it are present |
| Converter.CheckChannel | tvguide2xmltv.py:274-277 | a channel passes iff it has `pa_id`, `title` and `schedules`; otherwise the error names the first missing one |
| Converter.ProgrammeOf | tvguide2xmltv.py:296-328 | a parsed programme has writable times and belongs to the given channel; every error is a missing field, a bad `start_at` or a stop `fromtimestamp` cannot build |
| Converter.ProgrammeErrors | tvguide2xmltv.py:298-317 | a missing-field error names the first missing schedule field; InvalidStartAt iff all fields are present and `start_at` does not parse; success iff it parses and `fromtimestamp` can build the stop, so its local date and, for an aware start, its UTC date lie in years 1..9999; "parses" is `ParseStartAt`, the model of `fromisoformat` whose limits are under Left out |
| Converter.ProgrammeFields | tvguide2xmltv.py:304-328 | a parsed programme carries the schedule's fields, with `''`/False defaults, and stops `duration` minutes after the minute-truncated start in the same offset |
| Converter.ProgrammeOfParsed | tvguide2xmltv.py:296-328 | with all fields present and a stop `fromtimestamp` can build, the programme is built from exactly those fields |
| Converter.YearZeroProgramme | tvguide2xmltv.py:311-317 | a schedule at `0001-01-01T00:10:00+01:00` lasting 30 minutes fails with the stop out of range, as `fromtimestamp` raises ValueError |
| Converter.ProgrammeStopRefused | tvguide2xmltv.py:311-317 | with every field present and `start_at` read, a stop `fromtimestamp` cannot build fails with the stop out of range, whatever the rest of the schedule holds |
| Converter.UtcOffsetText | tvguide2xmltv.py:383 | offset zero is written `+0000` |
| Converter.SampleStartText | tvguide2xmltv.py:305 | 2025-01-15 20:00:00 is written `2025-01-15T20:00:00` |
| Converter.SampleStop | tvguide2xmltv.py:311-317 | thirty minutes after 20:00 UTC is 20:30 the same day |
| Converter.ZuluProgrammeExample | tvguide2xmltv.py:296-328 | schedule `2025-01-15T20:00:00Z` for 30 minutes parses to 20:00–20:30 at offset zero with empty type and image and `new` false |
| Converter.Outcomes | tvguide2xmltv.py:293-294 | one outcome per schedule; each success is a valid programme of the channel |
| Converter.Values | tvguide2xmltv.py:293-294 | the programmes of an all-successful run, one per outcome, in order |
| Converter.AppendUntilFailureSpec | tvguide2xmltv.py:293-330 | the schedule loop appends the programmes of a prefix of the outcomes, never undoes one, stops exactly at the first failure and reports it, and appends all of them when there is none |
| Converter.AddProgrammesError | tvguide2xmltv.py:293-294 | the schedule loop only appends, and its error is that of one of the schedules |
| Converter.AddOutcomesKeepsWellParsed | tvguide2xmltv.py:293-330 | appending programmes of a stored channel keeps the state well parsed |
| Converter.StoreKeepsWellParsed | tvguide2xmltv.py:283-290 | storing a channel keeps the ids distinct and in step with the table's keys |
| Converter.ParseKeepsWellParsed | tvguide2xmltv.py:269-294 | every state `parse_json` reaches, even after an error part-way, is well parsed |
| Converter.ParseDocumentKeepsWellParsed | tvguide2xmltv.py:259-270 | the same for a whole document, including non-JSON and non-array input |
| Converter.ChannelStepProgrammes | tvguide2xmltv.py:272-294 | one channel only appends programmes, and on success exactly its schedules' programmes |
| Converter.ChannelStep | tvguide2xmltv.py:272-294 | a channel missing a field changes nothing and reports the first missing one; otherwise its metadata is stored under its id, its id is added to the order if new, programmes are only appended, and an error is that of one of its schedules |
| Converter.ParseItems | tvguide2xmltv.py:268-269 | the channel loop reports only missing fields, unparsable `start_at` or an out-of-range stop |
| Converter.ParseDocument | tvguide2xmltv.py:259-270 | non-JSON or non-array input is refused with nothing changed, and only such input gives that error; programmes are only appended, one per schedule in document order on success |
| Converter.ParsedProgrammes | tvguide2xmltv.py:259-294 | `parse_json` only appends programmes; on success it appends one per schedule of the document, in document order |
| Converter.ChannelStepChannels | tvguide2xmltv.py:272-294 | on success one channel adds its id to the key order if new, and replaces its metadata |
| Converter.ParsedAllComplete | tvguide2xmltv.py:269-277 | a successful `parse_json` has checked every channel object's required fields |
| Converter.ParsedChannelOrder | tvguide2xmltv.py:269-290 | after a successful `parse_json` the channel order is the stored ids followed by the document's new ids in order of first appearance |
| Converter.ParsedChannelsUntouched | tvguide2xmltv.py:283-290 | a stored channel the document does not mention keeps its metadata |
| Converter.ParsedChannelsLastWins | tvguide2xmltv.py:283-290 | the last channel object with a given id decides that id's metadata |
| Converter.RenderChannels | tvguide2xmltv.py:341-352 | the channel loop produces one element per stored id, in insertion order |
| Converter.RenderProgrammes | tvguide2xmltv.py:355-377 | the programme loop produces one element per programme, in parse order |
| Converter.TvGuideConverter.constructor | tvguide2xmltv.py:255-257 | a converter with no channels and no programmes |
| Converter.TvGuideConverter.ParseProgramme | tvguide2xmltv.py:296-330 | appends the parsed programme, or raises and changes nothing |
| Converter.TvGuideConverter.ParseChannel | tvguide2xmltv.py:272-294 | the new state and error are those of `ChannelStep` |
| Converter.TvGuideConverter.ParseJson | tvguide2xmltv.py:259-270 | the new state and error are those of `ParseDocument` |
| Converter.TvGuideConverter.GenerateXmltv | tvguide2xmltv.py:332-379 | renders the well-parsed state under a root stamped with the current UTC time (the corrected stamp) |
| Converter.Tags | tvguide2xmltv.py:346-377 | the tags of the sub-elements, in order |
| Converter.ProgrammeChildren | tvguide2xmltv.py:361-377 | the title comes first; a category iff the type is non-empty; an icon iff the image is non-empty; `<new/>` iff new |
| Converter.ChannelChildren | tvguide2xmltv.py:342-352 | a channel element carries its id and display name, and an icon iff the logo is non-empty |
| Converter.ProgrammeElement | tvguide2xmltv.py:355-377 | a `<programme>` whose `start` and `stop` attributes read back as the programme's times, whose `channel` names its channel, and whose first child is the title |
| Converter.Render | tvguide2xmltv.py:332-379 | a `tv` root with the `date` attribute first, one `<channel>` per id in insertion order, then one `<programme>` per programme in list order |
| Converter.RenderedDocument | tvguide2xmltv.py:332-379 | one channel element per id without repeated ids, covering every stored channel, then one programme element per programme, each naming a written channel |
| Converter.ConvertDocument | tvguide2xmltv.py:255-379 | from an empty converter, a successful conversion lists the document's ids in order of first appearance and one programme per schedule, in document order |
| Converter.LocalStamp | tvguide2xmltv.py:336 | as written, the root stamp reads back as the local wall clock at offset zero: an instant off by the local offset |
| Converter.LocalStampHourLate | tvguide2xmltv.py:336 | as written, for any local time one hour east of UTC the stamp reads back as an instant one hour late |
| Converter.UtcStamp | tvguide2xmltv.py:336 | as intended, the stamp reads back as the current instant on the UTC clock |

## Left out

- `metadata.json` (`_load_metadata`, `_save_metadata`, the catalogue entry written by `save_cached_data` at tvguide2xmltv.py:111-122): `save_cached_data` reads it back and rewrites it, but no lookup consults it. The one way it changes behaviour is the TypeError noted for `Cache.CacheManager.SaveCachedData` below.
- `clear_cache`, `get_cache_stats`, `_ensure_cache_dir`: directory housekeeping outside the fetch and convert path.
- The HTTP session, headers, query parameters and timeout: the network is the parameter `net`, so only what each attempt yields is modelled.
- `to_xml_string` and `main`'s argument parsing and file I/O: output formatting and the command line, except the now-mode call of `fetch_multiple_days`.
- Cache.CacheManager.SaveCachedData: a write is all-or-nothing (`writeOk`); a partially written file is not modelled.
- Cache.CacheManager.SaveCachedData: when `metadata.json` holds JSON that is not an object, `metadata[cache_key] = …` (tvguide2xmltv.py:114) raises TypeError, which `except IOError` (:124) does not catch. `save_cached_data` then raises after the data file was written. The model's save always returns normally.
- Cache.CacheManager.GetCachedData: a cache file that is not valid UTF-8 raises UnicodeDecodeError, which `except (json.JSONDecodeError, IOError)` (:88) does not catch. The model treats every unreadable file as a miss.
- Cache.CacheManager.GetCachedData: a file holding JSON that is not a list (`{}`, a number) is returned as a hit (:87) and then by `fetch_listings` (:196-198). The model's files hold either a channel list or nothing readable.
- Cache.MissWithoutError: "every failure is a silent miss" holds for the failures the model has (absent, stale, undecodable). The UnicodeDecodeError and non-list cases above are outside it.
- Client.ApiClient.FetchListings: time spent sleeping is not added to the clock; the cache stamp is the `now` the call was given.
- Client.ApiClient.FetchListings: the status of a failed HTTP attempt (connection error, timeout, error status) is one `Transport` outcome; the exception text is not modelled.
- RangeFetch.FetchMultipleDays: the dates are given as `Date` values; the `strptime` parse of the date strings and its "Invalid date format" error are not modelled.
- Converter.TvGuideConverter.ParseJson: the items of the array are channel objects; an array element that is not a dictionary is not modelled.
- JSON scalar values are modelled as strings, durations as integers and `new` as a boolean. Other JSON types in those fields, and the truthiness of a non-boolean `new`, are not modelled.
- TimeText.ParseIsoDateTime: follows `fromisoformat` of Python 3.7–3.10. An offset that is not a whole number of minutes (`+05:30:15`, or one with microseconds) is rejected, although Python accepts it. The model's `DateTime` has whole-minute offsets. Two quirks of the C parser are not modelled: a stray character before the offset, and a fraction after the hour or minute. Its third quirk, a `:` in place of the `.` before the fraction of the seconds, is modelled (`TimeText.ColonLikeDot`). The wider forms of 3.11 and later (`20250115T2000`, week dates, a bare `Z`) are not modelled either.
- Converter.ProgrammeOf: `InvalidStartAt` follows `TimeText.ParseStartAt`, so the `fromisoformat` limits above apply to it.
- Converter.ProgrammeErrors: its "InvalidStartAt iff `start_at` does not parse" is relative to `TimeText.ParseStartAt`, with the limits above.
- CivilTime.StopTime: for a naive start the source goes through the local clock and daylight saving time; the model adds on the wall clock. Microseconds are dropped, because they never appear in the output.
- TimeText.XmltvDigits: years below 1000 (`%Y` without padding on some platforms) are written with four digits.
- TimeText.FormatDate: years below 1000 are padded to four digits; on platforms whose `%Y` does not pad, the date strings of the day loop (tvguide2xmltv.py:527) and of the now range (:597-598) are shorter, and so are the cache key and the API `date` built from them.
- XML elements keep their attributes in the order they are set. XML escaping and pretty-printing are not modelled.
- A concrete example of a programme's formatted `start`/`stop` text is not stated. `Converter.ZuluProgrammeExample` gives the times, and `Converter.ProgrammeElement` proves that the text names them.
- Stop times: the code truncates the start to the minute before adding the duration. So `CivilTime.ZeroDurationStopsEarly` shows that a zero-minute programme starting part-way through a minute stops before it starts. A promise that stop is never before start would need a duration of at least one minute (`CivilTime.StopAfterStart`). The model follows the code.
- `datetime.now()` and `datetime.utcnow()` are not modelled: the clock is a parameter.

## Findings

| source | as written | input that shows it | evidently intended | confidence | as-written member | corrected member |
|---|---|---|---|---|---|---|
| tvguide2xmltv.py:336 | the root `date` is the local wall clock labelled `+0000` | local time 2025-06-15 13:00 at UTC+01:00: the stamp reads `20250615130000 +0000`, one hour after the actual instant (12:00 UTC) | the current instant on the UTC clock, labelled `+0000` | high (proved; not executed) | Converter.LocalStampHourLate | Converter.UtcStamp |
| tvguide2xmltv.py:809-828 | now mode passes the first day's start hour to every day of `fetch_multiple_days` | now 2025-01-15 15:30 with `--now-days 1`: hours 0–13 of 2025-01-16 are never fetched | the first day from one hour before now, every later day whole | high (proved; not executed) | NowWindow.NowMissesMidnight | NowWindow.NowFixedCovers |
