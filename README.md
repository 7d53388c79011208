# rana: aggregation and validation core, in Dafny

rana is a self-hosted server for the WakaTime API. Editor plugins send it
heartbeats, which the server merges into *durations*: sessions of activity on
a project in a language. This project models the code that consumes those
durations, plus the input checks and record projections around it:

- **Day summaries** (`rana/blueprints/summaries.py`). A request names a range
  of days. For each day the service computes:
  - the grand total of seconds;
  - a project breakdown and a language breakdown, each listed in
    `Counter.most_common()` order with a percent per entry.
- **Leaderboard** (`rana/blueprints/leaders.py`). This covers:
  - the seven-day window that ends at the current UTC midnight;
  - the per-user totals;
  - the top `max_users` users;
  - pages of 20 entries and the page count.
- **Validation** (`rana/models.py`). This covers:
  - the custom cerberus types (username, password, entity type, activity
    type);
  - the three outcomes of `validate`;
  - the required and nullable rules of the heartbeat schema.
- **Record projections** (`rana/database.py`). This covers:
  - the None-passing converters `timestamp_` and `uuid_`;
  - the user and heartbeat views built from a row, including
    `website.lstrip('https://')`.

Files:

- `common.dfy`: `Option`, `Result` and the errors the model raises.
- `counters.dfy`: Python's `collections.Counter`, modelled as its items in
  insertion order.
  - `Add` is `counter[k] += v` and `Put` is `counter[k] = v`.
  - `MostCommon` is the stable descending sort that `most_common()` performs.
  - `MostCommonN` is `most_common(n)`.
- `durations.dfy`: the duration record and `Tally`. `Tally` is the counter
  that the loop `for d in ds: counter[key(d)] += end - start` leaves behind.
- `summaries.dfy`, `leaders.dfy`, `models.dfy`, `database.dfy`: one module per
  source file.

How the source is represented:

- **State.** The summary dict is a `Summary` object whose `fields` map the
  methods update in place. The loops of `_day_summary_projects`,
  `_do_summary_list`, `make_summary`, `_process_durations` and `calc_leaders`
  are `for` loops. Each loop is proved against a specification function.
  For example, a counter built by a loop equals `Tally` of the durations seen
  so far. The properties are then proved about those functions.
- **Inputs.** Days are integer day numbers. The clock is a parameter. The
  durations of a day, or of the leaderboard window, are an input.
- **Validator.** Cerberus' verdict is an input to `validate`.

Two behaviours of the code that a reader might not expect:

- A null project or language stays a key of its own. The per-day loop
  (rana/blueprints/summaries.py:60-61) indexes the counters with
  `duration['project']` and `duration['language']` as they are, so `None`
  gets its own entry in each breakdown.
- `user_summary` rejects only `delta.days >= 32`
  (rana/blueprints/summaries.py:126). A 31-day difference is accepted and
  yields 32 daily summaries, in line with the docstring's maximum timedelta
  of 31 days (rana/blueprints/summaries.py:116).

## Model

| member | source | states |
|---|---|---|
| Counters.AddGet | rana/blueprints/summaries.py:60-61 | `counter[k] += v` raises the count of `k` by `v` (from 0 when missing) and leaves every other key's count unchanged |
| Counters.AddSum | rana/blueprints/leaders.py:56 | `counter[k] += v` raises the sum of all counts by exactly `v` |
| Counters.AddDistinct | rana/blueprints/leaders.py:56 | adding to a counter never duplicates a key |
| Counters.PutSpec | rana/blueprints/summaries.py:34 | `counter[k] = v` makes `k` read `v`, keeps every other key's count and keeps keys distinct |
| Counters.MostCommonPermutes | rana/blueprints/summaries.py:43 | `most_common()` is a permutation of the counter's items |
| Counters.SumMostCommon | rana/blueprints/summaries.py:43 | `most_common()` keeps the sum of counts |
| Counters.MostCommonRanked | rana/blueprints/leaders.py:58 | `most_common()` lists items by descending count, with equal counts in key-insertion order (Python's sort is stable under `reverse=True`) |
| Counters.RankedDescending | rana/blueprints/summaries.py:43 | a ranking is non-increasing in count |
| Counters.DistinctKeysPermutation | rana/blueprints/leaders.py:58 | reordering a counter's items keeps its keys distinct |
| Counters.OccursOnce | rana/blueprints/leaders.py:58 | an item of a counter with distinct keys occurs in it exactly once |
| Durations.TallyDistinct | rana/blueprints/leaders.py:53-56 | the per-key accumulation holds each key once |
| Durations.TallyHasKey | rana/blueprints/leaders.py:53-56 | a key is in the accumulated counter if and only if some duration has it |
| Durations.TallyCounts | rana/blueprints/leaders.py:53-56 | each key's count is the sum of `end - start` over the durations with that key |
| Durations.TallySum | rana/blueprints/summaries.py:57-62 | the counts add up to the total seconds of all durations, each counted once |
| Durations.TallySize | rana/blueprints/summaries.py:57-61 | the counter has exactly one item per distinct key among the durations |
| Durations.TallyOrder | rana/blueprints/leaders.py:53-56 | the counter lists keys in the order of their first durations |
| Durations.TallyEmpty | rana/blueprints/summaries.py:53-61 | the counter is empty if and only if there are no durations |
| Durations.RankedItem | rana/blueprints/leaders.py:58 | each ranked item is the counter's item for its key, holding that key's seconds |
| Durations.RankingContents | rana/blueprints/summaries.py:43-48 | the ranking has distinct keys, one per key among the durations, each with that key's seconds, summing to the total |
| Durations.RankingMembers | rana/blueprints/leaders.py:53-58 | a key is ranked if and only if some duration has it |
| Durations.RankingOrder | rana/blueprints/leaders.py:58 | the ranking is by descending seconds, ties in order of each key's first duration |
| Durations.ZeroLengthTotal | rana/blueprints/summaries.py:58-62 | durations that all have zero length total 0 seconds |
| Summaries.DateRange | rana/blueprints/summaries.py:22-26 | `daterange(start, delta)` yields `delta + 1` days, the i-th being `start + i` (none for a negative delta) |
| Summaries.DateRangeMembers | rana/blueprints/summaries.py:22-26 | the days yielded are exactly those from `start` to `start + delta` |
| Summaries.ProcessDurations | rana/blueprints/summaries.py:29-36 | the counter holds only `counter_key`, with `value_func` of the last duration, and is empty with no durations |
| Summaries.ListingItems | rana/blueprints/summaries.py:43-48 | the list has one `{name, percent, total_seconds}` entry per ranked item, in order |
| Summaries.ListingSeconds | rana/blueprints/summaries.py:43-48 | the entries' `total_seconds` add up to the counts they were made from |
| Summaries.DoSummaryList | rana/blueprints/summaries.py:39-48 | `summary[sum_key]` becomes the entries of `most_common()` in order, and no other key changes; with a zero total and a non-empty counter the first percent divides by zero and the list stays empty |
| Summaries.DaySummaryProjects | rana/blueprints/summaries.py:51-70 | stores the grand total and both breakdowns of the day's durations; fails with a division by zero exactly when there are durations and their total is 0, after the grand total and an empty project list were stored |
| Summaries.SummaryForDay | rana/blueprints/summaries.py:73-97 | a new summary holding the day's grand total, both breakdowns and its date, or a division-by-zero failure |
| Summaries.MakeSummary | rana/blueprints/summaries.py:100-109 | one summary per day of `daterange`, in the same order, or a division-by-zero failure if and only if some day's percents cannot be computed |
| Summaries.AppendDay | rana/blueprints/summaries.py:106-107 | appending the next day's summary keeps every earlier summary at the index of its day |
| Summaries.UserSummary | rana/blueprints/summaries.py:122-129 | BadRequest when start is after end or when the days differ by 32 or more; otherwise `end - start + 1` (at most 32) summaries, the i-th for day `start + i` |
| Summaries.BreakdownContents | rana/blueprints/summaries.py:55-66 | a breakdown has one entry per distinct key (null included), each with that key's seconds and its share of the grand total; entries have distinct names and add up to the grand total |
| Summaries.BreakdownNames | rana/blueprints/summaries.py:60-61 | a project or language is listed if and only if some duration of the day has it |
| Summaries.BreakdownOrder | rana/blueprints/summaries.py:43 | a breakdown is sorted by descending seconds, ties in order of first appearance |
| Summaries.NoDurations | rana/blueprints/summaries.py:55-70 | a day without durations has total 0 and two empty lists |
| Summaries.ZeroLengthDay | rana/blueprints/summaries.py:46 | a day whose durations all have zero length cannot be summarised: its first percent divides by zero |
| Leaders.LeaderWindow | rana/blueprints/leaders.py:26-33 | the window ends at the midnight that starts the current UTC day and starts exactly seven days earlier |
| Leaders.CalcLeaders | rana/blueprints/leaders.py:24-58 | returns the window and `most_common(max_users)` of the per-user totals that the loop accumulates |
| Leaders.SliceBound | rana/blueprints/leaders.py:74 | Python's slice-bound normalisation: clipped to `[0, n]`, with a negative bound counted from the end |
| Leaders.TotalPages | rana/blueprints/leaders.py:88 | `ceil(count / 20)`: the fewest pages of 20 that hold `count` entries |
| Leaders.GetLeaders | rana/blueprints/leaders.py:63-89 | the page count comes from the truncated list before slicing and is at most 3; the page is `leaders[20p:20p+20]` |
| Leaders.TopUsersContents | rana/blueprints/leaders.py:53-58 | at most `max_users` distinct users, as many as have durations up to that cap, each with the seconds of their durations |
| Leaders.TopUsersOrder | rana/blueprints/leaders.py:58 | the leaderboard is by descending seconds, ties in order of each user's first duration |
| Leaders.TopUsersAreTop | rana/blueprints/leaders.py:58 | a user left off the leaderboard has no more seconds than anyone on it |
| Leaders.AllUsersListed | rana/blueprints/leaders.py:53-58 | with at most `max_users` users, every user with a duration is listed exactly once |
| Leaders.PageWindow | rana/blueprints/leaders.py:73-74 | page p (p >= 0) is entries `[20p, 20p + 20)` cut at the end of the list, at most 20 entries |
| Leaders.PagePastEnd | rana/blueprints/leaders.py:72-74 | a page at or past `total_pages` is empty |
| Leaders.FirstPagesPrefix | rana/blueprints/leaders.py:73-74 | the first `count` pages together are the first `20 * count` entries |
| Leaders.PagesCoverLeaders | rana/blueprints/leaders.py:72-74 | pages 0 to `total_pages - 1` together are the whole list, in order |
| Leaders.NegativePages | rana/blueprints/leaders.py:73-74 | page -1 is empty, and page -2 of a full board of 50 is entries 10 to 29 |
| Models.UsernameRun | rana/models.py:12 | the length of the longest leading run of `[a-zA-Z0-9_ ]` characters (ASCII only) |
| Models.TryRepetitionsSpec | rana/models.py:12 | backtracking over `{2,30}` succeeds if and only if `$` matches after some repetition count from 2 up to the run length |
| Models.UsernameAccepted | rana/models.py:12-19 | a username is accepted if and only if it is 2 to 30 characters of `[a-zA-Z0-9_ ]`, optionally followed by one newline, which `$` admits |
| Models.ValidateTypePassword | rana/models.py:21-23 | a password is accepted if and only if it has 1 to 2048 characters |
| Models.ValidateTypeEntityType | rana/models.py:25-26 | an entity type is accepted if and only if it is "app", "file" or "domain" |
| Models.ValidateTypeActivityType | rana/models.py:28-34 | an activity type is accepted if and only if it is one of the ten categories, each spelled out |
| Models.Validate | rana/models.py:37-69 | the document when valid; when invalid BadRequest if `raise_err`, otherwise None; a crash in the validator becomes a generic exception, never BadRequest |
| Models.HeartbeatRules | rana/models.py:71-92 | only `entity` and `type` are required, both non-null; only category, language, lineno and cursorpos are nullable |
| Models.HeartbeatPresence | rana/models.py:71-92 | a heartbeat passes the required/nullable rules if and only if `entity` and `type` are present and non-null and every null field is nullable |
| Database.Timestamp | rana/database.py:10-16 | None stays None; a timestamp becomes its ISO text |
| Database.Uuid | rana/database.py:19-24 | None stays None; an identifier becomes its canonical text |
| Database.LStrip | rana/database.py:182 | `lstrip` removes the longest leading run of characters from the set, leaving a suffix that is empty or starts outside it |
| Database.LStripUnique | rana/database.py:182 | any split into a run of set characters and a rest starting outside the set is the one `lstrip` makes |
| Database.FetchUser | rana/database.py:132-184 | None without a row; `id` through `uuid_`, `created_at` and `modified_at` through `timestamp_`, `last_heartbeat_at` raw; `display_name` and `full_name` are both the third column; privacy flags false and plan "basic"; `human_readable_website` present if and only if the website is, and the website stripped by `lstrip` |
| Database.FetchHeartbeat | rana/database.py:186-201 | None without a row; otherwise the heartbeat's id through `uuid_` |
| Database.StripEatsHost | rana/database.py:182 | `lstrip('https://')` strips characters, not a prefix: "https://thing.com" becomes "ing.com" |
| Database.StripKeepsHost | rana/database.py:182 | a host that starts outside {h,t,p,s,:,/} survives whole after "https://" or "http://" |

## Left out

- SQL and sqlite plumbing are not modelled: the `Database` connection, cursor methods and schema, and the leaderboard's LAG/GROUP BY query. Their output is the input sequence of durations.
- The language filter of the leaderboard query is not modelled. It lives in SQL, and its `lang_clause` is appended even when no language is bound.
- `calc_durations` (rana/blueprints/durations.py) and the merger `durations_from_rows` are not modelled. The merger is not part of this model, and the durations a day or window yields are a parameter.
- Timezone conversion (`convert_tz`, `fetch_user_tz`) and ISO formatting are not modelled. This includes the `range` strings of a day summary and the local offset of `.timestamp()` on a naive datetime. Days are integer day numbers, and a day's `range` holds only its day number.
- The float `round(seconds / total_seconds, 2) * 100` of each percent is left out. An entry holds the exact fraction `seconds / total`; floating-point rounding is not modelled.
- Durations.TallySum, Durations.RankingContents, Summaries.BreakdownContents: their exact conservation (the per-key totals add up to the grand total) holds for integer seconds only. In the source, heartbeat times are stored as `real` (rana/database.py:67) and sent as `time.time()` floats, so `end - start` and the sums at rana/blueprints/summaries.py:58-62 and rana/blueprints/leaders.py:55-56 are floating-point sums. These sums group the same values differently, so rounding can make them differ slightly. The zero-total test of `Summaries.DayComputable` likewise compares exact integers.
- Leaders.GetLeaders: returns the view that `get_leaders` computes up to the response. In the source, `time_range` holds floats, so `.isoformat()` at rana/blueprints/leaders.py:82-83 raises AttributeError and no response is ever returned. The model treats that call as if it worked.
- Summaries.SummaryForDay: starts from the day's durations. In the source, `calc_durations` (rana/blueprints/durations.py:23) takes no `more_raw` argument, so the call at rana/blueprints/summaries.py:86-87 raises TypeError before any aggregation. The model treats that call as if it worked.
- Request handling in `get_leaders` and `user_summary` is left out: the token check, parsing the query arguments, `jsonify`, `fetch_user_simple` and the `data = []` response body. These are I/O or code that is not shown.
- Leaders.GetLeaders: models only the default cap of 50 users and takes the page as an already validated integer. The `LEADERS_IN` schema is not part of this model.
- Cerberus internals are an input to `Models.Validate`: its verdict, its `errors` and its normalised `document`. Type checking, coercion and dependency rules of the heartbeat schema are not evaluated; only the presence rules are.
- `uuid.UUID(identifier)` raising ValueError on a malformed identifier is not modelled. `Database.Uuid` keeps the text symbolically.
- bcrypt hashing, routing, error handlers and the browser scripts are not modelled. They are not part of the aggregation and validation core.
- Summaries.MakeSummary: does not state that the returned summaries are new objects. `Summaries.SummaryForDay` does state it.
- Summaries.UserSummary: likewise does not state that the returned summaries are new objects.
