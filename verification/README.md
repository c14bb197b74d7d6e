# Port of Los Angeles KPI pipeline: normalizer and KPI engine in Dafny

This project models the two pure stages of a daily ETL job for Port of Los
Angeles operations data:

- The **payload normalizer** (`src/transforms.py`) turns four upstream JSON
  payloads into canonical row sequences. The four payloads are weekly
  volumes, terminal containers, outgate metrics and berth visits. For each
  payload, the normalizer:
  - finds the item list (the payload itself, or the first listed key holding
    a list);
  - reads each required field by probing its aliases in order, skipping null
    values;
  - trims the text fields and normalizes dates;
  - rejects an empty list;
  - rejects the whole dataset when any numeric value does not coerce.
- The **KPI engine** (`src/kpis.py`) builds the KPI tables from those
  datasets:
  - weekly volume pressure, with a trailing four-week mean, a pressure index
    and HIGH/LOW/NORMAL flags;
  - terminal congestion and outgate stress, grouped by load type or status,
    with bucket shares and HIGH/NORMAL flags;
  - the berth snapshot: a summary row, then the longest stays;
  - a one-row health summary read off the four tables.

Modules:

| module | file | holds |
|---|---|---|
| `Wrappers` | wrappers.dfy | `Option`, `Result` |
| `JsonValue` | json.dfy | payload values, Python truthiness, ordered alias probing |
| `Errors` | errors.dfy | every way a run aborts |
| `Calendar` | calendar.dfy | proleptic Gregorian dates; epoch seconds to UTC date |
| `Text` | text.dfy | `str.strip()`, ASCII lower-casing, Python string order, `join` |
| `Sorting` | sorting.dfy | sort by a real key, as a permutation |
| `Stats` | stats.dfy | float division with inf/NaN, mean, the rolling window |
| `Grouping` | grouping.dfy | `groupby` with per-group sums |
| `Transforms` | transforms.dfy | the normalizer |
| `NormalizerProperties` | transforms_props.dfy | payload-shape and first-error properties |
| `Kpis` | kpis.dfy | the KPI builders and flag rules |
| `KpiProperties` | kpis_props.dfy | scenarios and whole-table properties |

Some things the source gets from its libraries are parameters of the model:

- pandas' numeric coercion (`pd.to_numeric(errors="coerce")`) is
  `Coercions.toNumber`;
- parsing date text (`pd.to_datetime`) is `Coercions.parseDateText`;
- the extraction timestamp is an opaque string.

Exceptions become `Failure` values of `Errors.Error`.

Two behaviours of the code worth knowing:

- A payload shaped `{"data": {"items": [...]}}` is rejected, because only
  top-level keys are probed (`NormalizerProperties.NestedWrapperIsRejected`).
- When a week meets both volume thresholds LOW wins, because the LOW pass
  runs last (`Kpis.VolumeFlag`).

## Model

| member | source | states |
|---|---|---|
| JsonValue.FirstAccepted | src/transforms.py:24-26 | The position of the first key, in the caller's order, that the object holds with an accepted value. No earlier key qualifies; `None` means no key does. |
| JsonValue.FalsyValues | src/transforms.py:133 | Python truthiness, as `or` tests it: a value is falsy exactly when it is null, false, zero, or an empty string, list or object. |
| Transforms.ExtractList | src/transforms.py:13-20 | A list payload is returned as is. From an object, the result is the list under the first key, in key order, that holds a list, and no earlier key holds one. When no key holds a list, or the payload is any other value, the result is `NotAList(keys)`. |
| Transforms.GetRequiredKey | src/transforms.py:23-27 | The result is the non-null value of the first alias present with a non-null value. No earlier alias qualifies. A present-but-null alias is skipped. When none qualifies the result is `MissingKeys(keys, item)`. A non-object item fails: with `MissingKeys` or `NotAnObject` for a string or list, which `in` searches, and with `NotAnObject` for any other value. |
| Transforms.SearchedItemLookup | src/transforms.py:24-27 | A string item fails with `MissingKeys` exactly when no alias is a substring of it; a list item exactly when no alias is an element of it. Otherwise indexing the item fails with `NotAnObject`. |
| Text.SubstringIndex | src/transforms.py:25 | Python's `k in s` on strings: when `k` is a substring, the position returned holds `k`. |
| Text.SubstringAt | src/transforms.py:25 | Conversely, `k` found at any position of `s` makes `k` a substring of `s`. |
| Transforms.EpochDate | src/transforms.py:33-34 | The date is the UTC day holding the instant, after rounding to microseconds, and lies in years 1..9999. The result is `DateOutOfRange` only when the day holding the instant lies outside those years. |
| Transforms.ParseDate | src/transforms.py:30-37 | A datetime gives its own date. A number or a boolean goes through the epoch conversion. Text succeeds exactly when the date parser accepts it; rejected text gives `UnparseableDate`, which is not a data-shape error (the parser raises its own). Null, lists and objects are a data-shape error. |
| Transforms.TextField | src/transforms.py:82-83 | Succeeds exactly when the required value is a string. The result is that string with its surrounding whitespace stripped, and it is trimmed. A failed lookup passes its error through; a non-string value gives `NotAString` (`.strip()` raising `AttributeError`), which is not a data-shape error. |
| Transforms.ParseItems | src/transforms.py:43-66 | On success there is one result per item, in order, each what parsing that item gave. On failure, the error is that of the first item that fails, and every earlier item succeeded. |
| Transforms.CoerceAll | src/transforms.py:70-74 | Succeeds exactly when every value coerces, and then the result holds each coerced value in order. |
| Transforms.Normalize | src/transforms.py:40-75 | A missing list gives `NotAList`. An empty list gives `NoRows`. The first failing item decides the error. With all items read, success holds exactly when every value coerces; otherwise the error is `NonNumeric`. On success there is one row per item. |
| Transforms.WeeklyItemSteps | src/transforms.py:44-65 | The week alias is looked up and parsed before the inbound alias is looked up, and the first step to fail gives the error. Success needs all three steps and holds the parsed date and the inbound value. A missing inbound value on an item whose week was found is `MissingKeys` of the inbound aliases. |
| Transforms.CountItemSteps | src/transforms.py:82-84 | Key, then bucket, then count: the first lookup to fail gives the error. Success needs all three and holds the trimmed key and bucket and the count value. A missing count after both text fields were found is `MissingKeys` of the count aliases. |
| Transforms.BerthTerminal | src/transforms.py:133 | A truthy `terminal` value; otherwise the `terminalName` value, or null when it is absent. |
| Transforms.BerthItemSteps | src/transforms.py:128-133 | Vessel, then hours: the first lookup to fail gives the error, and the terminal never makes the item fail. Missing hours after the vessel was found are `MissingKeys` of the hours aliases. |
| Transforms.WeeklyItemRow | src/transforms.py:43-66 | A weekly row's date is its item's parsed week alias, and its count is its item's coerced inbound alias. |
| Transforms.CountItemRow | src/transforms.py:81-91 | A count row's key and bucket are its item's trimmed aliases, and its count is the item's coerced count alias. |
| Transforms.BerthItemRow | src/transforms.py:127-140 | A berth row's vessel is its item's trimmed vessel alias. Its hours are the coerced hours alias. Its terminal is `terminal or terminalName`. |
| Transforms.ParseWeeklyVolumes | src/transforms.py:40-75 | A non-empty dataset with, for each item in order, the row read from it. |
| Transforms.ParseCounts | src/transforms.py:78-121 | The terminal and outgate procedure: non-empty, one row per item in order, each row read from its item. |
| Transforms.ParseTerminalContainers | src/transforms.py:78-98 | A non-empty dataset with, for each item in order, the row read from it through the load-type aliases. |
| Transforms.ParseOutgateMetrics | src/transforms.py:101-121 | A non-empty dataset with, for each item in order, the row read from it through the status aliases. |
| Transforms.ParseBerthData | src/transforms.py:124-147 | A non-empty dataset with, for each item in order, the row read from it. |
| NormalizerProperties.SingleWrapperYieldsList | src/transforms.py:16-19 | An object holding a list under one of the keys, and nothing else, yields that list. |
| NormalizerProperties.DataWrapperIsTransparentForWeeks | src/transforms.py:40-41 | Normalizing weekly volumes gives the same result for `{"data": items}` as for `items`. |
| NormalizerProperties.OnlyTheListMatters | src/transforms.py:40-75 | Two payloads whose located item lists agree normalize to the same result. |
| NormalizerProperties.DataWrapperIsTransparentForCounts | src/transforms.py:78-79 | The terminal and outgate normalizers give the same result for `{"data": items}` as for `items`. |
| NormalizerProperties.DataWrapperIsTransparentForBerths | src/transforms.py:124-125 | The berth normalizer gives the same result for `{"data": items}` as for `items`. |
| NormalizerProperties.NestedWrapperIsRejected | src/transforms.py:16-20 | `{"data": {...}}` is rejected by all four normalizers with `NotAList`, whatever the inner object holds. |
| NormalizerProperties.NoListAtTopLevel | src/transforms.py:16-20 | An object whose only value is an object holds no list at the top level. |
| NormalizerProperties.EmptyListIsRejected | src/transforms.py:67-69 | An empty item list fails with `NoRows` in every normalizer, and that is a data-shape error. |
| NormalizerProperties.FirstBadItemDecides | src/transforms.py:80-84 | When terminal item `k` is the first to lack a field, its error is the outcome, whatever any count holds. |
| NormalizerProperties.FirstBadWeekDecides | src/transforms.py:43-65 | When weekly item `k` is the first to fail its lookup or date, that error is the outcome. |
| NormalizerProperties.OneNonNumericRejectsAll | src/transforms.py:95-97 | Once every item has its fields, a single count that does not coerce fails the dataset with `NonNumeric`. |
| NormalizerProperties.MissingCountNamesAllAliases | src/transforms.py:84 | An item lacking all four count aliases fails with a `MissingKeys` error that names all four, in order. |
| NormalizerProperties.BerthTerminalNeverFails | src/transforms.py:128-133 | A berth item fails only for its vessel or hours. Its terminal is a truthy `terminal`, or else `terminalName` or null. |
| NormalizerProperties.NormalizeSucceedsExactly | src/transforms.py:40-75 | The shared procedure succeeds exactly when the list is located and non-empty and every item is read and its value coerces. |
| NormalizerProperties.ParsersSucceedExactly | src/transforms.py:40-147 | Each of the four normalizers succeeds exactly when its list is located and non-empty and every item has its fields and a coercible numeric value. |
| NormalizerProperties.ListItemIsSearchedByElement | src/transforms.py:24-27 | `[[]]` holds an item without any week alias, so the weekly normalizer fails with `MissingKeys`. |
| NormalizerProperties.TextItemWithAliasIsIndexed | src/transforms.py:24-26 | The text item "weekly" contains the alias "week", so the lookup goes on to index it, which fails with `NotAnObject`. |
| NormalizerProperties.TextItemWithoutAliasIsMissingKeys | src/transforms.py:24-27 | The text item "x" contains no week alias, so the weekly normalizer fails with `MissingKeys`. |
| NormalizerProperties.FirstAliasPresent | src/transforms.py:24-26 | An object holding its first alias with a non-null value yields that value. |
| NormalizerProperties.NoAliasPresent | src/transforms.py:24-27 | An object holding no alias with a non-null value fails with `MissingKeys` naming all aliases. |
| NormalizerProperties.BooleanDateIsEpochDay | src/transforms.py:33-34 | A boolean date parses as epoch seconds 0 or 1, which is 1970-01-01. |
| Calendar.FromDayNumber | src/transforms.py:34 | The date built from a day number has that day number. |
| Calendar.BeforeIsDayNumberOrder | src/kpis.py:17-18 | Chronological (year, month, day) order is exactly day-number order. |
| Calendar.DayNumberRoundTrip | src/kpis.py:31 | Converting a date to its day number and back gives the same date. |
| Calendar.RoundHalfEven | src/transforms.py:34 | The integer nearest the input; at a tie (fraction exactly one half) the even neighbour. |
| Calendar.HalfMicrosecondBeforeEpoch | src/transforms.py:34 | Half a microsecond before the epoch rounds to the even microsecond 0, so it falls on 1970-01-01. |
| Calendar.UtcDateOfEpoch | src/transforms.py:34 | The date is in years 1..9999, and its day contains the instant rounded to microseconds. `None` only when the day holding the instant lies outside years 1..9999. |
| Calendar.OnlyDayOfInstant | src/transforms.py:34 | Exactly one date holds an instant: any date holding it is the one whose day number is the instant's whole days. |
| Calendar.EpochIsNewYear1970 | src/transforms.py:34 | Day 0 is 1970-01-01. |
| Calendar.FirstDayOfEpoch | src/transforms.py:33-34 | Every instant in [0, 86399] s after the epoch falls on 1970-01-01. |
| Text.Trim | src/transforms.py:82 | The result neither starts nor ends with whitespace, and it is a slice of the input with only whitespace cut on either side. |
| Text.TrimIdempotent | src/transforms.py:82 | Stripping twice is stripping once. |
| Text.AsciiLower | src/kpis.py:52-54 | The result has the same length, and each character is the lower-case form of the input's character. |
| Text.StrLtIrreflexive | src/kpis.py:45 | Python's string order is irreflexive. |
| Text.StrLtTransitive | src/kpis.py:45 | Python's string order is transitive. |
| Text.StrLtTotal | src/kpis.py:45 | Python's string order is total on distinct strings. |
| Text.JoinAppend | src/kpis.py:172 | `", ".join`: joining one more part appends the separator and that part, so the parts appear in order with one separator between neighbours. |
| Text.InsertKey | src/kpis.py:45 | Inserting a key keeps a key list strictly ascending and adds exactly that key. |
| Sorting.SortBy | src/kpis.py:18 | The result is a permutation of the input, ordered by the key. |
| Sorting.LastIsMaximal | src/kpis.py:162 | After sorting, the last element is one of the input's, with a key no smaller than any other's. |
| Sorting.PrefixKeepsSmallest | src/kpis.py:137-138 | A prefix of a sorted sequence is sorted and a sub-multiset. Every element left out has a key no smaller than any element kept. |
| Stats.Divide | src/kpis.py:22 | Float division: finite exactly for a non-zero divisor, and then the quotient times the divisor is the dividend. A zero divisor gives inf for a positive dividend, -inf for a negative one and NaN for zero. |
| Stats.WindowMean | src/kpis.py:19-21 | `rolling(window=4, min_periods=1).mean()` at a position: before the fourth value, the mean of all values so far; from then on, the mean of the last four. |
| Stats.Mean | src/kpis.py:121 | The mean is NaN exactly for no values; otherwise, multiplied by the count, it gives the sum. |
| Stats.FirstWindowIsOwnValue | src/kpis.py:19-21 | The first rolling mean is the first value. |
| Stats.RollingMeans | src/kpis.py:19-21 | One pass with a running window sum gives, at every position, the mean of that position's trailing four-value window. |
| Grouping.Tally | src/kpis.py:47-49 | There is one entry per distinct key, holding the sum of its rows' counts and of those in the flagged buckets. Absent keys have zero sums. |
| Grouping.DistinctKeys | src/kpis.py:45 | The distinct keys, strictly ascending in Python string order, are exactly the keys of the rows. |
| Grouping.GroupBy | src/kpis.py:45-49 | No groups exactly when there are no rows. The group keys are strictly ascending and are exactly the row keys. Each group holds its key's total and flagged sum. |
| Grouping.FlaggedWithinTotal | src/kpis.py:48-49 | With non-negative counts, a key's flagged sum lies between 0 and its total. |
| Grouping.Share | src/kpis.py:50 | `part / total if total else 0.0`: 0 for a zero total; otherwise it times the total gives the part. |
| Grouping.ShareIsFraction | src/kpis.py:50 | With 0 <= part <= total, the share lies in [0, 1]. |
| Kpis.VolumeFlag | src/kpis.py:23-25 | LOW exactly when the index is at most the low threshold. HIGH exactly when it reaches the high threshold and is not LOW. NORMAL otherwise, including for NaN. |
| Kpis.PressureTable | src/kpis.py:18-30 | One row per input week: a permutation, in chronological order. Each row holds its trailing four-week mean over the sorted series, its index (inbound over that mean, with inf/NaN for a zero mean), the flag that index earns, and the run tags. |
| Kpis.BuildWeeklyVolumePressure | src/kpis.py:16-32 | Fails with `OutOfBoundsTimestamp` exactly when some week lies outside pandas' nanosecond timestamp range, 1677-09-22 to 2262-04-11 at midnight; otherwise the result is the pressure table. |
| Kpis.TerminalFlag | src/kpis.py:51-55 | Never LOW. HIGH exactly when the lower-cased load type is "loaded" and the share reaches the loaded threshold, or it is "empty" and the share reaches the empty threshold. |
| Kpis.CongestionRows | src/kpis.py:47-64 | One row per group, in order, carrying the group's sums, its share, the flag and the tags. |
| Kpis.BuildTerminalCongestion | src/kpis.py:44-73 | Fails with `NoGroups` exactly when there are no rows. Otherwise the load types are strictly ascending and are exactly the input's. Each row holds its load type's total and congested sums, the share, the flag and the tags. |
| Kpis.StressRows | src/kpis.py:87-100 | One row per group, in order, carrying the group's sums, its share, the flag and the tags. |
| Kpis.BuildOutgateStressByStatus | src/kpis.py:84-109 | Fails with `NoGroups` exactly when there are no rows. Otherwise the statuses are strictly ascending and are exactly the input's. Each row holds its status's total and slow sums, the share, the flag and the tags. |
| Kpis.VesselRecords | src/kpis.py:139-144 | One vessel row per visit, in order, each carrying the shared mean, flag and tags. |
| Kpis.TopVisits | src/kpis.py:136-138 | `head(topN)` of the visits sorted longest first: `min(topN, count)` visits for a non-negative `topN`, and all but the last `-topN` (none when that is all of them) for a negative one. |
| Kpis.LongestFirstPrefix | src/kpis.py:137-138 | The first `k` visits sorted longest first descend in hours. Every other visit stayed no longer than any of them. |
| Kpis.TopVisitsAreLongest | src/kpis.py:136-138 | The kept visits are drawn from the input and descend in hours. A visit left out stayed no longer than any visit kept. |
| Kpis.SnapshotRows | src/kpis.py:139-152 | A summary row without a visit, then one vessel row per kept visit in order, every row carrying the shared mean, flag and tags. |
| Kpis.BuildBerthSnapshot | src/kpis.py:120-152 | One summary row with no visit, then `head(topN)` vessel rows holding the top visits in order. Every row carries the mean stay over all visits, the flag that mean earns, and the tags. |
| Kpis.FlagForLoadType | src/kpis.py:179-183 | UNKNOWN exactly when no row's lower-cased load type matches. Otherwise the flag is that of the first matching row. |
| Kpis.HighStatuses | src/kpis.py:165 | The statuses listed are exactly those of the HIGH rows, and the list is empty exactly when no row is HIGH. |
| Kpis.HighStatusesOfOneRow | src/kpis.py:165 | One row contributes its status when it is HIGH and nothing otherwise. |
| Kpis.HighStatusesKeepTableOrder | src/kpis.py:165 | The statuses of a concatenation are those of the first part followed by those of the second: table order and every occurrence are kept. |
| Kpis.HighStatusText | src/kpis.py:172 | "NONE" when no row is HIGH; otherwise the HIGH statuses joined with ", ". |
| Kpis.SummaryFlag | src/kpis.py:166 | Present exactly when a summary row exists, and then the flag of the first one. |
| Kpis.BuildHealthSummary | src/kpis.py:162-176 | Succeeds exactly when the volume table is non-empty and a summary row exists; otherwise `MissingRow`. The volume flag is that of a row with the latest week. The terminal flags are the first matches for "loaded" and "empty". The status text and berth flag come from the outgate and berth tables. |
| KpiProperties.FirstWeekIsItsOwnAverage | src/kpis.py:19-22 | The earliest week's mean is its own count. Its index is 1, or NaN (hence NORMAL) for a zero count. |
| KpiProperties.SelfIndex | src/kpis.py:22 | A count over itself is 1, or NaN for zero. |
| KpiProperties.EarlierWeekFirst | src/kpis.py:18 | Two weeks with distinct dates sort earlier first. |
| KpiProperties.SecondWindowIsPairMean | src/kpis.py:19-21 | The second rolling mean is the mean of the first two values. |
| KpiProperties.TwoWeekScenario | src/kpis.py:16-25 | For two weeks within the timestamp range, given latest first, the builder succeeds and the weeks come out in date order. With thresholds 1.15/0.85, 100 then 130 is NORMAL, NORMAL, and 100 then 140 is NORMAL, HIGH. |
| KpiProperties.PairFlags | src/kpis.py:19-25 | In a two-week table whose rows hold their trailing means, indexes and flags at 1.15/0.85, a first week of 100 is NORMAL, and a second week of 130 is NORMAL and of 140 HIGH. |
| KpiProperties.SecondWeekFlag | src/kpis.py:22-25 | With thresholds 1.15/0.85 after a week of 100, a week of 130 (index 130/115) is NORMAL and a week of 140 (index 140/120) is HIGH. |
| KpiProperties.CongestionRowShare | src/kpis.py:48-55 | One congestion row over non-negative counts has its congested sum within its total and a share in [0, 1]. |
| KpiProperties.CongestionShareIsFraction | src/kpis.py:48-55 | With non-negative counts, each group's congested sum lies within its total and its share in [0, 1]. A zero-total group has share 0. Groups other than loaded/empty are NORMAL. |
| KpiProperties.UnreachableSlowThresholdReportsNone | src/kpis.py:88-91 | With non-negative counts, a slow threshold above 1 flags nothing, and the health text is "NONE". |
| KpiProperties.StressRowNotHigh | src/kpis.py:88-91 | An outgate row over non-negative counts is not HIGH when the slow threshold exceeds 1. |
| KpiProperties.HighStatusesInTableOrder | src/kpis.py:165-172 | Two HIGH rows are reported as the first status, ", ", then the second. |
| KpiProperties.LargeTopNKeepsAllVisits | src/kpis.py:136-138 | A `topN` of at least the visit count keeps every visit exactly once. |
| KpiProperties.WeeklyRowsAreTagged | src/kpis.py:26-30 | Every weekly pressure row carries the extraction timestamp, and a range tag exactly when it is configured non-empty, holding the configured value. |
| KpiProperties.CongestionRowsAreTagged | src/kpis.py:68-72 | Every terminal congestion row carries the extraction timestamp, and a range tag exactly when it is configured non-empty. |
| KpiProperties.StressRowsAreTaggedAndFlagged | src/kpis.py:91-108 | Every outgate stress row carries the run tags, is never LOW, and is HIGH exactly when its slow share reaches the threshold. |
| KpiProperties.SnapshotRowsAreTaggedAndFlagged | src/kpis.py:121-151 | Every berth snapshot row carries the run tags, is never LOW, and is HIGH exactly when the mean stay over all visits reaches the threshold; with no visits (mean NaN) every row is NORMAL. |
| KpiProperties.HealthOfBuiltTables | src/kpis.py:162-166 | On a pressure table of at least one week and a built berth snapshot, the health summary succeeds. Its berth flag is the flag the mean stay earns. |

## Left out

- `src/client.py`, `src/db.py`, `src/config.py` and `src/main.py` are not modelled. They hold HTTP fetching, persistence, environment configuration and orchestration, which are I/O.
- `pd.to_numeric(errors="coerce")` and `pd.to_datetime` on text are parameters (`Coercions`). Their parsing rules belong to pandas.
- Transforms.ParseDate: text pandas reads as NaT (the empty string, "NaT") is not modelled as such. In the source `_parse_date` then succeeds with the week string "NaT", which the KPI builder carries on; `Coercions.parseDateText` can only reject such text or map it to a real date.
- Floating point is modelled by exact reals. Rounding in sums, means and shares is not modelled. Division by zero gives inf/NaN (`Stats.Divide`), and NaN fails every comparison.
- Exceptions are `Error` values. A `TypeError` from indexing a string or list item by an alias it contains, or from searching a value `in` cannot search, is `NotAnObject`; `AttributeError` from `.strip()` on a non-string is `NotAString`.
- Text.AsciiLower: lower-cases only ASCII letters. Python's `str.lower()` also folds other letters, but no non-ASCII character lower-cases to a letter of "loaded" or "empty", the only strings the result is compared with, so the comparisons come out the same.
- The extraction timestamp is an opaque string, echoed into rows.
- Kpis.BuildHealthSummary: states that the volume flag comes from some row with the latest week. pandas' `sort_values` is not stable, so which of several rows sharing that week is read is not modelled.
- Kpis.BuildWeeklyVolumePressure: states chronological order but not the order among weeks with the same start date. pandas' default sort is not stable.
- Kpis.TopVisitsAreLongest: does not fix the order among visits with equal hours, for the same reason.
- The week key is the date's day number rather than a pandas timestamp. Within the nanosecond timestamp range, the only weeks the builder accepts, both order dates the same. The week strings parse to midnight, and midnight of 1677-09-21 precedes the range's first instant, so that day is out of range.
- `groupby(dropna=False)` on a missing key is not modelled. The normalizer's trimmed keys are always strings.
- Epoch seconds beyond the years pandas/Python accept become `DateOutOfRange`. The separate overflow errors Python raises for huge values are not distinguished.
- The column layout of the output tables is not modelled: dtypes, the `week_start_date` string conversion and the null vessel columns of the summary row. Rows are records of the modelled values.
