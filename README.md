# rysk-iv-tracker, modelled in Dafny

This project models the logic layer of the Rysk Finance implied-volatility tracker. The tracker scrapes option quotes (bid/ask IV, APY) from the exchange's page. It derives missing IVs from the APY with Black-Scholes and stores hourly snapshots. It serves them with percentile ranks and EXPENSIVE/CHEAP/FAIR labels. It backtests sigma*sqrt(T) signals on the history and distributes an asset-level forecast onto individual options.

What is modelled:

- **Numbers.** Python floats are `real`. The transcendental pieces are function-typed parameters with only the contracts the code relies on: the Black-Scholes closed form, vega, `x ** 0.5` and `brentq`.
- **Times.** A time is an `int` count of microseconds. Dates follow `datetime`'s proleptic Gregorian calendar. The clock (`datetime.utcnow()`) is a parameter.
- **Regular expressions.** Their results are inputs: `re.findall` tuples, and the records of the raw-HTML fallback extractor.
- **Modules.** One module per source file, plus shared modules:
  - `Wrappers`: Option and Python truthiness.
  - `Strings`: upper/lower, find, replace, slicing, `int()`.
  - `Calendar`: dates, ordinals, hours.
  - `Sorting`: an insertion sort by a total preorder.
  - `Grouping`: dict-of-lists accumulation.
  - `Filtering`: list comprehensions with a condition.
  - `Stats`: percentile rank, mean, median, min/max, `round`.
  - `Quotes`: the quote record.
- **Code style.** Code that loops and mutates is modelled by methods with loop invariants. Each method is proved equal to a specification function:
  - the Newton loop, the grouping and de-duplication loops, and the strategy scans;
  - the hourly grid walk, the ratio accumulation and the forecast-row loops;
  - the SQL builders.

  The in-place updates of `calculate_missing_iv` and `calculate_percentiles` work on `array`s. The lemmas beside each specification function state the properties the source promises.

Where the code differs from what its documentation describes, the model follows the code:

- `analysis.py` sorts each option's observations by the timestamp *string* (analysis.py:144), not by parsed time. `Analysis.InTimeOrder` orders by Python string comparison.
- `forecast_runner.py`'s `parse_expiry` reads an unknown month abbreviation as January (`.get(..., 1)`, forecast_runner.py:96). The backtester's parser rejects it instead. `ForecastRunner.UnknownMonthIsJanuary` states the difference.
- `fetch_iv_data` in `api/index.py` averages bid and ask whenever bid is positive, even when ask is 0 (api/index.py:446).

## Model

| member | source | states |
|---|---|---|
| Wrappers.OrReal | tracker.py:488-489 | Python `a or b` on optional numbers: `a` when it is truthy (present and non-zero), `b` otherwise |
| Wrappers.OrStr | tracker.py:504-510 | Python `a or b` on optional strings: `a` when it is present and non-empty, `b` otherwise |
| Strings.Upper | tracker.py:586 | `str.upper()`: same length, every character mapped, no lower-case letter left |
| Strings.Lower | iv_calculator.py:184 | `str.lower()`: same length, every character mapped, no upper-case letter left |
| Strings.UpperOfUpper | tracker.py:586 | upper-casing text without lower-case letters is the identity |
| Strings.Find | tracker.py:285 | `str.find`: the first index where the pattern starts, or -1 exactly when it occurs nowhere |
| Strings.Replace | tracker.py:179 | `str.replace`: text without the pattern is returned unchanged |
| Strings.Slice | tracker.py:300 | Python slicing clamps its bounds; within bounds it is the plain subsequence |
| Strings.StripLeft | backtest.py:32 | never longer than its input; what is left starts with a non-space character or is empty |
| Strings.StripRight | backtest.py:32 | never longer than its input; what is left ends with a non-space character or is empty |
| Strings.StripLeftRemovesSpace | backtest.py:32 | the result is a suffix of the input and everything removed in front of it is white space |
| Strings.StripRightRemovesSpace | backtest.py:32 | the result is a prefix of the input and everything removed after it is white space |
| Strings.ParseInt | backtest.py:32-34 | `int()` of a slice; ParseTwoDigits and ParseOneDigit give the value of digit strings, ParseIntRejectsLetter rejects any slice holding a letter |
| Strings.ParseTwoDigits | backtest.py:32-34 | `int()` of two decimal digits is their two-digit value |
| Strings.ParseOneDigit | iv_calculator.py:210 | `int()` of one digit is its value |
| Strings.ParseIntRejectsLetter | backtest.py:32 | a slice holding a letter makes `int()` raise |
| Strings.StripKeeps | backtest.py:32 | stripping never removes a non-space character |
| Calendar.MonthFromAbbrev | backtest.py:29-33 | the month table: a known abbreviation names a month in 1..12 |
| Calendar.Ordinal | backtest.py:65 | `date.toordinal()`; OrdinalNextDay, OrdinalNextMonth and OrdinalNextYear show that consecutive calendar days have consecutive ordinals |
| Calendar.OrdinalNextDay | backtest.py:65 | the next day within a month has the next ordinal |
| Calendar.OrdinalNextMonth | backtest.py:65 | the first of the next month follows the month's last day |
| Calendar.OrdinalNextYear | backtest.py:65 | 1 January follows 31 December, so a year has 365 days, or 366 when leap |
| Calendar.Midnight | backtest.py:35 | the timestamp of `datetime(yr, mon, day)`; MidnightAligned shows it is non-negative and falls on a whole day |
| Calendar.MidnightAligned | backtest.py:35 | a date's midnight is a non-negative multiple of one day |
| Calendar.WholeDays | backtest.py:65 | the `.days` of a timedelta; WholeDaysFloor shows it is the floor of the span in days, negative spans included |
| Calendar.WholeDaysFloor | api/index.py:488 | `.days` rounds down: days * one day <= span < (days + 1) * one day |
| Calendar.HourOf | forecast_runner.py:159 | `replace(minute=0, second=0, microsecond=0)`; HourOfAligned shows the result is on the hour grid, at or before the time and within the same hour |
| Sorting.SortBy | backtest.py:117-118 | `sorted` keeps length and multiset of elements |
| Sorting.Insert | backtest.py:117-118 | one insertion step adds exactly the new element |
| Sorting.InsertSorted | backtest.py:117-118 | inserting into an ordered list keeps it ordered |
| Sorting.SortBySorted | backtest.py:117-118 | the result of `sorted` is ordered by its key, for any total preorder |
| Sorting.SortByMembers | api/index.py:300 | sorting keeps exactly the elements it was given |
| Sorting.StrLeIsTotalPreorder | analysis.py:144 | Python string comparison is a total preorder, so sorting by a text key is well defined |
| Sorting.StrLeTotal | analysis.py:144 | any two strings are comparable |
| Sorting.StrLeTransitive | analysis.py:144 | string comparison is transitive |
| Grouping.IndexOf | api/index.py:287 | `key in d`: the first position holding the key, or -1 exactly when no group has it |
| Grouping.GroupBy | backtest.py:96-114 | the defaultdict-append loop equals the grouping specification |
| Grouping.GroupItemsDistinct | backtest.py:96 | a dictionary never holds a key twice |
| Grouping.GroupItemsLookup | api/index.py:284-289 | the list under `k` holds exactly the values appended with key `k`, in order |
| Grouping.AppendLookup | api/index.py:287-289 | one append adds the value to its own key's list and to no other |
| Grouping.GroupItemsSnoc | backtest.py:114 | grouping one more item is one more append |
| Grouping.GroupItemsKeys | backtest.py:117 | a key has a group exactly when some item carries it |
| Grouping.GroupValues | backtest.py:117-118 | each group's values are its key's values |
| Grouping.ValuesForMember | api/index.py:289 | every stored value comes from an item with that key |
| Grouping.ValuesForHas | forecast_runner.py:157-162 | every item's value is stored under its key |
| Grouping.GroupItemsHas | forecast_runner.py:178 | `current in buckets` holds exactly when some row fell in that hour |
| Grouping.Keys | forecast_runner.py:168 | `d.keys()`, in insertion order |
| Filtering.Filter | database.py:72-80 | a comprehension keeps only elements satisfying the condition, never more than it was given |
| Filtering.FilterKeeps | database.py:72-80 | no element satisfying the condition is dropped |
| Filtering.FilterAll | backtest.py:121 | filtering a list that already satisfies the condition is the identity |
| Filtering.FilterComplement | analysis.py:233-238 | a condition and its negation split a list between them |
| Stats.CountBelow | api/index.py:302 | `sum(1 for v in vals if v < x)` is at most the number of values |
| Stats.CountBelowMember | backtest.py:133-135 | a value of the list is not strictly below itself, so fewer than all values are counted |
| Stats.CountBelowPermutation | api/index.py:300-302 | counting below `x` after sorting gives the same count as before |
| Stats.CountBelowConcat | api/index.py:302 | counts below `x` add up over concatenation |
| Stats.PercentBelow | api/index.py:300-303 | the percentile rank lies in [0, 100], and below 100 when `x` is one of the values |
| Stats.MinOf | api/index.py:306 | `min` is a member of the list and no larger than any member |
| Stats.MaxOf | api/index.py:307 | `max` is a member of the list and no smaller than any member |
| Stats.MeanBounds | backtest.py:398 | `statistics.mean` lies between the minimum and the maximum |
| Stats.MedianBounds | forecast_runner.py:225 | `statistics.median` lies between the minimum and the maximum |
| Stats.RoundMonotone | api/index.py:305-307 | `round(x, n)` keeps the order of its arguments |
| Stats.RoundHalfEvenMonotone | api/index.py:305 | rounding to an integer, ties to even, keeps order |
| Stats.Pow10 | api/index.py:305-307 | the scale 10**n of `round(x, n)` is at least 1 |
| Stats.RoundInteger | api/index.py:305 | whole numbers are unchanged by `round` |
| Stats.RoundPercent | api/index.py:305 | a rounded percentage stays within [0, 100] |
| Stats.SumBounds | backtest.py:398 | the sum of values within [lo, hi] lies within [n*lo, n*hi] |
| Stats.Mean | backtest.py:398 | `statistics.mean`; MeanBounds puts it between the minimum and the maximum and MeanOfConstant shows a constant list has that constant as mean |
| Stats.MeanOfConstant | analysis.py:225-230 | the mean of a list whose values are all c is c |
| Stats.Median | forecast_runner.py:178-179 | `statistics.median`; MedianBounds puts it between the minimum and the maximum |
| Stats.Round | api/index.py:305-307 | `round(x, places)` with ties to even; RoundMonotone shows it is order-preserving, RoundInteger that integers are fixed points, RoundPercent that percentages stay in [0, 100] |
| IvCalculator.DegeneratePrices | iv_calculator.py:20-65 | with T <= 0 or sigma <= 0 the call is max(0, S-K) and the put max(0, K-S); both are non-negative and their difference is S-K |
| IvCalculator.PremiumApyRoundTrip | iv_calculator.py:6-7 | the premium computed from an APY gives that APY back through premium/collateral*365/DTE |
| IvCalculator.PremiumPositive | iv_calculator.py:68-80 | a positive APY on positive collateral over a positive term is a positive premium |
| IvCalculator.BlackScholesCall | iv_calculator.py:20-41 | with no time or volatility left the call is its intrinsic value: 0 or S - K, whichever is larger; otherwise the closed form |
| IvCalculator.BlackScholesPut | iv_calculator.py:44-65 | with no time or volatility left the put is its intrinsic value: 0 or K - S, whichever is larger; otherwise the closed form |
| IvCalculator.PremiumFromApy | iv_calculator.py:68-80 | apy * collateral * dte / 365; PremiumApyRoundTrip recovers the APY from the premium and PremiumPositive shows the premium is positive on positive inputs |
| IvCalculator.Collateral | iv_calculator.py:115-122 | cash-secured puts are collateralised by the strike, covered calls by the spot; TargetPremium uses it |
| IvCalculator.TargetPremium | iv_calculator.py:109-123 | the premium the percentage APY implies on the side's collateral; positive whenever spot, strike, DTE and APY are positive |
| IvCalculator.BracketedRoot | iv_calculator.py:128-147 | brentq on [0.01, 5.0] first, on [0.001, 10.0] only if that raises; any root lies in [0.001, 10.0] |
| IvCalculator.ImpliedVolatilityFromApy | iv_calculator.py:105-147 | None whenever dte, apy, spot or strike is <= 0; otherwise Some exactly when a bracket yields a root, that root times 100; every result in [0.1, 1000]. The collateral is the strike for puts and the spot for calls |
| IvCalculator.ImpliedVolatilityReprices | iv_calculator.py:108-135 | a returned IV prices the option at a premium whose APY is the input APY (on an exact root finder) |
| IvCalculator.DayFieldLength | iv_calculator.py:210 | `%d` consumes at most two characters |
| IvCalculator.StrptimeDayMonYear | iv_calculator.py:210 | strptime `%d%b%y` succeeds only on a valid date in 1969..2068 and consumes the whole string |
| IvCalculator.StrptimeShape | iv_calculator.py:210 | a string strptime accepts has the `DMMMYY` or `DDMMMYY` shape |
| IvCalculator.StrptimeReadsTwoDigitDay | iv_calculator.py:198-210 | '27FEB26'-style text is read as day 27, February, 2026 |
| IvCalculator.ParseExpiryToDte | iv_calculator.py:196-215 | None exactly when strptime fails; otherwise max(0, days to expiry midnight), never negative |
| IvCalculator.CalculateIvForRecord | iv_calculator.py:166-193 | None when asset, strike, apy, option_type or expiry is falsy, when the asset has no non-zero spot, or when the DTE is None or 0; in every other case exactly the solver's answer, with put side iff `option_type.lower() == 'put'`; a result lies within [0.1, 1000] |
| Tracker.NormalizeAsset | tracker.py:581-598 | None exactly for None or empty input; otherwise upper-cased, with UBTC/WBTC mapped to BTC, UETH/WETH to ETH and USOL/WSOL to SOL, other names unchanged |
| Tracker.NormalizeIdempotent | tracker.py:581-598 | normalising twice is normalising once |
| Tracker.LeadingLetters | tracker.py:575 | `^([A-Z]+)`: the maximal prefix of capital letters |
| Tracker.ExtractAssetFromName | tracker.py:570-578 | None exactly when the name is empty or its upper-cased form does not start with A-Z; otherwise the maximal leading A-Z run |
| Tracker.KeepTruthy | tracker.py:494-495 | `float(x) if x else None` keeps exactly the truthy values |
| Tracker.DictSide | tracker.py:519-525 | a truthy optionType/type wins; otherwise CALL or -C- in the upper-cased name gives "call", checked before PUT or -P-, so a name holding both is a call; PUT or -P- alone gives "put"; with no marker the side stays falsy |
| Tracker.ExtractRecordFromDict | tracker.py:486-538 | None exactly when both IVs are absent, there is no asset, or strike is None; mid IV is the average of two truthy IVs, else the one present; expiry defaults to 'unknown' |
| Tracker.FoundPositions | tracker.py:283-287 | each recorded position is where that asset's marker first occurs |
| Tracker.FoundPositionsComplete | tracker.py:284-287 | every tracked asset whose marker occurs is recorded |
| Tracker.ByPositionIsTotalPreorder | tracker.py:290 | ordering by position is a total preorder |
| Tracker.FoundPositionsAtMarkers | tracker.py:283-287 | each found position opens its asset's marker |
| Tracker.ChunksOfStructure | tracker.py:292-300 | cutting ordered marker positions gives well-formed sections |
| Tracker.ChunksOfCover | tracker.py:290-300 | every found marker still opens a section after sorting and cutting |
| Tracker.SectionsOfWellFormed | tracker.py:289-300 | the sections start on their markers in ascending order; each ends where the next starts, the last 20000 characters after its start; every asset found has a section |
| Tracker.SectionsOf | tracker.py:283-300 | the asset sections: found markers sorted by position, then cut into chunks; SectionsOfWellFormed gives their shape |
| Tracker.FindMarkers | tracker.py:283-287 | the search loop builds exactly the found positions |
| Tracker.CutSections | tracker.py:292-300 | the cutting loop builds exactly the section bounds |
| Tracker.AssetChunks | tracker.py:280-300 | the sections of the page, well formed and covering every marker found |
| Tracker.PositiveOrNone | tracker.py:330-334 | `x if x > 0 else None` |
| Tracker.InventoryRecord | tracker.py:316-335 | mid IV is set exactly when bid and ask are both > 0, and is then their average; non-positive bid, ask and apy are stored as None; side is 'put' iff isPut is 'true' |
| Tracker.AllChunkRecordsAssets | tracker.py:292-335 | every record comes from a tracked asset's section |
| Tracker.AllChunkRecordsShape | tracker.py:324-335 | every record has mid IV exactly when it has both bid and ask |
| Tracker.SectionRecords | tracker.py:314-335 | one record per entry match, in match order |
| Tracker.CollectRecords | tracker.py:292-335 | the records of all sections, section after section |
| Tracker.ExtractFromServerInventory | tracker.py:269-337 | the records built from every section; all have tracked assets, and mid IV iff bid and ask |
| Tracker.MissingIv | tracker.py:226-257 | no IV is derived for a record with a positive bid IV; a derived IV lies in [0.1, 1000] |
| Tracker.MissingIvIsRecordIv | tracker.py:236-257 | the tracker's own checks and `calculate_iv_for_record`'s checks agree on every unquoted record |
| Tracker.Backfilled | tracker.py:224-264 | a record with a positive bid IV, or without a derivable IV, is untouched; otherwise bid = ask = mid = the derived IV and iv_calculated is set, other fields unchanged |
| Tracker.BackfillRecord | tracker.py:226-264 | the loop body equals the specification for one record |
| Tracker.CalculateMissingIv | tracker.py:213-266 | every array slot, updated in place, is the back-filled version of its old record |
| Tracker.FirstOccurrencesKeys | tracker.py:601-617 | the kept records carry no key twice and exactly the keys of the input |
| Tracker.FirstOccurrencesAreFirst | tracker.py:606-615 | every kept record is the first input record of its key |
| Tracker.FirstOccurrencesKeepFirst | tracker.py:606-615 | the first input record of every key is kept |
| Tracker.FirstOccurrences | tracker.py:601-617 | the quotes whose key has not appeared before; FirstOccurrencesKeys, FirstOccurrencesAreFirst and FirstOccurrencesKeepFirst state that no key repeats, every key stays and the first quote of each key is kept |
| Tracker.DeduplicateRecords | tracker.py:601-617 | the seen-set loop keeps first occurrences, in order: no duplicate keys, every input key present |
| Tracker.ParseIvData | tracker.py:168-195 | unescape, server-inventory extraction (raw fallback only when none found), back-fill, then de-duplication; no key appears twice |
| Tracker.Unescape | tracker.py:179 | `\"` becomes `"` and then `\\` becomes `\`; text holding neither escape passes through unchanged |
| Api.CronAuthorized | api/index.py:353-357 | authorised iff no secret is set, Authorization is 'Bearer '+secret, or x-vercel-cron is '1' |
| Api.ManualAuthorized | api/index.py:373-375 | authorised iff no secret is set or Authorization is 'Bearer '+secret |
| Api.ManualAdmitsToCron | api/index.py:353-375 | whoever may fetch manually may trigger the cron fetch |
| Api.SchedulerHeaderOnlyOpensCron | api/index.py:356 | with a secret set and a wrong token, the scheduler header opens the cron endpoint but not the manual one |
| Api.Classify | api/index.py:310-315 | EXPENSIVE iff >= 75, CHEAP iff <= 25, FAIR iff strictly between |
| Api.HistoryItems | api/index.py:285-289 | one (key, mid IV) pair per history row, in order |
| Api.Annotate | api/index.py:296-320 | percentile, pricing, min and max are set exactly when mid IV is truthy and there are >= 3 history values; then the percentile is the rounded rank in [0, 100], the pricing classifies the rank, and min <= max |
| Api.AnnotateLatest | api/index.py:283-322 | each latest row is annotated against exactly the history values of its (asset, strike, expiry) key |
| Api.NextSigma | api/index.py:534-535 | the Newton step is clamped into [0.01, 5.0] |
| Api.Clamp | api/index.py:535 | `max(0.01, min(5.0, s))` lies in [0.01, 5.0] and fixes values already there |
| Api.NewtonSearch | api/index.py:509-537 | at most `fuel` passes; sigma stays in [0.01, 5.0] |
| Api.ApyDte | api/index.py:486-488 | `max(1, (expiry - now).days)` is at least 1 and at least the whole days to expiry |
| Api.ApyProblem | api/index.py:495-507 | T = dte/365 > 0; premium = apy/100 * collateral * dte/365 (strike for puts, spot for calls); tol = max(1e-7, 0.001*premium) > 0 |
| Api.IvAtExpiry | api/index.py:492-542 | None when apy, spot or strike is <= 0; any result lies strictly in (5, 400) |
| Api.IvAtExpiryReprices | api/index.py:525-541 | a returned IV prices the option within the tolerance of the premium |
| Api.IvAtExpiryUnfold | api/index.py:539-542 | with positive inputs the IV is the search's sigma*100 exactly when it converged with 0.05 < sigma < 4.0 |
| Api.ApyIv | api/index.py:479-542 | None for an expiry not in `%d%b%y` form and for non-positive apy, spot or strike; for a parsed expiry, exactly the Newton search at that date; results in (5, 400) |
| Api.NewtonUpdate | api/index.py:534-535 | the two sigma-updating statements compute the clamped step |
| Api.NewtonLoop | api/index.py:503-537 | the `for _ in range(100)` loop with its two breaks ends where the search specification ends |
| Api.NewtonConvergedWithinTolerance | api/index.py:525-527 | convergence is reported only after a pass whose gap is below the tolerance |
| Api.NewtonGivesUpOnFlatVega | api/index.py:530-532 | an unconverged early stop happened because vega < tol*0.01 with the gap still above tolerance |
| Api.NewtonStep | api/index.py:523-535 | a pass that neither converges nor gives up continues from the clamped Newton step |
| Api.SetUpNewton | api/index.py:495-507 | the pre-loop computation equals the problem specification |
| Api.CalculateIvAtExpiry | api/index.py:492-542 | the method equals the IV specification once the expiry has parsed |
| Api.CalculateIvFromApy | api/index.py:479-542 | the method equals the APY-to-IV specification |
| Api.FetchRecord | api/index.py:428-459 | side 'put' iff isPut is 'true'; positive-or-None apy; mid IV iff bid IV; without a zero bid, positive APY and truthy spot, the positive-or-None bid and ask and mid = (bid + ask) / 2; with them, all three are the APY-derived IV when it is truthy, and otherwise bid and mid are None and ask is positive-or-None |
| Api.EntryRecord | api/index.py:428-459 | the loop body builds exactly the record the pure definition gives for the entry |
| Api.DerivedIvFillsBothSides | api/index.py:435-448 | a zero-bid entry whose APY yields an IV gets it as bid, ask and mid |
| Api.DerivedIv | api/index.py:435-446 | the APY-derived IV, tried only for a zero bid with positive APY and a truthy spot; DerivedIvFillsBothSides shows it replaces bid, ask and mid |
| Api.WorthKeeping | api/index.py:462 | the final filter: a record is kept iff its mid IV or its APY is truthy; FetchIvData keeps exactly those |
| Api.AllFetchRecords | api/index.py:411-459 | the records of every section in order; AllFetchRecordsAssets shows each comes from a tracked asset, FetchAllSections computes it |
| Api.AllFetchRecordsAssets | api/index.py:411-459 | every record comes from a tracked asset's section |
| Api.FetchSection | api/index.py:413-459 | one record per entry of the section, in order |
| Api.FetchAllSections | api/index.py:411-459 | all sections' records, section after section |
| Api.FetchIvData | api/index.py:396-462 | the records built from the page's sections, keeping exactly those whose mid IV or APY is truthy |
| Backtest.ParseExpiry | backtest.py:27-37 | a result is a valid date whose day is `int(s[:2])`, whose month is `s[2:5]`'s abbreviation and whose year is 2000 + `int(s[5:7])`; anything else is None |
| Backtest.MonthAbbrev | backtest.py:29-30 | every month has an upper-case abbreviation that the table maps back to it |
| Backtest.ParseTwoDigitsOf | backtest.py:32-34 | `int()` reads a zero-padded number back |
| Backtest.FormatExpiry | backtest.py:28 | the exchange's 'DDMMMYY' form has seven characters |
| Backtest.FormatExpirySlices | backtest.py:32-34 | the three slices of a formatted expiry read back its day, month and year |
| Backtest.ParseFormatExpiry | backtest.py:27-37 | parsing undoes formatting for every date of this century |
| Backtest.ParseExpiryNeedsTwoDigitDay | backtest.py:32 | a one-digit day such as '6FEB26' makes parsing fail |
| Backtest.CalcDte | backtest.py:57-66 | None iff the expiry or the timestamp does not parse; otherwise >= 0, and > 0 iff at least a full day remains |
| Backtest.CalcSigmaRootT | backtest.py:69-73 | None iff dte is None or <= 0 or iv is None |
| Backtest.PointOf | backtest.py:98-114 | an observation exists exactly when sigma*sqrt(T) does; it has dte > 0, the row's IV and timestamp, and no percentile yet |
| Backtest.PointItemsFresh | backtest.py:104-114 | every grouped observation has dte > 0 and no percentile |
| Backtest.TimestampLeIsTotalPreorder | backtest.py:118 | ordering by timestamp is a total preorder |
| Backtest.SortGroups | backtest.py:117-118 | sorting each group keeps the number of groups |
| Backtest.PointItems | backtest.py:98-114 | at most one observation per history row |
| Backtest.PreparedOptionsShape | backtest.py:94-121 | every kept group has >= 20 observations sorted by timestamp, each with dte > 0, and is a permutation of that key's observations |
| Backtest.PreparedOptions | backtest.py:94-121 | grouped, time-sorted options with at least 20 points; PreparedOptionsShape states the shape and PrepareOptionsData computes it |
| Backtest.GroupPoints | backtest.py:96-114 | the defaultdict loop equals the grouping specification |
| Backtest.SortEachGroup | backtest.py:117-118 | the per-key sort loop equals the specification |
| Backtest.PrepareOptionsData | backtest.py:94-121 | grouping, per-key sort and the size filter |
| Backtest.PrefixRank | backtest.py:129-146 | the rank of point i uses points 0..i only; the first four points get 50, every rank lies in [0, 100) |
| Backtest.PrefixRankIgnoresFuture | backtest.py:131-135 | series agreeing up to i rank point i alike |
| Backtest.Ranked | backtest.py:126-146 | ranking keeps the number of observations |
| Backtest.Srts | backtest.py:127 | the values ranked are the points' sigma*sqrt(T), in order |
| Backtest.Ivs | backtest.py:140 | the IV values ranked, in order |
| Backtest.RankedFields | backtest.py:126-146 | ranking writes both percentiles, each in [0, 100), and nothing else |
| Backtest.PrefixPercentile | backtest.py:131-137 | the sort-and-count loop body computes the prefix rank |
| Backtest.RankPoints | backtest.py:127-146 | the percentiles of one option written in place equal the ranking specification |
| Backtest.CalculatePercentiles | backtest.py:124-146 | every option's array is ranked in place |
| Backtest.ReversionSignal | backtest.py:164-194 | a trade iff pct < low (BUY) or pct > high (SELL); the change is signed in the predicted direction; success iff the change > 0 |
| Backtest.ReversionTradesFacts | backtest.py:160-194 | at most one trade per entry index, each consistent with its trigger |
| Backtest.AllReversionTradesFacts | backtest.py:149-196 | at most one trade per index i < len - hold over all options, each consistent |
| Backtest.AllReversionTrades | backtest.py:149-196 | the mean-reversion trades of every option in order; AllReversionTradesFacts bounds and checks them |
| Backtest.ReversionScan | backtest.py:160-194 | the scan of one option equals the specification |
| Backtest.StrategyMeanReversion | backtest.py:199-239 | both mean-reversion strategies (on sigma*sqrt(T) and on IV) equal the specification |
| Backtest.MomentumSignal | backtest.py:256-278 | a trade iff the past change is > 2% (BUY) or < -2% (SELL); success iff the future change > 0 |
| Backtest.MomentumTradesFacts | backtest.py:251-278 | at most one trade per index from `lookback`, each consistent |
| Backtest.AllMomentumTradesFacts | backtest.py:242-280 | the momentum trades are bounded by the entries scanned and consistent |
| Backtest.AllMomentumTrades | backtest.py:242-280 | the momentum trades of every option in order; AllMomentumTradesFacts bounds and checks them |
| Backtest.MomentumScan | backtest.py:251-278 | the scan of one option equals the specification |
| Backtest.StrategyMomentum | backtest.py:242-280 | the momentum strategy equals the specification |
| Backtest.FirstExtreme | backtest.py:299-344 | the first index in range whose percentile lies at or beyond a threshold, or None if there is none |
| Backtest.ExpirySignal | backtest.py:303-343 | BUY iff pct <= low, otherwise SELL; the change runs to the final point; success iff the change > 0 |
| Backtest.ExpiryTrade | backtest.py:292-344 | a trade exists iff the option has >= 15 points and some index in [5, len//2) is extreme; the trade is the expiry signal at the first such index, held to the last point |
| Backtest.AllExpiryTradesFacts | backtest.py:283-346 | at most one trade per option, each on the side its percentile calls for |
| Backtest.AllExpiryTrades | backtest.py:283-346 | the hold-to-expiry trades of every option in order; AllExpiryTradesFacts bounds and checks them |
| Backtest.ExpiryScan | backtest.py:297-344 | the scan with its `break` yields the first signal only |
| Backtest.StrategyToExpiry | backtest.py:283-346 | the hold-to-expiry strategy equals the specification |
| Backtest.Rate | backtest.py:395 | a success rate lies in [0, 100] |
| Backtest.Changes | backtest.py:397 | one change per trade |
| Backtest.EvaluateStrategy | backtest.py:388-416 | None iff there are no trades; otherwise total = trade count, wins <= total, buys + sells = total, rates in [0, 100], average change between the smallest and largest change |
| Analysis.ObservationOf | analysis.py:105-116 | an observation exists exactly when sigma*sqrt(T) does, keeping the raw timestamp text |
| Analysis.GroupObservations | analysis.py:103-116 | the grouping loop equals the specification |
| Analysis.InTimeOrder | analysis.py:144 | sorting by the raw timestamp keeps the number of observations |
| Analysis.TrendOf | analysis.py:148-164 | rising iff the first-to-last change is > 5%, falling iff < -5%, flat otherwise |
| Analysis.BucketsPartition | analysis.py:159-164 | each trend lands in exactly one bucket |
| Analysis.Occurrences | analysis.py:159-164 | a counter never exceeds the number of trends or verdicts it counts |
| Analysis.TrendsCount | analysis.py:143-146 | one trend per option with >= 2 observations |
| Analysis.Trends | analysis.py:136-164 | the trend of each option with at least two points; TrendsCount gives their number |
| Analysis.CountTrends | analysis.py:136-164 | the three counters are the numbers of rising, falling and flat trends |
| Analysis.VerdictsPartition | analysis.py:233-238 | each verdict is reversion or continuation |
| Analysis.VerdictsCount | analysis.py:219-222 | one verdict per option with >= 10 observations |
| Analysis.Reverted | analysis.py:224-238 | the first half sat above the mean and the second fell below it, or the mirror case; FlatSeriesContinues shows a flat series never counts as reversion |
| Analysis.FlatSeriesContinues | analysis.py:224-238 | with all sigma-root-T values equal, both halves sit on the mean, so the option counts as a continuation |
| Analysis.CountReversions | analysis.py:216-238 | the two counters count the reversion and continuation verdicts |
| Analysis.AnalysisReportFacts | analysis.py:124-240 | rising + falling + flat equals the options with data; reversion + continuation equals those with >= 10 points; options with data <= unique options |
| Analysis.AnalysisReport | analysis.py:96-240 | the counts `analyze_data` prints, or None without options with data; AnalysisReportFacts states how they add up |
| Analysis.AnalyzeData | analysis.py:96-240 | the counting part of `analyze_data` equals the report specification |
| ForecastRunner.ParseExpiry | forecast_runner.py:91-100 | a result is a valid date; an unknown month abbreviation is read as January |
| ForecastRunner.ParseExpiryAgrees | forecast_runner.py:91-100 | wherever the backtester's parser succeeds, this one agrees |
| ForecastRunner.UnknownMonthIsJanuary | forecast_runner.py:96 | on an unknown month the backtester's parser fails while this one yields January |
| ForecastRunner.HourItems | forecast_runner.py:157-162 | one (hour, mid IV) pair per row |
| ForecastRunner.HourOfAligned | forecast_runner.py:159 | truncation to the hour is on the grid, at or before the time and within the hour |
| ForecastRunner.BucketByHour | forecast_runner.py:156-162 | the bucketing loop equals the grouping of the hours |
| ForecastRunner.SortedHoursFacts | forecast_runner.py:168-170 | the first and last sorted hours have data, lie on the grid and bound every row's hour |
| ForecastRunner.BucketKey | forecast_runner.py:157-168 | every bucket key is on the hourly grid and holds data |
| ForecastRunner.HourlyCovers | forecast_runner.py:177-182 | an hourly grid between two on-grid ends holds every on-grid hour between them |
| ForecastRunner.HourMedian | forecast_runner.py:178-179 | a bucket median exists exactly for hours with a non-empty bucket |
| ForecastRunner.HourMedianIsBucketMedian | forecast_runner.py:178-179 | the value at an hour is the median of exactly the rows that fell in that hour |
| ForecastRunner.FilledFromBuckets | forecast_runner.py:175-181 | a grid filled from the bucket medians holds each hour's median where there is data and carries the previous value forward elsewhere |
| ForecastRunner.SeriesCovers | forecast_runner.py:168-182 | an hourly grid from the first to the last bucketed hour contains every row's hour |
| ForecastRunner.HourlyIncreasing | forecast_runner.py:172-182 | grid times strictly increase |
| ForecastRunner.FillHours | forecast_runner.py:172-184 | the while loop: consecutive hours from start to end, the bucket median where there is one, the previous value elsewhere |
| ForecastRunner.WalkStep | forecast_runner.py:177-182 | one more hour keeps the walk consistent: the hour's median if it has one, the previous value otherwise, and the stamps stay one hour apart |
| ForecastRunner.GridLength | forecast_runner.py:168-184 | the grid length is 0 exactly when there are no rows |
| ForecastRunner.GridLengthOf | forecast_runner.py:168-184 | the grid has (last hour - first hour) / 1 hour + 1 points |
| ForecastRunner.BuildAssetLevelSeries | forecast_runner.py:145-184 | ([], []) for no rows; otherwise equal-length lists of consecutive hours from the first to the last bucketed hour, holding every row's hour, with the bucket median at hours with data and the previous value elsewhere |
| ForecastRunner.ComboSet | forecast_runner.py:207 | the set holds exactly the combos' (strike, expiry) pairs |
| ForecastRunner.ZipLength | forecast_runner.py:201 | `zip` stops at the shorter list |
| ForecastRunner.ZipMap | forecast_runner.py:200-202 | every zipped timestamp is a key of the dictionary |
| ForecastRunner.ZipMapHourly | forecast_runner.py:200-202 | on an hourly series the dictionary gives back each hour's own value |
| ForecastRunner.RatioSampleOrigin | forecast_runner.py:210-219 | every sample is one recent row of the combo divided by the positive asset IV at its hour |
| ForecastRunner.RatioSamples | forecast_runner.py:210-219 | a combo has at most one sample per row |
| ForecastRunner.RatioSamplesSkip | forecast_runner.py:211-218 | a row outside the combos, older than the cutoff, or at an hour with missing or non-positive asset IV contributes nothing |
| ForecastRunner.OptionRatios | forecast_runner.py:196-228 | {} for an empty series; otherwise the keys are exactly the combos' pairs |
| ForecastRunner.OptionRatioBounds | forecast_runner.py:221-227 | a combo without samples gets 1.0; otherwise its ratio lies between its smallest and largest sample |
| ForecastRunner.AssetByHour | forecast_runner.py:200-202 | the dictionary loop equals the zip specification |
| ForecastRunner.CollectRatioSamples | forecast_runner.py:207-219 | one list per combo pair, each holding that combo's samples in row order |
| ForecastRunner.ComputeOptionRatios | forecast_runner.py:187-228 | the method equals the ratio specification |
| ForecastRunner.TradableMeansSevenDays | forecast_runner.py:343-347 | a combo survives iff its expiry parses and its midnight is at least seven days ahead |
| ForecastRunner.DteDays | forecast_runner.py:344 | `total_seconds() / 86400` of the span to expiry midnight; TradableMeansSevenDays reads the bound on whole microseconds |
| ForecastRunner.Tradable | forecast_runner.py:343-347 | the DTE filter: the expiry parses and lies at least seven days ahead, as TradableMeansSevenDays states |
| ForecastRunner.ValidCombosExact | forecast_runner.py:339-350 | exactly the tradable combos are kept |
| ForecastRunner.FilterCombos | forecast_runner.py:340-350 | the DTE loop, skipping unparseable expiries, equals the filter |
| ForecastRunner.CollectAsset | forecast_runner.py:324-369 | None iff no rows, fewer than 48 hourly points, or no valid combos; otherwise the series, the valid combos and their ratios |
| ForecastRunner.CollectAssetData | forecast_runner.py:308-371 | the result is, in input order, the data of exactly the accepted assets; so every accepted asset appears, and every result has >= 48 hourly points and only tradable combos |
| ForecastRunner.AcceptedInputs | forecast_runner.py:308-371 | the kept inputs are exactly those with rows, >= 48 grid points and a valid combo, and there are no more of them than inputs |
| ForecastRunner.AcceptedStep | forecast_runner.py:322-369 | looking at one more asset appends it exactly when it is accepted |
| ForecastRunner.DataOfAccepted | forecast_runner.py:324-369 | the data of an accepted asset has >= 48 hourly points, a non-empty combo list and only tradable combos |
| ForecastRunner.CollectedFacts | forecast_runner.py:308-371 | the in-order data of the accepted assets covers every accepted asset, and each datum comes from an input asset with rows |
| ForecastRunner.RatioFor | forecast_runner.py:424 | `ratios.get(key, 1.0)` |
| ForecastRunner.ScaledPoints | forecast_runner.py:426 | HORIZON values, each max(0, asset forecast * ratio) |
| ForecastRunner.ScaledQuantiles | forecast_runner.py:427-430 | HORIZON values, present iff the asset quantiles are, clamped at zero |
| ForecastRunner.NoRatioFollowsAsset | forecast_runner.py:424-426 | a combo without a ratio follows the non-negative asset forecast unchanged |
| ForecastRunner.DistributeForecast | forecast_runner.py:416-441 | one meta, point and quantile forecast per combo, scaled by its ratio |
| ForecastRunner.QuantileColumn | forecast_runner.py:267-268 | without quantiles, a column of HORIZON Nones |
| ForecastRunner.ClampOpt | forecast_runner.py:275-276 | `max(0.0, x) if x is not None else None` |
| ForecastRunner.ForecastRows | forecast_runner.py:265-287 | HORIZON rows per meta |
| ForecastRunner.ForecastRowFacts | forecast_runner.py:265-287 | row i*HORIZON+h is meta i at last_ts + (h+1) hours, its forecast clamped to >= 0 and equal to the forecast when that is non-negative, and its quantiles present iff given, clamped |
| ForecastRunner.MetaRows | forecast_runner.py:272-287 | the inner loop writes the HORIZON rows of one meta |
| ForecastRunner.StoreForecasts | forecast_runner.py:258-292 | the rows written equal the specification, and the count returned is len(batch_meta) * HORIZON |
| Database.PersistableMeans | database.py:72-80 | a record is persisted iff asset and strike are truthy and either bid and ask IVs are > 0 or APY is > 0 |
| Database.Persistable | database.py:72-80 | the save filter; PersistableMeans states it in plain terms and ValidRecordsExact shows that the records SaveSnapshot inserts are exactly the persistable ones |
| Database.ValidRecordsExact | database.py:72-80 | exactly the persistable records are kept |
| Database.SaveSnapshot | database.py:58-108 | 0 for no records; one insert per valid record, in order, all stamped with one timestamp; the count returned is the number inserted |
| Database.CountQConcat | database.py:147-161 | placeholders in appended text add up |
| Database.CountQNone | database.py:146-161 | text without '?' has no placeholder |
| Database.HistoryBaseCount | database.py:146-147 | the base history query has one placeholder, for `since` |
| Database.LatestBaseCount | database.py:183-191 | the base latest-snapshot query has no placeholder |
| Database.FilterCounts | database.py:149-159 | each optional filter clause has one placeholder |
| Database.TimeseriesBaseCount | database.py:228-236 | the base time-series query has two placeholders, for asset and `since` |
| Database.AddFilter | database.py:149-159 | a false condition leaves the query as it is; a true one appends exactly the clause text and exactly one parameter |
| Database.AddTextEnds | database.py:161 | appended text ends the query and keeps what came before |
| Database.AddFilterKeepsCount | database.py:149-159 | appending a one-placeholder clause together with its parameter keeps placeholders and parameters in step |
| Database.GetHistory | database.py:146-161 | the query-building steps equal the query specification |
| Database.HistoryWellFormed | database.py:146-161 | the number of '?' equals the number of parameters, the first parameter is the `since` bound, and the text ends with ORDER BY timestamp DESC |
| Database.HistoryQuery | database.py:146-161 | the history query; HistoryWellFormed, HistoryParamOrder and HistoryIgnoresZeroStrike state its shape and GetHistory builds it |
| Database.HistoryParamOrder | database.py:149-159 | the filter parameters follow `since` in the order asset, strike, expiry |
| Database.HistoryIgnoresZeroStrike | database.py:153-155 | a strike of 0 or None adds no filter |
| Database.GetLatest | database.py:180-198 | the query-building steps equal the query specification |
| Database.LatestWellFormed | database.py:180-198 | placeholders match the parameters, which are [] without an asset and [asset] with one |
| Database.LatestQuery | database.py:180-198 | the latest-snapshot query; LatestWellFormed states its shape and GetLatest builds it |
| Database.GetIvTimeseries | database.py:228-245 | the query-building steps equal the query specification |
| Database.TimeseriesWellFormed | database.py:228-245 | placeholders match the parameters, which start [asset, since], and the text ends with ORDER BY timestamp ASC |
| Database.TimeseriesQuery | database.py:228-245 | the time-series query; TimeseriesWellFormed states its shape and GetIvTimeseries builds it |

## Left out

- Network and browser fetching are not modelled: `fetch_page`, `fetch_page_with_browser`, `fetch_all_asset_pages`, `fetch_spot_prices`, `requests.get`, and `fetch_data` in the backtester and the analysis script.
- Flask, the dashboard and its templates are not modelled.
- Database plumbing is not modelled: connections, SQL execution, `init_db`, `save_records`, `export_to_csv`, `get_assets`, `get_strikes_and_expiries`, and the queries behind `get_top_combos` and `get_all_iv_snapshots`. A query is modelled as its text and its parameter list.
- The CLI, the daemon loop and all printing are not modelled. `analyze_data` returns its counts instead of printing them.
- The clock (`datetime.utcnow()`) is a parameter. Timestamp parsing (`email.utils`, `fromisoformat`) is an input: the parsed timestamp, or None.
- Regular expressions are inputs:
  - the entry pattern's `re.findall` results;
  - the spot prices;
  - the records of `extract_iv_from_raw_html`.
- The Black-Scholes closed form, vega, `norm.cdf`/`erf`, `log`, `exp`, `sqrt` and `x ** 0.5` are function parameters, and floating point is exact `real`.
- IvCalculator.BracketedRoot: `brentq` is any function whose answers stay in their bracket. IvCalculator.ImpliedVolatilityReprices also assumes an exact root, so `xtol` is not modelled.
- Api.NewtonSearch: the `except (ValueError, ZeroDivisionError)` branch is not modelled. On the inputs the guards admit (sigma in [0.01, 5], T >= 1/365, positive spot and strike) none of those operations raise.
- Tracker.InventoryRecord and Api.FetchRecord: the `[\d.]+` captures are taken to be well-formed float literals. The ValueError that `float()` raises on a capture such as "." or "1.2.3" is not modelled.
- Api.FetchRecord: `(bid + ask) / 2` is computed whenever bid > 0, even if ask is 0. The model follows the code as written.
- The floating-point statistics of `analysis.py` (stdev, coefficient of variation, correlation, autocorrelation) are not modelled.
- TimesFM inference, `load_model`, `seed_test_forecasts`, `cleanup_old_forecasts` and `strategy_random` are not modelled: they run an outside model, randomness or only database maintenance.
- Strings.Upper and Strings.Lower map ASCII letters only. Python's Unicode case mapping is not modelled.
- Strings.IsSpace, Strings.IsDigit, Strings.ParseInt and IvCalculator.StrptimeDayMonYear know ASCII white space and ASCII digits only. Python's `int()`, `strip()` and strptime's `\d` also accept Unicode white space (such as U+00A0) and Unicode decimal digits; that is not modelled.
- Tracker.ExtractRecordFromDict: the JSON values are taken as already typed, numbers as `real` and names as strings. `float()` on a string value is not modelled: a string "0" is truthy in the source and becomes 0.0, and a non-numeric string raises ValueError.
- Sorting.SortBy: only ordering and permutation are proved; the stability of Python's sort is not stated.
- Backtest.ParseExpiry: the option key `f"{asset}-{strike}-{expiry}"` is modelled as the tuple of its parts. Distinct options whose formatted keys coincide are therefore not merged.
- Backtest trades and the hold-to-expiry trades do not carry the fields used only for printing: entry_srt, entry_dte, days_held and iv_change_pct.
- ForecastRunner.BuildAssetLevelSeries: the second `if not buckets` check cannot fire after a non-empty input and is not modelled.
- ForecastRunner.HourMedian: it returns None for an hour whose bucket is empty, which bucketing never produces.
- ForecastRunner.ComputeOptionRatios: the final loop over `option_ratios_raw` is modelled as a map comprehension.
- Database: the SQL literals are written as concatenations of short pieces with the same text.
