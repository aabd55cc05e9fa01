# IBKR dashboard analytics in Dafny

This project models the analytics layer of a small dashboard for Interactive
Brokers accounts, reached through the Client Portal gateway, and proves
properties of that model. The analytics layer is:

- **Per-account normalisation** (`fetch_account_data` in app/main.py, and the
  same steps inline in the older `home` of tempCodeRunnerFile.py). Every raw
  position dict gets `costBasis = position × avgCost`. A missing field counts
  as 0, and a conversion that raises gives a cost basis of 0. The summary is
  read from `amount` under `netliquidation`, `realizedpnl`, `cashbalance` and
  `buyingpower`, with 0 for a missing key, and `currency` defaults to `'USD'`.
- **Collection of `all_data`** in `home`. There is one entry per account id,
  and a fetch that raises is stored as `None`. The account ids are the truthy
  `accountId` values of the accounts answer, in input order.
- **Multi-account aggregation** (`aggregate_portfolio_data`, in two revisions):
  - running sums of the four summary amounts, with currency last-write-wins;
  - one position per distinct `conid`, in first-seen order, holding running
    totals of quantity and cost basis;
  - a per-account `holdings_breakdown`;
  - an average cost that is 0 when the total quantity is 0.
- **The `/api/prices` shaping**. A price string starting with `'C'` loses the
  `'C'` and is flagged `is_close`, and missing fields become `'N/A'`.
- **Daily P&L from the performance series** (scripts/test.py):
  - the length check and the two date-keyed histories;
  - the daily time-weighted return `(1+R[i])/(1+R[i-1]+1e-9) − 1`, times the
    previous date's net asset value;
  - the inclusive 30-day window and the total.
- **Monthly realised P&L** (TOOL/test.py). Trades with a present, non-zero
  `fifoPnlRealized` are grouped by a `YYYY-MM` key cut from `dateTime`, with
  per-month P&L, commission, trade count and net, plus a grand total.

Each imperative loop of the source is a `method` with a `while` or `for` loop.
It is proved equal to a specification function (`ensures r == Aggregate(all)`,
`ensures r == PnlSeries(...)`, `ensures r == Summarize(Outcomes(trades))`),
and the promises of the source are lemmas about those functions.

The model works on values:
- Amounts are `real` and `1e-9` is an exact constant.
- JSON values are a `Json` datatype.
- Python's `float(...)` is a partial function returning `Option<real>`.
- An exception that leaves a function is `None` or an `Err` of a `Result`.
- The gateway and the clock are parameters: a `Source` function from account
  id to the two response bodies, the accounts response body, the
  price-snapshot map, the four performance series, `today` and the parsed
  trade attributes.

Modules, in dependency order:
- `Wrappers`, `Seqs`, `Text` and `JsonValue` hold generic helpers and Python's
  `float`, truthiness, `str.split` and `sorted`.
- `Calendar` holds the proleptic Gregorian calendar of `datetime.date` and
  `strptime("%Y%m%d")`.
- `AccountData`, `Aggregation`, `AggregationProperties`, `Dashboard`, `Prices`
  and `Legacy` model app/main.py and tempCodeRunnerFile.py.
- `DailyPnl` models scripts/test.py.
- `MonthlyReport` models TOOL/test.py.

The older revision in tempCodeRunnerFile.py has the same normalisation and
price shaping as app/main.py. `AccountData.FetchAccountData` and
`Prices.ApiPrices` model both copies (tempCodeRunnerFile.py:155-168 and
tempCodeRunnerFile.py:187-197).

Behaviour of the code worth knowing:

- **The only id guard is the truthy `accountId` filter.** A truthy id that is
  a list or a dict cannot be a dict key: storing it in `all_data` raises
  `TypeError`, in both revisions of `home`, and the page is a server error
  (`Dashboard.AllHashable`).
- **Aggregation can raise.** It raises on a position without a hashable
  `conid`, or with a `position` or `costBasis` that `float` rejects. The model
  returns `None` there (`MalformedQuantityAbortsAggregation`), and `home` then
  fails.
- **The breakdown can lose quantity.** The breakdown sums to the total only
  when no conid repeats inside one account (`BreakdownSumsToTotal`). A repeated
  conid leaves only its last quantity in the breakdown
  (`DuplicateConidInOneAccount`).
- **Order matters for some fields.** The summed amounts and per-conid totals do
  not depend on account order (`BatchOrderIrrelevant`). The currency, the
  position order and the copied first dict do depend on it.
- **Epsilon is always added.** `1e-9` is added to every denominator rather than
  used as a floor. After a total loss (a previous cumulative return of −1) the
  script divides by `1e-9` and reports a daily return near `1e9·(1 + R[i]) − 1`
  without any warning. In double arithmetic `(1 + R[i-1]) + 1e-9` is never
  zero, so the script never raises `ZeroDivisionError` there. Over exact reals
  a previous return of `−1 − 1e-9` would make it zero, and the model keeps that
  case as `ZeroDivision`.
- **Different date sets fail.** NAV and return series with the same lengths but
  different date sets are not intersected. The first missing return raises a
  `KeyError`, and no table is printed.
- **The window changes the no-history case.** With fewer than two NAV dates the
  P&L map is empty, and the script reports that no records fall in the window.

## Model

| member | source | states |
|---|---|---|
| JsonValue.Get | app/main.py:130 | `d.get(key, default)`: the stored value when the key is present, the default otherwise |
| JsonValue.ToFloat | app/main.py:160 | `float(v)`: a JSON number is itself; null, a list or a dict raise; strings go through the decimal parser |
| JsonValue.ParseIntString | app/main.py:160 | `float` of an integer's decimal string gives that integer back (parser against printer) |
| JsonValue.NatStringValue | app/main.py:160 | the decimal digits of a natural number denote that number |
| Text.Split | app/main.py:224 | `str.split(',')` gives at least one piece and no piece contains the separator |
| Text.JoinSplit | app/main.py:224 | `','.join(s.split(','))` gives `s` back |
| Text.SplitJoin | app/main.py:224 | splitting a join of separator-free pieces gives the pieces back |
| Text.Take | TOOL/test.py:25 | `s[:n]` is a prefix of `s` of length `min(n, len(s))` |
| Text.Slice | TOOL/test.py:26 | `s[lo:hi]` is the subsequence when in range and `''` when `lo` is past the end |
| Text.Remove | TOOL/test.py:25 | `s.replace('-', '')` contains no hyphen and is no longer than `s` |
| Text.RemoveAbsent | TOOL/test.py:25 | removing a character that does not occur changes nothing |
| Text.RemoveConcat | TOOL/test.py:25 | removing a character distributes over concatenation |
| Text.LexIrreflexive | scripts/test.py:61 | string order compares no string below itself |
| Text.LexTransitive | scripts/test.py:61 | string order is transitive |
| Text.LexTotal | scripts/test.py:61 | any two different strings are ordered one way or the other |
| Text.LexAsymmetric | scripts/test.py:61 | string order is asymmetric |
| Text.Least | scripts/test.py:61 | a non-empty set of strings has a least element, found by a loop |
| Text.LeastExists | scripts/test.py:61 | a least element exists in every non-empty set of strings |
| Text.Sorted | scripts/test.py:61 | `sorted(keys)`: strictly ascending, the same members, the same count |
| Text.SortedKeys | TOOL/test.py:48 | the sorting loop produces exactly `Sorted(keys)`: ascending, the same members, the same count |
| Text.SortedUnique | scripts/test.py:61 | two strictly ascending sequences with the same members are equal |
| Text.SortedSumIsMapSum | scripts/test.py:96-99 | summing a map's values in ascending key order gives the sum over the whole map |
| Seqs.Dedup | app/main.py:131-132 | first occurrences in order: distinct, the same members, no longer than the input |
| Seqs.DedupAppend | app/main.py:131-132 | appending a seen element keeps the order; a new element goes last |
| Seqs.SumConcat | app/main.py:123-126 | a sum over a concatenation is the sum of the sums |
| Seqs.MapSumUpdate | TOOL/test.py:35-37 | updating one key changes the map's total by the difference |
| Seqs.SumAtMapSum | scripts/test.py:96-99 | summing a map along any duplicate-free listing of its keys gives the map's total |
| Calendar.DaysInMonth | scripts/test.py:84 | month lengths are 28 to 31 days, and 29 exactly for February of a leap year |
| Calendar.YearStep | scripts/test.py:81 | the day count of year `y + 1` is that of `y` plus 365, or 366 in a leap year |
| Calendar.DayOfYearBound | scripts/test.py:81 | a valid date's day of the year is between 1 and the length of its year |
| Calendar.OrdinalOrder | scripts/test.py:84 | comparing two valid dates is comparing their ordinals, in both directions, and equal dates have equal ordinals |
| Calendar.ParseYmd | scripts/test.py:84 | `strptime(s, "%Y%m%d")` succeeds only on eight digits that form a valid calendar date |
| Calendar.LexIsNumeric | scripts/test.py:61 | on digit strings of equal length, string order is numeric order |
| Calendar.SortedIsChronological | scripts/test.py:61 | for two date strings `strptime` accepts, string order is calendar order and ordinal order |
| AccountData.NormalizePosition | app/main.py:160 | `p['costBasis'] = ...` adds `costBasis` and leaves every other key of the dict as it was |
| AccountData.ProcessPositions | app/main.py:156-164 | the loop yields the entry-by-entry normalisation of a list of dicts (each with `costBasis` = `position × avgCost`, or 0 when a conversion raises), `[]` for a non-list, and raises on a non-dict entry |
| AccountData.FetchAccountData | app/main.py:150-178 | the normalised record: its summary present, its position list as long as the raw list, and empty for a non-list |
| AccountData.CostBasisRecomputed | app/main.py:160-163 | cost basis is quantity × average cost; it is 0 when either conversion fails, and 0 when either field is missing |
| AccountData.UpstreamCostBasisIgnored | app/main.py:160 | a cost basis sent by the gateway is overwritten and never affects the result |
| AccountData.NormalizeIdempotent | app/main.py:160 | normalising a normalised position changes nothing |
| AccountData.NormalizedKeepsEveryPosition | app/main.py:156-164 | no position is dropped or reordered; a non-list gives no positions |
| AccountData.SummaryDefaults | app/main.py:166-175 | each amount comes from `amount` under its raw key; a missing key gives 0, a missing currency `'USD'`, and an empty summary is all zeros in `'USD'` |
| AccountData.NonNumericAmountRaises | app/main.py:167 | a non-numeric amount makes the whole normalisation raise |
| Aggregation.Lines | app/main.py:129 | one line per position of the account, in order, tagged with the account id |
| Aggregation.Fold | app/main.py:129-139 | `aggregated_positions`: its key order is duplicate-free and lists exactly its keys |
| Aggregation.AverageCost | app/main.py:145 | the average is 0 when the total position is 0, and otherwise times the total position gives the total cost basis |
| Aggregation.AggregatePortfolioData | app/main.py:110-148 | the loops compute `Aggregate(all)`, including `None` when a position raises |
| Aggregation.SkipStep | app/main.py:121 | a `None` record, or one without a summary, adds no lines and leaves the summary unchanged |
| Aggregation.AccountStep | app/main.py:123-129 | a counted record adds its four amounts, sets the currency, and appends its lines |
| Aggregation.AccumulateAccount | app/main.py:120-139 | one outer iteration keeps the summary, book and no-raise invariants, or reports that the whole input raises |
| Aggregation.AccountFails | app/main.py:130 | a record with a malformed position makes the whole aggregation raise |
| Aggregation.FailurePropagates | app/main.py:130 | a line that raises in a prefix raises for the whole input |
| Aggregation.MergeAccount | app/main.py:129-139 | the inner loop succeeds exactly when every position is summable, and then extends the book by that account's lines |
| Aggregation.AddPosition | app/main.py:130-139 | one inner iteration: create the entry for a new conid, then add to its totals and set its breakdown |
| Aggregation.FinishPositions | app/main.py:141-146 | the final loop builds one output position per key, in insertion order |
| Aggregation.FlatConcat | app/main.py:120 | the lines of two batches of accounts are the lines of each, concatenated |
| Aggregation.AllSummableConcat | app/main.py:130 | two batches of lines raise for neither exactly when their concatenation does not raise |
| AggregationProperties.Conids | app/main.py:130 | the conid of every line, in visiting order |
| AggregationProperties.FoldTotals | app/main.py:137-138 | `total_position` and `total_costBasis` of a conid are the sums of `position` and `costBasis` over its lines |
| AggregationProperties.FoldOrder | app/main.py:131-132 | the keys are the distinct conids in first-seen order, and exactly the conids of the lines |
| AggregationProperties.FirstWith | app/main.py:131-132 | the index of the first line with a given conid, or the length when there is none |
| AggregationProperties.FoldFirst | app/main.py:131-132 | a conid has an entry exactly when a line carries it, and the entry keeps the first such dict |
| AggregationProperties.LastWith | app/main.py:139 | the index of the last line of an account with a given conid, or the length when there is none |
| AggregationProperties.FoldBreakdown | app/main.py:139 | an account is in a conid's breakdown exactly when it has a line with that conid, and the value is the quantity of its last such line |
| AggregationProperties.QtySumConcat | app/main.py:137-138 | per-conid sums over two batches of lines add up |
| AggregationProperties.SummaryConcat | app/main.py:120-127 | folding two batches of accounts is folding the second from the result of the first |
| AggregationProperties.SummaryIsSumOverCounted | app/main.py:123-126 | each aggregated amount is the sum of that amount over the accounts not skipped |
| AggregationProperties.CurrencyIsLastCounted | app/main.py:112-127 | the currency is `'USD'` when no account counts, and otherwise the last counted account's currency |
| AggregationProperties.SummaryBatches | app/main.py:120-126 | the amounts aggregated over two batches of accounts are the sums of each batch's amounts |
| AggregationProperties.EmptyInput | app/main.py:112-118 | an empty `all_data` gives four zero amounts, `'USD'` and no positions |
| AggregationProperties.SkippedAccountIgnored | app/main.py:121 | removing a skipped record anywhere leaves the whole result unchanged |
| AggregationProperties.BatchOrderIrrelevant | app/main.py:120-139 | swapping two batches of accounts keeps the amounts, the per-conid totals and the set of conids |
| AggregationProperties.FinishFields | app/main.py:141-146 | an output position has the totals as `position`/`costBasis`, the guarded average as `avgCost`, no breakdown key, and every other field copied from the first dict |
| AggregationProperties.AggregateMeaning | app/main.py:110-148 | one output position per distinct conid in first-seen order, with the sums, the average and the first dict's other fields; the summary is the counted total |
| AggregationProperties.Ids | app/main.py:120 | the account ids of `all_data`, in iteration order |
| AggregationProperties.MergeOneAccount | app/main.py:137-139 | an account without repeated conids sets its breakdown entry to its quantity for that conid, and adds nothing when it lacks the conid |
| AggregationProperties.BreakdownTotalAgree | app/main.py:139 | the breakdown total depends only on the entries of the listed ids |
| AggregationProperties.BreakdownSumsToTotal | app/main.py:137-139 | with distinct ids and no conid repeated inside an account, the breakdown values sum to `total_position` and name only known accounts |
| AggregationProperties.DuplicateConidInOneAccount | app/main.py:137-139 | a conid repeated within one account: its total keeps both quantities (3) while the breakdown keeps only the last (2) |
| AggregationProperties.TwoAccountsOneInstrument | app/main.py:129-145 | two accounts holding one conid: totals 6 and 640, average 640/6, and both accounts in the breakdown |
| AggregationProperties.NotANumber | app/main.py:130 | `float('x')` raises |
| AggregationProperties.MalformedQuantityAbortsAggregation | app/main.py:130 | a non-numeric quantity survives normalisation with cost basis 0, and then makes the aggregation raise |
| Dashboard.TruthyIds | app/main.py:75 | the returned ids are truthy, no more numerous than the accounts, and include every truthy `accountId` |
| Dashboard.TruthyIdsConcat | app/main.py:75 | the filter keeps input order: it distributes over concatenation |
| Dashboard.TruthyIdsSound | app/main.py:75 | every returned id is the `accountId` of some input dict |
| Dashboard.MaxWorkers | app/main.py:198 | `min(n, 10)`: at most `n` and at most 10, and equal to one of them |
| Dashboard.Put | app/main.py:205 | `d[k] = v` on an insertion-ordered dict: an existing key keeps its place, a new key goes last, other entries stay |
| Dashboard.Collected | app/main.py:197-208 | `all_data` has one key per distinct id, in first-seen order, each holding that id's fetch outcome |
| Dashboard.PutCollected | app/main.py:201-205 | storing the next outcome extends the collection by that id |
| Dashboard.CollectAllData | app/main.py:197-208 | the collection loop raises exactly when some id is a list or dict (the store at line 205 and the store in the handler at line 208 both raise `TypeError`), and otherwise builds exactly `Collected(ids, source)` |
| Dashboard.CollectedKeys | app/main.py:197-208 | the keys are distinct, exactly the requested ids, and no more numerous than them |
| Dashboard.FailedFetchIgnored | app/main.py:206-208 | a fetch that raises is stored as `None` and the aggregation ignores that account |
| Dashboard.NonNumericAmountStoredAsNone | app/main.py:167 | a non-numeric summary amount makes that account's entry `None` |
| Dashboard.HomePage | app/main.py:186-215 | no answer or no ids give the login page; a malformed accounts list, an unhashable id, or an aggregation that raises give a server error; otherwise, and only then, the dashboard shows `Collected(ids, source)` with its aggregate |
| Dashboard.Home | app/main.py:186-215 | the route computes `HomePage(response, source)` |
| Prices.ShapeQuote | app/main.py:229-237 | `is_close` holds exactly for a string price starting with `'C'`, which is then reported without it; any other price is unchanged; the change is field 83 or `'N/A'` |
| Prices.PriceDict | app/main.py:227-237 | exactly the requested conids with non-empty snapshot data appear, each shaped from its snapshot |
| Prices.PriceDictSnoc | app/main.py:228-237 | one more requested conid adds its entry or changes nothing |
| Prices.ApiPrices | app/main.py:217-238 | an empty argument gives `{}`; otherwise the loop builds `PriceDict` of the comma-separated pieces |
| Prices.RequestedPieces | app/main.py:224 | each requested conid contains no comma, and rejoining the pieces gives the argument back |
| Prices.ClosingPriceStripped | app/main.py:232-234 | a price `'C' + p` is reported as `p` with `is_close` set |
| Prices.OtherPriceUnchanged | app/main.py:231-234 | a non-string price, or one not starting with `'C'`, is reported unchanged with `is_close` false |
| Legacy.LegacyAggregatePortfolioData | tempCodeRunnerFile.py:101-137 | without the skip guard: the later revision's result when every record has a summary, and a raise otherwise |
| Legacy.NotAllCounted | tempCodeRunnerFile.py:112 | a record without a summary makes the input one the older aggregator raises on |
| Legacy.LegacyHomePage | tempCodeRunnerFile.py:140-171 | no answer or no ids give the login page; any failing account or unhashable id turns the page into a server error; when no account fails, the later revision's page |
| Legacy.CollectedAllCounted | tempCodeRunnerFile.py:150-168 | when no fetch raises, every collected record has a summary |
| Legacy.FetchFailsAt | tempCodeRunnerFile.py:152-162 | one failing account is a failing fetch of the list |
| Legacy.LegacyCollect | tempCodeRunnerFile.py:150-168 | the sequential loop raises exactly when some fetch raises or some id is a list or dict (the store at line 163), and otherwise builds `Collected(ids, source)` |
| Legacy.LegacyHome | tempCodeRunnerFile.py:140-171 | the older route computes `LegacyHomePage(response, source)` |
| DailyPnl.History | scripts/test.py:56-57 | `dict(zip(dates, values))` has exactly the listed dates as keys |
| DailyPnl.HistoryLastWins | scripts/test.py:56-57 | a repeated date keeps the value of its last occurrence |
| DailyPnl.DailyTwr | scripts/test.py:73 | defined exactly when `1 + R[i-1] + 1e-9 ≠ 0`, and then `(1 + twr)(1 + R[i-1] + 1e-9) = 1 + R[i]` |
| DailyPnl.PnlSeries | scripts/test.py:63-77 | the loop as a value; it fails only with a missing return or a division by zero |
| DailyPnl.PnlSeriesSnoc | scripts/test.py:63-77 | one more date runs one more iteration |
| DailyPnl.ErrorPersists | scripts/test.py:63-77 | once an iteration raises, the later dates change nothing |
| DailyPnl.DailyPnlAmounts | scripts/test.py:60-77 | the loop computes `PnlSeries`, including its errors |
| DailyPnl.PnlSeriesSucceeds | scripts/test.py:68-73 | the loop succeeds exactly when every date has a return and no denominator is zero |
| DailyPnl.EntryKept | scripts/test.py:77 | writing another date's entry keeps an existing date's entry |
| DailyPnl.PnlSeriesKeys | scripts/test.py:61-64 | the result has an entry for every sorted date except the earliest, and nothing for no dates |
| DailyPnl.PnlSeriesEntries | scripts/test.py:64-77 | each entry is that date's daily return times the previous date's NAV |
| DailyPnl.PnlSeriesCount | scripts/test.py:61-64 | `n` distinct dates give `n − 1` entries |
| DailyPnl.WindowIsDateComparison | scripts/test.py:80-84 | the window is `start <= date <= today` on dates, with `start` 30 days before `today`, both ends included |
| DailyPnl.LastThirtyDays | scripts/test.py:80-84 | `filtered_pnl` keeps exactly the entries dated in the window, unchanged; it raises when a date is unparsable or the start underflows year 1 |
| DailyPnl.Rows | scripts/test.py:97-98 | one row per listed date holding that date's value |
| DailyPnl.PnlReport | scripts/test.py:52-99 | the calculation as a value; it fails with a length mismatch exactly when the four series lengths disagree |
| DailyPnl.TableRows | scripts/test.py:96-99 | the printing loop lists the rows in ascending date order, with `total_pnl` the sum over the whole filtered map |
| DailyPnl.QueryAndCalculatePnl | scripts/test.py:52-99 | the script from the length check to the total computes `PnlReport` |
| DailyPnl.Column | scripts/test.py:98 | the value column, in row order |
| DailyPnl.SumAtColumn | scripts/test.py:96-99 | the accumulated total is the sum of the printed column |
| DailyPnl.RowsChronological | scripts/test.py:97 | the rows are in strictly increasing calendar order |
| DailyPnl.TotalIsColumnSum | scripts/test.py:96-99 | the map's total equals the sum of the column in sorted order |
| DailyPnl.FilteredTable | scripts/test.py:83-99 | a filtered map gives a table of NAV dates in the window, in calendar order, totalled |
| DailyPnl.TableMeaning | scripts/test.py:52-99 | a printed table implies matching lengths and lists NAV dates in the window, in calendar order, with the total their sum |
| DailyPnl.SortedDatesChronological | scripts/test.py:61-65 | yesterday is the calendar day before today in the sorted list |
| DailyPnl.MissingReturnMeans | scripts/test.py:69-70 | a missing-return failure names a NAV date absent from the returns |
| DailyPnl.SameDatesNoMissingReturn | scripts/test.py:56-70 | when both series share one date list, no return lookup fails |
| DailyPnl.MissingReturnFails | scripts/test.py:69-70 | with at least two NAV dates, a NAV date missing from the return dates makes the calculation fail |
| MonthlyReport.Classify | TOOL/test.py:18-33 | a trade counts exactly when `fifoPnlRealized` is present, non-empty, parses and is non-zero, `dateTime` is present, and `ibCommission` is absent, empty or parses; it is keyed by its `dateTime`'s month, with commission 0 when absent or empty; an absent, empty or zero P&L skips it; an unparsable P&L or commission raises `BadNumber`, and a counted trade without `dateTime` raises `MissingDate` |
| MonthlyReport.Add | TOOL/test.py:35-37 | the three `+=` touch only the trade's month and create it on first use |
| MonthlyReport.Outcomes | TOOL/test.py:17 | each trade's outcome, in document order |
| MonthlyReport.AddTrade | TOOL/test.py:35-37 | the three field updates compute `Add` |
| MonthlyReport.SummarizeTrades | TOOL/test.py:17-37 | the trade loop, branch by branch, computes `Summarize(Outcomes(trades))`: the classification of every trade in order, stopping at the first that raises |
| MonthlyReport.SummarizeSnoc | TOOL/test.py:17-37 | one more trade applies one more outcome |
| MonthlyReport.FailurePersists | TOOL/test.py:17-37 | once a trade raises, the later trades change nothing |
| MonthlyReport.SummarizeSucceeds | TOOL/test.py:21-33 | the loop succeeds exactly when no trade raises |
| MonthlyReport.NoCountNoSums | TOOL/test.py:35-37 | a month with no counted trade has zero sums |
| MonthlyReport.MonthEntryStep | TOOL/test.py:35-37 | one more outcome keeps each month's entry equal to the sums over its counted trades |
| MonthlyReport.SummarizeMeaning | TOOL/test.py:28-37 | a month is present exactly when it has a counted trade, with `pnl`, `commission` and `trade_count` the sums and count over those trades |
| MonthlyReport.TradeCountPositive | TOOL/test.py:14-37 | every month present has `trade_count >= 1` |
| MonthlyReport.SkippedTradeChangesNothing | TOOL/test.py:21 | a trade without a present, non-zero realised P&L leaves the summary unchanged |
| MonthlyReport.MonthKeyHyphenated | TOOL/test.py:25-26 | `YYYY-MM…` gives the key `YYYY-MM` |
| MonthlyReport.MonthKeyCompact | TOOL/test.py:25-26 | `YYYYMM…` gives the key `YYYY-MM` |
| MonthlyReport.MonthKeyForms | TOOL/test.py:24-26 | the hyphenated and compact date forms give the same key |
| MonthlyReport.Nets | TOOL/test.py:51 | each month's net is `pnl + commission` |
| MonthlyReport.RowOf | TOOL/test.py:50-51 | a printed row carries the month, its statistics and its net |
| MonthlyReport.MonthRows | TOOL/test.py:48-51 | one row per listed month, in order |
| MonthlyReport.RowsStep | TOOL/test.py:49-52 | one more month adds its row and its net to the total |
| MonthlyReport.PrintRows | TOOL/test.py:49-52 | the printing loop builds the rows of the listed months and accumulates their nets |
| MonthlyReport.MonthlyTable | TOOL/test.py:47-52 | the months in ascending order, with `total_net_pl` the sum of the nets over all months |
| MonthlyReport.AnalyzeFlexReportMonthly | TOOL/test.py:9-61 | the analysis after parsing computes `MonthlyReportOf(trades)` |
| MonthlyReport.NetsAdd | TOOL/test.py:35-37 | adding a trade changes only its month's net, by its P&L plus commission |
| MonthlyReport.GrandTotal | TOOL/test.py:47-52 | the sum of the monthly nets is the sum of `pnl + commission` over all counted trades |
| MonthlyReport.ReportMeaning | TOOL/test.py:47-52 | the months ascend, each net is `pnl + commission` with `trade_count >= 1`, and the grand total is the net over all counted trades |

## Left out

- HTTP requests to the gateway have their bodies modelled as parameters, not
  performed: `is_gateway_running`, `get_account_summary`,
  `get_account_positions`, `get_price_snapshots`, and the request half of
  `get_all_account_ids`. So are the performance request and its JSON
  extraction in scripts/test.py (the keys `nav`, `cps`, `data`, `navs`,
  `returns`, `dates` and `baseCurrency`, and the `KeyError`s they can raise).
- `start_gateway`, the `__main__` blocks, `time.sleep`, the browser timer and
  `app.run` are process and environment handling with no logic.
- The `ThreadPoolExecutor` fan-out is concurrency. The collection is modelled
  as a sequential fold over the ids. Completion order writes the same keys
  with the same values, but it can change the dict's iteration order; the
  model uses id order (Python dicts keep insertion order). Per-account
  exceptions are modelled as the `None` outcome of `fetch_account_data`.
- Flask routing, `jsonify`, template rendering, `render_template`'s arguments
  and the `favicon`, `login_page` and `check_auth_status` routes are UI.
- Console printing, colour codes, column widths, number formatting
  (`f"{x:,.2f}"`), the sign-based colour choice and the display-date
  `strftime` are output formatting.
- `ET.parse`, `findall('.//Trade')` and the `FileNotFoundError`/`ParseError`
  handlers: trades are given as a sequence of attribute maps.
- Floating point: amounts are exact reals, so rounding, overflow, `inf` and
  `nan` are not modelled, and `1e-9` is exact. The `ZeroDivision` outcome of
  `DailyPnl.DailyTwr` and `DailyPnl.PnlSeries` can only arise over reals: in
  doubles, `1 + y` for `y` in `[−2, −1]` is a multiple of 2^-52 and the double
  `1e-9` is not, and outside that range `1 + y` is far from `−1e-9`, so the
  denominator is never zero.
- JsonValue.ToFloat: a string is accepted only as an optional sign, ASCII
  digits with an optional fraction, and an optional exponent. Python's
  surrounding whitespace, underscores between digits, non-ASCII decimal
  digits, and every spelling of infinity and not-a-number (`inf`,
  `infinity`, `nan`, in any case and with either sign) are not modelled:
  the model rejects those strings where Python accepts them.
- Calendar.ParseYmd: accepts exactly eight ASCII digits. `strptime`'s
  leniency for fewer digits per field, and its acceptance of non-ASCII
  decimal digits (its pattern uses `\d`), are not modelled, because the
  performance endpoint returns eight-digit ASCII dates.
- JSON value equality stands for Python key equality, so `1 == 1.0 == True`
  as dict keys is not modelled; a JSON number and a JSON boolean are
  different conids here.
- In-place mutation and aliasing: the source mutates the gateway's position
  dicts (`p['costBasis'] = ...`) and the copied first dict of each conid. The
  model builds new values, so a dict shared between two lists is not
  modelled.
- `datetime.now()` is the `today` parameter of `DailyPnl.QueryAndCalculatePnl`.
- app.py, ibkr_qqq_data_fetcher.py and scripts/ibkr_qqq_data_fetcher.py are
  not part of this model: they are network loops and CSV output with no
  analytics beyond what app/main.py already has.
