# A-share stock selection engine, modelled in Dafny

The repository holds two independent versions of a daily stock screener
for the Shanghai and Shenzhen markets. This project models both as they are
written, without reconciling them.

- **The `app/` pipeline** (`app/signals.py`, `app/scoring.py`,
  `app/selector.py`):
  - It takes the highest-turnover stocks of the realtime quote table as a
    candidate pool.
  - It ranks sectors by five-day change and main-force inflow using pandas
    percentile ranks, and flags the main-line sectors.
  - Each candidate must be in a main-line sector and pass four rules:
    55-day breakout, volume spike, three days of main-force inflow, and
    relative strength (RS) above 0.7.
  - A fixed-weight score is computed, and the qualifying rows come back
    sorted by score.
- **The `selector/` pipeline** (`selector/indicators.py`,
  `selector/strategy.py`):
  - It computes 20-day stock returns, five-day sector returns and
    five-day sector money flows from Tushare tables.
  - The main sectors are the industries that are in the top fifth by both
    measures and had a positive flow on the last day.
  - It runs a simpler breakout / volume / RS / flow chain on the stocks of
    those sectors.
  - It returns a text message.

Files:

- `common.dfy` (`Common`): shared material.
  - Bars, sums, means and maxima.
  - The stable descending sort that stands for Python's
    `sorted(..., reverse=True)` and for pandas' `sort_values`.
  - Name order, and duplicate-free sequences.
- `signals.dfy` (`Signals`): the rules of `app/signals.py`.
- `scoring.dfy` (`Scoring`): the weights and the total score.
- `app_selector.dfy` (`AppSelector`): the orchestrator of
  `app/selector.py`.
  - Pure specification functions.
  - Imperative methods, with loops, proved equal to those functions.
- `indicators.dfy` (`Indicators`): the three indicators of
  `selector/indicators.py`.
- `strategy.dfy` (`Strategy`): `selector/strategy.py`.
  - The dict accumulation, the per-stock loop and the message building are
    methods proved against specification functions.
  - The returns, the top-N lists and the main-sector set are functions.
- `variants.dfy` (`Variants`): how the rules of the two pipelines relate
  on the same data.

How the source's data is represented:

- Prices, volumes and flows are `real`. A pandas NaN is `None` where it can
  occur.
- Every table the program fetches is an input:
  - a sequence of rows;
  - for per-code queries, a function from the stock code to the rows;
  - for a fetch that can fail, a `Fetch` value: data, `None`, or an
    exception.
- Dictionaries are `map`s. Where their insertion order matters (the tie
  order of `sorted`), it is kept as an explicit key sequence.

## Model

| member | source | states |
|---|---|---|
| Signals.BreakoutSignal | app/signals.py:11-16 | False with fewer than n+1 bars. Otherwise true exactly when the last close beats 1.01 times every high of the n bars before it. |
| Signals.BreakoutIgnoresOlderBars | app/signals.py:13-16 | With n+1 bars or more, bars older than the last n+1 never change the breakout signal. |
| Signals.NearAllTimeHigh | app/signals.py:23-25 | Undefined on an empty history. Otherwise, for a non-negative tolerance, true exactly when the last close reaches `tolerance` times every high. |
| Signals.VolumeSignal | app/signals.py:35-42 | False with fewer than window+3 bars or a zero window. Otherwise true exactly when today's volume beats 1.5 times its rolling mean and each of the last three volumes beats its own rolling mean, today included in the mean. |
| Signals.ThreeConsecutiveDaysNeeded | app/signals.py:39-42 | One of the last three days at or below its rolling mean rules the signal out. |
| Signals.VolumeIgnoresOlderBars | app/signals.py:38-41 | With window+3 bars or more, bars older than the last window+3 never change the volume signal. |
| Signals.RollingMeanShift | app/signals.py:38 | A rolling mean depends only on the window it covers, not on older bars. |
| Signals.OneDayWindowNeverFires | app/signals.py:38-42 | With a window of 1 and non-negative volumes the signal never fires, since a day's volume is its own mean. |
| Signals.ByDate | app/signals.py:54 | `sort_values("date")`: a permutation of the rows in non-decreasing date order. |
| Signals.MoneyFlowSignal | app/signals.py:52-58 | False for `None` or fewer than 3 rows. When true, the latest row by date has positive main net inflow and a main net ratio above 20. |
| Signals.MoneyFlowWhenAllPositive | app/signals.py:52-58 | With three or more rows all of positive inflow, and a single latest row whose ratio is above 20, the signal fires. |
| Signals.MoneyFlowIff | app/signals.py:52-58 | With distinct dates, the signal holds exactly when the table has three or more rows and its three latest rows all have positive main net inflow, the latest with a ratio above 20. |
| Signals.LatestThree | app/signals.py:54 | Three rows with increasing dates, and no other row after the first, are the last three rows of the sorted table. |
| Signals.DistinctDatesPermuted | app/signals.py:54 | Reordering the rows keeps their dates distinct. |
| Signals.MoneyFlowIgnoresRowOrder | app/signals.py:54-58 | With distinct dates, any reordering of the rows gives the same signal. |
| Signals.WindowReturn | app/signals.py:75-79 | Defined exactly when there are lookback+1 closes and a non-zero base close. Then (ret + 1) times the base close is the last close. On a zero base close the source computes an infinity or NaN, which the model does not represent. |
| Signals.CalcRs | app/signals.py:72-82 | `None`, with no division, when either series is shorter than lookback+1 or the index return is 0. Otherwise r times the index return is the stock return. A zero base close in either series also gives `None` here, where the source computes an infinite or NaN ratio. |
| Signals.RsAboveMeaning | app/signals.py:69-82 | In a rising market `RS > t` means the stock return beats t times the index return. In a falling market the inequality flips. |
| Signals.PctRank | app/signals.py:107-108 | `rank(pct=True)`, average method: defined exactly for non-NaN values, and always in (0, 1]. |
| Signals.CountsWithinValid | app/signals.py:107-108 | Values below plus values equal to v never exceed the non-NaN count. |
| Signals.CountBelowGrows | app/signals.py:107-108 | A larger value has at least as many values below it as a smaller one has below or equal. |
| Signals.UniqueMaxCounts | app/signals.py:107-108 | A unique maximum has every other valid value below it and only itself equal. |
| Signals.PctRankRespectsOrder | app/signals.py:107-108 | A strictly larger value gets a strictly larger percentile. Equal values get equal percentiles. |
| Signals.PctRankUniqueMax | app/signals.py:107-108 | A unique maximum (or a lone value) ranks exactly 1.0. |
| Signals.PctRankAllTied | app/signals.py:107-108 | When all n values tie, each ranks (n+1)/(2n). |
| Signals.ChangeColumn | app/signals.py:97-100 | One entry per sector row. The values themselves are stated by Signals.ComputeSectorScores. |
| Signals.InflowColumn | app/signals.py:102-105 | One entry per sector row. The values themselves are stated by Signals.ComputeSectorScores. |
| Signals.ComputeSectorScores | app/signals.py:94-110 | One row per input row. The input row is kept unchanged, and both percentile columns are added. |
| Signals.SectorRanksRespectOrder | app/signals.py:107-108 | Both sector percentile columns respect the order of their values. |
| Signals.SectorUniqueTopRanksOne | app/signals.py:107 | The sector with the unique highest change gets an up-rank of 1.0. |
| Signals.MissingChangeColumnTies | app/signals.py:97-100 | Without a `涨跌幅` column every sector's up-rank is (n+1)/(2n). |
| Signals.MarkMainSectors | app/signals.py:120-125 | Each row is kept. `is_main_sector` holds exactly when both percentiles exceed 0.8 and the main net inflow is positive. |
| Signals.NoInflowNeverMain | app/signals.py:121-125 | A sector with NaN or non-positive main net inflow is never main-line. |
| Signals.MissingColumnsNoMainLine | app/signals.py:97-125 | Without the inflow column, or without the change column when there are two or more sectors, no sector is main-line. |
| Scoring.CalcTotalScore | app/scoring.py:25-30 | A sector score in [0,1] gives a total in [0,100]. All three rules true with a non-negative sector score give at least 80. All false give 20 times the sector score. |
| Scoring.WeightsSumToOne | app/scoring.py:5-12 | The four weights sum to exactly 1.0. |
| Scoring.ScoreMonotone | app/scoring.py:26-29 | Turning a rule on or raising the sector score never lowers the total. |
| Scoring.ScoreExtremes | app/scoring.py:26-30 | Everything true with sector score 1 gives 100. Everything false with 0 gives 0. |
| Scoring.AllRulesScore | app/scoring.py:26-30 | All three rules with a sector score above 0.8 give more than 96. |
| Scoring.ThresholdNeedsAllRules | app/scoring.py:26-30 | With a sector score of at most 1, a total of 80 or more needs all three rules true. |
| AppSelector.WithTurnover | app/selector.py:40-43 | The `成交额_num` column: the coerced turnover, or 0.0 for every row when the column is missing. |
| AppSelector.ByTurnover | app/selector.py:45 | `sort_values(ascending=False)`: a permutation, descending among numbers, with NaN turnovers last. |
| AppSelector.CandidatePool | app/selector.py:45-46 | `head(MAX_STOCKS_PER_DAY)`: min(limit, rows) rows drawn from the table, in descending turnover order. |
| AppSelector.PoolDominatesRest | app/selector.py:45-46 | Every numeric-turnover row left out of the pool has turnover at most that of every pooled row. |
| AppSelector.SectorDictOf | app/selector.py:54-62 | The keys are exactly the sector names, and each value is the entry of some row of that name. |
| AppSelector.SectorDictLastWins | app/selector.py:55-62 | When names repeat, the last row of a name gives its entry. |
| AppSelector.MarkedDictQualifies | app/selector.py:54-62 | Every main-line entry of the dictionary has both percentiles above 0.8 and a positive inflow. |
| AppSelector.EvaluateCandidate | app/selector.py:70-148 | A row comes out exactly when the stock qualifies. That means: a non-blank industry in the dictionary and main-line, both fetches succeed, at least BREAKOUT_N+5 bars, all three signals, and RS above 0.7. The row carries the stock's fields, its RS, its sector ranks and its score, and the score is above 96. |
| AppSelector.ProcessCandidate | app/selector.py:70-148 | The loop body with its early `continue`s computes exactly the candidate's outcome. |
| AppSelector.CollectRows | app/selector.py:67-154 | The collected rows are at most as many as the candidates, and each has score above 96 and RS above 0.7. |
| AppSelector.RowsComeFromCandidates | app/selector.py:69-148 | Each result row comes from its own candidate, at strictly increasing positions of the pool. |
| AppSelector.CollectRowsOne | app/selector.py:69-154 | One candidate gives exactly its own result row when it passes every filter, and no row otherwise. |
| AppSelector.QualifyingCandidateCollected | app/selector.py:69-154 | Every candidate that passes every filter has its row in the result, wherever it stands in the pool. |
| AppSelector.CollectRowsAppend | app/selector.py:69-154 | Collecting over two parts of the pool gives the concatenation of the two collections. |
| AppSelector.RaisingCandidateSkipped | app/selector.py:150-154 | A stock whose fetch raises is skipped alone: the others give the same rows as without it. |
| AppSelector.ShortHistoryExcluded | app/selector.py:98-99 | A stock with no history or fewer than BREAKOUT_N+5 bars is never in the result. |
| AppSelector.NothingQualifiesNoRows | app/selector.py:156-157 | No qualifying candidate gives an empty result. |
| AppSelector.BuildSectorDict | app/selector.py:54-62 | The loop builds exactly the dictionary `SectorDictOf` describes. |
| AppSelector.CollectCandidates | app/selector.py:67-154 | The candidate loop appends exactly the collected rows, in pool order. |
| AppSelector.RunSelection | app/selector.py:27-161 | The result is the collected rows in stable descending score order. It is sorted, no longer than the pool limit, and every row has score above 96 and RS above 0.7. |
| AppSelector.SortKeepsRowBounds | app/selector.py:159-160 | Sorting by score keeps every row's score and RS bounds. |
| Indicators.CalcBreakout | selector/indicators.py:5-13 | With 56 bars or more: the last close beats 1.01 times each high of the 55 bars before it. With fewer: it beats every earlier bar's high, and there must be at least one earlier bar. |
| Indicators.CalcBreakoutIgnoresOlderBars | selector/indicators.py:9-13 | With 56 bars or more, older bars do not matter. |
| Indicators.PriorVolumes | selector/indicators.py:18-21 | The window is the 20 volumes before today, or all earlier ones in a shorter history. Today is never in it. |
| Indicators.CalcVolumeSpike | selector/indicators.py:16-24 | True exactly when the window is not empty and today's volume times its length beats 1.5 times its total. |
| Indicators.MeanComparison | selector/indicators.py:24 | `c > mean(w) * f` exactly when `c * len(w) > f * sum(w)`. |
| Indicators.CalcVolumeSpikeIgnoresOlderBars | selector/indicators.py:20-24 | With 21 bars or more, older bars do not matter. |
| Indicators.CalcRs | selector/indicators.py:27-31 | True when the market return is unknown or within 1e-6 of zero. False when it is infinite or NaN. Otherwise: `stock >= 0.7 * market` in a rising market, `<=` in a falling one. |
| Indicators.QuotientAtLeast | selector/indicators.py:31 | Dividing by a positive number keeps the inequality, and dividing by a negative one flips it. |
| Common.SortByName | selector/strategy.py:45 | The group keys: the same names, in ascending `str` order. |
| Common.NameBeforeTransitive | selector/strategy.py:45 | The `str` order is transitive. |
| Strategy.NameMap | selector/strategy.py:11 | The keys are exactly the codes of the stock list. |
| Strategy.NameMapLastWins | selector/strategy.py:11 | A code maps to the name on its last row. |
| Strategy.IndustryMap | selector/strategy.py:12 | Each mapped code maps to an industry that one of its rows carries. |
| Strategy.IndustryMapLastWins | selector/strategy.py:12 | A code's entry comes from its last row. A NaN industry there leaves the code unmapped. |
| Strategy.InnerJoin | selector/strategy.py:23-25 | The merge holds exactly the pairs of rows with the same code, one from each table. |
| Strategy.Returns | selector/strategy.py:26 | Every merged row with a non-zero first close gives its return, and every return comes from such a row. |
| Strategy.ToMap | selector/strategy.py:27 | Every code is a key, and each key's value is a return of that code. |
| Strategy.ReturnMap | selector/strategy.py:23-27 | A code is a key whenever it is quoted on both dates with a non-zero first close. Its value is the last close over the first close, minus one. |
| Strategy.IndexReturn | selector/strategy.py:30-34 | `None` exactly for an empty series. Non-finite exactly for a zero base close. Otherwise (ret + 1) times the first close is the last. |
| Strategy.SeenIndustries | selector/strategy.py:43-45 | Each industry of some row, NaN excluded, appears once. |
| Strategy.GroupKeys | selector/strategy.py:45 | The groupby keys: the industries present, each once. |
| Strategy.AmountsIn | selector/strategy.py:45 | Each value comes from a row of that industry. A present industry has at least one value. |
| Strategy.GroupMeans | selector/strategy.py:42-45 | `sector_perf`: per industry present, the mean of its stocks' five-day returns. |
| Strategy.GroupSums | selector/strategy.py:54-55 | `grp`: per industry present, the sum of its rows' `net_mf_amount`. |
| Strategy.ItemTotalOfKey | selector/strategy.py:55-57 | With distinct keys, the total under a key is the value of its single item. |
| Strategy.GroupSumsTotal | selector/strategy.py:55-57 | What an industry's group contributes is the sum of its rows' amounts, or 0 when it has none. |
| Strategy.FlowTags | selector/strategy.py:51-55 | The money-flow rows as (code, amount) pairs, in order. |
| Strategy.DayItems | selector/strategy.py:51-55 | One date's groups have distinct keys. An empty table gives none. |
| Strategy.AddItemsKeys | selector/strategy.py:56-59 | After the inner loop, the keys of `sector_flow5` are the old keys plus the date's industries. |
| Strategy.AddItemOrder | selector/strategy.py:56-57 | One step keeps the insertion order listing each key once. |
| Strategy.FlowKeysFromDays | selector/strategy.py:50-59 | Every key of `sector_flow5` is an industry of one of the dates. |
| Strategy.FlowOrderMatches | selector/strategy.py:48-59 | The insertion order of `sector_flow5` lists each of its keys exactly once. |
| Strategy.AddDay | selector/strategy.py:56-59 | The inner loop computes exactly the next state of the two dicts. |
| Strategy.SectorFlows | selector/strategy.py:48-59 | The five-day loop, skipping empty tables, computes exactly the accumulated dicts. |
| Strategy.AddItemsTotal | selector/strategy.py:56-57 | The inner loop adds each industry's date total to its running sum. |
| Strategy.SectorFlowIsSum | selector/strategy.py:48-59 | `sector_flow5.get(k, 0)` is the sum over the dates of industry k's daily total. Empty dates add nothing. |
| Strategy.AddItemsToday | selector/strategy.py:58-59 | On the last date, the flow today of each of that date's industries is its total on that date. |
| Strategy.FlowTodayIsLastDay | selector/strategy.py:48-59 | When the last date ends the list and occurs only there, `sector_flow_today.get(k, 0)` is industry k's total on that date. |
| Strategy.TodayUntouched | selector/strategy.py:58-59 | Dates other than the last never touch `sector_flow_today`. |
| Strategy.FiveDays | selector/strategy.py:18 | Five dates, ending with the last one. |
| Strategy.TopN | selector/strategy.py:66 | At least 1, at most the number of sectors when there is one, exactly the count divided by 5 (rounded down) from 5 sectors on, and 1 below 10 sectors. |
| Strategy.Top | selector/strategy.py:67-68 | min(n, count) items, drawn from the dict, sorted descending by value. |
| Strategy.KeySet | selector/strategy.py:70-71 | Exactly the keys of the items, no more of them than items. |
| Strategy.TopKeys | selector/strategy.py:70-71 | At most n keys, all of them keys of the dict. |
| Strategy.TopBeatsRest | selector/strategy.py:67-71 | An item of the top list is never below an item whose key missed the top set. |
| Strategy.TopKeepsAllWhenFew | selector/strategy.py:66-71 | With at most n items, every key makes the top set. |
| Strategy.TopKeyWitness | selector/strategy.py:67-71 | A key of the top set has an item at least as large as every item whose key missed the set. |
| Strategy.FlowItems | selector/strategy.py:68 | `sector_flow5.items()` in insertion order, with its totals. |
| Strategy.MainSectors | selector/strategy.py:73 | A sector is main exactly when it is in both top sets and has a positive flow today. There are at most topN of them. |
| Strategy.MainSectorBeatsRest | selector/strategy.py:66-73 | A main sector is, on both measures, at least as large as every industry outside that measure's top set. |
| Strategy.Candidates | selector/strategy.py:76-77 | Exactly the last date's rows whose code maps to a main sector. |
| Strategy.ByTradeDate | selector/strategy.py:95 | The same bars in non-decreasing date order. |
| Strategy.PicksAppend | selector/strategy.py:82-110 | The picks of two candidate lists one after the other are the picks of the first followed by those of the second: candidate order is kept. |
| Strategy.PicksOne | selector/strategy.py:83-110 | One candidate gives exactly its own pick when it passes every check, and nothing otherwise. |
| Strategy.PicksMembers | selector/strategy.py:82-110 | A pick is exactly a candidate that passes RS, a non-empty history with breakout and volume spike on it sorted by date, and three or more positive flow records. It carries the code's name and industry. |
| Strategy.CheckHistory | selector/strategy.py:92-103 | The history checks with early `continue`s decide exactly the history condition. |
| Strategy.CheckFlow | selector/strategy.py:106-108 | The flow check decides exactly "three or more records, all positive". |
| Strategy.CheckStock | selector/strategy.py:84-108 | The loop body decides exactly whether the stock qualifies. |
| Strategy.SelectStocks | selector/strategy.py:82-110 | The loop appends exactly the picks, in candidate order. |
| Strategy.BuildMessage | selector/strategy.py:115-117 | The message is the header followed by one line per pick, in order. |
| Strategy.CountCharAppend | selector/strategy.py:115-117 | Line breaks in a concatenation add up. |
| Strategy.MessageLineCount | selector/strategy.py:115-117 | When no field holds a line break, the message has exactly one line more than there are picks. |
| Strategy.LinesCount | selector/strategy.py:116-117 | Each pick contributes exactly one line. |
| Strategy.LinesAppend | selector/strategy.py:116-117 | The lines of two runs of picks are the two texts one after the other. |
| Strategy.RunStrategy | selector/strategy.py:6-119 | `run_selection` step by step returns exactly the specified message. |
| Strategy.NoSectorDataIff | selector/strategy.py:62-64 | "今日无板块数据" comes back exactly when no sector has a five-day return. |
| Strategy.MessagesDiffer | selector/strategy.py:64-115 | The three fixed messages and a pick list are all told apart. |
| Strategy.PicksAreQualifyingMainSectorStocks | selector/strategy.py:77-110 | A stock is named exactly when it is quoted on the last date, lies in a main sector and passes every check. |
| Strategy.NoFlowOnLastDate | selector/strategy.py:50-59 | No money flow on the last date leaves `sector_flow_today` empty. |
| Strategy.NoFlowTodayNoCandidates | selector/strategy.py:58-79 | Without flow data on the last date there is no main sector, so the answer is "今日无主线板块股票". |
| Variants.BreakoutRulesAgree | selector/indicators.py:9-13 | With 56 bars or more, the two breakout rules agree. |
| Variants.ShortHistoryBreakoutDiffers | selector/indicators.py:7-8 | On two bars the `selector/` rule fires where the `app/` rule cannot. |
| Variants.RsRulesInRisingMarket | selector/indicators.py:29-31 | In a rising market the `selector/` check passes exactly when the `app/` ratio reaches 0.7. So `app/`'s `> 0.7` implies it. |
| Variants.RsMissingIndex | selector/indicators.py:29-30 | Without index data the `app/` RS is `None` while the `selector/` check passes. |
| Variants.VolumeRulesDiffer | selector/indicators.py:16-24 | A flat stretch followed by one doubled day spikes for `selector/` but is not an `app/` volume signal. |

## Left out

- Data providers: the Tushare and akshare queries, the fake data of
  `app/data_loader.py`, the caches and the configuration.
  - Every table is an input.
  - `BREAKOUT_N` is 55.
  - `MAX_STOCKS_PER_DAY` is a parameter of `AppSelector.RunSelection`.
    `app/config.py` does not define it.
  - The index series of `selector/strategy.py:30` is an input. The
    function it calls is not defined in `selector/data_loader.py`.
- Telegram delivery, the FastAPI endpoints, the scheduling thread and all
  printing and logging are not modelled.
- Floating point:
  - Reals are exact.
  - `round(x, 2)` and `round(x, 3)` on the `app/` output fields are not
    modelled.
  - Infinities are not modelled beyond the cases below.
- Strategy.Returns: a merged row whose first close is 0 has an infinite or
  NaN return in pandas. The model drops that row.
  - So a code with a zero first close has no entry in `ret_map`, and the
    per-stock check reads the default 0.
  - A sector whose stocks all have a zero base close has no five-day
    return.
- Sorting:
  - `AppSelector.RunSelection` and `Strategy.Top` use a stable sort.
  - pandas' default sort is not stable, so among equal scores the model
    fixes one of the orders pandas may produce.
  - AppSelector.ByTurnover keeps equal turnovers in their input order.
    That order decides which of them the `head()` of
    `AppSelector.CandidatePool` keeps. No contract depends on it.
  - Strategy.ByTradeDate fixes the order of bars with equal dates, which
    is only relevant when a history repeats a date.
- `pd.merge` row order with repeated codes is not modelled. The join is
  specified by membership only.
- `main_sectors` is modelled as a set. The source builds a list from a set
  and only tests membership.
- Exceptions inside `selector/strategy.py` abort the run in the source and
  are not modelled. This covers unexpected table columns.
- `Strategy.RunStrategy` and the functions of the whole run require at
  least five trade dates.
  - `get_trade_dates(20)` (selector/data_loader.py:12-22) loops until it
    holds exactly 20 dates and returns them oldest first.
  - So the only call site always meets this requirement.
- Signals.MoneyFlowIff: the exact condition is stated for tables whose
  dates are distinct. With a repeated date the three rows `sort_values`
  keeps depend on a tie order that pandas does not fix.
- Signals.WindowReturn and Signals.CalcRs: a zero base close gives `None`
  in the model, and the candidate is skipped.
  - In the source the return is infinite, or NaN when the last close is
    0 too.
  - An infinite stock return in a rising market gives RS = inf. A NaN
    index return gives RS = NaN. Both pass the `rs_value <= 0.7` filter
    of `app/selector.py:116`, so the source keeps such a stock where the
    model drops it.
- `app/selector.py:35` merges the stock list with the industry mapping.
  That merge is an input: each quote row already carries its industry or
  `None`.
- `int(len(inds) * 0.2)` is modelled as integer division by 5. The two
  agree for every count a sector table can have.
