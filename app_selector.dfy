/** The orchestrator of the `app/` variant (app/selector.py): the candidate
    pool of the highest-turnover stocks, the dictionary of sectors, the
    strict per-stock filter chain and the final sort by score. Everything
    the program fetches from data providers is an input here. */
module AppSelector {
  import opened Common
  import opened Signals
  import opened Scoring

  /** `BREAKOUT_N`; the history must have `BREAKOUT_N + 5` bars. */
  const BreakoutN: nat := 55
  /** The lookback of the RS computation and the volume moving-average
      window (`volume_signal` is called with its default). */
  const RsLookback: nat := 20
  const VolumeWindow: nat := 20

  /** The outcome of a call to a data provider: a table, `None`, or an
      exception (which the per-stock handler catches). */
  datatype Fetch<T> = Fetched(data: T) | Missing | Raises

  /** Everything fetched during a run: the index closes, and per stock code
      its daily bars and its fund-flow table. */
  datatype Market = Market(
    index: seq<real>,
    history: string -> Fetch<seq<Bar>>,
    fundFlow: string -> Fetch<seq<FlowRecord>>)

  /** A row of the realtime quote table after the left merge with the stock
      list and the industry mapping: `industry` is `None` when the stock has
      no mapping, `turnover` is `成交额` coerced to a number. */
  datatype SpotRow = SpotRow(code: string, name: string, industry: Option<string>, turnover: Option<real>)

  /** The quote table, with whether it has the `成交额` column at all. */
  datatype SpotTable = SpotTable(hasTurnover: bool, rows: seq<SpotRow>)

  /** A quote row together with its `成交额_num` column. */
  datatype SpotEntry = SpotEntry(row: SpotRow, turnoverNum: Option<real>)

  /** One entry of `sector_dict`. */
  datatype SectorInfo = SectorInfo(upRankPct: Option<real>, flowRankPct: Option<real>, isMain: bool, mainNetIn: Option<real>)

  /** One output row (the rounding of `RS`, the two ranks and `score` for
      display is not modelled). */
  datatype ResultRow = ResultRow(
    code: string, name: string, industry: string, rs: real,
    sectorUpRank: real, sectorFlowRank: real, sectorMainNetIn: Option<real>, score: real)

  // ---------------------------------------------------------------------
  // The candidate pool
  // ---------------------------------------------------------------------

  /** The `成交额_num` column: the coerced turnover, or 0.0 throughout when
      the table has no `成交额` column. */
  function WithTurnover(t: SpotTable): (r: seq<SpotEntry>)
    ensures |r| == |t.rows|
    ensures forall i :: 0 <= i < |r| ==>
      r[i].row == t.rows[i] && r[i].turnoverNum == (if t.hasTurnover then t.rows[i].turnover else Some(0.0))
  {
    seq(|t.rows|, i requires 0 <= i < |t.rows| =>
      SpotEntry(t.rows[i], if t.hasTurnover then t.rows[i].turnover else Some(0.0)))
  }

  function TurnoverKey(e: SpotEntry): real
  {
    if e.turnoverNum.Some? then e.turnoverNum.value else 0.0
  }

  function NumericEntries(es: seq<SpotEntry>): (r: seq<SpotEntry>)
    ensures forall i :: 0 <= i < |r| ==> r[i].turnoverNum.Some?
  {
    if es == [] then []
    else (if es[0].turnoverNum.Some? then [es[0]] else []) + NumericEntries(es[1..])
  }

  function NanEntries(es: seq<SpotEntry>): (r: seq<SpotEntry>)
    ensures forall i :: 0 <= i < |r| ==> r[i].turnoverNum.None?
  {
    if es == [] then []
    else (if es[0].turnoverNum.None? then [es[0]] else []) + NanEntries(es[1..])
  }

  lemma {:induction false} PartitionKeepsEntries(es: seq<SpotEntry>)
    ensures multiset(NumericEntries(es)) + multiset(NanEntries(es)) == multiset(es)
  {
    if es != [] {
      PartitionKeepsEntries(es[1..]);
      assert es == [es[0]] + es[1..];
    }
  }

  /** `sort_values("成交额_num", ascending=False)`: the same entries, the
      numbers in non-increasing order and the NaNs after all of them. */
  function ByTurnover(es: seq<SpotEntry>): (r: seq<SpotEntry>)
    ensures multiset(r) == multiset(es)
    ensures forall i, j :: 0 <= i < j < |r| && r[j].turnoverNum.Some? ==>
      r[i].turnoverNum.Some? && r[i].turnoverNum.value >= r[j].turnoverNum.value
  {
    PartitionKeepsEntries(es);
    var numbers := SortDescBy(NumericEntries(es), TurnoverKey);
    var nans := NanEntries(es);
    assert forall i :: 0 <= i < |numbers| ==> numbers[i].turnoverNum.Some? by {
      forall i | 0 <= i < |numbers| ensures numbers[i].turnoverNum.Some? {
        assert numbers[i] in multiset(NumericEntries(es));
      }
    }
    SortedSide(numbers);
    NumbersThenNans(numbers, nans);
    assert multiset(numbers + nans) == multiset(numbers) + multiset(nans);
    numbers + nans
  }

  lemma SortedSide(numbers: seq<SpotEntry>)
    requires SortedDesc(numbers, TurnoverKey)
    requires forall i :: 0 <= i < |numbers| ==> numbers[i].turnoverNum.Some?
    ensures forall i, j :: 0 <= i < j < |numbers| ==> numbers[i].turnoverNum.value >= numbers[j].turnoverNum.value
  {
    forall i, j | 0 <= i < j < |numbers|
      ensures numbers[i].turnoverNum.value >= numbers[j].turnoverNum.value
    {
      assert TurnoverKey(numbers[i]) >= TurnoverKey(numbers[j]);
    }
  }

  /** Numbers in descending order followed by NaNs: every entry before a
      number is a number at least as large. */
  lemma NumbersThenNans(numbers: seq<SpotEntry>, nans: seq<SpotEntry>)
    requires forall i :: 0 <= i < |numbers| ==> numbers[i].turnoverNum.Some?
    requires forall i, j :: 0 <= i < j < |numbers| ==> numbers[i].turnoverNum.value >= numbers[j].turnoverNum.value
    requires forall i :: 0 <= i < |nans| ==> nans[i].turnoverNum.None?
    ensures var r := numbers + nans;
      forall i, j :: 0 <= i < j < |r| && r[j].turnoverNum.Some? ==>
        r[i].turnoverNum.Some? && r[i].turnoverNum.value >= r[j].turnoverNum.value
  {
  }

  /** The candidate pool: the first `maxStocks` entries of that order
      (`head(MAX_STOCKS_PER_DAY)`). */
  function CandidatePool(t: SpotTable, maxStocks: nat): (r: seq<SpotEntry>)
    ensures |r| == if maxStocks < |t.rows| then maxStocks else |t.rows|
    ensures multiset(r) <= multiset(WithTurnover(t))
    ensures forall i, j :: 0 <= i < j < |r| && r[j].turnoverNum.Some? ==>
      r[i].turnoverNum.Some? && r[i].turnoverNum.value >= r[j].turnoverNum.value
  {
    var ordered := ByTurnover(WithTurnover(t));
    assert |ordered| == |multiset(ordered)| == |t.rows|;
    var k := if maxStocks < |ordered| then maxStocks else |ordered|;
    assert ordered == ordered[..k] + ordered[k..];
    ordered[..k]
  }

  /** A quote row left out of the pool never has a higher turnover than one
      taken: when it has a number, every entry of the pool has a number at
      least as large. */
  lemma {:induction false} PoolDominatesRest(t: SpotTable, maxStocks: nat, x: SpotEntry)
    requires x in multiset(WithTurnover(t)) - multiset(CandidatePool(t, maxStocks))
    requires x.turnoverNum.Some?
    ensures forall e :: e in CandidatePool(t, maxStocks) ==>
      e.turnoverNum.Some? && e.turnoverNum.value >= x.turnoverNum.value
  {
    var ordered := ByTurnover(WithTurnover(t));
    var pool := CandidatePool(t, maxStocks);
    var k := |pool|;
    assert pool == ordered[..k];
    assert multiset(WithTurnover(t)) == multiset(ordered);
    TailDominated(ordered, k, x);
  }

  lemma TailDominated(ordered: seq<SpotEntry>, k: nat, x: SpotEntry)
    requires k <= |ordered|
    requires forall i, j :: 0 <= i < j < |ordered| && ordered[j].turnoverNum.Some? ==>
      ordered[i].turnoverNum.Some? && ordered[i].turnoverNum.value >= ordered[j].turnoverNum.value
    requires x in multiset(ordered) - multiset(ordered[..k]) && x.turnoverNum.Some?
    ensures forall e :: e in ordered[..k] ==>
      e.turnoverNum.Some? && e.turnoverNum.value >= x.turnoverNum.value
  {
    assert ordered == ordered[..k] + ordered[k..];
    assert multiset(ordered[k..]) == multiset(ordered) - multiset(ordered[..k]);
    var j :| 0 <= j < |ordered[k..]| && ordered[k..][j] == x;
    assert ordered[k + j] == x;
  }

  // ---------------------------------------------------------------------
  // The sector dictionary
  // ---------------------------------------------------------------------

  function NameOf(m: MarkedSector): string
  {
    m.score.raw.name
  }

  function InfoOf(m: MarkedSector): SectorInfo
  {
    SectorInfo(m.score.upRankPct, m.score.flowRankPct, m.isMain, m.score.mainNetIn)
  }

  /** `sector_dict` after the loop over the marked sectors: one key per
      sector name, each holding the entry of some row of that name. */
  function SectorDictOf(ms: seq<MarkedSector>): (d: map<string, SectorInfo>)
    ensures forall k :: k in d <==> exists i :: 0 <= i < |ms| && NameOf(ms[i]) == k
    ensures forall k :: k in d ==> exists i :: 0 <= i < |ms| && NameOf(ms[i]) == k && d[k] == InfoOf(ms[i])
  {
    if ms == [] then map[]
    else
      var prefix := ms[..|ms| - 1];
      assert forall i :: 0 <= i < |prefix| ==> prefix[i] == ms[i];
      SectorDictOf(prefix)[NameOf(ms[|ms| - 1]) := InfoOf(ms[|ms| - 1])]
  }

  /** When several rows share a name, the last one wins. */
  lemma {:induction false} SectorDictLastWins(ms: seq<MarkedSector>, i: nat)
    requires i < |ms|
    requires forall j :: i < j < |ms| ==> NameOf(ms[j]) != NameOf(ms[i])
    ensures NameOf(ms[i]) in SectorDictOf(ms)
    ensures SectorDictOf(ms)[NameOf(ms[i])] == InfoOf(ms[i])
  {
    if i < |ms| - 1 {
      var prefix := ms[..|ms| - 1];
      assert forall j :: 0 <= j < |prefix| ==> prefix[j] == ms[j];
      SectorDictLastWins(prefix, i);
    }
  }

  /** Every main-line entry of the dictionary has both percentiles above 0.8
      and a positive main net inflow. */
  ghost predicate MainEntriesQualify(d: map<string, SectorInfo>)
  {
    forall k :: k in d && d[k].isMain ==>
      GreaterThan(d[k].upRankPct, 0.8) && GreaterThan(d[k].flowRankPct, 0.8) && GreaterThan(d[k].mainNetIn, 0.0)
  }

  lemma {:induction false} MarkedDictQualifies(s: seq<SectorScore>)
    ensures MainEntriesQualify(SectorDictOf(MarkMainSectors(s)))
  {
    var ms := MarkMainSectors(s);
    var d := SectorDictOf(ms);
    forall k | k in d && d[k].isMain
      ensures GreaterThan(d[k].upRankPct, 0.8) && GreaterThan(d[k].flowRankPct, 0.8) && GreaterThan(d[k].mainNetIn, 0.0)
    {
      var i :| 0 <= i < |ms| && NameOf(ms[i]) == k && d[k] == InfoOf(ms[i]);
      assert ms[i].isMain;
    }
  }

  // ---------------------------------------------------------------------
  // The per-stock filter chain
  // ---------------------------------------------------------------------

  /** Python's `str.isspace` on one character. */
  predicate IsSpace(c: char)
  {
    ('\t' <= c <= '\r') || ('\U{1c}' <= c <= ' ') || c == '\U{85}' || c == '\U{a0}' ||
    c == '\U{1680}' || ('\U{2000}' <= c <= '\U{200a}') || c == '\U{2028}' || c == '\U{2029}' ||
    c == '\U{202f}' || c == '\U{205f}' || c == '\U{3000}'
  }

  /** `s.strip() == ""`. */
  predicate IsBlank(s: string)
  {
    forall i :: 0 <= i < |s| ==> IsSpace(s[i])
  }

  /** What `money_flow_signal` receives: the table, or `None`. */
  function FlowInput(f: Fetch<seq<FlowRecord>>): Option<seq<FlowRecord>>
  {
    if f.Fetched? then Some(f.data) else None
  }

  /** The conditions a stock must meet, all at once: a non-blank industry
      that is a main-line sector, both fetches succeed, at least
      `BREAKOUT_N + 5` bars, breakout, volume and money-flow signals, and
      an RS above 0.7. (The `score >= 80` filter adds nothing: the three
      signals alone give a score of at least 80.) */
  ghost predicate Qualifies(c: SpotRow, d: map<string, SectorInfo>, mk: Market)
  {
    c.industry.Some? && !IsBlank(c.industry.value) &&
    c.industry.value in d && d[c.industry.value].isMain &&
    mk.history(c.code).Fetched? && !mk.fundFlow(c.code).Raises? &&
    |mk.history(c.code).data| >= BreakoutN + 5 &&
    BreakoutSignal(mk.history(c.code).data, BreakoutN) &&
    VolumeSignal(mk.history(c.code).data, VolumeWindow) &&
    MoneyFlowSignal(FlowInput(mk.fundFlow(c.code))) &&
    CalcRs(mk.history(c.code).data, mk.index, RsLookback).Some? &&
    CalcRs(mk.history(c.code).data, mk.index, RsLookback).value > 0.7
  }

  /** The body of the candidate loop for one candidate, in the source's
      order of filters: `None` where it `continue`s (including where the
      handler catches an exception from a fetch), the appended row
      otherwise. */
  function EvaluateCandidate(c: SpotRow, d: map<string, SectorInfo>, mk: Market): (r: Option<ResultRow>)
    requires MainEntriesQualify(d)
    ensures r.Some? <==> Qualifies(c, d, mk)
    ensures r.Some? ==>
      var info := d[c.industry.value];
      r.value.code == c.code && r.value.name == c.name && r.value.industry == c.industry.value &&
      r.value.rs == CalcRs(mk.history(c.code).data, mk.index, RsLookback).value &&
      r.value.sectorUpRank == info.upRankPct.value && r.value.sectorFlowRank == info.flowRankPct.value &&
      r.value.sectorMainNetIn == info.mainNetIn &&
      r.value.score == CalcTotalScore(true, true, true, (info.upRankPct.value + info.flowRankPct.value) / 2.0)
    ensures r.Some? ==> r.value.score > 96.0 && r.value.rs > 0.7
  {
    if c.industry.None? || IsBlank(c.industry.value) then None
    else
      var industry := c.industry.value;
      if industry !in d then None
      else
        var info := d[industry];
        if !info.isMain then None
        else
          var sectorScore := (info.upRankPct.value + info.flowRankPct.value) / 2.0;
          var price := mk.history(c.code);
          var flow := mk.fundFlow(c.code);
          if price.Raises? || flow.Raises? then None
          else if price.Missing? || |price.data| < BreakoutN + 5 then None
          else
            var breakout := BreakoutSignal(price.data, BreakoutN);
            var volume := VolumeSignal(price.data, VolumeWindow);
            var money := MoneyFlowSignal(FlowInput(flow));
            var rs := CalcRs(price.data, mk.index, RsLookback);
            if rs.None? || rs.value <= 0.7 then None
            else
              var total := CalcTotalScore(breakout, volume, money, sectorScore);
              if !breakout || !volume || !money || total < 80.0 then None
              else
                AllRulesScore(sectorScore);
                Some(ResultRow(c.code, c.name, industry, rs.value,
                  info.upRankPct.value, info.flowRankPct.value, info.mainNetIn, total))
  }

  /** The outcome of the loop body for each candidate of the pool. */
  function Outcomes(pool: seq<SpotEntry>, d: map<string, SectorInfo>, mk: Market): (outs: seq<Option<ResultRow>>)
    requires MainEntriesQualify(d)
    ensures |outs| == |pool|
  {
    if pool == [] then []
    else Outcomes(pool[..|pool| - 1], d, mk) + [EvaluateCandidate(pool[|pool| - 1].row, d, mk)]
  }

  lemma {:induction false} OutcomeAt(pool: seq<SpotEntry>, d: map<string, SectorInfo>, mk: Market, i: nat)
    requires MainEntriesQualify(d)
    requires i < |pool|
    ensures Outcomes(pool, d, mk)[i] == EvaluateCandidate(pool[i].row, d, mk)
  {
    if i < |pool| - 1 {
      var prefix := pool[..|pool| - 1];
      OutcomeAt(prefix, d, mk, i);
      assert prefix[i] == pool[i];
    }
  }

  /** The rows the candidate loop appends, in candidate order: each one is
      the row of one qualifying candidate, so it has a score above 96 and an
      RS above 0.7. */
  function CollectRows(pool: seq<SpotEntry>, d: map<string, SectorInfo>, mk: Market): (rows: seq<ResultRow>)
    requires MainEntriesQualify(d)
    ensures |rows| <= |pool|
    ensures forall k :: 0 <= k < |rows| ==> rows[k].score > 96.0 && rows[k].rs > 0.7
  {
    var outs := Outcomes(pool, d, mk);
    var idx := SomeIndices(outs);
    forall k | 0 <= k < |idx|
      ensures EvaluateCandidate(pool[idx[k]].row, d, mk) == Some(Somes(outs)[k])
    {
      OutcomeAt(pool, d, mk, idx[k]);
    }
    Somes(outs)
  }

  /** Where each output row comes from: strictly increasing positions in the
      pool, one per row, each a qualifying candidate that produced exactly
      that row. */
  lemma {:induction false} RowsComeFromCandidates(pool: seq<SpotEntry>, d: map<string, SectorInfo>, mk: Market)
    returns (idx: seq<nat>)
    requires MainEntriesQualify(d)
    ensures |idx| == |CollectRows(pool, d, mk)|
    ensures forall k, l :: 0 <= k < l < |idx| ==> idx[k] < idx[l]
    ensures forall k :: 0 <= k < |idx| ==> (idx[k] < |pool| &&
      Qualifies(pool[idx[k]].row, d, mk) &&
      EvaluateCandidate(pool[idx[k]].row, d, mk) == Some(CollectRows(pool, d, mk)[k]))
  {
    idx := SomeIndices(Outcomes(pool, d, mk));
    forall k | 0 <= k < |idx| ensures EvaluateCandidate(pool[idx[k]].row, d, mk) == Some(CollectRows(pool, d, mk)[k]) {
      OutcomeAt(pool, d, mk, idx[k]);
    }
  }

  /** The loop over a concatenation is the loop over each part. */
  /** One candidate gives exactly its own row when it qualifies, and
      nothing otherwise. */
  lemma CollectRowsOne(c: SpotEntry, d: map<string, SectorInfo>, mk: Market)
    requires MainEntriesQualify(d)
    ensures CollectRows([c], d, mk) == (if Qualifies(c.row, d, mk) then [EvaluateCandidate(c.row, d, mk).value] else [])
  {
    assert [c][..0] == [];
  }

  /** Every qualifying candidate's row is collected, wherever it stands in
      the pool. */
  lemma QualifyingCandidateCollected(a: seq<SpotEntry>, c: SpotEntry, b: seq<SpotEntry>, d: map<string, SectorInfo>, mk: Market)
    requires MainEntriesQualify(d)
    requires Qualifies(c.row, d, mk)
    ensures EvaluateCandidate(c.row, d, mk).value in CollectRows(a + [c] + b, d, mk)
  {
    CollectRowsAppend(a + [c], b, d, mk);
    CollectRowsAppend(a, [c], d, mk);
    CollectRowsOne(c, d, mk);
  }

  lemma {:induction false} CollectRowsAppend(a: seq<SpotEntry>, b: seq<SpotEntry>, d: map<string, SectorInfo>, mk: Market)
    requires MainEntriesQualify(d)
    ensures CollectRows(a + b, d, mk) == CollectRows(a, d, mk) + CollectRows(b, d, mk)
  {
    OutcomesAppend(a, b, d, mk);
    SomesAppend(Outcomes(a, d, mk), Outcomes(b, d, mk));
  }

  lemma {:induction false} OutcomesAppend(a: seq<SpotEntry>, b: seq<SpotEntry>, d: map<string, SectorInfo>, mk: Market)
    requires MainEntriesQualify(d)
    ensures Outcomes(a + b, d, mk) == Outcomes(a, d, mk) + Outcomes(b, d, mk)
  {
    if b == [] {
      assert a + b == a;
    } else {
      var b' := b[..|b| - 1];
      assert (a + b)[..|a + b| - 1] == a + b';
      assert (a + b)[|a + b| - 1] == b[|b| - 1];
      OutcomesAppend(a, b', d, mk);
    }
  }

  /** A candidate whose price or fund-flow fetch raises is skipped, and the
      candidates after it are processed as if it were not there. */
  lemma {:induction false} RaisingCandidateSkipped(a: seq<SpotEntry>, c: SpotEntry, b: seq<SpotEntry>, d: map<string, SectorInfo>, mk: Market)
    requires MainEntriesQualify(d)
    requires mk.history(c.row.code).Raises? || mk.fundFlow(c.row.code).Raises?
    ensures CollectRows(a + [c] + b, d, mk) == CollectRows(a, d, mk) + CollectRows(b, d, mk)
  {
    CollectRowsAppend(a + [c], b, d, mk);
    CollectRowsAppend(a, [c], d, mk);
    var skipped := Outcomes([c], d, mk);
    assert skipped == [None] && skipped[..0] == [];
  }

  /** A stock with no price history, or fewer than `BREAKOUT_N + 5` bars,
      never appears in the output. */
  lemma {:induction false} ShortHistoryExcluded(pool: seq<SpotEntry>, d: map<string, SectorInfo>, mk: Market, code: string)
    requires MainEntriesQualify(d)
    requires mk.history(code).Missing? || (mk.history(code).Fetched? && |mk.history(code).data| < BreakoutN + 5)
    ensures forall k :: 0 <= k < |CollectRows(pool, d, mk)| ==> CollectRows(pool, d, mk)[k].code != code
  {
    var idx := RowsComeFromCandidates(pool, d, mk);
  }

  /** No qualifying candidate, no rows. */
  lemma {:induction false} NothingQualifiesNoRows(pool: seq<SpotEntry>, d: map<string, SectorInfo>, mk: Market)
    requires MainEntriesQualify(d)
    requires forall i :: 0 <= i < |pool| ==> !Qualifies(pool[i].row, d, mk)
    ensures CollectRows(pool, d, mk) == []
  {
    forall i | 0 <= i < |pool| ensures Outcomes(pool, d, mk)[i].None? {
      OutcomeAt(pool, d, mk, i);
    }
    SomesOfNones(Outcomes(pool, d, mk));
  }

  function RowScore(r: ResultRow): real
  {
    r.score
  }

  /** The marked sector table of a run. */
  function MarkedSectors(sectors: SectorTable): seq<MarkedSector>
  {
    MarkMainSectors(ComputeSectorScores(sectors))
  }

  /** The body of the candidate loop (the `try` block) for one candidate:
      each `continue`, whether a filter's or the exception handler's after a
      fetch raised, is a `return None`. */
  method ProcessCandidate(c: SpotRow, sectorDict: map<string, SectorInfo>, mk: Market)
    returns (row: Option<ResultRow>)
    requires MainEntriesQualify(sectorDict)
    ensures row == EvaluateCandidate(c, sectorDict, mk)
  {
    if c.industry.None? || IsBlank(c.industry.value) {
      return None;
    }
    var industry := c.industry.value;
    if industry !in sectorDict {
      return None;
    }
    var info := sectorDict[industry];
    if !info.isMain {
      return None;
    }
    var sectorScore := (info.upRankPct.value + info.flowRankPct.value) / 2.0;
    var price := mk.history(c.code);
    if price.Raises? {
      return None;
    }
    var flow := mk.fundFlow(c.code);
    if flow.Raises? {
      return None;
    }
    if price.Missing? || |price.data| < BreakoutN + 5 {
      return None;
    }
    var breakout := BreakoutSignal(price.data, BreakoutN);
    var volume := VolumeSignal(price.data, VolumeWindow);
    var money := MoneyFlowSignal(FlowInput(flow));
    var rs := CalcRs(price.data, mk.index, RsLookback);
    if rs.None? || rs.value <= 0.7 {
      return None;
    }
    var total := CalcTotalScore(breakout, volume, money, sectorScore);
    if !breakout || !volume || !money || total < 80.0 {
      return None;
    }
    row := Some(ResultRow(c.code, c.name, industry, rs.value,
      info.upRankPct.value, info.flowRankPct.value, info.mainNetIn, total));
  }

  /** `run_selection`: builds the sector dictionary, runs every candidate of
      the pool through the filter chain and returns the qualifying rows
      sorted by score, highest first. */
  method RunSelection(spot: SpotTable, maxStocks: nat, sectors: SectorTable, mk: Market)
    returns (res: seq<ResultRow>)
    ensures res == SortDescBy(
      CollectRows(CandidatePool(spot, maxStocks), SectorDictOf(MarkedSectors(sectors)), mk), RowScore)
    ensures SortedDesc(res, RowScore)
    ensures |res| <= maxStocks
    ensures forall k :: 0 <= k < |res| ==> res[k].score > 96.0 && res[k].rs > 0.7
  {
    var pool := CandidatePool(spot, maxStocks);
    var sectorDict := BuildSectorDict(MarkedSectors(sectors));
    MarkedDictQualifies(ComputeSectorScores(sectors));
    var results := CollectCandidates(pool, sectorDict, mk);
    if results == [] {
      return [];
    }
    res := SortDescBy(results, RowScore);
    SortKeepsRowBounds(results);
  }

  /** The loop that fills `sector_dict`, one marked sector at a time. */
  method BuildSectorDict(marked: seq<MarkedSector>) returns (sectorDict: map<string, SectorInfo>)
    ensures sectorDict == SectorDictOf(marked)
  {
    sectorDict := map[];
    for i := 0 to |marked|
      invariant sectorDict == SectorDictOf(marked[..i])
    {
      assert marked[..i + 1][..i] == marked[..i];
      sectorDict := sectorDict[NameOf(marked[i]) := InfoOf(marked[i])];
    }
    assert marked[..|marked|] == marked;
  }

  /** The candidate loop: every candidate of the pool in turn, appending
      the row of each one that passes. */
  method CollectCandidates(pool: seq<SpotEntry>, sectorDict: map<string, SectorInfo>, mk: Market)
    returns (results: seq<ResultRow>)
    requires MainEntriesQualify(sectorDict)
    ensures results == CollectRows(pool, sectorDict, mk)
  {
    results := [];
    ghost var outs := Outcomes(pool, sectorDict, mk);
    for i := 0 to |pool|
      invariant results == Somes(outs[..i])
    {
      SomesStep(outs, i);
      OutcomeAt(pool, sectorDict, mk, i);
      var row := ProcessCandidate(pool[i].row, sectorDict, mk);
      if row.Some? {
        results := results + [row.value];
      }
    }
    assert outs[..|pool|] == outs;
  }

  /** Sorting keeps every row, so it keeps the bounds every row meets. */
  lemma SortKeepsRowBounds(rows: seq<ResultRow>)
    requires forall k :: 0 <= k < |rows| ==> rows[k].score > 96.0 && rows[k].rs > 0.7
    ensures var sorted := SortDescBy(rows, RowScore);
      forall k :: 0 <= k < |sorted| ==> sorted[k].score > 96.0 && sorted[k].rs > 0.7
  {
    var sorted := SortDescBy(rows, RowScore);
    forall k | 0 <= k < |sorted| ensures sorted[k].score > 96.0 && sorted[k].rs > 0.7 {
      assert sorted[k] in multiset(rows);
    }
  }
}
