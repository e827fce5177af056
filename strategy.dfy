/** The strategy of the `selector/` variant (selector/strategy.py): 20-day
    stock returns, sector five-day returns and fund flows, main sectors by
    top-N intersection, the per-stock filter chain and the text message.
    Every Tushare query is an input. */
module Strategy {
  import opened Common
  import opened Indicators

  const NoSectorDataMsg := "今日无板块数据"
  const NoMainSectorStocksMsg := "今日无主线板块股票"
  const NoPicksMsg := "今日无符合策略股票"

  /** A row of `stock_basic` (`industry` is `None` when it is NaN). */
  datatype BasicRow = BasicRow(tsCode: string, name: string, industry: Option<string>)
  /** A row of the daily quote table of one trade date. */
  datatype DailyRow = DailyRow(tsCode: string, close: real)
  /** A row of the money-flow table of one trade date. */
  datatype FlowRow = FlowRow(tsCode: string, netMfAmount: real)

  /** The data a run reads: the stock list, the trade dates, the daily and
      money-flow tables by date, the index closes, and per stock code its
      daily bars over the last 90 days and its `net_mf_amount` values over
      the last three trade dates. */
  datatype Feed = Feed(
    basic: seq<BasicRow>,
    tradeDates: seq<string>,
    daily: string -> seq<DailyRow>,
    moneyflow: string -> seq<FlowRow>,
    index: seq<real>,
    history: string -> seq<Bar>,
    stockFlow: string -> seq<real>)

  /** `d.get(k, default)`. */
  function GetOr<V>(m: map<string, V>, k: string, default: V): V
  {
    if k in m then m[k] else default
  }

  // ---------------------------------------------------------------------
  // Name and industry maps
  // ---------------------------------------------------------------------

  /** `dict(zip(basic.ts_code, basic.name))`: the last row of a code wins. */
  function NameMap(basic: seq<BasicRow>): (m: map<string, string>)
    ensures forall c :: c in m <==> exists i :: 0 <= i < |basic| && basic[i].tsCode == c
  {
    if basic == [] then map[]
    else
      var prefix := basic[..|basic| - 1];
      assert forall i :: 0 <= i < |prefix| ==> prefix[i] == basic[i];
      NameMap(prefix)[basic[|basic| - 1].tsCode := basic[|basic| - 1].name]
  }

  /** The name of a code is that of its last row. */
  lemma {:induction false} NameMapLastWins(basic: seq<BasicRow>, i: nat)
    requires i < |basic|
    requires forall j :: i < j < |basic| ==> basic[j].tsCode != basic[i].tsCode
    ensures basic[i].tsCode in NameMap(basic) && NameMap(basic)[basic[i].tsCode] == basic[i].name
  {
    if i < |basic| - 1 {
      var prefix := basic[..|basic| - 1];
      assert forall j :: 0 <= j < |prefix| ==> prefix[j] == basic[j];
      NameMapLastWins(prefix, i);
    }
  }

  /** `dict(zip(basic.ts_code, basic.industry))`, keeping only string
      industries: a code whose last row has a NaN industry maps to no
      industry, like a code that is absent. */
  function IndustryMap(basic: seq<BasicRow>): (m: map<string, string>)
    ensures forall c :: c in m ==> exists i :: 0 <= i < |basic| && basic[i].tsCode == c && basic[i].industry == Some(m[c])
  {
    if basic == [] then map[]
    else
      var prefix := basic[..|basic| - 1];
      assert forall i :: 0 <= i < |prefix| ==> prefix[i] == basic[i];
      var last := basic[|basic| - 1];
      match last.industry
      case Some(ind) => IndustryMap(prefix)[last.tsCode := ind]
      case None => IndustryMap(prefix) - {last.tsCode}
  }

  /** The entry of a code is that of its last row. */
  lemma {:induction false} IndustryMapLastWins(basic: seq<BasicRow>, i: nat)
    requires i < |basic|
    requires forall j :: i < j < |basic| ==> basic[j].tsCode != basic[i].tsCode
    ensures basic[i].tsCode in IndustryMap(basic) <==> basic[i].industry.Some?
    ensures basic[i].industry.Some? ==> IndustryMap(basic)[basic[i].tsCode] == basic[i].industry.value
  {
    if i < |basic| - 1 {
      var prefix := basic[..|basic| - 1];
      assert forall j :: 0 <= j < |prefix| ==> prefix[j] == basic[j];
      IndustryMapLastWins(prefix, i);
    }
  }

  /** `ind_map.get(code)` as far as it can be a group key or a main sector:
      NaN and a missing code are both `None`. */
  function IndustryOf(indMap: map<string, string>, code: string): Option<string>
  {
    if code in indMap then Some(indMap[code]) else None
  }

  // ---------------------------------------------------------------------
  // Returns over two dates
  // ---------------------------------------------------------------------

  /** A row of the inner merge of two daily tables on `ts_code`. */
  datatype Joined = Joined(tsCode: string, closeFirst: real, closeLast: real)

  function MatchesOf(l: DailyRow, right: seq<DailyRow>): (r: seq<Joined>)
    ensures forall x :: x in r <==>
      (x.tsCode == l.tsCode && x.closeFirst == l.close && DailyRow(l.tsCode, x.closeLast) in right)
  {
    if right == [] then []
    else
      var rest := MatchesOf(l, right[1..]);
      assert forall y :: y in right <==> y == right[0] || y in right[1..];
      (if right[0].tsCode == l.tsCode then [Joined(l.tsCode, l.close, right[0].close)] else []) + rest
  }

  /** `left.merge(right, on="ts_code")`: every pair of rows with the same
      code, and nothing else, in the order of the left table. */
  function InnerJoin(left: seq<DailyRow>, right: seq<DailyRow>): (r: seq<Joined>)
    ensures forall x :: x in r <==>
      (DailyRow(x.tsCode, x.closeFirst) in left && DailyRow(x.tsCode, x.closeLast) in right)
  {
    if left == [] then []
    else
      var here := MatchesOf(left[0], right);
      var rest := InnerJoin(left[1..], right);
      assert forall y :: y in left <==> y == left[0] || y in left[1..];
      here + rest
  }

  /** A code and its return over the two dates. */
  datatype Tagged = Tagged(tsCode: string, amount: real)

  function ReturnOf(x: Joined): Tagged
    requires x.closeFirst != 0.0
  {
    Tagged(x.tsCode, x.closeLast / x.closeFirst - 1.0)
  }

  /** `close_last / close_first - 1` for each merged row whose first close
      is not zero. */
  function Returns(joined: seq<Joined>): (r: seq<Tagged>)
    ensures forall x :: x in joined && x.closeFirst != 0.0 ==> ReturnOf(x) in r
    ensures forall t :: t in r ==> exists x :: x in joined && x.closeFirst != 0.0 && t == ReturnOf(x)
  {
    if joined == [] then []
    else
      var x := joined[0];
      var rest := Returns(joined[1..]);
      assert forall y :: y in joined <==> y == x || y in joined[1..];
      (if x.closeFirst != 0.0 then [ReturnOf(x)] else []) + rest
  }

  /** `dict(zip(codes, values))`: the last entry of a code wins. */
  function ToMap(rows: seq<Tagged>): (m: map<string, real>)
    ensures forall t :: t in rows ==> t.tsCode in m
    ensures forall c :: c in m ==> Tagged(c, m[c]) in rows
  {
    if rows == [] then map[]
    else
      var prefix := rows[..|rows| - 1];
      assert forall y :: y in rows <==> y == rows[|rows| - 1] || y in prefix;
      ToMap(prefix)[rows[|rows| - 1].tsCode := rows[|rows| - 1].amount]
  }

  /** `ret_map`: a code has a 20-day return exactly when it is quoted on
      both dates (with a non-zero first close), and that return is its last
      close over its first close, minus one. */
  function ReturnMap(first: seq<DailyRow>, last: seq<DailyRow>): (m: map<string, real>)
    ensures forall c, f, l :: DailyRow(c, f) in first && DailyRow(c, l) in last && f != 0.0 ==> c in m
    ensures forall c :: c in m ==> exists f, l :: (DailyRow(c, f) in first && DailyRow(c, l) in last && f != 0.0 &&
      m[c] == l / f - 1.0)
  {
    var joined := InnerJoin(first, last);
    var rets := Returns(joined);
    var m := ToMap(rets);
    forall c, f, l | DailyRow(c, f) in first && DailyRow(c, l) in last && f != 0.0
      ensures c in m
    {
      var x := Joined(c, f, l);
      assert x in joined;
      assert ReturnOf(x) in rets;
    }
    forall c | c in m
      ensures exists f, l :: DailyRow(c, f) in first && DailyRow(c, l) in last && f != 0.0 && m[c] == l / f - 1.0
    {
      var x :| x in joined && x.closeFirst != 0.0 && Tagged(c, m[c]) == ReturnOf(x);
      assert DailyRow(c, x.closeFirst) in first && DailyRow(c, x.closeLast) in last;
    }
    m
  }

  /** The market's return over the index series, inside the `try`: an
      empty series raises and gives `None`; a zero base close gives an
      infinite or NaN return. */
  function IndexReturn(index: seq<real>): (r: MarketReturn)
    ensures index == [] <==> r.NoMarket?
    ensures r.NonFiniteMarket? <==> index != [] && index[0] == 0.0
    ensures r.MarketValue? ==> (r.ret + 1.0) * index[0] == index[|index| - 1]
  {
    if index == [] then NoMarket
    else if index[0] == 0.0 then NonFiniteMarket
    else MarketValue(index[|index| - 1] / index[0] - 1.0)
  }

  // ---------------------------------------------------------------------
  // Grouping by industry
  // ---------------------------------------------------------------------

  /** One entry of a dict keyed by industry, in the dict's order. */
  datatype Item = Item(key: string, value: real)

  function KeysOf(items: seq<Item>): (keys: seq<string>)
    ensures |keys| == |items|
    ensures forall i :: 0 <= i < |items| ==> keys[i] == items[i].key
  {
    seq(|items|, i requires 0 <= i < |items| => items[i].key)
  }

  function ItemValue(it: Item): real
  {
    it.value
  }

  /** The industries the rows' codes map to, each once. */
  function SeenIndustries(rows: seq<Tagged>, indMap: map<string, string>): (r: seq<string>)
    ensures Distinct(r)
    ensures forall k :: k in r <==> exists t :: t in rows && IndustryOf(indMap, t.tsCode) == Some(k)
  {
    if rows == [] then []
    else
      var rest := SeenIndustries(rows[1..], indMap);
      assert forall y :: y in rows <==> y == rows[0] || y in rows[1..];
      match IndustryOf(indMap, rows[0].tsCode)
      case None => rest
      case Some(k) =>
        if k in rest then rest
        else
          assert forall y :: multiset([k] + rest)[y] == multiset(rest)[y] + (if y == k then 1 else 0);
          [k] + rest
  }

  /** The keys of a `groupby("industry")` result: the industries present,
      NaN dropped, each once, sorted by name. */
  function GroupKeys(rows: seq<Tagged>, indMap: map<string, string>): (keys: seq<string>)
    ensures Distinct(keys)
    ensures forall k :: k in keys <==> exists t :: t in rows && IndustryOf(indMap, t.tsCode) == Some(k)
  {
    var seen := SeenIndustries(rows, indMap);
    var keys := SortByName(seen);
    assert forall k :: k in keys <==> k in multiset(seen);
    keys
  }

  /** The values of the rows in industry `k`, in row order. */
  function AmountsIn(rows: seq<Tagged>, indMap: map<string, string>, k: string): (r: seq<real>)
    ensures forall x :: x in r ==> exists t :: t in rows && IndustryOf(indMap, t.tsCode) == Some(k) && t.amount == x
    ensures (exists t :: t in rows && IndustryOf(indMap, t.tsCode) == Some(k)) ==> |r| > 0
  {
    if rows == [] then []
    else
      var rest := AmountsIn(rows[1..], indMap, k);
      assert forall y :: y in rows <==> y == rows[0] || y in rows[1..];
      (if IndustryOf(indMap, rows[0].tsCode) == Some(k) then [rows[0].amount] else []) + rest
  }

  /** `groupby("industry")[col].mean()`: per industry the mean of its
      rows' values. */
  function GroupMeans(rows: seq<Tagged>, indMap: map<string, string>): (items: seq<Item>)
    ensures KeysOf(items) == GroupKeys(rows, indMap)
    ensures forall i :: 0 <= i < |items| ==>
      |AmountsIn(rows, indMap, items[i].key)| > 0 && items[i].value == Mean(AmountsIn(rows, indMap, items[i].key))
  {
    var keys := GroupKeys(rows, indMap);
    var items := seq(|keys|, i requires 0 <= i < |keys| =>
      assert keys[i] in keys;
      Item(keys[i], Mean(AmountsIn(rows, indMap, keys[i]))));
    assert KeysOf(items) == keys;
    items
  }

  /** `groupby("industry")[col].sum()`: per industry the total of its rows'
      values. */
  function GroupSums(rows: seq<Tagged>, indMap: map<string, string>): (items: seq<Item>)
    ensures KeysOf(items) == GroupKeys(rows, indMap)
    ensures forall i :: 0 <= i < |items| ==> items[i].value == Sum(AmountsIn(rows, indMap, items[i].key))
  {
    var keys := GroupKeys(rows, indMap);
    var items := seq(|keys|, i requires 0 <= i < |keys| => Item(keys[i], Sum(AmountsIn(rows, indMap, keys[i]))));
    assert KeysOf(items) == keys;
    items
  }

  /** The total of the values of the items with key `k`. */
  function ItemTotal(items: seq<Item>, k: string): real
  {
    if items == [] then 0.0
    else ItemTotal(items[..|items| - 1], k) + (if items[|items| - 1].key == k then items[|items| - 1].value else 0.0)
  }

  lemma {:induction false} ItemTotalAbsent(items: seq<Item>, k: string)
    requires k !in KeysOf(items)
    ensures ItemTotal(items, k) == 0.0
  {
    if items != [] {
      var prefix := items[..|items| - 1];
      assert KeysOf(prefix) == KeysOf(items)[..|items| - 1];
      ItemTotalAbsent(prefix, k);
    }
  }

  lemma {:induction false} DistinctPrefix<T(!new)>(s: seq<T>, n: nat)
    requires Distinct(s) && n <= |s|
    ensures Distinct(s[..n])
  {
    assert s == s[..n] + s[n..];
    assert multiset(s) == multiset(s[..n]) + multiset(s[n..]);
    forall x ensures multiset(s[..n])[x] <= 1 {
      assert multiset(s[..n])[x] <= multiset(s)[x];
    }
  }

  /** With keys told apart, the total under a key is the value of its one
      item. */
  lemma {:induction false} ItemTotalOfKey(items: seq<Item>, i: nat)
    requires Distinct(KeysOf(items)) && i < |items|
    ensures ItemTotal(items, items[i].key) == items[i].value
  {
    var n := |items|;
    var prefix := items[..n - 1];
    var keys := KeysOf(items);
    assert KeysOf(prefix) == keys[..n - 1];
    DistinctPrefix(keys, n - 1);
    if i == n - 1 {
      forall j | 0 <= j < n - 1 ensures keys[j] != keys[n - 1] {
        DistinctIndices(keys, j, n - 1);
      }
      ItemTotalAbsent(prefix, items[i].key);
    } else {
      DistinctIndices(keys, i, n - 1);
      ItemTotalOfKey(prefix, i);
    }
  }

  /** The total an industry's group sum contributes is the sum of its rows. */
  lemma GroupSumsTotal(rows: seq<Tagged>, indMap: map<string, string>, k: string)
    ensures ItemTotal(GroupSums(rows, indMap), k) == Sum(AmountsIn(rows, indMap, k))
  {
    var items := GroupSums(rows, indMap);
    if k in KeysOf(items) {
      var i :| 0 <= i < |items| && KeysOf(items)[i] == k;
      ItemTotalOfKey(items, i);
    } else {
      ItemTotalAbsent(items, k);
      NoAmountsOutside(rows, indMap, k);
    }
  }

  lemma {:induction false} NoAmountsOutside(rows: seq<Tagged>, indMap: map<string, string>, k: string)
    requires forall t :: t in rows ==> IndustryOf(indMap, t.tsCode) != Some(k)
    ensures AmountsIn(rows, indMap, k) == []
  {
    if rows != [] {
      assert rows[0] in rows;
      assert forall t :: t in rows[1..] ==> t in rows;
      NoAmountsOutside(rows[1..], indMap, k);
    }
  }

  // ---------------------------------------------------------------------
  // Sector flows over the last five trade dates
  // ---------------------------------------------------------------------

  /** A money-flow table as (code, `net_mf_amount`) rows. */
  function FlowTags(df: seq<FlowRow>): (r: seq<Tagged>)
    ensures |r| == |df|
    ensures forall i :: 0 <= i < |df| ==> r[i] == Tagged(df[i].tsCode, df[i].netMfAmount)
  {
    seq(|df|, i requires 0 <= i < |df| => Tagged(df[i].tsCode, df[i].netMfAmount))
  }

  /** One date's industry totals (`grp`); an empty table gives none. */
  function DayItems(moneyflow: string -> seq<FlowRow>, indMap: map<string, string>, d: string): (items: seq<Item>)
    ensures Distinct(KeysOf(items))
  {
    var df := moneyflow(d);
    if df == [] then [] else GroupSums(FlowTags(df), indMap)
  }

  /** That date's money-flow total of industry `k` (0 when the industry has
      no row that date). */
  function DayTotal(moneyflow: string -> seq<FlowRow>, indMap: map<string, string>, d: string, k: string): real
  {
    Sum(AmountsIn(FlowTags(moneyflow(d)), indMap, k))
  }

  /** The two dicts the five-day loop fills: `sector_flow5`, whose key
      order is its insertion order, and `sector_flow_today`. */
  datatype FlowTotals = FlowTotals(order: seq<string>, total: map<string, real>, today: map<string, real>)

  /** The key order lists exactly the keys of the totals, each once. */
  ghost predicate OrderMatches(st: FlowTotals)
  {
    Distinct(st.order) && forall k :: k in st.order <==> k in st.total
  }

  /** One step of the inner loop over a date's `grp`: the industry's total
      is added to its running sum (a new industry is appended to the key
      order), and on the last date it is also recorded as today's flow. */
  function AddItem(s: FlowTotals, it: Item, isLast: bool): (r: FlowTotals)
  {
    var order := if it.key in s.total then s.order else s.order + [it.key];
    FlowTotals(order, s.total[it.key := GetOr(s.total, it.key, 0.0) + it.value],
      if isLast then s.today[it.key := it.value] else s.today)
  }

  /** The inner loop over one date's `grp`. */
  function AddItems(st: FlowTotals, items: seq<Item>, isLast: bool): (r: FlowTotals)
  {
    if items == [] then st
    else
      AddItem(AddItems(st, items[..|items| - 1], isLast), items[|items| - 1], isLast)
  }

  /** After the inner loop, the keys of the totals are the old keys and
      the date's industries. */
  lemma {:induction false} AddItemsKeys(st: FlowTotals, items: seq<Item>, isLast: bool, k: string)
    ensures k in AddItems(st, items, isLast).total <==> k in st.total || k in KeysOf(items)
  {
    if items != [] {
      assert KeysOf(items[..|items| - 1]) == KeysOf(items)[..|items| - 1];
      assert KeysOf(items) == KeysOf(items[..|items| - 1]) + [items[|items| - 1].key];
      AddItemsKeys(st, items[..|items| - 1], isLast, k);
    }
  }

  /** A step appends a key to the order exactly when it is new to the totals. */
  lemma AddItemOrder(s: FlowTotals, it: Item, isLast: bool)
    requires OrderMatches(s)
    ensures OrderMatches(AddItem(s, it, isLast))
  {
    var r := AddItem(s, it, isLast);
    if it.key !in s.total {
      assert multiset(r.order) == multiset(s.order) + multiset{it.key};
    }
  }

  lemma {:induction false} AddItemsOrder(st: FlowTotals, items: seq<Item>, isLast: bool)
    requires OrderMatches(st)
    ensures OrderMatches(AddItems(st, items, isLast))
  {
    if items != [] {
      AddItemsOrder(st, items[..|items| - 1], isLast);
      AddItemOrder(AddItems(st, items[..|items| - 1], isLast), items[|items| - 1], isLast);
    }
  }

  /** The outer loop over the dates. */
  function AccumulateFlows(days: seq<string>, last: string, moneyflow: string -> seq<FlowRow>, indMap: map<string, string>): FlowTotals
  {
    if days == [] then FlowTotals([], map[], map[])
    else
      var d := days[|days| - 1];
      AddItems(AccumulateFlows(days[..|days| - 1], last, moneyflow, indMap), DayItems(moneyflow, indMap, d), d == last)
  }

  /** Every key of `sector_flow5` is an industry of one of the dates. */
  lemma {:induction false} FlowKeysFromDays(days: seq<string>, last: string, moneyflow: string -> seq<FlowRow>, indMap: map<string, string>, k: string)
    requires k in AccumulateFlows(days, last, moneyflow, indMap).total
    ensures exists d :: d in days && k in KeysOf(DayItems(moneyflow, indMap, d))
  {
    var prefix := days[..|days| - 1];
    var d := days[|days| - 1];
    AddItemsKeys(AccumulateFlows(prefix, last, moneyflow, indMap), DayItems(moneyflow, indMap, d), d == last, k);
    if k in AccumulateFlows(prefix, last, moneyflow, indMap).total {
      FlowKeysFromDays(prefix, last, moneyflow, indMap, k);
      var e :| e in prefix && k in KeysOf(DayItems(moneyflow, indMap, e));
      assert e in days;
    } else {
      assert d in days;
    }
  }

  /** The key order of `sector_flow5` lists each of its keys exactly once. */
  lemma {:induction false} FlowOrderMatches(days: seq<string>, last: string, moneyflow: string -> seq<FlowRow>, indMap: map<string, string>)
    ensures OrderMatches(AccumulateFlows(days, last, moneyflow, indMap))
  {
    if days != [] {
      var prefix := days[..|days| - 1];
      FlowOrderMatches(prefix, last, moneyflow, indMap);
      AddItemsOrder(AccumulateFlows(prefix, last, moneyflow, indMap), DayItems(moneyflow, indMap, days[|days| - 1]), days[|days| - 1] == last);
    }
  }

  /** The inner loop of `run_selection` over one date's `grp`. */
  method AddDay(st: FlowTotals, grp: seq<Item>, isLast: bool) returns (r: FlowTotals)
    ensures r == AddItems(st, grp, isLast)
  {
    var order := st.order;
    var flow5 := st.total;
    var flowToday := st.today;
    for j := 0 to |grp|
      invariant FlowTotals(order, flow5, flowToday) == AddItems(st, grp[..j], isLast)
    {
      AddItemsStep(st, grp, j, isLast);
      var k := grp[j].key;
      var v := grp[j].value;
      if k !in flow5 {
        order := order + [k];
      }
      flow5 := flow5[k := GetOr(flow5, k, 0.0) + v];
      if isLast {
        flowToday := flowToday[k := v];
      }
    }
    assert grp[..|grp|] == grp;
    r := FlowTotals(order, flow5, flowToday);
  }

  lemma AddItemsStep(st: FlowTotals, items: seq<Item>, j: nat, isLast: bool)
    requires j < |items|
    ensures AddItems(st, items[..j + 1], isLast) == AddItem(AddItems(st, items[..j], isLast), items[j], isLast)
  {
    assert items[..j + 1][..j] == items[..j];
  }

  /** The five-day loop of `run_selection`. */
  method SectorFlows(days: seq<string>, last: string, moneyflow: string -> seq<FlowRow>, indMap: map<string, string>)
    returns (st: FlowTotals)
    ensures st == AccumulateFlows(days, last, moneyflow, indMap)
  {
    st := FlowTotals([], map[], map[]);
    for i := 0 to |days|
      invariant st == AccumulateFlows(days[..i], last, moneyflow, indMap)
    {
      assert days[..i + 1][..i] == days[..i];
      var d := days[i];
      var df := moneyflow(d);
      if df == [] {
        continue;
      }
      var grp := GroupSums(FlowTags(df), indMap);
      st := AddDay(st, grp, d == last);
    }
    assert days[..|days|] == days;
  }

  lemma {:induction false} AddItemsTotal(st: FlowTotals, items: seq<Item>, isLast: bool, k: string)
    ensures GetOr(AddItems(st, items, isLast).total, k, 0.0) == GetOr(st.total, k, 0.0) + ItemTotal(items, k)
  {
    if items != [] {
      AddItemsTotal(st, items[..|items| - 1], isLast, k);
    }
  }

  /** The sum of the totals of industry `k` over the dates. */
  function FlowSum(days: seq<string>, moneyflow: string -> seq<FlowRow>, indMap: map<string, string>, k: string): real
  {
    if days == [] then 0.0
    else FlowSum(days[..|days| - 1], moneyflow, indMap, k) + DayTotal(moneyflow, indMap, days[|days| - 1], k)
  }

  /** `sector_flow5[k]` is the sum over the dates of that date's total of
      industry `k`; a date with an empty table adds nothing. */
  lemma {:induction false} SectorFlowIsSum(days: seq<string>, last: string, moneyflow: string -> seq<FlowRow>, indMap: map<string, string>, k: string)
    ensures GetOr(AccumulateFlows(days, last, moneyflow, indMap).total, k, 0.0) == FlowSum(days, moneyflow, indMap, k)
  {
    if days != [] {
      var d := days[|days| - 1];
      var prefix := days[..|days| - 1];
      SectorFlowIsSum(prefix, last, moneyflow, indMap, k);
      AddItemsTotal(AccumulateFlows(prefix, last, moneyflow, indMap), DayItems(moneyflow, indMap, d), d == last, k);
      if moneyflow(d) == [] {
        assert AmountsIn(FlowTags(moneyflow(d)), indMap, k) == [];
      } else {
        GroupSumsTotal(FlowTags(moneyflow(d)), indMap, k);
      }
    }
  }

  lemma {:induction false} AddItemsKeepsToday(st: FlowTotals, items: seq<Item>)
    ensures AddItems(st, items, false).today == st.today
  {
    if items != [] {
      AddItemsKeepsToday(st, items[..|items| - 1]);
    }
  }

  lemma {:induction false} AddItemsToday(st: FlowTotals, items: seq<Item>, k: string)
    requires Distinct(KeysOf(items))
    ensures GetOr(AddItems(st, items, true).today, k, 0.0) ==
      if k in KeysOf(items) then ItemTotal(items, k) else GetOr(st.today, k, 0.0)
  {
    if items != [] {
      var n := |items|;
      var prefix := items[..n - 1];
      var keys := KeysOf(items);
      assert KeysOf(prefix) == keys[..n - 1];
      DistinctPrefix(keys, n - 1);
      AddItemsToday(st, prefix, k);
      if items[n - 1].key == k {
        forall j | 0 <= j < n - 1 ensures keys[j] != keys[n - 1] {
          DistinctIndices(keys, j, n - 1);
        }
        ItemTotalAbsent(prefix, k);
      }
    }
  }

  /** `sector_flow_today` comes from the last date alone: when the last date
      closes the list and occurs nowhere before, an industry's flow today is
      its total on that date. */
  lemma {:induction false} FlowTodayIsLastDay(days: seq<string>, last: string, moneyflow: string -> seq<FlowRow>, indMap: map<string, string>, k: string)
    requires days != [] && days[|days| - 1] == last
    requires forall j :: 0 <= j < |days| - 1 ==> days[j] != last
    ensures GetOr(AccumulateFlows(days, last, moneyflow, indMap).today, k, 0.0) == DayTotal(moneyflow, indMap, last, k)
  {
    var prefix := days[..|days| - 1];
    var before := AccumulateFlows(prefix, last, moneyflow, indMap);
    TodayUntouched(prefix, last, moneyflow, indMap);
    var items := DayItems(moneyflow, indMap, last);
    AddItemsToday(before, items, k);
    if moneyflow(last) == [] {
      assert AmountsIn(FlowTags(moneyflow(last)), indMap, k) == [];
    } else {
      GroupSumsTotal(FlowTags(moneyflow(last)), indMap, k);
      if k !in KeysOf(items) {
        NoAmountsOutside(FlowTags(moneyflow(last)), indMap, k);
      }
    }
  }

  /** Dates other than the last leave `sector_flow_today` empty. */
  lemma {:induction false} TodayUntouched(days: seq<string>, last: string, moneyflow: string -> seq<FlowRow>, indMap: map<string, string>)
    requires forall j :: 0 <= j < |days| ==> days[j] != last
    ensures AccumulateFlows(days, last, moneyflow, indMap).today == map[]
  {
    if days != [] {
      var prefix := days[..|days| - 1];
      TodayUntouched(prefix, last, moneyflow, indMap);
      AddItemsKeepsToday(AccumulateFlows(prefix, last, moneyflow, indMap), DayItems(moneyflow, indMap, days[|days| - 1]));
    }
  }

  // ---------------------------------------------------------------------
  // Main sectors: the top fifth by five-day return and by five-day flow
  // ---------------------------------------------------------------------

  /** `max(1, int(len(inds) * 0.2))`; the float product truncates to the
      same value as `count / 5`. */
  function TopN(count: nat): (n: nat)
    ensures n >= 1
    ensures count >= 1 ==> n <= count
    ensures count >= 5 ==> 5 * n <= count < 5 * (n + 1)
    ensures count < 10 ==> n == 1
  {
    if count / 5 < 1 then 1 else count / 5
  }

  /** `sorted(d.items(), key=lambda x: x[1], reverse=True)[:n]`. */
  function Top(items: seq<Item>, n: nat): (r: seq<Item>)
    ensures |r| == if n < |items| then n else |items|
    ensures multiset(r) <= multiset(items)
    ensures SortedDesc(r, ItemValue)
  {
    var sorted := SortDescBy(items, ItemValue);
    var m := if n < |sorted| then n else |sorted|;
    assert sorted == sorted[..m] + sorted[m..];
    assert multiset(sorted) == multiset(sorted[..m]) + multiset(sorted[m..]);
    sorted[..m]
  }

  /** The set of the keys of some items. */
  function KeySet(items: seq<Item>): (r: set<string>)
    ensures |r| <= |items|
    ensures forall k :: k in r <==> exists it :: it in items && it.key == k
  {
    if items == [] then {}
    else
      var prefix := items[..|items| - 1];
      assert forall y :: y in items <==> y == items[|items| - 1] || y in prefix;
      KeySet(prefix) + {items[|items| - 1].key}
  }

  /** `{i for i, _ in top}`. */
  function TopKeys(items: seq<Item>, n: nat): (r: set<string>)
    ensures |r| <= n
    ensures forall k :: k in r ==> exists it :: it in items && it.key == k
  {
    var top := Top(items, n);
    forall k | k in KeySet(top) ensures exists it :: it in items && it.key == k {
      var it :| it in top && it.key == k;
      assert it in multiset(top);
    }
    KeySet(top)
  }

  /** An item whose key did not make the top set is never above an item
      that did. */
  lemma TopBeatsRest(items: seq<Item>, n: nat, e: Item, x: Item)
    requires e in Top(items, n) && x in items && x.key !in TopKeys(items, n)
    ensures e.value >= x.value
  {
    var sorted := SortDescBy(items, ItemValue);
    var m := if n < |sorted| then n else |sorted|;
    assert Top(items, n) == sorted[..m];
    assert x !in sorted[..m];
    assert x in multiset(sorted) - multiset(sorted[..m]);
    SortedPrefixDominates(sorted, m, ItemValue, x);
  }

  /** With no more items than `n`, every key makes the top set. */
  lemma {:induction false} TopKeepsAllWhenFew(items: seq<Item>, n: nat, k: string)
    requires |items| <= n && k in KeysOf(items)
    ensures k in TopKeys(items, n)
  {
    var i :| 0 <= i < |items| && KeysOf(items)[i] == k;
    var sorted := SortDescBy(items, ItemValue);
    assert Top(items, n) == sorted[..|sorted|] == sorted;
    assert items[i] in multiset(sorted);
    assert items[i] in sorted;
  }

  /** `sector_flow5.items()`, in the dict's insertion order. */
  function FlowItems(st: FlowTotals): (items: seq<Item>)
    ensures KeysOf(items) == st.order
    ensures forall i :: 0 <= i < |items| ==> items[i].value == GetOr(st.total, st.order[i], 0.0)
  {
    var items := seq(|st.order|, i requires 0 <= i < |st.order| => Item(st.order[i], GetOr(st.total, st.order[i], 0.0)));
    assert KeysOf(items) == st.order;
    items
  }

  /** `main_sectors`: industries in both top sets whose flow today is
      positive (an industry without a flow today counts as 0). The source
      builds a list from a set; only membership is used. */
  function MainSectors(perf: seq<Item>, flows: seq<Item>, today: map<string, real>, n: nat): (r: set<string>)
    ensures |r| <= n
    ensures forall k :: k in r ==> (k in TopKeys(perf, n) && k in TopKeys(flows, n) && k in today && today[k] > 0.0)
    ensures forall k :: k in TopKeys(perf, n) && k in TopKeys(flows, n) && k in today && today[k] > 0.0 ==> k in r
  {
    var r := set k | k in TopKeys(perf, n) && k in TopKeys(flows, n) && GetOr(today, k, 0.0) > 0.0;
    assert r <= TopKeys(perf, n);
    CardSubset(r, TopKeys(perf, n));
    r
  }

  lemma CardSubset(a: set<string>, b: set<string>)
    requires a <= b
    ensures |a| <= |b|
  {
    assert b == a + (b - a);
  }

  /** A main sector is an industry present in both tables and beats every
      industry left out of either top set, on that table's measure. */
  lemma MainSectorBeatsRest(perf: seq<Item>, flows: seq<Item>, today: map<string, real>, n: nat, k: string)
    requires k in MainSectors(perf, flows, today, n)
    ensures exists e :: e in perf && e.key == k && forall x :: x in perf && x.key !in TopKeys(perf, n) ==> e.value >= x.value
    ensures exists e :: e in flows && e.key == k && forall x :: x in flows && x.key !in TopKeys(flows, n) ==> e.value >= x.value
  {
    TopKeyWitness(perf, n, k);
    TopKeyWitness(flows, n, k);
  }

  lemma TopKeyWitness(items: seq<Item>, n: nat, k: string)
    requires k in TopKeys(items, n)
    ensures exists e :: e in items && e.key == k && forall x :: x in items && x.key !in TopKeys(items, n) ==> e.value >= x.value
  {
    var top := Top(items, n);
    var e :| e in top && e.key == k;
    assert e in multiset(top);
    forall x | x in items && x.key !in TopKeys(items, n) ensures e.value >= x.value {
      TopBeatsRest(items, n, e, x);
    }
  }

  // ---------------------------------------------------------------------
  // Candidates and the per-stock filter chain
  // ---------------------------------------------------------------------

  /** Whether a code's industry is a main sector (`ind_map.get(x) in
      main_sectors`; an unknown code gives `None`, which is in no list). */
  predicate InMainSector(indMap: map<string, string>, main: set<string>, code: string)
  {
    code in indMap && indMap[code] in main
  }

  /** `today[today['ts_code'].map(...)]`: the rows of the last date's daily
      table whose stock belongs to a main sector, in table order. */
  function Candidates(today: seq<DailyRow>, indMap: map<string, string>, main: set<string>): (r: seq<DailyRow>)
    ensures |r| <= |today|
    ensures forall x :: x in r <==> x in today && InMainSector(indMap, main, x.tsCode)
  {
    if today == [] then []
    else
      var rest := Candidates(today[1..], indMap, main);
      assert forall y :: y in today <==> y == today[0] || y in today[1..];
      (if InMainSector(indMap, main, today[0].tsCode) then [today[0]] else []) + rest
  }

  /** What the per-stock checks read: the two return sources, the two
      name maps and the per-stock queries. */
  datatype Context = Context(
    retMap: map<string, real>,
    idxRet: MarketReturn,
    nameMap: map<string, string>,
    indMap: map<string, string>,
    history: string -> seq<Bar>,
    stockFlow: string -> seq<real>)

  function NegDate(b: Bar): real
  {
    -(b.date as real)
  }

  /** `hist.sort_values("trade_date")`: the same bars, oldest first. */
  function ByTradeDate(hist: seq<Bar>): (r: seq<Bar>)
    ensures |r| == |hist|
    ensures multiset(r) == multiset(hist)
    ensures forall i, j :: 0 <= i < j < |r| ==> r[i].date <= r[j].date
  {
    var r := SortDescBy(hist, NegDate);
    assert forall i, j :: 0 <= i < j < |r| ==> NegDate(r[i]) >= NegDate(r[j]);
    r
  }

  /** The checks on the history: not empty, and breakout and volume spike
      on it sorted by date. */
  predicate HistoryPasses(hist: seq<Bar>)
  {
    hist != [] && CalcBreakout(ByTradeDate(hist)) && CalcVolumeSpike(ByTradeDate(hist))
  }

  /** `len(df_flow) >= 3` and no `net_mf_amount <= 0`. */
  predicate FlowPasses(flow: seq<real>)
  {
    |flow| >= 3 && forall v :: v in flow ==> v > 0.0
  }

  /** The checks of the loop body: relative strength against the index,
      then the history checks, then three trade dates of money flow, all
      positive. */
  predicate StockQualifies(ctx: Context, code: string)
  {
    CalcRs(GetOr(ctx.retMap, code, 0.0), ctx.idxRet)
    && HistoryPasses(ctx.history(code))
    && FlowPasses(ctx.stockFlow(code))
  }

  /** One selected stock: code, name and industry (`""` when unknown). */
  datatype Pick = Pick(code: string, name: string, industry: string)

  function PickOf(ctx: Context, code: string): Pick
  {
    Pick(code, GetOr(ctx.nameMap, code, ""), GetOr(ctx.indMap, code, ""))
  }

  /** `selected`: the candidates that pass every check, in candidate order. */
  function Picks(cands: seq<DailyRow>, ctx: Context): (r: seq<Pick>)
    ensures |r| <= |cands|
  {
    if cands == [] then []
    else Picks(cands[..|cands| - 1], ctx) + PickIfQualifies(ctx, cands[|cands| - 1])
  }

  /** What one pass of the loop appends: the pick, or nothing. */
  function PickIfQualifies(ctx: Context, x: DailyRow): seq<Pick>
  {
    if StockQualifies(ctx, x.tsCode) then [PickOf(ctx, x.tsCode)] else []
  }

  /** A pick is exactly the pick of a candidate that passes every check. */
  lemma {:induction false} PicksMembers(cands: seq<DailyRow>, ctx: Context, p: Pick)
    ensures p in Picks(cands, ctx) <==> exists x :: x in cands && StockQualifies(ctx, x.tsCode) && p == PickOf(ctx, x.tsCode)
  {
    if cands != [] {
      var prefix := cands[..|cands| - 1];
      var x := cands[|cands| - 1];
      assert forall y :: y in cands <==> y == x || y in prefix;
      PicksMembers(prefix, ctx, p);
    }
  }

  /** Selection distributes over concatenation of candidate lists: the
      picks of `a + b` are those of `a` followed by those of `b`. */
  lemma {:induction false} PicksAppend(a: seq<DailyRow>, b: seq<DailyRow>, ctx: Context)
    ensures Picks(a + b, ctx) == Picks(a, ctx) + Picks(b, ctx)
  {
    if b == [] {
      assert a + b == a;
    } else {
      var b' := b[..|b| - 1];
      assert (a + b)[..|a + b| - 1] == a + b';
      assert (a + b)[|a + b| - 1] == b[|b| - 1];
      PicksAppend(a, b', ctx);
    }
  }

  /** One candidate gives its pick when it passes every check, and nothing
      otherwise. */
  lemma PicksOne(x: DailyRow, ctx: Context)
    ensures Picks([x], ctx) == if StockQualifies(ctx, x.tsCode) then [PickOf(ctx, x.tsCode)] else []
  {
    assert [x][..0] == [];
  }

  /** The history checks, with `continue` as `return false`. */
  method CheckHistory(hist: seq<Bar>) returns (ok: bool)
    ensures ok == HistoryPasses(hist)
  {
    if hist == [] {
      return false;
    }
    var sorted := ByTradeDate(hist);
    if !CalcBreakout(sorted) {
      return false;
    }
    if !CalcVolumeSpike(sorted) {
      return false;
    }
    return true;
  }

  /** The money-flow check, scanning for a value at or below zero. */
  method CheckFlow(flow: seq<real>) returns (ok: bool)
    ensures ok == FlowPasses(flow)
  {
    if |flow| < 3 {
      return false;
    }
    for k := 0 to |flow|
      invariant forall j :: 0 <= j < k ==> flow[j] > 0.0
    {
      if flow[k] <= 0.0 {
        assert flow[k] in flow;
        return false;
      }
    }
    assert forall v :: v in flow ==> exists j :: 0 <= j < |flow| && flow[j] == v;
    return true;
  }

  /** One pass of the loop body, with `continue` as `return false`. */
  method CheckStock(ctx: Context, code: string) returns (ok: bool)
    ensures ok == StockQualifies(ctx, code)
  {
    if !CalcRs(GetOr(ctx.retMap, code, 0.0), ctx.idxRet) {
      return false;
    }
    ok := CheckHistory(ctx.history(code));
    if !ok {
      return false;
    }
    ok := CheckFlow(ctx.stockFlow(code));
  }

  /** The loop over `candidates.iterrows()`. */
  method SelectStocks(cands: seq<DailyRow>, ctx: Context) returns (selected: seq<Pick>)
    ensures selected == Picks(cands, ctx)
  {
    selected := [];
    for i := 0 to |cands|
      invariant selected == Picks(cands[..i], ctx)
    {
      assert cands[..i + 1][..i] == cands[..i];
      var code := cands[i].tsCode;
      var ok := CheckStock(ctx, code);
      if !ok {
        continue;
      }
      selected := selected + [PickOf(ctx, code)];
    }
    assert cands[..|cands|] == cands;
  }

  // ---------------------------------------------------------------------
  // The message
  // ---------------------------------------------------------------------

  /** The first line of the message, naming the last trade date. */
  function Header(last: string): string
  {
    "\U{1F4C8} 今日选股（" + last + "）\n"
  }

  /** One line per pick: code, name and industry in brackets. */
  function Line(p: Pick): string
  {
    p.code + " " + p.name + " [" + p.industry + "]\n"
  }

  function Lines(picks: seq<Pick>): string
  {
    if picks == [] then "" else Lines(picks[..|picks| - 1]) + Line(picks[|picks| - 1])
  }

  /** Builds the message line by line. */
  method BuildMessage(last: string, picks: seq<Pick>) returns (msg: string)
    ensures msg == Header(last) + Lines(picks)
  {
    msg := Header(last);
    for i := 0 to |picks|
      invariant msg == Header(last) + Lines(picks[..i])
    {
      assert picks[..i + 1][..i] == picks[..i];
      msg := msg + Line(picks[i]);
    }
    assert picks[..|picks|] == picks;
  }

  /** The number of occurrences of `c` in `s`. */
  function CountChar(s: string, c: char): nat
  {
    if s == [] then 0 else CountChar(s[..|s| - 1], c) + (if s[|s| - 1] == c then 1 else 0)
  }

  lemma {:induction false} CountCharAppend(a: string, b: string, c: char)
    ensures CountChar(a + b, c) == CountChar(a, c) + CountChar(b, c)
  {
    if b == [] {
      assert a + b == a;
    } else {
      assert (a + b)[..|a + b| - 1] == a + b[..|b| - 1];
      CountCharAppend(a, b[..|b| - 1], c);
    }
  }

  lemma {:induction false} CountCharAbsent(s: string, c: char)
    requires c !in s
    ensures CountChar(s, c) == 0
  {
    if s != [] {
      CountCharAbsent(s[..|s| - 1], c);
    }
  }

  predicate NoNewline(s: string)
  {
    '\n' !in s
  }

  /** When no field holds a line break, the message has one line for the
      header and exactly one per pick. */
  lemma {:induction false} MessageLineCount(last: string, picks: seq<Pick>)
    requires NoNewline(last)
    requires forall p :: p in picks ==> NoNewline(p.code) && NoNewline(p.name) && NoNewline(p.industry)
    ensures CountChar(Header(last) + Lines(picks), '\n') == |picks| + 1
  {
    CountCharAppend(Header(last), Lines(picks), '\n');
    CountCharAppend("\U{1F4C8} 今日选股（" + last, "）\n", '\n');
    CountCharAppend("\U{1F4C8} 今日选股（", last, '\n');
    CountCharAbsent("\U{1F4C8} 今日选股（", '\n');
    CountCharAbsent(last, '\n');
    LinesCount(picks);
  }

  lemma {:induction false} LinesCount(picks: seq<Pick>)
    requires forall p :: p in picks ==> NoNewline(p.code) && NoNewline(p.name) && NoNewline(p.industry)
    ensures CountChar(Lines(picks), '\n') == |picks|
  {
    if picks != [] {
      var p := picks[|picks| - 1];
      var prefix := picks[..|picks| - 1];
      assert p in picks;
      assert forall q :: q in prefix ==> q in picks;
      LinesCount(prefix);
      CountCharAppend(Lines(prefix), Line(p), '\n');
      CountCharAppend(p.code + " " + p.name + " [" + p.industry, "]\n", '\n');
      CountCharAppend(p.code + " " + p.name + " [", p.industry, '\n');
      CountCharAppend(p.code + " " + p.name, " [", '\n');
      CountCharAppend(p.code + " ", p.name, '\n');
      CountCharAppend(p.code, " ", '\n');
      CountCharAbsent(p.code, '\n');
      CountCharAbsent(p.name, '\n');
      CountCharAbsent(p.industry, '\n');
    }
  }

  /** The message is the header followed by the lines of the picks in
      order: line `i` of the body starts at the end of line `i - 1`. */
  lemma {:induction false} LinesAppend(a: seq<Pick>, b: seq<Pick>)
    ensures Lines(a + b) == Lines(a) + Lines(b)
  {
    if b == [] {
      assert a + b == a;
    } else {
      var b' := b[..|b| - 1];
      var p := b[|b| - 1];
      assert (a + b)[..|a + b| - 1] == a + b';
      assert (a + b)[|a + b| - 1] == p;
      assert Lines(a + b) == Lines(a + b') + Line(p);
      assert Lines(b) == Lines(b') + Line(p);
      LinesAppend(a, b');
    }
  }

  // ---------------------------------------------------------------------
  // The whole run
  // ---------------------------------------------------------------------

  /** The last trade date (`trade_dates[-1]`). */
  function LastDate(dates: seq<string>): string
    requires |dates| > 0
  {
    dates[|dates| - 1]
  }

  /** `trade_dates[-5:]`. */
  function FiveDays(dates: seq<string>): (r: seq<string>)
    requires |dates| >= 5
    ensures |r| == 5 && r[4] == LastDate(dates)
  {
    dates[|dates| - 5..]
  }

  /** `sector_perf`: per industry the mean five-day return of its stocks. */
  function SectorPerf(feed: Feed): seq<Item>
    requires |feed.tradeDates| >= 5
  {
    var dates := feed.tradeDates;
    GroupMeans(Returns(InnerJoin(feed.daily(FiveDays(dates)[0]), feed.daily(LastDate(dates)))), IndustryMap(feed.basic))
  }

  /** `sector_flow5` and `sector_flow_today`. */
  function SectorFlowTotals(feed: Feed): FlowTotals
    requires |feed.tradeDates| >= 5
  {
    AccumulateFlows(FiveDays(feed.tradeDates), LastDate(feed.tradeDates), feed.moneyflow, IndustryMap(feed.basic))
  }

  function MainSectorsOf(feed: Feed): set<string>
    requires |feed.tradeDates| >= 5
  {
    var perf := SectorPerf(feed);
    var flows := SectorFlowTotals(feed);
    MainSectors(perf, FlowItems(flows), flows.today, TopN(|perf|))
  }

  function ContextOf(feed: Feed): Context
    requires |feed.tradeDates| >= 5
  {
    var dates := feed.tradeDates;
    Context(ReturnMap(feed.daily(dates[0]), feed.daily(LastDate(dates))), IndexReturn(feed.index),
      NameMap(feed.basic), IndustryMap(feed.basic), feed.history, feed.stockFlow)
  }

  function CandidatesOf(feed: Feed): seq<DailyRow>
    requires |feed.tradeDates| >= 5
  {
    Candidates(feed.daily(LastDate(feed.tradeDates)), IndustryMap(feed.basic), MainSectorsOf(feed))
  }

  /** The text `run_selection` returns. */
  function StrategyMessage(feed: Feed): string
    requires |feed.tradeDates| >= 5
  {
    if SectorPerf(feed) == [] then NoSectorDataMsg
    else if CandidatesOf(feed) == [] then NoMainSectorStocksMsg
    else
      var picks := Picks(CandidatesOf(feed), ContextOf(feed));
      if picks == [] then NoPicksMsg else Header(LastDate(feed.tradeDates)) + Lines(picks)
  }

  /** `run_selection`, step by step. */
  method RunStrategy(feed: Feed) returns (msg: string)
    requires |feed.tradeDates| >= 5
    ensures msg == StrategyMessage(feed)
  {
    var nameMap := NameMap(feed.basic);
    var indMap := IndustryMap(feed.basic);
    var dates := feed.tradeDates;
    var last := dates[|dates| - 1];
    var first20 := dates[0];
    var first5 := dates[|dates| - 5..];
    var retMap := ReturnMap(feed.daily(first20), feed.daily(last));
    var idxRet := IndexReturn(feed.index);
    var perf := GroupMeans(Returns(InnerJoin(feed.daily(first5[0]), feed.daily(last))), indMap);
    var flows := SectorFlows(first5, last, feed.moneyflow, indMap);
    if |perf| == 0 {
      return NoSectorDataMsg;
    }
    var n := TopN(|perf|);
    var main := MainSectors(perf, FlowItems(flows), flows.today, n);
    var cands := Candidates(feed.daily(last), indMap, main);
    if cands == [] {
      return NoMainSectorStocksMsg;
    }
    var selected := SelectStocks(cands, Context(retMap, idxRet, nameMap, indMap, feed.history, feed.stockFlow));
    if selected == [] {
      return NoPicksMsg;
    }
    msg := BuildMessage(last, selected);
  }

  /** "No sector data" is returned exactly when no stock quoted on both the
      first of the last five dates and the last date has a known industry. */
  lemma NoSectorDataIff(feed: Feed)
    requires |feed.tradeDates| >= 5
    ensures StrategyMessage(feed) == NoSectorDataMsg <==> SectorPerf(feed) == []
  {
    if SectorPerf(feed) != [] {
      MessagesDiffer(LastDate(feed.tradeDates), Lines(Picks(CandidatesOf(feed), ContextOf(feed))));
    }
  }

  /** The four outcomes are told apart by their text. */
  lemma MessagesDiffer(last: string, body: string)
    ensures NoSectorDataMsg != NoMainSectorStocksMsg
    ensures NoSectorDataMsg != NoPicksMsg
    ensures NoMainSectorStocksMsg != NoPicksMsg
    ensures Header(last) + body !in {NoSectorDataMsg, NoMainSectorStocksMsg, NoPicksMsg}
  {
    assert NoSectorDataMsg[3] != NoMainSectorStocksMsg[3];
    assert NoSectorDataMsg[3] != NoPicksMsg[3];
    assert NoMainSectorStocksMsg[3] != NoPicksMsg[3];
    var msg := Header(last) + body;
    assert msg[0] == '\U{1F4C8}';
  }

  /** Every stock named in the message is quoted on the last date, belongs
      to a main sector and passed every per-stock check; and every such
      stock is named. */
  lemma PicksAreQualifyingMainSectorStocks(feed: Feed, p: Pick)
    requires |feed.tradeDates| >= 5
    ensures p in Picks(CandidatesOf(feed), ContextOf(feed)) <==>
      (exists x :: x in feed.daily(LastDate(feed.tradeDates)) && p == PickOf(ContextOf(feed), x.tsCode)
        && InMainSector(IndustryMap(feed.basic), MainSectorsOf(feed), x.tsCode)
        && StockQualifies(ContextOf(feed), x.tsCode))
  {
    PicksMembers(CandidatesOf(feed), ContextOf(feed), p);
  }

  /** With no money flow on the last date, no industry has a flow today. */
  lemma {:induction false} NoFlowOnLastDate(days: seq<string>, last: string, moneyflow: string -> seq<FlowRow>, indMap: map<string, string>)
    requires days != [] && days[|days| - 1] == last
    requires forall j :: 0 <= j < |days| - 1 ==> days[j] != last
    requires moneyflow(last) == []
    ensures AccumulateFlows(days, last, moneyflow, indMap).today == map[]
  {
    TodayUntouched(days[..|days| - 1], last, moneyflow, indMap);
  }

  /** Without flows today no industry is a main sector. */
  lemma NoFlowNoMainSector(perf: seq<Item>, flows: seq<Item>, n: nat)
    ensures MainSectors(perf, flows, map[], n) == {}
  {
  }

  /** With no money flow on the last date, no industry has a positive flow
      today, so no sector is a main sector and no stock is a candidate. */
  lemma NoFlowTodayNoCandidates(feed: Feed)
    requires |feed.tradeDates| >= 5
    requires forall j :: |feed.tradeDates| - 5 <= j < |feed.tradeDates| - 1 ==> feed.tradeDates[j] != LastDate(feed.tradeDates)
    requires feed.moneyflow(LastDate(feed.tradeDates)) == []
    requires SectorPerf(feed) != []
    ensures StrategyMessage(feed) == NoMainSectorStocksMsg
  {
    var days := FiveDays(feed.tradeDates);
    var flows := SectorFlowTotals(feed);
    NoFlowOnLastDate(days, LastDate(feed.tradeDates), feed.moneyflow, IndustryMap(feed.basic));
    NoFlowNoMainSector(SectorPerf(feed), FlowItems(flows), TopN(|SectorPerf(feed)|));
    var cands := CandidatesOf(feed);
    assert forall x :: x !in cands;
  }
}
