/** Value types and series utilities shared by both variants of the
    selection engine: daily bars, trailing maxima and means, and the stable
    descending sort that stands in for pandas' `sort_values` and Python's
    `sorted(..., reverse=True)`. */
module Common {

  datatype Option<+T> = None | Some(value: T)

  /** One trading day of one stock. `date` is the trading date encoded as an
      ordinal (YYYYMMDD as a number); only its order matters. The app variant
      calls the volume column `volume`, the selector variant `vol`. */
  datatype Bar = Bar(date: int, high: real, close: real, volume: real)

  function Highs(bars: seq<Bar>): (r: seq<real>)
    ensures |r| == |bars|
    ensures forall i :: 0 <= i < |bars| ==> r[i] == bars[i].high
  {
    seq(|bars|, i requires 0 <= i < |bars| => bars[i].high)
  }

  function Volumes(bars: seq<Bar>): (r: seq<real>)
    ensures |r| == |bars|
    ensures forall i :: 0 <= i < |bars| ==> r[i] == bars[i].volume
  {
    seq(|bars|, i requires 0 <= i < |bars| => bars[i].volume)
  }

  function Closes(bars: seq<Bar>): (r: seq<real>)
    ensures |r| == |bars|
    ensures forall i :: 0 <= i < |bars| ==> r[i] == bars[i].close
  {
    seq(|bars|, i requires 0 <= i < |bars| => bars[i].close)
  }

  /** Sum of a series (pandas `sum`; an empty series sums to 0). */
  function Sum(s: seq<real>): real
  {
    if s == [] then 0.0 else s[0] + Sum(s[1..])
  }

  lemma {:induction false} SumAppend(a: seq<real>, b: seq<real>)
    ensures Sum(a + b) == Sum(a) + Sum(b)
  {
    if a == [] {
      assert a + b == b;
    } else {
      assert (a + b)[1..] == a[1..] + b;
      SumAppend(a[1..], b);
    }
  }

  lemma {:induction false} SumBounds(s: seq<real>, lo: real)
    requires forall i :: 0 <= i < |s| ==> lo < s[i]
    ensures |s| > 0 ==> Sum(s) > lo * (|s| as real)
  {
    if |s| > 1 {
      SumBounds(s[1..], lo);
    }
  }

  /** Arithmetic mean of a non-empty series (pandas `mean`). */
  function Mean(s: seq<real>): real
    requires |s| > 0
  {
    Sum(s) / (|s| as real)
  }

  /** Largest element of a non-empty series (pandas `max`). */
  function MaxOf(s: seq<real>): (m: real)
    requires |s| > 0
    ensures forall i :: 0 <= i < |s| ==> s[i] <= m
    ensures exists i :: 0 <= i < |s| && s[i] == m
  {
    if |s| == 1 then s[0]
    else
      var rest := MaxOf(s[1..]);
      assert forall i :: 1 <= i < |s| ==> s[i] == s[1..][i - 1];
      if s[0] >= rest then s[0] else rest
  }

  /** With `m` the maximum of `s` (an upper bound that `s` attains), `c`
      beats `factor` times `m` exactly when it beats `factor` times every
      element. */
  lemma {:induction false} BeatsBoundIffBeatsAll(s: seq<real>, c: real, factor: real, m: real)
    requires factor >= 0.0
    requires forall i :: 0 <= i < |s| ==> s[i] <= m
    requires exists i :: 0 <= i < |s| && s[i] == m
    ensures c > m * factor <==> forall i :: 0 <= i < |s| ==> c > s[i] * factor
  {
    if c > m * factor {
      forall i | 0 <= i < |s| ensures c > s[i] * factor {
        ScaleMonotone(s[i], m, factor);
      }
    }
  }

  /** The same with `>=` in place of `>`. */
  lemma {:induction false} ReachesBoundIffReachesAll(s: seq<real>, c: real, factor: real, m: real)
    requires factor >= 0.0
    requires forall i :: 0 <= i < |s| ==> s[i] <= m
    requires exists i :: 0 <= i < |s| && s[i] == m
    ensures c >= m * factor <==> forall i :: 0 <= i < |s| ==> c >= s[i] * factor
  {
    if c >= m * factor {
      forall i | 0 <= i < |s| ensures c >= s[i] * factor {
        ScaleMonotone(s[i], m, factor);
      }
    }
  }

  lemma ScaleMonotone(a: real, b: real, factor: real)
    requires a <= b && factor >= 0.0
    ensures a * factor <= b * factor
  {
    assert b * factor - a * factor == (b - a) * factor;
  }

  ghost predicate SortedDesc<T>(s: seq<T>, key: T -> real)
  {
    forall i, j :: 0 <= i < j < |s| ==> key(s[i]) >= key(s[j])
  }

  /** Inserts `x` before the first element whose key is at most `key(x)`, so
      that among equal keys the element inserted first stays first. */
  function InsertDesc<T>(x: T, s: seq<T>, key: T -> real): (r: seq<T>)
    requires SortedDesc(s, key)
    ensures |r| == |s| + 1
    ensures multiset(r) == multiset(s) + multiset{x}
    ensures SortedDesc(r, key)
  {
    if s == [] || key(s[0]) <= key(x) then [x] + s
    else
      var rest := InsertDesc(x, s[1..], key);
      assert s == [s[0]] + s[1..];
      forall j | 0 <= j < |rest| ensures key(s[0]) >= key(rest[j]) {
        HeadDominates(x, s, rest, key, j);
      }
      SortedCons(s[0], rest, key);
      [s[0]] + rest
  }

  /** A head not below any element of a sorted tail keeps it sorted. */
  lemma SortedCons<T>(h: T, rest: seq<T>, key: T -> real)
    requires SortedDesc(rest, key)
    requires forall j :: 0 <= j < |rest| ==> key(h) >= key(rest[j])
    ensures SortedDesc([h] + rest, key)
  {
    var r := [h] + rest;
    forall i, j | 0 <= i < j < |r| ensures key(r[i]) >= key(r[j]) {
      assert r[j] == rest[j - 1];
      if i > 0 {
        assert r[i] == rest[i - 1];
      }
    }
  }

  /** Every element of the insertion into the tail is either `x` or a tail
      element, and so not above a head that is above `x`. */
  lemma HeadDominates<T>(x: T, s: seq<T>, rest: seq<T>, key: T -> real, j: nat)
    requires SortedDesc(s, key) && |s| > 0 && key(s[0]) > key(x)
    requires multiset(rest) == multiset(s[1..]) + multiset{x}
    requires j < |rest|
    ensures key(s[0]) >= key(rest[j])
  {
    assert rest[j] in multiset(rest);
    if rest[j] != x {
      assert rest[j] in multiset(s[1..]);
      assert rest[j] in s[1..];
      var k :| 0 <= k < |s[1..]| && s[1..][k] == rest[j];
      assert s[k + 1] == rest[j];
    }
  }

  /** Stable sort by descending key: the order Python's
      `sorted(items, key=..., reverse=True)` produces, and one of the orders
      pandas' `sort_values(ascending=False)` may produce. */
  function SortDescBy<T>(s: seq<T>, key: T -> real): (r: seq<T>)
    ensures |r| == |s|
    ensures multiset(r) == multiset(s)
    ensures SortedDesc(r, key)
  {
    if s == [] then []
    else
      assert s == [s[0]] + s[1..];
      InsertDesc(s[0], SortDescBy(s[1..], key), key)
  }

  /** In a sorted sequence, an element left out of the first `k` is never
      above any of them. */
  lemma SortedPrefixDominates<T>(s: seq<T>, k: nat, key: T -> real, x: T)
    requires SortedDesc(s, key) && k <= |s|
    requires x in multiset(s) - multiset(s[..k])
    ensures forall e :: e in s[..k] ==> key(e) >= key(x)
  {
    assert s == s[..k] + s[k..];
    assert multiset(s[k..]) == multiset(s) - multiset(s[..k]);
    assert x in multiset(s[k..]);
    var j :| 0 <= j < |s[k..]| && s[k..][j] == x;
    assert s[k + j] == x;
  }

  /** The key tells apart the elements of `s`. */
  ghost predicate KeyInjective<T>(s: seq<T>, key: T -> real)
  {
    forall i, j :: 0 <= i < j < |s| && key(s[i]) == key(s[j]) ==> s[i] == s[j]
  }

  /** Two sorted arrangements of the same elements are the same sequence
      when the key tells elements apart. */
  lemma {:induction false} SortedUnique<T>(s: seq<T>, t: seq<T>, key: T -> real)
    requires SortedDesc(s, key) && SortedDesc(t, key)
    requires multiset(s) == multiset(t)
    requires KeyInjective(s, key)
    ensures s == t
  {
    assert |t| == |multiset(t)| == |s|;
    if s != [] {
      SortedHeadsAgree(s, t, key);
      var s', t' := s[1..], t[1..];
      assert s == [s[0]] + s' && t == [t[0]] + t';
      assert multiset(s') == multiset(s) - multiset{s[0]};
      assert multiset(t') == multiset(t) - multiset{t[0]};
      SortedTail(s, key);
      SortedTail(t, key);
      SortedUnique(s', t', key);
    }
  }

  /** Dropping the head keeps a sequence sorted, and its key injective. */
  lemma SortedTail<T>(s: seq<T>, key: T -> real)
    requires s != [] && SortedDesc(s, key)
    ensures SortedDesc(s[1..], key)
    ensures KeyInjective(s, key) ==> KeyInjective(s[1..], key)
  {
    assert forall i :: 0 <= i < |s[1..]| ==> s[1..][i] == s[i + 1];
  }

  lemma SortedHeadsAgree<T>(s: seq<T>, t: seq<T>, key: T -> real)
    requires s != [] && SortedDesc(s, key) && SortedDesc(t, key)
    requires multiset(s) == multiset(t)
    requires KeyInjective(s, key)
    ensures t != [] && s[0] == t[0]
  {
    assert s[0] in multiset(t);
    var j :| 0 <= j < |t| && t[j] == s[0];
    assert t[0] in multiset(s);
    var k :| 0 <= k < |s| && s[k] == t[0];
    assert key(s[0]) == key(s[k]);
  }

  /** Python's `str` ordering: code point by code point, a proper prefix
      first. */
  predicate NameBefore(a: string, b: string)
  {
    if a == [] then b != []
    else if b == [] then false
    else if a[0] != b[0] then a[0] < b[0]
    else NameBefore(a[1..], b[1..])
  }

  /** No name comes before an earlier one: ascending by name. */
  predicate SortedByName(s: seq<string>)
  {
    forall i, j :: 0 <= i < j < |s| ==> !NameBefore(s[j], s[i])
  }

  lemma {:induction false} NameBeforeTransitive(a: string, b: string, c: string)
    requires NameBefore(a, b) && NameBefore(b, c)
    ensures NameBefore(a, c)
  {
    if a != [] && a[0] == b[0] && b[0] == c[0] {
      NameBeforeTransitive(a[1..], b[1..], c[1..]);
    }
  }

  lemma {:induction false} NameBeforeIrreflexive(a: string)
    ensures !NameBefore(a, a)
  {
    if a != [] {
      NameBeforeIrreflexive(a[1..]);
    }
  }

  /** Inserts `x` before the first name it comes before. */
  function InsertByName(x: string, s: seq<string>): (r: seq<string>)
    requires SortedByName(s)
    ensures multiset(r) == multiset(s) + multiset{x}
    ensures SortedByName(r)
  {
    if s == [] then [x]
    else if NameBefore(x, s[0]) then
      forall j | 0 <= j < |s| ensures !NameBefore(s[j], x) {
        if NameBefore(s[j], x) {
          NameBeforeTransitive(s[j], x, s[0]);
          NameBeforeIrreflexive(s[0]);
        }
      }
      [x] + s
    else
      assert s == [s[0]] + s[1..];
      var rest := InsertByName(x, s[1..]);
      forall j | 0 <= j < |rest| ensures !NameBefore(rest[j], s[0]) {
        HeadNameFirst(x, s, rest, j);
      }
      [s[0]] + rest
  }

  /** Every name of the insertion into the tail is `x` or a tail name, and
      so does not come before a head that `x` does not come before. */
  lemma HeadNameFirst(x: string, s: seq<string>, rest: seq<string>, j: nat)
    requires SortedByName(s) && |s| > 0 && !NameBefore(x, s[0])
    requires multiset(rest) == multiset(s[1..]) + multiset{x}
    requires j < |rest|
    ensures !NameBefore(rest[j], s[0])
  {
    assert rest[j] in multiset(rest);
    if rest[j] != x {
      assert rest[j] in multiset(s[1..]);
      assert rest[j] in s[1..];
      var k :| 0 <= k < |s[1..]| && s[1..][k] == rest[j];
      assert s[k + 1] == rest[j];
    }
  }

  /** The key order of a pandas `groupby` result (keys sorted by name). */
  function SortByName(s: seq<string>): (r: seq<string>)
    ensures multiset(r) == multiset(s)
    ensures SortedByName(r)
  {
    if s == [] then []
    else
      assert s == [s[0]] + s[1..];
      InsertByName(s[0], SortByName(s[1..]))
  }

  /** No element occurs twice. */
  ghost predicate Distinct<T(!new)>(s: seq<T>)
  {
    forall x :: multiset(s)[x] <= 1
  }

  /** Two positions of a sequence without repeats hold different elements. */
  lemma DistinctIndices<T(!new)>(s: seq<T>, i: nat, j: nat)
    requires Distinct(s) && i < j < |s|
    ensures s[i] != s[j]
  {
    assert s == s[..i] + [s[i]] + s[i + 1..j] + [s[j]] + s[j + 1..];
    assert multiset(s)[s[i]] >= multiset{s[i]}[s[i]] + multiset{s[j]}[s[i]];
  }

  lemma {:induction false} DistinctCard<T(!new)>(s: seq<T>)
    requires Distinct(s)
    ensures |set x | x in s| == |s|
  {
    if s != [] {
      var tail := s[1..];
      assert s == [s[0]] + tail;
      assert Distinct(tail) by {
        forall x ensures multiset(tail)[x] <= 1 {
          assert multiset(s)[x] <= 1;
        }
      }
      DistinctCard(tail);
      assert multiset(s)[s[0]] <= 1;
      assert s[0] !in tail;
      assert (set x | x in s) == (set x | x in tail) + {s[0]};
    }
  }

  /** The values of the `Some` entries, in order: what a loop that appends
      the result of each step, skipping the steps that produce nothing,
      has collected. */
  function Somes<T>(outs: seq<Option<T>>): (r: seq<T>)
    ensures |r| <= |outs|
  {
    if outs == [] then []
    else
      var last := outs[|outs| - 1];
      Somes(outs[..|outs| - 1]) + (if last.Some? then [last.value] else [])
  }

  /** `idx` lists the positions the collected values come from: strictly
      increasing, one per value, each holding exactly that value. */
  ghost predicate IndexesSomes<T>(outs: seq<Option<T>>, idx: seq<nat>)
  {
    && |idx| == |Somes(outs)|
    && (forall k :: 0 <= k < |idx| ==> idx[k] < |outs|)
    && (forall k, l :: 0 <= k < l < |idx| ==> idx[k] < idx[l])
    && (forall k :: 0 <= k < |idx| ==> outs[idx[k]] == Some(Somes(outs)[k]))
  }

  function SomeIndices<T>(outs: seq<Option<T>>): (idx: seq<nat>)
    ensures IndexesSomes(outs, idx)
  {
    if outs == [] then []
    else
      var earlier := SomeIndices(outs[..|outs| - 1]);
      IndexesExtend(outs, earlier);
      if outs[|outs| - 1].Some? then earlier + [|outs| - 1] else earlier
  }

  /** One more step keeps the positions of the earlier values and adds its
      own when it produced one. */
  lemma IndexesExtend<T>(outs: seq<Option<T>>, earlier: seq<nat>)
    requires outs != [] && IndexesSomes(outs[..|outs| - 1], earlier)
    ensures IndexesSomes(outs, if outs[|outs| - 1].Some? then earlier + [|outs| - 1] else earlier)
  {
    if outs[|outs| - 1].Some? {
      IndexesAddOne(outs, earlier);
    } else {
      IndexesKeep(outs, earlier);
    }
  }

  lemma IndexesAddOne<T>(outs: seq<Option<T>>, earlier: seq<nat>)
    requires outs != [] && outs[|outs| - 1].Some?
    requires IndexesSomes(outs[..|outs| - 1], earlier)
    ensures IndexesSomes(outs, earlier + [|outs| - 1])
  {
    var n := |outs| - 1;
    var prefix := outs[..n];
    var r := earlier + [n];
    var vals := Somes(outs);
    assert vals == Somes(prefix) + [outs[n].value];
    forall k | 0 <= k < |r|
      ensures r[k] < |outs| && outs[r[k]] == Some(vals[k])
    {
      if k < |earlier| {
        assert r[k] == earlier[k] && outs[earlier[k]] == prefix[earlier[k]];
      }
    }
    forall k, l | 0 <= k < l < |r| ensures r[k] < r[l] {
      if l < |earlier| {
        assert r[k] == earlier[k] && r[l] == earlier[l];
      }
    }
  }

  lemma IndexesKeep<T>(outs: seq<Option<T>>, earlier: seq<nat>)
    requires outs != [] && outs[|outs| - 1].None?
    requires IndexesSomes(outs[..|outs| - 1], earlier)
    ensures IndexesSomes(outs, earlier)
  {
    var prefix := outs[..|outs| - 1];
    assert Somes(outs) == Somes(prefix);
    forall k | 0 <= k < |earlier| ensures outs[earlier[k]] == prefix[earlier[k]] { }
  }

  lemma {:induction false} SomesAppend<T>(a: seq<Option<T>>, b: seq<Option<T>>)
    ensures Somes(a + b) == Somes(a) + Somes(b)
  {
    if b != [] {
      var b' := b[..|b| - 1];
      assert (a + b)[..|a + b| - 1] == a + b';
      assert (a + b)[|a + b| - 1] == b[|b| - 1];
      SomesAppend(a, b');
    } else {
      assert a + b == a;
    }
  }

  /** Extending the prefix by one outcome extends the values by that
      outcome's value, if any. */
  lemma SomesStep<T>(outs: seq<Option<T>>, i: nat)
    requires i < |outs|
    ensures Somes(outs[..i + 1]) == Somes(outs[..i]) + (if outs[i].Some? then [outs[i].value] else [])
  {
    assert outs[..i + 1][..i] == outs[..i];
  }

  lemma {:induction false} SomesOfNones<T>(outs: seq<Option<T>>)
    requires forall i :: 0 <= i < |outs| ==> outs[i].None?
    ensures Somes(outs) == []
  {
    if outs != [] {
      SomesOfNones(outs[..|outs| - 1]);
    }
  }
}
