/**
 * The summaries the dashboard draws from the full frame: group-by counts for the charts,
 * per-group mean durations, the sorted choice lists of the filters, and the headline metrics.
 */
module Aggregates {
  import opened Collation
  import opened Cases
  import opened Query

  /** The column of keys a grouping reads, one per row. */
  function Keys<K(!new)>(rows: seq<CaseRecord>, key: CaseRecord -> K): (ks: seq<K>)
    ensures |ks| == |rows|
    ensures forall i :: 0 <= i < |rows| ==> ks[i] == key(rows[i])
  {
    if rows == [] then [] else [key(rows[0])] + Keys(rows[1..], key)
  }

  /** `value_counts()` of a key column: for every key present, how often it occurs. */
  function Count<K(!new)>(ks: seq<K>): (m: map<K, nat>)
    ensures forall k :: k in m <==> k in ks
    ensures forall k :: k in m ==> m[k] >= 1
  {
    if ks == [] then map[]
    else
      var m := Count(ks[1..]);
      m[ks[0] := if ks[0] in m then m[ks[0]] + 1 else 1]
  }

  /** Each key's count is the number of times it occurs in the column. */
  lemma {:induction false} CountMultiplicity<K(!new)>(ks: seq<K>, k: K)
    ensures k in Count(ks) ==> Count(ks)[k] == multiset(ks)[k]
  {
    if ks != [] {
      CountMultiplicity(ks[1..], k);
      assert ks == [ks[0]] + ks[1..];
    }
  }

  /** `groupby(key).size()`: the counts of the rows' key column. */
  function CountBy<K(!new)>(rows: seq<CaseRecord>, key: CaseRecord -> K): (m: map<K, nat>)
    ensures forall k :: k in m <==> k in Keys(rows, key)
    ensures forall k :: k in m ==> m[k] >= 1
  {
    Count(Keys(rows, key))
  }

  /** The sum of a map's values. */
  ghost function Total<K(!new)>(m: map<K, int>): int
    decreases m.Keys
  {
    if m.Keys == {} then 0
    else
      var k :| k in m.Keys;
      m[k] + Total(m - {k})
  }

  /** `Total` may take the keys in any order. */
  lemma {:induction false} TotalRemove<K(!new)>(m: map<K, int>, k: K)
    requires k in m
    ensures Total(m) == m[k] + Total(m - {k})
    decreases m.Keys
  {
    var j :| j in m && Total(m) == m[j] + Total(m - {j});
    if j != k {
      var mj, mk := m - {j}, m - {k};
      assert mj.Keys == m.Keys - {j} && mk.Keys == m.Keys - {k};
      assert k in mj && j in mk && mj[k] == m[k] && mk[j] == m[j];
      TotalRemove(mj, k);
      TotalRemove(mk, j);
      assert mj - {k} == mk - {j};
    }
  }

  /** Changing one key's value changes the total by the difference. */
  lemma TotalUpdate<K(!new)>(m: map<K, int>, k: K, v: int)
    ensures Total(m[k := v]) == Total(m) + v - (if k in m then m[k] else 0)
  {
    var m' := m[k := v];
    TotalRemove(m', k);
    if k in m {
      TotalRemove(m, k);
      assert m' - {k} == m - {k};
    } else {
      assert m' - {k} == m;
    }
  }

  /** Adding `t` to one key's value, or entering the key with value `t`, adds `t` to the
      total. */
  lemma TotalAdd<K(!new)>(m: map<K, int>, k: K, t: int)
    ensures Total(m[k := (if k in m then m[k] else 0) + t]) == Total(m) + t
  {
    TotalUpdate(m, k, (if k in m then m[k] else 0) + t);
  }

  /** The first key adds one to the total of the counts. */
  lemma CountStepTotal<K(!new)>(ks: seq<K>)
    requires ks != []
    ensures Total(Count(ks)) == Total(Count(ks[1..])) + 1
  {
    var m := Count(ks[1..]);
    TotalUpdate(m, ks[0], if ks[0] in m then m[ks[0]] + 1 else 1);
  }

  /** The counts of a key column add up to its length. */
  lemma {:induction false} CountTotal<K(!new)>(ks: seq<K>)
    ensures Total(Count(ks)) == |ks|
  {
    if ks != [] {
      CountTotal(ks[1..]);
      CountStepTotal(ks);
    } else {
      assert Count(ks) == map[];
    }
  }

  /** A key is in the key column exactly when some row carries it. */
  lemma KeysSeen<K(!new)>(rows: seq<CaseRecord>, key: CaseRecord -> K)
    ensures forall k :: k in Keys(rows, key) <==> exists r :: r in rows && key(r) == k
  {
  }

  /** Every key a grouping emits was seen in the rows and counts at least one; every key
      seen is emitted; the counts add up to the number of rows. */
  lemma CountByFacts<K(!new)>(rows: seq<CaseRecord>, key: CaseRecord -> K)
    ensures forall k :: k in CountBy(rows, key) <==> exists r :: r in rows && key(r) == k
    ensures forall k :: k in CountBy(rows, key) ==> CountBy(rows, key)[k] >= 1
    ensures Total(CountBy(rows, key)) == |rows|
  {
    CountTotal(Keys(rows, key));
    KeysSeen(rows, key);
  }

  /** The grouping keys the charts and metrics use. */
  function DayKey(r: CaseRecord): string { r.finishDate }
  function SiteKey(r: CaseRecord): string { r.site }
  function CategoryKey(r: CaseRecord): string { r.category }
  function SiteCategoryKey(r: CaseRecord): (string, string) { (r.site, r.category) }
  function QueueKey(r: CaseRecord): string { r.queue }
  function LoginKey(r: CaseRecord): string { r.login }

  /** Daily cases trend: cases per `finishDate`. */
  function DailyCounts(rows: seq<CaseRecord>): (m: map<string, nat>)
    ensures forall d :: d in m <==> exists r :: r in rows && r.finishDate == d
    ensures forall d :: d in m ==> m[d] >= 1
    ensures Total(m) == |rows|
  {
    CountByFacts(rows, DayKey);
    CountBy(rows, DayKey)
  }

  /** Cases by site: `value_counts()` of `site`. */
  function SiteCounts(rows: seq<CaseRecord>): (m: map<string, nat>)
    ensures forall s :: s in m <==> exists r :: r in rows && r.site == s
    ensures forall s :: s in m ==> m[s] >= 1
    ensures Total(m) == |rows|
  {
    CountByFacts(rows, SiteKey);
    CountBy(rows, SiteKey)
  }

  /** Cases by category: `value_counts()` of `category`. */
  function CategoryCounts(rows: seq<CaseRecord>): (m: map<string, nat>)
    ensures forall c :: c in m <==> exists r :: r in rows && r.category == c
    ensures forall c :: c in m ==> m[c] >= 1
    ensures Total(m) == |rows|
  {
    CountByFacts(rows, CategoryKey);
    CountBy(rows, CategoryKey)
  }

  /** Case categories by site: cases per observed (site, category) pair. */
  function CategoryBySiteCounts(rows: seq<CaseRecord>): (m: map<(string, string), nat>)
    ensures forall p :: p in m <==> exists r :: r in rows && (r.site, r.category) == p
    ensures forall p :: p in m ==> m[p] >= 1
    ensures Total(m) == |rows|
  {
    CountByFacts(rows, SiteCategoryKey);
    CountBy(rows, SiteCategoryKey)
  }

  /** Queue distribution: `value_counts()` of `queue`. */
  function QueueCounts(rows: seq<CaseRecord>): (m: map<string, nat>)
    ensures forall q :: q in m <==> exists r :: r in rows && r.queue == q
    ensures forall q :: q in m ==> m[q] >= 1
    ensures Total(m) == |rows|
  {
    CountByFacts(rows, QueueKey);
    CountBy(rows, QueueKey)
  }

  /** Each category's count is the sum of its per-site counts in the cross-tabulation. */
  lemma CrossTabRefinesCategory(rows: seq<CaseRecord>, c: string)
    ensures (c in CategoryCounts(rows)) == (exists s :: (s, c) in CategoryBySiteCounts(rows))
    ensures Total(CategoryBySiteCounts(rows)) == Total(CategoryCounts(rows))
  {
  }

  /** The total duration of some rows. */
  function TimeSum(rows: seq<CaseRecord>): int
  {
    if rows == [] then 0 else rows[0].totalTime + TimeSum(rows[1..])
  }

  /** The total duration of the rows whose key is `k`. */
  ghost function TimeOf<K(!new)>(rows: seq<CaseRecord>, key: CaseRecord -> K, k: K): int
  {
    if rows == [] then 0
    else (if key(rows[0]) == k then rows[0].totalTime else 0) + TimeOf(rows[1..], key, k)
  }

  /** The `totalTime` column, one duration per row. */
  function Times(rows: seq<CaseRecord>): (ts: seq<int>)
    ensures |ts| == |rows|
    ensures forall i :: 0 <= i < |rows| ==> ts[i] == rows[i].totalTime
  {
    if rows == [] then [] else [rows[0].totalTime] + Times(rows[1..])
  }

  /** The sum of a column of values. */
  function Sum(ts: seq<int>): int
  {
    if ts == [] then 0 else ts[0] + Sum(ts[1..])
  }

  /** The sum of the values standing beside key `k`. */
  ghost function SumWhere<K(!new)>(ks: seq<K>, ts: seq<int>, k: K): int
    requires |ks| == |ts|
  {
    if ks == [] then 0
    else (if ks[0] == k then ts[0] else 0) + SumWhere(ks[1..], ts[1..], k)
  }

  /** A key absent from the key column has nothing beside it. */
  lemma {:induction false} SumWhereAbsent<K(!new)>(ks: seq<K>, ts: seq<int>, k: K)
    requires |ks| == |ts| && k !in ks
    ensures SumWhere(ks, ts, k) == 0
  {
    if ks != [] {
      SumWhereAbsent(ks[1..], ts[1..], k);
    }
  }

  /** `groupby(key)[column].sum()` over a key column and a value column of the same length:
      one entry per key present. */
  function Sums<K(!new)>(ks: seq<K>, ts: seq<int>): (m: map<K, int>)
    requires |ks| == |ts|
    ensures forall k :: k in m <==> k in ks
  {
    if ks == [] then map[]
    else
      var m, k := Sums(ks[1..], ts[1..]), ks[0];
      m[k := (if k in m then m[k] else 0) + ts[0]]
  }

  /** Each key's entry holds the sum of the values standing beside that key. */
  lemma {:induction false} SumsValue<K(!new)>(ks: seq<K>, ts: seq<int>, k: K)
    requires |ks| == |ts| && k in Sums(ks, ts)
    ensures Sums(ks, ts)[k] == SumWhere(ks, ts, k)
  {
    var m := Sums(ks[1..], ts[1..]);
    if k in m {
      SumsValue(ks[1..], ts[1..], k);
    } else if k == ks[0] {
      SumWhereAbsent(ks[1..], ts[1..], k);
    }
  }

  /** The first value adds itself to the total of the sums. */
  lemma SumsStepTotal<K(!new)>(ks: seq<K>, ts: seq<int>)
    requires |ks| == |ts| && ks != []
    ensures Total(Sums(ks, ts)) == Total(Sums(ks[1..], ts[1..])) + ts[0]
  {
    var m, k := Sums(ks[1..], ts[1..]), ks[0];
    var v := (if k in m then m[k] else 0) + ts[0];
    var c := Sums(ks, ts);
    assert c == m[k := v];
    TotalUpdate(m, k, v);
  }

  /** The per-key sums add up to the sum of the whole value column. */
  lemma {:induction false} SumsTotal<K(!new)>(ks: seq<K>, ts: seq<int>)
    requires |ks| == |ts|
    ensures Total(Sums(ks, ts)) == Sum(ts)
  {
    if ks != [] {
      SumsTotal(ks[1..], ts[1..]);
      SumsStepTotal(ks, ts);
    } else {
      assert Sums(ks, ts) == map[];
    }
  }

  /** Reading the key and duration columns off the rows loses nothing. */
  lemma {:induction false} ColumnsOfRows<K(!new)>(rows: seq<CaseRecord>, key: CaseRecord -> K, k: K)
    ensures TimeOf(rows, key, k) == SumWhere(Keys(rows, key), Times(rows), k)
    ensures TimeSum(rows) == Sum(Times(rows))
  {
    if rows != [] {
      ColumnsOfRows(rows[1..], key, k);
      assert Keys(rows, key)[1..] == Keys(rows[1..], key);
      assert Times(rows)[1..] == Times(rows[1..]);
    }
  }

  /** Per-key sum of `totalTime`: the numerator of `groupby(key)['totalTime'].mean()`. Each
      group holds the duration of exactly the rows carrying its key. */
  function SumBy<K(!new)>(rows: seq<CaseRecord>, key: CaseRecord -> K): (m: map<K, int>)
    ensures forall k :: k in m <==> k in Keys(rows, key)
    ensures forall k {:trigger TimeOf(rows, key, k)} :: k in m ==> m[k] == TimeOf(rows, key, k)
  {
    var m := Sums(Keys(rows, key), Times(rows));
    assert forall k {:trigger TimeOf(rows, key, k)} :: k in m ==> m[k] == TimeOf(rows, key, k) by {
      forall k | k in m ensures m[k] == TimeOf(rows, key, k) {
        SumsValue(Keys(rows, key), Times(rows), k);
        ColumnsOfRows(rows, key, k);
      }
    }
    m
  }

  /** The per-key sums add up to the total duration of all rows. */
  lemma SumByTotal<K(!new)>(rows: seq<CaseRecord>, key: CaseRecord -> K)
    ensures Total(SumBy(rows, key)) == TimeSum(rows)
  {
    SumsTotal(Keys(rows, key), Times(rows));
    if rows != [] {
      ColumnsOfRows(rows, key, key(rows[0]));
    }
  }

  /** `mean` is the average of `count` values adding up to `sum`. */
  predicate IsMean(mean: real, sum: int, count: nat)
  {
    mean * (count as real) == sum as real
  }

  lemma DivideThenMultiply(x: real, c: real)
    requires c != 0.0
    ensures (x / c) * c == x
  {
  }

  /** `groupby(key)['totalTime'].mean()` in exact arithmetic: one mean per observed key,
      which times the group's size gives the group's total duration. */
  function MeanBy<K(!new)>(rows: seq<CaseRecord>, key: CaseRecord -> K): (m: map<K, real>)
    ensures forall k :: k in m <==> k in Keys(rows, key)
    ensures forall k :: k in m ==>
              k in CountBy(rows, key) && IsMean(m[k], TimeOf(rows, key, k), CountBy(rows, key)[k])
  {
    var counts, sums := CountBy(rows, key), SumBy(rows, key);
    assert forall k :: k in counts ==> k in sums;
    var m := MeanOf(counts, sums);
    assert forall k :: k in m <==> k in Keys(rows, key);
    assert forall k :: k in m ==> sums[k] == TimeOf(rows, key, k);
    m
  }

  /** Divides each group's sum by its count. */
  function MeanOf<K(!new)>(counts: map<K, nat>, sums: map<K, int>): (m: map<K, real>)
    requires forall k :: k in counts ==> counts[k] >= 1 && k in sums
    ensures m.Keys == counts.Keys
    ensures forall k :: k in m ==> IsMean(m[k], sums[k], counts[k])
  {
    var m := map k | k in counts :: (sums[k] as real) / (counts[k] as real);
    assert forall k :: k in m ==> IsMean(m[k], sums[k], counts[k]) by {
      forall k | k in m ensures IsMean(m[k], sums[k], counts[k]) {
        DivideThenMultiply(sums[k] as real, counts[k] as real);
      }
    }
    m
  }

  /** Average time per category. */
  function MeanTimeByCategory(rows: seq<CaseRecord>): (m: map<string, real>)
    ensures forall c :: c in m <==> exists r :: r in rows && r.category == c
    ensures forall c :: c in m ==>
              c in CountBy(rows, CategoryKey) && IsMean(m[c], TimeOf(rows, CategoryKey, c), CountBy(rows, CategoryKey)[c])
  {
    KeysSeen(rows, CategoryKey);
    MeanBy(rows, CategoryKey)
  }

  /** Average case time trend: average time per `finishDate`. */
  function MeanTimeByDay(rows: seq<CaseRecord>): (m: map<string, real>)
    ensures forall d :: d in m <==> exists r :: r in rows && r.finishDate == d
    ensures forall d :: d in m ==>
              d in CountBy(rows, DayKey) && IsMean(m[d], TimeOf(rows, DayKey, d), CountBy(rows, DayKey)[d])
  {
    KeysSeen(rows, DayKey);
    MeanBy(rows, DayKey)
  }

  /** Three cases: categories A, A and B, taking 10, 20 and 5 seconds. */
  function ExampleRows(): (rows: seq<CaseRecord>)
    ensures |rows| == 3
  {
    [CaseRecord(Str("1"), "C-1", "2024-01-01", 10, "amy", "max", "A", "", "q1", "NYC"),
     CaseRecord(Str("2"), "C-2", "2024-01-01", 20, "amy", "max", "A", "", "q1", "NYC"),
     CaseRecord(Str("3"), "C-3", "2024-01-02", 5, "bob", "max", "B", "", "q2", "LA")]
  }

  lemma ExampleKeys()
    ensures Keys(ExampleRows(), CategoryKey) == ["A", "A", "B"]
  {
    var ks := Keys(ExampleRows(), CategoryKey);
    assert ks[0] == "A" && ks[1] == "A" && ks[2] == "B";
  }

  lemma ExampleCounts()
    ensures CountBy(ExampleRows(), CategoryKey) == map["B" := 1, "A" := 2]
  {
    ExampleKeys();
    var ks: seq<string> := ["A", "A", "B"];
    assert ks[1..][1..][1..] == [];
    assert Count(ks[1..][1..]) == map["B" := 1];
    assert Count(ks[1..]) == map["B" := 1, "A" := 1];
  }

  lemma ExampleTimes()
    ensures TimeOf(ExampleRows(), CategoryKey, "A") == 30
    ensures TimeOf(ExampleRows(), CategoryKey, "B") == 5
  {
    var r1 := ExampleRows()[1..];
    var r2 := r1[1..];
    assert r2[1..] == [];
    assert TimeOf(r2, CategoryKey, "A") == 0 && TimeOf(r2, CategoryKey, "B") == 5;
    assert TimeOf(r1, CategoryKey, "A") == 20;
  }

  lemma ExampleSums()
    ensures SumBy(ExampleRows(), CategoryKey) == map["B" := 5, "A" := 30]
  {
    ExampleKeys();
    ExampleTimes();
    var m := SumBy(ExampleRows(), CategoryKey);
    assert m.Keys == {"A", "B"};
  }

  lemma ExampleQuotients()
    ensures MeanOf(map["B" := 1, "A" := 2], map["B" := 5, "A" := 30]) == map["A" := 15.0, "B" := 5.0]
  {
    var m := MeanOf(map["B" := 1, "A" := 2], map["B" := 5, "A" := 30]);
    assert m.Keys == {"A", "B"};
    assert m["A"] == 30.0 / 2.0;
    assert m["B"] == 5.0 / 1.0;
  }

  /** The three example cases average 15 seconds in category A and 5 in category B. */
  lemma MeanTimeExample()
    ensures MeanTimeByCategory(ExampleRows()) == map["A" := 15.0, "B" := 5.0]
  {
    ExampleCounts();
    ExampleSums();
    ExampleQuotients();
    assert MeanTimeByCategory(ExampleRows()) ==
           MeanOf(CountBy(ExampleRows(), CategoryKey), SumBy(ExampleRows(), CategoryKey));
  }

  /** The values of one selector's field across a collection, in collection order. */
  function Column(cases: seq<CaseRecord>, s: Selector): (vs: seq<string>)
    ensures |vs| == |cases|
    ensures forall i :: 0 <= i < |cases| ==> vs[i] == SelectorValue(cases[i], s)
  {
    seq(|cases|, i requires 0 <= i < |cases| => SelectorValue(cases[i], s))
  }

  /** `get_unique_values`: `sorted(collection.distinct(field))`, every value that occurs
      exactly once, in increasing order. */
  function UniqueValues(cases: seq<CaseRecord>, s: Selector): (vs: seq<string>)
    ensures StrictlySorted(vs)
    ensures forall v :: v in vs <==> exists c :: c in cases && SelectorValue(c, s) == v
  {
    var column := Column(cases, s);
    var distinct := Dedupe(column);
    var sorted := SortDistinct(distinct);
    forall v ensures v in sorted <==> exists c :: c in cases && SelectorValue(c, s) == v {
      assert v in sorted <==> v in multiset(distinct);
      if exists c :: c in cases && SelectorValue(c, s) == v {
        var c :| c in cases && SelectorValue(c, s) == v;
        var i :| 0 <= i < |cases| && cases[i] == c;
        assert column[i] == v;
      }
      if v in column {
        var i :| 0 <= i < |column| && column[i] == v;
        assert cases[i] in cases;
      }
    }
    sorted
  }

  /** A selectbox's choices: "All" followed by the sorted distinct values. */
  function SelectorOptions(cases: seq<CaseRecord>, s: Selector): (opts: seq<string>)
    ensures |opts| >= 1 && opts[0] == AllChoice
    ensures StrictlySorted(opts[1..])
    ensures forall v :: v in opts[1..] <==> exists c :: c in cases && SelectorValue(c, s) == v
  {
    [AllChoice] + UniqueValues(cases, s)
  }

  /** The distinct keys of some rows. */
  function KeySet<K(!new)>(rows: seq<CaseRecord>, key: CaseRecord -> K): set<K>
  {
    if rows == [] then {} else {key(rows[0])} + KeySet(rows[1..], key)
  }

  /** A grouping has one group per distinct key, at most one per row and at least one when
      there are rows. */
  lemma {:induction false} KeySetBound<K(!new)>(rows: seq<CaseRecord>, key: CaseRecord -> K)
    ensures CountBy(rows, key).Keys == KeySet(rows, key)
    ensures |KeySet(rows, key)| <= |rows|
    ensures rows != [] ==> |KeySet(rows, key)| >= 1
  {
    if rows != [] {
      KeySetBound(rows[1..], key);
      assert Keys(rows, key) == [key(rows[0])] + Keys(rows[1..], key);
    }
  }

  /** `nunique()` of `login`, guarded to 0 for no cases: the number of distinct agents,
      which is the number of groups a grouping by login has, at most one per case and
      zero only when there are no cases. */
  function UniqueAgents(full: seq<CaseRecord>): (n: nat)
    ensures n == |CountBy(full, LoginKey)|
    ensures n <= |full|
    ensures n == 0 <==> full == []
  {
    KeySetBound(full, LoginKey);
    if |full| > 0 then |KeySet(full, LoginKey)| else 0
  }

  /** The mean of `totalTime`, guarded to 0 for no cases. */
  function AverageTime(full: seq<CaseRecord>): (a: real)
    ensures full == [] ==> a == 0.0
    ensures full != [] ==> IsMean(a, TimeSum(full), |full|)
  {
    if |full| > 0 then
      DivideThenMultiply(TimeSum(full) as real, |full| as real);
      (TimeSum(full) as real) / (|full| as real)
    else 0.0
  }

  /** The three metric cards. */
  datatype Metrics = Metrics(totalCases: nat, avgTime: real, uniqueAgents: nat)

  /** The three metric cards: the case count, the mean time (0 for no cases) and the number
      of distinct agents, which never exceeds the case count and is 0 only for no cases. */
  function ComputeMetrics(full: seq<CaseRecord>): (m: Metrics)
    ensures m.totalCases == |full|
    ensures full == [] ==> m.avgTime == 0.0
    ensures full != [] ==> IsMean(m.avgTime, TimeSum(full), |full|)
    ensures m.uniqueAgents == |CountBy(full, LoginKey)|
    ensures m.uniqueAgents <= m.totalCases
    ensures m.uniqueAgents == 0 <==> full == []
  {
    Metrics(|full|, AverageTime(full), UniqueAgents(full))
  }
}
