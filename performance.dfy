/** The performance monitor, which keeps the durations recorded under each name and summarises
    them, and `memoize`, which caches a function's results by a key made from its arguments.
    Durations are exact reals; `performance.now()` readings are parameters. */
module Performance {
  import opened Wrappers
  import opened JsValues
  import opened Floats

  // Sorting durations: `[...values].sort((a, b) => a - b)`.

  predicate Ascending(s: seq<real>) {
    forall i, j :: 0 <= i < j < |s| ==> s[i] <= s[j]
  }

  /** `x` placed before the first larger value. */
  function InsertAscending(x: real, sorted: seq<real>): (r: seq<real>)
    ensures multiset(r) == multiset(sorted) + multiset{x}
    ensures |r| == |sorted| + 1
  {
    if sorted == [] || x <= sorted[0] then [x] + sorted
    else
      assert sorted == [sorted[0]] + sorted[1..];
      [sorted[0]] + InsertAscending(x, sorted[1..])
  }

  lemma {:induction false} InsertKeepsAscending(x: real, sorted: seq<real>)
    requires Ascending(sorted)
    ensures Ascending(InsertAscending(x, sorted))
  {
    if !(sorted == [] || x <= sorted[0]) {
      var rest := InsertAscending(x, sorted[1..]);
      InsertKeepsAscending(x, sorted[1..]);
      forall y | y in rest ensures sorted[0] <= y {
        assert y in multiset(rest);
        if y != x {
          assert y in multiset(sorted[1..]);
          var m :| 0 <= m < |sorted[1..]| && sorted[1..][m] == y;
          assert sorted[m + 1] == y;
        }
      }
      ConsAscending(sorted[0], rest);
      assert InsertAscending(x, sorted) == [sorted[0]] + rest;
    }
  }

  lemma ConsAscending(h: real, rest: seq<real>)
    requires Ascending(rest) && forall y :: y in rest ==> h <= y
    ensures Ascending([h] + rest)
  {
    var r := [h] + rest;
    forall i, j | 0 <= i < j < |r| ensures r[i] <= r[j] {
      assert r[j] == rest[j - 1] && rest[j - 1] in rest;
      if i > 0 {
        assert r[i] == rest[i - 1];
      }
    }
  }

  /** The sorted copy of `values`. */
  function SortAscending(values: seq<real>): (r: seq<real>)
    ensures multiset(r) == multiset(values) && |r| == |values|
  {
    if values == [] then [] else
      assert values == [values[0]] + values[1..];
      InsertAscending(values[0], SortAscending(values[1..]))
  }

  /** The sorted copy is ascending and holds the same values. */
  lemma {:induction false} SortIsAscending(values: seq<real>)
    ensures Ascending(SortAscending(values))
    ensures forall v :: v in SortAscending(values) <==> v in values
  {
    if values != [] {
      SortIsAscending(values[1..]);
      InsertKeepsAscending(values[0], SortAscending(values[1..]));
    }
    var r := SortAscending(values);
    forall v ensures v in r <==> v in values {
      assert v in r <==> v in multiset(r);
      assert v in values <==> v in multiset(values);
    }
  }

  /** `sum / values.length`. */
  function Average(values: seq<real>): real
    requires values != []
  {
    Sum(values) / (|values| as real)
  }

  /** `Math.floor(n * 0.5)`, `Math.floor(n * 0.95)` and `Math.floor(n * 0.99)`, for `n` the
      length of the list. */
  function P50Index(n: nat): (i: nat)
    requires 1 <= n
    ensures i < n
  {
    n * 50 / 100
  }

  function P95Index(n: nat): (i: nat)
    requires 1 <= n
    ensures i < n
  {
    n * 95 / 100
  }

  function P99Index(n: nat): (i: nat)
    requires 1 <= n
    ensures i < n
  {
    n * 99 / 100
  }

  datatype Stats = Stats(count: nat, min: real, max: real, avg: real, p50: real, p95: real, p99: real)

  /** The summary `getStats` builds from a list of durations: `null` for an empty list. */
  function StatsOf(values: seq<real>): (r: Option<Stats>)
    ensures r.None? <==> values == []
    ensures r.Some? ==> r.value.count == |values|
  {
    if values == [] then None
    else
      var sorted := SortAscending(values);
      var n := |sorted|;
      Some(Stats(|values|, sorted[0], sorted[n - 1], Average(values),
                 sorted[P50Index(n)], sorted[P95Index(n)], sorted[P99Index(n)]))
  }

  lemma QuantilesOrdered(n: nat)
    requires 1 <= n
    ensures P50Index(n) <= P95Index(n) <= P99Index(n)
  {
  }

  /** The summary's values are ordered, `min` and `max` are recorded values and bound all the
      others, and every quantile is a recorded value. */
  lemma StatsOrdered(values: seq<real>)
    requires values != []
    ensures var s := StatsOf(values).value;
      s.min <= s.p50 <= s.p95 <= s.p99 <= s.max &&
      s.min in values && s.max in values && s.p50 in values && s.p95 in values && s.p99 in values &&
      forall v :: v in values ==> s.min <= v <= s.max
  {
    var sorted := SortAscending(values);
    SortIsAscending(values);
    QuantilesOrdered(|values|);
    forall v | v in values ensures sorted[0] <= v <= sorted[|sorted| - 1] {
      assert v in sorted;
    }
  }

  /** The average lies between `min` and `max`. */
  lemma StatsAverage(values: seq<real>)
    requires values != []
    ensures var s := StatsOf(values).value; s.min <= s.avg <= s.max
  {
    var s := StatsOf(values).value;
    StatsOrdered(values);
    assert s.avg == Average(values);
    AverageBounds(values, s.min, s.max);
  }

  /** `avg` times `count` is the sum of the values, in recording order. */
  lemma AverageTimesCount(values: seq<real>)
    requires values != []
    ensures Average(values) * (|values| as real) == Sum(values)
  {
    DivideThenMultiply(Sum(values), |values| as real, Average(values));
  }

  lemma DivideThenMultiply(a: real, n: real, q: real)
    requires n > 0.0 && q == a / n
    ensures q * n == a
  {
  }

  /** Values within `lo`..`hi` have an average within `lo`..`hi`. */
  lemma AverageBounds(values: seq<real>, lo: real, hi: real)
    requires values != []
    requires forall v :: v in values ==> lo <= v <= hi
    ensures lo <= Average(values) <= hi
  {
    var n := |values| as real;
    SumBounds(values, lo, hi);
    QuotientBounds(Sum(values), n, Average(values), lo, hi);
  }

  lemma QuotientBounds(a: real, n: real, q: real, lo: real, hi: real)
    requires n > 0.0 && q == a / n && lo * n <= a <= hi * n
    ensures lo <= q <= hi
  {
    DivideThenMultiply(a, n, q);
  }

  /** Summing does not depend on order: the sorted copy has the same sum. */
  lemma {:induction false} SumOfInsert(x: real, sorted: seq<real>)
    ensures Sum(InsertAscending(x, sorted)) == x + Sum(sorted)
  {
    if sorted == [] || x <= sorted[0] {
      SumFront(x, sorted);
    } else {
      var rest := InsertAscending(x, sorted[1..]);
      SumOfInsert(x, sorted[1..]);
      SumFront(sorted[0], rest);
      SumFront(sorted[0], sorted[1..]);
      assert [sorted[0]] + sorted[1..] == sorted;
    }
  }

  lemma {:induction false} SumFront(x: real, s: seq<real>)
    ensures Sum([x] + s) == x + Sum(s)
  {
    if s != [] {
      var t := [x] + s;
      assert t[..|t| - 1] == [x] + s[..|s| - 1];
      SumFront(x, s[..|s| - 1]);
    }
  }

  /** The average is the same whether taken over the recorded list or its sorted copy. */
  lemma {:induction false} SortKeepsSum(values: seq<real>)
    ensures Sum(SortAscending(values)) == Sum(values)
  {
    if values != [] {
      SortKeepsSum(values[1..]);
      SumOfInsert(values[0], SortAscending(values[1..]));
      SumFront(values[0], values[1..]);
      assert [values[0]] + values[1..] == values;
    }
  }

  /** The metrics after `record(name, duration)`. */
  function Recorded(metrics: map<string, seq<real>>, name: string, duration: real): (r: map<string, seq<real>>)
    ensures name in r && r[name] == (if name in metrics then metrics[name] else []) + [duration]
    ensures forall n :: n != name ==> (n in r <==> n in metrics)
    ensures forall n :: n != name && n in r ==> r[n] == metrics[n]
  {
    var list := if name in metrics then metrics[name] else [];
    metrics[name := list + [duration]]
  }

  /** Recording one more duration counts it, keeps it within `min`..`max` and leaves the
      earlier durations as they were. */
  lemma RecordedStats(metrics: map<string, seq<real>>, name: string, duration: real)
    ensures var before := if name in metrics then metrics[name] else [];
      var after := Recorded(metrics, name, duration)[name];
      var s := StatsOf(after).value;
      s.count == |before| + 1 && after[..|before|] == before && s.min <= duration <= s.max
  {
    var before := if name in metrics then metrics[name] else [];
    var after := Recorded(metrics, name, duration)[name];
    assert after == before + [duration];
    AppendedStats(before, duration);
  }

  /** Appending `duration` to a list counts it and keeps it within `min`..`max`. */
  lemma AppendedStats(before: seq<real>, duration: real)
    ensures var s := StatsOf(before + [duration]).value;
      s.count == |before| + 1 && (before + [duration])[..|before|] == before && s.min <= duration <= s.max
  {
    var after := before + [duration];
    StatsOrdered(after);
    assert duration in after;
    assert after[..|before|] == before;
  }

  /** `PerformanceMonitor`. */
  class PerformanceMonitor {
    var metrics: map<string, seq<real>>

    constructor ()
      ensures metrics == map[]
    {
      metrics := map[];
    }

    /** `record(name, duration)`: creates the list if needed and appends. */
    method Record(name: string, duration: real)
      modifies this
      ensures metrics == Recorded(old(metrics), name, duration)
    {
      if name !in metrics {
        metrics := metrics[name := []];
      }
      metrics := metrics[name := metrics[name] + [duration]];
    }

    /** `measure(name, fn)` with the two clock readings around the call as parameters. */
    method Measure(name: string, start: real, finish: real)
      modifies this
      ensures metrics == Recorded(old(metrics), name, finish - start)
    {
      var duration := finish - start;
      Record(name, duration);
    }

    /** `getStats(name)`: `null` for a name never recorded or with no durations. */
    function GetStats(name: string): (r: Option<Stats>)
      reads this
      ensures r.None? <==> name !in metrics || metrics[name] == []
      ensures r.Some? ==> r.value.count == |metrics[name]|
    {
      if name in metrics then StatsOf(metrics[name]) else None
    }

    /** `getAllStats()`: one entry per recorded name. */
    function AllStats(): (r: map<string, Option<Stats>>)
      reads this
      ensures r.Keys == metrics.Keys
      ensures forall n :: n in r ==> r[n] == GetStats(n)
    {
      map n | n in metrics :: GetStats(n)
    }

    /** `clear(name)`: a non-empty name deletes that list only; no name, or the empty name,
        which is falsy, deletes everything. */
    method Clear(name: Option<string>)
      modifies this
      ensures name.Some? && name.value != "" ==> metrics == old(metrics) - {name.value}
      ensures name.None? || name.value == "" ==> metrics == map[]
    {
      if name.Some? && name.value != "" {
        metrics := metrics - {name.value};
      } else {
        metrics := map[];
      }
    }
  }

  /** After `clear(name)` the name has no statistics and every other name keeps its own. */
  lemma ClearedStats(metrics: map<string, seq<real>>, name: string, other: string)
    requires other != name
    ensures name !in metrics - {name}
    ensures other in metrics - {name} <==> other in metrics
    ensures other in metrics ==> (metrics - {name})[other] == metrics[other]
  {
  }

  /** The function `memoize(fn, keyGenerator)` returns, with its closure's cache. The arguments
      are JSON values; `fn` is a function of them. */
  class Memoized<R> {
    const fn: seq<Json> -> R
    const keyGenerator: Option<seq<Json> -> string>
    var cache: map<string, R>
    /** The arguments whose call stored each cached result. */
    ghost var sources: map<string, seq<Json>>
    /** The keys for which `fn` ran, in order. */
    ghost var calls: seq<string>

    /** `keyGenerator(...args)`, else `JSON.stringify(args)`. */
    function KeyOf(args: seq<Json>): string
      reads this
    {
      if keyGenerator.Some? then keyGenerator.value(args) else Stringify(JArr(args))
    }

    /** Each cached result is `fn` of arguments with that key, and `fn` ran once per key. */
    ghost predicate Valid()
      reads this
    {
      sources.Keys == cache.Keys &&
      (forall k :: k in cache ==> KeyOf(sources[k]) == k && cache[k] == fn(sources[k])) &&
      (forall k :: k in calls <==> k in cache) &&
      (forall i, j :: 0 <= i < j < |calls| ==> calls[i] != calls[j])
    }

    constructor (fn: seq<Json> -> R, keyGenerator: Option<seq<Json> -> string>)
      ensures this.fn == fn && this.keyGenerator == keyGenerator
      ensures Valid() && cache == map[] && calls == []
    {
      this.fn := fn;
      this.keyGenerator := keyGenerator;
      cache := map[];
      sources := map[];
      calls := [];
    }

    /** A call of the memoized function: the cached result for the key, else `fn(...args)`,
        stored under the key. */
    method Call(args: seq<Json>) returns (r: R)
      requires Valid()
      modifies this
      ensures Valid()
      ensures KeyOf(args) in old(cache) ==>
        r == old(cache)[KeyOf(args)] && cache == old(cache) && calls == old(calls)
      ensures KeyOf(args) !in old(cache) ==>
        r == fn(args) && cache == old(cache)[KeyOf(args) := r] && calls == old(calls) + [KeyOf(args)]
      ensures keyGenerator.None? ==> r == fn(args)
    {
      var key := KeyOf(args);
      if key in cache {
        r := cache[key];
        if keyGenerator.None? {
          StringifyInjective(JArr(sources[key]), JArr(args));
        }
        return;
      }
      r := fn(args);
      cache := cache[key := r];
      sources := sources[key := args];
      calls := calls + [key];
    }
  }
}
