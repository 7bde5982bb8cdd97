/** The parameter optimizer: the grid of values of each parameter range, the enumeration of
    every combination of them, the population step of the genetic search, and the choice of the
    best backtest by an objective. Random draws (random search, crossover, mutation, the initial
    population) are inputs. */
module Optimizers {
  import opened Wrappers
  import opened Floats
  import opened BacktestTypes
  import TradeTypes
  import BacktestServices

  datatype ParamType = Integer | Float | Discrete

  /** `ParamRange`. */
  datatype ParamRange = ParamRange(name: string, min: real, max: real, step: real, paramType: ParamType)

  /** `ParamRange::integer`: the bounds and the step converted to floats. */
  function IntegerRange(name: string, min: int, max: int, step: int): ParamRange {
    ParamRange(name, min as real, max as real, step as real, Integer)
  }

  /** `ParamRange::float`. */
  function FloatRange(name: string, min: real, max: real, step: real): ParamRange {
    ParamRange(name, min, max, step, Float)
  }

  // ---------------------------------------------------------------------------------------
  // The values of one range

  /** The `k`-th value from `min` in steps of `step` is at most `max`. */
  predicate Reaches(min: real, max: real, step: real, k: int) {
    min + (k as real) * step <= max
  }

  /** `v` holds `min`, `min + step`, `min + 2 step`, … for as long as they stay at most `max`. */
  predicate IsGrid(v: seq<real>, min: real, max: real, step: real) {
    && (forall i :: 0 <= i < |v| ==> v[i] == min + (i as real) * step)
    && (forall i :: 0 <= i < |v| ==> Reaches(min, max, step, i))
    && !Reaches(min, max, step, |v|)
  }

  /** A product of a count with a positive step stays below a bound only while the count does. */
  lemma CountBelow(k: int, step: real, span: real)
    requires step > 0.0 && (k as real) * step <= span
    ensures (k as real) <= span / step
  {
    assert (k as real) == ((k as real) * step) / step;
  }

  /** `generate_values`: the values from `min` in steps of `step` up to `max`. With a step that
      is not positive and `min <= max` the source loops for ever, so the step must then be
      positive. */
  method GenerateValues(r: ParamRange) returns (values: seq<real>)
    requires r.step > 0.0 || r.min > r.max
    ensures IsGrid(values, r.min, r.max, r.step)
  {
    values := [];
    var current := r.min;
    ghost var bound: int := if r.step > 0.0 && r.min <= r.max then ((r.max - r.min) / r.step).Floor + 1 else 0;
    while current <= r.max
      invariant current == r.min + (|values| as real) * r.step
      invariant forall i :: 0 <= i < |values| ==> values[i] == r.min + (i as real) * r.step
      invariant forall i :: 0 <= i < |values| ==> Reaches(r.min, r.max, r.step, i)
      invariant r.step > 0.0 || (values == [] && current > r.max)
      invariant current <= r.max ==> |values| < bound
      decreases bound - |values|
    {
      values := values + [current];
      current := current + r.step;
      if current <= r.max {
        CountBelow(|values|, r.step, r.max - r.min);
      }
    }
  }

  /** Two value lists of the same range agree: the list is determined by the bounds and the
      step. */
  lemma GridUnique(a: seq<real>, b: seq<real>, min: real, max: real, step: real)
    requires step > 0.0 && IsGrid(a, min, max, step) && IsGrid(b, min, max, step)
    ensures a == b
  {
  }

  /** With a positive step the values are strictly ascending. */
  lemma GridAscending(v: seq<real>, min: real, max: real, step: real, i: int, j: int)
    requires step > 0.0 && IsGrid(v, min, max, step) && 0 <= i < j < |v|
    ensures v[i] < v[j]
  {
    assert v[j] - v[i] == ((j - i) as real) * step;
  }

  /** The range `integer("period", 5, 20, 5)` gives 5, 10, 15 and 20. */
  lemma IntegerRangeExample(v: seq<real>)
    requires IsGrid(v, IntegerRange("period", 5, 20, 5).min, 20.0, 5.0)
    ensures v == [5.0, 10.0, 15.0, 20.0]
  {
    var w := [5.0, 10.0, 15.0, 20.0];
    assert IsGrid(w, 5.0, 20.0, 5.0);
    GridUnique(v, w, 5.0, 20.0, 5.0);
  }

  // ---------------------------------------------------------------------------------------
  // The combinations of all ranges

  /** A parameter setting: one (name, value) pair per range. */
  type Individual = seq<(string, real)>

  /** The names of the ranges paired with chosen values. */
  function Label(pv: seq<(string, seq<real>)>, values: seq<real>): (c: Individual)
    requires |values| == |pv|
    ensures |c| == |pv|
    ensures forall i :: 0 <= i < |pv| ==> c[i] == (pv[i].0, values[i])
  {
    seq(|pv|, i requires 0 <= i < |pv| => (pv[i].0, values[i]))
  }

  /** The number of combinations of the ranges from `d` on: the product of their value
      counts. */
  function Count(pv: seq<(string, seq<real>)>, d: nat): nat
    requires d <= |pv|
    decreases |pv| - d
  {
    if d == |pv| then 1 else |pv[d].1| * Count(pv, d + 1)
  }

  /** The combinations the enumeration produces from depth `d`, the values before it being
      `prefix`: each value of range `d` in turn, followed by all combinations of the later
      ranges. */
  function Grid(pv: seq<(string, seq<real>)>, d: nat, prefix: seq<real>): (g: seq<Individual>)
    requires d <= |pv| && |prefix| == d
    ensures |g| == Count(pv, d)
    decreases |pv| - d, 1, 0
  {
    if d == |pv| then [Label(pv, prefix)] else GridFrom(pv, d, prefix, pv[d].1)
  }

  /** The part of `Grid(pv, d, prefix)` that starts with the values `vs` of range `d`. */
  function GridFrom(pv: seq<(string, seq<real>)>, d: nat, prefix: seq<real>, vs: seq<real>): (g: seq<Individual>)
    requires d < |pv| && |prefix| == d
    ensures |g| == |vs| * Count(pv, d + 1)
    decreases |pv| - d, 0, |vs|
  {
    if vs == [] then []
    else
      assert |vs| * Count(pv, d + 1) == Count(pv, d + 1) + (|vs| - 1) * Count(pv, d + 1);
      Grid(pv, d + 1, prefix + [vs[0]]) + GridFrom(pv, d, prefix, vs[1..])
  }

  /** Taking one more value of range `d` adds its block at the end. */
  lemma {:induction false} GridFromSnoc(pv: seq<(string, seq<real>)>, d: nat, prefix: seq<real>, vs: seq<real>, v: real)
    requires d < |pv| && |prefix| == d
    ensures GridFrom(pv, d, prefix, vs + [v]) == GridFrom(pv, d, prefix, vs) + Grid(pv, d + 1, prefix + [v])
    decreases |vs|
  {
    if vs == [] {
      assert (vs + [v])[1..] == [];
    } else {
      assert (vs + [v])[1..] == vs[1..] + [v];
      GridFromSnoc(pv, d, prefix, vs[1..], v);
    }
  }

  /** `generate_combinations_recursive`: with the values before `depth` set in `current`, sets
      each value of range `depth` in turn and recurses; at full depth pushes the labelled
      values. The cells before `depth` are left as they were. */
  method GenerateCombinationsRecursive(pv: seq<(string, seq<real>)>, depth: nat, current: array<real>,
                                       combos: seq<Individual>)
    returns (result: seq<Individual>)
    requires depth <= |pv| == current.Length
    modifies current
    ensures current[..depth] == old(current[..depth])
    ensures result == combos + Grid(pv, depth, old(current[..depth]))
    decreases |pv| - depth
  {
    if depth == |pv| {
      assert current[..] == current[..depth];
      result := combos + [Label(pv, current[..])];
      return;
    }
    ghost var prefix := current[..depth];
    var vs := pv[depth].1;
    result := combos;
    var j := 0;
    while j < |vs|
      invariant 0 <= j <= |vs|
      invariant current[..depth] == prefix
      invariant result == combos + GridFrom(pv, depth, prefix, vs[..j])
    {
      current[depth] := vs[j];
      assert current[..depth + 1] == prefix + [vs[j]];
      result := GenerateCombinationsRecursive(pv, depth + 1, current, result);
      assert current[..depth] == current[..depth + 1][..depth];
      GridFromSnoc(pv, depth, prefix, vs[..j], vs[j]);
      assert vs[..j + 1] == vs[..j] + [vs[j]];
      j := j + 1;
    }
    assert vs[..j] == vs;
  }

  /** `pv` pairs each range's name with its values. */
  predicate ValuesOf(pv: seq<(string, seq<real>)>, ranges: seq<ParamRange>) {
    && |pv| == |ranges|
    && forall i :: 0 <= i < |pv| ==>
         pv[i].0 == ranges[i].name && IsGrid(pv[i].1, ranges[i].min, ranges[i].max, ranges[i].step)
  }

  /** A range whose values can be listed. */
  predicate Listable(r: ParamRange) {
    r.step > 0.0 || r.min > r.max
  }

  /** `generate_grid_combinations(ranges)`: the values of each range, then every combination of
      them, from an all-zero `current`. */
  method GenerateGridCombinations(ranges: seq<ParamRange>) returns (combos: seq<Individual>)
    requires forall i :: 0 <= i < |ranges| ==> Listable(ranges[i])
    ensures exists pv :: ValuesOf(pv, ranges) && combos == Grid(pv, 0, [])
  {
    var pv: seq<(string, seq<real>)> := [];
    var i := 0;
    while i < |ranges|
      invariant 0 <= i <= |ranges|
      invariant ValuesOf(pv, ranges[..i])
    {
      var values := GenerateValues(ranges[i]);
      pv := pv + [(ranges[i].name, values)];
      i := i + 1;
    }
    assert ranges[..i] == ranges;
    var current := new real[|pv|](_ => 0.0);
    combos := GenerateCombinationsRecursive(pv, 0, current, []);
    assert current[..0] == [];
  }

  /** `c` has one entry per range, in range order, named after it, with the values of `prefix`
      before depth `d` and a value of the range from `d` on. */
  predicate Fits(pv: seq<(string, seq<real>)>, d: nat, prefix: seq<real>, c: Individual)
    requires |prefix| == d <= |pv|
  {
    && |c| == |pv|
    && (forall i :: 0 <= i < |pv| ==> c[i].0 == pv[i].0)
    && (forall i :: 0 <= i < d ==> c[i].1 == prefix[i])
    && (forall i :: d <= i < |pv| ==> c[i].1 in pv[i].1)
  }

  /** Every combination has one (name, value) pair per range, in range order, with the value
      taken from that range's list. */
  lemma {:induction false} GridShape(pv: seq<(string, seq<real>)>, d: nat, prefix: seq<real>)
    requires d <= |pv| && |prefix| == d
    ensures forall c :: c in Grid(pv, d, prefix) ==> Fits(pv, d, prefix, c)
    decreases |pv| - d, 1, 0
  {
    if d < |pv| {
      GridFromShape(pv, d, prefix, pv[d].1);
    }
  }

  lemma {:induction false} GridFromShape(pv: seq<(string, seq<real>)>, d: nat, prefix: seq<real>, vs: seq<real>)
    requires d < |pv| && |prefix| == d
    requires forall v :: v in vs ==> v in pv[d].1
    ensures forall c :: c in GridFrom(pv, d, prefix, vs) ==> Fits(pv, d, prefix, c)
    decreases |pv| - d, 0, |vs|
  {
    if vs != [] {
      var p := prefix + [vs[0]];
      GridShape(pv, d + 1, p);
      GridFromShape(pv, d, prefix, vs[1..]);
      forall c: Individual | c in Grid(pv, d + 1, p)
        ensures Fits(pv, d, prefix, c)
      {
        assert Fits(pv, d + 1, p, c);
        assert c[d].1 == p[d] == vs[0];
        forall i | 0 <= i < d
          ensures c[i].1 == prefix[i]
        {
          assert c[i].1 == p[i];
        }
      }
    }
  }

  /** The enumeration is lexicographic with the first range slowest: combination number
      `j * C + r`, where `C` counts the combinations of the later ranges, takes the `j`-th value
      of range `d` followed by the `r`-th combination of the later ranges. */
  lemma {:induction false} GridFromBlocks(pv: seq<(string, seq<real>)>, d: nat, prefix: seq<real>, vs: seq<real>, j: nat, r: nat)
    requires d < |pv| && |prefix| == d
    requires j < |vs| && r < Count(pv, d + 1)
    ensures j * Count(pv, d + 1) + r < |GridFrom(pv, d, prefix, vs)|
    ensures GridFrom(pv, d, prefix, vs)[j * Count(pv, d + 1) + r] == Grid(pv, d + 1, prefix + [vs[j]])[r]
    decreases |vs|
  {
    var c := Count(pv, d + 1);
    BlockIndex(j, |vs|, c, r);
    if j > 0 {
      GridFromBlocks(pv, d, prefix, vs[1..], j - 1, r);
      assert vs[1..][j - 1] == vs[j];
    }
  }

  /** Index `j * c + r` of `n` blocks of `c` lies within them, and past the first block it is
      index `(j - 1) * c + r` of the rest. */
  lemma BlockIndex(j: nat, n: nat, c: nat, r: nat)
    requires j < n && r < c
    ensures j * c + r < n * c
    ensures j > 0 ==> j * c + r - c == (j - 1) * c + r && j * c + r >= c
  {
    MulDistrib(j, n - j, c);
    MulAtLeast(n - j, c);
    if j > 0 {
      MulDistrib(j - 1, 1, c);
    }
  }

  lemma MulDistrib(x: int, y: int, c: int)
    ensures (x + y) * c == x * c + y * c
  {
  }

  lemma MulAtLeast(k: int, c: int)
    requires k >= 1 && c >= 0
    ensures k * c >= c
  {
  }

  /** The whole enumeration, from the first range: combination `j * C + r` takes the `j`-th
      value of the first range, then the `r`-th combination of the others. */
  lemma GridIsLexicographic(pv: seq<(string, seq<real>)>, j: nat, r: nat)
    requires |pv| > 0 && j < |pv[0].1| && r < Count(pv, 1)
    ensures j * Count(pv, 1) + r < |Grid(pv, 0, [])|
    ensures Grid(pv, 0, [])[j * Count(pv, 1) + r] == Grid(pv, 1, [pv[0].1[j]])[r]
  {
    assert Grid(pv, 0, []) == GridFrom(pv, 0, [], pv[0].1);
    assert [] + [pv[0].1[j]] == [pv[0].1[j]];
    GridFromBlocks(pv, 0, [], pv[0].1, j, r);
  }

  // ---------------------------------------------------------------------------------------
  // The genetic search

  /** `evolve_population(survivors, target_size, ranges)`: the survivors, then new individuals
      until the target size is reached. `offspring` holds, in order, the children the random
      crossover and mutation produce. The source takes a parent index modulo the number of
      survivors, so it needs survivors whenever a child is bred. */
  method EvolvePopulation(survivors: seq<Individual>, targetSize: nat, offspring: seq<Individual>)
    returns (population: seq<Individual>)
    requires survivors != [] || targetSize == 0
    requires |offspring| >= targetSize - |survivors|
    ensures |population| == if targetSize > |survivors| then targetSize else |survivors|
    ensures population[..|survivors|] == survivors
    ensures population[|survivors|..] == offspring[..|population| - |survivors|]
  {
    population := survivors;
    var k := 0;
    while |population| < targetSize
      invariant |population| == |survivors| + k
      invariant k == 0 || |population| <= targetSize
      invariant population == survivors + offspring[..k]
      decreases targetSize - |population|
    {
      population := population + [offspring[k]];
      assert offspring[..k + 1] == offspring[..k] + [offspring[k]];
      k := k + 1;
    }
  }

  /** The number of survivors kept out of a population: a fifth, rounded down, but at least
      one. */
  function SurvivorCount(populationSize: nat): (c: nat)
    ensures c >= 1
    ensures populationSize >= 5 ==> 5 * c <= populationSize < 5 * (c + 1)
    ensures populationSize < 5 ==> c == 1
  {
    if populationSize / 5 >= 1 then populationSize / 5 else 1
  }

  // ---------------------------------------------------------------------------------------
  // Choosing the best result

  datatype Objective = MaximizeReturn | MaximizeSharpe | MinimizeDrawdown | MaximizeProfitFactor
                     | MaximizeWinRate | Custom

  function MinReal(a: real, b: real): real { if a <= b then a else b }

  function MaxReal(a: real, b: real): real { if a >= b then a else b }

  /** The composite score: the Sharpe ratio (not below zero) over 5, times one minus the
      drawdown fraction (capped at one), times the win-rate fraction. */
  function CustomScore(r: BacktestResult): real {
    (MaxReal(r.sharpeRatio, 0.0) / 5.0) * (1.0 - MinReal(r.maxDrawdown / 100.0, 1.0)) * (r.winRate / 100.0)
  }

  /** `calculate_fitness(result, objective)`: the measure to maximise; a drawdown counts
      negated. The total return may be infinite or NaN. */
  function Fitness(r: BacktestResult, o: Objective): (f: F64)
    ensures o != MaximizeReturn ==> f.Finite?
  {
    match o
      case MaximizeReturn => r.totalReturn
      case MaximizeSharpe => Finite(r.sharpeRatio)
      case MinimizeDrawdown => Finite(-r.maxDrawdown)
      case MaximizeProfitFactor => Finite(r.profitFactor)
      case MaximizeWinRate => Finite(r.winRate)
      case Custom => Finite(CustomScore(r))
  }

  /** Under the drawdown objective the smaller drawdown is the fitter. */
  lemma SmallerDrawdownIsFitter(a: BacktestResult, b: BacktestResult)
    ensures Less(Fitness(b, MinimizeDrawdown), Fitness(a, MinimizeDrawdown)) <==> a.maxDrawdown < b.maxDrawdown
  {
  }

  lemma ScoreFactors(s: real, d: real, w: real)
    requires s >= 0.0 && 0.0 <= d <= 1.0 && 0.0 <= w <= 1.0
    ensures 0.0 <= s * d * w <= s
    ensures s == 0.0 || d == 0.0 || w == 0.0 ==> s * d * w == 0.0
  {
    assert 0.0 <= s * d <= s;
    assert (s * d) * w <= s * d;
  }

  /** The composite score is never negative for a win rate in range, is at most a fifth of the
      Sharpe ratio, and is zero for a non-positive Sharpe ratio, a total drawdown or no wins. */
  lemma CustomScoreRange(r: BacktestResult)
    requires 0.0 <= r.winRate <= 100.0 && r.maxDrawdown >= 0.0
    ensures 0.0 <= CustomScore(r) <= MaxReal(r.sharpeRatio, 0.0) / 5.0
    ensures r.sharpeRatio <= 0.0 || r.maxDrawdown >= 100.0 || r.winRate == 0.0 ==> CustomScore(r) == 0.0
  {
    var s := MaxReal(r.sharpeRatio, 0.0) / 5.0;
    var d := 1.0 - MinReal(r.maxDrawdown / 100.0, 1.0);
    var w := r.winRate / 100.0;
    assert CustomScore(r) == s * d * w;
    assert r.sharpeRatio <= 0.0 ==> s == 0.0;
    assert r.maxDrawdown >= 100.0 ==> d == 0.0;
    assert r.winRate == 0.0 ==> w == 0.0;
    ScoreFactors(s, d, w);
  }

  /** What a call that may panic gives: its value, or the panic and its message. */
  datatype Outcome<T> = Returned(value: T) | Panicked(message: string)

  /** The message of the panic of `partial_cmp(..).unwrap()` when a fitness is NaN. */
  const UnwrapPanic := "called `Option::unwrap()` on a `None` value"

  /** The fitness values can be compared pairwise: a single result is never compared, and
      otherwise no fitness may be NaN. */
  predicate Comparable(rs: seq<BacktestResult>, o: Objective) {
    |rs| <= 1 || forall i :: 0 <= i < |rs| ==> Fitness(rs[i], o) != NaN
  }

  /** The position `max_by` picks. It folds from the left, comparing the best so far with the
      next result, and keeps the best so far only when it is strictly greater, so the last of
      several equal maxima wins. A comparison with a NaN fitness has no ordering and its
      `unwrap` panics. */
  function BestIndex(rs: seq<BacktestResult>, o: Objective): (r: Outcome<nat>)
    requires rs != []
    ensures r.Returned? ==> r.value < |rs|
    ensures r.Panicked? ==> r.message == UnwrapPanic && |rs| >= 2
    decreases |rs|
  {
    if |rs| == 1 then Returned(0)
    else
      var init := rs[..|rs| - 1];
      match BestIndex(init, o)
        case Panicked(m) => Panicked(m)
        case Returned(k) =>
          var best := Fitness(init[k], o);
          var last := Fitness(rs[|rs| - 1], o);
          if best == NaN || last == NaN then Panicked(UnwrapPanic)
          else if Less(last, best) then Returned(k) else Returned(|rs| - 1)
  }

  /** With two or more results every one takes part in a comparison, so `max_by` panics
      exactly when some fitness is NaN. */
  lemma {:induction false} PanicsExactlyOnNaN(rs: seq<BacktestResult>, o: Objective)
    requires rs != []
    ensures BestIndex(rs, o).Panicked? <==> !Comparable(rs, o)
    decreases |rs|
  {
    if |rs| > 1 {
      var init := rs[..|rs| - 1];
      PanicsExactlyOnNaN(init, o);
      match BestIndex(init, o) {
        case Panicked(_) =>
          var i :| 0 <= i < |init| && Fitness(init[i], o) == NaN;
          assert rs[i] == init[i];
        case Returned(k) =>
          assert init[k] == rs[k];
          if |init| == 1 {
            assert k == 0;
          } else {
            forall i | 0 <= i < |init| ensures Fitness(rs[i], o) != NaN {
              assert rs[i] == init[i];
            }
          }
      }
    }
  }

  /** The picked result is fitter than none, and strictly fitter than every later one. */
  lemma {:induction false} BestIndexIsLastMaximum(rs: seq<BacktestResult>, o: Objective)
    requires rs != [] && BestIndex(rs, o).Returned?
    ensures forall j :: 0 <= j < |rs| ==> !Less(Fitness(rs[BestIndex(rs, o).value], o), Fitness(rs[j], o))
    ensures forall j :: BestIndex(rs, o).value < j < |rs| ==> Less(Fitness(rs[j], o), Fitness(rs[BestIndex(rs, o).value], o))
    decreases |rs|
  {
    if |rs| > 1 {
      var init := rs[..|rs| - 1];
      BestIndexIsLastMaximum(init, o);
      var k := BestIndex(init, o).value;
      var best := Fitness(init[k], o);
      var last := Fitness(rs[|rs| - 1], o);
      var b := BestIndex(rs, o).value;
      forall j | 0 <= j < |rs|
        ensures !Less(Fitness(rs[b], o), Fitness(rs[j], o))
      {
        var x := Fitness(rs[j], o);
        if j < |rs| - 1 {
          assert init[j] == rs[j];
          LessIsStrictTotalOrder(best, last, x);
          LessIsStrictTotalOrder(last, best, x);
        } else {
          LessIsStrictTotalOrder(best, x, x);
          LessIsStrictTotalOrder(x, best, x);
        }
      }
      forall j | b < j < |rs|
        ensures Less(Fitness(rs[j], o), Fitness(rs[b], o))
      {
        if j < |rs| - 1 {
          assert init[j] == rs[j];
        }
      }
    }
  }

  /** The placeholder result `find_best_result` gives when there are no results; its id is
      `bt_` followed by a generated uuid. */
  function DummyResult(uuid: string): (r: BacktestResult)
    ensures r.id == "bt_" + uuid && r.totalTrades == 0 && r.trades == []
  {
    BacktestResult(
      "bt_" + uuid, "dummy", "BTCUSDT", "1h", 0, 0,
      10000.0, 10000.0, 0.0, Finite(0.0), 10000.0, 10000.0,
      0.0, 0.0, 0, 0.0, None, None,
      0, 0, 0, 0.0, 0.0,
      0.0, 0.0, 0.0, 0, 0, 0.0, 0.0,
      0.0, [], [], [], [])
  }

  /** `find_best_result(results, objective)`: a result of greatest fitness, the last of equals,
      or the placeholder when there is none; it panics exactly when two or more results include
      a NaN fitness. */
  function FindBestResult(rs: seq<BacktestResult>, o: Objective, uuid: string): (best: Outcome<BacktestResult>)
    ensures rs == [] ==> best == Returned(DummyResult(uuid))
    ensures best.Returned? && rs != [] ==> best.value in rs
    ensures best.Panicked? <==> !Comparable(rs, o)
  {
    if rs == [] then Returned(DummyResult(uuid))
    else
      PanicsExactlyOnNaN(rs, o);
      match BestIndex(rs, o)
        case Returned(i) => Returned(rs[i])
        case Panicked(m) => Panicked(m)
  }

  /** No result is fitter than the one found. */
  lemma BestResultIsFittest(rs: seq<BacktestResult>, o: Objective, uuid: string)
    requires FindBestResult(rs, o, uuid).Returned?
    ensures forall r :: r in rs ==> !Less(Fitness(FindBestResult(rs, o, uuid).value, o), Fitness(r, o))
  {
    if rs != [] {
      BestIndexIsLastMaximum(rs, o);
    }
  }

  /** The results of the runs that succeeded, in order: what the grid and random searches keep
      of their runs, a failed run being only logged. */
  function Successes(outcomes: seq<Result<BacktestResult, string>>): (rs: seq<BacktestResult>)
    ensures |rs| <= |outcomes|
    ensures forall r :: r in rs ==> Ok(r) in outcomes
    decreases |outcomes|
  {
    if outcomes == [] then []
    else
      var rest := Successes(outcomes[..|outcomes| - 1]);
      var last := outcomes[|outcomes| - 1];
      if last.Ok? then rest + [last.value] else rest
  }

  /** Every run succeeding keeps every result; every run failing keeps none. */
  lemma {:induction false} SuccessesCount(outcomes: seq<Result<BacktestResult, string>>)
    ensures (forall i :: 0 <= i < |outcomes| ==> outcomes[i].Ok?) ==> |Successes(outcomes)| == |outcomes|
    ensures (forall i :: 0 <= i < |outcomes| ==> outcomes[i].Err?) ==> Successes(outcomes) == []
    decreases |outcomes|
  {
    if outcomes != [] {
      SuccessesCount(outcomes[..|outcomes| - 1]);
    }
  }

  /** `OptimizationResult`. */
  datatype OptimizationResult = OptimizationResult(
    bestParams: seq<(string, real)>, bestResult: BacktestResult, allResults: seq<BacktestResult>,
    totalIterations: nat, durationMs: nat)

  /** `optimize(config)` once the search has produced its results: the best of them, no
      parameters (their extraction is a placeholder), all results and their number; the panic
      of `find_best_result` when a fitness is NaN. */
  function Optimize(rs: seq<BacktestResult>, o: Objective, uuid: string, durationMs: nat): (r: Outcome<OptimizationResult>)
    ensures r.Panicked? <==> !Comparable(rs, o)
    ensures r.Returned? ==> r.value.allResults == rs && r.value.totalIterations == |rs| && r.value.bestParams == []
    ensures r.Returned? && rs == [] ==> r.value.bestResult == DummyResult(uuid)
    ensures r.Returned? && rs != [] ==> r.value.bestResult in rs
  {
    match FindBestResult(rs, o, uuid)
      case Returned(best) => Returned(OptimizationResult([], best, rs, |rs|, durationMs))
      case Panicked(m) => Panicked(m)
  }

  /** The best result `optimize` reports is no less fit than any result of the search. */
  lemma OptimizeIsFittest(rs: seq<BacktestResult>, o: Objective, uuid: string, durationMs: nat)
    requires Optimize(rs, o, uuid, durationMs).Returned?
    ensures forall r :: r in rs ==> !Less(Fitness(Optimize(rs, o, uuid, durationMs).value.bestResult, o), Fitness(r, o))
  {
    BestResultIsFittest(rs, o, uuid);
  }

  // ---------------------------------------------------------------------------------------
  // The run loop of the searches

  /** Appending an outcome appends its result when it succeeded. */
  lemma SuccessesSnoc(outcomes: seq<Result<BacktestResult, string>>, r: Result<BacktestResult, string>)
    ensures Successes(outcomes + [r]) == Successes(outcomes) + (if r.Ok? then [r.value] else [])
  {
    assert (outcomes + [r])[..|outcomes|] == outcomes;
  }

  /** The run loop of `grid_search` and `random_search` as written: every iteration runs the
      job `"optimization"` and keeps its result when it succeeds. Every stored job id is `bt_`
      followed by a uuid, so no job has that id: every run fails with "Job not found:
      optimization", nothing changes and the search keeps no result, which leaves `optimize`
      with the placeholder. */
  method SearchRunsAsWritten(svc: BacktestServices.BacktestService, iterations: nat,
                             klines: Result<seq<TradeTypes.Kline>, string>,
                             signals: seq<Result<Option<BacktestServices.Signal>, string>>, resultId: string,
                             sharpeOf: seq<TradeDetail> -> real, now: int)
    returns (outcomes: seq<Result<BacktestResult, string>>, results: seq<BacktestResult>)
    requires svc.Valid()
    requires klines.Ok? ==> |signals| == |klines.value|
    modifies svc
    ensures svc.Valid() && svc.jobs == old(svc.jobs)
    ensures |outcomes| == iterations
    ensures forall i :: 0 <= i < iterations ==> outcomes[i] == Err("Job not found: optimization")
    ensures results == Successes(outcomes) == []
  {
    outcomes, results := [], [];
    for i := 0 to iterations
      invariant svc.Valid() && svc.jobs == old(svc.jobs)
      invariant |outcomes| == i && results == Successes(outcomes) == []
      invariant forall j :: 0 <= j < i ==> outcomes[j] == Err("Job not found: optimization")
    {
      NotAJobId();
      assert "optimization" !in svc.jobs;
      assert svc.StatusOf("optimization") == None;
      var r := svc.RunJobAsWritten("optimization", klines, signals, resultId, sharpeOf, now);
      assert "Job not found: " + "optimization" == "Job not found: optimization";
      SuccessesSnoc(outcomes, r);
      outcomes := outcomes + [r];
      match r {
        case Ok(result) => results := results + [result];
        case Err(_) =>
      }
    }
  }

  /** `"optimization"` does not have the form of a job id. */
  lemma NotAJobId()
    ensures !("bt_" <= "optimization")
  {
    assert "optimization"[0] == 'o' && "bt_"[0] == 'b';
  }

  /** A run succeeds: the klines are not empty and every signal is computed. */
  predicate RunSucceeds(klines: seq<TradeTypes.Kline>, signals: seq<Result<Option<BacktestServices.Signal>, string>>) {
    klines != [] && forall i :: 0 <= i < |signals| ==> signals[i].Ok?
  }

  /** One iteration of the intended loop: create a job from the configuration and run it by
      its id. The job gets past the gate and is left completed or failed; no other job
      changes. */
  method SearchStep(svc: BacktestServices.BacktestService, config: BacktestConfig, uuid: string,
                    klines: Result<seq<TradeTypes.Kline>, string>,
                    signals: seq<Result<Option<BacktestServices.Signal>, string>>, resultId: string,
                    sharpeOf: seq<TradeDetail> -> real, now: int)
    returns (r: Result<BacktestResult, string>)
    requires svc.Valid() && "bt_" + uuid !in svc.jobs
    requires klines.Ok? ==> |signals| == |klines.value|
    modifies svc
    ensures svc.Valid()
    ensures svc.jobs.Keys == old(svc.jobs.Keys) + {"bt_" + uuid}
    ensures forall id :: id in old(svc.jobs) ==> svc.jobs[id] == old(svc.jobs[id])
    ensures svc.jobs["bt_" + uuid].status == BacktestServices.StatusAfterRun(r)
    ensures klines.Ok? ==> (r.Ok? <==> RunSucceeds(klines.value, signals))
  {
    var id := svc.CreateJob(config, uuid, now);
    r := svc.RunJob(id, klines, signals, resultId, sharpeOf, now);
  }

  /** Job ids made from different uuids differ. */
  lemma JobIdsDiffer(a: string, b: string)
    requires a != b
    ensures "bt_" + a != "bt_" + b
  {
    assert ("bt_" + a)[3..] == a && ("bt_" + b)[3..] == b;
  }

  /** The run loop as evidently intended: each iteration creates a job from the configuration
      and runs it by its own id, keeping the result when the run succeeds. Every job gets past
      the gate and is left completed or failed, and a run succeeds exactly when the klines
      load, are not empty and every signal is computed. */
  method SearchRuns(svc: BacktestServices.BacktestService, config: BacktestConfig, uuids: seq<string>,
                    klines: Result<seq<TradeTypes.Kline>, string>,
                    signals: seq<seq<Result<Option<BacktestServices.Signal>, string>>>, resultIds: seq<string>,
                    sharpeOf: seq<TradeDetail> -> real, now: int)
    returns (outcomes: seq<Result<BacktestResult, string>>, results: seq<BacktestResult>)
    requires svc.Valid()
    requires |signals| == |uuids| && |resultIds| == |uuids|
    requires forall i :: 0 <= i < |uuids| ==> "bt_" + uuids[i] !in svc.jobs
    requires forall i, j :: 0 <= i < j < |uuids| ==> uuids[i] != uuids[j]
    requires klines.Ok? ==> forall i :: 0 <= i < |signals| ==> |signals[i]| == |klines.value|
    modifies svc
    ensures svc.Valid()
    ensures |outcomes| == |uuids| && results == Successes(outcomes)
    ensures forall i :: 0 <= i < |uuids| ==>
      "bt_" + uuids[i] in svc.jobs && svc.jobs["bt_" + uuids[i]].status == BacktestServices.StatusAfterRun(outcomes[i])
    ensures klines.Ok? ==> forall i :: 0 <= i < |uuids| ==> (outcomes[i].Ok? <==> RunSucceeds(klines.value, signals[i]))
  {
    outcomes, results := [], [];
    for i := 0 to |uuids|
      invariant svc.Valid()
      invariant |outcomes| == i && results == Successes(outcomes)
      invariant forall k :: i <= k < |uuids| ==> "bt_" + uuids[k] !in svc.jobs
      invariant forall j :: 0 <= j < i ==>
        "bt_" + uuids[j] in svc.jobs && svc.jobs["bt_" + uuids[j]].status == BacktestServices.StatusAfterRun(outcomes[j])
      invariant klines.Ok? ==> forall j :: 0 <= j < i ==> (outcomes[j].Ok? <==> RunSucceeds(klines.value, signals[j]))
    {
      forall k | i < k < |uuids| ensures "bt_" + uuids[k] != "bt_" + uuids[i] {
        JobIdsDiffer(uuids[k], uuids[i]);
      }
      var r := SearchStep(svc, config, uuids[i], klines, signals[i], resultIds[i], sharpeOf, now);
      SuccessesSnoc(outcomes, r);
      outcomes := outcomes + [r];
      if r.Ok? {
        results := results + [r.value];
      }
    }
  }
}
