/** The volatility limit rule: per symbol it keeps a bounded window of recent klines, measures
    the average true range (ATR) relative to the last close, and fires when any held symbol is
    too volatile. */
module VolatilityLimits {
  import opened Wrappers
  import opened TradeTypes
  import opened RiskRules
  import opened Floats

  /** `VolatilityLimitParams`. */
  datatype VolatilityParams = VolatilityParams(maxAtrRatio: real, atrPeriod: nat, historySize: nat)

  /** `VolatilityLimitParams::default()`: 2 %, a 14-kline period, 100 klines kept. */
  function DefaultParams(): (p: VolatilityParams)
    ensures p.maxAtrRatio == 0.02 && p.atrPeriod == 14 && p.historySize == 100
  {
    VolatilityParams(0.02, 14, 100)
  }

  /** `x >= limit` on a double: NaN compares false, the infinities as expected. */
  predicate AtLeast(x: F64, limit: real) {
    match x
      case Finite(v) => v >= limit
      case PosInf => true
      case NegInf => false
      case NaN => false
  }

  /** The newest `n` elements of `s`, as pushing at the back and dropping from the front while
      longer than `n` leaves them. */
  function Window(s: seq<Kline>, n: nat): (w: seq<Kline>)
    ensures |w| == if |s| <= n then |s| else n
    ensures w == s[|s| - |w|..]
  {
    if |s| <= n then s else s[|s| - n..]
  }

  /** Windowing again after one more push is the window of the longer history. */
  lemma WindowPush(s: seq<Kline>, k: Kline, n: nat)
    ensures Window(Window(s, n) + [k], n) == Window(s + [k], n)
  {
    if |s| > n {
      var w := Window(s, n) + [k];
      assert w[|w| - n..] == (s + [k])[|s| + 1 - n..];
    }
  }

  /** `WindowPush` for the next kline of a batch. */
  lemma WindowNext(start: seq<Kline>, klines: seq<Kline>, i: nat, n: nat)
    requires i < |klines|
    ensures Window(Window(start + klines[..i], n) + [klines[i]], n) == Window(start + klines[..i + 1], n)
  {
    WindowPush(start + klines[..i], klines[i], n);
    assert start + klines[..i] + [klines[i]] == start + klines[..i + 1];
  }

  function Abs(x: real): real { if x < 0.0 then -x else x }

  function Max(a: real, b: real): real { if a >= b then a else b }

  /** The true range of a kline after the previous one: the largest of its high–low span and the
      distances of its high and low from the previous close. */
  function TrueRange(prev: Kline, curr: Kline): (r: real)
    ensures r >= 0.0
    ensures r >= curr.high - curr.low && r >= Abs(curr.high - prev.close) && r >= Abs(curr.low - prev.close)
    ensures r == curr.high - curr.low || r == Abs(curr.high - prev.close) || r == Abs(curr.low - prev.close)
  {
    Max(Max(curr.high - curr.low, Abs(curr.high - prev.close)), Abs(curr.low - prev.close))
  }

  /** The true ranges of consecutive klines, oldest first. */
  function TrueRanges(ks: seq<Kline>): (trs: seq<real>)
    ensures |trs| == if ks == [] then 0 else |ks| - 1
    ensures forall i :: 0 <= i < |trs| ==> trs[i] == TrueRange(ks[i], ks[i + 1])
  {
    if |ks| <= 1 then []
    else
      var front := TrueRanges(ks[..|ks| - 1]);
      assert forall i :: 0 <= i < |ks| - 1 ==> ks[..|ks| - 1][i] == ks[i];
      front + [TrueRange(ks[|ks| - 2], ks[|ks| - 1])]
  }

  /** `calculate_atr` on a symbol's klines: undefined with fewer than `period + 1` klines,
      otherwise the mean of the first (oldest) `period` true ranges. A zero period divides zero
      by zero. */
  function Atr(ks: seq<Kline>, period: nat): (a: Option<F64>)
    ensures a.Some? <==> |ks| >= period + 1
    ensures a.Some? ==> a.value == Divide(Sum(TrueRanges(ks)[..period]), period as real)
  {
    if |ks| < period + 1 then None else Some(Divide(Sum(TrueRanges(ks)[..period]), period as real))
  }

  /** The first loop of `calculate_atr`: the true range of each kline against the one before
      it, pushed oldest first. */
  method CollectTrueRanges(ks: seq<Kline>) returns (trueRanges: seq<real>)
    requires ks != []
    ensures trueRanges == TrueRanges(ks)
  {
    trueRanges := [];
    var i := 1;
    assert |ks[..1]| == 1;
    while i < |ks|
      invariant 1 <= i <= |ks|
      invariant trueRanges == TrueRanges(ks[..i])
    {
      var prev := ks[i - 1];
      var curr := ks[i];
      var highLow := curr.high - curr.low;
      var highClose := Abs(curr.high - prev.close);
      var lowClose := Abs(curr.low - prev.close);
      var tr := Max(Max(highLow, highClose), lowClose);
      assert tr == TrueRange(prev, curr);
      TrueRangesSnoc(ks, i);
      trueRanges := trueRanges + [tr];
      i := i + 1;
    }
    assert ks[..i] == ks;
  }

  lemma TrueRangesSnoc(ks: seq<Kline>, i: int)
    requires 1 <= i < |ks|
    ensures TrueRanges(ks[..i + 1]) == TrueRanges(ks[..i]) + [TrueRange(ks[i - 1], ks[i])]
  {
    var t := ks[..i + 1];
    TrueRangesLast(t);
    assert t[..|t| - 1] == ks[..i];
    assert t[|t| - 2] == ks[i - 1] && t[|t| - 1] == ks[i];
  }

  /** The last true range is that of the last kline after the one before it. */
  lemma TrueRangesLast(t: seq<Kline>)
    requires |t| >= 2
    ensures TrueRanges(t) == TrueRanges(t[..|t| - 1]) + [TrueRange(t[|t| - 2], t[|t| - 1])]
  {
  }

  /** The second loop of `calculate_atr`: the sum of the first `n` values. */
  method SumPrefix(values: seq<real>, n: nat) returns (sum: real)
    requires n <= |values|
    ensures sum == Sum(values[..n])
  {
    sum := 0.0;
    var j := 0;
    while j < n
      invariant 0 <= j <= n
      invariant sum == Sum(values[..j])
    {
      assert values[..j + 1][..j] == values[..j];
      sum := sum + values[j];
      j := j + 1;
    }
  }

  /** A defined ATR is NaN for a zero period and otherwise the finite mean of the first
      `period` true ranges. */
  lemma AtrMean(ks: seq<Kline>, period: nat)
    requires |ks| >= period + 1
    ensures period == 0 ==> Atr(ks, period) == Some(NaN)
    ensures period > 0 ==> Atr(ks, period) == Some(Finite(Sum(TrueRanges(ks)[..period]) / period as real))
  {
    if period == 0 {
      assert TrueRanges(ks)[..0] == [];
    }
  }

  /** The ATR is never negative. */
  lemma AtrNonNegative(ks: seq<Kline>, period: nat)
    requires Atr(ks, period).Some? && period > 0
    ensures Atr(ks, period).value.Finite? && Atr(ks, period).value.value >= 0.0
  {
    var trs := TrueRanges(ks)[..period];
    forall i | 0 <= i < |trs| ensures trs[i] >= 0.0 {
      assert trs[i] == TrueRange(ks[i], ks[i + 1]);
    }
    SumNonNegative(trs);
    AtrMean(ks, period);
    QuotientNonNegative(Sum(trs), period as real);
  }


  /** Only the oldest `period + 1` klines count: klines added after them leave the ATR as it is. */
  lemma AtrUsesOldest(ks: seq<Kline>, later: seq<Kline>, period: nat)
    requires |ks| >= period + 1
    ensures Atr(ks + later, period) == Atr(ks, period)
  {
    var a := TrueRanges(ks + later)[..period];
    var b := TrueRanges(ks)[..period];
    forall i | 0 <= i < period ensures a[i] == b[i] {
      assert (ks + later)[i] == ks[i] && (ks + later)[i + 1] == ks[i + 1];
    }
    assert a == b;
  }

  /** Klines whose true ranges all equal `r` have ATR `r`. */
  lemma ConstantRangeAtr(ks: seq<Kline>, period: nat, r: real)
    requires period > 0 && |ks| >= period + 1
    requires forall i :: 0 <= i < |ks| - 1 ==> TrueRange(ks[i], ks[i + 1]) == r
    ensures Atr(ks, period) == Some(Finite(r))
  {
    var trs := TrueRanges(ks)[..period];
    forall i | 0 <= i < |trs| ensures trs[i] == r {
      assert trs[i] == TrueRange(ks[i], ks[i + 1]);
    }
    MeanOfConstant(trs, r);
    AtrMean(ks, period);
  }

  lemma MeanOfConstant(xs: seq<real>, r: real)
    requires |xs| > 0 && forall i :: 0 <= i < |xs| ==> xs[i] == r
    ensures Sum(xs) / |xs| as real == r
  {
    SumConstant(xs, r);
    CancelFactor(r, |xs| as real);
  }

  lemma CancelFactor(r: real, n: real)
    requires n > 0.0
    ensures n * r / n == r
  {
  }

  /** `get_volatility` on a symbol's klines: the ATR over the last close. */
  function Volatility(ks: seq<Kline>, period: nat): (v: Option<F64>)
    ensures v.Some? <==> Atr(ks, period).Some?
  {
    if ks == [] then None
    else match Atr(ks, period)
      case None => None
      case Some(atr) =>
        match atr
          case Finite(a) => Some(Divide(a, ks[|ks| - 1].close))
          case _ => Some(atr)
  }

  /** One step of `update_klines`: push at the back, then pop from the front while longer than
      `n`. */
  method PushBounded(h: seq<Kline>, k: Kline, n: nat) returns (r: seq<Kline>)
    requires |h| <= n
    ensures r == Window(h + [k], n)
  {
    var w := h + [k];
    r := w;
    while |r| > n
      invariant r == w[|w| - |r|..]
      invariant |r| == |w| || |r| >= n
    {
      r := r[1..];
    }
  }

  /** The loop of `update_klines` over the new klines. */
  method AppendBounded(start: seq<Kline>, klines: seq<Kline>, n: nat) returns (h: seq<Kline>)
    requires |start| <= n
    ensures h == Window(start + klines, n)
  {
    h := start;
    var i := 0;
    while i < |klines|
      invariant 0 <= i <= |klines|
      invariant h == Window(start + klines[..i], n)
    {
      h := PushBounded(h, klines[i], n);
      WindowNext(start, klines, i, n);
      i := i + 1;
    }
    assert klines[..i] == klines;
  }

  /** `VolatilityLimitRule`. */
  class VolatilityLimitRule {
    var config: RiskRuleConfig
    const params: VolatilityParams
    var history: map<string, seq<Kline>>

    /** Every window is within the history size. */
    predicate Valid()
      reads this
    {
      forall s :: s in history ==> |history[s]| <= params.historySize
    }

    /** `new(params, action)`. */
    constructor (p: VolatilityParams, action: RiskAction)
      ensures config == RiskRuleConfig(true, action, ["log"]) && params == p && history == map[]
      ensures Valid()
    {
      config := RiskRuleConfig(true, action, ["log"]);
      params := p;
      history := map[];
    }

    /** `default_with_warning()` and `default_with_stop()`. */
    constructor DefaultWithWarning()
      ensures config == RiskRuleConfig(true, Notify, ["log"]) && params == DefaultParams() && history == map[]
    {
      config := RiskRuleConfig(true, Notify, ["log"]);
      params := DefaultParams();
      history := map[];
    }

    constructor DefaultWithStop()
      ensures config == RiskRuleConfig(true, PauseStrategy, ["log"]) && params == DefaultParams() && history == map[]
    {
      config := RiskRuleConfig(true, PauseStrategy, ["log"]);
      params := DefaultParams();
      history := map[];
    }

    /** `update_klines(symbol, klines)`: each kline is pushed at the back and the oldest are
        dropped while the window is too long, so the newest `history_size` klines remain. */
    method UpdateKlines(symbol: string, klines: seq<Kline>)
      requires Valid()
      modifies this
      ensures Valid()
      ensures history == old(history)[symbol := Window((if symbol in old(history) then old(history)[symbol] else []) + klines, params.historySize)]
      ensures config == old(config)
    {
      var start := if symbol in history then history[symbol] else [];
      var h := AppendBounded(start, klines, params.historySize);
      history := history[symbol := h];
    }

    /** `calculate_atr(symbol)`: the true ranges are collected oldest first and the first
        `atr_period` of them averaged. */
    method CalculateAtr(symbol: string) returns (a: Option<F64>)
      ensures symbol !in history ==> a == None
      ensures symbol in history ==> a == Atr(history[symbol], params.atrPeriod)
    {
      if symbol !in history {
        return None;
      }
      var ks := history[symbol];
      if |ks| < params.atrPeriod + 1 {
        return None;
      }
      var trueRanges := CollectTrueRanges(ks);
      var sum := SumPrefix(trueRanges, params.atrPeriod);
      return Some(Divide(sum, params.atrPeriod as real));
    }

    /** `get_volatility(symbol)`. */
    function GetVolatility(symbol: string): (v: Option<F64>)
      reads this
      ensures symbol !in history ==> v == None
      ensures symbol in history ==> (v.Some? <==> |history[symbol]| >= params.atrPeriod + 1)
    {
      if symbol in history then Volatility(history[symbol], params.atrPeriod) else None
    }

    /** `is_volatility_high(symbol)`: false when the volatility is undefined, otherwise whether
        it is at least the limit. */
    function IsVolatilityHigh(symbol: string): (b: bool)
      reads this
      ensures GetVolatility(symbol).None? ==> !b
      ensures GetVolatility(symbol).Some? ==> (b <==> AtLeast(GetVolatility(symbol).value, params.maxAtrRatio))
    {
      match GetVolatility(symbol)
        case None => false
        case Some(v) => AtLeast(v, params.maxAtrRatio)
    }

    /** `clear_history(symbol)`. */
    method ClearHistory(symbol: string)
      requires Valid()
      modifies this
      ensures Valid()
      ensures history == old(history) - {symbol} && config == old(config)
    {
      history := history - {symbol};
    }

    /** `tracked_symbols_count()`. */
    function TrackedSymbolsCount(): (n: nat)
      reads this
      ensures n == |history.Keys|
    {
      |history|
    }

    /** `check(context)`: disabled, it never fires; enabled, it fires at the first position whose
        symbol is too volatile. */
    method Check(ctx: RiskContext) returns (triggered: bool)
      ensures triggered <==> config.enabled && exists i :: 0 <= i < |ctx.positions| && IsVolatilityHigh(ctx.positions[i].symbol)
    {
      if !config.enabled {
        return false;
      }
      var i := 0;
      while i < |ctx.positions|
        invariant 0 <= i <= |ctx.positions|
        invariant forall j :: 0 <= j < i ==> !IsVolatilityHigh(ctx.positions[j].symbol)
      {
        if IsVolatilityHigh(ctx.positions[i].symbol) {
          return true;
        }
        i := i + 1;
      }
      return false;
    }

    /** `update_config`. */
    method UpdateConfig(c: RiskRuleConfig) returns (r: Result<(), string>)
      modifies this
      ensures config == c && history == old(history) && r == Ok(())
    {
      config := c;
      return Ok(());
    }
  }

  /** `name()`. */
  const VolatilityLimitName := "volatility_limit"
}
