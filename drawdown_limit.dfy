/** The drawdown limit rule: the equity of each strategy instance is compared with the highest
    equity recorded for it, and the rule fires when the fall exceeds a percentage. */
module DrawdownLimits {
  import opened Wrappers
  import opened TradeTypes
  import opened RiskRules

  function Max(a: real, b: real): real { if a >= b then a else b }

  /** `calculate_drawdown(current, peak)`: the fall from the peak in percent, never negative;
      no peak means no drawdown and negative equity means the whole peak is lost. */
  function Drawdown(current: real, peak: real): (d: real)
    ensures 0.0 <= d <= 100.0
    ensures peak <= 0.0 || current >= peak ==> d == 0.0
    ensures peak > 0.0 && current < 0.0 ==> d == 100.0
    ensures peak > 0.0 && 0.0 <= current ==> d * peak == (peak - current) * 100.0 || (current >= peak && d == 0.0)
  {
    if peak <= 0.0 then 0.0
    else if current < 0.0 then 100.0
    else
      var raw := (peak - current) / peak * 100.0;
      RawDrawdownRange(current, peak);
      Max(raw, 0.0)
  }

  lemma RawDrawdownRange(current: real, peak: real)
    requires peak > 0.0 && current >= 0.0
    ensures (peak - current) / peak * 100.0 <= 100.0
    ensures (peak - current) / peak * 100.0 * peak == (peak - current) * 100.0
    ensures current >= peak ==> (peak - current) / peak * 100.0 <= 0.0
    ensures current < peak ==> (peak - current) / peak * 100.0 > 0.0
  {
    var q := (peak - current) / peak;
    assert q * peak == peak - current;
    assert q * peak <= 1.0 * peak;
    assert q <= 1.0;
  }

  /** With the peak fixed, less equity never means a smaller drawdown. */
  lemma DrawdownMonotone(lower: real, higher: real, peak: real)
    requires lower <= higher
    ensures Drawdown(lower, peak) >= Drawdown(higher, peak)
  {
    if peak > 0.0 && lower >= 0.0 {
      RawMonotone(lower, higher, peak);
    }
  }

  lemma RawMonotone(lower: real, higher: real, peak: real)
    requires lower <= higher && peak > 0.0
    ensures (peak - lower) / peak * 100.0 >= (peak - higher) / peak * 100.0
  {
  }

  /** For a positive peak, a non-negative equity and a non-negative limit, the drawdown is over
      the limit exactly when the equity is below `peak · (1 − limit/100)`. */
  lemma DrawdownThreshold(current: real, peak: real, limit: real)
    requires peak > 0.0 && current >= 0.0 && limit >= 0.0
    ensures Drawdown(current, peak) > limit <==> current < peak * (1.0 - limit / 100.0)
  {
    RawDrawdownRange(current, peak);
    var raw := (peak - current) / peak * 100.0;
    ScaledComparison(raw, peak, current, limit);
  }

  lemma ScaledComparison(raw: real, peak: real, current: real, limit: real)
    requires peak > 0.0 && raw * peak == (peak - current) * 100.0
    ensures raw > limit <==> current < peak * (1.0 - limit / 100.0)
  {
    assert raw > limit <==> raw * peak > limit * peak;
  }

  /** The values the rule's tests expect. */
  lemma DrawdownExamples()
    ensures Drawdown(1000.0, 1000.0) == 0.0 && Drawdown(900.0, 1000.0) == 10.0
    ensures Drawdown(500.0, 1000.0) == 50.0 && Drawdown(0.0, 1000.0) == 100.0
    ensures Drawdown(100.0, 0.0) == 0.0 && Drawdown(-100.0, 1000.0) == 100.0
  {
  }

  /** `Σ (quantity · entry_price + unrealized_pnl)`, summed front to back. */
  function PositionEquity(ps: seq<Position>): real {
    if ps == [] then 0.0
    else PositionEquity(ps[..|ps| - 1]) + (PositionValue(ps[|ps| - 1]) + ps[|ps| - 1].unrealizedPnl)
  }

  /** `calculate_total_equity`: the balance plus the position equity, which is the context's
      total position value plus its total unrealized profit. */
  function TotalEquity(ctx: RiskContext): (e: real)
    ensures e == ctx.balance + TotalPositionValue(ctx) + TotalUnrealizedPnl(ctx)
  {
    EquitySplits(ctx.positions);
    ctx.balance + PositionEquity(ctx.positions)
  }

  lemma {:induction false} EquitySplits(ps: seq<Position>)
    ensures PositionEquity(ps) == TotalValue(ps) + TotalUpnl(ps)
  {
    if ps != [] {
      EquitySplits(ps[..|ps| - 1]);
    }
  }

  /** The peak table after recording `equity` for `id`: the first value recorded, later the
      larger of the old peak and the new value. */
  function RaisePeak(peaks: map<string, real>, id: string, equity: real): (r: map<string, real>)
    ensures r.Keys == peaks.Keys + {id}
    ensures r[id] >= equity && (id in peaks ==> r[id] >= peaks[id])
    ensures r[id] == equity || (id in peaks && r[id] == peaks[id])
    ensures forall k :: k in peaks && k != id ==> r[k] == peaks[k]
  {
    peaks[id := if id in peaks then Max(peaks[id], equity) else equity]
  }

  /** Recording never lowers a peak and never forgets an instance. */
  lemma PeaksNeverDecrease(peaks: map<string, real>, id: string, equity: real)
    ensures forall k :: k in peaks ==> k in RaisePeak(peaks, id, equity) && RaisePeak(peaks, id, equity)[k] >= peaks[k]
  {
  }

  /** The peak is the largest value recorded so far. */
  function PeakOf(values: seq<real>): (m: real)
    requires values != []
    ensures forall i :: 0 <= i < |values| ==> values[i] <= m
    ensures exists i :: 0 <= i < |values| && values[i] == m
  {
    if |values| == 1 then values[0]
    else
      var m := PeakOf(values[..|values| - 1]);
      assert forall i :: 0 <= i < |values| - 1 ==> values[i] == values[..|values| - 1][i];
      Max(m, values[|values| - 1])
  }

  /** Recording the values one after another leaves the largest of them as the peak. */
  lemma {:induction false} RecordingKeepsMaximum(peaks: map<string, real>, id: string, values: seq<real>)
    requires values != [] && id !in peaks
    ensures RecordAll(peaks, id, values)[id] == PeakOf(values)
  {
    if |values| > 1 {
      RecordingKeepsMaximum(peaks, id, values[..|values| - 1]);
    }
  }

  function RecordAll(peaks: map<string, real>, id: string, values: seq<real>): (r: map<string, real>)
    ensures values != [] ==> id in r
  {
    if values == [] then peaks else RaisePeak(RecordAll(peaks, id, values[..|values| - 1]), id, values[|values| - 1])
  }

  /** `DrawdownLimitRule`. */
  class DrawdownLimitRule {
    var config: RiskRuleConfig
    var maxDrawdownPct: real
    var peakEquity: map<string, real>

    /** `new(max)`: close positions, notify through DingTalk and email, no peaks yet. */
    constructor (maxPct: real)
      ensures config == RiskRuleConfig(true, ClosePositions, ["dingtalk", "email"])
      ensures maxDrawdownPct == maxPct && peakEquity == map[]
    {
      config := RiskRuleConfig(true, ClosePositions, ["dingtalk", "email"]);
      maxDrawdownPct := maxPct;
      peakEquity := map[];
    }

    /** `with_config(max, config)`. */
    constructor WithConfig(maxPct: real, c: RiskRuleConfig)
      ensures config == c && maxDrawdownPct == maxPct && peakEquity == map[]
    {
      config := c;
      maxDrawdownPct := maxPct;
      peakEquity := map[];
    }

    /** `update_peak(instance_id, equity)`. */
    method UpdatePeak(id: string, equity: real)
      modifies this
      ensures peakEquity == RaisePeak(old(peakEquity), id, equity)
      ensures config == old(config) && maxDrawdownPct == old(maxDrawdownPct)
    {
      var peak := if id in peakEquity then peakEquity[id] else equity;
      peakEquity := peakEquity[id := Max(peak, equity)];
    }

    /** `get_peak(instance_id)`. */
    function GetPeak(id: string): (r: Option<real>)
      reads this
      ensures r.Some? <==> id in peakEquity
      ensures r.Some? ==> r.value == peakEquity[id]
    {
      if id in peakEquity then Some(peakEquity[id]) else None
    }

    /** `set_max_drawdown_pct(value)`. */
    method SetMaxDrawdownPct(value: real)
      modifies this
      ensures maxDrawdownPct == value && config == old(config) && peakEquity == old(peakEquity)
    {
      maxDrawdownPct := value;
    }

    /** `update_config(config)`. */
    method UpdateConfig(c: RiskRuleConfig) returns (r: Result<(), string>)
      modifies this
      ensures config == c && r == Ok(())
      ensures maxDrawdownPct == old(maxDrawdownPct) && peakEquity == old(peakEquity)
    {
      config := c;
      return Ok(());
    }

    /** `check(context)`: the drawdown of the current equity from the instance's recorded peak,
        or from the current equity itself when none is recorded, strictly over the limit. The
        check records nothing. */
    function Check(ctx: RiskContext): (triggered: bool)
      reads this
      ensures triggered ==> Drawdown(TotalEquity(ctx), GetPeak(ctx.instanceId).GetOr(TotalEquity(ctx))) > maxDrawdownPct
      ensures ctx.instanceId !in peakEquity ==> (triggered <==> maxDrawdownPct < 0.0)
      ensures maxDrawdownPct >= 100.0 ==> !triggered
    {
      var equity := TotalEquity(ctx);
      var peak := GetPeak(ctx.instanceId).GetOr(equity);
      Drawdown(equity, peak) > maxDrawdownPct
    }

    /** With a non-negative limit, equity at or above the recorded peak never fires the rule, and
        a positive peak fires it exactly when the equity falls below `peak · (1 − max/100)`. */
    lemma CheckAgainstPeak(ctx: RiskContext)
      requires ctx.instanceId in peakEquity && maxDrawdownPct >= 0.0
      ensures TotalEquity(ctx) >= peakEquity[ctx.instanceId] ==> !Check(ctx)
      ensures peakEquity[ctx.instanceId] > 0.0 && TotalEquity(ctx) >= 0.0 ==>
        (Check(ctx) <==> TotalEquity(ctx) < peakEquity[ctx.instanceId] * (1.0 - maxDrawdownPct / 100.0))
    {
      var peak := peakEquity[ctx.instanceId];
      if peak > 0.0 && TotalEquity(ctx) >= 0.0 {
        DrawdownThreshold(TotalEquity(ctx), peak, maxDrawdownPct);
      }
    }
  }

  /** `name()`. */
  const DrawdownLimitName := "drawdown_limit"
}
