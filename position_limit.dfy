/** The position limit rule: a single position's value, the total value and the share of long
    against short exposure are each held under a limit. */
module PositionLimits {
  import opened Wrappers
  import opened TradeTypes
  import opened RiskRules
  import opened Floats

  /** What a check found over its limit; the source formats these into a logged message. */
  datatype Breach =
    | SinglePosition(symbol: string, value: real, max: real)
    | TotalValueExceeded(total: real, max: real)
    | LongRatioExceeded(ratio: real, max: real)
    | ShortRatioExceeded(ratio: real, max: real)

  /** The value of the positions whose side is exactly `"long"`. */
  function LongValue(ps: seq<Position>): real {
    if ps == [] then 0.0
    else LongValue(ps[..|ps| - 1]) + (if ps[|ps| - 1].side == "long" then PositionValue(ps[|ps| - 1]) else 0.0)
  }

  /** `calculate_long_ratio`: the long share of the total value, 0.5 when the total is zero. */
  function LongRatio(ps: seq<Position>): (r: real)
    ensures TotalValue(ps) == 0.0 ==> r == 0.5
    ensures TotalValue(ps) != 0.0 ==> r * TotalValue(ps) == LongValue(ps)
  {
    var total := TotalValue(ps);
    if total == 0.0 then 0.5 else LongValue(ps) / total
  }

  /** Non-negative position values: the long value lies between zero and the total. */
  lemma {:induction false} LongValueBounds(ps: seq<Position>)
    requires forall i :: 0 <= i < |ps| ==> ps[i].quantity >= 0.0 && ps[i].entryPrice >= 0.0
    ensures 0.0 <= LongValue(ps) <= TotalValue(ps)
  {
    if ps != [] {
      LongValueBounds(ps[..|ps| - 1]);
      ProductNonNegative(ps[|ps| - 1].quantity, ps[|ps| - 1].entryPrice);
    }
  }

  /** When every position is long, the long value is the total value. */
  lemma {:induction false} AllLongValue(ps: seq<Position>)
    requires forall i :: 0 <= i < |ps| ==> ps[i].side == "long"
    ensures LongValue(ps) == TotalValue(ps)
  {
    if ps != [] {
      AllLongValue(ps[..|ps| - 1]);
    }
  }

  /** With non-negative values the long ratio is a fraction in [0, 1], and it is 1 when every
      position is long and the total is not zero. */
  lemma LongRatioBounds(ps: seq<Position>)
    requires forall i :: 0 <= i < |ps| ==> ps[i].quantity >= 0.0 && ps[i].entryPrice >= 0.0
    ensures 0.0 <= LongRatio(ps) <= 1.0
    ensures (forall i :: 0 <= i < |ps| ==> ps[i].side == "long") && TotalValue(ps) != 0.0 ==> LongRatio(ps) == 1.0
  {
    LongRatioInUnit(ps);
    if forall i :: 0 <= i < |ps| ==> ps[i].side == "long" {
      AllLongRatio(ps);
    }
  }

  lemma LongRatioInUnit(ps: seq<Position>)
    requires forall i :: 0 <= i < |ps| ==> ps[i].quantity >= 0.0 && ps[i].entryPrice >= 0.0
    ensures 0.0 <= LongRatio(ps) <= 1.0
  {
    LongValueBounds(ps);
    if TotalValue(ps) != 0.0 {
      FractionBounds(LongValue(ps), TotalValue(ps));
    }
  }

  lemma AllLongRatio(ps: seq<Position>)
    requires forall i :: 0 <= i < |ps| ==> ps[i].side == "long"
    ensures TotalValue(ps) != 0.0 ==> LongRatio(ps) == 1.0
  {
    AllLongValue(ps);
    var total := TotalValue(ps);
    if total != 0.0 {
      SelfQuotient(total);
    }
  }

  lemma SelfQuotient(x: real)
    requires x != 0.0
    ensures x / x == 1.0
  {
  }

  lemma FractionBounds(part: real, whole: real)
    requires 0.0 <= part <= whole && whole != 0.0
    ensures 0.0 <= part / whole <= 1.0
  {
  }

  /** `PositionLimitRule`: the three limits are fixed at construction, the configuration can be
      replaced. */
  class PositionLimitRule {
    var config: RiskRuleConfig
    const maxPositionValue: real
    const maxTotalValue: real
    const maxDirectionRatio: real

    /** `new(...)`: notify through DingTalk. */
    constructor (maxPosition: real, maxTotal: real, maxRatio: real)
      ensures config == RiskRuleConfig(true, Notify, ["dingtalk"])
      ensures maxPositionValue == maxPosition && maxTotalValue == maxTotal && maxDirectionRatio == maxRatio
    {
      config := RiskRuleConfig(true, Notify, ["dingtalk"]);
      maxPositionValue := maxPosition;
      maxTotalValue := maxTotal;
      maxDirectionRatio := maxRatio;
    }

    /** `with_config(...)`. */
    constructor WithConfig(maxPosition: real, maxTotal: real, maxRatio: real, c: RiskRuleConfig)
      ensures config == c
      ensures maxPositionValue == maxPosition && maxTotalValue == maxTotal && maxDirectionRatio == maxRatio
    {
      config := c;
      maxPositionValue := maxPosition;
      maxTotalValue := maxTotal;
      maxDirectionRatio := maxRatio;
    }

    /** Position `i` is the first whose value is over the single-position limit. */
    predicate FirstOverLimit(ps: seq<Position>, i: int)
      requires 0 <= i < |ps|
    {
      PositionValue(ps[i]) > maxPositionValue && forall j :: 0 <= j < i ==> PositionValue(ps[j]) <= maxPositionValue
    }

    /** `check_single_position_limit`: the first position over the limit, if any. */
    method CheckSinglePositionLimit(ps: seq<Position>) returns (b: Option<Breach>)
      ensures b.None? <==> forall i :: 0 <= i < |ps| ==> PositionValue(ps[i]) <= maxPositionValue
      ensures b.Some? ==> exists i :: 0 <= i < |ps| && FirstOverLimit(ps, i) &&
                            b.value == SinglePosition(ps[i].symbol, PositionValue(ps[i]), maxPositionValue)
    {
      var i := 0;
      while i < |ps|
        invariant 0 <= i <= |ps|
        invariant forall j :: 0 <= j < i ==> PositionValue(ps[j]) <= maxPositionValue
      {
        var value := ps[i].quantity * ps[i].entryPrice;
        if value > maxPositionValue {
          assert FirstOverLimit(ps, i);
          return Some(SinglePosition(ps[i].symbol, value, maxPositionValue));
        }
        i := i + 1;
      }
      return None;
    }

    /** `check_total_position_limit`. */
    function CheckTotalPositionLimit(ps: seq<Position>): (b: Option<Breach>)
      ensures b.Some? <==> TotalValue(ps) > maxTotalValue
      ensures b.Some? ==> b.value == TotalValueExceeded(TotalValue(ps), maxTotalValue)
    {
      var total := TotalValue(ps);
      if total > maxTotalValue then Some(TotalValueExceeded(total, maxTotalValue)) else None
    }

    /** `check_direction_balance`: the long side is checked before the short side. */
    function CheckDirectionBalance(ps: seq<Position>): (b: Option<Breach>)
      ensures b.Some? <==> LongRatio(ps) > maxDirectionRatio || 1.0 - LongRatio(ps) > maxDirectionRatio
      ensures b.Some? && b.value.ShortRatioExceeded? ==> LongRatio(ps) <= maxDirectionRatio
    {
      var longRatio := LongRatio(ps);
      var shortRatio := 1.0 - longRatio;
      if longRatio > maxDirectionRatio then Some(LongRatioExceeded(longRatio, maxDirectionRatio))
      else if shortRatio > maxDirectionRatio then Some(ShortRatioExceeded(shortRatio, maxDirectionRatio))
      else None
    }

    /** The rule fires when some position, the total or either side is strictly over its limit. */
    predicate Triggers(ps: seq<Position>) {
      (exists i :: 0 <= i < |ps| && PositionValue(ps[i]) > maxPositionValue) ||
      TotalValue(ps) > maxTotalValue ||
      LongRatio(ps) > maxDirectionRatio || 1.0 - LongRatio(ps) > maxDirectionRatio
    }

    /** `check(context)`: the three checks in order, stopping at the first breach. The
        configuration, `enabled` included, is not consulted. */
    method Check(ctx: RiskContext) returns (triggered: bool)
      ensures triggered <==> Triggers(ctx.positions)
    {
      var single := CheckSinglePositionLimit(ctx.positions);
      if single.Some? {
        return true;
      }
      if CheckTotalPositionLimit(ctx.positions).Some? {
        return true;
      }
      if CheckDirectionBalance(ctx.positions).Some? {
        return true;
      }
      return false;
    }

    /** Without positions the ratio is the neutral 0.5, so the rule fires only when the total
        limit is negative or the ratio limit is under one half. */
    lemma EmptyPositions()
      ensures Triggers([]) <==> 0.0 > maxTotalValue || 0.5 > maxDirectionRatio
    {
    }

    /** The limits are strict: one long position whose value equals both value limits passes
        when the ratio limit allows a fully long book. */
    lemma AtLimitPasses(p: Position)
      requires p.side == "long" && p.quantity >= 0.0 && p.entryPrice >= 0.0
      requires PositionValue(p) == maxPositionValue == maxTotalValue && maxDirectionRatio >= 1.0
      ensures !Triggers([p])
    {
      var ps := [p];
      assert ps[..0] == [];
      assert TotalValue(ps) == PositionValue(p);
      LongRatioBounds(ps);
    }

    /** `update_config`. */
    method UpdateConfig(c: RiskRuleConfig) returns (r: Result<(), string>)
      modifies this
      ensures config == c && r == Ok(())
    {
      config := c;
      return Ok(());
    }
  }

  /** `name()`. */
  const PositionLimitName := "position_limit"
}
