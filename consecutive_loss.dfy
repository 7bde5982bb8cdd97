/** The consecutive loss limit rule: per strategy instance it counts losing trades in a row, and
    once the count reaches the limit the instance cools down for a fixed period during which
    recorded trades are ignored. The wall clock is the parameter `now`, in seconds. */
module ConsecutiveLosses {
  import opened Wrappers
  import opened RiskRules

  /** `ConsecutiveLossLimitParams`. */
  datatype LossParams = LossParams(maxConsecutiveLosses: nat, minLossThreshold: real, coolingPeriodSeconds: nat)

  /** `ConsecutiveLossLimitParams::default()`: three losses, of more than 1.0 each, one hour. */
  function DefaultParams(): (p: LossParams)
    ensures p.maxConsecutiveLosses == 3 && p.minLossThreshold == 1.0 && p.coolingPeriodSeconds == 3600
  {
    LossParams(3, 1.0, 3600)
  }

  /** The tracked state of one instance: the loss count, the time of the last recorded trade and
      the time the rule fired, if it has. */
  datatype Streak = Streak(count: nat, lastTime: int, triggered: Option<int>)

  /** A loss large enough to count: below minus the threshold. */
  predicate CountsAsLoss(p: LossParams, pnl: real) { pnl < -p.minLossThreshold }

  /** The instance fired less than the cooling period ago. */
  predicate Cooling(p: LossParams, s: Streak, now: int) {
    s.triggered.Some? && now - s.triggered.value < p.coolingPeriodSeconds
  }

  /** `record_trade(instance_id, pnl)` on the tracking table. */
  function Recorded(data: map<string, Streak>, p: LossParams, id: string, pnl: real, now: int): (r: map<string, Streak>)
    ensures r.Keys == data.Keys + {id}
    ensures forall k :: k in data && k != id ==> r[k] == data[k]
    ensures id !in data ==> r[id] == Streak(if CountsAsLoss(p, pnl) then 1 else 0, now, None)
    ensures id in data && Cooling(p, data[id], now) ==> r == data
    ensures id in data && !Cooling(p, data[id], now) ==>
      r[id].triggered == None && r[id].lastTime == now &&
      r[id].count == (if CountsAsLoss(p, pnl) then data[id].count + 1
                      else if pnl > 0.0 then 0 else data[id].count)
  {
    if id in data then
      var s := data[id];
      if Cooling(p, s, now) then data
      else
        var count := if CountsAsLoss(p, pnl) then s.count + 1 else if pnl > 0.0 then 0 else s.count;
        data[id := Streak(count, now, None)]
    else
      data[id := Streak(if CountsAsLoss(p, pnl) then 1 else 0, now, None)]
  }

  /** Recording a trade never starts a cooling period: afterwards the instance is either
      untouched (it was cooling) or has no trigger time. */
  lemma RecordingNeverTriggers(data: map<string, Streak>, p: LossParams, id: string, pnl: real, now: int)
    ensures Recorded(data, p, id, pnl, now)[id].triggered == None || Recorded(data, p, id, pnl, now) == data
  {
  }

  /** `get_consecutive_count`: zero for an unknown instance. */
  function CountOf(data: map<string, Streak>, id: string): (n: nat)
    ensures id !in data ==> n == 0
    ensures id in data ==> n == data[id].count
  {
    if id in data then data[id].count else 0
  }

  /** `reset_count`: zero count and no trigger time; nothing for an unknown instance. */
  function ResetData(data: map<string, Streak>, id: string): (r: map<string, Streak>)
    ensures id !in data ==> r == data
    ensures r.Keys == data.Keys
    ensures id in data ==> r[id] == data[id].(count := 0, triggered := None)
    ensures forall k :: k in data && k != id ==> r[k] == data[k]
  {
    if id in data then data[id := data[id].(count := 0, triggered := None)] else data
  }

  /** Losses recorded one after another, outside any cooling period. */
  function RecordAll(data: map<string, Streak>, p: LossParams, id: string, pnls: seq<real>, now: int): map<string, Streak> {
    if pnls == [] then data
    else Recorded(RecordAll(data, p, id, pnls[..|pnls| - 1], now), p, id, pnls[|pnls| - 1], now)
  }

  /** Starting from no record of the instance, `n` countable losses give the count `n`, and since
      recording never sets a trigger time the instance is not cooling afterwards. */
  lemma {:induction false} LossStreak(data: map<string, Streak>, p: LossParams, id: string, pnls: seq<real>, now: int)
    requires id !in data && pnls != []
    requires forall i :: 0 <= i < |pnls| ==> CountsAsLoss(p, pnls[i])
    ensures id in RecordAll(data, p, id, pnls, now)
    ensures CountOf(RecordAll(data, p, id, pnls, now), id) == |pnls|
    ensures !Cooling(p, RecordAll(data, p, id, pnls, now)[id], now)
  {
    if |pnls| > 1 {
      var front := pnls[..|pnls| - 1];
      LossStreak(data, p, id, front, now);
    }
  }

  /** With a non-negative threshold, a win after any history of the instance clears the count
      unless it is cooling. */
  lemma WinResets(data: map<string, Streak>, p: LossParams, id: string, pnl: real, now: int)
    requires p.minLossThreshold >= 0.0
    requires pnl > 0.0 && (id in data ==> !Cooling(p, data[id], now))
    ensures CountOf(Recorded(data, p, id, pnl, now), id) == 0
  {
  }

  /** `is_in_cooling_period`. */
  function InCoolingPeriod(data: map<string, Streak>, p: LossParams, id: string, now: int): (b: bool)
    ensures b ==> id in data && data[id].triggered.Some?
  {
    id in data && Cooling(p, data[id], now)
  }

  /** `cooling_time_remaining`: positive exactly while cooling, never above the period. */
  function CoolingTimeRemaining(data: map<string, Streak>, p: LossParams, id: string, now: int): (t: nat)
    ensures t > 0 <==> InCoolingPeriod(data, p, id, now)
    ensures t <= p.coolingPeriodSeconds || (id in data && data[id].triggered.Some? && now < data[id].triggered.value)
    ensures t > 0 ==> now + t == data[id].triggered.value + p.coolingPeriodSeconds
  {
    if id in data && data[id].triggered.Some? then
      var elapsed := now - data[id].triggered.value;
      if elapsed < p.coolingPeriodSeconds then p.coolingPeriodSeconds - elapsed else 0
    else 0
  }

  /** The outcome of `check`: whether it fires, and the tracking table afterwards. */
  datatype CheckOutcome = CheckOutcome(triggered: bool, data: map<string, Streak>)

  /** `check(context)`: a disabled rule does nothing; a countable loss is recorded and fires the
      rule when the count reaches the limit, stamping the trigger time unless one is set; a win
      resets the instance; anything else changes nothing. */
  function CheckData(data: map<string, Streak>, p: LossParams, enabled: bool, ctx: RiskContext, now: int): (o: CheckOutcome)
    ensures !enabled ==> o == CheckOutcome(false, data)
    ensures enabled ==> (o.triggered <==> CountsAsLoss(p, ctx.todayPnl) &&
                                          CountOf(Recorded(data, p, ctx.instanceId, ctx.todayPnl, now), ctx.instanceId) >= p.maxConsecutiveLosses)
    ensures o.triggered ==> ctx.instanceId in o.data && o.data[ctx.instanceId].triggered.Some?
    ensures o.triggered ==> o.data[ctx.instanceId].count >= p.maxConsecutiveLosses
    ensures enabled && !CountsAsLoss(p, ctx.todayPnl) && ctx.todayPnl > 0.0 ==> o.data == ResetData(data, ctx.instanceId)
    ensures enabled && !CountsAsLoss(p, ctx.todayPnl) && ctx.todayPnl <= 0.0 ==> o.data == data
  {
    var id := ctx.instanceId;
    if !enabled then CheckOutcome(false, data)
    else if CountsAsLoss(p, ctx.todayPnl) then
      var recorded := Recorded(data, p, id, ctx.todayPnl, now);
      if CountOf(recorded, id) >= p.maxConsecutiveLosses then
        var s := recorded[id];
        CheckOutcome(true, if s.triggered.None? then recorded[id := s.(triggered := Some(now))] else recorded)
      else CheckOutcome(false, recorded)
    else if ctx.todayPnl > 0.0 then CheckOutcome(false, ResetData(data, id))
    else CheckOutcome(false, data)
  }

  /** Once fired, the instance cools for the whole period: a check at the same moment that fires
      leaves it cooling when the period is positive, and the trigger time it had is kept. */
  lemma FiringStartsCooling(data: map<string, Streak>, p: LossParams, ctx: RiskContext, now: int)
    requires p.coolingPeriodSeconds > 0
    requires CheckData(data, p, true, ctx, now).triggered
    requires ctx.instanceId in data ==> data[ctx.instanceId].triggered == None || Cooling(p, data[ctx.instanceId], now)
    ensures InCoolingPeriod(CheckData(data, p, true, ctx, now).data, p, ctx.instanceId, now)
  {
  }

  /** `ConsecutiveLossLimitRule`: the configuration, the parameters and the tracking table. */
  class ConsecutiveLossLimitRule {
    var config: RiskRuleConfig
    const params: LossParams
    var data: map<string, Streak>

    /** `new(params, action)`: enabled, logging only through the log. */
    constructor (p: LossParams, action: RiskAction)
      ensures config == RiskRuleConfig(true, action, ["log"]) && params == p && data == map[]
    {
      config := RiskRuleConfig(true, action, ["log"]);
      params := p;
      data := map[];
    }

    /** `default_with_warning()`. */
    constructor DefaultWithWarning()
      ensures config == RiskRuleConfig(true, Notify, ["log"]) && params == DefaultParams() && data == map[]
    {
      config := RiskRuleConfig(true, Notify, ["log"]);
      params := DefaultParams();
      data := map[];
    }

    /** `default_with_stop()`. */
    constructor DefaultWithStop()
      ensures config == RiskRuleConfig(true, PauseStrategy, ["log"]) && params == DefaultParams() && data == map[]
    {
      config := RiskRuleConfig(true, PauseStrategy, ["log"]);
      params := DefaultParams();
      data := map[];
    }

    /** `record_trade(instance_id, pnl)`. */
    method RecordTrade(id: string, pnl: real, now: int)
      modifies this
      ensures data == Recorded(old(data), params, id, pnl, now) && config == old(config)
    {
      if id in data {
        var s := data[id];
        if s.triggered.Some? {
          if now - s.triggered.value < params.coolingPeriodSeconds {
            return;
          }
          s := s.(triggered := None);
        }
        var count := s.count;
        if pnl < -params.minLossThreshold {
          count := count + 1;
        } else if pnl > 0.0 {
          count := 0;
        }
        data := data[id := Streak(count, now, s.triggered)];
      } else {
        var count := if pnl < -params.minLossThreshold then 1 else 0;
        data := data[id := Streak(count, now, None)];
      }
    }

    /** `get_consecutive_count`. */
    function GetConsecutiveCount(id: string): (n: nat)
      reads this
      ensures n == CountOf(data, id)
    {
      if id in data then data[id].count else 0
    }

    /** `reset_count`. */
    method ResetCount(id: string)
      modifies this
      ensures data == ResetData(old(data), id) && config == old(config)
    {
      if id in data {
        data := data[id := data[id].(count := 0, triggered := None)];
      }
    }

    /** `check(context)`. */
    method Check(ctx: RiskContext, now: int) returns (triggered: bool)
      modifies this
      ensures CheckOutcome(triggered, data) == CheckData(old(data), params, old(config).enabled, ctx, now)
      ensures config == old(config)
    {
      if !config.enabled {
        return false;
      }
      if ctx.todayPnl < -params.minLossThreshold {
        RecordTrade(ctx.instanceId, ctx.todayPnl, now);
        var updated := GetConsecutiveCount(ctx.instanceId);
        if updated >= params.maxConsecutiveLosses {
          if ctx.instanceId in data && data[ctx.instanceId].triggered.None? {
            data := data[ctx.instanceId := data[ctx.instanceId].(triggered := Some(now))];
          }
          return true;
        }
      } else if ctx.todayPnl > 0.0 {
        ResetCount(ctx.instanceId);
      }
      return false;
    }

    /** `update_config`. */
    method UpdateConfig(c: RiskRuleConfig) returns (r: Result<(), string>)
      modifies this
      ensures config == c && data == old(data) && r == Ok(())
    {
      config := c;
      return Ok(());
    }
  }

  /** `name()`. */
  const ConsecutiveLossName := "consecutive_loss_limit"
}
