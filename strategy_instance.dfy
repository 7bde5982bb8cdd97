/** A running copy of a strategy: its identity and settings, fixed at creation, and its life
    cycle (stopped, running, error) with start and stop times, the last error and the trading
    statistics. The clock reading and the generated id are parameters. */
module StrategyInstances {
  import opened Wrappers

  const Stopped := "stopped"
  const Running := "running"
  const Failed := "error"

  /** `CreateInstanceRequest`, with the strategy parameters already serialized. */
  datatype CreateInstanceRequest = CreateInstanceRequest(
    strategyId: string, userId: string, name: string, parameters: string,
    exchangeId: string, symbol: string, timeframe: string, mode: string)

  /** The statuses the mutators can set. */
  predicate KnownStatus(s: string) {
    s == Stopped || s == Running || s == Failed
  }

  /** The life-cycle facts every instance keeps, whatever sequence of mutators ran:
      a running instance has a start time and neither a stop time nor an error; a failed
      instance has its error; an error or a start that is over comes with a stop time. */
  predicate LifeCycle(status: string, errorMessage: Option<string>, startTime: Option<int>,
                      stopTime: Option<int>)
  {
    && KnownStatus(status)
    && (status == Running ==> startTime.Some? && stopTime.None? && errorMessage.None?)
    && (status == Failed ==> errorMessage.Some?)
    && (errorMessage.Some? ==> stopTime.Some?)
    && (startTime.Some? && status != Running ==> stopTime.Some?)
  }

  /** A stopped instance without a stop time has never been started and has never failed. */
  lemma NeverRunUnlessStopTime(status: string, errorMessage: Option<string>, startTime: Option<int>,
                               stopTime: Option<int>)
    requires LifeCycle(status, errorMessage, startTime, stopTime)
    requires status == Stopped && stopTime.None?
    ensures startTime.None? && errorMessage.None?
  {
  }

  /** Only a running instance lacks a stop time once it has started. */
  lemma StartedWithoutStopIsRunning(status: string, errorMessage: Option<string>, startTime: Option<int>,
                                    stopTime: Option<int>)
    requires LifeCycle(status, errorMessage, startTime, stopTime)
    requires startTime.Some? && stopTime.None?
    ensures status == Running && errorMessage.None?
  {
  }

  /** `StrategyInstance`. */
  class StrategyInstance {
    const id: string
    const strategyId: string
    const userId: string
    const name: string
    const parameters: string
    const exchangeId: string
    const symbol: string
    const timeframe: string
    const mode: string
    const createdAt: int
    var status: string
    var errorMessage: Option<string>
    var startTime: Option<int>
    var stopTime: Option<int>
    var totalTrades: int
    var totalPnl: real
    var maxDrawdown: real
    var updatedAt: int

    predicate Valid()
      reads this
    {
      LifeCycle(status, errorMessage, startTime, stopTime)
    }

    /** `new(req)`: a stopped instance with no history and zero statistics, created and
        updated now. */
    constructor (req: CreateInstanceRequest, newId: string, now: int)
      ensures Valid()
      ensures id == newId && strategyId == req.strategyId && userId == req.userId && name == req.name
      ensures parameters == req.parameters && exchangeId == req.exchangeId && symbol == req.symbol
      ensures timeframe == req.timeframe && mode == req.mode
      ensures status == Stopped && errorMessage.None? && startTime.None? && stopTime.None?
      ensures totalTrades == 0 && totalPnl == 0.0 && maxDrawdown == 0.0
      ensures createdAt == now && updatedAt == now
    {
      id := newId;
      strategyId := req.strategyId;
      userId := req.userId;
      name := req.name;
      parameters := req.parameters;
      exchangeId := req.exchangeId;
      symbol := req.symbol;
      timeframe := req.timeframe;
      mode := req.mode;
      status := Stopped;
      errorMessage := None;
      startTime := None;
      stopTime := None;
      totalTrades := 0;
      totalPnl := 0.0;
      maxDrawdown := 0.0;
      createdAt := now;
      updatedAt := now;
    }

    /** `mark_running()`: starts now, forgetting the previous stop and error. */
    method MarkRunning(now: int)
      requires Valid()
      modifies this
      ensures Valid()
      ensures status == Running && startTime == Some(now) && stopTime.None? && errorMessage.None?
      ensures updatedAt == now
      ensures totalTrades == old(totalTrades) && totalPnl == old(totalPnl) && maxDrawdown == old(maxDrawdown)
    {
      status := Running;
      startTime := Some(now);
      stopTime := None;
      errorMessage := None;
      updatedAt := now;
    }

    /** `mark_stopped()`: stops now; the start time and any earlier error are kept. */
    method MarkStopped(now: int)
      requires Valid()
      modifies this
      ensures Valid()
      ensures status == Stopped && stopTime == Some(now) && updatedAt == now
      ensures startTime == old(startTime) && errorMessage == old(errorMessage)
      ensures totalTrades == old(totalTrades) && totalPnl == old(totalPnl) && maxDrawdown == old(maxDrawdown)
    {
      status := Stopped;
      stopTime := Some(now);
      updatedAt := now;
    }

    /** `mark_error(error)`: fails now with the message; the start time is kept. */
    method MarkError(error: string, now: int)
      requires Valid()
      modifies this
      ensures Valid()
      ensures status == Failed && errorMessage == Some(error) && stopTime == Some(now) && updatedAt == now
      ensures startTime == old(startTime)
      ensures totalTrades == old(totalTrades) && totalPnl == old(totalPnl) && maxDrawdown == old(maxDrawdown)
    {
      status := Failed;
      errorMessage := Some(error);
      stopTime := Some(now);
      updatedAt := now;
    }

    /** `update_stats(trades, pnl, drawdown)`: overwrites the three statistics; only the update
        time changes besides. */
    method UpdateStats(trades: int, pnl: real, drawdown: real, now: int)
      requires Valid()
      modifies this
      ensures Valid()
      ensures totalTrades == trades && totalPnl == pnl && maxDrawdown == drawdown && updatedAt == now
      ensures status == old(status) && errorMessage == old(errorMessage)
      ensures startTime == old(startTime) && stopTime == old(stopTime)
    {
      totalTrades := trades;
      totalPnl := pnl;
      maxDrawdown := drawdown;
      updatedAt := now;
    }
  }
}
