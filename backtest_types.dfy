/** The records of a backtest: its configuration, its result with the trade list and the
    equity and drawdown curves, and the job that tracks a run from pending to completed or
    failed. `f64` fields are reals; the one quotient that may divide by zero is an `F64`. */
module BacktestTypes {
  import opened Wrappers
  import opened Floats

  /** `BacktestConfig`; the fee, slippage, position ratio and stop loss are percentages. */
  datatype BacktestConfig = BacktestConfig(
    strategyId: string, symbol: string, timeframe: string, startTime: int, endTime: int,
    initialCapital: real, feeRate: real, slippage: real, maxPositions: nat,
    maxPositionRatio: real, stopLossRatio: real)

  /** `TradeDetail`. */
  datatype TradeDetail = TradeDetail(
    id: nat, entryTime: int, exitTime: Option<int>, side: string, entryPrice: real,
    exitPrice: Option<real>, quantity: real, value: real, fee: real, pnl: Option<real>,
    balance: real, exitReason: Option<string>)

  datatype EquityPoint = EquityPoint(time: int, equity: real)

  /** A drawdown point; the drawdown is a percentage stored as a value at most zero. */
  datatype DrawdownPoint = DrawdownPoint(time: int, drawdown: real)

  datatype MonthlyReturn = MonthlyReturn(year: int, month: nat, returnValue: real)

  /** `BacktestResult`. `totalReturn` is `(profit / initial_capital) * 100`, which is infinite or
      NaN for a zero initial capital. */
  datatype BacktestResult = BacktestResult(
    id: string, strategyId: string, symbol: string, timeframe: string, startTime: int, endTime: int,
    initialCapital: real, finalCapital: real, profit: real, totalReturn: F64,
    peakCapital: real, troughCapital: real,
    maxDrawdown: real, avgDrawdown: real, maxDrawdownDuration: int, sharpeRatio: real,
    sortinoRatio: Option<real>, calmarRatio: Option<real>,
    totalTrades: nat, winningTrades: nat, losingTrades: nat, winRate: real, avgWin: real,
    avgLoss: real, profitFactor: real, expectedValue: real, maxConsecutiveWins: nat,
    maxConsecutiveLosses: nat, maxSingleWin: real, maxSingleLoss: real,
    avgCapitalUtilization: real,
    trades: seq<TradeDetail>, equityCurve: seq<EquityPoint>, drawdownCurve: seq<DrawdownPoint>,
    monthlyReturns: seq<MonthlyReturn>)

  datatype BacktestStatus = Pending | Running | Completed | Failed

  /** A `u8`. */
  type Byte = x: nat | x < 256

  /** `BacktestJob`. The job id is `bt_` followed by a generated uuid, given as a parameter. */
  class BacktestJob {
    const id: string
    const config: BacktestConfig
    var status: BacktestStatus
    var progress: nat
    var result: Option<BacktestResult>
    var error: Option<string>
    const createdAt: int
    var updatedAt: int

    /** The progress is a percentage. */
    predicate Valid()
      reads this
    {
      progress <= 100
    }

    /** `new(config)`: pending, no progress, no result and no error, created and updated now. */
    constructor (config: BacktestConfig, uuid: string, now: int)
      ensures Valid()
      ensures id == "bt_" + uuid && this.config == config
      ensures status == Pending && progress == 0 && result.None? && error.None?
      ensures createdAt == now && updatedAt == now
    {
      id := "bt_" + uuid;
      this.config := config;
      status := Pending;
      progress := 0;
      result := None;
      error := None;
      createdAt := now;
      updatedAt := now;
    }

    /** A copy, as `clone()` makes. */
    constructor Clone(other: BacktestJob)
      ensures SameAs(other)
    {
      id := other.id;
      config := other.config;
      status := other.status;
      progress := other.progress;
      result := other.result;
      error := other.error;
      createdAt := other.createdAt;
      updatedAt := other.updatedAt;
    }

    /** Whether the two jobs hold the same values. */
    predicate SameAs(other: BacktestJob)
      reads this, other
    {
      && id == other.id && config == other.config && status == other.status
      && progress == other.progress && result == other.result && error == other.error
      && createdAt == other.createdAt && updatedAt == other.updatedAt
    }

    /** `update_status(status)`: only the status and the update time change. */
    method UpdateStatus(s: BacktestStatus, now: int)
      modifies this
      ensures status == s && updatedAt == now
      ensures progress == old(progress) && result == old(result) && error == old(error)
    {
      status := s;
      updatedAt := now;
    }

    /** `update_progress(progress)`: the progress, capped at 100. */
    method UpdateProgress(p: Byte, now: int)
      modifies this
      ensures Valid()
      ensures progress == if p <= 100 then p else 100
      ensures progress <= p
      ensures updatedAt == now
      ensures status == old(status) && result == old(result) && error == old(error)
    {
      progress := if p < 100 then p else 100;
      updatedAt := now;
    }

    /** `set_result(result)`: completed, at full progress, holding the result; an earlier error
        is kept. */
    method SetResult(r: BacktestResult, now: int)
      modifies this
      ensures Valid()
      ensures result == Some(r) && status == Completed && progress == 100 && updatedAt == now
      ensures error == old(error)
    {
      result := Some(r);
      status := Completed;
      progress := 100;
      updatedAt := now;
    }

    /** `set_error(error)`: failed, holding the message; the progress and any result are
        kept. */
    method SetError(e: string, now: int)
      requires Valid()
      modifies this
      ensures Valid()
      ensures error == Some(e) && status == Failed && updatedAt == now
      ensures progress == old(progress) && result == old(result)
    {
      error := Some(e);
      status := Failed;
      updatedAt := now;
    }
  }
}
