/** The backtest engine and the job service around it: a run replays historical klines, feeds
    each one to the strategy, turns its buy and sell signals into positions and trades, keeps
    the equity and drawdown curves, and ends with a result of summary statistics. The strategy
    script, the database and the clock are inputs: the signals the script returns, one per
    kline, the klines the database returns, the result id and `now`. */
module BacktestServices {
  import opened Wrappers
  import opened Floats
  import TradeTypes
  import opened BacktestTypes

  /** The strategy's signal for one kline. */
  datatype Signal = Signal(symbol: string, action: string, quantity: real, price: Option<real>)

  /** `BacktestPosition`: an open position of the simulated account. */
  datatype Position = Position(entryPrice: real, quantity: real, side: string, stopLoss: Option<real>)

  /** `f64::min` and `f64::max` on numbers. */
  function Min(a: real, b: real): real {
    if a <= b then a else b
  }

  function Max(a: real, b: real): real {
    if a >= b then a else b
  }

  /** A quotient whose divisor is zero only at a zero fill price; see the README. */
  function Quotient(a: real, b: real): real {
    if b == 0.0 then 0.0 else a / b
  }

  // ---------------------------------------------------------------------------------------
  // Signals

  /** The fill price: the signal's price, or the close, moved by the slippage percentage
      against the trader (up for a buy, down for anything else). */
  function AdjustedPrice(price: real, action: string, slippage: real): (p: real)
    ensures price >= 0.0 && slippage >= 0.0 && action == "buy" ==> p >= price
    ensures price >= 0.0 && slippage >= 0.0 && action != "buy" ==> p <= price
  {
    var shift := price * (slippage / 100.0);
    assert price >= 0.0 && slippage >= 0.0 ==> shift >= 0.0 by {
      if price >= 0.0 && slippage >= 0.0 {
        ProductNonNegative(price, slippage / 100.0);
      }
    }
    assert price * (1.0 + slippage / 100.0) == price + shift;
    assert price * (1.0 - slippage / 100.0) == price - shift;
    if action == "buy" then price * (1.0 + slippage / 100.0) else price * (1.0 - slippage / 100.0)
  }


  /** The stop loss a new position carries when the stop-loss ratio is positive. */
  function StopLoss(entry: real, ratio: real): (s: Option<real>)
    ensures s.Some? <==> ratio > 0.0
  {
    if ratio > 0.0 then Some(entry * (1.0 - ratio / 100.0)) else None
  }

  /** The fee on a traded value, at a percentage rate. */
  function Fee(value: real, feeRate: real): real {
    value * (feeRate / 100.0)
  }

  /** The simulated account: cash balance, fees paid and open positions. */
  datatype Account = Account(balance: real, totalFees: real, positions: seq<Position>)

  /** The value a buy commits: the requested value, capped at the position ratio of the
      balance. */
  function BuyValue(balance: real, adj: real, quantity: real, c: BacktestConfig): (v: real)
    ensures v <= balance * (c.maxPositionRatio / 100.0) && v <= adj * quantity
  {
    Min(adj * quantity, balance * (c.maxPositionRatio / 100.0))
  }

  /** A buy signal: nothing when the position limit is reached or the balance does not cover
      the value and its fee; otherwise the balance pays both and a buy position opens at the
      fill price. */
  function Buy(b: Account, c: BacktestConfig, adj: real, quantity: real): (r: Account)
    ensures |b.positions| >= c.maxPositions ==> r == b
    ensures r != b ==>
      && |b.positions| < c.maxPositions
      && |r.positions| == |b.positions| + 1 && r.positions[..|b.positions|] == b.positions
      && var p := r.positions[|b.positions|];
         p.side == "buy" && p.entryPrice == adj && p.stopLoss == StopLoss(adj, c.stopLossRatio)
    ensures b.balance >= 0.0 ==> r.balance >= 0.0
  {
    if |b.positions| >= c.maxPositions then b
    else
      var value := BuyValue(b.balance, adj, quantity, c);
      var fee := Fee(value, c.feeRate);
      if b.balance >= value + fee then
        var p := Position(adj, Quotient(value, adj), "buy", StopLoss(adj, c.stopLossRatio));
        Account(b.balance - (value + fee), b.totalFees + fee, b.positions + [p])
      else b
  }

  /** A buy spends exactly the committed value and its fee, and the value is within the
      position ratio of the balance it had. */
  lemma BuySpends(b: Account, c: BacktestConfig, adj: real, quantity: real)
    requires Buy(b, c, adj, quantity) != b
    ensures var value := BuyValue(b.balance, adj, quantity, c);
      && Buy(b, c, adj, quantity).balance == b.balance - (value + Fee(value, c.feeRate))
      && Buy(b, c, adj, quantity).totalFees == b.totalFees + Fee(value, c.feeRate)
      && value <= b.balance * (c.maxPositionRatio / 100.0)
      && |b.positions| < c.maxPositions
  {
  }

  /** The total quantity of the buy positions. */
  function BuyQuantity(ps: seq<Position>): real {
    if ps == [] then 0.0
    else BuyQuantity(ps[..|ps| - 1]) + (if ps[|ps| - 1].side == "buy" then ps[|ps| - 1].quantity else 0.0)
  }

  /** Quantities are never negative. */
  predicate NonNegativeQuantities(ps: seq<Position>) {
    forall i :: 0 <= i < |ps| ==> ps[i].quantity >= 0.0
  }

  /** The state of a sell's pass over the positions: the positions seen so far (reduced), the
      cash received, the fees paid, the profit and the quantity still to close. */
  datatype Closing = Closing(positions: seq<Position>, proceeds: real, fees: real, pnl: real, remaining: real)

  /** One position of the pass: a buy position is reduced by as much of the remaining quantity
      as it holds. */
  function CloseStep(s: Closing, p: Position, adj: real, feeRate: real): (r: Closing)
    ensures |r.positions| == |s.positions| + 1
  {
    if p.side == "buy" && s.remaining > 0.0 then
      var q := Min(p.quantity, s.remaining);
      var fee := Fee(adj * q, feeRate);
      Closing(s.positions + [p.(quantity := p.quantity - q)], s.proceeds + (adj * q - fee),
              s.fees + fee, s.pnl + ((adj - p.entryPrice) * q - fee), s.remaining - q)
    else Closing(s.positions + [p], s.proceeds, s.fees, s.pnl, s.remaining)
  }

  /** The whole pass over `ps`, front to back, closing `amount`. */
  function Close(ps: seq<Position>, amount: real, adj: real, feeRate: real): (r: Closing)
    ensures |r.positions| == |ps|
  {
    if ps == [] then Closing([], 0.0, 0.0, 0.0, amount)
    else CloseStep(Close(ps[..|ps| - 1], amount, adj, feeRate), ps[|ps| - 1], adj, feeRate)
  }

  /** With non-negative quantities, the pass leaves exactly the part of `amount` the buy
      positions could not cover, and reduces the buy quantity by what it closed. */
  lemma {:induction false} CloseAccounting(ps: seq<Position>, amount: real, adj: real, feeRate: real)
    requires NonNegativeQuantities(ps) && amount >= 0.0
    ensures Close(ps, amount, adj, feeRate).remaining == Max(0.0, amount - BuyQuantity(ps))
    ensures BuyQuantity(ps) - BuyQuantity(Close(ps, amount, adj, feeRate).positions)
            == amount - Close(ps, amount, adj, feeRate).remaining
    ensures NonNegativeQuantities(Close(ps, amount, adj, feeRate).positions)
  {
    if ps != [] {
      var init := ps[..|ps| - 1];
      var p := ps[|ps| - 1];
      assert NonNegativeQuantities(init) by {
        forall i | 0 <= i < |init| ensures init[i].quantity >= 0.0 {
          assert init[i] == ps[i];
        }
      }
      CloseAccounting(init, amount, adj, feeRate);
      var s := Close(init, amount, adj, feeRate);
      var r := CloseStep(s, p, adj, feeRate);
      assert r.positions[..|r.positions| - 1] == s.positions;
      assert p.quantity >= 0.0 by { assert p == ps[|ps| - 1]; }
    }
  }

  /** A sell closes exactly the requested quantity when the buy positions hold at least that
      much, and never more than they hold. */
  lemma SellClosesAtMostHeld(ps: seq<Position>, quantity: real, adj: real, feeRate: real)
    requires NonNegativeQuantities(ps) && quantity >= 0.0
    ensures var amount := Min(quantity, BuyQuantity(ps));
      var r := Close(ps, amount, adj, feeRate);
      && BuyQuantity(ps) - BuyQuantity(r.positions) == amount
      && amount <= BuyQuantity(ps)
      && r.remaining == 0.0
  {
    BuyQuantityNonNegative(ps);
    CloseAccounting(ps, Min(quantity, BuyQuantity(ps)), adj, feeRate);
  }

  lemma {:induction false} BuyQuantityNonNegative(ps: seq<Position>)
    requires NonNegativeQuantities(ps)
    ensures BuyQuantity(ps) >= 0.0
  {
    if ps != [] {
      var init := ps[..|ps| - 1];
      assert NonNegativeQuantities(init) by {
        forall i | 0 <= i < |init| ensures init[i].quantity >= 0.0 {
          assert init[i] == ps[i];
        }
      }
      BuyQuantityNonNegative(init);
      assert ps[|ps| - 1].quantity >= 0.0;
    }
  }

  /** `positions.retain(|p| p.quantity > 0.001)`: the positions above the dust threshold, in
      order. */
  function Retain(ps: seq<Position>): (r: seq<Position>)
    ensures |r| <= |ps|
    ensures forall i :: 0 <= i < |r| ==> r[i].quantity > 0.001
  {
    if ps == [] then []
    else if ps[0].quantity > 0.001 then [ps[0]] + Retain(ps[1..])
    else Retain(ps[1..])
  }

  /** `retain` keeps exactly the positions above the threshold. */
  lemma {:induction false} RetainKeeps(ps: seq<Position>, p: Position)
    ensures p in Retain(ps) <==> p in ps && p.quantity > 0.001
  {
    if ps != [] {
      RetainKeeps(ps[1..], p);
      assert p in ps <==> p == ps[0] || p in ps[1..];
    }
  }

  /** The body of the sell's loop for one position: a buy position gives up as much of the
      remaining quantity as it holds, at the fill price and less the fee. */
  method CloseOne(s: Closing, p: Position, adj: real, feeRate: real) returns (r: Closing)
    ensures r == CloseStep(s, p, adj, feeRate)
  {
    if p.side == "buy" && s.remaining > 0.0 {
      var q := Min(p.quantity, s.remaining);
      var fee := Fee(adj * q, feeRate);
      r := Closing(s.positions + [p.(quantity := p.quantity - q)], s.proceeds + (adj * q - fee),
                   s.fees + fee, s.pnl + ((adj - p.entryPrice) * q - fee), s.remaining - q);
    } else {
      r := Closing(s.positions + [p], s.proceeds, s.fees, s.pnl, s.remaining);
    }
  }

  /** The pass a sell makes over the positions, as the source's `for` loop. */
  method ClosePositions(ps: seq<Position>, amount: real, adj: real, feeRate: real) returns (c: Closing)
    ensures c == Close(ps, amount, adj, feeRate)
  {
    c := Closing([], 0.0, 0.0, 0.0, amount);
    var i := 0;
    while i < |ps|
      invariant 0 <= i <= |ps|
      invariant c == Close(ps[..i], amount, adj, feeRate)
    {
      assert ps[..i + 1][..i] == ps[..i];
      c := CloseOne(c, ps[i], adj, feeRate);
      i := i + 1;
    }
    assert ps[..i] == ps;
  }

  /** The value of the positions at their entry prices. */
  function EntryValue(ps: seq<Position>): real {
    if ps == [] then 0.0 else EntryValue(ps[..|ps| - 1]) + ps[|ps| - 1].entryPrice * ps[|ps| - 1].quantity
  }

  /** The drawdown of an equity below a peak, in percent; zero when the peak is not positive. */
  function DrawdownPct(peak: real, equity: real): (d: real)
    ensures peak > 0.0 && equity <= peak ==> d >= 0.0
    ensures peak > 0.0 && equity >= 0.0 && equity <= peak ==> d <= 100.0
    ensures peak <= 0.0 ==> d == 0.0
  {
    if peak > 0.0 then
      DrawdownRange(peak, equity);
      ((peak - equity) / peak) * 100.0
    else 0.0
  }

  lemma DrawdownRange(peak: real, equity: real)
    requires peak > 0.0
    ensures equity <= peak ==> ((peak - equity) / peak) * 100.0 >= 0.0
    ensures 0.0 <= equity <= peak ==> ((peak - equity) / peak) * 100.0 <= 100.0
  {
    var q := (peak - equity) / peak;
    assert q * peak == peak - equity;
    if equity <= peak {
      assert q >= 0.0;
    }
    if 0.0 <= equity <= peak {
      assert q * peak <= 1.0 * peak;
      assert q <= 1.0;
    }
  }

  /** `BacktestState`: the account during a run, with its extremes, trades and curves. */
  class BacktestState {
    var balance: real
    var peakEquity: real
    var troughEquity: real
    var positions: seq<Position>
    var trades: seq<TradeDetail>
    var equityCurve: seq<(int, real)>
    var drawdownCurve: seq<(int, real)>
    var totalFees: real

    /** The curves grow together, the trough never exceeds the peak, and every drawdown
        entry is at most zero. */
    predicate Valid()
      reads this
    {
      && troughEquity <= peakEquity
      && |equityCurve| == |drawdownCurve|
      && (forall i :: 0 <= i < |drawdownCurve| ==> drawdownCurve[i].1 <= 0.0)
    }

    /** `new(initial_capital, ..)`: all capital in cash, as peak and trough, and nothing
        else. */
    constructor (initialCapital: real)
      ensures Valid()
      ensures balance == initialCapital && peakEquity == initialCapital && troughEquity == initialCapital
      ensures positions == [] && trades == [] && equityCurve == [] && drawdownCurve == [] && totalFees == 0.0
    {
      balance := initialCapital;
      peakEquity := initialCapital;
      troughEquity := initialCapital;
      positions := [];
      trades := [];
      equityCurve := [];
      drawdownCurve := [];
      totalFees := 0.0;
    }

    function Ledger(): Account
      reads this
    {
      Account(balance, totalFees, positions)
    }

    /** `process_signal`: a buy as `Buy`; a sell closes up to its quantity from the buy
        positions, drops the dust and records one sell trade; any other action does
        nothing. */
    method ProcessSignal(c: BacktestConfig, k: TradeTypes.Kline, signal: Signal)
      requires Valid()
      modifies this
      ensures Valid()
      ensures equityCurve == old(equityCurve) && drawdownCurve == old(drawdownCurve)
      ensures peakEquity == old(peakEquity) && troughEquity == old(troughEquity)
      ensures var adj := AdjustedPrice(match signal.price case Some(p) => p case None => k.close,
                                       signal.action, c.slippage);
        && (signal.action == "buy" ==> Ledger() == Buy(old(Ledger()), c, adj, signal.quantity) && trades == old(trades))
        && (signal.action != "buy" && signal.action != "sell" ==> Ledger() == old(Ledger()) && trades == old(trades))
        && (signal.action == "sell" ==> (Ledger(), trades) == SellOutcome(old(Ledger()), old(trades), c, k, adj, signal.quantity))
    {
      var price := match signal.price case Some(p) => p case None => k.close;
      var adj := AdjustedPrice(price, signal.action, c.slippage);
      if signal.action == "buy" {
        var b := Buy(Ledger(), c, adj, signal.quantity);
        balance, totalFees, positions := b.balance, b.totalFees, b.positions;
      } else if signal.action == "sell" {
        Sell(c, k, adj, signal.quantity);
      }
    }

    /** What a sell leaves: when something can be closed, the positions after the pass with
        the dust dropped, the proceeds and fees booked and one sell trade recorded at the
        kline's time; otherwise nothing changes. */
    static function SellOutcome(b: Account, ts: seq<TradeDetail>, c: BacktestConfig, k: TradeTypes.Kline,
                                adj: real, quantity: real): (Account, seq<TradeDetail>)
    {
      var amount := Min(quantity, BuyQuantity(b.positions));
      if amount > 0.0 then
        var s := Close(b.positions, amount, adj, c.feeRate);
        var balance := b.balance + s.proceeds;
        (Account(balance, b.totalFees + s.fees, Retain(s.positions)),
         ts + [TradeDetail(|ts| + 1, k.timestamp, Some(k.timestamp), "sell", 0.0, Some(adj), amount,
                           adj * amount, Fee(adj * amount, c.feeRate), Some(s.pnl), balance, Some("signal"))])
      else (b, ts)
    }

    method Sell(c: BacktestConfig, k: TradeTypes.Kline, adj: real, quantity: real)
      requires Valid()
      modifies this
      ensures Valid()
      ensures equityCurve == old(equityCurve) && drawdownCurve == old(drawdownCurve)
      ensures peakEquity == old(peakEquity) && troughEquity == old(troughEquity)
      ensures (Ledger(), trades) == SellOutcome(old(Ledger()), old(trades), c, k, adj, quantity)
    {
      var amount := Min(quantity, BuyQuantity(positions));
      if amount > 0.0 {
        var s := ClosePositions(positions, amount, adj, c.feeRate);
        var newBalance := balance + s.proceeds;
        var trade := TradeDetail(|trades| + 1, k.timestamp, Some(k.timestamp), "sell", 0.0, Some(adj),
                                 amount, adj * amount, Fee(adj * amount, c.feeRate),
                                 Some(s.pnl), newBalance, Some("signal"));
        balance, totalFees, positions, trades := newBalance, totalFees + s.fees, Retain(s.positions), trades + [trade];
        ghost var expected := SellOutcome(old(Ledger()), old(trades), c, k, adj, quantity).1;
        assert expected[|expected| - 1] == trade;
      }
    }

    /** `update_equity(timestamp)`: marks the account at entry prices, moves the peak and
        trough, and appends one point to each curve. */
    method UpdateEquity(t: int)
      requires Valid()
      modifies this
      ensures Valid()
      ensures var equity := old(balance) + EntryValue(old(positions));
        && peakEquity == Max(old(peakEquity), equity)
        && troughEquity == Min(old(troughEquity), equity)
        && equityCurve == old(equityCurve) + [(t, equity)]
        && drawdownCurve == old(drawdownCurve) + [(t, -DrawdownPct(peakEquity, equity))]
      ensures balance == old(balance) && positions == old(positions) && trades == old(trades)
      ensures totalFees == old(totalFees)
    {
      var equity := balance + EntryValue(positions);
      peakEquity := Max(peakEquity, equity);
      troughEquity := Min(troughEquity, equity);
      equityCurve := equityCurve + [(t, equity)];
      var drawdown := DrawdownPct(peakEquity, equity);
      drawdownCurve := drawdownCurve + [(t, -drawdown)];
    }

    /** `close_all_positions`: every position is cashed in at its entry value and the
        position list is emptied. */
    method CloseAllPositions()
      requires Valid()
      modifies this
      ensures Valid()
      ensures positions == [] && balance == old(balance) + EntryValue(old(positions))
      ensures trades == old(trades) && equityCurve == old(equityCurve) && drawdownCurve == old(drawdownCurve)
      ensures peakEquity == old(peakEquity) && troughEquity == old(troughEquity) && totalFees == old(totalFees)
    {
      var ps := positions;
      var b := balance;
      var i := 0;
      while i < |ps|
        invariant 0 <= i <= |ps|
        invariant b == old(balance) + EntryValue(ps[..i])
      {
        assert ps[..i + 1][..i] == ps[..i];
        b := b + ps[i].entryPrice * ps[i].quantity;
        i := i + 1;
      }
      assert ps[..i] == ps;
      balance := b;
      positions := [];
    }
  }

  // ---------------------------------------------------------------------------------------
  // Summary statistics

  /** The running state of `calculate_drawdown`: the peak so far, the largest drawdown, and
      the sum and number of the positive drawdowns. */
  datatype DrawdownScan = DrawdownScan(peak: real, maxDd: real, total: real, count: nat)

  function ScanStep(s: DrawdownScan, equity: real): DrawdownScan {
    var peak := if equity > s.peak then equity else s.peak;
    var dd := DrawdownPct(peak, equity);
    DrawdownScan(peak, Max(s.maxDd, dd), if dd > 0.0 then s.total + dd else s.total,
                 if dd > 0.0 then s.count + 1 else s.count)
  }

  /** The scan over the equity curve, starting from the peak `start`. */
  function Scan(curve: seq<(int, real)>, start: real): DrawdownScan {
    if curve == [] then DrawdownScan(start, 0.0, 0.0, 0)
    else ScanStep(Scan(curve[..|curve| - 1], start), curve[|curve| - 1].1)
  }

  /** The maximum and the average (over the positive ones) drawdown of an equity curve, in
      percent; (0, 0) for an empty curve. */
  function DrawdownStats(curve: seq<(int, real)>): (r: (real, real))
    ensures curve == [] ==> r == (0.0, 0.0)
    ensures 0.0 <= r.1 <= r.0
  {
    if curve == [] then (0.0, 0.0)
    else
      var s := Scan(curve, curve[0].1);
      ScanBounds(curve, curve[0].1);
      assert Bounded(s);
      assert s.count > 0 ==> 0.0 <= s.total / (s.count as real) <= s.maxDd by {
        if s.count > 0 {
          MeanAtMost(s.total, s.count as real, s.maxDd);
        }
      }
      (s.maxDd, if s.count > 0 then s.total / (s.count as real) else 0.0)
  }

  /** The largest drawdown is non-negative and bounds the mean of the positive ones. */
  predicate Bounded(s: DrawdownScan) {
    s.maxDd >= 0.0 && 0.0 <= s.total <= (s.count as real) * s.maxDd
  }

  /** Along the scan the bound holds at every point. */
  lemma {:induction false} ScanBounds(curve: seq<(int, real)>, start: real)
    ensures Bounded(Scan(curve, start))
  {
    if curve != [] {
      ScanBounds(curve[..|curve| - 1], start);
      StepKeepsBounded(Scan(curve[..|curve| - 1], start), curve[|curve| - 1].1);
    }
  }

  lemma StepKeepsBounded(prev: DrawdownScan, equity: real)
    requires Bounded(prev)
    ensures Bounded(ScanStep(prev, equity))
  {
    var peak := if equity > prev.peak then equity else prev.peak;
    var dd := DrawdownPct(peak, equity);
    var next := ScanStep(prev, equity);
    assert dd >= 0.0;
    StepBound(prev.total, prev.count as real, prev.maxDd, next.maxDd, dd);
  }

  lemma StepBound(total: real, n: real, a: real, b: real, dd: real)
    requires n >= 0.0 && 0.0 <= total <= n * a && a <= b && 0.0 <= dd <= b
    ensures total <= n * b && total + dd <= (n + 1.0) * b
  {
    ScaleMonotone(n, a, b);
    assert (n + 1.0) * b == n * b + b;
  }



  /** With non-negative equities every drawdown is at most 100 percent. */
  lemma {:induction false} DrawdownAtMostHundred(curve: seq<(int, real)>, start: real)
    requires start >= 0.0 && forall i :: 0 <= i < |curve| ==> curve[i].1 >= 0.0
    ensures Scan(curve, start).maxDd <= 100.0 && Scan(curve, start).peak >= 0.0
  {
    if curve != [] {
      DrawdownAtMostHundred(curve[..|curve| - 1], start);
      assert curve[|curve| - 1].1 >= 0.0;
    }
  }

  /** `calculate_drawdown(equity_curve)`. */
  method CalculateDrawdown(curve: seq<(int, real)>) returns (maxDd: real, avgDd: real)
    ensures (maxDd, avgDd) == DrawdownStats(curve)
  {
    if curve == [] {
      return 0.0, 0.0;
    }
    var peak := curve[0].1;
    maxDd := 0.0;
    var total := 0.0;
    var count := 0;
    var i := 0;
    while i < |curve|
      invariant 0 <= i <= |curve|
      invariant DrawdownScan(peak, maxDd, total, count) == Scan(curve[..i], curve[0].1)
    {
      assert curve[..i + 1][..i] == curve[..i];
      var equity := curve[i].1;
      if equity > peak {
        peak := equity;
      }
      var dd := DrawdownPct(peak, equity);
      if dd > 0.0 {
        total := total + dd;
        count := count + 1;
      }
      maxDd := Max(maxDd, dd);
      i := i + 1;
    }
    assert curve[..i] == curve;
    avgDd := if count > 0 then total / (count as real) else 0.0;
  }

  /** The running state of `calculate_consecutive`. */
  datatype Streaks = Streaks(maxWins: nat, maxLosses: nat, wins: nat, losses: nat)

  function MaxNat(a: nat, b: nat): nat { if a >= b then a else b }

  /** One trade: a win extends the winning streak and ends the losing one, a loss the other
      way round; a trade without a result or with a zero result changes nothing. */
  function StreakStep(s: Streaks, pnl: Option<real>): Streaks {
    match pnl
      case Some(p) =>
        if p > 0.0 then Streaks(MaxNat(s.maxWins, s.wins + 1), s.maxLosses, s.wins + 1, 0)
        else if p < 0.0 then Streaks(s.maxWins, MaxNat(s.maxLosses, s.losses + 1), 0, s.losses + 1)
        else s
      case None => s
  }

  function StreaksOf(trades: seq<TradeDetail>): Streaks {
    if trades == [] then Streaks(0, 0, 0, 0)
    else StreakStep(StreaksOf(trades[..|trades| - 1]), trades[|trades| - 1].pnl)
  }

  /** The longest winning and losing streaks; neither exceeds the number of trades. */
  function Consecutive(trades: seq<TradeDetail>): (r: (nat, nat))
    ensures r.0 <= |trades| && r.1 <= |trades|
  {
    StreaksBounded(trades);
    (StreaksOf(trades).maxWins, StreaksOf(trades).maxLosses)
  }

  lemma {:induction false} StreaksBounded(trades: seq<TradeDetail>)
    ensures var s := StreaksOf(trades);
      s.wins <= s.maxWins <= |trades| && s.losses <= s.maxLosses <= |trades|
  {
    if trades != [] {
      StreaksBounded(trades[..|trades| - 1]);
    }
  }

  /** A trade without a result, or with a zero result, neither extends nor breaks a streak. */
  lemma NeutralTradeKeepsStreaks(s: Streaks, pnl: Option<real>)
    requires pnl.None? || pnl == Some(0.0)
    ensures StreakStep(s, pnl) == s
  {
  }

  /** `n` winning trades make one winning streak of `n` and no losing streak. */
  lemma {:induction false} AllWinning(trades: seq<TradeDetail>)
    requires forall i :: 0 <= i < |trades| ==> trades[i].pnl.Some? && trades[i].pnl.value > 0.0
    ensures StreaksOf(trades) == Streaks(|trades|, 0, |trades|, 0)
    ensures Consecutive(trades) == (|trades|, 0)
  {
    if trades != [] {
      var init := trades[..|trades| - 1];
      assert forall i :: 0 <= i < |init| ==> init[i] == trades[i];
      AllWinning(init);
    }
  }

  /** `calculate_consecutive(trades)`. */
  method CalculateConsecutive(trades: seq<TradeDetail>) returns (maxWins: nat, maxLosses: nat)
    ensures (maxWins, maxLosses) == Consecutive(trades)
  {
    maxWins, maxLosses := 0, 0;
    var wins, losses := 0, 0;
    var i := 0;
    while i < |trades|
      invariant 0 <= i <= |trades|
      invariant Streaks(maxWins, maxLosses, wins, losses) == StreaksOf(trades[..i])
    {
      assert trades[..i + 1][..i] == trades[..i];
      match trades[i].pnl {
        case Some(pnl) =>
          if pnl > 0.0 {
            wins := wins + 1;
            losses := 0;
            maxWins := MaxNat(maxWins, wins);
          } else if pnl < 0.0 {
            losses := losses + 1;
            wins := 0;
            maxLosses := MaxNat(maxLosses, losses);
          }
        case None =>
      }
      i := i + 1;
    }
    assert trades[..i] == trades;
  }

  /** `pnl.unwrap_or(0.0)`. */
  function PnlOr0(t: TradeDetail): real {
    match t.pnl case Some(p) => p case None => 0.0
  }

  /** The number of winning and of losing trades. */
  function Winning(ts: seq<TradeDetail>): (n: nat)
    ensures n <= |ts|
  {
    if ts == [] then 0 else Winning(ts[..|ts| - 1]) + (if PnlOr0(ts[|ts| - 1]) > 0.0 then 1 else 0)
  }

  function Losing(ts: seq<TradeDetail>): (n: nat)
    ensures n <= |ts|
  {
    if ts == [] then 0 else Losing(ts[..|ts| - 1]) + (if PnlOr0(ts[|ts| - 1]) < 0.0 then 1 else 0)
  }

  /** No trade is both a win and a loss. */
  lemma {:induction false} WinsAndLossesDisjoint(ts: seq<TradeDetail>)
    ensures Winning(ts) + Losing(ts) <= |ts|
  {
    if ts != [] {
      WinsAndLossesDisjoint(ts[..|ts| - 1]);
    }
  }

  /** The sum of the profits of the winning trades, and of the losses of the losing ones. */
  function TotalWins(ts: seq<TradeDetail>): (w: real)
    ensures w >= 0.0
    ensures Winning(ts) == 0 ==> w == 0.0
  {
    if ts == [] then 0.0 else TotalWins(ts[..|ts| - 1]) + (if PnlOr0(ts[|ts| - 1]) > 0.0 then PnlOr0(ts[|ts| - 1]) else 0.0)
  }

  function TotalLosses(ts: seq<TradeDetail>): (l: real)
    ensures l >= 0.0
    ensures Losing(ts) == 0 ==> l == 0.0
  {
    if ts == [] then 0.0 else TotalLosses(ts[..|ts| - 1]) + (if PnlOr0(ts[|ts| - 1]) < 0.0 then -PnlOr0(ts[|ts| - 1]) else 0.0)
  }

  /** The largest single profit (at least zero) and the largest single loss (at most zero). */
  function MaxSingleWin(ts: seq<TradeDetail>): (m: real)
    ensures m >= 0.0
    ensures forall i :: 0 <= i < |ts| ==> PnlOr0(ts[i]) <= m
  {
    if ts == [] then 0.0 else Max(MaxSingleWin(ts[..|ts| - 1]), if PnlOr0(ts[|ts| - 1]) > 0.0 then PnlOr0(ts[|ts| - 1]) else 0.0)
  }

  function MaxSingleLoss(ts: seq<TradeDetail>): (m: real)
    ensures m <= 0.0
    ensures forall i :: 0 <= i < |ts| ==> PnlOr0(ts[i]) >= m
  {
    if ts == [] then 0.0 else Min(MaxSingleLoss(ts[..|ts| - 1]), if PnlOr0(ts[|ts| - 1]) < 0.0 then PnlOr0(ts[|ts| - 1]) else 0.0)
  }

  lemma RatioPercent(w: real, n: real)
    requires 0.0 <= w <= n && n > 0.0
    ensures 0.0 <= (w / n) * 100.0 <= 100.0
  {
    MeanAtMost(w, n, 1.0);
  }


  /** The equity and drawdown curves of the result. */
  function EquityPoints(curve: seq<(int, real)>): (r: seq<EquityPoint>)
    ensures |r| == |curve| && forall i :: 0 <= i < |r| ==> r[i] == EquityPoint(curve[i].0, curve[i].1)
  {
    seq(|curve|, i requires 0 <= i < |curve| => EquityPoint(curve[i].0, curve[i].1))
  }

  function DrawdownPoints(curve: seq<(int, real)>): (r: seq<DrawdownPoint>)
    ensures |r| == |curve| && forall i :: 0 <= i < |r| ==> r[i] == DrawdownPoint(curve[i].0, curve[i].1)
  {
    seq(|curve|, i requires 0 <= i < |curve| => DrawdownPoint(curve[i].0, curve[i].1))
  }

  /** The result of a run, from the final state and the two scans. The Sharpe ratio is an
      input. */
  function ResultOf(c: BacktestConfig, id: string, balance: real, peak: real, trough: real,
                    trades: seq<TradeDetail>, equity: seq<(int, real)>, drawdown: seq<(int, real)>,
                    sharpe: real, dd: (real, real), streaks: (nat, nat)): (r: BacktestResult)
    requires 0.0 <= dd.1 <= dd.0 && streaks.0 <= |trades| && streaks.1 <= |trades|
    ensures r.finalCapital == balance && r.profit == balance - c.initialCapital
    ensures r.totalReturn == Divide((balance - c.initialCapital) * 100.0, c.initialCapital)
    ensures r.totalTrades == |trades| && r.winningTrades + r.losingTrades <= r.totalTrades
    ensures 0.0 <= r.winRate <= 100.0
    ensures 0.0 <= r.avgDrawdown <= r.maxDrawdown
    ensures r.maxConsecutiveWins <= r.totalTrades && r.maxConsecutiveLosses <= r.totalTrades
    ensures r.avgWin >= 0.0 && r.avgLoss >= 0.0 && r.profitFactor >= 0.0
    ensures r.maxSingleWin >= 0.0 >= r.maxSingleLoss
    ensures r.trades == trades && |r.equityCurve| == |equity| && |r.drawdownCurve| == |drawdown|
  {
    var profit := balance - c.initialCapital;
    var w := Winning(trades);
    var l := Losing(trades);
    var n := |trades|;
    WinsAndLossesDisjoint(trades);
    assert w > 0 ==> TotalWins(trades) / (w as real) >= 0.0 by {
      if w > 0 {
        QuotientNonNegative(TotalWins(trades), w as real);
      }
    }
    assert l > 0 ==> TotalLosses(trades) / (l as real) >= 0.0 by {
      if l > 0 {
        QuotientNonNegative(TotalLosses(trades), l as real);
      }
    }
    assert TotalLosses(trades) > 0.0 ==> TotalWins(trades) / TotalLosses(trades) >= 0.0 by {
      if TotalLosses(trades) > 0.0 {
        QuotientNonNegative(TotalWins(trades), TotalLosses(trades));
      }
    }
    assert n > 0 ==> 0.0 <= ((w as real) / (n as real)) * 100.0 <= 100.0 by {
      if n > 0 {
        RatioPercent(w as real, n as real);
      }
    }
    BacktestResult(
      id, c.strategyId, c.symbol, c.timeframe, c.startTime, c.endTime,
      c.initialCapital, balance, profit, Divide(profit * 100.0, c.initialCapital), peak, trough,
      dd.0, dd.1, 0, sharpe, None, None,
      n, w, l, if n > 0 then ((w as real) / (n as real)) * 100.0 else 0.0,
      if w > 0 then TotalWins(trades) / (w as real) else 0.0,
      if l > 0 then TotalLosses(trades) / (l as real) else 0.0,
      if TotalLosses(trades) > 0.0 then TotalWins(trades) / TotalLosses(trades) else 0.0,
      if n > 0 then profit / (n as real) else 0.0,
      streaks.0, streaks.1, MaxSingleWin(trades), MaxSingleLoss(trades), 50.0,
      trades, EquityPoints(equity), DrawdownPoints(drawdown), [])
  }

  /** `(profit / initial) * 100` is `(profit * 100) / initial` on reals, and a division by zero
      either way. */
  lemma TotalReturnForm(profit: real, initial: real)
    requires initial != 0.0
    ensures Divide(profit * 100.0, initial) == Finite((profit / initial) * 100.0)
  {
    var q := profit / initial;
    assert q * initial == profit;
    assert (q * 100.0) * initial == profit * 100.0;
  }

  // ---------------------------------------------------------------------------------------
  // Runs

  /** `calculate_result(config, state, klines)`: the two scans, then the summary. */
  method CalculateResult(c: BacktestConfig, state: BacktestState, id: string, sharpe: real) returns (r: BacktestResult)
    ensures r == ResultOf(c, id, state.balance, state.peakEquity, state.troughEquity, state.trades,
                          state.equityCurve, state.drawdownCurve, sharpe, DrawdownStats(state.equityCurve),
                          Consecutive(state.trades))
  {
    var maxDd, avgDd := CalculateDrawdown(state.equityCurve);
    var wins, losses := CalculateConsecutive(state.trades);
    r := ResultOf(c, id, state.balance, state.peakEquity, state.troughEquity, state.trades,
                  state.equityCurve, state.drawdownCurve, sharpe, (maxDd, avgDd), (wins, losses));
  }

  /** `run_backtest(config, klines)`: refuses an empty kline list; otherwise, kline by kline,
      acts on the strategy's signal and marks the account, then cashes in what is left and
      summarises. A strategy error ends the run with that error. `signals[i]` is what the
      strategy returns for `klines[i]`; `sharpeOf` computes the Sharpe ratio of the trades. */
  method RunBacktest(c: BacktestConfig, klines: seq<TradeTypes.Kline>, signals: seq<Result<Option<Signal>, string>>,
                     id: string, sharpeOf: seq<TradeDetail> -> real) returns (r: Result<BacktestResult, string>)
    requires |signals| == |klines|
    ensures klines == [] ==> r == Err("No historical data available")
    ensures r.Ok? <==> klines != [] && forall i :: 0 <= i < |signals| ==> signals[i].Ok?
    ensures r.Err? && klines != [] ==>
      exists i :: 0 <= i < |signals| && signals[i] == Err(r.error) && forall j :: 0 <= j < i ==> signals[j].Ok?
    ensures r.Ok? ==>
      && r.value.id == id && r.value.initialCapital == c.initialCapital
      && |r.value.equityCurve| == |klines| && |r.value.drawdownCurve| == |klines|
      && (forall i :: 0 <= i < |klines| ==> r.value.equityCurve[i].time == klines[i].timestamp)
      && (forall i :: 0 <= i < |klines| ==> r.value.drawdownCurve[i].drawdown <= 0.0)
      && r.value.troughCapital <= r.value.peakCapital
      && 0.0 <= r.value.avgDrawdown <= r.value.maxDrawdown
  {
    if klines == [] {
      return Err("No historical data available");
    }
    var state := new BacktestState(c.initialCapital);
    var i := 0;
    while i < |klines|
      invariant 0 <= i <= |klines|
      invariant fresh(state) && state.Valid()
      invariant forall j :: 0 <= j < i ==> signals[j].Ok?
      invariant |state.equityCurve| == i
      invariant forall j :: 0 <= j < i ==> state.equityCurve[j].0 == klines[j].timestamp
    {
      var k := klines[i];
      match signals[i] {
        case Err(e) =>
          assert signals[i] == Err(e);
          return Err(e);
        case Ok(signal) =>
          if signal.Some? {
            state.ProcessSignal(c, k, signal.value);
          }
      }
      state.UpdateEquity(k.timestamp);
      i := i + 1;
    }
    state.CloseAllPositions();
    var result := CalculateResult(c, state, id, sharpeOf(state.trades));
    return Ok(result);
  }

  // ---------------------------------------------------------------------------------------
  // Jobs

  /** The check `run_job` makes before starting: the job must exist and must not be
      running. */
  function RunGate(jobId: string, status: Option<BacktestStatus>): (r: Result<(), string>)
    ensures r.Ok? <==> status.Some? && status.value != Running
    ensures status.None? ==> r == Err("Job not found: " + jobId)
  {
    match status
      case None => Err("Job not found: " + jobId)
      case Some(s) => if s == Running then Err("Job is already running") else Ok(())
  }

  /** The status a started job is left in, as `run_job` is written: completed after a
      successful run, and still running after a failed one. */
  function StatusAfterRunAsWritten(outcome: Result<BacktestResult, string>): BacktestStatus {
    if outcome.Ok? then Completed else Running
  }

  /** The status a started job is left in when a failure is recorded with `set_error`. */
  function StatusAfterRun(outcome: Result<BacktestResult, string>): (s: BacktestStatus)
    ensures s != Running && s != Pending
    ensures s == Completed <==> outcome.Ok?
  {
    if outcome.Ok? then Completed else Failed
  }

  /** As written, a failed run leaves its job running for good: every later run of it is
      refused. */
  lemma FailedRunBlocksRetries(jobId: string, e: string)
    ensures StatusAfterRunAsWritten(Err(e)) == Running
    ensures RunGate(jobId, Some(StatusAfterRunAsWritten(Err(e)))) == Err("Job is already running")
  {
  }

  /** Recording the failure leaves the job failed and open to another run. */
  lemma FailedRunCanBeRetried(jobId: string, e: string)
    ensures StatusAfterRun(Err(e)) == Failed
    ensures RunGate(jobId, Some(StatusAfterRun(Err(e)))) == Ok(())
  {
  }

  /** Copies of the jobs of `m`, each once, in no particular order. */
  method CopyJobs(m: map<string, BacktestJob>) returns (r: seq<BacktestJob>)
    requires forall id :: id in m ==> m[id].id == id
    ensures |r| == |m.Keys|
    ensures forall i :: 0 <= i < |r| ==> fresh(r[i]) && r[i].id in m && r[i].SameAs(m[r[i].id])
    ensures forall i, j :: 0 <= i < j < |r| ==> r[i].id != r[j].id
    decreases |m.Keys|
  {
    if m.Keys == {} {
      return [];
    }
    var id :| id in m.Keys;
    var rest := CopyJobs(m - {id});
    assert forall i :: 0 <= i < |rest| ==> rest[i].id != id;
    var copy := new BacktestJob.Clone(m[id]);
    r := [copy] + rest;
  }

  /** What `run_job` does once the job is marked running, with the failure recorded: load the
      klines, run, and leave the outcome on the job. */
  method RunAndRecord(job: BacktestJob, klines: Result<seq<TradeTypes.Kline>, string>,
                      signals: seq<Result<Option<Signal>, string>>, resultId: string,
                      sharpeOf: seq<TradeDetail> -> real, now: int)
    returns (r: Result<BacktestResult, string>)
    requires job.Valid()
    requires klines.Ok? ==> |signals| == |klines.value|
    modifies job
    ensures job.Valid() && job.status == StatusAfterRun(r) && job.updatedAt == now
    ensures r.Ok? ==> job.result == Some(r.value) && job.progress == 100
    ensures r.Err? ==> job.error == Some(r.error)
    ensures klines.Err? ==> r == Err("Failed to load klines: " + klines.error)
    ensures klines == Ok([]) ==> r == Err("No historical data available")
    ensures klines.Ok? ==> (r.Ok? <==> klines.value != [] && forall i :: 0 <= i < |signals| ==> signals[i].Ok?)
  {
    if klines.Err? {
      r := Err("Failed to load klines: " + klines.error);
      job.SetError(r.error, now);
      return;
    }
    r := RunBacktest(job.config, klines.value, signals, resultId, sharpeOf);
    if r.Err? {
      job.SetError(r.error, now);
      return;
    }
    job.SetResult(r.value, now);
  }

  /** The same as written: a failed load or run returns the error and leaves the job alone. */
  method RunAndRecordAsWritten(job: BacktestJob, klines: Result<seq<TradeTypes.Kline>, string>,
                               signals: seq<Result<Option<Signal>, string>>, resultId: string,
                               sharpeOf: seq<TradeDetail> -> real, now: int)
    returns (r: Result<BacktestResult, string>)
    requires job.Valid()
    requires klines.Ok? ==> |signals| == |klines.value|
    modifies job
    ensures job.Valid()
    ensures r.Ok? ==> job.status == Completed && job.updatedAt == now && job.result == Some(r.value) && job.progress == 100
    ensures r.Err? ==> unchanged(job)
    ensures klines.Err? ==> r == Err("Failed to load klines: " + klines.error)
    ensures klines == Ok([]) ==> r == Err("No historical data available")
    ensures klines.Ok? ==> (r.Ok? <==> klines.value != [] && forall i :: 0 <= i < |signals| ==> signals[i].Ok?)
  {
    if klines.Err? {
      return Err("Failed to load klines: " + klines.error);
    }
    r := RunBacktest(job.config, klines.value, signals, resultId, sharpeOf);
    if r.Err? {
      return;
    }
    job.SetResult(r.value, now);
  }

  /** `BacktestService`: the jobs by id. The database handle is not modelled; the klines it
      returns are an input of `RunJob`. */
  class BacktestService {
    var jobs: map<string, BacktestJob>

    /** Every job is stored under its own id, which is `bt_` followed by a uuid as
        `BacktestJob::new` makes it, and has a progress percentage. */
    predicate Valid()
      reads this, jobs.Values
    {
      forall id :: id in jobs ==> jobs[id].id == id && "bt_" <= id && jobs[id].Valid()
    }

    /** The status of the job stored under `jobId`, if any. */
    function StatusOf(jobId: string): Option<BacktestStatus>
      reads this, jobs.Values
    {
      if jobId in jobs then Some(jobs[jobId].status) else None
    }

    constructor ()
      ensures Valid() && jobs == map[]
    {
      jobs := map[];
    }

    /** `create_job(config)`: stores a new pending job under its fresh id. */
    method CreateJob(config: BacktestConfig, uuid: string, now: int) returns (jobId: string)
      requires Valid()
      modifies this
      ensures Valid()
      ensures jobId == "bt_" + uuid && jobs.Keys == old(jobs.Keys) + {jobId}
      ensures fresh(jobs[jobId]) && jobs[jobId].config == config && jobs[jobId].status == Pending
      ensures jobs[jobId].progress == 0 && jobs[jobId].result.None? && jobs[jobId].error.None?
      ensures forall id :: id in old(jobs) && id != jobId ==> jobs[id] == old(jobs[id])
    {
      var job := new BacktestJob(config, uuid, now);
      jobId := job.id;
      jobs := jobs[jobId := job];
    }

    /** `get_job(job_id)`: a copy of the stored job. */
    method GetJob(jobId: string) returns (r: Option<BacktestJob>)
      ensures r.None? <==> jobId !in jobs
      ensures r.Some? ==> fresh(r.value) && r.value.SameAs(jobs[jobId])
    {
      if jobId in jobs {
        var copy := new BacktestJob.Clone(jobs[jobId]);
        r := Some(copy);
      } else {
        r := None;
      }
    }

    /** `list_jobs()`: a copy of every stored job, each once, in no particular order. */
    method ListJobs() returns (r: seq<BacktestJob>)
      requires Valid()
      ensures |r| == |jobs.Keys|
      ensures forall i :: 0 <= i < |r| ==> fresh(r[i]) && r[i].id in jobs && r[i].SameAs(jobs[r[i].id])
      ensures forall i, j :: 0 <= i < j < |r| ==> r[i].id != r[j].id
    {
      r := CopyJobs(jobs);
    }

    /** `run_job(job_id)` as written: refuses an unknown or running job; otherwise marks a copy
        running and stores it, runs, and on success completes it. A failed load or run returns
        the error and leaves the job running. */
    method RunJobAsWritten(jobId: string, klines: Result<seq<TradeTypes.Kline>, string>,
                           signals: seq<Result<Option<Signal>, string>>, resultId: string,
                           sharpeOf: seq<TradeDetail> -> real, now: int)
      returns (r: Result<BacktestResult, string>)
      requires Valid()
      requires klines.Ok? ==> |signals| == |klines.value|
      modifies this
      ensures Valid()
      ensures jobs.Keys == old(jobs.Keys)
      ensures forall id :: id in jobs && id != jobId ==> jobs[id] == old(jobs[id])
      ensures var gate := RunGate(jobId, old(StatusOf(jobId)));
        && (gate.Err? ==> r == Err(gate.error) && jobs == old(jobs))
        && (gate.Ok? ==> fresh(jobs[jobId]) && jobs[jobId].status == StatusAfterRunAsWritten(r)
                         && jobs[jobId].updatedAt == now
                         && (r.Ok? ==> jobs[jobId].result == Some(r.value) && jobs[jobId].progress == 100))
        && (gate.Ok? && klines.Err? ==> r == Err("Failed to load klines: " + klines.error))
        && (gate.Ok? && klines == Ok([]) ==> r == Err("No historical data available"))
        && (gate.Ok? && klines.Ok? ==> (r.Ok? <==> klines.value != [] && forall i :: 0 <= i < |signals| ==> signals[i].Ok?))
    {
      var current := GetJob(jobId);
      if current.None? {
        return Err("Job not found: " + jobId);
      }
      var job := current.value;
      if job.status == Running {
        return Err("Job is already running");
      }
      job.UpdateStatus(Running, now);
      jobs := jobs[jobId := job];
      r := RunAndRecordAsWritten(job, klines, signals, resultId, sharpeOf, now);
    }

    /** `run_job(job_id)` with the failure recorded: as above, but a failed load or run marks
        the job failed with the error, so that it can be run again. */
    method RunJob(jobId: string, klines: Result<seq<TradeTypes.Kline>, string>,
                  signals: seq<Result<Option<Signal>, string>>, resultId: string,
                  sharpeOf: seq<TradeDetail> -> real, now: int)
      returns (r: Result<BacktestResult, string>)
      requires Valid()
      requires klines.Ok? ==> |signals| == |klines.value|
      modifies this
      ensures Valid()
      ensures jobs.Keys == old(jobs.Keys)
      ensures forall id :: id in jobs && id != jobId ==> jobs[id] == old(jobs[id])
      ensures var gate := RunGate(jobId, old(StatusOf(jobId)));
        && (gate.Err? ==> r == Err(gate.error) && jobs == old(jobs))
        && (gate.Ok? ==> fresh(jobs[jobId]) && jobs[jobId].status == StatusAfterRun(r)
                         && jobs[jobId].updatedAt == now
                         && (r.Ok? ==> jobs[jobId].result == Some(r.value) && jobs[jobId].progress == 100)
                         && (r.Err? ==> jobs[jobId].error == Some(r.error)))
        && (gate.Ok? && klines.Err? ==> r == Err("Failed to load klines: " + klines.error))
        && (gate.Ok? && klines == Ok([]) ==> r == Err("No historical data available"))
        && (gate.Ok? && klines.Ok? ==> (r.Ok? <==> klines.value != [] && forall i :: 0 <= i < |signals| ==> signals[i].Ok?))
    {
      var current := GetJob(jobId);
      if current.None? {
        return Err("Job not found: " + jobId);
      }
      var job := current.value;
      if job.status == Running {
        return Err("Job is already running");
      }
      job.UpdateStatus(Running, now);
      jobs := jobs[jobId := job];
      r := RunAndRecord(job, klines, signals, resultId, sharpeOf, now);
    }
  }
}
