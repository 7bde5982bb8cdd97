/** Market data quality monitoring. Per symbol the monitor keeps the connection status, a window
    of the latest latencies and message times, the last kline, and counts of gaps, stale klines,
    duplicates and errors; from these it derives a score out of 100 and a status. The clock is a
    parameter (`now`, in milliseconds). */
module DataQuality {
  import opened Wrappers
  import opened Floats
  import TradeTypes

  /** `DataQualityStatus`, from the best to the worst. */
  datatype DataQualityStatus = Good | Degraded | Poor | Disconnected

  /** `ConnectionStatus`. */
  datatype ConnectionStatus = Connected | Disconnected | Reconnecting

  /** `DataQualityConfig`; the latency is in milliseconds, the rate in messages per second and
      the gap and stale thresholds in seconds. */
  datatype DataQualityConfig = DataQualityConfig(
    maxLatencyMs: real, minMessageRate: real, maxGapSeconds: nat, staleThresholdSeconds: nat,
    statsWindowSize: nat)

  /** `DataQualityConfig::default()`. */
  const DefaultConfig := DataQualityConfig(1000.0, 0.1, 60, 300, 1000)

  /** The windows keep at most this many entries: the bound is fixed in the code, and
      `stats_window_size` is not consulted. */
  const WindowLimit := 1000

  /** The report `get_metrics` hands out. */
  datatype DataQualityMetrics = DataQualityMetrics(
    symbol: string, connectionStatus: ConnectionStatus, lastMessageTime: int,
    avgLatencyMs: real, maxLatencyMs: real, messageRate: real, gapCount: nat,
    staleDataCount: nat, duplicateCount: nat, totalMessages: nat, errorCount: nat,
    qualityScore: real, status: DataQualityStatus)

  /** `SymbolMetrics`, the internal record per symbol. */
  datatype SymbolMetrics = SymbolMetrics(
    connectionStatus: ConnectionStatus, lastMessageTime: Option<int>, latencies: seq<real>,
    messageTimestamps: seq<int>, lastKline: Option<TradeTypes.Kline>, gapCount: nat,
    staleDataCount: nat, duplicateCount: nat, totalMessages: nat, errorCount: nat)

  /** `SymbolMetrics::new()`: disconnected, nothing seen, every count zero. */
  const NewMetrics := SymbolMetrics(ConnectionStatus.Disconnected, None, [], [], None, 0, 0, 0, 0, 0)

  /** What the windows and counters of a record always satisfy: both windows move together and
      stay within the limit, the window never holds more than was received, and the last message
      time is the newest time in the window. */
  predicate Tracked(m: SymbolMetrics) {
    && |m.latencies| == |m.messageTimestamps| <= WindowLimit
    && |m.latencies| <= m.totalMessages
    && (m.totalMessages == 0 <==> m.lastMessageTime.None?)
    && (m.totalMessages == 0 <==> m.messageTimestamps == [])
    && (m.messageTimestamps != [] ==>
          m.lastMessageTime == Some(m.messageTimestamps[|m.messageTimestamps| - 1]))
  }

  lemma NewMetricsTracked()
    ensures Tracked(NewMetrics)
    ensures NewMetrics.totalMessages == 0 && NewMetrics.errorCount == 0 && NewMetrics.gapCount == 0
  {
  }

  // ---------------------------------------------------------------------------------------
  // Time frames and the gap, duplicate and stale tests
  // ---------------------------------------------------------------------------------------

  /** `parse_timeframe`: the interval length in seconds, for exactly the seven interval names
      the trade types know. */
  function ParseTimeframe(timeframe: string): (r: Option<nat>)
    ensures r.Some? <==> TradeTypes.ParseInterval(timeframe).Some?
    ensures r.Some? ==> r.value >= 60 && r.value % 60 == 0
  {
    match timeframe
      case "1m" => Some(60)
      case "5m" => Some(300)
      case "15m" => Some(900)
      case "30m" => Some(1800)
      case "1h" => Some(3600)
      case "4h" => Some(14400)
      case "1d" => Some(86400)
      case _ => None
  }

  /** Different names never give the same length. */
  lemma TimeframeInjective(a: string, b: string)
    requires ParseTimeframe(a).Some? && ParseTimeframe(a) == ParseTimeframe(b)
    ensures a == b
  {
  }

  lemma TimeframeExamples()
    ensures ParseTimeframe("1m") == Some(60) && ParseTimeframe("1h") == Some(3600)
    ensures ParseTimeframe("1d") == Some(86400) && ParseTimeframe("invalid") == None
  {
  }

  /** Rust's `/` on `i64`, which truncates toward zero. */
  function TruncDiv(a: int, d: int): int
    requires d > 0
  {
    if a >= 0 then a / d else -((-a) / d)
  }

  /** A difference in milliseconds exceeds `limit` whole seconds, as the code counts them,
      exactly when it is at least `limit + 1` full seconds. */
  lemma {:induction false} SecondsExceed(ms: int, limit: nat)
    ensures TruncDiv(ms, 1000) > limit <==> ms >= 1000 * (limit + 1)
  {
    if ms >= 0 {
      assert ms == 1000 * (ms / 1000) + ms % 1000;
    } else {
      assert TruncDiv(ms, 1000) <= 0;
    }
  }

  /** The gap test of `record_kline`: a kline whose time frame parses arrives more than two
      intervals (in truncated seconds) after the previous one. */
  predicate IsGap(last: Option<TradeTypes.Kline>, k: TradeTypes.Kline) {
    && last.Some? && ParseTimeframe(k.timeframe).Some?
    && TruncDiv(k.timestamp - last.value.timestamp, 1000) > 2 * ParseTimeframe(k.timeframe).value
  }

  /** The duplicate test: the same timestamp as the previous kline, counted only when the time
      frame parses. */
  predicate IsDuplicate(last: Option<TradeTypes.Kline>, k: TradeTypes.Kline) {
    last.Some? && ParseTimeframe(k.timeframe).Some? && k.timestamp == last.value.timestamp
  }

  /** The stale test: the last message is more than `threshold` seconds old. */
  predicate IsStale(lastMessageTime: Option<int>, now: int, threshold: nat) {
    lastMessageTime.Some? && TruncDiv(now - lastMessageTime.value, 1000) > threshold
  }

  /** A gap means the klines are at least `2 * interval + 1` seconds apart; a kline that goes
      back in time or repeats a timestamp is never a gap, and a duplicate is never a gap. */
  lemma GapIff(last: Option<TradeTypes.Kline>, k: TradeTypes.Kline)
    ensures IsGap(last, k) <==>
      last.Some? && ParseTimeframe(k.timeframe).Some? &&
      k.timestamp - last.value.timestamp >= 1000 * (2 * ParseTimeframe(k.timeframe).value + 1)
    ensures IsDuplicate(last, k) ==> !IsGap(last, k)
  {
    if last.Some? && ParseTimeframe(k.timeframe).Some? {
      SecondsExceed(k.timestamp - last.value.timestamp, 2 * ParseTimeframe(k.timeframe).value);
    }
  }

  /** Stale means at least `threshold + 1` seconds since the last message; a symbol that never
      received a message is never stale. */
  lemma StaleIff(lastMessageTime: Option<int>, now: int, threshold: nat)
    ensures IsStale(lastMessageTime, now, threshold) <==>
      lastMessageTime.Some? && now - lastMessageTime.value >= 1000 * (threshold + 1)
  {
    if lastMessageTime.Some? {
      SecondsExceed(now - lastMessageTime.value, threshold);
    }
  }

  // ---------------------------------------------------------------------------------------
  // Recording
  // ---------------------------------------------------------------------------------------

  /** The latest `WindowLimit` entries of `s`. */
  function Recent<T>(s: seq<T>): (r: seq<T>)
    ensures |r| <= WindowLimit && |r| <= |s|
    ensures |s| <= WindowLimit ==> r == s
    ensures forall i :: 0 <= i < |r| ==> r[i] == s[|s| - |r| + i]
  {
    if |s| <= WindowLimit then s else s[|s| - WindowLimit..]
  }

  /** The window after a push: one entry drops off the front when the window overflows. */
  function Pushed<T>(window: seq<T>, x: T): (r: seq<T>)
    ensures |window| <= WindowLimit ==> r == Recent(window + [x])
  {
    if |window + [x]| > WindowLimit then (window + [x])[1..] else window + [x]
  }

  /** The record after `record_message(latency)` at time `now`: connected, one more message,
      and the latency and the time at the new end of their windows. */
  function Received(m: SymbolMetrics, latencyMs: real, now: int): (r: SymbolMetrics)
    ensures r.connectionStatus == Connected && r.lastMessageTime == Some(now)
    ensures r.totalMessages == m.totalMessages + 1
    ensures Tracked(m) ==> r.latencies == Recent(m.latencies + [latencyMs])
    ensures Tracked(m) ==> r.messageTimestamps == Recent(m.messageTimestamps + [now])
    ensures r.lastKline == m.lastKline && r.gapCount == m.gapCount
    ensures r.staleDataCount == m.staleDataCount && r.duplicateCount == m.duplicateCount
    ensures r.errorCount == m.errorCount
  {
    m.(connectionStatus := Connected, lastMessageTime := Some(now),
       latencies := Pushed(m.latencies, latencyMs),
       messageTimestamps := Pushed(m.messageTimestamps, now),
       totalMessages := m.totalMessages + 1)
  }

  lemma ReceivedKeepsTracked(m: SymbolMetrics, latencyMs: real, now: int)
    requires Tracked(m)
    ensures Tracked(Received(m, latencyMs, now))
    ensures Received(m, latencyMs, now).latencies != []
  {
    var r := Received(m, latencyMs, now);
    assert r.messageTimestamps[|r.messageTimestamps| - 1] == now;
  }

  /** The record after `record_kline(k)` at time `now`: the kline becomes the last one, and the
      gap, duplicate and stale counts each grow by one exactly when their test holds. */
  function KlineSeen(m: SymbolMetrics, k: TradeTypes.Kline, now: int, staleSeconds: nat): (r: SymbolMetrics)
    ensures r.lastKline == Some(k)
    ensures r.gapCount == m.gapCount || r.gapCount == m.gapCount + 1
    ensures r.gapCount == m.gapCount + 1 <==>
      m.lastKline.Some? && ParseTimeframe(k.timeframe).Some? &&
      k.timestamp - m.lastKline.value.timestamp >= 1000 * (2 * ParseTimeframe(k.timeframe).value + 1)
    ensures r.duplicateCount == m.duplicateCount || r.duplicateCount == m.duplicateCount + 1
    ensures r.duplicateCount == m.duplicateCount + 1 <==>
      m.lastKline.Some? && ParseTimeframe(k.timeframe).Some? && k.timestamp == m.lastKline.value.timestamp
    ensures r.staleDataCount == m.staleDataCount || r.staleDataCount == m.staleDataCount + 1
    ensures r.staleDataCount == m.staleDataCount + 1 <==>
      m.lastMessageTime.Some? && now - m.lastMessageTime.value >= 1000 * (staleSeconds + 1)
    ensures r.(lastKline := m.lastKline, gapCount := m.gapCount,
               duplicateCount := m.duplicateCount, staleDataCount := m.staleDataCount) == m
  {
    GapIff(m.lastKline, k);
    StaleIff(m.lastMessageTime, now, staleSeconds);
    m.(lastKline := Some(k),
       gapCount := if IsGap(m.lastKline, k) then m.gapCount + 1 else m.gapCount,
       duplicateCount := if IsDuplicate(m.lastKline, k) then m.duplicateCount + 1 else m.duplicateCount,
       staleDataCount := if IsStale(m.lastMessageTime, now, staleSeconds)
                         then m.staleDataCount + 1 else m.staleDataCount)
  }

  lemma KlineSeenKeepsTracked(m: SymbolMetrics, k: TradeTypes.Kline, now: int, staleSeconds: nat)
    requires Tracked(m)
    ensures Tracked(KlineSeen(m, k, now, staleSeconds))
  {
  }

  /** Every record of the map is tracked. */
  predicate AllTracked(metrics: map<string, SymbolMetrics>) {
    forall s :: s in metrics ==> Tracked(metrics[s])
  }

  lemma AllTrackedUpdate(metrics: map<string, SymbolMetrics>, symbol: string, m: SymbolMetrics)
    requires AllTracked(metrics) && Tracked(m)
    ensures AllTracked(metrics[symbol := m])
  {
  }

  /** The record a symbol has before anything is recorded: the stored one, or a new one. */
  function Entry(metrics: map<string, SymbolMetrics>, symbol: string): SymbolMetrics {
    if symbol in metrics then metrics[symbol] else NewMetrics
  }

  // ---------------------------------------------------------------------------------------
  // Statistics, the score and the status
  // ---------------------------------------------------------------------------------------

  /** The mean latency, zero for an empty window. */
  function AverageLatency(latencies: seq<real>): real {
    if latencies == [] then 0.0 else Sum(latencies) / |latencies| as real
  }

  /** `fold(0.0, f64::max)`: the largest latency, and at least zero. */
  function MaxLatency(latencies: seq<real>): (r: real)
    decreases |latencies|
    ensures r >= 0.0
    ensures forall i :: 0 <= i < |latencies| ==> latencies[i] <= r
    ensures r == 0.0 || r in latencies
  {
    if latencies == [] then 0.0
    else
      var init := latencies[..|latencies| - 1];
      var m := MaxLatency(init);
      assert latencies == init + [latencies[|latencies| - 1]];
      if m < latencies[|latencies| - 1] then latencies[|latencies| - 1] else m
  }


  /** For latencies that are not negative, the mean lies between zero and the maximum. */
  lemma {:induction false} AverageWithinMax(latencies: seq<real>)
    ensures (forall i :: 0 <= i < |latencies| ==> latencies[i] >= 0.0) ==>
              0.0 <= AverageLatency(latencies) <= MaxLatency(latencies)
  {
    if latencies != [] && forall i :: 0 <= i < |latencies| ==> latencies[i] >= 0.0 {
      var m := MaxLatency(latencies);
      forall v | v in latencies
        ensures 0.0 <= v <= m
      {
        var i :| 0 <= i < |latencies| && latencies[i] == v;
      }
      SumBounds(latencies, 0.0, m);
      BoundedMean(Sum(latencies), |latencies| as real, m);
    }
  }

  /** A total between zero and `bound` times a positive count has a mean between zero and `bound`. */
  lemma BoundedMean(total: real, n: real, bound: real)
    requires n > 0.0 && 0.0 * n <= total <= bound * n
    ensures 0.0 <= total / n <= bound
  {
    assert bound * n == n * bound;
    MeanAtMost(total, n, bound);
  }

  /** The message rate: the number of timestamps in the window divided by the seconds between
      its first and its newest entry, and zero when there is no positive span. */
  function MessageRate(timestamps: seq<int>): (r: real)
    ensures r >= 0.0
    ensures r > 0.0 <==> |timestamps| > 1 && timestamps[|timestamps| - 1] > timestamps[0]
  {
    if |timestamps| > 1 then
      var span := (timestamps[|timestamps| - 1] - timestamps[0]) as real / 1000.0;
      if span > 0.0 then |timestamps| as real / span else 0.0
    else 0.0
  }

  /** `(a / b).min(cap)` where `a / b` may divide by zero: the code only reaches it with a
      positive numerator when the divisor is zero, and the infinite quotient becomes the cap. */
  function CappedRatio(a: real, b: real, cap: real): (r: real)
    requires b != 0.0 || a > 0.0
    ensures r <= cap
    ensures a > 0.0 && b >= 0.0 && cap > 0.0 ==> r > 0.0
  {
    if b == 0.0 then cap else if a / b < cap then a / b else cap
  }

  /** The deduction for latency: `25 * min(avg / max, 2)` when the mean is above the limit,
      which is up to 50 points rather than the 25 the comment beside it announces. */
  function LatencyPenalty(c: DataQualityConfig, avgLatency: real): (p: real)
    ensures p <= 50.0
    ensures c.maxLatencyMs >= 0.0 ==> (p > 0.0 <==> avgLatency > c.maxLatencyMs)
    ensures c.maxLatencyMs >= 0.0 ==> p >= 0.0
  {
    if avgLatency > c.maxLatencyMs then 25.0 * CappedRatio(avgLatency, c.maxLatencyMs, 2.0)
    else 0.0
  }

  /** The deduction for a low message rate: `25 * min((min - rate) / min, 1)`. */
  function RatePenalty(c: DataQualityConfig, messageRate: real): (p: real)
    ensures p <= 25.0
    ensures c.minMessageRate >= 0.0 ==> (p > 0.0 <==> messageRate < c.minMessageRate)
    ensures c.minMessageRate >= 0.0 ==> p >= 0.0
  {
    if messageRate < c.minMessageRate then
      25.0 * CappedRatio(c.minMessageRate - messageRate, c.minMessageRate, 1.0)
    else 0.0
  }

  /** `min(count * weight, 25)`. */
  function CountPenalty(count: nat, weight: real): (p: real)
    requires weight > 0.0
    ensures 0.0 <= p <= 25.0
    ensures p == 0.0 <==> count == 0
  {
    if count as real * weight < 25.0 then count as real * weight else 25.0
  }

  /** More occurrences never cost less. */
  lemma CountPenaltyMonotone(a: nat, b: nat, weight: real)
    requires weight > 0.0 && a <= b
    ensures CountPenalty(a, weight) <= CountPenalty(b, weight)
  {
    var x, y := a as real * weight, b as real * weight;
    ScaleMonotone(weight, a as real, b as real);
    assert CountPenalty(a, weight) == if x < 25.0 then x else 25.0;
    assert CountPenalty(b, weight) == if y < 25.0 then y else 25.0;
  }


  /** `calculate_quality_score`: 100 less the latency, rate, gap (5 each) and error (2 each)
      deductions, and never below zero. The maximum latency and the stale count it is given play
      no part, so they are not parameters here. */
  function QualityScore(c: DataQualityConfig, avgLatency: real, messageRate: real,
                        gapCount: nat, errorCount: nat): (score: real)
    ensures score >= 0.0
    ensures c.maxLatencyMs >= 0.0 && c.minMessageRate >= 0.0 ==> score <= 100.0
    ensures score < 25.0 ==> avgLatency > c.maxLatencyMs
  {
    var s := 100.0 - LatencyPenalty(c, avgLatency) - RatePenalty(c, messageRate)
             - CountPenalty(gapCount, 5.0) - CountPenalty(errorCount, 2.0);
    if s > 0.0 then s else 0.0
  }

  /** With thresholds that are not negative, the score is full exactly when nothing is wrong. */
  lemma FullScoreIff(c: DataQualityConfig, avgLatency: real, messageRate: real,
                     gapCount: nat, errorCount: nat)
    requires c.maxLatencyMs >= 0.0 && c.minMessageRate >= 0.0
    ensures QualityScore(c, avgLatency, messageRate, gapCount, errorCount) == 100.0 <==>
      avgLatency <= c.maxLatencyMs && messageRate >= c.minMessageRate &&
      gapCount == 0 && errorCount == 0
  {
  }

  /** More gaps or more errors never raise the score. */
  lemma ScoreMonotone(c: DataQualityConfig, avgLatency: real, messageRate: real,
                      gaps: nat, moreGaps: nat, errors: nat, moreErrors: nat)
    requires gaps <= moreGaps && errors <= moreErrors
    ensures QualityScore(c, avgLatency, messageRate, moreGaps, moreErrors) <=
            QualityScore(c, avgLatency, messageRate, gaps, errors)
  {
    CountPenaltyMonotone(gaps, moreGaps, 5.0);
    CountPenaltyMonotone(errors, moreErrors, 2.0);
  }

  /** The scores of the three cases the source checks, under the default configuration: a
      healthy feed scores 100, a mean latency five times the limit loses the full 50 latency
      points, and five gaps lose 25. */
  lemma DefaultScoreExamples()
    ensures QualityScore(DefaultConfig, 100.0, 10.0, 0, 0) == 100.0
    ensures QualityScore(DefaultConfig, 5000.0, 10.0, 0, 0) == 50.0
    ensures QualityScore(DefaultConfig, 100.0, 10.0, 5, 0) == 75.0
  {
    assert LatencyPenalty(DefaultConfig, 5000.0) == 50.0;
  }

  /** The status for a score: Good from 80, Degraded from 50, Poor from 20, and Disconnected
      below. */
  function StatusOf(score: real): DataQualityStatus {
    if score >= 80.0 then Good
    else if score >= 50.0 then Degraded
    else if score >= 20.0 then Poor
    else DataQualityStatus.Disconnected
  }

  /** How bad a status is. */
  function Severity(s: DataQualityStatus): nat {
    match s
      case Good => 0
      case Degraded => 1
      case Poor => 2
      case Disconnected => 3
  }

  /** A higher score never gives a worse status; Poor or Disconnected means a score below 50. */
  lemma StatusMonotone(a: real, b: real)
    requires a <= b
    ensures Severity(StatusOf(b)) <= Severity(StatusOf(a))
    ensures StatusOf(a) in {Poor, DataQualityStatus.Disconnected} <==> a < 50.0
  {
  }

  /** Only a latency above the limit can bring a feed down to the Disconnected status: all other
      deductions together leave at least 25 points. */
  lemma DisconnectedNeedsLatency(c: DataQualityConfig, avgLatency: real, messageRate: real,
                                 gapCount: nat, errorCount: nat)
    requires StatusOf(QualityScore(c, avgLatency, messageRate, gapCount, errorCount))
             == DataQualityStatus.Disconnected
    ensures avgLatency > c.maxLatencyMs
  {
  }

  /** The report of `get_metrics` for a stored record. */
  function Report(symbol: string, m: SymbolMetrics, c: DataQualityConfig): (r: DataQualityMetrics)
    ensures r.symbol == symbol && r.connectionStatus == m.connectionStatus
    ensures r.lastMessageTime == if m.lastMessageTime.Some? then m.lastMessageTime.value else 0
    ensures r.gapCount == m.gapCount && r.staleDataCount == m.staleDataCount
    ensures r.duplicateCount == m.duplicateCount && r.totalMessages == m.totalMessages
    ensures r.errorCount == m.errorCount
    ensures forall i :: 0 <= i < |m.latencies| ==> m.latencies[i] <= r.maxLatencyMs
    ensures (forall i :: 0 <= i < |m.latencies| ==> m.latencies[i] >= 0.0) ==>
              0.0 <= r.avgLatencyMs <= r.maxLatencyMs
    ensures r.messageRate >= 0.0
    ensures r.qualityScore == QualityScore(c, r.avgLatencyMs, r.messageRate, m.gapCount, m.errorCount)
    ensures r.status == StatusOf(r.qualityScore)
  {
    AverageWithinMax(m.latencies);
    var avg := AverageLatency(m.latencies);
    var rate := MessageRate(m.messageTimestamps);
    var score := QualityScore(c, avg, rate, m.gapCount, m.errorCount);
    DataQualityMetrics(
      symbol, m.connectionStatus,
      if m.lastMessageTime.Some? then m.lastMessageTime.value else 0,
      avg, MaxLatency(m.latencies), rate, m.gapCount, m.staleDataCount, m.duplicateCount,
      m.totalMessages, m.errorCount, score, StatusOf(score))
  }

  /** The symbols of a map in the order its iteration visits them: each once, in an order the
      map chooses. */
  method KeyOrder(keys: set<string>) returns (order: seq<string>)
    ensures |order| == |keys|
    ensures forall s :: s in order <==> s in keys
    ensures forall i, j :: 0 <= i < j < |order| ==> order[i] != order[j]
    decreases |keys|
  {
    if keys == {} {
      return [];
    }
    var symbol :| symbol in keys;
    var rest := KeyOrder(keys - {symbol});
    order := [symbol] + rest;
  }

  /** The loop of `get_all_metrics`: the report of each symbol of `order`, in that order. */
  method ReportsInOrder(metrics: map<string, SymbolMetrics>, c: DataQualityConfig, order: seq<string>)
    returns (reports: seq<DataQualityMetrics>)
    requires forall s :: s in order ==> s in metrics
    ensures |reports| == |order|
    ensures forall j :: 0 <= j < |order| ==> reports[j] == Report(order[j], metrics[order[j]], c)
  {
    reports := [];
    for k := 0 to |order|
      invariant |reports| == k
      invariant forall j :: 0 <= j < k ==> reports[j] == Report(order[j], metrics[order[j]], c)
    {
      reports := reports + [Report(order[k], metrics[order[k]], c)];
    }
  }

  /** Whether a report counts as poor quality: Poor or Disconnected. */
  predicate IsPoor(r: DataQualityMetrics) {
    r.status == Poor || r.status == DataQualityStatus.Disconnected
  }

  /** The symbols of the poor reports, in order. */
  function PoorSymbols(reports: seq<DataQualityMetrics>): (symbols: seq<string>)
    ensures |symbols| <= |reports|
  {
    if reports == [] then []
    else (if IsPoor(reports[0]) then [reports[0].symbol] else []) + PoorSymbols(reports[1..])
  }

  /** When every report's symbol is among `keys`, every key has a report, and a report is poor
      exactly when `poor` holds of its symbol, the poor symbols are exactly the keys `poor`
      accepts. */
  lemma PoorSymbolsExactly(all: seq<DataQualityMetrics>, keys: set<string>, poor: string -> bool, s: string)
    requires forall i :: 0 <= i < |all| ==> all[i].symbol in keys && (IsPoor(all[i]) <==> poor(all[i].symbol))
    requires forall t :: t in keys ==> exists i :: 0 <= i < |all| && all[i].symbol == t
    ensures s in PoorSymbols(all) <==> s in keys && poor(s)
  {
    PoorSymbolsMembers(all, s);
    if s in keys {
      var i :| 0 <= i < |all| && all[i].symbol == s;
    }
  }

  /** A report is poor exactly when its score is below 50. */
  lemma ReportPoor(symbol: string, m: SymbolMetrics, c: DataQualityConfig)
    ensures IsPoor(Report(symbol, m, c)) <==> Report(symbol, m, c).qualityScore < 50.0
  {
    var r := Report(symbol, m, c);
    StatusMonotone(r.qualityScore, r.qualityScore);
  }

  lemma {:induction false} PoorSymbolsMembers(reports: seq<DataQualityMetrics>, s: string)
    ensures s in PoorSymbols(reports) <==>
      exists i :: 0 <= i < |reports| && reports[i].symbol == s && IsPoor(reports[i])
  {
    if reports != [] {
      PoorSymbolsMembers(reports[1..], s);
      if s in PoorSymbols(reports[1..]) {
        var i :| 0 <= i < |reports[1..]| && reports[1..][i].symbol == s && IsPoor(reports[1..][i]);
        assert reports[i + 1] == reports[1..][i];
      }
      if exists i :: 0 <= i < |reports| && reports[i].symbol == s && IsPoor(reports[i]) {
        var i :| 0 <= i < |reports| && reports[i].symbol == s && IsPoor(reports[i]);
        if i > 0 {
          assert reports[1..][i - 1] == reports[i];
        }
      }
    }
  }

  /** `DataQualityMonitor`. The database handle it holds is never used by the operations here. */
  class DataQualityMonitor {
    var config: DataQualityConfig
    var metrics: map<string, SymbolMetrics>

    predicate Valid()
      reads this
    {
      AllTracked(metrics)
    }

    /** `new(db, config)`: no symbol tracked yet. */
    constructor (config: DataQualityConfig)
      ensures Valid()
      ensures this.config == config && metrics == map[]
    {
      this.config := config;
      metrics := map[];
    }

    /** `with_defaults(db)`. */
    constructor WithDefaults()
      ensures Valid()
      ensures config == DefaultConfig && metrics == map[]
    {
      config := DefaultConfig;
      metrics := map[];
    }

    /** `record_message(symbol, latency_ms)` at time `now`. */
    method RecordMessage(symbol: string, latencyMs: real, now: int)
      requires Valid()
      modifies this
      ensures Valid()
      ensures config == old(config)
      ensures metrics == old(metrics)[symbol := Received(Entry(old(metrics), symbol), latencyMs, now)]
    {
      var entry := Entry(metrics, symbol);
      NewMetricsTracked();
      var latencies := entry.latencies + [latencyMs];
      var timestamps := entry.messageTimestamps + [now];
      if |latencies| > WindowLimit {
        latencies := latencies[1..];
      }
      if |timestamps| > WindowLimit {
        timestamps := timestamps[1..];
      }
      var m := entry.(connectionStatus := Connected, lastMessageTime := Some(now),
                      latencies := latencies, messageTimestamps := timestamps,
                      totalMessages := entry.totalMessages + 1);
      assert m == Received(entry, latencyMs, now);
      ReceivedKeepsTracked(entry, latencyMs, now);
      AllTrackedUpdate(metrics, symbol, m);
      metrics := metrics[symbol := m];
    }

    /** `record_kline(kline)` at time `now`, under the current stale threshold. */
    method RecordKline(k: TradeTypes.Kline, now: int)
      requires Valid()
      modifies this
      ensures Valid()
      ensures config == old(config)
      ensures metrics == old(metrics)[k.symbol :=
        KlineSeen(Entry(old(metrics), k.symbol), k, now, old(config).staleThresholdSeconds)]
    {
      var m := Entry(metrics, k.symbol);
      NewMetricsTracked();
      if m.lastKline.Some? {
        var expected := ParseTimeframe(k.timeframe);
        if expected.Some? {
          var actualGap := TruncDiv(k.timestamp - m.lastKline.value.timestamp, 1000);
          if actualGap > expected.value * 2 {
            m := m.(gapCount := m.gapCount + 1);
          }
          if k.timestamp == m.lastKline.value.timestamp {
            m := m.(duplicateCount := m.duplicateCount + 1);
          }
        }
      }
      if m.lastMessageTime.Some? {
        var age := TruncDiv(now - m.lastMessageTime.value, 1000);
        if age > config.staleThresholdSeconds {
          m := m.(staleDataCount := m.staleDataCount + 1);
        }
      }
      m := m.(lastKline := Some(k));
      assert m == KlineSeen(Entry(metrics, k.symbol), k, now, config.staleThresholdSeconds);
      KlineSeenKeepsTracked(Entry(metrics, k.symbol), k, now, config.staleThresholdSeconds);
      AllTrackedUpdate(metrics, k.symbol, m);
      metrics := metrics[k.symbol := m];
    }

    /** `record_error(symbol)`: one more error for a tracked symbol; nothing for another. */
    method RecordError(symbol: string)
      requires Valid()
      modifies this
      ensures Valid()
      ensures config == old(config)
      ensures symbol in old(metrics) ==>
        metrics == old(metrics)[symbol := old(metrics)[symbol].(errorCount := old(metrics)[symbol].errorCount + 1)]
      ensures symbol !in old(metrics) ==> metrics == old(metrics)
    {
      if symbol in metrics {
        metrics := metrics[symbol := metrics[symbol].(errorCount := metrics[symbol].errorCount + 1)];
      }
    }

    /** `mark_disconnected(symbol)`: only a tracked symbol changes. */
    method MarkDisconnected(symbol: string)
      requires Valid()
      modifies this
      ensures Valid()
      ensures config == old(config)
      ensures symbol in old(metrics) ==>
        metrics == old(metrics)[symbol := old(metrics)[symbol].(connectionStatus := ConnectionStatus.Disconnected)]
      ensures symbol !in old(metrics) ==> metrics == old(metrics)
    {
      if symbol in metrics {
        metrics := metrics[symbol := metrics[symbol].(connectionStatus := ConnectionStatus.Disconnected)];
      }
    }

    /** `mark_reconnecting(symbol)`: only a tracked symbol changes. */
    method MarkReconnecting(symbol: string)
      requires Valid()
      modifies this
      ensures Valid()
      ensures config == old(config)
      ensures symbol in old(metrics) ==>
        metrics == old(metrics)[symbol := old(metrics)[symbol].(connectionStatus := Reconnecting)]
      ensures symbol !in old(metrics) ==> metrics == old(metrics)
    {
      if symbol in metrics {
        metrics := metrics[symbol := metrics[symbol].(connectionStatus := Reconnecting)];
      }
    }

    /** `reset_metrics(symbol)`: the symbol starts over, tracked or not before. */
    method ResetMetrics(symbol: string)
      requires Valid()
      modifies this
      ensures Valid()
      ensures config == old(config)
      ensures metrics == old(metrics)[symbol := NewMetrics]
    {
      NewMetricsTracked();
      metrics := metrics[symbol := NewMetrics];
    }

    /** `update_config(config)`: later scores and stale tests use the new settings. */
    method UpdateConfig(c: DataQualityConfig)
      requires Valid()
      modifies this
      ensures Valid()
      ensures config == c && metrics == old(metrics)
    {
      config := c;
    }

    /** `get_metrics(symbol)`: the report for a tracked symbol, and nothing for another. */
    function GetMetrics(symbol: string): (r: Option<DataQualityMetrics>)
      reads this
      ensures r.Some? <==> symbol in metrics
      ensures r.Some? ==> r.value.symbol == symbol && r.value.qualityScore >= 0.0
      ensures r.Some? && config.maxLatencyMs >= 0.0 && config.minMessageRate >= 0.0 ==>
                r.value.qualityScore <= 100.0
    {
      if symbol in metrics then Some(Report(symbol, metrics[symbol], config)) else None
    }

    /** `get_all_metrics()`: one report per tracked symbol, in the map's own order. */
    method GetAllMetrics() returns (reports: seq<DataQualityMetrics>)
      ensures |reports| == |metrics|
      ensures forall i :: 0 <= i < |reports| ==> GetMetrics(reports[i].symbol) == Some(reports[i])
      ensures forall i, j :: 0 <= i < j < |reports| ==> reports[i].symbol != reports[j].symbol
      ensures forall s :: s in metrics ==> exists i :: 0 <= i < |reports| && reports[i].symbol == s
    {
      var order := KeyOrder(metrics.Keys);
      reports := ReportsInOrder(metrics, config, order);
      forall s | s in metrics
        ensures exists i :: 0 <= i < |reports| && reports[i].symbol == s
      {
        var i :| 0 <= i < |order| && order[i] == s;
        assert reports[i].symbol == s;
      }
    }

    /** `get_poor_quality_symbols()`: exactly the tracked symbols whose score is below 50. */
    method GetPoorQualitySymbols() returns (symbols: seq<string>)
      ensures forall s :: s in symbols <==>
        s in metrics && Report(s, metrics[s], config).qualityScore < 50.0
    {
      var all := GetAllMetrics();
      symbols := PoorSymbols(all);
      ghost var ms, c := metrics, config;
      ghost var poor := t => t in ms && Report(t, ms[t], c).qualityScore < 50.0;
      forall i | 0 <= i < |all|
        ensures all[i].symbol in metrics && (IsPoor(all[i]) <==> poor(all[i].symbol))
      {
        assert GetMetrics(all[i].symbol) == Some(all[i]);
        ReportPoor(all[i].symbol, metrics[all[i].symbol], config);
      }
      forall s | true
        ensures s in symbols <==> s in metrics && Report(s, metrics[s], config).qualityScore < 50.0
      {
        PoorSymbolsExactly(all, metrics.Keys, poor, s);
      }
    }
  }

  /** After a message the symbol reports itself connected, with one more message counted. */
  lemma MessageConnects(m: SymbolMetrics, symbol: string, latencyMs: real, now: int, c: DataQualityConfig)
    requires Tracked(m)
    ensures Report(symbol, Received(m, latencyMs, now), c).connectionStatus == Connected
    ensures Report(symbol, Received(m, latencyMs, now), c).totalMessages == m.totalMessages + 1
    ensures Report(symbol, Received(m, latencyMs, now), c).lastMessageTime == now
  {
  }
}
