/** The ANNY Basic model: what it observes at an execution candle and what it decides. QQE is left as a
    function of closes; prices are reals. */
module AnnyBasic {
  import opened Common
  import opened Decimals
  import R = Rationals

  datatype Candle = Candle(openTime: Time, open: real, high: real, low: real, close: real, volume: real)

  datatype Side = Long | Short

  datatype Zone = Neutral | Green | Red

  datatype Cross = NoCross | CrossUp | CrossDown

  datatype Point = Point(rsi: real, signal: real)

  datatype Reading = Reading(current: Point, previous: Point)

  /** The current and previous point, or too little data. */
  type Qqe = seq<real> -> Option<Reading>

  datatype Observation = Observation(
    zone: Zone, qqeValue: real, cross: Cross, aligned: bool, momentum: bool, extended: bool, abnormal: bool, sideways: bool)

  const MAIN_INTERVAL: Time := 15 * MINUTE
  const FRESH_BARS: nat := 4
  const CDC_FAST: nat := 12
  const CDC_SLOW: nat := 26
  const EXEC_FAST: nat := 5
  const EXEC_SLOW: nat := 13
  const VOLATILITY: nat := 14
  const VOLUME: nat := 20

  function Abs(x: real): real {
    if x < 0.0 then -x else x
  }

  function Max(x: real, y: real): real {
    if x > y then x else y
  }

  function Closes(candles: seq<Candle>): seq<real> {
    seq(|candles|, i requires 0 <= i < |candles| => candles[i].close)
  }

  // ---------------------------------------------------------------------------
  // Averages
  // ---------------------------------------------------------------------------

  function Sum(values: seq<real>): real {
    if values == [] then 0.0 else Sum(values[..|values| - 1]) + values[|values| - 1]
  }

  /** The last value of the exponential average, seeded with the plain average of the first period. */
  function Ema(values: seq<real>, period: nat): Option<real>
    decreases |values|
  {
    if period == 0 || |values| < period then None
    else if |values| == period then Some(Sum(values) / period as real)
    else
      var k := 2.0 / (period + 1) as real;
      match Ema(values[..|values| - 1], period)
      case Some(before) => Some(values[|values| - 1] * k + before * (1.0 - k))
      case None => None
  }

  /** Each value moves the average two over one more than the period of the way towards itself. */
  lemma EmaMoves(values: seq<real>, x: real, period: nat)
    requires 0 < period <= |values|
    ensures Ema(values, period).Some? && Ema(values + [x], period).Some?
    ensures Ema(values + [x], period).value - Ema(values, period).value == (x - Ema(values, period).value) * (2.0 / (period + 1) as real)
  {
    EmaExists(values, period);
    assert (values + [x])[..|values|] == values;
  }

  lemma {:induction false} EmaExists(values: seq<real>, period: nat)
    requires 0 < period <= |values|
    ensures Ema(values, period).Some?
    ensures |values| == period ==> Ema(values, period).value == Mean(values)
  {
    if |values| > period {
      EmaExists(values[..|values| - 1], period);
    }
  }

  function CdcZone(closes: seq<real>): Option<Zone> {
    var fast, slow := Ema(closes, CDC_FAST), Ema(closes, CDC_SLOW);
    if fast.None? || slow.None? then None
    else Some(if fast.value > slow.value then Green else if fast.value < slow.value then Red else Neutral)
  }

  function TrueRange(candles: seq<Candle>, i: nat): real
    requires i < |candles|
  {
    var range := candles[i].high - candles[i].low;
    if i == 0 then range
    else Max(Max(range, Abs(candles[i].high - candles[i - 1].close)), Abs(candles[i].low - candles[i - 1].close))
  }

  /** The true range of a candle is the longest way from high to low that starts from its own span or from the close
      before it. */
  lemma TrueRangeIs(candles: seq<Candle>, i: nat)
    requires 0 < i < |candles| && candles[i].low <= candles[i].high
    ensures var c, close := candles[i], candles[i - 1].close;
            TrueRange(candles, i) == (if close > c.high then close else c.high) - (if close < c.low then close else c.low)
  {}

  /** True ranges of the candles lo..hi-1. */
  function TrueRanges(candles: seq<Candle>, lo: nat, hi: nat): seq<real>
    requires hi <= |candles|
  {
    if lo >= hi then [] else seq(hi - lo, i requires 0 <= i < hi - lo => TrueRange(candles, lo + i))
  }

  function Mean(values: seq<real>): real {
    if values == [] then 0.0 else Sum(values) / |values| as real
  }

  lemma SumNext(values: seq<real>, x: real)
    ensures Sum(values + [x]) == Sum(values) + x
  {
    assert (values + [x])[..|values|] == values;
  }

  lemma RangesNext(candles: seq<Candle>, lo: nat, hi: nat)
    requires lo <= hi < |candles|
    ensures TrueRanges(candles, lo, hi + 1) == TrueRanges(candles, lo, hi) + [TrueRange(candles, hi)]
  {}

  function RangeStart(index: nat, period: nat): nat {
    if index < period then 1 else index - period + 1
  }

  /** Mean true range over the last `period` candles up to index, the first candle of all left out. */
  function AverageRange(candles: seq<Candle>, index: nat, period: nat): real
    requires index < |candles|
  {
    Mean(TrueRanges(candles, RangeStart(index, period), index + 1))
  }

  method AverageTrueRange(candles: seq<Candle>, index: nat, period: nat) returns (r: real)
    requires index < |candles|
    ensures r == Mean(TrueRanges(candles, RangeStart(index, period), index + 1))
  {
    var start := index - period + 1;
    if start < 1 {
      start := 1;
    }
    var total, count, i := 0.0, 0, start;
    while i <= index
      invariant start <= i && (i <= index + 1 || i == start)
      invariant count == i - start && (i <= index + 1 ==> total == Sum(TrueRanges(candles, start, i)))
      invariant count == 0 ==> total == 0.0
    {
      RangesNext(candles, start, i);
      SumNext(TrueRanges(candles, start, i), TrueRange(candles, i));
      total := total + TrueRange(candles, i);
      count := count + 1;
      i := i + 1;
    }
    if count == 0 {
      return 0.0;
    }
    return total / count as real;
  }

  function Volumes(candles: seq<Candle>): seq<real> {
    seq(|candles|, i requires 0 <= i < |candles| => candles[i].volume)
  }

  /** Average volume of the candles before index. */
  function AverageVolume(candles: seq<Candle>, index: nat, period: nat): real
    requires index < |candles|
  {
    var start := if index < period then 0 else index - period;
    if start == index then 0.0 else Sum(Volumes(candles[start..index])) / (index - start) as real
  }

  // ---------------------------------------------------------------------------
  // Scans over recent bars
  // ---------------------------------------------------------------------------

  /** Candles from the front that have closed by `at`. */
  function ClosedPrefix(candles: seq<Candle>, at: Time): nat
    ensures ClosedPrefix(candles, at) <= |candles|
  {
    if candles == [] || candles[0].openTime + MAIN_INTERVAL > at then 0 else 1 + ClosedPrefix(candles[1..], at)
  }

  method ClosedBefore(candles: seq<Candle>, at: Time) returns (closed: seq<Candle>)
    ensures closed == candles[..ClosedPrefix(candles, at)]
    ensures forall i :: 0 <= i < |closed| ==> closed[i].openTime + MAIN_INTERVAL <= at
    ensures |closed| < |candles| ==> candles[|closed|].openTime + MAIN_INTERVAL > at
  {
    var end := 0;
    while end < |candles|
      invariant 0 <= end <= |candles|
      invariant ClosedPrefix(candles, at) == end + ClosedPrefix(candles[end..], at)
      invariant forall i :: 0 <= i < end ==> candles[i].openTime + MAIN_INTERVAL <= at
    {
      if candles[end].openTime + MAIN_INTERVAL > at {
        break;
      }
      assert candles[end..][1..] == candles[end + 1..];
      end := end + 1;
    }
    closed := candles[..end];
  }

  /** The zone differed from the current one at most maxBars bars ago, every bar between being readable. */
  function FreshFrom(closes: seq<real>, current: Zone, barsAgo: nat, limit: nat): bool
    requires limit <= |closes|
    decreases limit + 1 - barsAgo
  {
    if barsAgo > limit then false
    else match CdcZone(closes[..|closes| - barsAgo])
      case None => false
      case Some(previous) => previous != current || FreshFrom(closes, current, barsAgo + 1, limit)
  }

  function FreshLimit(closes: seq<real>, maxBars: nat): nat {
    if |closes| == 0 then 0 else if |closes| - 1 < maxBars then |closes| - 1 else maxBars
  }

  function TransitionFresh(closes: seq<real>, current: Zone, maxBars: nat): bool {
    current != Neutral && maxBars > 0 && |closes| >= 2 && FreshFrom(closes, current, 1, FreshLimit(closes, maxBars))
  }

  predicate HadZone(closes: seq<real>, barsAgo: nat, zone: Zone) {
    barsAgo <= |closes| && CdcZone(closes[..|closes| - barsAgo]) == Some(zone)
  }

  /** Some bar at lo..limit bars ago had another zone, and every bar after it had the current one. */
  ghost predicate TurnedWithin(closes: seq<real>, current: Zone, lo: nat, limit: nat) {
    exists k, z :: lo <= k <= limit && HadZone(closes, k, z) && z != current && forall j :: lo <= j < k ==> HadZone(closes, j, current)
  }

  lemma TurnedUnfolds(closes: seq<real>, current: Zone, lo: nat, limit: nat)
    ensures TurnedWithin(closes, current, lo, limit) <==>
              lo <= limit && ((exists z :: HadZone(closes, lo, z) && z != current)
                              || (HadZone(closes, lo, current) && TurnedWithin(closes, current, lo + 1, limit)))
  {
    hide HadZone;
    if TurnedWithin(closes, current, lo, limit) {
      var k, z :| lo <= k <= limit && HadZone(closes, k, z) && z != current && forall j :: lo <= j < k ==> HadZone(closes, j, current);
      assert k == lo || HadZone(closes, lo, current);
    }
    if lo <= limit && HadZone(closes, lo, current) && TurnedWithin(closes, current, lo + 1, limit) {
      var k, z :| lo + 1 <= k <= limit && HadZone(closes, k, z) && z != current && forall j :: lo + 1 <= j < k ==> HadZone(closes, j, current);
      assert forall j :: lo <= j < k ==> HadZone(closes, j, current);
    }
  }

  lemma {:induction false} FreshIsTurned(closes: seq<real>, current: Zone, barsAgo: nat, limit: nat)
    requires limit <= |closes|
    ensures FreshFrom(closes, current, barsAgo, limit) <==> TurnedWithin(closes, current, barsAgo, limit)
    decreases limit + 1 - barsAgo
  {
    hide CdcZone, TurnedWithin;
    TurnedUnfolds(closes, current, barsAgo, limit);
    if barsAgo <= limit && CdcZone(closes[..|closes| - barsAgo]).Some? {
      assert HadZone(closes, barsAgo, CdcZone(closes[..|closes| - barsAgo]).value);
      FreshIsTurned(closes, current, barsAgo + 1, limit);
    }
  }

  method CdcTransitionFresh(closes: seq<real>, current: Zone, maxBars: nat) returns (r: bool)
    ensures r == TransitionFresh(closes, current, maxBars)
    ensures r <==> current != Neutral && TurnedWithin(closes, current, 1, FreshLimit(closes, maxBars))
  {
    FreshIsTurned(closes, current, 1, FreshLimit(closes, maxBars));
    if current == Neutral || maxBars <= 0 || |closes| < 2 {
      return false;
    }
    var limit := maxBars;
    if |closes| - 1 < limit {
      limit := |closes| - 1;
    }
    var barsAgo := 1;
    while barsAgo <= limit
      invariant 1 <= barsAgo <= limit + 1
      invariant FreshFrom(closes, current, 1, limit) == FreshFrom(closes, current, barsAgo, limit)
    {
      var previous := CdcZone(closes[..|closes| - barsAgo]);
      if previous.None? {
        return false;
      }
      if previous.value != current {
        return true;
      }
      barsAgo := barsAgo + 1;
    }
    return false;
  }

  function CrossOf(current: Point, previous: Point): Cross {
    if previous.rsi <= previous.signal && current.rsi > current.signal then CrossUp
    else if previous.rsi >= previous.signal && current.rsi < current.signal then CrossDown
    else NoCross
  }

  /** A cross up is momentum rising above its signal, a cross down its falling below. */
  lemma CrossIs(current: Point, previous: Point)
    ensures CrossOf(current, previous) == CrossUp <==> previous.rsi <= previous.signal && current.rsi > current.signal
    ensures CrossOf(current, previous) == CrossDown <==> previous.rsi >= previous.signal && current.rsi < current.signal
  {}

  function CrossFrom(qqe: Qqe, closes: seq<real>, barsAgo: nat, limit: nat): Cross
    requires limit <= |closes|
    decreases limit - barsAgo
  {
    if barsAgo >= limit then NoCross
    else match qqe(closes[..|closes| - barsAgo])
      case None => NoCross
      case Some(r) =>
        if CrossOf(r.current, r.previous) != NoCross then CrossOf(r.current, r.previous)
        else CrossFrom(qqe, closes, barsAgo + 1, limit)
  }

  function CrossLimit(closes: seq<real>, maxBars: nat): nat {
    if |closes| >= maxBars + 1 then maxBars else if |closes| == 0 then 0 else |closes| - 1
  }

  /** The bar that many bars ago is readable and shows this cross. */
  predicate Shows(qqe: Qqe, closes: seq<real>, barsAgo: nat, cross: Cross) {
    && barsAgo <= |closes| && qqe(closes[..|closes| - barsAgo]).Some?
    && CrossOf(qqe(closes[..|closes| - barsAgo]).value.current, qqe(closes[..|closes| - barsAgo]).value.previous) == cross
  }

  /** The latest bar with a cross shows this one, and every bar after it is readable. */
  ghost predicate LatestCross(qqe: Qqe, closes: seq<real>, lo: nat, limit: nat, cross: Cross) {
    cross != NoCross && exists k :: lo <= k < limit && Shows(qqe, closes, k, cross) && forall j :: lo <= j < k ==> Shows(qqe, closes, j, NoCross)
  }

  lemma LatestUnfolds(qqe: Qqe, closes: seq<real>, lo: nat, limit: nat, cross: Cross)
    requires cross != NoCross
    ensures LatestCross(qqe, closes, lo, limit, cross) <==>
              lo < limit && (Shows(qqe, closes, lo, cross) || (Shows(qqe, closes, lo, NoCross) && LatestCross(qqe, closes, lo + 1, limit, cross)))
  {
    hide Shows;
    if LatestCross(qqe, closes, lo, limit, cross) {
      var k :| lo <= k < limit && Shows(qqe, closes, k, cross) && forall j :: lo <= j < k ==> Shows(qqe, closes, j, NoCross);
      assert k == lo || Shows(qqe, closes, lo, NoCross);
    }
    if lo < limit && Shows(qqe, closes, lo, NoCross) && LatestCross(qqe, closes, lo + 1, limit, cross) {
      var k :| lo + 1 <= k < limit && Shows(qqe, closes, k, cross) && forall j :: lo + 1 <= j < k ==> Shows(qqe, closes, j, NoCross);
      assert forall j :: lo <= j < k ==> Shows(qqe, closes, j, NoCross);
    }
  }

  lemma {:induction false} CrossIsLatest(qqe: Qqe, closes: seq<real>, barsAgo: nat, limit: nat, cross: Cross)
    requires limit <= |closes| && cross != NoCross
    ensures CrossFrom(qqe, closes, barsAgo, limit) == cross <==> LatestCross(qqe, closes, barsAgo, limit, cross)
    decreases limit - barsAgo
  {
    hide LatestCross;
    LatestUnfolds(qqe, closes, barsAgo, limit, cross);
    if barsAgo < limit {
      CrossIsLatest(qqe, closes, barsAgo + 1, limit, cross);
    }
  }

  method RecentQqeCross(qqe: Qqe, closes: seq<real>, maxBars: nat) returns (cross: Cross)
    ensures cross == CrossFrom(qqe, closes, 0, CrossLimit(closes, maxBars))
    ensures forall x :: x != NoCross ==> (cross == x <==> LatestCross(qqe, closes, 0, CrossLimit(closes, maxBars), x))
  {
    forall x | x != NoCross
      ensures CrossFrom(qqe, closes, 0, CrossLimit(closes, maxBars)) == x <==> LatestCross(qqe, closes, 0, CrossLimit(closes, maxBars), x)
    {
      CrossIsLatest(qqe, closes, 0, CrossLimit(closes, maxBars), x);
    }
    var limit: int := maxBars;
    if |closes| < limit + 1 {
      limit := |closes| - 1;
    }
    var barsAgo := 0;
    while barsAgo < limit
      invariant 0 <= barsAgo && (barsAgo <= limit || barsAgo == 0)
      invariant CrossFrom(qqe, closes, 0, CrossLimit(closes, maxBars)) == CrossFrom(qqe, closes, barsAgo, CrossLimit(closes, maxBars))
    {
      var point := qqe(closes[..|closes| - barsAgo]);
      if point.None? {
        return NoCross;
      }
      var found := CrossOf(point.value.current, point.value.previous);
      if found != NoCross {
        return found;
      }
      barsAgo := barsAgo + 1;
    }
    return NoCross;
  }

  // ---------------------------------------------------------------------------
  // Observation and decision
  // ---------------------------------------------------------------------------

  function Observe(qqe: Qqe, main: seq<Candle>, exec: seq<Candle>): Option<Observation>
    requires exec != []
  {
    var mainCloses, execCloses := Closes(main), Closes(exec);
    var found, reading := CdcZone(mainCloses), qqe(mainCloses);
    var fast, slow := Ema(execCloses, EXEC_FAST), Ema(execCloses, EXEC_SLOW);
    var mainFast, mainSlow := Ema(mainCloses, CDC_FAST), Ema(mainCloses, CDC_SLOW);
    if main == [] || found.None? || reading.None? || fast.None? || slow.None? || mainFast.None? || mainSlow.None?
       || |exec| < VOLUME + 1 then None
    else
      var index, last := |exec| - 1, exec[|exec| - 1];
      var zone := if TransitionFresh(mainCloses, found.value, FRESH_BARS) then found.value else Neutral;
      var cross := CrossFrom(qqe, mainCloses, 0, CrossLimit(mainCloses, FRESH_BARS));
      var atr, mainAtr := AverageRange(exec, index, VOLATILITY), AverageRange(main, |main| - 1, VOLATILITY);
      var averageVolume := AverageVolume(exec, index, VOLUME);
      Some(Observation(
        zone, reading.value.current.rsi, cross,
        (zone == Green && fast.value > slow.value) || (zone == Red && fast.value < slow.value),
        averageVolume > 0.0 && last.volume > averageVolume && Abs(last.close - last.open) >= atr,
        mainAtr > 0.0 && Abs(last.close - mainFast.value) > 1.5 * mainAtr,
        atr > 0.0 && TrueRange(exec, index) > 3.0 * atr,
        last.close > 0.0 && Abs(mainFast.value - mainSlow.value) / last.close < 0.001))
  }

  /** What is seen at one execution candle: the main candles closed by then and the execution candles up
      to and including it. */
  function ObserveAt(qqe: Qqe, main: seq<Candle>, exec: seq<Candle>, index: int): Option<Observation> {
    if index < 0 || index >= |exec| then None
    else
      var closed := main[..ClosedPrefix(main, exec[index].openTime)];
      if closed == [] then None else Observe(qqe, closed, exec[..index + 1])
  }

  datatype Decision = Stop | Flat(reason: string) | Enter(side: Side)

  /** Profit target, trade count, losing streak; then the market gates in fixed order; then the signal. */
  function Decide(o: Observation, trades: nat, streak: nat, pnl: Decimal): Decision {
    if Cmp(pnl, FromInt(10)) >= 0 || trades >= 15 || streak >= 2 then Stop
    else if o.abnormal then Flat("abnormal volatility")
    else if o.sideways then Flat("sideways market")
    else if o.extended then Flat("entry extended from trend")
    else if !o.aligned then Flat("execution not aligned")
    else if o.zone == Green && o.qqeValue > 50.0 && o.cross == CrossUp then Enter(Long)
    else if o.zone == Red && o.qqeValue < 50.0 && o.cross == CrossDown then Enter(Short)
    else Flat("CDC and QQE are not aligned")
  }

  // ---------------------------------------------------------------------------
  // What an entry means
  // ---------------------------------------------------------------------------

  /** Each decision, on values. */
  lemma DecideMeaning(o: Observation, trades: nat, streak: nat, pnl: Decimal)
    ensures Decide(o, trades, streak, pnl) == Stop <==> Val(pnl) >= 10.0 || trades >= 15 || streak >= 2
    ensures forall side :: Decide(o, trades, streak, pnl) == Enter(side) <==>
              && Val(pnl) < 10.0 && trades < 15 && streak < 2
              && !o.abnormal && !o.sideways && !o.extended && o.aligned
              && o.zone == (if side == Long then Green else Red) && o.cross == (if side == Long then CrossUp else CrossDown)
              && (if side == Long then o.qqeValue > 50.0 else o.qqeValue < 50.0)
  {
    hide Val, Cmp;
    CmpIsExact(pnl, FromInt(10));
    TenIsTen();
  }

  lemma TenIsTen()
    ensures Val(FromInt(10)) == 10.0
  {
    R.RatioIs(10, 1, 10.0);
  }

  /** x is on the side's better side of y. */
  predicate Beyond(side: Side, x: real, y: real) {
    if side == Long then x > y else x < y
  }

  ghost predicate EmasBeyond(side: Side, closes: seq<real>, fast: nat, slow: nat) {
    Ema(closes, fast).Some? && Ema(closes, slow).Some? && Beyond(side, Ema(closes, fast).value, Ema(closes, slow).value)
  }

  /** No candle three times the usual range, no flat trend, and no price far from the trend's average. */
  ghost predicate Calm(main: seq<Candle>, exec: seq<Candle>)
    requires main != [] && exec != []
  {
    var index, last := |exec| - 1, exec[|exec| - 1];
    var atr := Mean(TrueRanges(exec, RangeStart(index, VOLATILITY), index + 1));
    var mainAtr := Mean(TrueRanges(main, RangeStart(|main| - 1, VOLATILITY), |main|));
    var fast, slow := Ema(Closes(main), CDC_FAST), Ema(Closes(main), CDC_SLOW);
    && (atr > 0.0 ==> TrueRange(exec, index) <= 3.0 * atr)
    && fast.Some? && slow.Some?
    && (mainAtr > 0.0 ==> -1.5 * mainAtr <= last.close - fast.value <= 1.5 * mainAtr)
    && (last.close > 0.0 ==> Abs(fast.value - slow.value) / last.close >= 0.001)
  }

  /** The setup of an entry: the trend of the closed main candles points its way and turned there within four
      bars, their momentum is on its side of the middle and crossed its way within four bars, the execution
      candles' averages agree, and the market is calm. */
  ghost predicate SetUp(qqe: Qqe, main: seq<Candle>, exec: seq<Candle>, side: Side)
    requires main != [] && exec != []
  {
    var closes := Closes(main);
    && EmasBeyond(side, closes, CDC_FAST, CDC_SLOW)
    && TurnedWithin(closes, if side == Long then Green else Red, 1, FreshLimit(closes, FRESH_BARS))
    && qqe(closes).Some? && Beyond(side, qqe(closes).value.current.rsi, 50.0)
    && LatestCross(qqe, closes, 0, CrossLimit(closes, FRESH_BARS), if side == Long then CrossUp else CrossDown)
    && EmasBeyond(side, Closes(exec), EXEC_FAST, EXEC_SLOW)
    && Calm(main, exec)
  }

  /** An observed bar is entered exactly when the account's limits leave room and the candles make its setup. */
  lemma EntryMeaning(qqe: Qqe, main: seq<Candle>, exec: seq<Candle>, trades: nat, streak: nat, pnl: Decimal, side: Side)
    requires main != [] && exec != [] && Observe(qqe, main, exec).Some?
    ensures Decide(Observe(qqe, main, exec).value, trades, streak, pnl) == Enter(side) <==>
              Val(pnl) < 10.0 && trades < 15 && streak < 2 && SetUp(qqe, main, exec, side)
  {
    hide Val, Decide, Ema, Mean, TrueRanges, TrueRange, TurnedWithin, LatestCross, CrossFrom, FreshFrom, AverageVolume;
    var closes := Closes(main);
    var zone, cross := if side == Long then Green else Red, if side == Long then CrossUp else CrossDown;
    DecideMeaning(Observe(qqe, main, exec).value, trades, streak, pnl);
    FreshIsTurned(closes, zone, 1, FreshLimit(closes, FRESH_BARS));
    TurnedUnfolds(closes, zone, 1, FreshLimit(closes, FRESH_BARS));
    CrossIsLatest(qqe, closes, 0, CrossLimit(closes, FRESH_BARS), cross);
  }

  // ---------------------------------------------------------------------------
  // No look-ahead
  // ---------------------------------------------------------------------------

  lemma {:induction false} ClosedPrefixEnds(candles: seq<Candle>, at: Time)
    ensures var n := ClosedPrefix(candles, at); n < |candles| ==> candles[n].openTime + MAIN_INTERVAL > at
  {
    if ClosedPrefix(candles, at) > 0 {
      ClosedPrefixEnds(candles[1..], at);
    }
  }

  lemma {:induction false} ClosedPrefixAgrees(main: seq<Candle>, other: seq<Candle>, at: Time)
    requires var n := ClosedPrefix(main, at);
             && n <= |other| && other[..n] == main[..n]
             && (n < |other| ==> other[n].openTime + MAIN_INTERVAL > at)
    ensures ClosedPrefix(other, at) == ClosedPrefix(main, at)
  {
    var n := ClosedPrefix(main, at);
    if n > 0 {
      assert other[0] == main[..n][0] == main[0];
      assert other[1..][..n - 1] == other[..n][1..];
      assert main[1..][..n - 1] == main[..n][1..];
      ClosedPrefixAgrees(main[1..], other[1..], at);
    }
  }

  /** An observation uses no later execution candle, and no main candle that has not closed: any other
      series that agree up to there give the same observation. */
  lemma ObservationIsCausal(qqe: Qqe, main: seq<Candle>, other: seq<Candle>, a: seq<Candle>, b: seq<Candle>, index: nat)
    requires index < |a| && a <= b
    requires var n := ClosedPrefix(main, a[index].openTime);
             && n <= |other| && other[..n] == main[..n]
             && (n < |other| ==> other[n].openTime + MAIN_INTERVAL > a[index].openTime)
    ensures ObserveAt(qqe, other, b, index) == ObserveAt(qqe, main, a, index)
  {
    hide Observe, ClosedPrefix;
    assert a[..index + 1] == b[..index + 1];
    ClosedPrefixAgrees(main, other, a[index].openTime);
  }
}
