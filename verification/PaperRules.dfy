/** The rules of a paper trade: stop distance, bracket, resolution on later candles, and booking. */
module PaperRules {
  import opened Decimals
  import A = AnnyBasic
  import R = Rationals

  datatype Bias = Both | LongOnly | ShortOnly

  datatype Config = Config(
    bias: Bias, stopLossPct: real, feeRate: real, entryFeeRate: real, exitFeeRate: real, maxHoldBars: int,
    warmupBars: int, planBars: int, atrLookback: int, atrStopMult: real, minStopPct: real, maxStopPct: real)

  function Or(x: real, otherwise: real): (r: real)
    requires otherwise >= 0.0
    ensures r >= 0.0 && (r == x || r == otherwise) && (x > 0.0 ==> r == x) && (otherwise > 0.0 ==> r > 0.0)
  {
    if x <= 0.0 then otherwise else x
  }

  function OrInt(x: int, otherwise: int): (r: int)
    requires otherwise > 0
    ensures r > 0 && (x > 0 ==> r == x)
  {
    if x <= 0 then otherwise else x
  }

  function FeeOr(x: real): (r: real)
    ensures r >= 0.0
  {
    if x < 0.0 then 0.0 else if x == 0.0 then 0.0004 else x
  }

  /** Zero and negative settings fall back to their defaults. */
  function WithDefaults(c: Config): (r: Config)
    ensures Ready(r) && r.bias == c.bias && r.planBars == c.planBars
    ensures c.maxHoldBars > 0 ==> r.maxHoldBars == c.maxHoldBars
    ensures c.warmupBars > 0 ==> r.warmupBars == c.warmupBars
  {
    hide Or, OrInt, FeeOr;
    var fee := FeeOr(c.feeRate);
    Config(
      c.bias, if c.stopLossPct < 0.0 then 0.0 else c.stopLossPct, fee, Or(c.entryFeeRate, 0.0002), Or(c.exitFeeRate, fee),
      OrInt(c.maxHoldBars, 24), OrInt(c.warmupBars, 30), c.planBars, OrInt(c.atrLookback, 14), Or(c.atrStopMult, 1.5),
      Or(c.minStopPct, 0.005), Or(c.maxStopPct, 0.06))
  }

  /** What is left open takes its default; the exit fee defaults to the general one. */
  lemma DefaultsAre(bias: Bias, planBars: int)
    ensures WithDefaults(Config(bias, 0.0, 0.0, 0.0, 0.0, 0, 0, planBars, 0, 0.0, 0.0, 0.0))
         == Config(bias, 0.0, 0.0004, 0.0002, 0.0004, 24, 30, planBars, 14, 1.5, 0.005, 0.06)
  {}

  /** What is set is kept. */
  lemma SettingsAreKept(c: Config)
    requires Ready(c) && c.feeRate > 0.0 && c.exitFeeRate > 0.0
    ensures WithDefaults(c) == c
  {}

  predicate Ready(c: Config) {
    && c.stopLossPct >= 0.0 && c.entryFeeRate > 0.0 && c.exitFeeRate >= 0.0 && c.maxHoldBars > 0 && c.warmupBars > 0
    && c.atrLookback > 0 && c.atrStopMult > 0.0 && c.minStopPct > 0.0 && c.maxStopPct > 0.0
  }

  predicate BiasAllows(bias: Bias, side: A.Side) {
    match bias
    case Both => true
    case LongOnly => side == A.Long
    case ShortOnly => side == A.Short
  }

  // ---------------------------------------------------------------------------
  // Stop distance
  // ---------------------------------------------------------------------------

  /** True ranges relative to the close, of the candles lo..hi-1 with a positive close. */
  function RelativeRanges(candles: seq<A.Candle>, lo: nat, hi: nat): seq<real>
    requires 1 <= lo && hi <= |candles|
    decreases hi
  {
    if lo >= hi then []
    else
      RelativeRanges(candles, lo, hi - 1)
      + (if candles[hi - 1].close > 0.0 then [A.TrueRange(candles, hi - 1) / candles[hi - 1].close] else [])
  }

  function AtrStart(idx: nat, lookback: nat): nat {
    if idx < lookback then 1 else idx - lookback + 1
  }

  function AverageRange(candles: seq<A.Candle>, idx: nat, lookback: nat): real
    requires idx < |candles|
  {
    A.Mean(RelativeRanges(candles, AtrStart(idx, lookback), idx + 1))
  }

  method AtrPct(candles: seq<A.Candle>, idx: nat, lookback: nat) returns (r: real)
    requires idx < |candles| && lookback >= 1
    ensures r == A.Mean(RelativeRanges(candles, AtrStart(idx, lookback), idx + 1))
  {
    hide A.Sum, RelativeRanges;
    NoneRelative(candles, AtrStart(idx, lookback));
    var start := idx - lookback + 1;
    if start < 1 {
      start := 1;
    }
    var sum, n, j := 0.0, 0, start;
    while j <= idx
      invariant start <= j <= idx + 1
      invariant sum == A.Sum(RelativeRanges(candles, start, j)) && n == |RelativeRanges(candles, start, j)|
    {
      ghost var before := RelativeRanges(candles, start, j);
      var c := candles[j];
      var tr := c.high - c.low;
      var d := A.Abs(c.high - candles[j - 1].close);
      if d > tr {
        tr := d;
      }
      d := A.Abs(c.low - candles[j - 1].close);
      if d > tr {
        tr := d;
      }
      assert tr == A.TrueRange(candles, j);
      NextRelative(candles, start, j);
      assert before + [] == before;
      if c.close > 0.0 {
        A.SumNext(before, tr / c.close);
        assert RelativeRanges(candles, start, j + 1) == before + [tr / c.close];
        sum := sum + tr / c.close;
        n := n + 1;
      }
      j := j + 1;
    }
    if n == 0 {
      return 0.0;
    }
    return sum / n as real;
  }

  lemma NoneRelative(candles: seq<A.Candle>, lo: nat)
    requires lo >= 1
    ensures A.Sum([]) == 0.0
    ensures forall hi: nat :: hi <= lo && hi <= |candles| ==> RelativeRanges(candles, lo, hi) == []
  {}

  lemma NextRelative(candles: seq<A.Candle>, lo: nat, j: nat)
    requires 1 <= lo <= j < |candles|
    ensures RelativeRanges(candles, lo, j + 1)
         == RelativeRanges(candles, lo, j) + (if candles[j].close > 0.0 then [A.TrueRange(candles, j) / candles[j].close] else [])
  {}

  /** The average relative range times its factor. */
  function Volatility(c: Config, candles: seq<A.Candle>, idx: nat): real
    requires Ready(c) && idx < |candles|
  {
    c.atrStopMult * AverageRange(candles, idx, c.atrLookback)
  }

  lemma VolatilityIs(c: Config, candles: seq<A.Candle>, idx: nat)
    requires Ready(c) && idx < |candles|
    ensures Volatility(c, candles, idx)
         == c.atrStopMult * A.Mean(RelativeRanges(candles, AtrStart(idx, c.atrLookback), idx + 1))
  {}

  /** A fixed distance, or volatility raised to the floor and then lowered to the cap. */
  function StopPct(c: Config, candles: seq<A.Candle>, idx: nat): (r: real)
    requires Ready(c) && idx < |candles|
    ensures r >= LeastStop(c) > 0.0
  {
    if c.stopLossPct > 0.0 then c.stopLossPct
    else
      var raw := Volatility(c, candles, idx);
      var raised := if raw < c.minStopPct then c.minStopPct else raw;
      if raised > c.maxStopPct then c.maxStopPct else raised
  }

  /** The cap wins over the floor, so the least distance is the lesser of the two. */
  function LeastStop(c: Config): real {
    if c.stopLossPct > 0.0 then c.stopLossPct else if c.minStopPct < c.maxStopPct then c.minStopPct else c.maxStopPct
  }

  /** A fixed distance is taken as it is. */
  lemma StopIsFixed(c: Config, candles: seq<A.Candle>, idx: nat)
    requires Ready(c) && idx < |candles| && c.stopLossPct > 0.0
    ensures StopPct(c, candles, idx) == c.stopLossPct
  {}

  /** Without a fixed distance the cap always binds; the distance lies between floor and cap exactly when the
      floor is not above the cap, and is the volatility times its factor whenever that lies between them. */
  lemma StopIsClamped(c: Config, candles: seq<A.Candle>, idx: nat)
    requires Ready(c) && idx < |candles| && c.stopLossPct == 0.0
    ensures StopPct(c, candles, idx) <= c.maxStopPct
    ensures c.minStopPct <= StopPct(c, candles, idx) <= c.maxStopPct <==> c.minStopPct <= c.maxStopPct
    ensures c.minStopPct > c.maxStopPct ==> StopPct(c, candles, idx) == c.maxStopPct
    ensures Volatility(c, candles, idx) == c.atrStopMult * A.Mean(RelativeRanges(candles, AtrStart(idx, c.atrLookback), idx + 1))
    ensures var raw := Volatility(c, candles, idx);
            && (c.minStopPct <= raw <= c.maxStopPct ==> StopPct(c, candles, idx) == raw)
            && (raw < c.minStopPct <= c.maxStopPct ==> StopPct(c, candles, idx) == c.minStopPct)
            && (raw > c.maxStopPct ==> StopPct(c, candles, idx) == c.maxStopPct)
  {
    hide Volatility, A.Mean, RelativeRanges;
    VolatilityIs(c, candles, idx);
  }

  const HIGH_FLOOR := Config(Both, 0.0, 0.0, 0.0, 0.0, 0, 0, 0, 0, 0.0, 0.1, 0.0)

  /** A floor of 10 % with the cap left at its default of 6 %: every stop is at 6 %, below the floor. */
  lemma StopBelowItsFloor(candles: seq<A.Candle>, idx: nat)
    requires idx < |candles|
    ensures var c := WithDefaults(HIGH_FLOOR); c.minStopPct == 0.1 && StopPct(c, candles, idx) == 0.06
  {
    var c := WithDefaults(HIGH_FLOOR);
    assert c.stopLossPct == 0.0 && c.minStopPct == 0.1 && c.maxStopPct == 0.06;
    StopIsClamped(c, candles, idx);
  }

  datatype Bracket = Bracket(stopLoss: real, takeProfit: real)

  function BracketOf(side: A.Side, entry: real, slPct: real, rr: real): Bracket {
    if side == A.Long then Bracket(entry * (1.0 - slPct), entry * (1.0 + slPct * rr))
    else Bracket(entry * (1.0 + slPct), entry * (1.0 - slPct * rr))
  }

  // ---------------------------------------------------------------------------
  // Resolution
  // ---------------------------------------------------------------------------

  datatype Outcome = TookProfit | StoppedOut | TimedOut

  datatype Resolution = Resolution(price: real, outcome: Outcome, index: nat)

  predicate HitsStop(side: A.Side, b: Bracket, c: A.Candle) {
    if side == A.Long then c.low <= b.stopLoss else c.high >= b.stopLoss
  }

  predicate HitsProfit(side: A.Side, b: Bracket, c: A.Candle) {
    if side == A.Long then c.high >= b.takeProfit else c.low <= b.takeProfit
  }

  predicate Quiet(side: A.Side, b: Bracket, c: A.Candle) {
    !HitsStop(side, b, c) && !HitsProfit(side, b, c)
  }

  /** The first candle that touches a level decides, and a candle that touches both stops out; with no
      touch within the holding time or the series, the last candle looked at closes the trade. */
  ghost predicate IsResolution(side: A.Side, b: Bracket, candles: seq<A.Candle>, start: nat, maxHold: nat, r: Resolution)
    requires start < |candles| && maxHold > 0
  {
    && start <= r.index < |candles| && r.index < start + maxHold
    && (forall j :: start <= j < r.index ==> Quiet(side, b, candles[j]))
    && match r.outcome
       case StoppedOut => HitsStop(side, b, candles[r.index]) && r.price == b.stopLoss
       case TookProfit => HitsProfit(side, b, candles[r.index]) && !HitsStop(side, b, candles[r.index]) && r.price == b.takeProfit
       case TimedOut =>
         && Quiet(side, b, candles[r.index]) && r.price == candles[r.index].close
         && (r.index == |candles| - 1 || r.index == start + maxHold - 1)
  }

  function Resolve(side: A.Side, b: Bracket, candles: seq<A.Candle>, start: nat, maxHold: nat): (r: Resolution)
    requires start < |candles| && maxHold > 0
    ensures IsResolution(side, b, candles, start, maxHold, r)
    decreases maxHold
  {
    if HitsStop(side, b, candles[start]) then Resolution(b.stopLoss, StoppedOut, start)
    else if HitsProfit(side, b, candles[start]) then Resolution(b.takeProfit, TookProfit, start)
    else if start + 1 == |candles| || maxHold == 1 then Resolution(candles[start].close, TimedOut, start)
    else Resolve(side, b, candles, start + 1, maxHold - 1)
  }

  lemma ResolutionIsUnique(side: A.Side, b: Bracket, candles: seq<A.Candle>, start: nat, maxHold: nat, q: Resolution, r: Resolution)
    requires start < |candles| && maxHold > 0
    requires IsResolution(side, b, candles, start, maxHold, q) && IsResolution(side, b, candles, start, maxHold, r)
    ensures q == r
  {}

  method ResolveTrade(side: A.Side, b: Bracket, candles: seq<A.Candle>, start: nat, maxHold: nat) returns (r: Resolution)
    requires start < |candles| && maxHold > 0
    ensures r == Resolve(side, b, candles, start, maxHold)
  {
    var last, j := start, start;
    while j < |candles| && j < start + maxHold
      invariant start <= j <= |candles| && j <= start + maxHold
      invariant last == if j == start then start else j - 1
      invariant forall k :: start <= k < j ==> Quiet(side, b, candles[k])
    {
      last := j;
      if HitsStop(side, b, candles[j]) {
        r := Resolution(b.stopLoss, StoppedOut, j);
        ResolutionIsUnique(side, b, candles, start, maxHold, r, Resolve(side, b, candles, start, maxHold));
        return;
      }
      if HitsProfit(side, b, candles[j]) {
        r := Resolution(b.takeProfit, TookProfit, j);
        ResolutionIsUnique(side, b, candles, start, maxHold, r, Resolve(side, b, candles, start, maxHold));
        return;
      }
      j := j + 1;
    }
    r := Resolution(candles[last].close, TimedOut, last);
    ResolutionIsUnique(side, b, candles, start, maxHold, r, Resolve(side, b, candles, start, maxHold));
  }

  // ---------------------------------------------------------------------------
  // Booking
  // ---------------------------------------------------------------------------

  /** Relative move in the trade's favour. */
  function Move(side: A.Side, entry: real, exit: real): real {
    var move := if entry == 0.0 then 0.0 else (exit - entry) / entry;
    if side == A.Short then -move else move
  }

  function Clamp(raw: real, risk: real, reward: real): real {
    if raw > reward then reward else if raw < -risk then -risk else raw
  }

  /** Profit of one trade after fees on both legs. */
  function Profit(side: A.Side, entry: real, r: Resolution, slPct: real, risk: real, reward: real, feeRate: real): (p: real)
    requires slPct > 0.0 && risk > 0.0 && reward > 0.0 && feeRate >= 0.0
    ensures -risk - feeRate * (risk / slPct) <= p <= reward - feeRate * (risk / slPct)
  {
    var notional := risk / slPct;
    var fee := feeRate * notional;
    match r.outcome
    case TookProfit => reward - fee
    case StoppedOut => -risk - fee
    case TimedOut => Clamp(Move(side, entry, r.price) * notional, risk, reward) - fee
  }

  /** The nearest integer; a tie goes to the even one. */
  function RoundHalfEven(x: real): int {
    var f := x.Floor;
    var rest := x - f as real;
    if rest < 0.5 || (rest == 0.5 && f % 2 == 0) then f else f + 1
  }

  /** A profit as a decimal of four places. */
  function Usdt(x: real): Decimal {
    Normal(Decimal(RoundHalfEven(x * 10000.0), 4))
  }

  lemma UsdtIsNear(x: real)
    ensures x - 0.00005 <= Val(Usdt(x)) <= x + 0.00005
  {
    var n := RoundHalfEven(x * 10000.0);
    assert x * 10000.0 - 0.5 <= n as real <= x * 10000.0 + 0.5;
    NormalKeepsValue(Decimal(n, 4));
    TenThousand();
    R.RatioIs(n, 10000, n as real / 10000.0);
    hide Normal;
  }

  lemma TenThousand()
    ensures Pow10(4) == 10000
  {
    assert Pow10(2) == 100;
  }

  /** The value of a positive decimal, or a default. */
  function FloatOf(d: Decimal, otherwise: real): (r: real)
    requires otherwise > 0.0
    ensures r > 0.0
  {
    if !IsPositive(d) then otherwise
    else
      FloatIsValue(d);
      d.coefficient as real / Pow10(d.scale) as real
  }

  lemma FloatIsValue(d: Decimal)
    ensures d.coefficient as real / Pow10(d.scale) as real == Val(d)
    ensures IsPositive(d) ==> Val(d) > 0.0
  {
    CmpIsExact(d, ZERO);
    R.RatioIs(d.coefficient, Pow10(d.scale), d.coefficient as real / Pow10(d.scale) as real);
  }
}
