/** Planning a campaign and previewing it: how many trades a goal needs, when to stop, and a simulated
    run with evenly spread wins. */
module Campaign {
  import opened Decimals
  import opened Rationals

  datatype Goal = Goal(
    target: Decimal, reward: Decimal, risk: Decimal, winRate: int, maxTrades: int, maxDrawdown: Decimal)

  datatype Verdict = Continue | TargetReached | MaxDrawdown | MaxTrades | StrategyRule

  datatype State = State(pnl: Decimal, trades: nat)

  datatype TradeOutcome = TradeOutcome(index: nat, win: bool, pnl: Decimal, running: Decimal)

  const HARD_CAP: nat := 1000
  const MAX_INT := 0x7fff_ffff_ffff_ffff

  function ExpectedPerTrade(g: Goal): Decimal {
    var gross := Sub(Mul(g.reward, FromInt(g.winRate)), Mul(g.risk, FromInt(100 - g.winRate)));
    match QuoFloor(gross, FromInt(100), 8)
    case Ok(d) => d
    case Err(_) => ZERO
  }

  function EstimateTrades(g: Goal): Result<int> {
    if g.winRate < 0 || g.winRate > 100 then Err("assumed win rate must be between 0 and 100")
    else if !IsPositive(g.target) then Err("target profit must be positive")
    else
      var expected := ExpectedPerTrade(g);
      if !IsPositive(expected) then Err("strategy has no positive expectancy")
      else match QuoFloor(g.target, expected, 0)
        case Err(e) => Err(e)
        case Ok(whole) =>
          if whole.scale != 0 || whole.coefficient > MAX_INT then Err("estimate trades")
          else
            var count := whole.coefficient;
            Ok(if Cmp(Mul(expected, FromInt(count)), g.target) < 0 then count + 1 else count)
  }

  function Evaluate(g: Goal, s: State): Verdict {
    if Cmp(s.pnl, g.target) >= 0 then TargetReached
    else if IsPositive(g.maxDrawdown) && Cmp(s.pnl, Neg(g.maxDrawdown)) <= 0 then MaxDrawdown
    else if g.maxTrades > 0 && s.trades >= g.maxTrades then MaxTrades
    else Continue
  }

  /** Wins among the first n trades, spread evenly. */
  function WinsByNow(n: nat, winRate: int): nat {
    if winRate <= 0 then 0 else if winRate >= 100 then n else n * winRate / 100
  }

  function IsWin(g: Goal, i: nat): bool {
    WinsByNow(i + 1, g.winRate) > WinsByNow(i, g.winRate)
  }

  function TradePnl(g: Goal, i: nat): Decimal {
    if IsWin(g, i) then g.reward else Neg(g.risk)
  }

  function After(g: Goal, n: nat): State {
    if n == 0 then State(ZERO, 0) else State(Add(After(g, n - 1).pnl, TradePnl(g, n - 1)), n)
  }

  /** The preview traded on exactly while the rules said to, and stopped at the first verdict or at the
      hard cap. */
  ghost predicate StopsAfter(g: Goal, n: nat, verdict: Verdict) {
    && n <= HARD_CAP
    && (forall k :: 0 <= k < n ==> Evaluate(g, After(g, k)) == Continue)
    && verdict == Evaluate(g, After(g, n))
    && (verdict == Continue ==> n == HARD_CAP)
  }

  method Simulate(g: Goal) returns (outcomes: seq<TradeOutcome>, state: State, verdict: Verdict)
    ensures StopsAfter(g, |outcomes|, verdict) && state == After(g, |outcomes|)
    ensures forall k :: 0 <= k < |outcomes| ==>
              outcomes[k] == TradeOutcome(k + 1, IsWin(g, k), TradePnl(g, k), After(g, k + 1).pnl)
  {
    hide Evaluate, IsWin, Add, Neg;
    state := State(ZERO, 0);
    outcomes := [];
    for i := 0 to HARD_CAP
      invariant |outcomes| == i && state == After(g, i)
      invariant forall k :: 0 <= k < i ==> Evaluate(g, After(g, k)) == Continue
      invariant forall k :: 0 <= k < i ==> outcomes[k] == TradeOutcome(k + 1, IsWin(g, k), TradePnl(g, k), After(g, k + 1).pnl)
    {
      verdict := Evaluate(g, state);
      if verdict != Continue {
        return;
      }
      var win := IsWin(g, i);
      var pnl := g.reward;
      if !win {
        pnl := Neg(g.risk);
      }
      state := State(Add(state.pnl, pnl), state.trades + 1);
      outcomes := outcomes + [TradeOutcome(i + 1, win, pnl, state.pnl)];
    }
    verdict := Evaluate(g, state);
  }

  // ---------------------------------------------------------------------------
  // The edge and the estimate
  // ---------------------------------------------------------------------------

  /** Hundred times the true expectation of one trade. */
  ghost function Gross(g: Goal): real {
    Val(g.reward) * g.winRate as real - Val(g.risk) * (100 - g.winRate) as real
  }

  lemma IntValue(n: int)
    ensures Val(FromInt(n)) == n as real
  {
    RatioIs(n, 1, n as real);
  }

  lemma ExpectedMeaning(g: Goal)
    ensures Val(ExpectedPerTrade(g)) == Truncated(Over(Gross(g), 100.0), 8)
  {
    GrossMeaning(g);
    hide Val, Mul, Sub, QuoFloor, Truncated, Gross;
    IntValue(100);
    var gross := Sub(Mul(g.reward, FromInt(g.winRate)), Mul(g.risk, FromInt(100 - g.winRate)));
    QuoFloorTruncates(gross, FromInt(100), 8);
  }

  lemma GrossMeaning(g: Goal)
    ensures Val(Sub(Mul(g.reward, FromInt(g.winRate)), Mul(g.risk, FromInt(100 - g.winRate)))) == Gross(g)
  {
    hide Val, Mul, Sub;
    IntValue(g.winRate);
    IntValue(100 - g.winRate);
    MulIsExact(g.reward, FromInt(g.winRate));
    MulIsExact(g.risk, FromInt(100 - g.winRate));
    AddIsExact(Mul(g.reward, FromInt(g.winRate)), Mul(g.risk, FromInt(100 - g.winRate)));
  }

  /** Nothing is cut off the expectation. */
  ghost predicate ExactEdge(g: Goal) {
    Val(ExpectedPerTrade(g)) * 100.0 == Gross(g)
  }

  /** With at most six decimals in reward and risk the expectation is exact. */
  lemma SixDecimalsAreExact(g: Goal, reward: int, risk: int)
    requires Val(g.reward) == Ratio(reward, Pow10(6)) && Val(g.risk) == Ratio(risk, Pow10(6))
    ensures ExactEdge(g)
  {
    hide Val, ExpectedPerTrade, Truncated, Pow10, Ratio, Gross, Edge;
    ExpectedMeaning(g);
    TwoMoreDigits();
    HundredthOf(g, reward, risk, Edge(g, reward, risk));
    TruncatedExact(Edge(g, reward, risk), 8);
  }

  /** Hundred times the expectation, in millionths. */
  ghost function Edge(g: Goal, reward: int, risk: int): int {
    reward * g.winRate - risk * (100 - g.winRate)
  }

  lemma TwoMoreDigits()
    ensures Pow10(8) == 100 * Pow10(6)
  {
    assert Pow10(7) == 10 * Pow10(6);
  }

  lemma HundredthOf(g: Goal, reward: int, risk: int, n: int)
    requires Val(g.reward) == Ratio(reward, Pow10(6)) && Val(g.risk) == Ratio(risk, Pow10(6))
    requires n == Edge(g, reward, risk) && Pow10(8) == 100 * Pow10(6)
    ensures Over(Gross(g), 100.0) == Ratio(n, Pow10(8)) && Ratio(n, Pow10(8)) * 100.0 == Gross(g)
  {
    hide Val, Pow10, Ratio;
    var p := Pow10(6);
    ScaledRatio(reward, g.winRate, p);
    ScaledRatio(risk, 100 - g.winRate, p);
    RatioSum(reward * g.winRate, risk * (100 - g.winRate), p);
    assert Gross(g) == Ratio(n, p);
    TimesHundred(n, p);
    OverIs(Gross(g), 100.0, Ratio(n, 100 * p));
  }

  lemma ScaledRatio(a: int, k: int, p: int)
    requires p > 0
    ensures Ratio(a, p) * k as real == Ratio(a * k, p)
  {
    var x := Ratio(a, p);
    CastProduct(a, k);
    Commute(x, k as real, p as real);
    RatioIs(a * k, p, x * k as real);
  }

  lemma Commute(x: real, k: real, p: real)
    ensures x * k * p == (x * p) * k
  {}

  lemma TimesHundred(n: int, p: int)
    requires p > 0
    ensures Ratio(n, 100 * p) * 100.0 == Ratio(n, p)
  {
    var x := Ratio(n, 100 * p);
    CastProduct(100, p);
    Associate(x, 100.0, p as real);
    RatioIs(n, p, x * 100.0);
  }

  /** n average trades. */
  ghost function Expected(e: real, n: int): real {
    e * n as real
  }

  /** What a plan asks of its goal: a win rate, a target and a positive expectation. */
  ghost predicate Planned(g: Goal) {
    0 <= g.winRate <= 100 && Val(g.target) > 0.0 && Val(ExpectedPerTrade(g)) > 0.0
  }

  /** The estimate is the least number of average trades that reaches the target. */
  lemma EstimateIsCeiling(g: Goal)
    requires EstimateTrades(g).Ok?
    ensures var e, n := Val(ExpectedPerTrade(g)), EstimateTrades(g).value;
            Planned(g) && Expected(e, n - 1) < Val(g.target) <= Expected(e, n)
  {
    hide Val, Mul, Cmp, QuoFloor, ExpectedPerTrade, IsPositive, Truncated;
    var expected := ExpectedPerTrade(g);
    CmpIsExact(expected, ZERO);
    CmpIsExact(g.target, ZERO);
    QuoFloorTruncates(g.target, expected, 0);
    var whole := QuoFloor(g.target, expected, 0).value;
    var x := Over(Val(g.target), Val(expected));
    WholePart(whole, x, Val(g.target), Val(expected));
    var count := whole.coefficient;
    IntValue(count);
    MulIsExact(expected, FromInt(count));
    CmpIsExact(Mul(expected, FromInt(count)), g.target);
    CountOrNext(Val(expected), count, x, Val(g.target));
    hide Expected;
    var n := EstimateTrades(g).value;
    assert n == if Expected(Val(expected), count) < Val(g.target) then count + 1 else count;
    assert n - 1 == count || n == count;
  }

  /** The whole part of the quotient is enough, or the next number is. */
  lemma CountOrNext(e: real, count: int, x: real, target: real)
    requires e > 0.0 && x * e == target && count as real <= x < count as real + 1.0
    ensures Expected(e, count - 1) < target < Expected(e, count + 1)
    ensures Expected(e, count) == e * count as real
  {
    ExpectedOrder(e, count - 1, x, target);
    ExpectedOrder(e, count + 1, x, target);
    hide Expected;
    ExpectedIs(e, count);
  }

  lemma ExpectedIs(e: real, n: int)
    ensures Expected(e, n) == e * n as real
  {}

  lemma ExpectedOrder(e: real, n: int, x: real, target: real)
    requires e > 0.0 && x * e == target
    ensures (n as real) < x ==> Expected(e, n) < target
    ensures x < n as real ==> target < Expected(e, n)
  {
    ProductOrder(n as real, x, e);
    ProductOrder(x, n as real, e);
  }

  lemma QuotientIsWhole(d: Decimal, divisor: Decimal)
    requires QuoFloor(d, divisor, 0).Ok?
    ensures QuoFloor(d, divisor, 0).value.scale == 0
  {}

  /** A plan has an estimate as soon as some machine-sized number of average trades reaches the target. */
  lemma EstimateExists(g: Goal, bound: nat)
    requires Planned(g) && bound <= MAX_INT && Expected(Val(ExpectedPerTrade(g)), bound) >= Val(g.target)
    ensures EstimateTrades(g).Ok?
  {
    hide Val, Mul, Cmp, QuoFloor, ExpectedPerTrade, IsPositive, Truncated;
    var expected := ExpectedPerTrade(g);
    CmpIsExact(expected, ZERO);
    CmpIsExact(g.target, ZERO);
    QuoFloorTruncates(g.target, expected, 0);
    QuotientIsWhole(g.target, expected);
    var whole := QuoFloor(g.target, expected, 0).value;
    var x := Over(Val(g.target), Val(expected));
    WholePart(whole, x, Val(g.target), Val(expected));
    ProductOrder(bound as real, x, Val(expected));
  }

  lemma WholePart(whole: Decimal, x: real, target: real, e: real)
    requires whole.scale == 0 && target > 0.0 && e > 0.0 && x * e == target && Val(whole) == Truncated(x, 0)
    ensures whole.coefficient as real <= x < whole.coefficient as real + 1.0
  {
    assert Val(whole) == whole.coefficient as real by { RatioIs(whole.coefficient, 1, whole.coefficient as real); }
    assert Ratio(1, Pow10(0)) == 1.0 by { RatioIs(1, 1, 1.0); }
    ProductSign(x, e);
    hide Val, Truncated, Ratio, Pow10;
    TruncatedBounds(x, 0);
  }

  // ---------------------------------------------------------------------------
  // The preview
  // ---------------------------------------------------------------------------

  /** Wins keep pace with the win rate to within one trade. */
  lemma WinsPace(n: nat, winRate: int)
    requires 0 <= winRate <= 100
    ensures 0 <= n * winRate - 100 * WinsByNow(n, winRate) < 100
  {}

  lemma NextWin(n: nat, winRate: int)
    requires 0 <= winRate <= 100
    ensures WinsByNow(n, winRate) <= WinsByNow(n + 1, winRate) <= WinsByNow(n, winRate) + 1
  {
    WinsPace(n, winRate);
    WinsPace(n + 1, winRate);
    assert (n + 1) * winRate == n * winRate + winRate;
  }

  ghost function Tally(wins: int, losses: int, reward: real, risk: real): real {
    wins as real * reward - losses as real * risk
  }

  lemma TallyNext(wins: int, losses: int, reward: real, risk: real)
    ensures Tally(wins + 1, losses, reward, risk) == Tally(wins, losses, reward, risk) + reward
    ensures Tally(wins, losses + 1, reward, risk) == Tally(wins, losses, reward, risk) - risk
  {}

  lemma {:induction false} PnlIsTally(g: Goal, n: nat)
    requires 0 <= g.winRate <= 100
    ensures var wins := WinsByNow(n, g.winRate);
            Val(After(g, n).pnl) == Tally(wins, n - wins, Val(g.reward), Val(g.risk))
  {
    hide Val, Add, Neg, Tally, WinsByNow;
    if n == 0 {
      NoTrades(g);
    } else {
      PnlIsTally(g, n - 1);
      NextWin(n - 1, g.winRate);
      NegAbsAreExact(g.risk);
      AddIsExact(After(g, n - 1).pnl, TradePnl(g, n - 1));
      var wins := WinsByNow(n - 1, g.winRate);
      TallyNext(wins, n - 1 - wins, Val(g.reward), Val(g.risk));
    }
  }

  lemma NoTrades(g: Goal)
    ensures WinsByNow(0, g.winRate) == 0 && Val(After(g, 0).pnl) == Tally(0, 0, Val(g.reward), Val(g.risk))
  {}

  /** After n trades the result trails n true expectations by less than one reward and risk. */
  lemma PnlNearExpectation(g: Goal, n: nat)
    requires 0 <= g.winRate <= 100 && Val(g.reward) + Val(g.risk) >= 0.0
    ensures var mean, spread, pnl := Scale(Gross(g), n), Val(g.reward) + Val(g.risk), Val(After(g, n).pnl);
            100.0 * pnl <= mean && (100.0 * pnl > mean - 100.0 * spread || (spread == 0.0 && 100.0 * pnl == mean))
  {
    hide Val, WinsByNow, Gross, Tally, Scale, Lag;
    PnlIsTally(g, n);
    WinsPace(n, g.winRate);
    var wins := WinsByNow(n, g.winRate);
    var lag := n * g.winRate - 100 * wins;
    GrossIs(g);
    TallyLag(wins, n, g.winRate, lag, Val(g.reward), Val(g.risk), Gross(g));
    LagBounds(lag, Val(g.reward) + Val(g.risk));
  }

  lemma GrossIs(g: Goal)
    ensures Gross(g) == Val(g.reward) * g.winRate as real - Val(g.risk) * (100 - g.winRate) as real
  {}

  /** What the trades behind schedule still lack. */
  ghost function Lag(lag: int, spread: real): real {
    Share(lag as real, spread)
  }

  ghost function Share(x: real, spread: real): real {
    x * spread
  }

  lemma LagBounds(lag: int, spread: real)
    requires 0 <= lag < 100 && spread >= 0.0
    ensures 0.0 <= Lag(lag, spread) <= 99.0 * spread
  {
    hide Share;
    ShareBounds(lag as real, spread);
  }

  lemma ShareBounds(x: real, spread: real)
    requires 0.0 <= x <= 99.0 && spread >= 0.0
    ensures 0.0 <= Share(x, spread) <= 99.0 * spread
  {
    ProductMonotone(0.0, x, spread);
    ProductMonotone(x, 99.0, spread);
  }

  lemma GrossTimes(e: real, n: int)
    ensures Scale(e * 100.0, n) == 100.0 * Expected(e, n)
  {
    Commute(e, 100.0, n as real);
  }

  ghost function Scale(gross: real, n: int): real {
    gross * n as real
  }

  /** The expectation is cut below the true one by less than a unit of the eighth decimal. */
  lemma EdgeNearTruth(g: Goal)
    requires Val(ExpectedPerTrade(g)) > 0.0
    ensures Val(ExpectedPerTrade(g)) * 100.0 <= Gross(g) < (Val(ExpectedPerTrade(g)) + Ratio(1, Pow10(8))) * 100.0
  {
    hide Val, ExpectedPerTrade, Gross, Truncated, Ratio, Pow10;
    ExpectedMeaning(g);
    TruncatedBounds(Over(Gross(g), 100.0), 8);
  }

  /** n cut expectations are no more than n true ones. */
  lemma ScaledEdge(g: Goal, n: nat)
    requires Val(ExpectedPerTrade(g)) > 0.0
    ensures 0.0 <= 100.0 * Expected(Val(ExpectedPerTrade(g)), n) <= Scale(Gross(g), n)
  {
    hide Val, ExpectedPerTrade, Gross, Expected, Ratio, Pow10;
    var e := Val(ExpectedPerTrade(g));
    EdgeNearTruth(g);
    GrossTimes(e, n);
    ExpectedSign(e, n);
    ProductMonotone(e * 100.0, Gross(g), n as real);
  }

  lemma TallyLag(wins: int, n: int, rate: int, lag: int, reward: real, risk: real, gross: real)
    requires lag == n * rate - 100 * wins && gross == reward * rate as real - risk * (100 - rate) as real
    ensures 100.0 * Tally(wins, n - wins, reward, risk) == Scale(gross, n) - Lag(lag, reward + risk)
  {
    var r, m, w := rate as real, n as real, wins as real;
    CastProduct(n, rate);
    assert lag as real == m * r - 100.0 * w;
    assert gross == reward * r - risk * (100.0 - r);
    assert gross * m == reward * r * m - risk * (100.0 - r) * m;
    assert lag as real * (reward + risk) == (m * r - 100.0 * w) * (reward + risk);
  }

  lemma VerdictMeaning(g: Goal, s: State)
    ensures Evaluate(g, s) == TargetReached <==> Val(s.pnl) >= Val(g.target)
    ensures Evaluate(g, s) == MaxDrawdown <==>
              Val(s.pnl) < Val(g.target) && Val(g.maxDrawdown) > 0.0 && Val(s.pnl) <= -Val(g.maxDrawdown)
    ensures Evaluate(g, s) == MaxTrades <==>
              && Val(s.pnl) < Val(g.target) && !(Val(g.maxDrawdown) > 0.0 && Val(s.pnl) <= -Val(g.maxDrawdown))
              && 0 < g.maxTrades <= s.trades
    ensures Evaluate(g, s) == Continue <==>
              && Val(s.pnl) < Val(g.target) && (Val(g.maxDrawdown) <= 0.0 || Val(s.pnl) > -Val(g.maxDrawdown))
              && (g.maxTrades <= 0 || s.trades < g.maxTrades)
    ensures Evaluate(g, s) != StrategyRule
  {
    hide Val, Cmp, IsPositive, Neg;
    CmpIsExact(s.pnl, g.target);
    CmpIsExact(g.maxDrawdown, ZERO);
    NegAbsAreExact(g.maxDrawdown);
    CmpIsExact(s.pnl, Neg(g.maxDrawdown));
  }

  // ---------------------------------------------------------------------------
  // Estimate and preview
  // ---------------------------------------------------------------------------

  /** With a positive expectation, a drawdown budget of at least one reward and risk, and caps that leave
      `bound` trades, where `bound` expectations cover target, reward and risk: the goal has an estimate and
      the preview reaches the target after no more trades than the bound. With an exact edge it takes no fewer
      than estimated. */
  lemma Sandwich(g: Goal, n: nat, verdict: Verdict, bound: nat)
    requires StopsAfter(g, n, verdict) && Planned(g) && Val(g.reward) + Val(g.risk) >= 0.0
    requires Val(g.maxDrawdown) <= 0.0 || Val(g.maxDrawdown) >= Val(g.reward) + Val(g.risk)
    requires Expected(Val(ExpectedPerTrade(g)), bound) >= Val(g.target) + Val(g.reward) + Val(g.risk)
    requires bound <= HARD_CAP && (g.maxTrades <= 0 || bound <= g.maxTrades)
    ensures verdict == TargetReached && n <= bound
    ensures EstimateTrades(g).Ok? && (ExactEdge(g) ==> EstimateTrades(g).value <= n)
  {
    hide Val, ExpectedPerTrade, EstimateTrades, Evaluate, ExactEdge, Expected;
    TargetByBound(g, bound);
    NotBeyond(g, n, verdict, bound);
    NoDrawdown(g, n);
    OnlyTarget(g, n, verdict, bound);
    EstimateExists(g, bound);
    if ExactEdge(g) {
      EstimateIsEnough(g, n);
    }
  }

  /** A reached target takes at least the estimated number of trades if nothing was cut. */
  lemma EstimateIsEnough(g: Goal, n: nat)
    requires EstimateTrades(g).Ok? && ExactEdge(g) && Val(g.reward) + Val(g.risk) >= 0.0
    requires Evaluate(g, After(g, n)) == TargetReached
    ensures EstimateTrades(g).value <= n
  {
    hide Val, ExpectedPerTrade, EstimateTrades, Evaluate, ExactEdge, Expected, Scale, Gross, After;
    EdgeIsGross(g);
    EstimateIsCeiling(g);
    PnlNearExpectation(g, n);
    VerdictMeaning(g, After(g, n));
    GrossTimes(Val(ExpectedPerTrade(g)), n);
    ReachedIsEnough(Val(ExpectedPerTrade(g)), n, EstimateTrades(g).value, Val(g.target), Val(After(g, n).pnl));
  }

  lemma EdgeIsGross(g: Goal)
    requires ExactEdge(g)
    ensures Gross(g) == Val(ExpectedPerTrade(g)) * 100.0
  {}

  lemma OnlyTarget(g: Goal, n: nat, verdict: Verdict, bound: nat)
    requires StopsAfter(g, n, verdict) && Evaluate(g, After(g, bound)) == TargetReached && n <= bound <= HARD_CAP
    requires Evaluate(g, After(g, n)) != MaxDrawdown && (g.maxTrades <= 0 || bound <= g.maxTrades)
    ensures verdict == TargetReached && Evaluate(g, After(g, n)) == TargetReached
  {
    hide Evaluate;
    TradesOf(g, n);
    VerdictMeaning(g, After(g, n));
  }

  lemma NotBeyond(g: Goal, n: nat, verdict: Verdict, bound: nat)
    requires StopsAfter(g, n, verdict) && Evaluate(g, After(g, bound)) == TargetReached
    ensures n <= bound
  {}

  lemma TargetByBound(g: Goal, bound: nat)
    requires Planned(g) && Val(g.reward) + Val(g.risk) >= 0.0
    requires Expected(Val(ExpectedPerTrade(g)), bound) >= Val(g.target) + Val(g.reward) + Val(g.risk)
    ensures Evaluate(g, After(g, bound)) == TargetReached
  {
    hide Val, ExpectedPerTrade, Evaluate, Expected, Scale, Gross;
    ScaledEdge(g, bound);
    PnlNearExpectation(g, bound);
    VerdictMeaning(g, After(g, bound));
  }

  /** A budget of one reward and risk is never used up. */
  lemma NoDrawdown(g: Goal, n: nat)
    requires Planned(g) && Val(g.reward) + Val(g.risk) >= 0.0
    requires Val(g.maxDrawdown) <= 0.0 || Val(g.maxDrawdown) >= Val(g.reward) + Val(g.risk)
    ensures Evaluate(g, After(g, n)) != MaxDrawdown
  {
    hide Val, ExpectedPerTrade, Evaluate, Expected, Scale, Gross;
    ScaledEdge(g, n);
    PnlNearExpectation(g, n);
    VerdictMeaning(g, After(g, n));
  }

  lemma ExpectedSign(e: real, n: nat)
    requires e > 0.0
    ensures Expected(e, n) >= 0.0
  {
    ProductMonotone(0.0, n as real, e);
  }

  lemma TradesOf(g: Goal, n: nat)
    ensures After(g, n).trades == n
  {}

  lemma ReachedIsEnough(e: real, n: int, count: int, target: real, pnl: real)
    requires e > 0.0 && Expected(e, count - 1) < target && pnl <= Expected(e, n)
    ensures pnl >= target ==> count <= n
  {
    if n <= count - 1 {
      ProductMonotone(n as real, (count - 1) as real, e);
    }
  }

  // ---------------------------------------------------------------------------
  // When the estimate is never too high
  // ---------------------------------------------------------------------------

  function WithTarget(g: Goal, target: Decimal): Goal {
    g.(target := target)
  }

  /** If the preview of the goal with this target reaches it after n trades, the estimate was no higher. */
  ghost predicate EstimateHolds(g: Goal, target: Decimal, n: nat) {
    var h := WithTarget(g, target);
    Val(target) > 0.0 && StopsAfter(h, n, TargetReached) && EstimateTrades(h).Ok? ==> EstimateTrades(h).value <= n
  }

  ghost predicate NoCaps(g: Goal) {
    g.maxTrades <= 0 && Val(g.maxDrawdown) <= 0.0
  }

  lemma {:induction false} TargetAside(g: Goal, target: Decimal, n: nat)
    ensures After(WithTarget(g, target), n) == After(g, n) && Gross(WithTarget(g, target)) == Gross(g)
    ensures ExpectedPerTrade(WithTarget(g, target)) == ExpectedPerTrade(g)
  {
    hide Val, Add, Mul, Sub, QuoFloor;
    if n > 0 {
      TargetAside(g, target, n - 1);
    }
  }

  /** Without caps a preview that has reached its target by trade m stops there at the latest. */
  lemma {:induction false} StopsBy(g: Goal, m: nat) returns (n: nat)
    requires NoCaps(g) && m <= HARD_CAP && Evaluate(g, After(g, m)) == TargetReached
    ensures n <= m && StopsAfter(g, n, TargetReached)
  {
    hide Evaluate, After;
    if k: nat :| k < m && Evaluate(g, After(g, k)) == TargetReached {
      n := StopsBy(g, k);
    } else {
      n := m;
      forall k: nat | k < m ensures Evaluate(g, After(g, k)) == Continue {
        VerdictMeaning(g, After(g, k));
      }
    }
  }

  /** A hundred trades book exactly a hundred true expectations. */
  lemma HundredTrades(g: Goal)
    requires 0 <= g.winRate <= 100
    ensures Val(After(g, 100).pnl) == Gross(g)
  {
    GrossIs(g);
    hide Val, Tally, WinsByNow, Scale, Lag, Gross, After;
    PnlIsTally(g, 100);
    HundredWins(g.winRate);
    TallyLag(g.winRate, 100, g.winRate, 0, Val(g.reward), Val(g.risk), Gross(g));
    HundredScaled(Gross(g), Val(g.reward) + Val(g.risk));
  }

  lemma HundredWins(winRate: int)
    requires 0 <= winRate <= 100
    ensures WinsByNow(100, winRate) == winRate
  {}

  lemma HundredScaled(gross: real, spread: real)
    ensures Scale(gross, 100) == 100.0 * gross && Lag(0, spread) == 0.0
  {}

  /** The target of a hundred true expectations. */
  function HundredfoldTarget(g: Goal): Decimal {
    Sub(Mul(g.reward, FromInt(g.winRate)), Mul(g.risk, FromInt(100 - g.winRate)))
  }

  /** With a cut edge the preview reaches this target by trade 100, while at least 101 trades are estimated. */
  lemma CutEdgeOverestimates(g: Goal) returns (n: nat)
    requires 0 <= g.winRate <= 100 && NoCaps(g) && Val(ExpectedPerTrade(g)) > 0.0 && !ExactEdge(g)
    ensures n <= 100 && StopsAfter(WithTarget(g, HundredfoldTarget(g)), n, TargetReached)
    ensures Val(HundredfoldTarget(g)) == Gross(g) > 0.0
    ensures EstimateTrades(WithTarget(g, HundredfoldTarget(g))).Ok?
    ensures EstimateTrades(WithTarget(g, HundredfoldTarget(g))).value > 100
  {
    CutMeans(g);
    hide Val, ExpectedPerTrade, EstimateTrades, Evaluate, ExactEdge, Expected, Scale, Gross, HundredfoldTarget, StopsAfter, After;
    var target := HundredfoldTarget(g);
    var h := WithTarget(g, target);
    var e := Val(ExpectedPerTrade(g));
    GrossIsTarget(g);
    EdgeNearTruth(g);
    TargetAside(g, target, 100);
    HundredTrades(g);
    VerdictMeaning(h, After(h, 100));
    n := StopsBy(h, 100);
    UnitIsSmall(g);
    ExpectedAt(e);
    EstimateExists(h, 200);
    EstimateIsCeiling(h);
    AtMost(e, EstimateTrades(h).value, Gross(g));
  }

  lemma CutMeans(g: Goal)
    requires !ExactEdge(g)
    ensures Val(ExpectedPerTrade(g)) * 100.0 != Gross(g)
  {}

  lemma GrossIsTarget(g: Goal)
    ensures Val(HundredfoldTarget(g)) == Gross(g)
  {
    GrossMeaning(g);
  }

  lemma ExpectedAt(e: real)
    ensures Expected(e, 100) == 100.0 * e && Expected(e, 200) == 200.0 * e
  {}

  lemma AtMost(e: real, count: int, target: real)
    requires e > 0.0 && target <= Expected(e, count) && Expected(e, 100) < target
    ensures count > 100
  {
    if count <= 100 {
      ProductMonotone(count as real, 100.0, e);
    }
  }

  /** A positive expectation is at least one unit of the eighth decimal. */
  lemma UnitIsSmall(g: Goal)
    requires Val(ExpectedPerTrade(g)) > 0.0
    ensures Val(ExpectedPerTrade(g)) >= Ratio(1, Pow10(8))
  {
    hide Val, ExpectedPerTrade, Gross, Pow10, Ratio;
    ExpectedMeaning(g);
    var x, p := Over(Gross(g), 100.0), Pow10(8);
    var t := Trunc(Scaled(x, p));
    TruncatedIs(x, p, t);
    RatioOrder(0, t, p);
    RatioSign(0, p);
    RatioOrder(0, t, p);
    if t >= 1 {
      RatioOrder(1, t, p);
    }
  }

  /** For a positive expectation without caps: the estimate is never too high, whatever the target, exactly
      when nothing is cut off the expectation. */
  lemma EstimateHoldsExactly(g: Goal)
    requires 0 <= g.winRate <= 100 && NoCaps(g) && Val(ExpectedPerTrade(g)) > 0.0 && Val(g.reward) + Val(g.risk) >= 0.0
    ensures ExactEdge(g) <==> forall target: Decimal, n: nat :: EstimateHolds(g, target, n)
  {
    hide Val, ExpectedPerTrade, EstimateTrades, Evaluate, Gross, After;
    if ExactEdge(g) {
      forall target: Decimal, n: nat ensures EstimateHolds(g, target, n) {
        TargetAside(g, target, n);
        var h := WithTarget(g, target);
        if StopsAfter(h, n, TargetReached) && EstimateTrades(h).Ok? {
          EstimateIsEnough(h, n);
        }
      }
    } else {
      var n := CutEdgeOverestimates(g);
      assert !EstimateHolds(g, HundredfoldTarget(g), n);
    }
  }

  const FINE := Decimal(19, 9)
  const FINE_GOAL := Goal(FINE, FINE, ZERO, 100, 0, ZERO)

  lemma FineValues()
    ensures Pow10(9) == 1_000_000_000 && Pow10(8) == 100_000_000
    ensures Val(FINE) == 19.0 / 1_000_000_000.0 && Val(ZERO) == 0.0
  {
    assert Pow10(3) == 1000;
    assert Pow10(6) == 1_000_000;
    assert Pow10(8) == 100_000_000;
    RatioIs(19, 1_000_000_000, 19.0 / 1_000_000_000.0);
  }

  lemma CutEdge()
    ensures Truncated(0.000000019, 8) == 0.00000001
  {
    FineValues();
    var y := Scaled(0.000000019, 100_000_000);
    assert y == 1.9 && y.Floor == 1;
    TruncatedIs(0.000000019, 100_000_000, 1);
    RatioIs(1, 100_000_000, 0.00000001);
  }

  lemma FineGross()
    ensures Gross(FINE_GOAL) == 0.0000019
  {
    hide Val, Pow10;
    FineValues();
    assert Gross(FINE_GOAL) == Val(FINE) * 100.0 - Val(ZERO) * 0.0;
  }

  lemma FineEdge()
    ensures Val(ExpectedPerTrade(FINE_GOAL)) == 0.00000001 && Gross(FINE_GOAL) == 0.0000019
  {
    hide Val, ExpectedPerTrade, Truncated, Gross, Pow10;
    FineGross();
    ExpectedMeaning(FINE_GOAL);
    OverIs(0.0000019, 100.0, 0.000000019);
    CutEdge();
  }

  lemma OneFineTrade()
    ensures StopsAfter(FINE_GOAL, 1, TargetReached)
  {
    hide Val, Evaluate, Pow10;
    FineValues();
    VerdictMeaning(FINE_GOAL, After(FINE_GOAL, 0));
    VerdictMeaning(FINE_GOAL, After(FINE_GOAL, 1));
    AddIsExact(ZERO, FINE);
    assert IsWin(FINE_GOAL, 0);
    assert After(FINE_GOAL, 1) == State(Add(ZERO, FINE), 1);
  }

  /** A reward of 1.9e-8 at a sure win: the edge is cut to 1e-8, so that two trades are estimated for a
      target that one trade reaches. */
  lemma FineEdgeIsCut()
    ensures !ExactEdge(FINE_GOAL)
    ensures StopsAfter(FINE_GOAL, 1, TargetReached)
    ensures EstimateTrades(FINE_GOAL) == Ok(2)
  {
    hide Val, ExpectedPerTrade, EstimateTrades, Gross, Pow10, StopsAfter;
    FineEdge();
    FineValues();
    OneFineTrade();
    EstimateExists(FINE_GOAL, 2);
    EstimateIsCeiling(FINE_GOAL);
    OnlyTwo(EstimateTrades(FINE_GOAL).value);
  }

  lemma OnlyTwo(n: int)
    requires Expected(0.00000001, n - 1) < 0.000000019 <= Expected(0.00000001, n)
    ensures n == 2
  {}
}
