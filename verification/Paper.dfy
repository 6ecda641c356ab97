/** The paper campaign: real candles, one trade at a time, under the stop rules of a live campaign. */
module Paper {
  import opened Decimals
  import opened PaperRules
  import A = AnnyBasic
  import Campaign
  import D = Diagnostics

  /** A strategy sees closes only; ANNY Basic sees its 15-minute candles too. */
  datatype Strategy = Generic(signal: seq<real> -> Direction) | Anny(qqe: A.Qqe, main: seq<A.Candle>)

  datatype Direction = GoLong | GoShort | StayOut

  /** One resolved trade. The candle it resolved on is kept for stating that trades do not overlap. */
  datatype Trade = Trade(
    index: nat, side: A.Side, entryIndex: nat, exitIndex: nat, entryPrice: real, exitPrice: real,
    stopLoss: real, takeProfit: real, outcome: Outcome, win: bool, pnl: Decimal, running: Decimal)

  /** A run in progress: where it stands in the candles and what it has booked. */
  datatype Run = Run(
    at: nat, pnl: Decimal, closed: nat, trades: seq<Trade>, wins: nat, losses: nat, streak: nat,
    diagnostics: D.Diagnostics, halted: bool, verdict: Campaign.Verdict)

  datatype Setup = Setup(goal: Campaign.Goal, cfg: Config, strategy: Strategy, risk: real, reward: real)

  ghost predicate Sound(p: Setup) {
    Ready(p.cfg) && p.risk > 0.0 && p.reward > 0.0
  }

  // ---------------------------------------------------------------------------
  // One bar
  // ---------------------------------------------------------------------------

  datatype Look = Warmup | RuleStop | Blocked(reason: string) | NoSignal | Signal(side: A.Side)

  function LookAt(strategy: Strategy, candles: seq<A.Candle>, s: Run): Look
    requires s.at < |candles|
  {
    match strategy
    case Generic(signal) =>
      (match signal(A.Closes(candles[..s.at + 1]))
       case GoLong => Signal(A.Long)
       case GoShort => Signal(A.Short)
       case StayOut => NoSignal)
    case Anny(qqe, main) =>
      match A.ObserveAt(qqe, main, candles, s.at)
      case None => Warmup
      case Some(o) =>
        match A.Decide(o, s.closed, s.streak, s.pnl)
        case Stop => RuleStop
        case Flat(reason) => Blocked(reason)
        case Enter(side) => Signal(side)
  }

  /** What the look adds to the diagnostics. */
  function Noted(d: D.Diagnostics, anny: bool, look: Look): D.Diagnostics {
    match look
    case Warmup => D.RecordBlock(d, "indicator warmup")
    case RuleStop => d.(observed := d.observed + 1)
    case Blocked(reason) => D.RecordBlock(d.(observed := d.observed + 1), reason)
    case NoSignal => d
    case Signal(_) => if anny then d.(observed := d.observed + 1, setups := d.setups + 1) else d
  }

  function Booked(p: Setup, candles: seq<A.Candle>, s: Run, side: A.Side): Run
    requires Ready(p.cfg) && p.risk > 0.0 && p.reward > 0.0 && s.at + 1 < |candles|
  {
    var entry, slPct := candles[s.at].close, StopPct(p.cfg, candles, s.at);
    var b := BracketOf(side, entry, slPct, p.reward / p.risk);
    var r := Resolve(side, b, candles, s.at + 1, p.cfg.maxHoldBars);
    var profit := Profit(side, entry, r, slPct, p.risk, p.reward, p.cfg.entryFeeRate + p.cfg.exitFeeRate);
    var pnl := Usdt(profit);
    var running := Add(s.pnl, pnl);
    var win := profit > 0.0;
    s.(at := r.index + 1, pnl := running, closed := s.closed + 1,
       wins := if win then s.wins + 1 else s.wins, losses := if win then s.losses else s.losses + 1,
       streak := if win then 0 else s.streak + 1,
       trades := s.trades + [Trade(|s.trades| + 1, side, s.at, r.index, entry, r.price, b.stopLoss, b.takeProfit, r.outcome,
                                   win, pnl, running)])
  }

  function Bar(p: Setup, candles: seq<A.Candle>, s: Run): Run
    requires Ready(p.cfg) && p.risk > 0.0 && p.reward > 0.0 && s.at + 1 < |candles|
  {
    var v := Campaign.Evaluate(p.goal, Campaign.State(s.pnl, s.closed));
    if v != Campaign.Continue then s.(halted := true, verdict := v)
    else
      var look := LookAt(p.strategy, candles, s);
      var noted := s.(diagnostics := Noted(s.diagnostics, p.strategy.Anny?, look));
      match look
      case RuleStop => noted.(halted := true, verdict := Campaign.StrategyRule)
      case Signal(side) =>
        if BiasAllows(p.cfg.bias, side) then Booked(p, candles, noted, side)
        else
          noted.(at := s.at + 1,
                 diagnostics := D.RecordBlock(noted.diagnostics.(biasRejected := noted.diagnostics.biasRejected + 1), "AI side filter"))
      case _ => noted.(at := s.at + 1)
  }

  function RunFrom(p: Setup, candles: seq<A.Candle>, s: Run): Run
    requires Ready(p.cfg) && p.risk > 0.0 && p.reward > 0.0
    decreases |candles| - s.at, if s.halted then 0 else 1
  {
    if s.halted || s.at + 1 >= |candles| then s else RunFrom(p, candles, Bar(p, candles, s))
  }

  function Begin(cfg: Config, bars: nat): Run
    requires Ready(cfg)
  {
    var first := if cfg.planBars > 0 && bars - cfg.planBars > cfg.warmupBars then bars - cfg.planBars else cfg.warmupBars;
    Run(first, ZERO, 0, [], 0, 0, 0, D.EMPTY, false, Campaign.Continue)
  }

  // ---------------------------------------------------------------------------
  // Drawdown
  // ---------------------------------------------------------------------------

  /** Equity after i trades, from zero. */
  ghost function Equity(trades: seq<Trade>, i: nat): real
    requires i <= |trades|
  {
    if i == 0 then 0.0 else Val(trades[i - 1].running)
  }

  /** The curve falls by d from point i to point j. */
  ghost predicate Falls(trades: seq<Trade>, i: nat, j: nat, d: real) {
    i <= j <= |trades| && d == Equity(trades, i) - Equity(trades, j)
  }

  /** The deepest fall from an earlier or equal point of the equity curve to a later one. */
  ghost predicate IsMaxDrawdown(trades: seq<Trade>, worst: real) {
    && (exists i: nat, j: nat :: Falls(trades, i, j, worst))
    && (forall i: nat, j: nat, d :: Falls(trades, i, j, d) ==> d <= worst)
  }

  ghost predicate IsPeak(trades: seq<Trade>, n: nat, peak: real)
    requires n <= |trades|
  {
    (exists i :: 0 <= i <= n && peak == Equity(trades, i)) && forall i :: 0 <= i <= n ==> Equity(trades, i) <= peak
  }

  method MaxDrawdownUsdt(trades: seq<Trade>) returns (worst: Decimal)
    ensures IsMaxDrawdown(trades, Val(worst))
  {
    hide Val, Sub, Cmp;
    var peak := ZERO;
    worst := ZERO;
    ZeroVal();
    var k := 0;
    StartsFlat(trades);
    while k < |trades|
      invariant 0 <= k <= |trades|
      invariant IsPeak(trades, k, Val(peak)) && IsMaxDrawdown(trades[..k], Val(worst))
    {
      var equity := trades[k].running;
      CmpIsExact(equity, peak);
      AddIsExact(peak, equity);
      CmpIsExact(Sub(peak, equity), worst);
      PeakMoves(trades, k, Val(peak));
      DrawdownMoves(trades, k, Val(peak), Val(worst));
      k := k + 1;
      if Cmp(equity, peak) > 0 {
        peak := equity;
        continue;
      }
      var drawdown := Sub(peak, equity);
      if Cmp(drawdown, worst) > 0 {
        worst := drawdown;
      }
    }
    assert trades[..k] == trades;
  }

  lemma ZeroVal()
    ensures Val(ZERO) == 0.0
  {}

  lemma StartsFlat(trades: seq<Trade>)
    ensures IsPeak(trades, 0, 0.0) && IsMaxDrawdown(trades[..0], 0.0)
  {
    assert Equity(trades, 0) == 0.0;
    assert Falls(trades[..0], 0, 0, 0.0);
  }

  lemma PeakMoves(trades: seq<Trade>, k: nat, peak: real)
    requires k < |trades| && IsPeak(trades, k, peak)
    ensures var e := Val(trades[k].running); IsPeak(trades, k + 1, if e > peak then e else peak)
  {
    hide Val;
    assert Equity(trades, k + 1) == Val(trades[k].running);
  }

  lemma SameFront(trades: seq<Trade>, k: nat, i: nat, j: nat, d: real)
    requires k < |trades| && j <= k
    ensures Falls(trades[..k], i, j, d) <==> Falls(trades[..k + 1], i, j, d)
  {
    hide Val;
  }

  lemma DrawdownMoves(trades: seq<Trade>, k: nat, peak: real, worst: real)
    requires k < |trades| && IsPeak(trades, k, peak) && IsMaxDrawdown(trades[..k], worst)
    ensures var fall := peak - Val(trades[k].running);
            IsMaxDrawdown(trades[..k + 1], if fall > 0.0 && fall > worst then fall else worst)
    ensures worst >= 0.0
  {
    hide Val;
    var before, after, fall := trades[..k], trades[..k + 1], peak - Val(trades[k].running);
    var i: nat, j: nat :| Falls(before, i, j, worst);
    SameFront(trades, k, i, j, worst);
    var top :| 0 <= top <= k && peak == Equity(trades, top);
    assert Falls(after, top, k + 1, fall);
    assert Falls(before, 0, 0, 0.0);
    forall a: nat, b: nat, d | Falls(after, a, b, d) ensures d <= if fall > worst then fall else worst {
      if b <= k {
        SameFront(trades, k, a, b, d);
      } else if a <= k {
        assert Equity(after, a) == Equity(trades, a) <= peak;
      }
    }
  }

  // ---------------------------------------------------------------------------
  // The whole run
  // ---------------------------------------------------------------------------

  datatype PaperResult = PaperResult(run: Run, bars: nat, maxDrawdown: Decimal)

  function Finished(p: Setup, run: Run): Run {
    if run.halted then run else run.(verdict := Campaign.Evaluate(p.goal, Campaign.State(run.pnl, run.closed)))
  }

  function SetupOf(goal: Campaign.Goal, cfg: Config, strategy: Strategy): Setup {
    Setup(goal, WithDefaults(cfg), strategy, FloatOf(goal.risk, 1.0), FloatOf(goal.reward, 2.0))
  }

  /** Too few candles, or a model without its main candles. */
  predicate Runnable(p: Setup, candles: seq<A.Candle>) {
    |candles| >= p.cfg.warmupBars + 2 && !(p.strategy.Anny? && p.strategy.main == [])
  }

  method RunPaper(goal: Campaign.Goal, config: Config, strategy: Strategy, candles: seq<A.Candle>) returns (r: Result<PaperResult>)
    ensures var p := SetupOf(goal, config, strategy);
            && (r.Ok? <==> Runnable(p, candles))
            && (r.Ok? ==> r.value.run == Finished(p, RunFrom(p, candles, Begin(p.cfg, |candles|)))
                          && r.value.bars == |candles| && IsMaxDrawdown(r.value.run.trades, Val(r.value.maxDrawdown)))
  {
    hide WithDefaults, FloatOf, Bar, Campaign.Evaluate;
    var p := SetupOf(goal, config, strategy);
    if !Runnable(p, candles) {
      return Err("paper: not enough candles");
    }
    var s := Begin(p.cfg, |candles|);
    while !s.halted && s.at + 1 < |candles|
      invariant RunFrom(p, candles, Begin(p.cfg, |candles|)) == RunFrom(p, candles, s)
      decreases |candles| - s.at, if s.halted then 0 else 1
    {
      BarAdvances(p, candles, s);
      s := Bar(p, candles, s);
    }
    s := Finished(p, s);
    var worst := MaxDrawdownUsdt(s.trades);
    r := Ok(PaperResult(s, |candles|, worst));
  }

  lemma BarAdvances(p: Setup, candles: seq<A.Candle>, s: Run)
    requires Sound(p) && s.at + 1 < |candles| && !s.halted
    ensures var t := Bar(p, candles, s); t.at > s.at || (t.at == s.at && t.halted)
  {}
}
