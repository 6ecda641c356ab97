/** What every paper run keeps, and why it cannot see the future. */
module PaperTheorems {
  import opened Decimals
  import opened PaperRules
  import opened Paper
  import A = AnnyBasic
  import Campaign
  import D = Diagnostics

  // ---------------------------------------------------------------------------
  // Accounting
  // ---------------------------------------------------------------------------

  /** Profit booked before trade k. */
  function Before(trades: seq<Trade>, k: nat): Decimal
    requires k <= |trades|
  {
    if k == 0 then ZERO else trades[k - 1].running
  }

  /** The most one trade can lose: the risk, the fees on the largest position, and the rounding. */
  ghost function WorstTrade(p: Setup): real
    requires Ready(p.cfg)
  {
    p.risk + (p.cfg.entryFeeRate + p.cfg.exitFeeRate) * (p.risk / LeastStop(p.cfg)) + 0.00005
  }

  // What a trade is to be, from the candles, the configuration and the strategy alone.

  /** The first bar a trade may be entered at. */
  function FirstBar(c: Config, bars: nat): int {
    if c.planBars > 0 && bars - c.planBars > c.warmupBars then bars - c.planBars else c.warmupBars
  }

  /** Losses in a row at the end. */
  function Streak(trades: seq<Trade>): nat {
    if trades == [] || trades[|trades| - 1].win then 0 else 1 + Streak(trades[..|trades| - 1])
  }

  /** With the first k trades behind it, the strategy enters this side at bar i, and the bias lets it. */
  predicate Enters(p: Setup, candles: seq<A.Candle>, trades: seq<Trade>, k: nat, i: nat, side: A.Side)
    requires i < |candles| && k <= |trades|
  {
    && (p.cfg.bias == LongOnly ==> side == A.Long) && (p.cfg.bias == ShortOnly ==> side == A.Short)
    && match p.strategy
       case Generic(signal) => signal(A.Closes(candles[..i + 1])) == (if side == A.Long then GoLong else GoShort)
       case Anny(qqe, main) =>
         var o := A.ObserveAt(qqe, main, candles, i);
         o.Some? && A.Decide(o.value, k, Streak(trades[..k]), Before(trades, k)) == A.Enter(side)
  }

  /** The ANNY model's own rules end the campaign at bar i. */
  predicate StrategyStops(p: Setup, candles: seq<A.Candle>, trades: seq<Trade>, i: nat)
    requires i < |candles|
  {
    p.strategy.Anny?
    && var o := A.ObserveAt(p.strategy.qqe, p.strategy.main, candles, i);
       o.Some? && A.Decide(o.value, |trades|, Streak(trades), Before(trades, |trades|)) == A.Stop
  }

  /** Stop and target stand the stop distance and its multiple away from the entry, on their sides. */
  ghost predicate BracketIs(p: Setup, candles: seq<A.Candle>, t: Trade)
    requires Sound(p) && t.entryIndex < |candles|
  {
    var e, d, rr := candles[t.entryIndex].close, StopPct(p.cfg, candles, t.entryIndex), p.reward / p.risk;
    match t.side
    case Long => t.stopLoss == e * (1.0 - d) && t.takeProfit == e * (1.0 + d * rr)
    case Short => t.stopLoss == e * (1.0 + d) && t.takeProfit == e * (1.0 - d * rr)
  }

  predicate Stopped(t: Trade, c: A.Candle) {
    (t.side == A.Long && c.low <= t.stopLoss) || (t.side == A.Short && c.high >= t.stopLoss)
  }

  predicate Reached(t: Trade, c: A.Candle) {
    (t.side == A.Long && c.high >= t.takeProfit) || (t.side == A.Short && c.low <= t.takeProfit)
  }

  /** The first candle after the entry that touches a level ends the trade at that level, at the stop if it
      touches both; untouched, the trade ends at the close of the last candle of its holding time or of all. */
  ghost predicate ExitIs(p: Setup, candles: seq<A.Candle>, t: Trade)
    requires t.entryIndex < t.exitIndex < |candles|
  {
    var c := candles[t.exitIndex];
    && (forall j :: t.entryIndex < j < t.exitIndex ==> !Stopped(t, candles[j]) && !Reached(t, candles[j]))
    && t.exitIndex <= t.entryIndex + p.cfg.maxHoldBars
    && match t.outcome
       case StoppedOut => Stopped(t, c) && t.exitPrice == t.stopLoss
       case TookProfit => Reached(t, c) && !Stopped(t, c) && t.exitPrice == t.takeProfit
       case TimedOut =>
         && !Stopped(t, c) && !Reached(t, c) && t.exitPrice == c.close
         && (t.exitIndex == |candles| - 1 || t.exitIndex == t.entryIndex + p.cfg.maxHoldBars)
  }

  /** The position of a trade is as large as loses the risk at the stop. */
  ghost function Notional(p: Setup, candles: seq<A.Candle>, t: Trade): real
    requires Sound(p) && t.entryIndex < |candles|
  {
    p.risk / StopPct(p.cfg, candles, t.entryIndex)
  }

  ghost function Fees(p: Setup, candles: seq<A.Candle>, t: Trade): real
    requires Sound(p) && t.entryIndex < |candles|
  {
    (p.cfg.entryFeeRate + p.cfg.exitFeeRate) * Notional(p, candles, t)
  }

  /** What the price move of a timed-out trade makes on its position. */
  ghost function Drift(p: Setup, candles: seq<A.Candle>, t: Trade): real
    requires Sound(p) && t.entryIndex < |candles|
  {
    var move := if t.entryPrice == 0.0 then 0.0 else (t.exitPrice - t.entryPrice) / t.entryPrice;
    (if t.side == A.Long then move else -move) * Notional(p, candles, t)
  }

  /** A target earns the reward, a stop costs the risk, and a timed-out trade makes its drift but no more than
      these; fees come off each, and a trade is won exactly if something is left. The booked result is
      rounded to four decimals. */
  ghost predicate ResultIs(p: Setup, candles: seq<A.Candle>, t: Trade)
    requires Sound(p) && t.entryIndex < |candles|
  {
    exists gross: real :: Earns(p, candles, t, gross)
      && (t.win <==> gross - Fees(p, candles, t) > 0.0)
      && gross - Fees(p, candles, t) - 0.00005 <= Val(t.pnl) <= gross - Fees(p, candles, t) + 0.00005
  }

  ghost predicate Earns(p: Setup, candles: seq<A.Candle>, t: Trade, gross: real)
    requires Sound(p) && t.entryIndex < |candles|
  {
    match t.outcome
    case TookProfit => gross == p.reward
    case StoppedOut => gross == -p.risk
    case TimedOut =>
      var drift := Drift(p, candles, t);
      && -p.risk <= gross <= p.reward
      && (-p.risk <= drift <= p.reward ==> gross == drift)
      && (drift > p.reward ==> gross == p.reward) && (drift < -p.risk ==> gross == -p.risk)
  }

  /** Everything about trade k on its own. */
  ghost predicate TradeOk(p: Setup, candles: seq<A.Candle>, trades: seq<Trade>, k: nat)
    requires Sound(p) && k < |trades|
  {
    var t := trades[k];
    && t.index == k + 1
    && FirstBar(p.cfg, |candles|) <= t.entryIndex < t.exitIndex < |candles|
    && (k + 1 < |trades| ==> t.exitIndex < trades[k + 1].entryIndex)
    && Enters(p, candles, trades, k, t.entryIndex, t.side)
    && t.entryPrice == candles[t.entryIndex].close
    && BracketIs(p, candles, t) && ExitIs(p, candles, t) && ResultIs(p, candles, t)
    && t.running == Add(Before(trades, k), t.pnl)
    && Campaign.Evaluate(p.goal, Campaign.State(Before(trades, k), k)) == Campaign.Continue
    && -WorstTrade(p) <= Val(t.pnl) <= p.reward + 0.00005
  }

  ghost predicate TradesOk(p: Setup, candles: seq<A.Candle>, trades: seq<Trade>)
    requires Sound(p)
  {
    forall k :: 0 <= k < |trades| ==> TradeOk(p, candles, trades, k)
  }

  function CountWins(trades: seq<Trade>): nat {
    if trades == [] then 0 else CountWins(trades[..|trades| - 1]) + (if trades[|trades| - 1].win then 1 else 0)
  }

  /** The bar from which entry k is looked for. */
  function From(p: Setup, candles: seq<A.Candle>, trades: seq<Trade>, k: nat): int
    requires k <= |trades|
  {
    if k == 0 then FirstBar(p.cfg, |candles|) else trades[k - 1].exitIndex + 1
  }

  /** Between the trades, from the first bar up to `at`, the strategy entered nowhere. */
  ghost predicate NoneMissed(p: Setup, candles: seq<A.Candle>, trades: seq<Trade>, at: nat) {
    forall k, i, side ::
      0 <= k <= |trades| && From(p, candles, trades, k) <= i < (if k < |trades| then trades[k].entryIndex else at) && 0 <= i < |candles|
      ==> !Enters(p, candles, trades, k, i, side)
  }

  ghost predicate RunOk(p: Setup, candles: seq<A.Candle>, s: Run)
    requires Sound(p)
  {
    && s.closed == |s.trades| == s.wins + s.losses && s.wins == CountWins(s.trades)
    && s.pnl == Before(s.trades, |s.trades|) && s.streak == Streak(s.trades)
    && From(p, candles, s.trades, |s.trades|) <= s.at
    && TradesOk(p, candles, s.trades) && NoneMissed(p, candles, s.trades, s.at)
    && D.TopIsRight(s.diagnostics) && CountsAgree(p, s.diagnostics, |s.trades|)
  }

  /** Every setup the ANNY model found was traded or rejected by the bias; other strategies report none. */
  predicate CountsAgree(p: Setup, d: D.Diagnostics, trades: nat) {
    if p.strategy.Anny? then d.setups == trades + d.biasRejected && d.setups <= d.observed else d.setups == d.observed == 0
  }

  lemma FeesBound(p: Setup, slPct: real)
    requires Sound(p) && slPct >= LeastStop(p.cfg) > 0.0
    ensures (p.cfg.entryFeeRate + p.cfg.exitFeeRate) * (p.risk / slPct)
         <= (p.cfg.entryFeeRate + p.cfg.exitFeeRate) * (p.risk / LeastStop(p.cfg))
    ensures (p.cfg.entryFeeRate + p.cfg.exitFeeRate) * (p.risk / slPct) >= 0.0
  {
    var least := LeastStop(p.cfg);
    Quotient(p.risk, least, slPct);
    Scales(p.cfg.entryFeeRate + p.cfg.exitFeeRate, p.risk / slPct, p.risk / least);
  }

  lemma Quotient(x: real, a: real, b: real)
    requires x > 0.0 && 0.0 < a <= b
    ensures 0.0 <= x / b <= x / a
  {
    var q := x / b;
    assert q * b == x;
    assert q >= 0.0;
    assert q * a <= q * b;
  }

  lemma Scales(f: real, x: real, y: real)
    requires f >= 0.0 && 0.0 <= x <= y
    ensures 0.0 <= f * x <= f * y
  {}

  /** The trade that a bar books satisfies everything, given that the rules said to continue and the strategy enters. */
  lemma BookedIsOk(p: Setup, candles: seq<A.Candle>, s: Run, was: D.Diagnostics, side: A.Side)
    requires Sound(p) && s.at + 1 < |candles| && RunOk(p, candles, s.(diagnostics := was))
    requires D.TopIsRight(s.diagnostics) && CountsAgree(p, s.diagnostics, |s.trades| + 1)
    requires Campaign.Evaluate(p.goal, Campaign.State(s.pnl, s.closed)) == Campaign.Continue
    requires Enters(p, candles, s.trades, |s.trades|, s.at, side)
    ensures RunOk(p, candles, Booked(p, candles, s, side))
  {
    hide Booked, Campaign.Evaluate, D.TopIsRight, TradeOk, WorstTrade, CountWins, Streak, NoneMissed, Enters, FirstBar, CountsAgree;
    var t := Booked(p, candles, s, side);
    BookedFields(p, candles, s, side);
    NewTradeIsOk(p, candles, s, was, side);
    forall k | 0 <= k < |s.trades| ensures TradeOk(p, candles, t.trades, k) {
      OldTradeIsOk(p, candles, s, t.trades, k);
    }
    StillNoneMissed(p, candles, s, t.trades, t.at);
  }

  /** What a look adds to the counters. */
  lemma NotedCounts(d: D.Diagnostics, anny: bool, look: Look)
    ensures var n := Noted(d, anny, look);
            && n.biasRejected == d.biasRejected
            && n.setups == d.setups + (if anny && look.Signal? then 1 else 0)
            && n.observed == d.observed + (if look.RuleStop? || look.Blocked? || (anny && look.Signal?) then 1 else 0)
  {}

  lemma BlockCounts(d: D.Diagnostics, reason: string)
    ensures var n := D.RecordBlock(d, reason);
            n.biasRejected == d.biasRejected && n.setups == d.setups && n.observed == d.observed
  {}

  lemma GenericLooks(p: Setup, candles: seq<A.Candle>, s: Run)
    requires s.at < |candles| && p.strategy.Generic?
    ensures LookAt(p.strategy, candles, s).Signal? || LookAt(p.strategy, candles, s).NoSignal?
  {
    hide A.Closes;
  }

  /** What booking changes: one more trade at the end, with its counters. */
  lemma BookedFields(p: Setup, candles: seq<A.Candle>, s: Run, side: A.Side)
    requires Sound(p) && s.at + 1 < |candles|
    ensures var t := Booked(p, candles, s, side);
            && |t.trades| == |s.trades| + 1 && t.trades[..|s.trades|] == s.trades
            && t.closed == s.closed + 1 && t.wins + t.losses == s.wins + s.losses + 1
            && t.trades[|s.trades|].entryIndex == s.at && t.trades[|s.trades|].exitIndex + 1 == t.at
            && t.pnl == t.trades[|s.trades|].running && t.diagnostics == s.diagnostics
            && t.wins - s.wins == CountWins(t.trades) - CountWins(s.trades)
            && (s.streak == Streak(s.trades) ==> t.streak == Streak(t.trades))
  {
    hide Val, Usdt, Resolve, Profit, StopPct, BracketOf, Add;
    var t := Booked(p, candles, s, side);
    assert t.trades[..|t.trades| - 1] == s.trades;
  }

  /** What was entered or passed over before does not depend on trades added since. */
  lemma EntersAsBefore(p: Setup, candles: seq<A.Candle>, trades: seq<Trade>, more: seq<Trade>, k: nat, i: nat, side: A.Side)
    requires i < |candles| && k <= |trades| && trades <= more
    ensures Enters(p, candles, more, k, i, side) == Enters(p, candles, trades, k, i, side)
    ensures Before(more, k) == Before(trades, k)
  {
    hide A.ObserveAt, A.Decide, A.Closes, Streak;
    assert more[..k] == trades[..k];
  }

  lemma StillNoneMissed(p: Setup, candles: seq<A.Candle>, s: Run, more: seq<Trade>, at: nat)
    requires NoneMissed(p, candles, s.trades, s.at)
    requires |more| == |s.trades| + 1 && more[..|s.trades|] == s.trades
    requires more[|s.trades|].entryIndex == s.at && more[|s.trades|].exitIndex + 1 == at
    ensures NoneMissed(p, candles, more, at)
  {
    hide Enters, FirstBar;
    forall k, i, side | 0 <= k <= |more| && From(p, candles, more, k) <= i < (if k < |more| then more[k].entryIndex else at)
                        && 0 <= i < |candles|
      ensures !Enters(p, candles, more, k, i, side)
    {
      if k <= |s.trades| {
        assert From(p, candles, more, k) == From(p, candles, s.trades, k);
        EntersAsBefore(p, candles, s.trades, more, k, i, side);
      }
    }
  }

  lemma OldTradeIsOk(p: Setup, candles: seq<A.Candle>, s: Run, trades: seq<Trade>, k: nat)
    requires Sound(p) && TradesOk(p, candles, s.trades) && k < |s.trades| && |trades| == |s.trades| + 1
    requires From(p, candles, s.trades, |s.trades|) <= s.at
    requires trades[..|s.trades|] == s.trades && trades[|s.trades|].entryIndex == s.at
    ensures TradeOk(p, candles, trades, k)
  {
    hide Val, Add, Campaign.Evaluate, Enters, BracketIs, ExitIs, ResultIs, WorstTrade, FirstBar;
    assert TradeOk(p, candles, s.trades, k);
    assert trades[k] == s.trades[k];
    EntersAsBefore(p, candles, s.trades, trades, k, trades[k].entryIndex, trades[k].side);
    if k + 1 < |s.trades| {
      assert trades[k + 1] == s.trades[k + 1];
    }
  }

  /** A booked profit, rounded, lies between the worst trade and the reward. */
  lemma ProfitBounds(p: Setup, side: A.Side, entry: real, r: Resolution, slPct: real)
    requires Sound(p) && slPct >= LeastStop(p.cfg) > 0.0
    ensures -WorstTrade(p)
         <= Val(Usdt(Profit(side, entry, r, slPct, p.risk, p.reward, p.cfg.entryFeeRate + p.cfg.exitFeeRate)))
         <= p.reward + 0.00005
  {
    hide Val, Usdt, Profit, LeastStop;
    FeesBound(p, slPct);
    UsdtIsNear(Profit(side, entry, r, slPct, p.risk, p.reward, p.cfg.entryFeeRate + p.cfg.exitFeeRate));
  }

  /** The trade a bar books, field by field. */
  lemma BookedTrade(p: Setup, candles: seq<A.Candle>, s: Run, side: A.Side)
    requires Sound(p) && s.at + 1 < |candles|
    ensures var t := Booked(p, candles, s, side).trades[|s.trades|];
            && t.index == |s.trades| + 1 && t.entryIndex == s.at && t.side == side && t.entryPrice == candles[s.at].close
            && t.running == Add(s.pnl, t.pnl)
            && var slPct := StopPct(p.cfg, candles, s.at);
               var b := Bracket(t.stopLoss, t.takeProfit);
               var r := Resolution(t.exitPrice, t.outcome, t.exitIndex);
               var profit := Profit(side, t.entryPrice, r, slPct, p.risk, p.reward, p.cfg.entryFeeRate + p.cfg.exitFeeRate);
               && b == BracketOf(side, t.entryPrice, slPct, p.reward / p.risk)
               && r == Resolve(side, b, candles, s.at + 1, p.cfg.maxHoldBars)
               && t.pnl == Usdt(profit) && (t.win <==> profit > 0.0)
  {
    hide Val, Usdt, Profit, Add, StopPct, Resolve, BracketOf;
    var b := BracketOf(side, candles[s.at].close, StopPct(p.cfg, candles, s.at), p.reward / p.risk);
    assert b == Bracket(b.stopLoss, b.takeProfit);
  }

  lemma ResolvedIs(p: Setup, candles: seq<A.Candle>, t: Trade)
    requires Sound(p) && t.entryIndex + 1 < |candles|
    requires Resolution(t.exitPrice, t.outcome, t.exitIndex)
          == Resolve(t.side, Bracket(t.stopLoss, t.takeProfit), candles, t.entryIndex + 1, p.cfg.maxHoldBars)
    ensures t.entryIndex < t.exitIndex < |candles| && ExitIs(p, candles, t)
  {
    hide Resolve;
    ResolvesLater(t.side, Bracket(t.stopLoss, t.takeProfit), candles, t.entryIndex + 1, p.cfg.maxHoldBars);
  }

  lemma BracketedIs(p: Setup, candles: seq<A.Candle>, t: Trade)
    requires Sound(p) && t.entryIndex < |candles|
    requires Bracket(t.stopLoss, t.takeProfit)
          == BracketOf(t.side, candles[t.entryIndex].close, StopPct(p.cfg, candles, t.entryIndex), p.reward / p.risk)
    ensures BracketIs(p, candles, t)
  {
    hide StopPct;
  }

  lemma BookedIs(p: Setup, candles: seq<A.Candle>, t: Trade, profit: real)
    requires Sound(p) && t.entryIndex < |candles|
    requires profit == Profit(t.side, t.entryPrice, Resolution(t.exitPrice, t.outcome, t.exitIndex),
                              StopPct(p.cfg, candles, t.entryIndex), p.risk, p.reward, p.cfg.entryFeeRate + p.cfg.exitFeeRate)
    requires t.pnl == Usdt(profit) && (t.win <==> profit > 0.0)
    ensures ResultIs(p, candles, t)
  {
    hide StopPct, Val, Usdt;
    UsdtIsNear(profit);
    var gross := profit + Fees(p, candles, t);
    assert Earns(p, candles, t, gross);
  }

  lemma NewTradeIsOk(p: Setup, candles: seq<A.Candle>, s: Run, was: D.Diagnostics, side: A.Side)
    requires Sound(p) && s.at + 1 < |candles| && RunOk(p, candles, s.(diagnostics := was))
    requires Campaign.Evaluate(p.goal, Campaign.State(s.pnl, s.closed)) == Campaign.Continue
    requires Enters(p, candles, s.trades, |s.trades|, s.at, side)
    ensures TradeOk(p, candles, Booked(p, candles, s, side).trades, |s.trades|)
  {
    hide Val, Add, Campaign.Evaluate, D.TopIsRight, Booked, WorstTrade, Resolve, BracketOf, Usdt, Profit, StopPct, LeastStop,
         Enters, BracketIs, ExitIs, ResultIs, TradeOk, NoneMissed, FirstBar, CountWins, Streak;
    BookedTrade(p, candles, s, side);
    BookedFields(p, candles, s, side);
    var trades := Booked(p, candles, s, side).trades;
    var t := trades[|s.trades|];
    var slPct := StopPct(p.cfg, candles, s.at);
    var r := Resolution(t.exitPrice, t.outcome, t.exitIndex);
    ResolvedIs(p, candles, t);
    BracketedIs(p, candles, t);
    BookedIs(p, candles, t, Profit(side, t.entryPrice, r, slPct, p.risk, p.reward, p.cfg.entryFeeRate + p.cfg.exitFeeRate));
    ProfitBounds(p, side, t.entryPrice, r, slPct);
    EntersAsBefore(p, candles, s.trades, trades, |s.trades|, s.at, side);
    LaterThanFirst(p, candles, s);
    NewTrade(p, candles, s, trades);
  }

  /** The pieces of TradeOk for the last trade. */
  lemma NewTrade(p: Setup, candles: seq<A.Candle>, s: Run, trades: seq<Trade>)
    requires Sound(p) && |trades| == |s.trades| + 1 && trades[..|s.trades|] == s.trades
    requires var t := trades[|s.trades|];
             && t.index == |s.trades| + 1 && FirstBar(p.cfg, |candles|) <= t.entryIndex < t.exitIndex < |candles|
             && Enters(p, candles, trades, |s.trades|, t.entryIndex, t.side) && t.entryPrice == candles[t.entryIndex].close
             && BracketIs(p, candles, t) && ExitIs(p, candles, t) && ResultIs(p, candles, t) && t.running == Add(s.pnl, t.pnl)
             && -WorstTrade(p) <= Val(t.pnl) <= p.reward + 0.00005
    requires s.pnl == Before(s.trades, |s.trades|) && s.closed == |s.trades| && Before(trades, |s.trades|) == Before(s.trades, |s.trades|)
    requires Campaign.Evaluate(p.goal, Campaign.State(s.pnl, s.closed)) == Campaign.Continue
    ensures TradeOk(p, candles, trades, |s.trades|)
  {
    hide Val, Add, Campaign.Evaluate, WorstTrade, Enters, BracketIs, ExitIs, ResultIs, FirstBar, Before;
  }

  lemma LaterThanFirst(p: Setup, candles: seq<A.Candle>, s: Run)
    requires Sound(p) && TradesOk(p, candles, s.trades) && From(p, candles, s.trades, |s.trades|) <= s.at
    ensures FirstBar(p.cfg, |candles|) <= s.at
  {
    hide Val, Add, Campaign.Evaluate, WorstTrade, Enters, BracketIs, ExitIs, ResultIs, FirstBar;
    if s.trades != [] {
      assert TradeOk(p, candles, s.trades, |s.trades| - 1);
    }
  }

  lemma ResolvesLater(side: A.Side, b: Bracket, candles: seq<A.Candle>, start: nat, maxHold: nat)
    requires start < |candles| && maxHold > 0
    ensures start <= Resolve(side, b, candles, start, maxHold).index < |candles|
    ensures IsResolution(side, b, candles, start, maxHold, Resolve(side, b, candles, start, maxHold))
  {}

  /** What a bar sees is an entry exactly when the strategy enters there. */
  lemma LookIs(p: Setup, candles: seq<A.Candle>, s: Run)
    requires s.at < |candles| && s.closed == |s.trades| && s.pnl == Before(s.trades, |s.trades|) && s.streak == Streak(s.trades)
    ensures forall side :: Enters(p, candles, s.trades, |s.trades|, s.at, side) <==>
                             LookAt(p.strategy, candles, s) == Signal(side) && BiasAllows(p.cfg.bias, side)
    ensures LookAt(p.strategy, candles, s).RuleStop? <==> StrategyStops(p, candles, s.trades, s.at)
  {
    hide A.ObserveAt, A.Decide, A.Closes, Streak, Before;
    assert s.trades[..|s.trades|] == s.trades;
  }

  lemma NextBarMissesNone(p: Setup, candles: seq<A.Candle>, trades: seq<Trade>, at: nat)
    requires NoneMissed(p, candles, trades, at) && at < |candles|
    requires forall side :: !Enters(p, candles, trades, |trades|, at, side)
    ensures NoneMissed(p, candles, trades, at + 1)
  {
    hide Enters, From;
  }

  lemma NotedKeepsTop(d: D.Diagnostics, anny: bool, look: Look)
    requires D.TopIsRight(d)
    ensures D.TopIsRight(Noted(d, anny, look))
  {
    hide D.RecordBlock;
    CountersAside(d, d.(observed := d.observed + 1));
    match look {
      case Warmup => D.RecordKeepsTop(d, "indicator warmup");
      case Blocked(reason) => D.RecordKeepsTop(d.(observed := d.observed + 1), reason);
      case _ => CountersAside(d, Noted(d, anny, look));
    }
  }

  lemma CountersAside(d: D.Diagnostics, e: D.Diagnostics)
    requires D.TopIsRight(d) && e.blocked == d.blocked && e.top == d.top && e.topCount == d.topCount
    ensures D.TopIsRight(e)
  {}

  lemma BarKeeps(p: Setup, candles: seq<A.Candle>, s: Run)
    requires Sound(p) && s.at + 1 < |candles| && RunOk(p, candles, s) && !s.halted
    ensures RunOk(p, candles, Bar(p, candles, s)) && HaltIs(p, candles, Bar(p, candles, s))
  {
    hide Campaign.Evaluate, LookAt, Noted, Booked, D.RecordBlock, D.TopIsRight, TradesOk, BiasAllows, Enters, NoneMissed, From,
         StrategyStops, Streak, CountWins, Before;
    var look := LookAt(p.strategy, candles, s);
    LookIs(p, candles, s);
    NotedKeepsTop(s.diagnostics, p.strategy.Anny?, look);
    NotedCounts(s.diagnostics, p.strategy.Anny?, look);
    if p.strategy.Generic? {
      GenericLooks(p, candles, s);
    }
    var noted := s.(diagnostics := Noted(s.diagnostics, p.strategy.Anny?, look));
    if Campaign.Evaluate(p.goal, Campaign.State(s.pnl, s.closed)) == Campaign.Continue && !look.RuleStop? {
      if look.Signal? && BiasAllows(p.cfg.bias, look.side) {
        BookedIsOk(p, candles, noted, s.diagnostics, look.side);
        BookedGoesOn(p, candles, noted, look.side);
      } else {
        NextBarMissesNone(p, candles, s.trades, s.at);
        var d := noted.diagnostics.(biasRejected := noted.diagnostics.biasRejected + 1);
        CountersAside(noted.diagnostics, d);
        D.RecordKeepsTop(d, "AI side filter");
        BlockCounts(d, "AI side filter");
      }
    }
  }

  /** A run stops early only by the goal's rules or the model's own. */
  ghost predicate HaltIs(p: Setup, candles: seq<A.Candle>, s: Run) {
    s.halted ==>
      || s.verdict == Campaign.Evaluate(p.goal, Campaign.State(s.pnl, s.closed)) != Campaign.Continue
      || (s.verdict == Campaign.StrategyRule && s.at < |candles| && StrategyStops(p, candles, s.trades, s.at))
  }

  lemma BookedGoesOn(p: Setup, candles: seq<A.Candle>, s: Run, side: A.Side)
    requires Sound(p) && s.at + 1 < |candles|
    ensures Booked(p, candles, s, side).halted == s.halted
  {
    hide Val, Usdt, Resolve, Profit, StopPct, BracketOf, Add;
  }

  lemma {:induction false} RunKeeps(p: Setup, candles: seq<A.Candle>, s: Run)
    requires Sound(p) && RunOk(p, candles, s) && HaltIs(p, candles, s)
    ensures var t := RunFrom(p, candles, s); RunOk(p, candles, t) && HaltIs(p, candles, t) && (t.halted || t.at + 1 >= |candles|)
    decreases |candles| - s.at, if s.halted then 0 else 1
  {
    hide Bar, RunOk, HaltIs;
    if !s.halted && s.at + 1 < |candles| {
      BarKeeps(p, candles, s);
      BarAdvances(p, candles, s);
      RunKeeps(p, candles, Bar(p, candles, s));
    }
  }

  /** The final run of any configuration. */
  function FinalRun(p: Setup, candles: seq<A.Candle>): Run
    requires Ready(p.cfg) && p.risk > 0.0 && p.reward > 0.0
  {
    Finished(p, RunFrom(p, candles, Begin(p.cfg, |candles|)))
  }

  /** Trades never overlap. Each is entered where the strategy enters, has its bracket and resolves on the first
      candle that touches a level, and is booked by its outcome; no entry between them is passed over. The
      counters and the running profit agree with the trades, the rules said to continue before each, and the run
      ends by a rule or at the last candle. */
  lemma Accounting(p: Setup, candles: seq<A.Candle>)
    requires Sound(p)
    ensures RunOk(p, candles, FinalRun(p, candles))
    ensures var s := FinalRun(p, candles);
            || (s.verdict == Campaign.Evaluate(p.goal, Campaign.State(s.pnl, s.closed))
                && (s.verdict == Campaign.Continue ==> s.at + 1 >= |candles|))
            || (s.verdict == Campaign.StrategyRule && s.at < |candles| && StrategyStops(p, candles, s.trades, s.at))
  {
    hide TradesOk, D.TopIsRight, Campaign.Evaluate, NoneMissed, StrategyStops;
    NothingYet(p, candles);
    RunKeeps(p, candles, Begin(p.cfg, |candles|));
  }

  lemma NothingYet(p: Setup, candles: seq<A.Candle>)
    requires Sound(p)
    ensures RunOk(p, candles, Begin(p.cfg, |candles|)) && HaltIs(p, candles, Begin(p.cfg, |candles|))
  {
    hide Enters;
  }

  ghost function SumOfPnl(trades: seq<Trade>, n: nat): real
    requires n <= |trades|
  {
    if n == 0 then 0.0 else SumOfPnl(trades, n - 1) + Val(trades[n - 1].pnl)
  }

  /** Each running profit is the sum of the profits so far. */
  lemma {:induction false} RunningIsPrefixSum(p: Setup, candles: seq<A.Candle>, trades: seq<Trade>, n: nat)
    requires Sound(p) && TradesOk(p, candles, trades) && n <= |trades|
    ensures Val(Before(trades, n)) == SumOfPnl(trades, n)
  {
    hide Val, Add, Campaign.Evaluate, Enters, BracketIs, ExitIs, ResultIs, NoneMissed;
    if n == 0 {
      ZeroVal();
    } else {
      RunningIsPrefixSum(p, candles, trades, n - 1);
      assert TradeOk(p, candles, trades, n - 1);
      AddIsExact(Before(trades, n - 1), trades[n - 1].pnl);
    }
  }

  /** A drawdown budget is overshot by less than one worst trade, at every point of the run. */
  lemma BoundedOvershoot(p: Setup, candles: seq<A.Candle>, n: nat)
    requires Sound(p) && Val(p.goal.maxDrawdown) > 0.0 && n <= |FinalRun(p, candles).trades|
    ensures Val(Before(FinalRun(p, candles).trades, n)) > -Val(p.goal.maxDrawdown) - WorstTrade(p)
  {
    hide Val, Add, Campaign.Evaluate, Enters, BracketIs, ExitIs, ResultIs, NoneMissed, FinalRun, WorstTrade, D.TopIsRight;
    Accounting(p, candles);
    WorstIsPositive(p);
    var trades := FinalRun(p, candles).trades;
    if n == 0 {
      ZeroVal();
    } else {
      assert TradeOk(p, candles, trades, n - 1);
      Campaign.VerdictMeaning(p.goal, Campaign.State(Before(trades, n - 1), n - 1));
      AddIsExact(Before(trades, n - 1), trades[n - 1].pnl);
    }
  }

  lemma WorstIsPositive(p: Setup)
    requires Sound(p)
    ensures WorstTrade(p) > 0.0
  {
    LeastIsPositive(p.cfg);
    FeesBound(p, LeastStop(p.cfg));
  }

  lemma LeastIsPositive(c: Config)
    requires Ready(c)
    ensures LeastStop(c) > 0.0
  {}

  // ---------------------------------------------------------------------------
  // No look-ahead
  // ---------------------------------------------------------------------------

  /** A trade whose holding time ran past the end of the candles. */
  predicate CutShort(p: Setup, candles: seq<A.Candle>, t: Trade) {
    t.outcome == TimedOut && t.exitIndex == |candles| - 1 && t.entryIndex + 1 + p.cfg.maxHoldBars > |candles|
  }

  lemma {:induction false} ResolveIsCausal(side: A.Side, b: Bracket, a: seq<A.Candle>, c: seq<A.Candle>, start: nat, maxHold: nat)
    requires a <= c && start < |a| && maxHold > 0
    ensures var r := Resolve(side, b, a, start, maxHold);
            r == Resolve(side, b, c, start, maxHold) || (r.outcome == TimedOut && r.index == |a| - 1 && start + maxHold > |a|)
    decreases maxHold
  {
    assert a[start] == c[start];
    if Quiet(side, b, a[start]) && start + 1 < |a| && maxHold > 1 {
      ResolveIsCausal(side, b, a, c, start + 1, maxHold - 1);
    }
  }

  lemma {:induction false} RangesAgree(a: seq<A.Candle>, c: seq<A.Candle>, lo: nat, hi: nat)
    requires a <= c && 1 <= lo && hi <= |a|
    ensures RelativeRanges(a, lo, hi) == RelativeRanges(c, lo, hi)
    decreases hi
  {
    if lo < hi {
      RangesAgree(a, c, lo, hi - 1);
      assert a[hi - 1] == c[hi - 1] && a[hi - 2] == c[hi - 2];
    }
  }

  lemma StopIsCausal(cfg: Config, a: seq<A.Candle>, c: seq<A.Candle>, idx: nat)
    requires Ready(cfg) && a <= c && idx < |a|
    ensures StopPct(cfg, a, idx) == StopPct(cfg, c, idx)
  {
    hide RelativeRanges, A.Mean;
    RangesAgree(a, c, AtrStart(idx, cfg.atrLookback), idx + 1);
  }

  /** The later series is the earlier one and candles that had not closed at any of these times. */
  ghost predicate MainGrows(main: seq<A.Candle>, later: seq<A.Candle>, candles: seq<A.Candle>) {
    main <= later
    && forall i, j :: 0 <= i < |candles| && |main| <= j < |later| ==> later[j].openTime + A.MAIN_INTERVAL > candles[i].openTime
  }

  /** The same strategy, but the ANNY model may have seen more of its own candles. */
  ghost predicate StrategyGrows(s: Strategy, t: Strategy, candles: seq<A.Candle>) {
    match s
    case Generic(_) => t == s
    case Anny(qqe, main) => t.Anny? && t.qqe == qqe && MainGrows(main, t.main, candles)
  }

  lemma LookIsCausal(strategy: Strategy, later: Strategy, a: seq<A.Candle>, c: seq<A.Candle>, s: Run)
    requires a <= c && s.at < |a| && StrategyGrows(strategy, later, a)
    ensures LookAt(strategy, a, s) == LookAt(later, c, s)
  {
    hide A.Closes, A.ObserveAt, A.Decide;
    match strategy {
      case Generic(_) => assert a[..s.at + 1] == c[..s.at + 1];
      case Anny(qqe, main) => SameObservation(qqe, main, later.main, a, c, s.at);
    }
  }

  lemma SameObservation(qqe: A.Qqe, main: seq<A.Candle>, later: seq<A.Candle>, a: seq<A.Candle>, c: seq<A.Candle>, at: nat)
    requires a <= c && at < |a| && MainGrows(main, later, a)
    ensures A.ObserveAt(qqe, main, a, at) == A.ObserveAt(qqe, later, c, at)
  {
    hide A.ObserveAt;
    A.ClosedPrefixEnds(main, a[at].openTime);
    var n := A.ClosedPrefix(main, a[at].openTime);
    assert later[..n] == main[..n];
    A.ObservationIsCausal(qqe, main, later, a, c, at);
  }

  /** One bar is the same on both series, unless it books a trade cut short by the end of the shorter,
      which then is the last of that run. */
  lemma BarIsCausal(p: Setup, later: Strategy, a: seq<A.Candle>, c: seq<A.Candle>, s: Run)
    requires Sound(p) && a <= c && s.at + 1 < |a| && !s.halted && StrategyGrows(p.strategy, later, a)
    ensures var x, y := Bar(p, a, s), Bar(p.(strategy := later), c, s);
            || x == y
            || (&& |x.trades| == |s.trades| + 1 && x.trades[..|s.trades|] == s.trades
                && CutShort(p, a, x.trades[|s.trades|]) && x.at == |a| && !x.halted
                && s.trades <= y.trades)
  {
    hide Campaign.Evaluate, LookAt, Noted, D.RecordBlock, BiasAllows, Booked;
    LookIsCausal(p.strategy, later, a, c, s);
    hide StrategyGrows;
    var look := LookAt(p.strategy, a, s);
    if look.Signal? {
      var noted := s.(diagnostics := Noted(s.diagnostics, p.strategy.Anny?, look));
      BookedIsCausal(p, later, a, c, noted, look.side);
    }
  }

  lemma BookedIsCausal(p: Setup, later: Strategy, a: seq<A.Candle>, c: seq<A.Candle>, s: Run, side: A.Side)
    requires Sound(p) && a <= c && s.at + 1 < |a|
    ensures var x, y := Booked(p, a, s, side), Booked(p.(strategy := later), c, s, side);
            || x == y
            || (&& |x.trades| == |s.trades| + 1 && x.trades[..|s.trades|] == s.trades
                && CutShort(p, a, x.trades[|s.trades|]) && x.at == |a| && x.halted == s.halted
                && s.trades <= y.trades)
  {
    hide Profit, Usdt, Add, StopPct, BracketOf, Resolve;
    var slPct := StopPct(p.cfg, a, s.at);
    StopIsCausal(p.cfg, a, c, s.at);
    assert a[s.at] == c[s.at];
    var b := BracketOf(side, a[s.at].close, slPct, p.reward / p.risk);
    ResolveIsCausal(side, b, a, c, s.at + 1, p.cfg.maxHoldBars);
  }

  lemma {:induction false} TradesOnlyGrow(p: Setup, candles: seq<A.Candle>, s: Run)
    requires Sound(p)
    ensures s.trades <= RunFrom(p, candles, s).trades
    decreases |candles| - s.at, if s.halted then 0 else 1
  {
    hide Bar;
    if !s.halted && s.at + 1 < |candles| {
      BarGrows(p, candles, s);
      BarAdvances(p, candles, s);
      TradesOnlyGrow(p, candles, Bar(p, candles, s));
    }
  }

  lemma BarGrows(p: Setup, candles: seq<A.Candle>, s: Run)
    requires Sound(p) && s.at + 1 < |candles|
    ensures s.trades <= Bar(p, candles, s).trades
  {
    hide Campaign.Evaluate, LookAt, Noted, D.RecordBlock, Profit, Usdt, StopPct, BracketOf, Resolve;
  }

  /** All trades of the shorter run are trades of the longer, but perhaps for a last one that was cut short. */
  ghost predicate SameButLast(p: Setup, a: seq<A.Candle>, short: seq<Trade>, long: seq<Trade>) {
    || short <= long
    || (short != [] && CutShort(p, a, short[|short| - 1]) && short[..|short| - 1] <= long)
  }

  lemma {:induction false} RunIsCausal(p: Setup, later: Strategy, a: seq<A.Candle>, c: seq<A.Candle>, s: Run)
    requires Sound(p) && a <= c && StrategyGrows(p.strategy, later, a)
    ensures SameButLast(p, a, RunFrom(p, a, s).trades, RunFrom(p.(strategy := later), c, s).trades)
    decreases |a| - s.at, if s.halted then 0 else 1
  {
    hide Bar, CutShort, StrategyGrows;
    var q := p.(strategy := later);
    if s.halted || s.at + 1 >= |a| {
      TradesOnlyGrow(q, c, s);
    } else {
      BarIsCausal(p, later, a, c, s);
      BarAdvances(p, a, s);
      var x, y := Bar(p, a, s), Bar(q, c, s);
      if x == y {
        RunIsCausal(p, later, a, c, x);
      } else {
        TradesOnlyGrow(q, c, y);
        Stops(p, a, x);
        Shortened(p, a, x.trades, s.trades, y.trades, RunFrom(q, c, y).trades);
      }
    }
  }

  lemma Stops(p: Setup, a: seq<A.Candle>, x: Run)
    requires Sound(p) && x.at == |a|
    ensures RunFrom(p, a, x) == x
  {}

  lemma Shortened(p: Setup, a: seq<A.Candle>, short: seq<Trade>, common: seq<Trade>, longer: seq<Trade>, long: seq<Trade>)
    requires |short| == |common| + 1 && short[..|common|] == common && CutShort(p, a, short[|common|])
    requires common <= longer <= long
    ensures SameButLast(p, a, short, long)
  {}

  /** No look-ahead: with no planning window, more candles never change a trade already made, for a
      strategy on closes, and for the ANNY model also when its main series grows by candles that had
      not closed. */
  lemma NoLookAhead(p: Setup, later: Strategy, a: seq<A.Candle>, c: seq<A.Candle>)
    requires Sound(p) && p.cfg.planBars <= 0 && a <= c && StrategyGrows(p.strategy, later, a)
    ensures SameButLast(p, a, FinalRun(p, a).trades, FinalRun(p.(strategy := later), c).trades)
  {
    hide CutShort, SameButLast, Campaign.Evaluate, StrategyGrows;
    RunIsCausal(p, later, a, c, Begin(p.cfg, |a|));
  }
}
