/** Walk-forward validation: consecutive folds that own their warmup, one paper run each, summed up. */
module WalkForward {
  import opened Common
  import opened Decimals
  import opened PaperRules
  import opened Paper
  import A = AnnyBasic
  import Campaign
  import D = Diagnostics
  import Th = PaperTheorems

  /** Warmup is [warmupStart, testStart), the test is [testStart, end). */
  datatype Window = Window(index: nat, warmupStart: nat, testStart: nat, end: nat, startTime: Time, endTime: Time)

  const DEFAULT_FOLDS := 4

  /** The zero time of an unset window: the start of year 1, in milliseconds since 1970. */
  const UNSET: Time := -62_135_596_800_000

  /** One step past the last candle. */
  function WindowEnd(candles: seq<A.Candle>): Time {
    if |candles| == 0 then UNSET
    else
      var last := candles[|candles| - 1].openTime;
      if |candles| == 1 then last
      else
        var step := last - candles[|candles| - 2].openTime;
        last + (if step <= 0 then 1 else step)
  }

  function NewWindow(index: nat, warmupStart: nat, testStart: nat, end: nat, candles: seq<A.Candle>): Window
    requires warmupStart < end <= |candles|
  {
    Window(index, warmupStart, testStart, end, candles[warmupStart].openTime, WindowEnd(candles[warmupStart..end]))
  }

  // ---------------------------------------------------------------------------
  // Splitting
  // ---------------------------------------------------------------------------

  /** Consecutive windows that cover exactly the first upTo candles, each with its own warmup. */
  ghost predicate Tiles(windows: seq<Window>, candles: seq<A.Candle>, warmup: nat, upTo: nat) {
    && upTo <= |candles|
    && (forall k :: 0 <= k < |windows| ==> TileOk(windows, candles, warmup, upTo, k))
    && upTo == (if windows == [] then 0 else windows[|windows| - 1].end)
  }

  ghost predicate SizesDifferByOne(windows: seq<Window>, n: nat, count: nat)
    requires count > 0
  {
    forall k :: 0 <= k < |windows| ==>
      windows[k].end - windows[k].warmupStart == n / count + (if k < n % count then 1 else 0)
  }

  /** All blocks have the full size, but perhaps the last, which still has two test bars if any has. */
  ghost predicate FullBlocks(windows: seq<Window>, warmup: nat, bars: nat) {
    forall k :: 0 <= k < |windows| ==>
      var size := windows[k].end - windows[k].warmupStart;
      && (size == warmup + bars || (k == |windows| - 1 && size < warmup + bars))
      && size - warmup >= (if bars < 2 then bars else 2)
  }

  ghost predicate TileOk(windows: seq<Window>, candles: seq<A.Candle>, warmup: nat, upTo: nat, k: nat)
    requires k < |windows| && upTo <= |candles|
  {
    && windows[k].warmupStart == (if k == 0 then 0 else windows[k - 1].end)
    && windows[k].warmupStart < windows[k].end <= upTo
    && windows[k].index == k + 1 && windows[k].testStart == windows[k].warmupStart + warmup && TimesOf(windows[k], candles)
  }

  /** The window begins when its first candle opens and ends one step, the last one of its own, after its last
      candle opens. */
  ghost predicate TimesOf(w: Window, candles: seq<A.Candle>) {
    && w.warmupStart < w.end <= |candles| && w.startTime == candles[w.warmupStart].openTime
    && var last := candles[w.end - 1].openTime;
       if w.end == w.warmupStart + 1 then w.endTime == last
       else if candles[w.end - 2].openTime < last then w.endTime - last == last - candles[w.end - 2].openTime
       else w.endTime == last + 1
  }

  lemma WindowSize(index: nat, start: nat, warmup: nat, end: nat, candles: seq<A.Candle>)
    requires start < end <= |candles|
    ensures var w := NewWindow(index, start, start + warmup, end, candles);
            w.warmupStart == start && w.end == end && w.testStart == start + warmup && w.index == index && TimesOf(w, candles)
  {
    var block := candles[start..end];
    assert block[|block| - 1] == candles[end - 1];
    assert |block| >= 2 ==> block[|block| - 2] == candles[end - 2];
  }

  lemma TilesExtended(windows: seq<Window>, candles: seq<A.Candle>, warmup: nat, upTo: nat, end: nat)
    requires Tiles(windows, candles, warmup, upTo) && upTo < end <= |candles|
    ensures Tiles(windows + [NewWindow(|windows| + 1, upTo, upTo + warmup, end, candles)], candles, warmup, end)
  {
    hide NewWindow;
    var w := NewWindow(|windows| + 1, upTo, upTo + warmup, end, candles);
    WindowSize(|windows| + 1, upTo, warmup, end, candles);
    var more := windows + [w];
    assert more[|windows|] == w;
    assert TileOk(more, candles, warmup, end, |windows|);
    forall k | 0 <= k < |windows| ensures TileOk(more, candles, warmup, end, k) {
      assert more[k] == windows[k] && TileOk(windows, candles, warmup, upTo, k);
    }
  }

  /** The start of block i when n candles are dealt out to count blocks. */
  function BlockStart(n: nat, count: nat, i: nat): nat
    requires count > 0 && i <= count
  {
    i * (n / count) + (if i < n % count then i else n % count)
  }

  lemma BlocksCover(n: nat, count: nat)
    requires count > 0
    ensures BlockStart(n, count, count) == n
  {
    assert n == count * (n / count) + n % count;
  }

  lemma NextBlock(n: nat, count: nat, i: nat)
    requires count > 0 && i < count
    ensures BlockStart(n, count, i + 1) == BlockStart(n, count, i) + n / count + (if i < n % count then 1 else 0)
    ensures BlockStart(n, count, i + 1) <= n
  {
    var base, rest := n / count, n % count;
    assert (i + 1) * base == i * base + base;
    assert n == count * base + rest;
    LessTimes(i + 1, count, base);
  }

  lemma LessTimes(a: nat, b: nat, x: nat)
    requires a <= b
    ensures a * x <= b * x
  {}

  lemma QuotientIsBigEnough(n: nat, count: nat, q: nat, r: nat, least: nat)
    requires n == count * q + r && r < count && n >= count * least
    ensures q >= least
  {
    if q < least {
      LessTimes(q + 1, least, count);
    }
  }

  lemma BlockIsBigEnough(n: nat, count: nat, least: nat)
    requires count > 0 && n >= count * least
    ensures n / count >= least
  {
    QuotientIsBigEnough(n, count, n / count, n % count, least);
  }

  ghost predicate AllFull(windows: seq<Window>, size: nat) {
    forall k :: 0 <= k < |windows| ==> windows[k].end - windows[k].warmupStart == size
  }

  lemma FullBlocksExtended(windows: seq<Window>, w: Window, warmup: nat, bars: nat)
    requires AllFull(windows, warmup + bars) && bars > 0
    requires var size := w.end - w.warmupStart; size <= warmup + bars && size - warmup >= (if bars < 2 then bars else 2)
    ensures FullBlocks(windows + [w], warmup, bars)
    ensures w.end - w.warmupStart == warmup + bars ==> AllFull(windows + [w], warmup + bars)
  {
    var more := windows + [w];
    forall k | 0 <= k < |more|
      ensures var size := more[k].end - more[k].warmupStart;
              (size == warmup + bars || (k == |more| - 1 && size < warmup + bars)) && size - warmup >= (if bars < 2 then bars else 2)
    {
      if k < |windows| {
        assert more[k] == windows[k];
      }
    }
  }

  /** Whether the candles suffice for the folds asked for. */
  predicate Splittable(candles: seq<A.Candle>, warmupBars: int, foldCount: int, foldBars: int) {
    var warmup := OrInt(warmupBars, 30);
    |candles| >= warmup + 2 && (foldBars > 0 || |candles| >= OrInt(foldCount, DEFAULT_FOLDS) * (warmup + 2))
  }

  /** Blocks of warmup and test bars from a start on, until less than warmup and two bars are left. */
  function BarWindows(candles: seq<A.Candle>, warmup: nat, bars: nat, start: nat, index: nat): seq<Window>
    requires bars > 0
    decreases |candles| - start
  {
    if start + warmup + 2 > |candles| then []
    else
      var end := if start + warmup + bars > |candles| then |candles| else start + warmup + bars;
      [NewWindow(index, start, start + warmup, end, candles)] + BarWindows(candles, warmup, bars, end, index + 1)
  }

  /** The first i of count blocks of nearly equal size. */
  function CountWindows(candles: seq<A.Candle>, warmup: nat, count: nat, i: nat): seq<Window>
    requires 0 < count <= |candles| && i <= count
  {
    if i == 0 then []
    else
      NextBlock(|candles|, count, i - 1);
      BlocksMove(|candles|, count);
      var start, end := BlockStart(|candles|, count, i - 1), BlockStart(|candles|, count, i);
      CountWindows(candles, warmup, count, i - 1) + [NewWindow(i, start, start + warmup, end, candles)]
  }

  lemma BlocksMove(n: nat, count: nat)
    requires 0 < count <= n
    ensures n / count > 0
  {
    BlockIsBigEnough(n, count, 1);
  }

  lemma ManyCandles(n: nat, count: nat, warmup: nat)
    requires count > 0 && n >= count * (warmup + 2)
    ensures n >= count
  {
    LessTimes(1, warmup + 2, count);
  }

  function Windows(candles: seq<A.Candle>, warmupBars: int, foldCount: int, foldBars: int): seq<Window>
    requires Splittable(candles, warmupBars, foldCount, foldBars)
  {
    var warmup, count := OrInt(warmupBars, 30), OrInt(foldCount, DEFAULT_FOLDS);
    if foldBars > 0 then BarWindows(candles, warmup, foldBars, 0, 1)
    else
      ManyCandles(|candles|, count, warmup);
      CountWindows(candles, warmup, count, count)
  }

  method SplitWalkForwardFolds(candles: seq<A.Candle>, warmupBars: int, foldCount: int, foldBars: int) returns (r: Result<seq<Window>>)
    ensures r.Ok? <==> Splittable(candles, warmupBars, foldCount, foldBars)
    ensures r.Ok? ==> r.value == Windows(candles, warmupBars, foldCount, foldBars)
    ensures var warmup := OrInt(warmupBars, 30);
            var count := OrInt(foldCount, DEFAULT_FOLDS);
            && (r.Ok? && foldBars > 0 ==>
                  exists upTo :: Tiles(r.value, candles, warmup, upTo) && |candles| - upTo < warmup + 2
                                 && FullBlocks(r.value, warmup, foldBars) && r.value != [])
            && (r.Ok? && foldBars <= 0 ==>
                  Tiles(r.value, candles, warmup, |candles|) && |r.value| == count
                  && SizesDifferByOne(r.value, |candles|, count)
                  && forall k :: 0 <= k < count ==> r.value[k].end - r.value[k].testStart >= 2)
  {
    var warmup := OrInt(warmupBars, 30);
    if |candles| < warmup + 2 {
      return Err("walk-forward: not enough candles");
    }
    if foldBars > 0 {
      var windows := SplitByBars(candles, warmup, foldBars);
      return Ok(windows);
    }
    var count := OrInt(foldCount, DEFAULT_FOLDS);
    if |candles| < count * (warmup + 2) {
      return Err("walk-forward: not enough candles for the folds");
    }
    var windows := SplitByCount(candles, warmup, count);
    r := Ok(windows);
  }

  lemma NextBarWindow(candles: seq<A.Candle>, warmup: nat, bars: nat, start: nat, index: nat)
    requires bars > 0
    ensures start + warmup + 2 > |candles| ==> BarWindows(candles, warmup, bars, start, index) == []
    ensures start + warmup + 2 <= |candles| ==>
              var end := if start + warmup + bars > |candles| then |candles| else start + warmup + bars;
              BarWindows(candles, warmup, bars, start, index)
              == [NewWindow(index, start, start + warmup, end, candles)] + BarWindows(candles, warmup, bars, end, index + 1)
  {}

  lemma NoWindows(candles: seq<A.Candle>, warmup: nat, bars: nat)
    ensures Tiles([], candles, warmup, 0) && FullBlocks([], warmup, bars) && AllFull([], warmup + bars)
  {}

  method SplitByBars(candles: seq<A.Candle>, warmup: nat, bars: nat) returns (windows: seq<Window>)
    requires bars > 0 && |candles| >= warmup + 2
    ensures windows == BarWindows(candles, warmup, bars, 0, 1)
    ensures exists upTo :: Tiles(windows, candles, warmup, upTo) && |candles| - upTo < warmup + 2
                           && FullBlocks(windows, warmup, bars) && windows != []
  {
    hide NewWindow, Tiles, FullBlocks, AllFull, BarWindows;
    windows := [];
    var start := 0;
    NoWindows(candles, warmup, bars);
    while start + warmup + 2 <= |candles|
      invariant Tiles(windows, candles, warmup, start) && FullBlocks(windows, warmup, bars)
      invariant start < |candles| ==> AllFull(windows, warmup + bars)
      invariant start <= |candles| && (windows == [] ==> start == 0)
      invariant windows + BarWindows(candles, warmup, bars, start, |windows| + 1) == BarWindows(candles, warmup, bars, 0, 1)
      decreases |candles| - start
    {
      var end := start + warmup + bars;
      if end > |candles| {
        end := |candles|;
      }
      TilesExtended(windows, candles, warmup, start, end);
      var w := NewWindow(|windows| + 1, start, start + warmup, end, candles);
      WindowSize(|windows| + 1, start, warmup, end, candles);
      FullBlocksExtended(windows, w, warmup, bars);
      NextBarWindow(candles, warmup, bars, start, |windows| + 1);
      windows := windows + [w];
      start := end;
    }
    NextBarWindow(candles, warmup, bars, start, |windows| + 1);
    assert windows + [] == windows;
  }

  method SplitByCount(candles: seq<A.Candle>, warmup: nat, count: nat) returns (windows: seq<Window>)
    requires 0 < count && |candles| >= count * (warmup + 2)
    ensures count <= |candles| && windows == CountWindows(candles, warmup, count, count)
    ensures Tiles(windows, candles, warmup, |candles|) && |windows| == count && SizesDifferByOne(windows, |candles|, count)
    ensures forall k :: 0 <= k < count ==> windows[k].end - windows[k].testStart >= 2
  {
    hide NewWindow, Tiles;
    windows := [];
    var start := 0;
    NoWindows(candles, warmup, 1);
    ManyCandles(|candles|, count, warmup);
    BlockIsBigEnough(|candles|, count, warmup + 2);
    var base, remainder := |candles| / count, |candles| % count;
    for i := 0 to count
      invariant start == BlockStart(|candles|, count, i) && |windows| == i
      invariant windows == CountWindows(candles, warmup, count, i)
      invariant Tiles(windows, candles, warmup, start) && SizesDifferByOne(windows, |candles|, count)
    {
      var size := base;
      if i < remainder {
        size := size + 1;
      }
      NextBlock(|candles|, count, i);
      TilesExtended(windows, candles, warmup, start, start + size);
      windows := windows + [NewWindow(i + 1, start, start + warmup, start + size, candles)];
      WindowSize(i + 1, start, warmup, start + size, candles);
      start := start + size;
    }
    BlocksCover(|candles|, count);
    TwoTestBars(windows, candles, warmup, count);
  }

  lemma TwoTestBars(windows: seq<Window>, candles: seq<A.Candle>, warmup: nat, count: nat)
    requires Tiles(windows, candles, warmup, |candles|) && 0 < count && |candles| / count >= warmup + 2
    requires SizesDifferByOne(windows, |candles|, count)
    ensures forall k :: 0 <= k < |windows| ==> windows[k].end - windows[k].testStart >= 2
  {
    hide NewWindow;
    forall k | 0 <= k < |windows| ensures windows[k].end - windows[k].testStart >= 2 {
      assert TileOk(windows, candles, warmup, |candles|, k);
    }
  }

  // ---------------------------------------------------------------------------
  // One fold
  // ---------------------------------------------------------------------------

  function Inside(candles: seq<A.Candle>, start: Time, end: Time): seq<A.Candle> {
    if candles == [] then []
    else
      var rest := Inside(candles[..|candles| - 1], start, end);
      if start <= candles[|candles| - 1].openTime < end then rest + [candles[|candles| - 1]] else rest
  }

  method FilterCandlesByTime(candles: seq<A.Candle>, start: Time, end: Time) returns (out: seq<A.Candle>)
    ensures out == if TimesSet(start, end) then Inside(candles, start, end) else candles
    ensures TimesSet(start, end) ==> forall i :: 0 <= i < |out| ==> start <= out[i].openTime < end
  {
    if start == UNSET || end == UNSET || end <= start {
      return candles;
    }
    out := [];
    for i := 0 to |candles|
      invariant out == Inside(candles[..i], start, end)
      invariant forall j :: 0 <= j < |out| ==> start <= out[j].openTime < end
    {
      assert candles[..i + 1][..i] == candles[..i];
      if candles[i].openTime < start || !(candles[i].openTime < end) {
        continue;
      }
      out := out + [candles[i]];
    }
    assert candles[..|candles|] == candles;
  }

  predicate TimesSet(start: Time, end: Time) {
    start != UNSET && end != UNSET && end > start
  }

  function Filtered(candles: seq<A.Candle>, start: Time, end: Time): seq<A.Candle> {
    if TimesSet(start, end) then Inside(candles, start, end) else candles
  }

  function FoldStrategy(strategy: Strategy, w: Window): Strategy {
    match strategy
    case Generic(_) => strategy
    case Anny(qqe, main) => if main == [] then strategy else Anny(qqe, Filtered(main, w.startTime, w.endTime))
  }

  function FoldConfig(cfg: Config, w: Window): Config
    requires w.warmupStart <= w.testStart <= w.end
  {
    cfg.(warmupBars := w.testStart - w.warmupStart, planBars := w.end - w.testStart)
  }

  /** The paper run of one fold, or None when it cannot run. */
  function Fold(goal: Campaign.Goal, cfg: Config, strategy: Strategy, candles: seq<A.Candle>, w: Window): Option<Run>
    requires w.warmupStart <= w.testStart <= w.end <= |candles|
  {
    var p, block := SetupOf(goal, FoldConfig(cfg, w), FoldStrategy(strategy, w)), candles[w.warmupStart..w.end];
    if Runnable(p, block) then Some(Th.FinalRun(p, block)) else None
  }

  /** The same strategy, with main candles that agree on the window. */
  ghost predicate AgreeInside(s: Strategy, t: Strategy, start: Time, end: Time) {
    match s
    case Generic(f) => t == s
    case Anny(qqe, main) => t.Anny? && t.qqe == qqe && Inside(t.main, start, end) == Inside(main, start, end)
  }

  /** With its times set, a fold's result depends on nothing outside its window: neither on other
      execution candles nor on other main candles. */
  lemma FoldIsLocal(goal: Campaign.Goal, cfg: Config, s: Strategy, t: Strategy, a: seq<A.Candle>, c: seq<A.Candle>, w: Window)
    requires w.warmupStart <= w.testStart <= w.end <= |a| && w.end <= |c|
    requires a[w.warmupStart..w.end] == c[w.warmupStart..w.end]
    requires TimesSet(w.startTime, w.endTime) && AgreeInside(s, t, w.startTime, w.endTime)
    ensures Fold(goal, cfg, s, a, w) == Fold(goal, cfg, t, c, w)
  {
    hide Th.FinalRun, Inside;
    NoneInside(w.startTime, w.endTime);
    assert FoldStrategy(s, w) == FoldStrategy(t, w);
  }

  lemma NoneInside(start: Time, end: Time)
    ensures Inside([], start, end) == []
  {}

  /** Candles with set, non-decreasing open times give every window its times. */
  lemma WindowTimesAreSet(candles: seq<A.Candle>, windows: seq<Window>, warmup: nat, upTo: nat, k: nat)
    requires Tiles(windows, candles, warmup, upTo) && k < |windows|
    requires forall i :: 0 <= i < |candles| ==> candles[i].openTime > UNSET
    requires forall i, j :: 0 <= i < j < |candles| ==> candles[i].openTime <= candles[j].openTime
    requires windows[k].end - windows[k].warmupStart >= 2
    ensures TimesSet(windows[k].startTime, windows[k].endTime)
    ensures forall i :: windows[k].warmupStart <= i < windows[k].end && i < |candles| ==>
              windows[k].startTime <= candles[i].openTime < windows[k].endTime
  {
    assert TileOk(windows, candles, warmup, upTo, k);
  }

  /** A later candle opens later. */
  ghost predicate Rising(candles: seq<A.Candle>) {
    forall i, j :: 0 <= i < j < |candles| ==> candles[i].openTime < candles[j].openTime
  }

  ghost predicate Within(w: Window, c: A.Candle) {
    w.startTime <= c.openTime < w.endTime
  }

  /** On candles that open one after another a window holds all its own candles and none before them; it holds
      none after them either exactly if the gap behind it is no smaller than its last step. */
  lemma WindowHoldsItsOwn(candles: seq<A.Candle>, w: Window)
    requires TimesOf(w, candles) && w.end - w.warmupStart >= 2 && Rising(candles)
    ensures forall i :: w.warmupStart <= i < w.end ==> Within(w, candles[i])
    ensures forall i :: 0 <= i < w.warmupStart ==> !Within(w, candles[i])
    ensures (forall i :: w.end <= i < |candles| ==> !Within(w, candles[i])) <==>
              w.end == |candles| || candles[w.end].openTime - candles[w.end - 1].openTime
                                     >= candles[w.end - 1].openTime - candles[w.end - 2].openTime
  {
    forall i | w.end <= i < |candles| ensures candles[w.end].openTime <= candles[i].openTime {}
    if w.end < |candles| && forall i :: w.end <= i < |candles| ==> !Within(w, candles[i]) {
      assert !Within(w, candles[w.end]);
    }
  }

  /** On evenly spaced candles a window holds exactly its own. */
  lemma EvenWindowsAreApart(candles: seq<A.Candle>, w: Window, step: Time)
    requires TimesOf(w, candles) && w.end - w.warmupStart >= 2 && step > 0
    requires forall i :: 0 <= i < |candles| ==> candles[i].openTime == candles[0].openTime + i * step
    ensures forall i :: 0 <= i < |candles| ==> (Within(w, candles[i]) <==> w.warmupStart <= i < w.end)
  {
    EvenIsRising(candles, step);
    WindowHoldsItsOwn(candles, w);
    if w.end < |candles| {
      assert w.end * step == (w.end - 1) * step + step && (w.end - 1) * step == (w.end - 2) * step + step;
    }
  }

  lemma EvenIsRising(candles: seq<A.Candle>, step: Time)
    requires step > 0 && forall i :: 0 <= i < |candles| ==> candles[i].openTime == candles[0].openTime + i * step
    ensures Rising(candles)
  {
    forall i, j | 0 <= i < j < |candles| ensures candles[i].openTime < candles[j].openTime {
      StepsGrow(i, j, step);
    }
  }

  lemma StepsGrow(i: nat, j: nat, step: int)
    requires i < j && step > 0
    ensures i * step < j * step
  {}

  /** The candles inside a window's times are those of the series that open within them. */
  lemma {:induction false} InsideAre(candles: seq<A.Candle>, start: Time, end: Time, c: A.Candle)
    ensures c in Inside(candles, start, end) <==> c in candles && start <= c.openTime < end
  {
    if candles != [] {
      InsideAre(candles[..|candles| - 1], start, end, c);
      assert candles == candles[..|candles| - 1] + [candles[|candles| - 1]];
    }
  }

  /** The model's fold sees exactly its main candles that open within the window, which begins with the window's
      first candle: none from before. */
  lemma FoldSeesItsOwn(strategy: Strategy, candles: seq<A.Candle>, w: Window, c: A.Candle)
    requires strategy.Anny? && strategy.main != [] && TimesOf(w, candles) && TimesSet(w.startTime, w.endTime)
    ensures var seen := FoldStrategy(strategy, w);
            && seen.Anny? && seen.qqe == strategy.qqe
            && (c in seen.main <==> c in strategy.main && candles[w.warmupStart].openTime <= c.openTime < w.endTime)
  {
    InsideAre(strategy.main, w.startTime, w.endTime, c);
  }

  // ---------------------------------------------------------------------------
  // The sum of the folds
  // ---------------------------------------------------------------------------

  datatype FoldResult = FoldResult(window: Window, run: Run, maxDrawdown: Decimal)

  datatype Aggregate = Aggregate(
    bars: int, wins: nat, losses: nat, closed: nat, pnl: Decimal, maxDrawdown: Decimal, diagnostics: D.Diagnostics,
    verdict: Campaign.Verdict)

  ghost function TotalCount(folds: seq<FoldResult>, reason: string): nat {
    if folds == [] then 0
    else TotalCount(folds[..|folds| - 1], reason) + D.Count(folds[|folds| - 1].run.diagnostics.blocked, reason)
  }

  ghost function TotalPnl(folds: seq<FoldResult>): real {
    if folds == [] then 0.0 else TotalPnl(folds[..|folds| - 1]) + Val(folds[|folds| - 1].run.pnl)
  }

  /** The deepest of the folds' drawdowns, and zero for none. */
  ghost function DeepestDrawdown(folds: seq<FoldResult>): real {
    if folds == [] then 0.0
    else
      var before, d := DeepestDrawdown(folds[..|folds| - 1]), Val(folds[|folds| - 1].maxDrawdown);
      if d > before then d else before
  }

  datatype Counts = Counts(bars: int, wins: int, losses: int, closed: int, observed: int, setups: int, biasRejected: int)

  ghost function Totals(folds: seq<FoldResult>): Counts {
    if folds == [] then Counts(0, 0, 0, 0, 0, 0, 0)
    else
      var c, f := Totals(folds[..|folds| - 1]), folds[|folds| - 1];
      Counts(c.bars + f.window.end - f.window.testStart, c.wins + f.run.wins, c.losses + f.run.losses, c.closed + f.run.closed,
             c.observed + f.run.diagnostics.observed, c.setups + f.run.diagnostics.setups,
             c.biasRejected + f.run.diagnostics.biasRejected)
  }

  function CountsOf(agg: Aggregate): Counts {
    Counts(agg.bars, agg.wins, agg.losses, agg.closed, agg.diagnostics.observed, agg.diagnostics.setups, agg.diagnostics.biasRejected)
  }

  ghost predicate Sums(folds: seq<FoldResult>, agg: Aggregate) {
    && CountsOf(agg) == Totals(folds)
    && Val(agg.pnl) == TotalPnl(folds) && Val(agg.maxDrawdown) == DeepestDrawdown(folds)
    && D.TopIsRight(agg.diagnostics)
    && forall r :: D.Count(agg.diagnostics.blocked, r) == TotalCount(folds, r)
  }

  /** Adds one fold's counts, visiting its reasons in whatever order the map yields them. */
  method AddBlocks(d: D.Diagnostics, counts: map<string, nat>) returns (e: D.Diagnostics)
    requires D.TopIsRight(d) && forall r :: r in counts ==> D.Named(r) == r
    ensures D.TopIsRight(e) && forall r :: D.Count(e.blocked, r) == D.Count(d.blocked, r) + D.Count(counts, r)
    ensures (e.observed, e.setups, e.biasRejected) == (d.observed, d.setups, d.biasRejected)
  {
    hide D.TopIsRight, D.Named, D.RecordBlock;
    e := d;
    var left := counts.Keys;
    while left != {}
      invariant left <= counts.Keys && D.TopIsRight(e)
      invariant (e.observed, e.setups, e.biasRejected) == (d.observed, d.setups, d.biasRejected)
      invariant forall r :: D.Count(e.blocked, r) == D.Count(d.blocked, r) + (if r in left then 0 else D.Count(counts, r))
    {
      var reason :| reason in left;
      ghost var before := e;
      for i := 0 to counts[reason]
        invariant e == D.RecordTimes(before, reason, i)
      {
        e := D.RecordBlock(e, reason);
      }
      D.TimesAdds(before, reason, counts[reason]);
      left := left - {reason};
    }
  }

  method AggregateWalkForward(goal: Campaign.Goal, folds: seq<FoldResult>) returns (agg: Aggregate)
    requires forall k :: 0 <= k < |folds| ==> D.TopIsRight(folds[k].run.diagnostics)
    ensures Sums(folds, agg) && agg.verdict == Campaign.Evaluate(goal, Campaign.State(agg.pnl, agg.closed))
  {
    hide Val, Add, Cmp, D.TopIsRight, Campaign.Evaluate;
    agg := Aggregate(0, 0, 0, 0, ZERO, ZERO, D.EMPTY, Campaign.Continue);
    ZeroVal();
    EmptyTop();
    for i := 0 to |folds|
      invariant Sums(folds[..i], agg)
    {
      var f := folds[i];
      assert folds[..i + 1][..i] == folds[..i] && folds[..i + 1][i] == f;
      NamesAreStable(f.run.diagnostics);
      AddIsExact(agg.pnl, f.run.pnl);
      CmpIsExact(f.maxDrawdown, agg.maxDrawdown);
      var before := agg.diagnostics.(
        observed := agg.diagnostics.observed + f.run.diagnostics.observed, setups := agg.diagnostics.setups + f.run.diagnostics.setups,
        biasRejected := agg.diagnostics.biasRejected + f.run.diagnostics.biasRejected);
      Th.CountersAside(agg.diagnostics, before);
      var d := AddBlocks(before, f.run.diagnostics.blocked);
      agg := Aggregate(
        agg.bars + f.window.end - f.window.testStart, agg.wins + f.run.wins, agg.losses + f.run.losses, agg.closed + f.run.closed,
        Add(agg.pnl, f.run.pnl), if Cmp(f.maxDrawdown, agg.maxDrawdown) > 0 then f.maxDrawdown else agg.maxDrawdown, d, agg.verdict);
    }
    assert folds[..|folds|] == folds;
    agg := agg.(verdict := Campaign.Evaluate(goal, Campaign.State(agg.pnl, agg.closed)));
  }

  lemma EmptyTop()
    ensures D.TopIsRight(D.EMPTY)
  {}

  lemma NamesAreStable(d: D.Diagnostics)
    requires D.TopIsRight(d)
    ensures forall r :: r in d.blocked ==> D.Named(r) == r
  {}

  /** Whatever order the maps were visited in, the same folds give the same counts and the same top blocker:
      the most frequent reason over all folds, the least one on a tie. */
  lemma TopBlockerIgnoresOrder(folds: seq<FoldResult>, a: Aggregate, b: Aggregate)
    requires Sums(folds, a) && Sums(folds, b)
    ensures a.diagnostics.blocked == b.diagnostics.blocked && a.diagnostics.top == b.diagnostics.top
    ensures forall r :: r in a.diagnostics.blocked ==>
              TotalCount(folds, r) < TotalCount(folds, a.diagnostics.top)
              || (TotalCount(folds, r) == TotalCount(folds, a.diagnostics.top)
                  && (r == a.diagnostics.top || D.Less(a.diagnostics.top, r)))
  {
    hide Val, D.Less, D.Named, TotalCount, Totals, TotalPnl, DeepestDrawdown;
    forall r ensures D.Count(a.diagnostics.blocked, r) == D.Count(b.diagnostics.blocked, r) {
      assert D.Count(a.diagnostics.blocked, r) == TotalCount(folds, r);
    }
    D.SameCounts(a.diagnostics, b.diagnostics);
    forall r | r in a.diagnostics.blocked
      ensures TotalCount(folds, r) == a.diagnostics.blocked[r] && TotalCount(folds, a.diagnostics.top) == a.diagnostics.topCount
    {
      assert D.Count(a.diagnostics.blocked, r) == TotalCount(folds, r);
      assert D.Count(a.diagnostics.blocked, a.diagnostics.top) == TotalCount(folds, a.diagnostics.top);
    }
  }

  // ---------------------------------------------------------------------------
  // The whole validation
  // ---------------------------------------------------------------------------

  ghost predicate WindowOk(w: Window, bars: nat) {
    w.warmupStart <= w.testStart <= w.end <= bars
  }

  lemma FoldTop(p: Setup, block: seq<A.Candle>)
    requires Sound(p)
    ensures D.TopIsRight(Th.FinalRun(p, block).diagnostics)
  {
    hide Th.FinalRun, D.TopIsRight;
    Th.Accounting(p, block);
  }

  /** A block with one test bar is one candle short of what a paper run asks for. */
  lemma OneTestBarFails(goal: Campaign.Goal, cfg: Config, strategy: Strategy, candles: seq<A.Candle>, foldCount: int)
    requires Splittable(candles, cfg.warmupBars, foldCount, 1)
    ensures var windows := Windows(candles, cfg.warmupBars, foldCount, 1);
            windows != [] && WindowOk(windows[0], |candles|) && Fold(goal, cfg, strategy, candles, windows[0]) == None
  {
    hide Th.FinalRun, FloatOf;
    var warmup := OrInt(cfg.warmupBars, 30);
    var w := NewWindow(1, 0, warmup, warmup + 1, candles);
    assert BarWindows(candles, warmup, 1, 0, 1)[0] == w;
  }

  /** The windows of the split, each of which can run. */
  ghost predicate AllRun(goal: Campaign.Goal, cfg: Config, strategy: Strategy, candles: seq<A.Candle>, windows: seq<Window>) {
    forall k :: 0 <= k < |windows| ==> WindowOk(windows[k], |candles|) && Fold(goal, cfg, strategy, candles, windows[k]).Some?
  }

  /** Fold k is the independent paper run of window k. */
  ghost predicate FoldOk(goal: Campaign.Goal, cfg: Config, strategy: Strategy, candles: seq<A.Candle>, w: Window, f: FoldResult) {
    && f.window == w && WindowOk(w, |candles|) && Fold(goal, cfg, strategy, candles, w) == Some(f.run)
    && IsMaxDrawdown(f.run.trades, Val(f.maxDrawdown))
  }

  /** A window with its warmup, at least so many test bars, and its own times. */
  ghost predicate Roomy(w: Window, warmup: nat, least: nat, candles: seq<A.Candle>) {
    w.testStart == w.warmupStart + warmup && w.testStart + least <= w.end <= |candles| && TimesOf(w, candles)
  }

  /** Test bars every window has: two, unless single ones were asked for. */
  function LeastBars(foldBars: int): nat {
    if foldBars == 1 then 1 else 2
  }

  lemma {:induction false} BarWindowsRoomy(candles: seq<A.Candle>, warmup: nat, bars: nat, start: nat, index: nat)
    requires bars >= 1
    ensures forall k :: 0 <= k < |BarWindows(candles, warmup, bars, start, index)| ==>
              Roomy(BarWindows(candles, warmup, bars, start, index)[k], warmup, LeastBars(bars), candles)
    decreases |candles| - start
  {
    if start + warmup + 2 <= |candles| {
      var end := if start + warmup + bars > |candles| then |candles| else start + warmup + bars;
      WindowSize(index, start, warmup, end, candles);
      hide NewWindow, TimesOf;
      BarWindowsRoomy(candles, warmup, bars, end, index + 1);
    }
  }

  lemma {:induction false} CountWindowsRoomy(candles: seq<A.Candle>, warmup: nat, count: nat, i: nat)
    requires 0 < count <= |candles| && i <= count && |candles| >= count * (warmup + 2)
    ensures |CountWindows(candles, warmup, count, i)| == i
    ensures forall k :: 0 <= k < i ==> Roomy(CountWindows(candles, warmup, count, i)[k], warmup, 2, candles)
  {
    if i > 0 {
      hide NewWindow, BlockStart, TimesOf;
      NextBlock(|candles|, count, i - 1);
      BlocksMove(|candles|, count);
      BlockIsBigEnough(|candles|, count, warmup + 2);
      var start, end := BlockStart(|candles|, count, i - 1), BlockStart(|candles|, count, i);
      WindowSize(i, start, warmup, end, candles);
      CountWindowsRoomy(candles, warmup, count, i - 1);
    }
  }

  /** Every split has windows, each with its times and, unless single test bars were asked for, with two. */
  lemma WindowsAreRoomy(candles: seq<A.Candle>, warmupBars: int, foldCount: int, foldBars: int)
    requires Splittable(candles, warmupBars, foldCount, foldBars)
    ensures var windows := Windows(candles, warmupBars, foldCount, foldBars);
            && windows != []
            && forall k :: 0 <= k < |windows| ==> Roomy(windows[k], OrInt(warmupBars, 30), LeastBars(foldBars), candles)
  {
    hide NewWindow, CountWindows, Roomy;
    var warmup, count := OrInt(warmupBars, 30), OrInt(foldCount, DEFAULT_FOLDS);
    if foldBars <= 0 {
      ManyCandles(|candles|, count, warmup);
      CountWindowsRoomy(candles, warmup, count, count);
    } else {
      BarWindowsRoomy(candles, warmup, foldBars, 0, 1);
    }
  }

  /** The model has main candles in every window; other strategies need none. */
  predicate SeesEvery(strategy: Strategy, windows: seq<Window>) {
    strategy.Anny? ==>
      strategy.main != [] && forall k :: 0 <= k < |windows| ==> Filtered(strategy.main, windows[k].startTime, windows[k].endTime) != []
  }

  lemma RoomyRuns(goal: Campaign.Goal, cfg: Config, strategy: Strategy, candles: seq<A.Candle>, w: Window, warmup: nat)
    requires warmup > 0 && Roomy(w, warmup, 2, candles)
    ensures WindowOk(w, |candles|)
    ensures Fold(goal, cfg, strategy, candles, w).Some? <==> !(FoldStrategy(strategy, w).Anny? && FoldStrategy(strategy, w).main == [])
  {
    hide Th.FinalRun, FloatOf, FoldStrategy;
  }

  /** Every fold runs exactly when there is more than one test bar and the model sees its main candles. */
  lemma AllRunExactly(goal: Campaign.Goal, cfg: Config, strategy: Strategy, candles: seq<A.Candle>, foldCount: int, foldBars: int)
    requires Splittable(candles, cfg.warmupBars, foldCount, foldBars)
    ensures var windows := Windows(candles, cfg.warmupBars, foldCount, foldBars);
            AllRun(goal, cfg, strategy, candles, windows) <==> foldBars != 1 && SeesEvery(strategy, windows)
  {
    hide Windows, Splittable, Fold, Filtered, Roomy;
    var windows := Windows(candles, cfg.warmupBars, foldCount, foldBars);
    WindowsAreRoomy(candles, cfg.warmupBars, foldCount, foldBars);
    if foldBars == 1 {
      OneTestBarFails(goal, cfg, strategy, candles, foldCount);
    } else {
      forall k | 0 <= k < |windows|
        ensures WindowOk(windows[k], |candles|)
        ensures Fold(goal, cfg, strategy, candles, windows[k]).Some? <==>
                  (strategy.Anny? ==> strategy.main != [] && Filtered(strategy.main, windows[k].startTime, windows[k].endTime) != [])
      {
        RoomyRuns(goal, cfg, strategy, candles, windows[k], OrInt(cfg.warmupBars, 30));
      }
      if strategy.Anny? && strategy.main == [] {
        assert Fold(goal, cfg, strategy, candles, windows[0]).None?;
      }
    }
  }

  /** One fold: a paper run over its block, the model seeing only the main candles of its window. */
  method RunFold(goal: Campaign.Goal, cfg: Config, strategy: Strategy, candles: seq<A.Candle>, w: Window) returns (f: Result<FoldResult>)
    requires WindowOk(w, |candles|)
    ensures f.Ok? <==> Fold(goal, cfg, strategy, candles, w).Some?
    ensures f.Ok? ==> FoldOk(goal, cfg, strategy, candles, w, f.value) && D.TopIsRight(f.value.run.diagnostics)
  {
    hide Val, Th.FinalRun, D.TopIsRight, WithDefaults, FloatOf, Filtered, IsMaxDrawdown, Campaign.Evaluate, Fold, FoldOk, FoldStrategy,
         FoldConfig;
    var inner := strategy;
    if strategy.Anny? && |strategy.main| > 0 {
      var main := FilterCandlesByTime(strategy.main, w.startTime, w.endTime);
      inner := Anny(strategy.qqe, main);
      FilteredIs(strategy.main, w.startTime, w.endTime);
    }
    StrategyIs(strategy, w);
    var block := candles[w.warmupStart..w.end];
    var r := RunPaper(goal, FoldConfig(cfg, w), inner, block);
    FoldIs(goal, cfg, strategy, candles, w, inner, block);
    if r.Err? {
      return Err(r.message);
    }
    SoundSetup(goal, FoldConfig(cfg, w), inner);
    FinalIs(SetupOf(goal, FoldConfig(cfg, w), inner), block);
    FoldTop(SetupOf(goal, FoldConfig(cfg, w), inner), block);
    FoldIsOk(goal, cfg, strategy, candles, w, FoldResult(w, r.value.run, r.value.maxDrawdown));
    return Ok(FoldResult(w, r.value.run, r.value.maxDrawdown));
  }

  lemma SplitIsOk(candles: seq<A.Candle>, warmupBars: int, foldCount: int, foldBars: int)
    requires Splittable(candles, warmupBars, foldCount, foldBars)
    ensures var windows := Windows(candles, warmupBars, foldCount, foldBars);
            forall k :: 0 <= k < |windows| ==> WindowOk(windows[k], |candles|)
  {
    hide NewWindow, CountWindows, Windows, TimesOf;
    WindowsAreRoomy(candles, warmupBars, foldCount, foldBars);
  }

  /** Every trade of a fold is entered on a test bar of its window, at that candle's close, and ends within it. */
  lemma FoldTradesInTest(goal: Campaign.Goal, cfg: Config, strategy: Strategy, candles: seq<A.Candle>, w: Window, f: FoldResult, k: nat)
    requires FoldOk(goal, cfg, strategy, candles, w, f) && w.warmupStart < w.testStart && k < |f.run.trades|
    ensures var t := f.run.trades[k];
            && w.testStart <= w.warmupStart + t.entryIndex < w.warmupStart + t.exitIndex < w.end
            && t.entryPrice == candles[w.warmupStart + t.entryIndex].close
  {
    hide WithDefaults, FloatOf, FoldStrategy, Th.FinalRun, Val, IsMaxDrawdown, Campaign.Evaluate, Th.Enters, Th.BracketIs, Th.ExitIs,
         Th.ResultIs, Th.NoneMissed, D.TopIsRight, Th.WorstTrade;
    var inner := FoldStrategy(strategy, w);
    var p, block := SetupOf(goal, FoldConfig(cfg, w), inner), candles[w.warmupStart..w.end];
    SoundSetup(goal, FoldConfig(cfg, w), inner);
    FoldIs(goal, cfg, strategy, candles, w, inner, block);
    Th.Accounting(p, block);
    assert Th.TradeOk(p, block, f.run.trades, k);
  }

  /** One independent run per window of the split, in order, and their sum. It succeeds exactly when the candles
      can be split, there is more than one test bar, and the model has main candles in every window. */
  method RunPaperWalkForward(goal: Campaign.Goal, cfg: Config, strategy: Strategy, candles: seq<A.Candle>, foldCount: int, foldBars: int)
    returns (folds: Result<seq<FoldResult>>, agg: Aggregate)
    ensures folds.Ok? <==>
              && Splittable(candles, cfg.warmupBars, foldCount, foldBars) && foldBars != 1
              && SeesEvery(strategy, Windows(candles, cfg.warmupBars, foldCount, foldBars))
    ensures folds.Ok? ==>
              var windows := Windows(candles, cfg.warmupBars, foldCount, foldBars);
              && |folds.value| == |windows|
              && (forall k :: 0 <= k < |windows| ==> FoldOk(goal, cfg, strategy, candles, windows[k], folds.value[k]))
              && Sums(folds.value, agg) && agg.verdict == Campaign.Evaluate(goal, Campaign.State(agg.pnl, agg.closed))
  {
    hide Val, Tiles, FullBlocks, SizesDifferByOne, D.TopIsRight, Sums, Campaign.Evaluate, Windows, Splittable, Fold, FoldOk, SeesEvery;
    agg := Aggregate(0, 0, 0, 0, ZERO, ZERO, D.EMPTY, Campaign.Continue);
    var split := SplitWalkForwardFolds(candles, cfg.warmupBars, foldCount, foldBars);
    if split.Err? {
      return Err(split.message), agg;
    }
    var windows := split.value;
    SplitIsOk(candles, cfg.warmupBars, foldCount, foldBars);
    AllRunExactly(goal, cfg, strategy, candles, foldCount, foldBars);
    var results: seq<FoldResult> := [];
    for i := 0 to |windows|
      invariant |results| == i
      invariant forall k :: 0 <= k < i ==> D.TopIsRight(results[k].run.diagnostics)
      invariant forall k :: 0 <= k < i ==> FoldOk(goal, cfg, strategy, candles, windows[k], results[k])
      invariant forall k :: 0 <= k < i ==> Fold(goal, cfg, strategy, candles, windows[k]).Some?
    {
      var f := RunFold(goal, cfg, strategy, candles, windows[i]);
      if f.Err? {
        return Err(f.message), agg;
      }
      results := results + [f.value];
    }
    agg := AggregateWalkForward(goal, results);
    folds := Ok(results);
  }

  lemma StrategyIs(strategy: Strategy, w: Window)
    ensures FoldStrategy(strategy, w)
         == if strategy.Anny? && |strategy.main| > 0 then Anny(strategy.qqe, Filtered(strategy.main, w.startTime, w.endTime)) else strategy
  {}

  lemma FoldIsOk(goal: Campaign.Goal, cfg: Config, strategy: Strategy, candles: seq<A.Candle>, w: Window, f: FoldResult)
    requires WindowOk(w, |candles|) && f.window == w && Fold(goal, cfg, strategy, candles, w) == Some(f.run)
    requires IsMaxDrawdown(f.run.trades, Val(f.maxDrawdown))
    ensures FoldOk(goal, cfg, strategy, candles, w, f)
  {}

  lemma FoldIs(goal: Campaign.Goal, cfg: Config, strategy: Strategy, candles: seq<A.Candle>, w: Window, inner: Strategy, block: seq<A.Candle>)
    requires WindowOk(w, |candles|) && inner == FoldStrategy(strategy, w) && block == candles[w.warmupStart..w.end]
    ensures var p := SetupOf(goal, FoldConfig(cfg, w), inner);
            Sound(p) && Fold(goal, cfg, strategy, candles, w) == if Runnable(p, block) then Some(Th.FinalRun(p, block)) else None
  {
    SoundSetup(goal, FoldConfig(cfg, w), inner);
  }

  lemma FilteredIs(candles: seq<A.Candle>, start: Time, end: Time)
    ensures Filtered(candles, start, end) == if TimesSet(start, end) then Inside(candles, start, end) else candles
  {}

  lemma SoundSetup(goal: Campaign.Goal, cfg: Config, strategy: Strategy)
    ensures Sound(SetupOf(goal, cfg, strategy))
  {}

  lemma FinalIs(p: Setup, candles: seq<A.Candle>)
    requires Sound(p)
    ensures Th.FinalRun(p, candles) == Finished(p, RunFrom(p, candles, Begin(p.cfg, |candles|)))
  {}
}
