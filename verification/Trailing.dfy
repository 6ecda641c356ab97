/** When a trailing stop moves, and where to. Prices are exact decimals; their meaning is stated on
    reals. */
module Trailing {
  import opened Decimals
  import opened Rationals

  datatype Side = Long | Short | Neither

  datatype TrailPolicy = TrailPolicy(activatePct: Decimal, trailGapPct: Decimal)

  predicate Valid(policy: TrailPolicy) {
    IsPositive(policy.activatePct) && IsPositive(policy.trailGapPct)
  }

  function PercentOf(value: Decimal, pct: Decimal): Decimal {
    match QuoFloor(Mul(value, pct), FromInt(100), 8)
    case Ok(d) => d
    case Err(_) => ZERO
  }

  /** The stop to keep, and whether it changed. */
  function ComputeStop(side: Side, entry: Decimal, currentStop: Decimal, mark: Decimal, policy: TrailPolicy): (Decimal, bool) {
    if !Valid(policy) then (currentStop, false)
    else
      var activate, gap := PercentOf(entry, policy.activatePct), PercentOf(entry, policy.trailGapPct);
      match side
      case Long =>
        if Cmp(Sub(mark, entry), activate) < 0 then (currentStop, false)
        else
          var trailed := Sub(mark, gap);
          var candidate := if Cmp(trailed, entry) < 0 then entry else trailed;
          if Cmp(candidate, currentStop) > 0 then (candidate, true) else (currentStop, false)
      case Short =>
        if Cmp(Sub(entry, mark), activate) < 0 then (currentStop, false)
        else
          var trailed := Add(mark, gap);
          var candidate := if Cmp(trailed, entry) > 0 then entry else trailed;
          if Cmp(candidate, currentStop) < 0 then (candidate, true) else (currentStop, false)
      case Neither => (currentStop, false)
  }

  // ---------------------------------------------------------------------------
  // On reals
  // ---------------------------------------------------------------------------

  /** Strictly closer to the market. */
  ghost predicate Tighter(side: Side, a: real, b: real) {
    match side
    case Long => a > b
    case Short => a < b
    case Neither => false
  }

  ghost predicate AtLeastAsTight(side: Side, a: real, b: real) {
    a == b || Tighter(side, a, b)
  }

  ghost function Percent(value: real, pct: real): real {
    Truncated(Over(value * pct, 100.0), 8)
  }

  ghost predicate Active(side: Side, entry: real, mark: real, activate: real) {
    match side
    case Long => mark - entry >= activate
    case Short => entry - mark >= activate
    case Neither => false
  }

  /** A gap behind the mark, but not beyond the entry. */
  ghost function Candidate(side: Side, entry: real, mark: real, gap: real): real {
    match side
    case Long => if mark - gap < entry then entry else mark - gap
    case Short => if mark + gap > entry then entry else mark + gap
    case Neither => mark
  }

  lemma PercentOfIsPercent(value: Decimal, pct: Decimal)
    ensures Val(PercentOf(value, pct)) == Percent(Val(value), Val(pct))
  {
    hide Val, Mul, Truncated, QuoFloor;
    MulIsExact(value, pct);
    assert Val(FromInt(100)) == 100.0 by { HundredIs(); }
    QuoFloorTruncates(Mul(value, pct), FromInt(100), 8);
  }

  lemma HundredIs()
    ensures Val(FromInt(100)) == 100.0
  {
    RatioIs(100, 1, 100.0);
  }

  /** The stop moves exactly when the trail is active and its candidate is tighter than the current
      stop; it moves to the candidate. */
  lemma ComputeStopMeaning(side: Side, entry: Decimal, currentStop: Decimal, mark: Decimal, policy: TrailPolicy)
    ensures var e, m, now := Val(entry), Val(mark), Val(currentStop);
            var candidate := Candidate(side, e, m, Percent(e, Val(policy.trailGapPct)));
            var (stop, moved) := ComputeStop(side, entry, currentStop, mark, policy);
            && (moved <==> Valid(policy) && Active(side, e, m, Percent(e, Val(policy.activatePct))) && Tighter(side, candidate, now))
            && (Val(stop) == if moved then candidate else now)
            && (!moved ==> stop == currentStop)
  {
    hide Val, Sub, Add, Cmp, PercentOf, Percent, IsPositive;
    var activate, gap := PercentOf(entry, policy.activatePct), PercentOf(entry, policy.trailGapPct);
    PercentOfIsPercent(entry, policy.activatePct);
    PercentOfIsPercent(entry, policy.trailGapPct);
    AddIsExact(mark, entry);
    AddIsExact(entry, mark);
    AddIsExact(mark, gap);
    CmpIsExact(Sub(mark, entry), activate);
    CmpIsExact(Sub(entry, mark), activate);
    CmpIsExact(Sub(mark, gap), entry);
    CmpIsExact(Add(mark, gap), entry);
    CmpIsExact(Sub(mark, gap), currentStop);
    CmpIsExact(Add(mark, gap), currentStop);
    CmpIsExact(entry, currentStop);
  }

  lemma PercentSign(value: real, pct: real)
    requires value >= 0.0 && pct > 0.0
    ensures 0.0 <= Percent(value, pct) <= Over(value * pct, 100.0)
  {
    hide Truncated;
    var x := Over(value * pct, 100.0);
    ProductSign(value, pct);
    assert x * 100.0 == value * pct;
    TruncatedBounds(x, 8);
  }

  // ---------------------------------------------------------------------------
  // After rounding to the tick
  // ---------------------------------------------------------------------------

  /** A move from a tick-aligned stop never loosens it, though the candidate is rounded down. */
  lemma MoveNeverLoosens(side: Side, candidate: real, current: real, tick: real)
    requires tick > 0.0 && Tighter(side, candidate, current)
    requires side == Long ==> IsMultiple(current, tick)
    ensures AtLeastAsTight(side, StepFloor(candidate, tick), current)
  {
    hide StepFloor, IsMultiple;
    StepFloorBounds(candidate, tick);
    if side == Long {
      StepFloorIsGreatest(candidate, tick, current);
    }
  }

  /** Alignment is exactly what a long needs: a stop between ticks can be loosened by a tighter candidate. */
  lemma LongNeedsAlignment(current: real, tick: real)
    requires tick > 0.0
    ensures IsMultiple(current, tick) <==> forall candidate :: candidate > current ==> StepFloor(candidate, tick) >= current
  {
    hide StepFloor, IsMultiple;
    if IsMultiple(current, tick) {
      forall candidate | candidate > current ensures StepFloor(candidate, tick) >= current {
        StepFloorIsGreatest(candidate, tick, current);
      }
    } else {
      StepFloorOfMultiple(current, tick);
      StepFloorBounds(current, tick);
      var candidate := (current + StepFloor(current, tick) + tick) / 2.0;
      BetweenTicks(candidate, current, tick);
      assert candidate > current && StepFloor(candidate, tick) < current;
    }
  }

  lemma BetweenTicks(x: real, y: real, tick: real)
    requires tick > 0.0 && StepFloor(y, tick) <= x < StepFloor(y, tick) + tick
    ensures StepFloor(x, tick) == StepFloor(y, tick)
  {
    var k, q := Over(y, tick).Floor, Over(x, tick);
    assert StepFloor(y, tick) == Times(k, tick);
    hide StepFloor;
    TimesAgainst(q, x, k, tick);
    TimesNext(k, tick);
    TimesAgainst(q, x, k + 1, tick);
    assert q.Floor == k;
    FloorIs(x, tick, k);
  }

  lemma FloorIs(x: real, tick: real, k: int)
    requires tick > 0.0 && Over(x, tick).Floor == k
    ensures StepFloor(x, tick) == Times(k, tick)
  {}

  /** A long's moved stop is above entry less one tick and never above the mark; it protects the entry
      price itself exactly when the entry is on a tick or the trail has passed the next one. */
  lemma LongBreakEven(entry: real, mark: real, activate: real, gap: real, tick: real)
    requires tick > 0.0 && activate >= 0.0 && gap >= 0.0 && Active(Long, entry, mark, activate)
    ensures var stop := StepFloor(Candidate(Long, entry, mark, gap), tick);
            && entry - tick < stop <= mark
            && (stop >= entry <==> IsMultiple(entry, tick) || mark - gap >= StepFloor(entry, tick) + tick)
  {
    hide StepFloor, IsMultiple;
    var candidate := Candidate(Long, entry, mark, gap);
    var stop := StepFloor(candidate, tick);
    StepFloorBounds(candidate, tick);
    StepFloorBounds(entry, tick);
    StepFloorOfMultiple(entry, tick);
    if IsMultiple(entry, tick) {
      StepFloorIsGreatest(candidate, tick, entry);
    } else if mark - gap >= StepFloor(entry, tick) + tick {
      NextTick(entry, tick);
      StepFloorIsGreatest(candidate, tick, StepFloor(entry, tick) + tick);
    } else {
      BetweenTicks(candidate, entry, tick);
    }
  }

  lemma NextTick(x: real, tick: real)
    requires tick > 0.0
    ensures IsMultiple(StepFloor(x, tick) + tick, tick)
  {
    var k := Over(x, tick).Floor;
    assert StepFloor(x, tick) == Times(k, tick);
    TimesNext(k, tick);
    assert Times(k + 1, tick) == StepFloor(x, tick) + tick;
  }

  /** A short's moved stop is at or below entry, and above the mark less one tick. */
  lemma ShortBreakEven(entry: real, mark: real, activate: real, gap: real, tick: real)
    requires tick > 0.0 && activate >= 0.0 && gap >= 0.0 && Active(Short, entry, mark, activate)
    ensures mark - tick < StepFloor(Candidate(Short, entry, mark, gap), tick) <= entry
  {
    hide StepFloor;
    StepFloorBounds(Candidate(Short, entry, mark, gap), tick);
  }

  const ODD_ENTRY := Decimal(1005, 1)
  const ODD_MARK := Decimal(102, 0)
  const ONE_AND_TWO := TrailPolicy(Decimal(1, 0), Decimal(2, 0))

  lemma OddValues()
    ensures Val(ODD_ENTRY) == 100.5 && Val(ODD_MARK) == 102.0 && Val(Decimal(90, 0)) == 90.0
    ensures Val(ONE_AND_TWO.activatePct) == 1.0 && Val(ONE_AND_TWO.trailGapPct) == 2.0 && Valid(ONE_AND_TWO)
  {
    assert Pow10(1) == 10 && Pow10(0) == 1;
    RatioIs(1005, 10, 100.5);
    RatioIs(90, 1, 90.0);
    RatioIs(102, 1, 102.0);
    RatioIs(1, 1, 1.0);
    RatioIs(2, 1, 2.0);
    CmpIsExact(ONE_AND_TWO.activatePct, ZERO);
    CmpIsExact(ONE_AND_TWO.trailGapPct, ZERO);
  }

  lemma OddTrail()
    ensures Percent(100.5, 1.0) <= 1.5 < Percent(100.5, 2.0)
    ensures StepFloor(100.5, 1.0) == 100.0
  {
    hide Truncated, StepFloor;
    PercentSign(100.5, 1.0);
    OverIs(100.5 * 1.0, 100.0, 1.005);
    GapBounds();
    OverIs(100.5, 1.0, 100.5);
    FloorIs(100.5, 1.0, 100);
    assert Times(100, 1.0) == 100.0;
  }

  /** The promise that an active trail cannot turn a winner into a loss fails by less than a tick: entry
      100.5, mark 102, tick 1, trail 1 % / 2 %. The stop goes to 100. */
  lemma LongCanEndBelowEntry()
    ensures var (stop, moved) := ComputeStop(Long, ODD_ENTRY, Decimal(90, 0), ODD_MARK, ONE_AND_TWO);
            moved && Val(stop) == 100.5 && StepFloor(Val(stop), 1.0) == 100.0 && Val(ODD_ENTRY) == 100.5
  {
    hide Val, Percent, ComputeStop, StepFloor, Valid, Pow10;
    OddValues();
    OddTrail();
    ComputeStopMeaning(Long, ODD_ENTRY, Decimal(90, 0), ODD_MARK, ONE_AND_TWO);
  }

  lemma GapBounds()
    ensures Percent(100.5, 2.0) > 1.5
  {
    OverIs(100.5 * 2.0, 100.0, 2.01);
    hide Truncated;
    TruncatedBounds(2.01, 8);
    assert Pow10(8) == 10 * Pow10(7) && Pow10(7) >= 1;
    SmallUnit(Pow10(8));
  }

  lemma SmallUnit(p: int)
    requires p >= 10
    ensures Ratio(1, p) <= 0.1
  {
    var r := Ratio(1, p);
    if r > 0.1 {
      ProductOrder(0.1, r, p as real);
    }
  }

  // ---------------------------------------------------------------------------
  // A whole sequence of marks
  // ---------------------------------------------------------------------------

  datatype Position = Position(side: Side, entry: real, activate: real, gap: real, tick: real)

  /** Where one mark would put the stop. */
  ghost function Level(p: Position, mark: real): real
    requires p.tick > 0.0
  {
    StepFloor(Candidate(p.side, p.entry, mark, p.gap), p.tick)
  }

  /** The stop after one tick on which every call succeeds. */
  ghost function NextStop(p: Position, stop: real, mark: real): real
    requires p.tick > 0.0
  {
    if Active(p.side, p.entry, mark, p.activate) && Tighter(p.side, Candidate(p.side, p.entry, mark, p.gap), stop)
    then Level(p, mark) else stop
  }

  ghost function Online(p: Position, stop: real, marks: seq<real>): real
    requires p.tick > 0.0
  {
    if marks == [] then stop else NextStop(p, Online(p, stop, marks[..|marks| - 1]), marks[|marks| - 1])
  }

  /** r is the tightest among the first stop and the levels of all activated marks. */
  ghost predicate IsTightest(p: Position, stop: real, marks: seq<real>, r: real)
    requires p.tick > 0.0
  {
    && (r == stop || exists i :: 0 <= i < |marks| && Active(p.side, p.entry, marks[i], p.activate) && r == Level(p, marks[i]))
    && AtLeastAsTight(p.side, r, stop)
    && forall i :: 0 <= i < |marks| && Active(p.side, p.entry, marks[i], p.activate) ==> AtLeastAsTight(p.side, r, Level(p, marks[i]))
  }

  /** The ratchet, one mark at a time, reaches the maximum (long) or minimum (short) of the first stop
      and all activated levels. */
  lemma {:induction false} OnlineIsBatch(p: Position, stop: real, marks: seq<real>)
    requires p.tick > 0.0 && IsMultiple(stop, p.tick)
    ensures IsTightest(p, stop, marks, Online(p, stop, marks)) && IsMultiple(Online(p, stop, marks), p.tick)
  {
    hide StepFloor, IsMultiple, Candidate;
    if marks != [] {
      var before, mark := marks[..|marks| - 1], marks[|marks| - 1];
      OnlineIsBatch(p, stop, before);
      var was := Online(p, stop, before);
      var r := NextStop(p, was, mark);
      var candidate := Candidate(p.side, p.entry, mark, p.gap);
      StepFloorBounds(candidate, p.tick);
      if Active(p.side, p.entry, mark, p.activate) {
        if Tighter(p.side, candidate, was) {
          MoveNeverLoosens(p.side, candidate, was, p.tick);
        } else {
          LooserCandidate(p.side, candidate, was, p.tick);
        }
      }
      Extends(p, stop, before, mark, was, r);
      assert marks == before + [mark];
    }
  }

  /** A candidate that is not tighter than an aligned stop is not tighter after rounding either. */
  lemma LooserCandidate(side: Side, candidate: real, stop: real, tick: real)
    requires tick > 0.0 && IsMultiple(stop, tick) && side != Neither && !Tighter(side, candidate, stop)
    ensures AtLeastAsTight(side, stop, StepFloor(candidate, tick))
  {
    hide StepFloor, IsMultiple;
    StepFloorBounds(candidate, tick);
    if side == Short {
      StepFloorIsGreatest(candidate, tick, stop);
    }
  }

  lemma Extends(p: Position, stop: real, marks: seq<real>, mark: real, was: real, r: real)
    requires p.tick > 0.0 && IsTightest(p, stop, marks, was)
    requires r == was || (Active(p.side, p.entry, mark, p.activate) && r == Level(p, mark))
    requires AtLeastAsTight(p.side, r, was)
    requires Active(p.side, p.entry, mark, p.activate) ==> AtLeastAsTight(p.side, r, Level(p, mark))
    ensures IsTightest(p, stop, marks + [mark], r)
  {
    hide Level;
    var all := marks + [mark];
    assert all[|marks|] == mark;
    if r == was && r != stop {
      var i :| 0 <= i < |marks| && Active(p.side, p.entry, marks[i], p.activate) && was == Level(p, marks[i]);
      assert all[i] == marks[i];
    }
    forall i | 0 <= i < |all| && Active(p.side, p.entry, all[i], p.activate)
      ensures AtLeastAsTight(p.side, r, Level(p, all[i]))
    {
      if i < |marks| {
        assert all[i] == marks[i];
      }
    }
  }
}
