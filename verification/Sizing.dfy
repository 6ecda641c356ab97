/** From a requested size to an order quantity on the exchange's step. */
module Sizing {
  import opened Decimals
  import opened Rationals

  datatype Size = Qty(amount: Decimal) | Usdt(amount: Decimal) | PercentOfPosition(amount: Decimal)

  function OpenQuantity(size: Size, entry: Decimal, step: Decimal): Result<Decimal> {
    match size
    case Qty(amount) => FloorToStep(amount, step)
    case Usdt(amount) =>
      (match QuoFloor(amount, entry, 16)
       case Ok(quantity) => FloorToStep(quantity, step)
       case Err(e) => Err(e))
    case PercentOfPosition(_) => Err("open size must be size USDT or qty")
  }

  /** A multiple of a multiple is a multiple. */
  lemma MultipleOfMultiple(x: real, step: real, unit: real)
    requires IsMultiple(x, step) && IsMultiple(step, unit)
    ensures IsMultiple(x, unit)
  {
    var j: int :| Times(j, step) == x;
    var k: int :| Times(k, unit) == step;
    CastProduct(j, k);
    Associate(j as real, k as real, unit);
    assert Times(j * k, unit) == x;
  }

  /** Flooring first to sixteen decimals and then to a coarser step is flooring to the step. */
  lemma CutThenFloor(x: real, step: real)
    requires x >= 0.0 && step > 0.0 && IsMultiple(step, Ratio(1, Pow10(16)))
    ensures StepFloor(Truncated(x, 16), step) == StepFloor(x, step)
  {
    hide Truncated, Pow10, Ratio, StepFloor, IsMultiple;
    var cut := Truncated(x, 16);
    TruncatedBounds(x, 16);
    StepFloorBounds(x, step);
    StepFloorBounds(cut, step);
    MultipleOfMultiple(StepFloor(x, step), step, Ratio(1, Pow10(16)));
    TruncatedIsGreatest(x, 16, StepFloor(x, step));
    StepFloorIsGreatest(cut, step, StepFloor(x, step));
    StepFloorIsGreatest(x, step, StepFloor(cut, step));
  }

  /** A size in USDT buys the largest step-sized quantity it can pay for at the entry price. */
  lemma UsdtSizing(amount: Decimal, entry: Decimal, step: Decimal)
    requires Val(amount) >= 0.0 && Val(entry) > 0.0 && Val(step) > 0.0
    requires IsMultiple(Val(step), Ratio(1, Pow10(16)))
    ensures OpenQuantity(Usdt(amount), entry, step).Ok?
    ensures var q := Val(OpenQuantity(Usdt(amount), entry, step).value);
            q * Val(entry) <= Val(amount) < (q + Val(step)) * Val(entry) && IsMultiple(q, Val(step)) && q >= 0.0
  {
    hide Val, QuoFloor, FloorToStep, Truncated, Pow10, Ratio, StepFloor, IsMultiple;
    var x := Over(Val(amount), Val(entry));
    QuoFloorTruncates(amount, entry, 16);
    ProductSign(x, Val(entry));
    TruncatedBounds(x, 16);
    FloorToStepIsStepFloor(QuoFloor(amount, entry, 16).value, step);
    CutThenFloor(x, Val(step));
    StepFloorBounds(x, Val(step));
    var q := StepFloor(x, Val(step));
    ProductMonotone(q, x, Val(entry));
    ProductOrder(x, q + Val(step), Val(entry));
  }

  /** A size in units keeps the largest step-sized quantity not above it. */
  lemma QtySizing(amount: Decimal, entry: Decimal, step: Decimal)
    ensures var r := OpenQuantity(Qty(amount), entry, step);
            && (r.Ok? <==> Val(step) > 0.0 && Val(amount) >= 0.0)
            && (r.Ok? ==> Val(r.value) <= Val(amount) < Val(r.value) + Val(step) && IsMultiple(Val(r.value), Val(step)))
  {
    hide Val, FloorToStep, StepFloor, IsMultiple;
    FloorToStepIsStepFloor(amount, step);
    if Val(step) > 0.0 {
      StepFloorBounds(Val(amount), Val(step));
    }
  }

  /** A USDT size has no quantity exactly when the entry is zero, the step is not positive, or the
      quotient is negative after cutting. */
  lemma UsdtFails(amount: Decimal, entry: Decimal, step: Decimal)
    ensures OpenQuantity(Usdt(amount), entry, step).Err? <==>
              Val(entry) == 0.0 || Val(step) <= 0.0 || Truncated(Over(Val(amount), Val(entry)), 16) < 0.0
  {
    hide Val, QuoFloor, FloorToStep, Truncated;
    QuoFloorTruncates(amount, entry, 16);
    if Val(entry) != 0.0 {
      FloorToStepIsStepFloor(QuoFloor(amount, entry, 16).value, step);
    }
  }
}
