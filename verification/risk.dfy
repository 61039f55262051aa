/** Position sizing and tick rounding (aura/core/risk.py). Decimals are exact reals. */
module Risk {
  import opened Wrappers

  datatype Rounding = Down | Up | HalfUp

  /** Decimal rounding of a magnitude: `Down` and `Up` are towards and away from zero. */
  function RoundMagnitude(x: real, mode: Rounding): int
    requires x >= 0.0
  {
    match mode
    case Down => x.Floor
    case Up => if x == x.Floor as real then x.Floor else x.Floor + 1
    case HalfUp => (x + 0.5).Floor
  }

  function RoundToInt(x: real, mode: Rounding): int {
    if x >= 0.0 then RoundMagnitude(x, mode) else -RoundMagnitude(-x, mode)
  }

  function Ticks(steps: int, tick: real): real {
    steps as real * tick
  }

  function RoundPriceToTick(price: real, tick: real, mode: Rounding): real {
    if tick <= 0.0 then price else Ticks(RoundToInt(price / tick, mode), tick)
  }

  ghost predicate Aligned(price: real, tick: real) {
    exists n :: price == Ticks(n, tick)
  }

  /** The contract values a size depends on; `None` is a value that is not a finite decimal. */
  datatype QtySpec = QtySpec(step: Option<real>, minQty: Option<real>, minNotional: Option<real>)

  datatype PositionSize = PositionSize(
    qty: real, contracts: int, notional: real, margin: real, actualRisk: real)

  const ZERO_SIZE := PositionSize(0.0, 0, 0.0, 0.0, 0.0)

  /** Truncation to eight decimals. */
  function Quantize8(x: real): real {
    RoundToInt(x * 100000000.0, Down) as real / 100000000.0
  }

  function BudgetSteps(riskAmt: real, stopDistance: real, step: real): int
    requires stopDistance > 0.0 && step > 0.0
  {
    RoundToInt(riskAmt / stopDistance / step, Down)
  }

  function LeastSteps(minQty: real, step: real): int
    requires step > 0.0
  {
    MaxInt(1, RoundToInt(minQty / step, Up))
  }

  function Qty(steps: int, step: real): real {
    step * steps as real
  }

  /** What a stop at `stopDistance` loses on this many steps. */
  function StopLoss(steps: int, step: real, stopDistance: real): real {
    Qty(steps, step) * stopDistance
  }

  function Notional(steps: int, step: real, entry: real): real {
    Qty(steps, step) * entry
  }

  /** The number of steps to trade, or zero when the size is refused. */
  function SizeSteps(riskAmt: real, entry: real, stopDistance: real, spec: QtySpec): int {
    if riskAmt <= 0.0 || entry <= 0.0 || stopDistance <= 0.0 then 0
    else if spec.step.None? || spec.minQty.None? || spec.minNotional.None? then 0
    else
      var step, minQty, minNotional := spec.step.value, spec.minQty.value, spec.minNotional.value;
      if step <= 0.0 || minQty < 0.0 || minNotional < 0.0 then 0
      else
        var steps := BudgetSteps(riskAmt, stopDistance, step);
        if || steps < LeastSteps(minQty, step)
           || StopLoss(steps, step, stopDistance) > riskAmt
           || Notional(steps, step, entry) < minNotional
        then 0
        else steps
  }

  function SizePosition(riskAmt: real, entry: real, stopDistance: real, leverage: int, spec: QtySpec): PositionSize {
    var steps := if leverage <= 0 then 0 else SizeSteps(riskAmt, entry, stopDistance, spec);
    if steps == 0 || spec.step.None? then ZERO_SIZE
    else
      var step := spec.step.value;
      var notional := Notional(steps, step, entry);
      PositionSize(
        Qty(steps, step), steps, Quantize8(notional), Quantize8(notional / leverage as real),
        Quantize8(StopLoss(steps, step, stopDistance)))
  }

  /** What the exchange and the budget ask of a size of `k` steps. */
  predicate Admissible(k: int, riskAmt: real, entry: real, stopDistance: real, spec: QtySpec) {
    && spec.step.Some? && spec.minQty.Some? && spec.minNotional.Some?
    && k >= 1
    && StopLoss(k, spec.step.value, stopDistance) <= riskAmt
    && Qty(k, spec.step.value) >= spec.minQty.value
    && Notional(k, spec.step.value, entry) >= spec.minNotional.value
  }

  lemma FloorBounds(x: real)
    ensures x.Floor as real <= x < x.Floor as real + 1.0
  {
  }

  lemma IntBelow(k: int, x: real)
    ensures k as real <= x <==> k <= x.Floor
  {
    FloorBounds(x);
  }

  lemma IntAbove(k: int, x: real)
    requires x >= 0.0
    ensures k as real >= x <==> k >= RoundToInt(x, Up)
  {
    FloorBounds(x);
  }

  /** `k` steps fit the budget exactly when `k` is at most the rounded-down quotient. */
  lemma FitsBudget(k: int, riskAmt: real, stopDistance: real, step: real)
    requires riskAmt > 0.0 && stopDistance > 0.0 && step > 0.0
    ensures StopLoss(k, step, stopDistance) <= riskAmt <==> k <= BudgetSteps(riskAmt, stopDistance, step)
  {
    var perStop := riskAmt / stopDistance;
    var q := perStop / step;
    DivMul(perStop, step);
    DivMul(riskAmt, stopDistance);
    ScaledOrder(perStop, 0.0, stopDistance);
    ScaledOrder(q, 0.0, step);
    IntBelow(k, q);
    ScaledOrder(k as real, q, step);
    ScaledOrder(Qty(k, step), perStop, stopDistance);
  }

  lemma MeetsMinQty(k: int, minQty: real, step: real)
    requires minQty >= 0.0 && step > 0.0
    ensures Qty(k, step) >= minQty <==> k >= RoundToInt(minQty / step, Up)
  {
    var q := minQty / step;
    DivMul(minQty, step);
    ScaledOrder(0.0, q, step);
    IntAbove(k, q);
    ScaledOrder(q, k as real, step);
  }

  predicate PositiveSpec(spec: QtySpec) {
    && (spec.step.Some? ==> spec.step.value > 0.0)
    && (spec.minQty.Some? ==> spec.minQty.value >= 0.0)
    && (spec.minNotional.Some? ==> spec.minNotional.value >= 0.0)
  }

  lemma NotionalMono(k: int, n: int, step: real, entry: real)
    requires k <= n && step > 0.0 && entry > 0.0
    ensures Notional(k, step, entry) <= Notional(n, step, entry)
  {
    MulMono(k as real, n as real, step);
    MulMono(Qty(k, step), Qty(n, step), entry);
  }

  lemma AdmissibleBounds(k: int, riskAmt: real, entry: real, stopDistance: real, spec: QtySpec)
    requires riskAmt > 0.0 && entry > 0.0 && stopDistance > 0.0
    requires PositiveSpec(spec)
    requires Admissible(k, riskAmt, entry, stopDistance, spec)
    ensures var steps := BudgetSteps(riskAmt, stopDistance, spec.step.value);
            && k <= steps
            && LeastSteps(spec.minQty.value, spec.step.value) <= k
            && Notional(steps, spec.step.value, entry) >= spec.minNotional.value
  {
    hide StopLoss, Notional, Qty, BudgetSteps;
    var step := spec.step.value;
    var steps := BudgetSteps(riskAmt, stopDistance, step);
    FitsBudget(k, riskAmt, stopDistance, step);
    MeetsMinQty(k, spec.minQty.value, step);
    NotionalMono(k, steps, step, entry);
  }

  lemma BudgetStepsAdmissible(riskAmt: real, entry: real, stopDistance: real, spec: QtySpec)
    requires riskAmt > 0.0 && entry > 0.0 && stopDistance > 0.0
    requires PositiveSpec(spec) && spec.step.Some? && spec.minQty.Some? && spec.minNotional.Some?
    ensures var steps := BudgetSteps(riskAmt, stopDistance, spec.step.value);
            && StopLoss(steps, spec.step.value, stopDistance) <= riskAmt
            && (Admissible(steps, riskAmt, entry, stopDistance, spec) <==>
                  && LeastSteps(spec.minQty.value, spec.step.value) <= steps
                  && Notional(steps, spec.step.value, entry) >= spec.minNotional.value)
  {
    hide StopLoss, Notional, Qty, BudgetSteps;
    var step := spec.step.value;
    var steps := BudgetSteps(riskAmt, stopDistance, step);
    FitsBudget(steps, riskAmt, stopDistance, step);
    MeetsMinQty(steps, spec.minQty.value, step);
  }

  lemma SizeStepsCases(riskAmt: real, entry: real, stopDistance: real, spec: QtySpec)
    requires riskAmt > 0.0 && entry > 0.0 && stopDistance > 0.0
    requires PositiveSpec(spec)
    ensures SizeSteps(riskAmt, entry, stopDistance, spec)
            == if && spec.step.Some? && spec.minQty.Some? && spec.minNotional.Some?
                  && Admissible(BudgetSteps(riskAmt, stopDistance, spec.step.value), riskAmt, entry, stopDistance, spec)
               then BudgetSteps(riskAmt, stopDistance, spec.step.value) else 0
  {
    hide StopLoss, Notional, Qty, BudgetSteps, LeastSteps;
    if spec.step.Some? && spec.minQty.Some? && spec.minNotional.Some? {
      BudgetStepsAdmissible(riskAmt, entry, stopDistance, spec);
    }
  }

  lemma SizeCases(riskAmt: real, entry: real, stopDistance: real, leverage: int, spec: QtySpec)
    requires leverage > 0
    ensures var size, steps :=
            SizePosition(riskAmt, entry, stopDistance, leverage, spec), SizeSteps(riskAmt, entry, stopDistance, spec);
            && size.contracts == steps
            && (steps == 0 ==> size == ZERO_SIZE)
            && (steps != 0 ==> spec.step.Some? && size.qty == Qty(steps, spec.step.value))
  {
    hide StopLoss, Notional, Qty, BudgetSteps, LeastSteps, Quantize8;
  }

  /** A size is the largest admissible number of steps, and it is zero exactly when no number of steps is admissible. */
  lemma SizeIsLargestAdmissible(riskAmt: real, entry: real, stopDistance: real, leverage: int, spec: QtySpec)
    requires riskAmt > 0.0 && entry > 0.0 && stopDistance > 0.0 && leverage > 0
    requires PositiveSpec(spec)
    ensures var size := SizePosition(riskAmt, entry, stopDistance, leverage, spec);
            && (size.contracts == 0 ==>
                  size == ZERO_SIZE && forall k :: !Admissible(k, riskAmt, entry, stopDistance, spec))
            && (size.contracts != 0 ==>
                  && Admissible(size.contracts, riskAmt, entry, stopDistance, spec)
                  && (forall k :: Admissible(k, riskAmt, entry, stopDistance, spec) ==> k <= size.contracts)
                  && size.qty == Qty(size.contracts, spec.step.value))
  {
    hide StopLoss, Notional, Qty, BudgetSteps, LeastSteps, SizePosition, SizeSteps;
    SizeCases(riskAmt, entry, stopDistance, leverage, spec);
    SizeStepsCases(riskAmt, entry, stopDistance, spec);
    forall k | Admissible(k, riskAmt, entry, stopDistance, spec)
      ensures k <= BudgetSteps(riskAmt, stopDistance, spec.step.value)
      ensures Admissible(BudgetSteps(riskAmt, stopDistance, spec.step.value), riskAmt, entry, stopDistance, spec)
    {
      AdmissibleBounds(k, riskAmt, entry, stopDistance, spec);
      BudgetStepsAdmissible(riskAmt, entry, stopDistance, spec);
    }
  }

  /** Leverage moves the margin only. */
  lemma LeverageMovesOnlyMargin(riskAmt: real, entry: real, stopDistance: real, lev1: int, lev2: int, spec: QtySpec)
    requires lev1 > 0 && lev2 > 0
    ensures var a, b := SizePosition(riskAmt, entry, stopDistance, lev1, spec),
            SizePosition(riskAmt, entry, stopDistance, lev2, spec);
            a.(margin := 0.0) == b.(margin := 0.0)
  {
    hide StopLoss, Notional, Qty, SizeSteps, Quantize8;
  }

  lemma MagnitudeNear(x: real, mode: Rounding)
    requires x >= 0.0
    ensures var r := RoundMagnitude(x, mode) as real;
            && x - 1.0 < r < x + 1.0
            && (mode.Down? ==> r <= x)
            && (mode.Up? ==> x <= r)
            && (mode.HalfUp? ==> x - 0.5 <= r <= x + 0.5)
            && (x == x.Floor as real ==> r == x)
            && (r == x ==> x == x.Floor as real)
  {
    match mode
    case Down => FloorBounds(x);
    case Up => FloorBounds(x);
    case HalfUp => HalfUpNear(x);
  }

  lemma HalfUpNear(x: real)
    ensures var r := (x + 0.5).Floor as real;
            && x - 0.5 < r <= x + 0.5
            && (x == x.Floor as real <==> r == x)
  {
    var n := (x + 0.5).Floor;
    FloorBounds(x + 0.5);
    FloorBounds(x);
    FloorOfInteger(x.Floor, x + 0.5);
    FloorOfInteger(n, x);
  }

  lemma FloorOfInteger(n: int, x: real)
    ensures n as real <= x < n as real + 1.0 <==> x.Floor == n
  {
    FloorBounds(x);
  }

  lemma IntegerNegated(x: real)
    requires x == x.Floor as real
    ensures -x == (-x).Floor as real
  {
    FloorOfInteger(-(x.Floor), -x);
  }

  lemma AlignedQuotient(price: real, tick: real)
    requires tick > 0.0
    ensures Aligned(price, tick) <==> price / tick == (price / tick).Floor as real
  {
    var q := price / tick;
    DivMul(price, tick);
    if q == q.Floor as real {
      assert price == Ticks(q.Floor, tick);
    }
    forall n | price == Ticks(n, tick)
      ensures q == n as real
    {
      SameQuotient(n as real, q, tick);
    }
  }

  lemma SameQuotient(x: real, y: real, tick: real)
    requires tick > 0.0 && x * tick == y * tick
    ensures x == y
  {
    if x < y { MulStrict(x, y, tick); } else if y < x { MulStrict(y, x, tick); }
  }

  lemma StepsNear(q: real, mode: Rounding)
    ensures var n := RoundToInt(q, mode) as real;
            && q - 1.0 < n < q + 1.0
            && (mode.HalfUp? ==> q - 0.5 <= n <= q + 0.5)
            && (q == q.Floor as real ==> n == q)
            && (mode.Down? ==> (n <= q <==> q >= 0.0 || q == q.Floor as real))
            && (mode.Up? ==> (q <= n <==> q >= 0.0 || q == q.Floor as real))
  {
    hide RoundMagnitude;
    if q >= 0.0 {
      MagnitudeNear(q, mode);
    } else {
      MagnitudeNear(-q, mode);
      if q == q.Floor as real {
        IntegerNegated(q);
      } else if -q == (-q).Floor as real {
        IntegerNegated(-q);
      }
    }
  }

  lemma ScaledNear(n: real, q: real, tick: real, d: real, r: real, price: real)
    requires tick > 0.0 && q - d <= n <= q + d
    requires r == n * tick && price == q * tick
    ensures price - d * tick <= r <= price + d * tick
    ensures q - d < n < q + d ==> price - d * tick < r < price + d * tick
    ensures n <= q <==> r <= price
    ensures q <= n <==> price <= r
  {
    var e := n - q;
    assert r == price + e * tick;
    MulMono(e, d, tick);
    MulMono(-d, e, tick);
    ScaledOrder(n, q, tick);
    ScaledOrder(q, n, tick);
    if -d < e < d {
      MulStrict(e, d, tick);
      MulStrict(-d, e, tick);
    }
  }

  lemma RoundedQuotient(q: real, price: real, tick: real, mode: Rounding)
    requires tick > 0.0 && price == q * tick
    ensures var r := Ticks(RoundToInt(q, mode), tick);
            && price - tick < r < price + tick
            && (mode.HalfUp? ==> price - 0.5 * tick <= r <= price + 0.5 * tick)
            && (q == q.Floor as real ==> r == price)
            && (mode.Down? ==> (r <= price <==> q >= 0.0 || q == q.Floor as real))
            && (mode.Up? ==> (price <= r <==> q >= 0.0 || q == q.Floor as real))
  {
    hide RoundToInt;
    var r := Ticks(RoundToInt(q, mode), tick);
    StepsNear(q, mode);
    ScaledNear(RoundToInt(q, mode) as real, q, tick, 1.0, r, price);
    if mode.HalfUp? { ScaledNear(RoundToInt(q, mode) as real, q, tick, 0.5, r, price); }
  }

  /** A rounded price is a multiple of the tick, less than one tick (half a tick for half-up) from the price. */
  lemma RoundedIsNear(price: real, tick: real, mode: Rounding)
    requires tick > 0.0
    ensures var r := RoundPriceToTick(price, tick, mode);
            && Aligned(r, tick)
            && price - tick < r < price + tick
            && (mode.HalfUp? ==> price - 0.5 * tick <= r <= price + 0.5 * tick)
            && (Aligned(price, tick) ==> r == price)
  {
    hide RoundToInt;
    DivMul(price, tick);
    RoundedQuotient(price / tick, price, tick, mode);
    AlignedQuotient(price, tick);
  }

  /** `Down` never raises a price, and `Up` never lowers one, exactly when the price is not negative or is
      already on the tick grid: on a negative price both modes round to the other side. */
  lemma RoundingSide(price: real, tick: real)
    requires tick > 0.0
    ensures RoundPriceToTick(price, tick, Down) <= price <==> price >= 0.0 || Aligned(price, tick)
    ensures price <= RoundPriceToTick(price, tick, Up) <==> price >= 0.0 || Aligned(price, tick)
  {
    hide RoundToInt;
    var q := price / tick;
    DivMul(price, tick);
    RoundedQuotient(q, price, tick, Down);
    RoundedQuotient(q, price, tick, Up);
    AlignedQuotient(price, tick);
    ScaledOrder(0.0, q, tick);
  }
}
