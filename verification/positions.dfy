/** Paper positions: execution plans and the life cycle of one position (aura/runner/paper_engine.py).
    Floats and decimals are exact reals. */
module Positions {
  import opened Wrappers
  import opened Risk

  datatype Direction = Long | Short {
    function Sign(): real {
      if Long? then 1.0 else -1.0
    }
  }

  datatype Timeframe = Minutes(n: nat) | Hours(n: nat) | Days(n: nat) {
    function Ms(): int {
      match this
      case Minutes(n) => n * 60000
      case Hours(n) => n * 3600000
      case Days(n) => n * 86400000
    }
  }

  datatype EngineConfig = EngineConfig(
    startingEquity: real,
    makerFee: real,
    takerFee: real,
    slippageBps: real,
    maxOpenPositions: int,
    maxHoldBars: int,
    riskPerTradePct: real,
    intrabarConservative: bool)

  /** A contract specification: the quantity rules and the price tick, `None` when it does not parse. */
  datatype ContractSpec = ContractSpec(qty: QtySpec, priceTick: Option<real>)

  datatype PlanRequest = PlanRequest(
    symbol: string,
    dir: Direction,
    reference: real,
    sl: real,
    tp1: real,
    tp2: real,
    spec: ContractSpec,
    leverage: int,
    riskBudget: Option<real>)

  datatype PlanError = BadLevelOrder | BadStopDistance | SizeTooSmall | RiskOverBudget

  datatype Plan =
    | Plan(
        symbol: string, dir: Direction, fill: real, sl: real, tp1: real, tp2: real, stopDist: real, qty: real,
        contracts: int, margin: real, leverage: int, notional: real, budget: real, stopRisk: real, entryFee: real,
        costAdjustedRisk: real)
    | Refused(error: PlanError)

  function PriceTick(spec: ContractSpec): real {
    if spec.priceTick.Some? && spec.priceTick.value > 0.0 then spec.priceTick.value else 0.0001
  }

  predicate OrderedLevels(dir: Direction, sl: real, fill: real, tp1: real, tp2: real) {
    match dir
    case Long => sl < fill < tp1 <= tp2
    case Short => tp2 <= tp1 < fill < sl
  }

  function FillPrice(cfg: EngineConfig, dir: Direction, reference: real, tick: real): real {
    RoundPriceToTick(reference * (1.0 + cfg.slippageBps / 10000.0 * dir.Sign()), tick, HalfUp)
  }

  function StopRounding(dir: Direction): Rounding {
    if dir.Long? then Down else Up
  }

  function TargetRounding(dir: Direction): Rounding {
    if dir.Long? then Up else Down
  }

  function CreateExecutionPlan(cfg: EngineConfig, equity: real, r: PlanRequest): Plan {
    var tick := PriceTick(r.spec);
    var sl := RoundPriceToTick(r.sl, tick, StopRounding(r.dir));
    var tp1 := RoundPriceToTick(r.tp1, tick, TargetRounding(r.dir));
    var tp2 := RoundPriceToTick(r.tp2, tick, TargetRounding(r.dir));
    var fill := FillPrice(cfg, r.dir, r.reference, tick);
    if !OrderedLevels(r.dir, sl, fill, tp1, tp2) then Refused(BadLevelOrder)
    else
      var stopDist := if r.dir.Long? then fill - sl else sl - fill;
      if stopDist <= 0.0 then Refused(BadStopDistance)
      else
        var budget := if r.riskBudget.Some? then r.riskBudget.value else equity * cfg.riskPerTradePct / 100.0;
        var sized := SizePosition(budget, fill, stopDist, r.leverage, r.spec.qty);
        if sized.qty <= 0.0 || sized.contracts <= 0 then Refused(SizeTooSmall)
        else
          var stopRisk := sized.qty * stopDist;
          if stopRisk > budget then Refused(RiskOverBudget)
          else
            var entryFee := sized.qty * fill * cfg.takerFee;
            Plan(
              r.symbol, r.dir, fill, sl, tp1, tp2, stopDist, sized.qty, sized.contracts, sized.margin, r.leverage,
              sized.qty * fill, budget, stopRisk, entryFee, stopRisk + entryFee + sized.qty * sl * cfg.takerFee)
  }

  /** A level rounded away from the entry: stops below a long's entry round down, targets above it round up. */
  predicate RoundedOutward(below: bool, rounded: real, level: real, tick: real) {
    if below then level - tick < rounded <= level else level <= rounded < level + tick
  }

  lemma PositiveFill(cfg: EngineConfig, equity: real, r: PlanRequest)
    ensures var p := CreateExecutionPlan(cfg, equity, r);
            p.Plan? ==>
              && 0.0 < p.fill && 0.0 < p.qty && 0.0 < p.stopDist
              && p.entryFee == p.qty * p.fill * cfg.takerFee
              && OrderedLevels(p.dir, p.sl, p.fill, p.tp1, p.tp2)
              && (p.dir.Long? ==> p.stopDist == p.fill - p.sl)
              && (p.dir.Short? ==> p.stopDist == p.sl - p.fill)
              && p.stopRisk == p.qty * p.stopDist <= p.budget
  {
    hide RoundPriceToTick, FillPrice, Qty, StopLoss, Notional, Quantize8, SizeSteps;
    var tick := PriceTick(r.spec);
    var sl := RoundPriceToTick(r.sl, tick, StopRounding(r.dir));
    var fill := FillPrice(cfg, r.dir, r.reference, tick);
    var stopDist := if r.dir.Long? then fill - sl else sl - fill;
    var budget := if r.riskBudget.Some? then r.riskBudget.value else equity * cfg.riskPerTradePct / 100.0;
    if CreateExecutionPlan(cfg, equity, r).Plan? {
      SizeNeedsPositive(budget, fill, stopDist, r.leverage, r.spec.qty);
    }
  }

  lemma SizeNeedsPositive(riskAmt: real, entry: real, stopDistance: real, leverage: int, spec: QtySpec)
    requires SizePosition(riskAmt, entry, stopDistance, leverage, spec).contracts != 0
    ensures riskAmt > 0.0 && entry > 0.0 && stopDistance > 0.0 && leverage > 0 && PositiveSpec(spec)
  {
    hide Qty, StopLoss, Notional, Quantize8;
  }

  /** Every level of an accepted plan is on the tick grid and strictly ordered around the fill; it is rounded
      away from the entry by less than one tick exactly when the requested level is not negative or already on
      the grid. The plan takes the largest admissible size, so its nominal loss at the stop is within the budget. */
  lemma PlanIsSound(cfg: EngineConfig, equity: real, r: PlanRequest)
    ensures var p, tick := CreateExecutionPlan(cfg, equity, r), PriceTick(r.spec);
            p.Plan? ==>
              && OrderedLevels(p.dir, p.sl, p.fill, p.tp1, p.tp2)
              && p.qty * p.stopDist <= p.budget
              && Admissible(p.contracts, p.budget, p.fill, p.stopDist, r.spec.qty)
              && (forall k :: Admissible(k, p.budget, p.fill, p.stopDist, r.spec.qty) ==> k <= p.contracts)
              && Aligned(p.fill, tick) && Aligned(p.sl, tick) && Aligned(p.tp1, tick) && Aligned(p.tp2, tick)
              && (RoundedOutward(r.dir.Long?, p.sl, r.sl, tick) <==> r.sl >= 0.0 || Aligned(r.sl, tick))
              && (RoundedOutward(r.dir.Short?, p.tp1, r.tp1, tick) <==> r.tp1 >= 0.0 || Aligned(r.tp1, tick))
              && (RoundedOutward(r.dir.Short?, p.tp2, r.tp2, tick) <==> r.tp2 >= 0.0 || Aligned(r.tp2, tick))
  {
    var tick := PriceTick(r.spec);
    PositiveFill(cfg, equity, r);
    RoundedLevel(r.sl, tick, StopRounding(r.dir));
    RoundedLevel(r.tp1, tick, TargetRounding(r.dir));
    RoundedLevel(r.tp2, tick, TargetRounding(r.dir));
    RoundedIsNear(r.reference * (1.0 + cfg.slippageBps / 10000.0 * r.dir.Sign()), tick, HalfUp);
    PlanLevels(cfg, equity, r);
    PlanTakesLargestSize(cfg, equity, r);
  }

  lemma PlanTakesLargestSize(cfg: EngineConfig, equity: real, r: PlanRequest)
    ensures var p := CreateExecutionPlan(cfg, equity, r);
            p.Plan? ==>
              && Admissible(p.contracts, p.budget, p.fill, p.stopDist, r.spec.qty)
              && (forall k :: Admissible(k, p.budget, p.fill, p.stopDist, r.spec.qty) ==> k <= p.contracts)
  {
    hide RoundPriceToTick, FillPrice, SizePosition, Admissible;
    var p := CreateExecutionPlan(cfg, equity, r);
    if p.Plan? {
      SizeNeedsPositive(p.budget, p.fill, p.stopDist, r.leverage, r.spec.qty);
      SizeIsLargestAdmissible(p.budget, p.fill, p.stopDist, r.leverage, r.spec.qty);
    }
  }

  lemma PlanLevels(cfg: EngineConfig, equity: real, r: PlanRequest)
    ensures var p, tick := CreateExecutionPlan(cfg, equity, r), PriceTick(r.spec);
            p.Plan? ==>
              && p.sl == RoundPriceToTick(r.sl, tick, StopRounding(r.dir))
              && p.tp1 == RoundPriceToTick(r.tp1, tick, TargetRounding(r.dir))
              && p.tp2 == RoundPriceToTick(r.tp2, tick, TargetRounding(r.dir))
              && p.fill == FillPrice(cfg, r.dir, r.reference, tick)
              && p.dir == r.dir
  {
    hide RoundPriceToTick, FillPrice, SizePosition;
  }

  lemma RoundedLevel(level: real, tick: real, mode: Rounding)
    requires tick > 0.0 && !mode.HalfUp?
    ensures var rounded := RoundPriceToTick(level, tick, mode);
            && Aligned(rounded, tick)
            && (RoundedOutward(mode.Down?, rounded, level, tick) <==> level >= 0.0 || Aligned(level, tick))
  {
    hide RoundPriceToTick;
    RoundedIsNear(level, tick, mode);
    RoundingSide(level, tick);
  }

  datatype ExitReason = SlHit | SlHitCollision | Tp2Hit | Timestop | Manual(text: string)

  datatype Status = Active | PartialTp1 | Closed

  /** The fields of a position that the trades table keeps. */
  datatype PositionCore = PositionCore(
    symbol: string, timeframe: Timeframe, dir: Direction, entry: real, sl: real, initialSl: real, tp1: real, tp2: real,
    qty: real, initialQty: real, margin: real, leverage: int, entryTime: int, status: Status, tp1Hit: bool,
    exitPrice: Option<real>, exitTime: Option<int>, exitReason: Option<ExitReason>, realized: real, fees: real)

  /** The fields that live in memory only. */
  datatype Display = Display(
    contracts: int, unrealized: real, rMultiple: real, maxPrice: real, minPrice: real, score: real)

  datatype Position = Position(core: PositionCore, display: Display)

  datatype Bar = Bar(high: real, low: real, close: real, time: int)

  predicate WordAt(text: string, word: string, i: int) {
    0 <= i <= |text| - |word| && text[i..i + |word|] == word
  }

  ghost predicate Mentions(text: string, word: string) {
    exists i :: WordAt(text, word, i)
  }

  /** Stops, timestops and manual exits pay the taker fee and slippage; a limit target pays the maker fee. */
  ghost predicate IsTaker(reason: ExitReason) {
    match reason
    case Tp2Hit => false
    case Manual(text) => Mentions(text, "sl") || Mentions(text, "timestop") || Mentions(text, "manual")
    case _ => true
  }

  ghost function FinalPrice(cfg: EngineConfig, dir: Direction, price: real, reason: ExitReason): real {
    var slip := if IsTaker(reason) then cfg.slippageBps / 10000.0 * -dir.Sign() else 0.0;
    price * (1.0 + slip)
  }

  function Gross(c: PositionCore, price: real, qty: real): real {
    (price - c.entry) * c.dir.Sign() * qty
  }

  function Fee(qty: real, price: real, rate: real): real {
    qty * price * rate
  }

  ghost function ExitFee(cfg: EngineConfig, qty: real, finalPrice: real, reason: ExitReason): real {
    Fee(qty, finalPrice, if IsTaker(reason) then cfg.takerFee else cfg.makerFee)
  }

  /** The net result of selling the whole remaining quantity. */
  ghost function CloseNet(cfg: EngineConfig, c: PositionCore, price: real, reason: ExitReason): real {
    var final := FinalPrice(cfg, c.dir, price, reason);
    Gross(c, final, c.qty) - ExitFee(cfg, c.qty, final, reason)
  }

  ghost function ClosedCore(cfg: EngineConfig, c: PositionCore, price: real, time: int,
                            reason: ExitReason): PositionCore
  {
    var final := FinalPrice(cfg, c.dir, price, reason);
    c.(realized := c.realized + CloseNet(cfg, c, price, reason),
       fees := c.fees + ExitFee(cfg, c.qty, final, reason),
       exitPrice := Some(final),
       exitTime := Some(time),
       exitReason := Some(reason),
       status := Closed)
  }

  function RMultiple(c: PositionCore): real {
    var initialRisk := c.initialQty * Abs(c.entry - c.initialSl);
    if initialRisk > 0.0 then c.realized / initialRisk else 0.0
  }

  ghost function ClosedPosition(cfg: EngineConfig, p: Position, price: real, time: int, reason: ExitReason): Position {
    var core := ClosedCore(cfg, p.core, price, time, reason);
    Position(core, p.display.(unrealized := 0.0, rMultiple := RMultiple(core)))
  }

  /** The net result of selling half of the quantity at the first target. */
  function Tp1Net(cfg: EngineConfig, c: PositionCore): real {
    var closedQty := c.qty * 0.5;
    Gross(c, c.tp1, closedQty) - Fee(closedQty, c.tp1, cfg.makerFee)
  }

  function BankedCore(cfg: EngineConfig, c: PositionCore): PositionCore {
    var closedQty := c.qty * 0.5;
    c.(realized := c.realized + Tp1Net(cfg, c),
       fees := c.fees + Fee(closedQty, c.tp1, cfg.makerFee),
       qty := c.qty - closedQty,
       tp1Hit := true,
       status := PartialTp1,
       sl := c.entry)
  }

  /** What one bar does to a position. */
  datatype BarAction = Exit(price: real, reason: ExitReason) | BankTp1 | Hold

  function SlTouched(c: PositionCore, bar: Bar): bool {
    if c.dir.Long? then bar.low <= c.sl else bar.high >= c.sl
  }

  function TargetTouched(dir: Direction, target: real, bar: Bar): bool {
    if dir.Long? then bar.high >= target else bar.low <= target
  }

  function BarDecision(cfg: EngineConfig, c: PositionCore, bar: Bar): BarAction {
    var slHit := SlTouched(c, bar);
    var tp1Hit := TargetTouched(c.dir, c.tp1, bar);
    var tp2Hit := TargetTouched(c.dir, c.tp2, bar);
    if slHit && (tp1Hit || tp2Hit) && cfg.intrabarConservative then Exit(c.sl, SlHitCollision)
    else if slHit then Exit(c.sl, SlHit)
    else if tp2Hit then Exit(c.tp2, Tp2Hit)
    else if tp1Hit && !c.tp1Hit then BankTp1
    else if bar.time - c.entryTime >= cfg.maxHoldBars * c.timeframe.Ms() then Exit(bar.close, Timestop)
    else Hold
  }

  function MarkExtremes(d: Display, bar: Bar): Display {
    d.(maxPrice := Max(d.maxPrice, bar.high),
       minPrice := if d.minPrice > 0.0 then Min(d.minPrice, bar.low) else bar.low)
  }

  ghost function AfterBar(cfg: EngineConfig, p: Position, bar: Bar): Position {
    var marked := p.(display := MarkExtremes(p.display, bar));
    match BarDecision(cfg, p.core, bar)
    case Exit(price, reason) => ClosedPosition(cfg, marked, price, bar.time, reason)
    case BankTp1 => marked.(core := BankedCore(cfg, p.core))
    case Hold =>
      marked.(display := marked.display.(unrealized := p.core.qty * ((bar.close - p.core.entry) * p.core.dir.Sign())))
  }

  /** What the bar adds to the account. */
  ghost function BarNet(cfg: EngineConfig, c: PositionCore, bar: Bar): real {
    match BarDecision(cfg, c, bar)
    case Exit(price, reason) => CloseNet(cfg, c, price, reason)
    case BankTp1 => Tp1Net(cfg, c)
    case Hold => 0.0
  }
}
