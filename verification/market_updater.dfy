/** The market data updater (aura/data/market_updater.py) as a writer of the market tables, and what the entry gate may
    conclude from whatever the writers have left. */
module MarketUpdater {
  import opened Wrappers
  import opened MarketData

  /** The exchange's answers, as far as they matter. */
  datatype Stamp = NoStamp | BadStamp | StampAt(ms: int)
  datatype Ticker = Ticker(stamp: Stamp, volume: Option<real>)
  datatype DepthReply =
    | DepthRaises(mentionsStale: bool)
    | DepthRefused(mentionsStale: bool)
    | DepthUnusable
    | Book(spreadBps: real, bidDepth: real, askDepth: real, stamp: Stamp, fetchedMs: int)

  /** One symbol's turn: the time its spec is checked, the book, and the time of the evaluation. */
  datatype Turn = Turn(symbol: Symbol, checkMs: int, depth: DepthReply, evalMs: int)

  datatype SpecsReply = SpecsRaise | SpecsList(cs: seq<ContractSpec>)

  datatype Cycle = Cycle(specs: SpecsReply, tickers: map<Symbol, Ticker>, tickersFetchedMs: int, turns: seq<Turn>)

  datatype Write = Failure(stale: bool) | Snapshot(a: Assessment, x: Metrics, t: Times)

  /** What a turn writes about its symbol. */
  function TurnWrite(m: Market, c: Cycle, turn: Turn): Write {
    if turn.symbol !in m.specs then Failure(false)
    else
      var spec := m.specs[turn.symbol];
      if !spec.status.Normal? || !spec.kind.Perpetual? then Failure(false)
      else if turn.checkMs - spec.fetchedAt > SPEC_MAX_AGE_MS then Failure(true)
      else BookWrite(c, turn, spec)
  }

  function BookWrite(c: Cycle, turn: Turn, spec: Spec): Write {
    match turn.depth
    case DepthRaises(stale) => Failure(stale)
    case DepthRefused(stale) => Failure(stale)
    case DepthUnusable => Failure(false)
    case Book(spreadBps, bidDepth, askDepth, stamp, fetchedMs) =>
      if !stamp.StampAt? || turn.symbol !in c.tickers then Failure(false)
      else
        var ticker := c.tickers[turn.symbol];
        if !ticker.stamp.StampAt? || ticker.volume.None? then Failure(false)
        else
          var x := Metrics(spreadBps, bidDepth, askDepth, ticker.volume.value);
          var t := Times(Some(stamp.ms), Some(fetchedMs), Some(ticker.stamp.ms), Some(c.tickersFetchedMs));
          Snapshot(AssessmentOf(true, x, t, Some(spec.fetchedAt), turn.evalMs, true), x, t)
  }

  function Written(m: Market, symbol: Symbol, w: Write): Market {
    match w
    case Failure(stale) => FailureRecorded(m, symbol, stale)
    case Snapshot(a, x, t) => SnapshotPersisted(m, symbol, a, x, t)
  }

  function TurnsDone(m: Market, c: Cycle, turns: seq<Turn>): Market {
    if turns == [] then m
    else
      var before, turn := TurnsDone(m, c, turns[..|turns| - 1]), turns[|turns| - 1];
      Written(before, turn.symbol, TurnWrite(before, c, turn))
  }

  function SpecsTaken(m: Market, reply: SpecsReply): Market {
    if reply.SpecsRaise? then m else SpecsPersisted(m, reply.cs)
  }

  function CycleDone(m: Market, c: Cycle): Market {
    TurnsDone(SpecsTaken(m, c.specs), c, c.turns)
  }

  /** One turn for each configured symbol, in order. */
  predicate TurnsFor(turns: seq<Turn>, symbols: seq<Symbol>) {
    |turns| == |symbols| && forall i :: 0 <= i < |turns| ==> turns[i].symbol == symbols[i]
  }

  class MarketDataUpdater {
    const symbols: seq<Symbol>
    const minIntervalMs: int
    var market: Market
    var lastUpdateMs: int
    var specsFailed: bool

    constructor (market: Market, symbols: seq<Symbol>, minIntervalMs: int)
      ensures this.market == market && this.symbols == symbols && this.minIntervalMs == minIntervalMs
      ensures lastUpdateMs == 0
    {
      this.market, this.symbols := market, symbols;
      this.minIntervalMs := minIntervalMs;
      lastUpdateMs := 0;
      specsFailed := false;
    }

    /** One cycle, unless the last one is too recent. */
    method UpdateCycle(force: bool, startMs: int, c: Cycle) returns (updated: bool)
      requires TurnsFor(c.turns, symbols)
      modifies this
      ensures updated <==> force || startMs - old(lastUpdateMs) >= minIntervalMs
      ensures market == if updated then CycleDone(old(market), c) else old(market)
      ensures lastUpdateMs == if updated then startMs else old(lastUpdateMs)
      ensures updated ==> (specsFailed <==> c.specs.SpecsRaise? || c.specs.cs == [])
      ensures updated ==> forall i :: 0 <= i < |symbols| ==> Answered(market, c.turns, symbols[i])
    {
      if !force && startMs - lastUpdateMs < minIntervalMs {
        return false;
      }
      hide TurnWrite, Written, SpecsPersisted, Answered;
      specsFailed := c.specs.SpecsRaise? || c.specs.cs == [];
      if c.specs.SpecsList? {
        PersistContractSpecs(c.specs.cs);
      }
      ghost var taken := market;
      for i := 0 to |c.turns|
        invariant market == TurnsDone(taken, c, c.turns[..i])
        invariant lastUpdateMs == old(lastUpdateMs) && (specsFailed <==> c.specs.SpecsRaise? || c.specs.cs == [])
      {
        assert c.turns[..i + 1][..i] == c.turns[..i];
        UpdateSymbol(c, c.turns[i]);
      }
      assert c.turns[..|c.turns|] == c.turns;
      lastUpdateMs := startMs;
      updated := true;
      forall i | 0 <= i < |symbols|
        ensures Answered(market, c.turns, symbols[i])
      {
        CycleFailsClosed(taken, c, c.turns, i);
        assert c.turns[i].symbol == symbols[i];
      }
    }

    /** The chain of checks of one symbol; every way out writes the symbol's row. */
    method UpdateSymbol(c: Cycle, turn: Turn)
      modifies this`market
      ensures market == Written(old(market), turn.symbol, TurnWrite(old(market), c, turn))
    {
      hide AssessmentOf;
      var symbol := turn.symbol;
      if symbol !in market.specs {
        RecordFailure(symbol, false);
        return;
      }
      var spec := market.specs[symbol];
      if !(spec.status.Normal? && spec.kind.Perpetual?) {
        RecordFailure(symbol, false);
        return;
      }
      if turn.checkMs - spec.fetchedAt > SPEC_MAX_AGE_MS {
        RecordFailure(symbol, true);
        return;
      }
      match turn.depth
      case DepthRaises(stale) =>
        RecordFailure(symbol, stale);
      case DepthRefused(stale) =>
        RecordFailure(symbol, stale);
      case DepthUnusable =>
        RecordFailure(symbol, false);
      case Book(spreadBps, bidDepth, askDepth, stamp, fetchedMs) =>
        if !stamp.StampAt? || symbol !in c.tickers || !c.tickers[symbol].stamp.StampAt? ||
          c.tickers[symbol].volume.None? {
          RecordFailure(symbol, false);
          return;
        }
        var ticker := c.tickers[symbol];
        var x := Metrics(spreadBps, bidDepth, askDepth, ticker.volume.value);
        var t := Times(Some(stamp.ms), Some(fetchedMs), Some(ticker.stamp.ms), Some(c.tickersFetchedMs));
        var a := EvaluateMetrics(true, x, t, None, None, Some(spec.fetchedAt), turn.evalMs, true);
        PersistUniverseSnapshot(symbol, a, x, t);
    }

    method PersistUniverseSnapshot(symbol: Symbol, a: Assessment, x: Metrics, t: Times)
      modifies this`market
      ensures market == SnapshotPersisted(old(market), symbol, a, x, t)
    {
      market := market.(universe := market.universe[symbol := SnapshotRow(a, x, t)]);
    }

    method RecordFailure(symbol: Symbol, stale: bool)
      modifies this`market
      ensures market == FailureRecorded(old(market), symbol, stale)
    {
      market := FailureRecorded(market, symbol, stale);
    }

    /** Upsert every spec, then walk the known symbols and deactivate what the response did not list as normal. */
    method PersistContractSpecs(cs: seq<ContractSpec>)
      modifies this`market
      ensures market == SpecsPersisted(old(market), cs)
    {
      if cs == [] {
        return;
      }
      hide DelistedIn, DeactivatedIn, ActiveIn, SpecsUpserted;
      var specs, active := UpsertSpecs(market.specs, cs);
      var marked, universe := MarkGone(specs, market.universe, active);
      assert (set s | s in specs && s !in active) == set s | s in specs && !ActiveIn(cs, s);
      market := Market(marked, universe);
    }
  }

  /** Every known symbol that is not active is delisted, and its universe row deactivated. */
  method MarkGone(known: map<Symbol, Spec>, rows: map<Symbol, Row>, active: set<Symbol>)
    returns (specs: map<Symbol, Spec>, universe: map<Symbol, Row>)
    ensures specs == DelistedIn(known, set s | s in known && s !in active)
    ensures universe == DeactivatedIn(rows, set s | s in known && s !in active)
  {
    hide DelistedIn, DeactivatedIn, Deactivated;
    specs, universe := known, rows;
    var todo := known.Keys;
    ghost var gone: set<Symbol> := {};
    NoneGone(known, rows);
    while todo != {}
      invariant todo <= known.Keys && gone == set s | s in known && s !in todo && s !in active
      invariant specs == DelistedIn(known, gone) && universe == DeactivatedIn(rows, gone)
      decreases |todo|
    {
      var s :| s in todo;
      if s !in active {
        OneMoreGone(known, rows, gone, s);
        specs, universe := specs[s := specs[s].(status := Delisted)], universe[s := Deactivated(universe, s)];
        gone := gone + {s};
      }
      todo := todo - {s};
    }
    assert gone == set s | s in known && s !in active;
  }

  method UpsertSpecs(before: map<Symbol, Spec>, cs: seq<ContractSpec>)
    returns (specs: map<Symbol, Spec>, active: set<Symbol>)
    ensures specs == SpecsUpserted(before, cs)
    ensures forall s :: s in active <==> ActiveIn(cs, s)
  {
    specs, active := before, {};
    for i := 0 to |cs|
      invariant specs == SpecsUpserted(before, cs[..i])
      invariant forall s :: s in active <==> exists k :: 0 <= k < i && cs[k].symbol == s && cs[k].spec.status.Normal?
    {
      assert cs[..i + 1][..i] == cs[..i];
      if cs[i].spec.status.Normal? {
        active := active + {cs[i].symbol};
      }
      specs := SpecUpserted(specs, cs[i]);
    }
    assert cs[..|cs|] == cs;
  }

  // ---------- all writers ----------

  /** Everything that writes the tables: an update cycle, and the worker's synthetic snapshot and failure records. */
  datatype Writer =
    | RunCycle(c: Cycle)
    | SyntheticSnapshot(symbol: Symbol, x: Metrics, t: Times, specFetched: int, nowMs: int)
    | SourceFailure(symbols: seq<Symbol>)

  function FailuresRecorded(m: Market, symbols: seq<Symbol>): Market {
    if symbols == [] then m
    else FailureRecorded(FailuresRecorded(m, symbols[..|symbols| - 1]), symbols[|symbols| - 1], false)
  }

  /** The synthetic snapshot leaves the status of a known spec alone. */
  function SyntheticWritten(m: Market, symbol: Symbol, x: Metrics, t: Times, specFetched: int, nowMs: int): Market {
    var spec := if symbol in m.specs then m.specs[symbol].(fetchedAt := specFetched)
      else Spec(Normal, Perpetual, Usdt, Usdt, specFetched);
    SnapshotPersisted(m.(specs := m.specs[symbol := spec]), symbol,
                      AssessmentOf(true, x, t, Some(specFetched), nowMs, true), x, t)
  }

  function WriterDone(m: Market, w: Writer): Market {
    match w
    case RunCycle(c) => CycleDone(m, c)
    case SyntheticSnapshot(symbol, x, t, specFetched, nowMs) => SyntheticWritten(m, symbol, x, t, specFetched, nowMs)
    case SourceFailure(symbols) => FailuresRecorded(m, symbols)
  }

  function Run(ws: seq<Writer>): Market {
    if ws == [] then Market(map[], map[]) else WriterDone(Run(ws[..|ws| - 1]), ws[|ws| - 1])
  }

  predicate PositiveTimes(t: Times) {
    && t.bookEvent.Some? && t.bookEvent.value > 0 && t.bookFetch.Some? && t.bookFetch.value > 0
    && t.tickerEvent.Some? && t.tickerEvent.value > 0 && t.tickerFetch.Some? && t.tickerFetch.value > 0
  }

  predicate HasMetrics(row: Row) {
    row.spreadBps.Some? && row.bidDepth.Some? && row.askDepth.Some? && row.quoteVolume.Some?
  }

  function MetricsOf(row: Row): Metrics
    requires HasMetrics(row)
  {
    Metrics(row.spreadBps.value, row.bidDepth.value, row.askDepth.value, row.quoteVolume.value)
  }

  /** A row marked verified carries all that the verdict rested on. */
  predicate RowSound(row: Row) {
    row.verified ==>
      && row.active && row.status.Valid? && row.version == Some(POLICY_VERSION)
      && HasMetrics(row) && MetricsOk(MetricsOf(row)) && PositiveTimes(row.times)
  }

  predicate Sound(m: Market) {
    forall s :: s in m.universe ==> RowSound(m.universe[s])
  }

  lemma SnapshotSound(m: Market, symbol: Symbol, x: Metrics, t: Times, specFetched: Option<int>, nowMs: int)
    requires Sound(m)
    ensures var a := AssessmentOf(true, x, t, specFetched, nowMs, true);
            RowSound(SnapshotRow(a, x, t)) && Sound(SnapshotPersisted(m, symbol, a, x, t))
  {
    NoReasonMeansPasses(true, x, t, specFetched, nowMs, true);
    hide ReasonsOf;
  }

  lemma FailureSound(m: Market, symbol: Symbol, stale: bool)
    requires Sound(m)
    ensures Sound(FailureRecorded(m, symbol, stale))
  {
  }

  lemma SpecsSound(m: Market, cs: seq<ContractSpec>)
    requires Sound(m)
    ensures Sound(SpecsPersisted(m, cs))
  {
    hide DelistedIn, SpecsUpserted, ActiveIn;
  }

  lemma TurnSound(m: Market, c: Cycle, turn: Turn)
    requires Sound(m)
    ensures Sound(Written(m, turn.symbol, TurnWrite(m, c, turn)))
  {
    hide Sound, SnapshotPersisted, FailureRecorded, AssessmentOf;
    match TurnWrite(m, c, turn)
    case Failure(stale) => FailureSound(m, turn.symbol, stale);
    case Snapshot(a, x, t) => SnapshotSound(m, turn.symbol, x, t, Some(m.specs[turn.symbol].fetchedAt), turn.evalMs);
  }

  lemma {:induction false} TurnsSound(m: Market, c: Cycle, turns: seq<Turn>)
    requires Sound(m)
    ensures Sound(TurnsDone(m, c, turns))
  {
    hide Sound, Written, TurnWrite;
    if turns != [] {
      TurnsSound(m, c, turns[..|turns| - 1]);
      TurnSound(TurnsDone(m, c, turns[..|turns| - 1]), c, turns[|turns| - 1]);
    }
  }

  lemma {:induction false} FailuresSound(m: Market, symbols: seq<Symbol>)
    requires Sound(m)
    ensures Sound(FailuresRecorded(m, symbols))
  {
    hide Sound, FailureRecorded;
    if symbols != [] {
      FailuresSound(m, symbols[..|symbols| - 1]);
      FailureSound(FailuresRecorded(m, symbols[..|symbols| - 1]), symbols[|symbols| - 1], false);
    }
  }

  lemma WriterSound(m: Market, w: Writer)
    requires Sound(m)
    ensures Sound(WriterDone(m, w))
  {
    hide Sound, SpecsPersisted, TurnsDone, SnapshotPersisted, AssessmentOf;
    match w
    case RunCycle(c) =>
      if c.specs.SpecsList? { SpecsSound(m, c.specs.cs); }
      TurnsSound(SpecsTaken(m, c.specs), c, c.turns);
    case SyntheticSnapshot(symbol, x, t, specFetched, nowMs) =>
      var spec := if symbol in m.specs then m.specs[symbol].(fetchedAt := specFetched)
        else Spec(Normal, Perpetual, Usdt, Usdt, specFetched);
      var m' := m.(specs := m.specs[symbol := spec]);
      assert Sound(m') by { SameUniverse(m, m'); }
      SnapshotSound(m', symbol, x, t, Some(specFetched), nowMs);
    case SourceFailure(symbols) => FailuresSound(m, symbols);
  }

  lemma SameUniverse(m: Market, m': Market)
    requires Sound(m) && m'.universe == m.universe
    ensures Sound(m')
  {
  }

  lemma {:induction false} RunSound(ws: seq<Writer>)
    ensures Sound(Run(ws))
  {
    if ws != [] {
      RunSound(ws[..|ws| - 1]);
      hide Sound, WriterDone;
      WriterSound(Run(ws[..|ws| - 1]), ws[|ws| - 1]);
    }
  }

  /** Whatever the writers did: a row that passes the gate would be verified again by the policy at that very time from
      its stored values, exactly if its spec has a positive fetch time, which any decision later than the spec age limit
      guarantees; and the notional is positive and within the depth fraction of its side. */
  lemma GateIsJustified(ws: seq<Writer>, symbol: Symbol, decisionMs: int, notional: Option<real>,
                        direction: Option<int>)
    requires GatePasses(Run(ws), symbol, decisionMs, notional, direction)
    ensures var row, spec := Run(ws).universe[symbol], Run(ws).specs[symbol];
            && HasMetrics(row)
            && (Passes(row.active, MetricsOf(row), row.times, Some(spec.fetchedAt), decisionMs, true) <==>
                spec.fetchedAt > 0)
            && (decisionMs > SPEC_MAX_AGE_MS ==>
                Passes(row.active, MetricsOf(row), row.times, Some(spec.fetchedAt), decisionMs, true))
            && 0.0 < notional.value <= MAX_POSITION_DEPTH_FRACTION * if direction.value == 1 then row.askDepth.value
               else row.bidDepth.value
  {
    hide Run;
    RunSound(ws);
    assert RowSound(Run(ws).universe[symbol]);
  }

  // ---------- a cycle fails closed ----------

  /** A row is not verified, or some turn of this cycle verified it against the specs of this cycle. */
  predicate VerifiedByTurn(row: Row, specs: map<Symbol, Spec>, turn: Turn) {
    && turn.symbol in specs && HasMetrics(row)
    && Passes(true, MetricsOf(row), row.times, Some(specs[turn.symbol].fetchedAt), turn.evalMs, true)
  }

  predicate Answered(m: Market, turns: seq<Turn>, symbol: Symbol) {
    symbol in m.universe
    && (m.universe[symbol].verified ==>
          exists i :: 0 <= i < |turns| && turns[i].symbol == symbol &&
            VerifiedByTurn(m.universe[symbol], m.specs, turns[i]))
  }

  lemma WriteAnswers(m: Market, c: Cycle, turn: Turn)
    ensures var m' := Written(m, turn.symbol, TurnWrite(m, c, turn));
            && m'.specs == m.specs && turn.symbol in m'.universe
            && (m'.universe[turn.symbol].verified ==> VerifiedByTurn(m'.universe[turn.symbol], m'.specs, turn))
            && (forall s :: s in m.universe && s != turn.symbol ==> s in m'.universe && m'.universe[s] == m.universe[s])
  {
    match TurnWrite(m, c, turn)
    case Failure(_) =>
    case Snapshot(a, x, t) =>
      NoReasonMeansPasses(true, x, t, Some(m.specs[turn.symbol].fetchedAt), turn.evalMs, true);
      hide ReasonsOf, Passes;
  }

  lemma AnsweredLater(m: Market, m': Market, turns: seq<Turn>, turn: Turn, symbol: Symbol)
    requires Answered(m, turns, symbol) && m'.specs == m.specs
    requires symbol in m'.universe && m'.universe[symbol] == m.universe[symbol]
    ensures Answered(m', turns + [turn], symbol)
  {
    hide VerifiedByTurn;
    if m.universe[symbol].verified {
      var i :| 0 <= i < |turns| && turns[i].symbol == symbol && VerifiedByTurn(m.universe[symbol], m.specs, turns[i]);
      assert (turns + [turn])[i] == turns[i];
    }
  }

  /** After a cycle every configured symbol has a row, and it is verified only if a turn of this cycle verified it: an
      exchange that fails in any way leaves no old verdict standing. */
  lemma {:induction false} CycleFailsClosed(m: Market, c: Cycle, turns: seq<Turn>, k: nat)
    requires k < |turns|
    ensures Answered(TurnsDone(m, c, turns), turns, turns[k].symbol)
  {
    hide Written, TurnWrite, VerifiedByTurn;
    var front, turn := turns[..|turns| - 1], turns[|turns| - 1];
    var before, after := TurnsDone(m, c, front), TurnsDone(m, c, turns);
    assert turns == front + [turn];
    WriteAnswers(before, c, turn);
    if turns[k].symbol != turn.symbol {
      assert front[k] == turns[k];
      CycleFailsClosed(m, c, front, k);
      AnsweredLater(before, after, front, turn, turns[k].symbol);
    }
  }

  /** A contract that the exchange no longer lists as normal cannot be entered after the specs are taken, until a later
      response lists it again. */
  lemma GoneIsBlocked(m: Market, cs: seq<ContractSpec>, symbol: Symbol, decisionMs: int, notional: Option<real>,
                      direction: Option<int>)
    requires cs != [] && !ActiveIn(cs, symbol)
    ensures !GatePasses(SpecsPersisted(m, cs), symbol, decisionMs, notional, direction)
  {
    hide SpecsUpserted, ActiveIn, DeactivatedIn, AllFresh;
  }
}
