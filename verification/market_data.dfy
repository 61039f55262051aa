/** Market data state: the liquidity policy (aura/data/liquidity.py), every writer of the two market tables
    (aura/data/market_updater.py, aura/runner/worker.py) and the entry gate that reads them. */
module MarketData {
  import opened Wrappers

  type Symbol = string

  // ---------- the policy ----------

  const MAX_POSITION_DEPTH_FRACTION := 0.05
  const MIN_DEPTH_NOTIONAL := 5000.0
  const MAX_SPREAD_BPS := 10.0
  const MIN_QUOTE_VOLUME_24H := 1000000.0
  const MAX_AGE_MS := 120000
  const MAX_FUTURE_SKEW_MS := 5000
  const SPEC_MAX_AGE_MS := 3600000

  datatype Source = BookEvent | BookFetch | TickerEvent | TickerFetch

  datatype Reason =
    | InstrumentNotActive | BookIncomplete
    | TimeMissing(source: Source) | TimeInFuture(source: Source) | TimeStale(source: Source)
    | SpecTimestampMissing | StaleSpecification
    | SpreadTooWide | BidDepthTooLow | AskDepthTooLow | QuoteVolumeTooLow

  datatype Status = Valid | Stale | Insufficient | SourceFailed

  datatype Assessment = Assessment(verified: bool, status: Status, reasons: seq<Reason>)

  datatype Times = Times(bookEvent: Option<int>, bookFetch: Option<int>, tickerEvent: Option<int>,
                         tickerFetch: Option<int>)

  datatype Metrics = Metrics(spreadBps: real, bidDepth: real, askDepth: real, quoteVolume: real)

  predicate MentionsTime(r: Reason) {
    r.TimeInFuture? || r.TimeStale? || r.StaleSpecification?
  }

  /** A timestamp that passes: present, positive, not too far ahead and not too old. */
  predicate TimeOk(at: Option<int>, decisionMs: int) {
    at.Some? && at.value > 0 && at.value <= decisionMs + MAX_FUTURE_SKEW_MS && decisionMs - at.value <= MAX_AGE_MS
  }

  predicate TimesOk(t: Times, decisionMs: int) {
    TimeOk(t.bookEvent, decisionMs) && TimeOk(t.bookFetch, decisionMs) && TimeOk(t.tickerEvent, decisionMs) &&
      TimeOk(t.tickerFetch, decisionMs)
  }

  predicate SpecTimeOk(specFetched: Option<int>, decisionMs: int) {
    specFetched.Some? ==> specFetched.value > 0 && decisionMs - specFetched.value <= SPEC_MAX_AGE_MS
  }

  predicate MetricsOk(m: Metrics) {
    && m.spreadBps <= MAX_SPREAD_BPS
    && m.bidDepth >= MIN_DEPTH_NOTIONAL && m.askDepth >= MIN_DEPTH_NOTIONAL
    && m.quoteVolume >= MIN_QUOTE_VOLUME_24H
  }

  /** The policy's verdict. */
  predicate Passes(active: bool, m: Metrics, t: Times, specFetched: Option<int>, decisionMs: int, bookComplete: bool) {
    active && bookComplete && TimesOk(t, decisionMs) && SpecTimeOk(specFetched, decisionMs) && MetricsOk(m)
  }

  function FlagReasons(active: bool, bookComplete: bool): seq<Reason> {
    (if active then [] else [InstrumentNotActive]) + if bookComplete then [] else [BookIncomplete]
  }

  function TimeReasons(source: Source, at: Option<int>, decisionMs: int): seq<Reason> {
    if at.None? || at.value <= 0 then [TimeMissing(source)]
    else
      (if at.value > decisionMs + MAX_FUTURE_SKEW_MS then [TimeInFuture(source)] else [])
      + if decisionMs - at.value > MAX_AGE_MS then [TimeStale(source)] else []
  }

  function SpecReasons(specFetched: Option<int>, decisionMs: int): seq<Reason> {
    if specFetched.None? then []
    else if specFetched.value <= 0 then [SpecTimestampMissing]
    else if decisionMs - specFetched.value > SPEC_MAX_AGE_MS then [StaleSpecification]
    else []
  }

  function MetricReasons(m: Metrics): seq<Reason> {
    (if m.spreadBps > MAX_SPREAD_BPS then [SpreadTooWide] else [])
    + (if m.bidDepth < MIN_DEPTH_NOTIONAL then [BidDepthTooLow] else [])
    + (if m.askDepth < MIN_DEPTH_NOTIONAL then [AskDepthTooLow] else [])
    + if m.quoteVolume < MIN_QUOTE_VOLUME_24H then [QuoteVolumeTooLow] else []
  }

  /** Every reason against, in the order they are collected. */
  function ReasonsOf(active: bool, m: Metrics, t: Times, specFetched: Option<int>, decisionMs: int,
                     bookComplete: bool): seq<Reason>
  {
    FlagReasons(active, bookComplete)
    + TimeReasons(BookEvent, t.bookEvent, decisionMs) + TimeReasons(BookFetch, t.bookFetch, decisionMs)
    + TimeReasons(TickerEvent, t.tickerEvent, decisionMs) + TimeReasons(TickerFetch, t.tickerFetch, decisionMs)
    + SpecReasons(specFetched, decisionMs)
    + MetricReasons(m)
  }

  /** Nothing speaks against exactly when the policy's conditions hold. */
  lemma NoReasonMeansPasses(active: bool, m: Metrics, t: Times, specFetched: Option<int>, decisionMs: int,
                            bookComplete: bool)
    ensures ReasonsOf(active, m, t, specFetched, decisionMs, bookComplete) == [] <==>
            Passes(active, m, t, specFetched, decisionMs, bookComplete)
  {
    TimeReasonsEmpty(BookEvent, t.bookEvent, decisionMs);
    TimeReasonsEmpty(BookFetch, t.bookFetch, decisionMs);
    TimeReasonsEmpty(TickerEvent, t.tickerEvent, decisionMs);
    TimeReasonsEmpty(TickerFetch, t.tickerFetch, decisionMs);
    hide TimeReasons, TimeOk;
  }

  lemma TimeReasonsEmpty(source: Source, at: Option<int>, decisionMs: int)
    ensures TimeReasons(source, at, decisionMs) == [] <==> TimeOk(at, decisionMs)
  {
  }

  method CheckFlags(active: bool, bookComplete: bool) returns (reasons: seq<Reason>)
    ensures reasons == FlagReasons(active, bookComplete)
  {
    reasons := [];
    if !active {
      reasons := reasons + [InstrumentNotActive];
    }
    if !bookComplete {
      reasons := reasons + [BookIncomplete];
    }
  }

  method CheckSpec(specFetched: Option<int>, decisionMs: int, reasons: seq<Reason>) returns (more: seq<Reason>)
    ensures more == reasons + SpecReasons(specFetched, decisionMs)
  {
    more := reasons;
    if specFetched.Some? {
      if specFetched.value <= 0 {
        more := more + [SpecTimestampMissing];
      } else if decisionMs - specFetched.value > SPEC_MAX_AGE_MS {
        more := more + [StaleSpecification];
      }
    }
  }

  method CheckTime(source: Source, at: Option<int>, decisionMs: int, reasons: seq<Reason>) returns (more: seq<Reason>)
    ensures more == reasons + TimeReasons(source, at, decisionMs)
  {
    more := reasons;
    if at.None? || at.value <= 0 {
      return more + [TimeMissing(source)];
    }
    if at.value > decisionMs + MAX_FUTURE_SKEW_MS {
      more := more + [TimeInFuture(source)];
    }
    if decisionMs - at.value > MAX_AGE_MS {
      more := more + [TimeStale(source)];
    }
  }

  /** The older combined timestamps stand in for missing ones. */
  function Filled(t: Times, event: Option<int>, fetched: Option<int>): Times {
    Times(if t.bookEvent.Some? then t.bookEvent else event, if t.bookFetch.Some? then t.bookFetch else fetched,
          if t.tickerEvent.Some? then t.tickerEvent else event, if t.tickerFetch.Some? then t.tickerFetch else fetched)
  }

  /** Collect every reason against; the snapshot is verified if there is none, and stale if one is about a time. */
  method EvaluateMetrics(active: bool, m: Metrics, t: Times, event: Option<int>, fetched: Option<int>,
                         specFetched: Option<int>, decisionMs: int, bookComplete: bool) returns (a: Assessment)
    ensures a == AssessmentOf(active, m, Filled(t, event, fetched), specFetched, decisionMs, bookComplete)
    ensures a.verified <==> Passes(active, m, Filled(t, event, fetched), specFetched, decisionMs, bookComplete)
  {
    hide TimeReasons, Passes, MetricReasons, SpecReasons, FlagReasons;
    var reasons := CheckFlags(active, bookComplete);
    var f := Filled(t, event, fetched);
    reasons := CheckTime(BookEvent, f.bookEvent, decisionMs, reasons);
    reasons := CheckTime(BookFetch, f.bookFetch, decisionMs, reasons);
    reasons := CheckTime(TickerEvent, f.tickerEvent, decisionMs, reasons);
    reasons := CheckTime(TickerFetch, f.tickerFetch, decisionMs, reasons);
    reasons := CheckSpec(specFetched, decisionMs, reasons);
    reasons := CheckMetrics(m, reasons);
    assert reasons == ReasonsOf(active, m, f, specFetched, decisionMs, bookComplete);
    NoReasonMeansPasses(active, m, f, specFetched, decisionMs, bookComplete);
    hide ReasonsOf;
    var verified := reasons == [];
    var hasStale := HasStale(reasons);
    a := Assessment(verified, if verified then Valid else if hasStale then Stale else Insufficient, reasons);
  }

  predicate AnyAboutTime(reasons: seq<Reason>) {
    exists i :: 0 <= i < |reasons| && MentionsTime(reasons[i])
  }

  function AssessmentOf(active: bool, m: Metrics, t: Times, specFetched: Option<int>, decisionMs: int,
                        bookComplete: bool): Assessment
  {
    var reasons := ReasonsOf(active, m, t, specFetched, decisionMs, bookComplete);
    Assessment(reasons == [], if reasons == [] then Valid else if AnyAboutTime(reasons) then Stale else Insufficient,
               reasons)
  }

  method CheckMetrics(m: Metrics, reasons: seq<Reason>) returns (more: seq<Reason>)
    ensures more == reasons + MetricReasons(m)
  {
    var against: seq<Reason> := [];
    if m.spreadBps > MAX_SPREAD_BPS {
      against := against + [SpreadTooWide];
    }
    if m.bidDepth < MIN_DEPTH_NOTIONAL {
      against := against + [BidDepthTooLow];
    }
    if m.askDepth < MIN_DEPTH_NOTIONAL {
      against := against + [AskDepthTooLow];
    }
    if m.quoteVolume < MIN_QUOTE_VOLUME_24H {
      against := against + [QuoteVolumeTooLow];
    }
    more := reasons + against;
  }

  method HasStale(reasons: seq<Reason>) returns (found: bool)
    ensures found <==> AnyAboutTime(reasons)
  {
    for i := 0 to |reasons|
      invariant forall k :: 0 <= k < i ==> !MentionsTime(reasons[k])
    {
      if MentionsTime(reasons[i]) {
        return true;
      }
    }
    found := false;
  }

  // ---------- the tables ----------

  datatype SymbolStatus = Normal | Delisted | OtherStatus(text: string)
  datatype SymbolType = Perpetual | OtherType(text: string)
  datatype Coin = Usdt | OtherCoin(text: string)
  datatype PolicyVersion = LiquidityV2 | OtherVersion(text: string)

  const POLICY_VERSION := LiquidityV2

  /** A row of instrument_specs, as far as the gate reads it. */
  datatype Spec = Spec(status: SymbolStatus, kind: SymbolType, quoteCoin: Coin, settleCoin: Coin, fetchedAt: int)

  /** A row of universe; columns may be null. */
  datatype Row = Row(
    active: bool, verified: bool, status: Status, version: Option<PolicyVersion>, times: Times,
    spreadBps: Option<real>, bidDepth: Option<real>, askDepth: Option<real>, quoteVolume: Option<real>)

  datatype Market = Market(specs: map<Symbol, Spec>, universe: map<Symbol, Row>)

  datatype ContractSpec = ContractSpec(symbol: Symbol, spec: Spec)

  const NO_TIMES := Times(None, None, None, None)

  /** On conflict only the status and the times of a spec are taken over, not what kind of contract it is. */
  function SpecUpserted(specs: map<Symbol, Spec>, c: ContractSpec): map<Symbol, Spec> {
    if c.symbol in specs then
      specs[c.symbol := specs[c.symbol].(status := c.spec.status, fetchedAt := c.spec.fetchedAt)]
    else specs[c.symbol := c.spec]
  }

  function SpecsUpserted(specs: map<Symbol, Spec>, cs: seq<ContractSpec>): (r: map<Symbol, Spec>)
    ensures specs.Keys <= r.Keys
  {
    if cs == [] then specs else SpecUpserted(SpecsUpserted(specs, cs[..|cs| - 1]), cs[|cs| - 1])
  }

  predicate ActiveIn(cs: seq<ContractSpec>, symbol: Symbol) {
    exists i :: 0 <= i < |cs| && cs[i].symbol == symbol && cs[i].spec.status.Normal?
  }

  function Deactivated(universe: map<Symbol, Row>, symbol: Symbol): Row {
    if symbol in universe then universe[symbol].(active := false, verified := false, status := Insufficient)
    else Row(false, false, Insufficient, None, NO_TIMES, None, None, None, None)
  }

  function DelistedIn(specs: map<Symbol, Spec>, gone: set<Symbol>): map<Symbol, Spec> {
    map s | s in specs :: if s in gone then specs[s].(status := Delisted) else specs[s]
  }

  function DeactivatedIn(universe: map<Symbol, Row>, gone: set<Symbol>): map<Symbol, Row> {
    map s | s in universe.Keys + gone :: if s in gone then Deactivated(universe, s) else universe[s]
  }

  /** Upsert the specs, then deactivate every known symbol that the response did not list as normal. */
  function SpecsPersisted(m: Market, cs: seq<ContractSpec>): Market {
    if cs == [] then m
    else
      var specs := SpecsUpserted(m.specs, cs);
      var gone := set s | s in specs && !ActiveIn(cs, s);
      Market(DelistedIn(specs, gone), DeactivatedIn(m.universe, gone))
  }

  lemma OneMoreGone(specs: map<Symbol, Spec>, universe: map<Symbol, Row>, gone: set<Symbol>, s: Symbol)
    requires s in specs && s !in gone
    ensures s in DelistedIn(specs, gone) && DelistedIn(specs, gone)[s] == specs[s]
    ensures DelistedIn(specs, gone + {s}) == DelistedIn(specs, gone)[s := specs[s].(status := Delisted)]
    ensures DeactivatedIn(universe, gone + {s}) ==
            DeactivatedIn(universe, gone)[s := Deactivated(DeactivatedIn(universe, gone), s)]
  {
  }

  lemma NoneGone(specs: map<Symbol, Spec>, universe: map<Symbol, Row>)
    ensures DelistedIn(specs, {}) == specs && DeactivatedIn(universe, {}) == universe
  {
  }

  function FailureRecorded(m: Market, symbol: Symbol, stale: bool): Market {
    var status := if stale then Stale else SourceFailed;
    m.(universe := m.universe[symbol :=
         if symbol in m.universe then m.universe[symbol].(verified := false, status := status)
         else Row(false, false, status, Some(POLICY_VERSION), NO_TIMES, None, None, None, None)])
  }

  function SnapshotRow(a: Assessment, x: Metrics, t: Times): Row {
    Row(true, a.verified, a.status, Some(POLICY_VERSION), t, Some(x.spreadBps), Some(x.bidDepth), Some(x.askDepth),
        Some(x.quoteVolume))
  }

  function SnapshotPersisted(m: Market, symbol: Symbol, a: Assessment, x: Metrics, t: Times): Market {
    m.(universe := m.universe[symbol := SnapshotRow(a, x, t)])
  }

  // ---------- the gate ----------

  /** Fresh at the decision: not too far ahead and not too old. */
  predicate Fresh(at: int, decisionMs: int, maxAge: int) {
    -MAX_FUTURE_SKEW_MS <= decisionMs - at <= maxAge
  }

  predicate AllFresh(t: Times, decisionMs: int) {
    && t.bookEvent.Some? && Fresh(t.bookEvent.value, decisionMs, MAX_AGE_MS)
    && t.bookFetch.Some? && Fresh(t.bookFetch.value, decisionMs, MAX_AGE_MS)
    && t.tickerEvent.Some? && Fresh(t.tickerEvent.value, decisionMs, MAX_AGE_MS)
    && t.tickerFetch.Some? && Fresh(t.tickerFetch.value, decisionMs, MAX_AGE_MS)
  }

  function SideDepth(row: Row, direction: int): Option<real> {
    if direction == 1 then row.askDepth else row.bidDepth
  }

  method LiquidityIsVerified(m: Market, symbol: Symbol, decisionMs: int, notional: Option<real>, direction: Option<int>)
    returns (ok: bool)
    ensures ok <==> GatePasses(m, symbol, decisionMs, notional, direction)
  {
    if symbol !in m.universe || symbol !in m.specs {
      return false;
    }
    var row, spec := m.universe[symbol], m.specs[symbol];
    if !row.active || !row.verified || !row.status.Valid? {
      return false;
    }
    if row.version != Some(POLICY_VERSION) {
      return false;
    }
    if !AllFresh(row.times, decisionMs) {
      return false;
    }
    var specAge := decisionMs - spec.fetchedAt;
    if specAge < -MAX_FUTURE_SKEW_MS || specAge > SPEC_MAX_AGE_MS {
      return false;
    }
    if !spec.status.Normal? || !spec.kind.Perpetual? || !spec.quoteCoin.Usdt? || !spec.settleCoin.Usdt? {
      return false;
    }
    if notional.None? || direction.None? || direction.value !in {-1, 1} {
      return false;
    }
    var depth := SideDepth(row, direction.value);
    if depth.None? {
      return false;
    }
    ok := 0.0 < notional.value <= depth.value * MAX_POSITION_DEPTH_FRACTION;
  }

  predicate GatePasses(m: Market, symbol: Symbol, decisionMs: int, notional: Option<real>, direction: Option<int>) {
    && symbol in m.universe && symbol in m.specs
    && var row, spec := m.universe[symbol], m.specs[symbol];
    && row.active && row.verified && row.status.Valid? && row.version == Some(POLICY_VERSION)
    && AllFresh(row.times, decisionMs)
    && Fresh(spec.fetchedAt, decisionMs, SPEC_MAX_AGE_MS)
    && spec.status.Normal? && spec.kind.Perpetual? && spec.quoteCoin.Usdt? && spec.settleCoin.Usdt?
    && notional.Some? && (direction == Some(1) || direction == Some(-1))
    && var depth := SideDepth(row, direction.value);
    depth.Some? && 0.0 < notional.value <= depth.value * MAX_POSITION_DEPTH_FRACTION
  }
}
