/**
 * The per-tick decision engine of OnData as functions on a value. The five
 * per-ticker dictionaries of the algorithm (status, option_symbols,
 * expiration, days_pause_left, stop_loss) always share their keys, so the
 * value keeps them as one map from ticker to a row of five entries; it also
 * holds the last VIX verdict and the log of requests handed to the host.
 * Each phase of OnData is one function, in the order the source runs them:
 * VIX kill-switch, expiration-day close, stop-loss, then the hourly scan of
 * the option chains.
 */
module Engine {
  import opened Types
  import opened Selection
  import opened Rules

  /** One ticker's entries in the five dictionaries. `symbols` is None for
      the initial `(None, None)` pair. */
  datatype Row = Row(
    status: Status,
    symbols: Option<Pair>,
    expiration: Option<Day>,
    pause: nat,
    stop: Option<real>)

  datatype Book = Book(rows: map<Ticker, Row>, vixSpike: bool, effects: seq<Effect>)

  /** Every ticker of stock_list has bounds. */
  ghost predicate ConfigOk(cfg: Config) {
    forall i :: 0 <= i < |cfg.stockList| ==> cfg.stockList[i] in cfg.bounds
  }

  /** The dictionaries are keyed by the tickers the bounds are given for. */
  ghost predicate Fits(cfg: Config, b: Book) {
    ConfigOk(cfg) && b.rows.Keys == cfg.bounds.Keys
  }

  /** The configured short strategy is not the label the long-straddle
      branch writes; otherwise a long entry would hold ShortStrat without a
      stop-loss level. */
  ghost predicate Sound(cfg: Config) {
    ConfigOk(cfg) && cfg.shortStrat != Straddle
  }

  /** What holds of one ticker between ticks: status is "None" exactly when
      no expiration is recorded; a held strategy has its pair of contracts
      recorded; the short strategy has a stop-loss level. */
  ghost predicate RowOk(cfg: Config, row: Row) {
    && (row.status == Flat <==> row.expiration == None)
    && (row.status.Holding? ==> row.symbols.Some?)
    && (row.status == Holding(cfg.shortStrat) ==> row.stop.Some?)
  }

  ghost predicate Consistent(cfg: Config, b: Book) {
    forall u :: u in b.rows ==> RowOk(cfg, b.rows[u])
  }

  /** The dictionaries as Initialize builds them. */
  function Initial(cfg: Config): (b: Book)
    ensures b.rows.Keys == cfg.bounds.Keys
    ensures Consistent(cfg, b)
    ensures forall u :: u in b.rows ==> b.rows[u].status == Flat && b.rows[u].pause == 0
    ensures b.effects == [] && !b.vixSpike
  {
    Book(map u | u in cfg.bounds.Keys :: Row(Flat, None, None, 0, None), false, [])
  }

  function ContractOf(held: Option<Pair>, first: bool): Option<ContractId> {
    match held
    case None => None
    case Some(p) => Some(if first then p.call else p.put)
  }

  /** Liquidate(ticker), Liquidate(option_symbols[ticker][0]),
      Liquidate(option_symbols[ticker][1]). */
  function Liquidation(u: Ticker, row: Row): seq<Effect> {
    [LiquidateTicker(u),
     LiquidateContract(ContractOf(row.symbols, true)),
     LiquidateContract(ContractOf(row.symbols, false))]
  }

  /** A row after an exit: status "None", no expiration, and possibly a new
      pause. The recorded pair and the stop-loss level stay. */
  function Closed(row: Row, pause: Option<nat>): Row {
    row.(status := Flat, expiration := None, pause := if pause.Some? then pause.value else row.pause)
  }

  /** The flattening every exit shares: liquidate, then close the row. */
  function Flatten(b: Book, u: Ticker, pause: Option<nat>): (r: Book)
    requires u in b.rows
    ensures r.rows.Keys == b.rows.Keys
    ensures forall v :: v in b.rows && v != u ==> r.rows[v] == b.rows[v]
    ensures r.rows[u].status == Flat && r.rows[u].expiration == None
    ensures r.rows[u].symbols == b.rows[u].symbols && r.rows[u].stop == b.rows[u].stop
    ensures r.vixSpike == b.vixSpike && b.effects <= r.effects
    ensures r.effects == b.effects + Liquidation(u, b.rows[u])
  {
    b.(rows := b.rows[u := Closed(b.rows[u], pause)], effects := b.effects + Liquidation(u, b.rows[u]))
  }

  /** Reference definition of what a sweep over `us` liquidates: walking
      the list in order, each ticker of `hit` is liquidated the first time
      it comes up, with the pair recorded in `rows`; tickers outside `hit`
      and repeated entries add nothing. */
  function Closings(rows: map<Ticker, Row>, us: seq<Ticker>, hit: set<Ticker>): seq<Effect>
    requires forall v :: v in us ==> v in rows
    decreases |us|
  {
    if us == [] then []
    else if us[0] in hit then Liquidation(us[0], rows[us[0]]) + Closings(rows, us[1..], hit - {us[0]})
    else Closings(rows, us[1..], hit)
  }

  /** The tickers of `rows` holding the short straddle. */
  function ShortHeld(cfg: Config, rows: map<Ticker, Row>): set<Ticker> {
    set v | v in rows && rows[v].status == Holding(cfg.shortStrat)
  }

  /** The tickers of `rows` whose recorded expiration is `today`. */
  function DueOn(rows: map<Ticker, Row>, today: Day): set<Ticker> {
    set v | v in rows && rows[v].expiration == Some(today)
  }

  /** The tickers of `rows` whose short straddle is through its stop. */
  function StopsHit(cfg: Config, rows: map<Ticker, Row>, ask: ContractId -> real): set<Ticker> {
    set v | v in rows && StopHit(cfg, rows[v], ask)
  }

  // ---------------------------------------------------------------- VIX

  function VixStep(cfg: Config, b: Book, u: Ticker): (r: Book)
    requires u in b.rows
    ensures r.rows.Keys == b.rows.Keys
    ensures forall v :: v in b.rows && v != u ==> r.rows[v] == b.rows[v]
    ensures r.vixSpike == b.vixSpike && b.effects <= r.effects
    ensures r.rows[u].symbols == b.rows[u].symbols
    ensures r.effects == b.effects + if b.rows[u].status == Holding(cfg.shortStrat) then Liquidation(u, b.rows[u]) else []
  {
    var b1 := if b.rows[u].status == Holding(cfg.shortStrat) then Flatten(b, u, None) else b;
    b1.(rows := b1.rows[u := b1.rows[u].(pause := cfg.vixPause)])
  }

  function VixSweep(cfg: Config, b: Book, us: seq<Ticker>): (r: Book)
    requires forall u :: u in us ==> u in b.rows
    ensures r.rows.Keys == b.rows.Keys
    ensures r.vixSpike == b.vixSpike && b.effects <= r.effects
    decreases |us|
  {
    if us == [] then b
    else
      VixSweep(cfg, VixStep(cfg, b, us[0]), us[1..])
  }

  /** The VIX block once the indicator is on: record the verdict and, on
      a spike, sweep stock_list. */
  function VixCheck(cfg: Config, b: Book, spike: bool): (r: Book)
    requires Fits(cfg, b)
    ensures Fits(cfg, r)
    ensures r.vixSpike == spike
    ensures b.effects <= r.effects
  {
    var b1 := b.(vixSpike := spike);
    if spike then VixSweep(cfg, b1, cfg.stockList) else b1
  }

  // --------------------------------------------------------- Expiration

  function ExpiryStep(cfg: Config, b: Book, u: Ticker, today: Day): (r: Book)
    requires u in b.rows
    ensures r.rows.Keys == b.rows.Keys
    ensures forall v :: v in b.rows && v != u ==> r.rows[v] == b.rows[v]
    ensures b.effects <= r.effects
    ensures r.rows[u].symbols == b.rows[u].symbols
    ensures r.effects == b.effects + if b.rows[u].expiration == Some(today) then Liquidation(u, b.rows[u]) else []
  {
    if b.rows[u].expiration == Some(today) then Flatten(b, u, Some(cfg.vixPause)) else b
  }

  function ExpirySweep(cfg: Config, b: Book, us: seq<Ticker>, today: Day): (r: Book)
    requires forall u :: u in us ==> u in b.rows
    ensures r.rows.Keys == b.rows.Keys
    ensures b.effects <= r.effects
    decreases |us|
  {
    if us == [] then b
    else
      ExpirySweep(cfg, ExpiryStep(cfg, b, us[0], today), us[1..], today)
  }

  // ---------------------------------------------------------- Stop-loss

  /** The short straddle of a row has gone through its stop: the current
      ask of the pair exceeds the level recorded at entry. The source's
      `self.stop_loss != None` compares the whole dictionary with None and
      always holds, so only the status decides. A short status without a
      recorded pair or level cannot occur in a Consistent book (the source
      would raise there). */
  predicate StopHit(cfg: Config, row: Row, ask: ContractId -> real) {
    && row.status == Holding(cfg.shortStrat)
    && row.symbols.Some? && row.stop.Some?
    && ask(row.symbols.value.call) + ask(row.symbols.value.put) > row.stop.value
  }

  function StopLossStep(cfg: Config, b: Book, u: Ticker, ask: ContractId -> real): (r: Book)
    requires u in b.rows
    ensures r.rows.Keys == b.rows.Keys
    ensures forall v :: v in b.rows && v != u ==> r.rows[v] == b.rows[v]
    ensures b.effects <= r.effects
    ensures r.rows[u].symbols == b.rows[u].symbols
    ensures r.effects == b.effects + if StopHit(cfg, b.rows[u], ask) then Liquidation(u, b.rows[u]) else []
  {
    if StopHit(cfg, b.rows[u], ask) then
      var f := Flatten(b, u, Some(cfg.pauseLength));
      f.(rows := f.rows[u := f.rows[u].(stop := None)])
    else b
  }

  function StopLossSweep(cfg: Config, b: Book, us: seq<Ticker>, ask: ContractId -> real): (r: Book)
    requires forall u :: u in us ==> u in b.rows
    ensures r.rows.Keys == b.rows.Keys
    ensures b.effects <= r.effects
    decreases |us|
  {
    if us == [] then b
    else
      StopLossSweep(cfg, StopLossStep(cfg, b, us[0], ask), us[1..], ask)
  }

  // ------------------------------------------------------------ Entries

  /** Long straddle entry: buy the call and put, each for the smaller of
      the two order sizes; record the pair, the label and the call's
      expiry. */
  function EnterLong(b: Book, u: Ticker, call: Contract, put: Contract, m: Market): (r: Book)
    requires u in b.rows
    ensures r.rows.Keys == b.rows.Keys
    ensures forall v :: v in b.rows && v != u ==> r.rows[v] == b.rows[v]
    ensures r.rows[u].status == Holding(Straddle) && r.rows[u].expiration.Some?
    ensures b.effects <= r.effects && |r.effects| == |b.effects| + 2
  {
    var q := LegQuantity(m.orderQuantity(call.symbol), m.orderQuantity(put.symbol));
    var row := b.rows[u].(status := Holding(Straddle), symbols := Some(Pair(call.symbol, put.symbol)),
                          expiration := Some(call.expiry));
    b.(rows := b.rows[u := row],
       effects := b.effects + [MarketOrder(call.symbol, q), MarketOrder(put.symbol, q)])
  }

  /** Short straddle entry: sell the call and put, record the pair, the
      call's expiry, the label and the stop-loss level, and undo the entry
      at once when the put did not fill. */
  function EnterShort(cfg: Config, b: Book, u: Ticker, call: Contract, put: Contract, m: Market): (r: Book)
    requires u in b.rows
    ensures r.rows.Keys == b.rows.Keys
    ensures forall v :: v in b.rows && v != u ==> r.rows[v] == b.rows[v]
    ensures r.rows[u].status == Holding(ShortStraddle) || r.rows[u].status == Flat
    ensures r.rows[u].stop.Some?
    ensures b.effects <= r.effects
  {
    var q := -LegQuantity(m.orderQuantity(call.symbol), m.orderQuantity(put.symbol));
    var row := b.rows[u].(status := Holding(ShortStraddle), symbols := Some(Pair(call.symbol, put.symbol)),
                          expiration := Some(call.expiry),
                          stop := Some(StopLossLevel(cfg.stopPercentage, call.askPrice, put.askPrice)));
    var entered := b.(rows := b.rows[u := row],
                      effects := b.effects + [MarketOrder(call.symbol, q), MarketOrder(put.symbol, q)]);
    if !m.invested(put.symbol) then Flatten(entered, u, None) else entered
  }

  // --------------------------------------------------------- Chain scan

  /** The calls and puts of the chain's farthest expiry. */
  function FrontCalls(chain: seq<Contract>): seq<Contract>
    requires chain != []
  {
    OfRight(FrontMonth(chain), Call)
  }

  function FrontPuts(chain: seq<Contract>): seq<Contract>
    requires chain != []
  {
    OfRight(FrontMonth(chain), Put)
  }

  /** The sizes of the moneyness lists the multi-leg branches index: OTM
      calls, ITM calls, OTM puts. */
  datatype Tiers = Tiers(otmCalls: nat, itmCalls: nat, otmPuts: nat)

  /** What the loop body reads off a chain before it looks at the ticker. */
  datatype Survey =
    | NoExpiry    // the chain is empty: `max` of no expiries raises
    | OneSided    // no calls or no puts at the farthest expiry: `return`
    | Surveyed(call: Contract, put: Contract, tiers: Tiers)

  /** The at-the-money call and put of the farthest expiry, and the list
      sizes. */
  function SurveyChain(chain: seq<Contract>): (r: Survey)
    ensures r == NoExpiry <==> chain == []
    ensures r.Surveyed? ==> r.call in chain && r.call.right == Call && r.put in chain && r.put.right == Put
  {
    if chain == [] then NoExpiry
    else
      var calls := FrontCalls(chain);
      var puts := FrontPuts(chain);
      if calls == [] || puts == [] then OneSided
      else Surveyed(Atm(calls), Atm(puts), Tiers(|OtmCalls(calls)|, |ItmCalls(calls)|, |OtmPuts(puts)|))
  }

  /** How the branches of the multi-leg labels end. Their order blocks
      test the whole status dictionary against "None", which never holds,
      so all they can do is return early (Strangle, Butterfly) or raise
      (Condor and the iron strategies index a tier without a guard) when
      a list is too short for the tier they need. */
  function MultiLegFlow(strategy: Strategy, t: Tiers): (r: Flow)
    ensures strategy == Straddle || strategy == ShortStraddle ==> r == Proceed
    ensures strategy == Strangle || strategy == Butterfly ==> r != Raised
    ensures strategy == Condor || strategy == IronButterfly || strategy == IronCondor ==> r != Returned
  {
    match strategy
    case Strangle =>
      if t.otmCalls < STRANGLE_TIER + 1 || t.otmPuts < STRANGLE_TIER + 1 then Returned else Proceed
    case Butterfly =>
      if t.otmCalls < BUTTERFLY_TIER + 1 || t.itmCalls < BUTTERFLY_TIER + 1 then Returned else Proceed
    case Condor =>
      if t.otmCalls < CONDOR_BUY_TIER + 1 || t.itmCalls < CONDOR_BUY_TIER + 1 then Raised else Proceed
    case IronButterfly =>
      if t.otmCalls < IRON_BUTTERFLY_TIER + 1 || t.itmCalls < IRON_BUTTERFLY_TIER + 1 then Raised else Proceed
    case IronCondor =>
      if t.otmCalls < IRON_CONDOR_BUY_TIER + 1 || t.otmPuts < IRON_CONDOR_BUY_TIER + 1 then Raised else Proceed
    case _ => Proceed
  }

  /** The entry branches for the chosen label. */
  function Enter(cfg: Config, b: Book, u: Ticker, strategy: Option<Strategy>,
                 call: Contract, put: Contract, t: Tiers, m: Market): (r: (Book, Flow))
    requires u in b.rows
    ensures r.0.rows.Keys == b.rows.Keys
    ensures r.1 != Proceed ==> r.0 == b
    ensures b.effects <= r.0.effects
  {
    match strategy
    case None => (b, Proceed)
    case Some(Straddle) =>
      (if b.rows[u].status == Flat then EnterLong(b, u, call, put, m) else b, Proceed)
    case Some(ShortStraddle) =>
      (if b.rows[u].status == Flat then EnterShort(cfg, b, u, call, put, m) else b, Proceed)
    case Some(s) => (b, MultiLegFlow(s, t))
  }

  /** The loop body once the ticker is known: count the pause down at
      16:00 or skip while paused; otherwise the first exit that applies,
      or else the entry the spread calls for. */
  function Decide(cfg: Config, b: Book, u: Ticker, call: Contract, put: Contract, t: Tiers,
                  clock: Clock, m: Market): (r: (Book, Flow))
    requires Fits(cfg, b) && u in b.rows
    ensures r.0.rows.Keys == b.rows.Keys
    ensures r.1 != Proceed ==> r.0 == b
    ensures b.effects <= r.0.effects
  {
    var row := b.rows[u];
    if row.pause > 0 && clock.hour == 16 && clock.minute == 0 then
      (b.(rows := b.rows[u := row.(pause := row.pause - 1)]), Proceed)
    else if row.pause > 0 then (b, Proceed)
    else
      var sp := m.spreads(u);
      match ExitRule(cfg, cfg.bounds[u], row.status, sp)
      case Some(k) => (Flatten(b, u, ExitPause(cfg, k)), Proceed)
      case None => Enter(cfg, b, u, StrategyFor(cfg, Choose(cfg.bounds[u], sp.hvIv)), call, put, t, m)
  }

  /** The loop body once the chain has been surveyed; a chain whose ticker
      is not traded is skipped. */
  function Visit(cfg: Config, b: Book, s: Survey, clock: Clock, m: Market): (r: (Book, Flow))
    requires Fits(cfg, b)
    ensures Fits(cfg, r.0)
    ensures r.1 != Proceed ==> r.0 == b
    ensures b.effects <= r.0.effects
  {
    match s
    case NoExpiry => (b, Raised)
    case OneSided => (b, Returned)
    case Surveyed(call, put, t) =>
      if call.underlying !in b.rows then (b, Proceed)
      else Decide(cfg, b, call.underlying, call, put, t, clock, m)
  }

  /** One pass of the `for chain in slice.OptionChains` loop body. */
  function EvaluateChain(cfg: Config, b: Book, chain: seq<Contract>, clock: Clock, m: Market): (r: (Book, Flow))
    requires Fits(cfg, b)
    ensures Fits(cfg, r.0)
    ensures chain == [] ==> r == (b, Raised)
    ensures r.1 != Proceed ==> r.0 == b
    ensures b.effects <= r.0.effects
  {
    Visit(cfg, b, SurveyChain(chain), clock, m)
  }

  /** The chain loop: stops at the first chain that returns or raises. */
  function ScanChains(cfg: Config, b: Book, chains: seq<seq<Contract>>, clock: Clock, m: Market): (r: (Book, Flow))
    requires Fits(cfg, b)
    ensures Fits(cfg, r.0)
    ensures b.effects <= r.0.effects
    decreases |chains|
  {
    if chains == [] then (b, Proceed)
    else
      var r1 := EvaluateChain(cfg, b, chains[0], clock, m);
      if r1.1 == Proceed then ScanChains(cfg, r1.0, chains[1..], clock, m) else r1
  }

  /** The phases before the scan: VIX check (when the indicator is on),
      the 15:40 expiration close, and the stop-loss sweep. */
  function Guard(cfg: Config, b: Book, t: Tick, m: Market): (r: Book)
    requires Fits(cfg, b)
    ensures Fits(cfg, r)
    ensures b.effects <= r.effects
  {
    var b1 := if cfg.vixIndicatorOn then VixCheck(cfg, b, t.vixSpike) else b;
    var b2 := if t.time.hour == 15 && t.time.minute == 40
              then ExpirySweep(cfg, b1, cfg.stockList, t.time.day) else b1;
    StopLossSweep(cfg, b2, cfg.stockList, m.askPrice)
  }

  /** One call of OnData. */
  function Step(cfg: Config, b: Book, t: Tick, m: Market): (r: (Book, Flow))
    requires Fits(cfg, b)
    ensures Fits(cfg, r.0)
    ensures t.warmingUp ==> r == (b, Returned)
    ensures r.1 != Proceed ==> t.warmingUp || t.time.minute == 0
    ensures b.effects <= r.0.effects
  {
    if t.warmingUp then (b, Returned)
    else
      var b3 := Guard(cfg, b, t, m);
      if t.time.minute == 0 then ScanChains(cfg, b3, t.chains, t.time, m) else (b3, Proceed)
  }

  // ------------------------------------------------- Invariant preserved

  lemma FlattenConsistent(cfg: Config, b: Book, u: Ticker, pause: Option<nat>)
    requires u in b.rows && Consistent(cfg, b)
    ensures Consistent(cfg, Flatten(b, u, pause))
  {
  }

  lemma {:induction false} VixSweepConsistent(cfg: Config, b: Book, us: seq<Ticker>)
    requires (forall u :: u in us ==> u in b.rows) && Consistent(cfg, b)
    ensures Consistent(cfg, VixSweep(cfg, b, us))
    decreases |us|
  {
    if us != [] {
      VixSweepConsistent(cfg, VixStep(cfg, b, us[0]), us[1..]);
    }
  }

  lemma {:induction false} ExpirySweepConsistent(cfg: Config, b: Book, us: seq<Ticker>, today: Day)
    requires (forall u :: u in us ==> u in b.rows) && Consistent(cfg, b)
    ensures Consistent(cfg, ExpirySweep(cfg, b, us, today))
    decreases |us|
  {
    if us != [] {
      ExpirySweepConsistent(cfg, ExpiryStep(cfg, b, us[0], today), us[1..], today);
    }
  }

  lemma {:induction false} StopLossSweepConsistent(cfg: Config, b: Book, us: seq<Ticker>, ask: ContractId -> real)
    requires (forall u :: u in us ==> u in b.rows) && Consistent(cfg, b)
    ensures Consistent(cfg, StopLossSweep(cfg, b, us, ask))
    decreases |us|
  {
    if us != [] {
      StopLossSweepConsistent(cfg, StopLossStep(cfg, b, us[0], ask), us[1..], ask);
    }
  }

  lemma EnterConsistent(cfg: Config, b: Book, u: Ticker, strategy: Option<Strategy>,
                        call: Contract, put: Contract, t: Tiers, m: Market)
    requires Sound(cfg) && u in b.rows && Consistent(cfg, b)
    ensures Consistent(cfg, Enter(cfg, b, u, strategy, call, put, t, m).0)
  {
  }

  lemma DecideConsistent(cfg: Config, b: Book, u: Ticker, call: Contract, put: Contract, t: Tiers,
                         clock: Clock, m: Market)
    requires Sound(cfg) && Fits(cfg, b) && u in b.rows && Consistent(cfg, b)
    ensures Consistent(cfg, Decide(cfg, b, u, call, put, t, clock, m).0)
  {
    if b.rows[u].pause == 0 {
      var sp := m.spreads(u);
      if ExitRule(cfg, cfg.bounds[u], b.rows[u].status, sp).None? {
        EnterConsistent(cfg, b, u, StrategyFor(cfg, Choose(cfg.bounds[u], sp.hvIv)), call, put, t, m);
      }
    }
  }

  lemma VisitConsistent(cfg: Config, b: Book, s: Survey, clock: Clock, m: Market)
    requires Sound(cfg) && Fits(cfg, b) && Consistent(cfg, b)
    ensures Consistent(cfg, Visit(cfg, b, s, clock, m).0)
  {
    if s.Surveyed? && s.call.underlying in b.rows {
      DecideConsistent(cfg, b, s.call.underlying, s.call, s.put, s.tiers, clock, m);
    }
  }

  lemma {:induction false} ScanChainsConsistent(cfg: Config, b: Book, chains: seq<seq<Contract>>, clock: Clock, m: Market)
    requires Sound(cfg) && Fits(cfg, b) && Consistent(cfg, b)
    ensures Consistent(cfg, ScanChains(cfg, b, chains, clock, m).0)
    decreases |chains|
  {
    if chains != [] {
      var r1 := EvaluateChain(cfg, b, chains[0], clock, m);
      VisitConsistent(cfg, b, SurveyChain(chains[0]), clock, m);
      if r1.1 == Proceed {
        ScanChainsConsistent(cfg, r1.0, chains[1..], clock, m);
      }
    }
  }

  /** OnData keeps the per-ticker invariant: "None" exactly when no
      expiration is recorded, a held strategy has its pair, a short
      straddle has its stop-loss level. */
  lemma StepConsistent(cfg: Config, b: Book, t: Tick, m: Market)
    requires Sound(cfg) && Fits(cfg, b) && Consistent(cfg, b)
    ensures Consistent(cfg, Step(cfg, b, t, m).0)
  {
    if !t.warmingUp {
      var b1 := if cfg.vixIndicatorOn then VixCheck(cfg, b, t.vixSpike) else b;
      if cfg.vixIndicatorOn && t.vixSpike {
        VixSweepConsistent(cfg, b.(vixSpike := t.vixSpike), cfg.stockList);
      }
      var b2 := if t.time.hour == 15 && t.time.minute == 40
                then ExpirySweep(cfg, b1, cfg.stockList, t.time.day) else b1;
      if t.time.hour == 15 && t.time.minute == 40 {
        ExpirySweepConsistent(cfg, b1, cfg.stockList, t.time.day);
      }
      StopLossSweepConsistent(cfg, b2, cfg.stockList, m.askPrice);
      if t.time.minute == 0 {
        ScanChainsConsistent(cfg, Guard(cfg, b, t, m), t.chains, t.time, m);
      }
    }
  }

  // ------------------------------------------------ What each phase does

  lemma InHeadOrTail<T>(s: seq<T>, x: T)
    requires s != []
    ensures x in s <==> x == s[0] || x in s[1..]
  {
    assert s == [s[0]] + s[1..];
  }

  /** What the VIX sweep does to ticker `u`: on the list, a short straddle
      is closed, and every listed ticker is paused for vix_pause days; off
      the list the row is unchanged. */
  lemma {:induction false} VixSweepAt(cfg: Config, b: Book, us: seq<Ticker>, u: Ticker)
    requires (forall v :: v in us ==> v in b.rows) && u in b.rows
    ensures var row := b.rows[u];
      VixSweep(cfg, b, us).rows[u] ==
        if u !in us then row
        else if row.status == Holding(cfg.shortStrat) then Closed(row, Some(cfg.vixPause))
        else row.(pause := cfg.vixPause)
    decreases |us|
  {
    if us != [] {
      InHeadOrTail(us, u);
      VixSweepAt(cfg, VixStep(cfg, b, us[0]), us[1..], u);
    }
  }

  /** What the 15:40 sweep does to ticker `u`: on the list and due today,
      its row is closed and paused for vix_pause days; otherwise it is
      unchanged. */
  lemma {:induction false} ExpirySweepAt(cfg: Config, b: Book, us: seq<Ticker>, today: Day, u: Ticker)
    requires (forall v :: v in us ==> v in b.rows) && u in b.rows
    ensures var row := b.rows[u];
      ExpirySweep(cfg, b, us, today).rows[u] ==
        if u in us && row.expiration == Some(today) then Closed(row, Some(cfg.vixPause)) else row
    decreases |us|
  {
    if us != [] {
      InHeadOrTail(us, u);
      ExpirySweepAt(cfg, ExpiryStep(cfg, b, us[0], today), us[1..], today, u);
    }
  }

  /** What the stop-loss sweep does to ticker `u`: on the list and through
      its stop, its row is closed, paused for pause_length days and loses
      its stop level; otherwise it is unchanged. */
  lemma {:induction false} StopLossSweepAt(cfg: Config, b: Book, us: seq<Ticker>, ask: ContractId -> real, u: Ticker)
    requires (forall v :: v in us ==> v in b.rows) && u in b.rows
    ensures var row := b.rows[u];
      StopLossSweep(cfg, b, us, ask).rows[u] ==
        if u in us && StopHit(cfg, row, ask) then Closed(row, Some(cfg.pauseLength)).(stop := None) else row
    decreases |us|
  {
    if us != [] {
      InHeadOrTail(us, u);
      StopLossSweepAt(cfg, StopLossStep(cfg, b, us[0], ask), us[1..], ask, u);
    }
  }

  /** After the stop-loss sweep no listed ticker holds a short straddle
      whose pair costs more than its stop. */
  lemma StopLossSweepLeavesNoBreach(cfg: Config, b: Book, us: seq<Ticker>, ask: ContractId -> real)
    requires forall u :: u in us ==> u in b.rows
    ensures var r := StopLossSweep(cfg, b, us, ask);
      forall u :: u in us ==> !StopHit(cfg, r.rows[u], ask)
  {
    forall u | u in us
      ensures !StopHit(cfg, StopLossSweep(cfg, b, us, ask).rows[u], ask)
    {
      StopLossSweepAt(cfg, b, us, ask, u);
    }
  }

  /** `Closings` reads a row only for its recorded pair. */
  lemma {:induction false} ClosingsFrame(rows: map<Ticker, Row>, rows': map<Ticker, Row>, us: seq<Ticker>, hit: set<Ticker>)
    requires forall v :: v in us ==> v in rows && v in rows' && rows'[v].symbols == rows[v].symbols
    ensures Closings(rows', us, hit) == Closings(rows, us, hit)
    decreases |us|
  {
    if us != [] {
      ClosingsFrame(rows, rows', us[1..], hit - {us[0]});
      ClosingsFrame(rows, rows', us[1..], hit);
    }
  }

  /** Each ticker is liquidated at most once: exactly once when it is listed
      and in `hit`, never otherwise. */
  lemma {:induction false} ClosingsOnce(rows: map<Ticker, Row>, us: seq<Ticker>, hit: set<Ticker>, v: Ticker)
    requires forall w :: w in us ==> w in rows
    ensures multiset(Closings(rows, us, hit))[LiquidateTicker(v)] == if v in us && v in hit then 1 else 0
    decreases |us|
  {
    if us != [] {
      InHeadOrTail(us, v);
      if us[0] in hit {
        ClosingsOnce(rows, us[1..], hit - {us[0]}, v);
        assert multiset(Liquidation(us[0], rows[us[0]]))[LiquidateTicker(v)] == if v == us[0] then 1 else 0;
      } else {
        ClosingsOnce(rows, us[1..], hit, v);
      }
    }
  }

  /** One step of a sweep: the head's liquidation, if any, then the rest
      of the list with the head taken out of `hit`, read from any rows that
      keep the recorded pairs. */
  lemma ClosingsUnfold(rows: map<Ticker, Row>, rows': map<Ticker, Row>, us: seq<Ticker>, hit: set<Ticker>)
    requires us != [] && forall v :: v in us ==> v in rows && v in rows' && rows'[v].symbols == rows[v].symbols
    ensures Closings(rows, us, hit)
         == (if us[0] in hit then Liquidation(us[0], rows[us[0]]) else []) + Closings(rows', us[1..], hit - {us[0]})
  {
    ClosingsFrame(rows, rows', us[1..], hit - {us[0]});
    if us[0] !in hit {
      assert hit - {us[0]} == hit;
    }
  }

  /** A sweep's log after its first step: what the step appended followed
      by the rest of the sweep's liquidations is the whole sweep's. */
  lemma SweepHead(b: Book, b1: Book, us: seq<Ticker>, hit: set<Ticker>)
    requires us != [] && forall v :: v in us ==> v in b.rows && v in b1.rows && b1.rows[v].symbols == b.rows[v].symbols
    requires b1.effects == b.effects + if us[0] in hit then Liquidation(us[0], b.rows[us[0]]) else []
    ensures b1.effects + Closings(b1.rows, us[1..], hit - {us[0]}) == b.effects + Closings(b.rows, us, hit)
  {
    var head := if us[0] in hit then Liquidation(us[0], b.rows[us[0]]) else [];
    var rest := Closings(b1.rows, us[1..], hit - {us[0]});
    ClosingsUnfold(b.rows, b1.rows, us, hit);
    AppendAssoc(b.effects, head, rest);
  }

  lemma AppendAssoc<T>(x: seq<T>, y: seq<T>, z: seq<T>)
    ensures (x + y) + z == x + (y + z)
  {
  }

  lemma ShortHeldAfterStep(cfg: Config, b: Book, u: Ticker)
    requires u in b.rows
    ensures ShortHeld(cfg, VixStep(cfg, b, u).rows) == ShortHeld(cfg, b.rows) - {u}
  {
  }

  lemma DueOnAfterStep(cfg: Config, b: Book, u: Ticker, today: Day)
    requires u in b.rows
    ensures DueOn(ExpiryStep(cfg, b, u, today).rows, today) == DueOn(b.rows, today) - {u}
  {
  }

  lemma StopsHitAfterStep(cfg: Config, b: Book, u: Ticker, ask: ContractId -> real)
    requires u in b.rows
    ensures StopsHit(cfg, StopLossStep(cfg, b, u, ask).rows, ask) == StopsHit(cfg, b.rows, ask) - {u}
  {
  }

  /** The liquidations of the VIX sweep: the listed tickers that held the
      short straddle when the sweep began, each once, in list order. */
  lemma {:induction false} VixSweepLog(cfg: Config, b: Book, us: seq<Ticker>)
    requires forall v :: v in us ==> v in b.rows
    ensures VixSweep(cfg, b, us).effects == b.effects + Closings(b.rows, us, ShortHeld(cfg, b.rows))
    decreases |us|
  {
    if us != [] {
      var b1 := VixStep(cfg, b, us[0]);
      VixSweepLog(cfg, b1, us[1..]);
      ShortHeldAfterStep(cfg, b, us[0]);
      SweepHead(b, b1, us, ShortHeld(cfg, b.rows));
    }
  }

  /** The liquidations of the 15:40 sweep: the listed tickers due today
      when the sweep began, each once, in list order. */
  lemma {:induction false} ExpirySweepLog(cfg: Config, b: Book, us: seq<Ticker>, today: Day)
    requires forall v :: v in us ==> v in b.rows
    ensures ExpirySweep(cfg, b, us, today).effects == b.effects + Closings(b.rows, us, DueOn(b.rows, today))
    decreases |us|
  {
    if us != [] {
      var b1 := ExpiryStep(cfg, b, us[0], today);
      ExpirySweepLog(cfg, b1, us[1..], today);
      DueOnAfterStep(cfg, b, us[0], today);
      SweepHead(b, b1, us, DueOn(b.rows, today));
    }
  }

  /** The liquidations of the stop-loss sweep: the listed tickers through
      their stop when the sweep began, each once, in list order. */
  lemma {:induction false} StopLossSweepLog(cfg: Config, b: Book, us: seq<Ticker>, ask: ContractId -> real)
    requires forall v :: v in us ==> v in b.rows
    ensures StopLossSweep(cfg, b, us, ask).effects == b.effects + Closings(b.rows, us, StopsHit(cfg, b.rows, ask))
    decreases |us|
  {
    if us != [] {
      var b1 := StopLossStep(cfg, b, us[0], ask);
      StopLossSweepLog(cfg, b1, us[1..], ask);
      StopsHitAfterStep(cfg, b, us[0], ask);
      SweepHead(b, b1, us, StopsHit(cfg, b.rows, ask));
    }
  }

  /** On a VIX spike a ticker is liquidated once if it is listed and held
      the short straddle, and not at all otherwise. */
  lemma VixSweepLiquidatesShortsOnce(cfg: Config, b: Book, us: seq<Ticker>, v: Ticker)
    requires (forall w :: w in us ==> w in b.rows) && v in b.rows
    ensures multiset(VixSweep(cfg, b, us).effects)[LiquidateTicker(v)]
         == multiset(b.effects)[LiquidateTicker(v)]
            + if v in us && b.rows[v].status == Holding(cfg.shortStrat) then 1 else 0
  {
    VixSweepLog(cfg, b, us);
    ClosingsOnce(b.rows, us, ShortHeld(cfg, b.rows), v);
  }

  /** At 15:40 a ticker is liquidated once if it is listed and due today,
      and not at all otherwise. */
  lemma ExpirySweepLiquidatesDueOnce(cfg: Config, b: Book, us: seq<Ticker>, today: Day, v: Ticker)
    requires (forall w :: w in us ==> w in b.rows) && v in b.rows
    ensures multiset(ExpirySweep(cfg, b, us, today).effects)[LiquidateTicker(v)]
         == multiset(b.effects)[LiquidateTicker(v)]
            + if v in us && b.rows[v].expiration == Some(today) then 1 else 0
  {
    ExpirySweepLog(cfg, b, us, today);
    ClosingsOnce(b.rows, us, DueOn(b.rows, today), v);
  }

  /** A ticker is liquidated by the stop-loss sweep once if it is listed
      and through its stop, and not at all otherwise. */
  lemma StopLossSweepLiquidatesHitsOnce(cfg: Config, b: Book, us: seq<Ticker>, ask: ContractId -> real, v: Ticker)
    requires (forall w :: w in us ==> w in b.rows) && v in b.rows
    ensures multiset(StopLossSweep(cfg, b, us, ask).effects)[LiquidateTicker(v)]
         == multiset(b.effects)[LiquidateTicker(v)]
            + if v in us && StopHit(cfg, b.rows[v], ask) then 1 else 0
  {
    StopLossSweepLog(cfg, b, us, ask);
    ClosingsOnce(b.rows, us, StopsHit(cfg, b.rows, ask), v);
  }

  /** `c` is an at-the-money pick from `cs`: no contract of `cs` lies nearer
      the spot. */
  predicate Nearest(c: Contract, cs: seq<Contract>) {
    c in cs && forall d :: d in cs ==> Distance(c) <= Distance(d)
  }

  /** The survey in the terms of the source: an empty chain has no
      expiry; otherwise the pick is the at-the-money call and put of the
      farthest expiry, and the tiers are the lengths of the OTM-call,
      ITM-call and OTM-put lists. */
  lemma SurveyChainMeaning(chain: seq<Contract>)
    ensures SurveyChain(chain) == NoExpiry <==> chain == []
    ensures SurveyChain(chain) == OneSided <==> chain != [] && (FrontCalls(chain) == [] || FrontPuts(chain) == [])
    ensures SurveyChain(chain).Surveyed? ==>
      var s := SurveyChain(chain);
      && Nearest(s.call, FrontCalls(chain)) && s.call.right == Call
      && Nearest(s.put, FrontPuts(chain)) && s.put.right == Put
      && (forall c :: c in chain ==> c.expiry <= s.call.expiry && c.expiry <= s.put.expiry)
      && s.tiers == Tiers(|OtmCalls(FrontCalls(chain))|, |ItmCalls(FrontCalls(chain))|, |OtmPuts(FrontPuts(chain))|)
  {
    if chain != [] && FrontCalls(chain) != [] && FrontPuts(chain) != [] {
      var call, put := Atm(FrontCalls(chain)), Atm(FrontPuts(chain));
      assert call in FrontMonth(chain) && put in FrontMonth(chain);
    }
  }

  /** A long straddle entry buys the given call and put, both for the
      smaller of their two order sizes, and records the pair and the
      call's expiry; the pause and any stop-loss level left from an
      earlier short straddle stay, and no other ticker changes. */
  lemma LongEntry(b: Book, u: Ticker, call: Contract, put: Contract, m: Market)
    requires u in b.rows
    ensures var r := EnterLong(b, u, call, put, m);
      var q := LegQuantity(m.orderQuantity(call.symbol), m.orderQuantity(put.symbol));
      && r.rows[u].status == Holding(Straddle)
      && r.rows[u].symbols == Some(Pair(call.symbol, put.symbol))
      && r.rows[u].expiration == Some(call.expiry)
      && r.rows[u].pause == b.rows[u].pause
      && r.rows[u].stop == b.rows[u].stop
      && r.effects == b.effects + [MarketOrder(call.symbol, q), MarketOrder(put.symbol, q)]
      && r.rows == b.rows[u := r.rows[u]]
  {
  }

  /** A short straddle entry sells the given call and put for the smaller
      of their order sizes and records a stop level of stop_percentage
      times their entry premium. When the put did not fill, the ticker is
      flattened again at once, keeping the pair and the stop level. */
  lemma ShortEntry(cfg: Config, b: Book, u: Ticker, call: Contract, put: Contract, m: Market)
    requires u in b.rows
    ensures var r := EnterShort(cfg, b, u, call, put, m);
      var q := LegQuantity(m.orderQuantity(call.symbol), m.orderQuantity(put.symbol));
      var orders := b.effects + [MarketOrder(call.symbol, -q), MarketOrder(put.symbol, -q)];
      && r.rows[u].symbols == Some(Pair(call.symbol, put.symbol))
      && r.rows[u].stop == Some(StopLossLevel(cfg.stopPercentage, call.askPrice, put.askPrice))
      && r.rows[u].pause == b.rows[u].pause
      && r.rows == b.rows[u := r.rows[u]]
      && if m.invested(put.symbol) then
           && r.rows[u].status == Holding(ShortStraddle)
           && r.rows[u].expiration == Some(call.expiry)
           && r.effects == orders
         else
           && r.rows[u].status == Flat
           && r.rows[u].expiration == None
           && r.effects == orders + [LiquidateTicker(u), LiquidateContract(Some(call.symbol)),
                                     LiquidateContract(Some(put.symbol))]
  {
  }

  /** An entry happens only on a flat ticker and only for the two
      straddle labels; it records the surveyed call and put and changes no
      other ticker. */
  lemma EntryOnlyFromFlat(cfg: Config, b: Book, u: Ticker, strategy: Option<Strategy>,
                          call: Contract, put: Contract, t: Tiers, m: Market)
    requires u in b.rows
    ensures var r := Enter(cfg, b, u, strategy, call, put, t, m).0;
      && r.rows == b.rows[u := r.rows[u]]
      && (r != b ==>
            && b.rows[u].status == Flat
            && (strategy == Some(Straddle) || strategy == Some(ShortStraddle))
            && r.rows[u].symbols == Some(Pair(call.symbol, put.symbol)))
  {
    if b.rows[u].status == Flat && strategy == Some(Straddle) {
      LongEntry(b, u, call, put, m);
    } else if b.rows[u].status == Flat && strategy == Some(ShortStraddle) {
      ShortEntry(cfg, b, u, call, put, m);
    }
  }

  /** The multi-leg branches go on only when every tier they index
      exists in its sorted list: Strangle and Butterfly return early
      otherwise, the Condor and the two iron strategies raise. The lists
      are the OTM calls, ITM calls and OTM puts of the surveyed chain
      (SurveyChainMeaning). */
  lemma MultiLegFlowMeaning(otmCalls: seq<Contract>, itmCalls: seq<Contract>, otmPuts: seq<Contract>, s: Strategy)
    ensures var f := MultiLegFlow(s, Tiers(|otmCalls|, |itmCalls|, |otmPuts|));
      && (s == Straddle || s == ShortStraddle ==> f == Proceed)
      && (s == Strangle ==>
            (f == Proceed <==> TierPick(otmCalls, STRANGLE_TIER).Some? && TierPick(otmPuts, STRANGLE_TIER).Some?)
            && f != Raised)
      && (s == Butterfly ==>
            (f == Proceed <==> TierPick(otmCalls, BUTTERFLY_TIER).Some? && TierPick(itmCalls, BUTTERFLY_TIER).Some?)
            && f != Raised)
      && (s == Condor ==>
            (f == Proceed <==> TierPick(otmCalls, CONDOR_BUY_TIER).Some? && TierPick(otmCalls, CONDOR_SELL_TIER).Some?
                               && TierPick(itmCalls, CONDOR_BUY_TIER).Some? && TierPick(itmCalls, CONDOR_SELL_TIER).Some?)
            && f != Returned)
      && (s == IronButterfly ==>
            (f == Proceed <==> TierPick(otmCalls, IRON_BUTTERFLY_TIER).Some?
                               && TierPick(itmCalls, IRON_BUTTERFLY_TIER).Some?)
            && f != Returned)
      && (s == IronCondor ==>
            (f == Proceed <==> TierPick(otmCalls, IRON_CONDOR_BUY_TIER).Some?
                               && TierPick(otmCalls, IRON_CONDOR_SELL_TIER).Some?
                               && TierPick(otmPuts, IRON_CONDOR_BUY_TIER).Some?
                               && TierPick(otmPuts, IRON_CONDOR_SELL_TIER).Some?)
            && f != Returned)
  {
  }

  /** An exit closes the ticker with the pause its kind sets, liquidates
      the recorded pair, and keeps the pair and the stop-loss level on
      record. */
  lemma DecideExit(cfg: Config, b: Book, u: Ticker, call: Contract, put: Contract, t: Tiers,
                   clock: Clock, m: Market)
    requires Fits(cfg, b) && u in b.rows && b.rows[u].pause == 0
    requires ExitRule(cfg, cfg.bounds[u], b.rows[u].status, m.spreads(u)).Some?
    ensures var k := ExitRule(cfg, cfg.bounds[u], b.rows[u].status, m.spreads(u)).value;
      var r := Decide(cfg, b, u, call, put, t, clock, m);
      var row := b.rows[u];
      && r.1 == Proceed
      && r.0.rows == b.rows[u := r.0.rows[u]]
      && r.0.rows[u].status == Flat && r.0.rows[u].expiration == None
      && r.0.rows[u].symbols == row.symbols && r.0.rows[u].stop == row.stop
      && r.0.rows[u].pause == (if k == ExtremeVol || k == VolSpike then cfg.pauseLength else row.pause)
      && r.0.effects == b.effects + Liquidation(u, row)
  {
  }

  /** The phases before the scan only ever close positions: every ticker
      keeps its status or ends "None". */
  lemma GuardOnlyCloses(cfg: Config, b: Book, t: Tick, m: Market)
    requires Fits(cfg, b)
    ensures var r := Guard(cfg, b, t, m);
      forall u :: u in b.rows ==> r.rows[u].status == b.rows[u].status || r.rows[u].status == Flat
  {
    var b1 := if cfg.vixIndicatorOn then VixCheck(cfg, b, t.vixSpike) else b;
    var b2 := if t.time.hour == 15 && t.time.minute == 40
              then ExpirySweep(cfg, b1, cfg.stockList, t.time.day) else b1;
    forall u | u in b.rows
      ensures Guard(cfg, b, t, m).rows[u].status in {b.rows[u].status, Flat}
    {
      if cfg.vixIndicatorOn && t.vixSpike {
        VixSweepAt(cfg, b.(vixSpike := t.vixSpike), cfg.stockList, u);
      }
      if t.time.hour == 15 && t.time.minute == 40 {
        ExpirySweepAt(cfg, b1, cfg.stockList, t.time.day, u);
      }
      StopLossSweepAt(cfg, b2, cfg.stockList, m.askPrice, u);
    }
  }

  /** The ticker a chain is evaluated for, if the chain gets that far. */
  function ChainTicker(chain: seq<Contract>): Option<Ticker> {
    var s := SurveyChain(chain);
    if s.Surveyed? then Some(s.call.underlying) else None
  }

  lemma DecideLocal(cfg: Config, b: Book, u: Ticker, call: Contract, put: Contract, t: Tiers,
                    clock: Clock, m: Market)
    requires Fits(cfg, b) && u in b.rows
    ensures var r := Decide(cfg, b, u, call, put, t, clock, m).0;
      && r.rows == b.rows[u := r.rows[u]]
      && (r.rows[u].status == b.rows[u].status || r.rows[u].status == Flat || b.rows[u].status == Flat)
  {
    if b.rows[u].pause == 0 {
      var sp := m.spreads(u);
      if ExitRule(cfg, cfg.bounds[u], b.rows[u].status, sp).None? {
        EntryOnlyFromFlat(cfg, b, u, StrategyFor(cfg, Choose(cfg.bounds[u], sp.hvIv)), call, put, t, m);
      }
    }
  }

  lemma VisitLocal(cfg: Config, b: Book, s: Survey, clock: Clock, m: Market)
    requires Fits(cfg, b)
    ensures var r := Visit(cfg, b, s, clock, m).0;
      && (forall v :: v in b.rows && !(s.Surveyed? && s.call.underlying == v) ==> r.rows[v] == b.rows[v])
      && (forall v :: v in b.rows ==>
            r.rows[v].status == b.rows[v].status || r.rows[v].status == Flat || b.rows[v].status == Flat)
  {
    if s.Surveyed? && s.call.underlying in b.rows {
      DecideLocal(cfg, b, s.call.underlying, s.call, s.put, s.tiers, clock, m);
    }
  }

  /** Evaluating a chain touches only the ticker of its at-the-money call,
      and never swaps a position for another without closing it: that
      ticker keeps its status, goes flat, or enters from flat. */
  lemma EvaluateChainLocal(cfg: Config, b: Book, chain: seq<Contract>, clock: Clock, m: Market)
    requires Fits(cfg, b)
    ensures var r := EvaluateChain(cfg, b, chain, clock, m).0;
      && (forall v :: v in b.rows && ChainTicker(chain) != Some(v) ==> r.rows[v] == b.rows[v])
      && (forall v :: v in b.rows ==>
            r.rows[v].status == b.rows[v].status || r.rows[v].status == Flat || b.rows[v].status == Flat)
  {
    VisitLocal(cfg, b, SurveyChain(chain), clock, m);
  }

  /** A paused ticker is not traded: once its chain has been surveyed,
      the pass only counts the pause down, once, at 16:00. */
  lemma PausedTickerIsSkipped(cfg: Config, b: Book, s: Survey, clock: Clock, m: Market)
    requires Fits(cfg, b) && s.Surveyed?
    requires s.call.underlying in b.rows && b.rows[s.call.underlying].pause > 0
    ensures var u := s.call.underlying;
      var row := b.rows[u];
      Visit(cfg, b, s, clock, m)
        == (b.(rows := b.rows[u := row.(pause := if clock.hour == 16 && clock.minute == 0 then row.pause - 1 else row.pause)]),
            Proceed)
  {
    var u := s.call.underlying;
    if !(clock.hour == 16 && clock.minute == 0) {
      assert b.rows[u := b.rows[u].(pause := b.rows[u].pause)] == b.rows;
    }
  }

  /** Scanning a list of chains in two parts is scanning it whole: the
      second part runs only when the first ran through. */
  lemma {:induction false} ScanChainsAppend(cfg: Config, b: Book, xs: seq<seq<Contract>>, ys: seq<seq<Contract>>,
                                            clock: Clock, m: Market)
    requires Fits(cfg, b)
    ensures var r := ScanChains(cfg, b, xs, clock, m);
      ScanChains(cfg, b, xs + ys, clock, m) == if r.1 == Proceed then ScanChains(cfg, r.0, ys, clock, m) else r
    decreases |xs|
  {
    if xs == [] {
      assert xs + ys == ys;
    } else {
      assert (xs + ys)[0] == xs[0] && (xs + ys)[1..] == xs[1..] + ys;
      var r1 := EvaluateChain(cfg, b, xs[0], clock, m);
      if r1.1 == Proceed {
        ScanChainsAppend(cfg, r1.0, xs[1..], ys, clock, m);
      }
    }
  }
}
