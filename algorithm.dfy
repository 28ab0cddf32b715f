/**
 * The algorithm object as the source keeps it between ticks: the
 * per-ticker dictionaries (status, option_symbols, expiration,
 * days_pause_left, stop_loss) that OnData updates in place, the last VIX
 * verdict, and the requests handed to the host, appended in order. The
 * five dictionaries always share their keys, so they are kept as one
 * dictionary from ticker to a row of five entries; writing
 * `self.status[u]` is writing the status of row `u`. Every method is
 * proved to do what the matching function of Engine says.
 */
module Algorithm {
  import opened Types
  import opened Selection
  import opened Rules
  import opened Engine

  class OptionTrading {
    const cfg: Config
    var rows: map<Ticker, Row>
    var vixSpike: bool
    var effects: seq<Effect>

    /** The object's state as an Engine value. */
    function Snapshot(): Book
      reads this
    {
      Book(rows, vixSpike, effects)
    }

    ghost predicate Valid()
      reads this
    {
      Sound(cfg) && Fits(cfg, Snapshot()) && Consistent(cfg, Snapshot())
    }

    /** The dictionaries as Initialize builds them: every ticker with
        bounds is "None", has no pair, no expiration, no pause and no
        stop-loss level. */
    constructor(cfg: Config)
      requires Sound(cfg)
      ensures this.cfg == cfg
      ensures Valid() && Snapshot() == Initial(cfg)
    {
      this.cfg := cfg;
      rows := map u | u in cfg.bounds.Keys :: Row(Flat, None, None, 0, None);
      vixSpike := false;
      effects := [];
    }

    /** One call of OnData. */
    method OnData(t: Tick, m: Market) returns (flow: Flow)
      requires Valid()
      modifies this
      ensures Valid()
      ensures (Snapshot(), flow) == Step(cfg, old(Snapshot()), t, m)
    {
      if t.warmingUp {
        return Returned;
      }
      if cfg.vixIndicatorOn {
        vixSpike := t.vixSpike;
        if vixSpike {
          VixKillSwitch();
        }
      }
      if t.time.hour == 15 && t.time.minute == 40 {
        CloseExpiring(t.time.day);
      }
      CheckStopLosses(m.askPrice);
      if t.time.minute == 0 {
        flow := ScanOptionChains(t.chains, t.time, m);
      } else {
        flow := Proceed;
      }
      StepConsistent(cfg, old(Snapshot()), t, m);
    }

    /** Liquidate(ticker) and both recorded contracts. */
    method Liquidate(u: Ticker)
      requires u in rows
      modifies this`effects
      ensures effects == old(effects) + Liquidation(u, rows[u])
    {
      effects := effects + [LiquidateTicker(u)];
      effects := effects + [LiquidateContract(ContractOf(rows[u].symbols, true))];
      effects := effects + [LiquidateContract(ContractOf(rows[u].symbols, false))];
    }

    /** The exit block the source repeats: liquidate, no expiration, status
        "None", and the pause when the exit sets one. */
    method Close(u: Ticker, pause: Option<nat>)
      requires u in rows
      modifies this`effects, this`rows
      ensures Snapshot() == Flatten(old(Snapshot()), u, pause)
    {
      Liquidate(u);
      var row := rows[u].(expiration := None);
      row := row.(status := Flat);
      if pause.Some? {
        row := row.(pause := pause.value);
      }
      rows := rows[u := row];
    }

    /** The VIX kill-switch: close every listed short straddle and pause
        every listed ticker for vix_pause days. */
    method VixKillSwitch()
      requires Fits(cfg, Snapshot())
      modifies this`effects, this`rows
      ensures Snapshot() == VixSweep(cfg, old(Snapshot()), cfg.stockList)
    {
      for i := 0 to |cfg.stockList|
        invariant Fits(cfg, Snapshot())
        invariant VixSweep(cfg, old(Snapshot()), cfg.stockList) == VixSweep(cfg, Snapshot(), cfg.stockList[i..])
      {
        var stock := cfg.stockList[i];
        assert cfg.stockList[i..][0] == stock && cfg.stockList[i..][1..] == cfg.stockList[i + 1..];
        if rows[stock].status == Holding(cfg.shortStrat) {
          Close(stock, None);
        }
        rows := rows[stock := rows[stock].(pause := cfg.vixPause)];
      }
    }

    /** The 15:40 close: every listed ticker whose expiration is today is
        closed and paused for vix_pause days. */
    method CloseExpiring(today: Day)
      requires Fits(cfg, Snapshot())
      modifies this`effects, this`rows
      ensures Snapshot() == ExpirySweep(cfg, old(Snapshot()), cfg.stockList, today)
    {
      for i := 0 to |cfg.stockList|
        invariant Fits(cfg, Snapshot())
        invariant ExpirySweep(cfg, old(Snapshot()), cfg.stockList, today)
               == ExpirySweep(cfg, Snapshot(), cfg.stockList[i..], today)
      {
        var stock := cfg.stockList[i];
        assert cfg.stockList[i..][0] == stock && cfg.stockList[i..][1..] == cfg.stockList[i + 1..];
        if rows[stock].expiration == Some(today) {
          Close(stock, Some(cfg.vixPause));
        }
      }
    }

    /** The stop-loss sweep: a listed short straddle whose pair now asks
        more than its stop level is closed, paused for pause_length days,
        and loses its stop level. */
    method CheckStopLosses(ask: ContractId -> real)
      requires Fits(cfg, Snapshot())
      modifies this`effects, this`rows
      ensures Snapshot() == StopLossSweep(cfg, old(Snapshot()), cfg.stockList, ask)
    {
      for i := 0 to |cfg.stockList|
        invariant Fits(cfg, Snapshot())
        invariant StopLossSweep(cfg, old(Snapshot()), cfg.stockList, ask)
               == StopLossSweep(cfg, Snapshot(), cfg.stockList[i..], ask)
      {
        var stock := cfg.stockList[i];
        assert cfg.stockList[i..][0] == stock && cfg.stockList[i..][1..] == cfg.stockList[i + 1..];
        var row := rows[stock];
        if row.status == Holding(cfg.shortStrat) && row.symbols.Some? && row.stop.Some? {
          var currentValue := ask(row.symbols.value.call) + ask(row.symbols.value.put);
          if currentValue > row.stop.value {
            Close(stock, Some(cfg.pauseLength));
            rows := rows[stock := rows[stock].(stop := None)];
          }
        }
      }
    }

    /** The hourly loop over the slice's option chains; a `return` or an
        exception in one chain ends the scan. */
    method ScanOptionChains(chains: seq<seq<Contract>>, clock: Clock, m: Market) returns (flow: Flow)
      requires Fits(cfg, Snapshot())
      modifies this`effects, this`rows
      ensures (Snapshot(), flow) == ScanChains(cfg, old(Snapshot()), chains, clock, m)
    {
      var i := 0;
      while i < |chains|
        invariant 0 <= i <= |chains|
        invariant Fits(cfg, Snapshot())
        invariant ScanChains(cfg, old(Snapshot()), chains, clock, m) == ScanChains(cfg, Snapshot(), chains[i..], clock, m)
      {
        assert chains[i..][0] == chains[i] && chains[i..][1..] == chains[i + 1..];
        flow := EvaluateOptionChain(chains[i], clock, m);
        if flow != Proceed {
          return;
        }
        i := i + 1;
      }
      flow := Proceed;
    }

    /** One chain: survey it (farthest expiry, calls and puts, the
        at-the-money pair, the moneyness lists), stop the scan when the
        survey raises or returns, and otherwise trade the call's
        underlying if it is one of the dictionaries' tickers. */
    method EvaluateOptionChain(chain: seq<Contract>, clock: Clock, m: Market) returns (flow: Flow)
      requires Fits(cfg, Snapshot())
      modifies this`effects, this`rows
      ensures (Snapshot(), flow) == EvaluateChain(cfg, old(Snapshot()), chain, clock, m)
    {
      var survey := SurveyChain(chain);
      match survey
      case NoExpiry =>
        flow := Raised;
      case OneSided =>
        flow := Returned;
      case Surveyed(callAtm, putAtm, tiers) =>
        var u := callAtm.underlying;
        if u !in rows {
          return Proceed;
        }
        flow := TradeTicker(u, callAtm, putAtm, tiers, clock, m);
    }

    /** The loop body for a known ticker: the pause, the four exits in
        order, the strategy choice and the entry it calls for. */
    method TradeTicker(u: Ticker, call: Contract, put: Contract, tiers: Tiers, clock: Clock, m: Market)
      returns (flow: Flow)
      requires Fits(cfg, Snapshot()) && u in rows
      modifies this`effects, this`rows
      ensures (Snapshot(), flow) == Decide(cfg, old(Snapshot()), u, call, put, tiers, clock, m)
    {
      if rows[u].pause > 0 && clock.hour == 16 && clock.minute == 0 {
        rows := rows[u := rows[u].(pause := rows[u].pause - 1)];
        return Proceed;
      }
      if rows[u].pause > 0 {
        return Proceed;
      }
      var sp := m.spreads(u);
      var exit := ExitRule(cfg, cfg.bounds[u], rows[u].status, sp);
      if exit.Some? {
        Close(u, ExitPause(cfg, exit.value));
        return Proceed;
      }
      var strategy := StrategyFor(cfg, Choose(cfg.bounds[u], sp.hvIv));
      flow := Proceed;
      if strategy == Some(Straddle) {
        if rows[u].status == Flat {
          EnterLongStraddle(u, call, put, m);
        }
      } else if strategy == Some(ShortStraddle) {
        if rows[u].status == Flat {
          EnterShortStraddle(u, call, put, m);
        }
      } else if strategy.Some? {
        flow := MultiLegFlow(strategy.value, tiers);
      }
    }

    /** Buy the at-the-money call and put and record the position. */
    method EnterLongStraddle(u: Ticker, call: Contract, put: Contract, m: Market)
      requires u in rows
      modifies this`effects, this`rows
      ensures Snapshot() == EnterLong(old(Snapshot()), u, call, put, m)
    {
      var quantity := LegQuantity(m.orderQuantity(call.symbol), m.orderQuantity(put.symbol));
      effects := effects + [MarketOrder(call.symbol, quantity)];
      effects := effects + [MarketOrder(put.symbol, quantity)];
      rows := rows[u := rows[u].(symbols := Some(Pair(call.symbol, put.symbol)), status := Holding(Straddle),
                                 expiration := Some(call.expiry))];
    }

    /** Sell the at-the-money call and put, record the position and its
        stop level, and close it again when the put did not fill. */
    method EnterShortStraddle(u: Ticker, call: Contract, put: Contract, m: Market)
      requires u in rows
      modifies this`effects, this`rows
      ensures Snapshot() == EnterShort(cfg, old(Snapshot()), u, call, put, m)
    {
      var quantity := -1 * LegQuantity(m.orderQuantity(call.symbol), m.orderQuantity(put.symbol));
      effects := effects + [MarketOrder(call.symbol, quantity)];
      effects := effects + [MarketOrder(put.symbol, quantity)];
      rows := rows[u := rows[u].(symbols := Some(Pair(call.symbol, put.symbol)), expiration := Some(call.expiry),
                                 status := Holding(ShortStraddle),
                                 stop := Some(StopLossLevel(cfg.stopPercentage, call.askPrice, put.askPrice)))];
      if !m.invested(put.symbol) {
        Close(u, None);
      }
    }
  }
}
