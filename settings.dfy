/**
 * The constants Initialize sets: the bounds of the four tickers, the two
 * strategy labels, the pause lengths, the stop-loss percentage and the
 * VIX switch, and what they imply for the engine.
 */
module Settings {
  import opened Types
  import opened Rules
  import opened Engine

  const SPY: Ticker := "SPY"
  const QQQ: Ticker := "QQQ"
  const DIA: Ticker := "DIA"
  const IWM: Ticker := "IWM"

  /** ShortBound, LongBound, ExtremeVolBoundLower, ExtremeVolBoundUpper
      and vol_spike of SPY, and of the three other tickers. */
  const SPY_BOUNDS: Bounds := Bounds(0.247, 1.0, -1.0, 1.0, 1.0)
  const OTHER_BOUNDS: Bounds := Bounds(1.0, 1.0, -1.0, 1.0, 1.0)

  /** stop_percentage = 1 + stop_loss_percentage_bound = 1 + 0.6. */
  const STOP_PERCENTAGE: real := 1.0 + 0.6

  function DefaultConfig(): (cfg: Config)
    ensures cfg.bounds.Keys == {SPY, QQQ, DIA, IWM}
    ensures cfg.stockList == [SPY]
  {
    Config(
      stockList := [SPY],
      bounds := map[SPY := SPY_BOUNDS, QQQ := OTHER_BOUNDS, DIA := OTHER_BOUNDS, IWM := OTHER_BOUNDS],
      longStrat := Straddle,
      shortStrat := ShortStraddle,
      pauseLength := 3,
      stopPercentage := STOP_PERCENTAGE,
      vixIndicatorOn := false,
      vixPause := 3)
  }

  /** The shipped constants meet what the engine's invariant needs: every
      listed ticker has bounds and the short label is not the long one. */
  lemma DefaultConfigSound()
    ensures Sound(DefaultConfig())
  {
    var cfg := DefaultConfig();
    forall i | 0 <= i < |cfg.stockList|
      ensures cfg.stockList[i] in cfg.bounds
    {
      assert cfg.stockList[i] == SPY;
    }
  }

  /** With the shipped bounds LongBound equals ExtremeVolBoundUpper for
      every ticker, so the long range `LongBound < spread <=
      ExtremeVolBoundUpper` is empty: the long straddle is never chosen. */
  lemma DefaultNeverGoesLong(u: Ticker, spread: real)
    requires u in DefaultConfig().bounds
    ensures Choose(DefaultConfig().bounds[u], spread) != GoLong
    ensures StrategyFor(DefaultConfig(), Choose(DefaultConfig().bounds[u], spread)) != Some(Straddle)
  {
    var b := DefaultConfig().bounds[u];
    assert b == SPY_BOUNDS || b == OTHER_BOUNDS;
  }

  /** With the shipped bounds SPY goes short exactly when its spread lies
      in [-1, 0.247). */
  lemma DefaultSpyGoesShort(spread: real)
    ensures Choose(DefaultConfig().bounds[SPY], spread) == GoShort <==> -1.0 <= spread < 0.247
  {
  }

  /** The stop level sits 60% above the premium collected. */
  lemma DefaultStopAbovePremium(callAsk: real, putAsk: real)
    requires callAsk + putAsk > 0.0
    ensures StopLossLevel(DefaultConfig().stopPercentage, callAsk, putAsk) > callAsk + putAsk
    ensures StopLossLevel(DefaultConfig().stopPercentage, callAsk, putAsk) == 1.6 * (callAsk + putAsk)
  {
  }

  /** The initial dictionaries of Initialize: the four tickers, all "None"
      and unpaused. */
  lemma DefaultInitial()
    ensures var b := Initial(DefaultConfig());
      && b.rows.Keys == {SPY, QQQ, DIA, IWM}
      && Fits(DefaultConfig(), b)
      && forall u :: u in b.rows ==> b.rows[u] == Row(Flat, None, None, 0, None)
  {
    DefaultConfigSound();
  }

  /** No ticker holds the long straddle. */
  ghost predicate NoLong(b: Book) {
    forall u :: u in b.rows ==> b.rows[u].status != Holding(Straddle)
  }

  /** Every ticker's long range `LongBound < spread <= ExtremeVolBoundUpper`
      is empty. */
  ghost predicate LongRangeEmpty(cfg: Config) {
    forall u :: u in cfg.bounds ==> cfg.bounds[u].extremeUpper <= cfg.bounds[u].longBound
  }

  lemma DefaultLongRangeEmpty()
    ensures LongRangeEmpty(DefaultConfig())
  {
  }

  lemma DecideNoLong(cfg: Config, b: Book, u: Ticker, call: Contract, put: Contract, t: Tiers, clock: Clock, m: Market)
    requires Sound(cfg) && LongRangeEmpty(cfg) && Fits(cfg, b) && u in b.rows && NoLong(b)
    ensures NoLong(Decide(cfg, b, u, call, put, t, clock, m).0)
  {
  }

  lemma VisitNoLong(cfg: Config, b: Book, s: Survey, clock: Clock, m: Market)
    requires Sound(cfg) && LongRangeEmpty(cfg) && Fits(cfg, b) && NoLong(b)
    ensures NoLong(Visit(cfg, b, s, clock, m).0)
  {
    if s.Surveyed? && s.call.underlying in b.rows {
      DecideNoLong(cfg, b, s.call.underlying, s.call, s.put, s.tiers, clock, m);
    }
  }

  lemma {:induction false} ScanChainsNoLong(cfg: Config, b: Book, chains: seq<seq<Contract>>, clock: Clock, m: Market)
    requires Sound(cfg) && LongRangeEmpty(cfg) && Fits(cfg, b) && NoLong(b)
    ensures NoLong(ScanChains(cfg, b, chains, clock, m).0)
    decreases |chains|
  {
    if chains != [] {
      VisitNoLong(cfg, b, SurveyChain(chains[0]), clock, m);
      var r1 := EvaluateChain(cfg, b, chains[0], clock, m);
      if r1.1 == Proceed {
        ScanChainsNoLong(cfg, r1.0, chains[1..], clock, m);
      }
    }
  }

  /** When no ticker's long range holds a spread, OnData never enters the
      long straddle: a book without one keeps being without one. */
  lemma StepNoLong(cfg: Config, b: Book, t: Tick, m: Market)
    requires Sound(cfg) && LongRangeEmpty(cfg) && Fits(cfg, b) && NoLong(b)
    ensures NoLong(Step(cfg, b, t, m).0)
  {
    if !t.warmingUp {
      GuardOnlyCloses(cfg, b, t, m);
      if t.time.minute == 0 {
        ScanChainsNoLong(cfg, Guard(cfg, b, t, m), t.chains, t.time, m);
      }
    }
  }

  /** With the shipped constants the long straddle is never entered, from
      the initial state on. */
  lemma DefaultNeverHoldsLong(b: Book, t: Tick, m: Market)
    requires Fits(DefaultConfig(), b) && NoLong(b)
    ensures NoLong(Initial(DefaultConfig()))
    ensures NoLong(Step(DefaultConfig(), b, t, m).0)
  {
    DefaultConfigSound();
    DefaultLongRangeEmpty();
    StepNoLong(DefaultConfig(), b, t, m);
  }
}
