/**
 * The decision rules of one evaluation, as pure functions of the spreads
 * and the per-ticker bounds: which strategy to enter, which exit applies,
 * how many contracts each straddle leg gets, where the stop-loss sits, and
 * the leg recipes of the multi-leg strategies.
 */
module Rules {
  import opened Types
  import opened Selection

  /** The outcome of the strategy-choice rule, before it is mapped to the
      configured label. */
  datatype Side = GoLong | GoShort | NoTrade

  /** Long when LongBound < spread <= ExtremeVolBoundUpper; otherwise short
      when ExtremeVolBoundLower <= spread < ShortBound; otherwise no trade.
      The long range wins where both hold. */
  function Choose(b: Bounds, spread: real): (r: Side)
    ensures r == GoLong <==> b.longBound < spread <= b.extremeUpper
    ensures r == GoShort
        <==> !(b.longBound < spread <= b.extremeUpper) && b.extremeLower <= spread < b.shortBound
    ensures r == NoTrade
        <==> !(b.longBound < spread <= b.extremeUpper) && !(b.extremeLower <= spread < b.shortBound)
  {
    if b.longBound < spread <= b.extremeUpper then GoLong
    else if b.extremeLower <= spread < b.shortBound then GoShort
    else NoTrade
  }

  /** The label chosen: LongStrat, ShortStrat or "None". */
  function StrategyFor(cfg: Config, side: Side): (r: Option<Strategy>)
    ensures r == None <==> side == NoTrade
    ensures side == GoLong ==> r == Some(cfg.longStrat)
    ensures side == GoShort ==> r == Some(cfg.shortStrat)
  {
    match side
    case GoLong => Some(cfg.longStrat)
    case GoShort => Some(cfg.shortStrat)
    case NoTrade => None
  }

  /** The strategy rule at the level of labels (lines 262-266 of the
      source): LongStrat exactly on the long range, ShortStrat exactly on
      the short range outside it, "None" otherwise. When both labels are
      the same, the two ranges give the same label. */
  lemma StrategyChoice(cfg: Config, b: Bounds, spread: real)
    ensures var r := StrategyFor(cfg, Choose(b, spread));
      && (b.longBound < spread <= b.extremeUpper ==> r == Some(cfg.longStrat))
      && (cfg.longStrat != cfg.shortStrat ==>
            && (r == Some(cfg.longStrat) <==> b.longBound < spread <= b.extremeUpper)
            && (r == Some(cfg.shortStrat)
                <==> !(b.longBound < spread <= b.extremeUpper) && b.extremeLower <= spread < b.shortBound))
      && (r == None <==> !(b.longBound < spread <= b.extremeUpper) && !(b.extremeLower <= spread < b.shortBound))
  {
  }

  /** The four exits, in the order the source tests them. */
  datatype ExitKind = LongBreach | ShortBreach | ExtremeVol | VolSpike

  /** The first exit that applies to a ticker with status `st`, if any. */
  function ExitRule(cfg: Config, b: Bounds, st: Status, sp: Spreads): (r: Option<ExitKind>)
    ensures r == Some(LongBreach) <==> st == Holding(cfg.longStrat) && sp.hvIv < b.longBound
    ensures r == Some(ShortBreach) <==>
      !(st == Holding(cfg.longStrat) && sp.hvIv < b.longBound)
      && st == Holding(cfg.shortStrat) && sp.hvIv > b.shortBound
    ensures r == Some(ExtremeVol) ==> sp.hvIv < b.extremeLower || sp.hvIv > b.extremeUpper
    ensures r == Some(VolSpike) ==>
      b.extremeLower <= sp.hvIv <= b.extremeUpper && sp.historicVol > b.volSpike
    ensures r == None <==>
      !(st == Holding(cfg.longStrat) && sp.hvIv < b.longBound)
      && !(st == Holding(cfg.shortStrat) && sp.hvIv > b.shortBound)
      && b.extremeLower <= sp.hvIv <= b.extremeUpper
      && sp.historicVol <= b.volSpike
  {
    if st == Holding(cfg.longStrat) && sp.hvIv < b.longBound then Some(LongBreach)
    else if st == Holding(cfg.shortStrat) && sp.hvIv > b.shortBound then Some(ShortBreach)
    else if sp.hvIv < b.extremeLower || sp.hvIv > b.extremeUpper then Some(ExtremeVol)
    else if sp.historicVol > b.volSpike then Some(VolSpike)
    else None
  }

  /** The pause an exit sets: bound breaches leave the counter alone, the
      two volatility exits set it to pause_length. */
  function ExitPause(cfg: Config, k: ExitKind): (r: Option<nat>)
    ensures r.Some? <==> k == ExtremeVol || k == VolSpike
    ensures r.Some? ==> r.value == cfg.pauseLength
  {
    match k
    case LongBreach => None
    case ShortBreach => None
    case ExtremeVol => Some(cfg.pauseLength)
    case VolSpike => Some(cfg.pauseLength)
  }

  /** When the bounds nest (ExtremeLower <= LongBound and ShortBound <=
      ExtremeUpper), a position opened on a spread is not closed by a
      bound or extreme-vol exit on that same spread: only the spike exit
      can fire. */
  lemma EntrySurvivesSameSpread(cfg: Config, b: Bounds, sp: Spreads)
    requires b.extremeLower <= b.longBound && b.shortBound <= b.extremeUpper
    requires cfg.longStrat != cfg.shortStrat
    requires Choose(b, sp.hvIv) != NoTrade
    ensures var st := Holding(StrategyFor(cfg, Choose(b, sp.hvIv)).value);
            var r := ExitRule(cfg, b, st, sp);
            r == None || r == Some(VolSpike)
  {
  }

  /** min(CalculateOrderQuantity(call), CalculateOrderQuantity(put)): both
      legs get the smaller of the two sizes. */
  function LegQuantity(callSize: int, putSize: int): (q: int)
    ensures q <= callSize && q <= putSize
    ensures q == callSize || q == putSize
  {
    if callSize <= putSize then callSize else putSize
  }

  /** The stop-loss level of a short straddle: stop_percentage times the
      premium (sum of the two ask prices) at entry. */
  function StopLossLevel(stopPercentage: real, callAsk: real, putAsk: real): (level: real)
    ensures stopPercentage > 1.0 && callAsk + putAsk > 0.0 ==> level > callAsk + putAsk
  {
    var level := stopPercentage * (callAsk + putAsk);
    if stopPercentage > 1.0 && callAsk + putAsk > 0.0 then
      Positive(stopPercentage - 1.0, callAsk + putAsk);
      level
    else level
  }

  lemma Positive(x: real, y: real)
    requires x > 0.0 && y > 0.0
    ensures x * y > 0.0
  {
  }

  // Tier indices of the multi-leg strategies.
  const STRANGLE_TIER: nat := 1
  const BUTTERFLY_TIER: nat := 5
  const CONDOR_BUY_TIER: nat := 2
  const CONDOR_SELL_TIER: nat := 1
  const IRON_BUTTERFLY_TIER: nat := 1
  const IRON_CONDOR_BUY_TIER: nat := 1
  const IRON_CONDOR_SELL_TIER: nat := 0

  /** Signed contract count of a list of orders. */
  function NetQuantity(orders: seq<Effect>): int {
    if orders == [] then 0
    else (if orders[0].MarketOrder? then orders[0].quantity else 0) + NetQuantity(orders[1..])
  }

  /** The net quantity of four orders is the sum of their quantities. */
  lemma NetQuantityOfOrders(orders: seq<Effect>)
    requires |orders| <= 4 && forall e :: e in orders ==> e.MarketOrder?
    ensures NetQuantity(orders)
         == (if |orders| > 0 then orders[0].quantity else 0) + (if |orders| > 1 then orders[1].quantity else 0)
          + (if |orders| > 2 then orders[2].quantity else 0) + (if |orders| > 3 then orders[3].quantity else 0)
  {
    if orders != [] {
      NetQuantityOfOrders(orders[1..]);
    }
  }

  /** Signed quantity the orders place on one contract: what the
      position in that contract changes by. */
  function Position(orders: seq<Effect>, id: ContractId): int {
    if orders == [] then 0
    else (if orders[0].MarketOrder? && orders[0].contract == id then orders[0].quantity else 0)
         + Position(orders[1..], id)
  }

  function Signed(e: Effect, id: ContractId): int {
    if e.MarketOrder? && e.contract == id then e.quantity else 0
  }

  /** The position of up to four orders is the sum of their signed
      quantities. */
  lemma PositionOfOrders(orders: seq<Effect>, id: ContractId)
    requires |orders| <= 4
    ensures Position(orders, id)
         == (if |orders| > 0 then Signed(orders[0], id) else 0) + (if |orders| > 1 then Signed(orders[1], id) else 0)
          + (if |orders| > 2 then Signed(orders[2], id) else 0) + (if |orders| > 3 then Signed(orders[3], id) else 0)
  {
    if orders != [] {
      PositionOfOrders(orders[1..], id);
    }
  }

  /** Strangle legs (the tier-1 out-of-the-money call and put): one
      contract of each sold, with the fixed quantity -1. */
  function StrangleOrders(call: Contract, put: Contract): (r: seq<Effect>)
    ensures NetQuantity(r) == -2
    ensures forall e :: e in r ==>
      e.MarketOrder? && e.quantity == -1 && (e.contract == call.symbol || e.contract == put.symbol)
    ensures call.symbol != put.symbol ==> Position(r, call.symbol) == -1 && Position(r, put.symbol) == -1
  {
    var r := [MarketOrder(call.symbol, -1), MarketOrder(put.symbol, -1)];
    NetQuantityOfOrders(r);
    PositionOfOrders(r, call.symbol);
    PositionOfOrders(r, put.symbol);
    r
  }

  /** Butterfly legs: buy the tier-5 OTM and ITM calls, sell twice as many
      ATM calls. */
  function ButterflyOrders(otm: Contract, itm: Contract, atm: Contract, q: int): (r: seq<Effect>)
    ensures NetQuantity(r) == 0
    ensures forall e :: e in r ==>
      e.MarketOrder? && (e.contract == otm.symbol || e.contract == itm.symbol || e.contract == atm.symbol)
    ensures otm.symbol != itm.symbol && otm.symbol != atm.symbol && itm.symbol != atm.symbol ==>
      && Position(r, otm.symbol) == q && Position(r, itm.symbol) == q
      && Position(r, atm.symbol) == -2 * q
  {
    var r := [MarketOrder(otm.symbol, q), MarketOrder(itm.symbol, q), MarketOrder(atm.symbol, -2 * q)];
    NetQuantityOfOrders(r);
    PositionOfOrders(r, otm.symbol);
    PositionOfOrders(r, itm.symbol);
    PositionOfOrders(r, atm.symbol);
    r
  }

  /** Condor legs: buy the tier-2 OTM and ITM calls, sell the tier-1 ones. */
  function CondorOrders(otmBuy: Contract, otmSell: Contract, itmBuy: Contract, itmSell: Contract, q: int): (r: seq<Effect>)
    ensures NetQuantity(r) == 0
    ensures |r| == 4
    ensures forall e :: e in r ==>
      e.MarketOrder? && (e.contract == otmBuy.symbol || e.contract == otmSell.symbol
                         || e.contract == itmBuy.symbol || e.contract == itmSell.symbol)
    ensures |{otmBuy.symbol, otmSell.symbol, itmBuy.symbol, itmSell.symbol}| == 4 ==>
      && Position(r, otmBuy.symbol) == q && Position(r, otmSell.symbol) == -q
      && Position(r, itmBuy.symbol) == q && Position(r, itmSell.symbol) == -q
  {
    var r := [MarketOrder(otmBuy.symbol, q), MarketOrder(otmSell.symbol, -q),
              MarketOrder(itmBuy.symbol, q), MarketOrder(itmSell.symbol, -q)];
    NetQuantityOfOrders(r);
    PositionOfOrders(r, otmBuy.symbol);
    PositionOfOrders(r, otmSell.symbol);
    PositionOfOrders(r, itmBuy.symbol);
    PositionOfOrders(r, itmSell.symbol);
    r
  }

  /** Iron butterfly legs: sell the tier-1 OTM call, buy the tier-1 ITM
      call, and buy and then sell the ATM call, so the ATM position nets
      out. */
  function IronButterflyOrders(otm: Contract, itm: Contract, atm: Contract, q: int): (r: seq<Effect>)
    ensures NetQuantity(r) == 0
    ensures |r| == 4
    ensures forall e :: e in r ==>
      e.MarketOrder? && (e.contract == otm.symbol || e.contract == itm.symbol || e.contract == atm.symbol)
    ensures MarketOrder(atm.symbol, q) in r && MarketOrder(atm.symbol, -q) in r
    ensures otm.symbol != itm.symbol && otm.symbol != atm.symbol && itm.symbol != atm.symbol ==>
      && Position(r, otm.symbol) == -q && Position(r, itm.symbol) == q
      && Position(r, atm.symbol) == 0
  {
    var r := [MarketOrder(otm.symbol, -q), MarketOrder(itm.symbol, q),
              MarketOrder(atm.symbol, q), MarketOrder(atm.symbol, -q)];
    NetQuantityOfOrders(r);
    PositionOfOrders(r, otm.symbol);
    PositionOfOrders(r, itm.symbol);
    PositionOfOrders(r, atm.symbol);
    r
  }

  /** Iron condor legs: sell the tier-0 OTM call and put first, then buy
      the tier-1 ones. */
  function IronCondorOrders(callBuy: Contract, callSell: Contract, putBuy: Contract, putSell: Contract, q: int): (r: seq<Effect>)
    ensures NetQuantity(r) == 0
    ensures |r| == 4
    ensures forall e :: e in r ==> e.MarketOrder?
    ensures forall i :: 0 <= i < 2 ==> r[i].contract == callSell.symbol || r[i].contract == putSell.symbol
    ensures forall i :: 2 <= i < 4 ==> r[i].contract == callBuy.symbol || r[i].contract == putBuy.symbol
    ensures |{callBuy.symbol, callSell.symbol, putBuy.symbol, putSell.symbol}| == 4 ==>
      && Position(r, callSell.symbol) == -q && Position(r, putSell.symbol) == -q
      && Position(r, callBuy.symbol) == q && Position(r, putBuy.symbol) == q
  {
    var r := [MarketOrder(callSell.symbol, -q), MarketOrder(putSell.symbol, -q),
              MarketOrder(callBuy.symbol, q), MarketOrder(putBuy.symbol, q)];
    NetQuantityOfOrders(r);
    PositionOfOrders(r, callSell.symbol);
    PositionOfOrders(r, putSell.symbol);
    PositionOfOrders(r, callBuy.symbol);
    PositionOfOrders(r, putBuy.symbol);
    r
  }
}
