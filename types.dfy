/**
 * The values the trading engine works on: option contracts as the host's
 * chain snapshot presents them, strategy labels, per-ticker status, the
 * configuration fixed at initialisation, and the effects (orders and
 * liquidations) the engine hands to the host.
 */
module Types {

  datatype Option<+T> = None | Some(value: T)

  /** An underlying's ticker, e.g. "SPY". */
  type Ticker = string

  /** The host's identifier of one option contract. */
  type ContractId = string

  /** A calendar day as a day number; the source compares dates through
      their "%m/%d/%Y" rendering, which is one-to-one on days. */
  type Day = int

  datatype Right = Call | Put

  /** One contract of a chain snapshot: the fields the engine reads. */
  datatype Contract = Contract(
    symbol: ContractId,
    underlying: Ticker,
    right: Right,
    strike: real,
    underlyingLastPrice: real,
    expiry: Day,
    askPrice: real)

  /** The algorithm's clock at a tick. */
  datatype Clock = Clock(day: Day, hour: int, minute: int)

  /** The strategy labels the source knows. */
  datatype Strategy =
    | Straddle
    | ShortStraddle
    | Strangle
    | Butterfly
    | Condor
    | IronButterfly
    | IronCondor

  /** A ticker's status: the label "None", or the label of the strategy held. */
  datatype Status = Flat | Holding(strategy: Strategy)

  /** The (call, put) pair of contracts recorded for a ticker on entry. */
  datatype Pair = Pair(call: ContractId, put: ContractId)

  /** Per-ticker bounds, one entry of each of the source's bound dictionaries. */
  datatype Bounds = Bounds(
    shortBound: real,
    longBound: real,
    extremeLower: real,
    extremeUpper: real,
    volSpike: real)

  /** The constants set once at initialisation. */
  datatype Config = Config(
    stockList: seq<Ticker>,
    bounds: map<Ticker, Bounds>,
    longStrat: Strategy,
    shortStrat: Strategy,
    pauseLength: nat,
    stopPercentage: real,
    vixIndicatorOn: bool,
    vixPause: nat)

  /** The two volatility spreads computed for a ticker at a tick:
      HV minus the ATM implied volatility, and short-window HV minus HV. */
  datatype Spreads = Spreads(hvIv: real, historicVol: real)

  /** What the host reports at a tick: ask quotes of held contracts, the
      spreads per ticker, the order size it computes for a contract
      (CalculateOrderQuantity at 2.5%), and whether a contract is held. */
  datatype Market = Market(
    askPrice: ContractId -> real,
    spreads: Ticker -> Spreads,
    orderQuantity: ContractId -> int,
    invested: ContractId -> bool)

  /** One call of OnData: warm-up flag, clock, the outcome of the VIX
      z-score test, and the option chains of the slice. */
  datatype Tick = Tick(
    warmingUp: bool,
    time: Clock,
    vixSpike: bool,
    chains: seq<seq<Contract>>)

  /** Requests handed to the host, in the order they are made. A contract
      liquidation carries None when the ticker's recorded pair is empty. */
  datatype Effect =
    | LiquidateTicker(ticker: Ticker)
    | LiquidateContract(target: Option<ContractId>)
    | MarketOrder(contract: ContractId, quantity: int)

  /** How a piece of OnData ends: it ran to its end, it hit `return`, or it
      raised (an empty `max`, an index past the end of a sorted list). */
  datatype Flow = Proceed | Returned | Raised
}
