/** The indicators and the decision rule of the Bollinger-bands policy:
    its configuration, the bands over the price window, the rolling
    price/liquidity correlation and the two entry rules that turn them into
    trade intents. */
module Signals {
  import opened Stats
  import opened Rolling

  datatype Option<T> = None | Some(value: T)

  /** A positive integer: the capacity of the price window. */
  type Pos = n: int | n >= 1 witness 1

  /** The Pearson correlation coefficient of two equally long series
      (`np.corrcoef(prices, liquidity)[0, 1]`). */
  type CorrFn = (seq<real>, seq<real>) -> real

  /** Construction-time configuration. `direction` is 0 for both sides,
      -1 for short only and 1 for long only; any other integer is accepted
      and acts by its sign. `std` and `corr` stand for numpy's `std` and
      `corrcoef`. */
  datatype Config = Config(
    window: Pos,
    stdDevMultiplier: real,
    corrWindow: nat,
    direction: int,
    std: seq<real> -> real,
    corr: CorrFn)

  /** One reading of the observation: the pool price of token0 in token1 and
      the pool liquidity. */
  datatype Sample = Sample(price: real, liquidity: real)

  /** The acting agent's current holdings of the pool's two tokens. */
  datatype Holdings = Holdings(token0: real, token1: real)

  /** A trade intent on the pool: the quantities of token0 and token1. */
  datatype Trade = Trade(qx: real, qy: real)

  datatype BandTriple = BandTriple(lower: real, middle: real, upper: real)

  /** What `calculate_bollinger_bands` returns while the window is not full. */
  const NotEnoughData := BandTriple(0.0, 0.0, 0.0)

  /** The correlation must be below this for either rule to fire. */
  const CorrThreshold: real := -0.5

  /** The share of a holding that a trade intent moves: Decimal("0.3"). */
  const TradeFraction: real := 0.3

  /** `np.std(w)`: the configured standard deviation of a window. */
  function StdDev(cfg: Config, w: seq<real>): real
  {
    cfg.std(w)
  }

  /** `np.corrcoef(p, l)[0, 1]`: the configured correlation of two series. */
  function Correlation(cfg: Config, p: seq<real>, l: seq<real>): real
  {
    cfg.corr(p, l)
  }

  /** The bands over a price window: None while the window holds fewer than
      `window` prices, otherwise the mean and the mean plus and minus
      `stdDevMultiplier` standard deviations. */
  function BandsOf(cfg: Config, w: seq<real>): (b: Option<BandTriple>)
    ensures b.None? <==> |w| < cfg.window
  {
    if |w| < cfg.window then None
    else
      var middle := Mean(w);
      var width := StdDev(cfg, w) * cfg.stdDevMultiplier;
      Some(BandTriple(middle - width, middle, middle + width))
  }

  /** The triple `calculate_bollinger_bands` returns. */
  function BandsOrSentinel(b: Option<BandTriple>): BandTriple
  {
    if b.Some? then b.value else NotEnoughData
  }

  /** The rolling correlation: None when either history is shorter than
      `corrWindow` (or, which the lock-step histories rule out, the two
      trailing slices differ in length), otherwise the correlation of the
      trailing `corrWindow` prices and liquidities. */
  function CorrelationOf(cfg: Config, prices: seq<real>, liquidity: seq<real>): Option<real>
  {
    if |prices| >= cfg.corrWindow && |liquidity| >= cfg.corrWindow then
      var p := PyTail(prices, cfg.corrWindow);
      var l := PyTail(liquidity, cfg.corrWindow);
      if |p| == |l| then Some(Correlation(cfg, p, l)) else None
    else None
  }

  /** The value `calculate_correlation` returns: 0.0 when nothing was computed. */
  function CorrelationOrDefault(c: Option<real>): real
  {
    if c.Some? then c.value else 0.0
  }

  /** What a computation appends to its diagnostic log. */
  function Logged(c: Option<real>): seq<real>
  {
    if c.Some? then [c.value] else []
  }

  function UpperLogged(b: Option<BandTriple>): seq<real>
  {
    if b.Some? then [b.value.upper] else []
  }

  function LowerLogged(b: Option<BandTriple>): seq<real>
  {
    if b.Some? then [b.value.lower] else []
  }

  /** The buy (long) intent: 30% of the token1 holding, nothing of token0. */
  function BuyIntent(held: Holdings): Trade
  {
    Trade(0.0, held.token1 * TradeFraction)
  }

  /** The sell (short) intent: 30% of the token0 holding, nothing of token1. */
  function SellIntent(held: Holdings): Trade
  {
    Trade(held.token0 * TradeFraction, 0.0)
  }

  /** The long-entry rule: longs allowed, price under the lower band and an
      inverse price/liquidity correlation. */
  predicate BuySignal(cfg: Config, price: real, b: BandTriple, corr: real)
  {
    cfg.direction >= 0 && price < b.lower && corr < CorrThreshold
  }

  /** The short-entry rule: shorts allowed, price over the upper band and an
      inverse price/liquidity correlation. */
  predicate SellSignal(cfg: Config, price: real, b: BandTriple, corr: real)
  {
    cfg.direction <= 0 && price > b.upper && corr < CorrThreshold
  }

  /** The intents of one step: none until the window is full, then the buy
      intent if the long rule fires followed by the sell intent if the short
      rule fires. */
  function Decide(cfg: Config, ready: bool, price: real, b: BandTriple, corr: real, held: Holdings): (r: seq<Trade>)
    ensures !ready ==> r == []
    ensures ready ==> |r| == (if BuySignal(cfg, price, b, corr) then 1 else 0)
                           + (if SellSignal(cfg, price, b, corr) then 1 else 0)
    ensures ready && BuySignal(cfg, price, b, corr) ==> r[0] == BuyIntent(held)
    ensures ready && SellSignal(cfg, price, b, corr) ==> r[|r| - 1] == SellIntent(held)
  {
    if !ready then []
    else
      (if BuySignal(cfg, price, b, corr) then [BuyIntent(held)] else [])
      + (if SellSignal(cfg, price, b, corr) then [SellIntent(held)] else [])
  }

  // ---------------------------------------------------------------------
  // Properties of the bands

  /** A full window's bands are centred on its mean and are equally far,
      `stdDevMultiplier` standard deviations, from it on either side. */
  lemma BandsAroundMean(cfg: Config, w: seq<real>)
    requires |w| >= cfg.window
    ensures BandsOf(cfg, w).Some?
    ensures BandsOf(cfg, w).value.middle == Mean(w)
    ensures BandsOf(cfg, w).value.upper - BandsOf(cfg, w).value.middle
         == BandsOf(cfg, w).value.middle - BandsOf(cfg, w).value.lower
         == cfg.std(w) * cfg.stdDevMultiplier
  {
  }

  /** The middle band lies between the smallest and the largest windowed price. */
  lemma MiddleWithinWindow(cfg: Config, w: seq<real>)
    requires |w| >= cfg.window
    ensures Min(w) <= BandsOf(cfg, w).value.middle <= Max(w)
  {
    MeanWithinExtremes(w);
  }

  /** With a non-negative multiplier the bands are ordered. */
  lemma BandsOrdered(cfg: Config, w: seq<real>)
    requires IsStdDev(cfg.std) && |w| >= cfg.window && cfg.stdDevMultiplier >= 0.0
    ensures BandsOf(cfg, w).value.lower <= BandsOf(cfg, w).value.middle <= BandsOf(cfg, w).value.upper
  {
    assert cfg.std(w) >= 0.0;
  }

  /** A window of one repeated price has all three bands at that price,
      whatever the multiplier. */
  lemma BandsOfConstantWindow(cfg: Config, w: seq<real>)
    requires IsStdDev(cfg.std) && |w| >= cfg.window && IsConstant(w)
    ensures BandsOf(cfg, w) == Some(BandTriple(w[0], w[0], w[0]))
  {
    MeanOfConstant(w);
    assert cfg.std(w) == 0.0;
    BandsAroundMean(cfg, w);
    var b := BandsOf(cfg, w).value;
    assert b.middle == b.upper == b.lower == w[0];
  }

  /** With a positive multiplier the bands of a full window are strictly
      ordered exactly when the window holds two different prices. */
  lemma BandsStrictIffVaried(cfg: Config, w: seq<real>)
    requires IsStdDev(cfg.std) && |w| >= cfg.window && cfg.stdDevMultiplier > 0.0
    ensures var b := BandsOf(cfg, w).value;
            (b.lower < b.middle < b.upper) <==> !IsConstant(w)
  {
    if IsConstant(w) {
      BandsOfConstantWindow(cfg, w);
    } else {
      assert cfg.std(w) > 0.0;
    }
  }

  // ---------------------------------------------------------------------
  // Properties of the correlation

  /** On lock-step histories the shape check never fails: a correlation is
      computed exactly when the histories hold `corrWindow` entries, and it is
      computed from their trailing `corrWindow` entries (from all of them
      when `corrWindow` is 0). */
  lemma CorrelationGate(cfg: Config, prices: seq<real>, liquidity: seq<real>)
    requires |prices| == |liquidity|
    ensures CorrelationOf(cfg, prices, liquidity).Some? <==> |prices| >= cfg.corrWindow
    ensures 0 < cfg.corrWindow <= |prices| ==>
      CorrelationOf(cfg, prices, liquidity)
        == Some(cfg.corr(prices[|prices| - cfg.corrWindow..], liquidity[|liquidity| - cfg.corrWindow..]))
    ensures cfg.corrWindow == 0 ==> CorrelationOf(cfg, prices, liquidity) == Some(cfg.corr(prices, liquidity))
  {
  }

  /** Too short a history yields the 0.0 default. */
  lemma CorrelationDefaultOnShortHistory(cfg: Config, prices: seq<real>, liquidity: seq<real>)
    requires |prices| < cfg.corrWindow || |liquidity| < cfg.corrWindow
    ensures CorrelationOf(cfg, prices, liquidity) == None
    ensures CorrelationOrDefault(CorrelationOf(cfg, prices, liquidity)) == 0.0
  {
  }

  // ---------------------------------------------------------------------
  // Properties of the decision rule

  /** The rules need an inverse correlation: below -0.5, which the 0.0
      default never is. */
  lemma NoTradeWithoutInverseCorrelation(cfg: Config, ready: bool, price: real, b: BandTriple, corr: real, held: Holdings)
    requires corr >= CorrThreshold
    ensures Decide(cfg, ready, price, b, corr, held) == []
  {
  }

  /** Ordered bands let at most one rule fire: the price cannot be both
      under the lower and over the upper band. */
  lemma AtMostOneIntent(cfg: Config, ready: bool, price: real, b: BandTriple, corr: real, held: Holdings)
    requires b.lower <= b.upper
    ensures |Decide(cfg, ready, price, b, corr, held)| <= 1
  {
  }

  /** Long-only (positive direction) emits only buy intents. */
  lemma LongOnlyNeverSells(cfg: Config, ready: bool, price: real, b: BandTriple, corr: real, held: Holdings)
    requires cfg.direction > 0
    ensures Decide(cfg, ready, price, b, corr, held)
         == (if ready && BuySignal(cfg, price, b, corr) then [BuyIntent(held)] else [])
  {
  }

  /** Short-only (negative direction) emits only sell intents. */
  lemma ShortOnlyNeverBuys(cfg: Config, ready: bool, price: real, b: BandTriple, corr: real, held: Holdings)
    requires cfg.direction < 0
    ensures Decide(cfg, ready, price, b, corr, held)
         == (if ready && SellSignal(cfg, price, b, corr) then [SellIntent(held)] else [])
  {
  }

  /** Each intent moves exactly one of the two tokens. */
  lemma IntentsAreOneSided(cfg: Config, ready: bool, price: real, b: BandTriple, corr: real, held: Holdings)
    ensures forall t :: t in Decide(cfg, ready, price, b, corr, held) ==>
      t == BuyIntent(held) || t == SellIntent(held)
    ensures forall t :: t in Decide(cfg, ready, price, b, corr, held) ==> t.qx == 0.0 || t.qy == 0.0
  {
  }
}
