# BollingerBandsPolicy, modelled in Dafny

A Dafny model of `BollingerBandsPolicy`, a trading policy for a single Uniswap V3
pool, with proofs of what the policy guarantees.

On every call of `predict` the policy reads the pool's price and liquidity. It
appends the price to a bounded price window (a `deque` whose `maxlen` is
`window`) and both readings to unbounded histories. Then it recomputes two
indicators:

- the Bollinger bands over the window: mean ± `std_dev_multiplier` standard
  deviations, or `(0, 0, 0)` while the window is not full;
- the correlation of the last `corr_window` prices with the last
  `corr_window` liquidities, or `0.0` while the histories are shorter.

Each computed band pair and correlation is appended to a diagnostic log.
`predict` does this read-and-recompute block twice, back to back. Once
the window is full it applies two entry rules to the second reading:

- buy 0.3 of the token1 holding when the direction allows longs, the price is
  under the lower band and the correlation is below -0.5;
- sell 0.3 of the token0 holding when the direction allows shorts, the price
  is over the upper band and the correlation is below -0.5.

Files:

- `stats.dfy` (module `Stats`): sum, mean and extremes of a window, the
  properties of a standard deviation, and lemmas about the mean.
- `rolling.dfy` (module `Rolling`): the tail kept by a bounded deque and
  Python's `s[-n:]` slice.
- `signals.dfy` (module `Signals`): the configuration, the bands, the
  correlation gate and the decision rule, with their lemmas.
- `policy.dfy` (module `Policy`): the policy's state as a value
  (`PolicyState`), one call as a function (`Step`), a run of calls (`Run`),
  and the class `BollingerBandsPolicy`. Its methods update the fields in
  place and are proved equal to those functions.

Two things the code does that are easy to miss:

- The read-and-recompute block runs twice per call. So each
  call appends two prices, and the window of size `window` fills after
  ⌈window/2⌉ calls (10 calls for `window = 20`), not after `window` calls.
  `Policy.WarmUpCalls` states this.
- The comments say "Trade 10%", but the code multiplies by `Decimal("0.3")`.
  The model uses 0.3 (`Signals.TradeFraction`).

`calculate_sma` is `Policy.BollingerBandsPolicy.CalculateSma`, whose value is
`Stats.Mean` of the window.

## Model

| member | source | states |
|---|---|---|
| Policy.BollingerBandsPolicy.constructor | bounty-2/policy.py:24-38 | the configuration is stored, the window, the histories and the logs start empty, and the object invariant holds |
| Policy.BollingerBandsPolicy.CalculateSma | bounty-2/policy.py:40-42 | the simple moving average of the (non-empty) window lies between its smallest and largest price |
| Stats.MeanWithinExtremes | bounty-2/policy.py:40-42 | the simple moving average of a non-empty window lies between its smallest and largest price |
| Stats.MeanOfConstant | bounty-2/policy.py:40-42 | the moving average of a window holding one repeated price is that price |
| Rolling.DequeAppendKeepsNewest | bounty-2/policy.py:33 | appending to a deque with a maxlen keeps the newest elements: the result is the last min(maxlen, n+1) elements, never more than maxlen |
| Rolling.DequeAppendTracksHistory | bounty-2/policy.py:82-83 | if the deque holds the tail of the price history, appending a price to both keeps the deque equal to the tail of the extended history |
| Rolling.PyTail | bounty-2/policy.py:64-65 | `s[-n:]` is the last n elements when 0 < n <= len(s), and the whole list when n is 0 or exceeds its length |
| Signals.BandsOf | bounty-2/policy.py:46-52 | bands are computed exactly when the window holds `window` prices; otherwise there are none |
| Signals.BandsAroundMean | bounty-2/policy.py:49-52 | a full window's middle band is its mean, and the upper and lower bands lie std × multiplier above and below it |
| Signals.MiddleWithinWindow | bounty-2/policy.py:49 | the middle band lies between the smallest and the largest windowed price |
| Signals.BandsOrdered | bounty-2/policy.py:50-52 | with a non-negative multiplier, lower <= middle <= upper |
| Signals.BandsOfConstantWindow | bounty-2/policy.py:49-52 | a window of one repeated price puts all three bands at that price, whatever the multiplier |
| Signals.BandsStrictIffVaried | bounty-2/policy.py:50-52 | with a positive multiplier, lower < middle < upper holds exactly when the window holds two different prices |
| Signals.CorrelationGate | bounty-2/policy.py:62-71 | on histories of equal length the shape check never fails; a correlation is computed exactly when the histories hold `corr_window` entries, from their trailing `corr_window` entries, or from all of them when `corr_window` is 0 |
| Signals.CorrelationDefaultOnShortHistory | bounty-2/policy.py:72 | when either history is shorter than `corr_window`, nothing is computed and the result is 0.0 |
| Signals.Decide | bounty-2/policy.py:106-133 | no intent before the window is full; afterwards, one intent per rule that fires, the buy intent first and the sell intent last |
| Signals.NoTradeWithoutInverseCorrelation | bounty-2/policy.py:112-123 | a correlation at or above -0.5 (so also the 0.0 default) yields no intent |
| Signals.AtMostOneIntent | bounty-2/policy.py:112-131 | when lower <= upper, at most one rule fires |
| Signals.LongOnlyNeverSells | bounty-2/policy.py:112-131 | with a positive direction the result is the buy intent or nothing |
| Signals.ShortOnlyNeverBuys | bounty-2/policy.py:112-131 | with a negative direction the result is the sell intent or nothing |
| Signals.IntentsAreOneSided | bounty-2/policy.py:113-130 | every intent is the buy intent (0, 0.3 × token1) or the sell intent (0.3 × token0, 0), so it moves only one token |
| Policy.WindowBound | bounty-2/policy.py:33 | under the invariant the window never holds more than `window` prices, and holds min(window, history length) |
| Policy.RecordedPreservesInv | bounty-2/policy.py:82-84 | recording a reading keeps the invariant; each history grows by exactly that reading, and the logs are unchanged |
| Policy.WithBandsEffect | bounty-2/policy.py:46-56 | computing the bands changes only the two band logs; it appends one entry to each when the window is full and nothing otherwise |
| Policy.WithCorrelationEffect | bounty-2/policy.py:62-72 | computing the correlation changes only its log; under the invariant it appends one entry exactly when the histories hold `corr_window` entries |
| Policy.RecomputeIsStable | bounty-2/policy.py:44-72 | after computing the bands or the correlation, computing either again without a new reading gives the same value |
| Policy.PassPreservesInv | bounty-2/policy.py:81-88 | one read-and-recompute block keeps the invariant, appends the reading to both histories, and appends at most one entry to each log, exactly one once the relevant history is long enough |
| Policy.StepPreservesInv | bounty-2/policy.py:81-102 | a whole call keeps the invariant and appends the first and then the second reading to both histories |
| Policy.StepAppendsToLogs | bounty-2/policy.py:87-102 | a whole call only appends to the three logs, at most two entries each |
| Policy.IntentsBound | bounty-2/policy.py:109-133 | a call returns at most two intents, each the buy or the sell intent |
| Policy.AtMostOneIntentPerCall | bounty-2/policy.py:112-131 | for a true standard deviation and a non-negative multiplier, a call returns at most one intent |
| Policy.StepOutcome | bounty-2/policy.py:75-133 | after a call the window is full exactly when the history held at least `window` - 2 prices before it; until then, or while the history is shorter than `corr_window`, the call returns nothing |
| Policy.RunInv | bounty-2/policy.py:82-98 | after any sequence of calls from construction: the invariant holds, the histories hold every reading in order (two per call), and the window holds the last `window` prices read |
| Policy.WarmUpCalls | bounty-2/policy.py:106-107 | after n calls the window is full exactly when 2n >= window, and calls before that return nothing |
| Policy.NoIntentBeforeCorrWindow | bounty-2/policy.py:62-72 | while 2n < `corr_window`, the n-th call returns nothing |
| Policy.BollingerBandsPolicy.CalculateBollingerBands | bounty-2/policy.py:44-58 | returns (lower, middle, upper) of the full window, or (0, 0, 0); appends to the band logs exactly as `WithBands` says and changes nothing else |
| Policy.BollingerBandsPolicy.CalculateCorrelation | bounty-2/policy.py:60-72 | returns the correlation of the trailing `corr_window` entries, or 0.0; appends it to its log exactly as `WithCorrelation` says |
| Policy.BollingerBandsPolicy.Record | bounty-2/policy.py:81-84 | the price joins the window and the history, and the liquidity joins its history |
| Policy.BollingerBandsPolicy.FetchAndCompute | bounty-2/policy.py:81-88 | one read-and-recompute block: the new state is `Pass`, and the returned bands and correlation are those of the new state |
| Policy.BollingerBandsPolicy.Observe | bounty-2/policy.py:80-102 | both blocks: the new state is `Step`, the object invariant is kept, and the second block's results are returned |
| Policy.BollingerBandsPolicy.Predict | bounty-2/policy.py:75-133 | the new state is `Step` of the old; the result is `Intents` of the new state; both readings are appended to the histories; the window is full exactly when 2 × calls >= window, and nothing is returned before that or while the history is shorter than `corr_window`; at most two intents, at most one for a true standard deviation and a non-negative multiplier |
| Policy.BollingerBandsPolicy.EntryRules | bounty-2/policy.py:109-133 | the two rules, applied in order to the given price, bands and correlation, give `Decide` on a full window |

## Left out

- Floating point and NaN: prices, liquidities, bands and correlations are exact reals. numpy's NaN results are not modelled. For example, `corrcoef` of a constant series is NaN and never passes `< -0.5`, while the model's correlation is always some real.
- `np.std` and `np.corrcoef` are not computed. They are the configuration's `std` and `corr` functions. Properties that depend on `std` being a standard deviation assume `Stats.IsStdDev` (non-negative, zero exactly on a constant window) as a precondition.
- The observation interface (`obs.pools`, `obs.pool_tokens`, `obs.price`, `obs.liquidity`) is not modelled. `Predict` takes the two readings as `Sample` parameters and the agent's holdings as a `Holdings` parameter. Both readings of one call come from the same `obs`, so in the program they are equal. The model lets them differ, which is more general: every property proved holds in particular when they are equal. The model also does not capture that the liquidity is read from `obs.pools[0]` while the price is read from `self.pool`.
- `obs.add_signal` is left out: it only reports the correlation to the framework, and no policy state depends on it.
- `Config` takes every constructor parameter explicitly. The defaults `window=20`, `std_dev_multiplier=2.0`, `corr_window=20` and `direction=0` are not modelled.
- The dojo framework is not part of this model: `BasePolicy`, the agent and the pool name. `UniswapV3Trade` becomes `Trade(qx, qy)` and `Decimal` arithmetic becomes real arithmetic.
- A `window` of zero or below is excluded by the type `Pos`. Python would average an empty deque to NaN, or raise when it creates the deque. A negative `corr_window` is excluded by `nat`. Python would read it as a slice from the front.
- `prices.ndim == 1` is always true for one-dimensional histories, so the model only checks the shapes.
- Running the policy in a simulation environment is not part of this model.
