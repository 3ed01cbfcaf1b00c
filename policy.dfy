/** The Bollinger-bands trading policy for a single Uniswap V3 pool
    (`BollingerBandsPolicy`). The object keeps a bounded price window, the
    price and liquidity histories and three diagnostic logs. Each call of
    Predict reads the observation twice: each reading records the price and
    liquidity and then recomputes (and logs) the bands and the correlation.
    The entry rules then run on the second reading's results. */
module Policy {
  import opened Stats
  import opened Rolling
  import opened Signals

  /** The policy's mutable state, as a value. */
  datatype PolicyState = PolicyState(
    priceWindow: seq<real>,
    priceHist: seq<real>,
    liquidity: seq<real>,
    upperBand: seq<real>,
    lowerBand: seq<real>,
    correlationHist: seq<real>)

  /** The state right after construction. */
  const Initial := PolicyState([], [], [], [], [], [])

  /** The window holds the last `window` prices of the history, the two
      histories grow in lock-step, and the two band logs do too. */
  predicate Inv(cfg: Config, st: PolicyState)
  {
    && st.priceWindow == Last(st.priceHist, cfg.window)
    && |st.priceHist| == |st.liquidity|
    && |st.upperBand| == |st.lowerBand|
  }

  /** One reading of the observation: the price enters the window (evicting
      the oldest price when it is full) and the price history, the liquidity
      enters the liquidity history. */
  function Recorded(cfg: Config, st: PolicyState, s: Sample): PolicyState
  {
    st.(priceWindow := DequeAppend(st.priceWindow, s.price, cfg.window),
        priceHist := st.priceHist + [s.price],
        liquidity := st.liquidity + [s.liquidity])
  }

  /** The effect of `calculate_bollinger_bands` on the state: a full window
      appends its bands to the two band logs; otherwise nothing changes. */
  function WithBands(cfg: Config, st: PolicyState): PolicyState
  {
    var b := BandsOf(cfg, st.priceWindow);
    st.(upperBand := st.upperBand + UpperLogged(b), lowerBand := st.lowerBand + LowerLogged(b))
  }

  /** The effect of `calculate_correlation` on the state: a computed
      correlation is appended to the correlation log. */
  function WithCorrelation(cfg: Config, st: PolicyState): PolicyState
  {
    st.(correlationHist := st.correlationHist + Logged(CorrelationOf(cfg, st.priceHist, st.liquidity)))
  }

  /** One fetch-and-compute pass of `predict`. */
  function Pass(cfg: Config, st: PolicyState, s: Sample): PolicyState
  {
    WithCorrelation(cfg, WithBands(cfg, Recorded(cfg, st, s)))
  }

  /** The state change of one `predict` call: two passes. */
  function Step(cfg: Config, st: PolicyState, first: Sample, second: Sample): PolicyState
  {
    Pass(cfg, Pass(cfg, st, first), second)
  }

  /** The intents `predict` returns, given the state after its two passes,
      the price of the second reading and the agent's holdings. */
  function Intents(cfg: Config, st: PolicyState, price: real, held: Holdings): seq<Trade>
  {
    Decide(cfg, |st.priceWindow| >= cfg.window, price,
           BandsOrSentinel(BandsOf(cfg, st.priceWindow)),
           CorrelationOrDefault(CorrelationOf(cfg, st.priceHist, st.liquidity)), held)
  }

  // ---------------------------------------------------------------------
  // One call

  /** The window holds exactly min(window, |priceHist|) prices. */
  lemma WindowBound(cfg: Config, st: PolicyState)
    requires Inv(cfg, st)
    ensures |st.priceWindow| <= cfg.window
    ensures |st.priceWindow| == if |st.priceHist| < cfg.window then |st.priceHist| else cfg.window as int
  {
  }

  /** Recording a reading keeps the window the tail of the price history and
      the histories in lock-step, and touches no log. */
  lemma RecordedPreservesInv(cfg: Config, st: PolicyState, s: Sample)
    requires Inv(cfg, st)
    ensures var r := Recorded(cfg, st, s);
      && Inv(cfg, r)
      && r.priceHist == st.priceHist + [s.price]
      && r.liquidity == st.liquidity + [s.liquidity]
      && r.upperBand == st.upperBand && r.lowerBand == st.lowerBand
      && r.correlationHist == st.correlationHist
  {
    DequeAppendTracksHistory(st.priceHist, s.price, cfg.window);
  }

  /** Computing the bands logs one upper and one lower band exactly when the
      window is full, and changes nothing else. */
  lemma WithBandsEffect(cfg: Config, st: PolicyState)
    requires Inv(cfg, st)
    ensures var r := WithBands(cfg, st);
      && Inv(cfg, r)
      && r.priceWindow == st.priceWindow && r.priceHist == st.priceHist
      && r.liquidity == st.liquidity && r.correlationHist == st.correlationHist
      && r.upperBand[..|st.upperBand|] == st.upperBand
      && r.lowerBand[..|st.lowerBand|] == st.lowerBand
      && |r.upperBand| == |st.upperBand| + (if |st.priceHist| >= cfg.window then 1 else 0)
  {
    var r := WithBands(cfg, st);
    assert r.upperBand[..|st.upperBand|] == st.upperBand;
    assert r.lowerBand[..|st.lowerBand|] == st.lowerBand;
  }

  /** Computing the correlation logs one entry exactly when the histories
      hold `corrWindow` entries, and changes nothing else. */
  lemma WithCorrelationEffect(cfg: Config, st: PolicyState)
    requires Inv(cfg, st)
    ensures var r := WithCorrelation(cfg, st);
      && Inv(cfg, r)
      && r.priceWindow == st.priceWindow && r.priceHist == st.priceHist
      && r.liquidity == st.liquidity
      && r.upperBand == st.upperBand && r.lowerBand == st.lowerBand
      && r.correlationHist[..|st.correlationHist|] == st.correlationHist
      && |r.correlationHist| == |st.correlationHist| + (if |st.priceHist| >= cfg.corrWindow then 1 else 0)
  {
    CorrelationGate(cfg, st.priceHist, st.liquidity);
    var r := WithCorrelation(cfg, st);
    assert r.correlationHist[..|st.correlationHist|] == st.correlationHist;
  }

  /** Computing the bands or the correlation again, without a new reading,
      gives the same result: each computation changes only its own log. */
  lemma RecomputeIsStable(cfg: Config, st: PolicyState)
    ensures BandsOf(cfg, WithBands(cfg, st).priceWindow) == BandsOf(cfg, st.priceWindow)
    ensures BandsOf(cfg, WithCorrelation(cfg, st).priceWindow) == BandsOf(cfg, st.priceWindow)
    ensures var r := WithBands(cfg, st);
            CorrelationOf(cfg, r.priceHist, r.liquidity) == CorrelationOf(cfg, st.priceHist, st.liquidity)
    ensures var r := WithCorrelation(cfg, st);
            CorrelationOf(cfg, r.priceHist, r.liquidity) == CorrelationOf(cfg, st.priceHist, st.liquidity)
  {
  }

  /** `after` is `before` with at most k entries appended. */
  predicate AppendOnly(before: seq<real>, after: seq<real>, k: nat)
  {
    |before| <= |after| <= |before| + k && after[..|before|] == before
  }

  /** Appending at most j and then at most k entries appends at most j + k. */
  lemma AppendOnlyTrans(a: seq<real>, b: seq<real>, c: seq<real>, j: nat, k: nat)
    requires AppendOnly(a, b, j) && AppendOnly(b, c, k)
    ensures AppendOnly(a, c, j + k)
  {
    assert c[..|a|] == c[..|b|][..|a|];
  }

  /** A pass keeps the invariant, lengthens each history by one, and appends
      one entry to each log exactly when there was something to compute. */
  lemma {:induction false} PassPreservesInv(cfg: Config, st: PolicyState, s: Sample)
    requires Inv(cfg, st)
    ensures var r := Pass(cfg, st, s);
      && Inv(cfg, r)
      && r.priceHist == st.priceHist + [s.price]
      && r.liquidity == st.liquidity + [s.liquidity]
      && AppendOnly(st.upperBand, r.upperBand, 1)
      && AppendOnly(st.lowerBand, r.lowerBand, 1)
      && AppendOnly(st.correlationHist, r.correlationHist, 1)
      && |r.upperBand| == |st.upperBand| + (if |r.priceHist| >= cfg.window then 1 else 0)
      && |r.correlationHist| == |st.correlationHist| + (if |r.priceHist| >= cfg.corrWindow then 1 else 0)
  {
    var a := Recorded(cfg, st, s);
    RecordedPreservesInv(cfg, st, s);
    var b := WithBands(cfg, a);
    WithBandsEffect(cfg, a);
    WithCorrelationEffect(cfg, b);
  }

  /** A `predict` call keeps the invariant and lengthens each history by its
      two readings, in order. */
  lemma StepPreservesInv(cfg: Config, st: PolicyState, first: Sample, second: Sample)
    requires Inv(cfg, st)
    ensures var r := Step(cfg, st, first, second);
      && Inv(cfg, r)
      && r.priceHist == st.priceHist + [first.price] + [second.price]
      && r.liquidity == st.liquidity + [first.liquidity] + [second.liquidity]
  {
    PassPreservesInv(cfg, st, first);
    PassPreservesInv(cfg, Pass(cfg, st, first), second);
  }

  /** A `predict` call only appends to the three logs, at most two entries
      to each. */
  lemma StepAppendsToLogs(cfg: Config, st: PolicyState, first: Sample, second: Sample)
    requires Inv(cfg, st)
    ensures var r := Step(cfg, st, first, second);
      && AppendOnly(st.upperBand, r.upperBand, 2)
      && AppendOnly(st.lowerBand, r.lowerBand, 2)
      && AppendOnly(st.correlationHist, r.correlationHist, 2)
  {
    var mid := Pass(cfg, st, first);
    PassPreservesInv(cfg, st, first);
    PassPreservesInv(cfg, mid, second);
    var r := Pass(cfg, mid, second);
    AppendOnlyTrans(st.upperBand, mid.upperBand, r.upperBand, 1, 1);
    AppendOnlyTrans(st.lowerBand, mid.lowerBand, r.lowerBand, 1, 1);
    AppendOnlyTrans(st.correlationHist, mid.correlationHist, r.correlationHist, 1, 1);
  }

  /** A call yields at most two intents, each the buy or the sell intent. */
  lemma IntentsBound(cfg: Config, st: PolicyState, price: real, held: Holdings)
    ensures |Intents(cfg, st, price, held)| <= 2
    ensures forall t :: t in Intents(cfg, st, price, held) ==> t == BuyIntent(held) || t == SellIntent(held)
  {
    IntentsAreOneSided(cfg, |st.priceWindow| >= cfg.window, price,
      BandsOrSentinel(BandsOf(cfg, st.priceWindow)),
      CorrelationOrDefault(CorrelationOf(cfg, st.priceHist, st.liquidity)), held);
  }

  /** With a standard deviation and a non-negative multiplier the bands are
      ordered, so a call yields at most one intent. */
  lemma AtMostOneIntentPerCall(cfg: Config, st: PolicyState, price: real, held: Holdings)
    requires IsStdDev(cfg.std) && cfg.stdDevMultiplier >= 0.0
    ensures |Intents(cfg, st, price, held)| <= 1
  {
    if |st.priceWindow| >= cfg.window {
      BandsOrdered(cfg, st.priceWindow);
    }
  }

  /** What a `predict` call returns: nothing while the two readings leave
      the window short of `window` prices or the histories short of
      `corrWindow` entries, at most two intents in any case, and at most one
      with a standard deviation and a non-negative multiplier. */
  lemma StepOutcome(cfg: Config, st: PolicyState, first: Sample, second: Sample, held: Holdings)
    requires Inv(cfg, st)
    ensures var r := Step(cfg, st, first, second);
            var out := Intents(cfg, r, second.price, held);
      && |r.priceWindow| <= cfg.window
      && (|r.priceWindow| == cfg.window <==> |st.priceHist| + 2 >= cfg.window)
      && (|st.priceHist| + 2 < cfg.window ==> out == [])
      && (|st.priceHist| + 2 < cfg.corrWindow ==> out == [])
      && |out| <= 2
      && (IsStdDev(cfg.std) && cfg.stdDevMultiplier >= 0.0 ==> |out| <= 1)
  {
    StepPreservesInv(cfg, st, first, second);
    var r := Step(cfg, st, first, second);
    WindowBound(cfg, r);
    IntentsBound(cfg, r, second.price, held);
    if IsStdDev(cfg.std) && cfg.stdDevMultiplier >= 0.0 {
      AtMostOneIntentPerCall(cfg, r, second.price, held);
    }
    if |r.priceHist| < cfg.corrWindow {
      CorrelationDefaultOnShortHistory(cfg, r.priceHist, r.liquidity);
    }
  }

  // ---------------------------------------------------------------------
  // A sequence of calls

  /** The inputs of one `predict` call: the two readings and the holdings. */
  datatype Call = Call(first: Sample, second: Sample, held: Holdings)

  /** The state after the given calls, starting from construction. */
  function Run(cfg: Config, calls: seq<Call>): PolicyState
  {
    if calls == [] then Initial
    else
      var last := calls[|calls| - 1];
      Step(cfg, Run(cfg, calls[..|calls| - 1]), last.first, last.second)
  }

  /** The intents the last of the given calls returns. */
  function LastReturned(cfg: Config, calls: seq<Call>): seq<Trade>
    requires calls != []
  {
    var last := calls[|calls| - 1];
    Intents(cfg, Run(cfg, calls), last.second.price, last.held)
  }

  /** The prices the given calls read, in order: two per call. */
  function Prices(calls: seq<Call>): (p: seq<real>)
    ensures |p| == 2 * |calls|
  {
    if calls == [] then []
    else
      var last := calls[|calls| - 1];
      Prices(calls[..|calls| - 1]) + [last.first.price] + [last.second.price]
  }

  /** The liquidities the given calls read, in order: two per call. */
  function Liquidities(calls: seq<Call>): (l: seq<real>)
    ensures |l| == 2 * |calls|
  {
    if calls == [] then []
    else
      var last := calls[|calls| - 1];
      Liquidities(calls[..|calls| - 1]) + [last.first.liquidity] + [last.second.liquidity]
  }

  /** After any sequence of calls the invariant holds, the histories hold
      every reading in order, and the window holds the last `window` prices
      read. */
  lemma {:induction false} RunInv(cfg: Config, calls: seq<Call>)
    ensures Inv(cfg, Run(cfg, calls))
    ensures Run(cfg, calls).priceHist == Prices(calls)
    ensures Run(cfg, calls).liquidity == Liquidities(calls)
    ensures Run(cfg, calls).priceWindow == Last(Prices(calls), cfg.window)
    ensures |Run(cfg, calls).priceHist| == 2 * |calls|
  {
    if calls != [] {
      var prefix := calls[..|calls| - 1];
      RunInv(cfg, prefix);
      var last := calls[|calls| - 1];
      StepPreservesInv(cfg, Run(cfg, prefix), last.first, last.second);
    }
  }

  /** Warm-up over a run: after n calls the window is full exactly when
      2n >= window, and until then every call returns no intent, so the
      first call that can trade is call number ceil(window / 2). */
  lemma WarmUpCalls(cfg: Config, calls: seq<Call>)
    requires calls != []
    ensures (|Run(cfg, calls).priceWindow| == cfg.window) <==> 2 * |calls| >= cfg.window
    ensures 2 * |calls| < cfg.window ==> LastReturned(cfg, calls) == []
  {
    RunInv(cfg, calls);
  }

  /** No call returns an intent while the histories are shorter than
      `corrWindow`. */
  lemma NoIntentBeforeCorrWindow(cfg: Config, calls: seq<Call>)
    requires calls != [] && 2 * |calls| < cfg.corrWindow
    ensures LastReturned(cfg, calls) == []
  {
    var st := Run(cfg, calls);
    RunInv(cfg, calls);
    CorrelationDefaultOnShortHistory(cfg, st.priceHist, st.liquidity);
  }

  // ---------------------------------------------------------------------
  // The policy object

  class BollingerBandsPolicy {
    const cfg: Config
    /** The last `window` prices, oldest first (a deque with maxlen = window). */
    var priceWindow: seq<real>
    var priceHist: seq<real>
    var liquidity: seq<real>
    var upperBand: seq<real>
    var lowerBand: seq<real>
    var correlationHist: seq<real>
    /** The number of Predict calls made so far. */
    ghost var calls: nat

    /** The object's fields as a PolicyState value. */
    function State(): PolicyState
      reads this
    {
      PolicyState(priceWindow, priceHist, liquidity, upperBand, lowerBand, correlationHist)
    }

    /** The state invariant, and two readings per call. */
    ghost predicate Valid()
      reads this
    {
      Inv(cfg, State()) && |priceHist| == 2 * calls
    }

    constructor (cfg: Config)
      ensures Valid() && this.cfg == cfg && calls == 0
      ensures State() == Initial
    {
      this.cfg := cfg;
      priceWindow, priceHist, liquidity := [], [], [];
      upperBand, lowerBand, correlationHist := [], [], [];
      calls := 0;
    }

    /** `calculate_sma`: the mean of the window, which lies between its
        smallest and largest price. */
    function CalculateSma(): (r: real)
      reads this
      requires priceWindow != []
      ensures Min(priceWindow) <= r <= Max(priceWindow)
    {
      MeanWithinExtremes(priceWindow);
      Mean(priceWindow)
    }

    /** `calculate_bollinger_bands`: the bands of the window, or the (0, 0, 0)
        sentinel while it is not full; only a full window is logged. */
    method CalculateBollingerBands() returns (lower: real, middle: real, upper: real)
      modifies this`upperBand, this`lowerBand
      ensures BandTriple(lower, middle, upper) == BandsOrSentinel(BandsOf(cfg, priceWindow))
      ensures State() == WithBands(cfg, old(State()))
    {
      if |priceWindow| < cfg.window {
        return 0.0, 0.0, 0.0;
      }
      middle := CalculateSma();
      var stdDev := StdDev(cfg, priceWindow);
      upper := middle + stdDev * cfg.stdDevMultiplier;
      lower := middle - stdDev * cfg.stdDevMultiplier;
      assert middle == Mean(priceWindow);
      assert BandsOf(cfg, priceWindow).value.upper == upper;
      upperBand := upperBand + [upper];
      lowerBand := lowerBand + [lower];
    }

    /** `calculate_correlation`: the correlation of the trailing `corrWindow`
        prices and liquidities, logged; 0.0 and no log entry when a history
        is too short. */
    method CalculateCorrelation() returns (c: real)
      modifies this`correlationHist
      ensures c == CorrelationOrDefault(CorrelationOf(cfg, priceHist, liquidity))
      ensures State() == WithCorrelation(cfg, old(State()))
    {
      if |priceHist| >= cfg.corrWindow && |liquidity| >= cfg.corrWindow {
        var prices := PyTail(priceHist, cfg.corrWindow);
        var liq := PyTail(liquidity, cfg.corrWindow);
        if |prices| == |liq| {
          c := Correlation(cfg, prices, liq);
          correlationHist := correlationHist + [c];
          return;
        }
      }
      c := 0.0;
    }

    /** One reading of the observation: the price enters the window and the
        price history, the liquidity enters the liquidity history. */
    method Record(s: Sample)
      modifies this`priceWindow, this`priceHist, this`liquidity
      ensures State() == Recorded(cfg, old(State()), s)
    {
      priceWindow := DequeAppend(priceWindow, s.price, cfg.window);
      priceHist := priceHist + [s.price];
      liquidity := liquidity + [s.liquidity];
    }

    /** One fetch-and-compute pass of `predict`: record the reading, then
        compute (and log) the bands and the correlation. */
    method FetchAndCompute(s: Sample) returns (bands: BandTriple, correlation: real)
      modifies this`priceWindow, this`priceHist, this`liquidity
      modifies this`upperBand, this`lowerBand, this`correlationHist
      ensures State() == Pass(cfg, old(State()), s)
      ensures bands == BandsOrSentinel(BandsOf(cfg, priceWindow))
      ensures correlation == CorrelationOrDefault(CorrelationOf(cfg, priceHist, liquidity))
    {
      Record(s);
      var lower, middle, upper := CalculateBollingerBands();
      bands := BandTriple(lower, middle, upper);
      correlation := CalculateCorrelation();
    }

    /** The two fetch-and-compute passes of `predict`: the observation is
        read, recorded and evaluated twice; the results of the second pass
        are returned. */
    method Observe(first: Sample, second: Sample) returns (bands: BandTriple, correlation: real)
      requires Valid()
      modifies this`priceWindow, this`priceHist, this`liquidity
      modifies this`upperBand, this`lowerBand, this`correlationHist, this`calls
      ensures Valid() && calls == old(calls) + 1
      ensures State() == Step(cfg, old(State()), first, second)
      ensures bands == BandsOrSentinel(BandsOf(cfg, priceWindow))
      ensures correlation == CorrelationOrDefault(CorrelationOf(cfg, priceHist, liquidity))
    {
      ghost var st0 := State();
      bands, correlation := FetchAndCompute(first);
      ghost var st1 := State();
      bands, correlation := FetchAndCompute(second);
      assert State() == Step(cfg, st0, first, second) by {
        assert State() == Pass(cfg, st1, second);
      }
      StepPreservesInv(cfg, st0, first, second);
      calls := calls + 1;
    }

    /** `predict`: the two passes, then the warm-up gate and the two entry
        rules on the second pass's price, bands and correlation, sized from
        the given holdings. */
    method Predict(first: Sample, second: Sample, held: Holdings) returns (actions: seq<Trade>)
      requires Valid()
      modifies this
      ensures Valid() && calls == old(calls) + 1
      ensures State() == Step(cfg, old(State()), first, second)
      ensures actions == Intents(cfg, State(), second.price, held)
      ensures priceHist == old(priceHist) + [first.price] + [second.price]
      ensures liquidity == old(liquidity) + [first.liquidity] + [second.liquidity]
      ensures |priceWindow| <= cfg.window
      ensures (|priceWindow| == cfg.window) <==> 2 * calls >= cfg.window
      ensures 2 * calls < cfg.window ==> actions == []
      ensures |priceHist| < cfg.corrWindow ==> actions == []
      ensures |actions| <= 2
      ensures IsStdDev(cfg.std) && cfg.stdDevMultiplier >= 0.0 ==> |actions| <= 1
    {
      ghost var st0 := State();
      var bands, correlation := Observe(first, second);
      StepPreservesInv(cfg, st0, first, second);
      StepOutcome(cfg, st0, first, second, held);
      if |priceWindow| < cfg.window {
        actions := [];
      } else {
        actions := EntryRules(second.price, bands, correlation, held);
      }
    }

    /** The two entry rules of `predict` once the window is full: the buy
        intent when the long rule fires, then the sell intent when the short
        rule fires. */
    method EntryRules(price: real, bands: BandTriple, correlation: real, held: Holdings)
      returns (actions: seq<Trade>)
      ensures actions == Decide(cfg, true, price, bands, correlation, held)
    {
      actions := [];
      if cfg.direction >= 0 && price < bands.lower && correlation < CorrThreshold {
        actions := actions + [BuyIntent(held)];
      }
      if cfg.direction <= 0 && price > bands.upper && correlation < CorrThreshold {
        actions := actions + [SellIntent(held)];
      }
    }
  }
}
