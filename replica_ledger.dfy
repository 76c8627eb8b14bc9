/**
 * What a run of the replication writes into its ledger: the first row
 * values the untouched portfolios, every later row is the previous one
 * carried forward by a self-financing step, and a run that raises nothing
 * ends with one row per step (at least one).
 */
module ReplicaLedger {
  import opened Common
  import opened PyMath
  import CO = CallOptions
  import opened PricePaths
  import opened AccountBooks
  import opened Replica

  /** The state construction starts from, before the first `record`. */
  function Initial(o0: CO.Terms, cash0: real): Holdings
  {
    Holdings(o0, cash0, 0.0, 0.0, cash0, 0, [])
  }

  /** The index of the last row after `n` rebalances: the last step never records. */
  function Recorded(c: Setup, n: nat): (k: nat)
    requires WellFormed(c)
    ensures k < |c.prices| && k <= n
    ensures n < c.totalSteps ==> k == n
  {
    if n < c.totalSteps then n else if c.totalSteps > 0 then c.totalSteps - 1 else 0
  }

  /** The option after `k` recorded steps: spot at the path price, `k` steps older. */
  function OptAt(c: Setup, o0: CO.Terms, k: nat): CO.Terms
    requires WellFormed(c) && k < |c.prices|
  {
    if k == 0 then o0 else o0.(spot := c.prices[k], mtyInDays := o0.mtyInDays - k as real * Step(c))
  }

  /** Row `i` (i >= 1) quotes the step's time, path price, delta and option price. */
  ghost predicate StepQuotes(c: Setup, o0: CO.Terms, row: Row, i: nat)
    requires WellFormed(c) && 1 <= i < |c.prices|
  {
    var o := OptAt(c, o0, i);
    && row.t * c.timesPerDay as real == i as real
    && row.assetP == c.prices[i]
    && CO.Delta(o, c.m) == Ok(row.delta)
    && CO.Price(o, c.m) == Ok(row.callP)
  }

  /**
   * Row `i` holds the hedge and the calls; on the first step the benchmark
   * pays for its calls out of the accrued replicating cash, afterwards its
   * cash only accrues.
   */
  ghost predicate StepHoldings(c: Setup, o0: CO.Terms, prev: Row, row: Row, i: nat)
    requires c.timesPerDay > 0
  {
    var g := AccrualFactor(c, o0.rf);
    && row.q == row.delta * c.targetQty
    && row.callQty == c.targetQty
    && (i == 1 ==> row.callCash == prev.cash * g - row.callQty * row.callP)
    && (i > 1 ==> row.callCash == prev.callCash * g)
  }

  /** Both portfolios of a row are valued at the row's own prices. */
  ghost predicate Valued(row: Row)
  {
    && row.mv == row.q * row.assetP + row.cash
    && row.callMv == row.callQty * row.callP + row.callCash
  }

  /**
   * The replicating portfolio of `row` is worth the holdings of `prev` at
   * the new asset price plus the cash of `prev` grown by `g`.
   */
  ghost predicate ReplicaCarried(prev: Row, row: Row, g: real)
  {
    row.mv == prev.q * row.assetP + prev.cash * g
  }

  /** The same for the benchmark, at the new option price. */
  ghost predicate BenchmarkCarried(prev: Row, row: Row, g: real)
  {
    row.callMv == prev.callQty * row.callP + prev.callCash * g
  }

  /**
   * Both portfolios are valued at the row's prices, and each is worth what
   * the previous row's holdings are worth at those prices plus the previous
   * cash with one step of interest: nothing enters or leaves.
   */
  ghost predicate StepValues(c: Setup, o0: CO.Terms, prev: Row, row: Row)
    requires c.timesPerDay > 0
  {
    var g := AccrualFactor(c, o0.rf);
    Valued(row) && ReplicaCarried(prev, row, g) && BenchmarkCarried(prev, row, g)
  }

  /** Row `i` against row `i - 1`. */
  ghost predicate StepRow(c: Setup, o0: CO.Terms, prev: Row, row: Row, i: nat)
    requires WellFormed(c) && 1 <= i < |c.prices|
  {
    StepQuotes(c, o0, row, i) && StepHoldings(c, o0, prev, row, i) && StepValues(c, o0, prev, row)
  }

  /** The invariant of a run that started from `o0` and `cash0`. */
  ghost predicate Tracks(c: Setup, o0: CO.Terms, cash0: real, h: Holdings)
    requires WellFormed(c)
  {
    var k := Recorded(c, h.rebCount);
    && |h.rows| == k + 1
    && h.opt == OptAt(c, o0, k)
    && h.cash == h.rows[k].cash && h.assetQty == h.rows[k].q
    && h.callQty == h.rows[k].callQty && h.callCash == h.rows[k].callCash
    && RecordRow(c, Initial(o0, cash0)) == Ok(h.rows[0])
    && forall i :: 1 <= i <= k ==> StepRow(c, o0, h.rows[i - 1], h.rows[i], i)
  }

  /** Construction establishes the invariant. */
  lemma LaunchTracks(cash: real, timesPerDay: int, o: CO.Terms, targetQty: real, assetEr: real,
                     m: Maths, sample: Sampler, start: nat)
    requires Launch(cash, timesPerDay, o, targetQty, assetEr, m, sample, start).Ok?
    ensures var (c, h) := Launch(cash, timesPerDay, o, targetQty, assetEr, m, sample, start).value;
      WellFormed(c) && Tracks(c, o, cash, h) && h.rebCount == 0
  {
    var (c, h) := Launch(cash, timesPerDay, o, targetQty, assetEr, m, sample, start).value;
    assert RecordRow(c, Initial(o, cash)) == Ok(h.rows[0]);
  }

  /** A rebalance at or past the horizon only counts the call. */
  lemma RebalanceAfterExpiry(c: Setup, h: Holdings)
    requires WellFormed(c) && Expired(c, h)
    ensures Rebalance(c, h) == Outcome(h.(rebCount := h.rebCount + 1), None)
  {
    ExpiredIff(c, h);
    ExpiredIff(c, h.(rebCount := h.rebCount + 1));
  }

  lemma OptAtNext(c: Setup, o0: CO.Terms, k: nat)
    requires WellFormed(c) && k + 1 < |c.prices|
    ensures OptAt(c, o0, k + 1)
      == OptAt(c, o0, k).(spot := c.prices[k + 1], mtyInDays := OptAt(c, o0, k).mtyInDays - Step(c))
  {
    var s := Step(c);
    assert (k + 1) as real * s == k as real * s + s;
  }

  /** The last row of a tracked state, and what the state holds of it. */
  lemma LastRow(c: Setup, o0: CO.Terms, cash0: real, h: Holdings)
    requires WellFormed(c) && Tracks(c, o0, cash0, h)
    requires h.rebCount < c.totalSteps
    ensures |h.rows| == h.rebCount + 1
    ensures var prev := h.rows[h.rebCount];
      && h.opt == OptAt(c, o0, h.rebCount)
      && h.cash == prev.cash && h.assetQty == prev.q
      && h.callQty == prev.callQty && h.callCash == prev.callCash
      && (h.rebCount == 0 ==> prev.callQty == 0.0 && prev.callCash == cash0 && prev.cash == cash0)
      && (h.rebCount > 0 ==> prev.callQty == c.targetQty)
  {
    var n := h.rebCount;
    if n > 0 {
      assert StepRow(c, o0, h.rows[n - 1], h.rows[n], n);
    }
  }

  /** The trade holds `delta * targetQty` of the asset, at the delta of its option. */
  ghost predicate Hedged(c: Setup, t: Holdings)
  {
    CO.Delta(t.opt, c.m).Ok? && t.assetQty == CO.Delta(t.opt, c.m).value * c.targetQty
  }

  /** The trade is paid for out of the accrued cash of `prev`. */
  ghost predicate TradeFinanced(c: Setup, prev: Row, t: Holdings, g: real)
    requires t.rebCount < |c.prices|
  {
    var p := c.prices[t.rebCount];
    t.cash + t.assetQty * p == prev.q * p + prev.cash * g
  }

  /**
   * The benchmark holds `targetQty` calls: bought on the first step out of
   * the accrued replicating cash of the initial row, then only accruing.
   */
  ghost predicate CallsHeld(c: Setup, prev: Row, t: Holdings, g: real)
  {
    && t.callQty == c.targetQty
    && (t.rebCount == 1 ==>
          && prev.callQty == 0.0 && prev.callCash == prev.cash
          && CO.Price(t.opt, c.m).Ok?
          && t.callCash == prev.cash * g - t.callQty * CO.Price(t.opt, c.m).value)
    && (t.rebCount > 1 ==> prev.callQty == c.targetQty && t.callCash == prev.callCash * g)
  }

  /** The facts about the trade that the recorded row depends on. */
  ghost predicate TradedFrom(c: Setup, o0: CO.Terms, prev: Row, t: Holdings)
    requires WellFormed(c) && 1 <= t.rebCount < |c.prices|
  {
    var g := AccrualFactor(c, o0.rf);
    && t.opt == OptAt(c, o0, t.rebCount)
    && Hedged(c, t) && TradeFinanced(c, prev, t, g) && CallsHeld(c, prev, t, g)
  }

  /** The state a rebalance trades from: the values of row `prev`, its option `k` steps old. */
  ghost predicate StartsFrom(c: Setup, o0: CO.Terms, prev: Row, h: Holdings)
    requires WellFormed(c) && h.rebCount < |c.prices|
  {
    && h.opt == OptAt(c, o0, h.rebCount)
    && h.cash == prev.cash && h.assetQty == prev.q
    && h.callQty == prev.callQty && h.callCash == prev.callCash
    && (h.rebCount == 0 ==> prev.callQty == 0.0 && prev.callCash == prev.cash)
    && (h.rebCount > 0 ==> prev.callQty == c.targetQty)
  }

  /** The option a rebalance trades with is the option of the next step. */
  lemma TradeOption(c: Setup, o0: CO.Terms, h: Holdings)
    requires WellFormed(c) && h.rebCount + 1 < |c.prices|
    requires h.opt == OptAt(c, o0, h.rebCount)
    ensures Trade(c, h.(rebCount := h.rebCount + 1)).state.opt == OptAt(c, o0, h.rebCount + 1)
  {
    OptAtNext(c, o0, h.rebCount);
  }

  lemma TradeHedged(c: Setup, h: Holdings)
    requires WellFormed(c) && h.rebCount + 1 < |c.prices|
    requires Trade(c, h.(rebCount := h.rebCount + 1)).raised.None?
    ensures Hedged(c, Trade(c, h.(rebCount := h.rebCount + 1)).state)
  {
  }

  lemma TradeFinancedFrom(c: Setup, o0: CO.Terms, prev: Row, h: Holdings)
    requires WellFormed(c) && h.rebCount + 1 < |c.prices|
    requires h.opt.rf == o0.rf && h.cash == prev.cash && h.assetQty == prev.q
    requires Trade(c, h.(rebCount := h.rebCount + 1)).raised.None?
    ensures TradeFinanced(c, prev, Trade(c, h.(rebCount := h.rebCount + 1)).state, AccrualFactor(c, o0.rf))
  {
    var h1 := h.(rebCount := h.rebCount + 1);
    var h2 := Accrue(c, Age(c, h1));
    assert h2.cash == prev.cash * AccrualFactor(c, o0.rf) && h2.assetQty == prev.q;
    var b := Purchase(c, h2).state;
    assert Trade(c, h1).state == Hedge(c, b, CO.Delta(h2.opt, c.m).value);
  }

  lemma TradeCalls(c: Setup, o0: CO.Terms, prev: Row, h: Holdings)
    requires WellFormed(c) && h.rebCount + 1 < |c.prices|
    requires h.opt.rf == o0.rf && h.cash == prev.cash
    requires h.callQty == prev.callQty && h.callCash == prev.callCash
    requires h.rebCount == 0 ==> prev.callQty == 0.0 && prev.callCash == prev.cash
    requires h.rebCount > 0 ==> prev.callQty == c.targetQty
    requires Trade(c, h.(rebCount := h.rebCount + 1)).raised.None?
    ensures CallsHeld(c, prev, Trade(c, h.(rebCount := h.rebCount + 1)).state, AccrualFactor(c, o0.rf))
  {
    var g := AccrualFactor(c, o0.rf);
    var h1 := h.(rebCount := h.rebCount + 1);
    var h2 := Accrue(c, Age(c, h1));
    var b := Purchase(c, h2).state;
    var t := Trade(c, h1).state;
    assert t == Hedge(c, b, CO.Delta(h2.opt, c.m).value);
    assert t.rebCount == h1.rebCount && t.opt == h2.opt;
    assert t.callQty == b.callQty && t.callCash == b.callCash;
    if h.rebCount == 0 {
      FirstPurchase(c, prev, h2, g);
      assert CallsHeld(c, prev, t, g);
    } else {
      assert b == h2;
      assert h2.callCash == prev.callCash * g;
      assert CallsHeld(c, prev, t, g);
    }
  }

  /** On the first step the calls are paid for out of the accrued cash. */
  lemma FirstPurchase(c: Setup, prev: Row, h2: Holdings, g: real)
    requires h2.rebCount == 1 && h2.cash == prev.cash * g
    requires Purchase(c, h2).raised.None?
    ensures var b := Purchase(c, h2).state;
      && b.callQty == c.targetQty && CO.Price(h2.opt, c.m).Ok?
      && b.callCash == prev.cash * g - b.callQty * CO.Price(h2.opt, c.m).value
  {
    assert Purchase(c, h2) == BuyCall(c, h2);
  }

  /** The holdings a rebalance trades to, starting from the values of row `prev`. */
  lemma TradeFromRow(c: Setup, o0: CO.Terms, h: Holdings, prev: Row)
    requires WellFormed(c) && h.rebCount + 1 < |c.prices| && StartsFrom(c, o0, prev, h)
    requires Trade(c, h.(rebCount := h.rebCount + 1)).raised.None?
    ensures TradedFrom(c, o0, prev, Trade(c, h.(rebCount := h.rebCount + 1)).state)
  {
    assert h.opt.rf == o0.rf;
    TradeOption(c, o0, h);
    TradeHedged(c, h);
    TradeFinancedFrom(c, o0, prev, h);
    TradeCalls(c, o0, prev, h);
  }

  lemma RecordedQuotes(c: Setup, o0: CO.Terms, t: Holdings)
    requires WellFormed(c) && 1 <= t.rebCount < |c.prices|
    requires t.opt == OptAt(c, o0, t.rebCount) && CO.Delta(t.opt, c.m).Ok?
    ensures RecordRow(c, t).Ok?
    ensures StepQuotes(c, o0, RecordRow(c, t).value, t.rebCount)
  {
  }

  lemma RecordedHedge(c: Setup, t: Holdings)
    requires WellFormed(c) && 1 <= t.rebCount < |c.prices|
    requires Hedged(c, t) && t.callQty == c.targetQty
    ensures RecordRow(c, t).Ok?
    ensures RecordRow(c, t).value.q == RecordRow(c, t).value.delta * c.targetQty
    ensures RecordRow(c, t).value.callQty == c.targetQty
  {
  }

  lemma RecordedHoldings(c: Setup, o0: CO.Terms, prev: Row, t: Holdings)
    requires WellFormed(c) && 1 <= t.rebCount < |c.prices|
    requires Hedged(c, t) && CallsHeld(c, prev, t, AccrualFactor(c, o0.rf))
    ensures RecordRow(c, t).Ok?
    ensures StepHoldings(c, o0, prev, RecordRow(c, t).value, t.rebCount)
  {
    RecordedHedge(c, t);
    var row := RecordRow(c, t).value;
    assert row.callCash == t.callCash && row.callP == CO.Price(t.opt, c.m).value;
  }

  /** Both portfolios of a recorded row are valued at the row's own prices. */
  lemma RecordedValuation(c: Setup, t: Holdings)
    requires WellFormed(c) && t.rebCount < |c.prices| && CO.Delta(t.opt, c.m).Ok?
    ensures RecordRow(c, t).Ok?
    ensures Valued(RecordRow(c, t).value)
  {
  }

  /** A self-financing trade keeps the replicating portfolio's value. */
  lemma RecordedReplicaValue(c: Setup, prev: Row, t: Holdings, g: real)
    requires WellFormed(c) && t.rebCount < |c.prices| && CO.Delta(t.opt, c.m).Ok?
    requires TradeFinanced(c, prev, t, g)
    ensures RecordRow(c, t).Ok?
    ensures ReplicaCarried(prev, RecordRow(c, t).value, g)
  {
  }

  /** Buying the calls at the model price, and holding them, keeps the benchmark's value. */
  lemma RecordedBenchmarkValue(c: Setup, prev: Row, t: Holdings, g: real)
    requires WellFormed(c) && 1 <= t.rebCount < |c.prices| && CO.Delta(t.opt, c.m).Ok?
    requires CallsHeld(c, prev, t, g)
    ensures RecordRow(c, t).Ok?
    ensures BenchmarkCarried(prev, RecordRow(c, t).value, g)
  {
  }

  /** The row recorded after trading from `prev` to `t` is a step of the run. */
  lemma RecordedStep(c: Setup, o0: CO.Terms, prev: Row, t: Holdings)
    requires WellFormed(c) && 1 <= t.rebCount < |c.prices| && TradedFrom(c, o0, prev, t)
    ensures RecordRow(c, t).Ok?
    ensures StepRow(c, o0, prev, RecordRow(c, t).value, t.rebCount)
  {
    var g := AccrualFactor(c, o0.rf);
    RecordedQuotes(c, o0, t);
    RecordedHoldings(c, o0, prev, t);
    RecordedValuation(c, t);
    RecordedReplicaValue(c, prev, t, g);
    RecordedBenchmarkValue(c, prev, t, g);
  }

  /** The row a recorded rebalance appends, against the row `prev` it starts from. */
  lemma RebalanceRecords(c: Setup, o0: CO.Terms, h: Holdings, prev: Row)
    requires WellFormed(c) && h.rebCount + 1 < c.totalSteps && StartsFrom(c, o0, prev, h)
    requires Rebalance(c, h).raised.None?
    ensures var r := Rebalance(c, h).state;
      && |r.rows| == |h.rows| + 1 && r.rows[..|h.rows|] == h.rows
      && r.rebCount == h.rebCount + 1
      && r.opt == OptAt(c, o0, h.rebCount + 1)
      && r.cash == r.rows[|h.rows|].cash && r.assetQty == r.rows[|h.rows|].q
      && r.callQty == r.rows[|h.rows|].callQty && r.callCash == r.rows[|h.rows|].callCash
      && StepRow(c, o0, prev, r.rows[|h.rows|], h.rebCount + 1)
  {
    var n := h.rebCount;
    var h1 := h.(rebCount := n + 1);
    ExpiredIff(c, h1);
    var t := Trade(c, h1);
    assert t.raised.None?;
    TradeFromRow(c, o0, h, prev);
    RecordedStep(c, o0, prev, t.state);
    assert Rebalance(c, h) == Record(c, t.state);
  }

  /** A rebalance that raises nothing keeps the invariant. */
  lemma RebalanceTracks(c: Setup, o0: CO.Terms, cash0: real, h: Holdings)
    requires WellFormed(c) && Tracks(c, o0, cash0, h)
    requires Rebalance(c, h).raised.None?
    ensures Tracks(c, o0, cash0, Rebalance(c, h).state)
  {
    var n := h.rebCount;
    ExpiredIff(c, h.(rebCount := n + 1));
    if n + 1 >= c.totalSteps {
      assert Recorded(c, n + 1) == Recorded(c, n);
    } else {
      LastRow(c, o0, cash0, h);
      assert StartsFrom(c, o0, h.rows[n], h);
      RebalanceRecords(c, o0, h, h.rows[n]);
      var r := Rebalance(c, h).state;
      assert Recorded(c, n + 1) == n + 1;
      forall i | 1 <= i <= n + 1
        ensures StepRow(c, o0, r.rows[i - 1], r.rows[i], i)
      {
        if i <= n {
          assert r.rows[i - 1] == h.rows[i - 1] && r.rows[i] == h.rows[i];
        }
      }
      assert r.rows[0] == h.rows[0];
    }
  }

  /** A run that raises nothing keeps the invariant and stops exactly at the horizon. */
  lemma {:induction false} SimulateTracks(c: Setup, o0: CO.Terms, cash0: real, h: Holdings)
    requires WellFormed(c) && Tracks(c, o0, cash0, h)
    requires Simulate(c, h).raised.None?
    ensures Tracks(c, o0, cash0, Simulate(c, h).state)
    ensures Simulate(c, h).state.rebCount == MaxInt(h.rebCount, c.totalSteps)
    decreases c.totalSteps - h.rebCount
  {
    ExpiredIff(c, h);
    if !Expired(c, h) {
      var o := Rebalance(c, h);
      RebalanceTracks(c, o0, cash0, h);
      SimulateTracks(c, o0, cash0, o.state);
    }
  }

  /**
   * The ledger of a whole run that raises nothing: `max(totalSteps, 1)`
   * rows, the first valuing the untouched portfolios, each later one a
   * self-financing step from the one before.
   */
  lemma RunLedger(cash: real, timesPerDay: int, o: CO.Terms, targetQty: real, assetEr: real,
                  m: Maths, sample: Sampler, start: nat)
    requires Launch(cash, timesPerDay, o, targetQty, assetEr, m, sample, start).Ok?
    requires var (c, h) := Launch(cash, timesPerDay, o, targetQty, assetEr, m, sample, start).value;
      Simulate(c, h).raised.None?
    ensures var (c, h) := Launch(cash, timesPerDay, o, targetQty, assetEr, m, sample, start).value;
      var rows := Simulate(c, h).state.rows;
      && |rows| == MaxInt(c.totalSteps, 1)
      && RecordRow(c, Initial(o, cash)) == Ok(rows[0])
      && (forall i :: 1 <= i < |rows| ==> StepRow(c, o, rows[i - 1], rows[i], i))
  {
    var (c, h) := Launch(cash, timesPerDay, o, targetQty, assetEr, m, sample, start).value;
    LaunchTracks(cash, timesPerDay, o, targetQty, assetEr, m, sample, start);
    SimulateTracks(c, o, cash, h);
  }

  /**
   * The option is alive at every recorded step: the horizon is its maturity
   * rounded down, and the last step, the only one that would reach it,
   * never records.
   */
  lemma OptionAliveWhileRecording(c: Setup, o0: CO.Terms, k: nat)
    requires WellFormed(c) && o0.mtyInDays >= c.totalDays as real
    requires k < c.totalSteps
    ensures !CO.Expired(OptAt(c, o0, k))
  {
    var n := c.timesPerDay as real;
    var s := Step(c);
    if k > 0 {
      assert k as real <= c.totalSteps as real - 1.0;
      assert c.totalSteps as real == c.totalDays as real * n;
      assert k as real * s <= (c.totalSteps as real - 1.0) * s;
      assert (c.totalSteps as real - 1.0) * s == c.totalDays as real - s by {
        assert c.totalSteps as real * s == c.totalDays as real * (n * s);
      }
    }
  }

  /** The conditions under which pricing can never raise during a run. */
  ghost predicate SaneTerms(c: Setup, o0: CO.Terms)
  {
    && c.m.Valid()
    && o0.strike > 0.0 && o0.sigma != 0.0
    && (c.totalSteps > 0 ==> o0.mtyInDays >= c.totalDays as real)
    && forall k :: 0 <= k < |c.prices| ==> c.prices[k] > 0.0
  }

  /** Under sane terms a rebalance never raises. */
  lemma RebalanceNoRaise(c: Setup, o0: CO.Terms, cash0: real, h: Holdings)
    requires WellFormed(c) && SaneTerms(c, o0) && Tracks(c, o0, cash0, h)
    ensures Rebalance(c, h).raised.None?
  {
    var n := h.rebCount;
    var h1 := h.(rebCount := n + 1);
    ExpiredIff(c, h1);
    if !Expired(c, h1) {
      var h2 := Accrue(c, Age(c, h1));
      OptAtNext(c, o0, n);
      assert h2.opt == OptAt(c, o0, n + 1);
      OptionAliveWhileRecording(c, o0, n + 1);
      assert h2.opt.spot > 0.0;
      assert h2.opt.spot / h2.opt.strike > 0.0;
      CO.PricingRaisesIff(h2.opt, c.m);
    }
  }

  /** Under sane terms a run never raises. */
  lemma {:induction false} SimulateNoRaise(c: Setup, o0: CO.Terms, cash0: real, h: Holdings)
    requires WellFormed(c) && SaneTerms(c, o0) && Tracks(c, o0, cash0, h)
    ensures Simulate(c, h).raised.None?
    decreases c.totalSteps - h.rebCount
  {
    ExpiredIff(c, h);
    if !Expired(c, h) {
      RebalanceNoRaise(c, o0, cash0, h);
      RebalanceTracks(c, o0, cash0, h);
      SimulateNoRaise(c, o0, cash0, Rebalance(c, h).state);
    }
  }

  /**
   * A portfolio built on a positive spot and strike, a positive volatility
   * and genuine library functions runs to its horizon without raising.
   */
  lemma SaneRunCompletes(cash: real, timesPerDay: int, o: CO.Terms, targetQty: real, assetEr: real,
                         m: Maths, sample: Sampler, start: nat)
    requires m.Valid() && o.spot > 0.0 && o.strike > 0.0 && o.sigma > 0.0
    requires Launch(cash, timesPerDay, o, targetQty, assetEr, m, sample, start).Ok?
    ensures var (c, h) := Launch(cash, timesPerDay, o, targetQty, assetEr, m, sample, start).value;
      Simulate(c, h).raised.None? && |Simulate(c, h).state.rows| == MaxInt(c.totalSteps, 1)
  {
    var (c, h) := Launch(cash, timesPerDay, o, targetQty, assetEr, m, sample, start).value;
    LaunchTracks(cash, timesPerDay, o, targetQty, assetEr, m, sample, start);
    PricesPositive(o.spot, assetEr, o.sigma, Trunc(o.mtyInDays), timesPerDay, m, sample, start);
    SimulateNoRaise(c, o, cash, h);
    RunLedger(cash, timesPerDay, o, targetQty, assetEr, m, sample, start);
  }
}
