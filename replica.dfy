/**
 * The replication engine of the delta-hedging simulator, stated on values:
 * one function per step the source takes, each applied to the whole state
 * the source keeps in the fields of its portfolio object. The class in
 * module ReplicaPortfolio is proved to make exactly these transitions.
 */
module Replica {
  import opened Common
  import opened PyMath
  import CO = CallOptions
  import opened PricePaths
  import opened AccountBooks

  /** What construction fixes for the rest of a run. */
  datatype Setup = Setup(timesPerDay: int, targetQty: real, totalDays: int, totalSteps: int,
                         prices: seq<real>, m: Maths)

  /** What a successful construction guarantees about the setup. */
  predicate WellFormed(c: Setup)
  {
    && c.timesPerDay > 0
    && c.totalDays >= 0
    && c.totalSteps == c.timesPerDay * c.totalDays
    && |c.prices| == c.totalSteps + 1
  }

  /** The state the source changes in place: option, both portfolios, step counter, ledger. */
  datatype Holdings = Holdings(opt: CO.Terms, cash: real, assetQty: real, callQty: real,
                               callCash: real, rebCount: nat, rows: seq<Row>)

  /** The state after a step, and the exception the step raised, if any. */
  datatype Outcome = Outcome(state: Holdings, raised: Option<PyError>)

  /** The length of one rebalancing step, in days. */
  function Step(c: Setup): (s: real)
    requires c.timesPerDay > 0
    ensures s > 0.0 && s * c.timesPerDay as real == 1.0
  {
    1.0 / c.timesPerDay as real
  }

  /** The time reached, in days. */
  function Timepoint(c: Setup, h: Holdings): (t: real)
    requires c.timesPerDay > 0
    ensures t * c.timesPerDay as real == h.rebCount as real
  {
    h.rebCount as real / c.timesPerDay as real
  }

  /** The days left until the run's horizon. */
  function Mty(c: Setup, h: Holdings): real
    requires c.timesPerDay > 0
  {
    c.totalDays as real - Timepoint(c, h)
  }

  predicate Expired(c: Setup, h: Holdings)
    requires c.timesPerDay > 0
  {
    Mty(c, h) <= 0.0
  }

  /** The run has expired exactly when the counter has reached `totalSteps`. */
  lemma ExpiredIff(c: Setup, h: Holdings)
    requires WellFormed(c)
    ensures Expired(c, h) <==> h.rebCount >= c.totalSteps
  {
    var n := c.timesPerDay as real;
    var t := Timepoint(c, h);
    assert t * n == h.rebCount as real;
    assert c.totalSteps as real == c.totalDays as real * n;
    if t >= c.totalDays as real {
      assert t * n >= c.totalDays as real * n;
    } else {
      assert t * n < c.totalDays as real * n;
    }
  }

  /** `asset_price`: the path price at the current step. */
  function AssetPrice(c: Setup, h: Holdings): (r: Result<real, PyError>)
    ensures r.Ok? <==> h.rebCount < |c.prices|
    ensures r.Ok? ==> r.value == c.prices[h.rebCount]
    ensures r.Err? ==> r.error == IndexError
  {
    if h.rebCount < |c.prices| then Ok(c.prices[h.rebCount]) else Err(IndexError)
  }

  /** `mv`: value of the replicating portfolio, asset at its path price plus cash. */
  function Mv(c: Setup, h: Holdings): (r: Result<real, PyError>)
    ensures r.Ok? <==> h.rebCount < |c.prices|
    ensures r.Ok? ==> r.value == h.assetQty * c.prices[h.rebCount] + h.cash
  {
    var p :- AssetPrice(c, h);
    Ok(h.assetQty * p + h.cash)
  }

  /** `call_mv`: value of the benchmark portfolio, the calls at the model price plus cash. */
  function CallMv(c: Setup, h: Holdings): (r: Result<real, PyError>)
    ensures r.Err? <==> CO.Price(h.opt, c.m).Err?
    ensures r.Ok? ==> r.value == h.callQty * CO.Price(h.opt, c.m).value + h.callCash
  {
    var price :- CO.Price(h.opt, c.m);
    Ok(h.callQty * price + h.callCash)
  }

  /**
   * The row `record` appends. Python evaluates `asset_price` first (an
   * IndexError past the end of the path), then the option's delta and price,
   * which raise together or not at all.
   */
  function RecordRow(c: Setup, h: Holdings): (r: Result<Row, PyError>)
    requires c.timesPerDay > 0
    ensures r.Ok? <==> h.rebCount < |c.prices| && CO.Delta(h.opt, c.m).Ok?
    ensures h.rebCount >= |c.prices| ==> r == Err(IndexError)
    ensures h.rebCount < |c.prices| && r.Err? ==> r == Err(CO.D1(h.opt, c.m).error)
    ensures r.Ok? ==>
      && r.value.t == Timepoint(c, h) && r.value.q == h.assetQty && r.value.cash == h.cash
      && r.value.assetP == c.prices[h.rebCount]
      && r.value.mv == Mv(c, h).value
      && CO.Delta(h.opt, c.m) == Ok(r.value.delta) && CO.Price(h.opt, c.m) == Ok(r.value.callP)
      && r.value.callQty == h.callQty && r.value.callCash == h.callCash
      && r.value.callMv == CallMv(c, h).value
  {
    var p :- AssetPrice(c, h);
    var delta :- CO.Delta(h.opt, c.m);
    var price := CO.Price(h.opt, c.m).value;
    Ok(Row(Timepoint(c, h), h.assetQty, h.cash, p, h.assetQty * p + h.cash,
           delta, price, h.callQty, h.callCash, h.callQty * price + h.callCash))
  }

  /** The row `record` appends, given the option's quoted delta and price. */
  lemma RecordRowOf(c: Setup, h: Holdings, delta: real, price: real)
    requires c.timesPerDay > 0 && h.rebCount < |c.prices|
    requires CO.Delta(h.opt, c.m) == Ok(delta) && CO.Price(h.opt, c.m) == Ok(price)
    ensures var p := c.prices[h.rebCount];
      RecordRow(c, h) == Ok(Row(Timepoint(c, h), h.assetQty, h.cash, p, h.assetQty * p + h.cash,
                                delta, price, h.callQty, h.callCash, h.callQty * price + h.callCash))
  {
    var r := RecordRow(c, h);
    assert r.Ok?;
    assert r.value.delta == delta;
    assert r.value.callP == price;
    assert r.value.mv == h.assetQty * c.prices[h.rebCount] + h.cash;
    assert r.value.callMv == h.callQty * price + h.callCash;
  }

  /** `record`: appends one row, or raises and leaves the state as it was. */
  function Record(c: Setup, h: Holdings): (r: Outcome)
    requires c.timesPerDay > 0
    ensures r.raised.None? <==> RecordRow(c, h).Ok?
    ensures r.raised.None? ==> r.state == h.(rows := h.rows + [RecordRow(c, h).value])
    ensures r.raised.Some? ==> r.state == h && r.raised.value == RecordRow(c, h).error
  {
    match RecordRow(c, h)
    case Ok(row) => Outcome(h.(rows := h.rows + [row]), None)
    case Err(e) => Outcome(h, Some(e))
  }

  /** The option moves to the path price of the new step and ages by one step. */
  function Age(c: Setup, h: Holdings): (r: Holdings)
    requires WellFormed(c) && h.rebCount < |c.prices|
    ensures r.opt.spot == c.prices[h.rebCount]
    ensures r.opt.mtyInDays + Step(c) == h.opt.mtyInDays
    ensures r.opt.strike == h.opt.strike && r.opt.sigma == h.opt.sigma && r.opt.rf == h.opt.rf
    ensures r == h.(opt := r.opt)
  {
    var moved := h.opt.(spot := c.prices[h.rebCount]);
    h.(opt := moved.(mtyInDays := moved.mtyInDays - Step(c)))
  }

  /** One step of risk-free interest: 1 + rf / 252 * step. */
  function AccrualFactor(c: Setup, rf: real): (g: real)
    requires c.timesPerDay > 0
    ensures rf == 0.0 ==> g == 1.0
    ensures rf > 0.0 ==> g > 1.0
    ensures rf < 0.0 ==> g < 1.0
  {
    1.0 + rf / CO.TradingDaysPerYear * Step(c)
  }

  /** Both cash balances earn one step of interest at the option's rate. */
  function Accrue(c: Setup, h: Holdings): (r: Holdings)
    requires c.timesPerDay > 0
    ensures r == h.(cash := r.cash, callCash := r.callCash)
    ensures r.cash == h.cash * AccrualFactor(c, h.opt.rf)
    ensures r.callCash == h.callCash * AccrualFactor(c, h.opt.rf)
    ensures h.opt.rf == 0.0 ==> r == h
    ensures h.opt.rf > 0.0 && h.cash > 0.0 ==> r.cash > h.cash
    ensures h.opt.rf < 0.0 && h.cash > 0.0 ==> r.cash < h.cash
  {
    var g := AccrualFactor(c, h.opt.rf);
    h.(cash := h.cash * g, callCash := h.callCash * g)
  }

  /**
   * The one-time purchase: the benchmark takes `targetQty` calls, paid at
   * the model price out of the replicating portfolio's (accrued) cash.
   * Python assigns the quantity before it prices the option.
   */
  function BuyCall(c: Setup, h: Holdings): (r: Outcome)
    ensures r.state.callQty == c.targetQty
    ensures r.raised.None? <==> CO.Price(h.opt, c.m).Ok?
    ensures r.raised.Some? ==> r == Outcome(h.(callQty := c.targetQty), Some(CO.Price(h.opt, c.m).error))
    ensures r.raised.None? ==>
      && r.state == h.(callQty := c.targetQty, callCash := r.state.callCash)
      && r.state.callQty * CO.Price(h.opt, c.m).value + r.state.callCash == h.cash
  {
    var bought := h.(callQty := c.targetQty);
    match CO.Price(h.opt, c.m)
    case Err(e) => Outcome(bought, Some(e))
    case Ok(price) => Outcome(bought.(callCash := bought.cash - bought.callQty * price), None)
  }

  /** The calls are bought on the first step only; the hedge is left as it is. */
  function Purchase(c: Setup, h: Holdings): (r: Outcome)
    ensures r.state.cash == h.cash && r.state.assetQty == h.assetQty && r.state.opt == h.opt
    ensures h.rebCount != 1 ==> r == Outcome(h, None)
    ensures h.rebCount == 1 ==> r == BuyCall(c, h)
  {
    if h.rebCount == 1 then BuyCall(c, h) else Outcome(h, None)
  }

  /**
   * The delta-hedging trade at the current path price: hold
   * `delta * targetQty` of the asset, paid for out of cash.
   */
  function Hedge(c: Setup, h: Holdings, delta: real): (r: Holdings)
    requires h.rebCount < |c.prices|
    ensures r == h.(cash := r.cash, assetQty := r.assetQty)
    ensures r.assetQty == delta * c.targetQty
    ensures r.cash + r.assetQty * c.prices[h.rebCount] == h.cash + h.assetQty * c.prices[h.rebCount]
  {
    var p := c.prices[h.rebCount];
    var tradeQty := delta * c.targetQty - h.assetQty;
    var cashUse := tradeQty * p;
    h.(cash := h.cash - cashUse, assetQty := h.assetQty + tradeQty)
  }

  /**
   * The part of a step after the horizon check: age the option, accrue
   * interest, buy the calls on the first step, then take the delta and
   * trade to it. An exception leaves the state reached so far.
   */
  function Trade(c: Setup, h: Holdings): (r: Outcome)
    requires WellFormed(c) && h.rebCount < |c.prices|
    ensures r.state.rebCount == h.rebCount && r.state.rows == h.rows
    ensures r.state.opt == Age(c, h).opt
  {
    var h2 := Accrue(c, Age(c, h));
    var bought := Purchase(c, h2);
    if bought.raised.Some? then bought
    else
      match CO.Delta(h2.opt, c.m)
      case Err(e) => Outcome(bought.state, Some(e))
      case Ok(delta) => Outcome(Hedge(c, bought.state, delta), None)
  }

  /**
   * `rebalance`: count the step; at the horizon stop there, otherwise trade
   * and record.
   */
  function Rebalance(c: Setup, h: Holdings): (r: Outcome)
    requires WellFormed(c)
    ensures r.state.rebCount == h.rebCount + 1
    ensures Expired(c, h.(rebCount := h.rebCount + 1)) ==>
      r == Outcome(h.(rebCount := h.rebCount + 1), None)
  {
    var h1 := h.(rebCount := h.rebCount + 1);
    ExpiredIff(c, h1);
    if Expired(c, h1) then Outcome(h1, None)
    else
      var t := Trade(c, h1);
      if t.raised.Some? then t else Record(c, t.state)
  }

  /** `simulate`: rebalance until the run expires; an exception stops it. */
  function Simulate(c: Setup, h: Holdings): (r: Outcome)
    requires WellFormed(c)
    ensures r.raised.None? ==> Expired(c, r.state)
    ensures r.state.rebCount >= h.rebCount
    decreases c.totalSteps - h.rebCount
  {
    ExpiredIff(c, h);
    if Expired(c, h) then Outcome(h, None)
    else
      var o := Rebalance(c, h);
      if o.raised.Some? then o else Simulate(c, o.state)
  }

  /**
   * Construction (`__post_init__`): the horizon is the option's maturity
   * truncated to whole days, the path is generated, the benchmark's cash
   * starts equal to the replicating cash, and the first row is recorded.
   */
  function Launch(cash: real, timesPerDay: int, o: CO.Terms, targetQty: real, assetEr: real,
                  m: Maths, sample: Sampler, start: nat): (r: Result<(Setup, Holdings), PyError>)
    ensures r.Ok? ==> PriceTs(o.spot, assetEr, o.sigma, Trunc(o.mtyInDays), timesPerDay, m, sample, start).Ok?
    ensures r.Ok? ==>
      var (c, h) := r.value;
      && WellFormed(c) && c.totalDays == Trunc(o.mtyInDays) && c.targetQty == targetQty
      && c.prices == PriceTs(o.spot, assetEr, o.sigma, c.totalDays, timesPerDay, m, sample, start).value.prices
      && h.opt == o && h.rebCount == 0 && h.cash == cash && h.callCash == cash
      && h.assetQty == 0.0 && h.callQty == 0.0 && |h.rows| == 1
    ensures PriceTs(o.spot, assetEr, o.sigma, Trunc(o.mtyInDays), timesPerDay, m, sample, start).Err? ==>
      r == Err(PriceTs(o.spot, assetEr, o.sigma, Trunc(o.mtyInDays), timesPerDay, m, sample, start).error)
    ensures PriceTs(o.spot, assetEr, o.sigma, Trunc(o.mtyInDays), timesPerDay, m, sample, start).Ok? ==>
      var ts := PriceTs(o.spot, assetEr, o.sigma, Trunc(o.mtyInDays), timesPerDay, m, sample, start).value;
      var c := Setup(timesPerDay, targetQty, Trunc(o.mtyInDays), timesPerDay * Trunc(o.mtyInDays), ts.prices, m);
      var h := Holdings(o, cash, 0.0, 0.0, cash, 0, []);
      && (r.Ok? <==> Record(c, h).raised.None?)
      && (r.Err? ==> r.error == Record(c, h).raised.value)
      && (r.Ok? ==> r.value == (c, Record(c, h).state))
  {
    var totalDays := Trunc(o.mtyInDays);
    var ts :- PriceTs(o.spot, assetEr, o.sigma, totalDays, timesPerDay, m, sample, start);
    var c := Setup(timesPerDay, targetQty, totalDays, timesPerDay * totalDays, ts.prices, m);
    var h := Holdings(o, cash, 0.0, 0.0, cash, 0, []);
    var row :- RecordRow(c, h);
    assert h.rows + [row] == [row];
    Ok((c, h.(rows := [row])))
  }
}
