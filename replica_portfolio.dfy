/**
 * The replicating portfolio object. It is set up once from the caller's
 * option, then changes its own fields, the option it was given (spot and
 * maturity) and its ledger step by step. Each method is proved to make the
 * transition that the function of the same name in module Replica states.
 */
module ReplicaPortfolio {
  import opened Common
  import opened PyMath
  import CO = CallOptions
  import opened PricePaths
  import opened AccountBooks
  import R = Replica

  class CallOptionReplicaPtf {
    var cash: real
    const rebTimesPerDay: int
    /** The caller's option object, shared: the portfolio ages it in place. */
    const callOption: CO.CallOption
    const targetQty: real
    const assetEr: real
    const assetP0: real
    const totalDays: int
    const totalSteps: int
    const assetPrices: PriceTS
    var assetQty: real
    var rebCount: nat
    const booking: AccountBook
    var callQty: real
    var callCash: real
    /** The library functions the option is priced with. */
    const maths: Maths

    /** The part of the object that construction fixes. */
    function Config(): R.Setup
      reads this
    {
      R.Setup(rebTimesPerDay, targetQty, totalDays, totalSteps, assetPrices.prices, maths)
    }

    ghost predicate Valid()
      reads this, booking
    {
      booking.Valid() && R.WellFormed(Config())
    }

    /** The part of the object, its option and its ledger that the steps change. */
    function State(): R.Holdings
      reads this, callOption, booking
      requires booking.Valid()
    {
      R.Holdings(callOption.Value(), cash, assetQty, callQty, callCash, rebCount, booking.Rows())
    }

    /**
     * The field assignments of `__post_init__` before its final `record`:
     * horizon, step count, initial price, path and the benchmark's cash.
     */
    constructor Init(cash: real, rebTimesPerDay: int, callOption: CO.CallOption, targetQty: real,
                     assetEr: real, maths: Maths, sample: Sampler, start: nat)
      requires PriceTs(callOption.spot, assetEr, callOption.sigma, Trunc(callOption.mtyInDays),
                       rebTimesPerDay, maths, sample, start).Ok?
      ensures Valid() && fresh(booking) && this.callOption == callOption
      ensures assetP0 == callOption.spot
      ensures assetPrices == PriceTs(callOption.spot, assetEr, callOption.sigma, Trunc(callOption.mtyInDays),
                                     rebTimesPerDay, maths, sample, start).value
      ensures Config() == R.Setup(rebTimesPerDay, targetQty, Trunc(callOption.mtyInDays),
                                  rebTimesPerDay * Trunc(callOption.mtyInDays), assetPrices.prices, maths)
      ensures State() == R.Holdings(callOption.Value(), cash, 0.0, 0.0, cash, 0, [])
    {
      this.cash := cash;
      this.rebTimesPerDay := rebTimesPerDay;
      this.callOption := callOption;
      this.targetQty := targetQty;
      this.assetEr := assetEr;
      this.maths := maths;
      var days := Trunc(callOption.mtyInDays);
      totalDays := days;
      totalSteps := rebTimesPerDay * days;
      assetP0 := callOption.spot;
      assetPrices := PriceTs(callOption.spot, assetEr, callOption.sigma, days,
                             rebTimesPerDay, maths, sample, start).value;
      assetQty := 0.0;
      rebCount := 0;
      callQty := 0.0;
      callCash := cash;
      booking := new AccountBook();
    }

    /**
     * Construction as the caller sees it: either the exception that path
     * generation or the first `record` raised, or a portfolio whose setup and
     * state are those that Replica.Launch describes.
     */
    static method Create(cash: real, rebTimesPerDay: int, callOption: CO.CallOption, targetQty: real,
                         assetEr: real, maths: Maths, sample: Sampler, start: nat)
      returns (r: Result<CallOptionReplicaPtf, PyError>)
      ensures r.Err? <==> R.Launch(cash, rebTimesPerDay, callOption.Value(), targetQty, assetEr,
                                   maths, sample, start).Err?
      ensures r.Err? ==> r.error == R.Launch(cash, rebTimesPerDay, callOption.Value(), targetQty, assetEr,
                                             maths, sample, start).error
      ensures r.Ok? ==>
        && fresh(r.value) && fresh(r.value.booking) && r.value.callOption == callOption && r.value.Valid()
        && (r.value.Config(), r.value.State())
           == R.Launch(cash, rebTimesPerDay, callOption.Value(), targetQty, assetEr, maths, sample, start).value
    {
      var ts := PriceTs(callOption.spot, assetEr, callOption.sigma, Trunc(callOption.mtyInDays),
                        rebTimesPerDay, maths, sample, start);
      if ts.Err? {
        return Err(ts.error);
      }
      var ptf := new CallOptionReplicaPtf.Init(cash, rebTimesPerDay, callOption, targetQty,
                                               assetEr, maths, sample, start);
      ghost var h0 := ptf.State();
      var raised := ptf.Record();
      if raised.Some? {
        return Err(raised.value);
      }
      assert ptf.State() == h0.(rows := [R.RecordRow(ptf.Config(), h0).value]);
      return Ok(ptf);
    }

    function Step(): real
      reads this
      requires R.WellFormed(Config())
    {
      R.Step(Config())
    }

    function Timepoint(): real
      reads this
      requires R.WellFormed(Config())
    {
      rebCount as real / rebTimesPerDay as real
    }

    function Expired(): (b: bool)
      reads this, callOption, booking
      requires Valid()
      ensures b <==> rebCount >= totalSteps
      ensures b == R.Expired(Config(), State())
    {
      R.ExpiredIff(Config(), State());
      R.Expired(Config(), State())
    }

    /** `record`: appends the current row to the ledger. */
    method Record() returns (raised: Option<PyError>)
      requires Valid()
      modifies booking
      ensures Valid()
      ensures R.Outcome(State(), raised) == R.Record(Config(), old(State()))
    {
      if rebCount >= |assetPrices.prices| {
        return Some(IndexError);
      }
      var p := assetPrices.prices[rebCount];
      var delta := CO.Delta(callOption.Value(), maths);
      if delta.Err? {
        return Some(delta.error);
      }
      var price := CO.Price(callOption.Value(), maths).value;
      ghost var h := State();
      R.RecordRowOf(Config(), h, delta.value, price);
      var row := Row(Timepoint(), assetQty, cash, p, assetQty * p + cash, delta.value,
                     price, callQty, callCash, callQty * price + callCash);
      assert row == R.RecordRow(Config(), h).value;
      booking.Add(row.t, row.q, row.cash, row.assetP, row.mv, row.delta,
                  row.callP, row.callQty, row.callCash, row.callMv);
      assert booking.Rows() == h.rows + [row];
      return None;
    }

    /** The option moves to the step's path price and ages one step; both cash balances accrue. */
    method AgeAndAccrue()
      requires Valid() && rebCount < |assetPrices.prices|
      modifies this, callOption
      ensures Valid()
      ensures State() == R.Accrue(Config(), R.Age(Config(), old(State())))
    {
      callOption.spot := assetPrices.prices[rebCount];
      callOption.Expire(Step());
      var g := 1.0 + callOption.rf / CO.TradingDaysPerYear * Step();
      cash := cash * g;
      callCash := callCash * g;
    }

    /** The one-time purchase of the benchmark's calls. */
    method BuyCall() returns (raised: Option<PyError>)
      requires Valid()
      modifies this
      ensures Valid()
      ensures R.Outcome(State(), raised) == R.BuyCall(Config(), old(State()))
    {
      callQty := targetQty;
      var price := CO.Price(callOption.Value(), maths);
      if price.Err? {
        return Some(price.error);
      }
      callCash := cash - callQty * price.value;
      return None;
    }

    /** The delta-hedging trade at the step's path price. */
    method Hedge(delta: real)
      requires Valid() && rebCount < |assetPrices.prices|
      modifies this
      ensures Valid()
      ensures State() == R.Hedge(Config(), old(State()), delta)
    {
      var tradeQty := delta * targetQty - assetQty;
      var cashUse := tradeQty * assetPrices.prices[rebCount];
      cash := cash - cashUse;
      assetQty := assetQty + tradeQty;
    }

    /** The trading part of `rebalance`, after the horizon check. */
    method Trade() returns (raised: Option<PyError>)
      requires Valid() && rebCount < |assetPrices.prices|
      modifies this, callOption
      ensures Valid()
      ensures R.Outcome(State(), raised) == R.Trade(Config(), old(State()))
    {
      AgeAndAccrue();
      if rebCount == 1 {
        raised := BuyCall();
        if raised.Some? {
          return;
        }
      }
      var delta := CO.Delta(callOption.Value(), maths);
      if delta.Err? {
        return Some(delta.error);
      }
      Hedge(delta.value);
      return None;
    }

    /** `rebalance`: one step of the replication. */
    method Rebalance() returns (raised: Option<PyError>)
      requires Valid()
      modifies this, callOption, booking
      ensures Valid()
      ensures R.Outcome(State(), raised) == R.Rebalance(Config(), old(State()))
    {
      rebCount := rebCount + 1;
      if Expired() {
        return None;
      }
      raised := Trade();
      if raised.Some? {
        return;
      }
      raised := Record();
    }

    /** `simulate`: rebalance until expiry, stopping at the first exception. */
    method Simulate() returns (raised: Option<PyError>)
      requires Valid()
      modifies this, callOption, booking
      ensures Valid()
      ensures R.Outcome(State(), raised) == R.Simulate(Config(), old(State()))
    {
      raised := None;
      while !Expired()
        invariant Valid() && raised == None
        invariant R.Simulate(Config(), State()) == R.Simulate(Config(), old(State()))
        decreases totalSteps - rebCount
      {
        raised := Rebalance();
        if raised.Some? {
          return;
        }
      }
    }
  }
}
