/**
 * The European call option of the delta-hedging simulator: a closed-form
 * price and delta while time remains, the intrinsic payoff once the maturity
 * has run out.
 */
module CallOptions {
  import opened Common
  import opened PyMath

  /** Trading days per year, used to turn day counts into years. */
  const TradingDaysPerYear: real := 252.0

  /** The option's state at one moment: what the pricing properties read. */
  datatype Terms = Terms(spot: real, strike: real, sigma: real, rf: real, mtyInDays: real)

  function MtyInYears(o: Terms): (r: real)
    ensures r * TradingDaysPerYear == o.mtyInDays
    ensures r > 0.0 <==> o.mtyInDays > 0.0
  {
    o.mtyInDays / TradingDaysPerYear
  }

  predicate Expired(o: Terms)
  {
    o.mtyInDays <= 0.0
  }

  /**
   * d1 as the source writes it: the risk-free rate is added to
   * sigma^2/2 * T without being multiplied by T, unlike the textbook formula.
   * NaN once expired; otherwise Python raises when sigma * sqrt(T) or the
   * strike is zero (division) or when spot/strike is not positive (log).
   */
  function D1(o: Terms, m: Maths): (r: Result<Float, PyError>)
    ensures Expired(o) <==> r == Ok(NaN)
    ensures !Expired(o) && r.Ok? ==> r.value.Finite?
    ensures r.Err? <==>
      (!Expired(o) && (o.sigma * m.sqrt(MtyInYears(o)) == 0.0 || o.strike == 0.0 || o.spot / o.strike <= 0.0))
    ensures r.Err? ==> r.error == (if o.sigma * m.sqrt(MtyInYears(o)) == 0.0 || o.strike == 0.0
                                   then ZeroDivisionError else MathDomainError)
    ensures r.Ok? && r.value.Finite? ==>
      r.value.v * (o.sigma * m.sqrt(MtyInYears(o)))
        == m.log(o.spot / o.strike) + (o.rf + o.sigma * o.sigma / 2.0 * MtyInYears(o))
  {
    if Expired(o) then Ok(NaN)
    else
      var t := MtyInYears(o);
      // t > 0 here, so math.sqrt cannot raise
      var s := m.sqrt(t);
      var k :- Div(1.0, o.sigma * s);
      var q :- Div(o.spot, o.strike);
      var l :- Log(m, q);
      var x := l + (o.rf + o.sigma * o.sigma / 2.0 * t);
      assert k * x * (o.sigma * s) == x * (k * (o.sigma * s));
      Ok(Finite(k * x))
  }

  /**
   * d2 = d1 - sigma * sqrt(T). Once expired d1 is NaN, but Python still
   * evaluates sqrt(T), which raises for a negative maturity.
   */
  function D2(o: Terms, m: Maths): (r: Result<Float, PyError>)
    ensures !Expired(o) ==> (r.Err? <==> D1(o, m).Err?)
    ensures !Expired(o) && r.Ok? ==>
      r.value.Finite? && r.value.v == D1(o, m).value.v - o.sigma * m.sqrt(MtyInYears(o))
    ensures o.mtyInDays < 0.0 ==> r == Err(MathDomainError)
    ensures o.mtyInDays == 0.0 ==> r == Ok(NaN)
  {
    var d :- D1(o, m);
    var s :- Sqrt(m, MtyInYears(o));
    match d
    case NaN => Ok(NaN)
    case Finite(v) => Ok(Finite(v - o.sigma * s))
  }

  /** The hedge ratio N(d1); 0 once expired. */
  function Delta(o: Terms, m: Maths): (r: Result<real, PyError>)
    ensures Expired(o) ==> r == Ok(0.0)
    ensures r.Err? <==> D1(o, m).Err?
    ensures r.Err? ==> r.error == D1(o, m).error
    ensures !Expired(o) && r.Ok? ==> r.value == m.norm(D1(o, m).value.v)
    ensures m.Valid() && r.Ok? ==> 0.0 <= r.value <= 1.0
  {
    if Expired(o) then Ok(0.0)
    else
      var d :- D1(o, m);
      Ok(m.norm(d.v))
  }

  /** The intrinsic value max(spot - strike, 0). */
  function Payoff(o: Terms): (r: real)
    ensures r >= 0.0 && r >= o.spot - o.strike
    ensures r == 0.0 || r == o.spot - o.strike
  {
    Max(o.spot - o.strike, 0.0)
  }

  /** N(d1) * spot - N(d2) * strike * exp(-rf * T); the payoff once expired. */
  function Price(o: Terms, m: Maths): (r: Result<real, PyError>)
    ensures Expired(o) ==> r == Ok(Payoff(o))
    ensures r.Err? <==> D1(o, m).Err?
    ensures r.Err? ==> r.error == D1(o, m).error
    ensures !Expired(o) && r.Ok? ==>
      r.value == m.norm(D1(o, m).value.v) * o.spot
                 - m.norm(D2(o, m).value.v) * o.strike * m.exp(-o.rf * MtyInYears(o))
  {
    if Expired(o) then Ok(Payoff(o))
    else
      var d1 :- D1(o, m);
      var d2 := D2(o, m).value;
      Ok(m.norm(d1.v) * o.spot - m.norm(d2.v) * o.strike * m.exp(-o.rf * MtyInYears(o)))
  }

  /**
   * With a genuine square root, pricing an unexpired option raises exactly
   * when sigma is zero, the strike is zero or spot/strike is not positive.
   */
  lemma PricingRaisesIff(o: Terms, m: Maths)
    requires m.Valid() && !Expired(o)
    ensures Price(o, m).Err? <==> o.sigma == 0.0 || o.strike == 0.0 || o.spot / o.strike <= 0.0
    ensures Price(o, m).Err? ==> Price(o, m) == Delta(o, m)
  {
    var t := MtyInYears(o);
    assert m.sqrt(t) > 0.0;
    assert o.sigma * m.sqrt(t) == 0.0 <==> o.sigma == 0.0;
  }

  /** The option object: only the spot and the remaining maturity ever change. */
  class CallOption {
    var spot: real
    const strike: real
    const sigma: real
    const rf: real
    var mtyInDays: real

    constructor (spot: real, strike: real, sigma: real, rf: real, mtyInDays: real)
      ensures Value() == Terms(spot, strike, sigma, rf, mtyInDays)
    {
      this.spot := spot;
      this.strike := strike;
      this.sigma := sigma;
      this.rf := rf;
      this.mtyInDays := mtyInDays;
    }

    function Value(): Terms
      reads this
    {
      Terms(spot, strike, sigma, rf, mtyInDays)
    }

    /** Age the option by `time` days. */
    method Expire(time: real)
      modifies this
      ensures mtyInDays == old(mtyInDays) - time
      ensures spot == old(spot)
      ensures MtyInYears(Value()) == MtyInYears(old(Value())) - time / TradingDaysPerYear
    {
      mtyInDays := mtyInDays - time;
    }
  }
}
