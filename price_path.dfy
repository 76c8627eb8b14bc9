/**
 * The simulated path of the underlying asset: a grid of time points and the
 * prices on it, built from one log-normal draw per step.
 */
module PricePaths {
  import opened Common
  import opened PyMath
  import CO = CallOptions

  /** Time points (in days) and prices, always of equal length. */
  datatype PriceTS = PriceTS(points: seq<real>, prices: seq<real>)

  /** Constructing a PriceTS checks that both columns have the same length. */
  function NewPriceTS(points: seq<real>, prices: seq<real>): (r: Result<PriceTS, PyError>)
    ensures r.Ok? <==> |points| == |prices|
    ensures r.Ok? ==> r.value.points == points && r.value.prices == prices
    ensures r.Err? ==> r.error.ValueError?
  {
    if |points| != |prices| then Err(ValueError("points and prices must have the same length"))
    else Ok(PriceTS(points, prices))
  }

  function Len(ts: PriceTS): nat
  {
    |ts.points|
  }

  /**
   * The random source: `sample(mean, sigma, i)` is the log-normal draw with
   * those parameters that the generator delivers at position `i` of its stream.
   */
  type Sampler = (real, real, nat) -> real

  /** `np.cumsum`: running totals accumulated from the left. */
  function CumSum(xs: seq<real>): (r: seq<real>)
    ensures |r| == |xs|
    ensures forall k :: 0 <= k < |xs| ==> r[k] == Sum(xs[..k + 1])
  {
    var r := RunningTotals(0.0, xs);
    RunningTotalsLength(0.0, xs);
    forall k | 0 <= k < |xs| ensures r[k] == Sum(xs[..k + 1]) {
      RunningTotalsAt(0.0, xs, k);
    }
    r
  }

  function RunningTotals(acc: real, xs: seq<real>): seq<real>
    decreases |xs|
  {
    if xs == [] then [] else [acc + xs[0]] + RunningTotals(acc + xs[0], xs[1..])
  }

  lemma {:induction false} RunningTotalsAt(acc: real, xs: seq<real>, k: nat)
    requires k < |xs|
    ensures |RunningTotals(acc, xs)| == |xs|
    ensures RunningTotals(acc, xs)[k] == acc + Sum(xs[..k + 1])
    decreases |xs|
  {
    if k == 0 {
      RunningTotalsLength(acc, xs);
      assert xs[..1][..0] == [];
    } else {
      RunningTotalsAt(acc + xs[0], xs[1..], k - 1);
      assert xs[..k + 1] == [xs[0]] + xs[1..][..k];
      SumAppend([xs[0]], xs[1..][..k]);
      assert [xs[0]][..0] == [];
    }
  }

  lemma {:induction false} RunningTotalsLength(acc: real, xs: seq<real>)
    ensures |RunningTotals(acc, xs)| == |xs|
    decreases |xs|
  {
    if xs != [] {
      RunningTotalsLength(acc + xs[0], xs[1..]);
    }
  }

  /** The per-step mean of the log-normal draws: er / 252 / times_per_day. */
  function StepMean(er: real, timesPerDay: int): real
    requires timesPerDay != 0
  {
    er / CO.TradingDaysPerYear / timesPerDay as real
  }

  /** The per-step volatility: evol / sqrt(252 * times_per_day). */
  function StepVol(evol: real, timesPerDay: int, m: Maths): real
    requires timesPerDay > 0 && m.sqrt(CO.TradingDaysPerYear * timesPerDay as real) != 0.0
  {
    evol / m.sqrt(CO.TradingDaysPerYear * timesPerDay as real)
  }

  /** `n` consecutive draws of the stream from position `start`. */
  function Draws(sample: Sampler, mean: real, vol: real, start: nat, n: nat): (r: seq<real>)
    ensures |r| == n
    ensures forall j :: 0 <= j < n ==> r[j] == sample(mean, vol, start + j)
  {
    seq(n, j requires 0 <= j < n => sample(mean, vol, start + j))
  }

  /**
   * Drawing `a` values and then `b` more reads the same stretch of the
   * stream as drawing `a + b` at once: nothing is skipped or read twice.
   */
  lemma DrawsConcat(sample: Sampler, mean: real, vol: real, start: nat, a: nat, b: nat)
    ensures Draws(sample, mean, vol, start, a) + Draws(sample, mean, vol, start + a, b)
         == Draws(sample, mean, vol, start, a + b)
  {
    var both := Draws(sample, mean, vol, start, a) + Draws(sample, mean, vol, start + a, b);
    forall j | a <= j < a + b ensures both[j] == sample(mean, vol, start + j) {
      assert both[j] == Draws(sample, mean, vol, start + a, b)[j - a];
    }
  }

  /** `rtn - 1` on a numpy array. */
  function LessOne(xs: seq<real>): (r: seq<real>)
    ensures |r| == |xs| && forall j :: 0 <= j < |xs| ==> r[j] + 1.0 == xs[j]
  {
    seq(|xs|, j requires 0 <= j < |xs| => xs[j] - 1.0)
  }

  /** The excess draws sum to the draws' sum less one per draw. */
  lemma {:induction false} SumLessOne(xs: seq<real>)
    ensures Sum(LessOne(xs)) == Sum(xs) - |xs| as real
    decreases |xs|
  {
    if xs != [] {
      var n := |xs| - 1;
      assert LessOne(xs)[..n] == LessOne(xs[..n]);
      SumLessOne(xs[..n]);
    }
  }

  /**
   * The price column: p0, then `p0 * np.exp(np.cumsum(rtn - 1))`. Each later
   * price is p0 times exp of the summed excess draws, not a running product.
   */
  function PathPrices(p0: real, m: Maths, rtn: seq<real>): (r: seq<real>)
    ensures |r| == |rtn| + 1 && r[0] == p0
    ensures forall k :: 1 <= k <= |rtn| ==> r[k] == p0 * m.exp(Sum(LessOne(rtn)[..k]))
  {
    var sums := CumSum(LessOne(rtn));
    [p0] + seq(|rtn|, j requires 0 <= j < |rtn| => p0 * m.exp(sums[j]))
  }

  /** The time column: 0, then `np.array(range(1, n + 1)) / timesPerDay`. */
  function TimeGrid(n: nat, timesPerDay: int): (r: seq<real>)
    requires timesPerDay > 0
    ensures |r| == n + 1
    ensures forall k :: 0 <= k <= n ==> r[k] * timesPerDay as real == k as real
  {
    [0.0] + seq(n, j requires 0 <= j < n => (j + 1) as real / timesPerDay as real)
  }

  /** The condition under which `price_ts` returns instead of raising. */
  predicate PathDefined(evol: real, days: int, timesPerDay: int, m: Maths)
  {
    && timesPerDay > 0
    && m.sqrt(CO.TradingDaysPerYear * timesPerDay as real) != 0.0
    && StepVol(evol, timesPerDay, m) >= 0.0
    && days >= 0
  }

  /**
   * `price_ts`: `days * timesPerDay` draws, time points k / timesPerDay and
   * prices p0 * exp(cumsum(rtn - 1)), each column prefixed with its value at
   * time 0. Python raises for a zero `timesPerDay` (er / 252 / 0), for a
   * negative one (square root of a negative number) and for a zero square
   * root (division); numpy for a negative volatility or a negative count.
   */
  function PriceTs(p0: real, er: real, evol: real, days: int, timesPerDay: int,
                   m: Maths, sample: Sampler, start: nat): (r: Result<PriceTS, PyError>)
    ensures r.Ok? <==> PathDefined(evol, days, timesPerDay, m)
    ensures timesPerDay == 0 ==> r == Err(ZeroDivisionError)
    ensures timesPerDay < 0 ==> r == Err(MathDomainError)
    ensures timesPerDay > 0 && m.sqrt(CO.TradingDaysPerYear * timesPerDay as real) == 0.0 ==>
      r == Err(ZeroDivisionError)
    ensures timesPerDay > 0 && m.sqrt(CO.TradingDaysPerYear * timesPerDay as real) != 0.0 ==>
      (StepVol(evol, timesPerDay, m) < 0.0 ==> r == Err(ValueError("sigma < 0"))) &&
      (StepVol(evol, timesPerDay, m) >= 0.0 && days < 0 ==>
         r == Err(ValueError("negative dimensions are not allowed")))
    ensures r.Ok? ==>
      var n := days * timesPerDay;
      var rtn := Draws(sample, StepMean(er, timesPerDay), StepVol(evol, timesPerDay, m), start, n);
      && |r.value.points| == |r.value.prices| == n + 1
      && (forall k :: 0 <= k <= n ==> r.value.points[k] * timesPerDay as real == k as real)
      && r.value.prices[0] == p0
      && (forall k :: 1 <= k <= n ==> r.value.prices[k] == p0 * m.exp(Sum(LessOne(rtn)[..k])))
  {
    if timesPerDay == 0 then Err(ZeroDivisionError)          // er / 252 / times_per_day
    else if timesPerDay < 0 then Err(MathDomainError)        // sqrt(252 * times_per_day)
    else if m.sqrt(CO.TradingDaysPerYear * timesPerDay as real) == 0.0 then Err(ZeroDivisionError)
    else if StepVol(evol, timesPerDay, m) < 0.0 then Err(ValueError("sigma < 0"))
    else if days < 0 then Err(ValueError("negative dimensions are not allowed"))
    else Ok(Path(p0, er, evol, days, timesPerDay, m, sample, start))
  }

  /** The path itself, once the parameters are known to be usable; its two columns always match. */
  function Path(p0: real, er: real, evol: real, days: int, timesPerDay: int,
                m: Maths, sample: Sampler, start: nat): (r: PriceTS)
    requires PathDefined(evol, days, timesPerDay, m)
    ensures
      var n := days * timesPerDay;
      var rtn := Draws(sample, StepMean(er, timesPerDay), StepVol(evol, timesPerDay, m), start, n);
      && |r.points| == |r.prices| == n + 1
      && (forall k :: 0 <= k <= n ==> r.points[k] * timesPerDay as real == k as real)
      && r.prices == PathPrices(p0, m, rtn)
      && r.prices[0] == p0
      && (forall k :: 1 <= k <= n ==> r.prices[k] == p0 * m.exp(Sum(LessOne(rtn)[..k])))
  {
    var n := days * timesPerDay;
    var rtn := Draws(sample, StepMean(er, timesPerDay), StepVol(evol, timesPerDay, m), start, n);
    NewPriceTS(TimeGrid(n, timesPerDay), PathPrices(p0, m, rtn)).value
  }

  /** With a genuine exp, every price of a path started at a positive price is positive. */
  lemma PathPricesPositive(p0: real, m: Maths, rtn: seq<real>)
    requires m.Valid() && p0 > 0.0
    ensures forall k :: 0 <= k < |PathPrices(p0, m, rtn)| ==> PathPrices(p0, m, rtn)[k] > 0.0
  {
    var r := PathPrices(p0, m, rtn);
    forall k | 0 <= k < |r| ensures r[k] > 0.0 {
      if k > 0 {
        var e := m.exp(Sum(LessOne(rtn)[..k]));
        assert e > 0.0;
        assert r[k] == p0 * e;
      }
    }
  }

  /** The same for the path `price_ts` returns. */
  lemma PricesPositive(p0: real, er: real, evol: real, days: int, timesPerDay: int,
                       m: Maths, sample: Sampler, start: nat)
    requires m.Valid() && p0 > 0.0
    requires PriceTs(p0, er, evol, days, timesPerDay, m, sample, start).Ok?
    ensures forall k :: 0 <= k < |PriceTs(p0, er, evol, days, timesPerDay, m, sample, start).value.prices| ==>
      PriceTs(p0, er, evol, days, timesPerDay, m, sample, start).value.prices[k] > 0.0
  {
    var n := days * timesPerDay;
    var rtn := Draws(sample, StepMean(er, timesPerDay), StepVol(evol, timesPerDay, m), start, n);
    assert PriceTs(p0, er, evol, days, timesPerDay, m, sample, start).value.prices == PathPrices(p0, m, rtn);
    PathPricesPositive(p0, m, rtn);
  }
}
