/**
 * The statistics mode of the simulator's command line: `run_once` builds a
 * fresh option and portfolio from the options and simulates it, and
 * `run_mult` repeats that `n` times, collecting each run's terminal
 * statistic. Successive runs read successive stretches of one random stream.
 */
module MonteCarlo {
  import opened Common
  import opened PyMath
  import CO = CallOptions
  import opened PricePaths
  import opened AccountBooks
  import R = Replica
  import opened ReplicaLedger
  import RP = ReplicaPortfolio

  /** The parsed command-line options a run is built from. */
  datatype Options = Options(spot: real, strike: real, sigma: real, rf: real, mty: int,
                             cash: real, er: real, freq: int, qty: real)

  /** The option each run starts from: maturity `mty` whole days. */
  function OptionTerms(p: Options): (o: CO.Terms)
    ensures o.mtyInDays == p.mty as real && o.spot == p.spot && o.strike == p.strike
    ensures o.sigma == p.sigma && o.rf == p.rf
  {
    CO.Terms(p.spot, p.strike, p.sigma, p.rf, p.mty as real)
  }

  /** How far one run advances the random stream: one draw per step of its path. */
  function DrawsPerRun(p: Options): (n: nat)
    ensures p.freq >= 0 && p.mty >= 0 ==> n == p.freq * p.mty
  {
    var days := Trunc(p.mty as real);
    assert p.mty >= 0 ==> days == p.mty;
    MaxInt(p.freq * days, 0)
  }

  /**
   * `run_once(opt).booking.mv_stat`: construction, simulation and the
   * terminal statistic, with the first exception any of them raises.
   */
  function Run(p: Options, m: Maths, sample: Sampler, start: nat): (r: Result<MvSummary, PyError>)
    ensures PriceTs(p.spot, p.er, p.sigma, Trunc(p.mty as real), p.freq, m, sample, start).Err? ==>
      r == Err(PriceTs(p.spot, p.er, p.sigma, Trunc(p.mty as real), p.freq, m, sample, start).error)
    ensures p.freq == 0 ==> r == Err(ZeroDivisionError)
  {
    var launched :- R.Launch(p.cash, p.freq, OptionTerms(p), p.qty, p.er, m, sample, start);
    var o := R.Simulate(launched.0, launched.1);
    if o.raised.Some? then Err(o.raised.value) else TerminalStat(o.state.rows)
  }

  /**
   * For a priced option on a positive spot with positive strike and
   * volatility, a constructed run never raises: its result is the statistic
   * of a full ledger of max(total steps, 1) rows.
   */
  lemma SaneRun(p: Options, m: Maths, sample: Sampler, start: nat)
    requires m.Valid() && p.spot > 0.0 && p.strike > 0.0 && p.sigma > 0.0
    requires R.Launch(p.cash, p.freq, OptionTerms(p), p.qty, p.er, m, sample, start).Ok?
    ensures
      var (c, h) := R.Launch(p.cash, p.freq, OptionTerms(p), p.qty, p.er, m, sample, start).value;
      var rows := R.Simulate(c, h).state.rows;
      && |rows| == MaxInt(c.totalSteps, 1)
      && Run(p, m, sample, start) == TerminalStat(rows)
      && Run(p, m, sample, start).Ok?
  {
    SaneRunCompletes(p.cash, p.freq, OptionTerms(p), p.qty, p.er, m, sample, start);
  }

  /** Where run `i` of a batch started at `start` begins reading a stream, `stride` draws per run. */
  function Position(stride: nat, start: nat, i: nat): nat
  {
    start + i * stride
  }

  /**
   * `run_mult`'s loop for any `run` from a stream position: `n` runs one
   * after another, each from where the previous one left the stream; the
   * first exception ends the batch and is what the caller sees.
   */
  function Batch<T, E>(run: nat -> Result<T, E>, stride: nat, start: nat, n: int): (r: Result<seq<T>, E>)
    ensures r.Ok? ==> |r.value| == MaxInt(n, 0)
    decreases MaxInt(n, 0)
  {
    if n <= 0 then Ok([])
    else
      var s :- run(start);
      var rest :- Batch(run, stride, start + stride, n - 1);
      Ok([s] + rest)
  }

  /** Dropping the first run of a batch starts the rest where it left the stream. */
  lemma ShiftPosition(stride: nat, start: nat)
    ensures forall i: nat {:trigger Position(stride, start, i + 1)} ::
      Position(stride, start + stride, i) == Position(stride, start, i + 1)
  {
  }

  /**
   * A batch succeeds exactly when each of its runs does, and then holds
   * their results in order; otherwise it fails with the first run's error.
   */
  lemma {:induction false} BatchResults<T, E>(run: nat -> Result<T, E>, stride: nat, start: nat, n: int)
    ensures var r := Batch(run, stride, start, n);
      && (r.Ok? <==> forall i: nat :: i < n ==> run(Position(stride, start, i)).Ok?)
      && (r.Ok? ==> forall i: nat :: i < |r.value| ==> run(Position(stride, start, i)) == Ok(r.value[i]))
      && (r.Err? ==>
            exists j: nat :: && j < n
                             && run(Position(stride, start, j)) == Err(r.error)
                             && forall i: nat :: i < j ==> run(Position(stride, start, i)).Ok?)
    decreases MaxInt(n, 0)
  {
    if n > 0 {
      assert Position(stride, start, 0) == start;
      ShiftPosition(stride, start);
      BatchResults(run, stride, start + stride, n - 1);
      var r := Batch(run, stride, start, n);
      var rest := Batch(run, stride, start + stride, n - 1);
      if run(start).Ok? && rest.Ok? {
        assert r.value == [run(start).value] + rest.value;
        forall i: nat | i < |r.value| ensures run(Position(stride, start, i)) == Ok(r.value[i]) {
          if i > 0 {
            assert r.value[i] == rest.value[i - 1];
            assert Position(stride, start + stride, i - 1) == Position(stride, start, i);
          }
        }
      } else if rest.Err? && run(start).Ok? {
        var next := start + stride;
        var j: nat :| && j < n - 1
                      && run(Position(stride, next, j)) == Err(rest.error)
                      && forall i: nat :: i < j ==> run(Position(stride, next, i)).Ok?;
        assert Position(stride, next, j) == Position(stride, start, j + 1);
        forall i: nat | i < j + 1 ensures run(Position(stride, start, i)).Ok? {
          if i > 0 {
            assert Position(stride, next, i - 1) == Position(stride, start, i);
          }
        }
        assert !run(Position(stride, start, j + 1)).Ok?;
      }
    }
  }

  /** One turn of `run_mult`'s loop: a successful run is followed by the rest of the batch. */
  lemma BatchStep<T, E>(run: nat -> Result<T, E>, stride: nat, start: nat, n: int)
    requires n > 0
    ensures run(start).Err? ==> Batch(run, stride, start, n) == Err(run(start).error)
    ensures run(start).Ok? ==>
      Batch(run, stride, start, n) == Prefixed([run(start).value], Batch(run, stride, start + stride, n - 1))
  {
  }

  /** Prefixing the results already collected to an outcome; an exception discards them. */
  function Prefixed<T, E>(out: seq<T>, r: Result<seq<T>, E>): Result<seq<T>, E>
  {
    match r
    case Ok(rest) => Ok(out + rest)
    case Err(e) => Err(e)
  }

  lemma PrefixedNothing<T, E>(r: Result<seq<T>, E>)
    ensures Prefixed([], r) == r
  {
    if r.Ok? {
      assert [] + r.value == r.value;
    }
  }

  lemma PrefixedTwice<T, E>(out: seq<T>, s: T, r: Result<seq<T>, E>)
    ensures Prefixed(out, Prefixed([s], r)) == Prefixed(out + [s], r)
  {
    if r.Ok? {
      assert out + ([s] + r.value) == (out + [s]) + r.value;
    }
  }

  /** One turn of `run_mult`'s loop keeps what remains to be collected. */
  lemma LoopTurn<T, E>(run: nat -> Result<T, E>, stride: nat, whole: Result<seq<T>, E>,
                       out: seq<T>, pos: nat, left: int, s: T, out': seq<T>, pos': nat, left': int)
    requires whole == Prefixed(out, Batch(run, stride, pos, left))
    requires left > 0 && run(pos) == Ok(s)
    requires out' == out + [s] && pos' == pos + stride && left' == left - 1
    ensures whole == Prefixed(out', Batch(run, stride, pos', left'))
  {
    BatchStep(run, stride, pos, left);
    PrefixedTwice(out, s, Batch(run, stride, pos', left'));
  }

  /** `run_once` as a function of the stream position it starts from. */
  function RunFrom(p: Options, m: Maths, sample: Sampler): nat -> Result<MvSummary, PyError>
  {
    (pos: nat) => Run(p, m, sample, pos)
  }

  /** `run_mult(opt, n)`: the batch of `n` runs of `run_once` from stream position `start`. */
  function Runs(p: Options, m: Maths, sample: Sampler, start: nat, n: int): (r: Result<seq<MvSummary>, PyError>)
    ensures r.Ok? ==> |r.value| == MaxInt(n, 0)
  {
    Batch(RunFrom(p, m, sample), DrawsPerRun(p), start, n)
  }

  /**
   * `run_mult` returns one statistic per run, in order, each that of the
   * run from its own stretch of the stream, or else the first exception.
   */
  lemma RunsResults(p: Options, m: Maths, sample: Sampler, start: nat, n: int)
    ensures var r := Runs(p, m, sample, start, n);
      && (r.Ok? <==> forall i: nat :: i < n ==> Run(p, m, sample, Position(DrawsPerRun(p), start, i)).Ok?)
      && (r.Ok? ==> forall i: nat :: i < |r.value| ==>
            Run(p, m, sample, Position(DrawsPerRun(p), start, i)) == Ok(r.value[i]))
      && (r.Err? ==>
            exists j: nat :: && j < n
                             && Run(p, m, sample, Position(DrawsPerRun(p), start, j)) == Err(r.error)
                             && forall i: nat :: i < j ==> Run(p, m, sample, Position(DrawsPerRun(p), start, i)).Ok?)
  {
    BatchResults(RunFrom(p, m, sample), DrawsPerRun(p), start, n);
  }

  /** `run_once(opt).booking.mv_stat` on objects: a fresh option and portfolio per run. */
  method RunOnce(p: Options, m: Maths, sample: Sampler, start: nat) returns (r: Result<MvSummary, PyError>)
    ensures r == Run(p, m, sample, start)
  {
    var callOpt := new CO.CallOption(p.spot, p.strike, p.sigma, p.rf, p.mty as real);
    var created := RP.CallOptionReplicaPtf.Create(p.cash, p.freq, callOpt, p.qty, p.er, m, sample, start);
    if created.Err? {
      return Err(created.error);
    }
    var ptf := created.value;
    var raised := ptf.Simulate();
    if raised.Some? {
      return Err(raised.value);
    }
    r := ptf.booking.MvStat();
  }

  /** `run_mult`: counts `n` down, appending one statistic per run. */
  method RunMult(p: Options, m: Maths, sample: Sampler, start: nat, n: int)
    returns (r: Result<seq<MvSummary>, PyError>)
    ensures r == Runs(p, m, sample, start, n)
  {
    ghost var run := RunFrom(p, m, sample);
    var stride := DrawsPerRun(p);
    var out: seq<MvSummary> := [];
    var left := n;
    var pos: nat := start;
    PrefixedNothing(Batch(run, stride, pos, left));
    while left > 0
      invariant Runs(p, m, sample, start, n) == Prefixed(out, Batch(run, stride, pos, left))
      decreases left
    {
      var s := RunOnce(p, m, sample, pos);
      assert run(pos) == s;
      if s.Err? {
        BatchStep(run, stride, pos, left);
        return Err(s.error);
      }
      ghost var (out0, pos0, left0) := (out, pos, left);
      out := out + [s.value];
      pos := pos + stride;
      left := left - 1;
      LoopTurn(run, stride, Runs(p, m, sample, start, n), out0, pos0, left0, s.value, out, pos, left);
    }
    assert out + [] == out;
    return Ok(out);
  }
}
