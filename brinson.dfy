/**
 * Brinson attribution for a single period: the excess return of a portfolio
 * over its benchmark, asset by asset, split into an allocation part (weight
 * differences at the benchmark's return), a selection part (return
 * differences at the portfolio's weight, cross effect included) and, for
 * the rest, an "other" effect.
 */
module Brinson {
  import opened Common

  /** `Pos_Info`: one asset's weight and return. */
  datatype PosInfo = PosInfo(weight: real, rtn: real)

  /** The two exceptions of the module, with the numbers their messages show. */
  datatype BrinsonError =
    | SumWeightError(sumWeight: real)      // "the sum weight is … but should be 1.0"
    | LengthError(ptfLen: nat, bmkLen: nat) // "the length of ptf (…) and bmk (…) must be equal"

  /** `Brinson_Res`: one allocation and one selection entry per asset, and the rest. */
  datatype BrinsonRes = BrinsonRes(alloc: seq<real>, sel: seq<real>, other: Float)

  /** The default relative tolerance of `math.isclose`, 1e-9. */
  const RelTol: real := 0.000000001

  /**
   * `math.isclose(a, b)` with its default tolerances (relative 1e-9,
   * absolute 0): the gap is within 1e-9 of the larger magnitude.
   */
  predicate IsClose(a: real, b: real)
  {
    Abs(a - b) <= Max(RelTol * Abs(a), RelTol * Abs(b))
  }

  /**
   * The weight sums a position accepts: from 1 - 1e-9 up to 1 / (1 - 1e-9),
   * the bound above being relative to the sum itself.
   */
  lemma IsCloseToOne(w: real)
    ensures IsClose(w, 1.0) <==> 1.0 - RelTol <= w && (1.0 - RelTol) * w <= 1.0
  {
    if w >= 1.0 {
      assert Abs(w - 1.0) == w - 1.0 && Max(RelTol * Abs(w), RelTol * 1.0) == RelTol * w;
    } else if w >= 0.0 {
      assert Abs(w - 1.0) == 1.0 - w && Max(RelTol * Abs(w), RelTol * 1.0) == RelTol;
    } else {
      assert Abs(w - 1.0) == 1.0 - w && Abs(w) == -w;
    }
  }

  /** One asset's weighted return, as `sum_rtn` adds it. */
  function Contribution(a: PosInfo): real
  {
    a.rtn * a.weight
  }

  /** One asset's allocation effect, as `breakdown` appends it. */
  function AllocationOf(p: PosInfo, b: PosInfo): real
  {
    (p.weight - b.weight) * b.rtn
  }

  /** One asset's selection effect, cross effect included, as `breakdown` appends it. */
  function SelectionOf(p: PosInfo, b: PosInfo): real
  {
    (p.rtn - b.rtn) * p.weight
  }

  /** The weights of a list of assets, in order. */
  function Weights(assets: seq<PosInfo>): (r: seq<real>)
    ensures |r| == |assets| && forall i :: 0 <= i < |assets| ==> r[i] == assets[i].weight
  {
    seq(|assets|, i requires 0 <= i < |assets| => assets[i].weight)
  }

  /** Each asset's contribution `rtn * weight`, in order. */
  function Contributions(assets: seq<PosInfo>): (r: seq<real>)
    ensures |r| == |assets| && forall i :: 0 <= i < |assets| ==> r[i] == Contribution(assets[i])
  {
    seq(|assets|, i requires 0 <= i < |assets| => Contribution(assets[i]))
  }

  /** `alloc`: (portfolio weight - benchmark weight) * benchmark return, asset by asset. */
  function Allocation(ptf: seq<PosInfo>, bmk: seq<PosInfo>): (r: seq<real>)
    requires |ptf| == |bmk|
    ensures |r| == |ptf|
    ensures forall i :: 0 <= i < |ptf| ==> r[i] == AllocationOf(ptf[i], bmk[i])
  {
    seq(|ptf|, i requires 0 <= i < |ptf| => AllocationOf(ptf[i], bmk[i]))
  }

  /** `sel`: (portfolio return - benchmark return) * portfolio weight, asset by asset. */
  function Selection(ptf: seq<PosInfo>, bmk: seq<PosInfo>): (r: seq<real>)
    requires |ptf| == |bmk|
    ensures |r| == |ptf|
    ensures forall i :: 0 <= i < |ptf| ==> r[i] == SelectionOf(ptf[i], bmk[i])
  {
    seq(|ptf|, i requires 0 <= i < |ptf| => SelectionOf(ptf[i], bmk[i]))
  }

  /** Python float subtraction lifted to NaN: NaN in, NaN out. */
  function Minus(a: Float, b: Float): (r: Float)
    ensures r.Finite? <==> a.Finite? && b.Finite?
    ensures r.Finite? ==> r.v + b.v == a.v
  {
    if a.Finite? && b.Finite? then Finite(a.v - b.v) else NaN
  }

  /**
   * `other`: the gap between the real excess return and the excess of the
   * weighted sums, which allocation and selection do not explain.
   */
  function Other(ptfReal: Float, bmkReal: Float, ptf: seq<PosInfo>, bmk: seq<PosInfo>): (r: Float)
    ensures r.Finite? <==> ptfReal.Finite? && bmkReal.Finite?
    ensures r.Finite? ==>
      r.v + (Sum(Contributions(ptf)) - Sum(Contributions(bmk))) == ptfReal.v - bmkReal.v
  {
    Minus(Minus(ptfReal, bmkReal), Finite(Sum(Contributions(ptf)) - Sum(Contributions(bmk))))
  }

  /** `breakdown` on the two positions' assets and real returns. */
  function Attribution(ptf: seq<PosInfo>, ptfReal: Float, bmk: seq<PosInfo>, bmkReal: Float)
    : (r: Result<BrinsonRes, BrinsonError>)
    ensures r.Err? <==> |ptf| != |bmk|
    ensures r.Err? ==> r.error == LengthError(|ptf|, |bmk|)
    ensures r.Ok? ==> |r.value.alloc| == |r.value.sel| == |ptf|
  {
    if |ptf| != |bmk| then Err(LengthError(|ptf|, |bmk|))
    else Ok(BrinsonRes(Allocation(ptf, bmk), Selection(ptf, bmk), Other(ptfReal, bmkReal, ptf, bmk)))
  }

  /** The per-asset columns of a prefix of the assets are the prefixes of the columns. */
  lemma AllocationPrefix(ptf: seq<PosInfo>, bmk: seq<PosInfo>, n: nat)
    requires |ptf| == |bmk| && n <= |ptf|
    ensures Allocation(ptf, bmk)[..n] == Allocation(ptf[..n], bmk[..n])
  {
    assert forall i | 0 <= i < n :: Allocation(ptf, bmk)[..n][i] == Allocation(ptf[..n], bmk[..n])[i];
  }

  lemma SelectionPrefix(ptf: seq<PosInfo>, bmk: seq<PosInfo>, n: nat)
    requires |ptf| == |bmk| && n <= |ptf|
    ensures Selection(ptf, bmk)[..n] == Selection(ptf[..n], bmk[..n])
  {
    assert forall i | 0 <= i < n :: Selection(ptf, bmk)[..n][i] == Selection(ptf[..n], bmk[..n])[i];
  }

  lemma ContributionsPrefix(assets: seq<PosInfo>, n: nat)
    requires n <= |assets|
    ensures Contributions(assets)[..n] == Contributions(assets[..n])
  {
    assert forall i | 0 <= i < n :: Contributions(assets)[..n][i] == Contributions(assets[..n])[i];
  }

  /** One asset's allocation and selection add up to its excess contribution. */
  lemma AssetSplit(p: PosInfo, b: PosInfo)
    ensures AllocationOf(p, b) + SelectionOf(p, b) == Contribution(p) - Contribution(b)
  {
  }

  /**
   * Allocation and selection together account for exactly the excess of
   * the portfolio's weighted return over the benchmark's.
   */
  lemma {:induction false} AllocationSelection(ptf: seq<PosInfo>, bmk: seq<PosInfo>)
    requires |ptf| == |bmk|
    ensures Sum(Allocation(ptf, bmk)) + Sum(Selection(ptf, bmk))
         == Sum(Contributions(ptf)) - Sum(Contributions(bmk))
    decreases |ptf|
  {
    if ptf != [] {
      var n := |ptf| - 1;
      AllocationSelection(ptf[..n], bmk[..n]);
      AllocationPrefix(ptf, bmk, n);
      SelectionPrefix(ptf, bmk, n);
      ContributionsPrefix(ptf, n);
      ContributionsPrefix(bmk, n);
      AssetSplit(ptf[n], bmk[n]);
    }
  }

  /** Appending one asset to both positions appends one entry to each column. */
  lemma AllocationStep(ptf: seq<PosInfo>, bmk: seq<PosInfo>, i: nat)
    requires |ptf| == |bmk| && i < |ptf|
    ensures Allocation(ptf[..i + 1], bmk[..i + 1]) == Allocation(ptf[..i], bmk[..i]) + [AllocationOf(ptf[i], bmk[i])]
  {
    var a := Allocation(ptf[..i + 1], bmk[..i + 1]);
    AllocationPrefix(ptf[..i + 1], bmk[..i + 1], i);
    assert ptf[..i + 1][..i] == ptf[..i] && bmk[..i + 1][..i] == bmk[..i];
    assert a == a[..i] + [a[i]];
  }

  lemma SelectionStep(ptf: seq<PosInfo>, bmk: seq<PosInfo>, i: nat)
    requires |ptf| == |bmk| && i < |ptf|
    ensures Selection(ptf[..i + 1], bmk[..i + 1]) == Selection(ptf[..i], bmk[..i]) + [SelectionOf(ptf[i], bmk[i])]
  {
    var a := Selection(ptf[..i + 1], bmk[..i + 1]);
    SelectionPrefix(ptf[..i + 1], bmk[..i + 1], i);
    assert ptf[..i + 1][..i] == ptf[..i] && bmk[..i + 1][..i] == bmk[..i];
    assert a == a[..i] + [a[i]];
  }

  /**
   * The attribution is complete: the allocation entries, the selection
   * entries and the other effect add up to the real excess return.
   */
  lemma Reconciliation(ptf: seq<PosInfo>, ptfReal: real, bmk: seq<PosInfo>, bmkReal: real)
    requires |ptf| == |bmk|
    ensures var r := Attribution(ptf, Finite(ptfReal), bmk, Finite(bmkReal)).value;
      r.other.Finite? && Sum(r.alloc) + Sum(r.sel) + r.other.v == ptfReal - bmkReal
  {
    AllocationSelection(ptf, bmk);
  }

  /** When both real returns are the defaulted weighted sums, nothing is left for `other`. */
  lemma OtherOfDefaults(ptf: seq<PosInfo>, bmk: seq<PosInfo>)
    ensures Other(Finite(Sum(Contributions(ptf))), Finite(Sum(Contributions(bmk))), ptf, bmk) == Finite(0.0)
  {
  }

  /** A position: its assets and real return, checked and completed on construction. */
  class Position {
    const assets: seq<PosInfo>
    var realRtn: Float

    /** The dataclass's generated initialiser: stores both fields as given. */
    constructor (assets: seq<PosInfo>, realRtn: Float)
      ensures this.assets == assets && this.realRtn == realRtn
    {
      this.assets := assets;
      this.realRtn := realRtn;
    }

    /** `sum_weight`: the weights added up from the first asset on. */
    method SumWeight() returns (out: real)
      ensures out == Sum(Weights(assets))
    {
      ghost var w := Weights(assets);
      out := 0.0;
      for i := 0 to |assets|
        invariant out == Sum(w[..i])
      {
        assert w[..i + 1][..i] == w[..i];
        out := out + assets[i].weight;
      }
      assert w[..|assets|] == w;
    }

    /** `sum_rtn`: the contributions `rtn * weight` added up from the first asset on. */
    method SumRtn() returns (out: real)
      ensures out == Sum(Contributions(assets))
    {
      ghost var c := Contributions(assets);
      out := 0.0;
      for i := 0 to |assets|
        invariant out == Sum(c[..i])
      {
        assert c[..i + 1][..i] == c[..i];
        out := out + assets[i].rtn * assets[i].weight;
      }
      assert c[..|assets|] == c;
    }

    /**
     * `__post_init__`: rejects weights whose sum is not close to 1, and
     * fills a missing (NaN) real return with the weighted sum of returns.
     */
    method PostInit() returns (err: Option<BrinsonError>)
      modifies this
      ensures err.Some? <==> !IsClose(Sum(Weights(assets)), 1.0)
      ensures err.Some? ==> err.value == SumWeightError(Sum(Weights(assets))) && realRtn == old(realRtn)
      ensures err.None? ==>
        realRtn == (if old(realRtn).NaN? then Finite(Sum(Contributions(assets))) else old(realRtn))
    {
      var total := SumWeight();
      if !IsClose(total, 1.0) {
        return Some(SumWeightError(total));
      }
      if realRtn.NaN? {
        var r := SumRtn();
        realRtn := Finite(r);
      }
      return None;
    }

    /** `Position(assets, real_rtn)`: initialisation followed by `__post_init__`. */
    static method New(assets: seq<PosInfo>, realRtn: Float) returns (r: Result<Position, BrinsonError>)
      ensures r.Err? <==> !IsClose(Sum(Weights(assets)), 1.0)
      ensures r.Err? ==> r.error == SumWeightError(Sum(Weights(assets)))
      ensures r.Ok? ==> fresh(r.value) && r.value.assets == assets
      ensures r.Ok? ==> r.value.realRtn == (if realRtn.NaN? then Finite(Sum(Contributions(assets))) else realRtn)
    {
      var p := new Position(assets, realRtn);
      var err := p.PostInit();
      if err.Some? {
        return Err(err.value);
      }
      return Ok(p);
    }
  }

  /** `breakdown`: the attribution of `ptf` against `bmk`, given in the same asset order. */
  method Breakdown(ptf: Position, bmk: Position) returns (r: Result<BrinsonRes, BrinsonError>)
    ensures r == Attribution(ptf.assets, ptf.realRtn, bmk.assets, bmk.realRtn)
  {
    if |ptf.assets| != |bmk.assets| {
      return Err(LengthError(|ptf.assets|, |bmk.assets|));
    }
    var alloc: seq<real> := [];
    var sel: seq<real> := [];
    for i := 0 to |ptf.assets|
      invariant alloc == Allocation(ptf.assets[..i], bmk.assets[..i])
      invariant sel == Selection(ptf.assets[..i], bmk.assets[..i])
    {
      AllocationStep(ptf.assets, bmk.assets, i);
      SelectionStep(ptf.assets, bmk.assets, i);
      var (p, b) := (ptf.assets[i], bmk.assets[i]);
      alloc := alloc + [AllocationOf(p, b)];
      sel := sel + [SelectionOf(p, b)];
    }
    assert ptf.assets[..|ptf.assets|] == ptf.assets;
    assert bmk.assets[..|bmk.assets|] == bmk.assets;
    var ptfSum := ptf.SumRtn();
    var bmkSum := bmk.SumRtn();
    var other := Minus(Minus(ptf.realRtn, bmk.realRtn), Finite(ptfSum - bmkSum));
    return Ok(BrinsonRes(alloc, sel, other));
  }

  /** The rejected position of the module's tests: weights 0.1, 0.5 and 0.5 add up to 1.1. */
  lemma RejectedWeights()
    ensures !IsClose(Sum(Weights([PosInfo(0.1, 0.02), PosInfo(0.5, -0.08), PosInfo(0.5, 0.04)])), 1.0)
  {
    var w := Weights([PosInfo(0.1, 0.02), PosInfo(0.5, -0.08), PosInfo(0.5, 0.04)]);
    assert w == [0.1, 0.5, 0.5];
    assert w[..2] == [0.1, 0.5] && w[..2][..1] == [0.1] && w[..2][..1][..0] == [];
    assert Sum(w[..2][..1]) == 0.1;
    assert Sum(w[..2]) == 0.6;
  }

  /**
   * The worked example of the module's tests, over exact reals: allocation
   * [0, -0.015, -0.003] and selection [0.001, 0.035, 0.004]; `other` is 0
   * with defaulted real returns and -0.002 with real returns 0.05 and 0.03.
   */
  lemma WorkedExample()
    ensures var ptf := [PosInfo(0.1, 0.02), PosInfo(0.5, -0.08), PosInfo(0.4, 0.04)];
      var bmk := [PosInfo(0.1, 0.01), PosInfo(0.4, -0.15), PosInfo(0.5, 0.03)];
      && IsClose(Sum(Weights(ptf)), 1.0) && IsClose(Sum(Weights(bmk)), 1.0)
      && Attribution(ptf, Finite(Sum(Contributions(ptf))), bmk, Finite(Sum(Contributions(bmk))))
         == Ok(BrinsonRes([0.0, -0.015, -0.003], [0.001, 0.035, 0.004], Finite(0.0)))
      && Attribution(ptf, Finite(0.05), bmk, Finite(0.03))
         == Ok(BrinsonRes([0.0, -0.015, -0.003], [0.001, 0.035, 0.004], Finite(-0.002)))
  {
    var ptf := [PosInfo(0.1, 0.02), PosInfo(0.5, -0.08), PosInfo(0.4, 0.04)];
    var bmk := [PosInfo(0.1, 0.01), PosInfo(0.4, -0.15), PosInfo(0.5, 0.03)];
    assert Weights(ptf) == [0.1, 0.5, 0.4];
    assert Weights(bmk) == [0.1, 0.4, 0.5];
    assert Contributions(ptf) == [0.002, -0.04, 0.016];
    assert Contributions(bmk) == [0.001, -0.06, 0.015];
    assert [0.1, 0.5, 0.4][..2][..1][..0] == [];
    assert [0.1, 0.4, 0.5][..2][..1][..0] == [];
    assert [0.002, -0.04, 0.016][..2][..1][..0] == [];
    assert [0.001, -0.06, 0.015][..2][..1][..0] == [];
    assert Sum(Weights(ptf)) == 1.0 && Sum(Weights(bmk)) == 1.0;
    assert Sum(Contributions(ptf)) == -0.022 && Sum(Contributions(bmk)) == -0.044;
    assert Allocation(ptf, bmk) == [0.0, -0.015, -0.003];
    assert Selection(ptf, bmk) == [0.001, 0.035, 0.004];
  }
}
