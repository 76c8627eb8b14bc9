/**
 * The simulator's ledger: ten parallel columns, one row appended per step,
 * and the statistic read off the last row at the end of a run.
 */
module AccountBooks {
  import opened Common
  import opened PyMath

  /** One row of the ledger, field for field as `add` receives it. */
  datatype Row = Row(t: real, q: real, cash: real, assetP: real, mv: real,
                     delta: real, callP: real, callQty: real, callCash: real, callMv: real)

  /**
   * `mv_stat`: the replicating and the benchmark value at the end, and their
   * gaps. The ledger's values are numpy `float64` scalars in every run, so
   * the relative gap is a numpy quotient, which may be infinite or nan.
   */
  datatype MvSummary = MvSummary(mv: real, callMv: real, absDiff: real, relDiff: NpFloat)

  /**
   * The statistic of a ledger, read from its last row only. An empty ledger
   * raises IndexError (`mv[-1]`); a zero benchmark value raises nothing but
   * makes the relative gap infinite, or nan when the replica is zero as well.
   */
  function TerminalStat(rows: seq<Row>): (r: Result<MvSummary, PyError>)
    ensures r.Err? <==> rows == []
    ensures r.Err? ==> r.error == IndexError
    ensures r.Ok? ==>
      var last := rows[|rows| - 1];
      && r.value.mv == last.mv && r.value.callMv == last.callMv
      && r.value.absDiff == r.value.mv - r.value.callMv
      && (r.value.relDiff.Value? <==> last.callMv != 0.0)
      && (r.value.relDiff.Value? ==> (r.value.relDiff.v + 1.0) * r.value.callMv == r.value.mv)
      && (last.callMv == 0.0 ==>
            r.value.relDiff == (if last.mv > 0.0 then PosInf else if last.mv < 0.0 then NegInf else NotANumber))
  {
    if rows == [] then Err(IndexError)
    else
      var last := rows[|rows| - 1];
      Ok(MvSummary(last.mv, last.callMv, last.mv - last.callMv, NpSub(NpDiv(last.mv, last.callMv), 1.0)))
  }

  /** Earlier rows never influence the statistic. */
  lemma TerminalStatReadsLastRow(rows: seq<Row>, last: Row)
    ensures TerminalStat(rows + [last]) == TerminalStat([last])
  {
    assert (rows + [last])[|rows + [last]| - 1] == last;
  }

  /** Ten equally long columns read as rows. */
  function Tabulate(t: seq<real>, q: seq<real>, c: seq<real>, p: seq<real>, v: seq<real>,
                    d: seq<real>, cp: seq<real>, cq: seq<real>, cc: seq<real>, cv: seq<real>): (r: seq<Row>)
    requires |q| == |t| && |c| == |t| && |p| == |t| && |v| == |t|
    requires |d| == |t| && |cp| == |t| && |cq| == |t| && |cc| == |t| && |cv| == |t|
    ensures |r| == |t|
  {
    seq(|t|, i requires 0 <= i < |t| => Row(t[i], q[i], c[i], p[i], v[i], d[i], cp[i], cq[i], cc[i], cv[i]))
  }

  /** Appending one value to each column appends one row. */
  lemma TabulateAppend(t: seq<real>, q: seq<real>, c: seq<real>, p: seq<real>, v: seq<real>,
                       d: seq<real>, cp: seq<real>, cq: seq<real>, cc: seq<real>, cv: seq<real>, row: Row)
    requires |q| == |t| && |c| == |t| && |p| == |t| && |v| == |t|
    requires |d| == |t| && |cp| == |t| && |cq| == |t| && |cc| == |t| && |cv| == |t|
    ensures Tabulate(t + [row.t], q + [row.q], c + [row.cash], p + [row.assetP], v + [row.mv],
                     d + [row.delta], cp + [row.callP], cq + [row.callQty], cc + [row.callCash], cv + [row.callMv])
            == Tabulate(t, q, c, p, v, d, cp, cq, cc, cv) + [row]
  {
    var longer := Tabulate(t + [row.t], q + [row.q], c + [row.cash], p + [row.assetP], v + [row.mv],
                           d + [row.delta], cp + [row.callP], cq + [row.callQty], cc + [row.callCash], cv + [row.callMv]);
    var shorter := Tabulate(t, q, c, p, v, d, cp, cq, cc, cv) + [row];
    forall i | 0 <= i < |longer| ensures longer[i] == shorter[i] {
      if i < |t| {
        assert (t + [row.t])[i] == t[i] && (q + [row.q])[i] == q[i] && (c + [row.cash])[i] == c[i];
      }
    }
  }

  class AccountBook {
    var timepoint: seq<real>
    var assetQty: seq<real>
    var assetPrice: seq<real>
    var cash: seq<real>
    var mv: seq<real>
    var callDelta: seq<real>
    var callPrice: seq<real>
    var callQty: seq<real>
    var callCash: seq<real>
    var callMv: seq<real>

    /** The ten columns always have the same length. */
    ghost predicate Valid()
      reads this
    {
      var n := |timepoint|;
      && |assetQty| == n && |assetPrice| == n && |cash| == n && |mv| == n
      && |callDelta| == n && |callPrice| == n && |callQty| == n && |callCash| == n && |callMv| == n
    }

    /** The ledger read row by row. */
    function Rows(): (r: seq<Row>)
      reads this
      requires Valid()
      ensures |r| == |timepoint|
    {
      Tabulate(timepoint, assetQty, cash, assetPrice, mv, callDelta, callPrice, callQty, callCash, callMv)
    }

    constructor ()
      ensures Valid() && Rows() == []
    {
      timepoint, assetQty, assetPrice, cash, mv := [], [], [], [], [];
      callDelta, callPrice, callQty, callCash, callMv := [], [], [], [], [];
    }

    /** Appends one value to each column; earlier rows are untouched. */
    method Add(t: real, q: real, cash: real, assetp: real, mv: real, delta: real,
               callp: real, callQty: real, callCash: real, callMv: real)
      requires Valid()
      modifies this
      ensures Valid()
      ensures Rows() == old(Rows()) + [Row(t, q, cash, assetp, mv, delta, callp, callQty, callCash, callMv)]
      ensures timepoint == old(timepoint) + [t] && assetQty == old(assetQty) + [q]
      ensures this.cash == old(this.cash) + [cash] && this.mv == old(this.mv) + [mv]
      ensures callDelta == old(callDelta) + [delta] && callPrice == old(callPrice) + [callp]
      ensures assetPrice == old(assetPrice) + [assetp] && this.callQty == old(this.callQty) + [callQty]
      ensures this.callCash == old(this.callCash) + [callCash] && this.callMv == old(this.callMv) + [callMv]
    {
      timepoint := timepoint + [t];
      assetQty := assetQty + [q];
      this.cash := this.cash + [cash];
      this.mv := this.mv + [mv];
      callDelta := callDelta + [delta];
      callPrice := callPrice + [callp];
      assetPrice := assetPrice + [assetp];
      this.callQty := this.callQty + [callQty];
      this.callCash := this.callCash + [callCash];
      this.callMv := this.callMv + [callMv];
      assert Rows() == old(Rows()) + [Row(t, q, cash, assetp, mv, delta, callp, callQty, callCash, callMv)] by {
        TabulateAppend(old(timepoint), old(assetQty), old(this.cash), old(assetPrice), old(this.mv),
                       old(callDelta), old(callPrice), old(this.callQty), old(this.callCash), old(this.callMv),
                       Row(t, q, cash, assetp, mv, delta, callp, callQty, callCash, callMv));
      }
    }

    function Len(): (n: nat)
      reads this
      requires Valid()
      ensures n == |Rows()|
    {
      |timepoint|
    }

    /** `mv_stat`, computed from the last entries of the `mv` and `call_mv` columns. */
    function MvStat(): (r: Result<MvSummary, PyError>)
      reads this
      requires Valid()
      ensures r == TerminalStat(Rows())
    {
      var n := Len();
      if n == 0 then Err(IndexError)
      else
        Ok(MvSummary(mv[n - 1], callMv[n - 1], mv[n - 1] - callMv[n - 1], NpSub(NpDiv(mv[n - 1], callMv[n - 1]), 1.0)))
    }
  }
}
