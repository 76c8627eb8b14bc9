/**
 * Reading a fund's valuation sheet: the reference date from a cell's text,
 * and the unit and accumulated net asset values from the sheet's first two
 * columns. Regular-expression searches on row labels are parameters
 * (predicates on the label); the two default patterns are given as
 * substring tests. Python's `float` on a cell is a parameter too.
 */
module NavReader {
  import opened Common
  import opened PyMath
  import opened Strings

  /** A calendar date, as `datetime.date` holds it. */
  datatype Date = Date(year: int, month: int, day: int)

  /** One sheet's result: reference date, unit value and accumulated unit value. */
  datatype Nav = Nav(refDate: Date, nav: real, navAcc: real)

  /** The exceptions `find_nav` raises. */
  datatype NavError =
    | FloatError(value: string)             // `float(value)` on a cell that is not a number
    | LookupError(candidates: seq<string>)  // the labels mentioning 净值 that the caller might have meant

  // ---------------------------------------------------------------- dates

  /** The value of one decimal digit. */
  function DigitValue(c: char): (n: nat)
    requires IsDigit(c)
    ensures n <= 9
  {
    c as int - '0' as int
  }

  /**
   * The date pattern starts at index `i` of `x`: four digits, `-` or 年,
   * two digits, `-` or 月, two digits. The trailing optional 日 never
   * changes whether or where the pattern matches.
   */
  predicate ShapeAt(x: string, i: int)
  {
    && 0 <= i && i + 10 <= |x|
    && IsDigit(x[i]) && IsDigit(x[i + 1]) && IsDigit(x[i + 2]) && IsDigit(x[i + 3])
    && (x[i + 4] == '-' || x[i + 4] == '年')
    && IsDigit(x[i + 5]) && IsDigit(x[i + 6])
    && (x[i + 7] == '-' || x[i + 7] == '月')
    && IsDigit(x[i + 8]) && IsDigit(x[i + 9])
  }

  /** The three numbers captured by the match at `i`. */
  function DateAt(x: string, i: int): (d: Date)
    requires ShapeAt(x, i)
    ensures 0 <= d.year <= 9999 && 0 <= d.month <= 99 && 0 <= d.day <= 99
  {
    Date(1000 * DigitValue(x[i]) + 100 * DigitValue(x[i + 1]) + 10 * DigitValue(x[i + 2]) + DigitValue(x[i + 3]),
         10 * DigitValue(x[i + 5]) + DigitValue(x[i + 6]),
         10 * DigitValue(x[i + 8]) + DigitValue(x[i + 9]))
  }

  predicate IsLeapYear(y: int)
  {
    (y % 4 == 0 && y % 100 != 0) || y % 400 == 0
  }

  function DaysInMonth(y: int, m: int): (n: int)
    requires 1 <= m <= 12
    ensures 28 <= n <= 31
    ensures n == 29 <==> m == 2 && IsLeapYear(y)
  {
    if m == 2 then (if IsLeapYear(y) then 29 else 28)
    else if m == 4 || m == 6 || m == 9 || m == 11 then 30
    else 31
  }

  /** What `datetime.strptime(_, "%Y-%m-%d")` accepts: a real calendar day of years 1 to 9999. */
  predicate ValidDate(d: Date)
  {
    1 <= d.year <= 9999 && 1 <= d.month <= 12 && 1 <= d.day <= DaysInMonth(d.year, d.month)
  }

  /** `re.search`: the leftmost index from `from` on where the date pattern matches. */
  function Leftmost(x: string, from: nat): (r: Option<nat>)
    ensures r.None? ==> forall j :: from <= j ==> !ShapeAt(x, j)
    ensures r.Some? ==> from <= r.value && ShapeAt(x, r.value)
                        && forall j :: from <= j < r.value ==> !ShapeAt(x, j)
    decreases |x| - from
  {
    if from + 10 > |x| then None
    else if ShapeAt(x, from) then Some(from)
    else Leftmost(x, from + 1)
  }

  /**
   * `parse_date`: nothing when the pattern occurs nowhere; otherwise its
   * leftmost occurrence converted to a date, and a `ValueError` when that
   * occurrence is not a calendar date (no later occurrence is tried).
   */
  function ParseDate(x: string): (r: Result<Option<Date>, PyError>)
    ensures r == Ok(None) <==> forall i :: 0 <= i <= |x| ==> !ShapeAt(x, i)
    ensures r.Ok? && r.value.Some? ==>
      exists i :: && 0 <= i <= |x| && ShapeAt(x, i) && r.value.value == DateAt(x, i)
                  && ValidDate(r.value.value) && forall j :: 0 <= j < i ==> !ShapeAt(x, j)
    ensures r.Err? ==>
      exists i :: && 0 <= i <= |x| && ShapeAt(x, i) && !ValidDate(DateAt(x, i))
                  && forall j :: 0 <= j < i ==> !ShapeAt(x, j)
  {
    match Leftmost(x, 0)
    case None => Ok(None)
    case Some(i) =>
      var d := DateAt(x, i);
      if ValidDate(d) then Ok(Some(d)) else Err(ValueError("not a calendar date"))
  }

  /** The dashed form is read as its date. */
  lemma ParseDateDashed()
    ensures ParseDate("2021-12-31") == Ok(Some(Date(2021, 12, 31)))
  {
    assert ShapeAt("2021-12-31", 0);
  }

  /** A leftmost match that names month 13 raises rather than being skipped. */
  lemma ParseDateBadMonth()
    ensures ParseDate("日期2021年13月01日 2021-12-31").Err?
  {
    var x := "日期2021年13月01日 2021-12-31";
    assert !ShapeAt(x, 0) && !ShapeAt(x, 1) && ShapeAt(x, 2);
  }

  // ---------------------------------------------------------------- values

  /** `(今日|基金)单位净值`, the default pattern for the unit value's label. */
  predicate DefaultIsNav(name: string)
  {
    Contains(name, "今日单位净值") || Contains(name, "基金单位净值")
  }

  /** `累计单位净值`, the default pattern for the accumulated unit value's label. */
  predicate DefaultIsAcc(name: string)
  {
    Contains(name, "累计单位净值")
  }

  /** The rows `zip` pairs up: no more than either column has. */
  function Rows(indexes: seq<string>, values: seq<string>): (n: nat)
    ensures n <= |indexes| && n <= |values|
    ensures n == |indexes| || n == |values|
  {
    if |indexes| <= |values| then |indexes| else |values|
  }

  /** The labels that mention 净值, in order: the candidates a `LookupError` lists. */
  function Candidates(indexes: seq<string>): (c: seq<string>)
    ensures forall k :: 0 <= k < |c| ==> Contains(c[k], "净值")
    ensures forall k :: 0 <= k < |indexes| && Contains(indexes[k], "净值") ==> indexes[k] in c
    ensures forall x :: x in c ==> x in indexes
  {
    if indexes == [] then []
    else (if Contains(indexes[0], "净值") then [indexes[0]] else []) + Candidates(indexes[1..])
  }

  /**
   * The candidates are collected label by label, in order: those of a
   * concatenation are those of its parts, and a single label is listed
   * exactly when it mentions 净值.
   */
  lemma {:induction false} CandidatesInOrder(a: seq<string>, b: seq<string>, name: string)
    ensures Candidates(a + b) == Candidates(a) + Candidates(b)
    ensures Candidates([name]) == if Contains(name, "净值") then [name] else []
  {
    if a == [] {
      assert a + b == b;
    } else {
      assert (a + b)[0] == a[0] && (a + b)[1..] == a[1..] + b;
      CandidatesInOrder(a[1..], b, name);
    }
    assert [name][1..] == [];
  }

  /** One variable's update at a row: parsed from the row's value when the label matches. */
  function Update(hit: bool, value: string, toFloat: string -> Option<real>, held: Option<real>)
    : (r: Result<Option<real>, NavError>)
  {
    if !hit then Ok(held)
    else if toFloat(value).None? then Err(FloatError(value))
    else Ok(Some(toFloat(value).value))
  }

  /**
   * `find_nav`'s loop from row `k` on, with the values found so far; it
   * returns as soon as both have been found.
   */
  function Scan(indexes: seq<string>, values: seq<string>, isNav: string -> bool, isAcc: string -> bool,
                toFloat: string -> Option<real>, k: nat, nav: Option<real>, acc: Option<real>)
    : Result<(real, real), NavError>
    decreases Rows(indexes, values) - k
  {
    if k >= Rows(indexes, values) then Err(LookupError(Candidates(indexes)))
    else
      var nav' :- Update(isNav(indexes[k]), values[k], toFloat, nav);
      var acc' :- Update(isAcc(indexes[k]), values[k], toFloat, acc);
      if nav'.Some? && acc'.Some? then Ok((nav'.value, acc'.value))
      else Scan(indexes, values, isNav, isAcc, toFloat, k + 1, nav', acc')
  }

  /** `find_nav(indexes, values, nms)`, with the two patterns as predicates. */
  method FindNav(indexes: seq<string>, values: seq<string>, isNav: string -> bool, isAcc: string -> bool,
                 toFloat: string -> Option<real>)
    returns (r: Result<(real, real), NavError>)
    ensures r == Scan(indexes, values, isNav, isAcc, toFloat, 0, None, None)
  {
    var nav: Option<real> := None;
    var acc: Option<real> := None;
    var k := 0;
    while k < |indexes| && k < |values|
      invariant k <= Rows(indexes, values)
      invariant Scan(indexes, values, isNav, isAcc, toFloat, 0, None, None)
             == Scan(indexes, values, isNav, isAcc, toFloat, k, nav, acc)
      decreases Rows(indexes, values) - k
    {
      var index, value := indexes[k], values[k];
      if isNav(index) {
        var f := toFloat(value);
        if f.None? {
          return Err(FloatError(value));
        }
        nav := Some(f.value);
      }
      if isAcc(index) {
        var f := toFloat(value);
        if f.None? {
          return Err(FloatError(value));
        }
        acc := Some(f.value);
      }
      if nav.Some? && acc.Some? {
        return Ok((nav.value, acc.value));
      }
      k := k + 1;
    }
    return Err(LookupError(Candidates(indexes)));
  }

  // ------------------------------------------------- what the scan finds

  /** The last of the first `k` rows whose label satisfies `p`. */
  function LastHit(p: string -> bool, indexes: seq<string>, k: nat): (r: Option<nat>)
    requires k <= |indexes|
    ensures r.None? ==> forall j :: 0 <= j < k ==> !p(indexes[j])
    ensures r.Some? ==> r.value < k && p(indexes[r.value])
                        && forall j :: r.value < j < k ==> !p(indexes[j])
  {
    if k == 0 then None
    else if p(indexes[k - 1]) then Some(k - 1)
    else LastHit(p, indexes, k - 1)
  }

  /** Both labels have matched among the first `k` rows. */
  predicate Seen(indexes: seq<string>, isNav: string -> bool, isAcc: string -> bool, k: nat)
    requires k <= |indexes|
  {
    LastHit(isNav, indexes, k).Some? && LastHit(isAcc, indexes, k).Some?
  }

  /** The value held for `p` after the first `k` rows: that of the most recent matching row. */
  function HeldAfter(indexes: seq<string>, values: seq<string>, p: string -> bool,
                     toFloat: string -> Option<real>, k: nat): Option<real>
    requires k <= Rows(indexes, values)
    requires forall j :: 0 <= j < k && p(indexes[j]) ==> toFloat(values[j]).Some?
  {
    match LastHit(p, indexes, k)
    case None => None
    case Some(j) => Some(toFloat(values[j]).value)
  }

  /** Having found at most one of the two, the loop goes on from row `k` with the most recent values. */
  lemma {:induction false} ScanAfter(indexes: seq<string>, values: seq<string>, isNav: string -> bool,
                                     isAcc: string -> bool, toFloat: string -> Option<real>, k: nat)
    requires k <= Rows(indexes, values) && !Seen(indexes, isNav, isAcc, k)
    requires forall j :: 0 <= j < k && (isNav(indexes[j]) || isAcc(indexes[j])) ==> toFloat(values[j]).Some?
    ensures Scan(indexes, values, isNav, isAcc, toFloat, 0, None, None)
         == Scan(indexes, values, isNav, isAcc, toFloat, k,
                 HeldAfter(indexes, values, isNav, toFloat, k), HeldAfter(indexes, values, isAcc, toFloat, k))
  {
    if k > 0 {
      ScanAfter(indexes, values, isNav, isAcc, toFloat, k - 1);
    }
  }

  /**
   * When every matching row's value parses up to the first row by which
   * both labels have matched, `find_nav` returns there, with the values of
   * the most recent row matching each label.
   */
  lemma FindNavReturns(indexes: seq<string>, values: seq<string>, isNav: string -> bool,
                       isAcc: string -> bool, toFloat: string -> Option<real>, k: nat)
    requires 0 < k <= Rows(indexes, values)
    requires Seen(indexes, isNav, isAcc, k) && !Seen(indexes, isNav, isAcc, k - 1)
    requires forall j :: 0 <= j < k && (isNav(indexes[j]) || isAcc(indexes[j])) ==> toFloat(values[j]).Some?
    ensures Scan(indexes, values, isNav, isAcc, toFloat, 0, None, None)
         == Ok((toFloat(values[LastHit(isNav, indexes, k).value]).value,
                toFloat(values[LastHit(isAcc, indexes, k).value]).value))
  {
    ScanAfter(indexes, values, isNav, isAcc, toFloat, k - 1);
  }

  /**
   * When the two labels never both match among the rows `zip` pairs up,
   * and the matching rows' values parse, `find_nav` raises a `LookupError`
   * listing every label mentioning 净值.
   */
  lemma FindNavMissing(indexes: seq<string>, values: seq<string>, isNav: string -> bool,
                       isAcc: string -> bool, toFloat: string -> Option<real>)
    requires !Seen(indexes, isNav, isAcc, Rows(indexes, values))
    requires forall j :: 0 <= j < Rows(indexes, values) && (isNav(indexes[j]) || isAcc(indexes[j])) ==>
      toFloat(values[j]).Some?
    ensures Scan(indexes, values, isNav, isAcc, toFloat, 0, None, None) == Err(LookupError(Candidates(indexes)))
  {
    ScanAfter(indexes, values, isNav, isAcc, toFloat, Rows(indexes, values));
  }

  /**
   * The first matching row whose value does not parse, met before both
   * labels have matched, makes `find_nav` raise on that value.
   */
  lemma FindNavBadValue(indexes: seq<string>, values: seq<string>, isNav: string -> bool,
                        isAcc: string -> bool, toFloat: string -> Option<real>, k: nat)
    requires k < Rows(indexes, values) && !Seen(indexes, isNav, isAcc, k)
    requires forall j :: 0 <= j < k && (isNav(indexes[j]) || isAcc(indexes[j])) ==> toFloat(values[j]).Some?
    requires (isNav(indexes[k]) || isAcc(indexes[k])) && toFloat(values[k]).None?
    ensures Scan(indexes, values, isNav, isAcc, toFloat, 0, None, None) == Err(FloatError(values[k]))
  {
    ScanAfter(indexes, values, isNav, isAcc, toFloat, k);
  }

  /** The unit test's unit-value label satisfies the first default pattern only. */
  lemma NavLabel()
    ensures DefaultIsNav("今日单位净值：") && !DefaultIsAcc("今日单位净值：")
  {
    var nav := "今日单位净值：";
    assert OccursAt(nav, "今日单位净值", 0);
    FirstCharAbsent(nav, "累计单位净值");
  }

  /** The unit test's accumulated-value label satisfies the second default pattern only. */
  lemma AccLabel()
    ensures !DefaultIsNav("累计单位净值：") && DefaultIsAcc("累计单位净值：") && Contains("累计单位净值：", "净值")
  {
    var acc := "累计单位净值：";
    assert OccursAt(acc, "累计单位净值", 0) && OccursAt(acc, "净值", 4);
    FirstCharAbsent(acc, "今日单位净值");
    FirstCharAbsent(acc, "基金单位净值");
  }

  /** The unit test's misnamed label satisfies neither default pattern but mentions 净值. */
  lemma OtherLabel()
    ensures !DefaultIsNav("当天单位净值：") && !DefaultIsAcc("当天单位净值：") && Contains("当天单位净值：", "净值")
  {
    var other := "当天单位净值：";
    assert OccursAt(other, "净值", 4);
    FirstCharAbsent(other, "今日单位净值");
    FirstCharAbsent(other, "基金单位净值");
    FirstCharAbsent(other, "累计单位净值");
  }

  /** The unit test's other labels satisfy no pattern. */
  lemma ShortLabels()
    ensures !DefaultIsNav("ABC") && !DefaultIsAcc("ABC") && !DefaultIsNav("ZZZ") && !DefaultIsAcc("ZZZ")
    ensures !Contains("ABC", "净值") && !Contains("ZZZ", "净值")
  {
    FirstCharAbsent("ABC", "净值");
    FirstCharAbsent("ZZZ", "净值");
  }

  /** The sheet of the unit test: the unit and accumulated values are read from their rows. */
  lemma FindNavReadsLabelledRows(toFloat: string -> Option<real>)
    requires toFloat("1.3") == Some(1.3) && toFloat("2.1") == Some(2.1)
    ensures Scan(["ABC", "今日单位净值：", "累计单位净值：", "ZZZ"], ["345", "1.3", "2.1", "YYY"],
                 DefaultIsNav, DefaultIsAcc, toFloat, 0, None, None) == Ok((1.3, 2.1))
  {
    NavLabel();
    AccLabel();
    OtherLabel();
    ShortLabels();
  }

  /** The unit test's sheet with an unknown unit-value label: the candidates named are the two 净值 rows. */
  lemma FindNavListsCandidates(toFloat: string -> Option<real>)
    requires toFloat("2.1") == Some(2.1)
    ensures Scan(["ABC", "当天单位净值：", "累计单位净值：", "ZZZ"], ["345", "1.3", "2.1", "YYY"],
                 DefaultIsNav, DefaultIsAcc, toFloat, 0, None, None)
         == Err(LookupError(["当天单位净值：", "累计单位净值："]))
  {
    var indexes := ["ABC", "当天单位净值：", "累计单位净值：", "ZZZ"];
    NavLabel();
    AccLabel();
    OtherLabel();
    ShortLabels();
    assert indexes[1..][1..][1..] == ["ZZZ"];
    assert Candidates(indexes) == ["当天单位净值：", "累计单位净值："];
  }
}
