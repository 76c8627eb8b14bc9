/**
 * The arithmetic the simulator borrows from Python's `math` module and from
 * SciPy. `log`, `exp`, `sqrt` and the normal distribution function `norm` are
 * not computed here: they are values supplied by the caller, so every result
 * of the model holds for whichever functions the platform provides. What IS
 * modelled is where Python raises instead of returning a number.
 */
module PyMath {
  import opened Common

  /** The Python exceptions raised by the simulator and its helpers. */
  datatype PyError =
    | ZeroDivisionError          // float or int division by zero
    | MathDomainError            // math.sqrt of a negative, math.log of a non-positive number
    | IndexError                 // list index out of range
    | ValueError(reason: string) // numpy's argument checks and PriceTS's length check
    | ReError                    // re.error: a replacement template `re.sub` cannot expand

  /** The four library functions the pricing formulae use. */
  datatype Maths = Maths(log: real -> real, exp: real -> real, sqrt: real -> real, norm: real -> real)
  {
    /**
     * The facts about the real functions that some lemmas rely on; none of
     * the operations requires them.
     */
    ghost predicate Valid()
    {
      && (forall x: real :: x > 0.0 ==> sqrt(x) > 0.0)
      && (forall x: real :: exp(x) > 0.0)
      && exp(0.0) == 1.0
      && (forall x: real :: 0.0 <= norm(x) <= 1.0)
    }
  }

  /** Python's `a / b` on floats. */
  function Div(a: real, b: real): (r: Result<real, PyError>)
    ensures r.Err? <==> b == 0.0
    ensures r.Err? ==> r.error == ZeroDivisionError
    ensures r.Ok? ==> r.value * b == a
  {
    if b == 0.0 then Err(ZeroDivisionError) else Ok(a / b)
  }

  /**
   * A numpy `float64` as division can leave it: a number, an infinity of
   * either sign, or nan. numpy scalars do not raise on division by zero.
   */
  datatype NpFloat = Value(v: real) | PosInf | NegInf | NotANumber

  /**
   * `a / b` on numpy `float64` scalars: the quotient for a non-zero divisor;
   * for a zero divisor (taken as +0.0) an infinity with the dividend's sign,
   * or nan when the dividend is zero as well.
   */
  function NpDiv(a: real, b: real): (r: NpFloat)
    ensures r.Value? <==> b != 0.0
    ensures r.Value? ==> r.v * b == a
    ensures r == PosInf <==> b == 0.0 && a > 0.0
    ensures r == NegInf <==> b == 0.0 && a < 0.0
    ensures r == NotANumber <==> b == 0.0 && a == 0.0
  {
    if b != 0.0 then Value(a / b)
    else if a > 0.0 then PosInf
    else if a < 0.0 then NegInf
    else NotANumber
  }

  /** `x - b` for a finite `b`: infinities and nan are left as they are. */
  function NpSub(x: NpFloat, b: real): (r: NpFloat)
    ensures r.Value? <==> x.Value?
    ensures r.Value? ==> r.v + b == x.v
    ensures !x.Value? ==> r == x
  {
    if x.Value? then Value(x.v - b) else x
  }

  /** `math.sqrt(x)`: raises a domain error for a negative argument. */
  function Sqrt(m: Maths, x: real): (r: Result<real, PyError>)
    ensures r.Err? <==> x < 0.0
    ensures r.Err? ==> r.error == MathDomainError
    ensures r.Ok? ==> r.value == m.sqrt(x)
  {
    if x < 0.0 then Err(MathDomainError) else Ok(m.sqrt(x))
  }

  /** `math.log(x)`: raises a domain error for a non-positive argument. */
  function Log(m: Maths, x: real): (r: Result<real, PyError>)
    ensures r.Err? <==> x <= 0.0
    ensures r.Err? ==> r.error == MathDomainError
    ensures r.Ok? ==> r.value == m.log(x)
  {
    if x <= 0.0 then Err(MathDomainError) else Ok(m.log(x))
  }

  /** Python's `int(x)` on a float: truncation toward zero. */
  function Trunc(x: real): (r: int)
    ensures x >= 0.0 ==> 0 <= r && r as real <= x < r as real + 1.0
    ensures x < 0.0 ==> r <= 0 && r as real - 1.0 < x <= r as real
  {
    if x >= 0.0 then x.Floor else -((-x).Floor)
  }
}
