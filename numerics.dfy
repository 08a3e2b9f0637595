/** Values shared by every part of the canal design model: the run-time
    errors the Python code can raise, and the floating-point kernels
    (square root, real power) that the model keeps abstract. */
module Numerics {

  /** The exceptions the modelled code can raise: `ZeroDivisionError`
      (or, under jax, the non-finite value a division by zero produces),
      `IndexError` on a list, and `KeyError` on a dictionary. */
  datatype Fault = DivisionByZero | IndexError | KeyError

  /** A computation that either returns a value or raises a fault. */
  datatype Outcome<+T> = Ok(value: T) | Raise(fault: Fault)

  /** The math-library kernels the hydraulic formulas call: `sqrt` and
      `pow(x, e)` for `x ** e`. Their floating-point values are not modelled,
      so every caller takes them as parameters. */
  datatype Kernels = Kernels(sqrt: real -> real, pow: (real, real) -> real)

  /** The only fact about the square root the model ever relies on. */
  ghost predicate NonNegativeRoot(k: Kernels)
  {
    forall x :: k.sqrt(x) >= 0.0
  }

  /** `x / y` as Python evaluates it on floats. */
  function Divide(x: real, y: real): (r: Outcome<real>)
    ensures r.Raise? <==> y == 0.0
    ensures r.Ok? ==> r.value * y == x
  {
    if y == 0.0 then Raise(DivisionByZero) else Ok(x / y)
  }

  /** `max(0, x) ** 2`, the squared hinge of the penalty terms. */
  function HingeSquared(x: real): (h: real)
    ensures h >= 0.0
    ensures x > 0.0 ==> h == x * x
  {
    if 0.0 >= x then 0.0 else x * x
  }

  /** The squared hinge vanishes exactly where its argument is not positive. */
  lemma HingeSquaredZero(x: real)
    ensures HingeSquared(x) == 0.0 <==> x <= 0.0
  {
    if x > 0.0 {
      calc {
        HingeSquared(x);
        == x * x;
        > 0.0;
      }
    }
  }

  /** `x ** 2`. */
  function Square(x: real): real
  {
    x * x
  }

  /** A real square is non-negative and vanishes exactly at zero. */
  lemma SquareZero(x: real)
    ensures Square(x) >= 0.0
    ensures Square(x) == 0.0 <==> x == 0.0
  {
    if x > 0.0 {
      calc { Square(x); == x * x; > 0.0; }
    } else if x < 0.0 {
      calc { Square(x); == x * x; == (-x) * (-x); > 0.0; }
    }
  }
}
