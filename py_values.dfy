/** Python values and operator semantics shared by the calculator modules:
    numbers tagged int/float, the exceptions the calculator raises, Python's
    flooring `//` and `%` on ints, and the slice `s[-n:]`. */
module PyValues {

  /** A Python number: an unbounded `int`, or a `float` idealised as an exact real. */
  datatype Num = IntV(i: int) | FloatV(x: real) {
    /** The mathematical value of the number. */
    function ToReal(): real {
      match this
      case IntV(i) => i as real
      case FloatV(x) => x
    }
  }

  /** Python `==` between numbers compares values across types: `5 == 5.0`. */
  predicate NumEq(a: Num, b: Num) {
    a.ToReal() == b.ToReal()
  }

  /** The exceptions the calculator raises, each with its message. */
  datatype Error =
    | ValueError(msg: string)
    | TypeError(msg: string)
    | ZeroDivisionError(msg: string)
    | AttributeError(msg: string)

  datatype Result<T> = Ok(value: T) | Err(error: Error)

  datatype Option<T> = None | Some(value: T)

  function Abs(x: real): real {
    if x < 0.0 then -x else x
  }

  /** Python's `a // b` on ints: rounds the quotient towards negative infinity. */
  function PyFloorDiv(a: int, b: int): int
    requires b != 0
  {
    if b > 0 then a / b else (-a) / (-b)
  }

  /** Python's `a % b` on ints: the remainder takes the sign of the divisor. */
  function PyMod(a: int, b: int): int
    requires b != 0
  {
    a - b * PyFloorDiv(a, b)
  }

  /** `//` and `%` split `a` into a multiple of `b` and a remainder that lies
      between zero and `b` (on the side of `b`'s sign), strictly smaller than `b`
      in magnitude. */
  lemma PyDivModSpec(a: int, b: int)
    requires b != 0
    ensures a == b * PyFloorDiv(a, b) + PyMod(a, b)
    ensures b > 0 ==> 0 <= PyMod(a, b) < b
    ensures b < 0 ==> b < PyMod(a, b) <= 0
  {
  }

  /** A nonzero multiple of `b` is at least `b` in magnitude. */
  lemma MultipleMagnitude(b: int, k: int)
    ensures b > 0 && k > 0 ==> b * k >= b
    ensures b > 0 && k < 0 ==> b * k <= -b
    ensures b < 0 && k > 0 ==> b * k <= b
    ensures b < 0 && k < 0 ==> b * k >= -b
  {
  }

  /** The quotient and remainder of `//` and `%` are the only ones that satisfy
      the division identity with a remainder of the divisor's sign. */
  lemma PyDivModUnique(a: int, b: int, q: int, r: int)
    requires b != 0
    requires a == b * q + r
    requires b > 0 ==> 0 <= r < b
    requires b < 0 ==> b < r <= 0
    ensures q == PyFloorDiv(a, b) && r == PyMod(a, b)
  {
    PyDivModSpec(a, b);
    var q', r' := PyFloorDiv(a, b), PyMod(a, b);
    assert b * (q - q') == r' - r;
    MultipleMagnitude(b, q - q');
  }

  /** `a // b` is the floor of the exact quotient. */
  lemma PyFloorDivIsFloor(a: int, b: int)
    requires b != 0
    ensures PyFloorDiv(a, b) == (a as real / b as real).Floor
  {
    PyDivModSpec(a, b);
    var q, r := PyFloorDiv(a, b), PyMod(a, b);
    var x := a as real / b as real;
    assert a as real == b as real * q as real + r as real;
    assert x == q as real + r as real / b as real;
    assert 0.0 <= r as real / b as real < 1.0 by {
      if b > 0 {
        assert 0.0 <= r as real < b as real;
      } else {
        assert b as real < r as real <= 0.0;
      }
    }
  }

  /** Python's slice `s[-n:]` for any int `n`: with `n > 0` the last `n`
      elements (all of `s` when it is shorter); with `n == 0` the slice starts
      at index `-0 == 0`, the whole of `s`; with `n < 0` it starts at index
      `-n`, dropping the first `-n` elements. */
  function SliceFromEnd<T>(s: seq<T>, n: int): (r: seq<T>)
    ensures n > 0 ==> |r| == (if n < |s| then n else |s|) && r == s[|s| - |r|..]
    ensures n == 0 ==> r == s
    ensures n < 0 ==> r == s[(if -n < |s| then -n else |s|)..]
  {
    if n > 0 then
      if n >= |s| then s else s[|s| - n..]
    else if -n >= |s| then []
    else s[-n..]
  }
}
