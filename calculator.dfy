/** The arithmetic operations of `Calculator` and the six-name `calculate`
    dispatcher of calculator.py. `Calculator` has no state, so each method is a
    function; operands are Python ints, and the results that Python gives as
    floats (true division, negative powers) are exact reals tagged `FloatV`. */
module Calculator {
  import opened PyValues

  /** `a + b`: the number whose difference from `a` is `b`. */
  function Add(a: int, b: int): (r: Num)
    ensures r.IntV? && r.i - a == b
  {
    IntV(a + b)
  }

  /** `a - b`: the number that `b` added back turns into `a`. */
  function Subtract(a: int, b: int): (r: Num)
    ensures r.IntV? && r.i + b == a
  {
    IntV(a - b)
  }

  /** A product divides back exactly by a nonzero factor. */
  lemma MulDivCancel(a: int, b: int)
    ensures b != 0 ==> (a * b) / b == a && (a * b) % b == 0
  {
    if b != 0 {
      var q, r := (a * b) / b, (a * b) % b;
      assert b * (q - a) == -r;
      MultipleMagnitude(b, q - a);
    }
  }

  /** `a * b`, exact. */
  function Multiply(a: int, b: int): (r: Num)
    ensures r.IntV? && (r.i == 0 <==> a == 0 || b == 0)
    ensures r.IntV? && (r.i > 0 <==> (a > 0 && b > 0) || (a < 0 && b < 0))
    ensures b != 0 ==> r.IntV? && r.i / b == a && r.i % b == 0
  {
    MulDivCancel(a, b);
    IntV(a * b)
  }

  /** `a / b` is true division: the float whose product with `b` is `a`.
      A zero divisor raises before anything is computed. */
  function Divide(a: int, b: int): (r: Result<Num>)
    ensures b == 0 <==> r == Err(ValueError("Cannot divide by zero"))
    ensures b != 0 ==> r.Ok? && r.value.FloatV? && r.value.x * b as real == a as real
  {
    if b == 0 then Err(ValueError("Cannot divide by zero"))
    else Ok(FloatV(a as real / b as real))
  }

  /** `n` factors of `a`. */
  function Pow(a: int, n: nat): int {
    if n == 0 then 1 else a * Pow(a, n - 1)
  }

  lemma {:induction false} PowAdd(a: int, m: nat, n: nat)
    ensures Pow(a, m + n) == Pow(a, m) * Pow(a, n)
  {
    if m > 0 {
      PowAdd(a, m - 1, n);
      assert Pow(a, m + n) == a * Pow(a, m - 1 + n);
    }
  }

  lemma {:induction false} PowNonZero(a: int, n: nat)
    requires a != 0
    ensures Pow(a, n) != 0
  {
    if n > 0 {
      PowNonZero(a, n - 1);
    }
  }

  /** `a ** b`. A non-negative exponent gives the int product of `b` factors
      of `a`; a negative one gives the float reciprocal of `a ** -b`, and for
      `a == 0` Python raises ZeroDivisionError. */
  function Power(a: int, b: int): (r: Result<Num>)
    ensures b >= 0 ==> r == Ok(IntV(Pow(a, b)))
    ensures b < 0 ==> (a == 0 <==> r.Err?)
    ensures b < 0 && a == 0 ==> r.error == ZeroDivisionError("0.0 cannot be raised to a negative power")
    ensures b < 0 && a != 0 ==> r.Ok? && r.value.FloatV? && r.value.x * Pow(a, -b) as real == 1.0
  {
    if b >= 0 then Ok(IntV(Pow(a, b)))
    else if a == 0 then Err(ZeroDivisionError("0.0 cannot be raised to a negative power"))
    else
      PowNonZero(a, -b);
      Ok(FloatV(1.0 / Pow(a, -b) as real))
  }

  /** `a % b` with Python's flooring semantics. A zero divisor raises before
      anything is computed; otherwise the remainder has the sign of `b`, is
      smaller than `b` in magnitude, and completes `a == b * (a // b) + r`. */
  function Modulo(a: int, b: int): (r: Result<Num>)
    ensures b == 0 <==> r == Err(ValueError("Cannot perform modulo with zero"))
    ensures b != 0 ==> r.Ok? && r.value.IntV? && a == b * PyFloorDiv(a, b) + r.value.i
    ensures b > 0 ==> r.Ok? && r.value.IntV? && 0 <= r.value.i < b
    ensures b < 0 ==> r.Ok? && r.value.IntV? && b < r.value.i <= 0
  {
    if b == 0 then Err(ValueError("Cannot perform modulo with zero"))
    else
      PyDivModSpec(a, b);
      Ok(IntV(PyMod(a, b)))
  }

  /** The six names of the `operations` table. */
  datatype BinaryOp = Add | Subtract | Multiply | Divide | Power | Modulo

  /** The table key of each operation. */
  function Name(op: BinaryOp): string {
    match op
    case Add => "add"
    case Subtract => "subtract"
    case Multiply => "multiply"
    case Divide => "divide"
    case Power => "power"
    case Modulo => "modulo"
  }

  /** Looks a name up in the `operations` table. */
  function Lookup(name: string): (r: Option<BinaryOp>)
    ensures r.Some? ==> Name(r.value) == name
    ensures forall op :: Name(op) == name ==> r == Some(op)
  {
    if name == "add" then Some(BinaryOp.Add)
    else if name == "subtract" then Some(BinaryOp.Subtract)
    else if name == "multiply" then Some(BinaryOp.Multiply)
    else if name == "divide" then Some(BinaryOp.Divide)
    else if name == "power" then Some(BinaryOp.Power)
    else if name == "modulo" then Some(BinaryOp.Modulo)
    else None
  }

  /** The bound method the table maps an operation to, applied to `(a, b)`. */
  function Apply(op: BinaryOp, a: int, b: int): Result<Num> {
    match op
    case Add => Ok(Add(a, b))
    case Subtract => Ok(Subtract(a, b))
    case Multiply => Ok(Multiply(a, b))
    case Divide => Divide(a, b)
    case Power => Power(a, b)
    case Modulo => Modulo(a, b)
  }

  /** calculator.py's `calculate`: an unknown name raises before any operation
      is called; a known name returns that operation's outcome unchanged. */
  function Calculate(operation: string, a: int, b: int): (r: Result<Num>)
    ensures (forall op :: Name(op) != operation) <==> r == Err(ValueError("Unknown operation: " + operation))
    ensures forall op :: Name(op) == operation ==> r == Apply(op, a, b)
  {
    match Lookup(operation)
    case None => Err(ValueError("Unknown operation: " + operation))
    case Some(op) => Apply(op, a, b)
  }

  /** `a ** 0 == 1` for every `a`, and each further factor multiplies by `a`. */
  lemma PowerAsRepeatedMultiplication(a: int, b: nat)
    ensures Power(a, 0) == Ok(IntV(1))
    ensures Power(a, b + 1).value.i == a * Power(a, b).value.i
  {
  }

  /** The values the calculator's unit tests expect. */
  lemma OperationExamples()
    ensures Add(2, 3) == IntV(5) && Add(-1, 1) == IntV(0) && Add(-1, -1) == IntV(-2)
    ensures Subtract(5, 3) == IntV(2) && Subtract(0, 5) == IntV(-5) && Subtract(-3, -3) == IntV(0)
    ensures Multiply(2, 3) == IntV(6) && Multiply(-2, 3) == IntV(-6) && Multiply(0, 5) == IntV(0)
    ensures Divide(6, 2) == Ok(FloatV(3.0)) && Divide(5, 2) == Ok(FloatV(2.5))
    ensures Divide(-6, 2) == Ok(FloatV(-3.0))
    ensures Divide(5, 0) == Err(ValueError("Cannot divide by zero"))
    ensures Power(2, 3) == Ok(IntV(8)) && Power(5, 0) == Ok(IntV(1)) && Power(2, -1) == Ok(FloatV(0.5))
    ensures Modulo(10, 3) == Ok(IntV(1)) && Modulo(15, 5) == Ok(IntV(0)) && Modulo(7, 4) == Ok(IntV(3))
    ensures Modulo(5, 0) == Err(ValueError("Cannot perform modulo with zero"))
  {
  }

  /** Python's `%` floors: a negative dividend with a positive divisor leaves a
      non-negative remainder, and a negative divisor a non-positive one. */
  lemma ModuloSignExamples()
    ensures Modulo(-7, 2) == Ok(IntV(1)) && Modulo(7, -2) == Ok(IntV(-1))
    ensures Modulo(-7, -2) == Ok(IntV(-1))
  {
  }

  /** The calls of the demo script and their outcomes. */
  lemma DemoExamples()
    ensures Add(5, 3) == IntV(8) && Subtract(10, 4) == IntV(6) && Multiply(6, 7) == IntV(42)
    ensures Divide(15, 3) == Ok(FloatV(5.0)) && Power(2, 8) == Ok(IntV(256)) && Modulo(17, 5) == Ok(IntV(2))
    ensures Calculate("add", 100, 50) == Ok(IntV(150)) && Calculate("multiply", 12, 12) == Ok(IntV(144))
    ensures Divide(10, 0) == Err(ValueError("Cannot divide by zero"))
    ensures Calculate("invalid", 1, 2) == Err(ValueError("Unknown operation: invalid"))
  {
    assert Lookup("invalid") == None;
    assert "Unknown operation: " + "invalid" == "Unknown operation: invalid";
  }
}
