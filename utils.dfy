/** utils.py: the arity-aware `calculate` dispatcher and `validate_operands`.

    `calculate` builds two tables of bound `Calculator` methods, a unary one
    (square_root, absolute, factorial) and a binary one (the six operations of
    calculator.py plus percentage and floor_divide), and then routes the name:
    unary names first, applied to `a` alone; binary names only when `b` is not
    None; anything else is unknown. calculator.py defines none of square_root,
    absolute, factorial, percentage or floor_divide, so building the tables
    already fails. `CalculateAsWritten` reproduces that; `Calculate` is the
    dispatch once the tables resolve, with the behaviour of the methods
    calculator.py does not define left as a parameter. */
module Utils {
  import opened PyValues
  import Calculator

  /** Every name that appears in either table. */
  datatype OpName =
    | SquareRoot | Absolute | Factorial
    | Add | Subtract | Multiply | Divide | Power | Modulo | Percentage | FloorDivide

  function Name(op: OpName): string {
    match op
    case SquareRoot => "square_root"
    case Absolute => "absolute"
    case Factorial => "factorial"
    case Add => "add"
    case Subtract => "subtract"
    case Multiply => "multiply"
    case Divide => "divide"
    case Power => "power"
    case Modulo => "modulo"
    case Percentage => "percentage"
    case FloorDivide => "floor_divide"
  }

  /** The keys of `single_ops`, in the order the dictionary lists them. */
  const SingleOps: seq<OpName> := [SquareRoot, Absolute, Factorial]

  /** The keys of `binary_ops`, in the order the dictionary lists them. */
  const BinaryOps: seq<OpName> :=
    [OpName.Add, OpName.Subtract, OpName.Multiply, OpName.Divide,
     OpName.Power, OpName.Modulo, Percentage, FloorDivide]

  /** No name sits in both tables, every name sits in one of them, and no two
      names share a key: the order of the two membership tests cannot change
      the route a name takes. */
  lemma TablesPartitionNames()
    ensures forall op :: op in SingleOps <==> op !in BinaryOps
    ensures forall p, q :: Name(p) == Name(q) ==> p == q
  {
    forall op ensures op in SingleOps <==> op !in BinaryOps {
      match op
      case SquareRoot =>
      case Absolute =>
      case Factorial =>
      case _ => assert op in BinaryOps;
    }
  }

  /** Dictionary membership: the entry of `table` whose key is `name`. */
  function Find(table: seq<OpName>, name: string): (r: Option<OpName>)
    ensures r.Some? ==> r.value in table && Name(r.value) == name
    ensures r.None? ==> forall op :: op in table ==> Name(op) != name
  {
    if table == [] then None
    else if Name(table[0]) == name then Some(table[0])
    else Find(table[1..], name)
  }

  /** Which branch of `calculate` a name takes. */
  datatype Route = Unary(op: OpName) | Binary(op: OpName) | UnknownOp

  /** The decision rule: the unary table is consulted first, then the binary
      table; a name in neither is unknown. */
  function RouteOf(operation: string): (r: Route)
    ensures r.Unary? ==> r.op in SingleOps && Name(r.op) == operation
    ensures r.Binary? ==> r.op in BinaryOps && Name(r.op) == operation
    ensures (forall op :: op in SingleOps ==> Name(op) != operation) <==> !r.Unary?
    ensures r.UnknownOp? <==> forall op :: Name(op) != operation
  {
    match Find(SingleOps, operation)
    case Some(op) => Unary(op)
    case None =>
      match Find(BinaryOps, operation)
      case Some(op) => Binary(op)
      case None => UnknownOp
  }

  /** The call `calculate` makes once it has routed the name. */
  datatype Call = CallUnary(op: OpName, a: int) | CallBinary(op: OpName, a: int, b: int)

  /** The routing of utils.py's `calculate(operation, a, b=None)`, with `None`
      written `Option.None`. A unary name is called with `a` alone whatever `b`
      is; a binary name needs `b` (zero counts as given, the test is `b is
      None`); an unknown name raises. */
  function Dispatch(operation: string, a: int, b: Option<int> := None): (r: Result<Call>)
    ensures forall op :: op in SingleOps && Name(op) == operation ==> r == Ok(CallUnary(op, a))
    ensures forall op :: op in BinaryOps && Name(op) == operation ==>
      r == if b.None? then Err(ValueError("Operation '" + operation + "' requires two operands"))
           else Ok(CallBinary(op, a, b.value))
    ensures (forall op :: Name(op) != operation) <==> r == Err(ValueError("Unknown operation: " + operation))
  {
    TablesPartitionNames();
    match RouteOf(operation)
    case Unary(op) => Ok(CallUnary(op, a))
    case Binary(op) =>
      assert ("Operation '" + operation)[0] != ("Unknown operation: " + operation)[0];
      if b.None? then Err(ValueError("Operation '" + operation + "' requires two operands"))
      else Ok(CallBinary(op, a, b.value))
    case UnknownOp => Err(ValueError("Unknown operation: " + operation))
  }

  /** A unary name ignores a supplied second operand. */
  lemma UnaryIgnoresSecondOperand(operation: string, a: int, b: Option<int>)
    requires RouteOf(operation).Unary?
    ensures Dispatch(operation, a, b) == Dispatch(operation, a, None)
    ensures Dispatch(operation, a, b).Ok? && Dispatch(operation, a, b).value.CallUnary?
  {
  }

  /** The method `calc.<name>` resolves to, if calculator.py defines it. */
  function Method(op: OpName): Option<Calculator.BinaryOp> {
    Calculator.Lookup(Name(op))
  }

  /** Each of calculator.py's six names is routed as binary, to the entry
      whose method is that name's operation. */
  lemma CalculatorNamesAreBinary(operation: string)
    ensures Calculator.Lookup(operation).Some? ==>
      RouteOf(operation).Binary? && Method(RouteOf(operation).op) == Calculator.Lookup(operation)
  {
    if Calculator.Lookup(operation).None? { return; }
    var m := Calculator.Lookup(operation).value;
    var op := match m
      case Add => OpName.Add
      case Subtract => OpName.Subtract
      case Multiply => OpName.Multiply
      case Divide => OpName.Divide
      case Power => OpName.Power
      case Modulo => OpName.Modulo;
    assert op in BinaryOps && Name(op) == operation;
    TablesPartitionNames();
    var r := RouteOf(operation);
    assert !r.UnknownOp?;
    assert r.op == op;
  }

  /** Performs a routed call: the methods calculator.py defines are applied as
      it defines them; the others behave as `undefined` says. */
  function Invoke(call: Call, undefined: Call -> Result<Num>): Result<Num> {
    match call
    case CallUnary(_, _) => undefined(call)
    case CallBinary(op, a, b) =>
      match Method(op)
      case Some(m) => Calculator.Apply(m, a, b)
      case None => undefined(call)
  }

  /** `calculate` once both tables resolve. For the six names calculator.py
      defines, with `b` given, it agrees with calculator.py's own `calculate`;
      unary names use `a` alone; a missing `b` and an unknown name raise
      ValueError before any operation runs. */
  function Calculate(operation: string, a: int, b: Option<int> := None, undefined: Call -> Result<Num>): (r: Result<Num>)
    ensures b.Some? && Calculator.Lookup(operation).Some? ==> r == Calculator.Calculate(operation, a, b.value)
    ensures forall op :: op in SingleOps && Name(op) == operation ==> r == undefined(CallUnary(op, a))
    ensures forall op :: op in BinaryOps && Name(op) == operation && b.None? ==>
      r == Err(ValueError("Operation '" + operation + "' requires two operands"))
    ensures forall op :: op in BinaryOps && Name(op) == operation && Method(op).None? && b.Some? ==>
      r == undefined(CallBinary(op, a, b.value))
    ensures (forall op :: Name(op) != operation) ==> r == Err(ValueError("Unknown operation: " + operation))
  {
    CalculatorNamesAreBinary(operation);
    match Dispatch(operation, a, b)
    case Err(e) => Err(e)
    case Ok(call) => Invoke(call, undefined)
  }

  /** `op` sits at index `i` of `table` and every entry before it resolves. */
  predicate FirstUnresolvedAt(table: seq<OpName>, i: int, op: OpName) {
    0 <= i < |table| && table[i] == op && forall j :: 0 <= j < i ==> Method(table[j]).Some?
  }

  /** The first entry of `table` that `Calculator` has no method for. */
  function MissingMethod(table: seq<OpName>): (r: Option<OpName>)
    ensures r.None? <==> forall op :: op in table ==> Method(op).Some?
    ensures r.Some? ==> Method(r.value).None? && exists i :: FirstUnresolvedAt(table, i, r.value)
  {
    if table == [] then None
    else if Method(table[0]).None? then
      assert FirstUnresolvedAt(table, 0, table[0]);
      Some(table[0])
    else
      var rest := MissingMethod(table[1..]);
      FirstUnresolvedShifts(table, rest);
      rest
  }

  /** A first unresolved entry of `table[1..]` is the first of `table` when
      `table[0]` resolves. */
  lemma FirstUnresolvedShifts(table: seq<OpName>, rest: Option<OpName>)
    requires table != [] && Method(table[0]).Some?
    requires rest.Some? ==> exists i :: FirstUnresolvedAt(table[1..], i, rest.value)
    ensures rest.Some? ==> exists i :: FirstUnresolvedAt(table, i, rest.value)
  {
    if rest.Some? {
      var i :| FirstUnresolvedAt(table[1..], i, rest.value);
      assert forall j :: 1 <= j < i + 1 ==> table[j] == table[1..][j - 1];
      assert FirstUnresolvedAt(table, i + 1, rest.value);
    }
  }

  /** utils.py's `calculate` as written: the two dictionary displays are
      evaluated entry by entry, and the first `calc.<name>` that `Calculator`
      lacks raises AttributeError before any routing happens. */
  function CalculateAsWritten(operation: string, a: int, b: Option<int> := None, undefined: Call -> Result<Num>): Result<Num> {
    match MissingMethod(SingleOps + BinaryOps)
    case Some(op) => Err(AttributeError("'Calculator' object has no attribute '" + Name(op) + "'"))
    case None => Calculate(operation, a, b, undefined)
  }

  /** With calculator.py as it stands, every call of utils.py's `calculate`
      raises AttributeError for `square_root`, including `calculate('add', 2, 3)`,
      which the corrected dispatch evaluates to 5. */
  lemma AsWrittenAlwaysRaises(operation: string, a: int, b: Option<int>, undefined: Call -> Result<Num>)
    ensures CalculateAsWritten(operation, a, b, undefined)
      == Err(AttributeError("'Calculator' object has no attribute 'square_root'"))
    ensures CalculateAsWritten("add", 2, Some(3), undefined).Err?
    ensures Calculate("add", 2, Some(3), undefined) == Ok(IntV(5))
  {
    var table := SingleOps + BinaryOps;
    assert table[0] == SquareRoot;
    assert "square_root"[0] == 's' && "subtract"[1] == 'u';
    assert Method(SquareRoot).None?;
    assert MissingMethod(table) == Some(SquareRoot);
    assert "'Calculator' object has no attribute '" + Name(SquareRoot) + "'"
      == "'Calculator' object has no attribute 'square_root'";
    assert Calculator.Lookup("add") == Some(Calculator.BinaryOp.Add);
  }

  /** The calculator tests' `multiply`, and a zero `b`, which counts as given
      and so reaches `divide`'s own check. */
  lemma BinaryExamples(undefined: Call -> Result<Num>)
    ensures Calculate("multiply", 4, Some(5), undefined) == Ok(IntV(20))
    ensures Calculate("divide", 7, Some(0), undefined) == Err(ValueError("Cannot divide by zero"))
  {
    var mul, div := Calculator.BinaryOp.Multiply, Calculator.BinaryOp.Divide;
    assert Calculator.Lookup("multiply") == Some(mul);
    assert Calculator.Calculate("multiply", 4, 5) == Calculator.Apply(mul, 4, 5);
    assert Calculator.Lookup("divide") == Some(div);
    assert Calculator.Calculate("divide", 7, 0) == Calculator.Apply(div, 7, 0);
  }

  /** A binary name without `b` raises; an unknown name raises. */
  lemma ErrorExamples(undefined: Call -> Result<Num>)
    ensures Calculate("add", 1, undefined := undefined) == Err(ValueError("Operation 'add' requires two operands"))
    ensures Calculate("unknown", 1, Some(2), undefined) == Err(ValueError("Unknown operation: unknown"))
  {
    assert OpName.Add in BinaryOps && Name(OpName.Add) == "add";
    assert "Operation '" + "add" + "' requires two operands" == "Operation 'add' requires two operands";
    forall op ensures Name(op) != "unknown" {
      assert |Name(op)| != |"unknown"|;
    }
    assert "Unknown operation: " + "unknown" == "Unknown operation: unknown";
  }

  /** `absolute` goes to the method calculator.py does not define, with `a`
      alone, whether or not `b` is given. */
  lemma UnaryExamples(undefined: Call -> Result<Num>)
    ensures Calculate("absolute", -5, undefined := undefined) == undefined(CallUnary(Absolute, -5))
    ensures Calculate("absolute", -5, Some(3), undefined) == undefined(CallUnary(Absolute, -5))
  {
    assert Absolute in SingleOps && Name(Absolute) == "absolute";
  }

  /** A Python value handed to `validate_operands`. A bool is an int in Python. */
  datatype PyValue = PyNone | PyBool(bval: bool) | PyInt(ival: int) | PyFloat(fval: real) | PyStr(sval: string)

  /** `isinstance(v, (int, float))`. */
  predicate IsNumber(v: PyValue) {
    v.PyBool? || v.PyInt? || v.PyFloat?
  }

  /** `validate_operands(a, b)`: True when `a` is a number and `b` is None or
      a number; otherwise TypeError naming the first offending operand. */
  function ValidateOperands(a: PyValue, b: PyValue := PyNone): (r: Result<bool>)
    ensures r == Ok(true) <==> IsNumber(a) && (b.PyNone? || IsNumber(b))
    ensures !IsNumber(a) ==> r == Err(TypeError("First operand must be a number"))
    ensures IsNumber(a) && !b.PyNone? && !IsNumber(b) ==> r == Err(TypeError("Second operand must be a number"))
  {
    if !IsNumber(a) then Err(TypeError("First operand must be a number"))
    else if !b.PyNone? && !IsNumber(b) then Err(TypeError("Second operand must be a number"))
    else Ok(true)
  }
}
