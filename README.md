# Calculator core in Dafny

A model of a small Python calculator: the arithmetic operations of the
`Calculator` class and the six-name `calculate` dispatcher (calculator.py), the
arity-aware `calculate` dispatcher and `validate_operands` (utils.py), and the
bounded calculation history `CalculationHistory` in its full form
(calculator_history.py) and its smaller form (history.py).

Modules, one per source file plus one for shared Python semantics:

- `PyValues` (py_values.dfy): a Python number `Num = IntV(int) | FloatV(real)`,
  the exceptions raised (`ValueError`, `TypeError`, `ZeroDivisionError`,
  `AttributeError`, each with its message), `Result`/`Option`, Python's
  flooring `//` and `%` on ints (`PyFloorDiv`, `PyMod`; Dafny's own `/` and `%`
  are Euclidean), and the slice `s[-n:]` (`SliceFromEnd`).
- `Calculator` (calculator.dfy): `Add`, `Subtract`, `Multiply`, `Divide`,
  `Power`, `Modulo` as functions (the class has no state), and `Calculate`
  over the closed table of six names.
- `Utils` (utils.dfy): the unary/binary/unknown routing over a closed `OpName`
  enumeration, the missing-operand check, `calculate` as written (it always
  raises, see Findings) and as intended, and `validate_operands`.
- `CalculatorHistory` (calculator_history.dfy): the immutable `Entry`, the
  specification functions of `add` (`Appended`), of filtering (`Filter`,
  `Count`) and of the statistics (`Tally`, `MapTotal`), and the class
  `CalculationHistory` with a `seq<Entry>` field that `Add` and `Clear`
  reassign; `SearchByResult` and `GetStatistics` are loops proved against the
  specification functions.
- `History` (history.dfy): the smaller class of history.py, reusing `Entry` and
  `Appended`, with the scenarios of test_history.py as client methods.

Operands of the arithmetic are Python ints (Dafny `int`, unbounded like
Python's). The results Python gives as floats, true division and a negative
power, are exact reals tagged `FloatV`, so that the `isinstance(..., float)`
test of `search_by_result` can be stated. The history constructors require
`max_size >= 1`; with 0 the trim `[-0:]` keeps the whole list and the bound
fails (`CalculatorHistory.ZeroMaxSizeNeverTrims`).

Behaviours of the code that a reader might not expect, each modelled as the
code has it:

- `get_last(n)` is the slice `[-n:]`: `n == 0` returns the whole buffer and a
  negative `n` drops the first `-n` entries, rather than returning nothing.
- `search_by_result` uses the tolerance only when both the stored result and
  the query are floats; otherwise it compares with Python `==`, under which
  `5 == 5.0`. With tolerance `0.0001` a stored `5.00005` does match `5.0`.
- A unary name given a second operand ignores it.
- square_root, absolute, factorial, percentage and floor_divide are not
  methods of `Calculator`; their behaviour is a parameter of `Utils.Calculate`.

## Model

| member | source | states |
|---|---|---|
| PyValues.PyDivModSpec | calculator.py:35 | `a == b * (a // b) + a % b`, and the remainder lies in `[0, b)` for `b > 0` and in `(b, 0]` for `b < 0` (Python's `%` takes the divisor's sign) |
| PyValues.PyDivModUnique | calculator.py:35 | any `q, r` with `a == b*q + r` and `r` of the divisor's sign and smaller magnitude are exactly `a // b` and `a % b` |
| PyValues.PyFloorDivIsFloor | calculator.py:35 | `a // b` is the floor of the exact quotient `a / b` |
| PyValues.SliceFromEnd | calculator_history.py:31 | `s[-n:]`: the last `min(n, len)` elements for `n >= 1`, all of `s` for `n == 0`, `s` without its first `-n` elements for `n < 0` |
| Calculator.Add | calculator.py:9-11 | the int result differs from `a` by exactly `b` |
| Calculator.Subtract | calculator.py:13-15 | the int result plus `b` gives back `a` |
| Calculator.Multiply | calculator.py:17-19 | the int product is zero iff a factor is, positive iff the signs agree, and divides back to `a` by a nonzero `b` |
| Calculator.Divide | calculator.py:21-25 | a zero divisor, and only that, raises ValueError "Cannot divide by zero"; otherwise a float whose product with `b` is `a` |
| Calculator.PowAdd | calculator.py:27-29 | `a ** (m + n) == a ** m * a ** n` for the repeated-multiplication power |
| Calculator.PowerAsRepeatedMultiplication | calculator.py:27-29 | `power(a, 0) == 1` for every `a`, and one more factor multiplies the result by `a` |
| Calculator.Power | calculator.py:27-29 | a non-negative exponent gives the int product of `b` factors of `a`; a negative one gives the float reciprocal of `a ** -b`, or ZeroDivisionError when `a == 0` |
| Calculator.Modulo | calculator.py:31-35 | a zero divisor, and only that, raises ValueError "Cannot perform modulo with zero"; otherwise an int `r` with `a == b * (a // b) + r` and `r` of `b`'s sign and smaller magnitude |
| Calculator.Lookup | calculator.py:54-63 | a name is found exactly when it is one of the six keys, and it is found as the operation with that key |
| Calculator.Calculate | calculator.py:38-66 | a name outside the six raises ValueError "Unknown operation: <name>", and only such a name does; a known name returns its operation's result or error unchanged |
| Calculator.OperationExamples | test_calculator.py:17-63 | the values the unit tests expect: `add(-1,1) == 0`, `divide(5,2) == 2.5`, `power(2,-1) == 0.5`, `modulo(10,3) == 1`, and the two zero-divisor errors |
| Calculator.ModuloSignExamples | calculator.py:31-35 | Python's flooring `%` on negative operands (not covered by a test): `-7 % 2 == 1`, `7 % -2 == -1`, `-7 % -2 == -1` |
| Calculator.DemoExamples | main.py:17-37 | the calls of the demo script: `add(5,3) == 8` through `modulo(17,5) == 2`, `calculate('add',100,50) == 150`, `divide(10,0)` raises, `calculate('invalid',1,2)` raises "Unknown operation: invalid" |
| Utils.TablesPartitionNames | utils.py:25-40 | every name is in exactly one of the two tables and no two names share a key, so the order of the membership tests does not matter |
| Utils.Find | utils.py:42-44 | table membership: the entry found has the given key and is in the table; none found means no entry has that key |
| Utils.RouteOf | utils.py:42-49 | unary table first, then binary; a route is unknown iff no table entry has the name |
| Utils.Dispatch | utils.py:42-49 | a unary name calls with `a` alone; a binary name raises "Operation '<op>' requires two operands" when `b` is None and calls with `(a, b)` otherwise; a name in neither table, and only such a name, raises "Unknown operation: <op>" |
| Utils.UnaryIgnoresSecondOperand | utils.py:42-43 | for a unary name the outcome is the same whatever `b` is |
| Utils.CalculatorNamesAreBinary | utils.py:31-37 | each of calculator.py's six names is routed as binary to the entry whose method is that operation |
| Utils.Calculate | utils.py:8-49 | with `b` given, the six names calculator.py defines agree with calculator.py's `calculate`, and `percentage` and `floor_divide` are applied to `(a, b)`; unary names use `a` alone; missing `b` and unknown names raise ValueError before any operation runs |
| Utils.MissingMethod | utils.py:23-40 | the first table entry `Calculator` has no method for: it is unresolved and every entry before it resolves; none exactly when every entry resolves |
| Utils.AsWrittenAlwaysRaises | utils.py:25-29 | as written, every call raises AttributeError for `square_root`, including `calculate('add', 2, 3)`, which the corrected dispatch evaluates to 5 |
| Utils.BinaryExamples | utils.py:44-47 | the routing of two binary calls: `calculate('multiply', 4, 5) == 20` (the value test_calculator.py:133 expects), and `calculate('divide', 7, 0)` (no test has it) reaches divide and raises its error, since the test is `b is None` and a zero `b` counts as given |
| Utils.ErrorExamples | utils.py:44-49 | the two ValueError branches: `calculate('add', 1)` (no test has it) raises "Operation 'add' requires two operands"; `calculate('unknown', 1, 2)` raises "Unknown operation: unknown", as test_calculator.py:135-139 expects |
| Utils.UnaryExamples | test_calculator.py:145-147 | `calculate('absolute', -5)` calls `absolute(-5)`, and a supplied `b` changes nothing |
| Utils.ValidateOperands | utils.py:59-65 | True exactly when `a` is a number and `b` is None or a number; otherwise TypeError naming the first offending operand |
| CalculatorHistory.AddSpec | calculator_history.py:16-27 | with `max_size >= 1`, `add` keeps the length within `max_size`, ends with the new entry, leaves earlier entries as they were when there is room, and otherwise keeps the newest `max_size` entries in order, dropping exactly the oldest from a full buffer |
| CalculatorHistory.ZeroMaxSizeNeverTrims | calculator_history.py:26-27 | with `max_size == 0` the trim keeps the whole list, so `add` always grows it |
| CalculatorHistory.Filter | calculator_history.py:47 | the filtered list is no longer than the buffer and holds only buffer entries that pass the test |
| CalculatorHistory.FilterKeepsAll | calculator_history.py:47 | every buffer entry that passes the test is in the filtered list |
| CalculatorHistory.FilterIsSubsequence | calculator_history.py:47 | the filtered list keeps the buffer's order |
| CalculatorHistory.FilterByOperationCounts | calculator_history.py:47 | filtering by an operation keeps one entry per entry with that operation |
| CalculatorHistory.ExactUnlessBothFloat | calculator_history.py:62-66 | when the stored result or the query is an int, a match is exact equality of values |
| CalculatorHistory.SearchExamples | calculator_history.py:62-66 | with tolerance 0.0001, `5.00005` and `5.00001` match `5.0`, `5.0002` does not, int `5` matches `5.0` |
| CalculatorHistory.TallyCounts | calculator_history.py:84-90 | exactly the operations that occur get a counter, and each counter equals the number of entries with that operation |
| CalculatorHistory.TallyTotal | calculator_history.py:79-92 | the counters add up to the number of entries |
| CalculatorHistory.TallyExample | calculator_history.py:84-90 | counters for `[add, add, multiply]` are `{add: 2, multiply: 1}` |
| CalculatorHistory.CalculationHistory.constructor | calculator_history.py:11-14 | a new history is empty, keeps the given `max_size` (default 100), and satisfies the bound |
| CalculatorHistory.CalculationHistory.Add | calculator_history.py:16-27 | the new buffer is the old one with the entry appended and trimmed to `max_size`; the bound holds; the entry is last; one more entry when there was room, the oldest dropped when full |
| CalculatorHistory.CalculationHistory.GetLast | calculator_history.py:29-31 | the newest `min(n, len)` entries oldest first for `n >= 1` (default 1); the whole buffer for `n == 0`; the buffer without its first `-n` entries for `n < 0` |
| CalculatorHistory.CalculationHistory.GetAll | calculator_history.py:33-35 | an entry-by-entry copy of the buffer, as a value |
| CalculatorHistory.CalculationHistory.FilterByOperation | calculator_history.py:37-47 | exactly the entries with the operation, one per occurrence, in their original order |
| CalculatorHistory.CalculationHistory.SearchByResult | calculator_history.py:49-67 | the loop returns the filter of the buffer by the match test: exactly the matching entries, in order |
| CalculatorHistory.CalculationHistory.GetStatistics | calculator_history.py:69-92 | `total` is the length; exactly the occurring operations are counted, each by its number of entries; the counters sum to `total`; an empty buffer gives total 0 and no counters |
| CalculatorHistory.CalculationHistory.Clear | calculator_history.py:94-96 | the buffer becomes empty and the bound still holds |
| CalculatorHistory.CalculationHistory.ExportAsString | calculator_history.py:98-106 | the placeholder "No calculation history" exactly when the buffer is empty |
| CalculatorHistory.CalculationHistory.Len | calculator_history.py:117-119 | the number of entries, never more than `max_size` |
| CalculatorHistory.StatisticsExample | calculator_history.py:69-92 | statistics of `[add, add, multiply]` are total 3 with `{add: 2, multiply: 1}`; of an empty history total 0 with no counters |
| CalculatorHistory.GetAllReturnsCopy | calculator_history.py:33-35 | a list from `get_all` is unchanged by later `add` and `clear` |
| History.CalculationHistory.constructor | history.py:9-12 | a new history is empty, keeps the given `max_size` (default 100), and satisfies the bound |
| History.CalculationHistory.Add | history.py:14-25 | the new buffer is the old one with the entry appended and trimmed to `max_size`; the bound holds; the entry is last; one more entry when there was room, the oldest dropped when full |
| History.CalculationHistory.GetLast | history.py:27-29 | the newest `min(n, len)` entries oldest first for `n >= 1`; the whole buffer for `n == 0`; the buffer without its first `-n` entries for `n < 0` |
| History.CalculationHistory.Clear | history.py:31-33 | the buffer becomes empty whatever it held |
| History.CalculationHistory.Len | history.py:35-37 | the number of entries, never more than `max_size` |
| History.AddEntryExample | test_history.py:16-19 | one `add` to a new history gives length 1 |
| History.GetLastExample | test_history.py:21-26 | after `add` then `multiply`, `get_last(1)` is the single `multiply` entry |
| History.ClearExample | test_history.py:28-32 | `clear` after an `add` gives length 0 |
| History.MaxSizeExample | test_history.py:34-40 | with `max_size=2`, three adds leave length 2 holding the second and third entries in order |

## Findings

| source | as written | input that shows it | evidently intended | confidence | as-written member | corrected member |
|---|---|---|---|---|---|---|
| utils.py:25-40 | the tables read `calc.square_root`, `calc.absolute`, `calc.factorial`, `calc.percentage` and `calc.floor_divide`, none of which `Calculator` (calculator.py:6-35) defines, so building the first table raises AttributeError on every call | `calculate('add', 2, 3)` raises AttributeError instead of returning 5 (test_calculator.py:127-129) | the tables resolve and the name is routed: `calculate('add', 2, 3) == 5`, a missing `b` and an unknown name raise ValueError | high; not executed | Utils.AsWrittenAlwaysRaises | Utils.Calculate |

## Left out

- Float operands: the arithmetic is over Python ints. Float results (true division, a negative power, the tolerance test of `search_by_result`) are exact reals, not IEEE-754 doubles. So the model leaves out rounding, and also the limits of doubles in the two lines below.
- Calculator.Divide: Python raises OverflowError ("integer division result too large for a float") when the quotient exceeds the double range, as in `divide(10**400, 1)`, and a quotient below the double range underflows to `0.0`, as in `divide(1, 10**400)`, where the contract's `x * b == a` does not hold in Python; the model returns the exact quotient in both cases.
- Calculator.Power: for a negative exponent Python converts both operands to floats, so it raises OverflowError ("int too large to convert to float") when `a` or `b` is too large to convert, as in `power(10**400, -1)` and `power(2, -10**400)`; and a result below the double range underflows to `0.0`, as in `power(2, -1100)` and `power(10**200, -2)`, where the contract's `x * a ** -b == 1` does not hold in Python. The model returns the exact reciprocal in all these cases.
- Calculator.Power: only integer exponents exist in the model, so a fractional exponent, which needs a float operand, is not covered.
- Utils.Calculate: the behaviour of square_root, absolute, factorial, percentage and floor_divide is the parameter `undefined`, because calculator.py does not define those methods.
- Utils.ValidateOperands: the unused `operation` parameter is dropped; values other than None, bool, int, float and str are not represented, and any of them behaves like a str (non-numeric).
- `format_result` (utils.py:52-56): float rounding for display.
- CalculatorHistory.CalculationHistory.ExportAsString: for a non-empty buffer it returns `None` in place of the numbered report, which depends on Python's `str()` of numbers; `__repr__` is left out for the same reason.
- CalculatorHistory.CalculationHistory.GetStatistics: the counters are a Dafny `map`, so the insertion order of the Python dictionary's keys is not modelled.
- The constructors require `max_size >= 1`; Python accepts any value, and with 0 or less the bound does not hold.
- Aliasing: Python stores the caller's operand list in the entry and `get_all` makes a shallow copy; here entries and lists are immutable values.
- main.py: its printing is left out; the calls it makes are stated in Calculator.DemoExamples. config.py holds constants only and carries no logic.
