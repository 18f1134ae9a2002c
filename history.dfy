/** history.py: the subset of the calculation history that the history tests
    use, with `add`, `get_last`, `clear` and `__len__`. Its entries and the
    meaning of `add` and `get_last` are those of calculator_history.py. */
module History {
  import opened PyValues
  import CalculatorHistory

  type Entry = CalculatorHistory.Entry

  class CalculationHistory {
    /** `_history`, oldest entry first. */
    var history: seq<Entry>
    /** `_max_size`; never reassigned after construction. */
    const maxSize: int

    /** The buffer never holds more than `maxSize` entries. */
    ghost predicate Valid()
      reads this
    {
      1 <= maxSize && |history| <= maxSize
    }

    /** `__init__(max_size=100)`: an empty history. `maxSize >= 1` is required
        because with 0 the trim `[-0:]` never shrinks the list. */
    constructor (maxSize: int := CalculatorHistory.DefaultMaxSize)
      requires maxSize >= 1
      ensures Valid()
      ensures history == [] && this.maxSize == maxSize
    {
      history := [];
      this.maxSize := maxSize;
    }

    /** `add`: appends the entry, then trims to the newest `maxSize` entries. */
    method Add(operation: string, operands: seq<Num>, result: Num)
      requires Valid()
      modifies this
      ensures Valid()
      ensures history == CalculatorHistory.Appended(old(history), CalculatorHistory.Entry(operation, operands, result), maxSize)
      ensures |history| > 0 && history[|history| - 1] == CalculatorHistory.Entry(operation, operands, result)
      ensures |old(history)| < maxSize ==> history == old(history) + [CalculatorHistory.Entry(operation, operands, result)]
      ensures |old(history)| == maxSize ==> history == old(history)[1..] + [CalculatorHistory.Entry(operation, operands, result)]
    {
      var entry := CalculatorHistory.Entry(operation, operands, result);
      history := history + [entry];
      if |history| > maxSize {
        history := SliceFromEnd(history, maxSize);
      }
      CalculatorHistory.AddSpec(old(history), entry, maxSize);
    }

    /** `get_last(n=1)`, the slice `[-n:]`: for `n >= 1` the newest `n` entries
        (all of them when fewer), oldest first; for `n == 0` the whole buffer;
        for `n < 0` the buffer without its first `-n` entries. */
    function GetLast(n: int := 1): (r: seq<Entry>)
      reads this
      ensures n >= 1 ==> |r| == (if n < |history| then n else |history|)
      ensures n >= 1 ==> r == history[|history| - |r|..]
      ensures n == 0 ==> r == history
      ensures n < 0 ==> r == history[(if -n < |history| then -n else |history|)..]
    {
      SliceFromEnd(history, n)
    }

    /** `clear`: the buffer becomes empty whatever it held; the bound is kept. */
    method Clear()
      requires Valid()
      modifies this
      ensures Valid()
      ensures history == []
    {
      history := [];
    }

    /** `__len__`: the number of entries, never more than `maxSize`. */
    function Len(): (n: nat)
      reads this
      requires Valid()
      ensures n == |history| && n <= maxSize
    {
      |history|
    }
  }

  /** One `add` to a fresh history gives length 1. */
  method AddEntryExample() returns (size: nat)
    ensures size == 1
  {
    var h := new CalculationHistory();
    h.Add("add", [IntV(2), IntV(3)], IntV(5));
    size := h.Len();
  }

  /** After adding `add` and then `multiply`, `get_last(1)` is the single
      `multiply` entry. */
  method GetLastExample() returns (last: seq<Entry>)
    ensures |last| == 1 && last[0].operation == "multiply"
    ensures last == [CalculatorHistory.Entry("multiply", [IntV(4), IntV(5)], IntV(20))]
  {
    var h := new CalculationHistory();
    h.Add("add", [IntV(2), IntV(3)], IntV(5));
    h.Add("multiply", [IntV(4), IntV(5)], IntV(20));
    last := h.GetLast(1);
  }

  /** `clear` after an `add` leaves length 0. */
  method ClearExample() returns (size: nat)
    ensures size == 0
  {
    var h := new CalculationHistory();
    h.Add("add", [IntV(2), IntV(3)], IntV(5));
    h.Clear();
    size := h.Len();
  }

  /** With `max_size=2`, three adds leave exactly the last two entries, in the
      order they were added. */
  method MaxSizeExample() returns (contents: seq<Entry>, size: nat)
    ensures size == 2
    ensures contents == [CalculatorHistory.Entry("add", [IntV(2), IntV(2)], IntV(4)),
                         CalculatorHistory.Entry("add", [IntV(3), IntV(3)], IntV(6))]
  {
    var h := new CalculationHistory(2);
    h.Add("add", [IntV(1), IntV(1)], IntV(2));
    h.Add("add", [IntV(2), IntV(2)], IntV(4));
    h.Add("add", [IntV(3), IntV(3)], IntV(6));
    size := h.Len();
    contents := h.GetLast(2);
  }
}
