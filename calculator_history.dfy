/** calculator_history.py: a bounded, insertion-ordered log of calculations
    with queries over it. The entry record and the specification functions
    here are shared with the smaller history.py. */
module CalculatorHistory {
  import opened PyValues

  /** One logged calculation; immutable once built. */
  datatype Entry = Entry(operation: string, operands: seq<Num>, result: Num)

  /** The `max_size` a history gets when none is given. */
  const DefaultMaxSize: int := 100

  /** The buffer `add` leaves: `entry` appended, then, if that overflows
      `maxSize`, the slice `[-maxSize:]`. */
  function Appended(history: seq<Entry>, entry: Entry, maxSize: int): seq<Entry> {
    var grown := history + [entry];
    if |grown| > maxSize then SliceFromEnd(grown, maxSize) else grown
  }

  /** With `maxSize >= 1`, `add` keeps the buffer within bound, ends it with the
      new entry, keeps earlier entries as they were when there is room, and
      otherwise keeps the newest `maxSize` entries in order, so that a full
      buffer loses exactly its oldest entry. */
  lemma AddSpec(history: seq<Entry>, entry: Entry, maxSize: int)
    requires maxSize >= 1
    ensures var r := Appended(history, entry, maxSize);
      && |r| <= maxSize
      && r != [] && r[|r| - 1] == entry
      && (|history| < maxSize ==> r == history + [entry])
      && (|history| >= maxSize ==> r == (history + [entry])[|history| + 1 - maxSize..])
      && (|history| == maxSize ==> r == history[1..] + [entry])
  {
  }

  /** With `maxSize == 0` the slice `[-0:]` is the whole list: `add` never
      trims and the buffer outgrows its bound. */
  lemma ZeroMaxSizeNeverTrims(history: seq<Entry>, entry: Entry)
    ensures Appended(history, entry, 0) == history + [entry]
    ensures |Appended(history, entry, 0)| > 0
  {
  }

  /** The entries of `history` that `keep` accepts, in their original order. */
  function Filter(history: seq<Entry>, keep: Entry -> bool): (r: seq<Entry>)
    ensures |r| <= |history|
    ensures forall e :: e in r ==> e in history && keep(e)
    decreases |history|
  {
    if history == [] then []
    else
      var last := history[|history| - 1];
      Filter(history[..|history| - 1], keep) + (if keep(last) then [last] else [])
  }

  /** Nothing `keep` accepts is dropped. */
  lemma {:induction false} FilterKeepsAll(history: seq<Entry>, keep: Entry -> bool)
    ensures forall e :: e in history && keep(e) ==> e in Filter(history, keep)
    decreases |history|
  {
    if history != [] {
      var init := history[..|history| - 1];
      FilterKeepsAll(init, keep);
      assert history == init + [history[|history| - 1]];
    }
  }

  /** `s` can be obtained from `t` by deleting elements. */
  predicate IsSubsequence(s: seq<Entry>, t: seq<Entry>)
    decreases |t|
  {
    if s == [] then true
    else if t == [] then false
    else
      (s[|s| - 1] == t[|t| - 1] && IsSubsequence(s[..|s| - 1], t[..|t| - 1]))
      || IsSubsequence(s, t[..|t| - 1])
  }

  /** A filter keeps the relative order of the entries it keeps. */
  lemma {:induction false} FilterIsSubsequence(history: seq<Entry>, keep: Entry -> bool)
    ensures IsSubsequence(Filter(history, keep), history)
    decreases |history|
  {
    if history != [] {
      var init := history[..|history| - 1];
      FilterIsSubsequence(init, keep);
      var r := Filter(history, keep);
      if keep(history[|history| - 1]) {
        assert r[..|r| - 1] == Filter(init, keep);
      } else {
        assert r == Filter(init, keep);
      }
    }
  }

  /** How many entries of `history` have operation `op`. */
  function Count(history: seq<Entry>, op: string): nat
    decreases |history|
  {
    if history == [] then 0
    else Count(history[..|history| - 1], op) + (if history[|history| - 1].operation == op then 1 else 0)
  }

  /** The entry test of `filter_by_operation`. */
  function HasOperation(op: string): Entry -> bool {
    (e: Entry) => e.operation == op
  }

  /** Filtering by operation keeps one entry per occurrence of `op`. */
  lemma {:induction false} FilterByOperationCounts(history: seq<Entry>, op: string)
    ensures |Filter(history, HasOperation(op))| == Count(history, op)
    decreases |history|
  {
    if history != [] {
      FilterByOperationCounts(history[..|history| - 1], op);
    }
  }

  /** The match test of `search_by_result`: within `tolerance` when both the
      stored result and the query are floats, Python `==` otherwise (so an int
      and a float of the same value match). */
  predicate ResultMatches(stored: Num, query: Num, tolerance: real) {
    if stored.FloatV? && query.FloatV? then Abs(stored.x - query.x) <= tolerance
    else NumEq(stored, query)
  }

  function MatchesQuery(query: Num, tolerance: real): Entry -> bool {
    (e: Entry) => ResultMatches(e.result, query, tolerance)
  }

  /** When either side is an int the match is exact equality of values. */
  lemma ExactUnlessBothFloat(stored: Num, query: Num, tolerance: real)
    requires stored.IntV? || query.IntV?
    ensures ResultMatches(stored, query, tolerance) <==> stored.ToReal() == query.ToReal()
  {
  }

  /** With the default tolerance `0.0001`, a stored `5.00005` and a stored
      `5.00001` both match the query `5.0`; `5.0002` does not; an int `5` matches
      `5.0` exactly. */
  lemma SearchExamples()
    ensures ResultMatches(FloatV(5.00005), FloatV(5.0), 0.0001)
    ensures ResultMatches(FloatV(5.00001), FloatV(5.0), 0.0001)
    ensures !ResultMatches(FloatV(5.0002), FloatV(5.0), 0.0001)
    ensures ResultMatches(IntV(5), FloatV(5.0), 0.0001)
    ensures !ResultMatches(IntV(5), IntV(6), 0.0001)
  {
  }

  /** The per-operation counters `get_statistics` builds: entries are visited
      in order, a new operation gets counter 0, then its counter goes up. */
  function Tally(history: seq<Entry>): map<string, nat>
    decreases |history|
  {
    if history == [] then map[]
    else
      var counts := Tally(history[..|history| - 1]);
      var op := history[|history| - 1].operation;
      counts[op := (if op in counts then counts[op] else 0) + 1]
  }

  /** One more entry raises its operation's counter by one, starting from 0. */
  lemma TallyStep(history: seq<Entry>, i: int)
    requires 0 <= i < |history|
    ensures var counts, op := Tally(history[..i]), history[i].operation;
      Tally(history[..i + 1]) == counts[op := (if op in counts then counts[op] else 0) + 1]
  {
    assert history[..i + 1][..i] == history[..i];
  }

  /** Each counter is the number of entries with that operation, and exactly
      the operations that occur have a counter. */
  lemma {:induction false} TallyCounts(history: seq<Entry>)
    ensures forall op :: op in Tally(history) <==> Count(history, op) > 0
    ensures forall op :: op in Tally(history) ==> Tally(history)[op] == Count(history, op)
    decreases |history|
  {
    if history != [] {
      TallyCounts(history[..|history| - 1]);
    }
  }

  /** An arbitrary key of a non-empty map. */
  ghost function SomeKey(m: map<string, nat>): (k: string)
    requires |m| > 0
    ensures k in m
  {
    var k :| k in m; k
  }

  /** The sum of the counters of a map. */
  ghost function MapTotal(m: map<string, nat>): nat
    decreases |m|
  {
    if |m| == 0 then 0
    else
      var k := SomeKey(m);
      assert |m.Keys - {k}| == |m.Keys| - 1;
      m[k] + MapTotal(m - {k})
  }

  /** The sum does not depend on which key is taken out first. */
  lemma {:induction false} MapTotalRemove(m: map<string, nat>, k: string)
    requires k in m
    ensures MapTotal(m) == m[k] + MapTotal(m - {k})
    decreases |m|
  {
    var j := SomeKey(m);
    if j != k {
      var mj, mk := m - {j}, m - {k};
      assert |mj.Keys| == |m.Keys| - 1 && |mk.Keys| == |m.Keys| - 1;
      assert k in mj && mj[k] == m[k] && j in mk && mk[j] == m[j];
      MapTotalRemove(mj, k);
      MapTotalRemove(mk, j);
      assert mj - {k} == mk - {j};
    }
  }

  /** Raising one counter by one raises the sum by one. */
  lemma MapTotalIncrement(m: map<string, nat>, k: string)
    ensures MapTotal(m[k := (if k in m then m[k] else 0) + 1]) == MapTotal(m) + 1
  {
    var m' := m[k := (if k in m then m[k] else 0) + 1];
    MapTotalRemove(m', k);
    assert m' - {k} == m - {k};
    if k in m {
      MapTotalRemove(m, k);
    } else {
      assert m - {k} == m;
    }
  }

  /** The counters of `get_statistics` add up to its `total`. */
  lemma {:induction false} TallyTotal(history: seq<Entry>)
    ensures MapTotal(Tally(history)) == |history|
    decreases |history|
  {
    if history != [] {
      TallyTotal(history[..|history| - 1]);
      MapTotalIncrement(Tally(history[..|history| - 1]), history[|history| - 1].operation);
    }
  }

  /** What `get_statistics` returns: `{'total': ..., 'operations': {...}}`. */
  datatype Statistics = Statistics(total: nat, operations: map<string, nat>)

  class CalculationHistory {
    /** `_history`, oldest entry first. */
    var history: seq<Entry>
    /** `_max_size`; never reassigned after construction. */
    const maxSize: int

    /** The buffer never holds more than `maxSize` entries. */
    ghost predicate Valid()
      reads this
    {
      1 <= maxSize && |history| <= maxSize
    }

    /** `__init__(max_size=100)`: an empty history. `maxSize >= 1` is required
        because with 0 the trim `[-0:]` never shrinks the list. */
    constructor (maxSize: int := DefaultMaxSize)
      requires maxSize >= 1
      ensures Valid()
      ensures history == [] && this.maxSize == maxSize
    {
      history := [];
      this.maxSize := maxSize;
    }

    /** `add`: appends the entry, then trims to the newest `maxSize` entries. */
    method Add(operation: string, operands: seq<Num>, result: Num)
      requires Valid()
      modifies this
      ensures Valid()
      ensures history == Appended(old(history), Entry(operation, operands, result), maxSize)
      ensures |history| > 0 && history[|history| - 1] == Entry(operation, operands, result)
      ensures |old(history)| < maxSize ==> history == old(history) + [Entry(operation, operands, result)]
      ensures |old(history)| == maxSize ==> history == old(history)[1..] + [Entry(operation, operands, result)]
    {
      var entry := Entry(operation, operands, result);
      history := history + [entry];
      if |history| > maxSize {
        history := SliceFromEnd(history, maxSize);
      }
      AddSpec(old(history), entry, maxSize);
    }

    /** `get_last(n=1)`, the slice `[-n:]`: for `n >= 1` the newest `n` entries
        (all of them when fewer), oldest first; for `n == 0` the whole buffer;
        for `n < 0` the buffer without its first `-n` entries. */
    function GetLast(n: int := 1): (r: seq<Entry>)
      reads this
      ensures n >= 1 ==> |r| == (if n < |history| then n else |history|)
      ensures n >= 1 ==> r == history[|history| - |r|..]
      ensures n == 0 ==> r == history
      ensures n < 0 ==> r == history[(if -n < |history| then -n else |history|)..]
    {
      SliceFromEnd(history, n)
    }

    /** `get_all`: a copy of the buffer. A `seq` is a value, so later changes to
        the buffer and to the copy do not reach each other. */
    function GetAll(): (r: seq<Entry>)
      reads this
      ensures |r| == |history| && forall i :: 0 <= i < |r| ==> r[i] == history[i]
    {
      history
    }

    /** `filter_by_operation(op)`: exactly the entries with operation `op`, in
        their original order, one per occurrence. */
    function FilterByOperation(op: string): (r: seq<Entry>)
      reads this
      ensures forall e :: e in r <==> e in history && e.operation == op
      ensures |r| == Count(history, op)
      ensures IsSubsequence(r, history)
    {
      FilterKeepsAll(history, HasOperation(op));
      FilterByOperationCounts(history, op);
      FilterIsSubsequence(history, HasOperation(op));
      Filter(history, HasOperation(op))
    }

    /** `search_by_result(result, tolerance=0.0001)`: the entries whose result
        matches the query, in their original order. */
    method SearchByResult(result: Num, tolerance: real := 0.0001) returns (matches: seq<Entry>)
      ensures matches == Filter(history, MatchesQuery(result, tolerance))
      ensures forall e :: e in matches <==> e in history && ResultMatches(e.result, result, tolerance)
      ensures IsSubsequence(matches, history)
    {
      matches := [];
      var i := 0;
      while i < |history|
        invariant 0 <= i <= |history|
        invariant matches == Filter(history[..i], MatchesQuery(result, tolerance))
      {
        var entry := history[i];
        assert history[..i + 1][..i] == history[..i];
        if entry.result.FloatV? && result.FloatV? {
          if Abs(entry.result.x - result.x) <= tolerance {
            matches := matches + [entry];
          }
        } else if NumEq(entry.result, result) {
          matches := matches + [entry];
        }
        i := i + 1;
      }
      assert history[..i] == history;
      FilterKeepsAll(history, MatchesQuery(result, tolerance));
      FilterIsSubsequence(history, MatchesQuery(result, tolerance));
    }

    /** `get_statistics`: the number of entries and, per operation that occurs,
        how many entries have it; the counters add up to the total. */
    method GetStatistics() returns (stats: Statistics)
      ensures stats.total == |history|
      ensures stats.operations == Tally(history)
      ensures forall op :: op in stats.operations <==> Count(history, op) > 0
      ensures forall op :: op in stats.operations ==> stats.operations[op] == Count(history, op)
      ensures MapTotal(stats.operations) == stats.total
    {
      if history == [] {
        return Statistics(0, map[]);
      }
      var operations: map<string, nat> := map[];
      var i := 0;
      while i < |history|
        invariant 0 <= i <= |history|
        invariant operations == Tally(history[..i])
      {
        var op := history[i].operation;
        TallyStep(history, i);
        if op !in operations {
          operations := operations[op := 0];
        }
        operations := operations[op := operations[op] + 1];
        i := i + 1;
      }
      assert history[..i] == history;
      stats := Statistics(|history|, operations);
      TallyCounts(history);
      TallyTotal(history);
    }

    /** `clear`: the buffer becomes empty; the bound is kept. */
    method Clear()
      requires Valid()
      modifies this
      ensures Valid()
      ensures history == []
    {
      history := [];
    }

    /** `export_as_string` on an empty buffer returns the placeholder text.
        The numbered report for a non-empty buffer is not modelled: `None`
        stands for it. */
    function ExportAsString(): (r: Option<string>)
      reads this
      ensures r.Some? <==> history == []
      ensures r.Some? ==> r.value == "No calculation history"
    {
      if history == [] then Some("No calculation history") else None
    }

    /** `__len__`: the number of entries, never more than `maxSize`. */
    function Len(): (n: nat)
      reads this
      requires Valid()
      ensures n == |history| && n <= maxSize
    {
      |history|
    }
  }

  /** `get_statistics` on `[add, add, multiply]` gives total 3 with `add`
      counted twice and `multiply` once; an empty history gives total 0 and no
      counters. */
  method StatisticsExample() returns (stats: Statistics, empty: Statistics)
    ensures stats == Statistics(3, map["add" := 2, "multiply" := 1])
    ensures empty == Statistics(0, map[])
  {
    var e1 := Entry("add", [IntV(2), IntV(3)], IntV(5));
    var e2 := Entry("add", [IntV(1), IntV(1)], IntV(2));
    var e3 := Entry("multiply", [IntV(4), IntV(5)], IntV(20));
    var h := new CalculationHistory();
    empty := h.GetStatistics();
    h.Add(e1.operation, e1.operands, e1.result);
    h.Add(e2.operation, e2.operands, e2.result);
    h.Add(e3.operation, e3.operands, e3.result);
    assert h.history == [e1, e2, e3];
    stats := h.GetStatistics();
    TallyExample(e1, e2, e3);
  }

  /** The counters for two `add` entries and one `multiply` entry. */
  lemma TallyExample(e1: Entry, e2: Entry, e3: Entry)
    requires e1.operation == "add" && e2.operation == "add" && e3.operation == "multiply"
    ensures Tally([e1, e2, e3]) == map["add" := 2, "multiply" := 1]
  {
    assert [e1, e2, e3][..2] == [e1, e2] && [e1, e2][..1] == [e1];
    assert Tally([e1]) == map["add" := 1];
    assert Tally([e1, e2]) == map["add" := 2];
    assert "add" != "multiply";
  }

  /** A copy from `get_all` is unaffected by later additions and by `clear`. */
  method GetAllReturnsCopy() returns (copy: seq<Entry>, after: seq<Entry>)
    ensures copy == [Entry("add", [IntV(2), IntV(3)], IntV(5))]
    ensures after == []
  {
    var h := new CalculationHistory();
    h.Add("add", [IntV(2), IntV(3)], IntV(5));
    copy := h.GetAll();
    h.Add("multiply", [IntV(4), IntV(5)], IntV(20));
    h.Clear();
    after := h.GetAll();
  }
}
