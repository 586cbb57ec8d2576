/** The irradiation history of a CINDER run (cinderHistory): three parallel
    lists holding, for each period, the beam current, the length of the
    period and its time unit. History lines are parsed into the lists, and
    the lists are written out as blocks of periods that share a current. */
module History {
  import opened Common

  // ---------------------------------------------------------------------
  // Time units (pure lookups)

  /** The time-unit names both conversions accept. */
  const TimeNames: set<string> := {"s", "sec", "m", "min", "d", "day", "h", "hour", "y", "year"}

  /** One of the five unit letters. */
  predicate UnitLetter(u: char) { u == 's' || u == 'm' || u == 'd' || u == 'h' || u == 'y' }

  /** convertTimeUnit (cinderHistory.cxx:89-111): the unit letter of a time
      name, or InContainerError for any other name. */
  function ConvertTimeUnit(t: string): (r: Result<char>)
    ensures r.Ok? <==> t in TimeNames
    ensures r.Fail? ==> r.fault == InContainerError
    ensures r.Ok? ==> UnitLetter(r.value) && r.value == t[0]
  {
    if t == "s" || t == "sec" then Ok('s')
    else if t == "m" || t == "min" then Ok('m')
    else if t == "d" || t == "day" then Ok('d')
    else if t == "h" || t == "hour" then Ok('h')
    else if t == "y" || t == "year" then Ok('y')
    else Fail(InContainerError)
  }

  /** convertTime (cinderHistory.cxx:114-135): the number of seconds in one
      unit of a time name, or InContainerError for any other name. */
  function ConvertTime(t: string): (r: Result<real>)
    ensures r.Ok? <==> t in TimeNames
    ensures r.Fail? ==> r.fault == InContainerError
    ensures r.Ok? ==> r.value >= 1.0
  {
    if t == "s" || t == "sec" then Ok(1.0)
    else if t == "m" || t == "min" then Ok(60.0)
    else if t == "d" || t == "day" then Ok(24.0 * 3600.0)
    else if t == "h" || t == "hour" then Ok(3600.0)
    else if t == "y" || t == "year" then Ok(24.0 * 3600.0 * 365.25)
    else Fail(InContainerError)
  }

  /** The seconds in one unit named by its letter. */
  function Seconds(u: char): real
  {
    match u
    case 's' => 1.0
    case 'm' => 60.0
    case 'h' => 3600.0
    case 'd' => 86400.0
    case 'y' => 31557600.0
    case _ => 0.0
  }

  /** The two conversions accept the same names and agree: the seconds
      convertTime gives are those of the letter convertTimeUnit gives. */
  lemma ConversionsAgree(t: string)
    ensures ConvertTime(t).Ok? <==> ConvertTimeUnit(t).Ok?
    ensures ConvertTime(t).Ok? ==> ConvertTime(t).value == Seconds(ConvertTimeUnit(t).value)
  {
  }

  // ---------------------------------------------------------------------
  // addLine

  /** The three parallel lists. */
  datatype Lists = Lists(current: seq<real>, time: seq<real>, timeUnit: seq<char>)

  predicate Parallel(h: Lists) { |h.current| == |h.time| == |h.timeUnit| }

  /** The period loop of addLine (cinderHistory.cxx:153-163) over the tokens
      after the current `c`. Each pass reads a number into `l` if the next
      token is one (the read is discarded by the comma operator, so `l`
      keeps its old value otherwise), then takes the next token as the unit
      name; the loop ends when no token is left for the name. The current
      is pushed before the unit is converted, so a bad unit leaves one more
      current than times. Returns the lists and the fault if one was
      thrown. */
  function Periods(toks: seq<Tok>, c: real, l: real, h: Lists): (r: (Lists, Option<Fault>))
    decreases |toks|
  {
    var (l', rest) := if |toks| > 0 && toks[0].num.Some? then (toks[0].num.value, toks[1..]) else (l, toks);
    if rest == [] then (h, None)
    else
      var unit := ConvertTimeUnit(rest[0].text);
      if unit.Fail? then (h.(current := h.current + [c]), Some(unit.fault))
      else Periods(rest[1..], c, l', Lists(h.current + [c], h.time + [l'], h.timeUnit + [unit.value]))
  }

  /** addLine (cinderHistory.cxx:138-167): nothing happens unless the tag
      converts to an integer and the line starts with a number, the
      current. `l0` stands for the uninitialised time the first pass uses
      when no number precedes the first unit name. */
  function AddLineSpec(h: Lists, item: string, toks: seq<Tok>, l0: real): (r: (Lists, Option<Fault>))
  {
    if ParseInt(item).Some? && |toks| > 0 && toks[0].num.Some? then Periods(toks[1..], toks[0].num.value, l0, h)
    else (h, None)
  }

  /** addLine only appends: the old entries remain, every new current is the
      line's current, and the three lists grow together unless a unit name
      is rejected, which leaves exactly one current more. */
  lemma {:induction false} PeriodsAppend(toks: seq<Tok>, c: real, l: real, h: Lists)
    requires Parallel(h)
    ensures var (r, f) := Periods(toks, c, l, h);
      h.current <= r.current && h.time <= r.time && h.timeUnit <= r.timeUnit
      && (forall i :: |h.current| <= i < |r.current| ==> r.current[i] == c)
      && (f.None? ==> Parallel(r))
      && (f.Some? ==> |r.current| == |r.time| + 1 && |r.time| == |r.timeUnit| && f.value == InContainerError)
    decreases |toks|
  {
    var (l', rest) := if |toks| > 0 && toks[0].num.Some? then (toks[0].num.value, toks[1..]) else (l, toks);
    if rest != [] {
      var unit := ConvertTimeUnit(rest[0].text);
      if unit.Ok? {
        var h' := Lists(h.current + [c], h.time + [l'], h.timeUnit + [unit.value]);
        PeriodsAppend(rest[1..], c, l', h');
      }
    }
  }

  /** Every entry of `u` is one of the five unit letters. */
  predicate AllLetters(u: seq<char>)
  {
    forall i :: 0 <= i < |u| ==> UnitLetter(u[i])
  }

  /** Every unit letter recorded is one of the five. */
  lemma {:induction false} PeriodsUnits(toks: seq<Tok>, c: real, l: real, h: Lists)
    requires AllLetters(h.timeUnit)
    ensures AllLetters(Periods(toks, c, l, h).0.timeUnit)
    decreases |toks|
  {
    var (l', rest) := if |toks| > 0 && toks[0].num.Some? then (toks[0].num.value, toks[1..]) else (l, toks);
    if rest != [] {
      var unit := ConvertTimeUnit(rest[0].text);
      if unit.Ok? {
        var u' := h.timeUnit + [unit.value];
        forall i | 0 <= i < |u'|
          ensures UnitLetter(u'[i])
        {
          if i < |h.timeUnit| {
            assert u'[i] == h.timeUnit[i];
          } else {
            assert u'[i] == unit.value;
          }
        }
        PeriodsUnits(rest[1..], c, l', Lists(h.current + [c], h.time + [l'], u'));
      }
    }
  }

  /** A line whose tag is not an integer, or whose first token is not a
      number, changes nothing. */
  lemma NoCurrent(h: Lists, item: string, toks: seq<Tok>, l0: real)
    requires ParseInt(item).None? || |toks| == 0 || toks[0].num.None?
    ensures AddLineSpec(h, item, toks, l0) == (h, None)
  {
  }

  // ---------------------------------------------------------------------
  // The grouping loop of write

  /** The tolerance within which two currents count as equal. */
  const Tolerance: real := 0.000001

  function Abs(x: real): real { if x < 0.0 then -x else x }

  /** Within tolerance of `c`. */
  predicate Near(c: real, x: real) { Abs(c - x) < Tolerance }

  /** One block of the written history: the number of periods, their
      current, and each period's time and unit. */
  datatype Block = Block(count: nat, current: real, periods: seq<(real, char)>)

  /** The end of the run starting at `beg`: the first index from `index`
      on whose current is not within tolerance of the current at `beg`. */
  function RunEnd(current: seq<real>, beg: nat, index: nat): (r: nat)
    requires beg < |current| && index <= |current|
    ensures index <= r <= |current|
    ensures r < |current| ==> !Near(current[beg], current[r])
    decreases |current| - index
  {
    if index < |current| && Near(current[beg], current[index]) then RunEnd(current, beg, index + 1) else index
  }

  /** Index `k` is within both the times and the units. */
  predicate Within(time: seq<real>, unit: seq<char>, k: nat)
  {
    k <= |time| && k <= |unit|
  }

  /** Every current from `index` up to the end of the run is within
      tolerance of the first. */
  lemma {:induction false} RunEndNear(current: seq<real>, beg: nat, index: nat)
    requires beg < |current| && index <= |current|
    ensures forall j :: index <= j < RunEnd(current, beg, index) ==> Near(current[beg], current[j])
    decreases |current| - index
  {
    if index < |current| && Near(current[beg], current[index]) {
      RunEndNear(current, beg, index + 1);
    }
  }

  /** The periods from `i` to `j` as (time, unit) pairs. */
  function Slice(time: seq<real>, unit: seq<char>, i: nat, j: nat): (r: seq<(real, char)>)
    requires i <= j && Within(time, unit, j)
    ensures |r| == j - i
    decreases j - i
  {
    if i == j then [] else [(time[i], unit[i])] + Slice(time, unit, i + 1, j)
  }

  /** Every current has a time and a unit beside it. */
  predicate Covers(current: seq<real>, time: seq<real>, unit: seq<char>)
  {
    |current| <= |time| && |current| <= |unit|
  }

  /** The blocks write emits from index `beg` on (cinderHistory.cxx:176-202):
      each block is the maximal run of currents within tolerance of its
      first one. */
  function Blocks(current: seq<real>, time: seq<real>, unit: seq<char>, beg: nat): seq<Block>
    requires beg <= |current| && Covers(current, time, unit)
    decreases |current| - beg
  {
    if beg == |current| then []
    else
      var e := RunEnd(current, beg, beg);
      [Block(e - beg, current[beg], Slice(time, unit, beg, e))] + Blocks(current, time, unit, e)
  }

  lemma BlocksStep(current: seq<real>, time: seq<real>, unit: seq<char>, beg: nat)
    requires beg < |current| && Covers(current, time, unit)
    ensures var e := RunEnd(current, beg, beg);
      Blocks(current, time, unit, beg)
        == [Block(e - beg, current[beg], Slice(time, unit, beg, e))] + Blocks(current, time, unit, e)
  {
  }

  function TotalCount(bs: seq<Block>): nat
  {
    if bs == [] then 0 else bs[0].count + TotalCount(bs[1..])
  }

  function AllPeriods(bs: seq<Block>): seq<(real, char)>
  {
    if bs == [] then [] else bs[0].periods + AllPeriods(bs[1..])
  }

  /** The blocks account for every current exactly once, and emit every
      period exactly once and in order. */
  lemma {:induction false} BlocksCover(current: seq<real>, time: seq<real>, unit: seq<char>, beg: nat)
    requires beg <= |current| && Covers(current, time, unit)
    ensures TotalCount(Blocks(current, time, unit, beg)) == |current| - beg
    ensures AllPeriods(Blocks(current, time, unit, beg)) == Slice(time, unit, beg, |current|)
    decreases |current| - beg
  {
    if beg < |current| {
      var e := RunEnd(current, beg, beg);
      var bs := Blocks(current, time, unit, beg);
      BlocksCover(current, time, unit, e);
      SliceJoin(time, unit, beg, e, |current|);
      assert bs[1..] == Blocks(current, time, unit, e);
    }
  }

  /** The `k`-th pair of a slice is the period at `i + k`. */
  lemma {:induction false} SliceAt(time: seq<real>, unit: seq<char>, i: nat, j: nat)
    requires i <= j && Within(time, unit, j)
    ensures forall k :: 0 <= k < j - i ==> Slice(time, unit, i, j)[k] == (time[i + k], unit[i + k])
    decreases j - i
  {
    if i < j {
      SliceAt(time, unit, i + 1, j);
      var r := Slice(time, unit, i, j);
      forall k | 0 <= k < j - i
        ensures r[k] == (time[i + k], unit[i + k])
      {
        if k > 0 {
          assert r[k] == Slice(time, unit, i + 1, j)[k - 1];
        }
      }
    }
  }

  lemma SliceJoin(time: seq<real>, unit: seq<char>, i: nat, j: nat, k: nat)
    requires i <= j <= k && Within(time, unit, k)
    ensures Slice(time, unit, i, j) + Slice(time, unit, j, k) == Slice(time, unit, i, k)
  {
    var a, b, c := Slice(time, unit, i, j), Slice(time, unit, j, k), Slice(time, unit, i, k);
    SliceAt(time, unit, i, j);
    SliceAt(time, unit, j, k);
    SliceAt(time, unit, i, k);
    assert |a + b| == |c|;
    forall n | 0 <= n < |c|
      ensures (a + b)[n] == c[n]
    {
      if n < |a| {
        assert (a + b)[n] == a[n];
      } else {
        assert (a + b)[n] == b[n - |a|];
      }
    }
  }

  /** Every block holds at least one period (RunEndNear and BlocksStep
      state the tolerance facts). */
  lemma {:induction false} BlocksRuns(current: seq<real>, time: seq<real>, unit: seq<char>, beg: nat)
    requires beg <= |current| && Covers(current, time, unit)
    ensures var bs := Blocks(current, time, unit, beg);
      forall b :: b in bs ==> b.count > 0
    decreases |current| - beg
  {
    if beg < |current| {
      var e := RunEnd(current, beg, beg);
      BlocksRuns(current, time, unit, e);
      assert Near(current[beg], current[beg]);
    }
  }

  /** The inner loop of write: the end of the run starting at `beg`. */
  method ScanRun(current: seq<real>, beg: nat) returns (index: nat)
    requires beg < |current|
    ensures index == RunEnd(current, beg, beg)
  {
    var c := current[beg];
    index := beg;
    while index < |current| && Abs(c - current[index]) < Tolerance
      invariant beg <= index <= |current|
      invariant RunEnd(current, beg, beg) == RunEnd(current, beg, index)
      decreases |current| - index
    {
      index := index + 1;
    }
  }

  /** The period lines of one block, in order. */
  method CopyPeriods(time: seq<real>, unit: seq<char>, i: nat, k: nat) returns (periods: seq<(real, char)>)
    requires i <= k && Within(time, unit, k)
    ensures periods == Slice(time, unit, i, k)
  {
    periods := [];
    var j := i;
    while j < k
      invariant i <= j <= k
      invariant periods == Slice(time, unit, i, j)
    {
      SliceJoin(time, unit, i, j, j + 1);
      periods := periods + [(time[j], unit[j])];
      j := j + 1;
    }
  }

  /** The grouping loop of write (cinderHistory.cxx:176-202). */
  method GroupBlocks(current: seq<real>, time: seq<real>, unit: seq<char>) returns (bs: seq<Block>)
    requires Covers(current, time, unit)
    ensures bs == Blocks(current, time, unit, 0)
  {
    bs := [];
    var index := 0;
    while index < |current|
      invariant index <= |current|
      invariant Blocks(current, time, unit, 0) == bs + Blocks(current, time, unit, index)
      decreases |current| - index
    {
      var begIndex := index;
      index := ScanRun(current, begIndex);
      assert Within(time, unit, index);
      var periods := CopyPeriods(time, unit, begIndex, index);
      var b := Block(index - begIndex, current[begIndex], periods);
      BlocksStep(current, time, unit, begIndex);
      assert bs + ([b] + Blocks(current, time, unit, index)) == (bs + [b]) + Blocks(current, time, unit, index);
      bs := bs + [b];
    }
  }

  /** The history object. */
  class CinderHistory {
    var current: seq<real>
    var time: seq<real>
    var timeUnit: seq<char>

    function Value(): Lists
      reads this
    {
      Lists(current, time, timeUnit)
    }

    /** The constructor (cinderHistory.cxx:50-54). */
    constructor ()
      ensures Value() == Lists([], [], [])
    {
      current, time, timeUnit := [], [], [];
    }

    /** The assignment operator (cinderHistory.cxx:65-79). */
    method Assign(a: CinderHistory)
      modifies this
      ensures Value() == old(a.Value())
    {
      if a != this {
        current, time, timeUnit := a.current, a.time, a.timeUnit;
      }
    }

    /** addLine (cinderHistory.cxx:138-167); `l0` is the value of the
        uninitialised time variable. */
    method AddLine(item: string, toks: seq<Tok>, l0: real) returns (fault: Option<Fault>)
      modifies this
      ensures (Value(), fault) == AddLineSpec(old(Value()), item, toks, l0)
    {
      if !(ParseInt(item).Some? && |toks| > 0 && toks[0].num.Some?) {
        return None;
      }
      var c := toks[0].num.value;
      var line := toks[1..];
      var l := l0;
      while true
        invariant Periods(toks[1..], c, l0, old(Value())) == Periods(line, c, l, Value())
        decreases |line|
      {
        if |line| > 0 && line[0].num.Some? {
          l := line[0].num.value;
          line := line[1..];
        }
        if line == [] {
          return None;
        }
        var timeType := line[0].text;
        line := line[1..];
        current := current + [c];
        var unit := ConvertTimeUnit(timeType);
        if unit.Fail? {
          return Some(unit.fault);
        }
        time := time + [l];
        timeUnit := timeUnit + [unit.value];
      }
    }

    /** write (cinderHistory.cxx:172-203): the blocks written, in order. */
    method Write() returns (bs: seq<Block>)
      requires Covers(current, time, timeUnit)
      ensures bs == Blocks(current, time, timeUnit, 0)
    {
      bs := GroupBlocks(current, time, timeUnit);
    }
  }
}
