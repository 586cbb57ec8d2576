/** The reader of the htape isotope tables (htapeProcess). Each table lists,
    cell by cell, the nuclides produced or destroyed; the process keeps one
    production ledger per cell and merges batches weighted by their sample
    counts. The input stream is a sequence of lines already classified by
    the patterns the source matches against them; a cell's ledger is held
    as a `Ledger` value. */
module Htape {
  import opened Common
  import opened Production

  /** A map from cell number to that cell's ledger (the source's CTYPE). */
  type CellMap = map<int, Ledger>

  /** What the `z = Z n = N f e` pattern captured, each capture converted
      (None where the conversion failed). */
  datatype ZaidMatch = NoZaid | ZaidRow(z: Option<int>, n: Option<int>, frac: Option<real>, errOk: bool)

  /** What the continuation pattern `n = N f e` captured. */
  datatype MidMatch = NoMid | MidRow(n: Option<int>, frac: Option<real>, errOk: bool)

  /** One line of an htape table as the source's searches see it:
      - `complete`: the line contains the word "complete";
      - `zaid`, `mid`: the two nuclide patterns;
      - `npsNum`, `caseNo`, `cellNo`: the number after "statistical degrees
        of freedom ... =", after "1 case no." and after "for cell:";
      - `hydrogen`, `helium`: the two gas-table heading rows;
      - `nums`: the numbers at the front of the line, read one by one until
        the first token that is not a number. */
  datatype HLine = HLine(
    complete: bool,
    zaid: ZaidMatch,
    mid: MidMatch,
    npsNum: Option<int>,
    caseNo: Option<int>,
    cellNo: Option<int>,
    hydrogen: bool,
    helium: bool,
    nums: seq<real>)

  /** A nuclide line's content once converted: atomic number, neutron
      number and fraction. */
  datatype Nuclide = Nuclide(z: int, n: int, frac: real)

  // ---------------------------------------------------------------------
  // findCellProd

  /** findCellProd (htapeProcess.cxx:424-432): the entry for `cellN`,
      created empty when missing. */
  function FindCellProdSpec(prod: CellMap, cellN: int): (r: CellMap)
    ensures cellN in r
    ensures cellN in prod ==> r == prod
    ensures cellN !in prod ==> r[cellN] == Empty
    ensures forall c :: c != cellN ==> (c in r <==> c in prod)
    ensures forall c :: c in prod ==> c in r && r[c] == prod[c]
  {
    if cellN in prod then prod else prod[cellN := Empty]
  }

  // ---------------------------------------------------------------------
  // readZaid

  /** The nuclide one line records, and the atomic number remembered after
      it. The `z` capture is stored before the other captures are
      converted, so it is remembered even when the line records nothing. */
  function LineNuclide(line: HLine, z: int): (r: (int, seq<Nuclide>))
    ensures |r.1| <= 1
  {
    match line.zaid
    case ZaidRow(zo, no, fo, e) =>
      var z' := if zo.Some? then zo.value else z;
      (z', if zo.Some? && no.Some? && fo.Some? && e then [Nuclide(z', no.value, fo.value)] else [])
    case NoZaid =>
      match line.mid
      case MidRow(no, fo, e) =>
        (z, if no.Some? && fo.Some? && e then [Nuclide(z, no.value, fo.value)] else [])
      case NoMid => (z, [])
  }

  /** The nuclides readZaid records from position `pos` on, with `z` the atomic
      number remembered so far, and the position after the last line it
      reads: the line holding "complete", or the end of the stream. */
  function ZaidScan(lines: seq<HLine>, pos: nat, z: int): (r: (seq<Nuclide>, nat))
    requires pos <= |lines|
    ensures pos <= r.1 <= |lines|
    decreases |lines| - pos
  {
    if pos == |lines| then ([], pos)
    else if lines[pos].complete then ([], pos + 1)
    else
      var (z', found) := LineNuclide(lines[pos], z);
      var rest := ZaidScan(lines, pos + 1, z');
      (found + rest.0, rest.1)
  }

  /** cellIndexProd applied to each recorded nuclide in turn, in the ground
      state; the first failure ends the run. */
  function ApplyAll(l: Ledger, prodType: nat, es: seq<Nuclide>): Result<Ledger>
    decreases |es|
  {
    if es == [] then Ok(l)
    else match CellIndexProdSpec(l, prodType, es[0].z, es[0].n, 0, es[0].frac)
      case Fail(f) => Fail(f)
      case Ok(l') => ApplyAll(l', prodType, es[1..])
  }

  /** readZaid (htapeProcess.cxx:156-206): reads lines from `pos0` and
      records every nuclide line into the ledger until a line holding
      "complete" or the end of the stream. */
  method ReadZaid(prodType: nat, l0: Ledger, lines: seq<HLine>, pos0: nat) returns (r: Result<Ledger>, pos: nat)
    requires pos0 <= |lines|
    ensures r == ApplyAll(l0, prodType, ZaidScan(lines, pos0, 0).0)
    ensures r.Ok? ==> pos == ZaidScan(lines, pos0, 0).1
  {
    var z := 0;
    var l := l0;
    pos := pos0;
    while pos < |lines|
      invariant pos0 <= pos <= |lines|
      invariant ZaidScan(lines, pos0, 0).1 == ZaidScan(lines, pos, z).1
      invariant ApplyAll(l0, prodType, ZaidScan(lines, pos0, 0).0) == ApplyAll(l, prodType, ZaidScan(lines, pos, z).0)
      decreases |lines| - pos
    {
      var line := lines[pos];
      if line.complete {
        return Ok(l), pos + 1;
      }
      var z', found := LineNuclide(line, z).0, LineNuclide(line, z).1;
      var rest := ZaidScan(lines, pos + 1, z').0;
      assert ZaidScan(lines, pos, z).0 == found + rest;
      if found != [] {
        var e := found[0];
        assert found == [e];
        ApplyCons(l, prodType, e, rest);
        match CellIndexProdSpec(l, prodType, e.z, e.n, 0, e.frac)
        case Fail(f) =>
          return Fail(f), pos + 1;
        case Ok(l') =>
          l := l';
      } else {
        assert found + rest == rest;
      }
      z := z';
      pos := pos + 1;
    }
    return Ok(l), pos;
  }

  lemma ApplyCons(l: Ledger, prodType: nat, e: Nuclide, rest: seq<Nuclide>)
    ensures var c := CellIndexProdSpec(l, prodType, e.z, e.n, 0, e.frac);
      ApplyAll(l, prodType, [e] + rest) == if c.Fail? then Fail(c.fault) else ApplyAll(c.value, prodType, rest)
  {
    var es := [e] + rest;
    assert es[0] == e && es[1..] == rest;
  }

  /** readZaid stops at the first line holding "complete": every line it
      reads before the last holds no "complete", and the last one does
      unless the stream ran out. */
  lemma {:induction false} ZaidScanStops(lines: seq<HLine>, pos: nat, z: int)
    requires pos <= |lines|
    ensures var next := ZaidScan(lines, pos, z).1;
      (forall i :: pos <= i < next - 1 ==> !lines[i].complete)
      && (next == |lines| || (pos < next && lines[next - 1].complete))
    decreases |lines| - pos
  {
    if pos < |lines| && !lines[pos].complete {
      ZaidScanStops(lines, pos + 1, LineNuclide(lines[pos], z).0);
    }
  }

  /** The atomic number in force at line `j` of a scan that started at
      `pos` with `z`: that of the last zaid line before `j` that captured
      one, or `z` when there is none. */
  function ZBefore(lines: seq<HLine>, pos: nat, j: nat, z: int): int
    requires pos <= j <= |lines|
    decreases j - pos
  {
    if j == pos then z
    else if lines[j - 1].zaid.ZaidRow? && lines[j - 1].zaid.z.Some? then lines[j - 1].zaid.z.value
    else ZBefore(lines, pos, j - 1, z)
  }

  /** The nuclides of lines `j` on, up to the first line holding
      "complete", each line read with the atomic number in force at it. */
  function RecordedFrom(lines: seq<HLine>, pos: nat, j: nat, z: int): seq<Nuclide>
    requires pos <= j <= |lines|
    decreases |lines| - j
  {
    if j == |lines| || lines[j].complete then []
    else LineNuclide(lines[j], ZBefore(lines, pos, j, z)).1 + RecordedFrom(lines, pos, j + 1, z)
  }

  lemma {:induction false} ZaidScanFrom(lines: seq<HLine>, pos: nat, j: nat, z: int)
    requires pos <= j <= |lines|
    ensures ZaidScan(lines, j, ZBefore(lines, pos, j, z)).0 == RecordedFrom(lines, pos, j, z)
    decreases |lines| - j
  {
    if j < |lines| && !lines[j].complete {
      assert LineNuclide(lines[j], ZBefore(lines, pos, j, z)).0 == ZBefore(lines, pos, j + 1, z);
      ZaidScanFrom(lines, pos, j + 1, z);
    }
  }

  /** readZaid records, line by line up to the first "complete", the
      nuclide of each line under the atomic number of the last `z =` line
      read before it (the initial one when there was none); a zaid line
      uses its own. */
  lemma ZaidScanRecords(lines: seq<HLine>, pos: nat, z: int)
    requires pos <= |lines|
    ensures ZaidScan(lines, pos, z).0 == RecordedFrom(lines, pos, pos, z)
  {
    ZaidScanFrom(lines, pos, pos, z);
  }

  /** An example of the scan: in the listing continuation, zaid line,
      continuation, complete, zaid line, the first continuation is recorded
      under z = 0, the second under the zaid line's 12, and the scan stops
      after the complete line, before the last zaid line. */
  lemma ZaidExample(f: real, g: real)
    ensures var zl := HLine(false, ZaidRow(Some(12), Some(12), Some(f), true), NoMid, None, None, None, false, false, []);
      var ml := HLine(false, NoZaid, MidRow(Some(13), Some(g), true), None, None, None, false, false, []);
      var cl := HLine(true, NoZaid, NoMid, None, None, None, false, false, []);
      ZaidScan([ml, zl, ml, cl, zl], 0, 0) == ([Nuclide(0, 13, g), Nuclide(12, 12, f), Nuclide(12, 13, g)], 4)
  {
    var zl := HLine(false, ZaidRow(Some(12), Some(12), Some(f), true), NoMid, None, None, None, false, false, []);
    var ml := HLine(false, NoZaid, MidRow(Some(13), Some(g), true), None, None, None, false, false, []);
    var cl := HLine(true, NoZaid, NoMid, None, None, None, false, false, []);
    var ls := [ml, zl, ml, cl, zl];
    assert ls[0] == ml && ls[1] == zl && ls[2] == ml && ls[3] == cl;
    assert ZaidScan(ls, 3, 12) == ([], 4);
    assert LineNuclide(ml, 12) == (12, [Nuclide(12, 13, g)]);
    assert [Nuclide(12, 13, g)] + [] == [Nuclide(12, 13, g)];
    assert ZaidScan(ls, 2, 12) == ([Nuclide(12, 13, g)], 4);
    assert LineNuclide(zl, 0) == (12, [Nuclide(12, 12, f)]);
    assert [Nuclide(12, 12, f)] + [Nuclide(12, 13, g)] == [Nuclide(12, 12, f), Nuclide(12, 13, g)];
    assert ZaidScan(ls, 1, 0) == ([Nuclide(12, 12, f), Nuclide(12, 13, g)], 4);
    assert LineNuclide(ml, 0) == (0, [Nuclide(0, 13, g)]);
    assert [Nuclide(0, 13, g)] + [Nuclide(12, 12, f), Nuclide(12, 13, g)]
      == [Nuclide(0, 13, g), Nuclide(12, 12, f), Nuclide(12, 13, g)];
    assert ZaidScan(ls, 0, 0) == ([Nuclide(0, 13, g), Nuclide(12, 12, f), Nuclide(12, 13, g)], 4);
  }

  /** The sum of the fractions of a list of nuclides. */
  function FracSum(es: seq<Nuclide>): real
  {
    if es == [] then 0.0 else es[0].frac + FracSum(es[1..])
  }

  /** Recording production lines (index 0 or 1) adds their fractions to the
      production and total maps and leaves the loss map unchanged. */
  lemma {:induction false} ApplyProduction(l: Ledger, prodType: nat, es: seq<Nuclide>)
    requires prodType <= 1
    ensures var r := ApplyAll(l, prodType, es);
      r.Ok? && r.value.loss == l.loss
      && SumOf(r.value.prod) == SumOf(l.prod) + FracSum(es)
      && SumOf(r.value.total) == SumOf(l.total) + FracSum(es)
    decreases |es|
  {
    if es != [] {
      var e := es[0];
      var k := ZaidKey(e.z, e.n, 0);
      var l' := AddTotalSpec(AddProdSpec(l, e.z, e.n, 0, e.frac), e.z, e.n, 0, e.frac);
      AccumulateSum(l.prod, k, e.frac);
      AccumulateSum(l.total, k, e.frac);
      ApplyProduction(l', prodType, es[1..]);
    }
  }

  /** Recording destruction lines (index 2) adds their fractions to the loss
      map, subtracts them from the total map and leaves production
      unchanged. */
  lemma {:induction false} ApplyDestruction(l: Ledger, es: seq<Nuclide>)
    ensures var r := ApplyAll(l, 2, es);
      r.Ok? && r.value.prod == l.prod
      && SumOf(r.value.loss) == SumOf(l.loss) + FracSum(es)
      && SumOf(r.value.total) == SumOf(l.total) - FracSum(es)
    decreases |es|
  {
    if es != [] {
      var e := es[0];
      var k := ZaidKey(e.z, e.n, 0);
      var l' := AddTotalSpec(AddDestructSpec(l, e.z, e.n, e.frac), e.z, e.n, 0, -e.frac);
      AccumulateSum(l.loss, k, e.frac);
      AccumulateSum(l.total, k, -e.frac);
      ApplyDestruction(l', es[1..]);
    }
  }

  /** Any other index fails on the first nuclide line and only then. */
  lemma ApplyOther(l: Ledger, prodType: nat, es: seq<Nuclide>)
    requires prodType > 2
    ensures ApplyAll(l, prodType, es).Ok? <==> es == []
    ensures es != [] ==> ApplyAll(l, prodType, es) == Fail(IndexError)
  {
  }

  // ---------------------------------------------------------------------
  // readHeader

  /** cellNo names cell `c` on some line. */
  predicate Named(lines: seq<HLine>, c: int)
  {
    exists i :: 0 <= i < |lines| && lines[i].cellNo == Some(c)
  }

  /** The run of readHeader's state machine from position `pos` in state
      `state` (htapeProcess.cxx:235-264): the sample count read and the cell
      map. State 0 looks for the sample count and falls through to state 1,
      which looks for the case header; state 2 looks for the cell and finds
      or creates its ledger; state 3 hands the stream after the current
      line to readZaid and returns to state 1. */
  function HeaderRun(prodType: nat, lines: seq<HLine>, pos: nat, state: nat, npsFile: int,
                     prod: CellMap, cell: int): Result<(int, CellMap)>
    requires pos <= |lines| && state <= 3
    requires state == 3 ==> cell in prod
    decreases |lines| - pos
  {
    if pos == |lines| then Ok((npsFile, prod))
    else
      var line := lines[pos];
      if state <= 1 then
        var found := state == 0 && line.npsNum.Some?;
        var nps' := if found then line.npsNum.value else npsFile;
        var state' := if line.caseNo.Some? then 2 else if found then 1 else state;
        HeaderRun(prodType, lines, pos + 1, state', nps', prod, cell)
      else if state == 2 then
        if line.cellNo.Some? then
          var c := line.cellNo.value;
          HeaderRun(prodType, lines, pos + 1, 3, npsFile, FindCellProdSpec(prod, c), c)
        else HeaderRun(prodType, lines, pos + 1, 2, npsFile, prod, cell)
      else
        var (es, next) := ZaidScan(lines, pos + 1, 0);
        match ApplyAll(prod[cell], prodType, es)
        case Fail(f) => Fail(f)
        case Ok(l) => HeaderRun(prodType, lines, next, 1, npsFile, prod[cell := l], cell)
  }

  /** readHeader (htapeProcess.cxx:209-270) over the whole stream. */
  method ReadHeader(prodType: nat, lines: seq<HLine>, fileProd: CellMap) returns (r: Result<(int, CellMap)>)
    ensures r == HeaderRun(prodType, lines, 0, 0, 0, fileProd, 0)
  {
    var npsFile := 0;
    var state := 0;
    var prod := fileProd;
    var cell := 0;
    var pos := 0;
    while pos < |lines|
      invariant pos <= |lines| && state <= 3
      invariant state == 3 ==> cell in prod
      invariant HeaderRun(prodType, lines, pos, state, npsFile, prod, cell)
        == HeaderRun(prodType, lines, 0, 0, 0, fileProd, 0)
      decreases |lines| - pos
    {
      var line := lines[pos];
      if state <= 1 {
        var found := state == 0 && line.npsNum.Some?;
        if found {
          npsFile := line.npsNum.value;
          state := 1;
        }
        if line.caseNo.Some? {
          state := 2;
        }
        pos := pos + 1;
      } else if state == 2 {
        if line.cellNo.Some? {
          cell := line.cellNo.value;
          prod := FindCellProdSpec(prod, cell);
          state := 3;
        }
        pos := pos + 1;
      } else {
        var res, next := ReadZaid(prodType, prod[cell], lines, pos + 1);
        if res.Fail? {
          return Fail(res.fault);
        }
        prod := prod[cell := res.value];
        state := 1;
        pos := next;
      }
    }
    return Ok((npsFile, prod));
  }

  /** readHeader keeps every cell it was given, and every cell it adds is
      named by a `for cell:` line. */
  lemma {:induction false} HeaderCells(prodType: nat, lines: seq<HLine>, pos: nat, state: nat, npsFile: int,
                                       prod: CellMap, cell: int)
    requires pos <= |lines| && state <= 3
    requires state == 3 ==> cell in prod
    ensures var r := HeaderRun(prodType, lines, pos, state, npsFile, prod, cell);
      r.Ok? ==> ((forall c :: c in prod ==> c in r.value.1)
                 && (forall c :: c in r.value.1 ==> c in prod || Named(lines, c)))
    decreases |lines| - pos
  {
    if pos < |lines| {
      var line := lines[pos];
      if state <= 1 {
        var found := state == 0 && line.npsNum.Some?;
        var nps' := if found then line.npsNum.value else npsFile;
        var state' := if line.caseNo.Some? then 2 else if found then 1 else state;
        HeaderCells(prodType, lines, pos + 1, state', nps', prod, cell);
      } else if state == 2 {
        if line.cellNo.Some? {
          var c := line.cellNo.value;
          var p' := FindCellProdSpec(prod, c);
          HeaderCells(prodType, lines, pos + 1, 3, npsFile, p', c);
          assert Named(lines, c) by { assert lines[pos].cellNo == Some(c); }
        } else {
          HeaderCells(prodType, lines, pos + 1, 2, npsFile, prod, cell);
        }
      } else {
        var (es, next) := ZaidScan(lines, pos + 1, 0);
        var a := ApplyAll(prod[cell], prodType, es);
        if a.Ok? {
          HeaderCells(prodType, lines, next, 1, npsFile, prod[cell := a.value], cell);
        }
      }
    }
  }

  /** The sample count readHeader returns is the one it started with or the
      count of some line. */
  lemma {:induction false} HeaderNps(prodType: nat, lines: seq<HLine>, pos: nat, state: nat, npsFile: int,
                                     prod: CellMap, cell: int)
    requires pos <= |lines| && state <= 3
    requires state == 3 ==> cell in prod
    ensures var r := HeaderRun(prodType, lines, pos, state, npsFile, prod, cell);
      r.Ok? ==> r.value.0 == npsFile || exists i :: pos <= i < |lines| && lines[i].npsNum == Some(r.value.0)
    decreases |lines| - pos
  {
    if pos < |lines| {
      var line := lines[pos];
      if state <= 1 {
        var found := state == 0 && line.npsNum.Some?;
        var nps' := if found then line.npsNum.value else npsFile;
        var state' := if line.caseNo.Some? then 2 else if found then 1 else state;
        HeaderNps(prodType, lines, pos + 1, state', nps', prod, cell);
      } else if state == 2 {
        if line.cellNo.Some? {
          HeaderNps(prodType, lines, pos + 1, 3, npsFile, FindCellProdSpec(prod, line.cellNo.value), line.cellNo.value);
        } else {
          HeaderNps(prodType, lines, pos + 1, 2, npsFile, prod, cell);
        }
      } else {
        var (es, next) := ZaidScan(lines, pos + 1, 0);
        var a := ApplyAll(prod[cell], prodType, es);
        if a.Ok? {
          HeaderNps(prodType, lines, next, 1, npsFile, prod[cell := a.value], cell);
        }
      }
    }
  }

  /** A line holding a case header in state 0 moves straight to state 2:
      the sample-count search does not end the step. */
  lemma HeaderFallThrough(prodType: nat, lines: seq<HLine>, pos: nat, npsFile: int, prod: CellMap, cell: int)
    requires pos < |lines| && lines[pos].caseNo.Some?
    ensures HeaderRun(prodType, lines, pos, 0, npsFile, prod, cell)
      == HeaderRun(prodType, lines, pos + 1, 2,
           if lines[pos].npsNum.Some? then lines[pos].npsNum.value else npsFile, prod, cell)
  {
  }

  // ---------------------------------------------------------------------
  // procGas

  /** One step of procGas's state machine (htapeProcess.cxx:323-375) on a
      line: the next state, the cell map and the current cell. */
  function GasStep(state: nat, line: HLine, prod: CellMap, cell: int): (r: (nat, CellMap, int))
    requires state <= 5
    requires state >= 2 ==> cell in prod
    ensures r.0 <= 5 && (r.0 >= 2 ==> r.2 in r.1)
  {
    if state == 0 then (if line.caseNo.Some? then 1 else 0, prod, cell)
    else if state == 1 then
      if line.cellNo.Some? then (2, FindCellProdSpec(prod, line.cellNo.value), line.cellNo.value)
      else (1, prod, cell)
    else if state == 2 then (if line.hydrogen then 3 else 2, prod, cell)
    else if state == 3 then
      if |line.nums| >= 6 then (4, prod[cell := Hydrogen(prod[cell], line.nums)], cell)
      else (3, prod, cell)
    else if state == 4 then (if line.helium then 5 else 4, prod, cell)
    else
      (0, if |line.nums| >= 4 then prod[cell := Helium(prod[cell], line.nums)] else prod, cell)
  }

  /** The production recorded for one cell and nuclide by procGas. */
  function GasProd(l: Ledger, z: int, n: int, v: real): Ledger
  {
    CellIndexProdSpec(l, 0, z, n, 0, v).value
  }

  /** The hydrogen row: values for hydrogen, deuterium and tritium, each
      followed by its error. */
  function Hydrogen(l: Ledger, nums: seq<real>): Ledger
    requires |nums| >= 6
  {
    GasProd(GasProd(GasProd(l, 1, 0, nums[0]), 1, 1, nums[2]), 1, 2, nums[4])
  }

  /** The helium row: values for helium-3 and helium-4. */
  function Helium(l: Ledger, nums: seq<real>): Ledger
    requires |nums| >= 4
  {
    GasProd(GasProd(l, 2, 1, nums[0]), 2, 2, nums[2])
  }

  /** procGas's state machine to the end of the stream: the cell map and the
      final state. */
  function GasRun(lines: seq<HLine>, pos: nat, state: nat, prod: CellMap, cell: int): (r: (CellMap, nat))
    requires pos <= |lines| && state <= 5
    requires state >= 2 ==> cell in prod
    decreases |lines| - pos
  {
    if pos == |lines| then (prod, state)
    else
      var (s', p', c') := GasStep(state, lines[pos], prod, cell);
      GasRun(lines, pos + 1, s', p', c')
  }

  /** procGas (htapeProcess.cxx:290-383) over the whole stream: the cell map
      and whether the final state is reported as an error. */
  method ProcGas(lines: seq<HLine>, prodMap: CellMap) returns (prod: CellMap, failed: bool)
    ensures prod == GasRun(lines, 0, 0, prodMap, 0).0
    ensures failed <==> GasRun(lines, 0, 0, prodMap, 0).1 != 0
  {
    prod := prodMap;
    var state: nat := 0;
    var cell := 0;
    var pos := 0;
    while pos < |lines|
      invariant pos <= |lines| && state <= 5
      invariant state >= 2 ==> cell in prod
      invariant GasRun(lines, pos, state, prod, cell) == GasRun(lines, 0, 0, prodMap, 0)
      decreases |lines| - pos
    {
      var line := lines[pos];
      if state == 0 {
        if line.caseNo.Some? {
          state := 1;
        }
      } else if state == 1 {
        if line.cellNo.Some? {
          cell := line.cellNo.value;
          prod := FindCellProdSpec(prod, cell);
          state := 2;
        }
      } else if state == 2 {
        if line.hydrogen {
          state := 3;
        }
      } else if state == 3 {
        if |line.nums| >= 6 {
          prod := prod[cell := Hydrogen(prod[cell], line.nums)];
          state := 4;
        }
      } else if state == 4 {
        if line.helium {
          state := 5;
        }
      } else {
        if |line.nums| >= 4 {
          prod := prod[cell := Helium(prod[cell], line.nums)];
        }
        state := 0;
      }
      pos := pos + 1;
    }
    failed := state != 0;
  }

  /** After the helium row procGas returns to state 0 whether or not the row
      held its four numbers. */
  lemma GasHeliumResets(line: HLine, prod: CellMap, cell: int)
    requires cell in prod
    ensures GasStep(5, line, prod, cell).0 == 0
    ensures |line.nums| < 4 ==> GasStep(5, line, prod, cell).1 == prod
  {
  }

  /** The hydrogen row adds its three values to the production and total
      maps under hydrogen, deuterium and tritium in the ground state. */
  lemma HydrogenRow(l: Ledger, nums: seq<real>)
    requires |nums| >= 6
    ensures var r := Hydrogen(l, nums);
      r.loss == l.loss
      && Part(r.prod, ZaidKey(1, 0, 0)) == Part(l.prod, ZaidKey(1, 0, 0)) + nums[0]
      && Part(r.prod, ZaidKey(1, 1, 0)) == Part(l.prod, ZaidKey(1, 1, 0)) + nums[2]
      && Part(r.prod, ZaidKey(1, 2, 0)) == Part(l.prod, ZaidKey(1, 2, 0)) + nums[4]
      && Part(r.total, ZaidKey(1, 0, 0)) == Part(l.total, ZaidKey(1, 0, 0)) + nums[0]
      && Part(r.total, ZaidKey(1, 1, 0)) == Part(l.total, ZaidKey(1, 1, 0)) + nums[2]
      && Part(r.total, ZaidKey(1, 2, 0)) == Part(l.total, ZaidKey(1, 2, 0)) + nums[4]
  {
    assert ZaidKey(1, 0, 0) == 10010 && ZaidKey(1, 1, 0) == 10020 && ZaidKey(1, 2, 0) == 10030;
  }

  /** The helium row adds its two values under helium-3 and helium-4. */
  lemma HeliumRow(l: Ledger, nums: seq<real>)
    requires |nums| >= 4
    ensures var r := Helium(l, nums);
      r.loss == l.loss
      && Part(r.prod, ZaidKey(2, 1, 0)) == Part(l.prod, ZaidKey(2, 1, 0)) + nums[0]
      && Part(r.prod, ZaidKey(2, 2, 0)) == Part(l.prod, ZaidKey(2, 2, 0)) + nums[2]
      && Part(r.total, ZaidKey(2, 1, 0)) == Part(l.total, ZaidKey(2, 1, 0)) + nums[0]
      && Part(r.total, ZaidKey(2, 2, 0)) == Part(l.total, ZaidKey(2, 2, 0)) + nums[2]
  {
    assert ZaidKey(2, 1, 0) == 20030 && ZaidKey(2, 2, 0) == 20040;
  }

  /** procGas keeps every cell it was given, and every cell it adds is named
      by a `for cell:` line. */
  lemma {:induction false} GasCells(lines: seq<HLine>, pos: nat, state: nat, prod: CellMap, cell: int)
    requires pos <= |lines| && state <= 5
    requires state >= 2 ==> cell in prod
    ensures var r := GasRun(lines, pos, state, prod, cell).0;
      (forall c :: c in prod ==> c in r) && (forall c :: c in r ==> c in prod || Named(lines, c))
    decreases |lines| - pos
  {
    if pos < |lines| {
      var line := lines[pos];
      var step := GasStep(state, line, prod, cell);
      GasCells(lines, pos + 1, step.0, step.1, step.2);
      if state == 1 && line.cellNo.Some? {
        var c := line.cellNo.value;
        assert step.1 == FindCellProdSpec(prod, c);
        assert Named(lines, c) by { assert lines[pos].cellNo == Some(c); }
      } else {
        assert forall c :: c in step.1 <==> c in prod;
      }
    }
  }

  // ---------------------------------------------------------------------
  // scale and addCells

  /** Every cell's ledger scaled by `f`. */
  function ScaleCells(m: CellMap, f: real): (r: CellMap)
    ensures r.Keys == m.Keys
  {
    map c | c in m :: ScaleLedger(m[c], f)
  }

  /** Scaling every cell scales each cell's total. */
  lemma ScaleCellsTotal(m: CellMap, f: real, c: int)
    requires c in m
    ensures c in ScaleCells(m, f)
    ensures SumOf(ScaleCells(m, f)[c].total) == SumOf(m[c].total) * f
  {
    ScaleTotal(m[c].total, f);
  }

  /** A cell's ledger in a map, a missing cell standing for an empty one. */
  function LedgerOf(m: CellMap, c: int): Ledger
  {
    if c in m then m[c] else Empty
  }

  /** The ledger addCells gives cell `c`: merged when both batches hold it,
      otherwise the batch that holds it scaled by its share of the
      samples. */
  function AddedCell(cur: CellMap, nps: int, newNPS: int, newProd: CellMap, c: int): Ledger
    requires nps + newNPS != 0
  {
    var s := (nps + newNPS) as real;
    if c in cur && c in newProd then MergeLedger(cur[c], newProd[c], nps, newNPS)
    else if c in cur then ScaleLedger(cur[c], nps as real / s)
    else ScaleLedger(LedgerOf(newProd, c), newNPS as real / s)
  }

  function AddCellsSpec(cur: CellMap, nps: int, newNPS: int, newProd: CellMap): (r: CellMap)
    requires nps + newNPS != 0
    ensures r.Keys == cur.Keys + newProd.Keys
  {
    map c | c in cur.Keys + newProd.Keys :: AddedCell(cur, nps, newNPS, newProd, c)
  }

  /** addCells treats every cell alike: each cell of either batch gets the
      sample-weighted merge of its two ledgers, a batch that lacks the cell
      counting as empty. */
  lemma AddCellsAsMerge(cur: CellMap, nps: int, newNPS: int, newProd: CellMap, c: int)
    requires nps + newNPS != 0
    requires c in cur || c in newProd
    ensures AddCellsSpec(cur, nps, newNPS, newProd)[c]
      == MergeLedger(LedgerOf(cur, c), LedgerOf(newProd, c), nps, newNPS)
  {
    var a, b := LedgerOf(cur, c), LedgerOf(newProd, c);
    if c in cur && c !in newProd {
      MergeEmptyRight(a.prod, nps, newNPS);
      MergeEmptyRight(a.loss, nps, newNPS);
      MergeEmptyRight(a.total, nps, newNPS);
    } else if c !in cur {
      MergeEmptyLeft(b.prod, nps, newNPS);
      MergeEmptyLeft(b.loss, nps, newNPS);
      MergeEmptyLeft(b.total, nps, newNPS);
    }
  }

  /** Seen cell by cell, addCells merges the two ledgers of every cell,
      present or not: a cell in neither batch stays empty. */
  lemma AddCellsLedger(cur: CellMap, nps: int, newNPS: int, newProd: CellMap, c: int)
    requires nps + newNPS != 0
    ensures LedgerOf(AddCellsSpec(cur, nps, newNPS, newProd), c)
      == MergeLedger(LedgerOf(cur, c), LedgerOf(newProd, c), nps, newNPS)
  {
    if c in cur || c in newProd {
      AddCellsAsMerge(cur, nps, newNPS, newProd, c);
    } else {
      assert Merge(map[], map[], nps, newNPS) == map[];
    }
  }

  /** One cell of three batches added in either grouping. */
  lemma AddCellsAssocAt(m1: CellMap, m2: CellMap, m3: CellMap, x: int, y: int, z: int, c: int)
    requires x + y != 0 && y + z != 0 && x + y + z != 0
    ensures LedgerOf(AddCellsSpec(AddCellsSpec(m1, x, y, m2), x + y, z, m3), c)
      == LedgerOf(AddCellsSpec(m1, x, y + z, AddCellsSpec(m2, y, z, m3)), c)
  {
    var m12, m23 := AddCellsSpec(m1, x, y, m2), AddCellsSpec(m2, y, z, m3);
    AddCellsLedger(m12, x + y, z, m3, c);
    AddCellsLedger(m1, x, y + z, m23, c);
    AddCellsLedger(m1, x, y, m2, c);
    AddCellsLedger(m2, y, z, m3, c);
    MergeLedgerAssoc(LedgerOf(m1, c), LedgerOf(m2, c), LedgerOf(m3, c), x, y, z);
  }

  /** Adding three batches gives the same cells whichever two are added
      first, each side carrying the sum of its sample counts. */
  lemma AddCellsAssoc(m1: CellMap, m2: CellMap, m3: CellMap, x: int, y: int, z: int)
    requires x + y != 0 && y + z != 0 && x + y + z != 0
    ensures AddCellsSpec(AddCellsSpec(m1, x, y, m2), x + y, z, m3)
      == AddCellsSpec(m1, x, y + z, AddCellsSpec(m2, y, z, m3))
  {
    var l := AddCellsSpec(AddCellsSpec(m1, x, y, m2), x + y, z, m3);
    var r := AddCellsSpec(m1, x, y + z, AddCellsSpec(m2, y, z, m3));
    forall c ensures LedgerOf(l, c) == LedgerOf(r, c) {
      AddCellsAssocAt(m1, m2, m3, x, y, z, c);
    }
    SameCells(l, r);
  }

  /** Two cell maps with the same cells and the same ledger in each are equal. */
  lemma SameCells(l: CellMap, r: CellMap)
    requires l.Keys == r.Keys
    requires forall c :: LedgerOf(l, c) == LedgerOf(r, c)
    ensures l == r
  {
    forall c | c in l ensures c in r && l[c] == r[c] {
      assert LedgerOf(l, c) == LedgerOf(r, c);
    }
    forall c | c in r ensures c in l {
    }
  }

  lemma MergeEmptyRight(a: Tally, oldNPS: int, newNPS: int)
    requires oldNPS + newNPS != 0
    ensures Merge(a, map[], oldNPS, newNPS) == ScaledBy(a, oldNPS as real / (oldNPS + newNPS) as real)
  {
    var m, t := Merge(a, map[], oldNPS, newNPS), ScaledBy(a, oldNPS as real / (oldNPS + newNPS) as real);
    forall k | k in m ensures k in t && m[k] == t[k] {
      MergeCases(a, map[], oldNPS, newNPS, k);
      DivideLater(a[k], oldNPS as real, (oldNPS + newNPS) as real);
    }
    forall k | k in t ensures k in m {
    }
  }

  lemma MergeEmptyLeft(b: Tally, oldNPS: int, newNPS: int)
    requires oldNPS + newNPS != 0
    ensures Merge(map[], b, oldNPS, newNPS) == ScaledBy(b, newNPS as real / (oldNPS + newNPS) as real)
  {
    var m, t := Merge(map[], b, oldNPS, newNPS), ScaledBy(b, newNPS as real / (oldNPS + newNPS) as real);
    forall k | k in m ensures k in t && m[k] == t[k] {
      MergeCases(map[], b, oldNPS, newNPS, k);
      DivideLater(b[k], newNPS as real, (oldNPS + newNPS) as real);
    }
    forall k | k in t ensures k in m {
    }
  }

  lemma DivideLater(x: real, w: real, s: real)
    requires s != 0.0
    ensures x * w / s == x * (w / s)
  {
  }

  /** The htape process: the accumulated sample count and the per-cell
      ledgers. */
  class HtapeProcess {
    var nps: int
    var cellProd: CellMap

    /** The constructor (htapeProcess.cxx:74-78). */
    constructor ()
      ensures nps == 0 && cellProd == map[]
    {
      nps := 0;
      cellProd := map[];
    }

    /** findCellProd on the process's own map (htapeProcess.cxx:402-411). */
    method FindCellProd(cellN: int) returns (l: Ledger)
      modifies this
      ensures cellProd == FindCellProdSpec(old(cellProd), cellN) && nps == old(nps)
      ensures l == cellProd[cellN]
    {
      cellProd := FindCellProdSpec(cellProd, cellN);
      l := cellProd[cellN];
    }

    /** scale (htapeProcess.cxx:436-449). */
    method Scale(f: real)
      modifies this
      ensures cellProd == ScaleCells(old(cellProd), f) && nps == old(nps)
    {
      var m := cellProd;
      var rest := m.Keys;
      var r := m;
      while exists c :: c in rest
        invariant forall c :: c in rest ==> c in m
        invariant forall c :: c in r <==> c in m
        invariant forall c :: c in m ==> r[c] == (if c in rest then m[c] else ScaleLedger(m[c], f))
        decreases rest
      {
        var c :| c in rest;
        r := r[c := ScaleLedger(r[c], f)];
        rest := rest - {c};
      }
      var t := ScaleCells(m, f);
      forall c | c in r ensures c in t && r[c] == t[c] {
      }
      forall c | c in t ensures c in r {
      }
      cellProd := r;
    }

    /** addCells (htapeProcess.cxx:453-492): cells of the current map are
        scaled or merged, cells only in the new batch are inserted scaled,
        and the sample count grows by the new count. */
    method AddCells(newNPS: int, newProd: CellMap)
      requires nps + newNPS != 0
      modifies this
      ensures cellProd == AddCellsSpec(old(cellProd), old(nps), newNPS, newProd)
      ensures nps == old(nps) + newNPS
    {
      var cur := cellProd;
      var s := (nps + newNPS) as real;
      var oldFactor := nps as real / s;
      var r := cur;
      var rest := cur.Keys;
      while exists c :: c in rest
        invariant forall c :: c in rest ==> c in cur
        invariant forall c :: c in r <==> c in cur
        invariant forall c :: c in cur ==>
          r[c] == (if c in rest then cur[c] else AddedCell(cur, nps, newNPS, newProd, c))
        decreases rest
      {
        var c :| c in rest;
        if c !in newProd {
          r := r[c := ScaleLedger(r[c], oldFactor)];
        } else {
          r := r[c := MergeLedger(r[c], newProd[c], nps, newNPS)];
        }
        rest := rest - {c};
      }
      var newFactor := newNPS as real / s;
      rest := newProd.Keys;
      while exists c :: c in rest
        invariant forall c :: c in rest ==> c in newProd
        invariant forall c :: c in r <==> c in cur || (c in newProd && c !in rest)
        invariant forall c :: c in r ==> r[c] == AddedCell(cur, nps, newNPS, newProd, c)
        decreases rest
      {
        var c :| c in rest;
        if c !in r {
          r := r[c := ScaleLedger(newProd[c], newFactor)];
        }
        rest := rest - {c};
      }
      var t := AddCellsSpec(cur, nps, newNPS, newProd);
      forall c | c in r ensures c in t && r[c] == t[c] {
      }
      forall c | c in t ensures c in r {
      }
      cellProd := r;
      nps := nps + newNPS;
    }
  }
}
