/** The flux tally reader (tallyProcess): it finds the `1tally` headers of
    an MCNP output file, reads the energy tables of the cells listed under
    each header, rebins every cell's series onto the fixed energy grid,
    weights it by the header's sample count and merges it into a per-cell
    flux map. The series type (WorkData) is kept symbolic: its operations
    are recorded as terms of `Work` rather than computed. */
module Flux {
  import opened Common

  /** A flux series as the sequence of WorkData operations that built it. */
  datatype Work =
    | Fresh                                          // a default series after initX(0.0)
    | Pushed(base: Work, energy: real, flux: real)   // pushData(energy, flux)
    | Rebinned(base: Work, grid: seq<real>)          // rebin(grid)
    | Weighted(base: Work, weight: real)             // setWeight(weight)
    | Summed(left: Work, right: Work)                // left += right

  /** One line of the output file:
      - `toks`: its whitespace-separated tokens;
      - `header`: the tally number and sample count when the line matches
        `1tally N nps = M` with both numbers converted;
      - `rule`: the line contains "=======";
      - `total`: the line contains "total". */
  datatype TLine = TLine(toks: seq<Tok>, header: Option<(int, int)>, rule: bool, total: bool)

  /** The flux map of the process (the source's CTYPE). */
  type FluxMap = map<int, Work>

  /** The state of a reader: the position reached, the flux map, and the
      fault that ended the run if one did. */
  datatype Scan = Scan(flux: FluxMap, pos: nat, fault: Option<Fault>)

  // ---------------------------------------------------------------------
  // The rebin grid (tallyProcess.cxx:237-250)

  /** The 64 energies (MeV) onto which every series is rebinned, written
      as eight rows of eight. */
  const Grid: seq<real> := Grid0 + (Grid1 + (Grid2 + (Grid3 + (Grid4 + (Grid5 + (Grid6 + Grid7))))))
  const Grid0: seq<real> := [0.000000, 0.000000005, 0.00000001, 0.000000015, 0.00000002, 0.000000025, 0.00000003, 0.000000035]
  const Grid1: seq<real> := [0.000000042, 0.00000005, 0.000000058, 0.000000067, 0.00000008, 0.0000001, 0.000000152, 0.000000251]
  const Grid2: seq<real> := [0.000000414, 0.000000683, 0.000001125, 0.000001855, 0.000003059, 0.000005043, 0.000008315, 0.00001371]
  const Grid3: seq<real> := [0.0000226, 0.00003727, 0.00006144, 0.0001013, 0.000167, 0.0002754, 0.000454, 0.0007485]
  const Grid4: seq<real> := [0.001234, 0.002035, 0.002404, 0.00284, 0.003355, 0.005531, 0.009119, 0.01503]
  const Grid5: seq<real> := [0.01989, 0.02554, 0.04087, 0.06738, 0.1111, 0.1832, 0.302, 0.3887]
  const Grid6: seq<real> := [0.4979, 0.639279, 0.820850, 1.108030, 1.353350, 1.737740, 2.231300, 2.865050]
  const Grid7: seq<real> := [3.678790, 4.965850, 6.065000, 10.00000, 14.91820, 16.90460, 20.00000, 25.00000]

  /** Each value is below the next one. */
  predicate Ascending(s: seq<real>)
    decreases |s|
  {
    |s| < 2 || (s[0] < s[1] && Ascending(s[1..]))
  }

  /** Two ascending runs joined in order are ascending. */
  lemma {:induction false} AscendingJoin(a: seq<real>, b: seq<real>)
    requires Ascending(a) && Ascending(b)
    requires a != [] && b != [] && a[|a| - 1] < b[0]
    ensures Ascending(a + b)
    decreases |a|
  {
    if |a| > 1 {
      AscendingJoin(a[1..], b);
      assert (a + b)[1..] == a[1..] + b;
    } else {
      assert (a + b)[1..] == b;
    }
  }

  /** An ascending sequence is strictly increasing. */
  lemma {:induction false} AscendingIncreasing(s: seq<real>)
    requires Ascending(s)
    ensures forall i, j :: 0 <= i < j < |s| ==> s[i] < s[j]
    decreases |s|
  {
    if |s| > 1 {
      AscendingIncreasing(s[1..]);
      forall i, j | 0 <= i < j < |s|
        ensures s[i] < s[j]
      {
        if i > 0 {
          assert s[i] == s[1..][i - 1] && s[j] == s[1..][j - 1];
        } else if j > 1 {
          assert s[1] == s[1..][0] && s[j] == s[1..][j - 1];
        }
      }
    }
  }

  lemma Row0() ensures |Grid0| == 8 && Ascending(Grid0) { }
  lemma Row1() ensures |Grid1| == 8 && Ascending(Grid1) { }
  lemma Row2() ensures |Grid2| == 8 && Ascending(Grid2) { }
  lemma Row3() ensures |Grid3| == 8 && Ascending(Grid3) { }
  lemma Row4() ensures |Grid4| == 8 && Ascending(Grid4) { }
  lemma Row5() ensures |Grid5| == 8 && Ascending(Grid5) { }
  lemma Row6() ensures |Grid6| == 8 && Ascending(Grid6) { }
  lemma Row7() ensures |Grid7| == 8 && Ascending(Grid7) { }

  /** The grid has 64 points, runs from 0 to 25 and is strictly increasing. */
  lemma GridShape()
    ensures |Grid| == 64
    ensures Grid[0] == 0.0 && Grid[63] == 25.0
    ensures forall i, j :: 0 <= i < j < |Grid| ==> Grid[i] < Grid[j]
  {
    GridAscending();
    GridEnds();
    AscendingIncreasing(Grid);
  }

  lemma GridEnds()
    ensures |Grid| == 64 && Grid[0] == 0.0 && Grid[63] == 25.0
  {
    Row0();
    Row7();
    assert Grid[63] == Grid7[7];
  }

  lemma GridAscending()
    ensures Ascending(Grid)
  {
    Row0();
    Row1();
    Row2();
    Row3();
    Row4();
    Row5();
    Row6();
    Row7();
    AscendingJoin(Grid6, Grid7);
    AscendingJoin(Grid5, Grid6 + Grid7);
    AscendingJoin(Grid4, Grid5 + (Grid6 + Grid7));
    AscendingJoin(Grid3, Grid4 + (Grid5 + (Grid6 + Grid7)));
    AscendingJoin(Grid2, Grid3 + (Grid4 + (Grid5 + (Grid6 + Grid7))));
    AscendingJoin(Grid1, Grid2 + (Grid3 + (Grid4 + (Grid5 + (Grid6 + Grid7)))));
    AscendingJoin(Grid0, Grid1 + (Grid2 + (Grid3 + (Grid4 + (Grid5 + (Grid6 + Grid7))))));
  }

  // ---------------------------------------------------------------------
  // addFlux and getWorkData

  /** addFlux (tallyProcess.cxx:132-145): a series for a cell not yet
      present is inserted, otherwise it is added to the stored one. */
  function AddFluxSpec(m: FluxMap, cellN: int, wd: Work): (r: FluxMap)
    ensures forall c :: c in r <==> c in m || c == cellN
    ensures r[cellN] == if cellN in m then Summed(m[cellN], wd) else wd
    ensures forall c :: c in m && c != cellN ==> r[c] == m[c]
  {
    if cellN in m then m[cellN := Summed(m[cellN], wd)] else m[cellN := wd]
  }

  /** getWorkData (tallyProcess.cxx:110-124): the series of a cell, or
      InContainerError when the cell has none. */
  function GetWorkDataSpec(m: FluxMap, cellN: int): (r: Result<Work>)
    ensures r.Ok? <==> cellN in m
    ensures r.Ok? ==> r.value == m[cellN]
    ensures r.Fail? ==> r.fault == InContainerError
  {
    if cellN in m then Ok(m[cellN]) else Fail(InContainerError)
  }

  /** addFlux applied to each cell of a list with its series, in order. */
  function AddAll(m: FluxMap, cells: seq<int>, ws: seq<Work>): FluxMap
    requires |cells| == |ws|
    decreases |cells|
  {
    if cells == [] then m
    else AddFluxSpec(AddAll(m, cells[..|cells| - 1], ws[..|ws| - 1]), cells[|cells| - 1], ws[|ws| - 1])
  }

  /** Adding a list of series keeps every cell and adds exactly the listed
      ones; a cell that is not listed keeps its series. */
  lemma {:induction false} AddAllCells(m: FluxMap, cells: seq<int>, ws: seq<Work>)
    requires |cells| == |ws|
    ensures forall c :: c in AddAll(m, cells, ws) <==> c in m || c in cells
    ensures forall c :: c in m && c !in cells ==> AddAll(m, cells, ws)[c] == m[c]
    decreases |cells|
  {
    if cells != [] {
      var n := |cells| - 1;
      AddAllCells(m, cells[..n], ws[..n]);
      assert forall c :: c in cells <==> c in cells[..n] || c == cells[n];
    }
  }

  /** A cell listed once and absent before receives exactly its series. */
  lemma {:induction false} AddAllSingle(m: FluxMap, cells: seq<int>, ws: seq<Work>, i: nat)
    requires |cells| == |ws| && i < |cells|
    requires cells[i] !in m
    requires forall j :: 0 <= j < |cells| && j != i ==> cells[j] != cells[i]
    ensures cells[i] in AddAll(m, cells, ws) && AddAll(m, cells, ws)[cells[i]] == ws[i]
    decreases |cells|
  {
    var n := |cells| - 1;
    AddAllCells(m, cells[..n], ws[..n]);
    if i < n {
      AddAllSingle(m, cells[..n], ws[..n], i);
    } else {
      assert cells[i] !in cells[..n];
    }
  }

  // ---------------------------------------------------------------------
  // find1Tally

  /** find1Tally (tallyProcess.cxx:148-177): the tally number, the sample
      count and the position after the first header line from `pos` on, or
      None when the stream ends first. */
  function Find1TallySpec(lines: seq<TLine>, pos: nat): (r: Option<(int, int, nat)>)
    requires pos <= |lines|
    ensures r.Some? ==> pos < r.value.2 <= |lines|
    decreases |lines| - pos
  {
    if pos == |lines| then None
    else if lines[pos].header.Some? then
      Some((lines[pos].header.value.0, lines[pos].header.value.1, pos + 1))
    else Find1TallySpec(lines, pos + 1)
  }

  /** find1Tally finds the first header after `pos`, and fails exactly when
      there is none. */
  lemma {:induction false} Find1TallyFirst(lines: seq<TLine>, pos: nat)
    requires pos <= |lines|
    ensures var r := Find1TallySpec(lines, pos);
      (r.None? <==> forall i :: pos <= i < |lines| ==> lines[i].header.None?)
      && (r.Some? ==> lines[r.value.2 - 1].header == Some((r.value.0, r.value.1))
                      && forall i :: pos <= i < r.value.2 - 1 ==> lines[i].header.None?)
    decreases |lines| - pos
  {
    if pos < |lines| && lines[pos].header.None? {
      Find1TallyFirst(lines, pos + 1);
    }
  }

  /** find1Tally as a loop over the lines. */
  method Find1Tally(lines: seq<TLine>, pos0: nat) returns (found: bool, tallyN: int, nps: int, pos: nat)
    requires pos0 <= |lines|
    ensures var r := Find1TallySpec(lines, pos0);
      found == r.Some? && (found ==> tallyN == r.value.0 && nps == r.value.1 && pos == r.value.2)
    ensures !found ==> pos == |lines|
  {
    pos := pos0;
    while pos < |lines|
      invariant pos0 <= pos <= |lines|
      invariant Find1TallySpec(lines, pos0) == Find1TallySpec(lines, pos)
      decreases |lines| - pos
    {
      if lines[pos].header.Some? {
        return true, lines[pos].header.value.0, lines[pos].header.value.1, pos + 1;
      }
      pos := pos + 1;
    }
    return false, 0, 0, pos;
  }

  // ---------------------------------------------------------------------
  // readWorkEnergy

  /** Token `j` exists and is a number. */
  predicate NumAt(ts: seq<Tok>, j: int) { 0 <= j < |ts| && ts[j].num.Some? }

  /** The `cnt - i` flux values of an energy row from token `i` on; the row
      fails with FileError carrying the index of the first flux that is
      missing or not a number. */
  function Fluxes(ts: seq<Tok>, cnt: nat, i: nat): (r: Result<seq<real>>)
    requires i <= cnt
    ensures r.Ok? ==> |r.value| == cnt - i
    decreases cnt - i
  {
    if i == cnt then Ok([])
    else if !NumAt(ts, i) then Fail(FileError(i))
    else
      var rest := Fluxes(ts, cnt, i + 1);
      if rest.Fail? then rest else Ok([ts[i].num.value] + rest.value)
  }

  /** A row succeeds exactly when all of its `cnt - i` flux tokens are
      numbers, and then yields their values in order; otherwise it fails
      with the index of the first token that is missing or not a number. */
  lemma {:induction false} FluxesMeaning(ts: seq<Tok>, cnt: nat, i: nat)
    requires i <= cnt
    ensures Fluxes(ts, cnt, i).Ok? <==> (forall j :: i <= j < cnt ==> NumAt(ts, j))
    ensures Fluxes(ts, cnt, i).Ok? ==>
      forall j :: 0 <= j < cnt - i ==> NumAt(ts, i + j) && Fluxes(ts, cnt, i).value[j] == ts[i + j].num.value
    ensures Fluxes(ts, cnt, i).Fail? ==>
      (Fluxes(ts, cnt, i).fault.FileError? && i <= Fluxes(ts, cnt, i).fault.index < cnt
       && !NumAt(ts, Fluxes(ts, cnt, i).fault.index)
       && forall j :: i <= j < Fluxes(ts, cnt, i).fault.index ==> NumAt(ts, j))
    decreases cnt - i
  {
    if i < cnt && NumAt(ts, i) {
      FluxesMeaning(ts, cnt, i + 1);
      var rest := Fluxes(ts, cnt, i + 1);
      if rest.Ok? {
        var v := [ts[i].num.value] + rest.value;
        assert Fluxes(ts, cnt, i) == Ok(v);
        forall j | 0 <= j < cnt - i
          ensures NumAt(ts, i + j) && v[j] == ts[i + j].num.value
        {
          if j > 0 {
            assert v[j] == rest.value[j - 1];
          }
        }
      }
    }
  }

  /** A row with fewer flux values than listed cells fails with the index of
      the first missing value (from any starting token `i`). */
  lemma {:induction false} ShortRow(ts: seq<Tok>, cnt: nat, i: nat)
    requires i <= |ts| < cnt
    requires forall j :: 0 <= j < |ts| ==> ts[j].num.Some?
    ensures Fluxes(ts, cnt, i) == Fail(FileError(|ts|))
    decreases |ts| - i
  {
    if i < |ts| {
      ShortRow(ts, cnt, i + 1);
    }
  }

  /** The series after one row: each cell's series gains the row's energy
      with that cell's flux. */
  function PushRow(fw: seq<Work>, energy: real, fl: seq<real>): (r: seq<Work>)
    requires |fl| == |fw|
    ensures |r| == |fw| && forall i :: 0 <= i < |fw| ==> r[i] == Pushed(fw[i], energy, fl[i])
  {
    if fw == [] then [] else [Pushed(fw[0], energy, fl[0])] + PushRow(fw[1..], energy, fl[1..])
  }

  /** The energy rows from `pos` up to the line holding "total" or the end
      of the stream: the series built and the position after the last line
      read. A row whose first token is not a number is skipped. */
  function EnergyRows(lines: seq<TLine>, pos: nat, fw: seq<Work>): (r: Result<(seq<Work>, nat)>)
    requires pos <= |lines|
    ensures r.Ok? ==> |r.value.0| == |fw| && pos <= r.value.1 <= |lines|
    decreases |lines| - pos
  {
    if pos == |lines| then Ok((fw, pos))
    else if lines[pos].total then Ok((fw, pos + 1))
    else
      var t := lines[pos].toks;
      if |t| > 0 && t[0].num.Some? then
        var fl := Fluxes(t[1..], |fw|, 0);
        if fl.Fail? then Fail(fl.fault)
        else EnergyRows(lines, pos + 1, PushRow(fw, t[0].num.value, fl.value))
      else EnergyRows(lines, pos + 1, fw)
  }

  /** The flux values of a row read one by one (tallyProcess.cxx:284-292). */
  method ReadRow(ts: seq<Tok>, cnt: nat) returns (r: Result<seq<real>>)
    ensures r == Fluxes(ts, cnt, 0)
  {
    FluxesMeaning(ts, cnt, 0);
    var fl: seq<real> := [];
    var index := 0;
    while index < cnt
      invariant 0 <= index <= cnt
      invariant |fl| == index
      invariant forall j :: 0 <= j < index ==> NumAt(ts, j) && fl[j] == ts[j].num.value
    {
      if !NumAt(ts, index) {
        var v := Fluxes(ts, cnt, 0);
        assert v.Fail?;
        assert v.fault.index == index;
        return Fail(FileError(index));
      }
      fl := fl + [ts[index].num.value];
      index := index + 1;
    }
    var v := Fluxes(ts, cnt, 0);
    assert v.Ok?;
    assert |v.value| == |fl| && forall j :: 0 <= j < |fl| ==> v.value[j] == fl[j];
    assert v.value == fl;
    return Ok(fl);
  }

  /** The row loop of readWorkEnergy (tallyProcess.cxx:279-296): one
      fresh series per cell, extended row by row. */
  method ReadRows(lines: seq<TLine>, pos0: nat, cnt: nat) returns (r: Result<(seq<Work>, nat)>)
    requires pos0 <= |lines|
    ensures r == EnergyRows(lines, pos0, FreshSeries(cnt))
  {
    var fw := FreshSeries(cnt);
    var pos := pos0;
    while pos < |lines| && !lines[pos].total
      invariant pos0 <= pos <= |lines| && |fw| == cnt
      invariant EnergyRows(lines, pos0, FreshSeries(cnt)) == EnergyRows(lines, pos, fw)
      decreases |lines| - pos
    {
      var t := lines[pos].toks;
      if |t| > 0 && t[0].num.Some? {
        var fl := ReadRow(t[1..], cnt);
        if fl.Fail? {
          return Fail(fl.fault);
        }
        fw := PushRow(fw, t[0].num.value, fl.value);
      }
      pos := pos + 1;
    }
    return Ok((fw, if pos < |lines| then pos + 1 else pos));
  }

  /** Column `k` of the table read on its own: the series `w` extended, row
      by row up to the "total" line or the end, with each numeric row's
      energy and its `k`-th flux value. */
  function ColumnSeries(lines: seq<TLine>, pos: nat, k: nat, w: Work): Work
    requires pos <= |lines|
    decreases |lines| - pos
  {
    if pos == |lines| || lines[pos].total then w
    else
      var t := lines[pos].toks;
      if |t| > 0 && t[0].num.Some? && NumAt(t[1..], k) then
        ColumnSeries(lines, pos + 1, k, Pushed(w, t[0].num.value, t[1..][k].num.value))
      else ColumnSeries(lines, pos + 1, k, w)
  }

  /** A table read without a fault gives each cell the series of its own
      column: series `k` is column `k` of the rows read. */
  lemma {:induction false} EnergyRowsColumns(lines: seq<TLine>, pos: nat, fw: seq<Work>, k: nat)
    requires pos <= |lines| && k < |fw|
    requires EnergyRows(lines, pos, fw).Ok?
    ensures EnergyRows(lines, pos, fw).value.0[k] == ColumnSeries(lines, pos, k, fw[k])
    decreases |lines| - pos
  {
    if pos < |lines| && !lines[pos].total {
      var t := lines[pos].toks;
      if |t| > 0 && t[0].num.Some? {
        var fl := Fluxes(t[1..], |fw|, 0);
        FluxesMeaning(t[1..], |fw|, 0);
        assert fl.Ok?;
        assert NumAt(t[1..], 0 + k) && fl.value[0 + k] == t[1..][0 + k].num.value;
        var fw' := PushRow(fw, t[0].num.value, fl.value);
        assert fw'[k] == Pushed(fw[k], t[0].num.value, t[1..][k].num.value);
        EnergyRowsColumns(lines, pos + 1, fw', k);
      } else {
        EnergyRowsColumns(lines, pos + 1, fw, k);
      }
    }
  }

  /** A row that does not start with a number leaves the series unchanged. */
  lemma SkipsText(lines: seq<TLine>, pos: nat, fw: seq<Work>)
    requires pos < |lines| && !lines[pos].total
    requires |lines[pos].toks| == 0 || lines[pos].toks[0].num.None?
    ensures EnergyRows(lines, pos, fw) == EnergyRows(lines, pos + 1, fw)
  {
  }

  /** A cnt-long list of fresh series. */
  function FreshSeries(cnt: nat): (r: seq<Work>)
    ensures |r| == cnt && forall i :: 0 <= i < cnt ==> r[i] == Fresh
  {
    if cnt == 0 then [] else FreshSeries(cnt - 1) + [Fresh]
  }

  /** cinderRebin followed by setWeight(npsFile) on every series. */
  function Finish(fw: seq<Work>, npsFile: int): (r: seq<Work>)
    ensures |r| == |fw| && forall i :: 0 <= i < |fw| ==> r[i] == Weighted(Rebinned(fw[i], Grid), npsFile as real)
  {
    if fw == [] then [] else [Weighted(Rebinned(fw[0], Grid), npsFile as real)] + Finish(fw[1..], npsFile)
  }

  /** readWorkEnergy (tallyProcess.cxx:260-306) on a flux map: the rows
      are read into one fresh series per listed cell, which are rebinned,
      weighted by the file's sample count and added in list order. A bad
      row throws before any series is added. */
  function ReadWorkEnergySpec(m: FluxMap, lines: seq<TLine>, pos: nat, npsFile: int, cells: seq<int>): (r: Result<(FluxMap, nat)>)
    requires pos <= |lines|
    ensures r.Ok? ==> pos <= r.value.1 <= |lines|
  {
    var rows := EnergyRows(lines, pos, FreshSeries(|cells|));
    if rows.Fail? then Fail(rows.fault)
    else Ok((AddAll(m, cells, Finish(rows.value.0, npsFile)), rows.value.1))
  }

  /** After readWorkEnergy every listed cell has a series, every other cell
      keeps its own, and a cell listed once that had none holds its own
      column of the table, rebinned and weighted by the sample count. */
  lemma ReadWorkEnergyCells(m: FluxMap, lines: seq<TLine>, pos: nat, npsFile: int, cells: seq<int>)
    requires pos <= |lines|
    ensures var r := ReadWorkEnergySpec(m, lines, pos, npsFile, cells);
      r.Ok? ==>
        (forall c :: c in r.value.0 <==> c in m || c in cells)
        && (forall c :: c in m && c !in cells ==> r.value.0[c] == m[c])
        && (forall i :: 0 <= i < |cells| && cells[i] !in m
              && (forall j :: 0 <= j < |cells| && j != i ==> cells[j] != cells[i])
              ==> r.value.0[cells[i]] == Weighted(Rebinned(ColumnSeries(lines, pos, i, Fresh), Grid), npsFile as real))
  {
    var rows := EnergyRows(lines, pos, FreshSeries(|cells|));
    if rows.Ok? {
      var ws := Finish(rows.value.0, npsFile);
      AddAllCells(m, cells, ws);
      forall i | 0 <= i < |cells| && cells[i] !in m
                 && (forall j :: 0 <= j < |cells| && j != i ==> cells[j] != cells[i])
        ensures AddAll(m, cells, ws)[cells[i]] == Weighted(Rebinned(ColumnSeries(lines, pos, i, Fresh), Grid), npsFile as real)
      {
        AddAllSingle(m, cells, ws, i);
        EnergyRowsColumns(lines, pos, FreshSeries(|cells|), i);
      }
    }
  }

  // ---------------------------------------------------------------------
  // getFluxTally

  predicate IsCellTag(t: seq<Tok>) { |t| > 0 && (t[0].text == "cell" || t[0].text == "cell:") }

  predicate IsEnergyTag(t: seq<Tok>) { |t| > 0 && t[0].text == "energy" }

  /** The table scan of getFluxTally (tallyProcess.cxx:180-226) from
      position `pos` up to the line holding "=======" or the end of the
      stream. A `cell` line lists the cells (the integers after the tag);
      the line after it is read at once, and only when it starts with
      `energy` is the table read. A fault keeps the map as the earlier
      tables left it. */
  function FluxScan(m: FluxMap, lines: seq<TLine>, pos: nat, npsFile: int): (r: Scan)
    requires pos <= |lines|
    ensures pos <= r.pos <= |lines|
    decreases |lines| - pos
  {
    if pos == |lines| then Scan(m, pos, None)
    else if lines[pos].rule then Scan(m, pos + 1, None)
    else
      var t := lines[pos].toks;
      if IsCellTag(t) then
        var cells := LeadingInts(t[1..]);
        if pos + 1 == |lines| then Scan(m, |lines|, None)
        else if IsEnergyTag(lines[pos + 1].toks) then
          var e := ReadWorkEnergySpec(m, lines, pos + 2, npsFile, cells);
          if e.Fail? then Scan(m, pos, Some(e.fault))
          else FluxScan(e.value.0, lines, e.value.1, npsFile)
        else FluxScan(m, lines, pos + 2, npsFile)
      else FluxScan(m, lines, pos + 1, npsFile)
  }

  /** The flux map only gains cells: every cell present before is still
      present after a table scan, faulted or not. */
  lemma {:induction false} FluxScanKeeps(m: FluxMap, lines: seq<TLine>, pos: nat, npsFile: int)
    requires pos <= |lines|
    ensures forall c :: c in m ==> c in FluxScan(m, lines, pos, npsFile).flux
    decreases |lines| - pos
  {
    if pos < |lines| && !lines[pos].rule {
      var t := lines[pos].toks;
      if IsCellTag(t) {
        var cells := LeadingInts(t[1..]);
        if pos + 1 < |lines| {
          if IsEnergyTag(lines[pos + 1].toks) {
            var e := ReadWorkEnergySpec(m, lines, pos + 2, npsFile, cells);
            ReadWorkEnergyCells(m, lines, pos + 2, npsFile, cells);
            if e.Ok? {
              FluxScanKeeps(e.value.0, lines, e.value.1, npsFile);
            }
          } else {
            FluxScanKeeps(m, lines, pos + 2, npsFile);
          }
        }
      } else {
        FluxScanKeeps(m, lines, pos + 1, npsFile);
      }
    }
  }

  /** The whole of readMCNP's loop (tallyProcess.cxx:323-327) from `pos`:
      each header found starts a table scan whose sample count is then
      added to `nps`; `tallyN` is the number of the last header found. The
      result is the final map, the final count, the last tally number and
      the fault that ended the run if one did. */
  function McnpScan(m: FluxMap, nps: int, lines: seq<TLine>, pos: nat, tallyN: int): (r: (FluxMap, int, int, Option<Fault>))
    requires pos <= |lines|
    decreases |lines| - pos
  {
    var h := Find1TallySpec(lines, pos);
    if h.None? then (m, nps, tallyN, None)
    else
      var (n, npsFile, next) := h.value;
      var s := FluxScan(m, lines, next, npsFile);
      if s.fault.Some? then (s.flux, nps, n, s.fault)
      else McnpScan(s.flux, nps + npsFile, lines, s.pos, n)
  }

  /** The lines readMCNP scans: an empty name leaves the stream unopened,
      so nothing is read from it. */
  function ScannedLines(fName: string, lines: seq<TLine>): seq<TLine>
  {
    if fName == "" then [] else lines
  }

  /** readMCNP (tallyProcess.cxx:309-332) without the file: a non-empty name
      whose file does not open is FileError(0). An empty name is never
      opened, and a default-constructed stream is still good, so its scan
      reads no line. A run whose last header has tally number 0, in
      particular one with no header at all, is FileError(1). */
  function ReadMcnpSpec(m: FluxMap, nps: int, fName: string, isOpen: bool, lines: seq<TLine>): (r: (FluxMap, int, Option<Fault>))
  {
    if fName != "" && !isOpen then (m, nps, Some(FileError(0)))
    else
      var (m', nps', tallyN, f) := McnpScan(m, nps, ScannedLines(fName, lines), 0, 0);
      if f.Some? then (m', nps', f)
      else if tallyN == 0 then (m', nps', Some(FileError(1)))
      else (m', nps', None)
  }

  /** A file without any tally header is rejected and changes nothing. */
  lemma NoHeader(m: FluxMap, nps: int, fName: string, lines: seq<TLine>)
    requires forall i :: 0 <= i < |lines| ==> lines[i].header.None?
    ensures ReadMcnpSpec(m, nps, fName, true, lines) == (m, nps, Some(FileError(1)))
  {
    Find1TallyFirst(ScannedLines(fName, lines), 0);
  }

  /** An empty name is not rejected as unopened: the unopened stream yields
      no header, so the run ends in FileError(1) with nothing changed,
      whatever the file would have held. */
  lemma EmptyNameNoTally(m: FluxMap, nps: int, isOpen: bool, lines: seq<TLine>)
    ensures ReadMcnpSpec(m, nps, "", isOpen, lines) == (m, nps, Some(FileError(1)))
  {
    Find1TallyFirst([], 0);
  }

  /** The sample count never decreases over a file. */
  lemma {:induction false} McnpScanNps(m: FluxMap, nps: int, lines: seq<TLine>, pos: nat, tallyN: int)
    requires pos <= |lines|
    requires forall i :: pos <= i < |lines| && lines[i].header.Some? ==> lines[i].header.value.1 >= 0
    ensures McnpScan(m, nps, lines, pos, tallyN).1 >= nps
    decreases |lines| - pos
  {
    var h := Find1TallySpec(lines, pos);
    Find1TallyFirst(lines, pos);
    if h.Some? {
      var (n, npsFile, next) := h.value;
      var s := FluxScan(m, lines, next, npsFile);
      if s.fault.None? {
        McnpScanNps(s.flux, nps + npsFile, lines, s.pos, n);
      }
    }
  }

  /** isValid (tallyProcess.cxx:335-348): whether the integral from 0 to 25
      of a cell's series reaches the tolerance; the integral is a
      parameter, since WorkData::integrate is not part of this model. */
  function IsValidSpec(m: FluxMap, cellN: int, tol: real, integrate: Work -> real): (r: Result<bool>)
    ensures r.Ok? <==> cellN in m
    ensures r.Ok? ==> (r.value <==> integrate(m[cellN]) >= tol)
    ensures r.Fail? ==> r.fault == InContainerError
  {
    var wd := GetWorkDataSpec(m, cellN);
    if wd.Fail? then Fail(wd.fault) else Ok(!(integrate(wd.value) < tol))
  }

  // ---------------------------------------------------------------------
  // The process object

  /** The tally process: the accumulated sample count and the per-cell
      flux series. */
  class TallyProcess {
    var nps: int
    var cellFlux: FluxMap

    /** The constructor (tallyProcess.cxx:72-77). */
    constructor ()
      ensures nps == 0 && cellFlux == map[]
    {
      nps := 0;
      cellFlux := map[];
    }

    /** getWorkData (tallyProcess.cxx:110-124). */
    method GetWorkData(cellN: int) returns (r: Result<Work>)
      ensures r == GetWorkDataSpec(cellFlux, cellN)
    {
      if cellN in cellFlux {
        r := Ok(cellFlux[cellN]);
      } else {
        r := Fail(InContainerError);
      }
    }

    /** addFlux (tallyProcess.cxx:132-145). */
    method AddFlux(cellN: int, wd: Work)
      modifies this
      ensures cellFlux == AddFluxSpec(old(cellFlux), cellN, wd) && nps == old(nps)
    {
      if cellN !in cellFlux {
        cellFlux := cellFlux[cellN := wd];
      } else {
        cellFlux := cellFlux[cellN := Summed(cellFlux[cellN], wd)];
      }
    }

    /** readWorkEnergy (tallyProcess.cxx:260-306): on success the position
        after the table. */
    method ReadWorkEnergy(lines: seq<TLine>, pos0: nat, npsFile: int, cellName: seq<int>) returns (r: Result<nat>)
      requires pos0 <= |lines|
      modifies this
      ensures var e := ReadWorkEnergySpec(old(cellFlux), lines, pos0, npsFile, cellName);
        r.Ok? == e.Ok?
        && (e.Ok? ==> cellFlux == e.value.0 && r.value == e.value.1)
        && (e.Fail? ==> cellFlux == old(cellFlux) && r.fault == e.fault)
      ensures nps == old(nps)
    {
      var rows := ReadRows(lines, pos0, |cellName|);
      if rows.Fail? {
        return Fail(rows.fault);
      }
      AddSeries(cellName, Finish(rows.value.0, npsFile));
      return Ok(rows.value.1);
    }

    /** The loop of readWorkEnergy that adds each cell's series in list
        order (tallyProcess.cxx:299-303). */
    method AddSeries(cells: seq<int>, ws: seq<Work>)
      requires |cells| == |ws|
      modifies this
      ensures cellFlux == AddAll(old(cellFlux), cells, ws) && nps == old(nps)
    {
      var index := 0;
      while index < |cells|
        invariant 0 <= index <= |cells|
        invariant cellFlux == AddAll(old(cellFlux), cells[..index], ws[..index]) && nps == old(nps)
      {
        assert cells[..index + 1][..index] == cells[..index];
        assert ws[..index + 1][..index] == ws[..index];
        AddFlux(cells[index], ws[index]);
        index := index + 1;
      }
      assert cells[..|cells|] == cells && ws[..|ws|] == ws;
    }

    /** getFluxTally (tallyProcess.cxx:180-226): scans one tally's tables
        and, unless a table threw, adds the file's sample count. */
    method GetFluxTally(lines: seq<TLine>, pos0: nat, npsFile: int) returns (pos: nat, fault: Option<Fault>)
      requires pos0 <= |lines|
      modifies this
      ensures var s := FluxScan(old(cellFlux), lines, pos0, npsFile);
        cellFlux == s.flux && fault == s.fault && pos == s.pos
        && nps == (if s.fault.None? then old(nps) + npsFile else old(nps))
    {
      pos := pos0;
      ghost var s0 := FluxScan(cellFlux, lines, pos0, npsFile);
      while pos < |lines| && !lines[pos].rule
        invariant pos <= |lines| && nps == old(nps)
        invariant s0 == (if pos < |lines| && lines[pos].rule then Scan(cellFlux, pos + 1, None)
                         else FluxScan(cellFlux, lines, pos, npsFile))
        decreases |lines| - pos
      {
        var t := lines[pos].toks;
        if IsCellTag(t) {
          var cells := LeadingInts(t[1..]);
          if pos + 1 == |lines| {
            pos := |lines|;
          } else if IsEnergyTag(lines[pos + 1].toks) {
            var e := ReadWorkEnergy(lines, pos + 2, npsFile, cells);
            if e.Fail? {
              return pos, Some(e.fault);
            }
            pos := e.value;
          } else {
            pos := pos + 2;
          }
        } else {
          pos := pos + 1;
        }
      }
      if pos < |lines| {
        pos := pos + 1;
      }
      nps := nps + npsFile;
      fault := None;
    }

    /** readMCNP (tallyProcess.cxx:309-332); `isOpen` says whether a
        non-empty name's file could be opened, and `lines` are its lines. */
    method ReadMcnp(fName: string, isOpen: bool, lines: seq<TLine>) returns (r: Outcome)
      modifies this
      ensures var s := ReadMcnpSpec(old(cellFlux), old(nps), fName, isOpen, lines);
        cellFlux == s.0 && nps == s.1 && (r.Done? <==> s.2.None?) && (r.Failed? ==> s.2 == Some(r.fault))
    {
      if fName != "" && !isOpen {
        return Failed(FileError(0));
      }
      var stream := ScannedLines(fName, lines);
      var tallyN := 0;
      var pos := 0;
      ghost var s0 := McnpScan(cellFlux, nps, stream, 0, 0);
      while true
        invariant pos <= |stream|
        invariant s0 == McnpScan(cellFlux, nps, stream, pos, tallyN)
        decreases |stream| - pos
      {
        var found, n, npsFile, next := Find1Tally(stream, pos);
        if !found {
          break;
        }
        tallyN := n;
        var p, fault := GetFluxTally(stream, next, npsFile);
        if fault.Some? {
          return Failed(fault.value);
        }
        pos := p;
      }
      if tallyN == 0 {
        return Failed(FileError(1));
      }
      return Done;
    }

    /** isValid (tallyProcess.cxx:335-348). */
    method IsValid(cellN: int, tol: real, integrate: Work -> real) returns (r: Result<bool>)
      ensures r == IsValidSpec(cellFlux, cellN, tol, integrate)
    {
      var wd := GetWorkData(cellN);
      if wd.Fail? {
        return Fail(wd.fault);
      }
      return Ok(!(integrate(wd.value) < tol));
    }
  }
}
