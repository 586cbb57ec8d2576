/** The cells that make up a named volume (CellInfo): two parallel lists
    holding each cell's number and its volume. */
module Volumes {

  /** The state of a volume: its name, its cell numbers and their volumes. */
  datatype Info = Info(volName: string, cellN: seq<int>, cellV: seq<real>)

  predicate Parallel(v: Info) { |v.cellN| == |v.cellV| }

  /** addCell (CellInfo.cxx:92-102) on values. */
  function AddCellSpec(v: Info, cn: int, cv: real): Info
  {
    v.(cellN := v.cellN + [cn], cellV := v.cellV + [cv])
  }

  /** The (cell, volume) pairs a volume holds, in order. */
  function Pairs(v: Info): (r: seq<(int, real)>)
    requires Parallel(v)
    ensures |r| == |v.cellN|
    ensures forall i :: 0 <= i < |r| ==> r[i] == (v.cellN[i], v.cellV[i])
  {
    seq(|v.cellN|, i requires 0 <= i < |v.cellN| => (v.cellN[i], v.cellV[i]))
  }

  /** addCell keeps the lists parallel, keeps every earlier entry and adds
      exactly the one pair at the end; the name is untouched. */
  lemma AddCellPairs(v: Info, cn: int, cv: real)
    requires Parallel(v)
    ensures var r := AddCellSpec(v, cn, cv);
      Parallel(r) && r.volName == v.volName && Pairs(r) == Pairs(v) + [(cn, cv)]
  {
    var r := AddCellSpec(v, cn, cv);
    var a, b := Pairs(r), Pairs(v) + [(cn, cv)];
    forall i | 0 <= i < |a|
      ensures a[i] == b[i]
    {
      if i < |v.cellN| {
        assert r.cellN[i] == v.cellN[i] && r.cellV[i] == v.cellV[i];
      } else {
        assert r.cellN[i] == cn && r.cellV[i] == cv;
      }
    }
  }

  /** Adding a list of pairs one after another. */
  function AddAll(v: Info, ps: seq<(int, real)>): Info
    decreases |ps|
  {
    if ps == [] then v else AddAll(AddCellSpec(v, ps[0].0, ps[0].1), ps[1..])
  }

  /** A volume built by adding the pairs `ps` one by one holds exactly `ps`,
      in order, after what it held before. */
  lemma {:induction false} AddAllPairs(v: Info, ps: seq<(int, real)>)
    requires Parallel(v)
    ensures Parallel(AddAll(v, ps)) && AddAll(v, ps).volName == v.volName
    ensures Pairs(AddAll(v, ps)) == Pairs(v) + ps
    decreases |ps|
  {
    if ps != [] {
      var v' := AddCellSpec(v, ps[0].0, ps[0].1);
      AddCellPairs(v, ps[0].0, ps[0].1);
      AddAllPairs(v', ps[1..]);
      assert Pairs(v) + [ps[0]] + ps[1..] == Pairs(v) + ps;
    }
  }

  /** The volume object. */
  class CellInfo {
    var volName: string
    var cellN: seq<int>
    var cellV: seq<real>

    function Value(): Info
      reads this
    {
      Info(volName, cellN, cellV)
    }

    /** The constructor (CellInfo.cxx:51-57): the name, and no cells. */
    constructor (vName: string)
      ensures Value() == Info(vName, [], []) && Parallel(Value())
    {
      volName, cellN, cellV := vName, [], [];
    }

    /** The assignment operator (CellInfo.cxx:68-83). */
    method Assign(a: CellInfo)
      modifies this
      ensures Value() == old(a.Value())
    {
      if a != this {
        volName, cellN, cellV := a.volName, a.cellN, a.cellV;
      }
    }

    /** addCell (CellInfo.cxx:92-102). */
    method AddCell(cn: int, cv: real)
      modifies this
      ensures Value() == AddCellSpec(old(Value()), cn, cv)
    {
      cellN := cellN + [cn];
      cellV := cellV + [cv];
    }
  }
}
