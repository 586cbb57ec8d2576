/** A collision-count score (Score): for every neutron scored, its weight
    is added to a running total, and for neutrons with fewer than `maxCol`
    collisions also to the slot of their collision count. */
module Scoring {

  /** The sum of a sequence of counts. */
  function Sum(s: seq<nat>): nat
  {
    if s == [] then 0 else s[0] + Sum(s[1..])
  }

  /** Adding one to one slot adds one to the sum. */
  lemma {:induction false} SumIncrement(s: seq<nat>, k: nat)
    requires k < |s|
    ensures Sum(s[k := s[k] + 1]) == Sum(s) + 1
  {
    if k > 0 {
      assert s[k := s[k] + 1][1..] == s[1..][k - 1 := s[k] + 1];
      SumIncrement(s[1..], k - 1);
    } else {
      assert s[k := s[k] + 1][1..] == s[1..];
    }
  }

  /** A sequence of `n` zero counts sums to zero. */
  lemma {:induction false} SumZeros(n: nat)
    ensures Sum(seq(n, _ => 0)) == 0
  {
    if n > 0 {
      assert seq(n, _ => 0)[1..] == seq(n - 1, _ => 0);
      SumZeros(n - 1);
    }
  }

  /** The mutable part of a score: the collision number, the weight and the
      count of neutrons per collision count, the total weight and the
      number of neutrons scored. */
  datatype Tallies = Tallies(nCol: nat, wt: seq<real>, n: seq<nat>, plus: real, pCnt: int)

  /** A fresh score of `m` slots (Score.cxx:60-70). */
  function Fresh(m: nat): Tallies
  {
    Tallies(0, seq(m, _ => 0.0), seq(m, _ => 0), 0.0, 0)
  }

  /** addNeutron (Score.cxx:110-121) on a neutron of weight `w` that has
      had `k` collisions: the total and the count always grow, and the
      slot `k` only when `k < maxCol`. */
  function AddNeutronSpec(maxCol: nat, t: Tallies, w: real, k: nat): Tallies
    requires maxCol <= |t.wt| && maxCol <= |t.n|
  {
    if k < maxCol then
      Tallies(t.nCol, t.wt[k := t.wt[k] + w], t.n[k := t.n[k] + 1], t.plus + w, t.pCnt + 1)
    else
      t.(plus := t.plus + w, pCnt := t.pCnt + 1)
  }

  /** The slots and counts line up with `maxCol`, and no more neutrons are
      counted in the slots than were scored. */
  predicate Consistent(maxCol: nat, t: Tallies)
  {
    |t.wt| == maxCol && |t.n| == maxCol && Sum(t.n) <= t.pCnt
  }

  /** A fresh score is consistent. */
  lemma FreshConsistent(m: nat)
    ensures Consistent(m, Fresh(m))
  {
    SumZeros(m);
  }

  /** addNeutron keeps a score consistent: both arrays keep length maxCol
      and the slot counts never exceed the neutrons scored. */
  lemma AddNeutronConsistent(maxCol: nat, t: Tallies, w: real, k: nat)
    requires Consistent(maxCol, t)
    ensures Consistent(maxCol, AddNeutronSpec(maxCol, t, w, k))
  {
    if k < maxCol {
      SumIncrement(t.n, k);
    }
  }

  /** What addNeutron changes: the total gains the weight and the count one;
      slot `k` gains the weight and one neutron if `k < maxCol`; every other
      slot, and every slot when `k >= maxCol`, is unchanged. */
  lemma AddNeutronSlots(maxCol: nat, t: Tallies, w: real, k: nat)
    requires Consistent(maxCol, t)
    ensures var r := AddNeutronSpec(maxCol, t, w, k);
      r.plus == t.plus + w && r.pCnt == t.pCnt + 1 && r.nCol == t.nCol
      && |r.wt| == |t.wt| && |r.n| == |t.n|
      && (forall i :: 0 <= i < maxCol && i != k ==> r.wt[i] == t.wt[i] && r.n[i] == t.n[i])
      && (k < maxCol ==> r.wt[k] == t.wt[k] + w && r.n[k] == t.n[k] + 1)
  {
  }

  /** Scoring a neutron with too many collisions touches only the total and
      the count. */
  lemma OverflowKeepsSlots(maxCol: nat, t: Tallies, w: real, k: nat)
    requires Consistent(maxCol, t) && k >= maxCol
    ensures var r := AddNeutronSpec(maxCol, t, w, k);
      r.wt == t.wt && r.n == t.n && Sum(r.n) < r.pCnt
  {
  }

  /** The score object. */
  class Score {
    const maxCol: nat
    var nCol: nat
    var collisionWt: array<real>
    var collisionN: array<nat>
    var plus: real
    var pCnt: int

    function Value(): Tallies
      reads this, collisionWt, collisionN
    {
      Tallies(nCol, collisionWt[..], collisionN[..], plus, pCnt)
    }

    /** Both arrays hold at least `maxCol` slots, so that every slot
        addNeutron may touch exists. */
    predicate Valid()
      reads this
    {
      maxCol <= collisionWt.Length && maxCol <= collisionN.Length
    }

    /** The constructor (Score.cxx:60-70): `m` zero slots. */
    constructor (m: nat)
      ensures maxCol == m && Valid() && Value() == Fresh(m)
      ensures fresh(collisionWt) && fresh(collisionN)
    {
      maxCol := m;
      nCol := 0;
      collisionWt := new real[m](_ => 0.0);
      collisionN := new nat[m](_ => 0);
      plus := 0.0;
      pCnt := 0;
    }

    /** The assignment operator (Score.cxx:82-98): every field but the
        constant maxCol takes the other score's value; the vectors are
        copied, so the two scores share no storage. Copying from a score
        with fewer slots leaves fewer slots than maxCol. */
    method Assign(a: Score)
      modifies this
      ensures Value() == old(a.Value())
      ensures a != this ==> fresh(collisionWt) && fresh(collisionN)
      ensures a == this ==> collisionWt == old(collisionWt) && collisionN == old(collisionN)
      ensures Valid() <==> maxCol <= old(a.collisionWt.Length) && maxCol <= old(a.collisionN.Length)
    {
      if a != this {
        nCol := a.nCol;
        collisionWt := new real[a.collisionWt.Length](i reads a, a.collisionWt =>
          if 0 <= i < a.collisionWt.Length then a.collisionWt[i] else 0.0);
        collisionN := new nat[a.collisionN.Length](i reads a, a.collisionN =>
          if 0 <= i < a.collisionN.Length then a.collisionN[i] else 0);
        plus := a.plus;
        pCnt := a.pCnt;
      }
    }

    /** addNeutron (Score.cxx:110-121) for a neutron of weight `w` and `k`
        collisions. */
    method AddNeutron(w: real, k: nat)
      requires Valid()
      modifies this, collisionWt, collisionN
      ensures Valid() && Value() == AddNeutronSpec(maxCol, old(Value()), w, k)
      ensures collisionWt == old(collisionWt) && collisionN == old(collisionN)
    {
      plus := plus + w;
      if k < maxCol {
        collisionWt[k] := collisionWt[k] + w;
        collisionN[k] := collisionN[k] + 1;
      }
      pCnt := pCnt + 1;
    }
  }
}
