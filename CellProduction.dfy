/** The isotope production ledger of one cell (cellProduction). Three maps
    keyed by ZAID hold what is produced, what is destroyed and the signed
    net change. Only the value part of each entry is modelled: the paired
    error of `doubleErr` is not (see the README). */
module Production {
  import opened Common

  /** A map from ZAID to a value (the source's CTYPE). */
  type Tally = map<int, real>

  /** The ZAID of atomic number `z`, neutron number `n` and metastable
      level `meta`. */
  function ZaidKey(z: int, n: int, meta: int): int
  {
    z * 10000 + (n + z) * 10 + meta
  }

  /** The value a tally holds for `k`, with a missing key standing for 0. */
  function Part(m: Tally, k: int): real
  {
    if k in m then m[k] else 0.0
  }

  /** Insert-or-accumulate: an existing entry has `v` added, a missing one is
      created holding `v`. No other key changes. */
  function Accumulate(m: Tally, k: int, v: real): (r: Tally)
    ensures r.Keys == m.Keys + {k}
    ensures Part(r, k) == Part(m, k) + v
    ensures forall j :: j != k ==> Part(r, j) == Part(m, j)
  {
    if k in m then m[k := m[k] + v] else m[k := v]
  }

  /** The three maps of a cell. */
  datatype Ledger = Ledger(prod: Tally, loss: Tally, total: Tally)

  const Empty := Ledger(map[], map[], map[])

  function AddProdSpec(l: Ledger, z: int, n: int, meta: int, frac: real): Ledger
  {
    l.(prod := Accumulate(l.prod, ZaidKey(z, n, meta), frac))
  }

  /** Destruction is always recorded in the ground state. */
  function AddDestructSpec(l: Ledger, z: int, n: int, frac: real): Ledger
  {
    l.(loss := Accumulate(l.loss, ZaidKey(z, n, 0), frac))
  }

  function AddTotalSpec(l: Ledger, z: int, n: int, meta: int, frac: real): Ledger
  {
    l.(total := Accumulate(l.total, ZaidKey(z, n, meta), frac))
  }

  /** cellIndexProd (cellProduction.cxx:108-140): index 0 and 1 are
      production, index 2 is destruction, any other index throws. */
  function CellIndexProdSpec(l: Ledger, index: nat, z: int, n: int, meta: int, frac: real): Result<Ledger>
  {
    if index <= 1 then Ok(AddTotalSpec(AddProdSpec(l, z, n, meta, frac), z, n, meta, frac))
    else if index == 2 then Ok(AddTotalSpec(AddDestructSpec(l, z, n, frac), z, n, 0, -frac))
    else Fail(IndexError)
  }

  /** Production adds `frac` under the full ZAID to the production and the
      total maps and leaves the loss map alone. */
  lemma CellIndexProduction(l: Ledger, index: nat, z: int, n: int, meta: int, frac: real)
    requires index <= 1
    ensures var r := CellIndexProdSpec(l, index, z, n, meta, frac);
      r.Ok? && r.value.loss == l.loss
      && Part(r.value.prod, ZaidKey(z, n, meta)) == Part(l.prod, ZaidKey(z, n, meta)) + frac
      && Part(r.value.total, ZaidKey(z, n, meta)) == Part(l.total, ZaidKey(z, n, meta)) + frac
      && r.value.prod.Keys == l.prod.Keys + {ZaidKey(z, n, meta)}
      && r.value.total.Keys == l.total.Keys + {ZaidKey(z, n, meta)}
      && (forall k :: k != ZaidKey(z, n, meta) ==>
            Part(r.value.prod, k) == Part(l.prod, k) && Part(r.value.total, k) == Part(l.total, k))
  {
  }

  /** Destruction adds `frac` to the loss map and subtracts it from the total
      map, both under the ground-state ZAID, and leaves production alone. */
  lemma CellIndexDestruction(l: Ledger, z: int, n: int, meta: int, frac: real)
    ensures var r := CellIndexProdSpec(l, 2, z, n, meta, frac);
      r.Ok? && r.value.prod == l.prod
      && Part(r.value.loss, ZaidKey(z, n, 0)) == Part(l.loss, ZaidKey(z, n, 0)) + frac
      && Part(r.value.total, ZaidKey(z, n, 0)) == Part(l.total, ZaidKey(z, n, 0)) - frac
      && r.value.loss.Keys == l.loss.Keys + {ZaidKey(z, n, 0)}
      && (forall k :: k != ZaidKey(z, n, 0) ==>
            Part(r.value.loss, k) == Part(l.loss, k) && Part(r.value.total, k) == Part(l.total, k))
  {
  }

  /** Any other index throws an index error and records nothing. */
  lemma CellIndexOther(l: Ledger, index: nat, z: int, n: int, meta: int, frac: real)
    ensures CellIndexProdSpec(l, index, z, n, meta, frac).Ok? <==> index <= 2
  {
  }

  /** Every entry multiplied by `v`. */
  function ScaledBy(m: Tally, v: real): (r: Tally)
    ensures r.Keys == m.Keys
  {
    map k | k in m :: m[k] * v
  }

  function ScaleLedger(l: Ledger, v: real): Ledger
  {
    Ledger(ScaledBy(l.prod, v), ScaledBy(l.loss, v), ScaledBy(l.total, v))
  }

  /** Scaling twice is scaling by the product. */
  lemma ScaleTwice(m: Tally, a: real, b: real)
    ensures ScaledBy(ScaledBy(m, a), b) == ScaledBy(m, a * b)
  {
    forall k | k in m ensures ScaledBy(ScaledBy(m, a), b)[k] == ScaledBy(m, a * b)[k] {
      assert ScaledBy(ScaledBy(m, a), b)[k] == (m[k] * a) * b;
    }
  }

  /** The mean of `x` and `y` weighted by `o` and `n`. */
  function Mean(x: real, y: real, o: real, n: real): real
    requires o + n != 0.0
  {
    (x * o + y * n) / (o + n)
  }

  lemma MeanOneSided(x: real, oldNPS: int, newNPS: int)
    requires oldNPS + newNPS != 0
    ensures Mean(x, 0.0, oldNPS as real, newNPS as real)
      == x * oldNPS as real / (oldNPS + newNPS) as real
    ensures Mean(0.0, x, newNPS as real, oldNPS as real)
      == x * oldNPS as real / (oldNPS + newNPS) as real
  {
    var o, n := oldNPS as real, newNPS as real;
    assert o + n == n + o == (oldNPS + newNPS) as real;
  }

  /** The weighted sum divided by the total count is the weighted mean. */
  lemma MeanOfCounts(x: real, y: real, sum: real, v: real, oldNPS: int, newNPS: int)
    requires oldNPS + newNPS != 0
    requires sum == x * oldNPS as real + y * newNPS as real
    requires v == sum / (oldNPS + newNPS) as real
    ensures v == Mean(x, y, oldNPS as real, newNPS as real)
  {
  }

  lemma MeanSymmetric(x: real, y: real, o: real, n: real)
    requires o + n != 0.0
    ensures Mean(x, y, o, n) == Mean(y, x, n, o)
  {
    assert x * o + y * n == y * n + x * o;
    assert o + n == n + o;
  }

  lemma MeanSame(x: real, o: real, n: real)
    requires o + n != 0.0
    ensures Mean(x, x, o, n) == x
  {
    assert x * o + x * n == x * (o + n);
  }

  /** The sample-weighted merge of scaleSum on one key: the weighted mean of
      the two values, a side that lacks the key counting as 0. */
  function MergeValue(a: Tally, b: Tally, k: int, oldNPS: int, newNPS: int): real
    requires oldNPS + newNPS != 0
  {
    Mean(Part(a, k), Part(b, k), oldNPS as real, newNPS as real)
  }

  function Merge(a: Tally, b: Tally, oldNPS: int, newNPS: int): (r: Tally)
    requires oldNPS + newNPS != 0
    ensures r.Keys == a.Keys + b.Keys
  {
    map k | k in a.Keys + b.Keys :: MergeValue(a, b, k, oldNPS, newNPS)
  }

  lemma MergeAt(a: Tally, b: Tally, oldNPS: int, newNPS: int, k: int)
    requires oldNPS + newNPS != 0
    ensures Part(Merge(a, b, oldNPS, newNPS), k)
      == (if k in a || k in b then MergeValue(a, b, k, oldNPS, newNPS) else 0.0)
  {
  }

  lemma ScaledAt(m: Tally, c: real, k: int)
    ensures Part(ScaledBy(m, c), k) == Part(m, k) * c
  {
  }

  /** The three cases of the merge: a key in both maps, in the first only,
      in the second only. */
  lemma MergeCases(a: Tally, b: Tally, oldNPS: int, newNPS: int, k: int)
    requires oldNPS + newNPS != 0
    ensures var r := Merge(a, b, oldNPS, newNPS); var s := (oldNPS + newNPS) as real;
      (k in a && k in b ==> r[k] == (a[k] * oldNPS as real + b[k] * newNPS as real) / s)
      && (k in a && k !in b ==> r[k] == a[k] * oldNPS as real / s)
      && (k !in a && k in b ==> r[k] == b[k] * newNPS as real / s)
      && (k !in a && k !in b ==> k !in r)
  {
    MergeAt(a, b, oldNPS, newNPS, k);
    if k in a && k !in b {
      var r := Merge(a, b, oldNPS, newNPS);
      assert k in r;
      assert r[k] == Mean(a[k], 0.0, oldNPS as real, newNPS as real);
      MeanOneSided(a[k], oldNPS, newNPS);
    } else if k !in a && k in b {
      MeanOneSided(b[k], newNPS, oldNPS);
    }
  }

  /** Merging is symmetric in the two batches taken with their weights. */
  lemma MergeSymmetric(a: Tally, b: Tally, oldNPS: int, newNPS: int)
    requires oldNPS + newNPS != 0
    ensures Merge(a, b, oldNPS, newNPS) == Merge(b, a, newNPS, oldNPS)
  {
    var r, q := Merge(a, b, oldNPS, newNPS), Merge(b, a, newNPS, oldNPS);
    forall k | k in r ensures k in q && r[k] == q[k] {
      MeanSymmetric(Part(a, k), Part(b, k), oldNPS as real, newNPS as real);
    }
    forall k | k in q ensures k in r {
    }
  }

  /** Merging a batch with an identical one leaves it unchanged. */
  lemma MergeIdentical(a: Tally, oldNPS: int, newNPS: int)
    requires oldNPS + newNPS != 0
    ensures Merge(a, a, oldNPS, newNPS) == a
  {
    var r := Merge(a, a, oldNPS, newNPS);
    forall k | k in r ensures k in a && r[k] == a[k] {
      MeanSame(a[k], oldNPS as real, newNPS as real);
    }
    forall k | k in a ensures k in r {
    }
  }

  /** A batch of weight 0 adds its new keys with value 0 and leaves every
      other value as it was. */
  lemma MergeWeightZero(a: Tally, b: Tally, oldNPS: int)
    requires oldNPS != 0
    ensures var r := Merge(a, b, oldNPS, 0);
      (forall k :: k in a ==> r[k] == a[k]) && (forall k :: k in b && k !in a ==> r[k] == 0.0)
  {
    var r := Merge(a, b, oldNPS, 0);
    forall k | k in a ensures r[k] == a[k] {
      assert r[k] == Mean(a[k], Part(b, k), oldNPS as real, 0.0);
    }
    forall k | k in b && k !in a ensures r[k] == 0.0 {
      assert r[k] == Mean(0.0, b[k], oldNPS as real, 0.0);
    }
  }

  function MergeLedger(l: Ledger, m: Ledger, oldNPS: int, newNPS: int): Ledger
    requires oldNPS + newNPS != 0
  {
    Ledger(Merge(l.prod, m.prod, oldNPS, newNPS), Merge(l.loss, m.loss, oldNPS, newNPS),
      Merge(l.total, m.total, oldNPS, newNPS))
  }

  /** Weighted means nest: averaging `a` with `b` and the result with `c`,
      each with its accumulated weight, is averaging `a` with the mean of
      `b` and `c`. */
  lemma MeanAssoc(a: real, b: real, c: real, x: real, y: real, z: real)
    requires x + y != 0.0 && y + z != 0.0 && x + y + z != 0.0
    ensures Mean(Mean(a, b, x, y), c, x + y, z) == Mean(a, Mean(b, c, y, z), x, y + z)
  {
    var p, q := a * x + b * y, b * y + c * z;
    assert (p / (x + y)) * (x + y) == p;
    assert (q / (y + z)) * (y + z) == q;
    assert Mean(Mean(a, b, x, y), c, x + y, z) == (a * x + b * y + c * z) / (x + y + z);
    assert Mean(a, Mean(b, c, y, z), x, y + z) == (a * x + b * y + c * z) / (x + y + z);
  }

  /** Every key of a merge, present or not, holds the weighted mean of the
      two sides. */
  lemma MergePart(a: Tally, b: Tally, oldNPS: int, newNPS: int, k: int)
    requires oldNPS + newNPS != 0
    ensures Part(Merge(a, b, oldNPS, newNPS), k)
      == Mean(Part(a, k), Part(b, k), oldNPS as real, newNPS as real)
  {
    MergeAt(a, b, oldNPS, newNPS, k);
  }

  /** Merging is associative: merging three batches in either grouping,
      each side carrying the sum of its sample counts, gives the same
      tally. */
  lemma MergeAssoc(a: Tally, b: Tally, c: Tally, x: int, y: int, z: int)
    requires x + y != 0 && y + z != 0 && x + y + z != 0
    ensures Merge(Merge(a, b, x, y), c, x + y, z) == Merge(a, Merge(b, c, y, z), x, y + z)
  {
    var l, r := Merge(Merge(a, b, x, y), c, x + y, z), Merge(a, Merge(b, c, y, z), x, y + z);
    forall k | k in l ensures k in r && l[k] == r[k] {
      MergePart(a, b, x, y, k);
      MergePart(b, c, y, z, k);
      MergePart(Merge(a, b, x, y), c, x + y, z, k);
      MergePart(a, Merge(b, c, y, z), x, y + z, k);
      MeanAssoc(Part(a, k), Part(b, k), Part(c, k), x as real, y as real, z as real);
    }
    forall k | k in r ensures k in l {
    }
  }

  /** The ledger merge of addComponent is associative in the same way. */
  lemma MergeLedgerAssoc(a: Ledger, b: Ledger, c: Ledger, x: int, y: int, z: int)
    requires x + y != 0 && y + z != 0 && x + y + z != 0
    ensures MergeLedger(MergeLedger(a, b, x, y), c, x + y, z)
      == MergeLedger(a, MergeLedger(b, c, y, z), x, y + z)
  {
    MergeAssoc(a.prod, b.prod, c.prod, x, y, z);
    MergeAssoc(a.loss, b.loss, c.loss, x, y, z);
    MergeAssoc(a.total, b.total, c.total, x, y, z);
  }

  /** The sum of the values of `m` over the keys `ks`, a missing key counting
      as 0. The order of summation is immaterial (`SumOverPick`). */
  ghost function SumOver(m: Tally, ks: set<int>): real
    decreases ks
  {
    if exists k :: k in ks then
      var k :| k in ks;
      Part(m, k) + SumOver(m, ks - {k})
    else 0.0
  }

  /** getTotal's value: the sum of every entry of the total map. */
  ghost function SumOf(m: Tally): real
  {
    SumOver(m, m.Keys)
  }

  /** Any key may be taken out of the sum first. */
  lemma {:induction false} SumOverPick(m: Tally, ks: set<int>, j: int)
    requires j in ks
    ensures SumOver(m, ks) == Part(m, j) + SumOver(m, ks - {j})
    decreases ks
  {
    var k :| k in ks && SumOver(m, ks) == Part(m, k) + SumOver(m, ks - {k});
    if k != j {
      SumOverPick(m, ks - {k}, j);
      SumOverPick(m, ks - {j}, k);
      assert ks - {k} - {j} == ks - {j} - {k};
    }
  }

  /** Sums over sets with the same members agree. */
  lemma {:induction false} SumOverSame(m: Tally, ks: set<int>, js: set<int>)
    requires forall k :: k in ks <==> k in js
    ensures SumOver(m, ks) == SumOver(m, js)
    decreases ks
  {
    if exists k :: k in ks {
      var k :| k in ks && SumOver(m, ks) == Part(m, k) + SumOver(m, ks - {k});
      SumOverPick(m, js, k);
      SumOverSame(m, ks - {k}, js - {k});
    } else {
      assert !exists k :: k in js;
    }
  }

  /** Sums of maps that agree on the keys summed over agree. */
  lemma {:induction false} SumOverEqual(g: Tally, a: Tally, ks: set<int>)
    requires forall k :: k in ks ==> Part(g, k) == Part(a, k)
    ensures SumOver(g, ks) == SumOver(a, ks)
    decreases ks
  {
    if exists k :: k in ks {
      var k :| k in ks && SumOver(g, ks) == Part(g, k) + SumOver(g, ks - {k});
      SumOverPick(a, ks, k);
      SumOverEqual(g, a, ks - {k});
    }
  }

  /** A sum of values multiplied by `c` is the sum multiplied by `c`. */
  lemma {:induction false} SumOverScale(g: Tally, a: Tally, c: real, ks: set<int>)
    requires forall k :: k in ks ==> Part(g, k) == Part(a, k) * c
    ensures SumOver(g, ks) == SumOver(a, ks) * c
    decreases ks
  {
    if exists k :: k in ks {
      var k :| k in ks && SumOver(g, ks) == Part(g, k) + SumOver(g, ks - {k});
      var rest := ks - {k};
      SumOverPick(a, ks, k);
      SumOverScale(g, a, c, rest);
      Distribute(c, Part(a, k), SumOver(a, rest), SumOver(a, ks));
    } else {
      assert SumOver(a, ks) == 0.0 && SumOver(g, ks) == 0.0;
    }
  }

  lemma ScaledSum(m: Tally, c: real, ks: set<int>)
    ensures SumOver(ScaledBy(m, c), ks) == SumOver(m, ks) * c
  {
    forall k | k in ks ensures Part(ScaledBy(m, c), k) == Part(m, k) * c {
      ScaledAt(m, c, k);
    }
    SumOverScale(ScaledBy(m, c), m, c, ks);
  }

  lemma Distribute(c: real, x1: real, x2: real, x: real)
    requires x == x1 + x2
    ensures x1 * c + x2 * c == x * c
  {
  }

  /** Keys outside a map add nothing to a sum. */
  lemma {:induction false} SumOverOutside(m: Tally, ks: set<int>)
    requires forall k :: k in m ==> k in ks
    ensures SumOver(m, ks) == SumOf(m)
    decreases ks
  {
    if exists j :: j in ks && j !in m {
      var j :| j in ks && j !in m;
      SumOverPick(m, ks, j);
      SumOverOutside(m, ks - {j});
    } else {
      SumOverSame(m, ks, m.Keys);
    }
  }

  /** Accumulating `v` under a key raises the total by `v`. */
  lemma AccumulateSum(m: Tally, k: int, v: real)
    ensures SumOf(Accumulate(m, k, v)) == SumOf(m) + v
  {
    var r := Accumulate(m, k, v);
    var ks := m.Keys + {k};
    SumOverPick(r, ks, k);
    SumOverEqual(r, m, ks - {k});
    SumOverOutside(m, ks);
    SumOverPick(m, ks, k);
  }

  /** Scaling every entry scales the total. */
  lemma ScaleTotal(m: Tally, v: real)
    ensures SumOf(ScaledBy(m, v)) == SumOf(m) * v
  {
    ScaledSum(m, v, m.Keys);
  }

  /** Every entry multiplied by `v`, in place (cellProduction.cxx:264-269). */
  method ScaleTally(m: Tally, v: real) returns (r: Tally)
    ensures r == ScaledBy(m, v)
  {
    r := m;
    var rest := m.Keys;
    while exists k :: k in rest
      invariant forall k :: k in rest ==> k in m
      invariant forall k :: k in r <==> k in m
      invariant forall k :: k in m ==> r[k] == (if k in rest then m[k] else m[k] * v)
      decreases rest
    {
      var k :| k in rest;
      r := r[k := r[k] * v];
      rest := rest - {k};
    }
    forall k | k in r ensures k in ScaledBy(m, v) && r[k] == ScaledBy(m, v)[k] {
    }
    forall k | k in ScaledBy(m, v) ensures k in r {
    }
  }

  /** scaleSum (cellProduction.cxx:275-314): the map `a` takes the merge of
      itself and `b`, weighted by the sample counts. Its three passes run
      over the keys of `a`, then the keys of `b`, then every key. */
  method ScaleSumMaps(a: Tally, b: Tally, oldNPS: int, newNPS: int) returns (r: Tally)
    requires oldNPS + newNPS != 0
    ensures r == Merge(a, b, oldNPS, newNPS)
  {
    var o, n := oldNPS as real, newNPS as real;
    var r1 := WeighShared(a, b, o, n);
    var r2 := InsertMissing(r1, a, b, o, n);
    var s := (oldNPS + newNPS) as real;
    r := DivideAll(r2, s);
    PassesMerge(a, b, oldNPS, newNPS, r2, r);
  }

  /** The three passes of scaleSum compute the merge. */
  lemma PassesMerge(a: Tally, b: Tally, oldNPS: int, newNPS: int, r2: Tally, r: Tally)
    requires oldNPS + newNPS != 0
    requires forall k :: k in r2 <==> k in a || k in b
    requires forall k :: k in r2 ==> r2[k] == Part(a, k) * oldNPS as real + Part(b, k) * newNPS as real
    requires forall k :: k in r <==> k in r2
    requires forall k :: k in r2 ==> r[k] == r2[k] / (oldNPS + newNPS) as real
    ensures r == Merge(a, b, oldNPS, newNPS)
  {
    var m := Merge(a, b, oldNPS, newNPS);
    forall k | k in r ensures k in m && r[k] == m[k] {
      assert m[k] == MergeValue(a, b, k, oldNPS, newNPS);
      MeanOfCounts(Part(a, k), Part(b, k), r2[k], r[k], oldNPS, newNPS);
    }
    forall k | k in m ensures k in r {
    }
  }

  /** The first pass: each entry of `a` weighted by `o`, plus the entry of
      `b` weighted by `n` when `b` has the key. */
  method WeighShared(a: Tally, b: Tally, o: real, n: real) returns (r: Tally)
    ensures forall k :: k in r <==> k in a
    ensures forall k :: k in a ==> r[k] == a[k] * o + Part(b, k) * n
  {
    r := a;
    var rest := a.Keys;
    while exists k :: k in rest
      invariant forall k :: k in rest ==> k in a
      invariant forall k :: k in r <==> k in a
      invariant forall k :: k in a ==> r[k] == (if k in rest then a[k] else a[k] * o + Part(b, k) * n)
      decreases rest
    {
      var k :| k in rest;
      if k !in b {
        r := r[k := r[k] * o];
      } else {
        r := r[k := r[k] * o + b[k] * n];
      }
      rest := rest - {k};
    }
  }

  /** The second pass: the keys of `b` missing from the result are inserted
      with the entry of `b` weighted by `n`. */
  method InsertMissing(r0: Tally, a: Tally, b: Tally, o: real, n: real) returns (r: Tally)
    requires forall k :: k in r0 <==> k in a
    requires forall k :: k in a ==> r0[k] == a[k] * o + Part(b, k) * n
    ensures forall k :: k in r <==> k in a || k in b
    ensures forall k :: k in r ==> r[k] == Part(a, k) * o + Part(b, k) * n
  {
    r := r0;
    var rest := b.Keys;
    while exists k :: k in rest
      invariant forall k :: k in rest ==> k in b
      invariant forall k :: k in r <==> k in a || (k in b && k !in rest)
      invariant forall k :: k in r ==> r[k] == Part(a, k) * o + Part(b, k) * n
      decreases rest
    {
      var k :| k in rest;
      if k !in r {
        r := r[k := b[k] * n];
      }
      rest := rest - {k};
    }
  }

  /** The last pass: every entry divided by `s`. */
  method DivideAll(r0: Tally, s: real) returns (r: Tally)
    requires s != 0.0
    ensures forall k :: k in r <==> k in r0
    ensures forall k :: k in r0 ==> r[k] == r0[k] / s
  {
    r := r0;
    var rest := r0.Keys;
    while exists k :: k in rest
      invariant forall k :: k in rest ==> k in r0
      invariant forall k :: k in r <==> k in r0
      invariant forall k :: k in r0 ==> r[k] == (if k in rest then r0[k] else r0[k] / s)
      decreases rest
    {
      var k :| k in rest;
      r := r[k := r[k] / s];
      rest := rest - {k};
    }
  }

  /** One cell's ledger as an object whose maps are updated in place. */
  class CellProduction {
    var elmProd: Tally
    var elmLoss: Tally
    var elmTotal: Tally

    function Value(): Ledger
      reads this
    {
      Ledger(elmProd, elmLoss, elmTotal)
    }

    /** The default constructor (cellProduction.cxx:67-71): no entries. */
    constructor ()
      ensures Value() == Empty
    {
      elmProd, elmLoss, elmTotal := map[], map[], map[];
    }

    /** The copy constructor (cellProduction.cxx:73-80). */
    constructor Copy(a: CellProduction)
      ensures Value() == a.Value()
    {
      elmProd, elmLoss, elmTotal := a.elmProd, a.elmLoss, a.elmTotal;
    }

    /** Assignment (cellProduction.cxx:82-97). */
    method Assign(a: CellProduction)
      modifies this
      ensures Value() == old(a.Value())
    {
      if a != this {
        elmProd, elmLoss, elmTotal := a.elmProd, a.elmLoss, a.elmTotal;
      }
    }

    method AddProd(z: int, n: int, meta: int, frac: real)
      modifies this
      ensures Value() == AddProdSpec(old(Value()), z, n, meta, frac)
    {
      var k := ZaidKey(z, n, meta);
      if k in elmProd {
        elmProd := elmProd[k := elmProd[k] + frac];
      } else {
        elmProd := elmProd[k := frac];
      }
    }

    method AddDestruct(z: int, n: int, frac: real)
      modifies this
      ensures Value() == AddDestructSpec(old(Value()), z, n, frac)
    {
      var k := ZaidKey(z, n, 0);
      if k in elmLoss {
        elmLoss := elmLoss[k := elmLoss[k] + frac];
      } else {
        elmLoss := elmLoss[k := frac];
      }
    }

    method AddTotal(z: int, n: int, meta: int, frac: real)
      modifies this
      ensures Value() == AddTotalSpec(old(Value()), z, n, meta, frac)
    {
      var k := ZaidKey(z, n, meta);
      if k in elmTotal {
        elmTotal := elmTotal[k := elmTotal[k] + frac];
      } else {
        elmTotal := elmTotal[k := frac];
      }
    }

    method CellIndexProd(index: nat, z: int, n: int, meta: int, frac: real) returns (r: Outcome)
      modifies this
      ensures match CellIndexProdSpec(old(Value()), index, z, n, meta, frac)
        case Ok(l) => r == Done && Value() == l
        case Fail(e) => r == Failed(e) && Value() == old(Value())
    {
      if index <= 1 {
        AddProd(z, n, meta, frac);
        AddTotal(z, n, meta, frac);
        r := Done;
      } else if index == 2 {
        AddDestruct(z, n, frac);
        AddTotal(z, n, 0, -frac);
        r := Done;
      } else {
        r := Failed(IndexError);
      }
    }

    /** getTotal (cellProduction.cxx:239-252): the sum of the total map. */
    method GetTotal() returns (t: real)
      ensures t == SumOf(elmTotal)
    {
      t := 0.0;
      var rest := elmTotal.Keys;
      while exists k :: k in rest
        invariant forall k :: k in rest ==> k in elmTotal
        invariant t + SumOver(elmTotal, rest) == SumOf(elmTotal)
        decreases rest
      {
        var k :| k in rest;
        SumOverPick(elmTotal, rest, k);
        t := t + elmTotal[k];
        rest := rest - {k};
      }
    }

    /** scale (cellProduction.cxx:256-271). */
    method Scale(v: real)
      modifies this
      ensures Value() == ScaleLedger(old(Value()), v)
    {
      elmProd := ScaleTally(elmProd, v);
      elmLoss := ScaleTally(elmLoss, v);
      elmTotal := ScaleTally(elmTotal, v);
    }

    /** addComponent (cellProduction.cxx:319-337): merge another cell's
        ledger into this one, weighted by the two sample counts. */
    method AddComponent(a: CellProduction, oldNPS: int, newNPS: int)
      requires a != this && oldNPS + newNPS != 0
      modifies this
      ensures Value() == MergeLedger(old(Value()), a.Value(), oldNPS, newNPS)
    {
      elmProd := ScaleSumMaps(elmProd, a.elmProd, oldNPS, newNPS);
      elmLoss := ScaleSumMaps(elmLoss, a.elmLoss, oldNPS, newNPS);
      elmTotal := ScaleSumMaps(elmTotal, a.elmTotal, oldNPS, newNPS);
    }
  }
}
