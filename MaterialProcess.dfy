/** The material reader (materialProcess): scans the input listing that an
    MCNP output file reproduces for the cell cards, to learn each cell's
    material, and for the material cards, to store each material's
    composition by number. */
module Materials {
  import opened Common

  /** One line of the listing: its text, and the whitespace-separated
      tokens of that text. */
  datatype CardLine = CardLine(text: string, toks: seq<Tok>)

  /** The text that ends both card sections. */
  const EndMark: string := "++ END ++"

  /** A stored material: its number and the items it was set from. How
      Material::setMaterial interprets the items is not part of this
      model; it is the `accept` parameter of the operations below. */
  datatype Mat = Mat(number: int, items: string)

  /** The material store. */
  type Store = map<int, Mat>

  // ---------------------------------------------------------------------
  // findCellCards / findMaterialCards

  /** The index of the first line from `pos` on whose text contains
      `marker`, or |lines| when there is none. */
  function MarkerAt(lines: seq<CardLine>, pos: nat, marker: string): (r: nat)
    requires pos <= |lines|
    ensures pos <= r <= |lines|
    ensures r < |lines| ==> Contains(lines[r].text, marker)
    decreases |lines| - pos
  {
    if pos == |lines| then pos
    else if Contains(lines[pos].text, marker) then pos
    else MarkerAt(lines, pos + 1, marker)
  }

  /** No line skipped by the search contains the marker. */
  lemma {:induction false} MarkerAtFirst(lines: seq<CardLine>, pos: nat, marker: string, i: nat)
    requires pos <= |lines| && pos <= i < MarkerAt(lines, pos, marker)
    ensures !Contains(lines[i].text, marker)
    decreases |lines| - pos
  {
    if i > pos {
      MarkerAtFirst(lines, pos + 1, marker, i);
    }
  }

  /** Searching from the second line finds the same marker line, one
      earlier in the tail. */
  lemma {:induction false} MarkerShiftFrom(lines: seq<CardLine>, pos: nat, marker: string)
    requires pos < |lines|
    ensures MarkerAt(lines, pos + 1, marker) == MarkerAt(lines[1..], pos, marker) + 1
    decreases |lines| - pos
  {
    if pos + 1 < |lines| {
      assert lines[1..][pos] == lines[pos + 1];
      if !Contains(lines[pos + 1].text, marker) {
        MarkerShiftFrom(lines, pos + 1, marker);
      }
    }
  }

  /** When the first line does not hold the marker, the marker line of
      the whole listing is one past the marker line of its tail. */
  lemma MarkerShift(lines: seq<CardLine>, marker: string)
    requires lines != [] && !Contains(lines[0].text, marker)
    ensures MarkerAt(lines, 0, marker) == MarkerAt(lines[1..], 0, marker) + 1
  {
    MarkerShiftFrom(lines, 0, marker);
  }

  /** The search loop of findCellCards and findMaterialCards
      (materialProcess.cxx:248-287): 1 and the line after the marker line
      when a line holds the marker, 0 and the end of the lines otherwise. */
  method ScanFor(lines: seq<CardLine>, pos0: nat, marker: string) returns (found: int, pos: nat)
    requires pos0 <= |lines|
    ensures var m := MarkerAt(lines, pos0, marker);
      (found == 1 <==> m < |lines|) && (found == 0 <==> m == |lines|)
      && pos == (if m < |lines| then m + 1 else |lines|)
  {
    pos := pos0;
    while pos < |lines|
      invariant pos0 <= pos <= |lines|
      invariant MarkerAt(lines, pos0, marker) == MarkerAt(lines, pos, marker)
      decreases |lines| - pos
    {
      if Contains(lines[pos].text, marker) {
        return 1, pos + 1;
      }
      pos := pos + 1;
    }
    return 0, pos;
  }

  // ---------------------------------------------------------------------
  // processCellCards

  /** One cell card of the listing read as `lineNumber cell material
      density`, or None when the four reads do not all succeed. */
  function CellCard(toks: seq<Tok>): Option<(int, int, real)>
  {
    if |toks| >= 4 && ParseInt(toks[1].text).Some? && ParseInt(toks[2].text).Some? && toks[3].num.Some? then
      Some((ParseInt(toks[1].text).value, ParseInt(toks[2].text).value, toks[3].num.value))
    else None
  }

  /** The material a cell card sets: only a non-zero material of a density
      strictly between 0 and 2, and only for a cell already in the map. */
  function CellCardStep(cellMat: map<int, int>, toks: seq<Tok>): map<int, int>
  {
    match CellCard(toks)
    case Some((c, mat, density)) =>
      if mat != 0 && 0.0 < density < 2.0 && c in cellMat then cellMat[c := mat] else cellMat
    case None => cellMat
  }

  /** processCellCards (materialProcess.cxx:145-193) on the lines after the
      cell-card marker: the cards up to the first end mark, in order. */
  function CellCardsRun(cellMat: map<int, int>, lines: seq<CardLine>): map<int, int>
    decreases |lines|
  {
    if lines == [] || Contains(lines[0].text, EndMark) then cellMat
    else CellCardsRun(CellCardStep(cellMat, lines[0].toks), lines[1..])
  }

  /** The cell cards never add or remove a cell, and every material they
      set is non-zero. */
  lemma {:induction false} CellCardsKeys(cellMat: map<int, int>, lines: seq<CardLine>)
    ensures var r := CellCardsRun(cellMat, lines);
      r.Keys == cellMat.Keys && forall c :: c in r ==> r[c] == cellMat[c] || r[c] != 0
    decreases |lines|
  {
    if lines != [] && !Contains(lines[0].text, EndMark) {
      var m := CellCardStep(cellMat, lines[0].toks);
      CellCardsKeys(m, lines[1..]);
      assert m.Keys == cellMat.Keys;
    }
  }

  /** Nothing after an end mark is read. */
  lemma {:induction false} CellCardsStop(cellMat: map<int, int>, a: seq<CardLine>, end: CardLine, b: seq<CardLine>)
    requires Contains(end.text, EndMark)
    ensures CellCardsRun(cellMat, a + [end] + b) == CellCardsRun(cellMat, a + [end])
    decreases |a|
  {
    if a == [] {
      assert (a + [end] + b)[0] == end && (a + [end])[0] == end;
    } else {
      assert (a + [end] + b)[0] == a[0] && (a + [end])[0] == a[0];
      assert (a + [end] + b)[1..] == a[1..] + [end] + b;
      assert (a + [end])[1..] == a[1..] + [end];
      if !Contains(a[0].text, EndMark) {
        CellCardsStop(CellCardStep(cellMat, a[0].toks), a[1..], end, b);
      }
    }
  }

  /** The material a line sets for cell `c` when it is a cell card for
      `c` that processCellCards accepts: a non-zero material of a density
      strictly between 0 and 2. */
  function CardFor(toks: seq<Tok>, c: int): Option<int>
  {
    match CellCard(toks)
    case Some((cell, mat, density)) =>
      if cell == c && mat != 0 && 0.0 < density < 2.0 then Some(mat) else None
    case None => None
  }

  /** A cell with no accepted card before the end mark keeps its material;
      so a cell whose material changed had such a card. */
  lemma {:induction false} CellCardsUntouched(cellMat: map<int, int>, lines: seq<CardLine>, c: int)
    requires c in cellMat
    requires forall j :: 0 <= j < MarkerAt(lines, 0, EndMark) ==> CardFor(lines[j].toks, c).None?
    ensures c in CellCardsRun(cellMat, lines) && CellCardsRun(cellMat, lines)[c] == cellMat[c]
    decreases |lines|
  {
    if lines != [] && !Contains(lines[0].text, EndMark) {
      MarkerShift(lines, EndMark);
      var m := CellCardStep(cellMat, lines[0].toks);
      assert CardFor(lines[0].toks, c).None?;
      assert c in m && m[c] == cellMat[c];
      forall j | 0 <= j < MarkerAt(lines[1..], 0, EndMark)
        ensures CardFor(lines[1..][j].toks, c).None?
      {
        assert lines[1..][j] == lines[j + 1];
      }
      CellCardsUntouched(m, lines[1..], c);
    }
  }

  /** The last accepted card for a cell before the end mark decides its
      material. */
  lemma {:induction false} CellCardsLast(cellMat: map<int, int>, lines: seq<CardLine>, c: int, i: nat)
    requires c in cellMat
    requires i < MarkerAt(lines, 0, EndMark) && CardFor(lines[i].toks, c).Some?
    requires forall j :: i < j < MarkerAt(lines, 0, EndMark) ==> CardFor(lines[j].toks, c).None?
    ensures c in CellCardsRun(cellMat, lines)
    ensures CellCardsRun(cellMat, lines)[c] == CardFor(lines[i].toks, c).value
    decreases |lines|
  {
    MarkerAtFirst(lines, 0, EndMark, 0);
    MarkerShift(lines, EndMark);
    var m := CellCardStep(cellMat, lines[0].toks);
    assert c in m;
    forall j | i <= j < MarkerAt(lines[1..], 0, EndMark)
      ensures CardFor(lines[1..][j].toks, c).None?
    {
      assert lines[1..][j] == lines[j + 1];
    }
    if i == 0 {
      assert m[c] == CardFor(lines[0].toks, c).value;
      CellCardsUntouched(m, lines[1..], c);
    } else {
      assert lines[1..][i - 1] == lines[i];
      CellCardsLast(m, lines[1..], c, i - 1);
    }
  }

  /** A cell whose material the cell cards change had an accepted card
      for it before the end mark. */
  lemma CellCardsChanged(cellMat: map<int, int>, lines: seq<CardLine>, c: int)
    requires c in cellMat
    requires c !in CellCardsRun(cellMat, lines) || CellCardsRun(cellMat, lines)[c] != cellMat[c]
    ensures exists j :: 0 <= j < MarkerAt(lines, 0, EndMark) && CardFor(lines[j].toks, c).Some?
  {
    if forall j :: 0 <= j < MarkerAt(lines, 0, EndMark) ==> CardFor(lines[j].toks, c).None? {
      CellCardsUntouched(cellMat, lines, c);
    }
  }

  // ---------------------------------------------------------------------
  // procMaterial

  /** A token starting with a decimal digit. */
  predicate DigitLed(t: string) { |t| > 0 && IsDigit(t[0]) }

  /** The leading tokens that start with a digit, as the item loop of
      procMaterial takes them (materialProcess.cxx:129-131). */
  function DigitItems(toks: seq<Tok>): (r: seq<string>)
    ensures |r| <= |toks|
    ensures forall i :: 0 <= i < |r| ==> r[i] == toks[i].text && DigitLed(r[i])
    ensures |r| < |toks| ==> !DigitLed(toks[|r|].text)
  {
    if toks == [] || !DigitLed(toks[0].text) then [] else [toks[0].text] + DigitItems(toks[1..])
  }

  /** Each item followed by one space. */
  function Joined(items: seq<string>): string
  {
    if items == [] then "" else items[0] + " " + Joined(items[1..])
  }

  /** procMaterial (materialProcess.cxx:111-141): material 0 is ignored; a
      number already stored is InContainerError; otherwise the material is
      set from the leading digit items and stored, or InvalidLine when
      setMaterial rejects them. */
  function ProcMaterialSpec(store: Store, matN: int, toks: seq<Tok>, accept: (int, string) -> bool): (Store, Option<Fault>)
  {
    if matN == 0 then (store, None)
    else if matN in store then (store, Some(InContainerError))
    else
      var items := Joined(DigitItems(toks));
      if accept(matN, items) then (store[matN := Mat(matN, items)], None)
      else (store, Some(InvalidLine))
  }

  /** Every stored material sits under its own non-zero number. */
  predicate Numbered(store: Store)
  {
    forall k :: k in store ==> k != 0 && store[k].number == k
  }

  /** procMaterial never replaces a material, stores at most the one it was
      given, keeps the store numbered, and fails only with the two faults
      named. */
  lemma ProcMaterialMeaning(store: Store, matN: int, toks: seq<Tok>, accept: (int, string) -> bool)
    requires Numbered(store)
    ensures var (r, f) := ProcMaterialSpec(store, matN, toks, accept);
      Numbered(r)
      && (f.Some? ==> r == store && (f.value == InContainerError <==> matN != 0 && matN in store))
      && (f.Some? ==> f.value == InContainerError || f.value == InvalidLine)
      && (f.None? && matN != 0 ==> matN !in store && r == store[matN := Mat(matN, Joined(DigitItems(toks)))])
      && (matN == 0 ==> r == store && f.None?)
  {
  }

  // ---------------------------------------------------------------------
  // processMaterialCards

  predicate IsLetter(c: char) { 'a' <= c <= 'z' || 'A' <= c <= 'Z' }

  /** The kind of a listing line after its line number is dropped. */
  datatype MatLine = NoItem | NewCard(index: int, rest: seq<Tok>) | Continuation(toks: seq<Tok>) | OtherCard

  /** `m` followed by the decimal digits of a material number. */
  predicate MCardName(t: string) { |t| > 1 && t[0] == 'm' && AllDigits(t[1..]) }

  /** How processMaterialCards (materialProcess.cxx:219-235) reads a line:
      a line with no token is skipped; after the line number, an `mN`
      card starts material N; a line that does not start with a letter
      continues the current material; any other card is skipped. */
  function ClassifyMatLine(toks: seq<Tok>): MatLine
  {
    if toks == [] then NoItem
    else
      var rest := toks[1..];
      if |rest| > 0 && MCardName(rest[0].text) then NewCard(DigitsValue(rest[0].text[1..]), rest[1..])
      else if |rest| > 0 && |rest[0].text| > 0 && IsLetter(rest[0].text[0]) then OtherCard
      else Continuation(rest)
  }

  /** The accumulation state: the current material number and its items. */
  datatype Pending = Pending(mIndex: int, matLine: seq<Tok>)

  /** The card loop over the lines after the material marker, up to the
      first end mark. A new card flushes the pending material through
      procMaterial; the first fault ends the loop. */
  function MatCardsRun(store: Store, p: Pending, lines: seq<CardLine>, accept: (int, string) -> bool): (r: (Store, Pending, Option<Fault>))
    decreases |lines|
  {
    if lines == [] || Contains(lines[0].text, EndMark) then (store, p, None)
    else
      match ClassifyMatLine(lines[0].toks)
      case NewCard(index, rest) =>
        var (s', f) := ProcMaterialSpec(store, p.mIndex, p.matLine, accept);
        if f.Some? then (s', p, f) else MatCardsRun(s', Pending(index, rest), lines[1..], accept)
      case Continuation(toks) => MatCardsRun(store, Pending(p.mIndex, p.matLine + toks), lines[1..], accept)
      case _ => MatCardsRun(store, p, lines[1..], accept)
  }

  /** processMaterialCards (materialProcess.cxx:199-245): the card loop
      from no pending material, then the last material, unless its number
      is 0. */
  function MatCardsSpec(store: Store, lines: seq<CardLine>, accept: (int, string) -> bool): (Store, Option<Fault>)
  {
    var (s, p, f) := MatCardsRun(store, Pending(0, []), lines, accept);
    if f.Some? || p.mIndex == 0 then (s, f) else ProcMaterialSpec(s, p.mIndex, p.matLine, accept)
  }

  /** The card loop keeps the store numbered and never changes or removes
      a material stored before. */
  lemma {:induction false} MatCardsKeeps(store: Store, p: Pending, lines: seq<CardLine>, accept: (int, string) -> bool)
    requires Numbered(store)
    ensures var (r, _, _) := MatCardsRun(store, p, lines, accept);
      Numbered(r) && forall k :: k in store ==> k in r && r[k] == store[k]
    decreases |lines|
  {
    if lines != [] && !Contains(lines[0].text, EndMark) {
      match ClassifyMatLine(lines[0].toks)
      case NewCard(index, rest) =>
        var (s', f) := ProcMaterialSpec(store, p.mIndex, p.matLine, accept);
        ProcMaterialMeaning(store, p.mIndex, p.matLine, accept);
        if f.None? {
          MatCardsKeeps(s', Pending(index, rest), lines[1..], accept);
        }
      case Continuation(toks) =>
        MatCardsKeeps(store, Pending(p.mIndex, p.matLine + toks), lines[1..], accept);
      case _ =>
        MatCardsKeeps(store, p, lines[1..], accept);
    }
  }

  /** A material card `mN` followed by a continuation line holds material N
      with the digit items of both lines, in order. */
  lemma OneMaterial(store: Store, digits: string, a: seq<Tok>, b: seq<Tok>, accept: (int, string) -> bool)
    requires |digits| > 0 && AllDigits(digits) && DigitsValue(digits) > 0
    requires DigitsValue(digits) !in store && accept(DigitsValue(digits), Joined(DigitItems(a + b)))
    requires |b| == 0 || |b[0].text| == 0 || !IsLetter(b[0].text[0])
    ensures var n := DigitsValue(digits);
      var card := CardLine("", [Tok("1-", None), Tok("m" + digits, None)] + a);
      var cont := CardLine("", [Tok("2-", None)] + b);
      MatCardsSpec(store, [card, cont], accept) == (store[n := Mat(n, Joined(DigitItems(a + b)))], None)
  {
    var n := DigitsValue(digits);
    var card := CardLine("", [Tok("1-", None), Tok("m" + digits, None)] + a);
    var cont := CardLine("", [Tok("2-", None)] + b);
    assert !Contains("", EndMark);
    assert ("m" + digits)[1..] == digits && ("m" + digits)[0] == 'm';
    CardClass("m" + digits, a);
    ContinuationClass(b);
    var ls := [card, cont];
    assert ls[1..] == [cont] && [cont][1..] == [];
    assert ProcMaterialSpec(store, 0, [], accept) == (store, None);
    assert MatCardsSpec(store, ls, accept) == FlushRun(store, Pending(0, []), ls, accept);
    FlushRunStep(store, Pending(0, []), ls, accept);
    FlushRunStep(store, Pending(n, a), [cont], accept);
    assert FlushRun(store, Pending(n, a + b), [], accept) == ProcMaterialSpec(store, n, a + b, accept);
  }

  lemma CardClass(name: string, a: seq<Tok>)
    requires MCardName(name)
    ensures ClassifyMatLine([Tok("1-", None), Tok(name, None)] + a) == NewCard(DigitsValue(name[1..]), a)
  {
    var toks := [Tok("1-", None), Tok(name, None)] + a;
    assert toks[1..] == [Tok(name, None)] + a;
    assert toks[1..][0] == Tok(name, None) && toks[1..][1..] == a;
  }

  lemma ContinuationClass(b: seq<Tok>)
    requires |b| == 0 || |b[0].text| == 0 || !IsLetter(b[0].text[0])
    ensures ClassifyMatLine([Tok("2-", None)] + b) == Continuation(b)
  {
    assert ([Tok("2-", None)] + b)[1..] == b;
  }

  /** The tokens that the continuation lines at the head of `lines` add
      to the material of the card before them: up to the next card or the
      end mark, skipping blank lines and other cards. */
  function ContinuedItems(lines: seq<CardLine>): seq<Tok>
    decreases |lines|
  {
    if lines == [] || Contains(lines[0].text, EndMark) then []
    else
      match ClassifyMatLine(lines[0].toks)
      case NewCard(_, _) => []
      case Continuation(toks) => toks + ContinuedItems(lines[1..])
      case _ => ContinuedItems(lines[1..])
  }

  /** The card loop from a pending material, then the flush of the last
      one; processMaterialCards starts it from no pending material. */
  function FlushRun(store: Store, p: Pending, lines: seq<CardLine>, accept: (int, string) -> bool): (Store, Option<Fault>)
  {
    var (s, p', f) := MatCardsRun(store, p, lines, accept);
    if f.Some? || p'.mIndex == 0 then (s, f) else ProcMaterialSpec(s, p'.mIndex, p'.matLine, accept)
  }

  lemma FlushRunKeeps(store: Store, p: Pending, lines: seq<CardLine>, accept: (int, string) -> bool)
    requires Numbered(store)
    ensures var (r, _) := FlushRun(store, p, lines, accept);
      Numbered(r) && forall k :: k in store ==> k in r && r[k] == store[k]
  {
    var (s, p', f) := MatCardsRun(store, p, lines, accept);
    MatCardsKeeps(store, p, lines, accept);
    ProcMaterialMeaning(s, p'.mIndex, p'.matLine, accept);
  }

  /** One step of the card loop on a line before the end mark. */
  lemma FlushRunStep(store: Store, p: Pending, lines: seq<CardLine>, accept: (int, string) -> bool)
    requires lines != [] && !Contains(lines[0].text, EndMark)
    ensures ClassifyMatLine(lines[0].toks).NewCard? ==>
      var card := ClassifyMatLine(lines[0].toks);
      var (s', f) := ProcMaterialSpec(store, p.mIndex, p.matLine, accept);
      FlushRun(store, p, lines, accept) == if f.Some? then (s', f) else FlushRun(s', Pending(card.index, card.rest), lines[1..], accept)
    ensures ClassifyMatLine(lines[0].toks).Continuation? ==>
      FlushRun(store, p, lines, accept) == FlushRun(store, Pending(p.mIndex, p.matLine + ClassifyMatLine(lines[0].toks).toks), lines[1..], accept)
    ensures ClassifyMatLine(lines[0].toks).NoItem? || ClassifyMatLine(lines[0].toks).OtherCard? ==>
      FlushRun(store, p, lines, accept) == FlushRun(store, p, lines[1..], accept)
  {
  }

  /** At the end mark the pending material is flushed as it stands. */
  lemma PendingStoredAtEnd(store: Store, p: Pending, lines: seq<CardLine>, accept: (int, string) -> bool)
    requires lines == [] || Contains(lines[0].text, EndMark)
    requires Numbered(store) && p.mIndex != 0
    requires FlushRun(store, p, lines, accept).1.None?
    ensures var r := FlushRun(store, p, lines, accept).0;
      p.mIndex in r && r[p.mIndex] == Mat(p.mIndex, Joined(DigitItems(p.matLine + ContinuedItems(lines))))
  {
    assert FlushRun(store, p, lines, accept) == ProcMaterialSpec(store, p.mIndex, p.matLine, accept);
    assert p.matLine + ContinuedItems(lines) == p.matLine;
    ProcMaterialMeaning(store, p.mIndex, p.matLine, accept);
  }

  /** At the next card the pending material is flushed as it stands, and
      the rest of the loop keeps it. */
  lemma PendingStoredAtCard(store: Store, p: Pending, lines: seq<CardLine>, accept: (int, string) -> bool)
    requires lines != [] && !Contains(lines[0].text, EndMark) && ClassifyMatLine(lines[0].toks).NewCard?
    requires Numbered(store) && p.mIndex != 0
    requires FlushRun(store, p, lines, accept).1.None?
    ensures var r := FlushRun(store, p, lines, accept).0;
      p.mIndex in r && r[p.mIndex] == Mat(p.mIndex, Joined(DigitItems(p.matLine + ContinuedItems(lines))))
  {
    FlushRunStep(store, p, lines, accept);
    var line := ClassifyMatLine(lines[0].toks);
    ProcMaterialMeaning(store, p.mIndex, p.matLine, accept);
    var s' := ProcMaterialSpec(store, p.mIndex, p.matLine, accept).0;
    FlushRunKeeps(s', Pending(line.index, line.rest), lines[1..], accept);
    assert ContinuedItems(lines) == [];
    assert p.matLine + ContinuedItems(lines) == p.matLine;
  }

  /** Without a fault, the pending material ends up stored under its
      number with the digit items of its card and of the continuation
      lines that follow. */
  lemma {:induction false} PendingStored(store: Store, p: Pending, lines: seq<CardLine>, accept: (int, string) -> bool)
    requires Numbered(store) && p.mIndex != 0
    requires FlushRun(store, p, lines, accept).1.None?
    ensures var r := FlushRun(store, p, lines, accept).0;
      p.mIndex in r && r[p.mIndex] == Mat(p.mIndex, Joined(DigitItems(p.matLine + ContinuedItems(lines))))
    decreases |lines|
  {
    if lines == [] || Contains(lines[0].text, EndMark) {
      PendingStoredAtEnd(store, p, lines, accept);
    } else if ClassifyMatLine(lines[0].toks).NewCard? {
      PendingStoredAtCard(store, p, lines, accept);
    } else {
      var p' := PendingAfter(p, lines[0]);
      PendingStep(store, p, lines, accept);
      PendingStored(store, p', lines[1..], accept);
    }
  }

  /** The pending material after a line that is neither a card nor the
      end mark. */
  function PendingAfter(p: Pending, line: CardLine): Pending
  {
    match ClassifyMatLine(line.toks)
    case Continuation(toks) => Pending(p.mIndex, p.matLine + toks)
    case _ => p
  }

  /** A line that is neither a card nor the end mark moves its tokens, if
      any, from the continuation items into the pending material. */
  lemma PendingStep(store: Store, p: Pending, lines: seq<CardLine>, accept: (int, string) -> bool)
    requires lines != [] && !Contains(lines[0].text, EndMark) && !ClassifyMatLine(lines[0].toks).NewCard?
    ensures var p' := PendingAfter(p, lines[0]);
      p'.mIndex == p.mIndex
      && FlushRun(store, p, lines, accept) == FlushRun(store, p', lines[1..], accept)
      && p'.matLine + ContinuedItems(lines[1..]) == p.matLine + ContinuedItems(lines)
  {
    FlushRunStep(store, p, lines, accept);
    var line := ClassifyMatLine(lines[0].toks);
    if line.Continuation? {
      assert ContinuedItems(lines) == line.toks + ContinuedItems(lines[1..]);
      assert p.matLine + line.toks + ContinuedItems(lines[1..]) == p.matLine + ContinuedItems(lines);
    }
  }

  /** A line before the end mark is line `i - 1` of the tail. */
  lemma TailIndex(lines: seq<CardLine>, i: nat)
    requires i < MarkerAt(lines, 0, EndMark)
    ensures lines != [] && !Contains(lines[0].text, EndMark)
    ensures 0 < i ==>
      i - 1 < MarkerAt(lines[1..], 0, EndMark) && lines[1..][i - 1] == lines[i] && lines[1..][i..] == lines[i + 1..]
  {
    MarkerAtFirst(lines, 0, EndMark, 0);
    MarkerShift(lines, EndMark);
  }

  /** A card before the end mark flushes the pending material without a
      fault when the whole run has none, and starts its own. */
  lemma CardStep(store: Store, p: Pending, lines: seq<CardLine>, accept: (int, string) -> bool)
    requires lines != [] && !Contains(lines[0].text, EndMark) && ClassifyMatLine(lines[0].toks).NewCard?
    requires Numbered(store) && FlushRun(store, p, lines, accept).1.None?
    ensures var card := ClassifyMatLine(lines[0].toks);
      var s' := ProcMaterialSpec(store, p.mIndex, p.matLine, accept).0;
      Numbered(s') && FlushRun(store, p, lines, accept) == FlushRun(s', Pending(card.index, card.rest), lines[1..], accept)
  {
    FlushRunStep(store, p, lines, accept);
    ProcMaterialMeaning(store, p.mIndex, p.matLine, accept);
  }

  /** Without a fault, every card `mN` with N != 0 before the end mark
      is stored under N with the digit items of its card line and of the
      continuation lines that follow it. */
  lemma {:induction false} CardStored(store: Store, p: Pending, lines: seq<CardLine>, accept: (int, string) -> bool, i: nat)
    requires Numbered(store)
    requires FlushRun(store, p, lines, accept).1.None?
    requires i < MarkerAt(lines, 0, EndMark)
    requires ClassifyMatLine(lines[i].toks).NewCard? && ClassifyMatLine(lines[i].toks).index != 0
    ensures var card := ClassifyMatLine(lines[i].toks);
      var r := FlushRun(store, p, lines, accept).0;
      card.index in r && r[card.index] == Mat(card.index, Joined(DigitItems(card.rest + ContinuedItems(lines[i + 1..]))))
    decreases |lines|
  {
    TailIndex(lines, i);
    var line := ClassifyMatLine(lines[0].toks);
    if line.NewCard? {
      CardStep(store, p, lines, accept);
      var s' := ProcMaterialSpec(store, p.mIndex, p.matLine, accept).0;
      if i == 0 {
        PendingStored(s', Pending(line.index, line.rest), lines[1..], accept);
      } else {
        CardStored(s', Pending(line.index, line.rest), lines[1..], accept, i - 1);
      }
    } else {
      PendingStep(store, p, lines, accept);
      CardStored(store, PendingAfter(p, lines[0]), lines[1..], accept, i - 1);
    }
  }

  /** processMaterialCards without a fault stores every card `mN` with
      N != 0 before the end mark under N, with the digit items of its line
      and of its continuation lines. */
  lemma MatCardStored(store: Store, lines: seq<CardLine>, accept: (int, string) -> bool, i: nat)
    requires Numbered(store)
    requires MatCardsSpec(store, lines, accept).1.None?
    requires i < MarkerAt(lines, 0, EndMark)
    requires ClassifyMatLine(lines[i].toks).NewCard? && ClassifyMatLine(lines[i].toks).index != 0
    ensures var card := ClassifyMatLine(lines[i].toks);
      var r := MatCardsSpec(store, lines, accept).0;
      card.index in r && r[card.index] == Mat(card.index, Joined(DigitItems(card.rest + ContinuedItems(lines[i + 1..]))))
  {
    assert MatCardsSpec(store, lines, accept) == FlushRun(store, Pending(0, []), lines, accept);
    CardStored(store, Pending(0, []), lines, accept, i);
  }

  // ---------------------------------------------------------------------
  // readMCNP

  /** Where reading resumes after a card section that starts at `start`:
      the line after its end mark, or the end of the lines. */
  function AfterEnd(lines: seq<CardLine>, start: nat): nat
    requires start <= |lines|
  {
    var e := MarkerAt(lines, start, EndMark);
    if e < |lines| then e + 1 else |lines|
  }

  /** readMCNP (materialProcess.cxx:291-326) on the store and the cell map:
      an empty name or a file that does not open is FileError(0), as is a
      file without a cell-card marker or, after the cell cards, without a
      material-card marker. The cell cards are read before the material
      marker is looked for, so a missing material marker still leaves the
      cell map updated, and a fault in the material cards leaves the
      materials stored before it. */
  function ReadMcnpSpec(store: Store, fName: string, isOpen: bool, lines: seq<CardLine>,
                        cellMat: map<int, int>, accept: (int, string) -> bool): (Store, map<int, int>, Option<Fault>)
  {
    if fName == [] || !isOpen then (store, cellMat, Some(FileError(0)))
    else
      var c := MarkerAt(lines, 0, "CELL CARDS");
      if c == |lines| then (store, cellMat, Some(FileError(0)))
      else
        var cm := CellCardsRun(cellMat, lines[c + 1..]);
        var m := MarkerAt(lines, AfterEnd(lines, c + 1), "MATERIAL CARDS");
        if m == |lines| then (store, cm, Some(FileError(0)))
        else
          var (s, f) := MatCardsSpec(store, lines[m + 1..], accept);
          (s, cm, f)
  }

  /** processMaterialCards keeps the store numbered and keeps every
      material stored before. */
  lemma MatCardsSpecKeeps(store: Store, lines: seq<CardLine>, accept: (int, string) -> bool)
    requires Numbered(store)
    ensures var (r, _) := MatCardsSpec(store, lines, accept);
      Numbered(r) && forall k :: k in store ==> k in r && r[k] == store[k]
  {
    var (s, p, f) := MatCardsRun(store, Pending(0, []), lines, accept);
    MatCardsKeeps(store, Pending(0, []), lines, accept);
    ProcMaterialMeaning(s, p.mIndex, p.matLine, accept);
  }

  /** Reading a listing, whatever its outcome, never removes or changes a
      stored material, stores only numbered materials, never adds or
      removes a cell, and sets only non-zero materials. */
  lemma ReadMcnpKeeps(store: Store, fName: string, isOpen: bool, lines: seq<CardLine>,
                      cellMat: map<int, int>, accept: (int, string) -> bool)
    requires Numbered(store)
    ensures var (s, cm, _) := ReadMcnpSpec(store, fName, isOpen, lines, cellMat, accept);
      Numbered(s) && (forall k :: k in store ==> k in s && s[k] == store[k])
      && cm.Keys == cellMat.Keys && (forall c :: c in cm ==> cm[c] == cellMat[c] || cm[c] != 0)
  {
    if fName != [] && isOpen {
      var c := MarkerAt(lines, 0, "CELL CARDS");
      if c < |lines| {
        var cm := CellCardsRun(cellMat, lines[c + 1..]);
        CellCardsKeys(cellMat, lines[c + 1..]);
        var m := MarkerAt(lines, AfterEnd(lines, c + 1), "MATERIAL CARDS");
        if m < |lines| {
          var r := MatCardsSpec(store, lines[m + 1..], accept);
          assert ReadMcnpSpec(store, fName, isOpen, lines, cellMat, accept) == (r.0, cm, r.1);
          MatCardsSpecKeeps(store, lines[m + 1..], accept);
        } else {
          assert ReadMcnpSpec(store, fName, isOpen, lines, cellMat, accept) == (store, cm, Some(FileError(0)));
        }
      }
    }
  }

  // ---------------------------------------------------------------------
  // The material object

  class MaterialProcess {
    var matStore: Store

    /** The constructor (materialProcess.cxx:73-77): no materials. */
    constructor ()
      ensures matStore == map[] && Numbered(matStore)
    {
      matStore := map[];
    }

    /** The assignment operator (materialProcess.cxx:88-100). */
    method Assign(a: MaterialProcess)
      modifies this
      ensures matStore == old(a.matStore)
    {
      if a != this {
        matStore := a.matStore;
      }
    }

    /** procMaterial (materialProcess.cxx:111-141). */
    method ProcMaterial(matN: int, toks: seq<Tok>, accept: (int, string) -> bool) returns (fault: Option<Fault>)
      modifies this
      ensures (matStore, fault) == ProcMaterialSpec(old(matStore), matN, toks, accept)
    {
      fault := None;
      if matN != 0 {
        if matN in matStore {
          return Some(InContainerError);
        }
        ghost var items := Joined(DigitItems(toks));
        var matItems := "";
        var i := 0;
        assert toks[0..] == toks;
        while i < |toks| && DigitLed(toks[i].text)
          invariant i <= |toks|
          invariant matItems + Joined(DigitItems(toks[i..])) == items
          invariant matStore == old(matStore)
          decreases |toks| - i
        {
          ItemsStep(matItems, toks, i);
          matItems := matItems + toks[i].text + " ";
          i := i + 1;
        }
        DigitItemsEnd(toks, i);
        assert matItems + Joined(DigitItems(toks[i..])) == matItems + "" == matItems;
        if !accept(matN, matItems) {
          return Some(InvalidLine);
        }
        matStore := matStore[matN := Mat(matN, matItems)];
      }
    }

    /** findCellCards (materialProcess.cxx:270-287) from line `pos`. */
    method FindCellCards(lines: seq<CardLine>, pos: nat) returns (found: int, next: nat)
      requires pos <= |lines|
      ensures var m := MarkerAt(lines, pos, "CELL CARDS");
        (found == 1 <==> m < |lines|) && (found == 0 <==> m == |lines|)
        && next == (if m < |lines| then m + 1 else |lines|)
    {
      found, next := ScanFor(lines, pos, "CELL CARDS");
    }

    /** findMaterialCards (materialProcess.cxx:248-266) from line `pos`. */
    method FindMaterialCards(lines: seq<CardLine>, pos: nat) returns (found: int, next: nat)
      requires pos <= |lines|
      ensures var m := MarkerAt(lines, pos, "MATERIAL CARDS");
        (found == 1 <==> m < |lines|) && (found == 0 <==> m == |lines|)
        && next == (if m < |lines| then m + 1 else |lines|)
    {
      found, next := ScanFor(lines, pos, "MATERIAL CARDS");
    }

    /** processCellCards (materialProcess.cxx:145-193) from line `start`:
        the updated cell map, and where reading resumes. The map, a
        reference argument in the source, is passed in and returned. */
    method ProcessCellCards(lines: seq<CardLine>, start: nat, cellMat0: map<int, int>) returns (cellMat: map<int, int>, next: nat)
      requires start <= |lines|
      ensures cellMat == CellCardsRun(cellMat0, lines[start..])
      ensures next == AfterEnd(lines, start)
    {
      cellMat := cellMat0;
      var i := start;
      while i < |lines| && !Contains(lines[i].text, EndMark)
        invariant start <= i <= |lines|
        invariant CellCardsRun(cellMat0, lines[start..]) == CellCardsRun(cellMat, lines[i..])
        invariant MarkerAt(lines, start, EndMark) == MarkerAt(lines, i, EndMark)
        decreases |lines| - i
      {
        assert lines[i..][0] == lines[i] && lines[i..][1..] == lines[i + 1..];
        var card := CellCard(lines[i].toks);
        if card.Some? {
          var (c, mat, density) := card.value;
          if mat != 0 && 0.0 < density < 2.0 && c in cellMat {
            cellMat := cellMat[c := mat];
          }
        }
        i := i + 1;
      }
      next := if i < |lines| then i + 1 else |lines|;
    }

    /** processMaterialCards (materialProcess.cxx:199-245) from line `start`. */
    method ProcessMaterialCards(lines: seq<CardLine>, start: nat, accept: (int, string) -> bool) returns (fault: Option<Fault>)
      requires start <= |lines|
      modifies this
      ensures (matStore, fault) == MatCardsSpec(old(matStore), lines[start..], accept)
    {
      var p := Pending(0, []);
      var i := start;
      fault := None;
      while i < |lines| && !Contains(lines[i].text, EndMark)
        invariant start <= i <= |lines|
        invariant MatCardsRun(old(matStore), Pending(0, []), lines[start..], accept) == MatCardsRun(matStore, p, lines[i..], accept)
        invariant fault.None?
        decreases |lines| - i
      {
        assert lines[i..][0] == lines[i] && lines[i..][1..] == lines[i + 1..];
        match ClassifyMatLine(lines[i].toks) {
          case NewCard(index, rest) =>
            fault := ProcMaterial(p.mIndex, p.matLine, accept);
            if fault.Some? {
              return;
            }
            p := Pending(index, rest);
          case Continuation(toks) =>
            p := Pending(p.mIndex, p.matLine + toks);
          case _ =>
        }
        i := i + 1;
      }
      assert i < |lines| ==> lines[i..][0] == lines[i];
      assert MatCardsRun(matStore, p, lines[i..], accept) == (matStore, p, None);
      if p.mIndex != 0 {
        fault := ProcMaterial(p.mIndex, p.matLine, accept);
      }
    }

    /** readMCNP (materialProcess.cxx:291-326): the listing is the lines of
        the file, `isOpen` whether it opened. */
    method ReadMcnp(fName: string, isOpen: bool, lines: seq<CardLine>, cellMat0: map<int, int>,
                    accept: (int, string) -> bool) returns (cellMat: map<int, int>, fault: Option<Fault>)
      modifies this
      ensures (matStore, cellMat, fault) == ReadMcnpSpec(old(matStore), fName, isOpen, lines, cellMat0, accept)
    {
      cellMat := cellMat0;
      if fName == [] || !isOpen {
        return cellMat, Some(FileError(0));
      }
      ghost var c := MarkerAt(lines, 0, "CELL CARDS");
      var found, pos := FindCellCards(lines, 0);
      if found == 0 {
        assert c == |lines|;
        return cellMat, Some(FileError(0));
      }
      assert c < |lines| && pos == c + 1;
      var after;
      cellMat, after := ProcessCellCards(lines, pos, cellMat0);
      ghost var m := MarkerAt(lines, after, "MATERIAL CARDS");
      var found2, pos2 := FindMaterialCards(lines, after);
      if found2 == 0 {
        assert m == |lines|;
        return cellMat, Some(FileError(0));
      }
      assert m < |lines| && pos2 == m + 1;
      fault := ProcessMaterialCards(lines, pos2, accept);
    }
  }

  /** One more digit-led token moves from the unread items to the read ones. */
  lemma DigitItemsStep(toks: seq<Tok>, i: nat)
    requires i < |toks| && DigitLed(toks[i].text)
    ensures DigitItems(toks[i..]) == [toks[i].text] + DigitItems(toks[i + 1..])
  {
    assert toks[i..][1..] == toks[i + 1..];
  }

  /** The item loop of procMaterial moves one item from the unread tokens
      to the accumulated string. */
  lemma ItemsStep(acc: string, toks: seq<Tok>, i: nat)
    requires i < |toks| && DigitLed(toks[i].text)
    ensures acc + Joined(DigitItems(toks[i..])) == (acc + toks[i].text + " ") + Joined(DigitItems(toks[i + 1..]))
  {
    DigitItemsStep(toks, i);
    var rest := Joined(DigitItems(toks[i + 1..]));
    assert Joined(DigitItems(toks[i..])) == toks[i].text + " " + rest;
  }

  /** At a token that is not digit-led, or at the end, no items remain. */
  lemma DigitItemsEnd(toks: seq<Tok>, i: nat)
    requires i <= |toks| && (i == |toks| || !DigitLed(toks[i].text))
    ensures DigitItems(toks[i..]) == []
  {
  }
}
