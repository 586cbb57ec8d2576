/** Reader of Fortran unformatted sequential files (RawFile::fortRecFile).
    Each record on file is `[int n][n payload bytes][int n]`. The reader
    holds the current record in a buffer and hands out its bytes through a
    cursor `bPos`; when the cursor reaches the record length `curLeng` the
    next record is loaded.

    The input stream is part of the state: the bytes of the file, the read
    position, the stream's `good()` flag and whether a file is open. The
    behaviour of every reader operation is given by a function on `RState`
    below, and the class `Reader` is proved to implement those functions. */
module FortRecFile {
  import opened Common
  import opened RawBytes

  /** Size of the buffer a new reader allocates (fortRecFile.cxx:25). */
  const InitialSize: nat := 1024

  /** Room allocated beyond the record length when the buffer grows. */
  const Slack: nat := 32

  /** Everything a reader operation reads or changes. */
  datatype RState = RState(
    data: seq<byte>,   // the bytes of the open file
    sPos: nat,         // the stream's read position in `data`
    good: bool,        // the stream's good() flag
    isOpen: bool,      // the stream's is_open()
    bSize: int,        // capacity of the buffer
    buf: seq<byte>,    // contents of the buffer
    curLeng: int,      // length of the current record
    recLeng: int,      // last length marker read
    bPos: int)         // cursor in the current record

  function Zeros(n: nat): (r: seq<byte>)
    ensures |r| == n
    ensures forall i :: 0 <= i < n ==> r[i] == 0
  {
    seq(n, _ => 0)
  }

  /** A reader just constructed, with no file open (fortRecFile.cxx:24-30). */
  function FreshState(): (r: RState)
    ensures r.bPos == 0 && r.curLeng == 0 && r.recLeng == 0
    ensures r.bSize == InitialSize && |r.buf| == InitialSize
    ensures !r.isOpen
  {
    RState([], 0, true, false, InitialSize, Zeros(InitialSize), 0, 0, 0)
  }

  /** The relations every reachable reader state satisfies. The cursor
      never passes the record end, except in one state: once the data is
      exhausted `curLeng` drops to 0 while `bPos` keeps its value; from there
      every read fails with a range error. */
  predicate Consistent(s: RState)
  {
    s.sPos <= |s.data|
    && s.bSize == |s.buf| && InitialSize <= s.bSize
    && IsInt32(s.recLeng)
    && 0 <= s.curLeng < TWO31 && s.curLeng + 4 <= s.bSize
    && (s.recLeng == 0 || s.recLeng == s.curLeng)
    && 0 <= s.bPos
    && (s.bPos <= s.curLeng || (s.curLeng == 0 && !s.good && s.isOpen))
    && (!s.isOpen ==> s.data == [] && s.curLeng == 0 && s.recLeng == 0 && s.bPos == 0)
  }

  /** istream::read of `n` bytes: the bytes extracted and the stream after.
      A read that cannot deliver all `n` bytes leaves the stream not good,
      and a stream that is not good delivers nothing. */
  function Extract(s: RState, n: nat): (r: (seq<byte>, RState))
    requires s.sPos <= |s.data|
    ensures |r.0| <= n && r.1.sPos == s.sPos + |r.0| <= |s.data|
    ensures r.0 == s.data[s.sPos..r.1.sPos]
    ensures r.1.good <==> s.good && |r.0| == n
    ensures !s.good ==> r.0 == []
    ensures r.1 == s.(sPos := r.1.sPos, good := r.1.good)
  {
    if !s.good then ([], s.(good := false))
    else
      var k := if n <= |s.data| - s.sPos then n else |s.data| - s.sPos;
      (s.data[s.sPos..s.sPos + k], s.(sPos := s.sPos + k, good := k == n))
  }

  /** The buffer growth rule of this model: grow whenever the record and
      its trailing marker do not fit. The source grows only when the record
      length exceeds `bSize` (see `ResizeAsWritten`). The new buffer is
      zero-filled here; in the source its contents are indeterminate. */
  function ResizeSpec(s: RState): (r: RState)
    requires s.bSize >= 0
    ensures s.recLeng >= 0 ==> s.recLeng + 4 <= r.bSize
    ensures r.bSize >= s.bSize
    ensures r == s || r == s.(bSize := r.bSize, buf := Zeros(r.bSize))
  {
    if s.recLeng + 4 > s.bSize then
      s.(bSize := s.recLeng + Slack, buf := Zeros(s.recLeng + Slack))
    else s
  }

  /** The source's resize on its own terms: from `bSize`, the capacity of
      the buffer and a record length, the new `bSize` and capacity
      (fortRecFile.cxx:58-63). */
  function ResizeAsWritten(bSize: int, capacity: nat, recLeng: int): (r: (int, nat))
    requires bSize >= 0
  {
    if recLeng > bSize then (recLeng, recLeng + 32) else (bSize, capacity)
  }

  /** On the fresh 1024-byte buffer the source's resize leaves a record of
      length 1021 to 1024 without room for its trailing marker, and exactly
      those lengths: nextRecord then reads recLeng+4 bytes into a buffer of
      1024 bytes. */
  lemma ResizeAsWrittenTooSmall(recLeng: int)
    requires 0 < recLeng < TWO31
    ensures ResizeAsWritten(InitialSize, InitialSize, recLeng).1 < recLeng + 4
            <==> 1021 <= recLeng <= 1024
  {
  }

  /** The rule of this model always leaves room for the record and its marker. */
  lemma ResizeSpecHasRoom(s: RState)
    requires s.bSize >= 0 && 0 <= s.recLeng
    ensures s.recLeng + 4 <= |ResizeSpec(s).buf| || ResizeSpec(s) == s
    ensures ResizeSpec(s).bSize >= s.recLeng + 4
  {
  }

  /** The first four bytes of a record as the source tests them: a record is
      loaded whenever the marker is non-zero, and its trailing marker is read
      at offset `recLeng` of the buffer (fortRecFile.cxx:119-126). */
  predicate LoadsAsWritten(marker: seq<byte>)
    requires |marker| == 4
  {
    Decode32(marker) != 0
  }

  function TrailerOffsetAsWritten(marker: seq<byte>): int
    requires |marker| == 4
  {
    Decode32(marker)
  }

  /** A leading marker of FF FF FF FF is loaded as a record, and its trailer
      is read one byte before the start of the buffer. */
  lemma NegativeMarkerAsWritten()
    ensures LoadsAsWritten([255, 255, 255, 255])
    ensures TrailerOffsetAsWritten([255, 255, 255, 255]) == -1
  {
    assert FromLE([255, 255, 255, 255]) == TWO32 - 1;
    assert HalfPow(4) == TWO31;
  }

  /** The source's nextRecord on a good stream that has no bytes left: the
      failed read leaves `recLeng` as it was, so a non-zero `recLeng` loads
      the previous record again from the untouched buffer (fortRecFile.cxx:
      113-131). */
  function NextRecordAtEndAsWritten(s: RState): (r: (RState, int))
    requires Consistent(s) && s.good && s.sPos == |s.data|
  {
    var s1 := s.(good := false);
    if s.recLeng != 0 then
      (s1.(curLeng := s.recLeng, bPos := 0), s.recLeng)
    else (s1, s.curLeng)
  }

  /** Result of loading a record: the state after, and whether the
      trailing marker differed from the leading one (the source logs an
      error in that case and carries on). */
  datatype Loaded = Loaded(s: RState, mismatch: bool)

  /** nextRecord (fortRecFile.cxx:110-138). A stream that is not good sets
      `curLeng` and `recLeng` to 0. Otherwise the leading marker is
      read; a record of non-zero length becomes the current record with
      the cursor at its start, and its trailing marker is compared with the
      leading one.

      Two cases differ from the source, each logged as a finding: when the
      marker cannot be read in full the data is treated as exhausted
      (the source serves the previous record again, see
      `NextRecordAtEndAsWritten`), and a negative marker is treated as
      corrupt data (the source reads before the start of its buffer). */
  function NextRecordSpec(s: RState): (r: Loaded)
    requires Consistent(s)
  {
    if !s.good then Loaded(s.(curLeng := 0, recLeng := 0), false)
    else
      var (got, s1) := Extract(s, 4);
      if !s1.good then Loaded(s1.(curLeng := 0, recLeng := 0), false)
      else
        var rl := Decode32(got);
        if rl < 0 then Loaded(s1.(curLeng := 0, recLeng := 0, good := false), true)
        else
          var s2 := ResizeSpec(s1.(recLeng := rl));
          if rl == 0 then Loaded(s2, false)
          else LoadBodySpec(s2.(curLeng := rl))
  }

  /** Reads the payload and trailing marker of a record whose length is
      now `curLeng` into the start of the buffer, puts the cursor at the
      record start, and compares the trailing marker with the length. */
  function LoadBodySpec(s: RState): (r: Loaded)
    requires s.sPos <= |s.data| && 0 < s.curLeng && s.curLeng + 4 <= |s.buf|
  {
    var rl := s.curLeng;
    var (body, s3) := Extract(s, rl + 4);
    var buf := body + s.buf[|body|..];
    Loaded(s3.(buf := buf, bPos := 0), Decode32(buf[rl..rl + 4]) != rl)
  }

  /** Loading a record keeps the reader consistent. */
  lemma NextRecordConsistent(s: RState)
    requires Consistent(s)
    ensures Consistent(NextRecordSpec(s).s)
  {
    if s.good {
      var (got, s1) := Extract(s, 4);
      if !s.isOpen {
        assert got == [];
      }
    }
  }

  /** When the stream is not good, or has fewer than four bytes left, the
      reader reports no record: `curLeng` and `recLeng` become 0. */
  lemma NextRecordExhausted(s: RState)
    requires Consistent(s)
    requires !s.good || |s.data| - s.sPos < 4
    ensures NextRecordSpec(s).s.curLeng == 0 && NextRecordSpec(s).s.recLeng == 0
    ensures !NextRecordSpec(s).s.good
    ensures NextRecordSpec(s).s.bPos == s.bPos
  {
  }

  /** After a record of non-zero length is loaded, `curLeng == recLeng` and
      the cursor is at its start; the loaded bytes are the ones that followed
      the marker on the stream. */
  lemma NextRecordLoads(s: RState)
    requires Consistent(s)
    requires NextRecordSpec(s).s.recLeng != 0
    ensures var t := NextRecordSpec(s).s;
      t.curLeng == t.recLeng && t.bPos == 0
      && s.sPos + 4 <= t.sPos
      && t.buf[..t.sPos - s.sPos - 4] == s.data[s.sPos + 4..t.sPos]
  {
  }

  /** The trailing-marker check (fortRecFile.cxx:125-128): when a record
      of positive length is read in full, the mismatch is reported exactly
      when the four bytes after the payload do not encode its length. */
  lemma NextRecordMismatch(s: RState)
    requires Consistent(s) && s.good && s.sPos + 4 <= |s.data|
    requires 0 < Decode32(s.data[s.sPos..s.sPos + 4])
    requires s.sPos + 8 + Decode32(s.data[s.sPos..s.sPos + 4]) <= |s.data|
    ensures var rl := Decode32(s.data[s.sPos..s.sPos + 4]);
      NextRecordSpec(s).mismatch <==> Decode32(s.data[s.sPos + 4 + rl..s.sPos + 8 + rl]) != rl
  {
    var rl := Decode32(s.data[s.sPos..s.sPos + 4]);
    var t := ResizeSpec(s.(sPos := s.sPos + 4, recLeng := rl)).(curLeng := rl);
    NextRecordBody(s);
    LoadBodyMismatch(t);
  }

  /** A positive leading marker read in full: what follows is the body
      step on the resized reader. */
  lemma NextRecordBody(s: RState)
    requires Consistent(s) && s.good && s.sPos + 4 <= |s.data|
    requires 0 < Decode32(s.data[s.sPos..s.sPos + 4])
    ensures var rl := Decode32(s.data[s.sPos..s.sPos + 4]);
      var t := ResizeSpec(s.(sPos := s.sPos + 4, recLeng := rl)).(curLeng := rl);
      t.data == s.data && t.sPos == s.sPos + 4 && t.good && rl + 4 <= |t.buf|
      && NextRecordSpec(s) == LoadBodySpec(t)
  {
    var (got, s1) := Extract(s, 4);
    assert got == s.data[s.sPos..s.sPos + 4];
    assert s1 == s.(sPos := s.sPos + 4);
  }

  /** The body step reports the mismatch exactly when the four bytes
      after the payload do not decode to the record length. */
  lemma LoadBodyMismatch(t: RState)
    requires t.good && 0 < t.curLeng && t.curLeng + 4 <= |t.buf| && t.sPos + t.curLeng + 4 <= |t.data|
    ensures LoadBodySpec(t).mismatch <==> Decode32(t.data[t.sPos + t.curLeng..t.sPos + t.curLeng + 4]) != t.curLeng
  {
    var rl := t.curLeng;
    var (body, t3) := Extract(t, rl + 4);
    assert body == t.data[t.sPos..t.sPos + rl + 4];
    var buf := body + t.buf[|body|..];
    assert buf[rl..rl + 4] == t.data[t.sPos + rl..t.sPos + rl + 4];
  }

  /** A negative leading marker is rejected as corrupt data: no record is
      current, the stream is left failed and the mismatch is reported. */
  lemma NegativeMarkerRejected(s: RState)
    requires Consistent(s) && s.good && s.sPos + 4 <= |s.data|
    requires Decode32(s.data[s.sPos..s.sPos + 4]) < 0
    ensures var l := NextRecordSpec(s);
      l.mismatch && l.s.curLeng == 0 && l.s.recLeng == 0 && !l.s.good
      && l.s.sPos == s.sPos + 4
  {
    var (got, s1) := Extract(s, 4);
    assert got == s.data[s.sPos..s.sPos + 4];
  }

  /** On the case the source gets wrong at the end of the data: the source
      hands out the previous record again with the cursor at its start,
      while this model reports that no record is left. */
  lemma EndOfDataDiffers(s: RState)
    requires Consistent(s) && s.good && s.sPos == |s.data|
    requires s.curLeng > 0 && s.recLeng == s.curLeng
    ensures NextRecordAtEndAsWritten(s).1 == s.curLeng > 0
    ensures NextRecordAtEndAsWritten(s).0.bPos == 0
    ensures NextRecordSpec(s).s.curLeng == 0
  {
  }

  /** Result of taking bytes from the current record. */
  datatype Took = Took(r: Result<seq<byte>>, s: RState)

  /** getItem / getString at the byte level (fortRecFile.cxx:150-162,
      174-181): `w` bytes from the cursor, provided they lie in the current
      record; when the cursor reaches the record end the next record is
      loaded. A request past the record end throws a range error and changes
      nothing; a negative length that passes that test makes the string
      constructor throw a length error. */
  function TakeSpec(s: RState, w: int): (t: Took)
    requires Consistent(s)
  {
    if w + s.bPos > s.curLeng then Took(Fail(RangeError), s)
    else if w < 0 then Took(Fail(LengthError), s)
    else
      var out := s.buf[s.bPos..s.bPos + w];
      var s1 := s.(bPos := s.bPos + w);
      Took(Ok(out), if s1.bPos == s1.curLeng then NextRecordSpec(s1).s else s1)
  }

  /** Taking bytes keeps the reader consistent. */
  lemma TakeConsistent(s: RState, w: int)
    requires Consistent(s)
    ensures Consistent(TakeSpec(s, w).s)
  {
    if w + s.bPos > s.curLeng || w < 0 {
      assert TakeSpec(s, w).s == s;
    } else {
      var s1 := s.(bPos := s.bPos + w);
      assert Consistent(s1);
      if s1.bPos == s1.curLeng {
        NextRecordConsistent(s1);
        assert TakeSpec(s, w).s == NextRecordSpec(s1).s;
      } else {
        assert TakeSpec(s, w).s == s1;
      }
    }
  }

  /** A request that does not fit throws and leaves the whole state,
      cursor included, unchanged. */
  lemma TakeOutOfRange(s: RState, w: int)
    requires Consistent(s)
    requires w + s.bPos > s.curLeng
    ensures TakeSpec(s, w) == Took(Fail(RangeError), s)
  {
  }

  /** A request that fits returns exactly the `w` bytes at the cursor and
      advances the cursor by `w`, unless it reached the record end, in which
      case the next record is loaded. */
  lemma TakeInRange(s: RState, w: int)
    requires Consistent(s)
    requires 0 <= w && w + s.bPos <= s.curLeng
    ensures TakeSpec(s, w).r == Ok(s.buf[s.bPos..s.bPos + w])
    ensures |TakeSpec(s, w).r.value| == w
    ensures s.bPos + w < s.curLeng ==> TakeSpec(s, w).s == s.(bPos := s.bPos + w)
    ensures s.bPos + w == s.curLeng ==>
      TakeSpec(s, w).s == NextRecordSpec(s.(bPos := s.bPos + w)).s
  {
    var s1 := s.(bPos := s.bPos + w);
    assert Consistent(s1);
    assert TakeSpec(s, w) == Took(Ok(s.buf[s.bPos..s.bPos + w]),
      if s1.bPos == s1.curLeng then NextRecordSpec(s1).s else s1);
  }

  /** Only the range test and the string length can fail. */
  lemma TakeFailures(s: RState, w: int)
    requires Consistent(s)
    ensures TakeSpec(s, w).r.Fail? <==> w + s.bPos > s.curLeng || w < 0
  {
  }

  /** endRecord (fortRecFile.cxx:97-99): load the next record only when the
      cursor has moved. */
  function EndRecordSpec(s: RState): (r: Loaded)
    requires Consistent(s)
  {
    if s.bPos != 0 then NextRecordSpec(s) else Loaded(s, false)
  }

  /** Result of openFile: the state after and the return code. */
  datatype Opened = Opened(s: RState, mismatch: bool, code: int)

  /** openFile (fortRecFile.cxx:68-88). `content` is the file system's
      answer for `name`: its bytes, or `None` when it cannot be opened. An
      empty name changes nothing and returns -1. Otherwise the stream flags
      are cleared, the file is opened (which fails if a file is already
      open) and the first record is loaded; the result is 0 if that record
      has a non-zero length and -1 otherwise. */
  function OpenSpec(s: RState, name: string, content: Option<seq<byte>>): (r: Opened)
    requires Consistent(s)
    ensures name == [] ==> r == Opened(s, false, -1)
    ensures r.code == 0 || r.code == -1
  {
    if name == [] then Opened(s, false, -1)
    else
      var s1 :=
        if s.isOpen || content.None? then s.(good := false)
        else s.(data := content.value, sPos := 0, isOpen := true, good := true);
      var l := NextRecordSpec(s1);
      Opened(l.s, l.mismatch, if l.s.curLeng != 0 then 0 else -1)
  }

  lemma OpenConsistent(s: RState, name: string, content: Option<seq<byte>>)
    requires Consistent(s)
    ensures Consistent(OpenSpec(s, name, content).s)
  {
    if name != [] {
      var s1 :=
        if s.isOpen || content.None? then s.(good := false)
        else s.(data := content.value, sPos := 0, isOpen := true, good := true);
      NextRecordConsistent(s1);
    }
  }

  /** A reader can open one file only: once a file is open, a second open
      fails, and the first record of the new file is never read. */
  lemma ReopenFails(s: RState, name: string, content: Option<seq<byte>>)
    requires Consistent(s) && s.isOpen && name != []
    ensures OpenSpec(s, name, content).code == -1
    ensures OpenSpec(s, name, content).s.data == s.data
  {
  }

  class Reader {
    var data: seq<byte>
    var sPos: nat
    var good: bool
    var isOpen: bool
    var bSize: int
    var buffer: array<byte>
    var curLeng: int
    var recLeng: int
    var bPos: int

    ghost function State(): RState
      reads this, buffer
    {
      RState(data, sPos, good, isOpen, bSize, buffer[..], curLeng, recLeng, bPos)
    }

    ghost predicate Valid()
      reads this, buffer
    {
      Consistent(State())
    }

    /** The default constructor (fortRecFile.cxx:24-30). */
    constructor ()
      ensures State() == FreshState() && Valid()
    {
      data, sPos, good, isOpen := [], 0, true, false;
      bSize := InitialSize;
      buffer := new byte[InitialSize](_ => 0);
      curLeng, recLeng, bPos := 0, 0, 0;
      new;
      assert buffer[..] == Zeros(InitialSize);
    }

    /** The constructor taking a file name (fortRecFile.cxx:33-42). */
    constructor Open(name: string, content: Option<seq<byte>>)
      ensures State() == OpenSpec(FreshState(), name, content).s && Valid()
    {
      data, sPos, good, isOpen := [], 0, true, false;
      bSize := InitialSize;
      buffer := new byte[InitialSize](_ => 0);
      curLeng, recLeng, bPos := 0, 0, 0;
      new;
      assert buffer[..] == Zeros(InitialSize);
      OpenConsistent(FreshState(), name, content);
      var code := OpenFile(name, content);
    }

    /** Reads up to `n` bytes from the stream. */
    method Read(n: nat) returns (got: seq<byte>)
      requires sPos <= |data|
      modifies this
      ensures (got, State()) == Extract(old(State()), n)
      ensures buffer == old(buffer)
    {
      if !good {
        got := [];
        good := false;
      } else {
        var k := if n <= |data| - sPos then n else |data| - sPos;
        got := data[sPos..sPos + k];
        sPos := sPos + k;
        good := k == n;
      }
    }

    /** resize (fortRecFile.cxx:57-64), with the growth rule of ResizeSpec. */
    method Resize()
      requires bSize >= 0
      modifies this
      ensures State() == ResizeSpec(old(State()))
      ensures buffer == old(buffer) || fresh(buffer)
    {
      if recLeng + 4 > bSize {
        buffer := new byte[recLeng + Slack](_ => 0);
        bSize := recLeng + Slack;
        assert buffer[..] == Zeros(recLeng + Slack);
      }
    }

    /** nextRecord (fortRecFile.cxx:110-138). Returns the new `curLeng`,
        and whether the trailing marker differed from the leading one. */
    method NextRecord() returns (n: int, mismatch: bool)
      requires Valid()
      modifies this, buffer
      ensures State() == NextRecordSpec(old(State())).s
      ensures mismatch == NextRecordSpec(old(State())).mismatch
      ensures n == curLeng && Valid()
      ensures buffer == old(buffer) || fresh(buffer)
    {
      ghost var s := State();
      NextRecordConsistent(s);
      mismatch := false;
      if !good {
        curLeng, recLeng := 0, 0;
      } else {
        var got := Read(4);
        if !good {
          curLeng, recLeng := 0, 0;
        } else {
          var rl := Decode32(got);
          if rl < 0 {
            curLeng, recLeng, good := 0, 0, false;
            mismatch := true;
          } else {
            recLeng := rl;
            Resize();
            if rl != 0 {
              curLeng := rl;
              mismatch := LoadBody();
            }
          }
        }
      }
      n := curLeng;
    }

    /** The part of nextRecord that reads a record of length `curLeng`. */
    method LoadBody() returns (mismatch: bool)
      requires sPos <= |data| && 0 < curLeng && curLeng + 4 <= buffer.Length
      modifies this, buffer
      ensures Loaded(State(), mismatch) == LoadBodySpec(old(State()))
      ensures buffer == old(buffer)
    {
      ghost var s := State();
      var rl := curLeng;
      var body := Read(rl + 4);
      forall i | 0 <= i < |body| {
        buffer[i] := body[i];
      }
      assert buffer[..] == body + s.buf[|body|..];
      bPos := 0;
      mismatch := Decode32(buffer[rl..rl + 4]) != rl;
    }

    /** Bytes from the cursor, for getItem and getString. */
    method Take(w: int) returns (r: Result<seq<byte>>)
      requires Valid()
      modifies this, buffer
      ensures Took(r, State()) == TakeSpec(old(State()), w)
      ensures Valid()
      ensures buffer == old(buffer) || fresh(buffer)
    {
      TakeConsistent(State(), w);
      if w + bPos > curLeng {
        r := Fail(RangeError);
      } else if w < 0 {
        r := Fail(LengthError);
      } else {
        r := Ok(buffer[bPos..bPos + w]);
        bPos := bPos + w;
        if bPos == curLeng {
          var n, m := NextRecord();
        }
      }
    }

    /** getItem<T> (fortRecFile.cxx:150-162) for the item type `k`. */
    method GetItem(k: Kind) returns (r: Result<Item>)
      requires Valid()
      modifies this, buffer
      ensures TakeSpec(old(State()), Width(k)).s == State() && Valid()
      ensures r == match TakeSpec(old(State()), Width(k)).r
        case Ok(b) => Ok(DecodeItem(k, b))
        case Fail(f) => Fail(f)
      ensures buffer == old(buffer) || fresh(buffer)
    {
      TakeInRangeLength(State(), Width(k));
      var b := Take(Width(k));
      match b
      case Ok(bytes) => r := Ok(DecodeItem(k, bytes));
      case Fail(f) => r := Fail(f);
    }

    /** getString (fortRecFile.cxx:174-181). */
    method GetString(leng: int) returns (r: Result<seq<byte>>)
      requires Valid()
      modifies this, buffer
      ensures Took(r, State()) == TakeSpec(old(State()), leng) && Valid()
      ensures buffer == old(buffer) || fresh(buffer)
    {
      r := Take(leng);
    }

    /** endRecord (fortRecFile.cxx:96-100). */
    method EndRecord() returns (n: int)
      requires Valid()
      modifies this, buffer
      ensures State() == EndRecordSpec(old(State())).s && Valid()
      ensures n == curLeng
      ensures buffer == old(buffer) || fresh(buffer)
    {
      if bPos != 0 {
        var m;
        n, m := NextRecord();
      } else {
        n := curLeng;
      }
    }

    /** openFile (fortRecFile.cxx:68-88). */
    method OpenFile(name: string, content: Option<seq<byte>>) returns (code: int)
      requires Valid()
      modifies this, buffer
      ensures State() == OpenSpec(old(State()), name, content).s && Valid()
      ensures code == OpenSpec(old(State()), name, content).code
      ensures buffer == old(buffer) || fresh(buffer)
    {
      OpenConsistent(State(), name, content);
      if name == [] {
        return -1;
      }
      if isOpen || content.None? {
        good := false;
      } else {
        data, sPos, isOpen, good := content.value, 0, true, true;
      }
      var n, m := NextRecord();
      code := if n != 0 then 0 else -1;
    }
  }

  /** A successful take has the requested length, which decodes as an item. */
  lemma TakeInRangeLength(s: RState, w: int)
    requires Consistent(s)
    ensures TakeSpec(s, w).r.Ok? ==> |TakeSpec(s, w).r.value| == w
  {
  }
}
