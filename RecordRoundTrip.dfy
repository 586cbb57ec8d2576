/** The writer and the reader together: records emitted by writeRecord are
    framed as the reader expects, every such record passes the reader's
    trailing-marker check, and reading the fields back in the order they
    were added returns them unchanged. */
module RecordRoundTrip {
  import opened Common
  import opened RawBytes
  import R = FortRecFile
  import W = FortRecWrite

  /** A field as the writer adds it: addString(s), addString(s, len) or
      addItem(value). */
  datatype Field = Str(s: seq<byte>) | FixedStr(s: seq<byte>, len: nat) | ItemField(it: Item)

  predicate Writable(f: Field)
  {
    f.ItemField? ==> ValidItem(f.it) && W.WriterKind(f.it.kind)
  }

  /** The bytes a field contributes to the payload. */
  function Bytes(f: Field): seq<byte>
    requires Writable(f)
  {
    match f
    case Str(s) => s
    case FixedStr(s, len) => W.Fixed(s, len)
    case ItemField(it) => EncodeItem(it)
  }

  function AddField(w: W.WState, f: Field): (r: W.WState)
    requires W.Consistent(w) && Writable(f)
    ensures W.Consistent(r)
    ensures r.buffer == w.buffer + Bytes(f)
    ensures r.out == w.out && r.good == w.good && r.isOpen == w.isOpen
  {
    W.AddsConsistent(w, if f.ItemField? then [] else f.s, if f.FixedStr? then f.len else 0,
      if f.ItemField? then f.it else Item(IntK, 0));
    match f
    case Str(s) => W.AddStringSpec(w, s)
    case FixedStr(s, len) => W.AddFixedSpec(w, s, len)
    case ItemField(it) => W.AddItemSpec(w, it)
  }

  predicate AllWritable(fs: seq<Field>)
  {
    forall i :: 0 <= i < |fs| ==> Writable(fs[i])
  }

  /** The payload of a record: the bytes of its fields in order. */
  function Payload(fs: seq<Field>): seq<byte>
    requires AllWritable(fs)
  {
    if fs == [] then [] else Bytes(fs[0]) + Payload(fs[1..])
  }

  function AddFields(w: W.WState, fs: seq<Field>): (r: W.WState)
    requires W.Consistent(w) && AllWritable(fs)
    ensures W.Consistent(r)
    decreases |fs|
  {
    if fs == [] then w else AddFields(AddField(w, fs[0]), fs[1..])
  }

  /** Adding fields appends their bytes to the pending payload and touches
      nothing else. */
  lemma {:induction false} AddFieldsAppends(w: W.WState, fs: seq<Field>)
    requires W.Consistent(w) && AllWritable(fs)
    ensures AddFields(w, fs).buffer == w.buffer + Payload(fs)
    ensures AddFields(w, fs).out == w.out
    ensures AddFields(w, fs).good == w.good && AddFields(w, fs).isOpen == w.isOpen
    decreases |fs|
  {
    if fs != [] {
      var w1 := AddField(w, fs[0]);
      assert AllWritable(fs[1..]) by {
        forall i | 0 <= i < |fs| - 1 ensures Writable(fs[1..][i]) {
          assert fs[1..][i] == fs[i + 1];
        }
      }
      assert AddFields(w, fs) == AddFields(w1, fs[1..]);
      AddFieldsAppends(w1, fs[1..]);
      assert Payload(fs) == Bytes(fs[0]) + Payload(fs[1..]);
      Assoc(w.buffer, Bytes(fs[0]), Payload(fs[1..]));
    }
  }

  /** The frame of one record. */
  function Frame(p: seq<byte>): (r: seq<byte>)
    requires |p| < TWO31
    ensures |r| == |p| + 8
  {
    Encode32(|p|) + p + Encode32(|p|)
  }

  /** writeRecord on an open, good stream appends exactly the frame of the
      pending payload and empties it, returning 1. */
  lemma WriteRecordEmitsFrame(w: W.WState)
    requires W.Consistent(w) && w.good && w.isOpen && |w.buffer| < TWO31
    ensures W.WriteRecordSpec(w).code == 1
    ensures W.WriteRecordSpec(w).w ==
      w.(out := w.out + Frame(w.buffer), buffer := [], recLeng := 0)
  {
    assert w.buffer[..w.recLeng] == w.buffer;
  }

  /** closeFile flushes the pending payload as a final record and closes. */
  lemma CloseEmitsFrame(w: W.WState)
    requires W.Consistent(w) && w.good && w.isOpen && |w.buffer| < TWO31
    ensures W.CloseSpec(w) ==
      w.(out := w.out + Frame(w.buffer), buffer := [], recLeng := 0, isOpen := false)
  {
    WriteRecordEmitsFrame(w);
    assert W.CloseSpec(w) == W.WriteRecordSpec(w).w.(isOpen := false);
  }

  /** A record the round trip covers: at least one field, every field
      contributing at least one byte, and a payload an `int` can count. */
  predicate GoodRecord(fs: seq<Field>)
  {
    fs != [] && AllWritable(fs) && (forall i :: 0 <= i < |fs| ==> |Bytes(fs[i])| > 0)
    && |Payload(fs)| < TWO31
  }

  predicate AllGood(rs: seq<seq<Field>>)
  {
    forall i :: 0 <= i < |rs| ==> GoodRecord(rs[i])
  }

  function Frames(rs: seq<seq<Field>>): seq<byte>
    requires AllGood(rs)
  {
    if rs == [] then [] else Frame(Payload(rs[0])) + Frames(rs[1..])
  }

  /** Adds the fields of each record and writes it, record after record. */
  function WriteAll(w: W.WState, rs: seq<seq<Field>>): (r: W.WState)
    requires W.Consistent(w) && AllGood(rs)
    ensures W.Consistent(r)
    decreases |rs|
  {
    if rs == [] then w
    else
      var w1 := AddFields(w, rs[0]);
      W.WriteRecordConsistent(w1, [], false);
      WriteAll(W.WriteRecordSpec(w1).w, rs[1..])
  }

  /** A writer that starts with no pending payload on an open good stream
      emits the frames of the records, one after the other. */
  lemma {:induction false} WriteAllFrames(w: W.WState, rs: seq<seq<Field>>)
    requires W.Consistent(w) && w.good && w.isOpen && w.buffer == []
    requires AllGood(rs)
    ensures WriteAll(w, rs).out == w.out + Frames(rs)
    ensures WriteAll(w, rs).good && WriteAll(w, rs).isOpen && WriteAll(w, rs).buffer == []
    decreases |rs|
  {
    if rs != [] {
      var w1 := AddFields(w, rs[0]);
      AddFieldsAppends(w, rs[0]);
      WriteRecordEmitsFrame(w1);
      var w2 := W.WriteRecordSpec(w1).w;
      assert w2 == w1.(out := w.out + Frame(Payload(rs[0])), buffer := [], recLeng := 0);
      AllGoodTail(rs);
      WriteAllFrames(w2, rs[1..]);
      var f, g := Frame(Payload(rs[0])), Frames(rs[1..]);
      assert Frames(rs) == f + g;
      Assoc(w.out, f, g);
    }
  }

  lemma AllGoodTail(rs: seq<seq<Field>>)
    requires AllGood(rs) && rs != []
    ensures AllGood(rs[1..])
  {
    forall i | 0 <= i < |rs| - 1 ensures GoodRecord(rs[1..][i]) {
      assert rs[1..][i] == rs[i + 1];
    }
  }

  lemma Assoc<T>(a: seq<T>, b: seq<T>, c: seq<T>)
    ensures (a + b) + c == a + (b + c)
  {
  }

  /** The reader call that reads a field back, and the value it returns. */
  datatype Request = GetString(leng: int) | GetItem(kind: Kind)
  datatype Value = StrValue(bytes: seq<byte>) | ItemValue(it: Item)

  function RequestFor(f: Field): Request
  {
    match f
    case Str(s) => GetString(|s|)
    case FixedStr(_, len) => GetString(len)
    case ItemField(it) => GetItem(it.kind)
  }

  function ValueOf(f: Field): Result<Value>
    requires Writable(f)
  {
    match f
    case Str(s) => Ok(StrValue(s))
    case FixedStr(s, len) => Ok(StrValue(W.Fixed(s, len)))
    case ItemField(it) => Ok(ItemValue(it))
  }

  function Requests(fs: seq<Field>): (r: seq<Request>)
    ensures |r| == |fs|
    ensures forall i :: 0 <= i < |fs| ==> r[i] == RequestFor(fs[i])
  {
    seq(|fs|, i requires 0 <= i < |fs| => RequestFor(fs[i]))
  }

  function Values(fs: seq<Field>): (r: seq<Result<Value>>)
    requires AllWritable(fs)
    ensures |r| == |fs|
    ensures forall i :: 0 <= i < |fs| ==> r[i] == ValueOf(fs[i])
  {
    seq(|fs|, i requires 0 <= i < |fs| => ValueOf(fs[i]))
  }

  function Flatten(rs: seq<seq<Field>>): seq<Field>
  {
    if rs == [] then [] else rs[0] + Flatten(rs[1..])
  }

  /** One reader call: getString(leng) or getItem<T>(). */
  function ReadOne(s: R.RState, q: Request): (r: (Result<Value>, R.RState))
    requires R.Consistent(s)
    ensures R.Consistent(r.1)
  {
    match q
    case GetString(n) =>
      R.TakeConsistent(s, n);
      var t := R.TakeSpec(s, n);
      (match t.r case Ok(b) => Ok(StrValue(b)) case Fail(e) => Fail(e), t.s)
    case GetItem(k) =>
      R.TakeConsistent(s, Width(k));
      R.TakeInRangeLength(s, Width(k));
      var t := R.TakeSpec(s, Width(k));
      (match t.r case Ok(b) => Ok(ItemValue(DecodeItem(k, b))) case Fail(e) => Fail(e), t.s)
  }

  /** The reader calls in order, each on the state the previous one left. */
  function ReadAll(s: R.RState, qs: seq<Request>): (r: seq<Result<Value>>)
    requires R.Consistent(s)
    ensures |r| == |qs|
    decreases |qs|
  {
    if qs == [] then []
    else
      var (v, s1) := ReadOne(s, qs[0]);
      [v] + ReadAll(s1, qs[1..])
  }

  /** A reader positioned at the frame of a record loads it: the leading
      and trailing markers agree, the payload is in the buffer with the
      cursor at its start, and the stream stays good, just past the frame. */
  lemma LoadFramed(s: R.RState, p: seq<byte>, rest: seq<byte>)
    requires R.Consistent(s) && s.good
    requires 0 < |p| < TWO31
    requires s.data[s.sPos..] == Frame(p) + rest
    ensures var l := R.NextRecordSpec(s);
      !l.mismatch && l.s.good && l.s.isOpen == s.isOpen
      && l.s.curLeng == |p| == l.s.recLeng && l.s.bPos == 0
      && l.s.buf[..|p|] == p
      && l.s.data == s.data && l.s.sPos == s.sPos + |p| + 8
      && l.s.data[l.s.sPos..] == rest
  {
    var m := Encode32(|p|);
    var d := s.data[s.sPos..];
    assert d == m + (p + m + rest);
    assert s.data[s.sPos..s.sPos + 4] == d[..4] == m;
    Decode32OfEncode32(|p|);
    var (got, s1) := R.Extract(s, 4);
    assert got == m && s1.good;
    var s2 := R.ResizeSpec(s1.(recLeng := |p|));
    var t := s2.(curLeng := |p|);
    assert R.NextRecordSpec(s) == R.LoadBodySpec(t);
    assert t.data[t.sPos..] == d[4..] == p + m + rest;
    LoadBodyFramed(t, p, rest);
  }

  /** A frame whose trailing marker was corrupted is caught: the reader
      reports the mismatch when the four bytes after the payload are any
      bytes other than the encoding of its length. */
  lemma CorruptTrailerDetected(s: R.RState, p: seq<byte>, m: seq<byte>)
    requires R.Consistent(s) && s.good
    requires 0 < |p| < TWO31 && |m| == 4 && m != Encode32(|p|)
    requires s.sPos + 8 + |p| <= |s.data|
    requires s.data[s.sPos..s.sPos + 4] == Encode32(|p|)
    requires s.data[s.sPos + 4..s.sPos + 4 + |p|] == p
    requires s.data[s.sPos + 4 + |p|..s.sPos + 8 + |p|] == m
    ensures R.NextRecordSpec(s).mismatch
  {
    Decode32OfEncode32(|p|);
    OtherBytesOtherInt(m, |p|);
    R.NextRecordMismatch(s);
  }

  /** Four bytes other than the encoding of `n` decode to another number. */
  lemma OtherBytesOtherInt(m: seq<byte>, n: int)
    requires |m| == 4 && IsInt32(n) && m != Encode32(n)
    ensures Decode32(m) != n
  {
    if Decode32(m) == n {
      EncodeOfDecode(m);
      assert false;
    }
  }

  /** The body step of loading a framed record: the payload and its
      trailing marker are read into the front of the buffer. */
  lemma LoadBodyFramed(t: R.RState, p: seq<byte>, rest: seq<byte>)
    requires t.sPos <= |t.data| && t.good
    requires 0 < |p| < TWO31 && t.curLeng == |p| && |p| + 4 <= |t.buf|
    requires t.data[t.sPos..] == p + Encode32(|p|) + rest
    ensures var l := R.LoadBodySpec(t);
      !l.mismatch && l.s.good && l.s.bPos == 0 && l.s.buf[..|p|] == p
      && l.s == t.(sPos := l.s.sPos, buf := l.s.buf, bPos := 0)
      && l.s.sPos == t.sPos + |p| + 4 && l.s.data[l.s.sPos..] == rest
  {
    var m := Encode32(|p|);
    var d := t.data[t.sPos..];
    assert t.data[t.sPos..t.sPos + |p| + 4] == d[..|p| + 4] == p + m;
    var (body, t1) := R.Extract(t, |p| + 4);
    assert body == p + m;
    var buf := body + t.buf[|body|..];
    assert buf[|p|..|p| + 4] == m;
    assert buf[..|p|] == p;
    Decode32OfEncode32(|p|);
    assert t1.data[t1.sPos..] == d[|p| + 4..] == rest;
  }

  /** Reading one field back where the writer put it returns the field;
      the cursor moves past it, or the next record is loaded when the
      field was the last of its record. */
  lemma ReadField(s: R.RState, f: Field, more: seq<byte>)
    requires R.Consistent(s) && Writable(f) && |Bytes(f)| > 0
    requires s.bPos + |Bytes(f)| + |more| == s.curLeng
    requires s.buf[s.bPos..s.curLeng] == Bytes(f) + more
    ensures ReadOne(s, RequestFor(f)).0 == ValueOf(f)
    ensures more != [] ==> ReadOne(s, RequestFor(f)).1 == s.(bPos := s.bPos + |Bytes(f)|)
    ensures more == [] ==> ReadOne(s, RequestFor(f)).1 == R.NextRecordSpec(s.(bPos := s.curLeng)).s
  {
    var n := |Bytes(f)|;
    R.TakeInRange(s, n);
    assert s.buf[s.bPos..s.bPos + n] == s.buf[s.bPos..s.curLeng][..n] == Bytes(f);
    match f
    case Str(_) =>
    case FixedStr(x, len) => W.FixedShape(x, len);
    case ItemField(it) => DecodeOfEncodeItem(it);
  }

  /** The first field of a record followed by later records, and the rest. */
  lemma SplitFirst(fs: seq<Field>, later: seq<seq<Field>>)
    requires GoodRecord(fs) && AllGood(later)
    ensures AllWritable(fs + Flatten(later)) && AllWritable(fs[1..] + Flatten(later))
    ensures Requests(fs + Flatten(later)) ==
      [RequestFor(fs[0])] + Requests(fs[1..] + Flatten(later))
    ensures Values(fs + Flatten(later)) == [ValueOf(fs[0])] + Values(fs[1..] + Flatten(later))
  {
    FlattenWritable(later);
    var all := fs + Flatten(later);
    assert AllWritable(all) by {
      forall i | 0 <= i < |all| ensures Writable(all[i]) {
        if i >= |fs| { assert all[i] == Flatten(later)[i - |fs|]; }
      }
    }
    assert all[1..] == fs[1..] + Flatten(later);
    assert AllWritable(all[1..]) by {
      forall i | 0 <= i < |all| - 1 ensures Writable(all[1..][i]) {
        assert all[1..][i] == all[i + 1];
      }
    }
    RequestsCons(all);
    ValuesCons(all);
  }

  lemma RequestsCons(xs: seq<Field>)
    requires |xs| > 0
    ensures Requests(xs) == [RequestFor(xs[0])] + Requests(xs[1..])
  {
  }

  lemma ValuesCons(xs: seq<Field>)
    requires |xs| > 0 && AllWritable(xs) && AllWritable(xs[1..])
    ensures Values(xs) == [ValueOf(xs[0])] + Values(xs[1..])
  {
  }

  /** The rest of a record after its first field is a record of its own. */
  lemma RestGood(fs: seq<Field>)
    requires GoodRecord(fs) && |fs| > 1
    ensures GoodRecord(fs[1..])
    ensures Payload(fs) == Bytes(fs[0]) + Payload(fs[1..])
  {
    forall i | 0 <= i < |fs| - 1 ensures |Bytes(fs[1..][i])| > 0 {
      assert fs[1..][i] == fs[i + 1];
    }
  }

  lemma ReadAllCons(s: R.RState, q: Request, qs: seq<Request>)
    requires R.Consistent(s)
    ensures ReadAll(s, [q] + qs) == [ReadOne(s, q).0] + ReadAll(ReadOne(s, q).1, qs)
  {
    assert ([q] + qs)[1..] == qs;
  }

  /** Reading the fields of the rest of the current record, and then of the
      framed records that follow on the stream, returns them unchanged. */
  lemma {:induction false} ReadRest(s: R.RState, fs: seq<Field>, later: seq<seq<Field>>, tail: seq<byte>)
    requires R.Consistent(s) && s.good
    requires GoodRecord(fs)
    requires s.bPos + |Payload(fs)| == s.curLeng
    requires s.buf[s.bPos..s.curLeng] == Payload(fs)
    requires AllGood(later)
    requires s.data[s.sPos..] == Frames(later) + tail
    ensures AllWritable(fs + Flatten(later))
    ensures ReadAll(s, Requests(fs + Flatten(later))) == Values(fs + Flatten(later))
    decreases |later|, |fs|, 1
  {
    SplitFirst(fs, later);
    if |fs| > 1 {
      var f := fs[0];
      var rest := fs[1..] + Flatten(later);
      ReadAllCons(s, RequestFor(f), Requests(rest));
      RestGood(fs);
      ReadField(s, f, Payload(fs[1..]));
      ReadRest(ReadOne(s, RequestFor(f)).1, fs[1..], later, tail);
    } else {
      assert fs[1..] == [];
      assert Payload(fs) == Bytes(fs[0]) + Payload([]) == Bytes(fs[0]);
      assert |Bytes(fs[0])| > 0;
      ReadLast(s, fs[0], later, tail);
      assert fs[1..] + Flatten(later) == Flatten(later);
    }
  }

  /** The last field of a record: reading it loads the next record, whose
      fields are then read in turn. */
  lemma {:induction false} ReadLast(s: R.RState, f: Field, later: seq<seq<Field>>, tail: seq<byte>)
    requires R.Consistent(s) && s.good
    requires Writable(f) && |Bytes(f)| > 0
    requires s.bPos + |Bytes(f)| == s.curLeng
    requires s.buf[s.bPos..s.curLeng] == Bytes(f)
    requires AllGood(later)
    requires s.data[s.sPos..] == Frames(later) + tail
    ensures AllWritable(Flatten(later))
    ensures ReadAll(s, [RequestFor(f)] + Requests(Flatten(later)))
      == [ValueOf(f)] + Values(Flatten(later))
    decreases |later|, 1, 0
  {
    FlattenWritable(later);
    ReadAllCons(s, RequestFor(f), Requests(Flatten(later)));
    assert Bytes(f) + [] == Bytes(f);
    ReadField(s, f, []);
    var s1 := ReadOne(s, RequestFor(f)).1;
    if later != [] {
      var t := s.(bPos := s.curLeng);
      var g := Frames(later[1..]) + tail;
      assert Frames(later) == Frame(Payload(later[0])) + Frames(later[1..]);
      Assoc(Frame(Payload(later[0])), Frames(later[1..]), tail);
      LoadFramed(t, Payload(later[0]), g);
      assert s1.buf[s1.bPos..s1.curLeng] == Payload(later[0]);
      assert Flatten(later) == later[0] + Flatten(later[1..]);
      ReadRest(s1, later[0], later[1..], tail);
    }
  }

  lemma {:induction false} FlattenWritable(rs: seq<seq<Field>>)
    requires AllGood(rs)
    ensures AllWritable(Flatten(rs))
  {
    if rs != [] {
      FlattenWritable(rs[1..]);
      var x := Flatten(rs);
      forall i | 0 <= i < |x| ensures Writable(x[i]) {
        if i >= |rs[0]| { assert x[i] == Flatten(rs[1..])[i - |rs[0]|]; }
      }
    }
  }

  /** A fresh writer that opens a new file and writes the records leaves
      exactly their frames in the file. */
  lemma WriteFresh(rs: seq<seq<Field>>, name: string)
    requires name != [] && AllGood(rs)
    ensures W.Consistent(W.OpenSpec(W.FreshState(), name, true).w)
    ensures WriteAll(W.OpenSpec(W.FreshState(), name, true).w, rs).out == Frames(rs)
  {
    var w0 := W.OpenSpec(W.FreshState(), name, true).w;
    assert W.Consistent(w0);
    WriteAllFrames(w0, rs);
  }

  /** A fresh reader opening framed records, followed by anything, loads
      the first record without a mismatch and reads every field back. */
  lemma ReadFresh(rs: seq<seq<Field>>, name: string, data: seq<byte>, tail: seq<byte>)
    requires name != [] && rs != [] && AllGood(rs)
    requires data == Frames(rs) + tail
    ensures var o := R.OpenSpec(R.FreshState(), name, Some(data));
      o.code == 0 && !o.mismatch
      && AllWritable(Flatten(rs))
      && ReadAll(o.s, Requests(Flatten(rs))) == Values(Flatten(rs))
  {
    var s0 := R.FreshState();
    var s1 := s0.(data := data, sPos := 0, isOpen := true, good := true);
    assert R.OpenSpec(s0, name, Some(data)) ==
      R.Opened(R.NextRecordSpec(s1).s, R.NextRecordSpec(s1).mismatch,
        if R.NextRecordSpec(s1).s.curLeng != 0 then 0 else -1);
    var g := Frames(rs[1..]) + tail;
    assert Frames(rs) == Frame(Payload(rs[0])) + Frames(rs[1..]);
    Assoc(Frame(Payload(rs[0])), Frames(rs[1..]), tail);
    assert s1.data[s1.sPos..] == Frame(Payload(rs[0])) + g;
    LoadFramed(s1, Payload(rs[0]), g);
    var l := R.NextRecordSpec(s1).s;
    assert l.buf[l.bPos..l.curLeng] == Payload(rs[0]);
    ReadRest(l, rs[0], rs[1..], tail);
    assert Flatten(rs) == rs[0] + Flatten(rs[1..]);
  }

  /** The round trip. A fresh writer opens a file, adds the fields of each
      record and writes it. A fresh reader opens the resulting bytes,
      followed by anything at all: the open succeeds, its first record
      passes the trailing-marker check, and reading the fields back in the
      same order, with getString for strings and getItem for items, returns
      every field unchanged. */
  lemma RoundTrip(rs: seq<seq<Field>>, name: string, tail: seq<byte>)
    requires name != [] && rs != [] && AllGood(rs)
    ensures W.Consistent(W.OpenSpec(W.FreshState(), name, true).w)
    ensures var w := WriteAll(W.OpenSpec(W.FreshState(), name, true).w, rs);
      w.out == Frames(rs)
      && var o := R.OpenSpec(R.FreshState(), name, Some(w.out + tail));
      o.code == 0 && !o.mismatch
      && AllWritable(Flatten(rs))
      && ReadAll(o.s, Requests(Flatten(rs))) == Values(Flatten(rs))
  {
    WriteFresh(rs, name);
    var w := WriteAll(W.OpenSpec(W.FreshState(), name, true).w, rs);
    ReadFresh(rs, name, w.out + tail, tail);
  }

  /** Outside the round trip: an empty record. The writer emits `[0][0]`;
      the reader takes the leading 0 as "no record", keeps the current
      record and leaves the stream at the trailing marker, which the next
      nextRecord takes as the length of another empty record. */
  lemma EmptyRecordLoadsNothing(s: R.RState, rest: seq<byte>)
    requires R.Consistent(s) && s.good
    requires s.data[s.sPos..] == Frame([]) + rest
    ensures var l := R.NextRecordSpec(s);
      l.s.good && !l.mismatch && l.s.recLeng == 0 && l.s.curLeng == s.curLeng
      && l.s.bPos == s.bPos && l.s.data[l.s.sPos..] == Encode32(0) + rest
  {
    var m := Encode32(0);
    var d := s.data[s.sPos..];
    assert d == m + (m + rest);
    assert s.data[s.sPos..s.sPos + 4] == d[..4] == m;
    Decode32OfEncode32(0);
    assert s.data[s.sPos + 4..] == d[4..] == m + rest;
  }

  /** A file whose first record is empty opens with -1, as a file with no
      records does. */
  lemma EmptyFirstRecordFails(name: string, rest: seq<byte>)
    requires name != []
    ensures R.OpenSpec(R.FreshState(), name, Some(Frame([]) + rest)).code == -1
  {
    var s1 := R.FreshState().(data := Frame([]) + rest, sPos := 0, isOpen := true, good := true);
    EmptyRecordLoadsNothing(s1, rest);
  }

  /** Outside the round trip: a zero-byte field at the end of the last
      record. The writer accepts it, but reading the field before it
      already reached the record end and loaded the next record; with the
      file exhausted the zero-byte read fails with a range error. This is
      the corrected end-of-data rule: the source as written serves the last
      record again, and the zero-byte read returns an empty string. */
  lemma TrailingEmptyFieldFails(name: string, b: byte)
    requires name != []
    ensures var fs := [Str([b]), Str([])];
      AllWritable(fs) && Payload(fs) == [b]
      && W.Consistent(W.OpenSpec(W.FreshState(), name, true).w)
      && var w := W.WriteRecordSpec(AddFields(W.OpenSpec(W.FreshState(), name, true).w, fs)).w;
      w.out == Frame([b])
      && var o := R.OpenSpec(R.FreshState(), name, Some(w.out));
      o.code == 0 && ReadAll(o.s, Requests(fs)) == [Ok(StrValue([b])), Fail(RangeError)]
  {
    TrailingEmptyFieldWritten(name, b);
    TrailingEmptyFieldRead(name, b);
    assert Requests([Str([b]), Str([])]) == [GetString(1), GetString(0)];
  }

  /** The writer side: the zero-byte field adds nothing to the frame. */
  lemma TrailingEmptyFieldWritten(name: string, b: byte)
    requires name != []
    ensures var fs := [Str([b]), Str([])];
      AllWritable(fs) && Payload(fs) == [b]
      && W.Consistent(W.OpenSpec(W.FreshState(), name, true).w)
      && W.WriteRecordSpec(AddFields(W.OpenSpec(W.FreshState(), name, true).w, fs)).w.out == Frame([b])
  {
    var fs := [Str([b]), Str([])];
    assert Payload(fs[1..]) == [];
    assert Payload(fs) == [b];
    var w0 := W.OpenSpec(W.FreshState(), name, true).w;
    AddFieldsAppends(w0, fs);
    var w1 := AddFields(w0, fs);
    assert w1.buffer == [b];
    WriteRecordEmitsFrame(w1);
  }

  /** The reader side: a one-byte record read as one byte, then zero. */
  lemma TrailingEmptyFieldRead(name: string, b: byte)
    requires name != []
    ensures var o := R.OpenSpec(R.FreshState(), name, Some(Frame([b])));
      o.code == 0 && ReadAll(o.s, [GetString(1), GetString(0)]) == [Ok(StrValue([b])), Fail(RangeError)]
  {
    var out := Frame([b]);
    var s1 := R.FreshState().(data := out, sPos := 0, isOpen := true, good := true);
    assert s1.data[s1.sPos..] == Frame([b]) + [];
    LoadFramed(s1, [b], []);
    var l := R.NextRecordSpec(s1).s;
    assert R.OpenSpec(R.FreshState(), name, Some(out)).s == l;
    assert l.buf[l.bPos..l.curLeng] == Bytes(Str([b])) + [];
    ReadField(l, Str([b]), []);
    var t := l.(bPos := l.curLeng);
    R.NextRecordExhausted(t);
    var s2 := ReadOne(l, GetString(1)).1;
    assert s2.curLeng == 0 && s2.bPos == 1;
    assert ReadOne(s2, GetString(0)).0 == Fail(RangeError);
    ReadAllCons(l, GetString(1), [GetString(0)]);
    ReadAllCons(s2, GetString(0), []);
  }

  /** The source as written at the same point: reading the last byte of
      the last record leaves the stream good at the end of the data, the
      record is served again with the cursor at 0, and the zero-byte read
      then returns an empty string. */
  lemma EmptyFieldAfterReplay(s: R.RState)
    requires R.Consistent(s) && s.good && s.sPos == |s.data|
    requires s.curLeng > 0 && s.recLeng == s.curLeng
    ensures R.Consistent(R.NextRecordAtEndAsWritten(s).0)
    ensures ReadOne(R.NextRecordAtEndAsWritten(s).0, GetString(0)).0 == Ok(StrValue([]))
  {
  }
}
