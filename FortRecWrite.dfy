/** Writer of Fortran unformatted sequential files (RawFile::fortRecWrite).
    Items are appended to a pending payload `buffer` while `recLeng` counts
    its length; writeRecord emits `[recLeng][payload][recLeng]` and starts
    a new payload.

    The output stream is part of the state: the bytes written to the file
    currently or last open, the stream's `good()` flag and whether a file is
    open. Each writer operation is given by a function on `WState`, and the
    class `Writer` is proved to implement those functions. */
module FortRecWrite {
  import opened Common
  import opened RawBytes

  /** Everything a writer operation reads or changes. */
  datatype WState = WState(
    out: seq<byte>,     // bytes of the file currently (or last) open
    good: bool,         // the stream's good() flag
    isOpen: bool,       // the stream's is_open()
    buffer: seq<byte>,  // the pending payload
    recLeng: int)       // the `int` length counter

  /** A writer just constructed, with no file open (fortRecWrite.cxx:24-29). */
  function FreshState(): (r: WState)
    ensures r.buffer == [] && r.recLeng == 0 && !r.isOpen && r.good
  {
    WState([], true, false, [], 0)
  }

  /** `recLeng` is the payload length as an `int` holds it: the length
      itself while it stays below 2^31, and wrapped modulo 2^32 beyond. */
  predicate Consistent(w: WState)
  {
    w.recLeng == Wrap32(|w.buffer|)
  }

  /** ostream::write: a stream that is not good writes nothing; a good
      stream with no file open fails on any non-empty write. */
  function WriteBytes(w: WState, b: seq<byte>): (r: WState)
    ensures r.buffer == w.buffer && r.recLeng == w.recLeng && r.isOpen == w.isOpen
    ensures r.good ==> w.good && r.out == w.out + b
    ensures !r.good ==> r.out == w.out
  {
    if !w.good then w
    else if !w.isOpen then (if b == [] then w else w.(good := false))
    else w.(out := w.out + b)
  }

  /** addString(SItem) (fortRecWrite.cxx:105-106). */
  function AddStringSpec(w: WState, s: seq<byte>): (r: WState)
    ensures r.buffer == w.buffer + s
    ensures r.recLeng == Wrap32(w.recLeng + |s|)
    ensures r.out == w.out && r.good == w.good && r.isOpen == w.isOpen
  {
    w.(buffer := w.buffer + s, recLeng := Wrap32(w.recLeng + |s|))
  }

  /** A run of `n` blanks. */
  function Spaces(n: nat): (r: seq<byte>)
    ensures |r| == n
    ensures forall i :: 0 <= i < n ==> r[i] == 32
  {
    seq(n, _ => 32)
  }

  /** The exactly `len` bytes that addString(SItem, len) appends. */
  function Fixed(s: seq<byte>, len: nat): (r: seq<byte>)
  {
    if |s| == len then s
    else if |s| > len then s[..len]
    else s + Spaces(len - |s|)
  }

  /** The fixed-width text is `s` cut or blank-padded to `len` bytes: its
      length is `len`, it agrees with `s` on their common prefix, and the
      rest is blank. */
  lemma FixedShape(s: seq<byte>, len: nat)
    ensures |Fixed(s, len)| == len
    ensures forall i :: 0 <= i < len && i < |s| ==> Fixed(s, len)[i] == s[i]
    ensures forall i :: |s| <= i < len ==> Fixed(s, len)[i] == 32
  {
  }

  /** addString(SItem, len) (fortRecWrite.cxx:121-134). */
  function AddFixedSpec(w: WState, s: seq<byte>, len: nat): (r: WState)
    ensures r.buffer == w.buffer + Fixed(s, len)
    ensures r.recLeng == Wrap32(w.recLeng + len)
    ensures r.out == w.out && r.good == w.good && r.isOpen == w.isOpen
  {
    w.(buffer := w.buffer + Fixed(s, len), recLeng := Wrap32(w.recLeng + len))
  }

  /** The types addItem is instantiated for (fortRecWrite.cxx:164-167). */
  predicate WriterKind(k: Kind)
  {
    k in {IntK, LongK, DoubleK, FloatK}
  }

  /** addItem(value) (fortRecWrite.cxx:154-159): the raw bytes of the value. */
  function AddItemSpec(w: WState, it: Item): (r: WState)
    requires ValidItem(it)
    ensures r.buffer == w.buffer + EncodeItem(it)
    ensures r.recLeng == Wrap32(w.recLeng + Width(it.kind))
    ensures r.out == w.out && r.good == w.good && r.isOpen == w.isOpen
  {
    w.(buffer := w.buffer + EncodeItem(it), recLeng := Wrap32(w.recLeng + Width(it.kind)))
  }

  /** Every add keeps `recLeng` equal to the wrapped payload length. */
  lemma AddsConsistent(w: WState, s: seq<byte>, len: nat, it: Item)
    requires Consistent(w) && ValidItem(it)
    ensures Consistent(AddStringSpec(w, s))
    ensures Consistent(AddFixedSpec(w, s, len))
    ensures Consistent(AddItemSpec(w, it))
  {
    Wrap32Add(|w.buffer|, |s|);
    FixedShape(s, len);
    Wrap32Add(|w.buffer|, len);
    Wrap32Add(|w.buffer|, Width(it.kind));
  }

  /** While the payload is shorter than 2^31 bytes, `recLeng` is its length. */
  lemma RecLengIsLength(w: WState)
    requires Consistent(w) && |w.buffer| < TWO31
    ensures w.recLeng == |w.buffer|
  {
  }

  /** A non-negative wrapped length never exceeds the length. */
  lemma WrapBelow(n: nat)
    ensures Wrap32(n) >= 0 ==> Wrap32(n) <= n
  {
  }

  /** Result of writeRecord: the state after and the return code. */
  datatype Written = Written(w: WState, code: int)

  /** writeRecord (fortRecWrite.cxx:81-91). On a good stream: the length
      marker, the first `recLeng` bytes of the payload, the marker again;
      then the payload and counter are reset. Returns 1 when the stream is
      still good, 0 otherwise. */
  function WriteRecordSpec(w: WState): (r: Written)
    requires Consistent(w)
    ensures r.code == (if r.w.good then 1 else 0)
    ensures w.good ==> r.w.buffer == [] && r.w.recLeng == 0
    ensures !w.good ==> r.w == w
  {
    if w.good then
      var w1 := WriteBytes(w, Encode32(w.recLeng));
      WrapBelow(|w.buffer|);
      var w2 :=
        if w.recLeng >= 0 then WriteBytes(w1, w.buffer[..w.recLeng])
        else if w1.good then w1.(good := false) else w1;
      var w3 := WriteBytes(w2, Encode32(w.recLeng));
      var w4 := w3.(buffer := [], recLeng := 0);
      Written(w4, if w4.good then 1 else 0)
    else Written(w, 0)
  }

  /** closeFile (fortRecWrite.cxx:64-65): flush the pending record, then
      close; closing a stream that is not open sets its fail flag. */
  function CloseSpec(w: WState): (r: WState)
    requires Consistent(w)
    ensures !r.isOpen
  {
    var w1 := WriteRecordSpec(w).w;
    if w1.isOpen then w1.(isOpen := false) else w1.(good := false)
  }

  /** openFile (fortRecWrite.cxx:48-55). `created` is whether the file
      system creates the file. A non-empty name clears the flags, closes
      any open file and opens the new one, empty; the return code is 0 even
      when the open fails. An empty name changes nothing and returns -1. */
  function OpenSpec(w: WState, name: string, created: bool): (r: Written)
    ensures r.code == (if name == [] then -1 else 0)
    ensures name == [] ==> r.w == w
    ensures name != [] ==> r.w.good == created && r.w.isOpen == created
    ensures name != [] && created ==> r.w.out == []
    ensures r.w.buffer == w.buffer && r.w.recLeng == w.recLeng
  {
    if name == [] then Written(w, -1)
    else
      var w1 := w.(good := true);
      var w2 := if w1.isOpen then w1.(isOpen := false) else w1.(good := false);
      var w3 := if created then w2.(out := [], isOpen := true, good := true)
                else w2.(good := false);
      Written(w3, 0)
  }

  /** Every writer operation keeps the state consistent. */
  lemma WriteRecordConsistent(w: WState, name: string, created: bool)
    requires Consistent(w)
    ensures Consistent(WriteRecordSpec(w).w)
    ensures Consistent(CloseSpec(w))
    ensures Consistent(OpenSpec(w, name, created).w)
  {
  }

  class Writer {
    var out: seq<byte>
    var good: bool
    var isOpen: bool
    var buffer: seq<byte>
    var recLeng: int

    function State(): WState
      reads this
    {
      WState(out, good, isOpen, buffer, recLeng)
    }

    ghost predicate Valid()
      reads this
    {
      Consistent(State())
    }

    /** The constructor (fortRecWrite.cxx:24-29). */
    constructor ()
      ensures State() == FreshState() && Valid()
    {
      out, good, isOpen, buffer, recLeng := [], true, false, [], 0;
    }

    /** openFile (fortRecWrite.cxx:48-55). */
    method OpenFile(name: string, created: bool) returns (code: int)
      requires Valid()
      modifies this
      ensures Written(State(), code) == OpenSpec(old(State()), name, created)
      ensures Valid()
    {
      if name == [] {
        return -1;
      }
      good := true;
      if isOpen {
        isOpen := false;
      } else {
        good := false;
      }
      if created {
        out, isOpen, good := [], true, true;
      } else {
        good := false;
      }
      code := 0;
    }

    /** ostream::write on the output stream. */
    method Write(b: seq<byte>)
      modifies this
      ensures State() == WriteBytes(old(State()), b)
    {
      if good {
        if !isOpen {
          if b != [] {
            good := false;
          }
        } else {
          out := out + b;
        }
      }
    }

    /** writeRecord (fortRecWrite.cxx:81-91). */
    method WriteRecord() returns (code: int)
      requires Valid()
      modifies this
      ensures Written(State(), code) == WriteRecordSpec(old(State()))
      ensures Valid()
    {
      if good {
        WrapBelow(|buffer|);
        Write(Encode32(recLeng));
        if recLeng >= 0 {
          Write(buffer[..recLeng]);
        } else if good {
          good := false;
        }
        Write(Encode32(recLeng));
        buffer := [];
        recLeng := 0;
      }
      code := if good then 1 else 0;
    }

    /** closeFile (fortRecWrite.cxx:59-68). */
    method CloseFile()
      requires Valid()
      modifies this
      ensures State() == CloseSpec(old(State())) && Valid()
    {
      var code := WriteRecord();
      if isOpen {
        isOpen := false;
      } else {
        good := false;
      }
    }

    /** addString(SItem) (fortRecWrite.cxx:96-109). */
    method AddString(s: seq<byte>)
      requires Valid()
      modifies this
      ensures State() == AddStringSpec(old(State()), s) && Valid()
    {
      Wrap32Add(|buffer|, |s|);
      buffer := buffer + s;
      recLeng := Wrap32(recLeng + |s|);
    }

    /** addString(SItem, len) (fortRecWrite.cxx:112-136). */
    method AddFixedString(s: seq<byte>, len: nat)
      requires Valid()
      modifies this
      ensures State() == AddFixedSpec(old(State()), s, len) && Valid()
    {
      FixedShape(s, len);
      Wrap32Add(|buffer|, len);
      if |s| == len {
        buffer := buffer + s;
      } else if |s| > len {
        buffer := buffer + s[..len];
      } else {
        buffer := buffer + s;
        buffer := buffer + Spaces(len - |s|);
      }
      recLeng := Wrap32(recLeng + len);
    }

    /** addItem<T>(value) (fortRecWrite.cxx:139-162): the bytes of the
        value are appended one at a time. */
    method AddItem(it: Item)
      requires Valid() && ValidItem(it) && WriterKind(it.kind)
      modifies this
      ensures State() == AddItemSpec(old(State()), it) && Valid()
    {
      Wrap32Add(|buffer|, Width(it.kind));
      var cVal := EncodeItem(it);
      for i := 0 to Width(it.kind)
        invariant buffer == old(buffer) + cVal[..i]
        invariant out == old(out) && good == old(good) && isOpen == old(isOpen)
        invariant recLeng == old(recLeng)
      {
        buffer := buffer + [cVal[i]];
      }
      recLeng := Wrap32(recLeng + Width(it.kind));
    }
  }
}
