/** The byte layout of the values a record holds. A length marker is a C++
    `int`: four bytes, two's complement, in the byte order of a
    little-endian host. Typed items are written and read back through the
    same fixed-width layout; a floating-point item is carried by the bit
    pattern of its IEEE representation. */
module RawBytes {

  newtype byte = x: int | 0 <= x < 256

  /** 256 to the power `w`. */
  function Pow256(w: nat): (r: nat)
    ensures r >= 1
  {
    if w == 0 then 1 else 256 * Pow256(w - 1)
  }

  const TWO32: int := 0x1_0000_0000
  const TWO31: int := 0x8000_0000

  predicate IsInt32(n: int) { -TWO31 <= n < TWO31 }

  /** The value an `int` holds after an out-of-range value is converted to
      it: the representative of `n` modulo 2^32 in the signed range. */
  function Wrap32(n: int): (r: int)
    ensures IsInt32(r)
    ensures (r - n) % TWO32 == 0
    ensures IsInt32(n) ==> r == n
  {
    var m := n % TWO32;
    if m >= TWO31 then m - TWO32 else m
  }

  /** Adding to a wrapped value and wrapping again is wrapping the sum. */
  lemma Wrap32Add(a: int, b: int)
    ensures Wrap32(Wrap32(a) + b) == Wrap32(a + b)
  {
    var w := Wrap32(a);
    assert (w - a) % TWO32 == 0;
    assert (w + b) % TWO32 == (a + b) % TWO32 by {
      ModShift(a + b, w - a);
    }
  }

  lemma ModShift(x: int, d: int)
    requires d % TWO32 == 0
    ensures (x + d) % TWO32 == x % TWO32
  {
    var q := d / TWO32;
    assert d == TWO32 * q;
    ModMultiple(x, q);
  }

  lemma ModMultiple(x: int, q: int)
    ensures (x + TWO32 * q) % TWO32 == x % TWO32
    decreases if q < 0 then -q else q
  {
    if q > 0 {
      ModMultiple(x, q - 1);
      assert x + TWO32 * q == (x + TWO32 * (q - 1)) + TWO32;
    } else if q < 0 {
      ModMultiple(x, q + 1);
      assert x + TWO32 * (q + 1) == (x + TWO32 * q) + TWO32;
    }
  }

  /** The `w` low-order bytes of `n`, least significant first. */
  function LE(n: nat, w: nat): (r: seq<byte>)
    ensures |r| == w
  {
    if w == 0 then [] else [(n % 256) as byte] + LE(n / 256, w - 1)
  }

  /** The unsigned value of bytes stored least significant first. */
  function FromLE(b: seq<byte>): nat
  {
    if b == [] then 0 else b[0] as nat + 256 * FromLE(b[1..])
  }

  /** The bytes of a `w`-byte value stand for a number below 256^w. */
  lemma {:induction false} FromLEBound(b: seq<byte>)
    ensures FromLE(b) < Pow256(|b|)
  {
    if b != [] {
      FromLEBound(b[1..]);
    }
  }

  lemma ByteOfMod(n: nat)
    ensures ((n % 256) as byte) as nat == n % 256
  {
  }

  lemma DivBelow(n: nat, p: nat)
    requires n < 256 * p
    ensures n / 256 < p
  {
  }

  /** Encoding a value that fits in `w` bytes and decoding it gives it back. */
  lemma {:induction false} FromLEOfLE(n: nat, w: nat)
    requires n < Pow256(w)
    ensures FromLE(LE(n, w)) == n
  {
    if w > 0 {
      var q, d := n / 256, n % 256;
      DivBelow(n, Pow256(w - 1));
      FromLEOfLE(q, w - 1);
      var e := LE(n, w);
      assert e == [d as byte] + LE(q, w - 1);
      assert e[1..] == LE(q, w - 1);
      ByteOfMod(n);
      assert FromLE(e) == e[0] as nat + 256 * FromLE(e[1..]);
    }
  }

  /** Decoding bytes and encoding the value in as many bytes gives them back. */
  lemma {:induction false} LEOfFromLE(b: seq<byte>)
    ensures LE(FromLE(b), |b|) == b
  {
    if b != [] {
      LEOfFromLE(b[1..]);
      var n := FromLE(b);
      assert n % 256 == b[0] as nat;
      assert n / 256 == FromLE(b[1..]);
    }
  }

  /** Half of 256 to the power `w`: the first value a signed `w`-byte
      integer cannot hold. */
  function HalfPow(w: nat): (r: nat)
    requires w > 0
    ensures Pow256(w) == 2 * r
  {
    128 * Pow256(w - 1)
  }

  predicate FitsSigned(n: int, w: nat)
  {
    w > 0 && -(HalfPow(w) as int) <= n < HalfPow(w)
  }

  /** A signed value in `w` bytes, two's complement. */
  function EncodeInt(n: int, w: nat): (r: seq<byte>)
    requires FitsSigned(n, w)
    ensures |r| == w
  {
    LE(if n < 0 then n + Pow256(w) else n, w)
  }

  function DecodeInt(b: seq<byte>): (r: int)
    ensures |b| > 0 ==> FitsSigned(r, |b|)
  {
    FromLEBound(b);
    var u := FromLE(b);
    if |b| > 0 && u >= HalfPow(|b|) then u - Pow256(|b|) else u
  }

  /** Two's complement encoding and decoding are inverse on values that fit. */
  lemma DecodeOfEncode(n: int, w: nat)
    requires FitsSigned(n, w)
    ensures DecodeInt(EncodeInt(n, w)) == n
  {
    FromLEOfLE(if n < 0 then n + Pow256(w) else n, w);
  }

  lemma EncodeOfDecode(b: seq<byte>)
    requires |b| > 0
    ensures EncodeInt(DecodeInt(b), |b|) == b
  {
    LEOfFromLE(b);
    FromLEBound(b);
  }

  lemma Int32Fits(n: int)
    requires IsInt32(n)
    ensures FitsSigned(n, 4)
  {
    assert Pow256(4) == TWO32;
  }

  function Encode32(n: int): (r: seq<byte>)
    requires IsInt32(n)
    ensures |r| == 4
  {
    Int32Fits(n);
    EncodeInt(n, 4)
  }

  function Decode32(b: seq<byte>): (r: int)
    requires |b| == 4
    ensures IsInt32(r)
  {
    assert Pow256(4) == TWO32;
    DecodeInt(b)
  }

  lemma Decode32OfEncode32(n: int)
    requires IsInt32(n)
    ensures Decode32(Encode32(n)) == n
  {
    DecodeOfEncode(n, 4);
  }

  /** The item types the record reader and writer are instantiated for. */
  datatype Kind = DoubleK | FloatK | IntK | UIntK | LongK | ShortK | CharK

  /** `sizeof` of each item type on the modelled host. */
  function Width(k: Kind): (r: nat)
    ensures r in {1, 2, 4, 8}
  {
    match k
    case DoubleK => 8
    case FloatK => 4
    case IntK => 4
    case UIntK => 4
    case LongK => 8
    case ShortK => 2
    case CharK => 1
  }

  /** Signed integer types; the others are carried as unsigned bit patterns. */
  predicate Signed(k: Kind)
  {
    k in {IntK, LongK, ShortK, CharK}
  }

  /** A typed value: an integer for integral types, the bit pattern for
      floating-point types. */
  datatype Item = Item(kind: Kind, value: int)

  predicate ValidItem(it: Item)
  {
    if Signed(it.kind) then FitsSigned(it.value, Width(it.kind))
    else 0 <= it.value < Pow256(Width(it.kind))
  }

  /** The raw bytes of a value, as the union in the writer exposes them. */
  function EncodeItem(it: Item): (r: seq<byte>)
    requires ValidItem(it)
    ensures |r| == Width(it.kind)
  {
    if Signed(it.kind) then EncodeInt(it.value, Width(it.kind))
    else LE(it.value, Width(it.kind))
  }

  /** The value whose raw bytes are `b`, as the reader's cast sees them. */
  function DecodeItem(k: Kind, b: seq<byte>): (r: Item)
    requires |b| == Width(k)
    ensures r.kind == k && ValidItem(r)
  {
    FromLEBound(b);
    if Signed(k) then Item(k, DecodeInt(b)) else Item(k, FromLE(b))
  }

  /** Decoding the raw bytes of a value gives the value back. */
  lemma DecodeOfEncodeItem(it: Item)
    requires ValidItem(it)
    ensures DecodeItem(it.kind, EncodeItem(it)) == it
  {
    if Signed(it.kind) {
      DecodeOfEncode(it.value, Width(it.kind));
    } else {
      FromLEOfLE(it.value, Width(it.kind));
    }
  }

  /** Encoding a decoded value gives the bytes back: every byte pattern of the
      right width is some value. */
  lemma EncodeOfDecodeItem(k: Kind, b: seq<byte>)
    requires |b| == Width(k)
    ensures EncodeItem(DecodeItem(k, b)) == b
  {
    if Signed(k) {
      EncodeOfDecode(b);
    } else {
      LEOfFromLE(b);
    }
  }
}
