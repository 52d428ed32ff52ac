/**
 * The byte-level conventions shared by the asset converters and loaders:
 * 4-byte integers in host (little-endian) two's-complement order,
 * strings as a 4-byte length followed by the bytes with no terminator,
 * float fields as opaque 4-byte words, and lists written back to back.
 */
module Bytes {
  import opened Wrappers

  /** One stored byte. */
  newtype byte = x: int | 0 <= x < 256

  const TWO32: int := 0x1_0000_0000
  const TWO31: int := 0x8000_0000

  /** A C++ `int` on the target platform. */
  newtype int32 = x: int | -0x8000_0000 <= x < 0x8000_0000

  /** A C++ `unsigned int` on the target platform. */
  newtype uint32 = x: int | 0 <= x < 0x1_0000_0000

  /** A float (or any other 4-byte field the model does not interpret), kept as its stored bytes. */
  type Word = w: seq<byte> | |w| == 4 witness [0, 0, 0, 0]

  const ZERO_WORD: Word := [0, 0, 0, 0]

  /** Conversion of an integer to `unsigned int` (reduction modulo 2^32). */
  function Uint32Of(n: int): (r: uint32)
    ensures r as int % TWO32 == n % TWO32
  {
    (n % TWO32) as uint32
  }

  /** Conversion of an integer to `int` (two's-complement wrap-around). */
  function Int32Of(n: int): (r: int32)
    ensures (r as int - n) % TWO32 == 0
    ensures -TWO31 <= n < TWO31 ==> r as int == n
  {
    var u := n % TWO32;
    if u >= TWO31 then (u - TWO32) as int32 else u as int32
  }

  function UintToBytes(u: uint32): (r: seq<byte>)
    ensures |r| == 4
  {
    var q1 := u as int / 256;
    var q2 := q1 / 256;
    [(u as int % 256) as byte, (q1 % 256) as byte, (q2 % 256) as byte, (q2 / 256) as byte]
  }

  function BytesToUint(b: seq<byte>): (r: uint32)
    requires |b| == 4
  {
    (b[0] as int + 256 * b[1] as int + 65536 * b[2] as int + 16777216 * b[3] as int) as uint32
  }

  /** `intToByte`: the four bytes of a C++ int, lowest first. */
  function IntToBytes(x: int32): (r: seq<byte>)
    ensures |r| == 4
  {
    UintToBytes(Uint32Of(x as int))
  }

  /** `byteToInt` on exactly four bytes. */
  function BytesToInt(b: seq<byte>): int32
    requires |b| == 4
  {
    Int32Of(BytesToUint(b) as int)
  }

  lemma UintBytesRoundTrip(u: uint32)
    ensures BytesToUint(UintToBytes(u)) == u
  {
    var q1 := u as int / 256;
    var q2 := q1 / 256;
    assert u as int == u as int % 256 + 256 * q1;
    assert q1 == q1 % 256 + 256 * q2;
    assert q2 == q2 % 256 + 256 * (q2 / 256);
  }

  lemma BytesUintRoundTrip(b: seq<byte>)
    requires |b| == 4
    ensures UintToBytes(BytesToUint(b)) == b
  {
    var u := BytesToUint(b) as int;
    var q1 := b[1] as int + 256 * b[2] as int + 65536 * b[3] as int;
    var q2 := b[2] as int + 256 * b[3] as int;
    assert u == b[0] as int + 256 * q1;
    assert u / 256 == q1 && u % 256 == b[0] as int;
    assert q1 == b[1] as int + 256 * q2;
    assert q1 / 256 == q2 && q1 % 256 == b[1] as int;
    assert q2 / 256 == b[3] as int && q2 % 256 == b[2] as int;
  }

  /** Decoding the bytes `intToByte` wrote gives back the same int. */
  lemma IntRoundTrip(x: int32)
    ensures BytesToInt(IntToBytes(x)) == x
  {
    UintBytesRoundTrip(Uint32Of(x as int));
  }

  /** Every four bytes are the encoding of exactly one int: encoding what was decoded gives the same bytes. */
  lemma BytesRoundTrip(b: seq<byte>)
    requires |b| == 4
    ensures IntToBytes(BytesToInt(b)) == b
  {
    BytesUintRoundTrip(b);
  }

  // ---------------------------------------------------------------------
  // Reading from the front of a byte stream. `None` is a read past the end
  // (or any other failure the C++ stream or allocation would report).

  /** Reads one int; the rest of the stream is what follows its four bytes. */
  function ReadInt(s: seq<byte>): (r: Option<(int32, seq<byte>)>)
    ensures r.Some? <==> |s| >= 4
    ensures r.Some? ==> IntToBytes(r.value.0) == s[..4] && r.value.1 == s[4..]
  {
    if |s| < 4 then None
    else
      BytesRoundTrip(s[..4]);
      Some((BytesToInt(s[..4]), s[4..]))
  }

  lemma ReadIntRoundTrip(x: int32, rest: seq<byte>)
    ensures ReadInt(IntToBytes(x) + rest) == Some((x, rest))
  {
    var s := IntToBytes(x) + rest;
    assert s[..4] == IntToBytes(x) && s[4..] == rest;
    IntRoundTrip(x);
  }

  /** `byteToBool`: true exactly when the stored int is 1. */
  function ReadBool(s: seq<byte>): (r: Option<(bool, seq<byte>)>)
    ensures r.Some? <==> |s| >= 4
    ensures r.Some? ==> r.value.1 == s[4..] && (r.value.0 <==> BytesToInt(s[..4]) == 1)
  {
    match ReadInt(s)
    case None => None
    case Some((n, rest)) => Some((n == 1, rest))
  }

  function ReadWord(s: seq<byte>): (r: Option<(Word, seq<byte>)>)
    ensures r.Some? <==> |s| >= 4
    ensures r.Some? ==> s == r.value.0 + r.value.1
  {
    if |s| < 4 then None else Some((s[..4], s[4..]))
  }

  /** `stringToByte`: the length as an unsigned int, then every byte of the string. */
  function StringToBytes(str: seq<byte>): (r: seq<byte>)
    ensures |r| == 4 + |str| && r[4..] == str
  {
    UintToBytes(Uint32Of(|str|)) + str
  }

  /** The next four bytes hold a negative int: a string length `byteToString` cannot allocate. */
  predicate NegativeLength(s: seq<byte>)
  {
    |s| >= 4 && BytesToInt(s[..4]) < 0
  }

  /**
   * `byteToString`: a signed length n, then n bytes. A negative length makes the
   * C++ buffer allocation throw (`NegativeLength`, which readers that model the
   * exception test first), and fewer than n remaining bytes is a failed read.
   */
  function ReadString(s: seq<byte>): (r: Option<(seq<byte>, seq<byte>)>)
    ensures r.Some? ==> |s| >= 4 && s == s[..4] + r.value.0 + r.value.1
    ensures r.Some? ==> BytesToInt(s[..4]) as int == |r.value.0|
    ensures NegativeLength(s) ==> r.None?
  {
    match ReadInt(s)
    case None => None
    case Some((n, rest)) =>
      if n < 0 || |rest| < n as int then None
      else Some((rest[..n], rest[n..]))
  }

  /** A string shorter than 2^31 bytes reads back unchanged, and the rest of the stream is untouched. */
  lemma StringRoundTrip(str: seq<byte>, rest: seq<byte>)
    requires |str| < TWO31
    ensures ReadString(StringToBytes(str) + rest) == Some((str, rest))
  {
    var s := StringToBytes(str) + rest;
    assert s[..4] == IntToBytes(|str| as int32);
    IntRoundTrip(|str| as int32);
    assert s[4..] == str + rest;
  }

  /** A stored length of 2^31 or more reads back negative, so the loader cannot read such a string. */
  lemma LongStringUnreadable(str: seq<byte>, rest: seq<byte>)
    requires TWO31 <= |str| < TWO32
    ensures ReadString(StringToBytes(str) + rest).None?
  {
    var s := StringToBytes(str) + rest;
    assert s[..4] == UintToBytes(|str| as uint32);
    UintBytesRoundTrip(|str| as uint32);
    assert BytesToInt(s[..4]) < 0;
  }

  // ---------------------------------------------------------------------
  // Floats and raw struct blocks.

  /** Flips the sign bit of a little-endian IEEE-754 float (bit 7 of its last byte): `x *= -1`. */
  function NegateWord(w: Word): (r: Word)
    ensures r[..3] == w[..3]
    ensures r[3] % 128 == w[3] % 128 && (r[3] >= 128 <==> w[3] < 128)
  {
    w[..3] + [if w[3] >= 128 then w[3] - 128 else w[3] + 128]
  }

  lemma NegateWordInvolution(w: Word)
    ensures NegateWord(NegateWord(w)) == w
  {
  }

  datatype Float3 = Float3(x: Word, y: Word, z: Word)

  function Float3ToBytes(v: Float3): (r: seq<byte>)
    ensures |r| == 12
  {
    v.x + v.y + v.z
  }

  function ReadFloat3(s: seq<byte>): (r: Option<(Float3, seq<byte>)>)
    ensures r.Some? <==> |s| >= 12
    ensures r.Some? ==> s == Float3ToBytes(r.value.0) + r.value.1
  {
    if |s| < 12 then None
    else Some((Float3(s[..4], s[4..8], s[8..12]), s[12..]))
  }

  lemma Float3RoundTrip(v: Float3, rest: seq<byte>)
    ensures ReadFloat3(Float3ToBytes(v) + rest) == Some((v, rest))
  {
    var s := Float3ToBytes(v) + rest;
    assert s[..4] == v.x && s[4..8] == v.y && s[8..12] == v.z && s[12..] == rest;
  }

  /** A raw struct copied with `write(&x, sizeof x)`: a fixed number of opaque words. */
  function WordsToBytes(ws: seq<Word>): (r: seq<byte>)
    ensures |r| == 4 * |ws|
  {
    if ws == [] then [] else ws[0] + WordsToBytes(ws[1..])
  }

  function ReadWords(s: seq<byte>, n: nat): (r: Option<(seq<Word>, seq<byte>)>)
    ensures r.Some? <==> |s| >= 4 * n
    ensures r.Some? ==> |r.value.0| == n && s == WordsToBytes(r.value.0) + r.value.1
  {
    if n == 0 then Some(([], s))
    else if |s| < 4 then None
    else
      match ReadWords(s[4..], n - 1)
      case None => None
      case Some((ws, rest)) =>
        assert WordsToBytes([s[..4]] + ws) == s[..4] + WordsToBytes(ws);
        Some(([s[..4]] + ws, rest))
  }

  lemma {:induction false} WordsRoundTrip(ws: seq<Word>, rest: seq<byte>)
    ensures ReadWords(WordsToBytes(ws) + rest, |ws|) == Some((ws, rest))
  {
    if ws != [] {
      var s := WordsToBytes(ws) + rest;
      assert s == ws[0] + (WordsToBytes(ws[1..]) + rest);
      assert s[..4] == ws[0];
      assert s[4..] == WordsToBytes(ws[1..]) + rest;
      WordsRoundTrip(ws[1..], rest);
      assert ReadWords(s[4..], |ws| - 1) == Some((ws[1..], rest));
      assert [s[..4]] + ws[1..] == ws;
    } else {
      assert WordsToBytes(ws) + rest == rest;
    }
  }

  // ---------------------------------------------------------------------
  // Lists written back to back, and their count-driven readers.

  function EncodeAll<T>(xs: seq<T>, enc: T -> seq<byte>): seq<byte>
  {
    if xs == [] then [] else enc(xs[0]) + EncodeAll(xs[1..], enc)
  }

  /** Reads exactly n records with `dec`, failing if any of them fails. */
  function DecodeN<T>(s: seq<byte>, n: nat, dec: seq<byte> -> Option<(T, seq<byte>)>): (r: Option<(seq<T>, seq<byte>)>)
    ensures r.Some? ==> |r.value.0| == n
    decreases n
  {
    if n == 0 then Some(([], s))
    else
      match dec(s)
      case None => None
      case Some((x, rest)) =>
        match DecodeN(rest, n - 1, dec)
        case None => None
        case Some((xs, rest')) => Some(([x] + xs, rest'))
  }

  /** `dec` reads back what `enc` wrote for every value allowed by `ok`, leaving the rest of the stream. */
  ghost predicate Inverse<T(!new)>(enc: T -> seq<byte>, dec: seq<byte> -> Option<(T, seq<byte>)>, ok: T -> bool)
  {
    forall x: T, rest: seq<byte> :: ok(x) ==> dec(enc(x) + rest) == Some((x, rest))
  }

  lemma {:induction false} DecodeNRoundTrip<T(!new)>(xs: seq<T>, rest: seq<byte>, enc: T -> seq<byte>,
                                                dec: seq<byte> -> Option<(T, seq<byte>)>, ok: T -> bool)
    requires Inverse(enc, dec, ok)
    requires forall i :: 0 <= i < |xs| ==> ok(xs[i])
    ensures DecodeN(EncodeAll(xs, enc) + rest, |xs|, dec) == Some((xs, rest))
  {
    if xs != [] {
      var tail := EncodeAll(xs[1..], enc) + rest;
      assert EncodeAll(xs, enc) + rest == enc(xs[0]) + tail;
      assert dec(enc(xs[0]) + tail) == Some((xs[0], tail));
      DecodeNRoundTrip(xs[1..], rest, enc, dec, ok);
      assert DecodeN(tail, |xs| - 1, dec) == Some((xs[1..], rest));
      assert [xs[0]] + xs[1..] == xs;
    } else {
      assert EncodeAll(xs, enc) + rest == rest;
    }
  }

  /** A list preceded by its length as an int (`intToByte((int)v.size())`). */
  function EncodeCounted<T>(xs: seq<T>, enc: T -> seq<byte>): seq<byte>
  {
    IntToBytes(Int32Of(|xs|)) + EncodeAll(xs, enc)
  }

  /** Reads a count, then that many records; a negative count fails the `resize`. */
  function DecodeCounted<T>(s: seq<byte>, dec: seq<byte> -> Option<(T, seq<byte>)>): (r: Option<(seq<T>, seq<byte>)>)
    ensures r.Some? ==> |s| >= 4 && |r.value.0| == BytesToInt(s[..4]) as int
  {
    match ReadInt(s)
    case None => None
    case Some((n, rest)) => if n < 0 then None else DecodeN(rest, n as nat, dec)
  }

  lemma DecodeCountedRoundTrip<T(!new)>(xs: seq<T>, rest: seq<byte>, enc: T -> seq<byte>,
                                  dec: seq<byte> -> Option<(T, seq<byte>)>, ok: T -> bool)
    requires |xs| < TWO31
    requires Inverse(enc, dec, ok)
    requires forall i :: 0 <= i < |xs| ==> ok(xs[i])
    ensures DecodeCounted(EncodeCounted(xs, enc) + rest, dec) == Some((xs, rest))
  {
    var s := EncodeCounted(xs, enc) + rest;
    assert s[..4] == IntToBytes(|xs| as int32);
    IntRoundTrip(|xs| as int32);
    assert s[4..] == EncodeAll(xs, enc) + rest;
    DecodeNRoundTrip(xs, rest, enc, dec, ok);
  }

  /** The loop form of `DecodeN`: the records read so far, prepended to what the rest of the stream decodes to. */
  function Prepend<T>(done: seq<T>, r: Option<(seq<T>, seq<byte>)>): Option<(seq<T>, seq<byte>)>
  {
    match r
    case None => None
    case Some((xs, rest)) => Some((done + xs, rest))
  }

  lemma {:induction false} EncodeAllAppend<T>(xs: seq<T>, x: T, enc: T -> seq<byte>)
    ensures EncodeAll(xs + [x], enc) == EncodeAll(xs, enc) + enc(x)
  {
    if xs == [] {
      assert xs + [x] == [x];
    } else {
      assert (xs + [x])[1..] == xs[1..] + [x];
      EncodeAllAppend(xs[1..], x, enc);
    }
  }

  lemma {:induction false} EncodeAllConcat<T>(xs: seq<T>, ys: seq<T>, enc: T -> seq<byte>)
    ensures EncodeAll(xs + ys, enc) == EncodeAll(xs, enc) + EncodeAll(ys, enc)
  {
    if xs == [] {
      assert xs + ys == ys;
    } else {
      assert (xs + ys)[1..] == xs[1..] + ys;
      EncodeAllConcat(xs[1..], ys, enc);
    }
  }

  /** Adding to a wrapped int and wrapping again is the same as wrapping the exact sum. */
  lemma Int32OfAdd(a: int, b: int)
    ensures Int32Of(Int32Of(a) as int + b) == Int32Of(a + b)
  {
    var r1 := Int32Of(Int32Of(a) as int + b);
    var r2 := Int32Of(a + b);
    assert (r1 as int - r2 as int) % TWO32 == 0;
  }

  /** The element at index `i`, or `None` where `std::vector::at` throws `std::out_of_range`. */
  function At<T>(xs: seq<T>, i: int): (r: Option<T>)
    ensures r.Some? <==> 0 <= i < |xs|
    ensures r.Some? ==> r.value == xs[i]
  {
    if 0 <= i < |xs| then Some(xs[i]) else None
  }

  /** What a converter's `writeFile` did: wrote the file, returned false, or let `std::out_of_range` escape. */
  datatype WriteResult = Wrote(file: seq<byte>) | Refused | OutOfRange

  /** What a binary loader reports: loaded, file not opened, or a stream the C++ cannot read sensibly. */
  datatype LoadResult = Loaded | CannotOpen | Malformed

  /** The converters' `for (...) write(record)` loop. */
  method WriteAll<T>(xs: seq<T>, enc: T -> seq<byte>) returns (out: seq<byte>)
    ensures out == EncodeAll(xs, enc)
  {
    out := [];
    var i := 0;
    while i < |xs|
      invariant 0 <= i <= |xs|
      invariant out == EncodeAll(xs[..i], enc)
    {
      EncodeAllAppend(xs[..i], xs[i], enc);
      assert xs[..i + 1] == xs[..i] + [xs[i]];
      out := out + enc(xs[i]);
      i := i + 1;
    }
    assert xs[..i] == xs;
  }

  /** The loop count of `for (int i = 0; i < n; i++)`: a negative bound runs no iteration. */
  function Iterations(n: int32): nat
  {
    if n < 0 then 0 else n as nat
  }

  /**
   * The loaders' `for (i = 0; i < n; i++) { read one record; push_back }` loop:
   * it reads `Iterations(n)` records and stops at the first failed read.
   */
  method ReadEach<T>(n: int32, s: seq<byte>, dec: seq<byte> -> Option<(T, seq<byte>)>)
    returns (r: Option<(seq<T>, seq<byte>)>)
    ensures r == DecodeN(s, Iterations(n), dec)
  {
    var acc: seq<T> := [];
    var cur := s;
    var i := 0;
    match DecodeN(s, Iterations(n), dec) {
      case None =>
      case Some((xs, rest)) => assert [] + xs == xs;
    }
    while i < n as int
      invariant 0 <= i <= Iterations(n)
      decreases n as int - i
      invariant DecodeN(s, Iterations(n), dec) == Prepend(acc, DecodeN(cur, Iterations(n) - i, dec))
    {
      var next := dec(cur);
      if next.None? {
        return None;
      }
      var (x, rest) := next.value;
      assert DecodeN(cur, Iterations(n) - i, dec) == Prepend([x], DecodeN(rest, Iterations(n) - i - 1, dec));
      match DecodeN(rest, Iterations(n) - i - 1, dec) {
        case None =>
        case Some((xs, rest')) => assert acc + ([x] + xs) == (acc + [x]) + xs;
      }
      acc := acc + [x];
      cur := rest;
      i := i + 1;
    }
    assert DecodeN(cur, 0, dec) == Some(([], cur));
    assert acc + [] == acc;
    r := Some((acc, cur));
  }

  lemma PrependStep<T>(acc: seq<T>, x: T, r: Option<(seq<T>, seq<byte>)>)
    ensures Prepend(acc, Prepend([x], r)) == Prepend(acc + [x], r)
  {
    if r.Some? {
      assert acc + ([x] + r.value.0) == (acc + [x]) + r.value.0;
    }
  }

  lemma PrependEmpty<T>(r: Option<(seq<T>, seq<byte>)>)
    ensures Prepend([], r) == r
  {
    if r.Some? {
      assert [] + r.value.0 == r.value.0;
    }
  }

  /** Every record passes the check for its own position. */
  predicate AllAt<T>(xs: seq<T>, ok: (nat, T) -> bool)
  {
    forall k :: 0 <= k < |xs| ==> ok(k, xs[k])
  }

  /**
   * `ReadEach` whose loop also checks each record against its position as it
   * is read, and fails at the first record that does not pass.
   */
  method ReadEachChecked<T>(n: int32, s: seq<byte>, dec: seq<byte> -> Option<(T, seq<byte>)>, ok: (nat, T) -> bool)
    returns (r: Option<(seq<T>, seq<byte>)>)
    ensures r.Some? <==> DecodeN(s, Iterations(n), dec).Some? && AllAt(DecodeN(s, Iterations(n), dec).value.0, ok)
    ensures r.Some? ==> r == DecodeN(s, Iterations(n), dec)
  {
    var acc: seq<T> := [];
    var cur := s;
    var i := 0;
    PrependEmpty(DecodeN(s, Iterations(n), dec));
    while i < n as int
      invariant 0 <= i <= Iterations(n) && |acc| == i
      invariant DecodeN(s, Iterations(n), dec) == Prepend(acc, DecodeN(cur, Iterations(n) - i, dec))
      invariant AllAt(acc, ok)
      decreases n as int - i
    {
      var next := dec(cur);
      if next.None? {
        return None;
      }
      var (x, rest) := next.value;
      assert DecodeN(cur, Iterations(n) - i, dec) == Prepend([x], DecodeN(rest, Iterations(n) - i - 1, dec));
      PrependStep(acc, x, DecodeN(rest, Iterations(n) - i - 1, dec));
      if !ok(i, x) {
        ghost var tail := DecodeN(rest, Iterations(n) - i - 1, dec);
        if tail.Some? {
          assert ((acc + [x]) + tail.value.0)[i] == x;
        }
        return None;
      }
      acc := acc + [x];
      cur := rest;
      i := i + 1;
    }
    assert DecodeN(cur, 0, dec) == Some(([], cur));
    assert acc + [] == acc;
    r := Some((acc, cur));
  }
}
