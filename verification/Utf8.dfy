/** UTF-8 as section 3 of RFC 3629 defines it: the bytes of a scalar value, and the decoder that shows they are
    the right ones. */
module Utf8 {
  import opened Protocol

  predicate IsSurrogate(n: int) {
    0xD800 <= n < 0xE000
  }

  /** Unicode scalar values: what UTF-8 encodes. */
  type Scalar = n: int | 0 <= n < 0x11_0000 && !IsSurrogate(n)

  function Encode(n: Scalar): (r: bytes)
    ensures 1 <= |r| <= 4
  {
    if n < 0x80 then [n]
    else if n < 0x800 then [0xC0 + n / 64, 0x80 + n % 64]
    else if n < 0x1_0000 then [0xE0 + n / 4096, 0x80 + n / 64 % 64, 0x80 + n % 64]
    else [0xF0 + n / 262144, 0x80 + n / 4096 % 64, 0x80 + n / 64 % 64, 0x80 + n % 64]
  }

  function EncodeAll(ns: seq<Scalar>): bytes {
    if ns == [] then [] else Encode(ns[0]) + EncodeAll(ns[1..])
  }

  /** The six bits of a continuation byte. */
  function Bits(b: byte): Option<int> {
    var n: int := b;
    if 0x80 <= n < 0xC0 then Some(n - 0x80) else None
  }

  /** Whether n is a scalar value that needs exactly size bytes; longer forms are malformed. */
  predicate NeedsBytes(n: int, size: nat) {
    match size
    case 2 => 0x80 <= n < 0x800
    case 3 => 0x800 <= n < 0x1_0000 && !IsSurrogate(n)
    case 4 => 0x1_0000 <= n < 0x11_0000
    case _ => false
  }

  function Scalar2(lead: int, b: byte): Option<int> {
    if Bits(b).None? then None else Some(lead * 64 + Bits(b).value)
  }

  function Scalar3(lead: int, b: byte, c: byte): Option<int> {
    if Scalar2(lead, b).None? || Bits(c).None? then None else Some(Scalar2(lead, b).value * 64 + Bits(c).value)
  }

  function Scalar4(lead: int, b: byte, c: byte, d: byte): Option<int> {
    if Scalar3(lead, b, c).None? || Bits(d).None? then None else Some(Scalar3(lead, b, c).value * 64 + Bits(d).value)
  }

  function Checked(n: Option<int>, size: nat): Option<(Scalar, nat)> {
    if n.Some? && NeedsBytes(n.value, size) then Some((n.value, size)) else None
  }

  /** The scalar value at the head of bs and how many bytes it takes. */
  function DecodeFirst(bs: bytes): (r: Option<(Scalar, nat)>)
    ensures r.Some? ==> 1 <= r.value.1 <= |bs|
  {
    if bs == [] then None
    else
      var a: int := bs[0];
      if a < 0x80 then Some((a, 1))
      else if 0xC0 <= a < 0xE0 && |bs| >= 2 then Checked(Scalar2(a - 0xC0, bs[1]), 2)
      else if 0xE0 <= a < 0xF0 && |bs| >= 3 then Checked(Scalar3(a - 0xE0, bs[1], bs[2]), 3)
      else if 0xF0 <= a < 0xF8 && |bs| >= 4 then Checked(Scalar4(a - 0xF0, bs[1], bs[2], bs[3]), 4)
      else None
  }

  function DecodeAll(bs: bytes): Option<seq<Scalar>>
    decreases |bs|
  {
    if bs == [] then Some([])
    else
      match DecodeFirst(bs)
      case None => None
      case Some((n, size)) =>
        match DecodeAll(bs[size..])
        case None => None
        case Some(rest) => Some([n] + rest)
  }

  lemma TwoBytes(n: Scalar, rest: bytes)
    requires 0x80 <= n < 0x800
    ensures DecodeFirst(Encode(n) + rest) == Some((n, 2))
  {
    var bs := Encode(n) + rest;
    assert bs[0] == 0xC0 + n / 64 && bs[1] == 0x80 + n % 64;
  }

  lemma ThreeBytes(n: Scalar, rest: bytes)
    requires 0x800 <= n < 0x1_0000
    ensures DecodeFirst(Encode(n) + rest) == Some((n, 3))
  {
    var bs := Encode(n) + rest;
    assert bs[0] == 0xE0 + n / 4096 && bs[1] == 0x80 + n / 64 % 64 && bs[2] == 0x80 + n % 64;
    assert n / 4096 == n / 64 / 64;
  }

  lemma FourBytes(n: Scalar, rest: bytes)
    requires 0x1_0000 <= n
    ensures DecodeFirst(Encode(n) + rest) == Some((n, 4))
  {
    var bs := Encode(n) + rest;
    assert bs[0] == 0xF0 + n / 262144 && bs[1] == 0x80 + n / 4096 % 64;
    assert bs[2] == 0x80 + n / 64 % 64 && bs[3] == 0x80 + n % 64;
    assert n / 4096 == n / 64 / 64 && n / 262144 == n / 4096 / 64;
  }

  lemma DecodeFirstOfEncode(n: Scalar, rest: bytes)
    ensures DecodeFirst(Encode(n) + rest) == Some((n, |Encode(n)|))
  {
    if n < 0x80 {
      assert (Encode(n) + rest)[0] == n;
    } else if n < 0x800 {
      TwoBytes(n, rest);
    } else if n < 0x1_0000 {
      ThreeBytes(n, rest);
    } else {
      FourBytes(n, rest);
    }
  }

  /** The bytes determine the text: decoding gives the scalar values back. */
  lemma {:induction false} DecodeAfterEncodeAll(ns: seq<Scalar>)
    ensures DecodeAll(EncodeAll(ns)) == Some(ns)
  {
    if ns != [] {
      var rest := EncodeAll(ns[1..]);
      DecodeFirstOfEncode(ns[0], rest);
      assert (Encode(ns[0]) + rest)[|Encode(ns[0])|..] == rest;
      DecodeAfterEncodeAll(ns[1..]);
      assert ns == [ns[0]] + ns[1..];
    }
  }

  lemma OnlyTwoBytes(bs: bytes)
    requires |bs| >= 2 && 0xC0 <= bs[0] < 0xE0 && DecodeFirst(bs).Some?
    ensures DecodeFirst(bs).value.1 == 2 && Encode(DecodeFirst(bs).value.0) == bs[..2]
  {
    var n := Scalar2(bs[0] as int - 0xC0, bs[1]).value;
    assert n / 64 == bs[0] - 0xC0;
  }

  lemma OnlyThreeBytes(bs: bytes)
    requires |bs| >= 3 && 0xE0 <= bs[0] < 0xF0 && DecodeFirst(bs).Some?
    ensures DecodeFirst(bs).value.1 == 3 && Encode(DecodeFirst(bs).value.0) == bs[..3]
  {
    var n := Scalar3(bs[0] as int - 0xE0, bs[1], bs[2]).value;
    assert n / 64 == Scalar2(bs[0] as int - 0xE0, bs[1]).value;
    assert n / 4096 == n / 64 / 64;
  }

  lemma OnlyFourBytes(bs: bytes)
    requires |bs| >= 4 && 0xF0 <= bs[0] < 0xF8 && DecodeFirst(bs).Some?
    ensures DecodeFirst(bs).value.1 == 4 && Encode(DecodeFirst(bs).value.0) == bs[..4]
  {
    var n := Scalar4(bs[0] as int - 0xF0, bs[1], bs[2], bs[3]).value;
    assert n / 64 == Scalar3(bs[0] as int - 0xF0, bs[1], bs[2]).value;
    assert n / 64 / 64 == Scalar2(bs[0] as int - 0xF0, bs[1]).value;
    assert n / 4096 == n / 64 / 64 && n / 262144 == n / 4096 / 64;
  }

  lemma EncodeOfDecodeFirst(bs: bytes)
    requires DecodeFirst(bs).Some?
    ensures Encode(DecodeFirst(bs).value.0) == bs[..DecodeFirst(bs).value.1]
  {
    if bs[0] >= 0xF0 {
      OnlyFourBytes(bs);
    } else if bs[0] >= 0xE0 {
      OnlyThreeBytes(bs);
    } else if bs[0] >= 0x80 {
      OnlyTwoBytes(bs);
    }
  }

  lemma EncodeAllOneMore(n: Scalar, ns: seq<Scalar>)
    ensures EncodeAll([n] + ns) == Encode(n) + EncodeAll(ns)
  {
    assert ([n] + ns)[1..] == ns;
  }

  /** The decoder accepts nothing but encodings. */
  lemma {:induction false} EncodeAfterDecodeAll(bs: bytes)
    requires DecodeAll(bs).Some?
    ensures EncodeAll(DecodeAll(bs).value) == bs
    decreases |bs|
  {
    if bs != [] {
      var (n, size) := DecodeFirst(bs).value;
      EncodeOfDecodeFirst(bs);
      EncodeAfterDecodeAll(bs[size..]);
      var ns := DecodeAll(bs).value;
      assert ns == [n] + DecodeAll(bs[size..]).value;
      EncodeAllOneMore(n, DecodeAll(bs[size..]).value);
      assert bs == bs[..size] + bs[size..];
    }
  }

  lemma {:induction false} EncodeAllAppend(a: seq<Scalar>, b: seq<Scalar>)
    ensures EncodeAll(a + b) == EncodeAll(a) + EncodeAll(b)
  {
    if a == [] {
      assert a + b == b;
    } else {
      assert (a + b)[1..] == a[1..] + b;
      EncodeAllAppend(a[1..], b);
    }
  }
}
