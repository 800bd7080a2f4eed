/** utf8.ValidString: byte strings that are UTF-8 (section 3 of RFC 3629). */
module Utf8Text {
  import opened Common

  /** n bytes that continue a sequence, the first of them in a narrower range. */
  predicate Continues(b: seq<byte>, k: nat, n: nat, lo: byte, hi: byte)
    requires n >= 1
  {
    k + n <= |b| && lo <= b[k] <= hi && forall j :: k < j < k + n ==> 0x80 <= b[j] <= 0xBF
  }

  /** The length of the UTF-8 sequence that starts at k (section 3 of RFC 3629). */
  function RuneLength(b: seq<byte>, k: nat): (r: Option<nat>)
    requires k < |b|
    ensures r.Some? ==> 1 <= r.value && k + r.value <= |b|
  {
    var c := b[k];
    if c < 0x80 then Some(1)
    else if 0xC2 <= c <= 0xDF && Continues(b, k + 1, 1, 0x80, 0xBF) then Some(2)
    else if 0xE0 <= c <= 0xEF && Continues(b, k + 1, 2, if c == 0xE0 then 0xA0 else 0x80, if c == 0xED then 0x9F else 0xBF) then Some(3)
    else if 0xF0 <= c <= 0xF4 && Continues(b, k + 1, 3, if c == 0xF0 then 0x90 else 0x80, if c == 0xF4 then 0x8F else 0xBF) then Some(4)
    else None
  }

  predicate ValidFrom(b: seq<byte>, k: nat)
    requires k <= |b|
    decreases |b| - k
  {
    k == |b| || (RuneLength(b, k).Some? && ValidFrom(b, k + RuneLength(b, k).value))
  }

  predicate Utf8(b: seq<byte>) {
    ValidFrom(b, 0)
  }

  // ---- the encoding

  /** A Unicode scalar value. */
  predicate Scalar(c: int) {
    0 <= c <= 0x10FFFF && !(0xD800 <= c <= 0xDFFF)
  }

  function RuneBytes(c: int): (b: seq<byte>)
    requires Scalar(c)
    ensures 1 <= |b| <= 4
  {
    if c < 0x80 then [c]
    else if c < 0x800 then [0xC0 + c / 64, 0x80 + c % 64]
    else if c < 0x10000 then [0xE0 + c / 4096, 0x80 + c / 64 % 64, 0x80 + c % 64]
    else [0xF0 + c / 262144, 0x80 + c / 4096 % 64, 0x80 + c / 64 % 64, 0x80 + c % 64]
  }

  ghost predicate Scalars(cs: seq<int>) {
    forall k :: 0 <= k < |cs| ==> Scalar(cs[k])
  }

  function TextBytes(cs: seq<int>): seq<byte>
    requires Scalars(cs)
  {
    if cs == [] then [] else RuneBytes(cs[0]) + TextBytes(cs[1..])
  }

  ghost predicate RuneAt(b: seq<byte>, k: nat, c: int)
    requires Scalar(c)
  {
    k + |RuneBytes(c)| <= |b| && forall j :: 0 <= j < |RuneBytes(c)| ==> RuneBytes(c)[j] == b[k + j]
  }

  lemma {:induction false} RuneIsRead(b: seq<byte>, k: nat, c: int)
    requires Scalar(c) && RuneAt(b, k, c)
    ensures RuneLength(b, k) == Some(|RuneBytes(c)|)
  {
    var r := RuneBytes(c);
    assert r[0] == b[k];
    if |r| > 1 { assert r[1] == b[k + 1]; }
    if |r| > 2 { assert r[2] == b[k + 2]; }
    if |r| > 3 { assert r[3] == b[k + 3]; }
  }

  /** The scalar value a sequence that was accepted stands for. */
  lemma {:induction false} ReadRune(b: seq<byte>, k: nat) returns (c: int)
    requires k < |b| && RuneLength(b, k).Some?
    ensures Scalar(c) && RuneAt(b, k, c) && |RuneBytes(c)| == RuneLength(b, k).value
  {
    var n := RuneLength(b, k).value;
    if n == 1 {
      c := b[k];
    } else if n == 2 {
      var x: int, y: int := b[k], b[k + 1];
      c := (x - 0xC0) * 64 + (y - 0x80);
    } else if n == 3 {
      c := ThreeBytes(b[k], b[k + 1], b[k + 2]);
    } else {
      c := FourBytes(b[k], b[k + 1], b[k + 2], b[k + 3]);
    }
  }

  lemma {:induction false} Digits(p: int, q: int, r: int, t: int)
    requires 0 <= p && 0 <= q < 64 && 0 <= r < 64 && 0 <= t < 64
    ensures var c := p * 262144 + q * 4096 + r * 64 + t;
            c % 64 == t && c / 64 % 64 == r && c / 4096 % 64 == q && c / 262144 == p
  {
    var c := p * 262144 + q * 4096 + r * 64 + t;
    assert c / 64 == p * 4096 + q * 64 + r;
    assert c / 4096 == p * 64 + q;
  }

  lemma {:induction false} ThreeBytes(x: byte, y: byte, z: byte) returns (c: int)
    requires 0xE0 <= x <= 0xEF && 0x80 <= y <= 0xBF && 0x80 <= z <= 0xBF
    requires x == 0xE0 ==> y >= 0xA0
    requires x == 0xED ==> y <= 0x9F
    ensures Scalar(c) && RuneBytes(c) == [x, y, z]
  {
    var x', y', z': int := x, y, z;
    Digits(0, x' - 0xE0, y' - 0x80, z' - 0x80);
    c := (x' - 0xE0) * 4096 + (y' - 0x80) * 64 + (z' - 0x80);
  }

  lemma {:induction false} FourBytes(x: byte, y: byte, z: byte, t: byte) returns (c: int)
    requires 0xF0 <= x <= 0xF4 && 0x80 <= y <= 0xBF && 0x80 <= z <= 0xBF && 0x80 <= t <= 0xBF
    requires x == 0xF0 ==> y >= 0x90
    requires x == 0xF4 ==> y <= 0x8F
    ensures Scalar(c) && RuneBytes(c) == [x, y, z, t]
  {
    var x', y', z', t': int := x, y, z, t;
    Digits(x' - 0xF0, y' - 0x80, z' - 0x80, t' - 0x80);
    c := (x' - 0xF0) * 262144 + (y' - 0x80) * 4096 + (z' - 0x80) * 64 + (t' - 0x80);
  }

  lemma {:induction false} TextIsValidFrom(cs: seq<int>, b: seq<byte>, k: nat)
    requires Scalars(cs) && k <= |b| && b[k..] == TextBytes(cs)
    ensures ValidFrom(b, k)
    decreases |cs|
  {
    if cs != [] {
      var r := RuneBytes(cs[0]);
      TakeFront(b, k, r, TextBytes(cs[1..]));
      RuneIsRead(b, k, cs[0]);
      TextIsValidFrom(cs[1..], b, k + |r|);
    }
  }

  lemma {:induction false} TakeFront(b: seq<byte>, k: nat, r: seq<byte>, rest: seq<byte>)
    requires k <= |b| && b[k..] == r + rest
    ensures k + |r| <= |b| && b[k + |r|..] == rest
    ensures forall j :: 0 <= j < |r| ==> r[j] == b[k + j]
  {
  }

  lemma {:induction false} ValidIsTextFrom(b: seq<byte>, k: nat) returns (cs: seq<int>)
    requires k <= |b| && ValidFrom(b, k)
    ensures Scalars(cs) && b[k..] == TextBytes(cs)
    decreases |b| - k
  {
    if k == |b| {
      cs := [];
    } else {
      var c := ReadRune(b, k);
      var rest := ValidIsTextFrom(b, k + |RuneBytes(c)|);
      cs := [c] + rest;
      assert cs[1..] == rest;
      assert b[k..] == RuneBytes(c) + b[k + |RuneBytes(c)|..];
    }
  }

  /** Valid are exactly the encodings of sequences of scalar values. */
  lemma {:induction false} Utf8IsEncodedText(b: seq<byte>)
    ensures Utf8(b) <==> exists cs: seq<int> :: Scalars(cs) && TextBytes(cs) == b
  {
    if Utf8(b) {
      var cs := ValidIsTextFrom(b, 0);
      assert b[0..] == b;
    }
    if cs :| Scalars(cs) && TextBytes(cs) == b {
      assert b[0..] == b;
      TextIsValidFrom(cs, b, 0);
    }
  }
}
