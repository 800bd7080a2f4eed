/** youtube/sabr_stream.go's decodeBase64Tolerant over the four RFC 4648 variants
    (sections 4 and 5, with and without padding), as encoding/base64 reads them. */
module Base64 {
  import opened Common
  import Text

  /** An alphabet, and whether padding is demanded or forbidden. */
  datatype Variant = Variant(url: bool, padded: bool)

  const ATTEMPTS: seq<Variant> := [Variant(false, true), Variant(false, false), Variant(true, true), Variant(true, false)]

  type sextet = x: int | 0 <= x < 64

  function Char(url: bool, x: sextet): char {
    if x < 26 then 'A' + x as char
    else if x < 52 then 'a' + (x - 26) as char
    else if x < 62 then '0' + (x - 52) as char
    else if x == 62 then (if url then '-' else '+')
    else (if url then '_' else '/')
  }

  /** What a character stands for; none outside the alphabet. */
  function Sextet(url: bool, c: char): Option<sextet> {
    if 'A' <= c <= 'Z' then Some((c - 'A') as int)
    else if 'a' <= c <= 'z' then Some((c - 'a') as int + 26)
    else if '0' <= c <= '9' then Some((c - '0') as int + 52)
    else if c == (if url then '-' else '+') then Some(62)
    else if c == (if url then '_' else '/') then Some(63)
    else None
  }

  function Three(a: sextet, b: sextet, c: sextet, d: sextet): seq<byte> {
    [a * 4 + b / 16, b % 16 * 16 + c / 4, c % 4 * 64 + d]
  }

  /** RFC 4648, section 4: three bytes make four characters, the end is padded. */
  function Encode(v: Variant, b: seq<byte>): string {
    if |b| == 0 then ""
    else if |b| == 1 then
      [Char(v.url, b[0] / 4), Char(v.url, b[0] % 4 * 16)] + (if v.padded then "==" else "")
    else if |b| == 2 then
      [Char(v.url, b[0] / 4), Char(v.url, b[0] % 4 * 16 + b[1] / 16), Char(v.url, b[1] % 16 * 4)] + (if v.padded then "=" else "")
    else
      [Char(v.url, b[0] / 4), Char(v.url, b[0] % 4 * 16 + b[1] / 16), Char(v.url, b[1] % 16 * 4 + b[2] / 64), Char(v.url, b[2] % 64)]
      + Encode(v, b[3..])
  }

  /** Decoding a text without line breaks. Bits left over in the last character are not
      looked at. */
  function Quanta(v: Variant, s: string): Option<seq<byte>> {
    if s == "" then Some([])
    else if |s| == 1 then None
    else
      var a, b := Sextet(v.url, s[0]), Sextet(v.url, s[1]);
      if a.None? || b.None? then None
      else if s[2..] == (if v.padded then "==" else "") then Some([a.value * 4 + b.value / 16])
      else if |s| == 2 || Sextet(v.url, s[2]).None? then None
      else
        var c := Sextet(v.url, s[2]).value;
        if s[3..] == (if v.padded then "=" else "") then Some(Three(a.value, b.value, c, 0)[..2])
        else if |s| == 3 || Sextet(v.url, s[3]).None? then None
        else
          var rest := Quanta(v, s[4..]);
          if rest.None? then None else Some(Three(a.value, b.value, c, Sextet(v.url, s[3]).value) + rest.value)
  }

  /** Line breaks do not count. */
  function Unbroken(s: string): string {
    if s == "" then ""
    else (if s[0] in "\r\n" then "" else [s[0]]) + Unbroken(s[1..])
  }

  function Decode(v: Variant, s: string): Option<seq<byte>> {
    Quanta(v, Unbroken(s))
  }

  /** decodeBase64Tolerant: the first variant that accepts the text. */
  function Tolerant(s: string): Option<seq<byte>> {
    FirstAccepted(Text.TrimSpace(s), ATTEMPTS)
  }

  function FirstAccepted(s: string, variants: seq<Variant>): Option<seq<byte>> {
    if s == "" then Some([])
    else if variants == [] then None
    else if Decode(variants[0], s).Some? then Decode(variants[0], s)
    else FirstAccepted(s, variants[1..])
  }

  method DecodeTolerant(text: string) returns (r: Option<seq<byte>>)
    ensures r == Tolerant(text)
  {
    var s := Text.TrimSpace(text);
    if s == "" {
      return Some([]);
    }
    for k := 0 to |ATTEMPTS|
      invariant FirstAccepted(s, ATTEMPTS) == FirstAccepted(s, ATTEMPTS[k..])
    {
      var b := Decode(ATTEMPTS[k], s);
      if b.Some? {
        return b;
      }
      assert ATTEMPTS[k..][1..] == ATTEMPTS[k + 1..];
    }
    return None;
  }

  lemma {:induction false} CharThenSextet(url: bool, x: sextet)
    ensures Sextet(url, Char(url, x)) == Some(x)
    ensures Char(url, x) !in "\r\n= "
  {
  }

  /** A byte is split into its first n bits and the rest, and put together again. */
  lemma {:induction false} SplitByte(x: byte)
    ensures x / 4 * 4 + x % 4 == x && x / 16 * 16 + x % 16 == x && x / 64 * 64 + x % 64 == x
    ensures x / 4 < 64 && x / 16 < 16 && x / 64 < 4
  {
  }

  /** What goes in front of and behind a boundary inside a sextet comes apart again. */
  lemma {:induction false} SplitSextet(front: nat, back: nat)
    ensures back < 16 ==> (front * 16 + back) / 16 == front && (front * 16 + back) % 16 == back
    ensures back < 4 ==> (front * 4 + back) / 4 == front && (front * 4 + back) % 4 == back
  {
  }

  lemma {:induction false} BytesFromSextets(x: byte, y: byte, z: byte)
    ensures Three(x / 4, x % 4 * 16 + y / 16, y % 16 * 4 + z / 64, z % 64) == [x, y, z]
    ensures Three(x / 4, x % 4 * 16 + y / 16, y % 16 * 4, 0)[..2] == [x, y]
  {
    SplitByte(x);
    SplitByte(y);
    SplitByte(z);
    SplitSextet(x % 4, y / 16);
    SplitSextet(y % 16, z / 64);
    SplitSextet(y % 16, 0);
  }

  lemma {:induction false} ThreeCharacters(v: Variant, a: sextet, b: sextet, c: sextet)
    ensures Quanta(v, [Char(v.url, a), Char(v.url, b), Char(v.url, c)] + (if v.padded then "=" else "")) == Some(Three(a, b, c, 0)[..2])
  {
    CharThenSextet(v.url, a);
    CharThenSextet(v.url, b);
    CharThenSextet(v.url, c);
    var t := [Char(v.url, a), Char(v.url, b), Char(v.url, c)] + (if v.padded then "=" else "");
    assert t[2..][0] == t[2] && t[3..] == (if v.padded then "=" else "");
  }

  lemma {:induction false} FourCharacters(v: Variant, a: sextet, b: sextet, c: sextet, d: sextet, rest: string)
    requires Quanta(v, rest).Some?
    ensures Quanta(v, [Char(v.url, a), Char(v.url, b), Char(v.url, c), Char(v.url, d)] + rest) == Some(Three(a, b, c, d) + Quanta(v, rest).value)
  {
    CharThenSextet(v.url, a);
    CharThenSextet(v.url, b);
    CharThenSextet(v.url, c);
    CharThenSextet(v.url, d);
    var t := [Char(v.url, a), Char(v.url, b), Char(v.url, c), Char(v.url, d)] + rest;
    assert t[2..][0] == t[2] && t[3..][0] == t[3] && t[4..] == rest;
  }

  lemma {:induction false} OneByteReadsBack(v: Variant, b: seq<byte>)
    requires |b| == 1
    ensures Quanta(v, Encode(v, b)) == Some(b)
  {
    var x := b[0];
    assert b == [x];
    CharThenSextet(v.url, x / 4);
    CharThenSextet(v.url, x % 4 * 16);
    assert Encode(v, b)[2..] == (if v.padded then "==" else "");
    assert x / 4 * 4 + x % 4 * 16 / 16 == x;
  }

  lemma {:induction false} TwoBytesReadBack(v: Variant, b: seq<byte>)
    requires |b| == 2
    ensures Quanta(v, Encode(v, b)) == Some(b)
  {
    var x, y := b[0], b[1];
    assert b == [x, y];
    ThreeCharacters(v, x / 4, x % 4 * 16 + y / 16, y % 16 * 4);
    BytesFromSextets(x, y, 0);
  }

  lemma {:induction false} GroupReadsBack(v: Variant, x: byte, y: byte, z: byte, rest: seq<byte>)
    requires Quanta(v, Encode(v, rest)) == Some(rest)
    ensures Quanta(v, Encode(v, [x, y, z] + rest)) == Some([x, y, z] + rest)
  {
    hide Quanta, Three, Char, Sextet;
    var b := [x, y, z] + rest;
    assert b[3..] == rest;
    FourCharacters(v, x / 4, x % 4 * 16 + y / 16, y % 16 * 4 + z / 64, z % 64, Encode(v, rest));
    BytesFromSextets(x, y, z);
  }

  lemma {:induction false} LongReadsBack(v: Variant, b: seq<byte>)
    requires |b| > 2 && Quanta(v, Encode(v, b[3..])) == Some(b[3..])
    ensures Quanta(v, Encode(v, b)) == Some(b)
  {
    GroupReadsBack(v, b[0], b[1], b[2], b[3..]);
    assert b == [b[0], b[1], b[2]] + b[3..];
  }

  /** What is encoded in a variant is read back by that variant. */
  lemma {:induction false} VariantReadsBack(v: Variant, b: seq<byte>)
    ensures Quanta(v, Encode(v, b)) == Some(b)
  {
    if |b| == 1 {
      OneByteReadsBack(v, b);
    } else if |b| == 2 {
      TwoBytesReadBack(v, b);
    } else if |b| > 2 {
      VariantReadsBack(v, b[3..]);
      LongReadsBack(v, b);
    }
  }

  /** Two variants that both accept a text agree on what it says. */
  lemma {:induction false} VariantsAgree(v: Variant, w: Variant, s: string)
    requires Quanta(v, s).Some? && Quanta(w, s).Some?
    ensures Quanta(v, s) == Quanta(w, s)
  {
    if |s| >= 4 && Quanta(v, s[4..]).Some? && Quanta(w, s[4..]).Some? {
      VariantsAgree(v, w, s[4..]);
    }
  }

  /** The accepted text decides, not the order of the attempts. */
  lemma {:induction false} AnyAcceptingVariant(s: string, variants: seq<Variant>, v: Variant)
    requires s != "" && v in variants && Decode(v, s).Some?
    ensures FirstAccepted(s, variants) == Decode(v, s)
  {
    if Decode(variants[0], s).Some? {
      VariantsAgree(variants[0], v, Unbroken(s));
    } else {
      AnyAcceptingVariant(s, variants[1..], v);
    }
  }

  /** Any bytes encoded in any variant are read back, with white space around the text and
      line breaks in it, although other alphabets are tried first. */
  lemma {:induction false} TolerantReadsBack(v: Variant, b: seq<byte>, s: string)
    requires Unbroken(Text.TrimSpace(s)) == Encode(v, b)
    ensures Tolerant(s) == Some(b)
  {
    VariantReadsBack(v, b);
    var t := Text.TrimSpace(s);
    if t != "" {
      assert v in ATTEMPTS by {
        assert v == ATTEMPTS[(if v.url then 2 else 0) + (if v.padded then 0 else 1)];
      }
      AnyAcceptingVariant(t, ATTEMPTS, v);
    }
  }

  ghost predicate Spaceless(s: string) {
    forall k :: 0 <= k < |s| ==> !Text.IsSpace(s[k])
  }

  lemma {:induction false} EncodedIsSpaceless(v: Variant, b: seq<byte>)
    ensures Spaceless(Encode(v, b))
  {
    if |b| > 2 {
      EncodedIsSpaceless(v, b[3..]);
    }
  }

  lemma {:induction false} SpacelessIsUnbroken(s: string)
    requires Spaceless(s)
    ensures Unbroken(s) == s
  {
    if s != "" {
      assert !Text.IsSpace(s[0]);
      assert forall k :: 0 <= k < |s[1..]| ==> s[1..][k] == s[k + 1];
      SpacelessIsUnbroken(s[1..]);
    }
  }

  /** The round trip as it stands, for every byte string and every variant. */
  lemma {:induction false} EncodedReadsBack(v: Variant, b: seq<byte>)
    ensures Tolerant(Encode(v, b)) == Some(b)
  {
    EncodedIsSpaceless(v, b);
    SpacelessIsUnbroken(Encode(v, b));
    Text.TrimSpaceKeeps(Encode(v, b));
    TolerantReadsBack(v, b, Encode(v, b));
  }
}
