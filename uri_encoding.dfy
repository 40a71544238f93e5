/** `encodeURIComponent` as ECMA-262 (ES2015) section 18.2.6.5 defines it, by
    way of the Encode operation of section 18.2.6.1.1: every character outside
    the unreserved set is written as its UTF-8 octets, each octet as '%' and
    two upper-case hexadecimal digits. The decoder of section 18.2.6.1.2
    (as `decodeURIComponent` uses it, with an empty reserved set) is its
    partner: decoding an encoded string gives the string back. */
module UriEncoding {
  import opened Wrappers

  type Byte = b: nat | b < 256

  /** uriAlpha, DecimalDigit and uriMark: the characters left unescaped. */
  predicate IsUnreserved(c: char)
  {
    ('a' <= c <= 'z') || ('A' <= c <= 'Z') || ('0' <= c <= '9')
    || c == '-' || c == '_' || c == '.' || c == '!' || c == '~' || c == '*' || c == '\'' || c == '(' || c == ')'
  }

  /** The UTF-8 octets of a code point. A Dafny `char` is a Unicode scalar
      value, so the lone surrogates for which Encode throws a URIError cannot
      occur. */
  function Utf8(c: char): (r: seq<Byte>)
    ensures 1 <= |r| <= 4
  {
    var cp := c as int;
    if cp < 0x80 then [cp]
    else if cp < 0x800 then [0xC0 + cp / 64, 0x80 + cp % 64]
    else if cp < 0x10000 then [0xE0 + cp / 4096, 0x80 + (cp / 64) % 64, 0x80 + cp % 64]
    else [0xF0 + cp / 0x40000, 0x80 + (cp / 4096) % 64, 0x80 + (cp / 64) % 64, 0x80 + cp % 64]
  }

  function HexDigit(d: nat): (c: char)
    requires d < 16
    ensures IsUnreserved(c) && c != '%'
  {
    "0123456789ABCDEF"[d]
  }

  /** One octet as "%XY". */
  function Percent(b: Byte): (r: string)
    ensures |r| == 3 && r[0] == '%' && IsUnreserved(r[1]) && IsUnreserved(r[2])
  {
    ['%', HexDigit(b / 16), HexDigit(b % 16)]
  }

  function PercentAll(bs: seq<Byte>): (r: string)
    ensures |r| == 3 * |bs|
    ensures forall i :: 0 <= i < |r| ==> IsUnreserved(r[i]) || r[i] == '%'
  {
    if |bs| == 0 then "" else Percent(bs[0]) + PercentAll(bs[1..])
  }

  function EncodeChar(c: char): (r: string)
    ensures IsUnreserved(c) ==> r == [c]
    ensures !IsUnreserved(c) ==> |r| >= 3 && r[0] == '%'
    ensures forall i :: 0 <= i < |r| ==> IsUnreserved(r[i]) || r[i] == '%'
  {
    if IsUnreserved(c) then [c] else PercentAll(Utf8(c))
  }

  /** The result never shrinks, uses only unreserved characters and '%', and
      grows whenever some character needs escaping. */
  function EncodeURIComponent(s: string): (r: string)
    ensures |r| >= |s|
    ensures forall i :: 0 <= i < |r| ==> IsUnreserved(r[i]) || r[i] == '%'
    ensures (exists i :: 0 <= i < |s| && !IsUnreserved(s[i])) ==> |r| >= |s| + 2
  {
    if |s| == 0 then "" else EncodeChar(s[0]) + EncodeURIComponent(s[1..])
  }

  /** Encoding works character by character, so it distributes over concatenation. */
  lemma {:induction false} EncodeConcat(a: string, b: string)
    ensures EncodeURIComponent(a + b) == EncodeURIComponent(a) + EncodeURIComponent(b)
    decreases |a|
  {
    if |a| > 0 {
      assert (a + b)[0] == a[0];
      assert (a + b)[1..] == a[1..] + b;
      EncodeConcat(a[1..], b);
    } else {
      assert a + b == b;
    }
  }

  /** A string is left unchanged exactly when it has nothing to escape. */
  lemma {:induction false} EncodeIdentity(s: string)
    ensures EncodeURIComponent(s) == s <==> forall i :: 0 <= i < |s| ==> IsUnreserved(s[i])
    decreases |s|
  {
    if |s| > 0 {
      EncodeIdentity(s[1..]);
      if forall i :: 0 <= i < |s| ==> IsUnreserved(s[i]) {
        assert forall i :: 0 <= i < |s[1..]| ==> IsUnreserved(s[1..][i]) by {
          forall i | 0 <= i < |s[1..]| ensures IsUnreserved(s[1..][i]) {
            assert s[1..][i] == s[i + 1];
          }
        }
        assert s == [s[0]] + s[1..];
      }
    }
  }

  /** A space becomes "%20", which is why joining encoded words with "%20"
      equals encoding the words joined with a space. */
  lemma EncodeSpace()
    ensures EncodeURIComponent(" ") == "%20"
  {
    assert Utf8(' ') == [32];
    assert Percent(32) == "%20";
    assert PercentAll([32]) == Percent(32) + PercentAll([]);
  }

  // ---------------------------------------------------------------------
  // The decoder.

  function HexValue(c: char): (r: Option<nat>)
    ensures r.Some? ==> r.value < 16
  {
    if '0' <= c <= '9' then Some(c as int - '0' as int)
    else if 'A' <= c <= 'F' then Some(c as int - 'A' as int + 10)
    else if 'a' <= c <= 'f' then Some(c as int - 'a' as int + 10)
    else None
  }

  /** "%XY" at the start of `t`. */
  function OctetAt(t: string): Option<Byte>
  {
    if |t| >= 3 && t[0] == '%' then
      match (HexValue(t[1]), HexValue(t[2]))
      case (Some(h), Some(l)) => Some(h * 16 + l)
      case _ => None
    else
      None
  }

  /** `n` escaped octets at the start of `t`. */
  function Octets(t: string, n: nat): (r: Option<seq<Byte>>)
    ensures r.Some? ==> |r.value| == n && 3 * n <= |t|
  {
    if n == 0 then Some([])
    else
      match OctetAt(t)
      case None => None
      case Some(b) =>
        match Octets(t[3..], n - 1)
        case None => None
        case Some(bs) => Some([b] + bs)
  }

  /** How many octets a sequence with lead octet `b` has; 0 for an octet
      that cannot lead one. */
  function SequenceLength(b: Byte): nat
  {
    if b < 0x80 then 1
    else if b < 0xC0 then 0
    else if b < 0xE0 then 2
    else if b < 0xF0 then 3
    else if b < 0xF8 then 4
    else 0
  }

  predicate IsContinuation(b: Byte) { 0x80 <= b < 0xC0 }

  /** The code point a non-empty octet sequence of the right length spells. */
  function CodePointOf(bs: seq<Byte>): int
    requires 1 <= |bs| <= 4
  {
    var b0: int := bs[0];
    if |bs| == 1 then b0
    else if |bs| == 2 then (b0 - 0xC0) * 64 + (bs[1] as int - 0x80)
    else if |bs| == 3 then (b0 - 0xE0) * 4096 + (bs[1] as int - 0x80) * 64 + (bs[2] as int - 0x80)
    else (b0 - 0xF0) * 0x40000 + (bs[1] as int - 0x80) * 4096 + (bs[2] as int - 0x80) * 64 + (bs[3] as int - 0x80)
  }

  /** The shortest possible encoding of a Unicode scalar value. */
  predicate WellFormed(bs: seq<Byte>)
  {
    1 <= |bs| <= 4 && SequenceLength(bs[0]) == |bs|
    && (forall i :: 1 <= i < |bs| ==> IsContinuation(bs[i]))
    && var cp := CodePointOf(bs);
       (|bs| == 1 || (|bs| == 2 && cp >= 0x80) || (|bs| == 3 && cp >= 0x800) || (|bs| == 4 && cp >= 0x10000))
       && 0 <= cp < 0x11_0000 && !(0xD800 <= cp < 0xE000)
  }

  /** The character at the start of `t` and how many characters of `t` spell it. */
  function CharAt(t: string): (r: Option<(char, nat)>)
    requires |t| > 0
    ensures r.Some? ==> 1 <= r.value.1 <= |t|
  {
    if t[0] != '%' then Some((t[0], 1))
    else
      match OctetAt(t)
      case None => None
      case Some(b0) =>
        var n := SequenceLength(b0);
        if n == 0 then None
        else
          match Octets(t, n)
          case None => None
          case Some(bs) =>
            if WellFormed(bs) then Some((CodePointOf(bs) as char, 3 * n)) else None
  }

  /** `decodeURIComponent`: `None` where the standard throws a URIError. */
  function DecodeURIComponent(t: string): (r: Option<string>)
    decreases |t|
  {
    if |t| == 0 then Some("")
    else
      match CharAt(t)
      case None => None
      case Some((c, k)) =>
        match DecodeURIComponent(t[k..])
        case None => None
        case Some(rest) => Some([c] + rest)
  }

  lemma HexRoundTrip(d: nat)
    requires d < 16
    ensures HexValue(HexDigit(d)) == Some(d)
  {
  }

  lemma OctetRoundTrip(b: Byte, rest: string)
    ensures OctetAt(Percent(b) + rest) == Some(b)
  {
    HexRoundTrip(b / 16);
    HexRoundTrip(b % 16);
  }

  lemma {:induction false} OctetsRoundTrip(bs: seq<Byte>, rest: string)
    ensures Octets(PercentAll(bs) + rest, |bs|) == Some(bs)
    decreases |bs|
  {
    if |bs| > 0 {
      var t := PercentAll(bs) + rest;
      var t' := PercentAll(bs[1..]) + rest;
      PercentAllSplits(bs, rest);
      OctetRoundTrip(bs[0], t');
      OctetsRoundTrip(bs[1..], rest);
      OctetsStep(t, |bs|, bs[0], bs[1..]);
      assert [bs[0]] + bs[1..] == bs;
    }
  }

  /** One step of reading octets: the first, then the others. */
  lemma OctetsStep(t: string, n: nat, b: Byte, others: seq<Byte>)
    requires n > 0 && OctetAt(t) == Some(b) && Octets(t[3..], n - 1) == Some(others)
    ensures Octets(t, n) == Some([b] + others)
  {
  }

  lemma PercentAllSplits(bs: seq<Byte>, rest: string)
    requires |bs| > 0
    ensures PercentAll(bs) + rest == Percent(bs[0]) + (PercentAll(bs[1..]) + rest)
    ensures (PercentAll(bs) + rest)[3..] == PercentAll(bs[1..]) + rest
  {
    var p, x := Percent(bs[0]), PercentAll(bs[1..]);
    assert PercentAll(bs) == p + x;
    Regroup(p, x, rest);
  }

  lemma Regroup(p: string, x: string, rest: string)
    requires |p| == 3
    ensures p + x + rest == p + (x + rest) && (p + x + rest)[3..] == x + rest
  {
  }

  /** The octets of a character are its shortest encoding and spell it back. */
  lemma Utf8WellFormed(c: char)
    ensures WellFormed(Utf8(c)) && CodePointOf(Utf8(c)) == c as int
  {
    var cp := c as int;
    assert cp < 0x11_0000 && !(0xD800 <= cp < 0xE000);
    var q1, r0 := cp / 64, cp % 64;
    var q2, r1 := q1 / 64, q1 % 64;
    var q3, r2 := q2 / 64, q2 % 64;
    assert cp == q1 * 64 + r0;
    assert q1 == q2 * 64 + r1;
    assert q2 == q3 * 64 + r2;
    assert cp / 4096 == q2;
    assert cp / 0x40000 == q3;
  }

  /** Decoding the encoding of a character, followed by anything, reads that
      character and exactly its encoding. */
  lemma CharRoundTrip(c: char, rest: string)
    ensures CharAt(EncodeChar(c) + rest) == Some((c, |EncodeChar(c)|))
  {
    if !IsUnreserved(c) {
      var bs := Utf8(c);
      OctetsRoundTrip(bs, rest);
      PercentAllSplits(bs, rest);
      OctetRoundTrip(bs[0], PercentAll(bs[1..]) + rest);
      Utf8WellFormed(c);
    }
  }

  /** One decoding step: the character read first, then the rest. */
  lemma DecodeStep(t: string, c: char, k: nat, rest: string)
    requires |t| > 0 && CharAt(t) == Some((c, k)) && DecodeURIComponent(t[k..]) == Some(rest)
    ensures DecodeURIComponent(t) == Some([c] + rest)
  {
  }

  /** Decoding undoes encoding, for every string. */
  lemma {:induction false} DecodeEncode(s: string)
    ensures DecodeURIComponent(EncodeURIComponent(s)) == Some(s)
    decreases |s|
  {
    if |s| > 0 {
      var e, tail := EncodeChar(s[0]), EncodeURIComponent(s[1..]);
      assert EncodeURIComponent(s) == e + tail;
      CharRoundTrip(s[0], tail);
      assert (e + tail)[|e|..] == tail;
      DecodeEncode(s[1..]);
      DecodeStep(e + tail, s[0], |e|, s[1..]);
      assert [s[0]] + s[1..] == s;
    }
  }
}
