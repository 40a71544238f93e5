/** The pieces of JavaScript regular-expression matching that the link parsers
    and the title cleaner use: character classes, greedy runs, literal prefixes,
    and the leftmost scan that `String.prototype.match` and a non-global
    `String.prototype.replace` perform. */
module Grammar {
  import opened Wrappers

  /** The characters that JavaScript's `.` refuses to match. */
  predicate IsLineTerminator(c: char)
  {
    c == '\n' || c == '\r' || c == '\U{2028}' || c == '\U{2029}'
  }

  predicate IsAsciiLetter(c: char) { 'a' <= c <= 'z' || 'A' <= c <= 'Z' }

  predicate IsAsciiDigit(c: char) { '0' <= c <= '9' }

  /** The character classes that occur in the parsers' regular expressions. */
  datatype CharClass =
    | Word              // \w
    | Digit             // \d
    | TitleChar         // [a-zA-Z0-9\-]
    | AppleIdChar       // [a-zA-Z0-9\-\.]
    | NotLineTerminator // .

  predicate InClass(c: char, cls: CharClass)
  {
    match cls
    case Word => IsAsciiLetter(c) || IsAsciiDigit(c) || c == '_'
    case Digit => IsAsciiDigit(c)
    case TitleChar => IsAsciiLetter(c) || IsAsciiDigit(c) || c == '-'
    case AppleIdChar => IsAsciiLetter(c) || IsAsciiDigit(c) || c == '-' || c == '.'
    case NotLineTerminator => !IsLineTerminator(c)
  }

  predicate AllIn(s: string, cls: CharClass)
  {
    forall i :: 0 <= i < |s| ==> InClass(s[i], cls)
  }

  /** The end of the longest run of `cls` characters starting at `k`. */
  function RunEnd(s: string, k: nat, cls: CharClass): (e: nat)
    requires k <= |s|
    ensures k <= e <= |s|
    ensures forall i :: k <= i < e ==> InClass(s[i], cls)
    ensures e < |s| ==> !InClass(s[e], cls)
    decreases |s| - k
  {
    if k < |s| && InClass(s[k], cls) then RunEnd(s, k + 1, cls) else k
  }

  /** A run of `cls` that is not followed by another `cls` character is the longest one. */
  lemma RunEndUnique(s: string, k: nat, cls: CharClass, e: nat)
    requires k <= e <= |s|
    requires forall i :: k <= i < e ==> InClass(s[i], cls)
    requires e < |s| ==> !InClass(s[e], cls)
    ensures RunEnd(s, k, cls) == e
  {
  }

  /** `cls+` at the start of `u`, greedy: the longest non-empty run and what follows it. */
  function Segment(u: string, cls: CharClass): (r: Option<(string, string)>)
    ensures r.None? <==> (|u| == 0 || !InClass(u[0], cls))
    ensures r.Some? ==> u == r.value.0 + r.value.1 && |r.value.0| > 0 && AllIn(r.value.0, cls)
    ensures r.Some? ==> |r.value.1| == 0 || !InClass(r.value.1[0], cls)
  {
    if |u| > 0 && InClass(u[0], cls) then
      var e := RunEnd(u, 0, cls);
      assert u == u[..e] + u[e..];
      Some((u[..e], u[e..]))
    else
      None
  }

  /** A non-empty run of `cls` followed by something that is not `cls` is what `Segment` finds. */
  lemma SegmentOf(w: string, v: string, cls: CharClass)
    requires |w| > 0 && AllIn(w, cls)
    requires |v| == 0 || !InClass(v[0], cls)
    ensures Segment(w + v, cls) == Some((w, v))
  {
    var u := w + v;
    RunEndUnique(u, 0, cls, |w|);
    assert u[..|w|] == w && u[|w|..] == v;
  }

  /** `cls+` followed by the literal character `d`, at the start of `u`. For a
      delimiter outside the class backtracking cannot help, so the run is the
      longest one and must be followed by `d`; the result is the run and what
      follows the delimiter. */
  function SegmentBefore(u: string, cls: CharClass, d: char): (r: Option<(string, string)>)
    ensures r.Some? ==> u == r.value.0 + [d] + r.value.1 && |r.value.0| > 0 && AllIn(r.value.0, cls)
  {
    match Segment(u, cls)
    case None => None
    case Some((w, v)) =>
      if |v| > 0 && v[0] == d then
        assert v == [d] + v[1..];
        assert u == w + [d] + v[1..];
        Some((w, v[1..]))
      else
        None
  }

  lemma SegmentBeforeOf(w: string, v: string, cls: CharClass, d: char)
    requires |w| > 0 && AllIn(w, cls) && !InClass(d, cls)
    ensures SegmentBefore(w + [d] + v, cls, d) == Some((w, v))
  {
    assert w + [d] + v == w + ([d] + v);
    SegmentOf(w, [d] + v, cls);
    assert ([d] + v)[1..] == v;
  }

  predicate StartsWith(u: string, prefix: string)
  {
    |prefix| <= |u| && u[..|prefix|] == prefix
  }

  /** `u` begins with `pattern`, read as a regular expression in which every
      unescaped '.' matches any character but a line terminator. */
  predicate StartsWithLoosely(u: string, pattern: string)
  {
    |pattern| <= |u|
    && forall i :: 0 <= i < |pattern| ==>
         if pattern[i] == '.' then !IsLineTerminator(u[i]) else u[i] == pattern[i]
  }

  /** The leftmost position at which matcher `m` succeeds, trying positions `p`,
      `p + 1`, ..., `|s|` in turn as `String.prototype.match` does; `m` is given
      the suffix of `s` from the position being tried. */
  function Leftmost<G>(s: string, m: string -> Option<G>, p: nat): (r: Option<(nat, G)>)
    requires p <= |s|
    ensures r.Some? ==> p <= r.value.0 <= |s| && m(s[r.value.0..]) == Some(r.value.1)
    ensures r.Some? ==> forall q :: p <= q < r.value.0 ==> m(s[q..]).None?
    ensures r.None? ==> forall q :: p <= q <= |s| ==> m(s[q..]).None?
    decreases |s| - p
  {
    match m(s[p..])
    case Some(g) => Some((p, g))
    case None => if p == |s| then None else Leftmost(s, m, p + 1)
  }

  /** If `m` fails at every position from `p` up to `k` and succeeds at `k`, the
      scan from `p` stops at `k`. */
  lemma {:induction false} LeftmostAt<G>(s: string, m: string -> Option<G>, p: nat, k: nat)
    requires p <= k <= |s|
    requires forall q :: p <= q < k ==> m(s[q..]).None?
    requires m(s[k..]).Some?
    ensures Leftmost(s, m, p) == Some((k, m(s[k..]).value))
    decreases k - p
  {
    if p < k {
      LeftmostAt(s, m, p + 1, k);
    }
  }

  /** A loose pattern matches itself: its dots are no line terminators. */
  lemma StartsWithLooselySelf(pattern: string, rest: string)
    ensures StartsWithLoosely(pattern + rest, pattern)
  {
    forall i | 0 <= i < |pattern|
      ensures (pattern + rest)[i] == pattern[i]
    {
    }
  }
}
