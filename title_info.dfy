/** `stripExtraTitleInfo` (server/providers/utilities.js): removes one
    parenthesised span and then one bracketed span from a track title, the way
    `title.replace(/\(.*\)/, '').replace(/\[.*\]/, '')` does, and reports
    `null` when nothing was removed. */
module TitleInfo {
  import opened Wrappers
  import opened Grammar

  /** The two delimiter pairs the title cleaner knows. */
  datatype Bracket = Paren | Square {
    function Open(): char { if Paren? then '(' else '[' }
    function Close(): char { if Paren? then ')' else ']' }
  }

  /** `open .* close` matches `u[0..k]`: `u` opens at 0, closes at `k`, and no
      line terminator lies in between. */
  predicate IsSpan(u: string, b: Bracket, k: int)
  {
    0 < k < |u| && u[0] == b.Open() && u[k] == b.Close()
    && forall m :: 1 <= m < k ==> !IsLineTerminator(u[m])
  }

  /** The regular expression `/\(.*\)/` (or `/\[.*\]/`) tried at the start of
      `u`: `.*` is greedy, so the match is the longest span; its length. */
  function GreedySpan(u: string, b: Bracket): (r: Option<nat>)
    ensures r.Some? ==> IsSpan(u, b, r.value - 1)
    ensures r.Some? ==> forall k :: r.value <= k ==> !IsSpan(u, b, k)
    ensures r.None? ==> forall k :: !IsSpan(u, b, k)
  {
    if |u| > 0 && u[0] == b.Open() then
      var e := RunEnd(u, 1, NotLineTerminator);
      match LastIndexOf(u, b.Close(), 1, e)
      case Some(j) => Some(j + 1)
      case None => None
    else
      None
  }

  /** The last index in `lo..hi-1` holding `c`. */
  function LastIndexOf(s: string, c: char, lo: nat, hi: nat): (r: Option<nat>)
    requires lo <= hi <= |s|
    ensures r.Some? ==> lo <= r.value < hi && s[r.value] == c
    ensures r.Some? ==> forall k :: r.value < k < hi ==> s[k] != c
    ensures r.None? ==> forall k :: lo <= k < hi ==> s[k] != c
    decreases hi - lo
  {
    if lo == hi then None
    else if s[hi - 1] == c then Some(hi - 1)
    else LastIndexOf(s, c, lo, hi - 1)
  }

  /** `s[i..j]` (inclusive) is a span that the regular expression can match. */
  predicate SpanIn(s: string, b: Bracket, i: int, j: int)
  {
    0 <= i <= |s| && IsSpan(s[i..], b, j - i)
  }

  predicate NoSpan(s: string, b: Bracket)
  {
    forall i, j :: 0 <= i < j < |s| ==> !SpanIn(s, b, i, j)
  }

  /** The span a non-global `replace` removes: the leftmost start that has a
      match and, from it, the longest match. */
  predicate LeftmostGreedy(s: string, b: Bracket, i: int, j: int)
  {
    SpanIn(s, b, i, j)
    && (forall i', j' :: 0 <= i' < i && i' < j' < |s| ==> !SpanIn(s, b, i', j'))
    && (forall j' :: j < j' < |s| ==> !SpanIn(s, b, i, j'))
  }

  lemma SpanInBounds(s: string, b: Bracket, i: int, j: int)
    requires SpanIn(s, b, i, j)
    ensures 0 <= i < j < |s| && s[i] == b.Open() && s[j] == b.Close()
    ensures forall m :: i < m < j ==> !IsLineTerminator(s[m])
  {
    forall m | i < m < j ensures !IsLineTerminator(s[m]) {
      assert s[i..][m - i] == s[m];
    }
  }

  lemma SpanInIntro(s: string, b: Bracket, i: int, j: int)
    requires 0 <= i < j < |s| && s[i] == b.Open() && s[j] == b.Close()
    requires forall m :: i < m < j ==> !IsLineTerminator(s[m])
    ensures SpanIn(s, b, i, j)
  {
    var u := s[i..];
    forall m | 1 <= m < j - i ensures !IsLineTerminator(u[m]) {
      assert u[m] == s[i + m];
    }
  }

  /** Where the regular expression matches in `s`, if anywhere. */
  function FirstSpan(s: string, b: Bracket): (r: Option<(nat, nat)>)
    ensures r.Some? ==> LeftmostGreedy(s, b, r.value.0, r.value.1)
    ensures r.None? ==> NoSpan(s, b)
  {
    match Leftmost(s, u => GreedySpan(u, b), 0)
    case None => None
    case Some((i, n)) => Some((i, i + n - 1))
  }

  /** `s.replace(/\(.*\)/, '')` (or the bracket form): `s` with the leftmost,
      longest span cut out, or `s` itself when there is none. */
  function ReplaceFirst(s: string, b: Bracket): (r: string)
    ensures r == s <==> NoSpan(s, b)
    ensures r != s ==> |r| + 2 <= |s|
    ensures r != s ==> exists i, j :: LeftmostGreedy(s, b, i, j) && r == s[..i] + s[j + 1..]
  {
    match FirstSpan(s, b)
    case None => s
    case Some((i, j)) =>
      SpanInBounds(s, b, i, j);
      s[..i] + s[j + 1..]
  }

  /** `stripExtraTitleInfo(title)`: `None` is `null`. */
  function StripExtraTitleInfo(title: string): (r: Option<string>)
    ensures r.None? <==> NoSpan(title, Paren) && NoSpan(title, Square)
    ensures r.Some? ==> |r.value| + 2 <= |title|
  {
    var cleanTitle := ReplaceFirst(ReplaceFirst(title, Paren), Square);
    if cleanTitle == title then None else Some(cleanTitle)
  }

  predicate NoLineTerminators(s: string)
  {
    forall k :: 0 <= k < |s| ==> !IsLineTerminator(s[k])
  }

  /** No opening delimiter of `b` is followed, anywhere later, by its closing one. */
  predicate Unbracketed(s: string, b: Bracket)
  {
    forall x, y :: 0 <= x < y < |s| && s[x] == b.Open() ==> s[y] != b.Close()
  }

  /** Without line breaks, "no span" is the same as "no opener before a closer". */
  lemma NoSpanIffUnbracketed(s: string, b: Bracket)
    requires NoLineTerminators(s)
    ensures NoSpan(s, b) <==> Unbracketed(s, b)
  {
    if NoSpan(s, b) {
      forall x, y | 0 <= x < y < |s| && s[x] == b.Open() ensures s[y] != b.Close() {
        if s[y] == b.Close() {
          SpanInIntro(s, b, x, y);
        }
      }
    }
    if Unbracketed(s, b) {
      forall i, j | 0 <= i < j < |s| ensures !SpanIn(s, b, i, j) {
        if SpanIn(s, b, i, j) {
          SpanInBounds(s, b, i, j);
        }
      }
    }
  }

  /** Cutting `s[i..j]` out keeps the order of what is left, so an opener
      before a closer afterwards was one before. */
  lemma CutPreserves(s: string, i: nat, j: nat, b: Bracket)
    requires i <= j < |s|
    ensures NoLineTerminators(s) ==> NoLineTerminators(s[..i] + s[j + 1..])
    ensures Unbracketed(s, b) ==> Unbracketed(s[..i] + s[j + 1..], b)
  {
    var r := s[..i] + s[j + 1..];
    var d := j + 1 - i;
    assert forall k :: 0 <= k < |r| ==> r[k] == if k < i then s[k] else s[k + d];
    if Unbracketed(s, b) {
      forall x, y | 0 <= x < y < |r| && r[x] == b.Open() ensures r[y] != b.Close() {
        var x' := if x < i then x else x + d;
        var y' := if y < i then y else y + d;
        assert s[x'] == b.Open() && x' < y';
      }
    }
  }

  /** Cutting out the span a replacement removes leaves no opener before a
      closer: an opener left of the span would have started an earlier match,
      and a closer right of it would have made the match longer. */
  lemma CutLeftmostLeavesNone(s: string, b: Bracket, i: nat, j: nat)
    requires NoLineTerminators(s)
    requires LeftmostGreedy(s, b, i, j)
    ensures Unbracketed(s[..i] + s[j + 1..], b)
  {
    SpanInBounds(s, b, i, j);
    var r := s[..i] + s[j + 1..];
    var d := j + 1 - i;
    forall x, y | 0 <= x < y < |r| && r[x] == b.Open() ensures r[y] != b.Close() {
      var y' := if y < i then y else y + d;
      assert r[y] == s[y'];
      if r[y] == b.Close() {
        if x < i {
          assert r[x] == s[x];
          SpanInIntro(s, b, x, y');
        } else {
          assert r[x] == s[x + d];
          SpanInIntro(s, b, i, y');
        }
      }
    }
  }

  /** On a title without line breaks, one replacement leaves no span of the same kind. */
  lemma ReplaceFirstLeavesNone(s: string, b: Bracket)
    requires NoLineTerminators(s)
    ensures NoLineTerminators(ReplaceFirst(s, b))
    ensures Unbracketed(ReplaceFirst(s, b), b)
  {
    var r := ReplaceFirst(s, b);
    if r == s {
      NoSpanIffUnbracketed(s, b);
    } else {
      var i, j :| LeftmostGreedy(s, b, i, j) && r == s[..i] + s[j + 1..];
      SpanInBounds(s, b, i, j);
      CutPreserves(s, i, j, b);
      CutLeftmostLeavesNone(s, b, i, j);
    }
  }

  /** For a title without line breaks one relaxation pass is final: cleaning a
      cleaned title again reports that nothing changed. */
  lemma {:induction false} StripIsFinal(title: string)
    requires NoLineTerminators(title)
    requires StripExtraTitleInfo(title).Some?
    ensures StripExtraTitleInfo(StripExtraTitleInfo(title).value).None?
  {
    var t1 := ReplaceFirst(title, Paren);
    ReplaceFirstLeavesNone(title, Paren);
    var t2 := ReplaceFirst(t1, Square);
    ReplaceFirstLeavesNone(t1, Square);
    if t2 != t1 {
      var i, j :| LeftmostGreedy(t1, Square, i, j) && t2 == t1[..i] + t1[j + 1..];
      SpanInBounds(t1, Square, i, j);
      CutPreserves(t1, i, j, Paren);
    }
    assert StripExtraTitleInfo(title).value == t2;
    NoSpanIffUnbracketed(t2, Paren);
    NoSpanIffUnbracketed(t2, Square);
  }

  /** A title ending in one parenthesised part loses exactly that part and
      nothing else: the spaces before it stay, there is no trimming. */
  lemma {:induction false} StripTrailingPart(base: string, extra: string)
    requires '(' !in base && '[' !in base && '[' !in extra
    requires NoLineTerminators(extra)
    ensures StripExtraTitleInfo(base + "(" + extra + ")") == Some(base)
  {
    var title := base + "(" + extra + ")";
    var i, j := |base|, |title| - 1;
    assert title[i] == '(' && title[j] == ')';
    forall m | i < m < j ensures !IsLineTerminator(title[m]) {
      assert title[m] == extra[m - i - 1];
    }
    SpanInIntro(title, Paren, i, j);
    var r := ReplaceFirst(title, Paren);
    assert r != title;
    var i', j' :| LeftmostGreedy(title, Paren, i', j') && r == title[..i'] + title[j' + 1..];
    SpanInBounds(title, Paren, i', j');
    assert i' == i;
    assert j' == j;
    assert r == base;
    assert ReplaceFirst(base, Square) == base by {
      forall x, y | 0 <= x < y < |base| ensures !SpanIn(base, Square, x, y) {
        if SpanIn(base, Square, x, y) {
          SpanInBounds(base, Square, x, y);
        }
      }
    }
  }

  const LionsBase := "When the Lions Come  "
  const LionsExtra := "feat. Castro, Logic, & Blaque Keyz"
  /** "When the Lions Come  (feat. Castro, Logic, & Blaque Keyz)". */
  const LionsTitle := LionsBase + "(" + LionsExtra + ")"

  lemma LionsParts()
    ensures '(' !in LionsBase && '[' !in LionsBase
    ensures '[' !in LionsExtra && NoLineTerminators(LionsExtra)
  {
    forall k | 0 <= k < |LionsBase| ensures LionsBase[k] != '(' && LionsBase[k] != '[' {
      assert LionsBase[k] in LionsBase;
    }
    forall k | 0 <= k < |LionsExtra| ensures LionsExtra[k] != '[' && !IsLineTerminator(LionsExtra[k]) {
      assert LionsExtra[k] in LionsExtra;
    }
  }

  /** The function comment's own example: the featured artists go, and the
      two spaces before the parenthesis stay, where the comment shows the
      title trimmed. */
  lemma TrailingSpacesKept()
    ensures StripExtraTitleInfo(LionsTitle) == Some(LionsBase)
  {
    LionsParts();
    StripTrailingPart(LionsBase, LionsExtra);
  }
}
