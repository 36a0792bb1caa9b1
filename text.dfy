/**
 * The two pieces of string handling in the migration: Python's
 * `str.replace` (used to embed an access token into a repository URL)
 * and `str.split(sep)[-1]` (used to recover a command from a block name).
 */
module Text {

  predicate StartsWith(s: string, prefix: string) {
    |prefix| <= |s| && s[..|prefix|] == prefix
  }

  predicate EndsWith(s: string, suffix: string) {
    |suffix| <= |s| && s[|s| - |suffix|..] == suffix
  }

  /** `pat` occurs in `s` starting at position `i`. */
  predicate OccursAt(s: string, pat: string, i: nat) {
    i + |pat| <= |s| && s[i..i + |pat|] == pat
  }

  lemma OccursShift(c: char, s: string, pat: string, i: nat)
    ensures OccursAt([c] + s, pat, i + 1) == OccursAt(s, pat, i)
  {
    if i + |pat| <= |s| {
      assert ([c] + s)[i + 1..i + 1 + |pat|] == s[i..i + |pat|];
    }
  }

  lemma OccursSkip(p: string, s: string, pat: string, i: nat)
    ensures OccursAt(p + s, pat, |p| + i) == OccursAt(s, pat, i)
  {
    if i + |pat| <= |s| {
      assert (p + s)[|p| + i..|p| + i + |pat|] == s[i..i + |pat|];
    }
  }

  /**
   * Python's `s.replace(pat, rep)`: every occurrence of `pat`, found by a
   * left-to-right scan that does not overlap matches, becomes `rep`.
   */
  function ReplaceAll(s: string, pat: string, rep: string): (r: string)
    requires |pat| > 0
    ensures (forall i :: 0 <= i < |s| ==> !OccursAt(s, pat, i)) ==> r == s
    decreases |s|
  {
    if |s| < |pat| then s
    else if s[..|pat|] == pat then (assert OccursAt(s, pat, 0); rep + ReplaceAll(s[|pat|..], pat, rep))
    else
      (assert s == [s[0]] + s[1..];
       assert forall i :: 0 <= i < |s| - 1 ==> OccursAt(s, pat, i + 1) == OccursAt(s[1..], pat, i) by {
         forall i | 0 <= i < |s| - 1 { OccursShift(s[0], s[1..], pat, i); }
       }
       [s[0]] + ReplaceAll(s[1..], pat, rep))
  }

  lemma ReplaceHere(q: string, pat: string, rep: string)
    requires |pat| > 0
    ensures ReplaceAll(pat + q, pat, rep) == rep + ReplaceAll(q, pat, rep)
  {
    var s := pat + q;
    assert s[..|pat|] == pat;
    assert s[|pat|..] == q;
  }

  lemma ReplaceSkip(c: char, t: string, pat: string, rep: string)
    requires |pat| > 0 && |pat| <= 1 + |t|
    requires !OccursAt([c] + t, pat, 0)
    ensures ReplaceAll([c] + t, pat, rep) == [c] + ReplaceAll(t, pat, rep)
  {
    var s := [c] + t;
    assert s[..|pat|] != pat;
    assert s[0] == c && s[1..] == t;
  }

  /** No occurrence in the first `|p|` positions of `[p[0]] + t` means none in the first `|p| - 1` of `t`. */
  lemma NoMatchTail(p: string, t: string, pat: string)
    requires |p| > 0
    requires forall i :: 0 <= i < |p| ==> !OccursAt([p[0]] + t, pat, i)
    ensures forall i :: 0 <= i < |p| - 1 ==> !OccursAt(t, pat, i)
  {
    forall i | 0 <= i < |p| - 1
      ensures !OccursAt(t, pat, i)
    {
      OccursShift(p[0], t, pat, i);
    }
  }

  /** The step of the induction below: a leading character that starts no occurrence is kept. */
  lemma ReplaceAfterChar(p: string, q: string, pat: string, rep: string)
    requires |pat| > 0 && |p| > 0
    requires !OccursAt(p + pat + q, pat, 0)
    requires ReplaceAll(p[1..] + pat + q, pat, rep) == p[1..] + rep + ReplaceAll(q, pat, rep)
    ensures ReplaceAll(p + pat + q, pat, rep) == p + rep + ReplaceAll(q, pat, rep)
  {
    var t := p[1..] + pat + q;
    var tail := ReplaceAll(q, pat, rep);
    ConsSplit(p, pat, q);
    ReplaceSkip(p[0], t, pat, rep);
    ConsJoin(p, rep, tail);
  }

  lemma ConsSplit(p: string, a: string, b: string)
    requires |p| > 0
    ensures p + a + b == [p[0]] + (p[1..] + a + b)
  {
    assert [p[0]] + p[1..] == p;
    assert p + a + b == ([p[0]] + p[1..]) + a + b;
  }

  lemma ConsJoin(p: string, rep: string, tail: string)
    requires |p| > 0
    ensures [p[0]] + (p[1..] + rep + tail) == p + rep + tail
  {
    assert [p[0]] + p[1..] == p;
  }

  /** Text before the first occurrence is kept, that occurrence is replaced, and the scan resumes after it. */
  lemma {:induction false} ReplaceAtFirst(p: string, q: string, pat: string, rep: string)
    requires |pat| > 0
    requires forall i :: 0 <= i < |p| ==> !OccursAt(p + pat + q, pat, i)
    ensures ReplaceAll(p + pat + q, pat, rep) == p + rep + ReplaceAll(q, pat, rep)
    decreases |p|
  {
    if p == [] {
      assert p + pat + q == pat + q;
      ReplaceHere(q, pat, rep);
    } else {
      var t := p[1..] + pat + q;
      assert p + pat + q == [p[0]] + t;
      NoMatchTail(p, t, pat);
      ReplaceAtFirst(p[1..], q, pat, rep);
      assert !OccursAt(p + pat + q, pat, 0);
      ReplaceAfterChar(p, q, pat, rep);
    }
  }

  /**
   * `r` can be the last piece of `s` split on `sep`: it ends `s`, holds no
   * separator, and is all of `s` or follows a separator; when `s` holds no
   * separator it is all of `s`.
   */
  predicate Piece(s: string, sep: string, r: string) {
    && EndsWith(s, r)
    && (forall j :: 0 <= j < |r| ==> !OccursAt(r, sep, j))
    && (r == s || EndsWith(s[..|s| - |r|], sep))
    && ((forall i :: 0 <= i < |s| ==> !OccursAt(s, sep, i)) ==> r == s)
  }

  /**
   * Python's `s.split(sep)[-1]`, by the same left-to-right scan: a
   * separator at the front is dropped with everything before it, and
   * otherwise the first character stays unless a later separator cuts it
   * off.
   */
  function LastPiece(s: string, sep: string): (r: string)
    requires |sep| > 0
    ensures Piece(s, sep, r)
    decreases |s|
  {
    if |s| < |sep| then s
    else if s[..|sep|] == sep then
      var r := LastPiece(s[|sep|..], sep);
      DropFront(s, sep, r);
      r
    else
      var t := LastPiece(s[1..], sep);
      KeepFront(s, sep, t);
      if t == s[1..] then s else t
  }

  /** A separator at the front: the piece of the rest is the piece of the whole. */
  lemma DropFront(s: string, sep: string, r: string)
    requires |sep| > 0 && |sep| <= |s| && s[..|sep|] == sep
    requires Piece(s[|sep|..], sep, r)
    ensures Piece(s, sep, r)
  {
    LiftPiece(s, |sep|, r, sep);
    assert OccursAt(s, sep, 0);
  }

  /** No separator at the front: the first character joins the piece of the rest when that is all of it. */
  lemma KeepFront(s: string, sep: string, t: string)
    requires |sep| > 0 && |sep| <= |s| && s[..|sep|] != sep
    requires Piece(s[1..], sep, t)
    ensures Piece(s, sep, if t == s[1..] then s else t)
  {
    assert !OccursAt(s, sep, 0);
    assert forall j :: 0 <= j < |s| - 1 ==> OccursAt(s, sep, j + 1) == OccursAt(s[1..], sep, j) by {
      assert s == [s[0]] + s[1..];
      forall j | 0 <= j < |s| - 1 { OccursShift(s[0], s[1..], sep, j); }
    }
    if t == s[1..] {
      forall j | 0 < j < |s| ensures !OccursAt(s, sep, j) {
        assert OccursAt(s, sep, j) == OccursAt(t, sep, j - 1);
      }
    } else {
      LiftPiece(s, 1, t, sep);
    }
  }

  /** A suffix of `s[k..]` is one of `s`, and what stands before it in `s[k..]` ends what stands before it in `s`. */
  lemma LiftPiece(s: string, k: nat, r: string, sep: string)
    requires k <= |s| && EndsWith(s[k..], r)
    ensures EndsWith(s, r)
    ensures EndsWith(s[k..][..|s| - k - |r|], sep) ==> EndsWith(s[..|s| - |r|], sep)
    ensures r == s[k..] ==> s[..|s| - |r|] == s[..k]
  {
    assert s[k..][|s| - k - |r|..] == s[|s| - |r|..];
    var m := |s| - |r|;
    if EndsWith(s[k..][..m - k], sep) {
      assert s[k..][..m - k][m - k - |sep|..] == s[m - |sep|..m];
      assert s[..m][m - |sep|..] == s[m - |sep|..m];
    }
  }

  /**
   * The scan resumes after the first separator: the last piece of
   * `p + sep + q`, when no separator starts within `p`, is that of `q`.
   */
  lemma {:induction false} LastPieceAfterFirst(p: string, sep: string, q: string)
    requires |sep| > 0
    requires forall i :: 0 <= i < |p| ==> !OccursAt(p + sep + q, sep, i)
    ensures LastPiece(p + sep + q, sep) == LastPiece(q, sep)
    decreases |p|
  {
    var s := p + sep + q;
    if p == [] {
      assert s == sep + q;
      assert s[..|sep|] == sep && s[|sep|..] == q;
    } else {
      var t := p[1..] + sep + q;
      ConsSplit(p, sep, q);
      assert s[1..] == t;
      forall i | 0 <= i < |p| - 1 ensures !OccursAt(t, sep, i) {
        OccursShift(p[0], t, sep, i);
      }
      LastPieceAfterFirst(p[1..], sep, q);
      assert !OccursAt(s, sep, 0);
      assert s[..|sep|] != sep;
      assert LastPiece(t, sep) != t;
    }
  }

  /** When `sep` occurs exactly once, right after `p`, the last piece is everything after it. */
  lemma LastPieceSingle(p: string, sep: string, c: string)
    requires |sep| > 0
    requires forall i :: OccursAt(p + sep + c, sep, i) ==> i == |p|
    ensures LastPiece(p + sep + c, sep) == c
  {
    var s := p + sep + c;
    assert s == (p + sep) + c;
    forall j | 0 <= j < |c| ensures !OccursAt(c, sep, j) {
      OccursSkip(p + sep, c, sep, j);
    }
    LastPieceAfterFirst(p, sep, c);
  }

  /** A separator that overlaps itself: the scan takes the first `a-a-` and keeps `a-run`, as `split` does. */
  lemma LastPieceOverlapping(s: string, sep: string)
    requires s == "a-a-a-run" && sep == "a-a-"
    ensures LastPiece(s, sep) == "a-run"
  {
    var q := s[4..];
    assert q == "a-run";
    assert s == [] + sep + q;
    LastPieceAfterFirst([], sep, q);
    RunHasNoSeparator(q, sep);
  }

  lemma RunHasNoSeparator(q: string, sep: string)
    requires q == "a-run" && sep == "a-a-"
    ensures forall j :: 0 <= j < |q| ==> !OccursAt(q, sep, j)
  {
    assert q[0..4][2] != sep[2];
    assert q[1..5][0] != sep[0];
  }

  /** The same for `aa`: `"aaa".split("aa")[-1]` is `"a"`. */
  lemma LastPieceOverlappingPair(s: string, sep: string)
    requires s == "aaa" && sep == "aa"
    ensures LastPiece(s, sep) == "a"
  {
    var q := s[2..];
    assert s == [] + sep + q;
    LastPieceAfterFirst([], sep, q);
    assert |q| < |sep|;
  }
}
