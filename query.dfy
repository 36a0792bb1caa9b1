/**
 * The store's queries over one table. A table is a sequence of rows in
 * primary-key order; `Find` is `.filter(...).first()`, `Count` is
 * `.filter(...).count()` and `Filter` is `.filter(...).all()`.
 */
module Query {
  import opened Common

  /** Index of the first row satisfying `p`, or `None` when no row does. */
  function Find<T>(s: seq<T>, p: T -> bool): (r: Option<nat>)
    ensures r.Some? ==> r.value < |s| && p(s[r.value])
    ensures r.Some? ==> forall j :: 0 <= j < r.value ==> !p(s[j])
    ensures r.None? <==> forall j :: 0 <= j < |s| ==> !p(s[j])
    decreases |s|
  {
    if s == [] then None
    else if p(s[0]) then Some(0)
    else match Find(s[1..], p)
      case None => None
      case Some(i) => Some(i + 1)
  }

  /** Number of rows satisfying `p`. */
  function Count<T>(s: seq<T>, p: T -> bool): (n: nat)
    ensures n <= |s|
    ensures n == 0 <==> forall j :: 0 <= j < |s| ==> !p(s[j])
    decreases |s|
  {
    if s == [] then 0
    else
      var init := s[..|s| - 1];
      assert forall j :: 0 <= j < |init| ==> init[j] == s[j];
      Count(init, p) + (if p(s[|s| - 1]) then 1 else 0)
  }

  /** The rows satisfying `p`, in table order. */
  function Filter<T(!new)>(s: seq<T>, p: T -> bool): (r: seq<T>)
    ensures |r| == Count(s, p)
    ensures forall x :: x in r <==> x in s && p(x)
    // each matching row exactly as often as the table holds it
    ensures forall x :: multiset(r)[x] == if p(x) then multiset(s)[x] else 0
    decreases |s|
  {
    if s == [] then []
    else
      var init := s[..|s| - 1];
      assert s == init + [s[|s| - 1]];
      Filter(init, p) + (if p(s[|s| - 1]) then [s[|s| - 1]] else [])
  }

  /** Appending a row adds one to the count exactly when the row matches. */
  lemma CountAppend<T>(s: seq<T>, x: T, p: T -> bool)
    ensures Count(s + [x], p) == Count(s, p) + (if p(x) then 1 else 0)
  {
    assert (s + [x])[..|s|] == s;
  }

  /** Appending a row never moves the first match; it becomes the first match when there was none. */
  lemma {:induction false} FindAppend<T>(s: seq<T>, x: T, p: T -> bool)
    ensures Find(s, p).Some? ==> Find(s + [x], p) == Find(s, p)
    ensures Find(s, p).None? ==> Find(s + [x], p) == if p(x) then Some(|s|) else None
    decreases |s|
  {
    if s != [] {
      assert (s + [x])[1..] == s[1..] + [x];
      FindAppend(s[1..], x, p);
    }
  }

  /** Two tables of the same length on which `p` agrees at every position have the same first match and count. */
  lemma {:induction false} SamePattern<T>(s: seq<T>, t: seq<T>, p: T -> bool)
    requires |s| == |t|
    requires forall j :: 0 <= j < |s| ==> p(s[j]) == p(t[j])
    ensures Find(s, p) == Find(t, p)
    ensures Count(s, p) == Count(t, p)
    decreases |s|
  {
    if s != [] {
      SamePattern(s[1..], t[1..], p);
      SamePattern(s[..|s| - 1], t[..|t| - 1], p);
    }
  }

  /** Overwriting a row with one that matches `p` exactly when the old one did changes neither the first match nor the count. */
  lemma UpdateKeepsPattern<T>(s: seq<T>, i: nat, x: T, p: T -> bool)
    requires i < |s| && p(s[i]) == p(x)
    ensures Find(s[i := x], p) == Find(s, p)
    ensures Count(s[i := x], p) == Count(s, p)
  {
    SamePattern(s[i := x], s, p);
  }

  /** Rows appended after `s` do not disturb a match found in `s`. */
  lemma FindExtend<T>(s: seq<T>, t: seq<T>, p: T -> bool)
    requires |s| <= |t| && t[..|s|] == s
    ensures Find(s, p).Some? ==> Find(t, p) == Find(s, p)
  {
    var r := Find(t, p);
    if Find(s, p).Some? {
      var k := Find(s, p).value;
      assert t[k] == s[k];
      assert forall j :: 0 <= j < k ==> t[j] == s[j];
    }
  }

  /** Rows appended after `s` that do not match `p` change neither the first match nor the count. */
  lemma {:induction false} FindSkipsTail<T>(s: seq<T>, t: seq<T>, p: T -> bool)
    requires forall j :: 0 <= j < |t| ==> !p(t[j])
    ensures Find(s + t, p) == Find(s, p)
    ensures Count(s + t, p) == Count(s, p)
    decreases |t|
  {
    if t == [] {
      assert s + t == s;
    } else {
      var init := t[..|t| - 1];
      assert s + t == (s + init) + [t[|t| - 1]];
      FindSkipsTail(s, init, p);
      FindAppend(s + init, t[|t| - 1], p);
      CountAppend(s + init, t[|t| - 1], p);
    }
  }
}
