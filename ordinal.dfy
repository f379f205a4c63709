/**
 * Ordinal (code-point) order on strings, the model used throughout for
 * JavaScript's `localeCompare`, and the sorts built on it.
 */
module Ordinal {

  /** `a` sorts strictly before `b`: lexicographic by character, a proper prefix first. */
  predicate Less(a: string, b: string)
    decreases |a|
  {
    if |a| == 0 then |b| > 0
    else if |b| == 0 then false
    else if a[0] == b[0] then Less(a[1..], b[1..])
    else a[0] < b[0]
  }

  lemma {:induction false} LessIrreflexive(a: string)
    ensures !Less(a, a)
  {
    if |a| > 0 {
      LessIrreflexive(a[1..]);
    }
  }

  lemma {:induction false} LessTransitive(a: string, b: string, c: string)
    requires Less(a, b) && Less(b, c)
    ensures Less(a, c)
    decreases |a|
  {
    if |a| > 0 && |b| > 0 && |c| > 0 && a[0] == b[0] && b[0] == c[0] {
      LessTransitive(a[1..], b[1..], c[1..]);
    }
  }

  lemma {:induction false} LessTotal(a: string, b: string)
    ensures a == b || Less(a, b) || Less(b, a)
    decreases |a|
  {
    if |a| > 0 && |b| > 0 && a[0] == b[0] {
      LessTotal(a[1..], b[1..]);
      if a[1..] == b[1..] {
        assert a == [a[0]] + a[1..] && b == [b[0]] + b[1..];
      }
    }
  }

  lemma LessAsymmetric(a: string, b: string)
    requires Less(a, b)
    ensures !Less(b, a)
  {
    if Less(b, a) {
      LessTransitive(a, b, a);
      LessIrreflexive(a);
    }
  }

  /** `x` comes strictly before `y` in ascending (`desc == false`) or descending order. */
  predicate Precedes(x: string, y: string, desc: bool)
  {
    if desc then Less(y, x) else Less(x, y)
  }

  predicate StrictlySorted(s: seq<string>, desc: bool)
  {
    forall i, j :: 0 <= i < j < |s| ==> Precedes(s[i], s[j], desc)
  }

  predicate Distinct<T(==)>(s: seq<T>)
  {
    forall i, j :: 0 <= i < j < |s| ==> s[i] != s[j]
  }

  /** Inserts `x` into a strictly sorted sequence that does not contain it. */
  function Insert(x: string, s: seq<string>, desc: bool): (r: seq<string>)
    requires StrictlySorted(s, desc) && x !in s
    ensures multiset(r) == multiset(s) + multiset{x}
    ensures StrictlySorted(r, desc)
  {
    if s == [] then [x]
    else if Precedes(x, s[0], desc) then
      InsertFrontSorted(x, s, desc);
      [x] + s
    else
      LessTotal(x, s[0]);
      var rest := Insert(x, s[1..], desc);
      InsertBehindSorted(s[0], rest, x, s[1..], desc);
      assert s == [s[0]] + s[1..];
      [s[0]] + rest
  }

  lemma InsertFrontSorted(x: string, s: seq<string>, desc: bool)
    requires StrictlySorted(s, desc) && s != [] && Precedes(x, s[0], desc)
    ensures StrictlySorted([x] + s, desc)
  {
    forall j | 0 < j < |s|
      ensures Precedes(x, s[j], desc)
    {
      if desc { LessTransitive(s[j], s[0], x); } else { LessTransitive(x, s[0], s[j]); }
    }
  }

  lemma InsertBehindSorted(h: string, rest: seq<string>, x: string, tail: seq<string>, desc: bool)
    requires StrictlySorted(rest, desc)
    requires multiset(rest) == multiset(tail) + multiset{x}
    requires forall j :: 0 <= j < |tail| ==> Precedes(h, tail[j], desc)
    requires Precedes(h, x, desc)
    ensures StrictlySorted([h] + rest, desc)
  {
    forall j | 0 <= j < |rest|
      ensures Precedes(h, rest[j], desc)
    {
      assert rest[j] in multiset(rest);
      if rest[j] != x {
        assert rest[j] in multiset(tail);
        var k :| 0 <= k < |tail| && tail[k] == rest[j];
      }
    }
  }

  /**
   * Sorts distinct strings strictly (the array `sort` with a `localeCompare`
   * comparator, on keys that are known to be distinct).
   */
  function SortStrings(s: seq<string>, desc: bool): (r: seq<string>)
    requires Distinct(s)
    ensures multiset(r) == multiset(s)
    ensures StrictlySorted(r, desc)
  {
    if s == [] then []
    else
      var init := SortStrings(s[..|s| - 1], desc);
      assert s == s[..|s| - 1] + [s[|s| - 1]];
      assert s[|s| - 1] !in multiset(s[..|s| - 1]);
      Insert(s[|s| - 1], init, desc)
  }

  lemma SortedSameElements(s: seq<string>, desc: bool, x: string)
    requires Distinct(s)
    ensures x in SortStrings(s, desc) <==> x in s
    ensures |SortStrings(s, desc)| == |s|
  {
    var r := SortStrings(s, desc);
    assert x in multiset(r) <==> x in multiset(s);
    assert |multiset(r)| == |multiset(s)|;
  }

  /** Lexicographic order on pairs of strings, the two-level comparator of the event sort. */
  predicate PairLess(p: (string, string), q: (string, string))
  {
    Less(p.0, q.0) || (p.0 == q.0 && Less(p.1, q.1))
  }

  lemma PairLessIrreflexive(p: (string, string))
    ensures !PairLess(p, p)
  {
    LessIrreflexive(p.0);
    LessIrreflexive(p.1);
  }

  lemma PairLessTransitive(p: (string, string), q: (string, string), r: (string, string))
    requires PairLess(p, q) && PairLess(q, r)
    ensures PairLess(p, r)
  {
    if Less(p.0, q.0) && Less(q.0, r.0) {
      LessTransitive(p.0, q.0, r.0);
    } else if Less(p.1, q.1) && Less(q.1, r.1) {
      LessTransitive(p.1, q.1, r.1);
    }
  }

  lemma PairLessTotal(p: (string, string), q: (string, string))
    ensures p == q || PairLess(p, q) || PairLess(q, p)
  {
    LessTotal(p.0, q.0);
    LessTotal(p.1, q.1);
  }

  /** "Not after" on pairs is transitive: the order the stable descending sort establishes. */
  lemma PairNotLessTransitive(p: (string, string), q: (string, string), r: (string, string))
    requires !PairLess(p, q) && !PairLess(q, r)
    ensures !PairLess(p, r)
  {
    if PairLess(p, r) {
      PairLessTotal(p, q);
      if p == q {
      } else {
        PairLessTransitive(q, p, r);
      }
    }
  }

  lemma PairLessAsymmetric(p: (string, string), q: (string, string))
    requires PairLess(p, q)
    ensures !PairLess(q, p)
  {
    if PairLess(q, p) {
      PairLessTransitive(p, q, p);
      PairLessIrreflexive(p);
    }
  }
}
