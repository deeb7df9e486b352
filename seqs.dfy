/**
 * Sequence operations that the source performs with `Array.prototype`
 * methods: `filter`, `map`, `slice(0, n)`, `filter(...).length`, and
 * `Array.from(new Set(xs))` / `xs.filter((x, i, self) => self.indexOf(x) === i)`,
 * the two ways it removes duplicates while keeping first occurrences.
 */
module Seqs {
  import opened Wrappers

  /** `xs.filter(p)`: the elements satisfying `p`, in order. */
  function Filter<T>(p: T -> bool, s: seq<T>): (r: seq<T>)
    ensures |r| <= |s|
    ensures forall i :: 0 <= i < |r| ==> r[i] in s && p(r[i])
    ensures forall i :: 0 <= i < |s| && p(s[i]) ==> s[i] in r
  {
    if |s| == 0 then [] else (if p(s[0]) then [s[0]] else []) + Filter(p, s[1..])
  }

  /** `xs.filter(p).length`. */
  function Count<T>(p: T -> bool, s: seq<T>): (n: nat)
    ensures n <= |s|
  {
    |Filter(p, s)|
  }

  /** `xs.map(f)`. */
  function MapSeq<A, B>(f: A -> B, s: seq<A>): (r: seq<B>)
    ensures |r| == |s|
    ensures forall i :: 0 <= i < |s| ==> r[i] == f(s[i])
  {
    if |s| == 0 then [] else [f(s[0])] + MapSeq(f, s[1..])
  }

  /** `xs.filter(x => x !== null)` after a map that may yield `null`. */
  function Somes<T>(s: seq<Option<T>>): (r: seq<T>)
    ensures |r| <= |s|
    ensures forall i :: 0 <= i < |r| ==> Some(r[i]) in s
    ensures forall i :: 0 <= i < |s| && s[i].Some? ==> s[i].value in r
  {
    if |s| == 0 then []
    else (if s[0].Some? then [s[0].value] else []) + Somes(s[1..])
  }

  /** `xs.slice(0, n)`. */
  function Take<T>(s: seq<T>, n: nat): (r: seq<T>)
    ensures |r| <= n && |r| <= |s|
    ensures r == s[..|r|]
    ensures |s| <= n ==> r == s
    ensures n <= |s| ==> |r| == n
  {
    if |s| <= n then s else s[..n]
  }

  predicate NoDuplicates<T(==)>(s: seq<T>) {
    forall i, j :: 0 <= i < j < |s| ==> s[i] != s[j]
  }

  /** `xs.indexOf(x)` for an `x` that occurs in `xs`. */
  function FirstIndex<T(==)>(s: seq<T>, x: T): (k: nat)
    requires x in s
    ensures k < |s| && s[k] == x && x !in s[..k]
  {
    if s[0] == x then 0
    else
      var k := 1 + FirstIndex(s[1..], x);
      assert s[..k] == [s[0]] + s[1..][..k - 1];
      k
  }

  /**
   * Keep an element exactly when no earlier element equals it: the source's
   * `self.indexOf(x) === i` filter, and also the order in which a JavaScript
   * `Set` keeps its first insertion of each value.
   */
  function Dedupe<T(==)>(s: seq<T>): (r: seq<T>)
    ensures forall i :: 0 <= i < |r| ==> r[i] in s
    ensures forall i :: 0 <= i < |s| ==> s[i] in r
    ensures NoDuplicates(r)
  {
    if |s| == 0 then []
    else
      var init := s[..|s| - 1];
      var x := s[|s| - 1];
      assert s == init + [x];
      Dedupe(init) + (if x in init then [] else [x])
  }

  lemma FirstIndexOfPrefix<T>(p: seq<T>, q: seq<T>, x: T)
    requires x in p
    ensures FirstIndex(p + q, x) == FirstIndex(p, x)
  {
    var k1, k2 := FirstIndex(p + q, x), FirstIndex(p, x);
    assert (p + q)[k2] == x;
  }

  /** Dedupe lists each value at the position of its first occurrence in `s`. */
  lemma {:induction false} DedupeKeepsFirstOccurrenceOrder<T>(s: seq<T>)
    ensures forall i, j :: 0 <= i < j < |Dedupe(s)| ==>
      FirstIndex(s, Dedupe(s)[i]) < FirstIndex(s, Dedupe(s)[j])
  {
    if |s| > 0 {
      var init := s[..|s| - 1];
      var x := s[|s| - 1];
      assert s == init + [x];
      DedupeKeepsFirstOccurrenceOrder(init);
      var d := Dedupe(init);
      var r := Dedupe(s);
      assert r == d + (if x in init then [] else [x]);
      forall i, j | 0 <= i < j < |r|
        ensures FirstIndex(s, r[i]) < FirstIndex(s, r[j])
      {
        assert r[i] == d[i] && r[i] in init;
        FirstIndexOfPrefix(init, [x], r[i]);
        if j < |d| {
          assert r[j] == d[j] && r[j] in init;
          FirstIndexOfPrefix(init, [x], r[j]);
        } else {
          assert r[j] == x && x !in init;
          assert FirstIndex(s, x) == |s| - 1;
        }
      }
    }
  }

  /** The elements removed by `Filter` are exactly those failing `p`; it keeps their order. */
  lemma {:induction false} FilterOfNoDuplicates<T>(p: T -> bool, s: seq<T>)
    requires NoDuplicates(s)
    ensures NoDuplicates(Filter(p, s))
  {
    if |s| > 0 {
      FilterOfNoDuplicates(p, s[1..]);
      var rest := Filter(p, s[1..]);
      assert s[0] !in s[1..];
      assert s[0] !in rest;
    }
  }

  /** `slice(0, n)` keeps a list free of duplicates. */
  lemma TakeOfNoDuplicates<T>(s: seq<T>, n: nat)
    requires NoDuplicates(s)
    ensures NoDuplicates(Take(s, n))
  {
  }

  /**
   * `Array.from(new Set(s)).slice(0, n)`: the first `n` distinct values of `s`
   * (all of them when there are fewer), distinct, in order of first occurrence.
   */
  lemma FirstDistinct<T>(s: seq<T>, n: nat)
    ensures var r := Take(Dedupe(s), n);
      && NoDuplicates(r)
      && |r| == (if |Dedupe(s)| < n then |Dedupe(s)| else n)
      && r == Dedupe(s)[..|r|]
      && (forall i :: 0 <= i < |r| ==> r[i] in s)
      && (forall i, j :: 0 <= i < j < |r| ==> FirstIndex(s, r[i]) < FirstIndex(s, r[j]))
      && (|Dedupe(s)| <= n ==> forall x :: x in s ==> x in r)
  {
    var d := Dedupe(s);
    var r := Take(d, n);
    TakeOfNoDuplicates(d, n);
    DedupeKeepsFirstOccurrenceOrder(s);
    forall i | 0 <= i < |r| ensures r[i] == d[i] && r[i] in s {}
  }

  /** Filtering distributes over appending one element, as a loop that pushes matching elements sees it. */
  lemma {:induction false} FilterSnoc<T>(p: T -> bool, s: seq<T>, x: T)
    ensures Filter(p, s + [x]) == Filter(p, s) + (if p(x) then [x] else [])
  {
    if |s| == 0 {
      assert s + [x] == [x];
    } else {
      assert (s + [x])[1..] == s[1..] + [x];
      FilterSnoc(p, s[1..], x);
    }
  }

  /** Filtering a list that starts with `x`. */
  lemma FilterCons<T>(p: T -> bool, x: T, s: seq<T>)
    ensures Filter(p, [x] + s) == (if p(x) then [x] else []) + Filter(p, s)
  {
    assert ([x] + s)[1..] == s;
  }

  /** Mapping a list that starts with `x`. */
  lemma MapCons<A, B>(f: A -> B, x: A, s: seq<A>)
    ensures MapSeq(f, [x] + s) == [f(x)] + MapSeq(f, s)
  {
    assert ([x] + s)[1..] == s;
  }

  lemma AppendAssoc<T>(a: seq<T>, x: T, b: seq<T>)
    ensures (a + [x]) + b == a + ([x] + b)
  {
  }

  /** `new Set(s)` keeps the first element of a non-empty list in front. */
  lemma DedupeKeepsHead<T>(s: seq<T>)
    requires |s| > 0
    ensures |Dedupe(s)| > 0 && Dedupe(s)[0] == s[0]
  {
    var r := Dedupe(s);
    assert s[0] in r;
    var j :| 0 <= j < |r| && r[j] == s[0];
    if j > 0 {
      DedupeKeepsFirstOccurrenceOrder(s);
    }
  }

  /** A list without duplicates is its own `new Set(...)`. */
  lemma {:induction false} DedupeOfNoDuplicates<T>(s: seq<T>)
    requires NoDuplicates(s)
    ensures Dedupe(s) == s
  {
    if |s| > 0 {
      var init := s[..|s| - 1];
      assert NoDuplicates(init);
      DedupeOfNoDuplicates(init);
      assert s[|s| - 1] !in init;
      assert s == init + [s[|s| - 1]];
    }
  }

  /** Mapping a list extended by one element. */
  lemma MapSnoc<A, B>(f: A -> B, s: seq<A>, x: A)
    ensures MapSeq(f, s + [x]) == MapSeq(f, s) + [f(x)]
  {
  }

  /** Mapping a concatenation maps each part. */
  lemma MapAppend<A, B>(f: A -> B, s: seq<A>, t: seq<A>)
    ensures MapSeq(f, s + t) == MapSeq(f, s) + MapSeq(f, t)
  {
  }

  /** Two tests no element passes together count, between them, at most the length of the list. */
  lemma {:induction false} CountDisjoint<T>(p: T -> bool, q: T -> bool, s: seq<T>)
    requires forall i :: 0 <= i < |s| ==> !(p(s[i]) && q(s[i]))
    ensures Count(p, s) + Count(q, s) <= |s|
  {
    if |s| > 0 {
      CountDisjoint(p, q, s[1..]);
      assert s == [s[0]] + s[1..];
      FilterCons(p, s[0], s[1..]);
      FilterCons(q, s[0], s[1..]);
    }
  }

  /** A test every element passes counts the whole list. */
  lemma {:induction false} CountAll<T>(p: T -> bool, s: seq<T>)
    requires forall i :: 0 <= i < |s| ==> p(s[i])
    ensures Count(p, s) == |s|
  {
    if |s| > 0 {
      CountAll(p, s[1..]);
      assert s == [s[0]] + s[1..];
      FilterCons(p, s[0], s[1..]);
    }
  }
}
