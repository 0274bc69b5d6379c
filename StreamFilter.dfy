/** `list.stream().filter(p).toList()`: keep, in encounter order, the
    elements that satisfy `p`.  The contract of `Filter` is an independent
    description of the result (a subsequence, only matching elements, every
    matching element as often as in the input), and `SelectionIsUnique`
    shows that this description leaves no other choice. */
module StreamFilter {

  /** `a` is `b` with some elements deleted, the rest in their order. */
  predicate IsSubsequence<T(==)>(a: seq<T>, b: seq<T>)
    decreases |b|
  {
    if b == [] then a == []
    else (a != [] && a[0] == b[0] && IsSubsequence(a[1..], b[1..])) || IsSubsequence(a, b[1..])
  }

  function Filter<T(==)>(s: seq<T>, p: T -> bool): (r: seq<T>)
    ensures IsSubsequence(r, s)
    ensures forall x :: x in r ==> x in s && p(x)
    ensures forall x {:trigger multiset(r)[x]} :: x in s && p(x) ==> multiset(r)[x] == multiset(s)[x]
  {
    if s == [] then []
    else
      assert s == [s[0]] + s[1..];
      if p(s[0]) then [s[0]] + Filter(s[1..], p) else Filter(s[1..], p)
  }

  /** Filtering one more element on the end adds it when it matches. */
  lemma {:induction false} FilterAppend<T>(s: seq<T>, x: T, p: T -> bool)
    ensures Filter(s + [x], p) == Filter(s, p) + (if p(x) then [x] else [])
  {
    if s == [] {
      assert s + [x] == [x];
      assert [x][1..] == [];
    } else {
      var t := s + [x];
      assert t[0] == s[0] && t[1..] == s[1..] + [x];
      FilterAppend(s[1..], x, p);
    }
  }

  /** Filtering by a narrower predicate after a wider one is the same as
      filtering by the narrower one alone. */
  lemma {:induction false} FilterNarrow<T>(s: seq<T>, wide: T -> bool, narrow: T -> bool)
    requires forall x :: narrow(x) ==> wide(x)
    ensures Filter(Filter(s, wide), narrow) == Filter(s, narrow)
  {
    if s != [] {
      FilterNarrow(s[1..], wide, narrow);
      if wide(s[0]) {
        assert ([s[0]] + Filter(s[1..], wide))[1..] == Filter(s[1..], wide);
      }
    }
  }

  lemma {:induction false} SubsequenceCounts<T>(a: seq<T>, b: seq<T>)
    requires IsSubsequence(a, b)
    ensures multiset(a) <= multiset(b)
    decreases |b|
  {
    if b != [] {
      assert b == [b[0]] + b[1..];
      if a != [] && a[0] == b[0] && IsSubsequence(a[1..], b[1..]) {
        SubsequenceCounts(a[1..], b[1..]);
        assert a == [a[0]] + a[1..];
      } else {
        SubsequenceCounts(a, b[1..]);
      }
    }
  }

  /** Any sequence with the three properties Filter promises is Filter's
      result: the contract determines the query's answer completely. */
  lemma {:induction false} SelectionIsUnique<T>(r: seq<T>, s: seq<T>, p: T -> bool)
    requires IsSubsequence(r, s)
    requires forall x :: x in r ==> p(x)
    requires forall x {:trigger multiset(r)[x]} :: x in s && p(x) ==> multiset(r)[x] == multiset(s)[x]
    ensures r == Filter(s, p)
    decreases |s|
  {
    if s != [] {
      var x := s[0];
      assert s == [x] + s[1..];
      if r != [] && r[0] == x && IsSubsequence(r[1..], s[1..]) {
        assert r == [x] + r[1..];
        assert p(x) by { assert r[0] in r; }
        forall y | y in s[1..] && p(y) ensures multiset(r[1..])[y] == multiset(s[1..])[y] {
          assert multiset(r)[y] == multiset(s)[y];
        }
        SelectionIsUnique(r[1..], s[1..], p);
      } else {
        assert IsSubsequence(r, s[1..]);
        SubsequenceCounts(r, s[1..]);
        assert multiset(r)[x] <= multiset(s[1..])[x] < multiset(s)[x];
        if p(x) {
          assert false;
        }
        forall y | p(y) ensures multiset(r)[y] == multiset(s[1..])[y] {
          assert y != x;
        }
        SelectionIsUnique(r, s[1..], p);
      }
    }
  }
}
