/** Order-preserving removal from a sequence: the model of JavaScript's
    `a.filter(v => v !== x)`, generalised to dropping every member of a set. */
module Seqs {

  /** `s` with every element that belongs to `xs` removed, the rest in order. */
  function Without<T(==)>(s: seq<T>, xs: set<T>): (r: seq<T>)
    ensures |r| <= |s|
  {
    if s == [] then []
    else if s[0] in xs then Without(s[1..], xs)
    else [s[0]] + Without(s[1..], xs)
  }

  /** What survives is exactly the elements of `s` outside `xs`, and never
      more of them than `s` had. */
  lemma {:induction false} WithoutShape<T>(s: seq<T>, xs: set<T>)
    ensures |Without(s, xs)| <= |s|
    ensures forall i :: 0 <= i < |Without(s, xs)| ==> Without(s, xs)[i] in s && Without(s, xs)[i] !in xs
    ensures forall i :: 0 <= i < |s| && s[i] !in xs ==> s[i] in Without(s, xs)
  {
    if s != [] {
      WithoutShape(s[1..], xs);
      if s[0] !in xs {
        assert Without(s, xs) == [s[0]] + Without(s[1..], xs);
      }
      forall i | 0 <= i < |s| && s[i] !in xs
        ensures s[i] in Without(s, xs)
      {
        if i > 0 {
          assert s[i] == s[1..][i - 1];
        }
      }
    }
  }

  /** No element occurs twice: the head is not in the tail, and so on down. */
  predicate Distinct<T(==)>(s: seq<T>) {
    s == [] || (s[0] !in s[1..] && Distinct(s[1..]))
  }

  /** In a sequence without repetitions, the element at `i` occurs at no
      other position. */
  lemma {:induction false} DistinctAt<T>(s: seq<T>, i: nat)
    requires Distinct(s) && i < |s|
    ensures forall j :: 0 <= j < |s| && j != i ==> s[j] != s[i]
  {
    if i == 0 {
      forall j | 0 < j < |s| ensures s[j] != s[0] {
        assert s[j] == s[1..][j - 1];
      }
    } else {
      DistinctAt(s[1..], i - 1);
      forall j | 0 <= j < |s| && j != i ensures s[j] != s[i] {
        if j == 0 {
          assert s[i] == s[1..][i - 1];
        } else {
          assert s[j] == s[1..][j - 1];
        }
      }
    }
  }

  /** Appending an element that does not occur keeps a sequence free of
      repetitions. */
  lemma {:induction false} DistinctAppend<T>(s: seq<T>, x: T)
    requires Distinct(s) && x !in s
    ensures Distinct(s + [x])
  {
    if s != [] {
      assert (s + [x])[1..] == s[1..] + [x];
      DistinctAppend(s[1..], x);
    }
  }

  /** Filtering a sequence without repetitions leaves one without repetitions. */
  lemma {:induction false} WithoutDistinct<T>(s: seq<T>, xs: set<T>)
    requires Distinct(s)
    ensures Distinct(Without(s, xs))
  {
    if s != [] {
      var rest := Without(s[1..], xs);
      WithoutDistinct(s[1..], xs);
      WithoutShape(s[1..], xs);
      if s[0] !in xs {
        assert Without(s, xs) == [s[0]] + rest;
        assert Without(s, xs)[1..] == rest;
      }
    }
  }

  /** Filtering distributes over concatenation: what survives of `a` still
      comes before what survives of `b`, so the relative order is kept. */
  lemma {:induction false} WithoutConcat<T>(a: seq<T>, b: seq<T>, xs: set<T>)
    ensures Without(a + b, xs) == Without(a, xs) + Without(b, xs)
  {
    if a == [] {
      assert a + b == b;
    } else {
      assert (a + b)[1..] == a[1..] + b;
      WithoutConcat(a[1..], b, xs);
    }
  }

  /** Removing elements that do not occur changes nothing. */
  lemma {:induction false} WithoutDisjoint<T>(s: seq<T>, xs: set<T>)
    requires forall i :: 0 <= i < |s| ==> s[i] !in xs
    ensures Without(s, xs) == s
  {
    if s != [] {
      WithoutDisjoint(s[1..], xs);
    }
  }

  /** Removing an element that does not occur changes nothing. */
  lemma WithoutAbsent<T>(s: seq<T>, x: T)
    requires x !in s
    ensures Without(s, {x}) == s
  {
    WithoutDisjoint(s, {x});
  }

  /** Every occurrence of `x` goes and every other element keeps its multiplicity. */
  lemma {:induction false} WithoutMultiset<T>(s: seq<T>, x: T)
    ensures multiset(Without(s, {x})) == multiset(s)[x := 0]
  {
    if s != [] {
      WithoutMultiset(s[1..], x);
      assert s == [s[0]] + s[1..];
    }
  }

  /** Filtering depends only on which elements of `s` the set holds. */
  lemma {:induction false} WithoutAgree<T>(s: seq<T>, a: set<T>, b: set<T>)
    requires forall i :: 0 <= i < |s| ==> (s[i] in a <==> s[i] in b)
    ensures Without(s, a) == Without(s, b)
  {
    if s != [] {
      WithoutAgree(s[1..], a, b);
    }
  }

  /** Filtering twice by the same set is filtering once. */
  lemma WithoutIdempotent<T>(s: seq<T>, xs: set<T>)
    ensures Without(Without(s, xs), xs) == Without(s, xs)
  {
    WithoutShape(s, xs);
    WithoutDisjoint(Without(s, xs), xs);
  }

  /** Appending `x` and then filtering `x` out gives back the original
      sequence when `x` did not occur in it. */
  lemma WithoutAppended<T>(s: seq<T>, x: T)
    requires x !in s
    ensures Without(s + [x], {x}) == s
  {
    WithoutConcat(s, [x], {x});
    WithoutDisjoint(s, {x});
  }

  /** Filtering by `a` and then by `b` is filtering by both at once. */
  lemma {:induction false} WithoutWithout<T>(s: seq<T>, a: set<T>, b: set<T>)
    ensures Without(Without(s, a), b) == Without(s, a + b)
  {
    if s != [] {
      WithoutWithout(s[1..], a, b);
    }
  }
}
