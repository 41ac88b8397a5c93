/** Small shared pieces: optional values, results, filtered sequences, permutations. */
module Prelude {

  datatype Option<+T> = None | Some(value: T)
  datatype Result<+T, +E> = Ok(value: T) | Err(error: E)

  function Filter<T(!new)>(p: T -> bool, s: seq<T>): (r: seq<T>)
    ensures |r| <= |s|
    ensures forall x :: x in r <==> x in s && p(x)
  {
    if s == [] then [] else (if p(s[0]) then [s[0]] else []) + Filter(p, s[1..])
  }

  lemma {:induction false} FilterConcat<T(!new)>(p: T -> bool, a: seq<T>, b: seq<T>)
    ensures Filter(p, a + b) == Filter(p, a) + Filter(p, b)
  {
    if a == [] {
      assert a + b == b;
    } else {
      assert (a + b)[1..] == a[1..] + b;
      FilterConcat(p, a[1..], b);
    }
  }

  /** Two filters that agree on the elements give the same sequence. */
  lemma {:induction false} FilterAgree<T(!new)>(p: T -> bool, q: T -> bool, s: seq<T>)
    requires forall x :: x in s ==> p(x) == q(x)
    ensures Filter(p, s) == Filter(q, s)
  {
    if s != [] {
      FilterAgree(p, q, s[1..]);
    }
  }

  /** Filtering twice keeps what satisfies both. */
  lemma {:induction false} FilterTwice<T(!new)>(p: T -> bool, q: T -> bool, both: T -> bool, s: seq<T>)
    requires forall x :: x in s ==> both(x) == (p(x) && q(x))
    ensures Filter(p, Filter(q, s)) == Filter(both, s)
  {
    if s != [] {
      FilterTwice(p, q, both, s[1..]);
      FilterConcat(p, if q(s[0]) then [s[0]] else [], Filter(q, s[1..]));
    }
  }

  lemma {:induction false} FilterCount<T(!new)>(p: T -> bool, s: seq<T>, x: T)
    ensures multiset(Filter(p, s))[x] == if p(x) then multiset(s)[x] else 0
  {
    if s != [] {
      FilterCount(p, s[1..], x);
      assert s == [s[0]] + s[1..];
    }
  }

  /** Filtering carries a permutation to a permutation. */
  lemma FilterPermutes<T(!new)>(p: T -> bool, a: seq<T>, b: seq<T>)
    requires multiset(a) == multiset(b)
    ensures multiset(Filter(p, a)) == multiset(Filter(p, b))
  {
    forall x ensures multiset(Filter(p, a))[x] == multiset(Filter(p, b))[x] {
      FilterCount(p, a, x);
      FilterCount(p, b, x);
    }
  }

  function Map<T, U>(f: T -> U, s: seq<T>): (r: seq<U>)
    ensures |r| == |s|
    ensures forall i :: 0 <= i < |s| ==> r[i] == f(s[i])
  {
    seq(|s|, i requires 0 <= i < |s| => f(s[i]))
  }

  lemma {:induction false} MapFilter<A(!new), B(!new)>(f: A -> B, q: B -> bool, r: A -> bool, s: seq<A>)
    requires forall x :: x in s ==> r(x) == q(f(x))
    ensures Filter(q, Map(f, s)) == Map(f, Filter(r, s))
  {
    hide Filter;
    if s == [] {
      assert Map(f, s) == [];
      FilterNone(q);
      FilterNone(r);
    } else {
      var init, last := s[..|s| - 1], s[|s| - 1];
      assert s == init + [last] && Map(f, s) == Map(f, init) + [f(last)];
      MapFilter(f, q, r, init);
      FilterSnoc(q, Map(f, init), f(last));
      FilterSnoc(r, init, last);
    }
  }

  lemma FilterNone<T(!new)>(p: T -> bool)
    ensures Filter(p, []) == []
  {
  }

  // ------------------------------------------------------------------ sums

  function SumOf<T>(w: T -> real, s: seq<T>): real { if s == [] then 0.0 else w(s[0]) + SumOf(w, s[1..]) }

  lemma {:induction false} SumConcat<T>(w: T -> real, a: seq<T>, b: seq<T>)
    ensures SumOf(w, a + b) == SumOf(w, a) + SumOf(w, b)
  {
    if a == [] {
      assert a + b == b;
    } else {
      assert (a + b)[1..] == a[1..] + b;
      SumConcat(w, a[1..], b);
    }
  }

  lemma {:induction false} SumMapped<T(!new), U>(w: U -> real, f: T -> U, v: T -> real, s: seq<T>)
    requires forall x :: v(x) == w(f(x))
    ensures SumOf(w, Map(f, s)) == SumOf(v, s)
  {
    if s != [] {
      assert Map(f, s)[1..] == Map(f, s[1..]);
      SumMapped(w, f, v, s[1..]);
    }
  }

  // ------------------------------------------------------------------ permutations

  function Without<T>(s: seq<T>, j: nat): (r: seq<T>)
    requires j < |s|
    ensures |r| == |s| - 1
  {
    s[..j] + s[j + 1..]
  }

  /** A permutation's first element can be found in the other sequence and taken out of
      both. */
  lemma TakeOut<T>(a: seq<T>, b: seq<T>) returns (j: nat)
    requires multiset(a) == multiset(b) && a != []
    ensures j < |b| && b[j] == a[0] && multiset(a[1..]) == multiset(Without(b, j))
  {
    assert a[0] in multiset(b);
    j :| 0 <= j < |b| && b[j] == a[0];
    assert a == [a[0]] + a[1..];
    assert b == b[..j] + [b[j]] + b[j + 1..];
    assert multiset(a) == multiset{a[0]} + multiset(a[1..]);
    assert multiset(b) == multiset(b[..j]) + multiset{b[j]} + multiset(b[j + 1..]);
    assert multiset(Without(b, j)) == multiset(b[..j]) + multiset(b[j + 1..]);
    assert multiset(a[1..]) == multiset(a) - multiset{a[0]};
  }

  lemma PermutedLength<T>(a: seq<T>, b: seq<T>)
    requires multiset(a) == multiset(b)
    ensures |a| == |b|
  {
    assert |multiset(a)| == |a| && |multiset(b)| == |b|;
  }

  lemma {:induction false} MapPermutes<T, U>(f: T -> U, a: seq<T>, b: seq<T>)
    requires multiset(a) == multiset(b)
    ensures multiset(Map(f, a)) == multiset(Map(f, b))
  {
    if a == [] {
      PermutedLength(a, b);
    } else {
      var j := TakeOut(a, b);
      MapPermutes(f, a[1..], Without(b, j));
      assert Map(f, a) == [f(a[0])] + Map(f, a[1..]);
      assert Map(f, Without(b, j)) == Map(f, b[..j]) + Map(f, b[j + 1..]);
      assert Map(f, b) == Map(f, b[..j]) + [f(b[j])] + Map(f, b[j + 1..]);
    }
  }

  ghost predicate Distinct<T>(s: seq<T>) { forall i, j :: 0 <= i < j < |s| ==> s[i] != s[j] }

  lemma {:induction false} FilterDistinct<T(!new)>(p: T -> bool, s: seq<T>)
    requires Distinct(s)
    ensures Distinct(Filter(p, s))
  {
    if s != [] {
      assert forall i, j :: 0 <= i < j < |s[1..]| ==> s[1..][i] == s[i + 1] && s[1..][j] == s[j + 1];
      FilterDistinct(p, s[1..]);
      var head, rest := s[0], Filter(p, s[1..]);
      assert head !in s[1..];
      if p(head) {
        var r := [head] + rest;
        forall i, j | 0 <= i < j < |r| ensures r[i] != r[j] {
          assert r[j] in rest;
        }
      }
    }
  }

  lemma FilterSnoc<K(!new)>(p: K -> bool, s: seq<K>, x: K)
    ensures Filter(p, s + [x]) == Filter(p, s) + if p(x) then [x] else []
  {
    FilterConcat(p, s, [x]);
    assert [x][1..] == [];
  }

  lemma SameElements<T>(a: seq<T>, b: seq<T>)
    requires multiset(a) == multiset(b)
    ensures (forall x :: x in a <==> x in b) && (a == [] <==> b == []) && |a| == |b|
  {
    forall x ensures x in a <==> x in b { assert x in multiset(a) <==> x in multiset(b); }
    PermutedLength(a, b);
  }
}
