/** Python's `sorted` with a key function: a stable sort, its laws, and tuple order. */
module Sorting {
  import opened Prelude
  import opened Order

  /** Insert after the last element that does not follow `x`. */
  function Insert<K, S>(lt: (S, S) -> bool, sk: K -> S, x: K, s: seq<K>): seq<K> {
    if s == [] then [x]
    else if lt(sk(x), sk(s[|s| - 1])) then Insert(lt, sk, x, s[..|s| - 1]) + [s[|s| - 1]]
    else s + [x]
  }

  /** A stable sort by a sort key. */
  function StableSort<K, S>(lt: (S, S) -> bool, sk: K -> S, s: seq<K>): seq<K> {
    if s == [] then [] else Insert(lt, sk, s[|s| - 1], StableSort(lt, sk, s[..|s| - 1]))
  }

  ghost predicate NonDescending<K, S>(lt: (S, S) -> bool, sk: K -> S, s: seq<K>) {
    forall i, j :: 0 <= i < j < |s| ==> !lt(sk(s[j]), sk(s[i]))
  }

  ghost predicate Ascending<K, S>(lt: (S, S) -> bool, sk: K -> S, s: seq<K>) {
    forall i, j :: 0 <= i < j < |s| ==> lt(sk(s[i]), sk(s[j]))
  }

  lemma {:induction false} InsertPermutes<K, S>(lt: (S, S) -> bool, sk: K -> S, x: K, s: seq<K>)
    ensures multiset(Insert(lt, sk, x, s)) == multiset(s) + multiset{x}
  {
    if s != [] {
      assert s == s[..|s| - 1] + [s[|s| - 1]];
      InsertPermutes(lt, sk, x, s[..|s| - 1]);
    }
  }

  lemma {:induction false} SortMultiset<K, S>(lt: (S, S) -> bool, sk: K -> S, s: seq<K>)
    ensures multiset(StableSort(lt, sk, s)) == multiset(s)
  {
    hide Insert;
    if s != [] {
      var init, last := s[..|s| - 1], s[|s| - 1];
      SortMultiset(lt, sk, init);
      InsertPermutes(lt, sk, last, StableSort(lt, sk, init));
      assert s == init + [last];
    }
  }

  /** Sorting permutes. */
  lemma SortPermutes<K, S>(lt: (S, S) -> bool, sk: K -> S, s: seq<K>)
    ensures multiset(StableSort(lt, sk, s)) == multiset(s)
    ensures forall x :: x in StableSort(lt, sk, s) <==> x in s
  {
    hide StableSort;
    SortMultiset(lt, sk, s);
    SameElements(StableSort(lt, sk, s), s);
  }

  lemma {:induction false} InsertSorted<K, S(!new)>(lt: (S, S) -> bool, sk: K -> S, x: K, s: seq<K>)
    requires StrictTotal(lt) && NonDescending(lt, sk, s)
    ensures NonDescending(lt, sk, Insert(lt, sk, x, s))
  {
    if s != [] {
      var init, last := s[..|s| - 1], s[|s| - 1];
      var r := Insert(lt, sk, x, s);
      if lt(sk(x), sk(last)) {
        InsertSorted(lt, sk, x, init);
        InsertPermutes(lt, sk, x, init);
        var t := Insert(lt, sk, x, init);
        forall i, j | 0 <= i < j < |r| ensures !lt(sk(r[j]), sk(r[i])) {
          if j == |t| {
            assert t[i] in multiset(t);
            if t[i] == x {
              if lt(sk(last), sk(x)) { Trans(lt, sk(last), sk(x), sk(last)); }
            } else {
              assert t[i] in init;
              var k :| 0 <= k < |init| && init[k] == t[i];
              assert s[k] == t[i] && s[|s| - 1] == last;
            }
          }
        }
      } else {
        forall i, j | 0 <= i < j < |r| ensures !lt(sk(r[j]), sk(r[i])) {
          if j == |s| && i < |s| - 1 {
            Total(lt, sk(last), sk(x));
            if lt(sk(x), sk(s[i])) && lt(sk(last), sk(x)) { Trans(lt, sk(last), sk(x), sk(s[i])); }
          }
        }
      }
    }
  }

  lemma {:induction false} SortSorted<K, S(!new)>(lt: (S, S) -> bool, sk: K -> S, s: seq<K>)
    requires StrictTotal(lt)
    ensures NonDescending(lt, sk, StableSort(lt, sk, s))
  {
    if s != [] {
      SortSorted(lt, sk, s[..|s| - 1]);
      InsertSorted(lt, sk, s[|s| - 1], StableSort(lt, sk, s[..|s| - 1]));
    }
  }

  function Equal<K, S(==)>(sk: K -> S, v: S): K -> bool { x => sk(x) == v }

  lemma {:induction false} InsertStable<K(!new), S(!new)>(lt: (S, S) -> bool, sk: K -> S, x: K, s: seq<K>, v: S)
    requires StrictTotal(lt)
    ensures Filter(Equal(sk, v), Insert(lt, sk, x, s)) == Filter(Equal(sk, v), s) + if sk(x) == v then [x] else []
  {
    hide Filter;
    var p := Equal(sk, v);
    if s == [] || !lt(sk(x), sk(s[|s| - 1])) {
      assert [] + [x] == [x];
      FilterSnoc(p, s, x);
    } else {
      var init, last := s[..|s| - 1], s[|s| - 1];
      InsertStable(lt, sk, x, init, v);
      FilterSnoc(p, Insert(lt, sk, x, init), last);
      assert s == init + [last];
      FilterSnoc(p, init, last);
    }
  }

  /** Elements with equal sort keys keep their order. */
  lemma {:induction false} SortStable<K(!new), S(!new)>(lt: (S, S) -> bool, sk: K -> S, s: seq<K>, v: S)
    requires StrictTotal(lt)
    ensures Filter(Equal(sk, v), StableSort(lt, sk, s)) == Filter(Equal(sk, v), s)
  {
    hide Filter;
    if s != [] {
      var init, last := s[..|s| - 1], s[|s| - 1];
      SortStable(lt, sk, init, v);
      InsertStable(lt, sk, last, StableSort(lt, sk, init), v);
      FilterSnoc(Equal(sk, v), init, last);
      assert s == init + [last];
    }
  }

  lemma LastIsGreatest<K, S(!new)>(lt: (S, S) -> bool, sk: K -> S, a: seq<K>, x: K)
    requires Ascending(lt, sk, a) && x in multiset(a)
    ensures x == a[|a| - 1] || lt(sk(x), sk(a[|a| - 1]))
  {
    assert x in a;
  }

  lemma DropLast<K>(a: seq<K>)
    requires a != []
    ensures multiset(a[..|a| - 1]) == multiset(a) - multiset{a[|a| - 1]}
    ensures a[|a| - 1] in multiset(a)
  {
    assert a == a[..|a| - 1] + [a[|a| - 1]];
  }

  lemma SameLast<K, S(!new)>(lt: (S, S) -> bool, sk: K -> S, a: seq<K>, b: seq<K>)
    requires StrictTotal(lt) && Ascending(lt, sk, a) && Ascending(lt, sk, b)
    requires multiset(a) == multiset(b) && a != [] && b != []
    ensures a[|a| - 1] == b[|b| - 1]
  {
    hide StrictTotal, Ascending;
    DropLast(a);
    DropLast(b);
    var x, y := a[|a| - 1], b[|b| - 1];
    LastIsGreatest(lt, sk, b, x);
    LastIsGreatest(lt, sk, a, y);
    if x != y {
      Trans(lt, sk(x), sk(y), sk(x));
      Irreflexive(lt, sk(x));
    }
  }

  /** Two strictly ascending listings of the same elements are the same. */
  lemma {:induction false} AscendingUnique<K, S(!new)>(lt: (S, S) -> bool, sk: K -> S, a: seq<K>, b: seq<K>)
    requires StrictTotal(lt) && Ascending(lt, sk, a) && Ascending(lt, sk, b)
    requires multiset(a) == multiset(b)
    ensures a == b
  {
    hide StrictTotal, Ascending;
    PermutedLength(a, b);
    if a != [] {
      SameLast(lt, sk, a, b);
      DropLast(a);
      DropLast(b);
      AscendingPrefix(lt, sk, a);
      AscendingPrefix(lt, sk, b);
      AscendingUnique(lt, sk, a[..|a| - 1], b[..|b| - 1]);
      assert a == a[..|a| - 1] + [a[|a| - 1]] && b == b[..|b| - 1] + [b[|b| - 1]];
    }
  }

  lemma Irreflexive<S(!new)>(lt: (S, S) -> bool, x: S)
    requires StrictTotal(lt)
    ensures !lt(x, x)
  {
  }

  lemma AscendingPrefix<K, S>(lt: (S, S) -> bool, sk: K -> S, a: seq<K>)
    requires Ascending(lt, sk, a) && a != []
    ensures Ascending(lt, sk, a[..|a| - 1])
  {
  }

  // ------------------------------------------------------------------ sequences without repeats

  lemma LastNew<T>(s: seq<T>)
    requires Distinct(s) && s != []
    ensures s[|s| - 1] !in s[..|s| - 1]
  {
    var init := s[..|s| - 1];
    forall i | 0 <= i < |init| ensures init[i] != s[|s| - 1] { assert s[i] != s[|s| - 1]; }
  }

  lemma {:induction false} DistinctOnce<K>(s: seq<K>, x: K)
    requires Distinct(s)
    ensures multiset(s)[x] == if x in s then 1 else 0
  {
    if s != [] {
      var init, last := s[..|s| - 1], s[|s| - 1];
      DistinctOnce(init, x);
      assert s == init + [last];
      assert last !in init by {
        forall i | 0 <= i < |init| ensures init[i] != last { assert s[i] != s[|s| - 1]; }
      }
    }
  }

  lemma DistinctSame<K(!new)>(a: seq<K>, b: seq<K>)
    requires Distinct(a) && Distinct(b) && forall x :: x in a <==> x in b
    ensures multiset(a) == multiset(b)
  {
    forall x ensures multiset(a)[x] == multiset(b)[x] {
      DistinctOnce(a, x);
      DistinctOnce(b, x);
    }
  }

  lemma SortDistinct<K, S>(lt: (S, S) -> bool, sk: K -> S, s: seq<K>)
    requires Distinct(s)
    ensures Distinct(StableSort(lt, sk, s))
  {
    hide StableSort;
    SortPermutes(lt, sk, s);
    var r := StableSort(lt, sk, s);
    forall i, j | 0 <= i < j < |r| ensures r[i] != r[j] {
      if r[i] == r[j] {
        DistinctOnce(s, r[i]);
        TwiceCounts(r, i, j);
      }
    }
  }

  lemma TwiceCounts<K>(r: seq<K>, i: nat, j: nat)
    requires i < j < |r| && r[i] == r[j]
    ensures multiset(r)[r[i]] >= 2
  {
    assert r == r[..j] + r[j..];
    assert r[..j][i] in multiset(r[..j]) && r[j..][0] in multiset(r[j..]);
  }

  // ------------------------------------------------------------------ tuples

  /** Tuples compare component by component. */
  function Lex<A(==), B>(f: (A, A) -> bool, g: (B, B) -> bool): ((A, B), (A, B)) -> bool {
    (x: (A, B), y: (A, B)) => f(x.0, y.0) || (x.0 == y.0 && g(x.1, y.1))
  }

  lemma LexTotal<A(!new), B(!new)>(f: (A, A) -> bool, g: (B, B) -> bool)
    requires StrictTotal(f) && StrictTotal(g)
    ensures StrictTotal(Lex(f, g))
  {
    var lt := Lex(f, g);
    forall x, y ensures !lt(x, x) && (x == y || lt(x, y) || lt(y, x)) {
      Irreflexive(f, x.0);
      Irreflexive(g, x.1);
      Total(f, x.0, y.0);
      Total(g, x.1, y.1);
    }
    forall x, y, z | lt(x, y) && lt(y, z) ensures lt(x, z) {
      if f(x.0, y.0) && f(y.0, z.0) { Trans(f, x.0, y.0, z.0); }
      if x.0 == y.0 == z.0 { Trans(g, x.1, y.1, z.1); }
    }
  }
}
