/** Strict total orders and the sorted listing of a finite set: the meaning of a
    SQL `ORDER BY` over rows that the ordering columns identify, and of Python's
    `sorted` over a set. */
module Order {

  /** A name for a pair or triple of elements, so that the laws below are instantiated
      where a proof asks for them and nowhere else. */
  ghost predicate Pair<T>(x: T, y: T) { true }
  ghost predicate Triple<T>(x: T, y: T, z: T) { true }

  ghost predicate StrictTotal<T(!new)>(lt: (T, T) -> bool) {
    && (forall x :: !lt(x, x))
    && (forall x, y {:trigger Pair(x, y)} :: x != y ==> lt(x, y) || lt(y, x))
    && (forall x, y, z {:trigger Triple(x, y, z)} :: lt(x, y) && lt(y, z) ==> lt(x, z))
  }

  lemma Total<T(!new)>(lt: (T, T) -> bool, x: T, y: T)
    requires StrictTotal(lt)
    ensures x == y || lt(x, y) || lt(y, x)
  {
    assert Pair(x, y);
  }

  lemma Trans<T(!new)>(lt: (T, T) -> bool, x: T, y: T, z: T)
    requires StrictTotal(lt) && lt(x, y) && lt(y, z)
    ensures lt(x, z)
  {
    assert Triple(x, y, z);
  }

  ghost predicate Increasing<T>(lt: (T, T) -> bool, r: seq<T>) {
    forall i, j :: 0 <= i < j < |r| ==> lt(r[i], r[j])
  }

  /** `r` lists the elements of `s`, each once, in the order `lt`. */
  ghost predicate Lists<T(!new)>(lt: (T, T) -> bool, r: seq<T>, s: set<T>) {
    && Increasing(lt, r)
    && (forall x :: x in r <==> x in s)
  }

  predicate IsLeast<T(==, !new)>(lt: (T, T) -> bool, m: T, s: set<T>) {
    m in s && forall x :: x in s ==> x == m || lt(m, x)
  }

  lemma {:induction false} LeastExists<T(!new)>(lt: (T, T) -> bool, s: set<T>)
    requires StrictTotal(lt) && s != {}
    ensures exists m :: IsLeast(lt, m, s)
    decreases |s|
  {
    var y :| y in s;
    if s == {y} {
      assert IsLeast(lt, y, s);
    } else {
      LeastExists(lt, s - {y});
      var n :| IsLeast(lt, n, s - {y});
      Total(lt, n, y);
      if lt(n, y) {
        assert IsLeast(lt, n, s);
      } else {
        forall x | x in s ensures x == y || lt(y, x) {
          if x != y && x != n { Trans(lt, y, n, x); }
        }
        assert IsLeast(lt, y, s);
      }
    }
  }

  lemma LeastUnique<T(!new)>(lt: (T, T) -> bool, s: set<T>)
    requires StrictTotal(lt)
    ensures forall m, n :: IsLeast(lt, m, s) && IsLeast(lt, n, s) ==> m == n
  {
    forall m, n | IsLeast(lt, m, s) && IsLeast(lt, n, s) ensures m == n {
      if m != n { Trans(lt, m, n, m); }
    }
  }

  function Least<T(==, !new)>(lt: (T, T) -> bool, s: set<T>): (m: T)
    requires StrictTotal(lt) && s != {}
    ensures IsLeast(lt, m, s)
  {
    LeastExists(lt, s);
    LeastUnique(lt, s);
    var m :| m in s && IsLeast(lt, m, s);
    m
  }

  function Sort<T(==, !new)>(lt: (T, T) -> bool, s: set<T>): (r: seq<T>)
    requires StrictTotal(lt)
    ensures |r| == |s|
    decreases |s|
  {
    if s == {} then [] else [Least(lt, s)] + Sort(lt, s - {Least(lt, s)})
  }

  lemma {:induction false} SortLists<T(!new)>(lt: (T, T) -> bool, s: set<T>)
    requires StrictTotal(lt)
    ensures Lists(lt, Sort(lt, s), s)
    decreases |s|
  {
    if s != {} {
      var m := Least(lt, s);
      SortLists(lt, s - {m});
      Cons(lt, m, Sort(lt, s - {m}), s);
    }
  }

  lemma Cons<T(!new)>(lt: (T, T) -> bool, m: T, a: seq<T>, s: set<T>)
    requires IsLeast(lt, m, s) && Lists(lt, a, s - {m})
    ensures Lists(lt, [m] + a, s)
  {
    var r := [m] + a;
    forall i, j | 0 <= i < j < |r| ensures lt(r[i], r[j]) {
      assert r[j] in a;
    }
  }

  /** A set has one listing: whatever lists it is its sorted sequence. */
  lemma SortIs<T(!new)>(lt: (T, T) -> bool, a: seq<T>, s: set<T>)
    requires StrictTotal(lt) && Lists(lt, a, s)
    ensures Sort(lt, s) == a
  {
    SortLists(lt, s);
    ListingUnique(lt, Sort(lt, s), a, s);
  }

  lemma {:induction false} ListingUnique<T(!new)>(lt: (T, T) -> bool, a: seq<T>, b: seq<T>, s: set<T>)
    requires StrictTotal(lt) && Lists(lt, a, s) && Lists(lt, b, s)
    ensures a == b
    decreases |a|
  {
    assert b == [] || b[0] in s;
    assert a == [] || a[0] in s;
    if a == [] {
    } else {
      HeadIsLeast(lt, a, s);
      HeadIsLeast(lt, b, s);
      assert a[0] == b[0] by { if a[0] != b[0] { Trans(lt, a[0], b[0], a[0]); } }
      Tail(lt, a, s);
      Tail(lt, b, s);
      ListingUnique(lt, a[1..], b[1..], s - {a[0]});
    }
  }

  lemma HeadIsLeast<T(!new)>(lt: (T, T) -> bool, a: seq<T>, s: set<T>)
    requires Lists(lt, a, s) && a != []
    ensures IsLeast(lt, a[0], s)
  {
    forall x | x in s ensures x == a[0] || lt(a[0], x) {
      var i :| 0 <= i < |a| && a[i] == x;
    }
  }

  lemma Tail<T(!new)>(lt: (T, T) -> bool, a: seq<T>, s: set<T>)
    requires StrictTotal(lt) && Lists(lt, a, s) && a != []
    ensures Lists(lt, a[1..], s - {a[0]})
  {
    forall x ensures x in a[1..] <==> x in s - {a[0]} {
      if x in a[1..] {
        var i :| 0 <= i < |a| - 1 && a[1..][i] == x;
        assert a[i + 1] in s;
      }
      if x in s - {a[0]} {
        var i :| 0 <= i < |a| && a[i] == x;
        assert a[1..][i - 1] == x;
      }
    }
  }

  /** Listing one block of rows after another lists their union, when every row of
      the first block precedes every row of the second. */
  lemma ListingConcat<T(!new)>(lt: (T, T) -> bool, a: seq<T>, s: set<T>, b: seq<T>, t: set<T>)
    requires Lists(lt, a, s) && Lists(lt, b, t)
    requires forall x, y :: x in s && y in t ==> lt(x, y)
    ensures Lists(lt, a + b, s + t)
  {
    var c := a + b;
    forall i, j | 0 <= i < j < |c| ensures lt(c[i], c[j]) {
      if i < |a| <= j { assert a[i] in s && b[j - |a|] in t; }
    }
    forall x ensures x in c <==> x in s + t {}
  }

  /** A listing cut in two: the head holds the rows that precede the tail's. */
  lemma ListingSplit<T(!new)>(lt: (T, T) -> bool, a: seq<T>, s: set<T>, n: nat)
    requires Lists(lt, a, s) && n <= |a|
    ensures forall x, y :: x in a[..n] && y in a[n..] ==> lt(x, y)
    ensures forall x :: x in s <==> x in a[..n] || x in a[n..]
    ensures Increasing(lt, a[..n]) && Increasing(lt, a[n..])
  {
    forall x, y | x in a[..n] && y in a[n..] ensures lt(x, y) {
      var i :| 0 <= i < n && a[..n][i] == x;
      var j :| 0 <= j < |a| - n && a[n..][j] == y;
      assert a[i] == x && a[n + j] == y;
    }
    assert a == a[..n] + a[n..];
  }

  /** What comes after the n-th row of a listing is listed by its tail. */
  lemma TailListing<T(!new)>(lt: (T, T) -> bool, a: seq<T>, s: set<T>, n: nat, t: set<T>)
    requires StrictTotal(lt) && Lists(lt, a, s) && 0 < n <= |a|
    requires t == set x | x in s && lt(a[n - 1], x)
    ensures Lists(lt, a[n..], t)
  {
    assert a[n - 1] in s;
    forall x ensures x in a[n..] <==> x in t {
      if x in a[n..] {
        var j :| 0 <= j < |a| - n && a[n..][j] == x;
        assert a[n + j] == x && x in s;
      }
      if x in t {
        var j :| 0 <= j < |a| && a[j] == x;
        if j < n {
          if j < n - 1 { Trans(lt, x, a[n - 1], x); }
        } else {
          assert x == a[n..][j - n];
        }
      }
    }
  }
}
