/** Pages of a set of rows in a strict total order, chained by the last row read. The
    rows may change between requests. */
module Keyset {
  import opened Prelude
  import opened Order

  datatype Page<K> = Page(rows: seq<K>, hasMore: bool)

  /** The rows strictly after the cursor; the cursor's own row need not exist. */
  function Rest<K(!new)>(o: (K, K) -> bool, rows: set<K>, cursor: Option<K>): (r: set<K>) {
    if cursor.None? then rows else set k | k in rows && o(cursor.value, k)
  }

  function Take<T>(s: seq<T>, n: nat): (r: seq<T>)
    ensures |r| == if |s| <= n then |s| else n
  {
    if |s| <= n then s else s[..n]
  }

  /** The first `limit` rows after the cursor, and whether there are more of them. */
  function FirstOf<K(==, !new)>(o: (K, K) -> bool, rows: set<K>, cursor: Option<K>, limit: nat): (p: Page<K>)
    requires StrictTotal(o)
    ensures p.hasMore <==> |Rest(o, rows, cursor)| > limit
    ensures p.hasMore ==> |p.rows| == limit
  {
    var rest := Rest(o, rows, cursor);
    Page(Take(Sort(o, rest), limit), |rest| > limit)
  }

  lemma PageRows<K(!new)>(o: (K, K) -> bool, rows: set<K>, cursor: Option<K>, limit: nat)
    requires StrictTotal(o)
    ensures var p := FirstOf(o, rows, cursor, limit);
      && Increasing(o, p.rows)
      && (forall k :: k in p.rows ==> k in Rest(o, rows, cursor))
      && (!p.hasMore ==> forall k :: k in Rest(o, rows, cursor) ==> k in p.rows)
  {
    hide Sort;
    var rest := Rest(o, rows, cursor);
    var all := Sort(o, rest);
    SortLists(o, rest);
    if |all| > limit {
      ListingSplit(o, all, rest, limit);
    }
  }

  lemma PagePrefix<K(!new)>(o: (K, K) -> bool, rows: set<K>, cursor: Option<K>, limit: nat)
    requires StrictTotal(o)
    ensures var p, all := FirstOf(o, rows, cursor, limit), Sort(o, Rest(o, rows, cursor));
      |all| == |Rest(o, rows, cursor)| && p.rows == if p.hasMore then all[..limit] else all
  {
    hide Sort, Rest;
  }

  /** A page lists, in order, the least rows after the cursor: as many as the limit and the
      rest allow, and each before every row of the rest that it leaves out. */
  lemma PageIs<K(!new)>(o: (K, K) -> bool, rows: set<K>, cursor: Option<K>, limit: nat)
    requires StrictTotal(o)
    ensures var p, rest := FirstOf(o, rows, cursor, limit), Rest(o, rows, cursor);
      && Increasing(o, p.rows) && (forall k :: k in p.rows ==> k in rest)
      && |p.rows| == (if |rest| <= limit then |rest| else limit)
      && (forall j, k :: j in p.rows && k in rest && k !in p.rows ==> o(j, k))
      && (p.hasMore <==> exists k :: k in rest && k !in p.rows)
  {
    hide Sort, Rest;
    var rest := Rest(o, rows, cursor);
    var p, all := FirstOf(o, rows, cursor, limit), Sort(o, rest);
    SortLists(o, rest);
    PageRows(o, rows, cursor, limit);
    if p.hasMore {
      ListingSplit(o, all, rest, limit);
      assert all[limit..][0] in all[limit..] && all[limit] in rest;
    }
  }

  /** What is left after a full page is the rest of the sorted rows. */
  lemma NextRest<K(!new)>(o: (K, K) -> bool, rows: set<K>, cursor: Option<K>, limit: nat, all: seq<K>)
    requires StrictTotal(o) && 1 <= limit < |all| && all == Sort(o, Rest(o, rows, cursor))
    ensures Sort(o, Rest(o, rows, Some(all[limit - 1]))) == all[limit..]
  {
    hide Sort;
    var rest := Rest(o, rows, cursor);
    var last := all[limit - 1];
    SortLists(o, rest);
    assert last in all && last in rest;
    var left := Rest(o, rows, Some(last));
    assert left == set k | k in rest && o(last, k) by {
      forall k | k in left ensures k in rest {
        if cursor.Some? { Trans(o, cursor.value, last, k); }
      }
    }
    TailListing(o, all, rest, limit, left);
    SortIs(o, all[limit..], left);
  }

  // ------------------------------------------------------------------ chained pages

  /** A request: its limit, and the rows it reads when it continues after a cursor. They
      may depend on the cursor, since a page may be read piecemeal. */
  datatype Request<!K> = Request(rows: Option<K> -> set<K>, limit: nat)

  predicate PositiveLimits<K>(reqs: seq<Request<K>>) {
    forall i :: 0 <= i < |reqs| ==> reqs[i].limit >= 1
  }

  /** The rows a client collects, over how many pages, and whether the last said so. */
  datatype Walk<K> = Walk(rows: seq<K>, pages: nat, done: bool)

  /** The requests from the i-th on, each continuing where the one before stopped. */
  function Pages<K(==, !new)>(o: (K, K) -> bool, cursor: Option<K>, reqs: seq<Request<K>>, i: nat): (w: Walk<K>)
    requires StrictTotal(o) && PositiveLimits(reqs) && i <= |reqs|
    ensures i + w.pages <= |reqs|
    decreases |reqs| - i
  {
    if i == |reqs| then Walk([], 0, false)
    else
      var p := FirstOf(o, reqs[i].rows(cursor), cursor, reqs[i].limit);
      if !p.hasMore then Walk(p.rows, 1, true)
      else
        var w := Pages(o, Some(p.rows[reqs[i].limit - 1]), reqs, i + 1);
        Walk(p.rows + w.rows, w.pages + 1, w.done)
  }

  predicate After<K>(o: (K, K) -> bool, cursor: Option<K>, k: K) { cursor.Some? ==> o(cursor.value, k) }

  /** The rows of a walk strictly increase, so none repeats; all come after the cursor. */
  lemma {:induction false} WalkIncreases<K(!new)>(o: (K, K) -> bool, cursor: Option<K>, reqs: seq<Request<K>>, i: nat,
                                                  w: Walk<K>)
    requires StrictTotal(o) && PositiveLimits(reqs) && i <= |reqs| && w == Pages(o, cursor, reqs, i)
    ensures Increasing(o, w.rows) && forall k :: k in w.rows ==> After(o, cursor, k)
    decreases |reqs| - i
  {
    hide FirstOf;
    if i == |reqs| {
    } else {
      var q := reqs[i];
      var p := FirstOf(o, q.rows(cursor), cursor, q.limit);
      PageRows(o, q.rows(cursor), cursor, q.limit);
      if p.hasMore {
        var next := Some(p.rows[q.limit - 1]);
        var v := Pages(o, next, reqs, i + 1);
        WalkIncreases(o, next, reqs, i + 1, v);
        Chained(o, cursor, p.rows, v.rows);
      }
    }
  }

  lemma Chained<K(!new)>(o: (K, K) -> bool, cursor: Option<K>, page: seq<K>, tail: seq<K>)
    requires StrictTotal(o) && page != [] && Increasing(o, page) && Increasing(o, tail)
    requires forall k :: k in tail ==> After(o, Some(page[|page| - 1]), k)
    requires forall k :: k in page ==> After(o, cursor, k)
    ensures Increasing(o, page + tail)
    ensures forall k :: k in page + tail ==> After(o, cursor, k)
  {
    var c, last := page + tail, page[|page| - 1];
    assert After(o, cursor, last) by { assert last in page; }
    forall i, j | 0 <= i < j < |c| ensures o(c[i], c[j]) {
      if i < |page| <= j {
        assert c[j] in tail && After(o, Some(last), c[j]);
        if i < |page| - 1 { Trans(o, page[i], last, c[j]); }
      }
    }
    forall k | k in tail ensures After(o, cursor, k) {
      assert After(o, Some(last), k);
      if cursor.Some? { Trans(o, cursor.value, last, k); }
    }
  }

  /** The request read the row, after the given cursor if it is the walk's first. */
  ghost predicate Read<K(!new)>(q: Request<K>, isFirst: bool, cursor: Option<K>, k: K) {
    if isFirst then k in q.rows(cursor) else exists c: Option<K> :: c.Some? && k in q.rows(c)
  }

  /** Nothing is invented: a collected row was read by a request that was made. */
  lemma {:induction false} WalkSound<K(!new)>(o: (K, K) -> bool, cursor: Option<K>, reqs: seq<Request<K>>, i: nat,
                                              w: Walk<K>, k: K)
    requires StrictTotal(o) && PositiveLimits(reqs) && i <= |reqs| && w == Pages(o, cursor, reqs, i) && k in w.rows
    ensures exists j :: i <= j < i + w.pages && Read(reqs[j], j == i, cursor, k)
    decreases |reqs| - i
  {
    hide FirstOf;
    var q := reqs[i];
    var p := FirstOf(o, q.rows(cursor), cursor, q.limit);
    PageRows(o, q.rows(cursor), cursor, q.limit);
    if k in p.rows {
      assert Read(reqs[i], true, cursor, k);
    } else {
      var next := Some(p.rows[q.limit - 1]);
      WalkSound(o, next, reqs, i + 1, Pages(o, next, reqs, i + 1), k);
      var j :| i + 1 <= j < i + w.pages && Read(reqs[j], j == i + 1, next, k);
      assert Read(reqs[j], j == i, cursor, k);
    }
  }

  /** Nothing that stayed is missed: a row after the cursor that every request of a
      finished walk found present has been collected. */
  lemma {:induction false} WalkComplete<K(!new)>(o: (K, K) -> bool, cursor: Option<K>, reqs: seq<Request<K>>, i: nat,
                                                 w: Walk<K>, k: K)
    requires StrictTotal(o) && PositiveLimits(reqs) && i <= |reqs| && w == Pages(o, cursor, reqs, i) && w.done
    requires (forall j, c :: i <= j < i + w.pages ==> k in reqs[j].rows(c)) && After(o, cursor, k)
    ensures k in w.rows
    decreases |reqs| - i
  {
    hide FirstOf;
    var q := reqs[i];
    var p := FirstOf(o, q.rows(cursor), cursor, q.limit);
    PageRows(o, q.rows(cursor), cursor, q.limit);
    assert k in reqs[i].rows(cursor);
    if k !in p.rows {
      var next := Some(p.rows[q.limit - 1]);
      SkippedIsLater(o, q.rows(cursor), cursor, q.limit, k);
      WalkComplete(o, next, reqs, i + 1, Pages(o, next, reqs, i + 1), k);
    }
  }

  /** A row of the rest that a page left out comes after the page's last row. */
  lemma SkippedIsLater<K(!new)>(o: (K, K) -> bool, rows: set<K>, cursor: Option<K>, limit: nat, k: K)
    requires StrictTotal(o) && limit >= 1 && FirstOf(o, rows, cursor, limit).hasMore
    requires k in Rest(o, rows, cursor) && k !in FirstOf(o, rows, cursor, limit).rows
    ensures o(FirstOf(o, rows, cursor, limit).rows[limit - 1], k)
  {
    hide Sort;
    var rest := Rest(o, rows, cursor);
    var all := Sort(o, rest);
    SortLists(o, rest);
    ListingSplit(o, all, rest, limit);
    assert all[limit - 1] in all[..limit];
  }

  // ------------------------------------------------------------------ rows at rest

  /** Requests needed for n rows, one full page at a time. */
  function PagesFor(n: nat, limit: nat): (p: nat)
    requires limit >= 1
    ensures p >= 1
  {
    if n <= limit then 1 else 1 + PagesFor(n - limit, limit)
  }

  /** That number is max(1, ceil(n / limit)). */
  lemma {:induction false} PagesForIsCeiling(n: nat, limit: nat)
    requires limit >= 1
    ensures var p := PagesFor(n, limit);
      limit * (p - 1) <= n <= limit * p && (n > 0 ==> limit * (p - 1) < n) && (n == 0 ==> p == 1)
  {
    if n > limit {
      PagesForIsCeiling(n - limit, limit);
      var p := PagesFor(n - limit, limit);
      assert limit * (p + 1) == limit * p + limit;
      assert limit * (p - 1) == limit * p - limit;
    }
  }

  /** Every request reads these rows, whatever its cursor. */
  ghost predicate AtRest<K(!new)>(reqs: seq<Request<K>>, i: nat, rows: set<K>, limit: nat) {
    forall j :: i <= j < |reqs| ==> reqs[j].limit == limit && forall c :: reqs[j].rows(c) == rows
  }

  /** Over rows that stay put, the pages concatenate to the sorted rest in exactly the
      number of requests it takes. */
  lemma {:induction false} WalkAtRest<K(!new)>(o: (K, K) -> bool, cursor: Option<K>, reqs: seq<Request<K>>, i: nat,
                                               rows: set<K>, limit: nat, w: Walk<K>)
    requires StrictTotal(o) && PositiveLimits(reqs) && i <= |reqs| && w == Pages(o, cursor, reqs, i)
    requires limit >= 1 && AtRest(reqs, i, rows, limit)
    requires |reqs| - i >= PagesFor(|Rest(o, rows, cursor)|, limit)
    ensures var rest := Rest(o, rows, cursor);
      w.done && w.rows == Sort(o, rest) && w.pages == PagesFor(|rest|, limit)
    decreases |reqs| - i
  {
    hide FirstOf, Rest, Sort;
    assert reqs[i].limit == limit && reqs[i].rows(cursor) == rows;
    var rest := Rest(o, rows, cursor);
    var all := Sort(o, rest);
    PagePrefix(o, rows, cursor, limit);
    if |rest| > limit {
      var next := Some(all[limit - 1]);
      NextRest(o, rows, cursor, limit, all);
      var left := Rest(o, rows, next);
      assert |left| == |Sort(o, left)| == |rest| - limit;
      WalkAtRest(o, next, reqs, i + 1, rows, limit, Pages(o, next, reqs, i + 1));
      assert all == all[..limit] + Sort(o, left);
    }
  }
}
