/** The Tableau roll-ups: two groupings of the same rows, and the incident listing. */
module Tableau {
  import opened Prelude
  import opened Order
  import opened Sorting
  import Text
  import Refresh

  // ------------------------------------------------------------------ rows, totals, groups

  datatype Row = Row(date: int, agent: string, role: Option<string>, source: string, kind: string,
                     total: int, successes: int, failures: int, latencyCount: int, latencySum: Option<real>,
                     lossCount: int, lossSum: Option<real>)

  /** Any pseudonym function; different agents may share a pseudonym. */
  type Pseudonym = string -> string

  datatype Group = Group(agent: string, role: Option<string>, source: string, kind: string)
  datatype DailyKey = DailyKey(date: int, group: Group)

  function GroupOf(p: Pseudonym, r: Row): Group { Group(p(r.agent), r.role, r.source, r.kind) }
  function DailyKeyOf(p: Pseudonym, r: Row): DailyKey { DailyKey(r.date, GroupOf(p, r)) }

  datatype Totals = Totals(total: int, successes: int, failures: int, latencyCount: int, latencySum: real,
                           lossCount: int, lossSum: real)

  const ZERO := Totals(0, 0, 0, 0, 0.0, 0, 0.0)

  function Plus(a: Totals, b: Totals): Totals {
    Totals(a.total + b.total, a.successes + b.successes, a.failures + b.failures, a.latencyCount + b.latencyCount,
           a.latencySum + b.latencySum, a.lossCount + b.lossCount, a.lossSum + b.lossSum)
  }

  function OrZero(x: Option<real>): real { if x.Some? then x.value else 0.0 }

  function RowTotals(r: Row): Totals {
    Totals(r.total, r.successes, r.failures, r.latencyCount, OrZero(r.latencySum), r.lossCount, OrZero(r.lossSum))
  }

  function TotalsOf(rows: seq<Row>): Totals {
    if rows == [] then ZERO else Plus(TotalsOf(rows[..|rows| - 1]), RowTotals(rows[|rows| - 1]))
  }

  /** `_ratio`: nothing over nothing is null. */
  function Ratio(numerator: real, denominator: int, multiplier: real): Option<real> {
    if denominator == 0 then None else Some(multiplier * numerator / (denominator as real))
  }

  /** A dictionary of lists: keys in the order of first appearance. */
  datatype Groups<K> = Groups(order: seq<K>, members: map<K, seq<Row>>)

  function GroupBy<K>(key: Row -> K, rows: seq<Row>): Groups<K> {
    if rows == [] then Groups([], map[])
    else
      var g, k := GroupBy(key, rows[..|rows| - 1]), key(rows[|rows| - 1]);
      Groups(if k in g.members then g.order else g.order + [k],
             g.members[k := (if k in g.members then g.members[k] else []) + [rows[|rows| - 1]]])
  }

  function Having<K(==)>(key: Row -> K, k: K): Row -> bool { r => key(r) == k }

  /** The groups' keys are the rows' keys, each once; a group's members are the rows with
      its key, in order. */
  lemma {:induction false} GroupByIs<K(!new)>(key: Row -> K, rows: seq<Row>)
    ensures Distinct(GroupBy(key, rows).order)
    ensures forall k :: k in GroupBy(key, rows).order <==> k in GroupBy(key, rows).members
    ensures forall k :: k in GroupBy(key, rows).members <==> exists r :: r in rows && key(r) == k
    ensures forall k :: k in GroupBy(key, rows).members ==>
      GroupBy(key, rows).members[k] == Filter(Having(key, k), rows)
  {
    hide Filter;
    if rows != [] {
      var init, last := rows[..|rows| - 1], rows[|rows| - 1];
      GroupByIs(key, init);
      assert rows == init + [last];
      var before, after := GroupBy(key, init), GroupBy(key, rows);
      forall k ensures k in after.members <==> exists r :: r in rows && key(r) == k {
        if r :| r in rows && key(r) == k { assert r in init || r == last; }
      }
      forall k | k in after.members ensures after.members[k] == Filter(Having(key, k), rows) {
        FilterSnoc(Having(key, k), init, last);
        if k !in before.members { NoneHaving(key, k, init); }
      }
    }
  }

  lemma {:induction false} NoneHaving<K(!new)>(key: Row -> K, k: K, rows: seq<Row>)
    requires !exists r :: r in rows && key(r) == k
    ensures Filter(Having(key, k), rows) == []
  {
    if rows != [] { NoneHaving(key, k, rows[1..]); }
  }

  // ------------------------------------------------------------------ a dataset, for any grouping

  /** One line per group, in sort-key order. */
  function Lines<K(==), S, L>(key: Row -> K, lt: (S, S) -> bool, sk: K -> S, render: (K, seq<Row>) -> L,
                              rows: seq<Row>): (r: seq<L>)
  {
    Map((k: K) => render(k, Filter(Having(key, k), rows)), StableSort(lt, sk, GroupBy(key, rows).order))
  }

  /** The line does not depend on the order of the group's rows. */
  ghost predicate Impartial<K(!new), L>(render: (K, seq<Row>) -> L) {
    forall k, m, n {:trigger render(k, m), render(k, n)} :: multiset(m) == multiset(n) ==> render(k, m) == render(k, n)
  }

  ghost predicate NoClash<K(!new), S>(key: Row -> K, sk: K -> S, rows: seq<Row>) {
    forall q, r :: q in rows && r in rows && sk(key(q)) == sk(key(r)) ==> key(q) == key(r)
  }

  lemma PermutedOrder<K(!new)>(key: Row -> K, a: seq<Row>, b: seq<Row>)
    requires multiset(a) == multiset(b)
    ensures multiset(GroupBy(key, a).order) == multiset(GroupBy(key, b).order)
  {
    hide GroupBy, Filter;
    SameElements(a, b);
    GroupByIs(key, a);
    GroupByIs(key, b);
    forall k ensures k in GroupBy(key, a).order <==> k in GroupBy(key, b).order {}
    DistinctSame(GroupBy(key, a).order, GroupBy(key, b).order);
  }

  /** Without a clash the sorted keys ascend strictly. */
  lemma KeysAscend<K(!new), S(!new)>(key: Row -> K, lt: (S, S) -> bool, sk: K -> S, rows: seq<Row>)
    requires StrictTotal(lt) && NoClash(key, sk, rows)
    ensures Ascending(lt, sk, StableSort(lt, sk, GroupBy(key, rows).order))
  {
    hide GroupBy, Filter, StableSort;
    var order := GroupBy(key, rows).order;
    var keys := StableSort(lt, sk, order);
    GroupByIs(key, rows);
    SortSorted(lt, sk, order);
    SortPermutes(lt, sk, order);
    SortDistinct(lt, sk, order);
    forall i, j | 0 <= i < j < |keys| ensures lt(sk(keys[i]), sk(keys[j])) {
      assert keys[i] in order && keys[j] in order;
      Total(lt, sk(keys[i]), sk(keys[j]));
    }
  }

  /** Without a clash the dataset does not depend on the order of the rows. */
  lemma OrderIndependent<K(!new), S(!new), L>(key: Row -> K, lt: (S, S) -> bool, sk: K -> S, render: (K, seq<Row>) -> L,
                                              a: seq<Row>, b: seq<Row>)
    requires StrictTotal(lt) && Impartial(render) && multiset(a) == multiset(b) && NoClash(key, sk, a)
    ensures Lines(key, lt, sk, render, a) == Lines(key, lt, sk, render, b)
  {
    hide GroupBy, Filter, StableSort, StrictTotal;
    SameElements(a, b);
    PermutedOrder(key, a, b);
    KeysAscend(key, lt, sk, a);
    KeysAscend(key, lt, sk, b);
    SortPermutes(lt, sk, GroupBy(key, a).order);
    SortPermutes(lt, sk, GroupBy(key, b).order);
    var keys := StableSort(lt, sk, GroupBy(key, a).order);
    AscendingUnique(lt, sk, keys, StableSort(lt, sk, GroupBy(key, b).order));
    forall k ensures render(k, Filter(Having(key, k), a)) == render(k, Filter(Having(key, k), b)) {
      FilterPermutes(Having(key, k), a, b);
    }
  }

  // ------------------------------------------------------------------ a clash shows

  /** The rows of one key first, then the others. */
  function Promoted<K(==)>(key: Row -> K, k: K, rows: seq<Row>): seq<Row> {
    Filter(Having(key, k), rows) + Filter(r => key(r) != k, rows)
  }

  lemma {:induction false} PromotedPermutes<K(!new)>(key: Row -> K, k: K, rows: seq<Row>)
    ensures multiset(Promoted(key, k, rows)) == multiset(rows)
  {
    forall x ensures multiset(Promoted(key, k, rows))[x] == multiset(rows)[x] {
      FilterCount(Having(key, k), rows, x);
      FilterCount(r => key(r) != k, rows, x);
    }
  }

  lemma {:induction false} FirstKey<K(!new)>(key: Row -> K, rows: seq<Row>)
    requires rows != []
    ensures GroupBy(key, rows).order != [] && GroupBy(key, rows).order[0] == key(rows[0])
  {
    if |rows| > 1 {
      FirstKey(key, rows[..|rows| - 1]);
      GroupByIs(key, rows[..|rows| - 1]);
    }
  }

  /** The first of the keys that share a sort key is the first to appear. */
  lemma FirstAmongEqual<K(!new), S(!new)>(key: Row -> K, lt: (S, S) -> bool, sk: K -> S, rows: seq<Row>, k: K)
    requires StrictTotal(lt) && rows != [] && key(rows[0]) == k
    ensures var f := Filter(Equal(sk, sk(k)), StableSort(lt, sk, GroupBy(key, rows).order)); f != [] && f[0] == k
  {
    hide GroupBy, StableSort;
    FirstKey(key, rows);
    var order := GroupBy(key, rows).order;
    SortStable(lt, sk, order, sk(k));
    assert order == [k] + order[1..];
    FilterConcat(Equal(sk, sk(k)), [k], order[1..]);
  }

  lemma PromotedFirst<K(!new)>(key: Row -> K, k: K, rows: seq<Row>, r: Row)
    requires r in rows && key(r) == k
    ensures Promoted(key, k, rows) != [] && key(Promoted(key, k, rows)[0]) == k
  {
    var f := Filter(Having(key, k), rows);
    assert r in f;
    assert f[0] in f;
  }

  /** Two keys that share a sort key make the dataset depend on the order of the rows. */
  lemma ClashShows<K(!new), S(!new), L>(key: Row -> K, lt: (S, S) -> bool, sk: K -> S, render: (K, seq<Row>) -> L,
                                        unkey: L -> K, rows: seq<Row>, q: Row, r: Row)
    requires StrictTotal(lt) && (forall k, m :: unkey(render(k, m)) == k)
    requires q in rows && r in rows && sk(key(q)) == sk(key(r)) && key(q) != key(r)
    ensures Lines(key, lt, sk, render, Promoted(key, key(q), rows))
         != Lines(key, lt, sk, render, Promoted(key, key(r), rows))
  {
    hide GroupBy, Filter, StableSort, StrictTotal, Promoted;
    var a, b := Promoted(key, key(q), rows), Promoted(key, key(r), rows);
    PromotedFirst(key, key(q), rows, q);
    PromotedFirst(key, key(r), rows, r);
    FirstAmongEqual(key, lt, sk, a, key(q));
    FirstAmongEqual(key, lt, sk, b, key(r));
    KeysOfLines(key, lt, sk, render, unkey, a);
    KeysOfLines(key, lt, sk, render, unkey, b);
  }

  lemma KeysOfLines<K(!new), S(!new), L>(key: Row -> K, lt: (S, S) -> bool, sk: K -> S, render: (K, seq<Row>) -> L,
                                         unkey: L -> K, rows: seq<Row>)
    requires forall k, m :: unkey(render(k, m)) == k
    ensures Map(unkey, Lines(key, lt, sk, render, rows)) == StableSort(lt, sk, GroupBy(key, rows).order)
  {
    hide GroupBy, Filter, StableSort;
    var keys, lines := StableSort(lt, sk, GroupBy(key, rows).order), Lines(key, lt, sk, render, rows);
    forall i | 0 <= i < |keys| ensures unkey(lines[i]) == keys[i] {
      assert lines[i] == render(keys[i], Filter(Having(key, keys[i]), rows));
    }
  }

  /** The dataset is independent of the order of its input if and only if no two groups
      share a sort key. */
  lemma IndependentIff<K(!new), S(!new), L>(key: Row -> K, lt: (S, S) -> bool, sk: K -> S, render: (K, seq<Row>) -> L,
                                            unkey: L -> K, rows: seq<Row>)
    requires StrictTotal(lt) && Impartial(render) && forall k, m :: unkey(render(k, m)) == k
    ensures (forall other :: multiset(other) == multiset(rows) ==>
      Lines(key, lt, sk, render, other) == Lines(key, lt, sk, render, rows))
       <==> NoClash(key, sk, rows)
  {
    hide Lines, Impartial, StrictTotal, Promoted;
    if NoClash(key, sk, rows) {
      forall other | multiset(other) == multiset(rows)
        ensures Lines(key, lt, sk, render, other) == Lines(key, lt, sk, render, rows)
      {
        OrderIndependent(key, lt, sk, render, rows, other);
      }
    } else {
      var q, r :| q in rows && r in rows && sk(key(q)) == sk(key(r)) && key(q) != key(r);
      PromotedPermutes(key, key(q), rows);
      PromotedPermutes(key, key(r), rows);
      ClashShows(key, lt, sk, render, unkey, rows, q, r);
    }
  }

  // ------------------------------------------------------------------ the two datasets

  type GroupSortKey = (string, (string, (string, string)))
  type DailySortKey = (int, GroupSortKey)

  /** A missing role sorts as the empty text. */
  function SortText(role: Option<string>): string { if role.Some? then role.value else "" }
  function GroupSort(g: Group): GroupSortKey { (g.agent, (SortText(g.role), (g.source, g.kind))) }
  function DailySort(k: DailyKey): DailySortKey { (k.date, GroupSort(k.group)) }

  function GroupOrder(): (GroupSortKey, GroupSortKey) -> bool {
    Lex(Text.CodePoints(), Lex(Text.CodePoints(), Lex(Text.CodePoints(), Text.CodePoints())))
  }
  function DailyOrder(): (DailySortKey, DailySortKey) -> bool { Lex(Refresh.Earlier(), GroupOrder()) }

  lemma OrdersTotal()
    ensures StrictTotal(GroupOrder()) && StrictTotal(DailyOrder())
  {
    hide StrictTotal, Lex;
    Text.CodePointsTotal();
    LexTotal(Text.CodePoints(), Text.CodePoints());
    LexTotal(Text.CodePoints(), Lex(Text.CodePoints(), Text.CodePoints()));
    LexTotal(Text.CodePoints(), Lex(Text.CodePoints(), Lex(Text.CodePoints(), Text.CodePoints())));
    EarlierTotal();
    LexTotal(Refresh.Earlier(), GroupOrder());
  }

  lemma EarlierTotal()
    ensures StrictTotal(Refresh.Earlier())
  {
  }

  datatype DailyLine = DailyLine(key: DailyKey, total: int, successes: int, failures: int,
                                 successRate: Option<real>, latency: Option<real>, loss: Option<real>)
  datatype AgentLine = AgentLine(group: Group, first: int, latest: int, days: nat, total: int, successes: int,
                                 failures: int,
                                 successRate: Option<real>, latency: Option<real>, loss: Option<real>)

  function RenderDaily(k: DailyKey, members: seq<Row>): DailyLine {
    var t := TotalsOf(members);
    DailyLine(k, t.total, t.successes, t.failures, Ratio(t.successes as real, t.total, 100.0),
              Ratio(t.latencySum, t.latencyCount, 1.0), Ratio(t.lossSum, t.lossCount, 1.0))
  }

  function Dates(members: seq<Row>): set<int> { set r | r in members :: r.date }

  function RenderAgent(g: Group, members: seq<Row>): AgentLine {
    var t, span := TotalsOf(members), Refresh.Extremes(Dates(members));
    AgentLine(g, if span.Some? then span.value.0 else 0, if span.Some? then span.value.1 else 0, |Dates(members)|,
              t.total, t.successes, t.failures, Ratio(t.successes as real, t.total, 100.0),
              Ratio(t.latencySum, t.latencyCount, 1.0), Ratio(t.lossSum, t.lossCount, 1.0))
  }

  function DailyKeys(p: Pseudonym): Row -> DailyKey { r => DailyKeyOf(p, r) }
  function GroupKeys(p: Pseudonym): Row -> Group { r => GroupOf(p, r) }
  function DailySorts(): DailyKey -> DailySortKey { k => DailySort(k) }
  function GroupSorts(): Group -> GroupSortKey { g => GroupSort(g) }
  function DailyRender(): (DailyKey, seq<Row>) -> DailyLine { (k, m) => RenderDaily(k, m) }
  function AgentRender(): (Group, seq<Row>) -> AgentLine { (g, m) => RenderAgent(g, m) }

  function DailyLines(p: Pseudonym, rows: seq<Row>): seq<DailyLine> {
    Lines(DailyKeys(p), DailyOrder(), DailySorts(), DailyRender(), rows)
  }

  function AgentLines(p: Pseudonym, rows: seq<Row>): seq<AgentLine> {
    Lines(GroupKeys(p), GroupOrder(), GroupSorts(), AgentRender(), rows)
  }

  /** groups[key(row)].append(row) over all rows. */
  method CollectGroups<K(==, !new)>(key: Row -> K, rows: seq<Row>) returns (groups: Groups<K>)
    ensures groups == GroupBy(key, rows)
  {
    groups := Groups([], map[]);
    for i := 0 to |rows|
      invariant groups == GroupBy(key, rows[..i])
    {
      var k, row := key(rows[i]), rows[i];
      assert rows[..i + 1][..i] == rows[..i];
      if k in groups.members {
        groups := groups.(members := groups.members[k := groups.members[k] + [row]]);
      } else {
        groups := Groups(groups.order + [k], groups.members[k := [] + [row]]);
      }
    }
    assert rows[..|rows|] == rows;
  }

  /** A group of the dictionary holds the rows with its key. */
  lemma GroupMembers<K(!new)>(key: Row -> K, rows: seq<Row>, k: K)
    requires k in GroupBy(key, rows).order
    ensures k in GroupBy(key, rows).members && GroupBy(key, rows).members[k] == Filter(Having(key, k), rows)
  {
    hide GroupBy, Filter;
    GroupByIs(key, rows);
  }

  method DailyDataset(p: Pseudonym, rows: seq<Row>) returns (output: seq<DailyLine>)
    ensures output == DailyLines(p, rows)
  {
    hide GroupBy, StableSort, RenderDaily, DailyOrder, Filter, StrictTotal;
    output := [];
    var key, lt, sk := DailyKeys(p), DailyOrder(), DailySorts();
    var groups := CollectGroups(key, rows);
    SortPermutes(lt, sk, groups.order);
    var keys := StableSort(lt, sk, groups.order);
    for i := 0 to |keys|
      invariant |output| == i
      invariant forall j :: 0 <= j < i ==> output[j] == RenderDaily(keys[j], Filter(Having(key, keys[j]), rows))
    {
      assert keys[i] in keys;
      GroupMembers(key, rows, keys[i]);
      output := output + [RenderDaily(keys[i], groups.members[keys[i]])];
    }
  }

  method AgentDataset(p: Pseudonym, rows: seq<Row>) returns (output: seq<AgentLine>)
    ensures output == AgentLines(p, rows)
  {
    hide GroupBy, StableSort, RenderAgent, GroupOrder, Filter, StrictTotal;
    output := [];
    var key, lt, sk := GroupKeys(p), GroupOrder(), GroupSorts();
    var groups := CollectGroups(key, rows);
    SortPermutes(lt, sk, groups.order);
    var keys := StableSort(lt, sk, groups.order);
    for i := 0 to |keys|
      invariant |output| == i
      invariant forall j :: 0 <= j < i ==> output[j] == RenderAgent(keys[j], Filter(Having(key, keys[j]), rows))
    {
      assert keys[i] in keys;
      GroupMembers(key, rows, keys[i]);
      output := output + [RenderAgent(keys[i], groups.members[keys[i]])];
    }
  }

  lemma PlusSwaps(a: Totals, b: Totals, c: Totals)
    ensures Plus(Plus(a, b), c) == Plus(Plus(a, c), b)
  {
  }

  lemma TotalsSnoc(rows: seq<Row>, r: Row)
    ensures TotalsOf(rows + [r]) == Plus(TotalsOf(rows), RowTotals(r))
  {
    assert (rows + [r])[..|rows|] == rows;
  }

  lemma {:induction false} TotalsWithout(rows: seq<Row>, j: nat)
    requires j < |rows|
    ensures TotalsOf(rows) == Plus(TotalsOf(Without(rows, j)), RowTotals(rows[j]))
  {
    hide TotalsOf, Plus, RowTotals;
    var init, last := rows[..|rows| - 1], rows[|rows| - 1];
    assert rows == init + [last];
    TotalsSnoc(init, last);
    if j == |rows| - 1 {
      assert Without(rows, j) == init;
    } else {
      TotalsWithout(init, j);
      assert Without(rows, j) == Without(init, j) + [last];
      TotalsSnoc(Without(init, j), last);
      PlusSwaps(TotalsOf(Without(init, j)), RowTotals(rows[j]), RowTotals(last));
    }
  }

  lemma {:induction false} TotalsPermute(a: seq<Row>, b: seq<Row>)
    requires multiset(a) == multiset(b)
    ensures TotalsOf(a) == TotalsOf(b)
  {
    hide TotalsOf, Plus, RowTotals;
    if a == [] {
      PermutedLength(a, b);
    } else {
      var j := TakeOut(a, b);
      TotalsPermute(a[1..], Without(b, j));
      TotalsWithout(b, j);
      TotalsWithout(a, 0);
      assert Without(a, 0) == a[1..];
    }
  }

  lemma SameMembers(m: seq<Row>, n: seq<Row>)
    requires multiset(m) == multiset(n)
    ensures TotalsOf(m) == TotalsOf(n) && Dates(m) == Dates(n)
  {
    TotalsPermute(m, n);
    SameElements(m, n);
  }

  lemma RendersImpartial()
    ensures Impartial(DailyRender()) && Impartial(AgentRender())
  {
    hide Ratio, TotalsOf, Dates, Refresh.Extremes;
    forall k, m, n {:trigger DailyRender()(k, m), DailyRender()(k, n)} | multiset(m) == multiset(n)
      ensures DailyRender()(k, m) == DailyRender()(k, n)
    {
      SameMembers(m, n);
    }
    forall g, m, n {:trigger AgentRender()(g, m), AgentRender()(g, n)} | multiset(m) == multiset(n)
      ensures AgentRender()(g, m) == AgentRender()(g, n)
    {
      SameMembers(m, n);
    }
  }

  /** Two rows of one group, but for a missing role in one and an empty role in the other. */
  predicate RolesTie(p: Pseudonym, q: Row, r: Row) {
    && p(q.agent) == p(r.agent) && q.source == r.source && q.kind == r.kind
    && q.role == None && r.role == Some("")
  }

  ghost predicate DailyTie(p: Pseudonym, rows: seq<Row>) {
    exists q, r :: q in rows && r in rows && RolesTie(p, q, r) && q.date == r.date
  }

  ghost predicate AgentTie(p: Pseudonym, rows: seq<Row>) {
    exists q, r :: q in rows && r in rows && RolesTie(p, q, r)
  }

  /** Sort keys clash through a missing and an empty role, and in no other way. */
  lemma ClashesAreTies(p: Pseudonym, rows: seq<Row>)
    ensures NoClash(DailyKeys(p), DailySorts(), rows) <==> !DailyTie(p, rows)
    ensures NoClash(GroupKeys(p), GroupSorts(), rows) <==> !AgentTie(p, rows)
  {
    forall q, r | q in rows && r in rows
      ensures GroupSorts()(GroupKeys(p)(q)) == GroupSorts()(GroupKeys(p)(r)) && GroupKeys(p)(q) != GroupKeys(p)(r)
         <==> RolesTie(p, q, r) || RolesTie(p, r, q)
    {
    }
    if DailyTie(p, rows) {
      var q, r :| q in rows && r in rows && RolesTie(p, q, r) && q.date == r.date;
      assert DailySorts()(DailyKeys(p)(q)) == DailySorts()(DailyKeys(p)(r)) && DailyKeys(p)(q) != DailyKeys(p)(r);
    }
    if AgentTie(p, rows) {
      var q, r :| q in rows && r in rows && RolesTie(p, q, r);
      assert GroupSorts()(GroupKeys(p)(q)) == GroupSorts()(GroupKeys(p)(r)) && GroupKeys(p)(q) != GroupKeys(p)(r);
    }
  }

  ghost predicate DailyIndependent(p: Pseudonym, rows: seq<Row>) {
    forall other :: multiset(other) == multiset(rows) ==> DailyLines(p, other) == DailyLines(p, rows)
  }

  ghost predicate AgentIndependent(p: Pseudonym, rows: seq<Row>) {
    forall other :: multiset(other) == multiset(rows) ==> AgentLines(p, other) == AgentLines(p, rows)
  }

  /** The daily dataset is independent of the input's order if and only if no two rows of
      one day and group differ by a missing role against an empty one. */
  lemma DailyIndependentIff(p: Pseudonym, rows: seq<Row>)
    ensures DailyIndependent(p, rows) <==> !DailyTie(p, rows)
  {
    hide DailyOrder, Lines, NoClash, Impartial, StrictTotal, Ratio, TotalsOf, DailyTie;
    OrdersTotal();
    RendersImpartial();
    ClashesAreTies(p, rows);
    IndependentIff(DailyKeys(p), DailyOrder(), DailySorts(), DailyRender(), (l: DailyLine) => l.key, rows);
    if DailyIndependent(p, rows) {
      forall other | multiset(other) == multiset(rows)
        ensures Lines(DailyKeys(p), DailyOrder(), DailySorts(), DailyRender(), other)
             == Lines(DailyKeys(p), DailyOrder(), DailySorts(), DailyRender(), rows)
      {
        assert DailyLines(p, other) == DailyLines(p, rows);
      }
    }
  }

  /** The agent dataset is, if and only if no two rows of one group do, on any days. */
  lemma AgentIndependentIff(p: Pseudonym, rows: seq<Row>)
    ensures AgentIndependent(p, rows) <==> !AgentTie(p, rows)
  {
    hide GroupOrder, Lines, NoClash, Impartial, StrictTotal, Ratio, TotalsOf, Dates, AgentTie;
    OrdersTotal();
    RendersImpartial();
    ClashesAreTies(p, rows);
    IndependentIff(GroupKeys(p), GroupOrder(), GroupSorts(), AgentRender(), (l: AgentLine) => l.group, rows);
    if AgentIndependent(p, rows) {
      forall other | multiset(other) == multiset(rows)
        ensures Lines(GroupKeys(p), GroupOrder(), GroupSorts(), AgentRender(), other)
             == Lines(GroupKeys(p), GroupOrder(), GroupSorts(), AgentRender(), rows)
      {
        assert AgentLines(p, other) == AgentLines(p, rows);
      }
    }
  }

  /** The agents table admits no empty role, so whatever the exporter reads from it comes
      out independent of its order. */
  lemma StoredRolesAreIndependent(p: Pseudonym, rows: seq<Row>)
    requires forall r :: r in rows ==> r.role != Some("")
    ensures DailyIndependent(p, rows) && AgentIndependent(p, rows)
  {
    hide DailyIndependent, AgentIndependent;
    DailyIndependentIff(p, rows);
    AgentIndependentIff(p, rows);
  }

  /** A missing role next to an empty one: the same two rows in two orders give two
      different datasets, of either kind. */
  lemma EmptyRoleClashes(p: Pseudonym)
    ensures exists a: Row, b: Row ::
      DailyLines(p, [a, b]) != DailyLines(p, [b, a]) && AgentLines(p, [a, b]) != AgentLines(p, [b, a])
  {
    hide DailyLines, AgentLines, Promoted;
    var a := Row(0, "x", None, "s", "k", 1, 1, 0, 0, None, 0, None);
    var b := a.(role := Some(""));
    assert DailyKeys(p)(a) != DailyKeys(p)(b) && GroupKeys(p)(a) != GroupKeys(p)(b);
    PromotedPair(DailyKeys(p), a, b);
    PromotedPair(GroupKeys(p), a, b);
    DailyClash(p, a, b);
    AgentClash(p, a, b);
    assert DailyLines(p, [a, b]) != DailyLines(p, [b, a]);
  }

  lemma DailyClash(p: Pseudonym, a: Row, b: Row)
    requires DailySorts()(DailyKeys(p)(a)) == DailySorts()(DailyKeys(p)(b)) && DailyKeys(p)(a) != DailyKeys(p)(b)
    ensures DailyLines(p, Promoted(DailyKeys(p), DailyKeys(p)(a), [a, b]))
         != DailyLines(p, Promoted(DailyKeys(p), DailyKeys(p)(b), [a, b]))
  {
    hide DailyOrder, Lines, StrictTotal, Ratio, TotalsOf, Promoted;
    OrdersTotal();
    assert a in [a, b] && b in [a, b];
    ClashShows(DailyKeys(p), DailyOrder(), DailySorts(), DailyRender(), (l: DailyLine) => l.key, [a, b], a, b);
  }

  lemma AgentClash(p: Pseudonym, a: Row, b: Row)
    requires GroupSorts()(GroupKeys(p)(a)) == GroupSorts()(GroupKeys(p)(b)) && GroupKeys(p)(a) != GroupKeys(p)(b)
    ensures AgentLines(p, Promoted(GroupKeys(p), GroupKeys(p)(a), [a, b]))
         != AgentLines(p, Promoted(GroupKeys(p), GroupKeys(p)(b), [a, b]))
  {
    hide GroupOrder, Lines, StrictTotal, Ratio, TotalsOf, Dates, Refresh.Extremes, Promoted;
    OrdersTotal();
    assert a in [a, b] && b in [a, b];
    ClashShows(GroupKeys(p), GroupOrder(), GroupSorts(), AgentRender(), (l: AgentLine) => l.group, [a, b], a, b);
  }

  lemma FilterPair<T(!new)>(p: T -> bool, a: T, b: T)
    ensures Filter(p, [a, b]) == (if p(a) then [a] else []) + (if p(b) then [b] else [])
  {
    assert [a, b] == [a] + [b] && [a] == [] + [a];
    FilterSnoc(p, [a], b);
    FilterSnoc(p, [], a);
  }

  lemma PromotedPair<K(!new)>(key: Row -> K, a: Row, b: Row)
    requires key(a) != key(b)
    ensures Promoted(key, key(a), [a, b]) == [a, b] && Promoted(key, key(b), [a, b]) == [b, a]
  {
    hide Filter;
    FilterPair(Having(key, key(a)), a, b);
    FilterPair(Having(key, key(b)), a, b);
    PairRest(key, key(a), a, b);
    PairRest(key, key(b), a, b);
  }

  lemma PairRest<K(!new)>(key: Row -> K, k: K, a: Row, b: Row)
    ensures Promoted(key, k, [a, b])
      == Filter(Having(key, k), [a, b]) + (if key(a) != k then [a] else []) + (if key(b) != k then [b] else [])
  {
    hide Filter;
    FilterPair(r => key(r) != k, a, b);
  }

  // ------------------------------------------------------------------ the two groupings agree

  function DayTotals(p: Pseudonym, rows: seq<Row>, k: DailyKey): Totals {
    TotalsOf(Filter(Having(DailyKeys(p), k), rows))
  }

  function SumOver(p: Pseudonym, rows: seq<Row>, ks: seq<DailyKey>): Totals {
    if ks == [] then ZERO else Plus(SumOver(p, rows, ks[..|ks| - 1]), DayTotals(p, rows, ks[|ks| - 1]))
  }

  lemma DayTotalsSnoc(p: Pseudonym, rows: seq<Row>, r: Row, k: DailyKey)
    ensures DayTotals(p, rows + [r], k)
         == if DailyKeyOf(p, r) == k then Plus(DayTotals(p, rows, k), RowTotals(r)) else DayTotals(p, rows, k)
  {
    hide Filter, TotalsOf, Plus, RowTotals;
    FilterSnoc(Having(DailyKeys(p), k), rows, r);
    TotalsSnoc(Filter(Having(DailyKeys(p), k), rows), r);
    var f := Filter(Having(DailyKeys(p), k), rows);
    assert f + [] == f;
  }

  lemma {:induction false} SumOverSnoc(p: Pseudonym, rows: seq<Row>, r: Row, ks: seq<DailyKey>)
    requires Distinct(ks)
    ensures SumOver(p, rows + [r], ks)
      == if DailyKeyOf(p, r) in ks then Plus(SumOver(p, rows, ks), RowTotals(r)) else SumOver(p, rows, ks)
  {
    hide DayTotals, Plus, RowTotals;
    if ks != [] {
      var init, last := ks[..|ks| - 1], ks[|ks| - 1];
      SumOverSnoc(p, rows, r, init);
      DayTotalsSnoc(p, rows, r, last);
      assert ks == init + [last];
      assert last !in init by { LastNew(ks); }
      PlusSwaps(SumOver(p, rows, init), RowTotals(r), DayTotals(p, rows, last));
      PlusSwaps(SumOver(p, rows, init), DayTotals(p, rows, last), RowTotals(r));
      PlusAssoc(SumOver(p, rows, init), DayTotals(p, rows, last), RowTotals(r));
    }
  }

  lemma PlusAssoc(a: Totals, b: Totals, c: Totals)
    ensures Plus(a, Plus(b, c)) == Plus(Plus(a, b), c)
  {
  }

  /** Summing a group day by day is summing it at once. */
  lemma {:induction false} SumOverDays(p: Pseudonym, rows: seq<Row>, ks: seq<DailyKey>, g: Group)
    requires Distinct(ks) && (forall k :: k in ks ==> k.group == g)
    requires forall r :: r in rows && GroupOf(p, r) == g ==> DailyKeyOf(p, r) in ks
    ensures SumOver(p, rows, ks) == TotalsOf(Filter(Having(GroupKeys(p), g), rows))
  {
    hide Filter, Plus, RowTotals;
    if rows == [] {
      SumOverNothing(p, ks);
      NoneHaving(GroupKeys(p), g, rows);
    } else {
      var init, last := rows[..|rows| - 1], rows[|rows| - 1];
      assert rows == init + [last];
      SumOverDays(p, init, ks, g);
      SumOverSnoc(p, init, last, ks);
      FilterSnoc(Having(GroupKeys(p), g), init, last);
      var f := Filter(Having(GroupKeys(p), g), init);
      TotalsSnoc(f, last);
      assert f + [] == f;
      assert last in rows;
    }
  }

  lemma {:induction false} SumOverNothing(p: Pseudonym, ks: seq<DailyKey>)
    ensures SumOver(p, [], ks) == ZERO
  {
    if ks != [] {
      SumOverNothing(p, ks[..|ks| - 1]);
      assert Filter(Having(DailyKeys(p), ks[|ks| - 1]), []) == [];
    }
  }

  function SumLines(lines: seq<DailyLine>): (int, int, int) {
    if lines == [] then (0, 0, 0)
    else
      var s, d := SumLines(lines[..|lines| - 1]), lines[|lines| - 1];
      (s.0 + d.total, s.1 + d.successes, s.2 + d.failures)
  }

  /** The line of a daily key. */
  function DayLine(p: Pseudonym, rows: seq<Row>, k: DailyKey): DailyLine {
    RenderDaily(k, Filter(Having(DailyKeys(p), k), rows))
  }

  lemma {:induction false} LinesSum(p: Pseudonym, rows: seq<Row>, ks: seq<DailyKey>)
    ensures var t, s := SumOver(p, rows, ks), SumLines(Map((k: DailyKey) => DayLine(p, rows, k), ks));
      s == (t.total, t.successes, t.failures)
  {
    hide Filter, Ratio, TotalsOf;
    if ks != [] {
      var init, last := ks[..|ks| - 1], ks[|ks| - 1];
      LinesSum(p, rows, init);
      var lines := Map((k: DailyKey) => DayLine(p, rows, k), ks);
      assert lines[..|lines| - 1] == Map((k: DailyKey) => DayLine(p, rows, k), init);
    }
  }

  /** The daily keys of one group, in the dataset's order. */
  function KeysOf(p: Pseudonym, rows: seq<Row>, g: Group): seq<DailyKey> {
    Filter((k: DailyKey) => k.group == g, StableSort(DailyOrder(), DailySorts(), GroupBy(DailyKeys(p), rows).order))
  }

  lemma KeysOfGroup(p: Pseudonym, rows: seq<Row>, g: Group)
    ensures Distinct(KeysOf(p, rows, g)) && forall k :: k in KeysOf(p, rows, g) ==> k.group == g
    ensures forall d :: DailyKey(d, g) in KeysOf(p, rows, g) <==> d in Dates(Filter(Having(GroupKeys(p), g), rows))
  {
    hide GroupBy, StableSort, DailyOrder;
    var order := GroupBy(DailyKeys(p), rows).order;
    GroupByIs(DailyKeys(p), rows);
    SortPermutes(DailyOrder(), DailySorts(), order);
    SortDistinct(DailyOrder(), DailySorts(), order);
    FilterDistinct((k: DailyKey) => k.group == g, StableSort(DailyOrder(), DailySorts(), order));
    var members := Filter(Having(GroupKeys(p), g), rows);
    forall d ensures DailyKey(d, g) in KeysOf(p, rows, g) <==> d in Dates(members) {
      if d in Dates(members) {
        var r :| r in members && r.date == d;
        assert DailyKeys(p)(r) == DailyKey(d, g);
      }
      if DailyKey(d, g) in order {
        var r :| r in rows && DailyKeys(p)(r) == DailyKey(d, g);
        assert r in members;
      }
    }
  }

  lemma {:induction false} DatesCount(ks: seq<DailyKey>, g: Group)
    requires Distinct(ks) && forall k :: k in ks ==> k.group == g
    ensures |set k | k in ks :: k.date| == |ks|
  {
    if ks != [] {
      var init, last := ks[..|ks| - 1], ks[|ks| - 1];
      assert ks == init + [last];
      DatesCount(init, g);
      LastNew(ks);
      assert (set k | k in ks :: k.date) == (set k | k in init :: k.date) + {last.date};
      forall k | k in init ensures k.date != last.date { assert k != last; }
    }
  }

  /** Daily lines of a group. */
  function DailyLinesOf(p: Pseudonym, rows: seq<Row>, g: Group): seq<DailyLine> {
    Filter((l: DailyLine) => l.key.group == g, DailyLines(p, rows))
  }

  lemma DailyLinesAre(p: Pseudonym, rows: seq<Row>, g: Group)
    ensures DailyLinesOf(p, rows, g) == Map((k: DailyKey) => DayLine(p, rows, k), KeysOf(p, rows, g))
  {
    hide Filter, GroupBy, StableSort, DailyOrder, Ratio, TotalsOf;
    var keys := StableSort(DailyOrder(), DailySorts(), GroupBy(DailyKeys(p), rows).order);
    var line := (k: DailyKey) => DayLine(p, rows, k);
    var q := (l: DailyLine) => l.key.group == g;
    assert DailyLines(p, rows) == Map(line, keys);
    MapFilter(line, q, (k: DailyKey) => k.group == g, keys);
  }

  /** Coherence: an agent line's totals are the sums over the daily lines of its group, its
      day count is their number, its dates span theirs, and its averages are total sum over
      total count, whatever the pseudonyms. */
  lemma RollUpCoherence(p: Pseudonym, rows: seq<Row>, a: AgentLine)
    requires a in AgentLines(p, rows)
    ensures var mine, t := DailyLinesOf(p, rows, a.group), SumOver(p, rows, KeysOf(p, rows, a.group));
      && SumLines(mine) == (a.total, a.successes, a.failures)
      && |mine| == a.days
      && (forall i :: 0 <= i < |mine| ==> a.first <= mine[i].key.date <= a.latest)
      && (exists i :: 0 <= i < |mine| && mine[i].key.date == a.first)
      && (exists i :: 0 <= i < |mine| && mine[i].key.date == a.latest)
      && a.successRate == Ratio(t.successes as real, t.total, 100.0)
      && a.latency == Ratio(t.latencySum, t.latencyCount, 1.0)
      && a.loss == Ratio(t.lossSum, t.lossCount, 1.0)
  {
    hide Filter, GroupBy, StableSort, DailyOrder, GroupOrder, Ratio, TotalsOf, SumOver, SumLines, Dates, KeysOf,
         DailyLinesOf, DayLine, Refresh.Extremes;
    var g := a.group;
    var members := Filter(Having(GroupKeys(p), g), rows);
    AgentLineIs(p, rows, a);
    var ks := KeysOf(p, rows, g);
    KeysOfGroup(p, rows, g);
    forall r | r in rows && GroupOf(p, r) == g ensures DailyKeyOf(p, r) in ks { MemberDate(p, rows, g, r); }
    SumOverDays(p, rows, ks, g);
    DailyLinesAre(p, rows, g);
    LinesSum(p, rows, ks);
    DatesAre(p, rows, g, ks);
    var mine := DailyLinesOf(p, rows, g);
    forall i | 0 <= i < |mine|
      ensures mine[i].key == ks[i] && a.first <= mine[i].key.date <= a.latest
    {
      DayLineKey(p, rows, ks[i]);
      assert ks[i] in ks;
    }
    AgentLineMembers(p, rows, a);
    assert a.first in Dates(members) && a.latest in Dates(members);
    DayAttained(ks, g, mine, a.first);
    DayAttained(ks, g, mine, a.latest);
  }

  /** The line's group has rows. */
  lemma AgentLineMembers(p: Pseudonym, rows: seq<Row>, a: AgentLine)
    requires a in AgentLines(p, rows)
    ensures Dates(Filter(Having(GroupKeys(p), a.group), rows)) != {}
  {
    hide Filter, GroupBy, StableSort, GroupOrder, Ratio, TotalsOf, RenderAgent;
    AgentLineGroups(p, rows);
    var i :| 0 <= i < |AgentLines(p, rows)| && AgentLines(p, rows)[i] == a;
    var order := GroupBy(GroupKeys(p), rows).order;
    var keys := StableSort(GroupOrder(), GroupSorts(), order);
    SortPermutes(GroupOrder(), GroupSorts(), order);
    assert keys[i] in keys && keys[i] in order;
    GroupByIs(GroupKeys(p), rows);
    var r :| r in rows && GroupKeys(p)(r) == a.group;
    MemberDate(p, rows, a.group, r);
  }

  lemma DayAttained(ks: seq<DailyKey>, g: Group, mine: seq<DailyLine>, d: int)
    requires |mine| == |ks| && (forall i :: 0 <= i < |ks| ==> mine[i].key == ks[i]) && DailyKey(d, g) in ks
    ensures exists i :: 0 <= i < |mine| && mine[i].key.date == d
  {
    var i :| 0 <= i < |ks| && ks[i] == DailyKey(d, g);
    assert mine[i].key.date == d;
  }

  lemma DayLineKey(p: Pseudonym, rows: seq<Row>, k: DailyKey)
    ensures DayLine(p, rows, k).key == k
  {
  }

  lemma AgentLineIs(p: Pseudonym, rows: seq<Row>, a: AgentLine)
    requires a in AgentLines(p, rows)
    ensures a == RenderAgent(a.group, Filter(Having(GroupKeys(p), a.group), rows))
  {
    hide Filter, GroupBy, StableSort, GroupOrder, Ratio, TotalsOf, Dates, Refresh.Extremes;
    var i :| 0 <= i < |AgentLines(p, rows)| && AgentLines(p, rows)[i] == a;
    var keys := StableSort(GroupOrder(), GroupSorts(), GroupBy(GroupKeys(p), rows).order);
    assert a == RenderAgent(keys[i], Filter(Having(GroupKeys(p), keys[i]), rows));
  }

  lemma MemberDate(p: Pseudonym, rows: seq<Row>, g: Group, r: Row)
    requires r in rows && GroupOf(p, r) == g
    ensures r.date in Dates(Filter(Having(GroupKeys(p), g), rows))
  {
    assert r in Filter(Having(GroupKeys(p), g), rows);
  }

  lemma DatesAre(p: Pseudonym, rows: seq<Row>, g: Group, ks: seq<DailyKey>)
    requires ks == KeysOf(p, rows, g)
    ensures |ks| == |Dates(Filter(Having(GroupKeys(p), g), rows))|
    ensures forall k :: k in ks ==> k.date in Dates(Filter(Having(GroupKeys(p), g), rows))
  {
    hide KeysOf, Filter, Dates;
    KeysOfGroup(p, rows, g);
    DatesCount(ks, g);
    var dates := Dates(Filter(Having(GroupKeys(p), g), rows));
    forall k | k in ks ensures k.date in dates { assert k == DailyKey(k.date, g); }
    forall d | d in dates ensures d in set k | k in ks :: k.date { assert DailyKey(d, g) in ks; }
    assert (set k | k in ks :: k.date) == dates;
  }

  /** Both datasets come out in the order of their sort keys. */
  lemma DatasetsSorted(p: Pseudonym, rows: seq<Row>)
    ensures NonDescending(DailyOrder(), (l: DailyLine) => DailySort(l.key), DailyLines(p, rows))
    ensures NonDescending(GroupOrder(), (l: AgentLine) => GroupSort(l.group), AgentLines(p, rows))
  {
    hide GroupBy, StableSort, DailyOrder, GroupOrder, StrictTotal, Filter, RenderAgent, RenderDaily;
    OrdersTotal();
    SortSorted(DailyOrder(), DailySorts(), GroupBy(DailyKeys(p), rows).order);
    SortSorted(GroupOrder(), GroupSorts(), GroupBy(GroupKeys(p), rows).order);
    DailyLineKeys(p, rows);
    AgentLineGroups(p, rows);
  }

  lemma DailyLineKeys(p: Pseudonym, rows: seq<Row>)
    ensures var keys := StableSort(DailyOrder(), DailySorts(), GroupBy(DailyKeys(p), rows).order);
      |keys| == |DailyLines(p, rows)| && forall i :: 0 <= i < |keys| ==> DailyLines(p, rows)[i].key == keys[i]
  {
    hide GroupBy, StableSort, DailyOrder, Filter, Ratio, TotalsOf;
    var keys := StableSort(DailyOrder(), DailySorts(), GroupBy(DailyKeys(p), rows).order);
    forall i | 0 <= i < |keys| ensures DailyLines(p, rows)[i].key == keys[i] {
      assert DailyLines(p, rows)[i] == DayLine(p, rows, keys[i]);
    }
  }

  lemma AgentLineGroups(p: Pseudonym, rows: seq<Row>)
    ensures var keys := StableSort(GroupOrder(), GroupSorts(), GroupBy(GroupKeys(p), rows).order);
      |keys| == |AgentLines(p, rows)| && forall i :: 0 <= i < |keys| ==> AgentLines(p, rows)[i].group == keys[i]
  {
    hide GroupBy, StableSort, GroupOrder, Filter, Ratio, TotalsOf, Dates, Refresh.Extremes;
    var keys := StableSort(GroupOrder(), GroupSorts(), GroupBy(GroupKeys(p), rows).order);
    forall i | 0 <= i < |keys| ensures AgentLines(p, rows)[i].group == keys[i] {
      assert AgentLines(p, rows)[i] == RenderAgent(keys[i], Filter(Having(GroupKeys(p), keys[i]), rows));
    }
  }

  // ------------------------------------------------------------------ incidents

  datatype IncidentRow = IncidentRow(id: nat, kind: string, start: int, end: Option<int>, duration: real,
                                     status: string,
                                     severity: string, confidence: real, rules: string, revision: int, agents: int,
                                     endpoints: int)

  datatype ExportError = ConflictingDuplicate(id: nat)

  ghost predicate Conflicting(rows: seq<IncidentRow>) {
    exists q, r :: q in rows && r in rows && q.id == r.id && q != r
  }

  function IncidentSort(): IncidentRow -> (int, nat) { (r: IncidentRow) => (r.start, r.id) }
  function IncidentOrder(): ((int, nat), (int, nat)) -> bool {
    (x: (int, nat), y: (int, nat)) => x.0 < y.0 || (x.0 == y.0 && x.1 < y.1)
  }

  lemma IncidentOrderTotal()
    ensures StrictTotal(IncidentOrder())
  {
  }

  /** Identical duplicates collapse, conflicting ones fail the export; the rest comes out by
      start and id. */
  method IncidentDataset(rows: seq<IncidentRow>) returns (r: Result<seq<IncidentRow>, ExportError>)
    ensures r.Err? <==> Conflicting(rows)
    ensures r.Ok? ==> Ascending(IncidentOrder(), IncidentSort(), r.value) && forall x :: x in r.value <==> x in rows
    ensures r.Ok? ==> forall i, j :: 0 <= i < j < |r.value| ==>
      var x, y := r.value[i], r.value[j]; x.start < y.start || (x.start == y.start && x.id < y.id)
    ensures r.Err? ==> exists q, x :: q in rows && x in rows && q.id == x.id == r.error.id && q != x
  {
    var byId: map<nat, IncidentRow> := map[];
    var values: seq<IncidentRow> := [];
    for i := 0 to |rows|
      invariant forall x :: x in values <==> x in rows[..i]
      invariant forall x :: x in values ==> x.id in byId && byId[x.id] == x
      invariant forall id :: id in byId ==> byId[id] in values && byId[id].id == id
      invariant Distinct(values)
    {
      var row := rows[i];
      assert row in rows && rows[..i + 1] == rows[..i] + [row];
      if row.id in byId && byId[row.id] != row {
        assert byId[row.id] in rows[..i];
        return Err(ConflictingDuplicate(row.id));
      }
      if row.id !in byId {
        values := values + [row];
      }
      byId := byId[row.id := row];
    }
    assert rows[..|rows|] == rows;
    IncidentsAscend(values);
    r := Ok(StableSort(IncidentOrder(), IncidentSort(), values));
  }

  lemma IncidentsAscend(values: seq<IncidentRow>)
    requires Distinct(values) && !Conflicting(values)
    ensures Ascending(IncidentOrder(), IncidentSort(), StableSort(IncidentOrder(), IncidentSort(), values))
    ensures forall x :: x in StableSort(IncidentOrder(), IncidentSort(), values) <==> x in values
  {
    hide StableSort;
    IncidentOrderTotal();
    SortSorted(IncidentOrder(), IncidentSort(), values);
    SortPermutes(IncidentOrder(), IncidentSort(), values);
    SortDistinct(IncidentOrder(), IncidentSort(), values);
    var r := StableSort(IncidentOrder(), IncidentSort(), values);
    forall i, j | 0 <= i < j < |r| ensures IncidentOrder()(IncidentSort()(r[i]), IncidentSort()(r[j])) {
      assert r[i] in values && r[j] in values;
    }
  }

  /** The incident dataset does not depend on the order of its input: what the export may
      return is one sequence. */
  lemma IncidentListingUnique(a: seq<IncidentRow>, b: seq<IncidentRow>)
    requires Ascending(IncidentOrder(), IncidentSort(), a) && Ascending(IncidentOrder(), IncidentSort(), b)
    requires forall x :: x in a <==> x in b
    ensures a == b
  {
    IncidentOrderTotal();
    DistinctSame(a, b);
    AscendingUnique(IncidentOrder(), IncidentSort(), a, b);
  }
}
