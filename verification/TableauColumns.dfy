/** The roll-ups' lines, column by column, in terms of the exported rows. */
module TableauColumns {
  import opened Prelude
  import opened Order
  import opened Sorting
  import opened Tableau
  import Refresh
  import Text

  datatype Field = Total | Successes | Failures | LatencyCount | LatencySum | LossCount | LossSum

  /** The row's field, null as nothing. */
  function In(field: Field): Row -> real {
    (r: Row) =>
      match field
      case Total => r.total as real
      case Successes => r.successes as real
      case Failures => r.failures as real
      case LatencyCount => r.latencyCount as real
      case LatencySum => if r.latencySum.None? then 0.0 else r.latencySum.value
      case LossCount => r.lossCount as real
      case LossSum => if r.lossSum.None? then 0.0 else r.lossSum.value
  }

  /** The rows of a group, over all days. */
  function OfGroup(p: Pseudonym, g: Group): Row -> bool {
    (r: Row) => p(r.agent) == g.agent && r.role == g.role && r.source == g.source && r.kind == g.kind
  }

  function OfDay(p: Pseudonym, k: DailyKey): Row -> bool {
    (r: Row) => r.date == k.date && OfGroup(p, k.group)(r)
  }

  lemma KeysMean(p: Pseudonym, r: Row)
    ensures forall k :: DailyKeys(p)(r) == k <==> OfDay(p, k)(r)
    ensures forall g :: GroupKeys(p)(r) == g <==> OfGroup(p, g)(r)
  {
    forall g | OfGroup(p, g)(r) ensures GroupKeys(p)(r) == g {}
    forall k | OfDay(p, k)(r) ensures DailyKeys(p)(r) == k { assert k == DailyKey(k.date, k.group); }
  }

  function Added(field: Field, rows: seq<Row>): real { SumOf(In(field), rows) }

  /** An average over nothing is null; any other, times the count, is the sum. */
  predicate Averages(x: Option<real>, sum: real, count: real) {
    (x.None? <==> count == 0.0) && (x.Some? ==> x.value * count == sum)
  }

  /** Each column of a daily line, from the rows of its day and group. */
  lemma DailyLineIs(p: Pseudonym, rows: seq<Row>, l: DailyLine)
    requires l in DailyLines(p, rows)
    ensures var mine := Filter(OfDay(p, l.key), rows);
      && mine != []
      && l.total as real == Added(Total, mine)
      && l.successes as real == Added(Successes, mine)
      && l.failures as real == Added(Failures, mine)
      && Averages(l.successRate, 100.0 * Added(Successes, mine), Added(Total, mine))
      && Averages(l.latency, Added(LatencySum, mine), Added(LatencyCount, mine))
      && Averages(l.loss, Added(LossSum, mine), Added(LossCount, mine))
  {
    hide Filter, TotalsOf, Ratio, DailyOrder, GroupBy, StableSort, Averages, Added, DailyLines;
    var mine := Filter(Having(DailyKeys(p), l.key), rows);
    DailyLineFrom(p, rows, l);
    forall r | r in rows ensures Having(DailyKeys(p), l.key)(r) == OfDay(p, l.key)(r) { KeysMean(p, r); }
    FilterAgree(Having(DailyKeys(p), l.key), OfDay(p, l.key), rows);
    TotalsAdded(mine);
    var t := TotalsOf(mine);
    RatioAverages(t.successes as real, t.total, 100.0);
    RatioAverages(t.latencySum, t.latencyCount, 1.0);
    RatioAverages(t.lossSum, t.lossCount, 1.0);
  }

  lemma DailyLineFrom(p: Pseudonym, rows: seq<Row>, l: DailyLine)
    requires l in DailyLines(p, rows)
    ensures l == RenderDaily(l.key, Filter(Having(DailyKeys(p), l.key), rows))
    ensures Filter(Having(DailyKeys(p), l.key), rows) != []
  {
    hide Filter, TotalsOf, Ratio, DailyOrder, GroupBy, StableSort;
    var order := GroupBy(DailyKeys(p), rows).order;
    var keys := StableSort(DailyOrder(), DailySorts(), order);
    var i :| 0 <= i < |DailyLines(p, rows)| && DailyLines(p, rows)[i] == l;
    assert l == RenderDaily(keys[i], Filter(Having(DailyKeys(p), keys[i]), rows));
    SortPermutes(DailyOrder(), DailySorts(), order);
    assert keys[i] in keys && keys[i] in order;
    SomeHaving(DailyKeys(p), rows, keys[i]);
  }

  /** A group of the dictionary has a row. */
  lemma SomeHaving<K(!new)>(key: Row -> K, rows: seq<Row>, k: K)
    requires k in GroupBy(key, rows).order
    ensures Filter(Having(key, k), rows) != []
  {
    hide GroupBy, Filter;
    GroupByIs(key, rows);
    var r :| r in rows && key(r) == k;
    assert r in Filter(Having(key, k), rows);
  }

  /** Each column of an agent line, from all the rows of its group. */
  lemma AgentLineColumns(p: Pseudonym, rows: seq<Row>, l: AgentLine)
    requires l in AgentLines(p, rows)
    ensures var mine := Filter(OfGroup(p, l.group), rows);
      && mine != []
      && (forall r :: r in mine ==> l.first <= r.date <= l.latest)
      && (exists r :: r in mine && r.date == l.first) && (exists r :: r in mine && r.date == l.latest)
      && l.days == |set r | r in mine :: r.date|
      && l.total as real == Added(Total, mine)
      && l.successes as real == Added(Successes, mine)
      && l.failures as real == Added(Failures, mine)
      && Averages(l.successRate, 100.0 * Added(Successes, mine), Added(Total, mine))
      && Averages(l.latency, Added(LatencySum, mine), Added(LatencyCount, mine))
      && Averages(l.loss, Added(LossSum, mine), Added(LossCount, mine))
  {
    hide Filter, TotalsOf, Ratio, GroupOrder, GroupBy, StableSort, Averages, Added, AgentLines, Refresh.Extremes;
    var mine := Filter(Having(GroupKeys(p), l.group), rows);
    AgentLineIs(p, rows, l);
    AgentLineMembers(p, rows, l);
    forall r | r in rows ensures Having(GroupKeys(p), l.group)(r) == OfGroup(p, l.group)(r) { KeysMean(p, r); }
    FilterAgree(Having(GroupKeys(p), l.group), OfGroup(p, l.group), rows);
    TotalsAdded(mine);
    var t := TotalsOf(mine);
    RatioAverages(t.successes as real, t.total, 100.0);
    RatioAverages(t.latencySum, t.latencyCount, 1.0);
    RatioAverages(t.lossSum, t.lossCount, 1.0);
    SpanOf(l.group, mine);
  }

  lemma SpanOf(g: Group, mine: seq<Row>)
    requires Dates(mine) != {}
    ensures var l := RenderAgent(g, mine);
      && mine != [] && (forall r :: r in mine ==> l.first <= r.date <= l.latest)
      && (exists r :: r in mine && r.date == l.first) && (exists r :: r in mine && r.date == l.latest)
      && l.days == |set r | r in mine :: r.date|
  {
    hide TotalsOf, Ratio;
    var l := RenderAgent(g, mine);
    assert l.first in Dates(mine) && l.latest in Dates(mine);
    forall r | r in mine ensures r.date in Dates(mine) {}
  }

  /** The totals are the sums of the rows' fields. */
  lemma {:induction false} TotalsAdded(rows: seq<Row>)
    ensures var t := TotalsOf(rows);
      && t.total as real == Added(Total, rows) && t.successes as real == Added(Successes, rows)
      && t.failures as real == Added(Failures, rows)
      && t.latencyCount as real == Added(LatencyCount, rows) && t.latencySum == Added(LatencySum, rows)
      && t.lossCount as real == Added(LossCount, rows) && t.lossSum == Added(LossSum, rows)
  {
    hide SumOf;
    if rows == [] {
      forall field ensures Added(field, rows) == 0.0 { AddedNothing(field); }
    } else {
      var init, last := rows[..|rows| - 1], rows[|rows| - 1];
      TotalsAdded(init);
      assert rows == init + [last];
      forall field ensures Added(field, rows) == Added(field, init) + In(field)(last) { AddedSnoc(field, init, last); }
    }
  }

  lemma AddedNothing(field: Field)
    ensures Added(field, []) == 0.0
  {
  }

  lemma AddedSnoc(field: Field, rows: seq<Row>, r: Row)
    ensures Added(field, rows + [r]) == Added(field, rows) + In(field)(r)
  {
    SumConcat(In(field), rows, [r]);
    assert [r][1..] == [];
  }

  lemma RatioAverages(sum: real, count: int, scale: real)
    ensures Averages(Ratio(sum, count, scale), scale * sum, count as real)
  {
    if count != 0 {
      var n := count as real;
      assert scale * sum / n * n == scale * sum;
    }
  }

  // ------------------------------------------------------------------ which lines, in which order

  /** Every row's day and group has its line, and no two lines share theirs. */
  lemma OneLineEach(p: Pseudonym, rows: seq<Row>)
    ensures forall r :: r in rows ==> exists l :: l in DailyLines(p, rows) && OfDay(p, l.key)(r)
    ensures forall r :: r in rows ==> exists l :: l in AgentLines(p, rows) && OfGroup(p, l.group)(r)
    ensures forall i, j :: 0 <= i < j < |DailyLines(p, rows)| ==>
      DailyLines(p, rows)[i].key != DailyLines(p, rows)[j].key
    ensures forall i, j :: 0 <= i < j < |AgentLines(p, rows)| ==>
      AgentLines(p, rows)[i].group != AgentLines(p, rows)[j].group
  {
    hide GroupBy, StableSort, DailyOrder, GroupOrder, DailyLines, AgentLines, Filter;
    DailyLineKeys(p, rows);
    AgentLineGroups(p, rows);
    KeysListed(DailyKeys(p), DailyOrder(), DailySorts(), rows);
    KeysListed(GroupKeys(p), GroupOrder(), GroupSorts(), rows);
    forall r | r in rows
      ensures exists l :: l in DailyLines(p, rows) && OfDay(p, l.key)(r)
      ensures exists l :: l in AgentLines(p, rows) && OfGroup(p, l.group)(r)
    {
      KeysMean(p, r);
      var days := StableSort(DailyOrder(), DailySorts(), GroupBy(DailyKeys(p), rows).order);
      var i :| 0 <= i < |days| && days[i] == DailyKeys(p)(r);
      assert DailyLines(p, rows)[i] in DailyLines(p, rows);
      var groups := StableSort(GroupOrder(), GroupSorts(), GroupBy(GroupKeys(p), rows).order);
      var j :| 0 <= j < |groups| && groups[j] == GroupKeys(p)(r);
      assert AgentLines(p, rows)[j] in AgentLines(p, rows);
    }
  }

  lemma KeysListed<K(!new), S(!new)>(key: Row -> K, lt: (S, S) -> bool, sk: K -> S, rows: seq<Row>)
    ensures Distinct(StableSort(lt, sk, GroupBy(key, rows).order))
    ensures forall r :: r in rows ==> key(r) in StableSort(lt, sk, GroupBy(key, rows).order)
  {
    hide GroupBy, StableSort, Filter;
    var order := GroupBy(key, rows).order;
    GroupByIs(key, rows);
    SortPermutes(lt, sk, order);
    SortDistinct(lt, sk, order);
  }

  /** By agent, role, source and probe kind, a missing role as the empty text. */
  predicate NotAfter(g: Group, h: Group) {
    var q, r := if g.role.None? then "" else g.role.value, if h.role.None? then "" else h.role.value;
    || Text.Before(g.agent, h.agent)
    || (g.agent == h.agent
        && (|| Text.Before(q, r)
            || (q == r
                && (|| Text.Before(g.source, h.source)
                    || (g.source == h.source && (Text.Before(g.kind, h.kind) || g.kind == h.kind))))))
  }

  lemma LinesInOrder(p: Pseudonym, rows: seq<Row>)
    ensures var d := DailyLines(p, rows);
      forall i, j :: 0 <= i < j < |d| ==>
        d[i].key.date < d[j].key.date || (d[i].key.date == d[j].key.date && NotAfter(d[i].key.group, d[j].key.group))
    ensures var a := AgentLines(p, rows); forall i, j :: 0 <= i < j < |a| ==> NotAfter(a[i].group, a[j].group)
  {
    hide DailyLines, AgentLines, NotAfter, DailySort, GroupSort, GroupOrder, DailyOrder, StrictTotal;
    DatasetsSorted(p, rows);
    var d, a := DailyLines(p, rows), AgentLines(p, rows);
    forall i, j | 0 <= i < j < |d|
      ensures d[i].key.date < d[j].key.date
           || (d[i].key.date == d[j].key.date && NotAfter(d[i].key.group, d[j].key.group))
    {
      DayOrder(d[i].key, d[j].key);
    }
    forall i, j | 0 <= i < j < |a| ensures NotAfter(a[i].group, a[j].group) { GroupsOrder(a[i].group, a[j].group); }
  }

  lemma GroupsOrder(g: Group, h: Group)
    ensures !GroupOrder()(GroupSort(h), GroupSort(g)) ==> NotAfter(g, h)
  {
    hide Text.Before;
    Text.BeforeTotal(g.agent, h.agent);
    Text.BeforeTotal(SortText(g.role), SortText(h.role));
    Text.BeforeTotal(g.source, h.source);
    Text.BeforeTotal(g.kind, h.kind);
  }

  lemma DayOrder(k: DailyKey, m: DailyKey)
    ensures !DailyOrder()(DailySort(m), DailySort(k)) ==>
      k.date < m.date || (k.date == m.date && NotAfter(k.group, m.group))
  {
    hide NotAfter, GroupOrder, GroupSort;
    GroupsOrder(k.group, m.group);
  }
}
