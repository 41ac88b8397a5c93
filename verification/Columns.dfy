/** What every column of the daily facts is of the rows of the typed tables. */
module Columns {
  import opened Prelude
  import opened Analytics

  datatype Column = Totals | Successes | Failures | LatencyCount | LatencySum | LossCount | LossSum

  /** The column's value, null as nothing. */
  function ValueOf(col: Column, f: Fact): real {
    match col
    case Totals => f.total as real
    case Successes => f.successes as real
    case Failures => f.failures as real
    case LatencyCount => f.latencyCount as real
    case LatencySum => OrZero(f.latencySum)
    case LossCount => f.lossCount as real
    case LossSum => OrZero(f.lossSum)
  }

  function OrZero(x: Option<real>): real { if x.Some? then x.value else 0.0 }
  function One(b: bool): real { if b then 1.0 else 0.0 }

  /** What a measurement adds to the column of its grain. */
  function OfRow(col: Column): Measurement -> real {
    (m: Measurement) =>
      match col
      case Totals => 1.0
      case Successes => One(m.success)
      case Failures => One(!m.success)
      case LatencyCount => One(m.latency.Some?)
      case LatencySum => OrZero(m.latency)
      case LossCount => 1.0
      case LossSum => m.loss
  }

  /** What a service check adds: its duration is the latency, and it has no loss. */
  function OfService(col: Column): Check -> real {
    (c: Check) =>
      match col
      case Totals => 1.0
      case Successes => One(c.success)
      case Failures => One(!c.success)
      case LatencyCount => One(c.duration.Some?)
      case LatencySum => OrZero(c.duration)
      case LossCount => 0.0
      case LossSum => 0.0
  }

  predicate On(time: int, date: int) { date * 86_400_000_000 <= time < (date + 1) * 86_400_000_000 }

  /** The row belongs to the grain: its UTC day, agent, endpoint, table and probe. */
  function MeasuredAt(g: Grain): Measurement -> bool {
    (m: Measurement) =>
      && g.source.NetworkMeasurement? && On(m.time, g.date)
      && m.agent == g.agent && m.target == g.endpoint && m.kind == g.probe
  }

  function CheckedAt(g: Grain): Check -> bool {
    (c: Check) =>
      && g.source.ServiceCheck? && On(c.time, g.date)
      && c.agent == g.agent && c.endpoint == g.endpoint && c.kind == g.probe
  }

  /** There is a fact for a grain if and only if some row belongs to it, and each column is
      what these rows add up to; a sum is null only without a value. */
  lemma FactIs(s: Source, g: Grain)
    ensures g in Aggregate(Observations(s))
       <==> (exists m :: m in s.measurements && MeasuredAt(g)(m)) || (exists c :: c in s.checks && CheckedAt(g)(c))
    ensures g in Aggregate(Observations(s)) ==> forall col: Column ::
      ValueOf(col, Aggregate(Observations(s))[g])
      == SumOf(OfRow(col), Filter(MeasuredAt(g), s.measurements))
         + SumOf(OfService(col), Filter(CheckedAt(g), s.checks))
    ensures g in Aggregate(Observations(s)) ==> var f := Aggregate(Observations(s))[g];
      (f.latencySum.None? <==> f.latencyCount == 0) && (f.lossSum.None? <==> f.lossCount == 0)
  {
    hide FactOf, RowsOf, Filter, SumOf, OfRow, OfService, ValueOf;
    GrainIff(s, g);
    if g in Aggregate(Observations(s)) {
      forall col: Column
        ensures ValueOf(col, Aggregate(Observations(s))[g]) == SumOf(OfRow(col), Filter(MeasuredAt(g), s.measurements))
                                                              + SumOf(OfService(col), Filter(CheckedAt(g), s.checks))
      {
        ColumnSums(col, RowsOf(Observations(s), g));
        GrainSums(col, s, g);
      }
      NullsAreEmpty(RowsOf(Observations(s), g));
    }
  }

  lemma GrainIff(s: Source, g: Grain)
    ensures g in Aggregate(Observations(s))
       <==> (exists m :: m in s.measurements && MeasuredAt(g)(m)) || (exists c :: c in s.checks && CheckedAt(g)(c))
  {
    hide FactOf, RowsOf;
    forall m: Measurement ensures GrainOf(OfMeasurement(m)) == g <==> MeasuredAt(g)(m) {}
    forall c: Check ensures GrainOf(OfCheck(c)) == g <==> CheckedAt(g)(c) {}
    forall m | m in s.measurements ensures OfMeasurement(m) in Observations(s) {
      var i :| 0 <= i < |s.measurements| && s.measurements[i] == m;
      assert Observations(s)[i] == OfMeasurement(m);
    }
    forall c | c in s.checks ensures OfCheck(c) in Observations(s) {
      var i :| 0 <= i < |s.checks| && s.checks[i] == c;
      assert Observations(s)[|s.measurements| + i] == OfCheck(c);
    }
  }

  // ------------------------------------------------------------------ sums over observations

  /** What an observation adds. */
  function Part(col: Column): Observation -> real {
    (o: Observation) =>
      match col
      case Totals => 1.0
      case Successes => One(o.success)
      case Failures => One(!o.success)
      case LatencyCount => One(o.latency.Some?)
      case LatencySum => OrZero(o.latency)
      case LossCount => One(o.loss.Some?)
      case LossSum => OrZero(o.loss)
  }

  /** The aggregates add up what the rows add. */
  lemma {:induction false} ColumnSums(col: Column, rows: seq<Observation>)
    ensures ValueOf(col, FactOf(rows)) == SumOf(Part(col), rows)
  {
    hide Filter;
    if rows == [] {
      NothingSums(col);
    } else {
      var rest := rows[1..];
      ColumnSums(col, rest);
      FactCons(rows);
      SqlSumCons(rows[0].latency, Map((o: Observation) => o.latency, rest));
      SqlSumCons(rows[0].loss, Map((o: Observation) => o.loss, rest));
    }
  }

  lemma NothingSums(col: Column)
    ensures ValueOf(col, FactOf([])) == SumOf(Part(col), []) == 0.0
  {
    assert Map((o: Observation) => o.latency, []) == [] && Map((o: Observation) => o.loss, []) == [];
  }

  lemma SqlSumCons(v: Option<real>, vs: seq<Option<real>>)
    ensures OrZero(SqlSum([v] + vs)) == OrZero(v) + OrZero(SqlSum(vs))
  {
    assert ([v] + vs)[1..] == vs;
  }

  /** One more row, column by column. */
  lemma FactCons(rows: seq<Observation>)
    requires rows != []
    ensures var f, g, o := FactOf(rows), FactOf(rows[1..]), rows[0];
      && f.total == g.total + 1
      && f.successes == g.successes + (if o.success then 1 else 0)
      && f.failures == g.failures + (if o.success then 0 else 1)
      && f.latencyCount == g.latencyCount + (if o.latency.Some? then 1 else 0)
      && f.lossCount == g.lossCount + (if o.loss.Some? then 1 else 0)
      && f.latencySum == SqlSum([o.latency] + Map((o: Observation) => o.latency, rows[1..]))
      && f.lossSum == SqlSum([o.loss] + Map((o: Observation) => o.loss, rows[1..]))
  {
    hide SqlSum;
    var latency, loss := (o: Observation) => o.latency, (o: Observation) => o.loss;
    assert Map(latency, rows) == [rows[0].latency] + Map(latency, rows[1..]);
    assert Map(loss, rows) == [rows[0].loss] + Map(loss, rows[1..]);
    assert Map(latency, rows)[1..] == Map(latency, rows[1..]) && Map(loss, rows)[1..] == Map(loss, rows[1..]);
  }

  lemma NullsAreEmpty(rows: seq<Observation>)
    ensures FactOf(rows).latencySum.None? <==> FactOf(rows).latencyCount == 0
    ensures FactOf(rows).lossSum.None? <==> FactOf(rows).lossCount == 0
  {
    hide SqlSum, SqlCount, Filter;
    SumNullIffNoValue(Map((o: Observation) => o.latency, rows));
    SumNullIffNoValue(Map((o: Observation) => o.loss, rows));
  }

  lemma {:induction false} SumNullIffNoValue(vs: seq<Option<real>>)
    ensures SqlSum(vs).None? <==> SqlCount(vs) == 0
  {
    if vs != [] {
      SumNullIffNoValue(vs[1..]);
    }
  }

  /** The grain's observations are its measurements or its checks. */
  lemma GrainSums(col: Column, s: Source, g: Grain)
    ensures SumOf(Part(col), RowsOf(Observations(s), g))
         == SumOf(OfRow(col), Filter(MeasuredAt(g), s.measurements))
            + SumOf(OfService(col), Filter(CheckedAt(g), s.checks))
  {
    SelectedSums(col, s, (o: Observation) => GrainOf(o) == g, MeasuredAt(g), CheckedAt(g));
  }

  /** Selecting observations is selecting rows of both tables. */
  lemma SelectedSums(col: Column, s: Source, p: Observation -> bool, q: Measurement -> bool, r: Check -> bool)
    requires (forall m :: p(OfMeasurement(m)) == q(m)) && (forall c :: p(OfCheck(c)) == r(c))
    ensures SumOf(Part(col), Filter(p, Observations(s)))
         == SumOf(OfRow(col), Filter(q, s.measurements)) + SumOf(OfService(col), Filter(r, s.checks))
  {
    hide Filter, SumOf;
    var ms, cs := Map(OfMeasurement, s.measurements), Map(OfCheck, s.checks);
    FilterConcat(p, ms, cs);
    MapFilter(OfMeasurement, p, q, s.measurements);
    MapFilter(OfCheck, p, r, s.checks);
    SumConcat(Part(col), Filter(p, ms), Filter(p, cs));
    SumMapped(Part(col), OfMeasurement, OfRow(col), Filter(q, s.measurements));
    SumMapped(Part(col), OfCheck, OfService(col), Filter(r, s.checks));
  }
}
