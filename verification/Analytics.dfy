/** Daily reliability facts: SQL aggregation of typed observations, rebuilt over a date
    range inside one transaction. Sums are exact. */
module Analytics {
  import opened Prelude

  const DAY := 86_400_000_000  // microseconds

  datatype SourceKind = NetworkMeasurement | ServiceCheck

  /** Rows of the two typed tables; times are microseconds since the UTC epoch. */
  datatype Measurement = Measurement(time: int, agent: string, target: string, kind: string, success: bool,
                                     latency: Option<real>, loss: real)
  datatype Check = Check(time: int, agent: string, endpoint: string, kind: string, success: bool,
                         duration: Option<real>)
  datatype Source = Source(measurements: seq<Measurement>, checks: seq<Check>)

  /** One row of the UNION ALL that both refresh and reconciliation aggregate. */
  datatype Observation = Observation(time: int, agent: string, endpoint: string, source: SourceKind, probe: string,
                                     success: bool, latency: Option<real>, loss: Option<real>)

  datatype Grain = Grain(date: int, agent: string, endpoint: string, source: SourceKind, probe: string)
  datatype Fact = Fact(total: nat, successes: nat, failures: nat,
                       latencySum: Option<real>, latencyCount: nat, lossSum: Option<real>, lossCount: nat)
  type Facts = map<Grain, Fact>

  function OfMeasurement(m: Measurement): Observation {
    Observation(m.time, m.agent, m.target, NetworkMeasurement, m.kind, m.success, m.latency, Some(m.loss))
  }

  function OfCheck(c: Check): Observation {
    Observation(c.time, c.agent, c.endpoint, ServiceCheck, c.kind, c.success, c.duration, None)
  }

  function Observations(s: Source): seq<Observation> {
    Map(OfMeasurement, s.measurements) + Map(OfCheck, s.checks)
  }

  /** The UTC date of a timestamp, as days since the epoch. */
  function DateOf(time: int): int { time / DAY }

  function GrainOf(o: Observation): Grain { Grain(DateOf(o.time), o.agent, o.endpoint, o.source, o.probe) }

  // ------------------------------------------------------------------ SQL aggregates

  /** SUM over a nullable column: nulls are skipped, and no value at all gives null. */
  function SqlSum(vs: seq<Option<real>>): Option<real> {
    if vs == [] then None else Plus(vs[0], SqlSum(vs[1..]))
  }

  function Plus(a: Option<real>, b: Option<real>): Option<real> {
    if a.None? then b else if b.None? then a else Some(a.value + b.value)
  }

  /** COUNT over a nullable column. */
  function SqlCount(vs: seq<Option<real>>): nat { |Filter((v: Option<real>) => v.Some?, vs)| }

  function FactOf(rows: seq<Observation>): Fact {
    var latencies, losses := Map((o: Observation) => o.latency, rows), Map((o: Observation) => o.loss, rows);
    Fact(|rows|, |Filter((o: Observation) => o.success, rows)|, |Filter((o: Observation) => !o.success, rows)|,
         SqlSum(latencies), SqlCount(latencies), SqlSum(losses), SqlCount(losses))
  }

  function Grains(obs: seq<Observation>): set<Grain> { set o | o in obs :: GrainOf(o) }

  function RowsOf(obs: seq<Observation>, g: Grain): seq<Observation> {
    Filter((o: Observation) => GrainOf(o) == g, obs)
  }

  /** SELECT <aggregates> FROM obs GROUP BY grain. */
  function Aggregate(obs: seq<Observation>): Facts {
    map g | g in Grains(obs) :: FactOf(RowsOf(obs, g))
  }

  /** The half-open timestamp bounds of an inclusive date range. */
  predicate InBounds(time: int, from: int, through: int) { from * DAY <= time < (through + 1) * DAY }

  function Window(obs: seq<Observation>, from: int, through: int): seq<Observation> {
    Filter((o: Observation) => InBounds(o.time, from, through), obs)
  }

  lemma BoundsAreDates(time: int, from: int, through: int)
    ensures InBounds(time, from, through) <==> from <= DateOf(time) <= through
  {
  }

  /** Delete the range, then insert the aggregation of the range. */
  function Refreshed(facts: Facts, obs: seq<Observation>, from: int, through: int): Facts {
    (map g | g in facts && !(from <= g.date <= through) :: facts[g]) + Aggregate(Window(obs, from, through))
  }

  function Lookup(facts: Facts, g: Grain): Option<Fact> { if g in facts then Some(facts[g]) else None }

  /** Inside a window the aggregation is the whole source's; outside it is empty. */
  lemma WindowAggregate(obs: seq<Observation>, from: int, through: int, g: Grain)
    ensures Lookup(Aggregate(Window(obs, from, through)), g)
         == if from <= g.date <= through then Lookup(Aggregate(obs), g) else None
  {
    var w := Window(obs, from, through);
    forall o | o in obs ensures o in w <==> from <= DateOf(o.time) <= through { BoundsAreDates(o.time, from, through); }
    if from <= g.date <= through {
      assert g in Grains(w) <==> g in Grains(obs) by {
        if g in Grains(obs) {
          var o :| o in obs && GrainOf(o) == g;
          assert o in w;
        }
      }
      WindowRows(obs, from, through, g);
    }
  }

  lemma WindowRows(obs: seq<Observation>, from: int, through: int, g: Grain)
    requires from <= g.date <= through
    ensures RowsOf(Window(obs, from, through), g) == RowsOf(obs, g)
  {
    var p, q := (o: Observation) => GrainOf(o) == g, (o: Observation) => InBounds(o.time, from, through);
    forall o | o in obs ensures p(o) == (p(o) && q(o)) { BoundsAreDates(o.time, from, through); }
    FilterTwice(p, q, p, obs);
  }

  /** What one refresh does to every grain. */
  lemma RefreshPointwise(facts: Facts, obs: seq<Observation>, from: int, through: int, g: Grain)
    ensures Lookup(Refreshed(facts, obs, from, through), g)
         == if from <= g.date <= through then Lookup(Aggregate(obs), g) else Lookup(facts, g)
  {
    WindowAggregate(obs, from, through, g);
  }

  lemma MapsEqual(a: Facts, b: Facts)
    requires forall g :: Lookup(a, g) == Lookup(b, g)
    ensures a == b
  {
    forall g ensures g in a <==> g in b { assert Lookup(a, g) == Lookup(b, g); }
    forall g | g in a ensures a[g] == b[g] { assert Lookup(a, g) == Lookup(b, g); }
  }

  /** Refreshing two ranges that touch or overlap, in either order, is refreshing their
      union once. */
  lemma AdjacentRefreshes(facts: Facts, obs: seq<Observation>, a: int, b: int, c: int, d: int)
    requires a <= c <= b + 1 && b <= d
    ensures Refreshed(Refreshed(facts, obs, a, b), obs, c, d) == Refreshed(facts, obs, a, d)
    ensures Refreshed(Refreshed(facts, obs, c, d), obs, a, b) == Refreshed(facts, obs, a, d)
  {
    hide Refreshed, Aggregate, Lookup;
    var once := Refreshed(facts, obs, a, d);
    var ab, cd := Refreshed(facts, obs, a, b), Refreshed(facts, obs, c, d);
    forall g ensures Lookup(Refreshed(ab, obs, c, d), g) == Lookup(once, g) == Lookup(Refreshed(cd, obs, a, b), g) {
      RefreshPointwise(facts, obs, a, d, g);
      RefreshPointwise(facts, obs, a, b, g);
      RefreshPointwise(facts, obs, c, d, g);
      RefreshPointwise(ab, obs, c, d, g);
      RefreshPointwise(cd, obs, a, b, g);
    }
    MapsEqual(Refreshed(ab, obs, c, d), once);
    MapsEqual(Refreshed(cd, obs, a, b), once);
  }

  // ------------------------------------------------------------------ row order is immaterial

  lemma {:induction false} SumWithout(vs: seq<Option<real>>, j: nat)
    requires j < |vs|
    ensures SqlSum(vs) == Plus(vs[j], SqlSum(Without(vs, j)))
  {
    if j == 0 {
      assert Without(vs, 0) == vs[1..];
    } else {
      SumWithout(vs[1..], j - 1);
      assert Without(vs, j)[1..] == Without(vs[1..], j - 1);
    }
  }

  lemma {:induction false} SumPermutes(a: seq<Option<real>>, b: seq<Option<real>>)
    requires multiset(a) == multiset(b)
    ensures SqlSum(a) == SqlSum(b)
  {
    if a == [] {
      PermutedLength(a, b);
    } else {
      var j := TakeOut(a, b);
      SumPermutes(a[1..], Without(b, j));
      SumWithout(b, j);
    }
  }

  lemma CountPermutes(a: seq<Option<real>>, b: seq<Option<real>>)
    requires multiset(a) == multiset(b)
    ensures SqlCount(a) == SqlCount(b)
  {
    var p := (v: Option<real>) => v.Some?;
    FilterPermutes(p, a, b);
    PermutedLength(Filter(p, a), Filter(p, b));
  }

  lemma FactPermutes(a: seq<Observation>, b: seq<Observation>)
    requires multiset(a) == multiset(b)
    ensures FactOf(a) == FactOf(b)
  {
    hide SqlSum, SqlCount, Filter;
    var ok, bad := (o: Observation) => o.success, (o: Observation) => !o.success;
    FilterPermutes(ok, a, b);
    FilterPermutes(bad, a, b);
    PermutedLength(a, b);
    PermutedLength(Filter(ok, a), Filter(ok, b));
    PermutedLength(Filter(bad, a), Filter(bad, b));
    var latency, loss := (o: Observation) => o.latency, (o: Observation) => o.loss;
    MapPermutes(latency, a, b);
    MapPermutes(loss, a, b);
    SumPermutes(Map(latency, a), Map(latency, b));
    SumPermutes(Map(loss, a), Map(loss, b));
    CountPermutes(Map(latency, a), Map(latency, b));
    CountPermutes(Map(loss, a), Map(loss, b));
  }

  /** The aggregation depends on which rows there are, not on their physical order. */
  lemma AggregatePermutes(a: seq<Observation>, b: seq<Observation>)
    requires multiset(a) == multiset(b)
    ensures Aggregate(a) == Aggregate(b)
  {
    hide FactOf;
    forall o ensures o in a <==> o in b { assert o in multiset(a) <==> o in multiset(b); }
    assert Grains(a) == Grains(b);
    forall g | g in Grains(a) ensures FactOf(RowsOf(a, g)) == FactOf(RowsOf(b, g)) {
      FilterPermutes((o: Observation) => GrainOf(o) == g, a, b);
      FactPermutes(RowsOf(a, g), RowsOf(b, g));
    }
  }
}
