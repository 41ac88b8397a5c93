/** The independent checks of the workflow: reconciliation by full outer join, table
    constraints and conservation of counts, and the reporting validator. */
module Reconcile {
  import opened Prelude
  import opened Analytics
  import opened Columns
  import opened Refresh
  import Classify
  import Incidents
  import IncidentStore
  import Lifecycle

  // ------------------------------------------------------------------ daily reconciliation

  /** One row of `expected FULL OUTER JOIN actual USING (grain)`: null columns stand for
      the absent side. */
  datatype JoinRow = JoinRow(expected: Option<Fact>, actual: Option<Fact>)

  /** The seven columns compared with IS DISTINCT FROM, after the two null-side tests. */
  predicate Mismatch(r: JoinRow) {
    || r.expected.None? || r.actual.None?
    || r.expected.value.total != r.actual.value.total
    || r.expected.value.successes != r.actual.value.successes
    || r.expected.value.failures != r.actual.value.failures
    || r.expected.value.latencySum != r.actual.value.latencySum
    || r.expected.value.latencyCount != r.actual.value.latencyCount
    || r.expected.value.lossSum != r.actual.value.lossSum
    || r.expected.value.lossCount != r.actual.value.lossCount
  }

  function Join(expected: Facts, actual: Facts): map<Grain, JoinRow> {
    map g | g in expected.Keys + actual.Keys :: JoinRow(Lookup(expected, g), Lookup(actual, g))
  }

  function MismatchedGrains(expected: Facts, actual: Facts): set<Grain> {
    set g | g in Join(expected, actual) && Mismatch(Join(expected, actual)[g])
  }

  function Expected(s: Source, from: int, through: int): Facts { Aggregate(Window(Observations(s), from, through)) }

  datatype DailyResult = DailyResult(sourceRows: nat, factRows: nat, mismatches: nat)

  method ReconcileDaily(s: Source, facts: Facts, from: int, through: int) returns (r: DailyResult)
    ensures r.mismatches == |set g | g in Expected(s, from, through).Keys + InDates(facts, from, through).Keys
                                  && Lookup(Expected(s, from, through), g) != Lookup(InDates(facts, from, through), g)|
    ensures r.mismatches == 0 <==> InDates(facts, from, through) == Expected(s, from, through)
    ensures r.sourceRows == |Expected(s, from, through)| && r.factRows == |InDates(facts, from, through)|
    ensures r.mismatches == 0 ==> r.sourceRows == r.factRows
  {
    hide Expected, InDates;
    var expected, actual := Expected(s, from, through), InDates(facts, from, through);
    MismatchesAreDifferences(expected, actual);
    r := DailyResult(|expected|, |actual|, |MismatchedGrains(expected, actual)|);
  }

  /** The join counts exactly the grains at which the two maps differ, those on one side
      only included; it counts none exactly when the maps are equal. */
  lemma MismatchesAreDifferences(expected: Facts, actual: Facts)
    ensures MismatchedGrains(expected, actual)
         == set g | g in expected.Keys + actual.Keys && Lookup(expected, g) != Lookup(actual, g)
    ensures |MismatchedGrains(expected, actual)| == 0 <==> expected == actual
  {
    var bad := MismatchedGrains(expected, actual);
    if |bad| == 0 {
      forall g ensures Lookup(expected, g) == Lookup(actual, g) {
        if g in expected.Keys + actual.Keys { assert g !in bad; }
      }
      MapsEqual(expected, actual);
    }
  }

  /** Right after a refresh of a range, reconciling any part of it finds nothing. */
  lemma CleanAfterRefresh(s: Source, facts: Facts, a: int, b: int, from: int, through: int)
    requires a <= from && through <= b
    ensures MismatchedGrains(Expected(s, from, through),
                             InDates(Refreshed(facts, Observations(s), a, b), from, through)) == {}
  {
    hide Refreshed, Aggregate, Window, Observations;
    var obs := Observations(s);
    var after := Refreshed(facts, obs, a, b);
    forall g ensures Lookup(InDates(after, from, through), g) == Lookup(Expected(s, from, through), g) {
      RefreshPointwise(facts, obs, a, b, g);
      WindowAggregate(obs, from, through, g);
    }
    MapsEqual(InDates(after, from, through), Expected(s, from, through));
    MismatchesAreDifferences(Expected(s, from, through), InDates(after, from, through));
  }

  // ------------------------------------------------------------------ reconciling everything

  /** The dates that reconciling everything covers; `today` stands in for no dates. */
  function AllRange(s: Source, facts: Facts, today: int): (int, int) {
    match Extremes(AllDates(s, facts)) case None => (today, today) case Some(range) => range
  }

  /** From the first to the last date there is, in the source or the facts. */
  lemma AllRangeIs(s: Source, facts: Facts, today: int)
    ensures var (from, through) := AllRange(s, facts, today);
      if AllDates(s, facts) == {} then from == through == today
      else from in AllDates(s, facts) && through in AllDates(s, facts)
           && forall d :: d in AllDates(s, facts) ==> from <= d <= through
    ensures forall d :: d in AllDates(s, facts) <==>
      (exists o :: o in Observations(s) && On(o.time, d)) || (exists g :: g in facts && g.date == d)
  {
    hide Extremes, Observations;
    forall o: Observation, d ensures DateOf(o.time) == d <==> On(o.time, d) {}
    forall d ensures d in AllDates(s, facts) <==>
      (exists o :: o in Observations(s) && On(o.time, d)) || (exists g :: g in facts && g.date == d) {}
  }

  predicate Clean(s: Source, facts: Facts, from: int, through: int) {
    MismatchedGrains(Expected(s, from, through), InDates(facts, from, through)) == {}
  }

  /** The facts are the aggregation of the whole source. */
  predicate Current(s: Source, facts: Facts) { facts == Aggregate(Observations(s)) }

  /** The facts of a grain are the aggregation of the whole source there. */
  predicate Agrees(s: Source, facts: Facts, g: Grain) { Lookup(facts, g) == Lookup(Aggregate(Observations(s)), g) }

  /** The range is read in one transaction, the comparison made in another: the first may see
      an older state of the database than the second. */
  method ReconcileAll(older: Source, olderFacts: Facts, s: Source, facts: Facts, today: int) returns (r: DailyResult)
    ensures var (from, through) := AllRange(older, olderFacts, today);
      r.mismatches == 0 <==> forall g: Grain :: from <= g.date <= through ==> Agrees(s, facts, g)
  {
    hide Extremes, AllDates, Expected, InDates, Agrees;
    var (from, through) := AllRange(older, olderFacts, today);
    r := ReconcileDaily(s, facts, from, through);
    CleanMeansAgreement(s, facts, from, through);
    MismatchesAreDifferences(Expected(s, from, through), InDates(facts, from, through));
  }

  /** A reconciled range is clean exactly when the facts agree with the whole source on it. */
  lemma CleanMeansAgreement(s: Source, facts: Facts, from: int, through: int)
    ensures Clean(s, facts, from, through) <==> forall g: Grain :: from <= g.date <= through ==> Agrees(s, facts, g)
  {
    hide Aggregate, Window, Observations, Expected;
    var expected, actual := Expected(s, from, through), InDates(facts, from, through);
    forall g: Grain
      ensures Lookup(expected, g) == if from <= g.date <= through then Lookup(Aggregate(Observations(s)), g) else None
      ensures Lookup(actual, g) == if from <= g.date <= through then Lookup(facts, g) else None
    {
      ExpectedAt(s, from, through, g);
    }
    MismatchesAreDifferences(expected, actual);
    if forall g: Grain :: from <= g.date <= through ==> Agrees(s, facts, g) {
      forall g ensures Lookup(expected, g) == Lookup(actual, g) {
        assert from <= g.date <= through ==> Agrees(s, facts, g);
      }
      MapsEqual(expected, actual);
    }
  }

  lemma CurrentAgrees(s: Source, facts: Facts)
    ensures Current(s, facts) <==> forall g: Grain :: Agrees(s, facts, g)
  {
    hide Aggregate, Observations, Lookup;
    if forall g: Grain :: Agrees(s, facts, g) {
      forall g ensures Lookup(facts, g) == Lookup(Aggregate(Observations(s)), g) { assert Agrees(s, facts, g); }
      MapsEqual(facts, Aggregate(Observations(s)));
    }
  }

  lemma ExpectedAt(s: Source, from: int, through: int, g: Grain)
    ensures Lookup(Expected(s, from, through), g)
         == if from <= g.date <= through then Lookup(Aggregate(Observations(s)), g) else None
  {
    hide Aggregate, Observations;
    WindowAggregate(Observations(s), from, through, g);
  }

  /** Reconciling everything finds nothing exactly when the state compared agrees on the
      dates read before; the facts are current exactly when moreover no other date differs. */
  lemma AllCleanIff(older: Source, olderFacts: Facts, s: Source, facts: Facts, today: int)
    ensures var (from, through) := AllRange(older, olderFacts, today);
      && (Clean(s, facts, from, through) <==> forall g: Grain :: from <= g.date <= through ==> Agrees(s, facts, g))
      && (Current(s, facts) <==>
            Clean(s, facts, from, through) && forall g: Grain :: !(from <= g.date <= through) ==> Agrees(s, facts, g))
  {
    hide Extremes, AllDates, Clean, Current, Agrees;
    var (from, through) := AllRange(older, olderFacts, today);
    CleanMeansAgreement(s, facts, from, through);
    CurrentAgrees(s, facts);
  }

  /** Every date of the state lies in the range. */
  predicate Covers(from: int, through: int, s: Source, facts: Facts) {
    forall d :: d in AllDates(s, facts) ==> from <= d <= through
  }

  /** A range that covers the state compared tells whether the facts are current. */
  lemma CoveringRangeTells(s: Source, facts: Facts, from: int, through: int)
    requires Covers(from, through, s, facts)
    ensures Clean(s, facts, from, through) <==> Current(s, facts)
  {
    hide Clean, Current, Aggregate, Observations, AllDates;
    CleanMeansAgreement(s, facts, from, through);
    forall g: Grain | !(from <= g.date <= through) ensures Agrees(s, facts, g) { DatesCover(s, facts, g); }
    CurrentAgrees(s, facts);
  }

  /** Over facts dated in the range, that a clean result means current facts depends on the
      source alone: it does if and only if every observation is dated in the range. */
  lemma CleanIsCurrentIff(s: Source, from: int, through: int)
    ensures (forall facts: Facts :: InDates(facts, from, through) == facts ==>
               (Clean(s, facts, from, through) <==> Current(s, facts)))
       <==> forall o :: o in Observations(s) ==> from <= DateOf(o.time) <= through
  {
    hide Clean, Aggregate, Observations, Expected;
    if forall o :: o in Observations(s) ==> from <= DateOf(o.time) <= through {
      forall facts: Facts | InDates(facts, from, through) == facts
        ensures Clean(s, facts, from, through) <==> Current(s, facts)
      {
        assert forall g :: g in facts ==> g in InDates(facts, from, through);
        CoveringRangeTells(s, facts, from, through);
      }
    } else {
      var o :| o in Observations(s) && !(from <= DateOf(o.time) <= through);
      MissedDateHides(s, from, through, o);
    }
  }

  /** What the source holds of the range alone reconciles clean, and is not current when an
      observation is dated outside. */
  lemma MissedDateHides(s: Source, from: int, through: int, o: Observation)
    requires o in Observations(s) && !(from <= DateOf(o.time) <= through)
    ensures var facts := InDates(Aggregate(Observations(s)), from, through);
      InDates(facts, from, through) == facts && Clean(s, facts, from, through) && !Current(s, facts)
  {
    hide Clean, Observations, FactOf, RowsOf;
    var facts := InDates(Aggregate(Observations(s)), from, through);
    CleanMeansAgreement(s, facts, from, through);
    assert GrainOf(o) in Aggregate(Observations(s)) && GrainOf(o) !in facts;
  }

  /** Read in one state, the range covers it: reconciling everything finds nothing exactly
      when the facts are the aggregation of the whole source. */
  lemma AllCleanAtRest(s: Source, facts: Facts, today: int)
    ensures var (from, through) := AllRange(s, facts, today); Clean(s, facts, from, through) <==> Current(s, facts)
  {
    hide Clean, Current, AllDates;
    var (from, through) := AllRange(s, facts, today);
    CoveringRangeTells(s, facts, from, through);
  }

  /** A commit between the two transactions: the range of an empty database is today, and a
      measurement of a later date that has no fact goes unnoticed. */
  lemma CommitBetweenTransactions(today: int)
    ensures exists s: Source :: var (from, through) := AllRange(Source([], []), map[], today);
      Clean(s, map[], from, through) && !Current(s, map[])
  {
    hide Clean;
    var m := Measurement((today + 5) * DAY, "a", "router", "router_ping", true, None, 0.0);
    var s, o := Source([m], []), OfMeasurement(m);
    assert Observations(s)[0] == o;
    assert AllDates(Source([], []), map[]) == {};
    assert DateOf(o.time) == today + 5;
    MissedDateHides(s, today, today, o);
    forall g | g in InDates(Aggregate(Observations(s)), today, today) ensures false {
      GrainOfOne(s, m, g);
    }
    assert InDates(Aggregate(Observations(s)), today, today) == map[];
  }

  lemma GrainOfOne(s: Source, m: Measurement, g: Grain)
    requires s == Source([m], []) && g in Aggregate(Observations(s))
    ensures g == GrainOf(OfMeasurement(m))
  {
  }

  // ------------------------------------------------------------------ incident reconciliation

  /** A row of the incident comparison: status, revision, and how many members. */
  datatype Tally = Tally(status: string, revision: nat, agents: nat, endpoints: nat)

  /** The operational side counts array elements, repeats included. */
  function SourceTallies(incidents: map<nat, Incident>): map<nat, Tally> {
    map id | id in incidents ::
      Tally(incidents[id].status, incidents[id].revision, |incidents[id].agents|, |incidents[id].endpoints|)
  }

  /** The analytics side counts bridge rows, which are distinct. */
  function FactTallies(facts: map<nat, IncidentFact>, agents: set<(nat, string)>,
                       endpoints: set<(nat, string)>): map<nat, Tally>
  {
    map id | id in facts ::
      Tally(facts[id].status, facts[id].revision, |Members(agents, id)|, |Members(endpoints, id)|)
  }

  function Members(bridge: set<(nat, string)>, id: nat): set<string> { set p | p in bridge && p.0 == id :: p.1 }

  function MismatchedIncidents(expected: map<nat, Tally>, actual: map<nat, Tally>): set<nat> {
    set id | id in expected.Keys + actual.Keys && (id !in expected || id !in actual || expected[id] != actual[id])
  }

  /** Incident, fact and bridges tell the same: status, revision and how many members. */
  predicate SameIncident(incidents: map<nat, Incident>, facts: map<nat, IncidentFact>, agents: set<(nat, string)>,
                         endpoints: set<(nat, string)>, id: nat)
  {
    && id in incidents && id in facts
    && incidents[id].status == facts[id].status && incidents[id].revision == facts[id].revision
    && |incidents[id].agents| == |set p | p in agents && p.0 == id :: p.1|
    && |incidents[id].endpoints| == |set p | p in endpoints && p.0 == id :: p.1|
  }

  /** Over any tables, refreshed or not, exactly the ids that do not tell the same are flagged;
      those on one side only among them. */
  lemma FlaggedIff(incidents: map<nat, Incident>, facts: map<nat, IncidentFact>, agents: set<(nat, string)>,
                   endpoints: set<(nat, string)>)
    ensures MismatchedIncidents(SourceTallies(incidents), FactTallies(facts, agents, endpoints))
         == set id | id in incidents.Keys + facts.Keys && !SameIncident(incidents, facts, agents, endpoints, id)
    ensures MismatchedIncidents(SourceTallies(incidents), FactTallies(facts, agents, endpoints)) == {}
       <==> incidents.Keys == facts.Keys
            && forall id :: id in incidents ==> SameIncident(incidents, facts, agents, endpoints, id)
  {
    var flagged := MismatchedIncidents(SourceTallies(incidents), FactTallies(facts, agents, endpoints));
    forall id
      ensures id in flagged
         <==> id in incidents.Keys + facts.Keys && !SameIncident(incidents, facts, agents, endpoints, id)
    {
      MembersAre(agents, id);
      MembersAre(endpoints, id);
    }
  }

  lemma MembersAre(bridge: set<(nat, string)>, id: nat)
    ensures Members(bridge, id) == set p | p in bridge && p.0 == id :: p.1
  {
  }

  datatype IncidentResult = IncidentResult(sources: nat, facts: nat, mismatches: nat)

  method ReconcileIncidents(incidents: map<nat, Incident>, facts: map<nat, IncidentFact>, agents: set<(nat, string)>,
                            endpoints: set<(nat, string)>) returns (r: IncidentResult)
    ensures r.sources == |incidents| && r.facts == |facts|
    ensures r.mismatches ==
      |set id | id in incidents.Keys + facts.Keys && !SameIncident(incidents, facts, agents, endpoints, id)|
  {
    hide SameIncident, SourceTallies, FactTallies, MismatchedIncidents;
    FlaggedIff(incidents, facts, agents, endpoints);
    var flagged := MismatchedIncidents(SourceTallies(incidents), FactTallies(facts, agents, endpoints));
    r := IncidentResult(|incidents|, |facts|, |flagged|);
  }

  /** What the reconciliation flags right after a refresh that copied these incidents. */
  function Flagged(incidents: map<nat, Incident>): set<nat> {
    var agents := Bridge(incidents, (i: Incident) => i.agents);
    var endpoints := Bridge(incidents, (i: Incident) => i.endpoints);
    MismatchedIncidents(SourceTallies(incidents), FactTallies(IncidentFacts(incidents), agents, endpoints))
  }

  function Elements(s: seq<string>): set<string> { set x | x in s }

  lemma {:induction false} RepeatsShow(s: seq<string>)
    ensures |Elements(s)| <= |s|
    ensures |Elements(s)| == |s| <==> Distinct(s)
  {
    if s != [] {
      var t, last := s[..|s| - 1], s[|s| - 1];
      RepeatsShow(t);
      assert Elements(s) == Elements(t) + {last};
      assert s == t + [last];
      if last in t {
        var i :| 0 <= i < |t| && t[i] == last;
        assert Elements(s) == Elements(t);
        assert s[i] == s[|t|];
      } else if Distinct(t) {
        forall i | 0 <= i < |t| ensures s[i] != last { assert t[i] in t; }
      } else {
        var i, j :| 0 <= i < j < |t| && t[i] == t[j];
        assert s[i] == s[j];
      }
    }
  }

  lemma BridgeMembers(incidents: map<nat, Incident>, members: Incident -> seq<string>, id: nat)
    requires id in incidents
    ensures Members(Bridge(incidents, members), id) == Elements(members(incidents[id]))
  {
    forall x | x in Elements(members(incidents[id])) ensures x in Members(Bridge(incidents, members), id) {
      assert (id, x) in Bridge(incidents, members);
    }
  }

  /** After a refresh the incident reconciliation flags exactly the incidents whose agent
      or endpoint array lists a member twice: the array length counts repeats, the bridge
      does not. In particular it is clean if and only if no array repeats a member. */
  lemma IncidentMismatchesAreRepeats(incidents: map<nat, Incident>)
    ensures Flagged(incidents)
         == set id | id in incidents && !(Distinct(incidents[id].agents) && Distinct(incidents[id].endpoints))
  {
    hide Bridge, Members, Distinct, Elements;
    forall id | id in incidents
      ensures |Members(Bridge(incidents, (i: Incident) => i.agents), id)| == |incidents[id].agents|
         <==> Distinct(incidents[id].agents)
      ensures |Members(Bridge(incidents, (i: Incident) => i.endpoints), id)| == |incidents[id].endpoints|
         <==> Distinct(incidents[id].endpoints)
    {
      BridgeMembers(incidents, (i: Incident) => i.agents, id);
      BridgeMembers(incidents, (i: Incident) => i.endpoints, id);
      RepeatsShow(incidents[id].agents);
      RepeatsShow(incidents[id].endpoints);
    }
  }

  /** An incident that lists one agent twice is reported as mismatched right after the
      refresh that copied it. */
  lemma RepeatedAgentIsFlagged()
    ensures exists i: Incident :: Flagged(map[0 := i]) == {0}
  {
    var i := Incident(0, 0, None, "open", "isp_outage", "critical", 0.92, 0.0, "1.0.0", 1, ["a", "a"], []);
    hide Flagged;
    assert i.agents[0] == i.agents[1];
    IncidentMismatchesAreRepeats(map[0 := i]);
  }

  function StatusText(s: Incidents.Status): string {
    match s
    case Candidate => "candidate"
    case Open => "open"
    case Ongoing => "ongoing"
    case Recovering => "recovering"
    case Resolved => "resolved"
  }

  function SeverityText(s: Incidents.Severity): string { match s case Warning => "warning" case Critical => "critical" }

  lemma TextsDiffer(a: Incidents.Status, b: Incidents.Status, x: Incidents.Severity, y: Incidents.Severity)
    ensures StatusText(a) == StatusText(b) ==> a == b
    ensures SeverityText(x) == SeverityText(y) ==> x == y
  {
  }

  /** The classifier's incident table as the refresh job reads it. */
  function Stored(rows: map<nat, IncidentStore.Row>, rules: string): map<nat, Incident> {
    map id | id in rows :: var r := rows[id];
      Incident(id, r.start, r.end, StatusText(r.status), Classify.KindText(r.finding.kind),
               SeverityText(r.finding.severity), r.finding.confidence, r.duration as real, rules, r.revision,
               r.finding.agents, r.finding.endpoints)
  }

  /** Over every table that the classifier brings about the incident reconciliation is clean
      after a refresh: no finding repeats a member, and a row holds the members of its last
      finding. */
  lemma ClassifiedIncidentsReconcile(c: Incidents.Config, name: Lifecycle.Naming, db: IncidentStore.Database,
                                     lives: IncidentStore.Lives, clock: int, rules: string)
    requires IncidentStore.Consistent(c, name, db, lives, clock)
    ensures Flagged(Stored(db.incidents, rules)) == {}
  {
    hide Flagged, IncidentStore.Living, Distinct;
    IncidentMismatchesAreRepeats(Stored(db.incidents, rules));
    forall id | id in db.incidents
      ensures Distinct(db.incidents[id].finding.agents) && Distinct(db.incidents[id].finding.endpoints)
    {
      IncidentStore.StoredMembersDistinct(c, lives[id]);
    }
  }

  /** A transition that the classifier persists after the refresh is flagged until the next. */
  lemma PersistedSinceIsFlagged(c: Incidents.Config, name: Lifecycle.Naming, db: IncidentStore.Database,
                                lives: IncidentStore.Lives, clock: int, at: int, t: Incidents.Transition,
                                o: IncidentStore.Observation, m: Incidents.Message, rules: string,
                                agents: set<(nat, string)>, endpoints: set<(nat, string)>)
    requires IncidentStore.Consistent(c, name, db, lives, clock) && IncidentStore.Due(c, name, at, lives, t, o)
    ensures var before, after := db.incidents, IncidentStore.Persisted(db, t, m).incidents;
      t.id in MismatchedIncidents(SourceTallies(Stored(after, rules)),
                                  FactTallies(IncidentFacts(Stored(before, rules)), agents, endpoints))
  {
    hide IncidentStore.Consistent, IncidentStore.Due, MismatchedIncidents, SourceTallies, FactTallies;
    IncidentStore.DueRevision(c, name, db, lives, clock, at, t, o, m);
    var before, after := db.incidents, IncidentStore.Persisted(db, t, m).incidents;
    FlaggedIff(Stored(after, rules), IncidentFacts(Stored(before, rules)), agents, endpoints);
    Changed(before, after, rules, agents, endpoints, t.id);
  }

  /** An incident whose revision moved, or that is new, does not tell what its copy tells. */
  lemma Changed(before: map<nat, IncidentStore.Row>, after: map<nat, IncidentStore.Row>, rules: string,
                agents: set<(nat, string)>, endpoints: set<(nat, string)>, id: nat)
    requires id in after && (id in before ==> after[id].revision != before[id].revision)
    ensures id in Stored(after, rules)
    ensures !SameIncident(Stored(after, rules), IncidentFacts(Stored(before, rules)), agents, endpoints, id)
  {
    hide StatusText, SeverityText, Classify.KindText;
  }

  // ------------------------------------------------------------------ constraints and conservation

  /** The CHECK constraints of the fact table. */
  predicate MeetsChecks(f: Fact) {
    && f.total > 0
    && f.successes + f.failures == f.total
    && f.latencyCount <= f.total && f.lossCount <= f.total
    && (f.latencyCount == 0 <==> f.latencySum.None?)
    && (f.lossCount == 0 <==> f.lossSum.None?)
  }

  lemma {:induction false} SplitCount(rows: seq<Observation>)
    ensures |Filter((o: Observation) => o.success, rows)| + |Filter((o: Observation) => !o.success, rows)| == |rows|
  {
    if rows != [] {
      SplitCount(rows[1..]);
    }
  }

  lemma FactMeetsChecks(rows: seq<Observation>)
    requires rows != []
    ensures MeetsChecks(FactOf(rows))
  {
    hide SqlSum, SqlCount, Filter;
    SplitCount(rows);
    var latency, loss := Map((o: Observation) => o.latency, rows), Map((o: Observation) => o.loss, rows);
    SumNullIffNoValue(latency);
    SumNullIffNoValue(loss);
    CountBound(latency);
    CountBound(loss);
  }

  /** No aggregation can violate the table's constraints. */
  lemma AggregateMeetsChecks(obs: seq<Observation>, g: Grain)
    ensures g in Aggregate(obs) ==> MeetsChecks(Aggregate(obs)[g])
  {
    hide FactOf, MeetsChecks;
    if g !in Aggregate(obs) {
      return;
    }
    var o :| o in obs && GrainOf(o) == g;
    assert o in RowsOf(obs, g);
    FactMeetsChecks(RowsOf(obs, g));
  }

  lemma CountBound(vs: seq<Option<real>>)
    ensures SqlCount(vs) <= |vs|
  {
  }

  /** A column added up over a set of grains. */
  ghost function ColumnOver(col: Column, facts: Facts, keys: set<Grain>): real
    requires keys <= facts.Keys
    decreases |keys|
  {
    if keys == {} then 0.0
    else
      var g :| g in keys;
      ValueOf(col, facts[g]) + ColumnOver(col, facts, keys - {g})
  }

  lemma {:induction false} ColumnsAgree(col: Column, a: Facts, b: Facts, keys: set<Grain>)
    requires keys <= a.Keys && keys <= b.Keys && forall g :: g in keys ==> a[g] == b[g]
    ensures ColumnOver(col, a, keys) == ColumnOver(col, b, keys)
    decreases |keys|
  {
    hide ValueOf;
    if keys != {} {
      var g :| g in keys && ColumnOver(col, a, keys) == ValueOf(col, a[g]) + ColumnOver(col, a, keys - {g})
                         && ColumnOver(col, b, keys) == ValueOf(col, b[g]) + ColumnOver(col, b, keys - {g});
      ColumnsAgree(col, a, b, keys - {g});
    }
  }

  lemma FactAt(obs: seq<Observation>, g: Grain)
    requires g in Aggregate(obs)
    ensures Aggregate(obs)[g] == FactOf(RowsOf(obs, g))
  {
  }

  lemma FirstGrain(obs: seq<Observation>)
    requires obs != []
    ensures GrainOf(obs[0]) in Aggregate(obs)
  {
  }

  /** Grouping conserves every column: each observation adds to exactly one fact. */
  lemma {:induction false} ColumnsAreRows(col: Column, obs: seq<Observation>)
    ensures ColumnOver(col, Aggregate(obs), Aggregate(obs).Keys) == SumOf(Part(col), obs)
    decreases |Aggregate(obs).Keys|
  {
    hide Aggregate, Filter, RowsOf, FactOf, ValueOf, Part;
    var agg := Aggregate(obs);
    var keys := agg.Keys;
    if keys == {} {
      if obs != [] { FirstGrain(obs); }
    } else {
      var g :| g in keys && ColumnOver(col, agg, keys) == ValueOf(col, agg[g]) + ColumnOver(col, agg, keys - {g});
      var rest := Filter((o: Observation) => GrainOf(o) != g, obs);
      RestAggregate(obs, rest, g);
      ColumnsAreRows(col, rest);
      ColumnsAgree(col, agg, Aggregate(rest), keys - {g});
      GrainSplit(col, obs, g);
      FactAt(obs, g);
      ColumnSums(col, RowsOf(obs, g));
    }
  }

  lemma {:induction false} GrainSplit(col: Column, obs: seq<Observation>, g: Grain)
    ensures SumOf(Part(col), RowsOf(obs, g)) + SumOf(Part(col), Filter((o: Observation) => GrainOf(o) != g, obs))
         == SumOf(Part(col), obs)
  {
    hide Part, Filter, RowsOf;
    if obs == [] {
      NoRows(g);
    } else {
      GrainSplit(col, obs[1..], g);
      RowsCons(obs, g);
    }
  }

  lemma NoRows(g: Grain)
    ensures RowsOf([], g) == [] && Filter((o: Observation) => GrainOf(o) != g, []) == []
  {
  }

  lemma RowsCons(obs: seq<Observation>, g: Grain)
    requires obs != []
    ensures var mine, rest := RowsOf(obs, g), RowsOf(obs[1..], g);
      if GrainOf(obs[0]) == g then mine != [] && mine[0] == obs[0] && mine[1..] == rest else mine == rest
    ensures var mine := Filter((o: Observation) => GrainOf(o) != g, obs);
      var rest := Filter((o: Observation) => GrainOf(o) != g, obs[1..]);
      if GrainOf(obs[0]) != g then mine != [] && mine[0] == obs[0] && mine[1..] == rest else mine == rest
  {
  }

  lemma RestAggregate(obs: seq<Observation>, rest: seq<Observation>, g: Grain)
    requires rest == Filter((o: Observation) => GrainOf(o) != g, obs)
    ensures Aggregate(rest).Keys == Aggregate(obs).Keys - {g}
    ensures forall h :: h in Aggregate(rest) ==> Aggregate(rest)[h] == Aggregate(obs)[h]
  {
    hide FactOf;
    forall h ensures h in Aggregate(rest).Keys <==> h in Aggregate(obs).Keys - {g} {
      if h in Aggregate(obs).Keys - {g} {
        var o :| o in obs && GrainOf(o) == h;
        assert o in rest;
      }
    }
    forall h | h in Aggregate(rest) ensures Aggregate(rest)[h] == Aggregate(obs)[h] {
      var p, q := (o: Observation) => GrainOf(o) == h, (o: Observation) => GrainOf(o) != g;
      FilterTwice(p, q, p, obs);
    }
  }

  /** The row lies in the range of UTC days. */
  function MeasuredIn(from: int, through: int): Measurement -> bool {
    (m: Measurement) => from * 86_400_000_000 <= m.time < (through + 1) * 86_400_000_000
  }

  function CheckedIn(from: int, through: int): Check -> bool {
    (c: Check) => from * 86_400_000_000 <= c.time < (through + 1) * 86_400_000_000
  }

  /** After a refresh every column of the range's facts (totals, successes, failures, latency
      and loss) adds up to what the typed rows of the range add. */
  lemma ColumnsConserved(s: Source, facts: Facts, from: int, through: int, col: Column)
    ensures var after := InDates(Refreshed(facts, Observations(s), from, through), from, through);
      ColumnOver(col, after, after.Keys)
      == SumOf(OfRow(col), Filter(MeasuredIn(from, through), s.measurements))
         + SumOf(OfService(col), Filter(CheckedIn(from, through), s.checks))
  {
    hide Observations, Aggregate, Refreshed, ColumnOver, SumOf, Filter, Part, OfRow, OfService;
    var obs := Observations(s);
    var after := InDates(Refreshed(facts, obs, from, through), from, through);
    CleanAfterRefresh(s, facts, from, through, from, through);
    MismatchesAreDifferences(Expected(s, from, through), after);
    ColumnsAreRows(col, Window(obs, from, through));
    SelectedSums(col, s, (o: Observation) => InBounds(o.time, from, through), MeasuredIn(from, through),
                 CheckedIn(from, through));
  }

  // ------------------------------------------------------------------ reporting validation

  /** SQL truth: null is neither. */
  type Truth = Option<bool>

  function Or(a: Truth, b: Truth): Truth {
    if a == Some(true) || b == Some(true) then Some(true)
    else if a == Some(false) && b == Some(false) then Some(false)
    else None
  }

  function NotBetween(x: Option<real>, lo: real, hi: real): Truth {
    if x.None? then None else Some(!(lo <= x.value <= hi))
  }

  function Ratio(scale: real, x: Option<real>, n: nat): Option<real> {
    if x.None? || n == 0 then None else Some(scale * x.value / (n as real))
  }

  /** The view's derived columns. */
  function SuccessRate(f: Fact): Option<real> { Ratio(100.0, Some(f.successes as real), f.total) }
  function MeanLatency(f: Fact): Option<real> { Ratio(1.0, f.latencySum, f.latencyCount) }
  function MeanLoss(f: Fact): Option<real> { Ratio(1.0, f.lossSum, f.lossCount) }

  /** The validator's condition on one row of the view. */
  function Invalid(f: Fact): Truth {
    Or(Or(Or(Some(f.total != f.successes + f.failures),
             NotBetween(SuccessRate(f), 0.0, 100.0)),
          if MeanLatency(f).None? then None else Some(MeanLatency(f).value < 0.0)),
       NotBetween(MeanLoss(f), 0.0, 100.0))
  }

  /** A fact that the validator does not report: its counts add up, its successes are among its
      total, and its means, where it has any, are not negative and of losses at most 100. */
  predicate Reportable(f: Fact) {
    && f.total == f.successes + f.failures
    && (f.latencySum.Some? && f.latencyCount > 0 ==> f.latencySum.value >= 0.0)
    && (f.lossSum.Some? && f.lossCount > 0 ==> 0.0 <= f.lossSum.value <= 100.0 * (f.lossCount as real))
  }

  /** Read off the columns: which facts the validator reports, nulls reporting nothing. */
  lemma InvalidIff(f: Fact)
    ensures Invalid(f) == Some(true) <==> !Reportable(f)
  {
    hide Ratio;
    RatioBetween(100.0, f.successes as real, f.total, 100.0);
    if f.latencySum.Some? { RatioBetween(1.0, f.latencySum.value, f.latencyCount, 0.0); }
    if f.lossSum.Some? { RatioBetween(1.0, f.lossSum.value, f.lossCount, 100.0); }
    RatioNull(100.0, Some(f.successes as real), f.total);
    RatioNull(1.0, f.latencySum, f.latencyCount);
    RatioNull(1.0, f.lossSum, f.lossCount);
  }

  lemma RatioNull(scale: real, x: Option<real>, n: nat)
    ensures Ratio(scale, x, n).None? <==> x.None? || n == 0
  {
  }

  lemma RatioBetween(scale: real, x: real, n: nat, hi: real)
    requires scale > 0.0
    ensures n > 0 ==> var r := Ratio(scale, Some(x), n);
      r.Some? && (r.value < 0.0 <==> x < 0.0) && (r.value <= hi <==> scale * x <= hi * (n as real))
  {
    if n > 0 {
      var d, q := n as real, scale * x / (n as real);
      assert q * d == scale * x;
      SignOf(q, d);
      SignOf(hi - q, d);
      SignOf(x, scale);
      assert (hi - q) * d == hi * d - scale * x;
      assert x * scale == scale * x;
    }
  }

  lemma SignOf(a: real, d: real)
    requires d > 0.0
    ensures (a * d < 0.0 <==> a < 0.0) && (a * d >= 0.0 <==> a >= 0.0)
  {
  }

  function InvalidRows(facts: Facts, from: int, through: int): set<Grain> {
    set g | g in facts && from <= g.date <= through && Invalid(facts[g]) == Some(true)
  }

  /** The typed tables' own checks: durations are not negative, losses are percentages. */
  predicate ValidObservation(o: Observation) {
    && (o.latency.Some? ==> o.latency.value >= 0.0)
    && (o.loss.Some? ==> 0.0 <= o.loss.value <= 100.0)
  }

  lemma CountCons(vs: seq<Option<real>>)
    requires vs != []
    ensures SqlCount(vs) == SqlCount(vs[1..]) + if vs[0].Some? then 1 else 0
  {
  }

  lemma TimesNext(hi: real, n: nat)
    ensures hi * ((n + 1) as real) == hi * (n as real) + hi
  {
    assert (n + 1) as real == n as real + 1.0;
  }

  lemma {:induction false} SumBounds(vs: seq<Option<real>>, hi: real)
    requires forall i :: 0 <= i < |vs| && vs[i].Some? ==> 0.0 <= vs[i].value <= hi
    ensures SqlSum(vs).Some? ==> 0.0 <= SqlSum(vs).value <= hi * (SqlCount(vs) as real)
  {
    hide SqlCount;
    if vs != [] {
      SumBounds(vs[1..], hi);
      SumNullIffNoValue(vs[1..]);
      CountCons(vs);
      TimesNext(hi, SqlCount(vs[1..]));
    }
  }

  lemma {:induction false} SumNonNegative(vs: seq<Option<real>>)
    requires forall i :: 0 <= i < |vs| && vs[i].Some? ==> 0.0 <= vs[i].value
    ensures SqlSum(vs).Some? ==> 0.0 <= SqlSum(vs).value
  {
    if vs != [] {
      SumNonNegative(vs[1..]);
    }
  }

  lemma CancelLe(a: real, b: real, d: real)
    requires d > 0.0 && a * d <= b * d
    ensures a <= b
  {
    assert (b - a) * d >= 0.0;
  }

  lemma MeanBounds(y: real, d: real, hi: real)
    requires d > 0.0 && 0.0 <= y <= hi * d
    ensures 0.0 <= y / d <= hi
  {
    assert y / d * d == y;
    CancelLe(0.0, y / d, d);
    CancelLe(y / d, hi, d);
  }

  lemma RateInRange(f: Fact)
    requires MeetsChecks(f)
    ensures NotBetween(SuccessRate(f), 0.0, 100.0) == Some(false)
  {
    MeanBounds(100.0 * (f.successes as real), f.total as real, 100.0);
  }

  lemma LossInRange(rows: seq<Observation>)
    requires forall i :: 0 <= i < |rows| ==> ValidObservation(rows[i])
    ensures NotBetween(MeanLoss(FactOf(rows)), 0.0, 100.0) != Some(true)
  {
    hide SqlSum, SqlCount, Filter;
    var f, loss := FactOf(rows), Map((o: Observation) => o.loss, rows);
    SumBounds(loss, 100.0);
    SumNullIffNoValue(loss);
    if f.lossSum.Some? { MeanBounds(f.lossSum.value, f.lossCount as real, 100.0); }
  }

  lemma LatencyInRange(rows: seq<Observation>)
    requires forall i :: 0 <= i < |rows| ==> ValidObservation(rows[i])
    ensures MeanLatency(FactOf(rows)).Some? ==> MeanLatency(FactOf(rows)).value >= 0.0
  {
    hide SqlSum, SqlCount, Filter;
    var f, latency := FactOf(rows), Map((o: Observation) => o.latency, rows);
    SumNonNegative(latency);
    if f.latencySum.Some? && f.latencyCount > 0 { Quotient(f.latencySum.value, f.latencyCount as real); }
  }

  lemma Quotient(y: real, d: real)
    requires y >= 0.0 && d > 0.0
    ensures y / d >= 0.0
  {
    assert y / d * d == y;
    CancelLe(0.0, y / d, d);
  }

  /** Means of values within limits stay within them: the validator accepts every fact
      that the refresh can compute. */
  lemma AggregateIsReportable(obs: seq<Observation>, g: Grain)
    requires forall o :: o in obs ==> ValidObservation(o)
    ensures g in Aggregate(obs) ==> Invalid(Aggregate(obs)[g]) != Some(true)
  {
    hide FactOf, SuccessRate, MeanLatency, MeanLoss, NotBetween, ValidObservation;
    if g !in Aggregate(obs) {
      return;
    }
    var rows := RowsOf(obs, g);
    AggregateMeetsChecks(obs, g);
    forall i | 0 <= i < |rows| ensures ValidObservation(rows[i]) { assert rows[i] in rows; }
    RateInRange(Aggregate(obs)[g]);
    LatencyInRange(rows);
    LossInRange(rows);
  }

  /** The validator's verdict: no invalid row, and the run it names refreshed this range.
      A repeated grain cannot occur, since the grain is the fact table's primary key. */
  predicate ReportingValid(facts: Facts, runs: seq<Run>, from: int, through: int, id: nat) {
    && InvalidRows(facts, from, through) == {}
    && id < |runs| && runs[id].from == Some(from) && runs[id].through == Some(through) && !runs[id].isAll
  }

  /** The validation passes exactly when every fact of the range is reportable and the run named
      is a run over this very range. */
  lemma ReportingValidIff(facts: Facts, runs: seq<Run>, from: int, through: int, id: nat)
    ensures ReportingValid(facts, runs, from, through, id) <==>
      && (forall g :: g in facts && from <= g.date <= through ==> Reportable(facts[g]))
      && id < |runs| && runs[id].from == Some(from) && runs[id].through == Some(through) && !runs[id].isAll
  {
    hide Invalid, Reportable;
    forall g | g in facts ensures Invalid(facts[g]) == Some(true) <==> !Reportable(facts[g]) { InvalidIff(facts[g]); }
    if g :| g in facts && from <= g.date <= through && !Reportable(facts[g]) {
      assert g in InvalidRows(facts, from, through);
    }
  }

  /** The reporting validation of a run passes right after the run refreshed its range. */
  lemma ReportingValidAfterRefresh(s: Source, facts: Facts, runs: seq<Run>, run: Run, from: int, through: int)
    requires forall o :: o in Observations(s) ==> ValidObservation(o)
    requires run.from == Some(from) && run.through == Some(through) && !run.isAll
    ensures ReportingValid(Refreshed(facts, Observations(s), from, through), runs + [run], from, through, |runs|)
  {
    hide Aggregate, Refreshed, Invalid, Observations;
    var obs := Observations(s);
    var after := Refreshed(facts, obs, from, through);
    forall g | g in after && from <= g.date <= through ensures Invalid(after[g]) != Some(true) {
      RefreshPointwise(facts, obs, from, through, g);
      AggregateIsReportable(obs, g);
    }
  }
}
