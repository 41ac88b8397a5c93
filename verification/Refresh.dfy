/** The refresh job: bounds, one all-or-nothing transaction, and what a history of source
    changes and refreshes leaves in the fact table. */
module Refresh {
  import opened Prelude
  import opened Order
  import opened Analytics

  datatype Selection = Range(from: Option<int>, through: Option<int>) | All

  datatype Incident = Incident(id: nat, start: int, end: Option<int>, status: string, kind: string, severity: string,
                               confidence: real, duration: real, rules: string, revision: nat,
                               agents: seq<string>, endpoints: seq<string>)
  datatype IncidentFact = IncidentFact(start: int, end: Option<int>, status: string, kind: string, severity: string,
                                       confidence: real, duration: real, rules: string, revision: nat)

  datatype Run = Run(from: Option<int>, through: Option<int>, isAll: bool, dailyRows: nat, incidentRows: nat)
  datatype Failure = AlreadyRunning | MissingDate | UnknownMember | CheckViolation

  // ------------------------------------------------------------------ bounds

  /** The UTC dates of both typed tables and of the fact table. */
  function AllDates(s: Source, facts: Facts): set<int> {
    (set o | o in Observations(s) :: DateOf(o.time)) + (set g | g in facts :: g.date)
  }

  function Earlier(): (int, int) -> bool { (a: int, b: int) => a < b }
  function Later(): (int, int) -> bool { (a: int, b: int) => a > b }

  /** SELECT MIN(date), MAX(date): none over no rows. */
  function Extremes(s: set<int>): (r: Option<(int, int)>)
    ensures r.None? <==> s == {}
    ensures r.Some? ==> r.value.0 in s && r.value.1 in s && forall d :: d in s ==> r.value.0 <= d <= r.value.1
  {
    if s == {} then None else Some((Least(Earlier(), s), Least(Later(), s)))
  }

  /** generate_series over days. */
  function Days(from: int, through: int): (days: set<int>)
    ensures forall d :: d in days <==> from <= d <= through
    decreases through - from + 1
  {
    if from > through then {} else Days(from, through - 1) + {through}
  }

  function Bounds(sel: Selection, s: Source, facts: Facts): Result<Option<(int, int)>, Failure> {
    match sel
    case All => Ok(Extremes(AllDates(s, facts)))
    case Range(from, through) =>
      if from.None? || through.None? then Err(MissingDate) else Ok(Some((from.value, through.value)))
  }

  function AllRefreshed(s: Source, facts: Facts): Facts {
    match Extremes(AllDates(s, facts))
    case None => facts
    case Some((lo, hi)) => Refreshed(facts, Observations(s), lo, hi)
  }

  /** A refresh of everything leaves the aggregation of the whole source: no stale row
      survives, however the facts came to be. */
  lemma AllIsFull(s: Source, facts: Facts)
    ensures AllRefreshed(s, facts) == Aggregate(Observations(s))
  {
    hide Refreshed, Observations, Extremes;
    var obs, dates := Observations(s), AllDates(s, facts);
    if dates == {} {
      forall g ensures Lookup(facts, g) == Lookup(Aggregate(obs), g) { DatesCover(s, facts, g); }
      MapsEqual(facts, Aggregate(obs));
    } else {
      var (lo, hi) := Extremes(dates).value;
      forall g ensures Lookup(Refreshed(facts, obs, lo, hi), g) == Lookup(Aggregate(obs), g) {
        RefreshPointwise(facts, obs, lo, hi, g);
        DatesCover(s, facts, g);
      }
      MapsEqual(Refreshed(facts, obs, lo, hi), Aggregate(obs));
    }
  }

  /** A date on neither side has neither facts nor observations. */
  lemma DatesCover(s: Source, facts: Facts, g: Grain)
    ensures g.date !in AllDates(s, facts) ==> Lookup(facts, g) == Lookup(Aggregate(Observations(s)), g) == None
  {
    hide Observations;
    if g in Aggregate(Observations(s)) {
      var o :| o in Observations(s) && GrainOf(o) == g;
      assert DateOf(o.time) in AllDates(s, facts);
    }
  }

  // ------------------------------------------------------------------ the job

  function IncidentFacts(incidents: map<nat, Incident>): map<nat, IncidentFact> {
    map id | id in incidents :: var i := incidents[id];
      IncidentFact(i.start, i.end, i.status, i.kind, i.severity, i.confidence, i.duration, i.rules, i.revision)
  }

  /** Every column of the incident that the fact has. */
  predicate Copied(i: Incident, f: IncidentFact) {
    && f.start == i.start && f.end == i.end && f.status == i.status && f.kind == i.kind && f.severity == i.severity
    && f.confidence == i.confidence && f.duration == i.duration && f.rules == i.rules && f.revision == i.revision
  }

  /** SELECT DISTINCT id, member over the unnested arrays. */
  function Bridge(incidents: map<nat, Incident>, members: Incident -> seq<string>): set<(nat, string)> {
    set id, m | id in incidents && m in members(incidents[id]) :: (id, m)
  }

  /** A registered agent or endpoint: its role or type, and its display name. */
  datatype Registered = Registered(kind: string, name: string)
  type Register = map<string, Registered>

  datatype Dimensions = Dimensions(dates: set<int>, agents: Register, endpoints: Register,
                                   probes: set<(SourceKind, string)>)

  /** Foreign keys of the daily facts. */
  predicate Referential(facts: Facts, d: Dimensions) {
    forall g :: g in facts ==>
      g.date in d.dates && g.agent in d.agents && g.endpoint in d.endpoints && (g.source, g.probe) in d.probes
  }

  /** Foreign keys of a bridge table. */
  predicate Bridged(bridge: set<(nat, string)>, facts: map<nat, IncidentFact>, members: Register) {
    forall p :: p in bridge ==> p.0 in facts && p.1 in members
  }

  /** Foreign keys of the typed tables. */
  predicate Sourced(obs: seq<Observation>, agents: Register, endpoints: Register) {
    forall o :: o in obs ==> o.agent in agents && o.endpoint in endpoints
  }

  /** Every member that an incident lists is registered. The incident table itself does not
      insist on it: its arrays are JSON. */
  predicate MembersKnown(incidents: map<nat, Incident>, agents: Register, endpoints: Register) {
    forall id :: id in incidents ==>
      && (forall a :: a in incidents[id].agents ==> a in agents)
      && (forall e :: e in incidents[id].endpoints ==> e in endpoints)
  }

  function ProbesOf(obs: seq<Observation>): set<(SourceKind, string)> { set o | o in obs :: (o.source, o.probe) }

  function InDates(facts: Facts, from: int, through: int): Facts {
    map g | g in facts && from <= g.date <= through :: facts[g]
  }

  class Repository {
    // Operational tables, written by other programs.
    var source: Source
    var incidents: map<nat, Incident>
    var agents: Register
    var endpoints: Register
    // Analytics tables.
    var dimensions: Dimensions
    var facts: Facts
    var incidentFacts: map<nat, IncidentFact>
    var bridgeAgents: set<(nat, string)>
    var bridgeEndpoints: set<(nat, string)>
    var runs: seq<Run>

    /** Every foreign key holds. */
    predicate Valid()
      reads this
    {
      && Sourced(Observations(source), agents, endpoints)
      && dimensions.agents.Keys <= agents.Keys && dimensions.endpoints.Keys <= endpoints.Keys
      && Referential(facts, dimensions)
      && Bridged(bridgeAgents, incidentFacts, dimensions.agents)
      && Bridged(bridgeEndpoints, incidentFacts, dimensions.endpoints)
    }

    constructor (source: Source, incidents: map<nat, Incident>, agents: Register, endpoints: Register)
      requires Sourced(Observations(source), agents, endpoints)
      ensures Valid() && this.source == source && this.incidents == incidents
      ensures this.agents == agents && this.endpoints == endpoints
      ensures facts == map[] && incidentFacts == map[] && runs == []
    {
      this.source, this.incidents, this.agents, this.endpoints := source, incidents, agents, endpoints;
      dimensions, facts := Dimensions({}, map[], map[], {}), map[];
      incidentFacts, bridgeAgents, bridgeEndpoints, runs := map[], {}, {}, [];
    }

    /** Dimensions and daily facts as the transaction leaves them, and the rows inserted. */
    method Rebuild(bounds: Option<(int, int)>) returns (rows: Dimensions, newFacts: Facts, dailyRows: nat)
      requires Valid()
      ensures Referential(newFacts, rows) && rows.agents == agents && rows.endpoints == endpoints
      ensures bounds.None? ==> newFacts == facts && dailyRows == 0
      ensures bounds.Some? ==> var (from, through) := bounds.value;
        && newFacts == Refreshed(facts, Observations(source), from, through)
        && dailyRows == |InDates(newFacts, from, through)|
    {
      hide Refreshed, Aggregate, Observations, Days, Referential, ProbesOf, Sourced, Bridged, Window, InDates;
      UpsertsAll(dimensions.agents, agents);
      UpsertsAll(dimensions.endpoints, endpoints);
      var obs := Observations(source);
      rows := Dimensions(dimensions.dates, dimensions.agents + agents, dimensions.endpoints + endpoints,
                         dimensions.probes + ProbesOf(obs));
      newFacts, dailyRows := facts, 0;
      if bounds.Some? {
        var (from, through) := bounds.value;
        rows := rows.(dates := rows.dates + Days(from, through));
        newFacts := Refreshed(facts, obs, from, through);
        dailyRows := |Aggregate(Window(obs, from, through))|;
        RowsRebuilt(facts, obs, from, through);
        RefreshReferential(facts, obs, from, through, dimensions, rows);
      } else {
        StaysReferential(facts, dimensions, rows);
      }
    }

    /** One run. It fails without any effect when another run holds the lock, when an
        explicit range lacks a date, when an incident lists a member that is not registered,
        or when the run record would violate its check; otherwise the range is rebuilt,
        everything else kept, and the run recorded. */
    method RunJob(sel: Selection, lockFree: bool) returns (r: Result<Run, Failure>)
      requires Valid()
      modifies this
      ensures Valid() && source == old(source) && incidents == old(incidents)
      ensures agents == old(agents) && endpoints == old(endpoints)
      ensures r.Err? <==>
        || !lockFree
        || (sel.Range? && (sel.from.None? || sel.through.None? || sel.from.value > sel.through.value))
        || !MembersKnown(incidents, agents, endpoints)
      ensures r.Err? ==> unchanged(this)
      ensures r.Ok? ==> facts == match sel
        case All => Aggregate(Observations(source))
        case Range(from, through) => Refreshed(old(facts), Observations(source), from.value, through.value)
      ensures r.Ok? ==> dimensions.agents == agents && dimensions.endpoints == endpoints
      ensures r.Ok? ==> incidentFacts == IncidentFacts(incidents)
      ensures r.Ok? ==> bridgeAgents == Bridge(incidents, (i: Incident) => i.agents)
      ensures r.Ok? ==> bridgeEndpoints == Bridge(incidents, (i: Incident) => i.endpoints)
      ensures r.Ok? ==> runs == old(runs) + [r.value] && r.value.isAll == sel.All?
      ensures r.Ok? ==> r.value.incidentRows == |incidentFacts|
      ensures r.Ok? && sel.All? ==> r.value.dailyRows == |facts|
      ensures r.Ok? && sel.Range? ==> r.value.dailyRows == |InDates(facts, sel.from.value, sel.through.value)|
      ensures r.Ok? && sel.Range? ==> r.value.from == sel.from && r.value.through == sel.through
    {
      hide Refreshed, Aggregate, Observations, Extremes, Bridge, IncidentFacts, Referential, MembersKnown, Sourced,
           Bridged, InDates, AllDates;
      if !lockFree {
        return Err(AlreadyRunning);
      }
      var bounds := Bounds(sel, source, facts);
      if bounds.Err? {
        return Err(bounds.error);
      }
      var rows, newFacts, dailyRows := Rebuild(bounds.value);
      AllIsFull(source, facts);
      AllRows(source, facts);
      if !MembersKnown(incidents, rows.agents, rows.endpoints) {
        return Err(UnknownMember);
      }
      if sel.Range? && sel.from.value > sel.through.value {
        return Err(CheckViolation);
      }
      BridgesHold(incidents, rows.agents, rows.endpoints);
      dimensions, facts := rows, newFacts;
      incidentFacts := IncidentFacts(incidents);
      bridgeAgents := Bridge(incidents, (i: Incident) => i.agents);
      bridgeEndpoints := Bridge(incidents, (i: Incident) => i.endpoints);
      var run := if sel.All? then Run(None, None, true, dailyRows, |incidentFacts|)
                 else Run(sel.from, sel.through, false, dailyRows, |incidentFacts|);
      runs := runs + [run];
      return Ok(run);
    }
  }

  /** Every incident is copied, all its columns, and every member of its arrays is bridged. */
  lemma IncidentsCopied(incidents: map<nat, Incident>)
    ensures IncidentFacts(incidents).Keys == incidents.Keys
    ensures forall id :: id in incidents ==> Copied(incidents[id], IncidentFacts(incidents)[id])
    ensures var agents := Bridge(incidents, (i: Incident) => i.agents);
      forall id, m :: (id, m) in agents <==> id in incidents && m in incidents[id].agents
    ensures var endpoints := Bridge(incidents, (i: Incident) => i.endpoints);
      forall id, m :: (id, m) in endpoints <==> id in incidents && m in incidents[id].endpoints
  {
  }

  /** The rows inserted are the facts that the range then has. */
  lemma RowsRebuilt(facts: Facts, obs: seq<Observation>, from: int, through: int)
    ensures |Aggregate(Window(obs, from, through))| == |InDates(Refreshed(facts, obs, from, through), from, through)|
  {
    hide Aggregate, Refreshed;
    forall g ensures Lookup(Aggregate(Window(obs, from, through)), g)
                  == Lookup(InDates(Refreshed(facts, obs, from, through), from, through), g)
    {
      WindowAggregate(obs, from, through, g);
      RefreshPointwise(facts, obs, from, through, g);
    }
    MapsEqual(Aggregate(Window(obs, from, through)), InDates(Refreshed(facts, obs, from, through), from, through));
  }

  /** An all-dates run inserts every fact there is afterwards. */
  lemma AllRows(s: Source, facts: Facts)
    ensures match Extremes(AllDates(s, facts))
      case None => facts == map[] && Aggregate(Observations(s)) == map[]
      case Some((lo, hi)) => InDates(Aggregate(Observations(s)), lo, hi) == Aggregate(Observations(s))
  {
    hide Extremes, Refreshed, Aggregate, Observations;
    var all := Aggregate(Observations(s));
    forall g | g in all || g in facts ensures g.date in AllDates(s, facts) { DatesCover(s, facts, g); }
    if AllDates(s, facts) == {} {
      assert all == map[] && facts == map[];
    }
  }

  /** INSERT … ON CONFLICT DO UPDATE from a register that has every earlier row. */
  lemma UpsertsAll(rows: Register, register: Register)
    requires rows.Keys <= register.Keys
    ensures rows + register == register
  {
  }

  lemma StaysReferential(facts: Facts, d: Dimensions, later: Dimensions)
    requires Referential(facts, d) && d.dates <= later.dates && d.probes <= later.probes
    requires d.agents.Keys <= later.agents.Keys && d.endpoints.Keys <= later.endpoints.Keys
    ensures Referential(facts, later)
  {
  }

  lemma BridgesHold(incidents: map<nat, Incident>, agents: Register, endpoints: Register)
    requires MembersKnown(incidents, agents, endpoints)
    ensures Bridged(Bridge(incidents, (i: Incident) => i.agents), IncidentFacts(incidents), agents)
    ensures Bridged(Bridge(incidents, (i: Incident) => i.endpoints), IncidentFacts(incidents), endpoints)
  {
  }

  /** The rebuilt facts refer to dimension rows that the same transaction made sure of. */
  lemma RefreshReferential(facts: Facts, obs: seq<Observation>, from: int, through: int, d: Dimensions,
                           later: Dimensions)
    requires Referential(facts, d) && Sourced(obs, later.agents, later.endpoints)
    requires later.dates == d.dates + Days(from, through) && later.probes == d.probes + ProbesOf(obs)
    requires d.agents.Keys <= later.agents.Keys && d.endpoints.Keys <= later.endpoints.Keys
    ensures Referential(Refreshed(facts, obs, from, through), later)
  {
    hide Refreshed, Aggregate;
    forall g | g in Refreshed(facts, obs, from, through)
      ensures g.date in later.dates && g.agent in later.agents && g.endpoint in later.endpoints
      ensures (g.source, g.probe) in later.probes
    {
      RefreshPointwise(facts, obs, from, through, g);
      if from <= g.date <= through {
        var o := GrainObserved(obs, g);
        assert (o.source, o.probe) in ProbesOf(obs);
      }
    }
  }

  lemma GrainObserved(obs: seq<Observation>, g: Grain) returns (o: Observation)
    requires Lookup(Aggregate(obs), g).Some?
    ensures o in obs && GrainOf(o) == g
  {
    o :| o in obs && GrainOf(o) == g;
  }

  // ------------------------------------------------------------------ histories

  /** Source rows come and go as they please; refreshes rebuild what they cover. */
  datatype Event = SourceBecomes(source: Source) | RangeRefresh(from: int, through: int) | FullRefresh

  /** `asOf` remembers, per date, the source that the last refresh covering it saw. */
  datatype History = History(source: Source, facts: Facts, asOf: map<int, Source>)

  function Covered(asOf: map<int, Source>, from: int, through: int, s: Source): map<int, Source> {
    map d | d in asOf.Keys + Days(from, through) :: if from <= d <= through then s else asOf[d]
  }

  function Apply(h: History, e: Event): History {
    match e
    case SourceBecomes(s) => h.(source := s)
    case RangeRefresh(from, through) =>
      h.(facts := Refreshed(h.facts, Observations(h.source), from, through),
         asOf := Covered(h.asOf, from, through, h.source))
    case FullRefresh =>
      match Extremes(AllDates(h.source, h.facts))
      case None => h
      case Some((lo, hi)) =>
        h.(facts := Refreshed(h.facts, Observations(h.source), lo, hi), asOf := Covered(h.asOf, lo, hi, h.source))
  }

  function Play(h: History, events: seq<Event>): History {
    if events == [] then h else Apply(Play(h, events[..|events| - 1]), events[|events| - 1])
  }

  /** Dates covered by some refresh hold the aggregation of the source as it then was;
      the other dates still hold the rows they started with. */
  ghost predicate Incremental(h: History, initial: Facts) {
    forall g :: Lookup(h.facts, g) ==
      if g.date in h.asOf then Lookup(Aggregate(Observations(h.asOf[g.date])), g) else Lookup(initial, g)
  }

  lemma RefreshKeepsIncremental(h: History, initial: Facts, from: int, through: int)
    requires Incremental(h, initial)
    ensures Incremental(h.(facts := Refreshed(h.facts, Observations(h.source), from, through),
                           asOf := Covered(h.asOf, from, through, h.source)), initial)
  {
    hide Refreshed, Aggregate, Observations, Lookup;
    forall g ensures Lookup(Refreshed(h.facts, Observations(h.source), from, through), g) ==
      var asOf := Covered(h.asOf, from, through, h.source);
      if g.date in asOf then Lookup(Aggregate(Observations(asOf[g.date])), g) else Lookup(initial, g)
    {
      RefreshPointwise(h.facts, Observations(h.source), from, through, g);
    }
  }

  /** Incremental refresh equals full recomputation, date by date, after any interleaving
      of source changes, range refreshes and full refreshes. */
  lemma {:induction false} AnyHistoryIsIncremental(source: Source, initial: Facts, events: seq<Event>)
    ensures Incremental(Play(History(source, initial, map[]), events), initial)
    decreases |events|
  {
    if events != [] {
      var before := Play(History(source, initial, map[]), events[..|events| - 1]);
      AnyHistoryIsIncremental(source, initial, events[..|events| - 1]);
      match events[|events| - 1]
      case SourceBecomes(_) =>
      case RangeRefresh(from, through) => RefreshKeepsIncremental(before, initial, from, through);
      case FullRefresh =>
        match Extremes(AllDates(before.source, before.facts))
        case None =>
        case Some((lo, hi)) => RefreshKeepsIncremental(before, initial, lo, hi);
    }
  }

  /** A history that ends in a full refresh ends with the aggregation of the whole source. */
  lemma FullRefreshForgets(h: History)
    ensures Apply(h, FullRefresh).facts == Aggregate(Observations(h.source))
  {
    AllIsFull(h.source, h.facts);
  }
}
