/** The classifier service: observe, classify, persist, publish. Any call may raise before
    or after its durable effect, and the process may die at any such point; then the next
    cycle starts from the tables and the log alone. */
module IncidentService {
  import opened Prelude
  import opened Order
  import opened Incidents
  import opened Lifecycle
  import opened IncidentStore
  import opened IncidentLog
  import Classify

  // ------------------------------------------------------------------ the cycle's transitions are due

  /** The incidents that the engine is given: each unresolved row, as loaded. */
  ghost predicate Loaded(incidents: map<nat, Row>, active: seq<Active>) {
    && (forall a :: a in active ==>
      a.id in incidents && !incidents[a.id].status.Resolved? && a == ActiveOf(a.id, incidents[a.id]))
    && (forall id :: id in incidents && !incidents[id].status.Resolved? ==> ActiveOf(id, incidents[id]) in active)
  }

  function Seen(at: int, found: Dict<Finding>, k: string): Observation {
    if k in found.at then Hit(at, found.at[k]) else Miss(at)
  }

  /** What the cycle observes of each of its keys. */
  ghost function CycleSeen(at: int, findings: seq<Finding>, active: seq<Active>): (r: seq<Observation>)
    ensures |r| == |CycleKeys(findings, active)|
  {
    Map((k: string) => Seen(at, FindingsByKey(findings), k), CycleKeys(findings, active))
  }

  lemma CycleDue(c: Config, name: Naming, at: int, db: Database, lives: Lives, clock: int,
                 findings: seq<Finding>, active: seq<Active>, i: nat)
    requires Injective(name) && Consistent(c, name, db, lives, clock) && clock < at && Loaded(db.incidents, active)
    requires forall f :: f in findings ==> Sound(f)
    requires i < |CycleKeys(findings, active)|
    ensures Due(c, name, at, lives, CycleMoves(c, name, at, findings, active)[i], CycleSeen(at, findings, active)[i])
    ensures CycleMoves(c, name, at, findings, active)[i].finding.key == CycleKeys(findings, active)[i]
  {
    hide Index, Moves, Living, RowOf, Ended, CycleKeys, Consistent, Due, Sound;
    var found, known, k := FindingsByKey(findings), ActiveByKey(active), CycleKeys(findings, active)[i];
    IndexKeyed((f: Finding) => f.key, findings);
    IndexKeyed((a: Active) => a.key, active);
    CycleConcerns(findings, active);
    MovesAt(c, name, at, found, known, CycleKeys(findings, active), i);
    if k in known.at {
      AdvanceDue(c, name, at, db, lives, clock, known.at[k], Get(found, k));
    } else {
      forall id | id in db.incidents && !db.incidents[id].status.Resolved? ensures db.incidents[id].finding.key != k {
        assert ActiveOf(id, db.incidents[id]) in active;
      }
      BeginDue(c, name, at, db, lives, clock, found.at[k]);
    }
  }

  /** A key without an unresolved incident may begin one. */
  lemma BeginDue(c: Config, name: Naming, at: int, db: Database, lives: Lives, clock: int, f: Finding)
    requires Injective(name) && Consistent(c, name, db, lives, clock) && clock < at && Sound(f)
    requires forall id :: id in db.incidents && !db.incidents[id].status.Resolved? ==>
      db.incidents[id].finding.key != f.key
    ensures Due(c, name, at, lives, Begin(name, at, f), Hit(at, f))
  {
    hide Living, RowOf, Ended, Sound, EventsFold, Apart;
    forall id | id in lives
      ensures RowAgrees(c, name, db, lives, clock, id)
    {
      RowFacts(c, name, db, lives, clock, id);
    }
    assert name(f.key, at) in lives ==> RowAgrees(c, name, db, lives, clock, name(f.key, at));
  }

  ghost predicate RowAgrees(c: Config, name: Naming, db: Database, lives: Lives, clock: int, id: nat) {
    && id in lives && id in db.incidents && lives[id] != [] && lives[id][0].Hit?
    && lives[id][0].at <= Last(lives[id]).at <= clock
    && id == name(lives[id][0].finding.key, lives[id][0].at)
    && db.incidents[id] == RowOf(c, lives[id]) && db.incidents[id].finding.key == lives[id][0].finding.key
    && (db.incidents[id].status.Resolved? <==> Ended(c, lives[id]))
  }

  lemma RowFacts(c: Config, name: Naming, db: Database, lives: Lives, clock: int, id: nat)
    requires Consistent(c, name, db, lives, clock) && id in lives
    ensures RowAgrees(c, name, db, lives, clock, id)
  {
    hide Living, RowOf, Ended, EventsFold, Apart;
    assert Grown(c, name, id, lives[id], clock);
    Ordered(c, lives[id]);
    RowRevision(c, lives[id]);
  }

  /** An unresolved incident may advance, by a hit or by a miss. */
  lemma AdvanceDue(c: Config, name: Naming, at: int, db: Database, lives: Lives, clock: int, a: Active,
                   f: Option<Finding>)
    requires Consistent(c, name, db, lives, clock) && clock < at
    requires a.id in db.incidents && !db.incidents[a.id].status.Resolved? && a == ActiveOf(a.id, db.incidents[a.id])
    requires f.Some? ==> Sound(f.value) && f.value.key == a.key
    ensures Due(c, name, at, lives, if f.Some? then OnHit(c, a, f.value) else OnMiss(c, at, a),
                if f.Some? then Hit(at, f.value) else Miss(at))
  {
    hide Living, RowOf, Ended, Sound, Consistent;
    assert a.id in lives by { hide *; SameKeys(c, name, db, lives, clock); }
    RowFacts(c, name, db, lives, clock, a.id);
    forall id | id in lives && lives[id] != [] && lives[id][0].Hit? && lives[id][0].finding.key == a.key
      ensures Last(lives[id]).at < at && (id == a.id || Ended(c, lives[id]))
    {
      RowFacts(c, name, db, lives, clock, id);
      if id != a.id { LifetimesApart(c, name, db, lives, clock, id, a.id); }
    }
  }

  lemma SameKeys(c: Config, name: Naming, db: Database, lives: Lives, clock: int)
    requires Consistent(c, name, db, lives, clock)
    ensures db.incidents.Keys == lives.Keys
  {
  }

  /** Persisting one key's transition leaves the other keys' transitions due. */
  lemma DueStays(c: Config, name: Naming, at: int, lives: Lives, t: Transition, o: Observation, u: Transition,
                 p: Observation)
    requires Injective(name) && forall id :: id in lives ==> Living(c, lives[id])
    requires Due(c, name, at, lives, t, o) && Due(c, name, at, lives, u, p) && t.finding.key != u.finding.key
    ensures Due(c, name, at, Extended(lives, t.id, o), u, p)
  {
    hide Living, RowOf, Ended, Sound, OnHit, OnMiss;
    var after: Lives := Extended(lives, t.id, o);
    DueLives(c, name, at, lives, t, o);
    assert t.id != u.id;
    assert forall id :: id in after && id != t.id ==> id in lives && after[id] == lives[id];
  }

  // ------------------------------------------------------------------ the tables as an object

  datatype Cause = Interrupted | Rejected(why: Rejection)

  /** The messages of stamped events. */
  function MessagesAt(events: Events, stamps: seq<Stamp>): (r: seq<Message>)
    requires forall s :: s in stamps ==> EventId(s.incident, s.revision) in events
    ensures |r| == |stamps|
    ensures forall i :: 0 <= i < |r| ==> r[i] == events[EventId(stamps[i].incident, stamps[i].revision)].message
  {
    seq(|stamps|, i requires 0 <= i < |stamps| =>
      assert stamps[i] in stamps; events[EventId(stamps[i].incident, stamps[i].revision)].message)
  }

  /** The stamp is an unpublished event's. */
  predicate Waiting(events: Events, s: Stamp) {
    && EventId(s.incident, s.revision) in events && StampOf(events[EventId(s.incident, s.revision)].message) == s
    && !events[EventId(s.incident, s.revision)].published
  }

  lemma PendingKnown(events: Events, s: Stamp)
    requires Labelled(events) && s in Pending(events)
    ensures Waiting(events, s)
  {
  }

  lemma BatchKnown(events: Events, pending: seq<Stamp>, batch: seq<Stamp>)
    requires StrictTotal(Publication()) && pending == Sort(Publication(), Pending(events)) && batch <= pending
    requires Labelled(events)
    ensures forall s :: s in batch ==> Waiting(events, s)
  {
    hide Pending, Labelled;
    SortLists(Publication(), Pending(events));
    forall s | s in batch
      ensures Waiting(events, s)
    {
      assert s in pending;
      PendingKnown(events, s);
    }
  }

  lemma BatchMessages(events: Events, batch: seq<Stamp>, r: seq<Message>)
    requires |r| == |batch| && forall i :: 0 <= i < |r| ==>
      Waiting(events, batch[i]) && r[i] == events[EventId(batch[i].incident, batch[i].revision)].message
    ensures StampLog(r) == batch
    ensures forall m :: m in r ==>
      && EventId(m.incident, m.revision) in events
      && events[EventId(m.incident, m.revision)].message == m
      && !events[EventId(m.incident, m.revision)].published
  {
    forall i | 0 <= i < |r|
      ensures StampOf(r[i]) == batch[i] && EventId(r[i].incident, r[i].revision) in events
      ensures events[EventId(r[i].incident, r[i].revision)].message == r[i]
      ensures !events[EventId(r[i].incident, r[i].revision)].published
    {
      assert Waiting(events, batch[i]);
    }
  }

  function KeyOf(incidents: map<nat, Row>, i: nat): string { if i in incidents then incidents[i].finding.key else "" }

  /** ORDER BY start_time, incident_key; the id breaks ties that the unique index excludes. */
  predicate LoadsBefore(incidents: map<nat, Row>, collation: (string, string) -> bool, i: nat, j: nat) {
    var a, b := if i in incidents then incidents[i].start else 0, if j in incidents then incidents[j].start else 0;
    var k, l := KeyOf(incidents, i), KeyOf(incidents, j);
    a < b || (a == b && (collation(k, l) || (k == l && i < j)))
  }

  function LoadOrder(incidents: map<nat, Row>, collation: (string, string) -> bool): (nat, nat) -> bool {
    (i: nat, j: nat) => LoadsBefore(incidents, collation, i, j)
  }

  lemma LoadOrderTotal(incidents: map<nat, Row>, collation: (string, string) -> bool)
    requires StrictTotal(collation)
    ensures StrictTotal(LoadOrder(incidents, collation))
  {
    var lt := LoadOrder(incidents, collation);
    forall i, j | i != j ensures lt(i, j) || lt(j, i) { Total(collation, KeyOf(incidents, i), KeyOf(incidents, j)); }
    forall i, j, k | lt(i, j) && lt(j, k) ensures lt(i, k) {
      var a, b, d := KeyOf(incidents, i), KeyOf(incidents, j), KeyOf(incidents, k);
      if collation(a, b) && collation(b, d) { Trans(collation, a, b, d); }
    }
  }

  function ActiveRows(incidents: map<nat, Row>, ids: seq<nat>): (r: seq<Active>)
    requires forall id :: id in ids ==> id in incidents
    ensures |r| == |ids|
    ensures forall i :: 0 <= i < |r| ==> r[i] == ActiveOf(ids[i], incidents[ids[i]])
  {
    seq(|ids|, i requires 0 <= i < |ids| => assert ids[i] in ids; ActiveOf(ids[i], incidents[ids[i]]))
  }

  /** By start, then key; the id breaks ties. */
  ghost predicate EarliestFirst(collation: (string, string) -> bool, r: seq<Active>) {
    forall i, j :: 0 <= i < j < |r| ==>
      || r[i].start < r[j].start
      || (r[i].start == r[j].start
          && (collation(r[i].key, r[j].key) || (r[i].key == r[j].key && r[i].id < r[j].id)))
  }

  lemma LoadedBefore(incidents: map<nat, Row>, collation: (string, string) -> bool, i: nat, j: nat)
    requires i in incidents && j in incidents && LoadsBefore(incidents, collation, i, j)
    ensures var a, b := ActiveOf(i, incidents[i]), ActiveOf(j, incidents[j]);
      a.start < b.start || (a.start == b.start && (collation(a.key, b.key) || (a.key == b.key && a.id < b.id)))
  {
  }

  lemma RowsInOrder(incidents: map<nat, Row>, collation: (string, string) -> bool, unresolved: set<nat>, ids: seq<nat>)
    requires StrictTotal(collation) && Lists(LoadOrder(incidents, collation), ids, unresolved)
    requires unresolved == set id | id in incidents && !incidents[id].status.Resolved?
    ensures forall id :: id in ids ==> id in incidents
    ensures Loaded(incidents, ActiveRows(incidents, ids))
    ensures EarliestFirst(collation, ActiveRows(incidents, ids))
  {
    hide LoadsBefore;
    var r := ActiveRows(incidents, ids);
    forall id | id in ids ensures id in incidents {}
    forall i, j | 0 <= i < j < |r|
      ensures r[i].start < r[j].start
           || (r[i].start == r[j].start
               && (collation(r[i].key, r[j].key) || (r[i].key == r[j].key && r[i].id < r[j].id)))
    {
      assert LoadOrder(incidents, collation)(ids[i], ids[j]);
      assert ids[i] in ids && ids[j] in ids;
      LoadedBefore(incidents, collation, ids[i], ids[j]);
    }
    forall a | a in r ensures a.id in unresolved && a == ActiveOf(a.id, incidents[a.id]) {
      var i :| 0 <= i < |r| && r[i] == a;
      assert ids[i] in ids;
    }
    forall id | id in unresolved ensures ActiveOf(id, incidents[id]) in r {
      var i :| 0 <= i < |ids| && ids[i] == id;
      assert r[i] == ActiveOf(id, incidents[id]);
    }
  }

  class PostgresIncidentRepository {
    var incidents: map<nat, Row>
    var events: Events

    function Db(): Database
      reads this
    {
      Database(incidents, events)
    }

    constructor ()
      ensures incidents == map[] && events == map[]
    {
      incidents, events := map[], map[];
    }

    method LoadActive(collation: (string, string) -> bool) returns (r: seq<Active>)
      requires StrictTotal(collation)
      ensures Loaded(incidents, r)
      ensures EarliestFirst(collation, r)
    {
      hide LoadsBefore, LoadOrder, ActiveRows, Sort, StrictTotal, Loaded, EarliestFirst;
      LoadOrderTotal(incidents, collation);
      var unresolved := set id | id in incidents && !incidents[id].status.Resolved?;
      SortLists(LoadOrder(incidents, collation), unresolved);
      var ids := Sort(LoadOrder(incidents, collation), unresolved);
      RowsInOrder(incidents, collation, unresolved, ids);
      r := ActiveRows(incidents, ids);
    }

    /** One transaction: the row and its event, or nothing. The commit may take effect
        although the call is interrupted. */
    method PersistTransition(t: Transition, m: Message) returns (r: Result<(), Cause>, ghost applied: bool)
      modifies this
      ensures applied ==> Accepts(old(Db()), t, m) && Db() == Persisted(old(Db()), t, m)
      ensures !applied ==> Db() == old(Db())
      ensures r.Ok? ==> applied
      ensures r.Err? && r.error.Rejected? ==> !Accepts(old(Db()), t, m)
    {
      applied := false;
      if * {
        return Err(Interrupted), false;
      }
      if !Accepts(Db(), t, m) {
        return Err(Rejected(ConstraintViolation)), false;
      }
      var after := Persisted(Db(), t, m);
      incidents, events := after.incidents, after.events;
      if * {
        return Err(Interrupted), true;
      }
      return Ok(()), true;
    }

    /** The unpublished events, in publication order, at most `limit` of them. */
    method PendingPublications(limit: nat) returns (r: seq<Message>)
      requires Labelled(events)
      ensures StrictTotal(Publication())
      ensures var pending := Sort(Publication(), Pending(events));
        StampLog(r) == pending[..if limit < |pending| then limit else |pending|]
      ensures forall m :: m in r ==>
        && EventId(m.incident, m.revision) in events && events[EventId(m.incident, m.revision)].message == m
        && !events[EventId(m.incident, m.revision)].published
    {
      hide Pending, StampLog, Labelled;
      PublicationTotal();
      var pending := Sort(Publication(), Pending(events));
      var batch := pending[..if limit < |pending| then limit else |pending|];
      BatchKnown(events, pending, batch);
      r := MessagesAt(events, batch);
      assert forall i :: 0 <= i < |batch| ==> batch[i] in batch;
      BatchMessages(events, batch, r);
    }

    method MarkPublished(e: EventId) returns (r: Result<(), Cause>, ghost applied: bool)
      modifies this`events
      ensures applied ==> events == if e in old(events) then Marked(old(events), e) else old(events)
      ensures !applied ==> events == old(events)
      ensures r.Ok? ==> applied
      ensures r.Err? ==> r.error.Interrupted?
    {
      if * {
        return Err(Interrupted), false;
      }
      if e in events {
        events := Marked(events, e);
      }
      if * {
        return Err(Interrupted), true;
      }
      return Ok(()), true;
    }
  }

  // ------------------------------------------------------------------ the service

  /** The histories after the first `n` of the cycle's transitions. */
  ghost function Folded(lives: Lives, ts: seq<Transition>, seen: seq<Observation>, n: nat): Lives
    requires n <= |ts| == |seen|
  {
    if n == 0 then lives else Extended(Folded(lives, ts, seen, n - 1), ts[n - 1].id, seen[n - 1])
  }

  /** Only publication marks differ. */
  ghost predicate SameMessages(a: Events, b: Events) {
    a.Keys == b.Keys && forall e :: e in a ==> a[e].message == b[e].message
  }

  lemma LabelledByFold(c: Config, events: Events, lives: Lives)
    requires EventsFold(c, events, lives)
    ensures Labelled(events)
  {
    hide RowOf;
  }

  lemma MarkedFolds(c: Config, events: Events, lives: Lives, e: EventId)
    requires EventsFold(c, events, lives) && e in events
    ensures EventsFold(c, Marked(events, e), lives) && SameMessages(events, Marked(events, e))
  {
    hide MessageOf;
  }

  /** Resolved rows are still there, as they were. */
  ghost predicate SameResolved(a: map<nat, Row>, b: map<nat, Row>) {
    forall id :: id in a && a[id].status.Resolved? ==> id in b && b[id] == a[id]
  }

  lemma ResolvedSame(c: Config, name: Naming, db: Database, lives: Lives, clock: int, at: int, t: Transition,
                     o: Observation, m: Message)
    requires Consistent(c, name, db, lives, clock) && Due(c, name, at, lives, t, o)
    ensures SameResolved(db.incidents, Persisted(db, t, m).incidents)
  {
    hide Consistent, Due, Upserted;
    forall id | id in db.incidents && db.incidents[id].status.Resolved?
      ensures Persisted(db, t, m).incidents[id] == db.incidents[id]
    {
      ResolvedStays(c, name, db, lives, clock, at, t, o, m, id);
    }
  }

  class IncidentClassifierService {
    const config: Config
    const name: Naming
    const collation: (string, string) -> bool
    const repository: PostgresIncidentRepository
    const engine: Classify.ClassificationEngine
    /** The incident topic, as the broker holds it. */
    var log: seq<Message>
    /** Histories of all incidents, the latest observation time, how many events are marked. */
    ghost var lives: Lives
    ghost var clock: int
    ghost var marked: nat

    ghost predicate Valid()
      reads this, repository
    {
      && Injective(name) && StrictTotal(collation) && engine.config == config
      && Consistent(config, name, repository.Db(), lives, clock)
      && Drained(repository.events, log, marked)
      && Genuine(repository.events, log)
    }

    constructor (config: Config, name: Naming, collation: (string, string) -> bool, start: int)
      requires Injective(name) && StrictTotal(collation)
      ensures Valid() && log == [] && repository.Db() == Database(map[], map[]) && clock == start
      ensures this.config == config && this.name == name && fresh(repository)
    {
      this.config, this.name, this.collation := config, name, collation;
      repository := new PostgresIncidentRepository();
      engine := new Classify.ClassificationEngine(config);
      log, lives, clock, marked := [], map[], start, 0;
    }

    /** Produce and wait for the acknowledgement. Without one, the record may have been
        appended all the same. */
    method Publish(m: Message) returns (acknowledged: bool)
      modifies this`log
      ensures log == old(log) + [m] || (log == old(log) && !acknowledged)
    {
      if * {
        return false;
      }
      log := log + [m];
      acknowledged := *;
    }

    /** Publish and mark one event; any of the two effects may be the last one. */
    method PublishNext(m: Message) returns (r: Result<(), Cause>)
      requires Valid() && marked < |Agenda(repository.events)| && StampOf(m) == Agenda(repository.events)[marked]
      requires EventId(m.incident, m.revision) in repository.events
      requires repository.events[EventId(m.incident, m.revision)].message == m
      modifies this`log, this`marked, repository`events
      ensures Valid() && old(log) <= log && SameMessages(old(repository.events), repository.events)
      ensures Agenda(repository.events) == old(Agenda(repository.events))
      ensures r.Ok? ==> marked == old(marked) + 1 && Collapsed(StampLog(log)) == Agenda(repository.events)[..marked]
      ensures r.Err? ==> r.error.Interrupted? && old(marked) <= marked
    {
      hide Consistent, Drained, Agenda, Collapsed, StampLog, Injective, StrictTotal, EventsFold;
      PublishKeeps(repository.events, log, marked, m);
      var acknowledged := Publish(m);
      if !acknowledged {
        return Err(Interrupted);
      }
      ghost var e := EventId(m.incident, m.revision);
      MarkKeeps(repository.events, log, marked, e);
      ConsistentMarked(config, name, repository.Db(), lives, clock, e);
      ghost var applied;
      r, applied := repository.MarkPublished(EventId(m.incident, m.revision));
      if applied {
        marked := marked + 1;
      }
    }

    /** Drain the outbox: afterwards the log, repeats collapsed, is everything persisted. */
    method PublishPending() returns (r: Result<nat, Cause>)
      requires Valid()
      modifies this`log, this`marked, repository`events
      ensures Valid() && old(log) <= log && SameMessages(old(repository.events), repository.events)
      ensures Agenda(repository.events) == old(Agenda(repository.events))
      ensures r.Ok? ==> marked == |Agenda(repository.events)| && Collapsed(StampLog(log)) == Agenda(repository.events)
      ensures r.Ok? ==> r.value == marked - old(marked)
      ensures r.Err? ==> r.error.Interrupted?
    {
      hide Valid, Agenda, Collapsed, StampLog, StrictTotal, Labelled, Pending;
      var published := 0;
      MarkedBound();
      while true
        invariant Valid() && old(log) <= log && SameMessages(old(repository.events), repository.events)
        invariant Agenda(repository.events) == old(Agenda(repository.events))
        invariant published == marked - old(marked) && marked <= |Agenda(repository.events)|
        decreases |Agenda(repository.events)| - marked
      {
        MarkedBound();
        PendingHere();
        var pending := repository.PendingPublications(100);
        StampsOf(pending, Agenda(repository.events), marked);
        if pending == [] {
          return Ok(published);
        }
        var sent: Result<(), Cause> := PublishBatch(pending);
        if sent.Err? {
          return Err(sent.error);
        }
        published := published + |pending|;
      }
    }

    method PublishBatch(pending: seq<Message>) returns (r: Result<(), Cause>)
      requires Valid() && marked + |pending| <= |Agenda(repository.events)|
      requires forall i :: 0 <= i < |pending| ==> StampOf(pending[i]) == Agenda(repository.events)[marked + i]
      requires forall m :: m in pending ==>
        EventId(m.incident,
                m.revision) in repository.events && repository.events[EventId(m.incident, m.revision)].message == m
      modifies this`log, this`marked, repository`events
      ensures Valid() && old(log) <= log && SameMessages(old(repository.events), repository.events)
      ensures Agenda(repository.events) == old(Agenda(repository.events))
      ensures r.Ok? ==> marked == old(marked) + |pending|
      ensures r.Err? ==> r.error.Interrupted?
    {
      hide Valid, Agenda;
      for i := 0 to |pending|
        invariant Valid() && old(log) <= log && SameMessages(old(repository.events), repository.events)
        invariant Agenda(repository.events) == old(Agenda(repository.events))
        invariant marked == old(marked) + i
      {
        assert pending[i] in pending;
        r := PublishNext(pending[i]);
        if r.Err? {
          return;
        }
      }
      r := Ok(());
    }

    lemma MarkedBound()
      requires Valid()
      ensures marked <= |Agenda(repository.events)|
      ensures marked == |Agenda(repository.events)| ==> Collapsed(StampLog(log)) == Agenda(repository.events)
    {
      hide Consistent, Agenda, Collapsed, StampLog, Injective, StrictTotal;
    }

    lemma PendingHere()
      requires Valid()
      ensures Labelled(repository.events) && StrictTotal(Publication()) && marked <= |Agenda(repository.events)|
      ensures Sort(Publication(), Pending(repository.events)) == Agenda(repository.events)[marked..]
    {
      hide Agenda, Collapsed, StampLog, Injective, StrictTotal, Labelled;
      LabelledByFold(config, repository.events, lives);
      PendingIsNext(repository.events, log, marked);
    }

    /** Build the event and persist the transition with it, in one transaction. A due
        transition is never rejected; the outbox only grows at its end. */
    method PersistOne(at: int, t: Transition, ghost o: Observation) returns (r: Result<(), Cause>, ghost applied: bool)
      requires Valid() && clock == at && Due(config, name, at, lives, t, o)
      requires Collapsed(StampLog(log)) == Agenda(repository.events)[..marked]
      requires forall s :: s in Published(repository.events) ==> s.time < at
      modifies this`lives, repository
      ensures Valid() && Published(repository.events) == old(Published(repository.events))
      ensures marked <= |Agenda(repository.events)| && Collapsed(StampLog(log)) == Agenda(repository.events)[..marked]
      ensures lives == if applied then Extended(old(lives), t.id, o) else old(lives)
      ensures r.Ok? ==> applied
      ensures r.Err? ==> r.error.Interrupted?
      ensures SameResolved(old(repository.incidents), repository.incidents)
    {
      hide Consistent, Drained, Agenda, Collapsed, StampLog, Injective, StrictTotal, Accepts, Published, Stamps, Due,
           Upserted;
      PersistKeeps(config, name, repository.Db(), lives, clock, at, t, o);
      applied := false;
      var event := Event(t, at);
      if event.Err? {
        return Err(Rejected(ContractViolation)), false;
      }
      ghost var m, e := event.value, EventId(t.id, t.revision);
      InsertKeeps(repository.events, log, marked, e, m);
      InsertStamps(repository.events, e, m);
      ResolvedSame(config, name, repository.Db(), lives, clock, at, t, o, m);
      r, applied := repository.PersistTransition(t, event.value);
      if applied {
        lives := Extended(lives, t.id, o);
      }
      MarkedBound();
    }

    /** The cycle's transitions, one transaction each, in order. */
    method PersistAll(at: int, ts: seq<Transition>, ghost seen: seq<Observation>)
      returns (r: Result<(), Cause>, ghost done: nat)
      requires Valid() && clock == at && |seen| == |ts|
      requires forall i :: 0 <= i < |ts| ==> Due(config, name, at, lives, ts[i], seen[i])
      requires forall i, j :: 0 <= i < j < |ts| ==> ts[i].finding.key != ts[j].finding.key
      requires marked <= |Agenda(repository.events)| && Collapsed(StampLog(log)) == Agenda(repository.events)[..marked]
      requires forall s :: s in Published(repository.events) ==> s.time < at
      modifies this`lives, repository
      ensures Valid() && done <= |ts| && lives == Folded(old(lives), ts, seen, done)
      ensures r.Ok? ==> done == |ts|
      ensures r.Err? ==> r.error.Interrupted?
      ensures SameResolved(old(repository.incidents), repository.incidents)
    {
      hide Valid, Due, Agenda, Collapsed, StampLog, Published, Extended;
      done := 0;
      for i := 0 to |ts|
        invariant done == i && Valid() && lives == Folded(old(lives), ts, seen, i)
        invariant forall j :: i <= j < |ts| ==> Due(config, name, at, lives, ts[j], seen[j])
        invariant marked <= |Agenda(repository.events)|
        invariant Collapsed(StampLog(log)) == Agenda(repository.events)[..marked]
        invariant forall s :: s in Published(repository.events) ==> s.time < at
        invariant SameResolved(old(repository.incidents), repository.incidents)
      {
        forall j | i < j < |ts| ensures Due(config, name, at, Extended(lives, ts[i].id, seen[i]), ts[j], seen[j]) {
          StillDue(at, ts[i], seen[i], ts[j], seen[j]);
        }
        ghost var applied;
        r, applied := PersistOne(at, ts[i], seen[i]);
        if applied {
          done := i + 1;
        }
        if r.Err? {
          return;
        }
      }
      r := Ok(());
    }

    lemma StillDue(at: int, t: Transition, o: Observation, u: Transition, p: Observation)
      requires Valid() && t.finding.key != u.finding.key
      requires Due(config, name, at, lives, t, o) && Due(config, name, at, lives, u, p)
      ensures Due(config, name, at, Extended(lives, t.id, o), u, p)
    {
      hide Living, Drained, Due, Apart, RowsFold, EventsFold;
      AllLiving(config, name, lives, clock);
      DueStays(config, name, at, lives, t, o, u, p);
    }

    /** Everything this cycle would persist is due, and later than everything persisted. */
    lemma CycleReady(at: int, findings: seq<Finding>, active: seq<Active>)
      requires Valid() && clock < at && Loaded(repository.incidents, active)
      requires forall f :: f in findings ==> Sound(f)
      ensures var ts, seen := CycleMoves(config, name, at, findings, active), CycleSeen(at, findings, active);
        && |seen| == |ts|
        && (forall i :: 0 <= i < |ts| ==> Due(config, name, at, lives, ts[i], seen[i]))
        && (forall i, j :: 0 <= i < j < |ts| ==> ts[i].finding.key != ts[j].finding.key)
      ensures forall s :: s in Published(repository.events) ==> s.time < at
    {
      hide Consistent, Drained, CycleMoves, CycleSeen, CycleKeys, Due;
      var ts, seen := CycleMoves(config, name, at, findings, active), CycleSeen(at, findings, active);
      OnePerKey(config, name, at, findings, active);
      forall i | 0 <= i < |ts|
        ensures Due(config, name, at, lives, ts[i], seen[i]) && ts[i].finding.key == CycleKeys(findings, active)[i]
      {
        CycleDue(config, name, at, repository.Db(), lives, clock, findings, active, i);
      }
      PublishedEarlier(config, name, repository.Db(), lives, clock);
    }

    /** One cycle at a later time than every earlier one, interrupted anywhere or not. The
        transitions persisted are the first of the cycle's, in order, each as one more
        observation of its key; none is ever rejected; resolved rows stay; the log grows.
        A cycle that completes persists them all and leaves nothing unpublished. */
    method EvaluateOnce(at: int, snapshot: Snapshot)
      returns (r: Result<nat, Cause>, ghost active: seq<Active>, ghost done: nat)
      requires Valid() && clock < at == snapshot.at && Classify.InRange(snapshot)
      modifies this, repository
      ensures Valid() && clock == at && old(log) <= log
      ensures r.Err? ==> r.error.Interrupted?
      ensures r.Ok? || done > 0 ==> Loaded(old(repository.incidents), active)
      ensures var ts := CycleMoves(config, name, at, Classify.Findings(config, snapshot), active);
              var seen := CycleSeen(at, Classify.Findings(config, snapshot), active);
              done <= |ts| && lives == Folded(old(lives), ts, seen, done) && (r.Ok? ==> done == |ts| == r.value)
      ensures SameResolved(old(repository.incidents), repository.incidents)
      ensures r.Ok? ==> Collapsed(StampLog(log)) == Agenda(repository.events)
    {
      hide Consistent, Agenda, Collapsed, StampLog, Injective, StrictTotal, EventsFold, CycleMoves, CycleSeen,
           Classify.Findings, Drained,
           Loaded, Due;
      active, done := [], 0;
      var first := PublishPending();
      if first.Err? {
        LaterClock(at);
        clock := at;
        return Err(first.error), active, done;
      }
      var findings := engine.Classify(snapshot);
      var loaded := repository.LoadActive(collation);
      var ts := TransitionAll(config, name, at, findings, loaded);
      active := loaded;
      Classify.FindingsSound(config, snapshot);
      CycleReady(at, findings, active);
      LaterClock(at);
      MarkedBound();
      clock := at;
      var persisted;
      persisted, done := PersistAll(at, ts, CycleSeen(at, findings, active));
      if persisted.Err? {
        return Err(persisted.error), active, done;
      }
      var second := PublishPending();
      if second.Err? {
        return Err(second.error), active, done;
      }
      return Ok(|ts|), active, done;
    }

    /** Any number of cycles, each interrupted anywhere or not; an interrupted process is
        followed by one that knows only the tables. */
    method Run(snapshots: seq<Snapshot>)
      requires Valid()
      requires forall i :: 0 <= i < |snapshots| ==> clock < snapshots[i].at && Classify.InRange(snapshots[i])
      requires forall i, j :: 0 <= i < j < |snapshots| ==> snapshots[i].at < snapshots[j].at
      modifies this, repository
      ensures Valid() && old(log) <= log && SameResolved(old(repository.incidents), repository.incidents)
    {
      hide Valid, Classify.InRange;
      for i := 0 to |snapshots|
        invariant Valid() && old(log) <= log && SameResolved(old(repository.incidents), repository.incidents)
        invariant forall j :: i <= j < |snapshots| ==> clock < snapshots[j].at
      {
        ghost var active, done;
        var outcome;
        outcome, active, done := EvaluateOnce(snapshots[i].at, snapshots[i]);
      }
    }

    lemma LaterClock(at: int)
      requires Valid() && clock <= at
      ensures Consistent(config, name, repository.Db(), lives, at)
    {
      hide Living, RowOf, Ended;
      forall id | id in lives
        ensures Grown(config, name, id, lives[id], at)
      {
        assert Grown(config, name, id, lives[id], clock);
      }
    }
  }

  lemma PublishedEarlier(c: Config, name: Naming, db: Database, lives: Lives, clock: int)
    requires Consistent(c, name, db, lives, clock)
    ensures forall s :: s in Published(db.events) ==> s.time <= clock
  {
    hide RowOf, Apart, RowsFold;
    forall s | s in Published(db.events) ensures s.time <= clock {
      assert s in Stamps(db.events);
      StampIs(c, db.events, lives, s);
      var life := lives[s.incident];
      assert Grown(c, name, s.incident, life, clock);
      if s.revision < |life| { TimesIncrease(c, life, s.revision - 1, |life| - 1); }
    }
  }

  lemma StampsOf(batch: seq<Message>, agenda: seq<Stamp>, n: nat)
    requires n <= |agenda|
    requires var rest := agenda[n..]; StampLog(batch) == rest[..if 100 < |rest| then 100 else |rest|]
    ensures n + |batch| <= |agenda| && (batch == [] ==> n == |agenda|)
    ensures forall i :: 0 <= i < |batch| ==> StampOf(batch[i]) == agenda[n + i]
  {
    var rest := agenda[n..];
    assert |batch| == |StampLog(batch)|;
    forall i | 0 <= i < |batch| ensures StampOf(batch[i]) == agenda[n + i] { assert StampLog(batch)[i] == rest[i]; }
  }

  lemma ConsistentMarked(c: Config, name: Naming, db: Database, lives: Lives, clock: int, e: EventId)
    requires Consistent(c, name, db, lives, clock) && e in db.events
    ensures Consistent(c, name, db.(events := Marked(db.events, e)), lives, clock)
    ensures SameMessages(db.events, Marked(db.events, e))
  {
    hide Living, RowOf, Ended;
    MarkedFolds(c, db.events, lives, e);
  }

  // ------------------------------------------------------------------ what anyone sees, at any moment

  /** The published log at any moment of any run: repeats of an event are adjacent;
      collapsing them gives a prefix of all persisted events in publication order, with
      revisions 1, 2, 3, … gap-free per incident; a row marked as published is in it. */
  lemma PublishedLog(c: Config, name: Naming, db: Database, lives: Lives, clock: int, log: seq<Message>, n: nat)
    requires Consistent(c, name, db, lives, clock) && Drained(db.events, log, n)
    ensures Collapsed(StampLog(log)) <= Agenda(db.events)
    ensures RepeatsAdjacent(StampLog(log)) && GapFree(Collapsed(StampLog(log)))
    ensures var shown := Collapsed(StampLog(log));
      forall i, j :: 0 <= i < j < |shown| ==>
        || shown[i].time < shown[j].time
        || (shown[i].time == shown[j].time && shown[i].incident < shown[j].incident)
        || (shown[i].time == shown[j].time && shown[i].incident == shown[j].incident
            && shown[i].revision < shown[j].revision)
    ensures forall e :: e in db.events && db.events[e].published ==> StampOf(db.events[e].message) in StampLog(log)
  {
    hide Drained, Agenda, Collapsed, EventsFold, RowsFold, Apart, Living, StampLog;
    LogIsPrefix(db.events, log, n);
    AllLiving(c, name, lives, clock);
    var stamps, shown := StampLog(log), Collapsed(StampLog(log));
    AgendaOrdered(db.events, shown);
    forall i, j, k | 0 <= i <= k <= j < |stamps| && stamps[i] == stamps[j] ensures stamps[k] == stamps[i] {
      RepeatsAreAdjacent(stamps, i, j, k);
    }
    forall i, r: nat {:trigger CameBefore(shown, i, r)} | 0 <= i < |shown|
      ensures CameBefore(shown, i, r) <==> 1 <= r < shown[i].revision
    {
      RevisionsInOrder(c, db.events, lives, i, r);
      PrefixCameBefore(Agenda(db.events), shown, i, r);
    }
  }

  lemma AgendaOrdered(events: Events, shown: seq<Stamp>)
    requires shown <= Agenda(events)
    ensures forall i, j :: 0 <= i < j < |shown| ==>
      || shown[i].time < shown[j].time
      || (shown[i].time == shown[j].time && shown[i].incident < shown[j].incident)
      || (shown[i].time == shown[j].time && shown[i].incident == shown[j].incident
          && shown[i].revision < shown[j].revision)
  {
    hide Agenda;
    AgendaLists(events);
    forall i, j | 0 <= i < j < |shown| ensures Publication()(shown[i], shown[j]) {
      assert shown[i] == Agenda(events)[i] && shown[j] == Agenda(events)[j];
    }
  }

  lemma PrefixCameBefore(agenda: seq<Stamp>, shown: seq<Stamp>, i: nat, r: nat)
    requires shown <= agenda && i < |shown|
    ensures CameBefore(shown, i, r) <==> CameBefore(agenda, i, r)
  {
    assert forall j :: 0 <= j <= i ==> shown[j] == agenda[j];
  }

  /** Every event of every run satisfies the message contract and carries evidence. */
  lemma EveryEventMeetsContract(c: Config, name: Naming, db: Database, lives: Lives, clock: int, e: EventId)
    requires Consistent(c, name, db, lives, clock) && e in db.events
    ensures Contract(db.events[e].message) && db.events[e].message.finding.evidence != []
  {
    hide Living, MessageOf, Contract, Apart, RowsFold;
    AllLiving(c, name, lives, clock);
    PrefixLiving(c, lives[e.incident], e.revision);
    MessageInRange(c, e.incident, lives[e.incident][..e.revision]);
  }
}
