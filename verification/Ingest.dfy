/** Ingestion of one record: judge it, persist or dead-letter it, in an order of durable
    effects that survives interruption anywhere. */
module Ingest {
  import opened Prelude
  import opened Broker

  // ------------------------------------------------------------------ judging a record

  datatype EventKind = NetworkMeasurement | ServiceCheck | SpeedTest | AgentHeartbeat | Incident

  /** An attribute that an event may carry with any JSON value: absent or null, text, or
      something else, which may be truthy or not and hashable or not. */
  datatype Attribute = Absent | Text(text: string) | Other(truthy: bool, hashable: bool)

  /** `body` stands for the remaining fields. */
  datatype Event = Event(id: nat, kind: EventKind, agent: string, target: Attribute, endpoint: Attribute, body: Bytes)

  /** Decoding and contract validation of a payload: an event, a validation error, or an
      exception of another kind. */
  datatype Reading = Valid(event: Event) | Malformed | Unreadable

  /** `text` is UTF-8 decoding that replaces what it cannot decode: total, and not always
      reversible. */
  datatype Contract = Contract(read: Bytes -> Reading, text: Bytes -> string)

  datatype References = References(agents: set<string>, endpoints: set<string>)

  const KNOWN_AGENTS := {"network-agent-ethernet-01", "network-agent-wifi-01"}
  const KNOWN_ENDPOINTS := {"router", "public-dns-a", "public-dns-b", "wifi-interface", "dns-check", "example-service"}

  /** Empty allowlists fall back to the built-in ones. */
  function Effective(loaded: References): References {
    References(if loaded.agents == {} then KNOWN_AGENTS else loaded.agents,
               if loaded.endpoints == {} then KNOWN_ENDPOINTS else loaded.endpoints)
  }

  datatype Judgement = Accept(event: Event) | Refuse | Break

  predicate Truthy(a: Attribute) { (a.Text? && a.text != "") || (a.Other? && a.truthy) }

  /** Python's `target_id or endpoint_id`. */
  function EndpointOf(e: Event): Attribute { if Truthy(e.target) then e.target else e.endpoint }

  /** An unknown agent or endpoint is a validation error; an unhashable endpoint raises
      something else. */
  function CheckReferences(refs: References, e: Event): Judgement {
    if e.agent !in refs.agents then Refuse
    else
      match EndpointOf(e)
      case Absent => Accept(e)
      case Text(t) => if t in refs.endpoints then Accept(e) else Refuse
      case Other(_, hashable) => if hashable then Refuse else Break
  }

  function Judge(contract: Contract, refs: References, value: Bytes): Judgement {
    match contract.read(value)
    case Valid(e) => CheckReferences(refs, e)
    case Malformed => Refuse
    case Unreadable => Break
  }

  /** What acceptance asks of the event's own fields: its agent is listed; a target that is
      not nothing is listed text; without one, the endpoint is absent or listed text. */
  ghost predicate Acceptable(refs: References, e: Event) {
    && e.agent in refs.agents
    && (e.target.Text? && |e.target.text| > 0 ==> e.target.text in refs.endpoints)
    && (e.target.Other? ==> !e.target.truthy)
    && (e.target.Absent? || e.target == Text("") || e.target.Other? ==>
          e.endpoint.Absent? || (e.endpoint.Text? && e.endpoint.text in refs.endpoints))
  }

  /** An unlisted agent; or an unlisted name, in the target or, where that is nothing, in the
      endpoint; or a name there that is no text and can be looked up. */
  ghost predicate Refusable(refs: References, e: Event) {
    || e.agent !in refs.agents
    || (e.target.Text? && |e.target.text| > 0 && e.target.text !in refs.endpoints)
    || (e.target.Other? && e.target.truthy && e.target.hashable)
    || ((e.target.Absent? || e.target == Text("") || (e.target.Other? && !e.target.truthy))
        && ((e.endpoint.Text? && e.endpoint.text !in refs.endpoints) || (e.endpoint.Other? && e.endpoint.hashable)))
  }

  /** Which payloads are accepted, and as what, and which are refused; any other raises. */
  lemma JudgedIff(contract: Contract, refs: References, value: Bytes)
    ensures forall e :: Judge(contract, refs, value) == Accept(e) <==>
      contract.read(value) == Valid(e) && Acceptable(refs, e)
    ensures Judge(contract, refs, value).Refuse? <==>
      match contract.read(value)
      case Valid(e) => Refusable(refs, e)
      case Malformed => true
      case Unreadable => false
  {
  }

  /** The built-in lists stand in for empty ones only. */
  lemma EffectiveLists(loaded: References)
    ensures Effective(loaded).agents == loaded.agents <==> loaded.agents != {}
    ensures Effective(loaded).endpoints == loaded.endpoints <==> loaded.endpoints != {}
    ensures loaded.agents == {} ==> Effective(loaded).agents == KNOWN_AGENTS
    ensures loaded.endpoints == {} ==> Effective(loaded).endpoints == KNOWN_ENDPOINTS
  {
    assert "router" in KNOWN_ENDPOINTS && "network-agent-wifi-01" in KNOWN_AGENTS;
  }

  // ------------------------------------------------------------------ the tables

  datatype RawRow = RawRow(event: Event, source: Coordinate)
  datatype Failure = Failure(key: string, payload: Bytes, attempts: nat, deadLettered: bool)

  /** `typed` is the union of the four typed tables: each event kind has its own. */
  datatype Tables = Tables(raw: map<nat, RawRow>, typed: map<nat, Event>, failures: map<Coordinate, Failure>)

  predicate CoordinateTaken(t: Tables, at: Coordinate) { exists id :: id in t.raw && t.raw[id].source == at }

  /** INSERT … ON CONFLICT DO NOTHING: either unique key suppresses the row. */
  predicate Inserts(t: Tables, e: Event, at: Coordinate) { e.id !in t.raw && !CoordinateTaken(t, at) }

  function Persisted(t: Tables, e: Event, at: Coordinate): Tables {
    if !Inserts(t, e, at) then t
    else t.(raw := t.raw[e.id := RawRow(e, at)],
            typed := if e.kind.Incident? || e.id in t.typed then t.typed else t.typed[e.id := e])
  }

  function FailureRecorded(t: Tables, at: Coordinate, source: Entry): Tables {
    var f := if at in t.failures then t.failures[at].(attempts := t.failures[at].attempts + 1)
             else Failure(source.key, source.value, 1, false);
    t.(failures := t.failures[at := f])
  }

  function DeadLetterMarked(t: Tables, at: Coordinate): Tables {
    if at in t.failures then t.(failures := t.failures[at := t.failures[at].(deadLettered := true)]) else t
  }

  /** After persisting, the event's row exists if and only if it existed before or its
      coordinate was free: an occupied coordinate silently loses the event. */
  lemma PersistedIff(t: Tables, e: Event, at: Coordinate)
    ensures e.id in Persisted(t, e, at).raw <==> e.id in t.raw || !CoordinateTaken(t, at)
  {
  }

  // ------------------------------------------------------------------ what ingestion keeps

  /** Output topics. A dead letter carries the payload as text, so bytes that are not UTF-8
      survive in the failure's row only. */
  datatype DeadLetter = DeadLetter(source: Coordinate, text: string)
  datatype Outputs = Outputs(valid: seq<Event>, dead: seq<DeadLetter>)

  /** Rows come from the records at their coordinates. */
  ghost predicate RowGenuine(contract: Contract, logs: Logs, id: nat, row: RawRow) {
    Has(logs, row.source) && row.event.id == id && contract.read(Get(logs, row.source).value) == Valid(row.event)
  }

  ghost predicate FailureGenuine(contract: Contract, logs: Logs, out: Outputs, at: Coordinate, f: Failure) {
    && Has(logs, at) && f.payload == Get(logs, at).value && f.key == Get(logs, at).key && f.attempts >= 1
    && (f.deadLettered ==> DeadLetter(at, contract.text(f.payload)) in out.dead)
  }

  /** Every raw row has exactly its typed row, unless its kind has none. */
  ghost predicate TypedMatch(t: Tables) {
    && (forall id :: id in t.typed <==> id in t.raw && !t.raw[id].event.kind.Incident?)
    && (forall id :: id in t.typed ==> t.typed[id] == t.raw[id].event)
  }

  ghost predicate Genuine(contract: Contract, logs: Logs, t: Tables, out: Outputs) {
    && (forall id :: id in t.raw ==> RowGenuine(contract, logs, id, t.raw[id]))
    && (forall at :: at in t.failures ==> FailureGenuine(contract, logs, out, at, t.failures[at]))
    && TypedMatch(t)
  }

  /** The record at `at` is dealt with as `j` asks: its event has its row, and, if it is a
      measurement, is in the valid topic; or its failure is recorded and dead-lettered. */
  ghost predicate Handled(t: Tables, out: Outputs, at: Coordinate, j: Judgement) {
    match j
    case Accept(e) => e.id in t.raw && (e.kind.NetworkMeasurement? ==> e in out.valid)
    case Refuse => at in t.failures && t.failures[at].deadLettered
    case Break => false
  }

  /** Durable ingestion state only accumulates. */
  ghost predicate Accumulates(t: Tables, out: Outputs, u: Tables, later: Outputs) {
    && (forall id :: id in t.raw ==> id in u.raw && u.raw[id] == t.raw[id])
    && (forall at :: at in t.failures ==>
          at in u.failures && (t.failures[at].deadLettered ==> u.failures[at].deadLettered))
    && (forall e :: e in out.valid ==> e in later.valid)
  }

  lemma HandledStays(t: Tables, out: Outputs, u: Tables, later: Outputs, at: Coordinate, j: Judgement)
    requires Handled(t, out, at, j) && Accumulates(t, out, u, later)
    ensures Handled(u, later, at, j)
  {
  }

  lemma AccumulatesTrans(a: Tables, x: Outputs, b: Tables, y: Outputs, c: Tables, z: Outputs)
    requires Accumulates(a, x, b, y) && Accumulates(b, y, c, z)
    ensures Accumulates(a, x, c, z)
  {
  }

  lemma GrowthGenuine(contract: Contract, logs: Logs, later: Logs, t: Tables, out: Outputs)
    requires Genuine(contract, logs, t, out) && Grown(logs, later)
    ensures Genuine(contract, later, t, out)
  {
  }

  /** In an append-only log, only the event id itself can suppress the row. */
  lemma InsertsHere(contract: Contract, logs: Logs, t: Tables, out: Outputs, e: Event, at: Coordinate)
    requires Genuine(contract, logs, t, out) && Has(logs, at) && contract.read(Get(logs, at).value) == Valid(e)
    ensures Inserts(t, e, at) <==> e.id !in t.raw
    ensures e.id !in t.raw ==> e.id in Persisted(t, e, at).raw && Persisted(t, e, at).raw[e.id].source == at
  {
    hide FailureGenuine, TypedMatch;
    if id :| id in t.raw && t.raw[id].source == at {
      assert RowGenuine(contract, logs, id, t.raw[id]);
    }
  }

  lemma TypedKept(t: Tables, e: Event, at: Coordinate)
    requires TypedMatch(t)
    ensures TypedMatch(Persisted(t, e, at))
  {
    hide CoordinateTaken;
  }

  lemma RowsKept(contract: Contract, logs: Logs, t: Tables, e: Event, at: Coordinate)
    requires forall id :: id in t.raw ==> RowGenuine(contract, logs, id, t.raw[id])
    requires Has(logs, at) && contract.read(Get(logs, at).value) == Valid(e)
    ensures forall id :: id in Persisted(t, e, at).raw ==> RowGenuine(contract, logs, id, Persisted(t, e, at).raw[id])
  {
    hide CoordinateTaken, TypedMatch;
    assert RowGenuine(contract, logs, e.id, RawRow(e, at));
  }

  /** In an append-only log a coordinate identifies its event, so persisting never loses
      one: afterwards the event has its row. */
  lemma PersistKeeps(contract: Contract, logs: Logs, t: Tables, out: Outputs, e: Event, at: Coordinate)
    requires Genuine(contract, logs, t, out) && Has(logs, at) && contract.read(Get(logs, at).value) == Valid(e)
    ensures Genuine(contract, logs, Persisted(t, e, at), out)
    ensures e.id in Persisted(t, e, at).raw
    ensures Accumulates(t, out, Persisted(t, e, at), out)
  {
    hide FailureGenuine, RowGenuine, TypedMatch;
    InsertsHere(contract, logs, t, out, e, at);
    TypedKept(t, e, at);
    RowsKept(contract, logs, t, e, at);
  }

  lemma RecordKeeps(contract: Contract, logs: Logs, t: Tables, out: Outputs, at: Coordinate)
    requires Genuine(contract, logs, t, out) && Has(logs, at)
    ensures Genuine(contract, logs, FailureRecorded(t, at, Get(logs, at)), out)
    ensures at in FailureRecorded(t, at, Get(logs, at)).failures
    ensures Accumulates(t, out, FailureRecorded(t, at, Get(logs, at)), out)
  {
  }

  lemma PublishValidKeeps(contract: Contract, logs: Logs, t: Tables, out: Outputs, e: Event)
    requires Genuine(contract, logs, t, out)
    ensures Genuine(contract, logs, t, out.(valid := out.valid + [e]))
    ensures Accumulates(t, out, t, out.(valid := out.valid + [e]))
  {
  }

  lemma PublishDeadKeeps(contract: Contract, logs: Logs, t: Tables, out: Outputs, d: DeadLetter)
    requires Genuine(contract, logs, t, out)
    ensures Genuine(contract, logs, t, out.(dead := out.dead + [d]))
    ensures Accumulates(t, out, t, out.(dead := out.dead + [d]))
  {
  }

  /** Only a failure whose dead letter is published is marked. */
  lemma MarkKeeps(contract: Contract, logs: Logs, t: Tables, out: Outputs, at: Coordinate)
    requires Genuine(contract, logs, t, out) && at in t.failures
    requires DeadLetter(at, contract.text(t.failures[at].payload)) in out.dead
    ensures Genuine(contract, logs, DeadLetterMarked(t, at), out)
    ensures Accumulates(t, out, DeadLetterMarked(t, at), out)
    ensures Handled(DeadLetterMarked(t, at), out, at, Refuse)
  {
  }

  /** One raw row per event id, one event id per coordinate. */
  lemma OneRowPerRecord(contract: Contract, logs: Logs, t: Tables, out: Outputs, i: nat, j: nat)
    requires Genuine(contract, logs, t, out) && i in t.raw && j in t.raw && t.raw[i].source == t.raw[j].source
    ensures i == j
  {
    assert RowGenuine(contract, logs, i, t.raw[i]) && RowGenuine(contract, logs, j, t.raw[j]);
  }

  lemma OneRowIsGenuine(contract: Contract, logs: Logs, e: Event, at: Coordinate)
    requires Has(logs, at) && contract.read(Get(logs, at).value) == Valid(e) && e.kind.NetworkMeasurement?
    ensures Genuine(contract, logs, Tables(map[e.id := RawRow(e, at)], map[e.id := e], map[]), Outputs([], []))
  {
  }

  /** A recreated topic reuses offsets: its record is read and accepted, and all the same its
      event gets no row and no failure, because a row of the old log holds the coordinate. */
  lemma ReusedOffsetLosesEvent()
    ensures exists contract: Contract, refs: References, past: Logs, recreated: Logs, t: Tables, out: Outputs,
      at: Coordinate, e: Event ::
      && Genuine(contract, past, t, out) && Has(past, at) && Has(recreated, at)
      && Judge(contract, refs, Get(recreated, at).value) == Accept(e)
      && e.id !in t.raw && Persisted(t, e, at) == t
  {
    hide Genuine;
    var at := Coordinate(Part("network.measurements.raw.v1", 0), 0);
    var first := Event(0, NetworkMeasurement, "network-agent-wifi-01", Text("router"), Absent, []);
    var second := first.(id := 1);
    var contract := Contract(value => if value == [0] then Valid(first) else Valid(second), value => "");
    var past, recreated := map[at.part := [Entry("", [0])]], map[at.part := [Entry("", [1])]];
    var t := Tables(map[0 := RawRow(first, at)], map[0 := first], map[]);
    OneRowIsGenuine(contract, past, first, at);
    assert CoordinateTaken(t, at) by { assert t.raw[0].source == at; }
    assert Judge(contract, Effective(References({}, {})), Get(recreated, at).value) == Accept(second);
    assert Persisted(t, second, at) == t && Genuine(contract, past, t, Outputs([], []));
  }

  // ------------------------------------------------------------------ durable effects of one record

  datatype Stores = Stores(tables: Tables, outputs: Outputs)

  /** How many durable effects a record asks for. */
  function EffectCount(j: Judgement): nat {
    match j
    case Accept(e) => if e.kind.NetworkMeasurement? then 2 else 1
    case Refuse => 3
    case Break => 0
  }

  /** The stores after the first `n` of them, in the order of the program: persist, publish
      a measurement; or record the failure, publish its dead letter, mark it. */
  function AfterEffects(contract: Contract, j: Judgement, at: Coordinate, source: Entry, s: Stores, n: nat): Stores
    requires n <= EffectCount(j)
  {
    match j
    case Accept(e) =>
      if n == 0 then s
      else Stores(Persisted(s.tables, e, at), if n == 1 then s.outputs else s.outputs.(valid := s.outputs.valid + [e]))
    case Refuse =>
      var recorded, letter := FailureRecorded(s.tables, at, source), DeadLetter(at, contract.text(source.value));
      if n == 0 then s
      else Stores(if n < 3 then recorded else DeadLetterMarked(recorded, at),
                  if n == 1 then s.outputs else s.outputs.(dead := s.outputs.dead + [letter]))
    case Break => s
  }

  // ------------------------------------------------------------------ the objects

  datatype Raised = Raised

  class PostgresEventRepository {
    var tables: Tables

    constructor ()
      ensures tables == Tables(map[], map[], map[])
    {
      tables := Tables(map[], map[], map[]);
    }

    /** One transaction for the raw row and its typed row. The commit may take effect
        although the call raises. */
    method PersistEvent(e: Event, at: Coordinate) returns (r: Result<bool, Raised>)
      modifies this
      ensures tables == Persisted(old(tables), e, at) || (r.Err? && tables == old(tables))
      ensures r.Ok? ==> r.value == (e.id !in old(tables).raw && forall id :: id in old(tables).raw ==>
                                      old(tables).raw[id].source != at)
      ensures r.Ok? && !r.value ==> tables == old(tables)
      ensures r.Ok? && r.value ==>
        && tables.raw.Keys == old(tables).raw.Keys + {e.id} && tables.failures == old(tables).failures
        && tables.raw[e.id].event == e && tables.raw[e.id].source == at
        && (forall id :: id in old(tables).raw ==> tables.raw[id] == old(tables).raw[id])
    {
      if * {
        return Err(Raised.Raised);
      }
      var inserted := Inserts(tables, e, at);
      tables := Persisted(tables, e, at);
      if * {
        return Err(Raised.Raised);
      }
      return Ok(inserted);
    }

    method RecordFailure(at: Coordinate, source: Entry) returns (r: Result<(), Raised>)
      modifies this
      ensures tables == FailureRecorded(old(tables), at, source) || (r.Err? && tables == old(tables))
      ensures r.Ok? ==> tables.raw == old(tables).raw && tables.typed == old(tables).typed
      ensures r.Ok? ==> tables.failures.Keys == old(tables).failures.Keys + {at}
      ensures forall other :: other in old(tables).failures && other != at ==>
        other in tables.failures && tables.failures[other] == old(tables).failures[other]
      ensures r.Ok? ==> var f := tables.failures[at];
        if at in old(tables).failures then
          var g := old(tables).failures[at];
          f.attempts == g.attempts + 1 && f.key == g.key && f.payload == g.payload && f.deadLettered == g.deadLettered
        else
          f.attempts == 1 && f.key == source.key && f.payload == source.value && !f.deadLettered
    {
      if * {
        return Err(Raised.Raised);
      }
      tables := FailureRecorded(tables, at, source);
      if * {
        return Err(Raised.Raised);
      }
      return Ok(());
    }

    method MarkDeadLetterPublished(at: Coordinate) returns (r: Result<(), Raised>)
      modifies this
      ensures tables == DeadLetterMarked(old(tables), at) || (r.Err? && tables == old(tables))
      ensures tables.raw == old(tables).raw && tables.typed == old(tables).typed
      ensures tables.failures.Keys == old(tables).failures.Keys
      ensures forall other :: other in tables.failures && other != at ==>
        tables.failures[other] == old(tables).failures[other]
      ensures r.Ok? && at in tables.failures ==> var f, g := tables.failures[at], old(tables).failures[at];
        f.deadLettered && f.attempts == g.attempts && f.key == g.key && f.payload == g.payload
    {
      if * {
        return Err(Raised.Raised);
      }
      tables := DeadLetterMarked(tables, at);
      if * {
        return Err(Raised.Raised);
      }
      return Ok(());
    }
  }

  /** Each call waits for the acknowledgement; without one the record may have been
      appended all the same. */
  class SynchronousKafkaPublisher {
    var outputs: Outputs

    constructor ()
      ensures outputs == Outputs([], [])
    {
      outputs := Outputs([], []);
    }

    method PublishValid(e: Event) returns (r: Result<(), Raised>)
      modifies this
      ensures outputs == old(outputs).(valid := old(outputs).valid + [e]) || (r.Err? && outputs == old(outputs))
    {
      if * {
        return Err(Raised.Raised);
      }
      outputs := outputs.(valid := outputs.valid + [e]);
      if * {
        return Err(Raised.Raised);
      }
      return Ok(());
    }

    method PublishDeadLetter(d: DeadLetter) returns (r: Result<(), Raised>)
      modifies this
      ensures outputs == old(outputs).(dead := old(outputs).dead + [d]) || (r.Err? && outputs == old(outputs))
    {
      if * {
        return Err(Raised.Raised);
      }
      outputs := outputs.(dead := outputs.dead + [d]);
      if * {
        return Err(Raised.Raised);
      }
      return Ok(());
    }
  }

  datatype ProcessingOutcome = Inserted(id: nat) | Duplicate(id: nat) | DeadLettered

  class EventProcessor {
    const contract: Contract
    const references: References
    const repository: PostgresEventRepository
    const publisher: SynchronousKafkaPublisher

    constructor (contract: Contract, loaded: References, repository: PostgresEventRepository,
                 publisher: SynchronousKafkaPublisher)
      ensures this.contract == contract && references == Effective(loaded)
      ensures this.repository == repository && this.publisher == publisher
    {
      this.contract, references := contract, Effective(loaded);
      this.repository, this.publisher := repository, publisher;
    }

    ghost function Here(): Stores
      reads repository, publisher
    {
      Stores(repository.tables, publisher.outputs)
    }

    /** A record that is processed without an exception is handled as its judgement asks, by
        all its effects; whatever happens, the first so many of them happened, and the tables
        stay genuine and only accumulate. A record on which validation breaks never gets
        through and leaves no trace. */
    method Process(ghost logs: Logs, at: Coordinate, source: Entry)
      returns (r: Result<ProcessingOutcome, Raised>, ghost done: nat)
      requires Has(logs, at) && Get(logs, at) == source
      requires Genuine(contract, logs, repository.tables, publisher.outputs)
      modifies repository, publisher
      ensures Genuine(contract, logs, repository.tables, publisher.outputs)
      ensures Accumulates(old(repository.tables), old(publisher.outputs), repository.tables, publisher.outputs)
      ensures r.Ok? ==> Handled(repository.tables, publisher.outputs, at, Judge(contract, references, source.value))
      ensures r.Ok? ==> match r.value
        case Inserted(id) =>
          && contract.read(source.value).Valid? && Acceptable(references, contract.read(source.value).event)
          && id == contract.read(source.value).event.id
          && id !in old(repository.tables).raw && id in repository.tables.raw
          && repository.tables.raw[id] == RawRow(contract.read(source.value).event, at)
        case Duplicate(id) =>
          && contract.read(source.value).Valid? && Acceptable(references, contract.read(source.value).event)
          && id == contract.read(source.value).event.id && id in old(repository.tables).raw
        case DeadLettered =>
          && (contract.read(source.value).Malformed?
              || (contract.read(source.value).Valid? && Refusable(references, contract.read(source.value).event)))
          && at in repository.tables.failures && repository.tables.failures[at].deadLettered
          && DeadLetter(at, contract.text(source.value)) in publisher.outputs.dead
      ensures r.Ok? && !r.value.DeadLettered? && contract.read(source.value).event.kind.NetworkMeasurement? ==>
        contract.read(source.value).event in publisher.outputs.valid
      ensures var j := Judge(contract, references, source.value);
        && done <= EffectCount(j) && Here() == AfterEffects(contract, j, at, source, old(Here()), done)
        && (r.Ok? ==> done == EffectCount(j) && !j.Break?)
      ensures Judge(contract, references, source.value).Break? ==> r.Err? && Here() == old(Here())
    {
      hide Genuine, Accumulates, Acceptable, Refusable, Judge;
      JudgedIff(contract, references, source.value);
      AccumulatesSelf(repository.tables, publisher.outputs);
      match Judge(contract, references, source.value)
      case Break => return Err(Raised.Raised), 0;
      case Refuse =>
        r, done := DeadLetterRecord(logs, at, source);
      case Accept(e) =>
        r, done := Store(logs, at, source, e);
    }

    method Store(ghost logs: Logs, at: Coordinate, source: Entry, e: Event)
      returns (r: Result<ProcessingOutcome, Raised>, ghost done: nat)
      requires Has(logs, at) && Get(logs, at) == source && contract.read(source.value) == Valid(e)
      requires Genuine(contract, logs, repository.tables, publisher.outputs)
      modifies repository, publisher
      ensures Genuine(contract, logs, repository.tables, publisher.outputs)
      ensures Accumulates(old(repository.tables), old(publisher.outputs), repository.tables, publisher.outputs)
      ensures r.Ok? ==> Handled(repository.tables, publisher.outputs, at, Accept(e))
      ensures done <= EffectCount(Accept(e)) && (r.Ok? ==> done == EffectCount(Accept(e)))
      ensures Here() == AfterEffects(contract, Accept(e), at, source, old(Here()), done)
      ensures r.Ok? ==> r.value == (if e.id in old(repository.tables).raw then Duplicate(e.id) else Inserted(e.id))
      ensures r.Ok? && r.value.Inserted? ==> repository.tables.raw[e.id] == RawRow(e, at)
    {
      hide Genuine, Accumulates;
      ghost var t0, out0 := repository.tables, publisher.outputs;
      AccumulatesSelf(t0, out0);
      PersistKeeps(contract, logs, t0, out0, e, at);
      var inserted := repository.PersistEvent(e, at);
      done := if repository.tables == t0 then 0 else 1;
      if inserted.Err? {
        return Err(Raised.Raised), done;
      }
      InsertsHere(contract, logs, t0, out0, e, at);
      if e.kind.NetworkMeasurement? {
        PublishValidKeeps(contract, logs, repository.tables, out0, e);
        var published := publisher.PublishValid(e);
        AccumulatesTrans(t0, out0, repository.tables, out0, repository.tables, out0.(valid := out0.valid + [e]));
        done := if publisher.outputs == out0 then 1 else 2;
        if published.Err? {
          return Err(Raised.Raised), done;
        }
      }
      return Ok(if inserted.value then Inserted(e.id) else Duplicate(e.id)), EffectCount(Accept(e));
    }

    method DeadLetterRecord(ghost logs: Logs, at: Coordinate, source: Entry)
      returns (r: Result<ProcessingOutcome, Raised>, ghost done: nat)
      requires Has(logs, at) && Get(logs, at) == source
      requires Genuine(contract, logs, repository.tables, publisher.outputs)
      modifies repository, publisher
      ensures Genuine(contract, logs, repository.tables, publisher.outputs)
      ensures Accumulates(old(repository.tables), old(publisher.outputs), repository.tables, publisher.outputs)
      ensures r.Ok? ==> r.value == DeadLettered && Handled(repository.tables, publisher.outputs, at, Refuse)
      ensures r.Ok? ==> DeadLetter(at, contract.text(source.value)) in publisher.outputs.dead
      ensures done <= EffectCount(Refuse) && (r.Ok? ==> done == EffectCount(Refuse))
      ensures Here() == AfterEffects(contract, Refuse, at, source, old(Here()), done)
    {
      hide Genuine, Accumulates;
      ghost var t0, out0 := repository.tables, publisher.outputs;
      AccumulatesSelf(t0, out0);
      RecordKeeps(contract, logs, t0, out0, at);
      var recorded := repository.RecordFailure(at, source);
      done := if repository.tables == t0 then 0 else 1;
      if recorded.Err? {
        return Err(Raised.Raised), done;
      }
      ghost var t1 := repository.tables;
      var letter := DeadLetter(at, contract.text(source.value));
      PublishDeadKeeps(contract, logs, t1, out0, letter);
      var published := publisher.PublishDeadLetter(letter);
      ghost var out1 := out0.(dead := out0.dead + [letter]);
      AccumulatesTrans(t0, out0, t1, out0, t1, out1);
      done := if publisher.outputs == out0 then 1 else 2;
      if published.Err? {
        return Err(Raised.Raised), done;
      }
      FailurePayload(contract, logs, t1, out1, at);
      MarkKeeps(contract, logs, t1, out1, at);
      AccumulatesTrans(t0, out0, t1, out1, DeadLetterMarked(t1, at), out1);
      var marked := repository.MarkDeadLetterPublished(at);
      done := if repository.tables == t1 then 2 else 3;
      if marked.Err? {
        return Err(Raised.Raised), done;
      }
      return Ok(DeadLettered), 3;
    }
  }

  lemma AccumulatesSelf(t: Tables, out: Outputs)
    ensures Accumulates(t, out, t, out)
  {
  }

  lemma FailurePayload(contract: Contract, logs: Logs, t: Tables, out: Outputs, at: Coordinate)
    requires Genuine(contract, logs, t, out) && at in t.failures
    ensures Has(logs, at) && t.failures[at].payload == Get(logs, at).value
  {
    assert FailureGenuine(contract, logs, out, at, t.failures[at]);
  }
}
