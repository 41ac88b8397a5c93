# NetPulse: verified models of the telemetry pipeline

NetPulse collects network telemetry on agents, carries it through a broker into PostgreSQL,
classifies incidents, rolls the data up and serves it page by page. This project models the
parts whose correctness spans several functions, stores or runs, in Dafny, and proves what
they are for. `dafny verify dfyconfig.toml` checks it.

## Organisation

| files | what they model |
|---|---|
| `Prelude`, `Order`, `Runs`, `Text`, `Sorting` | options and filters; strict total orders and sorted listings; runs of a step relation; code-point order; Python's stable `sorted` |
| `Broker`, `Outbox`, `Ingest`, `Consumer`, `Delivery` | the at-least-once chain: append-only logs, the agent's SQLite outbox and publisher, record processing and its tables, the manual-offset consumer, and the whole chain as one system of steps that the programs refine |
| `Incidents`, `Classify`, `Symptoms`, `Lifecycle`, `IncidentStore`, `IncidentLog`, `IncidentService` | the incident classifier: rules and what they mean of the snapshot's columns, lifecycle, tables, published log, and the service that ties them together |
| `Base64Url`, `Cursor`, `Keyset`, `Paging` | keyset pagination: the token's transport and binary layout, walks over a changing table, and the two-query page |
| `Analytics`, `Columns`, `Refresh`, `Reconcile` | daily facts: aggregation and what its columns are of the source rows, the refresh job and histories of refreshes, and the independent checks |
| `Tableau`, `TableauColumns` | the two roll-ups, what their columns are of the exported rows, and the incident listing |

Code that changes things step by step is a method or a class here, proved against a function
or an invariant; what the system promises is then proved about that function or invariant.
Where a call can fail, the model lets it fail before or after its durable effect (`if *`),
and a method that returns at such a point leaves its invariant in place: that is the state a
crash leaves behind. Logs grow between calls as other producers please. The delivery chain is
modelled twice: as programs, and as a system of steps in which everything interleaves; the
programs' methods are proved to take legal steps only, so what holds of every reachable world
holds of them.

## Conventions

- Identifiers that the programs only compare (event ids, incident ids) are natural numbers;
  their order stands for UUID order. Ids derived by hashing (`uuid5`) come from an injective
  function of what is hashed. SHA-256 is an arbitrary function to 32 bytes; no freedom from
  collisions is claimed. Database collation is an arbitrary strict total order.
- Sums and averages are exact reals. Times are integers (microseconds) or reals (seconds).
- The contract that reads an event from bytes, UTF-8 decoding with replacement, and the
  decoder of version 1 cursors are parameters. The contract may accept, refuse, or raise some
  other exception.
- One classifier, one consumer, and observation times that strictly increase from cycle to
  cycle, as the incident ids require.

## Where the code does not do what one would expect

Each of these is a lemma with a concrete input and a lemma that says exactly when the
expectation holds.

- *Reading position and committed offset of the consumer agree at the head of its loop, and
  giving up leaves the offset uncommitted* (`docs/architecture.md` says it stops without
  committing). A commit that takes effect but raises is retried like any failure, so the
  committed offset is then one ahead, also when the process gives up.
  `Consumer.LostAckMisaligns`; exactly then: `Consumer.AlignedIff`,
  `Consumer.GivingUpLeavesUncommitted`.
- *Persisting a valid event leaves a row for it.* The insert is also suppressed by a taken
  source coordinate, so a recreated topic that reuses offsets loses events as duplicates,
  which `docs/limitations.md` admits. `Ingest.ReusedOffsetLosesEvent`; exactly when:
  `Ingest.PersistedIff`. With append-only logs it cannot happen: `Ingest.PersistKeeps`.
- *A page is that of the table as the request found it.* The two queries of a request run in
  one transaction at PostgreSQL's default level, READ COMMITTED, so each sees what is
  committed when it starts, and a refresh may commit between them.
  `Paging.CommitBetweenQueries` gives a page of neither state; exactly when it is that of the
  first: `Paging.OneSnapshotIff`; of the second: `Paging.LaterSnapshotIff`. What paging
  promises over a changing table holds all the same: `Paging.ChangingTable`.
- *A valid token is answered.* An identifier may hold U+0000, which validation and token
  decoding admit and PostgreSQL text does not, so the query raises. `Paging.NulTokenRaises`;
  exactly when it is answered: `Paging.AnsweredIff`. Tokens that the service issues hold
  stored text: `Paging.FollowIsPages`.
- *Reconciling everything finds nothing only when the facts are current.* The dates are read
  in one transaction and compared in another, so what commits between on other dates goes
  unnoticed. `Reconcile.CommitBetweenTransactions`; what a clean result means then:
  `Reconcile.AllCleanIff`; exactly which sources it speaks for: `Reconcile.CleanIsCurrentIff`.
  With nothing committed between it holds: `Reconcile.AllCleanAtRest`.
- *Both roll-ups are independent of the order of their input.* The sort key maps a missing
  role to the empty text, so a missing and an empty role tie and keep their first-seen order.
  `Tableau.EmptyRoleClashes` for both; exactly when: `Tableau.DailyIndependentIff`,
  `Tableau.AgentIndependentIff`. The agents table admits no empty role, so the exporter's own
  rows are safe: `Tableau.StoredRolesAreIndependent`.
- *Incident reconciliation is clean right after a refresh.* The operational side counts array
  elements, the analytics side distinct members. `Reconcile.RepeatedAgentIsFlagged`; exactly
  which incidents are flagged: `Reconcile.IncidentMismatchesAreRepeats`. The classifier's own
  incidents never are: `Reconcile.ClassifiedIncidentsReconcile`.
- *An incident opens after `open_observations` hits and resolves after `resolve_observations`
  misses.* With the setting 1 the code still needs two: the thresholds are the larger of 2 and
  the setting (`Lifecycle.CountersRefineHistory`). `Lifecycle.OneHitDoesNotOpen`,
  `Lifecycle.OneMissDoesNotResolve`; exactly when: `Lifecycle.OpensAtSettingIff`,
  `Lifecycle.ResolvesAtSettingIff`.

## Model

| member | source | states |
|---|---|---|
| `Delivery.StepKeeps` | services/event-ingestor/src/netpulse_ingestion/processor.py:77-128 | every step of every process (enqueue, append, mark, prune, boot, persist, publish, record, commit, raise, die) keeps the invariant of the whole chain, whether or not its call is acknowledged |
| `Delivery.EveryRunKeeps` | services/event-ingestor/src/netpulse_ingestion/consumer.py:56-121 | the invariant holds in every world of every run from the empty system, with crashes, lost acknowledgements, late and repeated appends anywhere |
| `Delivery.NothingEnqueuedIsLost` | services/network-agent/src/netpulse_agent/outbox.py:107-170 | in every reachable state a successfully enqueued event is still pending, unchanged, in the outbox, or its record stands in its topic |
| `Delivery.CommittedIsHandled` | services/event-ingestor/src/netpulse_ingestion/repository.py:55-95 | in every reachable state each record below the committed offset was dealt with under an allowlist in use, read off the event's own fields: an acceptable event has one raw row for its id, its typed row unless the kind has none, and a measurement is in the valid topic; a refusable event or a malformed payload is a recorded failure with its bytes, marked and really dead-lettered with its text; a record that breaks validation is never below it |
| `Delivery.EnqueuedReachesTables` | services/network-agent/src/netpulse_agent/publisher.py:62-110 | end to end over both stores: an enqueued event that the contract reads back and that is acceptable to every allowlist, by its own fields, is pending or stands in its topic; and at every coordinate where its record stands, once committed past, it has its raw row and a measurement is in the valid topic |
| `Delivery.MovesReach` | services/network-agent/src/netpulse_agent/publisher.py:62-110 | refinement: whatever a publisher's methods do to outbox rows and log is a run of the step system, so its guarantees hold of the program |
| `Delivery.EffectsReach` | services/event-ingestor/src/netpulse_ingestion/processor.py:77-128 | refinement: the first n durable effects of processing a record, in the program's order, are n legal steps from taking it |
| `Delivery.TurnsReach` | services/event-ingestor/src/netpulse_ingestion/consumer.py:56-121 | refinement: whatever an ingestor process does between its start and its end, attempts with lost acknowledgements and foreign arrivals included, is a run of the step system |
| `Delivery.Pipeline.Run` | services/event-ingestor/src/netpulse_ingestion/cli.py:39-68 | the programs themselves, called in any order any number of times, each failing or dying inside as it may: the stores are always those of a reachable world, the log only grows, every event enqueued is pending or in its topic, and every record below the committed offsets is settled |
| `Delivery.Pipeline.Enqueue` | services/network-agent/src/netpulse_agent/outbox.py:107-132 | an enqueue by an agent is accepted exactly when its id is new and the ceiling leaves room, and moves the chain by legal steps |
| `Delivery.Pipeline.Publish` | services/network-agent/src/netpulse_agent/publisher.py:62-110 | a publisher's batch moves the chain from one reachable world to another, and the log only grows |
| `Delivery.Pipeline.Ingest` | services/event-ingestor/src/netpulse_ingestion/consumer.py:56-121 | an ingestor process with any allowlists, from its start at the committed offsets to its end or death, moves the chain from one reachable world to another, and the log only grows |
| `Ingest.JudgedIff` | services/event-ingestor/src/netpulse_ingestion/processor.py:77-103 | exactly which payloads are accepted, and as which event, and which are refused, by agent, target and endpoint of the event and by the allowlists; every other payload raises |
| `Ingest.EffectiveLists` | services/event-ingestor/src/netpulse_ingestion/processor.py:72-75 | the built-in allowlists stand in for empty ones and for no other |
| `Outbox.DelayBounds` | services/network-agent/src/netpulse_agent/outbox.py:180-186 | for every retry count and jitter the delay lies between the base and 1.25 times the maximum, and the pre-jitter delay never shrinks with the retry count |
| `Outbox.DelayDoubles` | services/network-agent/src/netpulse_agent/outbox.py:180-186 | the delay before jitter starts at the base and doubles with every retry, twenty times at most and never past the maximum; jitter multiplies it by 1 to 1.25 |
| `Outbox.FailureElapsed` | services/network-agent/src/netpulse_agent/outbox.py:172-196 | whatever the jitter, the time before attempt n + 1 of a row that keeps failing is at least the sum of its first n pre-jitter delays, and its stored retry count is n |
| `Outbox.BackoffElapsed` | services/network-agent/src/netpulse_agent/outbox.py:180-196 | after n ≤ 21 uncapped consecutive failures at least base·(2ⁿ − 1) elapses before attempt n + 1 |
| `Outbox.BatchIsOldest` | services/network-agent/src/netpulse_agent/outbox.py:134-147 | a batch is in order of creation time and then id, and no eligible row outside it precedes one in it |
| `Outbox.BatchEligible` | services/network-agent/src/netpulse_agent/outbox.py:139-146 | a batch holds eligible rows only, each once, and is as long as the limit and the eligible rows allow |
| `Outbox.SQLiteOutbox.NextSequence` | services/network-agent/src/netpulse_agent/outbox.py:88-105 | sequence numbers are handed out once each and without a gap: a new one is none of the earlier ones, and every smaller one was handed out before |
| `Outbox.SQLiteOutbox.Enqueue` | services/network-agent/src/netpulse_agent/outbox.py:107-132 | refused without effect exactly when storage and payload exceed the ceiling; otherwise a row is added unless its id is there, eligible from now on, with no retries, and the result tells which; other rows stay |
| `Outbox.SQLiteOutbox.Ready` | services/network-agent/src/netpulse_agent/outbox.py:134-157 | returns the batch's rows with their stored record and retry count |
| `Outbox.SQLiteOutbox.MarkDelivered` | services/network-agent/src/netpulse_agent/outbox.py:159-170 | an undelivered row is delivered now and loses its error; the row is never eligible again; what it carries, an earlier delivery time and every other row stay |
| `Outbox.SQLiteOutbox.MarkFailed` | services/network-agent/src/netpulse_agent/outbox.py:172-196 | an undelivered row becomes eligible again exactly at the returned time, the delay from now, which lies between the base and 1.25 times the maximum, with one more retry than was fetched and the error's first 1,024 characters; its record, delivered rows and every other row stay |
| `Outbox.SQLiteOutbox.PruneAcknowledged` | services/network-agent/src/netpulse_agent/outbox.py:198-210 | an undelivered row always stays, a delivered row stays if and only if it was acknowledged after the cutoff, rows that stay are unchanged, and the count is the number removed |
| `Outbox.EnqueueKeeps` | services/network-agent/src/netpulse_agent/outbox.py:117-132 | an accepted enqueue joins the events that are never lost, and no earlier one is lost by it |
| `Outbox.DeliverKeeps` | services/network-agent/src/netpulse_agent/publisher.py:106-110 | marking a row whose record the log holds loses nothing |
| `Outbox.PruneKeeps` | services/network-agent/src/netpulse_agent/outbox.py:198-210 | pruning loses nothing and never removes or changes an undelivered row |
| `Outbox.OutboxPublisher.PublishOne` | services/network-agent/src/netpulse_agent/publisher.py:80-110 | whatever the broker answers and wherever the process dies, nothing enqueued is lost and rows and log change by legal moves; Sent only if the log holds the record; every other answer leaves the row undelivered with one more retry; other rows are untouched |
| `Outbox.OutboxPublisher.PublishReady` | services/network-agent/src/netpulse_agent/publisher.py:62-78 | acknowledged and failed add up to the batch, a row that disappears has its record in the log, and rows and log change by legal moves only |
| `Ingest.PersistedIff` | services/event-ingestor/src/netpulse_ingestion/repository.py:55-95 | the event's row exists after the insert if and only if it existed before or the source coordinate was free |
| `Ingest.ReusedOffsetLosesEvent` | docs/limitations.md:8-11 | concretely: tables that are right for the old log, and a recreated topic whose record at a reused offset is read and accepted; its event gets no row and no failure |
| `Ingest.PersistKeeps` | services/event-ingestor/src/netpulse_ingestion/repository.py:57-94 | with append-only logs the insert always leaves a row for the event, keeps every row equal to the record at its coordinate, and keeps raw and typed tables matched |
| `Ingest.OneRowPerRecord` | database/migrations/versions/0001_phase1_operational_schema.py:40-63 | two raw rows never share a source coordinate |
| `Ingest.MarkKeeps` | services/event-ingestor/src/netpulse_ingestion/repository.py:220-235 | marking after the dead letter is published makes the refused record handled |
| `Ingest.PostgresEventRepository.PersistEvent` | services/event-ingestor/src/netpulse_ingestion/repository.py:55-95 | one transaction for raw and typed row that may take effect although the call raises; the row is inserted if and only if its id is new and no row has its coordinate, and then holds the event and the coordinate; other rows stay |
| `Ingest.PostgresEventRepository.RecordFailure` | services/event-ingestor/src/netpulse_ingestion/repository.py:181-218 | inserts the failure with the record's key and bytes as its first attempt, or counts one more attempt, keeping an earlier dead-letter mark; other rows stay |
| `Ingest.PostgresEventRepository.MarkDeadLetterPublished` | services/event-ingestor/src/netpulse_ingestion/repository.py:220-235 | marks this failure, keeping its attempts, key and bytes, and no other |
| `Ingest.EventProcessor.Process` | services/event-ingestor/src/netpulse_ingestion/processor.py:77-96 | Inserted or Duplicate means that the payload reads as an event whose agent is listed and whose named endpoint, by target or else endpoint, is absent or listed, with a new row of exactly this event or an existing one of its id; DeadLettered means a malformed payload, an unlisted agent or an unlisted or non-text endpoint, with the failure marked and the letter published; an exception anywhere leaves exactly the first so many of its effects; a record on which validation breaks leaves no trace |
| `Ingest.EventProcessor.Store` | services/event-ingestor/src/netpulse_ingestion/processor.py:85-96 | persist, then publish a measurement, interrupted anywhere: exactly a prefix of the two effects happened, and the outcome is Duplicate exactly when the event id was already stored |
| `Ingest.EventProcessor.DeadLetterRecord` | services/event-ingestor/src/netpulse_ingestion/processor.py:105-128 | record, publish, then mark, interrupted anywhere: exactly a prefix of the three effects happened, and a marked failure always has its dead letter |
| `Consumer.AlignedIff` | services/event-ingestor/src/netpulse_ingestion/consumer.py:62-118 | over every run of a process, committed offset and reading position of a partition agree if and only if no commit at that position took effect unacknowledged, and otherwise differ by one |
| `Consumer.LostAckMisaligns` | services/event-ingestor/src/netpulse_ingestion/consumer.py:94-117 | a concrete run in which a lost commit acknowledgement leaves the offset committed although the process gives up on the record |
| `Consumer.CommitsAreStepwise` | services/event-ingestor/src/netpulse_ingestion/consumer.py:78-79 | a committed offset never goes back and advances only by one, over the record that stands at it |
| `Consumer.AttemptsBounded` | services/event-ingestor/src/netpulse_ingestion/consumer.py:99-117 | no coordinate is attempted more than the configured limit in one process, and the retry counter is exact for the record at hand |
| `Consumer.GivingUpLeavesUncommitted` | services/event-ingestor/src/netpulse_ingestion/consumer.py:108-112 | on giving up, exactly the limit was attempted, and the offset is uncommitted if and only if no commit of it took effect unacknowledged |
| `Consumer.CommitKeeps` | services/event-ingestor/src/netpulse_ingestion/consumer.py:77-79 | committing a settled record keeps everything below the committed offset handled |
| `Consumer.IngestionConsumer.ProcessAndCommit` | services/event-ingestor/src/netpulse_ingestion/consumer.py:76-79 | the offset is committed only after processing, at most by one, and everything below it stays handled when either call raises before or after its effect; the stores move by one legal attempt |
| `Consumer.IngestionConsumer.Deliver` | services/event-ingestor/src/netpulse_ingestion/consumer.py:73-118 | one delivery moves position, committed offset and retry counter exactly as one legal tick of the run |
| `Consumer.IngestionConsumer.Run` | services/event-ingestor/src/netpulse_ingestion/consumer.py:56-121 | for any number of polls, any interleaved appends and a death between any two effects: all records below the committed offsets are handled, offsets and counters are those of a legal run, and giving up means the limit was reached |
| `Classify.ClassificationEngine.Classify` | services/incident-classifier/src/netpulse_classifier/engine.py:29-217 | the nested branches agree with a flat table: the first symptom in priority order that applies is reported with its rows, then one finding per silent agent; what the table means is in the rows of `Symptoms` |
| `Classify.ClassificationEngine.Offline` | services/incident-classifier/src/netpulse_classifier/engine.py:293-340 | the loop yields one finding for each heartbeat row of an agent that is not recent, in row order, and none when no agent is recent |
| `Symptoms.ShowsIff` | services/incident-classifier/src/netpulse_classifier/engine.py:431-484 | each rule applies exactly when its condition holds of the snapshot's columns: which sampled rows of which role and type exist, succeed, fail, lose, slow down or lose signal |
| `Symptoms.ReportedIff` | services/incident-classifier/src/netpulse_classifier/engine.py:55-214 | a finding of a kind is made if and only if the kind's condition holds of the columns and that of no earlier kind does |
| `Symptoms.CalmIsQuiet` | services/incident-classifier/src/netpulse_classifier/engine.py:431-484 | when every sampled row succeeds above the failure limit, measurements lose below 0.75 of the loss limit and peak below half of the latency limit, there is no network-level finding |
| `Symptoms.EvidenceIs` | services/incident-classifier/src/netpulse_classifier/engine.py:55-214 | a network-level finding's evidence is exactly the sampled rows that its kind is about, each as often as the snapshot has it; severity, confidence, summary and advice are the kind's |
| `Symptoms.FindingsSummarise` | services/incident-classifier/src/netpulse_classifier/engine.py:342-412 | every finding names exactly the agents and endpoints of its evidence, in code-point order, and its peaks are the maxima of its evidence |
| `Symptoms.KeyIs` | services/incident-classifier/src/netpulse_classifier/engine.py:364-397 | a network-level finding's key is its kind's text, for services followed by the endpoints it names |
| `Symptoms.SilentIff` | services/incident-classifier/src/netpulse_classifier/engine.py:293-306 | an agent is reported silent if and only if it is registered, none of its heartbeats is recent enough, and some agent's is |
| `Symptoms.SilenceIs` | services/incident-classifier/src/netpulse_classifier/engine.py:302-340 | a silence finding tells the agent, its last heartbeat, the age in time since then, and exactly the agents heard of |
| `Text.BeforeIff` | services/incident-classifier/src/netpulse_classifier/engine.py:371-372 | the order of names is by code point: after a common beginning the end of the text or the smaller character comes first |
| `Classify.AtMostOneNetworkFinding` | services/incident-classifier/src/netpulse_classifier/engine.py:55-214 | a cycle never yields two network-level findings: of any two findings one is a silent agent |
| `Classify.ImpairmentIsReported` | services/incident-classifier/src/netpulse_classifier/engine.py:153-214 | any sufficiently sampled non-diagnostic measurement that failed, lost packets or was slow forces exactly one network-level finding |
| `Classify.KeysDistinct` | services/incident-classifier/src/netpulse_classifier/engine.py:322-397 | with one heartbeat row per agent no two findings of a cycle share a key |
| `Classify.OrderIndependent` | services/incident-classifier/src/netpulse_classifier/engine.py:29-417 | permuting the snapshot's rows changes only the order of the evidence and of the silent agents |
| `Classify.FindingsSound` | services/incident-classifier/src/netpulse_classifier/engine.py:342-417 | every finding names an affected agent, no agent or endpoint twice, carries evidence, has confidence, peak and loss in range, and texts that fit the message contract |
| `Classify.SilenceFitsIff` | services/incident-classifier/src/netpulse_classifier/engine.py:318-338 | a silent agent's finding meets the message contract's text limit if and only if the agent's id has at most 1,961 characters |
| `Classify.MembersDistinct` | services/incident-classifier/src/netpulse_classifier/engine.py:371-401 | no finding lists an affected agent or endpoint twice, as the message schema asks for the agents |
| `Lifecycle.TransitionAll` | services/incident-classifier/src/netpulse_classifier/engine.py:219-291 | the two loops over dictionaries advance the cycle's keys in order, each as its finding and its active incident call for |
| `Lifecycle.OnePerKey` | services/incident-classifier/src/netpulse_classifier/engine.py:226-291 | a cycle advances each key of findings ∪ active exactly once and no other key |
| `Lifecycle.IndexLast` | services/incident-classifier/src/netpulse_classifier/engine.py:226-227 | of several findings or active incidents with one key the dictionary keeps the last |
| `Lifecycle.CountersRefineHistory` | services/incident-classifier/src/netpulse_classifier/engine.py:251-288 | for every hit/miss history, status and counters equal a closed form: open after max(2, open_observations) consecutive hits, resolved on a candidate's first miss, reopened on a hit, resolved exactly at max(2, resolve_observations) consecutive misses |
| `Lifecycle.OneHitDoesNotOpen` | services/incident-classifier/src/netpulse_classifier/engine.py:234-250 | with the setting 1 a first hit leaves the incident a candidate |
| `Lifecycle.OpensAtSettingIff` | services/incident-classifier/src/netpulse_classifier/engine.py:234-260 | over every history of hits an incident is open exactly from the configured number on, if and only if that number is at least 2 |
| `Lifecycle.OneMissDoesNotResolve` | services/incident-classifier/src/netpulse_classifier/engine.py:272-288 | with the setting 1 a first miss leaves an opened incident recovering |
| `Lifecycle.ResolvesAtSettingIff` | services/incident-classifier/src/netpulse_classifier/engine.py:272-288 | over every history of an opened incident it is resolved exactly when the misses at its end reach the configured number, if and only if that number is at least 2 |
| `Lifecycle.TrailingMeans` | services/incident-classifier/src/netpulse_classifier/engine.py:275-278 | the recovery count is the number of consecutive misses at the end of the history |
| `IncidentStore.PersistKeeps` | services/incident-classifier/src/netpulse_classifier/repository.py:160-247 | a transition that its key calls for is accepted by contract, checks and unique index, adds exactly one new event, and keeps rows and events the folds of their histories |
| `IncidentStore.UpsertKeeps` | services/incident-classifier/src/netpulse_classifier/repository.py:183-207 | an upsert keeps key, kind and start of a stored row, raises its peaks to the maximum, and replaces every other column; other rows stay |
| `IncidentStore.AcceptsIff` | database/migrations/versions/0004_phase4_incident_classification.py:29-66 | exactly which column values and which other unresolved incident make the transaction fail |
| `IncidentStore.EventRejectedIff` | packages/contracts/src/netpulse_contracts/models.py:152-184 | exactly which transitions the message contract rejects, and what an accepted message carries |
| `IncidentStore.LifetimesApart` | database/migrations/versions/0004_phase4_incident_classification.py:64-66 | in every reachable state two incidents of one key are not both unresolved, and one ended before the other started |
| `IncidentStore.RowIsFoldOfEvents` | services/incident-classifier/src/netpulse_classifier/repository.py:183-247 | the revisions of an incident's events are exactly 1..state_revision and the last one has the row's status |
| `IncidentStore.StoredCountersRefineHistory` | services/incident-classifier/src/netpulse_classifier/engine.py:251-288 | in every reachable state the stored status and counters are the closed form of the key's hits and misses since its start |
| `IncidentStore.StoredPeaksAreMaxima` | services/incident-classifier/src/netpulse_classifier/repository.py:191-198 | stored peak latency and loss are the maxima of all non-null finding peaks since the start, although recoveries feed the stored finding back in |
| `IncidentStore.ResolvedStays` | services/incident-classifier/src/netpulse_classifier/repository.py:183-207 | persisting never changes a resolved row |
| `IncidentStore.MessageInRange` | packages/contracts/src/netpulse_contracts/models.py:152-184 | a state event has an affected agent, evidence, an end if and only if resolved, end ≥ start, duration ≥ 0, and a published summary and an advice of 1 to 2,048 characters |
| `IncidentLog.PublishKeeps` | services/incident-classifier/src/netpulse_classifier/service.py:70-80 | publishing the next pending event, once, again or without acknowledgement, keeps the collapsed log a prefix of the publication order |
| `IncidentLog.MarkKeeps` | services/incident-classifier/src/netpulse_classifier/repository.py:263-272 | marking the event that the log ends with moves the published boundary by exactly one |
| `IncidentLog.InsertKeeps` | services/incident-classifier/src/netpulse_classifier/repository.py:232-247 | events persisted later than everything published join the rest of the order and leave its published beginning alone |
| `IncidentLog.PendingIsNext` | services/incident-classifier/src/netpulse_classifier/repository.py:249-261 | the pending query returns the next events of the publication order |
| `IncidentLog.RepeatsAreAdjacent` | services/incident-classifier/src/netpulse_classifier/service.py:77-80 | nothing comes between two occurrences of one event in the log |
| `IncidentLog.RevisionsInOrder` | services/incident-classifier/src/netpulse_classifier/repository.py:252-258 | before the event of revision r the order holds exactly revisions 1..r−1 of its incident |
| `IncidentService.PostgresIncidentRepository.LoadActive` | services/incident-classifier/src/netpulse_classifier/repository.py:143-158 | returns each unresolved row once, as loaded, by start time and key |
| `IncidentService.PostgresIncidentRepository.PersistTransition` | services/incident-classifier/src/netpulse_classifier/repository.py:160-247 | row and event in one transaction or nothing; rejected only if a constraint is violated; may commit although interrupted |
| `IncidentService.PostgresIncidentRepository.PendingPublications` | services/incident-classifier/src/netpulse_classifier/repository.py:249-261 | at most the limit of unpublished events, in publication order, with their stored payloads, none of them published |
| `IncidentService.IncidentClassifierService.PublishPending` | services/incident-classifier/src/netpulse_classifier/service.py:70-80 | draining changes marks only, extends the log, returns the number marked, and when it completes the collapsed log is everything persisted; interrupted anywhere, the invariant holds |
| `IncidentService.IncidentClassifierService.PersistOne` | services/incident-classifier/src/netpulse_classifier/service.py:48-51 | a due transition is never rejected; interrupted or not, rows stay folds of histories and resolved rows stay |
| `IncidentService.IncidentClassifierService.EvaluateOnce` | services/incident-classifier/src/netpulse_classifier/service.py:39-68 | a cycle at a later time persists a prefix of its transitions, each as one more observation of its key, even when interrupted anywhere; completed, it persists them all and leaves nothing unpublished |
| `IncidentService.IncidentClassifierService.Run` | services/incident-classifier/src/netpulse_classifier/cli.py:66-68 | any number of cycles, each interrupted anywhere: the invariant holds, the log only grows, resolved rows never change |
| `IncidentService.PublishedLog` | services/incident-classifier/src/netpulse_classifier/service.py:70-80 | at any moment of any run: repeats are adjacent, the collapsed log is a prefix of all persisted events by event time, incident and revision, revisions are 1, 2, 3, … without a gap per incident, and a row marked published is in the log |
| `IncidentService.EveryEventMeetsContract` | packages/contracts/src/netpulse_contracts/models.py:152-184 | every event of every run meets the message contract's ranges, text lengths and lifecycle rules, and carries evidence |
| `IncidentService.CycleDue` | services/incident-classifier/src/netpulse_classifier/engine.py:226-291 | each transition the engine computes from the loaded rows is the one its key's history calls for |
| `IncidentService.DueStays` | services/incident-classifier/src/netpulse_classifier/service.py:48-50 | persisting one key's transition leaves every other key's computed transition valid |
| `Base64Url.DecodeEncode` | services/query-api/src/netpulse_query_api/cursor.py:76 | decoding an encoded byte string gives it back |
| `Base64Url.CanonicalIff` | services/query-api/src/netpulse_query_api/cursor.py:136-141 | a text over the URL-safe alphabet is the encoding of what it decodes to if and only if no sextet stands alone in the last group and the unused bits of its last sextet are zero |
| `Base64Url.EncodeInjective` | services/query-api/src/netpulse_query_api/cursor.py:76 | distinct byte strings have distinct encodings |
| `Cursor.Payload` | services/query-api/src/netpulse_query_api/cursor.py:60-75 | a valid key's payload consists of bytes, begins with the magic and is at most 1,195 bytes long |
| `Cursor.PayloadLayout` | services/query-api/src/netpulse_query_api/cursor.py:60-76 | the payload byte by byte: N, P, C, 2, the date in three bytes, the source, each identifier's length and its scalars in three bytes, big end first, and the digest |
| `Cursor.TransportIff` | services/query-api/src/netpulse_query_api/cursor.py:131-141 | a token passes the length, alphabet, decoding and re-encoding checks if and only if it has at most 2,048 characters, all of the alphabet, and is canonical as to length and unused bits |
| `Cursor.EncodeCursor` | services/query-api/src/netpulse_query_api/cursor.py:60-76 | encoding succeeds exactly for keys with encodable identifiers, and a token has at most 1,594 characters, below the 2,048 limit |
| `Cursor.DecodeV2` | services/query-api/src/netpulse_query_api/cursor.py:95-128 | the offset-advancing loop computes the parse of three length-prefixed identifiers, with the same rejections |
| `Cursor.ParseV2Iff` | services/query-api/src/netpulse_query_api/cursor.py:95-128 | a byte string parses as (key, digest) if and only if it is exactly their payload |
| `Cursor.DecodeCursor` | services/query-api/src/netpulse_query_api/cursor.py:131-159 | decoding equals the specified result: malformed, mismatching filters, or the key |
| `Cursor.RoundTrip` | services/query-api/src/netpulse_query_api/cursor.py:60-159 | decode(encode(key, filters), filters) = key for every valid key and all filters |
| `Cursor.AcceptedIffEncoded` | services/query-api/src/netpulse_query_api/cursor.py:131-159 | an accepted token with the NPC prefix is exactly the encoding of the key it returns, and conversely |
| `Cursor.TokensDistinct` | services/query-api/src/netpulse_query_api/cursor.py:60-76 | distinct keys have distinct tokens |
| `Cursor.ReplayUnderOtherFilters` | services/query-api/src/netpulse_query_api/cursor.py:157-159 | a token replayed under other filters is accepted if and only if the filter digests coincide |
| `Paging.TwoSeeks` | services/query-api/src/netpulse_query_api/repository.py:95-119 | the same-date query in one state followed by the older-date query with the remaining budget in another yields the first rows after the cursor, in the mixed-direction order, of the rows that the two read |
| `Paging.SeeksPartition` | services/query-api/src/netpulse_query_api/repository.py:22-32 | the two cursor conditions split what is read after the cursor into two blocks, every row of the first before every row of the second, even when a commit comes between the queries |
| `Paging.BuildWhere` | services/query-api/src/netpulse_query_api/repository.py:78-84 | the loop builds conditions that a row meets if and only if it matches the filters |
| `Paging.ListDaily` | services/query-api/src/netpulse_query_api/repository.py:72-122 | for any filters, cursor (its row may be gone), limit and commit between the two queries, the page is the first of the rows read strictly after the cursor, and more is reported if and only if more of them exist; it is an error exactly when the limit is outside 1..200 or a filter or cursor holds text that the database cannot carry |
| `Paging.PageMeans` | services/query-api/src/netpulse_query_api/repository.py:22-122 | in the page's own terms: its rows are those wanted, both dates included, of the state each query sees and past the cursor, strictly ordered by later date, then agent, endpoint, source and probe; one left out comes after all of them, and then the page is full and says so |
| `Paging.CommitBetweenQueries` | services/query-api/src/netpulse_query_api/repository.py:85-119 | concretely: a commit between the two queries of one request gives a page that neither state of the table has |
| `Paging.OneSnapshotIff` | services/query-api/src/netpulse_query_api/repository.py:85-119 | a page over two states is the page of the first alone if and only if its same-date rows exceed the limit or the older rows of both states agree on the rest of the page and on whether more follows |
| `Paging.LaterSnapshotIff` | services/query-api/src/netpulse_query_api/repository.py:85-119 | it is the page of the second state alone if and only if the rows of the cursor's date give the same page in both states and agree on more, or an older row is there to be more |
| `Paging.Daily` | services/query-api/src/netpulse_query_api/api.py:179-188 | a request answers with the page and, when rows remain, the token of its last row |
| `Paging.FollowIsPages` | services/query-api/src/netpulse_query_api/api.py:179-188 | following tokens is walking cursors: every token issued is accepted and leads to the key it encodes; filters that the database cannot carry give no page |
| `Paging.NulTokenRaises` | services/query-api/src/netpulse_query_api/repository.py:95-119 | concretely: an identifier of U+0000 is valid, encodes and decodes, and then its query raises |
| `Paging.AnsweredIff` | services/query-api/src/netpulse_query_api/api.py:179-188 | the token of a valid key is answered if and only if the texts of the key and of the filters are without U+0000 |
| `Paging.ChangingTable` | services/query-api/src/netpulse_query_api/repository.py:72-122 | over any sequence of table states, changing also between the two queries of a request, and any limits: the returned keys strictly increase, each matched in a state that its request read, and once no token is returned every matching row present throughout was returned exactly once |
| `Paging.StaticTable` | services/query-api/src/netpulse_query_api/repository.py:72-122 | on an unchanging table of n matching rows the pages concatenate to the sorted table in max(1, ⌈n/limit⌉) requests, unless the filters cannot be carried to the database |
| `Keyset.PageIs` | services/query-api/src/netpulse_query_api/repository.py:121-122 | a page lists the rows after the cursor in increasing order, as many as limit and rows allow, each before every such row that it leaves out, and more is reported if and only if one is left out |
| `Keyset.WalkIncreases` | services/query-api/src/netpulse_query_api/repository.py:32 | keys of successive pages strictly increase whatever happens to the table between requests |
| `Keyset.WalkComplete` | services/query-api/src/netpulse_query_api/repository.py:121-122 | a walk that ends skipped no row that every request found present |
| `Keyset.SkippedIsLater` | services/query-api/src/netpulse_query_api/repository.py:121-122 | a matching row after the cursor that a page leaves out comes after the page's last row, the one the next cursor stands for |
| `Analytics.RefreshPointwise` | services/analytics/src/netpulse_analytics/repository.py:122-174 | a refresh replaces exactly the grains of its dates by the aggregation of the whole source there and keeps every other grain |
| `Analytics.WindowAggregate` | services/analytics/src/netpulse_analytics/repository.py:149-158 | aggregating the timestamp window agrees with aggregating everything, on the window's dates |
| `Analytics.BoundsAreDates` | services/analytics/src/netpulse_analytics/orchestration/models.py:19-29 | half-open timestamp bounds contain a time exactly when its UTC date lies in the range |
| `Analytics.AdjacentRefreshes` | services/analytics/src/netpulse_analytics/repository.py:122-174 | refreshing two touching or overlapping ranges, in either order, equals refreshing their union |
| `Analytics.AggregatePermutes` | services/analytics/src/netpulse_analytics/repository.py:165-171 | the aggregation does not depend on the physical order of the rows |
| `Columns.FactIs` | services/analytics/src/netpulse_analytics/repository.py:138-171 | there is a fact for a grain if and only if a row of the typed tables belongs to it by UTC day, agent, endpoint, table and probe; its total, successes, failures, latency and loss counts and sums are what these rows add up to, a check's duration as latency and without loss; a sum is null only without a value |
| `Refresh.Repository.RunJob` | services/analytics/src/netpulse_analytics/repository.py:28-71 | a run fails without effect exactly when the lock is taken, a date is missing, the range is inverted or an incident lists an unregistered member; otherwise facts, incident copies, bridges and the run record are rebuilt together, an all-dates run leaves the aggregation of the whole source, agents and endpoints become those registered, the recorded row counts are those of the range and of the incidents, and every foreign key holds again |
| `Refresh.IncidentsCopied` | services/analytics/src/netpulse_analytics/repository.py:176-204 | every incident is copied, each of the fact's nine columns, and the bridges hold exactly the members of its arrays |
| `Refresh.AllIsFull` | services/analytics/src/netpulse_analytics/repository.py:82-96 | an all-dates refresh leaves the facts equal to the aggregation of the whole source whatever they were before: no stale row survives |
| `Refresh.AnyHistoryIsIncremental` | services/analytics/src/netpulse_analytics/repository.py:122-174 | after any interleaving of source changes, range refreshes and full refreshes, each date holds the aggregation of the source as of the last refresh that covered it, and never-covered dates keep their rows |
| `Refresh.FullRefreshForgets` | services/analytics/src/netpulse_analytics/repository.py:82-96 | a history that ends in a full refresh ends with the aggregation of the whole source |
| `Refresh.RefreshReferential` | services/analytics/src/netpulse_analytics/repository.py:98-135 | rebuilt facts refer only to date, agent, endpoint and probe rows that the same transaction provides |
| `Reconcile.MismatchesAreDifferences` | services/analytics/src/netpulse_analytics/orchestration/repository.py:253-281 | the outer join counts exactly the grains at which the two maps differ, one-sided ones and null sums included; none if and only if the maps are equal |
| `Reconcile.ReconcileDaily` | services/analytics/src/netpulse_analytics/orchestration/repository.py:228-281 | counts the recomputed rows, the facts and the differing grains of the range; no difference if and only if the facts of the range are the recomputed ones |
| `Reconcile.CleanAfterRefresh` | services/analytics/src/netpulse_analytics/orchestration/repository.py:81-96 | right after a refresh, reconciling any part of its range finds nothing |
| `Reconcile.AllCleanIff` | services/analytics/src/netpulse_analytics/orchestration/repository.py:81-114 | the dates come from one transaction and the comparison from a later one, whatever was committed between: nothing is found if and only if the later state agrees with its whole source on every grain of those dates, and the facts are current if and only if moreover no other grain differs |
| `Reconcile.AllRangeIs` | services/analytics/src/netpulse_analytics/orchestration/repository.py:98-114 | everything is from the first to the last UTC day that the source or the facts have, or today without any |
| `Reconcile.ReconcileAll` | services/analytics/src/netpulse_analytics/orchestration/repository.py:98-114 | the two transactions as a program: no mismatch if and only if the state compared agrees with its whole source on the dates that the older state gave |
| `Reconcile.CommitBetweenTransactions` | services/analytics/src/netpulse_analytics/orchestration/repository.py:98-114 | concretely: the dates of an empty database are today; a measurement of a later date commits, and reconciling everything finds nothing although its fact is missing |
| `Reconcile.CoveringRangeTells` | services/analytics/src/netpulse_analytics/orchestration/repository.py:81-114 | when the dates read before cover every date of the state compared, finding nothing means that the facts are the aggregation of the whole source, and conversely |
| `Reconcile.CleanIsCurrentIff` | services/analytics/src/netpulse_analytics/orchestration/repository.py:81-114 | for a source and a range, finding nothing means current facts, for all facts dated in the range, if and only if every observation is dated in the range |
| `Reconcile.AllCleanAtRest` | services/analytics/src/netpulse_analytics/orchestration/repository.py:98-114 | with nothing committed between, reconciling everything finds nothing if and only if the facts are the aggregation of the whole source |
| `Reconcile.IncidentMismatchesAreRepeats` | services/analytics/src/netpulse_analytics/orchestration/repository.py:283-311 | after a refresh the incident reconciliation flags exactly the incidents whose agent or endpoint array lists a member twice |
| `Reconcile.FlaggedIff` | services/analytics/src/netpulse_analytics/orchestration/repository.py:283-311 | over any tables nothing is flagged if and only if the ids coincide and at each of them status and revision agree and the arrays are as long as the distinct bridge members are many; exactly the other ids are flagged |
| `Reconcile.ReconcileIncidents` | services/analytics/src/netpulse_analytics/orchestration/repository.py:283-311 | counts the incidents, the facts, and the ids at which they do not tell the same |
| `Reconcile.PersistedSinceIsFlagged` | services/analytics/src/netpulse_analytics/orchestration/repository.py:283-311 | a transition that the classifier persists after a refresh is flagged |
| `Reconcile.ClassifiedIncidentsReconcile` | services/analytics/src/netpulse_analytics/orchestration/repository.py:283-311 | for every table that the classifier's cycles bring about, incident reconciliation after a refresh finds nothing |
| `Reconcile.RepeatedAgentIsFlagged` | services/analytics/src/netpulse_analytics/orchestration/repository.py:283-311 | a concrete incident that is flagged right after the refresh that copied it |
| `Reconcile.ColumnsConserved` | services/analytics/src/netpulse_analytics/repository.py:165-171 | after a refresh every column of the range's facts (total, successes, failures, latency and loss, counts and sums) adds up to what the typed rows of the range add |
| `Reconcile.AggregateMeetsChecks` | database/migrations/versions/0005_phase5a_analytics.py:49-62 | every computed fact satisfies the table's checks: success + failure = total > 0, counts within the total, a sum null if and only if its count is 0 |
| `Reconcile.AggregateIsReportable` | services/analytics/src/netpulse_analytics/orchestration/repository.py:314-331 | from values within their limits no computed fact is invalid for the reporting validator, under SQL's three-valued logic |
| `Reconcile.InvalidIff` | services/analytics/src/netpulse_analytics/orchestration/repository.py:314-331 | the validator reports a fact if and only if its counts do not add up, a latency sum is negative, or a loss sum is not between 0 and 100 times its count; nulls report nothing |
| `Reconcile.ReportingValidIff` | services/analytics/src/netpulse_analytics/orchestration/repository.py:116-146 | the validation passes if and only if no fact of the range is reported and the run named covers exactly this range and not all dates |
| `Reconcile.ReportingValidAfterRefresh` | services/analytics/src/netpulse_analytics/orchestration/repository.py:116-146 | right after a run refreshed its range, the reporting validation of that run passes |
| `Sorting.SortStable` | services/analytics/src/netpulse_analytics/tableau/transform.py:107 | the sort keeps the relative order of keys with equal sort keys |
| `Sorting.SortSorted` | services/analytics/src/netpulse_analytics/tableau/transform.py:107 | the sort never puts a key before one with a smaller sort key |
| `Sorting.AscendingUnique` | services/analytics/src/netpulse_analytics/tableau/transform.py:202-204 | a strictly ascending listing of given elements is unique |
| `Tableau.GroupByIs` | services/analytics/src/netpulse_analytics/tableau/transform.py:86-101 | the groups' keys are the rows' keys, each once; a group's members are the rows with its key, in order |
| `Tableau.CollectGroups` | services/analytics/src/netpulse_analytics/tableau/transform.py:86-101 | the appending loop builds that grouping |
| `Tableau.DailyDataset` | services/analytics/src/netpulse_analytics/tableau/transform.py:104-132 | one line per daily group in sort-key order, from the rows with its key |
| `Tableau.AgentDataset` | services/analytics/src/netpulse_analytics/tableau/transform.py:135-176 | one line per agent group in sort-key order, from the rows with its key |
| `TableauColumns.DailyLineIs` | services/analytics/src/netpulse_analytics/tableau/transform.py:104-132 | each column of a daily line in terms of the rows of its day, pseudonym, role, source and kind: totals are sums of the fields, null sums as 0; an average is null if and only if its count is 0, and otherwise times the count is the sum, 100 times the successes for the rate |
| `TableauColumns.AgentLineColumns` | services/analytics/src/netpulse_analytics/tableau/transform.py:135-176 | the same of an agent line over all its days, with its first and latest date and the number of its dates |
| `TableauColumns.OneLineEach` | services/analytics/src/netpulse_analytics/tableau/transform.py:86-101 | every row has its line in both datasets and no two lines share a group |
| `TableauColumns.LinesInOrder` | services/analytics/src/netpulse_analytics/tableau/transform.py:107-148 | lines come by date, agent, role, source and kind in code-point order, a missing role as the empty text |
| `Tableau.RollUpCoherence` | services/analytics/src/netpulse_analytics/tableau/transform.py:104-176 | for any pseudonyms, an agent line's totals are the sums over the daily lines of its group, its day count is their number, its first and latest dates are dates of such lines that bound all of them, and its averages are total sum over total count |
| `Tableau.SumOverDays` | services/analytics/src/netpulse_analytics/tableau/transform.py:110-116 | summing a group day by day is summing it at once, in every column |
| `Tableau.DatasetsSorted` | services/analytics/src/netpulse_analytics/tableau/transform.py:107-148 | both datasets come out in the order of their sort keys |
| `Tableau.DailyIndependentIff` | services/analytics/src/netpulse_analytics/tableau/transform.py:104-132 | the daily dataset is independent of input order if and only if no two rows of one day and group differ by a missing role against an empty one |
| `Tableau.AgentIndependentIff` | services/analytics/src/netpulse_analytics/tableau/transform.py:135-176 | the agent dataset is independent of input order if and only if no two rows of one group, of whatever days, differ by a missing role against an empty one |
| `Tableau.ClashesAreTies` | services/analytics/src/netpulse_analytics/tableau/transform.py:107-148 | different groups share a sort key only through a missing and an empty role |
| `Tableau.StoredRolesAreIndependent` | database/migrations/versions/0001_phase1_operational_schema.py:21-27 | the agents table admits no empty role, so for the rows it yields both datasets are independent of input order |
| `Tableau.EmptyRoleClashes` | services/analytics/src/netpulse_analytics/tableau/transform.py:107 | two concrete rows whose two orders give two different datasets, daily and by agent |
| `Tableau.IncidentDataset` | services/analytics/src/netpulse_analytics/tableau/transform.py:193-221 | fails exactly on two different rows with one id; otherwise each incident once, strictly by start and id |
| `Tableau.IncidentListingUnique` | services/analytics/src/netpulse_analytics/tableau/transform.py:193-221 | so the incident dataset does not depend on the order of its input |

## Left out

- Floating-point rounding and summation order: sums, averages and thresholds are exact reals, so a mean that rounding pushes past a limit is not modelled.
- Outbox.OutboxPublisher.PublishReady: collectors that enqueue between two effects of a batch are not part of the method; they are interleaved freely in the steps of the `Delivery` module, whose `Pipeline` class interleaves whole calls.
- Ingest.EventProcessor.Process: the dead letter's random id and time, and the text of its errors, are not modelled; its source coordinate and its payload as decoded text are. Bytes that are not UTF-8 are kept only in the failure's row.
- Consumer.IngestionConsumer.Run: the sleep between retries, signals and rebalancing are not modelled; a run is a bounded number of polls, and a consumer exception or signal ends it.
- Delivery.EnqueuedReachesTables: says nothing about how long delivery takes; progress depends on a broker and a database that answer.
- IncidentService.IncidentClassifierService.EvaluateOnce: loading the snapshot is a parameter, with peak latencies not negative and losses within 0..100 as the table checks give them, and with agent ids of at most 1,961 characters (an event admits 128; a longer id registered by hand makes the cycle raise). Summary and advice appear by the rule or agent that wrote them and by their length, not by their wording.
- IncidentService.PublishedLog: the topic's partitions are one log in the order of the appends; a publication that raises may have been appended, before the next process starts and not later.
- Refresh.Repository.RunJob: failures of the connection or of the server are not modelled; they roll the transaction back like the others.
- Paging.ListDaily: the metrics columns of a row are carried by its key and not modelled; statement timeouts are not modelled.
- Paging.Daily: query-string parsing, request ids and HTTP status codes are not modelled; filters arrive validated.
- Cursor.DecodeCursor: the JSON of version 1 tokens is a partial function from bytes.
- Tableau.IncidentDataset: time zones are not modelled; timestamps are instants, so the error for naive timestamps cannot occur.
- Pipeline-health rows, CSV writing, export promotion and source-quality thresholds: fixed mappings of columns, without state or arithmetic.
- The orchestration run table (`start_run`, `record_success`, `record_failure`): single-row updates without a property beyond their text.
- Collectors, privacy hashing, environment and YAML configuration: field copying and I/O; only validated ranges appear.
- Spark windows, watermarks and sink, the simulator, dashboards, deployment and operator scripts.
- Multiple classifier instances, consumer-group rebalancing and loss of broker data.
