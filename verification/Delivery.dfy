/** The at-least-once chain from an agent's outbox to the ingestor's tables, as one system
    of steps. A step is one durable effect, or a process raising, dying or starting; so a
    crash may strike between any two effects, and steps of agents, brokers and the ingestor
    interleave freely. The programs' own methods take such steps only. */
module Delivery {
  import opened Prelude
  import opened Broker
  import opened Ingest
  import opened Consumer
  import opened Runs
  import Outbox

  /** How far the ingestor got with the record at hand; it forgets this when it dies. */
  datatype Stage = Fresh | Stored(event: Event) | Recorded | Lettered | Done
  datatype Hand = Down | Ready(refs: References) | Working(refs: References, at: Coordinate, stage: Stage)

  datatype World = World(config: Outbox.Config, rows: Outbox.Rows, enqueued: set<(nat, Record)>, logs: Logs,
                         tables: Tables, outputs: Outputs, committed: Offsets, used: set<References>, hand: Hand)

  function Empty(config: Outbox.Config): World {
    World(config, map[], {}, map[], Tables(map[], map[], map[]), Outputs([], []), map[], {}, Down)
  }

  datatype Step =
    // An agent: a record may be appended long after it was produced, again, or never.
    | Enqueue(id: nat, record: Record, now: real)
    | Append(part: Part, entry: Entry)
    | MarkDelivered(delivered: nat, now: real)
    | MarkFailed(fetched: Outbox.Fetched, now: real, jitter: real, error: string)
    | Prune(now: real)
    // The ingestor.
    | Boot(loaded: References)
    | Take(at: Coordinate)
    | Persist(acknowledged: bool)
    | PublishValid(acknowledged: bool)
    | RecordFailure(acknowledged: bool)
    | PublishDeadLetter(acknowledged: bool)
    | MarkDeadLetter(acknowledged: bool)
    | Commit
    | Raise
    | Die

  predicate At(w: World, stage: Stage) { w.hand.Working? && w.hand.stage == stage }

  function Value(w: World): Bytes
    requires w.hand.Working? && Has(w.logs, w.hand.at)
  {
    Get(w.logs, w.hand.at).value
  }

  function Judged(contract: Contract, w: World): Judgement
    requires w.hand.Working? && Has(w.logs, w.hand.at)
  {
    Judge(contract, w.hand.refs, Value(w))
  }

  /** When the programs take a step. */
  ghost predicate Legal(contract: Contract, w: World, s: Step) {
    match s
    case Enqueue(id, _, _) => id !in w.rows
    case MarkDelivered(id, _) => id in w.rows && Holds(w.logs, w.rows[id].record)
    case Take(at) => w.hand.Ready? && Has(w.logs, at) && at.offset <= Count(w.committed, at.part) <= at.offset + 1
    case Persist(_) => At(w, Fresh) && Has(w.logs, w.hand.at) && Judged(contract, w).Accept?
    case PublishValid(_) => w.hand.Working? && w.hand.stage.Stored? && w.hand.stage.event.kind.NetworkMeasurement?
    case RecordFailure(_) => At(w, Fresh) && Has(w.logs, w.hand.at) && Judged(contract, w).Refuse?
    case PublishDeadLetter(_) => At(w, Recorded) && Has(w.logs, w.hand.at)
    case MarkDeadLetter(_) => At(w, Lettered)
    case Commit => At(w, Done)
    case _ => true
  }

  /** An effect whose call raises leaves the ingestor ready to retry. */
  function Onward(w: World, acknowledged: bool, stage: Stage): Hand
    requires w.hand.Working?
  {
    if acknowledged then Working(w.hand.refs, w.hand.at, stage) else Ready(w.hand.refs)
  }

  ghost function Apply(contract: Contract, w: World, s: Step): World
    requires Legal(contract, w, s)
  {
    match s
    case Enqueue(id, r, now) => w.(rows := Outbox.Enqueued(w.rows, id, r, now), enqueued := w.enqueued + {(id, r)})
    case Append(part, e) => w.(logs := Appended(w.logs, part, e))
    case MarkDelivered(id, now) => w.(rows := Outbox.MarkedDelivered(w.rows, id, now))
    case MarkFailed(f, now, jitter, error) => w.(rows := Outbox.MarkedFailed(w.config, w.rows, f, now, jitter, error))
    case Prune(now) => w.(rows := Outbox.Pruned(w.config, w.rows, now))
    case Boot(loaded) => w.(hand := Ready(Effective(loaded)), used := w.used + {Effective(loaded)})
    case Take(at) => w.(hand := Working(w.hand.refs, at, Fresh))
    case Persist(ok) =>
      var e := Judged(contract, w).event;
      w.(tables := Persisted(w.tables, e, w.hand.at),
         hand := Onward(w, ok, if e.kind.NetworkMeasurement? then Stored(e) else Done))
    case PublishValid(ok) =>
      w.(outputs := w.outputs.(valid := w.outputs.valid + [w.hand.stage.event]), hand := Onward(w, ok, Done))
    case RecordFailure(ok) =>
      w.(tables := FailureRecorded(w.tables, w.hand.at, Get(w.logs, w.hand.at)), hand := Onward(w, ok, Recorded))
    case PublishDeadLetter(ok) =>
      w.(outputs := w.outputs.(dead := w.outputs.dead + [DeadLetter(w.hand.at, contract.text(Value(w)))]),
         hand := Onward(w, ok, Lettered))
    case MarkDeadLetter(ok) => w.(tables := DeadLetterMarked(w.tables, w.hand.at), hand := Onward(w, ok, Done))
    case Commit => w.(committed := w.committed[w.hand.at.part := w.hand.at.offset + 1], hand := Ready(w.hand.refs))
    case Raise => if w.hand.Working? then w.(hand := Ready(w.hand.refs)) else w
    case Die => w.(hand := Down)
  }

  // ------------------------------------------------------------------ the invariant

  ghost predicate InHand(contract: Contract, w: World) {
    match w.hand
    case Down => true
    case Ready(refs) => refs in w.used
    case Working(refs, at, stage) =>
      && refs in w.used && Has(w.logs, at) && at.offset <= Count(w.committed, at.part) <= at.offset + 1
      && match stage
         case Fresh => true
         case Stored(e) => Judged(contract, w) == Accept(e) && e.id in w.tables.raw
         case Recorded => Judged(contract, w).Refuse? && at in w.tables.failures
         case Lettered =>
           && Judged(contract, w).Refuse? && at in w.tables.failures
           && DeadLetter(at, contract.text(Value(w))) in w.outputs.dead
         case Done => Handled(w.tables, w.outputs, at, Judged(contract, w))
  }

  ghost predicate Inv(contract: Contract, w: World) {
    && Outbox.Kept(w.enqueued, w.rows, w.logs)
    && Genuine(contract, w.logs, w.tables, w.outputs)
    && AllHandled(contract, w.used, w.logs, w.committed, w.tables, w.outputs)
    && InHand(contract, w)
  }

  lemma AgentStepKeeps(contract: Contract, w: World, s: Step)
    requires Inv(contract, w) && Legal(contract, w, s)
    requires s.Enqueue? || s.MarkDelivered? || s.MarkFailed? || s.Prune?
    ensures Inv(contract, Apply(contract, w, s))
  {
    hide Outbox.Kept, Genuine, AllHandled, Handled, Judge, Holds;
    match s
    case Enqueue(id, r, now) => Outbox.EnqueueKeeps(w.enqueued, w.rows, w.logs, id, r, now);
    case MarkDelivered(id, now) => Outbox.DeliverKeeps(w.enqueued, w.rows, w.logs, id, now);
    case MarkFailed(f, now, jitter, error) =>
      Outbox.FailKeeps(w.config, w.enqueued, w.rows, w.logs, f, now, jitter, error);
    case Prune(now) => Outbox.PruneKeeps(w.config, w.enqueued, w.rows, w.logs, now);
  }

  lemma AppendKeeps(contract: Contract, w: World, part: Part, e: Entry)
    requires Inv(contract, w)
    ensures Inv(contract, w.(logs := Appended(w.logs, part, e)))
  {
    hide Outbox.Kept, Genuine, AllHandled, Handled, Judge, Appended;
    AppendGrows(w.logs, part, e);
    var later := Appended(w.logs, part, e);
    Outbox.LogGrowthKeeps(w.enqueued, w.rows, w.logs, later);
    LaterLogs(contract, w.used, w.logs, later, w.committed, w.tables, w.outputs);
  }

  lemma BootKeeps(contract: Contract, w: World, loaded: References)
    requires Inv(contract, w)
    ensures Inv(contract, Apply(contract, w, Boot(loaded)))
  {
    hide Outbox.Kept, Genuine, AllHandled, Handled, Judge;
    GrownSelf(w.logs);
    AccumulatesSelf(w.tables, w.outputs);
    AllHandledStays(contract, w.used, w.logs, w.committed, w.tables, w.outputs, w.used + {Effective(loaded)}, w.logs,
                    w.tables, w.outputs);
  }

  /** What an effect of the ingestor adds keeps everything handled. */
  lemma EffectKeeps(contract: Contract, w: World, t: Tables, out: Outputs)
    requires Inv(contract, w) && Accumulates(w.tables, w.outputs, t, out)
    ensures AllHandled(contract, w.used, w.logs, w.committed, t, out)
  {
    hide Outbox.Kept, Genuine, AllHandled, Accumulates;
    GrownSelf(w.logs);
    AllHandledStays(contract, w.used, w.logs, w.committed, w.tables, w.outputs, w.used, w.logs, t, out);
  }

  lemma AcceptStepKeeps(contract: Contract, w: World, s: Step)
    requires Inv(contract, w) && Legal(contract, w, s) && (s.Persist? || s.PublishValid?)
    ensures Inv(contract, Apply(contract, w, s))
  {
    hide Outbox.Kept, Genuine, AllHandled, Accumulates, Persisted, CheckReferences;
    match s
    case Persist(_) =>
      var e := Judged(contract, w).event;
      AcceptedIsValid(contract, w.hand.refs, Value(w));
      PersistKeeps(contract, w.logs, w.tables, w.outputs, e, w.hand.at);
      EffectKeeps(contract, w, Persisted(w.tables, e, w.hand.at), w.outputs);
    case PublishValid(_) =>
      PublishValidKeeps(contract, w.logs, w.tables, w.outputs, w.hand.stage.event);
      EffectKeeps(contract, w, w.tables, w.outputs.(valid := w.outputs.valid + [w.hand.stage.event]));
  }

  lemma AcceptedIsValid(contract: Contract, refs: References, value: Bytes)
    requires Judge(contract, refs, value).Accept?
    ensures contract.read(value) == Valid(Judge(contract, refs, value).event)
  {
  }

  lemma RefuseStepKeeps(contract: Contract, w: World, s: Step)
    requires Inv(contract, w) && Legal(contract, w, s)
    requires s.RecordFailure? || s.PublishDeadLetter? || s.MarkDeadLetter?
    ensures Inv(contract, Apply(contract, w, s))
  {
    hide Outbox.Kept, Genuine, AllHandled, Accumulates, Judge, FailureRecorded, DeadLetterMarked;
    match s
    case RecordFailure(_) =>
      RecordKeeps(contract, w.logs, w.tables, w.outputs, w.hand.at);
      EffectKeeps(contract, w, FailureRecorded(w.tables, w.hand.at, Get(w.logs, w.hand.at)), w.outputs);
    case PublishDeadLetter(_) =>
      var letter := DeadLetter(w.hand.at, contract.text(Value(w)));
      PublishDeadKeeps(contract, w.logs, w.tables, w.outputs, letter);
      EffectKeeps(contract, w, w.tables, w.outputs.(dead := w.outputs.dead + [letter]));
    case MarkDeadLetter(_) =>
      FailurePayload(contract, w.logs, w.tables, w.outputs, w.hand.at);
      MarkKeeps(contract, w.logs, w.tables, w.outputs, w.hand.at);
      EffectKeeps(contract, w, DeadLetterMarked(w.tables, w.hand.at), w.outputs);
  }

  lemma CommitStepKeeps(contract: Contract, w: World)
    requires Inv(contract, w) && At(w, Done)
    ensures Inv(contract, Apply(contract, w, Commit))
  {
    hide Outbox.Kept, Genuine, AllHandled, Judge, Handled;
    CommitKeeps(contract, w.used, w.logs, w.committed, w.tables, w.outputs, w.hand.at);
  }

  /** Every step, of whatever process, keeps the invariant. */
  lemma StepKeeps(contract: Contract, w: World, s: Step)
    requires Inv(contract, w) && Legal(contract, w, s)
    ensures Inv(contract, Apply(contract, w, s))
  {
    hide Outbox.Kept, Genuine, AllHandled, Judge, Handled;
    match s
    case Append(part, e) => AppendKeeps(contract, w, part, e);
    case Boot(loaded) => BootKeeps(contract, w, loaded);
    case Persist(_) => AcceptStepKeeps(contract, w, s);
    case PublishValid(_) => AcceptStepKeeps(contract, w, s);
    case RecordFailure(_) => RefuseStepKeeps(contract, w, s);
    case PublishDeadLetter(_) => RefuseStepKeeps(contract, w, s);
    case MarkDeadLetter(_) => RefuseStepKeeps(contract, w, s);
    case Commit => CommitStepKeeps(contract, w);
    case Take(_) =>
    case Raise =>
    case Die =>
    case _ => AgentStepKeeps(contract, w, s);
  }

  // ------------------------------------------------------------------ every run

  ghost predicate Moves(contract: Contract, w: World, after: World) {
    exists s :: Legal(contract, w, s) && after == Apply(contract, w, s)
  }

  ghost function Steps(contract: Contract): (World, World) -> bool { (w, after) => Moves(contract, w, after) }

  /** Every world of every run from the empty system satisfies the invariant. */
  lemma EveryRunKeeps(contract: Contract, config: Outbox.Config, worlds: seq<World>, n: nat)
    requires Run(Steps(contract), worlds) && worlds[0] == Empty(config) && n < |worlds|
    ensures Inv(contract, worlds[n])
  {
    hide Inv, Legal, Apply, Run;
    EmptyInv(contract, config);
    forall a, b | Inv(contract, a) && Steps(contract)(a, b) ensures Inv(contract, b) {
      var s :| Legal(contract, a, s) && b == Apply(contract, a, s);
      StepKeeps(contract, a, s);
    }
    RunKeeps(Steps(contract), w => Inv(contract, w), worlds, n);
  }

  /** Some run from the empty system ends in this world. */
  ghost predicate Reachable(contract: Contract, config: Outbox.Config, w: World) {
    Leads(Steps(contract), Empty(config), w)
  }

  lemma ReachableInv(contract: Contract, config: Outbox.Config, w: World)
    requires Reachable(contract, config, w)
    ensures Inv(contract, w)
  {
    hide Inv, Legal, Apply;
    var worlds: seq<World> :|
      Run(Steps(contract), worlds) && worlds[0] == Empty(config) && worlds[|worlds| - 1] == w;
    EveryRunKeeps(contract, config, worlds, |worlds| - 1);
  }

  lemma StepReaches(contract: Contract, config: Outbox.Config, w: World, s: Step)
    requires Reachable(contract, config, w) && Legal(contract, w, s)
    ensures Reachable(contract, config, Apply(contract, w, s))
  {
    hide Legal, Apply, Leads;
    assert Moves(contract, w, Apply(contract, w, s));
    LeadsOn(Steps(contract), Empty(config), w, Apply(contract, w, s));
  }

  lemma EmptyInv(contract: Contract, config: Outbox.Config)
    ensures Inv(contract, Empty(config))
  {
  }

  /** No loss: in every reachable state each successfully enqueued event is still pending in
      the outbox, or its record stands in its topic. */
  lemma NothingEnqueuedIsLost(contract: Contract, config: Outbox.Config, w: World, id: nat, r: Record)
    requires Reachable(contract, config, w) && (id, r) in w.enqueued
    ensures Outbox.Pending(w.rows, id, r) || Holds(w.logs, r)
  {
    hide Genuine, AllHandled, InHand, Holds, Reachable;
    ReachableInv(contract, config, w);
  }

  /** The record's failure is recorded with its bytes, and published. */
  predicate DeadLetteredAt(contract: Contract, w: World, at: Coordinate, value: Bytes) {
    && at in w.tables.failures && w.tables.failures[at].payload == value && w.tables.failures[at].deadLettered
    && DeadLetter(at, contract.text(value)) in w.outputs.dead
  }

  /** And each record below the committed offset was dealt with under an allowlist in use: an
      acceptable event has its one raw row, with its typed row, and a measurement is in the
      valid topic; a refusable one, or a malformed payload, is a recorded failure already
      dead-lettered; there is no other. */
  lemma CommittedIsHandled(contract: Contract, config: Outbox.Config, w: World, at: Coordinate)
    requires Reachable(contract, config, w) && at.offset < Count(w.committed, at.part)
    ensures Has(w.logs, at)
    ensures exists refs :: refs in w.used && match contract.read(Get(w.logs, at).value)
      case Valid(e) =>
        || (Refusable(refs, e) && DeadLetteredAt(contract, w, at, Get(w.logs, at).value))
        || (&& Acceptable(refs, e)
            && e.id in w.tables.raw && w.tables.raw[e.id].event.id == e.id
            && (e.id in w.tables.typed <==> !w.tables.raw[e.id].event.kind.Incident?)
            && (e.id in w.tables.typed ==> w.tables.typed[e.id] == w.tables.raw[e.id].event)
            && (e.kind.NetworkMeasurement? ==> e in w.outputs.valid))
      case Malformed => DeadLetteredAt(contract, w, at, Get(w.logs, at).value)
      case Unreadable => false
  {
    hide Outbox.Kept, InHand, Judge, Reachable, Acceptable, Refusable;
    ReachableInv(contract, config, w);
    assert Settled(contract, w.used, w.logs, w.tables, w.outputs, at);
    var refs :| refs in w.used && Handled(w.tables, w.outputs, at, Judge(contract, refs, Get(w.logs, at).value));
    JudgedIff(contract, refs, Get(w.logs, at).value);
  }

  /** End to end: an enqueued event that the contract reads back and every allowlist in use
      accepts is pending or in its topic; and wherever its record stands, once the committed
      offset passed it, the event has its raw row, and a measurement is in the valid topic. */
  lemma EnqueuedReachesTables(contract: Contract, config: Outbox.Config, w: World, id: nat, r: Record, e: Event)
    requires Reachable(contract, config, w) && (id, r) in w.enqueued && contract.read(r.value) == Valid(e)
    requires forall refs :: refs in w.used ==> Acceptable(refs, e)
    ensures Outbox.Pending(w.rows, id, r) || Holds(w.logs, r)
    ensures forall at :: StandsAt(w.logs, r, at) && at.offset < Count(w.committed, at.part) ==>
      e.id in w.tables.raw && (e.kind.NetworkMeasurement? ==> e in w.outputs.valid)
  {
    hide Outbox.Kept, InHand, Genuine, Reachable, Inv, Holds;
    NothingEnqueuedIsLost(contract, config, w, id, r);
    forall at | StandsAt(w.logs, r, at) && at.offset < Count(w.committed, at.part)
      ensures e.id in w.tables.raw && (e.kind.NetworkMeasurement? ==> e in w.outputs.valid)
    {
      CommittedIsHandled(contract, config, w, at);
    }
  }

  // ------------------------------------------------------------------ what the programs do are steps

  lemma {:induction false} ArrivalsReach(contract: Contract, config: Outbox.Config, w: World,
                                         arrivals: seq<(Part, Entry)>)
    requires Reachable(contract, config, w)
    ensures Reachable(contract, config, w.(logs := AppendAll(w.logs, arrivals)))
  {
    hide Reachable, Appended;
    if arrivals != [] {
      var init, last := arrivals[..|arrivals| - 1], arrivals[|arrivals| - 1];
      ArrivalsReach(contract, config, w, init);
      StepReaches(contract, config, w.(logs := AppendAll(w.logs, init)), Append(last.0, last.1));
    } else {
      assert w.(logs := AppendAll(w.logs, arrivals)) == w;
    }
  }

  function WithQueue(w: World, q: Outbox.Queue): World { w.(rows := q.rows, logs := q.logs) }

  lemma MoveReaches(contract: Contract, config: Outbox.Config, w: World, m: Outbox.Move)
    requires Reachable(contract, config, w) && Outbox.MoveLegal(Outbox.Queue(w.rows, w.logs), m)
    ensures Reachable(contract, config, WithQueue(w, Outbox.Moved(w.config, Outbox.Queue(w.rows, w.logs), m)))
  {
    hide Reachable, Holds, Outbox.MarkedDelivered, Outbox.MarkedFailed, Outbox.Pruned;
    match m
    case Arrived(arrivals) => ArrivalsReach(contract, config, w, arrivals);
    case Acknowledge(id, now) => StepReaches(contract, config, w, MarkDelivered(id, now));
    case Reschedule(f, now, jitter, error) => StepReaches(contract, config, w, MarkFailed(f, now, jitter, error));
    case Sweep(now) => StepReaches(contract, config, w, Prune(now));
  }

  /** Whatever a publisher does to rows and log, runs of the system do. */
  lemma MovesReach(contract: Contract, config: Outbox.Config, w: World, q: Outbox.Queue)
    requires Reachable(contract, config, w)
    requires Leads(Outbox.Moves(w.config), Outbox.Queue(w.rows, w.logs), q)
    ensures Reachable(contract, config, WithQueue(w, q))
  {
    hide Reachable, Leads, Outbox.MoveLegal, Outbox.Moved;
    var inv := (a: Outbox.Queue) => Reachable(contract, config, WithQueue(w, a));
    forall a, b | inv(a) && Outbox.Moves(w.config)(a, b) ensures inv(b) {
      var m :| Outbox.MoveLegal(a, m) && b == Outbox.Moved(w.config, a, m);
      MoveReaches(contract, config, WithQueue(w, a), m);
    }
    assert WithQueue(w, Outbox.Queue(w.rows, w.logs)) == w;
    LeadsKeeps(Outbox.Moves(w.config), inv, Outbox.Queue(w.rows, w.logs), q);
  }

  /** How far a record is after its first `n` effects. */
  function StageAfter(j: Judgement, n: nat): Stage {
    if n == 0 then Fresh
    else if n == EffectCount(j) then Done
    else match j
         case Accept(e) => Stored(e)
         case Refuse => if n == 1 then Recorded else Lettered
         case Break => Fresh
  }

  function NextEffect(j: Judgement, n: nat): Step
    requires n < EffectCount(j)
  {
    match j
    case Accept(_) => if n == 0 then Persist(true) else PublishValid(true)
    case Refuse =>
      if n == 0 then RecordFailure(true) else if n == 1 then PublishDeadLetter(true) else MarkDeadLetter(true)
  }

  function WithStores(w: World, s: Stores, hand: Hand): World {
    w.(tables := s.tables, outputs := s.outputs, hand := hand)
  }

  lemma {:induction false} EffectsReach(contract: Contract, config: Outbox.Config, w: World, n: nat)
    requires Reachable(contract, config, w) && At(w, Fresh) && Has(w.logs, w.hand.at)
    requires n <= EffectCount(Judged(contract, w))
    ensures var j := Judged(contract, w);
      var s := AfterEffects(contract, j, w.hand.at, Get(w.logs, w.hand.at), Stores(w.tables, w.outputs), n);
      Reachable(contract, config, WithStores(w, s, Working(w.hand.refs, w.hand.at, StageAfter(j, n))))
  {
    hide Reachable, Judge, Persisted, FailureRecorded, DeadLetterMarked;
    var j, source := Judged(contract, w), Get(w.logs, w.hand.at);
    if n > 0 {
      EffectsReach(contract, config, w, n - 1);
      var s := AfterEffects(contract, j, w.hand.at, source, Stores(w.tables, w.outputs), n - 1);
      var v := WithStores(w, s, Working(w.hand.refs, w.hand.at, StageAfter(j, n - 1)));
      StepReaches(contract, config, v, NextEffect(j, n - 1));
    } else {
      assert WithStores(w, Stores(w.tables, w.outputs), w.hand) == w;
    }
  }

  function SharedOf(w: World): Shared { Shared(w.logs, Stores(w.tables, w.outputs), w.committed) }

  function WithShared(w: World, s: Shared): World {
    w.(logs := s.logs, tables := s.stores.tables, outputs := s.stores.outputs, committed := s.committed)
  }

  /** An attempt takes the record, goes through some of its effects, and ends in a commit or
      an exception. */
  lemma AttemptReaches(contract: Contract, config: Outbox.Config, w: World, at: Coordinate, done: nat, applied: bool)
    requires Reachable(contract, config, w) && w.hand.Ready?
    requires TurnLegal(contract, w.hand.refs, SharedOf(w), Attempt(at, done, applied))
    ensures Reachable(contract, config,
                      WithShared(w, Turned(contract, w.hand.refs, SharedOf(w), Attempt(at, done, applied))))
  {
    hide Reachable, Judge, AfterEffects;
    var taken := Apply(contract, w, Take(at));
    StepReaches(contract, config, w, Take(at));
    EffectsReach(contract, config, taken, done);
    var j := Judged(contract, taken);
    var s := AfterEffects(contract, j, at, Get(w.logs, at), Stores(w.tables, w.outputs), done);
    var worked := WithStores(taken, s, Working(w.hand.refs, at, StageAfter(j, done)));
    StepReaches(contract, config, worked, if applied then Commit else Raise);
  }

  /** Whatever an ingestor process does between its start and its end, runs of the system do. */
  lemma TurnsReach(contract: Contract, config: Outbox.Config, w: World, s: Shared)
    requires Reachable(contract, config, w) && w.hand.Ready?
    requires Leads(Turns(contract, w.hand.refs), SharedOf(w), s)
    ensures Reachable(contract, config, WithShared(w, s))
  {
    hide Reachable, Leads, TurnLegal, Turned;
    var refs := w.hand.refs;
    var inv := (a: Shared) => Reachable(contract, config, WithShared(w, a));
    forall a, b | inv(a) && Turns(contract, refs)(a, b) ensures inv(b) {
      var t :| TurnLegal(contract, refs, a, t) && b == Turned(contract, refs, a, t);
      TurnReaches(contract, config, WithShared(w, a), t);
    }
    assert WithShared(w, SharedOf(w)) == w;
    LeadsKeeps(Turns(contract, refs), inv, SharedOf(w), s);
  }

  lemma TurnReaches(contract: Contract, config: Outbox.Config, w: World, t: Turn)
    requires Reachable(contract, config, w) && w.hand.Ready? && TurnLegal(contract, w.hand.refs, SharedOf(w), t)
    ensures Reachable(contract, config, WithShared(w, Turned(contract, w.hand.refs, SharedOf(w), t)))
  {
    hide Reachable, Judge, AfterEffects;
    match t
    case Arrive(arrivals) => ArrivalsReach(contract, config, w, arrivals);
    case Attempt(at, done, applied) => AttemptReaches(contract, config, w, at, done, applied);
  }

  // ------------------------------------------------------------------ the programs themselves

  /** The programs of the chain over their stores. Ingestor processes come and go; the
      outbox, the broker, the group's offsets and the tables stay. */
  class Pipeline {
    const contract: Contract
    const limit: nat
    const outbox: Outbox.SQLiteOutbox
    const cluster: Cluster
    const group: ConsumerGroup
    const repository: PostgresEventRepository
    const output: SynchronousKafkaPublisher
    const publisher: Outbox.OutboxPublisher
    /** Allowlists of the ingestor processes so far. */
    ghost var used: set<References>

    /** The stores between two calls, as a world of the step system. */
    ghost function Here(): World
      reads this, outbox, cluster, group, repository, output
    {
      World(outbox.config, outbox.rows, outbox.enqueued, cluster.logs, repository.tables, output.outputs,
            group.committed, used, Down)
    }

    /** Some run of the step system leads here, so everything proved of its worlds holds. */
    ghost predicate Valid()
      reads this, outbox, cluster, group, repository, output, publisher
    {
      && limit >= 1 && publisher.outbox == outbox && publisher.cluster == cluster
      && Reachable(contract, outbox.config, Here())
    }

    constructor (contract: Contract, limit: nat, config: Outbox.Config)
      requires limit >= 1 && Outbox.ValidConfig(config)
      ensures Valid() && Here() == Empty(config)
    {
      this.contract, this.limit, used := contract, limit, {};
      var outbox := new Outbox.SQLiteOutbox(config);
      var cluster := new Cluster();
      var publisher := new Outbox.OutboxPublisher(outbox, cluster);
      this.outbox, this.cluster, this.publisher := outbox, cluster, publisher;
      group := new ConsumerGroup();
      repository := new PostgresEventRepository();
      output := new SynchronousKafkaPublisher();
      new;
      hide Leads, Outbox.Kept, Outbox.ValidConfig;
      LeadsSelf(Steps(contract), Empty(config));
    }

    /** An agent enqueues. */
    method Enqueue(id: nat, r: Record, now: real, storage: nat) returns (accepted: bool)
      requires Valid()
      modifies outbox
      ensures Valid() && outbox.enqueued == old(outbox.enqueued) + if accepted then {(id, r)} else {}
      ensures accepted <==> id !in old(outbox.rows) && storage + |r.value| <= outbox.config.maximumBytes
    {
      hide Reachable, Outbox.Enqueued;
      if id !in outbox.rows {
        StepReaches(contract, outbox.config, Here(), Step.Enqueue(id, r, now));
      }
      EnqueuedAgain(outbox.rows, id, r, now);
      var result := outbox.Enqueue(id, r, now, storage);
      accepted := result.Ok? && result.value;
      assert old(outbox.enqueued) + {} == old(outbox.enqueued);
    }

    /** An agent's publisher works through a batch. */
    method Publish()
      requires Valid()
      modifies outbox`rows, cluster
      ensures Valid() && Grown(old(cluster.logs), cluster.logs)
    {
      hide Reachable, Outbox.Kept, Grown, Leads, Outbox.Batch, Genuine, AllHandled;
      ghost var before := Here();
      ReachableInv(contract, outbox.config, before);
      var acknowledged, failed, died := publisher.PublishReady();
      MovesReach(contract, outbox.config, before, publisher.Here());
    }

    /** An ingestor process, from its start to its end or death. */
    method Ingest(loaded: References, polls: nat)
      requires Valid()
      modifies this`used, cluster, group, repository, output
      ensures Valid() && Grown(old(cluster.logs), cluster.logs)
    {
      hide Reachable, Outbox.Kept, Grown, Leads, Genuine, AllHandled, Play, Consumer.Legal, Effective;
      StepReaches(contract, outbox.config, Here(), Boot(loaded));
      ghost var booted := Apply(contract, Here(), Boot(loaded));
      ReachableInv(contract, outbox.config, booted);
      used := used + {Effective(loaded)};
      var processor := new EventProcessor(contract, loaded, repository, output);
      var consumer := new IngestionConsumer(limit, processor, cluster, group);
      var exit; ghost var ticks;
      exit, ticks := consumer.Run(polls, used);
      TurnsReach(contract, outbox.config, booted, consumer.Here());
      StepReaches(contract, outbox.config, WithShared(booted, consumer.Here()), Die);
    }

    /** Any number of turns, each of any program. Afterwards every event enqueued so far is
        pending or in its topic, and everything below the committed offsets is handled. */
    method Run(turns: nat)
      requires Valid()
      modifies this`used, outbox, cluster, group, repository, output
      ensures Valid() && old(outbox.enqueued) <= outbox.enqueued && Grown(old(cluster.logs), cluster.logs)
      ensures forall e :: e in outbox.enqueued ==> Outbox.Pending(outbox.rows, e.0, e.1) || Holds(cluster.logs, e.1)
      ensures forall at: Coordinate :: at.offset < Count(group.committed, at.part) ==>
        Settled(contract, used, cluster.logs, repository.tables, output.outputs, at)
    {
      hide Valid, Settled, Holds, Grown;
      GrownSelf(cluster.logs);
      for i := 0 to turns
        invariant Valid() && old(outbox.enqueued) <= outbox.enqueued && Grown(old(cluster.logs), cluster.logs)
      {
        ghost var logs := cluster.logs;
        if {
          case true =>
            var id: nat, r: Record, now: real, storage: nat := *, *, *, *;
            var accepted := Enqueue(id, r, now, storage);
          case true =>
            Publish();
            GrownTrans(old(cluster.logs), logs, cluster.logs);
          case true =>
            var loaded: References, polls: nat := *, *;
            Ingest(loaded, polls);
            GrownTrans(old(cluster.logs), logs, cluster.logs);
        }
      }
      Shown();
    }

    lemma Shown()
      requires Valid()
      ensures forall e :: e in outbox.enqueued ==> Outbox.Pending(outbox.rows, e.0, e.1) || Holds(cluster.logs, e.1)
      ensures forall at: Coordinate :: at.offset < Count(group.committed, at.part) ==>
        Settled(contract, used, cluster.logs, repository.tables, output.outputs, at)
    {
      hide Reachable, Settled, Holds;
      ReachableInv(contract, outbox.config, Here());
    }
  }

  lemma EnqueuedAgain(rows: Outbox.Rows, id: nat, r: Record, now: real)
    ensures id in rows ==> Outbox.Enqueued(rows, id, r, now) == rows
  {
  }
}
