/** The manual-offset consumer: what positions, committed offsets and retry counters do
    over any run of one process, and what lies below the committed offset. */
module Consumer {
  import opened Prelude
  import opened Broker
  import opened Ingest
  import opened Runs

  // ------------------------------------------------------------------ one process, tick by tick

  type Offsets = map<Part, nat>

  /** `position` is the next offset to deliver, `committed` the broker's stored offset. */
  datatype Reader = Reader(position: Offsets, committed: Offsets, attempts: map<Coordinate, nat>)

  /** What became of one delivered record: processed and committed; an exception before
      the commit took effect; a commit that took effect but raised. */
  datatype Tick = Committed(at: Coordinate) | Retried(at: Coordinate) | AckLost(at: Coordinate)

  function Count<K>(m: map<K, nat>, k: K): nat { if k in m then m[k] else 0 }

  function Start(committed: Offsets): Reader { Reader(committed, committed, map[]) }

  function Ticked(r: Reader, t: Tick): Reader {
    var at := t.at;
    match t
    case Committed(_) =>
      Reader(r.position[at.part := at.offset + 1], r.committed[at.part := at.offset + 1], r.attempts - {at})
    case Retried(_) =>
      Reader(r.position[at.part := at.offset], r.committed, r.attempts[at := Count(r.attempts, at) + 1])
    case AckLost(_) =>
      Reader(r.position[at.part := at.offset], r.committed[at.part := at.offset + 1],
             r.attempts[at := Count(r.attempts, at) + 1])
  }

  function Play(r: Reader, ticks: seq<Tick>): Reader {
    if ticks == [] then r else Ticked(Play(r, ticks[..|ticks| - 1]), ticks[|ticks| - 1])
  }

  /** The record delivered is the next one of its partition, and no record that used up its
      attempts is delivered again. */
  ghost predicate Legal(committed: Offsets, limit: nat, ticks: seq<Tick>) {
    ticks == [] || (
      var init, t := ticks[..|ticks| - 1], ticks[|ticks| - 1];
      var r := Play(Start(committed), init);
      Legal(committed, limit, init) && t.at.offset == Count(r.position, t.at.part) && Count(r.attempts, t.at) < limit)
  }

  /** Some commit at the partition's current position took effect without the consumer
      learning it. */
  predicate AckPending(ticks: seq<Tick>, part: Part) {
    ticks != [] && (
      var init, t := ticks[..|ticks| - 1], ticks[|ticks| - 1];
      if t.at.part == part && t.AckLost? then true
      else if t.at.part == part && t.Committed? then false
      else AckPending(init, part))
  }

  /** Reading position and committed offset agree exactly when no acknowledged commit is
      unknown to the consumer; otherwise the committed offset is one ahead. */
  lemma {:induction false} AlignedIff(committed: Offsets, limit: nat, ticks: seq<Tick>, part: Part)
    requires Legal(committed, limit, ticks)
    ensures var r := Play(Start(committed), ticks);
      Count(r.committed, part) == Count(r.position, part) + if AckPending(ticks, part) then 1 else 0
  {
    if ticks != [] {
      AlignedIff(committed, limit, ticks[..|ticks| - 1], part);
      AlignedIff(committed, limit, ticks[..|ticks| - 1], ticks[|ticks| - 1].at.part);
    }
  }

  /** A lost commit acknowledgement separates the two, and when it was the last attempt the
      process gives up on a record whose offset is committed. */
  lemma LostAckMisaligns(part: Part)
    ensures exists ticks: seq<Tick> ::
      && Legal(map[], 1, ticks)
      && Count(Play(Start(map[]), ticks).committed, part) == 1
      && Count(Play(Start(map[]), ticks).position, part) == 0
      && Count(Play(Start(map[]), ticks).attempts, Coordinate(part, 0)) == 1
  {
    var ticks := [AckLost(Coordinate(part, 0))];
    var none := ticks[..|ticks| - 1];
    assert none == [];
    assert Play(Start(map[]), none) == Start(map[]) && Legal(map[], 1, none);
    assert Play(Start(map[]), ticks) == Ticked(Start(map[]), ticks[0]);
    assert Legal(map[], 1, ticks);
  }

  /** Committed offsets advance one record at a time, never back and never past a gap. */
  lemma CommitsAreStepwise(committed: Offsets, limit: nat, ticks: seq<Tick>, part: Part)
    requires Legal(committed, limit, ticks) && ticks != []
    ensures var before, after := Play(Start(committed), ticks[..|ticks| - 1]), Play(Start(committed), ticks);
      && Count(before.committed, part) <= Count(after.committed, part) <= Count(before.committed, part) + 1
      && (Count(after.committed, part) != Count(before.committed, part) ==>
            ticks[|ticks| - 1].at == Coordinate(part, Count(before.committed, part)))
  {
    AlignedIff(committed, limit, ticks[..|ticks| - 1], part);
  }

  /** How often the process attempted a coordinate. */
  function Attempts(ticks: seq<Tick>, at: Coordinate): nat {
    if ticks == [] then 0 else Attempts(ticks[..|ticks| - 1], at) + if ticks[|ticks| - 1].at == at then 1 else 0
  }

  /** No coordinate is attempted more often than the limit; the retry counter is exact for
      the record at hand. */
  lemma {:induction false} AttemptsBounded(committed: Offsets, limit: nat, ticks: seq<Tick>, at: Coordinate)
    requires Legal(committed, limit, ticks)
    ensures Attempts(ticks, at) <= limit
    ensures var r := Play(Start(committed), ticks);
      && (at.offset > Count(r.position, at.part) ==> Attempts(ticks, at) == Count(r.attempts, at) == 0)
      && (at.offset == Count(r.position, at.part) ==> Attempts(ticks, at) == Count(r.attempts, at))
  {
    if ticks != [] {
      AttemptsBounded(committed, limit, ticks[..|ticks| - 1], at);
    }
  }

  /** Giving up on a record leaves its offset uncommitted, unless one of its commits took
      effect without the consumer learning it. */
  lemma GivingUpLeavesUncommitted(committed: Offsets, limit: nat, ticks: seq<Tick>, at: Coordinate)
    requires Legal(committed, limit, ticks) && limit >= 1
    requires Count(Play(Start(committed), ticks).attempts, at) == limit
    requires at.offset == Count(Play(Start(committed), ticks).position, at.part)
    ensures Attempts(ticks, at) == limit
    ensures Count(Play(Start(committed), ticks).committed, at.part) == at.offset <==> !AckPending(ticks, at.part)
  {
    AlignedIff(committed, limit, ticks, at.part);
    AttemptsBounded(committed, limit, ticks, at);
  }

  // ------------------------------------------------------------------ below the committed offset

  /** Every record below the committed offset was handled as some allowlist in use asked. */
  ghost predicate AllHandled(contract: Contract, used: set<References>, logs: Logs, committed: Offsets, t: Tables,
                             out: Outputs)
  {
    forall at: Coordinate :: at.offset < Count(committed, at.part) ==> Settled(contract, used, logs, t, out, at)
  }

  ghost predicate Settled(contract: Contract, used: set<References>, logs: Logs, t: Tables, out: Outputs,
                          at: Coordinate)
  {
    Has(logs, at) && exists refs :: refs in used && Handled(t, out, at, Judge(contract, refs, Get(logs, at).value))
  }

  lemma SettledStays(contract: Contract, used: set<References>, logs: Logs, t: Tables, out: Outputs,
                     more: set<References>, later: Logs, u: Tables, now: Outputs, at: Coordinate)
    requires Settled(contract, used, logs, t, out, at) && used <= more && Grown(logs, later)
    requires Accumulates(t, out, u, now)
    ensures Settled(contract, more, later, u, now, at)
  {
    hide Accumulates, Handled, Judge;
    var refs :| refs in used && Handled(t, out, at, Judge(contract, refs, Get(logs, at).value));
    HandledStays(t, out, u, now, at, Judge(contract, refs, Get(logs, at).value));
  }

  lemma AllHandledStays(contract: Contract, used: set<References>, logs: Logs, committed: Offsets, t: Tables,
                        out: Outputs,
                        more: set<References>, later: Logs, u: Tables, now: Outputs)
    requires AllHandled(contract, used, logs, committed, t, out)
    requires used <= more && Grown(logs, later) && Accumulates(t, out, u, now)
    ensures AllHandled(contract, more, later, committed, u, now)
  {
    hide Settled, Grown, Accumulates;
    forall at: Coordinate | at.offset < Count(committed, at.part) ensures Settled(contract, more, later, u, now, at) {
      SettledStays(contract, used, logs, t, out, more, later, u, now, at);
    }
  }

  lemma CommitKeeps(contract: Contract, used: set<References>, logs: Logs, committed: Offsets, t: Tables, out: Outputs,
                    at: Coordinate)
    requires AllHandled(contract, used, logs, committed, t, out) && Settled(contract, used, logs, t, out, at)
    requires at.offset <= Count(committed, at.part) <= at.offset + 1
    ensures AllHandled(contract, used, logs, committed[at.part := at.offset + 1], t, out)
  {
    hide Settled;
    var after := committed[at.part := at.offset + 1];
    forall c: Coordinate | c.offset < Count(after, c.part) ensures Settled(contract, used, logs, t, out, c) {
      assert c == at || c.offset < Count(committed, c.part);
    }
  }

  // ------------------------------------------------------------------ what a process leaves behind

  datatype Shared = Shared(logs: Logs, stores: Stores, committed: Offsets)

  /** Records arrive; or one record is attempted, with so many of its effects, and its commit
      takes effect or not. */
  datatype Turn = Arrive(arrivals: seq<(Part, Entry)>) | Attempt(at: Coordinate, done: nat, applied: bool)

  /** The record is the one at the committed offset or, after a lost acknowledgement, before
      it; only a completely processed record is committed. */
  predicate TurnLegal(contract: Contract, refs: References, s: Shared, t: Turn) {
    match t
    case Arrive(_) => true
    case Attempt(at, done, applied) =>
      && Has(s.logs, at) && at.offset <= Count(s.committed, at.part) <= at.offset + 1
      && var j := Judge(contract, refs, Get(s.logs, at).value);
         done <= EffectCount(j) && (applied ==> done == EffectCount(j) && !j.Break?)
  }

  function Turned(contract: Contract, refs: References, s: Shared, t: Turn): Shared
    requires TurnLegal(contract, refs, s, t)
  {
    match t
    case Arrive(arrivals) => s.(logs := AppendAll(s.logs, arrivals))
    case Attempt(at, done, applied) =>
      var source := Get(s.logs, at);
      s.(stores := AfterEffects(contract, Judge(contract, refs, source.value), at, source, s.stores, done),
         committed := if applied then s.committed[at.part := at.offset + 1] else s.committed)
  }

  ghost predicate TurnStep(contract: Contract, refs: References, a: Shared, b: Shared) {
    exists t :: TurnLegal(contract, refs, a, t) && b == Turned(contract, refs, a, t)
  }

  ghost function Turns(contract: Contract, refs: References): (Shared, Shared) -> bool {
    (a, b) => TurnStep(contract, refs, a, b)
  }

  lemma TurnOn(contract: Contract, refs: References, start: Shared, s: Shared, t: Turn)
    requires Leads(Turns(contract, refs), start, s) && TurnLegal(contract, refs, s, t)
    ensures Leads(Turns(contract, refs), start, Turned(contract, refs, s, t))
  {
    hide TurnLegal, Turned, Leads;
    assert TurnStep(contract, refs, s, Turned(contract, refs, s, t));
    LeadsOn(Turns(contract, refs), start, s, Turned(contract, refs, s, t));
  }

  // ------------------------------------------------------------------ the loop

  datatype Exit = Stopped | GaveUp(at: Coordinate) | Died

  /** The group's stored offsets, kept by the broker. */
  class ConsumerGroup {
    var committed: Offsets

    constructor ()
      ensures committed == map[]
    {
      committed := map[];
    }

    /** A synchronous commit: it may raise before or after it took effect. */
    method Commit(at: Coordinate) returns (ok: bool, ghost applied: bool)
      modifies this
      ensures committed == if applied then old(committed)[at.part := at.offset + 1] else old(committed)
      ensures ok ==> applied
    {
      if * {
        return false, false;
      }
      committed := committed[at.part := at.offset + 1];
      applied := true;
      ok := *;
    }
  }

  class IngestionConsumer {
    const limit: nat
    const processor: EventProcessor
    const cluster: Cluster
    const group: ConsumerGroup
    var position: Offsets
    var attempts: map<Coordinate, nat>

    /** A new process reads from the committed offsets, or from the beginning. */
    constructor (limit: nat, processor: EventProcessor, cluster: Cluster, group: ConsumerGroup)
      requires limit >= 1
      ensures this.limit == limit && this.processor == processor && this.cluster == cluster && this.group == group
      ensures position == group.committed && attempts == map[]
    {
      this.limit, this.processor, this.cluster, this.group := limit, processor, cluster, group;
      position, attempts := group.committed, map[];
    }

    ghost predicate Sound(used: set<References>)
      reads this, processor, processor.repository, processor.publisher, cluster, group
    {
      && limit >= 1 && processor.references in used
      && Genuine(processor.contract, cluster.logs, processor.repository.tables, processor.publisher.outputs)
      && AllHandled(processor.contract, used, cluster.logs, group.committed, processor.repository.tables,
                    processor.publisher.outputs)
    }

    ghost function Here(): Shared
      reads processor.repository, processor.publisher, cluster, group
    {
      Shared(cluster.logs, processor.Here(), group.committed)
    }

    ghost function Steps(): (Shared, Shared) -> bool { Turns(processor.contract, processor.references) }

    /** What the consumer holds is where its ticks brought it. */
    ghost predicate At(committed: Offsets, ticks: seq<Tick>)
      reads this, group
    {
      && Legal(committed, limit, ticks)
      && Reader(position, group.committed, attempts) == Play(Start(committed), ticks)
    }

    /** The record at hand has attempts left. */
    ghost predicate Eager()
      reads this
    {
      AttemptsLeft(position, attempts, limit)
    }

    /** Process the record and commit its offset, in this order. */
    method ProcessAndCommit(at: Coordinate, ghost used: set<References>) returns (ok: bool, ghost applied: bool)
      requires Sound(used) && Has(cluster.logs, at) && at.offset <= Count(group.committed, at.part) <= at.offset + 1
      modifies processor.repository, processor.publisher, group
      ensures Sound(used)
      ensures group.committed
        == if applied then old(group.committed)[at.part := at.offset + 1] else old(group.committed)
      ensures ok ==> applied
      ensures Leads(Steps(), old(Here()), Here())
    {
      hide Genuine, AllHandled, Grown, Judge, Handled, Settled, Leads, AfterEffects, EffectCount;
      ghost var start := Here();
      LeadsSelf(Steps(), start);
      ghost var tables, outputs := processor.repository.tables, processor.publisher.outputs;
      var result; ghost var done;
      result, done := processor.Process(cluster.logs, at, Get(cluster.logs, at));
      GrownSelf(cluster.logs);
      AllHandledStays(processor.contract, used, cluster.logs, group.committed, tables, outputs,
                      used, cluster.logs, processor.repository.tables, processor.publisher.outputs);
      if result.Err? {
        TurnOn(processor.contract, processor.references, start, start, Attempt(at, done, false));
        return false, false;
      }
      SettledNow(used, at);
      CommitKeeps(processor.contract, used, cluster.logs, group.committed, processor.repository.tables,
                  processor.publisher.outputs, at);
      ok, applied := group.Commit(at);
      TurnOn(processor.contract, processor.references, start, start, Attempt(at, done, applied));
    }

    /** Deliver the next record of a partition: a success drops its retry counter, an
        exception raises it and either gives up or seeks back. */
    method Deliver(part: Part, ghost start: Offsets, ghost before: seq<Tick>, ghost used: set<References>)
      returns (exit: Exit, ghost ticks: seq<Tick>)
      requires Sound(used) && At(start, before) && Eager()
      requires part in cluster.logs && Count(position, part) < |cluster.logs[part]|
      modifies this, processor.repository, processor.publisher, group
      ensures Sound(used) && Leads(Steps(), old(Here()), Here())
      ensures Legal(start, limit, ticks) && group.committed == Play(Start(start), ticks).committed
      ensures exit.Stopped? ==> At(start, ticks) && Eager()
      ensures exit.GaveUp? ==> var r := Play(Start(start), ticks);
        Count(r.attempts, exit.at) == limit && exit.at.offset == Count(r.position, exit.at.part)
    {
      hide Genuine, AllHandled, Play, Legal, AttemptsLeft, TickFor, Leads;
      AlignedIff(start, limit, before, part);
      var at := Coordinate(part, Count(position, part));
      ghost var r := Reader(position, group.committed, attempts);
      position := position[part := at.offset + 1];
      var ok; ghost var applied;
      ok, applied := ProcessAndCommit(at, used);
      AttemptTicks(start, limit, before, r, at, ok, applied);
      ticks := before + [TickFor(at, ok, applied)];
      if * {
        return Died, ticks;
      }
      var again := Account(at, ok);
      if !again {
        return GaveUp(at), ticks;
      }
      return Stopped, ticks;
    }

    /** The bookkeeping after an attempt. */
    method Account(at: Coordinate, ok: bool) returns (again: bool)
      modifies this
      ensures ok ==> again && attempts == old(attempts) - {at} && position == old(position)
      ensures !ok ==> attempts == old(attempts)[at := Count(old(attempts), at) + 1]
      ensures !ok ==> again == (Count(old(attempts), at) + 1 < limit)
      ensures !ok ==> position == if again then old(position)[at.part := at.offset] else old(position)
    {
      if ok {
        attempts := attempts - {at};
        return true;
      }
      var attempt := Count(attempts, at) + 1;
      attempts := attempts[at := attempt];
      if attempt >= limit {
        return false;
      }
      position := position[at.part := at.offset];
      return true;
    }

    /** One poll of a partition and what follows from it. */
    method Poll(part: Part, ghost start: Offsets, ghost before: seq<Tick>, ghost used: set<References>)
      returns (exit: Exit, ghost ticks: seq<Tick>)
      requires Sound(used) && At(start, before) && Eager()
      modifies this, processor.repository, processor.publisher, cluster, group
      ensures Sound(used) && Grown(old(cluster.logs), cluster.logs) && Leads(Steps(), old(Here()), Here())
      ensures Legal(start, limit, ticks) && group.committed == Play(Start(start), ticks).committed
      ensures exit.Stopped? ==> At(start, ticks) && Eager()
      ensures exit.GaveUp? ==> var r := Play(Start(start), ticks);
        Count(r.attempts, exit.at) == limit && exit.at.offset == Count(r.position, exit.at.part)
    {
      hide Genuine, AllHandled, Grown, Play, Legal, Leads;
      ghost var first := Here();
      LeadsSelf(Steps(), first);
      ticks := before;
      ghost var arrivals := cluster.Others();
      AppendAllGrows(old(cluster.logs), arrivals);
      TurnOn(processor.contract, processor.references, first, first, Arrive(arrivals));
      ghost var second := Here();
      LaterLogs(processor.contract, used, old(cluster.logs), cluster.logs, group.committed, processor.repository.tables,
                processor.publisher.outputs);
      if part !in cluster.logs || Count(position, part) >= |cluster.logs[part]| {
        return Stopped, ticks;
      }
      if * {
        return Died, ticks;
      }
      exit, ticks := Deliver(part, start, before, used);
      LeadsTrans(Steps(), first, second, Here());
    }

    lemma SettledNow(used: set<References>, at: Coordinate)
      requires processor.references in used && Has(cluster.logs, at)
      requires Handled(processor.repository.tables, processor.publisher.outputs, at,
                       Judge(processor.contract, processor.references, Get(cluster.logs, at).value))
      ensures Settled(processor.contract, used, cluster.logs, processor.repository.tables,
                      processor.publisher.outputs, at)
    {
    }

    /** Poll, process, commit; on an exception count the attempt and either give up or seek
        back. At any moment, also after a death between two effects: everything below the
        committed offsets is handled, and offsets and attempts are those of a legal run. */
    method Run(polls: nat, ghost used: set<References>) returns (exit: Exit, ghost ticks: seq<Tick>)
      requires Sound(used) && position == group.committed && attempts == map[]
      modifies this, processor.repository, processor.publisher, cluster, group
      ensures Sound(used) && Grown(old(cluster.logs), cluster.logs) && Leads(Steps(), old(Here()), Here())
      ensures Legal(old(group.committed), limit, ticks)
      ensures group.committed == Play(Start(old(group.committed)), ticks).committed
      ensures exit.Stopped? ==> At(old(group.committed), ticks)
      ensures exit.GaveUp? ==> var r := Play(Start(old(group.committed)), ticks);
        Count(r.attempts, exit.at) == limit && exit.at.offset == Count(r.position, exit.at.part)
    {
      hide Genuine, AllHandled, Grown, Play, Legal, Leads;
      ghost var start, first := group.committed, Here();
      LeadsSelf(Steps(), first);
      ticks := [];
      FreshRun(start, limit);
      GrownSelf(cluster.logs);
      for i := 0 to polls
        invariant Sound(used) && Grown(old(cluster.logs), cluster.logs) && Leads(Steps(), first, Here())
        invariant At(start, ticks)
        invariant Eager()
      {
        var part: Part := *;
        ghost var before := Here();
        exit, ticks := Poll(part, start, ticks, used);
        GrownTrans(old(cluster.logs), before.logs, cluster.logs);
        LeadsTrans(Steps(), first, before, Here());
        if !exit.Stopped? {
          return;
        }
      }
      exit := Stopped;
    }
  }

  lemma LaterLogs(contract: Contract, used: set<References>, logs: Logs, later: Logs, committed: Offsets, t: Tables,
                  out: Outputs)
    requires Genuine(contract, logs, t, out) && AllHandled(contract, used, logs, committed, t, out)
    requires Grown(logs, later)
    ensures Genuine(contract, later, t, out) && AllHandled(contract, used, later, committed, t, out)
  {
    hide Genuine, AllHandled, Grown;
    GrowthGenuine(contract, logs, later, t, out);
    AccumulatesSelf(t, out);
    AllHandledStays(contract, used, logs, committed, t, out, used, later, t, out);
  }

  lemma FreshRun(committed: Offsets, limit: nat)
    ensures Legal(committed, limit, []) && Play(Start(committed), []) == Start(committed)
  {
  }

  /** The record at hand of every partition has attempts left. */
  ghost predicate AttemptsLeft(position: Offsets, attempts: map<Coordinate, nat>, limit: nat) {
    forall at: Coordinate :: at.offset == Count(position, at.part) ==> Count(attempts, at) < limit
  }

  /** The tick that an attempt amounts to. */
  function TickFor(at: Coordinate, ok: bool, applied: bool): Tick {
    if ok then Committed(at) else if applied then AckLost(at) else Retried(at)
  }

  lemma TickedIs(r: Reader, at: Coordinate, ok: bool, applied: bool)
    requires ok ==> applied
    ensures var s := Ticked(r, TickFor(at, ok, applied));
      && s.position == r.position[at.part := if ok then at.offset + 1 else at.offset]
      && s.committed == (if applied then r.committed[at.part := at.offset + 1] else r.committed)
      && s.attempts == (if ok then r.attempts - {at} else r.attempts[at := Count(r.attempts, at) + 1])
  {
  }

  lemma LeftAfter(committed: Offsets, limit: nat, ticks: seq<Tick>, r: Reader, t: Tick)
    requires limit >= 1 && Legal(committed, limit, ticks) && r == Play(Start(committed), ticks)
    requires AttemptsLeft(r.position, r.attempts, limit) && t.at.offset == Count(r.position, t.at.part)
    ensures Count(r.attempts, t.at) < limit
    ensures var s := Ticked(r, t);
      && (t.Committed? || Count(r.attempts, t.at) + 1 < limit ==> AttemptsLeft(s.position, s.attempts, limit))
      && Count(s.position, t.at.part) == t.at.offset + (if t.Committed? then 1 else 0)
      && (!t.Committed? ==> Count(s.attempts, t.at) == Count(r.attempts, t.at) + 1)
  {
    hide Play, Legal;
    NextIsNew(committed, limit, ticks, t.at.part);
  }

  lemma TickOn(committed: Offsets, limit: nat, ticks: seq<Tick>, t: Tick)
    requires Legal(committed, limit, ticks)
    requires var r := Play(Start(committed), ticks);
      t.at.offset == Count(r.position, t.at.part) && Count(r.attempts, t.at) < limit
    ensures Legal(committed, limit, ticks + [t])
    ensures Play(Start(committed), ticks + [t]) == Ticked(Play(Start(committed), ticks), t)
  {
    assert (ticks + [t])[..|ticks|] == ticks;
  }

  /** An attempt of the record at hand is one legal tick, with this bookkeeping. */
  lemma AttemptTicks(committed: Offsets, limit: nat, ticks: seq<Tick>, r: Reader, at: Coordinate, ok: bool,
                     applied: bool)
    requires limit >= 1 && Legal(committed, limit, ticks) && r == Play(Start(committed), ticks)
    requires AttemptsLeft(r.position, r.attempts, limit) && at.offset == Count(r.position, at.part) && (ok ==> applied)
    ensures Legal(committed, limit, ticks + [TickFor(at, ok, applied)])
    ensures var s := Play(Start(committed), ticks + [TickFor(at, ok, applied)]);
      && s.position == r.position[at.part := if ok then at.offset + 1 else at.offset]
      && s.committed == (if applied then r.committed[at.part := at.offset + 1] else r.committed)
      && s.attempts == (if ok then r.attempts - {at} else r.attempts[at := Count(r.attempts, at) + 1])
      && (ok || Count(r.attempts, at) + 1 < limit ==> AttemptsLeft(s.position, s.attempts, limit))
      && (!ok ==> Count(s.attempts, at) == Count(r.attempts, at) + 1 <= limit)
      && (!ok ==> Count(s.position, at.part) == at.offset)
  {
    hide Play, Legal, AttemptsLeft, Ticked;
    var tick := TickFor(at, ok, applied);
    TickedIs(r, at, ok, applied);
    LeftAfter(committed, limit, ticks, r, tick);
    TickOn(committed, limit, ticks, tick);
  }

  /** The record after the one at hand has not been attempted yet. */
  lemma NextIsNew(committed: Offsets, limit: nat, ticks: seq<Tick>, part: Part)
    requires Legal(committed, limit, ticks)
    ensures var r := Play(Start(committed), ticks);
      Count(r.attempts, Coordinate(part, Count(r.position, part) + 1)) == 0
  {
    AttemptsBounded(committed, limit, ticks, Coordinate(part, Count(Play(Start(committed), ticks).position, part) + 1));
  }
}
