/** The agent's durable outbox and its publisher: a row leaves the outbox only after the
    broker has its record. */
module Outbox {
  import opened Prelude
  import opened Order
  import opened Broker
  import opened Runs

  datatype Config = Config(maximumBytes: int, batchSize: nat, retryBase: real, retryMax: real, retention: real)

  predicate ValidConfig(c: Config) {
    && c.maximumBytes >= 1_048_576 && 1 <= c.batchSize <= 1_000
    && 0.0 < c.retryBase <= 300.0 && c.retryBase <= c.retryMax <= 86_400.0 && c.retention >= 0.0
  }

  datatype Row = Row(record: Record, created: real, delivered: Option<real>, retries: nat, lastError: Option<string>,
                     nextAttempt: real)
  type Rows = map<nat, Row>

  /** What a worker holds of a row it fetched. */
  datatype Fetched = Fetched(id: nat, record: Record, retries: nat)

  // ------------------------------------------------------------------ backoff

  function Pow2(n: nat): nat { if n == 0 then 1 else 2 * Pow2(n - 1) }

  function Min(a: int, b: int): int { if a <= b then a else b }
  function Smaller(a: real, b: real): real { if a <= b then a else b }
  function Clamp(x: real): real { if x < 0.0 then 0.0 else if x > 1.0 then 1.0 else x }

  function Times(x: real, n: int): real { x * (n as real) }

  /** The delay before jitter. */
  function BaseDelay(c: Config, retries: nat): real { Smaller(c.retryMax, Times(c.retryBase, Pow2(Min(retries, 20)))) }

  function Jitter(base: real, fraction: real): real { base * 0.25 * Clamp(fraction) }

  function Delay(c: Config, retries: nat, fraction: real): real {
    BaseDelay(c, retries) + Jitter(BaseDelay(c, retries), fraction)
  }

  lemma {:induction false} Pow2Monotone(a: nat, b: nat)
    requires a <= b
    ensures 1 <= Pow2(a) <= Pow2(b)
  {
    if a < b { Pow2Monotone(a, b - 1); } else if a > 0 { Pow2Monotone(a - 1, a - 1); }
  }

  lemma ScaleMonotone(x: real, a: nat, b: nat)
    requires x > 0.0 && a <= b
    ensures Times(x, a) <= Times(x, b) && Times(x, 1) == x
  {
  }

  lemma BaseBounds(c: Config, retries: nat, later: nat)
    requires ValidConfig(c) && retries <= later
    ensures c.retryBase <= BaseDelay(c, retries) <= BaseDelay(c, later) <= c.retryMax
  {
    hide Pow2, Times;
    var a, b := Pow2(Min(retries, 20)), Pow2(Min(later, 20));
    Pow2Monotone(0, Min(retries, 20));
    Pow2Monotone(Min(retries, 20), Min(later, 20));
    ScaleMonotone(c.retryBase, 1, a);
    ScaleMonotone(c.retryBase, a, b);
  }

  /** Every delay lies between the base and 1.25 times the maximum, and before jitter it
      does not shrink from one retry to a later one. */
  lemma DelayBounds(c: Config, retries: nat, later: nat, jitter: real)
    requires ValidConfig(c) && retries <= later
    ensures c.retryBase <= Delay(c, retries, jitter) <= 1.25 * c.retryMax
    ensures BaseDelay(c, retries) <= Delay(c, retries, jitter) <= 1.25 * BaseDelay(c, retries)
    ensures BaseDelay(c, retries) <= BaseDelay(c, later)
  {
    hide BaseDelay, Delay;
    BaseBounds(c, retries, later);
    JitterAdds(c, retries, jitter);
  }

  /** From the base on the delay doubles with every retry, twenty times at most and never
      past the maximum; jitter adds up to a quarter. */
  lemma DelayDoubles(c: Config, retries: nat, jitter: real)
    requires ValidConfig(c)
    ensures BaseDelay(c, 0) == c.retryBase
    ensures retries < 20 ==>
      BaseDelay(c, retries + 1) == if 2.0 * BaseDelay(c, retries) <= c.retryMax then 2.0 * BaseDelay(c, retries)
                                   else c.retryMax
    ensures retries >= 20 ==> BaseDelay(c, retries) == BaseDelay(c, 20)
    ensures Delay(c, retries, jitter)
         == BaseDelay(c, retries) * (if jitter <= 0.0 then 1.0 else if jitter >= 1.0 then 1.25 else 1.0 + jitter / 4.0)
  {
    hide Pow2, Times;
    PowersOfTwo(0);
    ScaleMonotone(c.retryBase, 1, 1);
    if retries < 20 {
      PowersOfTwo(retries);
      TimesTwice(c.retryBase, Pow2(retries));
    }
  }

  lemma PowersOfTwo(n: nat)
    ensures Pow2(0) == 1 && Pow2(n + 1) == 2 * Pow2(n) && Pow2(n) >= 1
  {
    Pow2Monotone(0, n);
  }

  lemma TimesTwice(x: real, p: nat)
    ensures Times(x, 2 * p) == 2.0 * Times(x, p)
  {
    assert (2 * p) as real == 2.0 * (p as real);
  }

  lemma JitterAdds(c: Config, retries: nat, jitter: real)
    requires BaseDelay(c, retries) >= 0.0
    ensures BaseDelay(c, retries) <= Delay(c, retries, jitter) <= 1.25 * BaseDelay(c, retries)
  {
    hide BaseDelay, Jitter;
    JitterBounds(BaseDelay(c, retries), jitter);
  }

  lemma JitterBounds(base: real, fraction: real)
    requires base >= 0.0
    ensures 0.0 <= Jitter(base, fraction) <= 0.25 * base
  {
    var f := Clamp(fraction);
    assert base * 0.25 * f == 0.25 * (base * f);
    assert 0.0 <= base * f <= base;
  }

  // ------------------------------------------------------------------ statements on the rows

  /** UPDATE … WHERE delivered_at IS NULL, after a failed attempt of the fetched record. */
  function FailedRow(c: Config, row: Row, retries: nat, now: real, jitter: real, error: string): Row {
    row.(retries := retries + 1, lastError := Some(if |error| <= 1024 then error else error[..1024]),
         nextAttempt := now + Delay(c, retries, jitter))
  }

  function MarkedFailed(c: Config, rows: Rows, f: Fetched, now: real, jitter: real, error: string): Rows {
    if f.id in rows && rows[f.id].delivered.None?
    then rows[f.id := FailedRow(c, rows[f.id], f.retries, now, jitter, error)]
    else rows
  }

  function MarkedDelivered(rows: Rows, id: nat, now: real): Rows {
    if id in rows && rows[id].delivered.None?
    then rows[id := rows[id].(delivered := Some(now), lastError := None)]
    else rows
  }

  /** INSERT OR IGNORE */
  function Enqueued(rows: Rows, id: nat, r: Record, now: real): Rows {
    if id in rows then rows else rows[id := Row(r, now, None, 0, None, now)]
  }

  function Pruned(c: Config, rows: Rows, now: real): Rows {
    map id | id in rows && !(rows[id].delivered.Some? && rows[id].delivered.value <= now - c.retention) :: rows[id]
  }

  predicate Eligible(rows: Rows, id: nat, now: real) {
    id in rows && rows[id].delivered.None? && rows[id].nextAttempt <= now
  }

  /** ORDER BY created_at, event_id */
  function ReadyOrder(rows: Rows): (nat, nat) -> bool {
    (a: nat, b: nat) =>
      var x, y := if a in rows then rows[a].created else 0.0, if b in rows then rows[b].created else 0.0;
      x < y || (x == y && a < b)
  }

  lemma ReadyOrderTotal(rows: Rows)
    ensures StrictTotal(ReadyOrder(rows))
  {
  }

  // ------------------------------------------------------------------ time between attempts

  /** The same row over successive failed attempts: it fails at `at[i]` and is fetched for
      the next attempt once its schedule allows. */
  ghost predicate Failing(c: Config, rows: seq<Row>, at: seq<real>, jitter: seq<real>, errors: seq<string>) {
    && |at| == |rows| > 0 && |jitter| == |errors| == |rows| - 1
    && rows[0].retries == 0
    && forall i :: 0 <= i < |rows| - 1 ==> FailsOnce(c, rows[i], rows[i + 1], at[i], at[i + 1], jitter[i], errors[i])
  }

  predicate FailsOnce(c: Config, row: Row, next: Row, at: real, again: real, jitter: real, error: string) {
    next == FailedRow(c, row, row.retries, at, jitter, error) && next.nextAttempt <= again
  }

  /** What the pre-jitter delays of the first `n` failures add up to. */
  function TotalBase(c: Config, n: nat): real { if n == 0 then 0.0 else TotalBase(c, n - 1) + BaseDelay(c, n - 1) }

  lemma {:induction false} FailureElapsed(c: Config, rows: seq<Row>, at: seq<real>, jitter: seq<real>,
                                          errors: seq<string>, n: nat)
    requires ValidConfig(c) && Failing(c, rows, at, jitter, errors) && n < |rows|
    ensures rows[n].retries == n && at[n] - at[0] >= TotalBase(c, n)
  {
    hide BaseDelay, Delay;
    if n > 0 {
      FailureElapsed(c, rows, at, jitter, errors, n - 1);
      DelayBounds(c, n - 1, n - 1, jitter[n - 1]);
      assert FailsOnce(c, rows[n - 1], rows[n], at[n - 1], at[n], jitter[n - 1], errors[n - 1]);
    }
  }

  lemma {:induction false} UncappedTotal(c: Config, n: nat)
    requires n <= 21 && forall i :: 0 <= i < n ==> Times(c.retryBase, Pow2(i)) <= c.retryMax
    ensures TotalBase(c, n) == Times(c.retryBase, Pow2(n) - 1)
  {
    hide BaseDelay, Times;
    if n == 0 {
      NoTime(c.retryBase);
    } else {
      UncappedTotal(c, n - 1);
      Pow2Monotone(0, n - 1);
      UncappedBase(c, n - 1);
      Doubled(c.retryBase, Pow2(n - 1));
      assert Pow2(n) == 2 * Pow2(n - 1);
    }
  }

  lemma UncappedBase(c: Config, i: nat)
    requires i <= 20 && Times(c.retryBase, Pow2(i)) <= c.retryMax
    ensures BaseDelay(c, i) == Times(c.retryBase, Pow2(i))
  {
    hide Pow2, Times;
  }

  lemma NoTime(x: real)
    ensures Times(x, 0) == 0.0
  {
  }

  lemma Doubled(x: real, p: nat)
    requires p >= 1
    ensures Times(x, p - 1) + Times(x, p) == Times(x, 2 * p - 1)
  {
    assert (2 * p - 1) as real == (p - 1) as real + p as real;
  }

  /** After n consecutive failures without the cap, at least base·(2ⁿ − 1) elapses before
      attempt n + 1; the exponent stops at 20, hence n up to 21. */
  lemma BackoffElapsed(c: Config, rows: seq<Row>, at: seq<real>, jitter: seq<real>, errors: seq<string>, n: nat)
    requires ValidConfig(c) && Failing(c, rows, at, jitter, errors) && n < |rows|
    requires n <= 21 && forall i :: 0 <= i < n ==> Times(c.retryBase, Pow2(i)) <= c.retryMax
    ensures at[n] - at[0] >= Times(c.retryBase, Pow2(n) - 1)
  {
    hide Failing, Pow2, TotalBase, Times;
    FailureElapsed(c, rows, at, jitter, errors, n);
    UncappedTotal(c, n);
  }

  // ------------------------------------------------------------------ nothing enqueued is lost

  /** Every successful enqueue is still pending in the outbox, unchanged, or its record is
      in the log; a row that counts as delivered is in the log. */
  ghost predicate Kept(enqueued: set<(nat, Record)>, rows: Rows, logs: Logs) {
    && (forall e :: e in enqueued ==> Pending(rows, e.0, e.1) || Holds(logs, e.1))
    && (forall id :: id in rows ==> (id, rows[id].record) in enqueued)
    && (forall id :: id in rows && rows[id].delivered.Some? ==> Holds(logs, rows[id].record))
  }

  predicate Pending(rows: Rows, id: nat, r: Record) { id in rows && rows[id].record == r && rows[id].delivered.None? }

  lemma EnqueueKeeps(enqueued: set<(nat, Record)>, rows: Rows, logs: Logs, id: nat, r: Record, now: real)
    requires Kept(enqueued, rows, logs) && id !in rows
    ensures Kept(enqueued + {(id, r)}, Enqueued(rows, id, r, now), logs)
  {
    hide Holds;
  }

  lemma FailKeeps(c: Config, enqueued: set<(nat, Record)>, rows: Rows, logs: Logs, f: Fetched, now: real, jitter: real,
                  error: string)
    requires Kept(enqueued, rows, logs)
    ensures Kept(enqueued, MarkedFailed(c, rows, f, now, jitter, error), logs)
  {
    hide Holds, Delay;
  }

  /** Only an acknowledged record may be marked. */
  lemma DeliverKeeps(enqueued: set<(nat, Record)>, rows: Rows, logs: Logs, id: nat, now: real)
    requires Kept(enqueued, rows, logs) && (id in rows ==> Holds(logs, rows[id].record))
    ensures Kept(enqueued, MarkedDelivered(rows, id, now), logs)
  {
    hide Holds;
  }

  lemma PruneKeeps(c: Config, enqueued: set<(nat, Record)>, rows: Rows, logs: Logs, now: real)
    requires Kept(enqueued, rows, logs)
    ensures Kept(enqueued, Pruned(c, rows, now), logs)
    ensures forall id :: id in rows && rows[id].delivered.None? ==>
      id in Pruned(c, rows, now) && Pruned(c, rows, now)[id] == rows[id]
  {
    hide Holds;
    var after := Pruned(c, rows, now);
    forall e | e in enqueued ensures Pending(after, e.0, e.1) || Holds(logs, e.1) {
      assert Pending(rows, e.0, e.1) ==> Pending(after, e.0, e.1);
    }
  }

  lemma LogGrowthKeeps(enqueued: set<(nat, Record)>, rows: Rows, logs: Logs, later: Logs)
    requires Kept(enqueued, rows, logs) && Grown(logs, later)
    ensures Kept(enqueued, rows, later)
  {
    hide Holds, Grown;
    forall r | Holds(logs, r) ensures Holds(later, r) { GrownHolds(logs, later, r); }
  }

  // ------------------------------------------------------------------ the outbox as an object

  datatype EnqueueError = OutboxFull

  function EligibleIds(rows: Rows, now: real): set<nat> { set id | id in rows && Eligible(rows, id, now) }

  function Batch(c: Config, rows: Rows, now: real): seq<nat> {
    ReadyOrderTotal(rows);
    var ids := Sort(ReadyOrder(rows), EligibleIds(rows, now));
    ids[..Min(c.batchSize, |ids|)]
  }

  lemma BatchEligible(c: Config, rows: Rows, now: real)
    ensures forall i :: 0 <= i < |Batch(c, rows, now)| ==> Eligible(rows, Batch(c, rows, now)[i], now)
    ensures forall i, j :: 0 <= i < j < |Batch(c, rows, now)| ==> Batch(c, rows, now)[i] != Batch(c, rows, now)[j]
    ensures |Batch(c, rows, now)| == Min(c.batchSize, |EligibleIds(rows, now)|)
  {
    hide Eligible;
    ReadyOrderTotal(rows);
    SortLists(ReadyOrder(rows), EligibleIds(rows, now));
    var ids, b := Sort(ReadyOrder(rows), EligibleIds(rows, now)), Batch(c, rows, now);
    forall i | 0 <= i < |b| ensures Eligible(rows, b[i], now) { assert ids[i] in EligibleIds(rows, now); }
    forall i, j | 0 <= i < j < |b| ensures b[i] != b[j] { assert ReadyOrder(rows)(ids[i], ids[j]); }
  }

  predicate CreatedBefore(rows: Rows, a: nat, b: nat)
    requires a in rows && b in rows
  {
    rows[a].created < rows[b].created || (rows[a].created == rows[b].created && a < b)
  }

  /** Oldest first, by creation time and then id: within the batch, and before every eligible
      row outside it. */
  lemma BatchIsOldest(c: Config, rows: Rows, now: real, i: nat, id: nat)
    requires i < |Batch(c, rows, now)| && Eligible(rows, id, now) && id !in Batch(c, rows, now)
    ensures var b := Batch(c, rows, now);
      && b[i] in rows && CreatedBefore(rows, b[i], id)
      && (forall j :: i < j < |b| ==> b[j] in rows && CreatedBefore(rows, b[i], b[j]))
  {
    BatchEligible(c, rows, now);
    ReadyOrderTotal(rows);
    var ids := Sort(ReadyOrder(rows), EligibleIds(rows, now));
    SortLists(ReadyOrder(rows), EligibleIds(rows, now));
    var b := Batch(c, rows, now);
    assert forall n :: 0 <= n < |b| ==> b[n] == ids[n] && b[n] in b;
    assert id in EligibleIds(rows, now);
    var k :| 0 <= k < |ids| && ids[k] == id;
  }

  function FetchAll(rows: Rows, ids: seq<nat>): (batch: seq<Fetched>)
    requires forall i :: 0 <= i < |ids| ==> ids[i] in rows
    ensures |batch| == |ids|
    ensures forall i :: 0 <= i < |ids| ==> batch[i] == Fetched(ids[i], rows[ids[i]].record, rows[ids[i]].retries)
  {
    seq(|ids|, i requires 0 <= i < |ids| => Fetched(ids[i], rows[ids[i]].record, rows[ids[i]].retries))
  }

  class SQLiteOutbox {
    const config: Config
    var rows: Rows
    var sequence: int
    /** Every successful enqueue so far, and every sequence number handed out, in order. */
    ghost var enqueued: set<(nat, Record)>
    ghost var issued: seq<int>

    constructor (config: Config)
      requires ValidConfig(config)
      ensures this.config == config && rows == map[] && enqueued == {} && issued == [] && Numbered()
    {
      this.config, rows, sequence, enqueued, issued := config, map[], -1, {}, [];
    }

    /** The stored number is the last one handed out, and these are 0, 1, 2, … */
    ghost predicate Numbered()
      reads this
    {
      sequence == |issued| - 1 && forall i :: 0 <= i < |issued| ==> issued[i] == i
    }

    /** Numbers are handed out once each, without a gap, from zero. */
    method NextSequence() returns (following: int)
      requires Numbered()
      modifies this`sequence, this`issued
      ensures Numbered() && issued == old(issued) + [following]
      ensures following !in old(issued) && forall n :: 0 <= n < following ==> n in old(issued)
    {
      following := sequence + 1;
      sequence := following;
      forall n | 0 <= n < following ensures n in issued { assert issued[n] == n; }
      issued := issued + [following];
    }

    /** Refused without effect when the files and the payload together exceed the ceiling;
        ignored when the id is already there. */
    method Enqueue(id: nat, r: Record, now: real, storage: nat) returns (result: Result<bool, EnqueueError>)
      modifies this`rows, this`enqueued
      ensures result.Err? <==> storage + |r.value| > config.maximumBytes
      ensures result.Err? ==> rows == old(rows) && enqueued == old(enqueued)
      ensures result.Ok? ==> rows == Enqueued(old(rows), id, r, now) && result.value == (id !in old(rows))
      ensures result.Ok? ==> enqueued == old(enqueued) + if result.value then {(id, r)} else {}
      ensures result.Ok? && !result.value ==> rows == old(rows)
      ensures result.Ok? ==> rows.Keys == old(rows.Keys) + {id}
      ensures forall other :: other in old(rows) ==> other in rows && rows[other] == old(rows)[other]
      ensures result.Ok? && result.value ==>
        && rows[id].record == r && rows[id].created == now && rows[id].retries == 0 && rows[id].lastError.None?
        && forall when :: Eligible(rows, id, when) <==> now <= when
    {
      if storage + |r.value| > config.maximumBytes {
        return Err(OutboxFull);
      }
      var inserted := id !in rows;
      rows := Enqueued(rows, id, r, now);
      enqueued := enqueued + if inserted then {(id, r)} else {};
      return Ok(inserted);
    }

    /** The batch, each with its stored record and retry count. */
    method Ready(now: real) returns (batch: seq<Fetched>)
      ensures |batch| == |Batch(config, rows, now)|
      ensures forall i :: 0 <= i < |batch| ==> var id := Batch(config, rows, now)[i];
        id in rows && batch[i] == Fetched(id, rows[id].record, rows[id].retries)
    {
      BatchEligible(config, rows, now);
      var ids := Batch(config, rows, now);
      batch := FetchAll(rows, ids);
    }

    /** The row is delivered from its first acknowledgement on and never eligible again;
        what it carries, and every other row, stays. */
    method MarkDelivered(id: nat, now: real)
      modifies this`rows
      ensures rows == MarkedDelivered(old(rows), id, now)
      ensures rows.Keys == old(rows.Keys)
      ensures forall other :: other in rows && other != id ==> rows[other] == old(rows)[other]
      ensures id in rows ==> rows[id].record == old(rows)[id].record && rows[id].retries == old(rows)[id].retries
      ensures id in rows && old(rows)[id].delivered.Some? ==> rows[id] == old(rows)[id]
      ensures id in rows && old(rows)[id].delivered.None? ==>
        rows[id].delivered == Some(now) && rows[id].lastError.None? && rows[id].created == old(rows)[id].created
      ensures forall when :: !Eligible(rows, id, when)
    {
      if id in rows && rows[id].delivered.None? {
        rows := rows[id := rows[id].(delivered := Some(now), lastError := None)];
      }
    }

    /** An undelivered row becomes eligible again exactly at the returned time, between the
        base and 1.25 times the maximum from now, with one more retry than was fetched and
        the error's first 1,024 characters; what it carries, delivered rows, and every
        other row stay. */
    method MarkFailed(f: Fetched, error: string, now: real, jitter: real) returns (nextAttempt: real)
      modifies this`rows
      ensures rows == MarkedFailed(config, old(rows), f, now, jitter, error)
      ensures rows.Keys == old(rows.Keys)
      ensures forall other :: other in rows && other != f.id ==> rows[other] == old(rows)[other]
      ensures f.id in rows ==>
        rows[f.id].record == old(rows)[f.id].record && rows[f.id].delivered == old(rows)[f.id].delivered
      ensures f.id in rows && old(rows)[f.id].delivered.Some? ==> rows[f.id] == old(rows)[f.id]
      ensures f.id in rows && old(rows)[f.id].delivered.None? ==>
        && rows[f.id].retries == f.retries + 1
        && rows[f.id].created == old(rows)[f.id].created
        && rows[f.id].lastError.Some? && rows[f.id].lastError.value <= error
        && |rows[f.id].lastError.value| == (if |error| <= 1024 then |error| else 1024)
        && forall when :: Eligible(rows, f.id, when) <==> nextAttempt <= when
      ensures nextAttempt - now == Delay(config, f.retries, jitter)
      ensures ValidConfig(config) ==> config.retryBase <= nextAttempt - now <= 1.25 * config.retryMax
    {
      hide Delay;
      if ValidConfig(config) { DelayBounds(config, f.retries, f.retries, jitter); }
      nextAttempt := now + Delay(config, f.retries, jitter);
      if f.id in rows && rows[f.id].delivered.None? {
        var text := if |error| <= 1024 then error else error[..1024];
        rows := rows[f.id := rows[f.id].(retries := f.retries + 1, lastError := Some(text),
                                         nextAttempt := nextAttempt)];
      }
    }

    /** Removes exactly the rows acknowledged at or before the cutoff, and counts them;
        every other row stays as it is, undelivered ones always. */
    method PruneAcknowledged(now: real) returns (count: nat)
      modifies this`rows
      ensures rows == Pruned(config, old(rows), now)
      ensures forall id :: id in rows ==> id in old(rows) && rows[id] == old(rows)[id]
      ensures forall id :: id in old(rows) && old(rows)[id].delivered.None? ==> id in rows
      ensures forall id :: id in old(rows) && old(rows)[id].delivered.Some? ==>
        (id in rows <==> old(rows)[id].delivered.value > now - config.retention)
      ensures count == |set id | id in old(rows) && id !in rows|
    {
      var cutoff := now - config.retention;
      var acknowledged := set id | id in rows && rows[id].delivered.Some? && rows[id].delivered.value <= cutoff;
      count := |acknowledged|;
      ghost var before := rows;
      rows := rows - acknowledged;
      assert (set id | id in before && id !in rows) == acknowledged;
    }
  }

  // ------------------------------------------------------------------ the publisher

  /** Durable effects while a publisher works: arrivals in the log, the row of an
      acknowledged record marked, a failed attempt recorded, old rows removed. */
  datatype Move =
    | Arrived(arrivals: seq<(Part, Entry)>)
    | Acknowledge(id: nat, now: real)
    | Reschedule(fetched: Fetched, now: real, jitter: real, error: string)
    | Sweep(now: real)

  datatype Queue = Queue(rows: Rows, logs: Logs)

  function Moved(c: Config, q: Queue, m: Move): Queue {
    match m
    case Arrived(arrivals) => q.(logs := AppendAll(q.logs, arrivals))
    case Acknowledge(id, now) => q.(rows := MarkedDelivered(q.rows, id, now))
    case Reschedule(f, now, jitter, error) => q.(rows := MarkedFailed(c, q.rows, f, now, jitter, error))
    case Sweep(now) => q.(rows := Pruned(c, q.rows, now))
  }

  /** Only a row whose record the log holds is acknowledged. */
  ghost predicate MoveLegal(q: Queue, m: Move) {
    m.Acknowledge? ==> m.id in q.rows && Holds(q.logs, q.rows[m.id].record)
  }

  ghost predicate MoveStep(c: Config, a: Queue, b: Queue) { exists m :: MoveLegal(a, m) && b == Moved(c, a, m) }

  ghost function Moves(c: Config): (Queue, Queue) -> bool { (a, b) => MoveStep(c, a, b) }

  lemma MoveOn(c: Config, start: Queue, q: Queue, m: Move)
    requires Leads(Moves(c), start, q) && MoveLegal(q, m)
    ensures Leads(Moves(c), start, Moved(c, q, m))
  {
    hide MoveLegal, Moved, Leads;
    assert MoveStep(c, q, Moved(c, q, m));
    LeadsOn(Moves(c), start, q, Moved(c, q, m));
  }

  datatype Attempt = Sent | NotSent | Died

  class OutboxPublisher {
    const outbox: SQLiteOutbox
    const cluster: Cluster

    constructor (outbox: SQLiteOutbox, cluster: Cluster)
      ensures this.outbox == outbox && this.cluster == cluster
    {
      this.outbox, this.cluster := outbox, cluster;
    }

    ghost predicate Valid()
      reads this, outbox, cluster
    {
      Kept(outbox.enqueued, outbox.rows, cluster.logs)
    }

    /** The fetched record is still its row's record. */
    predicate Current(f: Fetched)
      reads outbox
    {
      f.id in outbox.rows && outbox.rows[f.id].record == f.record
    }

    ghost function Here(): Queue
      reads outbox, cluster
    {
      Queue(outbox.rows, cluster.logs)
    }

    /** One attempt. The process may die between any two effects; only an acknowledgement
        marks the row, and every other outcome schedules a retry. */
    method PublishOne(f: Fetched) returns (r: Attempt)
      requires Valid() && Current(f)
      modifies outbox`rows, cluster
      ensures Valid() && Grown(old(cluster.logs), cluster.logs)
      ensures Leads(Moves(outbox.config), old(Here()), Here())
      ensures outbox.rows.Keys == old(outbox.rows.Keys)
      ensures forall id :: id in outbox.rows ==> outbox.rows[id].record == old(outbox.rows)[id].record
      ensures forall id :: id in outbox.rows && id != f.id ==> outbox.rows[id] == old(outbox.rows)[id]
      ensures r.Sent? ==> Holds(cluster.logs, f.record) && outbox.rows[f.id].delivered.Some?
      ensures r.NotSent? && old(outbox.rows)[f.id].delivered.None? ==>
        outbox.rows[f.id].delivered.None? && outbox.rows[f.id].retries == f.retries + 1
    {
      hide Kept, Holds, Grown, Delay, Leads, Eligible, ValidConfig;
      ghost var start := Here();
      LeadsSelf(Moves(outbox.config), start);
      var outcome; ghost var arrivals;
      outcome, arrivals := cluster.Produce(f.record);
      AppendAllGrows(old(cluster.logs), arrivals);
      LogGrowthKeeps(outbox.enqueued, outbox.rows, old(cluster.logs), cluster.logs);
      MoveOn(outbox.config, start, start, Arrived(arrivals));
      var now: real, jitter: real, error: string := *, *, *;
      if * {
        return Died;
      }
      if !outcome.Acknowledged? {
        FailKeeps(outbox.config, outbox.enqueued, outbox.rows, cluster.logs, f, now, jitter, error);
        MoveOn(outbox.config, start, Here(), Reschedule(f, now, jitter, error));
        var nextAttempt := outbox.MarkFailed(f, error, now, jitter);
        return NotSent;
      }
      DeliverKeeps(outbox.enqueued, outbox.rows, cluster.logs, f.id, now);
      MoveOn(outbox.config, start, Here(), Acknowledge(f.id, now));
      outbox.MarkDelivered(f.id, now);
      return Sent;
    }

    /** One ready batch: every record of it is attempted, nothing undelivered is ever
        removed, and rows and log change by legal moves only. */
    method PublishReady() returns (acknowledged: nat, failed: nat, died: bool)
      requires Valid()
      modifies outbox`rows, cluster
      ensures Valid() && Grown(old(cluster.logs), cluster.logs)
      ensures Leads(Moves(outbox.config), old(Here()), Here())
      ensures forall id :: id in old(outbox.rows) && id !in outbox.rows ==>
        Holds(cluster.logs, old(outbox.rows)[id].record)
      ensures !died ==> exists now :: acknowledged + failed == |Batch(outbox.config, old(outbox.rows), now)|
    {
      hide Kept, Grown, Holds, Batch, Leads, Eligible;
      ghost var start := Here();
      LeadsSelf(Moves(outbox.config), start);
      acknowledged, failed, died := 0, 0, false;
      var now: real := *;
      BatchEligible(outbox.config, outbox.rows, now);
      var batch := outbox.Ready(now);
      GrownSelf(cluster.logs);
      for i := 0 to |batch|
        invariant Valid() && Grown(old(cluster.logs), cluster.logs) && acknowledged + failed == i
        invariant Leads(Moves(outbox.config), start, Here())
        invariant outbox.rows.Keys == old(outbox.rows.Keys)
        invariant forall id :: id in outbox.rows ==> outbox.rows[id].record == old(outbox.rows)[id].record
      {
        ghost var before := Here();
        var attempt := PublishOne(batch[i]);
        GrownTrans(old(cluster.logs), before.logs, cluster.logs);
        LeadsTrans(Moves(outbox.config), start, before, Here());
        match attempt
        case Sent => acknowledged := acknowledged + 1;
        case NotSent => failed := failed + 1;
        case Died =>
          died := true;
          return;
      }
      now := *;
      PruneKeeps(outbox.config, outbox.enqueued, outbox.rows, cluster.logs, now);
      PrunedAreHeld(outbox.config, outbox.enqueued, outbox.rows, cluster.logs, now);
      MoveOn(outbox.config, start, Here(), Sweep(now));
      var count := outbox.PruneAcknowledged(now);
    }
  }

  lemma PrunedAreHeld(c: Config, enqueued: set<(nat, Record)>, rows: Rows, logs: Logs, now: real)
    requires Kept(enqueued, rows, logs)
    ensures forall id :: id in rows && id !in Pruned(c, rows, now) ==> Holds(logs, rows[id].record)
  {
    hide Holds;
  }
}
