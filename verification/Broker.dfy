/** The message broker: append-only partition logs and produce calls whose outcome the
    producer may fail to learn. */
module Broker {
  type Bytes = seq<int>

  datatype Part = Part(topic: string, number: nat)
  datatype Coordinate = Coordinate(part: Part, offset: nat)
  datatype Record = Record(topic: string, key: string, value: Bytes)
  datatype Entry = Entry(key: string, value: Bytes)
  type Logs = map<Part, seq<Entry>>

  function EntryOf(r: Record): Entry { Entry(r.key, r.value) }

  predicate Has(logs: Logs, at: Coordinate) { at.part in logs && at.offset < |logs[at.part]| }

  function Get(logs: Logs, at: Coordinate): Entry
    requires Has(logs, at)
  {
    logs[at.part][at.offset]
  }

  /** The record stands at this coordinate of its topic. */
  predicate StandsAt(logs: Logs, r: Record, at: Coordinate) {
    Has(logs, at) && at.part.topic == r.topic && Get(logs, at).key == r.key && Get(logs, at).value == r.value
  }

  ghost predicate Holds(logs: Logs, r: Record) { exists at :: StandsAt(logs, r, at) }

  /** Logs are append-only: offsets keep their entries. */
  ghost predicate Grown(a: Logs, b: Logs) {
    forall at :: Has(a, at) ==> Has(b, at) && Get(b, at) == Get(a, at)
  }

  function Appended(logs: Logs, part: Part, e: Entry): Logs {
    logs[part := (if part in logs then logs[part] else []) + [e]]
  }

  lemma AppendGrows(logs: Logs, part: Part, e: Entry)
    ensures Grown(logs, Appended(logs, part, e))
    ensures var at := Coordinate(part, if part in logs then |logs[part]| else 0);
      Has(Appended(logs, part, e), at) && Get(Appended(logs, part, e), at) == e && !Has(logs, at)
  {
  }

  lemma GrownSelf(logs: Logs)
    ensures Grown(logs, logs)
  {
  }

  lemma GrownTrans(a: Logs, b: Logs, c: Logs)
    requires Grown(a, b) && Grown(b, c)
    ensures Grown(a, c)
  {
    forall at | Has(a, at) ensures Has(c, at) && Get(c, at) == Get(a, at) { assert Has(b, at); }
  }

  lemma GrownHolds(a: Logs, b: Logs, r: Record)
    requires Grown(a, b) && Holds(a, r)
    ensures Holds(b, r)
  {
    var at :| StandsAt(a, r, at);
    assert StandsAt(b, r, at);
  }

  /** Arrivals from any producers, one after the other. */
  function AppendAll(logs: Logs, arrivals: seq<(Part, Entry)>): Logs {
    if arrivals == [] then logs
    else
      var last := arrivals[|arrivals| - 1];
      Appended(AppendAll(logs, arrivals[..|arrivals| - 1]), last.0, last.1)
  }

  lemma {:induction false} AppendAllGrows(logs: Logs, arrivals: seq<(Part, Entry)>)
    ensures Grown(logs, AppendAll(logs, arrivals))
  {
    hide Grown, Appended;
    if arrivals == [] {
      GrownSelf(logs);
    } else {
      var init, last := arrivals[..|arrivals| - 1], arrivals[|arrivals| - 1];
      AppendAllGrows(logs, init);
      AppendGrows(AppendAll(logs, init), last.0, last.1);
      GrownTrans(logs, AppendAll(logs, init), AppendAll(logs, arrivals));
    }
  }

  datatype Delivery = Refused | Acknowledged | Failed | TimedOut

  class Cluster {
    var logs: Logs

    constructor ()
      ensures logs == map[]
    {
      logs := map[];
    }

    /** Produce one record and wait for its outcome. Whatever the outcome, earlier records
        without one, and records of other producers, may be appended meanwhile; an
        acknowledged record has been appended. */
    method Produce(r: Record) returns (outcome: Delivery, ghost arrivals: seq<(Part, Entry)>)
      modifies this
      ensures logs == AppendAll(old(logs), arrivals)
      ensures outcome.Acknowledged? ==> Holds(logs, r)
    {
      arrivals := Others();
      if * {
        return Refused, arrivals;
      }
      var n: nat := *;
      if * {
        var part := Part(r.topic, n);
        AppendGrows(logs, part, EntryOf(r));
        ghost var more := arrivals + [(part, EntryOf(r))];
        assert more[..|arrivals|] == arrivals;
        logs := Appended(logs, part, EntryOf(r));
        arrivals := more;
        assert StandsAt(logs, r, Coordinate(part, |logs[part]| - 1));
        if * {
          return Acknowledged, arrivals;
        }
      }
      if * {
        return Failed, arrivals;
      }
      return TimedOut, arrivals;
    }

    /** Records of other producers, or late ones, arrive. */
    method Others() returns (ghost arrivals: seq<(Part, Entry)>)
      modifies this
      ensures logs == AppendAll(old(logs), arrivals)
    {
      var coming: seq<(Part, Entry)> := *;
      for i := 0 to |coming|
        invariant logs == AppendAll(old(logs), coming[..i])
      {
        assert coming[..i + 1][..i] == coming[..i];
        logs := Appended(logs, coming[i].0, coming[i].1);
      }
      arrivals := coming;
      assert coming[..|coming|] == coming;
    }
  }
}
