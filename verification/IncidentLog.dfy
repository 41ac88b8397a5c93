/** The durable incident outbox and the published log: events leave in one order, repeats
    only follow themselves. */
module IncidentLog {
  import opened Prelude
  import opened Order
  import opened Incidents
  import opened Lifecycle
  import opened IncidentStore

  type Events = map<EventId, StateEvent>

  /** The columns that order publication. */
  datatype Stamp = Stamp(time: int, incident: nat, revision: nat)

  function StampOf(m: Message): Stamp { Stamp(m.time, m.incident, m.revision) }

  /** ORDER BY event_time, incident_id, state_revision. */
  predicate Precedes(a: Stamp, b: Stamp) {
    || a.time < b.time
    || (a.time == b.time && (a.incident < b.incident || (a.incident == b.incident && a.revision < b.revision)))
  }

  function Publication(): (Stamp, Stamp) -> bool { (a: Stamp, b: Stamp) => Precedes(a, b) }

  lemma PublicationTotal()
    ensures StrictTotal(Publication())
  {
  }

  /** Each event's message carries the event's identity. */
  predicate Labelled(events: Events) {
    forall e :: e in events ==> events[e].message.incident == e.incident && events[e].message.revision == e.revision
  }

  function Stamps(events: Events): set<Stamp> { set e | e in events :: StampOf(events[e].message) }
  function Published(events: Events): set<Stamp> {
    set e | e in events && events[e].published :: StampOf(events[e].message)
  }

  function Pending(events: Events): set<Stamp> {
    set e | e in events && !events[e].published :: StampOf(events[e].message)
  }

  /** All persisted events in publication order. */
  ghost function Agenda(events: Events): (r: seq<Stamp>) {
    PublicationTotal();
    Sort(Publication(), Stamps(events))
  }

  /** A log without the repeats that directly follow their original. */
  function Collapsed(log: seq<Stamp>): seq<Stamp> {
    if log == [] then []
    else
      var c, last := Collapsed(log[..|log| - 1]), log[|log| - 1];
      if c != [] && c[|c| - 1] == last then c else c + [last]
  }

  function Members<T>(s: seq<T>): set<T> { set x | x in s }

  function StampLog(log: seq<Message>): seq<Stamp> { Map((m: Message) => StampOf(m), log) }

  /** The first `n` events of the agenda are marked as published. They are in the log, in
      order, and at most the next one is in the log unmarked. */
  ghost predicate Drained(events: Events, log: seq<Message>, n: nat) {
    var agenda := Agenda(events);
    && n <= |agenda| && Published(events) == Members(agenda[..n])
    && (Collapsed(StampLog(log)) == agenda[..n] || (n < |agenda| && Collapsed(StampLog(log)) == agenda[..n + 1]))
  }

  /** What was published is what was persisted. */
  ghost predicate Genuine(events: Events, log: seq<Message>) {
    forall m :: m in log ==>
      EventId(m.incident, m.revision) in events && events[EventId(m.incident, m.revision)].message == m
  }

  function Marked(events: Events, e: EventId): Events
    requires e in events
  {
    events[e := events[e].(published := true)]
  }

  // ------------------------------------------------------------------ publish, mark, persist

  lemma AgendaLists(events: Events)
    ensures Lists(Publication(), Agenda(events), Stamps(events))
    ensures forall i, j :: 0 <= i < j < |Agenda(events)| ==> Agenda(events)[i] != Agenda(events)[j]
  {
    PublicationTotal();
    SortLists(Publication(), Stamps(events));
    forall i, j | 0 <= i < j < |Agenda(events)| ensures Agenda(events)[i] != Agenda(events)[j] {
      assert Publication()(Agenda(events)[i], Agenda(events)[j]);
    }
  }

  lemma CollapsedSnoc(log: seq<Stamp>, s: Stamp)
    ensures Collapsed(log + [s]) == var c := Collapsed(log); if c != [] && c[|c| - 1] == s then c else c + [s]
  {
    assert (log + [s])[..|log|] == log;
  }

  /** Publishing the next event, acknowledged or not, once or again, keeps the log in
      order; afterwards the log has it. */
  lemma PublishKeeps(events: Events, log: seq<Message>, n: nat, m: Message)
    requires Drained(events, log, n) && n < |Agenda(events)| && Agenda(events)[n] == StampOf(m)
    ensures Drained(events, log + [m], n)
    ensures Collapsed(StampLog(log + [m])) == Agenda(events)[..n + 1]
  {
    hide Agenda, Collapsed;
    AgendaLists(events);
    var agenda := Agenda(events);
    assert StampLog(log + [m]) == StampLog(log) + [StampOf(m)];
    CollapsedSnoc(StampLog(log), StampOf(m));
    assert agenda[..n + 1] == agenda[..n] + [agenda[n]];
  }

  lemma MarkStamps(events: Events, e: EventId)
    requires e in events
    ensures Stamps(Marked(events, e)) == Stamps(events)
    ensures Published(Marked(events, e)) == Published(events) + {StampOf(events[e].message)}
  {
    var after := Marked(events, e);
    forall x | x in events ensures after[x].message == events[x].message {}
    assert e in after && after[e].published;
    forall s | s in Stamps(events) ensures s in Stamps(after) {
      var x :| x in events && StampOf(events[x].message) == s;
      assert x in after;
    }
    forall s | s in Published(events) ensures s in Published(after) {
      var x :| x in events && events[x].published && StampOf(events[x].message) == s;
      assert x in after && after[x].published;
    }
  }

  /** Marking the event that the log ends with moves the boundary by one. */
  lemma MarkKeeps(events: Events, log: seq<Message>, n: nat, e: EventId)
    requires Drained(events, log, n) && e in events
    requires n < |Agenda(events)| && Agenda(events)[n] == StampOf(events[e].message)
    requires Collapsed(StampLog(log)) == Agenda(events)[..n + 1]
    ensures Drained(Marked(events, e), log, n + 1) && Agenda(Marked(events, e)) == Agenda(events)
  {
    hide Collapsed, Marked, StampLog;
    MarkStamps(events, e);
    var agenda := Agenda(events);
    assert agenda[..n + 1] == agenda[..n] + [agenda[n]];
  }

  lemma InsertStamps(events: Events, e: EventId, m: Message)
    requires e !in events
    ensures Stamps(events[e := StateEvent(m, false)]) == Stamps(events) + {StampOf(m)}
    ensures Published(events[e := StateEvent(m, false)]) == Published(events)
  {
    var after := events[e := StateEvent(m, false)];
    assert e in after && after[e].message == m && !after[e].published;
    forall x | x in events ensures x in after && after[x] == events[x] {}
    forall s | s in Stamps(events) ensures s in Stamps(after) {
      var x :| x in events && StampOf(events[x].message) == s;
      assert x in after;
    }
    forall s | s in Published(events) ensures s in Published(after) {
      var x :| x in events && events[x].published && StampOf(events[x].message) == s;
      assert x in after && after[x].published;
    }
  }

  /** When a listed block precedes everything else, the agenda begins with it. */
  lemma AgendaBegins(events: Events, block: seq<Stamp>)
    requires Increasing(Publication(), block) && Members(block) <= Stamps(events)
    requires forall x, y :: x in block && y in Stamps(events) - Members(block) ==> Precedes(x, y)
    ensures |block| <= |Agenda(events)| && Agenda(events)[..|block|] == block
  {
    PublicationTotal();
    var rest := Stamps(events) - Members(block);
    SortLists(Publication(), rest);
    ListingConcat(Publication(), block, Members(block), Sort(Publication(), rest), rest);
    assert Members(block) + rest == Stamps(events);
    SortIs(Publication(), block + Sort(Publication(), rest), Stamps(events));
  }

  /** An event later than everything published joins the rest of the agenda; what is
      published stays its beginning. */
  lemma InsertKeeps(events: Events, log: seq<Message>, n: nat, e: EventId, m: Message)
    requires Drained(events, log, n) && Collapsed(StampLog(log)) == Agenda(events)[..n] && e !in events
    requires forall s :: s in Published(events) ==> Precedes(s, StampOf(m))
    ensures Drained(events[e := StateEvent(m, false)], log, n)
    ensures Agenda(events[e := StateEvent(m, false)])[..n] == Agenda(events)[..n]
  {
    hide Collapsed, StampLog, Stamps, Published, Precedes;
    var after, block := events[e := StateEvent(m, false)], Agenda(events)[..n];
    InsertStamps(events, e, m);
    AgendaLists(events);
    ListingSplit(Publication(), Agenda(events), Stamps(events), n);
    forall x, y | x in block && y in Stamps(after) - Members(block) ensures Precedes(x, y) {
      assert x in Published(events);
      if y != StampOf(m) {
        assert y in Agenda(events)[n..];
        assert Publication()(x, y);
      }
    }
    AgendaBegins(after, block);
  }

  // ------------------------------------------------------------------ what the log shows

  lemma PendingRest(events: Events)
    requires Labelled(events)
    ensures Pending(events) == Stamps(events) - Published(events)
  {
    forall s | s in Pending(events) ensures s !in Published(events) {
      var x :| x in events && !events[x].published && StampOf(events[x].message) == s;
    }
  }

  /** The query behind the outbox drain returns the next events of the agenda. */
  lemma PendingIsNext(events: Events, log: seq<Message>, n: nat)
    requires Drained(events, log, n) && Labelled(events)
    ensures StrictTotal(Publication()) && Sort(Publication(), Pending(events)) == Agenda(events)[n..]
  {
    hide Collapsed, StampLog, Stamps, Published, Pending, Precedes, Agenda;
    PublicationTotal();
    AgendaLists(events);
    var agenda := Agenda(events);
    ListingSplit(Publication(), agenda, Stamps(events), n);
    PendingRest(events);
    forall x ensures x in agenda[n..] <==> x in Pending(events) {
      assert x in agenda[n..] ==> x !in agenda[..n];
    }
    SortIs(Publication(), agenda[n..], Pending(events));
  }

  /** What the log shows, repeats collapsed, is a prefix of all persisted events in
      publication order, and every event marked as published is in it. */
  lemma LogIsPrefix(events: Events, log: seq<Message>, n: nat)
    requires Drained(events, log, n)
    ensures Collapsed(StampLog(log)) <= Agenda(events) && Distinct(Collapsed(StampLog(log)))
    ensures forall e :: e in events && events[e].published ==> StampOf(events[e].message) in StampLog(log)
  {
    hide Agenda, StampLog;
    AgendaLists(events);
    var c := Collapsed(StampLog(log));
    forall e | e in events && events[e].published ensures StampOf(events[e].message) in StampLog(log) {
      var s := StampOf(events[e].message);
      assert s in Published(events);
      var i :| 0 <= i < n && Agenda(events)[..n][i] == s;
      assert c[i] == s;
      CollapsedElements(StampLog(log));
    }
  }

  lemma {:induction false} CollapsedElements(log: seq<Stamp>)
    ensures forall s :: s in Collapsed(log) <==> s in log
  {
    if log != [] {
      CollapsedElements(log[..|log| - 1]);
      assert log == log[..|log| - 1] + [log[|log| - 1]];
    }
  }

  lemma SnocDistinct<T>(c: seq<T>, x: T)
    requires Distinct(c + [x])
    ensures x !in c && Distinct(c)
  {
    var r := c + [x];
    forall i | 0 <= i < |c| ensures c[i] != x { assert r[i] != r[|c|]; }
    forall i, j | 0 <= i < j < |c| ensures c[i] != c[j] { assert r[i] != r[j]; }
  }

  /** Repeats of an event are adjacent: nothing comes between two occurrences. */
  lemma {:induction false} RepeatsAreAdjacent(log: seq<Stamp>, i: nat, j: nat, k: nat)
    requires Distinct(Collapsed(log))
    requires i <= k <= j < |log| && log[i] == log[j]
    ensures log[k] == log[i]
  {
    hide Distinct;
    if k == j {
      return;
    }
    var init, last := log[..|log| - 1], log[|log| - 1];
    var c := Collapsed(init);
    LastOfCollapsed(init);
    CollapsedElements(init);
    if c[|c| - 1] != last { SnocDistinct(c, last); }
    assert init[i] in c;
    RepeatsAreAdjacent(init, i, if j < |log| - 1 then j else j - 1, k);
  }

  lemma LastOfCollapsed(log: seq<Stamp>)
    requires log != []
    ensures Collapsed(log) != [] && Collapsed(log)[|Collapsed(log)| - 1] == log[|log| - 1]
  {
  }

  /** Revision `r` of the incident at position `i` comes before that position. */
  ghost predicate CameBefore(stamps: seq<Stamp>, i: nat, r: nat)
    requires i < |stamps|
  {
    exists j :: 0 <= j < i && stamps[j].incident == stamps[i].incident && stamps[j].revision == r
  }

  /** Per incident the revisions are 1, 2, 3, … without a gap. */
  ghost predicate GapFree(stamps: seq<Stamp>) {
    forall i, r: nat {:trigger CameBefore(stamps, i, r)} :: 0 <= i < |stamps| ==>
      (CameBefore(stamps, i, r) <==> 1 <= r < stamps[i].revision)
  }

  /** Nothing comes between two occurrences of one event. */
  ghost predicate RepeatsAdjacent(stamps: seq<Stamp>) {
    forall i, j, k :: 0 <= i <= k <= j < |stamps| && stamps[i] == stamps[j] ==> stamps[k] == stamps[i]
  }

  /** Before the event of revision r, the agenda holds exactly the revisions 1..r-1 of the
      same incident. */
  lemma RevisionsInOrder(c: Config, events: Events, lives: Lives, i: nat, r: nat)
    requires EventsFold(c, events, lives) && i < |Agenda(events)|
    requires forall id :: id in lives ==> Living(c, lives[id])
    ensures CameBefore(Agenda(events), i, r) <==> 1 <= r < Agenda(events)[i].revision
  {
    hide Agenda, Living, MessageOf;
    AgendaLists(events);
    var agenda := Agenda(events);
    var here := agenda[i];
    var id := here.incident;
    StampIs(c, events, lives, here);
    if 1 <= r < here.revision {
      var there := Stamp(lives[id][r - 1].at, id, r);
      StampOfLife(c, events, lives, id, r);
      assert lives[id][r - 1].at < here.time by { TimesIncrease(c, lives[id], r - 1, here.revision - 1); }
      var j :| 0 <= j < |agenda| && agenda[j] == there;
      assert j < i by { assert i < j ==> Publication()(here, there); }
    }
    if j :| 0 <= j < i && agenda[j].incident == id && agenda[j].revision == r {
      var there := agenda[j];
      StampIs(c, events, lives, there);
      assert Publication()(there, here);
      if here.revision < r { TimesIncrease(c, lives[id], here.revision - 1, r - 1); }
    }
  }

  lemma TimesIncrease(c: Config, life: Life, i: nat, j: nat)
    requires Living(c, life) && i < j < |life|
    ensures life[i].at < life[j].at
  {
  }

  lemma StampIs(c: Config, events: Events, lives: Lives, s: Stamp)
    requires EventsFold(c, events, lives) && s in Stamps(events)
    ensures s.incident in lives && 1 <= s.revision <= |lives[s.incident]|
    ensures s.time == lives[s.incident][s.revision - 1].at
  {
    hide RowOf;
    var e :| e in events && StampOf(events[e].message) == s;
  }

  lemma StampOfLife(c: Config, events: Events, lives: Lives, id: nat, r: nat)
    requires EventsFold(c, events, lives) && id in lives && 1 <= r <= |lives[id]|
    ensures Stamp(lives[id][r - 1].at, id, r) in Stamps(events)
  {
    hide RowOf;
    var e := EventId(id, r);
    assert e in events;
  }
}
