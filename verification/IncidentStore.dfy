/** The incident tables: what one persisted transition does to them, and what every run
    keeps: rows are folds of histories, at most one unresolved incident per key. */
module IncidentStore {
  import opened Prelude
  import opened Incidents
  import opened Lifecycle

  /** `finding` stands for the row's finding columns; its peaks are the stored maxima. */
  datatype Row = Row(finding: Finding, start: int, end: Option<int>, status: Status, revision: nat, positives: nat,
                     recoveries: nat, duration: int, lastObserved: int)

  /** uuid5 of incident id and revision; injective by assumption. */
  datatype EventId = EventId(incident: nat, revision: nat)
  datatype StateEvent = StateEvent(message: Message, published: bool)
  datatype Database = Database(incidents: map<nat, Row>, events: map<EventId, StateEvent>)

  // ------------------------------------------------------------------ one transition

  /** The message contract's validator: field ranges, text lengths and the lifecycle rules. */
  predicate Contract(m: Message) {
    && m.finding.agents != []
    && (m.status.Resolved? <==> m.end.Some?)
    && (m.end.Some? ==> m.end.value >= m.start)
    && m.duration >= 0
    && 0.0 <= m.finding.confidence <= 1.0
    && (m.finding.peakLatency.Some? ==> m.finding.peakLatency.value >= 0.0)
    && (m.finding.maximumLoss.Some? ==> 0.0 <= m.finding.maximumLoss.value <= 100.0)
    && TextFits(PublishedLength(m.finding.summary)) && TextFits(Length(m.finding.advice))
  }

  datatype Rejection = ContractViolation | ConstraintViolation

  function Event(t: Transition, at: int): Result<Message, Rejection> {
    var m := Message(t.id, t.revision, at, t.finding, t.start, t.end, t.status, Max(0, at - t.start));
    if Contract(m) then Ok(m) else Err(ContractViolation)
  }

  /** INSERT … ON CONFLICT (incident_id) DO UPDATE: the key, the type and the start stay,
      the peaks grow, everything else is replaced. */
  function Upserted(incidents: map<nat, Row>, t: Transition, m: Message): Row {
    var inserted := Row(t.finding, t.start, t.end, t.status, t.revision, t.positives, t.recoveries, m.duration, m.time);
    if t.id !in incidents then inserted
    else
      var stored := incidents[t.id];
      inserted.(start := stored.start,
                finding := t.finding.(key := stored.finding.key, kind := stored.finding.kind,
                                      peakLatency := Greatest(stored.finding.peakLatency, t.finding.peakLatency),
                                      maximumLoss := Greatest(stored.finding.maximumLoss, t.finding.maximumLoss)))
  }

  predicate RowChecks(r: Row) {
    && 0.0 <= r.finding.confidence <= 1.0
    && (r.finding.peakLatency.Some? ==> r.finding.peakLatency.value >= 0.0)
    && (r.finding.maximumLoss.Some? ==> 0.0 <= r.finding.maximumLoss.value <= 100.0)
    && r.duration >= 0 && r.revision > 0 && r.positives > 0
    && Length(r.finding.summary) > 0 && Length(r.finding.advice) > 0
    && (r.end.Some? ==> r.end.value >= r.start)
    && (r.status.Resolved? <==> r.end.Some?)
  }

  /** The unique index over unresolved rows. */
  predicate KeyTaken(incidents: map<nat, Row>, id: nat, r: Row) {
    && !r.status.Resolved?
    && exists other ::
      && other in incidents && other != id && !incidents[other].status.Resolved?
      && incidents[other].finding.key == r.finding.key
  }

  predicate Accepts(db: Database, t: Transition, m: Message) {
    var r := Upserted(db.incidents, t, m);
    RowChecks(r) && !KeyTaken(db.incidents, t.id, r)
  }

  /** What an upsert keeps of a stored row and what it replaces. */
  lemma UpsertKeeps(db: Database, t: Transition, m: Message)
    ensures var rows := Persisted(db, t, m).incidents;
      && rows.Keys == db.incidents.Keys + {t.id}
      && (forall other :: other in db.incidents && other != t.id ==> rows[other] == db.incidents[other])
      && var r := rows[t.id];
         && r.end == t.end && r.status == t.status && r.revision == t.revision && r.positives == t.positives
         && r.recoveries == t.recoveries && r.duration == m.duration && r.lastObserved == m.time
         && r.finding.severity == t.finding.severity && r.finding.confidence == t.finding.confidence
         && r.finding.agents == t.finding.agents && r.finding.endpoints == t.finding.endpoints
         && r.finding.evidence == t.finding.evidence && r.finding.summary == t.finding.summary
         && r.finding.advice == t.finding.advice
         && (t.id !in db.incidents ==> r.start == t.start && r.finding == t.finding)
         && (t.id in db.incidents ==> var q := db.incidents[t.id];
               && r.start == q.start && r.finding.key == q.finding.key && r.finding.kind == q.finding.kind
               && IsMaximum(r.finding.peakLatency, [q.finding.peakLatency, t.finding.peakLatency])
               && IsMaximum(r.finding.maximumLoss, [q.finding.maximumLoss, t.finding.maximumLoss]))
  {
    if t.id in db.incidents {
      var q := db.incidents[t.id];
      GreatestIs(q.finding.peakLatency, t.finding.peakLatency);
      GreatestIs(q.finding.maximumLoss, t.finding.maximumLoss);
    }
  }

  lemma GreatestIs(a: Option<real>, b: Option<real>)
    ensures IsMaximum(Greatest(a, b), [a, b])
  {
    assert [a, b][0] == a && [a, b][1] == b;
  }

  /** Exactly what makes the message's construction fail. */
  lemma EventRejectedIff(t: Transition, at: int)
    ensures Event(t, at).Err? <==>
      || t.finding.agents == []
      || (t.status.Resolved? && t.end.None?) || (!t.status.Resolved? && t.end.Some?)
      || (t.end.Some? && t.end.value < t.start)
      || t.finding.confidence < 0.0 || t.finding.confidence > 1.0
      || (t.finding.peakLatency.Some? && t.finding.peakLatency.value < 0.0)
      || (t.finding.maximumLoss.Some? && !(0.0 <= t.finding.maximumLoss.value <= 100.0))
      || Length(t.finding.summary) > 2023 || Length(t.finding.advice) > 2048
    ensures Event(t, at).Ok? ==> var m := Event(t, at).value;
      && m.incident == t.id && m.revision == t.revision && m.time == at && m.finding == t.finding
      && m.start == t.start && m.end == t.end && m.status == t.status
      && m.duration == if at < t.start then 0 else at - t.start
  {
  }

  /** Exactly what makes the transaction fail: a column out of bounds, or another unresolved
      incident with the key. */
  lemma AcceptsIff(db: Database, t: Transition, m: Message)
    ensures var r := Persisted(db, t, m).incidents[t.id];
      Accepts(db, t, m) <==>
        && 0.0 <= r.finding.confidence <= 1.0
        && (r.finding.peakLatency.None? || r.finding.peakLatency.value >= 0.0)
        && (r.finding.maximumLoss.None? || 0.0 <= r.finding.maximumLoss.value <= 100.0)
        && r.duration >= 0 && r.revision > 0 && r.positives > 0
        && (if r.status.Resolved? then r.end.Some? && r.end.value >= r.start else r.end.None?)
        && (r.status.Resolved? || forall other :: other in db.incidents && other != t.id ==>
              db.incidents[other].status.Resolved? || db.incidents[other].finding.key != r.finding.key)
  {
  }

  function Persisted(db: Database, t: Transition, m: Message): Database {
    var e := EventId(t.id, t.revision);
    Database(db.incidents[t.id := Upserted(db.incidents, t, m)],
             if e in db.events then db.events else db.events[e := StateEvent(m, false)])
  }

  function ActiveOf(id: nat, r: Row): Active {
    Active(id, r.finding.key, r.start, r.status, r.revision, r.positives, r.recoveries, r.finding)
  }

  // ------------------------------------------------------------------ histories of incidents

  datatype Observation = Hit(at: int, finding: Finding) | Miss(at: int)
  type Life = seq<Observation>
  type Lives = map<nat, Life>

  function Marks(life: Life): seq<bool> { Map((o: Observation) => o.Hit?, life) }

  ghost predicate Living(c: Config, life: Life) {
    && life != [] && life[0].Hit?
    && Lasting(c, Marks(life))
    && (forall i, j :: 0 <= i < j < |life| ==> life[i].at < life[j].at)
    && (forall i :: 0 <= i < |life| && life[i].Hit? ==>
      Sound(life[i].finding) && life[i].finding.key == life[0].finding.key)
  }

  function LastHit(life: Life): Finding
    requires life != [] && life[0].Hit?
  {
    if life[|life| - 1].Hit? then life[|life| - 1].finding else LastHit(life[..|life| - 1])
  }

  /** Running maxima over the findings of the hits, nulls ignored. */
  function PeakOf(life: Life): Option<real> {
    if life == [] then None
    else
      var last := life[|life| - 1];
      Greatest(PeakOf(life[..|life| - 1]), if last.Hit? then last.finding.peakLatency else None)
  }

  function LossOf(life: Life): Option<real> {
    if life == [] then None
    else
      var last := life[|life| - 1];
      Greatest(LossOf(life[..|life| - 1]), if last.Hit? then last.finding.maximumLoss else None)
  }

  function Last(life: Life): Observation
    requires life != []
  {
    life[|life| - 1]
  }

  /** The row that a history folds to. */
  function RowOf(c: Config, life: Life): Row
    requires life != [] && life[0].Hit?
  {
    var s := Replay(c, Marks(life));
    var first := life[0].finding;
    Row(LastHit(life).(key := first.key, kind := first.kind, peakLatency := PeakOf(life), maximumLoss := LossOf(life)),
        life[0].at, if s.status.Resolved? then Some(Last(life).at) else None, s.status, |life|, s.positives,
        s.recoveries, Last(life).at - life[0].at, Last(life).at)
  }

  /** The message of the cycle that a history ends with: a hit reports its own finding, a
      miss the stored one. */
  function MessageOf(c: Config, id: nat, life: Life): Message
    requires life != [] && life[0].Hit?
  {
    var r := RowOf(c, life);
    Message(id, |life|, Last(life).at, if Last(life).Hit? then Last(life).finding else r.finding, r.start, r.end,
            r.status, r.duration)
  }

  predicate Ended(c: Config, life: Life)
    requires life != []
  {
    Replay(c, Marks(life)).status.Resolved?
  }

  // ------------------------------------------------------------------ what every run keeps

  ghost predicate Grown(c: Config, name: Naming, id: nat, life: Life, clock: int) {
    Living(c, life) && Last(life).at <= clock && id == name(life[0].finding.key, life[0].at)
  }

  ghost predicate AllGrown(c: Config, name: Naming, lives: Lives, clock: int) {
    forall id :: id in lives ==> Grown(c, name, id, lives[id], clock)
  }

  /** One incident ended before the other began. */
  ghost predicate Before(c: Config, a: Life, b: Life) {
    a != [] && b != [] && Ended(c, a) && Last(a).at < b[0].at
  }

  ghost predicate Apart(c: Config, lives: Lives) {
    forall i, j :: i in lives && j in lives && i != j && SameKey(lives[i], lives[j]) ==>
      Before(c, lives[i], lives[j]) || Before(c, lives[j], lives[i])
  }

  predicate SameKey(a: Life, b: Life) {
    a != [] && b != [] && a[0].Hit? && b[0].Hit? && a[0].finding.key == b[0].finding.key
  }

  ghost predicate RowsFold(c: Config, incidents: map<nat, Row>, lives: Lives) {
    && incidents.Keys == lives.Keys
    && forall id :: id in lives ==> Living(c, lives[id]) && incidents[id] == RowOf(c, lives[id])
  }

  ghost predicate EventsFold(c: Config, events: map<EventId, StateEvent>, lives: Lives) {
    && (forall e :: e in events <==> e.incident in lives && 1 <= e.revision <= |lives[e.incident]|)
    && (forall e :: e in events ==> lives[e.incident][0].Hit?)
    && (forall e :: e in events ==> events[e].message == MessageOf(c, e.incident, lives[e.incident][..e.revision]))
  }

  ghost predicate Consistent(c: Config, name: Naming, db: Database, lives: Lives, clock: int) {
    && AllGrown(c, name, lives, clock) && Apart(c, lives)
    && RowsFold(c, db.incidents, lives) && EventsFold(c, db.events, lives)
  }

  ghost predicate Injective(name: Naming) {
    forall k, t, l, u {:trigger name(k, t), name(l, u)} :: name(k, t) == name(l, u) ==> k == l && t == u
  }

  /** The transition `t` is what the observation `o` calls for in this state. */
  ghost predicate Due(c: Config, name: Naming, at: int, lives: Lives, t: Transition, o: Observation) {
    && o.at == at
    && (o.Hit? ==> Sound(o.finding) && t.finding == o.finding)
    && (forall id ::
          id in lives && lives[id] != [] && lives[id][0].Hit? && lives[id][0].finding.key == t.finding.key ==>
          Last(lives[id]).at < at && (id == t.id || Ended(c, lives[id])))
    && if t.id !in lives then o.Hit? && t == Begin(name, at, o.finding)
       else
         && lives[t.id] != [] && lives[t.id][0].Hit? && !Ended(c, lives[t.id])
         && lives[t.id][0].finding.key == t.finding.key
         && t == (var a := ActiveOf(t.id, RowOf(c, lives[t.id]));
                  if o.Hit? then OnHit(c, a, o.finding) else OnMiss(c, at, a))
  }

  function Extended(lives: Lives, id: nat, o: Observation): Lives {
    lives[id := (if id in lives then lives[id] else []) + [o]]
  }

  // ------------------------------------------------------------------ a history grows by one cycle

  lemma MarksSnoc(life: Life, o: Observation)
    ensures Marks(life + [o]) == Marks(life) + [o.Hit?]
  {
  }

  lemma ReplaySnoc(c: Config, life: Life, o: Observation)
    requires life != []
    ensures Replay(c, Marks(life + [o]))
         == if o.Hit? then HitStage(c, Replay(c, Marks(life))) else MissStage(c, Replay(c, Marks(life)))
  {
    hide HitStage, MissStage;
    MarksSnoc(life, o);
    assert Marks(life + [o])[..|life|] == Marks(life);
  }

  lemma LifeGrows(c: Config, life: Life, o: Observation)
    requires Living(c, life) && !Ended(c, life) && Last(life).at < o.at
    requires o.Hit? ==> Sound(o.finding) && o.finding.key == life[0].finding.key
    ensures Living(c, life + [o])
  {
    hide Sound, Replay;
    var h, g := Marks(life), Marks(life + [o]);
    MarksSnoc(life, o);
    forall k | 1 <= k < |g| ensures Replay(c, g[..k]).status != Resolved {
      if k < |h| { assert g[..k] == h[..k]; } else { assert g[..k] == h; }
    }
  }

  lemma FirstLife(c: Config, o: Observation)
    requires o.Hit? && Sound(o.finding)
    ensures Living(c, [o]) && !Ended(c, [o])
  {
    assert Marks([o]) == [true];
  }

  /** The columns of the finding after one more cycle. */
  lemma FindingSnoc(life: Life, o: Observation)
    requires life != [] && life[0].Hit?
    ensures LastHit(life + [o]) == if o.Hit? then o.finding else LastHit(life)
    ensures PeakOf(life + [o]) == Greatest(PeakOf(life), if o.Hit? then o.finding.peakLatency else None)
    ensures LossOf(life + [o]) == Greatest(LossOf(life), if o.Hit? then o.finding.maximumLoss else None)
  {
    assert (life + [o])[..|life|] == life;
  }

  lemma GreatestIdempotent(a: Option<real>)
    ensures Greatest(a, a) == a
  {
  }

  /** Persisting the cycle's transition folds the cycle into the row. */
  lemma RowGrows(c: Config, id: nat, life: Life, o: Observation, t: Transition, incidents: map<nat, Row>, m: Message)
    requires Living(c, life) && Last(life).at < o.at
    requires id in incidents && incidents[id] == RowOf(c, life)
    requires var a := ActiveOf(id, RowOf(c, life)); t == if o.Hit? then OnHit(c, a, o.finding) else OnMiss(c, o.at, a)
    requires m.time == o.at && m.duration == Max(0, o.at - t.start)
    ensures Upserted(incidents, t, m) == RowOf(c, life + [o])
  {
    hide Replay, HitStage, MissStage, LastHit, PeakOf, LossOf, Greatest, Living;
    Ordered(c, life);
    ReplaySnoc(c, life, o);
    FindingSnoc(life, o);
    GreatestIdempotent(PeakOf(life));
    GreatestIdempotent(LossOf(life));
    GreatestNull(PeakOf(life));
    GreatestNull(LossOf(life));
    HitsDoNotResolve(c, Replay(c, Marks(life)));
  }

  lemma HitsDoNotResolve(c: Config, s: Stage)
    ensures HitStage(c, s).status != Resolved && HitStage(c, s).recoveries == 0
  {
  }

  lemma GreatestNull(a: Option<real>)
    ensures Greatest(a, None) == a
  {
  }

  lemma Ordered(c: Config, life: Life)
    requires Living(c, life)
    ensures life != [] && life[0].Hit? && life[0].at <= Last(life).at
  {
    if |life| > 1 { assert life[0].at < life[|life| - 1].at; }
  }

  /** The event built for the transition is the message of the history's last cycle. */
  lemma MessageGrows(c: Config, id: nat, life: Life, o: Observation, t: Transition)
    requires Living(c, life) && Last(life).at < o.at
    requires var a := ActiveOf(id, RowOf(c, life)); t == if o.Hit? then OnHit(c, a, o.finding) else OnMiss(c, o.at, a)
    ensures Message(t.id, t.revision, o.at, t.finding, t.start, t.end, t.status, Max(0, o.at - t.start))
      == MessageOf(c, id, life + [o])
  {
    hide Replay, HitStage, MissStage, LastHit, PeakOf, LossOf, Greatest, Living;
    Ordered(c, life);
    ReplaySnoc(c, life, o);
    FindingSnoc(life, o);
    GreatestNull(PeakOf(life));
    GreatestNull(LossOf(life));
    HitsDoNotResolve(c, Replay(c, Marks(life)));
  }

  lemma OneHit(o: Observation)
    requires o.Hit?
    ensures PeakOf([o]) == o.finding.peakLatency && LossOf([o]) == o.finding.maximumLoss && LastHit([o]) == o.finding
  {
    var none: Life := [];
    assert [o][..|[o]| - 1] == none;
    assert PeakOf(none) == None && LossOf(none) == None;
  }

  lemma FirstRow(c: Config, name: Naming, o: Observation, incidents: map<nat, Row>, t: Transition, m: Message)
    requires o.Hit? && t == Begin(name, o.at, o.finding) && t.id !in incidents && m.time == o.at && m.duration == 0
    ensures Upserted(incidents, t, m) == RowOf(c, [o])
    ensures Message(t.id, t.revision, o.at, t.finding, t.start, t.end, t.status, 0) == MessageOf(c, t.id, [o])
  {
    hide PeakOf, LossOf, LastHit;
    assert Marks([o]) == [true];
    OneHit(o);
    assert Replay(c, [true]) == Stage(Candidate, 1, 0);
  }

  // ------------------------------------------------------------------ limits of a history's values

  predicate PeakInRange(p: Option<real>) { p.Some? ==> p.value >= 0.0 }
  predicate LossInRange(p: Option<real>) { p.Some? ==> 0.0 <= p.value <= 100.0 }

  ghost predicate SoundHits(life: Life) {
    forall i :: 0 <= i < |life| && life[i].Hit? ==> Sound(life[i].finding)
  }

  lemma {:induction false} MaximaInRange(life: Life)
    requires SoundHits(life)
    ensures PeakInRange(PeakOf(life)) && LossInRange(LossOf(life))
  {
    if life != [] {
      MaximaInRange(life[..|life| - 1]);
    }
  }

  lemma {:induction false} LastHitSound(life: Life)
    requires life != [] && life[0].Hit? && SoundHits(life)
    ensures Sound(LastHit(life))
  {
    if Last(life).Hit? {
      assert Sound(life[|life| - 1].finding);
    } else {
      LastHitSound(life[..|life| - 1]);
    }
  }

  lemma StoredMembersDistinct(c: Config, life: Life)
    requires Living(c, life)
    ensures NoRepeats(RowOf(c, life).finding)
  {
    hide Replay, Distinct;
    LastHitSound(life);
  }

  lemma {:induction false} SomeHits(h: seq<bool>)
    requires h != [] && h[0]
    ensures Hits(h) >= 1
  {
    if |h| > 1 { SomeHits(h[..|h| - 1]); }
  }

  /** A row that a history folds to meets the table's constraints. */
  lemma RowInRange(c: Config, life: Life)
    requires Living(c, life)
    ensures RowChecks(RowOf(c, life)) && Described(RowOf(c, life).finding)
    ensures RowOf(c, life).finding.agents != [] && RowOf(c, life).finding.evidence != []
  {
    hide Replay, LastHit, PeakOf, LossOf, Length;
    Ordered(c, life);
    MaximaInRange(life);
    LastHitSound(life);
    CountersRefineHistory(c, Marks(life));
    SomeHits(Marks(life));
  }

  /** Every message names an affected agent and an item of evidence and satisfies the
      contract: the lifecycle validator never rejects one. */
  lemma MessageInRange(c: Config, id: nat, life: Life)
    requires Living(c, life)
    ensures Contract(MessageOf(c, id, life)) && MessageOf(c, id, life).finding.evidence != []
  {
    hide Replay, LastHit, PeakOf, LossOf, Length;
    Ordered(c, life);
    RowInRange(c, life);
    assert Last(life).Hit? ==> Sound(Last(life).finding);
  }

  // ------------------------------------------------------------------ a persisted transition keeps it all

  lemma {:induction false} PrefixLiving(c: Config, life: Life, n: nat)
    requires Living(c, life) && 1 <= n <= |life|
    ensures Living(c, life[..n])
  {
    hide Replay, Sound;
    var h, g := Marks(life), Marks(life[..n]);
    assert g == h[..n];
    forall k | 1 <= k < |g| ensures Replay(c, g[..k]).status != Resolved { assert g[..k] == h[..k]; }
  }

  lemma DueLives(c: Config, name: Naming, at: int, lives: Lives, t: Transition, o: Observation)
    requires Due(c, name, at, lives, t, o) && forall id :: id in lives ==> Living(c, lives[id])
    ensures var life := Extended(lives, t.id, o)[t.id];
      Living(c, life) && Last(life) == o && life[0].finding.key == t.finding.key
    ensures t.id in lives ==> Last(lives[t.id]).at < at && SameKey(lives[t.id], Extended(lives, t.id, o)[t.id])
  {
    hide Replay, Sound;
    if t.id in lives {
      Ordered(c, lives[t.id]);
      LifeGrows(c, lives[t.id], o);
    } else {
      FirstLife(c, o);
      assert [] + [o] == [o];
    }
  }

  lemma GrownKept(c: Config, name: Naming, at: int, lives: Lives, clock: int, t: Transition, o: Observation)
    requires AllGrown(c, name, lives, clock) && clock <= at && Due(c, name, at, lives, t, o)
    ensures AllGrown(c, name, Extended(lives, t.id, o), at)
  {
    hide Living, Ended, RowOf, OnHit, OnMiss;
    DueLives(c, name, at, lives, t, o);
    var after: Lives := Extended(lives, t.id, o);
    forall id | id in after ensures Grown(c, name, id, after[id], at) {
      assert id in lives ==> Grown(c, name, id, lives[id], clock);
    }
  }

  lemma ApartKept(c: Config, name: Naming, at: int, lives: Lives, clock: int, t: Transition, o: Observation)
    requires AllGrown(c, name, lives, clock) && Apart(c, lives) && Due(c, name, at, lives, t, o)
    ensures Apart(c, Extended(lives, t.id, o))
  {
    hide Living, Ended, RowOf, Due;
    var after: Lives := Extended(lives, t.id, o);
    forall i, j | i in after && j in after && i != j && SameKey(after[i], after[j])
      ensures Before(c, after[i], after[j]) || Before(c, after[j], after[i])
    {
      if i == t.id {
        OthersEnded(c, name, at, lives, t, o, j);
      } else if j == t.id {
        OthersEnded(c, name, at, lives, t, o, i);
      } else {
        assert SameKey(lives[i], lives[j]);
      }
    }
  }

  /** Next to the incident that a transition moves, the key has ended incidents only, and
      they ended before this one began. */
  lemma OthersEnded(c: Config, name: Naming, at: int, lives: Lives, t: Transition, o: Observation, other: nat)
    requires (forall id :: id in lives ==> Living(c, lives[id])) && Apart(c, lives) && Due(c, name, at, lives, t, o)
    requires other in lives && other != t.id && SameKey(lives[other], Extended(lives, t.id, o)[t.id])
    ensures Before(c, lives[other], Extended(lives, t.id, o)[t.id])
  {
    hide Living, Replay;
    DueLives(c, name, at, lives, t, o);
    if t.id in lives {
      assert SameKey(lives[other], lives[t.id]);
    }
  }

  lemma RowsKept(c: Config, name: Naming, at: int, lives: Lives, db: Database, t: Transition, o: Observation,
                 m: Message)
    requires RowsFold(c, db.incidents, lives) && Due(c, name, at, lives, t, o) && Event(t, at) == Ok(m)
    ensures RowsFold(c, Persisted(db, t, m).incidents, Extended(lives, t.id, o))
  {
    hide Living, RowOf, Ended, Contract;
    DueLives(c, name, at, lives, t, o);
    if t.id in lives {
      RowGrows(c, t.id, lives[t.id], o, t, db.incidents, m);
    } else {
      FirstRow(c, name, o, db.incidents, t, m);
      assert [] + [o] == [o];
    }
  }

  lemma EventsKept(c: Config, name: Naming, at: int, lives: Lives, db: Database, t: Transition, o: Observation,
                   m: Message)
    requires (forall id :: id in lives ==> Living(c, lives[id])) && EventsFold(c, db.events, lives)
    requires Due(c, name, at, lives, t, o) && m == MessageOf(c, t.id, Extended(lives, t.id, o)[t.id])
    requires t.revision == |Extended(lives, t.id, o)[t.id]|
    ensures EventId(t.id, t.revision) !in db.events
    ensures EventsFold(c, Persisted(db, t, m).events, Extended(lives, t.id, o))
  {
    hide Living, MessageOf, Ended, RowOf;
    DueLives(c, name, at, lives, t, o);
    var after: Lives := Extended(lives, t.id, o);
    var events := Persisted(db, t, m).events;
    var now := EventId(t.id, t.revision);
    assert now !in db.events;
    assert after[t.id][..t.revision] == after[t.id];
    forall e | e in events
      ensures after[e.incident][0].Hit?
      ensures events[e].message == MessageOf(c, e.incident, after[e.incident][..e.revision])
    {
      if e != now && e.incident == t.id {
        assert after[t.id][..e.revision] == lives[t.id][..e.revision];
      }
    }
  }

  /** A due transition is accepted by contract, constraints and unique index, adds exactly
      one event, and keeps every invariant, whatever was persisted before it. */
  lemma PersistKeeps(c: Config, name: Naming, db: Database, lives: Lives, clock: int, at: int, t: Transition,
                     o: Observation)
    requires Consistent(c, name, db, lives, clock) && clock <= at && Due(c, name, at, lives, t, o)
    ensures Event(t, at).Ok? && Event(t, at).value.finding.evidence != []
    ensures Accepts(db, t, Event(t, at).value) && EventId(t.id, t.revision) !in db.events
    ensures Consistent(c, name, Persisted(db, t, Event(t, at).value), Extended(lives, t.id, o), at)
  {
    hide Living, RowOf, MessageOf, Ended, Contract, RowChecks, Upserted, Apart, AllGrown, EventsFold, RowsFold, Due;
    var life := Extended(lives, t.id, o)[t.id];
    assert forall id :: id in lives ==> Living(c, lives[id]) by { hide *; AllLiving(c, name, lives, clock); }
    DueLives(c, name, at, lives, t, o);
    DueMessage(c, name, db, lives, at, t, o);
    MessageInRange(c, t.id, life);
    var m := Event(t, at).value;
    GrownKept(c, name, at, lives, clock, t, o);
    ApartKept(c, name, at, lives, clock, t, o);
    RowsKept(c, name, at, lives, db, t, o, m);
    EventsKept(c, name, at, lives, db, t, o, m);
    FoldedRow(c, Persisted(db, t, m).incidents, Extended(lives, t.id, o), t.id);
    RowInRange(c, life);
    RowRevision(c, life);
    KeyFree(c, name, db, lives, at, t, o, m);
  }

  lemma FoldedRow(c: Config, incidents: map<nat, Row>, lives: Lives, id: nat)
    requires RowsFold(c, incidents, lives) && id in lives
    ensures id in incidents && Living(c, lives[id]) && lives[id] != [] && lives[id][0].Hit?
    ensures incidents[id] == RowOf(c, lives[id])
  {
    Ordered(c, lives[id]);
  }

  lemma AllLiving(c: Config, name: Naming, lives: Lives, clock: int)
    requires AllGrown(c, name, lives, clock)
    ensures forall id :: id in lives ==> Living(c, lives[id])
  {
    forall id | id in lives ensures Living(c, lives[id]) { assert Grown(c, name, id, lives[id], clock); }
  }

  /** A due transition leaves its row with the next revision. */
  lemma DueRevision(c: Config, name: Naming, db: Database, lives: Lives, clock: int, at: int, t: Transition,
                    o: Observation, m: Message)
    requires Consistent(c, name, db, lives, clock) && Due(c, name, at, lives, t, o)
    ensures t.id in Persisted(db, t, m).incidents
    ensures t.id in db.incidents ==> Persisted(db, t, m).incidents[t.id].revision == db.incidents[t.id].revision + 1
  {
    hide Living, EventsFold, Apart, AllGrown, Replay, Marks, LastHit, PeakOf, LossOf;
  }

  lemma DueMessage(c: Config, name: Naming, db: Database, lives: Lives, at: int, t: Transition, o: Observation)
    requires RowsFold(c, db.incidents, lives) && Due(c, name, at, lives, t, o)
    ensures var life := Extended(lives, t.id, o)[t.id];
      life != [] && life[0].Hit? && t.revision == |life|
      && Message(t.id, t.revision, at, t.finding, t.start, t.end, t.status, Max(0, at - t.start))
         == MessageOf(c, t.id, life)
  {
    hide Living, RowOf, MessageOf, Ended;
    DueLives(c, name, at, lives, t, o);
    Ordered(c, Extended(lives, t.id, o)[t.id]);
    if t.id in lives {
      MessageGrows(c, t.id, lives[t.id], o, t);
      RowRevision(c, lives[t.id]);
    } else {
      FirstRow(c, name, o, db.incidents, t, Message(0, 0, at, o.finding, at, None, Candidate, 0));
      assert [] + [o] == [o];
    }
  }

  lemma RowRevision(c: Config, life: Life)
    requires Living(c, life)
    ensures RowOf(c, life).revision == |life| && (RowOf(c, life).status.Resolved? <==> Ended(c, life))
    ensures RowOf(c, life).finding.key == life[0].finding.key && RowOf(c, life).start == life[0].at
    ensures RowOf(c, life).end == if Ended(c, life) then Some(Last(life).at) else None
  {
  }

  lemma KeyFree(c: Config, name: Naming, db: Database, lives: Lives, at: int, t: Transition, o: Observation, m: Message)
    requires RowsFold(c, db.incidents, lives) && Due(c, name, at, lives, t, o)
    requires Upserted(db.incidents, t, m).finding.key == t.finding.key
    ensures !KeyTaken(db.incidents, t.id, Upserted(db.incidents, t, m))
  {
    hide Living, RowOf, Ended, Upserted;
    forall other | other in db.incidents && other != t.id && db.incidents[other].finding.key == t.finding.key
      ensures db.incidents[other].status.Resolved?
    {
      Ordered(c, lives[other]);
      RowRevision(c, lives[other]);
    }
  }

  // ------------------------------------------------------------------ what the tables show

  /** There is never more than one unresolved incident per key; successive ones have
      different ids and disjoint lifetimes, in order. */
  lemma LifetimesApart(c: Config, name: Naming, db: Database, lives: Lives, clock: int, i: nat, j: nat)
    requires Consistent(c, name, db, lives, clock)
    requires i in db.incidents && j in db.incidents && i != j
    requires db.incidents[i].finding.key == db.incidents[j].finding.key
    ensures db.incidents[i].status.Resolved? || db.incidents[j].status.Resolved?
    ensures || (db.incidents[i].end.Some? && db.incidents[i].end.value < db.incidents[j].start)
            || (db.incidents[j].end.Some? && db.incidents[j].end.value < db.incidents[i].start)
  {
    hide Living, RowOf, Ended, EventsFold;
    Ordered(c, lives[i]);
    Ordered(c, lives[j]);
    RowRevision(c, lives[i]);
    RowRevision(c, lives[j]);
    assert SameKey(lives[i], lives[j]);
  }

  /** The row is the fold of its persisted events: their revisions are exactly
      1..state_revision, and the last one has the row's status. */
  lemma RowIsFoldOfEvents(c: Config, name: Naming, db: Database, lives: Lives, clock: int, id: nat)
    requires Consistent(c, name, db, lives, clock) && id in db.incidents
    ensures forall n: nat :: EventId(id, n) in db.events <==> 1 <= n <= db.incidents[id].revision
    ensures EventId(id, db.incidents[id].revision) in db.events
    ensures db.events[EventId(id, db.incidents[id].revision)].message.status == db.incidents[id].status
    ensures forall e :: e in db.events ==> e.incident in db.incidents
  {
    hide Living, Ended, Replay;
    Ordered(c, lives[id]);
    RowRevision(c, lives[id]);
    assert lives[id][..|lives[id]|] == lives[id];
  }

  /** Stored status and counters, in every reachable state, are the simple function of the
      key's hits and misses since its start. */
  lemma StoredCountersRefineHistory(c: Config, name: Naming, db: Database, lives: Lives, clock: int, id: nat)
    requires Consistent(c, name, db, lives, clock) && id in db.incidents
    ensures id in lives && lives[id] != []
    ensures var h := Marks(lives[id]);
      && db.incidents[id].status == StatusOf(c, h) && db.incidents[id].positives == Hits(h)
      && db.incidents[id].recoveries == TrailingMisses(h)
  {
    hide Replay, LastHit, PeakOf, LossOf;
    Ordered(c, lives[id]);
    CountersRefineHistory(c, Marks(lives[id]));
  }

  function HitPeaks(life: Life): seq<Option<real>> {
    Map((o: Observation) => if o.Hit? then o.finding.peakLatency else None, life)
  }

  function HitLosses(life: Life): seq<Option<real>> {
    Map((o: Observation) => if o.Hit? then o.finding.maximumLoss else None, life)
  }

  lemma {:induction false} MaximaOverHits(life: Life)
    ensures IsMaximum(PeakOf(life), HitPeaks(life)) && IsMaximum(LossOf(life), HitLosses(life))
  {
    hide Greatest, IsMaximum;
    if life == [] {
      assert IsMaximum(None, []) by { NoMaximum(); }
    } else {
      var init, last := life[..|life| - 1], life[|life| - 1];
      MaximaOverHits(init);
      MaximumGrows(PeakOf(init), HitPeaks(init), if last.Hit? then last.finding.peakLatency else None);
      MaximumGrows(LossOf(init), HitLosses(init), if last.Hit? then last.finding.maximumLoss else None);
      assert HitPeaks(life) == HitPeaks(init) + [if last.Hit? then last.finding.peakLatency else None];
      assert HitLosses(life) == HitLosses(init) + [if last.Hit? then last.finding.maximumLoss else None];
    }
  }

  /** The stored peaks are the maxima over all the key's findings since its start, although
      every recovery feeds the stored finding back in. */
  lemma StoredPeaksAreMaxima(c: Config, name: Naming, db: Database, lives: Lives, clock: int, id: nat)
    requires Consistent(c, name, db, lives, clock) && id in db.incidents
    ensures id in lives
    ensures IsMaximum(db.incidents[id].finding.peakLatency, HitPeaks(lives[id]))
    ensures IsMaximum(db.incidents[id].finding.maximumLoss, HitLosses(lives[id]))
  {
    hide Replay, LastHit, PeakOf, LossOf, IsMaximum;
    Ordered(c, lives[id]);
    MaximaOverHits(lives[id]);
  }

  /** A resolved row never changes again. */
  lemma ResolvedStays(c: Config, name: Naming, db: Database, lives: Lives, clock: int, at: int, t: Transition,
                      o: Observation, m: Message, id: nat)
    requires Consistent(c, name, db, lives, clock) && Due(c, name, at, lives, t, o)
    requires id in db.incidents && db.incidents[id].status.Resolved?
    ensures Persisted(db, t, m).incidents[id] == db.incidents[id]
  {
    hide Living, RowOf, Ended, Upserted, EventsFold;
    Ordered(c, lives[id]);
    RowRevision(c, lives[id]);
  }
}
