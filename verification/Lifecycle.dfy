/** Candidate, open, ongoing, recovering, resolved: one engine cycle advances every key
    once, and an incident's counters are a simple function of its hits and misses. */
module Lifecycle {
  import opened Prelude
  import opened Incidents

  /** uuid5 of key and start time; injective by assumption. */
  type Naming = (string, int) -> nat

  // ------------------------------------------------------------------ one key, one cycle

  function Begin(name: Naming, at: int, f: Finding): Transition {
    Transition(name(f.key, at), f, at, None, Candidate, 1, 1, 0)
  }

  /** The part of an incident that a hit or a miss moves. */
  datatype Stage = Stage(status: Status, positives: nat, recoveries: nat)

  function HitStage(c: Config, s: Stage): Stage {
    var positives := s.positives + 1;
    var status := match s.status
      case Candidate => if positives >= c.openObservations then Open else Candidate
      case Recovering => Open
      case _ => Ongoing;
    Stage(status, positives, 0)
  }

  function MissStage(c: Config, s: Stage): Stage {
    var recoveries := s.recoveries + 1;
    var resolved := s.status.Candidate? || (s.status.Recovering? && recoveries >= c.resolveObservations);
    Stage(if resolved then Resolved else Recovering, s.positives, recoveries)
  }

  function StageOf(a: Active): Stage { Stage(a.status, a.positives, a.recoveries) }

  function OnHit(c: Config, a: Active, f: Finding): Transition {
    var s := HitStage(c, StageOf(a));
    Transition(a.id, f, a.start, None, s.status, a.revision + 1, s.positives, s.recoveries)
  }

  function OnMiss(c: Config, at: int, a: Active): Transition {
    var s := MissStage(c, StageOf(a));
    Transition(a.id, a.finding, a.start, if s.status.Resolved? then Some(at) else None, s.status, a.revision + 1,
               s.positives, s.recoveries)
  }

  /** What the cycle does to one key: a finding or an active incident, or both. */
  function Next(c: Config, name: Naming, at: int, finding: Option<Finding>, previous: Option<Active>): Transition
    requires finding.Some? || previous.Some?
  {
    if previous.None? then Begin(name, at, finding.value)
    else if finding.Some? then OnHit(c, previous.value, finding.value)
    else OnMiss(c, at, previous.value)
  }

  // ------------------------------------------------------------------ the engine's loops

  /** A dictionary built by comprehension: keys in the order of first appearance, each
      with its last value. */
  datatype Dict<V> = Dict(order: seq<string>, at: map<string, V>)

  function Index<V>(key: V -> string, items: seq<V>): Dict<V> {
    if items == [] then Dict([], map[])
    else
      var d, v := Index(key, items[..|items| - 1]), items[|items| - 1];
      Dict(if key(v) in d.at then d.order else d.order + [key(v)], d.at[key(v) := v])
  }

  ghost predicate Keyed<V>(d: Dict<V>) {
    && (forall k :: k in d.order <==> k in d.at)
    && (forall i, j :: 0 <= i < j < |d.order| ==> d.order[i] != d.order[j])
  }

  lemma {:induction false} IndexKeyed<V>(key: V -> string, items: seq<V>)
    ensures Keyed(Index(key, items))
    ensures forall k :: k in Index(key, items).at <==> exists v :: v in items && key(v) == k
    ensures forall k :: k in Index(key, items).at ==>
      Index(key, items).at[k] in items && key(Index(key, items).at[k]) == k
  {
    if items != [] {
      var init, v := items[..|items| - 1], items[|items| - 1];
      IndexKeyed(key, init);
      assert items == init + [v];
      forall k ensures k in Index(key, items).at <==> exists w :: w in items && key(w) == k {
        if w :| w in items && key(w) == k {
          if w in init { assert k in Index(key, init).at; }
        }
      }
    }
  }

  /** Of several values with one key the last one stands. */
  lemma {:induction false} IndexLast<V>(key: V -> string, items: seq<V>, i: nat)
    requires i < |items| && forall j :: i < j < |items| ==> key(items[j]) != key(items[i])
    ensures key(items[i]) in Index(key, items).at && Index(key, items).at[key(items[i])] == items[i]
  {
    if i < |items| - 1 {
      IndexLast(key, items[..|items| - 1], i);
    }
  }

  function FindingsByKey(findings: seq<Finding>): Dict<Finding> { Index((f: Finding) => f.key, findings) }
  function ActiveByKey(active: seq<Active>): Dict<Active> { Index((a: Active) => a.key, active) }

  function Get<V>(d: Dict<V>, k: string): Option<V> { if k in d.at then Some(d.at[k]) else None }

  /** The keys a cycle advances, in the order it advances them. */
  function CycleKeys(findings: seq<Finding>, active: seq<Active>): seq<string> {
    var found := FindingsByKey(findings);
    found.order + Missing(found, ActiveByKey(active).order)
  }

  ghost predicate Concerns(found: Dict<Finding>, known: Dict<Active>, keys: seq<string>) {
    forall k :: k in keys ==> k in found.at || k in known.at
  }

  function Moves(c: Config, name: Naming, at: int, found: Dict<Finding>, known: Dict<Active>,
                 keys: seq<string>): (r: seq<Transition>)
    requires Concerns(found, known, keys)
    ensures |r| == |keys|
  {
    if keys == [] then []
    else Moves(c, name, at, found, known, keys[..|keys| - 1])
         + [Next(c, name, at, Get(found, keys[|keys| - 1]), Get(known, keys[|keys| - 1]))]
  }

  lemma NoMoves(c: Config, name: Naming, at: int, found: Dict<Finding>, known: Dict<Active>, keys: seq<string>)
    requires keys == []
    ensures Moves(c, name, at, found, known, keys) == []
  {
  }

  lemma MovesSnoc(c: Config, name: Naming, at: int, found: Dict<Finding>, known: Dict<Active>, keys: seq<string>,
                  k: string)
    requires Concerns(found, known, keys) && (k in found.at || k in known.at)
    ensures Concerns(found, known, keys + [k])
    ensures Moves(c, name, at, found, known, keys + [k])
         == Moves(c, name, at, found, known, keys) + [Next(c, name, at, Get(found, k), Get(known, k))]
  {
    hide Next;
    assert (keys + [k])[..|keys|] == keys;
  }

  lemma {:induction false} MovesConcat(c: Config, name: Naming, at: int, found: Dict<Finding>, known: Dict<Active>,
                                       a: seq<string>, b: seq<string>)
    requires Concerns(found, known, a) && Concerns(found, known, b)
    ensures Concerns(found, known, a + b)
    ensures Moves(c, name, at, found, known, a + b)
      == Moves(c, name, at, found, known, a) + Moves(c, name, at, found, known, b)
  {
    hide Next;
    if b == [] {
      assert a + b == a;
    } else {
      var init, k := b[..|b| - 1], b[|b| - 1];
      assert k in b && b == init + [k];
      MovesConcat(c, name, at, found, known, a, init);
      MovesSnoc(c, name, at, found, known, a + init, k);
      assert a + b == a + init + [k];
    }
  }

  /** The keys of the dictionary that the other lacks, up to some position. */
  function Missing(found: Dict<Finding>, order: seq<string>): seq<string> {
    Filter((k: string) => k !in found.at, order)
  }

  lemma MissingNone(found: Dict<Finding>)
    ensures Missing(found, []) == []
  {
  }

  lemma MissingSnoc(found: Dict<Finding>, order: seq<string>, k: string)
    ensures Missing(found, order + [k]) == Missing(found, order) + if k in found.at then [] else [k]
  {
    FilterConcat((k: string) => k !in found.at, order, [k]);
    assert [k][1..] == [];
  }

  lemma CycleConcerns(findings: seq<Finding>, active: seq<Active>)
    ensures Concerns(FindingsByKey(findings), ActiveByKey(active), CycleKeys(findings, active))
  {
    hide Index;
    IndexKeyed((f: Finding) => f.key, findings);
    IndexKeyed((a: Active) => a.key, active);
  }

  /** One transition for each of the cycle's keys: what its finding and its active
      incident call for. */
  function CycleMoves(c: Config, name: Naming, at: int, findings: seq<Finding>,
                      active: seq<Active>): (r: seq<Transition>)
    ensures |r| == |CycleKeys(findings, active)|
  {
    CycleConcerns(findings, active);
    Moves(c, name, at, FindingsByKey(findings), ActiveByKey(active), CycleKeys(findings, active))
  }

  /** The first loop: one transition per finding. */
  method AdvanceFound(c: Config, name: Naming, at: int, found: Dict<Finding>, known: Dict<Active>)
    returns (r: seq<Transition>)
    requires Keyed(found) && forall k :: k in found.at ==> found.at[k].key == k
    ensures Concerns(found, known, found.order) && r == Moves(c, name, at, found, known, found.order)
  {
    hide Moves;
    NoMoves(c, name, at, found, known, []);
    r := [];
    for i := 0 to |found.order|
      invariant Concerns(found, known, found.order[..i])
      invariant r == Moves(c, name, at, found, known, found.order[..i])
    {
      var key := found.order[i];
      MovesSnoc(c, name, at, found, known, found.order[..i], key);
      assert found.order[..i + 1] == found.order[..i] + [key];
      var finding, previous := found.at[key], Get(known, key);
      if previous.None? {
        r := r + [Transition(name(key, at), finding, at, None, Candidate, 1, 1, 0)];
        continue;
      }
      var positives := previous.value.positives + 1;
      var status := Ongoing;
      if previous.value.status.Candidate? {
        status := if positives >= c.openObservations then Open else Candidate;
      } else if previous.value.status.Recovering? {
        status := Open;
      }
      r := r + [Transition(previous.value.id, finding, previous.value.start, None, status,
                           previous.value.revision + 1, positives, 0)];
    }
    assert found.order[..|found.order|] == found.order;
  }

  /** The second loop: one transition per active incident without a finding. */
  method LapseMissed(c: Config, name: Naming, at: int, found: Dict<Finding>, known: Dict<Active>)
    returns (r: seq<Transition>)
    requires Keyed(known)
    ensures Concerns(found, known, Missing(found, known.order))
    ensures r == Moves(c, name, at, found, known, Missing(found, known.order))
  {
    hide Moves, Missing;
    NoMoves(c, name, at, found, known, []);
    MissingNone(found);
    r := [];
    for i := 0 to |known.order|
      invariant Concerns(found, known, Missing(found, known.order[..i]))
      invariant r == Moves(c, name, at, found, known, Missing(found, known.order[..i]))
    {
      var key := known.order[i];
      assert known.order[..i + 1] == known.order[..i] + [key];
      MissingSnoc(found, known.order[..i], key);
      if key in found.at {
        assert Missing(found, known.order[..i + 1]) == Missing(found, known.order[..i]);
        continue;
      }
      MovesSnoc(c, name, at, found, known, Missing(found, known.order[..i]), key);
      var previous := known.at[key];
      var recoveries := previous.recoveries + 1;
      var resolved :=
        previous.status.Candidate? || (previous.status.Recovering? && recoveries >= c.resolveObservations);
      r := r + [Transition(previous.id, previous.finding, previous.start, if resolved then Some(at) else None,
                           if resolved then Resolved else Recovering, previous.revision + 1, previous.positives,
                           recoveries)];
    }
    assert known.order[..|known.order|] == known.order;
  }

  /** The engine's two loops compute the cycle's transitions. */
  method TransitionAll(c: Config, name: Naming, at: int, findings: seq<Finding>, active: seq<Active>)
    returns (r: seq<Transition>)
    ensures r == CycleMoves(c, name, at, findings, active)
  {
    hide Index, Moves, Missing;
    var found, known := FindingsByKey(findings), ActiveByKey(active);
    IndexKeyed((f: Finding) => f.key, findings);
    IndexKeyed((a: Active) => a.key, active);
    var advanced := AdvanceFound(c, name, at, found, known);
    var lapsed := LapseMissed(c, name, at, found, known);
    MovesConcat(c, name, at, found, known, found.order, Missing(found, known.order));
    r := advanced + lapsed;
  }

  lemma {:induction false} MovesAt(c: Config, name: Naming, at: int, found: Dict<Finding>, known: Dict<Active>,
                                   keys: seq<string>, i: nat)
    requires Concerns(found, known, keys) && i < |keys|
    ensures keys[i] in found.at || keys[i] in known.at
    ensures Moves(c, name, at, found, known, keys)[i] == Next(c, name, at, Get(found, keys[i]), Get(known, keys[i]))
  {
    hide Next;
    assert keys[i] in keys;
    if i < |keys| - 1 {
      MovesAt(c, name, at, found, known, keys[..|keys| - 1], i);
    }
  }

  lemma DistinctConcat<T>(a: seq<T>, b: seq<T>)
    requires Distinct(a) && Distinct(b) && forall x :: x in b ==> x !in a
    ensures Distinct(a + b)
  {
    var r := a + b;
    forall i, j | 0 <= i < j < |r| ensures r[i] != r[j] {
      if i < |a| <= j { assert r[j] in b; }
    }
  }

  /** Every cycle advances each key of the findings and of the active incidents exactly
      once, and no other key. */
  lemma OnePerKey(c: Config, name: Naming, at: int, findings: seq<Finding>, active: seq<Active>)
    requires forall a :: a in active ==> a.finding.key == a.key
    ensures Distinct(CycleKeys(findings, active))
    ensures forall k :: k in CycleKeys(findings, active) <==>
      (exists f :: f in findings && f.key == k) || (exists a :: a in active && a.key == k)
    ensures forall i :: 0 <= i < |CycleKeys(findings, active)| ==>
      CycleMoves(c, name, at, findings, active)[i].finding.key == CycleKeys(findings, active)[i]
  {
    hide Index, Moves, Filter;
    var found, known := FindingsByKey(findings), ActiveByKey(active);
    var keys := CycleKeys(findings, active);
    IndexKeyed((f: Finding) => f.key, findings);
    IndexKeyed((a: Active) => a.key, active);
    FilterDistinct((k: string) => k !in found.at, known.order);
    assert Concerns(found, known, keys);
    DistinctConcat(found.order, Missing(found, known.order));
    forall i | 0 <= i < |keys| ensures Moves(c, name, at, found, known, keys)[i].finding.key == keys[i] {
      MovesAt(c, name, at, found, known, keys, i);
      assert Next(c, name, at, Get(found, keys[i]), Get(known, keys[i])).finding.key == keys[i];
    }
  }

  // ------------------------------------------------------------------ counters and history

  /** The stage after a history: it begins with a hit, then each cycle is a hit or a miss. */
  function Replay(c: Config, h: seq<bool>): Stage
    requires h != []
  {
    if |h| == 1 then Stage(Candidate, 1, 0)
    else
      var s := Replay(c, h[..|h| - 1]);
      if h[|h| - 1] then HitStage(c, s) else MissStage(c, s)
  }

  /** No cycle before the last one resolved the incident. */
  ghost predicate Lasting(c: Config, h: seq<bool>) {
    h != [] && h[0] && forall k :: 1 <= k < |h| ==> Replay(c, h[..k]).status != Resolved
  }

  function Max(a: int, b: int): int { if a >= b then a else b }

  /** Consecutive hits that open an incident, consecutive misses that resolve it. */
  function HitsToOpen(c: Config): int { Max(2, c.openObservations) }
  function MissesToResolve(c: Config): int { Max(2, c.resolveObservations) }

  function Hits(h: seq<bool>): nat {
    if h == [] then 0 else Hits(h[..|h| - 1]) + if h[|h| - 1] then 1 else 0
  }

  /** How many misses the history ends with. */
  function TrailingMisses(h: seq<bool>): nat {
    if h == [] || h[|h| - 1] then 0 else 1 + TrailingMisses(h[..|h| - 1])
  }

  predicate AllHits(h: seq<bool>, n: int) { n <= |h| && forall i :: 0 <= i < n ==> h[i] }

  /** The status, read off the history without replaying it. */
  function StatusOf(c: Config, h: seq<bool>): Status
    requires h != []
  {
    if !AllHits(h, HitsToOpen(c)) then (if AllHits(h, |h|) then Candidate else Resolved)
    else if h[|h| - 1] then (if |h| == HitsToOpen(c) || !h[|h| - 2] then Open else Ongoing)
    else if TrailingMisses(h) < MissesToResolve(c) then Recovering
    else Resolved
  }

  lemma {:induction false} AllHitsCount(h: seq<bool>)
    requires AllHits(h, |h|)
    ensures Hits(h) == |h| && TrailingMisses(h) == 0
  {
    if h != [] {
      AllHitsCount(h[..|h| - 1]);
    }
  }

  /** The stored status and counters are a function of the key's history: a candidate
      opens after so many consecutive hits and resolves on its first miss; an opened
      incident recovers on a miss, reopens on a hit, and resolves exactly when the
      consecutive misses reach their threshold. */
  lemma {:induction false} CountersRefineHistory(c: Config, h: seq<bool>)
    requires Lasting(c, h)
    ensures Replay(c, h) == Stage(StatusOf(c, h), Hits(h), TrailingMisses(h))
    ensures TrailingMisses(h) <= MissesToResolve(c)
  {
    if |h| == 1 {
      assert h == [true];
      AllHitsCount(h);
    } else {
      var init := h[..|h| - 1];
      forall k | 1 <= k < |init| ensures Replay(c, init[..k]).status != Resolved { assert init[..k] == h[..k]; }
      CountersRefineHistory(c, init);
      assert h[..|h| - 1] == init;
      if AllHits(init, |init|) { AllHitsCount(init); }
      if AllHits(h, |h|) { AllHitsCount(h); }
    }
  }

  lemma {:induction false} TrailingMeans(h: seq<bool>, n: nat)
    ensures TrailingMisses(h) >= n <==> n <= |h| && forall i :: |h| - n <= i < |h| ==> !h[i]
  {
    if h == [] || n == 0 {
    } else if h[|h| - 1] {
    } else {
      var init := h[..|h| - 1];
      TrailingMeans(init, n - 1);
      if n <= |h| && forall i :: |init| - (n - 1) <= i < |init| ==> !init[i] {
        forall i | |h| - n <= i < |h| ensures !h[i] { assert i < |init| ==> h[i] == init[i]; }
      }
      if n <= |h| && forall i :: |h| - n <= i < |h| ==> !h[i] {
        forall i | |init| - (n - 1) <= i < |init| ensures !init[i] { assert init[i] == h[i]; }
      }
    }
  }

  // ------------------------------------------------------------------ settings below two

  function AllTrue(n: nat): (h: seq<bool>)
    ensures |h| == n && AllHits(h, n)
  {
    seq(n, i => true)
  }

  lemma {:induction false} HitsStayLive(c: Config, h: seq<bool>)
    requires h != [] && AllHits(h, |h|)
    ensures Lasting(c, h) && Replay(c, h).status != Resolved
    ensures Replay(c, h).status.Candidate? <==> |h| < HitsToOpen(c)
  {
    if |h| > 1 {
      var init := h[..|h| - 1];
      HitsStayLive(c, init);
      forall k | 1 <= k < |h|
        ensures Replay(c, h[..k]).status != Resolved
      {
        if k < |init| { assert h[..k] == init[..k]; } else { assert h[..k] == init; }
      }
    }
    AllHitsCount(h);
    CountersRefineHistory(c, h);
  }

  /** Consecutive hits end the candidate stage when they reach the setting. */
  ghost predicate OpensAtSetting(c: Config) {
    forall h: seq<bool> :: h != [] && AllHits(h, |h|) ==>
      (!Replay(c, h).status.Candidate? <==> |h| >= c.openObservations)
  }

  /** Trailing misses end an opened incident when they reach the setting. */
  ghost predicate ResolvesAtSetting(c: Config) {
    forall h: seq<bool> :: Lasting(c, h) && AllHits(h, HitsToOpen(c)) ==>
      (Replay(c, h).status.Resolved? <==> TrailingMisses(h) >= c.resolveObservations)
  }

  /** With the setting 1 the first hit does not open. */
  lemma OneHitDoesNotOpen(c: Config)
    requires c.openObservations == 1
    ensures Replay(c, [true]).status == Candidate && !OpensAtSetting(c)
  {
    var h := [true];
    assert h != [] && AllHits(h, |h|);
  }

  /** An incident opens after as many hits as the setting says if and only if it says two
      or more. */
  lemma OpensAtSettingIff(c: Config)
    ensures OpensAtSetting(c) <==> c.openObservations >= 2
  {
    if c.openObservations >= 2 {
      forall h: seq<bool> | h != [] && AllHits(h, |h|)
        ensures !Replay(c, h).status.Candidate? <==> |h| >= c.openObservations
      {
        HitsStayLive(c, h);
      }
    } else {
      var h := [true];
      assert h != [] && AllHits(h, |h|) && Replay(c, h).status.Candidate?;
    }
  }

  /** As many hits as open an incident, then a miss: recovering, whatever the setting. */
  lemma FirstMissRecovers(c: Config, h: seq<bool>)
    requires h == AllTrue(HitsToOpen(c)) + [false]
    ensures Lasting(c, h) && AllHits(h, HitsToOpen(c)) && TrailingMisses(h) == 1
    ensures Replay(c, h).status == Recovering
  {
    var hits := AllTrue(HitsToOpen(c));
    HitsStayLive(c, hits);
    assert h[..|h| - 1] == hits;
    forall k | 1 <= k < |h|
      ensures Replay(c, h[..k]).status != Resolved
    {
      if k < |hits| { assert h[..k] == hits[..k]; }
    }
    AllHitsCount(hits);
    CountersRefineHistory(c, h);
  }

  /** With the setting 1 the first miss does not resolve. */
  lemma OneMissDoesNotResolve(c: Config)
    requires c.resolveObservations == 1
    ensures Replay(c, AllTrue(HitsToOpen(c)) + [false]).status == Recovering && !ResolvesAtSetting(c)
  {
    FirstMissRecovers(c, AllTrue(HitsToOpen(c)) + [false]);
  }

  /** An opened incident resolves after as many misses as the setting says if and only if it
      says two or more. */
  lemma ResolvesAtSettingIff(c: Config)
    ensures ResolvesAtSetting(c) <==> c.resolveObservations >= 2
  {
    if c.resolveObservations >= 2 {
      forall h: seq<bool> | Lasting(c, h) && AllHits(h, HitsToOpen(c))
        ensures Replay(c, h).status.Resolved? <==> TrailingMisses(h) >= c.resolveObservations
      {
        CountersRefineHistory(c, h);
      }
    } else {
      FirstMissRecovers(c, AllTrue(HitsToOpen(c)) + [false]);
    }
  }
}
