/** Values shared by the incident classifier: configuration, findings, lifecycle records
    and the published incident message. */
module Incidents {
  import opened Prelude

  datatype Config = Config(minimumSamples: int, openObservations: int, resolveObservations: int,
                           healthySuccess: real, failedSuccess: real, highLatency: real, highLoss: real,
                           weakSignal: real, heartbeatStale: int)

  /** What loading the configuration insists on. */
  predicate ValidConfig(c: Config) {
    && c.minimumSamples >= 1 && c.openObservations >= 1 && c.resolveObservations >= 1 && c.heartbeatStale >= 1
    && 0.0 <= c.failedSuccess < c.healthySuccess <= 100.0
    && c.highLatency > 0.0 && 0.0 <= c.highLoss <= 100.0
    && -120.0 <= c.weakSignal <= 0.0
  }

  datatype Kind =
    | RouterUnavailable | WifiOutage | IspOutage | WifiDegradation | DnsFailure | ExternalServiceFailure
    | HighPacketLoss | HighLatency | UnknownNetworkIncident | AgentOffline
  datatype Severity = Warning | Critical
  datatype Status = Candidate | Open | Ongoing | Recovering | Resolved

  /** Rows of the observation window, grouped by the snapshot query. */
  datatype Measurement = Measurement(agent: string, role: string, target: string, kind: string, samples: int,
                                     success: real, peakLatency: Option<real>, loss: real,
                                     signal: Option<real>, connected: Option<real>)
  datatype Service = Service(agent: string, role: string, endpoint: string, check: string, samples: int, success: real)
  datatype Heartbeat = Heartbeat(agent: string, role: string, last: Option<int>)
  datatype Snapshot = Snapshot(at: int, measurements: seq<Measurement>, services: seq<Service>,
                               heartbeats: seq<Heartbeat>)

  datatype Evidence =
    | OfMeasurement(measurement: Measurement)
    | OfService(service: Service)
    | OfSilence(agent: string, last: Option<int>, age: Option<int>, others: seq<string>)

  /** Free text, by who wrote it: a rule's summary, a silent agent's, or a rule's advice. */
  datatype Text = OfRule(rule: Kind) | OfAgent(agent: string) | Advice(about: Kind)

  /** How many characters it has. */
  function Length(t: Text): (n: nat)
    ensures n > 0
  {
    match t
    case OfRule(kind) => SummaryLength(kind)
    case OfAgent(agent) => 62 + |agent|
    case Advice(kind) => AdviceLength(kind)
  }

  /** The summaries are fixed texts, but for a silent agent's, which names the agent. */
  function SummaryLength(k: Kind): (n: nat)
    ensures 1 <= n <= 119
  {
    match k
    case RouterUnavailable => 61
    case WifiOutage => 103
    case IspOutage => 72
    case WifiDegradation => 87
    case DnsFailure => 79
    case ExternalServiceFailure => 88
    case HighPacketLoss => 67
    case HighLatency => 63
    case UnknownNetworkIncident => 119
    case AgentOffline => 62
  }

  function AdviceLength(k: Kind): (n: nat)
    ensures 1 <= n <= 88
  {
    match k
    case RouterUnavailable => 60
    case WifiOutage => 71
    case IspOutage => 74
    case WifiDegradation => 88
    case DnsFailure => 70
    case ExternalServiceFailure => 68
    case HighPacketLoss => 72
    case HighLatency => 72
    case UnknownNetworkIncident => 70
    case AgentOffline => 57
  }

  datatype Finding = Finding(key: string, kind: Kind, severity: Severity, confidence: real,
                             agents: seq<string>, endpoints: seq<string>, evidence: seq<Evidence>,
                             peakLatency: Option<real>, maximumLoss: Option<real>, summary: Text, advice: Text)

  ghost predicate NoRepeats(f: Finding) { Distinct(f.agents) && Distinct(f.endpoints) }

  /** The summary is published behind "Probable classification: ". */
  function PublishedLength(t: Text): nat { 25 + Length(t) }

  /** The message contract's limits on free text. */
  predicate TextFits(length: nat) { 1 <= length <= 2048 }

  predicate Described(f: Finding) { TextFits(PublishedLength(f.summary)) && TextFits(Length(f.advice)) }

  /** What the message schema and the table constraints ask of a finding's columns; that no
      endpoint repeats is asked by neither. */
  ghost predicate Sound(f: Finding) {
    && f.agents != [] && f.evidence != [] && NoRepeats(f) && Described(f)
    && 0.0 <= f.confidence <= 1.0
    && (f.peakLatency.Some? ==> f.peakLatency.value >= 0.0)
    && (f.maximumLoss.Some? ==> 0.0 <= f.maximumLoss.value <= 100.0)
  }

  datatype Active = Active(id: nat, key: string, start: int, status: Status, revision: nat,
                           positives: nat, recoveries: nat, finding: Finding)
  datatype Transition = Transition(id: nat, finding: Finding, start: int, end: Option<int>, status: Status,
                                   revision: nat, positives: nat, recoveries: nat)

  /** The published state event; `revision` is also its sequence number, and the finding's
      summary appears in its published form. */
  datatype Message = Message(incident: nat, revision: nat, time: int, finding: Finding, start: int, end: Option<int>,
                             status: Status, duration: int)

  /** SQL GREATEST, and Python's `max` over the values present: nulls are ignored. */
  function Greatest(a: Option<real>, b: Option<real>): Option<real> {
    if a.None? then b else if b.None? then a else Some(if a.value >= b.value then a.value else b.value)
  }

  /** `p` is the largest value present, and absent only when no value is. */
  ghost predicate IsMaximum(p: Option<real>, values: seq<Option<real>>) {
    && (p.None? <==> forall i :: 0 <= i < |values| ==> values[i].None?)
    && (p.Some? ==> (exists i :: 0 <= i < |values| && values[i] == p)
                    && forall i :: 0 <= i < |values| && values[i].Some? ==> values[i].value <= p.value)
  }

  lemma MaximumGrows(p: Option<real>, values: seq<Option<real>>, v: Option<real>)
    requires IsMaximum(p, values)
    ensures IsMaximum(Greatest(p, v), values + [v])
  {
    var all, q := values + [v], Greatest(p, v);
    assert all[|values|] == v;
    assert forall i :: 0 <= i < |values| ==> all[i] == values[i];
    if q.None? {
    } else if v.Some? && q == v {
      assert all[|values|] == q;
    } else {
      var i :| 0 <= i < |values| && values[i] == p;
      assert all[i] == q;
    }
  }

  lemma NoMaximum()
    ensures IsMaximum(None, [])
  {
  }

  lemma MaximumUnique(p: Option<real>, q: Option<real>, a: seq<Option<real>>, b: seq<Option<real>>)
    requires IsMaximum(p, a) && IsMaximum(q, b) && forall v :: v in a <==> v in b
    ensures p == q
  {
    if p.Some? {
      assert p in b;
      var j :| 0 <= j < |b| && b[j] == p;
      assert b[j].Some?;
    }
    if q.Some? {
      assert q in a;
      var i :| 0 <= i < |a| && a[i] == q;
      assert a[i].Some?;
    }
  }

  /** max(values, default=None) over the values present. */
  function MaxOf(values: seq<Option<real>>): Option<real> {
    if values == [] then None else Greatest(MaxOf(values[..|values| - 1]), values[|values| - 1])
  }

  lemma {:induction false} MaxOfIs(values: seq<Option<real>>)
    ensures IsMaximum(MaxOf(values), values)
  {
    hide IsMaximum, Greatest;
    if values == [] {
      NoMaximum();
    } else {
      MaxOfIs(values[..|values| - 1]);
      MaximumGrows(MaxOf(values[..|values| - 1]), values[..|values| - 1], values[|values| - 1]);
      assert values == values[..|values| - 1] + [values[|values| - 1]];
    }
  }
}
