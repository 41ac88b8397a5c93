/** What the classifier's findings say of the snapshot they were made from, column by column:
    when each symptom is reported, on which rows, and which agents are silent. */
module Symptoms {
  import opened Prelude
  import opened Incidents
  import opened Text
  import opened Classify

  // ------------------------------------------------------------------ conditions on columns

  /** A sufficiently sampled row of this role and measurement type. */
  predicate Sample(c: Config, s: Snapshot, role: string, kind: string, m: Measurement) {
    m in s.measurements && m.samples >= c.minimumSamples && m.role == role && m.kind == kind
  }

  ghost predicate HasSample(c: Config, s: Snapshot, role: string, kind: string) {
    exists m :: Sample(c, s, role, kind, m)
  }

  /** There are such rows, and they all succeed often enough; or all fail. */
  ghost predicate Up(c: Config, s: Snapshot, role: string, kind: string) {
    HasSample(c, s, role, kind) && forall m :: Sample(c, s, role, kind, m) ==> m.success >= c.healthySuccess
  }

  ghost predicate Lost(c: Config, s: Snapshot, role: string, kind: string) {
    HasSample(c, s, role, kind) && forall m :: Sample(c, s, role, kind, m) ==> m.success <= c.failedSuccess
  }

  /** The Wi-Fi agent reports no association. */
  ghost predicate CutOff(c: Config, s: Snapshot) {
    && HasSample(c, s, "wifi_observer", "wifi_diagnostics")
    && forall m :: Sample(c, s, "wifi_observer", "wifi_diagnostics", m) ==>
         m.connected.Some? && m.connected.value <= c.failedSuccess
  }

  /** Latency, loss and signal are halfway to bad, on the Wi-Fi side. */
  ghost predicate Weak(c: Config, s: Snapshot) {
    && (exists m ::
          && (Sample(c, s, "wifi_observer", "router_ping", m) || Sample(c, s, "wifi_observer", "external_ping", m))
          && (PeakAtLeast(m, 0.5 * c.highLatency) || m.loss >= 0.75 * c.highLoss))
    && (exists m ::
          && Sample(c, s, "wifi_observer", "wifi_diagnostics", m)
          && m.signal.Some? && m.signal.value <= c.weakSignal)
  }

  predicate Checked(c: Config, s: Snapshot, check: string, v: Service) {
    v in s.services && v.samples >= c.minimumSamples && v.check == check
  }

  predicate PeakAtLeast(m: Measurement, limit: real) { m.peakLatency.Some? && m.peakLatency.value >= limit }

  /** The symptom is in the snapshot. */
  ghost predicate Shows(k: Kind, c: Config, s: Snapshot) {
    match k
    case RouterUnavailable => Lost(c, s, "wired_reference", "router_ping") && Lost(c, s, "wifi_observer", "router_ping")
    case WifiOutage =>
      && Up(c, s, "wired_reference", "router_ping") && Up(c, s, "wired_reference", "external_ping")
      && Lost(c, s, "wifi_observer", "router_ping")
      && CutOff(c, s)
    case IspOutage =>
      && Up(c, s, "wired_reference", "router_ping") && Up(c, s, "wifi_observer", "router_ping")
      && Lost(c, s, "wired_reference", "external_ping") && Lost(c, s, "wifi_observer", "external_ping")
    case WifiDegradation =>
      && Up(c, s, "wired_reference", "router_ping") && Up(c, s, "wired_reference", "external_ping")
      && HasSample(c, s, "wifi_observer", "router_ping") && Weak(c, s)
    case DnsFailure =>
      && AllUp(c, s)
      && (exists v :: Checked(c, s, "dns", v) && v.role == "wired_reference" && v.success <= c.failedSuccess)
      && (exists v :: Checked(c, s, "dns", v) && v.role == "wifi_observer" && v.success <= c.failedSuccess)
    case ExternalServiceFailure =>
      && AllUp(c, s)
      && (exists v :: Checked(c, s, "dns", v))
      && (forall v :: Checked(c, s, "dns", v) ==> v.success >= c.healthySuccess)
      && (exists v :: Checked(c, s, "http", v) && v.success <= c.failedSuccess)
      && ((exists v :: Checked(c, s, "http", v) && v.success >= c.healthySuccess)
          || OneService(c, s))
    case HighPacketLoss => LossyAt(c, s, "wired_reference") && LossyAt(c, s, "wifi_observer")
    case HighLatency => SlowAt(c, s, "wired_reference") && SlowAt(c, s, "wifi_observer")
    case UnknownNetworkIncident =>
      exists m :: m in s.measurements && m.samples >= c.minimumSamples && m.kind != "wifi_diagnostics"
        && (m.success <= c.failedSuccess || m.loss >= c.highLoss || PeakAtLeast(m, c.highLatency))
    case AgentOffline => false
  }

  ghost predicate AllUp(c: Config, s: Snapshot) {
    && Up(c, s, "wired_reference", "router_ping") && Up(c, s, "wifi_observer", "router_ping")
    && Up(c, s, "wired_reference", "external_ping") && Up(c, s, "wifi_observer", "external_ping")
  }

  ghost predicate OneService(c: Config, s: Snapshot) {
    forall u, v :: Checked(c, s, "http", u) && Checked(c, s, "http", v) ==> u.endpoint == v.endpoint
  }

  ghost predicate LossyAt(c: Config, s: Snapshot, role: string) {
    exists m :: m in s.measurements && m.samples >= c.minimumSamples && m.role == role
      && m.kind != "wifi_diagnostics" && m.loss >= c.highLoss
  }

  ghost predicate SlowAt(c: Config, s: Snapshot, role: string) {
    exists m :: m in s.measurements && m.samples >= c.minimumSamples && m.role == role && PeakAtLeast(m, c.highLatency)
  }

  // ------------------------------------------------------------------ the rules mean these conditions

  lemma SamplesAre(c: Config, s: Snapshot, role: string, kind: string)
    ensures forall m :: m in MeasurementsOf(Sampled(c, s).ms, role, kind) <==> Sample(c, s, role, kind, m)
    ensures MeasurementsOf(Sampled(c, s).ms, role, kind) != [] <==> HasSample(c, s, role, kind)
  {
    var rows := MeasurementsOf(Sampled(c, s).ms, role, kind);
    forall m ensures m in rows <==> Sample(c, s, role, kind, m) {}
    if rows != [] { assert rows[0] in rows; }
  }

  lemma ChecksAre(c: Config, s: Snapshot, check: string)
    ensures forall v :: v in ServicesOf(Sampled(c, s).ss, check) <==> Checked(c, s, check, v)
    ensures ServicesOf(Sampled(c, s).ss, check) != [] <==> exists v :: Checked(c, s, check, v)
  {
    var rows := ServicesOf(Sampled(c, s).ss, check);
    forall v ensures v in rows <==> Checked(c, s, check, v) {}
    if rows != [] { assert rows[0] in rows; }
  }

  lemma HealthIff(c: Config, s: Snapshot, role: string, kind: string)
    ensures AllHealthy(c, MeasurementsOf(Sampled(c, s).ms, role, kind)) <==> Up(c, s, role, kind)
    ensures AllFailed(c, MeasurementsOf(Sampled(c, s).ms, role, kind)) <==> Lost(c, s, role, kind)
  {
    hide MeasurementsOf, Sampled, Sample;
    SamplesAre(c, s, role, kind);
  }

  lemma NetworkIff(c: Config, s: Snapshot)
    ensures var w := Sampled(c, s);
      && (AllHealthy(c, WiredRouter(w)) <==> Up(c, s, WIRED, "router_ping"))
      && (AllHealthy(c, WifiRouter(w)) <==> Up(c, s, WIFI, "router_ping"))
      && (AllHealthy(c, WiredExternal(w)) <==> Up(c, s, WIRED, "external_ping"))
      && (AllHealthy(c, WifiExternal(w)) <==> Up(c, s, WIFI, "external_ping"))
      && (AllFailed(c, WiredRouter(w)) <==> Lost(c, s, WIRED, "router_ping"))
      && (AllFailed(c, WifiRouter(w)) <==> Lost(c, s, WIFI, "router_ping"))
      && (AllFailed(c, WiredExternal(w)) <==> Lost(c, s, WIRED, "external_ping"))
      && (AllFailed(c, WifiExternal(w)) <==> Lost(c, s, WIFI, "external_ping"))
  {
    hide AllHealthy, AllFailed, Up, Lost, MeasurementsOf, Sampled;
    HealthIff(c, s, WIRED, "router_ping");
    HealthIff(c, s, WIFI, "router_ping");
    HealthIff(c, s, WIRED, "external_ping");
    HealthIff(c, s, WIFI, "external_ping");
  }

  lemma DisconnectedIff(c: Config, s: Snapshot)
    ensures WifiDisconnected(c, Diagnostics(Sampled(c, s))) <==> CutOff(c, s)
  {
    hide MeasurementsOf, Sampled, Sample;
    SamplesAre(c, s, WIFI, "wifi_diagnostics");
  }

  lemma DegradedIff(c: Config, s: Snapshot)
    ensures var w := Sampled(c, s); WifiDegraded(c, WifiRouter(w) + WifiExternal(w), Diagnostics(w)) <==> Weak(c, s)
  {
    hide MeasurementsOf, Sampled, Sample;
    SamplesAre(c, s, WIFI, "router_ping");
    SamplesAre(c, s, WIFI, "external_ping");
    SamplesAre(c, s, WIFI, "wifi_diagnostics");
    var w := Sampled(c, s);
    var network := WifiRouter(w) + WifiExternal(w);
    assert forall m :: m in network <==> Sample(c, s, WIFI, "router_ping", m) || Sample(c, s, WIFI, "external_ping", m);
  }

  lemma ServicesIff(c: Config, s: Snapshot)
    ensures CrossAgentFailed(c, ServicesOf(Sampled(c, s).ss, "dns"))
       <==> && (exists v :: Checked(c, s, "dns", v) && v.role == WIRED && v.success <= c.failedSuccess)
            && (exists v :: Checked(c, s, "dns", v) && v.role == WIFI && v.success <= c.failedSuccess)
    ensures AllHealthyServices(c, ServicesOf(Sampled(c, s).ss, "dns"))
       <==> && (exists v :: Checked(c, s, "dns", v))
            && (forall v :: Checked(c, s, "dns", v) ==> v.success >= c.healthySuccess)
  {
    hide ServicesOf, Sampled, Checked, Filter;
    ChecksAre(c, s, "dns");
  }

  lemma HttpIff(c: Config, s: Snapshot)
    ensures Failing(c, ServicesOf(Sampled(c, s).ss, "http")) != []
       <==> exists v :: Checked(c, s, "http", v) && v.success <= c.failedSuccess
    ensures HealthyHttp(c, Sampled(c, s)) != []
       <==> exists v :: Checked(c, s, "http", v) && v.success >= c.healthySuccess
    ensures (exists v :: Checked(c, s, "http", v)) ==>
      (|Endpoints(ServicesOf(Sampled(c, s).ss, "http"))| == 1 <==> OneService(c, s))
  {
    hide ServicesOf, Sampled, Checked;
    ChecksAre(c, s, "http");
    var http := ServicesOf(Sampled(c, s).ss, "http");
    NonEmpty(Failing(c, http));
    NonEmpty(HealthyHttp(c, Sampled(c, s)));
    if http != [] { OneEndpoint(http); }
  }

  lemma NonEmpty<T>(rows: seq<T>)
    ensures rows != [] <==> exists x :: x in rows
  {
    if rows != [] { assert rows[0] in rows; }
  }

  lemma OneEndpoint(rows: seq<Service>)
    requires rows != []
    ensures |Endpoints(rows)| == 1 <==> forall u, v :: u in rows && v in rows ==> u.endpoint == v.endpoint
  {
    var first := rows[0].endpoint;
    assert rows[0] in rows && first in Endpoints(rows);
    if forall u, v :: u in rows && v in rows ==> u.endpoint == v.endpoint {
      assert Endpoints(rows) == {first};
    } else {
      var v :| v in rows && v.endpoint != first;
      assert {first, v.endpoint} <= Endpoints(rows);
      SubsetSize({first, v.endpoint}, Endpoints(rows));
    }
  }

  lemma {:induction false} SubsetSize<T>(a: set<T>, b: set<T>)
    requires a <= b
    ensures |a| <= |b|
  {
    if a != {} {
      var x :| x in a;
      SubsetSize(a - {x}, b - {x});
    }
  }

  lemma CoversIff(c: Config, s: Snapshot)
    ensures CoversBoth(LossyRows(c, Sampled(c, s))) <==> LossyAt(c, s, WIRED) && LossyAt(c, s, WIFI)
    ensures CoversBoth(SlowRows(c, Sampled(c, s))) <==> SlowAt(c, s, WIRED) && SlowAt(c, s, WIFI)
  {
    hide Filter;
    var w := Sampled(c, s);
    forall m ensures m in LossyRows(c, w)
                <==> m in s.measurements && m.samples >= c.minimumSamples && m.kind != "wifi_diagnostics"
                     && m.loss >= c.highLoss {}
    forall m ensures m in SlowRows(c, w)
                <==> m in s.measurements && m.samples >= c.minimumSamples && PeakAtLeast(m, c.highLatency) {}
  }

  lemma ImpairedIff(c: Config, s: Snapshot)
    ensures ImpairedRows(c, Sampled(c, s)) != [] <==> Shows(UnknownNetworkIncident, c, s)
  {
    hide Filter;
    NonEmpty(ImpairedRows(c, Sampled(c, s)));
  }

  /** Each rule applies exactly when its symptom is in the columns. */
  lemma ShowsIff(k: Kind, c: Config, s: Snapshot)
    ensures Applies(k, c, Sampled(c, s)) <==> Shows(k, c, s)
  {
    hide AllHealthy, AllFailed, Up, Lost, MeasurementsOf, Sampled, Sample, ServicesOf, Checked, WifiDisconnected,
         WifiDegraded, CrossAgentFailed, AllHealthyServices, Failing, HealthyHttp, Endpoints, LossyRows, SlowRows,
         ImpairedRows, CoversBoth, LossyAt, SlowAt, HasSample, CutOff, Weak, OneService;
    NetworkIff(c, s);
    match k
    case WifiOutage => DisconnectedIff(c, s);
    case WifiDegradation =>
      SamplesAre(c, s, WIFI, "router_ping");
      DegradedIff(c, s);
    case DnsFailure => ServicesIff(c, s);
    case ExternalServiceFailure =>
      ServicesIff(c, s);
      HttpIff(c, s);
    case HighPacketLoss => CoversIff(c, s);
    case HighLatency => CoversIff(c, s);
    case UnknownNetworkIncident => ImpairedIff(c, s);
    case _ =>
  }

  /** A finding of a kind is made if and only if the kind's symptom is in the columns and that
      of no kind before it is. */
  lemma ReportedIff(i: nat, c: Config, s: Snapshot)
    requires i < |PRIORITY|
    ensures (exists f :: f in Findings(c, s) && f.kind == PRIORITY[i])
       <==> Shows(PRIORITY[i], c, s) && forall j :: 0 <= j < i ==> !Shows(PRIORITY[j], c, s)
  {
    hide Applies, Shows, Report, Sampled, Silences, RecentAgents;
    var w := Sampled(c, s);
    forall j | 0 <= j < |PRIORITY| ensures Applies(PRIORITY[j], c, w) <==> Shows(PRIORITY[j], c, s) {
      ShowsIff(PRIORITY[j], c, s);
    }
    VerdictIs(i, c, w);
    NetworkKind(c, s, PRIORITY[i]);
  }

  lemma VerdictIs(i: nat, c: Config, w: Window)
    requires i < |PRIORITY|
    ensures Verdict(c, w) == Some(PRIORITY[i])
       <==> Applies(PRIORITY[i], c, w) && forall j :: 0 <= j < i ==> !Applies(PRIORITY[j], c, w)
  {
    hide Applies;
    FirstIs(0, i, c, w);
  }

  lemma {:induction false} FirstIs(from: nat, i: nat, c: Config, w: Window)
    requires from <= i < |PRIORITY|
    ensures FirstFrom(from, c, w) == Some(PRIORITY[i])
       <==> Applies(PRIORITY[i], c, w) && forall j :: from <= j < i ==> !Applies(PRIORITY[j], c, w)
    decreases i - from
  {
    hide Applies;
    assert forall a, b :: 0 <= a < b < |PRIORITY| ==> PRIORITY[a] != PRIORITY[b];
    if from < i {
      FirstIs(from + 1, i, c, w);
    } else if FirstFrom(from, c, w) == Some(PRIORITY[i]) {
      FirstApplies(from, c, w);
    }
  }

  lemma NetworkKind(c: Config, s: Snapshot, k: Kind)
    requires !k.AgentOffline?
    ensures (exists f :: f in Findings(c, s) && f.kind == k) <==> Verdict(c, Sampled(c, s)) == Some(k)
  {
    hide Verdict, Report, RecentAgents, Silent, Sorted, Sampled;
    var w := Sampled(c, s);
    assert forall f :: f in OfflineFindings(c, s) ==> f.kind.AgentOffline?;
    if Verdict(c, w).Some? {
      assert Verdict(c, w) == FirstFrom(0, c, w) by { VerdictStarts(c, w); }
      FirstApplies(0, c, w);
      ReportKind(Verdict(c, w).value, c, w);
      assert NetworkFindings(c, s)[0] in Findings(c, s);
    }
  }

  /** A calm snapshot: nothing fails, loses or slows as much as half of what a rule asks. */
  ghost predicate Calm(c: Config, s: Snapshot) {
    && (forall m :: m in s.measurements && m.samples >= c.minimumSamples ==>
          m.success > c.failedSuccess && m.loss < 0.75 * c.highLoss && !PeakAtLeast(m, 0.5 * c.highLatency))
    && (forall v :: v in s.services && v.samples >= c.minimumSamples ==> v.success > c.failedSuccess)
  }

  /** On a calm snapshot no network-level finding is made. */
  lemma CalmIsQuiet(c: Config, s: Snapshot)
    requires ValidConfig(c) && Calm(c, s)
    ensures forall f :: f in Findings(c, s) ==> f.kind.AgentOffline?
  {
    hide Shows, Findings, Applies, Calm;
    if f :| f in Findings(c, s) && !f.kind.AgentOffline? {
      var i := PriorityOf(f.kind);
      ReportedIff(i, c, s);
      NothingShows(f.kind, c, s);
    }
  }

  lemma PriorityOf(k: Kind) returns (i: nat)
    requires !k.AgentOffline?
    ensures i < |PRIORITY| && PRIORITY[i] == k
  {
    assert PRIORITY[0] == RouterUnavailable && PRIORITY[1] == WifiOutage && PRIORITY[2] == IspOutage;
    assert PRIORITY[3] == WifiDegradation && PRIORITY[4] == DnsFailure && PRIORITY[5] == ExternalServiceFailure;
    assert PRIORITY[6] == HighPacketLoss && PRIORITY[7] == HighLatency && PRIORITY[8] == UnknownNetworkIncident;
    i :| i < |PRIORITY| && PRIORITY[i] == k;
  }

  lemma NothingShows(k: Kind, c: Config, s: Snapshot)
    requires ValidConfig(c) && Calm(c, s)
    ensures !Shows(k, c, s)
  {
    hide Up, OneService;
    assert 0.75 * c.highLoss <= c.highLoss && 0.5 * c.highLatency <= c.highLatency;
  }

  // ------------------------------------------------------------------ what a finding reports

  /** The measurements that a symptom is reported on, among the sufficiently sampled. */
  predicate Evident(k: Kind, c: Config, m: Measurement) {
    match k
    case RouterUnavailable => m.kind == "router_ping" && (m.role == "wired_reference" || m.role == "wifi_observer")
    case WifiOutage => m.role == "wifi_observer" && (m.kind == "router_ping" || m.kind == "wifi_diagnostics")
    case IspOutage =>
      && (m.kind == "router_ping" || m.kind == "external_ping")
      && (m.role == "wired_reference" || m.role == "wifi_observer")
    case WifiDegradation =>
      && m.role == "wifi_observer"
      && (m.kind == "router_ping" || m.kind == "external_ping" || m.kind == "wifi_diagnostics")
    case HighPacketLoss => m.kind != "wifi_diagnostics" && m.loss >= c.highLoss
    case HighLatency => PeakAtLeast(m, c.highLatency)
    case UnknownNetworkIncident =>
      && m.kind != "wifi_diagnostics"
      && (m.success <= c.failedSuccess || m.loss >= c.highLoss || PeakAtLeast(m, c.highLatency))
    case _ => false
  }

  predicate EvidentService(k: Kind, c: Config, v: Service) {
    match k
    case DnsFailure => v.check == "dns"
    case ExternalServiceFailure => v.check == "http" && v.success <= c.failedSuccess
    case _ => false
  }

  /** The evidence is exactly the rows that show the symptom, each as often as the snapshot has
      it. */
  ghost predicate Evidences(c: Config, s: Snapshot, f: Finding) {
    && (forall e :: e in f.evidence ==> e.OfMeasurement? || e.OfService?)
    && (forall m :: multiset(f.evidence)[OfMeasurement(m)] ==
          if m.samples >= c.minimumSamples && Evident(f.kind, c, m) then multiset(s.measurements)[m] else 0)
    && (forall v :: multiset(f.evidence)[OfService(v)] ==
          if v.samples >= c.minimumSamples && EvidentService(f.kind, c, v) then multiset(s.services)[v] else 0)
  }

  function SeverityOf(k: Kind): Severity {
    if k in {RouterUnavailable, WifiOutage, IspOutage, DnsFailure} then Critical else Warning
  }

  function ConfidenceOf(k: Kind): real {
    match k
    case RouterUnavailable => 0.94
    case WifiOutage => 0.96
    case IspOutage => 0.92
    case WifiDegradation => 0.88
    case DnsFailure => 0.9
    case ExternalServiceFailure => 0.84
    case HighPacketLoss => 0.82
    case HighLatency => 0.8
    case UnknownNetworkIncident => 0.5
    case AgentOffline => 0.86
  }

  /** A network-level finding is made on exactly the rows that show its symptom, and severity
      and confidence are the kind's. */
  lemma EvidenceIs(c: Config, s: Snapshot, f: Finding)
    requires f in NetworkFindings(c, s)
    ensures f.severity == SeverityOf(f.kind) && f.confidence == ConfidenceOf(f.kind)
    ensures f.summary == OfRule(f.kind) && f.advice == Advice(f.kind)
    ensures Evidences(c, s, f)
  {
    hide Sampled, Verdict, Report, Evidences, SeverityOf, ConfidenceOf;
    var w := Sampled(c, s);
    var k := Verdict(c, w).value;
    assert Verdict(c, w) == FirstFrom(0, c, w) by { VerdictStarts(c, w); }
    FirstApplies(0, c, w);
    ReportIs(k, c, s);
  }

  lemma ReportIs(k: Kind, c: Config, s: Snapshot)
    requires !k.AgentOffline?
    ensures var f := Report(k, c, Sampled(c, s));
      && f.kind == k && f.severity == SeverityOf(k) && f.confidence == ConfidenceOf(k)
      && f.summary == OfRule(k) && f.advice == Advice(k) && Evidences(c, s, f)
  {
    hide Sampled, WiredRouter, WifiRouter, WiredExternal, WifiExternal, Diagnostics, ServicesOf, Failing, LossyRows,
         SlowRows, ImpairedRows, MeasurementFinding, ServiceFinding, Evidences;
    var w := Sampled(c, s);
    match k
    case DnsFailure => ServiceEvidence(k, Critical, 0.9, c, s, ServicesOf(w.ss, "dns"));
    case ExternalServiceFailure => ServiceEvidence(k, Warning, 0.84, c, s, Failing(c, ServicesOf(w.ss, "http")));
    case RouterUnavailable => MeasurementEvidence(k, Critical, 0.94, c, s, WiredRouter(w) + WifiRouter(w));
    case WifiOutage => MeasurementEvidence(k, Critical, 0.96, c, s, WifiRouter(w) + Diagnostics(w));
    case IspOutage =>
      var rows := WiredRouter(w) + WifiRouter(w) + (WiredExternal(w) + WifiExternal(w));
      MeasurementEvidence(k, Critical, 0.92, c, s, rows);
    case WifiDegradation =>
      MeasurementEvidence(k, Warning, 0.88, c, s, WifiRouter(w) + WifiExternal(w) + Diagnostics(w));
    case HighPacketLoss => MeasurementEvidence(k, Warning, 0.82, c, s, LossyRows(c, w));
    case HighLatency => MeasurementEvidence(k, Warning, 0.8, c, s, SlowRows(c, w));
    case _ => MeasurementEvidence(k, Warning, 0.5, c, s, ImpairedRows(c, w));
  }

  /** The rows of a measurement symptom, as the rule collects them. */
  function EvidenceRows(k: Kind, c: Config, w: Window): seq<Measurement> {
    match k
    case RouterUnavailable => WiredRouter(w) + WifiRouter(w)
    case WifiOutage => WifiRouter(w) + Diagnostics(w)
    case IspOutage => WiredRouter(w) + WifiRouter(w) + (WiredExternal(w) + WifiExternal(w))
    case WifiDegradation => WifiRouter(w) + WifiExternal(w) + Diagnostics(w)
    case HighPacketLoss => LossyRows(c, w)
    case HighLatency => SlowRows(c, w)
    case UnknownNetworkIncident => ImpairedRows(c, w)
    case _ => []
  }

  lemma SampleCount(c: Config, s: Snapshot, role: string, kind: string, m: Measurement)
    ensures multiset(MeasurementsOf(Sampled(c, s).ms, role, kind))[m]
         == if m.samples >= c.minimumSamples && m.role == role && m.kind == kind then multiset(s.measurements)[m] else 0
  {
    hide Filter;
    FilterCount((m: Measurement) => m.samples >= c.minimumSamples, s.measurements, m);
    FilterCount((m: Measurement) => m.role == role && m.kind == kind, Sampled(c, s).ms, m);
  }

  lemma RowCount(k: Kind, c: Config, s: Snapshot, m: Measurement)
    requires k !in {DnsFailure, ExternalServiceFailure, AgentOffline}
    ensures multiset(EvidenceRows(k, c, Sampled(c, s)))[m]
         == if m.samples >= c.minimumSamples && Evident(k, c, m) then multiset(s.measurements)[m] else 0
  {
    hide Filter, MeasurementsOf;
    SampleCount(c, s, WIRED, "router_ping", m);
    SampleCount(c, s, WIFI, "router_ping", m);
    SampleCount(c, s, WIRED, "external_ping", m);
    SampleCount(c, s, WIFI, "external_ping", m);
    SampleCount(c, s, WIFI, "wifi_diagnostics", m);
    FilterCount((m: Measurement) => m.samples >= c.minimumSamples, s.measurements, m);
    FilterCount((m: Measurement) => Lossy(c, m), Sampled(c, s).ms, m);
    FilterCount((m: Measurement) => Slow(c, m), Sampled(c, s).ms, m);
    FilterCount((m: Measurement) => Impaired(c, m), Sampled(c, s).ms, m);
  }

  lemma ServiceCount(k: Kind, c: Config, s: Snapshot, rows: seq<Service>, v: Service)
    requires k.DnsFailure? ==> rows == ServicesOf(Sampled(c, s).ss, "dns")
    requires k.ExternalServiceFailure? ==> rows == Failing(c, ServicesOf(Sampled(c, s).ss, "http"))
    requires k.DnsFailure? || k.ExternalServiceFailure?
    ensures multiset(rows)[v]
         == if v.samples >= c.minimumSamples && EvidentService(k, c, v) then multiset(s.services)[v] else 0
  {
    hide Filter;
    var check := if k.DnsFailure? then "dns" else "http";
    FilterCount((v: Service) => v.samples >= c.minimumSamples, s.services, v);
    FilterCount((s: Service) => s.check == check, Sampled(c, s).ss, v);
    FilterCount((s: Service) => s.success <= c.failedSuccess, ServicesOf(Sampled(c, s).ss, "http"), v);
  }

  lemma {:induction false} MapCount<T(!new), U(!new)>(f: T -> U, rows: seq<T>, x: T)
    requires forall a, b :: f(a) == f(b) ==> a == b
    ensures multiset(Map(f, rows))[f(x)] == multiset(rows)[x]
  {
    if rows != [] {
      var init, last := rows[..|rows| - 1], rows[|rows| - 1];
      assert rows == init + [last] && Map(f, rows) == Map(f, init) + [f(last)];
      MapCount(f, init, x);
    }
  }

  lemma NoneMapped<T(!new), U(!new)>(f: T -> U, rows: seq<T>, y: U)
    requires forall a :: f(a) != y
    ensures multiset(Map(f, rows))[y] == 0
  {
    assert y !in Map(f, rows);
  }

  lemma MeasurementEvidence(k: Kind, severity: Severity, confidence: real, c: Config, s: Snapshot,
                            rows: seq<Measurement>)
    requires k !in {DnsFailure, ExternalServiceFailure, AgentOffline} && rows == EvidenceRows(k, c, Sampled(c, s))
    ensures var f := MeasurementFinding(k, severity, confidence, rows);
      && f.kind == k && f.severity == severity && f.confidence == confidence
      && f.summary == OfRule(k) && f.advice == Advice(k) && Evidences(c, s, f)
  {
    hide Sampled, EvidenceRows, Evident, Sorted, MaxOf, KindText;
    var of := (m: Measurement) => OfMeasurement(m);
    forall m ensures multiset(Map(of, rows))[OfMeasurement(m)] == multiset(rows)[m]
      && multiset(rows)[m]
         == if m.samples >= c.minimumSamples && Evident(k, c, m) then multiset(s.measurements)[m] else 0
    {
      MapCount(of, rows, m);
      RowCount(k, c, s, m);
    }
    forall v: Service ensures multiset(Map(of, rows))[OfService(v)] == 0 { NoneMapped(of, rows, OfService(v)); }
  }

  lemma ServiceEvidence(k: Kind, severity: Severity, confidence: real, c: Config, s: Snapshot, rows: seq<Service>)
    requires k.DnsFailure? ==> rows == ServicesOf(Sampled(c, s).ss, "dns")
    requires k.ExternalServiceFailure? ==> rows == Failing(c, ServicesOf(Sampled(c, s).ss, "http"))
    requires k.DnsFailure? || k.ExternalServiceFailure?
    ensures var f := ServiceFinding(k, severity, confidence, rows);
      && f.kind == k && f.severity == severity && f.confidence == confidence
      && f.summary == OfRule(k) && f.advice == Advice(k) && Evidences(c, s, f)
  {
    hide Sampled, ServicesOf, Failing, EvidentService, Sorted, Join, KindText;
    var of := (v: Service) => OfService(v);
    forall v ensures multiset(Map(of, rows))[OfService(v)] == multiset(rows)[v]
      && multiset(rows)[v]
         == if v.samples >= c.minimumSamples && EvidentService(k, c, v) then multiset(s.services)[v] else 0
    {
      MapCount(of, rows, v);
      ServiceCount(k, c, s, rows, v);
    }
    forall m: Measurement ensures multiset(Map(of, rows))[OfMeasurement(m)] == 0 {
      NoneMapped(of, rows, OfMeasurement(m));
    }
  }

  // ------------------------------------------------------------------ what its columns say

  function AgentIn(e: Evidence): Option<string> {
    match e
    case OfMeasurement(m) => Some(m.agent)
    case OfService(v) => Some(v.agent)
    case OfSilence(agent, _, _, _) => Some(agent)
  }

  function EndpointIn(e: Evidence): Option<string> {
    match e
    case OfMeasurement(m) => Some(m.target)
    case OfService(v) => Some(v.endpoint)
    case OfSilence(_, _, _, _) => None
  }

  function PeakIn(e: Evidence): Option<real> { if e.OfMeasurement? then e.measurement.peakLatency else None }
  function LossIn(e: Evidence): Option<real> { if e.OfMeasurement? then Some(e.measurement.loss) else None }

  /** Exactly the names in the evidence, in text order. */
  ghost predicate Lists(names: seq<string>, evidence: seq<Evidence>, name: Evidence -> Option<string>) {
    && (forall n :: n in names <==> exists e :: e in evidence && name(e) == Some(n))
    && (forall i, j :: 0 <= i < j < |names| ==> Before(names[i], names[j]))
  }

  /** The finding's columns summarise its evidence: whom and what it names, and the largest
      latency and loss. */
  ghost predicate Summarises(f: Finding) {
    && Lists(f.agents, f.evidence, AgentIn) && Lists(f.endpoints, f.evidence, EndpointIn)
    && IsMaximum(f.peakLatency, Map(PeakIn, f.evidence)) && IsMaximum(f.maximumLoss, Map(LossIn, f.evidence))
  }

  lemma FindingsSummarise(c: Config, s: Snapshot)
    ensures forall f :: f in Findings(c, s) ==> Summarises(f)
  {
    hide Report, Verdict, RecentAgents, Filter, Summarises, SilenceFinding;
    var w := Sampled(c, s);
    if Verdict(c, w).Some? { ReportSummarises(Verdict(c, w).value, c, w); }
    var recent := RecentAgents(c, s);
    forall f | f in OfflineFindings(c, s)
      ensures Summarises(f)
    {
      var silent := Silent(recent, s.heartbeats);
      var i :| 0 <= i < |silent| && f == SilenceFinding(s.at, recent, silent[i]);
      SilenceSummarises(s.at, recent, silent[i]);
    }
  }

  lemma SilenceSummarises(at: int, recent: set<string>, h: Heartbeat)
    ensures Summarises(SilenceFinding(at, recent, h))
  {
    hide Sorted, Before;
    var f := SilenceFinding(at, recent, h);
    assert AgentIn(f.evidence[0]) == Some(h.agent) && f.evidence[0] in f.evidence;
  }

  lemma ReportSummarises(k: Kind, c: Config, w: Window)
    ensures Summarises(Report(k, c, w))
  {
    hide Summarises, MeasurementFinding, ServiceFinding, WiredRouter, WifiRouter, WiredExternal, WifiExternal,
         Diagnostics, ServicesOf, Failing, LossyRows, SlowRows, ImpairedRows;
    match k
    case RouterUnavailable => MeasurementSummarises(k, Critical, 0.94, WiredRouter(w) + WifiRouter(w));
    case WifiOutage => MeasurementSummarises(k, Critical, 0.96, WifiRouter(w) + Diagnostics(w));
    case IspOutage =>
      MeasurementSummarises(k, Critical, 0.92, WiredRouter(w) + WifiRouter(w) + (WiredExternal(w) + WifiExternal(w)));
    case WifiDegradation =>
      MeasurementSummarises(k, Warning, 0.88, WifiRouter(w) + WifiExternal(w) + Diagnostics(w));
    case DnsFailure => ServiceSummarises(k, Critical, 0.9, ServicesOf(w.ss, "dns"));
    case ExternalServiceFailure => ServiceSummarises(k, Warning, 0.84, Failing(c, ServicesOf(w.ss, "http")));
    case HighPacketLoss => MeasurementSummarises(k, Warning, 0.82, LossyRows(c, w));
    case HighLatency => MeasurementSummarises(k, Warning, 0.8, SlowRows(c, w));
    case _ => MeasurementSummarises(k, Warning, 0.5, ImpairedRows(c, w));
  }

  lemma MeasurementSummarises(k: Kind, severity: Severity, confidence: real, rows: seq<Measurement>)
    ensures Summarises(MeasurementFinding(k, severity, confidence, rows))
  {
    hide Sorted, MaxOf, KindText, Lists, IsMaximum;
    var f := MeasurementFinding(k, severity, confidence, rows);
    var peaks, losses := Map((m: Measurement) => m.peakLatency, rows), Map((m: Measurement) => Some(m.loss), rows);
    MaxOfIs(peaks);
    MaxOfIs(losses);
    assert Map(PeakIn, f.evidence) == peaks && Map(LossIn, f.evidence) == losses;
    var of := (m: Measurement) => OfMeasurement(m);
    NamesListed(of, rows, set m | m in rows :: m.agent, AgentIn);
    NamesListed(of, rows, set m | m in rows :: m.target, EndpointIn);
    assert f.evidence == Map(of, rows);
  }

  lemma ServiceSummarises(k: Kind, severity: Severity, confidence: real, rows: seq<Service>)
    ensures Summarises(ServiceFinding(k, severity, confidence, rows))
  {
    hide Sorted, Join, KindText, Lists;
    var f := ServiceFinding(k, severity, confidence, rows);
    var of := (v: Service) => OfService(v);
    NamesListed(of, rows, set v | v in rows :: v.agent, AgentIn);
    NamesListed(of, rows, Endpoints(rows), EndpointIn);
    assert f.evidence == Map(of, rows);
  }

  lemma NamesListed<T(!new)>(of: T -> Evidence, rows: seq<T>, names: set<string>, name: Evidence -> Option<string>)
    requires forall n :: n in names <==> exists x :: x in rows && name(of(x)) == Some(n)
    ensures Lists(Sorted(names), Map(of, rows), name)
  {
    hide Sorted, Before;
    SortedLists(names);
    forall i, j | 0 <= i < j < |Sorted(names)| ensures Before(Sorted(names)[i], Sorted(names)[j]) {
      assert CodePoints()(Sorted(names)[i], Sorted(names)[j]);
    }
    forall x | x in rows ensures of(x) in Map(of, rows) {
      var i :| 0 <= i < |rows| && rows[i] == x;
      assert Map(of, rows)[i] == of(x);
    }
  }

  /** Keys: the kind, and for services the endpoints, for silence the agent. */
  lemma KeyIs(k: Kind, c: Config, w: Window)
    requires !k.AgentOffline?
    ensures var f := Report(k, c, w);
      f.key == KindText(k) + if k.DnsFailure? || k.ExternalServiceFailure? then ":" + Join(f.endpoints, ",") else ""
  {
    hide Sorted, Join, KindText, MaxOf, Filter;
  }

  lemma KindTextsDiffer(j: Kind, k: Kind)
    requires j != k
    ensures KindText(j) != KindText(k)
  {
  }

  // ------------------------------------------------------------------ silent agents

  /** The agent's heartbeat is at most so many seconds old. */
  predicate HeardOf(c: Config, s: Snapshot, h: Heartbeat) {
    h in s.heartbeats && h.last.Some? && s.at <= h.last.value + c.heartbeatStale * 1_000_000
  }

  /** An agent is reported silent if and only if it is registered, was not heard of in time,
      and some other agent was. */
  lemma SilentIff(c: Config, s: Snapshot, agent: string)
    ensures (exists f :: f in Findings(c, s) && f.kind.AgentOffline? && f.agents == [agent])
       <==> && (exists h :: h in s.heartbeats && h.agent == agent)
            && (forall h :: HeardOf(c, s, h) ==> h.agent != agent)
            && (exists h :: HeardOf(c, s, h))
  {
    hide Findings, RecentAgents;
    SilenceReported(c, s, agent);
    RecentIff(c, s);
    var recent := RecentAgents(c, s);
    if recent != {} {
      var a :| a in recent;
    }
    if h :| HeardOf(c, s, h) { assert h.agent in recent; }
  }

  lemma RecentIff(c: Config, s: Snapshot)
    ensures forall a :: a in RecentAgents(c, s) <==> exists h :: HeardOf(c, s, h) && h.agent == a
  {
    assert forall h :: HeardOf(c, s, h) <==> h in s.heartbeats && Recent(c, s.at, h);
  }

  lemma SilenceReported(c: Config, s: Snapshot, agent: string)
    ensures (exists f :: f in Findings(c, s) && f.kind.AgentOffline? && f.agents == [agent])
       <==> && (exists h :: h in s.heartbeats && h.agent == agent)
            && agent !in RecentAgents(c, s) && RecentAgents(c, s) != {}
  {
    hide NetworkFindings, RecentAgents, Filter, Sorted;
    NoNetworkSilence(c, s);
    var recent := RecentAgents(c, s);
    var silent := Silent(recent, s.heartbeats);
    if h :| h in s.heartbeats && h.agent == agent && agent !in recent && recent != {} {
      assert h in silent;
      var i :| 0 <= i < |silent| && silent[i] == h;
      assert OfflineFindings(c, s)[i] in Findings(c, s);
    }
    if f :| f in Findings(c, s) && f.kind.AgentOffline? && f.agents == [agent] {
      var i :| 0 <= i < |silent| && f == SilenceFinding(s.at, recent, silent[i]);
      assert silent[i] in silent && f.agents[0] == silent[i].agent;
    }
  }

  /** What a silence finding says: the agent's last heartbeat and its age, and, in text order,
      the agents that were heard of. */
  lemma SilenceIs(c: Config, s: Snapshot, f: Finding)
    requires f in Findings(c, s) && f.kind.AgentOffline?
    ensures f.severity == Warning && f.confidence == ConfidenceOf(AgentOffline) && |f.agents| == |f.evidence| == 1
    ensures f.endpoints == [] && f.peakLatency.None? && f.maximumLoss.None?
    ensures f.key == "agent_offline:" + f.agents[0] && f.summary == OfAgent(f.agents[0])
    ensures f.evidence[0].OfSilence? && f.evidence[0].agent == f.agents[0]
    ensures exists h :: h in s.heartbeats && h.agent == f.agents[0] && h.last == f.evidence[0].last
    ensures f.evidence[0].age.Some? <==> f.evidence[0].last.Some?
    ensures f.evidence[0].age.Some? ==> f.evidence[0].last.value + f.evidence[0].age.value == s.at
    ensures forall a :: a in f.evidence[0].others <==> exists h :: HeardOf(c, s, h) && h.agent == a
  {
    hide NetworkFindings, RecentAgents, Filter, Sorted, HeardOf;
    NoNetworkSilence(c, s);
    var recent := RecentAgents(c, s);
    var silent := Silent(recent, s.heartbeats);
    var i :| 0 <= i < |silent| && f == SilenceFinding(s.at, recent, silent[i]);
    assert silent[i] in silent;
    RecentIff(c, s);
    SortedLists(recent);
  }

  lemma NoNetworkSilence(c: Config, s: Snapshot)
    ensures forall f :: f in NetworkFindings(c, s) ==> !f.kind.AgentOffline?
  {
    hide Report, Verdict, Sampled;
    var w := Sampled(c, s);
    if Verdict(c, w).Some? {
      assert Verdict(c, w) == FirstFrom(0, c, w) by { VerdictStarts(c, w); }
      FirstApplies(0, c, w);
      ReportKind(Verdict(c, w).value, c, w);
    }
  }
}
