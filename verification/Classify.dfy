/** The cross-agent rules: which symptom the observation window shows, and which agents
    stopped reporting. */
module Classify {
  import opened Prelude
  import opened Order
  import opened Incidents
  import opened Text

  const WIRED := "wired_reference"
  const WIFI := "wifi_observer"
  const SECOND := 1_000_000  // microseconds

  // ------------------------------------------------------------------ row predicates

  function MeasurementsOf(ms: seq<Measurement>, role: string, kind: string): seq<Measurement> {
    Filter((m: Measurement) => m.role == role && m.kind == kind, ms)
  }

  function ServicesOf(ss: seq<Service>, check: string): seq<Service> {
    Filter((s: Service) => s.check == check, ss)
  }

  predicate AllHealthy(c: Config, rows: seq<Measurement>) {
    rows != [] && forall m :: m in rows ==> m.success >= c.healthySuccess
  }

  predicate AllFailed(c: Config, rows: seq<Measurement>) {
    rows != [] && forall m :: m in rows ==> m.success <= c.failedSuccess
  }

  predicate AllHealthyServices(c: Config, rows: seq<Service>) {
    rows != [] && forall s :: s in rows ==> s.success >= c.healthySuccess
  }

  predicate CoversBoth(rows: seq<Measurement>) {
    (exists m :: m in rows && m.role == WIRED) && (exists m :: m in rows && m.role == WIFI)
  }

  predicate CoversBothServices(rows: seq<Service>) {
    (exists s :: s in rows && s.role == WIRED) && (exists s :: s in rows && s.role == WIFI)
  }

  function Failing(c: Config, rows: seq<Service>): seq<Service> {
    Filter((s: Service) => s.success <= c.failedSuccess, rows)
  }

  predicate CrossAgentFailed(c: Config, rows: seq<Service>) { CoversBothServices(Failing(c, rows)) }

  predicate WifiDegraded(c: Config, network: seq<Measurement>, diagnostics: seq<Measurement>) {
    && (exists m :: m in network && ((m.peakLatency.Some? && m.peakLatency.value >= c.highLatency * 0.5)
                                     || m.loss >= c.highLoss * 0.75))
    && (exists m :: m in diagnostics && m.signal.Some? && m.signal.value <= c.weakSignal)
  }

  predicate WifiDisconnected(c: Config, rows: seq<Measurement>) {
    rows != [] && forall m :: m in rows ==> m.connected.Some? && m.connected.value <= c.failedSuccess
  }

  predicate Lossy(c: Config, m: Measurement) { m.kind != "wifi_diagnostics" && m.loss >= c.highLoss }
  predicate Slow(c: Config, m: Measurement) { m.peakLatency.Some? && m.peakLatency.value >= c.highLatency }
  predicate Impaired(c: Config, m: Measurement) {
    m.kind != "wifi_diagnostics" && (m.success <= c.failedSuccess || m.loss >= c.highLoss || Slow(c, m))
  }

  // ------------------------------------------------------------------ the rule table

  /** Sufficiently sampled rows. */
  datatype Window = Window(ms: seq<Measurement>, ss: seq<Service>)

  function Sampled(c: Config, s: Snapshot): Window {
    Window(Filter((m: Measurement) => m.samples >= c.minimumSamples, s.measurements),
           Filter((v: Service) => v.samples >= c.minimumSamples, s.services))
  }

  function WiredRouter(w: Window): seq<Measurement> { MeasurementsOf(w.ms, WIRED, "router_ping") }
  function WifiRouter(w: Window): seq<Measurement> { MeasurementsOf(w.ms, WIFI, "router_ping") }
  function WiredExternal(w: Window): seq<Measurement> { MeasurementsOf(w.ms, WIRED, "external_ping") }
  function WifiExternal(w: Window): seq<Measurement> { MeasurementsOf(w.ms, WIFI, "external_ping") }
  function Diagnostics(w: Window): seq<Measurement> { MeasurementsOf(w.ms, WIFI, "wifi_diagnostics") }

  predicate WiredHealthy(c: Config, w: Window) { AllHealthy(c, WiredRouter(w)) && AllHealthy(c, WiredExternal(w)) }
  predicate RoutersHealthy(c: Config, w: Window) { AllHealthy(c, WiredRouter(w)) && AllHealthy(c, WifiRouter(w)) }
  predicate NetworkHealthy(c: Config, w: Window) {
    RoutersHealthy(c, w) && AllHealthy(c, WiredExternal(w)) && AllHealthy(c, WifiExternal(w))
  }

  function HealthyHttp(c: Config, w: Window): seq<Service> {
    Filter((s: Service) => s.success >= c.healthySuccess, ServicesOf(w.ss, "http"))
  }

  function Endpoints(rows: seq<Service>): set<string> { set s | s in rows :: s.endpoint }

  /** When each symptom is present, taken by itself. */
  predicate Applies(k: Kind, c: Config, w: Window) {
    match k
    case RouterUnavailable => AllFailed(c, WiredRouter(w)) && AllFailed(c, WifiRouter(w))
    case WifiOutage => WiredHealthy(c, w) && AllFailed(c, WifiRouter(w)) && WifiDisconnected(c, Diagnostics(w))
    case IspOutage => RoutersHealthy(c, w) && AllFailed(c, WiredExternal(w)) && AllFailed(c, WifiExternal(w))
    case WifiDegradation =>
      WiredHealthy(c, w) && WifiRouter(w) != [] && WifiDegraded(c, WifiRouter(w) + WifiExternal(w), Diagnostics(w))
    case DnsFailure => NetworkHealthy(c, w) && CrossAgentFailed(c, ServicesOf(w.ss, "dns"))
    case ExternalServiceFailure =>
      && NetworkHealthy(c, w) && AllHealthyServices(c, ServicesOf(w.ss, "dns"))
      && Failing(c, ServicesOf(w.ss, "http")) != []
      && (HealthyHttp(c, w) != [] || |Endpoints(ServicesOf(w.ss, "http"))| == 1)
    case HighPacketLoss => CoversBoth(LossyRows(c, w))
    case HighLatency => CoversBoth(SlowRows(c, w))
    case UnknownNetworkIncident => ImpairedRows(c, w) != []
    case AgentOffline => false
  }

  function LossyRows(c: Config, w: Window): seq<Measurement> { Filter((m: Measurement) => Lossy(c, m), w.ms) }
  function SlowRows(c: Config, w: Window): seq<Measurement> { Filter((m: Measurement) => Slow(c, m), w.ms) }
  function ImpairedRows(c: Config, w: Window): seq<Measurement> { Filter((m: Measurement) => Impaired(c, m), w.ms) }

  /** From the most to the least specific. */
  const PRIORITY: seq<Kind> :=
    [RouterUnavailable, WifiOutage, IspOutage, WifiDegradation, DnsFailure, ExternalServiceFailure,
     HighPacketLoss, HighLatency, UnknownNetworkIncident]

  function FirstFrom(i: nat, c: Config, w: Window): Option<Kind>
    decreases |PRIORITY| - i
  {
    if i >= |PRIORITY| then None else if Applies(PRIORITY[i], c, w) then Some(PRIORITY[i]) else FirstFrom(i + 1, c, w)
  }

  /** The window's symptom: the first that applies. */
  function Verdict(c: Config, w: Window): Option<Kind> { FirstFrom(0, c, w) }

  // ------------------------------------------------------------------ findings

  function KindText(k: Kind): string {
    match k
    case RouterUnavailable => "router_unavailable"
    case WifiOutage => "wifi_outage"
    case IspOutage => "isp_outage"
    case WifiDegradation => "wifi_degradation"
    case DnsFailure => "dns_failure"
    case ExternalServiceFailure => "external_service_failure"
    case HighPacketLoss => "high_packet_loss"
    case HighLatency => "high_latency"
    case UnknownNetworkIncident => "unknown_network_incident"
    case AgentOffline => "agent_offline"
  }

  function MeasurementFinding(k: Kind, severity: Severity, confidence: real, rows: seq<Measurement>): Finding {
    Finding(KindText(k), k, severity, confidence,
            Sorted(set m | m in rows :: m.agent), Sorted(set m | m in rows :: m.target),
            Map((m: Measurement) => OfMeasurement(m), rows),
            MaxOf(Map((m: Measurement) => m.peakLatency, rows)),
            MaxOf(Map((m: Measurement) => Some(m.loss), rows)), OfRule(k), Advice(k))
  }

  function ServiceFinding(k: Kind, severity: Severity, confidence: real, rows: seq<Service>): Finding {
    Finding(KindText(k) + ":" + Join(Sorted(Endpoints(rows)), ","), k, severity, confidence,
            Sorted(set s | s in rows :: s.agent), Sorted(Endpoints(rows)),
            Map((s: Service) => OfService(s), rows), None, None, OfRule(k), Advice(k))
  }

  /** The finding that reports a symptom, with the rows that show it. */
  function Report(k: Kind, c: Config, w: Window): Finding {
    match k
    case RouterUnavailable => MeasurementFinding(k, Critical, 0.94, WiredRouter(w) + WifiRouter(w))
    case WifiOutage => MeasurementFinding(k, Critical, 0.96, WifiRouter(w) + Diagnostics(w))
    case IspOutage =>
      MeasurementFinding(k, Critical, 0.92, WiredRouter(w) + WifiRouter(w) + (WiredExternal(w) + WifiExternal(w)))
    case WifiDegradation => MeasurementFinding(k, Warning, 0.88, WifiRouter(w) + WifiExternal(w) + Diagnostics(w))
    case DnsFailure => ServiceFinding(k, Critical, 0.9, ServicesOf(w.ss, "dns"))
    case ExternalServiceFailure => ServiceFinding(k, Warning, 0.84, Failing(c, ServicesOf(w.ss, "http")))
    case HighPacketLoss => MeasurementFinding(k, Warning, 0.82, LossyRows(c, w))
    case HighLatency => MeasurementFinding(k, Warning, 0.8, SlowRows(c, w))
    case _ => MeasurementFinding(k, Warning, 0.5, ImpairedRows(c, w))
  }

  function NetworkFindings(c: Config, s: Snapshot): seq<Finding> {
    var w := Sampled(c, s);
    match Verdict(c, w) case None => [] case Some(k) => [Report(k, c, w)]
  }

  predicate Recent(c: Config, at: int, h: Heartbeat) { h.last.Some? && at - h.last.value <= c.heartbeatStale * SECOND }

  function RecentAgents(c: Config, s: Snapshot): set<string> {
    set h | h in s.heartbeats && Recent(c, s.at, h) :: h.agent
  }

  function SilenceFinding(at: int, recent: set<string>, h: Heartbeat): Finding {
    Finding("agent_offline:" + h.agent, AgentOffline, Warning, 0.86, [h.agent], [],
            [OfSilence(h.agent, h.last, if h.last.None? then None else Some(at - h.last.value), Sorted(recent))],
            None, None, OfAgent(h.agent), Advice(AgentOffline))
  }

  function OfflineFindings(c: Config, s: Snapshot): seq<Finding> {
    var recent := RecentAgents(c, s);
    if recent == {} then []
    else Silences(s.at, recent, s.heartbeats)
  }

  function Silent(recent: set<string>, hs: seq<Heartbeat>): seq<Heartbeat> {
    Filter((h: Heartbeat) => h.agent !in recent, hs)
  }

  function Silences(at: int, recent: set<string>, hs: seq<Heartbeat>): seq<Finding> {
    Map((h: Heartbeat) => SilenceFinding(at, recent, h), Silent(recent, hs))
  }

  function Findings(c: Config, s: Snapshot): seq<Finding> { NetworkFindings(c, s) + OfflineFindings(c, s) }

  // ------------------------------------------------------------------ the engine

  lemma VerdictChain(c: Config, w: Window)
    ensures Verdict(c, w) ==
      if Applies(RouterUnavailable, c, w) then Some(RouterUnavailable)
      else if Applies(WifiOutage, c, w) then Some(WifiOutage)
      else if Applies(IspOutage, c, w) then Some(IspOutage)
      else if Applies(WifiDegradation, c, w) then Some(WifiDegradation)
      else if Applies(DnsFailure, c, w) then Some(DnsFailure)
      else if Applies(ExternalServiceFailure, c, w) then Some(ExternalServiceFailure)
      else if Applies(HighPacketLoss, c, w) then Some(HighPacketLoss)
      else if Applies(HighLatency, c, w) then Some(HighLatency)
      else if Applies(UnknownNetworkIncident, c, w) then Some(UnknownNetworkIncident)
      else None
  {
    hide Applies;
    assert FirstFrom(7, c, w) == if Applies(HighLatency, c, w) then Some(HighLatency) else FirstFrom(8, c, w);
    assert FirstFrom(5, c, w)
      == if Applies(ExternalServiceFailure, c, w) then Some(ExternalServiceFailure) else FirstFrom(6, c, w);
    assert FirstFrom(3, c, w) == if Applies(WifiDegradation, c, w) then Some(WifiDegradation) else FirstFrom(4, c, w);
    assert FirstFrom(1, c, w) == if Applies(WifiOutage, c, w) then Some(WifiOutage) else FirstFrom(2, c, w);
  }

  lemma SilencesSnoc(at: int, recent: set<string>, hs: seq<Heartbeat>)
    ensures hs == [] ==> Silences(at, recent, hs) == []
    ensures hs != [] ==>
      Silences(at, recent, hs)
      == Silences(at, recent, hs[..|hs| - 1])
         + if hs[|hs| - 1].agent in recent then [] else [SilenceFinding(at, recent, hs[|hs| - 1])]
  {
    hide SilenceFinding, Filter;
    if hs != [] {
      var init, h := hs[..|hs| - 1], hs[|hs| - 1];
      assert hs == init + [h];
      FilterConcat((h: Heartbeat) => h.agent !in recent, init, [h]);
      OneSilent(recent, h);
    }
  }

  lemma OneSilent(recent: set<string>, h: Heartbeat)
    ensures Silent(recent, [h]) == if h.agent in recent then [] else [h]
  {
  }

  class ClassificationEngine {
    const config: Config

    constructor (config: Config)
      ensures this.config == config
    {
      this.config := config;
    }

    /** The branching rules agree with the table: at most one network-level finding, for
        the first symptom that applies, then one finding per silent agent. */
    method Classify(snapshot: Snapshot) returns (findings: seq<Finding>)
      ensures findings == Findings(config, snapshot)
    {
      hide AllHealthy, AllFailed, AllHealthyServices, CoversBoth, CoversBothServices, WifiDegraded, WifiDisconnected,
           MeasurementFinding, ServiceFinding, OfflineFindings, Verdict, Endpoints, Sampled, WiredRouter, WifiRouter,
           WiredExternal, WifiExternal, Diagnostics, LossyRows, SlowRows, ImpairedRows, ServicesOf, Failing,
           HealthyHttp, CrossAgentFailed;
      var c, w := config, Sampled(config, snapshot);
      VerdictChain(c, w);
      findings := [];
      var wiredRouter, wifiRouter := WiredRouter(w), WifiRouter(w);
      var wiredExternal, wifiExternal := WiredExternal(w), WifiExternal(w);
      var diagnostics := Diagnostics(w);
      var allRouter, allExternal := wiredRouter + wifiRouter, wiredExternal + wifiExternal;
      var wiredRouterHealthy, wifiRouterHealthy := AllHealthy(c, wiredRouter), AllHealthy(c, wifiRouter);
      var routersHealthy := wiredRouterHealthy && wifiRouterHealthy;
      var wiredExternalHealthy, wifiExternalHealthy := AllHealthy(c, wiredExternal), AllHealthy(c, wifiExternal);
      var externalHealthy := wiredExternalHealthy && wifiExternalHealthy;
      if AllFailed(c, wiredRouter) && AllFailed(c, wifiRouter) {
        findings := findings + [MeasurementFinding(RouterUnavailable, Critical, 0.94, allRouter)];
      } else if wiredRouterHealthy && wiredExternalHealthy && AllFailed(c, wifiRouter)
                && WifiDisconnected(c, diagnostics) {
        findings := findings + [MeasurementFinding(WifiOutage, Critical, 0.96, wifiRouter + diagnostics)];
      } else if routersHealthy && AllFailed(c, wiredExternal) && AllFailed(c, wifiExternal) {
        findings := findings + [MeasurementFinding(IspOutage, Critical, 0.92, allRouter + allExternal)];
      } else if wiredRouterHealthy && wiredExternalHealthy && wifiRouter != []
        && WifiDegraded(c, wifiRouter + wifiExternal, diagnostics) {
        var rows := wifiRouter + wifiExternal + diagnostics;
        findings := findings + [MeasurementFinding(WifiDegradation, Warning, 0.88, rows)];
      } else if routersHealthy && externalHealthy {
        var dns, http := ServicesOf(w.ss, "dns"), ServicesOf(w.ss, "http");
        if CrossAgentFailed(c, dns) {
          findings := findings + [ServiceFinding(DnsFailure, Critical, 0.9, dns)];
        } else if AllHealthyServices(c, dns) {
          var failing, healthy := Failing(c, http), HealthyHttp(c, w);
          if failing != [] && (healthy != [] || |Endpoints(http)| == 1) {
            findings := findings + [ServiceFinding(ExternalServiceFailure, Warning, 0.84, failing)];
          }
        }
      }
      if findings == [] {
        var highLoss, highLatency := LossyRows(c, w), SlowRows(c, w);
        if CoversBoth(highLoss) {
          findings := findings + [MeasurementFinding(HighPacketLoss, Warning, 0.82, highLoss)];
        } else if CoversBoth(highLatency) {
          findings := findings + [MeasurementFinding(HighLatency, Warning, 0.8, highLatency)];
        } else {
          var unexplained := ImpairedRows(c, w);
          if unexplained != [] {
            findings := findings + [MeasurementFinding(UnknownNetworkIncident, Warning, 0.5, unexplained)];
          }
        }
      }
      var offline := Offline(snapshot);
      findings := findings + offline;
    }

    /** Agents without a recent heartbeat, as long as some agent has one. */
    method Offline(snapshot: Snapshot) returns (findings: seq<Finding>)
      ensures findings == OfflineFindings(config, snapshot)
    {
      hide Silences, Sorted, RecentAgents;
      var c, at, hs := config, snapshot.at, snapshot.heartbeats;
      var recent := RecentAgents(c, snapshot);
      if recent == {} {
        return [];
      }
      findings := [];
      SilencesSnoc(at, recent, hs[..0]);
      for i := 0 to |hs|
        invariant findings == Silences(at, recent, hs[..i])
      {
        assert hs[..i + 1] == hs[..i] + [hs[i]];
        SilencesSnoc(at, recent, hs[..i + 1]);
        assert hs[i].agent !in recent ==> recent - {hs[i].agent} == recent;
        if hs[i].agent in recent || recent - {hs[i].agent} == {} {
          continue;
        }
        var age := if hs[i].last.None? then None else Some(at - hs[i].last.value);
        var evidence := OfSilence(hs[i].agent, hs[i].last, age, Sorted(recent));
        findings := findings + [Finding("agent_offline:" + hs[i].agent, AgentOffline, Warning, 0.86, [hs[i].agent], [],
                                        [evidence], None, None, OfAgent(hs[i].agent), Advice(AgentOffline))];
      }
      assert hs[..|hs|] == hs;
    }
  }

  // ------------------------------------------------------------------ exclusive, complete, distinct

  lemma {:induction false} FirstApplies(i: nat, c: Config, w: Window)
    ensures FirstFrom(i, c, w).Some? ==>
      Applies(FirstFrom(i, c, w).value, c, w) && !FirstFrom(i, c, w).value.AgentOffline?
    ensures FirstFrom(i, c, w).None? ==> forall j :: i <= j < |PRIORITY| ==> !Applies(PRIORITY[j], c, w)
    decreases |PRIORITY| - i
  {
    hide Applies;
    if i < |PRIORITY| { FirstApplies(i + 1, c, w); }
  }

  /** Never two network-level findings in one cycle. */
  lemma AtMostOneNetworkFinding(c: Config, s: Snapshot)
    ensures forall i, j :: 0 <= i < j < |Findings(c, s)| ==>
      Findings(c, s)[i].kind.AgentOffline? || Findings(c, s)[j].kind.AgentOffline?
  {
    hide Report, Verdict, RecentAgents, Silent, Sorted;
    assert |NetworkFindings(c, s)| <= 1;
    forall k | |NetworkFindings(c, s)| <= k < |Findings(c, s)|
      ensures Findings(c, s)[k].kind.AgentOffline?
    {
    }
  }

  /** Any sufficiently sampled measurement that failed, lost packets or was slow forces
      exactly one network-level finding. */
  lemma ImpairmentIsReported(c: Config, s: Snapshot, m: Measurement)
    requires m in s.measurements && m.samples >= c.minimumSamples && Impaired(c, m)
    ensures |NetworkFindings(c, s)| == 1 && !NetworkFindings(c, s)[0].kind.AgentOffline?
  {
    hide Sampled, Verdict, Report, Applies;
    var w := Sampled(c, s);
    ImpairmentApplies(c, s, m);
    assert PRIORITY[8] == UnknownNetworkIncident;
    assert Verdict(c, w) == FirstFrom(0, c, w) by { hide *; VerdictStarts(c, w); }
    FirstApplies(0, c, w);
    ReportKind(Verdict(c, w).value, c, w);
  }

  lemma VerdictStarts(c: Config, w: Window)
    ensures Verdict(c, w) == FirstFrom(0, c, w)
  {
  }

  lemma ImpairmentApplies(c: Config, s: Snapshot, m: Measurement)
    requires m in s.measurements && m.samples >= c.minimumSamples && Impaired(c, m)
    ensures Applies(UnknownNetworkIncident, c, Sampled(c, s))
  {
    assert m in Sampled(c, s).ms;
    assert m in ImpairedRows(c, Sampled(c, s));
  }

  lemma ReportKind(k: Kind, c: Config, w: Window)
    requires !k.AgentOffline?
    ensures Report(k, c, w).kind == k
  {
  }

  /** The key's first letter tells network-level findings from silent agents. */
  lemma KeyInitial(k: Kind, c: Config, w: Window)
    requires !k.AgentOffline?
    ensures Report(k, c, w).key != [] && Report(k, c, w).key[0] != 'a'
  {
    hide WiredRouter, WifiRouter, WiredExternal, WifiExternal, Diagnostics, LossyRows, SlowRows, ImpairedRows,
         ServicesOf, Failing, Sorted, Endpoints, Join;
    assert KindText(k) != [] && KindText(k)[0] != 'a';
  }

  lemma SilenceKey(a: string, b: string)
    ensures ("agent_offline:" + a)[0] == 'a'
    ensures "agent_offline:" + a == "agent_offline:" + b ==> a == b
  {
    var p := "agent_offline:";
    assert (p + a)[|p|..] == a && (p + b)[|p|..] == b;
  }

  ghost predicate OnePerAgent(hs: seq<Heartbeat>) { forall i, j :: 0 <= i < j < |hs| ==> hs[i].agent != hs[j].agent }

  lemma {:induction false} SilentOnce(recent: set<string>, hs: seq<Heartbeat>)
    requires OnePerAgent(hs)
    ensures OnePerAgent(Silent(recent, hs))
  {
    if hs != [] {
      var rest := hs[1..];
      assert forall i :: 0 <= i < |rest| ==> rest[i] == hs[i + 1];
      SilentOnce(recent, rest);
      SilentCons(recent, hs);
      var r := Silent(recent, hs);
      forall i, j | 0 <= i < j < |r| ensures r[i].agent != r[j].agent {
        assert r[j] in Silent(recent, rest);
      }
    }
  }

  lemma SilentCons(recent: set<string>, hs: seq<Heartbeat>)
    requires hs != []
    ensures Silent(recent, hs) == (if hs[0].agent in recent then [] else [hs[0]]) + Silent(recent, hs[1..])
    ensures forall h :: h in Silent(recent, hs[1..]) ==> exists i :: 1 <= i < |hs| && hs[i] == h
  {
  }

  lemma NetworkKey(c: Config, s: Snapshot)
    requires NetworkFindings(c, s) != []
    ensures |NetworkFindings(c, s)| == 1
    ensures NetworkFindings(c, s)[0].key != [] && NetworkFindings(c, s)[0].key[0] != 'a'
  {
    hide Report, Sampled, FirstFrom;
    var w := Sampled(c, s);
    FirstApplies(0, c, w);
    KeyInitial(Verdict(c, w).value, c, w);
  }

  lemma KeysDiffer(c: Config, s: Snapshot, i: nat, j: nat)
    requires OnePerAgent(s.heartbeats) && i < j < |Findings(c, s)|
    ensures Findings(c, s)[i].key != Findings(c, s)[j].key
  {
    hide NetworkFindings, RecentAgents, Silent, Sorted;
    var recent := RecentAgents(c, s);
    var n := |NetworkFindings(c, s)|;
    var silent := Silent(recent, s.heartbeats);
    if n > 0 { NetworkKey(c, s); }
    SilentOnce(recent, s.heartbeats);
    var later := silent[j - n].agent;
    assert Findings(c, s)[j] == SilenceFinding(s.at, recent, silent[j - n]);
    if i < n {
      SilenceKey(later, "");
    } else {
      assert Findings(c, s)[i] == SilenceFinding(s.at, recent, silent[i - n]);
      SilenceKey(silent[i - n].agent, later);
    }
  }

  /** With one heartbeat row per agent, no two findings of a cycle share a key. */
  lemma KeysDistinct(c: Config, s: Snapshot)
    requires OnePerAgent(s.heartbeats)
    ensures Distinct(Map((f: Finding) => f.key, Findings(c, s)))
  {
    hide Findings;
    var keys := Map((f: Finding) => f.key, Findings(c, s));
    forall i, j | 0 <= i < j < |keys|
      ensures keys[i] != keys[j]
    {
      KeysDiffer(c, s, i, j);
    }
  }

  // ------------------------------------------------------------------ row order is immaterial

  ghost predicate Permuted(s: Snapshot, t: Snapshot) {
    && s.at == t.at && multiset(s.measurements) == multiset(t.measurements)
    && multiset(s.services) == multiset(t.services) && multiset(s.heartbeats) == multiset(t.heartbeats)
  }

  ghost predicate Alike(w: Window, v: Window) {
    multiset(w.ms) == multiset(v.ms) && multiset(w.ss) == multiset(v.ss)
  }

  /** The same finding, its evidence possibly in another order. */
  ghost predicate SameUpToEvidenceOrder(f: Finding, g: Finding) {
    f.(evidence := []) == g.(evidence := []) && multiset(f.evidence) == multiset(g.evidence)
  }

  lemma MeasurementsPermute(w: Window, v: Window, role: string, kind: string)
    requires Alike(w, v)
    ensures multiset(MeasurementsOf(w.ms, role, kind)) == multiset(MeasurementsOf(v.ms, role, kind))
    ensures forall m :: m in MeasurementsOf(w.ms, role, kind) <==> m in MeasurementsOf(v.ms, role, kind)
    ensures MeasurementsOf(w.ms, role, kind) == [] <==> MeasurementsOf(v.ms, role, kind) == []
  {
    FilterPermutes((m: Measurement) => m.role == role && m.kind == kind, w.ms, v.ms);
    SameElements(MeasurementsOf(w.ms, role, kind), MeasurementsOf(v.ms, role, kind));
  }

  ghost predicate SameRows<T(!new)>(a: seq<T>, b: seq<T>) {
    multiset(a) == multiset(b) && (forall x :: x in a <==> x in b) && (a == [] <==> b == [])
  }

  ghost predicate SameColumns(c: Config, w: Window, v: Window) {
    && SameRows(WiredRouter(w), WiredRouter(v)) && SameRows(WifiRouter(w), WifiRouter(v))
    && SameRows(WiredExternal(w), WiredExternal(v)) && SameRows(WifiExternal(w), WifiExternal(v))
    && SameRows(Diagnostics(w), Diagnostics(v))
    && SameRows(ServicesOf(w.ss, "dns"), ServicesOf(v.ss, "dns"))
    && SameRows(ServicesOf(w.ss, "http"), ServicesOf(v.ss, "http"))
    && SameRows(Failing(c, ServicesOf(w.ss, "dns")), Failing(c, ServicesOf(v.ss, "dns")))
    && SameRows(Failing(c, ServicesOf(w.ss, "http")), Failing(c, ServicesOf(v.ss, "http")))
    && SameRows(HealthyHttp(c, w), HealthyHttp(c, v))
    && SameRows(LossyRows(c, w), LossyRows(c, v)) && SameRows(SlowRows(c, w), SlowRows(c, v))
    && SameRows(ImpairedRows(c, w), ImpairedRows(c, v))
  }

  lemma FilterSame<T(!new)>(p: T -> bool, a: seq<T>, b: seq<T>)
    requires multiset(a) == multiset(b)
    ensures SameRows(Filter(p, a), Filter(p, b))
  {
    FilterPermutes(p, a, b);
    SameElements(Filter(p, a), Filter(p, b));
  }

  lemma ColumnsPermute(c: Config, w: Window, v: Window)
    requires Alike(w, v)
    ensures SameColumns(c, w, v)
  {
    hide SameRows, Filter, Lossy, Slow, Impaired;
    MeasurementColumns(c, w, v);
    ServiceColumns(c, w, v);
  }

  lemma MeasurementColumns(c: Config, w: Window, v: Window)
    requires Alike(w, v)
    ensures SameRows(WiredRouter(w), WiredRouter(v)) && SameRows(WifiRouter(w), WifiRouter(v))
    ensures SameRows(WiredExternal(w), WiredExternal(v)) && SameRows(WifiExternal(w), WifiExternal(v))
    ensures SameRows(Diagnostics(w), Diagnostics(v))
    ensures SameRows(LossyRows(c, w), LossyRows(c, v)) && SameRows(SlowRows(c, w), SlowRows(c, v))
    ensures SameRows(ImpairedRows(c, w), ImpairedRows(c, v))
  {
    hide Filter, Lossy, Slow, Impaired, MeasurementsOf;
    MeasurementsPermute(w, v, WIRED, "router_ping");
    MeasurementsPermute(w, v, WIFI, "router_ping");
    MeasurementsPermute(w, v, WIRED, "external_ping");
    MeasurementsPermute(w, v, WIFI, "external_ping");
    MeasurementsPermute(w, v, WIFI, "wifi_diagnostics");
    FilterSame((m: Measurement) => Lossy(c, m), w.ms, v.ms);
    FilterSame((m: Measurement) => Slow(c, m), w.ms, v.ms);
    FilterSame((m: Measurement) => Impaired(c, m), w.ms, v.ms);
  }

  lemma ServiceColumns(c: Config, w: Window, v: Window)
    requires Alike(w, v)
    ensures SameRows(ServicesOf(w.ss, "dns"), ServicesOf(v.ss, "dns"))
    ensures SameRows(ServicesOf(w.ss, "http"), ServicesOf(v.ss, "http"))
    ensures SameRows(Failing(c, ServicesOf(w.ss, "dns")), Failing(c, ServicesOf(v.ss, "dns")))
    ensures SameRows(Failing(c, ServicesOf(w.ss, "http")), Failing(c, ServicesOf(v.ss, "http")))
    ensures SameRows(HealthyHttp(c, w), HealthyHttp(c, v))
  {
    hide Filter;
    var failed, healthy := (s: Service) => s.success <= c.failedSuccess, (s: Service) => s.success >= c.healthySuccess;
    var dns, http := ServicesOf(w.ss, "dns"), ServicesOf(w.ss, "http");
    FilterSame((s: Service) => s.check == "dns", w.ss, v.ss);
    FilterSame((s: Service) => s.check == "http", w.ss, v.ss);
    FilterSame(failed, dns, ServicesOf(v.ss, "dns"));
    FilterSame(failed, http, ServicesOf(v.ss, "http"));
    FilterSame(healthy, http, ServicesOf(v.ss, "http"));
  }

  lemma SameRules(c: Config, w: Window, v: Window, k: Kind)
    requires SameColumns(c, w, v)
    ensures Applies(k, c, w) == Applies(k, c, v)
  {
    hide WiredRouter, WifiRouter, WiredExternal, WifiExternal, Diagnostics, ServicesOf, Failing, HealthyHttp,
         LossyRows, SlowRows, ImpairedRows;
    SameDegraded(c, WifiRouter(w), WifiExternal(w), Diagnostics(w), WifiRouter(v), WifiExternal(v), Diagnostics(v));
    assert Endpoints(ServicesOf(w.ss, "http")) == Endpoints(ServicesOf(v.ss, "http"));
  }

  lemma SameDegraded(c: Config, a: seq<Measurement>, b: seq<Measurement>, d: seq<Measurement>,
                     a': seq<Measurement>, b': seq<Measurement>, d': seq<Measurement>)
    requires SameRows(a, a') && SameRows(b, b') && SameRows(d, d')
    ensures WifiDegraded(c, a + b, d) == WifiDegraded(c, a' + b', d')
  {
    assert forall m :: m in a + b <==> m in a' + b';
  }

  lemma {:induction false} SameFirst(i: nat, c: Config, w: Window, v: Window)
    requires SameColumns(c, w, v)
    ensures FirstFrom(i, c, w) == FirstFrom(i, c, v)
    decreases |PRIORITY| - i
  {
    hide Applies, SameColumns;
    if i < |PRIORITY| {
      SameRules(c, w, v, PRIORITY[i]);
      SameFirst(i + 1, c, w, v);
    }
  }

  lemma MeasurementsReportAlike(k: Kind, severity: Severity, confidence: real, a: seq<Measurement>, b: seq<Measurement>)
    requires multiset(a) == multiset(b)
    ensures SameUpToEvidenceOrder(MeasurementFinding(k, severity, confidence, a),
                                  MeasurementFinding(k, severity, confidence, b))
  {
    hide Sorted, MaxOf, IsMaximum, KindText;
    SameElements(a, b);
    var peak, loss := (m: Measurement) => m.peakLatency, (m: Measurement) => Some(m.loss);
    MapPermutes((m: Measurement) => OfMeasurement(m), a, b);
    SameMaximum(peak, a, b);
    SameMaximum(loss, a, b);
    assert (set m | m in a :: m.agent) == (set m | m in b :: m.agent);
    assert (set m | m in a :: m.target) == (set m | m in b :: m.target);
  }

  lemma SameMaximum(f: Measurement -> Option<real>, a: seq<Measurement>, b: seq<Measurement>)
    requires multiset(a) == multiset(b)
    ensures MaxOf(Map(f, a)) == MaxOf(Map(f, b))
  {
    hide MaxOf, IsMaximum, Map;
    MapPermutes(f, a, b);
    SameElements(Map(f, a), Map(f, b));
    MaxOfIs(Map(f, a));
    MaxOfIs(Map(f, b));
    MaximumUnique(MaxOf(Map(f, a)), MaxOf(Map(f, b)), Map(f, a), Map(f, b));
  }

  lemma ServicesReportAlike(k: Kind, severity: Severity, confidence: real, a: seq<Service>, b: seq<Service>)
    requires multiset(a) == multiset(b)
    ensures SameUpToEvidenceOrder(ServiceFinding(k, severity, confidence, a),
                                  ServiceFinding(k, severity, confidence, b))
  {
    hide Sorted, Join, KindText;
    SameElements(a, b);
    MapPermutes((s: Service) => OfService(s), a, b);
    assert (set s | s in a :: s.agent) == (set s | s in b :: s.agent);
    assert Endpoints(a) == Endpoints(b);
  }

  lemma ReportsAlike(c: Config, w: Window, v: Window, k: Kind)
    requires SameColumns(c, w, v)
    ensures SameUpToEvidenceOrder(Report(k, c, w), Report(k, c, v))
  {
    hide MeasurementFinding, ServiceFinding, SameUpToEvidenceOrder, WiredRouter, WifiRouter, WiredExternal,
         WifiExternal, Diagnostics, ServicesOf, Failing, LossyRows, SlowRows, ImpairedRows;
    match k
    case RouterUnavailable =>
      MeasurementsReportAlike(k, Critical, 0.94, WiredRouter(w) + WifiRouter(w), WiredRouter(v) + WifiRouter(v));
    case WifiOutage =>
      MeasurementsReportAlike(k, Critical, 0.96, WifiRouter(w) + Diagnostics(w), WifiRouter(v) + Diagnostics(v));
    case IspOutage =>
      MeasurementsReportAlike(k, Critical, 0.92, WiredRouter(w) + WifiRouter(w) + (WiredExternal(w) + WifiExternal(w)),
                              WiredRouter(v) + WifiRouter(v) + (WiredExternal(v) + WifiExternal(v)));
    case WifiDegradation =>
      MeasurementsReportAlike(k, Warning, 0.88, WifiRouter(w) + WifiExternal(w) + Diagnostics(w),
                              WifiRouter(v) + WifiExternal(v) + Diagnostics(v));
    case DnsFailure => ServicesReportAlike(k, Critical, 0.9, ServicesOf(w.ss, "dns"), ServicesOf(v.ss, "dns"));
    case ExternalServiceFailure =>
      ServicesReportAlike(k, Warning, 0.84, Failing(c, ServicesOf(w.ss, "http")), Failing(c, ServicesOf(v.ss, "http")));
    case HighPacketLoss => MeasurementsReportAlike(k, Warning, 0.82, LossyRows(c, w), LossyRows(c, v));
    case HighLatency => MeasurementsReportAlike(k, Warning, 0.8, SlowRows(c, w), SlowRows(c, v));
    case _ => MeasurementsReportAlike(k, Warning, 0.5, ImpairedRows(c, w), ImpairedRows(c, v));
  }

  lemma SampledAlike(c: Config, s: Snapshot, t: Snapshot)
    requires Permuted(s, t)
    ensures Alike(Sampled(c, s), Sampled(c, t))
  {
    FilterPermutes((m: Measurement) => m.samples >= c.minimumSamples, s.measurements, t.measurements);
    FilterPermutes((v: Service) => v.samples >= c.minimumSamples, s.services, t.services);
  }

  /** Permuting the snapshot's rows changes nothing but the order of the evidence and of
      the silent agents. */
  lemma OrderIndependent(c: Config, s: Snapshot, t: Snapshot)
    requires Permuted(s, t)
    ensures |NetworkFindings(c, s)| == |NetworkFindings(c, t)|
    ensures forall i :: 0 <= i < |NetworkFindings(c, s)| ==>
      SameUpToEvidenceOrder(NetworkFindings(c, s)[i], NetworkFindings(c, t)[i])
    ensures multiset(OfflineFindings(c, s)) == multiset(OfflineFindings(c, t))
  {
    hide Sampled, Report, FirstFrom, Filter, SameColumns, Alike, SameUpToEvidenceOrder, SilenceFinding;
    var w, v := Sampled(c, s), Sampled(c, t);
    SampledAlike(c, s, t);
    ColumnsPermute(c, w, v);
    SameFirst(0, c, w, v);
    if Verdict(c, w).Some? { ReportsAlike(c, w, v, Verdict(c, w).value); }
    SameElements(s.heartbeats, t.heartbeats);
    assert RecentAgents(c, s) == RecentAgents(c, t);
    var recent := RecentAgents(c, s);
    FilterPermutes((h: Heartbeat) => h.agent !in recent, s.heartbeats, t.heartbeats);
    MapPermutes((h: Heartbeat) => SilenceFinding(s.at, recent, h), Silent(recent, s.heartbeats),
                Silent(recent, t.heartbeats));
  }

  // ------------------------------------------------------------------ no finding repeats a member

  lemma SortedDistinct(s: set<string>)
    ensures Distinct(Sorted(s))
  {
    hide Sorted, Before;
    SortedLists(s);
    CodePointsTotal();
    var r := Sorted(s);
    forall i, j | 0 <= i < j < |r|
      ensures r[i] != r[j]
    {
      assert CodePoints()(r[i], r[j]);
    }
  }

  lemma ReportDistinct(k: Kind, c: Config, w: Window)
    ensures NoRepeats(Report(k, c, w))
  {
    hide Sorted, MaxOf, Join, KindText, Endpoints, Distinct, Failing, LossyRows, SlowRows, ImpairedRows, ServicesOf,
         WiredRouter, WifiRouter, WiredExternal, WifiExternal, Diagnostics;
    forall s: set<string>
      ensures Distinct(Sorted(s))
    {
      SortedDistinct(s);
    }
  }

  /** No finding lists an agent or an endpoint twice. */
  lemma MembersDistinct(c: Config, s: Snapshot)
    ensures forall f :: f in Findings(c, s) ==> NoRepeats(f)
  {
    hide Report, Verdict, Silent, RecentAgents, Sorted;
    var w := Sampled(c, s);
    if Verdict(c, w).Some? { ReportDistinct(Verdict(c, w).value, c, w); }
    forall f | f in OfflineFindings(c, s)
      ensures NoRepeats(f)
    {
    }
  }

  // ------------------------------------------------------------------ every finding is sound

  const LONGEST_AGENT := 1_961

  /** Table constraints that the snapshot's aggregates inherit, and agent ids short enough
      to be named in a published summary; events admit 128 characters. */
  predicate InRange(s: Snapshot) {
    && (forall m :: m in s.measurements ==>
          (m.peakLatency.Some? ==> m.peakLatency.value >= 0.0) && 0.0 <= m.loss <= 100.0)
    && (forall h :: h in s.heartbeats ==> |h.agent| <= LONGEST_AGENT)
  }

  /** A registered agent's silence can be published if and only if its id has at most
      1,961 characters. */
  lemma SilenceFitsIff(at: int, recent: set<string>, h: Heartbeat)
    ensures Sound(SilenceFinding(at, recent, h)) <==> |h.agent| <= LONGEST_AGENT
  {
    hide Sorted;
  }

  lemma MeasurementsSound(k: Kind, severity: Severity, confidence: real, rows: seq<Measurement>)
    requires rows != [] && 0.0 <= confidence <= 1.0
    requires forall m :: m in rows ==> (m.peakLatency.Some? ==> m.peakLatency.value >= 0.0) && 0.0 <= m.loss <= 100.0
    ensures NoRepeats(MeasurementFinding(k, severity, confidence, rows)) ==>
      Sound(MeasurementFinding(k, severity, confidence, rows))
  {
    hide Sorted, MaxOf, KindText, NoRepeats, SummaryLength, AdviceLength;
    var agents := set m | m in rows :: m.agent;
    assert rows[0].agent in agents;
    assert |Sorted(agents)| == |agents| > 0;
    var peaks, losses := Map((m: Measurement) => m.peakLatency, rows), Map((m: Measurement) => Some(m.loss), rows);
    assert forall i :: 0 <= i < |rows| ==> rows[i] in rows;
    MaxOfIs(peaks);
    MaxOfIs(losses);
  }

  lemma ServicesSound(k: Kind, severity: Severity, confidence: real, rows: seq<Service>)
    requires rows != [] && 0.0 <= confidence <= 1.0
    ensures NoRepeats(ServiceFinding(k, severity, confidence, rows)) ==>
      Sound(ServiceFinding(k, severity, confidence, rows))
  {
    hide Sorted, Join, KindText, NoRepeats, SummaryLength, AdviceLength;
    var agents := set s | s in rows :: s.agent;
    assert rows[0].agent in agents;
    assert |Sorted(agents)| == |agents| > 0;
  }

  lemma ReportSound(k: Kind, c: Config, w: Window)
    requires Applies(k, c, w)
    requires forall m :: m in w.ms ==> (m.peakLatency.Some? ==> m.peakLatency.value >= 0.0) && 0.0 <= m.loss <= 100.0
    ensures Sound(Report(k, c, w))
  {
    hide MeasurementFinding, ServiceFinding, Sound, NoRepeats, ServicesOf, Failing;
    ReportDistinct(k, c, w);
    match k
    case RouterUnavailable => MeasurementsSound(k, Critical, 0.94, WiredRouter(w) + WifiRouter(w));
    case WifiOutage => MeasurementsSound(k, Critical, 0.96, WifiRouter(w) + Diagnostics(w));
    case IspOutage =>
      MeasurementsSound(k, Critical, 0.92, WiredRouter(w) + WifiRouter(w) + (WiredExternal(w) + WifiExternal(w)));
    case WifiDegradation => MeasurementsSound(k, Warning, 0.88, WifiRouter(w) + WifiExternal(w) + Diagnostics(w));
    case DnsFailure =>
      SomeFailing(c, ServicesOf(w.ss, "dns"));
      ServicesSound(k, Critical, 0.9, ServicesOf(w.ss, "dns"));
    case ExternalServiceFailure => ServicesSound(k, Warning, 0.84, Failing(c, ServicesOf(w.ss, "http")));
    case HighPacketLoss => MeasurementsSound(k, Warning, 0.82, LossyRows(c, w));
    case HighLatency => MeasurementsSound(k, Warning, 0.8, SlowRows(c, w));
    case _ => MeasurementsSound(k, Warning, 0.5, ImpairedRows(c, w));
  }

  lemma SomeFailing(c: Config, rows: seq<Service>)
    requires CrossAgentFailed(c, rows)
    ensures rows != []
  {
  }

  /** Every finding names an affected agent, no member twice, carries evidence, and stays in
      range. */
  lemma FindingsSound(c: Config, s: Snapshot)
    requires InRange(s)
    ensures forall f :: f in Findings(c, s) ==> Sound(f)
  {
    hide Report, Applies, FirstFrom, Filter, RecentAgents, Sound, SilenceFinding;
    MembersDistinct(c, s);
    var w := Sampled(c, s);
    FirstApplies(0, c, w);
    if Verdict(c, w).Some? { ReportSound(Verdict(c, w).value, c, w); }
    var recent := RecentAgents(c, s);
    forall f | f in OfflineFindings(c, s)
      ensures Sound(f)
    {
      var silent := Silent(recent, s.heartbeats);
      var i :| 0 <= i < |silent| && f == SilenceFinding(s.at, recent, silent[i]);
      assert silent[i] in silent;
      SilenceFitsIff(s.at, recent, silent[i]);
    }
  }
}
