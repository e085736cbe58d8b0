/**
 * The roll-ups the HTTP layer serves: the dashboard statistics and the
 * flattened, renumbered threat list.
 */
module Dashboard {
  import opened Text
  import opened Telemetry
  import opened Sequences
  import opened Catalog
  import opened Findings
  import opened ProcessRules
  import opened NetworkRules
  import opened FileRules
  import opened SystemMonitor
  import opened ResourceSummary
  import Health

  /** Sum of CriticalCount over a list of finding lists. */
  function CriticalInLists(lists: seq<seq<Finding>>): (n: nat)
  {
    if lists == [] then 0 else CriticalCount(lists[0]) + CriticalInLists(lists[1..])
  }

  /** The nested counting loop over the process, network and file lists. */
  method CountCriticalThreats(processThreats: seq<Finding>, networkThreats: seq<Finding>, fileThreats: seq<Finding>)
    returns (criticalThreats: nat)
    ensures criticalThreats == CriticalCount(processThreats) + CriticalCount(networkThreats) + CriticalCount(fileThreats)
    ensures criticalThreats <= |processThreats| + |networkThreats| + |fileThreats|
  {
    var lists := [processThreats, networkThreats, fileThreats];
    assert lists[1..] == [networkThreats, fileThreats] && lists[1..][1..] == [fileThreats];
    assert lists[1..][1..][1..] == [];
    criticalThreats := 0;
    var i := 0;
    while i < |lists|
      invariant 0 <= i <= |lists|
      invariant criticalThreats + CriticalInLists(lists[i..]) == CriticalInLists(lists)
    {
      var threatList := lists[i];
      assert lists[i..][1..] == lists[i + 1..];
      assert CriticalInLists(lists[i..]) == CriticalCount(threatList) + CriticalInLists(lists[i + 1..]);
      var j := 0;
      while j < |threatList|
        invariant 0 <= j <= |threatList|
        invariant criticalThreats + CriticalCount(threatList[j..]) + CriticalInLists(lists[i + 1..])
          == CriticalInLists(lists)
      {
        assert threatList[j..][1..] == threatList[j + 1..];
        assert CriticalCount(threatList[j..])
          == (if threatList[j].severity == Critical then 1 else 0) + CriticalCount(threatList[j + 1..]);
        if IsCritical(threatList[j]) {
          criticalThreats := criticalThreats + 1;
        }
        j := j + 1;
      }
      assert threatList[j..] == [];
      i := i + 1;
    }
    assert CriticalInLists(lists[1..][1..]) == CriticalCount(fileThreats);
    assert CriticalInLists(lists[1..]) == CriticalCount(networkThreats) + CriticalCount(fileThreats);
  }

  datatype DashboardStats = DashboardStats(
    totalAlerts: nat,
    activeThreats: nat,
    totalThreats: nat,
    criticalThreats: nat,
    systemStatus: Health.HealthStatus,
    networkHealth: int,
    malwareBlocked: nat,
    blockedConnections: nat,
    monitoredProcesses: nat,
    cpuUsage: real,
    memoryUsage: real,
    diskUsage: real,
    processCount: nat)

  /** The statistics computed from one assessment, health report and process summary. */
  method SummarizeDashboard(t: SystemThreats, health: Health.HealthReport, summary: ProcessSummary)
    returns (stats: DashboardStats)
    ensures stats.totalThreats == stats.activeThreats == |t.processThreats| + |t.networkThreats| + |t.fileThreats|
    ensures stats.criticalThreats == CriticalCount(t.processThreats) + CriticalCount(t.networkThreats) + CriticalCount(t.fileThreats)
    ensures stats.criticalThreats <= stats.totalThreats
    ensures stats.totalAlerts == |t.processThreats| + |t.networkThreats| && stats.totalAlerts <= stats.activeThreats
    ensures stats.malwareBlocked == |t.processThreats| && stats.blockedConnections == |t.networkThreats|
    ensures stats.networkHealth == 100 - NetworkHealthPenalty * |t.networkThreats|
    ensures stats.networkHealth < 0 <==> |t.networkThreats| > 10
    ensures stats.systemStatus == health.status
    ensures stats.monitoredProcesses == stats.processCount == summary.processCount
    ensures stats.cpuUsage == health.cpuPercent && stats.memoryUsage == health.memoryPercent
    ensures stats.diskUsage == health.diskPercent
  {
    var totalThreats := |t.processThreats| + |t.networkThreats| + |t.fileThreats|;
    var criticalThreats := CountCriticalThreats(t.processThreats, t.networkThreats, t.fileThreats);
    stats := DashboardStats(
      |t.processThreats| + |t.networkThreats|,
      totalThreats,
      totalThreats,
      criticalThreats,
      health.status,
      100 - |t.networkThreats| * NetworkHealthPenalty,
      |t.processThreats|,
      |t.networkThreats|,
      summary.processCount,
      health.cpuPercent,
      health.memoryPercent,
      health.diskPercent,
      summary.processCount);
  }

  /**
   * The dashboard for a snapshot. Its critical count is the number of
   * name-matched processes plus the number of connections to suspicious
   * addresses; file findings are never critical.
   */
  method DashboardSummary(snap: Snapshot, md5Hex: string -> string) returns (stats: DashboardStats)
    ensures stats.totalThreats == |ScanProcesses(snap.processes)| + |ScanConnections(snap.connections)|
      + |ScanDirectories(HighRiskDirectories, snap.directories, snap.now, md5Hex)|
    ensures stats.criticalThreats == NameMatchCount(snap.processes) + SuspiciousIpCount(snap.connections)
    ensures stats.networkHealth == 100 - 10 * |ScanConnections(snap.connections)|
    ensures stats.systemStatus == Health.StatusOf(snap.cpuPercent, snap.memoryPercent, snap.diskPercent)
    ensures stats.activeThreats == stats.totalThreats && stats.totalAlerts <= stats.activeThreats
    ensures stats.totalAlerts == |ScanProcesses(snap.processes)| + |ScanConnections(snap.connections)|
    ensures stats.malwareBlocked == |ScanProcesses(snap.processes)|
    ensures stats.blockedConnections == |ScanConnections(snap.connections)|
    ensures stats.processCount == stats.monitoredProcesses == snap.pidCount
    ensures stats.cpuUsage == snap.cpuPercent && stats.memoryUsage == snap.memoryPercent
    ensures stats.diskUsage == snap.diskPercent
  {
    var systemThreats := GetSystemThreats(snap, md5Hex);
    var systemHealth := SnapshotHealth(snap);
    var processSummary := RunningProcessesSummary(snap.processes, snap.pidCount, snap.memoryPercent);
    stats := SummarizeDashboard(systemThreats, systemHealth, processSummary);
    ScanProcessesCritical(snap.processes);
    ScanConnectionsCritical(snap.connections);
    ScanDirectoriesNoCritical(HighRiskDirectories, snap.directories, snap.now, md5Hex);
  }

  /** `f"threat-{n:03d}"` */
  function ThreatId(n: nat): (id: string)
  {
    "threat-" + ZeroPad(Decimal(n), 3)
  }

  /** Distinct positions get distinct threat ids. */
  lemma ThreatIdsDiffer(m: nat, n: nat)
    requires m != n
    ensures ThreatId(m) != ThreatId(n)
  {
    ParseZeroPadDecimal(m, 3);
    ParseZeroPadDecimal(n, 3);
    assert ThreatId(m)[7..] == ZeroPad(Decimal(m), 3);
    assert ThreatId(n)[7..] == ZeroPad(Decimal(n), 3);
  }

  /** The "details" of a flattened threat; a field the finding lacks reads as None. */
  datatype ThreatDetails =
    | ProcessDetails(pid: nat, cpuPercent: real, memoryPercent: Option<real>)
    | NetworkDetails(remoteIp: Option<string>, remotePort: Option<nat>, localPort: Option<nat>)
    | FileDetails(filepath: Option<string>, directory: Option<string>, modifiedTime: Option<real>)

  /** A flattened entry; `number` is the running counter its id is rendered from. */
  datatype Threat = Threat(
    number: nat, threatType: string, severity: Severity, status: string, source: string,
    title: string, description: string, details: ThreatDetails)
  {
    /** The "id" field: `f"threat-{number:03d}"`. */
    function Id(): (id: string)
    {
      ThreatId(number)
    }
  }

  const ProcessThreatType := "suspicious_process"
  const NetworkThreatType := "network_anomaly"
  const FileThreatType := "file_anomaly"
  const ActiveStatus := "active"
  const ProcessSource := "system_monitor"
  const NetworkSource := "network_monitor"
  const FileSource := "file_monitor"
  const ProcessTitlePrefix := "Suspicious Process: "
  const NetworkTitle := "Suspicious Network Activity"
  const FileTitle := "Suspicious File Activity"

  function ProcessThreat(number: nat, f: Finding): (t: Threat)
    requires f.SuspiciousProcess?
  {
    Threat(number, ProcessThreatType, f.severity, ActiveStatus, ProcessSource,
      ProcessTitlePrefix + f.name, f.description,
      ProcessDetails(f.pid, f.cpuPercent, f.memoryPercent))
  }

  /** `net_threat.get(...)` on the three detail fields. */
  function NetworkThreatDetails(f: Finding): (d: ThreatDetails)
  {
    match f
    case SuspiciousConnection(_, localPort, remoteIp, remotePort, _, _) =>
      NetworkDetails(Some(remoteIp), Some(remotePort), Some(localPort))
    case MaliciousIp(_, remoteIp, remotePort, _, _) => NetworkDetails(Some(remoteIp), Some(remotePort), None)
    case _ => NetworkDetails(None, None, None)
  }

  function NetworkThreat(number: nat, f: Finding): (t: Threat)
  {
    Threat(number, NetworkThreatType, f.severity, ActiveStatus, NetworkSource,
      NetworkTitle, f.description, NetworkThreatDetails(f))
  }

  /** `file_threat.get(...)` on the three detail fields. */
  function FileThreatDetails(f: Finding): (d: ThreatDetails)
  {
    match f
    case SuspiciousFile(_, filepath, directory, modifiedTime, _, _) =>
      FileDetails(Some(filepath), Some(directory), Some(modifiedTime))
    case _ => FileDetails(None, None, None)
  }

  function FileThreat(number: nat, f: Finding): (t: Threat)
  {
    Threat(number, FileThreatType, f.severity, ActiveStatus, FileSource,
      FileTitle, f.description, FileThreatDetails(f))
  }

  datatype ThreatsResponse = ThreatsResponse(threats: seq<Threat>, totalPages: nat, totalCount: nat)

  /** Which of the three lists a finding comes from. */
  datatype ThreatKind = ProcessKind | NetworkKind | FileKind

  predicate Convertible(kind: ThreatKind, f: Finding)
  {
    kind == ProcessKind ==> f.SuspiciousProcess?
  }

  /** The flattened entry for a finding of the given list. */
  function ToThreat(kind: ThreatKind, number: nat, f: Finding): (t: Threat)
    requires Convertible(kind, f)
    ensures t.number == number && t.severity == f.severity
  {
    match kind
    case ProcessKind => ProcessThreat(number, f)
    case NetworkKind => NetworkThreat(number, f)
    case FileKind => FileThreat(number, f)
  }

  /** The entries for `fs`, in order, numbered from `first` on. */
  function Numbered(fs: seq<Finding>, kind: ThreatKind, first: nat): (r: seq<Threat>)
    requires forall k | 0 <= k < |fs| :: Convertible(kind, fs[k])
    ensures |r| == |fs|
  {
    if fs == [] then []
    else Numbered(fs[..|fs| - 1], kind, first) + [ToThreat(kind, first + |fs| - 1, fs[|fs| - 1])]
  }

  /** The k-th numbered entry is built from the k-th finding and carries number `first + k`. */
  lemma {:induction false} NumberedAt(fs: seq<Finding>, kind: ThreatKind, first: nat, k: nat)
    requires forall k | 0 <= k < |fs| :: Convertible(kind, fs[k])
    requires k < |fs|
    ensures Numbered(fs, kind, first)[k] == ToThreat(kind, first + k, fs[k])
  {
    var init := fs[..|fs| - 1];
    if k < |fs| - 1 {
      NumberedAt(init, kind, first, k);
      assert Numbered(fs, kind, first)[k] == Numbered(init, kind, first)[k];
    }
  }

  /** The process entries, then the network entries, then the file entries, numbered from 1. */
  function Flattened(processThreats: seq<Finding>, networkThreats: seq<Finding>, fileThreats: seq<Finding>): (r: seq<Threat>)
    requires forall k | 0 <= k < |processThreats| :: processThreats[k].SuspiciousProcess?
    ensures |r| == |processThreats| + |networkThreats| + |fileThreats|
  {
    Numbered(processThreats, ProcessKind, 1)
      + Numbered(networkThreats, NetworkKind, 1 + |processThreats|)
      + Numbered(fileThreats, FileKind, 1 + |processThreats| + |networkThreats|)
  }

  /**
   * Entry k of the flattened list keeps the severity of finding k of the
   * concatenated lists and is built, with number k + 1, by the converter of
   * the list that finding came from.
   */
  lemma FlattenedAt(processThreats: seq<Finding>, networkThreats: seq<Finding>, fileThreats: seq<Finding>, k: nat)
    requires forall k | 0 <= k < |processThreats| :: processThreats[k].SuspiciousProcess?
    requires k < |processThreats| + |networkThreats| + |fileThreats|
    ensures var t := Flattened(processThreats, networkThreats, fileThreats)[k];
      && t.severity == (processThreats + networkThreats + fileThreats)[k].severity
      && (k < |processThreats| ==> t == ProcessThreat(k + 1, processThreats[k]))
      && (|processThreats| <= k < |processThreats| + |networkThreats| ==>
            t == NetworkThreat(k + 1, networkThreats[k - |processThreats|]))
      && (|processThreats| + |networkThreats| <= k ==>
            t == FileThreat(k + 1, fileThreats[k - |processThreats| - |networkThreats|]))
  {
    var p, n := |processThreats|, |networkThreats|;
    var ps := Numbered(processThreats, ProcessKind, 1);
    var ns := Numbered(networkThreats, NetworkKind, 1 + p);
    var fs := Numbered(fileThreats, FileKind, 1 + p + n);
    var r := Flattened(processThreats, networkThreats, fileThreats);
    assert r == ps + ns + fs;
    ConcatAt3(ps, ns, fs, k);
    ConcatAt3(processThreats, networkThreats, fileThreats, k);
    if k < p {
      NumberedAt(processThreats, ProcessKind, 1, k);
    } else if k < p + n {
      NumberedAt(networkThreats, NetworkKind, 1 + p, k - p);
    } else {
      NumberedAt(fileThreats, FileKind, 1 + p + n, k - p - n);
    }
  }

  /** Entry k of the flattened list carries number k + 1. */
  lemma FlattenedNumber(processThreats: seq<Finding>, networkThreats: seq<Finding>, fileThreats: seq<Finding>, k: nat)
    requires forall k | 0 <= k < |processThreats| :: processThreats[k].SuspiciousProcess?
    requires k < |processThreats| + |networkThreats| + |fileThreats|
    ensures Flattened(processThreats, networkThreats, fileThreats)[k].number == k + 1
  {
    var p, n := |processThreats|, |networkThreats|;
    var ps := Numbered(processThreats, ProcessKind, 1);
    var ns := Numbered(networkThreats, NetworkKind, 1 + p);
    var fs := Numbered(fileThreats, FileKind, 1 + p + n);
    var r := Flattened(processThreats, networkThreats, fileThreats);
    assert r == ps + ns + fs;
    ConcatAt3(ps, ns, fs, k);
    if k < p {
      NumberedAt(processThreats, ProcessKind, 1, k);
    } else if k < p + n {
      NumberedAt(networkThreats, NetworkKind, 1 + p, k - p);
    } else {
      NumberedAt(fileThreats, FileKind, 1 + p + n, k - p - n);
    }
  }

  /** No two entries of the flattened list share an id. */
  lemma FlattenedIdsDistinct(processThreats: seq<Finding>, networkThreats: seq<Finding>, fileThreats: seq<Finding>)
    requires forall k | 0 <= k < |processThreats| :: processThreats[k].SuspiciousProcess?
    ensures var r := Flattened(processThreats, networkThreats, fileThreats);
      forall i, j | 0 <= i < j < |r| :: r[i].Id() != r[j].Id()
  {
    var r := Flattened(processThreats, networkThreats, fileThreats);
    forall i, j | 0 <= i < j < |r| ensures r[i].Id() != r[j].Id() {
      FlattenedNumber(processThreats, networkThreats, fileThreats, i);
      FlattenedNumber(processThreats, networkThreats, fileThreats, j);
      ThreatIdsDiffer(i + 1, j + 1);
    }
  }

  /**
   * One of the three loops: appends an entry per finding of `fs`, numbering
   * them from `threatId` on, and returns the next number.
   */
  method AppendThreats(threats: seq<Threat>, fs: seq<Finding>, kind: ThreatKind, threatId: nat)
    returns (out: seq<Threat>, nextId: nat)
    requires forall k | 0 <= k < |fs| :: Convertible(kind, fs[k])
    ensures out == threats + Numbered(fs, kind, threatId) && nextId == threatId + |fs|
  {
    out, nextId := threats, threatId;
    for i := 0 to |fs|
      invariant out == threats + Numbered(fs[..i], kind, threatId) && nextId == threatId + i
    {
      var t := ToThreat(kind, nextId, fs[i]);
      assert fs[..i + 1][..i] == fs[..i];
      assert Numbered(fs[..i + 1], kind, threatId) == Numbered(fs[..i], kind, threatId) + [t];
      ConcatAssoc(threats, Numbered(fs[..i], kind, threatId), [t]);
      out := out + [t];
      nextId := nextId + 1;
    }
    assert fs[..|fs|] == fs;
  }

  /**
   * Flattens the three lists into one, process findings first, then network,
   * then file, numbering the entries threat-001, threat-002, ... (see
   * FlattenedAt and FlattenedIdsDistinct for what that list holds).
   */
  method FlattenThreats(processThreats: seq<Finding>, networkThreats: seq<Finding>, fileThreats: seq<Finding>)
    returns (r: ThreatsResponse)
    requires forall k | 0 <= k < |processThreats| :: processThreats[k].SuspiciousProcess?
    ensures r.threats == Flattened(processThreats, networkThreats, fileThreats)
    ensures r.totalCount == |r.threats| == |processThreats| + |networkThreats| + |fileThreats|
    ensures r.totalPages == 1
    ensures forall i, j | 0 <= i < j < |r.threats| :: r.threats[i].Id() != r.threats[j].Id()
  {
    var threats: seq<Threat> := [];
    var threatId := 1;
    threats, threatId := AppendThreats(threats, processThreats, ProcessKind, threatId);
    threats, threatId := AppendThreats(threats, networkThreats, NetworkKind, threatId);
    threats, threatId := AppendThreats(threats, fileThreats, FileKind, threatId);
    FlattenedIdsDistinct(processThreats, networkThreats, fileThreats);
    r := ThreatsResponse(threats, 1, |threats|);
  }

  /** The threat list for a snapshot: one entry per finding, totalCount equal to that number. */
  method GetThreats(snap: Snapshot, md5Hex: string -> string) returns (r: ThreatsResponse)
    ensures r.totalCount == |r.threats| == |ScanProcesses(snap.processes)| + |ScanConnections(snap.connections)|
      + |ScanDirectories(HighRiskDirectories, snap.directories, snap.now, md5Hex)|
    ensures forall k | 0 <= k < |ScanProcesses(snap.processes)| :: ScanProcesses(snap.processes)[k].SuspiciousProcess?
    ensures r.threats == Flattened(ScanProcesses(snap.processes), ScanConnections(snap.connections),
      ScanDirectories(HighRiskDirectories, snap.directories, snap.now, md5Hex))
    ensures r.totalPages == 1
    ensures forall i, j | 0 <= i < j < |r.threats| :: r.threats[i].Id() != r.threats[j].Id()
  {
    var systemThreats := GetSystemThreats(snap, md5Hex);
    r := FlattenThreats(systemThreats.processThreats, systemThreats.networkThreats, systemThreats.fileThreats);
  }
}
