/** The detector's combined assessment of one snapshot. */
module SystemMonitor {
  import opened Telemetry
  import opened Catalog
  import opened Findings
  import opened ProcessRules
  import opened NetworkRules
  import opened FileRules
  import Health

  datatype SystemThreats = SystemThreats(
    processThreats: seq<Finding>,
    networkThreats: seq<Finding>,
    fileThreats: seq<Finding>,
    systemHealth: Health.HealthReport)

  function SnapshotHealth(snap: Snapshot): (h: Health.HealthReport)
  {
    Health.SystemHealth(snap.cpuPercent, snap.memoryPercent, snap.diskPercent, snap.pidCount)
  }

  /** Runs the three classifiers and the health check against the same snapshot. */
  method GetSystemThreats(snap: Snapshot, md5Hex: string -> string) returns (t: SystemThreats)
    ensures t.processThreats == ScanProcesses(snap.processes)
    ensures t.networkThreats == ScanConnections(snap.connections)
    ensures t.fileThreats == ScanDirectories(HighRiskDirectories, snap.directories, snap.now, md5Hex)
    ensures t.systemHealth == SnapshotHealth(snap)
    ensures t.systemHealth.status == Health.StatusOf(snap.cpuPercent, snap.memoryPercent, snap.diskPercent)
    ensures forall k | 0 <= k < |t.processThreats| :: t.processThreats[k].SuspiciousProcess?
  {
    var processThreats := DetectSuspiciousProcesses(snap.processes);
    var networkThreats := DetectNetworkAnomalies(snap.connections);
    var fileThreats := DetectFileAnomalies(HighRiskDirectories, snap.directories, snap.now, md5Hex);
    t := SystemThreats(processThreats, networkThreats, fileThreats, SnapshotHealth(snap));
    ScanProcessesKinds(snap.processes);
  }
}
