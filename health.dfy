/** The host health status derived from cpu, memory and disk usage. */
module Health {
  import opened Catalog

  datatype HealthStatus = Healthy | Warning | Critical

  /** Healthy < Warning < Critical. */
  function Rank(s: HealthStatus): (rank: nat)
  {
    match s
    case Healthy => 0
    case Warning => 1
    case Critical => 2
  }

  /**
   * The status as the detector assigns it: "warning" when a metric exceeds 90,
   * then overwritten by "critical" when a metric exceeds 95.
   */
  function StatusOf(cpu: real, memory: real, disk: real): (s: HealthStatus)
    ensures s == Critical <==> cpu > 95.0 || memory > 95.0 || disk > 95.0
    ensures s == Warning <==> !(cpu > 95.0 || memory > 95.0 || disk > 95.0) && (cpu > 90.0 || memory > 90.0 || disk > 90.0)
    ensures s == Healthy <==> cpu <= 90.0 && memory <= 90.0 && disk <= 90.0
  {
    var status := if cpu > HealthWarningPercent || memory > HealthWarningPercent || disk > HealthWarningPercent
      then Warning else Healthy;
    if cpu > HealthCriticalPercent || memory > HealthCriticalPercent || disk > HealthCriticalPercent
    then Critical else status
  }

  /** Raising any metric never improves the status. */
  lemma StatusMonotone(cpu: real, memory: real, disk: real, cpu': real, memory': real, disk': real)
    requires cpu <= cpu' && memory <= memory' && disk <= disk'
    ensures Rank(StatusOf(cpu, memory, disk)) <= Rank(StatusOf(cpu', memory', disk'))
  {
  }

  /** What the health report carries: the status, the three metrics and the process count. */
  datatype HealthReport = HealthReport(
    status: HealthStatus, cpuPercent: real, memoryPercent: real, diskPercent: real, processCount: nat)

  /** The successful report: the status beside the metrics it was derived from. */
  function SystemHealth(cpu: real, memory: real, disk: real, processCount: nat): (h: HealthReport)
  {
    HealthReport(StatusOf(cpu, memory, disk), cpu, memory, disk, processCount)
  }
}
