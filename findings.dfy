/** What the classifiers produce: one record per finding, with its severity. */
module Findings {
  import opened Telemetry
  import opened Text

  datatype Severity = Medium | High | Critical

  /** The string the detector stores in a finding's "severity" field. */
  function SeverityLabel(s: Severity): (l: string)
    ensures NoUpper(l)
  {
    match s
    case Medium => "medium"
    case High => "high"
    case Critical => "critical"
  }

  /**
   * A finding, one constructor per "type" the detector emits:
   * suspicious_process, suspicious_connection, malicious_ip, suspicious_file.
   */
  datatype Finding =
    | SuspiciousProcess(id: string, pid: nat, name: string, cpuPercent: real,
                        memoryPercent: Option<real>, severity: Severity, description: string)
    | SuspiciousConnection(id: string, localPort: nat, remoteIp: string, remotePort: nat,
                           severity: Severity, description: string)
    | MaliciousIp(id: string, remoteIp: string, remotePort: nat,
                  severity: Severity, description: string)
    | SuspiciousFile(id: string, filepath: string, directory: string, modifiedTime: real,
                     severity: Severity, description: string)

  /** The dashboard's test `severity.lower() == "critical"`, which holds exactly for Critical. */
  predicate IsCritical(f: Finding)
    ensures IsCritical(f) <==> f.severity == Critical
  {
    LowerOfLowercase(SeverityLabel(f.severity));
    Lower(SeverityLabel(f.severity)) == "critical"
  }

  /** Number of Critical findings in `fs`: by IsCritical, those the dashboard's test counts. */
  function CriticalCount(fs: seq<Finding>): (n: nat)
    ensures n <= |fs|
  {
    if fs == [] then 0 else (if fs[0].severity == Critical then 1 else 0) + CriticalCount(fs[1..])
  }

  lemma {:induction false} CriticalCountAppend(a: seq<Finding>, b: seq<Finding>)
    ensures CriticalCount(a + b) == CriticalCount(a) + CriticalCount(b)
  {
    if a == [] {
      assert a + b == b;
    } else {
      assert (a + b)[1..] == a[1..] + b;
      CriticalCountAppend(a[1..], b);
    }
  }
}
