/** The detector's rule catalog: fixed lists and thresholds, never changed at run time. */
module Catalog {

  /** Name fragments that mark a process as malicious. */
  const SuspiciousProcessNames: seq<string> := [
    "coinminer", "cryptominer", "bitcoin", "monero",
    "backdoor", "keylogger", "trojan", "malware",
    "suspicious", "hack", "exploit"
  ]

  /** Command-line keywords of a crypto miner. */
  const MinerKeywords: seq<string> := ["mining", "pool", "stratum", "crypto", "coin"]

  /** Backdoor, "leet" and IRC ports. */
  const SuspiciousPorts: seq<nat> := [4444, 5555, 6666, 7777, 8888, 9999, 1337, 31337, 6667, 6697]

  /** Directories whose recently modified regular files are reported, in scan order. */
  const HighRiskDirectories: seq<string> := [
    "/tmp", "/var/tmp", "/private/tmp",
    "/Library/LaunchDaemons", "/Library/LaunchAgents",
    "/System/Library/LaunchDaemons"
  ]

  const HighCpuPercent: real := 80.0
  const RecentWindowSeconds: real := 3600.0
  const HealthWarningPercent: real := 90.0
  const HealthCriticalPercent: real := 95.0
  const ResourceFloorPercent: real := 5.0
  const TopProcessCount: nat := 10
  const NetworkHealthPenalty: int := 10
}
