# Threat-detector rule engine

A Dafny model of the rule engine of a macOS threat detector and of the two
roll-ups its HTTP API serves. The detector (`MacOSThreatDetector`) turns one
point-in-time view of the host into findings ranked "medium", "high" or
"critical":

- **process classifier.** A process is reported when its lowercased name holds
  a catalog fragment ("critical"). It is also reported when it burns more than
  80% cpu and its space-joined, lowercased command line holds a miner keyword
  ("high").
- **network classifier.** Only ESTABLISHED connections with a remote address
  are examined. Each can yield a "high" finding for a backdoor/leet/IRC port
  and then, independently, a "critical" finding for a remote IP whose prefix
  is on the suspicious list.
- **file classifier.** Every regular file modified less than an hour ago, in a
  high-risk directory that exists and can be listed, is reported as "medium".
- **health status.** The host is "critical" above 95% cpu, memory or disk,
  "warning" above 90%, and "healthy" otherwise.
- **top-resource summary.** This is the list of processes above 5% cpu or
  memory. It keeps the ten largest by cpu (a missing reading counts as 0) and
  the cpu total over every process read.
- **dashboard.** It counts findings and critical findings and derives the
  alert, network-health and blocked counters.
- **threat list.** It flattens the three finding lists into one list numbered
  `threat-001`, `threat-002`, …

The operating system is never called. Its answers arrive as a `Snapshot`
value, made of:

- the process table, with a flag for rows whose read raised NoSuchProcess or
  AccessDenied;
- the socket table;
- a listing per existing directory, or `PermissionDenied`;
- the clock reading `now`;
- the three usage percentages and the pid count.

MD5 is a function parameter `md5Hex`. Lowercasing is ASCII case folding.
Percentages are `real`.

Each detector loop is a `method` that appends as the source does. It is proved
equal to a recursive function over the input (`ScanProcesses`,
`ScanConnections`, `ScanDirectories`, `Kept`/`TotalCpu`, `CriticalCount`,
`Numbered`/`Flattened`). The properties the source promises are proved as
lemmas about those functions.

Modules:

| module | contents |
|---|---|
| `Text` | lowercasing, `in`, anchored prefixes, `' '.join`, decimal rendering and zero padding |
| `Telemetry` | the snapshot records |
| `Catalog` | the rule lists and thresholds from the detector's constructor |
| `Findings` | severities and finding records |
| `ProcessRules` | the process classifier |
| `NetworkRules` | the network classifier |
| `FileRules` | the file classifier |
| `Health` | the health status |
| `ResourceSummary` | the top-resource summary |
| `SystemMonitor` | the combined assessment |
| `Dashboard` | the dashboard statistics and the threat list |

## Model

| member | source | states |
|---|---|---|
| ProcessRules.ProcessFinding | backend/system_monitor.py:69-81 | the finding has id "proc-" followed by the pid, and it carries the process's pid and name; severity is Critical exactly when the name matched a catalog fragment and High otherwise |
| ProcessRules.ExamineProcess | backend/system_monitor.py:56-81 | one process yields at most one finding, and yields one exactly when its lowercased name holds a fragment or (cpu > 80 and its lowercased joined cmdline holds a miner keyword) |
| ProcessRules.MinerToken | backend/system_monitor.py:62-67 | a miner keyword inside any single lowercased cmdline token flags a process above 80% cpu, because the tokens are joined with spaces before the search |
| ProcessRules.CmdlineMatchesTokens | backend/system_monitor.py:65-67 | the joined, lowercased command line holds a miner keyword exactly when one lowercased token holds it, since no keyword contains a space |
| ProcessRules.DetectSuspiciousProcesses | backend/system_monitor.py:48-89 | the loop returns exactly the scan: inaccessible rows are skipped, flagged rows are reported in table order, and an accessible row without a cpu reading ends the scan with the findings so far |
| ProcessRules.ScanProcessesKinds | backend/system_monitor.py:71-81 | every process finding is a suspicious-process record |
| ProcessRules.ScanProcessesAppend | backend/system_monitor.py:52-89 | scanning a concatenation is scanning both parts, unless the first part holds an aborting row |
| ProcessRules.InaccessibleSkipped | backend/system_monitor.py:83-84 | a row that raises NoSuchProcess or AccessDenied adds nothing and does not stop the scan of later rows |
| ProcessRules.AbortStops | backend/system_monitor.py:62 | an accessible row without a cpu reading ends the process scan: the result is the findings of the rows before it, and nothing after it is examined |
| ProcessRules.ScanProcessesMembership | backend/system_monitor.py:53-84 | without an aborting row, a finding is reported iff it is the finding of some accessible flagged process |
| ProcessRules.ScanProcessesCritical | backend/system_monitor.py:70 | the scan's critical findings are exactly its name matches |
| NetworkRules.FirstOctet | backend/system_monitor.py:216-217 | an anchored `^w\.` pattern matches a rendered address exactly when its first octet is the number w |
| NetworkRules.SecondOctet | backend/system_monitor.py:218 | the 172 pattern accepts `172.n.` exactly when 16 <= n <= 31 |
| NetworkRules.DottedQuad172 | backend/system_monitor.py:218 | the 172 pattern matches a.b.c.d exactly when a = 172 and 16 <= b <= 31 |
| NetworkRules.DottedQuad192 | backend/system_monitor.py:219 | the 192.168 pattern matches a.b.c.d exactly when a = 192 and b = 168 |
| NetworkRules.DottedQuadSuspicious | backend/system_monitor.py:212-222 | a.b.c.d is suspicious iff a is 0, 127, 255 or 10, or it lies in 172.16-31 or in 192.168, in any pattern order |
| NetworkRules.Examples | backend/system_monitor.py:215-222 | 8.8.8.8 and 172.32.0.1 are not suspicious; 172.16.0.1 and 10.0.0.5 are |
| NetworkRules.PortFinding | backend/system_monitor.py:105-115 | the port finding is "high" with id "net-{local}-{remote}" |
| NetworkRules.IpFinding | backend/system_monitor.py:118-127 | the IP finding is "critical" with id "ip-{remote_ip}" |
| NetworkRules.ExamineConnection | backend/system_monitor.py:99-127 | the findings one connection appends, in order |
| NetworkRules.ConnectionFindingsShape | backend/system_monitor.py:99-127 | only established connections with a remote address yield findings; they yield 0, 1 or 2, with the port finding (local or remote port listed) before the IP finding |
| NetworkRules.DetectNetworkAnomalies | backend/system_monitor.py:91-132 | the loop returns the concatenation of every connection's findings, in socket-table order |
| NetworkRules.ScanConnectionsAppend | backend/system_monitor.py:98-127 | the scan of a concatenation is the concatenation of the scans |
| NetworkRules.IgnoredConnection | backend/system_monitor.py:99 | a connection that is not established, or has no remote address, changes nothing |
| NetworkRules.ScanConnectionsMembership | backend/system_monitor.py:98-127 | a finding is reported iff it is the port finding of an examined connection with a listed port, or the IP finding of one with a suspicious address |
| NetworkRules.ScanConnectionsCritical | backend/system_monitor.py:105-127 | the scan's critical findings are exactly its IP findings |
| FileRules.JoinPath | backend/system_monitor.py:144 | `os.path.join`: an absolute name replaces the directory; otherwise a "/" separates them unless the directory is empty or already ends with one; the path always ends with the name |
| FileRules.FileFinding | backend/system_monitor.py:144-160 | the finding is "medium", names the directory and the joined path, and has id "file-" plus the first eight characters of the path's digest |
| FileRules.ScanListing | backend/system_monitor.py:143-160 | the inner loop returns one finding per recent regular file of the listing, in listing order |
| FileRules.DetectFileAnomalies | backend/system_monitor.py:134-167 | the loop returns, directory by directory in catalog order, the findings of each existing listable directory; a missing or denied directory adds nothing |
| FileRules.ScanEntriesMembership | backend/system_monitor.py:143-160 | a finding comes from a listing iff it is the finding of an entry that is a regular file modified less than 3600 s before now |
| FileRules.ScanDirectoriesMembership | backend/system_monitor.py:140-162 | a file finding is reported iff some scanned directory exists, can be listed and directly holds a recent regular file with that finding |
| FileRules.ScanDirectoriesShape | backend/system_monitor.py:151-157 | every file finding is a "medium" file record naming one of the scanned directories |
| FileRules.ScanDirectoriesNoCritical | backend/system_monitor.py:157 | no file finding is critical |
| Health.StatusOf | backend/system_monitor.py:176-181 | critical iff some metric > 95; warning iff none > 95 and some > 90; healthy iff all <= 90 |
| Health.StatusMonotone | backend/system_monitor.py:176-181 | raising any metric never improves the status |
| ResourceSummary.InsertByCpu | backend/system_monitor.py:250 | inserting one row adds exactly that row |
| ResourceSummary.InsertSorted | backend/system_monitor.py:250 | inserting into a list sorted by descending cpu keeps it sorted |
| ResourceSummary.SortByCpuDesc | backend/system_monitor.py:250 | the sort is a permutation of its input and sorted by descending `cpu or 0` |
| ResourceSummary.SortStable | backend/system_monitor.py:250 | the sort is stable: rows with equal keys keep their table order |
| ResourceSummary.TopRows | backend/system_monitor.py:250 | the first n rows of a sorted list are sorted, are a sub-multiset, and no row left out beats a kept row |
| ResourceSummary.KeptMembership | backend/system_monitor.py:231-246 | a row is kept iff it is the sample of an accessible process with (cpu or 0) > 5 or (mem or 0) > 5 |
| ResourceSummary.TopRowsKept | backend/system_monitor.py:238-250 | every row of the top-ten list is the sample of an accessible process with (cpu or 0) > 5 or (mem or 0) > 5 |
| ResourceSummary.RunningProcessesSummary | backend/system_monitor.py:224-253 | the report keeps at most ten rows, each the sample of an accessible process with (cpu or 0) > 5 or (mem or 0) > 5; they are sorted by descending cpu, and no significant row left out beats a kept one; the cpu total covers every process read, kept or not |
| SystemMonitor.GetSystemThreats | backend/system_monitor.py:36-46 | the three classifiers and the health report (status and metrics) are computed from the same snapshot |
| Findings.IsCritical | backend/main.py:66 | the test `severity.lower() == "critical"` holds exactly for Critical findings |
| Findings.CriticalCountAppend | backend/main.py:62-67 | the critical count of a concatenation is the sum of the counts |
| Dashboard.CountCriticalThreats | backend/main.py:60-67 | the nested loop counts the critical findings of the three lists, so the count is at most the total |
| Dashboard.SummarizeDashboard | backend/main.py:53-85 | total = sum of the three lengths; critical <= total; totalAlerts = process + network counts, hence <= activeThreats; malwareBlocked and blocked_connections are the process and network counts; networkHealth = 100 - 10 x network count, negative iff more than 10 network findings |
| Dashboard.DashboardSummary | backend/main.py:45-93 | for a snapshot: total (= activeThreats) is the sum of the three scans' lengths, and totalAlerts <= activeThreats; critical is the name-matched processes plus the connections to suspicious addresses; totalAlerts, malwareBlocked and blocked_connections are the process and network counts; networkHealth = 100 - 10 x network count; status, usage figures and process counts come from the same snapshot |
| Dashboard.ThreatIdsDiffer | backend/main.py:131 | distinct numbers render to distinct `threat-{n:03d}` ids |
| Dashboard.ToThreat | backend/main.py:130-185 | an entry carries its number and the severity of its finding |
| Dashboard.NumberedAt | backend/main.py:129-186 | the k-th entry of one loop is built from the k-th finding with number first + k |
| Dashboard.FlattenedAt | backend/main.py:129-186 | entry k keeps the severity of finding k of the concatenated lists, with process entries first, then network, then file |
| Dashboard.FlattenedNumber | backend/main.py:125-186 | entry k carries number k + 1 |
| Dashboard.FlattenedIdsDistinct | backend/main.py:125-186 | the flattened ids are pairwise distinct |
| Dashboard.AppendThreats | backend/main.py:129-146 | one loop appends an entry per finding and advances the counter by the list's length |
| Dashboard.FlattenThreats | backend/main.py:125-191 | the result is the flattened list; totalCount equals its length, the sum of the three list lengths; the ids are distinct |
| Dashboard.GetThreats | backend/main.py:119-193 | for a snapshot, the list is the flattened process, network and file scans (entry k from finding k, same severity and order, numbered k + 1); totalCount is its length, totalPages is 1, and the ids are distinct |
| Text.LowerOfLowercase | backend/main.py:66 | lowering a string with no upper-case letter leaves it unchanged, so a lowercase severity label compares as written |
| Text.LowerJoin | backend/system_monitor.py:65 | lowering the joined cmdline is joining the lowered tokens |
| Text.ContainsJoined | backend/system_monitor.py:65-67 | a word inside one token is inside the space-joined tokens |
| Text.ContainsSplit | backend/system_monitor.py:65-67 | a non-empty word without a space found in the space-joined tokens lies inside one token |
| Text.ParseDecimalOfDecimal | backend/system_monitor.py:72 | the decimal rendering of a pid reads back as the pid |
| Text.ParseZeroPadDecimal | backend/main.py:131 | a zero-padded rendering reads back as the number |

## Left out

- OS telemetry is not modelled. The process and socket tables, directory
  listings, `isfile`/`stat`, cpu/memory/disk counters, the pid count and the
  clock are fields of a `Snapshot`, not calls. All detectors and both
  roll-ups read one snapshot. The source re-reads the OS in each call (the
  dashboard reads the process table and the health counters twice), so
  tables that change between two reads are not captured.
- The file scan uses one `now` for the whole scan, while the source reads the
  clock again for each file.
- Timestamps and every `isoformat` rendering (`timestamp`, `lastUpdated`,
  `modified_time`) are left out. A file finding keeps the raw mtime as a
  `real`.
- `hashlib.md5` is the uninterpreted parameter `md5Hex`.
- `str.lower()` folds only ASCII letters; Unicode case mapping is not
  modelled.
- A process name that is None, or a missing `cmdline` token, is not
  representable: names are strings and a missing command line is the empty
  token list.
- A row whose read raises, or a file that vanishes between listing and
  `stat`, is not modelled. The model only distinguishes rows flagged as
  inaccessible and directories whose listing is denied.
- The outer `except Exception` handlers print and return the partial list.
  Only one raising path is modelled: an accessible process without a cpu
  reading, whose `> 80` comparison ends the process scan.
- `get_system_health` is modelled only for its success path. The
  `{"status": "error"}` return and `uptime` are left out.
- `get_suspicious_connections` (`active_connections`) only formats addresses
  and is left out.
- `total_memory` is computed by the summary but never returned, so it is left
  out.
- `confidence_score`, `detectionRate`, `timeSeriesData`, the mock endpoints
  `/api/anomalies` and `/api/alerts`, and the root and `/health` endpoints are
  constants and are left out.
- The FastAPI app, CORS, routing and the HTTP 500 error responses are
  transport and are left out.
- The threat list's `id` field is held as its number and rendered by
  `Threat.Id()` as `threat-{n:03d}`.
