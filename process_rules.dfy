/**
 * The process classifier: a process is reported when its name contains a
 * catalog fragment, or when it burns more than 80% cpu and its command line
 * carries a miner keyword.
 */
module ProcessRules {
  import opened Text
  import opened Telemetry
  import opened Sequences
  import opened Catalog
  import opened Findings

  predicate NameMatches(p: ProcessInfo)
  {
    AnyContains(Lower(p.name), SuspiciousProcessNames)
  }

  predicate CmdlineMatches(p: ProcessInfo)
  {
    AnyContains(Lower(JoinSpaces(p.cmdline)), MinerKeywords)
  }

  predicate HighCpu(p: ProcessInfo)
    requires p.cpuPercent.Some?
  {
    p.cpuPercent.value > HighCpuPercent
  }

  predicate Flagged(p: ProcessInfo)
    requires p.cpuPercent.Some?
  {
    NameMatches(p) || (HighCpu(p) && CmdlineMatches(p))
  }

  /** An accessible process without a cpu reading: comparing it with 80 raises and ends the scan. */
  predicate Aborts(p: ProcessInfo)
  {
    p.accessible && p.cpuPercent.None?
  }

  predicate AbortsIn(ps: seq<ProcessInfo>)
  {
    exists p | p in ps :: Aborts(p)
  }

  const ProcessNote := "Suspicious process detected: "

  /** The finding reported for a flagged process. */
  function ProcessFinding(p: ProcessInfo): (f: Finding)
    requires p.cpuPercent.Some?
    ensures f.SuspiciousProcess? && f.pid == p.pid && f.name == p.name
    ensures f.id == "proc-" + Decimal(p.pid)
    ensures f.severity == Critical <==> NameMatches(p)
    ensures f.severity == High <==> !NameMatches(p)
  {
    SuspiciousProcess(
      "proc-" + Decimal(p.pid), p.pid, p.name, p.cpuPercent.value, p.memoryPercent,
      if NameMatches(p) then Critical else High,
      ProcessNote + p.name)
  }

  /**
   * What a scan of `ps` in order reports: inaccessible rows are skipped, a
   * flagged row contributes its finding, and a row without a cpu reading ends
   * the scan with what was found so far.
   */
  function ScanProcesses(ps: seq<ProcessInfo>): (r: seq<Finding>)
    ensures |r| <= |ps|
  {
    if ps == [] then []
    else if !ps[0].accessible then ScanProcesses(ps[1..])
    else if ps[0].cpuPercent.None? then []
    else ProcessFindings(ps[0]) + ScanProcesses(ps[1..])
  }

  /** What one examined process contributes: its finding if it is flagged, nothing otherwise. */
  function ProcessFindings(p: ProcessInfo): (r: seq<Finding>)
    requires p.cpuPercent.Some?
  {
    if Flagged(p) then [ProcessFinding(p)] else []
  }

  /** The body of the scan for an accessible process with a cpu reading. */
  method ExamineProcess(p: ProcessInfo) returns (found: seq<Finding>)
    requires p.cpuPercent.Some?
    ensures found == ProcessFindings(p)
    ensures |found| <= 1 && (found != [] <==> Flagged(p))
  {
    found := [];
    var isSuspicious := NameMatches(p);
    var highCpu := HighCpu(p);
    var hasCryptoKeywords := CmdlineMatches(p);
    if isSuspicious || (highCpu && hasCryptoKeywords) {
      found := found + [ProcessFinding(p)];
    }
  }

  method DetectSuspiciousProcesses(ps: seq<ProcessInfo>) returns (suspicious: seq<Finding>)
    ensures suspicious == ScanProcesses(ps)
  {
    suspicious := [];
    var i := 0;
    while i < |ps|
      invariant 0 <= i <= |ps|
      invariant suspicious + ScanProcesses(ps[i..]) == ScanProcesses(ps)
    {
      var p := ps[i];
      assert ps[i..][1..] == ps[i + 1..];
      if !p.accessible {
        // NoSuchProcess / AccessDenied: skip this row
        i := i + 1;
        continue;
      }
      if p.cpuPercent.None? {
        // the comparison with 80 raises; the outer handler returns the partial list
        assert ScanProcesses(ps[i..]) == [];
        return;
      }
      var found := ExamineProcess(p);
      ConcatAssoc(suspicious, found, ScanProcesses(ps[i + 1..]));
      suspicious := suspicious + found;
      i := i + 1;
    }
    assert ps[i..] == [];
  }

  /**
   * A miner keyword inside any one lowercased command-line token flags a
   * process above the cpu threshold: the tokens are joined with spaces
   * before the keyword search.
   */
  lemma MinerToken(p: ProcessInfo, k: nat, w: string)
    requires p.cpuPercent.Some? && p.cpuPercent.value > HighCpuPercent
    requires k < |p.cmdline| && w in MinerKeywords && Contains(Lower(p.cmdline[k]), w)
    ensures Flagged(p) && ProcessFindings(p) == [ProcessFinding(p)]
  {
    LowerJoin(p.cmdline);
    ContainsJoined(LowerAll(p.cmdline), k, w);
  }

  /** Every miner keyword is a non-empty word without a space. */
  lemma MinerKeywordsPlain()
    ensures forall w | w in MinerKeywords :: |w| > 0 && ' ' !in w
  {
  }

  /**
   * The command-line rule token by token: since no miner keyword holds a
   * space, the joined, lowercased command line holds a keyword exactly when
   * one lowercased token does.
   */
  lemma CmdlineMatchesTokens(p: ProcessInfo)
    ensures CmdlineMatches(p) <==>
      exists k, w | 0 <= k < |p.cmdline| && w in MinerKeywords :: Contains(Lower(p.cmdline[k]), w)
  {
    LowerJoin(p.cmdline);
    var tokens := LowerAll(p.cmdline);
    if CmdlineMatches(p) {
      var w :| w in MinerKeywords && Contains(Lower(JoinSpaces(p.cmdline)), w);
      MinerKeywordsPlain();
      ContainsSplit(tokens, w);
      var k :| 0 <= k < |tokens| && Contains(tokens[k], w);
      assert Contains(Lower(p.cmdline[k]), w);
    }
    if exists k, w | 0 <= k < |p.cmdline| && w in MinerKeywords :: Contains(Lower(p.cmdline[k]), w) {
      var k, w :| 0 <= k < |p.cmdline| && w in MinerKeywords && Contains(Lower(p.cmdline[k]), w);
      ContainsJoined(tokens, k, w);
    }
  }

  /** Every process-scan finding is a suspicious-process record. */
  lemma {:induction false} ScanProcessesKinds(ps: seq<ProcessInfo>)
    ensures var r := ScanProcesses(ps);
      forall k | 0 <= k < |r| :: r[k].SuspiciousProcess?
  {
    if ps != [] && ps[0].accessible && ps[0].cpuPercent.Some? {
      ScanProcessesKinds(ps[1..]);
      var head := ProcessFindings(ps[0]);
      var r := ScanProcesses(ps);
      assert r == head + ScanProcesses(ps[1..]);
      forall k | 0 <= k < |r| ensures r[k].SuspiciousProcess? {
        if k >= |head| {
          assert r[k] == ScanProcesses(ps[1..])[k - |head|];
        }
      }
    } else if ps != [] && !ps[0].accessible {
      ScanProcessesKinds(ps[1..]);
    }
  }

  /** Scanning a concatenation: the second part is reached only if the first does not abort. */
  lemma {:induction false} ScanProcessesAppend(a: seq<ProcessInfo>, b: seq<ProcessInfo>)
    ensures ScanProcesses(a + b) == if AbortsIn(a) then ScanProcesses(a) else ScanProcesses(a) + ScanProcesses(b)
  {
    if a == [] {
      assert a + b == b;
    } else {
      var p0, tail := a[0], a[1..];
      assert (a + b)[0] == p0 && (a + b)[1..] == tail + b;
      ScanProcessesAppend(tail, b);
      assert AbortsIn(a) <==> Aborts(p0) || AbortsIn(tail) by {
        assert forall p :: p in a <==> p == p0 || p in tail;
      }
      if p0.accessible && p0.cpuPercent.Some? {
        var head := ProcessFindings(p0);
        assert ScanProcesses(a + b) == head + ScanProcesses(tail + b);
        assert ScanProcesses(a) == head + ScanProcesses(tail);
        ConcatAssoc(head, ScanProcesses(tail), ScanProcesses(b));
      }
    }
  }

  /** An inaccessible process produces no finding and does not stop the scan of later processes. */
  lemma InaccessibleSkipped(a: seq<ProcessInfo>, p: ProcessInfo, b: seq<ProcessInfo>)
    requires !p.accessible
    ensures ScanProcesses(a + [p] + b) == ScanProcesses(a + b)
  {
    ScanProcessesAppend(a, [p] + b);
    ScanProcessesAppend(a, b);
    assert a + [p] + b == a + ([p] + b);
    assert ([p] + b)[1..] == b;
  }

  /**
   * An accessible process without a cpu reading ends the scan: nothing after
   * it is examined, and the findings before it are returned.
   */
  lemma AbortStops(a: seq<ProcessInfo>, p: ProcessInfo, b: seq<ProcessInfo>)
    requires Aborts(p) && !AbortsIn(a)
    ensures ScanProcesses(a + [p] + b) == ScanProcesses(a)
  {
    assert a + [p] + b == a + ([p] + b);
    ScanProcessesAppend(a, [p] + b);
    assert ([p] + b)[0] == p;
    assert ScanProcesses([p] + b) == [];
  }

  /**
   * When no accessible process lacks a cpu reading, the scan reports exactly
   * the findings of the accessible flagged processes.
   */
  lemma {:induction false} ScanProcessesMembership(ps: seq<ProcessInfo>, f: Finding)
    requires !AbortsIn(ps)
    ensures f in ScanProcesses(ps) <==>
      exists p | p in ps :: p.accessible && p.cpuPercent.Some? && Flagged(p) && f == ProcessFinding(p)
  {
    if ps != [] {
      var p0, tail := ps[0], ps[1..];
      assert forall p :: p in ps <==> p == p0 || p in tail;
      assert !Aborts(p0) && !AbortsIn(tail);
      ScanProcessesMembership(tail, f);
      if p0.accessible {
        var head := ProcessFindings(p0);
        assert ScanProcesses(ps) == head + ScanProcesses(tail);
        assert f in head <==> Flagged(p0) && f == ProcessFinding(p0);
      } else {
        assert ScanProcesses(ps) == ScanProcesses(tail);
      }
    }
  }

  /** The process scan's critical findings are exactly its name matches. */
  lemma {:induction false} ScanProcessesCritical(ps: seq<ProcessInfo>)
    ensures CriticalCount(ScanProcesses(ps)) == NameMatchCount(ps)
  {
    if ps != [] {
      ScanProcessesCritical(ps[1..]);
      if ps[0].accessible && ps[0].cpuPercent.Some? {
        var head := ProcessFindings(ps[0]);
        CriticalCountAppend(head, ScanProcesses(ps[1..]));
        assert CriticalCount(head) == if NameMatches(ps[0]) then 1 else 0 by {
          if Flagged(ps[0]) {
            assert head[1..] == [];
          }
        }
      }
    }
  }

  /** Number of name-matching processes the scan reaches before any abort. */
  function NameMatchCount(ps: seq<ProcessInfo>): (n: nat)
  {
    if ps == [] then 0
    else if !ps[0].accessible then NameMatchCount(ps[1..])
    else if ps[0].cpuPercent.None? then 0
    else (if NameMatches(ps[0]) then 1 else 0) + NameMatchCount(ps[1..])
  }
}
