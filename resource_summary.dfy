/**
 * The top-resource summary: processes above 5% cpu or memory, the ten
 * largest by cpu (missing readings count as 0), and the cpu total over every
 * accessible process.
 */
module ResourceSummary {
  import opened Telemetry
  import opened Sequences
  import opened Catalog

  /** One reported row: the reading as the process table gave it, not defaulted. */
  datatype ProcessSample = ProcessSample(pid: nat, name: string, cpuPercent: Option<real>, memoryPercent: Option<real>)

  /** The sort key `cpu_percent or 0`. */
  function CpuKey(p: ProcessSample): (key: real)
  {
    OrZero(p.cpuPercent)
  }

  predicate Significant(p: ProcessInfo)
  {
    OrZero(p.cpuPercent) > ResourceFloorPercent || OrZero(p.memoryPercent) > ResourceFloorPercent
  }

  function Sample(p: ProcessInfo): (row: ProcessSample)
  {
    ProcessSample(p.pid, p.name, p.cpuPercent, p.memoryPercent)
  }

  /** The rows kept for the report, in process-table order. */
  function Kept(ps: seq<ProcessInfo>): (r: seq<ProcessSample>)
    ensures |r| <= |ps|
  {
    if ps == [] then []
    else (if ps[0].accessible && Significant(ps[0]) then [Sample(ps[0])] else []) + Kept(ps[1..])
  }

  /**
   * A row is kept exactly when it is the sample of an accessible process with
   * (cpu or 0) > 5 or (memory or 0) > 5.
   */
  lemma {:induction false} KeptMembership(ps: seq<ProcessInfo>, x: ProcessSample)
    ensures x in Kept(ps) <==> exists p | p in ps :: p.accessible && Significant(p) && x == Sample(p)
  {
    if ps != [] {
      assert forall p :: p in ps <==> p == ps[0] || p in ps[1..];
      KeptMembership(ps[1..], x);
    }
  }

  /** `sum(cpu_percent or 0)` over the accessible processes, kept or not. */
  function TotalCpu(ps: seq<ProcessInfo>): (total: real)
  {
    if ps == [] then 0.0
    else (if ps[0].accessible then OrZero(ps[0].cpuPercent) else 0.0) + TotalCpu(ps[1..])
  }

  predicate SortedByCpuDesc(s: seq<ProcessSample>)
  {
    forall i, j :: 0 <= i < j < |s| ==> CpuKey(s[i]) >= CpuKey(s[j])
  }

  /** Puts `x` after every row whose key is at least its own. */
  function InsertByCpu(s: seq<ProcessSample>, x: ProcessSample): (r: seq<ProcessSample>)
    ensures |r| == |s| + 1
    ensures multiset(r) == multiset(s) + multiset{x}
  {
    if s == [] then [x]
    else if CpuKey(s[0]) >= CpuKey(x) then
      assert s == [s[0]] + s[1..];
      [s[0]] + InsertByCpu(s[1..], x)
    else [x] + s
  }

  lemma {:induction false} InsertSorted(s: seq<ProcessSample>, x: ProcessSample)
    requires SortedByCpuDesc(s)
    ensures SortedByCpuDesc(InsertByCpu(s, x))
  {
    if s == [] {
    } else if CpuKey(s[0]) >= CpuKey(x) {
      var head, rest := s[0], s[1..];
      var tail := InsertByCpu(rest, x);
      SortedTail(s);
      InsertSorted(rest, x);
      forall y | y in tail ensures CpuKey(head) >= CpuKey(y) {
        assert y in multiset(tail);
        assert y in multiset(rest) || y == x;
        if y != x {
          var j :| 0 <= j < |rest| && rest[j] == y;
          assert s[j + 1] == y;
        }
      }
      SortedCons(head, tail);
      assert InsertByCpu(s, x) == [head] + tail;
    } else {
      forall y | y in s ensures CpuKey(x) >= CpuKey(y) {
        var j :| 0 <= j < |s| && s[j] == y;
        assert CpuKey(s[0]) >= CpuKey(s[j]) || j == 0;
      }
      SortedCons(x, s);
    }
  }

  /** A row at least as large as every row of a sorted list can go in front of it. */
  lemma SortedCons(h: ProcessSample, t: seq<ProcessSample>)
    requires SortedByCpuDesc(t)
    requires forall y | y in t :: CpuKey(h) >= CpuKey(y)
    ensures SortedByCpuDesc([h] + t)
  {
    var r := [h] + t;
    forall i, j | 0 <= i < j < |r| ensures CpuKey(r[i]) >= CpuKey(r[j]) {
      assert r[j] == t[j - 1];
      if i > 0 {
        assert r[i] == t[i - 1];
      } else {
        assert t[j - 1] in t;
      }
    }
  }

  /** Python's stable `sorted(rows, key=cpu or 0, reverse=True)`. */
  function SortByCpuDesc(s: seq<ProcessSample>): (r: seq<ProcessSample>)
    ensures |r| == |s|
    ensures multiset(r) == multiset(s)
    ensures SortedByCpuDesc(r)
  {
    if s == [] then []
    else
      assert s == s[..|s| - 1] + [s[|s| - 1]];
      InsertSorted(SortByCpuDesc(s[..|s| - 1]), s[|s| - 1]);
      InsertByCpu(SortByCpuDesc(s[..|s| - 1]), s[|s| - 1])
  }

  /** The rows of `s` whose key equals `k`, in order. */
  function WithKey(s: seq<ProcessSample>, k: real): (r: seq<ProcessSample>)
  {
    if s == [] then [] else (if CpuKey(s[0]) == k then [s[0]] else []) + WithKey(s[1..], k)
  }

  lemma {:induction false} WithKeyAppend(a: seq<ProcessSample>, b: seq<ProcessSample>, k: real)
    ensures WithKey(a + b, k) == WithKey(a, k) + WithKey(b, k)
  {
    if a == [] {
      assert a + b == b;
    } else {
      var h, t := a[0], a[1..];
      var hk := if CpuKey(h) == k then [h] else [];
      assert a == [h] + t && a + b == [h] + (t + b);
      WithKeyCons(h, t + b, k);
      WithKeyCons(h, t, k);
      WithKeyAppend(t, b, k);
      ConcatAssoc(hk, WithKey(t, k), WithKey(b, k));
    }
  }

  lemma {:induction false} WithKeyNone(s: seq<ProcessSample>, k: real)
    requires forall i :: 0 <= i < |s| ==> CpuKey(s[i]) < k
    ensures WithKey(s, k) == []
  {
    if s != [] {
      WithKeyNone(s[1..], k);
    }
  }

  lemma {:induction false} InsertStable(s: seq<ProcessSample>, x: ProcessSample, k: real)
    requires SortedByCpuDesc(s)
    ensures WithKey(InsertByCpu(s, x), k) == WithKey(s, k) + (if CpuKey(x) == k then [x] else [])
    decreases |s|, 1
  {
    if s == [] {
      assert WithKey([x], k) == (if CpuKey(x) == k then [x] else []) + WithKey([], k);
    } else if CpuKey(s[0]) >= CpuKey(x) {
      InsertStableBehind(s, x, k);
    } else {
      InsertStableFront(s, x, k);
    }
  }

  /** `x` goes behind the head: the head's contribution comes first on both sides. */
  lemma {:induction false} InsertStableBehind(s: seq<ProcessSample>, x: ProcessSample, k: real)
    requires SortedByCpuDesc(s) && s != [] && CpuKey(s[0]) >= CpuKey(x)
    ensures WithKey(InsertByCpu(s, x), k) == WithKey(s, k) + (if CpuKey(x) == k then [x] else [])
    decreases |s|, 0
  {
    var head, rest := s[0], s[1..];
    var hx := if CpuKey(x) == k then [x] else [];
    var h0 := if CpuKey(head) == k then [head] else [];
    var tail := InsertByCpu(rest, x);
    assert InsertByCpu(s, x) == [head] + tail;
    WithKeyCons(head, tail, k);
    assert s == [head] + rest;
    WithKeyCons(head, rest, k);
    SortedTail(s);
    InsertStable(rest, x, k);
    ConcatAssoc(h0, WithKey(rest, k), hx);
  }

  lemma WithKeyCons(h: ProcessSample, t: seq<ProcessSample>, k: real)
    ensures WithKey([h] + t, k) == (if CpuKey(h) == k then [h] else []) + WithKey(t, k)
  {
    assert ([h] + t)[0] == h && ([h] + t)[1..] == t;
  }

  lemma SortedTail(s: seq<ProcessSample>)
    requires SortedByCpuDesc(s) && s != []
    ensures SortedByCpuDesc(s[1..])
  {
    forall i, j | 0 <= i < j < |s| - 1 ensures CpuKey(s[1..][i]) >= CpuKey(s[1..][j]) {
      assert s[1..][i] == s[i + 1] && s[1..][j] == s[j + 1];
    }
  }

  /** `x` goes in front of a list whose keys all exceed its own: no row of the list shares its key. */
  lemma {:induction false} InsertStableFront(s: seq<ProcessSample>, x: ProcessSample, k: real)
    requires SortedByCpuDesc(s) && s != [] && CpuKey(s[0]) < CpuKey(x)
    ensures WithKey(InsertByCpu(s, x), k) == WithKey(s, k) + (if CpuKey(x) == k then [x] else [])
  {
    var hx := if CpuKey(x) == k then [x] else [];
    var r := [x] + s;
    assert InsertByCpu(s, x) == r;
    assert r[0] == x && r[1..] == s;
    assert WithKey(r, k) == hx + WithKey(s, k);
    if CpuKey(x) == k {
      assert forall i :: 0 <= i < |s| ==> CpuKey(s[i]) <= CpuKey(s[0]);
      WithKeyNone(s, k);
    }
  }

  /** The sort is stable: rows with equal keys keep their process-table order. */
  lemma {:induction false} SortStable(s: seq<ProcessSample>, k: real)
    ensures WithKey(SortByCpuDesc(s), k) == WithKey(s, k)
  {
    if s != [] {
      var init, last := s[..|s| - 1], s[|s| - 1];
      assert s == init + [last];
      SortStable(init, k);
      assert SortByCpuDesc(s) == InsertByCpu(SortByCpuDesc(init), last);
      InsertStable(SortByCpuDesc(init), last, k);
      WithKeyAppend(init, [last], k);
      assert [last][1..] == [];
      assert WithKey([last], k) == (if CpuKey(last) == k then [last] else []) + WithKey([], k);
    }
  }

  datatype ProcessSummary = ProcessSummary(
    processCount: nat,
    highResourceProcesses: seq<ProcessSample>,
    totalCpuUsage: real,
    systemMemoryUsage: real)

  /**
   * Builds the report from the process table: at most ten significant rows,
   * largest cpu first, none of them beaten by a significant row left out.
   */
  method RunningProcessesSummary(ps: seq<ProcessInfo>, pidCount: nat, memoryUsage: real)
    returns (summary: ProcessSummary)
    ensures summary.highResourceProcesses == Take(SortByCpuDesc(Kept(ps)), TopProcessCount)
    ensures summary.totalCpuUsage == TotalCpu(ps)
    ensures summary.processCount == pidCount && summary.systemMemoryUsage == memoryUsage
    ensures |summary.highResourceProcesses| <= TopProcessCount
    ensures SortedByCpuDesc(summary.highResourceProcesses)
    ensures multiset(summary.highResourceProcesses) <= multiset(Kept(ps))
    ensures forall p, q | p in multiset(Kept(ps)) - multiset(summary.highResourceProcesses)
              && q in summary.highResourceProcesses :: CpuKey(q) >= CpuKey(p)
    ensures forall r | r in summary.highResourceProcesses ::
              exists p | p in ps :: p.accessible && Significant(p) && r == Sample(p)
  {
    var processes: seq<ProcessSample> := [];
    var totalCpu := 0.0;
    var i := 0;
    while i < |ps|
      invariant 0 <= i <= |ps|
      invariant processes + Kept(ps[i..]) == Kept(ps)
      invariant totalCpu + TotalCpu(ps[i..]) == TotalCpu(ps)
    {
      var info := ps[i];
      assert ps[i..][1..] == ps[i + 1..];
      ghost var before := processes;
      ghost var head := if info.accessible && Significant(info) then [Sample(info)] else [];
      if info.accessible {
        totalCpu := totalCpu + OrZero(info.cpuPercent);
        if OrZero(info.cpuPercent) > ResourceFloorPercent || OrZero(info.memoryPercent) > ResourceFloorPercent {
          processes := processes + [ProcessSample(info.pid, info.name, info.cpuPercent, info.memoryPercent)];
        }
      }
      assert processes == before + head;
      ConcatAssoc(before, head, Kept(ps[i + 1..]));
      i := i + 1;
    }
    assert ps[i..] == [];
    assert processes == Kept(ps) && totalCpu == TotalCpu(ps);
    var sorted := SortByCpuDesc(processes);
    var top := Take(sorted, TopProcessCount);
    TopRows(sorted, TopProcessCount);
    summary := ProcessSummary(pidCount, top, totalCpu, memoryUsage);
    TopRowsKept(ps, TopProcessCount);
  }

  /** Every reported row is the sample of an accessible, significant process. */
  lemma TopRowsKept(ps: seq<ProcessInfo>, n: nat)
    ensures forall r | r in Take(SortByCpuDesc(Kept(ps)), n) ::
              exists p | p in ps :: p.accessible && Significant(p) && r == Sample(p)
  {
    var sorted := SortByCpuDesc(Kept(ps));
    forall r | r in Take(sorted, n) ensures exists p | p in ps :: p.accessible && Significant(p) && r == Sample(p) {
      assert r in sorted;
      assert r in multiset(Kept(ps));
      KeptMembership(ps, r);
    }
  }

  /** A prefix of a sorted list holds its largest rows. */
  lemma TopRows(sorted: seq<ProcessSample>, n: nat)
    requires SortedByCpuDesc(sorted)
    ensures SortedByCpuDesc(Take(sorted, n))
    ensures multiset(Take(sorted, n)) <= multiset(sorted)
    ensures forall p, q | p in multiset(sorted) - multiset(Take(sorted, n))
              && q in Take(sorted, n) :: CpuKey(q) >= CpuKey(p)
  {
    var top := Take(sorted, n);
    var rest := sorted[|top|..];
    assert sorted == top + rest;
    LeftOutRows(top, rest);
  }

  /** Split a list into a head and a tail: what the head leaves out of the whole is the tail. */
  lemma LeftOutRows(top: seq<ProcessSample>, rest: seq<ProcessSample>)
    requires SortedByCpuDesc(top + rest)
    ensures SortedByCpuDesc(top)
    ensures multiset(top) <= multiset(top + rest)
    ensures forall p, q | p in multiset(top + rest) - multiset(top) && q in top :: CpuKey(q) >= CpuKey(p)
  {
    var all := top + rest;
    assert multiset(all) == multiset(top) + multiset(rest);
    assert multiset(all) - multiset(top) == multiset(rest);
    forall i, j | 0 <= i < j < |top| ensures CpuKey(top[i]) >= CpuKey(top[j]) {
      assert top[i] == all[i] && top[j] == all[j];
    }
    forall p, q | p in multiset(rest) && q in top
      ensures CpuKey(q) >= CpuKey(p)
    {
      var j :| 0 <= j < |rest| && rest[j] == p;
      var i :| 0 <= i < |top| && top[i] == q;
      assert all[|top| + j] == p && all[i] == q;
    }
  }
}
