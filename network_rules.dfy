/**
 * The network classifier. Only established connections with a remote
 * address are examined; each can raise a "high" finding for a suspicious
 * port and, independently, a "critical" finding for a suspicious remote IP.
 */
module NetworkRules {
  import opened Text
  import opened Telemetry
  import opened Sequences
  import opened Catalog
  import opened Findings

  /** Second octet 16..31 written as two characters: `1[6-9]|2[0-9]|3[0-1]`. */
  predicate Octet16To31(a: char, b: char)
  {
    (a == '1' && '6' <= b <= '9') || (a == '2' && '0' <= b <= '9') || (a == '3' && '0' <= b <= '1')
  }

  /** The anchored pattern `^172\.(1[6-9]|2[0-9]|3[0-1])\.`. */
  predicate In172Block(ip: string)
  {
    |ip| >= 7 && StartsWith(ip, "172.") && Octet16To31(ip[4], ip[5]) && ip[6] == '.'
  }

  /** True when any of the anchored address patterns matches the start of `ip`. */
  predicate IsSuspiciousIp(ip: string)
  {
    || StartsWith(ip, "0.")
    || StartsWith(ip, "127.")
    || StartsWith(ip, "255.")
    || StartsWith(ip, "10.")
    || In172Block(ip)
    || StartsWith(ip, "192.168.")
  }

  /** The text form `a.b.c.d` of an IPv4 address. */
  function DottedQuad(a: nat, b: nat, c: nat, d: nat): (ip: string)
  {
    Decimal(a) + "." + (Decimal(b) + "." + (Decimal(c) + "." + Decimal(d)))
  }

  /** A rendered number followed by a dot starts with `w.` exactly when it renders as `w`. */
  lemma DecimalDotPrefix(n: nat, w: string, rest: string)
    requires AllDigits(w)
    ensures StartsWith(Decimal(n) + "." + rest, w + ".") <==> Decimal(n) == w
  {
    var s := Decimal(n) + "." + rest;
    var d := Decimal(n);
    var p := w + ".";
    assert forall i :: 0 <= i < |d| ==> s[i] == d[i];
    assert s[|d|] == '.';
    if StartsWith(s, p) {
      assert forall i :: 0 <= i < |w| ==> s[i] == w[i];
      assert s[|w|] == '.';
      assert |d| == |w|;
      assert d == s[..|d|] == w;
    }
    if d == w {
      assert s[..|p|] == p;
    }
  }

  /** The anchored pattern `^w\.` matches `a.tail` exactly when `a` is the number `m` written `w`. */
  lemma FirstOctet(a: nat, tail: string, w: string, m: nat)
    requires Decimal(m) == w
    ensures StartsWith(Decimal(a) + "." + tail, w + ".") <==> a == m
  {
    DecimalDotPrefix(a, w, tail);
    if Decimal(a) == w {
      DecimalInjective(a, m);
    }
  }

  /** The second octet test: `172.` followed by a rendered number `n` and a dot. */
  lemma {:induction false} SecondOctet(n: nat, rest: string)
    ensures In172Block("172." + (Decimal(n) + "." + rest)) <==> 16 <= n <= 31
  {
    var ip := "172." + (Decimal(n) + "." + rest);
    var d := Decimal(n);
    assert ip[..4] == "172.";
    assert forall i :: 0 <= i < |d| ==> ip[4 + i] == d[i];
    assert ip[4 + |d|] == '.';
    if n < 10 {
      assert ip[5] == '.';
    } else if n < 100 {
      assert d == Decimal(n / 10) + [DigitChar(n % 10)];
      assert Decimal(n / 10) == [DigitChar(n / 10)];
      assert ip[4] == DigitChar(n / 10) && ip[5] == DigitChar(n % 10) && ip[6] == '.';
    } else {
      assert IsDigit(ip[6]);
    }
  }

  /** The 172.16.0.0/12 block on a dotted quad. */
  lemma DottedQuad172(a: nat, b: nat, c: nat, d: nat)
    ensures In172Block(DottedQuad(a, b, c, d)) <==> a == 172 && 16 <= b <= 31
  {
    var rest := Decimal(c) + "." + Decimal(d);
    var tail := Decimal(b) + "." + rest;
    var ip := DottedQuad(a, b, c, d);
    FirstOctet(a, tail, "172", 172);
    assert StartsWith(ip, "172.") <==> a == 172 by {
      assert "172" + "." == "172.";
    }
    if a == 172 {
      assert ip == "172." + tail;
      SecondOctet(b, rest);
    }
  }

  /** The 192.168.0.0/16 block on a dotted quad. */
  lemma DottedQuad192(a: nat, b: nat, c: nat, d: nat)
    ensures StartsWith(DottedQuad(a, b, c, d), "192.168.") <==> a == 192 && b == 168
  {
    var rest := Decimal(c) + "." + Decimal(d);
    var tail := Decimal(b) + "." + rest;
    var ip := DottedQuad(a, b, c, d);
    FirstOctet(a, tail, "192", 192);
    FirstOctet(b, rest, "168", 168);
    assert "192.168." == "192." + "168.";
    StartsWithPrefix(ip, "192.", "168.");
    if a == 192 {
      assert ip == "192." + tail;
      StartsWithAfter("192.", tail, "168.");
    }
  }

  /**
   * The address check on a dotted quad, stated on the numbers: 0.x, 127.x,
   * 255.x and 10.x, 172.16-31.x, and 192.168.x are suspicious, nothing else.
   */
  lemma DottedQuadSuspicious(a: nat, b: nat, c: nat, d: nat)
    ensures IsSuspiciousIp(DottedQuad(a, b, c, d)) <==>
      a == 0 || a == 127 || a == 255 || a == 10 || (a == 172 && 16 <= b <= 31) || (a == 192 && b == 168)
  {
    var tail := Decimal(b) + "." + (Decimal(c) + "." + Decimal(d));
    FirstOctet(a, tail, "0", 0);
    assert "0" + "." == "0.";
    FirstOctet(a, tail, "127", 127);
    assert "127" + "." == "127.";
    FirstOctet(a, tail, "255", 255);
    assert "255" + "." == "255.";
    FirstOctet(a, tail, "10", 10);
    assert "10" + "." == "10.";
    DottedQuad172(a, b, c, d);
    DottedQuad192(a, b, c, d);
  }

  lemma Examples()
    ensures !IsSuspiciousIp(DottedQuad(8, 8, 8, 8))
    ensures !IsSuspiciousIp(DottedQuad(172, 32, 0, 1))
    ensures IsSuspiciousIp(DottedQuad(172, 16, 0, 1))
    ensures IsSuspiciousIp(DottedQuad(10, 0, 0, 5))
  {
    DottedQuadSuspicious(8, 8, 8, 8);
    DottedQuadSuspicious(172, 32, 0, 1);
    DottedQuadSuspicious(172, 16, 0, 1);
    DottedQuadSuspicious(10, 0, 0, 5);
  }

  /** An established connection with a remote endpoint: the only kind examined. */
  predicate Considered(c: Connection)
  {
    c.status == Established && c.remote.Some?
  }

  predicate PortHit(c: Connection)
    requires c.remote.Some?
  {
    c.remote.value.port in SuspiciousPorts || c.localPort in SuspiciousPorts
  }

  predicate IpHit(c: Connection)
    requires c.remote.Some?
  {
    IsSuspiciousIp(c.remote.value.ip)
  }

  const PortNote := "Connection to suspicious port "
  const IpNote := "Connection to potentially malicious IP: "

  function PortFinding(c: Connection): (f: Finding)
    requires c.remote.Some?
    ensures f.SuspiciousConnection? && f.severity == High
    ensures f.id == "net-" + Decimal(c.localPort) + "-" + Decimal(c.remote.value.port)
  {
    var r := c.remote.value;
    SuspiciousConnection(
      "net-" + Decimal(c.localPort) + "-" + Decimal(r.port), c.localPort, r.ip, r.port, High,
      PortNote + Decimal(r.port))
  }

  function IpFinding(c: Connection): (f: Finding)
    requires c.remote.Some?
    ensures f.MaliciousIp? && f.severity == Critical
    ensures f.id == "ip-" + c.remote.value.ip
  {
    var r := c.remote.value;
    MaliciousIp("ip-" + r.ip, r.ip, r.port, Critical, IpNote + r.ip)
  }

  /** The findings for one connection: the port finding, if any, then the IP finding, if any. */
  function ConnectionFindings(c: Connection): (r: seq<Finding>)
  {
    if !Considered(c) then []
    else (if PortHit(c) then [PortFinding(c)] else []) + (if IpHit(c) then [IpFinding(c)] else [])
  }

  /** One connection yields at most two findings, the port finding before the IP finding. */
  lemma ConnectionFindingsShape(c: Connection)
    ensures var r := ConnectionFindings(c);
      && |r| == (if Considered(c) && PortHit(c) then 1 else 0) + (if Considered(c) && IpHit(c) then 1 else 0)
      && |r| <= 2
      && (Considered(c) && PortHit(c) ==> r[0] == PortFinding(c))
      && (Considered(c) && IpHit(c) ==> r[|r| - 1] == IpFinding(c))
  {
  }

  function ScanConnections(cs: seq<Connection>): (r: seq<Finding>)
    ensures |r| <= 2 * |cs|
  {
    if cs == [] then [] else ConnectionFindings(cs[0]) + ScanConnections(cs[1..])
  }

  /** The body of the scan for one connection: the findings it appends, in order. */
  method ExamineConnection(conn: Connection) returns (found: seq<Finding>)
    ensures found == ConnectionFindings(conn)
  {
    found := [];
    if conn.status == Established && conn.remote.Some? {
      var remoteIp := conn.remote.value.ip;
      if PortHit(conn) {
        found := found + [PortFinding(conn)];
      }
      ghost var portPart := found;
      if IsSuspiciousIp(remoteIp) {
        found := found + [IpFinding(conn)];
      }
      assert found == portPart + (if IpHit(conn) then [IpFinding(conn)] else []);
    }
  }

  method DetectNetworkAnomalies(cs: seq<Connection>) returns (anomalies: seq<Finding>)
    ensures anomalies == ScanConnections(cs)
  {
    anomalies := [];
    var i := 0;
    while i < |cs|
      invariant 0 <= i <= |cs|
      invariant anomalies + ScanConnections(cs[i..]) == ScanConnections(cs)
    {
      var conn := cs[i];
      assert cs[i..][1..] == cs[i + 1..];
      var found := ExamineConnection(conn);
      ConcatAssoc(anomalies, found, ScanConnections(cs[i + 1..]));
      anomalies := anomalies + found;
      i := i + 1;
    }
    assert cs[i..] == [];
  }

  lemma {:induction false} ScanConnectionsAppend(a: seq<Connection>, b: seq<Connection>)
    ensures ScanConnections(a + b) == ScanConnections(a) + ScanConnections(b)
  {
    if a == [] {
      assert a + b == b;
    } else {
      assert (a + b)[0] == a[0];
      assert (a + b)[1..] == a[1..] + b;
      ScanConnectionsAppend(a[1..], b);
    }
  }

  /** A connection that is not established, or has no remote address, changes nothing. */
  lemma IgnoredConnection(a: seq<Connection>, c: Connection, b: seq<Connection>)
    requires !Considered(c)
    ensures ScanConnections(a + [c] + b) == ScanConnections(a + b)
  {
    assert a + [c] + b == a + ([c] + b);
    ScanConnectionsAppend(a, [c] + b);
    ScanConnectionsAppend(a, b);
    assert ([c] + b)[0] == c && ([c] + b)[1..] == b;
    assert ScanConnections([c] + b) == ScanConnections(b);
  }

  /**
   * Every network finding comes from an examined connection: a port finding
   * when a port is in the list, an IP finding when the address is suspicious;
   * and each such connection's findings are all reported.
   */
  lemma {:induction false} ScanConnectionsMembership(cs: seq<Connection>, f: Finding)
    ensures f in ScanConnections(cs) <==>
      exists c | c in cs :: Considered(c) &&
        ((PortHit(c) && f == PortFinding(c)) || (IpHit(c) && f == IpFinding(c)))
  {
    if cs != [] {
      assert forall c :: c in cs <==> c == cs[0] || c in cs[1..];
      ScanConnectionsMembership(cs[1..], f);
    }
  }

  /** Number of examined connections whose remote address is suspicious. */
  function SuspiciousIpCount(cs: seq<Connection>): (n: nat)
  {
    if cs == [] then 0
    else (if Considered(cs[0]) && IpHit(cs[0]) then 1 else 0) + SuspiciousIpCount(cs[1..])
  }

  /** The network scan's critical findings are exactly its IP findings. */
  lemma {:induction false} ScanConnectionsCritical(cs: seq<Connection>)
    ensures CriticalCount(ScanConnections(cs)) == SuspiciousIpCount(cs)
  {
    if cs != [] {
      var c := cs[0];
      ScanConnectionsCritical(cs[1..]);
      CriticalCountAppend(ConnectionFindings(c), ScanConnections(cs[1..]));
      if Considered(c) {
        var p := if PortHit(c) then [PortFinding(c)] else [];
        var q := if IpHit(c) then [IpFinding(c)] else [];
        CriticalCountAppend(p, q);
        assert CriticalCount(p) == 0 by {
          if PortHit(c) { assert p[1..] == []; }
        }
        assert CriticalCount(q) == if IpHit(c) then 1 else 0 by {
          if IpHit(c) { assert q[1..] == []; }
        }
      }
    }
  }
}
