/**
 * The point-in-time telemetry snapshot the detector reads. The operating
 * system (process table, socket table, directory listings, resource
 * counters, wall clock) is not called: its answers arrive as this value.
 */
module Telemetry {

  datatype Option<T> = None | Some(value: T)

  /** `x or 0` for an optional percentage. */
  function OrZero(x: Option<real>): (v: real)
  {
    match x
    case None => 0.0
    case Some(v) => v
  }

  /**
   * One row of the process table. `accessible` is false when reading the row
   * raises NoSuchProcess or AccessDenied; a missing command line is the empty
   * token list (the detector reads it as `cmdline or []`).
   */
  datatype ProcessInfo = ProcessInfo(
    pid: nat,
    name: string,
    cpuPercent: Option<real>,
    memoryPercent: Option<real>,
    cmdline: seq<string>,
    accessible: bool)

  datatype Address = Address(ip: string, port: nat)

  /** One inet socket: its status, its local port and its remote address, if any. */
  datatype Connection = Connection(status: string, localPort: nat, remote: Option<Address>)

  /** The status string of an established TCP connection. */
  const Established := "ESTABLISHED"

  /** One name returned by listing a directory, with what `isfile` and `stat` report for it. */
  datatype DirEntry = DirEntry(name: string, isFile: bool, mtime: real)

  /** The result of listing an existing directory. */
  datatype Listing = PermissionDenied | Listed(entries: seq<DirEntry>)

  /**
   * The snapshot. A path absent from `directories` does not exist; `now` is
   * the wall-clock time in seconds; the three percentages are the host's cpu,
   * memory and root-disk usage; `pidCount` is the number of process ids.
   */
  datatype Snapshot = Snapshot(
    processes: seq<ProcessInfo>,
    connections: seq<Connection>,
    directories: map<string, Listing>,
    now: real,
    cpuPercent: real,
    memoryPercent: real,
    diskPercent: real,
    pidCount: nat)
}
