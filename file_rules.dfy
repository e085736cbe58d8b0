/**
 * The file classifier: in each high-risk directory that exists and can be
 * listed, every regular file modified less than an hour before `now` is
 * reported as a "medium" finding. Directories are not descended into.
 */
module FileRules {
  import opened Text
  import opened Telemetry
  import opened Sequences
  import opened Catalog
  import opened Findings

  /**
   * `os.path.join(directory, name)`: an absolute `name` replaces the
   * directory; otherwise a "/" is inserted unless the directory is empty or
   * already ends with one.
   */
  function JoinPath(directory: string, name: string): (path: string)
    ensures |name| > 0 && name[0] == '/' ==> path == name
    ensures !(|name| > 0 && name[0] == '/') && |directory| > 0 && directory[|directory| - 1] != '/' ==>
      path == directory + "/" + name
    ensures |path| >= |name| && path[|path| - |name|..] == name
  {
    if |name| > 0 && name[0] == '/' then name
    else if directory == [] || directory[|directory| - 1] == '/' then directory + name
    else directory + "/" + name
  }

  /** "file-" and the first eight characters of the hex digest of the path. */
  function FileId(path: string, md5Hex: string -> string): (id: string)
  {
    "file-" + Take(md5Hex(path), 8)
  }

  predicate Recent(e: DirEntry, now: real)
  {
    e.isFile && now - e.mtime < RecentWindowSeconds
  }

  const RecentFileNote := "Recently modified file in sensitive directory: "

  /** The finding for a recent regular file `e` listed in `directory`. */
  function FileFinding(directory: string, e: DirEntry, md5Hex: string -> string): (f: Finding)
    ensures f.SuspiciousFile? && f.severity == Medium && f.directory == directory
    ensures f.filepath == JoinPath(directory, e.name) && f.id == FileId(f.filepath, md5Hex)
  {
    var path := JoinPath(directory, e.name);
    SuspiciousFile(
      FileId(path, md5Hex), path, directory, e.mtime, Medium,
      RecentFileNote + e.name)
  }

  /** The findings for the entries of one listed directory, in listing order. */
  function ScanEntries(directory: string, es: seq<DirEntry>, now: real, md5Hex: string -> string): (r: seq<Finding>)
    ensures |r| <= |es|
  {
    if es == [] then []
    else
      var head := if Recent(es[0], now) then [FileFinding(directory, es[0], md5Hex)] else [];
      head + ScanEntries(directory, es[1..], now, md5Hex)
  }

  /** A directory that does not exist, or whose listing is denied, contributes nothing. */
  function ScanDirectory(directory: string, fs: map<string, Listing>, now: real, md5Hex: string -> string): (r: seq<Finding>)
  {
    if directory !in fs then []
    else match fs[directory]
      case PermissionDenied => []
      case Listed(es) => ScanEntries(directory, es, now, md5Hex)
  }

  function ScanDirectories(dirs: seq<string>, fs: map<string, Listing>, now: real, md5Hex: string -> string): (r: seq<Finding>)
  {
    if dirs == [] then []
    else ScanDirectory(dirs[0], fs, now, md5Hex) + ScanDirectories(dirs[1..], fs, now, md5Hex)
  }

  /** Every file finding is a "medium" file record naming one of the scanned directories. */
  lemma {:induction false} ScanDirectoriesShape(dirs: seq<string>, fs: map<string, Listing>, now: real, md5Hex: string -> string)
    ensures forall f | f in ScanDirectories(dirs, fs, now, md5Hex) ::
      f.SuspiciousFile? && f.severity == Medium && f.directory in dirs
  {
    if dirs != [] {
      ScanDirectoryShape(dirs[0], fs, now, md5Hex);
      ScanDirectoriesShape(dirs[1..], fs, now, md5Hex);
      assert forall d | d in dirs[1..] :: d in dirs;
    }
  }

  lemma ScanDirectoryShape(directory: string, fs: map<string, Listing>, now: real, md5Hex: string -> string)
    ensures forall f | f in ScanDirectory(directory, fs, now, md5Hex) ::
      f.SuspiciousFile? && f.severity == Medium && f.directory == directory
  {
    if directory in fs && fs[directory].Listed? {
      forall f | f in ScanEntries(directory, fs[directory].entries, now, md5Hex)
        ensures f.SuspiciousFile? && f.severity == Medium && f.directory == directory
      {
        ScanEntriesMembership(directory, fs[directory].entries, now, md5Hex, f);
      }
    }
  }

  /** The inner loop: the findings for the entries of one listed directory. */
  method ScanListing(directory: string, es: seq<DirEntry>, now: real, md5Hex: string -> string)
    returns (found: seq<Finding>)
    ensures found == ScanEntries(directory, es, now, md5Hex)
  {
    found := [];
    var j := 0;
    while j < |es|
      invariant 0 <= j <= |es|
      invariant found + ScanEntries(directory, es[j..], now, md5Hex) == ScanEntries(directory, es, now, md5Hex)
    {
      var e := es[j];
      assert es[j..][1..] == es[j + 1..];
      ghost var head := if Recent(e, now) then [FileFinding(directory, e, md5Hex)] else [];
      assert ScanEntries(directory, es[j..], now, md5Hex) == head + ScanEntries(directory, es[j + 1..], now, md5Hex);
      ConcatAssoc(found, head, ScanEntries(directory, es[j + 1..], now, md5Hex));
      if e.isFile {
        if now - e.mtime < RecentWindowSeconds {
          found := found + [FileFinding(directory, e, md5Hex)];
        }
      }
      j := j + 1;
    }
    assert es[j..] == [];
  }

  /**
   * The scan over the detector's high-risk directory list `dirs` (the
   * detector passes Catalog.HighRiskDirectories), one directory at a time.
   */
  method DetectFileAnomalies(dirs: seq<string>, fs: map<string, Listing>, now: real, md5Hex: string -> string)
    returns (anomalies: seq<Finding>)
    ensures anomalies == ScanDirectories(dirs, fs, now, md5Hex)
  {
    anomalies := [];
    var i := 0;
    while i < |dirs|
      invariant 0 <= i <= |dirs|
      invariant anomalies + ScanDirectories(dirs[i..], fs, now, md5Hex) == ScanDirectories(dirs, fs, now, md5Hex)
    {
      var directory := dirs[i];
      assert dirs[i..][1..] == dirs[i + 1..];
      ghost var rest := ScanDirectories(dirs[i + 1..], fs, now, md5Hex);
      ghost var here := ScanDirectory(directory, fs, now, md5Hex);
      assert ScanDirectories(dirs[i..], fs, now, md5Hex) == here + rest;
      ConcatAssoc(anomalies, here, rest);
      // a missing directory or a PermissionError from the listing adds nothing
      if directory in fs && fs[directory].Listed? {
        var found := ScanListing(directory, fs[directory].entries, now, md5Hex);
        assert found == here;
        anomalies := anomalies + found;
      } else {
        assert here == [];
      }
      i := i + 1;
    }
    assert dirs[i..] == [];
  }

  /** Exactly the recent regular files of a listing are reported, each once per entry. */
  lemma {:induction false} ScanEntriesMembership(
    directory: string, es: seq<DirEntry>, now: real, md5Hex: string -> string, f: Finding)
    ensures f in ScanEntries(directory, es, now, md5Hex) <==>
      exists e | e in es :: Recent(e, now) && f == FileFinding(directory, e, md5Hex)
  {
    if es != [] {
      assert forall e :: e in es <==> e == es[0] || e in es[1..];
      ScanEntriesMembership(directory, es[1..], now, md5Hex, f);
    }
  }

  /**
   * A file finding exists exactly for a recent regular file listed directly
   * in one of the scanned directories that exists and could be listed.
   */
  lemma {:induction false} ScanDirectoriesMembership(
    dirs: seq<string>, fs: map<string, Listing>, now: real, md5Hex: string -> string, f: Finding)
    ensures f in ScanDirectories(dirs, fs, now, md5Hex) <==>
      exists d | d in dirs && d in fs && fs[d].Listed? ::
        exists e | e in fs[d].entries :: Recent(e, now) && f == FileFinding(d, e, md5Hex)
  {
    if dirs != [] {
      var d := dirs[0];
      assert forall x :: x in dirs <==> x == d || x in dirs[1..];
      ScanDirectoriesMembership(dirs[1..], fs, now, md5Hex, f);
      if d in fs && fs[d].Listed? {
        ScanEntriesMembership(d, fs[d].entries, now, md5Hex, f);
      }
    }
  }

  /** No file finding is critical. */
  lemma {:induction false} ScanDirectoriesNoCritical(
    dirs: seq<string>, fs: map<string, Listing>, now: real, md5Hex: string -> string)
    ensures CriticalCount(ScanDirectories(dirs, fs, now, md5Hex)) == 0
  {
    var r := ScanDirectories(dirs, fs, now, md5Hex);
    ScanDirectoriesShape(dirs, fs, now, md5Hex);
    NoCriticalFindings(r);
  }

  lemma {:induction false} NoCriticalFindings(r: seq<Finding>)
    requires forall f | f in r :: f.severity == Medium
    ensures CriticalCount(r) == 0
  {
    if r != [] {
      assert r[0] in r;
      assert forall f | f in r[1..] :: f in r;
      NoCriticalFindings(r[1..]);
    }
  }
}
