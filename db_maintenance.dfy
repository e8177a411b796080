// The backup and restore commands of the desktop shell
// (src-tauri/src/commands/db_maintenance.rs), over a filesystem of named
// files and directories.  Whether a filesystem call fails for a reason the
// model cannot see (permissions, a full disk, another volume) is a
// parameter; the clock reading is a parameter too.

module DbMaintenance {
  import opened Common

  type Bytes = seq<int>

  /** The files and directories on disk, by path. */
  datatype FsState = FsState(files: map<string, Bytes>, dirs: set<string>)

  /** `Path::exists`: a file or a directory. */
  predicate Exists(st: FsState, p: string)
  {
    p in st.files || p in st.dirs
  }

  /** The result of a filesystem step and the filesystem after it. */
  datatype Outcome = Outcome(result: Result<()>, fs: FsState)

  /**
   * A failure whose cause the model cannot see: None, or the text of the
   * error the call returns.
   */
  type Fault = Option<string>

  // The texts of the errors whose cause the model does see: Linux's for the
  // filesystem calls, SQLite's (as sqlx displays them) for the database.
  const NotFoundText: string := "No such file or directory (os error 2)"
  const IsDirectoryText: string := "Is a directory (os error 21)"
  const FileExistsText: string := "File exists (os error 17)"
  const CrossDeviceText: string := "Invalid cross-device link (os error 18)"
  const NotAFileText: string := "the source path is neither a regular file nor a symlink to a regular file"
  const OutputExistsText: string := "error returned from database: (code: 1) output file already exists"
  const CantOpenText: string := "error returned from database: (code: 14) unable to open database file"

  const DbFileName: string := "ats-chd-tools.db"

  /** `PathBuf::join` of a file name onto a directory. */
  function JoinPath(dir: string, name: string): (r: string)
    ensures IsSuffix(name, r)
  {
    if dir != [] && dir[|dir| - 1] == '/' then dir + name else dir + "/" + name
  }

  predicate IsSuffix(t: string, s: string)
  {
    |t| <= |s| && s[|s| - |t|..] == t
  }

  function DbPath(dir: string): string { JoinPath(dir, DbFileName) }

  // ---------------------------------------------------------------------
  // paths
  // ---------------------------------------------------------------------

  /** Index of the last `c` in `s`, if any. */
  function LastIndexOf(s: string, c: char): (r: Option<nat>)
    ensures r.Some? ==> r.value < |s| && s[r.value] == c && Lacks(s[r.value + 1..], c)
    ensures r.None? ==> Lacks(s, c)
  {
    if s == [] then None
    else if s[|s| - 1] == c then Some(|s| - 1)
    else
      var r := LastIndexOf(s[..|s| - 1], c);
      assert r.Some? ==> s[r.value + 1..] == s[..|s| - 1][r.value + 1..] + [s[|s| - 1]];
      r
  }

  /** Where the last component of `p` starts. */
  function NameStart(p: string): (k: nat)
    ensures k <= |p| && Lacks(p[k..], '/')
  {
    match LastIndexOf(p, '/')
    case Some(i) => i + 1
    case None => 0
  }

  /**
   * `Path::parent`: everything before the last component ("" for a bare
   * name, "/" for a name under the root); the root itself has none.
   */
  function Parent(p: string): (r: Option<string>)
    ensures r.Some? ==> |r.value| < |p|
  {
    if p == "/" || p == "" then None
    else
      var k := NameStart(p);
      if k == 0 then Some("")
      else if k == 1 then Some("/")
      else Some(p[..k - 1])
  }

  /**
   * `Path::with_extension`: the extension of the last component (after its
   * last dot, unless that dot starts the name) is replaced, or added.
   */
  function WithExtension(p: string, ext: string): (r: string)
    ensures IsPrefix(p[..NameStart(p)], r)
    ensures (p[NameStart(p)..] == "" || p[NameStart(p)..] == "..") ==> r == p
    ensures !(p[NameStart(p)..] == "" || p[NameStart(p)..] == "..") ==> IsSuffix("." + ext, r)
  {
    var k := NameStart(p);
    var name := p[k..];
    if name == "" || name == ".." then p
    else
      match LastIndexOf(name, '.')
      case Some(d) =>
        if d > 0 then p[..k + d] + "." + ext else p + "." + ext
      case None => p + "." + ext
  }

  /** The four sidecar files whose presence marks a live WAL database. */
  function Sidecars(from: string): (r: seq<string>)
    ensures |r| == 4
  {
    [WithExtension(from, "db-wal"), WithExtension(from, "db-shm"), from + "-wal", from + "-shm"]
  }

  // ---------------------------------------------------------------------
  // the timestamp of a restore's safety copy
  // ---------------------------------------------------------------------

  /** A UTC clock reading. */
  datatype Clock = Clock(year: nat, month: nat, day: nat, hour: nat, minute: nat, second: nat)

  predicate ValidClock(c: Clock)
  {
    c.year <= 9999 && 1 <= c.month <= 12 && 1 <= c.day <= 31 && c.hour < 24 && c.minute < 60 && c.second < 61
  }

  function Pow10(w: nat): (r: nat)
    ensures r >= 1
  {
    if w == 0 then 1 else 10 * Pow10(w - 1)
  }

  /** `n` in exactly `w` digits, zero-padded. */
  function Fixed(n: nat, w: nat): (r: string)
    ensures |r| == w
    ensures forall i :: 0 <= i < |r| ==> IsDigit(r[i])
  {
    if w == 0 then "" else Fixed(n / 10, w - 1) + [DigitChar(n % 10)]
  }

  /** A number below 10^w reads back from its padded digits. */
  lemma {:induction false} FixedRoundTrip(n: nat, w: nat)
    requires n < Pow10(w)
    ensures DigitsValue(Fixed(n, w)) == n
  {
    if w > 0 {
      FixedRoundTrip(n / 10, w - 1);
      var r := Fixed(n, w);
      assert r[..|r| - 1] == Fixed(n / 10, w - 1);
    }
  }

  /** chrono's `%Y%m%d-%H%M%S`. */
  function Stamp(c: Clock): (r: string)
    requires ValidClock(c)
    ensures |r| == 15 && r[8] == '-'
    ensures forall i :: 0 <= i < 15 && i != 8 ==> IsDigit(r[i])
  {
    Fixed(c.year, 4) + Fixed(c.month, 2) + Fixed(c.day, 2) + "-"
      + Fixed(c.hour, 2) + Fixed(c.minute, 2) + Fixed(c.second, 2)
  }

  /** The stamp reads back as the clock: year, month and second, for instance. */
  lemma StampReadsBack(c: Clock)
    requires ValidClock(c)
    ensures DigitsValue(Stamp(c)[..4]) == c.year
    ensures DigitsValue(Stamp(c)[4..6]) == c.month
    ensures DigitsValue(Stamp(c)[13..]) == c.second
  {
    var s := Stamp(c);
    assert s[..4] == Fixed(c.year, 4);
    assert s[4..6] == Fixed(c.month, 2);
    assert s[13..] == Fixed(c.second, 2);
    FixedRoundTrip(c.year, 4);
    FixedRoundTrip(c.month, 2);
    FixedRoundTrip(c.second, 2);
  }

  function BackupName(c: Clock): string
    requires ValidClock(c)
  {
    DbFileName + ".bak-" + Stamp(c)
  }

  const WalName: string := "ats-chd-tools.db-wal"
  const ShmName: string := "ats-chd-tools.db-shm"

  /** The safety copy is named apart from the database and its sidecars. */
  lemma BackupNameDistinct(c: Clock)
    requires ValidClock(c)
    ensures BackupName(c) != DbFileName && BackupName(c) != WalName && BackupName(c) != ShmName
  {
    var b := BackupName(c);
    assert |b| == 16 + 5 + 15;
    assert b[16] == '.';
    assert WalName[16] == '-';
  }

  // ---------------------------------------------------------------------
  // filesystem calls
  // ---------------------------------------------------------------------

  /** `remove_file`: fails on a missing file or a fault. */
  function Removed(st: FsState, p: string, fault: Fault): (o: Outcome)
    ensures o.result.Ok? <==> p in st.files && fault.None?
    ensures o.result.Ok? ==> o.fs == st.(files := st.files - {p})
    ensures o.result.Err? ==> o.fs == st
  {
    if p !in st.files then Outcome(Err(if p in st.dirs then IsDirectoryText else NotFoundText), st)
    else if fault.Some? then Outcome(Err(fault.value), st)
    else Outcome(Ok(()), st.(files := st.files - {p}))
  }

  /** `copy`: the source must be a file and the target not a directory. */
  function Copied(st: FsState, from: string, to: string, fault: Fault): (o: Outcome)
    ensures o.result.Ok? <==> from in st.files && to !in st.dirs && fault.None?
    ensures o.result.Ok? ==> o.fs == st.(files := st.files[to := st.files[from]])
    ensures o.result.Err? ==> o.fs == st
  {
    if from !in st.files then Outcome(Err(if from in st.dirs then NotAFileText else NotFoundText), st)
    else if to in st.dirs then Outcome(Err(IsDirectoryText), st)
    else if fault.Some? then Outcome(Err(fault.value), st)
    else Outcome(Ok(()), st.(files := st.files[to := st.files[from]]))
  }

  /** A file moved to another name; moving onto itself changes nothing. */
  function Move(files: map<string, Bytes>, from: string, to: string): (r: map<string, Bytes>)
    requires from in files
    ensures to in r && r[to] == files[from]
    ensures from != to ==> from !in r
    ensures forall p :: p != from && p != to ==> (p in r <==> p in files) && (p in r ==> r[p] == files[p])
  {
    if from == to then files else (files - {from})[to := files[from]]
  }

  /** How a `rename` goes, decided outside the model. */
  datatype RenameFault = NoRenameFault | CrossesDevices | OtherRenameFault(text: string)

  /** `rename` of a file: fails across devices, on a fault, or onto a directory. */
  function Renamed(st: FsState, from: string, to: string, fault: RenameFault): (o: Outcome)
    ensures o.result.Ok? <==> from in st.files && to !in st.dirs && fault == NoRenameFault
    ensures o.result.Ok? ==> o.fs == st.(files := Move(st.files, from, to))
    ensures o.result.Err? ==> o.fs == st
  {
    if from !in st.files then Outcome(Err(if from in st.dirs then IsDirectoryText else NotFoundText), st)
    else if to in st.dirs then Outcome(Err(IsDirectoryText), st)
    else if fault.CrossesDevices? then Outcome(Err(CrossDeviceText), st)
    else if fault.OtherRenameFault? then Outcome(Err(fault.text), st)
    else Outcome(Ok(()), st.(files := Move(st.files, from, to)))
  }

  /**
   * `create_dir_all` (the ancestors it also creates are not tracked).  The
   * empty path, the parent of a bare file name, is accepted with nothing
   * created.
   */
  function DirsCreated(st: FsState, d: string, fault: Fault): (o: Outcome)
    ensures d == "" ==> o == Outcome(Ok(()), st)
    ensures d != "" ==> (o.result.Ok? <==> fault.None? && d !in st.files)
    ensures d != "" && o.result.Ok? ==> o.fs == st.(dirs := st.dirs + {d})
    ensures o.result.Err? ==> o.fs == st
  {
    if d == "" then Outcome(Ok(()), st)
    else if d in st.files then Outcome(Err(FileExistsText), st)
    else if fault.Some? then Outcome(Err(fault.value), st)
    else Outcome(Ok(()), st.(dirs := st.dirs + {d}))
  }

  /**
   * SQLite's `VACUUM INTO`: writes a compacted copy of the database to a new
   * file; it refuses a target that already holds a non-empty file.  The copy
   * holds the same data, and is modelled as the same bytes.
   */
  function Vacuumed(st: FsState, db: string, target: string, fault: Fault): (o: Outcome)
    requires db in st.files
    ensures o.result.Ok? <==> fault.None? && target !in st.dirs && (target !in st.files || st.files[target] == [])
    ensures o.result.Ok? ==> o.fs == st.(files := st.files[target := st.files[db]])
    ensures o.result.Err? ==> o.fs == st
  {
    if target in st.dirs then Outcome(Err(CantOpenText), st)
    else if target in st.files && st.files[target] != [] then Outcome(Err(OutputExistsText), st)
    else if fault.Some? then Outcome(Err(fault.value), st)
    else Outcome(Ok(()), st.(files := st.files[target := st.files[db]]))
  }

  // ---------------------------------------------------------------------
  // backup_database
  // ---------------------------------------------------------------------

  /** The faults met along a backup. */
  datatype BackupFaults = BackupFaults(createDir: Fault, connect: Fault, vacuum: Fault,
                                       rename: RenameFault, copy: Fault, removeTemp: Fault)

  function TempPath(to: string): (t: string)
    ensures t != to
  {
    var t := to + ".tmp";
    assert |t| == |to| + 4;
    t
  }

  /**
   * Up to the connection: the app data directory must resolve, the primary
   * must exist and the target's parent is made.  `appDir` is the path
   * resolver's answer, its error text included.
   */
  function BackupPrepared(st: FsState, appDir: Result<string>, to: string, f: BackupFaults): (o: Outcome)
    ensures appDir.Err? ==> o == Outcome(Err("Failed to get app data dir: " + appDir.msg), st)
    ensures appDir.Ok? && !Exists(st, DbPath(appDir.value)) ==>
              o == Outcome(Err("Source database not found at: " + DbPath(appDir.value)), st)
    ensures o.result.Err? && appDir.Ok? && Exists(st, DbPath(appDir.value)) ==>
              IsPrefix("Failed to create target directory: ", o.result.msg)
    ensures o.result.Err? || (appDir.Ok? && Exists(st, DbPath(appDir.value)))
    ensures o.result.Ok? && Parent(to).Some? && Parent(to).value != "" ==> Exists(o.fs, Parent(to).value)
    ensures Parent(to) == Some("") ==> o.fs == st
    ensures o.fs.files == st.files && st.dirs <= o.fs.dirs
  {
    if appDir.Err? then Outcome(Err("Failed to get app data dir: " + appDir.msg), st)
    else if !Exists(st, DbPath(appDir.value)) then
      Outcome(Err("Source database not found at: " + DbPath(appDir.value)), st)
    else
      var parent := Parent(to);
      if parent.Some? && !Exists(st, parent.value) then
        var made := DirsCreated(st, parent.value, f.createDir);
        if made.result.Err? then Outcome(Err("Failed to create target directory: " + made.result.msg), made.fs)
        else made
      else Outcome(Ok(()), st)
  }

  /** Moving the finished snapshot from the temporary file to the target. */
  function Finalized(st: FsState, to: string, f: BackupFaults): (o: Outcome)
  {
    var temp := TempPath(to);
    match f.rename
    case NoRenameFault =>
      var mv := Renamed(st, temp, to, NoRenameFault);
      if mv.result.Ok? then mv
      else Outcome(Err("Failed to finalize backup file: " + mv.result.msg), Removed(st, temp, f.removeTemp).fs)
    case CrossesDevices =>
      var cp := Copied(st, temp, to, f.copy);
      if cp.result.Err? then
        Outcome(Err("Failed to copy backup file across devices: " + cp.result.msg), Removed(st, temp, f.removeTemp).fs)
      else
        var rm := Removed(cp.fs, temp, f.removeTemp);
        if rm.result.Err? then Outcome(Err("Failed to remove temporary file: " + rm.result.msg), rm.fs) else rm
    case OtherRenameFault(e) =>
      Outcome(Err("Failed to finalize backup file: " + e), Removed(st, temp, f.removeTemp).fs)
  }

  /** The export into the temporary file, then its move to the target. */
  function Exported(st: FsState, db: string, to: string, f: BackupFaults): (o: Outcome)
    requires db in st.files
  {
    var temp := TempPath(to);
    var snap := Vacuumed(st, db, temp, f.vacuum);
    if snap.result.Err? then
      Outcome(Err("Failed to backup database: " + snap.result.msg), Removed(st, temp, f.removeTemp).fs)
    else Finalized(snap.fs, to, f)
  }

  /** backup_database. */
  function Backup(st: FsState, appDir: Result<string>, to: string, f: BackupFaults): (o: Outcome)
  {
    var prep := BackupPrepared(st, appDir, to, f);
    if prep.result.Err? then prep
    else
      var db := DbPath(appDir.value);
      if f.connect.Some? then Outcome(Err("Failed to connect to database: " + f.connect.value), prep.fs)
      else if db !in prep.fs.files then Outcome(Err("Failed to connect to database: " + CantOpenText), prep.fs)
      else Exported(prep.fs, db, to, f)
  }

  /** The backup reached the export: primary present, parent made, connection open. */
  predicate ReachesExport(st: FsState, appDir: Result<string>, to: string, f: BackupFaults)
  {
    var prep := BackupPrepared(st, appDir, to, f);
    prep.result.Ok? && f.connect.None? && DbPath(appDir.value) in prep.fs.files
  }

  // Properties of a backup.

  /** Without the primary database the backup fails and touches nothing. */
  lemma BackupNeedsPrimary(st: FsState, dir: string, to: string, f: BackupFaults)
    requires !Exists(st, DbPath(dir))
    ensures Backup(st, Ok(dir), to, f).result == Err("Source database not found at: " + DbPath(dir))
    ensures Backup(st, Ok(dir), to, f).fs == st
  {
  }

  /**
   * A missing parent of the target is created before the export; a bare
   * file name's parent is "", which is accepted without creating anything.
   */
  lemma BackupMakesParent(st: FsState, dir: string, to: string, f: BackupFaults)
    requires Exists(st, DbPath(dir)) && f.createDir.None?
    requires Parent(to).Some? && !Exists(st, Parent(to).value)
    ensures Parent(to).value != "" ==> Parent(to).value in Backup(st, Ok(dir), to, f).fs.dirs
    ensures Parent(to).value == "" ==> BackupPrepared(st, Ok(dir), to, f) == Outcome(Ok(()), st)
  {
    var prep := BackupPrepared(st, Ok(dir), to, f);
    if Parent(to).value != "" {
      assert Parent(to).value in prep.fs.dirs;
      BackupKeepsDirs(st, Ok(dir), to, f);
    }
  }

  /** A target given as a bare file name passes the checks with nothing created, whatever the faults. */
  lemma BackupBareName(st: FsState, dir: string, name: string, f: BackupFaults)
    requires Exists(st, DbPath(dir)) && name != "" && Lacks(name, '/')
    ensures Parent(name) == Some("")
    ensures BackupPrepared(st, Ok(dir), name, f) == Outcome(Ok(()), st)
  {
    assert LastIndexOf(name, '/').None?;
  }

  lemma BackupKeepsDirs(st: FsState, appDir: Result<string>, to: string, f: BackupFaults)
    ensures BackupPrepared(st, appDir, to, f).fs.dirs <= Backup(st, appDir, to, f).fs.dirs
  {
    var prep := BackupPrepared(st, appDir, to, f);
    if prep.result.Ok? && f.connect.None? && DbPath(appDir.value) in prep.fs.files {
      ExportedKeepsDirs(prep.fs, DbPath(appDir.value), to, f);
    }
  }

  lemma ExportedKeepsDirs(st: FsState, db: string, to: string, f: BackupFaults)
    requires db in st.files
    ensures Exported(st, db, to, f).fs.dirs == st.dirs
  {
    var snap := Vacuumed(st, db, TempPath(to), f.vacuum);
    if snap.result.Ok? {
      assert Finalized(snap.fs, to, f).fs.dirs == snap.fs.dirs;
    }
  }

  /** A successful backup leaves the snapshot at the target and no temporary file. */
  lemma BackupSuccess(st: FsState, appDir: Result<string>, to: string, f: BackupFaults)
    requires Backup(st, appDir, to, f).result.Ok?
    ensures appDir.Ok? && DbPath(appDir.value) in st.files
    ensures var fs := Backup(st, appDir, to, f).fs;
            to in fs.files && fs.files[to] == st.files[DbPath(appDir.value)] && TempPath(to) !in fs.files
  {
    var prep := BackupPrepared(st, appDir, to, f);
    var db := DbPath(appDir.value);
    var temp := TempPath(to);
    var snap := Vacuumed(prep.fs, db, temp, f.vacuum);
    assert snap.fs.files[temp] == st.files[db];
  }

  /** The file at `p` is the same in both states, or absent from both. */
  predicate SameFile(a: FsState, b: FsState, p: string)
  {
    (p in b.files <==> p in a.files) && (p in b.files ==> b.files[p] == a.files[p])
  }

  lemma FinalizedFrame(st: FsState, to: string, f: BackupFaults, p: string)
    requires p != to && p != TempPath(to)
    ensures SameFile(st, Finalized(st, to, f).fs, p)
  {
    var temp := TempPath(to);
    match f.rename
    case NoRenameFault =>
      var mv := Renamed(st, temp, to, NoRenameFault);
      if mv.result.Err? {
        assert SameFile(st, Removed(st, temp, f.removeTemp).fs, p);
      }
    case CrossesDevices =>
      var cp := Copied(st, temp, to, f.copy);
      if cp.result.Err? {
        assert SameFile(st, Removed(st, temp, f.removeTemp).fs, p);
      } else {
        assert SameFile(st, cp.fs, p);
        assert SameFile(cp.fs, Removed(cp.fs, temp, f.removeTemp).fs, p);
      }
    case OtherRenameFault(_) =>
      assert SameFile(st, Removed(st, temp, f.removeTemp).fs, p);
  }

  lemma ExportedFrame(st: FsState, db: string, to: string, f: BackupFaults, p: string)
    requires db in st.files && p != to && p != TempPath(to)
    ensures SameFile(st, Exported(st, db, to, f).fs, p)
  {
    var snap := Vacuumed(st, db, TempPath(to), f.vacuum);
    if snap.result.Ok? {
      FinalizedFrame(snap.fs, to, f, p);
    }
  }

  /**
   * Only the target and its temporary file can change: every other file,
   * the primary database included, is as it was.
   */
  lemma BackupFrame(st: FsState, appDir: Result<string>, to: string, f: BackupFaults, p: string)
    requires p != to && p != TempPath(to)
    ensures SameFile(st, Backup(st, appDir, to, f).fs, p)
  {
    var prep := BackupPrepared(st, appDir, to, f);
    if prep.result.Ok? && f.connect.None? && DbPath(appDir.value) in prep.fs.files {
      ExportedFrame(prep.fs, DbPath(appDir.value), to, f, p);
    }
  }

  lemma FinalizedFailureKeepsTarget(st: FsState, to: string, f: BackupFaults)
    requires TempPath(to) in st.files && f.removeTemp.None?
    requires Finalized(st, to, f).result.Err?
    ensures SameFile(st, Finalized(st, to, f).fs, to)
  {
    var temp := TempPath(to);
    match f.rename
    case NoRenameFault =>
      assert SameFile(st, Removed(st, temp, f.removeTemp).fs, to);
    case CrossesDevices =>
      var cp := Copied(st, temp, to, f.copy);
      assert cp.result.Err?;
      assert SameFile(st, Removed(st, temp, f.removeTemp).fs, to);
    case OtherRenameFault(_) =>
      assert SameFile(st, Removed(st, temp, f.removeTemp).fs, to);
  }

  lemma ExportedFailureKeepsTarget(st: FsState, db: string, to: string, f: BackupFaults)
    requires db in st.files && f.removeTemp.None?
    requires Exported(st, db, to, f).result.Err?
    ensures SameFile(st, Exported(st, db, to, f).fs, to)
  {
    var temp := TempPath(to);
    var snap := Vacuumed(st, db, temp, f.vacuum);
    if snap.result.Err? {
      assert SameFile(st, Removed(st, temp, f.removeTemp).fs, to);
    } else {
      FinalizedFailureKeepsTarget(snap.fs, to, f);
      assert SameFile(st, snap.fs, to);
    }
  }

  /**
   * A backup that fails leaves the target as it was, unless the failure is
   * the last removal of the temporary file after a copy across devices.
   */
  lemma BackupFailureKeepsTarget(st: FsState, appDir: Result<string>, to: string, f: BackupFaults)
    requires Backup(st, appDir, to, f).result.Err? && f.removeTemp.None?
    ensures SameFile(st, Backup(st, appDir, to, f).fs, to)
  {
    var prep := BackupPrepared(st, appDir, to, f);
    if prep.result.Ok? && f.connect.None? && DbPath(appDir.value) in prep.fs.files {
      ExportedFailureKeepsTarget(prep.fs, DbPath(appDir.value), to, f);
    }
  }

  /**
   * The one failure after which the target holds the snapshot: a copy
   * across devices that succeeds followed by a failing removal of the
   * temporary file, which stays behind.
   */
  lemma BackupCopiedButTempKept(st: FsState, appDir: Result<string>, to: string, f: BackupFaults)
    requires ReachesExport(st, appDir, to, f)
    requires f.vacuum.None? && f.rename == CrossesDevices && f.copy.None? && f.removeTemp.Some?
    requires TempPath(to) !in st.files && to !in st.dirs && TempPath(to) !in st.dirs
    ensures var o := Backup(st, appDir, to, f);
            o.result.Err? && to in o.fs.files && o.fs.files[to] == st.files[DbPath(appDir.value)]
            && TempPath(to) in o.fs.files
  {
    var prep := BackupPrepared(st, appDir, to, f);
    var db := DbPath(appDir.value);
    var temp := TempPath(to);
    var snap := Vacuumed(prep.fs, db, temp, f.vacuum);
    assert snap.result.Ok? && snap.fs.files[temp] == st.files[db];
    var cp := Copied(snap.fs, temp, to, f.copy);
    assert cp.result.Ok? && cp.fs.files[to] == st.files[db];
    assert Removed(cp.fs, temp, f.removeTemp).fs == cp.fs;
  }

  /** Once the export is reached, the temporary file is gone unless its removal fails. */
  lemma BackupCleansTemp(st: FsState, appDir: Result<string>, to: string, f: BackupFaults)
    requires ReachesExport(st, appDir, to, f) && f.removeTemp.None?
    ensures TempPath(to) !in Backup(st, appDir, to, f).fs.files
  {
    var prep := BackupPrepared(st, appDir, to, f);
    var temp := TempPath(to);
    var snap := Vacuumed(prep.fs, DbPath(appDir.value), temp, f.vacuum);
    if snap.result.Ok? {
      FinalizedCleansTemp(snap.fs, to, f);
    }
  }

  lemma FinalizedCleansTemp(st: FsState, to: string, f: BackupFaults)
    requires TempPath(to) in st.files && f.removeTemp.None?
    ensures TempPath(to) !in Finalized(st, to, f).fs.files
  {
    var temp := TempPath(to);
    if f.rename == CrossesDevices {
      var cp := Copied(st, temp, to, f.copy);
      assert temp in cp.fs.files;
    }
  }

  // ---------------------------------------------------------------------
  // restore_database
  // ---------------------------------------------------------------------

  /** The faults met along a restore. */
  datatype RestoreFaults = RestoreFaults(renamePrimary: Fault, copy: Fault, removeWal: Fault, removeShm: Fault)

  predicate AnySidecar(st: FsState, from: string)
  {
    exists i :: 0 <= i < 4 && Exists(st, Sidecars(from)[i])
  }

  /** The best-effort removal of a sidecar of the restored database. */
  function Cleared(st: FsState, p: string, fault: Fault): (o: FsState)
    ensures p !in o.files || fault.Some?
    ensures forall q :: q != p ==> (q in o.files <==> q in st.files) && (q in o.files ==> o.files[q] == st.files[q])
    ensures o.dirs == st.dirs
  {
    if Exists(st, p) then Removed(st, p, fault).fs else st
  }

  /** restore_database. */
  function Restore(st: FsState, appDir: Result<string>, from: string, now: Clock, f: RestoreFaults): (o: Outcome)
    requires ValidClock(now)
  {
    if appDir.Err? then Outcome(Err("Failed to get app data dir: " + appDir.msg), st)
    else if !Exists(st, from) then Outcome(Err("Source file not found: " + from), st)
    else if AnySidecar(st, from) then Outcome(Err(LiveSourceText), st)
    else Replaced(st, appDir.value, from, now, f)
  }

  const LiveSourceText: string :=
    "Restore source appears to be a live WAL database. Please restore from an app-generated backup file (.sqlite)."

  /** How the rename of the primary fails, if a fault strikes it. */
  function RenameFaultOf(fault: Fault): RenameFault
  {
    if fault.Some? then OtherRenameFault(fault.value) else NoRenameFault
  }

  /** The existing primary, if any, renamed to its timestamped name. */
  function SetAside(st: FsState, dir: string, now: Clock, fault: Fault): (o: Outcome)
    requires ValidClock(now)
  {
    var db := DbPath(dir);
    if Exists(st, db) then Renamed(st, db, JoinPath(dir, BackupName(now)), RenameFaultOf(fault))
    else Outcome(Ok(()), st)
  }

  /** After the checks: the primary moved aside, the source copied in, the sidecars cleared. */
  function Replaced(st: FsState, dir: string, from: string, now: Clock, f: RestoreFaults): (o: Outcome)
    requires ValidClock(now)
  {
    var saved := SetAside(st, dir, now, f.renamePrimary);
    if saved.result.Err? then Outcome(Err("Failed to backup existing database: " + saved.result.msg), saved.fs)
    else
      var cp := Copied(saved.fs, from, DbPath(dir), f.copy);
      if cp.result.Err? then Outcome(Err("Failed to copy database file: " + cp.result.msg), cp.fs)
      else
        var walGone := Cleared(cp.fs, JoinPath(dir, WalName), f.removeWal);
        Outcome(Ok(()), Cleared(walGone, JoinPath(dir, ShmName), f.removeShm))
  }

  // Properties of a restore.

  /** A missing source fails the restore with nothing changed. */
  lemma RestoreNeedsSource(st: FsState, appDir: Result<string>, from: string, now: Clock, f: RestoreFaults)
    requires ValidClock(now) && !Exists(st, from)
    ensures Restore(st, appDir, from, now, f) == Outcome(Restore(st, appDir, from, now, f).result, st)
    ensures Restore(st, appDir, from, now, f).result.Err?
    ensures appDir.Ok? ==> Restore(st, appDir, from, now, f).result == Err("Source file not found: " + from)
  {
  }

  /** Any of the four sidecars next to the source refuses the restore, primary untouched. */
  lemma RestoreRefusesLiveSource(st: FsState, dir: string, from: string, now: Clock, f: RestoreFaults, i: nat)
    requires ValidClock(now) && Exists(st, from)
    requires i < 4 && Exists(st, Sidecars(from)[i])
    ensures Restore(st, Ok(dir), from, now, f).result == Err(LiveSourceText)
    ensures Restore(st, Ok(dir), from, now, f).fs == st
  {
  }

  /** Two paths in one directory with different names are different. */
  lemma JoinDistinct(dir: string, a: string, b: string)
    requires a != b && |a| == |b|
    ensures JoinPath(dir, a) != JoinPath(dir, b)
  {
    var x, y := JoinPath(dir, a), JoinPath(dir, b);
    assert x[|x| - |a|..] == a && y[|y| - |b|..] == b;
  }

  lemma JoinLonger(dir: string, a: string, b: string)
    requires |a| != |b|
    ensures JoinPath(dir, a) != JoinPath(dir, b)
  {
  }

  /**
   * A successful restore puts the source's bytes at the database path,
   * keeps the old database under its timestamped name, leaves the source as
   * it was, and removes the sidecars whose removal did not fail.
   */
  /** The old primary is kept under its timestamped name. */
  predicate SetAsideHolds(before: FsState, after: FsState, dir: string, now: Clock)
    requires ValidClock(now) && DbPath(dir) in before.files
  {
    JoinPath(dir, BackupName(now)) in after.files && after.files[JoinPath(dir, BackupName(now))] == before.files[DbPath(dir)]
  }

  lemma ReplacedSuccess(st: FsState, dir: string, from: string, now: Clock, f: RestoreFaults)
    requires ValidClock(now)
    requires from != JoinPath(dir, BackupName(now))
    requires from != JoinPath(dir, WalName) && from != JoinPath(dir, ShmName)
    requires Replaced(st, dir, from, now, f).result.Ok?
    ensures var fs := Replaced(st, dir, from, now, f).fs;
            && DbPath(dir) in fs.files && fs.files[DbPath(dir)] == st.files[from]
            && from in fs.files && fs.files[from] == st.files[from]
            && (DbPath(dir) in st.files ==> SetAsideHolds(st, fs, dir, now))
            && (f.removeWal.None? ==> JoinPath(dir, WalName) !in fs.files)
            && (f.removeShm.None? ==> JoinPath(dir, ShmName) !in fs.files)
  {
    var db := DbPath(dir);
    var bak := JoinPath(dir, BackupName(now));
    var wal, shm := JoinPath(dir, WalName), JoinPath(dir, ShmName);
    BackupNameDistinct(now);
    JoinLonger(dir, BackupName(now), DbFileName);
    JoinLonger(dir, BackupName(now), WalName);
    JoinLonger(dir, BackupName(now), ShmName);
    JoinLonger(dir, WalName, DbFileName);
    JoinLonger(dir, ShmName, DbFileName);
    JoinDistinct(dir, WalName, ShmName);
    var saved := SetAside(st, dir, now, f.renamePrimary);
    var cp := Copied(saved.fs, from, db, f.copy);
    assert saved.result.Ok? && cp.result.Ok?;
    assert from != db;
    assert SameFile(st, saved.fs, from);
    assert db in st.files ==> bak in saved.fs.files && saved.fs.files[bak] == st.files[db];
    var walGone := Cleared(cp.fs, wal, f.removeWal);
    var fs := Cleared(walGone, shm, f.removeShm);
  }

  lemma RestoreSuccess(st: FsState, dir: string, from: string, now: Clock, f: RestoreFaults)
    requires ValidClock(now)
    requires from != JoinPath(dir, BackupName(now))
    requires from != JoinPath(dir, WalName) && from != JoinPath(dir, ShmName)
    requires Restore(st, Ok(dir), from, now, f).result.Ok?
    ensures var fs := Restore(st, Ok(dir), from, now, f).fs;
            && DbPath(dir) in fs.files && fs.files[DbPath(dir)] == st.files[from]
            && from in fs.files && fs.files[from] == st.files[from]
            && (DbPath(dir) in st.files ==> SetAsideHolds(st, fs, dir, now))
            && (f.removeWal.None? ==> JoinPath(dir, WalName) !in fs.files)
            && (f.removeShm.None? ==> JoinPath(dir, ShmName) !in fs.files)
  {
    ReplacedSuccess(st, dir, from, now, f);
  }

  /**
   * A copy that fails after the primary was moved aside leaves no database
   * at the primary path; the old one survives under its timestamped name.
   */
  lemma RestoreCopyFailure(st: FsState, dir: string, from: string, now: Clock, f: RestoreFaults)
    requires ValidClock(now) && Exists(st, from) && !AnySidecar(st, from)
    requires DbPath(dir) in st.files && DbPath(dir) !in st.dirs && f.renamePrimary.None? && f.copy.Some?
    requires JoinPath(dir, BackupName(now)) !in st.dirs
    ensures var o := Restore(st, Ok(dir), from, now, f);
            o.result.Err? && DbPath(dir) !in o.fs.files && SetAsideHolds(st, o.fs, dir, now)
  {
    BackupNameDistinct(now);
    JoinLonger(dir, BackupName(now), DbFileName);
  }

  /**
   * Restoring from the database file itself moves it aside and then finds
   * no source to copy: the restore fails with the primary path empty.
   */
  lemma RestoreFromItself(st: FsState, dir: string, now: Clock, f: RestoreFaults)
    requires ValidClock(now) && DbPath(dir) in st.files && DbPath(dir) !in st.dirs
    requires !AnySidecar(st, DbPath(dir)) && f.renamePrimary.None?
    requires JoinPath(dir, BackupName(now)) !in st.dirs
    ensures var o := Restore(st, Ok(dir), DbPath(dir), now, f);
            o.result.Err? && DbPath(dir) !in o.fs.files
  {
    BackupNameDistinct(now);
    JoinLonger(dir, BackupName(now), DbFileName);
  }

  // ---------------------------------------------------------------------
  // the commands as step-by-step filesystem mutations
  // ---------------------------------------------------------------------

  /** The disk, changed in place by each call. */
  class FileSystem {
    var state: FsState

    constructor(initial: FsState)
      ensures state == initial
    {
      state := initial;
    }

    function Exists(p: string): bool
      reads this
    {
      p in state.files || p in state.dirs
    }

    method RemoveFile(p: string, fault: Fault) returns (r: Result<()>)
      modifies this
      ensures Outcome(r, state) == Removed(old(state), p, fault)
    {
      var o := Removed(state, p, fault);
      r := o.result;
      state := o.fs;
    }

    method Copy(from: string, to: string, fault: Fault) returns (r: Result<()>)
      modifies this
      ensures Outcome(r, state) == Copied(old(state), from, to, fault)
    {
      var o := Copied(state, from, to, fault);
      r := o.result;
      state := o.fs;
    }

    method Rename(from: string, to: string, fault: RenameFault) returns (r: Result<()>)
      modifies this
      ensures Outcome(r, state) == Renamed(old(state), from, to, fault)
    {
      var o := Renamed(state, from, to, fault);
      r := o.result;
      state := o.fs;
    }

    method CreateDirAll(d: string, fault: Fault) returns (r: Result<()>)
      modifies this
      ensures Outcome(r, state) == DirsCreated(old(state), d, fault)
    {
      var o := DirsCreated(state, d, fault);
      r := o.result;
      state := o.fs;
    }

    /** Remove `p` if it exists, ignoring a failure. */
    method ClearSidecar(p: string, fault: Fault)
      modifies this
      ensures state == Cleared(old(state), p, fault)
    {
      if Exists(p) {
        var _ := RemoveFile(p, fault);
      }
    }

    method VacuumInto(db: string, target: string, fault: Fault) returns (r: Result<()>)
      requires db in state.files
      modifies this
      ensures Outcome(r, state) == Vacuumed(old(state), db, target, fault)
    {
      var o := Vacuumed(state, db, target, fault);
      r := o.result;
      state := o.fs;
    }
  }

  /** backup_database, one call at a time with early returns. */
  method BackupDatabase(fs: FileSystem, appDir: Result<string>, to: string, f: BackupFaults) returns (r: Result<()>)
    modifies fs
    ensures Outcome(r, fs.state) == Backup(old(fs.state), appDir, to, f)
  {
    if appDir.Err? {
      return Err("Failed to get app data dir: " + appDir.msg);
    }
    var db := DbPath(appDir.value);
    if !fs.Exists(db) {
      return Err("Source database not found at: " + db);
    }
    var parent := Parent(to);
    if parent.Some? && !fs.Exists(parent.value) {
      var made := fs.CreateDirAll(parent.value, f.createDir);
      if made.Err? {
        return Err("Failed to create target directory: " + made.msg);
      }
    }
    if f.connect.Some? {
      return Err("Failed to connect to database: " + f.connect.value);
    }
    if db !in fs.state.files {
      return Err("Failed to connect to database: " + CantOpenText);
    }
    r := ExportBackup(fs, db, to, f);
  }

  /** `VACUUM INTO` the temporary file, removing it again if that fails. */
  method ExportBackup(fs: FileSystem, db: string, to: string, f: BackupFaults) returns (r: Result<()>)
    requires db in fs.state.files
    modifies fs
    ensures Outcome(r, fs.state) == Exported(old(fs.state), db, to, f)
  {
    var temp := TempPath(to);
    var snap := fs.VacuumInto(db, temp, f.vacuum);
    if snap.Err? {
      var _ := fs.RemoveFile(temp, f.removeTemp);
      return Err("Failed to backup database: " + snap.msg);
    }
    r := FinalizeBackup(fs, to, f);
  }

  /** The rename of the temporary file, with the copy fallback across devices. */
  method FinalizeBackup(fs: FileSystem, to: string, f: BackupFaults) returns (r: Result<()>)
    modifies fs
    ensures Outcome(r, fs.state) == Finalized(old(fs.state), to, f)
  {
    var temp := TempPath(to);
    match f.rename {
      case NoRenameFault =>
        r := fs.Rename(temp, to, NoRenameFault);
        if r.Err? {
          var _ := fs.RemoveFile(temp, f.removeTemp);
          r := Err("Failed to finalize backup file: " + r.msg);
        }
      case CrossesDevices =>
        var cp := fs.Copy(temp, to, f.copy);
        if cp.Err? {
          var _ := fs.RemoveFile(temp, f.removeTemp);
          return Err("Failed to copy backup file across devices: " + cp.msg);
        }
        r := fs.RemoveFile(temp, f.removeTemp);
        if r.Err? {
          r := Err("Failed to remove temporary file: " + r.msg);
        }
      case OtherRenameFault(e) =>
        var _ := fs.RemoveFile(temp, f.removeTemp);
        r := Err("Failed to finalize backup file: " + e);
    }
  }

  /** restore_database, one call at a time with early returns. */
  method RestoreDatabase(fs: FileSystem, appDir: Result<string>, from: string, now: Clock, f: RestoreFaults)
    returns (r: Result<()>)
    requires ValidClock(now)
    modifies fs
    ensures Outcome(r, fs.state) == Restore(old(fs.state), appDir, from, now, f)
  {
    if appDir.Err? {
      return Err("Failed to get app data dir: " + appDir.msg);
    }
    if !fs.Exists(from) {
      return Err("Source file not found: " + from);
    }
    var sidecars := Sidecars(from);
    if fs.Exists(sidecars[0]) || fs.Exists(sidecars[1]) || fs.Exists(sidecars[2]) || fs.Exists(sidecars[3]) {
      return Err(LiveSourceText);
    }
    r := ReplaceDatabase(fs, appDir.value, from, now, f);
  }

  /** Set the primary aside, copy the source over it, clear the sidecars. */
  method ReplaceDatabase(fs: FileSystem, dir: string, from: string, now: Clock, f: RestoreFaults)
    returns (r: Result<()>)
    requires ValidClock(now)
    modifies fs
    ensures Outcome(r, fs.state) == Replaced(old(fs.state), dir, from, now, f)
  {
    var db := DbPath(dir);
    if fs.Exists(db) {
      var moved := fs.Rename(db, JoinPath(dir, BackupName(now)), RenameFaultOf(f.renamePrimary));
      if moved.Err? {
        return Err("Failed to backup existing database: " + moved.msg);
      }
    }
    var cp := fs.Copy(from, db, f.copy);
    if cp.Err? {
      return Err("Failed to copy database file: " + cp.msg);
    }
    fs.ClearSidecar(JoinPath(dir, WalName), f.removeWal);
    fs.ClearSidecar(JoinPath(dir, ShmName), f.removeShm);
    r := Ok(());
  }
}
