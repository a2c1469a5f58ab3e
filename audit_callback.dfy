/** The callback object: the run-wide settings fixed at construction, the local sink that
    appends one line per record, and the remote replicator that shells out to `ansible`. */
module AuditCallback {
  import opened JsonValues
  import opened AuditRecords
  import opened LogPaths

  /** Permission bits set after each append: octal 600, owner read and write only. */
  const OwnerOnlyMode: int := 0x180

  /** How the local append goes: fully, not at all (opening fails), or with the line
      written but the permission change failing. All failures are caught by the sink. */
  datatype DiskOutcome = Written | OpenFails | ChmodFails

  /** How the two subprocesses go. A failing directory creation stops the copy; a failing
      copy is only reported. */
  datatype RemoteOutcome = Delivered | MkdirFails | CopyFails

  /** Side effects in the order they happen. */
  datatype Effect =
    | Appended(path: string)
    | Chmodded(path: string, mode: int)
    | Ran(argv: seq<string>)

  /** The local file system (path to its lines), the permission bits of the files and the
      side effects performed so far. */
  datatype World = World(
    files: map<string, seq<AuditRecord>>,
    modes: map<string, int>,
    effects: seq<Effect>)

  /** One event delivered to the callback, together with what the environment does while
      it is handled. */
  datatype Delivery = Delivery(
    event: TaskResult,
    status: Status,
    ctx: Context,
    disk: DiskOutcome,
    remote: RemoteOutcome)

  /** The lines of a file; a missing file reads as empty. */
  function Lines(files: map<string, seq<AuditRecord>>, path: string): seq<AuditRecord>
  {
    if path in files then files[path] else []
  }

  /** The effects of the local sink, in order. */
  function SaveTrace(path: string, disk: DiskOutcome): (t: seq<Effect>)
    ensures forall e :: e in t ==> !e.Ran? && e.path == path
  {
    match disk
    case OpenFails => []
    case ChmodFails => [Appended(path)]
    case Written => [Appended(path), Chmodded(path, OwnerOnlyMode)]
  }

  /** The subprocesses of the replicator, in order. */
  function SendTrace(host: string, src: string, dest: string, remote: RemoteOutcome): (t: seq<Effect>)
    ensures |t| > 0 && t[0] == Ran(MkdirCommand(host))
    ensures forall e :: e in t ==> e.Ran?
  {
    [Ran(MkdirCommand(host))] + (if remote == MkdirFails then [] else [Ran(CopyCommand(host, src, dest))])
  }

  /** The local sink: append `entry` as one line of `path`, then restrict its permissions. */
  function Save(w: World, path: string, entry: AuditRecord, disk: DiskOutcome): (w': World)
    ensures disk == OpenFails ==> w' == w
    ensures disk != OpenFails ==>
              && w'.files == w.files[path := Lines(w.files, path) + [entry]]
              && w'.modes == (if disk == Written then w.modes[path := OwnerOnlyMode] else w.modes)
  {
    match disk
    case OpenFails => w
    case ChmodFails =>
      w.(files := w.files[path := Lines(w.files, path) + [entry]],
         effects := w.effects + SaveTrace(path, disk))
    case Written =>
      w.(files := w.files[path := Lines(w.files, path) + [entry]],
         modes := w.modes[path := OwnerOnlyMode],
         effects := w.effects + SaveTrace(path, disk))
  }

  /** The remote replicator: create the remote directory, then copy the local file. */
  function Send(w: World, host: string, src: string, dest: string, remote: RemoteOutcome): (w': World)
    ensures w'.files == w.files && w'.modes == w.modes
  {
    w.(effects := w.effects + SendTrace(host, src, dest, remote))
  }

  /** Saving `entry` in the local file `path`, then replicating that file to `dest` on `host`. */
  function Persist(w: World, host: string, path: string, dest: string, entry: AuditRecord,
                   disk: DiskOutcome, remote: RemoteOutcome): (w': World)
    ensures var saved := Save(w, path, entry, disk);
            w'.files == saved.files && w'.modes == saved.modes
    ensures |w.effects| < |w'.effects| && w'.effects[..|w.effects|] == w.effects
  {
    Send(Save(w, path, entry, disk), host, path, dest, remote)
  }

  /** What handling one event does to the world, for a run with the given settings. */
  function Handle(w: World, logDir: string, runStamp: string, d: Delivery): (w': World)
    ensures |w.effects| <= |w'.effects| && w'.effects[..|w.effects|] == w.effects
    ensures BuildEntry(d.event, d.status, d.ctx).Built? <==> |w.effects| < |w'.effects|
  {
    match BuildEntry(d.event, d.status, d.ctx)
    case Built(entry) =>
      var host := d.event.hostName;
      Persist(w, host, LocalPath(logDir, runStamp, host), RemotePath(runStamp, host), entry, d.disk, d.remote)
    case _ => w
  }

  /** A run: the events delivered one after another to the same callback object. */
  function Replay(w: World, logDir: string, runStamp: string, run: seq<Delivery>): World
    decreases |run|
  {
    if run == [] then w
    else Handle(Replay(w, logDir, runStamp, run[..|run| - 1]), logDir, runStamp, run[|run| - 1])
  }

  /** The line one event adds to `path`: its record, if it has one, lands there and the
      file could be opened. */
  function LineAdded(logDir: string, runStamp: string, path: string, d: Delivery): seq<AuditRecord>
  {
    match BuildEntry(d.event, d.status, d.ctx)
    case Built(entry) =>
      if d.disk != OpenFails && LocalPath(logDir, runStamp, d.event.hostName) == path then [entry] else []
    case _ => []
  }

  /** The lines a run adds to `path`, in delivery order. */
  function LinesAdded(logDir: string, runStamp: string, path: string, run: seq<Delivery>): seq<AuditRecord>
    decreases |run|
  {
    if run == [] then []
    else LinesAdded(logDir, runStamp, path, run[..|run| - 1]) + LineAdded(logDir, runStamp, path, run[|run| - 1])
  }

  /** The records a run writes for `host`, in delivery order. */
  function RecordsOf(host: string, run: seq<Delivery>): (rs: seq<AuditRecord>)
    ensures forall i :: 0 <= i < |rs| ==> rs[i].host == host
    decreases |run|
  {
    if run == [] then []
    else
      var d := run[|run| - 1];
      var last := match BuildEntry(d.event, d.status, d.ctx)
                  case Built(entry) => if d.disk != OpenFails && d.event.hostName == host then [entry] else []
                  case _ => [];
      RecordsOf(host, run[..|run| - 1]) + last
  }

  /** No host name of the run contains a path separator. */
  predicate PlainHostNames(run: seq<Delivery>)
  {
    forall i :: 0 <= i < |run| ==> IsPlainName(run[i].event.hostName)
  }

  /** An event that yields no record (a bootstrap action, or a diff that is not a
      dictionary) writes nothing, changes no permission and runs no subprocess. */
  lemma NoRecordNoEffect(w: World, logDir: string, runStamp: string, d: Delivery)
    requires !BuildEntry(d.event, d.status, d.ctx).Built?
    ensures Handle(w, logDir, runStamp, d) == w
  {
  }

  /** Persisting a record appends exactly that record after the existing lines of the
      host's file (unless the file cannot be opened) and leaves every other file alone. */
  lemma PersistAppendsOneLine(w: World, host: string, path: string, dest: string, entry: AuditRecord,
                              disk: DiskOutcome, remote: RemoteOutcome)
    ensures var w' := Persist(w, host, path, dest, entry, disk, remote);
            && Lines(w'.files, path) == Lines(w.files, path) + (if disk == OpenFails then [] else [entry])
            && (forall q :: q != path ==> (q in w'.files <==> q in w.files) && Lines(w'.files, q) == Lines(w.files, q))
  {
  }

  /** After a complete append the file is owner read-write only; no other file's
      permissions change. */
  lemma PersistRestrictsMode(w: World, host: string, path: string, dest: string, entry: AuditRecord,
                             disk: DiskOutcome, remote: RemoteOutcome)
    ensures var w' := Persist(w, host, path, dest, entry, disk, remote);
            && (disk == Written ==> path in w'.modes && w'.modes[path] == OwnerOnlyMode)
            && (disk != Written ==> w'.modes == w.modes)
            && (forall q :: q != path ==> (q in w'.modes <==> q in w.modes))
            && (forall q :: q != path && q in w.modes ==> w'.modes[q] == w.modes[q])
  {
  }

  /** The effects of persisting one record, in order: the local append and permission
      change, then the directory creation, then the copy of the local file to the remote
      path unless that creation failed. */
  lemma PersistTrace(w: World, host: string, path: string, dest: string,
                     entry: AuditRecord, disk: DiskOutcome, remote: RemoteOutcome)
    ensures Persist(w, host, path, dest, entry, disk, remote).effects
              == w.effects + SaveTrace(path, disk) + SendTrace(host, path, dest, remote)
  {
  }

  /** The effects one record adds, local ones first: an effect is a subprocess exactly when
      it comes after the local ones, the append comes first when the file could be opened,
      the directory creation always runs, and the copy comes last unless that creation
      failed. */
  lemma {:induction false} AddedTraceShape(host: string, path: string, dest: string,
                                           disk: DiskOutcome, remote: RemoteOutcome)
    ensures var local := SaveTrace(path, disk);
            var added := local + SendTrace(host, path, dest, remote);
            && (forall i :: 0 <= i < |added| ==> (added[i].Ran? <==> i >= |local|))
            && (disk != OpenFails ==> added[0] == Appended(path))
            && Ran(MkdirCommand(host)) in added
            && added[|added| - 1] ==
                 (if remote == MkdirFails then Ran(MkdirCommand(host)) else Ran(CopyCommand(host, path, dest)))
  {
    var local: seq<Effect> := SaveTrace(path, disk);
    var sent: seq<Effect> := SendTrace(host, path, dest, remote);
    forall i | 0 <= i < |local + sent|
      ensures (local + sent)[i].Ran? <==> i >= |local|
    {
      if i < |local| {
        assert (local + sent)[i] == local[i] && local[i] in local;
      } else {
        assert (local + sent)[i] == sent[i - |local|] && sent[i - |local|] in sent;
      }
    }
    assert (local + sent)[|local|] == sent[0];
    assert (local + sent)[|local + sent| - 1] == sent[|sent| - 1];
  }

  /** Persisting only extends the effect trace, and what it adds has the shape above. */
  lemma LocalBeforeRemote(w: World, host: string, path: string, dest: string,
                          entry: AuditRecord, disk: DiskOutcome, remote: RemoteOutcome)
    ensures var w' := Persist(w, host, path, dest, entry, disk, remote);
            var n := |w.effects|;
            && n < |w'.effects| && w'.effects[..n] == w.effects
            && w'.effects[n..] == SaveTrace(path, disk) + SendTrace(host, path, dest, remote)
  {
    PersistTrace(w, host, path, dest, entry, disk, remote);
    var w' := Persist(w, host, path, dest, entry, disk, remote);
    var added := SaveTrace(path, disk) + SendTrace(host, path, dest, remote);
    assert w'.effects == w.effects + added;
    assert w'.effects[|w.effects|..] == added;
  }

  /** One event adds to a file exactly the line `LineAdded` says. */
  lemma HandleAddsLine(w: World, logDir: string, runStamp: string, path: string, d: Delivery)
    ensures Lines(Handle(w, logDir, runStamp, d).files, path)
         == Lines(w.files, path) + LineAdded(logDir, runStamp, path, d)
  {
    match BuildEntry(d.event, d.status, d.ctx)
    case Built(entry) =>
      var host := d.event.hostName;
      PersistAppendsOneLine(w, host, LocalPath(logDir, runStamp, host), RemotePath(runStamp, host), entry, d.disk, d.remote);
    case _ =>
  }

  /** The last event of a run adds to a file exactly the line `LineAdded` says. */
  lemma ReplayLastEvent(w: World, logDir: string, runStamp: string, path: string, run: seq<Delivery>)
    requires run != []
    ensures Lines(Replay(w, logDir, runStamp, run).files, path)
         == Lines(Replay(w, logDir, runStamp, run[..|run| - 1]).files, path)
            + LineAdded(logDir, runStamp, path, run[|run| - 1])
  {
    HandleAddsLine(Replay(w, logDir, runStamp, run[..|run| - 1]), logDir, runStamp, path, run[|run| - 1]);
  }

  /** Over a whole run, the lines of any file are its earlier lines followed by the lines
      the run's events added to it, in delivery order. */
  lemma {:induction false} ReplayAppends(w: World, logDir: string, runStamp: string, path: string, run: seq<Delivery>)
    ensures Lines(Replay(w, logDir, runStamp, run).files, path)
         == Lines(w.files, path) + LinesAdded(logDir, runStamp, path, run)
    decreases |run|
  {
    if run != [] {
      var init := run[..|run| - 1];
      var earlier := LinesAdded(logDir, runStamp, path, init);
      var last := LineAdded(logDir, runStamp, path, run[|run| - 1]);
      ReplayAppends(w, logDir, runStamp, path, init);
      ReplayLastEvent(w, logDir, runStamp, path, run);
      assert LinesAdded(logDir, runStamp, path, run) == earlier + last;
      assert Lines(w.files, path) + earlier + last == Lines(w.files, path) + (earlier + last);
    }
  }

  /** When every host name is a plain name, the lines a run adds to a host's file are
      exactly the records of that host's events. */
  lemma {:induction false} HostFileGetsHostRecords(logDir: string, runStamp: string, host: string, run: seq<Delivery>)
    requires IsPlainName(host) && PlainHostNames(run)
    ensures LinesAdded(logDir, runStamp, LocalPath(logDir, runStamp, host), run) == RecordsOf(host, run)
    decreases |run|
  {
    if run != [] {
      var init := run[..|run| - 1];
      var d := run[|run| - 1];
      assert PlainHostNames(init) by {
        forall i | 0 <= i < |init| ensures IsPlainName(init[i].event.hostName) {
          assert init[i] == run[i];
        }
      }
      HostFileGetsHostRecords(logDir, runStamp, host, init);
      assert IsPlainName(d.event.hostName);
      if LocalPath(logDir, runStamp, d.event.hostName) == LocalPath(logDir, runStamp, host) {
        LocalPathInjective(logDir, runStamp, d.event.hostName, host);
      }
    }
  }

  /** The per-host log of a run: every record built for `host` during the run is appended,
      in order, to the same file, after whatever that file held before. */
  lemma HostLogOfRun(w: World, logDir: string, runStamp: string, host: string, run: seq<Delivery>)
    requires IsPlainName(host) && PlainHostNames(run)
    ensures var path := LocalPath(logDir, runStamp, host);
            Lines(Replay(w, logDir, runStamp, run).files, path) == Lines(w.files, path) + RecordsOf(host, run)
  {
    var path := LocalPath(logDir, runStamp, host);
    ReplayAppends(w, logDir, runStamp, path, run);
    HostFileGetsHostRecords(logDir, runStamp, host, run);
  }

  /** Two records for the same host in one run, both appended, become two consecutive
      lines of the same file: the path depends only on the host and the run stamp. */
  lemma SameHostSameFile(w: World, logDir: string, runStamp: string, host: string,
                         e1: AuditRecord, d1: DiskOutcome, r1: RemoteOutcome,
                         e2: AuditRecord, d2: DiskOutcome, r2: RemoteOutcome)
    requires d1 != OpenFails && d2 != OpenFails
    ensures var path := LocalPath(logDir, runStamp, host);
            var dest := RemotePath(runStamp, host);
            var w1 := Persist(w, host, path, dest, e1, d1, r1);
            Lines(Persist(w1, host, path, dest, e2, d2, r2).files, path) == Lines(w.files, path) + [e1, e2]
  {
    var path := LocalPath(logDir, runStamp, host);
    var dest := RemotePath(runStamp, host);
    PersistAppendsOneLine(w, host, path, dest, e1, d1, r1);
    PersistAppendsOneLine(Persist(w, host, path, dest, e1, d1, r1), host, path, dest, e2, d2, r2);
  }

  /** The callback plugin object. `logDir` and `executionTimestamp` are fixed when it is
      constructed; the rest is the state of the world it acts on. */
  class CallbackModule {
    const logDir: string
    const executionTimestamp: string
    var files: map<string, seq<AuditRecord>>
    var modes: map<string, int>
    var effects: seq<Effect>

    function State(): World
      reads this
    {
      World(files, modes, effects)
    }

    /** `logDirVar` is `$ANSIBLE_LOG_DIR` (None when unset), `runStamp` the clock at
        construction formatted as `YYYYmmdd_HHMMSS`, `disk` and `perms` the local files. */
    constructor (logDirVar: Option<string>, runStamp: string,
                 disk: map<string, seq<AuditRecord>>, perms: map<string, int>)
      ensures logDir == LogDir(logDirVar) && logDir != ""
      ensures executionTimestamp == runStamp
      ensures State() == World(disk, perms, [])
    {
      logDir := LogDir(logDirVar);
      executionTimestamp := runStamp;
      files, modes, effects := disk, perms, [];
    }

    /** The local sink for one record of `host`: its file of this run in the log directory. */
    method SaveLogLocal(host: string, entry: AuditRecord, disk: DiskOutcome)
      modifies this
      ensures State() == Save(old(State()), LocalPath(logDir, executionTimestamp, host), entry, disk)
    {
      var path := LocalPath(logDir, executionTimestamp, host);
      AppendLine(path, entry, disk);
    }

    /** Open `path` for appending, write `entry` as one line, then restrict the file to its
        owner; a failure to open or to change permissions is caught and ends the step. */
    method AppendLine(path: string, entry: AuditRecord, disk: DiskOutcome)
      modifies this
      ensures State() == Save(old(State()), path, entry, disk)
    {
      if disk != OpenFails {
        files := files[path := Lines(files, path) + [entry]];
        effects := effects + [Appended(path)];
        if disk == Written {
          modes := modes[path := OwnerOnlyMode];
          effects := effects + [Chmodded(path, OwnerOnlyMode)];
        }
      }
      assert effects == old(effects) + SaveTrace(path, disk);
    }

    /** The remote replicator for `host`'s file of this run. */
    method SendLogToRemote(host: string, remote: RemoteOutcome)
      modifies this`effects
      ensures State() == Send(old(State()), host, LocalPath(logDir, executionTimestamp, host),
                              RemotePath(executionTimestamp, host), remote)
    {
      var path := LocalPath(logDir, executionTimestamp, host);
      var dest := RemotePath(executionTimestamp, host);
      effects := effects + [Ran(MkdirCommand(host))];
      if remote != MkdirFails {
        effects := effects + [Ran(CopyCommand(host, path, dest))];
      }
      assert effects == old(effects) + SendTrace(host, path, dest, remote);
    }

    /** Filter, normalise, save locally, then replicate. The result says whether a record
        was built, the event was skipped, or the diff lookup raised. */
    method ProcessTask(ev: TaskResult, status: Status, ctx: Context, disk: DiskOutcome, remote: RemoteOutcome)
      returns (p: Processed)
      modifies this
      ensures p == BuildEntry(ev, status, ctx)
      ensures State() == Handle(old(State()), logDir, executionTimestamp, Delivery(ev, status, ctx, disk, remote))
    {
      p := BuildEntry(ev, status, ctx);
      if p.Built? {
        SaveLogLocal(ev.hostName, p.record, disk);
        SendLogToRemote(ev.hostName, remote);
      }
    }

    /** Entry point for a task that succeeded. */
    method OnOk(ev: TaskResult, ctx: Context, disk: DiskOutcome, remote: RemoteOutcome)
      returns (p: Processed)
      modifies this
      ensures p == BuildEntry(ev, Ok, ctx)
      ensures State() == Handle(old(State()), logDir, executionTimestamp, Delivery(ev, Ok, ctx, disk, remote))
    {
      p := ProcessTask(ev, Ok, ctx, disk, remote);
    }

    /** Entry point for a task that failed. */
    method OnFailed(ev: TaskResult, ctx: Context, disk: DiskOutcome, remote: RemoteOutcome)
      returns (p: Processed)
      modifies this
      ensures p == BuildEntry(ev, Failed, ctx)
      ensures State() == Handle(old(State()), logDir, executionTimestamp, Delivery(ev, Failed, ctx, disk, remote))
    {
      p := ProcessTask(ev, Failed, ctx, disk, remote);
    }
  }
}
