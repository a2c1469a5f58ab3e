# Audit-log callback for Ansible, modelled in Dafny

The system is an Ansible notification callback (`audit_commands.py`). For every task
result the runner reports as ok or failed, it does three things. It drops the two
bootstrap actions `gather_facts` and `setup`. For any other action it builds one audit
record: timestamp, host name, the host's groups, the invoking user, the task's name,
action and arguments, the status label, `changed`, and the normalised `diff.before` and
`diff.after`. It appends that record as one line to `<log_dir>/<host>_<run stamp>.json`,
sets the file to mode 0600, and then runs `ansible` up to twice. The first call creates
`/var/log/ansible_audit` on the host. The second, made only when the first succeeds,
copies the file there under the same name.

The model has four modules:

- `JsonValues` (`json_values.dfy`): the JSON-representable Python values found in
  results, host variables and task arguments, and `dict.get`.
- `AuditRecords` (`audit_records.dfy`): the filter and normaliser as the pure function
  `BuildEntry`, from an event, a status and the environment it reads (`$USER`, the clock)
  to `Processed`.
- `LogPaths` (`log_paths.dfy`): the choice of log directory, POSIX `os.path.join`, the
  per-run file name, the remote destination and the two subprocess argument vectors.
- `AuditCallback` (`audit_callback.dfy`): the class `CallbackModule`. Its run settings
  `logDir` and `executionTimestamp` are `const` fields fixed by the constructor. It also
  holds the local file system (path to lines), the permission bits and the ordered trace
  of side effects. Each method is proved against a pure transition (`Save`, `Send`,
  `Handle`, where `Persist` is saving then sending), and `Replay` folds `Handle` over a run of events.

Environment reads are parameters. These are `$ANSIBLE_LOG_DIR` and `$USER` (`None` when
unset) and the two formatted clock readings. The outcomes of the disk operations and of
the two subprocesses are parameters too (`DiskOutcome`, `RemoteOutcome`). Records are
stored as abstract lines rather than JSON text.

Details of the code the model keeps:

- `BuildEntry` has three outcomes: the event is skipped, a record is built, or
  `_process_task` raises. The code calls `.get` on the result's `diff` value
  (audit_commands.py:68). If `diff` is present but is not a dictionary, for example a
  list or `None`, that call raises `AttributeError` before anything is saved or sent.
  This is modelled as `DiffNotMapping`.
- A snapshot is null in four cases: `diff` is absent, the key is absent, the value is
  already `None`, or the value is the empty string. Any other value is kept as it is,
  whatever its type.
- `groups` defaults to the empty list (audit_commands.py:78), while the sibling lookups
  of `ansible_host` and `ansible_distribution` (audit_commands.py:77 and 79) default to
  "Unknown".
- `$USER` set to the empty string is kept, and "unknown" is used only when `$USER` is
  unset. For `$ANSIBLE_LOG_DIR`, however, the empty string falls back to the default.
- Paths are compared as strings. With a host name that contains no `/` (a plain name)
  and the run stamp `%Y%m%d_%H%M%S`, the file name is a single path component directly
  inside the log directory (`FileNameIsOneComponent`). Only then, on a case-sensitive
  file system, are distinct hosts guaranteed distinct files. A host name that starts
  with `/` makes `os.path.join` drop the log directory (`AbsoluteHostCollides`). A
  relative name such as `./web01` reaches the same file as `web01` on disk while being a
  different string, and so does `sub/../web01` when a directory `sub` exists in the log
  directory. The per-host run lemmas therefore assume plain host names.

## Model

| member | source | states |
|---|---|---|
| `AuditRecords.BuildEntry` | audit_commands.py:56-94 | no record exactly for `gather_facts`/`setup`; an `AttributeError` exactly when `diff` is present and not a dictionary; otherwise one record whose status is the label passed in, whose host is the host's name and whose task name, action and args are copied unchanged |
| `AuditRecords.Normalize` | audit_commands.py:68-74 | a snapshot becomes null exactly when it is null or the empty string; every other value, of any type, is kept |
| `AuditRecords.OutputsNormalised` | audit_commands.py:68-74 | `output_before`/`output_after` are null exactly when the diff or key is absent, the value is null, or the value is `""`; otherwise they equal the raw diff value |
| `AuditRecords.RecordDefaults` | audit_commands.py:65-82 | `changed` is the result's value or false; `groups` is `group_names` or `[]`; executor is `$USER` or "unknown" when unset; timestamp is the clock reading |
| `AuditRecords.ServiceScenario` | audit_commands.py:65-94 | a `service` result with `changed: true` and diff `""` → `"running"` gives before null, after "running", changed true, status "ok" |
| `AuditRecords.Executor` | audit_commands.py:80 | the executor is `$USER` verbatim when set, even when empty, and "unknown" only when unset |
| `AuditRecords.Status.Label` | audit_commands.py:99-109 | the status label is "ok" for the success entry point and "failed" otherwise |
| `LogPaths.LogDir` | audit_commands.py:39-42 | the log directory is `$ANSIBLE_LOG_DIR` when set and non-empty, else `/var/log/ansible_audit`; never empty |
| `LogPaths.Join` | audit_commands.py:116 | the joined path ends with the file name; an absolute name replaces the directory; otherwise it is the directory, a separator if missing, and the name |
| `LogPaths.FileNameAbsolute` | audit_commands.py:115 | the file name is an absolute path exactly when the host name is |
| `LogPaths.FileNameInjective` | audit_commands.py:115 | within one run stamp, equal file names mean equal hosts |
| `LogPaths.JoinInjective` | audit_commands.py:116 | joining relative names onto one directory is injective |
| `LogPaths.FileName` | audit_commands.py:115 | the file name is the host name, `_`, the run stamp and `.json`, in that order |
| `LogPaths.LocalPath` | audit_commands.py:115-116 | the local file is the file name itself when the host name is absolute, and otherwise the log directory, a separator if missing, and the file name |
| `LogPaths.LocalPathInLogDir` | audit_commands.py:115-116 | the local path ends with the file name, and starts with the log directory unless the host name is absolute |
| `LogPaths.FileNameIsOneComponent` | audit_commands.py:115-116 | with a plain host name and a plain run stamp, the file name contains no separator and the local file lies directly in the log directory |
| `LogPaths.LocalPathInjective` | audit_commands.py:115-116 | two hosts with plain names (no `/`) never share a local file in one run |
| `LogPaths.AbsoluteHostCollides` | audit_commands.py:115-116 | a host named `/var/log/ansible_audit/web01` gets the same local file as `web01` |
| `LogPaths.RemotePath` | audit_commands.py:130-132 | the remote destination is `/var/log/ansible_audit/` followed by the same file name as the local file |
| `LogPaths.PathsShareFileName` | audit_commands.py:115-132 | local and remote paths end with the same file name; with the default directory and a host name that is not absolute they are equal |
| `LogPaths.MkdirCommand` | audit_commands.py:136-137 | the first subprocess is `ansible <host> -m shell -a` with the script that creates `/var/log/ansible_audit` and sets it to mode 700 |
| `LogPaths.CopyCommand` | audit_commands.py:144-145 | the second subprocess is `ansible <host> -m copy -a` with one argument string |
| `LogPaths.CopyArgument` | audit_commands.py:145 | the copy's argument is `src=` the local path, ` dest=` the remote path, then ` mode=0600` |
| `AuditCallback.Save` | audit_commands.py:111-124 | a failed open changes nothing; otherwise the record is appended after the file's lines, and the mode becomes 0600 unless the chmod failed |
| `AuditCallback.Send` | audit_commands.py:126-152 | in the model's state, replication changes no file contents or permission bits; it only adds subprocess effects |
| `AuditCallback.NoRecordNoEffect` | audit_commands.py:57-59 | an event without a record writes nothing, changes no mode and runs no subprocess |
| `AuditCallback.SaveTrace` | audit_commands.py:119-122 | the local sink performs no subprocess and touches only the host's file |
| `AuditCallback.SendTrace` | audit_commands.py:134-149 | the replicator runs only subprocesses, and the directory creation runs first |
| `AuditCallback.Persist` | audit_commands.py:96-97 | saving then replicating leaves the files and modes exactly as the local sink left them, and strictly extends the effect trace |
| `AuditCallback.Handle` | audit_commands.py:52-97 | handling one event only extends the effect trace, and extends it exactly when `BuildEntry` yields a record |
| `AuditCallback.PersistAppendsOneLine` | audit_commands.py:96-121 | saving a record adds exactly that record after the existing lines of its host's file, unless the open fails; every other file is unchanged |
| `AuditCallback.PersistRestrictsMode` | audit_commands.py:122 | after a complete append the file's mode is 0600, and no other file's mode changes |
| `AuditCallback.PersistTrace` | audit_commands.py:96-97 | the effects of one record are the local sink's effects followed by the replicator's |
| `AuditCallback.AddedTraceShape` | audit_commands.py:96-152 | in the effects of one record, an effect is a subprocess exactly when it comes after the local ones; the append comes first when the open succeeds; the mkdir always runs; the copy is last unless mkdir failed |
| `AuditCallback.LocalBeforeRemote` | audit_commands.py:96-97 | persisting keeps the earlier effects as a prefix and adds exactly the local sink's effects followed by the replicator's |
| `AuditCallback.HandleAddsLine` | audit_commands.py:52-97 | one event adds to any file exactly its record, when it has one, lands at that file and the open succeeds; nothing else |
| `AuditCallback.ReplayLastEvent` | audit_commands.py:99-109 | the last event of a run adds to a file exactly the line that event contributes |
| `AuditCallback.ReplayAppends` | audit_commands.py:119-121 | over a run, every file is its old lines followed by the lines the run added to it, in order |
| `AuditCallback.RecordsOf` | audit_commands.py:86 | every record collected for a host carries that host's name |
| `AuditCallback.HostFileGetsHostRecords` | audit_commands.py:115-116 | when every host name of the run is plain (no `/`), the lines a run adds to a plain host's file are exactly that host's records |
| `AuditCallback.HostLogOfRun` | audit_commands.py:111-121 | for plain host names, a host's file after a run is its old lines followed by all the host's records that were written during that run (those whose open succeeded), in order |
| `AuditCallback.SameHostSameFile` | audit_commands.py:111-121 | two records for one host in one run, both appended, become two consecutive lines of the same file |
| `AuditCallback.CallbackModule.constructor` | audit_commands.py:36-50 | the log directory is chosen from the environment, the run stamp is fixed once, and no effect has happened yet |
| `AuditCallback.CallbackModule.SaveLogLocal` | audit_commands.py:111-124 | the new state is `Save` applied to the old state at the host's local path |
| `AuditCallback.CallbackModule.AppendLine` | audit_commands.py:118-124 | the new state is `Save` at the given path: append the record unless the open fails, then set mode 0600 unless the chmod fails |
| `AuditCallback.CallbackModule.SendLogToRemote` | audit_commands.py:126-152 | the new state is `Send`: mkdir, then copy to `/var/log/ansible_audit/<file>` unless mkdir failed |
| `AuditCallback.CallbackModule.ProcessTask` | audit_commands.py:52-97 | returns `BuildEntry`'s outcome; the new state is `Handle` of the old state |
| `AuditCallback.CallbackModule.OnOk` | audit_commands.py:99-103 | as `ProcessTask` with status ok |
| `AuditCallback.CallbackModule.OnFailed` | audit_commands.py:105-109 | as `ProcessTask` with status failed |

## Left out

- JSON encoding (`json.dump` and the newline) is not modelled. A line is the abstract record. A `TypeError` from arguments that cannot be serialised, which `except IOError` would not catch, is therefore not modelled.
- A write that fails after the file was opened, leaving a partial line, is not modelled. `DiskOutcome` covers an open that fails, a full write, and a full write followed by a failing chmod.
- Creating the local directory in the constructor (`os.makedirs`) and every warning or verbose message sent to the display are not modelled. They do not change the records or the files.
- Clock formatting is not modelled. The formatted timestamps `%Y-%m-%d %H:%M:%S` and `%Y%m%d_%H%M%S` are given as strings.
- What the remote commands do on the host is not modelled. The model records each `ansible` argument vector in order and takes the subprocess outcome as a parameter.
- Ansible's own handling of an exception that escapes the callback is not modelled. `ProcessTask` returns `DiffNotMapping` where the source raises.
- `host_ip`, `os_type` and `self.logs` are not modelled. They are read or set but never stored. The unused `ignore_errors` parameter of the failure entry point is not modelled either.
- Concurrent invocations of the callback are not modelled. Events are handled one at a time.
- Floating-point values are exact reals. NaN, infinities and rounding are not modelled; the model only copies values, so none of these matters to it.
- `AuditCallback.Send` does not model that the managed host can be the controller itself. With `localhost` as the host, the copy writes onto the controller, and with the default log directory onto the very file it copies from; the mkdir script's `chmod 700` then applies to the local directory. The model keeps one file map for the controller and records the remote steps only as subprocess effects.
- `AuditCallback.Send` does not model a missing `ansible` executable. `subprocess.run` then raises `FileNotFoundError` (an `OSError`), which `except subprocess.CalledProcessError` (audit_commands.py:151) does not catch, so the exception escapes the callback; `RemoteOutcome` covers only completed subprocesses.
- File-system case folding is not modelled. Paths are distinct when their strings are, so on a case-insensitive file system `Web01` and `web01` would share one file, which `LocalPathInjective`, a statement about path strings, does not rule out.
