/** The event filter and normaliser: turns one task-completion event into at most one
    audit record (`CallbackModule._process_task` up to the point where it saves). */
module AuditRecords {
  import opened JsonValues

  /** The two bootstrap actions that never produce a record. */
  const GatherFacts := "gather_facts"
  const Setup := "setup"

  /** The label passed in by the entry point that received the event. */
  datatype Status = Ok | Failed {
    function Label(): (s: string)
      ensures s == "ok" || s == "failed"
      ensures Ok? <==> s == "ok"
    {
      match this
      case Ok => "ok"
      case Failed => "failed"
    }
  }

  /** What the runner hands to the callback for one completed task. */
  datatype TaskResult = TaskResult(
    hostName: string,              // the host's name
    hostVars: map<string, Value>,  // the host's variables
    taskName: string,              // the task's display name
    action: string,                // the task's action (module) name
    args: map<string, Value>,      // the task's arguments
    payload: map<string, Value>)   // the result dictionary returned by the action

  /** Environment read while building a record: `$USER` (None when unset) and the
      wall clock, already formatted as `YYYY-MM-DD HH:MM:SS`. */
  datatype Context = Context(user: Option<string>, now: string)

  datatype TaskInfo = TaskInfo(name: string, action: string, args: map<string, Value>)

  /** One line of the audit log. `outputBefore`/`outputAfter` use `Null` for JSON null. */
  datatype AuditRecord = AuditRecord(
    timestamp: string,
    host: string,
    groups: Value,
    executor: string,
    task: TaskInfo,
    status: Status,
    changed: Value,
    outputBefore: Value,
    outputAfter: Value)

  /** What processing one event yields: nothing for a bootstrap action, a record, or the
      AttributeError raised when the result's `diff` is present but is not a dictionary. */
  datatype Processed =
    | Skipped
    | Built(record: AuditRecord)
    | DiffNotMapping(diff: Value)

  predicate IsBootstrap(action: string)
  {
    action == GatherFacts || action == Setup
  }

  /** Only the empty string is replaced by null; every other value, of any type, is kept. */
  function Normalize(v: Value): (r: Value)
    ensures r == Null <==> v == Null || v == Str("")
    ensures v != Str("") ==> r == v
  {
    if v.Str? && v.s == "" then Null else v
  }

  /** The user who ran the playbook, from `$USER`: the default applies only when the
      variable is unset, so a set but empty variable yields the empty name. */
  function Executor(user: Option<string>): (e: string)
    ensures user.Some? ==> e == user.value
    ensures user.None? ==> e == "unknown"
  {
    match user
    case Some(name) => name
    case None => "unknown"
  }

  /** The diff dictionary of a result: `{}` when the key is absent. */
  function Diff(payload: map<string, Value>): Value
  {
    Get(payload, "diff", Dict(map[]))
  }

  /** The raw value the source reads for `diff[key]` before normalising it: null when
      either the diff or the key is absent. Only meaningful when the diff is a dictionary. */
  function RawDiffEntry(payload: map<string, Value>, key: string): Value
  {
    if "diff" in payload && payload["diff"].Dict? && key in payload["diff"].entries
    then payload["diff"].entries[key]
    else Null
  }

  /** The whole filter and normaliser for one event. */
  function BuildEntry(ev: TaskResult, status: Status, ctx: Context): (p: Processed)
    ensures p.Skipped? <==> IsBootstrap(ev.action)
    ensures p.DiffNotMapping? <==>
              !IsBootstrap(ev.action) && "diff" in ev.payload && !ev.payload["diff"].Dict?
    ensures p.Built? ==>
              && p.record.status == status
              && p.record.host == ev.hostName
              && p.record.task == TaskInfo(ev.taskName, ev.action, ev.args)
  {
    if IsBootstrap(ev.action) then Skipped
    else
      var diff := Diff(ev.payload);
      if !diff.Dict? then DiffNotMapping(diff)
      else
        Built(AuditRecord(
          timestamp := ctx.now,
          host := ev.hostName,
          groups := Get(ev.hostVars, "group_names", List([])),
          executor := Executor(ctx.user),
          task := TaskInfo(ev.taskName, ev.action, ev.args),
          status := status,
          changed := Get(ev.payload, "changed", Bool(false)),
          outputBefore := Normalize(Get(diff.entries, "before", Null)),
          outputAfter := Normalize(Get(diff.entries, "after", Null))))
  }

  /** A diff snapshot ends up null exactly when the diff is absent, the key is absent,
      the value is null, or the value is the empty string; otherwise it is kept verbatim. */
  lemma OutputsNormalised(ev: TaskResult, status: Status, ctx: Context)
    requires BuildEntry(ev, status, ctx).Built?
    ensures var r := BuildEntry(ev, status, ctx).record;
            var before := RawDiffEntry(ev.payload, "before");
            var after := RawDiffEntry(ev.payload, "after");
            && (r.outputBefore == Null <==> before == Null || before == Str(""))
            && (r.outputAfter == Null <==> after == Null || after == Str(""))
            && (before != Str("") ==> r.outputBefore == before)
            && (after != Str("") ==> r.outputAfter == after)
  {
  }

  /** `changed` defaults to false and `groups` to the empty list; the executor is `$USER`
      (even when empty) or "unknown" when unset; the timestamp is the clock reading. */
  lemma RecordDefaults(ev: TaskResult, status: Status, ctx: Context)
    requires BuildEntry(ev, status, ctx).Built?
    ensures var r := BuildEntry(ev, status, ctx).record;
            && r.changed == (if "changed" in ev.payload then ev.payload["changed"] else Bool(false))
            && r.groups == (if "group_names" in ev.hostVars then ev.hostVars["group_names"] else List([]))
            && (ctx.user.Some? ==> r.executor == ctx.user.value)
            && (ctx.user.None? ==> r.executor == "unknown")
            && r.timestamp == ctx.now
  {
  }

  /** A service task whose diff goes from "" to "running". */
  lemma ServiceScenario(ctx: Context)
    ensures var ev := TaskResult("web01", map[], "start web", "service", map[],
                                 map["changed" := Bool(true),
                                     "diff" := Dict(map["before" := Str(""), "after" := Str("running")])]);
            var p := BuildEntry(ev, Ok, ctx);
            && p.Built?
            && p.record.outputBefore == Null
            && p.record.outputAfter == Str("running")
            && p.record.changed == Bool(true)
            && p.record.status.Label() == "ok"
  {
  }
}
