/** What the scheduler operations do to the stored jobs: one job at a time, and only to good ones (core/cron.go). */
module CronJobs {
  import opened Wrappers
  import opened Strings
  import opened CronTable

  // ----- The fields of a job under their JSON names -----

  /** What a job shows under a JSON name, None for an empty pointer and for names that are no field. */
  function FieldOf(job: Job, name: string): Option<Value> {
    if name == "id" then Some(Str(job.id))
    else if name == "project" then Some(Str(job.project))
    else if name == "session_key" then Some(Str(job.sessionKey))
    else if name == "cron_expr" then Some(Str(job.cronExpr))
    else if name == "prompt" then Some(Str(job.prompt))
    else if name == "exec" then Some(Str(job.exec))
    else if name == "work_dir" then Some(Str(job.workDir))
    else if name == "description" then Some(Str(job.description))
    else if name == "enabled" then Some(Bool(job.enabled))
    else if name == "silent" then (if job.silent == None then None else Some(Bool(job.silent.value)))
    else if name == "mute" then Some(Bool(job.mute))
    else if name == "session_mode" then Some(Str(job.sessionMode))
    else if name == "mode" then Some(Str(job.mode))
    else if name == "timeout_mins" then (if job.timeoutMins == None then None else Some(Int(job.timeoutMins.value)))
    else None
  }

  const TEXT_FIELDS :=
    ["project", "session_key", "cron_expr", "prompt", "exec", "work_dir", "description", "session_mode", "mode"]
  const FLAG_FIELDS := ["enabled", "silent", "mute"]

  predicate Accepts(field: string, value: Value) {
    match value
    case Str(_) => field in TEXT_FIELDS
    case Bool(_) => field in FLAG_FIELDS
    case Num(_) => field == "timeout_mins"
    case Int(_) => field == "timeout_mins"
    case OtherValue => false
  }

  /** A number with a fraction loses it. */
  predicate Shows(shown: Option<Value>, value: Value) {
    if value.Num? then
      shown.Some? && shown.value.Int? &&
      if value.n >= 0.0 then shown.value.i as real <= value.n < shown.value.i as real + 1.0
      else shown.value.i as real - 1.0 < value.n <= shown.value.i as real
    else shown == Some(value)
  }

  /** The update of one field: the field shows the value, the others what they showed. */
  ghost predicate WritesField(job: Job, r: Option<Job>, field: string, value: Value) {
    && (r.Some? <==> Accepts(field, value))
    && (r.Some? ==> Shows(FieldOf(r.value, field), value) &&
                    forall name :: name != field ==> FieldOf(r.value, name) == FieldOf(job, name))
  }

  lemma FirstTextUpdate(job: Job, field: string, s: string)
    requires field in ["project", "session_key", "cron_expr", "prompt"]
    ensures WritesField(job, UpdatedField(job, field, Str(s)), field, Str(s))
  {
  }

  lemma NextTextUpdate(job: Job, field: string, s: string)
    requires field in ["exec", "work_dir", "description"]
    ensures WritesField(job, UpdatedField(job, field, Str(s)), field, Str(s))
  {
  }

  lemma LastTextUpdate(job: Job, field: string, s: string)
    requires field !in ["project", "session_key", "cron_expr", "prompt"] && field !in ["exec", "work_dir", "description"]
    ensures WritesField(job, UpdatedField(job, field, Str(s)), field, Str(s))
  {
  }

  lemma FlagUpdate(job: Job, field: string, b: bool)
    ensures WritesField(job, UpdatedField(job, field, Bool(b)), field, Bool(b))
  {
  }

  lemma OtherUpdate(job: Job, field: string, value: Value)
    requires !value.Str? && !value.Bool?
    ensures WritesField(job, UpdatedField(job, field, value), field, value)
  {
  }

  /** An accepted update writes the field of that JSON name and no other. */
  lemma UpdateIsLens(job: Job, field: string, value: Value)
    ensures WritesField(job, UpdatedField(job, field, value), field, value)
  {
    hide WritesField, UpdatedField;
    match value
    case Str(s) =>
      if field in ["project", "session_key", "cron_expr", "prompt"] { FirstTextUpdate(job, field, s); }
      else if field in ["exec", "work_dir", "description"] { NextTextUpdate(job, field, s); }
      else { LastTextUpdate(job, field, s); }
    case Bool(b) => FlagUpdate(job, field, b);
    case _ => OtherUpdate(job, field, value);
  }

  /** The fields are all there is to a job. */
  lemma FieldsAreAll(a: Job, b: Job)
    requires forall name :: FieldOf(a, name) == FieldOf(b, name)
    ensures a == b
  {
    FieldsShow(a, b, "id", "project", "session_key", "cron_expr");
    FieldsShow(a, b, "prompt", "exec", "work_dir", "description");
    FieldsShow(a, b, "enabled", "silent", "mute", "session_mode");
    FieldsShow(a, b, "mode", "timeout_mins", "", "");
  }

  lemma FieldsShow(a: Job, b: Job, n1: string, n2: string, n3: string, n4: string)
    requires forall name :: FieldOf(a, name) == FieldOf(b, name)
    ensures FieldOf(a, n1) == FieldOf(b, n1) && FieldOf(a, n2) == FieldOf(b, n2)
    ensures FieldOf(a, n3) == FieldOf(b, n3) && FieldOf(a, n4) == FieldOf(b, n4)
  {
  }

  // ----- Jobs that pass the checks -----

  /** The session mode that is stored for a request. */
  lemma SessionModeIs(mode: string)
    ensures var s := TrimSpace(mode);
            && (Normalized(mode) == "" <==> s == "" || InAnyCase(s, "reuse"))
            && (Normalized(mode) == "new_per_run" <==> InAnyCase(s, "new_per_run") || InAnyCase(s, "new-per-run"))
            && (Normalized(mode) == "" || Normalized(mode) == "new_per_run" || Normalized(mode) == s)
  {
    hide TrimSpace, Lower, InAnyCase;
    var s := TrimSpace(mode);
    LowerIs(s, "");
    LowerIs(s, "reuse");
    LowerIs(s, "new_per_run");
    LowerIs(s, "new-per-run");
    NoneIsEmpty(s);
  }

  lemma NoneIsEmpty(s: string)
    ensures InAnyCase(s, "") <==> s == ""
    ensures Lower("new_per_run") == "new_per_run"
  {
    LowerIs("new_per_run", "new_per_run");
  }

  /** What validateCronJob lets pass. */
  lemma GoodJobIs(job: Job)
    ensures var s := TrimSpace(job.sessionMode);
            GoodJob(job) <==>
              && (s == "" || InAnyCase(s, "reuse") || InAnyCase(s, "new_per_run") || InAnyCase(s, "new-per-run"))
              && (job.mode == "" || job.mode == "default" || job.mode == "bypassPermissions" || job.mode == "acceptEdits" ||
                  job.mode == "plan" || job.mode == "auto" || job.mode == "dontAsk")
              && (job.timeoutMins == None || job.timeoutMins.value >= 0)
  {
    hide TrimSpace, InAnyCase, Normalized;
    SessionModeIs(job.sessionMode);
  }

  predicate AllGood(jobs: seq<Job>) {
    forall i :: 0 <= i < |jobs| ==> GoodJob(jobs[i])
  }

  /** Below 0 once the fraction is dropped. */
  predicate Negative(value: Value) {
    (value.Num? && value.n <= -1.0) || (value.Int? && value.i < 0)
  }

  /** The one way to store what validateCronJob refuses: UpdateJob does not look at the sign of a timeout. */
  predicate SetsNegative(s: State, op: Op) {
    op.Update? && op.field == "timeout_mins" && Negative(op.value) && Lookup(s.jobs, op.id).Some?
  }

  /** One operation keeps all stored jobs good exactly when it does not set a negative timeout. */
  lemma StepKeepsGood(s: State, op: Op, valid: string -> bool)
    requires AllGood(s.jobs)
    ensures AllGood(Step(s, op, valid).jobs) <==> !SetsNegative(s, op)
  {
    hide GoodJob, Lookup, WithJob, WithoutJob, Scheduled, GoodUpdate, UpdatedField;
    match op
    case Add(job) => AddedIsGood(s, job, valid);
    case Remove(id) => WithoutIsGood(s.jobs, id);
    case Enable(id) => FlagIsGood(s, id, true, valid);
    case Disable(id) => FlagIsGood(s, id, false, valid);
    case Update(id, field, value) =>
      if Lookup(s.jobs, id).Some? { UpdatedIsGood(s, id, field, value, valid); }
  }

  lemma AddedIsGood(s: State, job: Job, valid: string -> bool)
    requires AllGood(s.jobs)
    ensures AllGood(Added(s, job, valid).jobs)
  {
    hide Lower, TrimSpace;
    if GoodJob(job) { NormalTwice(job.sessionMode); }
  }

  lemma NormalTwice(mode: string)
    requires GoodSessionMode(mode)
    ensures GoodSessionMode(Normalized(mode))
  {
    EmptyTrim();
    TrimOfTrimmed("new_per_run");
    NoneIsEmpty("");
  }

  lemma EmptyTrim()
    ensures TrimSpace("") == ""
  {
  }

  lemma {:induction false} WithoutIsGood(jobs: seq<Job>, id: string)
    requires AllGood(jobs)
    ensures AllGood(WithoutJob(jobs, id))
  {
    hide GoodJob;
    if jobs != [] && jobs[0].id != id {
      assert AllGood(jobs[1..]);
      WithoutIsGood(jobs[1..], id);
    }
  }

  lemma {:induction false} ReplacedIsGood(jobs: seq<Job>, id: string, job: Job)
    requires AllGood(jobs) && Lookup(jobs, id).Some?
    ensures AllGood(WithJob(jobs, id, job)) <==> GoodJob(job)
  {
    hide GoodJob;
    if jobs[0].id == id {
      assert WithJob(jobs, id, job)[0] == job;
    } else {
      assert AllGood(jobs[1..]);
      ReplacedIsGood(jobs[1..], id, job);
      var r, rest := WithJob(jobs, id, job), WithJob(jobs[1..], id, job);
      assert r[0] == jobs[0] && r[1..] == rest;
      if AllGood(r) { assert forall i :: 0 <= i < |rest| ==> rest[i] == r[i + 1]; }
    }
  }

  lemma TimersKeepJobs(s: State, id: string, job: Job, valid: string -> bool)
    ensures Unscheduled(s, id).jobs == s.jobs && Scheduled(s, job, valid).jobs == s.jobs
    ensures ScheduledIfEnabled(s, job, valid).jobs == s.jobs
  {
  }

  lemma FlagIsGood(s: State, id: string, on: bool, valid: string -> bool)
    requires AllGood(s.jobs)
    ensures AllGood((if on then EnabledJob(s, id, valid) else DisabledJob(s, id)).jobs)
  {
    hide GoodSessionMode, GoodMode, AllGood, WithJob, Lookup, Scheduled, Unscheduled;
    if Lookup(s.jobs, id).Some? {
      var job := Lookup(s.jobs, id).value.(enabled := on);
      StoredIsGood(s.jobs, id);
      ReplacedIsGood(s.jobs, id, job);
      TimersKeepJobs(s.(jobs := WithJob(s.jobs, id, job)), id, job, valid);
    }
  }

  lemma StoredIsGood(jobs: seq<Job>, id: string)
    requires AllGood(jobs) && Lookup(jobs, id).Some?
    ensures GoodJob(Lookup(jobs, id).value)
  {
    hide GoodJob;
  }

  lemma UpdatedIsGood(s: State, id: string, field: string, value: Value, valid: string -> bool)
    requires AllGood(s.jobs) && Lookup(s.jobs, id).Some?
    ensures AllGood(Updated(s, id, field, value, valid).jobs) <==> !SetsNegative(s, Update(id, field, value))
  {
    hide Lookup, WithJob, Unscheduled, ScheduledIfEnabled, GoodUpdate, UpdatedField, GoodJob, AllGood, ReadOnly;
    var job := Lookup(s.jobs, id).value;
    StoredIsGood(s.jobs, id);
    FieldIsGood(job, field, value, valid);
    var r := UpdatedField(job, field, value);
    if r.Some? {
      ReplacedIsGood(s.jobs, id, r.value);
      var stored := (if NeedsReschedule(field) then Unscheduled(s, id) else s).(jobs := WithJob(s.jobs, id, r.value));
      TimersKeepJobs(stored, id, r.value, valid);
    }
    TimersKeepJobs(s, id, job, valid);
  }

  lemma EmptyModes()
    ensures GoodSessionMode("") && GoodMode("")
  {
    EmptyTrim();
  }

  lemma FieldIsGood(job: Job, field: string, value: Value, valid: string -> bool)
    requires GoodJob(job)
    ensures var r := UpdatedField(job, field, value);
            && (r.Some? && GoodUpdate(field, value, valid) ==>
                  (GoodJob(r.value) <==> !(field == "timeout_mins" && Negative(value))))
            && (field == "timeout_mins" && Negative(value) ==>
                  r.Some? && GoodUpdate(field, value, valid) && !ReadOnly(field))
  {
    hide GoodSessionMode, GoodMode;
    EmptyModes();
  }

  // ----- One job at a time -----

  /** The session mode of a stored job. */
  function StoredMode(mode: string): string {
    if InAnyCase(TrimSpace(mode), "new_per_run") || InAnyCase(TrimSpace(mode), "new-per-run") then "new_per_run" else ""
  }

  /** What an operation makes of the job with id `x`. */
  function JobAfter(job: Option<Job>, op: Op, x: string, valid: string -> bool): Option<Job> {
    match op
    case Add(new') =>
      if new'.id == x && GoodJob(new') && valid(new'.cronExpr) then Some(new'.(sessionMode := StoredMode(new'.sessionMode)))
      else job
    case Remove(id) => if id == x then None else job
    case Enable(id) => if id == x && job.Some? then Some(job.value.(enabled := true)) else job
    case Disable(id) => if id == x && job.Some? then Some(job.value.(enabled := false)) else job
    case Update(id, field, value) =>
      if id == x && job.Some? && Accepts(field, value) && GoodUpdate(field, value, valid)
      then UpdatedField(job.value, field, value) else job
  }

  lemma AcceptsNoReadOnly(field: string, value: Value)
    ensures Accepts(field, value) ==> !ReadOnly(field)
  {
  }

  /** The stored list is a map from ids to jobs: every operation changes the job of its id and no other. */
  lemma StepIsPerJob(s: State, op: Op, valid: string -> bool, x: string)
    requires Agrees(s, valid) && !Breaks(s, op, valid)
    ensures Lookup(Step(s, op, valid).jobs, x) == JobAfter(Lookup(s.jobs, x), op, x, valid)
  {
    hide GoodJob, Lookup, WithJob, WithoutJob, Scheduled, Unscheduled, ScheduledIfEnabled, UpdatedField, Accepts, ReadOnly;
    hide GoodUpdate, UniqueIds, ValidExprs, Linked, Right, StoredMode, Normalized;
    match op
    case Add(job) => AddedIs(s, job, valid, x);
    case Remove(id) =>
      LookupWithout(s.jobs, id, x);
    case Enable(id) => FlagIs(s, id, true, valid, x);
    case Disable(id) => FlagIs(s, id, false, valid, x);
    case Update(id, field, value) => UpdatedIs(s, id, field, value, valid, x);
  }

  lemma AddedIs(s: State, job: Job, valid: string -> bool, x: string)
    requires GoodJob(job) && valid(job.cronExpr) ==> Lookup(s.jobs, job.id).None?
    ensures Lookup(Added(s, job, valid).jobs, x) == JobAfter(Lookup(s.jobs, x), Add(job), x, valid)
  {
    hide Lookup, Scheduled, TrimSpace, InAnyCase, Lower;
    if GoodJob(job) && valid(job.cronExpr) {
      SessionModeIs(job.sessionMode);
      var j := job.(sessionMode := Normalized(job.sessionMode));
      LookupAppended(s.jobs, j, x);
      TimersKeepJobs(s.(jobs := s.jobs + [j]), j.id, j, valid);
    }
  }

  lemma FlagIs(s: State, id: string, on: bool, valid: string -> bool, x: string)
    ensures Lookup((if on then EnabledJob(s, id, valid) else DisabledJob(s, id)).jobs, x) ==
            JobAfter(Lookup(s.jobs, x), if on then Enable(id) else Disable(id), x, valid)
  {
    hide Lookup, WithJob, Scheduled, Unscheduled;
    if Lookup(s.jobs, id).Some? {
      var job := Lookup(s.jobs, id).value.(enabled := on);
      LookupWithJob(s.jobs, id, job, x);
      TimersKeepJobs(s.(jobs := WithJob(s.jobs, id, job)), id, job, valid);
    }
  }

  lemma UpdatedIs(s: State, id: string, field: string, value: Value, valid: string -> bool, x: string)
    ensures Lookup(Updated(s, id, field, value, valid).jobs, x) ==
            JobAfter(Lookup(s.jobs, x), Update(id, field, value), x, valid)
  {
    hide Lookup, WithJob, Unscheduled, ScheduledIfEnabled, GoodUpdate, UpdatedField, Accepts, ReadOnly;
    if Lookup(s.jobs, id).Some? {
      var job := Lookup(s.jobs, id).value;
      var r := UpdatedField(job, field, value);
      UpdateIsLens(job, field, value);
      AcceptsNoReadOnly(field, value);
      UpdatedFieldIs(job, field, value);
      if r.Some? {
        LookupWithJob(s.jobs, id, r.value, x);
        var stored := (if NeedsReschedule(field) then Unscheduled(s, id) else s).(jobs := WithJob(s.jobs, id, r.value));
        TimersKeepJobs(stored, id, r.value, valid);
      }
      TimersKeepJobs(s, id, job, valid);
    }
  }

  // ----- The order of the stored jobs -----

  /** `r` is `jobs` without its first job of that id. */
  predicate OneLess(jobs: seq<Job>, r: seq<Job>, id: string, k: nat) {
    && k < |jobs| && jobs[k].id == id && (forall i :: 0 <= i < k ==> jobs[i].id != id)
    && r == jobs[..k] + jobs[k + 1..]
  }

  lemma {:induction false} WithoutIsOneLess(jobs: seq<Job>, id: string)
    ensures if Lookup(jobs, id) == None then WithoutJob(jobs, id) == jobs
            else exists k :: OneLess(jobs, WithoutJob(jobs, id), id, k)
  {
    if jobs == [] {
    } else if jobs[0].id == id {
      assert jobs[..0] + jobs[1..] == jobs[1..];
      assert OneLess(jobs, WithoutJob(jobs, id), id, 0);
    } else {
      WithoutIsOneLess(jobs[1..], id);
      if Lookup(jobs[1..], id) == None {
        assert [jobs[0]] + jobs[1..] == jobs;
      } else {
        hide OneLess;
        var k: nat :| OneLess(jobs[1..], WithoutJob(jobs[1..], id), id, k);
        OneLessBehind(jobs, WithoutJob(jobs[1..], id), id, k);
        assert OneLess(jobs, WithoutJob(jobs, id), id, k + 1);
      }
    }
  }

  lemma OneLessBehind(jobs: seq<Job>, rest: seq<Job>, id: string, k: nat)
    requires jobs != [] && jobs[0].id != id && OneLess(jobs[1..], rest, id, k)
    ensures OneLess(jobs, [jobs[0]] + rest, id, k + 1)
  {
    assert jobs[..k + 1] == [jobs[0]] + jobs[1..][..k] && jobs[k + 2..] == jobs[1..][k + 1..];
    forall i | 0 < i < k + 1 ensures jobs[i].id != id { assert jobs[i] == jobs[1..][i - 1]; }
  }

  /** The same jobs by id, at the same places. */
  predicate SameIds(a: seq<Job>, b: seq<Job>) {
    |a| == |b| && forall i :: 0 <= i < |a| ==> a[i].id == b[i].id
  }

  /** An accepted job goes to the end of the list, a removed one leaves the others in order, no other operation moves any. */
  lemma StepKeepsOrder(s: State, op: Op, valid: string -> bool)
    ensures var r := Step(s, op, valid).jobs;
            match op
            case Add(job) =>
              if GoodJob(job) && valid(job.cronExpr) then |r| == |s.jobs| + 1 && r[..|s.jobs|] == s.jobs && r[|s.jobs|].id == job.id
              else r == s.jobs
            case Remove(id) => if Lookup(s.jobs, id) == None then r == s.jobs else exists k :: OneLess(s.jobs, r, id, k)
            case _ => SameIds(r, s.jobs)
  {
    hide GoodJob, Lookup, WithJob, WithoutJob, Scheduled, Unscheduled, ScheduledIfEnabled, UpdatedField, ReadOnly, GoodUpdate;
    hide SameIds;
    SameIdsAsBefore(s.jobs);
    match op
    case Add(job) =>
      var j := job.(sessionMode := Normalized(job.sessionMode));
      TimersKeepJobs(s.(jobs := s.jobs + [j]), j.id, j, valid);
    case Remove(id) => WithoutIsOneLess(s.jobs, id);
    case Enable(id) => if Lookup(s.jobs, id).Some? { ReplacedKeepsIds(s, id, Lookup(s.jobs, id).value.(enabled := true), valid); }
    case Disable(id) => if Lookup(s.jobs, id).Some? { ReplacedKeepsIds(s, id, Lookup(s.jobs, id).value.(enabled := false), valid); }
    case Update(id, field, value) =>
      if Lookup(s.jobs, id).Some? {
        var job := Lookup(s.jobs, id).value;
        var r := UpdatedField(job, field, value);
        UpdatedFieldIs(job, field, value);
        TimersKeepJobs(s, id, job, valid);
        if r.Some? {
          ReplacedKeepsIds(s, id, r.value, valid);
          ReplacedKeepsIds(Unscheduled(s, id), id, r.value, valid);
        }
      }
  }

  lemma SameIdsAsBefore(jobs: seq<Job>)
    ensures SameIds(jobs, jobs)
  {
  }

  lemma ReplacedKeepsIds(s: State, id: string, job: Job, valid: string -> bool)
    requires job.id == id
    ensures var r := s.(jobs := WithJob(s.jobs, id, job));
            && SameIds(r.jobs, s.jobs) && SameIds(Scheduled(r, job, valid).jobs, s.jobs)
            && SameIds(ScheduledIfEnabled(r, job, valid).jobs, s.jobs) && SameIds(Unscheduled(r, id).jobs, s.jobs)
  {
    hide WithJob;
    forall i | 0 <= i < |s.jobs| ensures WithJob(s.jobs, id, job)[i].id == s.jobs[i].id { WithJobIds(s.jobs, id, job, i); }
  }

  // ----- Whole runs -----

  /** The job of id `x` after a sequence of operations. */
  function JobAfterAll(job: Option<Job>, ops: seq<Op>, x: string, valid: string -> bool): Option<Job> {
    if ops == [] then job else JobAfter(JobAfterAll(job, ops[..|ops| - 1], x, valid), ops[|ops| - 1], x, valid)
  }

  /** Through any operations that do not break the agreement, what is stored for an id depends on that id alone. */
  lemma {:induction false} RunIsPerJob(s: State, ops: seq<Op>, valid: string -> bool, x: string)
    requires Agrees(s, valid) && BreaksNowhere(s, ops, valid)
    ensures Lookup(CronTable.Run(s, ops, valid).jobs, x) == JobAfterAll(Lookup(s.jobs, x), ops, x, valid)
  {
    hide Agrees, Breaks, Step, JobAfter, Lookup;
    if ops != [] {
      var init := ops[..|ops| - 1];
      RunIsPerJob(s, init, valid, x);
      RunAgrees(s, init, valid);
      StepIsPerJob(CronTable.Run(s, init, valid), ops[|ops| - 1], valid, x);
    }
  }
}
