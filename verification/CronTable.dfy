/** The cron job store and the timer table as values, and the invariant that ties them (core/cron.go). */
module CronTable {
  import opened Wrappers
  import opened Strings

  /** A value of an update request. */
  datatype Value = Str(s: string) | Bool(b: bool) | Num(n: real) | Int(i: int) | OtherValue

  datatype Job = Job(
    id: string, project: string, sessionKey: string, cronExpr: string, prompt: string, exec: string,
    workDir: string, description: string, enabled: bool, silent: Option<bool>, mute: bool,
    sessionMode: string, mode: string, timeoutMins: Option<int>)

  /** An entry of the timer library: it runs job `job` by `expr`. */
  datatype Timer = Timer(expr: string, job: string)

  datatype State = State(jobs: seq<Job>, entries: map<string, nat>, timers: map<nat, Timer>, next: nat)

  // ----- The store -----

  function Lookup(jobs: seq<Job>, id: string): (r: Option<Job>)
    ensures r.Some? ==> r.value.id == id && r.value in jobs
  {
    if jobs == [] then None else if jobs[0].id == id then Some(jobs[0]) else Lookup(jobs[1..], id)
  }

  /** The list with its first job of that id replaced. */
  function WithJob(jobs: seq<Job>, id: string, job: Job): (r: seq<Job>)
    ensures |r| == |jobs|
  {
    if jobs == [] then [] else if jobs[0].id == id then [job] + jobs[1..] else [jobs[0]] + WithJob(jobs[1..], id, job)
  }

  function WithoutJob(jobs: seq<Job>, id: string): seq<Job> {
    if jobs == [] then [] else if jobs[0].id == id then jobs[1..] else [jobs[0]] + WithoutJob(jobs[1..], id)
  }

  function Truncated(x: real): int {
    if x >= 0.0 then x.Floor else -((-x).Floor)
  }

  /** updateJobField on the fields it names; None is its error. */
  function UpdatedField(job: Job, field: string, value: Value): Option<Job> {
    match value
    case Str(s) =>
      if field == "project" then Some(job.(project := s))
      else if field == "session_key" then Some(job.(sessionKey := s))
      else if field == "cron_expr" then Some(job.(cronExpr := s))
      else if field == "prompt" then Some(job.(prompt := s))
      else if field == "exec" then Some(job.(exec := s))
      else if field == "work_dir" then Some(job.(workDir := s))
      else if field == "description" then Some(job.(description := s))
      else if field == "session_mode" then Some(job.(sessionMode := s))
      else if field == "mode" then Some(job.(mode := s))
      else None
    case Bool(b) =>
      if field == "enabled" then Some(job.(enabled := b))
      else if field == "silent" then Some(job.(silent := Some(b)))
      else if field == "mute" then Some(job.(mute := b))
      else None
    case Num(n) => if field == "timeout_mins" then Some(job.(timeoutMins := Some(Truncated(n)))) else None
    case Int(i) => if field == "timeout_mins" then Some(job.(timeoutMins := Some(i))) else None
    case OtherValue => None
  }

  predicate ReadOnly(field: string) {
    field in ["id", "created_at", "last_run", "last_error"]
  }

  /** CronStore.Update: the job after the update, None when it returns false. */
  function StoreUpdated(jobs: seq<Job>, id: string, field: string, value: Value): Option<Job> {
    if ReadOnly(field) || Lookup(jobs, id).None? then None else UpdatedField(Lookup(jobs, id).value, field, value)
  }

  // ----- Checks on requests -----

  function Normalized(mode: string): string {
    var s := TrimSpace(mode);
    if Lower(s) == "" || Lower(s) == "reuse" then ""
    else if Lower(s) == "new_per_run" || Lower(s) == "new-per-run" then "new_per_run"
    else s
  }

  predicate GoodSessionMode(mode: string) {
    Normalized(mode) == "" || Normalized(mode) == "new_per_run"
  }

  predicate GoodMode(mode: string) {
    mode in ["", "default", "bypassPermissions", "acceptEdits", "plan", "auto", "dontAsk"]
  }

  predicate GoodJob(job: Job) {
    GoodSessionMode(job.sessionMode) && GoodMode(job.mode) && (job.timeoutMins.Some? ==> job.timeoutMins.value >= 0)
  }

  /** What UpdateJob checks before it touches anything. */
  predicate GoodUpdate(field: string, value: Value, valid: string -> bool) {
    && (field == "cron_expr" ==> value.Str? && valid(value.s))
    && (field == "mode" && value.Str? ==> GoodMode(value.s))
    && (field == "session_mode" && value.Str? && value.s != "" ==> GoodSessionMode(value.s))
  }

  // ----- The operations -----

  function Unscheduled(s: State, id: string): State {
    if id in s.entries then s.(timers := s.timers - {s.entries[id]}, entries := s.entries - {id}) else s
  }

  /** scheduleJob: an old timer of the job goes first; an expression the library refuses gets no new one. */
  function Scheduled(s: State, job: Job, valid: string -> bool): State {
    var cleared := if job.id in s.entries then s.timers - {s.entries[job.id]} else s.timers;
    if valid(job.cronExpr) then
      s.(timers := cleared[s.next := Timer(job.cronExpr, job.id)], entries := s.entries[job.id := s.next], next := s.next + 1)
    else s.(timers := cleared)
  }

  function ScheduledIfEnabled(s: State, job: Job, valid: string -> bool): State {
    if job.enabled then Scheduled(s, job, valid) else s
  }

  /** Start: the enabled ones of the first `n` jobs are scheduled. */
  function Started(s: State, n: nat, valid: string -> bool): (r: State)
    requires n <= |s.jobs|
    ensures r.jobs == s.jobs
  {
    if n == 0 then s else ScheduledIfEnabled(Started(s, n - 1, valid), s.jobs[n - 1], valid)
  }

  function Added(s: State, job: Job, valid: string -> bool): State {
    if !GoodJob(job) || !valid(job.cronExpr) then s
    else
      var j := job.(sessionMode := Normalized(job.sessionMode));
      ScheduledIfEnabled(s.(jobs := s.jobs + [j]), j, valid)
  }

  function Removed(s: State, id: string): State {
    Unscheduled(s, id).(jobs := WithoutJob(s.jobs, id))
  }

  function EnabledJob(s: State, id: string, valid: string -> bool): State {
    if Lookup(s.jobs, id).None? then s
    else
      var job := Lookup(s.jobs, id).value.(enabled := true);
      Scheduled(s.(jobs := WithJob(s.jobs, id, job)), job, valid)
  }

  function DisabledJob(s: State, id: string): State {
    if Lookup(s.jobs, id).None? then s
    else Unscheduled(s.(jobs := WithJob(s.jobs, id, Lookup(s.jobs, id).value.(enabled := false))), id)
  }

  predicate NeedsReschedule(field: string) {
    field == "cron_expr" || field == "enabled"
  }

  function Updated(s: State, id: string, field: string, value: Value, valid: string -> bool): State {
    if Lookup(s.jobs, id).None? || !GoodUpdate(field, value, valid) then s
    else
      var cleared := if NeedsReschedule(field) then Unscheduled(s, id) else s;
      var job := StoreUpdated(s.jobs, id, field, value);
      if job.None? then cleared
      else
        var stored := cleared.(jobs := WithJob(s.jobs, id, job.value));
        if NeedsReschedule(field) then ScheduledIfEnabled(stored, job.value, valid) else stored
  }

  datatype Op =
    | Add(job: Job)
    | Remove(id: string)
    | Enable(id: string)
    | Disable(id: string)
    | Update(id: string, field: string, value: Value)

  function Step(s: State, op: Op, valid: string -> bool): State {
    match op
    case Add(job) => Added(s, job, valid)
    case Remove(id) => Removed(s, id)
    case Enable(id) => EnabledJob(s, id, valid)
    case Disable(id) => DisabledJob(s, id)
    case Update(id, field, value) => Updated(s, id, field, value, valid)
  }

  function Run(s: State, ops: seq<Op>, valid: string -> bool): State {
    if ops == [] then s else Step(Run(s, ops[..|ops| - 1], valid), ops[|ops| - 1], valid)
  }

  // ----- The invariant -----

  ghost predicate UniqueIds(jobs: seq<Job>) {
    forall i, j :: 0 <= i < j < |jobs| ==> jobs[i].id != jobs[j].id
  }

  ghost predicate ValidExprs(jobs: seq<Job>, valid: string -> bool) {
    forall i :: 0 <= i < |jobs| ==> valid(jobs[i].cronExpr)
  }

  /** Entries and timers belong to each other one to one. */
  ghost predicate Linked(s: State) {
    && (forall id :: id in s.entries ==> s.entries[id] in s.timers && s.timers[s.entries[id]].job == id)
    && (forall e :: e in s.timers ==> e < s.next && s.timers[e].job in s.entries && s.entries[s.timers[e].job] == e)
  }

  /** The job has a timer exactly when it is stored and enabled, and it is the timer of its current expression. */
  ghost predicate Right(s: State, id: string) {
    var job := Lookup(s.jobs, id);
    && (id in s.entries <==> job.Some? && job.value.enabled)
    && (id in s.entries ==> s.entries[id] in s.timers && s.timers[s.entries[id]] == Timer(job.value.cronExpr, id))
  }

  ghost predicate Agrees(s: State, valid: string -> bool) {
    UniqueIds(s.jobs) && ValidExprs(s.jobs, valid) && Linked(s) && forall id :: Right(s, id)
  }

  // ----- Lookups in changed lists -----

  lemma {:induction false} LookupWithJob(jobs: seq<Job>, id: string, job: Job, x: string)
    requires Lookup(jobs, id).Some? && job.id == id
    ensures Lookup(WithJob(jobs, id, job), x) == if x == id then Some(job) else Lookup(jobs, x)
  {
    if jobs[0].id != id { LookupWithJob(jobs[1..], id, job, x); }
  }

  lemma {:induction false} LookupAppended(jobs: seq<Job>, job: Job, x: string)
    ensures Lookup(jobs + [job], x) ==
            if Lookup(jobs, x).Some? then Lookup(jobs, x) else if x == job.id then Some(job) else None
  {
    if jobs == [] {
      assert [] + [job] == [job];
    } else {
      assert (jobs + [job])[1..] == jobs[1..] + [job];
      LookupAppended(jobs[1..], job, x);
    }
  }

  lemma {:induction false} LookupNone(jobs: seq<Job>, id: string)
    ensures Lookup(jobs, id).None? <==> forall i :: 0 <= i < |jobs| ==> jobs[i].id != id
  {
    if jobs != [] && jobs[0].id != id {
      LookupNone(jobs[1..], id);
      assert forall i :: 0 < i < |jobs| ==> jobs[i] == jobs[1..][i - 1];
    }
  }

  lemma {:induction false} LookupWithout(jobs: seq<Job>, id: string, x: string)
    requires UniqueIds(jobs)
    ensures Lookup(WithoutJob(jobs, id), x) == if x == id then None else Lookup(jobs, x)
  {
    if jobs != [] {
      if jobs[0].id == id { LookupNone(jobs[1..], id); } else { LookupWithout(jobs[1..], id, x); }
    }
  }

  lemma {:induction false} WithJobIds(jobs: seq<Job>, id: string, job: Job, i: nat)
    requires job.id == id && i < |jobs|
    ensures WithJob(jobs, id, job)[i].id == jobs[i].id
    ensures WithJob(jobs, id, job)[i] == jobs[i] || WithJob(jobs, id, job)[i] == job
  {
    if jobs[0].id != id && i > 0 { WithJobIds(jobs[1..], id, job, i - 1); }
  }

  lemma {:induction false} WithoutJobPart(jobs: seq<Job>, id: string, valid: string -> bool)
    requires UniqueIds(jobs) && ValidExprs(jobs, valid)
    ensures UniqueIds(WithoutJob(jobs, id)) && ValidExprs(WithoutJob(jobs, id), valid)
    ensures forall i :: 0 <= i < |WithoutJob(jobs, id)| ==> WithoutJob(jobs, id)[i] in jobs
  {
    if jobs != [] && jobs[0].id != id {
      WithoutJobPart(jobs[1..], id, valid);
      var rest := WithoutJob(jobs[1..], id);
      forall i | 0 <= i < |rest| ensures rest[i].id != jobs[0].id {
        var k :| 0 <= k < |jobs[1..]| && jobs[1..][k] == rest[i];
        assert jobs[k + 1] == rest[i];
      }
    }
  }

  lemma LookupValid(jobs: seq<Job>, id: string, valid: string -> bool)
    requires ValidExprs(jobs, valid)
    ensures Lookup(jobs, id).Some? ==> valid(Lookup(jobs, id).value.cronExpr)
  {
  }

  lemma WithJobList(jobs: seq<Job>, id: string, job: Job, valid: string -> bool)
    requires UniqueIds(jobs) && ValidExprs(jobs, valid) && job.id == id && valid(job.cronExpr)
    ensures UniqueIds(WithJob(jobs, id, job)) && ValidExprs(WithJob(jobs, id, job), valid)
  {
    forall i | 0 <= i < |jobs|
      ensures WithJob(jobs, id, job)[i].id == jobs[i].id && valid(WithJob(jobs, id, job)[i].cronExpr)
    {
      WithJobIds(jobs, id, job, i);
    }
  }

  // ----- Steps on the timer table -----

  lemma UnscheduledIs(s: State, id: string)
    requires Linked(s)
    ensures var r := Unscheduled(s, id);
            && Linked(r) && id !in r.entries
            && (forall x :: x != id ==> (x in r.entries <==> x in s.entries))
            && (forall x :: x in r.entries ==> r.entries[x] == s.entries[x] && r.timers[r.entries[x]] == s.timers[s.entries[x]])
  {
  }

  lemma ScheduledIs(s: State, job: Job, valid: string -> bool)
    requires Linked(s) && valid(job.cronExpr)
    ensures var r := Scheduled(s, job, valid);
            && Linked(r) && job.id in r.entries && r.timers[r.entries[job.id]] == Timer(job.cronExpr, job.id)
            && (forall x :: x != job.id ==> (x in r.entries <==> x in s.entries))
            && (forall x :: x != job.id && x in r.entries ==>
                  r.entries[x] == s.entries[x] && r.timers[r.entries[x]] == s.timers[s.entries[x]])
  {
  }

  /** An expression that the library refuses leaves the job without a timer, with its old entry, and the others alone. */
  lemma RefusedHasNoTimer(s: State, job: Job, valid: string -> bool)
    requires Linked(s) && !valid(job.cronExpr)
    ensures var r := Scheduled(s, job, valid);
            && r.entries == s.entries && r.jobs == s.jobs && r.next == s.next
            && (forall e :: e in r.timers <==> e in s.timers && s.timers[e].job != job.id)
            && (forall e :: e in r.timers ==> r.timers[e] == s.timers[e])
  {
  }

  /** `r` has for `x` the stored job and the timer that `s` has. */
  ghost predicate SameFor(s: State, r: State, x: string) {
    && Lookup(r.jobs, x) == Lookup(s.jobs, x)
    && (x in r.entries <==> x in s.entries)
    && (x in r.entries && s.entries[x] in s.timers ==>
          r.entries[x] in r.timers && r.timers[r.entries[x]] == s.timers[s.entries[x]])
  }

  lemma RightSame(s: State, r: State, x: string)
    requires SameFor(s, r, x) && Right(s, x)
    ensures Right(r, x)
  {
  }

  /** Everything stays right when one job is changed and put right again. */
  lemma OneChanged(s: State, r: State, id: string, valid: string -> bool)
    requires Agrees(s, valid) && UniqueIds(r.jobs) && ValidExprs(r.jobs, valid) && Linked(r) && Right(r, id)
    requires forall x :: x != id ==> SameFor(s, r, x)
    ensures Agrees(r, valid)
  {
    hide Right, SameFor, UniqueIds, ValidExprs, Linked;
    forall x ensures Right(r, x) {
      if x != id { RightSame(s, r, x); }
    }
  }

  // ----- The operations keep the agreement -----

  lemma AddAgrees(s: State, job: Job, valid: string -> bool)
    requires Agrees(s, valid) && Lookup(s.jobs, job.id).None?
    ensures Agrees(Added(s, job, valid), valid)
  {
    hide GoodJob, Normalized, Lookup;
    if GoodJob(job) && valid(job.cronExpr) {
      var j := job.(sessionMode := Normalized(job.sessionMode));
      var stored := s.(jobs := s.jobs + [j]);
      AppendedList(s.jobs, j, valid);
      forall x ensures Lookup(stored.jobs, x) == if x == j.id then Some(j) else Lookup(s.jobs, x) {
        LookupAppended(s.jobs, j, x);
      }
      assert Right(s, j.id);
      if j.enabled { ScheduledIs(stored, j, valid); }
      OneChanged(s, ScheduledIfEnabled(stored, j, valid), j.id, valid);
    }
  }

  lemma AppendedList(jobs: seq<Job>, job: Job, valid: string -> bool)
    requires UniqueIds(jobs) && ValidExprs(jobs, valid) && Lookup(jobs, job.id).None? && valid(job.cronExpr)
    ensures UniqueIds(jobs + [job]) && ValidExprs(jobs + [job], valid)
  {
    LookupNone(jobs, job.id);
  }

  lemma RemoveAgrees(s: State, id: string, valid: string -> bool)
    requires Agrees(s, valid)
    ensures Agrees(Removed(s, id), valid)
  {
    hide Lookup, WithoutJob, UniqueIds, ValidExprs;
    UnscheduledIs(s, id);
    WithoutJobPart(s.jobs, id, valid);
    forall x ensures Lookup(WithoutJob(s.jobs, id), x) == if x == id then None else Lookup(s.jobs, x) {
      LookupWithout(s.jobs, id, x);
    }
    OneChanged(s, Removed(s, id), id, valid);
  }

  /** A stored job is replaced; the timers are not touched yet. */
  lemma StoredIs(s: State, id: string, job: Job, valid: string -> bool)
    requires UniqueIds(s.jobs) && ValidExprs(s.jobs, valid) && Lookup(s.jobs, id).Some? && job.id == id && valid(job.cronExpr)
    ensures var r := WithJob(s.jobs, id, job);
            && UniqueIds(r) && ValidExprs(r, valid)
            && (forall x :: Lookup(r, x) == if x == id then Some(job) else Lookup(s.jobs, x))
  {
    hide Lookup, UniqueIds, ValidExprs;
    WithJobList(s.jobs, id, job, valid);
    forall x ensures Lookup(WithJob(s.jobs, id, job), x) == if x == id then Some(job) else Lookup(s.jobs, x) {
      LookupWithJob(s.jobs, id, job, x);
    }
  }

  lemma EnableAgrees(s: State, id: string, valid: string -> bool)
    requires Agrees(s, valid)
    ensures Agrees(EnabledJob(s, id, valid), valid)
  {
    LookupValid(s.jobs, id, valid);
    hide Lookup, WithJob, UniqueIds, ValidExprs;
    if Lookup(s.jobs, id).Some? {
      var job := Lookup(s.jobs, id).value.(enabled := true);
      StoredIs(s, id, job, valid);
      ScheduledIs(s.(jobs := WithJob(s.jobs, id, job)), job, valid);
      OneChanged(s, EnabledJob(s, id, valid), id, valid);
    }
  }

  lemma DisableAgrees(s: State, id: string, valid: string -> bool)
    requires Agrees(s, valid)
    ensures Agrees(DisabledJob(s, id), valid)
  {
    LookupValid(s.jobs, id, valid);
    hide Lookup, WithJob, UniqueIds, ValidExprs;
    if Lookup(s.jobs, id).Some? {
      var job := Lookup(s.jobs, id).value.(enabled := false);
      StoredIs(s, id, job, valid);
      UnscheduledIs(s.(jobs := WithJob(s.jobs, id, job)), id);
      OneChanged(s, DisabledJob(s, id), id, valid);
    }
  }

  /** Which updates touch what the timer table depends on. */
  lemma UpdatedFieldIs(job: Job, field: string, value: Value)
    ensures var r := UpdatedField(job, field, value);
            && (field == "enabled" ==> (r.Some? <==> value.Bool?))
            && (field == "cron_expr" ==> (r.Some? <==> value.Str?))
            && (r.Some? ==>
                  && r.value.id == job.id
                  && r.value.cronExpr == (if field == "cron_expr" then value.s else job.cronExpr)
                  && r.value.enabled == (if field == "enabled" then value.b else job.enabled))
  {
  }

  lemma TimerFields()
    ensures !ReadOnly("enabled") && !ReadOnly("cron_expr") && "enabled" != "cron_expr"
  {
  }

  /** The one update that unschedules a job and leaves it enabled: "enabled" set to something that is no bool. */
  predicate LosesTimer(s: State, id: string, field: string, value: Value) {
    field == "enabled" && !value.Bool? && Lookup(s.jobs, id).Some? && Lookup(s.jobs, id).value.enabled
  }

  lemma UpdateAgrees(s: State, id: string, field: string, value: Value, valid: string -> bool)
    requires Agrees(s, valid) && !LosesTimer(s, id, field, value)
    ensures Agrees(Updated(s, id, field, value, valid), valid)
  {
    LookupValid(s.jobs, id, valid);
    TimerFields();
    hide Lookup, WithJob, UniqueIds, ValidExprs, ReadOnly, UpdatedField, GoodMode, GoodSessionMode;
    if Lookup(s.jobs, id).Some? && GoodUpdate(field, value, valid) {
      var old' := Lookup(s.jobs, id).value;
      var job := StoreUpdated(s.jobs, id, field, value);
      UpdatedFieldIs(old', field, value);
      UnscheduledIs(s, id);
      if job.None? {
        if NeedsReschedule(field) { UnscheduledAgrees(s, id, valid); }
      } else {
        StoredIs(s, id, job.value, valid);
        UpdateStored(s, id, field, job.value, valid);
      }
    }
  }

  lemma UnscheduledAgrees(s: State, id: string, valid: string -> bool)
    requires Agrees(s, valid) && Lookup(s.jobs, id).Some? && !Lookup(s.jobs, id).value.enabled
    ensures Agrees(Unscheduled(s, id), valid)
  {
    hide Lookup, UniqueIds, ValidExprs;
    UnscheduledIs(s, id);
    OneChanged(s, Unscheduled(s, id), id, valid);
  }

  lemma UpdateStored(s: State, id: string, field: string, job: Job, valid: string -> bool)
    requires Agrees(s, valid) && Lookup(s.jobs, id).Some? && job.id == id && valid(job.cronExpr)
    requires !NeedsReschedule(field) ==>
               job.enabled == Lookup(s.jobs, id).value.enabled && job.cronExpr == Lookup(s.jobs, id).value.cronExpr
    ensures var cleared := if NeedsReschedule(field) then Unscheduled(s, id) else s;
            var stored := cleared.(jobs := WithJob(s.jobs, id, job));
            Agrees(if NeedsReschedule(field) then ScheduledIfEnabled(stored, job, valid) else stored, valid)
  {
    hide Lookup, WithJob, UniqueIds, ValidExprs, NeedsReschedule;
    StoredIs(s, id, job, valid);
    UnscheduledIs(s, id);
    assert Right(s, id);
    if NeedsReschedule(field) {
      var stored := Unscheduled(s, id).(jobs := WithJob(s.jobs, id, job));
      if job.enabled { ScheduledIs(stored, job, valid); }
      OneChanged(s, ScheduledIfEnabled(stored, job, valid), id, valid);
    } else {
      OneChanged(s, s.(jobs := WithJob(s.jobs, id, job)), id, valid);
    }
  }

  lemma LostTimer(s: State, id: string, field: string, value: Value, valid: string -> bool)
    requires Agrees(s, valid) && LosesTimer(s, id, field, value)
    ensures var r := Updated(s, id, field, value, valid);
            id !in r.entries && Lookup(r.jobs, id).Some? && Lookup(r.jobs, id).value.enabled
  {
    TimerFields();
    hide ReadOnly, UpdatedField, Lookup;
    UpdatedFieldIs(Lookup(s.jobs, id).value, field, value);
    UnscheduledIs(s, id);
    assert "enabled" != "mode" && "enabled" != "session_mode";
  }

  lemma DuplicateIds(s: State, job: Job, valid: string -> bool)
    requires Lookup(s.jobs, job.id).Some? && GoodJob(job) && valid(job.cronExpr)
    ensures !UniqueIds(Added(s, job, valid).jobs)
  {
    hide GoodJob, Normalized;
    LookupNone(s.jobs, job.id);
    var jobs := Added(s, job, valid).jobs;
    assert |jobs| == |s.jobs| + 1 && jobs[|s.jobs|].id == job.id;
    var i :| 0 <= i < |s.jobs| && s.jobs[i].id == job.id;
    assert jobs[i].id == jobs[|s.jobs|].id;
  }

  /** The steps after which store and timers no longer agree. */
  predicate Breaks(s: State, op: Op, valid: string -> bool) {
    match op
    case Add(job) => GoodJob(job) && valid(job.cronExpr) && Lookup(s.jobs, job.id).Some?
    case Update(id, field, value) => LosesTimer(s, id, field, value)
    case _ => false
  }

  /** One operation keeps the agreement exactly when it is none of these. */
  lemma StepAgrees(s: State, op: Op, valid: string -> bool)
    requires Agrees(s, valid)
    ensures Agrees(Step(s, op, valid), valid) <==> !Breaks(s, op, valid)
  {
    hide Added, Removed, EnabledJob, DisabledJob, Updated, GoodJob, Lookup, LosesTimer;
    if op.Add? {
      if Breaks(s, op, valid) { DuplicateIds(s, op.job, valid); } else { AddOrRefused(s, op.job, valid); }
    } else if op.Remove? {
      RemoveAgrees(s, op.id, valid);
    } else if op.Enable? {
      EnableAgrees(s, op.id, valid);
    } else if op.Disable? {
      DisableAgrees(s, op.id, valid);
    } else if LosesTimer(s, op.id, op.field, op.value) {
      LostTimer(s, op.id, op.field, op.value, valid);
      assert !Right(Step(s, op, valid), op.id);
    } else {
      UpdateAgrees(s, op.id, op.field, op.value, valid);
    }
  }

  lemma AddOrRefused(s: State, job: Job, valid: string -> bool)
    requires Agrees(s, valid) && !Breaks(s, Add(job), valid)
    ensures Agrees(Added(s, job, valid), valid)
  {
    hide GoodJob, Normalized, Agrees;
    if GoodJob(job) && valid(job.cronExpr) { AddAgrees(s, job, valid); }
  }

  // ----- Start, and whole runs -----

  ghost predicate RightUpTo(s: State, n: nat, id: string)
    requires n <= |s.jobs|
  {
    var job := Lookup(s.jobs[..n], id);
    && (id in s.entries <==> job.Some? && job.value.enabled)
    && (id in s.entries ==> s.entries[id] in s.timers && s.timers[s.entries[id]] == Timer(job.value.cronExpr, id))
  }

  lemma {:induction false} StartedIs(s: State, n: nat, valid: string -> bool)
    requires UniqueIds(s.jobs) && ValidExprs(s.jobs, valid) && n <= |s.jobs|
    requires s.entries == map[] && s.timers == map[]
    ensures var r := Started(s, n, valid); Linked(r) && forall id :: RightUpTo(r, n, id)
  {
    hide UniqueIds, ValidExprs, Lookup;
    if n == 0 {
      NoneStored();
      assert s.jobs[..0] == [];
    } else {
      StartedIs(s, n - 1, valid);
      var before, job := Started(s, n - 1, valid), s.jobs[n - 1];
      ValidAt(s.jobs, n - 1, valid);
      assert s.jobs[..n] == s.jobs[..n - 1] + [job];
      NotBefore(s.jobs, n - 1);
      forall x ensures Lookup(s.jobs[..n], x) == if x == job.id then Some(job) else Lookup(s.jobs[..n - 1], x) {
        LookupAppended(s.jobs[..n - 1], job, x);
      }
      if job.enabled { ScheduledIs(before, job, valid); }
      forall id ensures RightUpTo(Started(s, n, valid), n, id) {
        assert RightUpTo(before, n - 1, id);
      }
    }
  }

  lemma NoneStored()
    ensures forall id :: Lookup([], id) == None
  {
  }

  lemma ValidAt(jobs: seq<Job>, i: nat, valid: string -> bool)
    requires ValidExprs(jobs, valid) && i < |jobs|
    ensures valid(jobs[i].cronExpr)
  {
  }

  lemma NotBefore(jobs: seq<Job>, n: nat)
    requires UniqueIds(jobs) && n < |jobs|
    ensures Lookup(jobs[..n], jobs[n].id) == None
  {
    LookupNone(jobs[..n], jobs[n].id);
  }

  /** Starting on a loaded store gives agreement. */
  lemma StartAgrees(jobs: seq<Job>, next: nat, valid: string -> bool)
    requires UniqueIds(jobs) && ValidExprs(jobs, valid)
    ensures Agrees(Started(State(jobs, map[], map[], next), |jobs|, valid), valid)
  {
    hide UniqueIds, ValidExprs, Lookup;
    var s := State(jobs, map[], map[], next);
    StartedIs(s, |jobs|, valid);
    var r := Started(s, |jobs|, valid);
    assert jobs[..|jobs|] == jobs;
    forall id ensures Right(r, id) { assert RightUpTo(r, |jobs|, id); }
  }

  /** No operation of the run breaks the agreement where it is done. */
  predicate BreaksNowhere(s: State, ops: seq<Op>, valid: string -> bool) {
    ops == [] ||
    (BreaksNowhere(s, ops[..|ops| - 1], valid) && !Breaks(Run(s, ops[..|ops| - 1], valid), ops[|ops| - 1], valid))
  }

  /**
   From a started scheduler, through any operations that do not break it, a job has a timer exactly when it is
   stored and enabled, exactly one, and the one of its current expression.
   */
  lemma {:induction false} RunAgrees(s: State, ops: seq<Op>, valid: string -> bool)
    requires Agrees(s, valid) && BreaksNowhere(s, ops, valid)
    ensures Agrees(Run(s, ops, valid), valid)
  {
    hide Agrees, Breaks, Step;
    if ops != [] {
      RunAgrees(s, ops[..|ops| - 1], valid);
      StepAgrees(Run(s, ops[..|ops| - 1], valid), ops[|ops| - 1], valid);
    }
  }

  /** What runs for a job: no timer, or exactly one with its current expression. */
  ghost predicate OneTimerIff(s: State, id: string, runs: bool, cronExpr: string) {
    && (runs <==> exists e: nat :: e in s.timers && s.timers[e].job == id)
    && (forall e: nat :: e in s.timers && s.timers[e].job == id ==> s.timers[e].expr == cronExpr)
    && (forall e: nat, f: nat :: e in s.timers && f in s.timers && s.timers[e].job == id && s.timers[f].job == id ==> e == f)
  }

  /**
   From Start on, through any operations that do not break the agreement: a stored and enabled job has exactly one
   timer, with its current expression, and no other id has any.
   */
  lemma TimersFollowJobs(jobs: seq<Job>, next: nat, ops: seq<Op>, valid: string -> bool, id: string)
    requires UniqueIds(jobs) && ValidExprs(jobs, valid)
    requires BreaksNowhere(Started(State(jobs, map[], map[], next), |jobs|, valid), ops, valid)
    ensures var s := Run(Started(State(jobs, map[], map[], next), |jobs|, valid), ops, valid);
            var job := Lookup(s.jobs, id);
            if job.Some? then OneTimerIff(s, id, job.value.enabled, job.value.cronExpr) else OneTimerIff(s, id, false, "")
  {
    hide UniqueIds, ValidExprs, BreaksNowhere, Started, Run, Lookup;
    var start := Started(State(jobs, map[], map[], next), |jobs|, valid);
    StartAgrees(jobs, next, valid);
    RunAgrees(start, ops, valid);
    var s := Run(start, ops, valid);
    assert Right(s, id);
  }

  /**
   Operations are several lock sections.  When a RemoveJob runs between the sections of an EnableJob, the removed job
   is left with a timer.
   */
  lemma RemoveInsideEnableLeavesTimer(s: State, id: string, valid: string -> bool)
    requires Agrees(s, valid) && Lookup(s.jobs, id).Some?
    ensures var job := Lookup(s.jobs, id).value.(enabled := true);
            var end := Scheduled(Removed(s.(jobs := WithJob(s.jobs, id, job)), id), job, valid);
            && Lookup(end.jobs, id).None? && (exists e: nat :: e in end.timers && end.timers[e].job == id)
            && !Agrees(end, valid)
  {
    LookupValid(s.jobs, id, valid);
    hide Lookup, WithJob, WithoutJob, UniqueIds, ValidExprs;
    var job := Lookup(s.jobs, id).value.(enabled := true);
    var stored := s.(jobs := WithJob(s.jobs, id, job));
    var end := Scheduled(Removed(stored, id), job, valid);
    StoredIs(s, id, job, valid);
    LookupWithout(stored.jobs, id, id);
    assert s.next in end.timers && end.timers[s.next].job == id;
    assert !Right(end, id);
  }
}
