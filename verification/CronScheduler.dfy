/** CronStore and CronScheduler: the methods that change the job list and the timer table (core/cron.go). */
module CronScheduler {
  import opened Wrappers
  import opened CronTable

  lemma WithJobAt(list: seq<Job>, id: string, job: Job, i: nat)
    requires i < |list|
    ensures list[i].id == id ==> list[..i] + WithJob(list[i..], id, job) == list[i := job]
    ensures list[i].id != id ==> list[..i] + WithJob(list[i..], id, job) == list[..i + 1] + WithJob(list[i + 1..], id, job)
  {
    assert list[i..][1..] == list[i + 1..];
  }

  lemma WithJobAtEnd(list: seq<Job>, id: string, job: Job)
    ensures list[..|list|] + WithJob(list[|list|..], id, job) == list
  {
  }

  lemma WithoutJobAt(list: seq<Job>, id: string, i: nat)
    requires i < |list|
    ensures list[i].id == id ==> WithoutJob(list[i..], id) == list[i + 1..] && Lookup(list[i..], id).Some?
    ensures list[i].id != id ==>
              && list[..i] + WithoutJob(list[i..], id) == list[..i + 1] + WithoutJob(list[i + 1..], id)
              && Lookup(list[i..], id) == Lookup(list[i + 1..], id)
  {
    assert list[i..][1..] == list[i + 1..];
  }

  lemma WithoutJobAtEnd(list: seq<Job>, id: string)
    ensures list[..|list|] + WithoutJob(list[|list|..], id) == list && Lookup(list[|list|..], id).None?
  {
  }

  /** The job store; saving is taken to succeed. */
  class CronStore {
    var jobs: seq<Job>

    constructor (jobs: seq<Job>)
      ensures this.jobs == jobs
    {
      this.jobs := jobs;
    }

    method Add(job: Job)
      modifies this
      ensures jobs == old(jobs) + [job]
    {
      jobs := jobs + [job];
    }

    method Get(id: string) returns (job: Option<Job>)
      ensures job == Lookup(jobs, id)
    {
      for i := 0 to |jobs|
        invariant Lookup(jobs, id) == Lookup(jobs[i..], id)
      {
        assert jobs[i..][1..] == jobs[i + 1..];
        if jobs[i].id == id {
          return Some(jobs[i]);
        }
      }
      job := None;
    }

    method Remove(id: string) returns (found: bool)
      modifies this
      ensures found == Lookup(old(jobs), id).Some? && jobs == WithoutJob(old(jobs), id)
    {
      hide WithoutJob, Lookup;
      var list := jobs;
      for i := 0 to |list|
        invariant jobs == list
        invariant Lookup(list, id) == Lookup(list[i..], id) && WithoutJob(list, id) == list[..i] + WithoutJob(list[i..], id)
      {
        WithoutJobAt(list, id, i);
        if list[i].id == id {
          jobs := list[..i] + list[i + 1..];
          return true;
        }
      }
      WithoutJobAtEnd(list, id);
      found := false;
    }

    /** The loop that SetEnabled and Update share: the first job of that id is replaced. */
    method Replace(id: string, job: Job)
      requires Lookup(jobs, id).Some?
      modifies this
      ensures jobs == WithJob(old(jobs), id, job)
    {
      hide Lookup, WithJob;
      var list := jobs;
      for i := 0 to |list|
        invariant jobs == list
        invariant WithJob(list, id, job) == list[..i] + WithJob(list[i..], id, job)
      {
        WithJobAt(list, id, job, i);
        if list[i].id == id {
          jobs := list[i := job];
          return;
        }
      }
      WithJobAtEnd(list, id, job);
    }

    method SetEnabled(id: string, enabled: bool) returns (found: bool)
      modifies this
      ensures found == Lookup(old(jobs), id).Some?
      ensures jobs == if found then WithJob(old(jobs), id, Lookup(old(jobs), id).value.(enabled := enabled)) else old(jobs)
    {
      var job := Get(id);
      found := job.Some?;
      if found {
        Replace(id, job.value.(enabled := enabled));
      }
    }

    method Update(id: string, field: string, value: Value) returns (done: bool)
      modifies this
      ensures var job := StoreUpdated(old(jobs), id, field, value);
              done == job.Some? && jobs == if done then WithJob(old(jobs), id, job.value) else old(jobs)
    {
      if ReadOnly(field) {
        return false;
      }
      var job := Get(id);
      if job == None {
        return false;
      }
      var changed := UpdatedField(job.value, field, value);
      if changed == None {
        return false;
      }
      Replace(id, changed.value);
      done := true;
    }
  }

  /** The timer library: it hands out entry ids that were not used before. */
  class Cron {
    const valid: string -> bool
    var timers: map<nat, Timer>
    var next: nat

    constructor (valid: string -> bool)
      ensures this.valid == valid && timers == map[] && next == 0
    {
      this.valid, timers, next := valid, map[], 0;
    }

    method AddFunc(expr: string, job: string) returns (entry: Option<nat>)
      modifies this
      ensures entry == if valid(expr) then Some(old(next)) else None
      ensures timers == if valid(expr) then old(timers)[old(next) := Timer(expr, job)] else old(timers)
      ensures next == if valid(expr) then old(next) + 1 else old(next)
    {
      if !valid(expr) {
        return None;
      }
      entry := Some(next);
      timers := timers[next := Timer(expr, job)];
      next := next + 1;
    }

    method Remove(entry: nat)
      modifies this
      ensures timers == old(timers) - {entry} && next == old(next)
    {
      timers := timers - {entry};
    }
  }

  datatype Error = Refused | NotFound | ScheduleFailed

  class CronScheduler {
    const store: CronStore
    const cron: Cron
    var entries: map<string, nat>

    ghost function Now(): State
      reads this, store, cron
    {
      State(store.jobs, entries, cron.timers, cron.next)
    }

    constructor (store: CronStore, valid: string -> bool)
      ensures this.store == store && fresh(cron) && cron.valid == valid
      ensures Now() == State(store.jobs, map[], map[], 0)
    {
      this.store := store;
      cron := new Cron(valid);
      entries := map[];
    }

    method DropEntry(id: string)
      modifies this, cron
      ensures Now() == Unscheduled(old(Now()), id)
    {
      if id in entries {
        cron.Remove(entries[id]);
        entries := entries - {id};
      }
    }

    method ScheduleJob(job: Job) returns (error: Option<Error>)
      modifies this, cron
      ensures Now() == Scheduled(old(Now()), job, cron.valid)
      ensures error == if cron.valid(job.cronExpr) then None else Some(ScheduleFailed)
    {
      if job.id in entries {
        cron.Remove(entries[job.id]);
      }
      var entry := cron.AddFunc(job.cronExpr, job.id);
      if entry == None {
        return Some(ScheduleFailed);
      }
      entries := entries[job.id := entry.value];
      error := None;
    }

    method Start()
      modifies this, cron
      ensures Now() == Started(old(Now()), |store.jobs|, cron.valid)
    {
      var jobs := store.jobs;
      for i := 0 to |jobs|
        invariant store.jobs == jobs && Now() == Started(old(Now()), i, cron.valid)
      {
        if jobs[i].enabled {
          var error := ScheduleJob(jobs[i]);
        }
      }
    }

    method AddJob(job: Job) returns (error: Option<Error>)
      modifies this, store, cron
      ensures Now() == Added(old(Now()), job, cron.valid)
      ensures error == if GoodJob(job) && cron.valid(job.cronExpr) then None else Some(Refused)
    {
      hide GoodJob, Normalized;
      if !GoodJob(job) {
        return Some(Refused);
      }
      var j := job.(sessionMode := Normalized(job.sessionMode));
      if !cron.valid(j.cronExpr) {
        return Some(Refused);
      }
      store.Add(j);
      if j.enabled {
        error := ScheduleJob(j);
        return;
      }
      error := None;
    }

    method RemoveJob(id: string) returns (found: bool)
      modifies this, store, cron
      ensures Now() == Removed(old(Now()), id) && found == Lookup(old(Now()).jobs, id).Some?
    {
      DropEntry(id);
      found := store.Remove(id);
    }

    method EnableJob(id: string) returns (error: Option<Error>)
      modifies this, store, cron
      ensures Now() == EnabledJob(old(Now()), id, cron.valid)
      ensures error == Some(NotFound) <==> Lookup(old(Now()).jobs, id).None?
    {
      var found := store.SetEnabled(id, true);
      if !found {
        return Some(NotFound);
      }
      ghost var stored := Lookup(old(store.jobs), id).value.(enabled := true);
      LookupWithJob(old(store.jobs), id, stored, id);
      var job := store.Get(id);
      if job.Some? {
        error := ScheduleJob(job.value);
        return;
      }
      error := None;
    }

    method DisableJob(id: string) returns (error: Option<Error>)
      modifies this, store, cron
      ensures Now() == DisabledJob(old(Now()), id)
      ensures error == if Lookup(old(Now()).jobs, id).None? then Some(NotFound) else None
    {
      var found := store.SetEnabled(id, false);
      if !found {
        return Some(NotFound);
      }
      DropEntry(id);
      error := None;
    }

    method UpdateJob(id: string, field: string, value: Value) returns (error: Option<Error>)
      modifies this, store, cron
      ensures Now() == Updated(old(Now()), id, field, value, cron.valid)
      ensures error == Some(NotFound) <==> Lookup(old(Now()).jobs, id).None?
      ensures error == None ==> StoreUpdated(old(Now()).jobs, id, field, value).Some?
    {
      hide ReadOnly, UpdatedField, GoodMode, GoodSessionMode;
      var job := store.Get(id);
      if job == None {
        return Some(NotFound);
      }
      var refused := Refuses(field, value);
      if refused {
        return Some(Refused);
      }
      var needsReschedule := field == "cron_expr" || field == "enabled";
      if needsReschedule {
        DropEntry(id);
      }
      UpdatedFieldIs(job.value, field, value);
      var done := store.Update(id, field, value);
      if !done {
        return Some(Refused);
      }
      error := None;
      if needsReschedule {
        LookupWithJob(old(store.jobs), id, StoreUpdated(old(store.jobs), id, field, value).value, id);
        var updatedJob := store.Get(id);
        if updatedJob.Some? && updatedJob.value.enabled {
          error := ScheduleJob(updatedJob.value);
        }
      }
    }

    /** The checks at the head of UpdateJob. */
    method Refuses(field: string, value: Value) returns (refused: bool)
      ensures refused == !GoodUpdate(field, value, cron.valid)
    {
      hide GoodMode, GoodSessionMode;
      if field == "cron_expr" {
        if !value.Str? {
          return true;
        }
        if !cron.valid(value.s) {
          return true;
        }
      }
      if field == "mode" {
        EmptyModeIsGood();
        if value.Str? && value.s != "" && !GoodMode(value.s) {
          return true;
        }
      }
      if field == "session_mode" {
        if value.Str? && value.s != "" && !GoodSessionMode(value.s) {
          return true;
        }
      }
      refused := false;
    }

    lemma EmptyModeIsGood()
      ensures GoodMode("")
    {
    }
  }
}
