/** Invariants of every run of the session-queue protocol (core/engine.go). */
module SessionRuns {
  import opened Wrappers
  import opened SessionQueue
  import opened SessionCoverage

  /** Which steps the runs in question may take. */
  datatype Rules =
    | AnyStep
    | NoHazard                // no step meets a hazard
    | NoReorder               // no step reorders messages
    | StillMapped(appends: bool, locks: bool)   // appends and /compress locks find the state of their lookup mapped
    | AgentUp
    | LateAppend | Recycling | FailedStart | EarlyCompressReturn | Teardown | AgentDeath

  /**
   Steps of a run in which agents start and stay alive, nothing is stopped, cleaned up or
   recycled, /compress completes, and an append finds the state of its lookup still mapped.
   */
  predicate Benign(s: Sys, e: Event)
    requires Wf(s) && Enabled(s, e)
  {
    && !IsTeardownStep(e) && !e.Die?
    && (e.Append? ==> s.mapped == Some(s.threads[e.t].sid))
    && (e.Acquire? ==> e.started && !e.mismatch)
    && (e.CompressEnd? ==> e.outcome.DrainQueue?)
  }

  /** The goroutine that appends, or locks for /compress, has the mapped state in hand. */
  predicate FindsMapped(s: Sys, e: Event)
    requires Wf(s) && Enabled(s, e)
  {
    e.Append? || e.CompressLock? ==> s.mapped == Some(s.threads[e.t].sid)
  }

  /** Every message of the log that was dispatched came before `k`. */
  ghost predicate LogBelow(log: seq<Fate>, k: nat) {
    forall i :: 0 <= i < |log| && log[i].Dispatched? ==> log[i].ticket < k
  }

  predicate NewerIsQueued(s: Sys, sid: nat) {
    exists j :: sid < j < |s.states| && s.states[j].pending != []
  }

  /** A message queued from state `sid` on came before one that was dispatched. */
  ghost predicate OlderIsQueued(s: Sys, sid: nat) {
    exists j, p :: sid <= j < |s.states| && 0 <= p < |s.states[j].pending| && !LogBelow(s.log, s.states[j].pending[p])
  }

  /** The guards under which a step gives up the order of messages. */
  ghost predicate Reorders(s: Sys, e: Event)
    requires Wf(s) && Enabled(s, e)
  {
    match e
    case Append(t) =>
      // a message is queued on a newer state already
      |s.states[s.threads[t].sid].pending| < MAX_QUEUED && NewerIsQueued(s, s.threads[t].sid)
    case CompressLock(t) =>
      // the lock is taken for a state whose messages have been overtaken
      !s.busy && OlderIsQueued(s, s.threads[t].sid)
    case _ => false
  }

  /** What each set of rules allows; the last six are the benign steps with one condition given up. */
  ghost predicate Allowed(s: Sys, e: Event, rules: Rules)
    requires Wf(s) && Enabled(s, e)
  {
    || rules.AnyStep?
    || (rules.NoHazard? && !Hazard(s, e))
    || (rules.NoReorder? && !Reorders(s, e))
    || (rules.StillMapped? && ((rules.appends && e.Append?) || (rules.locks && e.CompressLock?) ==> FindsMapped(s, e)))
    || (!rules.NoHazard? && !rules.NoReorder? && !rules.StillMapped? && Benign(s, e))
    || (rules.LateAppend? && e.Append?)
    || (rules.Recycling? && e.Acquire? && e.started)
    || (rules.FailedStart? && e.Acquire? && !e.mismatch)
    || (rules.EarlyCompressReturn? && e.CompressEnd?)
    || (rules.Teardown? && IsTeardownStep(e))
    || (rules.AgentDeath? && e.Die?)
  }

  datatype Run = Start | Then(prev: Run, e: Event)

  /** Run `r`, from the empty system and under the rules, ends in `s`. */
  ghost predicate Ends(r: Run, s: Sys, rules: Rules)
    decreases r, 0
  {
    match r
    case Start => s == Init
    case Then(prev, e) => exists before :: Leads(prev, before, e, s, rules)
  }

  ghost predicate Leads(prev: Run, before: Sys, e: Event, s: Sys, rules: Rules)
    decreases prev, 1
  {
    Ends(prev, before, rules) && Wf(before) && Enabled(before, e) && Allowed(before, e, rules) && s == Step(before, e)
  }

  /** The state before the last step of a run. */
  lemma LastStep(r: Run, s: Sys, rules: Rules) returns (before: Sys)
    requires r.Then? && Ends(r, s, rules)
    ensures Ends(r.prev, before, rules) && Wf(before) && Enabled(before, r.e) && Allowed(before, r.e, rules)
    ensures s == Step(before, r.e)
  {
    hide Step, Enabled, Allowed;
    before :| Leads(r.prev, before, r.e, s, rules);
  }

  lemma Extended(r: Run, s: Sys, e: Event, rules: Rules)
    requires Ends(r, s, rules) && Wf(s) && Enabled(s, e) && Allowed(s, e, rules)
    ensures Ends(Then(r, e), Step(s, e), rules)
  {
    hide Step, Enabled, Allowed;
    assert Leads(r, s, e, Step(s, e), rules);
  }

  /** In every reachable state all references are in range and no queue holds more than MAX_QUEUED messages. */
  lemma {:induction false} RunsAreWellFormed(r: Run, s: Sys, rules: Rules)
    requires Ends(r, s, rules)
    ensures Wf(s)
  {
    if r.Then? {
      var before := LastStep(r, s, rules);
      hide Step;
      assert Wf(Step(before, r.e));
    }
  }

  // ----- The session lock -----

  ghost predicate LockInv(s: Sys) {
    && (s.busy <==> exists t: nat :: t < |s.threads| && Holds(s.threads[t]))
    && (forall t: nat, u: nat :: t < |s.threads| && u < |s.threads| && Holds(s.threads[t]) && Holds(s.threads[u]) ==> t == u)
  }

  /** The goroutine that takes step `e`; a new one for the steps that spawn. */
  function Actor(s: Sys, e: Event): nat {
    match e
    case Arrive => |s.threads|
    case CompressLookup => |s.threads|
    case Stop => |s.threads|
    case Cleanup(_) => |s.threads|
    case Die(_) => |s.threads|
    case Placeholder => |s.threads|
    case _ => e.t
  }

  predicate HoldsAt(s: Sys, t: nat) {
    t < |s.threads| && Holds(s.threads[t])
  }

  ghost predicate OnlyActorMoves(s: Sys, r: Sys, t: nat) {
    && |s.threads| <= |r.threads| <= |s.threads| + 1
    && (|r.threads| > |s.threads| ==> t == |s.threads|)
    && (forall u: nat :: u < |s.threads| && u != t ==> r.threads[u] == s.threads[u])
  }

  /** The actor gains or gives up the lock exactly when the busy flag is set or cleared. */
  predicate LockMovesWithActor(s: Sys, r: Sys, t: nat) {
    if HoldsAt(s, t) == HoldsAt(r, t) then r.busy == s.busy
    else r.busy == HoldsAt(r, t) && (HoldsAt(r, t) ==> !s.busy)
  }

  lemma AcquiredMoves(s: Sys, t: nat, started: bool, mismatch: bool)
    requires Wf(s) && Enabled(s, Acquire(t, started, mismatch))
    ensures OnlyActorMoves(s, Acquired(s, t, started, mismatch), t)
    ensures LockMovesWithActor(s, Acquired(s, t, started, mismatch), t)
  {
  }

  lemma HandlerMoves(s: Sys, e: Event)
    requires Wf(s) && Enabled(s, e) && IsHandlerStep(e) && !e.Acquire?
    ensures OnlyActorMoves(s, HandlerStep(s, e), Actor(s, e)) && LockMovesWithActor(s, HandlerStep(s, e), Actor(s, e))
  {
  }

  lemma TurnMoves(s: Sys, e: Event)
    requires Wf(s) && Enabled(s, e) && IsTurnStep(e)
    ensures OnlyActorMoves(s, TurnStep(s, e), Actor(s, e)) && LockMovesWithActor(s, TurnStep(s, e), Actor(s, e))
  {
  }

  lemma SideMoves(s: Sys, e: Event)
    requires Wf(s) && Enabled(s, e) && IsSideStep(e)
    ensures OnlyActorMoves(s, SideStep(s, e), Actor(s, e)) && LockMovesWithActor(s, SideStep(s, e), Actor(s, e))
  {
  }

  lemma StopMoves(s: Sys, e: Event)
    requires Wf(s) && Enabled(s, e) && (e.Stop? || e.StopNotify? || e.Close?)
    ensures OnlyActorMoves(s, TeardownStep(s, e), Actor(s, e)) && LockMovesWithActor(s, TeardownStep(s, e), Actor(s, e))
  {
  }

  lemma CleanupMoves(s: Sys, e: Event)
    requires Wf(s) && Enabled(s, e) && (e.Cleanup? || e.CleanupNotify? || e.Unmap?)
    ensures OnlyActorMoves(s, TeardownStep(s, e), Actor(s, e)) && LockMovesWithActor(s, TeardownStep(s, e), Actor(s, e))
  {
  }

  lemma StepMoves(s: Sys, e: Event)
    requires Wf(s) && Enabled(s, e)
    ensures OnlyActorMoves(s, Step(s, e), Actor(s, e)) && LockMovesWithActor(s, Step(s, e), Actor(s, e))
  {
    if e.Acquire? { AcquiredMoves(s, e.t, e.started, e.mismatch); }
    else if IsHandlerStep(e) { HandlerMoves(s, e); }
    else if IsTurnStep(e) { TurnMoves(s, e); }
    else if e.Stop? || e.StopNotify? || e.Close? { StopMoves(s, e); }
    else if IsTeardownStep(e) { CleanupMoves(s, e); }
    else { SideMoves(s, e); }
  }

  lemma LockStep(s: Sys, e: Event)
    requires Wf(s) && Enabled(s, e) && LockInv(s)
    ensures LockInv(Step(s, e))
    ensures s.busy && !Step(s, e).busy ==> HoldsAt(s, Actor(s, e)) && !HoldsAt(Step(s, e), Actor(s, e))
  {
    var r, t := Step(s, e), Actor(s, e);
    StepMoves(s, e);
    if s.busy {
      var h: nat :| h < |s.threads| && Holds(s.threads[h]);
      assert h != t ==> HoldsAt(r, h);
    }
    if HoldsAt(r, t) { assert Holds(r.threads[t]); }
  }

  /** In every run the lock is owned by exactly one goroutine when busy and by none otherwise. */
  lemma {:induction false} LockDiscipline(r: Run, s: Sys, rules: Rules)
    requires Ends(r, s, rules)
    ensures LockInv(s)
  {
    hide Step, Enabled, Allowed;
    if r.Then? {
      var before := LastStep(r, s, rules);
      LockDiscipline(r.prev, before, rules);
      LockStep(before, r.e);
    } else {
      LockAtStart();
    }
  }

  lemma LockAtStart()
    ensures LockInv(Init)
  {
  }

  // ----- Runs that meet no hazard -----

  lemma {:induction false} NoHazardCovers(r: Run, s: Sys)
    requires Ends(r, s, NoHazard)
    ensures Covered(s)
  {
    hide Step, Enabled, Hazard;
    if r.Then? {
      var before := LastStep(r, s, NoHazard);
      NoHazardCovers(r.prev, before);
      CoverageIsExact(before, r.e);
    }
  }

  /**
   In every run whose steps meet no hazard, also with stops, cleanups, recycling and dying agents: a message queued
   while nobody owns the lock has a handler before its second TryLock on the mapped state, or a goroutine of /stop or
   cleanup that is about to report it.
   */
  lemma UnlockedQueueIsMinded(r: Run, s: Sys, sid: nat)
    requires Ends(r, s, NoHazard) && !s.busy && HasQueue(s, sid)
    ensures exists t: nat :: t < |s.threads| &&
              ((s.threads[t].Appended? && s.mapped == Some(sid)) ||
               ((s.threads[t].StopDrop? || s.threads[t].CleanupDrop?) && s.threads[t].sid == sid))
  {
    hide Ends;
    NoHazardCovers(r, s);
    LockDiscipline(r, s, NoHazard);
    var t: nat :| t < |s.threads| && Minds(s, t, sid);
    assert !Holds(s.threads[t]);
  }
}
