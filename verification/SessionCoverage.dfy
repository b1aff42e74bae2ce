/**
 When is a queued message left with nobody to deliver it or to report it dropped?

 `Covered` says that every non-empty queue is minded by some goroutine.  `CoverageIsExact`
 shows that a step loses a queue exactly when the guard of one of six branches holds.
 */
module SessionCoverage {
  import opened Wrappers
  import opened SessionQueue

  /** Goroutines that empty the queue of the state they have in hand. */
  predicate Keeps(pc: Pc) {
    pc.Prepared? || pc.Running? || pc.Draining? || pc.Popped? || pc.Dropping? || pc.Compressing? ||
    pc.StopDrop? || pc.CleanupDrop?
  }

  /** Goroutines that are going to look at whatever state the map holds. */
  predicate LooksUp(pc: Pc) {
    pc.Locked? || pc.Starting? || pc.Orphan? || pc.Appended?
  }

  predicate Minds(s: Sys, t: nat, sid: nat)
    requires t < |s.threads|
  {
    (Keeps(s.threads[t]) && s.threads[t].sid == sid) || (LooksUp(s.threads[t]) && s.mapped == Some(sid))
  }

  predicate HasQueue(s: Sys, sid: nat) {
    sid < |s.states| && s.states[sid].pending != []
  }

  ghost predicate Minded(s: Sys, sid: nat) {
    exists t: nat :: t < |s.threads| && Minds(s, t, sid)
  }

  ghost predicate MindedByOther(s: Sys, t: nat, sid: nat) {
    exists u: nat :: u < |s.threads| && u != t && Minds(s, u, sid)
  }

  /** Some goroutine other than those that go through the map minds `sid`. */
  ghost predicate KeptInHand(s: Sys, sid: nat) {
    exists u: nat :: u < |s.threads| && Keeps(s.threads[u]) && s.threads[u].sid == sid
  }

  ghost predicate Covered(s: Sys) {
    forall sid: nat :: HasQueue(s, sid) ==> Minded(s, sid)
  }

  /** The guards under which a step abandons a queue. */
  ghost predicate Hazard(s: Sys, e: Event)
    requires Wf(s) && Enabled(s, e)
  {
    match e
    case Append(t) =>
      // the state left the map between the lookup and the append
      var sid := s.threads[t].sid;
      |s.states[sid].pending| < MAX_QUEUED && s.mapped != Some(sid) && !MindedByOther(s, t, sid)
    case Retry(t) =>
      // the lock is held by a goroutine that works for another state or has stopped draining
      s.busy && s.mapped.Some? && HasQueue(s, s.mapped.value) && !MindedByOther(s, t, s.mapped.value)
    case Acquire(t, started, mismatch) =>
      // the recycled state leaves the map before its queue could be adopted
      mismatch && s.mapped.Some? && AgentAlive(s, s.mapped.value) &&
      HasQueue(s, s.mapped.value) && !KeptInHand(s, s.mapped.value)
    case Begin(t) =>
      // no agent session: early return with an adopted queue
      var sid := s.threads[t].sid;
      s.states[sid].agent.None? && HasQueue(s, sid) && !MindedByOther(s, t, sid)
    case CompressEnd(t, outcome) =>
      // early return of /compress
      var sid := s.threads[t].sid;
      outcome.JustReturn? && HasQueue(s, sid) && !MindedByOther(s, t, sid)
    case Unmap(t) =>
      // cleanup deletes an entry that was queued on after the notification
      var expected := s.threads[t].expected;
      s.mapped.Some? && (expected.None? || s.mapped == expected) &&
      HasQueue(s, s.mapped.value) && !KeptInHand(s, s.mapped.value)
    case _ => false
  }

  lemma StillMinded(s: Sys, r: Sys, t: nat, sid: nat)
    requires Minded(s, sid)
    requires |r.threads| >= |s.threads|
    requires forall u: nat :: u < |s.threads| && u != t ==> r.threads[u] == s.threads[u]
    requires r.mapped == s.mapped
    requires t < |s.threads| && Minds(s, t, sid) ==> Minds(r, t, sid)
    ensures Minded(r, sid)
  {
    var u: nat :| u < |s.threads| && Minds(s, u, sid);
    assert Minds(r, u, sid);
  }

  lemma HandlerCoverage(s: Sys, e: Event)
    requires Wf(s) && Enabled(s, e) && IsHandlerStep(e) && Covered(s) && !e.Acquire?
    ensures Covered(HandlerStep(s, e)) <==> !Hazard(s, e)
  {
    var r := HandlerStep(s, e);
    match e
    case Arrive =>
      forall sid: nat | HasQueue(r, sid) ensures Minded(r, sid) { StillMinded(s, r, |s.threads|, sid); }
    case Lookup(t) =>
      forall sid: nat | HasQueue(r, sid) ensures Minded(r, sid) { StillMinded(s, r, t, sid); }
    case Ensure(t) => EnsureCoverage(s, t);
    case Append(t) => AppendCoverage(s, t);
    case Retry(t) => RetryCoverage(s, t);
    case Begin(t) => BeginCoverage(s, t);
  }

  lemma EnsureCoverage(s: Sys, t: nat)
    requires Wf(s) && Enabled(s, Ensure(t)) && Covered(s)
    ensures Covered(HandlerStep(s, Ensure(t)))
  {
    var r := HandlerStep(s, Ensure(t));
    forall sid: nat | HasQueue(r, sid) ensures Minded(r, sid) {
      assert HasQueue(s, sid);
      var u: nat :| u < |s.threads| && Minds(s, u, sid);
      assert Minds(r, u, sid);
    }
  }

  lemma AppendCoverage(s: Sys, t: nat)
    requires Wf(s) && Enabled(s, Append(t)) && Covered(s)
    ensures Covered(HandlerStep(s, Append(t))) <==> !Hazard(s, Append(t))
  {
    var r := HandlerStep(s, Append(t));
    var sid := s.threads[t].sid;
    if |s.states[sid].pending| >= MAX_QUEUED {
      forall x: nat | HasQueue(r, x) ensures Minded(r, x) { StillMinded(s, r, t, x); }
    } else if Hazard(s, Append(t)) {
      assert HasQueue(r, sid);
      forall u: nat | u < |r.threads| ensures !Minds(r, u, sid) {
        if u != t { assert !Minds(s, u, sid); }
      }
      assert !Minded(r, sid);
    } else {
      forall x: nat | HasQueue(r, x) ensures Minded(r, x) {
        if x != sid {
          assert HasQueue(s, x);
          StillMinded(s, r, t, x);
        } else if s.mapped == Some(sid) {
          assert Minds(r, t, sid);
        } else {
          StillMinded(s, r, t, x);
        }
      }
    }
  }

  lemma RetryCoverage(s: Sys, t: nat)
    requires Wf(s) && Enabled(s, Retry(t)) && Covered(s)
    ensures Covered(HandlerStep(s, Retry(t))) <==> !Hazard(s, Retry(t))
  {
    var r := HandlerStep(s, Retry(t));
    if Hazard(s, Retry(t)) {
      var sid := s.mapped.value;
      assert HasQueue(r, sid);
      forall u: nat | u < |r.threads| ensures !Minds(r, u, sid) {
        if u != t { assert !Minds(s, u, sid); }
      }
      assert !Minded(r, sid);
    } else {
      forall x: nat | HasQueue(r, x) ensures Minded(r, x) {
        assert HasQueue(s, x);
        if s.busy && s.mapped == Some(x) {
          var u: nat :| u < |s.threads| && u != t && Minds(s, u, x);
          assert Minds(r, u, x);
        } else {
          StillMinded(s, r, t, x);
        }
      }
    }
  }

  lemma BeginCoverage(s: Sys, t: nat)
    requires Wf(s) && Enabled(s, Begin(t)) && Covered(s)
    ensures Covered(HandlerStep(s, Begin(t))) <==> !Hazard(s, Begin(t))
  {
    var sid := s.threads[t].sid;
    ReleaseCoverage(s, HandlerStep(s, Begin(t)), t, s.states[sid].agent.None?);
  }

  /** Thread `t` either goes on minding its state or, when `gives`, minds nothing any more. */
  lemma ReleaseCoverage(s: Sys, r: Sys, t: nat, gives: bool)
    requires Covered(s) && t < |s.threads| && Keeps(s.threads[t])
    requires r == s.(threads := r.threads) && |r.threads| == |s.threads|
    requires forall u: nat :: u < |s.threads| && u != t ==> r.threads[u] == s.threads[u]
    requires if gives then !Keeps(r.threads[t]) && !LooksUp(r.threads[t])
             else Keeps(r.threads[t]) && r.threads[t].sid == s.threads[t].sid
    ensures Covered(r) <==> !(gives && HasQueue(s, s.threads[t].sid) && !MindedByOther(s, t, s.threads[t].sid))
  {
    var sid := s.threads[t].sid;
    if gives && HasQueue(s, sid) && !MindedByOther(s, t, sid) {
      assert HasQueue(r, sid);
      forall u: nat | u < |r.threads| ensures !Minds(r, u, sid) {
        if u != t { assert !Minds(s, u, sid); }
      }
      assert !Minded(r, sid);
    } else {
      forall x: nat | HasQueue(r, x) ensures Minded(r, x) {
        assert HasQueue(s, x);
        if gives && x == sid {
          var u: nat :| u < |s.threads| && u != t && Minds(s, u, x);
          assert Minds(r, u, x);
        } else {
          StillMinded(s, r, t, x);
        }
      }
    }
  }

  lemma AcquireCoverage(s: Sys, t: nat, started: bool, mismatch: bool)
    requires Wf(s) && Enabled(s, Acquire(t, started, mismatch)) && Covered(s)
    ensures Covered(Acquired(s, t, started, mismatch)) <==> !Hazard(s, Acquire(t, started, mismatch))
  {
    var r := Acquired(s, t, started, mismatch);
    if s.mapped.Some? && AgentAlive(s, s.mapped.value) {
      if mismatch {
        UnmapCoverage(s, Recycle(s));
        ReplaceCoverage(s, Recycle(s), t, started);
      } else {
        forall x: nat | HasQueue(r, x) ensures Minded(r, x) {
          assert HasQueue(s, x);
          StillMinded(s, r, t, x);
        }
      }
    } else {
      forall x: nat | HasQueue(r, x) ensures Minded(r, x) {
        if x == |s.states| {
          assert Minds(r, t, x);
        } else {
          assert HasQueue(s, x);
          var u: nat :| u < |s.threads| && Minds(s, u, x);
          assert Minds(r, u, x);
        }
      }
    }
  }

  /** Queues whose only minders go through the map are lost when the map entry goes. */
  lemma UnmapCoverage(s: Sys, r: Sys)
    requires Wf(s) && Covered(s) && s.mapped.Some? && r.mapped.None? && r.threads == s.threads
    requires |r.states| == |s.states|
    requires forall x: nat :: x < |s.states| ==> r.states[x].pending == s.states[x].pending
    ensures forall x: nat :: HasQueue(r, x) && x != s.mapped.value ==> KeptInHand(r, x)
    ensures KeptInHand(r, s.mapped.value) <==> KeptInHand(s, s.mapped.value)
    ensures HasQueue(r, s.mapped.value) <==> HasQueue(s, s.mapped.value)
  {
    forall x: nat | HasQueue(r, x) && x != s.mapped.value ensures KeptInHand(r, x) {
      assert HasQueue(s, x);
      var u: nat :| u < |s.threads| && Minds(s, u, x);
      assert Keeps(r.threads[u]) && r.threads[u].sid == x;
    }
  }

  lemma ReplaceCoverage(s: Sys, m: Sys, t: nat, started: bool)
    requires Wf(s) && Wf(m) && s.mapped.Some? && m.mapped.None? && t < |m.threads|
    requires m.threads == s.threads && m.threads[t].Starting? && |m.states| == |s.states|
    requires forall x: nat :: HasQueue(m, x) && x != s.mapped.value ==> KeptInHand(m, x)
    ensures Covered(Replace(m, t, started)) <==>
            !(HasQueue(m, s.mapped.value) && !KeptInHand(m, s.mapped.value))
  {
    var r := Replace(m, t, started);
    var left := s.mapped.value;
    if HasQueue(m, left) && !KeptInHand(m, left) {
      assert HasQueue(r, left);
      forall u: nat | u < |r.threads| ensures !Minds(r, u, left) { assert u != t ==> r.threads[u] == m.threads[u]; }
      assert !Minded(r, left);
    } else {
      forall x: nat | HasQueue(r, x) ensures Minded(r, x) {
        assert HasQueue(m, x);
        var u: nat :| u < |m.threads| && Keeps(m.threads[u]) && m.threads[u].sid == x;
        assert Minds(r, u, x);
      }
    }
  }

  lemma TurnCoverage(s: Sys, e: Event)
    requires Wf(s) && Enabled(s, e) && IsTurnStep(e) && Covered(s)
    ensures Covered(TurnStep(s, e))
  {
    forall x: nat | HasQueue(TurnStep(s, e), x) ensures Minded(TurnStep(s, e), x) {
      if e.Drain? || e.Dispatch? || e.DropAll? || e.Release? { TurnMinded(s, e, x); } else { LoopMinded(s, e, x); }
    }
  }

  lemma TurnMinded(s: Sys, e: Event, x: nat)
    requires Wf(s) && Enabled(s, e) && Covered(s) && (e.Drain? || e.Dispatch? || e.DropAll? || e.Release?)
    requires HasQueue(TurnStep(s, e), x)
    ensures Minded(TurnStep(s, e), x)
  {
    assert HasQueue(s, x);
    StillMinded(s, TurnStep(s, e), e.t, x);
  }

  lemma LoopMinded(s: Sys, e: Event, x: nat)
    requires Wf(s) && Enabled(s, e) && Covered(s) && (e.Result? || e.FailTurn? || e.EndTurn? || e.OrphanLookup?)
    requires HasQueue(TurnStep(s, e), x)
    ensures Minded(TurnStep(s, e), x)
  {
    assert HasQueue(s, x);
    StillMinded(s, TurnStep(s, e), e.t, x);
  }

  lemma SideCoverage(s: Sys, e: Event)
    requires Wf(s) && Enabled(s, e) && IsSideStep(e) && Covered(s)
    ensures Covered(SideStep(s, e)) <==> !Hazard(s, e)
  {
    var r := SideStep(s, e);
    if e.CompressEnd? {
      ReleaseCoverage(s, r, e.t, e.outcome.JustReturn?);
    } else {
      forall x: nat | HasQueue(r, x) ensures Minded(r, x) {
        assert HasQueue(s, x);
        var u: nat :| u < |s.threads| && Minds(s, u, x);
        assert Minds(r, u, x);
      }
    }
  }

  lemma TeardownCoverage(s: Sys, e: Event)
    requires Wf(s) && Enabled(s, e) && IsTeardownStep(e) && Covered(s)
    ensures Covered(TeardownStep(s, e)) <==> !Hazard(s, e)
  {
    var r := TeardownStep(s, e);
    if e.Unmap? {
      UnmapStepCoverage(s, e.t);
    } else if e.Stop? {
      StopCoverage(s);
    } else {
      forall x: nat | HasQueue(r, x) ensures Minded(r, x) {
        if e.StopNotify? || e.CleanupNotify? { NotifyMinded(s, e, x); } else { CleanupMinded(s, e, x); }
      }
    }
  }

  lemma NotifyMinded(s: Sys, e: Event, x: nat)
    requires Wf(s) && Enabled(s, e) && Covered(s) && (e.StopNotify? || e.CleanupNotify?)
    requires HasQueue(TeardownStep(s, e), x)
    ensures Minded(TeardownStep(s, e), x)
  {
    var r := TeardownStep(s, e);
    assert HasQueue(s, x);
    StillMinded(s, r, e.t, x);
  }

  lemma CleanupMinded(s: Sys, e: Event, x: nat)
    requires Wf(s) && Enabled(s, e) && Covered(s) && (e.Cleanup? || e.Close?)
    requires HasQueue(TeardownStep(s, e), x)
    ensures Minded(TeardownStep(s, e), x)
  {
    assert HasQueue(s, x);
    var u: nat :| u < |s.threads| && Minds(s, u, x);
    assert Minds(TeardownStep(s, e), u, x);
  }

  lemma StopCoverage(s: Sys)
    requires Wf(s) && s.mapped.Some? && Covered(s)
    ensures Covered(TeardownStep(s, Stop))
  {
    var r := TeardownStep(s, Stop);
    forall x: nat | HasQueue(r, x) ensures Minded(r, x) {
      assert HasQueue(s, x);
      var u: nat :| u < |s.threads| && Minds(s, u, x);
      if x == s.mapped.value { assert Minds(r, |s.threads|, x); } else { assert Minds(r, u, x); }
    }
  }

  lemma UnmapStepCoverage(s: Sys, t: nat)
    requires Wf(s) && Enabled(s, Unmap(t)) && Covered(s)
    ensures Covered(TeardownStep(s, Unmap(t))) <==> !Hazard(s, Unmap(t))
  {
    var r := TeardownStep(s, Unmap(t));
    var expected := s.threads[t].expected;
    if s.mapped.Some? && (expected.None? || s.mapped == expected) {
      var sid := s.mapped.value;
      if Hazard(s, Unmap(t)) {
        assert HasQueue(r, sid);
        forall u: nat | u < |r.threads| ensures !Minds(r, u, sid) { assert u != t ==> r.threads[u] == s.threads[u]; }
        assert !Minded(r, sid);
      } else {
        forall x: nat | HasQueue(r, x) ensures Minded(r, x) {
          assert HasQueue(s, x);
          UnmapCoverage(s, s.(mapped := None));
          assert KeptInHand(s.(mapped := None), x);
          var u: nat :| u < |s.threads| && Keeps(s.threads[u]) && s.threads[u].sid == x;
          assert Minds(r, u, x);
        }
      }
    } else {
      forall x: nat | HasQueue(r, x) ensures Minded(r, x) {
        assert HasQueue(s, x);
        StillMinded(s, r, t, x);
      }
    }
  }

  /** A step abandons a queue exactly when its hazard guard holds. */
  lemma CoverageIsExact(s: Sys, e: Event)
    requires Wf(s) && Enabled(s, e) && Covered(s)
    ensures Covered(Step(s, e)) <==> !Hazard(s, e)
  {
    if e.Acquire? { AcquireCoverage(s, e.t, e.started, e.mismatch); }
    else if IsHandlerStep(e) { HandlerCoverage(s, e); }
    else if IsTurnStep(e) { TurnCoverage(s, e); }
    else if IsTeardownStep(e) { TeardownCoverage(s, e); }
    else { SideCoverage(s, e); }
  }
}
