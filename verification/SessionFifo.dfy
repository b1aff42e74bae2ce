/**
 Runs in which the agent stays up (core/engine.go): no queued message is stranded, and all
 queues together behave as one first-in first-out queue.
 */
module SessionFifo {
  import opened Wrappers
  import opened SessionQueue
  import opened SessionCoverage
  import opened SessionRuns

  predicate Calm(pc: Pc) {
    !pc.Releasing? && !pc.Dropping? && !pc.StopDrop? && !pc.Closing? && !pc.CleanupDrop? &&
    !pc.CleanupClose? && !pc.CleanupDelete?
  }

  /** Pcs that rely on the mapped state having an agent session. */
  predicate NeedsAgent(pc: Pc) {
    pc.Prepared? || pc.Running? || pc.Draining? || pc.Popped? || pc.Compressing? || pc.CompressTry?
  }

  predicate MappedUp(s: Sys) {
    s.mapped.Some? && s.mapped.value < |s.states| && s.states[s.mapped.value].agent.Some?
  }

  /** Until the agent is up, only a lock holder without a state and messages on their way to the queue are about. */
  predicate PcOk(s: Sys, pc: Pc) {
    && Calm(pc)
    && (NeedsAgent(pc) ==> MappedUp(s) && s.mapped == Some(pc.sid))
    && (pc.Orphan? ==> MappedUp(s))
    && (pc.Appended? ==> s.mapped.Some?)
  }

  ghost predicate BenignInv(s: Sys)
    requires Wf(s)
  {
    && LockInv(s)
    && (forall a :: 0 <= a < |s.agents| ==> s.agents[a].alive)
    && (forall t :: 0 <= t < |s.threads| ==> PcOk(s, s.threads[t]))
    && (MappedUp(s) || s.busy || s.threads == [])
    && (forall sid: nat :: HasQueue(s, sid) ==> s.mapped == Some(sid))
  }

  lemma BenignEnsure(s: Sys, t: nat)
    requires Wf(s) && Enabled(s, Ensure(t)) && BenignInv(s)
    requires LockInv(HandlerStep(s, Ensure(t)))
    ensures BenignInv(HandlerStep(s, Ensure(t)))
  {
    var r := HandlerStep(s, Ensure(t));
    forall u | 0 <= u < |s.threads| && u != t ensures r.threads[u] == s.threads[u] && PcOk(s, s.threads[u]) { }
  }

  lemma BenignAppend(s: Sys, t: nat)
    requires Wf(s) && Enabled(s, Append(t)) && Benign(s, Append(t)) && BenignInv(s)
    requires LockInv(HandlerStep(s, Append(t)))
    ensures BenignInv(HandlerStep(s, Append(t)))
  {
  }

  lemma BenignHandler(s: Sys, e: Event)
    requires Wf(s) && Enabled(s, e) && (e.Arrive? || e.Lookup?) && BenignInv(s)
    requires LockInv(HandlerStep(s, e)) && OnlyActorMoves(s, HandlerStep(s, e), Actor(s, e))
    ensures BenignInv(HandlerStep(s, e))
  {
  }

  lemma BenignEntry(s: Sys, e: Event)
    requires Wf(s) && Enabled(s, e) && (e.Retry? || e.Begin?) && BenignInv(s)
    requires LockInv(HandlerStep(s, e)) && OnlyActorMoves(s, HandlerStep(s, e), Actor(s, e))
    ensures BenignInv(HandlerStep(s, e))
  {
  }

  lemma BenignAcquire(s: Sys, t: nat)
    requires Wf(s) && Enabled(s, Acquire(t, true, false)) && BenignInv(s)
    requires LockInv(Acquired(s, t, true, false))
    ensures BenignInv(Acquired(s, t, true, false))
  {
    hide Step;
    var r := Acquired(s, t, true, false);
    forall u | 0 <= u < |s.threads| && u != t ensures !Holds(s.threads[u]) && r.threads[u] == s.threads[u] { }
    assert r.threads[t] == Prepared(r.mapped.value);
  }

  lemma BenignTurn(s: Sys, e: Event)
    requires Wf(s) && Enabled(s, e) && IsTurnStep(e) && BenignInv(s)
    requires LockInv(TurnStep(s, e)) && OnlyActorMoves(s, TurnStep(s, e), Actor(s, e))
    ensures BenignInv(TurnStep(s, e))
  {
    assert PcOk(s, s.threads[e.t]) && Holds(s.threads[e.t]);
    assert forall u: nat :: u < |s.threads| && Holds(s.threads[u]) ==> u == e.t;
    assert MappedUp(s);
    var r := TurnStep(s, e);
    TurnFrame(s, e);
    forall sid: nat | HasQueue(r, sid) ensures r.mapped == Some(sid) { assert HasQueue(s, sid); }
  }

  lemma TurnFrame(s: Sys, e: Event)
    requires Wf(s) && Enabled(s, e) && IsTurnStep(e) && PcOk(s, s.threads[e.t]) && MappedUp(s)
    requires AgentAlive(s, s.mapped.value)
    ensures var r := TurnStep(s, e);
            && r.mapped == s.mapped && r.agents == s.agents && MappedUp(r) && PcOk(r, r.threads[e.t])
            && (forall sid: nat :: HasQueue(r, sid) ==> HasQueue(s, sid))
  {
  }

  lemma BenignSide(s: Sys, e: Event)
    requires Wf(s) && Enabled(s, e) && IsSideStep(e) && Benign(s, e) && BenignInv(s)
    requires LockInv(SideStep(s, e)) && OnlyActorMoves(s, SideStep(s, e), Actor(s, e))
    ensures BenignInv(SideStep(s, e))
  {
    if e.CompressLock? || e.CompressEnd? { assert PcOk(s, s.threads[e.t]); }
  }

  lemma BenignStep(s: Sys, e: Event)
    requires Wf(s) && Enabled(s, e) && Benign(s, e) && BenignInv(s)
    ensures BenignInv(Step(s, e))
  {
    LockStep(s, e);
    StepMoves(s, e);
    if e.Acquire? { BenignAcquire(s, e.t); }
    else if e.Ensure? { BenignEnsure(s, e.t); }
    else if e.Append? { BenignAppend(s, e.t); }
    else if e.Retry? || e.Begin? { BenignEntry(s, e); }
    else if IsHandlerStep(e) { BenignHandler(s, e); }
    else if IsTurnStep(e) { BenignTurn(s, e); }
    else { BenignSide(s, e); }
  }

  lemma {:induction false} BenignAlways(r: Run, s: Sys)
    requires Ends(r, s, AgentUp)
    ensures Wf(s) && BenignInv(s)
  {
    hide Step, Enabled, BenignInv, Benign;
    RunsAreWellFormed(r, s, AgentUp);
    if r.Then? {
      var before := LastStep(r, s, AgentUp);
      BenignAlways(r.prev, before);
      BenignStep(before, r.e);
    } else {
      BenignStart();
    }
  }

  lemma BenignStart()
    ensures BenignInv(Init)
  {
  }

  lemma BenignIsSafe(s: Sys, e: Event)
    requires Wf(s) && Enabled(s, e) && Benign(s, e) && BenignInv(s)
    ensures !Hazard(s, e)
  {
    if e.Retry? && s.busy && s.mapped.Some? {
      var h: nat :| h < |s.threads| && Holds(s.threads[h]);
      assert PcOk(s, s.threads[h]);
      assert Minds(s, h, s.mapped.value);
    }
    if e.Begin? { assert PcOk(s, s.threads[e.t]); }
  }

  lemma {:induction false} BenignCovered(r: Run, s: Sys)
    requires Ends(r, s, AgentUp)
    ensures Covered(s)
  {
    hide Step, Enabled, BenignInv, Benign, Hazard;
    if r.Then? {
      var before := LastStep(r, s, AgentUp);
      BenignCovered(r.prev, before);
      BenignAlways(r.prev, before);
      BenignIsSafe(before, r.e);
      CoverageIsExact(before, r.e);
    }
  }

  /**
   No stranding: with the agent up, an unlocked session with a non-empty queue has a handler
   between its append and its second TryLock; with no such handler, unlocked means empty.
   */
  lemma NothingStranded(r: Run, s: Sys)
    requires Ends(r, s, AgentUp)
    ensures !s.busy && (exists sid :: 0 <= sid < |s.states| && s.states[sid].pending != []) ==>
              exists t :: 0 <= t < |s.threads| && s.threads[t].Appended?
  {
    hide Ends;
    BenignCovered(r, s);
    BenignAlways(r, s);
    if !s.busy && exists sid :: 0 <= sid < |s.states| && s.states[sid].pending != [] {
      var sid :| 0 <= sid < |s.states| && s.states[sid].pending != [];
      assert HasQueue(s, sid);
      var t: nat :| t < |s.threads| && Minds(s, t, sid);
      assert PcOk(s, s.threads[t]);
      assert s.threads[t].Appended?;
    }
  }

  // ----- One queue -----

  function TheQueue(s: Sys): seq<Ticket>
    requires Wf(s)
  {
    if s.mapped.Some? then s.states[s.mapped.value].pending else []
  }

  ghost predicate HandBusy(s: Sys) {
    exists t: nat :: t < |s.threads| && s.threads[t].Popped?
  }

  /** Log, message in hand and queue are, in this order, all accepted messages in acceptance order. */
  ghost predicate Fifo(s: Sys)
    requires Wf(s)
  {
    var taken := |s.log| + if HandBusy(s) then 1 else 0;
    && s.accepted == taken + |TheQueue(s)|
    && (forall i :: 0 <= i < |s.log| ==> s.log[i].ticket == i)
    && (forall t :: 0 <= t < |s.threads| && s.threads[t].Popped? ==> s.threads[t].ticket == |s.log|)
    && (forall i :: 0 <= i < |TheQueue(s)| ==> TheQueue(s)[i] == taken + i)
  }

  lemma SameHand(s: Sys, r: Sys, t: nat)
    requires OnlyActorMoves(s, r, t)
    requires (t < |s.threads| ==> !s.threads[t].Popped?) && (t < |r.threads| ==> !r.threads[t].Popped?)
    ensures HandBusy(r) <==> HandBusy(s)
    ensures forall u :: 0 <= u < |r.threads| && r.threads[u].Popped? ==> u < |s.threads| && s.threads[u] == r.threads[u]
  {
    if HandBusy(s) {
      var u: nat :| u < |s.threads| && s.threads[u].Popped?;
      assert r.threads[u].Popped?;
    }
  }

  lemma FifoHandler(s: Sys, e: Event)
    requires Wf(s) && Enabled(s, e) && IsHandlerStep(e) && Benign(s, e) && BenignInv(s) && Fifo(s) && !e.Acquire?
    requires OnlyActorMoves(s, HandlerStep(s, e), Actor(s, e))
    ensures Fifo(HandlerStep(s, e))
  {
    SameHand(s, HandlerStep(s, e), Actor(s, e));
  }

  lemma FifoAcquire(s: Sys, t: nat)
    requires Wf(s) && Enabled(s, Acquire(t, true, false)) && BenignInv(s) && Fifo(s)
    requires OnlyActorMoves(s, Acquired(s, t, true, false), t)
    ensures Fifo(Acquired(s, t, true, false))
  {
    SameHand(s, Acquired(s, t, true, false), t);
    assert TheQueue(Acquired(s, t, true, false)) == TheQueue(s);
  }

  lemma FifoLoop(s: Sys, e: Event)
    requires Wf(s) && Enabled(s, e) && BenignInv(s) && Fifo(s)
    requires e.Result? || e.FailTurn? || e.EndTurn? || e.OrphanLookup? || e.Release? || e.DropAll?
    requires OnlyActorMoves(s, TurnStep(s, e), e.t)
    ensures Fifo(TurnStep(s, e))
  {
    assert PcOk(s, s.threads[e.t]);
    SameHand(s, TurnStep(s, e), e.t);
    assert !HandBusy(s);
  }

  lemma FifoDrain(s: Sys, t: nat)
    requires Wf(s) && Enabled(s, Drain(t)) && BenignInv(s) && Fifo(s)
    ensures Fifo(TurnStep(s, Drain(t)))
  {
    var r := TurnStep(s, Drain(t));
    assert PcOk(s, s.threads[t]);
    assert forall u :: 0 <= u < |s.threads| && u != t ==> r.threads[u] == s.threads[u] && !Holds(s.threads[u]);
    assert HandBusy(r) <==> r.threads[t].Popped?;
  }

  lemma FifoDispatch(s: Sys, t: nat)
    requires Wf(s) && Enabled(s, Dispatch(t)) && BenignInv(s) && Fifo(s)
    ensures Fifo(TurnStep(s, Dispatch(t)))
  {
    var r := TurnStep(s, Dispatch(t));
    assert PcOk(s, s.threads[t]);
    assert forall u :: 0 <= u < |s.threads| && u != t ==> r.threads[u] == s.threads[u] && !Holds(s.threads[u]);
    assert HandBusy(s) && !HandBusy(r);
  }

  lemma FifoSide(s: Sys, e: Event)
    requires Wf(s) && Enabled(s, e) && IsSideStep(e) && Benign(s, e) && BenignInv(s) && Fifo(s)
    requires OnlyActorMoves(s, SideStep(s, e), Actor(s, e))
    ensures Fifo(SideStep(s, e))
  {
    SameHand(s, SideStep(s, e), Actor(s, e));
  }

  lemma FifoStep(s: Sys, e: Event)
    requires Wf(s) && Enabled(s, e) && Benign(s, e) && BenignInv(s) && Fifo(s)
    ensures Fifo(Step(s, e))
  {
    hide Fifo, BenignInv, OnlyActorMoves, LockMovesWithActor;
    StepMoves(s, e);
    if e.Acquire? { FifoAcquire(s, e.t); }
    else if IsHandlerStep(e) { FifoHandler(s, e); }
    else if e.Drain? { FifoDrain(s, e.t); }
    else if e.Dispatch? { FifoDispatch(s, e.t); }
    else if IsTurnStep(e) { FifoLoop(s, e); }
    else { FifoSide(s, e); }
  }

  lemma {:induction false} FifoAlways(r: Run, s: Sys)
    requires Ends(r, s, AgentUp)
    ensures Wf(s) && Fifo(s)
  {
    hide Step, Enabled, BenignInv, Benign, Fifo;
    RunsAreWellFormed(r, s, AgentUp);
    if r.Then? {
      var before := LastStep(r, s, AgentUp);
      FifoAlways(r.prev, before);
      BenignAlways(r.prev, before);
      FifoStep(before, r.e);
    } else {
      FifoStart();
    }
  }

  lemma FifoStart()
    ensures Fifo(Init)
  {
  }

  /** With the agent up: log, message in hand and queue are all accepted messages in acceptance order, none skipped. */
  lemma AllInAcceptanceOrder(r: Run, s: Sys)
    requires Ends(r, s, AgentUp)
    ensures Wf(s)
    ensures forall i :: 0 <= i < |s.log| ==> s.log[i].ticket == i
    ensures forall t :: 0 <= t < |s.threads| && s.threads[t].Popped? ==> s.threads[t].ticket == |s.log|
    ensures var taken := |s.log| + if HandBusy(s) then 1 else 0;
            taken + |TheQueue(s)| == s.accepted &&
            forall i :: 0 <= i < |TheQueue(s)| ==> TheQueue(s)[i] == taken + i
  {
    hide Ends;
    FifoAlways(r, s);
  }
}
