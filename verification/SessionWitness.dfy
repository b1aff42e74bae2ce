/**
 Runs that show where the queue protocol of core/engine.go does abandon or reorder messages: each drops
 one condition of `SessionRuns.Benign`, or of `SessionOrder.DispatchOrderIsAcceptanceOrder`, and keeps the others.
 */
module SessionWitness {
  import opened Wrappers
  import opened SessionQueue
  import opened SessionCoverage
  import opened SessionRuns
  import opened SessionOrder

  /** Nobody owns the lock, every goroutine has finished, and a message is still queued. */
  ghost predicate Stranded(s: Sys) {
    && !s.busy
    && (forall t :: 0 <= t < |s.threads| ==> s.threads[t].Done?)
    && (exists sid: nat :: HasQueue(s, sid))
  }

  /** Some run under the rules gets to `s`. */
  ghost predicate Reaches(s: Sys, x: Rules) {
    exists r :: Ends(r, s, x)
  }

  lemma Go(s: Sys, e: Event, x: Rules) returns (s': Sys)
    requires Wf(s) && Reaches(s, x) && Enabled(s, e) && Allowed(s, e, x)
    ensures s' == Step(s, e) && Wf(s') && Reaches(s', x)
  {
    hide Step, Enabled, Allowed, Ends;
    var r :| Ends(r, s, x);
    s' := Step(s, e);
    Extended(r, s, e, x);
  }

  /** A turn with nothing queued runs to its end. */
  lemma QuietTurn(s: Sys, t: nat, sid: nat, x: Rules) returns (s': Sys)
    requires Wf(s) && Reaches(s, x) && t < |s.threads| && s.threads[t] == Prepared(sid)
    requires s.states[sid].agent.Some? && s.states[sid].pending == []
    ensures Wf(s') && Reaches(s', x)
    ensures s' == s.(busy := false, threads := s.threads[t := Done])
  {
    hide Reaches;
    var s1 := Go(s, Begin(t), x);
    assert s1 == SetPc(s, t, Running(sid));
    var s2 := EndOfTurn(s1, t, sid, x);
    s' := s2;
    assert s'.threads == s.threads[t := Done];
  }

  lemma EndOfTurn(s: Sys, t: nat, sid: nat, x: Rules) returns (s': Sys)
    requires Wf(s) && Reaches(s, x) && t < |s.threads| && s.threads[t] == Running(sid) && s.states[sid].pending == []
    ensures Wf(s') && Reaches(s', x)
    ensures s' == s.(busy := false, threads := s.threads[t := Done])
  {
    hide Reaches;
    var s1 := Go(s, Result(t), x);
    s' := Go(s1, Drain(t), x);
    assert s'.threads == s.threads[t := Done];
  }

  /** While the session is busy a handler arrives and looks up the mapped state. */
  lemma ArriveAndLookup(s: Sys, x: Rules) returns (s': Sys)
    requires Wf(s) && Reaches(s, x) && s.busy && s.mapped.Some?
    requires s.states[s.mapped.value].agent.None? || AgentAlive(s, s.mapped.value)
    ensures Wf(s') && Reaches(s', x) && s' == s.(threads := s.threads + [Appending(s.mapped.value)])
  {
    hide Reaches;
    var s1 := Go(s, Arrive, x);
    s' := Go(s1, Lookup(|s.threads|), x);
    assert s'.threads == s.threads + [Appending(s.mapped.value)];
  }

  /** Rules that are not given by a guard. */
  predicate Plain(x: Rules) {
    !x.NoHazard? && !x.NoReorder?
  }

  /** The rules allow an append to `sid`. */
  predicate MayAppend(s: Sys, sid: nat, x: Rules) {
    x.LateAppend? || (x.StillMapped? && !x.appends) || (s.mapped == Some(sid) && Plain(x))
  }

  /** A handler appends to the empty queue of `sid`, finds the session still busy and leaves. */
  lemma AppendAndLeave(s: Sys, t: nat, sid: nat, x: Rules) returns (s': Sys)
    requires Wf(s) && Reaches(s, x) && s.busy && t < |s.threads| && s.threads[t] == Appending(sid)
    requires s.states[sid].pending == [] && MayAppend(s, sid, x)
    ensures Wf(s') && Reaches(s', x)
    ensures s' == s.(threads := s.threads[t := Done], accepted := s.accepted + 1,
                     states := s.states[sid := s.states[sid].(pending := [s.accepted])])
  {
    hide Reaches;
    var s1 := GoAppend(s, t, sid, x);
    s' := Go(s1, Retry(t), x);
    assert s'.threads == s.threads[t := Done];
  }

  lemma GoAppend(s: Sys, t: nat, sid: nat, x: Rules) returns (s': Sys)
    requires Wf(s) && Reaches(s, x) && t < |s.threads| && s.threads[t] == Appending(sid)
    requires s.states[sid].pending == [] && MayAppend(s, sid, x)
    ensures Wf(s') && Reaches(s', x)
    ensures s' == s.(threads := s.threads[t := Appended], accepted := s.accepted + 1,
                     states := s.states[sid := s.states[sid].(pending := [s.accepted])])
  {
    hide Reaches;
    s' := Go(s, Append(t), x);
    assert [] + [s.accepted] == [s.accepted];
  }

  /** While the session is busy a message is queued on the mapped state and its handler leaves. */
  lemma QueueOne(s: Sys, x: Rules) returns (s': Sys)
    requires Wf(s) && Reaches(s, x) && Plain(x) && s.busy && s.mapped.Some? && s.states[s.mapped.value].pending == []
    requires s.states[s.mapped.value].agent.None? || AgentAlive(s, s.mapped.value)
    ensures Wf(s') && Reaches(s', x)
    ensures s' == s.(threads := s.threads + [Done], accepted := s.accepted + 1,
                     states := s.states[s.mapped.value := s.states[s.mapped.value].(pending := [s.accepted])])
  {
    hide Reaches;
    var s1 := ArriveAndLookup(s, x);
    s' := AppendAndLeave(s1, |s.threads|, s.mapped.value, x);
    assert s'.threads == s.threads + [Done];
  }

  lemma InitReached(x: Rules)
    ensures Reaches(Init, x)
  {
    assert Ends(Start, Init, x);
  }

  /** The first message holds the lock and its placeholder is mapped. */
  lemma ReachStarting(x: Rules) returns (s: Sys)
    ensures Wf(s) && Reaches(s, x)
    ensures s.busy && s.mapped == Some(0) && |s.states| == 1 && s.states[0] == InteractiveState(None, [], false)
    ensures |s.threads| == 1 && s.threads[0] == Starting && s.accepted == 0 && |s.agents| == 0 && s.log == []
  {
    hide Reaches;
    InitReached(x);
    s := Go(Init, Arrive, x);
    s := Go(s, Ensure(0), x);
  }

  /** The first message was handled on its own; the agent session is up. */
  lemma ReachIdle(x: Rules) returns (s: Sys)
    ensures Wf(s) && Reaches(s, x)
    ensures !s.busy && s.mapped == Some(1) && |s.states| == 2 && |s.agents| == 1 && s.agents[0].alive
    ensures s.accepted == 0 && s.log == []
    ensures s.states[1] == InteractiveState(Some(0), [], false)
    ensures |s.threads| == 1 && s.threads[0] == Done
  {
    hide Reaches;
    s := ReachStarting(x);
    s := Go(s, Acquire(0, true, false), x);
    s := QuietTurn(s, 0, 1, x);
  }

  /** From an idle session, a second message takes the lock. */
  lemma ReachSecond(x: Rules) returns (s: Sys)
    ensures Wf(s) && Reaches(s, x)
    ensures s.busy && s.mapped == Some(1) && |s.states| == 2 && |s.agents| == 1 && s.agents[0].alive
    ensures s.accepted == 0 && s.log == []
    ensures s.states[1] == InteractiveState(Some(0), [], false)
    ensures |s.threads| == 2 && s.threads[0] == Done && s.threads[1] == Starting
  {
    hide Reaches;
    s := ReachIdle(x);
    s := Go(s, Arrive, x);
    s := Go(s, Ensure(1), x);
  }

  /**
   The exception in `SessionFifo.NothingStranded` is needed: in a benign run the session can be unlocked with a
   message queued, when the turn ends between a handler's lookup and its append.
   */
  lemma RaceWindowIsReached()
    ensures exists s, t: nat ::
              Reaches(s, AgentUp) && !s.busy && t < |s.threads| && s.threads[t].Appended? && HasQueue(s, 1)
  {
    hide Reaches;
    var s := ReachTurnWithLookup(AgentUp);
    s := EndOfTurn(s, 1, 1, AgentUp);
    s := Go(s, Append(2), AgentUp);
    assert HasQueue(s, 1) && s.threads[2].Appended?;
  }

  /** A second turn runs. */
  lemma ReachTurn(x: Rules) returns (s: Sys)
    ensures Wf(s) && Reaches(s, x)
    ensures s.busy && s.mapped == Some(1) && |s.states| == 2 && s.states[1] == InteractiveState(Some(0), [], false)
    ensures s.accepted == 0 && s.log == [] && |s.agents| == 1 && s.agents[0].alive
    ensures |s.threads| == 2 && s.threads[0] == Done && s.threads[1] == Running(1)
  {
    hide Reaches;
    s := ReachSecond(x);
    s := Go(s, Acquire(1, true, false), x);
    s := Go(s, Begin(1), x);
  }

  /** A second turn runs and a third message has looked up its state. */
  lemma ReachTurnWithLookup(x: Rules) returns (s: Sys)
    ensures Wf(s) && Reaches(s, x)
    ensures s.busy && s.mapped == Some(1) && |s.states| == 2 && s.states[1] == InteractiveState(Some(0), [], false)
    ensures s.accepted == 0 && s.log == [] && |s.agents| == 1 && s.agents[0].alive
    ensures |s.threads| == 3 && s.threads[0] == Done && s.threads[1] == Running(1) && s.threads[2] == Appending(1)
  {
    hide Reaches;
    s := ReachTurn(x);
    s := ArriveAndLookup(s, x);
  }

  /** A handler looked up the placeholder before it was replaced and appends to it afterwards. */
  lemma ReachLateLookup() returns (s: Sys)
    ensures Wf(s) && Reaches(s, LateAppend)
    ensures s.busy && s.mapped == Some(1) && |s.states| == 2 && |s.agents| == 1
    ensures s.states[0].pending == [] && s.states[1] == InteractiveState(Some(0), [], false)
    ensures |s.threads| == 2 && s.threads[0] == Prepared(1) && s.threads[1] == Appending(0)
  {
    hide Reaches;
    var x := LateAppend;
    s := ReachStarting(x);
    s := ArriveAndLookup(s, x);
    s := Go(s, Acquire(0, true, false), x);
  }

  lemma LateAppendStrands()
    ensures exists s :: Reaches(s, LateAppend) && Stranded(s)
  {
    hide Reaches;
    var x := LateAppend;
    var s := ReachLateLookup();
    s := AppendAndLeave(s, 1, 0, x);
    s := QuietTurn(s, 0, 1, x);
    assert HasQueue(s, 0);
    assert Stranded(s);
  }

  /** A fresh state takes over; the queue of a recycled state stays where it is. */
  lemma GoRecycle(s: Sys, t: nat, x: Rules) returns (s': Sys)
    requires Wf(s) && Reaches(s, x) && x.Recycling? && t < |s.threads| && s.threads[t] == Starting
    requires s.mapped.Some? && AgentAlive(s, s.mapped.value)
    ensures Wf(s') && Reaches(s', x)
    ensures s'.threads == s.threads[t := Prepared(|s.states|)] && |s'.states| == |s.states| + 1
    ensures s'.states[|s.states|].agent.Some? && s'.states[|s.states|].pending == []
    ensures s'.states[s.mapped.value].pending == s.states[s.mapped.value].pending
  {
    hide Reaches;
    s' := Go(s, Acquire(t, true, true), x);
  }

  /** A message queued between TryLock and the recycling of a mismatched agent is lost with its state. */
  lemma RecyclingStrands()
    ensures exists s :: Reaches(s, Recycling) && Stranded(s)
  {
    hide Reaches;
    var x := Recycling;
    var s := ReachSecond(x);
    s := QueueOne(s, x);
    s := GoRecycle(s, 1, x);
    s := QuietTurn(s, 1, 2, x);
    assert HasQueue(s, 1);
    assert Stranded(s);
  }

  /** The agent does not start: the early return leaves the adopted queue behind. */
  lemma FailedStartStrands()
    ensures exists s :: Reaches(s, FailedStart) && Stranded(s)
  {
    hide Reaches;
    var x := FailedStart;
    var s := ReachStarting(x);
    s := QueueOne(s, x);
    s := GoFailedStart(s, x);
    s := Go(s, Begin(0), x);
    ReleaseStrands(s, 0, 1, x);
  }

  lemma GoFailedStart(s: Sys, x: Rules) returns (s': Sys)
    requires Wf(s) && Reaches(s, x) && x.FailedStart? && |s.threads| > 0 && s.threads[0] == Starting
    requires s.mapped.Some? && s.states[s.mapped.value].agent.None? && HasQueue(s, s.mapped.value)
    ensures Wf(s') && Reaches(s', x) && s'.threads == s.threads[0 := Prepared(|s.states|)]
    ensures |s'.states| == |s.states| + 1 && s'.states[|s.states|].agent.None? && HasQueue(s', |s.states|)
  {
    hide Reaches;
    s' := Go(s, Acquire(0, false, false), x);
  }

  lemma ReleaseStrands(s: Sys, t: nat, sid: nat, x: Rules)
    requires Wf(s) && Reaches(s, x) && t < |s.threads| && s.threads[t].Releasing? && HasQueue(s, sid)
    requires forall u :: 0 <= u < |s.threads| && u != t ==> s.threads[u].Done?
    ensures exists s :: Reaches(s, x) && Stranded(s)
  {
    hide Reaches;
    var s' := Go(s, Release(t), x);
    assert HasQueue(s', sid);
    assert Stranded(s');
  }

  /** /compress fails to send its command to a live agent and returns without draining. */
  lemma CompressReturnStrands()
    ensures exists s :: Reaches(s, EarlyCompressReturn) && Stranded(s)
  {
    hide Reaches;
    var x := EarlyCompressReturn;
    var s := ReachIdle(x);
    s := GoCompress(s, x);
    CompressStrands(s, 1, 1, x);
  }

  /** A message is queued while /compress holds the lock, which then returns early. */
  lemma CompressStrands(s: Sys, t: nat, sid: nat, x: Rules)
    requires Wf(s) && Reaches(s, x) && x.EarlyCompressReturn? && s.busy && s.mapped == Some(sid)
    requires AgentAlive(s, sid) && s.states[sid].pending == []
    requires t < |s.threads| && s.threads[t] == Compressing(sid)
    requires forall u :: 0 <= u < |s.threads| && u != t ==> s.threads[u].Done?
    ensures exists s :: Reaches(s, x) && Stranded(s)
  {
    hide Reaches;
    var s' := QueueOne(s, x);
    assert s'.states[sid].pending == [s.accepted];
    CompressReturns(s', t, x);
  }

  lemma GoCompress(s: Sys, x: Rules) returns (s': Sys)
    requires Wf(s) && Reaches(s, x) && !s.busy && s.mapped.Some? && AgentAlive(s, s.mapped.value)
    requires Plain(x) && (x.StillMapped? ==> !x.locks)
    ensures Wf(s') && Reaches(s', x)
    ensures s' == s.(busy := true, threads := s.threads + [Compressing(s.mapped.value)])
  {
    hide Reaches;
    s' := Go(s, CompressLookup, x);
    assert s' == Spawn(s, CompressTry(s.mapped.value));
    s' := GoCompressLock(s', |s.threads|, x);
    assert s'.threads == s.threads + [Compressing(s.mapped.value)];
  }

  lemma GoCompressLock(s: Sys, t: nat, x: Rules) returns (s': Sys)
    requires Wf(s) && Reaches(s, x) && !s.busy && t < |s.threads| && s.threads[t].CompressTry?
    requires Plain(x) && (x.StillMapped? ==> !x.locks)
    ensures Wf(s') && Reaches(s', x)
    ensures s' == s.(busy := true, threads := s.threads[t := Compressing(s.threads[t].sid)])
  {
    hide Reaches;
    s' := Go(s, CompressLock(t), x);
  }

  lemma CompressReturns(s: Sys, t: nat, x: Rules)
    requires Wf(s) && Reaches(s, x) && x.EarlyCompressReturn? && t < |s.threads| && s.threads[t].Compressing?
    requires HasQueue(s, s.threads[t].sid)
    requires forall u :: 0 <= u < |s.threads| && u != t ==> s.threads[u].Done?
    ensures exists s :: Reaches(s, x) && Stranded(s)
  {
    hide Reaches;
    var s' := Go(s, CompressEnd(t, JustReturn), x);
    ReleaseStrands(s', t, s.threads[t].sid, x);
  }

  /**
   A cleanup that was given no expected state can unmap a state other than the one it closed:
   here a new turn started on state 2 while the cleanup closed the agent session of state 1.
   */
  lemma UnconditionalCleanupRemovesReplacement()
    ensures exists s, t: nat :: Reaches(s, Teardown) && RemovesRunningState(s, t)
  {
    hide Reaches;
    var x := Teardown;
    var s := ReachIdle(x);
    s := CloseWithoutExpectation(s);
    s := ReplaceDuringClose(s);
    assert RemovesRunningState(s, 1);
  }

  lemma CloseWithoutExpectation(s: Sys) returns (s': Sys)
    requires Wf(s) && Reaches(s, Teardown) && !s.busy && |s.threads| == 1
    requires s.mapped == Some(1) && s.states[1].agent == Some(0)
    ensures Wf(s') && Reaches(s', Teardown) && !s'.busy && |s'.threads| == 2 && s'.threads[1] == CleanupDelete(Some(1), None)
    ensures s'.mapped == s.mapped && s'.states[1].agent.None?
  {
    hide Reaches;
    s' := Go(s, Cleanup(None), Teardown);
    s' := NotifyAndClose(s', 1);
  }

  ghost predicate RemovesRunningState(s: Sys, t: nat) {
    && Wf(s) && Enabled(s, Unmap(t)) && s.threads[t] == CleanupDelete(Some(1), None)
    && s.mapped.Some? && s.mapped != Some(1) && AgentAlive(s, s.mapped.value) && !s.states[s.mapped.value].stopped
    && (exists u: nat :: u < |s.threads| && Holds(s.threads[u]) && Keeps(s.threads[u]) && s.mapped == Some(s.threads[u].sid))
    && Step(s, Unmap(t)).mapped == None
  }

  lemma ReplaceDuringClose(s: Sys) returns (s': Sys)
    requires Wf(s) && Reaches(s, Teardown) && !s.busy && |s.threads| == 2 && s.threads[1] == CleanupDelete(Some(1), None)
    requires s.mapped == Some(1) && s.states[1].agent.None?
    ensures Wf(s') && Reaches(s', Teardown) && RemovesRunningState(s', 1)
  {
    hide Reaches;
    var x := Teardown;
    s' := Go(s, Arrive, x);
    s' := Go(s', Ensure(2), x);
    assert s'.mapped == s.mapped && s'.states == s.states;
    assert s'.threads[1] == CleanupDelete(Some(1), None) && s'.threads[2] == Starting;
    s' := ReplaceWhileCleaning(s');
  }

  lemma ReplaceWhileCleaning(s: Sys) returns (s': Sys)
    requires Wf(s) && Reaches(s, Teardown) && |s.threads| == 3 && s.threads[1] == CleanupDelete(Some(1), None)
    requires s.threads[2] == Starting && s.mapped == Some(1) && s.states[1].agent.None?
    ensures Wf(s') && Reaches(s', Teardown) && RemovesRunningState(s', 1)
  {
    hide Reaches;
    s' := Go(s, Acquire(2, true, false), Teardown);
    assert s'.threads[1] == CleanupDelete(Some(1), None);
    assert s'.threads[2] == Prepared(|s.states|) && s'.mapped == Some(|s.states|);
    assert Keeps(s'.threads[2]) && Holds(s'.threads[2]);
    UnmapRemoves(s', 1);
  }

  lemma UnmapRemoves(s: Sys, t: nat)
    requires Wf(s) && t < |s.threads| && s.threads[t] == CleanupDelete(Some(1), None)
    ensures Enabled(s, Unmap(t)) && Step(s, Unmap(t)).mapped == None
  {
  }

  // ----- The other ways to strand a message -----

  /** While a cleanup closes the agent session a late handler queues a message, and the cleanup unmaps its state. */
  lemma UnmapStrands()
    ensures exists s :: Reaches(s, Teardown) && Stranded(s)
  {
    hide Reaches;
    var x := Teardown;
    var s := ReachTurnWithLookup(x);
    s := CleanupDuringTurn(s);
    s := EndOfTurn(s, 1, 1, x);
    s := GoAppend(s, 2, 1, x);
    UnmapAfterAppend(s);
  }

  lemma CleanupDuringTurn(s: Sys) returns (s': Sys)
    requires Wf(s) && Reaches(s, Teardown) && |s.threads| == 3 && s.mapped == Some(1)
    requires s.states[1].agent == Some(0) && s.states[1].pending == []
    ensures Wf(s') && Reaches(s', Teardown) && s'.busy == s.busy && s'.mapped == s.mapped
    ensures s'.threads == s.threads + [CleanupDelete(Some(1), None)] && |s'.states| == |s.states| && s'.states[1].pending == []
  {
    hide Reaches;
    s' := Go(s, Cleanup(None), Teardown);
    assert s'.threads == s.threads + [CleanupDrop(1, Some(0), None)];
    s' := NotifyAndClose(s', 3);
    assert s'.threads == s.threads + [CleanupDelete(Some(1), None)];
  }

  lemma NotifyAndClose(s: Sys, t: nat) returns (s': Sys)
    requires Wf(s) && Reaches(s, Teardown) && t < |s.threads| && s.threads[t] == CleanupDrop(1, Some(0), None)
    ensures Wf(s') && Reaches(s', Teardown) && s'.busy == s.busy && s'.mapped == s.mapped
    ensures s'.threads == s.threads[t := CleanupDelete(Some(1), None)]
    ensures |s'.states| == |s.states| && s'.states[1].pending == [] && s'.states[1].agent == s.states[1].agent
  {
    hide Reaches;
    s' := Go(s, CleanupNotify(t), Teardown);
    s' := Go(s', Close(t), Teardown);
    assert s'.threads == s.threads[t := CleanupDelete(Some(1), None)];
  }

  lemma UnmapAfterAppend(s: Sys)
    requires Wf(s) && Reaches(s, Teardown) && !s.busy && s.mapped == Some(1) && HasQueue(s, 1)
    requires s.threads == [Done, Done, Appended, CleanupDelete(Some(1), None)]
    ensures exists s :: Reaches(s, Teardown) && Stranded(s)
  {
    hide Reaches;
    var s' := Go(s, Unmap(3), Teardown);
    s' := Go(s', Retry(2), Teardown);
    s' := Go(s', OrphanLookup(2), Teardown);
    assert s'.threads == [Done, Done, Releasing, Done] && s'.states == s.states;
    assert HasQueue(s', 1);
    ReleaseStrands(s', 2, 1, Teardown);
  }

  /** A message is queued on a new placeholder while the lock belongs to the turn of a stopped state. */
  lemma RetryStrands()
    ensures exists s :: Reaches(s, Teardown) && Stranded(s)
  {
    hide Reaches;
    var x := Teardown;
    var s := ReachTurn(x);
    s := StopAndPlaceholder(s, x);
    s := QueueOne(s, x);
    s := EndOfTurn(s, 1, 1, x);
    s := FinishStop(s, 2);
    assert HasQueue(s, 2) && Stranded(s);
  }

  lemma StopAndPlaceholder(s: Sys, x: Rules) returns (s': Sys)
    requires Wf(s) && Reaches(s, x) && (x.Teardown? || x.StillMapped?) && s.mapped == Some(1) && |s.states| == 2
    ensures Wf(s') && Reaches(s', x)
    ensures s' == s.(threads := s.threads + [StopDrop(1, s.states[1].agent)], mapped := Some(2),
                     states := [s.states[0], s.states[1].(stopped := true), InteractiveState(None, [], false)])
  {
    hide Reaches;
    s' := Go(s, Stop, x);
    s' := Go(s', Placeholder, x);
    assert s'.states == [s.states[0], s.states[1].(stopped := true), InteractiveState(None, [], false)];
  }

  lemma FinishStop(s: Sys, t: nat) returns (s': Sys)
    requires Wf(s) && Reaches(s, Teardown) && t < |s.threads| && s.threads[t] == StopDrop(1, Some(0))
    ensures Wf(s') && Reaches(s', Teardown) && s'.busy == s.busy && s'.threads == s.threads[t := Done]
    ensures |s'.states| == |s.states| && forall i :: 0 <= i < |s.states| && i != 1 ==> s'.states[i] == s.states[i]
  {
    hide Reaches;
    s' := Go(s, StopNotify(t), Teardown);
    s' := Go(s', Close(t), Teardown);
    assert s'.threads == s.threads[t := Done];
  }

  /** The agent dies: the drain loop reports what is queued and returns, and a late handler finds the lock still held. */
  lemma DeathStrands()
    ensures exists s :: Reaches(s, AgentDeath) && Stranded(s)
  {
    hide Reaches;
    var x := AgentDeath;
    var s := ReachTurn(x);
    s := QueueOne(s, x);
    s := ArriveAndLookup(s, x);
    s := DieInHand(s);
    s := AppendAndLeave(s, 3, 1, x);
    assert HasQueue(s, 1);
    ReleaseStrands(s, 1, 1, x);
  }

  lemma DieInHand(s: Sys) returns (s': Sys)
    requires Wf(s) && Reaches(s, AgentDeath) && |s.threads| == 4 && s.threads[1] == Running(1)
    requires s.states[1].agent == Some(0) && |s.states[1].pending| == 1
    ensures Wf(s') && Reaches(s', AgentDeath) && s'.busy == s.busy && s'.mapped == s.mapped
    ensures s'.threads == s.threads[1 := Releasing] && |s'.states| == |s.states| && s'.states[1].pending == []
  {
    hide Reaches;
    var x := AgentDeath;
    s' := TakeOne(s, 1, 1, x);
    s' := Go(s', Die(0), x);
    s' := DropInHand(s', 1, 1);
    assert s'.threads == s.threads[1 := Releasing];
  }

  /** The turn ends and the drain loop takes the only queued message. */
  lemma TakeOne(s: Sys, t: nat, sid: nat, x: Rules) returns (s': Sys)
    requires Wf(s) && Reaches(s, x) && t < |s.threads| && s.threads[t] == Running(sid) && |s.states[sid].pending| == 1
    ensures Wf(s') && Reaches(s', x)
    ensures s' == s.(threads := s.threads[t := Popped(sid, s.states[sid].pending[0])],
                     states := s.states[sid := s.states[sid].(pending := [])])
  {
    hide Reaches;
    s' := Go(s, EndTurn(t), x);
    s' := Go(s', Drain(t), x);
    assert s'.threads == s.threads[t := Popped(sid, s.states[sid].pending[0])];
  }

  lemma DropInHand(s: Sys, t: nat, sid: nat) returns (s': Sys)
    requires Wf(s) && Reaches(s, AgentDeath) && t < |s.threads| && s.threads[t].Popped? && s.threads[t].sid == sid
    requires !AgentAlive(s, sid) && s.states[sid].pending == []
    ensures Wf(s') && Reaches(s', AgentDeath) && s'.busy == s.busy && s'.mapped == s.mapped
    ensures s'.threads == s.threads[t := Releasing] && |s'.states| == |s.states| && s'.states[sid].pending == []
  {
    hide Reaches;
    s' := Go(s, Dispatch(t), AgentDeath);
    s' := Go(s', DropAll(t), AgentDeath);
    assert s'.threads == s.threads[t := Releasing];
  }

  // ----- Both conditions of `SessionOrder.DispatchOrderIsAcceptanceOrder` are needed -----

  /** Message 1 was dispatched, then message 0. */
  ghost predicate Reordered(s: Sys) {
    s.log == [Dispatched(1), Dispatched(0)] && !LogRises(s.log)
  }

  lemma NewerFirst(s: Sys)
    requires s.log == [Dispatched(1), Dispatched(0)]
    ensures Reordered(s)
  {
    assert s.log[0].ticket == 1 && s.log[1].ticket == 0;
  }

  /**
   A handler looked up state 1, which was then stopped; message 0 is queued on the new placeholder before the handler
   appends message 1 to state 1, whose turn dispatches it first.
   */
  lemma LateAppendReorders()
    ensures exists s :: Reaches(s, StillMapped(false, true)) && Reordered(s)
  {
    hide Reaches;
    var x := StillMapped(false, true);
    var s := ReachTurnWithLookup(x);
    s := StopAndPlaceholder(s, x);
    s := QueueOne(s, x);
    s := AppendAndLeave(s, 2, 1, x);
    s := DispatchOne(s, 1, 1, x);
    s := EndOfTurn(s, 1, 1, x);
    s := NewTurnDispatches(s, x);
    NewerFirst(s);
  }

  /** The turn ends, and the drain loop dispatches the only queued message to a live agent. */
  lemma DispatchOne(s: Sys, t: nat, sid: nat, x: Rules) returns (s': Sys)
    requires Wf(s) && Reaches(s, x) && t < |s.threads| && s.threads[t] == Running(sid) && |s.states[sid].pending| == 1
    requires AgentAlive(s, sid)
    ensures Wf(s') && Reaches(s', x)
    ensures s' == s.(log := s.log + [Dispatched(s.states[sid].pending[0])],
                     states := s.states[sid := s.states[sid].(pending := [])])
  {
    hide Reaches;
    s' := TakeOne(s, t, sid, x);
    s' := GoDispatch(s', t, sid, x);
    assert s'.threads == s.threads;
  }

  lemma GoDispatch(s: Sys, t: nat, sid: nat, x: Rules) returns (s': Sys)
    requires Wf(s) && Reaches(s, x) && t < |s.threads| && s.threads[t].Popped? && s.threads[t].sid == sid
    requires AgentAlive(s, sid)
    ensures Wf(s') && Reaches(s', x)
    ensures s' == s.(log := s.log + [Dispatched(s.threads[t].ticket)], threads := s.threads[t := Running(sid)])
  {
    hide Reaches;
    s' := Go(s, Dispatch(t), x);
  }

  /** A new message starts a turn on a state that adopts the placeholder's queue; the first result takes its message. */
  lemma NewTurnDispatches(s: Sys, x: Rules) returns (s': Sys)
    requires Wf(s) && Reaches(s, x) && x.StillMapped? && !s.busy && s.mapped.Some?
    requires s.states[s.mapped.value].agent.None? && |s.states[s.mapped.value].pending| == 1
    ensures Wf(s') && Reaches(s', x) && s'.log == s.log + [Dispatched(s.states[s.mapped.value].pending[0])]
  {
    hide Reaches;
    s' := Go(s, Arrive, x);
    s' := Go(s', Ensure(|s.threads|), x);
    assert s'.mapped == s.mapped && s'.states == s.states && s'.log == s.log && s'.threads == s.threads + [Starting];
    s' := AdoptAndDispatch(s', |s.threads|, x);
  }

  lemma AdoptAndDispatch(s: Sys, t: nat, x: Rules) returns (s': Sys)
    requires Wf(s) && Reaches(s, x) && x.StillMapped? && s.mapped.Some? && t < |s.threads| && s.threads[t] == Starting
    requires s.states[s.mapped.value].agent.None? && |s.states[s.mapped.value].pending| == 1
    ensures Wf(s') && Reaches(s', x) && s'.log == s.log + [Dispatched(s.states[s.mapped.value].pending[0])]
    ensures |s'.threads| == |s.threads| && s'.threads[t] == Running(|s.states|) && s'.busy == s.busy
    ensures forall u :: 0 <= u < |s.threads| && u != t ==> s'.threads[u] == s.threads[u]
    ensures |s'.states| == |s.states| + 1 && s'.states[|s.states|].pending == []
    ensures forall i :: 0 <= i < |s.states| && s.mapped != Some(i) ==> s'.states[i] == s.states[i]
    ensures |s.agents| < |s'.agents| && s'.agents[..|s.agents|] == s.agents
  {
    hide Reaches;
    s' := GoAdopt(s, t, x);
    s' := Go(s', Begin(t), x);
    s' := Go(s', Result(t), x);
  }

  lemma GoAdopt(s: Sys, t: nat, x: Rules) returns (s': Sys)
    requires Wf(s) && Reaches(s, x) && x.StillMapped? && s.mapped.Some? && t < |s.threads| && s.threads[t] == Starting
    requires s.states[s.mapped.value].agent.None?
    ensures Wf(s') && Reaches(s', x) && s'.log == s.log && s'.busy == s.busy
    ensures s'.threads == s.threads[t := Prepared(|s.states|)] && s'.agents == s.agents + [AgentSession(true, 0)]
    ensures |s'.states| == |s.states| + 1
    ensures s'.states[|s.states|] == InteractiveState(Some(|s.agents|), s.states[s.mapped.value].pending, false)
    ensures forall i :: 0 <= i < |s.states| && s.mapped != Some(i) ==> s'.states[i] == s.states[i]
  {
    hide Reaches;
    s' := Go(s, Acquire(t, true, false), x);
  }

  /**
   /compress looked up state 1 and takes the lock only after that state was stopped with message 0 in its queue and
   message 1 was dispatched by a turn on the state that replaced it.
   */
  lemma LateCompressReorders()
    ensures exists s :: Reaches(s, StillMapped(true, false)) && Reordered(s)
  {
    hide Reaches;
    var x := StillMapped(true, false);
    var s := ReachTurnWithLookup(x);
    s := Go(s, CompressLookup, x);
    s := EndOfTurn(s, 1, 1, x);
    s := GoAppend(s, 2, 1, x);
    s := StopAndGiveUp(s, x);
    s := DispatchNewer(s, x);
    CompressDispatchesOlder(s, x);
  }

  lemma StopAndGiveUp(s: Sys, x: Rules) returns (s': Sys)
    requires Wf(s) && Reaches(s, x) && x.StillMapped? && !s.busy && s.mapped == Some(1) && |s.threads| == 4
    requires s.threads[2] == Appended
    ensures Wf(s') && Reaches(s', x)
    ensures s' == s.(mapped := None, states := s.states[1 := s.states[1].(stopped := true)],
                     threads := s.threads[2 := Done] + [StopDrop(1, s.states[1].agent)])
  {
    hide Reaches;
    s' := Go(s, Stop, x);
    s' := Go(s', Retry(2), x);
    s' := GiveUp(s', 2, x);
    assert s'.threads == s.threads[2 := Done] + [StopDrop(1, s.states[1].agent)];
  }

  lemma GiveUp(s: Sys, t: nat, x: Rules) returns (s': Sys)
    requires Wf(s) && Reaches(s, x) && s.mapped.None? && t < |s.threads| && s.threads[t] == Orphan
    ensures Wf(s') && Reaches(s', x) && s' == s.(busy := false, threads := s.threads[t := Done])
  {
    hide Reaches;
    s' := Go(s, OrphanLookup(t), x);
    s' := Go(s', Release(t), x);
    assert s'.threads == s.threads[t := Done];
  }

  lemma DispatchNewer(s: Sys, x: Rules) returns (s': Sys)
    requires Wf(s) && Reaches(s, x) && x.StillMapped? && !s.busy && s.mapped.None? && s.accepted == 1 && s.log == []
    requires |s.states| == 2 && |s.threads| == 5 && s.threads[3] == CompressTry(1) && AgentAlive(s, 1)
    ensures Wf(s') && Reaches(s', x) && !s'.busy && s'.log == [Dispatched(1)]
    ensures |s'.threads| > 3 && s'.threads[3] == CompressTry(1) && |s'.states| > 1 && s'.states[1] == s.states[1]
    ensures AgentAlive(s', 1)
  {
    hide Reaches;
    s' := Go(s, Arrive, x);
    s' := Go(s', Ensure(5), x);
    assert s' == s.(busy := true, mapped := Some(2), states := s.states + [InteractiveState(None, [], false)],
                    threads := s.threads + [Starting]);
    s' := QueueOne(s', x);
    s' := AdoptAndDispatch(s', 5, x);
    s' := EndOfTurn(s', 5, 3, x);
  }

  lemma CompressDispatchesOlder(s: Sys, x: Rules)
    requires Wf(s) && Reaches(s, x) && x == StillMapped(true, false) && !s.busy && s.log == [Dispatched(1)]
    requires |s.threads| > 3 && s.threads[3] == CompressTry(1) && s.states[1].pending == [0] && AgentAlive(s, 1)
    ensures exists s :: Reaches(s, x) && Reordered(s)
  {
    hide Reaches;
    var s' := GoCompressLock(s, 3, x);
    s' := Go(s', CompressEnd(3, DrainQueue), x);
    s' := Go(s', Drain(3), x);
    assert s'.threads[3] == Popped(1, 0) && s'.states[1].agent == s.states[1].agent;
    s' := GoDispatch(s', 3, 1, x);
    NewerFirst(s');
  }
}
