/** Live agent sessions that nothing refers to any more, and that no goroutine is ever stuck (core/engine.go). */
module SessionLeaks {
  import opened Wrappers
  import opened SessionQueue
  import opened SessionRuns
  import opened SessionAgents
  import opened SessionWitness

  // ----- Leaks -----

  /** Every live agent session is the mapped one or is going to be closed. */
  ghost predicate NoLeak(s: Sys)
    requires Wf(s)
  {
    forall a: nat :: a < |s.agents| && s.agents[a].alive ==> MappedAgent(s) == Some(a) || exists t: nat :: ClaimedBy(s, t, a)
  }

  /** The last step of a cleanup without expected state, when a state with a live agent has taken the map entry. */
  predicate Leaks(s: Sys, e: Event)
    requires Wf(s) && Enabled(s, e)
  {
    e.Unmap? && s.threads[e.t].expected.None? && s.mapped.Some? && AgentAlive(s, s.mapped.value)
  }

  /** The state that a cleanup shut down has no agent any more. */
  ghost predicate ShutDownInv(s: Sys) {
    forall t :: 0 <= t < |s.threads| && ShutDown(s.threads[t]).Some? ==>
      ShutDown(s.threads[t]).value < |s.states| && s.states[ShutDown(s.threads[t]).value].agent.None?
  }

  ghost predicate GivesNoAgent(s: Sys, r: Sys) {
    |s.states| <= |r.states| &&
    forall sid :: 0 <= sid < |s.states| && s.states[sid].agent.None? ==> r.states[sid].agent.None?
  }

  lemma HandlerGivesNone(s: Sys, e: Event)
    requires Wf(s) && Enabled(s, e) && IsHandlerStep(e) && !e.Acquire?
    ensures GivesNoAgent(s, HandlerStep(s, e))
  {
  }

  lemma TurnGivesNone(s: Sys, e: Event)
    requires Wf(s) && Enabled(s, e) && IsTurnStep(e)
    ensures GivesNoAgent(s, TurnStep(s, e))
  {
  }

  lemma TeardownGivesNone(s: Sys, e: Event)
    requires Wf(s) && Enabled(s, e) && IsTeardownStep(e)
    ensures GivesNoAgent(s, TeardownStep(s, e))
  {
  }

  lemma SideGivesNone(s: Sys, e: Event)
    requires Wf(s) && Enabled(s, e) && IsSideStep(e)
    ensures GivesNoAgent(s, SideStep(s, e))
  {
  }

  /** No step gives an agent to a state that is there already. */
  lemma AgentsStayAway(s: Sys, e: Event)
    requires Wf(s) && Enabled(s, e)
    ensures GivesNoAgent(s, Step(s, e))
  {
    hide GivesNoAgent, HandlerStep, TurnStep, TeardownStep, SideStep;
    if e.Acquire? { AcquireGivesNone(s, e.t, e.started, e.mismatch); }
    else if IsHandlerStep(e) { HandlerGivesNone(s, e); }
    else if IsTurnStep(e) { TurnGivesNone(s, e); }
    else if IsTeardownStep(e) { TeardownGivesNone(s, e); }
    else { SideGivesNone(s, e); }
  }

  lemma AcquireGivesNone(s: Sys, t: nat, started: bool, mismatch: bool)
    requires Wf(s) && Enabled(s, Acquire(t, started, mismatch))
    ensures GivesNoAgent(s, Step(s, Acquire(t, started, mismatch)))
  {
  }

  lemma ShutDownStep(s: Sys, e: Event)
    requires Wf(s) && Enabled(s, e) && ShutDownInv(s)
    ensures ShutDownInv(Step(s, e))
  {
    StepMoves(s, e);
    hide LockMovesWithActor;
    var r, actor := Step(s, e), Actor(s, e);
    ActorShutDown(s, e);
    forall t | 0 <= t < |r.threads| && ShutDown(r.threads[t]).Some?
      ensures ShutDown(r.threads[t]).value < |r.states| && r.states[ShutDown(r.threads[t]).value].agent.None?
    {
      hide Step;
      if t != actor { AgentsStayAway(s, e); }
    }
  }

  lemma CleanupShutsDown(s: Sys, expected: Option<nat>)
    requires Wf(s) && Enabled(s, Cleanup(expected))
    ensures var r, t := Step(s, Cleanup(expected)), |s.threads|;
            t < |r.threads| && (s.mapped.Some? ==> r.states[s.mapped.value].agent.None?) &&
            |r.states| == |s.states| && ShutDown(r.threads[t]) == s.mapped
  {
    hide HandlerStep, TurnStep, SideStep;
  }

  lemma TeardownKeepsShutDown(s: Sys, e: Event)
    requires Wf(s) && Enabled(s, e) && IsTeardownStep(e) && !e.Cleanup?
    ensures var r, t := Step(s, e), Actor(s, e);
            && t < |r.threads| && GivesNoAgent(s, r)
            && (ShutDown(r.threads[t]).Some? ==> t < |s.threads| && ShutDown(r.threads[t]) == ShutDown(s.threads[t]))
  {
    hide HandlerStep, TurnStep, SideStep;
    AgentsStayAway(s, e);
  }

  lemma ActorShutDown(s: Sys, e: Event)
    requires Wf(s) && Enabled(s, e) && ShutDownInv(s)
    ensures var r, t := Step(s, e), Actor(s, e);
            t < |r.threads| && ShutDown(r.threads[t]).Some? ==>
              ShutDown(r.threads[t]).value < |r.states| && r.states[ShutDown(r.threads[t]).value].agent.None?
  {
    hide Step;
    if e.Cleanup? { CleanupShutsDown(s, e.expected); }
    else if IsTeardownStep(e) { TeardownKeepsShutDown(s, e); }
    else { NoNewCleanup(s, e); }
  }

  lemma {:induction false} ShutDownAlways(r: Run, s: Sys, rules: Rules)
    requires Ends(r, s, rules)
    ensures Wf(s) && ShutDownInv(s)
  {
    hide Step, Enabled, Allowed;
    RunsAreWellFormed(r, s, rules);
    if r.Then? {
      var before := LastStep(r, s, rules);
      ShutDownAlways(r.prev, before, rules);
      ShutDownStep(before, r.e);
    }
  }

  /** In every reachable state without a leak, a step leaks an agent session exactly when it is such a last step. */
  lemma LeakStep(r: Run, s: Sys, rules: Rules, e: Event)
    requires Ends(r, s, rules) && Wf(s) && NoLeak(s) && Enabled(s, e)
    ensures NoLeak(Step(s, e)) <==> !Leaks(s, e)
  {
    hide Ends;
    AgentInvAlways(r, s, rules);
    ShutDownAlways(r, s, rules);
    CleanupInvAlways(r, s, rules);
    if e.Unmap? { UnmapLeaks(s, e.t); } else { OthersDoNotLeak(s, e); }
  }

  lemma UnmapLeaks(s: Sys, t: nat)
    requires Wf(s) && Enabled(s, Unmap(t)) && AgentInv(s) && ShutDownInv(s) && CleanupInv(s) && NoLeak(s)
    ensures NoLeak(Step(s, Unmap(t))) <==> !Leaks(s, Unmap(t))
  {
    var r := Step(s, Unmap(t));
    UnmapIs(s, t);
    if Leaks(s, Unmap(t)) {
      LeakedIsAlive(s, t);
    } else {
      hide Step, TeardownStep;
      forall a: nat | a < |r.agents| && r.agents[a].alive
        ensures MappedAgent(r) == Some(a) || exists u: nat :: ClaimedBy(r, u, a)
      {
        if u: nat :| ClaimedBy(s, u, a) { ClaimStep(s, Unmap(t), u, a); }
      }
    }
  }

  lemma LeakedIsAlive(s: Sys, t: nat)
    requires Wf(s) && Enabled(s, Unmap(t)) && AgentInv(s) && ShutDownInv(s) && CleanupInv(s) && Leaks(s, Unmap(t))
    ensures !NoLeak(Step(s, Unmap(t)))
  {
    var r, a := Step(s, Unmap(t)), MappedAgent(s).value;
    UnmapIs(s, t);
    forall u: nat ensures !ClaimedBy(r, u, a) {
      assert ClaimedBy(r, u, a) ==> ClaimedBy(s, u, a);
    }
    assert r.agents[a].alive && MappedAgent(r).None?;
  }

  lemma UnmapIs(s: Sys, t: nat)
    requires Wf(s) && Enabled(s, Unmap(t)) && AgentInv(s) && ShutDownInv(s) && CleanupInv(s)
    ensures var r := Step(s, Unmap(t));
            && r.agents == s.agents && |r.threads| == |s.threads| && Claim(r.threads[t]).None?
            && (forall u :: 0 <= u < |s.threads| && u != t ==> r.threads[u] == s.threads[u])
            && (Leaks(s, Unmap(t)) ==> MappedAgent(r).None?)
            && (!Leaks(s, Unmap(t)) && MappedAgent(s).Some? && s.agents[MappedAgent(s).value].alive ==>
                  MappedAgent(r) == MappedAgent(s))
  {
    hide HandlerStep, TurnStep, SideStep;
    assert Expected(s.threads[t]).Some? ==> ShutDown(s.threads[t]) == Expected(s.threads[t]);
  }

  lemma OthersDoNotLeak(s: Sys, e: Event)
    requires Wf(s) && Enabled(s, e) && !e.Unmap? && AgentInv(s) && NoLeak(s)
    ensures NoLeak(Step(s, e))
  {
    hide Step;
    var r := Step(s, e);
    AgentsMove(s, e);
    forall a: nat | a < |r.agents| && r.agents[a].alive
      ensures MappedAgent(r) == Some(a) || exists t: nat :: ClaimedBy(r, t, a)
    {
      if a < |s.agents| {
        if t: nat :| ClaimedBy(s, t, a) { ClaimStep(s, e, t, a); } else { MappedMoves(s, e); }
      }
    }
  }

  /** No agent session comes to life again, and a new one is the mapped one. */
  lemma AgentsMove(s: Sys, e: Event)
    requires Wf(s) && Enabled(s, e)
    ensures var r := Step(s, e);
            && |s.agents| <= |r.agents| <= |s.agents| + 1
            && (forall a :: 0 <= a < |s.agents| && r.agents[a].alive ==> s.agents[a].alive)
            && (|r.agents| > |s.agents| ==> MappedAgent(r) == Some(|s.agents|))
  {
    if e.Acquire? { AcquireMoves(s, e.t, e.started, e.mismatch); }
    else if IsHandlerStep(e) {} else if IsTurnStep(e) {} else if IsTeardownStep(e) {} else {}
  }

  lemma AcquireMoves(s: Sys, t: nat, started: bool, mismatch: bool)
    requires Wf(s) && Enabled(s, Acquire(t, started, mismatch))
    ensures var r := Step(s, Acquire(t, started, mismatch));
            && |s.agents| <= |r.agents| <= |s.agents| + 1
            && (forall a :: 0 <= a < |s.agents| && r.agents[a].alive ==> s.agents[a].alive)
            && (|r.agents| > |s.agents| ==> MappedAgent(r) == Some(|s.agents|))
            && (MappedAgent(s).Some? && r.agents[MappedAgent(s).value].alive ==> MappedAgent(r) == MappedAgent(s))
  {
  }

  /** The mapped agent session stays mapped, is captured, or is no longer alive. */
  lemma MappedMoves(s: Sys, e: Event)
    requires Wf(s) && Enabled(s, e) && !e.Unmap? && MappedAgent(s).Some?
    ensures var r, a := Step(s, e), MappedAgent(s).value;
            MappedAgent(r) == Some(a) || !r.agents[a].alive || exists t: nat :: ClaimedBy(r, t, a)
  {
    if e.Stop? || e.Cleanup? {
      MappedAgentIsCaptured(s, e);
      assert ClaimedBy(Step(s, e), |s.threads|, MappedAgent(s).value);
    } else if e.Acquire? {
      AcquireMoves(s, e.t, e.started, e.mismatch);
    } else if IsTeardownStep(e) {
      TeardownKeepsMapped(s, e);
    } else if e.Die? || e.Placeholder? {
      hide HandlerStep, TurnStep, TeardownStep;
    } else {
      hide HandlerStep, TurnStep, TeardownStep, SideStep;
      QuietStep(s, e);
      if IsHandlerStep(e) {} else if IsTurnStep(e) {} else {}
    }
  }

  lemma TeardownKeepsMapped(s: Sys, e: Event)
    requires Wf(s) && Enabled(s, e) && (e.StopNotify? || e.CleanupNotify? || e.Close?) && MappedAgent(s).Some?
    ensures MappedAgent(Step(s, e)) == MappedAgent(s)
  {
    hide HandlerStep, TurnStep, SideStep;
  }

  /** No step of the run leaks where it is taken. */
  ghost predicate LeaksNowhere(r: Run, rules: Rules) {
    r.Start? ||
    (LeaksNowhere(r.prev, rules) &&
     forall s :: Ends(r.prev, s, rules) && Wf(s) && Enabled(s, r.e) ==> !Leaks(s, r.e))
  }

  /** In every run without such a last step of a cleanup, every live agent session is mapped or about to be closed. */
  lemma {:induction false} NothingLeaks(r: Run, s: Sys, rules: Rules)
    requires Ends(r, s, rules) && LeaksNowhere(r, rules)
    ensures Wf(s) && NoLeak(s)
  {
    hide Step, Enabled, Allowed, Leaks;
    RunsAreWellFormed(r, s, rules);
    if r.Then? {
      var before := LastStep(r, s, rules);
      NothingLeaks(r.prev, before, rules);
      LeakStep(r.prev, before, rules, r.e);
    }
  }

  /** A run gets there: a cleanup without expected state leaks the agent session of the turn that runs meanwhile. */
  lemma LeakIsReached()
    ensures exists s: Sys, t: nat :: Wf(s) && Reaches(s, Teardown) && Enabled(s, Unmap(t)) && !NoLeak(Step(s, Unmap(t)))
  {
    hide Step, Enabled;
    UnconditionalCleanupRemovesReplacement();
    var s, t :| Reaches(s, Teardown) && RemovesRunningState(s, t);
    var r :| Ends(r, s, Teardown);
    AgentInvAlways(r, s, Teardown);
    ShutDownAlways(r, s, Teardown);
    CleanupInvAlways(r, s, Teardown);
    LeakedIsAlive(s, t);
  }
}
