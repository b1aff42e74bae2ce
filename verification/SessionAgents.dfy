/** Agent sessions under /stop, cleanup, recycling and replacement (core/engine.go). */
module SessionAgents {
  import opened Wrappers
  import opened SessionQueue
  import opened SessionRuns

  /** The agent session that a goroutine has captured and is going to close. */
  function Claim(pc: Pc): Option<nat> {
    if pc.StopDrop? || pc.CleanupDrop? then pc.captured
    else if pc.Closing? || pc.CleanupClose? then Some(pc.agent)
    else None
  }

  function MappedAgent(s: Sys): Option<nat>
    requires Wf(s)
  {
    if s.mapped.Some? then s.states[s.mapped.value].agent else None
  }

  /** An agent session is reachable through the map, claimed by one goroutine, or closed: never two of these. */
  ghost predicate AgentInv(s: Sys)
    requires Wf(s)
  {
    && (forall a :: 0 <= a < |s.agents| ==> s.agents[a].closes <= 1)
    && (MappedAgent(s).Some? ==> s.agents[MappedAgent(s).value].closes == 0)
    && (forall t :: 0 <= t < |s.threads| && Claim(s.threads[t]).Some? ==>
          s.agents[Claim(s.threads[t]).value].closes == 0 && MappedAgent(s) != Claim(s.threads[t]))
    && (forall t, u | 0 <= t < u < |s.threads| :: Claim(s.threads[t]).None? || Claim(s.threads[t]) != Claim(s.threads[u]))
  }

  /** A step whose actor claims nothing afterwards and that leaves the agents and the mapped agent alone. */
  ghost predicate Quiet(s: Sys, r: Sys, t: nat)
    requires Wf(s) && Wf(r)
  {
    && r.agents == s.agents
    && (MappedAgent(r) == MappedAgent(s) || MappedAgent(r).None?)
    && (t < |r.threads| ==> Claim(r.threads[t]).None?)
  }

  lemma QuietAgents(s: Sys, r: Sys, t: nat)
    requires Wf(s) && Wf(r) && AgentInv(s) && OnlyActorMoves(s, r, t) && Quiet(s, r, t)
    ensures AgentInv(r)
  {
    forall i | 0 <= i < |r.threads| && Claim(r.threads[i]).Some?
      ensures i != t && i < |s.threads| && r.threads[i] == s.threads[i]
    {
    }
  }

  lemma HandlerQuiet(s: Sys, e: Event)
    requires Wf(s) && Enabled(s, e) && IsHandlerStep(e) && !e.Acquire?
    ensures Quiet(s, HandlerStep(s, e), Actor(s, e))
  {
  }

  lemma LoopQuiet(s: Sys, e: Event)
    requires Wf(s) && Enabled(s, e) && (e.Result? || e.FailTurn? || e.EndTurn? || e.OrphanLookup?)
    ensures Quiet(s, TurnStep(s, e), e.t)
  {
  }

  lemma DrainQuiet(s: Sys, e: Event)
    requires Wf(s) && Enabled(s, e) && (e.Drain? || e.Dispatch? || e.DropAll? || e.Release?)
    ensures Quiet(s, TurnStep(s, e), e.t)
  {
  }

  lemma CompressQuiet(s: Sys, e: Event)
    requires Wf(s) && Enabled(s, e) && IsSideStep(e) && !e.Die? && !e.Placeholder?
    ensures Quiet(s, SideStep(s, e), Actor(s, e))
  {
  }

  lemma ReplaceAgents(s: Sys, t: nat, started: bool)
    requires Wf(s) && t < |s.threads| && Claim(s.threads[t]).None? && AgentInv(s)
    ensures AgentInv(Replace(s, t, started))
  {
  }

  lemma RecycleAgents(s: Sys)
    requires Wf(s) && AgentInv(s) && s.mapped.Some? && AgentAlive(s, s.mapped.value)
    ensures AgentInv(Recycle(s))
  {
  }

  lemma AcquireAgents(s: Sys, t: nat, started: bool, mismatch: bool)
    requires Wf(s) && Enabled(s, Acquire(t, started, mismatch)) && AgentInv(s)
    ensures AgentInv(Acquired(s, t, started, mismatch))
  {
    if s.mapped.Some? && AgentAlive(s, s.mapped.value) {
      if mismatch {
        RecycleAgents(s);
        ReplaceAgents(Recycle(s), t, started);
      }
    } else {
      ReplaceAgents(s, t, started);
    }
  }

  lemma SideAgents(s: Sys, e: Event)
    requires Wf(s) && Enabled(s, e) && (e.Die? || e.Placeholder?) && AgentInv(s)
    ensures AgentInv(SideStep(s, e))
  {
  }

  lemma StopAgents(s: Sys, e: Event)
    requires Wf(s) && Enabled(s, e) && (e.Stop? || e.StopNotify?) && AgentInv(s)
    ensures AgentInv(TeardownStep(s, e))
  {
    hide HandlerStep, TurnStep, SideStep;
  }

  lemma CleanupAgents(s: Sys, expected: Option<nat>)
    requires Wf(s) && Enabled(s, Cleanup(expected)) && AgentInv(s)
    ensures AgentInv(TeardownStep(s, Cleanup(expected)))
  {
  }

  lemma CleanupNotifyAgents(s: Sys, t: nat)
    requires Wf(s) && Enabled(s, CleanupNotify(t)) && AgentInv(s)
    ensures AgentInv(TeardownStep(s, CleanupNotify(t)))
  {
    var r := CleanupTell(s, t);
    assert r.agents == s.agents && MappedAgent(r) == MappedAgent(s);
    assert Claim(r.threads[t]) == Claim(s.threads[t]);
    assert forall u :: 0 <= u < |s.threads| && u != t ==> r.threads[u] == s.threads[u];
    assert AgentInv(r);
  }

  lemma CloseAgents(s: Sys, t: nat)
    requires Wf(s) && Enabled(s, Close(t)) && AgentInv(s)
    ensures AgentInv(TeardownStep(s, Close(t)))
  {
    hide HandlerStep, TurnStep, SideStep;
    var r := TeardownStep(s, Close(t));
    assert Claim(r.threads[t]).None?;
    assert forall u :: 0 <= u < |s.threads| && u != t ==> r.threads[u] == s.threads[u];
  }

  lemma UnmapAgents(s: Sys, t: nat)
    requires Wf(s) && Enabled(s, Unmap(t)) && AgentInv(s)
    ensures AgentInv(TeardownStep(s, Unmap(t)))
  {
    var r := TeardownStep(s, Unmap(t));
    assert Claim(r.threads[t]).None?;
    QuietAgents(s, r, t);
  }

  lemma StepAgents(s: Sys, e: Event)
    requires Wf(s) && Enabled(s, e) && AgentInv(s)
    ensures AgentInv(Step(s, e))
  {
    if e.Acquire? { AcquireAgents(s, e.t, e.started, e.mismatch); }
    else if e.Stop? || e.StopNotify? { StopAgents(s, e); }
    else if e.Cleanup? { CleanupAgents(s, e.expected); }
    else if e.CleanupNotify? { CleanupNotifyAgents(s, e.t); }
    else if e.Close? { CloseAgents(s, e.t); }
    else if e.Unmap? { UnmapAgents(s, e.t); }
    else if e.Die? || e.Placeholder? { SideAgents(s, e); }
    else {
      QuietStep(s, e);
      StepMoves(s, e);
      QuietAgents(s, Step(s, e), Actor(s, e));
    }
  }

  lemma QuietStep(s: Sys, e: Event)
    requires Wf(s) && Enabled(s, e) && !IsTeardownStep(e) && !e.Acquire? && !e.Die? && !e.Placeholder?
    ensures Quiet(s, Step(s, e), Actor(s, e))
  {
    if IsHandlerStep(e) { HandlerQuiet(s, e); }
    else if e.Drain? || e.Dispatch? || e.DropAll? || e.Release? { DrainQuiet(s, e); }
    else if IsTurnStep(e) { LoopQuiet(s, e); }
    else { CompressQuiet(s, e); }
  }

  lemma {:induction false} AgentInvAlways(r: Run, s: Sys, rules: Rules)
    requires Ends(r, s, rules)
    ensures Wf(s) && AgentInv(s)
  {
    hide Step, Enabled, Allowed, AgentInv;
    RunsAreWellFormed(r, s, rules);
    if r.Then? {
      var before := LastStep(r, s, rules);
      AgentInvAlways(r.prev, before, rules);
      StepAgents(before, r.e);
    } else {
      NoAgentsAtStart();
    }
  }

  lemma NoAgentsAtStart()
    ensures AgentInv(Init)
  {
  }

  /** In every run, whatever the interleaving, no agent session is closed twice. */
  lemma ClosedAtMostOnce(r: Run, s: Sys, rules: Rules, a: nat)
    requires Ends(r, s, rules) && a < |s.agents|
    ensures s.agents[a].closes <= 1
  {
    hide Ends;
    AgentInvAlways(r, s, rules);
  }

  // ----- Every captured agent session gets closed -----

  ghost predicate Closed(s: Sys, a: nat) {
    a < |s.agents| && s.agents[a] == AgentSession(false, 1)
  }

  ghost predicate ClaimedBy(s: Sys, t: nat, a: nat) {
    t < |s.threads| && Claim(s.threads[t]) == Some(a)
  }

  /** Exactly one goroutine is going to close `a`. */
  ghost predicate Claimed(s: Sys, a: nat) {
    && (exists t: nat :: ClaimedBy(s, t, a))
    && (forall t: nat, u: nat :: ClaimedBy(s, t, a) && ClaimedBy(s, u, a) ==> t == u)
  }

  /** /stop and cleanup capture the agent session of the mapped state, if it has one. */
  lemma MappedAgentIsCaptured(s: Sys, e: Event)
    requires Wf(s) && Enabled(s, e) && (e.Stop? || e.Cleanup?)
    ensures var r := Step(s, e);
            |r.threads| == |s.threads| + 1 && Claim(r.threads[|s.threads|]) == MappedAgent(s) && MappedAgent(r).None?
  {
    hide HandlerStep, TurnStep, SideStep;
  }

  /** A goroutine gives up its claim only by closing the agent session, which is not alive afterwards. */
  lemma ClaimEndsInClose(r: Run, s: Sys, rules: Rules, e: Event, t: nat, a: nat)
    requires Ends(r, s, rules) && Wf(s) && Enabled(s, e) && ClaimedBy(s, t, a)
    ensures ClaimedBy(Step(s, e), t, a) || Closed(Step(s, e), a)
  {
    hide Ends;
    AgentInvAlways(r, s, rules);
    ClaimStep(s, e, t, a);
  }

  lemma ClaimStep(s: Sys, e: Event, t: nat, a: nat)
    requires Wf(s) && Enabled(s, e) && AgentInv(s) && ClaimedBy(s, t, a)
    ensures ClaimedBy(Step(s, e), t, a) || Closed(Step(s, e), a)
  {
    StepMoves(s, e);
    hide OnlyActorMoves, LockMovesWithActor;
    if t == Actor(s, e) {
      if e.Close? { CloseCloses(s, t, a); }
      else if e.StopNotify? || e.CleanupNotify? { NotifyKeepsClaim(s, e, a); }
      else { ClaimantsClose(s, e, t); }
    } else {
      OthersKeepClaim(s, e, t, a);
    }
  }

  lemma OthersKeepClaim(s: Sys, e: Event, t: nat, a: nat)
    requires Wf(s) && Enabled(s, e) && OnlyActorMoves(s, Step(s, e), Actor(s, e))
    requires t != Actor(s, e) && ClaimedBy(s, t, a)
    ensures ClaimedBy(Step(s, e), t, a)
  {
    hide Step;
  }

  lemma CloseCloses(s: Sys, t: nat, a: nat)
    requires Wf(s) && Enabled(s, Close(t)) && AgentInv(s) && ClaimedBy(s, t, a)
    ensures Closed(Step(s, Close(t)), a)
  {
    hide HandlerStep, TurnStep, SideStep;
  }

  lemma NotifyKeepsClaim(s: Sys, e: Event, a: nat)
    requires Wf(s) && Enabled(s, e) && (e.StopNotify? || e.CleanupNotify?) && ClaimedBy(s, e.t, a)
    ensures ClaimedBy(Step(s, e), e.t, a)
  {
    hide HandlerStep, TurnStep, SideStep;
  }

  /** A goroutine with a claim takes no other steps. */
  lemma ClaimantsClose(s: Sys, e: Event, t: nat)
    requires Wf(s) && Enabled(s, e) && t < |s.threads| && t == Actor(s, e) && Claim(s.threads[t]).Some?
    ensures e.Close? || e.StopNotify? || e.CleanupNotify?
  {
    hide Step;
  }

  /** Recycling stops the mapped state and closes its live agent session. */
  lemma RecyclingCloses(r: Run, s: Sys, rules: Rules, t: nat, started: bool)
    requires Ends(r, s, rules) && Wf(s) && Enabled(s, Acquire(t, started, true))
    requires s.mapped.Some? && AgentAlive(s, s.mapped.value)
    ensures var r := Step(s, Acquire(t, started, true));
            Closed(r, MappedAgent(s).value) && r.states[s.mapped.value].stopped && r.mapped == Some(|s.states|)
  {
    hide Ends;
    AgentInvAlways(r, s, rules);
  }

  lemma ClosedStays(s: Sys, e: Event, a: nat)
    requires Wf(s) && Enabled(s, e) && AgentInv(s) && Closed(s, a)
    ensures Closed(Step(s, e), a)
  {
    if e.Acquire? { AcquireKeepsClosed(s, e.t, e.started, e.mismatch, a); }
    else if IsTeardownStep(e) { TeardownKeepsClosed(s, e, a); }
    else if e.Die? || e.Placeholder? { hide HandlerStep, TurnStep, TeardownStep; }
    else { hide Step; QuietStep(s, e); }
  }

  lemma AcquireKeepsClosed(s: Sys, t: nat, started: bool, mismatch: bool, a: nat)
    requires Wf(s) && Enabled(s, Acquire(t, started, mismatch)) && AgentInv(s) && Closed(s, a)
    ensures Closed(Step(s, Acquire(t, started, mismatch)), a)
  {
    hide TurnStep, TeardownStep, SideStep;
  }

  lemma TeardownKeepsClosed(s: Sys, e: Event, a: nat)
    requires Wf(s) && Enabled(s, e) && IsTeardownStep(e) && AgentInv(s) && Closed(s, a)
    ensures Closed(Step(s, e), a)
  {
    hide HandlerStep, TurnStep, SideStep;
  }

  lemma ClaimsAreUnique(s: Sys, a: nat)
    requires Wf(s) && AgentInv(s)
    ensures (exists t: nat :: ClaimedBy(s, t, a)) ==> Claimed(s, a)
    ensures Closed(s, a) ==> forall t: nat :: !ClaimedBy(s, t, a)
  {
  }

  /** Run `r` goes on from `early`. */
  ghost predicate GoesOn(early: Run, r: Run) {
    r == early || (r.Then? && GoesOn(early, r.prev))
  }

  lemma {:induction false} RunsEndOnce(r: Run, s: Sys, s': Sys, rules: Rules)
    requires Ends(r, s, rules) && Ends(r, s', rules)
    ensures s == s'
  {
    hide Step, Enabled, Allowed;
    if r.Then? {
      var before := LastStep(r, s, rules);
      var before' := LastStep(r, s', rules);
      RunsEndOnce(r.prev, before, before', rules);
    }
  }

  /**
   Once a stop or a cleanup has captured an agent session, at every later state either exactly one goroutine is going
   to close it, or it was closed exactly once and is not alive.
   */
  lemma {:induction false} CapturedIsClosed(early: Run, s0: Sys, r: Run, s: Sys, rules: Rules, t: nat, a: nat)
    requires Ends(early, s0, rules) && Ends(r, s, rules) && GoesOn(early, r) && ClaimedBy(s0, t, a)
    ensures (Claimed(s, a) && ClaimedBy(s, t, a)) || (Closed(s, a) && forall u: nat :: !ClaimedBy(s, u, a))
  {
    hide Step, Enabled, Allowed, AgentInv, Ends, ClaimedBy, Closed;
    AgentInvAlways(r, s, rules);
    if r == early {
      RunsEndOnce(r, s0, s, rules);
    } else {
      var before := LastStep(r, s, rules);
      AgentInvAlways(r.prev, before, rules);
      CapturedIsClosed(early, s0, r.prev, before, rules, t, a);
      if ClaimedBy(before, t, a) { ClaimStep(before, r.e, t, a); } else { ClosedStays(before, r.e, a); }
    }
    ClaimsAreUnique(s, a);
  }

  /** The state that a cleanup goroutine was told to expect. */
  function Expected(pc: Pc): Option<nat> {
    if pc.CleanupDrop? || pc.CleanupClose? || pc.CleanupDelete? then pc.expected else None
  }

  /** The state that a cleanup goroutine shuts down. */
  function ShutDown(pc: Pc): Option<nat> {
    if pc.CleanupDrop? then Some(pc.sid) else if pc.CleanupClose? || pc.CleanupDelete? then pc.closed else None
  }

  /** A cleanup with an expected state works on that state only, from its first step to its last. */
  ghost predicate CleanupInv(s: Sys) {
    forall t :: 0 <= t < |s.threads| && Expected(s.threads[t]).Some? ==> ShutDown(s.threads[t]) == Expected(s.threads[t])
  }

  lemma {:induction false} CleanupInvAlways(r: Run, s: Sys, rules: Rules)
    requires Ends(r, s, rules)
    ensures Wf(s) && CleanupInv(s)
  {
    hide Step, Enabled, Allowed;
    RunsAreWellFormed(r, s, rules);
    if r.Then? {
      var before := LastStep(r, s, rules);
      CleanupInvAlways(r.prev, before, rules);
      StepMoves(before, r.e);
      CleanupInvStep(before, r.e);
    }
  }

  lemma CleanupInvStep(s: Sys, e: Event)
    requires Wf(s) && Enabled(s, e) && CleanupInv(s) && OnlyActorMoves(s, Step(s, e), Actor(s, e))
    ensures CleanupInv(Step(s, e))
  {
    hide HandlerStep, TurnStep, SideStep;
    var r, t := Step(s, e), Actor(s, e);
    if e.Cleanup? {
      assert ShutDown(r.threads[t]) == s.mapped && Expected(r.threads[t]) == e.expected;
    } else if IsTeardownStep(e) {
      assert Expected(r.threads[t]).None? ||
             (Expected(r.threads[t]) == Expected(s.threads[t]) && ShutDown(r.threads[t]) == ShutDown(s.threads[t]));
    } else {
      NoNewCleanup(s, e);
    }
  }

  lemma NoNewCleanup(s: Sys, e: Event)
    requires Wf(s) && Enabled(s, e) && !IsTeardownStep(e)
    ensures var r, t := Step(s, e), Actor(s, e);
            t < |r.threads| ==> Expected(r.threads[t]).None? && ShutDown(r.threads[t]).None?
  {
    hide HandlerStep, TurnStep, SideStep;
    if e.Acquire? { AcquirePc(s, e.t, e.started, e.mismatch); }
    else if IsHandlerStep(e) { HandlerPc(s, e); }
    else if IsTurnStep(e) { TurnPc(s, e); }
    else { SidePc(s, e); }
  }

  lemma AcquirePc(s: Sys, t: nat, started: bool, mismatch: bool)
    requires Wf(s) && Enabled(s, Acquire(t, started, mismatch))
    ensures var r := HandlerStep(s, Acquire(t, started, mismatch));
            t < |r.threads| && Expected(r.threads[t]).None? && ShutDown(r.threads[t]).None?
  {
  }

  lemma HandlerPc(s: Sys, e: Event)
    requires Wf(s) && Enabled(s, e) && IsHandlerStep(e) && !e.Acquire?
    ensures var r, t := HandlerStep(s, e), Actor(s, e);
            t < |r.threads| && Expected(r.threads[t]).None? && ShutDown(r.threads[t]).None?
  {
  }

  lemma SidePc(s: Sys, e: Event)
    requires Wf(s) && Enabled(s, e) && IsSideStep(e)
    ensures var r, t := SideStep(s, e), Actor(s, e);
            t < |r.threads| ==> Expected(r.threads[t]).None? && ShutDown(r.threads[t]).None?
  {
  }

  lemma TurnPc(s: Sys, e: Event)
    requires Wf(s) && Enabled(s, e) && IsTurnStep(e)
    ensures var r, t := TurnStep(s, e), e.t;
            t < |r.threads| && Expected(r.threads[t]).None? && ShutDown(r.threads[t]).None?
  {
  }

  /**
   Steps of a cleanup goroutine told to expect state `x` leave every other state, every other
   state's agent session and every map entry other than `x` alone.
   */
  lemma ExpectedCleanupSparesOthers(r: Run, s: Sys, rules: Rules, e: Event, x: nat)
    requires Ends(r, s, rules) && Wf(s) && Enabled(s, e)
    requires e == Cleanup(Some(x)) ||
             ((e.CleanupNotify? || e.Close? || e.Unmap?) && Expected(s.threads[e.t]) == Some(x))
    ensures var s' := Step(s, e);
            && |s'.states| == |s.states|
            && (forall y :: 0 <= y < |s.states| && y != x ==> s'.states[y] == s.states[y])
            && (s'.mapped == s.mapped || (s.mapped == Some(x) && s'.mapped == None))
  {
    hide Ends, HandlerStep, TurnStep, SideStep;
    CleanupInvAlways(r, s, rules);
  }

  /**
   The last step of a cleanup removes a state other than the one it shut down exactly when it was given no expected
   state and the map entry has changed meanwhile.
   */
  lemma CleanupRemovesAnotherState(r: Run, s: Sys, rules: Rules, t: nat)
    requires Ends(r, s, rules) && Wf(s) && Enabled(s, Unmap(t))
    ensures var pc := s.threads[t];
            s.mapped.Some? && s.mapped != ShutDown(pc) && Step(s, Unmap(t)).mapped != s.mapped <==>
            pc.expected.None? && s.mapped.Some? && s.mapped != ShutDown(pc)
  {
    hide Ends, HandlerStep, TurnStep, SideStep;
    CleanupInvAlways(r, s, rules);
    assert Expected(s.threads[t]).Some? ==> ShutDown(s.threads[t]) == Expected(s.threads[t]);
  }
}
