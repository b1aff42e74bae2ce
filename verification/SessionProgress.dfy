/** What single steps of the queue protocol do: who can move, and which messages a step settles (core/engine.go). */
module SessionProgress {
  import opened Wrappers
  import opened SessionQueue
  import opened SessionRuns

  /** No goroutine is ever stuck: as long as it has not finished, it has a step to take, whatever the others do. */
  lemma EveryGoroutineCanMove(s: Sys, t: nat)
    requires Wf(s) && t < |s.threads| && !s.threads[t].Done?
    ensures exists e: Event :: Enabled(s, e) && Actor(s, e) == t
  {
    hide Wf;
    var e := match s.threads[t]
      case Queueing => Lookup(t)
      case Appending(_) => Append(t)
      case Appended => Retry(t)
      case Locked => Ensure(t)
      case Starting => Acquire(t, true, false)
      case Prepared(_) => Begin(t)
      case Running(_) => Result(t)
      case Draining(_) => Drain(t)
      case Popped(_, _) => Dispatch(t)
      case Dropping(_) => DropAll(t)
      case Releasing => Release(t)
      case Orphan => OrphanLookup(t)
      case CompressTry(_) => CompressLock(t)
      case Compressing(_) => CompressEnd(t, DrainQueue)
      case StopDrop(_, _) => StopNotify(t)
      case Closing(_) => Close(t)
      case CleanupDrop(_, _, _) => CleanupNotify(t)
      case CleanupClose(_, _, _) => Close(t)
      case _ => Unmap(t);
    assert Enabled(s, e) && Actor(s, e) == t;
  }

  /** In the loop of turns: the event loop, the drain loop, and between them. */
  predicate InTurns(pc: Pc) {
    pc.Running? || pc.Draining? || pc.Popped?
  }

  /** How many steps a goroutine has at most before it, the loop of turns counting as one stage. */
  function StepsLeft(pc: Pc): nat {
    match pc
    case Done => 0
    case Releasing => 1
    case Closing(_) => 1
    case CleanupDelete(_, _) => 1
    case Dropping(_) => 2
    case StopDrop(_, _) => 2
    case CleanupClose(_, _, _) => 2
    case CleanupDrop(_, _, _) => 3
    case Running(_) => 3
    case Draining(_) => 3
    case Popped(_, _) => 3
    case Prepared(_) => 4
    case Orphan => 4
    case Compressing(_) => 4
    case Starting => 5
    case Appended => 5
    case CompressTry(_) => 5
    case Locked => 6
    case Appending(_) => 6
    case Queueing => 7
  }

  /** The goroutine that takes the step is a stage further, or still in the loop of turns; only a lookup finds it a state. */
  ghost predicate LeadsOn(s: Sys, r: Sys, e: Event) {
    var t := Actor(s, e);
    && |s.threads| <= |r.threads|
    && (t < |s.threads| ==>
          StepsLeft(r.threads[t]) < StepsLeft(s.threads[t]) || (InTurns(s.threads[t]) && InTurns(r.threads[t])))
    && (t < |r.threads| && r.threads[t].Appending? ==> e.Lookup?)
  }

  lemma AcquireLeadsOn(s: Sys, t: nat, started: bool, mismatch: bool)
    requires Wf(s) && Enabled(s, Acquire(t, started, mismatch))
    ensures LeadsOn(s, Acquired(s, t, started, mismatch), Acquire(t, started, mismatch))
  {
    AcquiredMoves(s, t, started, mismatch);
    AcquiredIsPrepared(s, t, started, mismatch);
  }

  lemma AcquiredIsPrepared(s: Sys, t: nat, started: bool, mismatch: bool)
    requires Wf(s) && t < |s.threads|
    ensures var r := Acquired(s, t, started, mismatch); |r.threads| == |s.threads| && r.threads[t].Prepared?
  {
  }

  lemma HandlerLeadsOn(s: Sys, e: Event)
    requires Wf(s) && Enabled(s, e) && IsHandlerStep(e) && !e.Acquire?
    ensures LeadsOn(s, HandlerStep(s, e), e)
  {
  }

  lemma TurnLeadsOn(s: Sys, e: Event)
    requires Wf(s) && Enabled(s, e) && IsTurnStep(e)
    ensures LeadsOn(s, TurnStep(s, e), e)
  {
  }

  lemma SideLeadsOn(s: Sys, e: Event)
    requires Wf(s) && Enabled(s, e) && IsSideStep(e)
    ensures LeadsOn(s, SideStep(s, e), e)
  {
  }

  lemma StopLeadsOn(s: Sys, e: Event)
    requires Wf(s) && Enabled(s, e) && (e.Stop? || e.StopNotify? || e.Close?)
    ensures LeadsOn(s, TeardownStep(s, e), e)
  {
  }

  lemma CleanupLeadsOn(s: Sys, e: Event)
    requires Wf(s) && Enabled(s, e) && (e.Cleanup? || e.CleanupNotify? || e.Unmap?)
    ensures LeadsOn(s, TeardownStep(s, e), e)
  {
  }

  /**
   Every step leads its goroutine on: outside the loop of turns a goroutine finishes after at most 7 steps of its own,
   whatever comes between them.
   */
  lemma StepLeadsOn(s: Sys, e: Event)
    requires Wf(s) && Enabled(s, e)
    ensures LeadsOn(s, Step(s, e), e)
    ensures forall pc: Pc :: StepsLeft(pc) <= 7 && (StepsLeft(pc) == 0 <==> pc.Done?)
  {
    hide LeadsOn, HandlerStep, TurnStep, TeardownStep, SideStep;
    if e.Acquire? { AcquireLeadsOn(s, e.t, e.started, e.mismatch); AcquireIs(s, e.t, e.started, e.mismatch); }
    else if IsHandlerStep(e) { HandlerLeadsOn(s, e); }
    else if IsTurnStep(e) { TurnLeadsOn(s, e); }
    else if e.Stop? || e.StopNotify? || e.Close? { StopLeadsOn(s, e); }
    else if IsTeardownStep(e) { CleanupLeadsOn(s, e); }
    else { SideLeadsOn(s, e); }
  }

  lemma AcquireIs(s: Sys, t: nat, started: bool, mismatch: bool)
    requires Wf(s) && Enabled(s, Acquire(t, started, mismatch))
    ensures Step(s, Acquire(t, started, mismatch)) == Acquired(s, t, started, mismatch)
  {
    hide Acquired;
  }

  // ----- Which state a message is queued on -----

  /** The mapped state can take messages: its agent is starting or alive. */
  predicate TakesMessages(s: Sys, sid: nat)
    requires Wf(s)
  {
    s.mapped == Some(sid) && (s.states[sid].agent.None? || AgentAlive(s, sid))
  }

  /** A handler gets a state to queue its message on only from a lookup that found it mapped, with its agent starting or alive. */
  lemma OnlyLiveStatesAreQueuedOn(s: Sys, e: Event, t: nat, sid: nat)
    requires Wf(s) && Enabled(s, e) && t < |Step(s, e).threads|
    ensures Step(s, e).threads[t] == Appending(sid) && !(t < |s.threads| && s.threads[t] == Appending(sid)) <==>
            e == Lookup(t) && TakesMessages(s, sid)
  {
    if e.Lookup? {
      LookupFinds(s, e.t, t, sid);
    } else {
      hide Step;
      StepMoves(s, e);
      StepLeadsOn(s, e);
    }
  }

  lemma LookupFinds(s: Sys, t: nat, u: nat, sid: nat)
    requires Wf(s) && Enabled(s, Lookup(t)) && u < |Step(s, Lookup(t)).threads|
    ensures Step(s, Lookup(t)).threads[u] == Appending(sid) && !(u < |s.threads| && s.threads[u] == Appending(sid)) <==>
            t == u && TakesMessages(s, sid)
  {
    hide TurnStep, TeardownStep, SideStep;
  }

  /** A message is accepted, behind the ones that are queued, exactly when fewer than 5 are; otherwise nothing is queued. */
  lemma AppendAccepts(s: Sys, t: nat)
    requires Wf(s) && Enabled(s, Append(t))
    ensures var r, sid := Step(s, Append(t)), s.threads[t].sid;
            if |s.states[sid].pending| < 5 then
              && r.accepted == s.accepted + 1 && r.threads[t] == Appended
              && r.states == s.states[sid := s.states[sid].(pending := s.states[sid].pending + [s.accepted])]
            else r == s.(threads := s.threads[t := Done])
  {
    hide TurnStep, TeardownStep, SideStep;
  }

  // ----- What a step settles -----

  /** All messages queued on `sid` are reported as dropped, in order, and the queue is empty. */
  ghost predicate ReportsQueue(s: Sys, r: Sys, sid: nat) {
    && sid < |s.states| && sid < |r.states| && r.states[sid].pending == []
    && |r.log| == |s.log| + |s.states[sid].pending|
    && (forall i :: 0 <= i < |s.log| ==> r.log[i] == s.log[i])
    && (forall i :: 0 <= i < |s.states[sid].pending| ==> r.log[|s.log| + i] == Dropped(s.states[sid].pending[i]))
  }

  predicate ReportsAll(e: Event) {
    e.FailTurn? || e.DropAll? || e.StopNotify? || e.CleanupNotify?
  }

  /**
   What each step adds to the log: a failed turn, an early return, /stop and a cleanup report the whole queue of their
   state; a result dispatches the first message of the queue; the message in hand is dispatched if the agent lives and
   dropped if not; nothing else settles a message.
   */
  lemma StepSettles(s: Sys, e: Event)
    requires Wf(s) && Enabled(s, e)
    ensures var r := Step(s, e);
            if ReportsAll(e) then ReportsQueue(s, r, s.threads[e.t].sid)
            else if e.Result? then
              var queue := s.states[s.threads[e.t].sid].pending;
              r.log == if queue == [] then s.log else s.log + [Dispatched(queue[0])]
            else if e.Dispatch? then
              var pc := s.threads[e.t];
              r.log == s.log + [if AgentAlive(s, pc.sid) then Dispatched(pc.ticket) else Dropped(pc.ticket)]
            else r.log == s.log
  {
    if ReportsAll(e) { ReportingReports(s, e); }
    else if IsTurnStep(e) { TurnSettles(s, e); }
    else { OthersSettleNothing(s, e); }
  }

  lemma ReportingReports(s: Sys, e: Event)
    requires Wf(s) && Enabled(s, e) && ReportsAll(e)
    ensures ReportsQueue(s, Step(s, e), s.threads[e.t].sid)
  {
  }

  lemma TurnSettles(s: Sys, e: Event)
    requires Wf(s) && Enabled(s, e) && IsTurnStep(e) && !ReportsAll(e)
    ensures var r, pc := Step(s, e), s.threads[e.t];
            r.log == s.log + if e.Result? && s.states[pc.sid].pending != [] then [Dispatched(s.states[pc.sid].pending[0])]
                             else if !e.Dispatch? then []
                             else if AgentAlive(s, pc.sid) then [Dispatched(pc.ticket)]
                             else [Dropped(pc.ticket)]
  {
  }

  lemma OthersSettleNothing(s: Sys, e: Event)
    requires Wf(s) && Enabled(s, e) && !IsTurnStep(e) && !ReportsAll(e)
    ensures Step(s, e).log == s.log
  {
    if e.Acquire? {} else if IsHandlerStep(e) {} else if IsTeardownStep(e) {} else {}
  }

  /** Goroutines that take messages off a queue without an agent check of their own. */
  predicate Consumes(s: Sys, t: nat, sid: nat) {
    t < |s.threads| && s.threads[t] in {Running(sid), Draining(sid)}
  }

  /**
   The drain loop after a message in hand, and the orphan drain after its lookup, work on a state with a live agent
   only, and report its messages as dropped only when it is dead.
   */
  lemma WorkStartsAlive(s: Sys, e: Event, t: nat, sid: nat)
    requires Wf(s) && Enabled(s, e) && (e == Dispatch(t) || e == OrphanLookup(t))
    requires t < |s.threads| && sid < |s.states|
    ensures Consumes(Step(s, e), t, sid) ==> AgentAlive(s, sid)
    ensures Step(s, e).threads[t] == Dropping(sid) ==> !AgentAlive(s, sid)
  {
  }

  // ----- Teardowns that nothing comes between -----

  lemma StopStarts(s: Sys, x: nat, a: nat) returns (r: Sys)
    requires Wf(s) && s.mapped == Some(x) && s.states[x].agent == Some(a)
    ensures Enabled(s, Stop) && r == Step(s, Stop) && Wf(r)
    ensures r == s.(mapped := None, states := s.states[x := s.states[x].(stopped := true)],
                    threads := s.threads + [StopDrop(x, Some(a))])
  {
    hide HandlerStep, TurnStep, SideStep;
    r := Step(s, Stop);
  }

  lemma StopTells(s: Sys, t: nat, x: nat, a: nat) returns (r: Sys)
    requires Wf(s) && t < |s.threads| && s.threads[t] == StopDrop(x, Some(a))
    ensures Enabled(s, StopNotify(t)) && r == Step(s, StopNotify(t)) && Wf(r) && ReportsQueue(s, r, x)
    ensures r == s.(states := s.states[x := s.states[x].(pending := [])], threads := s.threads[t := Closing(a)], log := r.log)
  {
    hide HandlerStep, TurnStep, SideStep;
    r := Step(s, StopNotify(t));
  }

  lemma StopCloses(s: Sys, t: nat, a: nat) returns (r: Sys)
    requires Wf(s) && t < |s.threads| && s.threads[t] == Closing(a)
    ensures Enabled(s, Close(t)) && r == Step(s, Close(t)) && Wf(r)
    ensures a < |s.agents|
    ensures r == s.(agents := s.agents[a := AgentSession(false, s.agents[a].closes + 1)], threads := s.threads[t := Done])
  {
    hide HandlerStep, TurnStep, SideStep;
    r := Step(s, Close(t));
  }

  /** /stop, taken in one go: the state leaves the map stopped, its messages are reported, its agent session is closed. */
  lemma StopRunsThrough(s: Sys, x: nat, a: nat) returns (s1: Sys, s2: Sys, s3: Sys)
    requires Wf(s) && s.mapped == Some(x) && s.states[x].agent == Some(a)
    ensures Enabled(s, Stop) && s1 == Step(s, Stop) && Wf(s1)
    ensures Enabled(s1, StopNotify(|s.threads|)) && s2 == Step(s1, StopNotify(|s.threads|)) && Wf(s2)
    ensures Enabled(s2, Close(|s.threads|)) && s3 == Step(s2, Close(|s.threads|))
    ensures a < |s.agents| && ReportsQueue(s, s3, x)
    ensures s3 == s.(mapped := None, states := s.states[x := s.states[x].(stopped := true, pending := [])],
                     agents := s.agents[a := AgentSession(false, s.agents[a].closes + 1)],
                     threads := s.threads + [Done], log := s3.log)
  {
    hide Step, Enabled;
    var t := |s.threads|;
    s1 := StopStarts(s, x, a);
    s2 := StopTells(s1, t, x, a);
    s3 := StopCloses(s2, t, a);
    assert s3.threads == s.threads + [Done];
  }

  lemma CleanupStarts(s: Sys, x: nat, a: nat, expected: Option<nat>) returns (r: Sys)
    requires Wf(s) && s.mapped == Some(x) && s.states[x].agent == Some(a) && (expected == None || expected == Some(x))
    ensures Enabled(s, Cleanup(expected)) && r == Step(s, Cleanup(expected)) && Wf(r)
    ensures r == s.(states := s.states[x := s.states[x].(agent := None)],
                    threads := s.threads + [CleanupDrop(x, Some(a), expected)])
  {
    hide HandlerStep, TurnStep, SideStep;
    r := Step(s, Cleanup(expected));
  }

  lemma CleanupTells(s: Sys, t: nat, x: nat, a: nat, expected: Option<nat>) returns (r: Sys)
    requires Wf(s) && t < |s.threads| && s.threads[t] == CleanupDrop(x, Some(a), expected)
    ensures Enabled(s, CleanupNotify(t)) && r == Step(s, CleanupNotify(t)) && Wf(r) && ReportsQueue(s, r, x)
    ensures r == s.(states := s.states[x := s.states[x].(stopped := true, pending := [])],
                    threads := s.threads[t := CleanupClose(a, Some(x), expected)], log := r.log)
  {
    hide HandlerStep, TurnStep, SideStep;
    r := Step(s, CleanupNotify(t));
  }

  lemma CleanupCloses(s: Sys, t: nat, x: nat, a: nat, expected: Option<nat>) returns (r: Sys)
    requires Wf(s) && t < |s.threads| && s.threads[t] == CleanupClose(a, Some(x), expected)
    ensures Enabled(s, Close(t)) && r == Step(s, Close(t)) && Wf(r) && a < |s.agents|
    ensures r == s.(agents := s.agents[a := AgentSession(false, s.agents[a].closes + 1)],
                    threads := s.threads[t := CleanupDelete(Some(x), expected)])
  {
    hide HandlerStep, TurnStep, SideStep;
    r := Step(s, Close(t));
  }

  lemma CleanupUnmaps(s: Sys, t: nat, x: nat, expected: Option<nat>) returns (r: Sys)
    requires Wf(s) && t < |s.threads| && s.threads[t] == CleanupDelete(Some(x), expected)
    requires s.mapped == Some(x) && (expected == None || expected == Some(x))
    ensures Enabled(s, Unmap(t)) && r == Step(s, Unmap(t)) && r == s.(mapped := None, threads := s.threads[t := Done])
  {
    hide HandlerStep, TurnStep, SideStep;
    r := Step(s, Unmap(t));
  }

  /** A cleanup taken in one go, with or without expected state, does the same and forgets the agent of the state. */
  lemma CleanupRunsThrough(s: Sys, x: nat, a: nat, expected: Option<nat>) returns (s1: Sys, s2: Sys, s3: Sys, s4: Sys)
    requires Wf(s) && s.mapped == Some(x) && s.states[x].agent == Some(a) && (expected == None || expected == Some(x))
    ensures Enabled(s, Cleanup(expected)) && s1 == Step(s, Cleanup(expected)) && Wf(s1)
    ensures Enabled(s1, CleanupNotify(|s.threads|)) && s2 == Step(s1, CleanupNotify(|s.threads|)) && Wf(s2)
    ensures Enabled(s2, Close(|s.threads|)) && s3 == Step(s2, Close(|s.threads|)) && Wf(s3)
    ensures Enabled(s3, Unmap(|s.threads|)) && s4 == Step(s3, Unmap(|s.threads|))
    ensures a < |s.agents| && ReportsQueue(s, s4, x)
    ensures s4 == s.(mapped := None, states := s.states[x := InteractiveState(None, [], true)],
                     agents := s.agents[a := AgentSession(false, s.agents[a].closes + 1)],
                     threads := s.threads + [Done], log := s4.log)
  {
    hide Step, Enabled;
    var t := |s.threads|;
    s1 := CleanupStarts(s, x, a, expected);
    s2 := CleanupTells(s1, t, x, a, expected);
    s3 := CleanupCloses(s2, t, x, a, expected);
    s4 := CleanupUnmaps(s3, t, x, expected);
    assert s4.threads == s.threads + [Done];
  }
}
