/**
 Messages are dispatched in the order in which they were accepted (core/engine.go), in every run in which no step meets
 one of two guards; an append and a /compress lock that find the state of their lookup still mapped never do.  Agents
 may die, fail to start and be recycled, and sessions may be stopped and cleaned up at any time.
 */
module SessionOrder {
  import opened Wrappers
  import opened SessionQueue
  import opened SessionRuns

  /** Some lock holder works on state `j` or on an older one. */
  ghost predicate HeldUpTo(s: Sys, j: nat) {
    exists t: nat :: t < |s.threads| && Holds(s.threads[t]) && HasSid(s.threads[t]) && s.threads[t].sid <= j
  }

  /** Messages of state `j` may still be dispatched in turn. */
  ghost predicate Due(s: Sys, j: nat) {
    s.mapped == Some(j) || HeldUpTo(s, j)
  }

  predicate MappedIsLast(s: Sys) {
    s.mapped.Some? ==> s.mapped.value == |s.states| - 1
  }

  /** All queues, one after the other, are strictly increasing and hold accepted messages. */
  ghost predicate QueuesRise(states: seq<InteractiveState>, accepted: nat) {
    && (forall i, p :: 0 <= i < |states| && 0 <= p < |states[i].pending| ==> states[i].pending[p] < accepted)
    && (forall i, p, q :: 0 <= i < |states| && 0 <= p < q < |states[i].pending| ==>
          states[i].pending[p] < states[i].pending[q])
    && (forall i, j, p, q :: 0 <= i < j < |states| && 0 <= p < |states[i].pending| && 0 <= q < |states[j].pending| ==>
          states[i].pending[p] < states[j].pending[q])
  }

  ghost predicate LogRises(log: seq<Fate>) {
    forall i, j :: 0 <= i < j < |log| && log[i].Dispatched? && log[j].Dispatched? ==> log[i].ticket < log[j].ticket
  }

  ghost predicate QueueAbove(queue: seq<Ticket>, k: Ticket) {
    forall p :: 0 <= p < |queue| ==> k < queue[p]
  }

  ghost predicate OrderInv(s: Sys)
    requires Wf(s)
  {
    && MappedIsLast(s) && QueuesRise(s.states, s.accepted)
    && LogRises(s.log) && LogBelow(s.log, s.accepted)
    && (forall j: nat, p :: j < |s.states| && Due(s, j) && 0 <= p < |s.states[j].pending| ==>
          LogBelow(s.log, s.states[j].pending[p]))
    && (forall t :: 0 <= t < |s.threads| && s.threads[t].Popped? ==> HandInOrder(s, s.threads[t]))
  }

  /** The message in hand comes after all dispatched ones and before all that are queued from its state on. */
  ghost predicate HandInOrder(s: Sys, pc: Pc)
    requires Wf(s) && pc.Popped?
  {
    && pc.ticket < s.accepted && LogBelow(s.log, pc.ticket)
    && (forall j :: pc.sid <= j < |s.states| ==> QueueAbove(s.states[j].pending, pc.ticket))
  }

  /** A step of `t` that makes no queue grow, dispatches nothing and takes up no state but the mapped one or a new one. */
  ghost predicate OnlyDrops(s: Sys, r: Sys, t: nat)
    requires Wf(s) && Wf(r)
  {
    && OnlyActorMoves(s, r, t)
    && MappedIsLast(r) && (r.mapped == s.mapped || r.mapped.None? || r.mapped.value >= |s.states|)
    && r.accepted == s.accepted && |s.states| <= |r.states|
    && (forall i :: 0 <= i < |s.states| ==> r.states[i].pending == s.states[i].pending || r.states[i].pending == [])
    && (forall i :: |s.states| <= i < |r.states| ==> r.states[i].pending == [])
    && |s.log| <= |r.log| && r.log[..|s.log|] == s.log
    && (forall i :: |s.log| <= i < |r.log| ==> r.log[i].Dropped?)
    && (HoldsAt(r, t) && HasSid(r.threads[t]) ==> !r.threads[t].Popped? && TakesUp(s, t, r.threads[t].sid))
  }

  predicate TakesUp(s: Sys, t: nat, sid: nat) {
    (HoldsAt(s, t) && HasSid(s.threads[t]) && s.threads[t].sid == sid) || s.mapped == Some(sid) || sid >= |s.states|
  }

  lemma NothingNewIsDue(s: Sys, r: Sys, t: nat, j: nat)
    requires Wf(s) && Wf(r) && MappedIsLast(s) && OnlyDrops(s, r, t) && j < |r.states| && Due(r, j)
    ensures r.states[j].pending == [] || Due(s, j)
  {
    if r.mapped != Some(j) && j < |s.states| {
      var u: nat :| u < |r.threads| && Holds(r.threads[u]) && HasSid(r.threads[u]) && r.threads[u].sid <= j;
      if u == t {
        assert TakesUp(s, t, r.threads[t].sid);
      } else {
        assert s.threads[u] == r.threads[u];
      }
    }
  }

  lemma DropsKeepOrder(s: Sys, r: Sys, t: nat)
    requires Wf(s) && Wf(r) && OrderInv(s) && OnlyDrops(s, r, t)
    ensures OrderInv(r)
  {
    LogSame(s.log, r.log);
    QueuesStayRising(s.states, r.states, s.accepted);
    forall j: nat, p | j < |r.states| && Due(r, j) && 0 <= p < |r.states[j].pending|
      ensures LogBelow(r.log, r.states[j].pending[p])
    {
      NothingNewIsDue(s, r, t, j);
      assert LogBelow(s.log, s.states[j].pending[p]);
    }
    forall u | 0 <= u < |r.threads| && r.threads[u].Popped? ensures HandInOrder(r, r.threads[u]) {
      assert u != t && HandInOrder(s, s.threads[u]);
    }
  }

  lemma LogSame(log: seq<Fate>, longer: seq<Fate>)
    requires |log| <= |longer| && longer[..|log|] == log
    requires forall i :: |log| <= i < |longer| ==> longer[i].Dropped?
    ensures LogRises(log) ==> LogRises(longer)
    ensures forall k: nat :: LogBelow(log, k) ==> LogBelow(longer, k)
  {
    assert forall i :: 0 <= i < |log| ==> longer[i] == log[i];
  }

  lemma QueuesStayRising(states: seq<InteractiveState>, after: seq<InteractiveState>, accepted: nat)
    requires QueuesRise(states, accepted) && |states| <= |after|
    requires forall i :: 0 <= i < |states| ==> after[i].pending == states[i].pending || after[i].pending == []
    requires forall i :: |states| <= i < |after| ==> after[i].pending == []
    ensures QueuesRise(after, accepted)
  {
  }

  // ----- The steps -----

  lemma HandlerDrops(s: Sys, e: Event)
    requires Wf(s) && Enabled(s, e) && MappedIsLast(s)
    requires e.Arrive? || e.Ensure? || e.Lookup? || e.Retry? || e.Begin?
    requires OnlyActorMoves(s, HandlerStep(s, e), Actor(s, e))
    ensures OnlyDrops(s, HandlerStep(s, e), Actor(s, e))
  {
  }

  /** Steps of the lock holder that take no message off a queue, or find that its agent is gone. */
  predicate TakesNothing(s: Sys, e: Event)
    requires Wf(s) && Enabled(s, e) && IsTurnStep(e)
  {
    && (e.Result? || e.Drain? ==> s.states[s.threads[e.t].sid].pending == [])
    && (e.Dispatch? ==> !AgentAlive(s, s.threads[e.t].sid))
  }

  lemma TurnDrops(s: Sys, e: Event)
    requires Wf(s) && Enabled(s, e) && MappedIsLast(s) && IsTurnStep(e) && TakesNothing(s, e)
    requires OnlyActorMoves(s, TurnStep(s, e), e.t)
    ensures OnlyDrops(s, TurnStep(s, e), e.t)
  {
  }

  lemma SideDrops(s: Sys, e: Event)
    requires Wf(s) && Enabled(s, e) && MappedIsLast(s) && IsSideStep(e) && !e.CompressLock?
    requires OnlyActorMoves(s, SideStep(s, e), Actor(s, e))
    ensures OnlyDrops(s, SideStep(s, e), Actor(s, e))
  {
  }

  lemma TeardownDrops(s: Sys, e: Event)
    requires Wf(s) && Enabled(s, e) && MappedIsLast(s) && IsTeardownStep(e)
    requires OnlyActorMoves(s, TeardownStep(s, e), Actor(s, e))
    ensures OnlyDrops(s, TeardownStep(s, e), Actor(s, e))
  {
  }

  lemma AppendRises(states: seq<InteractiveState>, sid: nat, k: Ticket)
    requires QueuesRise(states, k) && sid < |states|
    ensures QueuesRise(states, k + 1)
    ensures QueuesRise(states[sid := states[sid].(pending := states[sid].pending + [k])], k + 1) <==>
            forall j :: sid < j < |states| ==> states[j].pending == []
  {
    var after := states[sid := states[sid].(pending := states[sid].pending + [k])];
    if exists j :: sid < j < |states| && states[j].pending != [] {
      var j :| sid < j < |states| && states[j].pending != [];
      assert after[sid].pending[|states[sid].pending|] == k && after[j].pending[0] < k;
    }
  }

  lemma AppendOrder(s: Sys, t: nat)
    requires Wf(s) && Enabled(s, Append(t)) && OrderInv(s)
    requires OnlyActorMoves(s, HandlerStep(s, Append(t)), t)
    ensures OrderInv(HandlerStep(s, Append(t))) <==> !Reorders(s, Append(t))
  {
    var r, sid := HandlerStep(s, Append(t)), s.threads[t].sid;
    if |s.states[sid].pending| >= MAX_QUEUED {
      assert OnlyDrops(s, r, t);
      DropsKeepOrder(s, r, t);
    } else {
      hide OrderInv;
      GrowOrder(s, r, t, sid);
    }
  }

  /** An accepted message is the newest of all, so it must not go below one that is queued already. */
  lemma GrowOrder(s: Sys, r: Sys, t: nat, sid: nat)
    requires Wf(s) && Wf(r) && OrderInv(s) && sid < |s.states| && t < |s.threads| && !Holds(s.threads[t])
    requires r == s.(threads := s.threads[t := Appended], accepted := s.accepted + 1,
                     states := s.states[sid := s.states[sid].(pending := s.states[sid].pending + [s.accepted])])
    ensures OrderInv(r) <==> !NewerIsQueued(s, sid)
  {
    AppendRises(s.states, sid, s.accepted);
    hide QueuesRise;
    if !NewerIsQueued(s, sid) {
      forall j: nat, p | j < |r.states| && Due(r, j) && 0 <= p < |r.states[j].pending|
        ensures LogBelow(r.log, r.states[j].pending[p])
      {
        SameDue(s, r, t, j);
        if p < |s.states[j].pending| { assert LogBelow(s.log, s.states[j].pending[p]); }
      }
      forall u | 0 <= u < |r.threads| && r.threads[u].Popped? ensures HandInOrder(r, r.threads[u]) {
        assert HandInOrder(s, s.threads[u]);
      }
    }
  }

  /** The messages from the locked state on are due from now on. */
  lemma LockOrder(s: Sys, t: nat)
    requires Wf(s) && Enabled(s, CompressLock(t)) && OrderInv(s)
    ensures OrderInv(SideStep(s, CompressLock(t))) <==> !Reorders(s, CompressLock(t))
  {
    hide QueuesRise, LogBelow, LogRises;
    var r, sid := SideStep(s, CompressLock(t)), s.threads[t].sid;
    assert r.states == s.states && r.log == s.log && r.mapped == s.mapped && r.accepted == s.accepted;
    assert forall u :: 0 <= u < |s.threads| && u != t ==> r.threads[u] == s.threads[u];
    forall u | 0 <= u < |r.threads| && r.threads[u].Popped? ensures HandInOrder(r, r.threads[u]) {
      assert HandInOrder(s, s.threads[u]);
    }
    if Reorders(s, CompressLock(t)) {
      var j, p :| sid <= j < |s.states| && 0 <= p < |s.states[j].pending| && !LogBelow(s.log, s.states[j].pending[p]);
      assert Holds(r.threads[t]) && HasSid(r.threads[t]) && r.threads[t].sid <= j;
      assert Due(r, j);
    } else {
      forall j: nat, p | j < |r.states| && Due(r, j) && 0 <= p < |r.states[j].pending|
        ensures LogBelow(r.log, r.states[j].pending[p])
      {
        DueByLock(s, r, t, j);
      }
    }
  }

  lemma DueByLock(s: Sys, r: Sys, t: nat, j: nat)
    requires t < |s.threads| && |r.threads| == |s.threads| && r.mapped == s.mapped && Due(r, j)
    requires forall u :: 0 <= u < |s.threads| && u != t ==> r.threads[u] == s.threads[u]
    ensures Due(s, j) || (Holds(r.threads[t]) && HasSid(r.threads[t]) && r.threads[t].sid <= j)
  {
    if r.mapped != Some(j) {
      var u: nat :| u < |r.threads| && Holds(r.threads[u]) && HasSid(r.threads[u]) && r.threads[u].sid <= j;
      assert u != t ==> Holds(s.threads[u]);
    }
  }

  lemma SameDue(s: Sys, r: Sys, t: nat, j: nat)
    requires OnlyActorMoves(s, r, t) && r.mapped == s.mapped && Due(r, j)
    requires HoldsAt(r, t) && HasSid(r.threads[t]) ==> HoldsAt(s, t) && HasSid(s.threads[t]) && s.threads[t].sid == r.threads[t].sid
    ensures Due(s, j)
  {
    if r.mapped != Some(j) {
      var u: nat :| u < |r.threads| && Holds(r.threads[u]) && HasSid(r.threads[u]) && r.threads[u].sid <= j;
      assert HoldsAt(r, u);
      assert u == t || s.threads[u] == r.threads[u];
    }
  }

  lemma TakeRises(states: seq<InteractiveState>, sid: nat, accepted: nat)
    requires QueuesRise(states, accepted) && sid < |states| && states[sid].pending != []
    ensures var after := states[sid := states[sid].(pending := states[sid].pending[1..])];
            && QueuesRise(after, accepted)
            && forall j :: sid <= j < |after| ==> QueueAbove(after[j].pending, states[sid].pending[0])
  {
  }

  /** The lock holder on `sid` dispatches `k`, which comes before all that is queued from `sid` on. */
  lemma DispatchOrder(s: Sys, r: Sys, t: nat, sid: nat, k: Ticket)
    requires Wf(s) && Wf(r) && MappedIsLast(r) && QueuesRise(r.states, r.accepted) && sid < |r.states|
    requires LogRises(s.log) && LogBelow(s.log, k) && k < r.accepted && r.log == s.log + [Dispatched(k)]
    requires forall j :: sid <= j < |r.states| ==> QueueAbove(r.states[j].pending, k)
    requires t < |r.threads| && r.threads[t] == Running(sid)
    requires forall u :: 0 <= u < |r.threads| && u != t ==> !Holds(r.threads[u])
    ensures OrderInv(r)
  {
    hide QueuesRise;
    forall j: nat, p | j < |r.states| && Due(r, j) && 0 <= p < |r.states[j].pending|
      ensures LogBelow(r.log, r.states[j].pending[p])
    {
      assert sid <= j && QueueAbove(r.states[j].pending, k);
    }
  }

  lemma ResultOrder(s: Sys, t: nat)
    requires Wf(s) && Enabled(s, Result(t)) && OrderInv(s) && LockInv(s) && s.states[s.threads[t].sid].pending != []
    ensures OrderInv(TurnStep(s, Result(t)))
  {
    hide QueuesRise, LogRises, LogBelow;
    var r, sid := TurnStep(s, Result(t)), s.threads[t].sid;
    TakeRises(s.states, sid, s.accepted);
    assert HoldsAt(s, t) && Due(s, sid);
    TicketAccepted(s.states, sid, s.accepted);
    DispatchOrder(s, r, t, sid, s.states[sid].pending[0]);
  }

  lemma TicketAccepted(states: seq<InteractiveState>, sid: nat, accepted: nat)
    requires QueuesRise(states, accepted) && sid < |states| && states[sid].pending != []
    ensures states[sid].pending[0] < accepted
  {
  }

  lemma DispatchHandOrder(s: Sys, t: nat)
    requires Wf(s) && Enabled(s, Dispatch(t)) && OrderInv(s) && LockInv(s) && AgentAlive(s, s.threads[t].sid)
    ensures OrderInv(TurnStep(s, Dispatch(t)))
  {
    hide QueuesRise, LogRises, LogBelow, QueueAbove;
    var r, sid := TurnStep(s, Dispatch(t)), s.threads[t].sid;
    assert HandInOrder(s, s.threads[t]);
    assert HoldsAt(s, t);
    DispatchOrder(s, r, t, sid, s.threads[t].ticket);
  }

  lemma DrainOrder(s: Sys, t: nat)
    requires Wf(s) && Enabled(s, Drain(t)) && OrderInv(s) && LockInv(s) && s.states[s.threads[t].sid].pending != []
    ensures OrderInv(TurnStep(s, Drain(t)))
  {
    hide QueuesRise, LogRises;
    var r, sid := TurnStep(s, Drain(t)), s.threads[t].sid;
    assert forall u :: 0 <= u < |s.threads| && u != t ==> r.threads[u] == s.threads[u] && !Holds(s.threads[u]);
    TakeRises(s.states, sid, s.accepted);
    TicketAccepted(s.states, sid, s.accepted);
    assert Due(s, sid);
    forall j: nat, p | j < |r.states| && Due(r, j) && 0 <= p < |r.states[j].pending|
      ensures LogBelow(r.log, r.states[j].pending[p])
    {
      assert Due(s, j);
      assert r.states[j].pending[p] in s.states[j].pending;
    }
  }

  /** The queue of the last state moves to a new last state. */
  lemma MoveRises(states: seq<InteractiveState>, m: nat, st: InteractiveState, accepted: nat)
    requires QueuesRise(states, accepted) && m == |states| - 1 && st.pending == states[m].pending
    ensures QueuesRise(states[m := states[m].(pending := [])] + [st], accepted)
  {
  }

  lemma ReplaceOrder(s: Sys, t: nat, started: bool)
    requires Wf(s) && Enabled(s, Acquire(t, started, false)) && OrderInv(s) && s.mapped.Some?
    ensures OrderInv(Replace(s, t, started))
  {
    hide QueuesRise;
    var r, m := Replace(s, t, started), s.mapped.value;
    assert r.states == s.states[m := s.states[m].(pending := [])] + [r.states[m + 1]];
    MoveRises(s.states, m, r.states[m + 1], s.accepted);
    assert forall u :: 0 <= u < |s.threads| && u != t ==> r.threads[u] == s.threads[u];
    forall j: nat, p | j < |r.states| && Due(r, j) && 0 <= p < |r.states[j].pending|
      ensures LogBelow(r.log, r.states[j].pending[p])
    {
      if j <= m { assert Due(s, j); } else { assert Due(s, m); }
    }
    forall u | 0 <= u < |r.threads| && r.threads[u].Popped? ensures HandInOrder(r, r.threads[u]) {
      assert HandInOrder(s, s.threads[u]);
    }
  }

  lemma AcquireOrder(s: Sys, t: nat, started: bool, mismatch: bool)
    requires Wf(s) && Enabled(s, Acquire(t, started, mismatch)) && OrderInv(s)
    requires OnlyActorMoves(s, Acquired(s, t, started, mismatch), t)
    ensures OrderInv(Acquired(s, t, started, mismatch))
  {
    assert MappedIsLast(s);
    hide OrderInv, MappedIsLast;
    if s.mapped.Some? && !AgentAlive(s, s.mapped.value) {
      ReplaceOrder(s, t, started);
    } else {
      AcquireDrops(s, t, started, mismatch);
      DropsKeepOrder(s, Acquired(s, t, started, mismatch), t);
    }
  }

  lemma AcquireDrops(s: Sys, t: nat, started: bool, mismatch: bool)
    requires Wf(s) && Enabled(s, Acquire(t, started, mismatch)) && MappedIsLast(s)
    requires s.mapped.None? || AgentAlive(s, s.mapped.value)
    requires OnlyActorMoves(s, Acquired(s, t, started, mismatch), t)
    ensures OnlyDrops(s, Acquired(s, t, started, mismatch), t)
  {
  }

  /** A step gives up the order of messages exactly when its guard in `SessionRuns.Reorders` holds. */
  lemma OrderStep(s: Sys, e: Event)
    requires Wf(s) && Enabled(s, e) && OrderInv(s) && LockInv(s)
    ensures OrderInv(Step(s, e)) <==> !Reorders(s, e)
  {
    StepMoves(s, e);
    assert MappedIsLast(s);
    hide OrderInv, OnlyActorMoves, LockMovesWithActor, OnlyDrops, LockInv, MappedIsLast, NewerIsQueued, OlderIsQueued;
    if e.Acquire? { AcquireOrder(s, e.t, e.started, e.mismatch); }
    else if e.Append? { AppendOrder(s, e.t); }
    else if e.CompressLock? { LockOrder(s, e.t); }
    else if IsTurnStep(e) && !TakesNothing(s, e) {
      if e.Result? { ResultOrder(s, e.t); } else if e.Drain? { DrainOrder(s, e.t); } else { DispatchHandOrder(s, e.t); }
    } else {
      if IsHandlerStep(e) { HandlerDrops(s, e); }
      else if IsTurnStep(e) { TurnDrops(s, e); }
      else if IsTeardownStep(e) { TeardownDrops(s, e); }
      else { SideDrops(s, e); }
      DropsKeepOrder(s, Step(s, e), Actor(s, e));
    }
  }

  /** The mapped state is the newest, and its messages are due anyway. */
  lemma MappedKeepsOrder(s: Sys, e: Event)
    requires Wf(s) && Enabled(s, e) && OrderInv(s) && FindsMapped(s, e)
    ensures !Reorders(s, e)
  {
    hide QueuesRise, LogBelow, LogRises;
  }

  /** Rules under which no step reorders; finding the mapped state is one way to see to that. */
  predicate KeepsOrder(rules: Rules) {
    rules.NoReorder? || rules == StillMapped(true, true)
  }

  lemma {:induction false} OrderAlways(r: Run, s: Sys, rules: Rules)
    requires Ends(r, s, rules) && KeepsOrder(rules)
    ensures Wf(s) && OrderInv(s)
  {
    hide Step, Enabled, OrderInv, Reorders;
    RunsAreWellFormed(r, s, rules);
    if r.Then? {
      var before := LastStep(r, s, rules);
      OrderAlways(r.prev, before, rules);
      LockDiscipline(r.prev, before, rules);
      if rules.StillMapped? { MappedKeepsOrder(before, r.e); }
      OrderStep(before, r.e);
    } else {
      OrderAtStart();
    }
  }

  lemma OrderAtStart()
    ensures OrderInv(Init)
  {
  }

  /** What the mapped state has queued is in acceptance order and comes after the log and the message in hand. */
  ghost predicate MappedQueueFollows(s: Sys) {
    s.mapped.Some? ==>
      && s.mapped.value < |s.states|
      && var queue := s.states[s.mapped.value].pending;
         && (forall p :: 0 <= p < |queue| ==> LogBelow(s.log, queue[p]))
         && (forall p, q :: 0 <= p < q < |queue| ==> queue[p] < queue[q])
         && (forall t :: 0 <= t < |s.threads| && s.threads[t].Popped? ==> QueueAbove(queue, s.threads[t].ticket))
  }

  /**
   Messages are dispatched in the order in which they were accepted, across both consumers, adoption, recycling, stops
   and cleanups; the message in hand comes next, and what the mapped state has queued comes after it.
   */
  lemma DispatchOrderIsAcceptanceOrder(r: Run, s: Sys, rules: Rules)
    requires Ends(r, s, rules) && KeepsOrder(rules)
    ensures LogRises(s.log)
    ensures forall t :: 0 <= t < |s.threads| && s.threads[t].Popped? ==> LogBelow(s.log, s.threads[t].ticket)
    ensures MappedQueueFollows(s)
  {
    hide Ends, Holds;
    OrderAlways(r, s, rules);
    assert s.mapped.Some? ==> Due(s, s.mapped.value);
    forall t | 0 <= t < |s.threads| && s.threads[t].Popped? ensures HandInOrder(s, s.threads[t]) {
    }
  }
}
