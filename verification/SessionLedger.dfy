/** Conservation of accepted messages over every run (core/engine.go). */
module SessionLedger {
  import opened Wrappers
  import opened SessionQueue
  import opened SessionRuns

  ghost function Count(queue: seq<Ticket>, k: Ticket): nat {
    if queue == [] then 0 else (if queue[0] == k then 1 else 0) + Count(queue[1..], k)
  }

  /** How often `k` is in some queue. */
  ghost function InQueues(states: seq<InteractiveState>, k: Ticket): nat {
    if states == [] then 0 else Count(states[0].pending, k) + InQueues(states[1..], k)
  }

  ghost function Hand(pc: Pc, k: Ticket): nat {
    if pc.Popped? && pc.ticket == k then 1 else 0
  }

  /** How often `k` has been taken off a queue by a goroutine that has not yet decided its fate. */
  ghost function InHands(threads: seq<Pc>, k: Ticket): nat {
    if threads == [] then 0 else Hand(threads[0], k) + InHands(threads[1..], k)
  }

  /** How often `k` was dispatched or reported as dropped. */
  ghost function Settled(log: seq<Fate>, k: Ticket): nat {
    if log == [] then 0 else (if log[0].ticket == k then 1 else 0) + Settled(log[1..], k)
  }

  ghost function Places(s: Sys, k: Ticket): nat {
    InQueues(s.states, k) + InHands(s.threads, k) + Settled(s.log, k)
  }

  lemma {:induction false} CountConcat(a: seq<Ticket>, b: seq<Ticket>, k: Ticket)
    ensures Count(a + b, k) == Count(a, k) + Count(b, k)
  {
    if a == [] { assert a + b == b; } else {
      CountConcat(a[1..], b, k);
      assert (a + b)[1..] == a[1..] + b;
    }
  }

  lemma {:induction false} QueueChange(states: seq<InteractiveState>, i: nat, st: InteractiveState, k: Ticket)
    requires i < |states|
    ensures InQueues(states[i := st], k) == InQueues(states, k) - Count(states[i].pending, k) + Count(st.pending, k)
  {
    if i == 0 { assert states[i := st][1..] == states[1..]; } else {
      QueueChange(states[1..], i - 1, st, k);
      assert states[i := st][1..] == states[1..][i - 1 := st];
    }
  }

  lemma {:induction false} QueueNew(states: seq<InteractiveState>, st: InteractiveState, k: Ticket)
    ensures InQueues(states + [st], k) == InQueues(states, k) + Count(st.pending, k)
  {
    if states != [] {
      QueueNew(states[1..], st, k);
      assert (states + [st])[1..] == states[1..] + [st];
    }
  }

  lemma {:induction false} HandChange(threads: seq<Pc>, t: nat, pc: Pc, k: Ticket)
    requires t < |threads|
    ensures InHands(threads[t := pc], k) == InHands(threads, k) - Hand(threads[t], k) + Hand(pc, k)
  {
    if t == 0 { assert threads[t := pc][1..] == threads[1..]; } else {
      HandChange(threads[1..], t - 1, pc, k);
      assert threads[t := pc][1..] == threads[1..][t - 1 := pc];
    }
  }

  lemma {:induction false} HandNew(threads: seq<Pc>, pc: Pc, k: Ticket)
    ensures InHands(threads + [pc], k) == InHands(threads, k) + Hand(pc, k)
  {
    if threads != [] {
      HandNew(threads[1..], pc, k);
      assert (threads + [pc])[1..] == threads[1..] + [pc];
    }
  }

  lemma {:induction false} SettledConcat(a: seq<Fate>, b: seq<Fate>, k: Ticket)
    ensures Settled(a + b, k) == Settled(a, k) + Settled(b, k)
  {
    if a == [] { assert a + b == b; } else {
      SettledConcat(a[1..], b, k);
      assert (a + b)[1..] == a[1..] + b;
    }
  }

  lemma {:induction false} SettledDrops(queue: seq<Ticket>, k: Ticket)
    ensures Settled(AllDropped(queue), k) == Count(queue, k)
  {
    if queue != [] {
      SettledDrops(queue[1..], k);
      assert AllDropped(queue)[1..] == AllDropped(queue[1..]);
    }
  }

  // ----- One lemma per kind of change -----

  lemma PcChange(s: Sys, r: Sys, t: nat, k: Ticket)
    requires t < |s.threads| && |r.threads| == |s.threads|
    requires r == s.(threads := r.threads, busy := r.busy, mapped := r.mapped, agents := r.agents)
    requires r.threads == s.threads[t := r.threads[t]]
    requires Hand(s.threads[t], k) == Hand(r.threads[t], k)
    ensures Places(r, k) == Places(s, k)
  {
    HandChange(s.threads, t, r.threads[t], k);
  }

  lemma NewThread(s: Sys, r: Sys, k: Ticket)
    requires |r.threads| == |s.threads| + 1 && r.threads == s.threads + [r.threads[|s.threads|]]
    requires r.log == s.log && InQueues(r.states, k) == InQueues(s.states, k)
    requires !r.threads[|s.threads|].Popped?
    ensures Places(r, k) == Places(s, k)
  {
    HandNew(s.threads, r.threads[|s.threads|], k);
  }

  lemma NotifyPlaces(s: Sys, sid: nat, k: Ticket)
    requires Wf(s) && sid < |s.states|
    ensures Places(NotifyDropped(s, sid), k) == Places(s, k)
  {
    var queue := s.states[sid].pending;
    QueueChange(s.states, sid, s.states[sid].(pending := []), k);
    SettledConcat(s.log, AllDropped(queue), k);
    SettledDrops(queue, k);
  }

  lemma ReplacePlaces(s: Sys, t: nat, started: bool, k: Ticket)
    requires Wf(s) && t < |s.threads| && !s.threads[t].Popped?
    ensures Places(Replace(s, t, started), k) == Places(s, k)
  {
    var r := Replace(s, t, started);
    var queue := if s.mapped.Some? then s.states[s.mapped.value].pending else [];
    var emptied := if s.mapped.Some? then SetQueue(s, s.mapped.value, []).states else s.states;
    if s.mapped.Some? { QueueChange(s.states, s.mapped.value, s.states[s.mapped.value].(pending := []), k); }
    assert InQueues(emptied, k) + Count(queue, k) == InQueues(s.states, k);
    assert r.states == emptied + [r.states[|s.states|]];
    QueueNew(emptied, r.states[|s.states|], k);
    HandChange(s.threads, t, r.threads[t], k);
  }

  lemma StoppedPlaces(s: Sys, sid: nat, st: InteractiveState, k: Ticket)
    requires sid < |s.states| && st.pending == s.states[sid].pending
    ensures InQueues(s.states[sid := st], k) == InQueues(s.states, k)
  {
    QueueChange(s.states, sid, st, k);
  }

  lemma AcquiredPlaces(s: Sys, t: nat, started: bool, mismatch: bool, k: Ticket)
    requires Wf(s) && Enabled(s, Acquire(t, started, mismatch))
    ensures Places(Acquired(s, t, started, mismatch), k) == Places(s, k)
  {
    if s.mapped.Some? && AgentAlive(s, s.mapped.value) {
      if mismatch {
        var sid := s.mapped.value;
        StoppedPlaces(s, sid, s.states[sid].(stopped := true), k);
        assert Places(Recycle(s), k) == Places(s, k);
        ReplacePlaces(Recycle(s), t, started, k);
      } else {
        PcChange(s, Acquired(s, t, started, mismatch), t, k);
      }
    } else {
      ReplacePlaces(s, t, started, k);
    }
  }

  lemma EnsurePlaces(s: Sys, t: nat, k: Ticket)
    requires Wf(s) && Enabled(s, Ensure(t))
    ensures Places(HandlerStep(s, Ensure(t)), k) == Places(s, k)
  {
    QueueNew(s.states, InteractiveState(None, [], false), k);
    HandChange(s.threads, t, Starting, k);
  }

  lemma HandlerPlaces(s: Sys, e: Event, k: Ticket)
    requires Wf(s) && Enabled(s, e) && (e.Arrive? || e.Lookup? || e.Retry? || e.Begin?)
    ensures Places(HandlerStep(s, e), k) == Places(s, k)
  {
    if e.Arrive? { NewThread(s, HandlerStep(s, e), k); } else { PcChange(s, HandlerStep(s, e), e.t, k); }
  }

  lemma AppendPlaces(s: Sys, t: nat, k: Ticket)
    requires Wf(s) && Enabled(s, Append(t))
    ensures var r := HandlerStep(s, Append(t));
            Places(r, k) == Places(s, k) + if r.accepted == s.accepted + 1 && k == s.accepted then 1 else 0
    ensures s.accepted <= HandlerStep(s, Append(t)).accepted <= s.accepted + 1
  {
    var r := HandlerStep(s, Append(t));
    var sid := s.threads[t].sid;
    var queue := s.states[sid].pending;
    if |queue| >= MAX_QUEUED {
      PcChange(s, r, t, k);
    } else {
      CountConcat(queue, [s.accepted], k);
      QueueChange(s.states, sid, s.states[sid].(pending := queue + [s.accepted]), k);
      HandChange(s.threads, t, Appended, k);
    }
  }

  lemma ResultPlaces(s: Sys, t: nat, k: Ticket)
    requires Wf(s) && Enabled(s, Result(t))
    ensures Places(TurnStep(s, Result(t)), k) == Places(s, k)
  {
    var sid := s.threads[t].sid;
    var queue := s.states[sid].pending;
    if queue == [] {
      PcChange(s, TurnStep(s, Result(t)), t, k);
    } else {
      QueueChange(s.states, sid, s.states[sid].(pending := queue[1..]), k);
      SettledConcat(s.log, [Dispatched(queue[0])], k);
    }
  }

  lemma DrainPlaces(s: Sys, t: nat, k: Ticket)
    requires Wf(s) && Enabled(s, Drain(t))
    ensures Places(TurnStep(s, Drain(t)), k) == Places(s, k)
  {
    var sid := s.threads[t].sid;
    var queue := s.states[sid].pending;
    if queue == [] {
      PcChange(s, TurnStep(s, Drain(t)), t, k);
    } else {
      QueueChange(s.states, sid, s.states[sid].(pending := queue[1..]), k);
      HandChange(s.threads, t, Popped(sid, queue[0]), k);
    }
  }

  lemma DispatchPlaces(s: Sys, t: nat, k: Ticket)
    requires Wf(s) && Enabled(s, Dispatch(t))
    ensures Places(TurnStep(s, Dispatch(t)), k) == Places(s, k)
  {
    var r := TurnStep(s, Dispatch(t));
    HandChange(s.threads, t, r.threads[t], k);
    SettledConcat(s.log, [r.log[|s.log|]], k);
  }

  lemma DropAllPlaces(s: Sys, t: nat, k: Ticket)
    requires Wf(s) && Enabled(s, DropAll(t))
    ensures Places(TurnStep(s, DropAll(t)), k) == Places(s, k)
  {
    NotifyPlaces(s, s.threads[t].sid, k);
    PcChange(NotifyDropped(s, s.threads[t].sid), TurnStep(s, DropAll(t)), t, k);
  }

  lemma TurnPlaces(s: Sys, e: Event, k: Ticket)
    requires Wf(s) && Enabled(s, e) && IsTurnStep(e)
    ensures Places(TurnStep(s, e), k) == Places(s, k)
  {
    match e
    case Result(t) => ResultPlaces(s, t, k);
    case Drain(t) => DrainPlaces(s, t, k);
    case Dispatch(t) => DispatchPlaces(s, t, k);
    case DropAll(t) => DropAllPlaces(s, t, k);
    case FailTurn(t) => NotifyPlaces(s, s.threads[t].sid, k);
    case EndTurn(t) => PcChange(s, TurnStep(s, e), t, k);
    case Release(t) => PcChange(s, TurnStep(s, e), t, k);
    case OrphanLookup(t) => PcChange(s, TurnStep(s, e), t, k);
  }

  lemma SidePlaces(s: Sys, e: Event, k: Ticket)
    requires Wf(s) && Enabled(s, e) && IsSideStep(e)
    ensures Places(SideStep(s, e), k) == Places(s, k)
  {
    match e
    case CompressLookup => NewThread(s, SideStep(s, e), k);
    case CompressLock(t) => PcChange(s, SideStep(s, e), t, k);
    case CompressEnd(t, _) => PcChange(s, SideStep(s, e), t, k);
    case Die(a) =>
    case Placeholder => QueueNew(s.states, InteractiveState(None, [], false), k);
  }

  lemma StopPlaces(s: Sys, k: Ticket)
    requires Wf(s) && Enabled(s, Stop)
    ensures Places(TeardownStep(s, Stop), k) == Places(s, k)
  {
    var sid := s.mapped.value;
    StoppedPlaces(s, sid, s.states[sid].(stopped := true), k);
    NewThread(s, TeardownStep(s, Stop), k);
  }

  lemma CleanupPlaces(s: Sys, expected: Option<nat>, k: Ticket)
    requires Wf(s) && Enabled(s, Cleanup(expected))
    ensures Places(TeardownStep(s, Cleanup(expected)), k) == Places(s, k)
  {
    if s.mapped.Some? {
      var sid := s.mapped.value;
      StoppedPlaces(s, sid, s.states[sid].(agent := None), k);
    }
    NewThread(s, TeardownStep(s, Cleanup(expected)), k);
  }

  lemma NotifyStepPlaces(s: Sys, e: Event, k: Ticket)
    requires Wf(s) && Enabled(s, e) && (e.StopNotify? || e.CleanupNotify?)
    ensures Places(TeardownStep(s, e), k) == Places(s, k)
  {
    var sid := s.threads[e.t].sid;
    var m := if e.StopNotify? then s else MarkStopped(s, sid);
    StoppedPlaces(s, sid, s.states[sid].(stopped := true), k);
    assert Places(m, k) == Places(s, k);
    NotifyPlaces(m, sid, k);
    PcChange(NotifyDropped(m, sid), TeardownStep(s, e), e.t, k);
  }

  lemma TeardownPlaces(s: Sys, e: Event, k: Ticket)
    requires Wf(s) && Enabled(s, e) && IsTeardownStep(e)
    ensures Places(TeardownStep(s, e), k) == Places(s, k)
  {
    if e.Stop? { StopPlaces(s, k); }
    else if e.Cleanup? { CleanupPlaces(s, e.expected, k); }
    else if e.StopNotify? || e.CleanupNotify? { NotifyStepPlaces(s, e, k); }
    else if e.Close? { PcChange(s, TeardownStep(s, e), e.t, k); }
    else { PcChange(s, TeardownStep(s, e), e.t, k); }
  }

  /** No step moves a message to two places or to none; a new message is placed once. */
  lemma StepPlaces(s: Sys, e: Event, k: Ticket)
    requires Wf(s) && Enabled(s, e)
    ensures Places(Step(s, e), k) == Places(s, k) + if s.accepted <= k < Step(s, e).accepted then 1 else 0
    ensures s.accepted <= Step(s, e).accepted
  {
    hide Places;
    if e.Append? { AppendPlaces(s, e.t, k); }
    else if e.Acquire? { AcquiredPlaces(s, e.t, e.started, e.mismatch, k); }
    else if e.Ensure? { EnsurePlaces(s, e.t, k); }
    else if IsHandlerStep(e) { HandlerPlaces(s, e, k); }
    else if IsTurnStep(e) { TurnPlaces(s, e, k); }
    else if IsTeardownStep(e) { TeardownPlaces(s, e, k); }
    else { SidePlaces(s, e, k); }
  }

  /**
   In every run, every accepted message is in exactly one place, once: some queue, the hand of
   the drain loop, or the log of messages dispatched to the agent or reported as dropped.
   */
  lemma {:induction false} Conservation(r: Run, s: Sys, rules: Rules, k: Ticket)
    requires Ends(r, s, rules)
    ensures InQueues(s.states, k) + InHands(s.threads, k) + Settled(s.log, k) == if k < s.accepted then 1 else 0
  {
    hide Step, Enabled, Allowed, InQueues, InHands, Settled;
    if r.Then? {
      var before := LastStep(r, s, rules);
      Conservation(r.prev, before, rules, k);
      StepPlaces(before, r.e, k);
    } else {
      NothingAtStart(k);
    }
  }

  lemma NothingAtStart(k: Ticket)
    ensures InQueues(Init.states, k) == 0 && InHands(Init.threads, k) == 0 && Settled(Init.log, k) == 0
  {
  }

  lemma {:induction false} SettledTwice(log: seq<Fate>, i: nat, j: nat)
    requires i < j < |log| && log[i].ticket == log[j].ticket
    ensures Settled(log, log[i].ticket) >= 2
  {
    if i > 0 { SettledTwice(log[1..], i - 1, j - 1); } else { SettledHas(log[1..], j - 1); }
  }

  lemma {:induction false} SettledHas(log: seq<Fate>, i: nat)
    requires i < |log|
    ensures Settled(log, log[i].ticket) >= 1
  {
    if i > 0 { SettledHas(log[1..], i - 1); }
  }

  /** No message is dispatched twice, or both dispatched and reported as dropped. */
  lemma SettledOnce(r: Run, s: Sys, rules: Rules, i: nat, j: nat)
    requires Ends(r, s, rules) && i < j < |s.log|
    ensures s.log[i].ticket != s.log[j].ticket
  {
    hide Ends, InQueues, InHands, Settled;
    if s.log[i].ticket == s.log[j].ticket {
      SettledTwice(s.log, i, j);
      Conservation(r, s, rules, s.log[i].ticket);
    }
  }
}
