/**
 The busy-session queue and the hand-off of the session lock (core/engine.go).

 The goroutines of one session key are threads; every section that the source runs under
 one mutex is one atomic step.  The lookup of the interactive state and the append to its
 queue are two steps, as in the source.
 */
module SessionQueue {
  import opened Wrappers

  const MAX_QUEUED: nat := 5

  // Messages are named by the order in which queues accepted them.
  type Ticket = nat

  datatype AgentSession = AgentSession(alive: bool, closes: nat)

  datatype InteractiveState = InteractiveState(agent: Option<nat>, pending: seq<Ticket>, stopped: bool)

  datatype Fate = Dispatched(ticket: Ticket) | Dropped(ticket: Ticket)

  /** Where a goroutine stands; `sid` is the interactive state it has in hand. */
  datatype Pc =
    | Done
    | Queueing                                    // TryLock failed, state not yet looked up
    | Appending(sid: nat)                         // state looked up, message not yet appended
    | Appended                                    // message appended, second TryLock to come
    | Locked                                      // holds the lock, placeholder not yet ensured
    | Starting                                    // holds the lock, state not yet obtained
    | Prepared(sid: nat)                          // holds the lock, agent not yet checked for nil
    | Running(sid: nat)                           // in the event loop
    | Draining(sid: nat)                          // at the head of the drain loop
    | Popped(sid: nat, ticket: Ticket)            // took a message off the queue, agent not yet checked
    | Dropping(sid: nat)                          // about to notify the queued senders and return
    | Releasing                                   // early return: only the deferred Unlock is left
    | Orphan                                      // drainOrphanedQueue before its lookup
    | CompressTry(sid: nat)                       // /compress before its TryLock
    | Compressing(sid: nat)
    | StopDrop(sid: nat, captured: Option<nat>)      // /stop after unmapping the state
    | Closing(agent: nat)
    | CleanupDrop(sid: nat, captured: Option<nat>, expected: Option<nat>)
    | CleanupClose(agent: nat, closed: Option<nat>, expected: Option<nat>)
    | CleanupDelete(closed: Option<nat>, expected: Option<nat>)   // `closed`: the state it shut down

  /**
   One session key: the session's busy flag, the entry of `interactiveStates`, every
   interactive state, agent session and goroutine created so far, the number of messages
   accepted, and what became of those that left a queue, in order.
   */
  datatype Sys = Sys(
    busy: bool,
    mapped: Option<nat>,
    states: seq<InteractiveState>,
    agents: seq<AgentSession>,
    threads: seq<Pc>,
    accepted: nat,
    log: seq<Fate>)

  const Init := Sys(false, None, [], [], [], 0, [])

  datatype CompressOutcome = DrainQueue | DropQueue | JustReturn

  datatype Event =
    | Arrive
    | Ensure(t: nat)
    | Lookup(t: nat)
    | Append(t: nat)
    | Retry(t: nat)
    | Acquire(t: nat, started: bool, mismatch: bool)
    | Begin(t: nat)
    | Result(t: nat)
    | FailTurn(t: nat)
    | EndTurn(t: nat)
    | Drain(t: nat)
    | Dispatch(t: nat)
    | DropAll(t: nat)
    | Release(t: nat)
    | OrphanLookup(t: nat)
    | CompressLookup
    | CompressLock(t: nat)
    | CompressEnd(t: nat, outcome: CompressOutcome)
    | Stop
    | StopNotify(t: nat)
    | Cleanup(expected: Option<nat>)
    | CleanupNotify(t: nat)
    | Close(t: nat)
    | Unmap(t: nat)
    | Die(a: nat)
    | Placeholder

  // ----- Steps -----

  /** Goroutines that own the session lock. */
  predicate Holds(pc: Pc) {
    pc.Locked? || pc.Starting? || pc.Prepared? || pc.Running? || pc.Draining? || pc.Popped? ||
    pc.Dropping? || pc.Releasing? || pc.Orphan? || pc.Compressing?
  }

  predicate HasSid(pc: Pc) {
    pc.Appending? || pc.Prepared? || pc.Running? || pc.Draining? || pc.Popped? || pc.Dropping? ||
    pc.CompressTry? || pc.Compressing? || pc.StopDrop? || pc.CleanupDrop?
  }

  predicate WfState(st: InteractiveState, agents: nat) {
    (st.agent.Some? ==> st.agent.value < agents) && |st.pending| <= MAX_QUEUED
  }

  predicate WfPc(pc: Pc, states: nat, agents: nat) {
    && (HasSid(pc) ==> pc.sid < states)
    && (pc.StopDrop? && pc.captured.Some? ==> pc.captured.value < agents)
    && (pc.CleanupDrop? && pc.captured.Some? ==> pc.captured.value < agents)
    && (pc.Closing? ==> pc.agent < agents)
    && (pc.CleanupClose? ==> pc.agent < agents)
  }

  /** References are in range and no queue holds more than MAX_QUEUED messages. */
  predicate Wf(s: Sys) {
    && (s.mapped.Some? ==> s.mapped.value < |s.states|)
    && (forall i :: 0 <= i < |s.states| ==> WfState(s.states[i], |s.agents|))
    && (forall t :: 0 <= t < |s.threads| ==> WfPc(s.threads[t], |s.states|, |s.agents|))
  }

  predicate AgentAlive(s: Sys, sid: nat)
    requires Wf(s) && sid < |s.states|
  {
    s.states[sid].agent.Some? && s.agents[s.states[sid].agent.value].alive
  }

  predicate Enabled(s: Sys, e: Event)
    requires Wf(s)
  {
    match e
    case Arrive => true
    case Ensure(t) => t < |s.threads| && s.threads[t].Locked?
    case Lookup(t) => t < |s.threads| && s.threads[t].Queueing?
    case Append(t) => t < |s.threads| && s.threads[t].Appending?
    case Retry(t) => t < |s.threads| && s.threads[t].Appended?
    case Acquire(t, _, _) => t < |s.threads| && s.threads[t].Starting?
    case Begin(t) => t < |s.threads| && s.threads[t].Prepared?
    case Result(t) => t < |s.threads| && s.threads[t].Running?
    case FailTurn(t) => t < |s.threads| && s.threads[t].Running?
    case EndTurn(t) => t < |s.threads| && s.threads[t].Running?
    case Drain(t) => t < |s.threads| && s.threads[t].Draining?
    case Dispatch(t) => t < |s.threads| && s.threads[t].Popped?
    case DropAll(t) => t < |s.threads| && s.threads[t].Dropping?
    case Release(t) => t < |s.threads| && s.threads[t].Releasing?
    case OrphanLookup(t) => t < |s.threads| && s.threads[t].Orphan?
    case CompressLookup => s.mapped.Some? && AgentAlive(s, s.mapped.value)
    case CompressLock(t) => t < |s.threads| && s.threads[t].CompressTry?
    case CompressEnd(t, _) => t < |s.threads| && s.threads[t].Compressing?
    case Stop => s.mapped.Some?
    case StopNotify(t) => t < |s.threads| && s.threads[t].StopDrop?
    case Cleanup(expected) => expected.None? || s.mapped == expected
    case CleanupNotify(t) => t < |s.threads| && s.threads[t].CleanupDrop?
    case Close(t) => t < |s.threads| && (s.threads[t].Closing? || s.threads[t].CleanupClose?)
    case Unmap(t) => t < |s.threads| && s.threads[t].CleanupDelete?
    case Die(a) => a < |s.agents|
    case Placeholder => s.mapped.None?
  }

  function SetPc(s: Sys, t: nat, pc: Pc): (r: Sys)
    requires Wf(s) && t < |s.threads| && WfPc(pc, |s.states|, |s.agents|)
    ensures Wf(r)
  {
    s.(threads := s.threads[t := pc])
  }

  function Spawn(s: Sys, pc: Pc): (r: Sys)
    requires Wf(s) && WfPc(pc, |s.states|, |s.agents|)
    ensures Wf(r)
  {
    s.(threads := s.threads + [pc])
  }

  function SetState(s: Sys, sid: nat, st: InteractiveState): (r: Sys)
    requires Wf(s) && sid < |s.states| && WfState(st, |s.agents|)
    ensures Wf(r)
  {
    s.(states := s.states[sid := st])
  }

  function SetQueue(s: Sys, sid: nat, queue: seq<Ticket>): (r: Sys)
    requires Wf(s) && sid < |s.states| && |queue| <= MAX_QUEUED
    ensures Wf(r)
  {
    SetState(s, sid, s.states[sid].(pending := queue))
  }

  function SetMapped(s: Sys, mapped: Option<nat>): (r: Sys)
    requires Wf(s) && (mapped.Some? ==> mapped.value < |s.states|)
    ensures Wf(r)
  {
    s.(mapped := mapped)
  }

  function SetBusy(s: Sys, busy: bool): (r: Sys)
    requires Wf(s)
    ensures Wf(r)
  {
    s.(busy := busy)
  }

  function AddFates(s: Sys, fates: seq<Fate>): (r: Sys)
    requires Wf(s)
    ensures Wf(r)
  {
    s.(log := s.log + fates)
  }

  function AllDropped(queue: seq<Ticket>): seq<Fate> {
    seq(|queue|, i requires 0 <= i < |queue| => Dropped(queue[i]))
  }

  /** notifyDroppedQueuedMessages: every queued sender is told, the queue is empty. */
  function NotifyDropped(s: Sys, sid: nat): (r: Sys)
    requires Wf(s) && sid < |s.states|
    ensures Wf(r)
  {
    AddFates(SetQueue(s, sid, []), AllDropped(s.states[sid].pending))
  }

  function MapNew(s: Sys, st: InteractiveState): (r: Sys)
    requires Wf(s) && WfState(st, |s.agents|)
    ensures Wf(r)
  {
    s.(mapped := Some(|s.states|), states := s.states + [st])
  }

  function CloseAgent(s: Sys, a: nat): (r: Sys)
    requires Wf(s) && a < |s.agents|
    ensures Wf(r)
  {
    s.(agents := s.agents[a := AgentSession(false, s.agents[a].closes + 1)])
  }

  function MarkStopped(s: Sys, sid: nat): (r: Sys)
    requires Wf(s) && sid < |s.states|
    ensures Wf(r)
  {
    SetState(s, sid, s.states[sid].(stopped := true))
  }

  function StartAgent(s: Sys): (r: Sys)
    requires Wf(s)
    ensures Wf(r)
  {
    s.(agents := s.agents + [AgentSession(true, 0)])
  }

  /** A fresh state takes the map entry and adopts the queue of the state it replaces. */
  function Replace(s: Sys, t: nat, started: bool): (r: Sys)
    requires Wf(s) && t < |s.threads|
    ensures Wf(r)
  {
    var queue := if s.mapped.Some? then s.states[s.mapped.value].pending else [];
    var s1 := if s.mapped.Some? then SetQueue(s, s.mapped.value, []) else s;
    var s2 := if started then StartAgent(s1) else s1;
    var st := InteractiveState(if started then Some(|s.agents|) else None, queue, false);
    SetPc(MapNew(s2, st), t, Prepared(|s.states|))
  }

  /** A live agent of another conversation is closed and its state leaves the map first. */
  function Recycle(s: Sys): (r: Sys)
    requires Wf(s) && s.mapped.Some? && AgentAlive(s, s.mapped.value)
    ensures Wf(r)
  {
    SetMapped(CloseAgent(MarkStopped(s, s.mapped.value), s.states[s.mapped.value].agent.value), None)
  }

  function Acquired(s: Sys, t: nat, started: bool, mismatch: bool): (r: Sys)
    requires Wf(s) && t < |s.threads|
    ensures Wf(r)
  {
    if s.mapped.Some? && AgentAlive(s, s.mapped.value) then
      if mismatch then Replace(Recycle(s), t, started) else SetPc(s, t, Prepared(s.mapped.value))
    else
      Replace(s, t, started)
  }

  predicate IsHandlerStep(e: Event) {
    e.Arrive? || e.Ensure? || e.Lookup? || e.Append? || e.Retry? || e.Acquire? || e.Begin?
  }

  /** A message handler, up to the point where it owns the session lock and has a state. */
  function HandlerStep(s: Sys, e: Event): (r: Sys)
    requires Wf(s) && Enabled(s, e) && IsHandlerStep(e)
    ensures Wf(r)
  {
    match e
    case Arrive =>
      if s.busy then Spawn(s, Queueing) else SetBusy(Spawn(s, Locked), true)
    case Ensure(t) =>
      SetPc(if s.mapped.None? then MapNew(s, InteractiveState(None, [], false)) else s, t, Starting)
    case Lookup(t) =>
      var found := s.mapped.Some? && (s.states[s.mapped.value].agent.None? || AgentAlive(s, s.mapped.value));
      SetPc(s, t, if found then Appending(s.mapped.value) else Done)
    case Append(t) =>
      var sid := s.threads[t].sid;
      var queue := s.states[sid].pending;
      if |queue| >= MAX_QUEUED then SetPc(s, t, Done)
      else SetPc(SetQueue(s, sid, queue + [s.accepted]), t, Appended).(accepted := s.accepted + 1)
    case Retry(t) =>
      if s.busy then SetPc(s, t, Done) else SetBusy(SetPc(s, t, Orphan), true)
    case Acquire(t, started, mismatch) =>
      Acquired(s, t, started, mismatch)
    case Begin(t) =>
      var sid := s.threads[t].sid;
      SetPc(s, t, if s.states[sid].agent.None? then Releasing else Running(sid))
  }

  predicate IsTurnStep(e: Event) {
    e.Result? || e.FailTurn? || e.EndTurn? || e.Drain? || e.Dispatch? || e.DropAll? || e.Release? || e.OrphanLookup?
  }

  /** The lock holder on a state: event loop, drain loop, orphan drain and early returns. */
  function TurnStep(s: Sys, e: Event): (r: Sys)
    requires Wf(s) && Enabled(s, e) && IsTurnStep(e)
    ensures Wf(r)
  {
    match e
    case Result(t) =>
      var sid := s.threads[t].sid;
      var queue := s.states[sid].pending;
      if queue == [] then SetPc(s, t, Draining(sid))
      else AddFates(SetQueue(s, sid, queue[1..]), [Dispatched(queue[0])])
    case FailTurn(t) =>
      NotifyDropped(s, s.threads[t].sid)
    case EndTurn(t) =>
      SetPc(s, t, Draining(s.threads[t].sid))
    case Drain(t) =>
      var sid := s.threads[t].sid;
      var queue := s.states[sid].pending;
      if queue == [] then SetBusy(SetPc(s, t, Done), false)
      else SetPc(SetQueue(s, sid, queue[1..]), t, Popped(sid, queue[0]))
    case Dispatch(t) =>
      var sid, k := s.threads[t].sid, s.threads[t].ticket;
      if AgentAlive(s, sid) then AddFates(SetPc(s, t, Running(sid)), [Dispatched(k)])
      else AddFates(SetPc(s, t, Dropping(sid)), [Dropped(k)])
    case DropAll(t) =>
      SetPc(NotifyDropped(s, s.threads[t].sid), t, Releasing)
    case Release(t) =>
      SetBusy(SetPc(s, t, Done), false)
    case OrphanLookup(t) =>
      SetPc(s, t, if s.mapped.None? then Releasing
                  else if AgentAlive(s, s.mapped.value) then Draining(s.mapped.value)
                  else Dropping(s.mapped.value))
  }

  predicate IsSideStep(e: Event) {
    e.CompressLookup? || e.CompressLock? || e.CompressEnd? || e.Die? || e.Placeholder?
  }

  /** /compress, agent death and the placeholders created by card commands. */
  function SideStep(s: Sys, e: Event): (r: Sys)
    requires Wf(s) && Enabled(s, e) && IsSideStep(e)
    ensures Wf(r)
  {
    match e
    case CompressLookup =>
      Spawn(s, CompressTry(s.mapped.value))
    case CompressLock(t) =>
      if s.busy then SetPc(s, t, Done) else SetBusy(SetPc(s, t, Compressing(s.threads[t].sid)), true)
    case CompressEnd(t, outcome) =>
      var sid := s.threads[t].sid;
      SetPc(s, t, match outcome
                  case DrainQueue => Draining(sid)
                  case DropQueue => Dropping(sid)
                  case JustReturn => Releasing)
    case Die(a) =>
      s.(agents := s.agents[a := s.agents[a].(alive := false)])
    case Placeholder =>
      MapNew(s, InteractiveState(None, [], false))
  }

  /** The agent session is captured and taken out of the state, so that nobody else closes it. */
  function CleanupBegin(s: Sys, expected: Option<nat>): (r: Sys)
    requires Wf(s)
    ensures Wf(r)
  {
    if s.mapped.None? then Spawn(s, CleanupDelete(None, expected))
    else
      var sid := s.mapped.value;
      var st := s.states[sid];
      Spawn(SetState(s, sid, st.(agent := None)), CleanupDrop(sid, st.agent, expected))
  }

  function CleanupTell(s: Sys, t: nat): (r: Sys)
    requires Wf(s) && t < |s.threads| && s.threads[t].CleanupDrop?
    ensures Wf(r)
  {
    var pc := s.threads[t];
    SetPc(NotifyDropped(MarkStopped(s, pc.sid), pc.sid), t,
          if pc.captured.Some? then CleanupClose(pc.captured.value, Some(pc.sid), pc.expected)
          else CleanupDelete(Some(pc.sid), pc.expected))
  }

  predicate IsTeardownStep(e: Event) {
    e.Stop? || e.StopNotify? || e.Cleanup? || e.CleanupNotify? || e.Close? || e.Unmap?
  }

  /** /stop and cleanupInteractiveState. */
  function TeardownStep(s: Sys, e: Event): (r: Sys)
    requires Wf(s) && Enabled(s, e) && IsTeardownStep(e)
    ensures Wf(r)
  {
    match e
    case Stop =>
      var sid := s.mapped.value;
      Spawn(SetMapped(MarkStopped(s, sid), None), StopDrop(sid, s.states[sid].agent))
    case StopNotify(t) =>
      var pc := s.threads[t];
      SetPc(NotifyDropped(s, pc.sid), t, if pc.captured.Some? then Closing(pc.captured.value) else Done)
    case Cleanup(expected) =>
      CleanupBegin(s, expected)
    case CleanupNotify(t) =>
      CleanupTell(s, t)
    case Close(t) =>
      var pc := s.threads[t];
      if pc.Closing? then SetPc(CloseAgent(s, pc.agent), t, Done)
      else SetPc(CloseAgent(s, pc.agent), t, CleanupDelete(pc.closed, pc.expected))
    case Unmap(t) =>
      var expected := s.threads[t].expected;
      if s.mapped.Some? && expected.Some? && s.mapped != expected then SetPc(s, t, Done)
      else SetMapped(SetPc(s, t, Done), None)
  }

  /** One atomic step of the whole system. */
  function Step(s: Sys, e: Event): (r: Sys)
    requires Wf(s) && Enabled(s, e)
    ensures Wf(r)
  {
    if IsHandlerStep(e) then HandlerStep(s, e) else if IsTurnStep(e) then TurnStep(s, e)
    else if IsTeardownStep(e) then TeardownStep(s, e) else SideStep(s, e)
  }
}
