/**
 The critical sections of the session queue as they run in place (core/engine.go,
 core/session.go).  Each method of `Session` and `StateCell` is the body of one mutex section;
 `Engine` runs them on its objects and is proved to take the steps of `SessionQueue.Step`.
 */
module SessionCells {
  import opened Wrappers
  import opened SessionQueue

  // ----- What each section does to the state -----

  function Enqueued(st: InteractiveState, message: Ticket): InteractiveState {
    if |st.pending| >= MAX_QUEUED then st else st.(pending := st.pending + [message])
  }

  /** The first queued message leaves; an empty queue stays empty. */
  function Taken(st: InteractiveState): InteractiveState {
    if st.pending == [] then st else st.(pending := st.pending[1..])
  }

  function Emptied(st: InteractiveState): InteractiveState {
    st.(pending := [])
  }

  class Session {
    var busy: bool

    constructor ()
      ensures !busy
    {
      busy := false;
    }

    method TryLock() returns (ok: bool)
      modifies this
      ensures ok == !old(busy) && busy
    {
      if busy {
        return false;
      }
      busy := true;
      ok := true;
    }

    method Unlock()
      modifies this
      ensures !busy
    {
      busy := false;
    }
  }

  class StateCell {
    var agent: Option<nat>
    var pendingMessages: seq<Ticket>
    var stopped: bool

    constructor (agent: Option<nat>)
      ensures View() == InteractiveState(agent, [], false)
    {
      this.agent := agent;
      pendingMessages, stopped := [], false;
    }

    function View(): InteractiveState
      reads this
    {
      InteractiveState(agent, pendingMessages, stopped)
    }

    /** The section of queueMessageForBusySession under state.mu. */
    method Enqueue(message: Ticket) returns (ok: bool)
      modifies this
      ensures ok == (|old(pendingMessages)| < MAX_QUEUED)
      ensures View() == Enqueued(old(View()), message)
    {
      if |pendingMessages| >= MAX_QUEUED {
        return false;
      }
      pendingMessages := pendingMessages + [message];
      ok := true;
    }

    /** What the event loop does under state.mu after a result. */
    method Take() returns (next: Option<Ticket>)
      modifies this
      ensures View() == Taken(old(View()))
      ensures next == if old(pendingMessages) == [] then None else Some(old(pendingMessages)[0])
    {
      if |pendingMessages| == 0 {
        return None;
      }
      next := Some(pendingMessages[0]);
      pendingMessages := pendingMessages[1..];
    }

    /**
     The head of the drain loop: "the queue is empty" and "the session is unlocked" are one
     section, so no append can come in between.
     */
    method TakeOrUnlock(session: Session) returns (next: Option<Ticket>)
      modifies this, session
      ensures View() == Taken(old(View()))
      ensures session.busy == (old(pendingMessages) != [] && old(session.busy))
      ensures next == if old(pendingMessages) == [] then None else Some(old(pendingMessages)[0])
    {
      if |pendingMessages| == 0 {
        session.Unlock();
        return None;
      }
      next := Some(pendingMessages[0]);
      pendingMessages := pendingMessages[1..];
    }

    /** The section of notifyDroppedQueuedMessages under state.mu. */
    method TakeAll() returns (remaining: seq<Ticket>)
      modifies this
      ensures remaining == old(pendingMessages)
      ensures View() == Emptied(old(View()))
    {
      remaining := pendingMessages;
      pendingMessages := [];
    }

    method MarkStopped()
      modifies this
      ensures View() == old(View()).(stopped := true)
    {
      if stopped {
        return;
      }
      stopped := true;
    }

    /** adoptPendingFromPlaceholder; `this` is the new state, `existing` the map entry it replaces. */
    method AdoptPendingFrom(existing: StateCell?)
      modifies this, existing
      ensures existing == null || existing == this ==> View() == old(View())
      ensures existing != null && existing != this && old(existing.pendingMessages) == [] ==>
                View() == old(View()) && existing.View() == old(existing.View())
      ensures existing != null && existing != this && old(existing.pendingMessages) != [] ==>
                View() == old(View()).(pending := old(existing.pendingMessages)) &&
                existing.View() == Emptied(old(existing.View()))
    {
      if existing == null || existing == this {
        return;
      }
      if |existing.pendingMessages| > 0 {
        pendingMessages := existing.pendingMessages;
        existing.pendingMessages := [];
      }
    }
  }

  /** A fresh state that adopts the queue of the one it replaces. */
  method ReplaceCell(existing: StateCell?, agent: Option<nat>) returns (state: StateCell)
    modifies existing
    ensures fresh(state) && !state.stopped && state.agent == agent
    ensures state.pendingMessages == if existing == null then [] else old(existing.pendingMessages)
    ensures existing != null ==> existing.View() == Emptied(old(existing.View()))
  {
    state := new StateCell(agent);
    state.AdoptPendingFrom(existing);
  }

  lemma AcquireReplaces(s: Sys, t: nat, started: bool)
    requires Wf(s) && Enabled(s, Acquire(t, started, false)) && (s.mapped.None? || !AgentAlive(s, s.mapped.value))
    ensures Step(s, Acquire(t, started, false)) == SessionQueue.Replace(s, t, started)
  {
  }

  /**
   One session key of the engine: its session, its entry of interactiveStates and every interactive state created
   so far.  Which goroutine stands where, the names of accepted messages and what became of them are ghost.
   */
  class Engine {
    const session: Session
    var interactiveStates: Option<nat>
    var cells: seq<StateCell>
    var agents: seq<AgentSession>
    ghost var threads: seq<Pc>
    ghost var accepted: nat
    ghost var log: seq<Fate>

    constructor ()
      ensures fresh(session) && Distinct() && View() == Init
    {
      session := new Session();
      interactiveStates, cells, agents, threads, accepted, log := None, [], [], [], 0, [];
    }

    /** No two states share an object. */
    ghost predicate Distinct()
      reads this
    {
      forall i, j :: 0 <= i < j < |cells| ==> cells[i] != cells[j]
    }

    ghost function States(): (r: seq<InteractiveState>)
      reads this, cells
      ensures |r| == |cells| && forall i :: 0 <= i < |cells| ==> r[i] == cells[i].View()
    {
      seq(|cells|, i requires 0 <= i < |cells| reads this, cells => cells[i].View())
    }

    ghost function View(): Sys
      reads this, session, cells
    {
      Sys(session.busy, interactiveStates, States(), agents, threads, accepted, log)
    }

    /** A message arrives and tries the session lock. */
    method Arrive() returns (locked: bool)
      requires Distinct() && Wf(View())
      modifies this, session
      ensures cells == old(cells) && View() == Step(old(View()), SessionQueue.Arrive)
      ensures locked == !old(session.busy)
    {
      locked := session.TryLock();
      threads := threads + [if locked then Locked else Queueing];
      assert States() == old(States());
    }

    /** queueMessageForBusySession after its lookup of state `sid`. */
    method QueueMessage(sid: nat, message: Ticket, ghost t: nat) returns (ok: bool)
      requires Distinct() && Wf(View()) && Enabled(View(), Append(t)) && threads[t].sid == sid && message == accepted
      modifies this, cells
      ensures cells == old(cells) && View() == Step(old(View()), Append(t))
      ensures ok == (|old(cells[sid].pendingMessages)| < MAX_QUEUED)
    {
      ok := cells[sid].Enqueue(message);
      threads := threads[t := if ok then Appended else Done];
      accepted := if ok then accepted + 1 else accepted;
      assert States() == old(States())[sid := Enqueued(old(States()[sid]), message)];
    }

    /** The second TryLock of a handler that has queued its message. */
    method RetryLock(ghost t: nat) returns (locked: bool)
      requires Distinct() && Wf(View()) && Enabled(View(), Retry(t))
      modifies this, session
      ensures cells == old(cells) && View() == Step(old(View()), Retry(t))
      ensures locked == !old(session.busy)
    {
      locked := session.TryLock();
      threads := threads[t := if locked then Orphan else Done];
      assert States() == old(States());
    }

    /** The event loop's consumer: the next turn starts at once, or the drain loop is entered. */
    method NextAfterResult(sid: nat, ghost t: nat) returns (next: Option<Ticket>)
      requires Distinct() && Wf(View()) && Enabled(View(), Result(t)) && threads[t].sid == sid
      modifies this, cells
      ensures cells == old(cells) && View() == Step(old(View()), Result(t))
      ensures next.None? <==> old(cells[sid].pendingMessages) == []
    {
      next := cells[sid].Take();
      threads := threads[t := if next.None? then Draining(sid) else threads[t]];
      log := if next.None? then log else log + [Dispatched(next.value)];
      assert States() == old(States())[sid := Taken(old(States()[sid]))];
    }

    /** The head of the drain loop. */
    method DrainNext(sid: nat, ghost t: nat) returns (next: Option<Ticket>)
      requires Distinct() && Wf(View()) && Enabled(View(), Drain(t)) && threads[t].sid == sid
      modifies this, session, cells
      ensures cells == old(cells) && View() == Step(old(View()), Drain(t))
      ensures next.None? ==> !session.busy
    {
      next := cells[sid].TakeOrUnlock(session);
      threads := threads[t := if next.None? then Done else Popped(sid, next.value)];
      assert States() == old(States())[sid := Taken(old(States()[sid]))];
    }

    /** notifyDroppedQueuedMessages on an early return: the senders to be told are those of the whole queue, in order. */
    method DropAll(sid: nat, ghost t: nat) returns (told: seq<Ticket>)
      requires Distinct() && Wf(View()) && Enabled(View(), SessionQueue.DropAll(t)) && threads[t].sid == sid
      modifies this, cells
      ensures cells == old(cells) && View() == Step(old(View()), SessionQueue.DropAll(t))
      ensures log == old(log) + AllDropped(told)
    {
      told := cells[sid].TakeAll();
      threads, log := threads[t := Releasing], log + AllDropped(told);
      assert States() == old(States())[sid := Emptied(old(States()[sid]))];
    }

    /** getOrCreateInteractiveStateWith when the map has no state or one whose agent is gone. */
    method Replace(started: bool, ghost t: nat) returns (sid: nat)
      requires Distinct() && Wf(View()) && Enabled(View(), Acquire(t, started, false))
      requires interactiveStates.None? || !AgentAlive(View(), interactiveStates.value)
      modifies this, cells
      ensures Distinct() && View() == Step(old(View()), Acquire(t, started, false))
      ensures sid == |old(cells)| && interactiveStates == Some(sid)
    {
      hide Step, HandlerStep, TurnStep, TeardownStep, SideStep;
      AcquireReplaces(View(), t, started);
      var existing := if interactiveStates.None? then null else cells[interactiveStates.value];
      var agent := if started then Some(|agents|) else None;
      var state := ReplaceCell(existing, agent);
      sid := |cells|;
      agents := if started then agents + [AgentSession(true, 0)] else agents;
      threads := threads[t := Prepared(sid)];
      interactiveStates, cells := Some(sid), cells + [state];
      assert States() == SessionQueue.Replace(old(View()), t, started).states;
    }
  }
}
