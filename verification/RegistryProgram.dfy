/** The registry class: its maps and sets updated in place, call by call. */
module RegistryProgram {
  import opened Wrappers
  import opened Registry

  class AgentAdapterRegistry {
    var now: nat
    var sessions: map<SessionId, Session>
    var commandQueues: map<SessionId, seq<CommandId>>
    var inFlightCommands: map<SessionId, set<CommandId>>
    var commandSessions: map<CommandId, SessionId>
    var commandWaiters: map<SessionId, seq<Waiter>>
    var orphanedCommandIds: set<CommandId>
    var delayedTerminalEvents: map<SessionId, Terminal>
    var terminalRetryTimers: set<SessionId>
    /** The accepted sources, kept by the state store. */
    var checkpoints: map<SessionId, Checkpoint>
    var disposed: bool
    var nextId: nat
    ghost var log: Log

    ghost function View(): World
      reads this
    {
      World(now, sessions, disposed, nextId,
            Work(commandQueues, inFlightCommands, commandSessions, commandWaiters, orphanedCommandIds),
            Stages(delayedTerminalEvents, terminalRetryTimers, checkpoints), log)
    }

    constructor ()
      ensures View() == Init
    {
      now, sessions, disposed, nextId := 0, map[], false, 0;
      commandQueues, inFlightCommands, commandSessions := map[], map[], map[];
      commandWaiters, orphanedCommandIds := map[], {};
      delayedTerminalEvents, terminalRetryTimers, checkpoints := map[], {}, map[];
      log := Log(map[], {}, map[], [], []);
    }

    /** The registry of the next process, over the accepted sources that the last one left. */
    constructor Restarted(before: AgentAdapterRegistry)
      ensures View() == Next(before.View(), Restart)
    {
      now, sessions, disposed, nextId := before.now, map[], false, before.nextId;
      commandQueues, inFlightCommands, commandSessions := map[], map[], map[];
      commandWaiters, orphanedCommandIds := map[], {};
      delayedTerminalEvents, terminalRetryTimers, checkpoints := map[], {}, before.checkpoints;
      log := before.log.(lost := before.log.lost + set s | s in before.sessions :: before.sessions[s].lease);
    }

    // ----- Terminal Events

    method HasPendingCommandWork(s: SessionId) returns (work: bool)
      ensures work == HasWork(View(), s)
    {
      work := (s in commandQueues && commandQueues[s] != []) || (s in inFlightCommands && inFlightCommands[s] != {});
    }

    method CancelTerminalRetry(s: SessionId)
      modifies this`delayedTerminalEvents, this`terminalRetryTimers
      ensures View() == old(View()).(stages := Unstage(old(View()).stages, s))
    {
      terminalRetryTimers := terminalRetryTimers - {s};
      delayedTerminalEvents := delayedTerminalEvents - {s};
    }

    method ScheduleTerminalRetry(s: SessionId)
      modifies this`terminalRetryTimers
      ensures View() == Attempted(old(View()), s, Retried, 0)
    {
      if disposed || s !in delayedTerminalEvents || s in terminalRetryTimers { return; }
      terminalRetryTimers := terminalRetryTimers + {s};
    }

    /** commitPendingTerminal, or the retry that promotePendingTerminal arranges where queuePendingEvent throws. */
    method PromotePendingTerminal(s: SessionId, eventId: nat, works: bool)
      modifies this`delayedTerminalEvents, this`terminalRetryTimers, this`log
      ensures View() == Attempted(old(View()), s, if works then Committed else Retried, eventId)
    {
      if works {
        CancelTerminalRetry(s);
        log := log.(committed := log.committed + [(s, eventId)]);
      } else {
        ScheduleTerminalRetry(s);
      }
    }

    method FlushDelayedTerminalEvent(s: SessionId, works: bool)
      modifies this`delayedTerminalEvents, this`terminalRetryTimers, this`log
      ensures View() == Flush(old(View()), s, works)
    {
      var work := HasPendingCommandWork(s);
      if work || s !in delayedTerminalEvents { return; }
      if s !in sessions {
        CancelTerminalRetry(s);
        return;
      }
      PromotePendingTerminal(s, delayedTerminalEvents[s].eventId, works);
    }

    method RetryTimerFires(s: SessionId, works: bool)
      modifies this`delayedTerminalEvents, this`terminalRetryTimers, this`log
      ensures View() == Next(old(View()), RetryFires(s, works))
    {
      if s !in terminalRetryTimers { return; }
      terminalRetryTimers := terminalRetryTimers - {s};
      if !disposed { FlushDelayedTerminalEvent(s, works); }
    }

    // ----- Owners

    /** Every command bound to the session is orphaned and unbound. */
    method OrphanCommands(s: SessionId)
      modifies this`commandSessions, this`orphanedCommandIds
      ensures var mine := set c | c in old(commandSessions) && old(commandSessions)[c] == s;
              commandSessions == old(commandSessions) - mine && orphanedCommandIds == old(orphanedCommandIds) + mine
    {
      var todo := commandSessions.Keys;
      ghost var all := commandSessions;
      while todo != {}
        invariant todo <= all.Keys
        invariant commandSessions == map c | c in all && (c in todo || all[c] != s) :: all[c]
        invariant orphanedCommandIds == old(orphanedCommandIds) + set c | c in all && c !in todo && all[c] == s
      {
        var c :| c in todo;
        todo := todo - {c};
        if commandSessions[c] == s {
          orphanedCommandIds := orphanedCommandIds + {c};
          commandSessions := commandSessions - {c};
        }
      }
      assert (set c | c in all && all[c] == s) == set c | c in all && c !in todo && all[c] == s;
    }

    /** loseOwnership. */
    method LoseOwner(s: SessionId)
      requires s in sessions
      modifies this
      ensures View() == LoseOwnership(old(View()), s)
    {
      CancelTerminalRetry(s);
      checkpoints := checkpoints - {s};
      OrphanCommands(s);
      commandQueues, inFlightCommands := commandQueues - {s}, inFlightCommands - {s};
      log := log.(lost := log.lost + {sessions[s].lease});
      sessions := sessions - {s};
    }

    method RegisterSession(s: SessionId, r: Registration)
      modifies this
      ensures View() == Next(old(View()), Register(s, r))
    {
      if r.instance == "" || r.collides { return; }
      if s in sessions {
        if now > sessions[s].renewed + OWNER_LEASE_TTL {
          LoseOwner(s);
        } else if sessions[s].instance != r.instance {
          return;
        }
      }
      if !r.valid { return; }
      if r.cancelsTerminal { CancelTerminalRetry(s); }
      if s in sessions {
        sessions := sessions[s := sessions[s].(renewed := now)];
      } else {
        log := log.(granted := log.granted[nextId := (s, r.instance)]);
        sessions := sessions[s := Session(r.instance, nextId, now)];
        nextId := nextId + 1;
      }
    }

    method UnregisterSession(s: SessionId) returns (removed: bool)
      modifies this
      ensures View() == Next(old(View()), Unregister(s)) && removed == (s in old(sessions))
    {
      removed := s in sessions;
      if removed { LoseOwner(s); }
    }

    /** assertCurrentOwner; false where it throws. */
    method AssertCurrentOwner(s: SessionId, instance: string, lease: nat) returns (ok: bool)
      modifies this
      ensures ok == Authorises(old(View()), s, instance, lease)
      ensures View() == Next(old(View()), AssertOwner(s, instance, lease))
      ensures ok ==> View() == old(View())
    {
      if s !in sessions { return false; }
      if now > sessions[s].renewed + OWNER_LEASE_TTL {
        LoseOwner(s);
        return false;
      }
      ok := sessions[s].instance == instance && sessions[s].lease == lease;
    }

    method HeartbeatSession(s: SessionId, valid: bool, contextChanged: bool)
      modifies this
      ensures View() == Next(old(View()), Heartbeat(s, valid, contextChanged))
    {
      if s !in sessions || !valid { return; }
      if contextChanged { CancelTerminalRetry(s); }
      sessions := sessions[s := sessions[s].(renewed := now)];
    }

    /** listSessions: exactly the owners whose lease has not expired, the others having lost theirs. */
    method ListSessions() returns (active: set<SessionId>)
      modifies this
      ensures active == sessions.Keys == set s | s in old(sessions) && !Expired(old(View()), s)
      ensures forall s :: s in sessions ==> sessions[s] == old(sessions[s])
      ensures checkpoints == old(checkpoints) - set s | s in old(sessions) && Expired(old(View()), s)
      ensures log.lost
              == old(log.lost) + set s | s in old(sessions) && Expired(old(View()), s) :: old(sessions[s].lease)
    {
      active := {};
      var todo := sessions.Keys;
      while todo != {}
        invariant todo <= sessions.Keys <= old(sessions.Keys) && now == old(now)
        invariant forall s :: s in sessions ==> sessions[s] == old(sessions[s])
        invariant active == sessions.Keys - todo
        invariant sessions.Keys == set s | s in old(sessions) && (s in todo || !Expired(old(View()), s))
        invariant checkpoints == old(checkpoints) - set s | s in old(sessions) && s !in todo && Expired(old(View()), s)
        invariant log.lost == old(log.lost)
                  + set s | s in old(sessions) && s !in todo && Expired(old(View()), s) :: old(sessions[s].lease)
      {
        var s :| s in todo;
        ghost var before, lost := todo, log.lost;
        ghost var lease := sessions[s].lease;
        todo := todo - {s};
        if now > sessions[s].renewed + OWNER_LEASE_TTL {
          LoseOwner(s);
          assert log.lost == lost + {lease};
        } else {
          active := active + {s};
        }
      }
    }

    // ----- Commands

    method MarkCommandInFlight(s: SessionId, c: CommandId)
      modifies this`inFlightCommands, this`commandSessions
      ensures View() == old(View()).(work := MarkInFlight(old(View()).work, s, c))
    {
      commandSessions := commandSessions[c := s];
      var current := if s in inFlightCommands then inFlightCommands[s] else {};
      inFlightCommands := inFlightCommands[s := current + {c}];
    }

    /** enqueueCommand: to the first waiting poll, or into the queue. */
    method EnqueueCommand(s: SessionId, c: CommandId)
      modifies this
      ensures View() == Next(old(View()), Enqueue(s, c))
    {
      if disposed || s !in sessions { return; }
      commandSessions := commandSessions[c := s];
      log := log.(home := log.home[c := s]);
      if s in commandWaiters && commandWaiters[s] != [] {
        var waiter := commandWaiters[s][0];
        if |commandWaiters[s]| == 1 { commandWaiters := commandWaiters - {s}; }
        else { commandWaiters := commandWaiters[s := commandWaiters[s][1..]]; }
        MarkCommandInFlight(s, c);
        log := log.(handed := log.handed + [Handover(c, s, waiter.lease, sessions[s].lease)]);
      } else {
        var queue := if s in commandQueues then commandQueues[s] else [];
        commandQueues := commandQueues[s := queue + [c]];
      }
    }

    /** The head of the queue, now in flight. */
    method ShiftQueue(s: SessionId, lease: nat) returns (c: CommandId)
      requires s in sessions && s in commandQueues && commandQueues[s] != []
      modifies this`commandQueues, this`inFlightCommands, this`commandSessions, this`log
      ensures c == old(commandQueues[s][0])
      ensures View() == Hand(WithQueue(old(View()), s, old(commandQueues[s][1..])), s, c, lease)
    {
      c := commandQueues[s][0];
      if |commandQueues[s]| == 1 { commandQueues := commandQueues - {s}; }
      else { commandQueues := commandQueues[s := commandQueues[s][1..]]; }
      MarkCommandInFlight(s, c);
      log := log.(handed := log.handed + [Handover(c, s, lease, sessions[s].lease)]);
    }

    /** The server's poll route: the owner check, then dequeueCommand. */
    method PollCommand(s: SessionId, instance: string, lease: nat, waits: bool) returns (command: Option<CommandId>)
      modifies this
      ensures View() == Next(old(View()), Poll(s, instance, lease, waits))
      ensures command.Some? <==>
                Authorises(old(View()), s, instance, lease) && !old(disposed) && Queue(old(View()), s) != []
      ensures command.Some? ==> command.value == Queue(old(View()), s)[0]
    {
      var ok := AssertCurrentOwner(s, instance, lease);
      if !ok || disposed { return None; }
      if s in commandQueues && commandQueues[s] != [] {
        var c := ShiftQueue(s, lease);
        return Some(c);
      }
      if waits {
        var waiters := if s in commandWaiters then commandWaiters[s] else [];
        commandWaiters := commandWaiters[s := waiters + [Waiter(nextId, lease)]];
        nextId := nextId + 1;
      }
      return None;
    }

    /** removeCommandWaiter: finds the waiter and takes it out. */
    method RemoveCommandWaiter(s: SessionId, id: nat)
      modifies this`commandWaiters
      ensures View() == WithWaiters(old(View()), s, Without(Waiters(old(View()), s), id))
    {
      if s !in commandWaiters { return; }
      var waiters := commandWaiters[s];
      var i := 0;
      while i < |waiters| && waiters[i].id != id
        invariant 0 <= i <= |waiters|
        invariant Without(waiters, id) == waiters[..i] + Without(waiters[i..], id)
      {
        assert waiters[i..][1..] == waiters[i + 1..] && waiters[..i + 1] == waiters[..i] + [waiters[i]];
        i := i + 1;
      }
      if i < |waiters| {
        assert waiters[i..][1..] == waiters[i + 1..];
        waiters := waiters[..i] + waiters[i + 1..];
      } else {
        assert waiters[..i] + [] == waiters;
      }
      commandWaiters := if waiters == [] then commandWaiters - {s} else commandWaiters[s := waiters];
    }

    method ClearCommandInFlight(s: SessionId, c: CommandId, works: bool)
      modifies this`inFlightCommands, this`delayedTerminalEvents, this`terminalRetryTimers, this`log
      ensures View() == ClearInFlight(old(View()), s, c, works)
    {
      if s !in inFlightCommands {
        assert WithInFlight(View(), s, {}) == View();
        FlushDelayedTerminalEvent(s, works);
        return;
      }
      var current := inFlightCommands[s] - {c};
      inFlightCommands := if current == {} then inFlightCommands - {s} else inFlightCommands[s := current];
      FlushDelayedTerminalEvent(s, works);
    }

    method ResolveCommand(s: SessionId, c: CommandId, matches: bool, works: bool)
      modifies this
      ensures View() == Next(old(View()), Resolve(s, c, matches, works))
    {
      if disposed || !matches || c !in commandSessions || commandSessions[c] != s || s !in sessions { return; }
      ClearCommandInFlight(s, c, works);
      commandSessions := commandSessions - {c};
    }

    method AbandonCommand(c: CommandId, works: bool)
      modifies this
      ensures View() == Next(old(View()), Abandon(c, works))
    {
      if c !in commandSessions { return; }
      ClearCommandInFlight(commandSessions[c], c, works);
      commandSessions := commandSessions - {c};
    }

    // ----- Producer Events

    /** Staging an Event and committing it, unless the session has work. */
    method StageEvent(s: SessionId, source: Option<(string, nat)>, t: Terminal, accepts: bool, works: bool,
                      duplicate: bool)
        returns (response: Response)
      modifies this
      ensures var d := Stage(t, duplicate, false, false, accepts);
              var attempt := FirstAttempt(old(View()), s, works);
              View() == Attempted(StagedIn(old(View()), s, source, d), s, attempt, t.eventId)
              && response == if attempt.Retried? then CommitFailed else Accepted(t.eventId, duplicate)
    {
      delayedTerminalEvents := delayedTerminalEvents[s := t];
      if accepts && source.Some? {
        checkpoints := checkpoints[s := Checkpoint(source.value.0, source.value.1, t.eventId, t.fingerprint)];
      }
      var work := HasPendingCommandWork(s);
      if work { return Accepted(t.eventId, duplicate); }
      PromotePendingTerminal(s, t.eventId, works);
      return if works then Accepted(t.eventId, duplicate) else CommitFailed;
    }

    /** A push that the session's checkpoint does not decide. */
    method PushPlanned(s: SessionId, r: PushRequest, evidence: Evidence, works: bool) returns (response: Response)
      requires Decide(View(), s, r, evidence) == Planned(View(), s, r, evidence)
      modifies this
      ensures (View(), response) == OnPush(old(View()), s, r, evidence, works)
    {
      var live := if s in delayedTerminalEvents then Some(delayedTerminalEvents[s]) else None;
      var plan := PlanTerminal(live, r.fingerprint, evidence);
      match plan
      case LiveDuplicate =>
        response := StageEvent(s, r.source, live.value, false, works, true);
      case ReservationWithoutTuple(eventId) =>
        response := Accepted(eventId, true);
      case StageReserved(eventId) =>
        response := StageEvent(s, r.source, Terminal(r.fingerprint, eventId), true, works, false);
      case _ =>
        response := PushNew(s, r.source, r.fingerprint, plan.CancelOlderAndReserve?, works);
    }

    /** A tuple with the next Event id, in place of an older staged one if there is one. */
    method PushNew(s: SessionId, source: Option<(string, nat)>, fingerprint: string, older: bool, works: bool)
        returns (response: Response)
      modifies this
      ensures var d := Stage(Terminal(fingerprint, old(nextId)), false, true, older, true);
              var attempt := FirstAttempt(old(View()), s, works);
              View() == Attempted(StagedIn(old(View()), s, source, d), s, attempt, old(nextId))
              && response == if attempt.Retried? then CommitFailed else Accepted(old(nextId), false)
    {
      var eventId := nextId;
      nextId := nextId + 1;
      if older { CancelTerminalRetry(s); }
      ghost var mid := View();
      var t := Terminal(fingerprint, eventId);
      assert mid.stages.delayed[s := t] == old(View()).stages.delayed[s := t];
      assert StagedIn(mid, s, source, Stage(t, false, false, false, true))
             == StagedIn(old(View()), s, source, Stage(t, false, true, older, true));
      assert FirstAttempt(mid, s, works) == FirstAttempt(old(View()), s, works);
      response := StageEvent(s, source, t, true, works, false);
    }

    /** pushEventSource, and pushEvent where the request has no source. */
    method PushEvent(s: SessionId, r: PushRequest, evidence: Evidence, works: bool) returns (response: Response)
      modifies this
      ensures (View(), response) == OnPush(old(View()), s, r, evidence, works)
    {
      if s !in sessions || !r.matches { return Invalid; }
      if r.source.Some? && s in checkpoints {
        var checkpoint := checkpoints[s];
        if r.source.value.0 == checkpoint.producerId && r.source.value.1 == checkpoint.order {
          if checkpoint.fingerprint != r.fingerprint { return OrderConflict; }
          if evidence.reservation.None? { return Accepted(checkpoint.eventId, true); }
          if evidence.reservation.value != checkpoint.eventId || !evidence.tuple { return Invalid; }
          response := StageEvent(s, r.source, Terminal(r.fingerprint, checkpoint.eventId), false, works, true);
          return;
        }
        if r.source.value.1 <= checkpoint.order { return OrderConflict; }
      }
      response := PushPlanned(s, r, evidence, works);
    }

    method ClearCommands()
      modifies this`commandWaiters, this`commandQueues, this`inFlightCommands, this`commandSessions,
          this`orphanedCommandIds
      ensures View() == old(View()).(work := Work(map[], map[], map[], map[], {}))
    {
      commandWaiters, commandQueues, inFlightCommands, commandSessions := map[], map[], map[], map[];
      orphanedCommandIds := {};
    }

    method DisposeRegistry()
      modifies this
      ensures View() == Next(old(View()), Dispose)
    {
      if disposed { return; }
      disposed, terminalRetryTimers, delayedTerminalEvents := true, {}, map[];
      ClearCommands();
    }
  }
}
