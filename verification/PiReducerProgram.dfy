/** The Pi extension's handlers, updating the shared reducer state, the timers and the outstanding pushes in place. */
module PiReducerProgram {
  import opened Wrappers
  import opened PiReducer

  class PiExtension {
    var state: Option<Reducer>
    var deliverySequence: nat
    var timers: map<nat, Timer>
    var pushes: map<nat, Push>
    var handling: set<nat>
    var fingerprints: set<string>
    var nextId: nat
    /** History only: no handler reads these. */
    var epoch: nat
    var published: seq<Push>
    var dropped: set<nat>

    ghost function View(): World
      reads this
    {
      World(state, deliverySequence, timers, pushes, handling, fingerprints, epoch, nextId, published, dropped)
    }

    constructor ()
      ensures View() == Init
    {
      state, deliverySequence, timers, pushes := None, 0, map[], map[];
      handling, fingerprints, nextId := {}, {}, 0;
      epoch, published, dropped := 0, [], {};
    }

    method ClearQuietTimer()
      modifies this`state, this`timers
      ensures View() == ClearQuiet(old(View()))
    {
      if state.None? || state.value.quiet.None? { return; }
      timers := timers - {state.value.quiet.value};
      state := Some(state.value.(quiet := None));
    }

    method InvalidatePendingTerminal()
      modifies this`state, this`timers
      ensures View() == Invalidate(old(View()))
    {
      ClearQuietTimer();
      if state.Some? { state := Some(state.value.(pending := None, inFlight := false)); }
    }

    method SchedulePendingTerminal()
      modifies this`state, this`timers, this`nextId
      ensures View() == Schedule(old(View()))
    {
      if state.None? { return; }
      ClearQuietTimer();
      timers := timers[nextId := Timer(state.value.sessionId, state.value.flow)];
      state := Some(state.value.(quiet := Some(nextId)));
      nextId := nextId + 1;
    }

    method BeginNewLowLevelRun()
      requires state.Some?
      modifies this`state, this`timers
      ensures View() == BeginRun(old(View()))
    {
      InvalidatePendingTerminal();
      var r := state.value;
      r := r.(agentEnd := None, emitted := false, flow := r.flow + 1, generations := r.generations + 1);
      r := r.(current := Some(r.generations), settled := None, loopRunning := true);
      state := Some(r);
    }

    method ClearBranchSensitiveState()
      requires state.Some?
      modifies this`state, this`timers, this`deliverySequence
      ensures View() == ClearBranch(old(View()))
    {
      deliverySequence := deliverySequence + 1;
      InvalidatePendingTerminal();
      var r := state.value;
      r := r.(agentEnd := None, emitted := false, candidate := None, flow := r.flow + 1);
      state := Some(r.(loopRunning := false, current := None, settled := None));
    }

    method SessionStarts(sessionId: string, leaf: Option<string>)
      modifies this
      ensures View() == Next(old(View()), SessionStart(sessionId, leaf))
    {
      deliverySequence := deliverySequence + 1;
      ClearQuietTimer();
      state := Some(FreshReducer(sessionId, leaf));
      epoch := epoch + 1;
    }

    method SessionShutsDown()
      modifies this
      ensures View() == Next(old(View()), SessionShutdown)
    {
      deliverySequence := deliverySequence + 1;
      ClearQuietTimer();
      state := None;
      fingerprints := {};
    }

    method ReportPendingHandleAfterLocalInput()
      modifies this`state, this`handling
      ensures View() == ReportHandled(old(View()))
    {
      if state.None? || state.value.candidate.None? { return; }
      var candidate := state.value.candidate.value;
      if candidate.reported || state.value.cursor <= candidate.observedCursor { return; }
      state := Some(state.value.(candidate := Some(candidate.(reported := true))));
      handling := handling + {candidate.id};
    }

    method OnInputEvent(streaming: bool)
      modifies this
      ensures View() == Next(old(View()), Input(streaming))
    {
      if state.None? { return; }
      state := Some(state.value.(cursor := state.value.cursor + 1));
      ReportPendingHandleAfterLocalInput();
      if streaming { return; }
      InvalidatePendingTerminal();
      var r := state.value;
      r := r.(agentEnd := None, flow := r.flow + 1, loopRunning := false);
      state := Some(r.(current := None, settled := None));
    }

    method OnAgentStart(own: bool, leaf: Option<string>)
      modifies this
      ensures View() == Next(old(View()), AgentStart(own, leaf))
    {
      if !own || state.None? { return; }
      state := Some(MoveLeaf(state.value, leaf));
      BeginNewLowLevelRun();
    }

    method OnAgentEndEvent(own: bool, leaf: Option<string>, assistantFound: bool, stop: StopReason)
      modifies this
      ensures View() == Next(old(View()), AgentEnded(own, leaf, assistantFound, stop))
    {
      if !own || state.None? { return; }
      state := Some(MoveLeaf(state.value, leaf));
      var r := state.value;
      if !r.loopRunning || r.current.None? { return; }
      state := Some(r.(loopRunning := false, agentEnd := Some(AgentEnd(assistantFound, stop, r.current.value))));
    }

    method SubmitTerminalCandidate(run: nat, fingerprint: Option<string>)
      modifies this
      ensures View() == Submit(old(View()), run, fingerprint)
    {
      if state.None? || state.value.emitted || state.value.pending.Some? { return; }
      state := Some(state.value.(pending := Some(Alert(nextId, state.value.flow, run, fingerprint))));
      nextId := nextId + 1;
      SchedulePendingTerminal();
    }

    method OnAgentSettled(own: bool, fingerprint: string)
      modifies this
      ensures View() == Next(old(View()), AgentSettled(own, fingerprint))
    {
      if !own || state.None? || state.value.pending.Some? || state.value.current.None? { return; }
      var run := state.value.current.value;
      if state.value.loopRunning {
        state := Some(state.value.(loopRunning := false, current := None, agentEnd := None));
        return;
      }
      var result := state.value.agentEnd;
      state := Some(state.value.(agentEnd := None, current := None));
      if result.None? || result.value.run != run { return; }
      state := Some(state.value.(settled := Some(run)));
      if !result.value.assistantFound || state.value.emitted { return; }
      if result.value.stop.Aborted? {
        state := Some(state.value.(emitted := true));
        return;
      }
      if result.value.stop.OtherReason? {
        SubmitTerminalCandidate(run, None);
        return;
      }
      if fingerprint in fingerprints { return; }
      SubmitTerminalCandidate(run, Some(fingerprint));
    }

    method OnSessionTree(own: bool, leaf: Option<string>)
      modifies this
      ensures View() == Next(old(View()), TreeSwitch(own, leaf))
    {
      if !own || state.None? { return; }
      state := Some(MoveLeaf(state.value, leaf));
      ClearBranchSensitiveState();
    }

    method MarkFingerprintEmitted(fingerprint: Option<string>)
      modifies this`fingerprints
      ensures View() == Mark(old(View()), fingerprint)
    {
      if fingerprint.Some? { fingerprints := fingerprints + {fingerprint.value}; }
    }

    /** emitTerminalAlert up to its await. */
    method EmitTerminalAlert(alert: Alert, publish: bool)
      modifies this
      ensures View() == Emit(old(View()), alert, publish)
    {
      if state.None? || state.value.pending != Some(alert) || state.value.inFlight
         || state.value.flow != alert.flow || state.value.settled != Some(alert.run) { return; }
      if !publish {
        MarkFingerprintEmitted(alert.fingerprint);
        state := Some(state.value.(emitted := true, pending := None, inFlight := false, candidate := None));
        return;
      }
      var r := state.value;
      pushes := pushes[nextId :=
                       Push(alert, deliverySequence, r.sessionId, r.leaf, r.flow, r.settled, r.cursor, epoch)];
      nextId := nextId + 1;
      state := Some(r.(inFlight := true));
    }

    /** The quiet timer's callback: flushPendingTerminalIfStable with what the timer captured. */
    method QuietTimerFires(timer: nat, newWork: bool, publish: bool)
      modifies this
      ensures View() == Next(old(View()), Fire(timer, newWork, publish))
    {
      if timer !in timers { return; }
      var captured := timers[timer];
      timers := timers - {timer};
      if state.None? || state.value.sessionId != captured.sessionId || state.value.flow != captured.flow
         || state.value.pending.None? || state.value.settled != Some(state.value.pending.value.run)
         || state.value.loopRunning { return; }
      if newWork {
        InvalidatePendingTerminal();
        return;
      }
      var alert := state.value.pending.value;
      ClearQuietTimer();
      EmitTerminalAlert(alert, publish);
    }

    /** The `finally` of emitTerminalAlert. */
    method DeliveryEnds(push: Push)
      modifies this`state
      ensures View() == Answered(old(View()), push)
    {
      if state.Some? && state.value.pending == Some(push.alert) { state := Some(state.value.(inFlight := false)); }
    }

    /** emitTerminalAlert after a successful push. */
    method PushCompletes(id: nat)
      modifies this
      ensures View() == Next(old(View()), PushSucceeds(id))
    {
      if id !in pushes { return; }
      var push := pushes[id];
      pushes, published := pushes - {id}, published + [push];
      if state.None? || push.token != deliverySequence || state.value.sessionId != push.sessionId
         || state.value.leaf != push.leaf {
        DeliveryEnds(push);
        return;
      }
      MarkFingerprintEmitted(push.alert.fingerprint);
      if state.value.cursor > push.cursor {
        state := Some(state.value.(candidate := Some(Candidate(id, push.cursor, true))));
        handling := handling + {id};
      } else if state.value.pending == Some(push.alert) && state.value.flow == push.flow
                && state.value.settled == push.settled {
        state := Some(state.value.(emitted := true, pending := None,
                                   candidate := Some(Candidate(id, push.cursor, false))));
      }
      DeliveryEnds(push);
    }

    /** emitTerminalAlert after a failed push. */
    method PushThrows(id: nat)
      modifies this
      ensures View() == Next(old(View()), PushFails(id))
    {
      if id !in pushes { return; }
      var push := pushes[id];
      pushes := pushes - {id};
      if state.Some? && push.token == deliverySequence && state.value.sessionId == push.sessionId
         && state.value.leaf == push.leaf && state.value.pending == Some(push.alert)
         && state.value.flow == push.flow && state.value.settled == push.settled {
        SchedulePendingTerminal();
      } else {
        dropped := dropped + {push.alert.serial};
      }
      DeliveryEnds(push);
    }

    /** reportHandledEvent after its answer. */
    method HandleAnswered(candidate: nat, ok: bool)
      modifies this
      ensures View() == Next(old(View()), if ok then HandleSucceeds(candidate) else HandleFails(candidate))
    {
      if candidate !in handling { return; }
      handling := handling - {candidate};
      if state.None? || state.value.candidate.None? || state.value.candidate.value.id != candidate { return; }
      var reported := state.value.candidate.value.(reported := false);
      state := Some(state.value.(candidate := if ok then None else Some(reported)));
    }
  }
}
