/** What single events do to the Pi reducer, each stated on the state before and after it. */
module PiReducerCalls {
  import opened Wrappers
  import opened PiReducer
  import opened PiReducerRuns

  // ----- agent_settled

  /** The run that ended last is the current one, and its own agent_end was consumed. */
  predicate Settles(w: World, own: bool) {
    own && w.reducer.Some?
    && var r := w.reducer.value;
       r.pending.None? && r.current.Some? && !r.loopRunning
       && r.agentEnd.Some? && r.agentEnd.value.run == r.current.value
  }

  /** It ended with an assistant's message, not aborted, nothing was emitted, and its text is not confirmed. */
  predicate Alerts(w: World, own: bool, fingerprint: string) {
    Settles(w, own)
    && var end := w.reducer.value.agentEnd.value;
       && end.assistantFound && !end.stop.Aborted? && !w.reducer.value.emitted
       && (end.stop.OtherReason? || fingerprint !in w.fingerprints)
  }

  /** agent_settled makes an alert exactly then: for the current run, with the text's fingerprint unless an error. */
  lemma SettledAlertsIff(w: World, own: bool, fingerprint: string)
    requires Reachable(w)
    ensures
      var w' := Next(w, AgentSettled(own, fingerprint));
      && (w'.reducer.Some? <==> w.reducer.Some?)
      && (w.reducer.Some? ==>
            var r, r' := w.reducer.value, w'.reducer.value;
            if Alerts(w, own, fingerprint)
            then && r'.pending == Some(Alert(w.nextId, r.flow, r.current.value,
                                             if r.agentEnd.value.stop.OtherReason? then None else Some(fingerprint)))
                 && r'.quiet.Some? && r'.quiet.value in w'.timers
                 && w'.timers[r'.quiet.value] == Timer(r.sessionId, r.flow)
            else r'.pending == r.pending && w'.timers == w.timers)
  {
    ReachableInv(w);
    if w.reducer.Some? && w.reducer.value.pending.None? { NoTimerWithoutAlert(w); }
  }

  /** What else agent_settled does: the run is over, settled if its agent_end was consumed, emitted if aborted. */
  lemma SettledIs(w: World, own: bool, fingerprint: string)
    requires Reachable(w) && own && w.reducer.Some? && w.reducer.value.pending.None? && w.reducer.value.current.Some?
    ensures
      var w' := Next(w, AgentSettled(own, fingerprint));
      && w'.reducer.Some?
      && var r, r' := w.reducer.value, w'.reducer.value;
         && r'.current.None? && !r'.loopRunning && r'.agentEnd.None?
         && r'.generations == r.generations && r'.flow == r.flow
         && r'.settled == (if Settles(w, own) then r.current else r.settled)
         && r'.emitted == (r.emitted || (Settles(w, own) && r.agentEnd.value.assistantFound
                                         && r.agentEnd.value.stop.Aborted?))
         && r'.leaf == r.leaf && r'.cursor == r.cursor && r'.candidate == r.candidate
  {
    var fate := SettlementOf(w, fingerprint);
    if fate.SettledWithAlert? {
      SubmitKeeps(With(w, AfterSettlement(w.reducer.value, fate)), w.reducer.value.current.value, fate.fingerprint);
    }
  }

  lemma SubmitKeeps(w: World, run: nat, fingerprint: Option<string>)
    requires w.reducer.Some?
    ensures var w' := Submit(w, run, fingerprint);
            && w'.reducer.Some?
            && w'.reducer.value
               == w.reducer.value.(pending := w'.reducer.value.pending, quiet := w'.reducer.value.quiet)
  {
  }

  /** agent_settled of another session, without a run, or behind a pending alert is ignored. */
  lemma SettledIsIgnored(w: World, own: bool, fingerprint: string)
    requires !own || w.reducer.None? || w.reducer.value.pending.Some? || w.reducer.value.current.None?
    ensures Next(w, AgentSettled(own, fingerprint)) == w
  {
  }

  // ----- A run that settles without an alert never gets one

  /** The run of a reducer state is over, and no alert, push or publication is of it. */
  ghost predicate Closed(w: World, epoch: nat, run: nat) {
    && epoch <= w.epoch && Unpublished(w, (epoch, run))
    && (w.reducer.Some? && w.epoch == epoch ==>
          var r := w.reducer.value;
          r.current != Some(run) && run <= r.generations && (r.pending.Some? ==> r.pending.value.run != run))
  }

  lemma SettledCloses(w: World, own: bool, fingerprint: string)
    requires Reachable(w) && Settles(w, own) && !Alerts(w, own, fingerprint)
    ensures Closed(Next(w, AgentSettled(own, fingerprint)), w.epoch, w.reducer.value.current.value)
  {
    ReachableInv(w);
    SettledAlertsIff(w, own, fingerprint);
    SettledIs(w, own, fingerprint);
    SettlingPublishesNothing(w, own, fingerprint);
  }

  lemma SettlingPublishesNothing(w: World, own: bool, fingerprint: string)
    ensures var w' := Next(w, AgentSettled(own, fingerprint));
            w'.pushes == w.pushes && w'.published == w.published && w'.epoch == w.epoch
  {
  }

  lemma ClosedNext(w: World, e: Event, epoch: nat, run: nat)
    requires Reachable(w) && Closed(w, epoch, run)
    ensures Closed(Next(w, e), epoch, run)
  {
    ReachableInv(w);
    if e.AgentSettled? {
      SettlingStaysClosed(w, e.own, e.fingerprint, epoch, run);
    } else if e.Fire? {
      FiringStaysClosed(w, e, epoch, run);
    } else if e.PushSucceeds? || e.PushFails? {
      AnswerStaysClosed(w, e, epoch, run);
    } else if e.AgentStart? || e.TreeSwitch? || e.Input? {
      MovingStaysClosed(w, e, epoch, run);
    } else {
      OthersStayClosed(w, e, epoch, run);
    }
  }

  lemma SettlingStaysClosed(w: World, own: bool, fingerprint: string, epoch: nat, run: nat)
    requires Reachable(w) && Closed(w, epoch, run)
    ensures Closed(Next(w, AgentSettled(own, fingerprint)), epoch, run)
  {
    SettlingPublishesNothing(w, own, fingerprint);
    SettledAlertsIff(w, own, fingerprint);
    if own && w.reducer.Some? && w.reducer.value.pending.None? && w.reducer.value.current.Some? {
      SettledIs(w, own, fingerprint);
    } else {
      SettledIsIgnored(w, own, fingerprint);
    }
  }

  lemma FiringStaysClosed(w: World, e: Event, epoch: nat, run: nat)
    requires Inv(w) && Closed(w, epoch, run) && e.Fire?
    ensures Closed(Next(w, e), epoch, run)
  {
  }

  lemma AnswerStaysClosed(w: World, e: Event, epoch: nat, run: nat)
    requires Inv(w) && Closed(w, epoch, run) && (e.PushSucceeds? || e.PushFails?)
    ensures Closed(Next(w, e), epoch, run)
  {
    if e.push in w.pushes {
      assert Key(w.pushes[e.push]) != (epoch, run);
      if e.PushSucceeds? { SuccessMoves(w, e.push); } else { FailureMoves(w, e.push); }
    }
  }

  /** The reducer's run is as it was, and its alert too unless it is gone. */
  ghost predicate SameRun(w: World, w': World) {
    && w'.epoch == w.epoch && (w'.reducer.Some? ==> w.reducer.Some?)
    && (w'.reducer.Some? ==>
          var r, r' := w.reducer.value, w'.reducer.value;
          r'.current == r.current && r'.generations == r.generations && (r'.pending.Some? ==> r'.pending == r.pending))
  }

  lemma SuccessMoves(w: World, id: nat)
    requires id in w.pushes
    ensures var w' := Next(w, PushSucceeds(id));
            SameRun(w, w') && w'.pushes == w.pushes - {id} && w'.published == w.published + [w.pushes[id]]
  {
  }

  lemma FailureMoves(w: World, id: nat)
    requires id in w.pushes
    ensures var w' := Next(w, PushFails(id));
            SameRun(w, w') && w'.pushes == w.pushes - {id} && w'.published == w.published
  {
  }

  lemma MovingStaysClosed(w: World, e: Event, epoch: nat, run: nat)
    requires Reachable(w) && Closed(w, epoch, run) && (e.AgentStart? || e.TreeSwitch? || e.Input?)
    ensures Closed(Next(w, e), epoch, run)
  {
    if w.reducer.Some? && (e.Input? || e.own) {
      match e
      case AgentStart(_, leaf) => AgentStartIs(w, leaf);
      case TreeSwitch(_, leaf) => TreeSwitchIs(w, leaf);
      case Input(streaming) => InputIs(w, streaming);
    }
  }

  lemma OthersStayClosed(w: World, e: Event, epoch: nat, run: nat)
    requires Closed(w, epoch, run) && !e.AgentSettled? && !e.Fire? && !e.PushSucceeds? && !e.PushFails?
    requires !e.AgentStart? && !e.TreeSwitch? && !e.Input?
    ensures Closed(Next(w, e), epoch, run)
  {
  }

  lemma {:induction false} ClosedRun(w: World, events: seq<Event>, epoch: nat, run: nat)
    requires Reachable(w) && Closed(w, epoch, run)
    ensures Closed(Run(w, events), epoch, run)
  {
    if events != [] {
      ClosedRun(w, events[..|events| - 1], epoch, run);
      ReachableRun(w, events[..|events| - 1]);
      ClosedNext(Run(w, events[..|events| - 1]), events[|events| - 1], epoch, run);
    }
  }

  /**
   In every run: a run that settles without making an alert - aborted, without an assistant's message, with a confirmed
   text, or after an emission - never has a pending alert, a push or a publication.
   */
  lemma SettledWithoutAlertStaysSilent(before: seq<Event>, fingerprint: string, own: bool, after: seq<Event>)
    requires Settles(Run(Init, before), own) && !Alerts(Run(Init, before), own, fingerprint)
    ensures
      var w := Run(Init, before);
      var w' := Run(Next(w, AgentSettled(own, fingerprint)), after);
      Closed(w', w.epoch, w.reducer.value.current.value)
  {
    var w, e := Run(Init, before), AgentSettled(own, fingerprint);
    assert Reachable(w);
    SettledCloses(w, own, fingerprint);
    RunOne(w, e);
    ReachableRun(w, [e]);
    ClosedRun(Next(w, e), after, w.epoch, w.reducer.value.current.value);
  }

  /** In particular one whose consumed agent_end was aborted. */
  lemma AbortedStaysSilent(before: seq<Event>, fingerprint: string, own: bool, after: seq<Event>)
    requires Settles(Run(Init, before), own) && Run(Init, before).reducer.value.agentEnd.value.stop.Aborted?
    ensures
      var w := Run(Init, before);
      var w', run := Run(Next(w, AgentSettled(own, fingerprint)), after), w.reducer.value.current.value;
      && (forall id :: id in w'.pushes && w'.pushes[id].epoch == w.epoch ==> w'.pushes[id].alert.run != run)
      && (forall i :: 0 <= i < |w'.published| && w'.published[i].epoch == w.epoch ==> w'.published[i].alert.run != run)
      && (w'.reducer.Some? && w'.epoch == w.epoch && w'.reducer.value.pending.Some? ==>
            w'.reducer.value.pending.value.run != run)
  {
    SettledWithoutAlertStaysSilent(before, fingerprint, own, after);
    var w' := Run(Next(Run(Init, before), AgentSettled(own, fingerprint)), after);
    assert forall id :: id in w'.pushes ==> Key(w'.pushes[id]) == (w'.pushes[id].epoch, w'.pushes[id].alert.run);
  }

  // ----- The other events

  /** What cancels an alert: no timer is left, and no push of it counts any longer. */
  ghost predicate Cancelled(w': World) {
    w'.timers == map[] && w'.reducer.Some? && w'.reducer.value.pending.None? && !w'.reducer.value.inFlight
  }

  /** The input makes a report: the published alert was not reported yet, and the input follows its push. */
  predicate Reports(r: Reducer) {
    r.candidate.Some? && !r.candidate.value.reported && r.candidate.value.observedCursor <= r.cursor
  }

  /** The reducer with the input counted, and the report made. */
  function Noticed(r: Reducer): Reducer {
    r.(cursor := r.cursor + 1,
       candidate := if Reports(r) then Some(r.candidate.value.(reported := true)) else r.candidate)
  }

  lemma NoticedIs(w: World)
    requires w.reducer.Some?
    ensures ReportHandled(CountInput(w))
            == w.(reducer := Some(Noticed(w.reducer.value)),
                  handling := w.handling
                              + if Reports(w.reducer.value) then {w.reducer.value.candidate.value.id} else {})
  {
  }

  /** A local input counts, and reports the published alert it follows; unless it steers, it abandons run and alert. */
  lemma InputIs(w: World, streaming: bool)
    requires Reachable(w) && w.reducer.Some?
    ensures
      var w', r := Next(w, Input(streaming)), w.reducer.value;
      && w'.handling == w.handling + (if Reports(r) then {r.candidate.value.id} else {})
      && w'.pushes == w.pushes && w'.published == w.published && w'.epoch == w.epoch && w'.reducer.Some?
      && (if streaming then w'.reducer.value == Noticed(r) && w'.timers == w.timers
          else Cancelled(w') && w'.reducer.value
                                == Noticed(r).(quiet := None, pending := None, inFlight := false, agentEnd := None,
                                               flow := r.flow + 1, loopRunning := false, current := None,
                                               settled := None))
  {
    ReachableInv(w);
    NoticedIs(w);
    var w1 := ReportHandled(CountInput(w));
    CursorKeeps(w);
    ReportKeeps(CountInput(w));
    InvalidateShape(w1);
  }

  lemma TimersAtLeaf(w: World, leaf: Option<string>)
    requires Reachable(w) && w.reducer.Some?
    ensures TimersOk(With(w, MoveLeaf(w.reducer.value, leaf)))
  {
    ReachableInv(w);
    LeafKeeps(w, leaf);
  }

  /** agent_start begins the next run on the reported leaf, and cancels the alert of the last one. */
  lemma AgentStartIs(w: World, leaf: Option<string>)
    requires Reachable(w) && w.reducer.Some?
    ensures
      var w' := Next(w, AgentStart(true, leaf));
      && Cancelled(w') && w'.pushes == w.pushes && w'.published == w.published && w'.token == w.token
      && w'.epoch == w.epoch
      && var r, r' := w.reducer.value, w'.reducer.value;
         && r'.leaf == (if leaf.Some? then leaf else r.leaf) && r'.generations == r.generations + 1
         && r'.current == Some(r'.generations) && r'.loopRunning && r'.settled.None? && r'.agentEnd.None?
         && !r'.emitted && r'.flow == r.flow + 1 && r'.candidate == r.candidate && r'.cursor == r.cursor
  {
    TimersAtLeaf(w, leaf);
    InvalidateShape(With(w, MoveLeaf(w.reducer.value, leaf)));
  }

  /** agent_end reports the leaf; that of the running run ends it, with what it says kept for its settlement. */
  lemma AgentEndIs(w: World, leaf: Option<string>, assistantFound: bool, stop: StopReason)
    requires w.reducer.Some?
    ensures
      var w' := Next(w, AgentEnded(true, leaf, assistantFound, stop));
      var r := w.reducer.value.(leaf := if leaf.Some? then leaf else w.reducer.value.leaf);
      w' == w.(reducer := Some(
                 if r.loopRunning && r.current.Some?
                 then r.(loopRunning := false, agentEnd := Some(AgentEnd(assistantFound, stop, r.current.value)))
                 else r))
  {
  }

  /** Leaving the branch moves the leaf and drops run, alert and report; completions of its pushes no longer count. */
  lemma TreeSwitchIs(w: World, leaf: Option<string>)
    requires Reachable(w) && w.reducer.Some?
    ensures
      var w' := Next(w, TreeSwitch(true, leaf));
      && Cancelled(w') && w'.token == w.token + 1 && w'.pushes == w.pushes && w'.published == w.published
      && w'.epoch == w.epoch
      && var r, r' := w.reducer.value, w'.reducer.value;
         && r'.leaf == (if leaf.Some? then leaf else r.leaf) && r'.candidate.None?
         && r'.current.None? && r'.settled.None? && r'.agentEnd.None? && !r'.loopRunning && !r'.emitted
         && r'.flow == r.flow + 1 && r'.generations == r.generations && r'.cursor == r.cursor
  {
    TimersAtLeaf(w, leaf);
    InvalidateShape(With(w, MoveLeaf(w.reducer.value, leaf)));
  }

  /** A session begins with nothing of the last one but the confirmed texts; its end forgets these too. */
  lemma SessionsAre(w: World, sessionId: string, leaf: Option<string>)
    requires Reachable(w)
    ensures
      var started, ended := Next(w, SessionStart(sessionId, leaf)), Next(w, SessionShutdown);
      && Cancelled(started) && started.token == w.token + 1 && started.epoch == w.epoch + 1
      && started.fingerprints == w.fingerprints && started.pushes == w.pushes
      && started.reducer
         == Some(Reducer(sessionId, leaf, false, false, 0, 0, 0, None, None, None, None, false, None, None))
      && ended.reducer.None? && ended.timers == map[] && ended.fingerprints == {} && ended.token == w.token + 1
      && ended.pushes == w.pushes
  {
    ReachableInv(w);
  }

  /**
   A timer that fires starts the push of the pending alert, unless the agent has new work, which drops the alert, or
   publication is off, which counts it as emitted and its text as confirmed.
   */
  lemma FireIs(w: World, timer: nat, newWork: bool, publish: bool)
    requires Reachable(w) && timer in w.timers
    ensures w.reducer.Some? && w.reducer.value.pending.Some?
    ensures
      var w', r := Next(w, Fire(timer, newWork, publish)), w.reducer.value;
      var alert := r.pending.value;
      && w'.timers == map[] && w'.reducer.Some?
      && var r' := w'.reducer.value;
         if newWork then Cancelled(w') && w'.pushes == w.pushes && r'.emitted == r.emitted
         else if publish
         then && w'.pushes == w.pushes[w.nextId := Push(alert, w.token, r.sessionId, r.leaf, r.flow, r.settled,
                                                         r.cursor, w.epoch)]
              && r' == r.(quiet := None, inFlight := true)
         else && Cancelled(w') && w'.pushes == w.pushes && r'.emitted && r'.candidate.None?
              && w'.fingerprints == w.fingerprints + (if alert.fingerprint.Some? then {alert.fingerprint.value} else {})
  {
    ReachableInv(w);
    assert w.timers - {timer} == map[] by { assert forall t :: t in w.timers ==> t == timer; }
  }

  /** A timer that is not scheduled, or cancelled, does nothing. */
  lemma StaleTimerIs(w: World, timer: nat, newWork: bool, publish: bool)
    requires timer !in w.timers
    ensures Next(w, Fire(timer, newWork, publish)) == w
  {
  }

  /** The completion counts: it is for this session, branch and leaf. */
  predicate Counts(w: World, p: Push) {
    w.reducer.Some? && p.token == w.token && p.sessionId == w.reducer.value.sessionId && p.leaf == w.reducer.value.leaf
  }

  /** The push of the pending alert captured its flow and its run. */
  lemma PendingMatches(w: World, id: nat)
    requires Reachable(w) && id in w.pushes
    ensures w.reducer.Some? && w.reducer.value.pending == Some(w.pushes[id].alert) ==>
              && w.reducer.value.flow == w.pushes[id].flow && w.reducer.value.settled == w.pushes[id].settled
              && w.timers == map[]
  {
    ReachableInv(w);
    if w.reducer.Some? && w.reducer.value.pending == Some(w.pushes[id].alert) { PushedHasNoTimer(w, id); }
  }

  /**
   A push that succeeds is published.  If it counts, its text is confirmed, and its Event can be reported as handled: at
   once if an input came since, else by a later input if its alert was still pending.
   */
  lemma PushSucceedsIs(w: World, id: nat)
    requires Reachable(w) && id in w.pushes
    ensures
      var w', p := Next(w, PushSucceeds(id)), w.pushes[id];
      && w'.pushes == w.pushes - {id} && w'.published == w.published + [p] && w'.timers == w.timers
      && w'.fingerprints
         == w.fingerprints + (if Counts(w, p) && p.alert.fingerprint.Some? then {p.alert.fingerprint.value} else {})
      && (w.reducer.Some? <==> w'.reducer.Some?)
      && (w.reducer.Some? ==>
            var r, r' := w.reducer.value, w'.reducer.value;
            var late := Counts(w, p) && p.cursor < r.cursor;
            var mine := Counts(w, p) && !late && r.pending == Some(p.alert);
            && r'.candidate == (if late || mine then Some(Candidate(id, p.cursor, late)) else r.candidate)
            && w'.handling == w.handling + (if late then {id} else {})
            && r'.pending == (if mine then None else r.pending) && r'.emitted == (r.emitted || mine))
  {
    PendingMatches(w, id);
  }

  /** A push that fails confirms nothing and leaves alert and report as they are. */
  lemma PushFailsIs(w: World, id: nat)
    requires id in w.pushes
    ensures
      var w' := Next(w, PushFails(id));
      && w'.pushes == w.pushes - {id} && w'.published == w.published && w'.fingerprints == w.fingerprints
      && w'.handling == w.handling && (w.reducer.Some? <==> w'.reducer.Some?)
      && (w.reducer.Some? ==>
            var r, r' := w.reducer.value, w'.reducer.value;
            r'.pending == r.pending && r'.candidate == r.candidate && r'.emitted == r.emitted)
  {
  }

  /** Its alert, if it counts and is still pending, is scheduled again. */
  lemma FailedPushIsScheduled(w: World, id: nat)
    requires Reachable(w) && id in w.pushes && Counts(w, w.pushes[id])
    requires w.reducer.value.pending == Some(w.pushes[id].alert)
    ensures
      var w', r := Next(w, PushFails(id)), w.reducer.value;
      && w'.timers == map[w.nextId := Timer(r.sessionId, r.flow)]
      && w'.reducer == Some(r.(quiet := Some(w.nextId), inFlight := false))
  {
    PendingMatches(w, id);
    var w1 := w.(pushes := w.pushes - {id});
    assert SameBranch(w1, w.pushes[id]) && StillPending(w1, w.pushes[id]);
    assert ClearQuiet(w1).timers == map[];
  }

  /** A report that is answered is over: an accepted one is not repeated, one that failed can be made again. */
  lemma HandledIs(w: World, id: nat, ok: bool)
    requires Reachable(w) && id in w.handling
    ensures
      var w' := Next(w, if ok then HandleSucceeds(id) else HandleFails(id));
      && w'.handling == w.handling - {id} && (w.reducer.Some? <==> w'.reducer.Some?)
      && (w.reducer.Some? ==>
            var r := w.reducer.value;
            w'.reducer.value.candidate
            == if r.candidate.Some? && r.candidate.value.id == id
               then (if ok then None else Some(r.candidate.value.(reported := false)))
               else r.candidate)
  {
  }
}
