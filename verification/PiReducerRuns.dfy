/** What holds of alerts, timers and reports over every run of the Pi reducer. */
module PiReducerRuns {
  import opened Wrappers
  import opened PiReducer

  ghost predicate Reachable(w: World) {
    exists events :: w == Run(Init, events)
  }

  lemma ReachableInv(w: World)
    requires Reachable(w)
    ensures Inv(w)
  {
    var events :| w == Run(Init, events);
    RunKeeps(events);
  }

  /** Each run of each reducer state has at most one successful push. */
  lemma OnePublicationPerRun(w: World, i: nat, j: nat)
    requires Reachable(w) && i < j < |w.published|
    ensures w.published[i].epoch != w.published[j].epoch || w.published[i].alert.run != w.published[j].alert.run
  {
    ReachableInv(w);
    assert Key(w.published[i]) != Key(w.published[j]);
  }

  /** A pending alert is for the newest run, which has settled; a scheduled timer is for that alert. */
  lemma PendingIsCurrent(w: World)
    requires Reachable(w) && w.reducer.Some? && w.reducer.value.pending.Some?
    ensures
      var r := w.reducer.value; var a := r.pending.value;
      && a.run == r.generations && r.settled == Some(a.run) && a.flow == r.flow && !r.loopRunning && r.current.None?
    ensures forall t :: t in w.timers ==>
              w.reducer.value.quiet == Some(t) && w.timers[t] == Timer(w.reducer.value.sessionId, w.reducer.value.flow)
  {
    ReachableInv(w);
  }

  /** No timer is left of an earlier session, run, branch or input. */
  lemma NoTimerWithoutAlert(w: World)
    requires Reachable(w) && (w.reducer.None? || w.reducer.value.pending.None?)
    ensures w.timers == map[]
  {
    ReachableInv(w);
    assert forall t :: t !in w.timers;
  }

  /** A push starts only when the quiet timer of the current alert fires with no new work; its run has no other. */
  lemma PushStartsCurrent(w: World, e: Event, id: nat)
    requires Reachable(w) && id in Next(w, e).pushes && id !in w.pushes
    ensures e.Fire? && e.timer in w.timers && !e.newWork && e.publish && w.reducer.Some?
    ensures
      var r, p := w.reducer.value, Next(w, e).pushes[id];
      && r.pending == Some(p.alert) && p.alert.run == r.generations && p.alert.flow == r.flow && !r.loopRunning
      && p.token == w.token && p.leaf == r.leaf && p.cursor == r.cursor
    ensures Unpublished(w, (w.epoch, w.reducer.value.generations))
  {
    ReachableInv(w);
    OnlyFirePushes(w, e, id);
  }

  lemma OnlyFirePushes(w: World, e: Event, id: nat)
    requires id in Next(w, e).pushes && id !in w.pushes
    ensures e.Fire?
  {
    if e.AgentSettled? {
      SettlingPushesNothing(w, e);
    } else if e.PushSucceeds? || e.PushFails? {
      AnswersPushNothing(w, e);
    } else if e.AgentStart? || e.TreeSwitch? {
      RunPushesNothing(w, e);
    } else if !e.Fire? {
      AgentPushesNothing(w, e);
    }
  }

  lemma SettlingPushesNothing(w: World, e: Event)
    requires e.AgentSettled?
    ensures Next(w, e).pushes == w.pushes
  {
  }

  lemma AnswersPushNothing(w: World, e: Event)
    requires e.PushSucceeds? || e.PushFails?
    ensures forall id :: id in Next(w, e).pushes ==> id in w.pushes
  {
  }

  lemma RunPushesNothing(w: World, e: Event)
    requires e.AgentStart? || e.TreeSwitch?
    ensures Next(w, e).pushes == w.pushes
  {
    if w.reducer.Some? { InvalidatePushesNothing(With(w, MoveLeaf(w.reducer.value, e.leaf))); }
  }

  lemma InvalidatePushesNothing(w: World)
    ensures Invalidate(w).pushes == w.pushes
  {
  }

  lemma InputPushesNothing(w: World, streaming: bool)
    ensures OnInput(w, streaming).pushes == w.pushes
  {
    var w1 := ReportHandled(CountInput(w));
    assert w1.pushes == w.pushes;
    InvalidatePushesNothing(w1);
  }

  lemma AgentPushesNothing(w: World, e: Event)
    requires !e.AgentSettled? && !e.AgentStart? && !e.TreeSwitch? && !e.Fire? && !e.PushSucceeds? && !e.PushFails?
    ensures Next(w, e).pushes == w.pushes
  {
    if e.Input? { InputPushesNothing(w, e.streaming); }
  }

  /** The part of the reducer that decides what is published. */
  predicate SameAlerting(w: World, w': World) {
    && w'.timers == w.timers && (w.reducer.Some? <==> w'.reducer.Some?)
    && (w.reducer.Some? ==>
          w'.reducer.value == w.reducer.value.(candidate := w'.reducer.value.candidate))
  }

  /** The completion of a push whose alert is no longer pending decides nothing. */
  lemma LateCompletionDecidesNothing(w: World, id: nat)
    requires Reachable(w) && id in w.pushes
    requires w.reducer.Some? ==> w.reducer.value.pending != Some(w.pushes[id].alert)
    ensures SameAlerting(w, Next(w, PushSucceeds(id))) && SameAlerting(w, Next(w, PushFails(id)))
  {
  }

  /** A failed push is tried again exactly when its alert is still pending and the active leaf has not moved. */
  lemma RetriedIff(w: World, id: nat)
    requires Reachable(w) && id in w.pushes
    ensures (exists t :: t in Next(w, PushFails(id)).timers && t !in w.timers)
            <==> w.reducer.Some? && w.reducer.value.pending == Some(w.pushes[id].alert)
                 && w.reducer.value.leaf == w.pushes[id].leaf
  {
    ReachableInv(w);
    var p := w.pushes[id];
    if w.reducer.Some? && w.reducer.value.pending == Some(p.alert) {
      PushedHasNoTimer(w, id);
      if w.reducer.value.leaf == p.leaf {
        RetryKeeps(w, id);
        var t :| t in Next(w, PushFails(id)).timers;
      }
    }
  }

  /** A success settles the run exactly when its alert is pending, the leaf has not moved, and no input came since. */
  lemma SettledByPushIff(w: World, id: nat)
    requires Reachable(w) && id in w.pushes && w.reducer.Some? && w.reducer.value.pending == Some(w.pushes[id].alert)
    ensures Next(w, PushSucceeds(id)).reducer.Some?
    ensures Next(w, PushSucceeds(id)).reducer.value.pending.None?
            <==> w.reducer.value.leaf == w.pushes[id].leaf && w.reducer.value.cursor == w.pushes[id].cursor
  {
    ReachableInv(w);
    PushedHasNoTimer(w, id);
  }

  /** A pending alert has its timer, its push, its publication, or a failed push that found another leaf. */
  lemma PendingIsNotForgotten(w: World)
    requires Reachable(w) && w.reducer.Some? && w.reducer.value.pending.Some?
    ensures
      var a := w.reducer.value.pending.value;
      || w.timers != map[]
      || (exists id :: id in w.pushes && w.pushes[id].alert == a)
      || (exists i :: 0 <= i < |w.published| && w.published[i].alert == a)
      || a.serial in w.dropped
  {
    ReachableInv(w);
  }

  /** The bridge is told that an alert is handled only after an input that followed the alert's push. */
  lemma HandledAfterInput(w: World, e: Event, id: nat)
    requires Reachable(w) && id in Next(w, e).handling && id !in w.handling
    ensures e.Input? || e == PushSucceeds(id)
    ensures var w' := Next(w, e);
            w'.reducer.Some? && w'.reducer.value.candidate.Some? && w'.reducer.value.candidate.value.id == id
            && w'.reducer.value.candidate.value.observedCursor < w'.reducer.value.cursor
  {
    ReachableInv(w);
    HandlingSource(w, e, id);
    if e.Input? { InputHandles(w, e.streaming, id); } else { SuccessHandles(w, id); }
  }

  /** The candidate that is being reported is the reducer's own, and the input count has passed it. */
  ghost predicate Reported(w: World, id: nat) {
    w.reducer.Some? && w.reducer.value.candidate.Some? && w.reducer.value.candidate.value.id == id
    && w.reducer.value.candidate.value.observedCursor < w.reducer.value.cursor
  }

  lemma InputHandles(w: World, streaming: bool, id: nat)
    requires id in OnInput(w, streaming).handling && id !in w.handling
    ensures Reported(OnInput(w, streaming), id)
  {
    var w1 := ReportHandled(CountInput(w));
    assert Reported(w1, id);
  }

  lemma SuccessHandles(w: World, id: nat)
    requires id in OnPushed(w, id).handling && id !in w.handling
    ensures Reported(OnPushed(w, id), id)
  {
  }

  lemma HandlingSource(w: World, e: Event, id: nat)
    requires id in Next(w, e).handling && id !in w.handling
    ensures e.Input? || e == PushSucceeds(id)
  {
    if e.AgentSettled? || e.Fire? || e.PushFails? {
      AlertingHandlesNothing(w, e);
    } else if !e.Input? && !e.PushSucceeds? {
      AgentHandlesNothing(w, e);
    }
  }

  lemma AlertingHandlesNothing(w: World, e: Event)
    requires e.AgentSettled? || e.Fire? || e.PushFails?
    ensures Next(w, e).handling == w.handling
  {
  }

  lemma AgentHandlesNothing(w: World, e: Event)
    requires !e.AgentSettled? && !e.Fire? && !e.PushFails? && !e.Input? && !e.PushSucceeds?
    ensures Next(w, e).handling <= w.handling
  {
  }

  // ----- Repeated texts

  /** Every alert with this text is older than `limit`, and the text is suppressed. */
  ghost predicate Confirmed(w: World, fingerprint: string, limit: nat, base: nat) {
    && fingerprint in w.fingerprints && limit <= w.nextId && base <= |w.published|
    && (w.reducer.Some? && w.reducer.value.pending.Some? ==> Older(w.reducer.value.pending.value, fingerprint, limit))
    && (forall id :: id in w.pushes ==> Older(w.pushes[id].alert, fingerprint, limit))
    && (forall i :: base <= i < |w.published| ==> Older(w.published[i].alert, fingerprint, limit))
  }

  predicate Older(a: Alert, fingerprint: string, limit: nat) { a.fingerprint == Some(fingerprint) ==> a.serial < limit }

  lemma ConfirmedNext(w: World, e: Event, fingerprint: string, limit: nat, base: nat)
    requires Confirmed(w, fingerprint, limit, base) && !e.SessionShutdown?
    ensures Confirmed(Next(w, e), fingerprint, limit, base)
  {
    if e.AgentSettled? {
      SettledConfirms(w, e.own, e.fingerprint, fingerprint, limit, base);
    } else if e.Fire? {
      FireConfirms(w, e, fingerprint, limit, base);
    } else if e.PushSucceeds? || e.PushFails? {
      PushConfirms(w, e, fingerprint, limit, base);
    } else {
      AgentConfirms(w, e, fingerprint, limit, base);
    }
  }

  lemma AgentConfirms(w: World, e: Event, fingerprint: string, limit: nat, base: nat)
    requires Confirmed(w, fingerprint, limit, base)
    requires !e.AgentSettled? && !e.Fire? && !e.PushSucceeds? && !e.PushFails? && !e.SessionShutdown?
    ensures Confirmed(Next(w, e), fingerprint, limit, base)
  {
    if e.AgentStart? || e.AgentEnded? || e.TreeSwitch? {
      LoopConfirms(w, e, fingerprint, limit, base);
    } else if e.Input? {
      InputConfirms(w, e.streaming, fingerprint, limit, base);
    } else if e.SessionStart? {
      StartConfirms(w, e, fingerprint, limit, base);
    }
  }

  lemma LoopConfirms(w: World, e: Event, fingerprint: string, limit: nat, base: nat)
    requires Confirmed(w, fingerprint, limit, base) && (e.AgentStart? || e.AgentEnded? || e.TreeSwitch?)
    ensures Confirmed(Next(w, e), fingerprint, limit, base)
  {
  }

  lemma InputConfirms(w: World, streaming: bool, fingerprint: string, limit: nat, base: nat)
    requires Confirmed(w, fingerprint, limit, base)
    ensures Confirmed(OnInput(w, streaming), fingerprint, limit, base)
  {
    assert Confirmed(ReportHandled(CountInput(w)), fingerprint, limit, base);
  }

  lemma StartConfirms(w: World, e: Event, fingerprint: string, limit: nat, base: nat)
    requires Confirmed(w, fingerprint, limit, base) && e.SessionStart?
    ensures Confirmed(Next(w, e), fingerprint, limit, base)
  {
  }

  lemma SubmitConfirms(w: World, run: nat, text: Option<string>, fingerprint: string, limit: nat, base: nat)
    requires Confirmed(w, fingerprint, limit, base) && text != Some(fingerprint)
    ensures Confirmed(Submit(w, run, text), fingerprint, limit, base)
  {
  }

  lemma SettledConfirms(w: World, own: bool, text: string, fingerprint: string, limit: nat, base: nat)
    requires Confirmed(w, fingerprint, limit, base)
    ensures Confirmed(Next(w, AgentSettled(own, text)), fingerprint, limit, base)
  {
    var s := SettlementOf(w, text);
    if own && !s.Ignored? {
      var w1 := With(w, AfterSettlement(w.reducer.value, s));
      assert Confirmed(w1, fingerprint, limit, base);
      if s.SettledWithAlert? {
        SubmitConfirms(w1, w.reducer.value.current.value, s.fingerprint, fingerprint, limit, base);
      }
    }
  }

  lemma FireConfirms(w: World, e: Event, fingerprint: string, limit: nat, base: nat)
    requires Confirmed(w, fingerprint, limit, base) && e.Fire?
    ensures Confirmed(Next(w, e), fingerprint, limit, base)
  {
  }

  lemma PushConfirms(w: World, e: Event, fingerprint: string, limit: nat, base: nat)
    requires Confirmed(w, fingerprint, limit, base) && (e.PushSucceeds? || e.PushFails?)
    ensures Confirmed(Next(w, e), fingerprint, limit, base)
  {
    if e.push in w.pushes {
      if e.PushSucceeds? { SuccessConfirms(w, e.push, fingerprint, limit, base); }
      else { FailureConfirms(w, e.push, fingerprint, limit, base); }
    }
  }

  lemma SuccessConfirms(w: World, id: nat, fingerprint: string, limit: nat, base: nat)
    requires Confirmed(w, fingerprint, limit, base) && id in w.pushes
    ensures Confirmed(OnPushed(w, id), fingerprint, limit, base)
  {
    var w1 := Gone(w, id, true);
    assert Confirmed(w1, fingerprint, limit, base);
    var w' := OnPushed(w, id);
    assert w'.pushes == w1.pushes && w'.published == w1.published && w1.fingerprints <= w'.fingerprints
        && w'.nextId == w.nextId;
  }

  lemma FailureConfirms(w: World, id: nat, fingerprint: string, limit: nat, base: nat)
    requires Confirmed(w, fingerprint, limit, base) && id in w.pushes
    ensures Confirmed(OnPushFailed(w, id), fingerprint, limit, base)
  {
    var w1 := Gone(w, id, false);
    assert Confirmed(w1, fingerprint, limit, base);
  }

  lemma ReachableSerials(w: World)
    requires Reachable(w)
    ensures w.reducer.Some? && w.reducer.value.pending.Some? ==> w.reducer.value.pending.value.serial < w.nextId
    ensures forall id :: id in w.pushes ==> w.pushes[id].alert.serial < w.nextId
  {
    ReachableInv(w);
  }

  /**
   Once a publication of a text has been confirmed, no alert with the text is made in the rest of the session's
   run: what is published later with it was already pending or pushed.
   */
  lemma ConfirmedTextIsNotMadeAnew(w: World, events: seq<Event>, fingerprint: string)
    requires Reachable(w) && fingerprint in w.fingerprints
    requires forall i :: 0 <= i < |events| ==> !events[i].SessionShutdown?
    ensures var w' := Run(w, events);
            forall i :: |w.published| <= i < |w'.published| ==> Older(w'.published[i].alert, fingerprint, w.nextId)
  {
    ReachableSerials(w);
    assert Confirmed(w, fingerprint, w.nextId, |w.published|);
    ConfirmedRun(w, events, fingerprint);
  }

  lemma {:induction false} ConfirmedRun(w: World, events: seq<Event>, fingerprint: string)
    requires Confirmed(w, fingerprint, w.nextId, |w.published|)
    requires forall i :: 0 <= i < |events| ==> !events[i].SessionShutdown?
    ensures Confirmed(Run(w, events), fingerprint, w.nextId, |w.published|)
  {
    if events != [] {
      ConfirmedRun(w, events[..|events| - 1], fingerprint);
      ConfirmedNext(Run(w, events[..|events| - 1]), events[|events| - 1], fingerprint, w.nextId, |w.published|);
    }
  }

  // ----- A text that is not confirmed can always be published again

  lemma {:induction false} RunAppend(w: World, a: seq<Event>, b: seq<Event>)
    ensures Run(w, a + b) == Run(Run(w, a), b)
  {
    if b == [] {
      assert a + b == a;
    } else {
      assert (a + b)[..|a + b| - 1] == a + b[..|b| - 1] && (a + b)[|a + b| - 1] == b[|b| - 1];
      RunAppend(w, a, b[..|b| - 1]);
    }
  }

  lemma RunOne(w: World, e: Event)
    ensures Run(w, [e]) == Next(w, e)
  {
    assert [e][..0] == [];
  }

  lemma ReachableRun(w: World, events: seq<Event>)
    requires Reachable(w)
    ensures Reachable(Run(w, events))
  {
    var before :| w == Run(Init, before);
    RunAppend(Init, before, events);
  }

  ghost predicate NoShutdown(events: seq<Event>) {
    forall i :: 0 <= i < |events| ==> !events[i].SessionShutdown?
  }

  lemma RunThree(w: World, a: Event, b: Event, c: Event)
    ensures Run(w, [a] + [b] + [c]) == Next(Next(Next(w, a), b), c)
  {
    RunOne(w, a);
    RunAppend(w, [a], [b]);
    RunOne(Next(w, a), b);
    RunAppend(w, [a] + [b], [c]);
    RunOne(Next(Next(w, a), b), c);
  }

  /** One run of the agent that ends with the text `fingerprint`. */
  function AfterRun(w: World, fingerprint: string): World {
    Next(Next(Next(w, AgentStart(true, None)), AgentEnded(true, None, true, Stopped)), AgentSettled(true, fingerprint))
  }

  /** The alert that such a run makes. */
  function NewAlert(w: World, fingerprint: string): Alert
    requires w.reducer.Some?
  {
    Alert(w.nextId, w.reducer.value.flow + 1, w.reducer.value.generations + 1, Some(fingerprint))
  }

  /** The state that it leaves. */
  function StagedWorld(w: World, fingerprint: string): World
    requires w.reducer.Some?
  {
    var r, n := w.reducer.value, w.nextId;
    w.(timers := map[n + 1 := Timer(r.sessionId, r.flow + 1)], nextId := n + 2,
       reducer := Some(r.(loopRunning := false, emitted := false, flow := r.flow + 1, generations := r.generations + 1,
                          current := None, settled := Some(r.generations + 1), agentEnd := None,
                          pending := Some(NewAlert(w, fingerprint)), inFlight := false, quiet := Some(n + 1))))
  }

  /** An unconfirmed text gets a new alert, scheduled, whatever else is pending or in flight. */
  lemma RunSchedules(w: World, fingerprint: string)
    requires TimersOk(w) && w.reducer.Some? && fingerprint !in w.fingerprints
    ensures AfterRun(w, fingerprint) == StagedWorld(w, fingerprint)
  {
    var r := w.reducer.value;
    InvalidateShape(w);
    var w1 := Next(w, AgentStart(true, None));
    assert MoveLeaf(r, None) == r && With(w, r) == w;
    assert w1 == w.(timers := map[], reducer := Some(r.(
      quiet := None, pending := None, inFlight := false, agentEnd := None, emitted := false, flow := r.flow + 1,
      generations := r.generations + 1, current := Some(r.generations + 1), settled := None, loopRunning := true)));
    var w2 := Next(w1, AgentEnded(true, None, true, Stopped));
    var end := AgentEnd(true, Stopped, r.generations + 1);
    assert w2 == w1.(reducer := Some(w1.reducer.value.(loopRunning := false, agentEnd := Some(end))));
    assert SettlementOf(w2, fingerprint) == SettledWithAlert(Some(fingerprint));
  }

  /** A pending alert whose timer is scheduled. */
  ghost predicate Scheduled(w: World, alert: Alert, timer: nat) {
    w.reducer.Some?
    && var r := w.reducer.value;
       && r.pending == Some(alert) && w.timers == map[timer := Timer(r.sessionId, r.flow)] && r.quiet == Some(timer)
       && r.settled == Some(alert.run) && alert.flow == r.flow && !r.loopRunning && !r.inFlight
  }

  /** Its timer starts its push. */
  lemma ScheduledIsPushed(w: World, alert: Alert, timer: nat)
    requires Scheduled(w, alert, timer)
    ensures var w' := Next(w, Fire(timer, false, true));
            && w'.pushes.Keys == w.pushes.Keys + {w.nextId} && w'.pushes[w.nextId].alert == alert
            && (forall id :: id in w.pushes && id != w.nextId ==> w'.pushes[id] == w.pushes[id])
            && w'.reducer.Some? && w'.published == w.published && w'.fingerprints == w.fingerprints
               && w'.nextId == w.nextId + 1
  {
    var w1 := w.(timers := map[]);
    assert w.timers - {timer} == map[];
    assert ClearQuiet(w1).timers == map[];
  }

  /** The completion of the push of another alert leaves it scheduled. */
  lemma StaysScheduled(w: World, alert: Alert, timer: nat, id: nat)
    requires Scheduled(w, alert, timer) && id in w.pushes && w.pushes[id].alert != alert
    ensures var w' := Next(w, PushSucceeds(id));
            Scheduled(w', alert, timer) && w'.published == w.published + [w.pushes[id]] && w'.nextId == w.nextId
  {
  }

  /** Between two states, two more alerts of the text were published, the later made at or after `from`. */
  ghost predicate PublishedTwice(w: World, w': World, fingerprint: string, from: nat) {
    exists p, q :: w'.published == w.published + [p, q]
        && p.alert.fingerprint == q.alert.fingerprint == Some(fingerprint)
                   && p.alert != q.alert && q.alert.serial >= from
  }

  lemma CompletionPublishes(w: World, id: nat)
    requires id in w.pushes
    ensures Next(w, PushSucceeds(id)).published == w.published + [w.pushes[id]]
  {
  }

  /** A scheduled alert beside the unanswered push of another one: both are published. */
  lemma BothArePublished(w: World, alert: Alert, timer: nat, id: nat) returns (events: seq<Event>, q: Push)
    requires Scheduled(w, alert, timer) && id in w.pushes && id < w.nextId && w.pushes[id].alert != alert
    ensures NoShutdown(events) && q.alert == alert && Run(w, events).published == w.published + [w.pushes[id], q]
  {
    var late := Next(w, PushSucceeds(id));
    StaysScheduled(w, alert, timer, id);
    ScheduledIsPushed(late, alert, timer);
    var pushed := Next(late, Fire(timer, false, true));
    CompletionPublishes(pushed, w.nextId);
    RunThree(w, PushSucceeds(id), Fire(timer, false, true), PushSucceeds(w.nextId));
    events := [PushSucceeds(id)] + [Fire(timer, false, true)] + [PushSucceeds(w.nextId)];
    q := pushed.pushes[w.nextId];
    assert w.published + [w.pushes[id]] + [q] == w.published + [w.pushes[id], q];
  }

  /** What a run of the agent leaves: its alert scheduled, and the pushes as they were. */
  ghost predicate Stages(w: World, staged: World, fingerprint: string)
    requires w.reducer.Some?
  {
    && Scheduled(staged, NewAlert(w, fingerprint), w.nextId + 1)
    && staged.pushes == w.pushes && staged.published == w.published && staged.fingerprints == w.fingerprints
    && staged.nextId == w.nextId + 2
  }

  lemma StagedIs(w: World, staged: World, fingerprint: string)
    requires w.reducer.Some? && staged == StagedWorld(w, fingerprint)
    ensures Stages(w, staged, fingerprint)
  {
  }

  lemma RunStages(w: World, fingerprint: string) returns (events: seq<Event>)
    requires TimersOk(w) && w.reducer.Some? && fingerprint !in w.fingerprints
    ensures NoShutdown(events) && Stages(w, Run(w, events), fingerprint)
  {
    RunSchedules(w, fingerprint);
    events := [AgentStart(true, None)] + [AgentEnded(true, None, true, Stopped)] + [AgentSettled(true, fingerprint)];
    RunThree(w, AgentStart(true, None), AgentEnded(true, None, true, Stopped), AgentSettled(true, fingerprint));
    var staged := Run(w, events);
    StagedIs(w, staged, fingerprint);
  }

  lemma RunTo(w: World, a: seq<Event>, b: seq<Event>) returns (events: seq<Event>)
    requires NoShutdown(a) && NoShutdown(b)
    ensures NoShutdown(events) && Run(w, events) == Run(Run(w, a), b)
  {
    RunAppend(w, a, b);
    events := a + b;
  }

  /**
   A text is suppressed only once its publication has been confirmed: in every reachable state with an unconfirmed
   push of a text, a run that settles with the same text before the push completes gets it published twice.
   */
  lemma UnconfirmedIsPublishedTwice(w: World, id: nat, fingerprint: string) returns (events: seq<Event>)
    requires Reachable(w) && w.reducer.Some? && fingerprint !in w.fingerprints
    requires id in w.pushes && w.pushes[id].alert.fingerprint == Some(fingerprint)
    ensures NoShutdown(events) && PublishedTwice(w, Run(w, events), fingerprint, w.nextId)
  {
    ReachableInv(w);
    assert id < w.nextId && w.pushes[id].alert.serial < w.nextId;
    var run := RunStages(w, fingerprint);
    var rest, q := BothArePublished(Run(w, run), NewAlert(w, fingerprint), w.nextId + 1, id);
    events := RunTo(w, run, rest);
  }

  lemma ReachableScheduled(w: World, timer: nat)
    requires Reachable(w) && timer in w.timers
    ensures w.reducer.Some? && w.reducer.value.pending.Some? && Scheduled(w, w.reducer.value.pending.value, timer)
  {
    ReachableInv(w);
    assert forall t :: t in w.timers ==> t == timer;
    assert w.timers == map[timer := w.timers[timer]];
  }

  /** From a scheduled alert of an unconfirmed text too: its push is started first. */
  lemma ScheduledIsPublishedTwice(w: World, timer: nat, fingerprint: string) returns (events: seq<Event>)
    requires Reachable(w) && w.reducer.Some? && fingerprint !in w.fingerprints && timer in w.timers
    requires w.reducer.value.pending.Some? && w.reducer.value.pending.value.fingerprint == Some(fingerprint)
    ensures NoShutdown(events) && PublishedTwice(w, Run(w, events), fingerprint, w.nextId)
  {
    var fire := Fire(timer, false, true);
    ReachableScheduled(w, timer);
    ScheduledIsPushed(w, w.reducer.value.pending.value, timer);
    RunOne(w, fire);
    ReachableRun(w, [fire]);
    var rest := UnconfirmedIsPublishedTwice(Next(w, fire), w.nextId, fingerprint);
    events := RunTo(w, [fire], rest);
  }

  /** A text is published of an alert made at or after `w`. */
  ghost predicate PublishesNew(w: World, w': World, fingerprint: string) {
    exists i :: |w.published| <= i < |w'.published| && !Older(w'.published[i].alert, fingerprint, w.nextId)
  }

  /** From any state with a reducer, an unconfirmed text can be published twice, of two new alerts. */
  lemma UnconfirmedIsMadeAnewTwice(w: World, fingerprint: string) returns (events: seq<Event>)
    requires Reachable(w) && w.reducer.Some? && fingerprint !in w.fingerprints
    ensures NoShutdown(events) && PublishedTwice(w, Run(w, events), fingerprint, w.nextId)
    ensures PublishesNew(w, Run(w, events), fingerprint)
  {
    ReachableInv(w);
    var run := RunStages(w, fingerprint);
    ReachableRun(w, run);
    var rest := ScheduledIsPublishedTwice(Run(w, run), w.nextId + 1, fingerprint);
    events := RunTo(w, run, rest);
    PublishedTwiceIsNew(w, Run(w, run), Run(w, events), fingerprint);
  }

  lemma PublishedTwiceIsNew(w: World, staged: World, w': World, fingerprint: string)
    requires staged.published == w.published && w.nextId <= staged.nextId
    requires PublishedTwice(staged, w', fingerprint, staged.nextId)
    ensures PublishedTwice(w, w', fingerprint, w.nextId) && PublishesNew(w, w', fingerprint)
  {
    var p, q :| w'.published == staged.published + [p, q] && q.alert.fingerprint == Some(fingerprint)
                && p.alert.fingerprint == Some(fingerprint) && p.alert != q.alert && q.alert.serial >= staged.nextId;
    assert w'.published[|w.published| + 1] == q;
  }

  /**
   Exactly the unconfirmed texts can be published anew without a shutdown: from a reachable state, some run makes
   and publishes an alert with the text, and even two of them, if and only if no publication of it is confirmed.
   */
  lemma NewPublicationIff(w: World, fingerprint: string)
    requires Reachable(w)
    ensures fingerprint !in w.fingerprints
            <==> exists events :: NoShutdown(events) && PublishesNew(w, Run(w, events), fingerprint)
    ensures fingerprint !in w.fingerprints
            <==> exists events :: NoShutdown(events) && PublishedTwice(w, Run(w, events), fingerprint, w.nextId)
  {
    if fingerprint !in w.fingerprints {
      var start := if w.reducer.Some? then [] else [SessionStart("", None)];
      ReachableRun(w, start);
      if w.reducer.None? { StartKeepsHistory(w); }
      var rest := UnconfirmedIsMadeAnewTwice(Run(w, start), fingerprint);
      RunAppend(w, start, rest);
      var events := start + rest;
      assert NoShutdown(events) && PublishesNew(w, Run(w, events), fingerprint);
    } else {
      forall events | NoShutdown(events) ensures !PublishesNew(w, Run(w, events), fingerprint) {
        ConfirmedTextIsNotMadeAnew(w, events, fingerprint);
      }
      forall events | NoShutdown(events) && PublishedTwice(w, Run(w, events), fingerprint, w.nextId) ensures false {
        PublishedTwiceIsNew(w, w, Run(w, events), fingerprint);
      }
    }
  }

  lemma StartKeepsHistory(w: World)
    requires w.reducer.None?
    ensures var w' := Run(w, [SessionStart("", None)]);
            w'.reducer.Some? && w'.fingerprints == w.fingerprints && w'.published == w.published
                && w'.nextId == w.nextId
  {
    RunOne(w, SessionStart("", None));
  }
}
