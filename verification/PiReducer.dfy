/**
 The event-driven terminal-alert reducer of the Pi extension: session, input and agent events, the quiet timer,
 and pushes to the adapter that complete at any later time.
 */
module PiReducer {
  import opened Wrappers

  datatype StopReason = NoReason | Stopped | Aborted | OtherReason

  /** What the last agent_end of a run said. */
  datatype AgentEnd = AgentEnd(assistantFound: bool, stop: StopReason, run: nat)

  /** Alerts are objects compared by identity: `serial` is that identity. */
  datatype Alert = Alert(serial: nat, flow: nat, run: nat, fingerprint: Option<string>)

  datatype Candidate = Candidate(id: nat, observedCursor: nat, reported: bool)

  datatype Reducer = Reducer(
    sessionId: string, leaf: Option<string>, loopRunning: bool, emitted: bool, flow: nat, generations: nat,
    cursor: nat, current: Option<nat>, settled: Option<nat>, agentEnd: Option<AgentEnd>,
    pending: Option<Alert>, inFlight: bool, quiet: Option<nat>, candidate: Option<Candidate>)

  /** What a scheduled timer captured. */
  datatype Timer = Timer(sessionId: string, flow: nat)

  /** What a started push captured; `epoch` counts the reducer states there have been. */
  datatype Push = Push(
    alert: Alert, token: nat, sessionId: string, leaf: Option<string>, flow: nat, settled: Option<nat>, cursor: nat,
        epoch: nat)

  /**
   `timers` are the scheduled timers and `pushes` the unanswered pushes; `handling` are the candidates whose
   report is unanswered.  `published` and `dropped` are history: the pushes that succeeded, and the alerts
   whose failed push was not tried again although they were still pending.
   */
  datatype World = World(
    reducer: Option<Reducer>, token: nat, timers: map<nat, Timer>, pushes: map<nat, Push>, handling: set<nat>,
    fingerprints: set<string>, epoch: nat, nextId: nat, published: seq<Push>, dropped: set<nat>)

  const Init := World(None, 0, map[], map[], {}, {}, 0, 0, [], {})

  /** `own`: the event is for the session that this extension follows. */
  datatype Event =
    | SessionStart(sessionId: string, leaf: Option<string>)
    | SessionShutdown
    | Input(streaming: bool)
    | AgentStart(own: bool, leaf: Option<string>)
    | AgentEnded(own: bool, leaf: Option<string>, assistantFound: bool, stop: StopReason)
    | AgentSettled(own: bool, fingerprint: string)
    | TreeSwitch(own: bool, leaf: Option<string>)
    | Fire(timer: nat, newWork: bool, publish: bool)
    | PushSucceeds(push: nat)
    | PushFails(push: nat)
    | HandleSucceeds(candidate: nat)
    | HandleFails(candidate: nat)

  function ClearQuiet(w: World): World {
    if w.reducer.None? || w.reducer.value.quiet.None? then w
    else w.(timers := w.timers - {w.reducer.value.quiet.value}, reducer := Some(w.reducer.value.(quiet := None)))
  }

  function With(w: World, r: Reducer): World { w.(reducer := Some(r)) }

  function Invalidate(w: World): World {
    var w1 := ClearQuiet(w);
    if w1.reducer.None? then w1 else With(w1, w1.reducer.value.(pending := None, inFlight := false))
  }

  function Schedule(w: World): World {
    var w1 := ClearQuiet(w);
    if w1.reducer.None? then w1
    else
      var r := w1.reducer.value;
      With(w1, r.(quiet := Some(w1.nextId))).(
        timers := w1.timers[w1.nextId := Timer(r.sessionId, r.flow)], nextId := w1.nextId + 1)
  }

  function FreshReducer(sessionId: string, leaf: Option<string>): Reducer {
    Reducer(sessionId, leaf, false, false, 0, 0, 0, None, None, None, None, false, None, None)
  }

  function MoveLeaf(r: Reducer, leaf: Option<string>): Reducer {
    r.(leaf := if leaf.Some? then leaf else r.leaf)
  }

  function BeginRun(w: World): World {
    var w1 := Invalidate(w);
    if w1.reducer.None? then w1
    else
      var r := w1.reducer.value;
      With(w1, r.(agentEnd := None, emitted := false, flow := r.flow + 1, generations := r.generations + 1,
                  current := Some(r.generations + 1), settled := None, loopRunning := true))
  }

  function ClearBranch(w: World): World {
    var w1 := Invalidate(w).(token := w.token + 1);
    if w1.reducer.None? then w1
    else
      var r := w1.reducer.value;
      With(w1, r.(agentEnd := None, emitted := false, candidate := None, flow := r.flow + 1,
                  loopRunning := false, current := None, settled := None))
  }

  /** A local input after the alert was pushed tells the bridge that the alert is handled. */
  function ReportHandled(w: World): World {
    if w.reducer.None? || w.reducer.value.candidate.None? then w
    else
      var r := w.reducer.value;
      var c := r.candidate.value;
      if c.reported || r.cursor <= c.observedCursor then w
      else With(w, r.(candidate := Some(c.(reported := true)))).(handling := w.handling + {c.id})
  }

  function Abandon(w: World): World {
    var w1 := Invalidate(w);
    if w1.reducer.None? then w1
    else
      var r := w1.reducer.value;
      With(w1, r.(agentEnd := None, flow := r.flow + 1, loopRunning := false, current := None, settled := None))
  }

  function CountInput(w: World): World {
    if w.reducer.None? then w else With(w, w.reducer.value.(cursor := w.reducer.value.cursor + 1))
  }

  function OnInput(w: World, streaming: bool): World {
    if w.reducer.None? then w
    else
      var w1 := ReportHandled(CountInput(w));
      if streaming then w1 else Abandon(w1)
  }

  function OnAgentEnd(w: World, leaf: Option<string>, assistantFound: bool, stop: StopReason): World {
    if w.reducer.None? then w
    else
      var r := MoveLeaf(w.reducer.value, leaf);
      if !r.loopRunning || r.current.None? then With(w, r)
      else With(w, r.(loopRunning := false, agentEnd := Some(AgentEnd(assistantFound, stop, r.current.value))))
  }

  /** A new alert for the run that has just settled, unless one was already emitted for the loop. */
  function Submit(w: World, run: nat, fingerprint: Option<string>): World {
    if w.reducer.None? || w.reducer.value.emitted || w.reducer.value.pending.Some? then w
    else
      var r := w.reducer.value;
      Schedule(With(w, r.(pending := Some(Alert(w.nextId, r.flow, run, fingerprint)))).(nextId := w.nextId + 1))
  }

  /** What agent_settled makes of the run that ended last. */
  datatype Settlement =
    | Ignored
    | Abandoned
    | Unsettled
    | SettledQuietly
    | SettledAborted
    | SettledWithAlert(fingerprint: Option<string>)

  function SettlementOf(w: World, fingerprint: string): Settlement {
    if w.reducer.None? || w.reducer.value.pending.Some? || w.reducer.value.current.None? then Ignored
    else
      var r := w.reducer.value;
      if r.loopRunning then Abandoned
      else if r.agentEnd.None? || r.agentEnd.value.run != r.current.value then Unsettled
      else if !r.agentEnd.value.assistantFound || r.emitted then SettledQuietly
      else if r.agentEnd.value.stop.Aborted? then SettledAborted
      else if r.agentEnd.value.stop.OtherReason? then SettledWithAlert(None)
      else if fingerprint in w.fingerprints then SettledQuietly
      else SettledWithAlert(Some(fingerprint))
  }

  /** The run is over in any case; it settles unless it was cut short. */
  function AfterSettlement(r: Reducer, s: Settlement): Reducer {
    r.(loopRunning := false, agentEnd := None, current := None,
       settled := if s.Abandoned? || s.Unsettled? then r.settled else r.current,
       emitted := r.emitted || s.SettledAborted?)
  }

  function OnSettled(w: World, fingerprint: string): World {
    var s := SettlementOf(w, fingerprint);
    if s.Ignored? then w
    else
      var w1 := With(w, AfterSettlement(w.reducer.value, s));
      if s.SettledWithAlert? then Submit(w1, w.reducer.value.current.value, s.fingerprint) else w1
  }

  function Mark(w: World, fingerprint: Option<string>): World {
    if fingerprint.Some? then w.(fingerprints := w.fingerprints + {fingerprint.value}) else w
  }

  /** The push of the pending alert, or its settlement where publication is off. */
  function Emit(w: World, alert: Alert, publish: bool): World {
    if w.reducer.None? || w.reducer.value.pending != Some(alert) || w.reducer.value.inFlight
       || w.reducer.value.flow != alert.flow || w.reducer.value.settled != Some(alert.run) then w
    else
      var r := w.reducer.value;
      if !publish then
        With(Mark(w, alert.fingerprint), r.(emitted := true, pending := None, inFlight := false, candidate := None))
      else
        var push := Push(alert, w.token, r.sessionId, r.leaf, r.flow, r.settled, r.cursor, w.epoch);
        With(w, r.(inFlight := true)).(pushes := w.pushes[w.nextId := push], nextId := w.nextId + 1)
  }

  function OnFire(w: World, timer: nat, newWork: bool, publish: bool): World {
    if timer !in w.timers then w
    else
      var t := w.timers[timer];
      var w1 := w.(timers := w.timers - {timer});
      if w1.reducer.None? then w1
      else
        var r := w1.reducer.value;
        if r.sessionId != t.sessionId || r.flow != t.flow || r.pending.None?
           || r.settled != Some(r.pending.value.run) || r.loopRunning then w1
        else if newWork then Invalidate(w1)
        else Emit(ClearQuiet(w1), r.pending.value, publish)
  }

  /** The completion is still for this session and branch. */
  predicate SameBranch(w: World, p: Push) {
    w.reducer.Some? && p.token == w.token && w.reducer.value.sessionId == p.sessionId && w.reducer.value.leaf == p.leaf
  }

  /** The alert is still the pending one, of the same flow and run. */
  predicate StillPending(w: World, p: Push) {
    w.reducer.Some? && w.reducer.value.pending == Some(p.alert)
    && w.reducer.value.flow == p.flow && w.reducer.value.settled == p.settled
  }

  function Answered(w: World, p: Push): World {
    if w.reducer.Some? && w.reducer.value.pending == Some(p.alert) then With(w, w.reducer.value.(inFlight := false))
    else w
  }

  function OnPushed(w: World, id: nat): World {
    if id !in w.pushes then w
    else
      var p := w.pushes[id];
      var w1 := w.(pushes := w.pushes - {id}, published := w.published + [p]);
      if !SameBranch(w1, p) then Answered(w1, p)
      else
        var w2 := Mark(w1, p.alert.fingerprint);
        var r := w2.reducer.value;
        if r.cursor > p.cursor then
          Answered(With(w2, r.(candidate := Some(Candidate(id, p.cursor, true)))).(handling := w2.handling + {id}), p)
        else if !StillPending(w2, p) then Answered(w2, p)
        else With(w2, r.(emitted := true, pending := None, candidate := Some(Candidate(id, p.cursor, false))))
  }

  function OnPushFailed(w: World, id: nat): World {
    if id !in w.pushes then w
    else
      var p := w.pushes[id];
      var w1 := w.(pushes := w.pushes - {id});
      if SameBranch(w1, p) && StillPending(w1, p) then Answered(Schedule(w1), p)
      else Answered(w1.(dropped := w1.dropped + {p.alert.serial}), p)
  }

  function OnHandled(w: World, candidate: nat, ok: bool): World {
    if candidate !in w.handling then w
    else
      var w1 := w.(handling := w.handling - {candidate});
      if w1.reducer.None? || w1.reducer.value.candidate.None? || w1.reducer.value.candidate.value.id != candidate
      then w1
      else
        var r := w1.reducer.value;
        With(w1, r.(candidate := if ok then None else Some(r.candidate.value.(reported := false))))
  }

  function Next(w: World, e: Event): World {
    match e
    case SessionStart(sessionId, leaf) =>
      ClearQuiet(w).(token := w.token + 1, reducer := Some(FreshReducer(sessionId, leaf)), epoch := w.epoch + 1)
    case SessionShutdown => ClearQuiet(w).(token := w.token + 1, reducer := None, fingerprints := {})
    case Input(streaming) => OnInput(w, streaming)
    case AgentStart(own, leaf) =>
      if !own || w.reducer.None? then w else BeginRun(With(w, MoveLeaf(w.reducer.value, leaf)))
    case AgentEnded(own, leaf, assistantFound, stop) => if !own then w else OnAgentEnd(w, leaf, assistantFound, stop)
    case AgentSettled(own, fingerprint) => if !own then w else OnSettled(w, fingerprint)
    case TreeSwitch(own, leaf) =>
      if !own || w.reducer.None? then w else ClearBranch(With(w, MoveLeaf(w.reducer.value, leaf)))
    case Fire(timer, newWork, publish) => OnFire(w, timer, newWork, publish)
    case PushSucceeds(push) => OnPushed(w, push)
    case PushFails(push) => OnPushFailed(w, push)
    case HandleSucceeds(candidate) => OnHandled(w, candidate, true)
    case HandleFails(candidate) => OnHandled(w, candidate, false)
  }

  function Run(w: World, events: seq<Event>): World {
    if events == [] then w else Next(Run(w, events[..|events| - 1]), events[|events| - 1])
  }

  // ----- What every step keeps

  /** Generations only count up, and what is current, settled or pending is of the newest run. */
  ghost predicate RunsOk(r: Reducer) {
    && (r.current.Some? ==> r.current.value == r.generations)
    && (r.settled.Some? ==> r.settled.value == r.generations && r.current.None? && !r.loopRunning)
    && (r.loopRunning ==> r.current.Some?)
    && (r.agentEnd.Some? ==> r.current == Some(r.agentEnd.value.run))
  }

  /** A pending alert is for the settled run and the current flow, and no run is active. */
  ghost predicate PendingOk(w: World) {
    w.reducer.Some? && w.reducer.value.pending.Some? ==>
      var r := w.reducer.value; var a := r.pending.value;
      && r.settled == Some(a.run) && a.flow == r.flow && !r.loopRunning && !r.emitted && a.serial < w.nextId
  }

  /** The only scheduled timer is the reducer's own, for its pending alert, with no push unanswered. */
  ghost predicate TimersOk(w: World) {
    && (forall t :: t in w.timers ==>
          t < w.nextId && w.reducer.Some? && w.reducer.value.quiet == Some(t) && w.reducer.value.pending.Some?
          && !w.reducer.value.inFlight
          && w.timers[t] == Timer(w.reducer.value.sessionId, w.reducer.value.flow))
    && (w.reducer.Some? && w.reducer.value.inFlight && w.reducer.value.pending.None? ==> w.reducer.value.emitted)
  }

  /** The run of one reducer state that a push is about. */
  ghost function Key(p: Push): (nat, nat) { (p.epoch, p.alert.run) }

  ghost predicate Unpublished(w: World, key: (nat, nat)) {
    && (forall id :: id in w.pushes ==> Key(w.pushes[id]) != key)
    && (forall i :: 0 <= i < |w.published| ==> Key(w.published[i]) != key)
  }

  /** No run has two pushes that are unanswered or succeeded. */
  ghost predicate KeysOk(w: World) {
    && (forall i, j :: 0 <= i < j < |w.published| ==> Key(w.published[i]) != Key(w.published[j]))
    && (forall i, j :: i in w.pushes && j in w.pushes && i != j ==> Key(w.pushes[i]) != Key(w.pushes[j]))
    && (forall i, j :: 0 <= i < |w.published| && j in w.pushes ==> Key(w.published[i]) != Key(w.pushes[j]))
  }

  /** Keys belong to runs there have been; a run not yet settled, or with a scheduled alert, has none. */
  ghost predicate FreshOk(w: World) {
    && (forall id :: id in w.pushes ==> Past(w, Key(w.pushes[id])))
    && (forall i :: 0 <= i < |w.published| ==> Past(w, Key(w.published[i])))
    && (w.reducer.Some? && (w.reducer.value.current.Some? || w.timers != map[]) ==>
          Unpublished(w, (w.epoch, w.reducer.value.generations)))
  }

  ghost predicate Past(w: World, key: (nat, nat)) {
    key.0 <= w.epoch && (key.0 == w.epoch && w.reducer.Some? ==> key.1 <= w.reducer.value.generations)
  }

  /** An unanswered push of the pending alert captured what is still so, except perhaps the leaf and the cursor. */
  ghost predicate PushesOk(w: World) {
    forall id :: id in w.pushes ==>
      var p := w.pushes[id];
      && id < w.nextId && p.alert.serial < w.nextId && p.alert.flow == p.flow && p.settled == Some(p.alert.run)
      && (w.reducer.Some? && w.reducer.value.pending == Some(p.alert) ==>
            p.token == w.token && p.epoch == w.epoch && p.sessionId == w.reducer.value.sessionId
            && p.cursor <= w.reducer.value.cursor)
  }

  /** A report is unanswered exactly while its candidate says so. */
  ghost predicate CandidateOk(w: World) {
    && (forall id :: id in w.handling ==> id < w.nextId && id !in w.pushes)
    && (w.reducer.Some? && w.reducer.value.candidate.Some? ==>
          var c := w.reducer.value.candidate.value;
          && c.id < w.nextId && c.id !in w.pushes && (c.reported <==> c.id in w.handling)
          && (c.reported ==> c.observedCursor < w.reducer.value.cursor))
  }

  /** A pending alert is never forgotten. */
  ghost predicate AliveOk(w: World) {
    w.reducer.Some? && w.reducer.value.pending.Some? ==>
      var a := w.reducer.value.pending.value;
      || w.timers != map[]
      || (w.reducer.value.inFlight && exists id :: id in w.pushes && w.pushes[id].alert == a)
      || (exists i :: 0 <= i < |w.published| && w.published[i].alert == a)
      || a.serial in w.dropped
  }

  ghost predicate Core(w: World) {
    && (w.reducer.Some? ==> RunsOk(w.reducer.value))
    && PendingOk(w) && TimersOk(w) && KeysOk(w) && FreshOk(w) && PushesOk(w) && CandidateOk(w)
  }

  ghost predicate Inv(w: World) { Core(w) && AliveOk(w) }

  /** Nothing of the history or of the pushes changes. */
  ghost predicate SamePushes(w: World, w': World) {
    w'.pushes == w.pushes && w'.published == w.published && w'.dropped == w.dropped && w'.nextId == w.nextId
        && w'.epoch == w.epoch
  }

  lemma InvalidateKeeps(w: World)
    requires Inv(w)
    ensures Inv(Invalidate(w)) && Invalidate(w).timers == map[] && SamePushes(w, Invalidate(w))
    ensures w.reducer.Some? ==>
      Invalidate(w).reducer.Some?
      && Invalidate(w).reducer.value == w.reducer.value.(quiet := None, pending := None, inFlight := false)
  {
    if w.reducer.Some? {
      InvalidateShape(w);
      CalmKeeps(w, Invalidate(w));
    }
  }

  lemma InvalidateShape(w: World)
    requires TimersOk(w) && w.reducer.Some?
    ensures Invalidate(w).timers == map[]
    ensures Invalidate(w)
        == w.(timers := map[], reducer := Some(w.reducer.value.(quiet := None, pending := None, inFlight := false)))
  {
    assert ClearQuiet(w).timers == map[];
  }

  lemma CalmKeeps(w: World, w': World)
    requires Inv(w) && w.reducer.Some?
    requires w' == w.(timers := map[],
                      reducer := Some(w.reducer.value.(quiet := None, pending := None, inFlight := false)))
    ensures Inv(w')
  {
    CalmKeys(w, w');
  }

  lemma CalmKeys(w: World, w': World)
    requires KeysOk(w) && FreshOk(w) && w.reducer.Some?
    requires w' == w.(timers := map[],
                      reducer := Some(w.reducer.value.(quiet := None, pending := None, inFlight := false)))
    ensures KeysOk(w') && FreshOk(w')
  {
  }

  /** With no alert and no timer, a run may begin or be abandoned, and the branch left. */
  lemma ResetKeeps(w: World, w': World)
    requires Inv(w) && w.timers == map[] && w.reducer.Some?
    requires w.reducer.value.pending.None? && !w.reducer.value.inFlight
    requires w'.reducer.Some? && RunsOk(w'.reducer.value) && SamePushes(w, w')
    requires w' == w.(reducer := w'.reducer, token := w'.token)
    requires
      var r, r' := w.reducer.value, w'.reducer.value;
      && r'.pending.None? && !r'.inFlight && (r'.candidate == r.candidate || r'.candidate.None?)
      && r'.cursor == r.cursor
      && (if r'.current.Some? then r'.generations == r.generations + 1 else r'.generations == r.generations)
    ensures Inv(w')
  {
  }

  lemma StartKeeps(w: World, e: Event)
    requires Inv(w) && (e.SessionStart? || e.SessionShutdown?)
    ensures Inv(Next(w, e))
  {
  }

  lemma CursorKeeps(w: World)
    requires Inv(w)
    ensures Inv(CountInput(w)) && (w.reducer.Some? ==> CountInput(w).reducer.Some?)
  {
  }

  lemma ReportKeeps(w: World)
    requires Inv(w)
    ensures Inv(ReportHandled(w)) && (w.reducer.Some? ==> ReportHandled(w).reducer.Some?)
  {
  }

  /** An input that does not steer the running loop abandons it. */
  lemma AbandonKeeps(w: World)
    requires Inv(w) && w.reducer.Some?
    ensures Inv(Abandon(w))
  {
    InvalidateKeeps(w);
    ResetKeeps(Invalidate(w), Abandon(w));
  }

  lemma InputKeeps(w: World, streaming: bool)
    requires Inv(w)
    ensures Inv(OnInput(w, streaming))
  {
    if w.reducer.Some? {
      CursorKeeps(w);
      ReportKeeps(CountInput(w));
      if !streaming { AbandonKeeps(ReportHandled(CountInput(w))); }
    }
  }

  lemma LeafKeeps(w: World, leaf: Option<string>)
    requires Inv(w) && w.reducer.Some?
    ensures Inv(With(w, MoveLeaf(w.reducer.value, leaf)))
  {
  }

  lemma AgentStartKeeps(w: World, leaf: Option<string>)
    requires Inv(w) && w.reducer.Some?
    ensures Inv(BeginRun(With(w, MoveLeaf(w.reducer.value, leaf))))
  {
    LeafKeeps(w, leaf);
    var w1 := With(w, MoveLeaf(w.reducer.value, leaf));
    InvalidateKeeps(w1);
    ResetKeeps(Invalidate(w1), BeginRun(w1));
  }

  lemma AgentEndKeeps(w: World, leaf: Option<string>, assistantFound: bool, stop: StopReason)
    requires Inv(w)
    ensures Inv(OnAgentEnd(w, leaf, assistantFound, stop))
  {
    if w.reducer.Some? {
      LeafKeeps(w, leaf);
      EndRunKeeps(With(w, MoveLeaf(w.reducer.value, leaf)), OnAgentEnd(w, leaf, assistantFound, stop));
    }
  }

  lemma EndRunKeeps(w: World, w': World)
    requires Inv(w) && w.reducer.Some?
    requires w' == w
        || (w.reducer.value.loopRunning && w'.reducer.Some? && RunsOk(w'.reducer.value)
            && w'.reducer.value.current == w.reducer.value.current
                         && w' == With(w,
                                       w.reducer.value.(loopRunning := false, agentEnd := w'.reducer.value.agentEnd)))
    ensures Inv(w')
  {
  }

  lemma TreeKeeps(w: World, leaf: Option<string>)
    requires Inv(w) && w.reducer.Some?
    ensures Inv(ClearBranch(With(w, MoveLeaf(w.reducer.value, leaf))))
  {
    LeafKeeps(w, leaf);
    var w1 := With(w, MoveLeaf(w.reducer.value, leaf));
    InvalidateKeeps(w1);
    ResetKeeps(Invalidate(w1), ClearBranch(w1));
  }

  /** What agent_settled does before it decides on an alert: the run settles, or is given up. */
  lemma SettleKeeps(w: World, r': Reducer)
    requires Inv(w) && w.reducer.Some? && w.reducer.value.pending.None? && w.reducer.value.current.Some?
    requires
      var r := w.reducer.value;
      && r' == r.(loopRunning := false, agentEnd := None, current := None, settled := r'.settled, emitted := r'.emitted)
      && r'.settled in {r.settled, r.current} && (r.emitted ==> r'.emitted)
    ensures Inv(With(w, r'))
    ensures Unpublished(With(w, r'), (w.epoch, r'.generations)) && w.timers == map[]
  {
  }

  lemma SubmitKeeps(w: World, run: nat, fingerprint: Option<string>)
    requires Inv(w) && w.reducer.Some? && w.timers == map[]
    requires w.reducer.value.settled == Some(run) && Unpublished(w, (w.epoch, w.reducer.value.generations))
    ensures Inv(Submit(w, run, fingerprint))
  {
    var r := w.reducer.value;
    if !r.emitted && r.pending.None? {
      var alert := Alert(w.nextId, r.flow, run, fingerprint);
      var w1 := With(w, r.(pending := Some(alert))).(nextId := w.nextId + 1);
      assert ClearQuiet(w1).timers == map[];
      AlertCore(w, w1);
      ScheduleKeeps(w1, Submit(w, run, fingerprint));
    }
  }

  /** A new alert for the settled run, not yet scheduled. */
  lemma AlertCore(w: World, w': World)
    requires Inv(w) && w.reducer.Some? && w.timers == map[] && !w.reducer.value.emitted && w.reducer.value.pending.None?
    requires Unpublished(w, (w.epoch, w.reducer.value.generations))
    requires w'.reducer.Some? && w'.reducer.value.pending.Some?
    requires var a := w'.reducer.value.pending.value;
             && w.reducer.value.settled == Some(a.run) && a.serial == w.nextId && a.flow == w.reducer.value.flow
             && w' == w.(reducer := Some(w.reducer.value.(pending := Some(a))), nextId := w.nextId + 1)
    ensures Core(w') && Unpublished(w', (w.epoch, w.reducer.value.generations)) && !w'.reducer.value.inFlight
  {
  }

  /** Scheduling the timer of a pending alert that has no push, unanswered or successful. */
  lemma ScheduleKeeps(w: World, w': World)
    requires Core(w) && w.timers == map[] && w.reducer.Some? && w.reducer.value.pending.Some?
        && !w.reducer.value.inFlight
    requires Unpublished(w, (w.epoch, w.reducer.value.generations))
    requires w' == With(w, w.reducer.value.(quiet := Some(w.nextId))).(
                     timers := map[w.nextId := Timer(w.reducer.value.sessionId, w.reducer.value.flow)],
                         nextId := w.nextId + 1)
    ensures Inv(w')
  {
  }

  lemma SettledKeeps(w: World, fingerprint: string)
    requires Inv(w)
    ensures Inv(OnSettled(w, fingerprint))
  {
    var s := SettlementOf(w, fingerprint);
    if !s.Ignored? {
      var r' := AfterSettlement(w.reducer.value, s);
      SettleKeeps(w, r');
      if s.SettledWithAlert? { SubmitKeeps(With(w, r'), w.reducer.value.current.value, s.fingerprint); }
    }
  }

  /** The only scheduled timer is gone from the schedule; `quiet` still names it. */
  lemma EmitKeeps(w: World, timer: nat, publish: bool)
    requires Inv(w) && timer in w.timers
    ensures Inv(Emit(ClearQuiet(w), w.reducer.value.pending.value, publish))
  {
    var w1, r := ClearQuiet(w), w.reducer.value;
    assert w1.timers == map[];
    assert w1 == w.(timers := map[], reducer := Some(r.(quiet := None)));
    if publish { PublishKeeps(w, Emit(w1, r.pending.value, true)); }
    else { EmittedKeeps(w, Emit(w1, r.pending.value, false)); }
  }

  lemma PublishKeeps(w: World, w': World)
    requires Inv(w) && w.timers != map[] && w.reducer.Some? && w.reducer.value.pending.Some?
    requires Unpublished(w, (w.epoch, w.reducer.value.generations))
    requires var r := w.reducer.value;
             var push := Push(r.pending.value, w.token, r.sessionId, r.leaf, r.flow, r.settled, r.cursor, w.epoch);
             w' == w.(timers := map[], reducer := Some(r.(quiet := None, inFlight := true)),
                      pushes := w.pushes[w.nextId := push], nextId := w.nextId + 1)
    ensures Inv(w')
  {
    assert w'.pushes[w.nextId].alert == w.reducer.value.pending.value;
  }

  lemma EmittedKeeps(w: World, w': World)
    requires Inv(w) && w.timers != map[] && w.reducer.Some? && w.reducer.value.pending.Some?
    requires w' == w.(timers := map[], fingerprints := w'.fingerprints,
                      reducer := Some(w.reducer.value.(quiet := None, emitted := true, pending := None,
                                                       inFlight := false, candidate := None)))
    ensures Inv(w')
  {
  }

  lemma FireKeeps(w: World, timer: nat, newWork: bool, publish: bool)
    requires Inv(w)
    ensures Inv(OnFire(w, timer, newWork, publish))
  {
    if timer in w.timers {
      var w1 := w.(timers := w.timers - {timer});
      assert ClearQuiet(w1) == ClearQuiet(w);
      InvalidateKeeps(w);
      EmitKeeps(w, timer, publish);
    }
  }

  /** Only the candidate, its reports and the fingerprints change. */
  lemma CandidateKeeps(w: World, w': World)
    requires Inv(w) && CandidateOk(w') && (w.reducer.Some? <==> w'.reducer.Some?)
    requires w' == w.(handling := w'.handling, reducer := w'.reducer, fingerprints := w'.fingerprints)
    requires w.reducer.Some? ==> w'.reducer.value == w.reducer.value.(candidate := w'.reducer.value.candidate)
    ensures Inv(w')
  {
  }

  lemma HandledKeeps(w: World, candidate: nat, ok: bool)
    requires Inv(w)
    ensures Inv(OnHandled(w, candidate, ok))
  {
    CandidateKeeps(w, OnHandled(w, candidate, ok));
  }

  function Gone(w: World, id: nat, success: bool): World
    requires id in w.pushes
  {
    w.(pushes := w.pushes - {id}, published := if success then w.published + [w.pushes[id]] else w.published)
  }

  lemma GoneKeys(w: World, id: nat, success: bool)
    requires KeysOk(w) && FreshOk(w) && id in w.pushes
    ensures KeysOk(Gone(w, id, success)) && FreshOk(Gone(w, id, success))
  {
    var p, w' := w.pushes[id], Gone(w, id, success);
    forall i | 0 <= i < |w'.published|
      ensures Past(w', Key(w'.published[i]))
      ensures forall j :: i < j < |w'.published| ==> Key(w'.published[i]) != Key(w'.published[j])
    {
      if i < |w.published| { assert w'.published[i] == w.published[i]; }
    }
  }

  /** No timer is scheduled while the pending alert has a push. */
  lemma PushedHasNoTimer(w: World, id: nat)
    requires Inv(w) && id in w.pushes && w.reducer.Some? && w.reducer.value.pending == Some(w.pushes[id].alert)
    ensures w.timers == map[]
    ensures SameBranch(w, w.pushes[id]) <==> w.reducer.value.leaf == w.pushes[id].leaf
    ensures StillPending(w, w.pushes[id])
    ensures Unpublished(Gone(w, id, false), (w.epoch, w.reducer.value.generations))
  {
    assert Key(w.pushes[id]) == (w.epoch, w.reducer.value.generations);
  }

  lemma GoneCore(w: World, id: nat, success: bool)
    requires Inv(w) && id in w.pushes
    ensures Core(Gone(w, id, success)) && Core(Answered(Gone(w, id, success), w.pushes[id]))
    ensures CandidateOk(Gone(w, id, success)) && id !in Gone(w, id, success).pushes && id !in w.handling
  {
    GoneKeys(w, id, success);
  }

  lemma GoneAlive(w: World, id: nat, w': World)
    requires Inv(w) && id in w.pushes
    requires w' == Answered(Gone(w, id, true), w.pushes[id])
             || w' == Answered(Gone(w, id, false).(dropped := w.dropped + {w.pushes[id].alert.serial}), w.pushes[id])
    ensures AliveOk(w')
  {
    if w.reducer.Some? && w.reducer.value.pending.Some? {
      var a, p := w.reducer.value.pending.value, w.pushes[id];
      if k :| k in w.pushes && w.pushes[k].alert == a && p.alert != a { assert w'.pushes[k].alert == a; }
      if i :| 0 <= i < |w.published| && w.published[i].alert == a { assert w'.published[i].alert == a; }
      if |w'.published| > |w.published| { assert w'.published[|w.published|] == p; }
    }
  }

  lemma AnsweredKeeps(w: World, id: nat)
    requires Inv(w) && id in w.pushes
    ensures Inv(Answered(Gone(w, id, true), w.pushes[id]))
  {
    GoneCore(w, id, true);
    GoneAlive(w, id, Answered(Gone(w, id, true), w.pushes[id]));
  }

  lemma DroppedCore(w: World, id: nat, dropped: set<nat>)
    requires Inv(w) && id in w.pushes
    ensures Core(Answered(Gone(w, id, false).(dropped := dropped), w.pushes[id]))
  {
    GoneCore(w, id, false);
    var w1 := Answered(Gone(w, id, false), w.pushes[id]);
    assert Answered(Gone(w, id, false).(dropped := dropped), w.pushes[id]) == w1.(dropped := dropped);
  }

  lemma DroppedKeeps(w: World, id: nat)
    requires Inv(w) && id in w.pushes
    ensures Inv(Answered(Gone(w, id, false).(dropped := w.dropped + {w.pushes[id].alert.serial}), w.pushes[id]))
  {
    DroppedCore(w, id, w.dropped + {w.pushes[id].alert.serial});
    GoneAlive(w, id, Answered(Gone(w, id, false).(dropped := w.dropped + {w.pushes[id].alert.serial}), w.pushes[id]));
  }

  /** The success is noted as a candidate, and nothing else changes. */
  lemma NotedKeeps(w: World, id: nat)
    requires Inv(w) && id in w.pushes && SameBranch(w, w.pushes[id])
    requires w.reducer.value.cursor > w.pushes[id].cursor || !StillPending(w, w.pushes[id])
    ensures Inv(OnPushed(w, id))
  {
    AnsweredKeeps(w, id);
    NotedCandidate(w, id);
    CandidateKeeps(Answered(Gone(w, id, true), w.pushes[id]), OnPushed(w, id));
  }

  lemma NotedCandidate(w: World, id: nat)
    requires Inv(w) && id in w.pushes && SameBranch(w, w.pushes[id])
    requires w.reducer.value.cursor > w.pushes[id].cursor || !StillPending(w, w.pushes[id])
    ensures CandidateOk(OnPushed(w, id)) && OnPushed(w, id).reducer.Some?
    ensures var w1, w' := Answered(Gone(w, id, true), w.pushes[id]), OnPushed(w, id);
            w' == w1.(handling := w'.handling, fingerprints := w'.fingerprints,
                      reducer := Some(w1.reducer.value.(candidate := w'.reducer.value.candidate)))
  {
  }

  lemma SucceedsKeeps(w: World, id: nat)
    requires Inv(w) && id in w.pushes
    ensures Inv(OnPushed(w, id))
  {
    var p := w.pushes[id];
    if !SameBranch(w, p) {
      AnsweredKeeps(w, id);
    } else if w.reducer.value.cursor > p.cursor || !StillPending(w, p) {
      NotedKeeps(w, id);
    } else {
      PushedHasNoTimer(w, id);
      GoneCore(w, id, true);
      FinishKeeps(Gone(w, id, true), OnPushed(w, id));
    }
  }

  /** The pending alert is done with. */
  lemma FinishKeeps(w: World, w': World)
    requires Core(w) && w.timers == map[] && w.reducer.Some? && w'.reducer.Some? && CandidateOk(w')
    requires w' == w.(reducer := w'.reducer, fingerprints := w'.fingerprints)
    requires w'.reducer.value
        == w.reducer.value.(pending := None, emitted := true, candidate := w'.reducer.value.candidate)
    ensures Inv(w')
  {
  }

  /** A retry, with the push gone and the timer in its place. */
  lemma RetryIs(w: World, id: nat)
    requires id in w.pushes && SameBranch(w, w.pushes[id]) && StillPending(w, w.pushes[id]) && w.timers == map[]
    ensures var w1 := Gone(w, id, false);
            var w2 := With(w1, w1.reducer.value.(inFlight := false, quiet := None));
            OnPushFailed(w, id) == With(w2, w2.reducer.value.(quiet := Some(w2.nextId))).(
                     timers := map[w2.nextId := Timer(w2.reducer.value.sessionId, w2.reducer.value.flow)],
                         nextId := w2.nextId + 1)
  {
    assert ClearQuiet(Gone(w, id, false)).timers == map[];
  }

  lemma RetryKeeps(w: World, id: nat)
    requires Inv(w) && id in w.pushes && SameBranch(w, w.pushes[id]) && StillPending(w, w.pushes[id])
    ensures Inv(OnPushFailed(w, id)) && OnPushFailed(w, id).timers != map[]
  {
    var w1 := Gone(w, id, false);
    GoneCore(w, id, false);
    PushedHasNoTimer(w, id);
    RetryIs(w, id);
    ScheduleKeeps(With(w1, w1.reducer.value.(inFlight := false, quiet := None)), OnPushFailed(w, id));
  }

  lemma FailsKeeps(w: World, id: nat)
    requires Inv(w) && id in w.pushes
    ensures Inv(OnPushFailed(w, id))
  {
    if SameBranch(w, w.pushes[id]) && StillPending(w, w.pushes[id]) {
      RetryKeeps(w, id);
    } else {
      DroppedKeeps(w, id);
    }
  }

  lemma NextKeeps(w: World, e: Event)
    requires Inv(w)
    ensures Inv(Next(w, e))
  {
    match e
    case SessionStart(_, _) => StartKeeps(w, e);
    case SessionShutdown => StartKeeps(w, e);
    case Input(streaming) => InputKeeps(w, streaming);
    case AgentStart(own, leaf) => if own && w.reducer.Some? { AgentStartKeeps(w, leaf); }
    case AgentEnded(_, leaf, found, stop) => AgentEndKeeps(w, leaf, found, stop);
    case AgentSettled(_, fingerprint) => SettledKeeps(w, fingerprint);
    case TreeSwitch(own, leaf) => if own && w.reducer.Some? { TreeKeeps(w, leaf); }
    case Fire(timer, newWork, publish) => FireKeeps(w, timer, newWork, publish);
    case PushSucceeds(push) => if push in w.pushes { SucceedsKeeps(w, push); }
    case PushFails(push) => if push in w.pushes { FailsKeeps(w, push); }
    case HandleSucceeds(candidate) => HandledKeeps(w, candidate, true);
    case HandleFails(candidate) => HandledKeeps(w, candidate, false);
  }

  lemma {:induction false} RunKeeps(events: seq<Event>)
    ensures Inv(Run(Init, events))
  {
    if events != [] {
      RunKeeps(events[..|events| - 1]);
      NextKeeps(Run(Init, events[..|events| - 1]), events[|events| - 1]);
    }
  }
}
