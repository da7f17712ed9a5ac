/** What single calls of the registry do, each stated on the state before and after it. */
module RegistryCalls {
  import opened Wrappers
  import opened Registry
  import opened RegistryRuns

  // ----- Owners

  /** The session has an owner whose lease has not expired. */
  predicate Owned(w: World, s: SessionId) { s in w.sessions && w.now <= w.sessions[s].renewed + 6_000 }

  /** A registration is refused if it names no instance, collides, or is of another instance than the live owner's. */
  predicate Refused(w: World, s: SessionId, r: Registration) {
    r.instance == "" || r.collides || (Owned(w, s) && w.sessions[s].instance != r.instance)
  }

  /**
   A registration that is not refused makes its instance the owner, from now on: the live owner keeps its lease, any
   other gets one never granted before.  One that is invalid only drops an expired owner.
   */
  lemma RegistrationIs(w: World, s: SessionId, r: Registration)
    requires Reachable(w)
    ensures var w' := Next(w, Register(s, r));
            && (Refused(w, s, r) ==> w' == w)
            && (!Refused(w, s, r) && r.valid ==>
                  && s in w'.sessions && w'.sessions[s].instance == r.instance && w'.sessions[s].renewed == w.now
                  && (if Owned(w, s) then w'.sessions[s].lease == w.sessions[s].lease
                      else w'.sessions[s].lease !in w.log.granted))
            && (!Refused(w, s, r) && !r.valid ==> (s in w'.sessions <==> Owned(w, s)))
            && (forall t :: t != s ==>
                  (t in w'.sessions <==> t in w.sessions) && (t in w.sessions ==> w'.sessions[t] == w.sessions[t]))
  {
    ReachableInv(w);
    assert LeaseOk(w, w.nextId);
  }

  /** A registration of the live owner cancels its staged Event exactly when the store's transition does. */
  lemma RegistrationKeepsStaged(w: World, s: SessionId, r: Registration)
    requires Owned(w, s) && !Refused(w, s, r) && r.valid && s in w.stages.delayed
    ensures var w' := Next(w, Register(s, r));
            if r.cancelsTerminal then s !in w'.stages.delayed && s !in w'.stages.timers
            else w'.stages == w.stages
  {
  }

  /** A heartbeat renews the owner, and cancels the staged Event exactly when the context has changed. */
  lemma HeartbeatIs(w: World, s: SessionId, valid: bool, changed: bool)
    ensures var w' := Next(w, Heartbeat(s, valid, changed));
            if s in w.sessions && valid
            then && w'.sessions == w.sessions[s := Session(w.sessions[s].instance, w.sessions[s].lease, w.now)]
                 && (if changed then s !in w'.stages.delayed && s !in w'.stages.timers else w'.stages == w.stages)
                 && w'.work == w.work && w'.log == w.log
            else w' == w
  {
  }

  /** A lease lasts six seconds from the last registration or heartbeat, and the check that finds it over ends it. */
  lemma LeaseLasts(w: World, s: SessionId, e: Event, time: nat)
    requires (e.Register? && e.session == s && !Refused(w, s, e.registration) && e.registration.valid)
             || (e.Heartbeat? && e.session == s && e.valid && s in w.sessions)
    requires time >= w.now
    ensures s in Next(w, e).sessions
    ensures var owner := Next(w, e).sessions[s];
            var later := Next(Next(w, e), Advance(time));
            && (Authorises(later, s, owner.instance, owner.lease) <==> time - w.now <= 6_000)
            && (s in Next(later, AssertOwner(s, owner.instance, owner.lease)).sessions <==> time - w.now <= 6_000)
  {
  }

  // ----- Commands

  /** A command is taken for a registered session unless disposed: bound to it, and in flight or last in its queue. */
  lemma EnqueueIs(w: World, s: SessionId, c: CommandId)
    ensures var w' := Next(w, Enqueue(s, c));
            if s !in w.sessions || w.disposed then w' == w
            else && w'.work.bindings == w.work.bindings[c := s]
                 && (if Waiters(w, s) != [] then c in InFlight(w', s) && Queue(w', s) == Queue(w, s)
                     else Queue(w', s) == Queue(w, s) + [c] && InFlight(w', s) == InFlight(w, s))
  {
  }

  /**
   A poll of the live owner takes the head of the queue, which is then in flight, or waits behind the earlier polls.
   Any other poll only drops an expired owner.
   */
  lemma PollIs(w: World, s: SessionId, instance: string, lease: nat, waits: bool)
    ensures
      var w' := Next(w, Poll(s, instance, lease, waits));
      var mine := Owned(w, s) && w.sessions[s].instance == instance && w.sessions[s].lease == lease;
      if mine && !w.disposed && Queue(w, s) != []
      then && [Queue(w, s)[0]] + Queue(w', s) == Queue(w, s) && InFlight(w', s) == InFlight(w, s) + {Queue(w, s)[0]}
           && w'.log.handed == w.log.handed + [Handover(Queue(w, s)[0], s, lease, lease)]
           && w'.work.waiters == w.work.waiters && w'.stages == w.stages && w'.sessions == w.sessions
      else if mine && !w.disposed && waits
      then && Waiters(w', s) == Waiters(w, s) + [Waiter(w.nextId, lease)] && w'.nextId == w.nextId + 1
           && w'.work == w.work.(waiters := w'.work.waiters) && w'.stages == w.stages && w'.sessions == w.sessions
      else if s in w.sessions && !Owned(w, s) then s !in w'.sessions
      else w' == w
  {
  }

  /** What becomes of a session's staged Event once a command of it has ended. */
  ghost predicate EndedEvent(w: World, w': World, s: SessionId, works: bool) {
    if s in w.stages.delayed && Queue(w', s) == [] && InFlight(w', s) == {} && s in w.sessions then
      if works
      then && s !in w'.stages.delayed && s !in w'.stages.timers
           && w'.log.committed == w.log.committed + [(s, w.stages.delayed[s].eventId)]
      else w'.stages.delayed == w.stages.delayed && w'.log == w.log && (!w.disposed ==> s in w'.stages.timers)
    else w'.stages == w.stages && w'.log == w.log
  }

  /** The command is no longer bound or in flight; queues and the commands of others are as they were. */
  ghost predicate EndedCommand(w: World, w': World, s: SessionId, c: CommandId) {
    && w'.work.bindings == w.work.bindings - {c} && w'.work.queues == w.work.queues && w'.sessions == w.sessions
    && InFlight(w', s) == InFlight(w, s) - {c} && forall t :: t != s ==> InFlight(w', t) == InFlight(w, t)
  }

  /**
   A result is taken for a command bound to the registered session that sends it, and ends it; the session's staged
   Event is then committed if no other command is in its way.
   */
  lemma ResolveIs(w: World, s: SessionId, c: CommandId, matches: bool, works: bool)
    requires Reachable(w)
    ensures var w' := Next(w, Resolve(s, c, matches, works));
            if !w.disposed && matches && c in w.work.bindings && w.work.bindings[c] == s && s in w.sessions
            then EndedCommand(w, w', s, c) && EndedEvent(w, w', s, works)
            else w' == w
  {
    ReachableInv(w);
    assert StagedOk(w, s) && WorkOk(w, s);
    if c in w.work.bindings {
      assert StagedOk(w, w.work.bindings[c]);
      EndIs(w, w.work.bindings[c], c, works);
    }
  }

  /** An abandoned command ends in the same way, but for its place in a queue. */
  lemma AbandonIs(w: World, c: CommandId, works: bool)
    requires Reachable(w)
    ensures var w' := Next(w, Abandon(c, works));
            if c in w.work.bindings
            then EndedCommand(w, w', w.work.bindings[c], c) && EndedEvent(w, w', w.work.bindings[c], works)
            else w' == w
  {
    ReachableInv(w);
    if c in w.work.bindings {
      assert BindingOk(w, c) && StagedOk(w, w.work.bindings[c]);
      EndIs(w, w.work.bindings[c], c, works);
    }
  }

  lemma EndIs(w: World, s: SessionId, c: CommandId, works: bool)
    requires s in w.stages.delayed ==> s in w.sessions
    ensures var w' := Unbound(ClearInFlight(w, s, c, works), c);
            EndedCommand(w, w', s, c) && EndedEvent(w, w', s, works)
  {
  }

  // ----- Terminal Events

  /** A timer that is not armed, or fires after disposal, does nothing more. */
  lemma UnarmedRetryIs(w: World, s: SessionId, works: bool)
    requires s !in w.stages.timers || w.disposed
    ensures Next(w, RetryFires(s, works)) == w.(stages := w.stages.(timers := w.stages.timers - {s}))
  {
  }

  /** A retry timer that fires commits the staged Event of a session without work, or is armed again. */
  lemma RetryIs(w: World, s: SessionId, works: bool)
    requires Reachable(w) && s in w.stages.timers && !w.disposed
    ensures s in w.stages.delayed
    ensures var w' := Next(w, RetryFires(s, works));
            if HasWork(w, s) then w' == w.(stages := w.stages.(timers := w.stages.timers - {s}))
            else if works
            then && s !in w'.stages.delayed && s !in w'.stages.timers
                 && w'.log.committed == w.log.committed + [(s, w.stages.delayed[s].eventId)]
            else w' == w
  {
    ReachableInv(w);
    assert StagedOk(w, s);
  }

  /** The source is that of the accepted Event, or not above it. */
  predicate Repeats(w: World, s: SessionId, r: PushRequest) {
    r.source.Some? && s in w.stages.checkpoints
    && r.source.value == (w.stages.checkpoints[s].producerId, w.stages.checkpoints[s].order)
  }

  predicate Outdated(w: World, s: SessionId, r: PushRequest) {
    r.source.Some? && s in w.stages.checkpoints && !Repeats(w, s, r)
    && r.source.value.1 <= w.stages.checkpoints[s].order
  }

  /** The session's staged Event has the pushed content. */
  predicate StagedAlready(w: World, s: SessionId, r: PushRequest) {
    s in w.stages.delayed && w.stages.delayed[s].fingerprint == r.fingerprint
  }

  /** The Event id that a pushed content gets: the staged one's, the reserved one, or a new one. */
  function EventIdFor(w: World, s: SessionId, r: PushRequest, evidence: Evidence): nat {
    if StagedAlready(w, s, r) then w.stages.delayed[s].eventId
    else if evidence.reservation.Some? then evidence.reservation.value
    else w.nextId
  }

  /** A push is refused exactly for an unknown session, a request that does not fit it, or a source that is outdated. */
  lemma PushIsRefused(w: World, s: SessionId, r: PushRequest, evidence: Evidence, works: bool)
    requires s !in w.sessions || !r.matches || Outdated(w, s, r)
    ensures var (w', response) := OnPush(w, s, r, evidence, works);
            w' == w && response == if s !in w.sessions || !r.matches then Invalid else OrderConflict
  {
  }

  /** The session's retry timer after a push of the Event: none once committed, armed after a failed commit. */
  function TimersAfter(w: World, s: SessionId, inPlace: bool, works: bool): set<SessionId> {
    if !HasWork(w, s) && works then w.stages.timers - {s}
    else if !HasWork(w, s) && !w.disposed then w.stages.timers + {s}
    else if inPlace then w.stages.timers - {s}
    else w.stages.timers
  }

  /** The staged Events after a push: the Event waits behind the session's work or for its next attempt, or is gone. */
  function DelayedAfter(w: World, s: SessionId, event: Terminal, works: bool): map<SessionId, Terminal> {
    if HasWork(w, s) || !works then w.stages.delayed[s := event] else w.stages.delayed - {s}
  }

  function CommittedAfter(w: World, s: SessionId, id: nat, works: bool): seq<(SessionId, nat)> {
    if !HasWork(w, s) && works then w.log.committed + [(s, id)] else w.log.committed
  }

  /** What staging an Event and one attempt to commit it leave. */
  lemma StagingIs(w: World, s: SessionId, source: Option<(string, nat)>, d: Decision, works: bool)
    requires d.Stage?
    ensures
      var w' := Attempted(StagedIn(w, s, source, d), s, FirstAttempt(w, s, works), d.terminal.eventId);
      && w'.stages.delayed == DelayedAfter(w, s, d.terminal, works)
      && w'.stages.timers == TimersAfter(w, s, d.supersedes, works)
      && w'.stages.checkpoints == StagedIn(w, s, source, d).stages.checkpoints
      && w'.log.committed == CommittedAfter(w, s, d.terminal.eventId, works)
      && w'.nextId == (if d.newId then w.nextId + 1 else w.nextId) && w'.work == w.work && w'.sessions == w.sessions
  {
  }

  lemma DecisionIs(w: World, s: SessionId, r: PushRequest, evidence: Evidence)
    requires s in w.sessions && r.matches && !Outdated(w, s, r) && !Repeats(w, s, r)
    ensures
      var id, staged := EventIdFor(w, s, r, evidence), StagedAlready(w, s, r);
      var isNew := !staged && evidence.reservation.None?;
      Decide(w, s, r, evidence) ==
      if !staged && evidence.reservation.Some? && !evidence.tuple then Answer(Accepted(id, true))
      else Stage(Terminal(r.fingerprint, id), staged, isNew, isNew && s in w.stages.delayed, !staged)
  {
  }

  /**
   Any other push that repeats no accepted source is answered with the Event id for its content.  With its tuple it is
   staged behind the session's work, or committed at once; its source is accepted unless the content was staged already.
   */
  lemma PushIs(w: World, s: SessionId, r: PushRequest, evidence: Evidence, works: bool)
    requires s in w.sessions && r.matches && !Outdated(w, s, r) && !Repeats(w, s, r)
    ensures
      var (w', response) := OnPush(w, s, r, evidence, works);
      var id, staged := EventIdFor(w, s, r, evidence), StagedAlready(w, s, r);
      var isNew := !staged && evidence.reservation.None?;
      if !staged && evidence.reservation.Some? && !evidence.tuple then w' == w && response == Accepted(id, true)
      else
        && w'.stages.delayed == DelayedAfter(w, s, Terminal(r.fingerprint, id), works)
        && w'.stages.timers == TimersAfter(w, s, isNew && s in w.stages.delayed, works)
        && w'.stages.checkpoints
           == (if r.source.Some? && !staged
               then w.stages.checkpoints[s := Checkpoint(r.source.value.0, r.source.value.1, id, r.fingerprint)]
               else w.stages.checkpoints)
        && w'.log.committed == CommittedAfter(w, s, id, works)
        && response == (if !HasWork(w, s) && !works then CommitFailed else Accepted(id, staged))
        && w'.nextId == (if isNew then w.nextId + 1 else w.nextId) && w'.work == w.work && w'.sessions == w.sessions
  {
    DecisionIs(w, s, r, evidence);
    var d := Decide(w, s, r, evidence);
    if d.Stage? { StagingIs(w, s, r.source, d, works); }
  }

  /**
   A push that repeats the accepted source is refused for other content; the accepted Event is staged or committed
   once more if the store still has it reserved with its tuple, and nothing else changes.
   */
  lemma RepeatIs(w: World, s: SessionId, r: PushRequest, evidence: Evidence, works: bool)
    requires s in w.sessions && r.matches && Repeats(w, s, r)
    ensures
      var (w', response) := OnPush(w, s, r, evidence, works);
      var c := w.stages.checkpoints[s];
      if r.fingerprint == c.fingerprint && evidence == Evidence(Some(c.eventId), true)
      then && w'.stages.delayed == DelayedAfter(w, s, Terminal(c.fingerprint, c.eventId), works)
           && w'.stages.timers == TimersAfter(w, s, false, works) && w'.stages.checkpoints == w.stages.checkpoints
           && w'.log.committed == CommittedAfter(w, s, c.eventId, works)
           && response == (if !HasWork(w, s) && !works then CommitFailed else Accepted(c.eventId, true))
           && w'.nextId == w.nextId && w'.work == w.work && w'.sessions == w.sessions
      else && w' == w
           && response == if r.fingerprint != c.fingerprint then OrderConflict
                          else if evidence.reservation.None? then Accepted(c.eventId, true) else Invalid
  {
  }

  // ----- The registry's end

  /** Disposal leaves no command, poll, staged Event or timer; owners and accepted sources stay. */
  lemma DisposeIs(w: World)
    ensures var w' := Next(w, Dispose);
            w'.disposed && w'.sessions == w.sessions && w'.stages.checkpoints == w.stages.checkpoints
    ensures var w' := Next(w, Dispose);
            !w.disposed ==> w'.stages.delayed == map[] && w'.stages.timers == {} && w'.work == Init.work
  {
  }

  /** A restart leaves the accepted sources alone, and a registry that takes calls again. */
  lemma RestartIs(w: World)
    ensures var w' := Next(w, Restart);
            && !w'.disposed && w'.sessions == map[] && w'.work == Init.work && w'.nextId == w.nextId
            && w'.stages == Stages(map[], {}, w.stages.checkpoints) && w'.log == w.log.(lost := w'.log.lost)
            && (forall lease: nat ::
                  lease in w'.log.lost
                  <==> lease in w.log.lost || exists s :: s in w.sessions && w.sessions[s].lease == lease)
  {
  }

  /**
   Between disposal and the next start no command is handed over, and without pushes, which are not refused then,
   nothing is staged or committed.
   */
  lemma {:induction false} DisposedIsQuiet(w: World, events: seq<Event>)
    requires w.disposed && forall i | 0 <= i < |events| :: !events[i].Restart?
    ensures var w' := Run(w, events); w'.disposed && w'.log.handed == w.log.handed
    ensures w.stages.delayed == map[] && (forall i | 0 <= i < |events| :: !events[i].Push?) ==>
              Run(w, events).stages.delayed == map[] && Run(w, events).log.committed == w.log.committed
  {
    if events != [] {
      DisposedIsQuiet(w, events[..|events| - 1]);
      DisposedStepIsQuiet(Run(w, events[..|events| - 1]), events[|events| - 1]);
    }
  }

  lemma DisposedStepIsQuiet(w: World, e: Event)
    requires w.disposed && !e.Restart?
    ensures Next(w, e).disposed && Next(w, e).log.handed == w.log.handed
    ensures w.stages.delayed == map[] && !e.Push? ==>
              Next(w, e).stages.delayed == map[] && Next(w, e).log.committed == w.log.committed
  {
  }
}
