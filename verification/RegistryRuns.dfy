/** What holds of owners, commands, terminal Events and producer orders over every run of the registry. */
module RegistryRuns {
  import opened Wrappers
  import opened Registry

  lemma {:induction false} RunKeeps(w: World, events: seq<Event>)
    requires Inv(w) && RunGuarded(w, events)
    ensures Inv(Run(w, events))
  {
    if events != [] {
      var n := |events| - 1;
      RunKeeps(w, events[..n]);
      NextKeeps(Run(w, events[..n]), events[n]);
    }
  }

  ghost predicate Reachable(w: World) {
    exists events :: RunGuarded(Init, events) && w == Run(Init, events)
  }

  lemma ReachableInv(w: World)
    requires Reachable(w)
    ensures Inv(w)
  {
    var events :| RunGuarded(Init, events) && w == Run(Init, events);
    RunKeeps(Init, events);
  }

  // ----- Terminal Events

  /** No lost terminal Event: with no command work in its way, a staged one always has its timer. */
  lemma StagedHasTimer(w: World, s: SessionId)
    requires Reachable(w) && s in w.stages.delayed
    ensures s in w.sessions
    ensures !w.disposed && Queue(w, s) == [] && InFlight(w, s) == {} ==> s in w.stages.timers
  {
    ReachableInv(w);
    assert StagedOk(w, s);
  }

  /** The terminal Events committed by a step: at most one, of a live session with nothing queued or in flight. */
  ghost predicate CommitsIdle(w: World, w': World) {
    w'.log.committed == w.log.committed
    || (|w'.log.committed| == |w.log.committed| + 1
        && var s := w'.log.committed[|w.log.committed|].0;
           !HasWork(w', s) && s in w'.sessions && s !in w'.stages.delayed)
  }

  /** No early terminal Event. */
  lemma CommittedWithoutWork(w: World, e: Event)
    requires Reachable(w)
    ensures CommitsIdle(w, Next(w, e))
  {
    ReachableInv(w);
    match e
    case Resolve(s, c, matches, works) =>
      if c in w.work.bindings { ClearCommits(w, w.work.bindings[c], c, works); }
    case Abandon(c, works) =>
      if c in w.work.bindings { ClearCommits(w, w.work.bindings[c], c, works); }
    case RetryFires(s, works) => RetryCommits(w, s, works);
    case Push(s, r, evidence, works) => PushCommits(w, s, r, evidence, works);
    case _ => OthersCommitNothing(w, e);
  }

  lemma FlushCommits(w: World, s: SessionId, works: bool)
    ensures CommitsIdle(w, Flush(w, s, works))
  {
  }

  lemma RetryCommits(w: World, s: SessionId, works: bool)
    ensures CommitsIdle(w, OnRetry(w, s, works))
  {
    FlushCommits(Fired(w, s), s, works);
  }

  lemma ClearCommits(w: World, s: SessionId, c: CommandId, works: bool)
    ensures CommitsIdle(w, Unbound(ClearInFlight(w, s, c, works), c))
  {
    FlushCommits(WithInFlight(w, s, InFlight(w, s) - {c}), s, works);
  }

  lemma PushCommits(w: World, s: SessionId, r: PushRequest, evidence: Evidence, works: bool)
    ensures CommitsIdle(w, OnPush(w, s, r, evidence, works).0)
  {
  }

  /** Every other step leaves what was committed alone. */
  lemma OthersCommitNothing(w: World, e: Event)
    requires !e.Resolve? && !e.Abandon? && !e.RetryFires? && !e.Push?
    ensures Next(w, e).log.committed == w.log.committed
  {
  }

  /** The ways in which a staged Event goes: committed, pushed over, cancelled, or lost with its owner. */
  lemma StagedStaysUnless(w: World, e: Event, s: SessionId)
    requires Reachable(w) && s in w.stages.delayed && !e.Dispose? && !(e.Push? && e.session == s)
    requires !(e.Register? && e.session == s) && !(e.Heartbeat? && e.session == s && e.contextChanged)
    requires s in Next(w, e).sessions
    ensures StaysOrCommits(w, Next(w, e), s)
  {
    ReachableInv(w);
    assert StagedOk(w, s);
    if e.Resolve? || e.Abandon? {
      if e.command in w.work.bindings { ClearStages(w, w.work.bindings[e.command], e.command, e.works, s); }
    } else if e.RetryFires? {
      FlushStages(Fired(w, e.session), e.session, e.works, s);
    } else {
      OthersStageNothing(w, e, s);
    }
  }

  ghost predicate StaysOrCommits(w: World, w': World, s: SessionId)
    requires s in w.stages.delayed
  {
    (s in w'.stages.delayed && w'.stages.delayed[s] == w.stages.delayed[s])
    || w'.log.committed == w.log.committed + [(s, w.stages.delayed[s].eventId)]
  }

  lemma FlushStages(w: World, t: SessionId, works: bool, s: SessionId)
    requires s in w.stages.delayed && s in w.sessions
    ensures StaysOrCommits(w, Flush(w, t, works), s)
  {
  }

  lemma ClearStages(w: World, t: SessionId, c: CommandId, works: bool, s: SessionId)
    requires s in w.stages.delayed && s in w.sessions
    ensures StaysOrCommits(w, Unbound(ClearInFlight(w, t, c, works), c), s)
  {
  }

  lemma OthersStageNothing(w: World, e: Event, s: SessionId)
    requires s in w.stages.delayed && !e.Dispose? && !(e.Push? && e.session == s)
    requires !(e.Register? && e.session == s) && !(e.Heartbeat? && e.session == s && e.contextChanged)
    requires !e.Resolve? && !e.Abandon? && !e.RetryFires? && s in Next(w, e).sessions
    ensures s in Next(w, e).stages.delayed && Next(w, e).stages.delayed[s] == w.stages.delayed[s]
  {
  }

  // ----- Owners

  /** History only grows: a lease keeps its owner, and a lost lease stays lost. */
  ghost predicate Grows(w: World, w': World) {
    && (forall l :: l in w.log.granted ==> l in w'.log.granted && w'.log.granted[l] == w.log.granted[l])
    && w.log.lost <= w'.log.lost && w.nextId <= w'.nextId
  }

  lemma NextGrows(w: World, e: Event)
    requires Inv(w)
    ensures Grows(w, Next(w, e))
  {
    if e.Register? { assert LeaseOk(w, w.nextId); }
  }

  lemma {:induction false} RunGrows(w: World, events: seq<Event>)
    requires Inv(w) && RunGuarded(w, events)
    ensures Grows(w, Run(w, events))
  {
    if events != [] {
      var n := |events| - 1;
      RunKeeps(w, events[..n]);
      RunGrows(w, events[..n]);
      NextGrows(Run(w, events[..n]), events[n]);
    }
  }

  /** A lost lease never authorises again, for any session and any instance. */
  lemma LostLeaseNeverAuthorises(w: World, events: seq<Event>, lease: nat, s: SessionId, instance: string)
    requires Reachable(w) && RunGuarded(w, events) && lease in w.log.lost
    ensures !Authorises(Run(w, events), s, instance, lease)
  {
    ReachableInv(w);
    RunKeeps(w, events);
    RunGrows(w, events);
    assert OwnerOk(Run(w, events), s);
  }

  /** A lease authorises only the instance and session it was granted for. */
  lemma LeaseNamesOneOwner(w: World, events: seq<Event>, lease: nat, s: SessionId, t: SessionId, a: string, b: string)
    requires Reachable(w) && RunGuarded(w, events)
    requires Authorises(w, s, a, lease) && Authorises(Run(w, events), t, b, lease)
    ensures s == t && a == b
  {
    ReachableInv(w);
    RunKeeps(w, events);
    RunGrows(w, events);
    assert OwnerOk(w, s) && OwnerOk(Run(w, events), t);
  }

  /** Nothing of an owner's work is left for the session. */
  ghost predicate NothingLeft(w: World, s: SessionId) {
    && Queue(w, s) == [] && InFlight(w, s) == {} && s !in w.stages.delayed && s !in w.stages.timers
    && (forall c :: c in w.work.bindings ==> w.work.bindings[c] != s)
  }

  /** A session changes its lease only by losing it, and then nothing of the old owner's work is left. */
  lemma TurnoverIsClean(w: World, e: Event, s: SessionId)
    requires Reachable(w) && s in w.sessions
    requires s !in Next(w, e).sessions || Next(w, e).sessions[s].lease != w.sessions[s].lease
    ensures w.sessions[s].lease in Next(w, e).log.lost && NothingLeft(Next(w, e), s)
  {
    ReachableInv(w);
    LossIsClean(w, s);
    OnlyLossTurnsOver(w, e, s);
  }

  lemma LossIsClean(w: World, s: SessionId)
    requires Inv(w) && s in w.sessions
    ensures var w' := LoseOwnership(w, s);
            && NothingLeft(w', s) && w.sessions[s].lease in w'.log.lost
            && forall c :: c in InFlight(w, s) ==> c in w'.work.orphaned
  {
    assert WorkOk(w, s) && StagedOk(w, s);
  }

  lemma OnlyLossTurnsOver(w: World, e: Event, s: SessionId)
    requires s in w.sessions && (s !in Next(w, e).sessions || Next(w, e).sessions[s].lease != w.sessions[s].lease)
    ensures e.Restart? || Next(w, e) == LoseOwnership(w, s)
            || (e.Register? && e.session == s && Next(w, e) == Grant(LoseOwnership(w, s), s, e.registration))
  {
    if !e.Register? && !e.Unregister? && !e.AssertOwner? && !e.Heartbeat? && !e.Poll? && !e.Restart? {
      OthersKeepSessions(w, e);
    }
  }

  lemma OthersKeepSessions(w: World, e: Event)
    requires !e.Register? && !e.Unregister? && !e.AssertOwner? && !e.Heartbeat? && !e.Poll? && !e.Restart?
    ensures Next(w, e).sessions == w.sessions
  {
  }

  /** Only a registered session has work. */
  lemma WorkHasAnOwner(w: World, s: SessionId)
    requires Reachable(w) && HasWork(w, s)
    ensures s in w.sessions
  {
    ReachableInv(w);
    assert WorkOk(w, s);
  }

  /** An in-flight command is bound to the one session that it was enqueued for. */
  lemma InFlightIsBound(w: World, s: SessionId, c: CommandId)
    requires Reachable(w) && c in InFlight(w, s)
    ensures c in w.work.bindings && w.work.bindings[c] == s && c in w.log.home && w.log.home[c] == s
  {
    ReachableInv(w);
    assert WorkOk(w, s) && BindingOk(w, c);
  }

  // ----- Polls that outlive their lease

  /** A command goes to a poll of the current owner exactly when the poll's lease has not been lost. */
  lemma HandedToOwnerIff(w: World, e: Event)
    requires Reachable(w) && Next(w, e).log.handed != w.log.handed
    ensures |Next(w, e).log.handed| == |w.log.handed| + 1
    ensures var h := Next(w, e).log.handed[|w.log.handed|]; h.pollLease == h.ownerLease <==> h.pollLease !in w.log.lost
  {
    ReachableInv(w);
    assert e.Enqueue? || e.Poll?;
    var s := e.session;
    assert OwnerOk(w, s);
    if e.Enqueue? {
      var waiter := Waiters(w, s)[0];
      assert waiter in Waiters(w, s) && LeaseOk(w, waiter.lease);
    }
  }

  /**
   Unregistering leaves a session's unanswered polls: the next owner's first command is given to the poll of the
   previous one.
   */
  lemma LostPollReceivesCommand(s: SessionId, c: CommandId, a: string, b: string)
    requires a != "" && b != ""
    ensures
      var first := Next(Next(Init, Register(s, Registration(a, false, true, false))), Poll(s, a, 0, true));
      var second := Next(Next(first, Unregister(s)), Register(s, Registration(b, false, true, false)));
      var w := Next(second, Enqueue(s, c));
      second.sessions[s].instance == b && 0 in second.log.lost
          && w.log.handed == [Handover(c, s, 0, second.sessions[s].lease)]
  {
    var registered := Next(Init, Register(s, Registration(a, false, true, false)));
    assert registered
        == Init.(sessions := map[s := Session(a, 0, 0)], nextId := 1, log := Init.log.(granted := map[0 := (s, a)]));
    var polled := Next(registered, Poll(s, a, 0, true));
    assert Authorises(registered, s, a, 0) && Waiters(registered, s) == [] && Queue(registered, s) == [];
    assert [] + [Waiter(1, 0)] == [Waiter(1, 0)];
    assert polled == Registry.Answered(registered, s, 0, true);
    assert polled.work.waiters == map[s := [Waiter(1, 0)]] && polled.sessions == registered.sessions;
    var lost := Next(polled, Unregister(s));
    assert lost.sessions == map[] && lost.work.waiters == polled.work.waiters && lost.log.lost == {0};
    var second := Next(lost, Register(s, Registration(b, false, true, false)));
    assert second.sessions == map[s := Session(b, 2, 0)] && second.work.waiters == polled.work.waiters;
  }

  // ----- The order of commands

  /** The step empties the session's queue. */
  predicate Resets(w: World, e: Event, s: SessionId) {
    Loses(w, e, s) || e.Restart? || (e.Dispose? && !w.disposed)
  }

  /** What a step adds to the commands enqueued for a session, and to those handed over for it. */
  ghost function MoreEnqueued(w: World, e: Event, s: SessionId): seq<CommandId> {
    if e.Enqueue? && e.session == s && s in w.sessions && !w.disposed then [e.command] else []
  }

  ghost function MoreHanded(w: World, e: Event, s: SessionId): seq<CommandId> {
    var handed := Next(w, e).log.handed;
    if |handed| > |w.log.handed| && handed[|w.log.handed|].session == s then [handed[|w.log.handed|].command] else []
  }

  /** The commands enqueued for the session since its queue was last emptied, in the order of their events. */
  ghost function EnqueuedSince(events: seq<Event>, s: SessionId): seq<CommandId> {
    if events == [] then []
    else
      var before, e := events[..|events| - 1], events[|events| - 1];
      if Resets(Run(Init, before), e, s) then [] else EnqueuedSince(before, s) + MoreEnqueued(Run(Init, before), e, s)
  }

  /** The commands handed over for the session since then, in the order of the log. */
  ghost function HandedSince(events: seq<Event>, s: SessionId): seq<CommandId> {
    if events == [] then []
    else
      var before, e := events[..|events| - 1], events[|events| - 1];
      if Resets(Run(Init, before), e, s) then [] else HandedSince(before, s) + MoreHanded(Run(Init, before), e, s)
  }

  /** A session has commands in its queue or polls that wait, never both. */
  ghost predicate QueueOrPolls(w: World) { forall s :: Queue(w, s) == [] || Waiters(w, s) == [] }

  /** What a step that does not empty the queue of `s` does to it and to the log. */
  ghost predicate InOrder(w: World, e: Event, s: SessionId) {
    Queue(w, s) + MoreEnqueued(w, e, s) == MoreHanded(w, e, s) + Queue(Next(w, e), s)
  }

  lemma EnqueuesInOrder(w: World, e: Event, s: SessionId)
    requires QueueOrPolls(w) && e.Enqueue?
    ensures QueueOrPolls(Next(w, e)) && InOrder(w, e, s)
  {
    forall x ensures Queue(Next(w, e), x) == [] || Waiters(Next(w, e), x) == [] {
      assert Queue(w, x) == [] || Waiters(w, x) == [];
    }
    assert Queue(w, s) == [] || Waiters(w, s) == [];
  }

  lemma PollsInOrder(w: World, e: Event, s: SessionId)
    requires QueueOrPolls(w) && e.Poll?
    ensures QueueOrPolls(Next(w, e)) && (!Resets(w, e, s) ==> InOrder(w, e, s))
  {
    forall x ensures Queue(Next(w, e), x) == [] || Waiters(Next(w, e), x) == [] {
      assert Queue(w, x) == [] || Waiters(w, x) == [];
      PollKeepsOne(w, e, x);
    }
    if !Resets(w, e, s) { PollInOrder(w, e, s); }
  }

  lemma PollKeepsOne(w: World, e: Event, x: SessionId)
    requires e.Poll? && (Queue(w, x) == [] || Waiters(w, x) == [])
    ensures Queue(Next(w, e), x) == [] || Waiters(Next(w, e), x) == []
  {
  }

  lemma PollInOrder(w: World, e: Event, s: SessionId)
    requires e.Poll? && !Resets(w, e, s)
    ensures InOrder(w, e, s)
  {
  }

  lemma OthersInOrder(w: World, e: Event, s: SessionId)
    requires QueueOrPolls(w) && !e.Enqueue? && !e.Poll?
    ensures QueueOrPolls(Next(w, e)) && (!Resets(w, e, s) ==> InOrder(w, e, s))
  {
    forall x ensures Queue(Next(w, e), x) == [] || Waiters(Next(w, e), x) == [] {
      assert Queue(w, x) == [] || Waiters(w, x) == [];
      OthersAddNothing(w, e, x);
    }
    OthersAddNothing(w, e, s);
  }

  lemma OthersAddNothing(w: World, e: Event, s: SessionId)
    requires !e.Enqueue? && !e.Poll?
    ensures Next(w, e).log.handed == w.log.handed
    ensures Queue(Next(w, e), s) == if Resets(w, e, s) then [] else Queue(w, s)
    ensures Waiters(w, s) == [] ==> Waiters(Next(w, e), s) == []
  {
    if e.Register? || e.Unregister? || e.AssertOwner? || e.Heartbeat? {
      OwnersAddNothing(w, e, s);
    } else {
      WorkAddsNothing(w, e, s);
    }
  }

  lemma OwnersAddNothing(w: World, e: Event, s: SessionId)
    requires e.Register? || e.Unregister? || e.AssertOwner? || e.Heartbeat?
    ensures Next(w, e).log.handed == w.log.handed
    ensures Queue(Next(w, e), s) == if Resets(w, e, s) then [] else Queue(w, s)
    ensures Waiters(Next(w, e), s) == Waiters(w, s)
  {
    if e.Register? { RegistrationAddsNothing(w, e, s); }
  }

  lemma RegistrationAddsNothing(w: World, e: Event, s: SessionId)
    requires e.Register?
    ensures Next(w, e).log.handed == w.log.handed
    ensures Queue(Next(w, e), s) == if Resets(w, e, s) then [] else Queue(w, s)
    ensures Waiters(Next(w, e), s) == Waiters(w, s)
  {
  }

  lemma WorkAddsNothing(w: World, e: Event, s: SessionId)
    requires !e.Enqueue? && !e.Poll? && !e.Register? && !e.Unregister? && !e.AssertOwner? && !e.Heartbeat?
    ensures Next(w, e).log.handed == w.log.handed
    ensures Queue(Next(w, e), s) == if Resets(w, e, s) then [] else Queue(w, s)
    ensures Waiters(w, s) == [] ==> Waiters(Next(w, e), s) == []
  {
  }

  lemma ResetEmpties(w: World, e: Event, s: SessionId)
    requires Resets(w, e, s)
    ensures Queue(Next(w, e), s) == []
  {
  }

  lemma StepInOrder(w: World, e: Event, s: SessionId)
    requires QueueOrPolls(w)
    ensures QueueOrPolls(Next(w, e))
    ensures if Resets(w, e, s) then Queue(Next(w, e), s) == [] else InOrder(w, e, s)
  {
    if e.Enqueue? {
      EnqueuesInOrder(w, e, s);
    } else if e.Poll? {
      PollsInOrder(w, e, s);
    } else {
      OthersInOrder(w, e, s);
    }
    if Resets(w, e, s) { ResetEmpties(w, e, s); }
  }

  ghost predicate KeptInOrder(events: seq<Event>, s: SessionId) {
    && EnqueuedSince(events, s) == HandedSince(events, s) + Queue(Run(Init, events), s)
    && QueueOrPolls(Run(Init, events))
  }

  /**
   In every run: the commands enqueued for a session since it was last lost are, in order, those handed over since
   and then those in its queue.
   */
  lemma {:induction false} CommandsStayInOrder(events: seq<Event>, s: SessionId)
    ensures EnqueuedSince(events, s) == HandedSince(events, s) + Queue(Run(Init, events), s)
    ensures QueueOrPolls(Run(Init, events))
  {
    if events != [] {
      var before, e := events[..|events| - 1], events[|events| - 1];
      CommandsStayInOrder(before, s);
      GrowsInOrder(before, e, s);
      assert before + [e] == events;
    }
  }

  lemma GrowsInOrder(before: seq<Event>, e: Event, s: SessionId)
    requires KeptInOrder(before, s)
    ensures KeptInOrder(before + [e], s)
  {
    var w := Run(Init, before);
    OneMore(before, e);
    StepInOrder(w, e, s);
    if Resets(w, e, s) { SinceStartsAgain(before, e, s); } else { AppendInOrder(before, e, s); }
  }

  lemma OneMore(before: seq<Event>, e: Event)
    ensures Run(Init, before + [e]) == Next(Run(Init, before), e)
  {
    var all := before + [e];
    assert all[..|all| - 1] == before && all[|all| - 1] == e;
  }

  lemma SinceStartsAgain(before: seq<Event>, e: Event, s: SessionId)
    requires Resets(Run(Init, before), e, s)
    ensures EnqueuedSince(before + [e], s) == [] && HandedSince(before + [e], s) == []
  {
    var all := before + [e];
    assert all[..|all| - 1] == before && all[|all| - 1] == e;
  }

  lemma AppendInOrder(before: seq<Event>, e: Event, s: SessionId)
    requires EnqueuedSince(before, s) == HandedSince(before, s) + Queue(Run(Init, before), s)
    requires !Resets(Run(Init, before), e, s) && InOrder(Run(Init, before), e, s)
    ensures EnqueuedSince(before + [e], s) == HandedSince(before + [e], s) + Queue(Next(Run(Init, before), e), s)
  {
    var w := Run(Init, before);
    SinceGrows(before, e, s);
    Shift(HandedSince(before, s), Queue(w, s), MoreEnqueued(w, e, s), MoreHanded(w, e, s), Queue(Next(w, e), s));
  }

  lemma SinceGrows(before: seq<Event>, e: Event, s: SessionId)
    requires !Resets(Run(Init, before), e, s)
    ensures EnqueuedSince(before + [e], s) == EnqueuedSince(before, s) + MoreEnqueued(Run(Init, before), e, s)
    ensures HandedSince(before + [e], s) == HandedSince(before, s) + MoreHanded(Run(Init, before), e, s)
  {
    var all := before + [e];
    assert all[..|all| - 1] == before && all[|all| - 1] == e;
  }

  lemma Shift(h: seq<CommandId>, q: seq<CommandId>, more: seq<CommandId>, x: seq<CommandId>, q': seq<CommandId>)
    requires q + more == x + q'
    ensures h + q + more == h + x + q'
  {
    assert h + q + more == h + (q + more) && h + x + q' == h + (x + q');
  }

  /** Of two commands enqueued in one ownership, the earlier is handed over first. */
  lemma EarlierIsHandedFirst(events: seq<Event>, s: SessionId, i: nat, j: nat)
    requires i < j < |EnqueuedSince(events, s)| && j < |HandedSince(events, s)|
    ensures HandedSince(events, s)[i] == EnqueuedSince(events, s)[i]
    ensures HandedSince(events, s)[j] == EnqueuedSince(events, s)[j]
  {
    CommandsStayInOrder(events, s);
  }

  /** Unanswered polls wait in the order in which they came. */
  ghost predicate PollsRise(w: World, s: SessionId) {
    var waiters := Waiters(w, s);
    && (forall i :: 0 <= i < |waiters| ==> waiters[i].id < w.nextId)
    && (forall i, j :: 0 <= i < j < |waiters| ==> waiters[i].id < waiters[j].id)
  }

  lemma {:induction false} PollsWaitInOrder(events: seq<Event>, s: SessionId)
    ensures PollsRise(Run(Init, events), s)
  {
    if events != [] {
      PollsWaitInOrder(events[..|events| - 1], s);
      NextPollsRise(Run(Init, events[..|events| - 1]), events[|events| - 1], s);
    }
  }

  lemma NextPollsRise(w: World, e: Event, s: SessionId)
    requires PollsRise(w, s)
    ensures PollsRise(Next(w, e), s)
  {
    if e.PollEnds? && e.session == s {
      WithoutRises(Waiters(w, s), e.waiter);
    } else if !e.PollEnds? {
      OthersPollsRise(w, e, s);
    }
  }

  lemma OthersPollsRise(w: World, e: Event, s: SessionId)
    requires PollsRise(w, s) && !e.PollEnds?
    ensures PollsRise(Next(w, e), s)
  {
    var before, after := Waiters(w, s), Waiters(Next(w, e), s);
    if e.Poll? || e.Enqueue? {
      PollsMove(w, e, s);
      forall i | 0 <= i < |after| ensures after[i].id < Next(w, e).nextId { assert after[i] in after; }
    } else {
      PollsStay(w, e, s);
    }
  }

  lemma PollsMove(w: World, e: Event, s: SessionId)
    requires e.Poll? || e.Enqueue?
    ensures var before, after := Waiters(w, s), Waiters(Next(w, e), s);
            && w.nextId <= Next(w, e).nextId
            && (after == before || (before != [] && after == before[1..])
                || (after == before + [Waiter(w.nextId, after[|after| - 1].lease)]
                    && Next(w, e).nextId == w.nextId + 1))
  {
  }

  lemma PollsStay(w: World, e: Event, s: SessionId)
    requires !e.PollEnds? && !e.Poll? && !e.Enqueue?
    ensures Waiters(Next(w, e), s) == Waiters(w, s) || Waiters(Next(w, e), s) == []
    ensures w.nextId <= Next(w, e).nextId
  {
  }

  lemma {:induction false} WithoutRises(waiters: seq<Waiter>, id: nat)
    requires forall i, j :: 0 <= i < j < |waiters| ==> waiters[i].id < waiters[j].id
    ensures var kept := Without(waiters, id);
            && (forall i, j :: 0 <= i < j < |kept| ==> kept[i].id < kept[j].id)
            && (forall x :: x in kept <==> x in waiters && x.id != id)
  {
    if waiters != [] && waiters[0].id != id {
      WithoutRises(waiters[1..], id);
      var rest := Without(waiters[1..], id);
      forall j | 0 <= j < |rest| ensures waiters[0].id < rest[j].id {
        assert rest[j] in waiters[1..];
        var k :| 0 <= k < |waiters[1..]| && waiters[1..][k] == rest[j];
      }
    }
  }

  /** An enqueued command goes to the poll that has waited longest, and the others wait on. */
  lemma LongestWaitIsAnswered(w: World, s: SessionId, c: CommandId)
    requires Reachable(w) && s in w.sessions && !w.disposed && Waiters(w, s) != []
    ensures var w' := Next(w, Enqueue(s, c)); var first := Waiters(w, s)[0];
            && (forall x :: x in Waiters(w, s) ==> first.id <= x.id)
            && Waiters(w', s) == Waiters(w, s)[1..] && c in InFlight(w', s) && Queue(w', s) == Queue(w, s)
            && w'.log.handed == w.log.handed + [Handover(c, s, first.lease, w.sessions[s].lease)]
  {
    var events :| RunGuarded(Init, events) && w == Run(Init, events);
    PollsWaitInOrder(events, s);
  }

  // ----- Producer orders

  /** The step takes a new source for the session: its checkpoint is there and was not there before. */
  ghost predicate Takes(w: World, e: Event, s: SessionId) {
    var after := Next(w, e).stages.checkpoints;
    s in after && (s !in w.stages.checkpoints || after[s] != w.stages.checkpoints[s])
  }

  /** The step ends the ownership of the session: unregistered, or found expired. */
  predicate Loses(w: World, e: Event, s: SessionId) {
    s in w.sessions
    && match e
       case Unregister(t) => t == s
       case AssertOwner(t, _, _) => t == s && Expired(w, s)
       case Poll(t, _, _, _) => t == s && Expired(w, s)
       case Register(t, r) => t == s && Expired(w, s) && !Refuses(w, s, r)
       case _ => false
  }

  /** A lease is lost in exactly these steps, and in a restart. */
  lemma LosesIff(w: World, e: Event, s: SessionId)
    requires Inv(w) && s in w.sessions
    ensures w.sessions[s].lease in Next(w, e).log.lost <==> Loses(w, e, s) || e.Restart?
  {
    assert OwnerOk(w, s);
    if e.Register? || e.Unregister? || e.AssertOwner? || e.Poll? {
      if e.session in w.sessions { assert OwnerOk(w, e.session); }
    } else if !e.Restart? {
      OthersLoseNothing(w, e);
    }
  }

  lemma OthersLoseNothing(w: World, e: Event)
    requires !e.Register? && !e.Unregister? && !e.AssertOwner? && !e.Poll? && !e.Restart?
    ensures Next(w, e).log.lost == w.log.lost
  {
  }

  /** One step: a checkpoint goes exactly with its session, and else stays or gives way to one of a higher order. */
  lemma CheckpointRises(w: World, e: Event, s: SessionId)
    requires s in w.stages.checkpoints
    ensures s in Next(w, e).stages.checkpoints <==> !Loses(w, e, s)
    ensures Takes(w, e, s) ==> Next(w, e).stages.checkpoints[s].order > w.stages.checkpoints[s].order
  {
    if e.Push? {
      PushRaises(w, e.session, e.request, e.evidence, e.works, s);
    } else if e.Register? || e.Unregister? || e.AssertOwner? || e.Poll? {
      OwnersDrop(w, e, s);
    } else {
      OthersAccept(w, e);
    }
  }

  lemma OwnersDrop(w: World, e: Event, s: SessionId)
    requires e.Register? || e.Unregister? || e.AssertOwner? || e.Poll?
    ensures Next(w, e).stages.checkpoints == if Loses(w, e, s) then w.stages.checkpoints - {s}
                                             else if Loses(w, e, e.session) then w.stages.checkpoints - {e.session}
                                             else w.stages.checkpoints
  {
  }

  lemma OthersAccept(w: World, e: Event)
    requires !e.Push? && !e.Register? && !e.Unregister? && !e.AssertOwner? && !e.Poll?
    ensures Next(w, e).stages.checkpoints == w.stages.checkpoints
  {
  }

  lemma PushRaises(w: World, s: SessionId, r: PushRequest, evidence: Evidence, works: bool, t: SessionId)
    ensures var before, after := w.stages.checkpoints, OnPush(w, s, r, evidence, works).0.stages.checkpoints;
            t in before ==> t in after && (after[t] == before[t] || after[t].order > before[t].order)
  {
  }

  /** Without a checkpoint, only a push makes one. */
  lemma OnlyPushTakes(w: World, e: Event, s: SessionId)
    requires Takes(w, e, s)
    ensures e.Push? && !Loses(w, e, s)
  {
    if e.Register? || e.Unregister? || e.AssertOwner? || e.Poll? {
      OwnersDrop(w, e, s);
    } else if !e.Push? {
      OthersAccept(w, e);
    }
  }

  ghost predicate NeverLost(w: World, events: seq<Event>, s: SessionId) {
    events == []
    || (NeverLost(w, events[..|events| - 1], s) && !Loses(Run(w, events[..|events| - 1]), events[|events| - 1], s))
  }

  /** While the session is not lost, across restarts too, its accepted order never falls. */
  lemma {:induction false} OrdersRise(w: World, events: seq<Event>, s: SessionId)
    requires s in w.stages.checkpoints && NeverLost(w, events, s)
    ensures var before, after := w.stages.checkpoints, Run(w, events).stages.checkpoints;
            s in after && (after[s] == before[s] || after[s].order > before[s].order)
  {
    if events != [] {
      OrdersRise(w, events[..|events| - 1], s);
      CheckpointRises(Run(w, events[..|events| - 1]), events[|events| - 1], s);
    }
  }

  /** The order accepted last for the session in a run. */
  ghost function LastOrder(events: seq<Event>, s: SessionId): Option<nat> {
    if events == [] then None
    else
      var w, e := Run(Init, events[..|events| - 1]), events[|events| - 1];
      if Takes(w, e, s) then Some(Next(w, e).stages.checkpoints[s].order) else LastOrder(events[..|events| - 1], s)
  }

  /** The session was lost after its last accepted source. */
  ghost predicate LostSince(events: seq<Event>, s: SessionId) {
    if events == [] then false
    else
      var w, e := Run(Init, events[..|events| - 1]), events[|events| - 1];
      !Takes(w, e, s) && (Loses(w, e, s) || LostSince(events[..|events| - 1], s))
  }

  /** The checkpoint is that of the last accepted source, unless the session was lost since. */
  lemma {:induction false} CheckpointTells(events: seq<Event>, s: SessionId)
    ensures var c := Run(Init, events).stages.checkpoints;
            && (s in c <==> LastOrder(events, s).Some? && !LostSince(events, s))
            && (s in c ==> LastOrder(events, s) == Some(c[s].order))
  {
    if events != [] {
      var before, e := events[..|events| - 1], events[|events| - 1];
      var w := Run(Init, before);
      CheckpointTells(before, s);
      if Takes(w, e, s) { OnlyPushTakes(w, e, s); } else if s in w.stages.checkpoints { CheckpointRises(w, e, s); }
    }
  }

  /** Some push would now be accepted as a new source of an order up to `n`. */
  ghost predicate TakesUpTo(w: World, s: SessionId, n: nat) {
    exists r: PushRequest, evidence: Evidence, works: bool ::
      Takes(w, Push(s, r, evidence, works), s) && Next(w, Push(s, r, evidence, works)).stages.checkpoints[s].order <= n
  }

  /** A new content is staged, and becomes the accepted source of a session that has none. */
  lemma FirstSourceIsTaken(w: World, s: SessionId, producer: string, order: nat, fingerprint: string, works: bool)
    requires s in w.sessions && s !in w.stages.checkpoints
    requires s in w.stages.delayed ==> w.stages.delayed[s].fingerprint != fingerprint
    ensures var e := Push(s, PushRequest(Some((producer, order)), fingerprint, true), Evidence(None, false), works);
            Takes(w, e, s) && Next(w, e).stages.checkpoints[s] == Checkpoint(producer, order, w.nextId, fingerprint)
  {
  }

  /**
   In every run: a registered session can have a source accepted of an order not above the last accepted one
   if and only if the session was lost since.
   */
  lemma OrderMayFallIff(events: seq<Event>, s: SessionId)
    requires s in Run(Init, events).sessions && LastOrder(events, s).Some?
    ensures TakesUpTo(Run(Init, events), s, LastOrder(events, s).value) <==> LostSince(events, s)
  {
    var w, n := Run(Init, events), LastOrder(events, s).value;
    CheckpointTells(events, s);
    if LostSince(events, s) {
      var live := Live(w, s);
      var fingerprint := if live.Some? then live.value.fingerprint + "'" else "";
      FirstSourceIsTaken(w, s, "", n, fingerprint, true);
    } else {
      forall r: PushRequest, evidence: Evidence, works: bool | Takes(w, Push(s, r, evidence, works), s)
        ensures Next(w, Push(s, r, evidence, works)).stages.checkpoints[s].order > n
      {
        CheckpointRises(w, Push(s, r, evidence, works), s);
      }
    }
  }

  /** A registration by the instance `a` that nothing prevents. */
  function Joins(s: SessionId, a: string): Event { Register(s, Registration(a, false, true, false)) }

  function Sends(s: SessionId, producer: string, order: nat, fingerprint: string): Event {
    Push(s, PushRequest(Some((producer, order)), fingerprint, true), Evidence(None, false), true)
  }

  /** A run in which it was: of two accepted Events of a session, the later may have any lower order. */
  lemma LostSourceIsForgotten(s: SessionId, a: string, p: string, n: nat, f: string, q: string, m: nat, g: string)
    requires a != "" && m <= n && f != g
    ensures
      var first := Next(Next(Init, Joins(s, a)), Sends(s, p, n, f));
      var second := Next(Next(Next(first, Unregister(s)), Joins(s, a)), Sends(s, q, m, g));
      && first.stages.checkpoints == map[s := Checkpoint(p, n, 1, f)] && first.log.committed == [(s, 1)]
      && second.stages.checkpoints == map[s := Checkpoint(q, m, 3, g)] && second.log.committed == [(s, 1), (s, 3)]
  {
    var joined := Next(Init, Joins(s, a));
    assert joined
        == Init.(sessions := map[s := Session(a, 0, 0)], nextId := 1, log := Init.log.(granted := map[0 := (s, a)]));
    var first := Next(joined, Sends(s, p, n, f));
    assert first == joined.(stages := Stages(map[], {}, map[s := Checkpoint(p, n, 1, f)]), nextId := 2,
                            log := joined.log.(committed := [(s, 1)]));
    var lost := Next(first, Unregister(s));
    assert lost.sessions == map[] && lost.stages == Stages(map[], {}, map[]) && lost.work == Init.work
        && lost.nextId == 2;
    var again := Next(lost, Joins(s, a));
    assert again.sessions == map[s := Session(a, 2, 0)] && again.stages == lost.stages && again.nextId == 3;
  }

  // ----- Repeated requests

  /**
   Repeating the last accepted request answers with the same Event exactly when the content is the same, the
   store's evidence agrees, and the commit it may retry works; it never changes the checkpoint.
   */
  lemma RepeatIff(w: World, s: SessionId, r: PushRequest, evidence: Evidence, works: bool)
    requires s in w.sessions && r.matches && s in w.stages.checkpoints
    requires r.source == Some((w.stages.checkpoints[s].producerId, w.stages.checkpoints[s].order))
    ensures var (w', response) := OnPush(w, s, r, evidence, works);
            && w'.stages.checkpoints == w.stages.checkpoints
            && (response.Accepted? ==> response == Accepted(w.stages.checkpoints[s].eventId, true))
            && (response.Accepted? <==>
                  r.fingerprint == w.stages.checkpoints[s].fingerprint
                  && (evidence.reservation.None?
                      || (evidence == Evidence(Some(w.stages.checkpoints[s].eventId), true)
                          && (works || HasWork(w, s)))))
  {
  }

  /** The session is not lost, and no other source is accepted for it. */
  ghost predicate KeepsSource(w: World, events: seq<Event>, s: SessionId) {
    events == []
    || var before, e := Run(w, events[..|events| - 1]), events[|events| - 1];
       KeepsSource(w, events[..|events| - 1], s) && !Loses(before, e, s) && !Takes(before, e, s)
  }

  lemma {:induction false} SourceStays(w: World, events: seq<Event>, s: SessionId)
    requires s in w.stages.checkpoints && KeepsSource(w, events, s)
    ensures s in Run(w, events).stages.checkpoints && Run(w, events).stages.checkpoints[s] == w.stages.checkpoints[s]
  {
    if events != [] {
      SourceStays(w, events[..|events| - 1], s);
      CheckpointRises(Run(w, events[..|events| - 1]), events[|events| - 1], s);
    }
  }

  /** An accepted push makes the checkpoint of its own source. */
  lemma TakenSource(w: World, s: SessionId, r: PushRequest, evidence: Evidence, works: bool)
    requires Takes(w, Push(s, r, evidence, works), s)
    ensures var (w', response) := OnPush(w, s, r, evidence, works); var c := w'.stages.checkpoints[s];
            && r.matches && r.source == Some((c.producerId, c.order)) && r.fingerprint == c.fingerprint
            && (response.Accepted? ==> response.eventId == c.eventId)
  {
  }

  /**
   Once a request is accepted, until the session is lost or a newer source accepted, and across restarts: its
   repetition is answered with the Event it was accepted as, exactly when the store's evidence of that Event
   agrees and the commit it may retry works.
   */
  lemma AcceptedThenRepeated(w: World, s: SessionId, r: PushRequest, first: Evidence, a: bool,
                             events: seq<Event>, second: Evidence, b: bool)
    requires Takes(w, Push(s, r, first, a), s)
    requires var w' := Next(w, Push(s, r, first, a)); KeepsSource(w', events, s) && s in Run(w', events).sessions
    ensures
      var w' := Next(w, Push(s, r, first, a));
      var v, id := Run(w', events), w'.stages.checkpoints[s].eventId;
      var answer := OnPush(v, s, r, second, b).1;
      && (OnPush(w, s, r, first, a).1.Accepted? ==> OnPush(w, s, r, first, a).1.eventId == id)
      && (answer.Accepted? ==> answer == Accepted(id, true))
      && (answer.Accepted? <==>
            second.reservation.None? || (second == Evidence(Some(id), true) && (b || HasWork(v, s))))
  {
    var w' := Next(w, Push(s, r, first, a));
    TakenSource(w, s, r, first, a);
    SourceStays(w', events, s);
    RepeatIff(Run(w', events), s, r, second, b);
  }
}
