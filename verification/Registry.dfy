/**
 The Agent Adapter registry: owner leases, command queues and in-flight sets, staged terminal Events with their
 retry timers, and producer order checkpoints.
 */
module Registry {
  import opened Wrappers

  type SessionId = string
  type CommandId = string

  const OWNER_LEASE_TTL := 6_000

  /** The owner of a registered session; `renewed` is the monotonic time of its last register or heartbeat. */
  datatype Session = Session(instance: string, lease: nat, renewed: nat)

  /** A staged terminal Event. */
  datatype Terminal = Terminal(fingerprint: string, eventId: nat)

  /** An unanswered command poll, and the lease under which it was made. */
  datatype Waiter = Waiter(id: nat, lease: nat)

  datatype Checkpoint = Checkpoint(producerId: string, order: nat, eventId: nat, fingerprint: string)

  /** History: a command given to a poll made under `pollLease` while `ownerLease` owned the session. */
  datatype Handover = Handover(command: CommandId, session: SessionId, pollLease: nat, ownerLease: nat)

  /** Command work by session; `bindings` are the sessions of commands not yet answered. */
  datatype Work = Work(
    queues: map<SessionId, seq<CommandId>>, inFlight: map<SessionId, set<CommandId>>, 
    bindings: map<CommandId, SessionId>,
    waiters: map<SessionId, seq<Waiter>>, orphaned: set<CommandId>)

  /** Staged terminal Events, their retry timers, and the accepted producer sources. */
  datatype Stages = Stages(
    delayed: map<SessionId, Terminal>, timers: set<SessionId>, checkpoints: map<SessionId, Checkpoint>)

  /**
   History: who got each lease, the leases lost, the session each command was enqueued for, commands given to
   polls, and terminal Events committed.
   */
  datatype Log = Log(
    granted: map<nat, (SessionId, string)>, lost: set<nat>, home: map<CommandId, SessionId>,
    handed: seq<Handover>, committed: seq<(SessionId, nat)>)

  datatype World = World(
    now: nat, sessions: map<SessionId, Session>, disposed: bool, nextId: nat, work: Work, stages: Stages, log: Log)

  const Init := World(0, map[], false, 0, Work(map[], map[], map[], map[], {}), Stages(map[], {}, map[]),
                      Log(map[], {}, map[], [], []))

  /** What the store knows of the pushed content: the Event id reserved for it, and whether its tuple is there. */
  datatype Evidence = Evidence(reservation: Option<nat>, tuple: bool)

  /** How a register call fares outside the ownership rules. */
  datatype Registration = Registration(instance: string, collides: bool, valid: bool, cancelsTerminal: bool)

  datatype PushRequest = PushRequest(source: Option<(string, nat)>, fingerprint: string, matches: bool)

  /** `works` is whether queuePendingEvent works, if it is called. */
  datatype Event =
    | Advance(time: nat)
    | Register(session: SessionId, registration: Registration)
    | Unregister(session: SessionId)
    | AssertOwner(session: SessionId, instance: string, lease: nat)
    | Heartbeat(session: SessionId, valid: bool, contextChanged: bool)
    | Enqueue(session: SessionId, command: CommandId)
    | Poll(session: SessionId, instance: string, lease: nat, waits: bool)
    | PollEnds(session: SessionId, waiter: nat)
    | Resolve(session: SessionId, command: CommandId, matches: bool, works: bool)
    | Abandon(command: CommandId, works: bool)
    | Push(session: SessionId, request: PushRequest, evidence: Evidence, works: bool)
    | RetryFires(session: SessionId, works: bool)
    | Dispose
    | Restart

  function Queue(w: World, s: SessionId): seq<CommandId> { if s in w.work.queues then w.work.queues[s] else [] }

  function InFlight(w: World, s: SessionId): set<CommandId> { if s in w.work.inFlight then w.work.inFlight[s] else {} }

  function Waiters(w: World, s: SessionId): seq<Waiter> { if s in w.work.waiters then w.work.waiters[s] else [] }

  /** Empty queues and waiter lists are deleted. */
  function Put<V>(m: map<SessionId, seq<V>>, s: SessionId, values: seq<V>): map<SessionId, seq<V>> {
    if values == [] then m - {s} else m[s := values]
  }

  function WithQueue(w: World, s: SessionId, queue: seq<CommandId>): World {
    w.(work := w.work.(queues := Put(w.work.queues, s, queue)))
  }

  function WithInFlight(w: World, s: SessionId, commands: set<CommandId>): World {
    w.(work := w.work.(inFlight := if commands == {} then w.work.inFlight - {s} else w.work.inFlight[s := commands]))
  }

  function WithWaiters(w: World, s: SessionId, waiters: seq<Waiter>): World {
    w.(work := w.work.(waiters := Put(w.work.waiters, s, waiters)))
  }

  predicate HasWork(w: World, s: SessionId) { Queue(w, s) != [] || InFlight(w, s) != {} }

  predicate Expired(w: World, s: SessionId)
    requires s in w.sessions
  {
    w.now > w.sessions[s].renewed + OWNER_LEASE_TTL
  }

  // ----- Terminal Events

  function Unstage(st: Stages, s: SessionId): Stages {
    st.(delayed := st.delayed - {s}, timers := st.timers - {s})
  }

  /** What becomes of a session's staged Event at one attempt to commit it. */
  datatype Attempt = Waits | Cancelled | Committed | Retried

  function AttemptOf(w: World, s: SessionId, works: bool): Attempt {
    if HasWork(w, s) || s !in w.stages.delayed then Waits
    else if s !in w.sessions then Cancelled
    else if works then Committed
    else Retried
  }

  /** The attempt's effect: a cancelled or committed Event is unstaged, one that failed gets its retry timer. */
  function Attempted(w: World, s: SessionId, attempt: Attempt, eventId: nat): World {
    w.(stages := if attempt.Cancelled? || attempt.Committed? then Unstage(w.stages, s)
                 else if attempt.Retried? && !w.disposed && s in w.stages.delayed
                 then w.stages.(timers := w.stages.timers + {s})
                 else w.stages,
       log := if attempt.Committed? then w.log.(committed := w.log.committed + [(s, eventId)]) else w.log)
  }

  function Flush(w: World, s: SessionId, works: bool): World {
    Attempted(w, s, AttemptOf(w, s, works), if s in w.stages.delayed then w.stages.delayed[s].eventId else 0)
  }

  // ----- Ownership

  /** The store drops what it keeps for a removed session, its accepted source included. */
  function Removed(st: Stages, s: SessionId): Stages {
    Unstage(st, s).(checkpoints := st.checkpoints - {s})
  }

  /** Every trace of the session goes: staged Event, checkpoint, commands, queue, owner.  Its polls stay. */
  function LoseOwnership(w: World, s: SessionId): World
    requires s in w.sessions
  {
    var mine := set c | c in w.work.bindings && w.work.bindings[c] == s;
    w.(stages := Removed(w.stages, s),
       work := w.work.(orphaned := w.work.orphaned + mine, bindings := w.work.bindings - mine,
                       queues := w.work.queues - {s}, inFlight := w.work.inFlight - {s}),
       sessions := w.sessions - {s}, log := w.log.(lost := w.log.lost + {w.sessions[s].lease}))
  }

  /** Another owner holds the session, or the request names none. */
  predicate Refuses(w: World, s: SessionId, r: Registration) {
    r.instance == "" || r.collides || (s in w.sessions && !Expired(w, s) && w.sessions[s].instance != r.instance)
  }

  /** The same owner keeps its lease; a new one gets a lease never granted before. */
  function Grant(w: World, s: SessionId, r: Registration): World {
    w.(stages := if r.cancelsTerminal then Unstage(w.stages, s) else w.stages,
       sessions := w.sessions[s := if s in w.sessions then w.sessions[s].(renewed := w.now)
                                   else Session(r.instance, w.nextId, w.now)],
       log := if s in w.sessions then w.log else w.log.(granted := w.log.granted[w.nextId := (s, r.instance)]),
       nextId := if s in w.sessions then w.nextId else w.nextId + 1)
  }

  function OnRegister(w: World, s: SessionId, r: Registration): World {
    if Refuses(w, s, r) then w
    else
      var w1 := if s in w.sessions && Expired(w, s) then LoseOwnership(w, s) else w;
      if r.valid then Grant(w1, s, r) else w1
  }

  predicate Authorises(w: World, s: SessionId, instance: string, lease: nat) {
    s in w.sessions && !Expired(w, s) && w.sessions[s].instance == instance && w.sessions[s].lease == lease
  }

  function OnUnregister(w: World, s: SessionId): World {
    if s in w.sessions then LoseOwnership(w, s) else w
  }

  /** assertCurrentOwner, which revokes an expired lease on the way. */
  function OnAssertOwner(w: World, s: SessionId): World {
    if s in w.sessions && Expired(w, s) then LoseOwnership(w, s) else w
  }

  function OnHeartbeat(w: World, s: SessionId, valid: bool, contextChanged: bool): World {
    if s !in w.sessions || !valid then w
    else w.(stages := if contextChanged then Unstage(w.stages, s) else w.stages,
            sessions := w.sessions[s := w.sessions[s].(renewed := w.now)])
  }

  // ----- Commands

  /** The command is bound to the session and in flight for it. */
  function MarkInFlight(work: Work, s: SessionId, c: CommandId): Work {
    var current := if s in work.inFlight then work.inFlight[s] else {};
    work.(inFlight := work.inFlight[s := current + {c}], bindings := work.bindings[c := s])
  }

  function Hand(w: World, s: SessionId, c: CommandId, pollLease: nat): World
    requires s in w.sessions
  {
    w.(work := MarkInFlight(w.work, s, c),
       log := w.log.(handed := w.log.handed + [Handover(c, s, pollLease, w.sessions[s].lease)]))
  }

  function Bound(w: World, s: SessionId, c: CommandId): World {
    w.(work := w.work.(bindings := w.work.bindings[c := s]), log := w.log.(home := w.log.home[c := s]))
  }

  function Unbound(w: World, c: CommandId): World { w.(work := w.work.(bindings := w.work.bindings - {c})) }

  /** The command goes to the first waiting poll, or into the queue. */
  function OnEnqueue(w: World, s: SessionId, c: CommandId): World {
    if w.disposed || s !in w.sessions then w
    else
      var w1 := Bound(w, s, c);
      if Waiters(w, s) != []
      then Hand(WithWaiters(w1, s, Waiters(w, s)[1..]), s, c, Waiters(w, s)[0].lease)
      else WithQueue(w1, s, Queue(w, s) + [c])
  }

  /** A live owner's poll: the head of the queue, or a new waiter. */
  function Answered(w: World, s: SessionId, lease: nat, waits: bool): World
    requires s in w.sessions
  {
    if w.disposed || (Queue(w, s) == [] && !waits) then w
    else if Queue(w, s) == [] then WithWaiters(w, s, Waiters(w, s) + [Waiter(w.nextId, lease)]).(nextId := w.nextId + 1)
    else Hand(WithQueue(w, s, Queue(w, s)[1..]), s, Queue(w, s)[0], lease)
  }

  function OnPoll(w: World, s: SessionId, instance: string, lease: nat, waits: bool): World {
    if Authorises(w, s, instance, lease) then Answered(w, s, lease, waits) else OnAssertOwner(w, s)
  }

  function Without(waiters: seq<Waiter>, id: nat): (r: seq<Waiter>)
    ensures forall x :: x in r ==> x in waiters
  {
    if waiters == [] then []
    else if waiters[0].id == id then waiters[1..]
    else [waiters[0]] + Without(waiters[1..], id)
  }

  function ClearInFlight(w: World, s: SessionId, c: CommandId, works: bool): World {
    Flush(WithInFlight(w, s, InFlight(w, s) - {c}), s, works)
  }

  function OnResolve(w: World, s: SessionId, c: CommandId, matches: bool, works: bool): World {
    if w.disposed || !matches || c !in w.work.bindings || w.work.bindings[c] != s || s !in w.sessions then w
    else Unbound(ClearInFlight(w, s, c, works), c)
  }

  function OnAbandon(w: World, c: CommandId, works: bool): World {
    if c !in w.work.bindings then w else Unbound(ClearInFlight(w, w.work.bindings[c], c, works), c)
  }

  // ----- Producer Events

  datatype Plan =
    | LiveDuplicate
    | ReservationWithoutTuple(eventId: nat)
    | StageReserved(eventId: nat)
    | CancelOlderAndReserve
    | ReserveNew

  function PlanTerminal(live: Option<Terminal>, fingerprint: string, evidence: Evidence): Plan {
    if live.Some? && live.value.fingerprint == fingerprint then LiveDuplicate
    else if evidence.reservation.Some? then
      if evidence.tuple then StageReserved(evidence.reservation.value)
      else ReservationWithoutTuple(evidence.reservation.value)
    else if live.Some? then CancelOlderAndReserve
    else ReserveNew
  }

  datatype Response = Accepted(eventId: nat, duplicate: bool) | OrderConflict | Invalid | CommitFailed

  /**
   What a push amounts to: an answer without any change, or a staged Event - a live one again, or with the next
   Event id, or in place of an older one - whose source may become the session's checkpoint.
   */
  datatype Decision =
    | Answer(response: Response)
    | Stage(terminal: Terminal, duplicate: bool, newId: bool, supersedes: bool, accepts: bool)

  function Live(w: World, s: SessionId): Option<Terminal> {
    if s in w.stages.delayed then Some(w.stages.delayed[s]) else None
  }

  function Planned(w: World, s: SessionId, r: PushRequest, evidence: Evidence): Decision {
    match PlanTerminal(Live(w, s), r.fingerprint, evidence)
    case LiveDuplicate =>
      if s in w.stages.delayed then Stage(w.stages.delayed[s], true, false, false, false) else Answer(Invalid)
    case ReservationWithoutTuple(eventId) => Answer(Accepted(eventId, true))
    case StageReserved(eventId) => Stage(Terminal(r.fingerprint, eventId), false, false, false, true)
    case CancelOlderAndReserve => Stage(Terminal(r.fingerprint, w.nextId), false, true, true, true)
    case ReserveNew => Stage(Terminal(r.fingerprint, w.nextId), false, true, false, true)
  }

  /** A retry of the last accepted request. */
  function Repeated(c: Checkpoint, r: PushRequest, evidence: Evidence): Decision {
    if c.fingerprint != r.fingerprint then Answer(OrderConflict)
    else if evidence.reservation.None? then Answer(Accepted(c.eventId, true))
    else if evidence.reservation.value != c.eventId || !evidence.tuple then Answer(Invalid)
    else Stage(Terminal(r.fingerprint, c.eventId), true, false, false, false)
  }

  function Decide(w: World, s: SessionId, r: PushRequest, evidence: Evidence): Decision {
    if s !in w.sessions || !r.matches then Answer(Invalid)
    else if r.source.Some? && s in w.stages.checkpoints then
      var c := w.stages.checkpoints[s];
      if r.source.value == (c.producerId, c.order) then Repeated(c, r, evidence)
      else if r.source.value.1 <= c.order then Answer(OrderConflict)
      else Planned(w, s, r, evidence)
    else Planned(w, s, r, evidence)
  }

  function StagedIn(w: World, s: SessionId, source: Option<(string, nat)>, d: Decision): World
    requires d.Stage?
  {
    w.(stages := Stages(
         w.stages.delayed[s := d.terminal],
         if d.supersedes then w.stages.timers - {s} else w.stages.timers,
         if d.accepts && source.Some?
         then w.stages.checkpoints[
                s := Checkpoint(source.value.0, source.value.1, d.terminal.eventId, d.terminal.fingerprint)]
         else w.stages.checkpoints),
       nextId := if d.newId then w.nextId + 1 else w.nextId)
  }

  /** The staged Event is committed at once unless the session has work. */
  function FirstAttempt(w: World, s: SessionId, works: bool): Attempt {
    if HasWork(w, s) then Waits else if works then Committed else Retried
  }

  function OnPush(w: World, s: SessionId, r: PushRequest, evidence: Evidence, works: bool): (World, Response) {
    var d := Decide(w, s, r, evidence);
    if d.Answer? then (w, d.response)
    else
      var attempt := FirstAttempt(w, s, works);
      (Attempted(StagedIn(w, s, r.source, d), s, attempt, d.terminal.eventId),
       if attempt.Retried? then CommitFailed else Accepted(d.terminal.eventId, d.duplicate))
  }

  function Fired(w: World, s: SessionId): World { w.(stages := w.stages.(timers := w.stages.timers - {s})) }

  function OnRetry(w: World, s: SessionId, works: bool): World {
    if s !in w.stages.timers || w.disposed then Fired(w, s) else Flush(Fired(w, s), s, works)
  }

  function OnDispose(w: World): World {
    w.(disposed := true, stages := Stages(map[], {}, w.stages.checkpoints),
       work := Work(map[], map[], map[], map[], {}))
  }

  /** The bridge ends and starts again: the accepted sources are on disk, everything else is gone. */
  function OnRestart(w: World): World {
    w.(sessions := map[], disposed := false, stages := Stages(map[], {}, w.stages.checkpoints),
       work := Work(map[], map[], map[], map[], {}),
       log := w.log.(lost := w.log.lost + set s | s in w.sessions :: w.sessions[s].lease))
  }

  // ----- The machine

  function Next(w: World, e: Event): World {
    match e
    case Advance(time) => w.(now := if time > w.now then time else w.now)
    case Register(s, r) => OnRegister(w, s, r)
    case Unregister(s) => OnUnregister(w, s)
    case AssertOwner(s, _, _) => OnAssertOwner(w, s)
    case Heartbeat(s, valid, changed) => OnHeartbeat(w, s, valid, changed)
    case Enqueue(s, c) => OnEnqueue(w, s, c)
    case Poll(s, instance, lease, waits) => OnPoll(w, s, instance, lease, waits)
    case PollEnds(s, id) => WithWaiters(w, s, Without(Waiters(w, s), id))
    case Resolve(s, c, matches, works) => OnResolve(w, s, c, matches, works)
    case Abandon(c, works) => OnAbandon(w, c, works)
    case Push(s, r, evidence, works) => OnPush(w, s, r, evidence, works).0
    case RetryFires(s, works) => OnRetry(w, s, works)
    case Dispose => if w.disposed then w else OnDispose(w)
    case Restart => OnRestart(w)
  }

  function Run(w: World, events: seq<Event>): World {
    if events == [] then w else Next(Run(w, events[..|events| - 1]), events[|events| - 1])
  }

  // ----- What every step keeps

  /** Work is of registered sessions, and each command's is in its own session. */
  ghost predicate WorkOk(w: World, s: SessionId) {
    && (s in w.work.queues ==> s in w.sessions && w.work.queues[s] != [])
    && (s in w.work.inFlight ==> s in w.sessions && w.work.inFlight[s] != {})
    && (forall c :: c in Queue(w, s) ==> c in w.log.home && w.log.home[c] == s)
    && (forall c :: c in InFlight(w, s) ==> c in w.work.bindings && w.work.bindings[c] == s)
  }

  /** A staged Event is of a registered session; with no work in its way it has a timer, and only it has one. */
  ghost predicate StagedOk(w: World, s: SessionId) {
    && (s in w.stages.delayed ==> s in w.sessions)
    && (s in w.stages.timers ==> s in w.stages.delayed)
    && (!w.disposed && s in w.stages.delayed && !HasWork(w, s) ==> s in w.stages.timers)
  }

  ghost predicate OwnerOk(w: World, s: SessionId) {
    && (s in w.sessions ==>
          var o := w.sessions[s];
          o.lease in w.log.granted && w.log.granted[o.lease] == (s, o.instance) && o.lease !in w.log.lost)
    && (forall x :: x in Waiters(w, s) ==> x.lease in w.log.granted && w.log.granted[x.lease].0 == s)
  }

  ghost predicate BindingOk(w: World, c: CommandId) {
    c in w.work.bindings ==> c in w.log.home && w.log.home[c] == w.work.bindings[c] && w.work.bindings[c] in w.sessions
  }

  /** Each lease is lost, or current in the session it was granted for. */
  ghost predicate LeaseOk(w: World, l: nat) {
    && (l in w.log.granted ==> l < w.nextId)
    && (l in w.log.granted && l !in w.log.lost ==>
        w.log.granted[l].0 in w.sessions && w.sessions[w.log.granted[l].0].lease == l)
    && (l in w.log.lost ==> l in w.log.granted)
  }

  ghost predicate Inv(w: World) {
    && (forall s :: WorkOk(w, s))
    && (forall s :: StagedOk(w, s))
    && (forall s :: OwnerOk(w, s))
    && (forall c :: BindingOk(w, c))
    && (forall l :: LeaseOk(w, l))
  }

  /** Command ids are fresh, as the journal claims each at most once. */
  predicate Guarded(w: World, e: Event) { e.Enqueue? ==> e.command !in w.log.home }

  ghost predicate RunGuarded(w: World, events: seq<Event>) {
    events == []
    || (RunGuarded(w, events[..|events| - 1]) && Guarded(Run(w, events[..|events| - 1]), events[|events| - 1]))
  }

  lemma LoseKeeps(w: World, s: SessionId)
    requires Inv(w) && s in w.sessions
    ensures Inv(LoseOwnership(w, s))
  {
    var w' := LoseOwnership(w, s);
    forall x ensures WorkOk(w', x) { LoseWork(w, s, x); }
    forall x ensures StagedOk(w', x) { LoseStaged(w, s, x); }
    forall x ensures OwnerOk(w', x) { LoseOwner(w, s, x); }
    forall x ensures BindingOk(w', x) { LoseBinding(w, s, x); }
    forall l ensures LeaseOk(w', l) { LoseLease(w, s, l); }
  }

  lemma LoseStaged(w: World, s: SessionId, x: SessionId)
    requires Inv(w) && s in w.sessions
    ensures StagedOk(LoseOwnership(w, s), x)
  {
    assert StagedOk(w, x);
  }

  lemma LoseOwner(w: World, s: SessionId, x: SessionId)
    requires Inv(w) && s in w.sessions
    ensures OwnerOk(LoseOwnership(w, s), x)
  {
    assert OwnerOk(w, x) && OwnerOk(w, s);
  }

  lemma LoseBinding(w: World, s: SessionId, c: CommandId)
    requires Inv(w) && s in w.sessions
    ensures BindingOk(LoseOwnership(w, s), c)
  {
    assert BindingOk(w, c);
  }

  lemma LoseLease(w: World, s: SessionId, l: nat)
    requires Inv(w) && s in w.sessions
    ensures LeaseOk(LoseOwnership(w, s), l)
  {
    assert LeaseOk(w, l) && OwnerOk(w, s);
  }

  lemma LoseWork(w: World, s: SessionId, x: SessionId)
    requires Inv(w) && s in w.sessions
    ensures WorkOk(LoseOwnership(w, s), x)
  {
    assert WorkOk(w, x);
  }

  lemma RegisterKeeps(w: World, s: SessionId, r: Registration)
    requires Inv(w)
    ensures Inv(OnRegister(w, s, r))
  {
    if s in w.sessions && Expired(w, s) {
      LoseKeeps(w, s);
      GrantKeeps(LoseOwnership(w, s), s, r);
    } else {
      GrantKeeps(w, s, r);
    }
  }

  lemma GrantKeeps(w: World, s: SessionId, r: Registration)
    requires Inv(w)
    ensures Inv(Grant(w, s, r))
  {
    var w' := Grant(w, s, r);
    assert LeaseOk(w, w.nextId);
    forall x ensures WorkOk(w', x) && StagedOk(w', x) && OwnerOk(w', x) {
      assert WorkOk(w, x) && StagedOk(w, x) && OwnerOk(w, x);
      forall p | p in Waiters(w, x) ensures p.lease != w.nextId { assert LeaseOk(w, p.lease); }
      if x in w.sessions { assert LeaseOk(w, w.sessions[x].lease); }
    }
    forall x ensures BindingOk(w', x) { assert BindingOk(w, x); }
    forall l ensures LeaseOk(w', l) { assert LeaseOk(w, l); }
  }

  lemma HeartbeatKeeps(w: World, s: SessionId, valid: bool, changed: bool)
    requires Inv(w)
    ensures Inv(OnHeartbeat(w, s, valid, changed))
  {
    var w' := OnHeartbeat(w, s, valid, changed);
    forall x ensures WorkOk(w', x) && StagedOk(w', x) && OwnerOk(w', x) {
      assert WorkOk(w, x) && StagedOk(w, x) && OwnerOk(w, x);
    }
    forall x ensures BindingOk(w', x) { assert BindingOk(w, x); }
    forall l ensures LeaseOk(w', l) { assert LeaseOk(w, l); }
  }

  lemma WaitersKeep(w: World, s: SessionId, waiters: seq<Waiter>)
    requires Inv(w) && forall x :: x in waiters ==> x in Waiters(w, s)
    ensures Inv(WithWaiters(w, s, waiters))
  {
    var w' := WithWaiters(w, s, waiters);
    forall x ensures WorkOk(w', x) && StagedOk(w', x) && OwnerOk(w', x) {
      assert WorkOk(w, x) && StagedOk(w, x) && OwnerOk(w, x);
      if x == s { assert Waiters(w', x) == waiters; }
    }
    forall x ensures BindingOk(w', x) { assert BindingOk(w, x); }
    forall l ensures LeaseOk(w', l) { assert LeaseOk(w, l); }
  }

  lemma BindKeeps(w: World, s: SessionId, c: CommandId)
    requires Inv(w) && s in w.sessions && c !in w.log.home
    ensures Inv(Bound(w, s, c))
  {
    var w' := Bound(w, s, c);
    assert BindingOk(w, c);
    forall x ensures WorkOk(w', x) && StagedOk(w', x) && OwnerOk(w', x) {
      assert WorkOk(w, x) && StagedOk(w, x) && OwnerOk(w, x);
    }
    forall x ensures BindingOk(w', x) { assert BindingOk(w, x); }
    forall l ensures LeaseOk(w', l) { assert LeaseOk(w, l); }
  }

  lemma HandKeeps(w: World, s: SessionId, c: CommandId, lease: nat)
    requires Inv(w) && s in w.sessions && c in w.log.home && w.log.home[c] == s
    ensures Inv(Hand(w, s, c, lease))
  {
    var w' := Hand(w, s, c, lease);
    assert BindingOk(w, c);
    forall x ensures WorkOk(w', x) && StagedOk(w', x) && OwnerOk(w', x) {
      assert WorkOk(w, x) && StagedOk(w, x) && OwnerOk(w, x);
    }
    forall x ensures BindingOk(w', x) { assert BindingOk(w, x); }
    forall l ensures LeaseOk(w', l) { assert LeaseOk(w, l); }
  }

  lemma QueueKeeps(w: World, s: SessionId, queue: seq<CommandId>)
    requires Inv(w) && s in w.sessions && forall c :: c in queue ==> c in w.log.home && w.log.home[c] == s
    requires queue != [] || InFlight(w, s) != {}
    ensures Inv(WithQueue(w, s, queue))
  {
    var w' := WithQueue(w, s, queue);
    forall x ensures WorkOk(w', x) && StagedOk(w', x) && OwnerOk(w', x) {
      assert WorkOk(w, x) && StagedOk(w, x) && OwnerOk(w, x);
    }
    forall x ensures BindingOk(w', x) { assert BindingOk(w, x); }
    forall l ensures LeaseOk(w', l) { assert LeaseOk(w, l); }
  }

  lemma EnqueueKeeps(w: World, s: SessionId, c: CommandId)
    requires Inv(w) && c !in w.log.home
    ensures Inv(OnEnqueue(w, s, c))
  {
    if !w.disposed && s in w.sessions {
      BindKeeps(w, s, c);
      var w1 := Bound(w, s, c);
      assert WorkOk(w1, s);
      var waiters := Waiters(w1, s);
      if waiters != [] {
        WaitersKeep(w1, s, waiters[1..]);
        HandKeeps(WithWaiters(w1, s, waiters[1..]), s, c, waiters[0].lease);
      } else {
        QueueKeeps(w1, s, Queue(w1, s) + [c]);
      }
    }
  }

  /** Handing over the head of the queue: the queue shrinks as the command goes in flight. */
  lemma HandHeadKeeps(w: World, s: SessionId, lease: nat)
    requires Inv(w) && s in w.sessions && Queue(w, s) != []
    ensures Inv(Hand(WithQueue(w, s, Queue(w, s)[1..]), s, Queue(w, s)[0], lease))
  {
    var c := Queue(w, s)[0];
    assert WorkOk(w, s);
    HandKeeps(w, s, c, lease);
    var w1 := Hand(w, s, c, lease);
    QueueKeeps(w1, s, Queue(w, s)[1..]);
    assert WithQueue(w1, s, Queue(w, s)[1..]) == Hand(WithQueue(w, s, Queue(w, s)[1..]), s, c, lease);
  }

  lemma WaitKeeps(w: World, s: SessionId, instance: string, lease: nat)
    requires Inv(w) && Authorises(w, s, instance, lease)
    ensures Inv(WithWaiters(w, s, Waiters(w, s) + [Waiter(w.nextId, lease)]).(nextId := w.nextId + 1))
  {
    var waiters := Waiters(w, s) + [Waiter(w.nextId, lease)];
    var w' := WithWaiters(w, s, waiters).(nextId := w.nextId + 1);
    assert OwnerOk(w, s) && Waiters(w', s) == waiters;
    forall x ensures WorkOk(w', x) && StagedOk(w', x) && OwnerOk(w', x) {
      assert WorkOk(w, x) && StagedOk(w, x) && OwnerOk(w, x);
    }
    forall x ensures BindingOk(w', x) { assert BindingOk(w, x); }
    forall l ensures LeaseOk(w', l) { assert LeaseOk(w, l); }
  }

  lemma PollKeeps(w: World, s: SessionId, instance: string, lease: nat, waits: bool)
    requires Inv(w)
    ensures Inv(OnPoll(w, s, instance, lease, waits))
  {
    if !Authorises(w, s, instance, lease) {
      if s in w.sessions { LoseKeeps(w, s); }
    } else if Queue(w, s) != [] {
      HandHeadKeeps(w, s, lease);
    } else {
      WaitKeeps(w, s, instance, lease);
    }
  }

  /** Everything but the timer of a session without work. */
  ghost predicate Unarmed(w: World, s: SessionId) {
    && (forall x :: WorkOk(w, x) && OwnerOk(w, x) && (x != s ==> StagedOk(w, x)))
    && (forall c :: BindingOk(w, c)) && (forall l :: LeaseOk(w, l))
    && (s in w.stages.delayed ==> s in w.sessions) && (s in w.stages.timers ==> s in w.stages.delayed)
  }

  /** The timer is armed, or not needed, or gone with the staged Event. */
  lemma ArmedKeeps(w: World, w': World, s: SessionId)
    requires Unarmed(w, s) && StagedOk(w', s)
    requires w' == w.(stages := w'.stages, log := w.log.(committed := w'.log.committed))
    requires w'.stages == w.stages || w'.stages == Unstage(w.stages, s)
             || w'.stages == w.stages.(timers := w.stages.timers + {s})
    ensures Inv(w')
  {
    forall x ensures WorkOk(w', x) && StagedOk(w', x) && OwnerOk(w', x) {
      assert WorkOk(w, x) && OwnerOk(w, x) && (x != s ==> StagedOk(w, x));
    }
    forall x ensures BindingOk(w', x) { assert BindingOk(w, x); }
    forall l ensures LeaseOk(w', l) { assert LeaseOk(w, l); }
  }

  lemma FlushKeeps(w: World, s: SessionId, works: bool)
    requires Unarmed(w, s)
    ensures Inv(Flush(w, s, works))
  {
    ArmedKeeps(w, Flush(w, s, works), s);
  }

  lemma ClearKeeps(w: World, s: SessionId, c: CommandId, works: bool)
    requires Inv(w) && c in w.work.bindings && w.work.bindings[c] == s
    ensures Inv(Unbound(ClearInFlight(w, s, c, works), c))
  {
    CommandGone(w, s, c);
    FlushKeeps(Unbound(WithInFlight(w, s, InFlight(w, s) - {c}), c), s, works);
    var w1 := WithInFlight(w, s, InFlight(w, s) - {c});
    assert HasWork(w1, s) == HasWork(Unbound(w1, c), s);
    assert Flush(Unbound(w1, c), s, works) == Unbound(Flush(w1, s, works), c);
  }

  lemma CommandGone(w: World, s: SessionId, c: CommandId)
    requires Inv(w) && c in w.work.bindings && w.work.bindings[c] == s
    ensures Unarmed(Unbound(WithInFlight(w, s, InFlight(w, s) - {c}), c), s)
  {
    var w' := Unbound(WithInFlight(w, s, InFlight(w, s) - {c}), c);
    assert BindingOk(w, c) && StagedOk(w, s);
    forall x ensures WorkOk(w', x) && OwnerOk(w', x) && (x != s ==> StagedOk(w', x)) {
      assert WorkOk(w, x) && StagedOk(w, x) && OwnerOk(w, x);
    }
    forall x ensures BindingOk(w', x) { assert BindingOk(w, x); }
    forall l ensures LeaseOk(w', l) { assert LeaseOk(w, l); }
  }

  /** Staging an Event, with or without a checkpoint, leaves only its own timer to arm. */
  lemma StageKeeps(w: World, s: SessionId, source: Option<(string, nat)>, d: Decision)
    requires Inv(w) && s in w.sessions && d.Stage?
    ensures Unarmed(StagedIn(w, s, source, d), s)
  {
    var w' := StagedIn(w, s, source, d);
    forall x ensures WorkOk(w', x) && OwnerOk(w', x) && (x != s ==> StagedOk(w', x)) {
      assert WorkOk(w, x) && StagedOk(w, x) && OwnerOk(w, x);
    }
    assert StagedOk(w, s);
    forall x ensures BindingOk(w', x) { assert BindingOk(w, x); }
    forall l ensures LeaseOk(w', l) { assert LeaseOk(w, l); }
  }

  lemma PushKeeps(w: World, s: SessionId, r: PushRequest, evidence: Evidence, works: bool)
    requires Inv(w)
    ensures Inv(OnPush(w, s, r, evidence, works).0)
  {
    var d := Decide(w, s, r, evidence);
    if d.Stage? {
      StageKeeps(w, s, r.source, d);
      ArmedKeeps(StagedIn(w, s, r.source, d), OnPush(w, s, r, evidence, works).0, s);
    }
  }

  lemma RetryKeeps(w: World, s: SessionId, works: bool)
    requires Inv(w)
    ensures Inv(OnRetry(w, s, works))
  {
    var w' := Fired(w, s);
    if s !in w.stages.timers {
      assert w' == w;
    } else {
      forall x ensures WorkOk(w', x) && OwnerOk(w', x) && (w.disposed || x != s ==> StagedOk(w', x)) {
        assert WorkOk(w, x) && StagedOk(w, x) && OwnerOk(w, x);
      }
      forall x ensures BindingOk(w', x) { assert BindingOk(w, x); }
      forall l ensures LeaseOk(w', l) { assert LeaseOk(w, l); }
      assert StagedOk(w, s);
      FlushKeeps(w', s, works);
    }
  }

  lemma DisposeKeeps(w: World)
    requires Inv(w)
    ensures Inv(OnDispose(w))
  {
    var w' := OnDispose(w);
    forall x ensures WorkOk(w', x) && StagedOk(w', x) && OwnerOk(w', x) {
      assert WorkOk(w, x) && StagedOk(w, x) && OwnerOk(w, x);
    }
    forall x ensures BindingOk(w', x) { assert BindingOk(w, x); }
    forall l ensures LeaseOk(w', l) { assert LeaseOk(w, l); }
  }

  lemma RestartKeeps(w: World)
    requires Inv(w)
    ensures Inv(OnRestart(w))
  {
    var w' := OnRestart(w);
    forall x ensures WorkOk(w', x) && StagedOk(w', x) && OwnerOk(w', x) {
      assert OwnerOk(w, x);
    }
    forall l ensures LeaseOk(w', l) {
      assert LeaseOk(w, l);
      forall s | s in w.sessions && w.sessions[s].lease == l ensures l in w.log.granted { assert OwnerOk(w, s); }
    }
  }

  lemma AdvanceKeeps(w: World, time: nat)
    requires Inv(w)
    ensures Inv(Next(w, Advance(time)))
  {
    var w' := Next(w, Advance(time));
    forall x ensures WorkOk(w', x) && StagedOk(w', x) && OwnerOk(w', x) {
      assert WorkOk(w, x) && StagedOk(w, x) && OwnerOk(w, x);
    }
    forall x ensures BindingOk(w', x) { assert BindingOk(w, x); }
    forall l ensures LeaseOk(w', l) { assert LeaseOk(w, l); }
  }

  lemma NextKeeps(w: World, e: Event)
    requires Inv(w) && Guarded(w, e)
    ensures Inv(Next(w, e))
  {
    match e
    case Advance(time) => AdvanceKeeps(w, time);
    case Register(s, r) => RegisterKeeps(w, s, r);
    case Unregister(s) => if s in w.sessions { LoseKeeps(w, s); }
    case AssertOwner(s, _, _) => if s in w.sessions { LoseKeeps(w, s); }
    case Heartbeat(s, valid, changed) => HeartbeatKeeps(w, s, valid, changed);
    case Enqueue(s, c) => EnqueueKeeps(w, s, c);
    case Poll(s, instance, lease, waits) => PollKeeps(w, s, instance, lease, waits);
    case PollEnds(s, id) => WaitersKeep(w, s, Without(Waiters(w, s), id));
    case Resolve(s, c, matches, works) => if c in w.work.bindings { ClearKeeps(w, w.work.bindings[c], c, works); }
    case Abandon(c, works) => if c in w.work.bindings { ClearKeeps(w, w.work.bindings[c], c, works); }
    case Push(s, r, evidence, works) => PushKeeps(w, s, r, evidence, works);
    case RetryFires(s, works) => RetryKeeps(w, s, works);
    case Dispose => DisposeKeeps(w);
    case Restart => RestartKeeps(w);
  }
}
