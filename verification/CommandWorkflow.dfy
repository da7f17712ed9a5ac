/**
 Pulling and dispatching commands, recording their outcome, and delivering receipts, over a relay that may
 redeliver any command at any time, with stops, crashes and restarts between any two effects.
 */
module CommandWorkflow {
  import opened Wrappers
  import opened CommandJournal

  /** Where the single command pass is with the command it works on. */
  datatype Flight =
    | NoCommand
    | AtRouter(command: Command)
    | Dispatched(command: Command)
    | Released(command: Command)
    | Finished(command: Command, result: Result)
    | Building(command: Command, result: Result)

  /**
   `started`, `releases` and `submissions` are the history of effects: dispatch records made durable,
   commands released to a driver, receipt bodies submitted.  `listed` are bodies that running drains have
   read from the journal and may still submit.
   */
  datatype World = World(
    now: Time, journal: Journal, flight: Flight, stopped: bool,
    started: seq<Command>, releases: seq<Command>, listed: set<Body>, submissions: seq<Body>)

  const Init := World(0, map[], NoCommand, false, [], [], {}, [])

  datatype Event =
    | Advance(time: Time)
    | Deliver(command: Command, pin: string)
    | RouterRefuses(result: Result)
    | RouterThrows
    | BeforeDispatch
    | Release
    | DriverReturns(result: Result)
    | AfterResult(authorityRefreshed: bool)
    | ReceiptBuilt(built: Option<nat>)
    | RecoverBlocked(id: string, randomness: nat)
    | ListPending
    | Submit(body: Body)
    | MarkReceipt(id: string, delivery: Delivery)
    | OwnerLost(id: string)
    | PruneJournal
    | RecoverOrphaned
    | Stop
    | Crash

  /** The command pass gives up on its command; an active execution becomes outcome-unknown unless stopped. */
  function GiveUp(w: World, id: string): World {
    var unknown := MarkOutcomeUnknown(w.journal, id);
    w.(flight := NoCommand, journal := if unknown.Some? && !w.stopped then unknown.value else w.journal)
  }

  /** A store transition, or no change where it throws. */
  function Committed(w: World, next: Option<Journal>): World {
    if next.Some? then w.(journal := next.value) else w
  }

  predicate SubmittedFor(w: World, id: string) {
    exists b :: b in w.submissions && b.command.id == id
  }

  function PendingBodies(j: Journal): set<Body> {
    set id | id in j && j[id].phase.Terminal? && j[id].phase.delivery.Undelivered? :: j[id].phase.body
  }

  function Next(w: World, e: Event): World {
    match e
    case Advance(time) => w.(now := if time > w.now then time else w.now)
    case Deliver(command, pin) =>
      // Preparing a command refuses it once it has expired.
      if !w.flight.NoCommand? || command.expiresAt <= w.now then w
      else
        var (journal, status) := Claim(w.journal, command, pin);
        w.(journal := journal, flight := if status.NewClaim? then AtRouter(command) else NoCommand)
    case RouterRefuses(result) =>
      if w.flight.AtRouter? && (result.status.Expired? || result.status.Rejected?)
      then w.(flight := Finished(w.flight.command, result)) else w
    case RouterThrows =>
      if w.flight.AtRouter? || w.flight.Dispatched? || w.flight.Released? then GiveUp(w, w.flight.command.id) else w
    case BeforeDispatch =>
      if !w.flight.AtRouter? then w
      else
        var next := MarkDispatchStarted(w.journal, w.flight.command.id);
        if next.None? then GiveUp(w, w.flight.command.id)
        else w.(journal := next.value, flight := Dispatched(w.flight.command),
                started := w.started + [w.flight.command])
    case Release =>
      if w.flight.Dispatched?
      then w.(flight := Released(w.flight.command), releases := w.releases + [w.flight.command]) else w
    case DriverReturns(result) =>
      if w.flight.Released? then w.(flight := Finished(w.flight.command, result)) else w
    case AfterResult(authorityRefreshed) =>
      if !w.flight.Finished? then w
      else
        var c, result := w.flight.command, w.flight.result;
        if w.stopped then w.(flight := NoCommand)
        else if !authorityRefreshed then Committed(w, PersistBlocked(w.journal, c.id, result)).(flight := NoCommand)
        else if c.id in w.journal && Active(w.journal[c.id].phase) then w.(flight := Building(c, result))
        else w.(flight := NoCommand)
    case ReceiptBuilt(built) =>
      if !w.flight.Building? then w
      else
        var c, result := w.flight.command, w.flight.result;
        var next := if built.None? then PersistBlocked(w.journal, c.id, result)
                    else PersistTerminal(w.journal, c.id, result, Body(c, result, built.value));
        Committed(w, next).(flight := NoCommand)
    case RecoverBlocked(id, randomness) =>
      if id in w.journal && w.journal[id].phase.ReceiptBlocked?
      then
        var result := w.journal[id].phase.result;
        Committed(w, PersistTerminal(w.journal, id, result, Body(w.journal[id].command, result, randomness)))
      else w
    case ListPending => w.(listed := w.listed + PendingBodies(w.journal))
    case Submit(body) => if body in w.listed then w.(submissions := w.submissions + [body]) else w
    case MarkReceipt(id, delivery) =>
      // Acknowledging follows a submission for that command id; nothing else is compared.
      if delivery.Acknowledged? && !SubmittedFor(w, id) then w else Committed(w, MarkOutbox(w.journal, id, delivery))
    case OwnerLost(id) => Committed(w, MarkOutcomeUnknown(w.journal, id))
    case PruneJournal => w.(journal := Prune(w.journal, w.now))
    case RecoverOrphaned => w.(journal := RecoverOrphans(w.journal))
    case Stop => w.(stopped := true, journal := RecoverOrphans(w.journal))
    case Crash => w.(flight := NoCommand, stopped := false, listed := {})
  }

  function Run(w: World, events: seq<Event>): World {
    if events == [] then w else Next(Run(w, events[..|events| - 1]), events[|events| - 1])
  }

  // ----- The retention guard

  /** Kept as a receipt, the result outlives its command: it is not pruned while the command could be claimed. */
  predicate Outlives(result: Result, command: Command) {
    result.updatedAt + RECEIPT_RETENTION + 1 >= command.expiresAt
  }

  predicate Guarded(w: World, e: Event, own: Command) {
    match e
    case RouterRefuses(result) => w.flight == AtRouter(own) ==> Outlives(result, own)
    case DriverReturns(result) => w.flight == Released(own) ==> Outlives(result, own)
    case _ => true
  }

  /** Every result the pass was handed for the command in the run satisfies the guard. */
  ghost predicate RunGuarded(w: World, events: seq<Event>, own: Command) {
    events == []
    || (RunGuarded(w, events[..|events| - 1], own)
        && Guarded(Run(w, events[..|events| - 1]), events[|events| - 1], own))
  }

  // ----- What every step keeps

  /** The command can never be claimed again: its entry is kept, or it has expired. */
  ghost predicate Spent(w: World, c: Command) {
    Entered(w, c) || c.expiresAt <= w.now
  }

  ghost predicate Entered(w: World, c: Command) {
    c.id in w.journal && w.journal[c.id].command == c
  }

  ghost predicate EntryOk(w: World, id: string, own: Command)
    requires id in w.journal
  {
    var e := w.journal[id];
    && e.command.id == id
    && (e.phase.Terminal? ==> e.phase.body.command == e.command && e.phase.body.result == e.phase.result)
    && (e.command == own ==>
          match e.phase
          case Claimed => own !in w.started && own !in w.releases
          case ReceiptBlocked(result) => Outlives(result, own) && (result.Accepted() ==> own in w.releases)
          case Terminal(result, _, _) => Outlives(result, own) && (result.Accepted() ==> own in w.releases)
          case _ => true)
  }

  /** While the pass works on a command, no other command takes its id. */
  ghost predicate FlightOk(w: World, own: Command) {
    && (!w.flight.NoCommand? && w.flight.command.id in w.journal ==>
          w.journal[w.flight.command.id].command == w.flight.command)
    && (!w.flight.NoCommand? && w.flight.command == own ==>
         && Spent(w, own)
         && match w.flight
            case AtRouter(_) => own !in w.releases && own !in w.started
            case Dispatched(_) => own in w.started && own !in w.releases
            case Released(_) => own in w.releases
            case Finished(_, result) => Outlives(result, own) && (result.Accepted() ==> own in w.releases)
            case Building(_, result) => Outlives(result, own) && (result.Accepted() ==> own in w.releases)
            case _ => true)
  }

  ghost predicate Once(s: seq<Command>, c: Command) {
    forall i, j :: 0 <= i < j < |s| ==> s[i] != c || s[j] != c
  }

  /** A body seen outside the journal is its command's receipt for good. */
  ghost predicate BodyOk(w: World, b: Body) {
    && (Entered(w, b.command) ==>
          w.journal[b.command.id].phase.Terminal? && w.journal[b.command.id].phase.body == b)
    && Spent(w, b.command)
    && (b.result.Accepted() ==> b.command in w.releases)
  }

  ghost predicate Seen(w: World, b: Body) { b in w.listed || b in w.submissions }

  ghost predicate BodiesOk(w: World, own: Command) {
    && (forall b :: Seen(w, b) && b.command == own ==> BodyOk(w, b))
    && (forall b, d :: Seen(w, b) && Seen(w, d) && b.command == d.command == own ==> b == d)
  }

  ghost predicate HistoryOk(w: World, own: Command) {
    && Once(w.started, own) && Once(w.releases, own)
    && (own in w.started ==> Spent(w, own))
    && (own in w.releases ==> own in w.started)
  }

  ghost predicate NoncesDistinct(j: Journal) {
    forall a, b :: a in j && b in j && a != b ==>
      j[a].command.watchId != j[b].command.watchId || j[a].command.nonce != j[b].command.nonce
  }

  ghost predicate Inv(w: World, own: Command) {
    && (forall id :: id in w.journal ==> EntryOk(w, id, own))
    && FlightOk(w, own) && HistoryOk(w, own) && BodiesOk(w, own) && NoncesDistinct(w.journal)
  }

  // ----- Every step keeps the invariant

  /** A step that only rewrites entries of commands already entered, and loses only expired ones. */
  ghost predicate JournalStep(w: World, w': World, own: Command) {
    && w'.now == w.now && w'.started == w.started && w'.releases == w.releases
    && w'.listed == w.listed && w'.submissions == w.submissions
    && (forall id :: id in w'.journal ==>
          id in w.journal && w'.journal[id].command == w.journal[id].command
          && (w.journal[id].phase.Terminal? ==>
                w'.journal[id].phase.Terminal? && w'.journal[id].phase.body == w.journal[id].phase.body))
    && (Entered(w, own) && own.id !in w'.journal ==> own.expiresAt <= w.now)
  }

  lemma JournalStepKeeps(w: World, w': World, own: Command)
    requires Inv(w, own) && JournalStep(w, w', own)
    requires w'.flight == w.flight || w'.flight.NoCommand?
             || (w.flight.Finished? && w'.flight == Building(w.flight.command, w.flight.result))
    requires forall id :: id in w'.journal ==> EntryOk(w', id, own)
    ensures Inv(w', own)
  {
    assert Spent(w, own) ==> Spent(w', own) by {
      if Entered(w, own) && own.id in w'.journal { assert EntryOk(w, own.id, own); }
    }
    forall b | Seen(w', b) && b.command == own
      ensures BodyOk(w', b)
    {
      assert Seen(w, b) && BodyOk(w, b);
    }
    assert NoncesDistinct(w'.journal);
  }

  lemma TransitionKeeps(w: World, next: Option<Journal>, id: string, phase: Phase, flight: Flight, own: Command)
    requires Inv(w, own) && (flight == w.flight || flight.NoCommand?)
    requires next.Some? ==> id in w.journal && next.value == SetPhase(w.journal, id, phase)
    requires next.Some? ==> !phase.Claimed?
    requires next.Some? ==>
      var e := w.journal[id].(phase := phase);
      EntryOk(w.(journal := next.value), id, own)
      && (w.journal[id].phase.Terminal? ==> phase.Terminal? && phase.body == w.journal[id].phase.body)
    ensures Inv(Committed(w, next).(flight := flight), own)
  {
    var w' := Committed(w, next).(flight := flight);
    forall k | k in w'.journal
      ensures EntryOk(w', k, own)
    {
      assert EntryOk(w, k, own);
    }
    JournalStepKeeps(w, w', own);
  }

  lemma GiveUpKeeps(w: World, id: string, own: Command)
    requires Inv(w, own)
    ensures Inv(GiveUp(w, id), own)
  {
    var unknown := MarkOutcomeUnknown(w.journal, id);
    if id in w.journal { assert EntryOk(w, id, own); }
    TransitionKeeps(w, if w.stopped then None else unknown, id, OutcomeUnknown, NoCommand, own);
  }

  lemma RewriteAllKeeps(w: World, w': World, own: Command)
    requires Inv(w, own) && w'.flight == w.flight
    requires w'.journal == RecoverOrphans(w.journal) || w'.journal == Prune(w.journal, w.now)
    requires w' == w.(journal := w'.journal, stopped := w'.stopped)
    ensures Inv(w', own)
  {
    forall id | id in w'.journal
      ensures EntryOk(w', id, own)
    {
      assert EntryOk(w, id, own);
    }
    if Entered(w, own) { assert EntryOk(w, own.id, own); }
    JournalStepKeeps(w, w', own);
  }

  lemma AdvanceKeeps(w: World, w': World, own: Command)
    requires Inv(w, own) && w'.now >= w.now
    requires w' == w.(now := w'.now) || w' == w.(flight := NoCommand, stopped := false, listed := {})
    ensures Inv(w', own)
  {
    forall id | id in w'.journal ensures EntryOk(w', id, own) { assert EntryOk(w, id, own); }
    forall b | Seen(w', b) && b.command == own ensures BodyOk(w', b) { assert Seen(w, b) && BodyOk(w, b); }
  }

  lemma DeliverKeeps(w: World, c: Command, pin: string, own: Command)
    requires Inv(w, own)
    ensures Inv(Next(w, Deliver(c, pin)), own)
  {
    var w' := Next(w, Deliver(c, pin));
    if w' != w {
      assert c.id !in w.journal && !Spent(w, c);
      assert Spent(w, own) ==> Spent(w', own);
      forall id | id in w'.journal ensures EntryOk(w', id, own) { if id in w.journal { assert EntryOk(w, id, own); } }
      forall b | Seen(w', b) && b.command == own ensures BodyOk(w', b) { assert Seen(w, b) && BodyOk(w, b); }
      assert NoncesDistinct(w'.journal);
    }
  }

  /** The steps of the pass that change no journal entry, but the history. */
  lemma RouterKeeps(w: World, e: Event, own: Command)
    requires Inv(w, own) && Guarded(w, e, own)
    requires e.RouterRefuses? || e.RouterThrows? || e.Release? || e.DriverReturns?
    ensures Inv(Next(w, e), own)
  {
    var w' := Next(w, e);
    if e.RouterThrows? {
      GiveUpKeeps(w, if w.flight.NoCommand? then "" else w.flight.command.id, own);
    } else {
      forall id | id in w'.journal ensures EntryOk(w', id, own) { assert EntryOk(w, id, own); }
      forall b | Seen(w', b) && b.command == own ensures BodyOk(w', b) { assert Seen(w, b) && BodyOk(w, b); }
    }
  }

  lemma BeforeDispatchKeeps(w: World, own: Command)
    requires Inv(w, own)
    ensures Inv(Next(w, BeforeDispatch), own)
  {
    if w.flight.AtRouter? {
      var c := w.flight.command;
      var next := MarkDispatchStarted(w.journal, c.id);
      if next.None? {
        GiveUpKeeps(w, c.id, own);
      } else {
        assert EntryOk(w, c.id, own);
        TransitionKeeps(w, next, c.id, DispatchStarted, w.flight, own);
        var w1 := Committed(w, next);
        var w' := Next(w, BeforeDispatch);
        forall id | id in w'.journal ensures EntryOk(w', id, own) {
          assert EntryOk(w1, id, own) && EntryOk(w, id, own);
        }
        forall b | Seen(w', b) && b.command == own ensures BodyOk(w', b) { assert Seen(w1, b) && BodyOk(w1, b); }
      }
    }
  }

  lemma ResultKeeps(w: World, e: Event, own: Command)
    requires Inv(w, own) && (e.AfterResult? || e.ReceiptBuilt?)
    ensures Inv(Next(w, e), own)
  {
    if e.AfterResult? && w.flight.Finished? {
      var c, result := w.flight.command, w.flight.result;
      if c.id in w.journal { assert EntryOk(w, c.id, own); }
      TransitionKeeps(w, PersistBlocked(w.journal, c.id, result), c.id, ReceiptBlocked(result), NoCommand, own);
      TransitionKeeps(w, None, c.id, OutcomeUnknown, NoCommand, own);
      if c.id in w.journal { StartBuilding(w, own); }
    }
    if e.ReceiptBuilt? && w.flight.Building? {
      var c, result := w.flight.command, w.flight.result;
      if c.id in w.journal { assert EntryOk(w, c.id, own); }
      TransitionKeeps(w, PersistBlocked(w.journal, c.id, result), c.id, ReceiptBlocked(result), NoCommand, own);
      if e.built.Some? {
        var body := Body(c, result, e.built.value);
        TransitionKeeps(w, PersistTerminal(w.journal, c.id, result, body), c.id, Terminal(result, body, Undelivered),
                        NoCommand, own);
      }
    }
  }

  lemma StartBuilding(w: World, own: Command)
    requires Inv(w, own) && w.flight.Finished?
    ensures Inv(w.(flight := Building(w.flight.command, w.flight.result)), own)
  {
    var w' := w.(flight := Building(w.flight.command, w.flight.result));
    forall id | id in w'.journal ensures EntryOk(w', id, own) { assert EntryOk(w, id, own); }
    JournalStepKeeps(w, w', own);
  }

  lemma ReceiptKeeps(w: World, e: Event, own: Command)
    requires Inv(w, own) && (e.RecoverBlocked? || e.MarkReceipt? || e.OwnerLost?)
    ensures Inv(Next(w, e), own)
  {
    match e
    case RecoverBlocked(id, randomness) =>
      if id in w.journal && w.journal[id].phase.ReceiptBlocked? {
        assert EntryOk(w, id, own);
        var result := w.journal[id].phase.result;
        var body := Body(w.journal[id].command, result, randomness);
        TransitionKeeps(w, PersistTerminal(w.journal, id, result, body), id, Terminal(result, body, Undelivered),
                        w.flight, own);
      }
    case MarkReceipt(id, delivery) =>
      var next := MarkOutbox(w.journal, id, delivery);
      if next.Some? {
        assert EntryOk(w, id, own);
        TransitionKeeps(w, next, id, w.journal[id].phase.(delivery := delivery), w.flight, own);
      }
    case OwnerLost(id) =>
      if id in w.journal { assert EntryOk(w, id, own); }
      TransitionKeeps(w, MarkOutcomeUnknown(w.journal, id), id, OutcomeUnknown, w.flight, own);
  }

  lemma DrainKeeps(w: World, e: Event, own: Command)
    requires Inv(w, own) && (e.ListPending? || e.Submit?)
    ensures Inv(Next(w, e), own)
  {
    var w' := Next(w, e);
    forall id | id in w'.journal ensures EntryOk(w', id, own) { assert EntryOk(w, id, own); }
    forall b | Seen(w', b) && b.command == own
      ensures BodyOk(w', b)
      ensures forall d :: Seen(w', d) && d.command == own ==> d == b
    {
      FromJournal(w, w', b, own);
      forall d | Seen(w', d) && d.command == own ensures d == b {
        FromJournal(w, w', d, own);
      }
    }
  }

  /** A newly listed body is read from its command's entry. */
  lemma FromJournal(w: World, w': World, b: Body, own: Command)
    requires Inv(w, own) && Seen(w', b) && b.command == own
    requires w' == Next(w, ListPending) || exists d :: w' == Next(w, Submit(d))
    ensures Seen(w, b)
        || (Entered(w, b.command) && w.journal[b.command.id].phase.Terminal? && w.journal[b.command.id].phase.body == b)
    ensures BodyOk(w, b)
  {
    if Seen(w, b) {
      assert BodyOk(w, b);
    } else {
      var id :| id in w.journal && w.journal[id].phase.Terminal? && w.journal[id].phase.body == b;
      assert EntryOk(w, id, own);
    }
  }

  lemma NextKeeps(w: World, e: Event, own: Command)
    requires Inv(w, own) && Guarded(w, e, own)
    ensures Inv(Next(w, e), own)
  {
    match e
    case Advance(_) => AdvanceKeeps(w, Next(w, e), own);
    case Deliver(c, pin) => DeliverKeeps(w, c, pin, own);
    case RouterRefuses(_) => RouterKeeps(w, e, own);
    case RouterThrows => RouterKeeps(w, e, own);
    case BeforeDispatch => BeforeDispatchKeeps(w, own);
    case Release => RouterKeeps(w, e, own);
    case DriverReturns(_) => RouterKeeps(w, e, own);
    case AfterResult(_) => ResultKeeps(w, e, own);
    case ReceiptBuilt(_) => ResultKeeps(w, e, own);
    case RecoverBlocked(_, _) => ReceiptKeeps(w, e, own);
    case ListPending => DrainKeeps(w, e, own);
    case Submit(_) => DrainKeeps(w, e, own);
    case MarkReceipt(_, _) => ReceiptKeeps(w, e, own);
    case OwnerLost(_) => ReceiptKeeps(w, e, own);
    case PruneJournal => RewriteAllKeeps(w, Next(w, e), own);
    case RecoverOrphaned => RewriteAllKeeps(w, Next(w, e), own);
    case Stop => RewriteAllKeeps(w, Next(w, e), own);
    case Crash => AdvanceKeeps(w, Next(w, e), own);
  }
}
