/** What holds of dispatches and receipts over every run of the command workflow. */
module CommandWorkflowRuns {
  import opened Wrappers
  import opened CommandJournal
  import opened CommandWorkflow

  lemma {:induction false} RunKeeps(w: World, events: seq<Event>, own: Command)
    requires Inv(w, own) && RunGuarded(w, events, own)
    ensures Inv(Run(w, events), own)
  {
    if events != [] {
      var n := |events| - 1;
      RunKeeps(w, events[..n], own);
      NextKeeps(Run(w, events[..n]), events[n], own);
    }
  }

  function Count(s: seq<Command>, c: Command): nat {
    if s == [] then 0 else Count(s[..|s| - 1], c) + (if s[|s| - 1] == c then 1 else 0)
  }

  lemma {:induction false} CountOnce(s: seq<Command>, c: Command)
    requires Once(s, c)
    ensures Count(s, c) == if c in s then 1 else 0
  {
    if s != [] {
      var n := |s| - 1;
      assert Once(s[..n], c);
      CountOnce(s[..n], c);
      assert s == s[..n] + [s[n]];
    }
  }

  // ----- Dispatch

  /** Whatever results drivers return, a command is released at most once while its journal entry is kept. */
  lemma {:induction false} KeptEntryReleasedOnce(w: World, events: seq<Event>, c: Command)
    requires forall i :: 0 <= i < |events| ==> c.id in Run(w, events[..i]).journal
    ensures var w' := Run(w, events);
            Count(w'.releases, c) + Chances(w', c) <= Count(w.releases, c) + Chances(w, c)
  {
    if events != [] {
      var n := |events| - 1;
      var before := events[..n];
      forall i | 0 <= i < n ensures c.id in Run(w, before[..i]).journal { assert before[..i] == events[..i]; }
      KeptEntryReleasedOnce(w, before, c);
      LastChances(w, events, c);
    }
  }

  lemma LastChances(w: World, events: seq<Event>, c: Command)
    requires events != [] && c.id in Run(w, events[..|events| - 1]).journal
    ensures var before, w' := Run(w, events[..|events| - 1]), Run(w, events);
            Count(w'.releases, c) + Chances(w', c) <= Count(before.releases, c) + Chances(before, c)
  {
    NextChances(Run(w, events[..|events| - 1]), events[|events| - 1], c);
  }

  lemma NextChances(w: World, e: Event, c: Command)
    requires c.id in w.journal
    ensures var w' := Next(w, e);
            Count(w'.releases, c) + Chances(w', c) <= Count(w.releases, c) + Chances(w, c)
  {
    if e.Release? && w.flight.Dispatched? {
      assert (w.releases + [w.flight.command])[..|w.releases|] == w.releases;
    }
  }

  /** Releases the pass can still make of this command without a new claim. */
  function Chances(w: World, c: Command): nat {
    if (w.flight.AtRouter? || w.flight.Dispatched?) && w.flight.command == c then 1 else 0
  }

  /** Releases that are recorded as started and not made yet. */
  function StartedOnly(w: World, c: Command): nat { if w.flight == Dispatched(c) then 1 else 0 }

  lemma NextStartsFirst(w: World, e: Event, c: Command)
    requires Count(w.releases, c) + StartedOnly(w, c) <= Count(w.started, c)
    ensures var w' := Next(w, e); Count(w'.releases, c) + StartedOnly(w', c) <= Count(w'.started, c)
  {
    if e.Release? && w.flight.Dispatched? {
      assert (w.releases + [w.flight.command])[..|w.releases|] == w.releases;
    }
    if e.BeforeDispatch? && w.flight.AtRouter? {
      assert (w.started + [w.flight.command])[..|w.started|] == w.started;
    } else if !e.Release? {
      OthersStartNothing(w, e, c);
    }
  }

  lemma OthersStartNothing(w: World, e: Event, c: Command)
    requires !e.Release? && (e.BeforeDispatch? ==> !w.flight.AtRouter?)
    ensures Next(w, e).releases == w.releases && Next(w, e).started == w.started
    ensures StartedOnly(Next(w, e), c) <= StartedOnly(w, c)
  {
  }

  /** In every run, whatever drivers return, each release comes after its own durable dispatch record. */
  lemma {:induction false} ReleasedAfterStarted(events: seq<Event>, c: Command)
    ensures var w := Run(Init, events); Count(w.releases, c) + StartedOnly(w, c) <= Count(w.started, c)
  {
    if events != [] {
      ReleasedAfterStarted(events[..|events| - 1], c);
      NextStartsFirst(Run(Init, events[..|events| - 1]), events[|events| - 1], c);
    }
  }

  /** At-most-once dispatch over a whole run, entries pruned and all, of a command whose own results outlive it. */
  lemma AtMostOnceDispatch(events: seq<Event>, c: Command)
    requires RunGuarded(Init, events, c)
    ensures var w := Run(Init, events);
            Count(w.releases, c) <= Count(w.started, c) <= 1
  {
    RunKeeps(Init, events, c);
    var w := Run(Init, events);
    CountOnce(w.started, c);
    CountOnce(w.releases, c);
  }

  /** No two kept entries of a Watch share a nonce. */
  lemma {:induction false} NonceFixesCommand(events: seq<Event>)
    ensures NoncesDistinct(Run(Init, events).journal)
  {
    if events != [] {
      NonceFixesCommand(events[..|events| - 1]);
      NextNonces(Run(Init, events[..|events| - 1]), events[|events| - 1]);
    }
  }

  lemma NextNonces(w: World, e: Event)
    requires NoncesDistinct(w.journal)
    ensures NoncesDistinct(Next(w, e).journal)
  {
    var j := Next(w, e).journal;
    if e.Deliver? {
      ClaimNonces(w.journal, e.command, e.pin);
    } else {
      NoNewCommands(w, e);
      forall a, b | a in j && b in j && a != b
        ensures j[a].command.watchId != j[b].command.watchId || j[a].command.nonce != j[b].command.nonce
      {
        assert a in w.journal && b in w.journal;
      }
    }
  }

  lemma ClaimNonces(j: Journal, c: Command, pin: string)
    requires NoncesDistinct(j)
    ensures NoncesDistinct(Claim(j, c, pin).0)
  {
  }

  lemma NoNewCommands(w: World, e: Event)
    requires !e.Deliver?
    ensures forall id :: id in Next(w, e).journal ==>
        id in w.journal && Next(w, e).journal[id].command == w.journal[id].command
  {
  }

  // ----- Nothing is left undecided

  /** Only the command that the pass works on is active, and the entry under its id is its own. */
  ghost predicate OnlyFlightActive(w: World) {
    && (forall id :: id in w.journal && Active(w.journal[id].phase) ==>
          !w.flight.NoCommand? && w.flight.command.id == id)
    && (!w.flight.NoCommand? && w.flight.command.id in w.journal ==>
          w.journal[w.flight.command.id].command == w.flight.command)
  }

  /** The events other than the ends of a process. */
  predicate GoesOn(e: Event) { !e.Crash? && !e.Stop? }

  lemma FlightStepLeaves(w: World, e: Event)
    requires OnlyFlightActive(w) && !w.stopped
    requires e.RouterThrows? || e.BeforeDispatch? || e.AfterResult? || e.ReceiptBuilt?
    ensures OnlyFlightActive(Next(w, e))
  {
  }

  lemma OtherStepLeaves(w: World, e: Event)
    requires OnlyFlightActive(w) && !w.stopped && GoesOn(e)
    requires !e.RouterThrows? && !e.BeforeDispatch? && !e.AfterResult? && !e.ReceiptBuilt?
    ensures OnlyFlightActive(Next(w, e))
  {
  }

  /**
   Until a process ends, an execution is active only while the pass works on it: whatever throws, it ends with an
   unknown outcome, a blocked receipt or a terminal one.
   */
  lemma {:induction false} PassLeavesNothingActive(events: seq<Event>)
    requires forall i :: 0 <= i < |events| ==> GoesOn(events[i])
    ensures var w := Run(Init, events); OnlyFlightActive(w) && !w.stopped
  {
    if events != [] {
      var n := |events| - 1;
      PassLeavesNothingActive(events[..n]);
      var w, e := Run(Init, events[..n]), events[n];
      if e.RouterThrows? || e.BeforeDispatch? || e.AfterResult? || e.ReceiptBuilt? {
        FlightStepLeaves(w, e);
      } else {
        OtherStepLeaves(w, e);
      }
      NeverStops(w, e);
    }
  }

  lemma NeverStops(w: World, e: Event)
    requires !w.stopped && GoesOn(e)
    ensures !Next(w, e).stopped
  {
  }

  /** Losing its owner, or a router that throws, makes an active execution's outcome unknown, and nothing else. */
  lemma ThrowingMakesUnknown(w: World, id: string)
    requires id in w.journal && Active(w.journal[id].phase)
    ensures Next(w, OwnerLost(id)) == w.(journal := w.journal[id := w.journal[id].(phase := OutcomeUnknown)])
    ensures w.flight in {AtRouter(w.journal[id].command), Dispatched(w.journal[id].command),
                         Released(w.journal[id].command)}
            && w.journal[id].command.id == id && !w.stopped ==>
              Next(w, RouterThrows)
              == w.(flight := NoCommand, journal := w.journal[id := w.journal[id].(phase := OutcomeUnknown)])
  {
  }

  /** The pass has a result for the entry, recorded with its receipt or blocked. */
  ghost predicate HasResult(w: World, id: string) {
    id in w.journal && (w.journal[id].phase.Terminal? || w.journal[id].phase.ReceiptBlocked?)
  }

  /** Stopping ends every execution, and from then to the next start the pass records no result. */
  lemma {:induction false} StoppedRecordsNothing(w: World, after: seq<Event>, id: string)
    requires !w.flight.Building? && forall i :: 0 <= i < |after| ==> !after[i].Crash?
    ensures id in Next(w, Stop).journal ==> !Active(Next(w, Stop).journal[id].phase)
    ensures var w' := Run(Next(w, Stop), after);
            w'.stopped && !w'.flight.Building? && (HasResult(w', id) ==> HasResult(w, id))
  {
    if after != [] {
      var before := after[..|after| - 1];
      StoppedRecordsNothing(w, before, id);
      StoppedStepRecordsNothing(Run(Next(w, Stop), before), after[|after| - 1], id);
    }
  }

  lemma StoppedStepRecordsNothing(w: World, e: Event, id: string)
    requires w.stopped && !w.flight.Building? && !e.Crash?
    ensures Next(w, e).stopped && !Next(w, e).flight.Building?
    ensures HasResult(Next(w, e), id) ==> HasResult(w, id)
  {
  }

  /** The pass is handed this result of the command. */
  predicate Hands(w: World, e: Event, own: Command, result: Result) {
    (e == RouterRefuses(result) && w.flight == AtRouter(own))
    || (e == DriverReturns(result) && w.flight == Released(own))
  }

  ghost predicate HandsOutliving(w: World, e: Event, own: Command) {
    forall result :: Hands(w, e, own, result) ==> Outlives(result, own)
  }

  lemma GuardedIff(w: World, e: Event, own: Command)
    ensures Guarded(w, e, own) <==> HandsOutliving(w, e, own)
  {
    if (e.RouterRefuses? || e.DriverReturns?) && HandsOutliving(w, e, own) {
      assert Hands(w, e, own, e.result) ==> Outlives(e.result, own);
    }
  }

  ghost predicate OutlivesAt(w: World, events: seq<Event>, i: nat, own: Command)
    requires i < |events|
  {
    HandsOutliving(Run(w, events[..i]), events[i], own)
  }

  lemma OutlivesBefore(w: World, events: seq<Event>, i: nat, own: Command)
    requires i + 1 < |events|
    ensures OutlivesAt(w, events[..|events| - 1], i, own) <==> OutlivesAt(w, events, i, own)
  {
    assert events[..|events| - 1][..i] == events[..i];
  }

  /** The guard of the results asks nothing of a run but that each result of the command outlives it. */
  lemma {:induction false} RunGuardedIff(w: World, events: seq<Event>, own: Command)
    ensures RunGuarded(w, events, own) <==> forall i :: 0 <= i < |events| ==> OutlivesAt(w, events, i, own)
  {
    if events != [] {
      var n := |events| - 1;
      RunGuardedIff(w, events[..n], own);
      LastGuardedIff(w, events, own);
      forall i | 0 <= i < n ensures OutlivesAt(w, events[..n], i, own) <==> OutlivesAt(w, events, i, own) {
        OutlivesBefore(w, events, i, own);
      }
    }
  }

  lemma LastGuardedIff(w: World, events: seq<Event>, own: Command)
    requires events != []
    ensures RunGuarded(w, events, own)
            <==> RunGuarded(w, events[..|events| - 1], own) && OutlivesAt(w, events, |events| - 1, own)
  {
    GuardedIff(Run(w, events[..|events| - 1]), events[|events| - 1], own);
  }

  /** Stopping, and recovery at startup, make the outcome of exactly the active executions unknown. */
  lemma OrphansBecomeUnknown(w: World)
    ensures var j := Next(w, RecoverOrphaned).journal;
            && Next(w, Stop).journal == j && j.Keys == w.journal.Keys
            && forall id :: id in j ==>
                 j[id] == if Active(w.journal[id].phase) then w.journal[id].(phase := OutcomeUnknown) else w.journal[id]
  {
  }

  /** When an execution is last kept: 30 days after its result, or five minutes past the end of its command. */
  function KeptThrough(e: Execution): Time {
    if e.phase.ReceiptBlocked? || e.phase.Terminal? then e.phase.result.updatedAt + 2_592_000_000
    else e.command.expiresAt + 300_000
  }

  /** Pruning keeps exactly the executions whose time has not passed, unchanged. */
  lemma PrunedExactly(w: World, id: string)
    ensures var j := Next(w, PruneJournal).journal;
            && (id in j <==> id in w.journal && w.now <= KeptThrough(w.journal[id]))
            && (id in j ==> j[id] == w.journal[id])
  {
  }

  // ----- Receipts

  /** Every submission of one command's receipt is the same body; `executed` is said only of a released command. */
  lemma ReceiptIsFixed(events: seq<Event>, b: Body, d: Body)
    requires RunGuarded(Init, events, b.command)
    requires var s := Run(Init, events).submissions; b in s && d in s
    ensures b.command == d.command ==> b == d
    ensures b.result.Accepted() ==> b.command in Run(Init, events).releases
  {
    RunKeeps(Init, events, b.command);
    var w := Run(Init, events);
    assert Seen(w, b) && Seen(w, d) && BodyOk(w, b);
  }

  /** The commands the relay delivered in a run. */
  function Delivered(events: seq<Event>): set<Command> {
    set i | 0 <= i < |events| && events[i].Deliver? :: events[i].command
  }

  ghost predicate EntrySourced(w: World, id: string, delivered: set<Command>)
    requires id in w.journal
  {
    var e := w.journal[id];
    && e.command in delivered && e.command.id == id
    && (e.phase.Terminal? ==>
          e.phase.body.command == e.command && (e.phase.delivery.Acknowledged? ==> SubmittedFor(w, id)))
  }

  /** Nothing is known of commands that were not delivered; an acknowledged entry has a submission for its id. */
  ghost predicate Sourced(w: World, delivered: set<Command>) {
    && (forall id :: id in w.journal ==> EntrySourced(w, id, delivered))
    && (forall b :: Seen(w, b) ==> b.command in delivered)
    && (!w.flight.NoCommand? ==> w.flight.command in delivered)
  }

  lemma SubmittedStays(w: World, e: Event, id: string)
    requires SubmittedFor(w, id)
    ensures SubmittedFor(Next(w, e), id)
  {
    var b :| b in w.submissions && b.command.id == id;
    assert b in Next(w, e).submissions;
  }

  lemma EntrySourcedNext(w: World, e: Event, delivered: set<Command>, id: string)
    requires Sourced(w, delivered) && (e.Deliver? ==> e.command in delivered) && id in Next(w, e).journal
    ensures EntrySourced(Next(w, e), id, delivered)
  {
    if SubmittedFor(w, id) { SubmittedStays(w, e, id); }
    if e.AfterResult? || e.ReceiptBuilt? || e.RecoverBlocked? || e.MarkReceipt? {
      EntrySourcedAnswer(w, e, delivered, id);
    } else if id in w.journal {
      assert EntrySourced(w, id, delivered);
    }
  }

  lemma EntrySourcedAnswer(w: World, e: Event, delivered: set<Command>, id: string)
    requires Sourced(w, delivered) && id in Next(w, e).journal && (SubmittedFor(w, id) ==> SubmittedFor(Next(w, e), id))
    requires e.AfterResult? || e.ReceiptBuilt? || e.RecoverBlocked? || e.MarkReceipt?
    ensures EntrySourced(Next(w, e), id, delivered)
  {
    assert EntrySourced(w, id, delivered);
  }

  lemma SeenSourcedNext(w: World, e: Event, delivered: set<Command>, b: Body)
    requires Sourced(w, delivered) && Seen(Next(w, e), b)
    ensures b.command in delivered
  {
    if !Seen(w, b) {
      assert e.ListPending?;
      var id :| id in w.journal && w.journal[id].phase.Terminal? && w.journal[id].phase.body == b;
      assert EntrySourced(w, id, delivered);
    }
  }

  lemma SourcedNext(w: World, e: Event, delivered: set<Command>)
    requires Sourced(w, delivered) && (e.Deliver? ==> e.command in delivered)
    ensures Sourced(Next(w, e), delivered)
  {
    var w' := Next(w, e);
    forall id | id in w'.journal ensures EntrySourced(w', id, delivered) { EntrySourcedNext(w, e, delivered, id); }
    forall b | Seen(w', b) ensures b.command in delivered { SeenSourcedNext(w, e, delivered, b); }
  }

  lemma {:induction false} SourcedRun(events: seq<Event>, delivered: set<Command>)
    requires Delivered(events) <= delivered
    ensures Sourced(Run(Init, events), delivered)
  {
    if events != [] {
      var n := |events| - 1;
      assert Delivered(events[..n]) <= Delivered(events);
      assert events[n].Deliver? ==> events[n].command in Delivered(events);
      SourcedRun(events[..n], delivered);
      SourcedNext(Run(Init, events[..n]), events[n], delivered);
    }
  }

  /** A command whose outcome is unknown, or was when its entry was pruned. */
  ghost predicate Silent(w: World, c: Command) {
    && (Entered(w, c) ==> w.journal[c.id].phase.OutcomeUnknown?)
    && (!Entered(w, c) ==> c.expiresAt <= w.now)
    && (forall b :: Seen(w, b) ==> b.command != c)
  }

  lemma SilentNext(w: World, e: Event, c: Command, delivered: set<Command>)
    requires Sourced(w, delivered) && Silent(w, c)
    ensures Silent(Next(w, e), c)
  {
    SilentEntry(w, e, c, delivered);
    forall b | Seen(Next(w, e), b) ensures b.command != c { SilentBody(w, e, c, b, delivered); }
  }

  lemma SilentEntry(w: World, e: Event, c: Command, delivered: set<Command>)
    requires Sourced(w, delivered) && Silent(w, c)
    ensures var w' := Next(w, e);
            if Entered(w', c) then w'.journal[c.id].phase.OutcomeUnknown? else c.expiresAt <= w'.now
  {
    if e.Deliver? || e.PruneJournal? || e.RecoverOrphaned? || e.Stop? {
      SilentSweep(w, e, c, delivered);
    } else if e.AfterResult? || e.ReceiptBuilt? || e.RecoverBlocked? {
      SilentAnswer(w, e, c, delivered);
    } else {
      SilentCommit(w, e, c, delivered);
    }
  }

  lemma SilentSweep(w: World, e: Event, c: Command, delivered: set<Command>)
    requires Sourced(w, delivered) && Silent(w, c)
    requires e.Deliver? || e.PruneJournal? || e.RecoverOrphaned? || e.Stop?
    ensures var w' := Next(w, e);
            if Entered(w', c) then w'.journal[c.id].phase.OutcomeUnknown? else c.expiresAt <= w'.now
  {
    if Entered(w, c) { assert EntrySourced(w, c.id, delivered); }
  }

  lemma SilentCommit(w: World, e: Event, c: Command, delivered: set<Command>)
    requires Sourced(w, delivered) && Silent(w, c)
    requires !e.Deliver? && !e.PruneJournal? && !e.RecoverOrphaned? && !e.Stop?
    requires !e.AfterResult? && !e.ReceiptBuilt? && !e.RecoverBlocked?
    ensures var w' := Next(w, e);
            if Entered(w', c) then w'.journal[c.id].phase.OutcomeUnknown? else c.expiresAt <= w'.now
  {
    if Entered(w, c) { assert EntrySourced(w, c.id, delivered); }
  }

  lemma SilentAnswer(w: World, e: Event, c: Command, delivered: set<Command>)
    requires Sourced(w, delivered) && Silent(w, c)
    requires e.AfterResult? || e.ReceiptBuilt? || e.RecoverBlocked?
    ensures var w' := Next(w, e);
            if Entered(w', c) then w'.journal[c.id].phase.OutcomeUnknown? else c.expiresAt <= w'.now
  {
    if Entered(w, c) { assert EntrySourced(w, c.id, delivered); }
    if e.RecoverBlocked? && e.id in w.journal { assert EntrySourced(w, e.id, delivered); }
  }

  lemma SilentBody(w: World, e: Event, c: Command, b: Body, delivered: set<Command>)
    requires Sourced(w, delivered) && Silent(w, c) && Seen(Next(w, e), b)
    ensures b.command != c
  {
    if !Seen(w, b) {
      assert e.ListPending?;
      var id :| id in w.journal && w.journal[id].phase.Terminal? && w.journal[id].phase.body == b;
      assert EntrySourced(w, id, delivered);
    }
  }

  lemma {:induction false} SilentRun(w: World, events: seq<Event>, c: Command, delivered: set<Command>)
    requires Sourced(w, delivered) && Delivered(events) <= delivered && Silent(w, c)
    ensures Silent(Run(w, events), c) && Sourced(Run(w, events), delivered)
  {
    if events != [] {
      var n := |events| - 1;
      assert Delivered(events[..n]) <= Delivered(events);
      assert events[n].Deliver? ==> events[n].command in Delivered(events);
      SilentRun(w, events[..n], c, delivered);
      SourcedNext(Run(w, events[..n]), events[n], delivered);
      SilentNext(Run(w, events[..n]), events[n], c, delivered);
    }
  }

  /**
   `outcome_unknown` never leads to a receipt, before or after: it is enough that the results that the command itself
   had before then outlive it.
   */
  lemma UnknownIsNeverAnswered(before: seq<Event>, after: seq<Event>, c: Command)
    requires RunGuarded(Init, before, c)
    requires var w := Run(Init, before); Entered(w, c) && w.journal[c.id].phase.OutcomeUnknown?
    ensures var w' := Run(Run(Init, before), after);
            Silent(w', c) && forall b :: b in w'.submissions ==> b.command != c
  {
    var w := Run(Init, before);
    RunKeeps(Init, before, c);
    forall b | Seen(w, b) ensures b.command != c { assert b.command == c ==> BodyOk(w, b); }
    SourcedRun(before, Delivered(before) + Delivered(after));
    SilentRun(w, after, c, Delivered(before) + Delivered(after));
    assert forall b :: b in Run(w, after).submissions ==> Seen(Run(w, after), b);
  }

  /** If no two delivered commands share an id, a receipt is acknowledged only once its exact body was submitted. */
  lemma AcknowledgedWasSubmitted(events: seq<Event>, id: string)
    requires id in Run(Init, events).journal && RunGuarded(Init, events, Run(Init, events).journal[id].command)
    requires forall c, d :: c in Delivered(events) && d in Delivered(events) && c.id == d.id ==> c == d
    requires var j := Run(Init, events).journal;
             j[id].phase.Terminal? && j[id].phase.delivery.Acknowledged?
    ensures Run(Init, events).journal[id].phase.body in Run(Init, events).submissions
  {
    var w := Run(Init, events);
    RunKeeps(Init, events, w.journal[id].command);
    SourcedRun(events, Delivered(events));
    assert EntrySourced(w, id, Delivered(events));
    var b :| b in w.submissions && b.command.id == id;
    assert Seen(w, b) && BodyOk(w, b);
  }

  // ----- What the retention guard excludes

  /** A kept result leaves room for its command to be claimed again exactly when it does not outlive it. */
  lemma ClaimableAgainIff(j: Journal, c: Command, pin: string, result: Result, body: Body, delivery: Delivery)
    requires c.id in j && j[c.id] == Execution(c, pin, Terminal(result, body, delivery))
    ensures (exists now: Time :: now < c.expiresAt && c.id !in Prune(j, now)) <==> !Outlives(result, c)
  {
    if !Outlives(result, c) { assert c.id !in Prune(j, c.expiresAt - 1); }
  }

  /** One whole pass over a delivered command that its driver answers with `result`, up to the submission. */
  function Handled(c: Command, pin: string, result: Result, randomness: nat): seq<Event> {
    [Deliver(c, pin), BeforeDispatch, Release]
    + [DriverReturns(result), AfterResult(true), ReceiptBuilt(Some(randomness))]
    + [ListPending, Submit(Body(c, result, randomness))]
  }

  /** The world after one whole pass. */
  function AfterPass(w: World, c: Command, pin: string, result: Result, randomness: nat): World {
    var body := Body(c, result, randomness);
    var journal := w.journal[c.id := Execution(c, pin, Terminal(result, body, Undelivered))];
    w.(journal := journal, flight := NoCommand, started := w.started + [c], releases := w.releases + [c],
       listed := w.listed + PendingBodies(journal), submissions := w.submissions + [body])
  }

  lemma {:induction false} RunAppend(w: World, first: seq<Event>, second: seq<Event>)
    ensures Run(w, first + second) == Run(Run(w, first), second)
  {
    if second == [] {
      assert first + second == first;
    } else {
      var n := |second| - 1;
      assert (first + second)[..|first| + n] == first + second[..n];
      RunAppend(w, first, second[..n]);
    }
  }

  lemma RunFew(w: World, a: Event, b: Event, c: Event)
    ensures Run(w, [a]) == Next(w, a)
    ensures Run(w, [a, b]) == Next(Next(w, a), b)
    ensures Run(w, [a, b, c]) == Next(Next(Next(w, a), b), c)
  {
    RunSnoc(w, [], a);
    RunSnoc(w, [a], b);
    RunSnoc(w, [a, b], c);
    assert [] + [a] == [a] && [a] + [b] == [a, b] && [a, b] + [c] == [a, b, c];
  }

  lemma RunSnoc(w: World, events: seq<Event>, e: Event)
    ensures Run(w, events + [e]) == Next(Run(w, events), e)
  {
    var all := events + [e];
    assert all[..|all| - 1] == events && all[|all| - 1] == e;
  }

  lemma PassOf(w: World, c: Command, pin: string, result: Result, randomness: nat)
    requires w.flight.NoCommand? && !w.stopped && w.now < c.expiresAt && w.journal == map[]
    ensures Run(w, Handled(c, pin, result, randomness)) == AfterPass(w, c, pin, result, randomness)
  {
    var released := ReleasePart(w, c, pin);
    var built := AnswerPart(released, c, pin, result, randomness);
    DrainPart(built, c.id, Body(c, result, randomness));
    var claim := [Deliver(c, pin), BeforeDispatch, Release];
    var answer := [DriverReturns(result), AfterResult(true), ReceiptBuilt(Some(randomness))];
    RunAppend(w, claim, answer);
    RunAppend(w, claim + answer, [ListPending, Submit(Body(c, result, randomness))]);
  }

  lemma ReleasePart(w: World, c: Command, pin: string) returns (w': World)
    requires w.flight.NoCommand? && w.now < c.expiresAt && w.journal == map[]
    ensures w' == w.(journal := map[c.id := Execution(c, pin, DispatchStarted)], flight := Released(c),
                     started := w.started + [c], releases := w.releases + [c])
    ensures Run(w, [Deliver(c, pin), BeforeDispatch, Release]) == w'
  {
    RunFew(w, Deliver(c, pin), BeforeDispatch, Release);
    var claimed := Next(w, Deliver(c, pin));
    assert claimed.journal == map[c.id := Execution(c, pin, Claimed)];
    w' := Next(Next(claimed, BeforeDispatch), Release);
  }

  lemma AnswerPart(w: World, c: Command, pin: string, result: Result, randomness: nat) returns (w': World)
    requires !w.stopped && w.flight == Released(c) && w.journal == map[c.id := Execution(c, pin, DispatchStarted)]
    ensures var phase := Terminal(result, Body(c, result, randomness), Undelivered);
            w' == w.(journal := map[c.id := Execution(c, pin, phase)], flight := NoCommand)
    ensures Run(w, [DriverReturns(result), AfterResult(true), ReceiptBuilt(Some(randomness))]) == w'
  {
    RunFew(w, DriverReturns(result), AfterResult(true), ReceiptBuilt(Some(randomness)));
    var building := Next(Next(w, DriverReturns(result)), AfterResult(true));
    assert building == w.(flight := Building(c, result));
    w' := Next(building, ReceiptBuilt(Some(randomness)));
  }

  lemma DrainPart(w: World, id: string, body: Body)
    requires id in w.journal && w.journal[id].phase == Terminal(body.result, body, Undelivered)
    ensures Run(w, [ListPending, Submit(body)])
            == w.(listed := w.listed + PendingBodies(w.journal), submissions := w.submissions + [body])
  {
    RunFew(w, ListPending, Submit(body), Stop);
    assert body in PendingBodies(w.journal) by { assert w.journal[id].phase.body == body; }
  }

  /**
   A driver result whose retention ends before its command expires is pruned too early: the redelivered
   command is released to the driver a second time, and a second, different receipt body is submitted.
   */
  lemma StaleResultIsReleasedTwice(c: Command, pin: string, result: Result)
    requires 0 < c.expiresAt && !Outlives(result, c)
    ensures var events :=
        Handled(c, pin, result, 0) + [Advance(c.expiresAt - 1), PruneJournal] + Handled(c, pin, result, 1);
            Run(Init, events).releases == [c, c]
            && Run(Init, events).submissions == [Body(c, result, 0), Body(c, result, 1)]
  {
    var first := Handled(c, pin, result, 0);
    var between := [Advance(c.expiresAt - 1)] + [PruneJournal];
    var second := Handled(c, pin, result, 1);
    assert between == [Advance(c.expiresAt - 1), PruneJournal];
    PassOf(Init, c, pin, result, 0);
    var once := AfterPass(Init, c, pin, result, 0);
    RunAppend(Init, first, between);
    RunAppend(once, [Advance(c.expiresAt - 1)], [PruneJournal]);
    RunFew(once, Advance(c.expiresAt - 1), Stop, Stop);
    var later := Next(once, Advance(c.expiresAt - 1));
    RunFew(later, PruneJournal, Stop, Stop);
    var pruned := Next(later, PruneJournal);
    assert pruned.journal == map[];
    PassOf(pruned, c, pin, result, 1);
    RunAppend(Init, first + between, second);
  }
}
