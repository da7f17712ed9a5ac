/**
 The command pass, its router, receipt recovery and the receipt drain in their own control flow.  Every effect
 is one event of module CommandWorkflow; at each await other parts of the process act first.
 */
module CommandWorkflowProgram {
  import opened Wrappers
  import opened CommandJournal
  import opened CommandWorkflow
  import opened CommandWorkflowRuns

  datatype PinStatus = Deliverable | Revoked | Unavailable

  datatype Io = Works | Fails | FailsAfterEffect

  datatype PassStep = Skip | Handled(result: Result) | Thrown

  datatype DrainStep = Drained | Skipped | Threw

  /** One await: what others do meanwhile, how the call ends, and what it answers. */
  datatype Tick = Tick(
    others: seq<Event>, io: Io, pin: PinStatus, refusal: Option<Result>, result: Result, randomness: nat)

  /** Nothing interferes, every call works and every driver executes. */
  function Calm(now: Time): Tick {
    Tick([], Works, Deliverable, None, Result(Executed, now), 0)
  }

  /** What the next await answers, and whether nobody acts meanwhile. */
  function NextTick(script: seq<Tick>, now: Time): Tick { if script == [] then Calm(now) else script[0] }

  predicate Alone(script: seq<Tick>) { script == [] || script[0].others == [] }

  /** What other parts of the process may do beside the single command pass. */
  predicate Aside(e: Event) {
    e.Advance? || e.ListPending? || e.Submit? || e.MarkReceipt? || e.OwnerLost? || e.PruneJournal? || e.Stop?
  }

  ghost predicate Reachable(w: World) {
    exists events :: w == Run(Init, events)
  }

  lemma ReachableNext(w: World, e: Event)
    requires Reachable(w)
    ensures Reachable(Next(w, e))
  {
    var events :| w == Run(Init, events);
    assert (events + [e])[..|events + [e]| - 1] == events;
    assert Next(w, e) == Run(Init, events + [e]);
  }

  /** The body of a kept receipt is its own entry's. */
  lemma ReachableEntry(w: World, id: string)
    requires Reachable(w) && id in w.journal
    ensures w.journal[id].command.id == id
    ensures w.journal[id].phase.Terminal? ==> w.journal[id].phase.body.command == w.journal[id].command
  {
    var events :| w == Run(Init, events);
    SourcedRun(events, Delivered(events));
    assert EntrySourced(w, id, Delivered(events));
  }

  /** The pass itself did nothing: entries only lose activity or disappear, and stopping leaves none active. */
  ghost predicate Beside(w: World, w': World) {
    && w'.flight == w.flight && w'.started == w.started && w'.releases == w.releases
    && w.listed <= w'.listed && w.submissions <= w'.submissions
    && (forall id :: id in w'.journal ==>
          id in w.journal && w'.journal[id].command == w.journal[id].command
          && (Active(w'.journal[id].phase) ==> w'.journal[id] == w.journal[id]))
    && (w.stopped ==> w'.stopped)
    && (w'.stopped && !w.stopped ==> forall id :: id in w'.journal ==> !Active(w'.journal[id].phase))
  }

  lemma AsideIsBeside(w: World, e: Event)
    requires Aside(e) || e.RecoverBlocked? || e.RecoverOrphaned?
    ensures Beside(w, Next(w, e))
  {
  }

  predicate Pending(e: Execution) { e.phase.Terminal? && e.phase.delivery.Undelivered? }

  function PendingIds(j: Journal): set<string> {
    set id | id in j && Pending(j[id])
  }

  function BlockedIds(j: Journal): set<string> {
    set id | id in j && j[id].phase.ReceiptBlocked?
  }

  /** Every pending receipt of `ids` acknowledged. */
  function Acknowledge(j: Journal, ids: set<string>): Journal {
    map id | id in j :: if id in ids && Pending(j[id]) then j[id].(phase := j[id].phase.(delivery := Acknowledged))
        else j[id]
  }

  /** Every blocked receipt of `ids` built with `randomness`. */
  function Unblock(j: Journal, ids: set<string>, randomness: nat): Journal {
    map id | id in j ::
      if id in ids && j[id].phase.ReceiptBlocked?
      then
        var result := j[id].phase.result;
        j[id].(phase := Terminal(result, Body(j[id].command, result, randomness), Undelivered))
      else j[id]
  }

  /** A calm drain has dealt with the pending receipts `done` of `w`, and changed nothing else. */
  ghost predicate DrainedSo(w: World, w': World, done: set<string>) {
    && w'.now == w.now && w'.stopped == w.stopped
    && w'.journal == Acknowledge(w.journal, done)
    && (forall id :: id in done && id in w.journal && Pending(w.journal[id]) ==>
        w.journal[id].phase.body in w'.submissions)
  }

  ghost function Firsts(ids: seq<string>, count: nat): set<string>
    requires count <= |ids|
  {
    set id | id in ids[..count]
  }

  lemma FirstsGrow(ids: seq<string>, count: nat, all: set<string>)
    requires count < |ids| && Lists(ids, all)
    ensures ids[count] in all && ids[count] !in Firsts(ids, count)
    ensures Firsts(ids, count + 1) == Firsts(ids, count) + {ids[count]}
  {
    assert ids[..count + 1] == ids[..count] + [ids[count]];
  }

  lemma FirstsAll(ids: seq<string>, all: set<string>)
    requires Lists(ids, all)
    ensures Firsts(ids, |ids|) == all
  {
    assert ids[..|ids|] == ids;
  }

  predicate ListedIn(w: World, pending: Journal, id: string) {
    && id in pending && pending[id].phase.Terminal?
    && pending[id].phase.body in w.listed && pending[id].phase.body.command.id == id
  }

  lemma StillPending(w: World, mid: World, done: set<string>, id: string)
    requires DrainedSo(w, mid, done) && id in w.journal && Pending(w.journal[id]) && id !in done
    ensures id in mid.journal && Pending(mid.journal[id])
  {
    assert mid.journal[id] == w.journal[id];
  }

  lemma DrainedMore(w: World, mid: World, w': World, done: set<string>, id: string)
    requires DrainedSo(w, mid, done) && id in w.journal && Pending(w.journal[id]) && id !in done
    requires id in mid.journal && Pending(mid.journal[id]) ==>
               w' == mid.(journal := Acknowledge(mid.journal, {id}),
                          submissions := mid.submissions + [w.journal[id].phase.body])
    ensures DrainedSo(w, w', done + {id})
  {
    assert mid.journal[id] == w.journal[id];
  }

  lemma BesideTrans(a: World, b: World, c: World)
    requires Beside(a, b) && Beside(b, c)
    ensures Beside(a, c)
  {
  }

  /** The ids of a set in some order, each once. */
  ghost predicate Lists(ids: seq<string>, all: set<string>) {
    && |ids| == |all| && (forall id :: id in ids <==> id in all)
    && (forall i, k :: 0 <= i < k < |ids| ==> ids[i] != ids[k])
  }

  method Listing(all: set<string>) returns (ids: seq<string>)
    ensures Lists(ids, all)
  {
    ids := [];
    var todo := all;
    while todo != {}
      invariant todo <= all && Lists(ids, all - todo)
    {
      var id :| id in todo;
      assert all - (todo - {id}) == (all - todo) + {id};
      ids, todo := ids + [id], todo - {id};
    }
    assert all - todo == all;
  }

  /** `part` is `whole` with some elements left out. */
  predicate Subsequence(part: seq<Command>, whole: seq<Command>) {
    part == []
    || (whole != [] && (Subsequence(part, whole[..|whole| - 1])
                        || (part[|part| - 1] == whole[|whole| - 1]
                            && Subsequence(part[..|part| - 1], whole[..|whole| - 1]))))
  }

  lemma SubsequenceNext(part: seq<Command>, whole: seq<Command>, next: Command)
    requires Subsequence(part, whole)
    ensures Subsequence(part, whole + [next]) && Subsequence(part + [next], whole + [next])
  {
    assert (whole + [next])[..|whole|] == whole;
    assert (part + [next])[..|part|] == part;
  }

  lemma {:induction false} SubsequenceOfMore(part: seq<Command>, pulled: seq<(Command, string)>, n: nat)
    requires n <= |pulled| && Subsequence(part, Asked(pulled[..n]))
    ensures Subsequence(part, Asked(pulled))
    decreases |pulled| - n
  {
    if n == |pulled| {
      assert pulled[..n] == pulled;
    } else {
      assert Asked(pulled[..n + 1]) == Asked(pulled[..n]) + [pulled[n].0];
      SubsequenceNext(part, Asked(pulled[..n]), pulled[n].0);
      SubsequenceOfMore(part, pulled, n + 1);
    }
  }

  function Commands(handled: seq<(Command, Result)>): seq<Command> {
    seq(|handled|, i requires 0 <= i < |handled| => handled[i].0)
  }

  function Asked(pulled: seq<(Command, string)>): seq<Command> {
    seq(|pulled|, i requires 0 <= i < |pulled| => pulled[i].0)
  }

  lemma UnblockMore(j: Journal, done: set<string>, id: string)
    requires id in j && id !in done
    ensures Unblock(j, done, 0)[id] == j[id]
    ensures Unblock(Unblock(j, done, 0), {id}, 0) == Unblock(j, done + {id}, 0)
  {
  }

  /** Nothing remains to be done for the execution. */
  predicate Settled(phase: Phase) {
    phase.OutcomeUnknown? || (phase.Terminal? && !phase.delivery.Undelivered?)
  }

  /** The receipt of every execution that had a result to tell has been submitted. */
  ghost predicate Answered(j: Journal, w: World) {
    forall id :: id in j ==>
      (Pending(j[id]) ==> j[id].phase.body in w.submissions)
      && (j[id].phase.ReceiptBlocked? ==> Body(j[id].command, j[id].phase.result, 0) in w.submissions)
  }

  /** Recovering orphans, rebuilding blocked receipts and draining leaves only settled executions. */
  lemma CalmStartup(w0: World, w1: World, w2: World, w3: World)
    requires w1.journal == CommandJournal.RecoverOrphans(w0.journal)
    requires w2.journal == Unblock(w1.journal, BlockedIds(w1.journal), 0)
    requires DrainedSo(w2, w3, PendingIds(w2.journal))
    ensures forall id :: id in w3.journal ==> Settled(w3.journal[id].phase)
    ensures Answered(w0.journal, w3)
  {
    forall id | id in w0.journal
      ensures Pending(w0.journal[id]) ==> w0.journal[id].phase.body in w3.submissions
      ensures w0.journal[id].phase.ReceiptBlocked? ==>
          Body(w0.journal[id].command, w0.journal[id].phase.result, 0) in w3.submissions
    {
      assert Pending(w2.journal[id]) ==> id in PendingIds(w2.journal);
      assert w0.journal[id].phase.ReceiptBlocked? ==> id in BlockedIds(w1.journal);
    }
    forall id | id in w3.journal ensures Settled(w3.journal[id].phase) {
      assert Pending(w2.journal[id]) ==> id in PendingIds(w2.journal);
      assert w1.journal[id].phase.ReceiptBlocked? ==> id in BlockedIds(w1.journal);
    }
  }

  /** Since `w0`, the commands `released` among the first `n` pulled ones have been released, in pull order. */
  ghost predicate InPullOrder(w0: World, w: World, pulled: seq<(Command, string)>, n: nat, released: seq<Command>)
    requires n <= |pulled|
  {
    Subsequence(released, Asked(pulled[..n])) && w.releases == w0.releases + released
  }

  ghost function ReleasedAfter(w: World, w': World, c: Command, released: seq<Command>): seq<Command> {
    if w'.releases == w.releases + [c] then released + [c] else released
  }

  lemma InPullOrderNext(w0: World, w: World, w': World, pulled: seq<(Command, string)>, n: nat, released: seq<Command>)
    requires n < |pulled| && InPullOrder(w0, w, pulled, n, released)
    requires w'.releases == w.releases || w'.releases == w.releases + [pulled[n].0]
    ensures InPullOrder(w0, w', pulled, n + 1, ReleasedAfter(w, w', pulled[n].0, released))
  {
    var c := pulled[n].0;
    assert Asked(pulled[..n + 1]) == Asked(pulled[..n]) + [c];
    SubsequenceNext(released, Asked(pulled[..n]), c);
    if w'.releases == w.releases + [c] { assert w'.releases == w0.releases + (released + [c]); }
  }

  /** Exactly the handled commands were released, and the receipt of each is submitted. */
  ghost predicate AllAnswered(w: World, released: seq<Command>, handled: seq<(Command, Result)>) {
    released == Commands(handled)
    && forall k :: 0 <= k < |handled| ==> Body(handled[k].0, handled[k].1, 0) in w.submissions
  }

  lemma AllAnsweredNext(w: World, w': World, released: seq<Command>, handled: seq<(Command, Result)>, c: Command,
                        step: PassStep)
    requires AllAnswered(w, released, handled) && w.submissions <= w'.submissions
    requires step.Handled? ==> w'.releases == w.releases + [c] && Body(c, step.result, 0) in w'.submissions
    requires !step.Handled? ==> w'.releases == w.releases
    ensures AllAnswered(w', ReleasedAfter(w, w', c, released),
                        if step.Handled? then handled + [(c, step.result)] else handled)
  {
    if step.Handled? {
      assert Commands(handled + [(c, step.result)]) == Commands(handled) + [c];
    } else {
      assert |w'.releases| != |w.releases + [c]|;
    }
  }

  // ----- What becomes of a redelivery

  /** The commands that a journal knows, each under its id with the pin it was prepared with. */
  type Ledger = map<string, (Command, string)>

  function LedgerOf(j: Journal): Ledger { map id | id in j :: (j[id].command, j[id].pin) }

  /** Those that are still known after pruning at `now`. */
  function KeptLedger(j: Journal, now: Time): Ledger {
    map id | id in j && RetainedThrough(j[id]) >= now :: (j[id].command, j[id].pin)
  }

  datatype Fate = Ignored | Rejected | Taken

  /**
   An expired command, and one that is known with the same pin, is ignored.  One under a known id with another body
   or pin, or with a nonce that its Watch has used in a known command, is rejected.  Any other is taken.
   */
  ghost function FateOf(l: Ledger, now: Time, c: Command, pin: string): Fate {
    if c.expiresAt <= now then Ignored
    else if c.id in l then (if l[c.id] == (c, pin) then Ignored else Fate.Rejected)
    else if exists id :: id in l && l[id].0.watchId == c.watchId && l[id].0.nonce == c.nonce then Fate.Rejected
    else Taken
  }

  /**
   What a pass takes of what it pulled, in order, and whether it stopped at a rejected command: it knows `l` at first,
   and once it has taken a command it has pruned what it knows to `kept` and the commands taken.
   */
  ghost function Pass(l: Ledger, kept: Ledger, now: Time, pulled: seq<(Command, string)>): (seq<Command>, bool)
    decreases |pulled|
  {
    if pulled == [] then ([], false)
    else
      var (c, pin) := pulled[0];
      match FateOf(l, now, c, pin)
      case Ignored => Pass(l, kept, now, pulled[1..])
      case Rejected => ([], true)
      case Taken =>
        var next := kept[c.id := (c, pin)];
        var rest := Pass(next, next, now, pulled[1..]);
        ([c] + rest.0, rest.1)
  }

  lemma LedgerFate(j: Journal, now: Time, c: Command, pin: string)
    requires now < c.expiresAt
    ensures Claim(j, c, pin).1 == match FateOf(LedgerOf(j), now, c, pin)
                                  case Ignored => Duplicate
                                  case Rejected => Conflict
                                  case Taken => NewClaim
  {
    var l := LedgerOf(j);
    assert forall id :: id in j <==> id in l;
    assert forall id :: id in j ==> l[id] == (j[id].command, j[id].pin);
  }

  lemma PrunedLedger(j: Journal, now: Time)
    ensures LedgerOf(Prune(j, now)) == KeptLedger(j, now) && KeptLedger(Prune(j, now), now) == KeptLedger(j, now)
  {
  }

  /** Acknowledging receipts keeps what is known, and for how long. */
  lemma AcknowledgedLedger(j: Journal, ids: set<string>, now: Time)
    ensures KeptLedger(Acknowledge(j, ids), now) == KeptLedger(j, now)
  {
    var k := Acknowledge(j, ids);
    assert forall id :: id in j ==> id in k && RetainedThrough(k[id]) == RetainedThrough(j[id]);
  }

  /** A new claim is known, and what else is kept stays so, as does its own start of dispatch. */
  lemma ClaimedLedger(j: Journal, c: Command, pin: string, now: Time)
    requires Claim(j, c, pin).1.NewClaim? && now < c.expiresAt
    ensures var claimed := Claim(j, c, pin).0;
            && claimed == j[c.id := Execution(c, pin, Claimed)]
            && KeptLedger(SetPhase(claimed, c.id, DispatchStarted), now)[c.id := (c, pin)]
               == KeptLedger(j, now)[c.id := (c, pin)]
  {
  }

  /** What is known once a command was taken and answered with a result that is retained. */
  lemma AnsweredLedger(j: Journal, c: Command, pin: string, phase: Phase, now: Time)
    requires c.id in j && j[c.id].command == c && j[c.id].pin == pin
    requires RetainedThrough(j[c.id].(phase := phase)) >= now
    ensures KeptLedger(SetPhase(j, c.id, phase), now) == KeptLedger(j, now)[c.id := (c, pin)]
  {
  }

  /** A pass that comes to `whole` has taken `taken`, with the commands of `rest` to come. */
  ghost predicate Continues(whole: (seq<Command>, bool), l: Ledger, kept: Ledger, now: Time,
                            rest: seq<(Command, string)>, taken: seq<Command>)
  {
    whole == (taken + Pass(l, kept, now, rest).0, Pass(l, kept, now, rest).1)
  }

  lemma PassStarts(l: Ledger, kept: Ledger, now: Time, pulled: seq<(Command, string)>)
    ensures Continues(Pass(l, kept, now, pulled), l, kept, now, pulled, [])
  {
    assert [] + Pass(l, kept, now, pulled).0 == Pass(l, kept, now, pulled).0;
  }

  lemma PassContinues(whole: (seq<Command>, bool), l: Ledger, kept: Ledger, now: Time,
                      rest: seq<(Command, string)>, taken: seq<Command>)
    requires rest != [] && Continues(whole, l, kept, now, rest, taken)
    ensures var (c, pin) := rest[0];
            match FateOf(l, now, c, pin)
            case Ignored => Continues(whole, l, kept, now, rest[1..], taken)
            case Rejected => whole == (taken, true)
            case Taken => var next := kept[c.id := (c, pin)]; Continues(whole, next, next, now, rest[1..], taken + [c])
  {
    var (c, pin) := rest[0];
    if FateOf(l, now, c, pin).Taken? {
      var next := kept[c.id := (c, pin)];
      var more := Pass(next, next, now, rest[1..]).0;
      assert taken + ([c] + more) == (taken + [c]) + more;
    } else if FateOf(l, now, c, pin).Rejected? {
      assert taken + [] == taken;
    }
  }

  lemma PassEnds(whole: (seq<Command>, bool), l: Ledger, kept: Ledger, now: Time, taken: seq<Command>)
    requires Continues(whole, l, kept, now, [], taken)
    ensures whole == (taken, false)
  {
    assert taken + [] == taken;
  }

  /** The pass has handled what it should so far. */
  ghost predicate OnCourse(whole: (seq<Command>, bool), w: World, rest: seq<(Command, string)>,
                           handled: seq<(Command, Result)>)
  {
    Continues(whole, LedgerOf(w.journal), KeptLedger(w.journal, w.now), w.now, rest, Commands(handled))
  }

  /** What becomes of one pulled command when nothing interferes. */
  ghost predicate HandledSo(w: World, w': World, c: Command, pin: string, step: PassStep) {
    && !w'.stopped && w'.now == w.now && w.submissions <= w'.submissions
    && match FateOf(LedgerOf(w.journal), w.now, c, pin)
       case Ignored => step.Skip? && w' == w
       case Rejected => step.Thrown? && w' == w
       case Taken =>
         && step.Handled? && w'.releases == w.releases + [c] && Body(c, step.result, 0) in w'.submissions
         && KeptLedger(w'.journal, w'.now) == LedgerOf(w'.journal) == KeptLedger(w.journal, w.now)[c.id := (c, pin)]
  }

  lemma OnCourseNext(whole: (seq<Command>, bool), w: World, w': World, rest: seq<(Command, string)>,
                     handled: seq<(Command, Result)>, step: PassStep)
    requires rest != [] && OnCourse(whole, w, rest, handled) && HandledSo(w, w', rest[0].0, rest[0].1, step)
    ensures step.Thrown? ==> whole == (Commands(handled), true)
    ensures step.Skip? ==> OnCourse(whole, w', rest[1..], handled)
    ensures step.Handled? ==> OnCourse(whole, w', rest[1..], handled + [(rest[0].0, step.result)])
  {
    PassContinues(whole, LedgerOf(w.journal), KeptLedger(w.journal, w.now), w.now, rest, Commands(handled));
    if step.Handled? {
      assert Commands(handled + [(rest[0].0, step.result)]) == Commands(handled) + [rest[0].0];
    }
  }

  /** A pass in which nothing has interfered: `i` commands in, on course and with every taken command answered. */
  ghost predicate CalmPass(whole: (seq<Command>, bool), w0: World, w: World, pulled: seq<(Command, string)>, i: nat,
                           released: seq<Command>, handled: seq<(Command, Result)>)
    requires i <= |pulled|
  {
    && !w.stopped && w.now == w0.now && AllAnswered(w, released, handled) && OnCourse(whole, w, pulled[i..], handled)
  }

  lemma CalmPassNext(whole: (seq<Command>, bool), w0: World, w: World, w': World,
                     pulled: seq<(Command, string)>, i: nat,
                     released: seq<Command>, handled: seq<(Command, Result)>, step: PassStep)
    requires i < |pulled| && CalmPass(whole, w0, w, pulled, i, released, handled)
    requires HandledSo(w, w', pulled[i].0, pulled[i].1, step)
    ensures AllAnswered(w', ReleasedAfter(w, w', pulled[i].0, released),
                        if step.Handled? then handled + [(pulled[i].0, step.result)] else handled)
    ensures if step.Thrown? then whole == (Commands(handled), true)
            else CalmPass(whole, w0, w', pulled, i + 1, ReleasedAfter(w, w', pulled[i].0, released),
                          if step.Handled? then handled + [(pulled[i].0, step.result)] else handled)
  {
    assert pulled[i..][0] == pulled[i] && pulled[i..][1..] == pulled[i + 1..];
    AllAnsweredNext(w, w', released, handled, pulled[i].0, step);
    OnCourseNext(whole, w, w', pulled[i..], handled, step);
  }

  lemma CalmPassEnds(whole: (seq<Command>, bool), w0: World, w: World, pulled: seq<(Command, string)>,
                     released: seq<Command>, handled: seq<(Command, Result)>)
    requires CalmPass(whole, w0, w, pulled, |pulled|, released, handled)
    ensures whole == (Commands(handled), false)
  {
    assert pulled[|pulled|..] == [];
    PassEnds(whole, LedgerOf(w.journal), KeptLedger(w.journal, w.now), w.now, Commands(handled));
  }

  /** What a pass over what was pulled comes to in a world. */
  ghost function PassIn(w: World, pulled: seq<(Command, string)>): (seq<Command>, bool) {
    Pass(LedgerOf(w.journal), KeptLedger(w.journal, w.now), w.now, pulled)
  }

  lemma CalmPassStarts(w: World, pulled: seq<(Command, string)>)
    requires !w.stopped
    ensures CalmPass(PassIn(w, pulled), w, w, pulled, 0, [], [])
  {
    assert pulled[0..] == pulled && Commands([]) == [];
    PassStarts(LedgerOf(w.journal), KeptLedger(w.journal, w.now), w.now, pulled);
  }

  /** The same, once the receipts are drained and the journal pruned. */
  lemma RecordedLedger(j: Journal, written: Journal, c: Command, result: Result, now: Time)
    requires c.id in j && j[c.id].command == c && result.updatedAt + RECEIPT_RETENTION >= now
    requires written == SetPhase(j, c.id, Terminal(result, Body(c, result, 0), Undelivered))
    ensures var end := Prune(Acknowledge(written, PendingIds(written)), now);
            KeptLedger(end, now) == LedgerOf(end) == KeptLedger(j, now)[c.id := (c, j[c.id].pin)]
  {
    AnsweredLedger(j, c, j[c.id].pin, Terminal(result, Body(c, result, 0), Undelivered), now);
    AcknowledgedLedger(written, PendingIds(written), now);
    PrunedLedger(Acknowledge(written, PendingIds(written)), now);
  }

  class CommandDaemon {
    var world: World
    /** The outside world's choices, one per await; once it runs out everything is calm. */
    var script: seq<Tick>

    method Await() returns (tick: Tick)
      requires Reachable(world)
      modifies this
      ensures Reachable(world) && Beside(old(world), world)
      ensures if old(script) == [] then script == [] && world == old(world) && tick == Calm(world.now)
              else script == old(script)[1..] && tick == old(script)[0]
      ensures Alone(old(script)) ==> world == old(world)
    {
      tick := Calm(world.now);
      if script != [] {
        tick := script[0];
        script := script[1..];
        var i := 0;
        while i < |tick.others|
          invariant 0 <= i <= |tick.others|
          invariant Reachable(world) && Beside(old(world), world) && script == old(script)[1..]
          invariant i == 0 ==> world == old(world)
        {
          if Aside(tick.others[i]) {
            AsideIsBeside(world, tick.others[i]);
            ReachableNext(world, tick.others[i]);
            world := Next(world, tick.others[i]);
          }
          i := i + 1;
        }
      }
    }

    /** submitCommandReceipt of a body that was read from the journal. */
    method SubmitBody(body: Body)
      requires Reachable(world) && body in world.listed
      modifies this`world
      ensures Reachable(world) && Beside(old(world), world)
      ensures world == old(world).(submissions := old(world).submissions + [body])
    {
      AsideIsBeside(world, Submit(body));
      ReachableNext(world, Submit(body));
      world := Next(world, Submit(body));
    }

    /** markCommandReceiptOutbox; false where it throws. */
    method MarkOutboxOf(id: string, delivery: Delivery) returns (ok: bool)
      requires Reachable(world) && (delivery.Acknowledged? ==> SubmittedFor(world, id))
      modifies this`world
      ensures Reachable(world) && Beside(old(world), world)
      ensures ok == (id in old(world).journal && Pending(old(world).journal[id]))
      ensures world == old(world).(journal := world.journal)
      ensures world.journal
              == if ok then SetPhase(old(world).journal, id, old(world).journal[id].phase.(delivery := delivery))
                 else old(world).journal
    {
      ok := MarkOutbox(world.journal, id, delivery).Some?;
      AsideIsBeside(world, MarkReceipt(id, delivery));
      ReachableNext(world, MarkReceipt(id, delivery));
      world := Next(world, MarkReceipt(id, delivery));
    }

    /** One pending receipt: submitted as stored, then acknowledged, unless its pin is revoked or unavailable. */
    method DrainOne(id: string, body: Body) returns (step: DrainStep)
      requires Reachable(world) && body in world.listed && body.command.id == id
      modifies this
      ensures Reachable(world) && Beside(old(world), world)
      ensures old(script) == [] ==> script == []
      ensures Alone(old(script)) && id in old(world).journal && Pending(old(world).journal[id]) ==>
        var tick, j := NextTick(old(script), old(world).now), old(world).journal;
        match tick.pin
        case Unavailable => step.Skipped? && world == old(world)
        case Revoked =>
          step.Drained? && world == old(world).(journal := SetPhase(j, id, j[id].phase.(delivery := Undeliverable)))
        case Deliverable =>
          if tick.io.Works?
          then step.Drained? && world == old(world).(journal := Acknowledge(j, {id}), submissions := world.submissions)
               && world.submissions == old(world).submissions + [body]
          else step.Skipped? && world == old(world).(submissions := world.submissions)
               && world.submissions == old(world).submissions + if tick.io.FailsAfterEffect? then [body] else []
    {
      var tick := Await();
      if tick.pin.Unavailable? { return Skipped; }
      if tick.pin.Revoked? {
        var ok := MarkOutboxOf(id, Undeliverable);
        return if ok then Drained else Threw;
      }
      if tick.io.Works? {
        step := Deliver(id, body);
      } else {
        if tick.io.FailsAfterEffect? { SubmitBody(body); }
        step := Skipped;
      }
    }

    /** A submission that succeeds, and its acknowledgement. */
    method Deliver(id: string, body: Body) returns (step: DrainStep)
      requires Reachable(world) && body in world.listed && body.command.id == id
      modifies this`world
      ensures Reachable(world) && Beside(old(world), world)
      ensures id in old(world).journal && Pending(old(world).journal[id]) ==>
        step.Drained?
        && world == old(world).(journal := Acknowledge(old(world).journal, {id}),
                                submissions := old(world).submissions + [body])
    {
      SubmitBody(body);
      assert body in world.submissions;
      var ok := MarkOutboxOf(id, Acknowledged);
      step := if ok then Drained else Threw;
    }

    /** The pending receipts, as listCommandExecutions shows them before the drain begins. */
    method ListPendingReceipts() returns (ids: seq<string>, pending: Journal)
      requires Reachable(world)
      modifies this`world
      ensures Reachable(world) && Beside(old(world), world)
      ensures world == old(world).(listed := world.listed)
      ensures pending == world.journal && Lists(ids, PendingIds(world.journal))
      ensures forall i :: 0 <= i < |ids| ==> ListedIn(world, pending, ids[i])
    {
      ids := Listing(PendingIds(world.journal));
      pending := world.journal;
      forall i | 0 <= i < |ids|
        ensures ids[i] in PendingIds(pending) && pending[ids[i]].phase.body.command.id == ids[i]
      {
        assert ids[i] in PendingIds(pending);
        ReachableEntry(world, ids[i]);
      }
      AsideIsBeside(world, ListPending);
      ReachableNext(world, ListPending);
      world := Next(world, ListPending);
    }

    /** The next receipt of a drain that began in `w` and has dealt with `done`. */
    method DrainNext(ghost w: World, pending: Journal, ghost done: set<string>, id: string) returns (step: DrainStep)
      requires Reachable(world) && Beside(w, world) && ListedIn(world, pending, id)
      modifies this
      ensures Reachable(world) && Beside(w, world) && old(world).listed <= world.listed
      ensures old(script) == [] && DrainedSo(w, old(world), done) && id !in done && id in w.journal
              && Pending(w.journal[id]) && pending[id] == w.journal[id] ==>
                script == [] && step.Drained? && DrainedSo(w, world, done + {id})
    {
      if DrainedSo(w, world, done) && id !in done && id in w.journal && Pending(w.journal[id]) {
        StillPending(w, world, done, id);
      }
      step := DrainOne(id, pending[id].phase.body);
      BesideTrans(w, old(world), world);
      if script == [] && DrainedSo(w, old(world), done) && id !in done && id in w.journal && Pending(w.journal[id])
         && pending[id] == w.journal[id] && old(script) == [] {
        DrainedMore(w, old(world), world, done, id);
      }
    }

    /** drainPendingCommandReceipts: submits each pending body as stored, then acknowledges it. */
    method Drain() returns (drained: nat, threw: bool)
      requires Reachable(world)
      modifies this
      ensures Reachable(world) && Beside(old(world), world) && drained <= |PendingIds(old(world).journal)|
      ensures old(script) == [] ==>
        script == [] && !threw && drained == |PendingIds(old(world).journal)|
        && DrainedSo(old(world), world, PendingIds(old(world).journal))
    {
      var ids, pending := ListPendingReceipts();
      drained, threw := 0, false;
      for i := 0 to |ids|
        invariant drained <= i
        invariant forall k :: 0 <= k < |ids| ==> ListedIn(world, pending, ids[k])
        invariant Reachable(world) && Beside(old(world), world)
        invariant old(script) == [] ==> script == [] && drained == i && DrainedSo(old(world), world, Firsts(ids, i))
      {
        FirstsGrow(ids, i, PendingIds(old(world).journal));
        var step := DrainNext(old(world), pending, Firsts(ids, i), ids[i]);
        if step.Threw? { return drained, true; }
        if step.Drained? { drained := drained + 1; }
      }
      FirstsAll(ids, PendingIds(old(world).journal));
    }

    /** One blocked receipt: built again, and persisted unless the journal moved on meanwhile. */
    method RecoverOne(ghost w: World, id: string, blocked: Execution) returns (step: DrainStep)
      requires Reachable(world) && Beside(w, world) && id in w.journal && w.journal[id] == blocked
          && blocked.phase.ReceiptBlocked?
      modifies this
      ensures Reachable(world) && Beside(w, world)
      ensures old(script) == [] && blocked.command.id == id
              && id in old(world).journal && old(world).journal[id] == blocked ==>
        script == [] && step.Drained? && world == old(world).(journal := Unblock(old(world).journal, {id}, 0))
    {
      var tick := Await();
      BesideTrans(w, old(world), world);
      if !tick.io.Works? { return Skipped; }
      ghost var mid := world;
      var ok := PersistRecovered(id, blocked, tick.randomness);
      BesideTrans(w, mid, world);
      step := if ok then Drained else Threw;
    }

    /** persistTerminalCommandReceipt for a blocked receipt; false where it throws. */
    method PersistRecovered(id: string, blocked: Execution, randomness: nat) returns (ok: bool)
      requires Reachable(world) && blocked.phase.ReceiptBlocked?
      requires id in world.journal && Active(world.journal[id].phase) ==> world.journal[id] == blocked
      modifies this`world
      ensures Reachable(world) && Beside(old(world), world)
      ensures ok == (id in old(world).journal && old(world).journal[id].phase == blocked.phase
                     && old(world).journal[id].command == blocked.command)
      ensures world == if ok then old(world).(journal := Unblock(old(world).journal, {id}, randomness)) else old(world)
    {
      var result := blocked.phase.result;
      ok := PersistTerminal(world.journal, id, result, Body(blocked.command, result, randomness)).Some?;
      if ok {
        AsideIsBeside(world, RecoverBlocked(id, randomness));
        ReachableNext(world, RecoverBlocked(id, randomness));
        world := Next(world, RecoverBlocked(id, randomness));
      }
    }

    /** recoverBlockedCommandReceipts. */
    method RecoverBlockedReceipts() returns (recovered: nat, threw: bool)
      requires Reachable(world)
      modifies this
      ensures Reachable(world) && Beside(old(world), world) && recovered <= |BlockedIds(old(world).journal)|
      ensures old(script) == [] ==>
        script == [] && !threw && recovered == |BlockedIds(old(world).journal)|
        && world == old(world).(journal := Unblock(old(world).journal, BlockedIds(old(world).journal), 0))
    {
      var ids := Listing(BlockedIds(world.journal));
      var blocked := world.journal;
      ghost var done := {};
      recovered, threw := 0, false;
      assert world.journal == Unblock(world.journal, done, 0);
      for i := 0 to |ids|
        invariant recovered <= i && forall id :: id in done <==> id in ids[..i]
        invariant Reachable(world) && Beside(old(world), world)
        invariant old(script) == [] ==>
                    script == [] && recovered == i && world == old(world).(journal := Unblock(blocked, done, 0))
      {
        assert ids[i] in BlockedIds(blocked);
        assert ids[i] !in ids[..i] && ids[..i + 1] == ids[..i] + [ids[i]];
        assert blocked[ids[i]].command.id == ids[i] by { ReachableEntry(old(world), ids[i]); }
        ghost var mid := world;
        var step := RecoverOne(old(world), ids[i], blocked[ids[i]]);
        if old(script) == [] { UnblockMore(blocked, done, ids[i]); }
        done := done + {ids[i]};
        if step.Threw? { return recovered, true; }
        if step.Drained? { recovered := recovered + 1; }
      }
      assert ids[..|ids|] == ids && done == BlockedIds(blocked);
    }

    method RecoverOrphans()
      requires Reachable(world)
      modifies this`world
      ensures Reachable(world) && Beside(old(world), world)
      ensures world == old(world).(journal := CommandJournal.RecoverOrphans(old(world).journal))
    {
      AsideIsBeside(world, RecoverOrphaned);
      ReachableNext(world, RecoverOrphaned);
      world := Next(world, RecoverOrphaned);
    }

    method Prune()
      requires Reachable(world)
      modifies this`world
      ensures Reachable(world) && Beside(old(world), world)
      ensures world == old(world).(journal := CommandJournal.Prune(old(world).journal, old(world).now))
    {
      AsideIsBeside(world, PruneJournal);
      ReachableNext(world, PruneJournal);
      world := Next(world, PruneJournal);
    }

    /** recoverStartupCommandPipeline; false where it throws. */
    method RecoverStartup() returns (ok: bool)
      requires Reachable(world)
      modifies this
      ensures Reachable(world) && Beside(old(world), world)
      ensures old(script) == [] ==> ok && forall id :: id in world.journal ==> Settled(world.journal[id].phase)
      ensures old(script) == [] ==> Answered(old(world).journal, world)
    {
      var tick := Await();
      if !tick.io.Works? { return false; }
      ghost var w0 := world;
      RecoverOrphans();
      ghost var w1 := world;
      BesideTrans(w0, w1, w1);
      var recovered, threw := RecoverBlockedReceipts();
      ghost var w2 := world;
      BesideTrans(old(world), w0, w1);
      BesideTrans(old(world), w1, w2);
      if threw { return false; }
      var drained;
      drained, threw := Drain();
      ghost var w3 := world;
      BesideTrans(old(world), w2, w3);
      if threw { return false; }
      Prune();
      BesideTrans(old(world), w3, world);
      ok := true;
      if old(script) == [] { CalmStartup(w0, w1, w2, w3); }
    }

    // ----- One command of the pass

    method ClaimCommand(c: Command, pin: string) returns (status: ClaimStatus)
      requires Reachable(world) && world.flight.NoCommand? && world.now < c.expiresAt
      modifies this`world
      ensures Reachable(world) && (world.journal, status) == Claim(old(world).journal, c, pin)
      ensures world
          == old(world).(journal := world.journal, flight := if status.NewClaim? then AtRouter(c) else NoCommand)
    {
      status := Claim(world.journal, c, pin).1;
      ReachableNext(world, Event.Deliver(c, pin));
      world := Next(world, Event.Deliver(c, pin));
    }

    /** beforeDispatch: the dispatch record is durable before anything is released; false where it throws. */
    method StartDispatch(c: Command) returns (ok: bool)
      requires Reachable(world) && world.flight == AtRouter(c)
      modifies this`world
      ensures Reachable(world) && ok == (c.id in old(world).journal && old(world).journal[c.id].phase.Claimed?)
      ensures world
              == if ok then old(world).(journal := SetPhase(old(world).journal, c.id, DispatchStarted),
                                        flight := Dispatched(c),
                                        started := old(world).started + [c])
                 else old(world)
    {
      ok := MarkDispatchStarted(world.journal, c.id).Some?;
      if ok {
        ReachableNext(world, BeforeDispatch);
        world := Next(world, BeforeDispatch);
      }
    }

    method ReleaseCommand(c: Command)
      requires Reachable(world) && world.flight == Dispatched(c)
      modifies this`world
      ensures Reachable(world) && world == old(world).(flight := Released(c), releases := old(world).releases + [c])
    {
      ReachableNext(world, Release);
      world := Next(world, Release);
    }

    method TakeResult(c: Command, result: Result, refused: bool)
      requires Reachable(world) && world.flight == (if refused then AtRouter(c) else Released(c))
      requires refused ==> result.status.Expired? || result.status.Rejected?
      modifies this`world
      ensures Reachable(world) && world == old(world).(flight := Finished(c, result))
    {
      var e := if refused then RouterRefuses(result) else DriverReturns(result);
      ReachableNext(world, e);
      world := Next(world, e);
    }

    /** CommandRouter.handle: None where it throws, with the pass still at the point that was reached. */
    method Handle(c: Command) returns (outcome: Option<Result>)
      requires Reachable(world) && world.flight == AtRouter(c)
      modifies this
      ensures Reachable(world) && (world.releases == old(world).releases || world.releases == old(world).releases + [c])
      ensures if outcome.Some? then world.flight == Finished(c, outcome.value)
              else world.flight in {AtRouter(c), Dispatched(c), Released(c)}
      ensures world.flight.AtRouter? || (outcome.Some? && world.started == old(world).started) ==>
        world.started == old(world).started && world.releases == old(world).releases
      ensures world.flight.Dispatched? || world.flight.Released?
              || (outcome.Some? && world.started != old(world).started) ==>
        world.started == old(world).started + [c]
        && (world.releases == old(world).releases <==> world.flight.Dispatched?)
      ensures outcome.Some? && world.started == old(world).started ==>
        outcome.value.status.Expired? || outcome.value.status.Rejected?
      ensures Alone(old(script)) ==>
        var tick := NextTick(old(script), old(world).now);
        if tick.refusal.Some? && (tick.refusal.value.status.Expired? || tick.refusal.value.status.Rejected?)
        then outcome == tick.refusal && world == old(world).(flight := Finished(c, tick.refusal.value))
        else !tick.io.Works? ==> outcome.None? && world == old(world)
      ensures old(script) == [] && c.id in old(world).journal && old(world).journal[c.id].phase.Claimed? ==>
        script == [] && outcome == Some(Result(Executed, old(world).now))
        && world == old(world).(journal := SetPhase(old(world).journal, c.id, DispatchStarted), flight := world.flight,
                                started := world.started, releases := old(world).releases + [c])
    {
      outcome := None;
      var tick := Await();
      if tick.refusal.Some? && (tick.refusal.value.status.Expired? || tick.refusal.value.status.Rejected?) {
        TakeResult(c, tick.refusal.value, true);
        return tick.refusal;
      }
      if !tick.io.Works? { return; }
      var ok := StartDispatch(c);
      if !ok { return; }
      tick := Await();
      if tick.io.Fails? { return; }
      ReleaseCommand(c);
      if !tick.io.Works? { return; }
      tick := Await();
      if !tick.io.Works? { return; }
      TakeResult(c, tick.result, false);
      outcome := Some(tick.result);
    }

    /** markOutcomeUnknownIfActive after the router threw. */
    method GiveUpOn(c: Command)
      requires Reachable(world) && world.flight in {AtRouter(c), Dispatched(c), Released(c)}
      modifies this`world
      ensures Reachable(world) && world == GiveUp(old(world), c.id)
    {
      ReachableNext(world, RouterThrows);
      world := Next(world, RouterThrows);
    }

    /** The result is dropped: the daemon is stopping. */
    method DropResult(c: Command, result: Result)
      requires Reachable(world) && world.flight == Finished(c, result) && world.stopped
      modifies this`world
      ensures Reachable(world) && world == old(world).(flight := NoCommand)
    {
      ReachableNext(world, AfterResult(true));
      world := Next(world, AfterResult(true));
    }

    /** persistTerminalReceiptBlocked without authority; false where it throws. */
    method BlockResult(c: Command, result: Result) returns (ok: bool)
      requires Reachable(world) && world.flight == Finished(c, result)
      requires c.id in world.journal && Active(world.journal[c.id].phase) ==> !world.stopped
      modifies this`world
      ensures Reachable(world) && ok == (c.id in old(world).journal && Active(old(world).journal[c.id].phase))
      ensures world == old(world).(flight := NoCommand, journal := world.journal)
      ensures ok ==> world.journal == SetPhase(old(world).journal, c.id, ReceiptBlocked(result))
    {
      ok := PersistBlocked(world.journal, c.id, result).Some?;
      ReachableNext(world, AfterResult(false));
      world := Next(world, AfterResult(false));
    }

    /** The check at the start of persistTerminalCommandResult; false where it throws. */
    method BeginReceipt(c: Command, result: Result) returns (ok: bool)
      requires Reachable(world) && world.flight == Finished(c, result)
      requires c.id in world.journal && Active(world.journal[c.id].phase) ==> !world.stopped
      modifies this`world
      ensures Reachable(world) && ok == (c.id in old(world).journal && Active(old(world).journal[c.id].phase))
      ensures world == old(world).(flight := if ok then Building(c, result) else NoCommand)
    {
      ok := c.id in world.journal && Active(world.journal[c.id].phase);
      ReachableNext(world, AfterResult(true));
      world := Next(world, AfterResult(true));
    }

    /** Writes the built receipt, or the blocked result where building failed; false where the store throws. */
    method WriteReceipt(c: Command, result: Result, built: Option<nat>) returns (ok: bool)
      requires Reachable(world) && world.flight == Building(c, result)
      modifies this`world
      ensures Reachable(world)
      ensures world == old(world).(flight := NoCommand, journal := world.journal)
      ensures c.id in old(world).journal
              && Active(old(world).journal[c.id].phase) && old(world).journal[c.id].command == c ==>
        ok && world.journal
              == SetPhase(old(world).journal, c.id,
                          if built.Some? then Terminal(result, Body(c, result, built.value), Undelivered)
                          else ReceiptBlocked(result))
    {
      var next := if built.None? then PersistBlocked(world.journal, c.id, result)
                  else PersistTerminal(world.journal, c.id, result, Body(c, result, built.value));
      ok := next.Some?;
      ReachableNext(world, ReceiptBuilt(built));
      world := Next(world, ReceiptBuilt(built));
    }

    /** What follows a result: authority, receipt, drain and prune. */
    method Record(c: Command, result: Result) returns (step: PassStep)
      requires Reachable(world) && world.flight == Finished(c, result) && !world.stopped
      modifies this
      ensures Reachable(world) && world.flight.NoCommand? && world.releases == old(world).releases
      ensures step.Handled? ==> step.result == result
      ensures Alone(old(script)) && !NextTick(old(script), old(world).now).io.Works?
              && c.id in old(world).journal && Active(old(world).journal[c.id].phase) ==>
        step.Handled?
        && world == old(world).(flight := NoCommand,
                                journal := SetPhase(old(world).journal, c.id, ReceiptBlocked(result)))
      ensures old(script) == [] && c.id in old(world).journal
              && old(world).journal[c.id] == Execution(c, old(world).journal[c.id].pin, DispatchStarted) ==>
        script == [] && step.Handled? && Body(c, result, 0) in world.submissions
        && old(world).submissions <= world.submissions && world.now == old(world).now && !world.stopped
        && (result.updatedAt + RECEIPT_RETENTION >= world.now ==>
              KeptLedger(world.journal, world.now) == LedgerOf(world.journal)
              == KeptLedger(old(world).journal, world.now)[c.id := (c, old(world).journal[c.id].pin)])
    {
      var tick := Await();
      if !tick.io.Works? {
        var ok := BlockResult(c, result);
        return if ok then Handled(result) else Thrown;
      }
      var ok := BeginReceipt(c, result);
      if !ok { return Thrown; }
      tick := Await();
      ok := WriteReceipt(c, result, if tick.io.Works? then Some(tick.randomness) else None);
      if !ok { return Thrown; }
      assert old(script) == [] && c.id in old(world).journal && old(world).journal[c.id].command == c
          && old(world).journal[c.id].phase.DispatchStarted?
        ==> c.id in PendingIds(world.journal) && world.journal[c.id].phase.body == Body(c, result, 0);
      ghost var written := world.journal;
      var drained, threw := Drain();
      if threw { return Thrown; }
      Prune();
      if old(script) == [] && c.id in old(world).journal && old(world).journal[c.id].command == c
         && result.updatedAt + RECEIPT_RETENTION >= world.now {
        RecordedLedger(old(world).journal, written, c, result, world.now);
      }
      return Handled(result);
    }

    /** One pulled command: prepare, claim, dispatch, record. */
    method HandleOne(c: Command, pin: string) returns (step: PassStep)
      requires Reachable(world) && world.flight.NoCommand?
      modifies this
      ensures Reachable(world) && world.flight.NoCommand?
      ensures world.releases == old(world).releases || world.releases == old(world).releases + [c]
      ensures old(script) == [] && !old(world).stopped ==>
        script == [] && HandledSo(old(world), world, c, pin, step)
    {
      var tick := Await();
      if !tick.io.Works? || c.expiresAt <= world.now { return Skip; }
      LedgerFate(world.journal, world.now, c, pin);
      ghost var before := world.journal;
      var status := ClaimCommand(c, pin);
      if status.NewClaim? { ClaimedLedger(before, c, pin, world.now); }
      if status.Conflict? { return Thrown; }
      if status.Duplicate? { return Skip; }
      var outcome := Handle(c);
      if outcome.None? {
        GiveUpOn(c);
        return Skip;
      }
      if world.stopped {
        DropResult(c, outcome.value);
        return Skip;
      }
      step := Record(c, outcome.value);
    }

    /**
     performCommandPullAndDispatch from the pull on.  Whatever happens meanwhile, commands are released in pull
     order; undisturbed, exactly the handled ones are released, and the receipt of each is submitted.
     */
    method PullAndDispatch(pulled: seq<(Command, string)>) returns (handled: seq<(Command, Result)>, threw: bool)
      requires Reachable(world) && world.flight.NoCommand?
      modifies this
      ensures Reachable(world) && world.flight.NoCommand?
      ensures exists released ::
                Subsequence(released, Asked(pulled)) && world.releases == old(world).releases + released
      ensures old(script) == [] && !old(world).stopped ==>
        && Subsequence(Commands(handled), Asked(pulled)) && (Commands(handled), threw) == PassIn(old(world), pulled)
        && world.releases == old(world).releases + Commands(handled)
        && (forall i :: 0 <= i < |handled| ==> Body(handled[i].0, handled[i].1, 0) in world.submissions)
    {
      ghost var released := [];
      ghost var whole := PassIn(world, pulled);
      handled, threw := [], false;
      if script == [] && !world.stopped { CalmPassStarts(world, pulled); }
      for i := 0 to |pulled|
        invariant Reachable(world) && world.flight.NoCommand?
        invariant InPullOrder(old(world), world, pulled, i, released)
        invariant old(script) == [] && !old(world).stopped ==>
                    script == [] && CalmPass(whole, old(world), world, pulled, i, released, handled)
      {
        ghost var before := world;
        var step := HandleOne(pulled[i].0, pulled[i].1);
        InPullOrderNext(old(world), before, world, pulled, i, released);
        if old(script) == [] && !old(world).stopped {
          CalmPassNext(whole, old(world), before, world, pulled, i, released, handled, step);
        }
        released := ReleasedAfter(before, world, pulled[i].0, released);
        if step.Thrown? {
          SubsequenceOfMore(released, pulled, i + 1);
          return handled, true;
        }
        if step.Handled? { handled := handled + [(pulled[i].0, step.result)]; }
      }
      assert pulled[..|pulled|] == pulled;
      if old(script) == [] && !old(world).stopped {
        CalmPassEnds(whole, old(world), world, pulled, released, handled);
      }
    }
  }
}
