/** The durable command journal: the store transitions of one command execution. */
module CommandJournal {
  import opened Wrappers

  /** Milliseconds; canonical timestamps have one fixed-width form, so their order is the order in time. */
  type Time = int

  const CLOCK_SKEW: Time := 300_000
  const RECEIPT_RETENTION: Time := 30 * 24 * 60 * 60 * 1_000

  /** A whole encrypted command envelope; `sealed` is everything in it not named here. */
  datatype Command = Command(id: string, watchId: string, nonce: string, expiresAt: Time, sealed: string)

  datatype ResultStatus = Executed | Expired | Rejected | Failed

  datatype Result = Result(status: ResultStatus, updatedAt: Time) {
    predicate Accepted() { status.Executed? }
  }

  /** A sealed receipt body: whose receipt it is, what it says, and the randomness it was sealed with. */
  datatype Body = Body(command: Command, result: Result, randomness: nat)

  datatype Delivery = Undelivered | Acknowledged | Undeliverable

  datatype Phase =
    | Claimed
    | DispatchStarted
    | OutcomeUnknown
    | ReceiptBlocked(result: Result)
    | Terminal(result: Result, body: Body, delivery: Delivery)

  datatype Execution = Execution(command: Command, pin: string, phase: Phase)

  type Journal = map<string, Execution>

  datatype ClaimStatus = NewClaim | Duplicate | Conflict

  predicate Active(phase: Phase) { phase.Claimed? || phase.DispatchStarted? }

  /** A new id is claimed unless another kept entry of the Watch has its nonce. */
  function Claim(j: Journal, command: Command, pin: string): (Journal, ClaimStatus) {
    var candidate := Execution(command, pin, Claimed);
    if command.id in j then
      (j, if j[command.id].command == command && j[command.id].pin == pin then Duplicate else Conflict)
    else if exists id :: id in j && j[id].command.watchId == command.watchId && j[id].command.nonce == command.nonce
    then
      (j, Conflict)
    else (j[command.id := candidate], NewClaim)
  }

  function SetPhase(j: Journal, id: string, phase: Phase): Journal
    requires id in j
  {
    j[id := j[id].(phase := phase)]
  }

  /** Each transition is None where the store throws. */
  function MarkDispatchStarted(j: Journal, id: string): Option<Journal> {
    if id in j && j[id].phase.Claimed? then Some(SetPhase(j, id, DispatchStarted)) else None
  }

  function MarkOutcomeUnknown(j: Journal, id: string): Option<Journal> {
    if id in j && Active(j[id].phase) then Some(SetPhase(j, id, OutcomeUnknown)) else None
  }

  function PersistBlocked(j: Journal, id: string, result: Result): Option<Journal> {
    if id in j && Active(j[id].phase) then Some(SetPhase(j, id, ReceiptBlocked(result))) else None
  }

  /** The outbox must be for this execution and this result; a blocked result is immutable. */
  function PersistTerminal(j: Journal, id: string, result: Result, body: Body): Option<Journal> {
    if id in j && (Active(j[id].phase) || j[id].phase == ReceiptBlocked(result))
       && body.command == j[id].command && body.result == result
    then Some(SetPhase(j, id, Terminal(result, body, Undelivered))) else None
  }

  function MarkOutbox(j: Journal, id: string, delivery: Delivery): Option<Journal> {
    if id in j && j[id].phase.Terminal? && j[id].phase.delivery.Undelivered?
    then Some(SetPhase(j, id, j[id].phase.(delivery := delivery))) else None
  }

  function RecoverOrphan(e: Execution): Execution {
    if Active(e.phase) then e.(phase := OutcomeUnknown) else e
  }

  function RecoverOrphans(j: Journal): Journal {
    map id | id in j :: RecoverOrphan(j[id])
  }

  function RetainedThrough(e: Execution): Time {
    match e.phase
    case ReceiptBlocked(result) => result.updatedAt + RECEIPT_RETENTION
    case Terminal(result, _, _) => result.updatedAt + RECEIPT_RETENTION
    case _ => e.command.expiresAt + CLOCK_SKEW
  }

  function Prune(j: Journal, now: Time): Journal {
    map id | id in j && RetainedThrough(j[id]) >= now :: j[id]
  }
}
