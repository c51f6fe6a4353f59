/**
 * Values of the supervised package: the compiled machine, the durable Snapshot,
 * the latched Fault, and the mutable fields of one Supervisor as a value.
 *
 * Identities, states, events and times are natural numbers. Zero stands for
 * Go's zero value: the empty string, the zero state or event, and the zero time.
 */
module SupervisorTypes {
  import opened Basics

  const RECORD_SEQ_MARGIN: nat := 16
  const SNAPSHOT_VERSION: nat := 2

  /** The text restoration gives a fault whose snapshot carries no cause. */
  const RESTORED_IN_DOUBT: nat := 1
  const COUNTER_EXHAUSTED: nat := 2
  const VERIFICATION_TIMEOUT: nat := 3

  type Id = nat
  type State = nat
  type Event = nat
  type Time = nat

  datatype Mode = Stopped | Ready | Executing | AwaitingVerification | Faulted

  datatype Phase =
    | NoPhase | StartPhase | PreconditionPhase | SelectionPhase | GuardPhase | InvariantPhase | IssuePhase
    | VerifyPhase | PostconditionPhase | CommitPhase | RecoverPhase | TripPhase | AdjudicatePhase

  /** One compiled transition; `checks` counts its own preconditions. */
  datatype Row = Row(id: Id, from: State, event: Event, to: State, guarded: bool, checks: nat, external: bool)

  datatype Key = Key(state: State, event: Event)

  /** A compiled definition. Callback groups are represented by their sizes. */
  datatype Machine = Machine(
    id: Id, initial: State, states: set<State>, events: set<Event>, rows: map<Key, seq<Row>>,
    preconditions: nat, invariants: nat, postconditions: nat, reconcilers: nat)
  {
    function RowsFor(state: State, event: Event): seq<Row> {
      if Key(state, event) in rows then rows[Key(state, event)] else []
    }

    /** What compilation guarantees about the rows and the initial state. */
    ghost predicate Valid() {
      && initial in states
      && (forall key, i {:trigger rows[key][i]} | key in rows && 0 <= i < |rows[key]| ::
            var row := rows[key][i];
            row.from == key.state && row.event == key.event && row.to in states && row.id != 0)
    }

    /** Whether `change` is the change of some external row of this machine. */
    ghost predicate Declares(change: Change) {
      exists i {:trigger RowsFor(change.from, change.event)[i]} | 0 <= i < |RowsFor(change.from, change.event)| ::
        var row := RowsFor(change.from, change.event)[i];
        row.id == change.transition && row.to == change.to && row.external
    }
  }

  /** The durable identity a caller presents to Verify. */
  datatype AttemptId = AttemptId(exec: Id, inc: Id, sequence: uint64)

  /** An attempt together with the row selected for it (`transition` is zero before selection). */
  datatype Change = Change(
    exec: Id, inc: Id, id: uint64, revision: uint64, startedAt: Time,
    from: State, event: Event, transition: Id, to: State)
  {
    function Identifier(): AttemptId {
      AttemptId(exec, inc, id)
    }
  }

  datatype Fault = Fault(
    change: Change, exec: Id, inc: Id, attempt: uint64, revision: uint64, state: State, event: Event,
    transition: Id, to: State, phase: Phase, uncertain: bool, issuedAt: Time, deadline: Time,
    occurredAt: Time, cause: nat)

  datatype PendingSnapshot = PendingSnapshot(
    startedAt: Time, attempt: AttemptId, revision: uint64, from: State, event: Event,
    transition: Id, to: State, issuedAt: Time, deadline: Time)

  datatype Snapshot = Snapshot(
    version: nat, definition: Id, exec: Id, inc: Id, restarts: uint64, state: State, revision: uint64,
    attempt: uint64, records: uint64, pending: Option<PendingSnapshot>, inDoubt: bool, faulted: bool,
    uncertain: bool, faultPhase: Phase, faultCause: nat, recordedAt: Time)

  /** One admitted operation's token. `callbacks` is Go's signed counter. */
  datatype Op = Op(
    change: Change, phase: Phase, issuedAt: Time, callbacks: int,
    returned: bool, revoked: bool, abandoned: bool)

  const NO_CHANGE := Change(0, 0, 0, 0, 0, 0, 0, 0, 0)
  const NO_OP := Op(NO_CHANGE, NoPhase, 0, 0, true, true, false)

  /** An issued change that waits for Verify; `version` is the operation that armed its timer. */
  datatype Pending = Pending(change: Change, row: Row, issuedAt: Time, deadline: Time, version: nat)

  datatype Gate = Journal | Recorder

  /** The mutable fields of one Supervisor. `ops` holds every token it has allocated. */
  datatype Sup = Sup(
    mode: Mode, state: State, exec: Id, inc: Id, restarts: uint64, revision: uint64, attempt: uint64,
    pending: Option<Pending>, fault: Option<Fault>,
    operation: Option<nat>, ops: map<nat, Op>, nextOperation: uint64,
    recorderBusy: bool, journalBusy: bool, recorderRunning: bool, journalRunning: bool, reporting: int,
    nextRecord: uint64)

  datatype Error =
    | NotStarted | AlreadyStarted | Busy | Awaiting | FaultLatched | NoPending | StaleAttempt | UnknownEvent
    | CounterExhausted | NotFaulted | CallbackRunning | InvalidDecision | NilContext
    | SnapshotVersion | DefinitionMismatch | InvalidSnapshot | UnknownState

  datatype Decision = Retain | Adopt | Override(state: State) | UnknownOutcome

  /** What an admission critical section decided. */
  datatype Admission =
    | Refused(error: Error)
    | Begun(op: nat, change: Change)
    | Exhausted(op: nat, change: Change, phase: Phase, uncertain: bool)
    | Expired

  datatype Restored = Restored(sup: Sup) | Rejected(error: Error)
}
