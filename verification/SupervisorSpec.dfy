/**
 * Every critical section of the Supervisor as a function on its fields. Module
 * SupervisorObject proves the field-updating methods against these functions;
 * module SupervisorSystem interleaves them.
 */
module SupervisorSpec {
  import opened Basics
  import opened SupervisorTypes

  // ---------------------------------------------------------------- tokens

  function OpOf(s: Sup, o: nat): Op {
    if o in s.ops then s.ops[o] else NO_OP
  }

  predicate Owns(s: Sup, o: nat) {
    s.operation == Some(o) && !OpOf(s, o).revoked
  }

  /** The admission test shared by Start, Issue, Verify and Adjudicate. */
  predicate Occupied(s: Sup) {
    s.operation.Some? || s.recorderRunning || s.journalRunning || s.reporting != 0
  }

  predicate CountersExhausted(s: Sup) {
    s.revision == MAX_UINT64 || s.nextOperation >= MAX_UINT64 - 1 || s.nextRecord >= MAX_UINT64 - RECORD_SEQ_MARGIN
  }

  /** Assigns the next causal record sequence, saturating at the ceiling. */
  function Stamp(s: Sup): Sup {
    if s.nextRecord == MAX_UINT64 then s else s.(nextRecord := Inc64(s.nextRecord))
  }

  function CurrentChange(s: Sup): Change {
    Change(s.exec, s.inc, s.attempt, s.revision, 0, s.state, 0, 0, s.state)
  }

  function Begin(s: Sup, change: Change, phase: Phase): Sup {
    var o := Inc64(s.nextOperation);
    s.(nextOperation := o, mode := Executing, operation := Some(o),
       ops := s.ops[o := Op(change, phase, 0, 0, false, false, false)])
  }

  // ------------------------------------------------------------- admission

  function AdmitStart(s: Sup): (Sup, Admission) {
    match s.mode
    case Faulted => (Stamp(s), Refused(FaultLatched))
    case Executing => (Stamp(s), Refused(Busy))
    case Ready => (Stamp(s), Refused(AlreadyStarted))
    case AwaitingVerification => (Stamp(s), Refused(AlreadyStarted))
    case Stopped =>
      var change := CurrentChange(s);
      var begun := Begin(s, change, StartPhase);
      if Occupied(s) then (Stamp(s), Refused(Busy))
      else if CountersExhausted(s) then (begun, Exhausted(begun.nextOperation, change, StartPhase, false))
      else (begun, Begun(begun.nextOperation, change))
  }

  function AdmitIssue(m: Machine, s: Sup, event: Event, now: Time): (Sup, Admission) {
    match s.mode
    case Stopped => (Stamp(s), Refused(NotStarted))
    case Executing => (Stamp(s), Refused(Busy))
    case AwaitingVerification => (Stamp(s), Refused(Awaiting))
    case Faulted => (Stamp(s), Refused(FaultLatched))
    case Ready =>
      if Occupied(s) then (Stamp(s), Refused(Busy))
      else if event !in m.events then (Stamp(s), Refused(UnknownEvent))
      else if s.attempt == MAX_UINT64 || CountersExhausted(s) then
        var change := CurrentChange(s).(event := event);
        var begun := Begin(s, change, SelectionPhase);
        (begun, Exhausted(begun.nextOperation, change, SelectionPhase, false))
      else
        var attempt := Inc64(s.attempt);
        var change := Change(s.exec, s.inc, attempt, s.revision, now, s.state, event, 0, s.state);
        var begun := Begin(s.(attempt := attempt), change, PreconditionPhase);
        (begun, Begun(begun.nextOperation, change))
  }

  function AdmitVerify(m: Machine, s: Sup, attempt: AttemptId, now: Time): (Sup, Admission) {
    match s.mode
    case Stopped => (Stamp(s), Refused(NotStarted))
    case Ready => (Stamp(s), Refused(NoPending))
    case Executing => (Stamp(s), Refused(Busy))
    case Faulted => (Stamp(s), Refused(FaultLatched))
    case AwaitingVerification =>
      if Occupied(s) then (Stamp(s), Refused(Busy))
      else if s.pending.None? then (Stamp(s), Refused(NoPending))
      else if s.pending.value.change.Identifier() != attempt then (Stamp(s), Refused(StaleAttempt))
      else if now >= s.pending.value.deadline then (Expire(m, s, now), Expired)
      else
        var change := s.pending.value.change;
        var begun := Begin(s, change, VerifyPhase);
        if CountersExhausted(s) then (begun, Exhausted(begun.nextOperation, change, VerifyPhase, true))
        else (begun, Begun(begun.nextOperation, change))
  }

  /** The state an applicable decision proposes; None when it is not applicable. */
  function DecisionTarget(m: Machine, s: Sup, original: Fault, decision: Decision): Option<State> {
    match decision
    case Retain => Some(s.state)
    case Adopt => if original.transition == 0 || original.issuedAt == 0 then None else Some(original.to)
    case Override(state) => if state in m.states then Some(state) else None
    case UnknownOutcome => None
  }

  function AdmitAdjudicate(m: Machine, s: Sup, decision: Decision, phase: Phase): (Sup, Admission) {
    if s.mode != Faulted || s.fault.None? then (Stamp(s), Refused(NotFaulted))
    else if Occupied(s) then (Stamp(s), Refused(CallbackRunning))
    else
      var target := DecisionTarget(m, s, s.fault.value, decision);
      if target.None? then (Stamp(s), Refused(InvalidDecision))
      else if CountersExhausted(s) then (Stamp(s), Refused(CounterExhausted))
      else
        var change := if decision.Adopt? then s.fault.value.change else CurrentChange(s).(to := target.value);
        var begun := Begin(s, change, phase);
        (begun, Begun(begun.nextOperation, change))
  }

  // ------------------------------------------------------------- callbacks

  /** invoke: registers a callback of `o`, unless the operation is no longer live. */
  function InvokeBegin(s: Sup, o: nat, change: Change, phase: Phase): (Sup, bool) {
    if !Owns(s, o) || s.mode != Executing then (s, false)
    else
      var op := OpOf(s, o);
      (s.(ops := s.ops[o := op.(change := change, phase := phase, callbacks := op.callbacks + 1)]), true)
  }

  /** A callback of `o` ended; the last one of a returned operation releases it. */
  function CallbackReturned(s: Sup, owner: Option<nat>): Sup {
    if owner.None? then s
    else
      var o := owner.value;
      var op := OpOf(s, o);
      var op' := op.(callbacks := op.callbacks - 1);
      s.(ops := s.ops[o := op'],
         operation := if s.operation == owner && op'.returned && op'.callbacks == 0 then None else s.operation)
  }

  function Abandon(s: Sup, o: nat): Sup {
    s.(ops := s.ops[o := OpOf(s, o).(abandoned := true)])
  }

  function OperationReturned(s: Sup, o: nat): Sup {
    var op' := OpOf(s, o).(returned := true);
    s.(ops := s.ops[o := op'],
       operation := if s.operation == Some(o) && op'.callbacks == 0 then None else s.operation)
  }

  function ReportingReturned(s: Sup): Sup {
    s.(reporting := s.reporting - 1)
  }

  /** deliverAdapter's acquisition of a gate; false when another delivery holds it. */
  function Acquire(s: Sup, gate: Gate, owner: Option<nat>): (Sup, bool) {
    if (if gate.Journal? then s.journalBusy else s.recorderBusy) then (s, false)
    else
      var ops := match owner
        case None => s.ops
        case Some(o) => s.ops[o := OpOf(s, o).(callbacks := OpOf(s, o).callbacks + 1)];
      if gate.Journal? then (s.(ops := ops, journalBusy := true, journalRunning := true), true)
      else (s.(ops := ops, recorderBusy := true, recorderRunning := true), true)
  }

  /** deliverAdapter's release, at the instant the adapter callback really ends. */
  function Release(s: Sup, gate: Gate, owner: Option<nat>): Sup {
    var returned := CallbackReturned(s, owner);
    if gate.Journal? then returned.(journalBusy := false, journalRunning := false)
    else returned.(recorderBusy := false, recorderRunning := false)
  }

  // ------------------------------------------------- decisions of operations

  /** prepareIssue's first critical section: the operation may now reach a controller. */
  function PrepareBegin(s: Sup, o: nat, change: Change, now: Time): (Sup, bool) {
    if !Owns(s, o) || s.mode != Executing then (s, false)
    else (s.(ops := s.ops[o := OpOf(s, o).(phase := IssuePhase, issuedAt := now, change := change)]), true)
  }

  function AwaitVerification(s: Sup, o: nat, change: Change, row: Row, timeout: nat, now: Time): (Sup, bool) {
    if !Owns(s, o) || s.mode != Executing then (Stamp(s), false)
    else
      (Stamp(s.(pending := Some(Pending(change, row, OpOf(s, o).issuedAt, now + timeout, o)),
                mode := AwaitingVerification)), true)
  }

  /** commit: true when the state moved. */
  function Commit(m: Machine, s: Sup, o: nat, change: Change, issued: bool, now: Time): (Sup, bool) {
    if !Owns(s, o) || s.mode != Executing then (Stamp(s), false)
    else if s.revision == MAX_UINT64 then
      (Stamp(Latch(m, s, Some(o), change, CommitPhase, COUNTER_EXHAUSTED, issued, now).0), false)
    else
      (Stamp(s.(state := change.to, revision := Inc64(s.revision), pending := None, mode := Ready)), true)
  }

  function FinishReady(s: Sup, o: nat): (Sup, bool) {
    if !Owns(s, o) || s.mode != Executing then (Stamp(s), false)
    else (Stamp(s.(mode := Ready)), true)
  }

  function RestoreFault(s: Sup, o: nat, original: Fault): Sup {
    if !Owns(s, o) then Stamp(s)
    else
      Stamp(s.(ops := s.ops[o := OpOf(s, o).(revoked := true)], fault := Some(original), mode := Faulted))
  }

  /** The last critical section of adjudication: true when the fault was cleared. */
  function Resolve(s: Sup, o: nat, original: Fault, decision: Decision, target: State): (Sup, bool) {
    if !Owns(s, o) || s.mode != Executing || s.fault != Some(original) then (Stamp(s), false)
    else
      var moved := if decision.Retain? then s else s.(state := target, revision := Inc64(s.revision));
      (Stamp(moved.(fault := None, mode := Ready)), true)
  }

  // ---------------------------------------------------------------- faults

  function NewFault(s: Sup, change: Change, phase: Phase, cause: nat, uncertain: bool, now: Time): Fault {
    var samePending := s.pending.Some? && s.pending.value.change.Identifier() == change.Identifier();
    var sameOp := s.operation.Some? && OpOf(s, s.operation.value).change.Identifier() == change.Identifier();
    Fault(change, s.exec, change.inc, change.id, s.revision, s.state, change.event, change.transition, change.to,
          phase, uncertain,
          if samePending then s.pending.value.issuedAt
          else if sameOp then OpOf(s, s.operation.value).issuedAt else 0,
          if samePending then s.pending.value.deadline else 0,
          now, cause)
  }

  /** latchLocked: the first cause wins; the flag says whether this call created the fault. */
  function Latch(m: Machine, s: Sup, o: Option<nat>, change: Change, phase: Phase, cause: nat, uncertain: bool, now: Time)
    : (Sup, bool)
  {
    if o.Some? && !Owns(s, o.value) then (s, false)
    else
      var fault := if s.fault.Some? then s.fault else Some(NewFault(s, change, phase, cause, uncertain, now));
      var ops := match s.operation
        case None => s.ops
        case Some(p) => s.ops[p := OpOf(s, p).(revoked := true)];
      (s.(fault := fault, pending := None, ops := ops, mode := Faulted), s.fault.None?)
  }

  /** The change and phase Trip attributes its fault to. */
  function TripSubject(s: Sup): (Change, Phase) {
    if s.mode == Executing && s.operation.Some? then
      (OpOf(s, s.operation.value).change, OpOf(s, s.operation.value).phase)
    else if s.mode == AwaitingVerification && s.pending.Some? then (s.pending.value.change, VerifyPhase)
    else (CurrentChange(s), TripPhase)
  }

  function Trip(m: Machine, s: Sup, cause: nat, now: Time): (Sup, bool) {
    var subject := TripSubject(s);
    var latched := Latch(m, s, None, subject.0, subject.1, cause, true, now);
    var stamped := Stamp(latched.0);
    (stamped.(reporting := stamped.reporting + 1), latched.1)
  }

  /** expireVerificationLocked, called with a pending change. */
  function Expire(m: Machine, s: Sup, now: Time): Sup
    requires s.pending.Some?
  {
    var stamped := Stamp(Latch(m, s, None, s.pending.value.change, VerifyPhase, VERIFICATION_TIMEOUT, true, now).0);
    stamped.(reporting := stamped.reporting + 1)
  }

  /** A timer notification, however late, early, repeated or stale. */
  function TimerFired(m: Machine, s: Sup, attempt: nat, version: nat, now: Time): (Sup, bool) {
    if s.mode != AwaitingVerification || s.pending.None? || s.pending.value.change.id != attempt
       || s.pending.value.version != version || now < s.pending.value.deadline
    then (s, false)
    else (Expire(m, s, now), true)
  }

  // ------------------------------------------------------- snapshot, restore

  function PendingOf(change: Change, issuedAt: Time, deadline: Time): PendingSnapshot {
    PendingSnapshot(change.startedAt, change.Identifier(), change.revision, change.from, change.event,
                    change.transition, change.to, issuedAt, deadline)
  }

  function FaultPending(f: Fault): PendingSnapshot {
    PendingSnapshot(f.change.startedAt, AttemptId(f.exec, f.inc, f.attempt), f.change.revision, f.state, f.event,
                    f.transition, f.to, f.issuedAt, f.deadline)
  }

  function SnapshotOf(m: Machine, s: Sup, now: Time): Snapshot {
    var op := if s.operation.Some? then OpOf(s, s.operation.value) else NO_OP;
    var issuing := s.operation.Some? && s.mode == Executing && op.issuedAt != 0;
    var p1 := if s.pending.Some?
      then Some(PendingOf(s.pending.value.change, s.pending.value.issuedAt, s.pending.value.deadline)) else None;
    var p2 := if p1.None? && issuing && op.change.id != 0 then Some(PendingOf(op.change, op.issuedAt, 0)) else p1;
    var faultDoubt := p2.None? && s.fault.Some? && s.fault.value.issuedAt != 0;
    var p3 := if faultDoubt then Some(FaultPending(s.fault.value)) else p2;
    Snapshot(
      SNAPSHOT_VERSION, m.id, s.exec, s.inc, s.restarts, s.state, s.revision, s.attempt, s.nextRecord, p3,
      s.pending.Some? || issuing || faultDoubt,
      s.fault.Some?,
      if s.fault.Some? then s.fault.value.uncertain else s.pending.Some? || issuing,
      if s.fault.Some? then s.fault.value.phase else NoPhase,
      if s.fault.Some? then s.fault.value.cause else 0,
      now)
  }

  function NewSupervisor(m: Machine, exec: Id): Sup {
    Sup(Stopped, m.initial, exec, exec, 0, 0, 0, None, None, None, map[], 0, false, false, false, false, 0, 0)
  }

  predicate CeilingsReached(snap: Snapshot) {
    snap.revision == MAX_UINT64 || snap.restarts == MAX_UINT64 || snap.records >= MAX_UINT64 - RECORD_SEQ_MARGIN
  }

  predicate MatchesRow(m: Machine, p: PendingSnapshot) {
    var rows := m.RowsFor(p.from, p.event);
    exists i | 0 <= i < |rows| :: rows[i].id == p.transition && rows[i].to == p.to && rows[i].external
  }

  predicate PendingConsistent(m: Machine, snap: Snapshot, p: PendingSnapshot) {
    && p.attempt.exec == snap.exec && p.attempt.inc != 0 && p.attempt.sequence != 0
    && p.attempt.sequence <= snap.attempt && p.revision == snap.revision && p.from == snap.state
    && MatchesRow(m, p)
  }

  /** The validator in front of restoration: its checks in this order, the first failure reported. */
  function Validate(m: Machine, snap: Snapshot): Option<Error> {
    if snap.version != SNAPSHOT_VERSION then Some(SnapshotVersion)
    else if snap.definition != m.id then Some(DefinitionMismatch)
    else if snap.exec == 0 || snap.inc == 0 then Some(InvalidSnapshot)
    else if snap.state !in m.states then Some(UnknownState)
    else if CeilingsReached(snap) then Some(CounterExhausted)
    else if snap.inDoubt != snap.pending.Some? then Some(InvalidSnapshot)
    else if snap.pending.Some? && !PendingConsistent(m, snap, snap.pending.value) then Some(InvalidSnapshot)
    else None
  }

  function RestoredFault(snap: Snapshot): Fault {
    var base := Fault(
      NO_CHANGE, snap.exec, snap.inc, snap.attempt, snap.revision, snap.state, 0, 0, 0, snap.faultPhase,
      snap.uncertain || snap.inDoubt, 0, 0, snap.recordedAt,
      if snap.faultCause != 0 then snap.faultCause else RESTORED_IN_DOUBT);
    match snap.pending
    case None => base
    case Some(p) =>
      base.(change := Change(p.attempt.exec, p.attempt.inc, p.attempt.sequence, p.revision, p.startedAt,
                             p.from, p.event, p.transition, p.to),
            inc := p.attempt.inc, attempt := p.attempt.sequence, event := p.event, transition := p.transition,
            to := p.to, issuedAt := p.issuedAt, deadline := p.deadline)
  }

  /** restoreSupervisor with the fresh incarnation identity `inc`. */
  function Restore(m: Machine, snap: Snapshot, inc: Id): Restored {
    var problem := Validate(m, snap);
    if problem.Some? then Rejected(problem.value)
    else
      var doubtful := snap.inDoubt || snap.faulted;
      Restored(Sup(
        if doubtful then Faulted else Stopped, snap.state, snap.exec, inc, Inc64(snap.restarts), snap.revision,
        snap.attempt, None, if doubtful then Some(RestoredFault(snap)) else None, None, map[], 0,
        false, false, false, false, 0, snap.records))
  }
}
