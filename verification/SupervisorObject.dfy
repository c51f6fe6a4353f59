/**
 * The Supervisor as the program holds it: an object whose fields the critical
 * sections update in place, with its operation tokens and delivery gates as
 * objects of their own. `View` reads the fields off as a value, and every
 * method is proved to take the view exactly where the specification does.
 */
module SupervisorObject {
  import opened Basics
  import opened SupervisorTypes
  import Spec = SupervisorSpec

  /** The tokens after the live one, if any, was revoked. */
  function RevokedIn(ops: map<nat, Op>, live: Option<nat>): map<nat, Op> {
    match live
    case None => ops
    case Some(o) => ops[o := (if o in ops then ops[o] else NO_OP).(revoked := true)]
  }

  lemma NotOwning(m: Machine, s: Sup, o: nat, change: Change, phase: Phase, cause: nat, uncertain: bool, now: Time)
    requires !Spec.Owns(s, o)
    ensures Spec.Latch(m, s, Some(o), change, phase, cause, uncertain, now) == (s, false)
  {
  }

  /** A latch field by field: the first fault, no pending change, no owner, mode Faulted. */
  lemma LatchFields(m: Machine, s: Sup, o: Option<nat>, change: Change, phase: Phase, cause: nat, uncertain: bool, now: Time, f: Fault)
    requires o.Some? ==> Spec.Owns(s, o.value)
    requires f == if s.fault.Some? then s.fault.value else Spec.NewFault(s, change, phase, cause, uncertain, now)
    ensures Spec.Latch(m, s, o, change, phase, cause, uncertain, now)
         == (s.(fault := Some(f), pending := None, mode := Faulted, ops := RevokedIn(s.ops, s.operation)), s.fault.None?)
  {
  }

  /** The fields after a fault was cleared. */
  function Resolved(s: Sup, decision: Decision, target: State): Sup {
    (if decision.Retain? then s else s.(state := target, revision := Inc64(s.revision))).(fault := None, mode := Ready)
  }

  lemma ResolveRefused(s: Sup, o: nat, original: Fault, decision: Decision, target: State)
    requires !Spec.Owns(s, o) || s.mode != Executing || s.fault != Some(original)
    ensures Spec.Resolve(s, o, original, decision, target) == (Spec.Stamp(s), false)
  {
  }

  lemma ResolveAccepted(s: Sup, o: nat, original: Fault, decision: Decision, target: State)
    requires Spec.Owns(s, o) && s.mode == Executing && s.fault == Some(original)
    ensures Spec.Resolve(s, o, original, decision, target) == (Spec.Stamp(Resolved(s, decision, target)), true)
  {
  }

  lemma InvokeFields(s: Sup, o: nat, change: Change, phase: Phase)
    ensures Spec.InvokeBegin(s, o, change, phase) ==
      if !Spec.Owns(s, o) || s.mode != Executing then (s, false)
      else
        (s.(ops := s.ops[o := Spec.OpOf(s, o).(change := change, phase := phase, callbacks := Spec.OpOf(s, o).callbacks + 1)]), true)
  {
  }

  lemma ReturnFields(s: Sup, owner: Option<nat>, op: Op)
    requires owner.Some? && op == Spec.OpOf(s, owner.value).(callbacks := Spec.OpOf(s, owner.value).callbacks - 1)
    ensures Spec.CallbackReturned(s, owner) ==
      s.(ops := s.ops[owner.value := op], operation := if s.operation == owner && op.returned && op.callbacks == 0 then None else s.operation)
  {
  }

  /** The tokens while one more callback of `owner` runs. */
  function Borrowed(s: Sup, owner: Option<nat>): map<nat, Op> {
    if owner.None? then s.ops
    else s.ops[owner.value := Spec.OpOf(s, owner.value).(callbacks := Spec.OpOf(s, owner.value).callbacks + 1)]
  }

  lemma AcquireFields(s: Sup, journal: bool, owner: Option<nat>)
    ensures Spec.Acquire(s, if journal then Gate.Journal else Gate.Recorder, owner) ==
      if if journal then s.journalBusy else s.recorderBusy then (s, false)
      else if journal then (s.(ops := Borrowed(s, owner), journalBusy := true, journalRunning := true), true)
      else (s.(ops := Borrowed(s, owner), recorderBusy := true, recorderRunning := true), true)
  {
  }

  /** One admitted operation. `token` numbers it. */
  class ActiveOperation {
    const token: nat
    var change: Change
    var phase: Phase
    var issuedAt: Time
    var callbacks: int
    var returned: bool
    var revoked: bool
    var abandoned: bool

    constructor (token: nat, change: Change, phase: Phase)
      ensures this.token == token && Value() == Op(change, phase, 0, 0, false, false, false)
    {
      this.token, this.change, this.phase := token, change, phase;
      issuedAt, callbacks, returned, revoked, abandoned := 0, 0, false, false, false;
    }

    ghost function Value(): Op
      reads this
    {
      Op(change, phase, issuedAt, callbacks, returned, revoked, abandoned)
    }
  }

  /** Admits at most one adapter callback, without a waiting queue. */
  class DeliveryGate {
    var busy: bool

    constructor ()
      ensures !busy
    {
      busy := false;
    }
  }

  class Supervisor {
    const machine: Machine
    const exec: Id
    const inc: Id
    const restarts: uint64
    const recorderGate: DeliveryGate
    const journalGate: DeliveryGate
    var mode: Mode
    var state: State
    var revision: uint64
    var attempt: uint64
    var pending: Option<Pending>
    var fault: Option<Fault>
    var operation: ActiveOperation?
    var nextOperation: uint64
    var recorderRunning: bool
    var journalRunning: bool
    var reporting: int
    var nextRecord: uint64
    /** Every token ever allocated, by number. */
    ghost var tokens: map<nat, ActiveOperation>

    ghost function Repr(): set<object>
      reads this
    {
      {this, recorderGate, journalGate} + tokens.Values
    }

    ghost predicate Valid()
      reads this
    {
      && recorderGate != journalGate
      && (forall o | o in tokens :: tokens[o].token == o)
      && (operation != null ==> Holds(operation))
    }

    /** `op` is a token of this Supervisor. */
    ghost predicate Holds(op: ActiveOperation)
      reads this
    {
      op.token in tokens && tokens[op.token] == op
    }

    ghost function Owner(op: ActiveOperation?): Option<nat> {
      if op == null then None else Some(op.token)
    }

    ghost function Tokens(): map<nat, Op>
      reads `tokens, tokens.Values
    {
      map o | o in tokens :: tokens[o].Value()
    }

    ghost function View(): Sup
      reads Repr()
    {
      Sup(mode, state, exec, inc, restarts, revision, attempt, pending, fault, Owner(operation),
          Tokens(), nextOperation,
          recorderGate.busy, journalGate.busy, recorderRunning, journalRunning, reporting, nextRecord)
    }

    constructor (machine: Machine, exec: Id)
      ensures Valid() && fresh(Repr()) && this.machine == machine && View() == Spec.NewSupervisor(machine, exec)
    {
      this.machine, this.exec, this.inc, this.restarts := machine, exec, exec, 0;
      recorderGate := new DeliveryGate();
      journalGate := new DeliveryGate();
      mode, state, revision, attempt, pending, fault := Stopped, machine.initial, 0, 0, None, None;
      operation, nextOperation, recorderRunning, journalRunning, reporting, nextRecord := null, 0, false, false, 0, 0;
      tokens := map[];
    }

    /** The fields restoration fills in from an accepted snapshot. */
    constructor FromSnapshot(machine: Machine, snap: Snapshot, inc: Id)
      requires Spec.Validate(machine, snap).None?
      ensures Valid() && fresh(Repr()) && this.machine == machine
      ensures Spec.Restore(machine, snap, inc) == Restored(View())
    {
      this.machine, exec, this.inc, restarts := machine, snap.exec, inc, Inc64(snap.restarts);
      recorderGate := new DeliveryGate();
      journalGate := new DeliveryGate();
      state, revision, attempt, nextRecord := snap.state, snap.revision, snap.attempt, snap.records;
      pending, operation, nextOperation, recorderRunning, journalRunning, reporting := None, null, 0, false, false, 0;
      tokens := map[];
      if snap.inDoubt || snap.faulted {
        mode, fault := Faulted, Some(Spec.RestoredFault(snap));
      } else {
        mode, fault := Stopped, None;
      }
    }

    // ------------------------------------------------------------ helpers

    method StampLocked()
      requires Valid()
      modifies `nextRecord
      ensures Valid() && View() == Spec.Stamp(old(View()))
    {
      if nextRecord != MAX_UINT64 {
        nextRecord := nextRecord + 1;
      }
    }

    method BeginOperationLocked(change: Change, phase: Phase) returns (op: ActiveOperation)
      requires Valid()
      modifies `mode, `operation, `nextOperation, `tokens
      ensures Valid() && fresh(op) && operation == op && op.token == nextOperation && Holds(op)
      ensures View() == Spec.Begin(old(View()), change, phase)
    {
      nextOperation := Inc64(nextOperation);
      op := new ActiveOperation(nextOperation, change, phase);
      tokens := tokens[op.token := op];
      mode, operation := Executing, op;
      NewToken(op);
    }

    /** A fresh token joins the others, which stay as they were. */
    twostate lemma NewToken(new op: ActiveOperation)
      requires tokens == old(tokens)[op.token := op]
      requires forall o | o in old(tokens) :: old(tokens)[o].Value() == old(tokens[o].Value())
      ensures Tokens() == old(Tokens())[op.token := op.Value()]
    {
    }

    predicate Owns(op: ActiveOperation)
      reads this, op
    {
      operation == op && !op.revoked
    }

    predicate Occupied()
      reads this
    {
      operation != null || recorderRunning || journalRunning || reporting != 0
    }

    predicate CountersExhausted()
      reads this
    {
      revision == MAX_UINT64 || nextOperation >= MAX_UINT64 - 1 || nextRecord >= MAX_UINT64 - RECORD_SEQ_MARGIN
    }

    function CurrentChange(): Change
      reads this
    {
      Change(exec, inc, attempt, revision, 0, state, 0, 0, state)
    }

    /** The specification reads a token as the object does. */
    lemma Reads(op: ActiveOperation)
      requires Valid() && Holds(op)
      ensures Spec.OpOf(View(), op.token) == op.Value() && Spec.Owns(View(), op.token) == Owns(op)
    {
      assert op.token in View().ops;
    }

    lemma ReadsOwner()
      requires Valid()
      ensures operation != null ==> Spec.OpOf(View(), operation.token) == operation.Value()
    {
      if operation != null { Reads(operation); }
    }

    twostate lemma NoToken()
      requires old(Valid()) && Valid() && old(tokens) == tokens
      requires forall o | o in tokens :: tokens[o].Value() == old(tokens[o].Value())
      ensures View().ops == old(View()).ops
    {
    }

    /** Only the token `op` may differ from `before`. */
    twostate lemma OneToken(op: ActiveOperation)
      requires old(Valid()) && Valid() && old(tokens) == tokens && old(Holds(op))
      requires forall o | o in tokens && tokens[o] != op :: tokens[o].Value() == old(tokens[o].Value())
      ensures View().ops == old(View()).ops[op.token := op.Value()]
    {
    }

    /** The first fault's record: the pending change or the live operation lends it its issue times. */
    method FaultRecord(change: Change, phase: Phase, cause: nat, uncertain: bool, now: Time, ghost s: Sup) returns (record: Fault)
      requires Valid() && s == View()
      ensures record == Spec.NewFault(s, change, phase, cause, uncertain, now)
    {
      ReadsOwner();
      var issuedAt, deadline := 0, 0;
      if pending.Some? && pending.value.change.Identifier() == change.Identifier() {
        issuedAt, deadline := pending.value.issuedAt, pending.value.deadline;
      } else if operation != null && operation.change.Identifier() == change.Identifier() {
        issuedAt := operation.issuedAt;
      }
      record := Fault(change, exec, change.inc, change.id, revision, state, change.event, change.transition, change.to,
                      phase, uncertain, issuedAt, deadline, now, cause);
    }

    /** Installs a fault and settles the rest: no pending change, no owner, mode Faulted. */
    method SettleFaulted(record: Fault, ghost s: Sup)
      requires Valid() && s == View()
      modifies `fault, `pending, `mode, operation
      ensures Valid()
      ensures View() == s.(fault := Some(record), pending := None, mode := Faulted, ops := RevokedIn(s.ops, s.operation))
    {
      fault := Some(record);
      pending := None;
      mode := Faulted;
      assert Tokens() == s.ops;
      RevokeOperation(View());
    }

    method LatchLocked(op: ActiveOperation?, change: Change, phase: Phase, cause: nat, uncertain: bool, now: Time)
      returns (created: bool)
      requires Valid() && (op != null ==> Holds(op))
      modifies this, operation
      ensures Valid() && tokens == old(tokens)
      ensures (View(), created) == Spec.Latch(machine, old(View()), Owner(op), change, phase, cause, uncertain, now)
    {
      hide Spec.NewFault, Spec.Latch, RevokedIn;
      ghost var s := View();
      if op != null { Reads(op); }
      if op != null && !Owns(op) {
        NotOwning(machine, s, op.token, change, phase, cause, uncertain, now);
        return false;
      }
      created := fault.None?;
      var record;
      if created {
        record := FaultRecord(change, phase, cause, uncertain, now, s);
      } else {
        record := fault.value;
      }
      LatchFields(machine, s, Owner(op), change, phase, cause, uncertain, now, record);
      SettleFaulted(record, s);
    }

    /** Takes the operation back from whoever runs it. */
    method RevokeOperation(ghost s: Sup)
      requires Valid() && s == View()
      modifies operation
      ensures Valid()
      ensures View() == s.(ops := RevokedIn(s.ops, s.operation))
    {
      ReadsOwner();
      if operation != null {
        operation.revoked := true;
        OneToken(operation);
      } else {
        NoToken();
      }
    }

    // ---------------------------------------------------------- admission

    method AdmitStart() returns (admission: Admission, op: ActiveOperation?)
      requires Valid()
      modifies this
      ensures Valid() && (View(), admission) == Spec.AdmitStart(old(View()))
      ensures op != null <==> admission.Begun? || admission.Exhausted?
      ensures op != null ==> Holds(op) && operation == op
    {
      op := null;
      match mode {
        case Faulted => StampLocked(); admission := Refused(FaultLatched); return;
        case Executing => StampLocked(); admission := Refused(Busy); return;
        case Ready => StampLocked(); admission := Refused(AlreadyStarted); return;
        case AwaitingVerification => StampLocked(); admission := Refused(AlreadyStarted); return;
        case Stopped =>
      }
      if Occupied() {
        StampLocked();
        admission := Refused(Busy);
        return;
      }
      var change := CurrentChange();
      var exhausted := CountersExhausted();
      op := BeginOperationLocked(change, StartPhase);
      admission := if exhausted then Exhausted(op.token, change, StartPhase, false) else Begun(op.token, change);
    }

    method AdmitIssue(event: Event, now: Time) returns (admission: Admission, op: ActiveOperation?)
      requires Valid()
      modifies this
      ensures Valid() && (View(), admission) == Spec.AdmitIssue(machine, old(View()), event, now)
      ensures op != null <==> admission.Begun? || admission.Exhausted?
      ensures op != null ==> Holds(op) && operation == op
    {
      op := null;
      match mode {
        case Stopped => StampLocked(); admission := Refused(NotStarted); return;
        case Executing => StampLocked(); admission := Refused(Busy); return;
        case AwaitingVerification => StampLocked(); admission := Refused(Awaiting); return;
        case Faulted => StampLocked(); admission := Refused(FaultLatched); return;
        case Ready =>
      }
      if Occupied() {
        StampLocked();
        admission := Refused(Busy);
        return;
      }
      if event !in machine.events {
        StampLocked();
        admission := Refused(UnknownEvent);
        return;
      }
      if attempt == MAX_UINT64 || CountersExhausted() {
        var change := CurrentChange().(event := event);
        op := BeginOperationLocked(change, SelectionPhase);
        admission := Exhausted(op.token, change, SelectionPhase, false);
        return;
      }
      attempt := Inc64(attempt);
      NoToken();
      var change := Change(exec, inc, attempt, revision, now, state, event, 0, state);
      op := BeginOperationLocked(change, PreconditionPhase);
      admission := Begun(op.token, change);
    }

    method AdmitVerify(id: AttemptId, now: Time) returns (admission: Admission, op: ActiveOperation?)
      requires Valid()
      modifies this, operation
      ensures Valid() && (View(), admission) == Spec.AdmitVerify(machine, old(View()), id, now)
      ensures op != null <==> admission.Begun? || admission.Exhausted?
      ensures op != null ==> Holds(op) && operation == op
    {
      op := null;
      match mode {
        case Stopped => StampLocked(); admission := Refused(NotStarted); return;
        case Ready => StampLocked(); admission := Refused(NoPending); return;
        case Executing => StampLocked(); admission := Refused(Busy); return;
        case Faulted => StampLocked(); admission := Refused(FaultLatched); return;
        case AwaitingVerification =>
      }
      if Occupied() {
        StampLocked();
        admission := Refused(Busy);
        return;
      }
      if pending.None? {
        StampLocked();
        admission := Refused(NoPending);
        return;
      }
      if pending.value.change.Identifier() != id {
        StampLocked();
        admission := Refused(StaleAttempt);
        return;
      }
      if !(now < pending.value.deadline) {
        ExpireVerificationLocked(now);
        admission := Expired;
        return;
      }
      var change := pending.value.change;
      var exhausted := CountersExhausted();
      op := BeginOperationLocked(change, VerifyPhase);
      admission := if exhausted then Exhausted(op.token, change, VerifyPhase, true) else Begun(op.token, change);
    }

    method AdmitAdjudicate(decision: Decision, phase: Phase)
      returns (admission: Admission, op: ActiveOperation?, target: State)
      requires Valid()
      modifies this
      ensures Valid() && (View(), admission) == Spec.AdmitAdjudicate(machine, old(View()), decision, phase)
      ensures op != null <==> admission.Begun?
      ensures op != null ==> Holds(op) && operation == op
      ensures admission.Begun? ==>
        Spec.DecisionTarget(machine, old(View()), old(fault).value, decision) == Some(target)
    {
      op, target := null, state;
      if mode != Faulted || fault.None? {
        StampLocked();
        admission := Refused(NotFaulted);
        return;
      }
      if Occupied() {
        StampLocked();
        admission := Refused(CallbackRunning);
        return;
      }
      var original := fault.value;
      var applicable := true;
      match decision {
        case Retain =>
        case Adopt =>
          applicable := original.transition != 0 && original.issuedAt != 0;
          target := original.to;
        case Override(chosen) =>
          applicable := chosen in machine.states;
          target := chosen;
        case UnknownOutcome => applicable := false;
      }
      if !applicable {
        StampLocked();
        admission := Refused(InvalidDecision);
        return;
      }
      if CountersExhausted() {
        StampLocked();
        admission := Refused(CounterExhausted);
        return;
      }
      var change := CurrentChange().(to := target);
      if decision.Adopt? {
        change := original.change;
      }
      op := BeginOperationLocked(change, phase);
      admission := Begun(op.token, change);
    }

    // ---------------------------------------------------------- callbacks

    method InvokeBegin(op: ActiveOperation, change: Change, phase: Phase) returns (started: bool)
      requires Valid() && Holds(op)
      modifies op
      ensures Valid() && (View(), started) == Spec.InvokeBegin(old(View()), op.token, change, phase)
    {
      hide Spec.InvokeBegin;
      Reads(op);
      InvokeFields(View(), op.token, change, phase);
      if !Owns(op) || mode != Executing {
        return false;
      }
      op.change, op.phase := change, phase;
      op.callbacks := op.callbacks + 1;
      OneToken(op);
      started := true;
    }

    /** One callback of `op` less. */
    method DropCallback(op: ActiveOperation)
      requires Valid() && Holds(op)
      modifies op
      ensures Valid() && op.Value() == Spec.OpOf(old(View()), op.token).(callbacks := old(op.callbacks) - 1)
      ensures old(op.callbacks) == Spec.OpOf(old(View()), op.token).callbacks
      ensures View() == old(View()).(ops := old(View()).ops[op.token := op.Value()])
    {
      Reads(op);
      op.callbacks := op.callbacks - 1;
      OneToken(op);
    }

    method CallbackReturnedLocked(op: ActiveOperation?)
      requires Valid() && (op != null ==> Holds(op))
      modifies op, `operation
      ensures Valid() && View() == Spec.CallbackReturned(old(View()), Owner(op))
    {
      if op == null {
        return;
      }
      ghost var s := View();
      DropCallback(op);
      ghost var dropped := View();
      hide Spec.CallbackReturned;
      ReturnFields(s, Some(op.token), op.Value());
      if operation == op && op.returned && op.callbacks == 0 {
        operation := null;
        assert View().ops == dropped.ops;
      }
    }

    method Abandon(op: ActiveOperation)
      requires Valid() && Holds(op)
      modifies op
      ensures Valid() && View() == Spec.Abandon(old(View()), op.token)
    {
      Reads(op);
      op.abandoned := true;
      OneToken(op);
    }

    method OperationReturned(op: ActiveOperation)
      requires Valid() && Holds(op)
      modifies op, `operation
      ensures Valid() && View() == Spec.OperationReturned(old(View()), op.token)
    {
      Reads(op);
      op.returned := true;
      if operation == op && op.callbacks == 0 {
        operation := null;
      }
      OneToken(op);
    }

    method ReportingReturned()
      requires Valid()
      modifies `reporting
      ensures Valid() && View() == Spec.ReportingReturned(old(View()))
    {
      reporting := reporting - 1;
    }

    /** deliverAdapter's first critical section. */
    method Acquire(gate: DeliveryGate, op: ActiveOperation?, journal: bool) returns (acquired: bool)
      requires Valid() && (op != null ==> Holds(op)) && gate == (if journal then journalGate else recorderGate)
      modifies gate, op, `journalRunning, `recorderRunning
      ensures Valid()
      ensures (View(), acquired) == Spec.Acquire(old(View()), if journal then Gate.Journal else Gate.Recorder, Owner(op))
    {
      hide Spec.Acquire, Borrowed;
      AcquireFields(View(), journal, Owner(op));
      if gate.busy {
        return false;
      }
      BorrowToken(op);
      OccupyGate(gate, journal);
      acquired := true;
    }

    /** The gate is held by its adapter's callback. */
    method OccupyGate(gate: DeliveryGate, journal: bool)
      requires Valid() && gate == (if journal then journalGate else recorderGate)
      modifies gate, `journalRunning, `recorderRunning
      ensures Valid() && tokens == old(tokens)
      ensures View() == if journal then old(View()).(journalBusy := true, journalRunning := true)
        else old(View()).(recorderBusy := true, recorderRunning := true)
    {
      gate.busy := true;
      if journal {
        journalRunning := true;
      } else {
        recorderRunning := true;
      }
      NoToken();
    }

    /** A delivery counts as a callback of the operation it borrows. */
    method BorrowToken(op: ActiveOperation?)
      requires Valid() && (op != null ==> Holds(op))
      modifies op
      ensures Valid() && tokens == old(tokens) && View() == old(View()).(ops := Borrowed(old(View()), Owner(op)))
    {
      if op != null {
        Reads(op);
        op.callbacks := op.callbacks + 1;
        OneToken(op);
      }
    }

    /** The end of an adapter callback, its gate released under the same lock. */
    method Release(gate: DeliveryGate, op: ActiveOperation?, journal: bool)
      requires Valid() && (op != null ==> Holds(op)) && gate == (if journal then journalGate else recorderGate)
      modifies gate, op, `operation, `journalRunning, `recorderRunning
      ensures Valid()
      ensures View() == Spec.Release(old(View()), if journal then Gate.Journal else Gate.Recorder, Owner(op))
    {
      hide Spec.CallbackReturned;
      CallbackReturnedLocked(op);
      ghost var returned := View();
      if journal {
        journalRunning := false;
      } else {
        recorderRunning := false;
      }
      gate.busy := false;
      assert View().ops == returned.ops;
    }

    // ---------------------------------------------------------- decisions

    method PrepareBegin(op: ActiveOperation, change: Change, now: Time) returns (prepared: bool)
      requires Valid() && Holds(op)
      modifies op
      ensures Valid() && (View(), prepared) == Spec.PrepareBegin(old(View()), op.token, change, now)
    {
      Reads(op);
      if !Owns(op) || mode != Executing {
        return false;
      }
      op.phase := IssuePhase;
      op.issuedAt := now;
      op.change := change;
      OneToken(op);
      prepared := true;
    }

    method AwaitVerification(op: ActiveOperation, change: Change, row: Row, timeout: nat, now: Time) returns (waiting: bool)
      requires Valid() && Holds(op)
      modifies `pending, `mode, `nextRecord
      ensures Valid() && (View(), waiting) == Spec.AwaitVerification(old(View()), op.token, change, row, timeout, now)
    {
      Reads(op);
      if !Owns(op) || mode != Executing {
        StampLocked();
        return false;
      }
      var deadline := now + timeout;
      pending := Some(Pending(change, row, op.issuedAt, deadline, op.token));
      mode := AwaitingVerification;
      NoToken();
      StampLocked();
      waiting := true;
    }

    method MoveState(to: State)
      requires Valid()
      modifies `state, `revision, `pending, `mode
      ensures var s := old(View());
        Valid() && View() == s.(state := to, revision := Inc64(s.revision), pending := None, mode := Ready)
    {
      state := to;
      revision := Inc64(revision);
      pending := None;
      mode := Ready;
      NoToken();
    }

    method Commit(op: ActiveOperation, change: Change, issued: bool, now: Time) returns (committed: bool)
      requires Valid() && Holds(op)
      modifies this, op
      ensures Valid() && (View(), committed) == Spec.Commit(machine, old(View()), op.token, change, issued, now)
    {
      hide Spec.Latch;
      Reads(op);
      if !Owns(op) || mode != Executing {
        StampLocked();
        return false;
      }
      if revision == MAX_UINT64 {
        var _ := LatchLocked(op, change, CommitPhase, COUNTER_EXHAUSTED, issued, now);
        StampLocked();
        return false;
      }
      MoveState(change.to);
      StampLocked();
      committed := true;
    }

    method FinishReady(op: ActiveOperation) returns (finished: bool)
      requires Valid() && Holds(op)
      modifies `mode, `nextRecord
      ensures Valid() && (View(), finished) == Spec.FinishReady(old(View()), op.token)
    {
      Reads(op);
      if !Owns(op) || mode != Executing {
        StampLocked();
        return false;
      }
      mode := Ready;
      NoToken();
      StampLocked();
      finished := true;
    }

    method RestoreFault(op: ActiveOperation, original: Fault)
      requires Valid() && Holds(op)
      modifies op, `fault, `mode, `nextRecord
      ensures Valid() && View() == Spec.RestoreFault(old(View()), op.token, original)
    {
      Reads(op);
      if !Owns(op) {
        StampLocked();
        return;
      }
      op.revoked := true;
      fault := Some(original);
      mode := Faulted;
      OneToken(op);
      StampLocked();
    }

    /** Moves where the decision says and clears the fault. */
    method ClearFault(decision: Decision, target: State)
      requires Valid()
      modifies `state, `revision, `fault, `mode
      ensures Valid() && View() == Resolved(old(View()), decision, target)
    {
      if !decision.Retain? {
        state := target;
        revision := Inc64(revision);
      }
      fault := None;
      mode := Ready;
      NoToken();
    }

    /** The last critical section of adjudication. */
    method Resolve(op: ActiveOperation, original: Fault, decision: Decision, target: State) returns (resolved: bool)
      requires Valid() && Holds(op)
      modifies `state, `revision, `fault, `mode, `nextRecord
      ensures Valid() && (View(), resolved) == Spec.Resolve(old(View()), op.token, original, decision, target)
    {
      hide Spec.Stamp, Spec.Resolve, Spec.OpOf, Resolved;
      ghost var s := View();
      Reads(op);
      if !Owns(op) || mode != Executing || fault != Some(original) {
        ResolveRefused(s, op.token, original, decision, target);
        StampLocked();
        return false;
      }
      ResolveAccepted(s, op.token, original, decision, target);
      ClearFault(decision, target);
      StampLocked();
      resolved := true;
    }

    /** latchResult: the call of `op` failed. */
    method LatchResult(op: ActiveOperation, change: Change, phase: Phase, cause: nat, uncertain: bool, now: Time)
      returns (created: bool)
      requires Valid() && Holds(op)
      modifies this, operation
      ensures Valid()
      ensures var r := Spec.Latch(machine, old(View()), Some(op.token), change, phase, cause, uncertain, now);
        View() == Spec.Stamp(r.0) && created == r.1
    {
      hide Spec.Latch;
      Reads(op);
      created := LatchLocked(op, change, phase, cause, uncertain, now);
      StampLocked();
    }

    /** The report of a fault excludes admission until it is published. */
    method ReserveReporting()
      requires Valid()
      modifies `reporting
      ensures Valid() && View() == old(View()).(reporting := old(reporting) + 1)
    {
      reporting := reporting + 1;
      NoToken();
    }

    /** What Trip attributes its fault to: the live operation, the pending change, or the present state. */
    lemma Attributes(change: Change, phase: Phase)
      requires Valid()
      requires (change, phase) ==
        if mode == Executing && operation != null then (operation.change, operation.phase)
        else if mode == AwaitingVerification && pending.Some? then (pending.value.change, VerifyPhase)
        else (CurrentChange(), TripPhase)
      ensures (change, phase) == Spec.TripSubject(View())
    {
      ReadsOwner();
    }

    method Trip(cause: nat, now: Time) returns (created: bool)
      requires Valid()
      modifies this, operation
      ensures Valid() && (View(), created) == Spec.Trip(machine, old(View()), cause, now)
    {
      hide Spec.Latch, Spec.TripSubject;
      var change, phase := CurrentChange(), TripPhase;
      if mode == Executing && operation != null {
        change, phase := operation.change, operation.phase;
      } else if mode == AwaitingVerification && pending.Some? {
        change, phase := pending.value.change, VerifyPhase;
      }
      Attributes(change, phase);
      created := LatchLocked(null, change, phase, cause, true, now);
      StampLocked();
      ReserveReporting();
    }

    method ExpireVerificationLocked(now: Time)
      requires Valid() && pending.Some?
      modifies this, operation
      ensures Valid() && tokens == old(tokens) && View() == Spec.Expire(machine, old(View()), now)
    {
      hide Spec.Latch;
      var _ := LatchLocked(null, pending.value.change, VerifyPhase, VERIFICATION_TIMEOUT, true, now);
      StampLocked();
      ReserveReporting();
    }

    /** A timer notification for the operation that armed it. */
    method VerificationExpired(sequence: nat, version: nat, now: Time) returns (fired: bool)
      requires Valid()
      modifies this, operation
      ensures Valid() && (View(), fired) == Spec.TimerFired(machine, old(View()), sequence, version, now)
    {
      if mode != AwaitingVerification || pending.None?
         || pending.value.change.id != sequence || pending.value.version != version
      {
        return false;
      }
      if now < pending.value.deadline {
        return false;
      }
      ExpireVerificationLocked(now);
      fired := true;
    }

    method SnapshotLocked(now: Time) returns (snap: Snapshot)
      requires Valid()
      ensures snap == Spec.SnapshotOf(machine, View(), now)
    {
      ReadsOwner();
      snap := Snapshot(
        SNAPSHOT_VERSION, machine.id, exec, inc, restarts, state, revision, attempt, nextRecord, None,
        false, false, false, NoPhase, 0, now);
      if pending.Some? {
        var p := pending.value;
        snap := snap.(inDoubt := true, uncertain := true, pending := Some(Spec.PendingOf(p.change, p.issuedAt, p.deadline)));
      }
      if operation != null && mode == Executing && operation.issuedAt != 0 {
        snap := snap.(inDoubt := true, uncertain := true);
        if snap.pending.None? && operation.change.id != 0 {
          snap := snap.(pending := Some(Spec.PendingOf(operation.change, operation.issuedAt, 0)));
        }
      }
      if fault.Some? {
        var f := fault.value;
        snap := snap.(faulted := true, uncertain := f.uncertain, faultPhase := f.phase, faultCause := f.cause);
        if snap.pending.None? && f.issuedAt != 0 {
          snap := snap.(inDoubt := true, pending := Some(Spec.FaultPending(f)));
        }
      }
    }
  }
}
