/**
 * The whole system: one Supervisor, its durable Journal image, the goroutine of
 * the admitted call, every live callback, and every publication pipeline. Each
 * critical section under the Supervisor's lock is one atomic step; the lock-free code between
 * two critical sections is folded into the step before it. Callback outcomes,
 * cancellation, timers and crashes are choices of the environment.
 */
module SupervisorSystem {
  import opened Basics
  import opened SupervisorTypes
  import opened SupervisorSpec

  datatype Config = Config(journaled: bool, recording: bool, timeout: nat)

  datatype Kind = StartCall | IssueCall | VerifyCall | AdjudicateCall(decision: Decision, target: State, original: Fault, phase: Phase)

  /** Where the goroutine of an admitted call is. */
  datatype Pc =
    | ReconcileAt(k: nat) | PreconditionAt(k: nat) | SelectAt(k: nat) | RowCheckAt(k: nat)
    | InvariantAt(k: nat) | PostconditionAt(k: nat)
    | PrepareAt | DeliverAt | IssueAt | AwaitAt | VerifyAt | CommitAt | FinishAt | ResolveAt
    | FailAt(change: Change, phase: Phase, uncertain: bool) | RestoreFaultAt

  /** How a callback ended: nil, an ordinary error, or a panic or Goexit. */
  datatype Outcome = Passed | Failed | Panicked

  /** One consumed callback outcome. */
  datatype Mark = Mark(at: Pc, change: Change, passed: bool)

  /** `attempt` is the change before selection; `change` the current one with its row at index `pick`;
      `waiting` is the callback awaited, `inbox` its published outcome; `overtaken` says that the outcome
      of a guard was consumed after cancellation, so the call knows that it is cancelled. */
  datatype Call = Call(
    kind: Kind, attempt: Change, change: Change, pick: nat, row: Row, pc: Pc, cancelled: bool, overtaken: bool,
    waiting: Option<nat>, inbox: Option<Outcome>, trace: seq<Mark>, admittedAt: Time, deadline: Time)

  const NO_ROW := Row(0, 0, 0, 0, false, 0, false)

  datatype Live =
    | App(op: nat, at: Pc, change: Change, late: bool)
    | JournalWrite(owner: Option<nat>, preparing: bool, snap: Option<Snapshot>, saved: bool)
    | RecorderWrite(owner: Option<nat>)

  function OwnerOf(l: Live): Option<nat> {
    match l
    case App(op, _, _, _) => Some(op)
    case JournalWrite(owner, _, _, _) => owner
    case RecorderWrite(owner) => owner
  }

  datatype PubKind = Refusal | Returning(op: nat) | Reporting(borrowed: Option<nat>) | LateCause(callback: nat, op: nat)

  datatype Stage = JournalDue | JournalPending(callback: nat) | RecordDue(closing: bool) | RecordPending(closing: bool) | ReturnDue

  /** One publication pipeline: journal closure, then the record, then the return. */
  datatype Pub = Pub(kind: PubKind, durable: bool, stage: Stage) {
    function Owner(): Option<nat> {
      match kind
      case Refusal => None
      case Returning(op) => Some(op)
      case Reporting(borrowed) => borrowed
      case LateCause(_, op) => Some(op)
    }
  }

  datatype CommitRecord = CommitRecord(change: Change, pick: nat, row: Row, trace: seq<Mark>, admittedAt: Time, deadline: Time)

  /** Ghost history over all incarnations. */
  datatype History = History(
    started: set<AttemptId>, resolved: set<AttemptId>, commits: seq<CommitRecord>,
    primary: set<nat>, secondary: set<nat>, incarnations: set<Id>)

  /** How the change awaiting verification came to be issued. */
  datatype Awaited = Awaited(trace: seq<Mark>, pick: nat)

  datatype Sys = Sys(
    m: Machine, cfg: Config, running: bool, sup: Sup, calls: map<nat, Call>, live: map<nat, Live>,
    pubs: map<nat, Pub>, nextId: nat, now: Time, image: Option<Snapshot>, awaited: Awaited, h: History)

  datatype Step =
    | Tick(time: Time) | Cancel(op: nat)
    | RefuseNilContext | CallStart | CallIssue(event: Event) | CallVerify(attempt: AttemptId)
    | CallAdjudicate(decision: Decision, adjudicating: bool)
    | InvokeFailFast(op: nat) | Invoke(op: nat) | Cleanup(callback: nat, outcome: Outcome) | Consume(op: nat) | GiveUp(op: nat)
    | PrepareCall(op: nat) | PrepareAcquire(op: nat) | PrepareConsume(op: nat) | PrepareTimeout(op: nat)
    | JournalCapture(callback: nat) | JournalSave(callback: nat) | JournalFinish(callback: nat, ok: bool)
    | RecorderFinish(callback: nat)
    | ContextFailure(op: nat) | AwaitCall(op: nat) | CommitCall(op: nat) | FinishCall(op: nat)
    | LatchCall(op: nat, cause: nat) | ResolveCall(op: nat) | RestoreFaultCall(op: nat)
    | TripCall(cause: nat) | Timer(sequence: nat, version: nat)
    | PubJournal(pub: nat, expired: bool) | PubJournalDone(pub: nat, ok: bool) | PubRecord(pub: nat) | PubProceed(pub: nat) | PubReturn(pub: nat)
    | Crash | RestoreImage(inc: Id) | Boot(exec: Id)

  // ---------------------------------------------- the sequential code of a call

  predicate Invokable(pc: Pc) {
    pc.ReconcileAt? || pc.PreconditionAt? || pc.SelectAt? || pc.RowCheckAt? || pc.InvariantAt? || pc.PostconditionAt?
    || pc.IssueAt? || pc.VerifyAt?
  }

  /** Positions between durable preparation and the decision to await verification. */
  predicate Reaching(pc: Pc) {
    pc.DeliverAt? || pc.IssueAt? || pc.AwaitAt?
  }

  function Candidate(attempt: Change, row: Row): Change {
    attempt.(transition := row.id, to := row.to)
  }

  /** The change as it was before a row was selected. */
  function Unselected(change: Change): Change {
    change.(transition := 0, to := change.from)
  }

  function PhaseAt(c: Call): Phase {
    match c.pc
    case ReconcileAt(_) => if c.kind.AdjudicateCall? then c.kind.phase else StartPhase
    case PreconditionAt(_) => PreconditionPhase
    case SelectAt(_) => GuardPhase
    case RowCheckAt(_) => PreconditionPhase
    case InvariantAt(_) => InvariantPhase
    case PostconditionAt(_) => PostconditionPhase
    case IssueAt => IssuePhase
    case VerifyAt => VerifyPhase
    case _ => NoPhase
  }

  /** The change handed to the callback at the call's position. */
  function ChangeAt(m: Machine, c: Call): Change {
    var rows := m.RowsFor(c.attempt.from, c.attempt.event);
    if c.pc.SelectAt? && c.pc.k < |rows| then Candidate(c.attempt, rows[c.pc.k]) else c.change
  }

  function ToReconcile(m: Machine, c: Call, k: nat): Call {
    c.(pc := if k < m.reconcilers then ReconcileAt(k) else if c.kind.AdjudicateCall? then ResolveAt else FinishAt)
  }

  function ToPrecondition(m: Machine, c: Call, k: nat): Call {
    if k < m.preconditions then c.(pc := PreconditionAt(k)) else ToSelect(m, c, 0)
  }

  /** Candidate row `k`, chosen outright when it has no guard. */
  function ToSelect(m: Machine, c: Call, k: nat): Call {
    var rows := m.RowsFor(c.attempt.from, c.attempt.event);
    if k >= |rows| then c.(pc := FinishAt)
    else if rows[k].guarded then c.(pc := SelectAt(k))
    else Chosen(m, c, k, rows[k])
  }

  function Chosen(m: Machine, c: Call, k: nat, row: Row): Call {
    ToRowCheck(m, c.(pick := k, row := row, change := Candidate(c.attempt, row)), 0)
  }

  function ToRowCheck(m: Machine, c: Call, k: nat): Call {
    if k < c.row.checks then c.(pc := RowCheckAt(k)) else ToInvariant(m, c, 0)
  }

  function ToInvariant(m: Machine, c: Call, k: nat): Call {
    if k < m.invariants then c.(pc := InvariantAt(k))
    else if c.kind.IssueCall? && c.row.external then c.(pc := PrepareAt)
    else ToPostcondition(m, c, 0)
  }

  function ToPostcondition(m: Machine, c: Call, k: nat): Call {
    c.(pc := if k < m.postconditions then PostconditionAt(k) else CommitAt)
  }

  /** The call after its callback at `c.pc` returned nil in time. */
  function OnPass(m: Machine, c0: Call): Call {
    var c := c0.(waiting := None, inbox := None, trace := c0.trace + [Mark(c0.pc, ChangeAt(m, c0), true)]);
    match c.pc
    case ReconcileAt(k) => ToReconcile(m, c, k + 1)
    case PreconditionAt(k) => ToPrecondition(m, c, k + 1)
    case SelectAt(k) =>
      var rows := m.RowsFor(c.attempt.from, c.attempt.event);
      if k < |rows| then Chosen(m, c, k, rows[k]) else c
    case RowCheckAt(k) => ToRowCheck(m, c, k + 1)
    case InvariantAt(k) => ToInvariant(m, c, k + 1)
    case PostconditionAt(k) => ToPostcondition(m, c, k + 1)
    case DeliverAt => c.(pc := IssueAt)
    case IssueAt => c.(pc := AwaitAt)
    case VerifyAt => ToInvariant(m, c, 0)
    case _ => c
  }

  /** The call after invoke failed; `completed` distinguishes an ordinary return. */
  function OnFail(m: Machine, c0: Call, completed: bool): Call {
    var c := c0.(waiting := None, inbox := None);
    var verifying := c.kind.VerifyCall?;
    match c.pc
    case ReconcileAt(_) => if c.kind.AdjudicateCall? then c.(pc := RestoreFaultAt) else c.(pc := FailAt(c.change, StartPhase, true))
    case PreconditionAt(_) => c.(pc := FailAt(c.change, PreconditionPhase, false))
    case SelectAt(k) =>
      if completed then
        ToSelect(m, c.(trace := c.trace + [Mark(c.pc, ChangeAt(m, c0), false)], overtaken := c.overtaken || c.cancelled), k + 1)
      else c.(pc := FailAt(ChangeAt(m, c0), GuardPhase, false))
    case RowCheckAt(_) => c.(pc := FailAt(c.change, PreconditionPhase, false))
    case InvariantAt(_) => c.(pc := FailAt(c.change, InvariantPhase, verifying))
    case PostconditionAt(_) => c.(pc := FailAt(c.change, PostconditionPhase, verifying))
    case PrepareAt => c.(pc := FailAt(c.change, IssuePhase, false))
    case DeliverAt => c.(pc := FailAt(c.change, IssuePhase, false))
    case IssueAt => c.(pc := FailAt(c.change, IssuePhase, true))
    case VerifyAt => c.(pc := FailAt(c.change, VerifyPhase, true))
    case _ => c
  }

  /** The call after it found its own context cancelled between callbacks. */
  function OnContextFailure(c: Call): Call {
    match c.pc
    case AwaitAt => c.(pc := FailAt(c.change, IssuePhase, true))
    case CommitAt => c.(pc := FailAt(c.change, CommitPhase, c.kind.VerifyCall?))
    case FinishAt => if c.kind.StartCall? then c.(pc := FailAt(c.change, StartPhase, true)) else c.(pc := FailAt(c.change, SelectionPhase, false))
    case ResolveAt => c.(pc := RestoreFaultAt)
    case _ => c
  }

  // ------------------------------------------------------------------ effects

  function NewCall(kind: Kind, change: Change): Call {
    Call(kind, change, change, 0, NO_ROW, FinishAt, false, false, None, None, [], 0, 0)
  }

  function AddPub(c: Sys, pub: Pub): Sys {
    c.(pubs := c.pubs[c.nextId := pub], nextId := c.nextId + 1)
  }

  /** The call of `o` reached its decision and starts publishing it. */
  function Decide(c: Sys, o: nat, sup: Sup, durable: bool): Sys {
    AddPub(c.(sup := sup, calls := c.calls - {o}), Pub(Returning(o), durable, JournalDue))
  }

  /** Installs the outcome of an admission; `admitted` is the call to run. */
  function Admitted(c: Sys, result: (Sup, Admission), admitted: Call): Sys {
    var c' := c.(sup := result.0);
    match result.1
    case Refused(_) => AddPub(c', Pub(Refusal, false, JournalDue))
    case Begun(o, change) => c'.(calls := c.calls[o := admitted])
    case Exhausted(o, change, phase, uncertain) =>
      c'.(calls := c.calls[o := admitted.(pc := FailAt(change, phase, uncertain))])
    case Expired => AddPub(c', Pub(Reporting(c.sup.operation), c.sup.fault.None?, JournalDue))
  }

  function ChangeOf(a: Admission): Change {
    if a.Begun? || a.Exhausted? then a.change else NO_CHANGE
  }

  function DoStart(c: Sys): Sys {
    var r := AdmitStart(c.sup);
    Admitted(c, r, ToReconcile(c.m, NewCall(StartCall, ChangeOf(r.1)), 0))
  }

  function DoIssue(c: Sys, event: Event): Sys {
    var r := AdmitIssue(c.m, c.sup, event, c.now);
    Admitted(c, r, ToPrecondition(c.m, NewCall(IssueCall, ChangeOf(r.1)), 0))
  }

  /** The call an admitted Verify starts with. */
  function VerifyStart(c: Sys, a: Admission): Call {
    var pending := if c.sup.pending.Some? then c.sup.pending.value else Pending(NO_CHANGE, NO_ROW, 0, 0, 0);
    NewCall(VerifyCall, ChangeOf(a)).(
      attempt := Unselected(ChangeOf(a)), pick := c.awaited.pick, row := pending.row, pc := VerifyAt,
      trace := c.awaited.trace, admittedAt := c.now, deadline := pending.deadline)
  }

  function DoVerify(c: Sys, attempt: AttemptId): Sys {
    var r := AdmitVerify(c.m, c.sup, attempt, c.now);
    Admitted(c, r, VerifyStart(c, r.1))
  }

  /** The call an admitted adjudication starts with. */
  function AdjudicateStart(c: Sys, a: Admission, decision: Decision, phase: Phase): Call {
    if a.Begun? && c.sup.fault.Some? then
      var target := DecisionTarget(c.m, c.sup, c.sup.fault.value, decision);
      ToReconcile(c.m, NewCall(AdjudicateCall(decision, if target.Some? then target.value else 0, c.sup.fault.value, phase), a.change), 0)
    else NewCall(StartCall, NO_CHANGE)
  }

  function DoAdjudicate(c: Sys, decision: Decision, adjudicating: bool): Sys {
    var phase := if adjudicating then AdjudicatePhase else RecoverPhase;
    var outcome := if adjudicating then decision else Retain;
    var r := AdmitAdjudicate(c.m, c.sup, outcome, phase);
    Admitted(c, r, AdjudicateStart(c, r.1, outcome, phase))
  }

  function DoInvoke(c: Sys, o: nat): Sys requires o in c.calls {
    var call := c.calls[o];
    var change := ChangeAt(c.m, call);
    var (sup, ok) := InvokeBegin(c.sup, o, change, PhaseAt(call));
    if !ok then c.(calls := c.calls[o := OnFail(c.m, call, false)])
    else
      c.(sup := sup, live := c.live[c.nextId := App(o, call.pc, change, false)], nextId := c.nextId + 1,
         calls := c.calls[o := call.(waiting := Some(c.nextId), inbox := None)],
         h := if call.pc.IssueAt? then c.h.(started := c.h.started + {change.Identifier()}) else c.h)
  }

  function Deliver(c: Sys, o: nat, callback: nat, outcome: Outcome): map<nat, Call> {
    if o in c.calls && c.calls[o].waiting == Some(callback) then c.calls[o := c.calls[o].(inbox := Some(outcome))] else c.calls
  }

  /** The callback goroutine's deferred cleanup: publish, or record a secondary cause. */
  function DoCleanup(c: Sys, k: nat, outcome: Outcome): Sys requires k in c.live && c.live[k].App? {
    var app := c.live[k];
    if OpOf(c.sup, app.op).abandoned && !outcome.Passed? then
      AddPub(c.(sup := Stamp(c.sup), live := c.live[k := app.(late := true)], h := c.h.(secondary := c.h.secondary + {k})),
             Pub(LateCause(k, app.op), false, RecordDue(false)))
    else
      c.(sup := CallbackReturned(c.sup, Some(app.op)), live := c.live - {k}, calls := Deliver(c, app.op, k, outcome))
  }

  function DoConsume(c: Sys, o: nat): Sys
    requires o in c.calls && c.calls[o].waiting.Some? && c.calls[o].inbox.Some?
  {
    var call := c.calls[o];
    var outcome := call.inbox.value;
    var call' := if outcome.Passed? && !call.cancelled then OnPass(c.m, call) else OnFail(c.m, call, !outcome.Panicked?);
    c.(calls := c.calls[o := call'], h := c.h.(primary := c.h.primary + {call.waiting.value}))
  }

  function DoGiveUp(c: Sys, o: nat): Sys requires o in c.calls {
    c.(sup := Abandon(c.sup, o), calls := c.calls[o := OnFail(c.m, c.calls[o], false)])
  }

  function DoPrepare(c: Sys, o: nat): Sys requires o in c.calls {
    var call := c.calls[o];
    var (sup, ok) := PrepareBegin(c.sup, o, call.change, c.now);
    if !ok then c.(calls := c.calls[o := OnFail(c.m, call, false)])
    else if c.cfg.journaled then c.(sup := sup, calls := c.calls[o := call.(pc := DeliverAt, inbox := None)])
    else c.(sup := sup, calls := c.calls[o := OnPass(c.m, call.(pc := DeliverAt))])
  }

  function DoPrepareAcquire(c: Sys, o: nat): Sys requires o in c.calls {
    var call := c.calls[o];
    var (sup, ok) := Acquire(c.sup, Journal, Some(o));
    if !ok then c.(calls := c.calls[o := OnFail(c.m, call, false)])
    else
      c.(sup := sup, live := c.live[c.nextId := JournalWrite(Some(o), true, None, false)], nextId := c.nextId + 1,
         calls := c.calls[o := call.(waiting := Some(c.nextId), inbox := None)])
  }

  function DoPrepareConsume(c: Sys, o: nat): Sys requires o in c.calls && c.calls[o].inbox.Some? {
    var call := c.calls[o];
    c.(calls := c.calls[o := if call.inbox.value.Passed? then OnPass(c.m, call) else OnFail(c.m, call, false)])
  }

  /** The journal callback captures the snapshot it will write, under the lock. */
  function DoCapture(c: Sys, k: nat): Sys requires k in c.live && c.live[k].JournalWrite? {
    c.(live := c.live[k := c.live[k].(snap := Some(SnapshotOf(c.m, c.sup, c.now)))])
  }

  function DoSave(c: Sys, k: nat): Sys requires k in c.live && c.live[k].JournalWrite? {
    c.(image := c.live[k].snap, live := c.live[k := c.live[k].(saved := true)])
  }

  function DoJournalFinish(c: Sys, k: nat, ok: bool): Sys requires k in c.live && c.live[k].JournalWrite? {
    var owner := c.live[k].owner;
    c.(sup := Release(c.sup, Journal, owner), live := c.live - {k},
       calls := if owner.Some? then Deliver(c, owner.value, k, if ok then Passed else Failed) else c.calls)
  }

  function DoRecorderFinish(c: Sys, k: nat): Sys requires k in c.live && c.live[k].RecorderWrite? {
    c.(sup := Release(c.sup, Recorder, c.live[k].owner), live := c.live - {k})
  }

  function DoAwait(c: Sys, o: nat): Sys requires o in c.calls {
    var call := c.calls[o];
    var (sup, ok) := AwaitVerification(c.sup, o, call.change, call.row, c.cfg.timeout, c.now);
    Decide(if ok then c.(awaited := Awaited(call.trace, call.pick)) else c, o, sup, false)
  }

  function DoCommit(c: Sys, o: nat): Sys requires o in c.calls {
    var call := c.calls[o];
    var (sup, ok) := Commit(c.m, c.sup, o, call.change, call.kind.VerifyCall?, c.now);
    var record := CommitRecord(call.change, call.pick, call.row, call.trace, call.admittedAt, call.deadline);
    var h := if !ok then c.h
      else c.h.(commits := c.h.commits + [record],
                resolved := if call.kind.VerifyCall? then c.h.resolved + {call.change.Identifier()} else c.h.resolved);
    Decide(c.(h := h), o, sup, ok || (c.sup.fault.None? && sup.fault.Some?))
  }

  function DoFinish(c: Sys, o: nat): Sys requires o in c.calls {
    var (sup, ok) := FinishReady(c.sup, o);
    Decide(c, o, sup, ok)
  }

  function DoLatch(c: Sys, o: nat, cause: nat): Sys requires o in c.calls && c.calls[o].pc.FailAt? {
    var pc := c.calls[o].pc;
    var (sup, created) := Latch(c.m, c.sup, Some(o), pc.change, pc.phase, cause, pc.uncertain, c.now);
    Decide(c, o, Stamp(sup), created)
  }

  function DoResolve(c: Sys, o: nat): Sys requires o in c.calls && c.calls[o].kind.AdjudicateCall? {
    var kind := c.calls[o].kind;
    var (sup, ok) := Resolve(c.sup, o, kind.original, kind.decision, kind.target);
    var h := if ok && kind.original.issuedAt != 0
      then c.h.(resolved := c.h.resolved + {FaultPending(kind.original).attempt}) else c.h;
    Decide(c.(h := h), o, sup, ok)
  }

  function DoRestoreFault(c: Sys, o: nat): Sys requires o in c.calls && c.calls[o].kind.AdjudicateCall? {
    Decide(c, o, RestoreFault(c.sup, o, c.calls[o].kind.original), false)
  }

  function DoTrip(c: Sys, cause: nat): Sys {
    var (sup, created) := Trip(c.m, c.sup, cause, c.now);
    AddPub(c.(sup := sup), Pub(Reporting(c.sup.operation), created, JournalDue))
  }

  function DoTimer(c: Sys, attempt: nat, version: nat): Sys {
    var (sup, fired) := TimerFired(c.m, c.sup, attempt, version, c.now);
    if fired then AddPub(c.(sup := sup), Pub(Reporting(c.sup.operation), c.sup.fault.None?, JournalDue)) else c
  }

  function SetStage(c: Sys, p: nat, stage: Stage): Sys requires p in c.pubs {
    c.(pubs := c.pubs[p := c.pubs[p].(stage := stage)])
  }

  /** An adapter callback of a publication starts, accounted to `owner`. */
  function Borrow(c: Sys, owner: Option<nat>, gate: Gate): Sys {
    c.(sup := Acquire(c.sup, gate, owner).0, nextId := c.nextId + 1,
       live := c.live[c.nextId := if gate.Journal? then JournalWrite(owner, false, None, false) else RecorderWrite(owner)])
  }

  /** closeJournalAfter: only durable outcomes of a journaled Supervisor are written. */
  function DoPubJournal(c: Sys, p: nat, expired: bool): Sys requires p in c.pubs {
    var pub := c.pubs[p];
    if !pub.durable || !c.cfg.journaled then SetStage(c, p, RecordDue(false))
    else if expired || !Acquire(c.sup, Journal, pub.Owner()).1 then SetStage(c.(sup := Stamp(c.sup)), p, RecordDue(true))
    else SetStage(Borrow(c, pub.Owner(), Journal), p, JournalPending(c.nextId))
  }

  function DoPubJournalDone(c: Sys, p: nat, ok: bool): Sys requires p in c.pubs {
    if ok then SetStage(c, p, RecordDue(false)) else SetStage(c.(sup := Stamp(c.sup)), p, RecordDue(true))
  }

  function AfterRecord(closing: bool): Stage {
    if closing then RecordDue(false) else ReturnDue
  }

  function DoPubRecord(c: Sys, p: nat): Sys requires p in c.pubs && c.pubs[p].stage.RecordDue? {
    var pub := c.pubs[p];
    if !c.cfg.recording || !Acquire(c.sup, Recorder, pub.Owner()).1 then SetStage(c, p, AfterRecord(pub.stage.closing))
    else SetStage(Borrow(c, pub.Owner(), Recorder), p, RecordPending(pub.stage.closing))
  }

  function DoPubReturn(c: Sys, p: nat): Sys requires p in c.pubs {
    var done := c.(pubs := c.pubs - {p});
    match c.pubs[p].kind
    case Refusal => done
    case Returning(o) => done.(sup := OperationReturned(c.sup, o))
    case Reporting(_) => done.(sup := ReportingReturned(c.sup))
    case LateCause(k, o) => done.(sup := CallbackReturned(c.sup, Some(o)), live := c.live - {k})
  }

  function DoCrash(c: Sys): Sys {
    c.(running := false, calls := map[], live := map[], pubs := map[])
  }

  function DoRestore(c: Sys, inc: Id): Sys requires c.image.Some? {
    var r := Restore(c.m, c.image.value, inc);
    if r.Rejected? then c
    else c.(running := true, sup := r.sup, h := c.h.(incarnations := c.h.incarnations + {inc}))
  }

  function DoBoot(c: Sys, exec: Id): Sys {
    c.(running := true, sup := NewSupervisor(c.m, exec), h := c.h.(incarnations := c.h.incarnations + {exec}))
  }

  // -------------------------------------------------------------------- steps

  predicate At(c: Sys, o: nat) {
    o in c.calls && c.calls[o].waiting.None?
  }

  /** Starting a public call. */
  predicate Admits(step: Step) {
    step.CallStart? || step.CallIssue? || step.CallVerify? || step.CallAdjudicate?
  }

  function ExecAdmit(c: Sys, step: Step): Sys
    requires Admits(step)
  {
    match step
    case CallStart => DoStart(c)
    case CallIssue(event) => DoIssue(c, event)
    case CallVerify(attempt) => DoVerify(c, attempt)
    case CallAdjudicate(decision, adjudicating) => DoAdjudicate(c, decision, adjudicating)
  }

  /** Moving an admitted call from one callback to the next. */
  predicate Moves(step: Step) {
    step.InvokeFailFast? || step.Invoke? || step.Consume? || step.GiveUp? || step.PrepareCall? || step.PrepareAcquire?
    || step.PrepareConsume? || step.PrepareTimeout? || step.ContextFailure?
  }

  predicate CanMove(c: Sys, step: Step)
    requires Moves(step)
  {
    var o := step.op;
    && o in c.calls
    && var call := c.calls[o];
       match step
       case InvokeFailFast(_) => At(c, o) && Invokable(call.pc) && call.cancelled
       case Invoke(_) => At(c, o) && Invokable(call.pc) && !call.overtaken
       case Consume(_) => Invokable(call.pc) && call.waiting.Some? && call.inbox.Some?
       case GiveUp(_) => Invokable(call.pc) && call.waiting.Some? && call.inbox.None? && call.cancelled
       case PrepareCall(_) => At(c, o) && call.pc.PrepareAt?
       case PrepareAcquire(_) => At(c, o) && call.pc.DeliverAt?
       case PrepareConsume(_) => call.pc.DeliverAt? && call.waiting.Some? && call.inbox.Some?
       case PrepareTimeout(_) => call.pc.DeliverAt? && call.cancelled
       case ContextFailure(_) =>
         At(c, o) && call.cancelled && (call.pc.AwaitAt? || call.pc.CommitAt? || call.pc.FinishAt? || call.pc.ResolveAt?)
  }

  function ExecMove(c: Sys, step: Step): Sys
    requires Moves(step) && CanMove(c, step)
  {
    match step
    case InvokeFailFast(o) => c.(calls := c.calls[o := OnFail(c.m, c.calls[o], false)])
    case Invoke(o) => DoInvoke(c, o)
    case Consume(o) => DoConsume(c, o)
    case GiveUp(o) => DoGiveUp(c, o)
    case PrepareCall(o) => DoPrepare(c, o)
    case PrepareAcquire(o) => DoPrepareAcquire(c, o)
    case PrepareConsume(o) => DoPrepareConsume(c, o)
    case PrepareTimeout(o) => c.(calls := c.calls[o := OnFail(c.m, c.calls[o], false)])
    case ContextFailure(o) => c.(calls := c.calls[o := OnContextFailure(c.calls[o])])
  }

  /** The last critical section of an admitted call. */
  predicate Decides(step: Step) {
    step.AwaitCall? || step.CommitCall? || step.FinishCall? || step.LatchCall? || step.ResolveCall? || step.RestoreFaultCall?
  }

  predicate CanDecide(c: Sys, step: Step)
    requires Decides(step)
  {
    var o := step.op;
    && At(c, o)
    && var call := c.calls[o];
       match step
       case AwaitCall(_) => call.pc.AwaitAt? && !call.overtaken
       case CommitCall(_) => call.pc.CommitAt? && !call.overtaken
       case FinishCall(_) => call.pc.FinishAt? && !call.overtaken
       case LatchCall(_, _) => call.pc.FailAt?
       case ResolveCall(_) => call.pc.ResolveAt? && call.kind.AdjudicateCall?
       case RestoreFaultCall(_) => call.pc.RestoreFaultAt? && call.kind.AdjudicateCall?
  }

  function ExecDecide(c: Sys, step: Step): Sys
    requires Decides(step) && CanDecide(c, step)
  {
    match step
    case AwaitCall(o) => DoAwait(c, o)
    case CommitCall(o) => DoCommit(c, o)
    case FinishCall(o) => DoFinish(c, o)
    case LatchCall(o, cause) => DoLatch(c, o, cause)
    case ResolveCall(o) => DoResolve(c, o)
    case RestoreFaultCall(o) => DoRestoreFault(c, o)
  }

  /** What live callbacks do by themselves. */
  predicate Runs(step: Step) {
    step.Cleanup? || step.JournalCapture? || step.JournalSave? || step.JournalFinish? || step.RecorderFinish?
  }

  predicate CanRun(c: Sys, step: Step)
    requires Runs(step)
  {
    var k := step.callback;
    && k in c.live
    && var l := c.live[k];
       match step
       case Cleanup(_, _) => l.App? && !l.late
       case JournalCapture(_) =>
         l.JournalWrite? && l.snap.None?
         && (l.preparing ==> l.owner.Some? && Owns(c.sup, l.owner.value) && c.sup.mode == Executing)
       case JournalSave(_) => l.JournalWrite? && l.snap.Some?
       case JournalFinish(_, ok) => l.JournalWrite? && (ok ==> l.saved)
       case RecorderFinish(_) => l.RecorderWrite?
  }

  function ExecRun(c: Sys, step: Step): Sys
    requires Runs(step) && CanRun(c, step)
  {
    match step
    case Cleanup(k, outcome) => DoCleanup(c, k, outcome)
    case JournalCapture(k) => DoCapture(c, k)
    case JournalSave(k) => DoSave(c, k)
    case JournalFinish(k, ok) => DoJournalFinish(c, k, ok)
    case RecorderFinish(k) => DoRecorderFinish(c, k)
  }

  /** The publication pipelines. */
  predicate Publishes(step: Step) {
    step.PubJournal? || step.PubJournalDone? || step.PubRecord? || step.PubProceed? || step.PubReturn?
  }

  predicate CanPublish(c: Sys, step: Step)
    requires Publishes(step)
  {
    var p := step.pub;
    && p in c.pubs
    && var stage := c.pubs[p].stage;
       match step
       case PubJournal(_, _) => stage.JournalDue?
       case PubJournalDone(_, ok) => stage.JournalPending? && (ok ==> stage.callback !in c.live)
       case PubRecord(_) => stage.RecordDue?
       case PubProceed(_) => stage.RecordPending?
       case PubReturn(_) => stage.ReturnDue?
  }

  function ExecPublish(c: Sys, step: Step): Sys
    requires Publishes(step) && CanPublish(c, step)
  {
    match step
    case PubJournal(p, expired) => DoPubJournal(c, p, expired)
    case PubJournalDone(p, ok) => DoPubJournalDone(c, p, ok)
    case PubRecord(p) => DoPubRecord(c, p)
    case PubProceed(p) => SetStage(c, p, AfterRecord(c.pubs[p].stage.closing))
    case PubReturn(p) => DoPubReturn(c, p)
  }

  /** The process dies and comes back. */
  predicate Reincarnates(step: Step) {
    step.Crash? || step.RestoreImage? || step.Boot?
  }

  predicate CanReincarnate(c: Sys, step: Step)
    requires Reincarnates(step)
  {
    match step
    case Crash => c.running
    case RestoreImage(inc) => !c.running && c.image.Some? && inc != 0 && inc !in c.h.incarnations
    case Boot(exec) => !c.running && c.image.None? && exec != 0 && exec !in c.h.incarnations
  }

  function ExecReincarnate(c: Sys, step: Step): Sys
    requires Reincarnates(step) && CanReincarnate(c, step)
  {
    match step
    case Crash => DoCrash(c)
    case RestoreImage(inc) => DoRestore(c, inc)
    case Boot(exec) => DoBoot(c, exec)
  }

  /** Time, cancellation, refused contexts, trips and timers. */
  predicate Signals(step: Step) {
    step.Tick? || step.Cancel? || step.RefuseNilContext? || step.TripCall? || step.Timer?
  }

  predicate CanSignal(c: Sys, step: Step)
    requires Signals(step)
  {
    match step
    case Tick(time) => c.now <= time
    case Cancel(o) => o in c.calls
    case _ => true
  }

  function ExecSignal(c: Sys, step: Step): Sys
    requires Signals(step) && CanSignal(c, step)
  {
    match step
    case Tick(time) => c.(now := time)
    case Cancel(o) => c.(calls := c.calls[o := c.calls[o].(cancelled := true)])
    case RefuseNilContext => AddPub(c.(sup := Stamp(c.sup)), Pub(Refusal, false, JournalDue))
    case TripCall(cause) => DoTrip(c, cause)
    case Timer(attempt, version) => DoTimer(c, attempt, version)
  }

  predicate Enabled(c: Sys, step: Step) {
    if Reincarnates(step) then CanReincarnate(c, step)
    else
      && (c.running || step.Tick?)
      && (Moves(step) ==> CanMove(c, step)) && (Decides(step) ==> CanDecide(c, step)) && (Runs(step) ==> CanRun(c, step))
      && (Publishes(step) ==> CanPublish(c, step)) && (Signals(step) ==> CanSignal(c, step))
  }

  function Exec(c: Sys, step: Step): Sys
    requires Enabled(c, step)
  {
    if Admits(step) then ExecAdmit(c, step)
    else if Moves(step) then ExecMove(c, step)
    else if Decides(step) then ExecDecide(c, step)
    else if Runs(step) then ExecRun(c, step)
    else if Publishes(step) then ExecPublish(c, step)
    else if Signals(step) then ExecSignal(c, step)
    else ExecReincarnate(c, step)
  }

  /** Before the first boot: nothing runs and nothing was ever journaled. */
  ghost predicate Init(c: Sys) {
    && c.m.Valid() && c.now > 0 && !c.running && c.calls == map[] && c.live == map[] && c.pubs == map[]
    && c.image.None? && c.h == History({}, {}, [], {}, {}, {}) && c.sup == NewSupervisor(c.m, 0)
  }

  /** `steps` can be taken one after the other from `c`. */
  ghost predicate Runnable(c: Sys, steps: seq<Step>)
    decreases |steps|
  {
    steps == [] || (Enabled(c, steps[0]) && Runnable(Exec(c, steps[0]), steps[1..]))
  }

  /** The state `steps` lead to. */
  ghost function Execute(c: Sys, steps: seq<Step>): Sys
    requires Runnable(c, steps)
    decreases |steps|
  {
    if steps == [] then c else Execute(Exec(c, steps[0]), steps[1..])
  }
}
