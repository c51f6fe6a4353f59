/**
 * When a Supervisor is in doubt without being uncertain. An observer along the
 * run notes which operation had its Journal preparation refused, and whether
 * the retained fault was latched by that operation.
 */
module SupervisorUncertainty {
  import opened Basics
  import opened SupervisorTypes
  import opened SupervisorSpec
  import opened SupervisorSystem
  import opened SupervisorTrace
  import opened SupervisorOwnership
  import opened SupervisorDoubt
  import opened SupervisorJournal
  import opened SupervisorFrames
  import opened SupervisorCalls
  import opened SupervisorLatch
  import opened SupervisorCounters
  import opened SupervisorFates
  import opened SupervisorSafety

  datatype Watch = Watch(refused: Option<nat>, latched: bool)

  const UNWATCHED := Watch(None, false)

  /** The Journal's answer to a preparation, or its absence, stops the call before it reaches its controller. */
  predicate RefusesPreparation(c: Sys, step: Step)
    requires Enabled(c, step)
  {
    && (step.PrepareAcquire? || step.PrepareConsume? || step.PrepareTimeout?)
    && step.op in Exec(c, step).calls && Exec(c, step).calls[step.op].pc.FailAt?
  }

  /** What the observer knows after one more step. */
  function Watched(w: Watch, c: Sys, step: Step): Watch
    requires Enabled(c, step)
  {
    if Reincarnates(step) then UNWATCHED
    else
      Watch(if RefusesPreparation(c, step) then Some(step.op) else w.refused,
            if Exec(c, step).sup.fault.None? then false
            else if c.sup.fault.Some? then w.latched
            else step.LatchCall? && w.refused == Some(step.op))
  }

  ghost function WatchedRun(w: Watch, c: Sys, steps: seq<Step>): Watch
    requires Runnable(c, steps)
    decreases |steps|
  {
    if steps == [] then w else WatchedRun(Watched(w, c, steps[0]), Exec(c, steps[0]), steps[1..])
  }

  /** The fault is in doubt but certain exactly when a refused preparation latched it, and then its controller was never called. */
  ghost predicate FaultAttributed(s: Sup, started: set<AttemptId>, w: Watch) {
    match s.fault
    case None => !w.latched
    case Some(f) =>
      && (w.latched <==> f.issuedAt != 0 && !f.uncertain)
      && (w.latched ==> FaultPending(f).attempt !in started)
  }

  /** The call fails with issued evidence and without uncertainty exactly when its preparation was refused. */
  ghost predicate CallAttributed(call: Call, issuedAt: Time, o: nat, started: set<AttemptId>, w: Watch) {
    && (w.refused == Some(o) ==>
          call.kind.IssueCall? && call.pc.FailAt? && !call.pc.uncertain && issuedAt != 0 && call.pc.change.Identifier() !in started)
    && (call.pc.FailAt? && issuedAt != 0 && !call.pc.uncertain ==> w.refused == Some(o))
    && (call.kind.VerifyCall? && call.pc.FailAt? ==> call.pc.uncertain)
  }

  ghost predicate Attributed(c: Sys, w: Watch) {
    c.running ==>
      && (w.refused.Some? ==> w.refused.value <= c.sup.nextOperation)
      && FaultAttributed(c.sup, c.h.started, w)
      && (Active(c) ==>
            var o := c.sup.operation.value; CallAttributed(c.calls[o], OpOf(c.sup, o).issuedAt, o, c.h.started, w))
  }

  // ---------------------------------------------------------- admissions

  lemma ExhaustedVerify(c: Sys, step: Step)
    requires Admits(step)
    ensures var r := AdmissionOf(c, step); r.1.kind.VerifyCall? && r.0.1.Exhausted? ==> r.0.1.uncertain
    ensures var r := AdmissionOf(c, step); r.0.1.Begun? ==> !r.1.pc.FailAt?
  {
    hide Stamp, Begin, ToPrecondition, Expire;
    if step.CallIssue? { IssueCallShape(c.m, ChangeOf(AdmissionOf(c, step).0.1)); }
  }

  lemma BegunAttributed(c: Sys, w: Watch, t: Sup, o: nat, call: Call)
    requires c.running && Attributed(c, w) && Begins(c, t, o, call)
    requires call.kind.VerifyCall? && call.pc.FailAt? ==> call.pc.uncertain
    ensures Attributed(c.(sup := t, calls := c.calls[o := call]), w)
  {
  }

  lemma SettledAttributed(c: Sys, d: Sys, w: Watch)
    requires c.running && Attributed(c, w) && d.h.started == c.h.started
    requires d.sup.fault == c.sup.fault && d.sup.nextOperation == c.sup.nextOperation
    requires Active(d) ==>
      && Active(c) && d.sup.operation == c.sup.operation
      && OpOf(d.sup, d.sup.operation.value).issuedAt == OpOf(c.sup, c.sup.operation.value).issuedAt
      && d.calls[d.sup.operation.value].kind == c.calls[d.sup.operation.value].kind
      && d.calls[d.sup.operation.value].pc == c.calls[d.sup.operation.value].pc
    ensures Attributed(d, w)
  {
  }

  /** A report latches, if anything, an uncertain fault and revokes the call. */
  lemma ReportAttributed(c: Sys, w: Watch, d: Sys, change: Change, phase: Phase, cause: nat)
    requires c.running && Attributed(c, w) && d.h.started == c.h.started && d.calls == c.calls
    requires var latched := Stamp(Latch(c.m, c.sup, None, change, phase, cause, true, c.now).0);
      d.sup == latched.(reporting := latched.reporting + 1)
    ensures Attributed(d, w.(latched := c.sup.fault.Some? && w.latched))
  {
    hide Latch, CallAttributed;
    UncertainLatch(c.m, c.sup, change, phase, cause, c.now);
  }

  lemma UncertainLatch(m: Machine, s: Sup, change: Change, phase: Phase, cause: nat, now: Time)
    ensures var t := Latch(m, s, None, change, phase, cause, true, now).0;
      && t.fault.Some? && (if s.fault.Some? then t.fault == s.fault else t.fault.value.uncertain)
      && t.nextOperation == s.nextOperation && t.operation == s.operation
      && (t.operation.Some? ==> OpOf(t, t.operation.value).revoked)
  {
  }

  lemma AdmittedAttributed(c: Sys, w: Watch, r: (Sup, Admission), call: Call)
    requires c.running && Attributed(c, w) && Admissible(c, r, call)
    requires r.1.Begun? ==> !call.pc.FailAt?
    requires r.1.Exhausted? && call.kind.VerifyCall? ==> r.1.uncertain
    ensures Attributed(Admitted(c, r, call), w.(latched := c.sup.fault.Some? && w.latched))
  {
    hide Attributed, Begins, Latch;
    NothingLatched(c, w);
    match r.1
    case Refused(_) => SettledAttributed(c, Admitted(c, r, call), w);
    case Begun(o, _) => BegunAttributed(c, w, r.0, o, call);
    case Exhausted(o, change, phase, uncertain) => BegunAttributed(c, w, r.0, o, call.(pc := FailAt(change, phase, uncertain)));
    case Expired => ReportAttributed(c, w, Admitted(c, r, call), c.sup.pending.value.change, VerifyPhase, VERIFICATION_TIMEOUT);
  }

  lemma NothingLatched(c: Sys, w: Watch)
    requires c.running && Attributed(c, w)
    ensures w.(latched := c.sup.fault.Some? && w.latched) == w
  {
  }

  lemma AdmitAttributed(c: Sys, w: Watch, step: Step)
    requires c.running && Owned(c) && Shape(c) && Attributed(c, w) && Admits(step)
    ensures Attributed(ExecAdmit(c, step), w)
  {
    hide Owned, Shape, Attributed, Admissible, AdmissionOf, ExecAdmit, Admitted;
    AdmissionAdmissible(c, step);
    ExhaustedVerify(c, step);
    AdmittedWaits(c, step);
    NothingLatched(c, w);
    AdmittedAttributed(c, w, AdmissionOf(c, step).0, AdmissionOf(c, step).1);
  }

  // --------------------------------------------------------------- moves

  /** How a call that cannot go on fails, by where it stood. */
  lemma FailureKind(m: Machine, call: Call, completed: bool)
    requires Invokable(call.pc) || call.pc.DeliverAt? || call.pc.PrepareAt?
    ensures var d := OnFail(m, call, completed);
      && d.kind == call.kind
      && (call.pc.DeliverAt? ==> d.pc.FailAt? && !d.pc.uncertain && d.pc.change == call.change)
      && (call.pc.IssueAt? && d.pc.FailAt? ==> d.pc.uncertain)
      && (call.kind.VerifyCall? && (call.pc.VerifyAt? || call.pc.InvariantAt? || call.pc.PostconditionAt?) && d.pc.FailAt? ==> d.pc.uncertain)
  {
    hide ToSelect;
    if call.pc.SelectAt? && completed { FailShape(m, call, completed); }
  }

  /** `e` is what one move makes of `call`. */
  ghost predicate MovesTo(m: Machine, call: Call, e: Call) {
    || !e.pc.FailAt?
    || (!call.pc.PrepareAt? && (Invokable(call.pc) || call.pc.DeliverAt?) && exists completed :: e == OnFail(m, call, completed))
    || ((call.pc.AwaitAt? || call.pc.CommitAt? || call.pc.FinishAt? || call.pc.ResolveAt?) && e == OnContextFailure(call))
  }

  lemma MovedCall(m: Machine, s: Sup, call: Call, op: Op, e: Call, issuedAt: Time, o: nat, started: set<AttemptId>, w: Watch, v: Watch)
    requires ExecShape(m, s, call, op) && Faithful(m, call) && KindFits(call) && !call.pc.FailAt?
    requires CallAttributed(call, op.issuedAt, o, started, w) && MovesTo(m, call, e)
    requires e.pc.FailAt? ==> issuedAt == op.issuedAt
    requires call.pc.DeliverAt? ==> call.attempt.Identifier() !in started
    requires v.refused == if call.pc.DeliverAt? && e.pc.FailAt? then Some(o) else w.refused
    ensures CallAttributed(e, issuedAt, o, started, v)
  {
    hide OnFail, OnPass;
    if e.pc.FailAt? && !(e == OnContextFailure(call) && !Invokable(call.pc) && !call.pc.DeliverAt?) {
      var completed :| e == OnFail(m, call, completed);
      FailureKind(m, call, completed);
    }
  }

  lemma PassNeverFails(m: Machine, call: Call)
    requires Invokable(call.pc) || call.pc.DeliverAt?
    ensures !OnPass(m, call).pc.FailAt?
  {
  }

  lemma FailsOnce(m: Machine, call: Call, completed: bool)
    requires !call.pc.PrepareAt? && (Invokable(call.pc) || call.pc.DeliverAt?)
    ensures MovesTo(m, call, OnFail(m, call, completed))
  {
    hide OnFail;
  }

  lemma PrepareMove(c: Sys, o: nat)
    requires At(c, o) && c.calls[o].pc.PrepareAt?
    ensures var d := DoPrepare(c, o);
      && d.running == c.running && d.m == c.m && d.h == c.h && o in d.calls && d.calls == c.calls[o := d.calls[o]]
      && (Owns(c.sup, o) && c.sup.mode == Executing ==> !d.calls[o].pc.FailAt?)
  {
    hide OnFail, OnPass;
    PassNeverFails(c.m, c.calls[o].(pc := DeliverAt));
  }

  lemma AcquireMove(c: Sys, o: nat)
    requires At(c, o) && c.calls[o].pc.DeliverAt?
    ensures var d := DoPrepareAcquire(c, o);
      && d.running == c.running && d.m == c.m && d.h == c.h && o in d.calls && d.calls == c.calls[o := d.calls[o]]
      && MovesTo(c.m, c.calls[o], d.calls[o]) && (d.calls[o].pc.FailAt? ==> d.sup == c.sup)
  {
    hide OnFail;
    FailsOnce(c.m, c.calls[o], false);
  }

  lemma InvokeMove(c: Sys, o: nat)
    requires At(c, o) && Invokable(c.calls[o].pc)
    ensures var d, change := DoInvoke(c, o), ChangeAt(c.m, c.calls[o]);
      && d.running == c.running && d.m == c.m && o in d.calls && d.calls == c.calls[o := d.calls[o]]
      && MovesTo(c.m, c.calls[o], d.calls[o]) && (d.calls[o].pc.FailAt? ==> d.sup == c.sup)
      && (d.h == c.h || (c.calls[o].pc.IssueAt? && !d.calls[o].pc.FailAt? && Owns(c.sup, o) && c.sup.mode == Executing))
  {
    hide OnFail;
    FailsOnce(c.m, c.calls[o], false);
  }

  lemma OutcomeMove(c: Sys, step: Step)
    requires Moves(step) && CanMove(c, step) && !step.PrepareCall? && !step.PrepareAcquire? && !step.Invoke?
    ensures var o, d := step.op, ExecMove(c, step);
      && d.running == c.running && d.m == c.m && d.h.started == c.h.started && o in d.calls && d.calls == c.calls[o := d.calls[o]]
      && MovesTo(c.m, c.calls[o], d.calls[o]) && OpOf(d.sup, o).issuedAt == OpOf(c.sup, o).issuedAt
  {
    hide OnFail, OnPass, OnContextFailure, MovesTo;
    var call := c.calls[step.op];
    if step.ContextFailure? {
      StopsOnce(c.m, call);
    } else {
      PassNeverFails(c.m, call);
      PassesOnce(c.m, call);
      FailsOnce(c.m, call, true);
      FailsOnce(c.m, call, false);
    }
  }

  lemma StopsOnce(m: Machine, call: Call)
    requires call.pc.AwaitAt? || call.pc.CommitAt? || call.pc.FinishAt? || call.pc.ResolveAt?
    ensures MovesTo(m, call, OnContextFailure(call))
  {
  }

  lemma PassesOnce(m: Machine, call: Call)
    requires !OnPass(m, call).pc.FailAt?
    ensures MovesTo(m, call, OnPass(m, call))
  {
  }

  /** What a move of a call that owns the Supervisor leaves to compare. */
  ghost predicate Moved(c: Sys, d: Sys, o: nat)
    requires o in c.calls
  {
    && d.running == c.running && d.m == c.m && o in d.calls && d.calls == c.calls[o := d.calls[o]]
    && (d.h.started == c.h.started || (c.calls[o].pc.IssueAt? && !d.calls[o].pc.FailAt? && Owns(c.sup, o) && c.sup.mode == Executing))
    && (Owns(c.sup, o) && c.sup.mode == Executing ==>
          && MovesTo(c.m, c.calls[o], d.calls[o])
          && (d.calls[o].pc.FailAt? ==> OpOf(d.sup, o).issuedAt == OpOf(c.sup, o).issuedAt))
  }

  lemma MoveMoves(c: Sys, step: Step)
    requires Moves(step) && CanMove(c, step)
    ensures Moved(c, ExecMove(c, step), step.op)
  {
    hide MovesTo, DoPrepare, DoPrepareAcquire, DoInvoke;
    match step
    case PrepareCall(o) =>
      PrepareMove(c, o);
      if !ExecMove(c, step).calls[o].pc.FailAt? { NoFailure(c.m, c.calls[o], ExecMove(c, step).calls[o]); }
    case PrepareAcquire(o) => AcquireMove(c, o);
    case Invoke(o) => InvokeMove(c, o);
    case _ => OutcomeMove(c, step);
  }

  lemma NoFailure(m: Machine, call: Call, e: Call)
    requires !e.pc.FailAt?
    ensures MovesTo(m, call, e)
  {
  }

  lemma MoveFault(c: Sys, w: Watch, d: Sys, v: Watch, o: nat)
    requires o in c.calls && Standing(c, o) && Faithful(c.m, c.calls[o]) && Moved(c, d, o)
    requires FaultAttributed(c.sup, c.h.started, w) && d.sup.fault == c.sup.fault
    requires v.latched == (c.sup.fault.Some? && w.latched)
    ensures FaultAttributed(d.sup, d.h.started, v)
  {
    hide MovesTo;
  }

  lemma MoveActive(c: Sys, d: Sys, o: nat)
    requires o in c.calls && Standing(c, o) && TokensMoved(c.sup, d.sup) && TokensKept(c.sup, d.sup) && Active(d)
    ensures Active(c) && c.sup.operation == d.sup.operation == Some(o) && Owns(c.sup, o) && c.sup.mode == Executing
  {
  }

  lemma MoveKnown(c: Sys, o: nat)
    requires c.running && Shape(c) && Fresh(c) && Active(c) && c.sup.operation == Some(o) && Faithful(c.m, c.calls[o])
    ensures ExecShape(c.m, c.sup, c.calls[o], OpOf(c.sup, o))
    ensures c.calls[o].pc.DeliverAt? ==> c.calls[o].attempt.Identifier() !in c.h.started
  {
    hide SupShape, ExecShape, StartedKnown;
  }

  lemma MoverStands(c: Sys, step: Step)
    requires Moves(step) && CanMove(c, step)
    ensures step.op in c.calls && !c.calls[step.op].pc.FailAt?
    ensures step.PrepareAcquire? || step.PrepareConsume? || step.PrepareTimeout? <==> c.calls[step.op].pc.DeliverAt?
  {
  }

  /** What the observer notes of a move. */
  lemma MoveWatched(c: Sys, w: Watch, step: Step)
    requires Moves(step) && CanMove(c, step) && Enabled(c, step) && step.op in ExecMove(c, step).calls
    requires ExecMove(c, step).sup.fault == c.sup.fault
    ensures step.op in c.calls
    ensures Watched(w, c, step) == Watch(
      if c.calls[step.op].pc.DeliverAt? && ExecMove(c, step).calls[step.op].pc.FailAt? then Some(step.op) else w.refused,
      c.sup.fault.Some? && w.latched)
  {
    hide ExecMove, CanMove, Enabled, Exec;
    MoverStands(c, step);
    MoveExec(c, step);
  }

  lemma MoveExec(c: Sys, step: Step)
    requires Moves(step) && CanMove(c, step) && Enabled(c, step)
    ensures Exec(c, step) == ExecMove(c, step)
  {
    hide ExecMove, CanMove, Enabled;
  }

  lemma TokenNumbered(c: Sys, o: nat)
    requires Owned(c) && o in c.calls
    ensures o <= c.sup.nextOperation
  {
    assert CallOwned(c, o);
  }

  lemma AttributedParts(c: Sys, w: Watch)
    requires c.running && Attributed(c, w)
    ensures FaultAttributed(c.sup, c.h.started, w) && (w.refused.Some? ==> w.refused.value <= c.sup.nextOperation)
    ensures Active(c) ==>
      var o := c.sup.operation.value; CallAttributed(c.calls[o], OpOf(c.sup, o).issuedAt, o, c.h.started, w)
  {
    hide FaultAttributed, CallAttributed;
  }

  lemma MoveAttributed(c: Sys, w: Watch, step: Step)
    requires c.running && Owned(c) && Shape(c) && Trusted(c) && Fresh(c) && Attributed(c, w)
    requires Moves(step) && CanMove(c, step) && Enabled(c, step)
    ensures Attributed(ExecMove(c, step), Watched(w, c, step))
  {
    hide Owned, Shape, Trusted, Fresh, ExecMove, MovesTo, CallAttributed, FaultAttributed, Moved, CanMove, Enabled;
    hide Faithful, KindFits, ExecShape, TokensKept, Watched, Standing;
    var o, d, v := step.op, ExecMove(c, step), Watched(w, c, step);
    MoverStands(c, step);
    MoveMoves(c, step);
    MoveUntouched(c, step);
    MovedCalls(c, d, o);
    MoveWatched(c, w, step);
    StandingOf(c, o);
    TokenNumbered(c, o);
    TrustedCall(c, o);
    AttributedParts(c, w);
    hide Attributed;
    MoveFault(c, w, d, v, o);
    if Active(d) {
      MoveActive(c, d, o);
      MoveKnown(c, o);
      MovedKnown(c, d, o);
      MovedCall(c.m, c.sup, c.calls[o], OpOf(c.sup, o), d.calls[o], OpOf(d.sup, o).issuedAt, o, c.h.started, w, v);
      MoveStarts(c, d, w, v, o);
    }
    PartsAttributed(d, v);
  }

  lemma PartsAttributed(d: Sys, v: Watch)
    requires FaultAttributed(d.sup, d.h.started, v) && (v.refused.Some? ==> v.refused.value <= d.sup.nextOperation)
    requires Active(d) ==>
      var o := d.sup.operation.value; CallAttributed(d.calls[o], OpOf(d.sup, o).issuedAt, o, d.h.started, v)
    ensures Attributed(d, v)
  {
    hide FaultAttributed, CallAttributed;
  }

  lemma MovedCalls(c: Sys, d: Sys, o: nat)
    requires o in c.calls && Moved(c, d, o)
    ensures d.running == c.running && d.m == c.m && o in d.calls && d.calls == c.calls[o := d.calls[o]]
    ensures d.h.started == c.h.started || !d.calls[o].pc.FailAt?
  {
    hide MovesTo;
  }

  lemma MovedKnown(c: Sys, d: Sys, o: nat)
    requires o in c.calls && Moved(c, d, o) && Owns(c.sup, o) && c.sup.mode == Executing
    ensures MovesTo(c.m, c.calls[o], d.calls[o]) && (d.calls[o].pc.FailAt? ==> OpOf(d.sup, o).issuedAt == OpOf(c.sup, o).issuedAt)
  {
    hide MovesTo;
  }

  /** What starts is not what was refused. */
  lemma MoveStarts(c: Sys, d: Sys, w: Watch, v: Watch, o: nat)
    requires o in c.calls && Moved(c, d, o) && CallAttributed(d.calls[o], OpOf(d.sup, o).issuedAt, o, c.h.started, v)
    requires d.h.started == c.h.started || !d.calls[o].pc.FailAt?
    ensures CallAttributed(d.calls[o], OpOf(d.sup, o).issuedAt, o, d.h.started, v)
  {
    hide MovesTo;
  }

  // ------------------------------------------------------------ decisions

  /** The fault a failing call latches. */
  lemma LatchFault(c: Sys, w: Watch, o: nat, cause: nat)
    requires o in c.calls && Standing(c, o) && Faithful(c.m, c.calls[o]) && c.calls[o].pc.FailAt? && SupShape(c.m, c.sup)
    requires Owns(c.sup, o) ==>
      && ExecShape(c.m, c.sup, c.calls[o], OpOf(c.sup, o))
      && CallAttributed(c.calls[o], OpOf(c.sup, o).issuedAt, o, c.h.started, w)
    requires FaultAttributed(c.sup, c.h.started, w)
    ensures var pc := c.calls[o].pc;
      var t := Stamp(Latch(c.m, c.sup, Some(o), pc.change, pc.phase, cause, pc.uncertain, c.now).0);
      var latched := if t.fault.None? then false else if c.sup.fault.Some? then w.latched else w.refused == Some(o);
      FaultAttributed(t, c.h.started, w.(latched := latched)) && t.nextOperation == c.sup.nextOperation
  {
    hide Doubtful;
    var call := c.calls[o];
    if Owns(c.sup, o) && c.sup.fault.None? {
      LatchedFault(c.m, c.sup, call, OpOf(c.sup, o), o, cause, c.now);
    }
  }

  /** Its evidence is the operation's, or the pending change's. */
  lemma LatchedFault(m: Machine, s: Sup, call: Call, op: Op, o: nat, cause: nat, now: Time)
    requires Owns(s, o) && op == OpOf(s, o) && call.pc.FailAt? && Faithful(m, call) && ExecShape(m, s, call, op) && SupShape(m, s)
    requires call.kind.StartCall? || call.kind.IssueCall? ==> s.pending.None?
    requires call.kind.VerifyCall? ==> s.pending.Some? && call.change == s.pending.value.change
    ensures var f := NewFault(s, call.pc.change, call.pc.phase, cause, call.pc.uncertain, now);
      && f.uncertain == call.pc.uncertain && FaultPending(f).attempt == AttemptId(s.exec, call.pc.change.inc, call.pc.change.id)
      && (call.kind.StartCall? ==> f.issuedAt == 0)
      && (call.kind.IssueCall? ==> f.issuedAt == op.issuedAt && (op.issuedAt != 0 ==> call.pc.change.exec == s.exec))
  {
  }

  /** A commit at the revision ceiling latches an uncertain fault, or one without issued work. */
  lemma CommitLatch(c: Sys, o: nat)
    requires o in c.calls && Standing(c, o) && KindFits(c.calls[o]) && c.calls[o].pc.CommitAt? && Owns(c.sup, o)
    requires ExecShape(c.m, c.sup, c.calls[o], OpOf(c.sup, o))
    ensures var call := c.calls[o];
      var t := Latch(c.m, c.sup, Some(o), call.change, CommitPhase, COUNTER_EXHAUSTED, call.kind.VerifyCall?, c.now).0;
      && c.sup.fault.None? && t.fault.Some? && t.nextOperation == c.sup.nextOperation
      && (t.fault.value.issuedAt != 0 ==> t.fault.value.uncertain)
  {
    hide Doubtful;
  }

  lemma CommitFault(c: Sys, w: Watch, o: nat)
    requires o in c.calls && Standing(c, o) && KindFits(c.calls[o]) && c.calls[o].pc.CommitAt?
    requires Owns(c.sup, o) ==> ExecShape(c.m, c.sup, c.calls[o], OpOf(c.sup, o))
    requires FaultAttributed(c.sup, c.h.started, w)
    ensures var call := c.calls[o];
      var t := Commit(c.m, c.sup, o, call.change, call.kind.VerifyCall?, c.now).0;
      FaultAttributed(t, c.h.started, w.(latched := c.sup.fault.Some? && w.latched)) && t.nextOperation == c.sup.nextOperation
      && (c.sup.fault.Some? ==> t.fault == c.sup.fault)
  {
    hide Doubtful, Latch, FaultPending;
    var call := c.calls[o];
    if Owns(c.sup, o) && c.sup.revision == MAX_UINT64 { CommitLatch(c, o); }
  }

  predicate FaultKept(s: Sup, t: Sup) {
    (t.fault == s.fault || t.fault.None?) && t.nextOperation == s.nextOperation
  }

  lemma AwaitKeepsFault(s: Sup, o: nat, change: Change, row: Row, timeout: nat, now: Time)
    ensures FaultKept(s, AwaitVerification(s, o, change, row, timeout, now).0) && FaultKept(s, FinishReady(s, o).0)
  {
  }

  lemma ResolveKeepsFault(s: Sup, o: nat, original: Fault, decision: Decision, target: State)
    ensures FaultKept(s, Resolve(s, o, original, decision, target).0)
    ensures (Owns(s, o) ==> s.fault == Some(original)) ==> FaultKept(s, RestoreFault(s, o, original))
  {
  }

  /** The other decisions keep the fault or clear it. */
  lemma EndingFault(c: Sys, step: Step)
    requires Decides(step) && CanDecide(c, step) && !step.LatchCall? && !step.CommitCall? && Standing(c, step.op)
    ensures FaultKept(c.sup, ExecDecide(c, step).sup)
  {
    hide AwaitVerification, FinishReady, Resolve, RestoreFault, FaultKept;
    var call := c.calls[step.op];
    AwaitKeepsFault(c.sup, step.op, call.change, call.row, c.cfg.timeout, c.now);
    if call.kind.AdjudicateCall? {
      ResolveKeepsFault(c.sup, step.op, call.kind.original, call.kind.decision, call.kind.target);
    }
  }

  lemma DecisionEnds(c: Sys, step: Step)
    requires Owned(c) && Decides(step) && CanDecide(c, step)
    ensures var d := ExecDecide(c, step); !Active(d) && d.running == c.running && d.h.started == c.h.started
    ensures step.op in c.calls
  {
    hide Owned, Latch, AwaitVerification, Commit, FinishReady, Resolve, RestoreFault;
    OnlyCallOf(c, step.op);
  }

  /** What is known of the call that decides. */
  lemma DeciderKnown(c: Sys, w: Watch, o: nat)
    requires c.running && Owned(c) && Shape(c) && Trusted(c) && Attributed(c, w) && o in c.calls
    ensures Standing(c, o) && Faithful(c.m, c.calls[o]) && KindFits(c.calls[o]) && SupShape(c.m, c.sup)
    ensures FaultAttributed(c.sup, c.h.started, w) && (w.refused.Some? ==> w.refused.value <= c.sup.nextOperation)
    ensures Owns(c.sup, o) ==>
      && ExecShape(c.m, c.sup, c.calls[o], OpOf(c.sup, o))
      && CallAttributed(c.calls[o], OpOf(c.sup, o).issuedAt, o, c.h.started, w)
  {
    hide Owned, Trusted, Faithful, KindFits, Standing, SupShape, ExecShape, FaultAttributed, CallAttributed;
    StandingOf(c, o);
    TrustedCall(c, o);
  }

  lemma UnlatchedFault(s: Sup, started: set<AttemptId>, w: Watch)
    requires FaultAttributed(s, started, w)
    ensures s.fault.None? ==> !w.latched
  {
  }

  lemma SameFault(s: Sup, t: Sup, started: set<AttemptId>, w: Watch)
    requires FaultAttributed(s, started, w) && (t.fault == s.fault || t.fault.None?)
    ensures FaultAttributed(t, started, w.(latched := t.fault.Some? && w.latched))
  {
  }

  /** What the observer notes of a decision. */
  lemma DecisionWatched(c: Sys, w: Watch, step: Step)
    requires Decides(step) && CanDecide(c, step) && Enabled(c, step)
    ensures Watched(w, c, step) == Watch(w.refused,
      if ExecDecide(c, step).sup.fault.None? then false
      else if c.sup.fault.Some? then w.latched
      else step.LatchCall? && w.refused == Some(step.op))
  {
    hide ExecDecide, ExecAdmit, ExecMove, ExecRun, ExecPublish, ExecSignal, CanDecide, CanMove, CanRun, CanPublish, CanSignal;
  }

  lemma DecideAttributed(c: Sys, w: Watch, step: Step)
    requires c.running && Owned(c) && Shape(c) && Trusted(c) && Attributed(c, w)
    requires Decides(step) && CanDecide(c, step) && Enabled(c, step)
    ensures Attributed(ExecDecide(c, step), Watched(w, c, step))
  {
    hide Owned, Shape, Trusted, Standing, SupShape, Faithful, KindFits, ExecShape, CallAttributed, FaultAttributed, Latch, Commit, Active;
    hide Attributed, Watched, DoAwait, DoFinish, DoResolve, DoRestoreFault;
    var o, d := step.op, ExecDecide(c, step);
    DecisionEnds(c, step);
    DecisionWatched(c, w, step);
    DeciderKnown(c, w, o);
    UnlatchedFault(c.sup, c.h.started, w);
    if step.LatchCall? {
      LatchFault(c, w, o, step.cause);
    } else if step.CommitCall? {
      CommitFault(c, w, o);
    } else {
      EndingFault(c, step);
      SameFault(c.sup, d.sup, c.h.started, w);
    }
    PartsAttributed(d, Watched(w, c, step));
  }

  // ------------------------------------------------------ the other steps

  lemma QuietAttributed(c: Sys, w: Watch, d: Sys)
    requires c.running && Attributed(c, w) && Quiet(c, d)
    ensures Attributed(d, w)
  {
    hide Attributed;
    SettledAttributed(c, d, w);
  }

  lemma SignalAttributed(c: Sys, w: Watch, step: Step)
    requires c.running && Attributed(c, w) && (step.TripCall? || step.Timer?)
    ensures Attributed(ExecSignal(c, step), w.(latched := c.sup.fault.Some? && w.latched))
  {
    hide Attributed, Latch;
    NothingLatched(c, w);
    var d := ExecSignal(c, step);
    var subject := TripSubject(c.sup);
    if step.TripCall? {
      ReportAttributed(c, w, d, subject.0, subject.1, step.cause);
    } else if TimerFired(c.m, c.sup, step.sequence, step.version, c.now).1 {
      ReportAttributed(c, w, d, c.sup.pending.value.change, VerifyPhase, VERIFICATION_TIMEOUT);
    }
  }

  /** A restored fault in doubt is uncertain. */
  lemma RebirthAttributed(c: Sys, step: Step)
    requires Inv(c) && Reincarnates(step) && CanReincarnate(c, step)
    ensures Attributed(ExecReincarnate(c, step), UNWATCHED)
  {
    hide Trusted, Fates, Fresh, Owned, Shape, Room, Recorded, Prepared;
    if step.RestoreImage? {
      assert Restorable(c.m, c.image.value);
    }
  }

  /** Steps that neither decide nor move a call change nothing the observer notes. */
  lemma OtherWatched(c: Sys, w: Watch, step: Step)
    requires Enabled(c, step) && !Reincarnates(step) && !Moves(step) && !Decides(step)
    ensures Watched(w, c, step) == w.(latched := Exec(c, step).sup.fault.Some? && c.sup.fault.Some? && w.latched)
  {
    hide Exec, Enabled;
  }

  lemma OtherFault(c: Sys, step: Step)
    requires Owned(c) && Shape(c) && Enabled(c, step) && !Reincarnates(step) && !Moves(step) && !Decides(step)
    ensures c.sup.fault.Some? ==> Exec(c, step).sup.fault.Some?
  {
    hide Owned, Shape, Quiet, Admissible, AdmissionOf, Admitted, ExecAdmit, ExecRun, ExecPublish, CanRun, CanPublish;
    if Admits(step) {
      AdmissionAdmissible(c, step);
      AdmittedWaits(c, step);
      AdmittedSup(c, AdmissionOf(c, step).0, AdmissionOf(c, step).1);
      if c.sup.fault.Some? { AdmittedFault(c, AdmissionOf(c, step).0, AdmissionOf(c, step).1); }
    } else if Hushed(step) {
      HushedQuiet(c, step);
      QuietFault(c, Exec(c, step));
    }
  }

  lemma AdmittedFault(c: Sys, r: (Sup, Admission), call: Call)
    requires Admissible(c, r, call) && c.sup.fault.Some?
    ensures r.0.fault.Some?
  {
  }

  lemma QuietFault(c: Sys, d: Sys)
    requires Quiet(c, d)
    ensures d.sup.fault == c.sup.fault
  {
  }

  lemma StepAttributed(c: Sys, w: Watch, step: Step)
    requires Inv(c) && Attributed(c, w) && Enabled(c, step)
    ensures Attributed(Exec(c, step), Watched(w, c, step))
  {
    hide Trusted, Journaled, Fates, Fresh, Owned, Shape, Room, Attributed, Watched, Quiet, AdmissionOf, Admitted;
    hide ExecAdmit, ExecMove, ExecDecide, ExecRun, ExecPublish, ExecSignal, ExecReincarnate;
    hide CanMove, CanDecide, CanRun, CanPublish, CanReincarnate;
    if Reincarnates(step) {
      RebirthWatched(c, w, step);
      RebirthAttributed(c, step);
    } else if !c.running {
      StillAttributed(c, w, step);
    } else if Moves(step) {
      MoveAttributed(c, w, step);
    } else if Decides(step) {
      DecideAttributed(c, w, step);
    } else {
      OtherWatched(c, w, step);
      OtherFault(c, step);
      NothingLatched(c, w);
      if Admits(step) {
        AdmitAttributed(c, w, step);
      } else if Hushed(step) {
        HushedQuiet(c, step);
        QuietAttributed(c, w, Exec(c, step));
      } else {
        SignalAttributed(c, w, step);
      }
    }
  }

  lemma RebirthWatched(c: Sys, w: Watch, step: Step)
    requires Reincarnates(step) && Enabled(c, step)
    ensures Watched(w, c, step) == UNWATCHED
  {
    hide Exec;
  }

  lemma StillAttributed(c: Sys, w: Watch, step: Step)
    requires !c.running && Enabled(c, step) && !Reincarnates(step)
    ensures Attributed(Exec(c, step), Watched(w, c, step))
  {
  }

  lemma {:induction false} RunAttributed(c: Sys, w: Watch, steps: seq<Step>)
    requires Inv(c) && Attributed(c, w) && Runnable(c, steps)
    ensures Attributed(Execute(c, steps), WatchedRun(w, c, steps)) && Inv(Execute(c, steps))
    decreases |steps|
  {
    hide Inv, Attributed, Watched, Exec, Enabled;
    if steps != [] {
      StepInv(c, steps[0]);
      StepAttributed(c, w, steps[0]);
      RunAttributed(Exec(c, steps[0]), Watched(w, c, steps[0]), steps[1..]);
    }
  }

  /** What a snapshot says of doubt and uncertainty. */
  lemma SnapshotDoubt(c: Sys, w: Watch, now: Time)
    requires c.running && Owned(c) && Shape(c) && FaultAttributed(c.sup, c.h.started, w)
    ensures var snap := SnapshotOf(c.m, c.sup, now);
      && (snap.inDoubt && !snap.uncertain <==> w.latched)
      && (w.latched ==> snap.pending.Some? && snap.pending.value.attempt !in c.h.started)
  {
    hide Owned, Shape;
    if c.sup.fault.Some? { FaultStands(c); }
  }

  /**
   * Doubt without uncertainty. Along every run, with crashes and restorations
   * anywhere, a snapshot is in doubt without being uncertain exactly when the
   * retained fault was latched by an Issue call whose Journal preparation was
   * refused; and then the controller was never called for the attempt it names.
   */
  lemma {:induction false} DoubtWithoutUncertainty(start: Sys, steps: seq<Step>, now: Time)
    requires Init(start) && Runnable(start, steps) && Execute(start, steps).running
    ensures var c, w := Execute(start, steps), WatchedRun(UNWATCHED, start, steps);
      var snap := SnapshotOf(c.m, c.sup, now);
      && (snap.inDoubt && !snap.uncertain <==> w.latched)
      && (w.latched ==> snap.pending.Some? && snap.pending.value.attempt !in c.h.started)
  {
    hide Inv, Attributed, Enabled, Exec, Owned, Shape, FaultAttributed;
    InitInv(start);
    NeverAttributed(start);
    RunAttributed(start, UNWATCHED, steps);
    var c, w := Execute(start, steps), WatchedRun(UNWATCHED, start, steps);
    InvParts(c);
    AttributedFault(c, w);
    SnapshotDoubt(c, w, now);
  }

  lemma NeverAttributed(c: Sys)
    requires !c.running
    ensures Attributed(c, UNWATCHED)
  {
  }

  lemma AttributedFault(c: Sys, w: Watch)
    requires c.running && Attributed(c, w)
    ensures FaultAttributed(c.sup, c.h.started, w)
  {
  }
}
