/**
 * First-cause latching, revocation, and the counters: what a step of a running
 * Supervisor can do to its committed state.
 */
module SupervisorLatch {
  import opened Basics
  import opened SupervisorTypes
  import opened SupervisorSpec
  import opened SupervisorSystem
  import opened SupervisorTrace
  import opened SupervisorOwnership
  import opened SupervisorDoubt
  import opened SupervisorFrames
  import opened SupervisorCalls

  /** State, revision, pending change, fault and mode are untouched. */
  predicate Untouched(s: Sup, t: Sup) {
    t.state == s.state && t.revision == s.revision && t.pending == s.pending && t.fault == s.fault && t.mode == s.mode
  }

  /** The first cause stays latched over an unchanged state. */
  predicate StaysLatched(s: Sup, t: Sup) {
    t.fault == s.fault && t.state == s.state && t.revision == s.revision && t.pending.None?
  }

  /** Only the tokens and the Journal gate differ. */
  predicate TokensMoved(s: Sup, t: Sup) {
    t == s.(ops := t.ops, journalBusy := t.journalBusy, journalRunning := t.journalRunning)
  }

  lemma InvokeMoves(s: Sup, o: nat, change: Change, phase: Phase)
    requires o in s.ops
    ensures TokensMoved(s, InvokeBegin(s, o, change, phase).0) && TokensKept(s, InvokeBegin(s, o, change, phase).0)
  {
  }

  lemma PrepareMoves(s: Sup, o: nat, change: Change, now: Time)
    requires o in s.ops
    ensures TokensMoved(s, PrepareBegin(s, o, change, now).0) && TokensKept(s, PrepareBegin(s, o, change, now).0)
  {
  }

  lemma AbandonMoves(s: Sup, o: nat)
    requires o in s.ops
    ensures TokensMoved(s, Abandon(s, o)) && TokensKept(s, Abandon(s, o))
  {
  }

  lemma AcquireMoves(s: Sup, o: nat)
    requires o in s.ops
    ensures TokensMoved(s, Acquire(s, Journal, Some(o)).0) && TokensKept(s, Acquire(s, Journal, Some(o)).0)
  {
  }

  lemma MoveUntouched(c: Sys, step: Step)
    requires Owned(c) && Moves(step) && CanMove(c, step)
    ensures TokensMoved(c.sup, ExecMove(c, step).sup) && TokensKept(c.sup, ExecMove(c, step).sup)
  {
    hide Owned;
    StandingToken(c, step.op);
    hide TokensMoved, TokensKept, ExecMove;
    if step.PrepareCall? || step.PrepareAcquire? {
      PrepareUntouched(c, step);
    } else {
      InvokeUntouched(c, step);
    }
  }

  lemma PrepareUntouched(c: Sys, step: Step)
    requires step.PrepareCall? || step.PrepareAcquire?
    requires CanMove(c, step) && step.op in c.sup.ops
    ensures TokensMoved(c.sup, ExecMove(c, step).sup) && TokensKept(c.sup, ExecMove(c, step).sup)
  {
    hide OnPass, OnFail, PrepareBegin, Acquire, TokensKept;
    NoTokenMoves(c.sup);
    PrepareMoves(c.sup, step.op, c.calls[step.op].change, c.now);
    AcquireMoves(c.sup, step.op);
  }

  lemma InvokeUntouched(c: Sys, step: Step)
    requires Moves(step) && !step.PrepareCall? && !step.PrepareAcquire? && CanMove(c, step) && step.op in c.sup.ops
    ensures TokensMoved(c.sup, ExecMove(c, step).sup) && TokensKept(c.sup, ExecMove(c, step).sup)
  {
    hide OnPass, OnFail, OnContextFailure, InvokeBegin, Abandon, TokensKept;
    NoTokenMoves(c.sup);
    var call := c.calls[step.op];
    InvokeMoves(c.sup, step.op, ChangeAt(c.m, call), PhaseAt(call));
    AbandonMoves(c.sup, step.op);
  }

  lemma StandingToken(c: Sys, o: nat)
    requires Owned(c) && o in c.calls
    ensures o in c.sup.ops
  {
    hide Owned;
    StandingOf(c, o);
  }

  lemma NoTokenMoves(s: Sup)
    ensures TokensKept(s, s)
  {
  }

  lemma FaultHasNoPending(c: Sys)
    requires Owned(c) && c.sup.fault.Some?
    ensures c.sup.pending.None?
  {
    hide Threads, Counted;
  }

  lemma AdmittedLatched(c: Sys, r: (Sup, Admission), call: Call)
    requires Owned(c) && Admissible(c, r, call) && c.sup.fault.Some?
    ensures StaysLatched(c.sup, Admitted(c, r, call).sup)
  {
    hide Owned;
    FaultHasNoPending(c);
  }

  lemma CommitLatched(c: Sys, o: nat)
    requires o in c.calls && Standing(c, o) && c.sup.fault.Some? && c.sup.pending.None? && !c.calls[o].kind.AdjudicateCall?
    ensures StaysLatched(c.sup, DoCommit(c, o).sup) && StaysLatched(c.sup, DoAwait(c, o).sup)
  {
  }

  lemma FinishLatched(c: Sys, o: nat)
    requires o in c.calls && Standing(c, o) && c.sup.fault.Some? && c.sup.pending.None?
    ensures !c.calls[o].kind.AdjudicateCall? ==> StaysLatched(c.sup, DoFinish(c, o).sup)
    ensures c.calls[o].kind.AdjudicateCall? ==> StaysLatched(c.sup, DoRestoreFault(c, o).sup)
  {
  }

  lemma LatchLatched(c: Sys, o: nat, cause: nat)
    requires o in c.calls && c.calls[o].pc.FailAt? && c.sup.fault.Some? && c.sup.pending.None?
    ensures StaysLatched(c.sup, DoLatch(c, o, cause).sup)
  {
  }

  /** The fault is cleared by its own adjudication only. */
  predicate Cleared(c: Sys, step: Step, t: Sup) {
    && step.ResolveCall? && step.op in c.calls && c.calls[step.op].kind.AdjudicateCall? && Owns(c.sup, step.op)
    && c.sup.fault == Some(c.calls[step.op].kind.original) && t.fault.None? && t.mode == Ready
  }

  /** A decision that finds a latched fault leaves it, unless it is the adjudication of that very fault. */
  lemma DecideLatched(c: Sys, step: Step)
    requires Owned(c) && Decides(step) && CanDecide(c, step) && KindFits(c.calls[step.op]) && c.sup.fault.Some?
    ensures StaysLatched(c.sup, ExecDecide(c, step).sup) || Cleared(c, step, ExecDecide(c, step).sup)
  {
    hide Owned, Standing, StaysLatched, DoAwait, DoCommit, DoFinish, DoLatch, DoResolve, DoRestoreFault;
    StandingOf(c, step.op);
    FaultHasNoPending(c);
    match step
    case AwaitCall(o) => CommitLatched(c, o);
    case CommitCall(o) => CommitLatched(c, o);
    case FinishCall(o) => FinishLatched(c, o);
    case LatchCall(o, cause) => LatchLatched(c, o, cause);
    case ResolveCall(o) => ResolveLatched(c, o);
    case RestoreFaultCall(o) => FinishLatched(c, o);
  }

  lemma ResolveLatched(c: Sys, o: nat)
    requires At(c, o) && c.calls[o].kind.AdjudicateCall? && c.sup.fault.Some? && c.sup.pending.None?
    ensures StaysLatched(c.sup, DoResolve(c, o).sup) || Cleared(c, ResolveCall(o), DoResolve(c, o).sup)
  {
  }

  /**
   * Latch safety of one step: a latched fault, the state and the revision stay
   * as they are, unless the step is the successful adjudication of that fault.
   */
  lemma LatchedStep(c: Sys, step: Step)
    requires Owned(c) && Trusted(c) && Enabled(c, step) && !Reincarnates(step) && c.sup.fault.Some?
    ensures StaysLatched(c.sup, Exec(c, step).sup) || Cleared(c, step, Exec(c, step).sup)
  {
    hide Owned, Trusted, Quiet, KindFits, Faithful, Proposes, ExecAdmit, ExecMove, ExecDecide, ExecRun, ExecPublish, ExecSignal, ExecReincarnate;
    hide CanMove, CanRun, CanPublish, CanReincarnate;
    FaultHasNoPending(c);
    if Admits(step) {
      AdmissionAdmissible(c, step);
      AdmittedLatched(c, AdmissionOf(c, step).0, AdmissionOf(c, step).1);
    } else if Moves(step) {
      MoveUntouched(c, step);
    } else if Decides(step) {
      TrustedCall(c, step.op);
      DecideLatched(c, step);
    } else if Hushed(step) {
      HushedQuiet(c, step);
      QuietUntouched(c, Exec(c, step));
    } else {
      SignalLatched(c, step);
    }
  }

  lemma QuietUntouched(c: Sys, d: Sys)
    requires Quiet(c, d)
    ensures Untouched(c.sup, d.sup)
  {
  }

  lemma SignalLatched(c: Sys, step: Step)
    requires (step.TripCall? || step.Timer?) && c.sup.fault.Some? && c.sup.pending.None?
    ensures StaysLatched(c.sup, ExecSignal(c, step).sup)
  {
  }

  // ---------------------------------------------------------- revocation

  /**
   * The steps of a call whose operation was revoked touch neither the state,
   * the revision, the pending change, the fault nor the mode.
   */
  lemma RevokedIsHarmless(c: Sys, step: Step)
    requires Owned(c) && Enabled(c, step) && (Moves(step) || Decides(step))
    requires step.op in c.calls && OpOf(c.sup, step.op).revoked
    ensures Untouched(c.sup, Exec(c, step).sup)
  {
    hide Owned, TokensKept, TokensMoved, Untouched, ExecMove, ExecDecide, ExecAdmit, ExecRun, ExecPublish, ExecSignal, ExecReincarnate;
    hide CanMove, CanDecide, CanRun, CanPublish, CanSignal, CanReincarnate;
    if Moves(step) {
      MoveUntouched(c, step);
      MovedUntouched(c.sup, ExecMove(c, step).sup);
    } else {
      RevokedDecision(c, step);
    }
  }

  lemma MovedUntouched(s: Sup, t: Sup)
    requires TokensMoved(s, t)
    ensures Untouched(s, t)
  {
  }

  lemma DeadDecision(m: Machine, s: Sup, o: nat, change: Change, phase: Phase, cause: nat, flag: bool, now: Time)
    requires OpOf(s, o).revoked
    ensures Untouched(s, Stamp(Latch(m, s, Some(o), change, phase, cause, flag, now).0))
    ensures Untouched(s, Commit(m, s, o, change, flag, now).0) && Untouched(s, FinishReady(s, o).0)
  {
    hide NewFault;
  }

  lemma DeadEnd(s: Sup, o: nat, change: Change, row: Row, timeout: nat, now: Time, original: Fault, decision: Decision, target: State)
    requires OpOf(s, o).revoked
    ensures Untouched(s, AwaitVerification(s, o, change, row, timeout, now).0)
    ensures Untouched(s, Resolve(s, o, original, decision, target).0) && Untouched(s, RestoreFault(s, o, original))
  {
  }

  lemma RevokedDecision(c: Sys, step: Step)
    requires Decides(step) && CanDecide(c, step) && OpOf(c.sup, step.op).revoked
    ensures Untouched(c.sup, ExecDecide(c, step).sup)
  {
    hide Untouched, Latch, AwaitVerification, Commit, FinishReady, Resolve, RestoreFault, Stamp;
    var o, call := step.op, c.calls[step.op];
    if step.LatchCall? {
      DeadDecision(c.m, c.sup, o, call.pc.change, call.pc.phase, step.cause, call.pc.uncertain, c.now);
    } else if step.CommitCall? || step.FinishCall? {
      DeadDecision(c.m, c.sup, o, call.change, NoPhase, 0, call.kind.VerifyCall?, c.now);
    } else if step.AwaitCall? {
      var f := NewFault(c.sup, call.change, NoPhase, 0, false, c.now);
      DeadEnd(c.sup, o, call.change, call.row, c.cfg.timeout, c.now, f, Retain, 0);
    } else {
      DeadEnd(c.sup, o, call.change, call.row, c.cfg.timeout, c.now, call.kind.original, call.kind.decision, call.kind.target);
    }
  }

  /**
   * A call that finds it no longer owns its operation, or that the Supervisor is
   * not executing, finds a latched fault: the fallbacks for a missing fault in
   * invoke, prepareIssue, commit and finishReady are unreachable.
   */
  lemma LostOwnershipFindsFault(c: Sys, o: nat)
    requires Owned(c) && o in c.calls && (!Owns(c.sup, o) || c.sup.mode != Executing)
    ensures c.sup.mode == Faulted && c.sup.fault.Some? && c.sup.pending.None?
    ensures OpOf(c.sup, o).revoked && c.sup.operation == Some(o)
  {
    hide Owned;
    StandingOf(c, o);
  }

  // -------------------------------------------------------------- tokens

  lemma BeginsKeeps(c: Sys, t: Sup, o: nat, call: Call)
    requires Owned(c) && Begins(c, t, o, call)
    ensures TokensKept(c.sup, t)
  {
    hide Threads, Counted;
    assert Held(c);
    assert forall p | p in c.sup.ops :: p <= c.sup.nextOperation;
  }

  lemma LatchKeeps(m: Machine, s: Sup, o: Option<nat>, change: Change, phase: Phase, cause: nat, uncertain: bool, now: Time)
    ensures TokensKept(s, Latch(m, s, o, change, phase, cause, uncertain, now).0)
  {
    hide NewFault;
  }

  lemma ReportKeeps(c: Sys, step: Step)
    requires step.TripCall? || step.Timer?
    ensures TokensKept(c.sup, ExecSignal(c, step).sup)
    ensures c.sup.pending.Some? ==> TokensKept(c.sup, Expire(c.m, c.sup, c.now))
  {
    hide Latch, TokensKept;
    NoTokenMoves(c.sup);
    var subject := TripSubject(c.sup);
    if step.TripCall? { LatchKeeps(c.m, c.sup, None, subject.0, subject.1, step.cause, true, c.now); }
    if c.sup.pending.Some? {
      LatchKeeps(c.m, c.sup, None, c.sup.pending.value.change, VerifyPhase, VERIFICATION_TIMEOUT, true, c.now);
    }
    SameTokensKept(c.sup);
  }

  lemma SameTokensKept(s: Sup)
    ensures forall t: Sup, u: Sup | TokensKept(s, t) && u.ops == t.ops :: TokensKept(s, u)
  {
  }

  lemma AdmittedKeeps(c: Sys, r: (Sup, Admission), call: Call)
    requires Owned(c) && Admissible(c, r, call)
    ensures TokensKept(c.sup, Admitted(c, r, call).sup)
  {
    hide Owned, TokensKept, Begins, Expire;
    NoTokenMoves(c.sup);
    SameTokensKept(c.sup);
    match r.1
    case Refused(_) =>
    case Begun(o, _) => BeginsKeeps(c, r.0, o, call);
    case Exhausted(o, change, phase, uncertain) => BeginsKeeps(c, r.0, o, call.(pc := FailAt(change, phase, uncertain)));
    case Expired => ReportKeeps(c, Timer(0, 0));
  }

  lemma CommitKeeps(c: Sys, o: nat)
    requires o in c.calls
    ensures TokensKept(c.sup, DoCommit(c, o).sup) && TokensKept(c.sup, DoAwait(c, o).sup)
  {
    hide Latch, TokensKept;
    NoTokenMoves(c.sup);
    SameTokensKept(c.sup);
    var call := c.calls[o];
    LatchKeeps(c.m, c.sup, Some(o), call.change, CommitPhase, COUNTER_EXHAUSTED, call.kind.VerifyCall?, c.now);
  }

  lemma FinishReadyKeeps(s: Sup, o: nat)
    ensures TokensKept(s, FinishReady(s, o).0)
  {
    hide TokensKept;
    NoTokenMoves(s);
    SameTokensKept(s);
  }

  lemma ResolveKeeps(s: Sup, o: nat, original: Fault, decision: Decision, target: State)
    ensures TokensKept(s, Resolve(s, o, original, decision, target).0)
  {
    hide TokensKept;
    NoTokenMoves(s);
    SameTokensKept(s);
  }

  lemma FinishKeeps(c: Sys, o: nat)
    requires o in c.calls && o in c.sup.ops
    ensures TokensKept(c.sup, DoFinish(c, o).sup)
    ensures c.calls[o].kind.AdjudicateCall? ==> TokensKept(c.sup, DoResolve(c, o).sup) && TokensKept(c.sup, DoRestoreFault(c, o).sup)
  {
    hide TokensKept, FinishReady, Resolve, RestoreFault;
    var kind := c.calls[o].kind;
    FinishReadyKeeps(c.sup, o);
    if kind.AdjudicateCall? {
      ResolveKeeps(c.sup, o, kind.original, kind.decision, kind.target);
      RestoreKeeps(c.sup, o, kind.original);
    }
  }

  lemma FailKeeps(c: Sys, o: nat, cause: nat)
    requires o in c.calls && c.calls[o].pc.FailAt?
    ensures TokensKept(c.sup, DoLatch(c, o, cause).sup)
  {
    hide Latch, TokensKept;
    SameTokensKept(c.sup);
    var pc := c.calls[o].pc;
    LatchKeeps(c.m, c.sup, Some(o), pc.change, pc.phase, cause, pc.uncertain, c.now);
  }

  lemma DecideKeeps(c: Sys, step: Step)
    requires Owned(c) && Decides(step) && CanDecide(c, step)
    ensures TokensKept(c.sup, ExecDecide(c, step).sup)
  {
    hide Owned, TokensKept, DoAwait, DoCommit, DoFinish, DoLatch, DoResolve, DoRestoreFault;
    StandingToken(c, step.op);
    match step
    case AwaitCall(o) => CommitKeeps(c, o);
    case CommitCall(o) => CommitKeeps(c, o);
    case FinishCall(o) => FinishKeeps(c, o);
    case LatchCall(o, cause) => FailKeeps(c, o, cause);
    case ResolveCall(o) => FinishKeeps(c, o);
    case RestoreFaultCall(o) => FinishKeeps(c, o);
  }

  lemma RestoreKeeps(s: Sup, o: nat, original: Fault)
    requires o in s.ops
    ensures TokensKept(s, RestoreFault(s, o, original))
  {
  }

  /** Whatever step is taken, a token that was revoked, returned or abandoned stays so. */
  lemma StepKeepsTokens(c: Sys, step: Step)
    requires Owned(c) && Enabled(c, step) && !Reincarnates(step)
    ensures TokensKept(c.sup, Exec(c, step).sup)
  {
    hide Owned, Quiet, TokensKept, ExecAdmit, ExecMove, ExecDecide, ExecRun, ExecPublish, ExecSignal, ExecReincarnate;
    hide CanMove, CanDecide, CanRun, CanPublish, CanSignal, CanReincarnate;
    if Admits(step) {
      AdmissionAdmissible(c, step);
      AdmittedKeeps(c, AdmissionOf(c, step).0, AdmissionOf(c, step).1);
    } else if Moves(step) {
      MoveUntouched(c, step);
    } else if Decides(step) {
      DecideKeeps(c, step);
    } else if Hushed(step) {
      HushedQuiet(c, step);
      QuietKeeps(c, Exec(c, step));
    } else {
      ReportKeeps(c, step);
    }
  }

  lemma QuietKeeps(c: Sys, d: Sys)
    requires Quiet(c, d)
    ensures TokensKept(c.sup, d.sup)
  {
  }
}
