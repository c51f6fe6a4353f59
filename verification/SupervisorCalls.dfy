/**
 * What every call of a run has checked: traces of running calls, of the change
 * awaiting verification, and of every commit.
 */
module SupervisorCalls {
  import opened Basics
  import opened SupervisorTypes
  import opened SupervisorSpec
  import opened SupervisorSystem
  import opened SupervisorTrace
  import opened SupervisorOwnership
  import opened SupervisorDoubt
  import opened SupervisorFrames

  /** An adjudication proposes a declared state, and Retain the present one. */
  ghost predicate Proposes(m: Machine, s: Sup, call: Call) {
    call.kind.AdjudicateCall? ==>
      && call.kind.target in m.states && !call.kind.decision.UnknownOutcome?
      && (call.kind.decision.Retain? ==> call.kind.target == s.state)
      && (call.kind.decision.Adopt? ==> call.kind.target == call.kind.original.to && call.kind.original.issuedAt != 0)
      && (call.kind.decision.Override? ==> call.kind.target == call.kind.decision.state)
  }

  ghost predicate CallTrusted(m: Machine, s: Sup, call: Call) {
    Faithful(m, call) && Proposes(m, s, call)
  }

  /** The change awaiting verification was issued with its complete trace. */
  ghost predicate AwaitedTrusted(m: Machine, pending: Option<Pending>, awaited: Awaited) {
    pending.Some? ==>
      var p := pending.value;
      var attempt := Unselected(p.change);
      && Eligible(m, attempt, awaited.pick)
      && p.row == m.RowsFor(attempt.from, attempt.event)[awaited.pick]
      && p.change == Candidate(attempt, p.row) && p.row.external
      && awaited.trace == Issued(m, attempt, awaited.pick)
  }

  ghost predicate Trusted(c: Sys) {
    && (forall o | o in c.calls :: CallTrusted(c.m, c.sup, c.calls[o]))
    && AwaitedTrusted(c.m, c.sup.pending, c.awaited)
    && (forall i | 0 <= i < |c.h.commits| :: Justified(c.m, c.h.commits[i]))
  }

  lemma FaithfulFits(m: Machine, call: Call)
    requires Faithful(m, call)
    ensures KindFits(call)
  {
  }

  lemma TrustedCall(c: Sys, o: nat)
    requires Trusted(c) && o in c.calls
    ensures Faithful(c.m, c.calls[o]) && KindFits(c.calls[o]) && Proposes(c.m, c.sup, c.calls[o])
  {
    hide Faithful, KindFits, Proposes;
    assert CallTrusted(c.m, c.sup, c.calls[o]);
    FaithfulFits(c.m, c.calls[o]);
  }

  lemma TrustedFits(c: Sys)
    requires Trusted(c)
    ensures forall o | o in c.calls :: KindFits(c.calls[o])
  {
    forall o | o in c.calls ensures KindFits(c.calls[o]) {
      assert CallTrusted(c.m, c.sup, c.calls[o]);
      FaithfulFits(c.m, c.calls[o]);
    }
  }

  lemma SameWorkTrusted(m: Machine, s: Sup, t: Sup, c: Call, d: Call)
    requires CallTrusted(m, s, c) && SameWork(c, d) && s.state == t.state
    ensures CallTrusted(m, t, d)
  {
  }

  /** No call does any work: the decision, if any, is one the trace does not depend on. */
  ghost predicate Idles(c: Sys, d: Sys) {
    && d.m == c.m && d.awaited == c.awaited && d.h.commits == c.h.commits
    && (d.sup.pending == c.sup.pending || d.sup.pending.None?)
    && (forall o | o in d.calls :: o in c.calls && SameWork(c.calls[o], d.calls[o]) && d.sup.state == c.sup.state)
  }

  lemma IdleTrusted(c: Sys, d: Sys)
    requires Trusted(c) && Idles(c, d)
    ensures Trusted(d)
  {
    forall o | o in d.calls ensures CallTrusted(d.m, d.sup, d.calls[o]) {
      SameWorkTrusted(c.m, c.sup, d.sup, c.calls[o], d.calls[o]);
    }
  }

  /** One call moves on. */
  lemma MoveTrusted(c: Sys, o: nat, call: Call, d: Sys)
    requires Trusted(c) && CallTrusted(c.m, c.sup, call)
    requires d.m == c.m && d.awaited == c.awaited && d.h.commits == c.h.commits && d.calls == c.calls[o := call]
    requires d.sup.pending == c.sup.pending && d.sup.state == c.sup.state
    ensures Trusted(d)
  {
    forall p | p in d.calls ensures CallTrusted(d.m, d.sup, d.calls[p]) {
      if p != o {
        SameWorkTrusted(c.m, c.sup, d.sup, c.calls[p], d.calls[p]);
      } else {
        SameWorkTrusted(c.m, c.sup, d.sup, call, d.calls[p]);
      }
    }
  }

  lemma PassTrusted(m: Machine, s: Sup, c: Call)
    requires CallTrusted(m, s, c) && (Invokable(c.pc) || c.pc.DeliverAt?)
    ensures CallTrusted(m, s, OnPass(m, c))
  {
    hide OnPass, Faithful;
    OnPassFaithful(m, c);
    PassShape(m, c);
  }

  lemma FailTrusted(m: Machine, s: Sup, c: Call, completed: bool)
    requires CallTrusted(m, s, c) && (Invokable(c.pc) || c.pc.DeliverAt? || c.pc.PrepareAt?)
    ensures CallTrusted(m, s, OnFail(m, c, completed))
  {
    hide OnFail, Faithful;
    OnFailFaithful(m, c, completed);
    FailShape(m, c, completed);
  }

  // ------------------------------------------------------------ admissions

  lemma UnmovedBy(c: Sys, r: (Sup, Admission), call: Call)
    requires Admissible(c, r, call) && !r.1.Expired?
    ensures r.0.pending == c.sup.pending && r.0.state == c.sup.state
  {
  }

  lemma ExpiresPending(c: Sys)
    requires c.sup.pending.Some?
    ensures Expire(c.m, c.sup, c.now).pending.None? && Expire(c.m, c.sup, c.now).state == c.sup.state
  {
    hide NewFault;
  }

  /** A call that admission fails outright has nothing behind it. */
  lemma FailureTrusted(m: Machine, s: Sup, call: Call)
    requires call.pc.FailAt? && (call.kind.IssueCall? || call.kind.StartCall? || call.kind.VerifyCall?)
    requires call.change.Identifier() == call.pc.change.Identifier()
    requires call.kind.VerifyCall? ==> call.change == call.pc.change
    requires call.kind.IssueCall? ==> call.attempt == Unselected(call.attempt) && call.change.Identifier() == call.attempt.Identifier()
    ensures CallTrusted(m, s, call)
  {
  }

  lemma AdmittedTrusted(c: Sys, r: (Sup, Admission), call: Call)
    requires Trusted(c) && Owned(c) && Admissible(c, r, call)
    requires r.1.Begun? ==> CallTrusted(c.m, c.sup, call)
    requires r.1.Exhausted? ==> call.kind.IssueCall? || call.kind.StartCall? || call.kind.VerifyCall?
    requires r.1.Exhausted? ==> call.change.Identifier() == r.1.change.Identifier()
    requires r.1.Exhausted? && call.kind.VerifyCall? ==> call.change == r.1.change
    requires r.1.Exhausted? && call.kind.IssueCall? ==>
      call.attempt == Unselected(call.attempt) && call.change.Identifier() == call.attempt.Identifier()
    ensures Trusted(Admitted(c, r, call))
  {
    hide Owned, Trusted, CallTrusted, Begins, SameOwnership, Expire;
    var d := Admitted(c, r, call);
    match r.1
    case Refused(_) =>
      UnmovedBy(c, r, call);
      IdleTrusted(c, d);
    case Begun(o, _) =>
      UnmovedBy(c, r, call);
      MoveTrusted(c, o, call, d);
    case Exhausted(o, change, phase, uncertain) =>
      UnmovedBy(c, r, call);
      FailureTrusted(c.m, c.sup, call.(pc := FailAt(change, phase, uncertain)));
      MoveTrusted(c, o, call.(pc := FailAt(change, phase, uncertain)), d);
    case Expired =>
      ExpiresPending(c);
      IdleTrusted(c, d);
  }

  lemma StartTrusted(c: Sys)
    requires Trusted(c) && Owned(c)
    ensures Trusted(DoStart(c))
  {
    hide Owned, Trusted;
    var r := AdmitStart(c.sup);
    var call := ToReconcile(c.m, NewCall(StartCall, ChangeOf(r.1)), 0);
    RegimeSettled(c);
    assert [] == Reconciled(ChangeOf(r.1), 0);
    ToReconcileFaithful(c.m, NewCall(StartCall, ChangeOf(r.1)), 0);
    StartAdmissible(c, call);
    AdmittedTrusted(c, r, call);
  }

  lemma RegimeSettled(c: Sys)
    requires Owned(c)
    ensures Settling(c.sup)
  {
    hide Threads, Regime, Counted;
    RegimeSettles(c);
  }

  lemma IssueTrusted(c: Sys, event: Event)
    requires Trusted(c) && Owned(c)
    ensures Trusted(DoIssue(c, event))
  {
    hide Owned, Trusted, ToPrecondition, Admissible;
    var r := AdmitIssue(c.m, c.sup, event, c.now);
    var change := ChangeOf(r.1);
    IssueCallShape(c.m, change);
    var call := ToPrecondition(c.m, NewCall(IssueCall, change), 0);
    RegimeSettled(c);
    IssueAdmissible(c, event, call);
    assert [] == Preconditions(change, 0);
    if r.1.Begun? || r.1.Exhausted? {
      assert change == Unselected(change);
      ToPreconditionFaithful(c.m, NewCall(IssueCall, change), 0);
      FirstIdentity(c.m, change);
    }
    AdmittedTrusted(c, r, call);
  }

  lemma FirstIdentity(m: Machine, change: Change)
    ensures ToPrecondition(m, NewCall(IssueCall, change), 0).change.Identifier() == change.Identifier()
  {
  }

  lemma VerifyTrusted(c: Sys, attempt: AttemptId)
    requires Trusted(c) && Owned(c)
    ensures Trusted(DoVerify(c, attempt))
  {
    hide Owned, Admissible;
    var r := AdmitVerify(c.m, c.sup, attempt, c.now);
    var call := VerifyStart(c, r.1);
    RegimeSettled(c);
    VerifyAdmissible(c, attempt, call);
    AdmittedTrusted(c, r, call);
  }

  /** Adoption proposes what the fault recorded, which is a declared target. */
  lemma TargetDeclared(c: Sys, original: Fault, decision: Decision)
    requires c.m.Valid() && SupShape(c.m, c.sup) && c.sup.fault == Some(original)
    requires DecisionTarget(c.m, c.sup, original, decision).Some?
    ensures DecisionTarget(c.m, c.sup, original, decision).value in c.m.states
  {
    if decision.Adopt? {
      var change := original.change;
      var rows := c.m.RowsFor(change.from, change.event);
      var i :| 0 <= i < |rows| && rows[i].id == change.transition && rows[i].to == change.to && rows[i].external;
      assert c.m.rows[Key(change.from, change.event)][i].to in c.m.states;
    }
  }

  lemma AdjudicateStartFaithful(c: Sys, a: Admission, decision: Decision, phase: Phase)
    requires a.Begun? && c.sup.fault.Some?
    ensures Faithful(c.m, AdjudicateStart(c, a, decision, phase))
  {
    var target := DecisionTarget(c.m, c.sup, c.sup.fault.value, decision);
    assert [] == Reconciled(a.change, 0);
    ToReconcileFaithful(c.m, NewCall(AdjudicateCall(decision, if target.Some? then target.value else 0, c.sup.fault.value, phase), a.change), 0);
  }

  lemma AdjudicateTrusted(c: Sys, decision: Decision, adjudicating: bool)
    requires Trusted(c) && Owned(c) && Shape(c)
    ensures Trusted(DoAdjudicate(c, decision, adjudicating))
  {
    hide Owned, Admissible, Trusted;
    var phase := if adjudicating then AdjudicatePhase else RecoverPhase;
    var outcome := if adjudicating then decision else Retain;
    var r := AdmitAdjudicate(c.m, c.sup, outcome, phase);
    var call := AdjudicateStart(c, r.1, outcome, phase);
    RegimeSettled(c);
    AdjudicateAdmissible(c, outcome, phase, call);
    if r.1.Begun? {
      TargetDeclared(c, c.sup.fault.value, outcome);
      AdjudicateStartFaithful(c, r.1, outcome, phase);
    }
    AdmittedTrusted(c, r, call);
  }

  // ------------------------------------------------------------- the other steps

  lemma InvokeTrusted(c: Sys, o: nat)
    requires Trusted(c) && At(c, o) && Invokable(c.calls[o].pc)
    ensures Trusted(DoInvoke(c, o))
  {
    hide OnFail, Faithful;
    var call, d := c.calls[o], DoInvoke(c, o);
    assert CallTrusted(c.m, c.sup, call);
    if InvokeBegin(c.sup, o, ChangeAt(c.m, call), PhaseAt(call)).1 {
      IdleTrusted(c, d);
    } else {
      FailTrusted(c.m, c.sup, call, false);
      MoveTrusted(c, o, OnFail(c.m, call, false), d);
    }
  }

  lemma ConsumeTrusted(c: Sys, o: nat, d: Sys)
    requires Trusted(c) && o in c.calls && (Invokable(c.calls[o].pc) || c.calls[o].pc.DeliverAt? || c.calls[o].pc.PrepareAt?)
    requires d.m == c.m && d.awaited == c.awaited && d.h.commits == c.h.commits && d.calls.Keys == c.calls.Keys
    requires d.sup.pending == c.sup.pending && d.sup.state == c.sup.state && d.calls == c.calls[o := d.calls[o]]
    requires var e := d.calls[o];
      (e == OnPass(c.m, c.calls[o]) && !c.calls[o].pc.PrepareAt?) || e == OnFail(c.m, c.calls[o], true) || e == OnFail(c.m, c.calls[o], false)
      || (c.calls[o].pc.PrepareAt? && (e == c.calls[o].(pc := DeliverAt, inbox := None) || e == OnPass(c.m, c.calls[o].(pc := DeliverAt))))
    ensures Trusted(d)
  {
    hide OnFail, OnPass;
    var call := c.calls[o];
    assert CallTrusted(c.m, c.sup, call);
    if call.pc.PrepareAt? {
      PreparedTrusted(c.m, c.sup, call);
    } else {
      PassTrusted(c.m, c.sup, call);
    }
    FailTrusted(c.m, c.sup, call, true);
    FailTrusted(c.m, c.sup, call, false);
    MoveTrusted(c, o, d.calls[o], d);
  }

  lemma PreparedTrusted(m: Machine, s: Sup, call: Call)
    requires CallTrusted(m, s, call) && call.pc.PrepareAt?
    ensures CallTrusted(m, s, call.(pc := DeliverAt, inbox := None))
    ensures CallTrusted(m, s, OnPass(m, call.(pc := DeliverAt)))
  {
    PassTrusted(m, s, call.(pc := DeliverAt));
  }

  lemma ContextTrusted(c: Sys, o: nat)
    requires Trusted(c) && At(c, o)
    requires c.calls[o].pc.AwaitAt? || c.calls[o].pc.CommitAt? || c.calls[o].pc.FinishAt? || c.calls[o].pc.ResolveAt?
    ensures Trusted(c.(calls := c.calls[o := OnContextFailure(c.calls[o])]))
  {
    assert CallTrusted(c.m, c.sup, c.calls[o]);
    OnContextFailureFaithful(c.m, c.calls[o]);
    MoveTrusted(c, o, OnContextFailure(c.calls[o]), c.(calls := c.calls[o := OnContextFailure(c.calls[o])]));
  }

  lemma AwaitedOf(m: Machine, s: Sup, call: Call, p: Pending)
    requires CallTrusted(m, s, call) && call.pc.AwaitAt? && p.change == call.change && p.row == call.row
    ensures AwaitedTrusted(m, Some(p), Awaited(call.trace, call.pick))
  {
  }

  /** The change that starts to wait has its complete trace behind it. */
  lemma AwaitTrusted(c: Sys, o: nat)
    requires Trusted(c) && Owned(c) && At(c, o) && c.calls[o].pc.AwaitAt?
    ensures Trusted(DoAwait(c, o))
  {
    hide Threads, Regime, Counted, CallTrusted, AwaitedTrusted, Justified;
    OnlyCall(c, o);
    var d := DoAwait(c, o);
    if AwaitVerification(c.sup, o, c.calls[o].change, c.calls[o].row, c.cfg.timeout, c.now).1 {
      AwaitedOf(c.m, c.sup, c.calls[o], d.sup.pending.value);
    }
  }

  /** Every commit is justified by the trace of its call. */
  lemma CommitTrusted(c: Sys, o: nat)
    requires Trusted(c) && Owned(c) && At(c, o) && c.calls[o].pc.CommitAt?
    ensures Trusted(DoCommit(c, o))
  {
    hide Threads, Regime, Counted, Justified;
    OnlyCall(c, o);
    assert CallTrusted(c.m, c.sup, c.calls[o]);
    CommitJustified(c.m, c.calls[o]);
  }

  /** Any other decision only ends its call. */
  lemma DecisionTrusted(c: Sys, o: nat, d: Sys)
    requires Trusted(c) && Owned(c) && o in c.calls && d.calls == c.calls - {o}
    requires d.m == c.m && d.awaited == c.awaited && d.h.commits == c.h.commits
    requires d.sup.pending == c.sup.pending || d.sup.pending.None?
    ensures Trusted(d)
  {
    hide Threads, Regime, Counted;
    OnlyCall(c, o);
    IdleTrusted(c, d);
  }

  lemma AdmitTrusted(c: Sys, step: Step)
    requires Trusted(c) && Owned(c) && Shape(c) && Admits(step)
    ensures Trusted(ExecAdmit(c, step))
  {
    hide Owned, Trusted, Shape;
    match step
    case CallStart => StartTrusted(c);
    case CallIssue(event) => IssueTrusted(c, event);
    case CallVerify(attempt) => VerifyTrusted(c, attempt);
    case CallAdjudicate(decision, adjudicating) => AdjudicateTrusted(c, decision, adjudicating);
  }

  lemma DoPrepareTrusted(c: Sys, o: nat)
    requires Trusted(c) && At(c, o) && c.calls[o].pc.PrepareAt?
    ensures Trusted(DoPrepare(c, o))
  {
    hide Trusted, OnPass, OnFail, Owns;
    ConsumeTrusted(c, o, DoPrepare(c, o));
  }

  lemma AcquireTrusted(c: Sys, o: nat)
    requires Trusted(c) && At(c, o) && c.calls[o].pc.DeliverAt?
    ensures Trusted(DoPrepareAcquire(c, o))
  {
    hide Trusted, OnPass, OnFail;
    var d := DoPrepareAcquire(c, o);
    if Acquire(c.sup, Journal, Some(o)).1 {
      IdleTrusted(c, d);
    } else {
      ConsumeTrusted(c, o, d);
    }
  }

  lemma DeliveryTrusted(c: Sys, step: Step)
    requires Trusted(c) && (step.PrepareConsume? || step.PrepareTimeout?) && CanMove(c, step)
    ensures Trusted(ExecMove(c, step))
  {
    hide Trusted, OnPass, OnFail;
    ConsumeTrusted(c, step.op, ExecMove(c, step));
  }

  lemma CallbackTrusted(c: Sys, step: Step)
    requires Trusted(c) && (step.InvokeFailFast? || step.Consume? || step.GiveUp?) && CanMove(c, step)
    ensures Trusted(ExecMove(c, step))
  {
    hide Trusted, OnPass, OnFail, Abandon;
    AbandonAside(c.sup, step.op);
    ConsumeTrusted(c, step.op, ExecMove(c, step));
  }

  lemma AbandonAside(s: Sup, o: nat)
    ensures Abandon(s, o).pending == s.pending && Abandon(s, o).state == s.state
  {
  }

  lemma MovementTrusted(c: Sys, step: Step)
    requires Trusted(c) && Moves(step) && CanMove(c, step)
    ensures Trusted(ExecMove(c, step))
  {
    hide Trusted, OnPass, OnFail, OnContextFailure, DoPrepare, DoPrepareAcquire, DoPrepareConsume, DoInvoke, DoConsume, DoGiveUp;
    match step
    case Invoke(o) => InvokeTrusted(c, o);
    case ContextFailure(o) => ContextTrusted(c, o);
    case PrepareCall(o) => DoPrepareTrusted(c, o);
    case PrepareAcquire(o) => AcquireTrusted(c, o);
    case _ =>
      if step.PrepareConsume? || step.PrepareTimeout? {
        DeliveryTrusted(c, step);
      } else {
        CallbackTrusted(c, step);
      }
  }

  lemma FinishTrusted(c: Sys, o: nat)
    requires Trusted(c) && Owned(c) && o in c.calls
    ensures Trusted(DoFinish(c, o))
    ensures c.calls[o].kind.AdjudicateCall? ==> Trusted(DoResolve(c, o)) && Trusted(DoRestoreFault(c, o))
  {
    hide Trusted, Owned;
    DecisionTrusted(c, o, DoFinish(c, o));
    if c.calls[o].kind.AdjudicateCall? {
      DecisionTrusted(c, o, DoResolve(c, o));
      DecisionTrusted(c, o, DoRestoreFault(c, o));
    }
  }

  lemma LatchTrusted(c: Sys, o: nat, cause: nat)
    requires Trusted(c) && Owned(c) && o in c.calls && c.calls[o].pc.FailAt?
    ensures Trusted(DoLatch(c, o, cause))
  {
    hide Trusted, Owned;
    DecisionTrusted(c, o, DoLatch(c, o, cause));
  }

  lemma DecideTrusted(c: Sys, step: Step)
    requires Trusted(c) && Owned(c) && Decides(step) && CanDecide(c, step)
    ensures Trusted(ExecDecide(c, step))
  {
    hide Owned, Trusted, DoAwait, DoCommit, DoFinish, DoLatch, DoResolve, DoRestoreFault;
    match step
    case AwaitCall(o) => AwaitTrusted(c, o);
    case CommitCall(o) => CommitTrusted(c, o);
    case LatchCall(o, cause) => LatchTrusted(c, o, cause);
    case FinishCall(o) => FinishTrusted(c, o);
    case ResolveCall(o) => FinishTrusted(c, o);
    case RestoreFaultCall(o) => FinishTrusted(c, o);
  }

  lemma QuietTrusted(c: Sys, d: Sys)
    requires Trusted(c) && Quiet(c, d)
    ensures Trusted(d)
  {
    hide Trusted, CallTrusted, AwaitedTrusted;
    IdleTrusted(c, d);
  }

  lemma SignalTrusted(c: Sys, step: Step)
    requires Trusted(c) && (step.TripCall? || step.Timer?)
    ensures Trusted(ExecSignal(c, step))
  {
    hide Trusted;
    IdleTrusted(c, ExecSignal(c, step));
  }

  lemma ReincarnateTrusted(c: Sys, step: Step)
    requires Trusted(c) && Reincarnates(step) && CanReincarnate(c, step)
    requires !c.running ==> c.calls == map[]
    ensures Trusted(ExecReincarnate(c, step))
  {
    hide CallTrusted, Justified;
  }

  /** Every step keeps every trace. */
  lemma StepTrusted(c: Sys, step: Step)
    requires Trusted(c) && Enabled(c, step) && (if c.running then Owned(c) && Shape(c) else c.calls == map[])
    ensures Trusted(Exec(c, step))
  {
    hide Trusted, Owned, Shape, Quiet, ExecAdmit, ExecMove, ExecDecide, ExecRun, ExecPublish, ExecSignal, ExecReincarnate;
    hide CanMove, CanDecide, CanRun, CanPublish, CanSignal, CanReincarnate;
    if Admits(step) {
      AdmitTrusted(c, step);
    } else if Moves(step) {
      MovementTrusted(c, step);
    } else if Decides(step) {
      DecideTrusted(c, step);
    } else if Hushed(step) {
      HushedQuiet(c, step);
      QuietTrusted(c, Exec(c, step));
    } else if Signals(step) {
      SignalTrusted(c, step);
    } else {
      ReincarnateTrusted(c, step);
    }
  }
}
