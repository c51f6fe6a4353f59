/**
 * Every step of a running Supervisor keeps the shape of its evidence and the
 * promise of its Journal.
 */
module SupervisorEvidence {
  import opened Basics
  import opened SupervisorTypes
  import opened SupervisorSpec
  import opened SupervisorSystem
  import opened SupervisorTrace
  import opened SupervisorOwnership
  import opened SupervisorDoubt
  import opened SupervisorFrames
  import opened SupervisorCalls
  import opened SupervisorJournal

  // --------------------------------------------------------------- shape

  lemma QuietShape(c: Sys, d: Sys)
    requires Shape(c) && Quiet(c, d)
    ensures Shape(d)
  {
    EvidenceShape(c, d);
  }

  lemma MovedShape(c: Sys, o: nat, call: Call, d: Sys)
    requires Shape(c) && o in c.calls && c.sup.operation == Some(o) && d.m == c.m && d.now == c.now
    requires SameEvidence(c.sup, d.sup) && d.sup.operation == Some(o) && d.calls == c.calls[o := call]
    requires Active(c) ==> ExecShape(c.m, c.sup, call, OpOf(c.sup, o))
    ensures Shape(d)
  {
  }

  lemma OwnerOfCall(c: Sys, o: nat)
    requires Owned(c) && o in c.calls
    ensures c.sup.operation == Some(o)
  {
    hide Threads, Regime, Counted;
    CallsAtOperation(c);
  }

  lemma InvokeShape(c: Sys, o: nat)
    requires Owned(c) && Shape(c) && At(c, o) && Invokable(c.calls[o].pc) && Faithful(c.m, c.calls[o])
    ensures Shape(DoInvoke(c, o))
  {
    hide Owned, OnFail;
    OwnerOfCall(c, o);
    var call, d := c.calls[o], DoInvoke(c, o);
    if InvokeBegin(c.sup, o, ChangeAt(c.m, call), PhaseAt(call)).1 {
      InvokeSupShape(c, o, d);
    } else {
      if Active(c) { FailExecShape(c.m, c.sup, call, OpOf(c.sup, o), false); }
      MovedShape(c, o, OnFail(c.m, call, false), d);
    }
  }

  /** A callback records the change it is about, which an issuing operation already holds. */
  lemma InvokeSupShape(c: Sys, o: nat, d: Sys)
    requires Owned(c) && Shape(c) && At(c, o) && Invokable(c.calls[o].pc) && Faithful(c.m, c.calls[o])
    requires InvokeBegin(c.sup, o, ChangeAt(c.m, c.calls[o]), PhaseAt(c.calls[o])).1 && d == DoInvoke(c, o)
    ensures Shape(d)
  {
    hide Threads, Regime, Counted;
    StandingOf(c, o);
  }

  /** A call that passes or fails where it stands. */
  lemma StirredShape(c: Sys, o: nat, d: Sys)
    requires Owned(c) && Shape(c) && o in c.calls && Faithful(c.m, c.calls[o])
    requires Invokable(c.calls[o].pc) || c.calls[o].pc.DeliverAt?
    requires d.m == c.m && d.now == c.now && d.calls.Keys == c.calls.Keys && d.calls == c.calls[o := d.calls[o]]
    requires SameEvidence(c.sup, d.sup) && d.sup.operation == c.sup.operation
    requires var e := d.calls[o];
      e == OnPass(c.m, c.calls[o]) || e == OnFail(c.m, c.calls[o], true) || e == OnFail(c.m, c.calls[o], false)
      || SameWork(c.calls[o], e)
    ensures Shape(d)
  {
    hide Owned, OnPass, OnFail, Faithful;
    OwnerOfCall(c, o);
    if Active(c) {
      var call, op := c.calls[o], OpOf(c.sup, o);
      PassExecShape(c.m, c.sup, call, op);
      FailExecShape(c.m, c.sup, call, op, true);
      FailExecShape(c.m, c.sup, call, op, false);
    }
    MovedShape(c, o, d.calls[o], d);
  }

  lemma ContextShape(c: Sys, o: nat)
    requires Owned(c) && Shape(c) && At(c, o) && Faithful(c.m, c.calls[o])
    requires c.calls[o].pc.AwaitAt? || c.calls[o].pc.CommitAt? || c.calls[o].pc.FinishAt? || c.calls[o].pc.ResolveAt?
    ensures Shape(c.(calls := c.calls[o := OnContextFailure(c.calls[o])]))
  {
    hide Owned, OnContextFailure, Faithful;
    OwnerOfCall(c, o);
    if Active(c) { ContextExecShape(c.m, c.sup, c.calls[o], OpOf(c.sup, o)); }
    MovedShape(c, o, OnContextFailure(c.calls[o]), c.(calls := c.calls[o := OnContextFailure(c.calls[o])]));
  }

  lemma AcquiringShape(c: Sys, o: nat)
    requires Owned(c) && Shape(c) && o in c.calls && Faithful(c.m, c.calls[o]) && c.calls[o].pc.DeliverAt?
    ensures Shape(DoPrepareAcquire(c, o))
  {
    hide Owned, OnPass, OnFail, Faithful, Shape;
    StirredShape(c, o, DoPrepareAcquire(c, o));
  }

  lemma DeliveryShape(c: Sys, o: nat)
    requires Owned(c) && Shape(c) && o in c.calls && Faithful(c.m, c.calls[o]) && c.calls[o].pc.DeliverAt?
    ensures c.calls[o].inbox.Some? ==> Shape(DoPrepareConsume(c, o))
    ensures Shape(c.(calls := c.calls[o := OnFail(c.m, c.calls[o], false)]))
  {
    hide Owned, OnPass, OnFail, Faithful, Shape;
    if c.calls[o].inbox.Some? { StirredShape(c, o, DoPrepareConsume(c, o)); }
    StirredShape(c, o, c.(calls := c.calls[o := OnFail(c.m, c.calls[o], false)]));
  }

  lemma MoveStepShape(c: Sys, step: Step)
    requires Owned(c) && Shape(c) && Trusted(c) && Moves(step) && CanMove(c, step)
    ensures Shape(ExecMove(c, step))
  {
    hide Owned, Shape, Trusted, Faithful, KindFits, Proposes, OnPass, OnFail, DoPrepare, DoPrepareAcquire, DoPrepareConsume, DoInvoke;
    TrustedCall(c, step.op);
    match step
    case Invoke(o) => InvokeShape(c, o);
    case InvokeFailFast(o) => StirredShape(c, o, ExecMove(c, step));
    case Consume(o) => StirredShape(c, o, ExecMove(c, step));
    case GiveUp(o) => StirredShape(c, o, ExecMove(c, step));
    case PrepareCall(o) => PrepareShape(c, o);
    case PrepareAcquire(o) => AcquiringShape(c, o);
    case PrepareConsume(o) => DeliveryShape(c, o);
    case PrepareTimeout(o) => DeliveryShape(c, o);
    case ContextFailure(o) => ContextShape(c, o);
  }

  lemma AdmitStepShape(c: Sys, step: Step)
    requires Owned(c) && Shape(c) && Admits(step)
    ensures Shape(ExecAdmit(c, step))
  {
    hide Owned, Shape, Admissible, Admitted;
    var (r, call) := AdmissionOf(c, step);
    AdmissionAdmissible(c, step);
    AdmittedShape(c, r, call);
  }

  lemma DecideStepShape(c: Sys, step: Step)
    requires Owned(c) && Shape(c) && Trusted(c) && Decides(step) && CanDecide(c, step)
    ensures Shape(ExecDecide(c, step))
  {
    hide Owned, Shape, Trusted, Faithful, DoAwait, DoCommit, DoFinish, DoLatch, DoResolve, DoRestoreFault;
    TrustedCall(c, step.op);
    match step
    case AwaitCall(o) => AwaitShape(c, o);
    case CommitCall(o) => CommitShape(c, o);
    case FinishCall(o) => FinishShape(c, o);
    case LatchCall(o, cause) => LatchCallShape(c, o, cause);
    case ResolveCall(o) => ResolveShape(c, o);
    case RestoreFaultCall(o) => RestoreFaultShape(c, o);
  }

  lemma SignalShape(c: Sys, step: Step)
    requires Owned(c) && Shape(c) && (step.TripCall? || step.Timer?)
    ensures Shape(ExecSignal(c, step))
  {
    hide Owned, Shape, DoTrip, Expire;
    match step
    case TripCall(cause) => TripShape(c, cause);
    case Timer(attempt, version) =>
      if TimerFired(c.m, c.sup, attempt, version, c.now).1 { ExpireShape(c, DoTimer(c, attempt, version)); }
  }

  /** Every step of the running system keeps the shape of the evidence. */
  lemma StepShape(c: Sys, step: Step)
    requires Owned(c) && Shape(c) && Trusted(c) && Enabled(c, step) && !Reincarnates(step)
    ensures Shape(Exec(c, step))
  {
    hide Owned, Shape, Trusted, Quiet, ExecAdmit, ExecMove, ExecDecide, ExecRun, ExecPublish, ExecSignal, ExecReincarnate;
    hide CanMove, CanDecide, CanRun, CanPublish, CanSignal, CanReincarnate;
    if Admits(step) {
      AdmitStepShape(c, step);
    } else if Moves(step) {
      MoveStepShape(c, step);
    } else if Decides(step) {
      DecideStepShape(c, step);
    } else if Hushed(step) {
      HushedQuiet(c, step);
      QuietShape(c, Exec(c, step));
    } else {
      SignalShape(c, step);
    }
  }

  // ------------------------------------------------------------- journal

  lemma AdmitStepJournaled(c: Sys, step: Step)
    requires c.running && Owned(c) && Shape(c) && Journaled(c) && Admits(step)
    ensures Journaled(ExecAdmit(c, step))
  {
    hide Owned, Shape, Journaled, Admissible, Admitted;
    AdmissionAdmissible(c, step);
    AdmittedJournaled(c, AdmissionOf(c, step).0, AdmissionOf(c, step).1);
  }

  lemma MoveStepJournaled(c: Sys, step: Step)
    requires c.running && Owned(c) && Shape(c) && Trusted(c) && Journaled(c) && Moves(step) && CanMove(c, step)
    ensures Journaled(ExecMove(c, step))
  {
    hide Owned, Shape, Trusted, Journaled, Faithful, Proposes, KindFits;
    hide OnPass, OnFail, OnContextFailure, DoPrepare, DoPrepareAcquire, DoInvoke, DoGiveUp;
    TrustedCall(c, step.op);
    match step
    case Invoke(o) => InvokeJournaled(c, o);
    case InvokeFailFast(o) => StopJournaled(c, o, OnFail(c.m, c.calls[o], false), ExecMove(c, step));
    case Consume(o) => ConsumeJournaled(c, o, DoConsume(c, o).calls[o], DoConsume(c, o));
    case GiveUp(o) => GiveUpJournaled(c, o);
    case PrepareCall(o) => PrepareJournaled(c, o);
    case PrepareAcquire(o) => PrepareAcquireJournaled(c, o);
    case PrepareConsume(o) => ConsumeJournaled(c, o, DoPrepareConsume(c, o).calls[o], DoPrepareConsume(c, o));
    case PrepareTimeout(o) => StopJournaled(c, o, OnFail(c.m, c.calls[o], false), ExecMove(c, step));
    case ContextFailure(o) => StopJournaled(c, o, OnContextFailure(c.calls[o]), ExecMove(c, step));
  }

  lemma DecideStepJournaled(c: Sys, step: Step)
    requires c.running && Owned(c) && Shape(c) && Trusted(c) && Journaled(c) && Decides(step) && CanDecide(c, step)
    ensures Journaled(ExecDecide(c, step))
  {
    hide Owned, Shape, Trusted, Journaled, Faithful, DoAwait, DoCommit, DoFinish, DoLatch, DoResolve, DoRestoreFault;
    TrustedCall(c, step.op);
    match step
    case AwaitCall(o) => AwaitJournaled(c, o);
    case CommitCall(o) => CommitJournaled(c, o);
    case FinishCall(o) => FinishJournaled(c, o);
    case LatchCall(o, cause) => LatchCallJournaled(c, o, cause);
    case ResolveCall(o) => ResolveJournaled(c, o);
    case RestoreFaultCall(o) => RestoreFaultJournaled(c, o);
  }

  /** While an application callback is live, no call waits for the Journal. */
  lemma NoneDelivering(c: Sys, k: nat)
    requires Owned(c) && k in c.live && c.live[k].App?
    ensures forall o | o in c.calls :: !c.calls[o].pc.DeliverAt?
  {
    hide Regime, Counted;
    assert LiveOwned(c, k);
    forall o | o in c.calls ensures !c.calls[o].pc.DeliverAt? {
      assert CallOwned(c, o);
    }
  }

  lemma SilentJournaled(c: Sys, d: Sys)
    requires c.running && Journaled(c) && Quiet(c, d) && Owned(d) && d.image == c.image && SameWrites(c, d)
    requires forall o | o in c.calls && o in d.calls && c.calls[o].pc.DeliverAt? ::
      d.calls[o].waiting == c.calls[o].waiting && d.calls[o].inbox == c.calls[o].inbox
    requires forall o, k | o in d.calls && d.calls[o].waiting == Some(k) && k in d.live && d.live[k].JournalWrite? ::
      k in c.live && c.live[k] == d.live[k]
    ensures Journaled(d)
  {
    hide Threads, Counted, Recorded, AllRestorable;
    EvidenceDoubt(c.sup, d.sup);
    JournaledFrame(c, d);
  }

  lemma CleanupJournaled(c: Sys, k: nat, outcome: Outcome)
    requires c.running && Owned(c) && Journaled(c) && k in c.live && c.live[k].App? && !c.live[k].late
    ensures Journaled(DoCleanup(c, k, outcome))
  {
    hide Owned, Journaled, Quiet, Deliver, CallbackReturned;
    var d := DoCleanup(c, k, outcome);
    CleanupQuiet(c, k, outcome);
    CleanupOwned(c, k, outcome);
    NoneDelivering(c, k);
    SilentJournaled(c, d);
  }

  lemma RecorderJournaled(c: Sys, k: nat)
    requires c.running && Owned(c) && Journaled(c) && k in c.live && c.live[k].RecorderWrite?
    ensures Journaled(DoRecorderFinish(c, k))
  {
    hide Owned, Journaled, Quiet, Release;
    RecorderFinishQuiet(c, k);
    RecorderFinishOwned(c, k);
    SilentJournaled(c, DoRecorderFinish(c, k));
  }

  lemma RunStepJournaled(c: Sys, step: Step)
    requires c.running && Owned(c) && Shape(c) && Journaled(c) && Runs(step) && CanRun(c, step)
    ensures Journaled(ExecRun(c, step))
  {
    hide Owned, Shape, Journaled, DoCleanup, DoCapture, DoSave, DoJournalFinish, DoRecorderFinish;
    match step
    case Cleanup(k, outcome) => CleanupJournaled(c, k, outcome);
    case JournalCapture(k) => CaptureJournaled(c, k);
    case JournalSave(k) => SaveJournaled(c, k);
    case JournalFinish(k, ok) => JournalFinishJournaled(c, k, ok);
    case RecorderFinish(k) =>
      RecorderJournaled(c, k);
  }

  /** A waiting call's callback is older than the one a publication starts. */
  lemma WaitsForOlder(c: Sys)
    requires Owned(c)
    ensures forall o | o in c.calls :: c.calls[o].waiting != Some(c.nextId)
    ensures c.nextId !in c.live
  {
    hide Regime, Counted;
    forall o | o in c.calls ensures c.calls[o].waiting != Some(c.nextId) {
      assert CallOwned(c, o);
    }
  }

  lemma SameCallsJournaled(c: Sys, d: Sys)
    requires c.running && Owned(c) && Journaled(c) && Quiet(c, d) && Owned(d) && d.image == c.image && d.calls == c.calls
    requires forall k | k in d.live ::
      (k in c.live && c.live[k] == d.live[k]) || (k == c.nextId && (d.live[k].JournalWrite? ==> d.live[k].snap.None? && !d.live[k].saved))
    ensures Journaled(d)
  {
    hide Owned, Journaled, Quiet;
    WaitsForOlder(c);
    SilentJournaled(c, d);
  }

  lemma PublishStepJournaled(c: Sys, step: Step)
    requires c.running && Owned(c) && Journaled(c) && Publishes(step) && CanPublish(c, step)
    ensures Journaled(ExecPublish(c, step))
  {
    hide Owned, Journaled, Quiet, Acquire, CallbackReturned, OperationReturned, ReportingReturned;
    PublishQuiet(c, step);
    PublishStepOwned(c, step);
    SameCallsJournaled(c, ExecPublish(c, step));
  }

  lemma SignalStepJournaled(c: Sys, step: Step)
    requires c.running && Owned(c) && Shape(c) && Journaled(c) && Signals(step) && CanSignal(c, step)
    ensures Journaled(ExecSignal(c, step))
  {
    hide Owned, Shape, Journaled, Quiet, DoTrip, Expire;
    if step.TripCall? {
      TripJournaled(c, step.cause);
    } else if step.Timer? {
      if TimerFired(c.m, c.sup, step.sequence, step.version, c.now).1 {
        ExpireJournaled(c, DoTimer(c, step.sequence, step.version));
      }
    } else {
      SignalQuiet(c, step);
      SignalStepOwned(c, step);
      SilentJournaled(c, ExecSignal(c, step));
    }
  }

  /** Every step of the running system keeps the Journal's promise. */
  lemma StepJournaled(c: Sys, step: Step)
    requires c.running && Owned(c) && Shape(c) && Trusted(c) && Journaled(c) && Enabled(c, step) && !Reincarnates(step)
    ensures Journaled(Exec(c, step))
  {
    hide Owned, Shape, Trusted, Journaled, ExecAdmit, ExecMove, ExecDecide, ExecRun, ExecPublish, ExecSignal, ExecReincarnate;
    hide CanMove, CanDecide, CanRun, CanPublish, CanSignal, CanReincarnate;
    if Admits(step) {
      AdmitStepJournaled(c, step);
    } else if Moves(step) {
      MoveStepJournaled(c, step);
    } else if Decides(step) {
      DecideStepJournaled(c, step);
    } else if Runs(step) {
      RunStepJournaled(c, step);
    } else if Publishes(step) {
      PublishStepJournaled(c, step);
    } else {
      SignalStepJournaled(c, step);
    }
  }
}
