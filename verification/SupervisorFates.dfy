/**
 * The fate of every callback outcome, and the freshness of every attempt.
 */
module SupervisorFates {
  import opened Basics
  import opened SupervisorTypes
  import opened SupervisorSpec
  import opened SupervisorSystem
  import opened SupervisorTrace
  import opened SupervisorOwnership
  import opened SupervisorDoubt
  import opened SupervisorFrames
  import opened SupervisorCalls
  import opened SupervisorLatch
  import opened SupervisorCounters

  // ------------------------------------------------------------- outcomes

  /** A callback has at most one fate, and no fate before its outcome is dealt with. */
  ghost predicate Fates(c: Sys) {
    && c.h.primary !! c.h.secondary
    && (forall k | k in c.h.primary || k in c.h.secondary :: k < c.nextId)
    && (forall k | k in c.live && c.live[k].App? :: k !in c.h.primary && (c.live[k].late <==> k in c.h.secondary))
    && (forall o | o in c.calls && c.calls[o].waiting.Some? && Invokable(c.calls[o].pc) ::
          c.calls[o].waiting.value !in c.h.primary + c.h.secondary)
  }

  /** Nothing about callbacks changes: fates, waiting calls, or which callbacks live. */
  ghost predicate FateFrame(c: Sys, d: Sys) {
    && d.h.primary == c.h.primary && d.h.secondary == c.h.secondary && c.nextId <= d.nextId
    && (forall k | k in d.live && d.live[k].App? :: (k in c.live && d.live[k] == c.live[k]) || (c.nextId <= k && !d.live[k].late))
    && (forall o | o in d.calls && d.calls[o].waiting.Some? && Invokable(d.calls[o].pc) ::
          (o in c.calls && c.calls[o].waiting == d.calls[o].waiting && Invokable(c.calls[o].pc)) || c.nextId <= d.calls[o].waiting.value)
  }

  lemma FramedFates(c: Sys, d: Sys)
    requires Fates(c) && FateFrame(c, d)
    ensures Fates(d)
  {
  }

  lemma PassesWaitForNothing(m: Machine, call: Call)
    ensures OnPass(m, call.(pc := DeliverAt)).waiting.None?
    ensures Invokable(call.pc) || call.pc.DeliverAt? ==> OnPass(m, call).waiting.None?
    ensures Invokable(call.pc) || call.pc.DeliverAt? || call.pc.PrepareAt? ==>
      OnFail(m, call, true).waiting.None? && OnFail(m, call, false).waiting.None?
  {
    hide OnPass, OnFail;
    PassShape(m, call.(pc := DeliverAt));
    if Invokable(call.pc) || call.pc.DeliverAt? { PassShape(m, call); }
    if Invokable(call.pc) || call.pc.DeliverAt? || call.pc.PrepareAt? {
      FailShape(m, call, true);
      FailShape(m, call, false);
    }
  }

  predicate Prepares(step: Step) {
    step.PrepareCall? || step.PrepareAcquire?
  }

  /** Only the call of `o` moves; it waits for nothing, or for a Journal write. */
  lemma OwnFrames(c: Sys, d: Sys, o: nat)
    requires o in c.calls && o in d.calls && d.h == c.h && d.calls == c.calls[o := d.calls[o]]
    requires d.calls[o].waiting.None? || !Invokable(d.calls[o].pc)
    requires c.nextId <= d.nextId && forall k | k in d.live && d.live[k].App? :: k in c.live && d.live[k] == c.live[k]
    ensures FateFrame(c, d)
  {
  }

  lemma PrepareFrames(c: Sys, step: Step)
    requires Prepares(step) && CanMove(c, step)
    ensures FateFrame(c, ExecMove(c, step))
  {
    hide FateFrame, OnPass, OnFail, PrepareBegin, Acquire;
    PassesWaitForNothing(c.m, c.calls[step.op]);
    OwnFrames(c, ExecMove(c, step), step.op);
  }

  lemma CallFrames(c: Sys, o: nat)
    requires At(c, o) && Invokable(c.calls[o].pc)
    ensures FateFrame(c, DoInvoke(c, o))
  {
    hide OnFail, InvokeBegin, ChangeAt, PhaseAt;
    PassesWaitForNothing(c.m, c.calls[o]);
  }

  lemma InvokeFrames(c: Sys, step: Step)
    requires Moves(step) && !Prepares(step) && CanMove(c, step) && !step.Consume?
    ensures FateFrame(c, ExecMove(c, step))
  {
    hide FateFrame, OnPass, OnFail, DoInvoke, Abandon, ChangeAt, PhaseAt;
    if step.Invoke? {
      CallFrames(c, step.op);
    } else {
      PassesWaitForNothing(c.m, c.calls[step.op]);
      OwnFrames(c, ExecMove(c, step), step.op);
    }
  }

  lemma MoveFates(c: Sys, step: Step)
    requires Fates(c) && Moves(step) && CanMove(c, step) && !step.Consume?
    ensures Fates(ExecMove(c, step))
  {
    hide Fates, FateFrame, ExecMove, CanMove;
    if Prepares(step) {
      PrepareFrames(c, step);
    } else {
      InvokeFrames(c, step);
    }
    FramedFates(c, ExecMove(c, step));
  }

  /** invoke consumes an outcome that has no fate yet, and makes it primary. */
  lemma ConsumeFates(c: Sys, o: nat)
    requires Owned(c) && Fates(c) && o in c.calls && Invokable(c.calls[o].pc) && c.calls[o].waiting.Some? && c.calls[o].inbox.Some?
    ensures Fates(DoConsume(c, o))
    ensures var k := c.calls[o].waiting.value; k !in c.h.primary + c.h.secondary && k !in c.live
  {
    hide Regime, Counted, OnPass, OnFail;
    PassesWaitForNothing(c.m, c.calls[o]);
    assert CallOwned(c, o);
    OnlyCall(c, o);
  }

  /** Cleanup makes an outcome secondary only if it failed after it was abandoned, and only once. */
  lemma CleanupFates(c: Sys, k: nat, outcome: Outcome)
    requires Owned(c) && Fates(c) && k in c.live && c.live[k].App? && !c.live[k].late
    ensures Fates(DoCleanup(c, k, outcome))
    ensures k !in c.h.primary + c.h.secondary
    ensures var d := DoCleanup(c, k, outcome);
      if OpOf(c.sup, c.live[k].op).abandoned then
        d.h.secondary == (if outcome.Passed? then c.h.secondary else c.h.secondary + {k}) && d.calls == c.calls
      else
        && d.h == c.h && c.live[k].op in c.calls
        && d.calls == c.calls[c.live[k].op := c.calls[c.live[k].op].(inbox := Some(outcome))]
  {
    hide Regime, Counted;
    assert LiveOwned(c, k);
    forall o | o in c.calls && OpOf(c.sup, c.live[k].op).abandoned ensures !Invokable(c.calls[o].pc) {
      assert CallOwned(c, o);
    }
  }

  lemma LateFates(c: Sys, p: nat)
    requires Owned(c) && Fates(c) && p in c.pubs
    ensures Fates(DoPubReturn(c, p))
  {
    hide Owned, Fates, CallbackReturned, OperationReturned, ReportingReturned;
    FramedFates(c, DoPubReturn(c, p));
  }

  lemma JournalFinishFates(c: Sys, k: nat, ok: bool)
    requires Fates(c) && k in c.live && c.live[k].JournalWrite?
    ensures Fates(DoJournalFinish(c, k, ok))
  {
    hide Fates, Release, Deliver;
    if c.live[k].owner.Some? { DeliverSame(c, c.live[k].owner.value, k, if ok then Passed else Failed); }
    FramedFates(c, DoJournalFinish(c, k, ok));
  }

  lemma DeliveryFates(c: Sys, k: nat)
    requires Fates(c) && k in c.live
    ensures c.live[k].JournalWrite? ==> Fates(DoCapture(c, k)) && Fates(DoSave(c, k))
    ensures c.live[k].RecorderWrite? ==> Fates(DoRecorderFinish(c, k))
  {
    hide Fates, Release, SnapshotOf;
    if c.live[k].JournalWrite? {
      FramedFates(c, DoCapture(c, k));
      FramedFates(c, DoSave(c, k));
    } else if c.live[k].RecorderWrite? {
      FramedFates(c, DoRecorderFinish(c, k));
    }
  }

  lemma RunFates(c: Sys, step: Step)
    requires Owned(c) && Fates(c) && Runs(step) && CanRun(c, step)
    ensures Fates(ExecRun(c, step))
  {
    hide Owned, Fates, DoCleanup, DoJournalFinish, DoCapture, DoSave, DoRecorderFinish;
    match step
    case Cleanup(k, outcome) => CleanupFates(c, k, outcome);
    case JournalFinish(k, ok) => JournalFinishFates(c, k, ok);
    case JournalCapture(k) => DeliveryFates(c, k);
    case JournalSave(k) => DeliveryFates(c, k);
    case RecorderFinish(k) => DeliveryFates(c, k);
  }

  /** No call and no application callback is touched; a delivery may start. */
  predicate Aside(c: Sys, d: Sys) {
    && d.h == c.h && d.calls == c.calls
    && ((d.live == c.live && d.nextId == c.nextId)
        || (d.nextId == c.nextId + 1 && c.nextId in d.live && !d.live[c.nextId].App? && d.live == c.live[c.nextId := d.live[c.nextId]]))
  }

  lemma AsideFrames(c: Sys, d: Sys)
    requires Aside(c, d)
    ensures FateFrame(c, d)
  {
  }

  lemma PublishAside(c: Sys, step: Step)
    requires Publishes(step) && CanPublish(c, step) && !step.PubReturn?
    ensures Aside(c, ExecPublish(c, step))
  {
    hide Acquire;
  }

  lemma PublishFates(c: Sys, step: Step)
    requires Owned(c) && Fates(c) && Publishes(step) && CanPublish(c, step)
    ensures Fates(ExecPublish(c, step))
  {
    hide Owned, Fates, FateFrame, Aside, DoPubReturn, DoPubJournal, DoPubJournalDone, DoPubRecord, SetStage;
    if step.PubReturn? {
      LateFates(c, step.pub);
    } else {
      PublishAside(c, step);
      AsideFrames(c, ExecPublish(c, step));
      FramedFates(c, ExecPublish(c, step));
    }
  }

  lemma AdmitFates(c: Sys, r: (Sup, Admission), call: Call)
    requires Fates(c) && call.waiting.None?
    ensures Fates(Admitted(c, r, call))
  {
    hide Fates;
    match r.1
    case Refused(_) => FramedFates(c, Admitted(c, r, call));
    case Begun(o, _) => FramedFates(c, Admitted(c, r, call));
    case Exhausted(o, _, _, _) => FramedFates(c, Admitted(c, r, call));
    case Expired => FramedFates(c, Admitted(c, r, call));
  }

  lemma AdmittedWaits(c: Sys, step: Step)
    requires Admits(step)
    ensures AdmissionOf(c, step).1.waiting.None?
    ensures ExecAdmit(c, step) == Admitted(c, AdmissionOf(c, step).0, AdmissionOf(c, step).1)
  {
    hide AdmitStart, AdmitIssue, AdmitVerify, AdmitAdjudicate, ToPrecondition, Admitted;
    match step
    case CallIssue(event) => IssueCallShape(c.m, ChangeOf(AdmissionOf(c, step).0.1));
    case _ =>
  }

  lemma DecidingFrames(c: Sys, o: nat, sup: Sup, durable: bool)
    ensures FateFrame(c, Decide(c, o, sup, durable))
  {
  }

  lemma AsideHistory(c: Sys, d: Sys, e: Sys)
    requires FateFrame(c, e) && d.live == e.live && d.calls == e.calls && d.nextId == e.nextId
    requires d.h.primary == e.h.primary && d.h.secondary == e.h.secondary
    ensures FateFrame(c, d)
  {
  }

  lemma DecisionFrames(c: Sys, step: Step)
    requires Decides(step) && CanDecide(c, step)
    ensures FateFrame(c, ExecDecide(c, step))
  {
    hide FateFrame, Latch, AwaitVerification, Commit, FinishReady, Resolve, RestoreFault;
    DecidingFrames(c, step.op, c.sup, true);
    AsideHistory(c, ExecDecide(c, step), Decide(c, step.op, c.sup, true));
  }

  lemma DecideFates(c: Sys, step: Step)
    requires Fates(c) && Decides(step) && CanDecide(c, step)
    ensures Fates(ExecDecide(c, step))
  {
    hide Fates, FateFrame, ExecDecide;
    DecisionFrames(c, step);
    FramedFates(c, ExecDecide(c, step));
  }

  lemma SignalFates(c: Sys, step: Step)
    requires Fates(c) && Signals(step) && CanSignal(c, step)
    ensures Fates(ExecSignal(c, step))
  {
    hide Fates, Trip, TimerFired;
    FramedFates(c, ExecSignal(c, step));
  }

  lemma StepFates(c: Sys, step: Step)
    requires Owned(c) && Fates(c) && Enabled(c, step) && !Reincarnates(step)
    ensures Fates(Exec(c, step))
  {
    hide Owned, Fates, Admissible, AdmissionOf, Admitted, ExecAdmit, ExecDecide, ExecRun, ExecPublish, ExecSignal, ExecReincarnate;
    hide CanDecide, CanRun, CanPublish, CanSignal, CanReincarnate;
    if Admits(step) {
      AdmittedWaits(c, step);
      AdmitFates(c, AdmissionOf(c, step).0, AdmissionOf(c, step).1);
    } else if step.Consume? {
      ConsumeFates(c, step.op);
    } else if Moves(step) {
      MoveFates(c, step);
    } else if Decides(step) {
      DecideFates(c, step);
    } else if Runs(step) {
      RunFates(c, step);
    } else if Publishes(step) {
      PublishFates(c, step);
    } else {
      SignalFates(c, step);
    }
  }

  /** The delivered outcome of `o` is still there in `d`. */
  predicate StillDelivered(c: Sys, d: Sys, o: nat)
    requires o in c.calls
  {
    o in d.calls && d.calls[o].waiting == c.calls[o].waiting && d.calls[o].inbox == c.calls[o].inbox && d.calls[o].pc == c.calls[o].pc
  }

  predicate HasOutcome(c: Sys, o: nat) {
    o in c.calls && Invokable(c.calls[o].pc) && c.calls[o].waiting.Some? && c.calls[o].inbox.Some?
  }

  lemma AdmitKeepsInbox(c: Sys, r: (Sup, Admission), call: Call, o: nat)
    requires Owned(c) && Admissible(c, r, call) && HasOutcome(c, o)
    ensures StillDelivered(c, Admitted(c, r, call), o)
  {
    hide Regime, Counted;
    assert CallOwned(c, o);
  }

  lemma DeliverKeepsInbox(c: Sys, p: nat, k: nat, outcome: Outcome, o: nat)
    requires o in c.calls && c.calls[o].waiting.Some? && c.calls[o].waiting.value != k
    ensures o in Deliver(c, p, k, outcome) && Deliver(c, p, k, outcome)[o] == c.calls[o]
  {
  }

  lemma JournalKeepsInbox(c: Sys, k: nat, ok: bool, o: nat)
    requires k in c.live && c.live[k].JournalWrite? && o in c.calls && c.calls[o].waiting.Some? && c.calls[o].waiting.value != k
    ensures StillDelivered(c, DoJournalFinish(c, k, ok), o)
    ensures StillDelivered(c, DoCapture(c, k), o) && StillDelivered(c, DoSave(c, k), o)
  {
    hide Deliver, Release, SnapshotOf;
    if c.live[k].owner.Some? { DeliverKeepsInbox(c, c.live[k].owner.value, k, if ok then Passed else Failed, o); }
  }

  lemma CleanupKeepsInbox(c: Sys, k: nat, outcome: Outcome, o: nat)
    requires k in c.live && c.live[k].App? && o in c.calls && c.calls[o].waiting.Some? && c.calls[o].waiting.value != k
    ensures StillDelivered(c, DoCleanup(c, k, outcome), o)
  {
    hide Deliver, CallbackReturned;
    DeliverKeepsInbox(c, c.live[k].op, k, outcome, o);
  }

  lemma RecorderKeepsInbox(c: Sys, k: nat, o: nat)
    requires k in c.live && c.live[k].RecorderWrite? && o in c.calls
    ensures StillDelivered(c, DoRecorderFinish(c, k), o)
  {
    hide Release;
  }

  lemma RunKeepsInbox(c: Sys, step: Step, o: nat)
    requires Owned(c) && Runs(step) && CanRun(c, step) && HasOutcome(c, o)
    ensures StillDelivered(c, ExecRun(c, step), o)
  {
    hide Owned, StillDelivered, DoCleanup, DoJournalFinish, DoCapture, DoSave, DoRecorderFinish;
    DeliveredIsGone(c, o);
    match step
    case Cleanup(k, outcome) => CleanupKeepsInbox(c, k, outcome, o);
    case JournalFinish(k, ok) => JournalKeepsInbox(c, k, ok, o);
    case JournalCapture(k) => JournalKeepsInbox(c, k, true, o);
    case JournalSave(k) => JournalKeepsInbox(c, k, true, o);
    case RecorderFinish(k) => RecorderKeepsInbox(c, k, o);
  }

  lemma DeliveredIsGone(c: Sys, o: nat)
    requires Owned(c) && HasOutcome(c, o)
    ensures c.calls[o].waiting.value !in c.live
  {
    hide Regime, Counted;
    assert CallOwned(c, o);
  }

  lemma OthersKeepInbox(c: Sys, step: Step, o: nat)
    requires HasOutcome(c, o) && (Publishes(step) ==> CanPublish(c, step)) && (Signals(step) ==> CanSignal(c, step))
    ensures Publishes(step) ==> StillDelivered(c, ExecPublish(c, step), o)
    ensures Signals(step) ==> StillDelivered(c, ExecSignal(c, step), o)
  {
    hide StillDelivered, ExecPublish, ExecSignal, CanPublish, CanSignal;
    if Publishes(step) { PublishKeepsInbox(c, step, o); }
    if Signals(step) { SignalKeepsInbox(c, step, o); }
  }

  lemma PublishKeepsInbox(c: Sys, step: Step, o: nat)
    requires HasOutcome(c, o) && Publishes(step) && CanPublish(c, step)
    ensures StillDelivered(c, ExecPublish(c, step), o)
  {
    hide Acquire, CallbackReturned, OperationReturned, ReportingReturned;
  }

  lemma SignalKeepsInbox(c: Sys, step: Step, o: nat)
    requires HasOutcome(c, o) && Signals(step) && CanSignal(c, step)
    ensures StillDelivered(c, ExecSignal(c, step), o)
  {
    hide Trip, TimerFired;
  }

  /** A delivered outcome stays until invoke consumes it: nothing else overwrites or drops it. */
  lemma DeliveredIsConsumed(c: Sys, step: Step, o: nat)
    requires Owned(c) && Enabled(c, step) && !Reincarnates(step) && HasOutcome(c, o)
    ensures StillDelivered(c, Exec(c, step), o) || (step == Consume(o) && c.calls[o].waiting.value in Exec(c, step).h.primary)
  {
    hide Owned, Admissible, AdmissionOf, Admitted, ExecAdmit, ExecRun, ExecPublish, ExecSignal, CanRun, CanPublish, CanSignal, OnPass, OnFail;
    if Admits(step) {
      AdmissionAdmissible(c, step);
      AdmitKeepsInbox(c, AdmissionOf(c, step).0, AdmissionOf(c, step).1, o);
    } else if Moves(step) || Decides(step) {
      OwnerOfDelivery(c, step, o);
    } else if Runs(step) {
      RunKeepsInbox(c, step, o);
    } else {
      OthersKeepInbox(c, step, o);
    }
  }

  /** There is only one call, and it is waiting. */
  lemma OwnerOfDelivery(c: Sys, step: Step, o: nat)
    requires Owned(c) && HasOutcome(c, o) && (Moves(step) || Decides(step))
    requires (Moves(step) ==> CanMove(c, step)) && (Decides(step) ==> CanDecide(c, step))
    ensures step == Consume(o)
  {
    hide Regime, Counted;
    CallsAtOperation(c);
  }

  /** An operation one of whose callbacks was abandoned starts no further callback. */
  lemma AbandonedStartsNothing(c: Sys, o: nat)
    requires Owned(c) && o in c.calls && OpOf(c.sup, o).abandoned
    ensures !Enabled(c, Invoke(o)) && !Enabled(c, PrepareAcquire(o))
  {
    hide Regime, Counted;
    assert CallOwned(c, o);
  }

  // ------------------------------------------------------------ freshness

  /** The Issue callback of this call has not started. */
  predicate Unstarted(call: Call) {
    call.kind.IssueCall? && !call.pc.FailAt? && !call.pc.AwaitAt? && (call.pc.IssueAt? ==> call.waiting.None?)
  }

  ghost predicate StartedKnown(c: Sys) {
    forall a | a in c.h.started :: a.inc in c.h.incarnations && (c.running && a.inc == c.sup.inc ==> a.sequence <= c.sup.attempt)
  }

  /** Every started attempt is a past one, and the next attempt to start is not among them. */
  ghost predicate Fresh(c: Sys) {
    && StartedKnown(c)
    && (c.running ==> c.sup.inc in c.h.incarnations)
    && (c.running && Active(c) ==>
          var call := c.calls[c.sup.operation.value];
          Unstarted(call) ==> call.attempt.Identifier() !in c.h.started)
  }

  /** No callback starts, and the active call, if any, was active before and had not started later. */
  ghost predicate FreshFrame(c: Sys, d: Sys) {
    && d.running == c.running && d.h.started == c.h.started && d.h.incarnations == c.h.incarnations
    && d.sup.inc == c.sup.inc && c.sup.attempt <= d.sup.attempt
    && (Active(d) ==> Active(c) && d.sup.operation == c.sup.operation)
    && (Active(d) ==>
          var o := c.sup.operation.value;
          && o in c.calls && d.calls[o].attempt == c.calls[o].attempt
          && (Unstarted(d.calls[o]) ==> Unstarted(c.calls[o])))
  }

  lemma FramedFresh(c: Sys, d: Sys)
    requires Fresh(c) && FreshFrame(c, d)
    ensures Fresh(d)
  {
  }

  lemma QuietFresh(c: Sys, d: Sys)
    requires Fresh(c) && Quiet(c, d)
    ensures Fresh(d)
  {
    hide Fresh;
    FramedFresh(c, d);
  }

  lemma MovedUnstarted(m: Machine, call: Call)
    requires Faithful(m, call)
    ensures Invokable(call.pc) || call.pc.DeliverAt? ==>
      OnPass(m, call).attempt == call.attempt && OnPass(m, call).kind == call.kind && (call.pc.IssueAt? ==> !Unstarted(OnPass(m, call)))
    ensures Invokable(call.pc) || call.pc.DeliverAt? || call.pc.PrepareAt? ==>
      && OnFail(m, call, true).attempt == call.attempt && (call.pc.IssueAt? ==> !Unstarted(OnFail(m, call, true)))
      && OnFail(m, call, false).attempt == call.attempt && (call.pc.IssueAt? ==> !Unstarted(OnFail(m, call, false)))
      && OnFail(m, call, true).kind == call.kind && OnFail(m, call, false).kind == call.kind
  {
    hide OnPass, OnFail;
    if Invokable(call.pc) || call.pc.DeliverAt? { PassShape(m, call); }
    if Invokable(call.pc) || call.pc.DeliverAt? || call.pc.PrepareAt? {
      FailShape(m, call, true);
      FailShape(m, call, false);
    }
  }

  /** A call that passes or fails where it stands has not started anything by that. */
  lemma StirredFresh(c: Sys, o: nat, d: Sys)
    requires Fresh(c) && Owned(c) && o in c.calls && Faithful(c.m, c.calls[o]) && TokensMoved(c.sup, d.sup)
    requires Invokable(c.calls[o].pc) || c.calls[o].pc.DeliverAt? || c.calls[o].pc.PrepareAt?
    requires d.running == c.running && d.h.started == c.h.started && d.h.incarnations == c.h.incarnations
    requires d.calls.Keys == c.calls.Keys && d.calls == c.calls[o := d.calls[o]] && TokensKept(c.sup, d.sup)
    requires var e := d.calls[o];
      (e == OnPass(c.m, c.calls[o]) && !c.calls[o].pc.PrepareAt?) || e == OnFail(c.m, c.calls[o], true) || e == OnFail(c.m, c.calls[o], false)
      || (!c.calls[o].pc.IssueAt? && e.kind == c.calls[o].kind && e.attempt == c.calls[o].attempt)
    ensures Fresh(d)
  {
    hide Owned, Fresh, OnPass, OnFail, Faithful;
    MovedUnstarted(c.m, c.calls[o]);
    CallsHaveTokens(c);
    ActiveBefore(c, d);
    FramedFresh(c, d);
  }

  lemma ActiveBefore(c: Sys, d: Sys)
    requires TokensMoved(c.sup, d.sup) && TokensKept(c.sup, d.sup) && d.calls.Keys == c.calls.Keys
    requires forall o | o in c.calls :: o in c.sup.ops
    ensures Active(d) ==> Active(c) && d.sup.operation == c.sup.operation
  {
  }

  /** The Issue callback that starts is one that never started before. */
  lemma InvokeFresh(c: Sys, o: nat)
    requires c.running && Owned(c) && Shape(c) && Fresh(c) && At(c, o) && Invokable(c.calls[o].pc) && Faithful(c.m, c.calls[o])
    ensures Fresh(DoInvoke(c, o))
    ensures var call := c.calls[o];
      call.pc.IssueAt? && InvokeBegin(c.sup, o, ChangeAt(c.m, call), PhaseAt(call)).1 ==>
        call.change.Identifier() !in c.h.started && call.change.Identifier() in DoInvoke(c, o).h.started
  {
    hide Threads, Regime, Counted, OnFail;
    var call, d := c.calls[o], DoInvoke(c, o);
    StandingOf(c, o);
    if InvokeBegin(c.sup, o, ChangeAt(c.m, call), PhaseAt(call)).1 {
      InvokedFresh(c, o, d);
    } else {
      InvokeMoves(c.sup, o, ChangeAt(c.m, call), PhaseAt(call));
      StirredFresh(c, o, d);
    }
  }

  lemma InvokedFresh(c: Sys, o: nat, d: Sys)
    requires c.running && At(c, o) && Standing(c, o) && Owns(c.sup, o) && Shape(c) && Fresh(c) && Invokable(c.calls[o].pc)
    requires Faithful(c.m, c.calls[o]) && d == DoInvoke(c, o)
    requires InvokeBegin(c.sup, o, ChangeAt(c.m, c.calls[o]), PhaseAt(c.calls[o])).1
    ensures Fresh(d)
    ensures var call := c.calls[o];
      call.pc.IssueAt? ==> call.change.Identifier() !in c.h.started && call.change.Identifier() in d.h.started
  {
    var call := c.calls[o];
    assert Active(c);
    if call.pc.IssueAt? {
      assert call.change.Identifier() == call.attempt.Identifier();
      assert d.h.started == c.h.started + {call.change.Identifier()};
    } else {
      assert d.h == c.h;
    }
  }

  lemma ContextFresh(c: Sys, o: nat)
    requires Fresh(c) && At(c, o)
    ensures Fresh(c.(calls := c.calls[o := OnContextFailure(c.calls[o])]))
  {
  }

  lemma MoveFresh(c: Sys, step: Step)
    requires c.running && Owned(c) && Shape(c) && Trusted(c) && Fresh(c) && Moves(step) && CanMove(c, step)
    ensures Fresh(ExecMove(c, step))
  {
    hide Owned, Shape, Trusted, Faithful, Proposes, KindFits, Fresh, TokensKept, DoInvoke, OnPass, OnFail, OnContextFailure;
    hide PrepareBegin, Abandon, Acquire;
    TrustedCall(c, step.op);
    MoveUntouched(c, step);
    if step.Invoke? {
      InvokeFresh(c, step.op);
    } else if step.ContextFailure? {
      ContextFresh(c, step.op);
    } else if step.PrepareCall? {
      PrepareFresh(c, step.op);
    } else {
      StirredFresh(c, step.op, ExecMove(c, step));
    }
  }

  lemma PrepareFresh(c: Sys, o: nat)
    requires Owned(c) && Fresh(c) && At(c, o) && c.calls[o].pc.PrepareAt? && Faithful(c.m, c.calls[o])
    requires TokensMoved(c.sup, DoPrepare(c, o).sup) && TokensKept(c.sup, DoPrepare(c, o).sup)
    ensures Fresh(DoPrepare(c, o))
  {
    hide Owned, Fresh, TokensKept, TokensMoved, PrepareBegin, OnPass, OnFail, Faithful;
    PassShape(c.m, c.calls[o].(pc := DeliverAt));
    StirredFresh(c, o, DoPrepare(c, o));
  }

  lemma BegunFresh(c: Sys, t: Sup, o: nat, call: Call)
    requires c.running && Fresh(c) && Begins(c, t, o, call)
    ensures Fresh(c.(sup := t, calls := c.calls[o := call]))
  {
    var d := c.(sup := t, calls := c.calls[o := call]);
    if Unstarted(call) {
      assert call.attempt.Identifier().sequence == c.sup.attempt + 1;
      assert call.attempt.Identifier() !in c.h.started;
    }
    assert StartedKnown(d);
  }

  lemma RefusedFrame(c: Sys, r: (Sup, Admission), call: Call)
    requires Fresh(c) && Admissible(c, r, call) && r.1.Refused?
    ensures Fresh(Admitted(c, r, call))
  {
    hide Fresh;
    FramedFresh(c, Admitted(c, r, call));
  }

  lemma ExpiredFrame(c: Sys, r: (Sup, Admission), call: Call)
    requires Fresh(c) && Admissible(c, r, call) && r.1.Expired?
    ensures Fresh(Admitted(c, r, call))
  {
    hide Fresh, NewFault;
    FramedFresh(c, Admitted(c, r, call));
  }

  lemma AdmitFresh(c: Sys, r: (Sup, Admission), call: Call)
    requires c.running && Owned(c) && Fresh(c) && Admissible(c, r, call)
    ensures Fresh(Admitted(c, r, call))
  {
    hide Owned, Fresh, FreshFrame, Begins, Current, Expire;
    match r.1
    case Refused(_) => RefusedFrame(c, r, call);
    case Begun(o, _) => BegunFresh(c, r.0, o, call);
    case Exhausted(o, change, phase, uncertain) => BegunFresh(c, r.0, o, call.(pc := FailAt(change, phase, uncertain)));
    case Expired => ExpiredFrame(c, r, call);
  }

  lemma DecideFresh(c: Sys, step: Step)
    requires Owned(c) && Room(c) && Fresh(c) && Decides(step) && CanDecide(c, step)
    ensures Fresh(ExecDecide(c, step))
  {
    hide Owned, Room, Fresh, Latch, AwaitVerification, Commit, FinishReady, Resolve, RestoreFault;
    DecideCounts(c, step);
    OnlyCallOf(c, step.op);
    FramedFresh(c, ExecDecide(c, step));
  }

  lemma SignalFresh(c: Sys, step: Step)
    requires Owned(c) && Fresh(c) && (step.TripCall? || step.Timer?)
    ensures Fresh(ExecSignal(c, step))
  {
    hide Owned, Fresh;
    FramedFresh(c, ExecSignal(c, step));
  }

  lemma StepFresh(c: Sys, step: Step)
    requires c.running && Owned(c) && Room(c) && Shape(c) && Trusted(c) && Fresh(c) && Enabled(c, step) && !Reincarnates(step)
    ensures Fresh(Exec(c, step))
  {
    hide Owned, Room, Shape, Trusted, Fresh, Quiet, Admissible, AdmissionOf, Admitted, ExecAdmit, ExecMove, ExecDecide, ExecRun, ExecPublish, ExecSignal, ExecReincarnate;
    hide CanMove, CanDecide, CanRun, CanPublish, CanSignal, CanReincarnate;
    if Admits(step) {
      AdmissionAdmissible(c, step);
      AdmitFresh(c, AdmissionOf(c, step).0, AdmissionOf(c, step).1);
    } else if Moves(step) {
      MoveFresh(c, step);
    } else if Decides(step) {
      DecideFresh(c, step);
    } else if Hushed(step) {
      HushedQuiet(c, step);
      QuietFresh(c, Exec(c, step));
    } else {
      SignalFresh(c, step);
    }
  }
}
