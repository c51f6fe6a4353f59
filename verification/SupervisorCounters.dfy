/**
 * The 64-bit counters: none of them ever wraps, and each step moves each of
 * them by at most one.
 */
module SupervisorCounters {
  import opened Basics
  import opened SupervisorTypes
  import opened SupervisorSpec
  import opened SupervisorSystem
  import opened SupervisorTrace
  import opened SupervisorOwnership
  import opened SupervisorDoubt
  import opened SupervisorFrames
  import opened SupervisorCalls
  import opened SupervisorLatch

  /** `next` is `last` or its true successor. */
  predicate Steps(last: nat, next: nat) {
    next == last || next == last + 1
  }

  /** The identity is the same and every counter is kept or truly incremented. */
  predicate Counts(s: Sup, t: Sup) {
    && t.exec == s.exec && t.inc == s.inc && t.restarts == s.restarts
    && Steps(s.attempt, t.attempt) && Steps(s.revision, t.revision) && Steps(s.nextOperation, t.nextOperation)
    && Steps(s.nextRecord, t.nextRecord)
  }

  /** Adjudication was only admitted below the revision ceiling. */
  ghost predicate Room(c: Sys) {
    Active(c) && c.calls[c.sup.operation.value].kind.AdjudicateCall? ==> c.sup.revision < MAX_UINT64
  }

  lemma StampCounts(s: Sup)
    ensures Counts(s, Stamp(s))
  {
  }

  lemma LatchCounts(m: Machine, s: Sup, o: Option<nat>, change: Change, phase: Phase, cause: nat, uncertain: bool, now: Time)
    ensures Counts(s, Stamp(Latch(m, s, o, change, phase, cause, uncertain, now).0))
  {
    hide NewFault;
  }

  lemma ReportCounts(c: Sys, step: Step)
    requires step.TripCall? || step.Timer?
    ensures Counts(c.sup, ExecSignal(c, step).sup)
    ensures c.sup.pending.Some? ==> Counts(c.sup, Expire(c.m, c.sup, c.now))
  {
    hide Latch, Stamp;
    var subject := TripSubject(c.sup);
    if step.TripCall? { LatchCounts(c.m, c.sup, None, subject.0, subject.1, step.cause, true, c.now); }
    if c.sup.pending.Some? {
      LatchCounts(c.m, c.sup, None, c.sup.pending.value.change, VerifyPhase, VERIFICATION_TIMEOUT, true, c.now);
    }
  }

  lemma BegunCounts(c: Sys, step: Step)
    requires Owned(c) && Admits(step)
    ensures Counts(c.sup, AdmissionOf(c, step).0.0)
  {
    hide Owned, AdmitStart, AdmitIssue, AdmitVerify, AdmitAdjudicate, ToPrecondition, VerifyStart, AdjudicateStart, ToReconcile, Counts;
    SettlingOf(c);
    match step
    case CallStart => StartCounts(c.sup);
    case CallIssue(event) => IssueCounts(c.m, c.sup, event, c.now);
    case CallVerify(attempt) =>
      if c.sup.pending.Some? { ReportCounts(c, Timer(0, 0)); }
      VerifyCounts(c.m, c.sup, attempt, c.now);
    case CallAdjudicate(decision, adjudicating) =>
      AdjudicateCounts(c.m, c.sup, if adjudicating then decision else Retain, if adjudicating then AdjudicatePhase else RecoverPhase);
  }

  lemma BeginCounts(s: Sup, change: Change, phase: Phase)
    requires s.nextOperation < MAX_UINT64
    ensures Counts(s, Begin(s, change, phase))
  {
  }

  lemma StartCounts(s: Sup)
    requires Settling(s)
    ensures Counts(s, AdmitStart(s).0)
  {
    hide Counts, Begin, Stamp, Occupied, CountersExhausted, CurrentChange;
    StampCounts(s);
    if s.mode.Stopped? { BeginCounts(s, CurrentChange(s), StartPhase); }
  }

  lemma IssueCounts(m: Machine, s: Sup, event: Event, now: Time)
    requires Settling(s)
    ensures Counts(s, AdmitIssue(m, s, event, now).0)
  {
    hide Counts, Begin, Stamp, Occupied, CountersExhausted, CurrentChange;
    StampCounts(s);
    if s.mode.Ready? {
      BeginCounts(s, CurrentChange(s).(event := event), SelectionPhase);
      if s.attempt < MAX_UINT64 {
        NumberedCounts(s, Change(s.exec, s.inc, Inc64(s.attempt), s.revision, now, s.state, event, 0, s.state));
      }
    }
  }

  /** An Issue numbers a new attempt as it begins. */
  lemma NumberedCounts(s: Sup, change: Change)
    requires s.nextOperation < MAX_UINT64 && s.attempt < MAX_UINT64
    ensures Counts(s, Begin(s.(attempt := Inc64(s.attempt)), change, PreconditionPhase))
  {
  }

  lemma VerifyCounts(m: Machine, s: Sup, attempt: AttemptId, now: Time)
    requires Settling(s) && (s.pending.Some? ==> Counts(s, Expire(m, s, now)))
    ensures Counts(s, AdmitVerify(m, s, attempt, now).0)
  {
    hide Counts, Expire, Begin, Stamp, Occupied, CountersExhausted;
    StampCounts(s);
    if s.mode.AwaitingVerification? { BeginCounts(s, s.pending.value.change, VerifyPhase); }
  }

  lemma AdjudicateCounts(m: Machine, s: Sup, decision: Decision, phase: Phase)
    ensures Counts(s, AdmitAdjudicate(m, s, decision, phase).0)
  {
    hide Counts, Begin, Stamp, Occupied, DecisionTarget, CurrentChange;
    StampCounts(s);
    var r := AdmitAdjudicate(m, s, decision, phase);
    if r.1.Begun? { BeginCounts(s, r.1.change, phase); }
  }

  lemma SettlingOf(c: Sys)
    requires Owned(c)
    ensures Settling(c.sup)
  {
    hide Threads, Counted;
    RegimeSettles(c);
  }

  lemma EndingCounts(s: Sup, o: nat, change: Change, row: Row, timeout: nat, now: Time)
    ensures Counts(s, AwaitVerification(s, o, change, row, timeout, now).0) && Counts(s, FinishReady(s, o).0)
  {
    hide OpOf;
  }

  lemma RestoringCounts(s: Sup, o: nat, original: Fault)
    ensures Counts(s, RestoreFault(s, o, original))
  {
    hide OpOf;
  }

  lemma CommitCounts(m: Machine, s: Sup, o: nat, change: Change, issued: bool, now: Time)
    ensures Counts(s, Commit(m, s, o, change, issued, now).0)
  {
    hide Latch, OpOf;
    LatchCounts(m, s, Some(o), change, CommitPhase, COUNTER_EXHAUSTED, issued, now);
  }

  lemma DecideCounts(c: Sys, step: Step)
    requires Owned(c) && Room(c) && Decides(step) && CanDecide(c, step)
    ensures Counts(c.sup, ExecDecide(c, step).sup)
  {
    hide Owned, Room, Counts, Latch, DoResolve, AwaitVerification, FinishReady, RestoreFault, Commit;
    var call := c.calls[step.op];
    match step
    case LatchCall(o, cause) => LatchCounts(c.m, c.sup, Some(o), call.pc.change, call.pc.phase, cause, call.pc.uncertain, c.now);
    case CommitCall(o) => CommitCounts(c.m, c.sup, o, call.change, call.kind.VerifyCall?, c.now);
    case ResolveCall(o) => ResolveCounts(c, o);
    case AwaitCall(o) => EndingCounts(c.sup, o, call.change, call.row, c.cfg.timeout, c.now);
    case FinishCall(o) => EndingCounts(c.sup, o, call.change, call.row, c.cfg.timeout, c.now);
    case RestoreFaultCall(o) => RestoringCounts(c.sup, o, call.kind.original);
  }

  lemma ResolvingCounts(s: Sup, o: nat, original: Fault, decision: Decision, target: State)
    requires Owns(s, o) && s.mode == Executing ==> s.revision < MAX_UINT64
    ensures Counts(s, Resolve(s, o, original, decision, target).0)
    ensures var (t, ok) := Resolve(s, o, original, decision, target);
      ok ==> t.revision == s.revision + (if decision.Retain? then 0 else 1) && t.state == (if decision.Retain? then s.state else target)
  {
    hide OpOf;
  }

  /** Adoption and override raise the revision by exactly one, retention leaves it. */
  lemma ResolveCounts(c: Sys, o: nat)
    requires Owned(c) && Room(c) && At(c, o) && c.calls[o].kind.AdjudicateCall?
    ensures Counts(c.sup, DoResolve(c, o).sup)
    ensures var kind := c.calls[o].kind;
      Resolve(c.sup, o, kind.original, kind.decision, kind.target).1 ==>
        && DoResolve(c, o).sup.revision == c.sup.revision + (if kind.decision.Retain? then 0 else 1)
        && DoResolve(c, o).sup.state == (if kind.decision.Retain? then c.sup.state else kind.target)
  {
    hide Owned, Resolve, Counts;
    StandingOf(c, o);
    var kind := c.calls[o].kind;
    ResolvingCounts(c.sup, o, kind.original, kind.decision, kind.target);
  }

  /** No counter wraps, and an admission takes a token never used before. */
  lemma StepCounts(c: Sys, step: Step)
    requires Owned(c) && Room(c) && Enabled(c, step) && !Reincarnates(step)
    ensures Counts(c.sup, Exec(c, step).sup)
  {
    hide Owned, Room, Quiet, Counts, Admissible, AdmissionOf, ExecAdmit, ExecMove, ExecDecide, ExecRun, ExecPublish, ExecSignal, ExecReincarnate;
    hide CanMove, CanDecide, CanRun, CanPublish, CanSignal, CanReincarnate;
    if Admits(step) {
      AdmissionAdmissible(c, step);
      BegunCounts(c, step);
    } else if Moves(step) {
      MoveUntouched(c, step);
      MovedCounts(c.sup, ExecMove(c, step).sup);
    } else if Decides(step) {
      DecideCounts(c, step);
    } else if Hushed(step) {
      HushedQuiet(c, step);
      QuietCounts(c, Exec(c, step));
    } else {
      ReportCounts(c, step);
    }
  }

  lemma MovedCounts(s: Sup, t: Sup)
    requires TokensMoved(s, t)
    ensures Counts(s, t)
  {
  }

  lemma QuietCounts(c: Sys, d: Sys)
    requires Quiet(c, d)
    ensures Counts(c.sup, d.sup)
  {
  }

  // ----------------------------------------------- room for one revision

  /** A call keeps its kind for as long as it runs. */
  lemma MoveKeepsKind(c: Sys, step: Step)
    requires Moves(step) && CanMove(c, step)
    ensures SameKinds(c, ExecMove(c, step))
  {
    hide OnPass, OnFail, OnContextFailure, DoInvoke, DoPrepare, DoPrepareAcquire, Abandon, SameKinds;
    KindsKept(c.m, c.calls[step.op]);
    if step.PrepareCall? {
      PrepareKeepsKind(c, step.op);
    } else if step.PrepareAcquire? {
      AcquireKeepsKind(c, step.op);
    } else if step.Invoke? {
      InvokeKeepsKind(c, step.op);
    } else {
      KindKept(c, ExecMove(c, step), step.op);
    }
  }

  /** The same calls, of the same kinds. */
  ghost predicate SameKinds(c: Sys, d: Sys) {
    d.calls.Keys == c.calls.Keys && forall o | o in c.calls :: d.calls[o].kind == c.calls[o].kind
  }

  lemma KindKept(c: Sys, d: Sys, o: nat)
    requires o in c.calls && o in d.calls && d.calls == c.calls[o := d.calls[o]] && d.calls[o].kind == c.calls[o].kind
    ensures SameKinds(c, d)
  {
  }

  lemma InvokeKeepsKind(c: Sys, o: nat)
    requires At(c, o) && Invokable(c.calls[o].pc)
    ensures SameKinds(c, DoInvoke(c, o))
  {
    hide OnPass, OnFail, InvokeBegin, ChangeAt, PhaseAt;
    KindsKept(c.m, c.calls[o]);
  }

  lemma PrepareKeepsKind(c: Sys, o: nat)
    requires o in c.calls && c.calls[o].pc.PrepareAt?
    ensures SameKinds(c, DoPrepare(c, o))
  {
    hide OnPass, OnFail, PrepareBegin;
    KindsKept(c.m, c.calls[o]);
  }

  lemma AcquireKeepsKind(c: Sys, o: nat)
    requires o in c.calls && c.calls[o].pc.DeliverAt?
    ensures SameKinds(c, DoPrepareAcquire(c, o))
  {
    hide OnFail, Acquire;
    KindsKept(c.m, c.calls[o]);
  }

  lemma KindsKept(m: Machine, call: Call)
    ensures OnPass(m, call.(pc := DeliverAt)).kind == call.kind && OnContextFailure(call).kind == call.kind
    ensures Invokable(call.pc) || call.pc.DeliverAt? ==> OnPass(m, call).kind == call.kind
    ensures Invokable(call.pc) || call.pc.DeliverAt? || call.pc.PrepareAt? ==>
      OnFail(m, call, true).kind == call.kind && OnFail(m, call, false).kind == call.kind
  {
    hide OnPass, OnFail;
    PassShape(m, call.(pc := DeliverAt));
    if Invokable(call.pc) || call.pc.DeliverAt? { PassShape(m, call); }
    if Invokable(call.pc) || call.pc.DeliverAt? || call.pc.PrepareAt? {
      FailShape(m, call, true);
      FailShape(m, call, false);
    }
  }

  lemma SameKindsRoom(c: Sys, d: Sys)
    requires Room(c) && d.calls.Keys == c.calls.Keys && (forall o | o in c.calls :: d.calls[o].kind == c.calls[o].kind)
    requires d.sup.revision == c.sup.revision && (d.sup.operation == c.sup.operation || d.sup.operation.None?)
    requires TokensKept(c.sup, d.sup) && (forall o | o in c.calls :: o in c.sup.ops)
    ensures Room(d)
  {
  }

  lemma CallsHaveTokens(c: Sys)
    requires Owned(c)
    ensures forall o | o in c.calls :: o in c.sup.ops
  {
    hide Regime, Counted;
    forall o | o in c.calls ensures o in c.sup.ops {
      assert CallOwned(c, o);
    }
  }

  lemma ExpiredRoom(c: Sys, d: Sys)
    requires c.sup.pending.Some? && d.sup == Expire(c.m, c.sup, c.now)
    ensures Room(d)
  {
    hide NewFault;
  }

  lemma AdmitRoom(c: Sys, r: (Sup, Admission), call: Call)
    requires Owned(c) && Room(c) && Admissible(c, r, call)
    ensures Room(Admitted(c, r, call))
  {
    hide Owned, Expire;
    if r.1.Expired? { ExpiredRoom(c, Admitted(c, r, call)); }
  }

  lemma DecideRoom(c: Sys, step: Step)
    requires Owned(c) && Decides(step) && CanDecide(c, step)
    ensures Room(ExecDecide(c, step))
  {
    hide Owned, Latch, AwaitVerification, Commit, FinishReady, Resolve, RestoreFault;
    OnlyCallOf(c, step.op);
  }

  lemma OnlyCallOf(c: Sys, o: nat)
    requires Owned(c) && o in c.calls
    ensures c.calls - {o} == map[]
  {
    hide Regime, Counted;
    OnlyCall(c, o);
  }

  lemma SignalRoom(c: Sys, step: Step)
    requires Owned(c) && Room(c) && (step.TripCall? || step.Timer?)
    ensures Room(ExecSignal(c, step))
  {
    hide Owned;
  }

  lemma StepRoom(c: Sys, step: Step)
    requires Owned(c) && Room(c) && Enabled(c, step) && !Reincarnates(step)
    ensures Room(Exec(c, step))
  {
    hide Owned, Room, Quiet, TokensKept, Admissible, AdmissionOf, Admitted, ExecAdmit, ExecMove, ExecDecide, ExecRun, ExecPublish, ExecSignal, ExecReincarnate;
    hide CanMove, CanDecide, CanRun, CanPublish, CanSignal, CanReincarnate;
    if Admits(step) {
      AdmissionAdmissible(c, step);
      AdmitRoom(c, AdmissionOf(c, step).0, AdmissionOf(c, step).1);
    } else if Moves(step) {
      MoveUntouched(c, step);
      MoveKeepsKind(c, step);
      CallsHaveTokens(c);
      SameKindsRoom(c, ExecMove(c, step));
    } else if Decides(step) {
      DecideRoom(c, step);
    } else if Hushed(step) {
      HushedQuiet(c, step);
      QuietRoom(c, Exec(c, step));
    } else {
      SignalRoom(c, step);
    }
  }

  lemma QuietRoom(c: Sys, d: Sys)
    requires Owned(c) && Room(c) && Quiet(c, d)
    ensures Room(d)
  {
    hide Owned;
    CallsHaveTokens(c);
    SameKindsRoom(c, d);
  }
}
