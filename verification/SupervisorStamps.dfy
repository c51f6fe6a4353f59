/**
 * The record counter of one incarnation: which steps stamp a record, how far
 * the stamps of a run take the counter, and exactly when it is exhausted.
 */
module SupervisorStamps {
  import opened Basics
  import opened SupervisorTypes
  import opened SupervisorSpec
  import opened SupervisorSystem
  import opened SupervisorOwnership
  import opened SupervisorDoubt
  import opened SupervisorFrames
  import opened SupervisorCalls
  import opened SupervisorJournal
  import opened SupervisorCounters
  import opened SupervisorFates
  import opened SupervisorSafety

  // ------------------------------------------------------- who stamps

  /** An admission stamps when it refuses its call or expires the pending change. */
  predicate AdmissionStamps(c: Sys, step: Step)
    requires Admits(step)
  {
    var s := c.sup;
    match step
    case CallStart => !(s.mode.Stopped? && !Occupied(s))
    case CallIssue(event) => !(s.mode.Ready? && !Occupied(s) && event in c.m.events)
    case CallVerify(attempt) =>
      !(s.mode.AwaitingVerification? && !Occupied(s) && s.pending.Some? && s.pending.value.change.Identifier() == attempt
        && c.now < s.pending.value.deadline)
    case CallAdjudicate(decision, adjudicating) =>
      !(s.mode.Faulted? && s.fault.Some? && !Occupied(s) && !CountersExhausted(s)
        && DecisionTarget(c.m, s, s.fault.value, if adjudicating then decision else Retain).Some?)
  }

  /**
   * Whether a step stamps a record: a refused, expired or nil-context call, every
   * decision, a late cause, a closing write given up or failed, a Trip, and an
   * expiry. Read off the step and the guards of its branch.
   */
  predicate Stamps(c: Sys, step: Step)
    requires Enabled(c, step)
  {
    if Admits(step) then AdmissionStamps(c, step)
    else match step
      case Cleanup(k, outcome) => OpOf(c.sup, c.live[k].op).abandoned && !outcome.Passed?
      case PubJournal(p, expired) => c.pubs[p].durable && c.cfg.journaled && (expired || c.sup.journalBusy)
      case PubJournalDone(_, ok) => !ok
      case Timer(sequence, version) =>
        && c.sup.mode.AwaitingVerification? && c.sup.pending.Some? && c.sup.pending.value.change.id == sequence
        && c.sup.pending.value.version == version && c.sup.pending.value.deadline <= c.now
      case _ => step.RefuseNilContext? || step.TripCall? || Decides(step)
  }

  function Least(a: nat, b: nat): nat {
    if a <= b then a else b
  }

  /** What `n` stamps make of the counter. */
  function Raised(last: nat, n: nat): nat {
    Least(last + n, MAX_UINT64)
  }

  function Once(stamped: bool): nat {
    if stamped then 1 else 0
  }

  lemma StampRaises(s: Sup)
    ensures Stamp(s).nextRecord == Raised(s.nextRecord, 1) && s.nextRecord == Raised(s.nextRecord, 0)
  {
  }

  lemma LatchUncounted(m: Machine, s: Sup, o: Option<nat>, change: Change, phase: Phase, cause: nat, uncertain: bool, now: Time)
    ensures Latch(m, s, o, change, phase, cause, uncertain, now).0.nextRecord == s.nextRecord
  {
    hide NewFault;
  }

  lemma ExpireStamps(m: Machine, s: Sup, now: Time)
    requires s.pending.Some?
    ensures Expire(m, s, now).nextRecord == Raised(s.nextRecord, 1)
  {
    hide Latch;
    LatchUncounted(m, s, None, s.pending.value.change, VerifyPhase, VERIFICATION_TIMEOUT, true, now);
  }

  lemma StartStamps(c: Sys)
    ensures AdmitStart(c.sup).0.nextRecord == Raised(c.sup.nextRecord, Once(AdmissionStamps(c, CallStart)))
  {
  }

  lemma IssueStamps(c: Sys, event: Event)
    ensures AdmitIssue(c.m, c.sup, event, c.now).0.nextRecord == Raised(c.sup.nextRecord, Once(AdmissionStamps(c, CallIssue(event))))
  {
  }

  lemma VerifyStamps(c: Sys, attempt: AttemptId)
    ensures AdmitVerify(c.m, c.sup, attempt, c.now).0.nextRecord == Raised(c.sup.nextRecord, Once(AdmissionStamps(c, CallVerify(attempt))))
  {
    hide Expire;
    if c.sup.pending.Some? { ExpireStamps(c.m, c.sup, c.now); }
  }

  lemma AdjudicateStamps(c: Sys, decision: Decision, adjudicating: bool)
    ensures
      var r := AdmitAdjudicate(c.m, c.sup, if adjudicating then decision else Retain, if adjudicating then AdjudicatePhase else RecoverPhase);
      r.0.nextRecord == Raised(c.sup.nextRecord, Once(AdmissionStamps(c, CallAdjudicate(decision, adjudicating))))
  {
    hide DecisionTarget;
  }

  lemma AdmitStamps(c: Sys, step: Step)
    requires Admits(step)
    ensures ExecAdmit(c, step).sup.nextRecord == Raised(c.sup.nextRecord, Once(AdmissionStamps(c, step)))
  {
    hide Admitted, AdmissionStamps, AdmitStart, AdmitIssue, AdmitVerify, AdmitAdjudicate, Raised, ToReconcile, ToPrecondition, VerifyStart, AdjudicateStart;
    AdmittedSup(c, AdmissionOf(c, step).0, AdmissionOf(c, step).1);
    match step
    case CallStart => StartStamps(c);
    case CallIssue(event) => IssueStamps(c, event);
    case CallVerify(attempt) => VerifyStamps(c, attempt);
    case CallAdjudicate(decision, adjudicating) => AdjudicateStamps(c, decision, adjudicating);
  }

  lemma AcquireStampsNothing(s: Sup, gate: Gate, owner: Option<nat>)
    ensures Acquire(s, gate, owner).0.nextRecord == s.nextRecord && (Acquire(s, Journal, owner).1 <==> !s.journalBusy)
  {
    hide OpOf;
  }

  lemma CallbackStampsNothing(s: Sup, o: nat, change: Change, phase: Phase, now: Time)
    ensures InvokeBegin(s, o, change, phase).0.nextRecord == s.nextRecord && Abandon(s, o).nextRecord == s.nextRecord
    ensures PrepareBegin(s, o, change, now).0.nextRecord == s.nextRecord
  {
    hide Owns, OpOf;
  }

  lemma PreparationStampsNothing(c: Sys, step: Step)
    requires step.PrepareCall? || step.PrepareAcquire? || step.PrepareConsume? || step.PrepareTimeout?
    requires CanMove(c, step)
    ensures ExecMove(c, step).sup.nextRecord == c.sup.nextRecord
  {
    hide OnPass, OnFail, PrepareBegin, Acquire;
    CallbackStampsNothing(c.sup, step.op, c.calls[step.op].change, NoPhase, c.now);
    AcquireStampsNothing(c.sup, Journal, Some(step.op));
  }

  lemma MoveStampsNothing(c: Sys, step: Step)
    requires Moves(step) && CanMove(c, step)
    ensures ExecMove(c, step).sup.nextRecord == c.sup.nextRecord
  {
    hide OnPass, OnFail, OnContextFailure, ChangeAt, PhaseAt, InvokeBegin, Abandon, DoPrepare, DoPrepareAcquire, DoPrepareConsume;
    var call := c.calls[step.op];
    if step.PrepareCall? || step.PrepareAcquire? || step.PrepareConsume? || step.PrepareTimeout? {
      PreparationStampsNothing(c, step);
    } else {
      CallbackStampsNothing(c.sup, step.op, ChangeAt(c.m, call), PhaseAt(call), c.now);
    }
  }

  lemma CommitStamps(m: Machine, s: Sup, o: nat, change: Change, issued: bool, now: Time)
    ensures Commit(m, s, o, change, issued, now).0.nextRecord == Raised(s.nextRecord, 1)
  {
    hide Latch, Owns;
    LatchUncounted(m, s, Some(o), change, CommitPhase, COUNTER_EXHAUSTED, issued, now);
  }

  lemma FinishReadyStamps(s: Sup, o: nat)
    ensures FinishReady(s, o).0.nextRecord == Raised(s.nextRecord, 1)
  {
    hide Owns, OpOf;
  }

  lemma FinishStamps(s: Sup, o: nat, original: Fault, decision: Decision, target: State)
    ensures Resolve(s, o, original, decision, target).0.nextRecord == Raised(s.nextRecord, 1)
    ensures RestoreFault(s, o, original).nextRecord == Raised(s.nextRecord, 1)
  {
    hide Owns, OpOf;
  }

  lemma AwaitStamps(s: Sup, o: nat, change: Change, row: Row, timeout: nat, now: Time)
    ensures AwaitVerification(s, o, change, row, timeout, now).0.nextRecord == Raised(s.nextRecord, 1)
  {
    hide Owns, OpOf;
  }

  lemma DecideStamps(c: Sys, step: Step)
    requires Decides(step) && CanDecide(c, step)
    ensures ExecDecide(c, step).sup.nextRecord == Raised(c.sup.nextRecord, 1)
  {
    hide Latch, AwaitVerification, Commit, FinishReady, Resolve, RestoreFault, Raised;
    var call := c.calls[step.op];
    match step
    case LatchCall(o, cause) =>
      StampRaises(Latch(c.m, c.sup, Some(o), call.pc.change, call.pc.phase, cause, call.pc.uncertain, c.now).0);
      LatchUncounted(c.m, c.sup, Some(o), call.pc.change, call.pc.phase, cause, call.pc.uncertain, c.now);
    case CommitCall(o) => CommitStamps(c.m, c.sup, o, call.change, call.kind.VerifyCall?, c.now);
    case AwaitCall(o) => AwaitStamps(c.sup, o, call.change, call.row, c.cfg.timeout, c.now);
    case FinishCall(o) => FinishReadyStamps(c.sup, o);
    case ResolveCall(o) => FinishStamps(c.sup, o, call.kind.original, call.kind.decision, call.kind.target);
    case RestoreFaultCall(o) => FinishStamps(c.sup, o, call.kind.original, Retain, 0);
  }

  lemma CleanupStamps(c: Sys, k: nat, outcome: Outcome)
    requires k in c.live && c.live[k].App?
    ensures DoCleanup(c, k, outcome).sup.nextRecord
      == Raised(c.sup.nextRecord, Once(OpOf(c.sup, c.live[k].op).abandoned && !outcome.Passed?))
  {
    hide Deliver;
  }

  lemma DeliveryStampsNothing(c: Sys, k: nat, ok: bool)
    requires k in c.live
    ensures c.live[k].JournalWrite? ==> DoJournalFinish(c, k, ok).sup.nextRecord == c.sup.nextRecord
    ensures c.live[k].RecorderWrite? ==> DoRecorderFinish(c, k).sup.nextRecord == c.sup.nextRecord
  {
    hide Deliver;
  }

  lemma WriteStampsNothing(c: Sys, step: Step)
    requires Runs(step) && !step.Cleanup? && CanRun(c, step)
    ensures ExecRun(c, step).sup.nextRecord == c.sup.nextRecord
  {
    hide DoJournalFinish, DoRecorderFinish, SnapshotOf;
    DeliveryStampsNothing(c, step.callback, step.JournalFinish? && step.ok);
  }

  lemma RunStamps(c: Sys, step: Step)
    requires Enabled(c, step) && Runs(step) && CanRun(c, step)
    ensures ExecRun(c, step).sup.nextRecord == Raised(c.sup.nextRecord, Once(Stamps(c, step)))
  {
    hide Enabled, AdmissionStamps, DoCleanup, DoJournalFinish, DoRecorderFinish, DoCapture, DoSave, Raised;
    StampRaises(c.sup);
    if step.Cleanup? {
      CleanupStamps(c, step.callback, step.outcome);
    } else {
      WriteStampsNothing(c, step);
    }
  }

  lemma PubReturnStampsNothing(c: Sys, p: nat)
    requires p in c.pubs
    ensures DoPubReturn(c, p).sup.nextRecord == c.sup.nextRecord
  {
    hide OpOf;
  }

  lemma PubRecordStampsNothing(c: Sys, p: nat)
    requires p in c.pubs && c.pubs[p].stage.RecordDue?
    ensures DoPubRecord(c, p).sup.nextRecord == c.sup.nextRecord
  {
    hide Acquire;
    AcquireStampsNothing(c.sup, Recorder, c.pubs[p].Owner());
  }

  lemma PubJournalStamps(c: Sys, p: nat, expired: bool)
    requires p in c.pubs
    ensures DoPubJournal(c, p, expired).sup.nextRecord
      == Raised(c.sup.nextRecord, Once(c.pubs[p].durable && c.cfg.journaled && (expired || c.sup.journalBusy)))
  {
    hide Acquire;
    AcquireStampsNothing(c.sup, Journal, c.pubs[p].Owner());
  }

  lemma StageStamps(c: Sys, p: nat, stage: Stage, ok: bool)
    requires p in c.pubs
    ensures SetStage(c, p, stage).sup == c.sup
    ensures DoPubJournalDone(c, p, ok).sup.nextRecord == Raised(c.sup.nextRecord, Once(!ok))
  {
  }

  lemma OtherPublicationStampsNothing(c: Sys, step: Step)
    requires step.PubRecord? || step.PubProceed? || step.PubReturn?
    requires CanPublish(c, step)
    ensures ExecPublish(c, step).sup.nextRecord == c.sup.nextRecord
  {
    hide DoPubRecord, DoPubReturn, SetStage;
    match step
    case PubRecord(p) => PubRecordStampsNothing(c, p);
    case PubReturn(p) => PubReturnStampsNothing(c, p);
    case PubProceed(p) => StageStamps(c, p, AfterRecord(c.pubs[p].stage.closing), true);
  }

  lemma PublishStamps(c: Sys, step: Step)
    requires Enabled(c, step) && Publishes(step) && CanPublish(c, step)
    ensures ExecPublish(c, step).sup.nextRecord == Raised(c.sup.nextRecord, Once(Stamps(c, step)))
  {
    hide Enabled, AdmissionStamps, DoPubJournal, DoPubRecord, DoPubReturn, DoPubJournalDone, SetStage, Raised;
    StampRaises(c.sup);
    if step.PubJournal? {
      PubJournalStamps(c, step.pub, step.expired);
    } else if step.PubJournalDone? {
      StageStamps(c, step.pub, ReturnDue, step.ok);
    } else {
      OtherPublicationStampsNothing(c, step);
    }
  }

  lemma TripStamps(m: Machine, s: Sup, cause: nat, now: Time)
    ensures Trip(m, s, cause, now).0.nextRecord == Raised(s.nextRecord, 1)
  {
    hide Latch, TripSubject;
    var subject := TripSubject(s);
    LatchUncounted(m, s, None, subject.0, subject.1, cause, true, now);
  }

  lemma TimerStamps(c: Sys, sequence: nat, version: nat)
    requires Enabled(c, Timer(sequence, version))
    ensures DoTimer(c, sequence, version).sup.nextRecord == Raised(c.sup.nextRecord, Once(Stamps(c, Timer(sequence, version))))
  {
    hide Enabled, Expire, Raised;
    StampRaises(c.sup);
    if c.sup.pending.Some? { ExpireStamps(c.m, c.sup, c.now); }
  }

  lemma SignalStamps(c: Sys, step: Step)
    requires Enabled(c, step) && Signals(step) && CanSignal(c, step)
    ensures ExecSignal(c, step).sup.nextRecord == Raised(c.sup.nextRecord, Once(Stamps(c, step)))
  {
    hide Enabled, Trip, DoTimer, AdmissionStamps, Raised;
    StampRaises(c.sup);
    if step.TripCall? {
      TripStamps(c.m, c.sup, step.cause, c.now);
    } else if step.Timer? {
      TimerStamps(c, step.sequence, step.version);
    }
  }

  lemma StampsByKind(c: Sys, step: Step)
    requires Enabled(c, step) && !Reincarnates(step)
    ensures Admits(step) ==> Stamps(c, step) == AdmissionStamps(c, step)
    ensures Moves(step) ==> !Stamps(c, step)
    ensures Decides(step) ==> Stamps(c, step)
  {
    hide Enabled, AdmissionStamps;
  }

  /** Every step raises the counter by one stamp if and only if it stamps. */
  lemma StepStamps(c: Sys, step: Step)
    requires Enabled(c, step) && !Reincarnates(step)
    ensures Exec(c, step).sup.nextRecord == Raised(c.sup.nextRecord, Once(Stamps(c, step)))
  {
    hide Raised, Stamps, AdmissionStamps, ExecAdmit, ExecMove, ExecDecide, ExecRun, ExecPublish, ExecSignal;
    hide CanMove, CanDecide, CanRun, CanPublish, CanSignal;
    StampRaises(c.sup);
    StampsByKind(c, step);
    if Admits(step) {
      AdmitStamps(c, step);
    } else if Moves(step) {
      MoveStampsNothing(c, step);
    } else if Decides(step) {
      DecideStamps(c, step);
    } else if Runs(step) {
      RunStamps(c, step);
    } else if Publishes(step) {
      PublishStamps(c, step);
    } else {
      SignalStamps(c, step);
    }
  }

  // --------------------------------------------------------- over a run

  /** No process change along the run. */
  predicate Continuous(steps: seq<Step>) {
    forall i | 0 <= i < |steps| :: !Reincarnates(steps[i])
  }

  /** How many steps of a run stamp. */
  ghost function StampCount(c: Sys, steps: seq<Step>): nat
    requires Runnable(c, steps)
    decreases |steps|
  {
    if steps == [] then 0 else Once(Stamps(c, steps[0])) + StampCount(Exec(c, steps[0]), steps[1..])
  }

  /** The record numbers issued along a run, in decision order: a stamp at the ceiling issues none. */
  ghost function Numbers(c: Sys, steps: seq<Step>): seq<nat>
    requires Runnable(c, steps)
    decreases |steps|
  {
    if steps == [] then []
    else
      (if Stamps(c, steps[0]) && c.sup.nextRecord < MAX_UINT64 then [c.sup.nextRecord + 1] else [])
      + Numbers(Exec(c, steps[0]), steps[1..])
  }

  /** The numbers above `last` up to `next`. */
  function Consecutive(last: nat, next: nat): seq<nat> {
    if next <= last then [] else seq(next - last, i requires 0 <= i < next - last => last + 1 + i)
  }

  lemma ConsecutiveJoins(last: nat, next: nat, end: nat)
    requires Steps(last, next) && next <= end
    ensures (if next != last then [next] else []) + Consecutive(next, end) == Consecutive(last, end)
  {
  }

  lemma RaisesAdd(last: nat, a: nat, b: nat)
    requires last <= MAX_UINT64
    ensures Raised(Raised(last, a), b) == Raised(last, a + b) && Raised(last, 0) == last <= Raised(last, a) <= MAX_UINT64
    ensures Raised(last, Once(true)) == if last < MAX_UINT64 then last + 1 else last
    ensures Raised(last, a) == MAX_UINT64 <==> a >= MAX_UINT64 - last
  {
  }

  /** The stamps of a run, and nothing else, move the counter. */
  lemma {:induction false} RunStampsOnly(c: Sys, steps: seq<Step>)
    requires Runnable(c, steps) && Continuous(steps)
    ensures Execute(c, steps).sup.nextRecord == Raised(c.sup.nextRecord, StampCount(c, steps))
    ensures Numbers(c, steps) == Consecutive(c.sup.nextRecord, Execute(c, steps).sup.nextRecord)
    decreases |steps|
  {
    hide Enabled, Exec, Stamps, Raised, Consecutive;
    RaisesAdd(c.sup.nextRecord, 0, 0);
    if steps == [] {
      NothingBetween(c.sup.nextRecord);
    } else {
      var d := Exec(c, steps[0]);
      StepStamps(c, steps[0]);
      RunStampsOnly(d, steps[1..]);
      RaisesAdd(c.sup.nextRecord, Once(Stamps(c, steps[0])), StampCount(d, steps[1..]));
      RaisesAdd(d.sup.nextRecord, StampCount(d, steps[1..]), 0);
      ConsecutiveJoins(c.sup.nextRecord, d.sup.nextRecord, Execute(d, steps[1..]).sup.nextRecord);
    }
  }

  lemma NothingBetween(n: nat)
    ensures Consecutive(n, n) == []
  {
  }

  /**
   * Exactly when the counter is exhausted: a run ends at its start plus the
   * number of steps that stamp, cut off at the ceiling, so it is at the ceiling
   * if and only if at least as many steps stamp as there were numbers left. The
   * margin below the ceiling is no bound on them.
   */
  lemma {:induction false} ExhaustedExactly(c: Sys, steps: seq<Step>)
    requires Runnable(c, steps) && Continuous(steps)
    ensures Execute(c, steps).sup.nextRecord == Least(c.sup.nextRecord + StampCount(c, steps), MAX_UINT64)
    ensures Execute(c, steps).sup.nextRecord == MAX_UINT64 <==> StampCount(c, steps) >= MAX_UINT64 - c.sup.nextRecord
  {
    hide Runnable, Execute, StampCount, Continuous;
    RunStampsOnly(c, steps);
  }

  /** The margin is good for as many stamps as it is wide: sixteen after an admission leave a number unissued. */
  lemma {:induction false} MarginCoversSixteen(c: Sys, step: Step, steps: seq<Step>)
    requires Admits(step) && Enabled(c, step) && AdmissionOf(c, step).0.1.Begun?
    requires Runnable(Exec(c, step), steps) && Continuous(steps)
    ensures StampCount(Exec(c, step), steps) <= RECORD_SEQ_MARGIN ==> Execute(Exec(c, step), steps).sup.nextRecord < MAX_UINT64
  {
    hide Runnable, Execute, StampCount, Continuous, Exec, Enabled;
    RunStampsOnly(Exec(c, step), steps);
    BegunBelowMargin(c, step);
  }

  lemma BegunBelowMargin(c: Sys, step: Step)
    requires Admits(step) && Enabled(c, step) && AdmissionOf(c, step).0.1.Begun?
    ensures Exec(c, step).sup.nextRecord < MAX_UINT64 - RECORD_SEQ_MARGIN
  {
    hide ToReconcile, ToPrecondition, VerifyStart, AdjudicateStart, Expire;
    AdmittedSup(c, AdmissionOf(c, step).0, AdmissionOf(c, step).1);
  }

  // ------------------------------------------------- refusals exhaust it

  /** `n` calls of Start, one after the other. */
  function Starting(n: nat): seq<Step> {
    seq(n, _ => CallStart)
  }

  lemma StartsAgain(n: nat)
    requires n > 0
    ensures Starting(n)[0] == CallStart && Starting(n)[1..] == Starting(n - 1) && Continuous(Starting(n)) && |Starting(n)| == n
  {
  }

  lemma StartRefused(c: Sys)
    requires c.running && c.sup.mode != Stopped
    ensures Enabled(c, CallStart) && Stamps(c, CallStart) && AdmissionOf(c, CallStart).0.1.Refused?
    ensures var d := Exec(c, CallStart);
      d == c.(sup := Stamp(c.sup), pubs := d.pubs, nextId := d.nextId)
  {
  }

  lemma StampOnce(s: Sup)
    ensures Stamp(s) == s.(nextRecord := Least(s.nextRecord + 1, MAX_UINT64))
  {
  }

  /**
   * A system that is not Stopped can refuse any number of Starts, and every
   * refusal stamps: enough of them exhaust the counter, whatever runs meanwhile.
   */
  lemma {:induction false} RefusalsExhaust(c: Sys, n: nat)
    requires c.running && c.sup.mode != Stopped
    ensures Runnable(c, Starting(n)) && Continuous(Starting(n)) && StampCount(c, Starting(n)) == n
    ensures var d := Execute(c, Starting(n));
      && d.sup == c.sup.(nextRecord := Least(c.sup.nextRecord + n, MAX_UINT64))
      && d == c.(sup := d.sup, pubs := d.pubs, nextId := d.nextId)
    decreases n
  {
    hide Enabled, Exec, Stamps, AdmissionOf, Stamp;
    if n > 0 {
      StartsAgain(n);
      StartRefused(c);
      StampOnce(c.sup);
      RefusalsExhaust(Exec(c, CallStart), n - 1);
    }
  }

  // ------------------------------------------------------ no wrap, no reuse

  /** The counters of `t` are reached from those of `s` by at most `n` true increments each. */
  predicate Advanced(s: Sup, t: Sup, n: nat) {
    && t.exec == s.exec && t.inc == s.inc && t.restarts == s.restarts
    && s.attempt <= t.attempt <= s.attempt + n && s.revision <= t.revision <= s.revision + n
    && s.nextOperation <= t.nextOperation <= s.nextOperation + n && s.nextRecord <= t.nextRecord <= s.nextRecord + n
  }

  lemma {:induction false} CountedRun(c: Sys, steps: seq<Step>)
    requires Inv(c) && c.running && Runnable(c, steps) && Continuous(steps)
    ensures Advanced(c.sup, Execute(c, steps).sup, |steps|)
    decreases |steps|
  {
    hide Inv, Exec, Enabled, Owned, Room, Shape, Trusted, Journaled, Fates, Fresh, Advanced;
    if steps != [] {
      var d := Exec(c, steps[0]);
      InvParts(c);
      RunningInv(c, steps[0]);
      StepCounts(c, steps[0]);
      CountedRun(d, steps[1..]);
      AdvancedJoins(c.sup, d.sup, Execute(d, steps[1..]).sup, |steps| - 1);
    } else {
      StandsStill(c.sup);
    }
  }

  lemma AdvancedJoins(s: Sup, t: Sup, u: Sup, n: nat)
    requires Counts(s, t) && Advanced(t, u, n)
    ensures Advanced(s, u, n + 1)
  {
  }

  lemma StandsStill(s: Sup)
    ensures Advanced(s, s, 0)
  {
  }

  /**
   * In every run of one incarnation no counter wraps, and the record numbers
   * issued are exactly the consecutive ones above the mark it started from.
   */
  lemma {:induction false} CountersNeverWrap(c: Sys, steps: seq<Step>)
    requires Reachable(c) && c.running && Runnable(c, steps) && Continuous(steps)
    ensures Advanced(c.sup, Execute(c, steps).sup, |steps|)
    ensures Numbers(c, steps) == Consecutive(c.sup.nextRecord, Execute(c, steps).sup.nextRecord)
  {
    hide Inv, Exec, Enabled, Advanced, Numbers, Continuous, Consecutive;
    ReachableInv(c);
    CountedRun(c, steps);
    RunStampsOnly(c, steps);
  }

  /**
   * A restored Supervisor continues above the record mark of its snapshot: the
   * numbers it issues are the consecutive ones above it, so none that the
   * snapshot had counted is issued again.
   */
  lemma {:induction false} NumbersAboveMark(c: Sys, inc: Id, steps: seq<Step>)
    requires Enabled(c, RestoreImage(inc)) && Exec(c, RestoreImage(inc)).running
    requires Runnable(Exec(c, RestoreImage(inc)), steps) && Continuous(steps)
    ensures var d := Exec(c, RestoreImage(inc));
      && Numbers(d, steps) == Consecutive(c.image.value.records, Execute(d, steps).sup.nextRecord)
      && (forall n | n in Numbers(d, steps) :: n > c.image.value.records)
      && c.image.value.records + |Numbers(d, steps)| == Execute(d, steps).sup.nextRecord
  {
    hide Runnable, Execute, Numbers, Continuous, Validate, RestoredFault;
    var d := Exec(c, RestoreImage(inc));
    assert d.sup.nextRecord == c.image.value.records;
    RunStampsOnly(d, steps);
    RaisesAdd(d.sup.nextRecord, StampCount(d, steps), 0);
  }
}
