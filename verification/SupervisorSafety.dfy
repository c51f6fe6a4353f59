/**
 * Safety of every run: any interleaving of calls, callbacks, cancellations,
 * timers, trips, publications, Journal writes, crashes and restorations.
 */
module SupervisorSafety {
  import opened Basics
  import opened SupervisorTypes
  import opened SupervisorSpec
  import opened SupervisorSystem
  import opened SupervisorTrace
  import opened SupervisorOwnership
  import opened SupervisorDoubt
  import opened SupervisorFrames
  import opened SupervisorCalls
  import opened SupervisorJournal
  import opened SupervisorEvidence
  import opened SupervisorLatch
  import opened SupervisorCounters
  import opened SupervisorFates

  ghost predicate Vacant(c: Sys) {
    c.calls == map[] && c.live == map[] && c.pubs == map[]
  }

  ghost predicate Inv(c: Sys) {
    && c.m.Valid() && c.now > 0 && Trusted(c) && Journaled(c) && Fates(c) && Fresh(c)
    && (c.running ==> Owned(c) && Shape(c) && Room(c))
    && (!c.running ==> Vacant(c))
  }

  lemma InitInv(c: Sys)
    requires Init(c)
    ensures Inv(c)
  {
    assert Unresolved(c.h) == {};
  }

  // ---------------------------------------------------- crash and rebirth

  lemma CrashInv(c: Sys)
    requires Inv(c) && c.running
    ensures Inv(DoCrash(c))
  {
    hide Owned, Shape, Room, Justified, AwaitedTrusted, Restorable;
  }

  /** A Supervisor nobody has called yet. */
  predicate Idle(s: Sup) {
    && s.operation.None? && s.ops == map[] && s.nextOperation == 0 && s.reporting == 0 && s.pending.None?
    && !s.journalBusy && !s.recorderBusy && !s.journalRunning && !s.recorderRunning
    && ((s.mode == Stopped && s.fault.None?) || (s.mode == Faulted && s.fault.Some?))
  }

  /** A restored Supervisor is well shaped: its fault repeats the snapshot's evidence. */
  lemma RestoredShape(m: Machine, snap: Snapshot, inc: Id)
    requires m.Valid() && Restorable(m, snap) && Restore(m, snap, inc).Restored? && inc != 0
    ensures var s := Restore(m, snap, inc).sup; Idle(s) && SupShape(m, s) && s.inc == inc
  {
    var s := Restore(m, snap, inc).sup;
    if snap.pending.Some? {
      var p := snap.pending.value;
      var rows := m.RowsFor(p.from, p.event);
      var i :| 0 <= i < |rows| && rows[i].id == p.transition && rows[i].to == p.to && rows[i].external;
      var change := s.fault.value.change;
      assert m.RowsFor(change.from, change.event)[i].external;
      assert m.Declares(change);
    }
  }

  /** Restoring an image in doubt lands Faulted over the same attempt. */
  lemma RestoredDoubt(m: Machine, snap: Snapshot, inc: Id, a: AttemptId)
    requires Restorable(m, snap) && Restore(m, snap, inc).Restored? && Names(Some(snap), a)
    ensures DoubtOf(Restore(m, snap, inc).sup) == Some(a) && Restore(m, snap, inc).sup.mode == Faulted
  {
  }

  /** A new incarnation starts over the old image and the old history. */
  lemma RebornInv(c: Sys, s: Sup, d: Sys)
    requires Inv(c) && !c.running && Idle(s) && SupShape(c.m, s) && s.inc !in c.h.incarnations
    requires d == c.(running := true, sup := s, h := c.h.(incarnations := c.h.incarnations + {s.inc}))
    requires c.cfg.journaled ==> forall a | a in Unresolved(c.h) :: DoubtOf(s) == Some(a)
    ensures Inv(d)
  {
    hide Owned, Justified, Restorable, SupShape;
    BootOwned(c, s);
    RebornOwned(c, s, d);
    RebornJournaled(c, s, d);
    assert !Active(d);
    assert Trusted(d) && Fates(d) && Fresh(d);
  }

  lemma RebornOwned(c: Sys, s: Sup, d: Sys)
    requires Owned(c.(sup := s)) && d.sup == s && d.calls == c.calls && d.live == c.live && d.pubs == c.pubs && d.nextId == c.nextId
    ensures Owned(d)
  {
    FrameOwned(c.(sup := s), d);
  }

  lemma RebornJournaled(c: Sys, s: Sup, d: Sys)
    requires Journaled(c) && Vacant(c) && Idle(s)
    requires d == c.(running := true, sup := s, h := c.h.(incarnations := d.h.incarnations))
    requires c.cfg.journaled ==> forall a | a in Unresolved(c.h) :: DoubtOf(s) == Some(a)
    ensures Journaled(d)
  {
    hide Restorable;
  }

  lemma RestoreInv(c: Sys, inc: Id)
    requires Inv(c) && !c.running && c.image.Some? && inc != 0 && inc !in c.h.incarnations
    ensures Inv(DoRestore(c, inc))
  {
    hide Trusted, Fates, Fresh, Shape, Owned, Restore, Restorable, SupShape;
    var r := Restore(c.m, c.image.value, inc);
    if r.Restored? {
      RestoredShape(c.m, c.image.value, inc);
      if c.cfg.journaled {
        forall a | a in Unresolved(c.h) ensures DoubtOf(r.sup) == Some(a) {
          RestoredDoubt(c.m, c.image.value, inc, a);
        }
      }
      RebornInv(c, r.sup, DoRestore(c, inc));
    }
  }

  lemma BootInv(c: Sys, exec: Id)
    requires Inv(c) && !c.running && c.image.None? && exec != 0 && exec !in c.h.incarnations
    ensures Inv(DoBoot(c, exec))
  {
    hide Trusted, Fates, Fresh, Shape, Owned, Restorable;
    RebornInv(c, NewSupervisor(c.m, exec), DoBoot(c, exec));
  }

  lemma TickInv(c: Sys, time: Time)
    requires Inv(c) && !c.running && c.now <= time
    ensures Inv(c.(now := time))
  {
    hide CallTrusted, Justified, AwaitedTrusted, Restorable;
  }

  // ------------------------------------------------------------ every run

  /** Every step of the system keeps the invariant. */
  lemma StepInv(c: Sys, step: Step)
    requires Inv(c) && Enabled(c, step)
    ensures Inv(Exec(c, step))
  {
    hide Trusted, Journaled, Fates, Fresh, Owned, Shape, Room;
    hide ExecAdmit, ExecMove, ExecDecide, ExecRun, ExecPublish, ExecReincarnate, CanMove, CanDecide, CanRun, CanPublish;
    if Reincarnates(step) {
      RebirthInv(c, step);
    } else if !c.running {
      TickInv(c, step.time);
    } else {
      RunningInv(c, step);
    }
  }

  lemma RebirthInv(c: Sys, step: Step)
    requires Inv(c) && Reincarnates(step) && CanReincarnate(c, step)
    ensures Inv(ExecReincarnate(c, step))
  {
    hide Inv, DoCrash, DoRestore, DoBoot;
    match step
    case Crash => CrashInv(c);
    case RestoreImage(inc) => RestoreInv(c, inc);
    case Boot(exec) => BootInv(c, exec);
  }

  lemma RunningInv(c: Sys, step: Step)
    requires Inv(c) && c.running && Enabled(c, step) && !Reincarnates(step)
    ensures Inv(Exec(c, step)) && Exec(c, step).running
  {
    hide Trusted, Journaled, Fates, Fresh, Owned, Shape, Room, KindFits, Exec, Enabled;
    TrustedFits(c);
    StepOwned(c, step);
    StepShape(c, step);
    StepTrusted(c, step);
    StepJournaled(c, step);
    StepRoom(c, step);
    StepFates(c, step);
    StepFresh(c, step);
    StepFrame(c, step);
    ShapeFacts(Exec(c, step));
  }

  lemma ShapeFacts(c: Sys)
    requires Shape(c)
    ensures c.m.Valid() && c.now > 0
  {
  }

  /** The machine, the configuration and the incarnation are the same; nothing started is forgotten. */
  ghost predicate SameWorld(c: Sys, d: Sys) {
    && d.m == c.m && d.cfg == c.cfg && d.running == c.running
    && c.h.started <= d.h.started && d.h.incarnations == c.h.incarnations
  }

  lemma MoveFrame(c: Sys, step: Step)
    requires Moves(step) && CanMove(c, step)
    ensures SameWorld(c, ExecMove(c, step))
  {
    hide OnPass, OnFail, OnContextFailure, InvokeBegin, PrepareBegin, Abandon, Acquire;
  }

  lemma DecideFrame(c: Sys, step: Step)
    requires Decides(step) && CanDecide(c, step)
    ensures SameWorld(c, ExecDecide(c, step))
  {
    hide Latch, AwaitVerification, Commit, FinishReady, Resolve, RestoreFault;
  }

  lemma AdmitFrame(c: Sys, step: Step)
    requires Admits(step)
    ensures SameWorld(c, ExecAdmit(c, step))
  {
    hide SameWorld, Admitted;
    AdmittedFrame(c, AdmissionOf(c, step).0, AdmissionOf(c, step).1);
  }

  lemma AdmittedFrame(c: Sys, r: (Sup, Admission), call: Call)
    ensures SameWorld(c, Admitted(c, r, call))
  {
  }

  lemma SignalFrame(c: Sys, step: Step)
    requires step.TripCall? || step.Timer?
    ensures SameWorld(c, ExecSignal(c, step))
  {
    hide Trip, TimerFired;
  }

  lemma QuietFrame(c: Sys, d: Sys)
    requires Quiet(c, d)
    ensures SameWorld(c, d)
  {
  }

  lemma StepFrame(c: Sys, step: Step)
    requires Enabled(c, step) && !Reincarnates(step)
    ensures SameWorld(c, Exec(c, step))
  {
    hide Quiet, SameWorld, ExecAdmit, ExecMove, ExecDecide, ExecRun, ExecPublish, ExecSignal, CanMove, CanDecide, CanRun, CanPublish, CanSignal;
    if Admits(step) {
      AdmitFrame(c, step);
    } else if Moves(step) {
      MoveFrame(c, step);
    } else if Decides(step) {
      DecideFrame(c, step);
    } else if Hushed(step) {
      HushedQuiet(c, step);
      QuietFrame(c, Exec(c, step));
    } else {
      SignalFrame(c, step);
    }
  }

  lemma {:induction false} RunInv(c: Sys, steps: seq<Step>)
    requires Inv(c) && Runnable(c, steps)
    ensures Inv(Execute(c, steps))
    decreases |steps|
  {
    hide Inv, Enabled, Exec;
    if steps != [] {
      StepInv(c, steps[0]);
      RunInv(Exec(c, steps[0]), steps[1..]);
    }
  }

  // ------------------------------------------------------- main theorems

  ghost predicate Reachable(c: Sys) {
    exists start, steps :: Init(start) && Runnable(start, steps) && Execute(start, steps) == c
  }

  lemma {:induction false} ReachableInv(c: Sys)
    requires Reachable(c)
    ensures Inv(c)
  {
    hide Inv;
    var start, steps :| Init(start) && Runnable(start, steps) && Execute(start, steps) == c;
    InitInv(start);
    RunInv(start, steps);
  }

  /**
   * Crash safety of the write-ahead Journal. In every state any run can reach,
   * crashed or running: if an external Issue callback has started for attempt
   * `a` and `a` has been neither committed nor adjudicated, then the durable
   * image is in doubt about exactly `a`, so `a` is the only such attempt; no
   * Journal write in flight would overwrite the image with anything else; and
   * whatever restores the image lands Faulted, still naming `a`.
   */
  lemma {:induction false} CrashSafety(c: Sys, a: AttemptId)
    requires Reachable(c) && c.cfg.journaled && a in Unresolved(c.h)
    ensures Names(c.image, a) && Unresolved(c.h) == {a}
    ensures forall k | k in c.live && c.live[k].JournalWrite? && c.live[k].snap.Some? :: Names(c.live[k].snap, a)
    ensures c.running ==> DoubtOf(c.sup) == Some(a) && c.sup.mode != Stopped && c.sup.mode != Ready
    ensures forall inc | Restore(c.m, c.image.value, inc).Restored? ::
      DoubtOf(Restore(c.m, c.image.value, inc).sup) == Some(a) && Restore(c.m, c.image.value, inc).sup.mode == Faulted
    ensures Validate(c.m, c.image.value).None? || CeilingsReached(c.image.value)
  {
    hide Reachable, Inv, Owned, Shape, Restorable;
    ReachableInv(c);
    assert Journaled(c) by { InvParts(c); }
    if c.running { InvParts(c); DoubtModes(c, a); }
    assert Restorable(c.m, c.image.value);
    forall inc | Restore(c.m, c.image.value, inc).Restored?
      ensures DoubtOf(Restore(c.m, c.image.value, inc).sup) == Some(a) && Restore(c.m, c.image.value, inc).sup.mode == Faulted
    {
      RestoredDoubt(c.m, c.image.value, inc, a);
    }
    forall b | b in Unresolved(c.h) ensures b == a {
      assert Names(c.image, b);
    }
    RestorableValid(c.m, c.image.value);
  }

  lemma RestorableValid(m: Machine, snap: Snapshot)
    requires Restorable(m, snap)
    ensures Validate(m, snap).None? || CeilingsReached(snap)
  {
  }

  lemma InvParts(c: Sys)
    requires Inv(c)
    ensures Trusted(c) && Journaled(c) && Fates(c) && Fresh(c)
    ensures c.running ==> Owned(c) && Shape(c) && Room(c)
    ensures !c.running ==> Vacant(c)
  {
  }

  /** Only a Supervisor that is executing, awaiting verification or faulted is in doubt. */
  lemma DoubtModes(c: Sys, a: AttemptId)
    requires Owned(c) && Shape(c) && DoubtOf(c.sup) == Some(a)
    ensures c.sup.mode != Stopped && c.sup.mode != Ready
  {
    hide Threads, Counted;
  }

  /** Snapshot closure: every snapshot of every reachable Supervisor passes restoration, its ceilings aside. */
  lemma {:induction false} SnapshotClosure(c: Sys, now: Time)
    requires Reachable(c) && c.running
    ensures var snap := SnapshotOf(c.m, c.sup, now);
      && (Validate(c.m, snap).None? || (CeilingsReached(snap) && Validate(c.m, snap) == Some(Error.CounterExhausted)))
      && (snap.pending.Some? ==> snap.pending.value.issuedAt != 0)
  {
    hide Reachable, Inv, Owned, Shape, Validate;
    ReachableInv(c);
    InvParts(c);
    ExecutingActive(c);
    SnapshotRestorable(c, now);
  }

  /** A restoration, with the identity it draws and the time of the snapshot that follows it. */
  datatype Life = Life(inc: Id, now: Time)

  /** Restores a snapshot and takes the next one, once for every life; None when a restoration is refused. */
  ghost function Relived(m: Machine, snap: Snapshot, lives: seq<Life>): Option<Snapshot>
    decreases |lives|
  {
    if lives == [] then Some(snap)
    else match Restore(m, snap, lives[0].inc)
      case Rejected(_) => None
      case Restored(s) => Relived(m, SnapshotOf(m, s, lives[0].now), lives[1..])
  }

  /** What the counters of a snapshot leave room for. */
  predicate RoomToRestore(snap: Snapshot, n: nat) {
    n == 0 || (snap.revision < MAX_UINT64 && snap.records < MAX_UINT64 - RECORD_SEQ_MARGIN && snap.restarts + n <= MAX_UINT64)
  }

  /** The snapshot after one restoration can be restored in its turn. */
  lemma RelivesOnce(m: Machine, snap: Snapshot, life: Life)
    requires Restorable(m, snap) && life.inc != 0
    ensures Restore(m, snap, life.inc).Restored? <==> RoomToRestore(snap, 1)
    ensures Restore(m, snap, life.inc).Restored? ==> Restorable(m, SnapshotOf(m, Restore(m, snap, life.inc).sup, life.now))
  {
    if Restore(m, snap, life.inc).Restored? { RestoreRoundTrip(m, snap, life.inc, life.now); }
  }

  lemma {:induction false} Relives(m: Machine, snap: Snapshot, lives: seq<Life>)
    requires Restorable(m, snap) && forall k | 0 <= k < |lives| :: lives[k].inc != 0
    ensures Relived(m, snap, lives).Some? <==> RoomToRestore(snap, |lives|)
    ensures lives != [] && Relived(m, snap, lives).Some? ==>
      var first, last := SnapshotOf(m, Restore(m, snap, lives[0].inc).sup, lives[0].now), lives[|lives| - 1];
      Restore(m, snap, lives[0].inc).Restored?
      && Relived(m, snap, lives) == Some(first.(inc := last.inc, restarts := snap.restarts + |lives|, recordedAt := last.now))
    decreases |lives|
  {
    hide Restorable, SnapshotOf;
    if lives != [] {
      RelivesOnce(m, snap, lives[0]);
      if Restore(m, snap, lives[0].inc).Restored? {
        RestoreRoundTrip(m, snap, lives[0].inc, lives[0].now);
        var first := SnapshotOf(m, Restore(m, snap, lives[0].inc).sup, lives[0].now);
        Relives(m, first, lives[1..]);
        if |lives| == 1 {
          NoLives(m, first);
          assert lives[1..] == [];
        } else if Relived(m, snap, lives).Some? {
          RestorableIssued(m, snap);
          RestoreStable(m, snap, lives[0].inc, lives[1].inc, lives[0].now, lives[1].now);
        }
      }
    }
  }

  lemma RestorableIssued(m: Machine, snap: Snapshot)
    requires Restorable(m, snap)
    ensures snap.pending.Some? ==> snap.pending.value.issuedAt != 0
  {
  }

  /**
   * Evidence survives any number of crashes: a snapshot of a reachable
   * Supervisor can be restored as often as its counters leave room for, and
   * each time the state, the high-water marks and the pending evidence are
   * exactly the first ones.
   */
  lemma {:induction false} EvidenceSurvives(c: Sys, now: Time, lives: seq<Life>)
    requires Reachable(c) && c.running && forall k | 0 <= k < |lives| :: lives[k].inc != 0
    ensures var snap := SnapshotOf(c.m, c.sup, now);
      var again := Relived(c.m, snap, lives);
      && (again.Some? <==> RoomToRestore(snap, |lives|))
      && (again.Some? ==>
            && again.value.pending == snap.pending && again.value.inDoubt == snap.inDoubt
            && again.value.state == snap.state && again.value.revision == snap.revision
            && again.value.attempt == snap.attempt && again.value.records == snap.records && again.value.exec == snap.exec
            && again.value.restarts == snap.restarts + |lives|
            && (lives != [] ==> again.value.faulted == (snap.faulted || snap.inDoubt)))
  {
    hide Reachable, Inv, Owned, Shape, Restorable, SnapshotOf, Relived;
    ReachableInv(c);
    InvParts(c);
    ExecutingActive(c);
    SnapshotRestorable(c, now);
    var snap := SnapshotOf(c.m, c.sup, now);
    Relives(c.m, snap, lives);
    if lives == [] {
      NoLives(c.m, snap);
    } else if Relived(c.m, snap, lives).Some? {
      RestorableIssued(c.m, snap);
      RestoreRoundTrip(c.m, snap, lives[0].inc, lives[0].now);
      RelivesOnce(c.m, snap, lives[0]);
      DoubtIsPending(c.m, snap);
      DoubtIsPending(c.m, SnapshotOf(c.m, Restore(c.m, snap, lives[0].inc).sup, lives[0].now));
    }
  }

  lemma {:induction false} NoLives(m: Machine, snap: Snapshot)
    ensures Relived(m, snap, []) == Some(snap)
  {
  }

  lemma DoubtIsPending(m: Machine, snap: Snapshot)
    requires Restorable(m, snap)
    ensures snap.inDoubt == snap.pending.Some?
  {
  }

  lemma ExecutingActive(c: Sys)
    requires Owned(c)
    ensures c.sup.mode == Executing ==> Active(c)
  {
    hide Threads, Counted;
  }

  /**
   * Operation exclusion: a step that admits an operation finds no running call,
   * no live callback of any kind, and no publication of an earlier operation, a
   * Trip, an expiry or a secondary cause; and its token was never used before.
   */
  lemma {:induction false} OperationExclusion(c: Sys, step: Step)
    requires Reachable(c) && c.running && Admits(step)
    requires var r := AdmissionOf(c, step).0; r.1.Begun? || r.1.Exhausted?
    ensures c.calls == map[] && c.live == map[] && c.sup.operation.None?
    ensures forall p | p in c.pubs :: c.pubs[p].kind.Refusal?
    ensures var r := AdmissionOf(c, step).0;
      r.0.operation == Some(r.1.op) && r.1.op == c.sup.nextOperation + 1 && r.1.op !in c.sup.ops
  {
    hide Reachable, Inv, Threads, Counted, AdmissionOf;
    ReachableInv(c);
    InvParts(c);
    AdmissionAdmissible(c, step);
    AdmissionIsExclusive(c);
    assert Held(c);
  }

  /** The counters and gates are exactly what is live. */
  lemma {:induction false} CountersAreReal(c: Sys)
    requires Reachable(c) && c.running
    ensures forall o | o in c.sup.ops :: c.sup.ops[o].callbacks == |Tagged(c.live, HeldBy(o))|
    ensures c.sup.reporting == |Cast(c.pubs, Reporter)|
    ensures c.sup.journalBusy == c.sup.journalRunning == (|Tagged(c.live, OfJournal)| == 1) && |Tagged(c.live, OfJournal)| <= 1
    ensures c.sup.recorderBusy == c.sup.recorderRunning == (|Tagged(c.live, OfRecorder)| == 1) && |Tagged(c.live, OfRecorder)| <= 1
    ensures forall k | k in c.live && c.live[k].App? :: c.sup.operation == Some(c.live[k].op)
  {
    hide Reachable, Inv, Regime;
    ReachableInv(c);
    InvParts(c);
    forall k | k in c.live && c.live[k].App? ensures c.sup.operation == Some(c.live[k].op) {
      assert LiveOwned(c, k);
    }
  }

  /** A change of owner is an admission by an idle Supervisor, or the release of a returned operation without callbacks. */
  predicate Handover(s: Sup, t: Sup, step: Step) {
    || t.operation == s.operation
    || (Admits(step) && s.operation.None? && t.operation == Some(t.nextOperation))
    || (Hushed(step) && s.operation.Some? && t.operation.None?
        && OpOf(t, s.operation.value).returned && OpOf(t, s.operation.value).callbacks == 0)
  }

  lemma LatchKeepsOwner(m: Machine, s: Sup, o: Option<nat>, change: Change, phase: Phase, cause: nat, uncertain: bool, now: Time)
    ensures Latch(m, s, o, change, phase, cause, uncertain, now).0.operation == s.operation
  {
  }

  lemma CommitKeepsOwner(m: Machine, s: Sup, o: nat, change: Change, issued: bool, now: Time)
    ensures Commit(m, s, o, change, issued, now).0.operation == s.operation
  {
    hide Latch, Owns;
    LatchKeepsOwner(m, s, Some(o), change, CommitPhase, COUNTER_EXHAUSTED, issued, now);
  }

  lemma AwaitKeepsOwner(s: Sup, o: nat, change: Change, row: Row, timeout: nat, now: Time)
    ensures AwaitVerification(s, o, change, row, timeout, now).0.operation == s.operation
  {
  }

  lemma WaitKeepsOwner(c: Sys, o: nat)
    requires o in c.calls
    ensures DoCommit(c, o).sup.operation == c.sup.operation && DoAwait(c, o).sup.operation == c.sup.operation
  {
    hide Commit, AwaitVerification;
    var call := c.calls[o];
    CommitKeepsOwner(c.m, c.sup, o, call.change, call.kind.VerifyCall?, c.now);
    AwaitKeepsOwner(c.sup, o, call.change, call.row, c.cfg.timeout, c.now);
  }

  lemma FailKeepsOwner(c: Sys, o: nat, cause: nat)
    requires o in c.calls && c.calls[o].pc.FailAt?
    ensures DoLatch(c, o, cause).sup.operation == c.sup.operation
  {
    hide Latch;
    var pc := c.calls[o].pc;
    LatchKeepsOwner(c.m, c.sup, Some(o), pc.change, pc.phase, cause, pc.uncertain, c.now);
  }

  lemma DecideKeepsOwner(c: Sys, step: Step)
    requires Decides(step) && CanDecide(c, step)
    ensures ExecDecide(c, step).sup.operation == c.sup.operation
  {
    hide DoAwait, DoCommit, DoLatch, DoFinish, DoResolve, DoRestoreFault;
    match step
    case LatchCall(o, cause) => FailKeepsOwner(c, o, cause);
    case CommitCall(o) => WaitKeepsOwner(c, o);
    case AwaitCall(o) => WaitKeepsOwner(c, o);
    case FinishCall(o) => FinishKeepsOwner(c, o);
    case ResolveCall(o) => FinishKeepsOwner(c, o);
    case RestoreFaultCall(o) => FinishKeepsOwner(c, o);
  }

  lemma FinishReadyKeepsOwner(s: Sup, o: nat, original: Fault)
    ensures FinishReady(s, o).0.operation == s.operation && RestoreFault(s, o, original).operation == s.operation
  {
  }

  lemma ResolveKeepsOwner(s: Sup, o: nat, original: Fault, decision: Decision, target: State)
    ensures Resolve(s, o, original, decision, target).0.operation == s.operation
  {
  }

  lemma FinishKeepsOwner(c: Sys, o: nat)
    requires o in c.calls
    ensures DoFinish(c, o).sup.operation == c.sup.operation
    ensures c.calls[o].kind.AdjudicateCall? ==>
      DoResolve(c, o).sup.operation == c.sup.operation && DoRestoreFault(c, o).sup.operation == c.sup.operation
  {
    hide RestoreFault, Resolve;
    var kind := c.calls[o].kind;
    if kind.AdjudicateCall? {
      FinishReadyKeepsOwner(c.sup, o, kind.original);
      ResolveKeepsOwner(c.sup, o, kind.original, kind.decision, kind.target);
    }
  }

  lemma BeginsHandover(c: Sys, t: Sup, o: nat, call: Call)
    requires Begins(c, t, o, call)
    ensures c.sup.operation.None? && t.operation == Some(o) && t.nextOperation == o
  {
  }

  lemma AdmittedSup(c: Sys, r: (Sup, Admission), call: Call)
    ensures Admitted(c, r, call).sup == r.0
  {
  }

  lemma RefusedKeepsOwner(s: Sup, t: Sup)
    requires SameOwnership(s, t)
    ensures t.operation == s.operation
  {
  }

  lemma ExpireKeepsOwner(m: Machine, s: Sup, now: Time)
    requires s.pending.Some?
    ensures Expire(m, s, now).operation == s.operation
  {
    hide Latch;
    LatchKeepsOwner(m, s, None, s.pending.value.change, VerifyPhase, VERIFICATION_TIMEOUT, true, now);
  }

  lemma AdmittedHandover(c: Sys, r: (Sup, Admission), call: Call, step: Step)
    requires Admissible(c, r, call) && Admits(step)
    ensures Handover(c.sup, Admitted(c, r, call).sup, step)
  {
    hide Begins, Admitted, SameOwnership, Expire;
    AdmittedSup(c, r, call);
    match r.1
    case Refused(_) => RefusedKeepsOwner(c.sup, r.0);
    case Begun(o, _) => BeginsHandover(c, r.0, o, call);
    case Exhausted(o, change, phase, uncertain) => BeginsHandover(c, r.0, o, call.(pc := FailAt(change, phase, uncertain)));
    case Expired => ExpireKeepsOwner(c.m, c.sup, c.now);
  }

  lemma SignalKeepsOwner(c: Sys, step: Step)
    requires step.TripCall? || step.Timer?
    ensures ExecSignal(c, step).sup.operation == c.sup.operation
  {
  }

  lemma QuietHandover(c: Sys, d: Sys, step: Step)
    requires Quiet(c, d) && Hushed(step)
    ensures Handover(c.sup, d.sup, step)
  {
  }

  lemma StepHandover(c: Sys, step: Step)
    requires Owned(c) && Enabled(c, step) && !Reincarnates(step)
    ensures Handover(c.sup, Exec(c, step).sup, step)
    ensures step.Timer? || step.TripCall? ==> Exec(c, step).sup.operation == c.sup.operation
  {
    hide Owned, Quiet, TokensKept, Admissible, AdmissionOf, Admitted, ExecAdmit, ExecMove, ExecDecide, ExecRun, ExecPublish, ExecSignal;
    hide CanMove, CanDecide, CanRun, CanPublish, CanSignal;
    if Admits(step) {
      AdmissionAdmissible(c, step);
      AdmittedHandover(c, AdmissionOf(c, step).0, AdmissionOf(c, step).1, step);
    } else if Moves(step) {
      MoveUntouched(c, step);
    } else if Decides(step) {
      DecideKeepsOwner(c, step);
    } else if Hushed(step) {
      HushedQuiet(c, step);
      QuietHandover(c, Exec(c, step), step);
    } else {
      SignalKeepsOwner(c, step);
    }
  }

  /**
   * The life of an operation: it is released at the very step after which its
   * call has returned and no callback of it is live, and never before. Trips
   * and timers release nothing, so an expiry inside an enclosing Issue leaves
   * the Issue its operation.
   */
  lemma {:induction false} OperationLifecycle(c: Sys, step: Step)
    requires Reachable(c) && c.running && Enabled(c, step) && !Reincarnates(step)
    ensures var s, t := c.sup, Exec(c, step).sup;
      && Handover(s, t, step)
      && (step.Timer? || step.TripCall? ==> t.operation == s.operation)
      && (t.operation.Some? ==> !(OpOf(t, t.operation.value).returned && OpOf(t, t.operation.value).callbacks == 0))
      && (s.operation.Some? && t.operation.None? ==>
            forall k | k in Exec(c, step).live :: OwnerOf(Exec(c, step).live[k]) != s.operation)
  {
    hide Reachable, Inv, Exec, Enabled, Threads, Tagged;
    ReachableInv(c);
    InvParts(c);
    StepHandover(c, step);
    RunningInv(c, step);
    InvParts(Exec(c, step));
    var d := Exec(c, step);
    assert Held(d);
    if c.sup.operation.Some? && d.sup.operation.None? {
      assert c.sup.operation.value in c.sup.ops by { assert Held(c); }
      StepKeepsTokens(c, step);
      NoneHeld(c, step, d);
    }
  }

  lemma NoneHeld(c: Sys, step: Step, d: Sys)
    requires Owned(c) && Owned(d) && c.sup.operation.Some? && d.sup.operation.None?
    requires OpOf(d.sup, c.sup.operation.value).returned && OpOf(d.sup, c.sup.operation.value).callbacks == 0
    requires c.sup.operation.value in d.sup.ops
    ensures forall k | k in d.live :: OwnerOf(d.live[k]) != c.sup.operation
  {
    hide Threads, Regime;
    var o := c.sup.operation.value;
    EmptyTag(d.live, HeldBy(o));
    forall k | k in d.live ensures OwnerOf(d.live[k]) != c.sup.operation {
      assert !Has(d.live[k], HeldBy(o));
    }
  }

  /** Non-bypassable checks: behind every commit of every run lies the complete trace its row requires, in order, for that change. */
  lemma {:induction false} NoCheckBypassed(c: Sys, i: nat)
    requires Reachable(c) && i < |c.h.commits|
    ensures Justified(c.m, c.h.commits[i])
  {
    hide Reachable, Inv, Justified;
    ReachableInv(c);
    InvParts(c);
  }

  // ------------------------------------------------------- latch safety

  /**
   * The decision a step takes rests on a complete trace, and no guard's outcome
   * in it was consumed after cancellation, so a guard that declined returned an
   * error.
   */
  ghost predicate Earned(c: Sys, step: Step) {
    && (step.CommitCall? || step.FinishCall? || step.ResolveCall?) && step.op in c.calls
    && (step.ResolveCall? || !c.calls[step.op].overtaken)
    && var call := c.calls[step.op];
       match call.kind
       case StartCall => step.FinishCall? && call.trace == Reconciled(call.change, c.m.reconcilers)
       case IssueCall =>
         if step.FinishCall? then AllDeclined(c.m, call.attempt, call.trace)
         else step.CommitCall? && Justified(c.m, CommitRecord(call.change, call.pick, call.row, call.trace, call.admittedAt, call.deadline))
       case VerifyCall =>
         step.CommitCall? && Justified(c.m, CommitRecord(call.change, call.pick, call.row, call.trace, call.admittedAt, call.deadline))
       case AdjudicateCall(_, _, _, _) => step.ResolveCall? && call.trace == Reconciled(call.change, c.m.reconcilers)
  }

  lemma GuardTrace(m: Machine, call: Call, completed: bool)
    requires call.pc.SelectAt?
    ensures |OnPass(m, call).trace| > |call.trace| ==> OnPass(m, call).trace[|call.trace|].passed
    ensures OnFail(m, call, completed).overtaken == (call.overtaken || (completed && call.cancelled))
    ensures !completed ==> OnFail(m, call, completed).trace == call.trace
  {
    hide ChangeAt;
  }

  /** A guard that counts as declined returned an error, unless the call was cancelled by then and knows it. */
  lemma DeclinedIsError(c: Sys, o: nat)
    requires o in c.calls && c.calls[o].waiting.Some? && c.calls[o].inbox.Some? && c.calls[o].pc.SelectAt?
    ensures var call, next := c.calls[o], DoConsume(c, o).calls[o];
      |next.trace| > |call.trace| && !next.trace[|call.trace|].passed ==>
        if next.overtaken then call.overtaken || call.cancelled else call.inbox == Some(Failed)
  {
    hide ChangeAt;
    hide OnPass, OnFail;
    GuardTrace(c.m, c.calls[o], true);
    GuardTrace(c.m, c.calls[o], false);
  }

  lemma AdmittedNotReady(c: Sys, r: (Sup, Admission), call: Call)
    requires Admissible(c, r, call)
    ensures r.0.mode == Ready ==> c.sup.mode == Ready
  {
    if r.1.Expired? { ExpireFaults(c.m, c.sup, c.now); }
  }

  lemma ExpireFaults(m: Machine, s: Sup, now: Time)
    requires s.pending.Some?
    ensures Expire(m, s, now).mode == Faulted && Trip(m, s, 0, now).0.mode == Faulted
  {
  }

  lemma SignalNotReady(c: Sys, step: Step)
    requires step.TripCall? || step.Timer?
    ensures ExecSignal(c, step).sup.mode == Ready ==> c.sup.mode == Ready
  {
  }

  lemma QuietKeepsMode(c: Sys, d: Sys)
    requires Quiet(c, d)
    ensures d.sup.mode == c.sup.mode
  {
  }

  /** Only a decision makes the Supervisor Ready. */
  lemma OnlyDecisionsReady(c: Sys, step: Step)
    requires Owned(c) && Shape(c) && Enabled(c, step) && !Reincarnates(step) && !Decides(step)
    ensures Exec(c, step).sup.mode == Ready ==> c.sup.mode == Ready
  {
    hide Owned, Shape, TokensKept, Quiet, Admissible, AdmissionOf, Admitted;
    hide ExecAdmit, ExecMove, ExecRun, ExecPublish, ExecSignal, CanMove, CanRun, CanPublish, CanSignal;
    if Admits(step) {
      AdmissionAdmissible(c, step);
      AdmittedSup(c, AdmissionOf(c, step).0, AdmissionOf(c, step).1);
      AdmittedNotReady(c, AdmissionOf(c, step).0, AdmissionOf(c, step).1);
    } else if Moves(step) {
      MoveUntouched(c, step);
    } else if Hushed(step) {
      HushedQuiet(c, step);
      QuietKeepsMode(c, Exec(c, step));
    } else {
      SignalNotReady(c, step);
    }
  }

  lemma LatchNotReady(m: Machine, s: Sup, o: nat, change: Change, phase: Phase, cause: nat, uncertain: bool, now: Time)
    ensures Stamp(Latch(m, s, Some(o), change, phase, cause, uncertain, now).0).mode == Ready ==> s.mode == Ready
  {
  }

  lemma WaitingNotReady(c: Sys, o: nat)
    requires o in c.calls
    ensures DoAwait(c, o).sup.mode == Ready ==> c.sup.mode == Ready
    ensures c.calls[o].kind.AdjudicateCall? ==> DoRestoreFault(c, o).sup.mode == Ready ==> c.sup.mode == Ready
  {
  }

  /** Of the decisions, only commits, finishes and adjudications end in Ready. */
  lemma ReadyDecisions(c: Sys, step: Step)
    requires Decides(step) && CanDecide(c, step) && c.sup.mode != Ready && ExecDecide(c, step).sup.mode == Ready
    ensures step.CommitCall? || step.FinishCall? || step.ResolveCall?
  {
    hide Latch, DoAwait, DoRestoreFault;
    var call := c.calls[step.op];
    if step.LatchCall? {
      LatchNotReady(c.m, c.sup, step.op, call.pc.change, call.pc.phase, step.cause, call.pc.uncertain, c.now);
    } else if step.AwaitCall? || step.RestoreFaultCall? {
      WaitingNotReady(c, step.op);
    }
  }

  lemma FinishTrace(m: Machine, call: Call)
    requires Faithful(m, call) && KindFits(call) && (call.pc.FinishAt? || call.pc.ResolveAt?)
    ensures call.kind.StartCall? || call.kind.AdjudicateCall? ==> call.trace == Reconciled(call.change, m.reconcilers)
    ensures call.kind.IssueCall? ==> call.pc.FinishAt? && AllDeclined(m, call.attempt, call.trace)
    ensures !call.kind.VerifyCall? && (call.kind.AdjudicateCall? <==> call.pc.ResolveAt?)
  {
    hide AllDeclined, Reconciled;
  }

  lemma DecisionEarned(c: Sys, step: Step)
    requires Decides(step) && CanDecide(c, step) && c.sup.mode != Ready && ExecDecide(c, step).sup.mode == Ready
    requires Faithful(c.m, c.calls[step.op]) && KindFits(c.calls[step.op])
    ensures Earned(c, step)
  {
    hide Justified, AllDeclined, Faithful, ExecDecide;
    ReadyDecisions(c, step);
    if step.CommitCall? {
      CommitJustified(c.m, c.calls[step.op]);
    } else {
      FinishTrace(c.m, c.calls[step.op]);
    }
  }

  lemma DecisionTaken(c: Sys, step: Step)
    requires Enabled(c, step) && Decides(step)
    ensures CanDecide(c, step) && step.op in c.calls && Exec(c, step) == ExecDecide(c, step)
  {
  }

  /**
   * Every way into Ready is earned: a Start and an adjudication by every
   * reconciler returning nil, in order; a refused Issue by all preconditions
   * passing and every guard declining; a commit by the trace its row requires.
   */
  lemma {:induction false} ReadyIsEarned(c: Sys, step: Step)
    requires Reachable(c) && c.running && Enabled(c, step) && !Reincarnates(step)
    requires c.sup.mode != Ready && Exec(c, step).sup.mode == Ready
    ensures Earned(c, step)
  {
    hide Reachable, Inv, Owned, Shape, Trusted, Earned, Faithful, KindFits, Proposes, Exec, Enabled, ExecDecide, CanDecide;
    ReachableInv(c);
    InvParts(c);
    if Decides(step) {
      DecisionTaken(c, step);
      TrustedCall(c, step.op);
      DecisionEarned(c, step);
    } else {
      OnlyDecisionsReady(c, step);
    }
  }

  /** No crash, and no successful adjudication, along the run. */
  ghost predicate Undisturbed(c: Sys, steps: seq<Step>)
    requires Runnable(c, steps)
    decreases |steps|
  {
    steps == [] || (!Reincarnates(steps[0]) && !Cleared(c, steps[0], Exec(c, steps[0]).sup) && Undisturbed(Exec(c, steps[0]), steps[1..]))
  }

  lemma {:induction false} LatchedRun(c: Sys, steps: seq<Step>)
    requires Inv(c) && c.running && c.sup.fault.Some? && Runnable(c, steps) && Undisturbed(c, steps)
    ensures StaysLatched(c.sup, Execute(c, steps).sup)
    decreases |steps|
  {
    hide Inv, Exec, Enabled, Cleared;
    InvParts(c);
    FaultHasNoPending(c);
    if steps != [] {
      var d := Exec(c, steps[0]);
      RunningInv(c, steps[0]);
      LatchedStep(c, steps[0]);
      LatchedRun(d, steps[1..]);
    }
  }

  /** Latch safety: until it is adjudicated, the first fault stays, and so do the state and the revision. */
  lemma {:induction false} LatchSafety(c: Sys, steps: seq<Step>)
    requires Reachable(c) && c.running && c.sup.fault.Some? && Runnable(c, steps) && Undisturbed(c, steps)
    ensures StaysLatched(c.sup, Execute(c, steps).sup)
  {
    hide Reachable, Inv, Exec, Enabled, Undisturbed, StaysLatched;
    ReachableInv(c);
    LatchedRun(c, steps);
  }

  /** A call without its operation stands before a latched fault. */
  lemma {:induction false} NoFallback(c: Sys, o: nat)
    requires Reachable(c) && c.running && o in c.calls && (!Owns(c.sup, o) || c.sup.mode != Executing)
    ensures c.sup.mode == Faulted && c.sup.fault.Some? && OpOf(c.sup, o).revoked
  {
    hide Reachable, Inv, Owned;
    ReachableInv(c);
    InvParts(c);
    LostOwnershipFindsFault(c, o);
  }

  // ------------------------------------------------------------ freshness

  /**
   * The step that would hand an attempt to its controller does so if and only if
   * its operation is live, and then that attempt was never handed over before,
   * in this incarnation or an earlier one.
   */
  lemma {:induction false} AttemptStartsOnce(c: Sys, o: nat)
    requires Reachable(c) && Enabled(c, Invoke(o)) && c.calls[o].pc.IssueAt?
    ensures var id, d := c.calls[o].change.Identifier(), Exec(c, Invoke(o));
      if Owns(c.sup, o) && c.sup.mode == Executing then id !in c.h.started && d.h.started == c.h.started + {id}
      else d.h.started == c.h.started
  {
    hide Reachable, Inv, Trusted, Fresh, Shape, Owned, Faithful, KindFits, Proposes, OnFail;
    ReachableInv(c);
    InvParts(c);
    TrustedCall(c, o);
    InvokeFresh(c, o);
  }

  // ------------------------------------------------------------- outcomes

  /**
   * Every callback outcome has one fate. When invoke consumes an outcome, or
   * cleanup records it as a secondary cause, it had no fate before; cleanup
   * records exactly the failures of abandoned operations, and delivers every
   * other outcome of a live operation to the call that waits for it.
   */
  lemma {:induction false} OutcomeOnce(c: Sys, step: Step)
    requires Reachable(c) && c.running && Enabled(c, step)
    ensures c.h.primary !! c.h.secondary
    ensures step.Consume? ==>
      var k := c.calls[step.op].waiting.value;
      k !in c.h.primary + c.h.secondary && Exec(c, step).h.primary == c.h.primary + {k} && Exec(c, step).h.secondary == c.h.secondary
    ensures step.Cleanup? ==>
      var k, d := step.callback, Exec(c, step);
      var op := c.live[k].op;
      && k !in c.h.primary + c.h.secondary && d.h.primary == c.h.primary
      && d.h.secondary == (if OpOf(c.sup, op).abandoned && !step.outcome.Passed? then c.h.secondary + {k} else c.h.secondary)
      && (!OpOf(c.sup, op).abandoned ==> op in d.calls && d.calls[op].waiting == Some(k) && d.calls[op].inbox == Some(step.outcome))
  {
    hide Reachable, Inv, Owned, Fates, OnPass, OnFail, CallbackReturned;
    ReachableInv(c);
    InvParts(c);
    assert c.h.primary !! c.h.secondary by { FatesApart(c); }
    if step.Consume? {
      ConsumeFates(c, step.op);
    } else if step.Cleanup? {
      CleanupFates(c, step.callback, step.outcome);
      if !OpOf(c.sup, c.live[step.callback].op).abandoned { LiveIsAwaited(c, step.callback); }
    }
  }

  lemma FatesApart(c: Sys)
    requires Fates(c)
    ensures c.h.primary !! c.h.secondary
  {
  }

  lemma LiveIsAwaited(c: Sys, k: nat)
    requires Owned(c) && k in c.live && c.live[k].App? && !OpOf(c.sup, c.live[k].op).abandoned
    ensures c.live[k].op in c.calls && c.calls[c.live[k].op].waiting == Some(k)
  {
    hide Regime, Counted;
    assert LiveOwned(c, k);
  }

  /** An outcome delivered in time is consumed by invoke, whatever happens before; and after an abandonment nothing starts. */
  lemma {:induction false} NoOutcomeLost(c: Sys, step: Step, o: nat)
    requires Reachable(c) && c.running && Enabled(c, step) && !Reincarnates(step) && o in c.calls
    ensures HasOutcome(c, o) ==>
      StillDelivered(c, Exec(c, step), o) || (step == Consume(o) && c.calls[o].waiting.value in Exec(c, step).h.primary)
    ensures OpOf(c.sup, o).abandoned ==> step != Invoke(o) && step != PrepareAcquire(o) && OpOf(Exec(c, step).sup, o).abandoned
  {
    hide Reachable, Inv, Owned, Exec, Enabled, StillDelivered;
    ReachableInv(c);
    InvParts(c);
    if HasOutcome(c, o) { DeliveredIsConsumed(c, step, o); }
    if OpOf(c.sup, o).abandoned {
      AbandonedStartsNothing(c, o);
      StepKeepsTokens(c, step);
    }
  }

  /** A revoked operation is harmless from then on: it stays revoked, and its own steps change no decision. */
  lemma {:induction false} RevocationHolds(c: Sys, step: Step, o: nat)
    requires Reachable(c) && c.running && Enabled(c, step) && !Reincarnates(step) && o in c.sup.ops && c.sup.ops[o].revoked
    ensures OpOf(Exec(c, step).sup, o).revoked
    ensures (Moves(step) || Decides(step)) && step.op == o ==> Untouched(c.sup, Exec(c, step).sup)
  {
    hide Reachable, Inv, Owned, Exec, Enabled, Untouched;
    ReachableInv(c);
    InvParts(c);
    StepKeepsTokens(c, step);
    if (Moves(step) || Decides(step)) && step.op == o {
      MoversRun(c, step);
      RevokedIsHarmless(c, step);
    }
  }

  lemma MoversRun(c: Sys, step: Step)
    requires Enabled(c, step) && (Moves(step) || Decides(step))
    ensures step.op in c.calls
  {
  }

  lemma Resolvable(c: Sys, o: nat)
    requires CanDecide(c, ResolveCall(o))
    ensures At(c, o) && c.calls[o].kind.AdjudicateCall?
  {
  }

  /** Adoption and override move to their target and raise the revision by exactly one; retention does neither. */
  lemma {:induction false} AdjudicationMoves(c: Sys, o: nat)
    requires Reachable(c) && Enabled(c, ResolveCall(o)) && c.running
    ensures var kind, s, t := c.calls[o].kind, c.sup, Exec(c, ResolveCall(o)).sup;
      && kind.target in c.m.states
      && (s.fault.Some? && t.fault.None? ==>
            && t.mode == Ready && s.fault == Some(kind.original)
            && t.state == kind.target && t.revision == s.revision + (if kind.decision.Retain? then 0 else 1)
            && (kind.decision.Retain? ==> kind.target == s.state) && (kind.decision.Adopt? ==> kind.target == kind.original.to))
  {
    hide Reachable, Inv, Owned, Room, Trusted, Faithful, KindFits, Exec, Enabled;
    ReachableInv(c);
    InvParts(c);
    DecisionTaken(c, ResolveCall(o));
    hide CanDecide;
    Resolvable(c, o);
    TrustedCall(c, o);
    ResolveCounts(c, o);
  }
}
