/**
 * The write-ahead Journal: an external Issue callback only starts once the
 * durable image names its attempt, and the image keeps naming it until the
 * attempt is committed or adjudicated, across crashes and restorations.
 */
module SupervisorJournal {
  import opened Basics
  import opened SupervisorTypes
  import opened SupervisorSpec
  import opened SupervisorSystem
  import opened SupervisorTrace
  import opened SupervisorOwnership
  import opened SupervisorDoubt

  /** The snapshot is in doubt about exactly attempt `a`. */
  predicate Names(snap: Option<Snapshot>, a: AttemptId) {
    snap.Some? && snap.value.inDoubt && snap.value.pending.Some? && snap.value.pending.value.attempt == a
  }

  /** The attempt the Supervisor itself is in doubt about. */
  function DoubtOf(s: Sup): Option<AttemptId> {
    if s.pending.Some? then Some(s.pending.value.change.Identifier())
    else if s.operation.Some? && s.mode == Executing && OpOf(s, s.operation.value).issuedAt != 0
            && OpOf(s, s.operation.value).change.id != 0
    then Some(OpOf(s, s.operation.value).change.Identifier())
    else if s.fault.Some? && s.fault.value.issuedAt != 0 then Some(FaultPending(s.fault.value).attempt)
    else None
  }

  lemma SnapshotNamesDoubt(m: Machine, s: Sup, now: Time, a: AttemptId)
    requires DoubtOf(s) == Some(a)
    ensures Names(Some(SnapshotOf(m, s, now)), a)
  {
  }

  /** External attempts whose outcome nobody has established. */
  function Unresolved(h: History): set<AttemptId> {
    h.started - h.resolved
  }

  /** Every trace of the execution, durable or not, names every unresolved attempt. */
  ghost predicate Recorded(c: Sys) {
    forall a | a in Unresolved(c.h) ::
      && Names(c.image, a)
      && (c.running ==> DoubtOf(c.sup) == Some(a))
      && forall k | k in c.live && c.live[k].JournalWrite? && c.live[k].snap.Some? :: Names(c.live[k].snap, a)
  }

  /** A prepared Issue call finds its own attempt in the image. */
  ghost predicate Prepared(c: Sys) {
    Active(c) && c.calls[c.sup.operation.value].kind.IssueCall? ==>
      var call := c.calls[c.sup.operation.value];
      var a := call.change.Identifier();
      && (call.pc.DeliverAt? && call.waiting.Some? && call.waiting.value in c.live && c.live[call.waiting.value].JournalWrite? ==>
            var w := c.live[call.waiting.value];
            (w.snap.Some? ==> Names(w.snap, a)) && (w.saved ==> w.snap.Some? && Names(c.image, a)))
      && (call.pc.DeliverAt? && call.inbox == Some(Passed) ==> Names(c.image, a))
      && (call.pc.IssueAt? ==> Names(c.image, a))
  }

  ghost predicate AllRestorable(c: Sys) {
    && (c.image.Some? ==> Restorable(c.m, c.image.value))
    && forall k | k in c.live && c.live[k].JournalWrite? ::
         (c.live[k].snap.Some? ==> Restorable(c.m, c.live[k].snap.value)) && (c.live[k].saved ==> c.live[k].snap.Some?)
  }

  ghost predicate Journaled(c: Sys) {
    AllRestorable(c) && (c.cfg.journaled ==> Recorded(c) && (c.running ==> Prepared(c)))
  }

  // ------------------------------------------------- steps that keep the doubt

  /** Every Journal write of `d` is a write of `c`, or has captured nothing yet. */
  ghost predicate SameWrites(c: Sys, d: Sys) {
    forall k | k in d.live && d.live[k].JournalWrite? ::
      (k in c.live && c.live[k] == d.live[k]) || (d.live[k].snap.None? && !d.live[k].saved)
  }

  /** Nothing about external work changes between `c` and `d`. */
  lemma JournaledFrame(c: Sys, d: Sys)
    requires Journaled(c) && c.running && d.running && d.m == c.m && d.cfg == c.cfg && d.image == c.image
    requires d.h.started == c.h.started && c.h.resolved <= d.h.resolved && SameWrites(c, d)
    requires DoubtOf(c.sup).Some? ==> DoubtOf(d.sup) == DoubtOf(c.sup) || d.h.resolved == c.h.resolved + {DoubtOf(c.sup).value}
    requires c.cfg.journaled ==> Prepared(d)
    ensures Journaled(d)
  {
    assert Unresolved(d.h) <= Unresolved(c.h);
  }

  predicate SameWait(c: Sys, d: Sys, o: nat)
    requires o in c.calls && o in d.calls
  {
    SamePosition(c.calls[o], d.calls[o]) && d.calls[o].waiting == c.calls[o].waiting && d.calls[o].inbox == c.calls[o].inbox
  }

  /** The call stays where it is, and so does the write it waits for. */
  lemma PreparedFrame(c: Sys, d: Sys)
    requires Prepared(c) && d.image == c.image
    requires Active(d) ==> Active(c) && d.sup.operation == c.sup.operation && SameWait(c, d, d.sup.operation.value)
    requires forall k | k in d.live && d.live[k].JournalWrite? && Active(d) && d.calls[d.sup.operation.value].waiting == Some(k) ::
      k in c.live && c.live[k] == d.live[k]
    ensures Prepared(d)
  {
  }

  lemma EvidenceDoubt(s: Sup, t: Sup)
    requires SameEvidence(s, t) && (t.operation.None? ==> s.mode != Executing || s.operation.None?)
    ensures DoubtOf(t) == DoubtOf(s)
  {
  }

  lemma BeginDoubt(c: Sys, t: Sup, o: nat, call: Call)
    requires Begins(c, t, o, call)
    ensures DoubtOf(t) == DoubtOf(c.sup)
  {
  }

  /** Latching keeps naming the same attempt. */
  lemma LatchDoubt(m: Machine, s: Sup, o: Option<nat>, change: Change, phase: Phase, cause: nat, uncertain: bool, now: Time)
    requires SupShape(m, s) && (o.Some? ==> Owns(s, o.value))
    requires s.fault.Some? ==> s.pending.None? && (s.mode == Executing ==> s.operation.Some? && OpOf(s, s.operation.value).issuedAt == 0)
    requires s.pending.Some? ==> change == s.pending.value.change
    requires s.pending.None? && s.mode == Executing && s.operation.Some? ==>
      var op := OpOf(s, s.operation.value);
      op.issuedAt != 0 ==> change == op.change && change.exec == s.exec && change.id != 0
    ensures DoubtOf(s).Some? ==> DoubtOf(Latch(m, s, o, change, phase, cause, uncertain, now).0) == DoubtOf(s)
  {
  }

  // ---------------------------------------------------- preservation

  lemma RefusedJournaled(c: Sys, r: (Sup, Admission), call: Call)
    requires c.running && Journaled(c) && Admissible(c, r, call) && r.1.Refused?
    ensures Journaled(Admitted(c, r, call))
  {
    hide Recorded, AllRestorable, Prepared;
    var d := Admitted(c, r, call);
    EvidenceDoubt(c.sup, r.0);
    if c.cfg.journaled { PreparedFrame(c, d); }
    JournaledFrame(c, d);
  }

  lemma BegunJournaled(c: Sys, t: Sup, o: nat, call: Call)
    requires c.running && Journaled(c) && Begins(c, t, o, call)
    ensures Journaled(c.(sup := t, calls := c.calls[o := call]))
  {
    hide Recorded, AllRestorable;
    BeginDoubt(c, t, o, call);
    JournaledFrame(c, c.(sup := t, calls := c.calls[o := call]));
  }

  lemma AdmittedJournaled(c: Sys, r: (Sup, Admission), call: Call)
    requires c.running && Owned(c) && Shape(c) && Journaled(c) && Admissible(c, r, call)
    ensures Journaled(Admitted(c, r, call))
  {
    hide Owned, Shape, Journaled, Begins;
    match r.1
    case Refused(_) => RefusedJournaled(c, r, call);
    case Begun(o, _) => BegunJournaled(c, r.0, o, call);
    case Exhausted(o, change, phase, uncertain) => BegunJournaled(c, r.0, o, call.(pc := FailAt(change, phase, uncertain)));
    case Expired => ExpireJournaled(c, Admitted(c, r, call));
  }

  lemma FaultStands(c: Sys)
    requires Owned(c) && Shape(c) && c.sup.fault.Some?
    ensures c.sup.pending.None?
    ensures c.sup.mode == Executing ==> c.sup.operation.Some? && OpOf(c.sup, c.sup.operation.value).issuedAt == 0
  {
    if c.sup.mode == Executing {
      StandingOf(c, c.sup.operation.value);
    }
  }

  lemma ExpireRevokes(c: Sys)
    requires c.sup.pending.Some?
    ensures var t := Expire(c.m, c.sup, c.now); t.operation.Some? ==> OpOf(t, t.operation.value).revoked
  {
    hide NewFault;
  }

  lemma ExpireDoubt(c: Sys)
    requires Owned(c) && Shape(c) && c.sup.pending.Some?
    ensures DoubtOf(Expire(c.m, c.sup, c.now)) == DoubtOf(c.sup)
  {
    hide Owned, SupShape, ExecShape, Latch;
    if c.sup.fault.Some? { FaultStands(c); }
    LatchDoubt(c.m, c.sup, None, c.sup.pending.value.change, VerifyPhase, VERIFICATION_TIMEOUT, true, c.now);
  }

  lemma ExpireJournaled(c: Sys, d: Sys)
    requires c.running && Owned(c) && Shape(c) && Journaled(c) && c.sup.pending.Some?
    requires d == AddPub(c.(sup := Expire(c.m, c.sup, c.now)), Pub(Reporting(c.sup.operation), c.sup.fault.None?, JournalDue))
    ensures Journaled(d)
  {
    hide Owned, Shape, Recorded, AllRestorable, Expire, DoubtOf;
    ExpireDoubt(c);
    ExpireRevokes(c);
    JournaledFrame(c, d);
  }

  lemma ExecutingCall(c: Sys)
    requires Owned(c) && c.sup.mode == Executing
    ensures c.sup.operation.Some? && c.sup.operation.value in c.calls && Owns(c.sup, c.sup.operation.value)
  {
  }

  /** Whatever Trip attributes its fault to is what the Supervisor is in doubt about, if it is. */
  lemma TripSubjectDoubt(c: Sys)
    requires Owned(c) && Shape(c)
    ensures c.sup.pending.Some? ==> TripSubject(c.sup).0 == c.sup.pending.value.change
    ensures c.sup.pending.None? && c.sup.mode == Executing && c.sup.operation.Some? ==>
      var op := OpOf(c.sup, c.sup.operation.value);
      op.issuedAt != 0 ==> TripSubject(c.sup).0 == op.change && op.change.exec == c.sup.exec && op.change.id != 0
  {
    hide Threads, Regime, Counted;
    RegimeSettles(c);
    if c.sup.mode == Executing { ExecutingCall(c); StandingOf(c, c.sup.operation.value); }
  }

  lemma TripDoubt(c: Sys, cause: nat)
    requires Owned(c) && Shape(c)
    ensures DoubtOf(c.sup).Some? ==> DoubtOf(Trip(c.m, c.sup, cause, c.now).0) == DoubtOf(c.sup)
  {
    hide Owned, SupShape, ExecShape, TripSubject, Latch;
    if c.sup.fault.Some? { FaultStands(c); }
    TripSubjectDoubt(c);
    var subject := TripSubject(c.sup);
    LatchDoubt(c.m, c.sup, None, subject.0, subject.1, cause, true, c.now);
  }

  lemma TripJournaled(c: Sys, cause: nat)
    requires c.running && Owned(c) && Shape(c) && Journaled(c)
    ensures Journaled(DoTrip(c, cause))
  {
    hide Threads, Regime, Counted, Shape;
    TripDoubt(c, cause);
    TripInactive(c, cause);
    JournaledFrame(c, DoTrip(c, cause));
  }

  lemma TripInactive(c: Sys, cause: nat)
    ensures !Active(DoTrip(c, cause))
  {
  }

  lemma NoCallJournaled(c: Sys, d: Sys, o: nat)
    requires c.running && Owned(c) && Journaled(c) && o in c.calls && d.calls == c.calls - {o} && d.live == c.live
    requires d.running && d.m == c.m && d.cfg == c.cfg && d.image == c.image
    requires d.h.started == c.h.started && c.h.resolved <= d.h.resolved
    requires DoubtOf(c.sup).Some? ==> DoubtOf(d.sup) == DoubtOf(c.sup) || d.h.resolved == c.h.resolved + {DoubtOf(c.sup).value}
    ensures Journaled(d)
  {
    hide Threads, Regime, Counted;
    OnlyCall(c, o);
    JournaledFrame(c, d);
  }

  lemma AwaitJournaled(c: Sys, o: nat)
    requires c.running && Owned(c) && Shape(c) && Journaled(c) && At(c, o) && c.calls[o].pc.AwaitAt? && c.calls[o].kind.IssueCall?
    ensures Journaled(DoAwait(c, o))
  {
    hide Threads, Regime, Counted, Journaled;
    StandingOf(c, o);
    NoCallJournaled(c, DoAwait(c, o), o);
  }

  lemma LatchCallDoubt(c: Sys, o: nat, change: Change, phase: Phase, cause: nat, uncertain: bool)
    requires o in c.calls && Standing(c, o) && Shape(c) && Faithful(c.m, c.calls[o])
    requires c.calls[o].pc.CommitAt? || c.calls[o].pc.FailAt?
    requires change == if c.calls[o].pc.FailAt? then c.calls[o].pc.change else c.calls[o].change
    ensures DoubtOf(c.sup).Some? ==> DoubtOf(Latch(c.m, c.sup, Some(o), change, phase, cause, uncertain, c.now).0) == DoubtOf(c.sup)
  {
    if Owns(c.sup, o) {
      LatchDoubt(c.m, c.sup, Some(o), change, phase, cause, uncertain, c.now);
    }
  }

  lemma LatchCallJournaled(c: Sys, o: nat, cause: nat)
    requires c.running && Owned(c) && Shape(c) && Journaled(c) && At(c, o) && c.calls[o].pc.FailAt? && Faithful(c.m, c.calls[o])
    ensures Journaled(DoLatch(c, o, cause))
  {
    hide Threads, Regime, Counted, Journaled, Shape;
    StandingOf(c, o);
    var pc := c.calls[o].pc;
    LatchCallDoubt(c, o, pc.change, pc.phase, cause, pc.uncertain);
    NoCallJournaled(c, DoLatch(c, o, cause), o);
  }

  lemma CommitJournaled(c: Sys, o: nat)
    requires c.running && Owned(c) && Shape(c) && Journaled(c) && At(c, o) && c.calls[o].pc.CommitAt? && Faithful(c.m, c.calls[o])
    ensures Journaled(DoCommit(c, o))
  {
    hide Threads, Regime, Counted, Journaled;
    StandingOf(c, o);
    var call := c.calls[o];
    LatchCallDoubt(c, o, call.change, CommitPhase, COUNTER_EXHAUSTED, call.kind.VerifyCall?);
    NoCallJournaled(c, DoCommit(c, o), o);
  }

  lemma FinishJournaled(c: Sys, o: nat)
    requires c.running && Owned(c) && Shape(c) && Journaled(c) && At(c, o) && c.calls[o].pc.FinishAt?
    requires c.calls[o].kind.StartCall? || c.calls[o].kind.IssueCall?
    ensures Journaled(DoFinish(c, o))
  {
    hide Threads, Regime, Counted, Journaled;
    StandingOf(c, o);
    NoCallJournaled(c, DoFinish(c, o), o);
  }

  lemma ResolveJournaled(c: Sys, o: nat)
    requires c.running && Owned(c) && Shape(c) && Journaled(c) && At(c, o) && c.calls[o].pc.ResolveAt? && c.calls[o].kind.AdjudicateCall?
    ensures Journaled(DoResolve(c, o))
  {
    hide Threads, Regime, Counted, Journaled;
    StandingOf(c, o);
    NoCallJournaled(c, DoResolve(c, o), o);
  }

  lemma RestoreFaultJournaled(c: Sys, o: nat)
    requires c.running && Owned(c) && Shape(c) && Journaled(c) && At(c, o) && c.calls[o].kind.AdjudicateCall?
    ensures Journaled(DoRestoreFault(c, o))
  {
    hide Threads, Regime, Counted, Journaled;
    StandingOf(c, o);
    NoCallJournaled(c, DoRestoreFault(c, o), o);
  }

  /** An issuing operation is past every Journal write. */
  lemma NoWritesWhileIssuing(c: Sys, o: nat)
    requires Owned(c) && o in c.calls && Owns(c.sup, o) && c.sup.mode == Executing
    requires !Terminal(c.calls[o].pc) && (!c.calls[o].pc.DeliverAt? || c.calls[o].inbox.Some? || c.calls[o].waiting.None?)
    ensures forall k | k in c.live :: !c.live[k].JournalWrite?
  {
    assert CallOwned(c, o);
    forall k | k in c.live ensures !c.live[k].JournalWrite? {
      assert LiveOwned(c, k);
    }
  }

  /** The attempt that starts is the one the image, and the Supervisor itself, are in doubt about. */
  lemma IssueJournaled(c: Sys, o: nat)
    requires c.running && Owned(c) && Shape(c) && Journaled(c) && At(c, o) && c.calls[o].pc.IssueAt? && Faithful(c.m, c.calls[o])
    requires Standing(c, o) && InvokeBegin(c.sup, o, ChangeAt(c.m, c.calls[o]), PhaseAt(c.calls[o])).1
    ensures Journaled(DoInvoke(c, o))
  {
    hide OnFail, Regime, Counted, Threads;
    NoWritesWhileIssuing(c, o);
    hide Owned;
    assert DoubtOf(DoInvoke(c, o).sup) == Some(c.calls[o].change.Identifier());
  }

  /** Write-ahead: the callback that reaches the controller starts with its attempt on record. */
  lemma InvokeJournaled(c: Sys, o: nat)
    requires c.running && Owned(c) && Shape(c) && Journaled(c) && At(c, o) && Invokable(c.calls[o].pc) && Faithful(c.m, c.calls[o])
    ensures Journaled(DoInvoke(c, o))
  {
    hide Owned, OnFail;
    StandingOf(c, o);
    var call, d := c.calls[o], DoInvoke(c, o);
    if InvokeBegin(c.sup, o, ChangeAt(c.m, call), PhaseAt(call)).1 {
      if call.pc.IssueAt? {
        IssueJournaled(c, o);
      } else {
        JournaledFrame(c, d);
      }
    } else {
      FailShape(c.m, call, false);
      JournaledFrame(c, d);
    }
  }

  /** The call of `o` moves on without having reached a controller in this step. */
  lemma MoveJournaled(c: Sys, o: nat, call: Call, d: Sys)
    requires c.running && Owned(c) && Journaled(c) && o in c.calls
    requires d.sup == c.sup && d.calls == c.calls[o := call] && d.live == c.live && d.image == c.image
    requires d.running && d.m == c.m && d.cfg == c.cfg && d.h.started == c.h.started && d.h.resolved == c.h.resolved
    requires !call.pc.DeliverAt? && call.kind == c.calls[o].kind
    requires call.pc.IssueAt? ==> c.calls[o].pc.DeliverAt? && call.change == c.calls[o].change && c.calls[o].inbox == Some(Passed)
    ensures Journaled(d)
  {
    assert c.sup.operation == Some(o) by { CallsAtOperation(c); }
    JournaledFrame(c, d);
  }

  lemma ConsumeJournaled(c: Sys, o: nat, call: Call, d: Sys)
    requires c.running && Owned(c) && Journaled(c) && o in c.calls && c.calls[o].inbox.Some?
    requires (Invokable(c.calls[o].pc) && (call == OnPass(c.m, c.calls[o]) || call == OnFail(c.m, c.calls[o], true) || call == OnFail(c.m, c.calls[o], false)))
      || (c.calls[o].pc.DeliverAt? && call == if c.calls[o].inbox == Some(Passed) then OnPass(c.m, c.calls[o]) else OnFail(c.m, c.calls[o], false))
    requires d.sup == c.sup && d.calls == c.calls[o := call] && d.live == c.live && d.image == c.image
    requires d.running && d.m == c.m && d.cfg == c.cfg && d.h.started == c.h.started && d.h.resolved == c.h.resolved
    ensures Journaled(d)
  {
    hide Threads, Regime, Counted, Journaled, OnPass, OnFail;
    PassShape(c.m, c.calls[o]);
    FailShape(c.m, c.calls[o], true);
    FailShape(c.m, c.calls[o], false);
    MoveJournaled(c, o, call, d);
  }

  /** A call that fails, or finds its context cancelled. */
  lemma StopJournaled(c: Sys, o: nat, call: Call, d: Sys)
    requires c.running && Owned(c) && Journaled(c) && o in c.calls
    requires ((Invokable(c.calls[o].pc) || c.calls[o].pc.DeliverAt? || c.calls[o].pc.PrepareAt?) && call == OnFail(c.m, c.calls[o], false))
      || ((c.calls[o].pc.AwaitAt? || c.calls[o].pc.CommitAt? || c.calls[o].pc.FinishAt? || c.calls[o].pc.ResolveAt?) && call == OnContextFailure(c.calls[o]))
    requires d.sup == c.sup && d.calls == c.calls[o := call] && d.live == c.live && d.image == c.image
    requires d.running && d.m == c.m && d.cfg == c.cfg && d.h.started == c.h.started && d.h.resolved == c.h.resolved
    ensures Journaled(d)
  {
    hide Threads, Regime, Counted, Journaled, OnFail;
    if call == OnFail(c.m, c.calls[o], false) && (Invokable(c.calls[o].pc) || c.calls[o].pc.DeliverAt? || c.calls[o].pc.PrepareAt?) {
      FailShape(c.m, c.calls[o], false);
    }
    MoveJournaled(c, o, call, d);
  }

  lemma GiveUpJournaled(c: Sys, o: nat)
    requires c.running && Owned(c) && Journaled(c) && o in c.calls && Invokable(c.calls[o].pc)
    ensures Journaled(DoGiveUp(c, o))
  {
    hide Threads, Regime, Counted, OnFail;
    FailShape(c.m, c.calls[o], false);
    assert c.sup.operation == Some(o) by { CallsAtOperation(c); }
    EvidenceDoubt(c.sup, Abandon(c.sup, o));
    JournaledFrame(c, DoGiveUp(c, o));
  }

  lemma PrepareJournaled(c: Sys, o: nat)
    requires c.running && Owned(c) && Shape(c) && Journaled(c) && At(c, o) && c.calls[o].pc.PrepareAt? && Faithful(c.m, c.calls[o])
    ensures Journaled(DoPrepare(c, o))
  {
    hide Threads, Regime, Counted, OnPass, OnFail;
    StandingOf(c, o);
    var call, d := c.calls[o], DoPrepare(c, o);
    if PrepareBegin(c.sup, o, call.change, c.now).1 {
      assert DoubtOf(c.sup).None?;
      JournaledFrame(c, d);
    } else {
      StopJournaled(c, o, OnFail(c.m, call, false), d);
    }
  }

  lemma PrepareAcquireJournaled(c: Sys, o: nat)
    requires c.running && Owned(c) && Journaled(c) && At(c, o) && c.calls[o].pc.DeliverAt?
    ensures Journaled(DoPrepareAcquire(c, o))
  {
    hide Threads, Regime, Counted, OnFail;
    assert c.sup.operation == Some(o) by { CallsAtOperation(c); }
    var d := DoPrepareAcquire(c, o);
    if Acquire(c.sup, Journal, Some(o)).1 {
      EvidenceDoubt(c.sup, d.sup);
      JournaledFrame(c, d);
    } else {
      StopJournaled(c, o, OnFail(c.m, c.calls[o], false), d);
    }
  }

  /** A captured snapshot names whatever is unresolved, and can be restored. */
  lemma CaptureJournaled(c: Sys, k: nat)
    requires c.running && Owned(c) && Shape(c) && Journaled(c) && k in c.live && c.live[k].JournalWrite?
    requires c.live[k].snap.None?
    requires c.live[k].preparing ==> c.live[k].owner.Some? && Owns(c.sup, c.live[k].owner.value) && c.sup.mode == Executing
    ensures Journaled(DoCapture(c, k))
  {
    var d := DoCapture(c, k);
    var snap := SnapshotOf(c.m, c.sup, c.now);
    SnapshotRestorable(c, c.now);
    forall a | a in Unresolved(c.h) && c.cfg.journaled ensures Names(Some(snap), a) {
      SnapshotNamesDoubt(c.m, c.sup, c.now, a);
    }
    if Active(d) && d.calls[d.sup.operation.value].waiting == Some(k) && d.calls[d.sup.operation.value].pc.DeliverAt? {
      StandingOf(c, d.sup.operation.value);
      var call := d.calls[d.sup.operation.value];
      if call.kind.IssueCall? {
        SnapshotNamesDoubt(c.m, c.sup, c.now, call.change.Identifier());
      }
    }
  }

  lemma SaveJournaled(c: Sys, k: nat)
    requires c.running && Owned(c) && Journaled(c) && k in c.live && c.live[k].JournalWrite? && c.live[k].snap.Some?
    ensures Journaled(DoSave(c, k))
  {
    hide Regime, Counted;
    var d := DoSave(c, k);
    if Active(c) && c.calls[c.sup.operation.value].kind.IssueCall? {
      var o := c.sup.operation.value;
      StandingOf(c, o);
      assert CallOwned(c, o);
      assert LiveOwned(c, k);
    }
  }

  lemma JournalFinishPrepared(c: Sys, k: nat, ok: bool)
    requires c.running && Owned(c) && Journaled(c) && k in c.live && c.live[k].JournalWrite? && (ok ==> c.live[k].saved)
    ensures c.cfg.journaled ==> Prepared(DoJournalFinish(c, k, ok))
  {
    hide Regime, Counted, Recorded, AllRestorable, Release;
    EndEvidence(c, k, DoJournalFinish(c, k, ok));
  }

  /** A write that ends well was saved: its call finds its attempt in the image. */
  lemma JournalFinishJournaled(c: Sys, k: nat, ok: bool)
    requires c.running && Owned(c) && Journaled(c) && k in c.live && c.live[k].JournalWrite? && (ok ==> c.live[k].saved)
    ensures Journaled(DoJournalFinish(c, k, ok))
  {
    hide Owned, Recorded, AllRestorable, Release, DoubtOf, SameEvidence;
    var d := DoJournalFinish(c, k, ok);
    EndEvidence(c, k, d);
    JournalFinishPrepared(c, k, ok);
    JournaledFrame(c, d);
  }

  lemma EndEvidence(c: Sys, k: nat, d: Sys)
    requires Owned(c) && k in c.live && d.sup == Release(c.sup, Journal, OwnerOf(c.live[k]))
    ensures SameEvidence(c.sup, d.sup) && DoubtOf(d.sup) == DoubtOf(c.sup)
  {
  }
}
