/**
 * In-doubt evidence: what the pending change, the issuing operation and the
 * latched fault say about external work, and that every snapshot of it can be
 * restored.
 */
module SupervisorDoubt {
  import opened Basics
  import opened SupervisorTypes
  import opened SupervisorSpec
  import opened SupervisorSystem
  import opened SupervisorTrace
  import opened SupervisorOwnership

  /** `change` is an external change accepted at the current state and revision of this execution. */
  ghost predicate Doubtful(m: Machine, s: Sup, change: Change) {
    && change.exec == s.exec && change.inc != 0 && 0 < change.id <= s.attempt
    && change.revision == s.revision && change.from == s.state && m.Declares(change)
  }

  /** A fault that claims issued work repeats one doubtful change in all its fields. */
  ghost predicate FaultShape(m: Machine, s: Sup, f: Fault) {
    && f.exec == s.exec
    && (f.issuedAt != 0 ==>
          && Doubtful(m, s, f.change) && f.inc == f.change.inc && f.attempt == f.change.id && f.state == f.change.from
          && f.event == f.change.event && f.transition == f.change.transition && f.to == f.change.to)
  }

  /** The live operation and its call agree about issued work. */
  ghost predicate ExecShape(m: Machine, s: Sup, call: Call, op: Op) {
    match call.kind
    case StartCall => op.issuedAt == 0
    case AdjudicateCall(_, _, _, _) => op.issuedAt == 0
    case VerifyCall => op.issuedAt == 0 && op.change == call.change
    case IssueCall =>
      && (!call.pc.FailAt? ==> Current(s, call.attempt))
      && (Reaching(call.pc) ==> op.issuedAt != 0 && op.change == call.change)
      && (op.issuedAt != 0 ==> Doubtful(m, s, op.change) && (Reaching(call.pc) || (call.pc.FailAt? && call.pc.change == op.change)))
  }

  ghost predicate SupShape(m: Machine, s: Sup) {
    && s.state in m.states && s.exec != 0 && s.inc != 0
    && (s.pending.Some? ==> Doubtful(m, s, s.pending.value.change) && s.pending.value.issuedAt != 0)
    && (s.fault.Some? ==> FaultShape(m, s, s.fault.value))
    && (s.operation.Some? && OpOf(s, s.operation.value).issuedAt != 0 ==>
          && (s.mode == Executing || s.mode == AwaitingVerification || s.mode == Faulted)
          && (s.pending.Some? ==> OpOf(s, s.operation.value).change == s.pending.value.change))
  }

  ghost predicate Shape(c: Sys) {
    && c.m.Valid() && c.now > 0 && SupShape(c.m, c.sup)
    && (Active(c) ==> ExecShape(c.m, c.sup, c.calls[c.sup.operation.value], OpOf(c.sup, c.sup.operation.value)))
  }

  // ------------------------------------------------------- restorability

  /** A snapshot the restoration validator accepts, its ceilings aside, with a usable issue time. */
  ghost predicate Restorable(m: Machine, snap: Snapshot) {
    && (Validate(m, snap).None? || (CeilingsReached(snap) && Validate(m, snap) == Some(Error.CounterExhausted)))
    && snap.inDoubt == snap.pending.Some?
    && (snap.pending.Some? ==> PendingConsistent(m, snap, snap.pending.value) && snap.pending.value.issuedAt != 0)
  }

  lemma DeclaredMatches(m: Machine, change: Change, p: PendingSnapshot)
    requires m.Declares(change) && p.from == change.from && p.event == change.event
    requires p.transition == change.transition && p.to == change.to
    ensures MatchesRow(m, p)
  {
    var rows := m.RowsFor(change.from, change.event);
    var i :| 0 <= i < |rows| && rows[i].id == change.transition && rows[i].to == change.to && rows[i].external;
  }

  /** Every snapshot taken in a well-shaped state passes restoration. */
  lemma SnapshotRestorable(c: Sys, now: Time)
    requires Shape(c) && (c.sup.mode == Executing ==> Active(c))
    ensures Restorable(c.m, SnapshotOf(c.m, c.sup, now))
  {
    var s := c.sup;
    if s.pending.Some? {
      var change := s.pending.value.change;
      DeclaredMatches(c.m, change, PendingOf(change, s.pending.value.issuedAt, s.pending.value.deadline));
    }
    if s.fault.Some? && s.fault.value.issuedAt != 0 {
      DeclaredMatches(c.m, s.fault.value.change, FaultPending(s.fault.value));
    }
    if s.operation.Some? && s.mode == Executing && OpOf(s, s.operation.value).issuedAt != 0 {
      var op := OpOf(s, s.operation.value);
      DeclaredMatches(c.m, op.change, PendingOf(op.change, op.issuedAt, 0));
    }
  }

  // -------------------------------------------------- round trips

  /**
   * Restoring a snapshot and taking the next one keeps the state, every
   * high-water mark and, if and only if the original issue time is set, the
   * exact in-doubt evidence.
   */
  lemma RestoreRoundTrip(m: Machine, snap: Snapshot, inc: Id, now: Time)
    requires Restore(m, snap, inc).Restored?
    ensures var again := SnapshotOf(m, Restore(m, snap, inc).sup, now);
      && again.exec == snap.exec && again.inc == inc && again.restarts == snap.restarts + 1 && again.recordedAt == now
      && again.state == snap.state && again.revision == snap.revision && again.attempt == snap.attempt
      && again.records == snap.records && again.faulted == (snap.faulted || snap.inDoubt)
      && (snap.pending.Some? ==> ((again.pending == snap.pending) <==> snap.pending.value.issuedAt != 0))
      && (snap.pending.None? ==> again.pending.None?)
  {
  }

  /** A second restoration changes nothing but the incarnation, the restart count and the time. */
  lemma RestoreStable(m: Machine, snap: Snapshot, inc1: Id, inc2: Id, now1: Time, now2: Time)
    requires Restore(m, snap, inc1).Restored?
    requires snap.pending.Some? ==> snap.pending.value.issuedAt != 0
    requires var first := SnapshotOf(m, Restore(m, snap, inc1).sup, now1); Restore(m, first, inc2).Restored?
    ensures var first := SnapshotOf(m, Restore(m, snap, inc1).sup, now1);
      var second := SnapshotOf(m, Restore(m, first, inc2).sup, now2);
      second == first.(inc := inc2, restarts := first.restarts + 1, recordedAt := now2)
  {
  }

  // ---------------------------------------------------- preservation

  /** `t` holds the same evidence as `s`; the operation may have been released. */
  ghost predicate SameEvidence(s: Sup, t: Sup) {
    && t.state == s.state && t.exec == s.exec && t.inc == s.inc && t.revision == s.revision && t.attempt == s.attempt
    && t.pending == s.pending && t.fault == s.fault && t.mode == s.mode
    && (t.operation == s.operation || t.operation.None?)
    && (t.operation.Some? ==>
          && OpOf(t, t.operation.value).change == OpOf(s, t.operation.value).change
          && OpOf(t, t.operation.value).issuedAt == OpOf(s, t.operation.value).issuedAt
          && OpOf(t, t.operation.value).revoked == OpOf(s, t.operation.value).revoked)
  }

  predicate SamePosition(c: Call, d: Call) {
    d.pc == c.pc && d.kind == c.kind && d.change == c.change && d.attempt == c.attempt
  }

  lemma EvidenceShape(c: Sys, d: Sys)
    requires Shape(c) && SameEvidence(c.sup, d.sup) && d.m == c.m && d.now > 0
    requires Active(d) ==> Active(c) && SamePosition(c.calls[d.sup.operation.value], d.calls[d.sup.operation.value])
    ensures Shape(d)
  {
  }

  /** A call that moves keeps agreeing with its operation. */
  lemma MoveShape(m: Machine, s: Sup, c: Call, d: Call, op: Op)
    requires ExecShape(m, s, c, op) && d.kind == c.kind && d.attempt == c.attempt
    requires c.kind.VerifyCall? ==> d.change == c.change
    requires c.kind.IssueCall? ==> !c.pc.FailAt?
    requires c.kind.IssueCall? && !Reaching(c.pc) ==> !Reaching(d.pc)
    requires c.kind.IssueCall? && Reaching(c.pc) ==>
      (Reaching(d.pc) && d.change == c.change) || (d.pc.FailAt? && d.pc.change == c.change)
    ensures ExecShape(m, s, d, op)
  {
  }

  lemma PassExecShape(m: Machine, s: Sup, c: Call, op: Op)
    requires ExecShape(m, s, c, op) && Faithful(m, c) && (Invokable(c.pc) || c.pc.DeliverAt?)
    ensures ExecShape(m, s, OnPass(m, c), op)
  {
    hide OnPass;
    PassShape(m, c);
    MoveShape(m, s, c, OnPass(m, c), op);
  }

  lemma FailExecShape(m: Machine, s: Sup, c: Call, op: Op, completed: bool)
    requires ExecShape(m, s, c, op) && Faithful(m, c) && (Invokable(c.pc) || c.pc.DeliverAt? || c.pc.PrepareAt?)
    ensures ExecShape(m, s, OnFail(m, c, completed), op)
  {
    hide OnFail;
    FailShape(m, c, completed);
    MoveShape(m, s, c, OnFail(m, c, completed), op);
  }

  lemma ContextExecShape(m: Machine, s: Sup, c: Call, op: Op)
    requires ExecShape(m, s, c, op) && Faithful(m, c) && (c.pc.AwaitAt? || c.pc.CommitAt? || c.pc.FinishAt? || c.pc.ResolveAt?)
    ensures ExecShape(m, s, OnContextFailure(c), op)
  {
    MoveShape(m, s, c, OnContextFailure(c), op);
  }

  lemma BeginShape(c: Sys, t: Sup, o: nat, call: Call)
    requires Shape(c) && Begins(c, t, o, call)
    ensures Shape(c.(sup := t, calls := c.calls[o := call]))
  {
  }

  lemma AdmittedShape(c: Sys, r: (Sup, Admission), call: Call)
    requires Owned(c) && Shape(c) && Admissible(c, r, call)
    ensures Shape(Admitted(c, r, call))
  {
    hide Threads, Regime, Counted;
    match r.1
    case Refused(_) => EvidenceShape(c, Admitted(c, r, call));
    case Begun(o, _) => BeginShape(c, r.0, o, call);
    case Exhausted(o, change, phase, uncertain) => BeginShape(c, r.0, o, call.(pc := FailAt(change, phase, uncertain)));
    case Expired => ExpireShape(c, Admitted(c, r, call));
  }

  /** What is known of the subject of a fault about to be latched. */
  ghost predicate Attributable(m: Machine, s: Sup, change: Change) {
    && (s.pending.Some? && s.pending.value.change.Identifier() == change.Identifier() ==> change == s.pending.value.change)
    && (s.fault.None? && s.pending.None? && s.operation.Some? ==>
          var op := OpOf(s, s.operation.value);
          op.issuedAt != 0 && op.change.Identifier() == change.Identifier() ==> Doubtful(m, s, change))
  }

  /** A fault latched for the pending, issuing or current change repeats its evidence. */
  lemma LatchShape(m: Machine, s: Sup, o: Option<nat>, change: Change, phase: Phase, cause: nat, uncertain: bool, now: Time)
    requires SupShape(m, s) && Attributable(m, s, change) && (o.Some? ==> Owns(s, o.value))
    ensures SupShape(m, Latch(m, s, o, change, phase, cause, uncertain, now).0)
  {
    var f := NewFault(s, change, phase, cause, uncertain, now);
    if s.fault.None? && f.issuedAt != 0 {
      if s.pending.Some? && s.pending.value.change.Identifier() == change.Identifier() {
        assert Doubtful(m, s, change);
      } else {
        assert s.pending.None? && Doubtful(m, s, change);
      }
    }
  }

  lemma ExpireShape(c: Sys, d: Sys)
    requires Owned(c) && Shape(c) && c.sup.pending.Some?
    requires d == AddPub(c.(sup := Expire(c.m, c.sup, c.now)), Pub(Reporting(c.sup.operation), c.sup.fault.None?, JournalDue))
    ensures Shape(d)
  {
    hide Threads, Regime, Counted;
    LatchShape(c.m, c.sup, None, c.sup.pending.value.change, VerifyPhase, VERIFICATION_TIMEOUT, true, c.now);
    StampShape(c.m, Latch(c.m, c.sup, None, c.sup.pending.value.change, VerifyPhase, VERIFICATION_TIMEOUT, true, c.now).0);
  }

  lemma StampShape(m: Machine, s: Sup)
    requires SupShape(m, s)
    ensures SupShape(m, Stamp(s))
  {
  }

  /** What Trip reports is what the Supervisor is doing. */
  lemma TripAttributable(c: Sys)
    requires Owned(c) && Shape(c)
    ensures Attributable(c.m, c.sup, TripSubject(c.sup).0)
  {
    if c.sup.mode == Executing {
      StandingOf(c, c.sup.operation.value);
    }
  }

  lemma TripShape(c: Sys, cause: nat)
    requires Owned(c) && Shape(c)
    ensures Shape(DoTrip(c, cause))
  {
    hide Owned, SupShape, Trip;
    TripSupShape(c, cause);
    TripRevokes(c.m, c.sup, cause, c.now);
  }

  /** Trip revokes whoever owns the Supervisor. */
  lemma TripRevokes(m: Machine, s: Sup, cause: nat, now: Time)
    ensures var t := Trip(m, s, cause, now).0;
      t.operation == s.operation && (t.operation.Some? ==> OpOf(t, t.operation.value).revoked)
  {
  }

  lemma TripSupShape(c: Sys, cause: nat)
    requires Owned(c) && Shape(c)
    ensures SupShape(c.m, Trip(c.m, c.sup, cause, c.now).0)
  {
    hide Owned, SupShape, Attributable, TripSubject;
    var subject := TripSubject(c.sup);
    TripAttributable(c);
    LatchShape(c.m, c.sup, None, subject.0, subject.1, cause, true, c.now);
    hide Latch;
    var latched := Latch(c.m, c.sup, None, subject.0, subject.1, cause, true, c.now).0;
    StampShape(c.m, latched);
    ReportingShape(c.m, Stamp(latched));
  }

  lemma ReportingShape(m: Machine, s: Sup)
    requires SupShape(m, s)
    ensures SupShape(m, s.(reporting := s.reporting + 1))
  {
  }

  lemma FailAttributable(c: Sys, o: nat)
    requires o in c.calls && Standing(c, o) && Shape(c) && Owns(c.sup, o) && Faithful(c.m, c.calls[o])
    requires c.calls[o].pc.FailAt? || c.calls[o].pc.CommitAt?
    ensures Attributable(c.m, c.sup, if c.calls[o].pc.FailAt? then c.calls[o].pc.change else c.calls[o].change)
  {
  }

  lemma LatchCallShape(c: Sys, o: nat, cause: nat)
    requires Owned(c) && Shape(c) && At(c, o) && c.calls[o].pc.FailAt? && Faithful(c.m, c.calls[o])
    ensures Shape(DoLatch(c, o, cause))
  {
    hide Threads, Regime, Counted;
    StandingOf(c, o);
    OnlyCall(c, o);
    var pc := c.calls[o].pc;
    if Owns(c.sup, o) {
      FailAttributable(c, o);
      LatchShape(c.m, c.sup, Some(o), pc.change, pc.phase, cause, pc.uncertain, c.now);
    }
    StampShape(c.m, Latch(c.m, c.sup, Some(o), pc.change, pc.phase, cause, pc.uncertain, c.now).0);
  }

  /** A decision that does not latch: only the Supervisor's own fields matter. */
  lemma DecideShape(c: Sys, o: nat, d: Sys)
    requires Owned(c) && Shape(c) && At(c, o) && SupShape(c.m, d.sup) && d.m == c.m && d.now == c.now
    requires d.calls == c.calls - {o}
    ensures Shape(d)
  {
    hide Threads, Regime, Counted;
    OnlyCall(c, o);
  }

  lemma AwaitShape(c: Sys, o: nat)
    requires Owned(c) && Shape(c) && At(c, o) && c.calls[o].pc.AwaitAt? && c.calls[o].kind.IssueCall?
    ensures Shape(DoAwait(c, o))
  {
    hide Threads, Regime, Counted;
    StandingOf(c, o);
    DecideShape(c, o, DoAwait(c, o));
  }

  /** What a call commits is a declared state. */
  lemma CommittedTarget(c: Sys, o: nat)
    requires c.m.Valid() && o in c.calls && c.calls[o].pc.CommitAt? && Faithful(c.m, c.calls[o])
    ensures c.calls[o].change.to in c.m.states && !c.calls[o].kind.AdjudicateCall? && !c.calls[o].kind.StartCall?
  {
    var call := c.calls[o];
    assert c.m.rows[Key(call.attempt.from, call.attempt.event)][call.pick] == call.row;
  }

  lemma CommitSupShape(c: Sys, o: nat, issued: bool)
    requires Shape(c) && o in c.calls && Standing(c, o) && c.calls[o].pc.CommitAt? && Faithful(c.m, c.calls[o])
    ensures SupShape(c.m, Commit(c.m, c.sup, o, c.calls[o].change, issued, c.now).0)
  {
    hide FaultShape, Latch, Faithful, Stamp;
    var s, call := c.sup, c.calls[o];
    if !Owns(s, o) || s.mode != Executing {
      StampShape(c.m, s);
    } else if s.revision == MAX_UINT64 {
      FailAttributable(c, o);
      LatchShape(c.m, s, Some(o), call.change, CommitPhase, COUNTER_EXHAUSTED, issued, c.now);
      StampShape(c.m, Latch(c.m, s, Some(o), call.change, CommitPhase, COUNTER_EXHAUSTED, issued, c.now).0);
    } else {
      CommittedTarget(c, o);
      StampShape(c.m, s.(state := call.change.to, revision := Inc64(s.revision), pending := None, mode := Ready));
    }
  }

  lemma CommitShape(c: Sys, o: nat)
    requires Owned(c) && Shape(c) && At(c, o) && c.calls[o].pc.CommitAt? && Faithful(c.m, c.calls[o])
    ensures Shape(DoCommit(c, o))
  {
    hide Threads, Regime, Counted;
    StandingOf(c, o);
    CommitSupShape(c, o, c.calls[o].kind.VerifyCall?);
    DecideShape(c, o, DoCommit(c, o));
  }

  lemma FinishShape(c: Sys, o: nat)
    requires Owned(c) && Shape(c) && At(c, o) && c.calls[o].pc.FinishAt?
    requires c.calls[o].kind.StartCall? || c.calls[o].kind.IssueCall?
    ensures Shape(DoFinish(c, o))
  {
    hide Threads, Regime, Counted;
    StandingOf(c, o);
    DecideShape(c, o, DoFinish(c, o));
  }

  lemma ResolvedShape(c: Sys, o: nat)
    requires o in c.calls && Standing(c, o) && Shape(c) && c.calls[o].kind.AdjudicateCall? && c.calls[o].kind.target in c.m.states
    ensures var k := c.calls[o].kind; SupShape(c.m, Resolve(c.sup, o, k.original, k.decision, k.target).0)
  {
    hide FaultShape, Stamp;
    var s, k := c.sup, c.calls[o].kind;
    if !Owns(s, o) || s.mode != Executing || s.fault != Some(k.original) {
      StampShape(c.m, s);
    } else {
      var moved := if k.decision.Retain? then s else s.(state := k.target, revision := Inc64(s.revision));
      StampShape(c.m, moved.(fault := None, mode := Ready));
    }
  }

  lemma ResolveShape(c: Sys, o: nat)
    requires Owned(c) && Shape(c) && At(c, o) && c.calls[o].pc.ResolveAt? && c.calls[o].kind.AdjudicateCall?
    requires c.calls[o].kind.target in c.m.states
    ensures Shape(DoResolve(c, o))
  {
    hide Owned, Shape, Standing, SupShape, Resolve;
    StandingOf(c, o);
    ResolvedShape(c, o);
    DecideShape(c, o, DoResolve(c, o));
  }

  lemma RestoreFaultShape(c: Sys, o: nat)
    requires Owned(c) && Shape(c) && At(c, o) && c.calls[o].kind.AdjudicateCall?
    ensures Shape(DoRestoreFault(c, o))
  {
    hide Threads, Regime, Counted;
    StandingOf(c, o);
    DecideShape(c, o, DoRestoreFault(c, o));
  }

  /** Durable preparation makes the selected change doubtful. */
  lemma PrepareShape(c: Sys, o: nat)
    requires Owned(c) && Shape(c) && At(c, o) && c.calls[o].pc.PrepareAt? && Faithful(c.m, c.calls[o])
    ensures Shape(DoPrepare(c, o))
  {
    hide Owned, Shape, Standing, OnPass, OnFail, PrepareBegin, Faithful;
    StandingOf(c, o);
    var call := c.calls[o];
    IssuerPrepares(c.m, call);
    if PrepareBegin(c.sup, o, call.change, c.now).1 {
      PassShape(c.m, call.(pc := DeliverAt));
      PreparedShape(c, o, if c.cfg.journaled then call.(pc := DeliverAt, inbox := None) else OnPass(c.m, call.(pc := DeliverAt)));
    } else {
      NotPrepared(c.sup, o, call.change, c.now);
      UnpreparedShape(c, o);
    }
  }

  lemma PreparedShape(c: Sys, o: nat, call: Call)
    requires o in c.calls && Standing(c, o) && Shape(c) && c.calls[o].pc.PrepareAt? && Faithful(c.m, c.calls[o])
    requires PrepareBegin(c.sup, o, c.calls[o].change, c.now).1
    requires Reaching(call.pc) && call.kind == c.calls[o].kind && call.attempt == c.calls[o].attempt && call.change == c.calls[o].change
    ensures Shape(c.(sup := PrepareBegin(c.sup, o, c.calls[o].change, c.now).0, calls := c.calls[o := call]))
  {
    PreparedSupShape(c, o);
    hide SupShape, Doubtful, Faithful, PrepareBegin;
  }

  lemma UnpreparedShape(c: Sys, o: nat)
    requires o in c.calls && Standing(c, o) && Shape(c) && c.calls[o].pc.PrepareAt? && c.calls[o].kind.IssueCall?
    requires !Owns(c.sup, o) || c.sup.mode != Executing
    ensures Shape(c.(calls := c.calls[o := OnFail(c.m, c.calls[o], false)]))
  {
    hide SupShape, OnFail;
  }

  lemma NotPrepared(s: Sup, o: nat, change: Change, now: Time)
    requires !PrepareBegin(s, o, change, now).1
    ensures PrepareBegin(s, o, change, now).0 == s && (!Owns(s, o) || s.mode != Executing)
  {
  }

  lemma IssuerPrepares(m: Machine, call: Call)
    requires Faithful(m, call) && call.pc.PrepareAt?
    ensures call.kind.IssueCall?
  {
  }

  lemma PreparedSupShape(c: Sys, o: nat)
    requires o in c.calls && Standing(c, o) && Shape(c) && c.calls[o].pc.PrepareAt? && Faithful(c.m, c.calls[o])
    requires PrepareBegin(c.sup, o, c.calls[o].change, c.now).1
    ensures var t := PrepareBegin(c.sup, o, c.calls[o].change, c.now).0;
      && SupShape(c.m, t) && c.calls[o].kind.IssueCall? && Current(t, c.calls[o].attempt)
      && t == c.sup.(ops := t.ops) && o in t.ops && t.ops[o].issuedAt != 0 && t.ops[o].change == c.calls[o].change
      && Doubtful(c.m, t, c.calls[o].change)
  {
    var call := c.calls[o];
    assert c.m.RowsFor(call.change.from, call.change.event)[call.pick] == call.row;
    assert c.m.Declares(call.change);
  }
}
