/**
 * What the steps of callbacks, publications and signals leave alone: they move
 * counters, gates and the record sequence, never the decision state.
 */
module SupervisorFrames {
  import opened Basics
  import opened SupervisorTypes
  import opened SupervisorSpec
  import opened SupervisorSystem
  import opened SupervisorOwnership
  import opened SupervisorDoubt

  /** Calls differ only in what they wait for. */
  predicate SameWork(c: Call, d: Call) {
    d == c.(waiting := d.waiting, inbox := d.inbox, cancelled := d.cancelled)
  }

  /** No token is forgotten, and none is taken back from its end. */
  ghost predicate TokensKept(s: Sup, t: Sup) {
    forall o | o in s.ops ::
      && o in t.ops && (s.ops[o].revoked ==> t.ops[o].revoked) && (s.ops[o].returned ==> t.ops[o].returned)
      && (s.ops[o].abandoned ==> t.ops[o].abandoned)
  }

  /** The decision state, the counters that number decisions, and the work of every call are the same. */
  ghost predicate SameDecisions(s: Sup, t: Sup) {
    && SameEvidence(s, t) && t.restarts == s.restarts && t.nextOperation == s.nextOperation
    && s.nextRecord <= t.nextRecord <= s.nextRecord + 1 && TokensKept(s, t)
    && (t.operation != s.operation ==> OpOf(t, s.operation.value).returned && OpOf(t, s.operation.value).callbacks == 0)
  }

  ghost predicate Quiet(c: Sys, d: Sys) {
    && d.m == c.m && d.cfg == c.cfg && d.running == c.running && d.awaited == c.awaited && c.now <= d.now
    && c.nextId <= d.nextId
    && d.h == c.h.(secondary := d.h.secondary)
    && d.calls.Keys == c.calls.Keys && (forall o | o in d.calls :: SameWork(c.calls[o], d.calls[o]) && d.calls[o].waiting == c.calls[o].waiting)
    && SameDecisions(c.sup, d.sup)
  }

  /** Steps that are quiet. */
  predicate Hushed(step: Step) {
    Runs(step) || Publishes(step) || step.Tick? || step.Cancel? || step.RefuseNilContext?
  }

  lemma ReturnedSame(s: Sup, owner: Option<nat>)
    ensures SameDecisions(s, CallbackReturned(s, owner))
  {
  }

  lemma ReleaseSame(s: Sup, gate: Gate, owner: Option<nat>)
    ensures SameDecisions(s, Release(s, gate, owner))
  {
    ReturnedSame(s, owner);
  }

  lemma AcquireSame(s: Sup, gate: Gate, owner: Option<nat>)
    ensures SameDecisions(s, Acquire(s, gate, owner).0)
  {
  }

  lemma OperationReturnedSame(s: Sup, o: nat)
    ensures SameDecisions(s, OperationReturned(s, o))
  {
  }

  lemma ReportingSame(s: Sup)
    ensures SameDecisions(s, ReportingReturned(s))
  {
  }

  lemma DeliverSame(c: Sys, o: nat, k: nat, outcome: Outcome)
    ensures Deliver(c, o, k, outcome).Keys == c.calls.Keys
    ensures forall p | p in c.calls ::
      SameWork(c.calls[p], Deliver(c, o, k, outcome)[p]) && Deliver(c, o, k, outcome)[p].waiting == c.calls[p].waiting
  {
  }

  lemma StillSame(s: Sup)
    ensures SameDecisions(s, s) && SameDecisions(s, Stamp(s))
  {
  }

  lemma CleanupQuiet(c: Sys, k: nat, outcome: Outcome)
    requires k in c.live && c.live[k].App?
    ensures Quiet(c, DoCleanup(c, k, outcome))
  {
    hide SameDecisions, Deliver, CallbackReturned;
    StillSame(c.sup);
    ReturnedSame(c.sup, Some(c.live[k].op));
    DeliverSame(c, c.live[k].op, k, outcome);
  }

  lemma JournalFinishQuiet(c: Sys, k: nat, ok: bool)
    requires k in c.live && c.live[k].JournalWrite?
    ensures Quiet(c, DoJournalFinish(c, k, ok))
  {
    hide SameDecisions, Deliver, Release;
    ReleaseSame(c.sup, Journal, c.live[k].owner);
    if c.live[k].owner.Some? { DeliverSame(c, c.live[k].owner.value, k, if ok then Passed else Failed); }
  }

  lemma RecorderFinishQuiet(c: Sys, k: nat)
    requires k in c.live && c.live[k].RecorderWrite?
    ensures Quiet(c, DoRecorderFinish(c, k))
  {
    hide SameDecisions, Release;
    ReleaseSame(c.sup, Recorder, c.live[k].owner);
  }

  lemma WriteQuiet(c: Sys, k: nat)
    requires k in c.live && c.live[k].JournalWrite?
    ensures Quiet(c, DoCapture(c, k)) && Quiet(c, DoSave(c, k))
  {
    hide SameDecisions, SnapshotOf;
    StillSame(c.sup);
  }

  lemma RunQuiet(c: Sys, step: Step)
    requires Runs(step) && CanRun(c, step)
    ensures Quiet(c, ExecRun(c, step))
  {
    hide SameDecisions, DoCleanup, DoJournalFinish, DoCapture, DoSave, DoRecorderFinish, Quiet;
    match step
    case Cleanup(k, outcome) => CleanupQuiet(c, k, outcome);
    case JournalFinish(k, ok) => JournalFinishQuiet(c, k, ok);
    case RecorderFinish(k) => RecorderFinishQuiet(c, k);
    case JournalCapture(k) => WriteQuiet(c, k);
    case JournalSave(k) => WriteQuiet(c, k);
  }

  lemma PubJournalQuiet(c: Sys, p: nat, expired: bool)
    requires p in c.pubs
    ensures Quiet(c, DoPubJournal(c, p, expired))
  {
    hide SameDecisions, Acquire;
    StillSame(c.sup);
    AcquireSame(c.sup, Journal, c.pubs[p].Owner());
  }

  lemma PubRecordQuiet(c: Sys, p: nat)
    requires p in c.pubs && c.pubs[p].stage.RecordDue?
    ensures Quiet(c, DoPubRecord(c, p))
  {
    hide SameDecisions, Acquire;
    StillSame(c.sup);
    AcquireSame(c.sup, Recorder, c.pubs[p].Owner());
  }

  lemma PubReturnQuiet(c: Sys, p: nat)
    requires p in c.pubs
    ensures Quiet(c, DoPubReturn(c, p))
  {
    hide SameDecisions;
    StillSame(c.sup);
    match c.pubs[p].kind
    case Returning(o) => OperationReturnedSame(c.sup, o);
    case LateCause(k, o) => ReturnedSame(c.sup, Some(o));
    case Reporting(_) => ReportingSame(c.sup);
    case _ =>
  }

  lemma StageQuiet(c: Sys, p: nat, stage: Stage, ok: bool)
    requires p in c.pubs
    ensures Quiet(c, SetStage(c, p, stage)) && Quiet(c, DoPubJournalDone(c, p, ok))
  {
    hide SameDecisions, Stamp;
    StillSame(c.sup);
  }

  lemma PublishQuiet(c: Sys, step: Step)
    requires Publishes(step) && CanPublish(c, step)
    ensures Quiet(c, ExecPublish(c, step))
  {
    hide SameDecisions, DoPubJournal, DoPubRecord, DoPubReturn, DoPubJournalDone, SetStage, Quiet;
    match step
    case PubJournal(p, expired) => PubJournalQuiet(c, p, expired);
    case PubRecord(p) => PubRecordQuiet(c, p);
    case PubReturn(p) => PubReturnQuiet(c, p);
    case PubJournalDone(p, ok) => StageQuiet(c, p, ReturnDue, ok);
    case PubProceed(p) => StageQuiet(c, p, AfterRecord(c.pubs[p].stage.closing), true);
  }

  lemma SignalQuiet(c: Sys, step: Step)
    requires (step.Tick? || step.Cancel? || step.RefuseNilContext?) && CanSignal(c, step)
    ensures Quiet(c, ExecSignal(c, step))
  {
    hide SameDecisions, DoTrip, DoTimer;
    StillSame(c.sup);
  }

  lemma HushedQuiet(c: Sys, step: Step)
    requires Enabled(c, step) && Hushed(step)
    ensures Quiet(c, Exec(c, step))
  {
    hide Quiet, ExecRun, ExecPublish, ExecSignal, ExecAdmit, ExecMove, ExecDecide, ExecReincarnate;
    hide CanMove, CanDecide, CanRun, CanPublish, CanSignal, CanReincarnate;
    if Runs(step) {
      RunQuiet(c, step);
    } else if Publishes(step) {
      PublishQuiet(c, step);
    } else {
      SignalQuiet(c, step);
    }
  }
}
