/**
 * Which attempts reach their controllers along a run: each one once, whatever
 * crashes and restorations lie between.
 */
module SupervisorStarts {
  import opened Basics
  import opened SupervisorTypes
  import opened SupervisorSpec
  import opened SupervisorSystem
  import opened SupervisorTrace
  import opened SupervisorOwnership
  import opened SupervisorDoubt
  import opened SupervisorFrames
  import opened SupervisorCalls
  import opened SupervisorFates
  import opened SupervisorSafety

  /** The attempt whose Issue callback a step starts. */
  function StartedBy(c: Sys, step: Step): Option<AttemptId> {
    if step.Invoke? && step.op in c.calls && c.calls[step.op].pc.IssueAt? && Owns(c.sup, step.op) && c.sup.mode == Executing
    then Some(c.calls[step.op].change.Identifier()) else None
  }

  function Elements<T>(o: Option<T>): seq<T> {
    if o.Some? then [o.value] else []
  }

  /** The attempts whose Issue callbacks start along a run, in order. */
  ghost function Starts(c: Sys, steps: seq<Step>): seq<AttemptId>
    requires Runnable(c, steps)
    decreases |steps|
  {
    if steps == [] then [] else Elements(StartedBy(c, steps[0])) + Starts(Exec(c, steps[0]), steps[1..])
  }

  /** The history grows by the attempt the step starts, if it starts one. */
  predicate Grows(c: Sys, step: Step, d: Sys) {
    d.h.started == c.h.started + (set a | a in Elements(StartedBy(c, step)))
  }

  lemma InvokeGrows(c: Sys, o: nat)
    requires o in c.calls
    ensures Grows(c, Invoke(o), DoInvoke(c, o))
  {
    hide OnFail, PhaseAt;
  }

  lemma MoveGrows(c: Sys, step: Step)
    requires Moves(step) && CanMove(c, step)
    ensures Grows(c, step, ExecMove(c, step))
  {
    hide Grows, OnPass, OnFail, OnContextFailure, DoInvoke, DoPrepare, DoPrepareAcquire, Abandon;
    if step.Invoke? {
      InvokeGrows(c, step.op);
    } else {
      if step.PrepareCall? || step.PrepareAcquire? { PrepareGrows(c, step.op); }
      NothingStarts(c, step, ExecMove(c, step));
    }
  }

  lemma PrepareGrows(c: Sys, o: nat)
    requires o in c.calls
    ensures c.calls[o].pc.PrepareAt? ==> DoPrepare(c, o).h == c.h
    ensures c.calls[o].pc.DeliverAt? ==> DoPrepareAcquire(c, o).h == c.h
  {
    hide OnPass, OnFail, PrepareBegin, Acquire;
  }

  lemma NothingStarts(c: Sys, step: Step, d: Sys)
    requires !step.Invoke? && d.h.started == c.h.started
    ensures Grows(c, step, d)
  {
  }

  lemma DecideGrows(c: Sys, step: Step)
    requires Decides(step) && CanDecide(c, step)
    ensures Grows(c, step, ExecDecide(c, step))
  {
    hide Latch, AwaitVerification, Commit, FinishReady, Resolve, RestoreFault;
  }

  lemma AdmitGrows(c: Sys, step: Step)
    requires Admits(step)
    ensures Grows(c, step, ExecAdmit(c, step))
  {
    hide Admitted;
    AdmittedHistory(c, AdmissionOf(c, step).0, AdmissionOf(c, step).1);
  }

  lemma AdmittedHistory(c: Sys, r: (Sup, Admission), call: Call)
    ensures Admitted(c, r, call).h == c.h
  {
  }

  lemma OtherGrows(c: Sys, step: Step)
    requires Enabled(c, step) && !Admits(step) && !Moves(step) && !Decides(step) && !Hushed(step)
    ensures Grows(c, step, Exec(c, step))
  {
    hide Trip, TimerFired, Restore;
  }

  lemma QuietGrows(c: Sys, step: Step, d: Sys)
    requires Quiet(c, d) && !step.Invoke?
    ensures Grows(c, step, d)
  {
  }

  lemma StepGrows(c: Sys, step: Step)
    requires Enabled(c, step)
    ensures Grows(c, step, Exec(c, step))
  {
    hide Quiet, Grows, ExecAdmit, ExecMove, ExecDecide, ExecRun, ExecPublish, ExecSignal, CanMove, CanDecide, CanRun, CanPublish, CanSignal;
    if Admits(step) {
      AdmitGrows(c, step);
    } else if Moves(step) {
      MoveGrows(c, step);
    } else if Decides(step) {
      DecideGrows(c, step);
    } else if Hushed(step) {
      HushedQuiet(c, step);
      QuietGrows(c, step, Exec(c, step));
    } else {
      OtherGrows(c, step);
    }
  }

  /** What starts was never started before. */
  lemma StepStartsFresh(c: Sys, step: Step)
    requires Inv(c) && Enabled(c, step) && StartedBy(c, step).Some?
    ensures StartedBy(c, step).value !in c.h.started
  {
    hide Inv, Trusted, Fresh, Shape, Owned, Faithful, KindFits, Proposes, OnFail;
    InvParts(c);
    TrustedCall(c, step.op);
    InvokeFresh(c, step.op);
  }

  predicate Distinct<T(==)>(s: seq<T>) {
    forall i, j | 0 <= i < j < |s| :: s[i] != s[j]
  }

  lemma {:induction false} StartsFresh(c: Sys, steps: seq<Step>)
    requires Inv(c) && Runnable(c, steps)
    ensures Distinct(Starts(c, steps))
    ensures forall a | a in Starts(c, steps) :: a !in c.h.started
    ensures Execute(c, steps).h.started == c.h.started + set a | a in Starts(c, steps)
    decreases |steps|
  {
    hide Inv, Enabled, Exec, StartedBy;
    if steps != [] {
      var d := Exec(c, steps[0]);
      StepInv(c, steps[0]);
      StepGrows(c, steps[0]);
      if StartedBy(c, steps[0]).Some? { StepStartsFresh(c, steps[0]); }
      StartsFresh(d, steps[1..]);
    }
  }

  /**
   * At most once, over the whole history: along any run, with crashes and
   * restorations anywhere, no two Issue callbacks start for the same attempt,
   * none for an attempt started before the run, and the history of started
   * attempts grows by exactly these.
   */
  lemma {:induction false} NoneStartsTwice(c: Sys, steps: seq<Step>)
    requires Reachable(c) && Runnable(c, steps)
    ensures Distinct(Starts(c, steps))
    ensures forall a | a in Starts(c, steps) :: a !in c.h.started
    ensures Execute(c, steps).h.started == c.h.started + set a | a in Starts(c, steps)
  {
    hide Inv, Exec, Enabled, Starts, Distinct;
    ReachableInv(c);
    StartsFresh(c, steps);
  }
}
