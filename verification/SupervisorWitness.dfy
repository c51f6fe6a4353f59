/**
 * Two runs of a machine that a strict definition compiles to. Both boot, start
 * and issue. One fails to write its preparation and ends in doubt without
 * uncertainty; the other refuses Starts until the record counter is exhausted.
 */
module SupervisorWitness {
  import opened Basics
  import opened SupervisorTypes
  import opened SupervisorSpec
  import opened SupervisorSystem
  import opened SupervisorSafety
  import opened SupervisorStamps
  import opened SupervisorUncertainty
  import StrictDefinition

  // ---------------------------------------------------------- the machine

  const WRITE_FAILED: nat := 4

  /** One external row from 0 to 1, and one callback in every group. */
  const DEFINITION := StrictDefinition.Definition(
    1, [StrictDefinition.StateDecl(0, false, []), StrictDefinition.StateDecl(1, true, [])], [1], 0,
    [StrictDefinition.Transition(1, 0, 1, 1, false, [], true, true)], [true], [true], [true], [true])

  const DOOR := Machine(1, 0, {0, 1}, {1}, map[Key(0, 1) := [Row(1, 0, 1, 1, false, 0, true)]], 1, 1, 1, 1)

  lemma DoorDeclares()
    ensures StrictDefinition.Declared(DEFINITION.states, 0) && StrictDefinition.Declared(DEFINITION.states, 1)
    ensures forall s :: StrictDefinition.Declared(DEFINITION.states, s) ==> s == 0 || s == 1
  {
    assert DEFINITION.states[0].name == 0 && DEFINITION.states[1].name == 1;
  }

  lemma DoorRows()
    ensures StrictDefinition.RowsFine(DEFINITION.states, DEFINITION.events, DEFINITION.transitions)
    ensures StrictDefinition.RefusalsFine(DEFINITION.states, DEFINITION.events)
  {
    hide StrictDefinition.Declared;
    DoorDeclares();
  }

  lemma DoorTotal()
    ensures StrictDefinition.Total(DEFINITION.states, DEFINITION.events, DEFINITION.transitions)
  {
    var ts := DEFINITION.transitions;
    assert ts[0].from == 0 && ts[0].event == 1;
    assert StrictDefinition.Handles(ts, Key(0, 1));
  }

  lemma DoorConnected()
    ensures StrictDefinition.Connected(DEFINITION.states, DEFINITION.transitions, DEFINITION.initial)
  {
    var ts := DEFINITION.transitions;
    assert ts[0].from == 0 && ts[0].to == 1;
    assert StrictDefinition.Reaches(ts, 0, 0, 0) && StrictDefinition.Reaches(ts, 0, 1, 1);
  }

  lemma DoorMatches()
    ensures StrictDefinition.Matches(DEFINITION, DOOR)
  {
    DoorDeclares();
    var ts := DEFINITION.transitions;
    assert ts[..0] == [];
    forall key ensures StrictDefinition.RowsOf(ts, key) == if key == Key(0, 1) then DOOR.rows[key] else [] {
      assert StrictDefinition.RowsOf(ts[..0], key) == [];
    }
  }

  lemma DoorCompiles()
    ensures StrictDefinition.Strict(DEFINITION) && StrictDefinition.Matches(DEFINITION, DOOR)
  {
    hide StrictDefinition.RowsFine, StrictDefinition.RefusalsFine, StrictDefinition.Total, StrictDefinition.Connected;
    hide StrictDefinition.Matches, StrictDefinition.Declared;
    DoorDeclares();
    DoorRows();
    DoorTotal();
    DoorConnected();
    DoorMatches();
  }

  // ------------------------------------------------------------- the run

  /** `steps` lead from a first state to `c`, the observer ending at `w`. */
  ghost predicate Leads(start: Sys, steps: seq<Step>, c: Sys, w: Watch) {
    Init(start) && Runnable(start, steps) && Execute(start, steps) == c && WatchedRun(UNWATCHED, start, steps) == w
  }

  lemma {:induction false} RunsOn(c: Sys, w: Watch, steps: seq<Step>, step: Step)
    requires Runnable(c, steps) && Enabled(Execute(c, steps), step)
    ensures Runnable(c, steps + [step]) && Execute(c, steps + [step]) == Exec(Execute(c, steps), step)
    ensures WatchedRun(w, c, steps + [step]) == Watched(WatchedRun(w, c, steps), Execute(c, steps), step)
    decreases |steps|
  {
    hide Enabled, Exec, Watched;
    var more := steps + [step];
    if steps == [] {
      assert more[0] == step && more[1..] == [];
    } else {
      assert more[0] == steps[0] && more[1..] == steps[1..] + [step];
      RunsOn(Exec(c, steps[0]), Watched(w, c, steps[0]), steps[1..], step);
    }
  }

  lemma LeadsNowhere(c: Sys)
    requires Init(c)
    ensures Leads(c, [], c, UNWATCHED)
  {
  }

  lemma TakesStep(start: Sys, c: Sys, w: Watch, steps: seq<Step>, step: Step) returns (d: Sys, v: Watch, more: seq<Step>)
    requires Leads(start, steps, c, w) && Enabled(c, step)
    ensures d == Exec(c, step) && v == Watched(w, c, step) && more == steps + [step] && Leads(start, more, d, v)
  {
    hide Enabled, Exec, Watched;
    RunsOn(start, UNWATCHED, steps, step);
    d, v, more := Exec(c, step), Watched(w, c, step), steps + [step];
  }

  lemma {:induction false} LedHere(start: Sys, steps: seq<Step>, c: Sys, w: Watch)
    requires Leads(start, steps, c, w)
    ensures Init(start) && Runnable(start, steps) && Execute(start, steps) == c && WatchedRun(UNWATCHED, start, steps) == w
  {
  }

  function Cold(): Sys {
    Sys(DOOR, Config(true, false, 1), false, NewSupervisor(DOOR, 0), map[], map[], map[], 0, 1, None, Awaited([], 0),
        History({}, {}, [], {}, {}, {}))
  }

  /** What stays the same until the fault. */
  ghost predicate Quietly(c: Sys) {
    && c.running && c.m == DOOR && c.cfg == Config(true, false, 1) && c.now == 1 && c.live == map[]
    && c.sup.exec == 1 && c.sup.inc == 1 && c.sup.state == 0 && c.sup.revision == 0 && c.sup.nextRecord <= 2
    && c.sup.fault.None? && c.sup.pending.None? && !c.sup.journalBusy && !c.sup.recorderRunning && !c.sup.journalRunning
    && c.sup.reporting == 0
  }

  /** No call runs. */
  ghost predicate Resting(c: Sys, operation: Option<nat>, last: nat, mode: Mode) {
    && Quietly(c) && c.calls == map[] && c.sup.mode == mode && c.sup.operation == operation && c.sup.nextOperation == last
    && c.sup.attempt == 0
  }

  predicate Held(op: Op, callbacks: nat) {
    !op.revoked && !op.returned && !op.abandoned && op.callbacks == callbacks && op.issuedAt == 0
  }

  /** Call `o` runs and waits for nothing. */
  ghost predicate Working(c: Sys, o: nat, call: Call) {
    && Quietly(c) && c.sup.mode == Executing && c.sup.operation == Some(o) && c.sup.nextOperation == o && o in c.sup.ops
    && Held(c.sup.ops[o], 0)
    && c.calls == map[o := call] && call.waiting.None? && call.inbox.None? && !call.cancelled && !call.overtaken && c.pubs == map[]
  }

  lemma Boots(c: Sys)
    requires c == Cold()
    ensures Init(c) && Enabled(c, Boot(1))
    ensures var d := Exec(c, Boot(1)); Resting(d, None, 0, Stopped) && d.sup.nextRecord == 0 && d.pubs == map[]
  {
  }

  lemma Starts(c: Sys)
    requires Resting(c, None, 0, Stopped) && c.pubs == map[]
    ensures Enabled(c, CallStart)
    ensures var d := Exec(c, CallStart);
      && Working(d, 1, NewCall(StartCall, CurrentChange(c.sup)).(pc := ReconcileAt(0))) && d.sup.attempt == 0
      && d.sup.nextRecord == c.sup.nextRecord
  {
    StartsBegun(c);
    hide AdmitStart, CurrentChange;
  }

  lemma StartsBegun(c: Sys)
    requires Resting(c, None, 0, Stopped)
    ensures AdmitStart(c.sup) == (Begin(c.sup, CurrentChange(c.sup), StartPhase), Begun(1, CurrentChange(c.sup)))
  {
  }

  /** Its callback is called... */
  ghost predicate Called(c: Sys, o: nat, call: Call, k: nat) {
    && Quietly(c.(live := map[])) && c.live == map[k := App(o, call.pc, ChangeAt(DOOR, call), false)]
    && c.sup.mode == Executing && c.sup.operation == Some(o) && c.sup.nextOperation == o && o in c.sup.ops
    && Held(c.sup.ops[o], 1)
    && c.calls == map[o := call.(waiting := Some(k), inbox := None)] && call.waiting.None? && call.inbox.None? && !call.cancelled && !call.overtaken && c.pubs == map[]
  }

  lemma Calls(c: Sys, o: nat, call: Call)
    requires Working(c, o, call) && Invokable(call.pc)
    ensures Enabled(c, Invoke(o))
    ensures var d := Exec(c, Invoke(o));
      Called(d, o, call, c.nextId) && d.sup.attempt == c.sup.attempt && d.sup.nextRecord == c.sup.nextRecord
  {
  }

  /** ...returns nil... */
  lemma Answers(c: Sys, o: nat, call: Call, k: nat)
    requires Called(c, o, call, k)
    ensures Enabled(c, Cleanup(k, Passed))
    ensures var d := Exec(c, Cleanup(k, Passed));
      && Working(d.(calls := map[o := call]), o, call) && d.calls == map[o := call.(waiting := Some(k), inbox := Some(Passed))]
      && d.sup.attempt == c.sup.attempt && d.sup.nextRecord == c.sup.nextRecord
  {
    assert c.live - {k} == map[];
  }

  /** ...and its outcome is consumed. */
  lemma GoesOn(c: Sys, o: nat, call: Call, k: nat)
    requires Working(c.(calls := map[o := call]), o, call) && Invokable(call.pc)
    requires c.calls == map[o := call.(waiting := Some(k), inbox := Some(Passed))]
    ensures Enabled(c, Consume(o))
    ensures var d := Exec(c, Consume(o));
      Working(d, o, OnPass(DOOR, call)) && d.sup.attempt == c.sup.attempt && d.sup.nextRecord == c.sup.nextRecord
  {
    PassesAlike(call, k);
    hide OnPass, OnFail;
  }

  lemma PassesAlike(call: Call, k: nat)
    requires Invokable(call.pc)
    ensures OnPass(DOOR, call.(waiting := Some(k), inbox := Some(Passed))) == OnPass(DOOR, call)
    ensures OnPass(DOOR, call).waiting.None? && OnPass(DOOR, call).inbox.None? && OnPass(DOOR, call).cancelled == call.cancelled
    ensures OnPass(DOOR, call).overtaken == call.overtaken
  {
  }

  /** One callback passes. */
  lemma PassesOne(start: Sys, c0: Sys, w0: Watch, steps0: seq<Step>, o: nat, call: Call) returns (c: Sys, w: Watch, steps: seq<Step>)
    requires Leads(start, steps0, c0, w0) && Working(c0, o, call) && Invokable(call.pc)
    ensures Leads(start, steps, c, w) && Working(c, o, OnPass(DOOR, call)) && c.sup.attempt == c0.sup.attempt
    ensures c.sup.nextRecord == c0.sup.nextRecord
  {
    hide Enabled, Exec, Leads, Watched, Working, Called, OnPass;
    Calls(c0, o, call);
    var k := c0.nextId;
    c, w, steps := TakesStep(start, c0, w0, steps0, Invoke(o));
    Answers(c, o, call, k);
    c, w, steps := TakesStep(start, c, w, steps, Cleanup(k, Passed));
    GoesOn(c, o, call, k);
    c, w, steps := TakesStep(start, c, w, steps, Consume(o));
  }

  // ----------------------------------------------------------- the start

  /** The first call's publication `p` is under way. */
  ghost predicate Returns(c: Sys, p: nat, stage: Stage) {
    Resting(c, Some(1), 1, Ready) && 1 in c.sup.ops && c.sup.ops[1].callbacks == 0 && c.pubs == map[p := Pub(Returning(1), true, stage)]
  }

  lemma Finishes(c: Sys, call: Call)
    requires Working(c, 1, call) && call.pc.FinishAt? && c.sup.attempt == 0 && c.sup.nextRecord == 0
    ensures Enabled(c, FinishCall(1))
    ensures var d := Exec(c, FinishCall(1)); Returns(d, c.nextId, JournalDue) && d.sup.nextRecord == 1
  {
    assert c.calls - {1} == map[];
  }

  /** The closing write is given up: its time is over. */
  lemma Closes(c: Sys, p: nat)
    requires Returns(c, p, JournalDue) && c.sup.nextRecord == 1
    ensures Enabled(c, PubJournal(p, true)) && Returns(Exec(c, PubJournal(p, true)), p, RecordDue(true))
  {
  }

  lemma Records(c: Sys, p: nat, closing: bool)
    requires Returns(c, p, RecordDue(closing))
    ensures Enabled(c, PubRecord(p)) && Returns(Exec(c, PubRecord(p)), p, AfterRecord(closing))
  {
  }

  lemma ReturnsReady(c: Sys, p: nat)
    requires Returns(c, p, ReturnDue)
    ensures Enabled(c, PubReturn(p))
    ensures var d := Exec(c, PubReturn(p)); Resting(d, None, 1, Ready) && d.pubs == map[]
  {
    assert c.pubs - {p} == map[];
  }

  lemma ReachesReady(start: Sys) returns (c: Sys, w: Watch, steps: seq<Step>)
    requires start == Cold()
    ensures Leads(start, steps, c, w) && Resting(c, None, 1, Ready) && c.pubs == map[]
  {
    hide Enabled, Exec, Leads, Cold, Watched, Returns, Resting, Working, CurrentChange, OnPass;
    c, w, steps := start, UNWATCHED, [];
    Boots(c);
    LeadsNowhere(c);
    c, w, steps := TakesStep(start, c, w, steps, Boot(1));
    var call := NewCall(StartCall, CurrentChange(c.sup)).(pc := ReconcileAt(0));
    RestsUnnumbered(c);
    Starts(c);
    c, w, steps := TakesStep(start, c, w, steps, CallStart);
    c, w, steps := PassesOne(start, c, w, steps, 1, call);
    StartedOut(call);
    Finishes(c, OnPass(DOOR, call));
    var p := c.nextId;
    c, w, steps := TakesStep(start, c, w, steps, FinishCall(1));
    Closes(c, p);
    c, w, steps := TakesStep(start, c, w, steps, PubJournal(p, true));
    Records(c, p, true);
    c, w, steps := TakesStep(start, c, w, steps, PubRecord(p));
    Records(c, p, false);
    c, w, steps := TakesStep(start, c, w, steps, PubRecord(p));
    ReturnsReady(c, p);
    c, w, steps := TakesStep(start, c, w, steps, PubReturn(p));
  }

  lemma RestsUnnumbered(c: Sys)
    requires Resting(c, None, 0, Stopped)
    ensures c.sup.attempt == 0
  {
  }

  /** There is one reconciler. */
  lemma StartedOut(call: Call)
    requires call.kind.StartCall? && call.pc == ReconcileAt(0)
    ensures OnPass(DOOR, call).pc.FinishAt?
  {
  }

  // ----------------------------------------------------------- the issue

  const ATTEMPT := AttemptId(1, 1, 1)

  /** An Issue call of attempt 1, handled by the one row. */
  predicate Issue(call: Call) {
    && call.kind.IssueCall? && call.attempt.Identifier() == call.change.Identifier() == ATTEMPT
    && call.attempt.from == 0 && call.attempt.event == 1
  }

  lemma Issues(c: Sys)
    requires Resting(c, None, 1, Ready) && c.pubs == map[]
    ensures Enabled(c, CallIssue(1))
    ensures var d := Exec(c, CallIssue(1));
      exists call :: Working(d, 2, call) && Issue(call) && call.pc == PreconditionAt(0)
  {
    var d := Exec(c, CallIssue(1));
    assert Working(d, 2, d.calls[2]) && Issue(d.calls[2]);
  }

  /** One precondition, no guard, no checks of the row, one invariant. */
  lemma Prechecked(call: Call)
    requires Issue(call) && call.pc == PreconditionAt(0)
    ensures Issue(OnPass(DOOR, call)) && OnPass(DOOR, call).pc == InvariantAt(0) && OnPass(DOOR, call).row.external
  {
  }

  lemma Checked(call: Call)
    requires Issue(call) && call.pc == InvariantAt(0) && call.row.external
    ensures Issue(OnPass(DOOR, call)) && OnPass(DOOR, call).pc.PrepareAt?
  {
  }

  /** The prepared call at `pc`. */
  ghost predicate Issuing(c: Sys, pc: Pc, waiting: Option<nat>, inbox: Option<Outcome>) {
    && c.running && c.m == DOOR && c.cfg == Config(true, false, 1) && c.now == 1
    && c.sup.mode == Executing && c.sup.operation == Some(2) && 2 in c.sup.ops && !c.sup.ops[2].revoked && !c.sup.ops[2].returned
    && c.sup.ops[2].change.Identifier() == ATTEMPT && c.sup.ops[2].issuedAt == 1 && c.sup.fault.None? && c.sup.pending.None?
    && 2 in c.calls && Issue(c.calls[2]) && c.calls[2].pc == pc && c.calls[2].waiting == waiting && c.calls[2].inbox == inbox
    && (pc.DeliverAt? && waiting.None? ==> !c.sup.journalBusy)
  }

  lemma Prepares(c: Sys, call: Call)
    requires Working(c, 2, call) && Issue(call) && call.pc.PrepareAt?
    ensures Enabled(c, PrepareCall(2)) && Issuing(Exec(c, PrepareCall(2)), DeliverAt, None, None)
  {
  }

  lemma Writes(c: Sys)
    requires Issuing(c, DeliverAt, None, None)
    ensures Enabled(c, PrepareAcquire(2))
    ensures var d := Exec(c, PrepareAcquire(2));
      Issuing(d, DeliverAt, Some(c.nextId), None) && c.nextId in d.live && d.live[c.nextId] == JournalWrite(Some(2), true, None, false)
  {
  }

  lemma WriteFails(c: Sys, k: nat)
    requires Issuing(c, DeliverAt, Some(k), None) && k in c.live && c.live[k] == JournalWrite(Some(2), true, None, false)
    ensures Enabled(c, JournalFinish(k, false)) && Issuing(Exec(c, JournalFinish(k, false)), DeliverAt, Some(k), Some(Failed))
  {
  }

  lemma FailureIsRefusal(c: Sys, k: nat, w: Watch)
    requires Issuing(c, DeliverAt, Some(k), Some(Failed))
    ensures Enabled(c, PrepareConsume(2)) && Issuing(Exec(c, PrepareConsume(2)), FailAt(c.calls[2].change, IssuePhase, false), None, None)
    ensures Watched(w, c, PrepareConsume(2)).refused == Some(2)
  {
  }

  lemma RefusalLatches(c: Sys, change: Change, w: Watch)
    requires Issuing(c, FailAt(change, IssuePhase, false), None, None) && w.refused == Some(2)
    ensures Enabled(c, LatchCall(2, WRITE_FAILED)) && Exec(c, LatchCall(2, WRITE_FAILED)).running
    ensures Watched(w, c, LatchCall(2, WRITE_FAILED)).latched
  {
  }

  /** A run reaches a prepared call whose write fails. */
  lemma ReachesRefusal(start: Sys) returns (c: Sys, w: Watch, steps: seq<Step>)
    requires start == Cold()
    ensures Leads(start, steps, c, w) && c.running && w.latched
  {
    hide Enabled, Exec, Leads, Cold, Watched, Resting, Working, Issuing, OnPass;
    c, w, steps := ReachesReady(start);
    Issues(c);
    c, w, steps := TakesStep(start, c, w, steps, CallIssue(1));
    var first :| Working(c, 2, first) && Issue(first) && first.pc == PreconditionAt(0);
    c, w, steps := PassesOne(start, c, w, steps, 2, first);
    Prechecked(first);
    var second := OnPass(DOOR, first);
    c, w, steps := PassesOne(start, c, w, steps, 2, second);
    Checked(second);
    Prepares(c, OnPass(DOOR, second));
    c, w, steps := TakesStep(start, c, w, steps, PrepareCall(2));
    var k := c.nextId;
    Writes(c);
    c, w, steps := TakesStep(start, c, w, steps, PrepareAcquire(2));
    WriteFails(c, k);
    c, w, steps := TakesStep(start, c, w, steps, JournalFinish(k, false));
    var change := c.calls[2].change;
    FailureIsRefusal(c, k, w);
    c, w, steps := TakesStep(start, c, w, steps, PrepareConsume(2));
    RefusalLatches(c, change, w);
    c, w, steps := TakesStep(start, c, w, steps, LatchCall(2, WRITE_FAILED));
  }

  /** Doubt without uncertainty is real: a run of a compiled machine ends in it, its controller never called. */
  lemma RefusedPreparationHappens() returns (d: StrictDefinition.Definition, start: Sys, steps: seq<Step>)
    ensures StrictDefinition.Strict(d) && StrictDefinition.Matches(d, start.m)
    ensures Init(start) && Runnable(start, steps) && Execute(start, steps).running
    ensures var c := Execute(start, steps);
      var snap := SnapshotOf(c.m, c.sup, c.now);
      snap.inDoubt && !snap.uncertain && snap.pending.Some? && snap.pending.value.attempt !in c.h.started
  {
    hide Enabled, Exec, Leads, Watched, StrictDefinition.Strict, StrictDefinition.Matches;
    DoorCompiles();
    d, start := DEFINITION, Cold();
    var c, w;
    c, w, steps := ReachesRefusal(start);
    LedHere(start, steps, c, w);
    DoubtWithoutUncertainty(start, steps, c.now);
  }

  // -------------------------------------------------------- exhaustion

  lemma {:induction false} RunsTogether(c: Sys, first: seq<Step>, second: seq<Step>)
    requires Runnable(c, first) && Runnable(Execute(c, first), second)
    ensures Runnable(c, first + second) && Execute(c, first + second) == Execute(Execute(c, first), second)
    decreases |first|
  {
    hide Enabled, Exec;
    var both := first + second;
    if first == [] {
      assert both == second;
    } else {
      assert both[0] == first[0] && both[1..] == first[1..] + second;
      RunsTogether(Exec(c, first[0]), first[1..], second);
    }
  }

  /** An operation in flight, far below the margin. */
  ghost predicate InFlight(c: Sys) {
    c.running && c.sup.mode == Executing && c.sup.operation == Some(2) && 2 in c.calls && c.sup.nextRecord <= 2
  }

  lemma WorkInFlight(c: Sys, call: Call)
    requires Working(c, 2, call)
    ensures InFlight(c)
  {
  }

  lemma ReachesIssue(start: Sys) returns (c: Sys, w: Watch, steps: seq<Step>)
    requires start == Cold()
    ensures Leads(start, steps, c, w) && InFlight(c)
  {
    hide Enabled, Exec, Leads, Cold, Watched, Resting, Working, InFlight;
    c, w, steps := ReachesReady(start);
    Issues(c);
    c, w, steps := TakesStep(start, c, w, steps, CallIssue(1));
    var call :| Working(c, 2, call) && Issue(call) && call.pc == PreconditionAt(0);
    WorkInFlight(c, call);
  }

  /**
   * The margin can be used up while the operation it was kept for is in flight:
   * a run of a compiled machine admits an Issue at least seventeen numbers below
   * the ceiling, and refused Starts exhaust the counter before it decides.
   */
  lemma ExhaustedInFlight() returns (d: StrictDefinition.Definition, start: Sys, before: seq<Step>, refusals: seq<Step>)
    ensures StrictDefinition.Strict(d) && StrictDefinition.Matches(d, start.m)
    ensures Init(start) && Runnable(start, before + refusals) && Runnable(start, before)
    ensures var c, e := Execute(start, before), Execute(start, before + refusals);
      && c.sup.mode == Executing && c.sup.operation.Some? && c.sup.nextRecord < MAX_UINT64 - RECORD_SEQ_MARGIN
      && e.sup == c.sup.(nextRecord := MAX_UINT64) && e.calls == c.calls
  {
    hide Enabled, Exec, Leads, Watched, StrictDefinition.Strict, StrictDefinition.Matches;
    DoorCompiles();
    d, start := DEFINITION, Cold();
    var c, w;
    c, w, before := ReachesIssue(start);
    LedHere(start, before, c, w);
    RefusalsExhaust(c, MAX_UINT64);
    refusals := Starting(MAX_UINT64);
    RunsTogether(start, before, refusals);
  }
}
