/**
 * One Instance of a chart: Fire selects a row, runs its lifecycle actions in
 * order, commits the destination, and numbers the committed node changes.
 */
module StatechartInstance {
  import opened Basics
  import opened Hierarchy
  import opened Shape
  import opened Statechart

  datatype Phase = ExitPhase | EffectPhase | EntryPhase

  /** One lifecycle action: the `index`th of `state` (zero for the effect). */
  datatype Act = Act(phase: Phase, state: State, index: nat)

  /** A committed exit or entry. */
  datatype Observation = Observation(
    sequence: uint64, step: uint64, run: uint64, remaining: nat, move: Move, event: Event,
    source: State, handler: State, target: State, destination: State, kind: Kind)

  datatype Outcome =
    | InFlight | Refused
    | Failed(phase: Phase, state: State, index: nat, completed: nat)
    | Fired(destination: State)

  /** What a Fire selected and walked. */
  datatype Walk = Nothing | Walk(selected: Selected, level: nat, stop: int, exits: seq<State>, entries: seq<State>)

  function Wrap(n: nat): uint64 {
    n % (MAX_UINT64 + 1)
  }

  // -------------------------------------------------------------- actions

  /** The actions of one state that are not nil. */
  function ActsOf(phase: Phase, state: State, flags: seq<bool>): seq<Act> {
    if flags == [] then [] else
      var n := |flags| - 1;
      ActsOf(phase, state, flags[..n]) + if flags[n] then [Act(phase, state, n)] else []
  }

  function FlagsOf(chart: Chart, phase: Phase, state: State): seq<bool> {
    if state !in chart.actions then [] else if phase.ExitPhase? then chart.actions[state].exit else chart.actions[state].entry
  }

  function Acts(chart: Chart, phase: Phase, states: seq<State>): seq<Act> {
    if states == [] then [] else
      var n := |states| - 1;
      Acts(chart, phase, states[..n]) + ActsOf(phase, states[n], FlagsOf(chart, phase, states[n]))
  }

  /** Everything one Fire runs, in order: exits, the effect, entries. */
  function Plan(chart: Chart, row: Transition, exits: seq<State>, entries: seq<State>): seq<Act> {
    Acts(chart, ExitPhase, exits) + (if row.effect then [Act(EffectPhase, 0, 0)] else []) + Acts(chart, EntryPhase, entries)
  }

  /** Runs the actions of one phase; the environment makes action number `failing` of the whole plan fail. */
  method RunActions(chart: Chart, phase: Phase, states: seq<State>, failing: nat, before: nat)
    returns (failed: Option<Act>, completed: nat)
    ensures var acts := Acts(chart, phase, states);
      if before <= failing < before + |acts| then failed == Some(acts[failing - before]) && completed == failing - before
      else failed.None? && completed == |acts|
  {
    hide Acts, ActsOf;
    completed := 0;
    failed := None;
    NoActs(chart, phase);
    for n := 0 to |states|
      invariant failed.None? && completed == |Acts(chart, phase, states[..n])| && (before <= failing ==> before + completed <= failing)
    {
      ActsNext(chart, phase, states, n);
      var count;
      failed, count := RunState(phase, states[n], FlagsOf(chart, phase, states[n]), failing, before + completed);
      if failed.Some? {
        ActPosition(chart, phase, states, n, failing - before - completed);
        return failed, completed + count;
      }
      completed := completed + count;
    }
    assert states[..|states|] == states;
  }

  /** Runs the actions of one state, in order. */
  method RunState(phase: Phase, state: State, flags: seq<bool>, failing: nat, before: nat) returns (failed: Option<Act>, completed: nat)
    ensures var acts := ActsOf(phase, state, flags);
      if before <= failing < before + |acts| then failed == Some(acts[failing - before]) && completed == failing - before
      else failed.None? && completed == |acts|
  {
    completed := 0;
    failed := None;
    for i := 0 to |flags|
      invariant completed == |ActsOf(phase, state, flags[..i])| && (before <= failing ==> before + completed <= failing)
    {
      assert flags[..i + 1][..i] == flags[..i];
      if flags[i] {
        if before + completed == failing {
          FlagPosition(phase, state, flags, i);
          return Some(Act(phase, state, i)), completed;
        }
        completed := completed + 1;
      }
    }
    assert flags[..|flags|] == flags;
  }

  lemma {:induction false} NoActs(chart: Chart, phase: Phase)
    ensures Acts(chart, phase, []) == []
  {
  }

  lemma {:induction false} ActsNext(chart: Chart, phase: Phase, states: seq<State>, n: nat)
    requires n < |states|
    ensures Acts(chart, phase, states[..n + 1]) == Acts(chart, phase, states[..n]) + ActsOf(phase, states[n], FlagsOf(chart, phase, states[n]))
  {
    assert states[..n + 1][..n] == states[..n];
  }

  /** The failure the environment's choice leads to, if it names an action of the plan. */
  function FailureAt(chart: Chart, row: Transition, exits: seq<State>, entries: seq<State>, failing: nat): Option<Outcome> {
    var plan := Plan(chart, row, exits, entries);
    if failing >= |plan| then None else
      var act := plan[failing];
      Some(Failed(act.phase, act.state, act.index,
                  if act.phase.ExitPhase? then failing
                  else if act.phase.EffectPhase? then 0
                  else if failing >= |plan| - |Acts(chart, EntryPhase, entries)| then failing - (|plan| - |Acts(chart, EntryPhase, entries)|)
                  else 0))
  }

  lemma {:induction false} ActsPhase(chart: Chart, phase: Phase, states: seq<State>)
    ensures forall k | 0 <= k < |Acts(chart, phase, states)| :: Acts(chart, phase, states)[k].phase == phase
    decreases |states|
  {
    if states != [] {
      var n := |states| - 1;
      ActsPhase(chart, phase, states[..n]);
      ActsOfPhase(phase, states[n], FlagsOf(chart, phase, states[n]));
    }
  }

  lemma {:induction false} ActsOfPhase(phase: Phase, state: State, flags: seq<bool>)
    ensures forall k | 0 <= k < |ActsOf(phase, state, flags)| :: ActsOf(phase, state, flags)[k].phase == phase
    decreases |flags|
  {
    if flags != [] {
      ActsOfPhase(phase, state, flags[..|flags| - 1]);
    }
  }

  /** A failing exit action ends the plan, counting the exits before it. */
  lemma {:induction false} ExitFailure(chart: Chart, row: Transition, exits: seq<State>, entries: seq<State>, failing: nat)
    requires failing < |Acts(chart, ExitPhase, exits)|
    ensures var act := Acts(chart, ExitPhase, exits)[failing];
      FailureAt(chart, row, exits, entries, failing) == Some(Failed(ExitPhase, act.state, act.index, failing))
  {
    ActsPhase(chart, ExitPhase, exits);
    hide Acts;
  }

  /** A failing effect ends the plan after all exits. */
  lemma {:induction false} EffectFailure(chart: Chart, row: Transition, exits: seq<State>, entries: seq<State>)
    requires row.effect
    ensures FailureAt(chart, row, exits, entries, |Acts(chart, ExitPhase, exits)|) == Some(Failed(EffectPhase, 0, 0, 0))
  {
    hide Acts;
  }

  /** A failing entry action ends the plan, counting the entries before it. */
  lemma {:induction false} EntryFailure(chart: Chart, row: Transition, exits: seq<State>, entries: seq<State>, k: nat)
    requires k < |Acts(chart, EntryPhase, entries)|
    ensures var before := |Acts(chart, ExitPhase, exits)| + (if row.effect then 1 else 0);
      var act := Acts(chart, EntryPhase, entries)[k];
      FailureAt(chart, row, exits, entries, before + k) == Some(Failed(EntryPhase, act.state, act.index, k))
  {
    ActsPhase(chart, EntryPhase, entries);
    hide Acts;
    var before := |Acts(chart, ExitPhase, exits)| + (if row.effect then 1 else 0);
    assert Plan(chart, row, exits, entries)[before + k] == Acts(chart, EntryPhase, entries)[k];
  }

  /** Nothing fails when the failing number names no action. */
  lemma {:induction false} NoPlanFailure(chart: Chart, row: Transition, exits: seq<State>, entries: seq<State>, failing: nat)
    requires failing >= |Acts(chart, ExitPhase, exits)| + (if row.effect then 1 else 0) + |Acts(chart, EntryPhase, entries)|
    ensures FailureAt(chart, row, exits, entries, failing).None?
  {
    hide Acts;
  }

  /** Exits child to parent, then the effect, then entries parent to child; the first error ends it. */
  method RunPlan(chart: Chart, row: Transition, exits: seq<State>, entries: seq<State>, failing: nat) returns (failure: Option<Outcome>)
    ensures failure == FailureAt(chart, row, exits, entries, failing)
  {
    hide Acts, Plan, FailureAt;
    ActsPhase(chart, ExitPhase, exits);
    ActsPhase(chart, EntryPhase, entries);
    var failed, exited := RunActions(chart, ExitPhase, exits, failing, 0);
    if failed.Some? {
      ExitFailure(chart, row, exits, entries, failing);
      return Some(Failed(ExitPhase, failed.value.state, failed.value.index, exited));
    }
    if row.effect && failing == exited {
      EffectFailure(chart, row, exits, entries);
      return Some(Failed(EffectPhase, 0, 0, 0));
    }
    var before := exited + if row.effect then 1 else 0;
    var unentered, entered := RunActions(chart, EntryPhase, entries, failing, before);
    if unentered.Some? {
      EntryFailure(chart, row, exits, entries, entered);
      return Some(Failed(EntryPhase, unentered.value.state, unentered.value.index, entered));
    }
    NoPlanFailure(chart, row, exits, entries, failing);
    failure := None;
  }

  lemma {:induction false} ActsOfPrefix(phase: Phase, state: State, flags: seq<bool>, i: nat)
    requires i <= |flags|
    ensures ActsOf(phase, state, flags[..i]) <= ActsOf(phase, state, flags)
    decreases |flags|
  {
    if i == |flags| {
      assert flags[..i] == flags;
    } else {
      var n := |flags| - 1;
      ActsOfPrefix(phase, state, flags[..n], i);
      assert flags[..n][..i] == flags[..i];
    }
  }

  lemma {:induction false} ActsPrefix(chart: Chart, phase: Phase, states: seq<State>, n: nat)
    requires n <= |states|
    ensures Acts(chart, phase, states[..n]) <= Acts(chart, phase, states)
    decreases |states|
  {
    if n == |states| {
      assert states[..n] == states;
    } else {
      var last := |states| - 1;
      ActsPrefix(chart, phase, states[..last], n);
      assert states[..last][..n] == states[..n];
    }
  }

  /** Where action `i` of state `n` stands in its phase. */
  lemma {:induction false} FlagPosition(phase: Phase, state: State, flags: seq<bool>, i: nat)
    requires i < |flags| && flags[i]
    ensures var at := |ActsOf(phase, state, flags[..i])|;
      at < |ActsOf(phase, state, flags)| && ActsOf(phase, state, flags)[at] == Act(phase, state, i)
  {
    ActsOfPrefix(phase, state, flags, i + 1);
    assert flags[..i + 1][..i] == flags[..i];
  }

  lemma {:induction false} ActPosition(chart: Chart, phase: Phase, states: seq<State>, n: nat, k: nat)
    requires n < |states| && k < |ActsOf(phase, states[n], FlagsOf(chart, phase, states[n]))|
    ensures var at := |Acts(chart, phase, states[..n])| + k;
      at < |Acts(chart, phase, states)| && Acts(chart, phase, states)[at] == ActsOf(phase, states[n], FlagsOf(chart, phase, states[n]))[k]
  {
    ActsPrefix(chart, phase, states, n + 1);
    ActsNext(chart, phase, states, n);
  }

  // --------------------------------------------------------- observations

  function MoveAt(exits: seq<State>, entries: seq<State>, k: nat): Move
    requires k < |exits| + |entries|
  {
    if k < |exits| then Exited(exits[k]) else Entered(entries[k - |exits|])
  }

  /** deliverTransitionObservations: one observation for every exit and entry of a commit. */
  function Observations(step: uint64, exits: seq<State>, entries: seq<State>, event: Event, source: State, s: Selected): seq<Observation> {
    var total := |exits| + |entries|;
    seq(total, k requires 0 <= k < total =>
      Observation(Wrap(step + k), step, step, total - k - 1, MoveAt(exits, entries, k), event,
                  source, s.handler, s.row.to, s.destination, s.row.kind))
  }

  ghost function MovesOf(log: seq<Observation>): seq<Move> {
    seq(|log|, k requires 0 <= k < |log| => log[k].move)
  }

  /** Observation `k` of an Instance carries number `k + 1`, modulo 2^64. */
  ghost predicate Consecutive(log: seq<Observation>) {
    forall k | 0 <= k < |log| :: log[k].sequence == Wrap(k + 1)
  }

  lemma WrapAdds(a: nat, b: nat)
    ensures Wrap(Wrap(a) + b) == Wrap(a + b)
  {
    var m := MAX_UINT64 + 1;
    var q := a / m;
    assert a == q * m + a % m;
    WrapShift(a % m + b, q);
    assert a + b == q * m + (a % m + b);
  }

  lemma {:induction false} WrapShift(a: nat, q: nat)
    ensures q * (MAX_UINT64 + 1) + a >= 0 && Wrap(q * (MAX_UINT64 + 1) + a) == Wrap(a)
    decreases q
  {
    if q > 0 {
      var m := MAX_UINT64 + 1;
      WrapShift(a, q - 1);
      assert q * m + a == m + ((q - 1) * m + a);
    }
  }

  /** A commit extends the numbering without a gap. */
  lemma NumbersContinue(log: seq<Observation>, exits: seq<State>, entries: seq<State>, event: Event, source: State, s: Selected)
    requires Consecutive(log)
    ensures Consecutive(log + Observations(Wrap(|log| + 1), exits, entries, event, source, s))
    ensures Wrap(Wrap(|log|) + 1) == Wrap(|log| + 1)
    ensures Wrap(Wrap(|log|) + (|exits| + |entries|)) == Wrap(|log + Observations(Wrap(|log| + 1), exits, entries, event, source, s)|)
  {
    var more := Observations(Wrap(|log| + 1), exits, entries, event, source, s);
    WrapAdds(|log|, 1);
    WrapAdds(|log|, |exits| + |entries|);
    forall k | 0 <= k < |more| ensures more[k].sequence == Wrap(|log| + k + 1) {
      WrapAdds(|log| + 1, k);
    }
  }

  /** The moves of a commit are its exits and then its entries. */
  lemma MovesOfCommit(step: uint64, exits: seq<State>, entries: seq<State>, event: Event, source: State, s: Selected)
    ensures MovesOf(Observations(step, exits, entries, event, source, s)) == Exits(exits) + Entries(entries)
  {
  }

  /** A commit extends the replay of the log from the old lineage to the new one. */
  lemma {:induction false} ReplayContinues(shape: Shape, origin: State, log: seq<Observation>, from: State, to: State, more: seq<Observation>)
    requires shape.Valid() && origin in shape.index && from in shape.index && to in shape.index
    requires Replay(shape, shape.Chain(origin), MovesOf(log)) == Some(shape.Chain(from))
    requires Replay(shape, shape.Chain(from), MovesOf(more)) == Some(shape.Chain(to))
    ensures Replay(shape, shape.Chain(origin), MovesOf(log + more)) == Some(shape.Chain(to))
  {
    ReplayJoins(shape, shape.Chain(origin), MovesOf(log), MovesOf(more));
    assert MovesOf(log + more) == MovesOf(log) + MovesOf(more);
  }

  class Instance {
    const chart: Chart
    const observed: bool
    var state: State
    var inFlight: bool
    var sequence: uint64
    /** Every observation delivered so far, and the state the Instance started in. */
    ghost var log: seq<Observation>
    ghost const origin: State

    /**
     * The active state is a destination, the observations are numbered without
     * gaps, and replaying them leads from the first lineage to the present one.
     */
    ghost predicate Valid()
      reads this
    {
      && chart.Valid() && state in chart.shape.index && origin in chart.shape.index
      && Home(chart, state) == state
      && Consecutive(log) && sequence == Wrap(|log|) && (!observed ==> log == [])
      && (observed ==> Replay(chart.shape, chart.shape.Chain(origin), MovesOf(log)) == Some(chart.shape.Chain(state)))
    }

    constructor (chart: Chart, initial: State, observed: bool)
      requires chart.Valid() && initial in chart.shape.index
      ensures Valid() && this.chart == chart && this.observed == observed
      ensures state == origin == Home(chart, initial) && !inFlight && log == []
    {
      HomeFixed(chart, initial);
      DestinationKnown(chart, initial);
      this.chart, this.observed := chart, observed;
      state, origin := chart.Destination(initial), chart.Destination(initial);
      inFlight, sequence, log := false, 0, [];
    }

    /** newInstance: an undeclared initial state is refused. */
    static method New(chart: Chart, initial: State, observed: bool) returns (i: Instance?)
      requires chart.Valid()
      ensures i == null <==> initial !in chart.shape.index
      ensures i != null ==> fresh(i) && i.Valid() && i.chart == chart && i.observed == observed && i.state == Home(chart, initial) && i.log == []
    {
      if initial !in chart.shape.index {
        return null;
      }
      i := new Instance(chart, initial, observed);
    }

    /** The critical section that publishes a destination. */
    method Commit(event: Event, s: Selected, exits: seq<State>, entries: seq<State>, ghost stop: int)
      requires Valid() && s.destination in chart.shape.index && Home(chart, s.destination) == s.destination && -1 <= stop < |chart.shape.nodes|
      requires Walked(chart.shape, state, s.destination, exits, entries, stop)
      modifies `state, `sequence, `log
      ensures Valid() && state == s.destination
      ensures log == old(log) + if observed then Observations(Wrap(|old(log)| + 1), exits, entries, event, old(state), s) else []
    {
      hide Chart.Valid, Home, Replay, Consecutive, Walked, Observations, Wrap;
      CommitKeeps(chart, origin, log, state, s, exits, entries, event, stop);
      ghost var before, source := log, state;
      state := s.destination;
      var total := |exits| + |entries|;
      if total != 0 && observed {
        var step := Wrap(sequence + 1);
        sequence := Wrap(sequence + total);
        log := log + Observations(step, exits, entries, event, source, s);
      }
    }

    /**
     * Fire. The valuation decides the guards, and `failing` names the action of
     * the plan that returns an error, if any.
     */
    method Fire(event: Event, v: Valuation, failing: nat) returns (r: Outcome, ghost walk: Walk)
      requires Valid()
      modifies `state, `inFlight, `sequence, `log
      ensures Valid()
      ensures old(inFlight) ==> r.InFlight? && inFlight && state == old(state) && log == old(log)
      ensures !old(inFlight) ==> !inFlight && !r.InFlight?
      ensures r.Refused? ==> (forall to :: !Accepts(chart, v, old(state), event, to)) && state == old(state) && log == old(log)
      ensures r.Failed? ==> state == old(state) && log == old(log)
      ensures r.Fired? ==> state == r.destination
      ensures r.Failed? || r.Fired? ==>
        && walk.Walk? && Chose(chart, v, old(state), event, walk.level, walk.selected)
        && var failure := FailureAt(chart, walk.selected.row, walk.exits, walk.entries, failing);
           r == if failure.Some? then failure.value else Fired(walk.selected.destination)
      ensures r.Fired? || r.Failed? ==> forall to :: Accepts(chart, v, old(state), event, to) <==> to == walk.selected.destination
      ensures r.Failed? || r.Fired? ==>
        if walk.selected.row.kind.Internal? then walk.exits == [] && walk.entries == []
        else Routed(chart, old(state), walk.selected, walk.exits, walk.entries, walk.stop)
      ensures r.Fired? ==> log == old(log) + (if observed && !walk.selected.row.kind.Internal?
        then Observations(Wrap(|old(log)| + 1), walk.exits, walk.entries, event, old(state), walk.selected) else [])
    {
      hide Chart.Valid, Replay, Consecutive, Walked, Observations, FailureAt, StopsAt, Home, Accepts, Chose, Leads, Selects, Shape.Chain, Chart.RowsFor;
      walk := Nothing;
      if inFlight {
        return InFlight, walk;
      }
      inFlight := true;
      var source := state;
      var selection, level := SelectTransition(chart, v, source, event);
      if selection.None? {
        NoneAccepted(chart, v, source, event);
        inFlight := false;
        return Refused, walk;
      }
      var s := selection.value;
      ChoseOnly(chart, v, source, event, level, s);
      if s.row.kind.Internal? {
        walk := Walk(s, level, -1, [], []);
        var internal := RunPlan(chart, s.row, [], [], failing);
        inFlight := false;
        FailureFails(chart, s.row, [], [], failing);
        return if internal.Some? then internal.value else Fired(source), walk;
      }
      ExternalWalk(chart, source, s, level, event, v);
      var exits, entries, stop := WalkPaths(chart, source, s);
      walk := Walk(s, level, stop, exits, entries);
      var failure := RunPlan(chart, s.row, exits, entries, failing);
      FailureFails(chart, s.row, exits, entries, failing);
      if failure.None? {
        Commit(event, s, exits, entries, stop);
      }
      inFlight := false;
      r := if failure.Some? then failure.value else Fired(s.destination);
    }
  }

  lemma NoneAccepted(chart: Chart, v: Valuation, source: State, event: Event)
    requires chart.Valid() && source in chart.shape.index
    requires forall k: nat, i: nat :: !Selects(chart, v, source, event, k, i)
    ensures forall to :: !Accepts(chart, v, source, event, to)
  {
    hide Chart.Valid, Lineage, Selects;
  }

  /** What selection accepts is what it chose. */
  lemma ChoseOnly(chart: Chart, v: Valuation, source: State, event: Event, level: nat, s: Selected)
    requires chart.Valid() && source in chart.shape.index && Chose(chart, v, source, event, level, s)
    ensures forall to :: Accepts(chart, v, source, event, to) <==> to == s.destination
    ensures s.row.to in chart.shape.index
    ensures s.row.kind.Internal? ==> s.destination == source
  {
    hide Chart.Valid, Lineage, Selects, Accepts;
    forall to ensures Accepts(chart, v, source, event, to) <==> to == s.destination {
      AcceptsOnly(chart, v, source, event, level, s.index, to);
    }
  }

  /** Exits and entries are the two sides of the path over `stop`. */
  ghost predicate Walked(shape: Shape, source: State, destination: State, exits: seq<State>, entries: seq<State>, stop: int)
    requires shape.Valid() && source in shape.index && destination in shape.index && -1 <= stop < |shape.nodes|
  {
    var p, from, to := shape.Parents(), shape.index[source], shape.index[destination];
    && (stop != -1 ==> stop in Lineage(p, from) && stop in Lineage(p, to))
    && exits == shape.Names(Below(p, from, stop)) && entries == Reversed(shape.Names(Below(p, to, stop)))
  }

  /** Exits and entries are the path of the selected row, over the stop its kind determines. */
  ghost predicate Routed(chart: Chart, source: State, s: Selected, exits: seq<State>, entries: seq<State>, stop: int)
    requires chart.Valid() && source in chart.shape.index
  {
    && s.row.to in chart.shape.index && s.destination in chart.shape.index && -1 <= stop < |chart.shape.nodes|
    && Walked(chart.shape, source, s.destination, exits, entries, stop)
    && StopsAt(chart.shape.Parents(), chart.shape.index[source], chart.shape.index[s.row.to], s.row.kind.Reentry?, stop)
  }

  method WalkPaths(chart: Chart, source: State, s: Selected) returns (exits: seq<State>, entries: seq<State>, ghost stop: int)
    requires chart.Valid() && source in chart.shape.index && s.row.to in chart.shape.index && s.destination in chart.shape.index
    requires chart.shape.index[s.row.to] in Lineage(chart.shape.Parents(), chart.shape.index[s.destination])
    requires s.row.kind.Reentry? ==> chart.shape.index[s.row.to] in Lineage(chart.shape.Parents(), chart.shape.index[source])
    ensures Routed(chart, source, s, exits, entries, stop)
  {
    exits, entries, stop := Paths(chart.shape, source, s.row.to, s.destination, s.row.kind.Reentry?);
  }

  lemma FailureFails(chart: Chart, row: Transition, exits: seq<State>, entries: seq<State>, failing: nat)
    ensures FailureAt(chart, row, exits, entries, failing).Some? ==> FailureAt(chart, row, exits, entries, failing).value.Failed?
  {
  }

  /** What a commit keeps of an Instance that is observed, and its numbers. */
  lemma CommitKeeps(chart: Chart, origin: State, log: seq<Observation>, state: State, s: Selected,
                    exits: seq<State>, entries: seq<State>, event: Event, stop: int)
    requires chart.Valid() && origin in chart.shape.index && state in chart.shape.index && s.destination in chart.shape.index
    requires -1 <= stop < |chart.shape.nodes| && Walked(chart.shape, state, s.destination, exits, entries, stop)
    requires Consecutive(log)
    ensures var step := Wrap(Wrap(|log|) + 1);
      var log' := log + Observations(step, exits, entries, event, state, s);
      && step == Wrap(|log| + 1) && Consecutive(log') && Wrap(Wrap(|log|) + (|exits| + |entries|)) == Wrap(|log'|)
      && (exits == [] && entries == [] ==> log' == log)
      && (Replay(chart.shape, chart.shape.Chain(origin), MovesOf(log)) == Some(chart.shape.Chain(state)) ==>
            Replay(chart.shape, chart.shape.Chain(origin), MovesOf(log')) == Some(chart.shape.Chain(s.destination)))
  {
    hide Replay, Consecutive, Wrap;
    var more := Observations(Wrap(|log| + 1), exits, entries, event, state, s);
    NumbersContinue(log, exits, entries, event, state, s);
    MovesOfCommit(Wrap(|log| + 1), exits, entries, event, state, s);
    PathReplay(chart.shape, state, s.destination, stop);
    if Replay(chart.shape, chart.shape.Chain(origin), MovesOf(log)) == Some(chart.shape.Chain(state)) {
      ReplayContinues(chart.shape, origin, log, state, s.destination, more);
    }
  }

  /** What a selected External or Reentry row guarantees about its path. */
  lemma ExternalWalk(chart: Chart, source: State, s: Selected, level: nat, event: Event, v: Valuation)
    requires chart.Valid() && source in chart.shape.index && Chose(chart, v, source, event, level, s) && !s.row.kind.Internal?
    ensures s.destination in chart.shape.index && Home(chart, s.destination) == s.destination
    ensures chart.shape.index[s.row.to] in Lineage(chart.shape.Parents(), chart.shape.index[s.destination])
    ensures s.row.kind.Reentry? ==> chart.shape.index[s.row.to] in Lineage(chart.shape.Parents(), chart.shape.index[source])
  {
    HomeFixed(chart, s.row.to);
    ChainAt(chart.shape, source, level);
    assert chart.rows[Key(s.handler, event)][s.index] == s.row;
    assert chart.shape.Numbered(Lineage(chart.shape.Parents(), chart.shape.index[source])[level]);
  }
}
