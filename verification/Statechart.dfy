/**
 * A compiled chart and the queries on it: selection, permitted events, and the
 * statically possible arrows. A guard's verdict is part of a valuation.
 */
module Statechart {
  import opened Basics
  import opened Hierarchy
  import opened Shape

  type Event = nat

  datatype Kind = External | Internal | Reentry | Unknown

  datatype Transition = Transition(from: State, event: Event, to: State, kind: Kind, guarded: bool, effect: bool)

  datatype Key = Key(state: State, event: Event)

  /** The lifecycle actions of a state, in order; false stands for a nil action. */
  datatype Actions = Actions(entry: seq<bool>, exit: seq<bool>)

  /** Which guards apply: the row `index` of `key`. */
  datatype Guarded = Guarded(key: Key, index: nat)

  type Valuation = iset<Guarded>

  datatype Chart = Chart(
    shape: Shape, actions: map<State, Actions>, rows: map<Key, seq<Transition>>, events: map<State, seq<Event>>)
  {
    function RowsFor(state: State, event: Event): seq<Transition> {
      if Key(state, event) in rows then rows[Key(state, event)] else []
    }

    function EventsOf(state: State): seq<Event> {
      if state in events then events[state] else []
    }

    /** What compilation guarantees besides the numbers of the shape. */
    ghost predicate Valid() {
      && shape.Valid()
      && (forall s | s in shape.index :: s in actions)
      && (forall key, i {:trigger rows[key][i]} | key in rows && 0 <= i < |rows[key]| ::
            var row := rows[key][i];
            && key.state in shape.index && row.from == key.state && row.event == key.event && row.to in shape.index
            && (row.kind.External? || row.kind.Internal? || row.kind.Reentry?)
            && (row.kind.External? <==> row.from != row.to))
      && (forall s, e :: e in EventsOf(s) <==> RowsFor(s, e) != [])
    }

    function Destination(state: State): State
      requires state in shape.index && 0 <= shape.index[state] < |shape.nodes|
      requires 0 <= shape.nodes[shape.index[state]].destination < |shape.nodes|
    {
      shape.nodes[shape.nodes[shape.index[state]].destination].state
    }
  }

  /** The chosen row, by handler and index, and where it leads. */
  datatype Selected = Selected(handler: State, index: nat, row: Transition, destination: State)

  predicate Applies(v: Valuation, row: Transition, index: nat) {
    !row.guarded || Guarded(Key(row.from, row.event), index) in v
  }

  /** No row of `handler` before `n` applies. */
  ghost predicate DeclinedUpTo(chart: Chart, v: Valuation, handler: State, event: Event, n: nat) {
    forall i | 0 <= i < n && i < |chart.RowsFor(handler, event)| :: !Applies(v, chart.RowsFor(handler, event)[i], i)
  }

  /** No row of the first `n` states of the chain applies. */
  ghost predicate SilentUpTo(chart: Chart, v: Valuation, chain: seq<State>, event: Event, n: nat) {
    forall k | 0 <= k < n && k < |chain| :: DeclinedUpTo(chart, v, chain[k], event, |chart.RowsFor(chain[k], event)|)
  }

  /** Row `index` of the `k`th active state is the first that applies, nearest handler first. */
  ghost predicate Selects(chart: Chart, v: Valuation, source: State, event: Event, k: nat, index: nat)
    requires chart.Valid() && source in chart.shape.index
  {
    var chain := chart.shape.Chain(source);
    && k < |chain| && index < |chart.RowsFor(chain[k], event)|
    && Applies(v, chart.RowsFor(chain[k], event)[index], index)
    && DeclinedUpTo(chart, v, chain[k], event, index)
    && SilentUpTo(chart, v, chain, event, k)
  }

  lemma SelectsUnique(chart: Chart, v: Valuation, source: State, event: Event, k: nat, i: nat, l: nat, j: nat)
    requires chart.Valid() && source in chart.shape.index
    requires Selects(chart, v, source, event, k, i) && Selects(chart, v, source, event, l, j)
    ensures k == l && i == j
  {
  }

  lemma DestinationKnown(chart: Chart, s: State)
    requires chart.Valid() && s in chart.shape.index
    ensures 0 <= chart.shape.index[s] < |chart.shape.nodes|
    ensures 0 <= chart.shape.nodes[chart.shape.index[s]].destination < |chart.shape.nodes|
    ensures var d := chart.Destination(s);
      && d in chart.shape.index && chart.shape.index[d] == chart.shape.nodes[chart.shape.index[s]].destination
      && chart.shape.index[s] in Lineage(chart.shape.Parents(), chart.shape.index[d])
  {
    var i := chart.shape.index[s];
    assert chart.shape.Settles(i);
    assert chart.shape.Numbered(chart.shape.nodes[i].destination);
  }

  /** The destination of `s`, a declared state. */
  ghost function Home(chart: Chart, s: State): (d: State)
    requires chart.Valid() && s in chart.shape.index
    ensures d in chart.shape.index && chart.shape.index[s] in Lineage(chart.shape.Parents(), chart.shape.index[d])
  {
    DestinationKnown(chart, s);
    chart.Destination(s)
  }

  /** Destinations are their own destinations. */
  lemma HomeFixed(chart: Chart, s: State)
    requires chart.Valid() && s in chart.shape.index
    ensures Home(chart, Home(chart, s)) == Home(chart, s)
  {
    DestinationKnown(chart, s);
    assert chart.shape.Settles(chart.shape.index[s]);
  }

  /** Where a selected row leads: Internal rows stay, others go to the destination of their target. */
  ghost function Leads(chart: Chart, source: State, row: Transition): State
    requires chart.Valid() && row.to in chart.shape.index
  {
    if row.kind.Internal? then source else Home(chart, row.to)
  }

  /** Rows of one handler in declaration order: the first that applies. */
  method SelectRow(chart: Chart, v: Valuation, handler: State, event: Event) returns (found: bool, index: nat)
    ensures found ==> index < |chart.RowsFor(handler, event)| && Applies(v, chart.RowsFor(handler, event)[index], index)
    ensures found ==> DeclinedUpTo(chart, v, handler, event, index)
    ensures !found ==> DeclinedUpTo(chart, v, handler, event, |chart.RowsFor(handler, event)|)
  {
    index := 0;
    while index < |chart.RowsFor(handler, event)|
      invariant index <= |chart.RowsFor(handler, event)| && DeclinedUpTo(chart, v, handler, event, index)
    {
      if Applies(v, chart.RowsFor(handler, event)[index], index) {
        return true, index;
      }
      index := index + 1;
    }
    found := false;
  }

  lemma ChainAt(shape: Shape, source: State, k: nat)
    requires shape.Valid() && source in shape.index && k < |shape.Chain(source)|
    ensures var line := Lineage(shape.Parents(), shape.index[source]);
      && |line| == |shape.Chain(source)| && 0 <= line[k] < |shape.nodes| && shape.Chain(source)[k] == shape.nodes[line[k]].state
      && shape.Chain(source)[k] in shape.index
      && shape.nodes[line[k]].parent == (if k + 1 < |line| then line[k + 1] else -1)
  {
    var line := Lineage(shape.Parents(), shape.index[source]);
    LineageStep(shape.Parents(), shape.index[source], k);
    assert shape.Numbered(line[k]);
  }

  /** `s` is the first applicable row, found at the `level`th active state, and where it leads. */
  ghost predicate Chose(chart: Chart, v: Valuation, source: State, event: Event, level: nat, s: Selected)
    requires chart.Valid() && source in chart.shape.index
  {
    && Selects(chart, v, source, event, level, s.index)
    && s.handler == chart.shape.Chain(source)[level] && s.row == chart.RowsFor(s.handler, event)[s.index]
    && s.row.to in chart.shape.index && s.destination == Leads(chart, source, s.row)
  }

  /** selectTransition: walks the active lineage from the source, and each state's rows in order. */
  method SelectTransition(chart: Chart, v: Valuation, source: State, event: Event) returns (r: Option<Selected>, ghost level: nat)
    requires chart.Valid() && source in chart.shape.index
    ensures r.Some? ==> Chose(chart, v, source, event, level, r.value)
    ensures r.None? ==> forall k: nat, i: nat :: !Selects(chart, v, source, event, k, i)
  {
    ghost var line := Lineage(chart.shape.Parents(), chart.shape.index[source]);
    ghost var chain := chart.shape.Chain(source);
    var index := chart.shape.index[source];
    level := 0;
    while index != -1
      invariant level <= |chain| == |line| && index == if level < |line| then line[level] else -1
      invariant SilentUpTo(chart, v, chain, event, level)
      decreases |line| - level
    {
      ChainAt(chart.shape, source, level);
      var state := chart.shape.nodes[index].state;
      var found, i := SelectRow(chart, v, state, event);
      if found {
        var row := chart.RowsFor(state, event)[i];
        assert chart.rows[Key(state, event)][i] == row;
        var destination := source;
        if !row.kind.Internal? {
          DestinationKnown(chart, row.to);
          destination := chart.Destination(row.to);
        }
        return Some(Selected(state, i, row, destination)), level;
      }
      index := chart.shape.nodes[index].parent;
      level := level + 1;
    }
    r := None;
  }

  // ------------------------------------------------------------ permitted

  /** Fire with this event would select a row that leads to `to`. */
  ghost predicate Accepts(chart: Chart, v: Valuation, source: State, event: Event, to: State)
    requires chart.Valid() && source in chart.shape.index
  {
    exists k: nat, i: nat ::
      && Selects(chart, v, source, event, k, i)
      && chart.RowsFor(chart.shape.Chain(source)[k], event)[i].to in chart.shape.index
      && to == Leads(chart, source, chart.RowsFor(chart.shape.Chain(source)[k], event)[i])
  }

  datatype Permit = Permit(event: Event, to: State)

  /** The permits gathered so far: one for each seen event that is accepted. */
  ghost predicate Gathered(chart: Chart, v: Valuation, source: State, seen: set<Event>, permits: seq<Permit>)
    requires chart.Valid() && source in chart.shape.index
  {
    && (forall i, j | 0 <= i < j < |permits| :: permits[i].event != permits[j].event)
    && (forall p | p in permits :: p.event in seen)
    && (forall e, to | e in seen :: Permit(e, to) in permits <==> Accepts(chart, v, source, e, to))
  }

  /** A selected event is declared on some active state. */
  lemma SelectedIsDeclared(chart: Chart, v: Valuation, source: State, event: Event, to: State)
    requires chart.Valid() && source in chart.shape.index && Accepts(chart, v, source, event, to)
    ensures exists k :: 0 <= k < |chart.shape.Chain(source)| && event in chart.EventsOf(chart.shape.Chain(source)[k])
  {
    var k: nat, i: nat :| Selects(chart, v, source, event, k, i);
    assert chart.RowsFor(chart.shape.Chain(source)[k], event) != [];
  }

  lemma AcceptsOnly(chart: Chart, v: Valuation, source: State, event: Event, level: nat, index: nat, to: State)
    requires chart.Valid() && source in chart.shape.index && Selects(chart, v, source, event, level, index)
    requires chart.RowsFor(chart.shape.Chain(source)[level], event)[index].to in chart.shape.index
    ensures Accepts(chart, v, source, event, to) <==> to == Leads(chart, source, chart.RowsFor(chart.shape.Chain(source)[level], event)[index])
  {
    hide Lineage, Depth, Enter, Exit, Leads, SilentUpTo, DeclinedUpTo;
    forall k: nat, i: nat | Selects(chart, v, source, event, k, i) ensures k == level && i == index {
      SelectsUnique(chart, v, source, event, k, i, level, index);
    }
  }

  lemma AcceptsNothing(chart: Chart, v: Valuation, source: State, event: Event, to: State)
    requires chart.Valid() && source in chart.shape.index && forall k: nat, i: nat :: !Selects(chart, v, source, event, k, i)
    ensures !Accepts(chart, v, source, event, to)
  {
  }

  lemma GatherOne(chart: Chart, v: Valuation, source: State, event: Event, seen: set<Event>, permits: seq<Permit>, r: Option<Selected>, level: nat)
    requires chart.Valid() && source in chart.shape.index && Gathered(chart, v, source, seen, permits) && event !in seen
    requires r.Some? ==> Chose(chart, v, source, event, level, r.value)
    requires r.None? ==> forall k: nat, i: nat :: !Selects(chart, v, source, event, k, i)
    ensures Gathered(chart, v, source, seen + {event}, if r.Some? then permits + [Permit(event, r.value.destination)] else permits)
  {
    hide Selects, Accepts, Lineage, Depth, Enter, Exit, Leads;
    var more := if r.Some? then permits + [Permit(event, r.value.destination)] else permits;
    forall to ensures Permit(event, to) in more <==> Accepts(chart, v, source, event, to) {
      if r.Some? {
        AcceptsOnly(chart, v, source, event, level, r.value.index, to);
      } else {
        AcceptsNothing(chart, v, source, event, to);
      }
    }
    forall e, to | e in seen ensures Permit(e, to) in more <==> Permit(e, to) in permits {}
  }

  /** The events first declared on one active state. */
  method PermittedAt(chart: Chart, v: Valuation, source: State, state: State, seen0: set<Event>, permits0: seq<Permit>)
    returns (seen: set<Event>, permits: seq<Permit>)
    requires chart.Valid() && source in chart.shape.index && Gathered(chart, v, source, seen0, permits0)
    ensures Gathered(chart, v, source, seen, permits) && seen0 <= seen
    ensures forall e | e in chart.EventsOf(state) :: e in seen
  {
    hide Gathered;
    seen, permits := seen0, permits0;
    var events := chart.EventsOf(state);
    for n := 0 to |events|
      invariant Gathered(chart, v, source, seen, permits) && seen0 <= seen
      invariant forall m | 0 <= m < n :: events[m] in seen
    {
      if events[n] !in seen {
        var r, at := SelectTransition(chart, v, source, events[n]);
        GatherOne(chart, v, source, events[n], seen, permits, r, at);
        seen := seen + {events[n]};
        if r.Some? {
          permits := permits + [Permit(events[n], r.value.destination)];
        }
      }
    }
  }

  lemma NothingGathered(chart: Chart, v: Valuation, source: State)
    requires chart.Valid() && source in chart.shape.index
    ensures Gathered(chart, v, source, {}, [])
  {
  }

  lemma AllGathered(chart: Chart, v: Valuation, source: State, seen: set<Event>, permits: seq<Permit>)
    requires chart.Valid() && source in chart.shape.index && Gathered(chart, v, source, seen, permits)
    requires forall l, e | 0 <= l < |chart.shape.Chain(source)| && e in chart.EventsOf(chart.shape.Chain(source)[l]) :: e in seen
    ensures forall i, j | 0 <= i < j < |permits| :: permits[i].event != permits[j].event
    ensures forall e, to :: Permit(e, to) in permits <==> Accepts(chart, v, source, e, to)
  {
    forall e, to ensures Permit(e, to) in permits <==> Accepts(chart, v, source, e, to) {
      if Accepts(chart, v, source, e, to) {
        SelectedIsDeclared(chart, v, source, e, to);
      }
    }
  }

  /** Permitted: exactly the events Fire accepts, each once, each with the state it would commit. */
  method Permitted(chart: Chart, v: Valuation, source: State) returns (permits: seq<Permit>)
    requires chart.Valid() && source in chart.shape.index
    ensures forall i, j | 0 <= i < j < |permits| :: permits[i].event != permits[j].event
    ensures forall e, to :: Permit(e, to) in permits <==> Accepts(chart, v, source, e, to)
  {
    hide Gathered, Accepts, Lineage, Depth, Enter, Exit;
    ghost var chain := chart.shape.Chain(source);
    ghost var line := Lineage(chart.shape.Parents(), chart.shape.index[source]);
    var seen: set<Event>, index := {}, chart.shape.index[source];
    ghost var level := 0;
    permits := [];
    NothingGathered(chart, v, source);
    while index != -1
      invariant 0 <= level <= |chain| == |line| && index == if level < |line| then line[level] else -1
      invariant Gathered(chart, v, source, seen, permits)
      invariant forall l, e | 0 <= l < level && e in chart.EventsOf(chain[l]) :: e in seen
      decreases |chain| - level
    {
      ChainAt(chart.shape, source, level);
      seen, permits := PermittedAt(chart, v, source, chart.shape.nodes[index].state, seen, permits);
      index := chart.shape.nodes[index].parent;
      level := level + 1;
    }
    AllGathered(chart, v, source, seen, permits);
  }

  // --------------------------------------------------------------- arrows

  datatype Arrow = Arrow(source: State, handler: State, target: State, destination: State, event: Event, kind: Kind, guarded: bool)

  /** A row by its level above the source, its event and its index. */
  datatype Pick = Pick(level: nat, event: Event, index: nat)

  /** Every row considered before this one has a guard, which may decline. */
  ghost predicate Exposed(chart: Chart, source: State, pick: Pick)
    requires chart.Valid() && source in chart.shape.index
  {
    var chain := chart.shape.Chain(source);
    && pick.level < |chain| && pick.index < |chart.RowsFor(chain[pick.level], pick.event)|
    && (forall i | 0 <= i < pick.index :: chart.RowsFor(chain[pick.level], pick.event)[i].guarded)
    && (forall k, i | 0 <= k < pick.level && 0 <= i < |chart.RowsFor(chain[k], pick.event)| ::
          chart.RowsFor(chain[k], pick.event)[i].guarded)
  }

  lemma ChainDistinct(shape: Shape, source: State, j: nat, k: nat)
    requires shape.Valid() && source in shape.index && j < k < |shape.Chain(source)|
    ensures shape.Chain(source)[j] != shape.Chain(source)[k]
  {
    LineageDistinct(shape.Parents(), shape.index[source], j, k);
    ChainAt(shape, source, j);
    ChainAt(shape, source, k);
    var line := Lineage(shape.Parents(), shape.index[source]);
    NamesApart(shape, line[j], line[k]);
  }

  /** A row is exposed exactly when some valuation of the guards selects it. */
  lemma ExposedIsSelectable(chart: Chart, source: State, pick: Pick)
    requires chart.Valid() && source in chart.shape.index
    ensures Exposed(chart, source, pick) <==> exists v :: Selects(chart, v, source, pick.event, pick.level, pick.index)
  {
    var chain := chart.shape.Chain(source);
    if Exposed(chart, source, pick) {
      var key := Key(chain[pick.level], pick.event);
      var v: Valuation := iset{Guarded(key, pick.index)};
      assert chart.rows[key][pick.index].from == key.state;
      forall i | 0 <= i < pick.index ensures !Applies(v, chart.RowsFor(chain[pick.level], pick.event)[i], i) {
        assert chart.rows[key][i].guarded;
      }
      forall k, i | 0 <= k < pick.level && 0 <= i < |chart.RowsFor(chain[k], pick.event)|
        ensures !Applies(v, chart.RowsFor(chain[k], pick.event)[i], i)
      {
        ChainDistinct(chart.shape, source, k, pick.level);
        assert chart.rows[Key(chain[k], pick.event)][i].from == chain[k];
      }
      assert Selects(chart, v, source, pick.event, pick.level, pick.index);
    }
  }

  ghost function ArrowOf(chart: Chart, source: State, pick: Pick): Arrow
    requires chart.Valid() && source in chart.shape.index && Exposed(chart, source, pick)
  {
    var handler := chart.shape.Chain(source)[pick.level];
    var row := chart.RowsFor(handler, pick.event)[pick.index];
    assert chart.rows[Key(handler, pick.event)][pick.index] == row;
    Arrow(source, handler, row.to, Leads(chart, source, row), pick.event, row.kind, row.guarded)
  }

  /** `arrows` shows exactly the rows of `picks`. */
  ghost predicate Shows(chart: Chart, source: State, picks: seq<Pick>, arrows: seq<Arrow>)
    requires chart.Valid() && source in chart.shape.index
  {
    && |picks| == |arrows|
    && (forall i, j | 0 <= i < j < |picks| :: picks[i] != picks[j])
    && (forall n | 0 <= n < |picks| :: Exposed(chart, source, picks[n]) && arrows[n] == ArrowOf(chart, source, picks[n]))
  }

  /** `picks` are the exposed rows of `event` up to row `n` of level `level`. */
  ghost predicate PickedUpTo(chart: Chart, source: State, event: Event, picks: seq<Pick>, level: nat, n: nat)
    requires chart.Valid() && source in chart.shape.index
  {
    && (forall i, j | 0 <= i < j < |picks| :: picks[i] != picks[j])
    && (forall pick: Pick :: pick in picks <==>
          pick.event == event && Exposed(chart, source, pick) && (pick.level < level || (pick.level == level && pick.index < n)))
  }

  /** All rows before row `n` of level `level` have guards. */
  ghost predicate GuardedUpTo(chart: Chart, source: State, event: Event, level: nat, n: nat)
    requires chart.Valid() && source in chart.shape.index
  {
    var chain := chart.shape.Chain(source);
    && (forall k, i | 0 <= k < level && k < |chain| && 0 <= i < |chart.RowsFor(chain[k], event)| :: chart.RowsFor(chain[k], event)[i].guarded)
    && (level < |chain| ==> forall i | 0 <= i < n && i < |chart.RowsFor(chain[level], event)| :: chart.RowsFor(chain[level], event)[i].guarded)
  }

  lemma PickNext(chart: Chart, source: State, event: Event, picks: seq<Pick>, level: nat, n: nat)
    requires chart.Valid() && source in chart.shape.index && level < |chart.shape.Chain(source)|
    requires n < |chart.RowsFor(chart.shape.Chain(source)[level], event)|
    requires PickedUpTo(chart, source, event, picks, level, n) && GuardedUpTo(chart, source, event, level, n)
    ensures Exposed(chart, source, Pick(level, event, n))
    ensures PickedUpTo(chart, source, event, picks + [Pick(level, event, n)], level, n + 1)
  {
    var next := Pick(level, event, n);
    var more := picks + [next];
    forall pick: Pick ensures pick in more <==> pick in picks || pick == next {}
  }

  /** Behind a row without a guard nothing is exposed. */
  lemma NothingBehind(chart: Chart, source: State, event: Event, picks: seq<Pick>, level: nat, n: nat)
    requires chart.Valid() && source in chart.shape.index && level < |chart.shape.Chain(source)|
    requires n < |chart.RowsFor(chart.shape.Chain(source)[level], event)|
    requires !chart.RowsFor(chart.shape.Chain(source)[level], event)[n].guarded
    requires PickedUpTo(chart, source, event, picks, level, n + 1)
    ensures forall pick: Pick :: pick in picks <==> pick.event == event && Exposed(chart, source, pick)
  {
  }

  lemma LevelDone(chart: Chart, source: State, event: Event, picks: seq<Pick>, level: nat, n: nat)
    requires chart.Valid() && source in chart.shape.index && level < |chart.shape.Chain(source)|
    requires n == |chart.RowsFor(chart.shape.Chain(source)[level], event)|
    requires PickedUpTo(chart, source, event, picks, level, n) && GuardedUpTo(chart, source, event, level, n)
    ensures PickedUpTo(chart, source, event, picks, level + 1, 0) && GuardedUpTo(chart, source, event, level + 1, 0)
  {
  }

  /** arrowsForEvent: the rows of one event, nearest handler first, up to the first one without a guard. */
  method ArrowsForEvent(chart: Chart, source: State, event: Event) returns (arrows: seq<Arrow>, ghost picks: seq<Pick>)
    requires chart.Valid() && source in chart.shape.index
    ensures Shows(chart, source, picks, arrows)
    ensures forall pick: Pick :: pick in picks <==> pick.event == event && Exposed(chart, source, pick)
  {
    hide Exposed, Lineage, Depth, Enter, Exit;
    ghost var chain := chart.shape.Chain(source);
    ghost var line := Lineage(chart.shape.Parents(), chart.shape.index[source]);
    var index := chart.shape.index[source];
    ghost var level := 0;
    arrows, picks := [], [];
    NothingPicked(chart, source, event);
    while index != -1
      invariant 0 <= level <= |chain| == |line| && index == if level < |line| then line[level] else -1
      invariant Shows(chart, source, picks, arrows)
      invariant PickedUpTo(chart, source, event, picks, level, 0) && GuardedUpTo(chart, source, event, level, 0)
      decreases |chain| - level
    {
      ChainAt(chart.shape, source, level);
      var handler := chart.shape.nodes[index].state;
      var rows := chart.RowsFor(handler, event);
      for n := 0 to |rows|
        invariant Shows(chart, source, picks, arrows)
        invariant PickedUpTo(chart, source, event, picks, level, n) && GuardedUpTo(chart, source, event, level, n)
      {
        PickNext(chart, source, event, picks, level, n);
        assert chart.rows[Key(handler, event)][n] == rows[n];
        var destination := source;
        if !rows[n].kind.Internal? {
          DestinationKnown(chart, rows[n].to);
          destination := chart.Destination(rows[n].to);
        }
        arrows := arrows + [Arrow(source, handler, rows[n].to, destination, event, rows[n].kind, rows[n].guarded)];
        picks := picks + [Pick(level, event, n)];
        if !rows[n].guarded {
          NothingBehind(chart, source, event, picks, level, n);
          return;
        }
      }
      LevelDone(chart, source, event, picks, level, |rows|);
      index := chart.shape.nodes[index].parent;
      level := level + 1;
    }
    NothingAbove(chart, source, event, picks, level);
  }

  lemma NothingPicked(chart: Chart, source: State, event: Event)
    requires chart.Valid() && source in chart.shape.index
    ensures PickedUpTo(chart, source, event, [], 0, 0) && GuardedUpTo(chart, source, event, 0, 0)
  {
  }

  lemma NothingAbove(chart: Chart, source: State, event: Event, picks: seq<Pick>, level: nat)
    requires chart.Valid() && source in chart.shape.index && level == |chart.shape.Chain(source)|
    requires PickedUpTo(chart, source, event, picks, level, 0)
    ensures forall pick: Pick :: pick in picks <==> pick.event == event && Exposed(chart, source, pick)
  {
  }

  /** All exposed rows of the seen events, each once. */
  ghost predicate Collected(chart: Chart, source: State, seen: set<Event>, picks: seq<Pick>)
    requires chart.Valid() && source in chart.shape.index
  {
    && (forall i, j | 0 <= i < j < |picks| :: picks[i] != picks[j])
    && (forall pick: Pick :: pick in picks <==> pick.event in seen && Exposed(chart, source, pick))
  }

  /** Rows of different events are different. */
  lemma PicksApart(seen: set<Event>, event: Event, picks: seq<Pick>, next: seq<Pick>)
    requires event !in seen && (forall p | p in picks :: p.event in seen) && forall p | p in next :: p.event == event
    requires forall i, j | 0 <= i < j < |picks| :: picks[i] != picks[j]
    requires forall i, j | 0 <= i < j < |next| :: next[i] != next[j]
    ensures forall i, j | 0 <= i < j < |picks + next| :: (picks + next)[i] != (picks + next)[j]
  {
    forall i, j | 0 <= i < j < |picks + next| ensures (picks + next)[i] != (picks + next)[j] {
      if i < |picks| <= j {
        assert picks[i] in picks && next[j - |picks|] in next;
      }
    }
  }

  lemma CollectOne(chart: Chart, source: State, event: Event, seen: set<Event>, picks: seq<Pick>, next: seq<Pick>)
    requires chart.Valid() && source in chart.shape.index && event !in seen && Collected(chart, source, seen, picks)
    requires forall i, j | 0 <= i < j < |next| :: next[i] != next[j]
    requires forall pick: Pick :: pick in next <==> pick.event == event && Exposed(chart, source, pick)
    ensures Collected(chart, source, seen + {event}, picks + next)
    ensures forall i, j | 0 <= i < j < |picks + next| :: (picks + next)[i] != (picks + next)[j]
  {
    hide Exposed;
    PicksApart(seen, event, picks, next);
    forall pick: Pick ensures pick in picks + next <==> pick in picks || pick in next {}
  }

  lemma ShownOnce(chart: Chart, source: State, picks: seq<Pick>, arrows: seq<Arrow>)
    requires chart.Valid() && source in chart.shape.index && Shows(chart, source, picks, arrows)
    ensures forall i, j | 0 <= i < j < |picks| :: picks[i] != picks[j]
  {
  }

  lemma ShowsJoins(chart: Chart, source: State, picks: seq<Pick>, arrows: seq<Arrow>, next: seq<Pick>, more: seq<Arrow>)
    requires chart.Valid() && source in chart.shape.index
    requires Shows(chart, source, picks, arrows) && Shows(chart, source, next, more)
    requires forall i, j | 0 <= i < j < |picks + next| :: (picks + next)[i] != (picks + next)[j]
    ensures Shows(chart, source, picks + next, arrows + more)
  {
    hide Exposed, ArrowOf;
    forall n | 0 <= n < |picks + next|
      ensures Exposed(chart, source, (picks + next)[n]) && (arrows + more)[n] == ArrowOf(chart, source, (picks + next)[n])
    {
      if n < |picks| {
        assert (picks + next)[n] == picks[n];
      } else {
        assert (picks + next)[n] == next[n - |picks|];
      }
    }
  }

  method ArrowsAt(chart: Chart, source: State, state: State, seen0: set<Event>, arrows0: seq<Arrow>, ghost picks0: seq<Pick>)
    returns (seen: set<Event>, arrows: seq<Arrow>, ghost picks: seq<Pick>)
    requires chart.Valid() && source in chart.shape.index && Collected(chart, source, seen0, picks0) && Shows(chart, source, picks0, arrows0)
    ensures Collected(chart, source, seen, picks) && Shows(chart, source, picks, arrows) && seen0 <= seen
    ensures forall e | e in chart.EventsOf(state) :: e in seen
  {
    hide Collected, Shows;
    seen, arrows, picks := seen0, arrows0, picks0;
    var events := chart.EventsOf(state);
    for n := 0 to |events|
      invariant Collected(chart, source, seen, picks) && Shows(chart, source, picks, arrows) && seen0 <= seen
      invariant forall m | 0 <= m < n :: events[m] in seen
    {
      if events[n] !in seen {
        var more, next := ArrowsForEvent(chart, source, events[n]);
        ShownOnce(chart, source, next, more);
        CollectOne(chart, source, events[n], seen, picks, next);
        ShowsJoins(chart, source, picks, arrows, next, more);
        seen, arrows, picks := seen + {events[n]}, arrows + more, picks + next;
      }
    }
  }

  lemma AllCollected(chart: Chart, source: State, seen: set<Event>, picks: seq<Pick>)
    requires chart.Valid() && source in chart.shape.index && Collected(chart, source, seen, picks)
    requires forall l, e | 0 <= l < |chart.shape.Chain(source)| && e in chart.EventsOf(chart.shape.Chain(source)[l]) :: e in seen
    ensures forall pick: Pick :: pick in picks <==> exists v :: Selects(chart, v, source, pick.event, pick.level, pick.index)
  {
    forall pick: Pick ensures pick in picks <==> exists v :: Selects(chart, v, source, pick.event, pick.level, pick.index) {
      ExposedIsSelectable(chart, source, pick);
      if Exposed(chart, source, pick) {
        assert chart.RowsFor(chart.shape.Chain(source)[pick.level], pick.event) != [];
      }
    }
  }

  lemma NothingCollected(chart: Chart, source: State)
    requires chart.Valid() && source in chart.shape.index
    ensures Collected(chart, source, {}, []) && Shows(chart, source, [], [])
  {
  }

  /** Arrows: exactly the rows that some valuation of the guards selects from this source, each once; none from an undeclared one. */
  method Arrows(chart: Chart, source: State) returns (arrows: seq<Arrow>, ghost picks: seq<Pick>)
    requires chart.Valid()
    ensures source !in chart.shape.index ==> arrows == []
    ensures source in chart.shape.index ==>
      && Shows(chart, source, picks, arrows)
      && forall pick: Pick :: pick in picks <==> exists v :: Selects(chart, v, source, pick.event, pick.level, pick.index)
  {
    if source !in chart.shape.index {
      return [], [];
    }
    hide Collected, Shows, Selects, Lineage, Depth, Enter, Exit;
    ghost var chain := chart.shape.Chain(source);
    ghost var line := Lineage(chart.shape.Parents(), chart.shape.index[source]);
    var seen: set<Event>, index := {}, chart.shape.index[source];
    ghost var level := 0;
    arrows, picks := [], [];
    NothingCollected(chart, source);
    while index != -1
      invariant 0 <= level <= |chain| == |line| && index == if level < |line| then line[level] else -1
      invariant Collected(chart, source, seen, picks) && Shows(chart, source, picks, arrows)
      invariant forall l, e | 0 <= l < level && e in chart.EventsOf(chain[l]) :: e in seen
      decreases |chain| - level
    {
      ChainAt(chart.shape, source, level);
      seen, arrows, picks := ArrowsAt(chart, source, chart.shape.nodes[index].state, seen, arrows, picks);
      index := chart.shape.nodes[index].parent;
      level := level + 1;
    }
    AllCollected(chart, source, seen, picks);
  }
}
