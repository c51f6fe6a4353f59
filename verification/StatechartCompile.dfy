/**
 * Compile: every section of a definition is checked in a loop of its own, and a
 * chart comes out exactly when the definition is well formed.
 */
module StatechartCompile {
  import opened Basics
  import opened Hierarchy
  import opened Shape
  import opened HierarchyCycles
  import opened Statechart

  datatype StateDecl = StateDecl(name: State, entry: seq<bool>, exit: seq<bool>)
  datatype Substate = Substate(child: State, parent: State)
  datatype Initial = Initial(parent: State, child: State)
  datatype Definition = Definition(
    states: seq<StateDecl>, substates: seq<Substate>, initials: seq<Initial>, transitions: seq<Transition>)

  // ------------------------------------------------------ well-formedness

  ghost predicate StatesOnce(states: seq<StateDecl>) {
    forall i, j | 0 <= i < j < |states| :: states[i].name != states[j].name
  }

  ghost predicate SubstatesFine(order: seq<State>, edges: seq<Substate>) {
    && (forall i | 0 <= i < |edges| :: edges[i].child in order && edges[i].parent in order && edges[i].child != edges[i].parent)
    && (forall i, j | 0 <= i < j < |edges| :: edges[i].child != edges[j].child)
  }

  /** The links that the edges declare. */
  ghost predicate ParentsOf(edges: seq<Substate>, parents: map<State, State>) {
    && (forall i | 0 <= i < |edges| :: edges[i].child in parents && parents[edges[i].child] == edges[i].parent)
    && (forall s | s in parents :: exists i :: 0 <= i < |edges| && edges[i].child == s)
  }

  ghost predicate InitialsFine(order: seq<State>, parents: map<State, State>, edges: seq<Initial>) {
    && (forall i | 0 <= i < |edges| ::
          edges[i].parent in order && edges[i].child in order && edges[i].child in parents && parents[edges[i].child] == edges[i].parent)
    && (forall i, j | 0 <= i < j < |edges| :: edges[i].parent != edges[j].parent)
  }

  ghost predicate InitialsOf(edges: seq<Initial>, initials: map<State, State>) {
    && (forall i | 0 <= i < |edges| :: edges[i].parent in initials && initials[edges[i].parent] == edges[i].child)
    && (forall s | s in initials :: exists i :: 0 <= i < |edges| && edges[i].parent == s)
  }

  predicate KindFits(t: Transition) {
    match t.kind
    case External => t.from != t.to
    case Internal => t.from == t.to
    case Reentry => t.from == t.to
    case Unknown => false
  }

  /** Declared ends, a fitting kind, and no earlier row with the same key and no guard. */
  ghost predicate TransitionsFine(order: seq<State>, ts: seq<Transition>) {
    && (forall i | 0 <= i < |ts| :: ts[i].from in order && ts[i].to in order && KindFits(ts[i]))
    && (forall i, j | 0 <= i < j < |ts| && ts[i].from == ts[j].from && ts[i].event == ts[j].event :: ts[i].guarded)
  }

  function NamesOf(states: seq<StateDecl>): seq<State> {
    seq(|states|, i requires 0 <= i < |states| => states[i].name)
  }

  /** The declared well-formedness, section by section. */
  ghost predicate WellFormed(d: Definition) {
    var order := NamesOf(d.states);
    && StatesOnce(d.states) && SubstatesFine(order, d.substates)
    && (exists parents ::
          && ParentsOf(d.substates, parents) && (forall s | s in parents :: parents[s] in order)
          && Forest(Linked(order, parents)) && InitialsFine(order, parents, d.initials))
    && TransitionsFine(order, d.transitions)
  }

  /** The rows of one key, in declaration order. */
  ghost function RowsOf(ts: seq<Transition>, key: Key): seq<Transition> {
    if ts == [] then [] else
      var n := |ts| - 1;
      RowsOf(ts[..n], key) + if Key(ts[n].from, ts[n].event) == key then [ts[n]] else []
  }

  ghost predicate ActionsOf(states: seq<StateDecl>, actions: map<State, Actions>) {
    forall i | 0 <= i < |states| :: states[i].name in actions && actions[states[i].name] == Actions(states[i].entry, states[i].exit)
  }

  // ------------------------------------------------------------- sections

  method CheckStates(states: seq<StateDecl>) returns (problems: nat, order: seq<State>, actions: map<State, Actions>)
    ensures problems == 0 <==> StatesOnce(states)
    ensures Once(order) && actions.Keys == Set(order)
    ensures problems == 0 ==> order == NamesOf(states) && ActionsOf(states, actions)
  {
    problems, order, actions := 0, [], map[];
    for i := 0 to |states|
      invariant Once(order) && actions.Keys == Set(order)
      invariant forall j | 0 <= j < i :: states[j].name in order
      invariant problems == 0 <==> StatesOnce(states[..i])
      invariant problems == 0 ==> order == NamesOf(states[..i]) && ActionsOf(states[..i], actions)
    {
      assert states[..i + 1] == states[..i] + [states[i]];
      if states[i].name in order {
        if problems == 0 {
          var k :| 0 <= k < |order| && order[k] == states[i].name;
          assert states[..i + 1][k].name == states[..i + 1][i].name;
        }
        problems := problems + 1;
      } else {
        order := order + [states[i].name];
        actions := actions[states[i].name := Actions(states[i].entry, states[i].exit)];
      }
    }
    assert states[..|states|] == states;
  }

  lemma SubstatesPrefix(order: seq<State>, edges: seq<Substate>, i: nat)
    requires i < |edges|
    ensures SubstatesFine(order, edges[..i + 1]) <==>
      && SubstatesFine(order, edges[..i]) && edges[i].child in order && edges[i].parent in order && edges[i].child != edges[i].parent
      && forall j | 0 <= j < i :: edges[j].child != edges[i].child
  {
    var all, init := edges[..i + 1], edges[..i];
    assert forall j | 0 <= j < i :: all[j] == init[j] == edges[j];
    assert all[i] == edges[i];
  }

  lemma NoParents(order: seq<State>)
    ensures ParentsOf([], map[]) && SubstatesFine(order, [])
  {
  }

  lemma ParentsNext(edges: seq<Substate>, i: nat, parents: map<State, State>)
    requires i < |edges| && ParentsOf(edges[..i], parents) && edges[i].child !in parents
    ensures ParentsOf(edges[..i + 1], parents[edges[i].child := edges[i].parent])
    ensures forall j | 0 <= j < i :: edges[j].child != edges[i].child
  {
    var all, init := edges[..i + 1], edges[..i];
    assert all[i] == edges[i] && forall j | 0 <= j < i :: all[j] == init[j] == edges[j];
  }

  method CheckSubstates(order: seq<State>, edges: seq<Substate>) returns (problems: nat, parents: map<State, State>)
    ensures problems == 0 <==> SubstatesFine(order, edges)
    ensures Within(order, parents)
    ensures problems == 0 ==> ParentsOf(edges, parents)
  {
    hide SubstatesFine, ParentsOf;
    problems, parents := 0, map[];
    NoParents(order);
    var parentAt: map<State, int> := map[];
    for i := 0 to |edges|
      invariant Within(order, parents)
      invariant forall s | s in parentAt :: exists j :: 0 <= j < i && edges[j].child == s
      invariant problems == 0 <==> SubstatesFine(order, edges[..i])
      invariant problems == 0 ==> ParentsOf(edges[..i], parents) && parentAt.Keys == parents.Keys
    {
      SubstatesPrefix(order, edges, i);
      var child, parent := edges[i].child, edges[i].parent;
      if child !in order {
        problems := problems + 1;
      }
      if parent !in order {
        problems := problems + 1;
      }
      if child == parent && child in order {
        problems := problems + 1;
        continue;
      }
      if child in parentAt {
        problems := problems + 1;
        continue;
      }
      if problems == 0 { ParentsNext(edges, i, parents); }
      parentAt := parentAt[child := i];
      if child in order && parent in order {
        parents := parents[child := parent];
      }
    }
    assert edges[..|edges|] == edges;
  }

  lemma InitialsPrefix(order: seq<State>, parents: map<State, State>, edges: seq<Initial>, i: nat)
    requires i < |edges|
    ensures InitialsFine(order, parents, edges[..i + 1]) <==>
      && InitialsFine(order, parents, edges[..i]) && edges[i].parent in order && edges[i].child in order
      && edges[i].child in parents && parents[edges[i].child] == edges[i].parent
      && forall j | 0 <= j < i :: edges[j].parent != edges[i].parent
  {
    var all, init := edges[..i + 1], edges[..i];
    assert forall j | 0 <= j < i :: all[j] == init[j] == edges[j];
    assert all[i] == edges[i];
  }

  lemma InitialsExtend(edges: seq<Initial>, i: nat, initials: map<State, State>)
    requires i < |edges| && InitialsOf(edges[..i], initials)
    ensures forall j | 0 <= j < i :: edges[j].parent in initials
    ensures edges[i].parent !in initials ==> InitialsOf(edges[..i + 1], initials[edges[i].parent := edges[i].child])
  {
    var all := edges[..i + 1];
    assert all[i] == edges[i] && forall j | 0 <= j < i :: all[j] == edges[..i][j] == edges[j];
    forall s | s in initials ensures exists j :: 0 <= j < |all| && all[j].parent == s {
      var j :| 0 <= j < i && edges[..i][j].parent == s;
      assert all[j].parent == s;
    }
  }

  method CheckInitials(order: seq<State>, parents: map<State, State>, edges: seq<Initial>)
    returns (problems: nat, initials: map<State, State>)
    ensures problems == 0 <==> InitialsFine(order, parents, edges)
    ensures forall s | s in initials :: initials[s] in order
    ensures problems == 0 ==> InitialsOf(edges, initials)
  {
    problems, initials := 0, map[];
    var initialAt: map<State, int> := map[];
    for i := 0 to |edges|
      invariant forall s | s in initials :: initials[s] in order
      invariant forall s | s in initialAt :: exists j :: 0 <= j < i && edges[j].parent == s
      invariant problems == 0 <==> InitialsFine(order, parents, edges[..i])
      invariant problems == 0 ==> InitialsOf(edges[..i], initials) && initialAt.Keys == initials.Keys
    {
      hide InitialsFine, InitialsOf;
      InitialsPrefix(order, parents, edges, i);
      if problems == 0 { InitialsExtend(edges, i, initials); }
      var parent, child := edges[i].parent, edges[i].child;
      if parent !in order {
        problems := problems + 1;
      }
      if child !in order {
        problems := problems + 1;
      }
      if parent in initialAt {
        problems := problems + 1;
        continue;
      }
      initialAt := initialAt[parent := i];
      if parent !in order || child !in order {
        continue;
      }
      if child !in parents || parents[child] != parent {
        problems := problems + 1;
        continue;
      }
      initials := initials[parent := child];
    }
    assert edges[..|edges|] == edges;
  }

  lemma TransitionsPrefix(order: seq<State>, ts: seq<Transition>, i: nat)
    requires i < |ts|
    ensures TransitionsFine(order, ts[..i + 1]) <==>
      && TransitionsFine(order, ts[..i]) && ts[i].from in order && ts[i].to in order && KindFits(ts[i])
      && forall j | 0 <= j < i && ts[j].from == ts[i].from && ts[j].event == ts[i].event :: ts[j].guarded
  {
    var all, init := ts[..i + 1], ts[..i];
    assert forall j | 0 <= j < i :: all[j] == init[j] == ts[j];
    assert all[i] == ts[i];
  }

  /** The compiled rows and events of a list of transitions. */
  ghost predicate Compiled(ts: seq<Transition>, rows: map<Key, seq<Transition>>, events: map<State, seq<Event>>) {
    RowsCompiled(ts, rows) && EventsCompiled(rows, events)
  }

  ghost predicate RowsCompiled(ts: seq<Transition>, rows: map<Key, seq<Transition>>) {
    forall key :: (key in rows <==> RowsOf(ts, key) != []) && (key in rows ==> rows[key] == RowsOf(ts, key))
  }

  ghost predicate EventsCompiled(rows: map<Key, seq<Transition>>, events: map<State, seq<Event>>) {
    forall s, e :: (s in events && e in events[s]) <==> Key(s, e) in rows
  }

  lemma {:induction false} RowsNext(ts: seq<Transition>, i: nat, key: Key)
    requires i < |ts|
    ensures RowsOf(ts[..i + 1], key) == RowsOf(ts[..i], key) + if Key(ts[i].from, ts[i].event) == key then [ts[i]] else []
  {
    assert ts[..i + 1][..i] == ts[..i];
  }

  lemma RowsStep(ts: seq<Transition>, i: nat, rows: map<Key, seq<Transition>>)
    requires i < |ts| && RowsCompiled(ts[..i], rows)
    ensures var key := Key(ts[i].from, ts[i].event);
      RowsCompiled(ts[..i + 1], rows[key := (if key in rows then rows[key] else []) + [ts[i]]])
  {
    hide RowsOf;
    var key := Key(ts[i].from, ts[i].event);
    var rows' := rows[key := (if key in rows then rows[key] else []) + [ts[i]]];
    forall k ensures (k in rows' <==> RowsOf(ts[..i + 1], k) != []) && (k in rows' ==> rows'[k] == RowsOf(ts[..i + 1], k)) {
      RowsNext(ts, i, k);
    }
  }

  lemma EventsStep(rows: map<Key, seq<Transition>>, events: map<State, seq<Event>>, key: Key, row: seq<Transition>)
    requires EventsCompiled(rows, events)
    ensures EventsCompiled(rows[key := row],
      if key in rows then events
      else events[key.state := (if key.state in events then events[key.state] else []) + [key.event]])
  {
  }

  lemma CompiledStep(ts: seq<Transition>, i: nat, rows: map<Key, seq<Transition>>, events: map<State, seq<Event>>)
    requires i < |ts| && Compiled(ts[..i], rows, events)
    ensures var key := Key(ts[i].from, ts[i].event);
      var events' := if key in rows then events
        else events[key.state := (if key.state in events then events[key.state] else []) + [key.event]];
      Compiled(ts[..i + 1], rows[key := (if key in rows then rows[key] else []) + [ts[i]]], events')
  {
    hide RowsCompiled, EventsCompiled;
    var key := Key(ts[i].from, ts[i].event);
    RowsStep(ts, i, rows);
    EventsStep(rows, events, key, (if key in rows then rows[key] else []) + [ts[i]]);
  }

  method CheckTransitions(order: seq<State>, ts: seq<Transition>)
    returns (problems: nat, rows: map<Key, seq<Transition>>, events: map<State, seq<Event>>)
    ensures problems == 0 <==> TransitionsFine(order, ts)
    ensures problems == 0 ==> Compiled(ts, rows, events)
  {
    hide Compiled;
    problems, rows, events := 0, map[], map[];
    var unguarded: map<Key, int> := map[];
    NothingCompiled();
    for i := 0 to |ts|
      invariant forall key | key in unguarded :: exists j :: 0 <= j < i && Key(ts[j].from, ts[j].event) == key && !ts[j].guarded
      invariant problems == 0 <==> TransitionsFine(order, ts[..i])
      invariant problems == 0 ==> Compiled(ts[..i], rows, events)
      invariant problems == 0 ==> forall j | 0 <= j < i && !ts[j].guarded :: Key(ts[j].from, ts[j].event) in unguarded
    {
      TransitionsPrefix(order, ts, i);
      var t := ts[i];
      if t.from !in order {
        problems := problems + 1;
      }
      if t.to !in order {
        problems := problems + 1;
      }
      if !KindFits(t) {
        problems := problems + 1;
      }
      if t.from !in order || t.to !in order {
        continue;
      }
      var key := Key(t.from, t.event);
      if key in unguarded {
        problems := problems + 1;
      }
      if !t.guarded && key !in unguarded {
        unguarded := unguarded[key := i];
      }
      if problems == 0 { CompiledStep(ts, i, rows, events); }
      if key !in rows {
        events := events[t.from := (if t.from in events then events[t.from] else []) + [t.event]];
      }
      rows := rows[key := (if key in rows then rows[key] else []) + [t]];
    }
    assert ts[..|ts|] == ts;
  }

  lemma NothingCompiled()
    ensures Compiled([], map[], map[])
  {
  }

  // ----------------------------------------------------------- the whole

  lemma ParentsUnique(edges: seq<Substate>, a: map<State, State>, b: map<State, State>)
    requires ParentsOf(edges, a) && ParentsOf(edges, b)
    ensures a == b
  {
    forall s | s in a ensures s in b && a[s] == b[s] {
      var i :| 0 <= i < |edges| && edges[i].child == s;
    }
    forall s | s in b ensures s in a {
      var i :| 0 <= i < |edges| && edges[i].child == s;
    }
  }

  lemma {:induction false} RowsOfMember(ts: seq<Transition>, key: Key, row: Transition)
    requires row in RowsOf(ts, key)
    ensures row in ts && Key(row.from, row.event) == key
    decreases |ts|
  {
    var n := |ts| - 1;
    if row in RowsOf(ts[..n], key) {
      RowsOfMember(ts[..n], key, row);
    }
  }

  /** Initial children, as indices, are children. */
  lemma InitialsLinked(order: seq<State>, parents: map<State, State>, edges: seq<Initial>, initials: map<State, State>)
    requires Once(order) && Within(order, parents) && Forest(Linked(order, parents))
    requires InitialsFine(order, parents, edges) && InitialsOf(edges, initials) && forall s | s in initials :: initials[s] in order
    ensures Declared(order, parents, initials)
  {
    var p, q := Linked(order, parents), Linked(order, initials);
    forall i | 0 <= i < |p| && q[i] != -1 ensures Node(p, q[i]) && p[q[i]] == i {
      var k :| 0 <= k < |edges| && edges[k].parent == order[i];
      assert order[q[i]] == edges[k].child && parents[edges[k].child] == order[i];
    }
  }

  /** The chart says what the definition says. */
  ghost predicate Matches(d: Definition, chart: Chart) {
    var order := NamesOf(d.states);
    && (exists parents, initials ::
          && ParentsOf(d.substates, parents) && InitialsOf(d.initials, initials) && Declared(order, parents, initials)
          && |chart.shape.nodes| == |order|
          && forall i | 0 <= i < |order| ::
               chart.shape.nodes[i] == NodeOf(order, Linked(order, parents), Linked(order, initials), i))
    && ActionsOf(d.states, chart.actions) && Compiled(d.transitions, chart.rows, chart.events)
  }

  lemma ChartValid(order: seq<State>, ts: seq<Transition>, chart: Chart)
    requires chart.shape.Valid() && chart.shape.index.Keys == Set(order) && chart.actions.Keys == Set(order)
    requires TransitionsFine(order, ts) && Compiled(ts, chart.rows, chart.events)
    ensures chart.Valid()
  {
    forall key, i | key in chart.rows && 0 <= i < |chart.rows[key]|
      ensures var row := chart.rows[key][i];
        && key.state in chart.shape.index && row.from == key.state && row.event == key.event && row.to in chart.shape.index
        && (row.kind.External? || row.kind.Internal? || row.kind.Reentry?) && (row.kind.External? <==> row.from != row.to)
    {
      var row := chart.rows[key][i];
      RowsOfMember(ts, key, row);
      var k :| 0 <= k < |ts| && ts[k] == row;
      assert ts[k].from in Set(order) && ts[k].to in Set(order);
    }
    forall s, e ensures e in chart.EventsOf(s) <==> chart.RowsFor(s, e) != [] {
      assert Key(s, e) in chart.rows <==> RowsOf(ts, Key(s, e)) != [];
    }
  }

  /** Compile: a chart exactly for a well-formed definition, and then the chart the definition describes. */
  method Compile(d: Definition) returns (chart: Option<Chart>)
    ensures chart.Some? <==> WellFormed(d)
    ensures chart.Some? ==> chart.value.Valid() && Matches(d, chart.value)
  {
    hide StatesOnce, SubstatesFine, InitialsFine, TransitionsFine, ParentsOf, InitialsOf, ActionsOf, Compiled, Forest, Declared, NodeOf, Chart.Valid;
    var p1, order, actions := CheckStates(d.states);
    var p2, parents := CheckSubstates(order, d.substates);
    var cycles := FindCycles(order, parents);
    var p3, initials := CheckInitials(order, parents, d.initials);
    var p4, rows, events := CheckTransitions(order, d.transitions);
    if p1 == 0 {
      if p2 == 0 {
        WellFormedByParts(d, parents);
      } else {
        assert !WellFormed(d);
      }
    }
    if p1 + p2 + |cycles| + p3 + p4 != 0 {
      return None;
    }
    InitialsLinked(order, parents, d.initials, initials);
    var shape := CompileShape(order, parents, initials);
    ChartValid(order, d.transitions, Chart(shape, actions, rows, events));
    chart := Some(Chart(shape, actions, rows, events));
  }

  lemma WellFormedByParts(d: Definition, parents: map<State, State>)
    requires ParentsOf(d.substates, parents) && Within(NamesOf(d.states), parents)
    ensures WellFormed(d) <==>
      && StatesOnce(d.states) && SubstatesFine(NamesOf(d.states), d.substates) && Forest(Linked(NamesOf(d.states), parents))
      && InitialsFine(NamesOf(d.states), parents, d.initials) && TransitionsFine(NamesOf(d.states), d.transitions)
  {
    hide StatesOnce, SubstatesFine, InitialsFine, TransitionsFine, ParentsOf, Forest;
    if WellFormed(d) {
      var order := NamesOf(d.states);
      var other :| ParentsOf(d.substates, other) && (forall s | s in other :: other[s] in order)
        && Forest(Linked(order, other)) && InitialsFine(order, other, d.initials);
      ParentsUnique(d.substates, parents, other);
    }
  }
}
