/**
 * The strict definition compiler of the supervised package: a machine comes out
 * exactly when every section of the definition is sound, every state and event
 * is decided, and every state can be reached.
 */
module StrictDefinition {
  import opened Basics
  import opened SupervisorTypes

  /** A declared state with the events it refuses. */
  datatype StateDecl = StateDecl(name: State, terminal: bool, refuse: seq<Event>)

  /** A declared row; false in `checks` stands for a nil check. */
  datatype Transition = Transition(
    id: Id, from: State, event: Event, to: State, guarded: bool, checks: seq<bool>, issues: bool, verifies: bool)

  /** False in a callback group stands for a nil callback. */
  datatype Definition = Definition(
    id: Id, states: seq<StateDecl>, events: seq<Event>, initial: State, transitions: seq<Transition>,
    preconditions: seq<bool>, invariants: seq<bool>, postconditions: seq<bool>, reconcilers: seq<bool>)

  // ------------------------------------------------------ well-formedness

  ghost predicate Declared(states: seq<StateDecl>, s: State) {
    exists i :: 0 <= i < |states| && states[i].name == s
  }

  ghost predicate Once(states: seq<StateDecl>) {
    forall i, j | 0 <= i < j < |states| :: states[i].name != states[j].name
  }

  ghost predicate Different(events: seq<Event>) {
    forall i, j | 0 <= i < j < |events| :: events[i] != events[j]
  }

  ghost predicate RefusalsFine(states: seq<StateDecl>, events: seq<Event>) {
    forall i | 0 <= i < |states| :: Different(states[i].refuse) && forall e | e in states[i].refuse :: e in events
  }

  ghost predicate Refuses(states: seq<StateDecl>, key: Key) {
    exists i :: 0 <= i < |states| && states[i].name == key.state && key.event in states[i].refuse
  }

  ghost predicate Terminal(states: seq<StateDecl>, s: State) {
    exists i :: 0 <= i < |states| && states[i].name == s && states[i].terminal
  }

  /** What one row must be by itself. */
  ghost predicate RowFine(states: seq<StateDecl>, events: seq<Event>, t: Transition) {
    && t.id != 0 && Declared(states, t.from) && Declared(states, t.to) && t.event in events
    && t.issues == t.verifies && (forall k | 0 <= k < |t.checks| :: t.checks[k])
    && !Refuses(states, Key(t.from, t.event)) && !Terminal(states, t.from)
  }

  /** Sound rows with different identities, none hidden behind a row without a guard. */
  ghost predicate RowsFine(states: seq<StateDecl>, events: seq<Event>, ts: seq<Transition>) {
    && (forall i | 0 <= i < |ts| :: RowFine(states, events, ts[i]))
    && (forall i, j | 0 <= i < j < |ts| :: ts[i].id != ts[j].id)
    && (forall i, j | 0 <= i < j < |ts| && ts[i].from == ts[j].from && ts[i].event == ts[j].event :: ts[i].guarded)
  }

  ghost predicate Handles(ts: seq<Transition>, key: Key) {
    exists i :: 0 <= i < |ts| && ts[i].from == key.state && ts[i].event == key.event
  }

  /** Every state that is not terminal decides every event, and handles one. */
  ghost predicate Total(states: seq<StateDecl>, events: seq<Event>, ts: seq<Transition>) {
    forall i | 0 <= i < |states| && !states[i].terminal ::
      && (forall e | e in events :: Handles(ts, Key(states[i].name, e)) || Refuses(states, Key(states[i].name, e)))
      && exists e :: e in events && Handles(ts, Key(states[i].name, e))
  }

  /** `x` can be reached from `from` in at most `n` transitions. */
  ghost predicate Reaches(ts: seq<Transition>, from: State, x: State, n: nat)
    decreases n
  {
    x == from || (n > 0 && exists i :: 0 <= i < |ts| && ts[i].to == x && Reaches(ts, from, ts[i].from, n - 1))
  }

  ghost predicate CanReach(ts: seq<Transition>, from: State, x: State) {
    exists n: nat :: Reaches(ts, from, x, n)
  }

  ghost predicate Connected(states: seq<StateDecl>, ts: seq<Transition>, initial: State) {
    forall i | 0 <= i < |states| :: CanReach(ts, initial, states[i].name)
  }

  ghost predicate Group(callbacks: seq<bool>) {
    callbacks != [] && forall k | 0 <= k < |callbacks| :: callbacks[k]
  }

  ghost predicate Groups(d: Definition) {
    d.id != 0 && d.states != [] && d.events != []
    && Group(d.preconditions) && Group(d.invariants) && Group(d.postconditions) && Group(d.reconcilers)
  }

  ghost predicate Strict(d: Definition) {
    && Groups(d) && Once(d.states) && Declared(d.states, d.initial) && Different(d.events) && RefusalsFine(d.states, d.events)
    && RowsFine(d.states, d.events, d.transitions) && Total(d.states, d.events, d.transitions)
    && Connected(d.states, d.transitions, d.initial)
  }

  // -------------------------------------------------------- reachability

  ghost predicate Closed(ts: seq<Transition>, s: set<State>) {
    forall i | 0 <= i < |ts| && ts[i].from in s :: ts[i].to in s
  }

  lemma {:induction false} ClosedHoldsReached(ts: seq<Transition>, s: set<State>, from: State, x: State, n: nat)
    requires Closed(ts, s) && from in s && Reaches(ts, from, x, n)
    ensures x in s
    decreases n
  {
    if x != from {
      var i :| 0 <= i < |ts| && ts[i].to == x && Reaches(ts, from, ts[i].from, n - 1);
      ClosedHoldsReached(ts, s, from, ts[i].from, n - 1);
    }
  }

  lemma ReachesOn(ts: seq<Transition>, from: State, i: nat)
    requires i < |ts| && CanReach(ts, from, ts[i].from)
    ensures CanReach(ts, from, ts[i].to)
  {
    var n: nat :| Reaches(ts, from, ts[i].from, n);
    assert Reaches(ts, from, ts[i].to, n + 1);
  }

  lemma ReachesSelf(ts: seq<Transition>, from: State)
    ensures CanReach(ts, from, from)
  {
    assert Reaches(ts, from, from, 0);
  }

  lemma ClosedIsAll(ts: seq<Transition>, s: set<State>, from: State)
    requires Closed(ts, s) && from in s && forall x | x in s :: CanReach(ts, from, x)
    ensures forall x: State :: x in s <==> CanReach(ts, from, x)
  {
    forall x: State | CanReach(ts, from, x) ensures x in s {
      var n: nat :| Reaches(ts, from, x, n);
      ClosedHoldsReached(ts, s, from, x, n);
    }
  }

  ghost predicate Covers(room: set<State>, ts: seq<Transition>) {
    forall i | 0 <= i < |ts| :: ts[i].to in room
  }

  /** Some set that no row leads out of. */
  lemma {:induction false} Cover(ts: seq<Transition>, initial: State) returns (room: set<State>)
    ensures initial in room && Covers(room, ts)
    decreases |ts|
  {
    if ts == [] {
      room := {initial};
    } else {
      room := Cover(ts[..|ts| - 1], initial);
      room := room + {ts[|ts| - 1].to};
    }
  }

  /** The fixpoint loop: it ends, and finds exactly the states reachable from `initial`. */
  method Reachable(ts: seq<Transition>, initial: State) returns (reachable: set<State>)
    ensures forall x: State :: x in reachable <==> CanReach(ts, initial, x)
  {
    hide CanReach;
    reachable := {initial};
    ReachesSelf(ts, initial);
    var grew := true;
    ghost var room := Cover(ts, initial);
    while grew
      invariant initial in reachable && reachable <= room
      invariant forall x | x in reachable :: CanReach(ts, initial, x)
      invariant !grew ==> Closed(ts, reachable)
      decreases |room - reachable| + if grew then 1 else 0
    {
      ghost var before := reachable;
      reachable, grew := Sweep(ts, initial, reachable, room);
      if grew {
        Shrinks(room, before, reachable);
      }
    }
    ClosedIsAll(ts, reachable, initial);
  }

  /** One pass over the rows. */
  method Sweep(ts: seq<Transition>, initial: State, reachable0: set<State>, ghost room: set<State>) returns (reachable: set<State>, grew: bool)
    requires reachable0 <= room && Covers(room, ts) && forall x | x in reachable0 :: CanReach(ts, initial, x)
    ensures reachable0 <= reachable <= room && (forall x | x in reachable :: CanReach(ts, initial, x))
    ensures grew <==> reachable != reachable0
    ensures !grew ==> Closed(ts, reachable)
  {
    hide CanReach;
    reachable, grew := reachable0, false;
    for k := 0 to |ts|
      invariant reachable0 <= reachable <= room
      invariant forall x | x in reachable :: CanReach(ts, initial, x)
      invariant grew <==> reachable != reachable0
      invariant !grew ==> forall i | 0 <= i < k && ts[i].from in reachable :: ts[i].to in reachable
    {
      if ts[k].from in reachable && ts[k].to !in reachable {
        ReachesOn(ts, initial, k);
        reachable := reachable + {ts[k].to};
        grew := true;
      }
    }
  }

  lemma Shrinks(room: set<State>, before: set<State>, after: set<State>)
    requires before <= after <= room && before != after
    ensures |room - after| < |room - before|
  {
    var gained := after - before;
    var x :| x in gained;
    assert room - before == (room - after) + gained;
  }

  // ------------------------------------------------------------- sections

  method CheckGroup(callbacks: seq<bool>) returns (problems: nat)
    ensures problems == 0 <==> Group(callbacks)
  {
    problems := if |callbacks| == 0 then 1 else 0;
    for k := 0 to |callbacks|
      invariant problems == 0 <==> callbacks != [] && forall j | 0 <= j < k :: callbacks[j]
    {
      if !callbacks[k] {
        problems := problems + 1;
      }
    }
  }

  /** What the compiler knows of the declared states. */
  ghost predicate Indexes(states: seq<StateDecl>, info: map<State, bool>) {
    && (forall s :: s in info <==> Declared(states, s))
    && (Once(states) ==> forall s | s in info :: info[s] <==> Terminal(states, s))
  }

  method CheckStates(states: seq<StateDecl>) returns (problems: nat, kept: seq<StateDecl>, info: map<State, bool>)
    ensures problems == 0 <==> Once(states)
    ensures problems == 0 ==> kept == states
    ensures Indexes(states, info)
  {
    hide Declared, Once, Terminals;
    problems, kept, info := 0, [], map[];
    NothingDeclared();
    for i := 0 to |states|
      invariant forall s :: s in info <==> Declared(states[..i], s)
      invariant problems == 0 <==> Once(states[..i])
      invariant problems == 0 ==> kept == states[..i] && Terminals(states[..i], info)
    {
      DeclaredStep(states, i);
      if problems == 0 { TerminalsStep(states, i, info); }
      if states[i].name in info {
        problems := problems + 1;
      } else {
        kept := kept + [states[i]];
        info := info[states[i].name := states[i].terminal];
      }
    }
    assert states[..|states|] == states;
    if problems == 0 { TerminalsExact(states, info); }
  }

  ghost predicate Terminals(states: seq<StateDecl>, info: map<State, bool>) {
    forall j | 0 <= j < |states| :: states[j].name in info && info[states[j].name] == states[j].terminal
  }

  lemma NothingDeclared()
    ensures Once([]) && Terminals([], map[]) && forall s :: !Declared([], s)
  {
  }

  lemma TerminalsStep(states: seq<StateDecl>, i: nat, info: map<State, bool>)
    requires i < |states| && Terminals(states[..i], info)
    ensures states[i].name !in info ==> Terminals(states[..i + 1], info[states[i].name := states[i].terminal])
  {
    var all, init := states[..i + 1], states[..i];
    assert all[i] == states[i] && forall j | 0 <= j < i :: all[j] == init[j];
  }

  lemma TerminalsExact(states: seq<StateDecl>, info: map<State, bool>)
    requires Once(states) && Terminals(states, info) && forall s :: s in info <==> Declared(states, s)
    ensures Indexes(states, info)
  {
  }

  lemma DeclaredStep(states: seq<StateDecl>, i: nat)
    requires i < |states|
    ensures forall s :: Declared(states[..i + 1], s) <==> Declared(states[..i], s) || s == states[i].name
    ensures Once(states[..i + 1]) <==> Once(states[..i]) && !Declared(states[..i], states[i].name)
    ensures forall j | 0 <= j < i :: Declared(states[..i], states[j].name)
  {
    var all, init := states[..i + 1], states[..i];
    assert all == init + [states[i]];
    forall s ensures Declared(all, s) <==> Declared(init, s) || s == states[i].name {
      if Declared(init, s) {
        var k :| 0 <= k < |init| && init[k].name == s;
        assert all[k].name == s;
      }
      if s == states[i].name { assert all[i].name == s; }
    }
    forall j | 0 <= j < i ensures Declared(init, states[j].name) {
      assert init[j].name == states[j].name;
    }
    if Once(all) {
      forall k | 0 <= k < i ensures init[k].name != states[i].name {
        assert all[k].name != all[i].name;
      }
    }
    if Once(init) && !Declared(init, states[i].name) {
      forall a, b | 0 <= a < b < |all| ensures all[a].name != all[b].name {
        assert b == i ==> init[a].name == all[a].name;
      }
    }
  }

  method CheckEvents(events: seq<Event>) returns (problems: nat, known: seq<Event>)
    ensures problems == 0 <==> Different(events)
    ensures (forall e :: e in known <==> e in events) && (problems == 0 ==> known == events)
  {
    problems, known := 0, [];
    for i := 0 to |events|
      invariant forall e :: e in known <==> e in events[..i]
      invariant problems == 0 <==> Different(events[..i])
      invariant problems == 0 ==> known == events[..i]
    {
      DifferentStep(events, i);
      if events[i] in known {
        problems := problems + 1;
      } else {
        known := known + [events[i]];
      }
    }
    assert events[..|events|] == events;
  }

  lemma DifferentStep(events: seq<Event>, i: nat)
    requires i < |events|
    ensures forall e :: e in events[..i + 1] <==> e in events[..i] || e == events[i]
    ensures Different(events[..i + 1]) <==> Different(events[..i]) && events[i] !in events[..i]
  {
    var all, init := events[..i + 1], events[..i];
    assert all == init + [events[i]];
    if Different(all) {
      forall k | 0 <= k < i ensures init[k] != events[i] {
        assert all[k] != all[i];
      }
    }
  }

  /** The refusals of one state. */
  method CheckRefuse(refuse: seq<Event>, known: seq<Event>) returns (problems: nat, accepted: set<Event>)
    ensures problems == 0 <==> Different(refuse) && forall e | e in refuse :: e in known
    ensures problems == 0 ==> forall e :: e in accepted <==> e in refuse
  {
    problems, accepted := 0, {};
    for i := 0 to |refuse|
      invariant problems == 0 <==> Different(refuse[..i]) && forall e | e in refuse[..i] :: e in known
      invariant problems == 0 ==> forall e :: e in accepted <==> e in refuse[..i]
    {
      DifferentStep(refuse, i);
      if refuse[i] in refuse[..i] {
        problems := problems + 1;
        continue;
      }
      if refuse[i] !in known {
        problems := problems + 1;
        continue;
      }
      accepted := accepted + {refuse[i]};
    }
    assert refuse[..|refuse|] == refuse;
  }

  ghost predicate RefusedAre(states: seq<StateDecl>, refused: set<Key>) {
    forall key :: key in refused <==> Refuses(states, key)
  }

  lemma RefusesStep(states: seq<StateDecl>, events: seq<Event>, i: nat)
    requires i < |states|
    ensures forall key :: Refuses(states[..i + 1], key) <==> Refuses(states[..i], key) || (key.state == states[i].name && key.event in states[i].refuse)
    ensures RefusalsFine(states[..i + 1], events) <==>
      RefusalsFine(states[..i], events) && Different(states[i].refuse) && forall e | e in states[i].refuse :: e in events
  {
    var all, init := states[..i + 1], states[..i];
    assert all == init + [states[i]];
    forall key ensures Refuses(all, key) <==> Refuses(init, key) || (key.state == states[i].name && key.event in states[i].refuse) {
      if Refuses(init, key) {
        var k :| 0 <= k < |init| && init[k].name == key.state && key.event in init[k].refuse;
        assert all[k] == init[k];
      }
      if key.state == states[i].name && key.event in states[i].refuse { assert all[i] == states[i]; }
    }
    assert forall k | 0 <= k < i :: all[k] == init[k];
    assert all[i] == states[i];
  }

  method CheckRefusals(states: seq<StateDecl>, known: seq<Event>) returns (problems: nat, refused: set<Key>)
    ensures problems == 0 <==> RefusalsFine(states, known)
    ensures problems == 0 ==> RefusedAre(states, refused)
  {
    problems, refused := 0, {};
    for i := 0 to |states|
      invariant problems == 0 <==> RefusalsFine(states[..i], known)
      invariant problems == 0 ==> RefusedAre(states[..i], refused)
    {
      RefusesStep(states, known, i);
      var more, accepted := CheckRefuse(states[i].refuse, known);
      problems := problems + more;
      refused := refused + set e | e in accepted :: Key(states[i].name, e);
    }
    assert states[..|states|] == states;
  }

  // ----------------------------------------------------------------- rows

  function Compiled(t: Transition): Row {
    Row(t.id, t.from, t.event, t.to, t.guarded, |t.checks|, t.issues)
  }

  /** The compiled rows of one key, in declaration order. */
  ghost function RowsOf(ts: seq<Transition>, key: Key): seq<Row> {
    if ts == [] then [] else
      var n := |ts| - 1;
      RowsOf(ts[..n], key) + if Key(ts[n].from, ts[n].event) == key then [Compiled(ts[n])] else []
  }

  ghost predicate RowsAre(ts: seq<Transition>, rows: map<Key, seq<Row>>) {
    forall key :: (key in rows <==> RowsOf(ts, key) != []) && (key in rows ==> rows[key] == RowsOf(ts, key))
  }

  lemma RowsAreStep(ts: seq<Transition>, i: nat, rows: map<Key, seq<Row>>)
    requires i < |ts| && RowsAre(ts[..i], rows)
    ensures var key := Key(ts[i].from, ts[i].event);
      RowsAre(ts[..i + 1], rows[key := (if key in rows then rows[key] else []) + [Compiled(ts[i])]])
  {
    var key := Key(ts[i].from, ts[i].event);
    assert ts[..i + 1][..i] == ts[..i];
    forall k ensures RowsOf(ts[..i + 1], k) == RowsOf(ts[..i], k) + if k == key then [Compiled(ts[i])] else [] {}
  }

  lemma RowsFineStep(states: seq<StateDecl>, events: seq<Event>, ts: seq<Transition>, i: nat)
    requires i < |ts|
    ensures RowsFine(states, events, ts[..i + 1]) <==>
      && RowsFine(states, events, ts[..i]) && RowFine(states, events, ts[i]) && (forall j | 0 <= j < i :: ts[j].id != ts[i].id)
      && forall j | 0 <= j < i && ts[j].from == ts[i].from && ts[j].event == ts[i].event :: ts[j].guarded
  {
    hide RowFine;
    var all, init := ts[..i + 1], ts[..i];
    assert forall j | 0 <= j < i :: all[j] == init[j] == ts[j];
    assert all[i] == ts[i];
  }

  /** The defects of one row by itself. */
  method CheckRow(info: map<State, bool>, events: seq<Event>, refused: set<Key>, t: Transition, ghost states: seq<StateDecl>)
    returns (problems: nat, known: bool)
    ensures known <==> t.from in info && t.to in info && t.event in events
    ensures Indexes(states, info) && Once(states) && RefusedAre(states, refused) ==> (problems == 0 <==> RowFine(states, events, t))
  {
    problems := 0;
    if t.id == 0 {
      problems := problems + 1;
    }
    if t.from !in info {
      problems := problems + 1;
    }
    if t.to !in info {
      problems := problems + 1;
    }
    if t.event !in events {
      problems := problems + 1;
    }
    if t.issues != t.verifies {
      problems := problems + 1;
    }
    var nils := CountNil(t.checks);
    problems := problems + nils;
    if Key(t.from, t.event) in refused {
      problems := problems + 1;
    }
    if t.from in info && info[t.from] {
      problems := problems + 1;
    }
    known := t.from in info && t.to in info && t.event in events;
  }

  method CountNil(checks: seq<bool>) returns (nils: nat)
    ensures nils == 0 <==> forall k | 0 <= k < |checks| :: checks[k]
  {
    nils := 0;
    for k := 0 to |checks|
      invariant nils == 0 <==> forall j | 0 <= j < k :: checks[j]
    {
      if !checks[k] {
        nils := nils + 1;
      }
    }
  }

  method CheckRows(info: map<State, bool>, events: seq<Event>, refused: set<Key>, ts: seq<Transition>, ghost states: seq<StateDecl>)
    returns (problems: nat, rows: map<Key, seq<Row>>)
    ensures Indexes(states, info) && Once(states) && RefusedAre(states, refused) ==>
      (problems == 0 <==> RowsFine(states, events, ts)) && (problems == 0 ==> RowsAre(ts, rows))
  {
    hide RowFine, RowsFine, RowsAre, Indexes, Once, RefusedAre;
    problems, rows := 0, map[];
    ghost var exact := Indexes(states, info) && Once(states) && RefusedAre(states, refused);
    var idAt: map<Id, int>, unguarded: map<Key, int> := map[], map[];
    NoRows(states, events);
    for i := 0 to |ts|
      invariant forall id :: id in idAt <==> id != 0 && exists j :: 0 <= j < i && ts[j].id == id
      invariant forall key :: key in unguarded <==> exists j :: 0 <= j < i && Key(ts[j].from, ts[j].event) == key && !ts[j].guarded
      invariant exact ==> (problems == 0 <==> RowsFine(states, events, ts[..i])) && (problems == 0 ==> RowsAre(ts[..i], rows))
    {
      RowsFineStep(states, events, ts, i);
      var t := ts[i];
      var key := Key(t.from, t.event);
      var own, known := CheckRow(info, events, refused, t, states);
      if t.id in idAt {
        own := own + 1;
      } else if t.id != 0 {
        idAt := idAt[t.id := i];
      }
      if key in unguarded {
        own := own + 1;
      } else if !t.guarded {
        unguarded := unguarded[key := i];
      }
      RowKnown(states, info, events, t);
      if exact && problems + own == 0 { RowsAreStep(ts, i, rows); }
      problems := problems + own;
      if known {
        rows := rows[key := (if key in rows then rows[key] else []) + [Compiled(t)]];
      }
    }
    assert ts[..|ts|] == ts;
  }

  lemma NoRows(states: seq<StateDecl>, events: seq<Event>)
    ensures RowsFine(states, events, []) && RowsAre([], map[])
  {
  }

  lemma RowKnown(states: seq<StateDecl>, info: map<State, bool>, events: seq<Event>, t: Transition)
    ensures Indexes(states, info) && RowFine(states, events, t) ==> t.id != 0 && t.from in info && t.to in info && t.event in events
  {
  }

  lemma {:induction false} RowsOfMember(ts: seq<Transition>, key: Key, row: Row)
    requires row in RowsOf(ts, key)
    ensures exists i :: 0 <= i < |ts| && ts[i].from == key.state && ts[i].event == key.event && Compiled(ts[i]) == row
    decreases |ts|
  {
    var n := |ts| - 1;
    if row in RowsOf(ts[..n], key) {
      RowsOfMember(ts[..n], key, row);
      var i :| 0 <= i < n && ts[..n][i].from == key.state && ts[..n][i].event == key.event && Compiled(ts[..n][i]) == row;
      assert ts[i] == ts[..n][i];
    }
  }

  lemma {:induction false} HandlesRows(ts: seq<Transition>, key: Key)
    ensures Handles(ts, key) <==> RowsOf(ts, key) != []
    decreases |ts|
  {
    if ts != [] {
      var n := |ts| - 1;
      HandlesRows(ts[..n], key);
      if Handles(ts, key) && !(ts[n].from == key.state && ts[n].event == key.event) {
        var i :| 0 <= i < |ts| && ts[i].from == key.state && ts[i].event == key.event;
        assert ts[..n][i] == ts[i];
      }
      if Handles(ts[..n], key) {
        var i :| 0 <= i < n && ts[..n][i].from == key.state && ts[..n][i].event == key.event;
        assert ts[i] == ts[..n][i];
      }
    }
  }

  // ------------------------------------------------------ whole definition

  /** One state that is not terminal: every event decided, some event handled. */
  method CheckState(state: StateDecl, events: seq<Event>, rows: map<Key, seq<Row>>, refused: set<Key>) returns (problems: nat)
    ensures problems == 0 <==>
      && (forall e | e in events :: Key(state.name, e) in rows || Key(state.name, e) in refused)
      && exists e :: e in events && Key(state.name, e) in rows
  {
    problems := 0;
    var outgoing := false;
    for k := 0 to |events|
      invariant problems == 0 <==> forall j | 0 <= j < k :: Key(state.name, events[j]) in rows || Key(state.name, events[j]) in refused
      invariant outgoing <==> exists j :: 0 <= j < k && Key(state.name, events[j]) in rows
    {
      var key := Key(state.name, events[k]);
      outgoing := outgoing || key in rows;
      if key !in rows && key !in refused {
        problems := problems + 1;
      }
    }
    if !outgoing {
      problems := problems + 1;
    }
  }

  method CheckTotal(states: seq<StateDecl>, events: seq<Event>, rows: map<Key, seq<Row>>, refused: set<Key>, ghost ts: seq<Transition>)
    returns (problems: nat)
    ensures RowsAre(ts, rows) && RefusedAre(states, refused) ==> (problems == 0 <==> Total(states, events, ts))
  {
    problems := 0;
    for i := 0 to |states|
      invariant problems == 0 <==> forall j | 0 <= j < i && !states[j].terminal ::
        && (forall e | e in events :: Key(states[j].name, e) in rows || Key(states[j].name, e) in refused)
        && exists e :: e in events && Key(states[j].name, e) in rows
    {
      if !states[i].terminal {
        var more := CheckState(states[i], events, rows, refused);
        problems := problems + more;
      }
    }
    if RowsAre(ts, rows) && RefusedAre(states, refused) {
      TotalIs(states, events, rows, refused, ts);
    }
  }

  lemma TotalIs(states: seq<StateDecl>, events: seq<Event>, rows: map<Key, seq<Row>>, refused: set<Key>, ts: seq<Transition>)
    requires RowsAre(ts, rows) && RefusedAre(states, refused)
    ensures Total(states, events, ts) <==> forall j | 0 <= j < |states| && !states[j].terminal ::
      && (forall e | e in events :: Key(states[j].name, e) in rows || Key(states[j].name, e) in refused)
      && exists e :: e in events && Key(states[j].name, e) in rows
  {
    forall key ensures Handles(ts, key) <==> key in rows {
      HandlesRows(ts, key);
    }
    hide Handles, Refuses, RowsOf;
  }

  method CheckConnected(states: seq<StateDecl>, ts: seq<Transition>, initial: State) returns (problems: nat)
    ensures problems == 0 <==> Connected(states, ts, initial)
  {
    hide CanReach;
    var reachable := Reachable(ts, initial);
    problems := 0;
    for i := 0 to |states|
      invariant problems == 0 <==> forall j | 0 <= j < i :: CanReach(ts, initial, states[j].name)
    {
      if states[i].name !in reachable {
        problems := problems + 1;
      }
    }
  }

  method CheckGroups(d: Definition) returns (problems: nat)
    ensures problems == 0 <==> Groups(d)
  {
    hide Group;
    problems := 0;
    if d.id == 0 {
      problems := problems + 1;
    }
    if |d.states| == 0 {
      problems := problems + 1;
    }
    if |d.events| == 0 {
      problems := problems + 1;
    }
    var a := CheckGroup(d.preconditions);
    var b := CheckGroup(d.invariants);
    var c := CheckGroup(d.postconditions);
    var e := CheckGroup(d.reconcilers);
    problems := problems + a + b + c + e;
  }

  /** The machine says what the definition says. */
  ghost predicate Matches(d: Definition, m: Machine) {
    && m.id == d.id && m.initial == d.initial && (forall s :: s in m.states <==> Declared(d.states, s))
    && (forall e :: e in m.events <==> e in d.events) && RowsAre(d.transitions, m.rows)
    && m.preconditions == |d.preconditions| && m.invariants == |d.invariants|
    && m.postconditions == |d.postconditions| && m.reconcilers == |d.reconcilers|
  }

  lemma MatchesValid(d: Definition, m: Machine)
    requires Strict(d) && Matches(d, m)
    ensures m.Valid()
  {
    forall key, i | key in m.rows && 0 <= i < |m.rows[key]|
      ensures var row := m.rows[key][i]; row.from == key.state && row.event == key.event && row.to in m.states && row.id != 0
    {
      RowsOfMember(d.transitions, key, m.rows[key][i]);
      var k :| 0 <= k < |d.transitions| && d.transitions[k].from == key.state && d.transitions[k].event == key.event
        && Compiled(d.transitions[k]) == m.rows[key][i];
      assert RowFine(d.states, d.events, d.transitions[k]);
    }
  }

  /** Compile: a machine exactly for a strict definition, and then the machine the definition describes. */
  method Compile(d: Definition) returns (m: Option<Machine>)
    ensures m.Some? <==> Strict(d)
    ensures m.Some? ==> Matches(d, m.value) && m.value.Valid()
  {
    hide Groups, Once, Different, RefusalsFine, RowsFine, Total, Connected, Declared, RowsAre, RefusedAre;
    var p0 := CheckGroups(d);
    var p1, kept, info := CheckStates(d.states);
    var p2 := if d.initial in info then 0 else 1;
    var p3, events := CheckEvents(d.events);
    var p4, refused := CheckRefusals(d.states, events);
    var p5, rows := CheckRows(info, events, refused, d.transitions, d.states);
    var p6 := CheckTotal(kept, events, rows, refused, d.transitions);
    var p7 := 0;
    if d.initial in info {
      p7 := CheckConnected(kept, d.transitions, d.initial);
    }
    IndexKeys(d.states, info);
    if p0 + p1 + p2 + p3 + p4 + p5 + p6 + p7 != 0 {
      return None;
    }
    var compiled := Machine(d.id, d.initial, info.Keys, (set e | e in events), rows,
                            |d.preconditions|, |d.invariants|, |d.postconditions|, |d.reconcilers|);
    MatchesValid(d, compiled);
    m := Some(compiled);
  }

  lemma IndexKeys(states: seq<StateDecl>, info: map<State, bool>)
    requires Indexes(states, info)
    ensures forall s :: s in info <==> Declared(states, s)
  {
  }

  /** In a strict definition every state that is not terminal either handles or refuses each event, never both; a terminal state handles none. */
  lemma StrictDecides(d: Definition, i: nat, e: Event)
    requires Strict(d) && i < |d.states| && e in d.events
    ensures var key := Key(d.states[i].name, e);
      if d.states[i].terminal then !Handles(d.transitions, key)
      else Handles(d.transitions, key) <==> !Refuses(d.states, key)
  {
    var key := Key(d.states[i].name, e);
    if k :| 0 <= k < |d.transitions| && d.transitions[k].from == key.state && d.transitions[k].event == key.event {
      assert RowFine(d.states, d.events, d.transitions[k]);
    }
  }

  /** Every compiled row can be selected: all rows of its key before it have guards, which may decline. */
  lemma {:induction false} StrictSelectable(states: seq<StateDecl>, events: seq<Event>, ts: seq<Transition>, key: Key, i: nat, j: nat)
    requires RowsFine(states, events, ts) && i < j < |RowsOf(ts, key)|
    ensures RowsOf(ts, key)[i].guarded
    decreases |ts|
  {
    var n := |ts| - 1;
    var init := ts[..n];
    assert RowsFine(states, events, init) by {
      RowsFineStep(states, events, ts, n);
      assert ts[..n + 1] == ts;
    }
    if j < |RowsOf(init, key)| {
      StrictSelectable(states, events, init, key, i, j);
    } else {
      RowsOfMember(init, key, RowsOf(init, key)[i]);
      var k :| 0 <= k < |init| && init[k].from == key.state && init[k].event == key.event && Compiled(init[k]) == RowsOf(init, key)[i];
      assert ts[k] == init[k] && ts[n].from == key.state && ts[n].event == key.event;
    }
  }

  /** The candidates in order: the first one that has no guard, or whose guard is in `accepting`, is `pick`. */
  ghost predicate Chooses(rows: seq<Row>, accepting: iset<nat>, pick: nat) {
    && pick < |rows| && (rows[pick].guarded ==> pick in accepting)
    && forall i | 0 <= i < pick :: rows[i].guarded && i !in accepting
  }

  /** In a machine compiled from a strict definition no row is in vain: some valuation of the guards chooses it. */
  lemma CompiledSelectable(d: Definition, m: Machine, from: State, event: Event, pick: nat)
    requires Strict(d) && Matches(d, m) && pick < |m.RowsFor(from, event)|
    ensures exists accepting :: Chooses(m.RowsFor(from, event), accepting, pick)
  {
    var key := Key(from, event);
    assert key in m.rows && m.rows[key] == RowsOf(d.transitions, key);
    forall i | 0 <= i < pick ensures m.RowsFor(from, event)[i].guarded {
      StrictSelectable(d.states, d.events, d.transitions, key, i, pick);
    }
    assert Chooses(m.RowsFor(from, event), iset{pick}, pick);
  }
}
