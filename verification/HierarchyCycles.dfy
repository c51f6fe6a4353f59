/**
 * Three-colour cycle detection over the declared parents: it reports every
 * cycle exactly once, and none exactly when the parents form a forest.
 */
module HierarchyCycles {
  import opened Basics
  import opened Hierarchy
  import opened Shape

  /** Parents relate declared states only. */
  ghost predicate Within(order: seq<State>, parent: map<State, State>) {
    forall s {:trigger parent[s]} | s in parent :: s in order && parent[s] in order
  }

  /** `k` steps up the parents of `x`. */
  ghost function Climb(parent: map<State, State>, x: State, k: nat): Option<State>
    decreases k
  {
    if k == 0 then Some(x)
    else if x in parent then Climb(parent, parent[x], k - 1)
    else None
  }

  ghost predicate OnCycle(parent: map<State, State>, x: State) {
    exists k: nat :: k > 0 && Climb(parent, x, k) == Some(x)
  }

  /** `c` lists one cycle of the parents, each state followed by its parent. */
  ghost predicate Cycle(parent: map<State, State>, c: seq<State>) {
    && c != [] && Once(c)
    && Chained(parent, c) && c[|c| - 1] in parent && parent[c[|c| - 1]] == c[0]
  }

  /** Exactly the cycles of the parents, each of them once. */
  ghost predicate AllCycles(parent: map<State, State>, cycles: seq<seq<State>>) {
    && (forall i | 0 <= i < |cycles| :: Cycle(parent, cycles[i]))
    && (forall i, j, x | 0 <= i < j < |cycles| && x in cycles[i] :: x !in cycles[j])
    && (forall x: State :: OnCycle(parent, x) <==> exists i :: 0 <= i < |cycles| && x in cycles[i])
  }

  ghost predicate Closed(parent: map<State, State>, s: set<State>) {
    forall x {:trigger parent[x]} | x in s && x in parent :: parent[x] in s
  }

  lemma {:induction false} ClimbStays(parent: map<State, State>, s: set<State>, x: State, k: nat)
    requires Closed(parent, s) && x in s && Climb(parent, x, k).Some?
    ensures Climb(parent, x, k).value in s
    decreases k
  {
    if k > 0 {
      ClimbStays(parent, s, parent[x], k - 1);
    }
  }

  /** What steps into a closed set it is not part of never comes back. */
  lemma NeverBack(parent: map<State, State>, s: set<State>, x: State)
    requires Closed(parent, s) && x !in s && (x in parent ==> parent[x] in s)
    ensures !OnCycle(parent, x)
  {
    forall k: nat | k > 0 && Climb(parent, x, k).Some? ensures Climb(parent, x, k) != Some(x) {
      ClimbStays(parent, s, parent[x], k - 1);
    }
  }

  ghost predicate Follows(parent: map<State, State>, path: seq<State>, k: nat)
    requires k + 1 < |path|
  {
    path[k] in parent && parent[path[k]] == path[k + 1]
  }

  /** Each state of `path` is followed by its parent. */
  ghost predicate Chained(parent: map<State, State>, path: seq<State>) {
    forall k: nat | k + 1 < |path| :: Follows(parent, path, k)
  }

  lemma ChainSlice(parent: map<State, State>, path: seq<State>, i: nat, j: nat)
    requires Chained(parent, path) && i <= j <= |path|
    ensures Chained(parent, path[i..j])
  {
    forall k: nat | k + 1 < j - i ensures Follows(parent, path[i..j], k) {
      assert Follows(parent, path, i + k);
    }
  }

  lemma ChainExtends(parent: map<State, State>, path: seq<State>, state: State)
    requires Chained(parent, path) && (path == [] || (path[|path| - 1] in parent && parent[path[|path| - 1]] == state))
    ensures Chained(parent, path + [state])
  {
    forall k: nat | k < |path| ensures Follows(parent, path + [state], k) {
      if k + 1 < |path| {
        assert Follows(parent, path, k);
      }
    }
  }

  ghost function Set(path: seq<State>): set<State> {
    set x | x in path
  }

  /** A chain that leads into a closed set, or ends, holds no cycle. */
  lemma {:induction false} ChainLeavesCycles(parent: map<State, State>, s: set<State>, path: seq<State>)
    requires Closed(parent, s) && Chained(parent, path) && Once(path) && forall x | x in path :: x !in s
    requires path != [] && path[|path| - 1] in parent ==> parent[path[|path| - 1]] in s
    ensures Closed(parent, s + Set(path)) && forall x | x in path :: !OnCycle(parent, x)
    decreases |path|
  {
    if path == [] {
      assert s + Set(path) == s;
    } else {
      var n := |path| - 1;
      var last, init := path[n], path[..n];
      NeverBack(parent, s, last);
      ChainSlice(parent, path, 0, n);
      if n > 0 { assert Follows(parent, path, n - 1); }
      assert path == init + [last];
      ChainLeavesCycles(parent, s + {last}, init);
      assert s + Set(path) == s + {last} + Set(init);
    }
  }

  lemma {:induction false} ClimbChain(parent: map<State, State>, path: seq<State>, k: nat, m: nat)
    requires Chained(parent, path) && k <= m < |path|
    ensures Climb(parent, path[k], m - k) == Some(path[m])
    decreases m - k
  {
    if k < m {
      assert Follows(parent, path, k);
      ClimbChain(parent, path, k + 1, m);
    }
  }

  lemma {:induction false} ClimbJoins(parent: map<State, State>, x: State, a: nat, b: nat)
    requires Climb(parent, x, a).Some?
    ensures Climb(parent, x, a + b) == Climb(parent, Climb(parent, x, a).value, b)
    decreases a
  {
    if a > 0 {
      ClimbJoins(parent, parent[x], a - 1, b);
    }
  }

  lemma CycleMembers(parent: map<State, State>, c: seq<State>)
    requires Cycle(parent, c)
    ensures forall x | x in c :: OnCycle(parent, x)
  {
    forall k | 0 <= k < |c| ensures OnCycle(parent, c[k]) {
      var n := |c| - 1;
      ClimbChain(parent, c, k, n);
      ClimbChain(parent, c, 0, k);
      ClimbJoins(parent, c[k], n - k, 1 + k);
      assert Climb(parent, c[n], 1 + k) == Climb(parent, c[0], k);
      assert Climb(parent, c[k], n + 1) == Some(c[k]);
    }
  }

  // ------------------------------------------------------------- ranks

  /** Ranks that witness that the states of `s` form a forest. */
  ghost predicate RanksWithin(parent: map<State, State>, s: set<State>, rank: map<State, nat>, top: nat) {
    && (forall x | x in s :: x in rank && rank[x] <= top)
    && (forall x {:trigger parent[x]} | x in s && x in parent && parent[x] in s :: rank[parent[x]] < rank[x])
  }

  lemma {:induction false} ClimbFalls(order: seq<State>, parent: map<State, State>, x: State, k: nat)
    requires Once(order) && Within(order, parent) && Forest(Linked(order, parent))
    requires x in order && Climb(parent, x, k).Some?
    ensures Climb(parent, x, k).value in order
    ensures var rank := RankOf(Linked(order, parent));
      k > 0 ==> rank[Position(order, Climb(parent, x, k).value)] < rank[Position(order, x)]
    decreases k
  {
    if k > 0 {
      var p := Linked(order, parent);
      assert p[Position(order, x)] == Position(order, parent[x]);
      ClimbFalls(order, parent, parent[x], k - 1);
    }
  }

  /** A forest has no cycles. */
  lemma ForestHasNoCycle(order: seq<State>, parent: map<State, State>, x: State)
    requires Once(order) && Within(order, parent) && Forest(Linked(order, parent))
    ensures !OnCycle(parent, x)
  {
    forall k: nat | k > 0 && Climb(parent, x, k).Some? ensures Climb(parent, x, k) != Some(x) {
      ClimbFalls(order, parent, x, k);
    }
  }

  lemma RanksMakeForest(order: seq<State>, parent: map<State, State>, rank: map<State, nat>, top: nat)
    requires Once(order) && Within(order, parent)
    requires RanksWithin(parent, Set(order), rank, top)
    ensures Forest(Linked(order, parent))
  {
    var p := Linked(order, parent);
    var r := seq(|order|, i requires 0 <= i < |order| => assert order[i] in Set(order); rank[order[i]]);
    forall i | 0 <= i < |p| && p[i] != -1 ensures r[p[i]] < r[i] {
      assert order[i] in Set(order) && parent[order[i]] in Set(order);
    }
    assert Ranked(p, r);
  }

  // ------------------------------------------------------------ the search

  datatype Color = Unseen | Visiting | Done

  ghost predicate Painted(color: map<State, Color>, order: seq<State>, finished: set<State>, path: seq<State>) {
    && color.Keys == Set(order) && finished <= Set(order) && Set(path) <= Set(order)
    && (forall x | x in color :: color[x] == (if x in finished then Done else if x in path then Visiting else Unseen))
  }

  /** What the finished states are known to be. */
  ghost predicate Searched(parent: map<State, State>, finished: set<State>, cycles: seq<seq<State>>) {
    && Closed(parent, finished)
    && (forall i | 0 <= i < |cycles| :: Cycle(parent, cycles[i]) && Set(cycles[i]) <= finished)
    && (forall i, j, x | 0 <= i < j < |cycles| && x in cycles[i] :: x !in cycles[j])
    && (forall x | x in finished && OnCycle(parent, x) :: exists i :: 0 <= i < |cycles| && x in cycles[i])
  }

  lemma NothingSearched(parent: map<State, State>)
    ensures Searched(parent, {}, []) && RanksWithin(parent, {}, map[], 0)
  {
  }

  lemma SearchedClosed(parent: map<State, State>, finished: set<State>, cycles: seq<seq<State>>)
    requires Searched(parent, finished, cycles)
    ensures Closed(parent, finished) && forall i | 0 <= i < |cycles| :: Cycle(parent, cycles[i])
  {
  }

  method FindCycles(order: seq<State>, parent: map<State, State>) returns (cycles: seq<seq<State>>)
    requires Once(order) && Within(order, parent)
    ensures AllCycles(parent, cycles)
    ensures cycles == [] <==> Forest(Linked(order, parent))
  {
    hide Searched, RanksWithin, Chained, OnCycle, AllCycles, Forest, Closed, Painted, Linked;
    var color := map s | s in order :: Unseen;
    cycles := [];
    NothingSearched(parent);
    NothingPainted(order);
    ghost var finished: set<State>, rank: map<State, nat>, top: nat := {}, map[], 0;
    for i := 0 to |order|
      invariant Painted(color, order, finished, []) && Set(order[..i]) <= finished
      invariant Searched(parent, finished, cycles)
      invariant cycles == [] ==> RanksWithin(parent, finished, rank, top)
    {
      PaintedAt(color, order, finished, [], order[i]);
      if color[order[i]] == Unseen {
        SearchedClosed(parent, finished, cycles);
        var path, found := Trace(order, parent, color, order[i], finished);
        ghost var whole := finished + Set(path);
        if found != [] {
          CycleFound(parent, finished, path, found, cycles);
          cycles := cycles + [found];
        } else {
          NoCycleFound(parent, finished, path, cycles);
          if cycles == [] {
            rank, top := RankPath(parent, finished, path, rank, top);
          }
        }
        PathPainted(color, order, finished, path);
        finished := whole;
        color := map s | s in color :: if s in path then Done else color[s];
      }
      assert Set(order[..i + 1]) == Set(order[..i]) + {order[i]};
    }
    assert order[..|order|] == order;
    PaintedWithin(color, order, finished);
    Everything(order, parent, finished, cycles);
    if cycles == [] {
      RanksMakeForest(order, parent, rank, top);
    } else {
      CyclesForbidForest(order, parent, finished, cycles);
    }
  }

  lemma NothingPainted(order: seq<State>)
    ensures Painted(map s | s in order :: Unseen, order, {}, [])
  {
  }

  /** Once a trace is over its states are done. */
  lemma PathPainted(color: map<State, Color>, order: seq<State>, finished: set<State>, path: seq<State>)
    requires Painted(color, order, finished, []) && Set(path) <= Set(order)
    ensures Painted(map s | s in color :: if s in path then Done else color[s], order, finished + Set(path), [])
  {
  }

  lemma PaintedWithin(color: map<State, Color>, order: seq<State>, finished: set<State>)
    requires Painted(color, order, finished, []) && Set(order) <= finished
    ensures finished == Set(order)
  {
  }

  lemma CyclesForbidForest(order: seq<State>, parent: map<State, State>, finished: set<State>, cycles: seq<seq<State>>)
    requires Once(order) && Within(order, parent) && Searched(parent, finished, cycles) && cycles != []
    ensures !Forest(Linked(order, parent))
  {
    hide OnCycle, Linked, Forest;
    SearchedClosed(parent, finished, cycles);
    CycleMembers(parent, cycles[0]);
    if Forest(Linked(order, parent)) {
      ForestHasNoCycle(order, parent, cycles[0][0]);
    }
  }

  /** The path so far: a chain of new states that leads to `state`. */
  ghost predicate Tracing(parent: map<State, State>, finished: set<State>, path: seq<State>, start: State, state: State) {
    && Chained(parent, path) && Once(path) && (forall x | x in path :: x !in finished)
    && if path == [] then state == start
       else start in path && path[|path| - 1] in parent && parent[path[|path| - 1]] == state
  }

  lemma TraceStep(parent: map<State, State>, order: seq<State>, color: map<State, Color>, finished: set<State>, path: seq<State>, start: State, state: State)
    requires Painted(color, order, finished, path) && Tracing(parent, finished, path, start, state)
    requires state in order && state in color && color[state] == Unseen
    ensures Painted(color[state := Visiting], order, finished, path + [state])
    ensures Chained(parent, path + [state]) && Once(path + [state]) && (forall x | x in path + [state] :: x !in finished)
    ensures state in parent ==> Tracing(parent, finished, path + [state], start, parent[state])
    ensures state !in path && state !in finished && start in path + [state] && state in Set(order) - finished - Set(path)
    ensures Set(order) - finished - Set(path + [state]) == Set(order) - finished - Set(path) - {state}
  {
    ChainExtends(parent, path, state);
  }

  lemma StartTracing(parent: map<State, State>, finished: set<State>, start: State)
    ensures Tracing(parent, finished, [], start, start)
  {
  }

  lemma TracingFacts(parent: map<State, State>, finished: set<State>, path: seq<State>, start: State, state: State)
    requires Tracing(parent, finished, path, start, state)
    ensures Chained(parent, path) && Once(path) && forall x | x in path :: x !in finished
    ensures path == [] ==> state == start
    ensures path != [] ==> start in path && path[|path| - 1] in parent && parent[path[|path| - 1]] == state
  {
  }

  lemma PaintedAt(color: map<State, Color>, order: seq<State>, finished: set<State>, path: seq<State>, state: State)
    requires Painted(color, order, finished, path) && state in order
    ensures state in color && Set(path) <= Set(order)
    ensures color[state] == if state in finished then Done else if state in path then Visiting else Unseen
  {
    assert state in Set(order);
  }

  /** `positions` finds every state of the path. */
  ghost predicate Located(positions: map<State, nat>, path: seq<State>) {
    forall k | 0 <= k < |path| :: path[k] in positions && positions[path[k]] == k
  }

  lemma NothingLocated()
    ensures Located(map[], [])
  {
  }

  lemma LocateStep(positions: map<State, nat>, path: seq<State>, state: State)
    requires Located(positions, path) && state !in path
    ensures Located(positions[state := |path|], path + [state])
  {
  }

  lemma LocatedAt(positions: map<State, nat>, path: seq<State>, state: State)
    requires Located(positions, path) && state in path
    ensures state in positions && positions[state] < |path| && path[positions[state]] == state
  {
  }

  lemma EmptyPath(parent: map<State, State>)
    ensures Chained(parent, []) && Once([]) && Set([]) == {}
  {
  }

  /** Follows the parents of `start` until they end, reach finished states, or close a cycle. */
  method Trace(order: seq<State>, parent: map<State, State>, color0: map<State, Color>, start: State, ghost finished: set<State>)
    returns (path: seq<State>, found: seq<State>)
    requires Within(order, parent)
    requires Painted(color0, order, finished, []) && start in order && color0[start] == Unseen && Closed(parent, finished)
    ensures start in path && Set(path) <= Set(order) && Chained(parent, path) && Once(path) && forall x | x in path :: x !in finished
    ensures found == [] ==> path[|path| - 1] in parent ==> parent[path[|path| - 1]] in finished
    ensures found != [] ==>
      exists j :: 0 <= j < |path| && found == path[j..] && path[|path| - 1] in parent && parent[path[|path| - 1]] == path[j]
  {
    hide Chained, Once, Closed, Located, Tracing, Painted, Within, Set;
    var color, state := color0, start;
    var positions: map<State, nat> := map[];
    path, found := [], [];
    EmptyPath(parent);
    NothingLocated();
    StartTracing(parent, finished, start);
    PaintedAt(color, order, finished, path, start);
    ghost var unseen := Set(order) - finished;
    while true
      invariant Painted(color, order, finished, path) && state in order && Tracing(parent, finished, path, start, state)
      invariant Located(positions, path)
      invariant found == [] && unseen == Set(order) - finished - Set(path)
      decreases |unseen|
    {
      PaintedAt(color, order, finished, path, state);
      TracingFacts(parent, finished, path, start, state);
      if color[state] == Done {
        break;
      }
      if color[state] == Visiting {
        LocatedAt(positions, path, state);
        found := path[positions[state]..];
        break;
      }
      TraceStep(parent, order, color, finished, path, start, state);
      LocateStep(positions, path, state);
      color := color[state := Visiting];
      positions := positions[state := |path|];
      path := path + [state];
      unseen := unseen - {state};
      PaintedAt(color, order, finished, path, state);
      if state !in parent {
        break;
      }
      ParentListed(order, parent, state);
      state := parent[state];
    }
  }

  lemma ParentListed(order: seq<State>, parent: map<State, State>, state: State)
    requires Within(order, parent) && state in parent
    ensures parent[state] in order
  {
  }

  /** A finished trace without a cycle. */
  lemma NoCycleFound(parent: map<State, State>, finished: set<State>, path: seq<State>, cycles: seq<seq<State>>)
    requires Searched(parent, finished, cycles) && Chained(parent, path) && Once(path) && path != []
    requires forall x | x in path :: x !in finished
    requires path[|path| - 1] in parent ==> parent[path[|path| - 1]] in finished
    ensures Searched(parent, finished + Set(path), cycles)
  {
    ChainLeavesCycles(parent, finished, path);
  }

  lemma CycleClosed(parent: map<State, State>, c: seq<State>)
    requires Cycle(parent, c)
    ensures forall x | x in c :: x in parent && parent[x] in c
  {
    forall x | x in c ensures x in parent && parent[x] in c {
      var k :| 0 <= k < |c| && c[k] == x;
      if k < |c| - 1 { assert Follows(parent, c, k); }
    }
  }

  lemma TailIsCycle(parent: map<State, State>, path: seq<State>, j: nat)
    requires Chained(parent, path) && Once(path) && j < |path|
    requires path[|path| - 1] in parent && parent[path[|path| - 1]] == path[j]
    ensures Cycle(parent, path[j..])
  {
    ChainSlice(parent, path, j, |path|);
    assert path[j..] == path[j..|path|];
  }

  /** A finished trace that closed a cycle: its tail is the cycle, and the rest leads into it. */
  lemma CycleFound(parent: map<State, State>, finished: set<State>, path: seq<State>, found: seq<State>, cycles: seq<seq<State>>)
    requires Searched(parent, finished, cycles) && Chained(parent, path) && Once(path)
    requires forall x | x in path :: x !in finished
    requires exists j :: 0 <= j < |path| && found == path[j..] && path[|path| - 1] in parent && parent[path[|path| - 1]] == path[j]
    ensures Searched(parent, finished + Set(path), cycles + [found])
  {
    var j :| 0 <= j < |path| && found == path[j..] && path[|path| - 1] in parent && parent[path[|path| - 1]] == path[j];
    TailIsCycle(parent, path, j);
    FrontLeaves(parent, finished, path, j);
    CycleAdded(parent, finished, found, cycles, finished + Set(path));
  }

  lemma LinkedOn(parent: map<State, State>, path: seq<State>, k: nat)
    requires Chained(parent, path) && k + 1 < |path|
    ensures path[k] in parent && parent[path[k]] == path[k + 1]
  {
    assert Follows(parent, path, k);
  }

  /** A cycle leads nowhere but into itself. */
  lemma FoundClosed(parent: map<State, State>, finished: set<State>, found: seq<State>)
    requires Closed(parent, finished) && Cycle(parent, found)
    ensures Closed(parent, finished + Set(found))
  {
    CycleClosed(parent, found);
    hide Cycle, Chained;
  }

  lemma FrontLeaves(parent: map<State, State>, finished: set<State>, path: seq<State>, j: nat)
    requires Closed(parent, finished) && Chained(parent, path) && Once(path) && j < |path| && Cycle(parent, path[j..])
    requires forall x | x in path :: x !in finished
    ensures Closed(parent, finished + Set(path)) && Set(path[j..]) <= Set(path)
    ensures forall x | x in finished + Set(path) && OnCycle(parent, x) :: x in finished || x in path[j..]
  {
    hide OnCycle, Once, Chained, Cycle;
    var front, found := path[..j], path[j..];
    var s := finished + Set(found);
    assert path == front + found;
    FoundClosed(parent, finished, found);
    FrontApart(finished, path, j);
    ChainSlice(parent, path, 0, j);
    if j > 0 { LinkedOn(parent, path, j - 1); }
    hide Closed;
    ChainLeavesCycles(parent, s, front);
    assert s + Set(front) == finished + Set(path);
  }

  lemma FrontApart(finished: set<State>, path: seq<State>, j: nat)
    requires Once(path) && j <= |path| && forall x | x in path :: x !in finished
    ensures Once(path[..j]) && forall x | x in path[..j] :: x !in finished + Set(path[j..])
  {
    forall x | x in path[..j] ensures x !in path[j..] {
      var k :| 0 <= k < j && path[k] == x;
    }
  }

  lemma CycleAdded(parent: map<State, State>, finished: set<State>, found: seq<State>, cycles: seq<seq<State>>, whole: set<State>)
    requires Searched(parent, finished, cycles) && Cycle(parent, found) && Closed(parent, whole)
    requires finished <= whole && Set(found) <= whole && forall x | x in found :: x !in finished
    requires forall x | x in whole && OnCycle(parent, x) :: x in finished || x in found
    ensures Searched(parent, whole, cycles + [found])
  {
    var all := cycles + [found];
    forall x | x in whole && OnCycle(parent, x) ensures exists i :: 0 <= i < |all| && x in all[i] {
      if x in finished {
        var i :| 0 <= i < |cycles| && x in cycles[i];
        assert x in all[i];
      } else {
        assert x in all[|cycles|];
      }
    }
    forall i, j, x | 0 <= i < j < |all| && x in all[i] ensures x !in all[j] {
      assert x in Set(cycles[i]);
    }
  }

  /** Ranks for a path above all finished ones. */
  lemma RankPath(parent: map<State, State>, finished: set<State>, path: seq<State>, rank: map<State, nat>, top: nat)
    returns (rank': map<State, nat>, top': nat)
    requires Closed(parent, finished) && RanksWithin(parent, finished, rank, top) && Chained(parent, path) && Once(path) && path != []
    requires forall x | x in path :: x !in finished
    requires path[|path| - 1] in parent ==> parent[path[|path| - 1]] in finished
    ensures RanksWithin(parent, finished + Set(path), rank', top')
  {
    top' := top + |path|;
    rank' := map x | x in finished + Set(path) :: if x in path then top + |path| - Position(path, x) else rank[x];
    forall k | 0 <= k < |path| ensures Position(path, path[k]) == k {}
    forall x | x in finished + Set(path) && x in parent && parent[x] in finished + Set(path)
      ensures rank'[parent[x]] < rank'[x]
    {
      if x in path {
        var k := Position(path, x);
        if k < |path| - 1 { assert Follows(parent, path, k); }
      } else {
        PathNotEntered(parent, finished, path, x);
      }
    }
  }

  lemma PathNotEntered(parent: map<State, State>, finished: set<State>, path: seq<State>, x: State)
    requires Closed(parent, finished) && x in finished && x in parent && forall y | y in path :: y !in finished
    ensures parent[x] !in path
  {
  }

  /** Once everything is finished, the reported cycles are all there are. */
  lemma Everything(order: seq<State>, parent: map<State, State>, finished: set<State>, cycles: seq<seq<State>>)
    requires Within(order, parent) && finished == Set(order) && Searched(parent, finished, cycles)
    ensures AllCycles(parent, cycles)
  {
    forall x: State ensures OnCycle(parent, x) <==> exists i :: 0 <= i < |cycles| && x in cycles[i] {
      if OnCycle(parent, x) {
        var k: nat :| k > 0 && Climb(parent, x, k) == Some(x);
        assert x in parent && x in Set(order);
      }
      if i :| 0 <= i < |cycles| && x in cycles[i] {
        CycleMembers(parent, cycles[i]);
      }
    }
  }
}
