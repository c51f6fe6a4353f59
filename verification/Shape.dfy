/**
 * The compiled shape of a hierarchy: the stack walk that numbers it, and the
 * lookups that run on the numbers, each proved against the parent chains.
 */
module Shape {
  import opened Basics
  import opened Hierarchy

  type State = nat

  datatype ShapeNode = ShapeNode(state: State, parent: int, depth: int, enter: int, exit: int, destination: int)

  datatype Shape = Shape(nodes: seq<ShapeNode>, index: map<State, int>) {
    ghost function Parents(): seq<int> {
      seq(|nodes|, i requires 0 <= i < |nodes| => nodes[i].parent)
    }

    /** The numbers of node `i` say what the parent chains say. */
    ghost predicate Numbered(i: int)
      requires Forest(Parents()) && 0 <= i < |nodes|
    {
      var node, p := nodes[i], Parents();
      && node.depth == Depth(p, i) && node.enter == Enter(p, i) && node.exit == Exit(p, i)
      && node.state in index && index[node.state] == i
    }

    /** The destination of node `i` lies below it and is its own destination. */
    ghost predicate Settles(i: int)
      requires Forest(Parents()) && 0 <= i < |nodes|
    {
      var d := nodes[i].destination;
      0 <= d < |nodes| && i in Lineage(Parents(), d) && nodes[d].destination == d
    }

    ghost predicate Valid() {
      && Forest(Parents())
      && (forall i | 0 <= i < |nodes| :: Numbered(i))
      && (forall i | 0 <= i < |nodes| :: Settles(i))
      && (forall s | s in index :: 0 <= index[s] < |nodes| && nodes[index[s]].state == s)
    }

    /** The active states, from `s` up to its root. */
    ghost function Chain(s: State): seq<State>
      requires Valid() && s in index
    {
      Names(Lineage(Parents(), index[s]))
    }

    ghost function Names(line: seq<int>): seq<State>
      requires forall k | 0 <= k < |line| :: 0 <= line[k] < |nodes|
    {
      seq(|line|, k requires 0 <= k < |line| => nodes[line[k]].state)
    }
  }

  // ----------------------------------------------------------- definition

  ghost predicate Once(order: seq<State>) {
    forall j, k | 0 <= j < k < |order| :: order[j] != order[k]
  }

  ghost function Position(order: seq<State>, s: State): (i: int)
    requires s in order
    ensures 0 <= i < |order| && order[i] == s
  {
    var i :| 0 <= i < |order| && order[i] == s;
    i
  }

  /** The links of `links`, as indices; -1 where there is none. */
  ghost function Linked(order: seq<State>, links: map<State, State>): seq<int>
    requires forall s | s in links :: links[s] in order
  {
    seq(|order|, i requires 0 <= i < |order| => if order[i] in links then Position(order, links[order[i]]) else -1)
  }

  ghost predicate Declared(order: seq<State>, parents: map<State, State>, initials: map<State, State>) {
    && Once(order)
    && (forall s | s in parents :: parents[s] in order)
    && (forall s | s in initials :: initials[s] in order)
    && Forest(Linked(order, parents))
    && Initials(Linked(order, parents), Linked(order, initials))
  }

  /** Node `i` as the definition determines it. */
  ghost function NodeOf(order: seq<State>, p: seq<int>, q: seq<int>, i: int): ShapeNode
    requires Forest(p) && Initials(p, q) && |p| == |order| && 0 <= i < |order|
  {
    ShapeNode(order[i], p[i], Depth(p, i), Enter(p, i), Exit(p, i), Destination(p, q, i))
  }

  lemma WalkSplits(p: seq<int>, stack: seq<int>)
    requires Forest(p) && stack != [] && Nodes(p, stack)
    ensures var i, rest := stack[|stack| - 1], stack[..|stack| - 1];
      && Nodes(p, Children(p, i)) && Nodes(p, rest + Children(p, i))
      && PreAll(p, stack) == [i] + PreAll(p, rest + Children(p, i))
  {
    var i, rest := stack[|stack| - 1], stack[..|stack| - 1];
    assert i in stack;
    ChildrenReach(p, i);
    PreAllJoins(p, rest, Children(p, i));
  }

  /** Visiting the last pending node: it is next in the preorder, and new. */
  lemma WalkStep(p: seq<int>, preorder: seq<int>, stack: seq<int>)
    requires Forest(p) && stack != [] && Nodes(p, stack) && preorder + PreAll(p, stack) == Preorder(p)
    ensures var i, rest := stack[|stack| - 1], stack[..|stack| - 1];
      && Node(p, i) && i !in preorder && Enter(p, i) == |preorder|
      && Nodes(p, Children(p, i)) && Nodes(p, rest + Children(p, i))
      && (preorder + [i]) + PreAll(p, rest + Children(p, i)) == Preorder(p)
      && |PreAll(p, rest + Children(p, i))| < |PreAll(p, stack)|
  {
    hide PreAll, Preorder, Children, Enter;
    WalkSplits(p, stack);
    var i, next := stack[|stack| - 1], PreAll(p, stack[..|stack| - 1] + Children(p, stack[|stack| - 1]));
    assert preorder + ([i] + next) == (preorder + [i]) + next;
    PreorderComplete(p);
    assert Preorder(p)[|preorder|] == i;
    forall k | 0 <= k < |preorder| ensures preorder[k] != i {
      assert Preorder(p)[k] == preorder[k];
    }
    EnterUnique(p, |preorder|);
  }

  lemma DepthStep(p: seq<int>, i: int)
    requires Forest(p) && Node(p, i)
    ensures Depth(p, i) == if p[i] == -1 then 0 else Depth(p, p[i]) + 1
  {
  }

  /** The numbering walk: pops the last pending node, numbers it, and pushes its children. */
  method Walk(p: seq<int>, children: array<seq<int>>, roots: seq<int>)
    returns (preorder: seq<int>, enter: array<int>, depth: array<int>)
    requires Forest(p) && children.Length == |p| && roots == Children(p, -1)
    requires forall k | 0 <= k < |p| :: children[k] == Children(p, k)
    ensures preorder == Preorder(p) && fresh(enter) && fresh(depth) && enter.Length == depth.Length == |p|
    ensures forall i | 0 <= i < |p| :: enter[i] == Enter(p, i) && depth[i] == Depth(p, i)
  {
    hide PreAll, Preorder, Children, Enter, Depth;
    RootsAreNodes(p);
    PreorderStarts(p);
    enter, depth := new int[|p|](_ => 0), new int[|p|](_ => 0);
    preorder := [];
    var stack := roots;
    while stack != []
      invariant Nodes(p, stack) && preorder + PreAll(p, stack) == Preorder(p)
      invariant forall i | i in preorder :: Node(p, i) && enter[i] == Enter(p, i) && depth[i] == Depth(p, i)
      invariant forall x | x in stack :: p[x] == -1 || p[x] in preorder
      invariant forall k | 0 <= k < |p| :: children[k] == Children(p, k)
      decreases |PreAll(p, stack)|
    {
      WalkStep(p, preorder, stack);
      var i, rest := stack[|stack| - 1], stack[..|stack| - 1];
      assert i in stack;
      DepthStep(p, i);
      enter[i] := |preorder|;
      if p[i] != -1 {
        depth[i] := depth[p[i]] + 1;
      } else {
        depth[i] := 0;
      }
      preorder := preorder + [i];
      ParentOfChildren(p, i);
      stack := rest + children[i];
    }
    NothingPending(p);
    PreorderComplete(p);
  }

  lemma {:induction false} PreorderStarts(p: seq<int>)
    requires Forest(p) && Nodes(p, Children(p, -1))
    ensures PreAll(p, Children(p, -1)) == Preorder(p)
    ensures forall x | x in Children(p, -1) :: p[x] == -1
  {
  }

  lemma ParentOfChildren(p: seq<int>, i: int)
    ensures forall x | x in Children(p, i) :: 0 <= x < |p| && p[x] == i
  {
  }

  lemma {:induction false} NothingPending(p: seq<int>)
    requires Forest(p)
    ensures PreAll(p, []) == []
  {
  }

  /** The end of a subtree: one past its node, or where its last descendant ends. */
  method EndOf(p: seq<int>, i: int, children: seq<int>, start: int, exit: array<int>) returns (end: int)
    requires Forest(p) && Node(p, i) && children == Children(p, i) && start == Enter(p, i) && exit.Length == |p|
    requires forall c | c in children :: Node(p, c) && exit[c] == Exit(p, c)
    ensures end == Exit(p, i)
  {
    hide Exit, Enter, Pre;
    ChildrenLater(p, i);
    end := start + 1;
    for j := 0 to |children|
      invariant start + 1 <= end <= Exit(p, i) && (j > 0 ==> end == Exit(p, i))
    {
      assert children[j] in children;
      if j == 0 { FirstChildLast(p, i); }
      if end < exit[children[j]] {
        end := exit[children[j]];
      }
    }
    if children == [] { LeafAlone(p, i); }
  }

  /** The reverse pass: a node's interval ends with its last descendant, and its initial chain is resolved below it. */
  method Resolve(p: seq<int>, q: seq<int>, children: array<seq<int>>, preorder: seq<int>, enter: array<int>)
    returns (exit: array<int>, destination: array<int>)
    requires Forest(p) && Initials(p, q) && children.Length == enter.Length == |p| && preorder == Preorder(p)
    requires forall k | 0 <= k < |p| :: children[k] == Children(p, k) && enter[k] == Enter(p, k)
    ensures fresh(exit) && fresh(destination) && exit.Length == destination.Length == |p|
    ensures forall i | 0 <= i < |p| :: exit[i] == Exit(p, i) && destination[i] == Destination(p, q, i)
  {
    hide Exit, Pre, Preorder, Children, Destination;
    exit, destination := new int[|p|](_ => 0), new int[|p|](i => i);
    var cursor := |preorder|;
    while cursor > 0
      invariant 0 <= cursor <= |preorder|
      invariant forall i | Node(p, i) && cursor <= Enter(p, i) :: exit[i] == Exit(p, i) && destination[i] == Destination(p, q, i)
      invariant forall i | Node(p, i) && Enter(p, i) < cursor :: destination[i] == i
      modifies exit, destination
    {
      cursor := cursor - 1;
      var i := preorder[cursor];
      EnterUnique(p, cursor);
      ChildrenLater(p, i);
      exit[i] := EndOf(p, i, children[i], enter[i], exit);
      DestinationStep(p, q, i);
      if q[i] != -1 {
        ChildMember(p, q, i);
        destination[i] := destination[q[i]];
      }
      PositionsApart(p, i);
    }
  }

  lemma {:induction false} DestinationStep(p: seq<int>, q: seq<int>, i: int)
    requires Forest(p) && Initials(p, q) && Node(p, i)
    ensures Destination(p, q, i) == if q[i] == -1 then i else Destination(p, q, q[i])
  {
  }

  lemma ChildMember(p: seq<int>, q: seq<int>, i: int)
    requires Forest(p) && Initials(p, q) && Node(p, i) && q[i] != -1
    ensures q[i] in Children(p, i)
  {
  }

  lemma PositionsApart(p: seq<int>, i: int)
    requires Forest(p) && Node(p, i)
    ensures forall j | Node(p, j) && Enter(p, j) == Enter(p, i) :: j == i
  {
  }

  /** Children are visited after their parent, inside its interval. */
  lemma ChildrenLater(p: seq<int>, i: int)
    requires Forest(p) && Node(p, i)
    ensures forall c | c in Children(p, i) :: Node(p, c) && Enter(p, i) < Enter(p, c) && Exit(p, c) <= Exit(p, i)
    ensures Enter(p, i) + 1 <= Exit(p, i)
  {
    ChildrenReach(p, i);
    forall c | c in Children(p, i) ensures Node(p, c) && Enter(p, i) < Enter(p, c) && Exit(p, c) <= Exit(p, i) {
      assert i in Lineage(p, c);
      SubtreeInside(p, i, c);
    }
  }

  lemma LeafAlone(p: seq<int>, i: int)
    requires Forest(p) && Node(p, i) && Children(p, i) == []
    ensures Exit(p, i) == Enter(p, i) + 1
  {
    ChildrenReach(p, i);
    assert Pre(p, i) == [i] + PreAll(p, []);
  }

  /**
   * compileShape: one walk with an explicit stack assigns depths and enters, and
   * its reverse resolves exits and destinations.
   */
  method CompileShape(order: seq<State>, parents: map<State, State>, initials: map<State, State>) returns (shape: Shape)
    requires Declared(order, parents, initials)
    ensures |shape.nodes| == |order| && shape.index.Keys == set s | s in order
    ensures forall i | 0 <= i < |order| ::
      shape.nodes[i] == NodeOf(order, Linked(order, parents), Linked(order, initials), i) && shape.index[order[i]] == i
    ensures shape.Valid()
  {
    hide Depth, Enter, Exit, Destination, Preorder, Children, Lineage;
    var index := IndexOf(order);
    var p, children, roots := Gather(order, index, parents);
    var q := Follow(order, index, initials);
    var preorder, enter, depth := Walk(p, children, roots);
    var exit, destination := Resolve(p, q, children, preorder, enter);
    var nodes: seq<ShapeNode> := [];
    for i := 0 to |order|
      invariant |nodes| == i && forall j | 0 <= j < i :: nodes[j] == NodeOf(order, p, q, j)
    {
      nodes := nodes + [ShapeNode(order[i], p[i], depth[i], enter[i], exit[i], destination[i])];
    }
    shape := Shape(nodes, index);
    ShapeValid(shape, order, p, q);
  }

  lemma ShapeValid(shape: Shape, order: seq<State>, p: seq<int>, q: seq<int>)
    requires Once(order) && Forest(p) && Initials(p, q) && |p| == |order| == |shape.nodes|
    requires forall i | 0 <= i < |order| :: shape.nodes[i] == NodeOf(order, p, q, i)
    requires shape.index.Keys == set s | s in order
    requires forall i | 0 <= i < |order| :: order[i] in shape.index && shape.index[order[i]] == i
    ensures shape.Valid()
  {
    assert shape.Parents() == p;
    forall i | 0 <= i < |order| ensures shape.Settles(i) && shape.Numbered(i) {
      DestinationBelow(p, q, i);
      assert order[i] in shape.index;
    }
    forall s | s in shape.index ensures 0 <= shape.index[s] < |shape.nodes| && shape.nodes[shape.index[s]].state == s {
      assert s in order;
    }
  }

  method IndexOf(order: seq<State>) returns (index: map<State, int>)
    requires Once(order)
    ensures index.Keys == set s | s in order
    ensures forall i | 0 <= i < |order| :: order[i] in index && index[order[i]] == i
  {
    index := map[];
    for i := 0 to |order|
      invariant index.Keys == set s | s in order[..i]
      invariant forall j | 0 <= j < i :: order[j] in index && index[order[j]] == j
    {
      index := index[order[i] := i];
    }
    assert order[..|order|] == order;
  }

  lemma NoChildren(p: seq<int>)
    ensures forall k :: ChildrenUpTo(p, k, 0) == []
  {
  }

  lemma {:induction false} ChildrenNext(p: seq<int>, n: nat)
    requires n < |p|
    ensures forall k :: ChildrenUpTo(p, k, n + 1) == ChildrenUpTo(p, k, n) + if p[n] == k then [n] else []
  {
  }

  /** Parent links as indices, and for every node the list of its children. */
  method Gather(order: seq<State>, index: map<State, int>, parents: map<State, State>)
    returns (p: seq<int>, children: array<seq<int>>, roots: seq<int>)
    requires Once(order) && forall s | s in parents :: parents[s] in order
    requires index.Keys == set s | s in order
    requires forall i | 0 <= i < |order| :: order[i] in index && index[order[i]] == i
    ensures p == Linked(order, parents) && fresh(children) && children.Length == |order| && roots == Children(p, -1)
    ensures forall k | 0 <= k < |order| :: children[k] == Children(p, k)
  {
    hide ChildrenUpTo;
    p := Follow(order, index, parents);
    NoChildren(p);
    children := new seq<int>[|order|](_ => []);
    for c := 0 to |order|
      invariant forall k | 0 <= k < |order| :: children[k] == ChildrenUpTo(p, k, c)
    {
      ChildrenNext(p, c);
      if p[c] != -1 {
        children[p[c]] := children[p[c]] + [c];
      }
    }
    roots := [];
    for i := 0 to |order|
      invariant roots == ChildrenUpTo(p, -1, i)
      invariant forall k | 0 <= k < |order| :: children[k] == Children(p, k)
    {
      ChildrenNext(p, i);
      if p[i] == -1 {
        roots := roots + [i];
      }
    }
  }

  method Follow(order: seq<State>, index: map<State, int>, links: map<State, State>) returns (p: seq<int>)
    requires Once(order) && forall s | s in links :: links[s] in order
    requires index.Keys == set s | s in order
    requires forall i | 0 <= i < |order| :: order[i] in index && index[order[i]] == i
    ensures p == Linked(order, links)
  {
    p := [];
    for c := 0 to |order|
      invariant p == Linked(order, links)[..c]
    {
      if order[c] in links {
        p := p + [index[links[order[c]]]];
      } else {
        p := p + [-1];
      }
    }
  }

  // -------------------------------------------------------------- lookups

  /** The lineage of a node, and nothing for the absent parent of a root. */
  ghost function Line(p: seq<int>, i: int): seq<int>
    requires Forest(p) && -1 <= i < |p|
  {
    if i == -1 then [] else Lineage(p, i)
  }

  /** Depth decides between a node and its proper ancestors. */
  lemma {:induction false} DepthFalls(p: seq<int>, i: int, x: int)
    requires Forest(p) && Node(p, i) && x in Lineage(p, i)
    ensures Node(p, x) && Depth(p, x) <= Depth(p, i) && (Depth(p, x) == Depth(p, i) ==> x == i)
  {
    var k :| 0 <= k < |Lineage(p, i)| && Lineage(p, i)[k] == x;
    LineageTail(p, i, k);
  }

  /** The common ancestors of `l` and `r`. */
  ghost predicate Common(p: seq<int>, l: int, r: int, x: int)
    requires Forest(p) && -1 <= l < |p| && -1 <= r < |p|
  {
    x in Line(p, l) && x in Line(p, r)
  }

  /** A node strictly deeper than the other is not common, so its parent will do. */
  lemma ClimbKeepsCommon(p: seq<int>, l: int, r: int)
    requires Forest(p) && Node(p, l) && -1 <= r < |p| && (r == -1 || (Depth(p, r) <= Depth(p, l) && l != r))
    ensures forall x :: Common(p, l, r, x) <==> Common(p, p[l], r, x)
    ensures p[l] == -1 <==> Depth(p, l) == 0
    ensures p[l] != -1 ==> Depth(p, p[l]) == Depth(p, l) - 1
  {
    if r != -1 && l in Lineage(p, r) {
      DepthFalls(p, r, l);
    }
  }

  /**
   * leastCommonAncestor: the result's lineage is exactly the common ancestors,
   * so it is the deepest of them; -1 when there is none.
   */
  method LeastCommonAncestor(shape: Shape, left: int, right: int) returns (least: int)
    requires shape.Valid() && 0 <= left < |shape.nodes| && 0 <= right < |shape.nodes|
    ensures -1 <= least < |shape.nodes|
    ensures forall x :: Common(shape.Parents(), left, right, x) <==> x in Line(shape.Parents(), least)
  {
    ghost var p := shape.Parents();
    var l, r := left, right;
    hide Depth, Common, Line;
    CommonSelf(p);
    while shape.nodes[l].depth > shape.nodes[r].depth
      invariant 0 <= l < |shape.nodes|
      invariant forall x :: Common(p, left, right, x) <==> Common(p, l, r, x)
      decreases shape.nodes[l].depth
    {
      assert shape.Numbered(l) && shape.Numbered(r);
      ClimbKeepsCommon(p, l, r);
      l := shape.nodes[l].parent;
      assert shape.Numbered(l);
    }
    while shape.nodes[r].depth > shape.nodes[l].depth
      invariant 0 <= r < |shape.nodes| && shape.nodes[r].depth >= shape.nodes[l].depth
      invariant forall x :: Common(p, left, right, x) <==> Common(p, l, r, x)
      decreases shape.nodes[r].depth
    {
      assert shape.Numbered(l) && shape.Numbered(r);
      ClimbKeepsCommon(p, r, l);
      CommonTurns(p, l, r, p[r]);
      r := shape.nodes[r].parent;
      assert shape.Numbered(r);
    }
    while l != r
      invariant -1 <= l < |shape.nodes| && -1 <= r < |shape.nodes| && (l == -1 <==> r == -1)
      invariant l != -1 ==> shape.nodes[l].depth == shape.nodes[r].depth
      invariant forall x :: Common(p, left, right, x) <==> Common(p, l, r, x)
      decreases if l == -1 then -1 else shape.nodes[l].depth
    {
      assert shape.Numbered(l) && shape.Numbered(r);
      ClimbKeepsCommon(p, l, r);
      ClimbOther(p, shape.nodes[l].parent, l, r);
      l, r := shape.nodes[l].parent, shape.nodes[r].parent;
      assert l != -1 && r != -1 ==> shape.Numbered(l) && shape.Numbered(r);
    }
    least := l;
  }

  lemma CommonSelf(p: seq<int>)
    requires Forest(p)
    ensures forall l, x | -1 <= l < |p| :: Common(p, l, l, x) <==> x in Line(p, l)
  {
  }

  lemma CommonTurns(p: seq<int>, l: int, r: int, up: int)
    requires Forest(p) && -1 <= l < |p| && -1 <= r < |p| && -1 <= up < |p|
    requires forall x :: Common(p, r, l, x) <==> Common(p, up, l, x)
    ensures forall x :: Common(p, l, r, x) <==> Common(p, l, up, x)
  {
    forall x ensures Common(p, l, r, x) <==> Common(p, l, up, x) {
      assert Common(p, r, l, x) <==> Common(p, up, l, x);
    }
  }

  /** After one side climbed, the other may follow. */
  lemma ClimbOther(p: seq<int>, up: int, l: int, r: int)
    requires Forest(p) && Node(p, l) && Node(p, r) && l != r && Depth(p, l) == Depth(p, r) && up == p[l]
    ensures forall x :: Common(p, up, r, x) <==> Common(p, up, p[r], x)
    ensures p[r] == -1 <==> Depth(p, r) == 0
    ensures p[r] != -1 ==> Depth(p, p[r]) == Depth(p, r) - 1
  {
    if up != -1 && r in Lineage(p, up) {
      DepthFalls(p, up, r);
    }
  }

  datatype Status = Inactive | Enclosing | Active

  /** Position.Status on the intervals alone. */
  function StatusOf(shape: Shape, active: int, index: int): Status
    requires 0 <= active < |shape.nodes| && 0 <= index < |shape.nodes|
  {
    if index == active then Active
    else if shape.nodes[index].enter <= shape.nodes[active].enter && shape.nodes[active].exit <= shape.nodes[index].exit then Enclosing
    else Inactive
  }

  lemma {:induction false} StatusIsLineage(shape: Shape, active: int, index: int)
    requires shape.Valid() && 0 <= active < |shape.nodes| && 0 <= index < |shape.nodes|
    ensures StatusOf(shape, active, index).Active? <==> index == active
    ensures !StatusOf(shape, active, index).Inactive? <==> index in Lineage(shape.Parents(), active)
  {
    assert shape.Numbered(active) && shape.Numbered(index);
    IntervalIsAncestry(shape.Parents(), index, active);
  }

  /** Position.Status of any state; None for an undeclared one. */
  function StatusAt(shape: Shape, active: int, s: State): Option<Status>
    requires 0 <= active < |shape.nodes| && (s in shape.index ==> 0 <= shape.index[s] < |shape.nodes|)
  {
    if s in shape.index then Some(StatusOf(shape, active, shape.index[s])) else None
  }

  /** Status agrees with Path: active is the head of the chain, enclosing its rest, inactive every other declared state. */
  lemma StatusIsPath(shape: Shape, active: State, s: State)
    requires shape.Valid() && active in shape.index
    ensures var status, chain := StatusAt(shape, shape.index[active], s), shape.Chain(active);
      && (status.None? <==> s !in shape.index)
      && (status == Some(Status.Active) <==> s == active) && chain[0] == active
      && (status == Some(Status.Active) || status == Some(Enclosing) <==> s in chain)
  {
    hide Depth, Enter, Exit;
    var at := shape.index[active];
    var line, chain := Lineage(shape.Parents(), at), shape.Chain(active);
    if s in shape.index {
      var index := shape.index[s];
      StatusIsLineage(shape, at, index);
      hide StatusOf;
      if index in line {
        var k :| 0 <= k < |line| && line[k] == index;
        assert chain[k] == s;
      }
      if s in chain {
        var k :| 0 <= k < |chain| && chain[k] == s;
        if line[k] != index { NamesApart(shape, line[k], index); }
      }
    } else if s in chain {
      var k :| 0 <= k < |chain| && chain[k] == s;
      assert shape.Numbered(line[k]);
    }
  }

  /** Position.Path: the loop along the parents lists the lineage. */
  method Path(shape: Shape, active: int) returns (path: seq<State>)
    requires shape.Valid() && 0 <= active < |shape.nodes|
    ensures shape.nodes[active].state in shape.index && path == shape.Chain(shape.nodes[active].state)
  {
    path := [];
    var index := active;
    ghost var p := shape.Parents();
    assert shape.Numbered(active);
    hide Depth, Lineage, Enter, Exit;
    while index != -1
      invariant -1 <= index < |shape.nodes|
      invariant path + shape.Names(Line(p, index)) == shape.Names(Lineage(p, active))
      decreases |Line(p, index)|
    {
      NamesStep(shape, index);
      path := path + [shape.nodes[index].state];
      index := shape.nodes[index].parent;
    }
    assert path == path + shape.Names([]);
  }

  lemma LineSplits(p: seq<int>, i: int)
    requires Forest(p) && Node(p, i)
    ensures -1 <= p[i] < |p| && Lineage(p, i) == [i] + Line(p, p[i])
  {
  }

  lemma {:induction false} NamesStep(shape: Shape, index: int)
    requires shape.Valid() && 0 <= index < |shape.nodes|
    ensures var p := shape.Parents();
      shape.Names(Lineage(p, index)) == [shape.nodes[index].state] + shape.Names(Line(p, p[index]))
    ensures |Line(shape.Parents(), shape.Parents()[index])| < |Lineage(shape.Parents(), index)|
  {
    LineageStep(shape.Parents(), index, 0);
    LineSplits(shape.Parents(), index);
    hide Lineage, Depth, Enter, Exit, Line, Shape.Numbered, Shape.Settles;
  }

  // ---------------------------------------------------------------- paths

  ghost function Reversed<T>(s: seq<T>): (r: seq<T>)
    ensures |r| == |s| && forall k | 0 <= k < |s| :: r[k] == s[|s| - 1 - k]
  {
    if s == [] then [] else Reversed(s[1..]) + [s[0]]
  }

  /** The part of a lineage strictly below its member `stop`. */
  ghost function Below(p: seq<int>, i: int, stop: int): seq<int>
    requires Forest(p) && Node(p, i) && (stop == -1 || stop in Lineage(p, i))
    requires Node(p, stop) || stop == -1
  {
    if |Line(p, stop)| <= |Lineage(p, i)| then Lineage(p, i)[..|Lineage(p, i)| - |Line(p, stop)|] else []
  }

  lemma {:induction false} BelowJoins(p: seq<int>, i: int, stop: int)
    requires Forest(p) && Node(p, i) && (Node(p, stop) || stop == -1) && (stop == -1 || stop in Lineage(p, i))
    ensures Below(p, i, stop) + Line(p, stop) == Lineage(p, i)
    ensures stop != -1 ==> Depth(p, stop) <= Depth(p, i)
  {
    hide Lineage;
    if stop != -1 {
      var k :| 0 <= k < |Lineage(p, i)| && Lineage(p, i)[k] == stop;
      LineageTail(p, i, k);
    }
  }

  /**
   * The state up to which a transition leaves the source's lineage: the parent
   * of a reentered target, otherwise the deepest state enclosing both.
   */
  ghost predicate StopsAt(p: seq<int>, from: int, target: int, reentry: bool, stop: int)
    requires Forest(p) && Node(p, from) && Node(p, target)
  {
    && -1 <= stop < |p|
    && if reentry then stop == p[target] else forall x :: Common(p, from, target, x) <==> x in Line(p, stop)
  }

  /** Such a stop encloses the source, the target and whatever lies below the target. */
  lemma {:induction false} StopEncloses(p: seq<int>, from: int, target: int, to: int, reentry: bool, stop: int)
    requires Forest(p) && Node(p, from) && Node(p, target) && Node(p, to) && target in Lineage(p, to)
    requires reentry ==> target in Lineage(p, from)
    requires StopsAt(p, from, target, reentry, stop)
    ensures stop != -1 ==> stop in Lineage(p, from) && stop in Lineage(p, to)
  {
    if stop != -1 {
      assert stop in Line(p, stop);
      if reentry {
        assert stop in Lineage(p, target);
        LineageThrough(p, from, target, stop);
      } else {
        assert Common(p, from, target, stop);
      }
      LineageThrough(p, to, target, stop);
    }
  }

  lemma StopsThere(shape: Shape, from: int, target: int, reentry: bool, stop: int)
    requires shape.Valid() && 0 <= from < |shape.nodes| && 0 <= target < |shape.nodes| && -1 <= stop < |shape.nodes|
    requires reentry ==> stop == shape.nodes[target].parent
    requires !reentry ==> forall x :: Common(shape.Parents(), from, target, x) <==> x in Line(shape.Parents(), stop)
    ensures StopsAt(shape.Parents(), from, target, reentry, stop)
  {
    hide Common, Line, Lineage;
    assert shape.Parents()[target] == shape.nodes[target].parent;
  }

  /** The depths count the states strictly below `stop`. */
  lemma {:induction false} StretchBelow(shape: Shape, i: int, stop: int)
    requires shape.Valid() && 0 <= i < |shape.nodes| && -1 <= stop < |shape.nodes|
    requires stop != -1 ==> stop in Lineage(shape.Parents(), i)
    ensures var p, depth := shape.Parents(), if stop == -1 then -1 else shape.nodes[stop].depth;
      && 0 <= shape.nodes[i].depth - depth == |Below(p, i, stop)| <= |Lineage(p, i)|
      && Below(p, i, stop) == Lineage(p, i)[..|Below(p, i, stop)|]
  {
    var p := shape.Parents();
    hide Lineage;
    BelowJoins(p, i, stop);
    assert shape.Numbered(i);
    if stop != -1 {
      assert shape.Numbered(stop);
    }
  }

  method Paths(shape: Shape, source: State, target: State, destination: State, reentry: bool)
    returns (exits: seq<State>, entries: seq<State>, ghost stop: int)
    requires shape.Valid() && source in shape.index && target in shape.index && destination in shape.index
    requires shape.index[target] in Lineage(shape.Parents(), shape.index[destination])
    requires reentry ==> shape.index[target] in Lineage(shape.Parents(), shape.index[source])
    ensures var p, from, to := shape.Parents(), shape.index[source], shape.index[destination];
      && StopsAt(p, from, shape.index[target], reentry, stop)
      && (stop != -1 ==> stop in Lineage(p, from) && stop in Lineage(p, to))
      && exits == shape.Names(Below(p, from, stop)) && entries == Reversed(shape.Names(Below(p, to, stop)))
  {
    hide Below, StopsAt, Lineage, Depth;
    ghost var p := shape.Parents();
    var from, to, at := shape.index[source], shape.index[destination], shape.index[target];
    ghost var goal := at;
    if reentry {
      assert p[goal] == shape.nodes[goal].parent;
      at := shape.nodes[at].parent;
    } else {
      at := LeastCommonAncestor(shape, from, at);
    }
    stop := at;
    StopsThere(shape, from, goal, reentry, stop);
    StopEncloses(p, from, goal, to, reentry, stop);
    StretchBelow(shape, from, stop);
    StretchBelow(shape, to, stop);
    var depth := if at == -1 then -1 else shape.nodes[at].depth;
    var exitCount, entryCount := shape.nodes[from].depth - depth, shape.nodes[to].depth - depth;
    if exitCount + entryCount == 0 {
      return [], [], stop;
    }
    exits := Upwards(shape, from, exitCount);
    entries := Downwards(shape, to, entryCount);
  }

  /** Fills a path from `from` up its parents. */
  method Upwards(shape: Shape, from: int, count: nat) returns (path: seq<State>)
    requires shape.Valid() && 0 <= from < |shape.nodes| && count <= |Lineage(shape.Parents(), from)|
    ensures path == shape.Names(Lineage(shape.Parents(), from)[..count])
  {
    ghost var line := Lineage(shape.Parents(), from);
    var left, node := new State[count](_ => 0), from;
    for k := 0 to count
      invariant node == if k < |line| then line[k] else -1
      invariant forall j | 0 <= j < k :: left[j] == shape.nodes[line[j]].state
    {
      LineageStep(shape.Parents(), from, k);
      left[k] := shape.nodes[node].state;
      node := shape.nodes[node].parent;
    }
    path := left[..];
  }

  /** Fills a path backwards, so that it ends at `to`. */
  method Downwards(shape: Shape, to: int, count: nat) returns (path: seq<State>)
    requires shape.Valid() && 0 <= to < |shape.nodes| && count <= |Lineage(shape.Parents(), to)|
    ensures path == Reversed(shape.Names(Lineage(shape.Parents(), to)[..count]))
  {
    hide Lineage, Depth, Enter, Exit, Reversed, Shape.Numbered, Shape.Settles;
    ghost var line := Lineage(shape.Parents(), to);
    var right, node, index := new State[count](_ => 0), to, count;
    while index > 0
      invariant 0 <= index <= count
      invariant node == if count - index < |line| then line[count - index] else -1
      invariant forall j | index <= j < count :: right[j] == shape.nodes[line[count - 1 - j]].state
    {
      LineageStep(shape.Parents(), to, count - index);
      index := index - 1;
      right[index] := shape.nodes[node].state;
      node := shape.nodes[node].parent;
    }
    path := right[..];
  }

  // --------------------------------------------------------------- replay

  datatype Move = Exited(state: State) | Entered(state: State)

  /** `s` may be entered on top of `chain`: it is inactive and its parent is the innermost active state. */
  ghost predicate Enterable(shape: Shape, chain: seq<State>, s: State)
    requires shape.Valid()
  {
    && s in shape.index && s !in chain
    && var parent := shape.Parents()[shape.index[s]];
       if parent == -1 then chain == [] else chain != [] && chain[0] == shape.nodes[parent].state
  }

  /** Replays moves on the active states, innermost first; None when a move exits an inactive or enters an active state. */
  ghost function Replay(shape: Shape, chain: seq<State>, moves: seq<Move>): Option<seq<State>>
    requires shape.Valid()
    decreases |moves|
  {
    if moves == [] then Some(chain)
    else match moves[0]
      case Exited(s) => if chain != [] && chain[0] == s then Replay(shape, chain[1..], moves[1..]) else None
      case Entered(s) => if Enterable(shape, chain, s) then Replay(shape, [s] + chain, moves[1..]) else None
  }

  lemma {:induction false} ReplayJoins(shape: Shape, chain: seq<State>, a: seq<Move>, b: seq<Move>)
    requires shape.Valid() && Replay(shape, chain, a).Some?
    ensures Replay(shape, chain, a + b) == Replay(shape, Replay(shape, chain, a).value, b)
    decreases |a|
  {
    if a == [] {
      assert a + b == b;
    } else {
      assert (a + b)[0] == a[0] && (a + b)[1..] == a[1..] + b;
      match a[0]
      case Exited(s) => ReplayJoins(shape, chain[1..], a[1..], b);
      case Entered(s) => ReplayJoins(shape, [s] + chain, a[1..], b);
    }
  }

  ghost function Exits(states: seq<State>): seq<Move> {
    seq(|states|, k requires 0 <= k < |states| => Exited(states[k]))
  }

  ghost function Entries(states: seq<State>): seq<Move> {
    seq(|states|, k requires 0 <= k < |states| => Entered(states[k]))
  }

  lemma {:induction false} ReplayExits(shape: Shape, states: seq<State>, rest: seq<State>)
    requires shape.Valid()
    ensures Replay(shape, states + rest, Exits(states)) == Some(rest)
    decreases |states|
  {
    if states == [] {
      assert states + rest == rest;
    } else {
      assert (states + rest)[1..] == states[1..] + rest;
      assert Exits(states)[1..] == Exits(states[1..]);
      ReplayExits(shape, states[1..], rest);
    }
  }

  lemma NamesApart(shape: Shape, a: int, b: int)
    requires shape.Valid() && 0 <= a < |shape.nodes| && 0 <= b < |shape.nodes| && a != b
    ensures shape.nodes[a].state != shape.nodes[b].state
  {
    assert shape.Numbered(a) && shape.Numbered(b);
  }

  lemma {:induction false} ReplayEntered(shape: Shape, chain: seq<State>, moves: seq<Move>)
    requires shape.Valid() && moves != [] && moves[0].Entered? && Enterable(shape, chain, moves[0].state)
    ensures Replay(shape, chain, moves) == Replay(shape, [moves[0].state] + chain, moves[1..])
  {
  }

  /** The `k`th active state may be entered once those above it are active. */
  lemma {:induction false} EntersNext(shape: Shape, to: int, k: nat)
    requires shape.Valid() && 0 <= to < |shape.nodes| && k < |Lineage(shape.Parents(), to)|
    ensures var line := Lineage(shape.Parents(), to);
      Enterable(shape, shape.Names(line[k + 1..]), shape.nodes[line[k]].state)
  {
    hide Lineage, Depth, Enter, Exit;
    var p := shape.Parents();
    var line := Lineage(p, to);
    var chain, s := shape.Names(line[k + 1..]), shape.nodes[line[k]].state;
    LineageStep(p, to, k);
    forall j | 0 <= j < |chain| ensures chain[j] != s {
      LineageDistinct(p, to, k, k + 1 + j);
      assert line[k + 1..][j] == line[k + 1 + j];
      NamesApart(shape, line[k], line[k + 1 + j]);
    }
    assert shape.Numbered(line[k]);
  }

  lemma NamesFrom(shape: Shape, line: seq<int>, k: nat)
    requires k < |line| && forall j | 0 <= j < |line| :: 0 <= line[j] < |shape.nodes|
    ensures shape.Names(line[k..]) == [shape.nodes[line[k]].state] + shape.Names(line[k + 1..])
  {
  }

  /** Entering a lineage from its member `k` down to its head, outermost first. */
  lemma {:induction false} ReplayEntries(shape: Shape, to: int, k: nat)
    requires shape.Valid() && 0 <= to < |shape.nodes| && k <= |Lineage(shape.Parents(), to)|
    ensures var line := Lineage(shape.Parents(), to);
      Replay(shape, shape.Names(line[k..]), Entries(Reversed(shape.Names(line[..k])))) == Some(shape.Names(line))
    decreases k
  {
    hide Lineage, Depth, Enter, Exit;
    var p := shape.Parents();
    var line := Lineage(p, to);
    if k == 0 {
      assert line[0..] == line && Entries(Reversed(shape.Names(line[..0]))) == [];
    } else {
      hide Replay;
      EntersNext(shape, to, k - 1);
      var moves := Entries(Reversed(shape.Names(line[..k])));
      assert moves[1..] == Entries(Reversed(shape.Names(line[..k - 1])));
      NamesFrom(shape, line, k - 1);
      ReplayEntered(shape, shape.Names(line[k..]), moves);
      ReplayEntries(shape, to, k - 1);
    }
  }

  /**
   * Path replay: from the active lineage of the source, the exits and then the
   * entries of a path only exit the innermost active state and only enter an
   * inactive child of it, and end at exactly the lineage of the destination.
   */
  lemma {:induction false} PathReplay(shape: Shape, source: State, destination: State, stop: int)
    requires shape.Valid() && source in shape.index && destination in shape.index && -1 <= stop < |shape.nodes|
    requires var p := shape.Parents();
      stop != -1 ==> stop in Lineage(p, shape.index[source]) && stop in Lineage(p, shape.index[destination])
    ensures var p, from, to := shape.Parents(), shape.index[source], shape.index[destination];
      Replay(shape, shape.Chain(source), Exits(shape.Names(Below(p, from, stop))) + Entries(Reversed(shape.Names(Below(p, to, stop)))))
      == Some(shape.Chain(destination))
  {
    hide Lineage, Depth, Enter, Exit, Replay, Shape.Numbered, Shape.Settles;
    var p, from, to := shape.Parents(), shape.index[source], shape.index[destination];
    BelowJoins(p, from, stop);
    BelowJoins(p, to, stop);
    var down, up, rest := Below(p, from, stop), Below(p, to, stop), Line(p, stop);
    assert shape.Chain(source) == shape.Names(down) + shape.Names(rest);
    ReplayExits(shape, shape.Names(down), shape.Names(rest));
    assert Lineage(p, to)[..|up|] == up && Lineage(p, to)[|up|..] == rest;
    ReplayEntries(shape, to, |up|);
    ReplayJoins(shape, shape.Chain(source), Exits(shape.Names(down)), Entries(Reversed(shape.Names(up))));
  }
}
