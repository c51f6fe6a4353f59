/**
 * The state hierarchy as its parent chains define it: lineages, preorder, and
 * destinations of initial chains. States are indices in declaration order; the
 * parent of a root is -1.
 */
module Hierarchy {
  ghost predicate Parented(p: seq<int>) {
    forall i | 0 <= i < |p| :: -1 <= p[i] < |p|
  }

  ghost predicate Ranked(p: seq<int>, rank: seq<nat>)
    requires Parented(p)
  {
    |rank| == |p| && forall i | 0 <= i < |p| && p[i] != -1 :: rank[p[i]] < rank[i]
  }

  /** Every chain of parents ends at a root. */
  ghost predicate Forest(p: seq<int>) {
    Parented(p) && exists rank :: Ranked(p, rank)
  }

  ghost function RankOf(p: seq<int>): (rank: seq<nat>)
    requires Forest(p)
    ensures Ranked(p, rank)
  {
    var rank :| Ranked(p, rank);
    rank
  }

  ghost predicate Node(p: seq<int>, i: int) {
    0 <= i < |p|
  }

  /** `i`, its parent, and so on up to its root. */
  ghost function Lineage(p: seq<int>, i: int): (r: seq<int>)
    requires Forest(p) && Node(p, i)
    ensures |r| > 0 && r[0] == i && forall k | 0 <= k < |r| :: Node(p, r[k])
    decreases RankOf(p)[i]
  {
    [i] + if p[i] == -1 then [] else Lineage(p, p[i])
  }

  ghost function Depth(p: seq<int>, i: int): nat
    requires Forest(p) && Node(p, i)
  {
    |Lineage(p, i)| - 1
  }

  /** The rest of a lineage from one of its members is that member's lineage. */
  lemma {:induction false} LineageTail(p: seq<int>, i: int, k: nat)
    requires Forest(p) && Node(p, i) && k < |Lineage(p, i)|
    ensures Lineage(p, i)[k..] == Lineage(p, Lineage(p, i)[k])
    decreases k
  {
    if k > 0 {
      LineageTail(p, p[i], k - 1);
      assert Lineage(p, i)[k..] == Lineage(p, p[i])[k - 1..];
    }
  }

  /** Each member of a lineage is followed by its parent. */
  lemma {:induction false} LineageStep(p: seq<int>, i: int, k: nat)
    requires Forest(p) && Node(p, i) && k < |Lineage(p, i)|
    ensures p[Lineage(p, i)[k]] == if k + 1 < |Lineage(p, i)| then Lineage(p, i)[k + 1] else -1
  {
    var line := Lineage(p, i);
    LineageTail(p, i, k);
    assert line[k..][0] == line[k];
    assert k + 1 < |line| ==> line[k..][1] == line[k + 1];
  }

  /** Ranks fall along a lineage, so nothing occurs in it twice. */
  lemma {:induction false} LineageFalls(p: seq<int>, i: int, k: nat)
    requires Forest(p) && Node(p, i) && k < |Lineage(p, i)|
    ensures k > 0 ==> RankOf(p)[Lineage(p, i)[k]] < RankOf(p)[i]
    decreases k
  {
    if k > 0 {
      LineageFalls(p, p[i], k - 1);
    }
  }

  lemma {:induction false} LineageDistinct(p: seq<int>, i: int, j: nat, k: nat)
    requires Forest(p) && Node(p, i) && j < k < |Lineage(p, i)|
    ensures Lineage(p, i)[j] != Lineage(p, i)[k]
  {
    hide Lineage, Ranked;
    var line := Lineage(p, i);
    LineageTail(p, i, j);
    assert line[j..][k - j] == line[k];
    LineageFalls(p, line[j], k - j);
  }

  /** Ancestry is transitive. */
  lemma {:induction false} LineageThrough(p: seq<int>, i: int, x: int, y: int)
    requires Forest(p) && Node(p, i) && x in Lineage(p, i) && y in Lineage(p, x)
    ensures y in Lineage(p, i)
  {
    var k :| 0 <= k < |Lineage(p, i)| && Lineage(p, i)[k] == x;
    LineageTail(p, i, k);
  }

  // -------------------------------------------------------- descending

  /** The children of `i` (the roots, for -1) among the first `n` nodes, in declaration order. */
  ghost function ChildrenUpTo(p: seq<int>, i: int, n: nat): (r: seq<int>)
    requires n <= |p|
    ensures forall x :: x in r <==> 0 <= x < n && p[x] == i
  {
    if n == 0 then [] else ChildrenUpTo(p, i, n - 1) + if p[n - 1] == i then [n - 1] else []
  }

  ghost function Children(p: seq<int>, i: int): seq<int> {
    ChildrenUpTo(p, i, |p|)
  }

  lemma {:induction false} ChildrenAscend(p: seq<int>, i: int, n: nat)
    requires n <= |p|
    ensures forall j, k | 0 <= j < k < |ChildrenUpTo(p, i, n)| :: ChildrenUpTo(p, i, n)[j] < ChildrenUpTo(p, i, n)[k]
  {
    if n > 0 {
      ChildrenAscend(p, i, n - 1);
      var r := ChildrenUpTo(p, i, n - 1);
      forall j | 0 <= j < |r| ensures r[j] < n - 1 {
        assert r[j] in r;
      }
    }
  }

  ghost function MaxOf(s: seq<nat>): (m: nat)
    ensures forall i | 0 <= i < |s| :: s[i] <= m
  {
    if s == [] then 0 else
      var rest := MaxOf(s[..|s| - 1]);
      if rest < s[|s| - 1] then s[|s| - 1] else rest
  }

  /** How far below `i` the hierarchy can still reach. */
  ghost function Slack(p: seq<int>, i: int): nat
    requires Forest(p) && Node(p, i)
  {
    MaxOf(RankOf(p)) - RankOf(p)[i]
  }

  ghost predicate Nodes(p: seq<int>, s: seq<int>) {
    forall k | 0 <= k < |s| :: Node(p, s[k])
  }

  ghost function Reach(p: seq<int>, s: seq<int>): (r: nat)
    requires Forest(p) && Nodes(p, s)
    ensures forall x | x in s :: Slack(p, x) < r
  {
    if s == [] then 0 else
      var rest := Reach(p, s[..|s| - 1]);
      var last := Slack(p, s[|s| - 1]) + 1;
      assert s == s[..|s| - 1] + [s[|s| - 1]];
      if rest < last then last else rest
  }

  lemma {:induction false} ReachBelow(p: seq<int>, s: seq<int>, bound: nat)
    requires Forest(p) && Nodes(p, s) && forall x | x in s :: Slack(p, x) < bound
    ensures Reach(p, s) <= bound
  {
    if s != [] {
      ReachBelow(p, s[..|s| - 1], bound);
    }
  }

  lemma {:induction false} ChildrenReach(p: seq<int>, i: int)
    requires Forest(p) && Node(p, i)
    ensures Nodes(p, Children(p, i)) && Reach(p, Children(p, i)) <= Slack(p, i)
  {
    var s := Children(p, i);
    forall k | 0 <= k < |s| ensures Node(p, s[k]) {
      assert s[k] in s;
    }
    forall x | x in s ensures Slack(p, x) < Slack(p, i) {
      assert p[x] == i;
    }
    ReachBelow(p, s, Slack(p, i));
  }

  /** `i` and everything below it, in the order a stack of pending children visits it. */
  ghost function Pre(p: seq<int>, i: int): (r: seq<int>)
    requires Forest(p) && Node(p, i)
    ensures |r| > 0 && r[0] == i
    decreases Slack(p, i) + 1, 0, 0
  {
    ChildrenReach(p, i);
    [i] + PreAll(p, Children(p, i))
  }

  /** What a stack of pending nodes visits, last one first. */
  ghost function PreAll(p: seq<int>, s: seq<int>): seq<int>
    requires Forest(p) && Nodes(p, s)
    decreases Reach(p, s), 1, |s|
  {
    if s == [] then [] else
      assert s[|s| - 1] in s;
      Pre(p, s[|s| - 1]) + PreAll(p, s[..|s| - 1])
  }

  lemma {:induction false} PreAllStep(p: seq<int>, s: seq<int>)
    requires Forest(p) && Nodes(p, s) && s != []
    ensures Node(p, s[|s| - 1]) && Nodes(p, s[..|s| - 1])
    ensures PreAll(p, s) == Pre(p, s[|s| - 1]) + PreAll(p, s[..|s| - 1])
  {
    hide Pre, Slack, Reach;
  }

  lemma ReachStep(p: seq<int>, s: seq<int>)
    requires Forest(p) && Nodes(p, s) && s != []
    ensures Nodes(p, s[..|s| - 1]) && Reach(p, s[..|s| - 1]) <= Reach(p, s)
  {
    hide Slack;
  }

  lemma {:induction false} PreAllJoins(p: seq<int>, s: seq<int>, t: seq<int>)
    requires Forest(p) && Nodes(p, s) && Nodes(p, t)
    ensures Nodes(p, s + t) && PreAll(p, s + t) == PreAll(p, t) + PreAll(p, s)
    decreases |t|
  {
    if t == [] {
      assert s + t == s;
    } else {
      hide PreAll, Pre, Reach, Slack;
      var n := |t| - 1;
      var init, whole := t[..n], s + t;
      assert whole[..|whole| - 1] == s + init && whole[|whole| - 1] == t[n];
      PreAllJoins(p, s, init);
      PreAllStep(p, t);
      PreAllStep(p, whole);
      assert Pre(p, t[n]) + (PreAll(p, init) + PreAll(p, s)) == (Pre(p, t[n]) + PreAll(p, init)) + PreAll(p, s);
    }
  }

  /** Preorder below `i` is exactly what has `i` in its lineage. */
  lemma {:induction false} PreMembers(p: seq<int>, i: int, x: int)
    requires Forest(p) && Node(p, i) && Node(p, x)
    ensures x in Pre(p, i) <==> i in Lineage(p, x)
    decreases Slack(p, i) + 1, 0, 0
  {
    ChildrenReach(p, i);
    var s := Children(p, i);
    PreAllMembers(p, s, x);
    if x != i && i in Lineage(p, x) {
      var k :| 0 <= k < |Lineage(p, x)| && Lineage(p, x)[k] == i;
      var c := Lineage(p, x)[k - 1];
      LineageTail(p, x, k - 1);
      assert p[c] == i && c in s;
    }
    if x in PreAll(p, s) {
      var c :| c in s && c in Lineage(p, x);
      assert i in Lineage(p, c);
      LineageThrough(p, x, c, i);
    }
  }

  lemma {:induction false} PreAllMembers(p: seq<int>, s: seq<int>, x: int)
    requires Forest(p) && Nodes(p, s) && Node(p, x)
    ensures x in PreAll(p, s) <==> exists c :: c in s && c in Lineage(p, x)
    decreases Reach(p, s), 1, |s|
  {
    if s != [] {
      var last, init := s[|s| - 1], s[..|s| - 1];
      assert s == init + [last] && last in s;
      PreMembers(p, last, x);
      PreAllMembers(p, init, x);
    }
  }

  ghost predicate Distinct(s: seq<int>) {
    forall j, k | 0 <= j < k < |s| :: s[j] != s[k]
  }

  /** The members of one lineage lie on one chain. */
  lemma {:induction false} LineageOrder(p: seq<int>, x: int, a: int, b: int)
    requires Forest(p) && Node(p, x) && a in Lineage(p, x) && b in Lineage(p, x)
    ensures Node(p, a) && Node(p, b) && (a in Lineage(p, b) || b in Lineage(p, a))
  {
    hide Lineage;
    var line := Lineage(p, x);
    var j :| 0 <= j < |line| && line[j] == a;
    var k :| 0 <= k < |line| && line[k] == b;
    LineageTail(p, x, j);
    LineageTail(p, x, k);
    assert j <= k ==> line[j..][k - j] == b;
    assert k <= j ==> line[k..][j - k] == a;
  }

  lemma {:induction false} SiblingNotAbove(p: seq<int>, a: int, b: int)
    requires Forest(p) && Node(p, a) && Node(p, b) && a != b && p[a] == p[b]
    ensures b !in Lineage(p, a)
  {
    if p[a] != -1 {
      var line := Lineage(p, p[a]);
      forall k | 0 <= k < |line| ensures line[k] != b {
        LineageFalls(p, p[a], k);
      }
      assert Lineage(p, a) == [a] + line;
    }
  }

  /** Siblings share no descendants. */
  lemma {:induction false} SiblingsApart(p: seq<int>, a: int, b: int, x: int)
    requires Forest(p) && Node(p, a) && Node(p, b) && Node(p, x) && a != b && p[a] == p[b]
    ensures !(a in Lineage(p, x) && b in Lineage(p, x))
  {
    hide Lineage;
    SiblingNotAbove(p, a, b);
    SiblingNotAbove(p, b, a);
    if a in Lineage(p, x) && b in Lineage(p, x) {
      LineageOrder(p, x, a, b);
    }
  }

  lemma DistinctJoins(s: seq<int>, t: seq<int>)
    requires Distinct(s) && Distinct(t) && forall x | x in s :: x !in t
    ensures Distinct(s + t)
  {
    forall j, k | 0 <= j < k < |s + t| ensures (s + t)[j] != (s + t)[k] {
      if j < |s| <= k {
        assert s[j] in s && t[k - |s|] in t;
      }
    }
  }

  lemma {:induction false} PreDistinct(p: seq<int>, i: int)
    requires Forest(p) && Node(p, i)
    ensures Distinct(Pre(p, i))
    decreases Slack(p, i) + 1, 0, 0
  {
    ChildrenReach(p, i);
    var s := Children(p, i);
    ChildrenAscend(p, i, |p|);
    forall x | x in s ensures p[x] == i {}
    PreAllDistinct(p, s, i);
    PreAllNodes(p, s);
    PreAllMembers(p, s, i);
    var line := Lineage(p, i);
    forall c | c in s ensures c !in line {
      forall k | 0 <= k < |line| ensures line[k] != c {
        LineageFalls(p, i, k);
      }
    }
    DistinctJoins([i], PreAll(p, s));
  }

  lemma {:induction false} PreAllNodes(p: seq<int>, s: seq<int>)
    requires Forest(p) && Nodes(p, s)
    ensures Nodes(p, PreAll(p, s))
    decreases Reach(p, s), 1, |s|
  {
    if s != [] {
      var last := s[|s| - 1];
      assert last in s;
      ChildrenReach(p, last);
      PreAllNodes(p, Children(p, last));
      PreAllNodes(p, s[..|s| - 1]);
    }
  }

  /** Distinct nodes with one parent visit disjoint subtrees. */
  lemma {:induction false} PreAllDistinct(p: seq<int>, s: seq<int>, parent: int)
    requires Forest(p) && Nodes(p, s) && Distinct(s) && forall x | x in s :: p[x] == parent
    ensures Distinct(PreAll(p, s))
    decreases Reach(p, s), 1, |s|
  {
    if s != [] {
      var last, init := s[|s| - 1], s[..|s| - 1];
      assert s == init + [last] && last in s;
      PreDistinct(p, last);
      PreAllDistinct(p, init, parent);
      PreAllNodes(p, init);
      PreAllNodes(p, [last]);
      assert PreAll(p, [last]) == Pre(p, last) + PreAll(p, []) == Pre(p, last);
      forall x | x in Pre(p, last) ensures x !in PreAll(p, init) {
        ApartFrom(p, init, last, x);
      }
      DistinctJoins(Pre(p, last), PreAll(p, init));
    }
  }

  lemma {:induction false} ApartFrom(p: seq<int>, s: seq<int>, last: int, x: int)
    requires Forest(p) && Nodes(p, s) && Node(p, last) && last !in s && Node(p, x) && x in Pre(p, last)
    requires forall c | c in s :: p[c] == p[last]
    ensures x !in PreAll(p, s)
  {
    hide Pre, PreAll, Lineage, Reach;
    PreMembers(p, last, x);
    PreAllMembers(p, s, x);
    forall c | c in s ensures c !in Lineage(p, x) {
      SiblingsApart(p, last, c, x);
    }
  }

  // ------------------------------------------------------- contiguity

  /** `t` stands at position `k` of `s`. */
  ghost predicate StandsAt(s: seq<int>, k: int, t: seq<int>) {
    0 <= k && k + |t| <= |s| && s[k..k + |t|] == t
  }

  lemma StandsThrough(s: seq<int>, j: int, t: seq<int>, k: int, u: seq<int>)
    requires StandsAt(s, j, t) && StandsAt(t, k, u)
    ensures StandsAt(s, j + k, u)
  {
    forall m | 0 <= m < |u| ensures s[j + k + m] == u[m] {
      assert s[j..j + |t|][k + m] == t[k + m];
      assert t[k..k + |u|][m] == u[m];
    }
  }

  lemma PreSplits(p: seq<int>, i: int)
    requires Forest(p) && Node(p, i)
    ensures Nodes(p, Children(p, i)) && Pre(p, i) == [i] + PreAll(p, Children(p, i))
  {
    ChildrenReach(p, i);
  }

  lemma StandsFrom(s: seq<int>, k: int, t: seq<int>)
    requires StandsAt(s, k, t)
    ensures k >= 0
  {
  }

  /** A subtree is a contiguous stretch of every preorder it occurs in. */
  lemma {:induction false} PreStands(p: seq<int>, i: int, v: int) returns (k: int)
    requires Forest(p) && Node(p, i) && Node(p, v) && v in Pre(p, i)
    ensures StandsAt(Pre(p, i), k, Pre(p, v)) && (v != i ==> k > 0)
    decreases Slack(p, i) + 1, 0, 0
  {
    if v == i {
      k := 0;
    } else {
      PreSplits(p, i);
      ChildrenReach(p, i);
      hide Pre, PreAll, StandsAt, Reach, Slack, Nodes, Forest, Children;
      InEither([i], PreAll(p, Children(p, i)), v);
      var j := PreAllStands(p, Children(p, i), v);
      StandsWithin([i], PreAll(p, Children(p, i)), j, Pre(p, v));
      StandsFrom(PreAll(p, Children(p, i)), j, Pre(p, v));
      k := j + 1;
    }
  }

  lemma InEither(s: seq<int>, t: seq<int>, x: int)
    ensures x in s + t <==> x in s || x in t
  {
  }

  lemma StandsWithin(s: seq<int>, t: seq<int>, k: int, u: seq<int>)
    ensures StandsAt(s, k, u) ==> StandsAt(s + t, k, u)
    ensures StandsAt(t, k, u) ==> StandsAt(s + t, |s| + k, u)
  {
    if StandsAt(s, k, u) {
      assert (s + t)[k..k + |u|] == s[k..k + |u|];
    }
    if StandsAt(t, k, u) {
      assert (s + t)[|s| + k..|s| + k + |u|] == t[k..k + |u|];
    }
  }

  lemma StandsSecond(s: seq<int>, t: seq<int>)
    ensures StandsAt(s + t, |s|, t)
  {
  }

  lemma {:induction false} PreAllStands(p: seq<int>, s: seq<int>, v: int) returns (k: int)
    requires Forest(p) && Nodes(p, s) && Node(p, v) && v in PreAll(p, s)
    ensures StandsAt(PreAll(p, s), k, Pre(p, v))
    decreases Reach(p, s), 1, |s|
  {
    var last, init := s[|s| - 1], s[..|s| - 1];
    assert last in s;
    PreAllStep(p, s);
    ReachStep(p, s);
    hide Pre, PreAll, StandsAt, Reach, Slack, Nodes, Forest;
    InEither(Pre(p, last), PreAll(p, init), v);
    if v in Pre(p, last) {
      k := PreStands(p, last, v);
      StandsWithin(Pre(p, last), PreAll(p, init), k, Pre(p, v));
    } else {
      var j := PreAllStands(p, init, v);
      StandsWithin(Pre(p, last), PreAll(p, init), j, Pre(p, v));
      k := |Pre(p, last)| + j;
    }
  }

  /** The whole forest in preorder. */
  ghost function Preorder(p: seq<int>): seq<int>
    requires Forest(p)
  {
    RootsAreNodes(p);
    PreAll(p, Children(p, -1))
  }

  lemma RootsAreNodes(p: seq<int>)
    ensures Nodes(p, Children(p, -1))
  {
    var s := Children(p, -1);
    forall k | 0 <= k < |s| ensures Node(p, s[k]) {
      assert s[k] in s;
    }
  }

  /** Every node stands in the preorder exactly once. */
  lemma PreorderComplete(p: seq<int>)
    requires Forest(p)
    ensures Distinct(Preorder(p)) && Nodes(p, Preorder(p)) && forall i | Node(p, i) :: i in Preorder(p)
  {
    RootsAreNodes(p);
    var s := Children(p, -1);
    ChildrenAscend(p, -1, |p|);
    PreAllDistinct(p, s, -1);
    PreAllNodes(p, s);
    forall i | Node(p, i) ensures i in Preorder(p) {
      var line := Lineage(p, i);
      LineageTail(p, i, |line| - 1);
      var root := line[|line| - 1];
      assert Lineage(p, root) == [root];
      assert p[root] == -1 && root in s;
      PreAllMembers(p, s, i);
    }
  }

  /** Where node `i` is visited. */
  ghost function Enter(p: seq<int>, i: int): (k: nat)
    requires Forest(p) && Node(p, i)
    ensures k < |Preorder(p)| && Preorder(p)[k] == i
  {
    PreorderComplete(p);
    var k :| 0 <= k < |Preorder(p)| && Preorder(p)[k] == i;
    k
  }

  lemma EnterUnique(p: seq<int>, k: nat)
    requires Forest(p) && k < |Preorder(p)|
    ensures Node(p, Preorder(p)[k]) && Enter(p, Preorder(p)[k]) == k
  {
    PreorderComplete(p);
  }

  /** One past the last descendant of `i`. */
  ghost function Exit(p: seq<int>, i: int): nat
    requires Forest(p) && Node(p, i)
  {
    Enter(p, i) + |Pre(p, i)|
  }

  /** The subtree of `i` is the stretch of the preorder from Enter to Exit. */
  lemma {:induction false} SubtreeStands(p: seq<int>, i: int)
    requires Forest(p) && Node(p, i)
    ensures StandsAt(Preorder(p), Enter(p, i), Pre(p, i))
  {
    hide Pre, PreAll, Enter, Children, Lineage;
    RootsAreNodes(p);
    PreorderComplete(p);
    var k := PreAllStands(p, Children(p, -1), i);
    assert Preorder(p)[k] == Preorder(p)[k..k + |Pre(p, i)|][0] == i;
    EnterUnique(p, k);
  }

  /** Where a descendant's stretch lies inside its ancestor's. */
  lemma {:induction false} SubtreeInside(p: seq<int>, i: int, v: int)
    requires Forest(p) && Node(p, i) && Node(p, v) && i in Lineage(p, v)
    ensures Enter(p, i) <= Enter(p, v) && Exit(p, v) <= Exit(p, i) && (v != i ==> Enter(p, i) < Enter(p, v))
  {
    hide Pre, PreAll, Preorder, Enter, Children, Lineage;
    PreMembers(p, i, v);
    SubtreeStands(p, i);
    var k := PreStands(p, i, v);
    StandsThrough(Preorder(p), Enter(p, i), Pre(p, i), k, Pre(p, v));
    var at := Enter(p, i) + k;
    assert Preorder(p)[at] == Preorder(p)[at..at + |Pre(p, v)|][0] == v;
    EnterUnique(p, at);
  }

  /**
   * The interval test is ancestry: `i` encloses `v`, or is it, exactly when the
   * stretch of `v` lies inside the stretch of `i`.
   */
  lemma {:induction false} IntervalIsAncestry(p: seq<int>, i: int, v: int)
    requires Forest(p) && Node(p, i) && Node(p, v)
    ensures Enter(p, i) <= Enter(p, v) && Exit(p, v) <= Exit(p, i) <==> i in Lineage(p, v)
  {
    hide Pre, PreAll, Preorder, Enter, Children, Lineage;
    if i in Lineage(p, v) {
      SubtreeInside(p, i, v);
    } else if Enter(p, i) <= Enter(p, v) && Exit(p, v) <= Exit(p, i) {
      InsideIsBelow(p, i, v);
    }
  }

  lemma {:induction false} InsideIsBelow(p: seq<int>, i: int, v: int)
    requires Forest(p) && Node(p, i) && Node(p, v) && Enter(p, i) <= Enter(p, v) < Exit(p, i)
    ensures i in Lineage(p, v)
  {
    hide Pre, PreAll, Preorder, Enter, Children, Lineage;
    SubtreeStands(p, i);
    StandsMember(Preorder(p), Enter(p, i), Pre(p, i), Enter(p, v));
    PreMembers(p, i, v);
  }

  lemma StandsMember(s: seq<int>, k: int, t: seq<int>, at: int)
    requires StandsAt(s, k, t) && k <= at < k + |t|
    ensures s[at] in t
  {
    assert s[k..k + |t|][at - k] == t[at - k];
  }

  /** The last stretch inside a subtree is that of its first child. */
  lemma FirstChildLast(p: seq<int>, i: int)
    requires Forest(p) && Node(p, i) && Children(p, i) != []
    ensures Node(p, Children(p, i)[0]) && Exit(p, Children(p, i)[0]) == Exit(p, i)
  {
    var c := Children(p, i)[0];
    var k := FirstChildStands(p, i);
    SubtreeStands(p, i);
    hide Pre, PreAll, Preorder, Children, Enter;
    StandsThrough(Preorder(p), Enter(p, i), Pre(p, i), k, Pre(p, c));
    var at := Enter(p, i) + k;
    assert Preorder(p)[at] == Preorder(p)[at..at + |Pre(p, c)|][0] == c;
    EnterUnique(p, at);
  }

  lemma PreAllOne(p: seq<int>, c: int)
    requires Forest(p) && Node(p, c)
    ensures PreAll(p, [c]) == Pre(p, c)
  {
    PreAllStep(p, [c]);
    assert PreAll(p, [c][..0]) == [];
  }

  lemma PrefixedBy(x: int, s: seq<int>, t: seq<int>)
    ensures [x] + (s + t) == ([x] + s) + t && |[x] + (s + t)| == 1 + |s| + |t|
  {
  }

  lemma FirstChildStands(p: seq<int>, i: int) returns (k: nat)
    requires Forest(p) && Node(p, i) && Children(p, i) != []
    ensures Node(p, Children(p, i)[0]) && StandsAt(Pre(p, i), k, Pre(p, Children(p, i)[0]))
    ensures k + |Pre(p, Children(p, i)[0])| == |Pre(p, i)|
  {
    var s := Children(p, i);
    var c := s[0];
    PreSplits(p, i);
    assert s == [c] + s[1..] && Node(p, c);
    PreAllJoins(p, [c], s[1..]);
    PreAllOne(p, c);
    hide Pre, PreAll, Children, Nodes, Forest, StandsAt;
    PrefixedBy(i, PreAll(p, s[1..]), Pre(p, c));
    StandsSecond([i] + PreAll(p, s[1..]), Pre(p, c));
    k := 1 + |PreAll(p, s[1..])|;
  }

  // ---------------------------------------------------- initial chains

  /** Each initial child is a child of its parent; -1 where there is none. */
  ghost predicate Initials(p: seq<int>, initial: seq<int>) {
    |initial| == |p| && forall i | 0 <= i < |p| && initial[i] != -1 :: Node(p, initial[i]) && p[initial[i]] == i
  }

  /** The node reached by following initial children. */
  ghost function Destination(p: seq<int>, initial: seq<int>, i: int): (d: int)
    requires Forest(p) && Initials(p, initial) && Node(p, i)
    ensures Node(p, d) && initial[d] == -1
    decreases Slack(p, i)
  {
    if initial[i] == -1 then i else Destination(p, initial, initial[i])
  }

  /** A destination lies below where its chain starts, and is its own destination. */
  lemma {:induction false} DestinationBelow(p: seq<int>, initial: seq<int>, i: int)
    requires Forest(p) && Initials(p, initial) && Node(p, i)
    ensures i in Lineage(p, Destination(p, initial, i))
    ensures Destination(p, initial, Destination(p, initial, i)) == Destination(p, initial, i)
    decreases Slack(p, i)
  {
    if initial[i] != -1 {
      var c := initial[i];
      DestinationBelow(p, initial, c);
      assert i in Lineage(p, c);
      LineageThrough(p, Destination(p, initial, i), c, i);
    }
  }
}
