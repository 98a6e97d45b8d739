/**
 Walks in a finite directed graph given as an adjacency map, and the counting facts
 that link acyclicity to the length of a walk.
 */
module DirectedGraph {
  type Node = string
  type Adjacency = map<Node, set<Node>>

  /** The successors of n; a node that is not a key has none. */
  function Targets(adjacency: Adjacency, n: Node): set<Node> {
    if n in adjacency then adjacency[n] else {}
  }

  /** Every target is itself a key. */
  ghost predicate TargetsAreKeys(adjacency: Adjacency) {
    forall n, m {:trigger m in adjacency[n]} | n in adjacency && m in adjacency[n] :: m in adjacency
  }

  ghost predicate IsWalk(adjacency: Adjacency, walk: seq<Node>) {
    walk != [] && forall i | 0 < i < |walk| :: walk[i] in Targets(adjacency, walk[i - 1])
  }

  ghost predicate WalkFromTo(adjacency: Adjacency, walk: seq<Node>, source: Node, target: Node) {
    IsWalk(adjacency, walk) && walk[0] == source && walk[|walk| - 1] == target
  }

  ghost predicate Reaches(adjacency: Adjacency, source: Node, target: Node) {
    exists walk :: WalkFromTo(adjacency, walk, source, target)
  }

  ghost predicate IsClosedWalk(adjacency: Adjacency, walk: seq<Node>) {
    |walk| >= 2 && IsWalk(adjacency, walk) && walk[0] == walk[|walk| - 1]
  }

  ghost predicate HasClosedWalk(adjacency: Adjacency) {
    exists walk :: IsClosedWalk(adjacency, walk)
  }

  ghost predicate Distinct<T>(s: seq<T>) {
    forall i, j | 0 <= i < j < |s| :: s[i] != s[j]
  }

  lemma ReachesItself(adjacency: Adjacency, n: Node)
    ensures Reaches(adjacency, n, n)
  {
    assert WalkFromTo(adjacency, [n], n, n);
  }

  lemma ReachesExtends(adjacency: Adjacency, source: Node, middle: Node, target: Node)
    requires Reaches(adjacency, source, middle) && target in Targets(adjacency, middle)
    ensures Reaches(adjacency, source, target)
  {
    var walk :| WalkFromTo(adjacency, walk, source, middle);
    assert WalkFromTo(adjacency, walk + [target], source, target);
  }

  lemma SliceIsWalk(adjacency: Adjacency, walk: seq<Node>, i: nat, j: nat)
    requires IsWalk(adjacency, walk) && i < j <= |walk|
    ensures IsWalk(adjacency, walk[i..j])
  {
  }

  lemma PrependToWalk(adjacency: Adjacency, n: Node, rest: seq<Node>)
    requires IsWalk(adjacency, rest) && rest[0] in Targets(adjacency, n)
    ensures IsWalk(adjacency, [n] + rest)
  {
  }

  lemma WalksConcatenate(adjacency: Adjacency, w1: seq<Node>, w2: seq<Node>)
    requires IsWalk(adjacency, w1) && IsWalk(adjacency, w2) && w1[|w1| - 1] == w2[0]
    ensures WalkFromTo(adjacency, w1 + w2[1..], w1[0], w2[|w2| - 1])
  {
  }

  /** A set closed under the edges and holding the source holds everything reachable. */
  lemma {:induction false} ClosedSetContainsReachable(adjacency: Adjacency, closed: set<Node>, walk: seq<Node>)
    requires IsWalk(adjacency, walk) && walk[0] in closed
    requires forall n | n in closed :: Targets(adjacency, n) <= closed
    ensures walk[|walk| - 1] in closed
    decreases |walk|
  {
    if |walk| > 1 {
      var shorter := walk[0..|walk| - 1];
      SliceIsWalk(adjacency, walk, 0, |walk| - 1);
      ClosedSetContainsReachable(adjacency, closed, shorter);
      assert walk[|walk| - 1] in Targets(adjacency, shorter[|shorter| - 1]);
    }
  }

  /** A sequence without repetition is no longer than any set that holds its elements. */
  lemma {:induction false} DistinctFitsInSet<T>(s: seq<T>, universe: set<T>)
    requires Distinct(s) && forall i | 0 <= i < |s| :: s[i] in universe
    ensures |s| <= |universe|
    decreases |s|
  {
    if s != [] {
      var last := s[|s| - 1];
      DistinctFitsInSet(s[..|s| - 1], universe - {last});
    }
  }

  /** Cutting a walk at a repeated node yields a closed walk. */
  lemma RepetitionClosesWalk(adjacency: Adjacency, walk: seq<Node>, i: nat, j: nat)
    requires IsWalk(adjacency, walk) && i < j < |walk| && walk[i] == walk[j]
    ensures HasClosedWalk(adjacency)
  {
    SliceIsWalk(adjacency, walk, i, j + 1);
    var loop := walk[i..j + 1];
    assert IsClosedWalk(adjacency, loop);
  }

  /** Without a closed walk, a walk visits each key at most once. */
  lemma AcyclicWalkIsShort(adjacency: Adjacency, walk: seq<Node>)
    requires IsWalk(adjacency, walk) && !HasClosedWalk(adjacency)
    requires forall i | 0 <= i < |walk| :: walk[i] in adjacency
    ensures |walk| <= |adjacency|
  {
    forall i, j | 0 <= i < j < |walk| ensures walk[i] != walk[j] {
      if walk[i] == walk[j] {
        RepetitionClosesWalk(adjacency, walk, i, j);
      }
    }
    DistinctFitsInSet(walk, adjacency.Keys);
  }

  ghost predicate HasPredecessorIn(adjacency: Adjacency, nodes: set<Node>, n: Node) {
    exists m :: m in nodes && n in Targets(adjacency, m)
  }

  /** A nonempty set in which every node has a predecessor holds a walk of any length ... */
  lemma {:induction false} BackwardWalk(adjacency: Adjacency, stuck: set<Node>, length: nat) returns (walk: seq<Node>)
    requires stuck != {} && length > 0
    requires forall n {:trigger HasPredecessorIn(adjacency, stuck, n)} | n in stuck :: HasPredecessorIn(adjacency, stuck, n)
    ensures IsWalk(adjacency, walk) && |walk| == length
    ensures forall i | 0 <= i < |walk| :: walk[i] in stuck
    decreases length
  {
    if length == 1 {
      var n :| n in stuck;
      walk := [n];
    } else {
      var rest := BackwardWalk(adjacency, stuck, length - 1);
      var next := rest[0];
      assert HasPredecessorIn(adjacency, stuck, next);
      var m :| m in stuck && next in Targets(adjacency, m);
      PrependToWalk(adjacency, m, rest);
      walk := [m] + rest;
    }
  }

  /** ... and therefore, being finite, a closed walk. */
  lemma StuckSetHasClosedWalk(adjacency: Adjacency, stuck: set<Node>)
    requires stuck != {}
    requires forall n {:trigger HasPredecessorIn(adjacency, stuck, n)} | n in stuck :: HasPredecessorIn(adjacency, stuck, n)
    ensures HasClosedWalk(adjacency)
  {
    var walk := BackwardWalk(adjacency, stuck, |stuck| + 1);
    if Distinct(walk) {
      DistinctFitsInSet(walk, stuck);
    } else {
      var i, j :| 0 <= i < j < |walk| && walk[i] == walk[j];
      RepetitionClosesWalk(adjacency, walk, i, j);
    }
  }

  /** A rank that grows along every edge rules closed walks out. */
  lemma {:induction false} RankGrows(adjacency: Adjacency, rank: map<Node, nat>, walk: seq<Node>)
    requires IsWalk(adjacency, walk) && |walk| >= 2
    requires forall n, m {:trigger m in adjacency[n]} | n in adjacency && m in adjacency[n] ::
      n in rank && m in rank && rank[n] < rank[m]
    ensures walk[0] in rank && walk[|walk| - 1] in rank && rank[walk[0]] < rank[walk[|walk| - 1]]
    decreases |walk|
  {
    var before, last := walk[|walk| - 2], walk[|walk| - 1];
    assert last in adjacency[before] && rank[before] < rank[last];
    if |walk| > 2 {
      var shorter := walk[0..|walk| - 1];
      SliceIsWalk(adjacency, walk, 0, |walk| - 1);
      RankGrows(adjacency, rank, shorter);
      assert shorter[0] == walk[0] && shorter[|shorter| - 1] == before;
    }
  }
}
