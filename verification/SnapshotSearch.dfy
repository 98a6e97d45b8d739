/**
 The two graph searches of the snapshot validator: a reachability search over a worklist in which a
 node may be pending twice, and Kahn's cycle test.
 */
module SnapshotSearch {
  import opened DirectedGraph

  /** Appends the members of a set to a list in whatever order the set yields them. */
  method Extend(pending: seq<Node>, nodes: set<Node>) returns (extended: seq<Node>)
    ensures pending <= extended
    ensures forall n :: n in extended <==> n in pending || n in nodes
    ensures Distinct(pending) && (forall n | n in pending :: n !in nodes) ==> Distinct(extended)
  {
    extended := pending;
    var todo := nodes;
    while todo != {}
      invariant todo <= nodes && pending <= extended
      invariant forall n :: n in extended <==> n in pending || n in nodes - todo
      invariant Distinct(pending) && (forall n | n in pending :: n !in nodes) ==> Distinct(extended)
    {
      var n :| n in todo;
      extended, todo := extended + [n], todo - {n};
    }
  }

  /** Everything mentioned by the adjacency map, and the source of the search. */
  ghost function Universe(adjacency: Adjacency, source: Node): set<Node> {
    {source} + adjacency.Keys + (set n, m | n in adjacency && m in adjacency[n] :: m)
  }

  lemma TargetsInUniverse(adjacency: Adjacency, source: Node, n: Node)
    ensures Targets(adjacency, n) <= Universe(adjacency, source)
  {
  }

  /** The search returns exactly the reachable nodes, although nodes may be pending twice. */
  method ReachableNodes(source: Node, adjacency: Adjacency) returns (visited: set<Node>)
    ensures forall n :: n in visited <==> Reaches(adjacency, source, n)
  {
    visited := {};
    var pending := [source];
    ReachesItself(adjacency, source);
    while pending != []
      invariant visited <= Universe(adjacency, source)
      invariant forall n | n in pending :: n in Universe(adjacency, source)
      invariant forall n | n in visited || n in pending :: Reaches(adjacency, source, n)
      invariant source in visited || source in pending
      invariant forall n, m | n in visited && m in Targets(adjacency, n) :: m in visited || m in pending
      decreases Universe(adjacency, source) - visited, |pending|
    {
      var current := pending[|pending| - 1];
      ghost var before := pending;
      pending := pending[..|pending| - 1];
      assert forall n | n in before :: n in pending || n == current;
      if current !in visited {
        visited := visited + {current};
        TargetsInUniverse(adjacency, source, current);
        forall n | n in Targets(adjacency, current) ensures Reaches(adjacency, source, n) {
          ReachesExtends(adjacency, source, current, n);
        }
        pending := Extend(pending, Targets(adjacency, current));
      }
    }
    forall n | Reaches(adjacency, source, n) ensures n in visited {
      var walk :| WalkFromTo(adjacency, walk, source, n);
      ClosedSetContainsReachable(adjacency, visited, walk);
    }
  }

  // --- Kahn's cycle test ---

  /** The predecessors of n that have not been removed yet. */
  ghost function LivePredecessors(adjacency: Adjacency, removed: set<Node>, n: Node): set<Node> {
    set m | m in adjacency && m !in removed && n in adjacency[m]
  }

  ghost function InDegree(adjacency: Adjacency, removed: set<Node>, n: Node): nat {
    |LivePredecessors(adjacency, removed, n)|
  }

  lemma RemovingPredecessor(adjacency: Adjacency, removed: set<Node>, current: Node, n: Node)
    requires current in adjacency && current !in removed
    ensures InDegree(adjacency, removed + {current}, n)
         == InDegree(adjacency, removed, n) - (if n in adjacency[current] then 1 else 0)
  {
    var live := LivePredecessors(adjacency, removed, n);
    var left := LivePredecessors(adjacency, removed + {current}, n);
    if n in adjacency[current] {
      assert live == left + {current};
    } else {
      assert live == left;
    }
  }

  /** Adds one to the count of every target. */
  method AddTargets(indegree: map<Node, int>, targets: set<Node>) returns (counted: map<Node, int>)
    requires targets <= indegree.Keys
    ensures counted.Keys == indegree.Keys
    ensures forall n {:trigger counted[n]} | n in indegree :: counted[n] == indegree[n] + (if n in targets then 1 else 0)
  {
    counted := indegree;
    var todo := targets;
    while todo != {}
      invariant todo <= targets && counted.Keys == indegree.Keys
      invariant forall n {:trigger counted[n]} | n in indegree ::
        counted[n] == indegree[n] + (if n in targets - todo then 1 else 0)
    {
      var target :| target in todo;
      counted := counted[target := counted[target] + 1];
      todo := todo - {target};
    }
  }

  /** Takes one from the count of every target; those that reach zero become pending. */
  method DropTargets(indegree: map<Node, int>, pending: seq<Node>, targets: set<Node>)
    returns (counted: map<Node, int>, extended: seq<Node>)
    requires targets <= indegree.Keys && Distinct(pending)
    requires forall n | n in targets :: indegree[n] >= 1 && n !in pending
    ensures counted.Keys == indegree.Keys
    ensures forall n {:trigger counted[n]} | n in indegree :: counted[n] == indegree[n] - (if n in targets then 1 else 0)
    ensures Distinct(extended)
    ensures forall n :: n in extended <==> n in pending || (n in targets && indegree[n] == 1)
  {
    counted, extended := indegree, pending;
    var todo := targets;
    while todo != {}
      invariant todo <= targets && counted.Keys == indegree.Keys
      invariant forall n {:trigger counted[n]} | n in indegree ::
        counted[n] == indegree[n] - (if n in targets - todo then 1 else 0)
      invariant Distinct(extended)
      invariant forall n :: n in extended <==> n in pending || (n in targets - todo && indegree[n] == 1)
    {
      var target :| target in todo;
      counted := counted[target := counted[target] - 1];
      if counted[target] == 0 {
        extended := extended + [target];
      }
      todo := todo - {target};
    }
  }

  /** Counts how many keys point at each key. */
  method CountInDegrees(adjacency: Adjacency) returns (indegree: map<Node, int>)
    requires TargetsAreKeys(adjacency)
    ensures indegree.Keys == adjacency.Keys
    ensures forall n {:trigger indegree[n]} | n in indegree :: indegree[n] == InDegree(adjacency, {}, n)
  {
    indegree := map n | n in adjacency :: 0;
    var sources := adjacency.Keys;
    NoneLive(adjacency);
    while sources != {}
      invariant sources <= adjacency.Keys && indegree.Keys == adjacency.Keys
      invariant forall n {:trigger indegree[n]} | n in indegree :: indegree[n] == InDegree(adjacency, sources, n)
    {
      var source :| source in sources;
      RestoringPredecessor(adjacency, sources, source);
      indegree := AddTargets(indegree, adjacency[source]);
      sources := sources - {source};
    }
  }

  lemma NoneLive(adjacency: Adjacency)
    ensures forall n :: InDegree(adjacency, adjacency.Keys, n) == 0
  {
  }

  lemma RestoringPredecessor(adjacency: Adjacency, removed: set<Node>, source: Node)
    requires source in adjacency && source in removed
    ensures forall n :: InDegree(adjacency, removed - {source}, n)
                     == InDegree(adjacency, removed, n) + (if n in adjacency[source] then 1 else 0)
  {
    assert (removed - {source}) + {source} == removed;
    forall n ensures InDegree(adjacency, removed - {source}, n)
                  == InDegree(adjacency, removed, n) + (if n in adjacency[source] then 1 else 0) {
      RemovingPredecessor(adjacency, removed - {source}, source, n);
    }
  }

  /** The state of Kahn's loop: removed nodes, and pending nodes with no live predecessor. */
  ghost predicate KahnState(adjacency: Adjacency, indegree: map<Node, int>, removed: set<Node>, pending: seq<Node>)
  {
    && indegree.Keys == adjacency.Keys
    && removed <= adjacency.Keys
    && Distinct(pending)
    && (forall n | n in pending :: n in adjacency && n !in removed)
    && (forall n {:trigger indegree[n]} | n in adjacency :: indegree[n] == 0 <==> n in removed || n in pending)
    && (forall n {:trigger indegree[n]} | n in adjacency :: indegree[n] == InDegree(adjacency, removed, n))
  }

  /** Ranks of the removed nodes in order of removal. */
  ghost predicate RanksRemoved(adjacency: Adjacency, rank: map<Node, nat>, removed: set<Node>, visited: nat) {
    && rank.Keys == removed
    && (forall n | n in rank :: rank[n] < visited)
    && (forall n, m {:trigger m in adjacency[n]} | n in adjacency && m in adjacency[n] && m in removed ::
          n in rank && rank[n] < rank[m])
  }

  /**
   Takes the last pending node out of the graph. No count goes negative: a target of a
   pending node still counts that node.
   */
  method RemoveNode(adjacency: Adjacency, indegree: map<Node, int>, ghost removed: set<Node>, pending: seq<Node>)
    returns (counted: map<Node, int>, remaining: seq<Node>)
    requires TargetsAreKeys(adjacency) && pending != []
    requires KahnState(adjacency, indegree, removed, pending)
    ensures KahnState(adjacency, counted, removed + {pending[|pending| - 1]}, remaining)
    ensures forall n {:trigger counted[n]} | n in counted :: counted[n] >= 0
  {
    var current := pending[|pending| - 1];
    var others := pending[..|pending| - 1];
    LastIsApart(pending);
    TargetsStillCounted(adjacency, indegree, removed, current);
    counted, remaining := DropTargets(indegree, others, adjacency[current]);
    KahnStep(adjacency, indegree, removed, others, current, counted, remaining);
  }

  lemma KahnStep(adjacency: Adjacency, indegree: map<Node, int>, removed: set<Node>, others: seq<Node>, current: Node,
                 counted: map<Node, int>, remaining: seq<Node>)
    requires indegree.Keys == counted.Keys == adjacency.Keys && removed <= adjacency.Keys
    requires current in adjacency && current !in removed && current !in others
    requires forall n | n in others :: n in adjacency && n !in removed
    requires forall n {:trigger indegree[n]} | n in adjacency ::
      indegree[n] == 0 <==> n in removed || n in others || n == current
    requires forall n {:trigger indegree[n]} | n in adjacency ::
      indegree[n] >= 0
    requires forall n {:trigger n in adjacency[current]} | n in adjacency[current] :: n in adjacency && indegree[n] >= 1
    requires forall n {:trigger indegree[n]} | n in adjacency ::
      InDegree(adjacency, removed + {current}, n) == indegree[n] - (if n in adjacency[current] then 1 else 0)
    requires forall n {:trigger counted[n]} | n in indegree ::
      counted[n] == indegree[n] - (if n in adjacency[current] then 1 else 0)
    requires Distinct(remaining)
    requires forall n :: n in remaining <==> n in others || (n in adjacency[current] && indegree[n] == 1)
    ensures KahnState(adjacency, counted, removed + {current}, remaining)
    ensures forall n {:trigger counted[n]} | n in counted :: counted[n] >= 0
  {
  }

  lemma LastIsApart(pending: seq<Node>)
    requires Distinct(pending) && pending != []
    ensures var last, others := pending[|pending| - 1], pending[..|pending| - 1];
      Distinct(others) && last !in others && forall n :: n in pending <==> n in others || n == last
  {
  }

  lemma TargetsStillCounted(adjacency: Adjacency, indegree: map<Node, int>, removed: set<Node>, current: Node)
    requires current in adjacency && current !in removed && indegree.Keys == adjacency.Keys
    requires forall n {:trigger indegree[n]} | n in adjacency ::
      indegree[n] == InDegree(adjacency, removed, n)
    ensures forall n {:trigger indegree[n]} | n in adjacency ::
      && InDegree(adjacency, removed + {current}, n) == indegree[n] - (if n in adjacency[current] then 1 else 0)
      && (n in adjacency[current] ==> indegree[n] >= 1)
  {
    forall n | n in adjacency
      ensures InDegree(adjacency, removed + {current}, n) == indegree[n] - (if n in adjacency[current] then 1 else 0)
      ensures n in adjacency[current] ==> indegree[n] >= 1
    {
      RemovingPredecessor(adjacency, removed, current, n);
    }
  }

  /** The node taken next can be ranked after everything removed before it. */
  lemma RankNext(adjacency: Adjacency, indegree: map<Node, int>, rank: map<Node, nat>, removed: set<Node>,
                 pending: seq<Node>, visited: nat)
    requires KahnState(adjacency, indegree, removed, pending) && pending != []
    requires RanksRemoved(adjacency, rank, removed, visited)
    ensures var current := pending[|pending| - 1];
      current !in removed && RanksRemoved(adjacency, rank[current := visited], removed + {current}, visited + 1)
  {
  }

  /** Kahn's test is exact: true precisely when the graph has a closed walk. */
  method ContainsCycle(adjacency: Adjacency) returns (cyclic: bool)
    requires TargetsAreKeys(adjacency)
    ensures cyclic <==> HasClosedWalk(adjacency)
  {
    var indegree := CountInDegrees(adjacency);
    var pending := Extend([], set n | n in indegree && indegree[n] == 0);
    assert KahnState(adjacency, indegree, {}, pending);
    var visited := 0;
    ghost var removed: set<Node> := {};
    ghost var rank: map<Node, nat> := map[];
    while pending != []
      invariant KahnState(adjacency, indegree, removed, pending)
      invariant RanksRemoved(adjacency, rank, removed, visited)
      invariant visited == |removed|
      decreases adjacency.Keys - removed
    {
      ghost var current := pending[|pending| - 1];
      RankNext(adjacency, indegree, rank, removed, pending, visited);
      indegree, pending := RemoveNode(adjacency, indegree, removed, pending);
      rank, removed := rank[current := visited], removed + {current};
      visited := visited + 1;
    }
    cyclic := visited != |indegree|;
    KahnVerdict(adjacency, indegree, rank, removed, visited);
  }

  /** Nodes left over when nothing is pending all have a left-over predecessor. */
  lemma RemainderIsStuck(adjacency: Adjacency, indegree: map<Node, int>, removed: set<Node>)
    requires KahnState(adjacency, indegree, removed, []) && adjacency.Keys - removed != {}
    ensures HasClosedWalk(adjacency)
  {
    var stuck := adjacency.Keys - removed;
    forall n | n in stuck ensures HasPredecessorIn(adjacency, stuck, n) {
      assert LivePredecessors(adjacency, removed, n) != {};
      var m :| m in LivePredecessors(adjacency, removed, n);
      assert m in stuck && n in Targets(adjacency, m);
    }
    StuckSetHasClosedWalk(adjacency, stuck);
  }

  /** When every node was removed, the order of removal rules closed walks out. */
  lemma FullRemovalRanks(adjacency: Adjacency, rank: map<Node, nat>, removed: set<Node>, visited: nat)
    requires TargetsAreKeys(adjacency) && removed == adjacency.Keys
    requires RanksRemoved(adjacency, rank, removed, visited)
    ensures !HasClosedWalk(adjacency)
  {
    forall walk | IsClosedWalk(adjacency, walk) ensures false {
      RankGrows(adjacency, rank, walk);
    }
  }

  lemma KahnVerdict(adjacency: Adjacency, indegree: map<Node, int>, rank: map<Node, nat>, removed: set<Node>, visited: nat)
    requires TargetsAreKeys(adjacency) && KahnState(adjacency, indegree, removed, [])
    requires RanksRemoved(adjacency, rank, removed, visited) && visited == |removed|
    ensures visited != |indegree| <==> HasClosedWalk(adjacency)
  {
    assert |indegree| == |adjacency.Keys|;
    SubsetBySize(removed, adjacency.Keys);
    if visited != |indegree| {
      RemainderIsStuck(adjacency, indegree, removed);
    } else {
      FullRemovalRanks(adjacency, rank, removed, visited);
    }
  }

  lemma SubsetBySize(part: set<Node>, whole: set<Node>)
    requires part <= whole
    ensures |part| == |whole| ==> part == whole
    ensures |part| != |whole| ==> whole - part != {}
  {
    assert whole == part + (whole - part);
  }
}
