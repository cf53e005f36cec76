// Cycles in finite dependency graphs.
module Graph {
  type Id = string
  type Edges = set<(Id, Id)>   // (a, b): a depends on b

  ghost predicate Path(edges: Edges, path: seq<Id>) {
    forall i :: 0 <= i < |path| - 1 ==> (path[i], path[i + 1]) in edges
  }

  ghost predicate IsCycle(edges: Edges, c: seq<Id>) {
    |c| > 0 && Path(edges, c) && (c[|c| - 1], c[0]) in edges
  }

  ghost predicate Acyclic(edges: Edges) {
    forall c :: !IsCycle(edges, c)
  }

  // An edge from the end of a path back into it closes a cycle.
  lemma BackEdgeClosesCycle(edges: Edges, path: seq<Id>, k: nat)
    requires k < |path| && Path(edges, path) && (path[|path| - 1], path[k]) in edges
    ensures IsCycle(edges, path[k..])
  {
    var c := path[k..];
    forall i | 0 <= i < |c| - 1 ensures (c[i], c[i + 1]) in edges {
      assert c[i] == path[k + i] && c[i + 1] == path[k + i + 1];
    }
  }

  ghost predicate HasEdgeInto(edges: Edges, x: Id, nodes: set<Id>) {
    exists y :: y in nodes && (x, y) in edges
  }

  // Every node of the set has an edge into the set.
  ghost predicate Trapped(edges: Edges, nodes: set<Id>) {
    forall x {:trigger HasEdgeInto(edges, x, nodes)} :: x in nodes ==> HasEdgeInto(edges, x, nodes)
  }

  // Pigeonhole: a non-empty finite set that traps its nodes contains a cycle.
  lemma TrappedSetHasCycle(edges: Edges, nodes: set<Id>) returns (c: seq<Id>)
    requires nodes != {} && Trapped(edges, nodes)
    ensures IsCycle(edges, c) && forall i :: 0 <= i < |c| ==> c[i] in nodes
  {
    var x :| x in nodes;
    c := WalkUntilRepeat(edges, nodes, [x], nodes - {x});
  }

  lemma WalkUntilRepeat(edges: Edges, nodes: set<Id>, path: seq<Id>, unseen: set<Id>) returns (c: seq<Id>)
    requires |path| > 0 && Path(edges, path) && Trapped(edges, nodes)
    requires forall i :: 0 <= i < |path| ==> path[i] in nodes
    requires forall x :: x in nodes ==> x in path || x in unseen
    ensures IsCycle(edges, c) && forall i :: 0 <= i < |c| ==> c[i] in nodes
    decreases unseen
  {
    var last := path[|path| - 1];
    assert HasEdgeInto(edges, last, nodes);
    var y :| y in nodes && (last, y) in edges;
    if y in path {
      var k :| 0 <= k < |path| && path[k] == y;
      BackEdgeClosesCycle(edges, path, k);
      c := path[k..];
    } else {
      c := WalkUntilRepeat(edges, nodes, path + [y], unseen - {y});
    }
  }

  // A rank that drops along every edge leaves no room for a cycle.
  lemma RankedIsAcyclic(edges: Edges, rank: map<Id, nat>)
    requires forall a, b :: (a, b) in edges ==> a in rank && b in rank && rank[b] < rank[a]
    ensures Acyclic(edges)
  {
    forall c | IsCycle(edges, c) ensures false {
      RankDropsAlongPath(edges, rank, c, |c| - 1);
    }
  }

  lemma {:induction false} RankDropsAlongPath(edges: Edges, rank: map<Id, nat>, c: seq<Id>, k: nat)
    requires forall a, b :: (a, b) in edges ==> a in rank && b in rank && rank[b] < rank[a]
    requires IsCycle(edges, c) && k < |c|
    ensures c[0] in rank && c[k] in rank && rank[c[k]] <= rank[c[0]]
  {
    if k > 0 {
      RankDropsAlongPath(edges, rank, c, k - 1);
      assert (c[k - 1], c[k]) in edges;
    } else {
      assert (c[|c| - 1], c[0]) in edges;
    }
  }
}
