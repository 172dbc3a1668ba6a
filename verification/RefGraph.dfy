// Finite directed graphs: having no cycle is the same as having a rank that falls along edges.
module RefGraph {

  type Id = nat

  // A walk of at least one edge.
  ghost predicate Walk(edges: set<(Id, Id)>, path: seq<Id>) {
    && |path| >= 2
    && forall i :: 0 <= i < |path| - 1 ==> (path[i], path[i + 1]) in edges
  }

  ghost predicate Reaches(edges: set<(Id, Id)>, x: Id, y: Id) {
    exists path :: Walk(edges, path) && path[0] == x && path[|path| - 1] == y
  }

  ghost predicate Acyclic(edges: set<(Id, Id)>) {
    forall x :: !Reaches(edges, x, x)
  }

  // The nodes strictly below x.
  ghost function Below(nodes: set<Id>, edges: set<(Id, Id)>, x: Id): set<Id> {
    set y | y in nodes && Reaches(edges, x, y)
  }

  lemma EdgeReaches(edges: set<(Id, Id)>, x: Id, y: Id)
    requires (x, y) in edges
    ensures Reaches(edges, x, y)
  {
    assert Walk(edges, [x, y]);
  }

  lemma EdgeThenReaches(edges: set<(Id, Id)>, x: Id, y: Id, z: Id)
    requires (x, y) in edges && Reaches(edges, y, z)
    ensures Reaches(edges, x, z)
  {
    var path :| Walk(edges, path) && path[0] == y && path[|path| - 1] == z;
    var longer := [x] + path;
    forall i | 0 <= i < |longer| - 1
      ensures (longer[i], longer[i + 1]) in edges
    {
      if i > 0 {
        assert longer[i] == path[i - 1] && longer[i + 1] == path[i];
      }
    }
    assert Walk(edges, longer);
  }

  lemma SmallerSet<T>(a: set<T>, b: set<T>)
    requires a <= b && a != b
    ensures |a| < |b|
  {
    assert b == a + (b - a);
    assert b - a != {};
  }

  // The number of nodes below is a rank.
  lemma AcyclicHasRank(nodes: set<Id>, edges: set<(Id, Id)>) returns (rank: Id -> nat)
    requires Acyclic(edges) && forall x, y :: (x, y) in edges ==> x in nodes && y in nodes
    ensures forall x, y :: (x, y) in edges ==> rank(y) < rank(x)
  {
    rank := x => |Below(nodes, edges, x)|;
    forall x, y | (x, y) in edges
      ensures rank(y) < rank(x)
    {
      EdgeReaches(edges, x, y);
      assert y in Below(nodes, edges, x) && y !in Below(nodes, edges, y);
      forall z | z in Below(nodes, edges, y) ensures z in Below(nodes, edges, x) {
        EdgeThenReaches(edges, x, y, z);
      }
      SmallerSet(Below(nodes, edges, y), Below(nodes, edges, x));
    }
  }

  // Conversely, a rank rules out every cycle.
  lemma {:induction false} RankFalls(edges: set<(Id, Id)>, rank: Id -> nat, path: seq<Id>)
    requires Walk(edges, path) && forall x, y :: (x, y) in edges ==> rank(y) < rank(x)
    ensures rank(path[|path| - 1]) < rank(path[0])
    decreases |path|
  {
    assert (path[0], path[1]) in edges;
    if |path| > 2 {
      assert Walk(edges, path[1..]) by {
        forall i | 0 <= i < |path[1..]| - 1
          ensures (path[1..][i], path[1..][i + 1]) in edges
        {
          assert (path[i + 1], path[i + 2]) in edges;
        }
      }
      RankFalls(edges, rank, path[1..]);
    }
  }

  lemma RankHasNoCycle(edges: set<(Id, Id)>, rank: Id -> nat)
    requires forall x, y :: (x, y) in edges ==> rank(y) < rank(x)
    ensures Acyclic(edges)
  {
    forall x ensures !Reaches(edges, x, x) {
      if Reaches(edges, x, x) {
        var path :| Walk(edges, path) && path[0] == x && path[|path| - 1] == x;
        RankFalls(edges, rank, path);
      }
    }
  }

  lemma FirstStep(edges: set<(Id, Id)>, x: Id, z: Id) returns (y: Id)
    requires Reaches(edges, x, z)
    ensures (x, y) in edges && (y == z || Reaches(edges, y, z))
  {
    var path :| Walk(edges, path) && path[0] == x && path[|path| - 1] == z;
    y := path[1];
    assert (path[0], path[1]) in edges;
    if |path| > 2 {
      forall i | 0 <= i < |path[1..]| - 1
        ensures (path[1..][i], path[1..][i + 1]) in edges
      {
        assert (path[i + 1], path[i + 2]) in edges;
      }
      assert Walk(edges, path[1..]);
    }
  }

  lemma ReachesMono(edges: set<(Id, Id)>, more: set<(Id, Id)>, x: Id, y: Id)
    requires edges <= more && Reaches(edges, x, y)
    ensures Reaches(more, x, y)
  {
    var path :| Walk(edges, path) && path[0] == x && path[|path| - 1] == y;
    assert Walk(more, path);
  }

  lemma {:induction false} ReachesThenEdge(edges: set<(Id, Id)>, x: Id, y: Id, z: Id)
    requires Reaches(edges, x, y) && (y, z) in edges
    ensures Reaches(edges, x, z)
  {
    var path :| Walk(edges, path) && path[0] == x && path[|path| - 1] == y;
    var longer := path + [z];
    forall i | 0 <= i < |longer| - 1
      ensures (longer[i], longer[i + 1]) in edges
    {
      if i < |path| - 1 {
        assert longer[i] == path[i] && longer[i + 1] == path[i + 1];
      }
    }
    assert Walk(edges, longer);
  }
}
