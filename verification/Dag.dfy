/** Reachability along record pointers inside a finite set of held records. */
module Dag {
  import opened Records

  type Graph = map<Name, Record>

  ghost predicate Edge(g: Graph, a: Name, b: Name) {
    a in g && b in g && b in g[a].pointers
  }

  /** A non-empty walk along pointers that never leaves the graph. */
  ghost predicate Path(g: Graph, path: seq<Name>) {
    && |path| > 0
    && path[0] in g
    && (|path| > 1 ==> Edge(g, path[0], path[1]) && Path(g, path[1..]))
  }

  /** Some walk leads from a to b; every node of the graph reaches itself. */
  ghost predicate Reaches(g: Graph, a: Name, b: Name) {
    exists path :: Path(g, path) && path[0] == a && path[|path| - 1] == b
  }

  /** No edge leads out of the set. */
  ghost predicate Closed(g: Graph, s: set<Name>) {
    forall a, b :: a in s && Edge(g, a, b) ==> b in s
  }

  ghost predicate Subgraph(g: Graph, h: Graph) {
    forall n :: n in g ==> n in h && h[n] == g[n]
  }

  lemma ReachesSelf(g: Graph, a: Name)
    requires a in g
    ensures Reaches(g, a, a)
  {
    assert Path(g, [a]);
  }

  lemma {:induction false} PathAppend(g: Graph, path: seq<Name>, c: Name)
    requires Path(g, path) && Edge(g, path[|path| - 1], c)
    ensures Path(g, path + [c])
    decreases |path|
  {
    var longer := path + [c];
    if |path| == 1 {
      assert longer[1..] == [c];
      assert Path(g, [c]);
    } else {
      PathAppend(g, path[1..], c);
      assert longer[1..] == path[1..] + [c];
    }
  }

  lemma ReachesStep(g: Graph, a: Name, b: Name, c: Name)
    requires Reaches(g, a, b) && Edge(g, b, c)
    ensures Reaches(g, a, c)
  {
    var path :| Path(g, path) && path[0] == a && path[|path| - 1] == b;
    PathAppend(g, path, c);
    assert (path + [c])[0] == a;
  }

  lemma {:induction false} PathStaysIn(g: Graph, path: seq<Name>, s: set<Name>)
    requires Path(g, path) && path[0] in s && Closed(g, s)
    ensures path[|path| - 1] in s
    decreases |path|
  {
    if |path| > 1 {
      PathStaysIn(g, path[1..], s);
    }
  }

  /** Induction over reachability: a closed set holding the source holds the target. */
  lemma ReachesInto(g: Graph, a: Name, b: Name, s: set<Name>)
    requires Reaches(g, a, b) && a in s && Closed(g, s)
    ensures b in s
  {
    var path :| Path(g, path) && path[0] == a && path[|path| - 1] == b;
    PathStaysIn(g, path, s);
  }

  /** Both ends of a walk lie in the graph. */
  lemma ReachesWithin(g: Graph, a: Name, b: Name)
    requires Reaches(g, a, b)
    ensures a in g && b in g
  {
    var path :| Path(g, path) && path[0] == a && path[|path| - 1] == b;
    ReachesInto(g, a, b, g.Keys);
  }

  lemma ReachesTransitive(g: Graph, a: Name, b: Name, c: Name)
    requires Reaches(g, a, b) && Reaches(g, b, c)
    ensures Reaches(g, a, c)
  {
    ReachesWithin(g, a, b);
    var s := set x | x in g && Reaches(g, a, x);
    forall x, y | x in s && Edge(g, x, y) ensures y in s {
      ReachesStep(g, a, x, y);
    }
    ReachesInto(g, b, c, s);
  }

  lemma ReachesPrepend(g: Graph, a: Name, b: Name, c: Name)
    requires Edge(g, a, b) && Reaches(g, b, c)
    ensures Reaches(g, a, c)
  {
    ReachesSelf(g, a);
    ReachesStep(g, a, a, b);
    ReachesTransitive(g, a, b, c);
  }

  /** A walk inside a subgraph is a walk of the whole. */
  lemma ReachesSubgraph(g: Graph, h: Graph, a: Name, b: Name)
    requires Subgraph(g, h) && Reaches(g, a, b)
    ensures Reaches(h, a, b)
  {
    ReachesWithin(g, a, b);
    ReachesSelf(h, a);
    var s := set x | x in g && Reaches(h, a, x);
    forall x, y | x in s && Edge(g, x, y) ensures y in s {
      ReachesStep(h, a, x, y);
    }
    ReachesInto(g, a, b, s);
  }

  /** A walk either stops where it starts or begins with an edge. */
  lemma ReachesFirstEdge(g: Graph, a: Name, b: Name) returns (next: Name)
    requires Reaches(g, a, b) && a != b
    ensures Edge(g, a, next) && Reaches(g, next, b)
  {
    var path :| Path(g, path) && path[0] == a && path[|path| - 1] == b;
    next := path[1];
    assert Path(g, path[1..]);
  }
}
