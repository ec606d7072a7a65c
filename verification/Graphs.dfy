// Directed graphs as networkx keeps them for the parser: nodes, edges, and the
// orders its topological sort may return.
module Graphs {
  import opened Common
  import opened Jobs

  datatype Graph = Graph(nodes: set<Task>, edges: set<(Task, Task)>)

  const EMPTY: Graph := Graph({}, {})

  predicate WellFormed(g: Graph) {
    forall e :: e in g.edges ==> e.0 in g.nodes && e.1 in g.nodes
  }

  function AddNode(g: Graph, n: Task): Graph {
    Graph(g.nodes + {n}, g.edges)
  }

  /** add_edge adds missing end points as nodes. */
  function AddEdge(g: Graph, src: Task, dst: Task): Graph {
    Graph(g.nodes + {src, dst}, g.edges + {(src, dst)})
  }

  function Predecessors(g: Graph, n: Task): set<Task> {
    set e | e in g.edges && e.1 == n :: e.0
  }

  // ------------------------------------------------------------------
  // Topological orders
  // ------------------------------------------------------------------

  ghost predicate Ordered(order: seq<Task>, e: (Task, Task)) {
    forall i, j :: 0 <= i < |order| && 0 <= j < |order| && order[i] == e.0 && order[j] == e.1 ==> i < j
  }

  ghost predicate TopologicalOrder(g: Graph, order: seq<Task>) {
    Distinct(order) && Elements(order) == g.nodes && forall e :: e in g.edges ==> Ordered(order, e)
  }

  /** What the library's sort may return; None is the exception it raises on a cycle. */
  ghost predicate SortsTo(g: Graph, sorted: Option<seq<Task>>) {
    match sorted
    case Some(order) => TopologicalOrder(g, order)
    case None => forall order :: !TopologicalOrder(g, order)
  }

  function Restricted(order: seq<Task>, nodes: set<Task>): seq<Task> {
    if order == [] then []
    else
      var front, last := order[..|order| - 1], order[|order| - 1];
      Restricted(front, nodes) + if last in nodes then [last] else []
  }

  /** Restricting keeps exactly the wanted elements, each once, and the order of any two. */
  lemma {:induction false} RestrictedMembers(order: seq<Task>, nodes: set<Task>)
    ensures Distinct(order) ==> Distinct(Restricted(order, nodes))
    ensures forall t :: t in Restricted(order, nodes) <==> t in order && t in nodes
  {
    if order != [] {
      RestrictedMembers(order[..|order| - 1], nodes);
    }
  }

  lemma {:induction false} RestrictedOrdered(order: seq<Task>, nodes: set<Task>, e: (Task, Task))
    requires Distinct(order) && Ordered(order, e)
    ensures Ordered(Restricted(order, nodes), e)
  {
    if order != [] {
      var front, last := order[..|order| - 1], order[|order| - 1];
      var rest := Restricted(front, nodes);
      RestrictedOrdered(front, nodes, e);
      RestrictedMembers(front, nodes);
      forall k | 0 <= k < |order| && e.0 == last ensures order[k] != e.1 {
        assert order[|order| - 1] == e.0;
      }
      assert forall k :: 0 <= k < |rest| ==> rest[k] in front;
    }
  }

  /** An order of the whole graph, restricted to a part, is an order of the part. */
  lemma RestrictedTopological(g: Graph, part: Graph, order: seq<Task>)
    requires TopologicalOrder(g, order) && part.nodes <= g.nodes && part.edges <= g.edges
    ensures TopologicalOrder(part, Restricted(order, part.nodes))
  {
    RestrictedMembers(order, part.nodes);
    forall e | e in part.edges ensures Ordered(Restricted(order, part.nodes), e) {
      RestrictedOrdered(order, part.nodes, e);
    }
  }

  // ------------------------------------------------------------------
  // Ancestors
  // ------------------------------------------------------------------

  /** p leads from a node to one of its ancestors, edge by edge. */
  ghost predicate Chain(g: Graph, p: seq<Task>) {
    p != [] && forall i :: 0 <= i < |p| - 1 ==> (p[i + 1], p[i]) in g.edges
  }

  /** t is in bad or has an ancestor in bad. */
  ghost predicate Tainted(g: Graph, bad: set<Task>, t: Task) {
    exists p :: Chain(g, p) && p[0] == t && p[|p| - 1] in bad
  }

  lemma ChainTail(g: Graph, p: seq<Task>)
    requires Chain(g, p)
    ensures |p| > 1 ==> (p[1], p[0]) in g.edges && Chain(g, p[1..]) && p[1..][|p| - 2] == p[|p| - 1]
  {
    if |p| > 1 {
      assert (p[0 + 1], p[0]) in g.edges;
      var rest := p[1..];
      forall i | 0 <= i < |rest| - 1 ensures (rest[i + 1], rest[i]) in g.edges {
        assert (p[i + 1 + 1], p[i + 1]) in g.edges;
      }
    }
  }

  lemma ChainCons(g: Graph, t: Task, p: seq<Task>)
    requires Chain(g, p) && (p[0], t) in g.edges
    ensures Chain(g, [t] + p) && ([t] + p)[|p|] == p[|p| - 1]
  {
    var q := [t] + p;
    forall i | 0 <= i < |q| - 1 ensures (q[i + 1], q[i]) in g.edges {
      if i > 0 {
        assert (p[i - 1 + 1], p[i - 1]) in g.edges;
      }
    }
  }

  /** Taint is membership in bad or a tainted predecessor. */
  lemma TaintedUnfold(g: Graph, bad: set<Task>, t: Task)
    ensures Tainted(g, bad, t) <==> t in bad || exists d :: d in Predecessors(g, t) && Tainted(g, bad, d)
  {
    if t in bad {
      assert Chain(g, [t]);
      assert [t][0] == t && [t][|[t]| - 1] in bad;
    }
    if d :| d in Predecessors(g, t) && Tainted(g, bad, d) {
      var p :| Chain(g, p) && p[0] == d && p[|p| - 1] in bad;
      ChainCons(g, t, p);
      var q := [t] + p;
      assert Chain(g, q) && q[0] == t && q[|q| - 1] in bad;
    }
    if Tainted(g, bad, t) && t !in bad {
      var p :| Chain(g, p) && p[0] == t && p[|p| - 1] in bad;
      ChainTail(g, p);
      assert Tainted(g, bad, p[1]);
    }
  }

  /** A set closed under predecessors and free of bad nodes holds no tainted node. */
  lemma {:induction false} ClosedIsClean(g: Graph, bad: set<Task>, seen: set<Task>, p: seq<Task>)
    requires Chain(g, p) && p[0] in seen && seen !! bad
    requires forall t :: t in seen ==> Predecessors(g, t) <= seen
    ensures p[|p| - 1] !in bad
  {
    ChainTail(g, p);
    if |p| > 1 {
      assert (p[1], p[0]) in g.edges;
      assert p[1] in Predecessors(g, p[0]);
      ClosedIsClean(g, bad, seen, p[1..]);
    }
  }
}
