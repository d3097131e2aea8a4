// Graphs as the mapper keeps them: for each node the lists of its incoming and
// outgoing neighbours, and a label.
module NodeGraphs {
  datatype NodeGraph = NodeGraph(incoming: seq<seq<nat>>, outgoing: seq<seq<nat>>, labels: seq<nat>) {
    function Size(): nat { |incoming| }

    predicate Shape() {
      |incoming| == |outgoing| == |labels|
    }

    predicate Valid() {
      && Shape()
      && (forall i | 0 <= i < |incoming| :: forall k | 0 <= k < |incoming[i]| :: incoming[i][k] < |incoming|)
      && (forall i | 0 <= i < |incoming| :: forall k | 0 <= k < |outgoing[i]| :: outgoing[i][k] < |incoming|)
    }

    // A new node with the given label
    function NewNode(lab: nat): NodeGraph {
      NodeGraph(incoming + [[]], outgoing + [[]], labels + [lab])
    }

    function AddEdge(x: nat, y: nat): NodeGraph
      requires Shape() && x < Size() && y < Size()
    {
      NodeGraph(incoming[y := incoming[y] + [x]], outgoing[x := outgoing[x] + [y]], labels)
    }
  }

  const EMPTY: NodeGraph := NodeGraph([], [], [])

  // A value for each pair of nodes
  type Weight = (nat, nat) -> int

  function RowSum(row: seq<nat>, x: nat, f: Weight): int {
    if row == [] then 0 else RowSum(row[..|row| - 1], x, f) + f(x, row[|row| - 1])
  }

  // Sum over the lists of the first n nodes
  function RowsSum(rows: seq<seq<nat>>, f: Weight, n: nat): int
    requires n <= |rows|
  {
    if n == 0 then 0 else RowsSum(rows, f, n - 1) + RowSum(rows[n - 1], n - 1, f)
  }

  function EdgeSum(edges: seq<(nat, nat)>, f: Weight): int {
    if edges == [] then 0
    else
      var e := edges[|edges| - 1];
      EdgeSum(edges[..|edges| - 1], f) + f(e.0, e.1)
  }

  function Flip(f: Weight): Weight { (x: nat, y: nat) => f(y, x) }

  // The graph has exactly these edges, with their multiplicity
  ghost predicate HasEdges(g: NodeGraph, edges: seq<(nat, nat)>) {
    && g.Valid()
    && (forall f: Weight :: RowsSum(g.outgoing, f, |g.outgoing|) == EdgeSum(edges, f))
    && (forall f: Weight :: RowsSum(g.incoming, Flip(f), |g.incoming|) == EdgeSum(edges, f))
  }

  lemma {:induction false} RowsUpdate(rows: seq<seq<nat>>, x: nat, y: nat, f: Weight, n: nat)
    requires x < |rows| && n <= |rows|
    ensures RowsSum(rows[x := rows[x] + [y]], f, n) == RowsSum(rows, f, n) + if x < n then f(x, y) else 0
    decreases n
  {
    if n > 0 {
      RowsUpdate(rows, x, y, f, n - 1);
      assert (rows[x] + [y])[..|rows[x]|] == rows[x];
    }
  }

  lemma {:induction false} RowsNew(rows: seq<seq<nat>>, f: Weight, n: nat)
    requires n <= |rows|
    ensures RowsSum(rows + [[]], f, n) == RowsSum(rows, f, n)
    decreases n
  {
    if n > 0 {
      RowsNew(rows, f, n - 1);
    }
  }

  lemma NewNodeEdges(g: NodeGraph, lab: nat, edges: seq<(nat, nat)>)
    requires HasEdges(g, edges)
    ensures HasEdges(g.NewNode(lab), edges)
  {
    var g' := g.NewNode(lab);
    forall f: Weight ensures RowsSum(g'.outgoing, f, |g'.outgoing|) == EdgeSum(edges, f) {
      RowsNew(g.outgoing, f, |g.outgoing|);
    }
    forall f: Weight ensures RowsSum(g'.incoming, Flip(f), |g'.incoming|) == EdgeSum(edges, f) {
      RowsNew(g.incoming, Flip(f), |g.incoming|);
    }
  }

  lemma AddEdgeEdges(g: NodeGraph, x: nat, y: nat, edges: seq<(nat, nat)>)
    requires HasEdges(g, edges) && x < g.Size() && y < g.Size()
    ensures HasEdges(g.AddEdge(x, y), edges + [(x, y)])
  {
    var g', more := g.AddEdge(x, y), edges + [(x, y)];
    assert more[..|edges|] == edges;
    forall f: Weight ensures RowsSum(g'.outgoing, f, |g'.outgoing|) == EdgeSum(more, f) {
      RowsUpdate(g.outgoing, x, y, f, |g.outgoing|);
    }
    forall f: Weight ensures RowsSum(g'.incoming, Flip(f), |g'.incoming|) == EdgeSum(more, f) {
      RowsUpdate(g.incoming, y, x, Flip(f), |g.incoming|);
    }
  }

  lemma EmptyEdges()
    ensures HasEdges(EMPTY, [])
  {
  }

  lemma {:induction false} SumPlus(edges: seq<(nat, nat)>, f: Weight, f': Weight, h: Weight)
    requires forall x, y :: h(x, y) == f(x, y) + f'(x, y)
    ensures EdgeSum(edges, h) == EdgeSum(edges, f) + EdgeSum(edges, f')
  {
    if edges != [] {
      SumPlus(edges[..|edges| - 1], f, f', h);
    }
  }
}
