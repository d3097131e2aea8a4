// From devices and edges to a machine that runs them: an application adds its
// devices and edges one by one, and then maps the graph.
module Builds {
  import opened Wrappers
  import opened NodeGraphs
  import InTables
  import opened RoutingTables
  import opened Placings
  import opened Mappers
  import opened Placers
  import opened Mesh
  import opened Linking
  import Vertices
  import Softswitch
  import Refinement

  class Builder<E(==)> {
    var graph: NodeGraph
    var pins: seq<seq<nat>>
    var edgeLabels: seq<seq<E>>
    ghost var edges: seq<(nat, nat)>

    ghost predicate Valid()
      reads this
    {
      && HasEdges(graph, edges) && Numbered(graph.labels)
      && |pins| == |edgeLabels| == graph.Size()
      && forall d | 0 <= d < |pins| :: |pins[d]| == |edgeLabels[d]| == |graph.outgoing[d]|
    }

    // The graph with pins and labels
    function Tables(): Graph<E>
      reads this
    {
      Graph(graph.outgoing, pins, edgeLabels)
    }

    // The graph as the application means it
    ghost function Contents(): Vertices.Graph<E>
      requires Valid()
      reads this
    {
      GraphOf(Tables())
    }

    constructor ()
      ensures Valid() && Contents() == [] && edges == []
    {
      graph, pins, edgeLabels, edges := EMPTY, [], [], [];
      new;
      EmptyEdges();
    }

    // A device without edges
    method NewDevice() returns (id: nat)
      requires Valid()
      modifies this
      ensures Valid() && edges == old(edges)
      ensures id == |old(Contents())| && Contents() == old(Contents()) + [[]]
    {
      id := graph.Size();
      NewNodeEdges(graph, id, edges);
      edgeLabels := edgeLabels + [[]];
      pins := pins + [[]];
      graph := graph.NewNode(id);
    }

    // One edge more from a pin of a device
    method AddLabelledEdge(edge: E, x: nat, pin: nat, y: nat)
      requires Valid() && x < |Contents()| && y < |Contents()|
      modifies this
      ensures Valid() && edges == old(edges) + [(x, y)]
      ensures Contents() == old(Contents()[x := Contents()[x] + [Vertices.Edge(pin, y, edge)]])
    {
      AddEdgeEdges(graph, x, y, edges);
      edges := edges + [(x, y)];
      graph := graph.AddEdge(x, y);
      pins := pins[x := pins[x] + [pin]];
      edgeLabels := edgeLabels[x := edgeLabels[x] + [edge]];
      forall d | 0 <= d < |pins|
        ensures Contents()[d] == old(Contents())[d] + if d == x then [Vertices.Edge(pin, y, edge)] else []
      {
      }
    }

    // No device has 65536 edges on one pin, so no thread can have as many receivers
    ghost predicate Slim()
      requires Valid()
      reads this
    {
      forall d, p: nat | 0 <= d < |pins| :: FanOut(pins[d], p) < InTables.RECEIVERS
    }

    lemma TablesValid()
      requires Valid()
      ensures graph.Valid() && Tables().Valid()
    {
    }

    // Place the devices on threads and compute the tables.  The run ends early
    // only if a thread has too many devices or a limit of the tables is exceeded.
    method Map(how: Method, numPins: nat, perHeader: nat, boardsX: nat, boardsY: nat)
      returns (o: Outcome, mapper: Mapper, tables: PGraph?<E>)
      requires Valid() && 0 < boardsX <= MESH && 0 < boardsY <= MESH && |edges| * (2 * MESH) <= MAX64
      ensures o.Value? ==> tables != null && tables.graph == Tables() && tables.numPins == numPins && Linked(tables)
      ensures o.Value? && Slim() ==> Spread(tables)
      ensures o.Value? ==> OnBoards(tables.mapping.to, graph, boardsX, boardsY, how)
      ensures o.Exited? ==> mapper.Crowded() || (tables != null && tables.OutOfRoom())
    {
      hide HasEdges, Mapper.Settled, MeshThreads, FanOut, Narrow, OnBoards;
      TablesValid();
      mapper := new Mapper(graph, boardsX, boardsY);
      tables := null;
      var ok := mapper.Map(how, edges);
      if !ok { return Exited, mapper, tables; }
      mapper.MappingOf(Tables());
      var mapping := Mapping(mapper.toDeviceAddr[..], mapper.fromDeviceAddr[..]);
      if Slim() {
        SlimNarrow(Tables(), mapping);
      }
      tables := new PGraph(Tables(), numPins, mapping, perHeader, boardsX, boardsY);
      forall i | 0 <= i < |tables.inTables.bitmaps| ensures fresh(tables.inTables.bitmaps[i]) {
        assert tables.inTables.bitmaps[i] in tables.inTables.bitmaps;
      }
      o := tables.ComputeRoutingTables();
    }
  }

  // Edges on one pin
  function FanOut(pins: seq<nat>, p: nat): nat {
    if pins == [] then 0 else FanOut(pins[..|pins| - 1], p) + if pins[|pins| - 1] == p then 1 else 0
  }

  lemma {:induction false} FanWithin<E>(g: Graph<E>, m: Mapping, d: nat, p: nat, t: nat, n: nat)
    requires g.Valid() && |m.to| == |g.outgoing| && d < |g.outgoing| && n <= |g.outgoing[d]|
    ensures FanTo(g, m, d, p, t, n) <= FanOut(g.pins[d][..n], p)
    decreases n
  {
    if n > 0 {
      FanWithin(g, m, d, p, t, n - 1);
      assert g.pins[d][..n][..n - 1] == g.pins[d][..n - 1];
    }
  }

  lemma SlimNarrow<E>(g: Graph<E>, m: Mapping)
    requires g.Valid() && |m.to| == |g.outgoing|
    requires forall d, p: nat | 0 <= d < |g.pins| :: FanOut(g.pins[d], p) < InTables.RECEIVERS
    ensures Narrow(g, m)
  {
    forall d, p: nat, t | 0 <= d < |g.outgoing| ensures FanTo(g, m, d, p, t, |g.outgoing[d]|) < InTables.RECEIVERS {
      FanWithin(g, m, d, p, t, |g.outgoing[d]|);
      assert g.pins[d][..|g.outgoing[d]|] == g.pins[d];
    }
  }

  // No thread has 65536 receivers or more for one pin
  ghost predicate Spread<E>(tables: PGraph<E>) {
    && tables.graph.Valid() && |tables.mapping.to| == |tables.graph.outgoing|
    && Narrow(tables.graph, tables.mapping)
  }

  // The devices are on threads, and the tables of all devices and pins do what the
  // graph says, as long as no thread has 65536 receivers or more for one pin
  ghost predicate Linked<E>(tables: PGraph<E>)
    reads tables, tables.inTables, tables.inTables.bitmaps, tables.progRouterTables.routers
  {
    && tables.Valid() && Bijective(tables.mapping) && |tables.outTable| == |tables.graph.outgoing|
    && (forall d | 0 <= d < |tables.outTable| ::
          |tables.outTable[d]| == tables.numPins
          && forall p | 0 <= p < tables.numPins :: Encodable(tables.outTable[d][p]))
    && (Spread(tables) ==>
          forall d, p | 0 <= d < |tables.outTable| && 0 <= p < tables.numPins :: tables.Performs(d, p))
  }

  // The machine with these tables
  ghost function MachineOf<S, M, E(!new)>(app: Vertices.App<S, M, E>, memory: seq<Vertices.Dev<S>>, tables: PGraph<E>)
    : Softswitch.Config<S, M, E>
    requires tables.graph.Valid() && tables.progRouterTables.Shape()
    reads tables, tables.inTables, tables.progRouterTables.routers
  {
    ConfigOf(app, memory, tables.graph, tables.mapping, ByteReader(tables.progRouterTables.Tables()),
             TableReader(tables.inTables.headers, tables.inTables.rest, tables.inTables.perHeader), tables.outTable)
  }

  // It runs the application, for any application and any initial states
  lemma LinkedRuns<S, M(!new), E(!new)>(app: Vertices.App<S, M, E>, memory: seq<Vertices.Dev<S>>, tables: PGraph<E>)
    requires Linked(tables) && Spread(tables) && |memory| == |tables.graph.outgoing| && PinsBelow(tables.graph, tables.numPins)
    ensures Refinement.Compiled(MachineOf(app, memory, tables))
  {
    hide Refinement.Compiled, Means, Bijective, Narrow, ConfigOf, ByteReader, TableReader, ProgRouterMesh.Tables;
    var net := ByteReader(tables.progRouterTables.Tables());
    var read := TableReader(tables.inTables.headers, tables.inTables.rest, tables.inTables.perHeader);
    forall d, p | 0 <= d < |tables.outTable| && 0 <= p < tables.numPins
      ensures Means(net, read, tables.graph, tables.mapping, d, p, tables.outTable[d][p])
    {
      assert tables.Performs(d, p);
    }
    CompiledRuns(app, memory, tables.graph, tables.mapping, net, read, tables.outTable, tables.numPins);
  }
}
