// Two vertices, each a neighbour of the other: the smallest graph on which the
// protocols have something to do meets what their theorems ask for.
module Instances {
  import opened Vertices
  import opened Gals
  import Fronts
  import HeatGals
  import AspGals
  import ClockTree
  import AspSync
  import HashMin
  import Sssp
  import Pressure
  import PressureTotals
  import Uploads
  import opened Wrappers
  import opened InTables
  import opened Multicast
  import RoutingTables
  import Masks
  import PGraphs
  import Linking
  import Softswitch
  import Refinement
  import Mesh
  import ProgRouters
  import RoutingRecords

  type byte = RoutingRecords.byte

  const PAIR: Graph<()> := [[Edge(0, 1, ())], [Edge(0, 0, ())]]

  lemma PairLinks(u: nat, v: nat)
    requires u < 2 && v < 2
    ensures Wellformed(PAIR) && (Linked(PAIR, u, v) <==> u != v) && FanIn(PAIR, v, 2) == 1
  {
    assert PAIR[u][0].to == 1 - u;
    assert EdgesTo(PAIR[0], v) == (if v == 1 then 1 else 0) by { assert PAIR[0][..0] == []; }
    assert EdgesTo(PAIR[1], v) == (if v == 0 then 1 else 0) by { assert PAIR[1][..0] == []; }
    assert FanIn(PAIR, v, 1) == FanIn(PAIR, v, 0) + EdgesTo(PAIR[0], v);
  }

  lemma HeatPair(steps: nat, a: real, b: real) returns (p: HeatGals.Setup)
    ensures HeatGals.Proper(p) && p.g == PAIR && p.steps == steps
    ensures p.memory[0].s.val == a && p.memory[1].s.val == b
  {
    var one := HeatGals.HeatState(1, 0, steps, a, 0.0, 0.0, false, 0, 0, false);
    var two := HeatGals.HeatState(1, 1, steps, b, 0.0, 0.0, false, 0, 0, false);
    p := HeatGals.Setup(PAIR, [Dev(No, one), Dev(No, two)], steps);
    forall u: nat, v: nat | u < 2 && v < 2
      ensures Wellformed(PAIR) && (Linked(PAIR, u, v) <==> u != v) && FanIn(PAIR, v, 2) == 1
    {
      PairLinks(u, v);
    }
  }

  lemma AspPair() returns (p: AspGals.Setup)
    ensures AspGals.Proper(p) && p.g == PAIR && p.sources == 2
  {
    var one := AspGals.ASPState(1, 0, false, false, 0, 0, 1, 0, {0}, {}, {});
    var two := AspGals.ASPState(1, 0, false, false, 0, 0, 1, 0, {1}, {}, {});
    p := AspGals.Setup(PAIR, [Dev(No, one), Dev(No, two)], 2);
    forall u: nat, v: nat | u < 2 && v < 2
      ensures Wellformed(PAIR) && (Linked(PAIR, u, v) <==> u != v) && FanIn(PAIR, v, 2) == 1
    {
      PairLinks(u, v);
    }
    var start := AspGals.Start(p);
    assert start == [{0}, {1}];
    forall v: nat | v < 2 ensures Fronts.Front(PAIR, start, 0xffff, v) == AspGals.All(2) {
      PairFront(start, 0xffff, v);
    }
  }

  lemma PairNearby(start: seq<set<nat>>, k: nat, v: nat)
    requires |start| == 2 && v < 2
    ensures Fronts.Front(PAIR, start, k + 1, v) == Fronts.Front(PAIR, start, k, v) + Fronts.Front(PAIR, start, k, 1 - v)
  {
    hide Linked, Fronts.Front;
    PairLinks(0, v);
    PairLinks(1, v);
    Fronts.FrontNext(PAIR, start, k, v);
    assert Fronts.Nearby(PAIR, start, k, v, 1)
      == Fronts.Nearby(PAIR, start, k, v, 0) + if Linked(PAIR, 0, v) then Fronts.Front(PAIR, start, k, 0) else {};
  }

  // After one hop both vertices know both sources
  lemma {:induction false} PairFront(start: seq<set<nat>>, k: nat, v: nat)
    requires start == [{0}, {1}] && v < 2 && k > 0
    ensures Fronts.Front(PAIR, start, k, v) == {0, 1} == AspGals.All(2)
    decreases k
  {
    PairNearby(start, k - 1, v);
    if k == 1 {
      assert Fronts.Front(PAIR, start, 0, v) == start[v] && Fronts.Front(PAIR, start, 0, 1 - v) == start[1 - v];
    } else {
      hide Fronts.Front;
      PairFront(start, k - 1, v);
      PairFront(start, k - 1, 1 - v);
    }
    assert AspGals.All(2) == {0, 1};
  }

  lemma ClockPair() returns (p: ClockTree.Setup)
    ensures ClockTree.Proper(p) && |p.parent| == 2
  {
    var root := ClockTree.ClockTreeState(true, false, false, 1, 0);
    var leaf := ClockTree.ClockTreeState(false, true, false, 0, 0);
    var tick, ack := Edge(ClockTree.PIN_TICK, 1, ()), Edge(ClockTree.PIN_ACK, 0, ());
    p := ClockTree.Setup([[tick], [ack]], [Dev(No, root), Dev(No, leaf)], [0, 0]);
    forall v: nat, u: nat | v < 2 && u < 2
      ensures ClockTree.Count(p.g[v], ClockTree.PIN_TICK, u) == if ClockTree.Child(p, u, v) then 1 else 0
      ensures ClockTree.Count(p.g[v], ClockTree.PIN_ACK, u) == if ClockTree.Child(p, v, u) then 1 else 0
    {
      OneEdge(tick, ClockTree.PIN_TICK, u);
      OneEdge(tick, ClockTree.PIN_ACK, u);
      OneEdge(ack, ClockTree.PIN_TICK, u);
      OneEdge(ack, ClockTree.PIN_ACK, u);
      assert p.g[v] == if v == 0 then [tick] else [ack];
    }
    forall v: nat | v < 2 ensures ClockTree.Kids(p, v, 2) == if v == 0 then 1 else 0 {
      assert ClockTree.Kids(p, v, 1) == ClockTree.Kids(p, v, 0) + if ClockTree.Child(p, 0, v) then 1 else 0;
    }
  }

  lemma OneEdge(e: Edge<()>, pin: nat, u: nat)
    ensures ClockTree.Count([e], pin, u) == if e.pin == pin && e.to == u then 1 else 0
  {
    assert [e][..0] == [];
  }

  lemma SyncPair() returns (p: AspSync.Setup)
    ensures AspSync.Proper(p) && p.g == PAIR && p.sources == 2
  {
    hide Fronts.Front;
    p := AspSync.Setup(PAIR, [Dev(No, AspSync.ASPState(0, {0}, {})), Dev(No, AspSync.ASPState(0, {1}, {}))], 2);
    PairLinks(0, 1);
    var start := AspSync.Start(p);
    assert start == [{0}, {1}];
    forall v: nat | v < 2 ensures Fronts.Front(PAIR, start, 0x1_0001, v) == Fronts.Front(PAIR, start, 0x1_0000, v) {
      PairFront(start, 0x1_0001, v);
      PairFront(start, 0x1_0000, v);
    }
  }

  lemma MinPair(a: int, b: int) returns (p: HashMin.Setup)
    ensures HashMin.Proper(p) && p.g == PAIR
    ensures p.memory == [Dev(No, HashMin.HashMinState(false, a)), Dev(No, HashMin.HashMinState(false, b))]
  {
    p := HashMin.Setup(PAIR, [Dev(No, HashMin.HashMinState(false, a)), Dev(No, HashMin.HashMinState(false, b))]);
    PairLinks(0, 1);
  }

  // ---------------------------------------------------------------------
  // Shortest paths with and without room for the distances

  function Roads(there: int, back: int): Sssp.Setup {
    Sssp.Setup([[Edge(0, 1, there)], [Edge(0, 0, back)]],
               [Dev(No, Sssp.SSSPState(true, 0)), Dev(No, Sssp.SSSPState(false, Sssp.MAX))], 0)
  }

  lemma {:induction false} RoadsVisited(there: int, back: int, path: seq<Sssp.Hop>, v: nat)
    requires var p := Roads(there, back); path != [] && Sssp.PathTo(p, path, v) && Sssp.Simple(p, path)
    ensures path == [Sssp.Hop(0, 1, there)]
    decreases |path|
  {
    var p, n := Roads(there, back), |path| - 1;
    var h, before := path[n], path[..n];
    assert h == Sssp.Hop(0, 1, there) || h == Sssp.Hop(1, 0, back);
    SourceVisited(p, before);
    if before != [] {
      RoadsVisited(there, back, before, h.start);
    }
  }

  lemma {:induction false} SourceVisited(p: Sssp.Setup, path: seq<Sssp.Hop>)
    ensures p.source in Sssp.Visited(p, path)
  {
    if path != [] {
      SourceVisited(p, path[..|path| - 1]);
    }
  }

  lemma OneHop(p: Sssp.Setup, h: Sssp.Hop)
    requires Sssp.IsEdge(p.g, h) && h.start == p.source != h.end
    ensures Sssp.PathTo(p, [h], h.end) && Sssp.Simple(p, [h]) && Sssp.Len([h]) == h.weight
  {
    var way := [h];
    assert way[..|way| - 1] == [];
    assert Sssp.PathTo(p, [], h.start) && Sssp.Simple(p, []) && Sssp.Visited(p, []) == {p.source};
  }

  // Two roads fit exactly if the way there and back does, or there is no end
  lemma RoadsFit(there: int, back: int)
    requires 0 <= there <= Sssp.MAX && 0 <= back <= Sssp.MAX
    ensures Sssp.Proper(Roads(there, back))
    ensures Sssp.Fits(Roads(there, back)) <==> (there == Sssp.MAX || there + back <= Sssp.MAX)
  {
    var p := Roads(there, back);
    var go, home := Sssp.Hop(0, 1, there), Sssp.Hop(1, 0, back);
    var way := [go];
    assert Sssp.IsEdge(p.g, go) by { assert p.g[0][0] == Edge(0, 1, there); }
    assert Sssp.IsEdge(p.g, home) by { assert p.g[1][0] == Edge(0, 0, back); }
    OneHop(p, go);
    forall path: seq<Sssp.Hop>, h: Sssp.Hop
      | Sssp.PathTo(p, path, h.start) && Sssp.Simple(p, path) && Sssp.Len(path) < Sssp.MAX && Sssp.IsEdge(p.g, h)
      ensures there + back <= Sssp.MAX ==> Sssp.Len(path) + h.weight <= Sssp.MAX
      ensures there == Sssp.MAX ==> Sssp.Len(path) + h.weight <= Sssp.MAX
    {
      assert h == go || h == home;
      if path != [] {
        RoadsVisited(there, back, path, h.start);
      }
    }
  }

  // ---------------------------------------------------------------------
  // Two vertices that are neighbours in all 26 directions, with no bead at one
  // and one bead at the other: after one step that bead is given away and lost

  function Around(other: nat): seq<Edge<nat>> { seq(Pressure.NUM_NEIGHBOURS, d => Edge(0, other, d)) }

  function Hill(steps: nat): Pressure.Setup {
    var start := Pressure.PressureState(Pressure.SHARE, steps, 0, 0, {}, 0);
    Pressure.Setup([Around(1), Around(0)], [Dev(No, start), Dev(No, start.(pressure := 1))], steps)
  }

  lemma HillProper(steps: nat)
    ensures Pressure.Proper(Hill(steps)) && PressureTotals.Rises(Hill(steps)) && Pressure.Beads(Hill(steps)) == 1
  {
    hide Pressure.Sum;
    var p := Hill(steps);
    assert PressureTotals.RisesAt(p, 0, 0);
    assert Pressure.Shown(p.memory) == [0, 1];
    SumTwo(0, 1);
  }

  lemma SumTwo(a: int, b: int)
    ensures Pressure.Sum([a, b]) == a + b
  {
    assert [a, b][..1] == [a] && [a][..0] == [];
    assert Pressure.Sum([a]) == Pressure.Sum([]) + a;
  }

  lemma OneStepLoses() returns (coin: Pressure.Coin, w: World<Pressure.PressureState, Pressure.PressureMessage, nat>)
    ensures var p := Hill(1);
      && Pressure.Proper(p) && Pressure.Beads(p) == 1
      && Reachable(Pressure.PRESSURE(coin), p.g, p.memory, w) && w.done && Pressure.Sum(Pressure.Shown(w.devs)) <= 0
  {
    hide Hill, Reachable;
    HillProper(1);
    HillSteps(1);
    coin, w := PressureTotals.OddLoses(Hill(1));
  }

  lemma HillSteps(steps: nat)
    ensures Hill(steps).steps == steps
  {
  }

  // ---------------------------------------------------------------------
  // A multicast to opposite corners of the mesh

  lemma CornersClosable()
    ensures var ds := [Mesh.DestMRM(1023, 1, 0, 0), Mesh.DestMRM(0, 1, 0, 0)];
      Mesh.BoardOf(ds[0]) == Mesh.Board(7, 7) && Mesh.Closable(Mesh.Board(0, 0), ds)
  {
    hide Mesh.Closable;
    Mesh.AlwaysClosable(Mesh.Board(0, 0), [Mesh.DestMRM(1023, 1, 0, 0), Mesh.DestMRM(0, 1, 0, 0)]);
  }

  // ---------------------------------------------------------------------
  // The pair on one thread of the machine, with a list of out-edges for each device

  const PAIR_TABLES: RoutingTables.Graph<()> := RoutingTables.Graph([[1], [0]], [[0], [0]], [[()], [()]])
  const PAIR_MAPPING: RoutingTables.Mapping := RoutingTables.Mapping([0, 0x8_0000], [[0, 1]])

  // Key k stands for the device with the other local id
  function PairRead(t: nat, k: nat): Option<seq<InEdge<()>>> {
    if t == 0 && k < 2 then Some([InEdge(1 - k, ())]) else None
  }

  function PairList(d: nat): seq<OutEdge> { [OutEdge(0, d, 1, 0), RoutingTables.TERMINATOR] }

  lemma {:induction false} PairEvents(k: nat, n: nat)
    requires k < 2 && 0 < n <= 64
    ensures MailboxEvents(PairRead, [[0, 1]], Mesh.DestMRM(0, 1, 0, k), n) == Some(multiset{Event(1 - k, ())})
    decreases n
  {
    LowMask(n - 1);
    var d := Mesh.DestMRM(0, 1, 0, k);
    if n == 1 {
      assert Invoked([[0, 1]], 0, [InEdge(1 - k, ())]) == multiset{Event(1 - k, ())};
      assert MailboxEvents(PairRead, [[0, 1]], d, 0) == Some(multiset{});
    } else {
      PairEvents(k, n - 1);
    }
  }

  lemma LowMask(t: nat)
    requires t < 64
    ensures Masks.InMask(1, 0, t) <==> t == 0
  {
    if t >= 32 {
      Masks.NoBits(t - 32);
    } else if t > 0 {
      Masks.NoBits(t - 1);
    }
  }

  // Its tables mean what the graph says, so it runs any application
  lemma PairRuns<S, M(!new)>(app: App<S, M, ()>, memory: seq<Dev<S>>, net: Mesh.Reader)
    returns (cfg: Softswitch.Config<S, M, ()>)
    requires |memory| == 2
    ensures Refinement.Compiled(cfg) && cfg.app == app && cfg.graph == PAIR && cfg.memory == memory
    ensures cfg.from == [[0, 1]] && forall d: nat | d < 2 :: cfg.routes(d, 0) == PairRoute(d)
  {
    hide RoutingTables.Means, Refinement.Compiled, Linking.LegsOf, PairRoute;
    var g, m := PAIR_TABLES, PAIR_MAPPING;
    var out := [[PairList(0)], [PairList(1)]];
    PairMeans(net, 0);
    PairMeans(net, 1);
    PairMapped();
    forall d, p | 0 <= d < |out| && 0 <= p < 1 ensures RoutingTables.Means(net, PairRead, g, m, d, p, out[d][p]) {
      assert p == 0 && out[d][0] == PairList(d);
    }
    Linking.CompiledRuns(app, memory, g, m, net, PairRead, out, 1);
    cfg := Linking.ConfigOf(app, memory, g, m, net, PairRead, out);
    assert Linking.GraphOf(g) == PAIR by {
      assert Linking.EdgesOf(g, 0, 1) == PAIR[0] && Linking.EdgesOf(g, 1, 1) == PAIR[1];
    }
    PairLegs(net, 0);
    PairLegs(net, 1);
    assert cfg.routes(0, 0) == PairRoute(0) && cfg.routes(1, 0) == PairRoute(1);
  }

  // What sending on pin 0 reaches: the other device
  function PairRoute(d: nat): seq<Softswitch.Leg<()>>
    requires d < 2
  {
    [Softswitch.Leg.Multicast([Softswitch.Target(0, [InEdge(1 - d, ())])])]
  }

  lemma {:induction false} PairTargets(d: nat, n: nat)
    requires d < 2 && 0 < n <= 64
    ensures Linking.TargetsIn(PairRead, Mesh.DestMRM(0, 1, 0, d), n) == [Softswitch.Target(0, [InEdge(1 - d, ())])]
    decreases n
  {
    LowMask(n - 1);
    if n == 1 {
      assert Linking.TargetsIn(PairRead, Mesh.DestMRM(0, 1, 0, d), 0) == [];
    } else {
      PairTargets(d, n - 1);
    }
  }

  lemma PairLegs(net: Mesh.Reader, d: nat)
    requires d < 2
    ensures Linking.LegsOf(net, PairRead, RoutingTables.BoardAt(PGraphs.GetThreadId(PAIR_MAPPING.to[d])), PairList(d))
      == PairRoute(d)
  {
    hide Linking.TargetsIn;
    PairTargets(d, 64);
    var b, list := RoutingTables.BoardAt(PGraphs.GetThreadId(PAIR_MAPPING.to[d])), PairList(d);
    assert list[1..] == [RoutingTables.TERMINATOR];
    assert Linking.LegsOf(net, PairRead, b, list[1..]) == [];
  }

  lemma PairMapped()
    ensures Linking.Bijective(PAIR_MAPPING) && Linking.PinsBelow(PAIR_TABLES, 1)
  {
    var m := PAIR_MAPPING;
    assert PGraphs.GetThreadId(m.to[1]) == 0 && PGraphs.GetLocalDeviceId(m.to[1]) == 1;
  }

  lemma PairMeans(net: Mesh.Reader, d: nat)
    requires d < 2
    ensures RoutingTables.Means(net, PairRead, PAIR_TABLES, PAIR_MAPPING, d, 0, PairList(d))
  {
    hide MailboxEvents;
    PairEvents(d, 64);
    var g, m, list := PAIR_TABLES, PAIR_MAPPING, PairList(d);
    var b, read := RoutingTables.BoardAt(PGraphs.GetThreadId(m.to[d])), PairRead;
    assert EdgeEvents(net, read, m.from, b, list[0]) == Some(multiset{Event(1 - d, ())});
    PairEnds(net, b, list);
    assert RoutingTables.Edges(g, d, 0, 0) == multiset{};
    assert RoutingTables.AllEdges(g, d, 0) == multiset{Event(1 - d, ())};
  }

  lemma PairEnds(net: Mesh.Reader, b: Mesh.Board, list: seq<OutEdge>)
    requires |list| == 2 && list[0].key != INVALID_KEY && list[1].key == INVALID_KEY
    requires EdgeEvents(net, PairRead, PAIR_MAPPING.from, b, list[0]).Some?
    ensures OutEvents(net, PairRead, PAIR_MAPPING.from, b, list) == EdgeEvents(net, PairRead, PAIR_MAPPING.from, b, list[0])
  {
    hide EdgeEvents;
    assert list[1..] == [list[1]];
    assert OutEvents(net, PairRead, PAIR_MAPPING.from, b, list[1..]) == Some(multiset{});
    var evs := EdgeEvents(net, PairRead, PAIR_MAPPING.from, b, list[0]).value;
    assert evs + multiset{} == evs;
  }

  // ---------------------------------------------------------------------
  // Storing 16 different words in one call

  lemma SixteenWords()
    ensures var data := seq(16, i => i); Uploads.Stored(Uploads.StoreReqs(16, data)) != data
  {
    var data := seq(16, i => i);
    Uploads.StoresData(data);
    assert data[15] != data[15 % Uploads.MAX_WORDS];
  }

  // ---------------------------------------------------------------------
  // Keys of 30 and of 61 beats, made of records that lead north

  function Norths(n: nat): seq<RoutingRecords.Record> { seq(n, _ => RoutingRecords.RR(0, 0)) }

  // Chunks of n such records, with the indirection in the 31st beat
  function NorthChunks(n: nat): nat { if n <= 150 then n else n + 1 }

  // Beats, and chunks of the last one
  function NorthFill(n: nat): ProgRouters.Fill {
    var chunks := NorthChunks(n);
    if n == 0 then ProgRouters.Fill(1, 0) else ProgRouters.Fill((chunks + 4) / 5, chunks - (chunks + 4) / 5 * 5 + 5)
  }

  lemma NorthFills(n: nat)
    requires n < 304
    ensures ProgRouters.Advance(NorthFill(n), 1) == NorthFill(n + 1)
    ensures Norths(n) + [RoutingRecords.RR(0, 0)] == Norths(n + 1)
  {
  }

  method ManyNorths(n: nat) returns (router: ProgRouters.ProgRouter)
    requires 0 < n <= 304
    ensures fresh(router) && router.Ready() && router.numRecords > 0 && router.currentRAM == 0 && |router.table| == 2
    ensures router.numBeats == NorthFill(n).beats && router.Pending() == Norths(n)
    ensures router.Start() == 0 && |router.table[1]| == 32
  {
    hide ProgRouters.WorkStored, ProgRouters.Chained, ProgRouters.KeysHold, ProgRouters.Advance, NorthFill, Norths;
    router := new ProgRouters.ProgRouter();
    NoNorths();
    for i := 0 to n
      invariant fresh(router) && router.Ready() && router.Filled() == NorthFill(i) && router.Pending() == Norths(i)
      invariant router.currentRAM == 0 && |router.table| == 2 && router.Start() == 0 && |router.table[1]| == 32
      invariant i > 0 ==> router.numRecords > 0
    {
      NorthFills(i);
      NorthRange(i);
      var o := router.AddRR(0, 0);
      assert o.Value?;
    }
  }

  // The key is right, but the next one will be built in the other RAM, whose
  // beat counts as holding a record although nothing was ever written to it
  method ThirtyBeats() returns (router: ProgRouters.ProgRouter, key: nat)
    ensures |router.table| == 2 && ProgRouters.Decodes(router.table, key, Norths(150))
    ensures router.currentRAM == 1 && router.numRecords == router.numChunks == 1 && |router.table[1]| == 32
    ensures ProgRouters.EndsWithInd(router.table[0])
  {
    hide ProgRouters.WorkStored, ProgRouters.Chained, ProgRouters.KeysHold, NorthFill, Norths, ProgRouters.Decodes,
         ProgRouters.EndsWithInd;
    router := ManyNorths(150);
    NorthRange(150);
    var r := router.GenKey();
    key := r.value;
  }

  // Number of records that the last beat of a table claims to hold
  function LastSize(t: seq<byte>): nat
    requires |t| >= 32
  {
    t[|t| - 2] as nat + 0x100 * t[|t| - 1] as nat
  }

  // The indirection that the last beat starts with
  function LastInd(t: seq<byte>): Option<RoutingRecords.Record>
    requires |t| % 32 == 0 && |t| >= 32
  {
    RoutingRecords.DecodeAt(RoutingRecords.Beat(t, |t| / 32 - 1), 0)
  }

  // With one block more, the key depends on what the memory of the new beat
  // happened to contain: unless its size reads as 1, the key is wrong, and with
  // this size it is right if the new indirection has a key without beats
  method SixtyOneBeats() returns (router: ProgRouters.ProgRouter, key: nat)
    ensures |router.table| == 2 && |router.table[0]| == 62 * 32
    ensures ProgRouters.Decodes(router.table, key, Norths(300)) <==> ProgRouters.EndsNowhere(router.table, 0)
    ensures LastSize(router.table[0]) != 1 ==> !ProgRouters.Decodes(router.table, key, Norths(300))
    ensures LastInd(router.table[0]).Some? && LastInd(router.table[0]).value.IND?
    ensures LastSize(router.table[0]) == 1 && RoutingRecords.KeyLen(LastInd(router.table[0]).value.newKey) == 0 ==>
      ProgRouters.Decodes(router.table, key, Norths(300))
  {
    hide ProgRouters.WorkStored, ProgRouters.Chained, ProgRouters.KeysHold, NorthFill, Norths, ProgRouters.Decodes,
         ProgRouters.EndsNowhere, RoutingRecords.DecodeAt;
    router := ManyNorths(300);
    NorthRange(300);
    var r := router.GenKey();
    key := r.value;
    EndOf(router.table);
  }

  lemma EndOf(table: seq<seq<byte>>)
    requires |table| == 2 && |table[0]| == 62 * 32 && |table[1]| % 32 == 0 && ProgRouters.EndsWithInd(table[0])
    ensures ProgRouters.EndsNowhere(table, 0) ==> LastSize(table[0]) == 1
    ensures LastSize(table[0]) == 1 && RoutingRecords.KeyLen(LastInd(table[0]).value.newKey) == 0 ==>
      ProgRouters.EndsNowhere(table, 0)
  {
    hide RoutingRecords.DecodeAt, RoutingRecords.Resolve, RoutingRecords.KeyLen;
    var t := table[0];
    var beat, first := RoutingRecords.Beat(t, 61), LastInd(t);
    assert beat[30] == t[|t| - 2] && beat[31] == t[|t| - 1];
    assert RoutingRecords.Rams(table)[0][61] == RoutingRecords.DecodeBeat(beat);
    if LastSize(t) == 1 {
      OneRecord(beat);
      if RoutingRecords.KeyLen(first.value.newKey) == 0 {
        RoutingRecords.NoDestinations(RoutingRecords.Rams(table), first.value.newKey);
      }
    }
  }

  lemma OneRecord(beat: seq<byte>)
    requires |beat| == 32 && RoutingRecords.DecodeAt(beat, 0).Some?
    ensures RoutingRecords.DecodeFrom(beat, 0, 1) == Some([RoutingRecords.DecodeAt(beat, 0).value])
  {
    hide RoutingRecords.DecodeAt;
    var first := RoutingRecords.DecodeAt(beat, 0).value;
    var rest := RoutingRecords.DecodeFrom(beat, first.Chunks(), 0);
    assert [first] + rest.value == [first];
  }

  lemma NoNorths()
    ensures NorthFill(0) == ProgRouters.Fill(1, 0) && Norths(0) == []
  {
  }

  lemma NorthRange(n: nat)
    requires n <= 304
    ensures 1 <= NorthFill(n).beats <= 61 && (n == 150 ==> NorthFill(n).beats == 30)
    ensures n == 300 ==> NorthFill(n).beats == 61
  {
  }
}
