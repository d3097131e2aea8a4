// Applications on the machine: what the vertex protocols guarantee holds on the
// threads of the softswitch, whatever the order in which they run.
module Deployments {
  import opened Vertices
  import opened Softswitch
  import opened Refinement
  import opened Simulation
  import opened Wrappers
  import opened InTables
  import opened Builds
  import opened Linking
  import opened Placers
  import opened Placings
  import opened Mappers
  import opened RoutingTables
  import HeatGals
  import Sssp
  import AspGals
  import AspSync
  import HashMin
  import Pressure
  import ClockTree
  import BitVectors
  import Fronts

  // The state of a device of the machine
  ghost function DeviceOf<S, M, E>(cfg: Config<S, M, E>, m: Machine<S, M, E>, d: nat): Dev<S>
    requires Shape(cfg, m.threads) && d < |cfg.place|
  {
    m.threads[cfg.place[d].0].slots[cfg.place[d].1].dev
  }

  // In the run, a thread has been told that the run is over
  ghost predicate IsOver<S(!new), M(!new), E(!new)>(cfg: Config<S, M, E>, run: seq<Machine<S, M, E>>, n: nat, t: nat) {
    Run(cfg, run) && n < |run| && t < |run[n].threads| && Over(run[n].threads[t])
  }

  // Once one thread has been told that the run is over, the devices of all
  // threads are those of a reachable world that is done, after a time step in
  // which all step handlers returned false
  lemma OverIsDone<S(!new), M(!new), E(!new)>(cfg: Config<S, M, E>, run: seq<Machine<S, M, E>>, n: nat, t: nat)
    requires Compiled(cfg) && IsOver(cfg, run, n, t)
    ensures Shape(cfg, run[n].threads) && Abs(cfg, run[n]).done
    ensures Reachable(cfg.app, cfg.graph, cfg.memory, Abs(cfg, run[n]))
    ensures EndsRight(cfg.app, cfg.graph, cfg.memory, Abs(cfg, run[n]))
    ensures |Abs(cfg, run[n]).devs| == |cfg.place|
    ensures forall d | 0 <= d < |cfg.place| :: Abs(cfg, run[n]).devs[d] == DeviceOf(cfg, run[n], d)
  {
    hide Compiled, Run, Reachable, AirOk, ThreadOk;
    RunsRefine(cfg, run, n);
    var k, j := FinishSafe(cfg, run, n, t);
    forall d | 0 <= d < |cfg.place| ensures Abs(cfg, run[n]).devs[d] == DeviceOf(cfg, run[n], d) {
      assert Over(run[n].threads[cfg.place[d].0]);
    }
  }

  type HeatConfig = Config<HeatGals.HeatState, HeatGals.HeatMessage, ()>
  type HeatMachine = Machine<HeatGals.HeatState, HeatGals.HeatMessage, ()>

  // Heat on the machine ends with the temperatures of the synchronous iteration
  lemma HeatOnThreads(p: HeatGals.Setup, cfg: Config<HeatGals.HeatState, HeatGals.HeatMessage, ()>,
                      run: seq<HeatMachine>, n: nat, t: nat)
    requires HeatGals.Proper(p) && cfg.app == HeatGals.HEAT && cfg.graph == p.g && cfg.memory == p.memory
    requires Compiled(cfg) && IsOver(cfg, run, n, t)
    ensures Shape(cfg, run[n].threads) && |cfg.place| == |p.g|
    ensures forall v | 0 <= v < |p.g| :: DeviceOf(cfg, run[n], v).s.val == HeatGals.Val(p, p.steps, v)
  {
    hide HeatGals.Proper, Compiled, Run, HeatGals.Val, Reachable, Abs, DeviceOf, Over;
    OverIsDone(cfg, run, n, t);
    HeatGals.HeatCorrect(p, Abs(cfg, run[n]));
  }

  // Asynchronous shortest paths on the machine end with the shortest distances
  lemma SsspOnThreads(p: Sssp.Setup, cfg: Config<Sssp.SSSPState, int, int>,
                      run: seq<Machine<Sssp.SSSPState, int, int>>, n: nat, t: nat, v: nat)
    requires Sssp.Proper(p) && Sssp.Fits(p) && cfg.app == Sssp.SSSP && cfg.graph == p.g && cfg.memory == p.memory
    requires Compiled(cfg) && IsOver(cfg, run, n, t)
    requires v < |p.g|
    ensures Shape(cfg, run[n].threads) && |cfg.place| == |p.g|
    ensures var dist := DeviceOf(cfg, run[n], v).s.dist;
      && (dist < Sssp.MAX ==> exists path :: Sssp.PathTo(p, path, v) && Sssp.Len(path) == dist)
      && forall path | Sssp.PathTo(p, path, v) :: dist <= Sssp.Len(path)
  {
    hide Sssp.Fits, Compiled, Run, Reachable, Abs, DeviceOf, Over;
    OverIsDone(cfg, run, n, t);
    Sssp.SsspCorrect(p, Abs(cfg, run[n]), v);
  }

  // All-sources distances on the machine end with the sums of the distances
  lemma AspOnThreads(p: AspGals.Setup, cfg: Config<AspGals.ASPState, AspGals.ASPMessage, ()>,
                     run: seq<Machine<AspGals.ASPState, AspGals.ASPMessage, ()>>, n: nat, t: nat, v: nat)
    requires AspGals.Proper(p) && cfg.app == AspGals.ASP && cfg.graph == p.g && cfg.memory == p.memory
    requires Compiled(cfg) && IsOver(cfg, run, n, t)
    requires v < |p.g|
    ensures Shape(cfg, run[n].threads) && |cfg.place| == |p.g|
    ensures forall i | 0 <= i < p.sources :: Fronts.Reached(p.g, AspGals.Start(p), i, v)
    ensures DeviceOf(cfg, run[n], v).s.sum == Fronts.AllDists(p.g, AspGals.Start(p), v, p.sources) % BitVectors.WIDE
  {
    hide AspGals.Proper, Compiled, Run, Reachable, Abs, DeviceOf, Over, Fronts.AllDists;
    OverIsDone(cfg, run, n, t);
    AspGals.AspCorrect(p, Abs(cfg, run[n]), v);
  }

  // Synchronous all-sources distances on the machine end with all the sources
  // that reach a device, and the sums of their distances
  lemma AspSyncOnThreads(p: AspSync.Setup, cfg: Config<AspSync.ASPState, AspSync.ASPMessage, ()>,
                         run: seq<Machine<AspSync.ASPState, AspSync.ASPMessage, ()>>, n: nat, t: nat, v: nat)
    requires AspSync.Proper(p) && cfg.app == AspSync.ASP && cfg.graph == p.g && cfg.memory == p.memory
    requires Compiled(cfg) && IsOver(cfg, run, n, t)
    requires v < |p.g|
    ensures Shape(cfg, run[n].threads) && |cfg.place| == |p.g|
    ensures var s := DeviceOf(cfg, run[n], v).s;
      && (forall i: nat :: i in s.reaching <==> Fronts.Reached(p.g, AspSync.Start(p), i, v))
      && s.sum == AspSync.ReachedDists(p, v, p.sources) % BitVectors.WIDE
  {
    hide AspSync.Proper, Compiled, Run, Reachable, Abs, DeviceOf, Over, AspSync.ReachedDists, Fronts.Reached;
    OverIsDone(cfg, run, n, t);
    AspSync.AspCorrect(p, Abs(cfg, run[n]), v);
  }

  // Connected components on the machine end with the least number that reaches a
  // device
  lemma MinOnThreads(p: HashMin.Setup, cfg: Config<HashMin.HashMinState, int, ()>,
                     run: seq<Machine<HashMin.HashMinState, int, ()>>, n: nat, t: nat, v: nat)
    requires HashMin.Proper(p) && cfg.app == HashMin.HASHMIN && cfg.graph == p.g && cfg.memory == p.memory
    requires Compiled(cfg) && IsOver(cfg, run, n, t)
    requires v < |p.g|
    ensures Shape(cfg, run[n].threads) && |cfg.place| == |p.g|
    ensures var min := DeviceOf(cfg, run[n], v).s.min;
      && HashMin.Comes(p, min, v)
      && forall u: nat | u < |p.g| && HashMin.Reaches(p.g, u, v) :: min <= p.memory[u].s.min
  {
    hide HashMin.Proper, Compiled, Run, Reachable, Abs, DeviceOf, Over, HashMin.Comes, HashMin.Reaches;
    OverIsDone(cfg, run, n, t);
    HashMin.MinCorrect(p, Abs(cfg, run[n]), v);
  }

  // The states of all devices of the machine
  ghost function DevicesOf<S, M, E>(cfg: Config<S, M, E>, m: Machine<S, M, E>): seq<Dev<S>>
    requires Shape(cfg, m.threads)
  {
    seq(|cfg.place|, d requires 0 <= d < |cfg.place| => DeviceOf(cfg, m, d))
  }

  // Discrete pressure on the machine ends with all beads, after an even number
  // of steps
  lemma PressureOnThreads(p: Pressure.Setup, coin: Pressure.Coin,
                          cfg: Config<Pressure.PressureState, Pressure.PressureMessage, nat>,
                          run: seq<Machine<Pressure.PressureState, Pressure.PressureMessage, nat>>, n: nat, t: nat)
    requires Pressure.Proper(p) && p.steps % 2 == 0
    requires cfg.app == Pressure.PRESSURE(coin) && cfg.graph == p.g && cfg.memory == p.memory
    requires Compiled(cfg) && IsOver(cfg, run, n, t)
    ensures Shape(cfg, run[n].threads) && |cfg.place| == |p.g|
    ensures Pressure.Sum(Pressure.Shown(DevicesOf(cfg, run[n]))) == Pressure.Beads(p)
  {
    hide Pressure.Proper, Compiled, Run, Reachable, Abs, DeviceOf, Over, Pressure.Sum, Pressure.Beads;
    OverIsDone(cfg, run, n, t);
    Pressure.PressCorrect(p, coin, Abs(cfg, run[n]));
    assert DevicesOf(cfg, run[n]) == Abs(cfg, run[n]).devs;
  }

  // A message to the host is in the network just when the application has one in
  // the air
  lemma {:induction false} HostOut<M, E>(from: seq<seq<nat>>, items: seq<Item<M, E>>, payload: M)
    ensures ToHost(payload) in ItemsOut(from, items) <==> HostItem(payload) in items
    decreases |items|
  {
    if items != [] {
      HostOut(from, items[1..], payload);
      assert items == [items[0]] + items[1..];
      if items[0].Packet? {
        NotToHost(from, items[0].thread, items[0].edges, items[0].payload, payload);
      }
    }
  }

  lemma {:induction false} NotToHost<M, E>(from: seq<seq<nat>>, t: nat, edges: seq<InEdge<E>>, payload: M, x: M)
    ensures ToHost(x) !in EdgesOut(from, t, edges, payload)
    decreases |edges|
  {
    if edges != [] {
      NotToHost(from, t, edges[1..], payload, x);
    }
  }

  type ClockMachine = Machine<ClockTree.ClockTreeState, ClockTree.ClockTreeMessage, ()>
  type ClockConfig = Config<ClockTree.ClockTreeState, ClockTree.ClockTreeMessage, ()>

  // The clock tree on the machine: in the first wave, when idleness is detected
  // the root has sent to the host, and what is sent is the number of vertices
  lemma ClockOnThreads(p: ClockTree.Setup, cfg: ClockConfig, run: seq<ClockMachine>, n: nat)
    requires ClockTree.Proper(p) && cfg.app == ClockTree.CLOCKTREE && cfg.graph == p.g && cfg.memory == p.memory
    requires Compiled(cfg) && Run(cfg, run) && n < |run|
    ensures Shape(cfg, run[n].threads)
    ensures Abs(cfg, run[n]).time == 1 ==>
      && (forall m', last | Detects(run[n], m', last) ::
            exists payload :: HostItem(payload) in run[n].air && payload.vertexCount == |p.parent|)
      && forall payload | HostItem(payload) in run[n].air :: payload.vertexCount == |p.parent|
  {
    hide ClockTree.Proper, Compiled, Run, Reachable, Detects, Quiet, AirOk, ThreadOk, PlaceOk, ItemsOut, ThreadsOut;
    RunsRefine(cfg, run, n);
    var w := Abs(cfg, run[n]);
    if w.time == 1 {
      ClockTree.ClockCorrect(p, w);
      forall payload | HostItem(payload) in run[n].air ensures payload.vertexCount == |p.parent| {
        HostOut(cfg.from, run[n].air, payload);
        assert ToHost(payload) in w.air;
      }
      forall m', last | Detects(run[n], m', last)
        ensures exists payload :: HostItem(payload) in run[n].air && payload.vertexCount == |p.parent|
      {
        DetectsSafe(cfg, run, n, last, m');
        var m :| m in w.air && m.ToHost?;
        OnlyItems(cfg, run[n]);
        HostOut(cfg.from, run[n].air, m.payload);
      }
    }
  }

  lemma OnlyItems<S, M, E>(cfg: Config<S, M, E>, m: Machine<S, M, E>)
    requires Shape(cfg, m.threads)
    requires forall t | 0 <= t < |m.threads| :: m.threads[t].legs == [] && m.threads[t].inbox == None
    ensures Abs(cfg, m).air == ItemsOut(cfg.from, m.air)
  {
    hide ItemsOut, PlaceOk;
    forall t | 0 <= t < |m.threads| ensures ThreadOut(cfg.from, m.threads[t]) == multiset{} {
    }
    NothingOut(cfg.from, m.threads);
  }

  // ---------------------------------------------------------------------
  // From a graph to the machine

  // The machine that mapping and compiling a graph makes, for an application and
  // the initial states of its devices: it runs the application unless a thread
  // has 65536 receivers or more for one pin
  method Deploy<S, M(!new), E(!new, ==)>(b: Builder<E>, ghost app: App<S, M, E>, ghost memory: seq<Dev<S>>, how: Method,
                                         numPins: nat, perHeader: nat, boardsX: nat, boardsY: nat)
    returns (o: Outcome, mapper: Mapper, tables: PGraph?<E>, ghost cfg: Config<S, M, E>)
    requires b.Valid() && |memory| == |b.Contents()| && PinsBelow(b.Tables(), numPins)
    requires 0 < boardsX <= MESH && 0 < boardsY <= MESH && |b.edges| * (2 * MESH) <= MAX64
    ensures cfg.app == app && cfg.graph == b.Contents() && cfg.memory == memory
    ensures o.Value? ==> tables != null && (Spread(tables) ==> Compiled(cfg))
    ensures o.Value? && b.Slim() ==> Spread(tables)
    ensures o.Exited? ==> mapper.Crowded() || (tables != null && tables.OutOfRoom())
  {
    hide Builder.Valid, Builder.Slim, PinsBelow, Compiled, Spread;
    o, mapper, tables := b.Map(how, numPins, perHeader, boardsX, boardsY);
    cfg := Config(app, b.Contents(), memory, [], [], (d: nat, p: nat) => []);
    if o.Value? {
      cfg := MachineOf(app, memory, tables);
      if Spread(tables) {
        LinkedRuns(app, memory, tables);
      }
    }
  }

  // From the edges of a heat graph to the temperatures on the threads: whenever
  // mapping succeeds, every run of the machine ends with the synchronous iteration
  method DeployHeat(b: Builder<()>, ghost p: HeatGals.Setup, how: Method, numPins: nat, perHeader: nat, boardsX: nat,
                    boardsY: nat)
    returns (o: Outcome, mapper: Mapper, tables: PGraph?<()>, ghost cfg: HeatConfig)
    requires b.Valid() && b.Contents() == p.g && HeatGals.Proper(p) && PinsBelow(b.Tables(), numPins)
    requires 0 < boardsX <= MESH && 0 < boardsY <= MESH && |b.edges| * (2 * MESH) <= MAX64
    ensures o.Value? ==> tables != null && (b.Slim() ==> Spread(tables))
    ensures o.Value? && Spread(tables) ==>
      Compiled(cfg) && forall run: seq<HeatMachine>, n: nat, t: nat | IsOver(cfg, run, n, t) ::
        && Shape(cfg, run[n].threads) && |cfg.place| == |p.g|
        && forall v | 0 <= v < |p.g| :: DeviceOf(cfg, run[n], v).s.val == HeatGals.Val(p, p.steps, v)
    ensures o.Exited? ==> mapper.Crowded() || (tables != null && tables.OutOfRoom())
  {
    hide Builder.Valid, Builder.Slim, PinsBelow, Compiled, DeviceOf, HeatGals.Val, Run, Spread;
    assert |p.memory| == |p.g|;
    o, mapper, tables, cfg := Deploy(b, HeatGals.HEAT, p.memory, how, numPins, perHeader, boardsX, boardsY);
    if o.Value? && Spread(tables) {
      forall run: seq<HeatMachine>, n: nat, t: nat | IsOver(cfg, run, n, t)
        ensures && Shape(cfg, run[n].threads) && |cfg.place| == |p.g|
                && forall v | 0 <= v < |p.g| :: DeviceOf(cfg, run[n], v).s.val == HeatGals.Val(p, p.steps, v)
      {
        HeatOnThreads(p, cfg, run, n, t);
      }
    }
  }
}
