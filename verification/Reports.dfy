// The answers of the applications, as the host is told them.
module Reports {
  import opened Wrappers
  import opened InTables
  import opened Vertices
  import opened Answers
  import opened Softswitch
  import opened Refinement
  import opened Simulation
  import opened Deployments
  import HeatGals
  import Sssp
  import AspGals
  import AspSync
  import HashMin
  import Pressure
  import BitVectors
  import Fronts

  // Everybody has been asked
  ghost predicate Everyone(asked: set<nat>, n: nat) { forall d | 0 <= d < n :: d in asked }

  // ---------------------------------------------------------------------
  // Shortest paths

  // The length of a shortest path, or the largest integer if no path is shorter
  ghost predicate IsDistance(p: Sssp.Setup, v: nat, x: int) {
    && x <= Sssp.MAX && (x < Sssp.MAX ==> exists path :: Sssp.PathTo(p, path, v) && Sssp.Len(path) == x)
    && forall path | Sssp.PathTo(p, path, v) :: x <= Sssp.Len(path)
  }

  ghost function Distance(p: Sssp.Setup, v: nat): int {
    if x: int :| IsDistance(p, v, x) then x else Sssp.MAX
  }

  lemma DistanceIs(p: Sssp.Setup, v: nat, x: int)
    requires IsDistance(p, v, x)
    ensures Distance(p, v) == x
  {
    var y: int :| IsDistance(p, v, y) && Distance(p, v) == y;
    NotLess(p, v, x, y);
    NotLess(p, v, y, x);
  }

  lemma NotLess(p: Sssp.Setup, v: nat, x: int, y: int)
    requires IsDistance(p, v, x) && IsDistance(p, v, y)
    ensures y <= x
  {
  }

  ghost function Distances(p: Sssp.Setup): nat -> int { (v: nat) => Distance(p, v) }

  function Whole(x: int): int { x }

  lemma SsspDiscreet()
    ensures Discreet(Sssp.SSSP)
  {
  }

  // The host is told the shortest distance of every device that has been asked,
  // once, and nothing else; in the end its sum is that of all distances
  lemma SsspReports(p: Sssp.Setup, w: World<Sssp.SSSPState, int, int>)
    requires Sssp.Proper(p) && Sssp.Fits(p) && Reachable(Sssp.SSSP, p.g, p.memory, w)
    ensures Reported(w.air, w.asked, Distances(p), |p.g|)
    ensures Everyone(w.asked, |p.g|) ==> HostSum(w.air, Whole) == DeviceSum(Distances(p), |p.g|)
  {
    hide Sssp.Fits, Reachable, Discreet, Sssp.PathTo, Sssp.Len, Sssp.SSSP, IsDistance, Distance;
    SsspDiscreet();
    Sssp.SsspCorrect(p, w, p.source);
    var answer := Distances(p);
    if w.done {
      forall v | 0 <= v < |w.devs| ensures Sssp.SSSP.finish(w.devs[v], Clock(w.time)).1 == Says(answer(v)) {
        Sssp.SsspCorrect(p, w, v);
        DistanceOf(p, w, v);
      }
    }
    ReportedAs(Sssp.SSSP, p.g, p.memory, w, answer);
    if Everyone(w.asked, |p.g|) {
      ReportedSum(w.air, w.asked, answer, Whole, |p.g|);
      SameSums(Of(Whole, answer), answer, |p.g|);
    }
  }

  lemma DistanceOf(p: Sssp.Setup, w: World<Sssp.SSSPState, int, int>, v: nat)
    requires Sssp.Proper(p) && Sssp.Fits(p) && Reachable(Sssp.SSSP, p.g, p.memory, w) && w.done && v < |p.g|
    ensures v < |w.devs| && Sssp.SSSP.finish(w.devs[v], Clock(w.time)).1 == Says(Distance(p, v))
  {
    hide Sssp.Proper, Sssp.Fits, Reachable;
    Sssp.SsspCorrect(p, w, v);
    DistanceIs(p, v, w.devs[v].s.dist);
  }

  lemma {:induction false} SameSums(f: nat -> int, g: nat -> int, n: nat)
    requires forall d | 0 <= d < n :: f(d) == g(d)
    ensures DeviceSum(f, n) == DeviceSum(g, n)
    decreases n
  {
    if n > 0 {
      SameSums(f, g, n - 1);
    }
  }

  // ---------------------------------------------------------------------
  // Least numbers

  ghost predicate IsLeast(p: HashMin.Setup, v: nat, x: int) {
    && HashMin.Comes(p, x, v)
    && forall u: nat | u < |p.memory| && HashMin.Reaches(p.g, u, v) :: x <= p.memory[u].s.min
  }

  // The least number of the vertices that reach v
  ghost function Least(p: HashMin.Setup, v: nat): int {
    if x: int :| IsLeast(p, v, x) then x else 0
  }

  ghost function Leasts(p: HashMin.Setup): nat -> int { (v: nat) => Least(p, v) }

  lemma LeastIs(p: HashMin.Setup, v: nat, x: int)
    requires IsLeast(p, v, x)
    ensures Least(p, v) == x
  {
    var y: int :| IsLeast(p, v, y) && Least(p, v) == y;
    NoLess(p, v, x, y);
    NoLess(p, v, y, x);
  }

  lemma NoLess(p: HashMin.Setup, v: nat, x: int, y: int)
    requires IsLeast(p, v, x) && IsLeast(p, v, y)
    ensures y <= x
  {
    hide HashMin.Reaches;
    var u: nat :| u < |p.memory| && HashMin.Reaches(p.g, u, v) && p.memory[u].s.min == x;
  }

  lemma MinDiscreet()
    ensures Discreet(HashMin.HASHMIN)
  {
  }

  lemma LeastOf(p: HashMin.Setup, w: World<HashMin.HashMinState, int, ()>, v: nat)
    requires HashMin.Proper(p) && Reachable(HashMin.HASHMIN, p.g, p.memory, w) && w.done && v < |p.g|
    ensures v < |w.devs| && HashMin.HASHMIN.finish(w.devs[v], Clock(w.time)).1 == Says(Least(p, v))
  {
    hide Reachable, HashMin.Reaches, HashMin.Comes;
    HashMin.MinCorrect(p, w, v);
    LeastIs(p, v, w.devs[v].s.min);
  }

  // The host is told the least number that reaches every device that has been
  // asked; in the end its sum is that of all of them
  lemma MinReports(p: HashMin.Setup, w: World<HashMin.HashMinState, int, ()>)
    requires HashMin.Proper(p) && Reachable(HashMin.HASHMIN, p.g, p.memory, w)
    ensures Reported(w.air, w.asked, Leasts(p), |p.g|)
    ensures Everyone(w.asked, |p.g|) ==> HostSum(w.air, Whole) == DeviceSum(Leasts(p), |p.g|)
  {
    assert |p.g| == |p.memory|;
    hide HashMin.Proper, Reachable, Discreet, HashMin.HASHMIN, Least;
    DeviceCount(HashMin.HASHMIN, p.g, p.memory, w);
    MinDiscreet();
    var answer := Leasts(p);
    if w.done {
      forall v | 0 <= v < |w.devs| ensures HashMin.HASHMIN.finish(w.devs[v], Clock(w.time)).1 == Says(answer(v)) {
        LeastOf(p, w, v);
      }
    }
    ReportedAs(HashMin.HASHMIN, p.g, p.memory, w, answer);
    if Everyone(w.asked, |p.g|) {
      ReportedSum(w.air, w.asked, answer, Whole, |p.g|);
      SameSums(Of(Whole, answer), answer, |p.g|);
    }
  }

  // ---------------------------------------------------------------------
  // Sums of distances

  ghost function SyncSums(p: AspSync.Setup): nat -> AspSync.ASPMessage
    requires |p.g| == |p.memory|
  {
    (v: nat) => AspSync.ASPMessage(AspSync.ReachedDists(p, v, p.sources) % BitVectors.WIDE, {})
  }

  lemma SyncDiscreet()
    ensures Discreet(AspSync.ASP)
  {
  }

  lemma SyncSumOf(p: AspSync.Setup, w: World<AspSync.ASPState, AspSync.ASPMessage, ()>, v: nat)
    requires AspSync.Proper(p) && Reachable(AspSync.ASP, p.g, p.memory, w) && w.done && v < |p.g|
    ensures v < |w.devs| && AspSync.ASP.finish(w.devs[v], Clock(w.time)).1 == Says(SyncSums(p)(v))
  {
    hide Reachable, AspSync.ReachedDists, Fronts.Reached;
    AspSync.AspCorrect(p, w, v);
  }

  // The host is told the sum of the distances of every device that has been asked
  lemma SyncReports(p: AspSync.Setup, w: World<AspSync.ASPState, AspSync.ASPMessage, ()>)
    requires AspSync.Proper(p) && Reachable(AspSync.ASP, p.g, p.memory, w)
    ensures Reported(w.air, w.asked, SyncSums(p), |p.g|)
  {
    assert |p.g| == |p.memory|;
    hide Reachable, Discreet, AspSync.ASP, SyncSums;
    DeviceCount(AspSync.ASP, p.g, p.memory, w);
    SyncDiscreet();
    if w.done {
      forall v | 0 <= v < |w.devs| ensures AspSync.ASP.finish(w.devs[v], Clock(w.time)).1 == Says(SyncSums(p)(v)) {
        SyncSumOf(p, w, v);
      }
    }
    ReportedAs(AspSync.ASP, p.g, p.memory, w, SyncSums(p));
  }

  ghost function AspSums(p: AspGals.Setup): nat -> AspGals.ASPMessage
    requires |p.g| == |p.memory|
  {
    (v: nat) => AspGals.ASPMessage(
      if forall i | 0 <= i < p.sources :: Fronts.Reached(p.g, AspGals.Start(p), i, v)
      then Fronts.AllDists(p.g, AspGals.Start(p), v, p.sources) % BitVectors.WIDE else 0, {})
  }

  lemma AspDiscreet()
    ensures Discreet(AspGals.ASP)
  {
  }

  lemma AspSumOf(p: AspGals.Setup, w: World<AspGals.ASPState, AspGals.ASPMessage, ()>, v: nat)
    requires AspGals.Proper(p) && Reachable(AspGals.ASP, p.g, p.memory, w) && w.done && v < |p.g|
    ensures v < |w.devs| && AspGals.ASP.finish(w.devs[v], Clock(w.time)).1 == Says(AspSums(p)(v))
  {
    hide Reachable, Fronts.AllDists, Fronts.Reached;
    AspGals.AspCorrect(p, w, v);
  }

  lemma AspReports(p: AspGals.Setup, w: World<AspGals.ASPState, AspGals.ASPMessage, ()>)
    requires AspGals.Proper(p) && Reachable(AspGals.ASP, p.g, p.memory, w)
    ensures Reported(w.air, w.asked, AspSums(p), |p.g|)
  {
    assert |p.g| == |p.memory|;
    hide Reachable, Discreet, AspGals.ASP, AspSums;
    DeviceCount(AspGals.ASP, p.g, p.memory, w);
    AspDiscreet();
    if w.done {
      forall v | 0 <= v < |w.devs| ensures AspGals.ASP.finish(w.devs[v], Clock(w.time)).1 == Says(AspSums(p)(v)) {
        AspSumOf(p, w, v);
      }
    }
    ReportedAs(AspGals.ASP, p.g, p.memory, w, AspSums(p));
  }

  // ---------------------------------------------------------------------
  // Temperatures

  ghost function Temperatures(p: HeatGals.Setup): nat -> HeatGals.HeatMessage {
    (v: nat) => HeatGals.HeatMessage(v, 0, HeatGals.Val(p, p.steps, v))
  }

  lemma HeatDiscreet()
    ensures Discreet(HeatGals.HEAT)
  {
  }

  lemma TemperatureOf(p: HeatGals.Setup, w: World<HeatGals.HeatState, HeatGals.HeatMessage, ()>, v: nat)
    requires HeatGals.Proper(p) && Reachable(HeatGals.HEAT, p.g, p.memory, w) && w.done && v < |p.g|
    ensures v < |w.devs| && HeatGals.HEAT.finish(w.devs[v], Clock(w.time)).1 == Says(Temperatures(p)(v))
  {
    hide Reachable, HeatGals.Val, HeatGals.Proper;
    HeatGals.HeatCorrect(p, w);
    HeatGals.AllDevsOk(p, w);
    assert HeatGals.DevOk(p, w.devs[v], v);
  }

  // The host is told the number and the final temperature of every device that
  // has been asked, once, and nothing else
  lemma HeatReports(p: HeatGals.Setup, w: World<HeatGals.HeatState, HeatGals.HeatMessage, ()>)
    requires HeatGals.Proper(p) && Reachable(HeatGals.HEAT, p.g, p.memory, w)
    ensures Reported(w.air, w.asked, Temperatures(p), |p.g|)
  {
    assert |p.g| == |p.memory|;
    hide Reachable, Discreet, HeatGals.HEAT, Temperatures, HeatGals.Proper;
    DeviceCount(HeatGals.HEAT, p.g, p.memory, w);
    HeatDiscreet();
    if w.done {
      forall v | 0 <= v < |w.devs| ensures HeatGals.HEAT.finish(w.devs[v], Clock(w.time)).1 == Says(Temperatures(p)(v)) {
        TemperatureOf(p, w, v);
      }
    }
    ReportedAs(HeatGals.HEAT, p.g, p.memory, w, Temperatures(p));
  }

  // ---------------------------------------------------------------------
  // Beads

  function Beads(m: Pressure.PressureMessage): int { m.pressure }

  ghost function Pressures(w: World<Pressure.PressureState, Pressure.PressureMessage, nat>): nat -> Pressure.PressureMessage {
    (v: nat) => Pressure.PressureMessage(if v < |w.devs| then w.devs[v].s.pressure else 0, {})
  }

  lemma PressureDiscreet(coin: Pressure.Coin)
    ensures Discreet(Pressure.PRESSURE(coin))
  {
  }

  lemma {:induction false} ShownSum(w: World<Pressure.PressureState, Pressure.PressureMessage, nat>, n: nat)
    requires n <= |w.devs|
    ensures DeviceSum(Of(Beads, Pressures(w)), n) == Pressure.Sum(Pressure.Shown(w.devs[..n]))
    decreases n
  {
    if n == 0 {
      assert Pressure.Shown(w.devs[..0]) == [];
    } else {
      ShownSum(w, n - 1);
      var shown := Pressure.Shown(w.devs[..n]);
      assert shown[..n - 1] == Pressure.Shown(w.devs[..n - 1]);
      assert Pressure.Sum(shown) == Pressure.Sum(shown[..n - 1]) + shown[n - 1];
    }
  }

  // The host is told one pressure for every device that has been asked.  Once all
  // have been asked, after an even number of steps, they add up to all beads.
  lemma PressureReports(p: Pressure.Setup, coin: Pressure.Coin,
                        w: World<Pressure.PressureState, Pressure.PressureMessage, nat>)
    requires Pressure.Proper(p) && Reachable(Pressure.PRESSURE(coin), p.g, p.memory, w)
    ensures Reported(w.air, w.asked, Pressures(w), |p.g|)
    ensures w.done && p.steps % 2 == 0 && Everyone(w.asked, |p.g|) ==> HostSum(w.air, Beads) == Pressure.Beads(p)
  {
    assert |p.g| == |p.memory|;
    hide Pressure.Proper, Reachable, Discreet, Pressure.Sum;
    DeviceCount(Pressure.PRESSURE(coin), p.g, p.memory, w);
    PressureDiscreet(coin);
    ReportedAs(Pressure.PRESSURE(coin), p.g, p.memory, w, Pressures(w));
    if w.done && p.steps % 2 == 0 && Everyone(w.asked, |p.g|) {
      Pressure.PressCorrect(p, coin, w);
      ReportedSum(w.air, w.asked, Pressures(w), Beads, |p.g|);
      ShownSum(w, |w.devs|);
      assert w.devs[..|w.devs|] == w.devs;
    }
  }

  // ---------------------------------------------------------------------
  // The same on the machine, when all threads have finished

  // Payloads of the messages to the host
  function HostMessages<M, E>(items: seq<Item<M, E>>): multiset<M> {
    if items == [] then multiset{}
    else HostMessages(items[1..]) + if items[0].HostItem? then multiset{items[0].payload} else multiset{}
  }

  // One answer for each of the devices below n
  ghost function AllAnswers<M>(answer: nat -> M, n: nat): multiset<M> {
    if n == 0 then multiset{} else AllAnswers(answer, n - 1) + multiset{answer(n - 1)}
  }

  lemma {:induction false} HostCount<M, E>(from: seq<seq<nat>>, items: seq<Item<M, E>>, x: M)
    ensures ItemsOut(from, items)[ToHost(x)] == HostMessages(items)[x]
    decreases |items|
  {
    if items != [] {
      HostCount(from, items[1..], x);
      if items[0].Packet? {
        NotToHost(from, items[0].thread, items[0].edges, items[0].payload, x);
      }
    }
  }

  lemma {:induction false} AnswerCount<M, E>(asked: set<nat>, answer: nat -> M, n: nat, x: M)
    requires Everyone(asked, n)
    ensures Spoken<M, E>(asked, Saids(answer), n)[ToHost(x)] == AllAnswers(answer, n)[x]
    decreases n
  {
    if n > 0 {
      AnswerCount<M, E>(asked, answer, n - 1, x);
      LastAnswer<M, E>(asked, answer, n);
    }
  }

  // What the host has been told by then, if the answers are known
  lemma MachineReports<S(!new), M(!new), E(!new)>(cfg: Config<S, M, E>, run: seq<Machine<S, M, E>>, n: nat,
                                                  answer: nat -> M)
    requires Compiled(cfg) && Run(cfg, run) && n < |run| && AllFinished(run[n]) && Shape(cfg, run[n].threads)
    requires Reported(Abs(cfg, run[n]).air, Abs(cfg, run[n]).asked, answer, |cfg.place|)
    ensures HostMessages(run[n].air) == AllAnswers(answer, |cfg.place|)
  {
    hide Compiled, Run, Reachable, AirOk, PlaceOk, ItemsOut, HostMessages, AllAnswers, Spoken;
    RunsRefine(cfg, run, n);
    FinishedWorld(cfg, run[n]);
    forall x: M ensures HostMessages(run[n].air)[x] == AllAnswers(answer, |cfg.place|)[x] {
      HostCount(cfg.from, run[n].air, x);
      AnswerCount<M, E>(Abs(cfg, run[n]).asked, answer, |cfg.place|, x);
    }
    SameBag(HostMessages(run[n].air), AllAnswers(answer, |cfg.place|));
  }

  lemma SameBag<T(!new)>(a: multiset<T>, b: multiset<T>)
    requires forall x: T :: a[x] == b[x]
    ensures a == b
  {
  }

  lemma FinishedWorld<S, M, E>(cfg: Config<S, M, E>, m: Machine<S, M, E>)
    requires Inv(cfg, m) && AllFinished(m)
    ensures Abs(cfg, m).air == ItemsOut(cfg.from, m.air) && Everyone(Abs(cfg, m).asked, |cfg.place|)
    ensures |Abs(cfg, m).devs| == |cfg.place| && Abs(cfg, m).done
  {
    hide AirOk, ItemsOut;
    forall t | 0 <= t < |m.threads| ensures m.threads[t].legs == [] && m.threads[t].inbox == None {
      assert ThreadOk(cfg.from, m.threads[t], t, AbsTime(m.threads[0]));
    }
    OnlyItems(cfg, m);
    assert Over(m.threads[0]);
  }

  // When the machine has finished, the host has one message from every device:
  // for shortest paths, its distance
  lemma SsspToHost(p: Sssp.Setup, cfg: Config<Sssp.SSSPState, int, int>, run: seq<Machine<Sssp.SSSPState, int, int>>,
                   n: nat)
    requires Sssp.Proper(p) && Sssp.Fits(p) && cfg.app == Sssp.SSSP && cfg.graph == p.g && cfg.memory == p.memory
    requires Compiled(cfg) && Run(cfg, run) && n < |run| && AllFinished(run[n])
    ensures HostMessages(run[n].air) == AllAnswers(Distances(p), |p.g|)
  {
    assert |cfg.place| == |p.g|;
    hide Sssp.Proper, Sssp.Fits, Compiled, Run, Reachable, Abs, AllFinished, Reported;
    RunsRefine(cfg, run, n);
    SsspReports(p, Abs(cfg, run[n]));
    MachineReports(cfg, run, n, Distances(p));
  }

  // ... its least number
  lemma MinToHost(p: HashMin.Setup, cfg: Config<HashMin.HashMinState, int, ()>,
                  run: seq<Machine<HashMin.HashMinState, int, ()>>, n: nat)
    requires HashMin.Proper(p) && cfg.app == HashMin.HASHMIN && cfg.graph == p.g && cfg.memory == p.memory
    requires Compiled(cfg) && Run(cfg, run) && n < |run| && AllFinished(run[n])
    ensures HostMessages(run[n].air) == AllAnswers(Leasts(p), |p.g|)
  {
    assert |cfg.place| == |p.g|;
    hide HashMin.Proper, Compiled, Run, Reachable, Abs, AllFinished, Reported;
    RunsRefine(cfg, run, n);
    MinReports(p, Abs(cfg, run[n]));
    MachineReports(cfg, run, n, Leasts(p));
  }

  // ... the sum of its distances
  lemma SyncToHost(p: AspSync.Setup, cfg: Config<AspSync.ASPState, AspSync.ASPMessage, ()>,
                   run: seq<Machine<AspSync.ASPState, AspSync.ASPMessage, ()>>, n: nat)
    requires AspSync.Proper(p) && cfg.app == AspSync.ASP && cfg.graph == p.g && cfg.memory == p.memory
    requires Compiled(cfg) && Run(cfg, run) && n < |run| && AllFinished(run[n])
    ensures HostMessages(run[n].air) == AllAnswers(SyncSums(p), |p.g|)
  {
    assert |cfg.place| == |p.g|;
    hide AspSync.Proper, Compiled, Run, Reachable, Abs, AllFinished, Reported, SyncSums;
    assert |p.g| == |p.memory|;
    RunsRefine(cfg, run, n);
    SyncReports(p, Abs(cfg, run[n]));
    MachineReports(cfg, run, n, SyncSums(p));
  }

  lemma AspToHost(p: AspGals.Setup, cfg: Config<AspGals.ASPState, AspGals.ASPMessage, ()>,
                  run: seq<Machine<AspGals.ASPState, AspGals.ASPMessage, ()>>, n: nat)
    requires AspGals.Proper(p) && cfg.app == AspGals.ASP && cfg.graph == p.g && cfg.memory == p.memory
    requires Compiled(cfg) && Run(cfg, run) && n < |run| && AllFinished(run[n])
    ensures HostMessages(run[n].air) == AllAnswers(AspSums(p), |p.g|)
  {
    assert |cfg.place| == |p.g|;
    hide AspGals.Proper, Compiled, Run, Reachable, Abs, AllFinished, Reported, AspSums;
    RunsRefine(cfg, run, n);
    AspReports(p, Abs(cfg, run[n]));
    MachineReports(cfg, run, n, AspSums(p));
  }

  // ... its number and its temperature
  lemma HeatToHost(p: HeatGals.Setup, cfg: HeatConfig, run: seq<HeatMachine>, n: nat)
    requires HeatGals.Proper(p) && cfg.app == HeatGals.HEAT && cfg.graph == p.g && cfg.memory == p.memory
    requires Compiled(cfg) && Run(cfg, run) && n < |run| && AllFinished(run[n])
    ensures HostMessages(run[n].air) == AllAnswers(Temperatures(p), |p.g|)
  {
    assert |cfg.place| == |p.g|;
    hide HeatGals.Proper, Compiled, Run, Reachable, Abs, AllFinished, Reported, Temperatures;
    RunsRefine(cfg, run, n);
    HeatReports(p, Abs(cfg, run[n]));
    MachineReports(cfg, run, n, Temperatures(p));
  }

  // Sum of a number for each message to the host
  function ItemSum<M, E>(items: seq<Item<M, E>>, f: M -> int): int {
    if items == [] then 0 else ItemSum(items[1..], f) + if items[0].HostItem? then f(items[0].payload) else 0
  }

  lemma {:induction false} ItemSumOut<M(!new), E>(from: seq<seq<nat>>, items: seq<Item<M, E>>, f: M -> int)
    ensures HostSum(ItemsOut(from, items), f) == ItemSum(items, f)
    decreases |items|
  {
    hide HostSum, EdgesOut;
    if items == [] {
      NothingSum<M, E>(f);
    } else {
      ItemSumOut(from, items[1..], f);
      var rest := ItemsOut(from, items[1..]);
      if items[0].HostItem? {
        assert ItemsOut(from, items) == rest + multiset{ToHost(items[0].payload)};
        OneMore(ItemsOut(from, items), rest, ToHost(items[0].payload), f);
      } else {
        forall x: M ensures ItemsOut(from, items)[ToHost(x)] == rest[ToHost(x)] {
          NotToHost(from, items[0].thread, items[0].edges, items[0].payload, x);
        }
        HostSame(ItemsOut(from, items), rest, f);
      }
    }
  }

  // ... and for discrete pressure, after an even number of steps, the pressures
  // that the host has been told add up to all beads
  lemma PressureToHost(p: Pressure.Setup, coin: Pressure.Coin,
                       cfg: Config<Pressure.PressureState, Pressure.PressureMessage, nat>,
                       run: seq<Machine<Pressure.PressureState, Pressure.PressureMessage, nat>>, n: nat)
    requires Pressure.Proper(p) && p.steps % 2 == 0
    requires cfg.app == Pressure.PRESSURE(coin) && cfg.graph == p.g && cfg.memory == p.memory
    requires Compiled(cfg) && Run(cfg, run) && n < |run| && AllFinished(run[n])
    ensures |HostMessages(run[n].air)| == |p.g| && ItemSum(run[n].air, Beads) == Pressure.Beads(p)
  {
    assert |cfg.place| == |p.g|;
    hide Pressure.Proper, Compiled, Run, Reachable, Abs, AllFinished, Reported, HostSum, Pressure.Beads;
    RunsRefine(cfg, run, n);
    var w := Abs(cfg, run[n]);
    PressureReports(p, coin, w);
    FinishedWorld(cfg, run[n]);
    ItemSumOut(cfg.from, run[n].air, Beads);
    MachineReports(cfg, run, n, Pressures(w));
    AnswersNumber(Pressures(w), |p.g|);
  }

  lemma {:induction false} AnswersNumber<M>(answer: nat -> M, n: nat)
    ensures |AllAnswers(answer, n)| == n
    decreases n
  {
    if n > 0 {
      AnswersNumber(answer, n - 1);
    }
  }
}
