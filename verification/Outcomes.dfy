// From the devices to the host: under every interleaving, a run of an application on
// the machine that goes on as long as it can finishes on all threads, and the host
// has then been told the answers, and nothing else.
module Outcomes {
  import opened Vertices
  import opened Endings
  import opened Answers
  import opened Reports
  import opened Softswitch
  import opened Refinement
  import opened Simulation
  import opened Liveness
  import opened Stops
  import HeatGals
  import Sssp
  import AspGals
  import AspSync
  import HashMin
  import Pressure

  // A run of the machine from the initial states, as far as it can go
  ghost predicate Complete<S(!new), M(!new), E(!new)>(cfg: Config<S, M, E>, run: States<S, M, E>) {
    Compiled(cfg) && StartsAs(cfg, run(0)) && Maximal(cfg, run) && Prompt(cfg, run)
  }

  lemma HeatOutcome(p: HeatGals.Setup, cfg: Config<HeatGals.HeatState, HeatGals.HeatMessage, ()>,
                    run: States<HeatGals.HeatState, HeatGals.HeatMessage, ()>) returns (n: nat)
    requires HeatGals.Proper(p) && cfg.app == HeatGals.HEAT && cfg.graph == p.g && cfg.memory == p.memory
    requires Complete(cfg, run)
    ensures AllFinished(run(n)) && HostMessages(run(n).air) == AllAnswers(Temperatures(p), |p.g|)
  {
    hide HeatGals.Proper, Compiled, Ending, StartsAs, Maximal, Prompt, Run, AllFinished;
    HeatEnding(p);
    n := AlwaysFinishes(cfg, HeatLeft, run);
    HeatToHost(p, cfg, Until(run, n), n);
  }

  lemma SsspOutcome(p: Sssp.Setup, cfg: Config<Sssp.SSSPState, int, int>,
                    run: States<Sssp.SSSPState, int, int>) returns (n: nat)
    requires Sssp.Proper(p) && Sssp.Fits(p) && cfg.app == Sssp.SSSP && cfg.graph == p.g && cfg.memory == p.memory
    requires Complete(cfg, run)
    ensures AllFinished(run(n)) && HostMessages(run(n).air) == AllAnswers(Distances(p), |p.g|)
  {
    hide Sssp.Proper, Sssp.Fits, Compiled, Ending, StartsAs, Maximal, Prompt, Run, AllFinished;
    Sssp.SsspEnding(p);
    n := AlwaysFinishes(cfg, Sssp.Left, run);
    SsspToHost(p, cfg, Until(run, n), n);
  }

  lemma AspOutcome(p: AspGals.Setup, cfg: Config<AspGals.ASPState, AspGals.ASPMessage, ()>,
                    run: States<AspGals.ASPState, AspGals.ASPMessage, ()>) returns (n: nat)
    requires AspGals.Proper(p) && cfg.app == AspGals.ASP && cfg.graph == p.g && cfg.memory == p.memory
    requires Complete(cfg, run)
    ensures AllFinished(run(n)) && HostMessages(run(n).air) == AllAnswers(AspSums(p), |p.g|)
  {
    hide AspGals.Proper, Compiled, Ending, StartsAs, Maximal, Prompt, Run, AllFinished;
    AspEnding(p);
    n := AlwaysFinishes(cfg, AspLeft, run);
    AspToHost(p, cfg, Until(run, n), n);
  }

  lemma SyncOutcome(p: AspSync.Setup, cfg: Config<AspSync.ASPState, AspSync.ASPMessage, ()>,
                    run: States<AspSync.ASPState, AspSync.ASPMessage, ()>) returns (n: nat)
    requires AspSync.Proper(p) && cfg.app == AspSync.ASP && cfg.graph == p.g && cfg.memory == p.memory
    requires Complete(cfg, run)
    ensures AllFinished(run(n)) && HostMessages(run(n).air) == AllAnswers(SyncSums(p), |p.g|)
  {
    hide AspSync.Proper, Compiled, Ending, StartsAs, Maximal, Prompt, Run, AllFinished;
    SyncEnding(p);
    n := AlwaysFinishes(cfg, SyncLeft(p.sources), run);
    SyncToHost(p, cfg, Until(run, n), n);
  }

  lemma MinOutcome(p: HashMin.Setup, cfg: Config<HashMin.HashMinState, int, ()>,
                    run: States<HashMin.HashMinState, int, ()>) returns (n: nat)
    requires HashMin.Proper(p) && cfg.app == HashMin.HASHMIN && cfg.graph == p.g && cfg.memory == p.memory
    requires Complete(cfg, run)
    ensures AllFinished(run(n)) && HostMessages(run(n).air) == AllAnswers(Leasts(p), |p.g|)
  {
    hide HashMin.Proper, Compiled, Ending, StartsAs, Maximal, Prompt, Run, AllFinished;
    MinEnding(p);
    n := AlwaysFinishes(cfg, MinLeft(LeastStart(p.memory)), run);
    MinToHost(p, cfg, Until(run, n), n);
  }

  lemma PressureOutcome(p: Pressure.Setup, coin: Pressure.Coin,
                        cfg: Config<Pressure.PressureState, Pressure.PressureMessage, nat>,
                        run: States<Pressure.PressureState, Pressure.PressureMessage, nat>) returns (n: nat)
    requires Pressure.Proper(p) && p.steps % 2 == 0
    requires cfg.app == Pressure.PRESSURE(coin) && cfg.graph == p.g && cfg.memory == p.memory
    requires Complete(cfg, run)
    ensures AllFinished(run(n)) && |HostMessages(run(n).air)| == |p.g| && ItemSum(run(n).air, Beads) == Pressure.Beads(p)
  {
    hide Pressure.Proper, Compiled, Ending, StartsAs, Maximal, Prompt, Run, AllFinished, Pressure.Beads;
    PressEnding(p, coin);
    n := AlwaysFinishes(cfg, PressLeft, run);
    PressureToHost(p, coin, cfg, Until(run, n), n);
  }
}
