// A run of the machine from the start to the end: minimum propagation on two
// devices of one thread, which tell each other the number that both have.
module PairRun {
  import opened Wrappers
  import opened InTables
  import opened Vertices
  import opened Softswitch
  import opened Refinement
  import opened Simulation
  import opened HashMin
  import Deployments
  import Instances
  import Mesh

  type MinConfig = Config<HashMinState, int, ()>
  type MinMachine = Machine<HashMinState, int, ()>

  const SAME: HashMinState := HashMinState(false, 0)

  // A device that has to send is marked
  function SlotOf(ready: bool): Slot<HashMinState> { Slot(Dev(if ready then Out(0) else No, SAME), ready) }

  function NoteTo(d: nat): Item<int, ()> { Packet(0, [InEdge(d, ())], 0, 0) }

  type MinThread = Thread<HashMinState, int, ()>

  // The only thread, with its two devices
  function Both(zero: bool, one: bool): seq<Slot<HashMinState>> { [SlotOf(zero), SlotOf(one)] }

  // The thread in its event loop, in the first time step
  function Loop(zero: bool, one: bool, senders: seq<nat>, legs: seq<Leg<()>>, payload: Option<int>,
                inbox: Option<Item<int, ()>>): MinThread
  {
    Thread(Both(zero, one), senders, legs, payload, inbox, true, 0, Running)
  }

  // The thread with nothing left to do
  function Rest(active: bool, time: nat, phase: Phase): MinThread {
    Thread(Both(false, false), [], [], Some(0), None, active, time, phase)
  }

  // One more step of the thread
  lemma Go(cfg: MinConfig, run: seq<MinMachine>, a: Action, th: MinThread, air: seq<Item<int, ()>>)
    returns (run': seq<MinMachine>)
    requires Run(cfg, run) && |run[|run| - 1].threads| == 1 && Acts(cfg, run[|run| - 1], 0, a, th, air)
    ensures run' == run + [Machine([th], air)] && Run(cfg, run')
  {
    hide Acts, StartsAs;
    var m, m' := run[|run| - 1], Machine([th], air);
    run' := run + [m'];
    assert Moves(cfg, m, m', 0, a);
    forall i | 0 <= i < |run'| - 1 ensures NextMachine(cfg, run'[i], run'[i + 1]) {
    }
  }

  ghost predicate IsPair(cfg: MinConfig) {
    && cfg.app == HASHMIN && cfg.from == [[0, 1]] && cfg.memory == [Dev(No, SAME), Dev(No, SAME)]
    && cfg.routes(0, 0) == Instances.PairRoute(0) && cfg.routes(1, 0) == Instances.PairRoute(1)
  }

  // The last state of the run has this thread, and this in the network
  ghost predicate At(cfg: MinConfig, run: seq<MinMachine>, th: MinThread, air: seq<Item<int, ()>>) {
    Run(cfg, run) && run[|run| - 1] == Machine([th], air)
  }

  lemma Begins(cfg: MinConfig) returns (run: seq<MinMachine>)
    requires IsPair(cfg)
    ensures At(cfg, run, Loop(true, true, [0, 1], [], None, None), [])
  {
    run := [Machine([Thread(Both(false, false), [], [], None, None, true, 0, Starting(0))], [])];
    run := Go(cfg, run, Init, Thread(Both(true, false), [0], [], None, None, true, 0, Starting(1)), []);
    run := Go(cfg, run, Init, Thread(Both(true, true), [0, 1], [], None, None, true, 0, Starting(2)), []);
    run := Go(cfg, run, Init, Loop(true, true, [0, 1], [], None, None), []);
  }

  lemma SendBoth(cfg: MinConfig, before: seq<MinMachine>) returns (run: seq<MinMachine>)
    requires IsPair(cfg) && At(cfg, before, Loop(true, true, [0, 1], [], None, None), [])
    ensures At(cfg, run, Loop(false, false, [], [], Some(0), None), [NoteTo(0), NoteTo(1)])
  {
    run := Go(cfg, before, Start, Loop(true, false, [0], Instances.PairRoute(1), Some(0), None), []);
    run := Go(cfg, run, Send, Loop(true, false, [0], [], Some(0), None), [NoteTo(0)]);
    run := Go(cfg, run, Start, Loop(false, false, [], Instances.PairRoute(0), Some(0), None), [NoteTo(0)]);
    run := Go(cfg, run, Send, Loop(false, false, [], [], Some(0), None), [NoteTo(0), NoteTo(1)]);
  }

  lemma TakeOne(cfg: MinConfig, before: seq<MinMachine>, d: nat, more: seq<Item<int, ()>>) returns (run: seq<MinMachine>)
    requires IsPair(cfg) && d < 2 && At(cfg, before, Loop(false, false, [], [], Some(0), None), [NoteTo(d)] + more)
    ensures At(cfg, run, Loop(false, false, [], [], Some(0), None), more)
  {
    var air := [NoteTo(d)] + more;
    assert air[..0] + air[1..] == more;
    run := Go(cfg, before, Take(0), Loop(false, false, [], [], Some(0), Some(NoteTo(d))), more);
    assert NoteTo(d).edges[1..] == [] && Both(false, false)[d := SlotOf(false)] == Both(false, false);
    run := Go(cfg, run, Recv, Loop(false, false, [], [], Some(0), Some(NoteTo(d).(edges := []))), more);
    run := Go(cfg, run, Done, Loop(false, false, [], [], Some(0), None), more);
  }

  // Nothing is left to do, and idleness is detected
  lemma Detected(cfg: MinConfig, before: seq<MinMachine>, active: bool, time: nat) returns (run: seq<MinMachine>)
    requires At(cfg, before, Rest(active, time, Running), [])
    ensures At(cfg, run, Rest(active, time, Leaving(!active)), [])
  {
    var waiting := Go(cfg, before, Idle, Rest(active, time, Waiting), []);
    var m, m' := waiting[|waiting| - 1], Machine([Rest(active, time, Leaving(!active))], []);
    assert m.threads == [Rest(active, time, Waiting)] && m.threads[0].active == active && m.air == [];
    assert m'.threads == seq(|m.threads|, t requires 0 <= t < |m.threads| => m.threads[t].(phase := Leaving(!active)));
    assert Detects(m, m', !active);
    run := waiting + [m'];
    hide StartsAs, Detects;
    forall i | 0 <= i < |run| - 1 ensures NextMachine(cfg, run[i], run[i + 1]) {
    }
  }

  lemma StepBoth(cfg: MinConfig, before: seq<MinMachine>) returns (run: seq<MinMachine>)
    requires IsPair(cfg) && At(cfg, before, Rest(true, 0, Leaving(false)), [])
    ensures At(cfg, run, Rest(false, 1, Running), [])
  {
    run := Go(cfg, before, Leave, Rest(false, 0, Stepping(0)), []);
    run := Go(cfg, run, Step, Rest(false, 0, Stepping(1)), []);
    run := Go(cfg, run, Step, Rest(false, 0, Stepping(2)), []);
    run := Go(cfg, run, Resume, Rest(false, 1, Running), []);
  }

  // A compiled machine, and a run of it that is over
  lemma PairEnds(net: Mesh.Reader) returns (p: Setup, cfg: MinConfig, run: seq<MinMachine>)
    ensures Proper(p) && Compiled(cfg) && cfg.app == HASHMIN && cfg.graph == p.g == Instances.PAIR
    ensures cfg.memory == p.memory
    ensures run != [] && Deployments.IsOver(cfg, run, |run| - 1, 0)
  {
    hide Compiled, Run, Instances.PairRoute, Proper;
    p := Instances.MinPair(0, 0);
    cfg := Instances.PairRuns(HASHMIN, p.memory, net);
    run := Begins(cfg);
    run := SendBoth(cfg, run);
    run := TakeOne(cfg, run, 0, [NoteTo(1)]) by { assert [NoteTo(0), NoteTo(1)] == [NoteTo(0)] + [NoteTo(1)]; }
    run := TakeOne(cfg, run, 1, []) by { assert [NoteTo(1)] == [NoteTo(1)] + []; }
    run := Detected(cfg, run, true, 0);
    run := StepBoth(cfg, run);
    run := Detected(cfg, run, false, 1);
    NotEmpty(cfg, run);
  }

  lemma NotEmpty(cfg: MinConfig, run: seq<MinMachine>)
    requires Run(cfg, run)
    ensures run != []
  {
  }
}
