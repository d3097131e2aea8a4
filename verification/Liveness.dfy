// Runs of the machine come to an end.  Whatever the interleaving, if the
// application cannot run for ever, then neither can its threads, apart from
// falling asleep and waking up; and if a thread that has been woken by a message
// takes one before it goes back to sleep, then that is no exception either.
module Liveness {
  import opened Wrappers
  import opened InTables
  import opened Vertices
  import opened Endings
  import opened Softswitch
  import opened Refinement
  import opened Simulation

  // ---------------------------------------------------------------------
  // The work of the threads that the application does not see

  // Handlers still to be called in the initial loop or the loop of a time step:
  // each counts for two, as it can put a device onto the stack of senders
  function PhaseLoad<S, M, E>(th: Thread<S, M, E>): nat {
    match th.phase
    case Starting(i) => if i < |th.slots| then 2 * (|th.slots| - i) + 1 else 1
    case Leaving(_) => 2 * |th.slots| + 2
    case Stepping(i) => if i < |th.slots| then 2 * (|th.slots| - i) + 1 else 1
    case Finishing(_) => 1
    case _ => 0
  }

  function LegLoad<E>(leg: Leg<E>): nat { if leg.HostLeg? then 1 else 1 + 2 * |leg.targets| }

  function LegsLoad<E>(legs: seq<Leg<E>>): nat {
    if legs == [] then 0 else LegLoad(legs[0]) + LegsLoad(legs[1..])
  }

  function ThreadLoad<S, M, E>(th: Thread<S, M, E>): nat {
    PhaseLoad(th) + |th.senders| + LegsLoad(th.legs) + if th.inbox.Some? then 1 else 0
  }

  function AirLoad<M, E>(air: seq<Item<M, E>>): nat {
    if air == [] then 0 else AirLoad(air[..|air| - 1]) + if air[|air| - 1].Packet? then 2 else 0
  }

  ghost function ThreadsLoad<S, M, E>(ths: seq<Thread<S, M, E>>): nat {
    if ths == [] then 0 else ThreadsLoad(ths[..|ths| - 1]) + ThreadLoad(ths[|ths| - 1])
  }

  ghost function Load<S, M, E>(m: Machine<S, M, E>): nat { ThreadsLoad(m.threads) + AirLoad(m.air) }

  lemma {:induction false} AirAppend<M, E>(a: seq<Item<M, E>>, b: seq<Item<M, E>>)
    ensures AirLoad(a + b) == AirLoad(a) + AirLoad(b)
    decreases |b|
  {
    if b == [] {
      assert a + b == a;
    } else {
      var n := |b| - 1;
      assert (a + b)[..|a + b| - 1] == a + b[..n];
      AirAppend(a, b[..n]);
    }
  }

  lemma AirRemove<M, E>(air: seq<Item<M, E>>, i: nat)
    requires i < |air| && air[i].Packet?
    ensures AirLoad(air[..i] + air[i + 1..]) + 2 == AirLoad(air)
  {
    assert air == air[..i] + ([air[i]] + air[i + 1..]);
    AirAppend(air[..i], [air[i]] + air[i + 1..]);
    AirAppend([air[i]], air[i + 1..]);
    AirAppend(air[..i], air[i + 1..]);
    assert AirLoad([air[i]]) == 2;
  }

  lemma {:induction false} AirAtMost<M, E>(air: seq<Item<M, E>>)
    ensures AirLoad(air) <= 2 * |air|
    decreases |air|
  {
    if air != [] {
      AirAtMost(air[..|air| - 1]);
    }
  }

  lemma ItemsLoad<M, E>(leg: Leg<E>, payload: M, time: nat)
    ensures AirLoad(Items(leg, payload, time)) < LegLoad(leg)
  {
    AirAtMost(Items(leg, payload, time));
    if leg.HostLeg? {
      assert AirLoad(Items(leg, payload, time)[..0]) == 0;
    }
  }

  lemma {:induction false} ThreadsLoadUpdate<S, M, E>(ths: seq<Thread<S, M, E>>, t: nat, th: Thread<S, M, E>)
    requires t < |ths|
    ensures ThreadsLoad(ths[t := th]) == ThreadsLoad(ths) - ThreadLoad(ths[t]) + ThreadLoad(th)
    decreases |ths|
  {
    var n := |ths| - 1;
    if t < n {
      ThreadsLoadUpdate(ths[..n], t, th);
      assert ths[t := th][..n] == ths[..n][t := th];
    } else {
      assert ths[t := th][..n] == ths[..n];
    }
  }

  lemma HandledLoad<S, M, E>(th: Thread<S, M, E>, id: nat, dev: Dev<S>)
    requires id < |th.slots|
    ensures ThreadLoad(Handled(th, id, dev)) <= ThreadLoad(th) + 1
  {
  }

  lemma InitLess<S, M, E>(app: App<S, M, E>, th: Thread<S, M, E>)
    requires th.phase.Starting? && th.phase.next < |th.slots|
    ensures ThreadLoad(Initialised(app, th)) < ThreadLoad(th)
  {
    hide Handled;
    var i := th.phase.next;
    var at := th.(phase := Starting(i + 1), slots := th.slots[i := th.slots[i].(marked := false)]);
    HandledLoad(at, i, app.init(th.slots[i].dev));
  }

  lemma StepLess<S, M, E>(app: App<S, M, E>, th: Thread<S, M, E>)
    requires th.phase.Stepping? && th.phase.next < |th.slots|
    ensures ThreadLoad(SteppedOne(app, th)) < ThreadLoad(th)
  {
    hide Handled;
    var i := th.phase.next;
    var r := app.step(th.slots[i].dev, Clock(th.time));
    HandledLoad(th.(phase := Stepping(i + 1), active := r.1 || th.active), i, r.0);
  }

  lemma StartLess<S, M, E>(cfg: Config<S, M, E>, t: nat, th: Thread<S, M, E>)
    requires th.senders != [] && th.senders[|th.senders| - 1] < |th.slots|
    requires th.slots[th.senders[|th.senders| - 1]].dev.rts == No
    ensures ThreadLoad(Started(cfg, t, th)) < ThreadLoad(th)
  {
  }

  // What the application does not see makes the load less, if it is not a poll
  lemma ActsLess<S, M, E>(cfg: Config<S, M, E>, m: Machine<S, M, E>, t: nat, a: Action, th': Thread<S, M, E>,
                          air': seq<Item<M, E>>)
    requires t < |m.threads| && Acts(cfg, m, t, a, th', air') && a != Recv && a != Finish && a != Idle && a != Wake
    requires !(a == Start && TopReady(m, t))
    ensures ThreadLoad(th') + AirLoad(air') < ThreadLoad(m.threads[t]) + AirLoad(m.air)
  {
    hide CanSend, Initialised, SteppedOne, Started, Items;
    var th := m.threads[t];
    match a {
      case Init =>
        if th.phase.next < |th.slots| {
          InitLess(cfg.app, th);
        }
      case Send =>
        ItemsLoad(th.legs[0], th.payload.value, th.time);
        AirAppend(m.air, Items(th.legs[0], th.payload.value, th.time));
      case Start =>
        StartLess(cfg, t, th);
      case Take(i) =>
        AirRemove(m.air, i);
      case Step =>
        StepLess(cfg.app, th);
      case _ =>
    }
  }

  lemma MovesLess<S, M, E>(cfg: Config<S, M, E>, m: Machine<S, M, E>, m': Machine<S, M, E>, t: nat, a: Action)
    requires Moves(cfg, m, m', t, a) && a != Recv && a != Finish && a != Idle && a != Wake
    requires !(a == Start && TopReady(m, t))
    ensures Load(m') < Load(m)
  {
    hide Acts, ThreadLoad, TopReady;
    ActsLess(cfg, m, t, a, m'.threads[t], m'.air);
    ThreadsLoadUpdate(m.threads, t, m'.threads[t]);
  }

  // ---------------------------------------------------------------------
  // Steps of the machine

  ghost predicate Good<S(!new), M(!new), E(!new)>(cfg: Config<S, M, E>, m: Machine<S, M, E>) {
    Inv(cfg, m) && Reachable(cfg.app, cfg.graph, cfg.memory, Abs(cfg, m))
  }

  // Falling asleep and waking up
  ghost predicate Polls<S, M, E>(cfg: Config<S, M, E>, m: Machine<S, M, E>, m': Machine<S, M, E>) {
    exists t :: Moves(cfg, m, m', t, Idle) || Moves(cfg, m, m', t, Wake)
  }

  ghost predicate Falls<S, M, E>(cfg: Config<S, M, E>, f: Dev<S> -> nat, m: Machine<S, M, E>, m': Machine<S, M, E>)
    requires Shape(cfg, m.threads) && Shape(cfg, m'.threads)
  {
    || Lower(RankOf(Abs(cfg, m'), f), RankOf(Abs(cfg, m), f))
    || (Abs(cfg, m') == Abs(cfg, m) && Load(m') < Load(m))
  }

  lemma PollsKeep<S(!new), M(!new), E(!new)>(cfg: Config<S, M, E>, m: Machine<S, M, E>, m': Machine<S, M, E>)
    requires Compiled(cfg) && Good(cfg, m) && Polls(cfg, m, m')
    ensures Good(cfg, m') && Abs(cfg, m') == Abs(cfg, m) && Load(m') == Load(m)
  {
    hide Compiled, Inv, Reachable, Abs, Acts, TopReady;
    var t :| Moves(cfg, m, m', t, Idle) || Moves(cfg, m, m', t, Wake);
    var a := if Moves(cfg, m, m', t, Idle) then Idle else Wake;
    MoveSimulated(cfg, m, m', t, a);
    MoveUnseen(cfg, m, m', t, a);
    Stutter(cfg, m, m', t);
    PollLoad(cfg, m, m', t, a);
  }

  lemma PollLoad<S, M, E>(cfg: Config<S, M, E>, m: Machine<S, M, E>, m': Machine<S, M, E>, t: nat, a: Action)
    requires Moves(cfg, m, m', t, a) && (a == Idle || a == Wake)
    ensures Load(m') == Load(m)
  {
    ThreadsLoadUpdate(m.threads, t, m'.threads[t]);
  }

  lemma MoveFalls<S(!new), M(!new), E(!new)>(cfg: Config<S, M, E>, f: Dev<S> -> nat, m: Machine<S, M, E>,
                                             m': Machine<S, M, E>, t: nat, a: Action)
    requires Compiled(cfg) && Ending(cfg.app, cfg.graph, cfg.memory, f) && Good(cfg, m) && Moves(cfg, m, m', t, a) && a != Idle && a != Wake
    ensures Good(cfg, m') && Falls(cfg, f, m, m')
  {
    hide Compiled, Inv, Reachable, Abs, Moves, RankOf, Lower, TopReady, Sends, Receives, Replies, Load;
    MoveSimulated(cfg, m, m', t, a);
    InvShape(cfg, m);
    InvShape(cfg, m');
    if Abs(cfg, m') != Abs(cfg, m) {
      ReachNext(cfg.app, cfg.graph, cfg.memory, Abs(cfg, m), Abs(cfg, m'));
    } else if (a == Start && TopReady(m, t)) || a == Recv || a == Finish {
      MoveSeen(cfg, m, m', t, a);
    } else {
      MovesLess(cfg, m, m', t, a);
    }
  }

  lemma MoveSeen<S(!new), M(!new), E(!new)>(cfg: Config<S, M, E>, m: Machine<S, M, E>, m': Machine<S, M, E>, t: nat,
                                            a: Action)
    requires Compiled(cfg) && Inv(cfg, m) && Moves(cfg, m, m', t, a)
    requires (a == Start && TopReady(m, t)) || a == Recv || a == Finish
    ensures Shape(cfg, m'.threads) && Next(cfg.app, cfg.graph, Abs(cfg, m), Abs(cfg, m'))
  {
    hide Acts, ThreadOk, AirOk, PlaceOk, Over, AbsTime, Abs, RoutesOk, Sends, Receives, Replies, Steps, Ends, ItemsOut,
         ThreadOut, Asked;
    if a == Start {
      StartIs(cfg, m, m', t);
      StartSends(cfg, m, m', t);
    } else if a == Recv {
      RecvIs(cfg, m, m', t);
      RecvReceives(cfg, m, m', t);
      var p := m.threads[t].inbox.value;
      NextByReceive(cfg.app, cfg.graph, Abs(cfg, m), Abs(cfg, m'),
                    Deliver(cfg.from[t][p.edges[0].devId], p.edges[0].edge, p.payload));
    } else {
      FinishReplies(cfg, m, m', t);
      FinishIs(cfg, m, m', t);
      NextByReply(cfg.app, cfg.graph, Abs(cfg, m), Abs(cfg, m'), cfg.from[t][m.threads[t].phase.next]);
    }
  }

  lemma InvShape<S, M, E>(cfg: Config<S, M, E>, m: Machine<S, M, E>)
    requires Inv(cfg, m)
    ensures Shape(cfg, m.threads)
  {
  }

  // Every step of the machine is a poll, or lowers the rank of the application's
  // world or, where that stays the same, the load of the threads
  lemma StepFalls<S(!new), M(!new), E(!new)>(cfg: Config<S, M, E>, f: Dev<S> -> nat, m: Machine<S, M, E>,
                                             m': Machine<S, M, E>)
    requires Compiled(cfg) && Ending(cfg.app, cfg.graph, cfg.memory, f) && Good(cfg, m) && NextMachine(cfg, m, m') && !Polls(cfg, m, m')
    ensures Good(cfg, m') && Falls(cfg, f, m, m')
  {
    hide Compiled, Inv, Reachable, Abs, Moves, Detects, Steps, Ends, RankOf, Lower;
    if last :| Detects(m, m', last) {
      DetectSteps(cfg, m, m', last);
      InvShape(cfg, m);
      InvShape(cfg, m');
      assert Next(cfg.app, cfg.graph, Abs(cfg, m), Abs(cfg, m'));
      ReachNext(cfg.app, cfg.graph, cfg.memory, Abs(cfg, m), Abs(cfg, m'));
    } else {
      var t, a :| Moves(cfg, m, m', t, a);
      MoveFalls(cfg, f, m, m', t, a);
    }
  }

  // ---------------------------------------------------------------------
  // Runs without end

  type States<!S, !M, !E> = nat -> Machine<S, M, E>

  ghost predicate GoesOn<S(!new), M(!new), E(!new)>(cfg: Config<S, M, E>, run: States<S, M, E>, i: nat) {
    NextMachine(cfg, run(i), run(i + 1))
  }

  ghost predicate PollsAt<S, M, E>(cfg: Config<S, M, E>, run: States<S, M, E>, i: nat) {
    Polls(cfg, run(i), run(i + 1))
  }

  ghost predicate Endless<S(!new), M(!new), E(!new)>(cfg: Config<S, M, E>, run: States<S, M, E>) {
    StartsAs(cfg, run(0)) && forall i: nat :: GoesOn(cfg, run, i)
  }

  lemma {:induction false} AllGood<S(!new), M(!new), E(!new)>(cfg: Config<S, M, E>, f: Dev<S> -> nat,
                                                              run: States<S, M, E>, i: nat)
    requires Compiled(cfg) && Ending(cfg.app, cfg.graph, cfg.memory, f) && Endless(cfg, run)
    ensures Good(cfg, run(i))
    decreases i
  {
    hide Compiled, Ending, Inv, Reachable, Abs, StartsAs, Polls, NextMachine;
    if i == 0 {
      StartsBegin(cfg, run(0));
      ReachBegin(cfg.app, cfg.graph, cfg.memory);
    } else {
      AllGood(cfg, f, run, i - 1);
      assert GoesOn(cfg, run, i - 1);
      if Polls(cfg, run(i - 1), run(i)) {
        PollsKeep(cfg, run(i - 1), run(i));
      } else {
        StepFalls(cfg, f, run(i - 1), run(i));
      }
    }
  }

  // From i to j, there are only polls
  lemma {:induction false} PollsOnly<S(!new), M(!new), E(!new)>(cfg: Config<S, M, E>, run: States<S, M, E>, i: nat, j: nat)
    requires Compiled(cfg) && Good(cfg, run(i)) && i <= j && forall k | i <= k < j :: PollsAt(cfg, run, k)
    ensures Good(cfg, run(j)) && Abs(cfg, run(j)) == Abs(cfg, run(i)) && Load(run(j)) == Load(run(i))
    decreases j
  {
    hide Compiled, Inv, Reachable, Abs, Polls, Load;
    if j > i {
      PollsOnly(cfg, run, i, j - 1);
      assert PollsAt(cfg, run, j - 1);
      PollsKeep(cfg, run(j - 1), run(j));
    }
  }

  lemma NextNotPoll<S, M, E>(cfg: Config<S, M, E>, run: States<S, M, E>, i: nat, n: nat) returns (j: nat)
    requires i <= n && !PollsAt(cfg, run, n)
    ensures i <= j && !PollsAt(cfg, run, j) && forall k | i <= k < j :: PollsAt(cfg, run, k)
    decreases n - i
  {
    hide PollsAt;
    if PollsAt(cfg, run, i) {
      j := NextNotPoll(cfg, run, i + 1, n);
    } else {
      j := i;
    }
  }

  // In a run that goes on for ever, the time comes when threads do nothing but poll
  lemma {:induction false} ComesToRest<S(!new), M(!new), E(!new)>(cfg: Config<S, M, E>, f: Dev<S> -> nat,
                                                                  run: States<S, M, E>, i: nat) returns (k: nat)
    requires Compiled(cfg) && Ending(cfg.app, cfg.graph, cfg.memory, f) && Endless(cfg, run) && Good(cfg, run(i))
    ensures forall j | j >= k :: PollsAt(cfg, run, j)
    decreases var r := RankOf(Abs(cfg, run(i)), f); r.work, RankOf(Abs(cfg, run(i)), f).stage,
      RankOf(Abs(cfg, run(i)), f).wants, RankOf(Abs(cfg, run(i)), f).air, Load(run(i))
  {
    hide Compiled, Ending, Inv, Reachable, Abs, StartsAs, Polls, NextMachine, Load, RankOf;
    if n :| n >= i && !PollsAt(cfg, run, n) {
      var j := NextNotPoll(cfg, run, i, n);
      PollsOnly(cfg, run, i, j);
      assert GoesOn(cfg, run, j);
      StepFalls(cfg, f, run(j), run(j + 1));
      k := ComesToRest(cfg, f, run, j + 1);
    } else {
      k := i;
    }
  }

  // ---------------------------------------------------------------------
  // Nobody polls for ever

  ghost predicate SleepsAt<S, M, E>(cfg: Config<S, M, E>, run: States<S, M, E>, i: nat, t: nat) {
    Moves(cfg, run(i), run(i + 1), t, Idle)
  }

  ghost predicate WakesAt<S, M, E>(cfg: Config<S, M, E>, run: States<S, M, E>, i: nat, t: nat) {
    Moves(cfg, run(i), run(i + 1), t, Wake)
  }

  ghost predicate TakesAt<S, M, E>(cfg: Config<S, M, E>, run: States<S, M, E>, i: nat, t: nat) {
    exists item :: Moves(cfg, run(i), run(i + 1), t, Take(item))
  }

  // A thread that a message has woken takes one before it sleeps again, since the
  // event loop looks for messages after each call to tinselIdle
  ghost predicate Prompt<S, M, E>(cfg: Config<S, M, E>, run: States<S, M, E>) {
    forall i: nat, j: nat, t: nat | i < j && WakesAt(cfg, run, i, t) && SleepsAt(cfg, run, j, t) ::
      exists k: nat :: i < k < j && TakesAt(cfg, run, k, t)
  }

  // Thread t has been woken between k and j
  ghost predicate Woken<S, M, E>(cfg: Config<S, M, E>, run: States<S, M, E>, k: nat, j: nat, t: nat) {
    exists i: nat :: k <= i < j && WakesAt(cfg, run, i, t)
  }

  ghost predicate Awake<S, M, E>(cfg: Config<S, M, E>, run: States<S, M, E>, k: nat, j: nat) {
    forall t | 0 <= t < |run(j).threads| && Woken(cfg, run, k, j, t) :: run(j).threads[t].phase == Running
  }

  // Polls that the thread can still make if it never takes a message
  ghost function PollsOf<S, M, E>(cfg: Config<S, M, E>, run: States<S, M, E>, k: nat, j: nat, t: nat): nat
    requires t < |run(j).threads|
  {
    if Woken(cfg, run, k, j, t) then 0 else if run(j).threads[t].phase == Waiting then 1 else 2
  }

  ghost function PollsLeft<S, M, E>(cfg: Config<S, M, E>, run: States<S, M, E>, k: nat, j: nat, n: nat): nat
    requires n <= |run(j).threads|
  {
    if n == 0 then 0 else PollsLeft(cfg, run, k, j, n - 1) + PollsOf(cfg, run, k, j, n - 1)
  }

  lemma {:induction false} FewerPolls<S, M, E>(cfg: Config<S, M, E>, run: States<S, M, E>, k: nat, j: nat, t: nat, n: nat)
    requires n <= |run(j).threads| == |run(j + 1).threads|
    requires forall u | 0 <= u < n :: PollsOf(cfg, run, k, j + 1, u) <= PollsOf(cfg, run, k, j, u)
    requires t < n ==> PollsOf(cfg, run, k, j + 1, t) < PollsOf(cfg, run, k, j, t)
    ensures PollsLeft(cfg, run, k, j + 1, n) <= PollsLeft(cfg, run, k, j, n)
    ensures t < n ==> PollsLeft(cfg, run, k, j + 1, n) < PollsLeft(cfg, run, k, j, n)
    decreases n
  {
    hide PollsOf;
    if n > 0 {
      FewerPolls(cfg, run, k, j, t, n - 1);
    }
  }

  // While there are only polls, a thread that has been woken stays awake
  lemma PollsOnce<S, M, E>(cfg: Config<S, M, E>, run: States<S, M, E>, k: nat, j: nat, t: nat)
    requires Prompt(cfg, run) && k <= j && forall i | i >= k :: PollsAt(cfg, run, i)
    requires SleepsAt(cfg, run, j, t)
    ensures !Woken(cfg, run, k, j, t)
  {
    hide Moves;
    if Woken(cfg, run, k, j, t) {
      var i: nat :| k <= i < j && WakesAt(cfg, run, i, t);
      var l: nat :| i < l < j && TakesAt(cfg, run, l, t);
      assert PollsAt(cfg, run, l);
      TakeNoPoll(cfg, run, l, t);
    }
  }

  lemma TakeNoPoll<S, M, E>(cfg: Config<S, M, E>, run: States<S, M, E>, i: nat, t: nat)
    requires TakesAt(cfg, run, i, t)
    ensures !PollsAt(cfg, run, i)
  {
    var item :| Moves(cfg, run(i), run(i + 1), t, Take(item));
    assert |run(i + 1).air| < |run(i).air|;
  }

  lemma OnePoll<S, M, E>(cfg: Config<S, M, E>, run: States<S, M, E>, k: nat, j: nat)
    requires Prompt(cfg, run) && k <= j && (forall i | i >= k :: PollsAt(cfg, run, i)) && Awake(cfg, run, k, j)
    ensures |run(j + 1).threads| == |run(j).threads| && Awake(cfg, run, k, j + 1)
    ensures PollsLeft(cfg, run, k, j + 1, |run(j).threads|) < PollsLeft(cfg, run, k, j, |run(j).threads|)
  {
    hide Prompt, PollsLeft, Woken, SleepsAt, WakesAt, Polls;
    var t := Poller(cfg, run, j);
    if SleepsAt(cfg, run, j, t) {
      PollsOnce(cfg, run, k, j, t);
    }
    forall u | 0 <= u < |run(j).threads|
      ensures Woken(cfg, run, k, j + 1, u) <==> Woken(cfg, run, k, j, u) || WakesAt(cfg, run, j, u)
    {
      WokenNext(cfg, run, k, j, u);
    }
    assert Awake(cfg, run, k, j + 1) by {
      var next := j + 1;
      forall u: nat | u < |run(next).threads| && Woken(cfg, run, k, next, u)
        ensures run(next).threads[u].phase == Running
      {
        assert u != t ==> Woken(cfg, run, k, j, u);
      }
    }
    FewerPolls(cfg, run, k, j, t, |run(j).threads|);
  }

  lemma Poller<S, M, E>(cfg: Config<S, M, E>, run: States<S, M, E>, j: nat) returns (t: nat)
    requires PollsAt(cfg, run, j)
    ensures t < |run(j).threads| == |run(j + 1).threads|
    ensures forall u | 0 <= u < |run(j).threads| && u != t ::
      run(j + 1).threads[u] == run(j).threads[u] && !WakesAt(cfg, run, j, u)
    ensures var before, after := run(j).threads[t].phase, run(j + 1).threads[t].phase;
      || (SleepsAt(cfg, run, j, t) && before == Running && after == Waiting && !WakesAt(cfg, run, j, t))
      || (WakesAt(cfg, run, j, t) && before == Waiting && after == Running)
  {
    t :| Moves(cfg, run(j), run(j + 1), t, Idle) || Moves(cfg, run(j), run(j + 1), t, Wake);
  }

  lemma WokenNext<S, M, E>(cfg: Config<S, M, E>, run: States<S, M, E>, k: nat, j: nat, t: nat)
    requires k <= j
    ensures Woken(cfg, run, k, j + 1, t) <==> Woken(cfg, run, k, j, t) || WakesAt(cfg, run, j, t)
  {
  }

  lemma {:induction false} NoPollsForever<S, M, E>(cfg: Config<S, M, E>, run: States<S, M, E>, k: nat, j: nat)
    requires Prompt(cfg, run) && k <= j && (forall i | i >= k :: PollsAt(cfg, run, i)) && Awake(cfg, run, k, j)
    ensures false
    decreases PollsLeft(cfg, run, k, j, |run(j).threads|)
  {
    hide Prompt, PollsAt, Awake, PollsLeft;
    OnePoll(cfg, run, k, j);
    NoPollsForever(cfg, run, k, j + 1);
  }

  // Hence no run goes on for ever
  lemma NoEndlessRun<S(!new), M(!new), E(!new)>(cfg: Config<S, M, E>, f: Dev<S> -> nat, run: States<S, M, E>)
    requires Compiled(cfg) && Ending(cfg.app, cfg.graph, cfg.memory, f) && StartsAs(cfg, run(0)) && Prompt(cfg, run)
    ensures exists i: nat :: !GoesOn(cfg, run, i)
  {
    hide Compiled, Ending, Prompt, StartsAs, GoesOn, PollsAt;
    if forall i: nat :: GoesOn(cfg, run, i) {
      AllGood(cfg, f, run, 0);
      var k := ComesToRest(cfg, f, run, 0);
      NoPollsForever(cfg, run, k, k);
    }
  }

  // ---------------------------------------------------------------------
  // Every run finishes

  // The run goes on as long as it can
  ghost predicate Maximal<S(!new), M(!new), E(!new)>(cfg: Config<S, M, E>, run: States<S, M, E>) {
    forall i: nat, m | NextMachine(cfg, run(i), m) :: GoesOn(cfg, run, i)
  }

  ghost function Until<S, M, E>(run: States<S, M, E>, i: nat): seq<Machine<S, M, E>> {
    seq(i + 1, j requires 0 <= j < i + 1 => run(j))
  }

  lemma FirstStop<S(!new), M(!new), E(!new)>(cfg: Config<S, M, E>, run: States<S, M, E>, n: nat, i: nat) returns (k: nat)
    requires i <= n && !GoesOn(cfg, run, n) && forall j | 0 <= j < i :: GoesOn(cfg, run, j)
    ensures !GoesOn(cfg, run, k) && forall j | 0 <= j < k :: GoesOn(cfg, run, j)
    decreases n - i
  {
    hide GoesOn;
    if GoesOn(cfg, run, i) {
      k := FirstStop(cfg, run, n, i + 1);
    } else {
      k := i;
    }
  }

  // Whatever the interleaving: a run that goes on as long as it can comes to a state
  // where every thread has finished
  lemma AlwaysFinishes<S(!new), M(!new), E(!new)>(cfg: Config<S, M, E>, f: Dev<S> -> nat, run: States<S, M, E>)
    returns (n: nat)
    requires Compiled(cfg) && Ending(cfg.app, cfg.graph, cfg.memory, f)
    requires StartsAs(cfg, run(0)) && Maximal(cfg, run) && Prompt(cfg, run)
    ensures Run(cfg, Until(run, n)) && AllFinished(run(n))
  {
    hide Compiled, Ending, Prompt, StartsAs, NextMachine, Inv, Abs, Reachable;
    NoEndlessRun(cfg, f, run);
    var i: nat :| !GoesOn(cfg, run, i);
    n := FirstStop(cfg, run, i, 0);
    assert Run(cfg, Until(run, n)) by {
      forall j | 0 <= j < n ensures NextMachine(cfg, Until(run, n)[j], Until(run, n)[j + 1]) {
        assert GoesOn(cfg, run, j);
      }
    }
    RunsRefine(cfg, Until(run, n), n);
    if !AllFinished(run(n)) {
      var m := NeverStuck(cfg, run(n));
    }
  }
}
