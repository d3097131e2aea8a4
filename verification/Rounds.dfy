// How a run of the machine ends: before the last detection of idleness there has
// been a whole round in which every step handler was called and returned false.
module Rounds {
  import opened Wrappers
  import opened InTables
  import opened Vertices
  import opened Softswitch
  import opened Refinement

  type States<!S, !M, !E> = seq<Machine<S, M, E>>

  // A sequence of steps of the machine
  ghost predicate Steady<S(!new), M(!new), E(!new)>(cfg: Config<S, M, E>, run: States<S, M, E>) {
    forall i | 0 <= i < |run| - 1 :: NextMachine(cfg, run[i], run[i + 1])
  }

  lemma SameThreads<S, M, E>(cfg: Config<S, M, E>, m: Machine<S, M, E>, m': Machine<S, M, E>, t: nat, a: Action, u: nat)
    requires Moves(cfg, m, m', t, a) && u < |m.threads|
    ensures |m'.threads| == |m.threads| && |m'.threads[u].slots| == |m.threads[u].slots|
    ensures u != t ==> m'.threads[u] == m.threads[u]
  {
  }

  lemma SameDetected<S, M, E>(m: Machine<S, M, E>, m': Machine<S, M, E>, last: bool, u: nat)
    requires Detects(m, m', last) && u < |m.threads|
    ensures |m'.threads| == |m.threads| && m'.threads[u] == m.threads[u].(phase := Leaving(last))
  {
  }

  lemma {:induction false} SameSize<S(!new), M(!new), E(!new)>(cfg: Config<S, M, E>, run: States<S, M, E>, i: nat, j: nat)
    requires Steady(cfg, run) && i <= j < |run|
    ensures |run[j].threads| == |run[i].threads|
    ensures forall u | 0 <= u < |run[i].threads| :: |run[j].threads[u].slots| == |run[i].threads[u].slots|
    decreases j
  {
    hide Acts, Detects;
    if i < j {
      SameSize(cfg, run, i, j - 1);
      var m, m' := run[j - 1], run[j];
      assert NextMachine(cfg, m, m');
      if last :| Detects(m, m', last) {
        forall u | 0 <= u < |m.threads| ensures |m'.threads| == |m.threads| && |m'.threads[u].slots| == |m.threads[u].slots| {
          SameDetected(m, m', last, u);
        }
        SizeDetected(m, m', last);
      } else {
        var t, a :| Moves(cfg, m, m', t, a);
        forall u | 0 <= u < |m.threads| ensures |m'.threads[u].slots| == |m.threads[u].slots| {
          SameThreads(cfg, m, m', t, a, u);
        }
      }
    }
  }

  lemma SizeDetected<S, M, E>(m: Machine<S, M, E>, m': Machine<S, M, E>, last: bool)
    requires Detects(m, m', last)
    ensures |m'.threads| == |m.threads|
  {
  }

  // ---------------------------------------------------------------------
  // One round of step handlers

  ghost predicate Moved<S(!new), M(!new), E(!new)>(cfg: Config<S, M, E>, m: Machine<S, M, E>, m': Machine<S, M, E>) {
    exists t, a :: Moves(cfg, m, m', t, a)
  }

  ghost predicate Detected<S(!new), M(!new), E(!new)>(m: Machine<S, M, E>, m': Machine<S, M, E>) {
    exists last :: Detects(m, m', last)
  }

  ghost predicate MovedAt<S(!new), M(!new), E(!new)>(cfg: Config<S, M, E>, run: States<S, M, E>, s: nat) {
    s + 1 < |run| && Moved(cfg, run[s], run[s + 1])
  }

  // From state i on to state j no idleness is detected
  ghost predicate Moving<S(!new), M(!new), E(!new)>(cfg: Config<S, M, E>, run: States<S, M, E>, i: nat, j: nat) {
    j < |run| && forall s: nat | i <= s < j :: MovedAt(cfg, run, s)
  }

  // Step s calls the step handler of a device
  ghost predicate Calls<S(!new), M(!new), E(!new)>(cfg: Config<S, M, E>, run: States<S, M, E>, s: nat, u: nat, id: nat) {
    && s + 1 < |run| && Moves(cfg, run[s], run[s + 1], u, Step)
    && run[s].threads[u].phase == Stepping(id) && id < |run[s].threads[u].slots|
  }

  // Between states k and i it has been called, in the state and at the time that
  // the device had at k
  ghost predicate Called<S(!new), M(!new), E(!new)>(cfg: Config<S, M, E>, run: States<S, M, E>, k: nat, i: nat, u: nat,
                                                    id: nat)
    requires k < |run| && u < |run[k].threads| && id < |run[k].threads[u].slots|
  {
    exists s: nat :: k < s < i && Calls(cfg, run, s, u, id)
      && run[s].threads[u].slots[id].dev == run[k].threads[u].slots[id].dev
      && run[s].threads[u].time == run[k].threads[u].time
  }

  // What the step handler of a device answers in state k
  ghost predicate Asks<S, M, E>(cfg: Config<S, M, E>, m: Machine<S, M, E>, u: nat, id: nat)
    requires u < |m.threads| && id < |m.threads[u].slots|
  {
    cfg.app.step(m.threads[u].slots[id].dev, Clock(m.threads[u].time)).1
  }

  // Devices of a thread whose step handlers have been called
  function Reached<S, M, E>(th: Thread<S, M, E>): nat {
    if th.phase.Leaving? then 0 else if th.phase.Stepping? then th.phase.next else |th.slots|
  }

  // A thread in the round that was started in state k
  ghost predicate InRound<S(!new), M(!new), E(!new)>(cfg: Config<S, M, E>, run: States<S, M, E>, k: nat, i: nat, u: nat)
    requires k < |run| && i < |run| && u < |run[k].threads|
  {
    && u < |run[i].threads|
    && var th, th0 := run[i].threads[u], run[k].threads[u];
       && |th.slots| == |th0.slots| && Reached(th) <= |th.slots|
       && (th.phase == Leaving(false) || th.phase.Stepping? || th.phase.Running? || th.phase.Waiting?)
       && th.time == th0.time + (if th.phase.Running? || th.phase.Waiting? then 1 else 0)
       && (th.phase.Leaving? || th.phase.Stepping? ==>
             forall id | Reached(th) <= id < |th.slots| :: th.slots[id].dev == th0.slots[id].dev)
       && (forall id | 0 <= id < Reached(th) :: Called(cfg, run, k, i, u, id))
       && (!th.phase.Leaving? && !th.active ==> forall id | 0 <= id < Reached(th) :: !Asks(cfg, run[k], u, id))
  }

  lemma CalledStays<S(!new), M(!new), E(!new)>(cfg: Config<S, M, E>, run: States<S, M, E>, k: nat, i: nat, u: nat, id: nat)
    requires k < |run| && u < |run[k].threads| && id < |run[k].threads[u].slots| && Called(cfg, run, k, i, u, id)
    ensures Called(cfg, run, k, i + 1, u, id)
  {
    hide Calls;
  }

  // In its event loop a thread keeps its time and its vote
  lemma LoopActs<S, M, E>(cfg: Config<S, M, E>, m: Machine<S, M, E>, m': Machine<S, M, E>, t: nat, a: Action)
    requires Moves(cfg, m, m', t, a) && (m.threads[t].phase.Running? || m.threads[t].phase.Waiting?)
    ensures var th, th' := m.threads[t], m'.threads[t];
      && |th'.slots| == |th.slots| && (th'.phase.Running? || th'.phase.Waiting?)
      && th'.time == th.time && th'.active == th.active
  {
  }

  lemma LoopRound<S(!new), M(!new), E(!new)>(cfg: Config<S, M, E>, run: States<S, M, E>, k: nat, i: nat, u: nat, a: Action)
    requires k < i < |run| - 1 && u < |run[k].threads| && InRound(cfg, run, k, i, u)
    requires Moves(cfg, run[i], run[i + 1], u, a) && (run[i].threads[u].phase.Running? || run[i].threads[u].phase.Waiting?)
    ensures InRound(cfg, run, k, i + 1, u)
  {
    hide Moves, Called, Asks;
    LoopActs(cfg, run[i], run[i + 1], u, a);
    SameThreads(cfg, run[i], run[i + 1], u, a, u);
    var next := i + 1;
    forall id | 0 <= id < |run[i].threads[u].slots| ensures Called(cfg, run, k, next, u, id) {
      CalledStays(cfg, run, k, i, u, id);
    }
  }

  lemma LeaveRound<S(!new), M(!new), E(!new)>(cfg: Config<S, M, E>, run: States<S, M, E>, k: nat, i: nat, u: nat, a: Action)
    requires k < i < |run| - 1 && u < |run[k].threads| && InRound(cfg, run, k, i, u)
    requires Moves(cfg, run[i], run[i + 1], u, a) && run[i].threads[u].phase.Leaving?
    ensures InRound(cfg, run, k, i + 1, u)
  {
    hide Called, Asks;
  }

  lemma StepIs<S, M, E>(cfg: Config<S, M, E>, m: Machine<S, M, E>, m': Machine<S, M, E>, t: nat, a: Action)
    requires Moves(cfg, m, m', t, a) && m.threads[t].phase.Stepping? && m.threads[t].phase.next < |m.threads[t].slots|
    ensures a == Step
    ensures var th, th', n := m.threads[t], m'.threads[t], m.threads[t].phase.next;
      && |th'.slots| == |th.slots| && th'.phase == Stepping(n + 1) && th'.time == th.time
      && (forall id | 0 <= id < |th.slots| && id != n :: th'.slots[id].dev == th.slots[id].dev)
      && th'.active == (Asks(cfg, m, t, n) || th.active)
  {
  }

  lemma StepRound<S(!new), M(!new), E(!new)>(cfg: Config<S, M, E>, run: States<S, M, E>, k: nat, i: nat, u: nat, a: Action)
    requires k < i < |run| - 1 && u < |run[k].threads| && InRound(cfg, run, k, i, u)
    requires Moves(cfg, run[i], run[i + 1], u, a) && run[i].threads[u].phase.Stepping?
    requires run[i].threads[u].phase.next < |run[i].threads[u].slots|
    ensures InRound(cfg, run, k, i + 1, u)
  {
    hide Moves, Called, Calls;
    var n := run[i].threads[u].phase.next;
    StepIs(cfg, run[i], run[i + 1], u, a);
    SameThreads(cfg, run[i], run[i + 1], u, a, u);
    CallIs(cfg, run, k, i, u, n);
    var next := i + 1;
    forall id | 0 <= id < n ensures Called(cfg, run, k, next, u, id) {
      CalledStays(cfg, run, k, i, u, id);
    }
  }

  lemma CallIs<S(!new), M(!new), E(!new)>(cfg: Config<S, M, E>, run: States<S, M, E>, k: nat, i: nat, u: nat, n: nat)
    requires k < i < |run| - 1 && u < |run[k].threads| && u < |run[i].threads|
    requires n < |run[k].threads[u].slots| == |run[i].threads[u].slots|
    requires Moves(cfg, run[i], run[i + 1], u, Step) && run[i].threads[u].phase == Stepping(n)
    requires run[i].threads[u].slots[n].dev == run[k].threads[u].slots[n].dev
    requires run[i].threads[u].time == run[k].threads[u].time
    ensures Called(cfg, run, k, i + 1, u, n)
  {
    hide Moves;
    assert Calls(cfg, run, i, u, n);
  }

  lemma ResumeRound<S(!new), M(!new), E(!new)>(cfg: Config<S, M, E>, run: States<S, M, E>, k: nat, i: nat, u: nat, a: Action)
    requires k < i < |run| - 1 && u < |run[k].threads| && InRound(cfg, run, k, i, u)
    requires Moves(cfg, run[i], run[i + 1], u, a) && run[i].threads[u].phase.Stepping?
    requires run[i].threads[u].phase.next >= |run[i].threads[u].slots|
    ensures InRound(cfg, run, k, i + 1, u)
  {
    hide Called, Asks;
    var next := i + 1;
    forall id | 0 <= id < |run[i].threads[u].slots| ensures Called(cfg, run, k, next, u, id) {
      CalledStays(cfg, run, k, i, u, id);
    }
  }

  lemma MoveRound<S(!new), M(!new), E(!new)>(cfg: Config<S, M, E>, run: States<S, M, E>, k: nat, i: nat, u: nat, t: nat,
                                             a: Action)
    requires k < i < |run| - 1 && u < |run[k].threads| && InRound(cfg, run, k, i, u)
    requires Moves(cfg, run[i], run[i + 1], t, a)
    ensures InRound(cfg, run, k, i + 1, u)
  {
    hide Acts, Called, Asks;
    if t != u {
      SameThreads(cfg, run[i], run[i + 1], t, a, u);
      var next := i + 1;
      forall id | 0 <= id < Reached(run[i].threads[u]) ensures Called(cfg, run, k, next, u, id) {
        CalledStays(cfg, run, k, i, u, id);
      }
    } else if run[i].threads[u].phase.Leaving? {
      LeaveRound(cfg, run, k, i, u, a);
    } else if !run[i].threads[u].phase.Stepping? {
      LoopRound(cfg, run, k, i, u, a);
    } else if run[i].threads[u].phase.next < |run[i].threads[u].slots| {
      StepRound(cfg, run, k, i, u, a);
    } else {
      ResumeRound(cfg, run, k, i, u, a);
    }
  }

  lemma {:induction false} RoundOf<S(!new), M(!new), E(!new)>(cfg: Config<S, M, E>, run: States<S, M, E>, k: nat, i: nat,
                                                              u: nat)
    requires k < i < |run| && u < |run[k].threads| && Detects(run[k], run[k + 1], false) && Moving(cfg, run, k + 1, i)
    ensures InRound(cfg, run, k, i, u)
    decreases i
  {
    hide InRound, Moves, Detects;
    if i == k + 1 {
      RoundBegins(cfg, run, k, u);
    } else {
      RoundOf(cfg, run, k, i - 1, u);
      assert MovedAt(cfg, run, i - 1);
      var t, a :| Moves(cfg, run[i - 1], run[i], t, a);
      MoveRound(cfg, run, k, i - 1, u, t, a);
    }
  }

  lemma RoundBegins<S(!new), M(!new), E(!new)>(cfg: Config<S, M, E>, run: States<S, M, E>, k: nat, u: nat)
    requires k + 1 < |run| && u < |run[k].threads| && Detects(run[k], run[k + 1], false)
    ensures InRound(cfg, run, k, k + 1, u)
  {
    hide Called, Asks;
    SameDetected(run[k], run[k + 1], false, u);
  }

  // ---------------------------------------------------------------------
  // Before and after the last detection

  lemma LastStep<S(!new), M(!new), E(!new)>(cfg: Config<S, M, E>, run: States<S, M, E>, j: nat)
    requires Steady(cfg, run) && 0 < j < |run|
    ensures Detected(run[j - 1], run[j]) || (Moved(cfg, run[j - 1], run[j]) && MovedAt(cfg, run, j - 1))
  {
    var i := j - 1;
    NextIs(cfg, run[i], run[i + 1]);
  }

  lemma NextIs<S(!new), M(!new), E(!new)>(cfg: Config<S, M, E>, m: Machine<S, M, E>, m': Machine<S, M, E>)
    requires NextMachine(cfg, m, m')
    ensures Detected(m, m') || Moved(cfg, m, m')
  {
    hide Moves, Detects;
  }

  lemma {:induction false} LastDetected<S(!new), M(!new), E(!new)>(cfg: Config<S, M, E>, run: States<S, M, E>, j: nat)
    returns (k: nat, last: bool)
    requires Steady(cfg, run) && j < |run| && !Moving(cfg, run, 0, j)
    ensures k < j && Detects(run[k], run[k + 1], last) && Moving(cfg, run, k + 1, j)
    decreases j
  {
    hide Moves, Detects;
    LastStep(cfg, run, j);
    if Detected(run[j - 1], run[j]) {
      k := j - 1;
      last :| Detects(run[j - 1], run[j], last);
    } else {
      k, last := LastDetected(cfg, run, j - 1);
    }
  }

  // A thread that has not been in any round has still the vote it started with
  ghost predicate Untried<S, M, E>(th: Thread<S, M, E>) {
    th.active && (th.phase.Starting? || th.phase.Running? || th.phase.Waiting?)
  }

  lemma MoveUntried<S, M, E>(cfg: Config<S, M, E>, m: Machine<S, M, E>, m': Machine<S, M, E>, t: nat, a: Action, u: nat)
    requires Moves(cfg, m, m', t, a) && u < |m.threads| && Untried(m.threads[u])
    ensures u < |m'.threads| && Untried(m'.threads[u])
  {
  }

  lemma MoveOver<S, M, E>(cfg: Config<S, M, E>, m: Machine<S, M, E>, m': Machine<S, M, E>, t: nat, a: Action, u: nat)
    requires Moves(cfg, m, m', t, a) && u < |m.threads|
    ensures u < |m'.threads| && Over(m'.threads[u]) == Over(m.threads[u])
    ensures Over(m.threads[u]) ==> m'.threads[u].time == m.threads[u].time
  {
  }

  lemma {:induction false} StaysUntried<S(!new), M(!new), E(!new)>(cfg: Config<S, M, E>, run: States<S, M, E>, j: nat, u: nat)
    requires Moving(cfg, run, 0, j) && u < |run[0].threads| && Untried(run[0].threads[u])
    ensures u < |run[j].threads| && Untried(run[j].threads[u])
    decreases j
  {
    hide Moves, Untried;
    if j > 0 {
      StaysUntried(cfg, run, j - 1, u);
      assert MovedAt(cfg, run, j - 1);
      var t, a :| Moves(cfg, run[j - 1], run[j], t, a);
      MoveUntried(cfg, run[j - 1], run[j], t, a, u);
    }
  }

  lemma DetectOver<S, M, E>(m: Machine<S, M, E>, m': Machine<S, M, E>, last: bool, u: nat)
    requires Detects(m, m', last) && u < |m.threads|
    ensures u < |m'.threads| && !Over(m.threads[u]) && Over(m'.threads[u]) == last
  {
  }

  // Once over, a thread stays over, at the same time
  lemma {:induction false} StaysOver<S(!new), M(!new), E(!new)>(cfg: Config<S, M, E>, run: States<S, M, E>, i: nat, j: nat,
                                                                u: nat)
    requires Steady(cfg, run) && i <= j < |run| && u < |run[i].threads| && Over(run[i].threads[u])
    ensures u < |run[j].threads| && Over(run[j].threads[u]) && run[j].threads[u].time == run[i].threads[u].time
    decreases j
  {
    hide Moves, Over, Detects;
    if i < j {
      StaysOver(cfg, run, i, j - 1, u);
      LastStep(cfg, run, j);
      if Detected(run[j - 1], run[j]) {
        var last :| Detects(run[j - 1], run[j], last);
        DetectOver(run[j - 1], run[j], last, u);
      } else {
        var t, a :| Moves(cfg, run[j - 1], run[j], t, a);
        MoveOver(cfg, run[j - 1], run[j], t, a, u);
      }
    }
  }

  // The detection that ended the run
  lemma {:induction false} EndedBy<S(!new), M(!new), E(!new)>(cfg: Config<S, M, E>, run: States<S, M, E>, n: nat, t: nat)
    returns (j: nat)
    requires Steady(cfg, run) && n < |run| && t < |run[0].threads| && t < |run[n].threads|
    requires !Over(run[0].threads[t]) && Over(run[n].threads[t])
    ensures j < n && Detects(run[j], run[j + 1], true)
    decreases n
  {
    hide Moves, Over, Detects;
    LastStep(cfg, run, n);
    if Detected(run[n - 1], run[n]) {
      var last :| Detects(run[n - 1], run[n], last);
      SizeDetected(run[n - 1], run[n], last);
      DetectOver(run[n - 1], run[n], last, t);
      j := n - 1;
    } else {
      var u, a :| Moves(cfg, run[n - 1], run[n], u, a);
      SizeMoved(cfg, run[n - 1], run[n], u, a);
      MoveOver(cfg, run[n - 1], run[n], u, a, t);
      j := EndedBy(cfg, run, n - 1, t);
    }
  }

  lemma SizeMoved<S, M, E>(cfg: Config<S, M, E>, m: Machine<S, M, E>, m': Machine<S, M, E>, t: nat, a: Action)
    requires Moves(cfg, m, m', t, a)
    ensures |m'.threads| == |m.threads|
  {
  }

  // From the detection at k to that at j, all step handlers have been called once
  // more, and have returned false
  ghost predicate LastRound<S(!new), M(!new), E(!new)>(cfg: Config<S, M, E>, run: States<S, M, E>, k: nat, j: nat) {
    && k < j < |run| - 1 && Detects(run[k], run[k + 1], false) && Detects(run[j], run[j + 1], true)
    && Moving(cfg, run, k + 1, j) && |run[j].threads| == |run[k].threads|
    && (forall u | 0 <= u < |run[k].threads| ::
          |run[j].threads[u].slots| == |run[k].threads[u].slots| && run[j].threads[u].time == run[k].threads[u].time + 1)
    && (forall u, id | 0 <= u < |run[k].threads| && 0 <= id < |run[k].threads[u].slots| ::
          Called(cfg, run, k, j, u, id) && !Asks(cfg, run[k], u, id))
  }

  lemma DetectIdle<S, M, E>(m: Machine<S, M, E>, m': Machine<S, M, E>, last: bool, u: nat)
    requires Detects(m, m', last) && u < |m.threads|
    ensures m.threads[u].phase == Waiting && (last ==> !m.threads[u].active)
  {
  }

  lemma RoundBefore<S(!new), M(!new), E(!new)>(cfg: Config<S, M, E>, run: States<S, M, E>, j: nat) returns (k: nat)
    requires Steady(cfg, run) && j < |run| - 1 && Detects(run[j], run[j + 1], true)
    requires run[0].threads != [] && forall u | 0 <= u < |run[0].threads| :: Untried(run[0].threads[u])
    ensures LastRound(cfg, run, k, j)
  {
    hide Detects, Moving, InRound, Steady, Called, Asks;
    SameSize(cfg, run, 0, j);
    DetectIdle(run[j], run[j + 1], true, 0);
    if Moving(cfg, run, 0, j) {
      StaysUntried(cfg, run, j, 0);
      assert false;
    }
    var last;
    k, last := LastDetected(cfg, run, j);
    SameSize(cfg, run, 0, k);
    SameSize(cfg, run, k, j);
    if last {
      DetectOver(run[k], run[k + 1], last, 0);
      StaysOver(cfg, run, k + 1, j, 0);
      assert false;
    }
    forall u | 0 <= u < |run[k].threads|
      ensures run[j].threads[u].time == run[k].threads[u].time + 1
      ensures forall id | 0 <= id < |run[k].threads[u].slots| :: Called(cfg, run, k, j, u, id) && !Asks(cfg, run[k], u, id)
    {
      RoundOf(cfg, run, k, j, u);
      DetectIdle(run[j], run[j + 1], true, u);
      RoundDone(cfg, run, k, j, u);
    }
  }

  lemma RoundDone<S(!new), M(!new), E(!new)>(cfg: Config<S, M, E>, run: States<S, M, E>, k: nat, j: nat, u: nat)
    requires k < |run| && j < |run| && u < |run[k].threads| && InRound(cfg, run, k, j, u)
    requires run[j].threads[u].phase == Waiting && !run[j].threads[u].active
    ensures run[j].threads[u].time == run[k].threads[u].time + 1
    ensures forall id | 0 <= id < |run[k].threads[u].slots| :: Called(cfg, run, k, j, u, id) && !Asks(cfg, run[k], u, id)
  {
    hide Called, Asks;
  }
}
