// When the pressures that the host is told add up to the initial total: exactly
// for which setups this is so in every run.
module PressureTotals {
  import opened Vertices
  import opened Pressure

  type PressWorld = World<PressureState, PressureMessage, nat>

  function First(p: Setup, v: nat): int
    requires v < |p.memory|
  {
    p.memory[v].s.pressure
  }

  // The edge leads from a lower to a higher initial pressure
  ghost predicate RisesAt(p: Setup, u: nat, d: nat) {
    u < |p.g| && d < |p.g[u]| && u < |p.memory| && p.g[u][d].to < |p.memory| && First(p, u) < First(p, p.g[u][d].to)
  }

  ghost predicate Rises(p: Setup) { exists u, d :: RisesAt(p, u, d) }

  // The edge joins different initial pressures
  ghost predicate Uneven(p: Setup, u: nat, d: nat) {
    u < |p.g| && d < |p.g[u]| && u < |p.memory| && p.g[u][d].to < |p.memory| && First(p, u) != First(p, p.g[u][d].to)
  }

  ghost function Heads(p: Setup, d: nat, us: set<nat>): set<nat>
    requires forall u | u in us :: u < |p.g| && d < |p.g[u]|
  {
    set u | u in us :: p.g[u][d].to
  }

  lemma {:induction false} HeadsSize(p: Setup, d: nat, us: set<nat>)
    requires Proper(p) && d < NUM_NEIGHBOURS && forall u | u in us :: u < |p.g|
    ensures |Heads(p, d, us)| == |us|
    decreases us
  {
    if u :| u in us {
      HeadsSize(p, d, us - {u});
      assert Heads(p, d, us) == Heads(p, d, us - {u}) + {p.g[u][d].to};
    }
  }

  lemma SameSet(a: set<nat>, b: set<nat>)
    requires a <= b && |a| == |b|
    ensures a == b
  {
    assert b == a + (b - a);
  }

  // The edges of one direction permute the vertices, so a falling edge needs a
  // rising one
  lemma RisesExactly(p: Setup)
    requires Proper(p)
    ensures Rises(p) <==> exists u, d :: Uneven(p, u, d)
  {
    hide Proper;
    if Rises(p) {
      var u, d :| RisesAt(p, u, d);
      assert Uneven(p, u, d);
    } else if u: nat, d: nat :| Uneven(p, u, d) {
      SomeRise(p, u, d);
    }
  }

  lemma SomeRise(p: Setup, u: nat, d: nat)
    requires Proper(p) && Uneven(p, u, d)
    ensures Rises(p)
  {
    if !Rises(p) {
      var t := First(p, p.g[u][d].to);
      assert First(p, u) > t by { assert !RisesAt(p, u, d); }
      var low := set v: nat | v < |p.memory| && First(p, v) <= t;
      assert Heads(p, d, low) <= low by { LowStays(p, d, t, low); }
      HeadsSize(p, d, low);
      SameSet(Heads(p, d, low), low);
      assert p.g[u][d].to in low;
      Backwards(p, u, d, low);
    }
  }

  lemma LowStays(p: Setup, d: nat, t: int, low: set<nat>)
    requires Proper(p) && !Rises(p) && d < NUM_NEIGHBOURS
    requires low == set v: nat | v < |p.memory| && First(p, v) <= t
    ensures Heads(p, d, low) <= low
  {
    forall v | v in low ensures p.g[v][d].to in low {
      assert !RisesAt(p, v, d);
    }
  }

  // Only u leads there
  lemma Backwards(p: Setup, u: nat, d: nat, us: set<nat>)
    requires Proper(p) && u < |p.g| && d < NUM_NEIGHBOURS && forall v | v in us :: v < |p.g|
    requires p.g[u][d].to in Heads(p, d, us)
    ensures u in us
  {
  }

  // ---------------------------------------------------------------------
  // Without such an edge nothing ever moves

  ghost predicate Flat(p: Setup, dev: PressureDev, v: nat)
    requires v < |p.memory|
  {
    dev.s.pressure == dev.s.newPressure == First(p, v) && dev.s.move == {}
  }

  // A message that makes no device of this pressure give or take a bead
  ghost predicate Idle(p: Setup, m: Msg<PressureMessage, nat>) {
    m.Deliver? ==> m.to < |p.memory| && m.payload.move == {} && m.payload.pressure >= First(p, m.to)
  }

  ghost predicate FlatInv(p: Setup, w: PressWorld) {
    && |w.devs| == |p.memory|
    && (forall v | 0 <= v < |w.devs| :: Flat(p, w.devs[v], v))
    && (forall m | m in w.air :: Idle(p, m))
  }

  lemma FlatSends(p: Setup, coin: Coin, w: PressWorld, w': PressWorld, d: nat)
    requires Proper(p) && !Rises(p) && FlatInv(p, w) && Sends(PRESSURE(coin), p.g, w, w', d)
    ensures FlatInv(p, w')
  {
    hide Idle, OnEdges, Proper;
    var msg := PressureMessage(w.devs[d].s.pressure, w.devs[d].s.move);
    assert Flat(p, w.devs[d], d);
    forall m | m in w'.air ensures Idle(p, m) {
      if m !in w.air {
        match w.devs[d].rts {
          case No =>
          case HostPin => assert Idle(p, m) by { HostIdle(p, m); }
          case Out(pin) =>
            var i := EdgeOf(p.g[d], pin, msg, m);
            EdgeIdle(p, d, i, m, msg);
        }
      }
    }
  }

  lemma HostIdle(p: Setup, m: Msg<PressureMessage, nat>)
    requires m.ToHost?
    ensures Idle(p, m)
  {
  }

  lemma EdgeIdle(p: Setup, d: nat, i: nat, m: Msg<PressureMessage, nat>, msg: PressureMessage)
    requires Proper(p) && !Rises(p) && d < |p.g| && i < |p.g[d]|
    requires m == Deliver(p.g[d][i].to, p.g[d][i].edge, msg) && msg == PressureMessage(First(p, d), {})
    ensures Idle(p, m)
  {
    assert !RisesAt(p, d, i);
  }

  // The edge along which a message was sent
  lemma {:induction false} EdgeOf(edges: seq<Edge<nat>>, pin: nat, msg: PressureMessage, m: Msg<PressureMessage, nat>)
    returns (i: nat)
    requires m in OnEdges(edges, pin, msg)
    ensures i < |edges| && m == Deliver(edges[i].to, edges[i].edge, msg)
    decreases |edges|
  {
    i := |edges| - 1;
    if m in OnEdges(edges[..i], pin, msg) {
      i := EdgeOf(edges[..i], pin, msg, m);
    }
  }

  lemma FlatReceives(p: Setup, coin: Coin, w: PressWorld, w': PressWorld, m: Msg<PressureMessage, nat>)
    requires FlatInv(p, w) && Receives(PRESSURE(coin), w, w', m)
    ensures FlatInv(p, w')
  {
    assert Idle(p, m) && Flat(p, w.devs[m.to], m.to);
    assert w'.devs == w.devs;
  }

  lemma FlatReplies(p: Setup, coin: Coin, w: PressWorld, w': PressWorld, d: nat)
    requires FlatInv(p, w) && Replies(PRESSURE(coin), w, w', d)
    ensures FlatInv(p, w')
  {
    assert w'.devs == w.devs;
  }

  lemma FlatSteps(p: Setup, coin: Coin, w: PressWorld, w': PressWorld)
    requires FlatInv(p, w) && Steps(PRESSURE(coin), w, w')
    ensures FlatInv(p, w')
  {
    hide Quiet;
    forall v | 0 <= v < |w'.devs| ensures Flat(p, w'.devs[v], v) {
      assert Flat(p, w.devs[v], v) && w'.devs[v] == Step(w.devs[v], Clock(w.time)).0;
    }
  }

  lemma FlatNext(p: Setup, coin: Coin, v: PressWorld, w: PressWorld)
    requires Proper(p) && !Rises(p) && FlatInv(p, v) && Next(PRESSURE(coin), p.g, v, w)
    ensures FlatInv(p, w)
  {
    hide Proper, FlatInv, Sends, Receives, Replies, Steps, PRESSURE;
    if d: nat :| Sends(PRESSURE(coin), p.g, v, w, d) {
      FlatSends(p, coin, v, w, d);
    } else if m :| Receives(PRESSURE(coin), v, w, m) {
      FlatReceives(p, coin, v, w, m);
    } else if d: nat :| Replies(PRESSURE(coin), v, w, d) {
      FlatReplies(p, coin, v, w, d);
    } else if Steps(PRESSURE(coin), v, w) {
      FlatSteps(p, coin, v, w);
    } else {
      FlatEnds(p, v, w);
    }
  }

  lemma FlatEnds(p: Setup, w: PressWorld, w': PressWorld)
    requires FlatInv(p, w) && Ends(w, w')
    ensures FlatInv(p, w')
  {
  }

  lemma {:induction false} FlatRuns(p: Setup, coin: Coin, w: PressWorld, n: nat)
    requires Proper(p) && !Rises(p) && Reach(PRESSURE(coin), p.g, Begin(PRESSURE(coin), p.memory), w, n)
    ensures FlatInv(p, w)
    decreases n
  {
    hide Proper, FlatInv, Next, Rises;
    if n == 0 {
      FlatBegins(p, coin);
    } else {
      var v :| Reach(PRESSURE(coin), p.g, Begin(PRESSURE(coin), p.memory), v, n - 1) && Next(PRESSURE(coin), p.g, v, w);
      FlatRuns(p, coin, v, n - 1);
      FlatNext(p, coin, v, w);
    }
  }

  lemma FlatBegins(p: Setup, coin: Coin)
    requires Proper(p)
    ensures FlatInv(p, Begin(PRESSURE(coin), p.memory))
  {
  }

  // ---------------------------------------------------------------------
  // Every run can be brought to its end

  ghost function ReadySet(devs: seq<PressureDev>): set<nat> { set d: nat | d < |devs| && devs[d].rts != No }

  lemma InvOf(p: Setup, coin: Coin, w: PressWorld)
    requires Proper(p) && Reachable(PRESSURE(coin), p.g, p.memory, w)
    ensures PressInv(p, w)
  {
    var n: nat :| Reach(PRESSURE(coin), p.g, Begin(PRESSURE(coin), p.memory), w, n);
    PressRuns(p, coin, w, n);
  }

  // All devices send and all messages are delivered
  lemma {:induction false} Drain(p: Setup, coin: Coin, w: PressWorld) returns (w': PressWorld)
    requires Proper(p) && Reachable(PRESSURE(coin), p.g, p.memory, w) && !w.done
    ensures Reachable(PRESSURE(coin), p.g, p.memory, w') && Quiet(w')
    ensures !w'.done && w'.time == w.time && w'.active == w.active
    decreases ReadySet(w.devs), |w.air|
  {
    hide Proper, Reachable, PressInv, Next, PRESSURE;
    InvOf(p, coin, w);
    if d: nat :| d in ReadySet(w.devs) {
      var next := SendOne(p, coin, w, d);
      ReachNext(PRESSURE(coin), p.g, p.memory, w, next);
      w' := Drain(p, coin, next);
    } else if m :| m in w.air && m.Deliver? {
      var next := ReceiveOne(p, coin, w, m);
      ReachNext(PRESSURE(coin), p.g, p.memory, w, next);
      w' := Drain(p, coin, next);
    } else {
      w' := w;
      AllIdle(w);
    }
  }

  lemma AllIdle(w: PressWorld)
    requires ReadySet(w.devs) == {} && forall m | m in w.air :: !m.Deliver?
    ensures Quiet(w)
  {
    forall d | 0 <= d < |w.devs| ensures w.devs[d].rts == No {
      assert d !in ReadySet(w.devs);
    }
  }

  lemma SendOne(p: Setup, coin: Coin, w: PressWorld, d: nat) returns (w': PressWorld)
    requires PressInv(p, w) && !w.done && d < |w.devs| && w.devs[d].rts != No
    ensures Next(PRESSURE(coin), p.g, w, w') && w'.done == w.done && w'.time == w.time && w'.active == w.active
    ensures ReadySet(w'.devs) < ReadySet(w.devs)
  {
    hide MsgOk, Sum, Ways, GivenOk, OnEdges;
    var r := Send(w.devs[d], Clock(w.time));
    w' := w.(devs := w.devs[d := r.0], air := w.air + Emitted(p.g[d], w.devs[d].rts, r.1));
    assert Sends(PRESSURE(coin), p.g, w, w', d);
    assert d in ReadySet(w.devs) && d !in ReadySet(w'.devs);
  }

  lemma ReceiveOne(p: Setup, coin: Coin, w: PressWorld, m: Msg<PressureMessage, nat>) returns (w': PressWorld)
    requires Proper(p) && PressInv(p, w) && !w.done && m in w.air && m.Deliver?
    ensures Next(PRESSURE(coin), p.g, w, w') && w'.done == w.done && w'.time == w.time && w'.active == w.active
    ensures ReadySet(w'.devs) == ReadySet(w.devs) && |w'.air| < |w.air|
  {
    hide Recv, PressInv, Proper, Next;
    ArrivesWhere(p, w, m);
    SameReady(coin, w.devs[m.to], m, Clock(w.time));
    w' := w.(devs := w.devs[m.to := Recv(coin, w.devs[m.to], m.payload, m.edge, Clock(w.time))], air := w.air - multiset{m});
    assert Receives(PRESSURE(coin), w, w', m);
    NextByReceive(PRESSURE(coin), p.g, w, w', m);
    assert w.air == w'.air + multiset{m};
  }

  lemma ArrivesWhere(p: Setup, w: PressWorld, m: Msg<PressureMessage, nat>)
    requires Proper(p) && PressInv(p, w) && m in w.air && m.Deliver?
    ensures m.to < |w.devs|
  {
    MsgIs(p, w, m);
    var u := SenderOf(p, w.devs, w.air, m);
    ProperEdges(p, u);
  }

  lemma SameReady(coin: Coin, dev: PressureDev, m: Msg<PressureMessage, nat>, time: nat)
    requires m.Deliver?
    ensures Recv(coin, dev, m.payload, m.edge, time).rts == dev.rts
  {
  }

  lemma {:induction false} RunToEnd(p: Setup, coin: Coin, w: PressWorld) returns (w': PressWorld)
    requires Proper(p) && Reachable(PRESSURE(coin), p.g, p.memory, w) && !w.done
    ensures Reachable(PRESSURE(coin), p.g, p.memory, w') && w'.done
    decreases if w.time < p.steps then p.steps - w.time else 0, w.active
  {
    hide Proper, Reachable, PressInv, Quiet;
    var quiet := Drain(p, coin, w);
    InvOf(p, coin, quiet);
    if quiet.active {
      var next := Stepped(PRESSURE(coin), quiet);
      assert Steps(PRESSURE(coin), quiet, next);
      ReachNext(PRESSURE(coin), p.g, p.memory, quiet, next);
      if quiet.time >= p.steps {
        NoMore(p, coin, quiet);
      }
      w' := RunToEnd(p, coin, next);
    } else {
      w' := quiet.(done := true);
      assert Ends(quiet, w');
      ReachNext(PRESSURE(coin), p.g, p.memory, quiet, w');
    }
  }

  lemma NoMore(p: Setup, coin: Coin, w: PressWorld)
    requires PressInv(p, w) && w.time >= p.steps
    ensures !Stepped(PRESSURE(coin), w).active
  {
    hide MsgOk, Sum, Ways, GivenOk;
    forall d | 0 <= d < |w.devs| ensures !PRESSURE(coin).step(w.devs[d], Clock(w.time)).1 {
      assert DevOk(p, w.devs[d], 0);
    }
  }

  // ---------------------------------------------------------------------
  // With such an edge and an odd number of steps, some run loses beads

  // Seeds count the tosses, and from some number on all tosses succeed
  function Patient(most: nat): Coin { (prng: nat, diff: int) => (prng >= most, prng + 1) }

  // The edge from u in direction d leads to v, from a lower initial pressure
  ghost predicate LowerFrom(p: Setup, v: nat, d: nat, u: nat) { RisesAt(p, u, d) && p.g[u][d].to == v }

  // Directions in which v hears from lower neighbours
  ghost function Low(p: Setup, v: nat): set<nat> {
    set d | 0 <= d < NUM_NEIGHBOURS && SomeLower(p, v, d)
  }

  ghost predicate SomeLower(p: Setup, v: nat, d: nat) { exists u: nat :: LowerFrom(p, v, d, u) }

  // ... and in which it has not heard from them in this time step
  ghost function Awaited(p: Setup, devs: seq<PressureDev>, air: Air, v: nat): set<nat>
    requires |devs| == |p.g|
  {
    set d | 0 <= d < NUM_NEIGHBOURS && LowerUnheard(p, devs, air, v, d)
  }

  ghost predicate LowerUnheard(p: Setup, devs: seq<PressureDev>, air: Air, v: nat, d: nat)
    requires |devs| == |p.g|
  {
    exists u: nat :: LowerFrom(p, v, d, u) && u < |devs| && Unheard(p, devs, air, u, d)
  }

  ghost function Score(p: Setup, v: nat, rounds: nat): nat
    requires v < |p.memory|
  {
    p.memory[v].s.prng + rounds * |Low(p, v)|
  }

  // A vertex whose seed will have counted furthest before the last round
  lemma {:induction false} Busiest(p: Setup, n: nat) returns (v: nat)
    requires n <= |p.memory| && exists x :: 0 <= x < n && Low(p, x) != {}
    ensures v < n && Low(p, v) != {}
    ensures forall x | 0 <= x < n && Low(p, x) != {} :: Score(p, x, p.steps / 2) <= Score(p, v, p.steps / 2)
    decreases n
  {
    hide Low;
    if exists x :: 0 <= x < n - 1 && Low(p, x) != {} {
      v := Busiest(p, n - 1);
      if Low(p, n - 1) != {} && Score(p, n - 1, p.steps / 2) > Score(p, v, p.steps / 2) {
        v := n - 1;
      }
    } else {
      v := n - 1;
    }
  }

  // The seed of v has counted the tosses so far
  ghost predicate Counted(p: Setup, w: PressWorld, v: nat)
    requires |w.devs| == |p.memory| == |p.g| && v < |w.devs|
  {
    w.devs[v].s.prng + (if w.time % 2 == 0 then |Awaited(p, w.devs, w.air, v)| else 0) == Score(p, v, w.time / 2 + 1)
  }

  // Nothing has been given away
  ghost predicate Untouched(p: Setup, w: PressWorld)
    requires |w.devs| == |p.memory| == |p.g|
  {
    && (forall v | 0 <= v < |w.devs| :: Flat(p, w.devs[v], v) && Counted(p, w, v))
    && (forall m | m in w.air && m.Deliver? :: m.payload.move == {})
  }

  // The last round: a vertex that has given nothing still has what it had
  ghost predicate LastRound(p: Setup, devs: seq<PressureDev>)
    requires |devs| == |p.memory|
  {
    forall v | 0 <= v < |devs| ::
      devs[v].s.pressure == First(p, v) && (devs[v].s.move == {} ==> devs[v].s.newPressure == First(p, v))
  }

  // v has given a bead, or will with its first toss
  ghost predicate WillGive(p: Setup, devs: seq<PressureDev>, air: Air, v: nat)
    requires |devs| == |p.g| && v < |devs| && v < |p.memory|
  {
    devs[v].s.move != {} || (devs[v].s.prng == Score(p, v, p.steps / 2) && Awaited(p, devs, air, v) == Low(p, v))
  }

  // v is among those whose seeds will have counted furthest
  ghost predicate Best(p: Setup, v: nat) {
    && v < |p.memory| && Low(p, v) != {} && p.steps % 2 == 1
    && forall x | 0 <= x < |p.memory| && Low(p, x) != {} :: Score(p, x, p.steps / 2) <= Score(p, v, p.steps / 2)
  }

  lemma BestFits(p: Setup, v: nat)
    requires Best(p, v)
    ensures v < |p.memory| && Low(p, v) != {} && p.steps % 2 == 1
  {
  }

  ghost predicate LastInv(p: Setup, w: PressWorld, v: nat)
    requires v < |p.memory|
  {
    && |w.devs| == |p.memory| == |p.g|
    && (w.time + 1 < p.steps ==> Untouched(p, w))
    && (w.time + 1 == p.steps ==> LastRound(p, w.devs) && WillGive(p, w.devs, w.air, v))
    && (w.time >= p.steps ==> w.devs[v].s.move != {})
  }

  // What is known of every device: the steps left, and its mode
  lemma Known(p: Setup, w: PressWorld, v: nat)
    requires PressInv(p, w) && v < |w.devs| && p.steps % 2 == 1
    ensures var s := w.devs[v].s;
      && s.numSteps == Left(p, w.time) && (w.time < p.steps ==> (s.mode == SHARE <==> w.time % 2 == 0))
      && (w.time >= p.steps ==> s.mode == MOVE)
      && (w.devs[v].rts == No || w.devs[v].rts == Out(0))
  {
    hide MsgOk, Sum, Ways, GivenOk;
    assert DevOk(p, w.devs[v], Left(p, w.time));
  }

  // ---------------------------------------------------------------------
  // What is awaited

  // When everybody is about to send, all lower neighbours are awaited
  lemma AllAwaited(p: Setup, devs: seq<PressureDev>, air: Air, v: nat)
    requires |devs| == |p.g| && forall u | 0 <= u < |devs| :: devs[u].rts != No
    ensures Awaited(p, devs, air, v) == Low(p, v)
  {
    forall d: nat, u: nat | LowerFrom(p, v, d, u) ensures Unheard(p, devs, air, u, d) {
    }
  }

  lemma NoneAwaited(p: Setup, w: PressWorld, v: nat)
    requires |w.devs| == |p.g| && Quiet(w)
    ensures Awaited(p, w.devs, w.air, v) == {}
  {
    forall d: nat, u: nat | LowerFrom(p, v, d, u) ensures !Unheard(p, w.devs, w.air, u, d) {
    }
  }

  lemma SameAwaited(p: Setup, devs: seq<PressureDev>, air: Air, devs': seq<PressureDev>, air': Air, v: nat)
    requires |devs| == |devs'| == |p.g| && forall u | 0 <= u < |devs| :: SameUnheard(p, devs, air, devs', air', u)
    ensures Awaited(p, devs', air', v) == Awaited(p, devs, air, v)
  {
    hide Unheard;
    forall u: nat, d: nat | LowerFrom(p, v, d, u) ensures Unheard(p, devs', air', u, d) == Unheard(p, devs, air, u, d) {
      assert SameUnheard(p, devs, air, devs', air', u);
    }
  }

  // A message makes one direction heard, which was awaited if it comes from a
  // lower vertex
  lemma TakeAwaited(p: Setup, devs: seq<PressureDev>, air: Air, devs': seq<PressureDev>, m: Msg<PressureMessage, nat>,
                    u: nat, v: nat)
    requires Proper(p) && |devs| == |devs'| == |p.g| && m in air && m.Deliver? && MsgOk(p, devs, air, m)
    requires u < |devs| == |p.memory| && SentBy(p, devs, m, u) && m.to < |devs| && v < |devs| && m.edge < NUM_NEIGHBOURS
    requires forall x | 0 <= x < |devs| :: devs'[x].rts == devs[x].rts
    ensures Awaited(p, devs', air - multiset{m}, v) ==
      Awaited(p, devs, air, v) - if v == m.to && First(p, u) < First(p, v) then {m.edge} else {}
    ensures v == m.to && First(p, u) < First(p, v) ==> m.edge in Awaited(p, devs, air, v)
  {
    hide Proper, Unheard, MsgOk, RisesAt;
    var lower := v == m.to && First(p, u) < First(p, v);
    if lower {
      RiseIs(p, u, m.edge);
    }
    TakeUnheard(p, devs, air, devs', m, u, u, m.edge);
    forall d: nat, x: nat | LowerFrom(p, v, d, x)
      ensures x < |devs|
      ensures Unheard(p, devs', air - multiset{m}, x, d) == (Unheard(p, devs, air, x, d) && !(lower && d == m.edge))
      ensures d == m.edge && lower ==> x == u
    {
      assert RisesAt(p, x, d);
      LowerSize(p, x, d);
      TakeUnheard(p, devs, air, devs', m, u, x, d);
      if d == m.edge && v == m.to {
        ProperInjective(p, x, u, d);
      }
    }
  }

  lemma RiseIs(p: Setup, u: nat, d: nat)
    requires u < |p.g| && d < |p.g[u]| && u < |p.memory| && p.g[u][d].to < |p.memory|
    requires First(p, u) < First(p, p.g[u][d].to)
    ensures RisesAt(p, u, d)
  {
  }

  lemma LowerSize(p: Setup, u: nat, d: nat)
    requires RisesAt(p, u, d)
    ensures u < |p.g| && d < |p.g[u]| && u < |p.memory| && p.g[u][d].to < |p.memory|
    ensures First(p, u) < First(p, p.g[u][d].to)
  {
  }

  // ---------------------------------------------------------------------
  // The steps of a run

  lemma LastBegins(p: Setup, coin: Coin, v: nat)
    requires Proper(p) && Best(p, v)
    ensures LastInv(p, Begin(PRESSURE(coin), p.memory), v)
  {
    hide Low, Awaited;
    var w := Begin(PRESSURE(coin), p.memory);
    forall x | 0 <= x < |w.devs| ensures Flat(p, w.devs[x], x) && w.devs[x].rts != No && w.devs[x].s.prng == p.memory[x].s.prng {
      assert w.devs[x] == Init(p.memory[x]);
    }
    forall x | 0 <= x < |w.devs| ensures Counted(p, w, x) && Awaited(p, w.devs, w.air, x) == Low(p, x) {
      AllAwaited(p, w.devs, w.air, x);
    }
  }

  lemma LastSends(p: Setup, coin: Coin, w: PressWorld, w': PressWorld, x: nat, v: nat)
    requires Proper(p) && Best(p, v) && PressInv(p, w) && LastInv(p, w, v)
    requires Sends(PRESSURE(coin), p.g, w, w', x)
    ensures LastInv(p, w', v)
  {
    hide Proper, PressInv, OnEdges, Awaited, Low, SameUnheard, Best;
    BestFits(p, v);
    Known(p, w, x);
    var msg := PressureMessage(w.devs[x].s.pressure, w.devs[x].s.move);
    assert w'.devs == w.devs[x := Dev(No, w.devs[x].s)] && w'.air == w.air + OnEdges(p.g[x], 0, msg);
    forall u | 0 <= u < |w.devs| ensures SameUnheard(p, w.devs, w.air, w'.devs, w'.air, u) {
      SendUnheard(p, w.devs, w.air, x, msg, u);
    }
    forall y | 0 <= y < |w.devs| ensures Awaited(p, w'.devs, w'.air, y) == Awaited(p, w.devs, w.air, y) {
      SameAwaited(p, w.devs, w.air, w'.devs, w'.air, y);
    }
    if w.time + 1 < p.steps {
      forall m | m in w'.air && m.Deliver? ensures m.payload.move == {} {
        if m !in w.air {
          var i := EdgeOf(p.g[x], 0, msg, m);
        }
      }
      forall y | 0 <= y < |w.devs| ensures Flat(p, w'.devs[y], y) && Counted(p, w', y) {
        assert Flat(p, w.devs[y], y) && Counted(p, w, y);
      }
    }
  }

  lemma MsgIs(p: Setup, w: PressWorld, m: Msg<PressureMessage, nat>)
    requires PressInv(p, w) && m in w.air && m.Deliver?
    ensures MsgOk(p, w.devs, w.air, m) && m.edge < NUM_NEIGHBOURS
  {
    hide Sum, Ways, GivenOk, DevOk;
  }

  lemma LastReceives(p: Setup, w: PressWorld, w': PressWorld, m: Msg<PressureMessage, nat>, v: nat)
    requires Proper(p) && Best(p, v) && PressInv(p, w) && LastInv(p, w, v)
    requires Receives(PRESSURE(Patient(Score(p, v, p.steps / 2))), w, w', m)
    ensures LastInv(p, w', v)
  {
    hide Proper, PressInv, Awaited, Low, Best, MsgOk;
    BestFits(p, v);
    var coin := Patient(Score(p, v, p.steps / 2));
    Known(p, w, m.to);
    assert w'.devs == w.devs[m.to := Recv(coin, w.devs[m.to], m.payload, m.edge, Clock(w.time))];
    MsgIs(p, w, m);
    var u := SenderOf(p, w.devs, w.air, m);
    forall y | 0 <= y < |w.devs|
      ensures Awaited(p, w'.devs, w'.air, y) ==
        Awaited(p, w.devs, w.air, y) - if y == m.to && First(p, u) < First(p, y) then {m.edge} else {}
      ensures y == m.to && First(p, u) < First(p, y) ==> m.edge in Awaited(p, w.devs, w.air, y)
    {
      TakeAwaited(p, w.devs, w.air, w'.devs, m, u, y);
    }
    if w.time + 1 < p.steps {
      EarlyTakes(p, w, w', m, u, v);
    } else if w.time + 1 == p.steps {
      LastTakes(p, w, w', m, u, v);
    }
  }

  // Before the last round all tosses fail
  lemma EarlyTakes(p: Setup, w: PressWorld, w': PressWorld, m: Msg<PressureMessage, nat>, u: nat, v: nat)
    requires Best(p, v) && |w.devs| == |p.memory| == |p.g| && Untouched(p, w) && w.time + 1 < p.steps
    requires m in w.air && m.Deliver? && m.to < |w.devs| && u < |w.devs| && m.payload.pressure == First(p, u)
    requires w.devs[m.to].s.mode == SHARE <==> w.time % 2 == 0
    requires w' == w.(devs := w.devs[m.to := Recv(Patient(Score(p, v, p.steps / 2)), w.devs[m.to], m.payload, m.edge,
                                                  Clock(w.time))], air := w.air - multiset{m})
    requires forall y | 0 <= y < |w.devs| ::
      && Awaited(p, w'.devs, w'.air, y) ==
           Awaited(p, w.devs, w.air, y) - (if y == m.to && First(p, u) < First(p, y) then {m.edge} else {})
      && (y == m.to && First(p, u) < First(p, y) ==> m.edge in Awaited(p, w.devs, w.air, y))
    ensures Untouched(p, w')
  {
    hide Awaited, Low, Score, Best, Recv, Patient;
    BestFits(p, v);
    var y := m.to;
    var most := Score(p, v, p.steps / 2);
    assert Flat(p, w.devs[y], y) && Counted(p, w, y) && m.payload.move == {};
    if w.time % 2 == 0 && First(p, u) < First(p, y) {
      assert |Awaited(p, w'.devs, w'.air, y)| == |Awaited(p, w.devs, w.air, y)| - 1;
      FewTosses(p, w, y, m.edge, v);
    }
    FailingToss(w.devs[y], m.payload, m.edge, Clock(w.time), most);
    assert Flat(p, w'.devs[y], y) && Counted(p, w', y);
    forall x | 0 <= x < |w.devs| && x != y ensures Flat(p, w'.devs[x], x) && Counted(p, w', x) {
      assert Flat(p, w.devs[x], x) && Counted(p, w, x);
    }
  }

  lemma FailingToss(dev: PressureDev, m: PressureMessage, d: nat, time: nat, most: nat)
    requires dev.s.newPressure == dev.s.pressure && m.move == {}
    requires dev.s.mode == SHARE && m.pressure < dev.s.pressure ==> dev.s.prng < most
    ensures Recv(Patient(most), dev, m, d, time) ==
      dev.(s := dev.s.(prng := dev.s.prng + if dev.s.mode == SHARE && m.pressure < dev.s.pressure then 1 else 0))
  {
  }

  lemma FewTosses(p: Setup, w: PressWorld, y: nat, d: nat, v: nat)
    requires Best(p, v) && |w.devs| == |p.memory| == |p.g| && y < |w.devs| && Counted(p, w, y)
    requires w.time % 2 == 0 && w.time + 1 < p.steps && d in Awaited(p, w.devs, w.air, y)
    ensures w.devs[y].s.prng < Score(p, v, p.steps / 2)
  {
    hide Awaited, Low;
    SomeLow(p, w.devs, w.air, y, d);
    MoreRounds(w.time / 2 + 1, p.steps / 2, |Low(p, y)|);
    assert |Awaited(p, w.devs, w.air, y)| > 0;
  }

  lemma SomeLow(p: Setup, devs: seq<PressureDev>, air: Air, v: nat, d: nat)
    requires |devs| == |p.g| && d in Awaited(p, devs, air, v)
    ensures d in Low(p, v)
  {
  }

  lemma MoreRounds(a: nat, b: nat, n: nat)
    requires a <= b
    ensures a * n <= b * n
  {
  }

  // In the last round the first toss of v succeeds
  lemma LastTakes(p: Setup, w: PressWorld, w': PressWorld, m: Msg<PressureMessage, nat>, u: nat, v: nat)
    requires Best(p, v) && |w.devs| == |p.memory| == |p.g| && w.time + 1 == p.steps
    requires LastRound(p, w.devs) && WillGive(p, w.devs, w.air, v)
    requires m in w.air && m.Deliver? && m.to < |w.devs| && u < |w.devs| && m.payload.pressure == First(p, u)
    requires w.devs[m.to].s.mode == SHARE
    requires w' == w.(devs := w.devs[m.to := Recv(Patient(Score(p, v, p.steps / 2)), w.devs[m.to], m.payload, m.edge,
                                                  Clock(w.time))], air := w.air - multiset{m})
    requires Awaited(p, w'.devs, w'.air, v) ==
      Awaited(p, w.devs, w.air, v) - (if v == m.to && First(p, u) < First(p, v) then {m.edge} else {})
    ensures LastRound(p, w'.devs) && WillGive(p, w'.devs, w'.air, v)
  {
    hide Awaited, Low, Score;
    var dev, dev' := w.devs[m.to], w'.devs[m.to];
    assert dev.s.move != {} ==> dev'.s.move != {};
    assert dev'.s.move == {} ==> dev'.s.newPressure == dev.s.newPressure;
    if v == m.to && dev.s.move == {} && First(p, u) < First(p, v) {
      assert Opposite(m.edge) in dev'.s.move;
    }
  }

  lemma LastSteps(p: Setup, coin: Coin, w: PressWorld, w': PressWorld, v: nat)
    requires Best(p, v) && PressInv(p, w) && LastInv(p, w, v) && Steps(PRESSURE(coin), w, w')
    ensures LastInv(p, w', v)
  {
    hide PressInv, Awaited, Low, Best;
    BestFits(p, v);
    forall x | 0 <= x < |w.devs|
      ensures w'.devs[x] == Step(w.devs[x], Clock(w.time)).0 && w.devs[x].s.numSteps == Left(p, w.time)
      ensures w.time < p.steps ==> (w.devs[x].s.mode == SHARE <==> w.time % 2 == 0)
    {
      Known(p, w, x);
    }
    if w.time + 1 < p.steps {
      forall x | 0 <= x < |w.devs|
        ensures Flat(p, w'.devs[x], x) && w'.devs[x].rts != No && w'.devs[x].s.prng == w.devs[x].s.prng
      {
        assert Flat(p, w.devs[x], x);
      }
      forall x | 0 <= x < |w.devs| ensures w'.devs[x].s.prng == Score(p, x, w.time / 2 + 1) {
        assert Counted(p, w, x);
        NoneAwaited(p, w, x);
      }
      NextRound(p, w, w', v);
    } else if w.time + 1 == p.steps {
      NoneAwaited(p, w, v);
    }
  }

  lemma NextRound(p: Setup, w: PressWorld, w': PressWorld, v: nat)
    requires Best(p, v) && |w.devs| == |w'.devs| == |p.memory| == |p.g| && w.time + 1 < p.steps
    requires w'.time == w.time + 1 && forall m | m in w'.air :: m.ToHost?
    requires forall x | 0 <= x < |w.devs| :: Flat(p, w'.devs[x], x) && w'.devs[x].rts != No
    requires forall x | 0 <= x < |w.devs| :: w'.devs[x].s.prng == Score(p, x, w.time / 2 + 1)
    ensures LastInv(p, w', v)
  {
    hide Awaited, Low;
    forall x | 0 <= x < |w.devs| ensures Counted(p, w', x) && Awaited(p, w'.devs, w'.air, x) == Low(p, x) {
      AllAwaited(p, w'.devs, w'.air, x);
      OneRound(w.time / 2 + 1, |Low(p, x)|);
    }
  }

  lemma OneRound(a: nat, n: nat)
    ensures (a + 1) * n == a * n + n
  {
  }

  lemma LastReplies(p: Setup, coin: Coin, w: PressWorld, w': PressWorld, x: nat, v: nat)
    requires v < |p.memory| && PressInv(p, w) && LastInv(p, w, v) && Replies(PRESSURE(coin), w, w', x)
    ensures LastInv(p, w', v)
  {
    Ended(p, w);
    assert w'.devs == w.devs;
  }

  lemma LastNext(p: Setup, a: PressWorld, b: PressWorld, v: nat)
    requires Proper(p) && Best(p, v) && PressInv(p, a) && LastInv(p, a, v)
    requires Next(PRESSURE(Patient(Score(p, v, p.steps / 2))), p.g, a, b)
    ensures LastInv(p, b, v)
  {
    hide Proper, LastInv, PressInv, Sends, Receives, Replies, Steps, PRESSURE, Best, Score;
    BestFits(p, v);
    var coin := Patient(Score(p, v, p.steps / 2));
    if x: nat :| Sends(PRESSURE(coin), p.g, a, b, x) {
      LastSends(p, coin, a, b, x, v);
    } else if m :| Receives(PRESSURE(coin), a, b, m) {
      LastReceives(p, a, b, m, v);
    } else if x: nat :| Replies(PRESSURE(coin), a, b, x) {
      LastReplies(p, coin, a, b, x, v);
    } else if Steps(PRESSURE(coin), a, b) {
      LastSteps(p, coin, a, b, v);
    } else {
      LastEnds(p, a, b, v);
    }
  }

  lemma LastEnds(p: Setup, a: PressWorld, b: PressWorld, v: nat)
    requires v < |p.memory| && LastInv(p, a, v) && Ends(a, b)
    ensures LastInv(p, b, v)
  {
    hide Awaited;
    if a.time + 1 < p.steps {
      forall x | 0 <= x < |a.devs| ensures Flat(p, b.devs[x], x) && Counted(p, b, x) {
        assert Flat(p, a.devs[x], x) && Counted(p, a, x);
      }
    }
  }

  lemma {:induction false} LastRuns(p: Setup, w: PressWorld, n: nat, v: nat)
    requires Proper(p) && Best(p, v)
    requires var coin := Patient(Score(p, v, p.steps / 2));
      Reach(PRESSURE(coin), p.g, Begin(PRESSURE(coin), p.memory), w, n)
    ensures LastInv(p, w, v)
    decreases n
  {
    hide Proper, LastInv, Next, PRESSURE, Begin, PressInv, Best, Score;
    BestFits(p, v);
    var coin := Patient(Score(p, v, p.steps / 2));
    if n == 0 {
      LastBegins(p, coin, v);
    } else {
      var a :| Reach(PRESSURE(coin), p.g, Begin(PRESSURE(coin), p.memory), a, n - 1) && Next(PRESSURE(coin), p.g, a, w);
      LastRuns(p, a, n - 1, v);
      PressRuns(p, coin, a, n - 1);
      LastNext(p, a, w, v);
    }
  }

  lemma {:induction false} SumPositive(s: seq<int>, i: nat)
    requires i < |s| && s[i] > 0 && forall j | 0 <= j < |s| :: s[j] >= 0
    ensures Sum(s) > 0
    decreases |s|
  {
    var n := |s| - 1;
    if i < n {
      SumPositive(s[..n], i);
    } else {
      SumNonNegative(s[..n]);
    }
  }

  lemma {:induction false} SumNonNegative(s: seq<int>)
    requires forall j | 0 <= j < |s| :: s[j] >= 0
    ensures Sum(s) >= 0
    decreases |s|
  {
    if s != [] {
      SumNonNegative(s[..|s| - 1]);
    }
  }

  lemma SomeGiven(p: Setup, w: PressWorld, v: nat)
    requires v < |p.memory| && LastInv(p, w, v) && PressInv(p, w) && w.done
    ensures Sum(Given(w.devs)) > 0
  {
    hide PressInv, Sum, Core;
    assert w.time >= p.steps by { Ended(p, w); }
    SumPositive(Given(w.devs), v);
  }

  lemma Ended(p: Setup, w: PressWorld)
    requires PressInv(p, w) && w.done
    ensures w.time > p.steps
  {
    hide Core;
  }

  lemma NotDone(p: Setup, coin: Coin)
    ensures var w := Begin(PRESSURE(coin), p.memory);
      Reachable(PRESSURE(coin), p.g, p.memory, w) && !w.done
  {
    ReachBegin(PRESSURE(coin), p.g, p.memory);
  }

  // A run that has ended without some of the beads
  lemma OddLoses(p: Setup) returns (coin: Coin, w: PressWorld)
    requires Proper(p) && Rises(p) && p.steps % 2 == 1
    ensures Reachable(PRESSURE(coin), p.g, p.memory, w) && w.done
    ensures |w.devs| == |p.g| && Sum(Shown(w.devs)) < Beads(p)
  {
    hide Proper, LastInv, PressInv, Reach, Begin, Sum, RisesAt, Score;
    assert exists x :: 0 <= x < |p.memory| && Low(p, x) != {} by { HasLower(p); }
    var v := Busiest(p, |p.memory|);
    assert Best(p, v);
    coin := Patient(Score(p, v, p.steps / 2));
    NotDone(p, coin);
    w := RunToEnd(p, coin, Begin(PRESSURE(coin), p.memory));
    var n: nat :| Reach(PRESSURE(coin), p.g, Begin(PRESSURE(coin), p.memory), w, n);
    LastRuns(p, w, n, v);
    InvOf(p, coin, w);
    PressCorrect(p, coin, w);
    SomeGiven(p, w, v);
  }

  lemma HasLower(p: Setup)
    requires Proper(p) && Rises(p)
    ensures exists x :: 0 <= x < |p.memory| && Low(p, x) != {}
  {
    var u: nat, d: nat :| RisesAt(p, u, d);
    ProperEdges(p, u);
    assert LowerFrom(p, p.g[u][d].to, d, u);
    assert d in Low(p, p.g[u][d].to);
  }

  // The reported pressures are those of the start in every run, whatever the
  // random choices, exactly if the number of steps is even or no edge joins
  // different initial pressures
  lemma ReportsExactly(p: Setup)
    requires Proper(p)
    ensures (forall coin: Coin, w: PressWorld | Reachable(PRESSURE(coin), p.g, p.memory, w) && w.done ::
               Sum(Shown(w.devs)) == Beads(p))
      <==> p.steps % 2 == 0 || !exists u, d :: Uneven(p, u, d)
  {
    hide Proper, Reachable, Sum, Rises;
    RisesExactly(p);
    if p.steps % 2 != 0 && Rises(p) {
      var coin, w := OddLoses(p);
    } else {
      forall coin: Coin, w: PressWorld | Reachable(PRESSURE(coin), p.g, p.memory, w) && w.done
        ensures Sum(Shown(w.devs)) == Beads(p)
      {
        PressCorrect(p, coin, w);
        if p.steps % 2 != 0 {
          FlatShows(p, coin, w);
        }
      }
    }
  }

  lemma FlatShows(p: Setup, coin: Coin, w: PressWorld)
    requires Proper(p) && !Rises(p) && Reachable(PRESSURE(coin), p.g, p.memory, w)
    ensures Sum(Shown(w.devs)) == Beads(p)
  {
    hide Proper, Rises, Sum, Reach, PRESSURE, Begin;
    var n: nat :| Reach(PRESSURE(coin), p.g, Begin(PRESSURE(coin), p.memory), w, n);
    FlatRuns(p, coin, w, n);
    forall v | 0 <= v < |w.devs| ensures w.devs[v].s.pressure == First(p, v) {
      assert Flat(p, w.devs[v], v);
    }
    assert Shown(w.devs) == Shown(p.memory);
  }
}
