// What the random choice is asked: if it says yes from some difference on, then a
// vertex gives to all that have so much less, and 25 beads more; and if it says no
// below, to none that have not.
module PressureShares {
  import opened Vertices
  import opened Pressure

  type PressWorld = World<PressureState, PressureMessage, nat>

  // Yes from this difference on.  That of the source, which compares a number of at
  // most 1 with a 26th of the difference, says yes from 27 on.
  ghost predicate Generous(coin: Coin, limit: int) {
    forall prng: nat, diff: int | diff >= limit :: coin(prng, diff).0
  }

  // Yes only from this difference on
  ghost predicate Sparing(coin: Coin, limit: int) {
    forall prng: nat, diff: int | coin(prng, diff).0 :: diff >= limit
  }

  // Beads that v, the neighbour of u in direction d, shows more than u
  function Lead(p: Setup, devs: seq<PressureDev>, u: nat, d: nat): int {
    if u < |p.g| && d < |p.g[u]| && u < |devs| && p.g[u][d].to < |devs|
    then devs[p.g[u][d].to].s.pressure - devs[u].s.pressure else 0
  }

  ghost predicate Gives(p: Setup, devs: seq<PressureDev>, u: nat, d: nat) {
    u < |p.g| && d < |p.g[u]| && p.g[u][d].to < |devs| && Opposite(d) in devs[p.g[u][d].to].s.move
  }

  // What has been given along the edge that leads from u to a vertex in direction d
  ghost predicate ShareOk(p: Setup, coin: Coin, limit: int, devs: seq<PressureDev>, air: Air, u: nat, d: nat)
    requires u < |devs| == |p.g|
  {
    && (Sparing(coin, limit) && Gives(p, devs, u, d) ==> Lead(p, devs, u, d) >= limit)
    && (d < NUM_NEIGHBOURS && !Unheard(p, devs, air, u, d) && Lead(p, devs, u, d) >= limit + NUM_NEIGHBOURS - 1 ==>
          Generous(coin, limit) ==> Gives(p, devs, u, d))
  }

  ghost predicate SharesOk(p: Setup, coin: Coin, limit: int, w: PressWorld) {
    |w.devs| == |p.g| && (Sharing(p, w.time) ==>
      forall u: nat, d: nat | u < |p.g| :: ShareOk(p, coin, limit, w.devs, w.air, u, d))
  }

  lemma SharesBegin(p: Setup, coin: Coin, limit: int)
    requires Proper(p)
    ensures SharesOk(p, coin, limit, Begin(PRESSURE(coin), p.memory))
  {
    var w := Begin(PRESSURE(coin), p.memory);
    forall v | 0 <= v < |w.devs| ensures w.devs[v] == Init(p.memory[v]) {
    }
  }

  lemma ShareSends(p: Setup, coin: Coin, limit: int, w: PressWorld, w': PressWorld, x: nat)
    requires Proper(p) && PressInv(p, w) && SharesOk(p, coin, limit, w) && Sends(PRESSURE(coin), p.g, w, w', x)
    ensures SharesOk(p, coin, limit, w')
  {
    hide OnEdges, MsgOk, GivenOk, Unheard, Sum, Proper, Ways, SameUnheard;
    var dev := w.devs[x];
    assert DevOk(p, dev, Left(p, w.time));
    var msg := PressureMessage(dev.s.pressure, dev.s.move);
    assert w'.devs == w.devs[x := Dev(No, dev.s)] && w'.air == w.air + OnEdges(p.g[x], 0, msg);
    forall u: nat, d: nat | u < |p.g| && Sharing(p, w.time) ensures ShareOk(p, coin, limit, w'.devs, w'.air, u, d) {
      SendUnheard(p, w.devs, w.air, x, msg, u);
      SameShare(p, coin, limit, w.devs, w.air, w'.devs, w'.air, u, d);
    }
  }

  lemma ShareMode(p: Setup, dev: PressureDev, left: nat)
    requires DevOk(p, dev, left) && (p.steps - left) % 2 == 0
    ensures dev.s.mode == SHARE
  {
  }

  lemma SameShare(p: Setup, coin: Coin, limit: int, devs: seq<PressureDev>, air: Air, devs': seq<PressureDev>,
                  air': Air, u: nat, d: nat)
    requires |devs| == |devs'| == |p.g| && u < |devs| && SameUnheard(p, devs, air, devs', air', u)
    requires forall v | 0 <= v < |devs| :: devs'[v].s == devs[v].s
    requires ShareOk(p, coin, limit, devs, air, u, d)
    ensures ShareOk(p, coin, limit, devs', air', u, d)
  {
    hide Unheard;
  }

  lemma ShareTakes(p: Setup, coin: Coin, limit: int, w: PressWorld, w': PressWorld, m: Msg<PressureMessage, nat>)
    requires limit > 0 && Proper(p) && PressInv(p, w) && SharesOk(p, coin, limit, w)
    requires Receives(PRESSURE(coin), w, w', m)
    ensures SharesOk(p, coin, limit, w')
  {
    hide MsgOk, GivenOk, Unheard, Sum, Proper, Ways, Recv, DevOk, ShareOk;
    var v := m.to;
    assert w'.devs == w.devs[v := Recv(coin, w.devs[v], m.payload, m.edge, Clock(w.time))];
    assert w'.air == w.air - multiset{m};
    assert MsgOk(p, w.devs, w.air, m) && DevOk(p, w.devs[v], Left(p, w.time));
    var s := SenderOf(p, w.devs, w.air, m);
    RecvKeeps(coin, w.devs[v], m.payload, m.edge, Clock(w.time));
    forall u: nat, d: nat | u < |p.g| && Sharing(p, w.time) ensures ShareOk(p, coin, limit, w'.devs, w'.air, u, d) {
      assert ShareOk(p, coin, limit, w.devs, w.air, u, d);
      TakeUnheard(p, w.devs, w.air, w'.devs, m, s, u, d);
      TakeUnheard(p, w.devs, w.air, w'.devs, m, s, s, m.edge);
      if u == s && d == m.edge {
        ShareHeard(p, coin, limit, w, m, u, w'.devs);
      } else {
        ShareMode(p, w.devs[v], Left(p, w.time));
        ShareElsewhere(p, coin, limit, w, m, s, u, d, w'.devs);
      }
    }
  }

  // The directions below n
  function Directions(n: nat): (s: set<nat>)
    ensures |s| == n && forall d: nat :: d in s <==> d < n
  {
    if n == 0 then {} else Directions(n - 1) + {n - 1}
  }

  lemma SmallerSize(a: set<nat>, b: set<nat>)
    requires a <= b
    ensures |a| <= |b|
  {
    assert b == a + (b - a);
  }

  // A vertex that has not given in some direction has given less than 26 beads
  lemma OneLeft(move: set<nat>, d: nat)
    requires d < NUM_NEIGHBOURS && d !in move && forall e | e in move :: e < NUM_NEIGHBOURS
    ensures |move| <= NUM_NEIGHBOURS - 1
  {
    hide Directions;
    var all := Directions(NUM_NEIGHBOURS);
    SmallerSize(move, all - {d});
    assert |all - {d}| == |all| - 1;
  }

  lemma ShareHeard(p: Setup, coin: Coin, limit: int, w: PressWorld, m: Msg<PressureMessage, nat>, u: nat,
                   devs': seq<PressureDev>)
    requires limit > 0 && Proper(p) && Core(p, w.devs, w.air, w.time) && Sharing(p, w.time)
    requires m in w.air && m.Deliver? && m.to < |w.devs| && u < |w.devs| && SentBy(p, w.devs, m, u)
    requires Unheard(p, w.devs, w.air, u, m.edge)
    requires devs' == w.devs[m.to := Recv(coin, w.devs[m.to], m.payload, m.edge, Clock(w.time))]
    ensures ShareOk(p, coin, limit, devs', w.air - multiset{m}, u, m.edge)
  {
    hide MsgOk, Sum, Proper, Ways, Unheard;
    var v, d := m.to, m.edge;
    var dev := w.devs[v];
    assert DevOk(p, dev, Left(p, w.time));
    assert GivenOk(p, w.devs, w.air, u, d);
    ProperEdges(p, u);
    OppositeOffsets(d);
    OneLeft(dev.s.move, Opposite(d));
    assert devs'[u].s.pressure == w.devs[u].s.pressure == m.payload.pressure;
    assert Lead(p, devs', u, d) == dev.s.newPressure + |dev.s.move| - m.payload.pressure;
  }

  lemma OppositeOnce(d: nat, e: nat)
    requires d < NUM_NEIGHBOURS && e < NUM_NEIGHBOURS && Opposite(d) == Opposite(e)
    ensures d == e
  {
  }

  lemma ShareElsewhere(p: Setup, coin: Coin, limit: int, w: PressWorld, m: Msg<PressureMessage, nat>, s: nat,
                       u: nat, d: nat, devs': seq<PressureDev>)
    requires Proper(p) && |w.devs| == |p.g| && u < |p.g| && s < |p.g|
    requires m in w.air && m.Deliver? && m.to < |w.devs| && SentBy(p, w.devs, m, s) && (u != s || d != m.edge)
    requires devs' == w.devs[m.to := Recv(coin, w.devs[m.to], m.payload, m.edge, Clock(w.time))]
    requires Unheard(p, devs', w.air - multiset{m}, u, d) == Unheard(p, w.devs, w.air, u, d)
    requires ShareOk(p, coin, limit, w.devs, w.air, u, d) && w.devs[m.to].s.mode == SHARE
    ensures ShareOk(p, coin, limit, devs', w.air - multiset{m}, u, d)
  {
    hide Proper, Unheard;
    ProperEdges(p, u);
    ProperEdges(p, s);
    if d < NUM_NEIGHBOURS && p.g[u][d].to == m.to && d == m.edge {
      ProperInjective(p, u, s, d);
    }
    if d < NUM_NEIGHBOURS && Opposite(d) == Opposite(m.edge) {
      OppositeOnce(d, m.edge);
    }
    assert Gives(p, devs', u, d) <==> Gives(p, w.devs, u, d);
  }

  lemma ShareSteps(p: Setup, coin: Coin, limit: int, w: PressWorld, w': PressWorld)
    requires Proper(p) && PressInv(p, w) && SharesOk(p, coin, limit, w) && Steps(PRESSURE(coin), w, w')
    ensures SharesOk(p, coin, limit, w')
  {
    hide MsgOk, GivenOk, Sum, Proper, Ways;
    forall v | 0 <= v < |w.devs|
      ensures w'.devs[v] == Step(w.devs[v], Clock(w.time)).0 && DevOk(p, w.devs[v], Left(p, w.time))
    {
    }
    if w.time < p.steps {
      if Sharing(p, w'.time) {
        forall u: nat, d: nat | u < |p.g| ensures ShareOk(p, coin, limit, w'.devs, w'.air, u, d) {
          FreshShare(p, coin, limit, w, w', u, d);
        }
      }
    } else {
      SharingLast(p, w.time);
      assert w'.devs == w.devs;
      forall u: nat, d: nat | u < |p.g| && Sharing(p, w.time) ensures ShareOk(p, coin, limit, w'.devs, w'.air, u, d) {
        assert ShareOk(p, coin, limit, w.devs, w.air, u, d);
      }
    }
  }

  // At the start of a phase nothing has been given, and nobody has been heard
  lemma FreshShare(p: Setup, coin: Coin, limit: int, w: PressWorld, w': PressWorld, u: nat, d: nat)
    requires |w.devs| == |w'.devs| == |p.g| && u < |p.g| && w.time < p.steps && w'.time == w.time + 1
    requires Sharing(p, w'.time) && Proper(p)
    requires forall v | 0 <= v < |w.devs| ::
      w'.devs[v] == Step(w.devs[v], Clock(w.time)).0 && DevOk(p, w.devs[v], Left(p, w.time))
    ensures ShareOk(p, coin, limit, w'.devs, w'.air, u, d)
  {
    hide Proper;
    ProperEdges(p, u);
    OtherParity(w.time);
    assert DevOk(p, w.devs[u], Left(p, w.time));
    if d < NUM_NEIGHBOURS {
      assert DevOk(p, w.devs[p.g[u][d].to], Left(p, w.time));
    }
  }

  lemma ShareReplies(p: Setup, coin: Coin, limit: int, w: PressWorld, w': PressWorld, x: nat)
    requires SharesOk(p, coin, limit, w) && Replies(PRESSURE(coin), w, w', x)
    ensures SharesOk(p, coin, limit, w')
  {
    hide Unheard, SameUnheard;
    var r := PressureMessage(w.devs[x].s.pressure, {});
    assert w'.devs == w.devs && w'.air == w.air + multiset{ToHost(r)};
    forall u: nat, d: nat | u < |p.g| && Sharing(p, w.time) ensures ShareOk(p, coin, limit, w'.devs, w'.air, u, d) {
      ReplyUnheard(p, w.devs, w.air, r, u);
      SameShare(p, coin, limit, w.devs, w.air, w'.devs, w'.air, u, d);
    }
  }

  lemma ShareEnds(p: Setup, coin: Coin, limit: int, w: PressWorld, w': PressWorld)
    requires SharesOk(p, coin, limit, w) && Ends(w, w')
    ensures SharesOk(p, coin, limit, w')
  {
    hide Unheard, Quiet;
    forall u: nat, d: nat | u < |p.g| && Sharing(p, w.time) ensures ShareOk(p, coin, limit, w'.devs, w'.air, u, d) {
      assert ShareOk(p, coin, limit, w.devs, w.air, u, d);
    }
  }

  lemma {:induction false} ShareRuns(p: Setup, coin: Coin, limit: int, w: PressWorld, n: nat)
    requires limit > 0 && Proper(p) && Reach(PRESSURE(coin), p.g, Begin(PRESSURE(coin), p.memory), w, n)
    ensures SharesOk(p, coin, limit, w)
    decreases n
  {
    hide Proper, PressInv, SharesOk, Begin, Sends, Receives, Replies, Steps, PRESSURE, Generous, Sparing;
    if n == 0 {
      SharesBegin(p, coin, limit);
    } else {
      var v :| Reach(PRESSURE(coin), p.g, Begin(PRESSURE(coin), p.memory), v, n - 1) && Next(PRESSURE(coin), p.g, v, w);
      ShareRuns(p, coin, limit, v, n - 1);
      PressRuns(p, coin, v, n - 1);
      if d: nat :| Sends(PRESSURE(coin), p.g, v, w, d) {
        ShareSends(p, coin, limit, v, w, d);
      } else if m :| Receives(PRESSURE(coin), v, w, m) {
        ShareTakes(p, coin, limit, v, w, m);
      } else if d: nat :| Replies(PRESSURE(coin), v, w, d) {
        ShareReplies(p, coin, limit, v, w, d);
      } else if Steps(PRESSURE(coin), v, w) {
        ShareSteps(p, coin, limit, v, w);
      } else {
        ShareEnds(p, coin, limit, v, w);
      }
    }
  }

  // Whatever the order of deliveries: when nothing is left to do in a phase of
  // sharing, a vertex has given a bead for every neighbour that showed less by the
  // limit and 25 more, if the coin is generous, and none for those that showed less
  // by less than the limit, if it is sparing
  lemma SharesDecided(p: Setup, coin: Coin, limit: int, w: PressWorld, u: nat, d: nat)
    requires limit > 0 && Proper(p) && Reachable(PRESSURE(coin), p.g, p.memory, w) && Quiet(w) && Sharing(p, w.time)
    requires u < |p.g| && d < NUM_NEIGHBOURS
    ensures |w.devs| == |p.g| && d < |p.g[u]| && p.g[u][d].to < |w.devs|
    ensures var v := p.g[u][d].to;
      var lead := w.devs[v].s.pressure - w.devs[u].s.pressure;
      && (Generous(coin, limit) && lead >= limit + NUM_NEIGHBOURS - 1 ==> Opposite(d) in w.devs[v].s.move)
      && (Sparing(coin, limit) && lead < limit ==> Opposite(d) !in w.devs[v].s.move)
  {
    hide Proper, Reach, Begin, PRESSURE, Generous, Sparing;
    var n: nat :| Reach(PRESSURE(coin), p.g, Begin(PRESSURE(coin), p.memory), w, n);
    ShareRuns(p, coin, limit, w, n);
    ProperEdges(p, u);
    assert ShareOk(p, coin, limit, w.devs, w.air, u, d);
    assert !Unheard(p, w.devs, w.air, u, d);
  }
}
