// Discrete pressure: in turns, devices decide which beads to give away and
// give them away.  Whatever the random choices, no bead is lost or made.
module Pressure {
  import opened Vertices

  // Neighbours of a device
  const NUM_NEIGHBOURS: nat := 26

  datatype Mode = SHARE | MOVE

  // The move vector is the set of directions of its one bits
  datatype PressureMessage = PressureMessage(pressure: int, move: set<nat>)

  datatype PressureState = PressureState(
    mode: Mode,
    // Steps to go
    numSteps: nat,
    // Beads now, and at the end of the step
    pressure: int, newPressure: int,
    move: set<nat>,
    prng: nat)

  type PressureDev = Dev<PressureState>

  // The direction half way round
  function Opposite(dir: nat): nat {
    var newDir := dir + NUM_NEIGHBOURS / 2;
    if newDir >= NUM_NEIGHBOURS then newDir - NUM_NEIGHBOURS else newDir
  }

  // The random choice, from the seed and the difference in pressure: whether to
  // give a bead away, and the next seed
  type Coin = (nat, int) -> (bool, nat)

  function Init(dev: PressureDev): PressureDev {
    Dev(Out(0), dev.s.(mode := SHARE, newPressure := dev.s.pressure))
  }

  function Send(dev: PressureDev, time: nat): (PressureDev, PressureMessage) {
    (Dev(No, dev.s), PressureMessage(dev.s.pressure, dev.s.move))
  }

  function Recv(coin: Coin, dev: PressureDev, m: PressureMessage, dir: nat, time: nat): PressureDev {
    var s := dev.s;
    if s.mode == SHARE then
      if s.newPressure > m.pressure then
        var toss := coin(s.prng, s.newPressure - m.pressure);
        if toss.0
        then dev.(s := s.(prng := toss.1, move := s.move + {Opposite(dir)}, newPressure := s.newPressure - 1))
        else dev.(s := s.(prng := toss.1))
      else dev
    else if dir in m.move then dev.(s := s.(newPressure := s.newPressure + 1))
    else dev
  }

  function Step(dev: PressureDev, time: nat): (PressureDev, bool) {
    var s := dev.s;
    if s.numSteps > 0 then
      (Dev(Out(0), PressureState(if s.mode == SHARE then MOVE else SHARE, s.numSteps - 1, s.newPressure, s.newPressure,
                                 if s.mode == SHARE then s.move else {}, s.prng)), true)
    else (Dev(No, s), false)
  }

  function Finish(dev: PressureDev, time: nat): (PressureDev, Reply<PressureMessage>) {
    (dev, Says(PressureMessage(dev.s.pressure, {})))
  }

  function PRESSURE(coin: Coin): App<PressureState, PressureMessage, nat> {
    App(Init, Send, (dev, m, dir, time) => Recv(coin, dev, m, dir, time), Step, Finish)
  }

  class PressureDevice {
    var s: PressureState
    var readyToSend: Pin

    function View(): PressureDev
      reads this
    {
      Dev(readyToSend, s)
    }

    constructor (s: PressureState)
      ensures View() == Dev(No, s)
    {
      this.s, readyToSend := s, No;
    }

    method CallRecv(coin: Coin, msg: PressureMessage, dir: nat, time: nat)
      modifies this
      ensures View() == old(Recv(coin, View(), msg, dir, time))
    {
      if s.mode == SHARE {
        var diff := s.newPressure - msg.pressure;
        if diff > 0 {
          var toss := coin(s.prng, diff);
          s := s.(prng := toss.1);
          if toss.0 {
            s := s.(move := s.move + {Opposite(dir)});
            s := s.(newPressure := s.newPressure - 1);
          }
        }
      } else if dir in msg.move {
        s := s.(newPressure := s.newPressure + 1);
      }
    }

    method CallStep(time: nat) returns (again: bool)
      modifies this
      ensures (View(), again) == old(Step(View(), time))
    {
      if s.numSteps > 0 {
        s := s.(pressure := s.newPressure);
        s := s.(mode := if s.mode == SHARE then MOVE else SHARE);
        if s.mode == SHARE {
          s := s.(move := {});
        }
        readyToSend := Out(0);
        s := s.(numSteps := s.numSteps - 1);
        again := true;
      } else {
        readyToSend := No;
        again := false;
      }
    }
  }

  // ---------------------------------------------------------------------

  datatype Setup = Setup(g: Graph<nat>, memory: seq<PressureDev>, steps: nat)

  // Every device has one out-edge and at most one in-edge for each direction
  ghost predicate Proper(p: Setup) {
    && |p.g| == |p.memory| && p.g != [] && Wellformed(p.g)
    && (forall u | 0 <= u < |p.g| ::
          |p.g[u]| == NUM_NEIGHBOURS && forall d | 0 <= d < NUM_NEIGHBOURS :: p.g[u][d].pin == 0 && p.g[u][d].edge == d)
    && (forall u, u', d | 0 <= u < |p.g| && 0 <= u' < |p.g| && 0 <= d < NUM_NEIGHBOURS ::
          p.g[u][d].to == p.g[u'][d].to ==> u == u')
    && (forall v | 0 <= v < |p.g| ::
          p.memory[v].s.numSteps == p.steps && p.memory[v].s.pressure >= 0 && p.memory[v].s.move == {})
  }

  ghost function Sum(s: seq<int>): int {
    if s == [] then 0 else Sum(s[..|s| - 1]) + s[|s| - 1]
  }

  lemma {:induction false} SumUpdate(s: seq<int>, i: nat, x: int)
    requires i < |s|
    ensures Sum(s[i := x]) == Sum(s) - s[i] + x
    decreases |s|
  {
    var n := |s| - 1;
    if i < n {
      SumUpdate(s[..n], i, x);
      assert s[i := x][..n] == s[..n][i := x];
    } else {
      assert s[i := x][..n] == s[..n];
    }
  }

  lemma {:induction false} SumPlus(a: seq<int>, b: seq<int>, c: seq<int>)
    requires |a| == |b| == |c| && forall i | 0 <= i < |a| :: c[i] == a[i] + b[i]
    ensures Sum(c) == Sum(a) + Sum(b)
    decreases |a|
  {
    if a != [] {
      var n := |a| - 1;
      SumPlus(a[..n], b[..n], c[..n]);
    }
  }

  lemma {:induction false} SumZero(s: seq<int>)
    requires forall i | 0 <= i < |s| :: s[i] == 0
    ensures Sum(s) == 0
    decreases |s|
  {
    if s != [] {
      SumZero(s[..|s| - 1]);
    }
  }

  ghost function Held(devs: seq<PressureDev>): seq<int> {
    seq(|devs|, v requires 0 <= v < |devs| => devs[v].s.newPressure)
  }

  ghost function Shown(devs: seq<PressureDev>): seq<int> {
    seq(|devs|, v requires 0 <= v < |devs| => devs[v].s.pressure)
  }

  ghost function Given(devs: seq<PressureDev>): seq<int> {
    seq(|devs|, v requires 0 <= v < |devs| => |devs[v].s.move|)
  }

  ghost function Beads(p: Setup): int { Sum(Shown(p.memory)) }

  type Air = multiset<Msg<PressureMessage, nat>>

  // A message with this direction is on its way to v
  ghost predicate Flying(air: Air, v: nat, d: nat) {
    exists m :: m in air && m.Deliver? && m.to == v && m.edge == d
  }

  // The neighbour of u in direction d has not heard from u in this time step
  ghost predicate Unheard(p: Setup, devs: seq<PressureDev>, air: Air, u: nat, d: nat)
    requires u < |devs| == |p.g|
  {
    d < |p.g[u]| && (devs[u].rts != No || Flying(air, p.g[u][d].to, d))
  }

  // Directions in which u has given beads that have not arrived
  ghost function OnTheWay(p: Setup, devs: seq<PressureDev>, air: Air, u: nat): set<nat>
    requires u < |devs| == |p.g|
  {
    set d | d in devs[u].s.move && Unheard(p, devs, air, u, d)
  }

  ghost function Ways(p: Setup, devs: seq<PressureDev>, air: Air): seq<int>
    requires |devs| == |p.g|
  {
    seq(|devs|, u requires 0 <= u < |devs| => |OnTheWay(p, devs, air, u)|)
  }

  // Each message in flight is the only one of its edge, and tells the truth
  ghost predicate MsgOk(p: Setup, devs: seq<PressureDev>, air: Air, m: Msg<PressureMessage, nat>)
    requires |devs| == |p.g| && m.Deliver?
  {
    && air[m] == 1
    && (forall c | c in air && c.Deliver? && c.to == m.to && c.edge == m.edge :: c == m)
    && m.edge < NUM_NEIGHBOURS
    && exists u: nat :: u < |p.g| && SentBy(p, devs, m, u)
  }

  ghost predicate SentBy(p: Setup, devs: seq<PressureDev>, m: Msg<PressureMessage, nat>, u: nat)
    requires |devs| == |p.g| && m.Deliver? && u < |p.g|
  {
    && m.edge < |p.g[u]| && p.g[u][m.edge].to == m.to && devs[u].rts == No
    && m.payload.pressure == devs[u].s.pressure
    && (devs[u].s.mode == MOVE ==> m.payload.move == devs[u].s.move)
  }

  // Beads are only given where the answer has come in, in the SHARE phase
  ghost predicate GivenOk(p: Setup, devs: seq<PressureDev>, air: Air, u: nat, d: nat)
    requires u < |devs| == |p.g|
  {
    d < |p.g[u]| && p.g[u][d].to < |devs| && Opposite(d) in devs[p.g[u][d].to].s.move ==>
      !Unheard(p, devs, air, u, d)
  }

  ghost predicate DevOk(p: Setup, dev: PressureDev, left: nat) {
    var s := dev.s;
    && (dev.rts == No || dev.rts == Out(0))
    && s.numSteps == left && s.pressure >= 0 && s.newPressure >= 0
    && (s.mode == SHARE <==> (p.steps - left) % 2 == 0)
    && (s.mode == SHARE ==> s.newPressure + |s.move| == s.pressure)
    && forall d | d in s.move :: d < NUM_NEIGHBOURS
  }

  function Left(p: Setup, time: nat): nat { if time < p.steps then p.steps - time else 0 }

  predicate Sharing(p: Setup, time: nat) { (p.steps - Left(p, time)) % 2 == 0 }

  ghost predicate Core(p: Setup, devs: seq<PressureDev>, air: Air, time: nat) {
    && |devs| == |p.g|
    && (forall v | 0 <= v < |devs| :: DevOk(p, devs[v], Left(p, time)))
    && (forall m | m in air && m.Deliver? :: MsgOk(p, devs, air, m))
    && (if Sharing(p, time) then
          && Sum(Shown(devs)) == Beads(p)
          && (forall u: nat, d: nat | u < |p.g| :: GivenOk(p, devs, air, u, d))
        else
          && Sum(Shown(devs)) + Sum(Given(devs)) == Beads(p)
          && Sum(Held(devs)) + Sum(Ways(p, devs, air)) == Beads(p))
  }

  ghost predicate PressInv(p: Setup, w: World<PressureState, PressureMessage, nat>) {
    && Core(p, w.devs, w.air, w.time)
    && (!w.active ==> w.time > p.steps) && (w.done ==> !w.active)
  }

  // ---------------------------------------------------------------------

  lemma PressBegins(p: Setup, coin: Coin)
    requires Proper(p)
    ensures PressInv(p, Begin(PRESSURE(coin), p.memory))
  {
    var w := Begin(PRESSURE(coin), p.memory);
    forall v | 0 <= v < |w.devs| ensures w.devs[v] == Init(p.memory[v]) {
    }
    assert Shown(w.devs) == Shown(p.memory);
  }

  // The order of directions in which the edges are made: all offsets between
  // -1 and 1 but the zero offset, in lexicographic order
  function Offset(dir: nat): (int, int, int) {
    var i := if dir < 13 then dir else dir + 1;
    (i / 9 - 1, i / 3 % 3 - 1, i % 3 - 1)
  }

  // Read as offsets, the opposite of a direction is in general not where it
  // came from: beads go to some other neighbour, but are not lost
  lemma OppositeOffsets(dir: nat)
    requires dir < NUM_NEIGHBOURS
    ensures Opposite(dir) < NUM_NEIGHBOURS && Opposite(Opposite(dir)) == dir
    ensures var o := Offset(dir);
      Offset(Opposite(dir)) == (-o.0, -o.1, -o.2) <==> (dir == 6 || dir == 19)
  {
  }

  // ---------------------------------------------------------------------
  // Sending changes who has messages on the way, but not who is unheard

  lemma {:induction false} OnEdgesOnce(edges: seq<Edge<nat>>, msg: PressureMessage, m: Msg<PressureMessage, nat>)
    requires forall i | 0 <= i < |edges| :: edges[i].edge == i
    ensures OnEdges(edges, 0, msg)[m] <= 1
    ensures m in OnEdges(edges, 0, msg) ==>
      m.Deliver? && m.payload == msg && m.edge < |edges| && edges[m.edge].to == m.to
    decreases |edges|
  {
    if edges != [] {
      OnEdgesOnce(edges[..|edges| - 1], msg, m);
    }
  }

  lemma {:induction false} OnEdgesEach(edges: seq<Edge<nat>>, msg: PressureMessage, d: nat)
    requires d < |edges| && edges[d].pin == 0
    ensures Deliver(edges[d].to, edges[d].edge, msg) in OnEdges(edges, 0, msg)
    decreases |edges|
  {
    if d < |edges| - 1 {
      OnEdgesEach(edges[..|edges| - 1], msg, d);
    }
  }

  ghost predicate SameUnheard(p: Setup, devs: seq<PressureDev>, air: Air, devs': seq<PressureDev>, air': Air, u: nat)
    requires u < |devs| == |devs'| == |p.g|
  {
    forall d: nat :: Unheard(p, devs', air', u, d) == Unheard(p, devs, air, u, d)
  }

  // A change that leaves all unheard directions, vectors and pressures as they are
  lemma SameWays(p: Setup, devs: seq<PressureDev>, air: Air, devs': seq<PressureDev>, air': Air)
    requires |devs| == |devs'| == |p.g|
    requires forall u | 0 <= u < |devs| :: devs'[u].s == devs[u].s && SameUnheard(p, devs, air, devs', air', u)
    ensures Ways(p, devs', air') == Ways(p, devs, air) && Held(devs') == Held(devs)
    ensures Shown(devs') == Shown(devs) && Given(devs') == Given(devs)
    ensures forall u: nat, d: nat | u < |p.g| :: GivenOk(p, devs', air', u, d) == GivenOk(p, devs, air, u, d)
  {
    hide Unheard;
    forall u | 0 <= u < |devs| ensures OnTheWay(p, devs', air', u) == OnTheWay(p, devs, air, u) {
    }
    assert Ways(p, devs', air') == Ways(p, devs, air);
    forall u: nat, d: nat | u < |p.g| ensures GivenOk(p, devs', air', u, d) == GivenOk(p, devs, air, u, d) {
      assert SameUnheard(p, devs, air, devs', air', u);
    }
  }

  lemma SendUnheard(p: Setup, devs: seq<PressureDev>, air: Air, d: nat, msg: PressureMessage, u: nat)
    requires Proper(p) && |devs| == |p.g| && d < |devs| && devs[d].rts != No && u < |devs|
    ensures SameUnheard(p, devs, air, devs[d := Dev(No, devs[d].s)], air + OnEdges(p.g[d], 0, msg), u)
  {
    hide OnEdges;
    var devs', air' := devs[d := Dev(No, devs[d].s)], air + OnEdges(p.g[d], 0, msg);
    forall e: nat ensures Unheard(p, devs', air', u, e) == Unheard(p, devs, air, u, e) {
      if e < NUM_NEIGHBOURS {
        var v := p.g[u][e].to;
        if u == d {
          OnEdgesEach(p.g[d], msg, e);
          assert Deliver(v, e, msg) in air';
        } else {
          if m :| m in air' && m.Deliver? && m.to == v && m.edge == e {
            OnEdgesOnce(p.g[d], msg, m);
          }
          if m :| m in air && m.Deliver? && m.to == v && m.edge == e {
            assert m in air';
          }
        }
      }
    }
  }

  lemma SendMsgs(p: Setup, devs: seq<PressureDev>, air: Air, d: nat, m: Msg<PressureMessage, nat>)
    requires Proper(p) && |devs| == |p.g| && d < |devs| && devs[d].rts != No
    requires forall c | c in air && c.Deliver? :: MsgOk(p, devs, air, c)
    requires var msg := PressureMessage(devs[d].s.pressure, devs[d].s.move);
      m in air + OnEdges(p.g[d], 0, msg) && m.Deliver?
    ensures var msg := PressureMessage(devs[d].s.pressure, devs[d].s.move);
      MsgOk(p, devs[d := Dev(No, devs[d].s)], air + OnEdges(p.g[d], 0, msg), m)
  {
    hide OnEdges, Proper;
    var msg := PressureMessage(devs[d].s.pressure, devs[d].s.move);
    var more := OnEdges(p.g[d], 0, msg);
    var devs' := devs[d := Dev(No, devs[d].s)];
    ProperEdges(p, d);
    forall c | c in air && c.Deliver? ensures c !in more && !(exists x :: x in more && x.Deliver? && x.to == c.to && x.edge == c.edge) {
      assert MsgOk(p, devs, air, c);
      var u: nat :| u < |p.g| && SentBy(p, devs, c, u);
      forall x | x in more && x.Deliver? && x.to == c.to && x.edge == c.edge ensures false {
        OnEdgesOnce(p.g[d], msg, x);
        ProperInjective(p, u, d, c.edge);
      }
    }
    OnEdgesOnce(p.g[d], msg, m);
    if m in more {
      forall c | c in air + more && c.Deliver? && c.to == m.to && c.edge == m.edge ensures c == m {
        OnEdgesOnce(p.g[d], msg, c);
      }
      assert SentBy(p, devs', m, d);
    } else {
      var u: nat :| u < |p.g| && SentBy(p, devs, m, u);
      assert SentBy(p, devs', m, u);
    }
  }

  lemma ProperEdges(p: Setup, u: nat)
    requires Proper(p) && u < |p.g|
    ensures |p.g[u]| == NUM_NEIGHBOURS && forall d | 0 <= d < NUM_NEIGHBOURS ::
      p.g[u][d].pin == 0 && p.g[u][d].edge == d && p.g[u][d].to < |p.g|
  {
  }

  lemma ProperInjective(p: Setup, u: nat, u': nat, d: nat)
    requires Proper(p) && u < |p.g| && u' < |p.g| && d < NUM_NEIGHBOURS
    requires d < |p.g[u]| && d < |p.g[u']| && p.g[u][d].to == p.g[u'][d].to
    ensures u == u'
  {
  }

  lemma PressSends(p: Setup, coin: Coin, w: World<PressureState, PressureMessage, nat>,
                   w': World<PressureState, PressureMessage, nat>, d: nat)
    requires Proper(p) && PressInv(p, w) && Sends(PRESSURE(coin), p.g, w, w', d)
    ensures PressInv(p, w')
  {
    hide OnEdges, MsgOk, GivenOk, Unheard, Sum, Proper, Ways, SameUnheard;
    var dev := w.devs[d];
    assert DevOk(p, dev, Left(p, w.time));
    var msg := PressureMessage(dev.s.pressure, dev.s.move);
    assert w'.devs == w.devs[d := Dev(No, dev.s)] && w'.air == w.air + OnEdges(p.g[d], 0, msg);
    forall u | 0 <= u < |w.devs|
      ensures w'.devs[u].s == w.devs[u].s && SameUnheard(p, w.devs, w.air, w'.devs, w'.air, u)
    {
      SendUnheard(p, w.devs, w.air, d, msg, u);
    }
    SameWays(p, w.devs, w.air, w'.devs, w'.air);
    forall m | m in w'.air && m.Deliver? ensures MsgOk(p, w'.devs, w'.air, m) {
      SendMsgs(p, w.devs, w.air, d, m);
    }
  }

  // ---------------------------------------------------------------------
  // Receiving

  // Taking a message makes one direction heard
  lemma TakeUnheard(p: Setup, devs: seq<PressureDev>, air: Air, devs': seq<PressureDev>, m: Msg<PressureMessage, nat>,
                    s: nat, u: nat, d: nat)
    requires Proper(p) && |devs| == |devs'| == |p.g| && m in air && m.Deliver? && MsgOk(p, devs, air, m)
    requires s < |devs| && SentBy(p, devs, m, s) && u < |devs| && devs'[u].rts == devs[u].rts
    ensures Unheard(p, devs', air - multiset{m}, u, d)
      == (Unheard(p, devs, air, u, d) && !(u == s && d == m.edge))
    ensures Unheard(p, devs, air, s, m.edge)
  {
    hide Proper;
    ProperEdges(p, u);
    ProperEdges(p, s);
    if d < NUM_NEIGHBOURS && devs[u].rts == No {
      var v := p.g[u][d].to;
      if c :| c in air && c.Deliver? && c.to == v && c.edge == d {
        if c == m {
          ProperInjective(p, u, s, d);
        } else {
          assert c in air - multiset{m};
        }
      }
      if u == s && d == m.edge {
        assert !Flying(air - multiset{m}, v, d);
      }
    }
  }

  // What messages say about their sender does not change
  predicate Alike(dev: PressureDev, dev': PressureDev) {
    && dev'.rts == dev.rts && dev'.s.pressure == dev.s.pressure && dev'.s.mode == dev.s.mode
    && (dev.s.mode == MOVE ==> dev'.s.move == dev.s.move)
  }

  lemma TakeMsgs(p: Setup, devs: seq<PressureDev>, air: Air, devs': seq<PressureDev>, m: Msg<PressureMessage, nat>,
                 c: Msg<PressureMessage, nat>)
    requires |devs| == |devs'| == |p.g| && m in air && m.Deliver? && MsgOk(p, devs, air, m)
    requires c in air - multiset{m} && c.Deliver? && MsgOk(p, devs, air, c)
    requires forall u | 0 <= u < |devs| :: Alike(devs[u], devs'[u])
    ensures MsgOk(p, devs', air - multiset{m}, c)
  {
    var u: nat :| u < |p.g| && SentBy(p, devs, c, u);
    assert SentBy(p, devs', c, u);
    assert c != m;
  }

  // What receiving keeps of a device
  lemma RecvKeeps(coin: Coin, dev: PressureDev, m: PressureMessage, d: nat, time: nat)
    ensures var dev' := Recv(coin, dev, m, d, time);
      Alike(dev, dev') && dev'.s.numSteps == dev.s.numSteps
  {
  }

  lemma PressReceives(p: Setup, coin: Coin, w: World<PressureState, PressureMessage, nat>,
                      w': World<PressureState, PressureMessage, nat>, m: Msg<PressureMessage, nat>)
    requires Proper(p) && PressInv(p, w) && Receives(PRESSURE(coin), w, w', m)
    ensures PressInv(p, w')
  {
    hide MsgOk, GivenOk, Unheard, Sum, Proper, Ways, Recv, DevOk;
    var v := m.to;
    var dev' := Recv(coin, w.devs[v], m.payload, m.edge, Clock(w.time));
    assert w'.devs == w.devs[v := dev'] && w'.air == w.air - multiset{m};
    RecvKeeps(coin, w.devs[v], m.payload, m.edge, Clock(w.time));
    forall c | c in w'.air && c.Deliver? ensures MsgOk(p, w'.devs, w'.air, c) {
      TakeMsgs(p, w.devs, w.air, w'.devs, m, c);
    }
    var u := SenderOf(p, w.devs, w.air, m);
    if Sharing(p, w.time) {
      ShareReceives(p, coin, w, m, u);
    } else {
      MoveReceives(p, coin, w, m, u);
    }
    assert Shown(w'.devs) == Shown(w.devs);
  }

  lemma SenderOf(p: Setup, devs: seq<PressureDev>, air: Air, m: Msg<PressureMessage, nat>) returns (u: nat)
    requires |devs| == |p.g| && m.Deliver? && MsgOk(p, devs, air, m)
    ensures u < |p.g| && SentBy(p, devs, m, u)
  {
    u :| u < |p.g| && SentBy(p, devs, m, u);
  }

  lemma ShareReceives(p: Setup, coin: Coin, w: World<PressureState, PressureMessage, nat>, m: Msg<PressureMessage, nat>,
                      u: nat)
    requires Proper(p) && Core(p, w.devs, w.air, w.time) && Sharing(p, w.time)
    requires m in w.air && m.Deliver? && m.to < |w.devs| && u < |w.devs| && SentBy(p, w.devs, m, u)
    ensures var devs' := w.devs[m.to := Recv(coin, w.devs[m.to], m.payload, m.edge, Clock(w.time))];
      && (forall x | 0 <= x < |devs'| :: DevOk(p, devs'[x], Left(p, w.time)))
      && (forall x: nat, d: nat | x < |p.g| :: GivenOk(p, devs', w.air - multiset{m}, x, d))
  {
    hide MsgOk, Sum, Proper, Ways, Unheard;
    var v := m.to;
    var dev := w.devs[v];
    var dev' := Recv(coin, dev, m.payload, m.edge, Clock(w.time));
    var devs' := w.devs[v := dev'];
    assert DevOk(p, dev, Left(p, w.time)) && DevOk(p, w.devs[u], Left(p, w.time));
    assert MsgOk(p, w.devs, w.air, m);
    ProperEdges(p, u);
    TakeUnheard(p, w.devs, w.air, devs', m, u, u, m.edge);
    assert GivenOk(p, w.devs, w.air, u, m.edge);
    OppositeOffsets(m.edge);
    forall x: nat, d: nat | x < |p.g| ensures GivenOk(p, devs', w.air - multiset{m}, x, d) {
      ProperEdges(p, x);
      TakeUnheard(p, w.devs, w.air, devs', m, u, x, d);
      assert GivenOk(p, w.devs, w.air, x, d);
      if d < NUM_NEIGHBOURS {
        OppositeOffsets(d);
        if d == m.edge && p.g[x][d].to == v {
          ProperInjective(p, x, u, d);
        }
      }
    }
  }

  lemma MoveReceives(p: Setup, coin: Coin, w: World<PressureState, PressureMessage, nat>, m: Msg<PressureMessage, nat>,
                     u: nat)
    requires Proper(p) && Core(p, w.devs, w.air, w.time) && !Sharing(p, w.time)
    requires m in w.air && m.Deliver? && m.to < |w.devs| && u < |w.devs| && SentBy(p, w.devs, m, u)
    ensures var devs' := w.devs[m.to := Recv(coin, w.devs[m.to], m.payload, m.edge, Clock(w.time))];
      && (forall x | 0 <= x < |devs'| :: DevOk(p, devs'[x], Left(p, w.time)))
      && Given(devs') == Given(w.devs)
      && Sum(Held(devs')) + Sum(Ways(p, devs', w.air - multiset{m})) == Beads(p)
  {
    hide MsgOk, Sum, Proper, Unheard, Ways, Recv, DevOk;
    var v := m.to;
    var dev := w.devs[v];
    var dev' := Recv(coin, dev, m.payload, m.edge, Clock(w.time));
    var devs', air' := w.devs[v := dev'], w.air - multiset{m};
    MoveRecv(p, coin, dev, m.payload, m.edge, Clock(w.time), Left(p, w.time));
    MoveMode(p, w.devs[u], Left(p, w.time));
    assert MsgOk(p, w.devs, w.air, m);
    forall x: nat | x < |p.g|
      ensures OnTheWay(p, devs', air', x) == OnTheWay(p, w.devs, w.air, x) - (if x == u then {m.edge} else {})
    {
      forall d ensures Unheard(p, devs', air', x, d)
        == (Unheard(p, w.devs, w.air, x, d) && !(x == u && d == m.edge))
      {
        TakeUnheard(p, w.devs, w.air, devs', m, u, x, d);
      }
    }
    TakeUnheard(p, w.devs, w.air, devs', m, u, u, m.edge);
    MoveSums(p, w.devs, w.air, devs', air', u, v, m.edge);
    assert Given(devs') == Given(w.devs);
  }

  lemma MoveMode(p: Setup, dev: PressureDev, left: nat)
    requires DevOk(p, dev, left) && (p.steps - left) % 2 != 0
    ensures dev.s.mode == MOVE
  {
  }

  lemma MoveRecv(p: Setup, coin: Coin, dev: PressureDev, m: PressureMessage, d: nat, time: nat, left: nat)
    requires DevOk(p, dev, left) && (p.steps - left) % 2 != 0
    ensures var dev' := Recv(coin, dev, m, d, time);
      && DevOk(p, dev', left) && dev'.rts == dev.rts && dev'.s.move == dev.s.move
      && dev'.s.newPressure == dev.s.newPressure + if d in m.move then 1 else 0
  {
    MoveMode(p, dev, left);
  }

  lemma MoveSums(p: Setup, devs: seq<PressureDev>, air: Air, devs': seq<PressureDev>, air': Air, u: nat, v: nat, e: nat)
    requires |devs| == |devs'| == |p.g| && u < |devs| && v < |devs| && devs' == devs[v := devs'[v]]
    requires forall x: nat | x < |p.g| ::
      OnTheWay(p, devs', air', x) == OnTheWay(p, devs, air, x) - (if x == u then {e} else {})
    requires devs'[v].s.newPressure == devs[v].s.newPressure + if e in OnTheWay(p, devs, air, u) then 1 else 0
    ensures Sum(Held(devs')) + Sum(Ways(p, devs', air')) == Sum(Held(devs)) + Sum(Ways(p, devs, air))
  {
    hide OnTheWay, Sum;
    var ways := Ways(p, devs, air);
    assert OnTheWay(p, devs', air', u) == OnTheWay(p, devs, air, u) - {e};
    var n := |OnTheWay(p, devs', air', u)|;
    assert Ways(p, devs', air') == ways[u := n];
    SumUpdate(ways, u, n);
    assert Held(devs') == Held(devs)[v := devs'[v].s.newPressure];
    SumUpdate(Held(devs), v, devs'[v].s.newPressure);
  }

  // ---------------------------------------------------------------------
  // Global steps

  lemma QuietWays(p: Setup, devs: seq<PressureDev>, air: Air)
    requires |devs| == |p.g| && forall v | 0 <= v < |devs| :: devs[v].rts == No
    requires forall m | m in air :: m.ToHost?
    ensures Sum(Ways(p, devs, air)) == 0
  {
    forall u | 0 <= u < |devs| ensures OnTheWay(p, devs, air, u) == {} {
    }
    SumZero(Ways(p, devs, air));
  }

  // When everybody is about to send, all given beads are on the way
  lemma AllWays(p: Setup, devs: seq<PressureDev>, air: Air)
    requires Proper(p) && |devs| == |p.g| && forall v | 0 <= v < |devs| :: devs[v].rts != No
    requires forall v | 0 <= v < |devs| :: forall d | d in devs[v].s.move :: d < NUM_NEIGHBOURS
    ensures Ways(p, devs, air) == Given(devs)
  {
    forall u | 0 <= u < |devs| ensures OnTheWay(p, devs, air, u) == devs[u].s.move {
      ProperEdges(p, u);
    }
  }

  lemma PressSteps(p: Setup, coin: Coin, w: World<PressureState, PressureMessage, nat>,
                   w': World<PressureState, PressureMessage, nat>)
    requires Proper(p) && PressInv(p, w) && Steps(PRESSURE(coin), w, w')
    ensures PressInv(p, w')
  {
    hide MsgOk, GivenOk, Unheard, Sum, Proper, Ways, DevOk, Sharing;
    forall v | 0 <= v < |w.devs| ensures w'.devs[v] == Step(w.devs[v], Clock(w.time)).0 {
    }
    if w.time < p.steps {
      StepMoves(p, w, w');
    } else {
      assert w'.devs == w.devs by {
        forall v | 0 <= v < |w.devs| ensures w'.devs[v] == w.devs[v] {
          assert DevOk(p, w.devs[v], Left(p, w.time));
          StepLast(p, w.devs[v], Clock(w.time));
        }
      }
      assert Left(p, w'.time) == Left(p, w.time);
      SharingLast(p, w.time);
    }
    assert w.time <= p.steps ==> w'.active || w'.time > p.steps by {
      if w.time < p.steps {
        assert DevOk(p, w.devs[0], Left(p, w.time)) && |w.devs| > 0 by { ProperSome(p); }
        StepAgain(p, w.devs[0], Left(p, w.time), Clock(w.time));
        assert PRESSURE(coin).step(w.devs[0], Clock(w.time)).1;
      }
    }
  }

  lemma ProperSome(p: Setup)
    requires Proper(p)
    ensures p.g != []
  {
  }

  lemma SharingLast(p: Setup, time: nat)
    requires time >= p.steps
    ensures Sharing(p, time + 1) == Sharing(p, time)
  {
  }

  lemma StepLast(p: Setup, dev: PressureDev, time: nat)
    requires DevOk(p, dev, 0) && dev.rts == No
    ensures Step(dev, time) == (dev, false)
  {
  }

  lemma StepAgain(p: Setup, dev: PressureDev, left: nat, time: nat)
    requires DevOk(p, dev, left) && left > 0
    ensures Step(dev, time).1
  {
  }

  lemma StepDev(p: Setup, dev: PressureDev, left: nat, time: nat)
    requires DevOk(p, dev, left) && 0 < left <= p.steps
    ensures var dev' := Step(dev, time).0;
      && DevOk(p, dev', left - 1) && dev'.rts == Out(0) && dev'.s.pressure == dev'.s.newPressure == dev.s.newPressure
      && dev'.s.move == (if (p.steps - left) % 2 == 0 then dev.s.move else {})
  {
    OtherParity(p.steps - left);
  }

  lemma OtherParity(n: nat)
    ensures ((n + 1) % 2 == 0) == (n % 2 != 0)
  {
  }

  lemma StepMoves(p: Setup, w: World<PressureState, PressureMessage, nat>, w': World<PressureState, PressureMessage, nat>)
    requires Proper(p) && Core(p, w.devs, w.air, w.time) && Quiet(w) && w.time < p.steps
    requires |w'.devs| == |w.devs| && w'.air == w.air && w'.time == w.time + 1
    requires forall v | 0 <= v < |w.devs| :: w'.devs[v] == Step(w.devs[v], Clock(w.time)).0
    ensures Core(p, w'.devs, w'.air, w'.time)
  {
    hide MsgOk, Unheard, Sum, Proper, Ways, DevOk, Step;
    forall v | 0 <= v < |w.devs|
      ensures DevOk(p, w.devs[v], Left(p, w.time)) && DevOk(p, w'.devs[v], Left(p, w'.time))
      ensures w'.devs[v].rts == Out(0) && w'.devs[v].s.pressure == w'.devs[v].s.newPressure == w.devs[v].s.newPressure
      ensures w'.devs[v].s.move == if Sharing(p, w.time) then w.devs[v].s.move else {}
    {
      StepDev(p, w.devs[v], Left(p, w.time), Clock(w.time));
    }
    assert Shown(w'.devs) == Held(w'.devs) == Held(w.devs);
    if Sharing(p, w.time) {
      assert Given(w'.devs) == Given(w.devs);
      ShareSums(p, w.devs, Left(p, w.time));
      MovesBelow(p, w'.devs, Left(p, w'.time));
      AllWays(p, w'.devs, w'.air);
    } else {
      QuietWays(p, w.devs, w.air);
    }
  }

  lemma MovesBelow(p: Setup, devs: seq<PressureDev>, left: nat)
    requires forall v | 0 <= v < |devs| :: DevOk(p, devs[v], left)
    ensures forall v | 0 <= v < |devs| :: forall d | d in devs[v].s.move :: d < NUM_NEIGHBOURS
  {
    forall v | 0 <= v < |devs| ensures forall d | d in devs[v].s.move :: d < NUM_NEIGHBOURS {
      assert DevOk(p, devs[v], left);
    }
  }

  lemma ShareSums(p: Setup, devs: seq<PressureDev>, left: nat)
    requires (p.steps - left) % 2 == 0 && forall v | 0 <= v < |devs| :: DevOk(p, devs[v], left)
    ensures Sum(Shown(devs)) == Sum(Held(devs)) + Sum(Given(devs))
  {
    forall v | 0 <= v < |devs| ensures Shown(devs)[v] == Held(devs)[v] + Given(devs)[v] {
      assert DevOk(p, devs[v], left);
    }
    SumPlus(Held(devs), Given(devs), Shown(devs));
  }

  lemma ReplyUnheard(p: Setup, devs: seq<PressureDev>, air: Air, r: PressureMessage, u: nat)
    requires |devs| == |p.g| && u < |devs|
    ensures SameUnheard(p, devs, air, devs, air + multiset{ToHost(r)}, u)
  {
    forall d: nat ensures Unheard(p, devs, air + multiset{ToHost(r)}, u, d) == Unheard(p, devs, air, u, d) {
      if d < |p.g[u]| && Flying(air, p.g[u][d].to, d) {
        var m :| m in air && m.Deliver? && m.to == p.g[u][d].to && m.edge == d;
        assert m in air + multiset{ToHost(r)};
      }
    }
  }

  lemma ReplyMsgs(p: Setup, devs: seq<PressureDev>, air: Air, r: PressureMessage, m: Msg<PressureMessage, nat>)
    requires |devs| == |p.g| && m in air && m.Deliver? && MsgOk(p, devs, air, m)
    ensures MsgOk(p, devs, air + multiset{ToHost(r)}, m)
  {
  }

  lemma PressReplies(p: Setup, coin: Coin, w: World<PressureState, PressureMessage, nat>,
                     w': World<PressureState, PressureMessage, nat>, d: nat)
    requires PressInv(p, w) && Replies(PRESSURE(coin), w, w', d)
    ensures PressInv(p, w')
  {
    hide MsgOk, GivenOk, Unheard, Sum, Ways, DevOk, SameUnheard;
    var dev := w.devs[d];
    var r := PressureMessage(dev.s.pressure, {});
    assert PRESSURE(coin).finish(dev, Clock(w.time)) == (dev, Says(r));
    assert w'.devs == w.devs && w'.air == w.air + multiset{ToHost(r)};
    forall u | 0 <= u < |w.devs|
      ensures w'.devs[u].s == w.devs[u].s && SameUnheard(p, w.devs, w.air, w'.devs, w'.air, u)
    {
      ReplyUnheard(p, w.devs, w.air, r, u);
    }
    SameWays(p, w.devs, w.air, w'.devs, w'.air);
    forall m | m in w'.air && m.Deliver? ensures MsgOk(p, w'.devs, w'.air, m) {
      ReplyMsgs(p, w.devs, w.air, r, m);
    }
  }

  lemma {:induction false} PressRuns(p: Setup, coin: Coin, w: World<PressureState, PressureMessage, nat>, n: nat)
    requires Proper(p) && Reach(PRESSURE(coin), p.g, Begin(PRESSURE(coin), p.memory), w, n)
    ensures PressInv(p, w)
    decreases n
  {
    hide Proper, PressInv, Begin, Sends, Receives, Replies, Steps, PRESSURE;
    if n == 0 {
      PressBegins(p, coin);
    } else {
      var v :| Reach(PRESSURE(coin), p.g, Begin(PRESSURE(coin), p.memory), v, n - 1)
        && Next(PRESSURE(coin), p.g, v, w);
      PressRuns(p, coin, v, n - 1);
      if d :| Sends(PRESSURE(coin), p.g, v, w, d) {
        PressSends(p, coin, v, w, d);
      } else if m :| Receives(PRESSURE(coin), v, w, m) {
        PressReceives(p, coin, v, w, m);
      } else if d :| Replies(PRESSURE(coin), v, w, d) {
        PressReplies(p, coin, v, w, d);
      } else if Steps(PRESSURE(coin), v, w) {
        PressSteps(p, coin, v, w);
      } else {
        PressEnds(p, v, w);
      }
    }
  }

  lemma PressEnds(p: Setup, v: World<PressureState, PressureMessage, nat>, w: World<PressureState, PressureMessage, nat>)
    requires PressInv(p, v) && Ends(v, w)
    ensures PressInv(p, w)
  {
    hide Core;
  }

  // Whatever the random choices and the order of deliveries: pressures are
  // never negative, and in every reachable state the beads held, with the beads
  // that are given away and not yet delivered, are those of the start.  When
  // the run has ended, the reported pressures add up to the initial total if
  // the number of steps is even, and miss the beads given away in the last step
  // if it is odd.
  lemma PressCorrect(p: Setup, coin: Coin, w: World<PressureState, PressureMessage, nat>)
    requires Proper(p) && Reachable(PRESSURE(coin), p.g, p.memory, w)
    ensures |w.devs| == |p.g|
    ensures forall v | 0 <= v < |w.devs| :: w.devs[v].s.pressure >= 0 && w.devs[v].s.newPressure >= 0
    ensures Sum(Held(w.devs)) + Sum(if Sharing(p, w.time) then Given(w.devs) else Ways(p, w.devs, w.air)) == Beads(p)
    ensures w.done ==>
      Sum(Shown(w.devs)) == Beads(p) - if p.steps % 2 == 0 then 0 else Sum(Given(w.devs))
  {
    hide Reach, Begin, PRESSURE, Sum, Proper, Ways;
    var n: nat :| Reach(PRESSURE(coin), p.g, Begin(PRESSURE(coin), p.memory), w, n);
    PressRuns(p, coin, w, n);
    forall v | 0 <= v < |w.devs| ensures w.devs[v].s.pressure >= 0 && w.devs[v].s.newPressure >= 0 {
      assert DevOk(p, w.devs[v], Left(p, w.time));
    }
    if Sharing(p, w.time) {
      ShareSums(p, w.devs, Left(p, w.time));
    }
  }
}
