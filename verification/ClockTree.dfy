// A clock tree: ticks go down, acknowledgements come up, and the root tells the
// host when all of the tree has been heard.
module ClockTree {
  import opened Vertices
  import opened Gals

  const PIN_TICK: nat := 0
  const PIN_ACK: nat := 1

  datatype ClockTreeMessage = ClockTreeMessage(vertexCount: nat)

  datatype ClockTreeState = ClockTreeState(
    isRoot: bool, isLeaf: bool,
    // Is this device currently waiting for an ack, and for how many?
    waitingForAck: bool, ackCount: nat,
    vertexCount: nat)

  type ClockTreeDev = Dev<ClockTreeState>
  type ClockWorld = World<ClockTreeState, ClockTreeMessage, ()>

  function Init(dev: ClockTreeDev): ClockTreeDev { Dev(No, dev.s.(vertexCount := 1)) }

  function Send(dev: ClockTreeDev, time: nat): (ClockTreeDev, ClockTreeMessage) {
    (Dev(No, dev.s.(waitingForAck := !dev.s.waitingForAck)), ClockTreeMessage(dev.s.vertexCount))
  }

  function Recv(dev: ClockTreeDev, m: ClockTreeMessage, edge: (), time: nat): ClockTreeDev {
    var s := dev.s;
    if s.isLeaf then Dev(Out(PIN_ACK), s)
    else if s.waitingForAck then
      // 32-bit counter
      var left := (s.ackCount - 1) % 0x1_0000_0000;
      Dev(if left == 0 then (if s.isRoot then HostPin else Out(PIN_ACK)) else No,
          s.(vertexCount := s.vertexCount + m.vertexCount, ackCount := left))
    else Dev(Out(PIN_TICK), s)
  }

  function Step(dev: ClockTreeDev, time: nat): (ClockTreeDev, bool) {
    (if dev.s.isRoot then Dev(Out(PIN_TICK), dev.s) else dev, true)
  }

  function Finish(dev: ClockTreeDev, time: nat): (ClockTreeDev, Reply<ClockTreeMessage>) { (dev, Silent) }

  const CLOCKTREE: App<ClockTreeState, ClockTreeMessage, ()> := App(Init, Send, Recv, Step, Finish)

  class ClockTreeDevice {
    var s: ClockTreeState
    var readyToSend: Pin

    function View(): ClockTreeDev
      reads this
    {
      Dev(readyToSend, s)
    }

    constructor (s: ClockTreeState)
      ensures View() == Dev(No, s)
    {
      this.s, readyToSend := s, No;
    }

    method CallSend(time: nat) returns (msg: ClockTreeMessage)
      modifies this
      ensures (View(), msg) == old(Send(View(), time))
    {
      s := s.(waitingForAck := !s.waitingForAck);
      msg := ClockTreeMessage(s.vertexCount);
      readyToSend := No;
    }

    method CallRecv(msg: ClockTreeMessage, time: nat)
      modifies this
      ensures View() == old(Recv(View(), msg, (), time))
    {
      if s.isLeaf {
        readyToSend := Out(PIN_ACK);
      } else if s.waitingForAck {
        s := s.(vertexCount := s.vertexCount + msg.vertexCount);
        s := s.(ackCount := (s.ackCount - 1) % 0x1_0000_0000);
        if s.ackCount == 0 {
          readyToSend := if s.isRoot then HostPin else Out(PIN_ACK);
        } else {
          readyToSend := No;
        }
      } else {
        readyToSend := Out(PIN_TICK);
      }
    }
  }

  // ---------------------------------------------------------------------
  // Trees: vertex 0 is the root, and parents come before their children

  datatype Setup = Setup(g: Graph<()>, memory: seq<ClockTreeDev>, parent: seq<nat>)

  predicate Child(p: Setup, u: nat, v: nat) { 0 < u < |p.parent| && p.parent[u] == v }

  function Kids(p: Setup, v: nat, n: nat): nat {
    if n == 0 then 0 else Kids(p, v, n - 1) + if Child(p, n - 1, v) then 1 else 0
  }

  // Number of vertices in the subtree of v
  ghost function Size(p: Setup, v: nat): nat
    decreases if v < |p.parent| then |p.parent| - v else 0, |p.parent| + 1
  {
    if v < |p.parent| then 1 + KidSizes(p, v, |p.parent|) else 0
  }

  ghost function KidSizes(p: Setup, v: nat, n: nat): nat
    requires v < |p.parent|
    decreases |p.parent| - v, n
  {
    if n == 0 then 0
    else
      KidSizes(p, v, n - 1) + if Child(p, n - 1, v) && v < n - 1 then Size(p, n - 1) else 0
  }

  // Edges of a pin to a vertex
  ghost function Count(edges: seq<Edge<()>>, pin: nat, v: nat): nat {
    if edges == [] then 0
    else
      var e := edges[|edges| - 1];
      Count(edges[..|edges| - 1], pin, v) + if e.pin == pin && e.to == v then 1 else 0
  }

  // One tick edge to each child and one acknowledgement edge to the parent; the
  // counters start at the number of children; the root has children
  ghost predicate Proper(p: Setup) {
    && |p.g| == |p.memory| == |p.parent| < 0x1_0000_0000 && Wellformed(p.g)
    && (forall v | 0 < v < |p.parent| :: p.parent[v] < v)
    && Kids(p, 0, |p.parent|) > 0
    && (forall v: nat, u: nat | v < |p.g| && u < |p.g| ::
          && Count(p.g[v], PIN_TICK, u) == (if Child(p, u, v) then 1 else 0)
          && Count(p.g[v], PIN_ACK, u) == (if Child(p, v, u) then 1 else 0))
    && (forall v: nat | v < |p.g| ::
          var s := p.memory[v].s;
          && (s.isRoot <==> v == 0) && (s.isLeaf <==> Kids(p, v, |p.parent|) == 0)
          && !s.waitingForAck && (!s.isLeaf ==> s.ackCount == Kids(p, v, |p.parent|)))
  }

  // ---------------------------------------------------------------------
  // The wave, as the phases of the vertices

  datatype Phase = Untouched | WantTick | Waiting | WantAck | Acked

  function PhaseOf(dev: ClockTreeDev): Phase {
    var s := dev.s;
    if s.isLeaf then
      if dev.rts != No then WantAck else if s.waitingForAck then Acked else Untouched
    else if s.waitingForAck then
      if dev.rts == No then Waiting else WantAck
    else if dev.rts != No then WantTick
    else if s.ackCount == 0 then Acked else Untouched
  }

  predicate Ticked(ph: Phase) { ph == Waiting || ph == WantAck || ph == Acked }

  function Phases(devs: seq<ClockTreeDev>): seq<Phase> {
    seq(|devs|, v requires 0 <= v < |devs| => PhaseOf(devs[v]))
  }

  // Children that have acknowledged, and the sizes of their subtrees
  function AckedKids(p: Setup, phs: seq<Phase>, v: nat, n: nat): nat
    requires n <= |phs|
  {
    if n == 0 then 0
    else
      AckedKids(p, phs, v, n - 1) + if Child(p, n - 1, v) && phs[n - 1] == Acked then 1 else 0
  }

  ghost function AckedSizes(p: Setup, phs: seq<Phase>, v: nat, n: nat): nat
    requires n <= |phs|
  {
    if n == 0 then 0
    else
      AckedSizes(p, phs, v, n - 1) + if Child(p, n - 1, v) && phs[n - 1] == Acked then Size(p, n - 1) else 0
  }

  // Messages on their way to a vertex: how many, and the vertices they count
  ghost function Number(): Spec<ClockTreeMessage> {
    Spec(_ => 0, _ => 1.0, (_, _) => ClockTreeMessage(0))
  }

  ghost function Vertices0(): Spec<ClockTreeMessage> {
    Spec(_ => 0, (m: ClockTreeMessage) => m.vertexCount as real, (_, _) => ClockTreeMessage(0))
  }

  type Air = multiset<Msg<ClockTreeMessage, ()>>

  ghost predicate DevOk(p: Setup, dev: ClockTreeDev, v: nat)
    requires v < |p.parent|
  {
    var s, kids := dev.s, Kids(p, v, |p.parent|);
    && (s.isRoot <==> v == 0) && (s.isLeaf <==> kids == 0)
    && (if s.isLeaf then
          s.vertexCount == 1 && (dev.rts == No || (dev.rts == Out(PIN_ACK) && !s.waitingForAck))
        else
          && s.ackCount <= kids
          && match PhaseOf(dev)
             case Untouched => s.ackCount == kids && s.vertexCount == 1
             case WantTick => dev.rts == Out(PIN_TICK) && s.ackCount == kids && s.vertexCount == 1
             case Waiting => s.ackCount > 0
             case WantAck =>
               && dev.rts == (if s.isRoot then HostPin else Out(PIN_ACK)) && s.ackCount == 0
               && s.vertexCount == Size(p, v)
             case Acked => s.vertexCount == Size(p, v))
  }

  // Messages to v: the tick of its parent until it has come, then the
  // acknowledgements of its children that have not been counted yet
  ghost predicate Flow(p: Setup, devs: seq<ClockTreeDev>, air: Air, v: nat)
    requires v < |devs| == |p.parent|
  {
    var phs, s := Phases(devs), devs[v].s;
    && (v > 0 && p.parent[v] < |devs| && !Ticked(phs[p.parent[v]]) ==> phs[v] == Untouched)
    && InAir(Number(), air, v, 0)
       == (if v > 0 && p.parent[v] < |devs| && Ticked(phs[p.parent[v]]) && phs[v] == Untouched then 1.0 else 0.0)
        + (if s.isLeaf then 0.0
           else AckedKids(p, phs, v, |devs|) as real - Kids(p, v, |devs|) as real + s.ackCount as real)
    && (!s.isLeaf && Ticked(phs[v]) ==>
          s.vertexCount as real - 1.0 + InAir(Vertices0(), air, v, 0) == AckedSizes(p, phs, v, |devs|) as real)
  }

  ghost predicate WaveInv(p: Setup, devs: seq<ClockTreeDev>, air: Air) {
    && |devs| == |p.parent| && devs != []
    && (forall v: nat | v < |devs| :: DevOk(p, devs[v], v) && Flow(p, devs, air, v))
    && (forall m | m in air :: if m.ToHost? then m.payload.vertexCount == Size(p, 0) else m.to < |devs|)
    && ((exists m :: m in air && m.ToHost?) <==> PhaseOf(devs[0]) == Acked)
  }

  ghost predicate ClockInv(p: Setup, w: ClockWorld) {
    && w.active && !w.done
    && (w.time == 0 ==> w == Begin(CLOCKTREE, p.memory))
    && (w.time == 1 ==> WaveInv(p, w.devs, w.air) && PhaseOf(w.devs[0]) != Untouched)
  }

  // ---------------------------------------------------------------------
  // Counting

  lemma {:induction false} AckedUpdate(p: Setup, phs: seq<Phase>, v: nat, ph: Phase, x: nat, n: nat)
    requires n <= |phs| && v < |phs|
    ensures var phs' := phs[v := ph];
      var was, now := v < n && Child(p, v, x) && phs[v] == Acked, v < n && Child(p, v, x) && ph == Acked;
      && AckedKids(p, phs', x, n) + (if was then 1 else 0) == AckedKids(p, phs, x, n) + (if now then 1 else 0)
      && AckedSizes(p, phs', x, n) + (if was then Size(p, v) else 0)
         == AckedSizes(p, phs, x, n) + (if now then Size(p, v) else 0)
    decreases n
  {
    hide Size;
    if n > 0 {
      AckedUpdate(p, phs, v, ph, x, n - 1);
    }
  }

  ghost predicate Ordered(p: Setup) { forall u | 0 < u < |p.parent| :: p.parent[u] < u }

  lemma {:induction false} AckedBound(p: Setup, phs: seq<Phase>, v: nat, n: nat)
    requires n <= |phs|
    ensures AckedKids(p, phs, v, n) <= Kids(p, v, n)
    ensures v < |p.parent| && Ordered(p) && AckedKids(p, phs, v, n) == Kids(p, v, n) ==>
      AckedSizes(p, phs, v, n) == KidSizes(p, v, n)
    decreases n
  {
    hide Size;
    if n > 0 {
      AckedBound(p, phs, v, n - 1);
    }
  }

  lemma {:induction false} NoneAcked(p: Setup, phs: seq<Phase>, v: nat, n: nat)
    requires n <= |phs| && forall u | 0 <= u < n && Child(p, u, v) :: phs[u] != Acked
    ensures AckedKids(p, phs, v, n) == 0 && AckedSizes(p, phs, v, n) == 0
    decreases n
  {
    hide Size;
    if n > 0 {
      NoneAcked(p, phs, v, n - 1);
    }
  }

  // If some child has not acknowledged, the count says so
  lemma {:induction false} SomeNotAcked(p: Setup, phs: seq<Phase>, v: nat, n: nat) returns (u: nat)
    requires n <= |phs| && AckedKids(p, phs, v, n) < Kids(p, v, n)
    ensures u < n && Child(p, u, v) && phs[u] != Acked
    decreases n
  {
    if Child(p, n - 1, v) && phs[n - 1] != Acked {
      u := n - 1;
    } else {
      u := SomeNotAcked(p, phs, v, n - 1);
    }
  }

  lemma SpecIs()
    ensures Counts(Number()) && Positive(Number())
  {
  }

  lemma {:induction false} EdgesOut(s: Spec<ClockTreeMessage>, edges: seq<Edge<()>>, pin: nat, m: ClockTreeMessage, v: nat)
    requires s.stamp(m) == 0
    ensures InAir(s, OnEdges(edges, pin, m), v, 0) == Times(Count(edges, pin, v), s.weight(m))
    decreases |edges|
  {
    hide Times, InAir;
    if edges == [] {
      TimesMore(0, s.weight(m));
      InAirNone<ClockTreeMessage, ()>(s, multiset{}, v, 0);
    } else {
      var n := |edges| - 1;
      var e := edges[n];
      EdgesOut(s, edges[..n], pin, m, v);
      TimesMore(Count(edges[..n], pin, v), s.weight(m));
      if e.pin == pin {
        InAirUnion(s, OnEdges(edges[..n], pin, m), multiset{Deliver(e.to, e.edge, m)}, v, 0);
        InAirOne(s, Deliver(e.to, e.edge, m), v, 0);
      } else {
        assert OnEdges(edges, pin, m) == OnEdges(edges[..n], pin, m);
      }
    }
  }

  // Sending on a pin with at most one edge to v
  lemma SentTo(p: Setup, v: nat, pin: nat, m: ClockTreeMessage, air: Air, x: nat)
    requires Proper(p) && v < |p.g| && x < |p.g| && (pin == PIN_TICK || pin == PIN_ACK)
    ensures var hit := if pin == PIN_TICK then Child(p, x, v) else Child(p, v, x);
      var air' := air + OnEdges(p.g[v], pin, m);
      && InAir(Number(), air', x, 0) == InAir(Number(), air, x, 0) + (if hit then 1.0 else 0.0)
      && InAir(Vertices0(), air', x, 0) == InAir(Vertices0(), air, x, 0) + (if hit then m.vertexCount as real else 0.0)
  {
    hide InAir, OnEdges, Count, Times;
    EdgesOut(Number(), p.g[v], pin, m, x);
    EdgesOut(Vertices0(), p.g[v], pin, m, x);
    InAirUnion(Number(), air, OnEdges(p.g[v], pin, m), x, 0);
    InAirUnion(Vertices0(), air, OnEdges(p.g[v], pin, m), x, 0);
    var k := Count(p.g[v], pin, x);
    assert k == (if (if pin == PIN_TICK then Child(p, x, v) else Child(p, v, x)) then 1 else 0);
    TimesMore(0, 1.0);
    TimesMore(0, m.vertexCount as real);
  }

  // Nothing on its way weighs nothing
  lemma NothingComing(air: Air, v: nat)
    requires InAir(Number(), air, v, 0) <= 0.0
    ensures InAir(Vertices0(), air, v, 0) == 0.0 && forall m | m in air && m.Deliver? :: m.to != v
  {
    hide InAir;
    SpecIs();
    forall m | m in air ensures Weigh(Vertices0(), m, v, 0) == 0.0 && (m.Deliver? ==> m.to != v) {
      InAirEmpty(Number(), air, v, 0, m);
    }
    InAirNone(Vertices0(), air, v, 0);
  }

  lemma Taken(air: Air, m: Msg<ClockTreeMessage, ()>, v: nat)
    requires m in air && m.Deliver?
    ensures InAir(Number(), air - multiset{m}, v, 0) == InAir(Number(), air, v, 0) - (if m.to == v then 1.0 else 0.0)
    ensures InAir(Vertices0(), air - multiset{m}, v, 0)
         == InAir(Vertices0(), air, v, 0) - (if m.to == v then m.payload.vertexCount as real else 0.0)
    ensures m.to == v ==> InAir(Number(), air, v, 0) >= 1.0
  {
    hide InAir;
    SpecIs();
    InAirAny(Number(), air, v, 0, m);
    InAirAny(Vertices0(), air, v, 0, m);
    InAirPositive(Number(), air - multiset{m}, v, 0);
  }

  // ---------------------------------------------------------------------
  // Vertices that a step does not concern

  lemma FlowSame(p: Setup, devs: seq<ClockTreeDev>, air: Air, devs': seq<ClockTreeDev>, air': Air, v: nat, x: nat)
    requires |devs| == |devs'| == |p.parent| && v < |devs| && x < |devs| && x != v && devs' == devs[v := devs'[v]]
    requires Flow(p, devs, air, x)
    requires InAir(Number(), air', x, 0) == InAir(Number(), air, x, 0)
    requires InAir(Vertices0(), air', x, 0) == InAir(Vertices0(), air, x, 0)
    requires Child(p, x, v) ==> Ticked(PhaseOf(devs'[v])) == Ticked(PhaseOf(devs[v]))
    requires Child(p, v, x) ==> (PhaseOf(devs'[v]) == Acked) == (PhaseOf(devs[v]) == Acked)
    ensures Flow(p, devs', air', x)
  {
    hide InAir, Size, PhaseOf;
    AckedUpdate(p, Phases(devs), v, PhaseOf(devs'[v]), x, |devs|);
    assert Phases(devs') == Phases(devs)[v := PhaseOf(devs'[v])];
  }

  // ---------------------------------------------------------------------
  // The steps of the wave

  lemma TickSent(p: Setup, devs: seq<ClockTreeDev>, air: Air, v: nat)
    requires Proper(p) && WaveInv(p, devs, air) && v < |devs| && PhaseOf(devs[v]) == WantTick
    ensures var s := devs[v].s;
      var devs' := devs[v := Dev(No, s.(waitingForAck := true))];
      var air' := air + OnEdges(p.g[v], PIN_TICK, ClockTreeMessage(s.vertexCount));
      && PhaseOf(devs'[v]) == Waiting
      && (forall x: nat | x < |devs| :: DevOk(p, devs'[x], x) && Flow(p, devs', air', x))
  {
    hide InAir, Size, OnEdges, PhaseOf, Flow;
    var s := devs[v].s;
    var msg := ClockTreeMessage(s.vertexCount);
    var dev := Dev(No, s.(waitingForAck := true));
    var devs', air' := devs[v := dev], air + OnEdges(p.g[v], PIN_TICK, msg);
    assert DevOk(p, devs[v], v) && Flow(p, devs, air, v);
    TickPhase(p, devs[v], v);
    assert Phases(devs') == Phases(devs)[v := Waiting];
    forall x: nat | x < |devs| ensures DevOk(p, devs'[x], x) && Flow(p, devs', air', x) {
      assert DevOk(p, devs[x], x) && Flow(p, devs, air, x);
      SentTo(p, v, PIN_TICK, msg, air, x);
      if x == v {
        TickSelf(p, devs, air, air', v, dev);
      } else if Child(p, x, v) {
        TickKid(p, devs, air, devs', air', v, x);
      } else {
        FlowSame(p, devs, air, devs', air', v, x);
      }
    }
  }

  // The vertex that has ticked waits for all of its children
  lemma TickSelf(p: Setup, devs: seq<ClockTreeDev>, air: Air, air': Air, v: nat, dev: ClockTreeDev)
    requires Proper(p) && WaveInv(p, devs, air) && v < |devs| && PhaseOf(devs[v]) == WantTick && !devs[v].s.isLeaf
    requires PhaseOf(dev) == Waiting && dev.s == devs[v].s.(waitingForAck := true)
    requires dev.s.ackCount == Kids(p, v, |p.parent|) && dev.s.vertexCount == 1
    requires InAir(Number(), air', v, 0) == InAir(Number(), air, v, 0)
    requires InAir(Vertices0(), air', v, 0) == InAir(Vertices0(), air, v, 0)
    ensures Flow(p, devs[v := dev], air', v)
  {
    hide InAir, Size, PhaseOf, DevOk;
    var phs := Phases(devs);
    assert Flow(p, devs, air, v);
    assert Phases(devs[v := dev]) == phs[v := Waiting];
    UntickedKids(p, devs, air, v);
    AckedUpdate(p, phs, v, Waiting, v, |devs|);
    NothingComing(air, v);
  }

  // Below a vertex that has not ticked nothing has happened
  lemma UntickedKids(p: Setup, devs: seq<ClockTreeDev>, air: Air, v: nat)
    requires Proper(p) && WaveInv(p, devs, air) && v < |devs| && !Ticked(PhaseOf(devs[v]))
    ensures AckedKids(p, Phases(devs), v, |devs|) == 0 && AckedSizes(p, Phases(devs), v, |devs|) == 0
  {
    hide InAir, Size, PhaseOf, DevOk;
    forall u | 0 <= u < |devs| && Child(p, u, v) ensures Phases(devs)[u] != Acked {
      assert Flow(p, devs, air, u);
    }
    NoneAcked(p, Phases(devs), v, |devs|);
  }

  lemma TickKid(p: Setup, devs: seq<ClockTreeDev>, air: Air, devs': seq<ClockTreeDev>, air': Air, v: nat, x: nat)
    requires Proper(p) && |devs| == |devs'| == |p.parent| && v < |devs| && x < |devs| && Child(p, x, v) && x != v
    requires Flow(p, devs, air, x) && devs' == devs[v := devs'[v]]
    requires PhaseOf(devs[v]) == WantTick && PhaseOf(devs'[v]) == Waiting
    requires InAir(Number(), air', x, 0) == InAir(Number(), air, x, 0) + 1.0
    ensures Flow(p, devs', air', x)
  {
    hide InAir, Size, PhaseOf;
    assert Phases(devs') == Phases(devs)[v := Waiting];
    AckedUpdate(p, Phases(devs), v, Waiting, x, |devs|);
  }

  lemma TickPhase(p: Setup, dev: ClockTreeDev, v: nat)
    requires v < |p.parent| && DevOk(p, dev, v) && PhaseOf(dev) == WantTick
    ensures PhaseOf(Dev(No, dev.s.(waitingForAck := true))) == Waiting && !dev.s.isLeaf
    ensures DevOk(p, Dev(No, dev.s.(waitingForAck := true)), v) && dev.s.ackCount == Kids(p, v, |p.parent|)
    ensures dev.s.vertexCount == 1 && dev.rts == Out(PIN_TICK) && !dev.s.waitingForAck
  {
    hide Size;
  }

  // An acknowledgement goes up
  lemma AckSent(p: Setup, devs: seq<ClockTreeDev>, air: Air, v: nat)
    requires Proper(p) && WaveInv(p, devs, air) && 0 < v < |devs| && PhaseOf(devs[v]) == WantAck
    ensures var s := devs[v].s;
      var devs' := devs[v := Dev(No, s.(waitingForAck := !s.waitingForAck))];
      var air' := air + OnEdges(p.g[v], PIN_ACK, ClockTreeMessage(s.vertexCount));
      && PhaseOf(devs'[v]) == Acked
      && (forall x: nat | x < |devs| :: DevOk(p, devs'[x], x) && Flow(p, devs', air', x))
  {
    hide InAir, Size, OnEdges, PhaseOf, Flow;
    var s := devs[v].s;
    var msg := ClockTreeMessage(s.vertexCount);
    var dev := Dev(No, s.(waitingForAck := !s.waitingForAck));
    var devs', air' := devs[v := dev], air + OnEdges(p.g[v], PIN_ACK, msg);
    assert DevOk(p, devs[v], v) && Flow(p, devs, air, v);
    AckPhase(p, devs[v], v);
    assert Phases(devs') == Phases(devs)[v := Acked];
    forall x: nat | x < |devs| ensures DevOk(p, devs'[x], x) && Flow(p, devs', air', x) {
      assert DevOk(p, devs[x], x) && Flow(p, devs, air, x);
      SentTo(p, v, PIN_ACK, msg, air, x);
      if x == v {
        AckSelf(p, devs, air, air', v, dev);
      } else if Child(p, v, x) {
        AckParent(p, devs, air, devs', air', v, x);
      } else {
        FlowSame(p, devs, air, devs', air', v, x);
      }
    }
  }

  lemma AckSelf(p: Setup, devs: seq<ClockTreeDev>, air: Air, air': Air, v: nat, dev: ClockTreeDev)
    requires Proper(p) && |devs| == |p.parent| && v < |devs| && Flow(p, devs, air, v)
    requires PhaseOf(devs[v]) == WantAck && PhaseOf(dev) == Acked
    requires dev.s == devs[v].s.(waitingForAck := dev.s.waitingForAck)
    requires InAir(Number(), air', v, 0) == InAir(Number(), air, v, 0)
    requires InAir(Vertices0(), air', v, 0) == InAir(Vertices0(), air, v, 0)
    ensures Flow(p, devs[v := dev], air', v)
  {
    hide InAir, Size, PhaseOf;
    assert Phases(devs[v := dev]) == Phases(devs)[v := Acked];
    AckedUpdate(p, Phases(devs), v, Acked, v, |devs|);
  }

  lemma AckParent(p: Setup, devs: seq<ClockTreeDev>, air: Air, devs': seq<ClockTreeDev>, air': Air, v: nat, x: nat)
    requires Proper(p) && |devs| == |devs'| == |p.parent| && v < |devs| && x < |devs| && Child(p, v, x) && x != v
    requires Flow(p, devs, air, x) && DevOk(p, devs[x], x) && devs' == devs[v := devs'[v]]
    requires PhaseOf(devs[v]) == WantAck && PhaseOf(devs'[v]) == Acked
    requires InAir(Number(), air', x, 0) == InAir(Number(), air, x, 0) + 1.0
    requires InAir(Vertices0(), air', x, 0) == InAir(Vertices0(), air, x, 0) + Size(p, v) as real
    ensures Flow(p, devs', air', x)
  {
    hide InAir, Size, PhaseOf;
    HasKid(p, x, v, |p.parent|);
    assert Phases(devs') == Phases(devs)[v := Acked];
    AckedUpdate(p, Phases(devs), v, Acked, x, |devs|);
  }

  lemma AckPhase(p: Setup, dev: ClockTreeDev, v: nat)
    requires Proper(p) && v < |p.parent| && DevOk(p, dev, v) && PhaseOf(dev) == WantAck
    ensures var dev' := Dev(No, dev.s.(waitingForAck := !dev.s.waitingForAck));
      PhaseOf(dev') == Acked && DevOk(p, dev', v)
    ensures dev.s.vertexCount == Size(p, v) && dev.rts == (if v == 0 then HostPin else Out(PIN_ACK))
  {
    if dev.s.isLeaf {
      LeafSize(p, v, |p.parent|);
    }
  }

  lemma {:induction false} LeafSize(p: Setup, v: nat, n: nat)
    requires v < |p.parent| && Kids(p, v, n) == 0
    ensures KidSizes(p, v, n) == 0
    decreases n
  {
    if n > 0 {
      LeafSize(p, v, n - 1);
    }
  }

  // The root tells the host
  lemma HostSent(p: Setup, devs: seq<ClockTreeDev>, air: Air)
    requires Proper(p) && WaveInv(p, devs, air) && PhaseOf(devs[0]) == WantAck
    ensures var s := devs[0].s;
      var devs' := devs[0 := Dev(No, s.(waitingForAck := !s.waitingForAck))];
      var air' := air + multiset{ToHost(ClockTreeMessage(s.vertexCount))};
      && PhaseOf(devs'[0]) == Acked && s.vertexCount == Size(p, 0)
      && (forall x: nat | x < |devs| :: DevOk(p, devs'[x], x) && Flow(p, devs', air', x))
  {
    hide InAir, Size, PhaseOf, Flow;
    var s := devs[0].s;
    var dev := Dev(No, s.(waitingForAck := !s.waitingForAck));
    var host: Msg<ClockTreeMessage, ()> := ToHost(ClockTreeMessage(s.vertexCount));
    var devs', air' := devs[0 := dev], air + multiset{host};
    assert DevOk(p, devs[0], 0) && Flow(p, devs, air, 0);
    AckPhase(p, devs[0], 0);
    assert Phases(devs') == Phases(devs)[0 := Acked];
    forall x: nat | x < |devs| ensures DevOk(p, devs'[x], x) && Flow(p, devs', air', x) {
      assert DevOk(p, devs[x], x) && Flow(p, devs, air, x);
      InAirUnion(Number(), air, multiset{host}, x, 0);
      InAirUnion(Vertices0(), air, multiset{host}, x, 0);
      InAirOne(Number(), host, x, 0);
      InAirOne(Vertices0(), host, x, 0);
      if x == 0 {
        AckSelf(p, devs, air, air', 0, dev);
      } else {
        FlowSame(p, devs, air, devs', air', 0, x);
      }
    }
  }

  // A message finds its receiver untouched or waiting
  lemma Receiver(p: Setup, devs: seq<ClockTreeDev>, air: Air, m: Msg<ClockTreeMessage, ()>)
    requires Proper(p) && WaveInv(p, devs, air) && m in air && m.Deliver?
    ensures m.to < |devs|
    ensures PhaseOf(devs[m.to]) == Untouched || (PhaseOf(devs[m.to]) == Waiting && !devs[m.to].s.isLeaf)
    ensures PhaseOf(devs[m.to]) == Untouched ==>
      && m.to > 0 && Ticked(PhaseOf(devs[p.parent[m.to]])) && InAir(Number(), air, m.to, 0) == 1.0
      && (!devs[m.to].s.isLeaf ==> AckedKids(p, Phases(devs), m.to, |devs|) == 0)
  {
    hide InAir, Size, PhaseOf;
    var v := m.to;
    assert DevOk(p, devs[v], v) && Flow(p, devs, air, v);
    Taken(air, m, v);
    AckedBound(p, Phases(devs), v, |devs|);
    PhaseCounts(p, devs[v], v);
    if !devs[v].s.isLeaf && !Ticked(PhaseOf(devs[v])) {
      UntickedKids(p, devs, air, v);
    }
  }

  lemma PhaseCounts(p: Setup, dev: ClockTreeDev, v: nat)
    requires v < |p.parent| && DevOk(p, dev, v)
    ensures var ph := PhaseOf(dev);
      && (dev.s.isLeaf ==> ph != Waiting && ph != WantTick)
      && (!dev.s.isLeaf ==>
            && (ph == Untouched || ph == WantTick ==> dev.s.ackCount == Kids(p, v, |p.parent|))
            && (ph == WantAck || ph == Acked ==> dev.s.ackCount == 0)
            && (ph == Waiting ==> dev.s.ackCount > 0))
  {
    hide Size;
  }

  lemma Received(p: Setup, devs: seq<ClockTreeDev>, air: Air, m: Msg<ClockTreeMessage, ()>, time: nat)
    requires Proper(p) && WaveInv(p, devs, air) && m in air && m.Deliver? && m.to < |devs|
    ensures var devs' := devs[m.to := Recv(devs[m.to], m.payload, m.edge, time)];
      && (forall x: nat | x < |devs| :: DevOk(p, devs'[x], x) && Flow(p, devs', air - multiset{m}, x))
      && (PhaseOf(devs'[m.to]) == Acked <==> PhaseOf(devs[m.to]) == Acked)
      && PhaseOf(devs'[m.to]) != Untouched
  {
    hide InAir, Size, PhaseOf, Flow, Recv;
    var v := m.to;
    var dev' := Recv(devs[v], m.payload, m.edge, time);
    var devs' := devs[v := dev'];
    assert DevOk(p, devs[v], v) && Flow(p, devs, air, v);
    Receiver(p, devs, air, m);
    Taken(air, m, v);
    ReceivedPhase(p, devs[v], m.payload, m.edge, time, v);
    assert Phases(devs') == Phases(devs)[v := PhaseOf(dev')];
    if PhaseOf(dev') == WantAck && !devs[v].s.isLeaf {
      LastAck(p, devs, air, m);
    }
    forall x: nat | x < |devs| ensures DevOk(p, devs'[x], x) && Flow(p, devs', air - multiset{m}, x) {
      assert DevOk(p, devs[x], x) && Flow(p, devs, air, x);
      if x != v {
        Taken(air, m, x);
        if Child(p, x, v) {
          HasKid(p, v, x, |p.parent|);
        }
        FlowSame(p, devs, air, devs', air - multiset{m}, v, x);
      } else if PhaseOf(devs[v]) == Untouched {
        RecvTick(p, devs, air, air - multiset{m}, v, dev');
      } else {
        RecvAck(p, devs, air, air - multiset{m}, v, dev', m.payload.vertexCount);
      }
    }
  }

  lemma RecvTick(p: Setup, devs: seq<ClockTreeDev>, air: Air, air': Air, v: nat, dev: ClockTreeDev)
    requires |devs| == |p.parent| && v < |devs| && Flow(p, devs, air, v) && Ordered(p) && v > 0
    requires PhaseOf(devs[v]) == Untouched && dev.s == devs[v].s && Ticked(PhaseOf(devs[p.parent[v]]))
    requires if dev.s.isLeaf then PhaseOf(dev) == WantAck else PhaseOf(dev) == WantTick
    requires InAir(Number(), air', v, 0) == InAir(Number(), air, v, 0) - 1.0
    ensures Flow(p, devs[v := dev], air', v)
  {
    hide InAir, Size, PhaseOf;
    assert Phases(devs[v := dev]) == Phases(devs)[v := PhaseOf(dev)];
    AckedUpdate(p, Phases(devs), v, PhaseOf(dev), v, |devs|);
  }

  lemma RecvAck(p: Setup, devs: seq<ClockTreeDev>, air: Air, air': Air, v: nat, dev: ClockTreeDev, x: nat)
    requires |devs| == |p.parent| && v < |devs| && Flow(p, devs, air, v) && Ordered(p) && !devs[v].s.isLeaf
    requires PhaseOf(devs[v]) == Waiting && (PhaseOf(dev) == Waiting || PhaseOf(dev) == WantAck)
    requires dev.s == devs[v].s.(ackCount := dev.s.ackCount, vertexCount := devs[v].s.vertexCount + x)
    requires dev.s.ackCount == devs[v].s.ackCount - 1
    requires InAir(Number(), air', v, 0) == InAir(Number(), air, v, 0) - 1.0
    requires InAir(Vertices0(), air', v, 0) == InAir(Vertices0(), air, v, 0) - x as real
    ensures Flow(p, devs[v := dev], air', v)
  {
    hide InAir, Size, PhaseOf;
    assert Phases(devs[v := dev]) == Phases(devs)[v := PhaseOf(dev)];
    AckedUpdate(p, Phases(devs), v, PhaseOf(dev), v, |devs|);
  }

  lemma {:induction false} HasKid(p: Setup, v: nat, u: nat, n: nat)
    requires u < n <= |p.parent| && Child(p, u, v)
    ensures Kids(p, v, n) > 0
    decreases n
  {
    if u < n - 1 {
      HasKid(p, v, u, n - 1);
    }
  }

  // What a message does to the phase of its receiver
  lemma ReceivedPhase(p: Setup, dev: ClockTreeDev, m: ClockTreeMessage, edge: (), time: nat, v: nat)
    requires Proper(p) && v < |p.parent| && DevOk(p, dev, v)
    requires PhaseOf(dev) == Untouched || (PhaseOf(dev) == Waiting && !dev.s.isLeaf)
    ensures var dev' := Recv(dev, m, edge, time);
      && dev'.s.isLeaf == dev.s.isLeaf
      && (PhaseOf(dev) == Untouched ==>
            && dev'.s == dev.s && PhaseOf(dev') == (if dev.s.isLeaf then WantAck else WantTick) && DevOk(p, dev', v))
      && (PhaseOf(dev) == Waiting ==>
            && dev'.s == dev.s.(ackCount := dev.s.ackCount - 1, vertexCount := dev.s.vertexCount + m.vertexCount)
            && PhaseOf(dev') == (if dev.s.ackCount == 1 then WantAck else Waiting)
            && (dev.s.ackCount > 1 || dev'.s.vertexCount == Size(p, v) ==> DevOk(p, dev', v)))
  {
    hide Size;
    KidsBound(p, v, |p.parent|);
    if PhaseOf(dev) == Waiting {
      assert (dev.s.ackCount - 1) % 0x1_0000_0000 == dev.s.ackCount - 1;
    }
  }

  lemma {:induction false} KidsBound(p: Setup, v: nat, n: nat)
    ensures Kids(p, v, n) <= n
    decreases n
  {
    if n > 0 {
      KidsBound(p, v, n - 1);
    }
  }

  // With the last acknowledgement, all of the subtree has been counted
  lemma LastAck(p: Setup, devs: seq<ClockTreeDev>, air: Air, m: Msg<ClockTreeMessage, ()>)
    requires Proper(p) && WaveInv(p, devs, air) && m in air && m.Deliver? && m.to < |devs|
    requires !devs[m.to].s.isLeaf && PhaseOf(devs[m.to]) == Waiting && devs[m.to].s.ackCount == 1
    ensures devs[m.to].s.vertexCount + m.payload.vertexCount == Size(p, m.to)
  {
    hide InAir, PhaseOf, Size, KidSizes;
    var v := m.to;
    assert DevOk(p, devs[v], v) && Flow(p, devs, air, v);
    Taken(air, m, v);
    SpecIs();
    InAirPositive(Number(), air - multiset{m}, v, 0);
    AckedBound(p, Phases(devs), v, |devs|);
    NothingComing(air - multiset{m}, v);
    SizeIs(p, v);
  }

  lemma SizeIs(p: Setup, v: nat)
    requires v < |p.parent|
    ensures Size(p, v) == 1 + KidSizes(p, v, |p.parent|)
  {
  }

  // ---------------------------------------------------------------------
  // The first wave, in every run

  lemma WaveBegins(p: Setup, w: ClockWorld, w': ClockWorld)
    requires Proper(p) && w == Begin(CLOCKTREE, p.memory) && Steps(CLOCKTREE, w, w')
    ensures WaveInv(p, w'.devs, w'.air) && PhaseOf(w'.devs[0]) != Untouched
  {
    NotEmpty(p);
    hide InAir, Size, Count, Kids;
    forall v: nat | v < |w'.devs|
      ensures w'.devs[v] == Step(Init(p.memory[v]), Clock(0)).0 && DevOk(p, w'.devs[v], v)
      ensures PhaseOf(w'.devs[v]) == if v == 0 then WantTick else Untouched
    {
      assert w.devs[v] == Init(p.memory[v]);
      BeginPhase(p, v);
    }
    hide PhaseOf;
    forall v: nat | v < |w'.devs| ensures Flow(p, w'.devs, w'.air, v) {
      NoneAcked(p, Phases(w'.devs), v, |w'.devs|);
      InAirNone<ClockTreeMessage, ()>(Number(), multiset{}, v, 0);
      assert DevOk(p, w'.devs[v], v);
      PhaseCounts(p, w'.devs[v], v);
    }
  }

  lemma BeginPhase(p: Setup, v: nat)
    requires Proper(p) && v < |p.g|
    ensures var dev := Step(Init(p.memory[v]), Clock(0)).0;
      DevOk(p, dev, v) && PhaseOf(dev) == if v == 0 then WantTick else Untouched
  {
    hide Size;
  }

  lemma WaveSends(p: Setup, w: ClockWorld, w': ClockWorld, d: nat)
    requires Proper(p) && WaveInv(p, w.devs, w.air) && PhaseOf(w.devs[0]) != Untouched
    requires Sends(CLOCKTREE, p.g, w, w', d)
    ensures WaveInv(p, w'.devs, w'.air) && PhaseOf(w'.devs[0]) != Untouched
    ensures PhaseOf(w.devs[d]) == (if w.devs[d].rts == Out(PIN_TICK) then WantTick else WantAck)
    ensures PhaseOf(w'.devs[d]) == (if w.devs[d].rts == Out(PIN_TICK) then Waiting else Acked)
  {
    hide InAir, Size, OnEdges, Flow, PhaseOf;
    var dev := w.devs[d];
    var sent := Dev(No, dev.s.(waitingForAck := !dev.s.waitingForAck));
    assert w'.devs == w.devs[d := sent];
    assert DevOk(p, dev, d);
    ReadyPhase(p, dev, d);
    if dev.rts == Out(PIN_TICK) {
      TickPhase(p, dev, d);
      TickSent(p, w.devs, w.air, d);
      SentAir(p, w.air, d, PIN_TICK, ClockTreeMessage(dev.s.vertexCount));
    } else if d > 0 {
      AckPhase(p, dev, d);
      AckSent(p, w.devs, w.air, d);
      SentAir(p, w.air, d, PIN_ACK, ClockTreeMessage(dev.s.vertexCount));
    } else {
      AckPhase(p, dev, d);
      HostSent(p, w.devs, w.air);
      var host: Msg<ClockTreeMessage, ()> := ToHost(ClockTreeMessage(dev.s.vertexCount));
      assert host in w'.air && w'.air == w.air + multiset{host};
    }
  }

  lemma ReadyPhase(p: Setup, dev: ClockTreeDev, v: nat)
    requires v < |p.parent| && DevOk(p, dev, v) && dev.rts != No
    ensures if dev.rts == Out(PIN_TICK) then PhaseOf(dev) == WantTick
      else PhaseOf(dev) == WantAck && (dev.rts == HostPin || dev.rts == Out(PIN_ACK))
  {
    hide Size;
  }

  lemma SentAir(p: Setup, air: Air, v: nat, pin: nat, m: ClockTreeMessage)
    requires Proper(p) && v < |p.g| && forall c | c in air && c.Deliver? :: c.to < |p.g|
    ensures var air' := air + OnEdges(p.g[v], pin, m);
      && (forall c | c in air' && c.Deliver? :: c.to < |p.g|)
      && (forall c | c in air' && c.ToHost? :: c in air) && (forall c | c in air :: c in air')
  {
    hide OnEdges;
    forall c | c in OnEdges(p.g[v], pin, m) ensures c.Deliver? && c.to < |p.g| {
      OnEdgesAre(p.g[v], pin, m, c);
    }
  }

  lemma WaveReceives(p: Setup, w: ClockWorld, w': ClockWorld, m: Msg<ClockTreeMessage, ()>)
    requires Proper(p) && WaveInv(p, w.devs, w.air) && PhaseOf(w.devs[0]) != Untouched
    requires Receives(CLOCKTREE, w, w', m)
    ensures WaveInv(p, w'.devs, w'.air) && PhaseOf(w'.devs[0]) != Untouched
  {
    hide InAir, Size, Flow, PhaseOf, DevOk;
    assert w'.devs == w.devs[m.to := Recv(w.devs[m.to], m.payload, m.edge, Clock(w.time))];
    Received(p, w.devs, w.air, m, Clock(w.time));
    if c :| c in w.air && c.ToHost? {
      assert c in w'.air;
    }
    assert m.to != 0 ==> w'.devs[0] == w.devs[0];
  }

  lemma ClockActive(p: Setup, w: ClockWorld, w': ClockWorld)
    requires w.devs != [] && Steps(CLOCKTREE, w, w')
    ensures w'.active
  {
    assert CLOCKTREE.step(w.devs[0], Clock(w.time)).1;
  }

  lemma ClockNext(p: Setup, v: ClockWorld, w: ClockWorld)
    requires Proper(p) && |v.devs| == |p.g| && ClockInv(p, v) && Next(CLOCKTREE, p.g, v, w)
    ensures |w.devs| == |p.g| && ClockInv(p, w)
  {
    hide Proper, WaveInv, PhaseOf;
    NotEmpty(p);
    if d :| Sends(CLOCKTREE, p.g, v, w, d) {
      if v.time == 1 {
        WaveSends(p, v, w, d);
      }
    } else if m :| Receives(CLOCKTREE, v, w, m) {
      if v.time == 1 {
        WaveReceives(p, v, w, m);
      }
    } else {
      assert Steps(CLOCKTREE, v, w);
      ClockActive(p, v, w);
      if v.time == 0 {
        WaveBegins(p, v, w);
      }
    }
  }

  lemma NotEmpty(p: Setup)
    requires Proper(p)
    ensures p.g != []
  {
  }

  lemma {:induction false} ClockRuns(p: Setup, w: ClockWorld, n: nat)
    requires Proper(p) && Reach(CLOCKTREE, p.g, Begin(CLOCKTREE, p.memory), w, n)
    ensures |w.devs| == |p.g| && ClockInv(p, w)
    decreases n
  {
    hide Proper, ClockInv, Next, Begin;
    if n == 0 {
      ClockBegins(p);
    } else {
      var v :| Reach(CLOCKTREE, p.g, Begin(CLOCKTREE, p.memory), v, n - 1) && Next(CLOCKTREE, p.g, v, w);
      ClockRuns(p, v, n - 1);
      ClockNext(p, v, w);
    }
  }

  lemma ClockBegins(p: Setup)
    requires Proper(p)
    ensures |Begin(CLOCKTREE, p.memory).devs| == |p.g| && ClockInv(p, Begin(CLOCKTREE, p.memory))
  {
    hide WaveInv;
  }

  // When nothing moves, nobody waits
  lemma {:induction false} NobodyWaits(p: Setup, devs: seq<ClockTreeDev>, air: Air, v: nat)
    requires Proper(p) && WaveInv(p, devs, air) && v < |devs|
    requires (forall u | 0 <= u < |devs| :: devs[u].rts == No) && forall m | m in air :: m.ToHost?
    ensures PhaseOf(devs[v]) != Waiting
    decreases |devs| - v
  {
    hide InAir, Size, PhaseOf;
    assert DevOk(p, devs[v], v) && Flow(p, devs, air, v);
    PhaseCounts(p, devs[v], v);
    if PhaseOf(devs[v]) == Waiting {
      InAirNone(Number(), air, v, 0);
      var u := SomeNotAcked(p, Phases(devs), v, |devs|);
      NobodyWaits(p, devs, air, u);
      assert DevOk(p, devs[u], u) && Flow(p, devs, air, u);
      InAirNone(Number(), air, u, 0);
      KidAcked(p, devs, air, u);
    }
  }

  // A child that was reached, does not want to send and does not wait, has
  // acknowledged
  lemma KidAcked(p: Setup, devs: seq<ClockTreeDev>, air: Air, u: nat)
    requires Proper(p) && |devs| == |p.parent| && 0 < u < |devs| && DevOk(p, devs[u], u) && Flow(p, devs, air, u)
    requires devs[u].rts == No && InAir(Number(), air, u, 0) == 0.0
    requires Ticked(PhaseOf(devs[p.parent[u]])) && PhaseOf(devs[u]) != Waiting
    ensures PhaseOf(devs[u]) == Acked
  {
    hide InAir, Size;
    AckedBound(p, Phases(devs), u, |devs|);
    if PhaseOf(devs[u]) == Untouched && !devs[u].s.isLeaf {
      assert AckedKids(p, Phases(devs), u, |devs|) >= 0;
    }
  }

  // The subtrees that hang below the first k vertices count all the others
  ghost function Hanging(p: Setup, k: nat, n: nat): nat
    requires n <= |p.parent|
  {
    if n == 0 then 0
    else Hanging(p, k, n - 1) + (if 0 < n - 1 && k <= n - 1 && p.parent[n - 1] < k then Size(p, n - 1) else 0)
  }

  lemma {:induction false} HangingNext(p: Setup, k: nat, n: nat)
    requires Ordered(p) && 0 < k < |p.parent| && n <= |p.parent|
    ensures Hanging(p, k + 1, n) + (if k < n then Size(p, k) else 0) == Hanging(p, k, n) + KidSizes(p, k, n)
    decreases n
  {
    hide Size;
    if n > 0 {
      HangingNext(p, k, n - 1);
    }
  }

  lemma {:induction false} HangingAll(p: Setup, k: nat)
    requires Ordered(p) && 0 < k <= |p.parent|
    ensures Hanging(p, k, |p.parent|) == |p.parent| - k
    decreases |p.parent| - k
  {
    if k == |p.parent| {
      HangingNone(p, k, |p.parent|);
    } else {
      HangingAll(p, k + 1);
      HangingNext(p, k, |p.parent|);
      SizeIs(p, k);
    }
  }

  lemma {:induction false} HangingNone(p: Setup, k: nat, n: nat)
    requires n <= |p.parent| <= k
    ensures Hanging(p, k, n) == 0
    decreases n
  {
    if n > 0 {
      HangingNone(p, k, n - 1);
    }
  }

  lemma {:induction false} RootKids(p: Setup, n: nat)
    requires Ordered(p) && 0 < |p.parent| && n <= |p.parent|
    ensures Hanging(p, 1, n) == KidSizes(p, 0, n)
    decreases n
  {
    hide Size;
    if n > 0 {
      RootKids(p, n - 1);
    }
  }

  // The tree of the root is the whole tree
  lemma SizeAll(p: Setup)
    requires Ordered(p) && p.parent != []
    ensures Size(p, 0) == |p.parent|
  {
    HangingAll(p, 1);
    RootKids(p, |p.parent|);
    SizeIs(p, 0);
  }

  // In the first wave, whatever the order of deliveries: the machine cannot be
  // idle again before the root has sent to the host, and what it sends is the
  // number of vertices in the tree
  lemma ClockCorrect(p: Setup, w: ClockWorld)
    requires Proper(p) && Reachable(CLOCKTREE, p.g, p.memory, w) && w.time == 1
    ensures Quiet(w) ==> exists m :: m in w.air && m.ToHost?
    ensures forall m | m in w.air && m.ToHost? :: m.payload.vertexCount == |p.parent|
  {
    var n: nat :| Reach(CLOCKTREE, p.g, Begin(CLOCKTREE, p.memory), w, n);
    ClockRuns(p, w, n);
    SizeAll(p);
    hide Reach, Begin, Size, Proper, PhaseOf, Flow;
    if Quiet(w) {
      NobodyWaits(p, w.devs, w.air, 0);
      assert DevOk(p, w.devs[0], 0);
      QuietPhase(p, w.devs[0], 0);
    }
  }

  lemma QuietPhase(p: Setup, dev: ClockTreeDev, v: nat)
    requires v < |p.parent| && DevOk(p, dev, v) && dev.rts == No
    ensures PhaseOf(dev) == Untouched || PhaseOf(dev) == Waiting || PhaseOf(dev) == Acked
  {
    hide Size;
  }

  // When the root has told the host, every vertex has acknowledged
  lemma {:induction false} AllAcked(p: Setup, devs: seq<ClockTreeDev>, air: Air, v: nat)
    requires Proper(p) && WaveInv(p, devs, air) && v < |devs| && PhaseOf(devs[0]) == Acked
    ensures PhaseOf(devs[v]) == Acked
    decreases v
  {
    hide InAir, Size, PhaseOf;
    if v > 0 {
      var q := p.parent[v];
      AllAcked(p, devs, air, q);
      assert DevOk(p, devs[q], q) && Flow(p, devs, air, q);
      HasKid(p, q, v, |p.parent|);
      PhaseCounts(p, devs[q], q);
      SpecIs();
      InAirPositive(Number(), air, q, 0);
      AckedBound(p, Phases(devs), q, |devs|);
      if PhaseOf(devs[v]) != Acked {
        OneMissing(p, Phases(devs), q, v, |devs|);
      }
    }
  }

  lemma {:induction false} OneMissing(p: Setup, phs: seq<Phase>, q: nat, v: nat, n: nat)
    requires v < n <= |phs| && Child(p, v, q) && phs[v] != Acked
    ensures AckedKids(p, phs, q, n) < Kids(p, q, n)
    decreases n
  {
    AckedBound(p, phs, q, n - 1);
    if v < n - 1 {
      OneMissing(p, phs, q, v, n - 1);
    }
  }

  function Rank(ph: Phase): nat {
    match ph case Untouched => 0 case WantTick => 1 case Waiting => 2 case WantAck => 3 case Acked => 4
  }

  // In a step of the wave no phase goes back, and sending on a pin takes the
  // sender past the phase in which it can send on that pin
  lemma PhasesGrow(p: Setup, w: ClockWorld, w': ClockWorld, v: nat)
    requires Proper(p) && ClockInv(p, w) && w.time == w'.time == 1 && Next(CLOCKTREE, p.g, w, w') && v < |p.g|
    ensures |w.devs| == |w'.devs| == |p.g| && Rank(PhaseOf(w'.devs[v])) >= Rank(PhaseOf(w.devs[v]))
    ensures Sends(CLOCKTREE, p.g, w, w', v) ==> Rank(PhaseOf(w'.devs[v])) > Rank(PhaseOf(w.devs[v]))
  {
    hide Proper, PhaseOf, Flow, Size, InAir;
    if Sends(CLOCKTREE, p.g, w, w', v) {
      WaveSends(p, w, w', v);
    } else if d :| Sends(CLOCKTREE, p.g, w, w', d) {
      assert w'.devs[v] == w.devs[v];
    } else if m :| Receives(CLOCKTREE, w, w', m) {
      ReceiveGrows(p, w, w', m, v);
    }
  }

  lemma ReceiveGrows(p: Setup, w: ClockWorld, w': ClockWorld, m: Msg<ClockTreeMessage, ()>, v: nat)
    requires Proper(p) && WaveInv(p, w.devs, w.air) && Receives(CLOCKTREE, w, w', m) && v < |p.g|
    ensures |w'.devs| == |w.devs| == |p.g| && Rank(PhaseOf(w'.devs[v])) >= Rank(PhaseOf(w.devs[v]))
  {
    hide Proper, PhaseOf, Flow, Size, InAir, DevOk;
    assert |p.parent| == |p.g| by { SameSize(p); }
    if v == m.to {
      Receiver(p, w.devs, w.air, m);
      ReceivedPhase(p, w.devs[v], m.payload, m.edge, Clock(w.time), v);
      assert w'.devs[v] == Recv(w.devs[v], m.payload, m.edge, Clock(w.time));
    } else {
      assert w'.devs[v] == w.devs[v];
    }
  }

  lemma SameSize(p: Setup)
    requires Proper(p)
    ensures |p.parent| == |p.g|
  {
  }

  // ---------------------------------------------------------------------
  // Every edge of the tree carries one tick and one acknowledgement

  // The step is a send of vertex v on a pin
  ghost predicate SendsOn(p: Setup, w: ClockWorld, w': ClockWorld, v: nat, pin: Pin) {
    Sends(CLOCKTREE, p.g, w, w', v) && w.devs[v].rts == pin
  }

  // Sends of v on a pin in the first n steps of a run
  ghost function SendCount(p: Setup, run: seq<ClockWorld>, v: nat, pin: Pin, n: nat): nat
    requires n < |run|
  {
    if n == 0 then 0
    else SendCount(p, run, v, pin, n - 1) + if SendsOn(p, run[n - 1], run[n], v, pin) then 1 else 0
  }

  // A run of the first wave, from its first world on
  ghost predicate Wave(p: Setup, run: seq<ClockWorld>) {
    && run != [] && Steps(CLOCKTREE, Begin(CLOCKTREE, p.memory), run[0])
    && (forall k | 0 <= k < |run| :: run[k].time == 1)
    && (forall k | 0 <= k < |run| - 1 :: Next(CLOCKTREE, p.g, run[k], run[k + 1]))
  }

  function Once(b: bool): nat { if b then 1 else 0 }

  // What a vertex in this phase has sent on a pin: leaves do not tick, and only
  // the root tells the host
  function HasSent(p: Setup, v: nat, ph: Phase, pin: Pin): nat {
    if pin == Out(PIN_TICK) then Once(Kids(p, v, |p.parent|) > 0 && Ticked(ph))
    else if pin == Out(PIN_ACK) then Once(v > 0 && ph == Acked)
    else if pin == HostPin then Once(v == 0 && ph == Acked)
    else 0
  }

  // A step of the wave takes a vertex past the phase in which it sends on a pin
  // only by that send
  lemma PhaseBySend(p: Setup, w: ClockWorld, w': ClockWorld, v: nat, pin: Pin)
    requires Proper(p) && ClockInv(p, w) && w.time == w'.time == 1 && Next(CLOCKTREE, p.g, w, w') && v < |p.g|
    ensures |w.devs| == |w'.devs| == |p.g|
    ensures HasSent(p, v, PhaseOf(w'.devs[v]), pin)
      == HasSent(p, v, PhaseOf(w.devs[v]), pin) + Once(SendsOn(p, w, w', v, pin))
  {
    hide Proper, PhaseOf, Flow, Size, InAir, Kids, HasSent, DevOk;
    SameSize(p);
    if Sends(CLOCKTREE, p.g, w, w', v) {
      PhaseSent(p, w, w', v, pin);
    } else if d :| Sends(CLOCKTREE, p.g, w, w', d) {
      assert w'.devs[v] == w.devs[v];
    } else if m :| Receives(CLOCKTREE, w, w', m) {
      if v == m.to {
        PhaseReceived(p, w, w', m, pin);
      } else {
        assert w'.devs[v] == w.devs[v];
      }
    }
  }

  lemma PhaseSent(p: Setup, w: ClockWorld, w': ClockWorld, v: nat, pin: Pin)
    requires Proper(p) && WaveInv(p, w.devs, w.air) && PhaseOf(w.devs[0]) != Untouched
    requires Sends(CLOCKTREE, p.g, w, w', v)
    ensures HasSent(p, v, PhaseOf(w'.devs[v]), pin)
      == HasSent(p, v, PhaseOf(w.devs[v]), pin) + Once(w.devs[v].rts == pin)
  {
    hide Proper, PhaseOf, Flow, Size, InAir, Kids;
    WaveSends(p, w, w', v);
    ReadyPins(p, w.devs[v], v);
  }

  lemma PhaseReceived(p: Setup, w: ClockWorld, w': ClockWorld, m: Msg<ClockTreeMessage, ()>, pin: Pin)
    requires Proper(p) && WaveInv(p, w.devs, w.air) && Receives(CLOCKTREE, w, w', m)
    ensures HasSent(p, m.to, PhaseOf(w'.devs[m.to]), pin) == HasSent(p, m.to, PhaseOf(w.devs[m.to]), pin)
  {
    hide Proper, PhaseOf, Flow, Size, InAir, Kids;
    var v := m.to;
    assert DevOk(p, w.devs[v], v);
    Receiver(p, w.devs, w.air, m);
    ReceivedPhase(p, w.devs[v], m.payload, m.edge, Clock(w.time), v);
    assert w'.devs[v] == Recv(w.devs[v], m.payload, m.edge, Clock(w.time));
  }

  lemma ReadyPins(p: Setup, dev: ClockTreeDev, v: nat)
    requires Proper(p) && v < |p.parent| && DevOk(p, dev, v) && dev.rts != No
    ensures dev.rts == (if PhaseOf(dev) == WantTick then Out(PIN_TICK) else if v == 0 then HostPin else Out(PIN_ACK))
    ensures PhaseOf(dev) == WantTick || v == 0 ==> Kids(p, v, |p.parent|) > 0
  {
    hide Size;
  }

  // Hence, in the first wave, no vertex sends twice on the same pin
  lemma {:induction false} SendsOnce(p: Setup, run: seq<ClockWorld>, i: nat, j: nat, v: nat, pin: Pin)
    requires Proper(p) && i < j < |run| && v < |p.g|
    requires forall k | i <= k < |run| :: run[k].time == 1 && ClockInv(p, run[k])
    requires forall k | i <= k < |run| - 1 :: Next(CLOCKTREE, p.g, run[k], run[k + 1])
    requires SendsOn(p, run[i], run[i + 1], v, pin)
    ensures |run[j].devs| == |p.g| && HasSent(p, v, PhaseOf(run[j].devs[v]), pin) == 1
    ensures j < |run| - 1 ==> !SendsOn(p, run[j], run[j + 1], v, pin)
    decreases j
  {
    hide Proper, ClockInv, Next, Sends, SendsOn, PhaseOf;
    assert Next(CLOCKTREE, p.g, run[j - 1], run[j - 1 + 1]);
    PhaseBySend(p, run[j - 1], run[j], v, pin);
    if j > i + 1 {
      SendsOnce(p, run, i, j - 1, v, pin);
    }
    if j < |run| - 1 {
      PhaseBySend(p, run[j], run[j + 1], v, pin);
    }
  }

  lemma {:induction false} SendsSoFar(p: Setup, run: seq<ClockWorld>, v: nat, pin: Pin, n: nat)
    requires Proper(p) && Wave(p, run) && n < |run| && v < |p.g|
    ensures |run[n].devs| == |p.g| && ClockInv(p, run[n])
    ensures SendCount(p, run, v, pin, n) == HasSent(p, v, PhaseOf(run[n].devs[v]), pin)
    decreases n
  {
    hide Proper, ClockInv, Next, SendsOn, HasSent, PhaseOf, Steps, Begin;
    if n == 0 {
      WaveStart(p, run[0], v, pin);
    } else {
      SendsSoFar(p, run, v, pin, n - 1);
      assert Next(CLOCKTREE, p.g, run[n - 1], run[n - 1 + 1]);
      PhaseBySend(p, run[n - 1], run[n], v, pin);
      ClockNext(p, run[n - 1], run[n]);
    }
  }

  lemma WaveStart(p: Setup, w: ClockWorld, v: nat, pin: Pin)
    requires Proper(p) && Steps(CLOCKTREE, Begin(CLOCKTREE, p.memory), w) && v < |p.g|
    ensures |w.devs| == |p.g| && ClockInv(p, w) && HasSent(p, v, PhaseOf(w.devs[v]), pin) == 0
  {
    hide Size, Kids, WaveInv, PhaseOf;
    WaveBegins(p, Begin(CLOCKTREE, p.memory), w);
    NotEmpty(p);
    ClockActive(p, Begin(CLOCKTREE, p.memory), w);
    BeginPhase(p, v);
    assert w.devs[v] == Step(Init(p.memory[v]), Clock(0)).0;
  }

  // In any run of the first wave that has come to the message to the host, this
  // is the only one, every vertex with children has ticked once and every other
  // vertex never, and all but the root have acknowledged once.  So each edge of
  // the tree has carried one tick and one acknowledgement, and no other pair of
  // vertices has exchanged anything.
  lemma EdgesOnce(p: Setup, run: seq<ClockWorld>)
    requires Proper(p) && Wave(p, run)
    requires |run[|run| - 1].devs| == |p.g| && PhaseOf(run[|run| - 1].devs[0]) == Acked
    ensures forall v: nat | v < |p.g| ::
      && SendCount(p, run, v, Out(PIN_TICK), |run| - 1) == Once(Kids(p, v, |p.parent|) > 0)
      && SendCount(p, run, v, Out(PIN_ACK), |run| - 1) == Once(v > 0)
      && SendCount(p, run, v, HostPin, |run| - 1) == Once(v == 0)
    ensures forall v: nat, u: nat | v < |p.g| && u < |p.g| ::
      && SendCount(p, run, v, Out(PIN_TICK), |run| - 1) * Count(p.g[v], PIN_TICK, u) == Once(Child(p, u, v))
      && SendCount(p, run, v, Out(PIN_ACK), |run| - 1) * Count(p.g[v], PIN_ACK, u) == Once(Child(p, v, u))
  {
    var n := |run| - 1;
    hide SendCount, PhaseOf, WaveInv, Next, Steps, Begin, Count, Kids;
    forall v: nat | v < |p.g|
      ensures SendCount(p, run, v, Out(PIN_TICK), n) == Once(Kids(p, v, |p.parent|) > 0)
      ensures SendCount(p, run, v, Out(PIN_ACK), n) == Once(v > 0)
      ensures SendCount(p, run, v, HostPin, n) == Once(v == 0)
    {
      SendsSoFar(p, run, v, Out(PIN_TICK), n);
      SendsSoFar(p, run, v, Out(PIN_ACK), n);
      SendsSoFar(p, run, v, HostPin, n);
      AllAcked(p, run[n].devs, run[n].air, v);
    }
    forall v: nat, u: nat | v < |p.g| && u < |p.g|
      ensures SendCount(p, run, v, Out(PIN_TICK), n) * Count(p.g[v], PIN_TICK, u) == Once(Child(p, u, v))
      ensures SendCount(p, run, v, Out(PIN_ACK), n) * Count(p.g[v], PIN_ACK, u) == Once(Child(p, v, u))
    {
      if Child(p, u, v) {
        HasKid(p, v, u, |p.parent|);
      }
    }
  }
}
