// The GALS heat simulation: neighbours stay within one time step of each other,
// and the result is that of the synchronous iteration, in exact arithmetic.
module HeatGals {
  import opened Vertices
  import opened Gals

  datatype HeatMessage = HeatMessage(from: nat, time: int, val: real)

  datatype HeatState = HeatState(
    // How many neighbours it hears from
    fanIn: nat,
    // Its number
    id: nat,
    // Its own time step
    time: nat,
    // Its temperature
    val: real,
    // Accumulators for temperatures received at times t and t+1
    acc: real, accNext: real,
    // Has this device sent, and how many messages (8 bits) has it received?
    sent: bool, received: nat, receivedNext: nat,
    // Does it keep its temperature?
    isConstant: bool)

  type HeatDev = Dev<HeatState>

  // ---------------------------------------------------------------------
  // Handlers

  predicate Ready(s: HeatState) { s.time != 0 && s.sent && s.received == s.fanIn }

  // acc / fanIn; without neighbours the quotient is not a number, and no claim
  // is made about it
  function Average(acc: real, fanIn: nat): real { if fanIn == 0 then 0.0 else acc / fanIn as real }

  function Advance(s: HeatState): HeatState
    requires Ready(s)
  {
    HeatState(s.fanIn, s.id, s.time - 1, if s.isConstant then s.val else Average(s.acc, s.fanIn),
              s.accNext, 0.0, false, s.receivedNext, 0, s.isConstant)
  }

  function Change(dev: HeatDev): HeatDev {
    if Ready(dev.s) then Dev(if dev.s.time == 1 then No else Out(0), Advance(dev.s)) else dev
  }

  function Init(dev: HeatDev): HeatDev { Dev(Out(0), dev.s) }

  function Send(dev: HeatDev, time: nat): (HeatDev, HeatMessage) {
    (Change(Dev(No, dev.s.(sent := true))), HeatMessage(dev.s.id, dev.s.time, dev.s.val))
  }

  function Recv(dev: HeatDev, m: HeatMessage, edge: (), time: nat): HeatDev {
    if m.time == dev.s.time then
      Change(dev.(s := dev.s.(acc := dev.s.acc + m.val, received := (dev.s.received + 1) % 256)))
    else
      dev.(s := dev.s.(accNext := dev.s.accNext + m.val, receivedNext := (dev.s.receivedNext + 1) % 256))
  }

  function Step(dev: HeatDev, time: nat): (HeatDev, bool) { (Dev(No, dev.s), false) }

  function Finish(dev: HeatDev, time: nat): (HeatDev, Reply<HeatMessage>) {
    (dev, Says(HeatMessage(dev.s.id, 0, dev.s.val)))
  }

  const HEAT: App<HeatState, HeatMessage, ()> := App(Init, Send, Recv, Step, Finish)

  // The device, with handlers that update its state
  class HeatDevice {
    var s: HeatState
    var readyToSend: Pin

    function View(): HeatDev
      reads this
    {
      Dev(readyToSend, s)
    }

    constructor (s: HeatState, readyToSend: Pin)
      ensures View() == Dev(readyToSend, s)
    {
      this.s, this.readyToSend := s, readyToSend;
    }

    method CallInit()
      modifies this
      ensures View() == old(Init(View()))
    {
      readyToSend := Out(0);
    }

    // The part that all handlers end with
    method CallChange()
      modifies this
      ensures View() == old(Change(View()))
    {
      if s.time == 0 {
        return;
      }
      if s.sent && s.received == s.fanIn {
        s := s.(time := s.time - 1);
        if !s.isConstant {
          s := s.(val := Average(s.acc, s.fanIn));
        }
        s := s.(acc := s.accNext, received := s.receivedNext);
        s := s.(accNext := 0.0, receivedNext := 0, sent := false);
        readyToSend := if s.time == 0 then No else Out(0);
      }
    }

    method CallSend(time: nat) returns (msg: HeatMessage)
      modifies this
      ensures (View(), msg) == old(Send(View(), time))
    {
      msg := HeatMessage(s.id, s.time, s.val);
      s := s.(sent := true);
      readyToSend := No;
      CallChange();
    }

    method CallRecv(msg: HeatMessage, edge: (), time: nat)
      modifies this
      ensures View() == old(Recv(View(), msg, edge, time))
    {
      if msg.time == s.time {
        s := s.(acc := s.acc + msg.val, received := (s.received + 1) % 256);
        CallChange();
      } else {
        s := s.(accNext := s.accNext + msg.val, receivedNext := (s.receivedNext + 1) % 256);
      }
    }
  }

  // ---------------------------------------------------------------------
  // The synchronous iteration

  datatype Setup = Setup(g: Graph<()>, memory: seq<HeatDev>, steps: nat)

  // Sum of the temperatures of the neighbours, over all in-edges from the first n
  ghost function NeighbourSum(p: Setup, k: nat, v: nat, n: nat): real
    requires n <= |p.g|
    decreases k, 1, n
  {
    if n == 0 then 0.0
    else NeighbourSum(p, k, v, n - 1) + Times(EdgesTo(p.g[n - 1], v), Val(p, k, n - 1))
  }

  // Temperature of v after k steps
  ghost function Val(p: Setup, k: nat, v: nat): real
    decreases k, 0, 0
  {
    if v >= |p.memory| then 0.0
    else if k == 0 then p.memory[v].s.val
    else if p.memory[v].s.isConstant then Val(p, k - 1, v)
    else
      var n := FanIn(p.g, v, |p.g|);
      if n == 0 then 0.0 else NeighbourSum(p, k - 1, v, |p.g|) / n as real
  }

  // What the program asks of its graph and of the initial states: edges in both
  // directions, between 1 and 255 in-edges, and the same number of steps for all
  ghost predicate Proper(p: Setup) {
    && |p.g| == |p.memory| && Wellformed(p.g)
    && (forall u: nat, v: nat | u < |p.g| && v < |p.g| :: Linked(p.g, u, v) ==> Linked(p.g, v, u))
    && (forall v | 0 <= v < |p.g| ::
          var s := p.memory[v].s;
          && s.fanIn == FanIn(p.g, v, |p.g|) && 0 < s.fanIn <= 255 && s.id == v && s.time == p.steps
          && s.acc == s.accNext == 0.0 && !s.sent && s.received == s.receivedNext == 0)
  }

  // How to read the messages, as counts and as temperatures
  function Stamp(p: Setup, m: HeatMessage): nat { if m.time <= p.steps then p.steps - m.time else 0 }

  ghost function Words(p: Setup): (nat, nat) -> HeatMessage {
    (u: nat, k: nat) => HeatMessage(u, p.steps - k, Val(p, k, u))
  }

  ghost function Counter(p: Setup): Spec<HeatMessage> {
    Spec(m => Stamp(p, m), _ => 1.0, Words(p))
  }

  ghost function Thermometer(p: Setup): Spec<HeatMessage> {
    Spec(m => Stamp(p, m), (m: HeatMessage) => m.val, Words(p))
  }

  function StepOf(p: Setup, s: HeatState): nat {
    if s.time <= p.steps then p.steps - s.time else 0
  }

  function SentBy(p: Setup, devs: seq<HeatDev>): seq<nat> {
    seq(|devs|, u requires 0 <= u < |devs| => StepOf(p, devs[u].s) + if devs[u].s.sent then 1 else 0)
  }

  // What has been taken in
  ghost function Counted(p: Setup, s: HeatState, v: nat, k: nat): real {
    if k < StepOf(p, s) then s.fanIn as real
    else if k == StepOf(p, s) then s.received as real
    else if k == StepOf(p, s) + 1 then s.receivedNext as real
    else 0.0
  }

  ghost function Felt(p: Setup, s: HeatState, v: nat, k: nat): real {
    if k < StepOf(p, s) then Gals.Total<HeatMessage, ()>(Thermometer(p), p.g, v, k, |p.g|)
    else if k == StepOf(p, s) then s.acc
    else if k == StepOf(p, s) + 1 then s.accNext
    else 0.0
  }

  ghost function Counts0(p: Setup, devs: seq<HeatDev>): Account {
    (v: nat, k: nat) => if v < |devs| then Counted(p, devs[v].s, v, k) else 0.0
  }

  ghost function Feels(p: Setup, devs: seq<HeatDev>): Account {
    (v: nat, k: nat) => if v < |devs| then Felt(p, devs[v].s, v, k) else 0.0
  }

  // ---------------------------------------------------------------------
  // The invariant

  type Air = multiset<Msg<HeatMessage, ()>>

  ghost predicate DevOk(p: Setup, dev: HeatDev, v: nat)
    requires v < |p.memory|
  {
    var s := dev.s;
    && s.fanIn == p.memory[v].s.fanIn && s.id == v && s.isConstant == p.memory[v].s.isConstant
    && s.time <= p.steps && s.val == Val(p, StepOf(p, s), v)
    && (dev.rts != No ==> dev.rts == Out(0) && !s.sent)
    && (!s.sent && s.time > 0 ==> dev.rts == Out(0))
    && !Ready(s)
  }

  // The accounts are in order, and no vertex is ahead of what it has been told
  ghost predicate Core(p: Setup, devs: seq<HeatDev>, air: Air)
    requires |devs| == |p.g|
  {
    && Balanced(Counter(p), p.g, SentBy(p, devs), Counts0(p, devs), air)
    && Balanced(Thermometer(p), p.g, SentBy(p, devs), Feels(p, devs), air)
    && Sincere(Counter(p), p.g, SentBy(p, devs), air)
    && forall u: nat, v: nat | u < |p.g| && v < |p.g| && Linked(p.g, u, v) ::
         StepOf(p, devs[v].s) <= SentBy(p, devs)[u]
  }

  ghost predicate HeatInv(p: Setup, w: World<HeatState, HeatMessage, ()>) {
    && |w.devs| == |p.g| == |p.memory|
    && (forall v | 0 <= v < |w.devs| :: DevOk(p, w.devs[v], v))
    && Core(p, w.devs, w.air)
    && (w.done ==> forall v | 0 <= v < |w.devs| :: w.devs[v].s.time == 0)
    && (forall m | m in w.air && m.ToHost? :: w.done && m.payload.val == Val(p, p.steps, m.payload.from))
  }

  // ---------------------------------------------------------------------
  // What the handlers do to the accounts

  lemma SpecFacts(p: Setup)
    ensures SpecOk(Counter(p)) && SpecOk(Thermometer(p)) && Counts(Counter(p))
  {
  }

  // A device between two changes
  ghost predicate DevFits(p: Setup, dev: HeatDev, v: nat)
    requires v < |p.memory|
  {
    var s := dev.s;
    && s.fanIn == p.memory[v].s.fanIn && s.id == v && s.isConstant == p.memory[v].s.isConstant
    && s.time <= p.steps && s.val == Val(p, StepOf(p, s), v)
    && (dev.rts != No ==> dev.rts == Out(0) && !s.sent)
    && (!s.sent && s.time > 0 ==> dev.rts == Out(0))
  }

  ghost predicate AllFit(p: Setup, devs: seq<HeatDev>) {
    |devs| == |p.g| == |p.memory| && forall v | 0 <= v < |devs| :: DevFits(p, devs[v], v)
  }

  lemma CoreSend(p: Setup, devs: seq<HeatDev>, air: Air, u: nat)
    requires AllFit(p, devs) && Core(p, devs, air) && u < |devs| && !devs[u].s.sent
    ensures var s := devs[u].s;
      Core(p, devs[u := Dev(No, s.(sent := true))], air + OnEdges(p.g[u], 0, HeatMessage(s.id, s.time, s.val)))
  {
    hide InAir, Expected, OnEdges, Gals.Total, FanIn, Linked, Balanced, Sincere, Val;
    SpecFacts(p);
    var s := devs[u].s;
    var devs' := devs[u := Dev(No, s.(sent := true))];
    assert DevFits(p, devs[u], u);
    var sent := SentBy(p, devs);
    assert SentBy(p, devs') == sent[u := sent[u] + 1];
    assert Words(p)(u, sent[u]) == HeatMessage(s.id, s.time, s.val);
    SentCounts(p, devs, air, u);
    SentFeels(p, devs, air, u);
  }

  lemma SentCounts(p: Setup, devs: seq<HeatDev>, air: Air, u: nat)
    requires |devs| == |p.g| && u < |devs| && Balanced(Counter(p), p.g, SentBy(p, devs), Counts0(p, devs), air)
    requires Sincere(Counter(p), p.g, SentBy(p, devs), air)
    ensures var sent := SentBy(p, devs);
      var sent' := sent[u := sent[u] + 1];
      var air' := air + OnEdges(p.g[u], 0, Words(p)(u, sent[u]));
      && Sincere(Counter(p), p.g, sent', air')
      && Balanced(Counter(p), p.g, sent', Counts0(p, devs[u := Dev(No, devs[u].s.(sent := true))]), air')
  {
    hide InAir, Expected, OnEdges, Linked, Balanced, Sincere;
    SpecFacts(p);
    var sent := SentBy(p, devs);
    AfterSend(Counter(p), p.g, sent, Counts0(p, devs), air, u);
    SameAccount(Counter(p), p.g, sent[u := sent[u] + 1], Counts0(p, devs),
                Counts0(p, devs[u := Dev(No, devs[u].s.(sent := true))]), air + OnEdges(p.g[u], 0, Words(p)(u, sent[u])));
  }

  lemma SentFeels(p: Setup, devs: seq<HeatDev>, air: Air, u: nat)
    requires |devs| == |p.g| && u < |devs| && Balanced(Thermometer(p), p.g, SentBy(p, devs), Feels(p, devs), air)
    requires Sincere(Counter(p), p.g, SentBy(p, devs), air)
    ensures var sent := SentBy(p, devs);
      Balanced(Thermometer(p), p.g, sent[u := sent[u] + 1], Feels(p, devs[u := Dev(No, devs[u].s.(sent := true))]),
               air + OnEdges(p.g[u], 0, Words(p)(u, sent[u])))
  {
    hide InAir, Expected, OnEdges, Linked, Balanced, Gals.Total, Sincere;
    SpecFacts(p);
    var sent := SentBy(p, devs);
    SincereBoth(p, sent, air);
    AfterSend(Thermometer(p), p.g, sent, Feels(p, devs), air, u);
    SameAccount(Thermometer(p), p.g, sent[u := sent[u] + 1], Feels(p, devs),
                Feels(p, devs[u := Dev(No, devs[u].s.(sent := true))]), air + OnEdges(p.g[u], 0, Words(p)(u, sent[u])));
  }

  lemma SincereBoth(p: Setup, sent: seq<nat>, air: Air)
    requires |sent| == |p.g|
    ensures Sincere(Counter(p), p.g, sent, air) <==> Sincere(Thermometer(p), p.g, sent, air)
  {
    forall m | m in air && m.Deliver?
      ensures SaidBySomeone(Counter(p), p.g, sent, m) <==> SaidBySomeone(Thermometer(p), p.g, sent, m)
    {
    }
  }

  // A message in the air is for the current or the next step of its receiver,
  // who has not heard from everyone for that step
  lemma StampNear(p: Setup, devs: seq<HeatDev>, air: Air, m: Msg<HeatMessage, ()>)
    requires Proper(p) && AllFit(p, devs) && Core(p, devs, air) && m in air && m.Deliver? && m.to < |devs|
    ensures var s, k := devs[m.to].s, Stamp(p, m.payload);
      && (k == StepOf(p, s) || k == StepOf(p, s) + 1)
      && m.payload.time == p.steps - k
      && Counted(p, s, m.to, k) < s.fanIn as real
  {
    hide InAir, Expected, Gals.Total, FanIn, Linked, Val;
    SpecFacts(p);
    var v, k := m.to, Stamp(p, m.payload);
    var s := devs[v].s;
    assert DevFits(p, devs[v], v);
    assert SaidBySomeone(Counter(p), p.g, SentBy(p, devs), m);
    var u: nat :| u < |p.g| && Linked(p.g, u, v) && k < SentBy(p, devs)[u] && m.payload == Words(p)(u, k);
    assert Linked(p.g, v, u);
    TakenBound(Counter(p), p.g, SentBy(p, devs), Counts0(p, devs), air, v, k);
    assert Counts0(p, devs)(v, k) == Counted(p, s, v, k);
  }

  lemma CoreRecv(p: Setup, devs: seq<HeatDev>, air: Air, m: Msg<HeatMessage, ()>)
    requires Proper(p) && AllFit(p, devs) && Core(p, devs, air) && m in air && m.Deliver? && m.to < |devs|
    ensures var s := devs[m.to].s;
      var s' := if m.payload.time == s.time
        then s.(acc := s.acc + m.payload.val, received := (s.received + 1) % 256)
        else s.(accNext := s.accNext + m.payload.val, receivedNext := (s.receivedNext + 1) % 256);
      Core(p, devs[m.to := devs[m.to].(s := s')], air - multiset{m})
  {
    hide InAir, Expected, Gals.Total, FanIn, Linked, Val, Balanced, Sincere;
    var v := m.to;
    var s := devs[v].s;
    var s' := if m.payload.time == s.time
      then s.(acc := s.acc + m.payload.val, received := (s.received + 1) % 256)
      else s.(accNext := s.accNext + m.payload.val, receivedNext := (s.receivedNext + 1) % 256);
    var devs' := devs[v := devs[v].(s := s')];
    assert DevFits(p, devs[v], v);
    StampNear(p, devs, air, m);
    var sent := SentBy(p, devs);
    assert SentBy(p, devs') == sent;
    assert s.fanIn <= 255;
    RecvCounts(p, devs, devs', air, m);
    RecvFeels(p, devs, devs', air, m);
  }

  lemma RecvCounts(p: Setup, devs: seq<HeatDev>, devs': seq<HeatDev>, air: Air, m: Msg<HeatMessage, ()>)
    requires |devs| == |p.g| && Balanced(Counter(p), p.g, SentBy(p, devs), Counts0(p, devs), air)
    requires Sincere(Counter(p), p.g, SentBy(p, devs), air) && m in air && m.Deliver? && m.to < |devs|
    requires |devs'| == |devs| && devs' == devs[m.to := devs'[m.to]]
    requires var s, s', k := devs[m.to].s, devs'[m.to].s, Stamp(p, m.payload);
      && s'.time == s.time && s'.fanIn == s.fanIn
      && ((k == StepOf(p, s) && s'.received == s.received + 1 && s'.receivedNext == s.receivedNext)
          || (k == StepOf(p, s) + 1 && s'.received == s.received && s'.receivedNext == s.receivedNext + 1))
    ensures Sincere(Counter(p), p.g, SentBy(p, devs), air - multiset{m})
    ensures Balanced(Counter(p), p.g, SentBy(p, devs), Counts0(p, devs'), air - multiset{m})
  {
    hide InAir, Expected, Linked, Balanced, Sincere;
    forall v: nat, k: nat | v < |p.g|
      ensures Counts0(p, devs')(v, k) == Counts0(p, devs)(v, k) + Weigh(Counter(p), m, v, k)
    {
    }
    AfterReceive(Counter(p), p.g, SentBy(p, devs), Counts0(p, devs), Counts0(p, devs'), air, m);
  }

  lemma RecvFeels(p: Setup, devs: seq<HeatDev>, devs': seq<HeatDev>, air: Air, m: Msg<HeatMessage, ()>)
    requires |devs| == |p.g| && Balanced(Thermometer(p), p.g, SentBy(p, devs), Feels(p, devs), air)
    requires Sincere(Counter(p), p.g, SentBy(p, devs), air) && m in air && m.Deliver? && m.to < |devs|
    requires |devs'| == |devs| && devs' == devs[m.to := devs'[m.to]]
    requires var s, s', k := devs[m.to].s, devs'[m.to].s, Stamp(p, m.payload);
      && s'.time == s.time
      && ((k == StepOf(p, s) && s'.acc == s.acc + m.payload.val && s'.accNext == s.accNext)
          || (k == StepOf(p, s) + 1 && s'.acc == s.acc && s'.accNext == s.accNext + m.payload.val))
    ensures Balanced(Thermometer(p), p.g, SentBy(p, devs), Feels(p, devs'), air - multiset{m})
  {
    hide InAir, Expected, Linked, Balanced, Sincere, Gals.Total;
    SincereBoth(p, SentBy(p, devs), air);
    forall v: nat, k: nat | v < |p.g|
      ensures Feels(p, devs')(v, k) == Feels(p, devs)(v, k) + Weigh(Thermometer(p), m, v, k)
    {
    }
    AfterReceive(Thermometer(p), p.g, SentBy(p, devs), Feels(p, devs), Feels(p, devs'), air, m);
  }

  // Moving on to the next step
  lemma CoreAdvance(p: Setup, devs: seq<HeatDev>, air: Air, v: nat, rts: Pin)
    requires Proper(p) && AllFit(p, devs) && Core(p, devs, air) && v < |devs| && Ready(devs[v].s)
    ensures Core(p, devs[v := Dev(rts, Advance(devs[v].s))], air)
    ensures var s := Advance(devs[v].s); s.val == Val(p, StepOf(p, s), v)
  {
    hide InAir, Expected, Gals.Total, FanIn, Linked, Val, Balanced, Sincere;
    SpecFacts(p);
    var s := devs[v].s;
    var devs' := devs[v := Dev(rts, Advance(s))];
    var k := StepOf(p, s);
    assert DevFits(p, devs[v], v);
    var sent := SentBy(p, devs);
    assert SentBy(p, devs') == sent;
    assert Counts0(p, devs)(v, k) == FanIn(p.g, v, |p.g|) as real;
    Full(Counter(p), p.g, sent, Counts0(p, devs), air, v, k);
    AllWeighed(Thermometer(p), p.g, sent, Feels(p, devs), air, v, k);
    AdvanceAccounts(p, devs, devs', air, v);
    TotalIs(p, k, v, |p.g|);
    NextVal(p, k, v);
  }

  lemma AdvanceAccounts(p: Setup, devs: seq<HeatDev>, devs': seq<HeatDev>, air: Air, v: nat)
    requires |devs| == |p.g| && v < |devs| && Ready(devs[v].s) && devs[v].s.time <= p.steps
    requires |devs'| == |devs| && devs' == devs[v := devs'[v]] && devs'[v].s == Advance(devs[v].s)
    requires Balanced(Counter(p), p.g, SentBy(p, devs), Counts0(p, devs), air)
    requires Balanced(Thermometer(p), p.g, SentBy(p, devs), Feels(p, devs), air)
    requires devs[v].s.acc == Gals.Total<HeatMessage, ()>(Thermometer(p), p.g, v, StepOf(p, devs[v].s), |p.g|)
    ensures Balanced(Counter(p), p.g, SentBy(p, devs), Counts0(p, devs'), air)
    ensures Balanced(Thermometer(p), p.g, SentBy(p, devs), Feels(p, devs'), air)
  {
    hide InAir, Expected, Gals.Total, Balanced;
    forall u: nat, k: nat | u < |p.g|
      ensures Counts0(p, devs')(u, k) == Counts0(p, devs)(u, k)
      ensures Feels(p, devs')(u, k) == Feels(p, devs)(u, k)
    {
    }
    SameAccount(Counter(p), p.g, SentBy(p, devs), Counts0(p, devs), Counts0(p, devs'), air);
    SameAccount(Thermometer(p), p.g, SentBy(p, devs), Feels(p, devs), Feels(p, devs'), air);
  }

  lemma {:induction false} TotalIs(p: Setup, k: nat, v: nat, n: nat)
    requires n <= |p.g|
    ensures Gals.Total<HeatMessage, ()>(Thermometer(p), p.g, v, k, n) == NeighbourSum(p, k, v, n)
    decreases n
  {
    hide Val, Times, InAir, EdgesTo, OnEdges;
    if n > 0 {
      TotalIs(p, k, v, n - 1);
      EdgesToWeigh(Thermometer(p), p.g[n - 1], v, Words(p)(n - 1, k));
    }
  }

  lemma NextVal(p: Setup, k: nat, v: nat)
    requires v < |p.memory|
    ensures Val(p, k + 1, v) == if p.memory[v].s.isConstant then Val(p, k, v)
      else
        var n := FanIn(p.g, v, |p.g|);
        if n == 0 then 0.0 else NeighbourSum(p, k, v, |p.g|) / n as real
  {
  }

  ghost predicate AllOk(p: Setup, devs: seq<HeatDev>) {
    |devs| == |p.g| == |p.memory| && forall v | 0 <= v < |devs| :: DevOk(p, devs[v], v)
  }

  // After a change of state, the device may move on
  lemma ChangeOk(p: Setup, devs: seq<HeatDev>, air: Air, v: nat)
    requires Proper(p) && AllFit(p, devs) && Core(p, devs, air) && v < |devs|
    requires forall u | 0 <= u < |devs| && u != v :: DevOk(p, devs[u], u)
    ensures AllOk(p, devs[v := Change(devs[v])]) && Core(p, devs[v := Change(devs[v])], air)
  {
    hide Core, Val;
    assert DevFits(p, devs[v], v);
    if Ready(devs[v].s) {
      CoreAdvance(p, devs, air, v, Change(devs[v]).rts);
      assert DevOk(p, Change(devs[v]), v);
    } else {
      assert devs[v := Change(devs[v])] == devs;
    }
  }

  // ---------------------------------------------------------------------
  // Every run

  lemma HeatBegins(p: Setup)
    requires Proper(p)
    ensures HeatInv(p, Begin(HEAT, p.memory))
  {
    hide InAir, Expected, Gals.Total, FanIn, Linked, Balanced, Sincere, EdgesTo, NeighbourSum;
    var w := Begin(HEAT, p.memory);
    forall v | 0 <= v < |w.devs| ensures DevOk(p, w.devs[v], v) {
      assert w.devs[v] == Init(p.memory[v]);
    }
    AtStart<HeatMessage, ()>(Counter(p), p.g, SentBy(p, w.devs), Counts0(p, w.devs));
    AtStart<HeatMessage, ()>(Thermometer(p), p.g, SentBy(p, w.devs), Feels(p, w.devs));
  }

  lemma HeatSends(p: Setup, w: World<HeatState, HeatMessage, ()>, w': World<HeatState, HeatMessage, ()>, d: nat)
    requires Proper(p) && HeatInv(p, w) && Sends(HEAT, p.g, w, w', d)
    ensures HeatInv(p, w')
  {
    hide Core, Val, Proper, OnEdges;
    var dev := w.devs[d];
    assert DevOk(p, dev, d);
    CoreSend(p, w.devs, w.air, d);
    var sent := Dev(No, dev.s.(sent := true));
    var msg := HeatMessage(dev.s.id, dev.s.time, dev.s.val);
    assert w'.devs == w.devs[d := sent][d := Change(sent)];
    assert w'.air == w.air + OnEdges(p.g[d], 0, msg);
    ChangeOk(p, w.devs[d := sent], w'.air, d);
    forall m | m in w'.air ensures m.Deliver? {
      if m in OnEdges(p.g[d], 0, msg) {
        OnEdgesAre(p.g[d], 0, msg, m);
      }
    }
  }

  lemma HeatReceives(p: Setup, w: World<HeatState, HeatMessage, ()>, w': World<HeatState, HeatMessage, ()>,
                     m: Msg<HeatMessage, ()>)
    requires Proper(p) && HeatInv(p, w) && Receives(HEAT, w, w', m)
    ensures HeatInv(p, w')
  {
    hide Core, Val, Proper;
    var v := m.to;
    var s := w.devs[v].s;
    assert DevOk(p, w.devs[v], v);
    CoreRecv(p, w.devs, w.air, m);
    var s' := if m.payload.time == s.time
      then s.(acc := s.acc + m.payload.val, received := (s.received + 1) % 256)
      else s.(accNext := s.accNext + m.payload.val, receivedNext := (s.receivedNext + 1) % 256);
    var devs := w.devs[v := w.devs[v].(s := s')];
    assert DevFits(p, devs[v], v);
    if m.payload.time == s.time {
      ChangeOk(p, devs, w'.air, v);
      assert w'.devs == devs[v := Change(devs[v])];
    } else {
      assert w'.devs == devs && !Ready(s');
    }
  }

  // The vertex that is furthest behind
  lemma Slowest(devs: seq<HeatDev>) returns (v: nat)
    requires devs != []
    ensures v < |devs| && forall u | 0 <= u < |devs| :: devs[u].s.time <= devs[v].s.time
  {
    v := 0;
    for i := 1 to |devs|
      invariant v < i && forall u | 0 <= u < i :: devs[u].s.time <= devs[v].s.time
    {
      if devs[i].s.time > devs[v].s.time {
        v := i;
      }
    }
  }

  // When nobody wants to send and nothing is in flight, the vertex that is
  // furthest behind has heard from everyone
  lemma SlowestReady(p: Setup, devs: seq<HeatDev>, air: Air, v: nat)
    requires Proper(p) && AllFit(p, devs) && Core(p, devs, air)
    requires forall u | 0 <= u < |devs| :: devs[u].rts == No
    requires forall m | m in air :: m.ToHost?
    requires v < |devs| && devs[v].s.time > 0 && forall u | 0 <= u < |devs| :: devs[u].s.time <= devs[v].s.time
    ensures Ready(devs[v].s)
  {
    hide InAir, Expected, Gals.Total, FanIn, Linked, Val, Balanced, Sincere;
    SpecFacts(p);
    assert DevFits(p, devs[v], v);
    var k := StepOf(p, devs[v].s);
    forall u: nat | u < |p.g| && Linked(p.g, u, v) ensures k < SentBy(p, devs)[u] {
      assert DevFits(p, devs[u], u);
    }
    AllTaken(Counter(p), p.g, SentBy(p, devs), Counts0(p, devs), air, v, k);
    assert Counts0(p, devs)(v, k) == devs[v].s.received as real;
  }

  // Hence everybody has finished
  lemma QuietDone(p: Setup, w: World<HeatState, HeatMessage, ()>)
    requires Proper(p) && HeatInv(p, w) && Quiet(w)
    ensures forall v | 0 <= v < |w.devs| :: w.devs[v].s.time == 0
  {
    hide Proper, Core, Val;
    if w.devs != [] {
      var v := Slowest(w.devs);
      assert DevOk(p, w.devs[v], v);
      if w.devs[v].s.time > 0 {
        SlowestReady(p, w.devs, w.air, v);
        assert false;
      }
    }
  }

  lemma HeatReplies(p: Setup, w: World<HeatState, HeatMessage, ()>, w': World<HeatState, HeatMessage, ()>, d: nat)
    requires HeatInv(p, w) && Replies(HEAT, w, w', d)
    ensures HeatInv(p, w')
  {
    hide InAir, Expected, Gals.Total, FanIn, Linked, Val, Balanced, Sincere;
    var dev := w.devs[d];
    assert DevOk(p, dev, d);
    var r := HeatMessage(dev.s.id, 0, dev.s.val);
    assert HEAT.finish(dev, Clock(w.time)) == (dev, Says(r));
    assert w'.devs == w.devs && w'.air == w.air + multiset{ToHost(r)};
    AfterReply(Counter(p), p.g, SentBy(p, w.devs), Counts0(p, w.devs), w.air, multiset{ToHost(r)});
    SincereBoth(p, SentBy(p, w.devs), w.air);
    AfterReply(Thermometer(p), p.g, SentBy(p, w.devs), Feels(p, w.devs), w.air, multiset{ToHost(r)});
  }

  lemma {:induction false} HeatRuns(p: Setup, w: World<HeatState, HeatMessage, ()>, n: nat)
    requires Proper(p) && Reach(HEAT, p.g, Begin(HEAT, p.memory), w, n)
    ensures HeatInv(p, w)
    decreases n
  {
    hide Proper, HeatInv, Begin, Sends, Receives, Replies;
    if n == 0 {
      HeatBegins(p);
    } else {
      var v :| Reach(HEAT, p.g, Begin(HEAT, p.memory), v, n - 1) && Next(HEAT, p.g, v, w);
      HeatRuns(p, v, n - 1);
      if d :| Sends(HEAT, p.g, v, w, d) {
        HeatSends(p, v, w, d);
      } else if m :| Receives(HEAT, v, w, m) {
        HeatReceives(p, v, w, m);
      } else if d :| Replies(HEAT, v, w, d) {
        HeatReplies(p, v, w, d);
      } else {
        HeatIdles(p, v, w);
      }
    }
  }

  lemma HeatIdles(p: Setup, v: World<HeatState, HeatMessage, ()>, w: World<HeatState, HeatMessage, ()>)
    requires Proper(p) && HeatInv(p, v) && (Steps(HEAT, v, w) || Ends(v, w))
    ensures HeatInv(p, w)
  {
    hide Core, Val, Proper;
    QuietDone(p, v);
    if Steps(HEAT, v, w) {
      forall d | 0 <= d < |v.devs| ensures w.devs[d] == v.devs[d] {
        assert w.devs[d] == Step(v.devs[d], Clock(v.time)).0;
      }
      assert w.devs == v.devs;
    }
  }

  // In every reachable state, whatever the order of deliveries: neighbours are
  // within one step of each other; every message in flight is for the current
  // or the next step of its receiver; and once nothing is left to do everyone
  // has finished, with the temperature of the synchronous iteration, which is
  // also what the host is told.
  lemma HeatCorrect(p: Setup, w: World<HeatState, HeatMessage, ()>)
    requires Proper(p) && Reachable(HEAT, p.g, p.memory, w)
    ensures |w.devs| == |p.g|
    ensures forall u: nat, v: nat | u < |p.g| && v < |p.g| && Linked(p.g, u, v) ::
      w.devs[u].s.time - 1 <= w.devs[v].s.time <= w.devs[u].s.time + 1
    ensures forall m | m in w.air && m.Deliver? && m.to < |p.g| ::
      m.payload.time == w.devs[m.to].s.time || m.payload.time == w.devs[m.to].s.time - 1
    ensures Quiet(w) || w.done ==>
      forall v | 0 <= v < |p.g| :: w.devs[v].s.time == 0 && w.devs[v].s.val == Val(p, p.steps, v)
    ensures forall m | m in w.air && m.ToHost? :: m.payload.val == Val(p, p.steps, m.payload.from)
  {
    var n: nat :| Reach(HEAT, p.g, Begin(HEAT, p.memory), w, n);
    hide Val, Reach, Begin;
    HeatRuns(p, w, n);
    Consequences(p, w);
  }

  lemma Consequences(p: Setup, w: World<HeatState, HeatMessage, ()>)
    requires Proper(p) && HeatInv(p, w)
    ensures forall u: nat, v: nat | u < |p.g| && v < |p.g| && Linked(p.g, u, v) ::
      w.devs[u].s.time - 1 <= w.devs[v].s.time <= w.devs[u].s.time + 1
    ensures forall m | m in w.air && m.Deliver? && m.to < |p.g| ::
      m.payload.time == w.devs[m.to].s.time || m.payload.time == w.devs[m.to].s.time - 1
    ensures Quiet(w) || w.done ==>
      forall v | 0 <= v < |p.g| :: w.devs[v].s.time == 0 && w.devs[v].s.val == Val(p, p.steps, v)
  {
    hide InAir, Expected, Gals.Total, FanIn, Linked, Val, Balanced, Sincere;
    forall u: nat, v: nat | u < |p.g| && v < |p.g| && Linked(p.g, u, v)
      ensures w.devs[u].s.time - 1 <= w.devs[v].s.time <= w.devs[u].s.time + 1
    {
      assert DevOk(p, w.devs[u], u) && DevOk(p, w.devs[v], v) && Linked(p.g, v, u);
    }
    forall m | m in w.air && m.Deliver? && m.to < |p.g|
      ensures m.payload.time == w.devs[m.to].s.time || m.payload.time == w.devs[m.to].s.time - 1
    {
      assert DevOk(p, w.devs[m.to], m.to);
      StampNear(p, w.devs, w.air, m);
    }
    if Quiet(w) {
      QuietDone(p, w);
    }
    if Quiet(w) || w.done {
      forall v | 0 <= v < |p.g| ensures w.devs[v].s.val == Val(p, p.steps, v) {
        assert DevOk(p, w.devs[v], v);
      }
    }
  }

  // ---------------------------------------------------------------------
  // What the iteration computes

  lemma Quotient(x: real, n: nat)
    requires n > 0
    ensures n as real * (x / n as real) == x
  {
  }

  // A vertex that does not keep its temperature takes the mean of its neighbours:
  // the temperature after a step, once for each in-edge, is the sum of those of
  // the neighbours before it
  lemma HeatAverages(p: Setup, w: World<HeatState, HeatMessage, ()>, v: nat)
    requires Proper(p) && Reachable(HEAT, p.g, p.memory, w) && v < |p.g|
    ensures |w.devs| == |p.g| && w.devs[v].s.time <= p.steps
    ensures var s, k := w.devs[v].s, p.steps - w.devs[v].s.time;
      k > 0 ==>
        if p.memory[v].s.isConstant then s.val == p.memory[v].s.val
        else Times(FanIn(p.g, v, |p.g|), s.val) == NeighbourSum(p, k - 1, v, |p.g|)
  {
    hide Reachable, FanIn, NeighbourSum, Proper, Times, Val;
    AllDevsOk(p, w);
    assert DevOk(p, w.devs[v], v);
    var k := StepOf(p, w.devs[v].s);
    if p.memory[v].s.isConstant {
      ConstantVal(p, k, v);
    } else if k > 0 {
      MeanVal(p, k - 1, v);
    }
  }

  // ... in the synchronous iteration
  lemma MeanVal(p: Setup, k: nat, v: nat)
    requires Proper(p) && v < |p.g| && !p.memory[v].s.isConstant
    ensures Times(FanIn(p.g, v, |p.g|), Val(p, k + 1, v)) == NeighbourSum(p, k, v, |p.g|)
  {
    hide NeighbourSum, FanIn, Val;
    NextVal(p, k, v);
    Quotient(NeighbourSum(p, k, v, |p.g|), FanIn(p.g, v, |p.g|));
  }

  lemma AllDevsOk(p: Setup, w: World<HeatState, HeatMessage, ()>)
    requires Proper(p) && Reachable(HEAT, p.g, p.memory, w)
    ensures AllOk(p, w.devs)
  {
    var n: nat :| Reach(HEAT, p.g, Begin(HEAT, p.memory), w, n);
    hide Reach, Begin, Core, Val, Proper, DevOk;
    HeatRuns(p, w, n);
  }

  lemma {:induction false} ConstantVal(p: Setup, k: nat, v: nat)
    requires v < |p.memory| && p.memory[v].s.isConstant
    ensures Val(p, k, v) == p.memory[v].s.val
    decreases k
  {
    if k > 0 {
      ConstantVal(p, k - 1, v);
    }
  }

  // All initial temperatures are in this range
  ghost predicate Within(p: Setup, lo: real, hi: real) {
    forall v | 0 <= v < |p.memory| :: lo <= p.memory[v].s.val <= hi
  }

  lemma {:induction false} SumWithin(p: Setup, k: nat, v: nat, n: nat, lo: real, hi: real)
    requires n <= |p.g| == |p.memory| && forall u: nat | u < |p.g| :: lo <= Val(p, k, u) <= hi
    ensures Times(FanIn(p.g, v, n), lo) <= NeighbourSum(p, k, v, n) <= Times(FanIn(p.g, v, n), hi)
    decreases n
  {
    hide Val, EdgesTo;
    if n > 0 {
      SumWithin(p, k, v, n - 1, lo, hi);
      TimesSum(FanIn(p.g, v, n - 1), EdgesTo(p.g[n - 1], v), lo);
      TimesSum(FanIn(p.g, v, n - 1), EdgesTo(p.g[n - 1], v), hi);
      TimesMonotone(EdgesTo(p.g[n - 1], v), lo, Val(p, k, n - 1));
      TimesMonotone(EdgesTo(p.g[n - 1], v), Val(p, k, n - 1), hi);
    }
  }

  lemma TimesSum(a: nat, b: nat, x: real)
    ensures Times(a + b, x) == Times(a, x) + Times(b, x)
  {
    assert (a + b) as real == a as real + b as real;
  }

  lemma TimesMonotone(n: nat, x: real, y: real)
    requires x <= y
    ensures Times(n, x) <= Times(n, y)
  {
  }

  lemma MeanWithin(n: nat, sum: real, lo: real, hi: real)
    requires n > 0 && Times(n, lo) <= sum <= Times(n, hi)
    ensures lo <= sum / n as real <= hi
  {
    Quotient(sum, n);
    FewerTimes(n, lo, sum / n as real);
    FewerTimes(n, sum / n as real, hi);
  }

  lemma FewerTimes(n: nat, x: real, y: real)
    requires n > 0 && Times(n, x) <= Times(n, y)
    ensures x <= y
  {
    var m := n as real;
    assert m * (y - x) == m * y - m * x >= 0.0;
  }

  lemma {:induction false} ValWithin(p: Setup, k: nat, v: nat, lo: real, hi: real)
    requires Proper(p) && Within(p, lo, hi) && v < |p.memory|
    ensures lo <= Val(p, k, v) <= hi
    decreases k
  {
    hide NeighbourSum, Times, FanIn;
    if k > 0 {
      var before := k - 1;
      forall u: nat | u < |p.g| ensures lo <= Val(p, before, u) <= hi {
        ValWithin(p, before, u, lo, hi);
      }
      if !p.memory[v].s.isConstant {
        SumWithin(p, k - 1, v, |p.g|, lo, hi);
        NextVal(p, k - 1, v);
        MeanWithin(FanIn(p.g, v, |p.g|), NeighbourSum(p, k - 1, v, |p.g|), lo, hi);
      }
    }
  }

  // No temperature ever leaves the range of the initial ones, on a device or on
  // its way to the host
  lemma HeatBounded(p: Setup, w: World<HeatState, HeatMessage, ()>, lo: real, hi: real)
    requires Proper(p) && Reachable(HEAT, p.g, p.memory, w) && Within(p, lo, hi)
    ensures |w.devs| == |p.g| && forall v | 0 <= v < |w.devs| :: lo <= w.devs[v].s.val <= hi
  {
    hide Reachable, Val, Proper;
    AllDevsOk(p, w);
    forall v | 0 <= v < |w.devs| ensures lo <= w.devs[v].s.val <= hi {
      assert DevOk(p, w.devs[v], v);
      ValWithin(p, StepOf(p, w.devs[v].s), v, lo, hi);
    }
  }
}
