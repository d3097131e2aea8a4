// GALS breadth-first search from many sources at once: every vertex learns its
// distance from every source, and stops as soon as it knows them all.
module AspGals {
  import opened Vertices
  import opened Gals
  import opened Fronts
  import opened BitVectors

  // Bit vectors are sets of the positions of their one bits
  type Bits = set<nat>

  datatype ASPMessage = ASPMessage(time: nat, reaching: Bits)

  datatype ASPState = ASPState(
    // How many neighbours it hears from
    fanIn: nat,
    // Current time step (16 bits), completion status, has state been sent?
    time: nat, done: bool, sent: bool,
    // Number of messages received (16 bits)
    received: nat, receivedNext: nat,
    // Number of nodes still to reach this device, and sum of lengths of all
    // paths reaching this device (32 bits)
    toReach: nat, sum: nat,
    // Nodes reaching this device at times t, t+1, and t+2
    reaching: Bits, reaching1: Bits, reaching2: Bits)

  type ASPDev = Dev<ASPState>

  // ---------------------------------------------------------------------
  // Handlers

  function Advance(s: ASPState): ASPState {
    var time := (s.time + 1) % 0x1_0000;
    var bits := s.reaching1 - s.reaching;
    ASPState(s.fanIn, time, s.done, false, s.receivedNext, 0,
             (s.toReach - |bits|) % WIDE, (s.sum + time * |bits|) % WIDE,
             s.reaching + s.reaching1, s.reaching2, {})
  }

  function Change(dev: ASPDev): ASPDev {
    var s := dev.s;
    if !s.sent then Dev(Out(0), s)
    else if s.toReach == 0 then Dev(No, s.(done := true))
    else if s.received == s.fanIn then Dev(Out(0), Advance(s))
    else Dev(No, s)
  }

  function Init(dev: ASPDev): ASPDev { Dev(Out(0), dev.s) }

  function Send(dev: ASPDev, time: nat): (ASPDev, ASPMessage) {
    (Change(dev.(s := dev.s.(sent := true))), ASPMessage(dev.s.time, dev.s.reaching))
  }

  function Take(s: ASPState, m: ASPMessage): ASPState {
    if m.time == s.time then s.(reaching1 := s.reaching1 + m.reaching, received := (s.received + 1) % 0x1_0000)
    else s.(reaching2 := s.reaching2 + m.reaching, receivedNext := (s.receivedNext + 1) % 0x1_0000)
  }

  function Recv(dev: ASPDev, m: ASPMessage, edge: (), time: nat): ASPDev {
    var dev' := dev.(s := Take(dev.s, m));
    if m.time == dev.s.time then Change(dev') else dev'
  }

  function Step(dev: ASPDev, time: nat): (ASPDev, bool) { (Dev(No, dev.s), false) }

  // The reply's first word is the sum
  function Finish(dev: ASPDev, time: nat): (ASPDev, Reply<ASPMessage>) {
    (dev, Says(ASPMessage(dev.s.sum, {})))
  }

  const ASP: App<ASPState, ASPMessage, ()> := App(Init, Send, Recv, Step, Finish)

  lemma AdvanceWords(s: ASPState, time: nat)
    requires time == (s.time + 1) % 0x1_0000
    ensures var bits := s.reaching1 - s.reaching;
      Advance(s) == ASPState(s.fanIn, time, s.done, false, s.receivedNext, 0, CountDown(s.toReach, |bits|),
                             AddTimes(s.sum, time, |bits|), s.reaching + s.reaching1, s.reaching2, {})
  {
  }

  // The device, with its bit vectors in arrays of words
  class ASPDevice {
    const fanIn: nat
    var time: nat
    var done: bool
    var sent: bool
    var received: nat
    var receivedNext: nat
    var toReach: nat
    var sum: nat
    const reaching: array<Word>
    const reaching1: array<Word>
    const reaching2: array<Word>
    var readyToSend: Pin

    ghost predicate Valid()
      reads this
    {
      && reaching != reaching1 && reaching != reaching2 && reaching1 != reaching2
      && reaching.Length == reaching1.Length == reaching2.Length
      && toReach < WIDE && sum < WIDE
    }

    ghost function View(): ASPDev
      reads this, reaching, reaching1, reaching2
    {
      Dev(readyToSend, ASPState(fanIn, time, done, sent, received, receivedNext, toReach, sum,
                                SetOf(reaching[..]), SetOf(reaching1[..]), SetOf(reaching2[..])))
    }

    // A device with room for the given number of words, and no sources yet
    constructor (fanIn: nat, words: nat)
      ensures Valid() && fresh(reaching) && fresh(reaching1) && fresh(reaching2)
      ensures this.fanIn == fanIn && reaching.Length == words
      ensures View() == Dev(No, ASPState(fanIn, 0, false, false, 0, 0, 0, 0, {}, {}, {}))
    {
      this.fanIn := fanIn;
      time, done, sent, received, receivedNext, toReach, sum, readyToSend := 0, false, false, 0, 0, 0, 0, No;
      reaching := new Word[words](_ => {});
      reaching1 := new Word[words](_ => {});
      reaching2 := new Word[words](_ => {});
      new;
      SetOfEmpty(reaching[..]);
      SetOfEmpty(reaching1[..]);
      SetOfEmpty(reaching2[..]);
    }

    method FoldWord(i: nat)
      requires Valid() && i < reaching.Length
      modifies this`sum, this`toReach, reaching, reaching1, reaching2
      ensures Valid()
      ensures var bits := old(Fresh(reaching1[i], reaching[i]));
        sum == AddTimes(old(sum), time, |bits|) && toReach == CountDown(old(toReach), |bits|)
      ensures reaching[..] == old(reaching[..][i := reaching[i] + reaching1[i]])
      ensures reaching1[..] == old(reaching1[..][i := reaching2[i]])
      ensures reaching2[..] == old(reaching2[..][i := {}])
    {
      var bs, bs1 := reaching[i], reaching1[i];
      reaching[i] := bs + bs1;
      sum, toReach := CountBits(Fresh(bs1, bs), time, sum, toReach);
      reaching1[i] := reaching2[i];
      reaching2[i] := {};
    }

    method Fold()
      requires Valid()
      modifies this`sum, this`toReach, reaching, reaching1, reaching2
      ensures Valid()
      ensures var bits := old(SetOf(reaching1[..]) - SetOf(reaching[..]));
        sum == AddTimes(old(sum), time, |bits|) && toReach == CountDown(old(toReach), |bits|)
      ensures SetOf(reaching[..]) == old(SetOf(reaching[..]) + SetOf(reaching1[..]))
      ensures SetOf(reaching1[..]) == old(SetOf(reaching2[..])) && SetOf(reaching2[..]) == {}
    {
      hide Wrap, FreshBits, SetOf, AddTimes, CountDown, Fresh;
      ghost var a, b, c, n := reaching1[..], reaching[..], reaching2[..], reaching.Length;
      ghost var sum0, toReach0 := sum, toReach;
      FreshNone(a, b);
      AddTimesMore(sum0, time, 0, 0);
      CountDownMore(toReach0, 0, 0);
      for i := 0 to reaching.Length
        invariant Valid()
        invariant forall j | 0 <= j < i :: reaching[j] == b[j] + a[j] && reaching1[j] == c[j] && reaching2[j] == {}
        invariant forall j | i <= j < n :: reaching[j] == b[j] && reaching1[j] == a[j] && reaching2[j] == c[j]
        invariant sum == AddTimes(sum0, time, FreshBits(a, b, i)) && toReach == CountDown(toReach0, FreshBits(a, b, i))
      {
        FreshMore(a, b, i);
        AddTimesMore(sum0, time, FreshBits(a, b, i), |Fresh(a[i], b[i])|);
        CountDownMore(toReach0, FreshBits(a, b, i), |Fresh(a[i], b[i])|);
        FoldWord(i);
      }
      FreshBitsSet(a, b, n);
      assert a[..n] == a && b[..n] == b;
      SetOfUnion(reaching[..], b, a);
      assert reaching1[..] == c;
      SetOfEmpty(reaching2[..]);
    }

    // The part that all handlers end with
    method CallChange()
      requires Valid()
      modifies this, reaching, reaching1, reaching2
      ensures Valid() && View() == old(Change(View()))
    {
      hide SetOf;
      if done {
        readyToSend := No;
      }
      if !sent {
        readyToSend := Out(0);
      } else {
        readyToSend := No;
        if toReach == 0 {
          done := true;
        } else if received == fanIn {
          Proceed();
        }
      }
    }

    method Proceed()
      requires Valid()
      modifies this, reaching, reaching1, reaching2
      ensures Valid() && View() == old(Dev(Out(0), Advance(View().s)))
    {
      hide SetOf, AddTimes, CountDown;
      ghost var s := View().s;
      time := (time + 1) % 0x1_0000;
      Fold();
      AdvanceWords(s, time);
      received := receivedNext;
      receivedNext := 0;
      // New round of sends
      sent := false;
      readyToSend := Out(0);
    }

    // Handler for a message of its own
    method CallSend(now: nat) returns (msgTime: nat, words: seq<Word>)
      requires Valid()
      modifies this, reaching, reaching1, reaching2
      ensures Valid() && (View(), ASPMessage(msgTime, SetOf(words))) == old(Send(View(), now))
    {
      hide SetOf;
      msgTime := time;
      words := Copy(reaching);
      sent := true;
      ghost var dev := View();
      assert dev == old(View()).(s := old(View()).s.(sent := true));
      CallChange();
    }

    // Handler for a message of a neighbour
    method CallRecv(msgTime: nat, words: seq<Word>, now: nat)
      requires Valid() && |words| == reaching.Length
      modifies this, reaching, reaching1, reaching2
      ensures Valid() && View() == old(Recv(View(), ASPMessage(msgTime, SetOf(words)), (), now))
    {
      hide SetOf;
      if msgTime == time {
        OrInto(reaching1, words);
        received := (received + 1) % 0x1_0000;
        CallChange();
      } else {
        OrInto(reaching2, words);
        receivedNext := (receivedNext + 1) % 0x1_0000;
      }
    }
  }

  // ---------------------------------------------------------------------
  // What is asked of the graph and of the initial states

  datatype Setup = Setup(g: Graph<()>, memory: seq<ASPDev>, sources: nat)

  ghost function Start(p: Setup): seq<set<nat>> {
    seq(|p.memory|, v requires 0 <= v < |p.memory| => p.memory[v].s.reaching)
  }

  ghost function At(p: Setup, k: nat, v: nat): Bits
    requires |p.g| == |p.memory|
  {
    Front(p.g, Start(p), k, v)
  }

  // The first n sources
  function All(n: nat): (s: set<nat>)
    ensures |s| == n && forall i: nat :: i in s <==> i < n
  {
    if n == 0 then {} else All(n - 1) + {n - 1}
  }

  // Edges in both directions, and every source reaches every vertex within the
  // range of the 16-bit time
  ghost predicate Proper(p: Setup) {
    && |p.g| == |p.memory| && Wellformed(p.g) && p.sources < WIDE
    && (forall u: nat, v: nat | u < |p.g| && v < |p.g| :: Linked(p.g, u, v) ==> Linked(p.g, v, u))
    && (forall v | 0 <= v < |p.g| ::
          var s := p.memory[v].s;
          && s.fanIn == FanIn(p.g, v, |p.g|) && s.fanIn < 0x1_0000 && s.time == s.sum == 0 && !s.done && !s.sent
          && s.received == s.receivedNext == 0 && s.reaching1 == s.reaching2 == {}
          && s.reaching <= All(p.sources) && s.toReach == p.sources - |s.reaching|)
    && (forall v: nat | v < |p.g| :: At(p, 0xffff, v) == All(p.sources))
  }

  ghost function Words(p: Setup): (nat, nat) -> ASPMessage {
    (u: nat, k: nat) => ASPMessage(k, if |p.g| == |p.memory| then At(p, k, u) else {})
  }

  ghost function Counter(p: Setup): Spec<ASPMessage> {
    Spec((m: ASPMessage) => m.time, _ => 1.0, Words(p))
  }

  function SentBy(devs: seq<ASPDev>): seq<nat> {
    seq(|devs|, u requires 0 <= u < |devs| => devs[u].s.time + if devs[u].s.sent then 1 else 0)
  }

  ghost function Counted(s: ASPState, k: nat): real {
    if k < s.time then s.fanIn as real
    else if k == s.time then s.received as real
    else if k == s.time + 1 then s.receivedNext as real
    else 0.0
  }

  ghost function Counts0(devs: seq<ASPDev>): Account {
    (v: nat, k: nat) => if v < |devs| then Counted(devs[v].s, k) else 0.0
  }

  // ---------------------------------------------------------------------
  // The invariant

  type Air = multiset<Msg<ASPMessage, ()>>

  ghost predicate StateFits(p: Setup, s: ASPState, v: nat)
    requires |p.g| == |p.memory| && v < |p.g|
  {
    && s.fanIn == p.memory[v].s.fanIn
    && s.reaching == At(p, s.time, v) && s.reaching <= All(p.sources)
    && s.toReach == p.sources - |s.reaching|
    && s.sum == DistSum(p.g, Start(p), s.time, v, p.sources) % WIDE
    && s.reaching1 <= Nearby(p.g, Start(p), s.time, v, |p.g|)
    && s.reaching2 <= Nearby(p.g, Start(p), s.time + 1, v, |p.g|)
    && (s.time > 0 ==> At(p, s.time - 1, v) != All(p.sources))
    && (s.done ==> s.sent && s.toReach == 0)
  }

  // A device that Change has nothing to do for
  predicate Settled(dev: ASPDev) {
    && (dev.rts == if dev.s.sent then No else Out(0))
    && (dev.s.sent ==> if dev.s.toReach == 0 then dev.s.done else dev.s.received != dev.s.fanIn)
  }

  // A front is on its way to v
  ghost predicate Coming(air: Air, v: nat, k: nat, reaching: Bits) {
    exists m :: m in air && m.Deliver? && m.to == v && m.payload == ASPMessage(k, reaching)
  }

  // What u has said for steps t and t+1 of v has been taken in or is coming
  ghost predicate Heard(p: Setup, s: ASPState, air: Air, sent: nat, u: nat, v: nat)
    requires |p.g| == |p.memory|
  {
    && (s.time < sent ==> At(p, s.time, u) <= s.reaching1 || Coming(air, v, s.time, At(p, s.time, u)))
    && (s.time + 1 < sent ==> At(p, s.time + 1, u) <= s.reaching2 || Coming(air, v, s.time + 1, At(p, s.time + 1, u)))
  }

  ghost predicate Core(p: Setup, devs: seq<ASPDev>, air: Air)
    requires |devs| == |p.g| == |p.memory|
  {
    && Balanced(Counter(p), p.g, SentBy(devs), Counts0(devs), air)
    && Sincere(Counter(p), p.g, SentBy(devs), air)
    && (forall u: nat, v: nat | u < |p.g| && v < |p.g| && Linked(p.g, u, v) ::
          devs[v].s.time <= SentBy(devs)[u] && Heard(p, devs[v].s, air, SentBy(devs)[u], u, v))
  }

  ghost predicate AllFit(p: Setup, devs: seq<ASPDev>) {
    |devs| == |p.g| == |p.memory| && forall v | 0 <= v < |devs| :: StateFits(p, devs[v].s, v)
  }

  ghost predicate AspInv(p: Setup, w: World<ASPState, ASPMessage, ()>) {
    && AllFit(p, w.devs) && Core(p, w.devs, w.air)
    && (forall v | 0 <= v < |w.devs| :: Settled(w.devs[v]))
    && (w.done ==> forall v | 0 <= v < |w.devs| :: w.devs[v].s.done)
    && (forall m | m in w.air && m.ToHost? :: w.done)
  }

  // ---------------------------------------------------------------------

  lemma SpecFacts(p: Setup)
    ensures SpecOk(Counter(p)) && Counts(Counter(p))
  {
  }

  // Sending
  lemma CoreSend(p: Setup, devs: seq<ASPDev>, air: Air, u: nat)
    requires AllFit(p, devs) && Core(p, devs, air) && u < |devs| && !devs[u].s.sent
    ensures var s := devs[u].s;
      Core(p, devs[u := devs[u].(s := s.(sent := true))], air + OnEdges(p.g[u], 0, ASPMessage(s.time, s.reaching)))
  {
    hide InAir, Expected, OnEdges, Linked, Balanced, Sincere, At, Nearby, Heard, DistSum;
    SpecFacts(p);
    var s := devs[u].s;
    var devs' := devs[u := devs[u].(s := s.(sent := true))];
    var air' := air + OnEdges(p.g[u], 0, ASPMessage(s.time, s.reaching));
    assert StateFits(p, s, u);
    var sent := SentBy(devs);
    assert SentBy(devs') == sent[u := sent[u] + 1];
    assert Words(p)(u, sent[u]) == ASPMessage(s.time, s.reaching);
    AfterSend(Counter(p), p.g, sent, Counts0(devs), air, u);
    SameAccount(Counter(p), p.g, SentBy(devs'), Counts0(devs), Counts0(devs'), air');
    forall w: nat, v: nat | w < |p.g| && v < |p.g| && Linked(p.g, w, v)
      ensures Heard(p, devs'[v].s, air', SentBy(devs')[w], w, v)
    {
      HeardMore(p, devs[v].s, air, sent[w], w, v, devs'[v].s, air', SentBy(devs')[w], s.time);
    }
  }

  lemma HeardMore(p: Setup, s: ASPState, air: Air, sent: nat, u: nat, v: nat, s': ASPState, air': Air, sent': nat, k: nat)
    requires |p.g| == |p.memory| && u < |p.g| && Linked(p.g, u, v) && Heard(p, s, air, sent, u, v)
    requires s'.time == s.time && s'.reaching1 == s.reaching1 && s'.reaching2 == s.reaching2
    requires air <= air' && (sent' == sent || (sent' == sent + 1 && sent == k
      && air' == air + OnEdges(p.g[u], 0, ASPMessage(k, At(p, k, u)))))
    ensures Heard(p, s', air', sent', u, v)
  {
    hide At;
    if sent' == sent + 1 {
      var i :| 0 <= i < |p.g[u]| && p.g[u][i].pin == 0 && p.g[u][i].to == v;
      OnEdgesHas(p.g[u], ASPMessage(k, At(p, k, u)), i);
      assert Deliver(v, p.g[u][i].edge, ASPMessage(k, At(p, k, u))) in air';
      assert Coming(air', v, k, At(p, k, u));
    }
    ComingMore(air, air', v);
  }

  lemma ComingMore(air: Air, air': Air, v: nat)
    requires air <= air'
    ensures forall k, r :: Coming(air, v, k, r) ==> Coming(air', v, k, r)
  {
    forall k, r | Coming(air, v, k, r) ensures Coming(air', v, k, r) {
      var m :| m in air && m.Deliver? && m.to == v && m.payload == ASPMessage(k, r);
      assert m in air';
    }
  }

  // Messages in the air are for the current or the next step of their receiver
  lemma StampNear(p: Setup, devs: seq<ASPDev>, air: Air, m: Msg<ASPMessage, ()>)
    requires Proper(p) && AllFit(p, devs) && Core(p, devs, air) && m in air && m.Deliver? && m.to < |devs|
    ensures var s, k := devs[m.to].s, m.payload.time;
      && (k == s.time || k == s.time + 1) && Counted(s, k) < s.fanIn as real
      && m.payload.reaching <= Nearby(p.g, Start(p), k, m.to, |p.g|)
  {
    hide InAir, Expected, FanIn, Linked, Nearby, Heard, At, DistSum;
    SpecFacts(p);
    var v, k := m.to, m.payload.time;
    var s := devs[v].s;
    assert StateFits(p, s, v);
    assert SaidBySomeone(Counter(p), p.g, SentBy(devs), m);
    var u: nat :| u < |p.g| && Linked(p.g, u, v) && k < SentBy(devs)[u] && m.payload == Words(p)(u, k);
    assert Linked(p.g, v, u);
    TakenBound(Counter(p), p.g, SentBy(devs), Counts0(devs), air, v, k);
    assert Counts0(devs)(v, k) == Counted(s, k);
    forall i | i in m.payload.reaching ensures i in Nearby(p.g, Start(p), k, v, |p.g|) {
      NearbyHas(p.g, Start(p), k, v, |p.g|, i);
      assert i in Front(p.g, Start(p), k, u) by { AtIs(p, k, u); }
    }
  }

  lemma AtIs(p: Setup, k: nat, v: nat)
    requires |p.g| == |p.memory|
    ensures At(p, k, v) == Front(p.g, Start(p), k, v)
  {
  }

  // Receiving
  lemma CoreRecv(p: Setup, devs: seq<ASPDev>, air: Air, m: Msg<ASPMessage, ()>)
    requires Proper(p) && AllFit(p, devs) && Core(p, devs, air) && m in air && m.Deliver? && m.to < |devs|
    ensures var devs' := devs[m.to := devs[m.to].(s := Take(devs[m.to].s, m.payload))];
      Core(p, devs', air - multiset{m}) && AllFit(p, devs')
  {
    hide InAir, Expected, FanIn, Linked, Balanced, Sincere, At, Nearby, Heard, DistSum;
    var v := m.to;
    var s := devs[v].s;
    var s' := Take(s, m.payload);
    var devs' := devs[v := devs[v].(s := s')];
    assert StateFits(p, s, v);
    StampNear(p, devs, air, m);
    var sent := SentBy(devs);
    assert SentBy(devs') == sent;
    assert s.fanIn < 0x1_0000;
    forall u: nat, k: nat | u < |p.g|
      ensures Counts0(devs')(u, k) == Counts0(devs)(u, k) + Weigh(Counter(p), m, u, k)
    {
    }
    AfterReceive(Counter(p), p.g, sent, Counts0(devs), Counts0(devs'), air, m);
    forall u: nat, w: nat | u < |p.g| && w < |p.g| && Linked(p.g, u, w)
      ensures Heard(p, devs'[w].s, air - multiset{m}, sent[u], u, w)
    {
      HeardTaken(p, devs[w].s, air, sent[u], u, w, devs'[w].s, m);
    }
    assert StateFits(p, s', v);
  }

  lemma HeardTaken(p: Setup, s: ASPState, air: Air, sent: nat, u: nat, v: nat, s': ASPState, m: Msg<ASPMessage, ()>)
    requires |p.g| == |p.memory| && Heard(p, s, air, sent, u, v) && m in air && m.Deliver?
    requires if m.to == v then s' == Take(s, m.payload) && (m.payload.time == s.time || m.payload.time == s.time + 1)
      else s' == s
    ensures Heard(p, s', air - multiset{m}, sent, u, v)
  {
    hide At;
    if Coming(air, v, s.time, At(p, s.time, u)) {
      ComingLess(air, m, v, s.time, At(p, s.time, u));
    }
    if Coming(air, v, s.time + 1, At(p, s.time + 1, u)) {
      ComingLess(air, m, v, s.time + 1, At(p, s.time + 1, u));
    }
  }

  lemma ComingLess(air: Air, m: Msg<ASPMessage, ()>, v: nat, k: nat, r: Bits)
    requires m in air && m.Deliver? && Coming(air, v, k, r)
    ensures Coming(air - multiset{m}, v, k, r) || (m.to == v && m.payload == ASPMessage(k, r))
  {
    var c :| c in air && c.Deliver? && c.to == v && c.payload == ASPMessage(k, r);
    if c != m {
      assert c in air - multiset{m};
    }
  }

  // ---------------------------------------------------------------------
  // Moving on to the next step

  predicate Ready(s: ASPState) { s.sent && s.toReach != 0 && s.received == s.fanIn }

  lemma SubsetSize(a: set<nat>, b: set<nat>)
    requires a <= b
    ensures |a| <= |b| && (|a| == |b| ==> a == b) && |b - a| == |b| - |a|
  {
    assert b == a + (b - a);
    if |a| == |b| {
      assert b - a == {};
    }
  }

  // A vertex that does not know all sources yet has time to go on
  lemma TimeLeft(p: Setup, s: ASPState, v: nat)
    requires Proper(p) && v < |p.g| && StateFits(p, s, v) && s.toReach != 0
    ensures s.time < 0xffff && At(p, s.time, v) != All(p.sources)
  {
    hide Linked, Nearby, DistSum, FanIn;
    SubsetSize(s.reaching, All(p.sources));
    assert At(p, 0xffff, v) == All(p.sources);
    if s.time >= 0xffff {
      FrontGrows(p.g, Start(p), 0xffff, s.time, v);
    }
  }

  // All that the neighbours know has been taken in
  lemma AllHeard(p: Setup, devs: seq<ASPDev>, air: Air, v: nat)
    requires Proper(p) && AllFit(p, devs) && Core(p, devs, air) && v < |devs| && Ready(devs[v].s)
    ensures var s := devs[v].s;
      && s.reaching1 == Nearby(p.g, Start(p), s.time, v, |p.g|)
      && (forall u: nat | u < |p.g| && Linked(p.g, u, v) :: s.time < SentBy(devs)[u])
  {
    hide InAir, Expected, FanIn, Linked, Balanced, Sincere, At, Nearby, DistSum;
    SpecFacts(p);
    var s := devs[v].s;
    var k := s.time;
    assert StateFits(p, s, v);
    assert Counts0(devs)(v, k) == FanIn(p.g, v, |p.g|) as real;
    Full(Counter(p), p.g, SentBy(devs), Counts0(devs), air, v, k);
    forall i | i in Nearby(p.g, Start(p), k, v, |p.g|) ensures i in s.reaching1 {
      NearbyHas(p.g, Start(p), k, v, |p.g|, i);
      var u: nat :| u < |p.g| && Linked(p.g, u, v) && i in Front(p.g, Start(p), k, u);
      AtIs(p, k, u);
      assert Heard(p, s, air, SentBy(devs)[u], u, v);
    }
  }

  lemma ModAdd(a: nat, b: nat)
    ensures (a % WIDE + b) % WIDE == (a + b) % WIDE
  {
  }

  // The state after the step
  lemma AdvanceFits(p: Setup, s: ASPState, v: nat)
    requires Proper(p) && v < |p.g| && StateFits(p, s, v) && Ready(s)
    requires s.reaching1 == Nearby(p.g, Start(p), s.time, v, |p.g|)
    ensures StateFits(p, Advance(s), v) && Advance(s).time == s.time + 1
  {
    hide Linked, Nearby, DistSum, FanIn, Front;
    TimeLeft(p, s, v);
    FrontNext(p.g, Start(p), s.time, v);
    FrontBounded(p, s.time + 1, v);
    assert s.reaching + s.reaching1 == At(p, s.time + 1, v);
    SubsetSize(s.reaching, s.reaching + s.reaching1);
    SubsetSize(s.reaching + s.reaching1, All(p.sources));
    assert s.reaching1 - s.reaching == s.reaching + s.reaching1 - s.reaching;
    AdvanceSum(p, s, v);
    AdvanceFields(s);
    hide Advance, At;
  }

  // Without overflow
  lemma AdvanceFields(s: ASPState)
    requires s.time < 0xffff && |s.reaching1 - s.reaching| <= s.toReach < WIDE
    ensures Advance(s) == ASPState(s.fanIn, s.time + 1, s.done, false, s.receivedNext, 0,
      s.toReach - |s.reaching1 - s.reaching|, Advance(s).sum, s.reaching + s.reaching1, s.reaching2, {})
  {
  }

  lemma AdvanceSum(p: Setup, s: ASPState, v: nat)
    requires |p.g| == |p.memory| && v < |p.g| && s.time < 0xffff
    requires s.reaching == At(p, s.time, v) && s.reaching + s.reaching1 == At(p, s.time + 1, v) <= All(p.sources)
    requires s.sum == DistSum(p.g, Start(p), s.time, v, p.sources) % WIDE
    ensures Advance(s).sum == DistSum(p.g, Start(p), s.time + 1, v, p.sources) % WIDE
  {
    hide Front, DistSum;
    var bits := s.reaching1 - s.reaching;
    DistSumNext(p.g, Start(p), s.time, v, p.sources);
    assert Front(p.g, Start(p), s.time + 1, v) - Front(p.g, Start(p), s.time, v) == bits;
    assert Below(bits, p.sources) == bits;
    ModAdd(DistSum(p.g, Start(p), s.time, v, p.sources), (s.time + 1) * |bits|);
  }

  lemma {:induction false} FrontBounded(p: Setup, k: nat, v: nat)
    requires Proper(p) && v < |p.g|
    ensures At(p, k, v) <= All(p.sources)
  {
    hide Linked, FanIn, Front;
    if k <= 0xffff {
      FrontGrows(p.g, Start(p), k, 0xffff, v);
      assert At(p, 0xffff, v) == All(p.sources);
    } else {
      forall i | i in At(p, k, v) ensures i in All(p.sources) {
        var walk := FrontWalk(p.g, Start(p), k, v, i);
        var u := walk[0];
        assert p.memory[u].s.reaching <= All(p.sources);
      }
    }
  }

  lemma CoreAdvance(p: Setup, devs: seq<ASPDev>, air: Air, v: nat, rts: Pin)
    requires Proper(p) && AllFit(p, devs) && Core(p, devs, air) && v < |devs| && Ready(devs[v].s)
    ensures var devs' := devs[v := Dev(rts, Advance(devs[v].s))];
      Core(p, devs', air) && AllFit(p, devs')
  {
    hide InAir, Expected, FanIn, Linked, Balanced, Sincere, At, Nearby, DistSum;
    var s := devs[v].s;
    var devs' := devs[v := Dev(rts, Advance(s))];
    assert StateFits(p, s, v);
    AllHeard(p, devs, air, v);
    AdvanceFits(p, s, v);
    assert SentBy(devs') == SentBy(devs);
    forall u: nat, k: nat | u < |p.g| ensures Counts0(devs')(u, k) == Counts0(devs)(u, k) {
    }
    SameAccount(Counter(p), p.g, SentBy(devs), Counts0(devs), Counts0(devs'), air);
    forall u: nat, w: nat | u < |p.g| && w < |p.g| && Linked(p.g, u, w)
      ensures devs'[w].s.time <= SentBy(devs)[u] && Heard(p, devs'[w].s, air, SentBy(devs)[u], u, w)
    {
      assert Heard(p, devs[w].s, air, SentBy(devs)[u], u, w);
      assert Linked(p.g, w, u);
    }
  }

  // After a change of state, the device may move on
  lemma ChangeOk(p: Setup, devs: seq<ASPDev>, air: Air, v: nat)
    requires Proper(p) && AllFit(p, devs) && Core(p, devs, air) && v < |devs|
    ensures var devs' := devs[v := Change(devs[v])];
      AllFit(p, devs') && Core(p, devs', air) && Settled(Change(devs[v]))
  {
    hide Proper, Core, Settled, At, Nearby, DistSum, All, Advance;
    var s := devs[v].s;
    assert StateFits(p, s, v);
    ChangeSettles(devs[v]);
    if Ready(s) {
      CoreAdvance(p, devs, air, v, Out(0));
    } else {
      SameCore(p, devs, air, v, Change(devs[v]));
    }
  }

  lemma ChangeSettles(dev: ASPDev)
    ensures Settled(Change(dev))
  {
  }

  // Completion and readiness to send are in no account
  lemma SameCore(p: Setup, devs: seq<ASPDev>, air: Air, v: nat, dev: ASPDev)
    requires |devs| == |p.g| == |p.memory| && Core(p, devs, air) && v < |devs|
    requires dev.s == devs[v].s.(done := dev.s.done)
    ensures Core(p, devs[v := dev], air)
  {
    hide InAir, Expected, Linked, Balanced, Sincere, At, Nearby, DistSum, Coming;
    var devs' := devs[v := dev];
    assert SentBy(devs') == SentBy(devs);
    SameAccount(Counter(p), p.g, SentBy(devs), Counts0(devs), Counts0(devs'), air);
  }

  // ---------------------------------------------------------------------
  // Every run

  lemma AspBegins(p: Setup)
    requires Proper(p)
    ensures AspInv(p, Begin(ASP, p.memory))
  {
    hide InAir, Expected, FanIn, Linked, Balanced, Sincere, Nearby, EdgesTo;
    var w := Begin(ASP, p.memory);
    forall v | 0 <= v < |w.devs| ensures StateFits(p, w.devs[v].s, v) && Settled(w.devs[v]) {
      assert w.devs[v] == Init(p.memory[v]);
      DistSumZero(p.g, Start(p), v, p.sources);
    }
    AtStart<ASPMessage, ()>(Counter(p), p.g, SentBy(w.devs), Counts0(w.devs));
  }

  lemma AspSends(p: Setup, w: World<ASPState, ASPMessage, ()>, w': World<ASPState, ASPMessage, ()>, d: nat)
    requires Proper(p) && AspInv(p, w) && Sends(ASP, p.g, w, w', d)
    ensures AspInv(p, w')
  {
    hide Core, Proper, OnEdges, StateFits;
    var dev := w.devs[d];
    assert Settled(dev) && StateFits(p, dev.s, d);
    CoreSend(p, w.devs, w.air, d);
    var sent := dev.(s := dev.s.(sent := true));
    var msg := ASPMessage(dev.s.time, dev.s.reaching);
    assert w'.devs == w.devs[d := sent][d := Change(sent)];
    assert w'.air == w.air + OnEdges(p.g[d], 0, msg);
    SentFits(p, dev.s, d);
    ChangeOk(p, w.devs[d := sent], w'.air, d);
    forall m | m in w'.air ensures m.Deliver? {
      if m in OnEdges(p.g[d], 0, msg) {
        OnEdgesAre(p.g[d], 0, msg, m);
      }
    }
  }

  lemma SentFits(p: Setup, s: ASPState, v: nat)
    requires |p.g| == |p.memory| && v < |p.g| && StateFits(p, s, v)
    ensures StateFits(p, s.(sent := true), v)
  {
    hide At, Nearby, DistSum;
  }

  lemma AspReceives(p: Setup, w: World<ASPState, ASPMessage, ()>, w': World<ASPState, ASPMessage, ()>,
                    m: Msg<ASPMessage, ()>)
    requires Proper(p) && AspInv(p, w) && Receives(ASP, w, w', m)
    ensures AspInv(p, w')
  {
    hide Core, Proper, StateFits;
    var v := m.to;
    var dev := w.devs[v];
    assert Settled(dev);
    CoreRecv(p, w.devs, w.air, m);
    var devs := w.devs[v := dev.(s := Take(dev.s, m.payload))];
    if m.payload.time == dev.s.time {
      ChangeOk(p, devs, w'.air, v);
      assert w'.devs == devs[v := Change(devs[v])];
    } else {
      assert w'.devs == devs;
    }
  }

  // The vertex that is furthest behind among those that are not done
  lemma Slowest(devs: seq<ASPDev>) returns (v: nat)
    requires exists u :: 0 <= u < |devs| && !devs[u].s.done
    ensures v < |devs| && !devs[v].s.done
    ensures forall u | 0 <= u < |devs| && !devs[u].s.done :: devs[v].s.time <= devs[u].s.time
  {
    v :| 0 <= v < |devs| && !devs[v].s.done;
    for i := 0 to |devs|
      invariant v < |devs| && !devs[v].s.done
      invariant forall u | 0 <= u < i && !devs[u].s.done :: devs[v].s.time <= devs[u].s.time
    {
      if !devs[i].s.done && devs[i].s.time < devs[v].s.time {
        v := i;
      }
    }
  }

  // A vertex that has stopped has said enough: its neighbours need no more
  lemma DoneEnough(p: Setup, s: ASPState, t: ASPState, u: nat, v: nat)
    requires Proper(p) && u < |p.g| && v < |p.g| && Linked(p.g, u, v)
    requires StateFits(p, s, u) && s.toReach == 0 && StateFits(p, t, v) && t.toReach != 0
    ensures t.time <= s.time
  {
    hide Linked, Nearby, DistSum, FanIn, Front;
    SubsetSize(s.reaching, All(p.sources));
    TimeLeft(p, t, v);
    FrontHop(p.g, Start(p), s.time, u, v);
    FrontBounded(p, s.time + 1, v);
    if t.time > s.time {
      FrontGrows(p.g, Start(p), s.time + 1, t.time, v);
      assert false;
    }
  }

  // When nobody wants to send and nothing is in flight, the vertex that is
  // furthest behind has heard from everyone
  lemma SlowestReady(p: Setup, devs: seq<ASPDev>, air: Air, v: nat)
    requires Proper(p) && AllFit(p, devs) && Core(p, devs, air)
    requires forall u | 0 <= u < |devs| :: devs[u].s.sent && (devs[u].s.toReach == 0 ==> devs[u].s.done)
    requires forall m | m in air :: m.ToHost?
    requires v < |devs| && !devs[v].s.done
    requires forall u | 0 <= u < |devs| && !devs[u].s.done :: devs[v].s.time <= devs[u].s.time
    ensures Ready(devs[v].s)
  {
    hide InAir, Expected, FanIn, Linked, Balanced, Sincere, Nearby, At, DistSum, Front;
    SpecFacts(p);
    var s := devs[v].s;
    assert StateFits(p, s, v);
    forall u: nat | u < |p.g| && Linked(p.g, u, v) ensures s.time < SentBy(devs)[u] {
      assert StateFits(p, devs[u].s, u);
      if devs[u].s.done {
        DoneEnough(p, devs[u].s, s, u, v);
      }
    }
    AllTaken(Counter(p), p.g, SentBy(devs), Counts0(devs), air, v, s.time);
    assert Counts0(devs)(v, s.time) == s.received as real;
  }

  // Hence everybody is done
  lemma QuietDone(p: Setup, w: World<ASPState, ASPMessage, ()>)
    requires Proper(p) && AspInv(p, w) && Quiet(w)
    ensures forall v | 0 <= v < |w.devs| :: w.devs[v].s.done
  {
    hide Proper, Core, StateFits;
    if exists u :: 0 <= u < |w.devs| && !w.devs[u].s.done {
      var v := Slowest(w.devs);
      assert Settled(w.devs[v]);
      assert forall u | 0 <= u < |w.devs| :: Settled(w.devs[u]) && w.devs[u].rts == No;
      SlowestReady(p, w.devs, w.air, v);
      assert false;
    }
  }

  lemma AspReplies(p: Setup, w: World<ASPState, ASPMessage, ()>, w': World<ASPState, ASPMessage, ()>, d: nat)
    requires AspInv(p, w) && Replies(ASP, w, w', d)
    ensures AspInv(p, w')
  {
    hide InAir, Expected, FanIn, Linked, Balanced, Sincere, At, Nearby, DistSum, Coming;
    var dev := w.devs[d];
    var r := ASPMessage(dev.s.sum, {});
    assert ASP.finish(dev, Clock(w.time)) == (dev, Says(r));
    assert w'.devs == w.devs && w'.air == w.air + multiset{ToHost(r)};
    AfterReply(Counter(p), p.g, SentBy(w.devs), Counts0(w.devs), w.air, multiset{ToHost(r)});
    forall u: nat, v: nat | u < |p.g| && v < |p.g| && Linked(p.g, u, v)
      ensures Heard(p, w.devs[v].s, w'.air, SentBy(w.devs)[u], u, v)
    {
      assert Heard(p, w.devs[v].s, w.air, SentBy(w.devs)[u], u, v);
      ComingMore(w.air, w'.air, v);
    }
  }

  lemma AspIdles(p: Setup, v: World<ASPState, ASPMessage, ()>, w: World<ASPState, ASPMessage, ()>)
    requires Proper(p) && AspInv(p, v) && (Steps(ASP, v, w) || Ends(v, w))
    ensures AspInv(p, w)
  {
    hide Core, Proper, StateFits;
    QuietDone(p, v);
    if Steps(ASP, v, w) {
      forall d | 0 <= d < |v.devs| ensures w.devs[d] == v.devs[d] {
        assert w.devs[d] == Step(v.devs[d], Clock(v.time)).0;
      }
      assert w.devs == v.devs;
    }
  }

  lemma {:induction false} AspRuns(p: Setup, w: World<ASPState, ASPMessage, ()>, n: nat)
    requires Proper(p) && Reach(ASP, p.g, Begin(ASP, p.memory), w, n)
    ensures AspInv(p, w)
    decreases n
  {
    hide Proper, AspInv, Begin, Sends, Receives, Replies;
    if n == 0 {
      AspBegins(p);
    } else {
      var v :| Reach(ASP, p.g, Begin(ASP, p.memory), v, n - 1) && Next(ASP, p.g, v, w);
      AspRuns(p, v, n - 1);
      if d :| Sends(ASP, p.g, v, w, d) {
        AspSends(p, v, w, d);
      } else if m :| Receives(ASP, v, w, m) {
        AspReceives(p, v, w, m);
      } else if d :| Replies(ASP, v, w, d) {
        AspReplies(p, v, w, d);
      } else {
        AspIdles(p, v, w);
      }
    }
  }

  // Every source reaches every vertex
  lemma AllReached(p: Setup, v: nat)
    requires Proper(p) && v < |p.g|
    ensures forall i | 0 <= i < p.sources :: Reached(p.g, Start(p), i, v)
  {
    hide Front, Linked, FanIn;
    assert At(p, 0xffff, v) == All(p.sources);
    forall i | 0 <= i < p.sources ensures Reached(p.g, Start(p), i, v) {
      assert i in Front(p.g, Start(p), 0xffff, v);
    }
  }

  // Whatever the order of deliveries: at time t a vertex knows exactly the
  // sources within t hops; and once nothing is left to do every vertex is done,
  // and its sum is the sum of its distances from all sources (in 32 bits).
  lemma AspCorrect(p: Setup, w: World<ASPState, ASPMessage, ()>, v: nat)
    requires Proper(p) && Reachable(ASP, p.g, p.memory, w) && v < |p.g|
    ensures |w.devs| == |p.g| && w.devs[v].s.reaching == Front(p.g, Start(p), w.devs[v].s.time, v)
    ensures forall i | 0 <= i < p.sources :: Reached(p.g, Start(p), i, v)
    ensures Quiet(w) || w.done ==>
      w.devs[v].s.done && w.devs[v].s.sum == AllDists(p.g, Start(p), v, p.sources) % WIDE
  {
    hide Core, Reach, Begin, Front, DistSum, AllDists, Nearby;
    var n: nat :| Reach(ASP, p.g, Begin(ASP, p.memory), w, n);
    AspRuns(p, w, n);
    AllReached(p, v);
    if Quiet(w) {
      QuietDone(p, w);
    }
    var s := w.devs[v].s;
    assert StateFits(p, s, v);
    if s.done {
      SubsetSize(s.reaching, All(p.sources));
      DistSumAll(p.g, Start(p), s.time, v, p.sources);
    }
  }
}
