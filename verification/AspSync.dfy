// Breadth-first search from many sources in global time steps: vertices send
// only when they have learnt something, and nothing is lost by that.
module AspSync {
  import opened Vertices
  import opened Gals
  import opened Fronts
  import opened BitVectors

  type Bits = set<nat>

  datatype ASPMessage = ASPMessage(sum: nat, reaching: Bits)

  datatype ASPState = ASPState(
    // Sum of lengths of all paths reaching this device (32 bits)
    sum: nat,
    // Nodes reaching this device, and new nodes reaching this device
    reaching: Bits, newReaching: Bits)

  type ASPDev = Dev<ASPState>

  function Init(dev: ASPDev): ASPDev { Dev(Out(0), dev.s) }

  // The sum is not part of what vertices tell each other
  function Send(dev: ASPDev, time: nat): (ASPDev, ASPMessage) {
    (Dev(No, dev.s), ASPMessage(0, dev.s.reaching))
  }

  function Recv(dev: ASPDev, m: ASPMessage, edge: (), time: nat): ASPDev {
    dev.(s := dev.s.(newReaching := dev.s.newReaching + m.reaching))
  }

  function Step(dev: ASPDev, time: nat): (ASPDev, bool) {
    var bits := dev.s.newReaching - dev.s.reaching;
    (Dev(if bits != {} then Out(0) else No,
         ASPState((dev.s.sum + (time + 1) * |bits|) % WIDE, dev.s.reaching + dev.s.newReaching, {})),
     bits != {})
  }

  function Finish(dev: ASPDev, time: nat): (ASPDev, Reply<ASPMessage>) {
    (dev, Says(ASPMessage(dev.s.sum, {})))
  }

  const ASP: App<ASPState, ASPMessage, ()> := App(Init, Send, Recv, Step, Finish)

  // The device, with its bit vectors in arrays of words
  class ASPDevice {
    var sum: nat
    const reaching: array<Word>
    const newReaching: array<Word>
    var readyToSend: Pin

    ghost predicate Valid()
      reads this
    {
      reaching != newReaching && reaching.Length == newReaching.Length && sum < WIDE
    }

    ghost function View(): ASPDev
      reads this, reaching, newReaching
    {
      Dev(readyToSend, ASPState(sum, SetOf(reaching[..]), SetOf(newReaching[..])))
    }

    constructor (words: nat)
      ensures Valid() && fresh(reaching) && fresh(newReaching) && reaching.Length == words
      ensures View() == Dev(No, ASPState(0, {}, {}))
    {
      sum, readyToSend := 0, No;
      reaching := new Word[words](_ => {});
      newReaching := new Word[words](_ => {});
      new;
      SetOfEmpty(reaching[..]);
      SetOfEmpty(newReaching[..]);
    }

    method CallSend(time: nat) returns (words: seq<Word>)
      requires Valid()
      modifies this
      ensures Valid() && (View(), ASPMessage(0, SetOf(words))) == old(Send(View(), time))
    {
      words := Copy(reaching);
      readyToSend := No;
    }

    method CallRecv(words: seq<Word>, time: nat)
      requires Valid() && |words| == reaching.Length
      modifies newReaching
      ensures Valid() && View() == old(Recv(View(), ASPMessage(0, SetOf(words)), (), time))
    {
      OrInto(newReaching, words);
    }

    method FoldWord(i: nat, time: nat)
      requires Valid() && i < reaching.Length
      modifies this`sum, reaching, newReaching
      ensures Valid() && sum == AddTimes(old(sum), time + 1, old(|Fresh(newReaching[i], reaching[i])|))
      ensures reaching[..] == old(reaching[..][i := reaching[i] + newReaching[i]])
      ensures newReaching[..] == old(newReaching[..][i := {}])
    {
      var rs, nrs := reaching[i], newReaching[i];
      reaching[i] := rs + nrs;
      var down;
      sum, down := CountBits(Fresh(nrs, rs), time + 1, sum, 0);
      newReaching[i] := {};
    }

    method Fold(time: nat) returns (changed: bool)
      requires Valid()
      modifies this`sum, reaching, newReaching
      ensures Valid()
      ensures var bits := old(SetOf(newReaching[..]) - SetOf(reaching[..]));
        (changed <==> bits != {}) && sum == AddTimes(old(sum), time + 1, |bits|)
      ensures SetOf(reaching[..]) == old(SetOf(reaching[..]) + SetOf(newReaching[..])) && SetOf(newReaching[..]) == {}
    {
      hide Wrap, FreshBits, SetOf, AddTimes, Fresh;
      ghost var a, b, n := newReaching[..], reaching[..], reaching.Length;
      ghost var sum0 := sum;
      changed := false;
      FreshNone(a, b);
      AddTimesMore(sum0, time + 1, 0, 0);
      for i := 0 to reaching.Length
        invariant Valid()
        invariant forall j | 0 <= j < i :: reaching[j] == b[j] + a[j] && newReaching[j] == {}
        invariant forall j | i <= j < n :: reaching[j] == b[j] && newReaching[j] == a[j]
        invariant sum == AddTimes(sum0, time + 1, FreshBits(a, b, i))
        invariant changed <==> FreshBits(a, b, i) > 0
      {
        FreshMore(a, b, i);
        AddTimesMore(sum0, time + 1, FreshBits(a, b, i), |Fresh(a[i], b[i])|);
        changed := changed || Fresh(newReaching[i], reaching[i]) != {};
        FoldWord(i, time);
      }
      FreshBitsSet(a, b, n);
      assert a[..n] == a && b[..n] == b;
      SetOfUnion(reaching[..], b, a);
      SetOfEmpty(newReaching[..]);
    }

    method CallStep(time: nat) returns (again: bool)
      requires Valid()
      modifies this, reaching, newReaching
      ensures Valid() && (View(), again) == old(Step(View(), time))
    {
      hide SetOf;
      var changed := Fold(time);
      if changed {
        readyToSend := Out(0);
        again := true;
      } else {
        readyToSend := No;
        again := false;
      }
    }
  }

  // ---------------------------------------------------------------------

  datatype Setup = Setup(g: Graph<()>, memory: seq<ASPDev>, sources: nat)

  ghost function Start(p: Setup): seq<set<nat>> {
    seq(|p.memory|, v requires 0 <= v < |p.memory| => p.memory[v].s.reaching)
  }

  ghost function At(p: Setup, k: nat, v: nat): Bits
    requires |p.g| == |p.memory|
  {
    Front(p.g, Start(p), k, v)
  }

  // Any graph in which the fronts have stopped growing by the time that the
  // 16-bit clock wraps around
  ghost predicate Proper(p: Setup) {
    && |p.g| == |p.memory| && Wellformed(p.g)
    && (forall v | 0 <= v < |p.g| ::
          var s := p.memory[v].s;
          s.sum == 0 && s.newReaching == {} && forall i | i in s.reaching :: i < p.sources)
    && (forall v: nat | v < |p.g| :: At(p, 0x1_0001, v) == At(p, 0x1_0000, v))
  }

  // u has learnt something in its last step
  ghost predicate Learnt(p: Setup, k: nat, u: nat)
    requires |p.g| == |p.memory|
  {
    k == 0 || At(p, k, u) != At(p, k - 1, u)
  }

  type Air = multiset<Msg<ASPMessage, ()>>

  ghost predicate Coming(air: Air, v: nat, reaching: Bits) {
    exists m :: m in air && m.Deliver? && m.to == v && m.payload.reaching == reaching
  }

  ghost predicate DevOk(p: Setup, dev: ASPDev, k: nat, v: nat)
    requires |p.g| == |p.memory|
  {
    && dev.s.reaching == At(p, k, v)
    && dev.s.sum == DistSum(p.g, Start(p), k, v, p.sources) % WIDE
    && dev.s.newReaching <= Nearby(p.g, Start(p), k, v, |p.g|)
    && (dev.rts == No || (dev.rts == Out(0) && Learnt(p, k, v)))
  }

  // What u has learnt has been taken in by v, or is on its way, or will be sent
  ghost predicate Told(p: Setup, rts: Pin, s: ASPState, air: Air, k: nat, u: nat, v: nat)
    requires |p.g| == |p.memory|
  {
    !Learnt(p, k, u) || rts == Out(0) || Coming(air, v, At(p, k, u)) || At(p, k, u) <= s.newReaching
  }

  ghost predicate AspInv(p: Setup, w: World<ASPState, ASPMessage, ()>) {
    && |w.devs| == |p.g| == |p.memory|
    && (forall v | 0 <= v < |w.devs| :: DevOk(p, w.devs[v], w.time, v))
    && (forall u: nat, v: nat | u < |p.g| && v < |p.g| && Linked(p.g, u, v) ::
          Told(p, w.devs[u].rts, w.devs[v].s, w.air, w.time, u, v))
    && (forall m | m in w.air && m.Deliver? && m.to < |p.g| ::
          m.payload.reaching <= Nearby(p.g, Start(p), w.time, m.to, |p.g|))
    && (!w.active ==> w.time > 0 && forall v: nat | v < |p.g| :: !Learnt(p, w.time, v))
    && (w.done ==> !w.active)
    && (forall m | m in w.air && m.ToHost? :: w.done)
  }

  lemma AspBegins(p: Setup)
    requires Proper(p)
    ensures AspInv(p, Begin(ASP, p.memory))
  {
    hide Nearby, Linked;
    var w := Begin(ASP, p.memory);
    forall v | 0 <= v < |w.devs| ensures DevOk(p, w.devs[v], 0, v) {
      assert w.devs[v] == Init(p.memory[v]);
      DistSumZero(p.g, Start(p), v, p.sources);
    }
  }

  lemma NearbyFront(p: Setup, k: nat, u: nat, v: nat)
    requires |p.g| == |p.memory| && u < |p.g| && Linked(p.g, u, v)
    ensures At(p, k, u) <= Nearby(p.g, Start(p), k, v, |p.g|)
  {
    hide Front, Nearby, Linked;
    forall i | i in At(p, k, u) ensures i in Nearby(p.g, Start(p), k, v, |p.g|) {
      NearbyHas(p.g, Start(p), k, v, |p.g|, i);
    }
  }

  lemma AspSends(p: Setup, w: World<ASPState, ASPMessage, ()>, w': World<ASPState, ASPMessage, ()>, d: nat)
    requires AspInv(p, w) && Sends(ASP, p.g, w, w', d)
    ensures AspInv(p, w')
  {
    hide At, Nearby, DistSum, OnEdges, Learnt;
    var dev := w.devs[d];
    assert DevOk(p, dev, w.time, d);
    var msg := ASPMessage(0, dev.s.reaching);
    assert w'.devs == w.devs[d := Dev(No, dev.s)] && w'.air == w.air + OnEdges(p.g[d], 0, msg);
    forall m | m in w'.air && m.Deliver? && m.to < |p.g|
      ensures m.payload.reaching <= Nearby(p.g, Start(p), w.time, m.to, |p.g|)
    {
      if m !in w.air {
        OnEdgesAre(p.g[d], 0, msg, m);
        NearbyFront(p, w.time, d, m.to);
      }
    }
    forall m | m in w'.air ensures m.Deliver? {
      if m in OnEdges(p.g[d], 0, msg) {
        OnEdgesAre(p.g[d], 0, msg, m);
      }
    }
    forall u: nat, v: nat | u < |p.g| && v < |p.g| && Linked(p.g, u, v)
      ensures Told(p, w'.devs[u].rts, w'.devs[v].s, w'.air, w.time, u, v)
    {
      assert Told(p, w.devs[u].rts, w.devs[v].s, w.air, w.time, u, v);
      ComingMore(w.air, w'.air, v, At(p, w.time, u));
      if u == d {
        JustSent(p.g, d, v, msg, w.air);
      }
    }
  }

  lemma ComingMore(air: Air, air': Air, v: nat, r: Bits)
    requires air <= air'
    ensures Coming(air, v, r) ==> Coming(air', v, r)
  {
    if Coming(air, v, r) {
      var m :| m in air && m.Deliver? && m.to == v && m.payload.reaching == r;
      assert m in air';
    }
  }

  lemma JustSent(g: Graph<()>, u: nat, v: nat, msg: ASPMessage, air: Air)
    requires u < |g| && Linked(g, u, v)
    ensures Coming(air + OnEdges(g[u], 0, msg), v, msg.reaching)
  {
    hide OnEdges;
    var i :| 0 <= i < |g[u]| && g[u][i].pin == 0 && g[u][i].to == v;
    OnEdgesHas(g[u], msg, i);
    assert Deliver(v, g[u][i].edge, msg) in air + OnEdges(g[u], 0, msg);
  }

  lemma AspReceives(p: Setup, w: World<ASPState, ASPMessage, ()>, w': World<ASPState, ASPMessage, ()>,
                    m: Msg<ASPMessage, ()>)
    requires AspInv(p, w) && Receives(ASP, w, w', m)
    ensures AspInv(p, w')
  {
    hide At, Nearby, DistSum, Learnt;
    assert DevOk(p, w.devs[m.to], w.time, m.to);
    assert w'.devs == w.devs[m.to := Recv(w.devs[m.to], m.payload, m.edge, Clock(w.time))];
    forall u: nat, v: nat | u < |p.g| && v < |p.g| && Linked(p.g, u, v)
      ensures Told(p, w'.devs[u].rts, w'.devs[v].s, w'.air, w.time, u, v)
    {
      assert Told(p, w.devs[u].rts, w.devs[v].s, w.air, w.time, u, v);
      ComingLess(w.air, m, v, At(p, w.time, u));
    }
  }

  lemma ComingLess(air: Air, m: Msg<ASPMessage, ()>, v: nat, r: Bits)
    requires m in air && m.Deliver?
    ensures Coming(air, v, r) ==> Coming(air - multiset{m}, v, r) || (m.to == v && m.payload.reaching == r)
  {
    if Coming(air, v, r) {
      var c :| c in air && c.Deliver? && c.to == v && c.payload.reaching == r;
      if c != m {
        assert c in air - multiset{m};
      }
    }
  }

  // When nothing is left to do in a step, the neighbours' fronts are known
  lemma AllTold(p: Setup, w: World<ASPState, ASPMessage, ()>, v: nat)
    requires Proper(p) && AspInv(p, w) && Quiet(w) && v < |p.g|
    ensures w.devs[v].s.reaching + w.devs[v].s.newReaching == At(p, w.time + 1, v)
  {
    hide At, Nearby, DistSum, Linked, Front;
    var s, k := w.devs[v].s, w.time;
    assert DevOk(p, w.devs[v], k, v);
    forall i | i in Nearby(p.g, Start(p), k, v, |p.g|) ensures i in s.reaching + s.newReaching {
      NearbyHas(p.g, Start(p), k, v, |p.g|, i);
      var u: nat :| u < |p.g| && Linked(p.g, u, v) && i in Front(p.g, Start(p), k, u);
      AtIs(p, k, u);
      assert Told(p, w.devs[u].rts, s, w.air, k, u, v);
      if !Learnt(p, k, u) {
        AtIs(p, k - 1, u);
        AtIs(p, k, v);
        FrontHop(p.g, Start(p), k - 1, u, v);
      }
    }
    AtIs(p, k, v);
    AtIs(p, k + 1, v);
    FrontNext(p.g, Start(p), k, v);
  }

  lemma AtIs(p: Setup, k: nat, v: nat)
    requires |p.g| == |p.memory|
    ensures At(p, k, v) == Front(p.g, Start(p), k, v)
  {
  }

  // Once no front grows, no front ever grows again
  lemma {:induction false} StableFrom(p: Setup, k: nat, j: nat, v: nat)
    requires |p.g| == |p.memory| && k <= j && v < |p.g|
    requires forall u: nat | u < |p.g| :: At(p, k + 1, u) == At(p, k, u)
    ensures At(p, j, v) == At(p, k, v)
    decreases j
  {
    if j > k {
      forall u: nat | u < |p.g| ensures At(p, j - 1, u) == At(p, k, u) {
        StableFrom(p, k, j - 1, u);
      }
      hide Front, Linked;
      SameNearby(p, j - 1, k, v, |p.g|);
      FrontNext(p.g, Start(p), j - 1, v);
      FrontNext(p.g, Start(p), k, v);
    }
  }

  lemma {:induction false} SameNearby(p: Setup, j: nat, k: nat, v: nat, n: nat)
    requires |p.g| == |p.memory| && n <= |p.g| && forall u: nat | u < |p.g| :: At(p, j, u) == At(p, k, u)
    ensures Nearby(p.g, Start(p), j, v, n) == Nearby(p.g, Start(p), k, v, n)
    decreases n
  {
    hide Front, Linked;
    if n > 0 {
      SameNearby(p, j, k, v, n - 1);
      assert At(p, j, n - 1) == At(p, k, n - 1);
    }
  }

  // One global step
  lemma StepOne(p: Setup, w: World<ASPState, ASPMessage, ()>, v: nat)
    requires Proper(p) && AspInv(p, w) && Quiet(w) && v < |p.g|
    ensures var r := Step(w.devs[v], Clock(w.time));
      && r.0.s.reaching == At(p, w.time + 1, v) && r.0.s.newReaching == {}
      && r.0.s.sum == DistSum(p.g, Start(p), w.time + 1, v, p.sources) % WIDE
      && (r.1 <==> Learnt(p, w.time + 1, v)) && r.0.rts == (if r.1 then Out(0) else No)
  {
    hide Nearby, DistSum, Linked, Front, Quiet, Told;
    var s, k := w.devs[v].s, w.time;
    var bits := s.newReaching - s.reaching;
    StepBits(p, w, v);
    BitsBelow(p, k + 1, v);
    assert Below(bits, p.sources) == bits;
    DistSumNext(p.g, Start(p), k, v, p.sources);
    if bits != {} && k >= 0x1_0000 {
      StableFrom(p, 0x1_0000, k, v);
      StableFrom(p, 0x1_0000, k + 1, v);
    }
    StepSum(s.sum, DistSum(p.g, Start(p), k, v, p.sources), k, |bits|);
  }

  // What is new in the step, as bits and as fronts
  lemma StepBits(p: Setup, w: World<ASPState, ASPMessage, ()>, v: nat)
    requires Proper(p) && AspInv(p, w) && Quiet(w) && v < |p.g| == |p.memory|
    ensures v < |w.devs| && DevOk(p, w.devs[v], w.time, v) && w.devs[v].rts == No
    ensures var s := w.devs[v].s; var bits := s.newReaching - s.reaching;
      && At(p, w.time + 1, v) == s.reaching + s.newReaching
      && At(p, w.time + 1, v) - At(p, w.time, v) == bits
      && (Learnt(p, w.time + 1, v) <==> bits != {})
  {
    hide Nearby, DistSum, Linked, Front;
    var s, k := w.devs[v].s, w.time;
    AllTold(p, w, v);
    assert DevOk(p, w.devs[v], k, v);
    var bits := s.newReaching - s.reaching;
    assert At(p, k + 1, v) == s.reaching + bits;
  }

  // The sum in 32 bits, with the 16-bit clock
  lemma StepSum(sum: nat, exact: nat, k: nat, n: nat)
    requires sum == exact % WIDE && (n == 0 || k < 0x1_0000)
    ensures (sum + (Clock(k) + 1) * n) % WIDE == (exact + (k + 1) * n) % WIDE
  {
    if n == 0 {
      assert (Clock(k) + 1) * n == 0 == (k + 1) * n;
    } else {
      assert Clock(k) == k;
    }
    WrapAdd(exact, (k + 1) * n);
  }

  lemma BitsBelow(p: Setup, k: nat, v: nat)
    requires Proper(p)
    ensures forall i | i in At(p, k, v) :: i < p.sources
  {
    hide Linked;
    forall i | i in At(p, k, v) ensures i < p.sources {
      var walk := FrontWalk(p.g, Start(p), k, v, i);
      var u := walk[0];
      assert i in p.memory[u].s.reaching;
    }
  }

  lemma AspSteps(p: Setup, w: World<ASPState, ASPMessage, ()>, w': World<ASPState, ASPMessage, ()>)
    requires Proper(p) && AspInv(p, w) && Steps(ASP, w, w')
    ensures AspInv(p, w')
  {
    hide At, Nearby, DistSum, Linked, Learnt, Proper, Front;
    forall v | 0 <= v < |w.devs|
      ensures w'.devs[v] == Step(w.devs[v], Clock(w.time)).0 && DevOk(p, w'.devs[v], w'.time, v)
      ensures ASP.step(w.devs[v], Clock(w.time)).1 <==> Learnt(p, w'.time, v)
    {
      StepOne(p, w, v);
    }
    if !w'.active {
      forall v: nat | v < |p.g| ensures !Learnt(p, w'.time, v) {
        assert !ASP.step(w.devs[v], Clock(w.time)).1;
      }
    }
    forall u: nat, v: nat | u < |p.g| && v < |p.g| && Linked(p.g, u, v)
      ensures Told(p, w'.devs[u].rts, w'.devs[v].s, w'.air, w'.time, u, v)
    {
      StepOne(p, w, u);
    }
  }

  lemma AspReplies(p: Setup, w: World<ASPState, ASPMessage, ()>, w': World<ASPState, ASPMessage, ()>, d: nat)
    requires AspInv(p, w) && Replies(ASP, w, w', d)
    ensures AspInv(p, w')
  {
    hide At, Nearby, DistSum, Linked, Learnt;
    var dev := w.devs[d];
    assert ASP.finish(dev, Clock(w.time)) == (dev, Says(ASPMessage(dev.s.sum, {})));
    assert w'.devs == w.devs;
    forall u: nat, v: nat | u < |p.g| && v < |p.g| && Linked(p.g, u, v)
      ensures Told(p, w.devs[u].rts, w.devs[v].s, w'.air, w.time, u, v)
    {
      assert Told(p, w.devs[u].rts, w.devs[v].s, w.air, w.time, u, v);
      ComingMore(w.air, w'.air, v, At(p, w.time, u));
    }
  }

  lemma {:induction false} AspRuns(p: Setup, w: World<ASPState, ASPMessage, ()>, n: nat)
    requires Proper(p) && Reach(ASP, p.g, Begin(ASP, p.memory), w, n)
    ensures AspInv(p, w)
    decreases n
  {
    hide Proper, AspInv, Begin, Sends, Receives, Replies, Steps;
    if n == 0 {
      AspBegins(p);
    } else {
      var v :| Reach(ASP, p.g, Begin(ASP, p.memory), v, n - 1) && Next(ASP, p.g, v, w);
      AspRuns(p, v, n - 1);
      if d :| Sends(ASP, p.g, v, w, d) {
        AspSends(p, v, w, d);
      } else if m :| Receives(ASP, v, w, m) {
        AspReceives(p, v, w, m);
      } else if d :| Replies(ASP, v, w, d) {
        AspReplies(p, v, w, d);
      } else if Steps(ASP, v, w) {
        AspSteps(p, v, w);
      } else {
        AspEnds(p, v, w);
      }
    }
  }

  lemma AspEnds(p: Setup, v: World<ASPState, ASPMessage, ()>, w: World<ASPState, ASPMessage, ()>)
    requires AspInv(p, v) && Ends(v, w)
    ensures AspInv(p, w)
  {
    hide At, Nearby, DistSum, Linked, Learnt;
  }

  // Sum of the distances from those of the first n sources that reach v at all
  ghost function ReachedDists(p: Setup, v: nat, n: nat): nat
    requires |p.g| == |p.memory|
  {
    if n == 0 then 0
    else ReachedDists(p, v, n - 1) + (if Reached(p.g, Start(p), n - 1, v) then Dist(p.g, Start(p), n - 1, v) else 0)
  }

  lemma {:induction false} FinalSum(p: Setup, k: nat, v: nat, n: nat)
    requires |p.g| == |p.memory|
    requires forall i: nat :: Reached(p.g, Start(p), i, v) <==> i in At(p, k, v)
    ensures DistSum(p.g, Start(p), k, v, n) == ReachedDists(p, v, n)
    decreases n
  {
    if n > 0 {
      hide Front, Reached;
      FinalSum(p, k, v, n - 1);
      assert Reached(p.g, Start(p), n - 1, v) <==> n - 1 in At(p, k, v);
      if n - 1 in At(p, k, v) {
        OnlyFirst(p.g, Start(p), n - 1, v, FirstAt(p.g, Start(p), n - 1, v, k), Dist(p.g, Start(p), n - 1, v));
      }
    }
  }

  // In every reachable state, after k global steps a vertex knows exactly the
  // sources within k hops.  When the run has ended it knows every source that
  // reaches it at all, and its sum is the sum of their distances.
  lemma AspCorrect(p: Setup, w: World<ASPState, ASPMessage, ()>, v: nat)
    requires Proper(p) && Reachable(ASP, p.g, p.memory, w) && v < |p.g|
    ensures |w.devs| == |p.g| && w.devs[v].s.reaching == Front(p.g, Start(p), w.time, v)
    ensures w.done ==>
      && (forall i: nat :: i in w.devs[v].s.reaching <==> Reached(p.g, Start(p), i, v))
      && w.devs[v].s.sum == ReachedDists(p, v, p.sources) % WIDE
  {
    hide Reach, Begin, Front, DistSum, ReachedDists, Nearby, Linked;
    var n: nat :| Reach(ASP, p.g, Begin(ASP, p.memory), w, n);
    AspRuns(p, w, n);
    assert DevOk(p, w.devs[v], w.time, v);
    if w.done {
      forall u: nat | u < |p.g| ensures At(p, w.time, u) == At(p, w.time - 1, u) {
        assert !Learnt(p, w.time, u);
      }
      forall i: nat ensures Reached(p.g, Start(p), i, v) <==> i in At(p, w.time, v) {
        if Reached(p.g, Start(p), i, v) {
          var k: nat :| i in Front(p.g, Start(p), k, v);
          if k >= w.time {
            StableFrom(p, w.time - 1, k, v);
          } else {
            FrontGrows(p.g, Start(p), k, w.time, v);
          }
        }
      }
      FinalSum(p, w.time, v, p.sources);
    }
  }
}
