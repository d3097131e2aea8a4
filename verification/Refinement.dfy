// The softswitch refines the vertex semantics: whatever the threads do, what
// they have done together is a run of the application.
module Refinement {
  import opened Wrappers
  import opened InTables
  import opened Vertices
  import opened Softswitch

  // ---------------------------------------------------------------------
  // What messages in flight and half-done multicasts still have to deliver

  ghost function DeviceOn(from: seq<seq<nat>>, t: nat, local: nat): nat {
    if t < |from| && local < |from[t]| then from[t][local] else 0
  }

  ghost function EdgesOut<M, E>(from: seq<seq<nat>>, t: nat, edges: seq<InEdge<E>>, payload: M): multiset<Msg<M, E>> {
    if edges == [] then multiset{}
    else
      multiset{Deliver(DeviceOn(from, t, edges[0].devId), edges[0].edge, payload)}
        + EdgesOut(from, t, edges[1..], payload)
  }

  ghost function ItemOut<M, E>(from: seq<seq<nat>>, item: Item<M, E>): multiset<Msg<M, E>> {
    match item
    case HostItem(payload) => multiset{ToHost(payload)}
    case Packet(t, edges, payload, _) => EdgesOut(from, t, edges, payload)
  }

  ghost function ItemsOut<M, E>(from: seq<seq<nat>>, items: seq<Item<M, E>>): multiset<Msg<M, E>> {
    if items == [] then multiset{} else ItemOut(from, items[0]) + ItemsOut(from, items[1..])
  }

  ghost function LegsOut<M, E>(from: seq<seq<nat>>, legs: seq<Leg<E>>, payload: M): multiset<Msg<M, E>> {
    if legs == [] then multiset{}
    else ItemsOut(from, Items(legs[0], payload, 0)) + LegsOut(from, legs[1..], payload)
  }

  ghost function ThreadOut<S, M, E>(from: seq<seq<nat>>, th: Thread<S, M, E>): multiset<Msg<M, E>> {
    (if th.payload.Some? then LegsOut(from, th.legs, th.payload.value) else multiset{})
      + (if th.inbox.Some? then ItemOut(from, th.inbox.value) else multiset{})
  }

  ghost function ThreadsOut<S, M, E>(from: seq<seq<nat>>, ths: seq<Thread<S, M, E>>): multiset<Msg<M, E>> {
    if ths == [] then multiset{}
    else ThreadsOut(from, ths[..|ths| - 1]) + ThreadOut(from, ths[|ths| - 1])
  }

  // ---------------------------------------------------------------------
  // What the machine is configured to run

  ghost predicate TargetOk<E>(from: seq<seq<nat>>, thread: nat, edges: seq<InEdge<E>>) {
    thread < |from| && forall i | 0 <= i < |edges| :: edges[i].devId < |from[thread]|
  }

  ghost predicate LegOk<E>(from: seq<seq<nat>>, leg: Leg<E>) {
    leg.Multicast? ==>
      forall i | 0 <= i < |leg.targets| :: TargetOk(from, leg.targets[i].thread, leg.targets[i].edges)
  }

  ghost predicate LegsOk<E>(from: seq<seq<nat>>, legs: seq<Leg<E>>) {
    forall i | 0 <= i < |legs| :: LegOk(from, legs[i])
  }

  // Devices and (thread, local id) pairs correspond to each other
  ghost predicate PlaceOk(place: seq<(nat, nat)>, from: seq<seq<nat>>) {
    && from != []
    && (forall d | 0 <= d < |place| ::
          place[d].0 < |from| && place[d].1 < |from[place[d].0]| && from[place[d].0][place[d].1] == d)
    && (forall t, i | 0 <= t < |from| && 0 <= i < |from[t]| ::
          from[t][i] < |place| && place[from[t][i]] == (t, i))
  }

  // Every out-edge list reaches exactly the edges of its pin
  ghost predicate RoutesOk<S, M(!new), E>(cfg: Config<S, M, E>) {
    forall d: nat, p: nat | d < |cfg.graph| ::
      && LegsOk(cfg.from, cfg.routes(d, p))
      && forall payload: M :: LegsOut(cfg.from, cfg.routes(d, p), payload) == OnEdges(cfg.graph[d], p, payload)
  }

  ghost predicate Compiled<S, M(!new), E>(cfg: Config<S, M, E>) {
    && |cfg.graph| == |cfg.memory| == |cfg.place|
    && PlaceOk(cfg.place, cfg.from) && RoutesOk(cfg)
  }

  // ---------------------------------------------------------------------
  // The run of the application that the machine stands for.  Handlers that a
  // thread is certain to call before it does anything else count as called.

  ghost function AbsDev<S, M, E>(app: App<S, M, E>, th: Thread<S, M, E>, i: nat): Dev<S>
    requires i < |th.slots|
  {
    var dev := th.slots[i].dev;
    match th.phase
    case Starting(k) => if i < k then dev else app.init(dev)
    case Leaving(last) => if last then dev else app.step(dev, Clock(th.time)).0
    case Stepping(k) => if i < k then dev else app.step(dev, Clock(th.time)).0
    case _ => dev
  }

  ghost function AbsTime<S, M, E>(th: Thread<S, M, E>): nat {
    if th.phase == Leaving(false) || th.phase.Stepping? then th.time + 1 else th.time
  }

  // Some device from the kth on will ask for another time step
  ghost predicate WillAsk<S, M, E>(app: App<S, M, E>, th: Thread<S, M, E>, k: nat) {
    exists i :: k <= i < |th.slots| && app.step(th.slots[i].dev, Clock(th.time)).1
  }

  ghost predicate AbsActive<S, M, E>(app: App<S, M, E>, th: Thread<S, M, E>) {
    match th.phase
    case Leaving(last) => if last then th.active else WillAsk(app, th, 0)
    case Stepping(k) => th.active || WillAsk(app, th, k)
    case _ => th.active
  }

  ghost predicate Over<S, M, E>(th: Thread<S, M, E>) {
    th.phase == Leaving(true) || th.phase.Finishing? || th.phase.Finished?
  }

  ghost predicate Asked<S, M, E>(th: Thread<S, M, E>, i: nat) {
    (th.phase.Finishing? && i < th.phase.next) || th.phase.Finished?
  }

  ghost predicate Shape<S, M, E>(cfg: Config<S, M, E>, ths: seq<Thread<S, M, E>>) {
    && ths != [] && |ths| == |cfg.from| && PlaceOk(cfg.place, cfg.from)
    && forall t | 0 <= t < |ths| :: |ths[t].slots| == |cfg.from[t]|
  }

  ghost function AbsDevs<S, M, E>(cfg: Config<S, M, E>, ths: seq<Thread<S, M, E>>): seq<Dev<S>>
    requires Shape(cfg, ths)
  {
    seq(|cfg.place|, d requires 0 <= d < |cfg.place| => AbsDev(cfg.app, ths[cfg.place[d].0], cfg.place[d].1))
  }

  ghost function AbsAsked<S, M, E>(cfg: Config<S, M, E>, ths: seq<Thread<S, M, E>>): set<nat>
    requires Shape(cfg, ths)
  {
    set d: nat | d < |cfg.place| && Asked(ths[cfg.place[d].0], cfg.place[d].1)
  }

  ghost function Abs<S, M, E>(cfg: Config<S, M, E>, m: Machine<S, M, E>): World<S, M, E>
    requires Shape(cfg, m.threads)
  {
    World(AbsDevs(cfg, m.threads),
          ItemsOut(cfg.from, m.air) + ThreadsOut(cfg.from, m.threads),
          AbsTime(m.threads[0]),
          exists t :: 0 <= t < |m.threads| && AbsActive(cfg.app, m.threads[t]),
          exists t :: 0 <= t < |m.threads| && Over(m.threads[t]),
          AbsAsked(cfg, m.threads))
  }

  // ---------------------------------------------------------------------
  // Invariants

  // The sender stack of the first n devices: no duplicates, exactly the marked
  // devices, and all the devices that are ready to send
  ghost predicate StackOk<S, M, E>(th: Thread<S, M, E>, n: nat) {
    && n <= |th.slots|
    && (forall j | 0 <= j < |th.senders| :: th.senders[j] < n && th.slots[th.senders[j]].marked)
    && (forall i, j | 0 <= i < j < |th.senders| :: th.senders[i] != th.senders[j])
    && (forall i | 0 <= i < n :: th.slots[i].marked ==> i in th.senders)
    && (forall i | 0 <= i < n :: th.slots[i].dev.rts != No ==> th.slots[i].marked)
  }

  ghost predicate PacketOk<M, E>(from: seq<seq<nat>>, item: Item<M, E>, time: nat) {
    item.Packet? ==> TargetOk(from, item.thread, item.edges) && item.time == time
  }

  // A thread on its own, in time step `now`
  ghost predicate ThreadOk<S, M, E>(from: seq<seq<nat>>, th: Thread<S, M, E>, t: nat, now: nat) {
    && AbsTime(th) == now
    && (th.phase.Finishing? || th.phase.Finished?
        || StackOk(th, if th.phase.Starting? then th.phase.next else |th.slots|))
    && (th.phase != Running ==> th.legs == [] && th.inbox.None?)
    && (th.phase.Waiting? || th.phase.Leaving? || Over(th) ==> th.senders == [])
    && (th.phase.Stepping? ==> th.phase.next <= |th.slots| && forall j | 0 <= j < |th.senders| :: th.senders[j] < th.phase.next)
    && (th.phase.Finishing? ==> th.phase.next <= |th.slots|)
    && (th.legs != [] ==> th.payload.Some? && LegsOk(from, th.legs))
    && (th.inbox.Some? ==> th.inbox.value.Packet? && th.inbox.value.thread == t && PacketOk(from, th.inbox.value, now))
  }

  ghost predicate AirOk<M, E>(from: seq<seq<nat>>, air: seq<Item<M, E>>, now: nat) {
    forall i | 0 <= i < |air| :: PacketOk(from, air[i], now)
  }

  ghost predicate Inv<S, M, E>(cfg: Config<S, M, E>, m: Machine<S, M, E>) {
    && Shape(cfg, m.threads)
    && var now := AbsTime(m.threads[0]);
       && (forall t | 0 <= t < |m.threads| :: ThreadOk(cfg.from, m.threads[t], t, now))
       && AirOk(cfg.from, m.air, now)
       && ((exists t :: 0 <= t < |m.threads| && Over(m.threads[t])) ==>
             forall t | 0 <= t < |m.threads| :: Over(m.threads[t]))
  }

  // ---------------------------------------------------------------------
  // Sums of messages

  lemma {:induction false} ItemsAppend<M, E>(from: seq<seq<nat>>, a: seq<Item<M, E>>, b: seq<Item<M, E>>)
    ensures ItemsOut(from, a + b) == ItemsOut(from, a) + ItemsOut(from, b)
    decreases |a|
  {
    hide ItemOut;
    if a == [] {
      assert a + b == b;
    } else {
      ItemsAppend(from, a[1..], b);
      assert (a + b)[1..] == a[1..] + b;
      BagAssoc(ItemOut(from, a[0]), ItemsOut(from, a[1..]), ItemsOut(from, b));
    }
  }

  lemma BagAssoc<T>(a: multiset<T>, b: multiset<T>, c: multiset<T>)
    ensures a + (b + c) == a + b + c
  {
  }

  lemma ItemsRemove<M, E>(from: seq<seq<nat>>, a: seq<Item<M, E>>, i: nat)
    requires i < |a|
    ensures ItemsOut(from, a) == ItemsOut(from, a[..i] + a[i + 1..]) + ItemOut(from, a[i])
  {
    hide ItemOut;
    ItemsAppend(from, a[..i], a[i..]);
    assert a == a[..i] + a[i..];
    ItemsAppend(from, a[..i], a[i + 1..]);
    assert a[i..][1..] == a[i + 1..];
  }

  // The time stamp does not matter to what is delivered
  lemma {:induction false} SameOut<M, E>(from: seq<seq<nat>>, a: seq<Item<M, E>>, b: seq<Item<M, E>>)
    requires |a| == |b| && forall i | 0 <= i < |a| :: ItemOut(from, a[i]) == ItemOut(from, b[i])
    ensures ItemsOut(from, a) == ItemsOut(from, b)
    decreases |a|
  {
    hide ItemOut;
    if a != [] {
      SameOut(from, a[1..], b[1..]);
    }
  }

  lemma ItemsTime<M, E>(from: seq<seq<nat>>, leg: Leg<E>, payload: M, time: nat)
    ensures ItemsOut(from, Items(leg, payload, time)) == ItemsOut(from, Items(leg, payload, 0))
  {
    SameOut(from, Items(leg, payload, time), Items(leg, payload, 0));
  }

  lemma {:induction false} ThreadsUpdate<S, M, E>(from: seq<seq<nat>>, ths: seq<Thread<S, M, E>>,
                                                  t: nat, th': Thread<S, M, E>)
    requires t < |ths|
    ensures ThreadsOut(from, ths[t := th']) + ThreadOut(from, ths[t])
         == ThreadsOut(from, ths) + ThreadOut(from, th')
    decreases |ths|
  {
    hide ThreadOut;
    var n := |ths| - 1;
    var ths' := ths[t := th'];
    if t < n {
      ThreadsUpdate(from, ths[..n], t, th');
      assert ths'[..n] == ths[..n][t := th'];
      Exchange(ThreadsOut(from, ths'[..n]), ThreadsOut(from, ths[..n]), ThreadOut(from, ths[t]),
               ThreadOut(from, th'), ThreadOut(from, ths[n]));
    } else {
      assert ths'[..n] == ths[..n];
      Exchange(ThreadsOut(from, ths[..n]), ThreadsOut(from, ths[..n]), multiset{}, multiset{},
               ThreadOut(from, ths[n]));
      Commute(ThreadsOut(from, ths[..n]), ThreadOut(from, th'), ThreadOut(from, ths[t]));
    }
  }

  lemma Exchange<T>(a: multiset<T>, b: multiset<T>, x: multiset<T>, y: multiset<T>, z: multiset<T>)
    requires a + x == b + y
    ensures a + z + x == b + z + y
  {
    assert a + z + x == a + x + z;
    assert b + z + y == b + y + z;
  }

  lemma Commute<T>(a: multiset<T>, x: multiset<T>, y: multiset<T>)
    ensures a + x + y == a + y + x
  {
  }

  // What one thread and the network gain together, the machine gains
  lemma {:induction false} Balance<T(!new)>(i: multiset<T>, i': multiset<T>, s: multiset<T>, s': multiset<T>,
                                            a: multiset<T>, a': multiset<T>, lost: multiset<T>, gained: multiset<T>)
    requires s' + a == s + a' && i' + a' + lost == i + a + gained
    ensures i' + s' + lost == i + s + gained
  {
    forall x: T ensures (i' + s' + lost)[x] == (i + s + gained)[x] {
      assert (s' + a)[x] == (s + a')[x];
      assert (i' + a' + lost)[x] == (i + a + gained)[x];
    }
  }
}
