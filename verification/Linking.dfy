// From the compiled tables to the machine: the out-edge lists that the mapper
// writes are routes of the softswitch that reach exactly the edges of the graph.
module Linking {
  import opened Wrappers
  import opened InTables
  import opened Masks
  import opened Mesh
  import opened Multicast
  import opened RoutingTables
  import PGraphs
  import Vertices
  import Softswitch
  import Refinement

  type Target<E> = Softswitch.Target<E>
  type Leg<E> = Softswitch.Leg<E>

  // ---------------------------------------------------------------------
  // Messages for events

  // The messages are one for each event, with the given payload
  ghost predicate Carries<M(!new), E(!new)>(msgs: multiset<Vertices.Msg<M, E>>, evs: multiset<Event<E>>, payload: M) {
    forall x :: msgs[x] == if x.Deliver? && x.payload == payload then evs[Event(x.to, x.edge)] else 0
  }

  lemma CarriesNone<M(!new), E(!new)>(payload: M)
    ensures Carries<M, E>(multiset{}, multiset{}, payload)
  {
  }

  lemma CarriesOne<M(!new), E(!new)>(e: Event<E>, payload: M)
    ensures Carries(multiset{Vertices.Deliver(e.dev, e.edge, payload)}, multiset{e}, payload)
  {
  }

  lemma CarriesSum<M(!new), E(!new)>(a: multiset<Vertices.Msg<M, E>>, b: multiset<Vertices.Msg<M, E>>,
                            x: multiset<Event<E>>, y: multiset<Event<E>>, payload: M)
    requires Carries(a, x, payload) && Carries(b, y, payload)
    ensures Carries(a + b, x + y, payload)
  {
  }

  lemma CarriesSame<M(!new), E(!new)>(a: multiset<Vertices.Msg<M, E>>, b: multiset<Vertices.Msg<M, E>>,
                             x: multiset<Event<E>>, payload: M)
    requires Carries(a, x, payload) && Carries(b, x, payload)
    ensures a == b
  {
  }

  // ---------------------------------------------------------------------
  // The legs of a list of out-edges

  function TargetsIn<E(==)>(read: InReader<E>, d: Dest, n: nat): seq<Target<E>>
    requires d.DestMRM?
  {
    if n == 0 then []
    else
      var thread := d.mbox * 64 + (n - 1);
      var es := read(thread, d.key);
      TargetsIn(read, d, n - 1)
        + if InMask(d.maskLow, d.maskHigh, n - 1) && es.Some? then [Softswitch.Target(thread, es.value)] else []
  }

  function DestTargets<E(==)>(read: InReader<E>, d: Dest): seq<Target<E>> {
    if d.DestMRM? then TargetsIn(read, d, 64) else []
  }

  function ListTargets<E(==)>(read: InReader<E>, ds: seq<Dest>): seq<Target<E>> {
    if ds == [] then []
    else ListTargets(read, ds[..|ds| - 1]) + DestTargets(read, ds[|ds| - 1])
  }

  ghost function Listed(ds: multiset<Dest>): (s: seq<Dest>)
    ensures multiset(s) == ds
    decreases |ds|
  {
    if ds == multiset{} then []
    else
      var d :| d in ds;
      Listed(ds - multiset{d}) + [d]
  }

  // What sending on one out-edge puts into the network
  ghost function LegOf<E(!new)>(net: Reader, read: InReader<E>, b: Board, e: OutEdge): Leg<E> {
    if e.mbox == USE_ROUTING_KEY then
      var ds := Deliver(net, b, Here, e.maskLow, MAX_HOPS);
      Softswitch.Leg.Multicast(if ds.Some? then ListTargets(read, Listed(ds.value.dests)) else [])
    else Softswitch.Leg.Multicast(DestTargets(read, DestMRM(e.mbox, e.maskLow, e.maskHigh, e.key)))
  }

  ghost function LegsOf<E(!new)>(net: Reader, read: InReader<E>, b: Board, list: seq<OutEdge>): seq<Leg<E>> {
    if list == [] || list[0].key == INVALID_KEY then []
    else [LegOf(net, read, b, list[0])] + LegsOf(net, read, b, list[1..])
  }

  // ---------------------------------------------------------------------
  // They carry the events of the out-edges

  lemma {:induction false} EdgesSnoc<M(!new), E(!new)>(from: seq<seq<nat>>, t: nat, edges: seq<InEdge<E>>,
                                              e: InEdge<E>, payload: M)
    ensures Refinement.EdgesOut(from, t, edges + [e], payload)
         == Refinement.EdgesOut(from, t, edges, payload)
          + multiset{Vertices.Deliver(Refinement.DeviceOn(from, t, e.devId), e.edge, payload)}
    decreases |edges|
  {
    if edges == [] {
      assert ([] + [e])[1..] == [];
    } else {
      EdgesSnoc(from, t, edges[1..], e, payload);
      assert (edges + [e])[1..] == edges[1..] + [e];
      Refinement.BagAssoc(
        multiset{Vertices.Deliver(Refinement.DeviceOn(from, t, edges[0].devId), edges[0].edge, payload)},
        Refinement.EdgesOut(from, t, edges[1..], payload),
        multiset{Vertices.Deliver(Refinement.DeviceOn(from, t, e.devId), e.edge, payload)});
    }
  }

  lemma {:induction false} EdgesCarry<M(!new), E(!new)>(from: seq<seq<nat>>, t: nat, edges: seq<InEdge<E>>, payload: M)
    ensures Carries(Refinement.EdgesOut(from, t, edges, payload), Invoked(from, t, edges), payload)
    decreases |edges|
  {
    hide Carries;
    if edges == [] {
      CarriesNone<M, E>(payload);
    } else {
      var n := |edges| - 1;
      EdgesCarry(from, t, edges[..n], payload);
      assert edges == edges[..n] + [edges[n]];
      EdgesSnoc(from, t, edges[..n], edges[n], payload);
      CarriesOne(Event(DeviceAt(from, t, edges[n].devId), edges[n].edge), payload);
      CarriesSum(Refinement.EdgesOut(from, t, edges[..n], payload),
                 multiset{Vertices.Deliver(DeviceAt(from, t, edges[n].devId), edges[n].edge, payload)},
                 Invoked(from, t, edges[..n]), multiset{Event(DeviceAt(from, t, edges[n].devId), edges[n].edge)}, payload);
    }
  }

  ghost function TargetsOut<M, E(!new)>(from: seq<seq<nat>>, ts: seq<Target<E>>, payload: M)
    : multiset<Vertices.Msg<M, E>>
  {
    Refinement.ItemsOut(from, Softswitch.Items(Softswitch.Leg.Multicast(ts), payload, 0))
  }

  lemma TargetsAppend<M, E(!new)>(from: seq<seq<nat>>, a: seq<Target<E>>, b: seq<Target<E>>, payload: M)
    ensures TargetsOut(from, a + b, payload) == TargetsOut(from, a, payload) + TargetsOut(from, b, payload)
  {
    var x, y := Softswitch.Items(Softswitch.Leg.Multicast(a), payload, 0),
      Softswitch.Items(Softswitch.Leg.Multicast(b), payload, 0);
    assert Softswitch.Items(Softswitch.Leg.Multicast(a + b), payload, 0) == x + y;
    Refinement.ItemsAppend(from, x, y);
  }

  lemma OneTarget<M(!new), E(!new)>(from: seq<seq<nat>>, t: Target<E>, payload: M)
    ensures TargetsOut(from, [t], payload) == Refinement.EdgesOut(from, t.thread, t.edges, payload)
  {
    var items := Softswitch.Items(Softswitch.Leg.Multicast([t]), payload, 0);
    assert items[1..] == [];
    assert Refinement.ItemsOut(from, items) == Refinement.ItemOut(from, items[0]) + multiset{};
  }

  ghost predicate AllOk<E(!new)>(from: seq<seq<nat>>, ts: seq<Target<E>>) {
    forall i | 0 <= i < |ts| :: Refinement.TargetOk(from, ts[i].thread, ts[i].edges)
  }

  lemma {:induction false} MailboxCarries<M(!new), E(!new)>(read: InReader<E>, from: seq<seq<nat>>, d: Dest, n: nat,
                                                            payload: M)
    requires d.DestMRM? && MailboxEvents(read, from, d, n).Some?
    ensures AllOk(from, TargetsIn(read, d, n))
    ensures Carries(TargetsOut(from, TargetsIn(read, d, n), payload), MailboxEvents(read, from, d, n).value, payload)
    decreases n
  {
    hide Carries, TargetsOut, InMask, Invoked;
    if n == 0 {
      NoTargets<M, E>(from, payload);
    } else {
      MailboxCarries(read, from, d, n - 1, payload);
      var thread := d.mbox * 64 + (n - 1);
      var es := read(thread, d.key);
      if InMask(d.maskLow, d.maskHigh, n - 1) {
        var t := Softswitch.Target(thread, es.value);
        TargetsAppend(from, TargetsIn(read, d, n - 1), [t], payload);
        OneTarget(from, t, payload);
        EdgesCarry(from, thread, es.value, payload);
        CarriesSum(TargetsOut(from, TargetsIn(read, d, n - 1), payload), TargetsOut(from, [t], payload),
                   MailboxEvents(read, from, d, n - 1).value, Invoked(from, thread, es.value), payload);
      } else {
        assert TargetsIn(read, d, n) == TargetsIn(read, d, n - 1);
      }
    }
  }

  lemma NoTargets<M(!new), E(!new)>(from: seq<seq<nat>>, payload: M)
    ensures Carries<M, E>(TargetsOut(from, [], payload), multiset{}, payload)
  {
  }

  lemma {:induction false} ListCarries<M(!new), E(!new)>(read: InReader<E>, from: seq<seq<nat>>, ds: seq<Dest>, payload: M)
    requires ListEvents(read, from, ds).Some?
    ensures AllOk(from, ListTargets(read, ds))
    ensures Carries(TargetsOut(from, ListTargets(read, ds), payload), ListEvents(read, from, ds).value, payload)
    decreases |ds|
  {
    hide Carries, TargetsOut, MailboxEvents, TargetsIn;
    if ds == [] {
      NoTargets<M, E>(from, payload);
    } else {
      var n := |ds| - 1;
      ListCarries(read, from, ds[..n], payload);
      MailboxCarries(read, from, ds[n], 64, payload);
      TargetsAppend(from, ListTargets(read, ds[..n]), DestTargets(read, ds[n]), payload);
      CarriesSum(TargetsOut(from, ListTargets(read, ds[..n]), payload), TargetsOut(from, DestTargets(read, ds[n]), payload),
                 ListEvents(read, from, ds[..n]).value, DestEvents(read, from, ds[n]).value, payload);
    }
  }

  lemma LegCarries<M(!new), E(!new)>(net: Reader, read: InReader<E>, from: seq<seq<nat>>, b: Board, e: OutEdge, payload: M)
    requires EdgeEvents(net, read, from, b, e).Some?
    ensures var leg := LegOf(net, read, b, e);
      && Refinement.LegOk(from, leg)
      && Carries(Refinement.ItemsOut(from, Softswitch.Items(leg, payload, 0)),
                 EdgeEvents(net, read, from, b, e).value, payload)
  {
    hide Carries, MailboxEvents, TargetsIn, BagEvents, ListEvents, Deliver, Listed, ListTargets;
    if e.mbox == USE_ROUTING_KEY {
      var ds := Deliver(net, b, Here, e.maskLow, MAX_HOPS).value.dests;
      BagList(read, from, Listed(ds));
      ListCarries(read, from, Listed(ds), payload);
    } else {
      MailboxCarries(read, from, DestMRM(e.mbox, e.maskLow, e.maskHigh, e.key), 64, payload);
    }
  }

  lemma {:induction false} LegsCarry<M(!new), E(!new)>(net: Reader, read: InReader<E>, from: seq<seq<nat>>, b: Board,
                                              list: seq<OutEdge>, payload: M)
    requires OutEvents(net, read, from, b, list).Some?
    ensures var legs := LegsOf(net, read, b, list);
      && Refinement.LegsOk(from, legs)
      && Carries(Refinement.LegsOut(from, legs, payload), OutEvents(net, read, from, b, list).value, payload)
    decreases |list|
  {
    hide Carries, EdgeEvents, LegOf, Refinement.LegOk, Refinement.ItemsOut;
    if list[0].key == INVALID_KEY {
      CarriesNone<M, E>(payload);
    } else {
      var leg, rest := LegOf(net, read, b, list[0]), LegsOf(net, read, b, list[1..]);
      LegCarries(net, read, from, b, list[0], payload);
      LegsCarry(net, read, from, b, list[1..], payload);
      assert ([leg] + rest)[1..] == rest;
      CarriesSum(Refinement.ItemsOut(from, Softswitch.Items(leg, payload, 0)), Refinement.LegsOut(from, rest, payload),
                 EdgeEvents(net, read, from, b, list[0]).value, OutEvents(net, read, from, b, list[1..]).value, payload);
    }
  }

  // ---------------------------------------------------------------------
  // The application graph, and the main result

  function EdgesOf<E(==)>(g: Graph<E>, d: nat, n: nat): seq<Vertices.Edge<E>>
    requires g.Valid() && d < |g.outgoing| && n <= |g.outgoing[d]|
  {
    seq(n, i requires 0 <= i < n => Vertices.Edge(g.pins[d][i], g.outgoing[d][i], g.labels[d][i]))
  }

  function GraphOf<E(==)>(g: Graph<E>): Vertices.Graph<E>
    requires g.Valid()
  {
    seq(|g.outgoing|, d requires 0 <= d < |g.outgoing| => EdgesOf(g, d, |g.outgoing[d]|))
  }

  lemma {:induction false} GraphCarries<M(!new), E(!new)>(g: Graph<E>, d: nat, p: nat, n: nat, payload: M)
    requires g.Valid() && d < |g.outgoing| && n <= |g.outgoing[d]|
    ensures Carries(Vertices.OnEdges(EdgesOf(g, d, n), p, payload), Edges(g, d, p, n), payload)
    decreases n
  {
    hide Carries;
    if n == 0 {
      CarriesNone<M, E>(payload);
    } else {
      GraphCarries(g, d, p, n - 1, payload);
      assert EdgesOf(g, d, n)[..n - 1] == EdgesOf(g, d, n - 1);
      var ev := Event(g.outgoing[d][n - 1], g.labels[d][n - 1]);
      if g.pins[d][n - 1] == p {
        CarriesOne(ev, payload);
        CarriesSum(Vertices.OnEdges(EdgesOf(g, d, n - 1), p, payload),
                   multiset{Vertices.Deliver(ev.dev, ev.edge, payload)}, Edges(g, d, p, n - 1), multiset{ev}, payload);
      } else {
        AddNone(Vertices.OnEdges(EdgesOf(g, d, n - 1), p, payload));
        AddNone(Edges(g, d, p, n - 1));
      }
    }
  }

  lemma AddNone<T>(a: multiset<T>)
    ensures a + multiset{} == a
  {
  }

  // Sending along the legs of a compiled list reaches exactly the edges of the
  // pin, whatever the payload
  lemma CompiledLegs<M(!new), E(!new)>(net: Reader, read: InReader<E>, g: Graph<E>, m: Mapping, d: nat, p: nat,
                              list: seq<OutEdge>, payload: M)
    requires g.Valid() && |m.to| == |g.outgoing| && d < |g.outgoing| && Means(net, read, g, m, d, p, list)
    ensures var legs := LegsOf(net, read, BoardAt(PGraphs.GetThreadId(m.to[d])), list);
      && Refinement.LegsOk(m.from, legs)
      && Refinement.LegsOut(m.from, legs, payload) == Vertices.OnEdges(GraphOf(g)[d], p, payload)
  {
    hide Carries, OutEvents, LegsOf, Edges;
    var b := BoardAt(PGraphs.GetThreadId(m.to[d]));
    LegsCarry(net, read, m.from, b, list, payload);
    GraphCarries(g, d, p, |g.outgoing[d]|, payload);
    CarriesSame(Refinement.LegsOut(m.from, LegsOf(net, read, b, list), payload),
                Vertices.OnEdges(GraphOf(g)[d], p, payload), AllEdges(g, d, p), payload);
  }

  // ---------------------------------------------------------------------
  // A compiled graph runs on the softswitch

  // The mapping is a bijection between devices and thread-local ids
  ghost predicate Bijective(m: Mapping) {
    && (forall d | 0 <= d < |m.to| ::
          var t, i := PGraphs.GetThreadId(m.to[d]), PGraphs.GetLocalDeviceId(m.to[d]);
          t < |m.from| && i < |m.from[t]| && m.from[t][i] == d)
    && (forall t, i | 0 <= t < |m.from| && 0 <= i < |m.from[t]| ::
          && m.from[t][i] < |m.to|
          && PGraphs.GetThreadId(m.to[m.from[t][i]]) == t && PGraphs.GetLocalDeviceId(m.to[m.from[t][i]]) == i)
  }

  function PlaceOf(m: Mapping): seq<(nat, nat)> {
    seq(|m.to|, d requires 0 <= d < |m.to| => (PGraphs.GetThreadId(m.to[d]), PGraphs.GetLocalDeviceId(m.to[d])))
  }

  lemma PlaceIsOk(m: Mapping)
    requires Bijective(m) && m.from != []
    ensures Refinement.PlaceOk(PlaceOf(m), m.from)
  {
    var place := PlaceOf(m);
    forall t, i | 0 <= t < |m.from| && 0 <= i < |m.from[t]|
      ensures m.from[t][i] < |place| && place[m.from[t][i]] == (t, i)
    {
    }
  }

  // No edge uses a pin beyond the number of pins
  ghost predicate PinsBelow<E(!new)>(g: Graph<E>, numPins: nat) {
    forall d, i | 0 <= d < |g.pins| && 0 <= i < |g.pins[d]| :: g.pins[d][i] < numPins
  }

  lemma {:induction false} UnusedPin<M, E(!new)>(g: Graph<E>, d: nat, p: nat, n: nat, numPins: nat, payload: M)
    requires g.Valid() && d < |g.outgoing| && n <= |g.outgoing[d]| && PinsBelow(g, numPins) && p >= numPins
    ensures Vertices.OnEdges(EdgesOf(g, d, n), p, payload) == multiset{}
    decreases n
  {
    if n > 0 {
      UnusedPin(g, d, p, n - 1, numPins, payload);
      assert EdgesOf(g, d, n)[..n - 1] == EdgesOf(g, d, n - 1);
      assert g.pins[d][n - 1] < numPins;
    }
  }

  ghost function RouteOf<E(!new)>(net: Reader, read: InReader<E>, m: Mapping, out: seq<seq<seq<OutEdge>>>, d: nat, p: nat)
    : seq<Leg<E>>
  {
    if d < |out| && p < |out[d]| && d < |m.to|
    then LegsOf(net, read, BoardAt(PGraphs.GetThreadId(m.to[d])), out[d][p])
    else []
  }

  ghost function ConfigOf<S, M, E(!new)>(app: Vertices.App<S, M, E>, memory: seq<Vertices.Dev<S>>, g: Graph<E>,
                                         m: Mapping, net: Reader, read: InReader<E>, out: seq<seq<seq<OutEdge>>>)
    : Softswitch.Config<S, M, E>
    requires g.Valid()
  {
    Softswitch.Config(app, GraphOf(g), memory, PlaceOf(m), m.from,
                      (d: nat, p: nat) => RouteOf(net, read, m, out, d, p))
  }

  // Tables that say what the graph says make a machine that runs the application
  lemma CompiledRuns<S, M(!new), E(!new)>(app: Vertices.App<S, M, E>, memory: seq<Vertices.Dev<S>>, g: Graph<E>,
                                          m: Mapping, net: Reader, read: InReader<E>, out: seq<seq<seq<OutEdge>>>, numPins: nat)
    requires g.Valid() && |memory| == |g.outgoing| == |m.to| == |out| && m.from != []
    requires Bijective(m) && PinsBelow(g, numPins)
    requires forall d | 0 <= d < |out| :: |out[d]| == numPins
    requires forall d, p | 0 <= d < |out| && 0 <= p < numPins :: Means(net, read, g, m, d, p, out[d][p])
    ensures Refinement.Compiled(ConfigOf(app, memory, g, m, net, read, out))
  {
    hide LegsOf, Means, Refinement.LegsOk, Refinement.LegsOut, Vertices.OnEdges;
    PlaceIsOk(m);
    var cfg := ConfigOf(app, memory, g, m, net, read, out);
    forall d: nat, p: nat | d < |cfg.graph|
      ensures Refinement.LegsOk(cfg.from, cfg.routes(d, p))
      ensures forall payload: M ::
        Refinement.LegsOut(cfg.from, cfg.routes(d, p), payload) == Vertices.OnEdges(cfg.graph[d], p, payload)
    {
      forall payload: M
        ensures Refinement.LegsOk(cfg.from, RouteOf(net, read, m, out, d, p))
        ensures Refinement.LegsOut(cfg.from, RouteOf(net, read, m, out, d, p), payload)
             == Vertices.OnEdges(cfg.graph[d], p, payload)
      {
        if p < numPins {
          CompiledLegs(net, read, g, m, d, p, out[d][p], payload);
        } else {
          UnusedPin(g, d, p, |g.outgoing[d]|, numPins, payload);
          NoLegs<M, E>(m.from, payload);
        }
      }
      if p < numPins {
        LegsAreOk(net, read, m.from, BoardAt(PGraphs.GetThreadId(m.to[d])), out[d][p], g, m, d, p);
      } else {
        NoLegs<int, E>(m.from, 0);
      }
    }
  }

  lemma NoLegs<M, E(!new)>(from: seq<seq<nat>>, payload: M)
    ensures Refinement.LegsOk<E>(from, []) && Refinement.LegsOut<M, E>(from, [], payload) == multiset{}
  {
  }

  lemma LegsAreOk<E(!new)>(net: Reader, read: InReader<E>, from: seq<seq<nat>>, b: Board, list: seq<OutEdge>,
                  g: Graph<E>, m: Mapping, d: nat, p: nat)
    requires g.Valid() && |m.to| == |g.outgoing| && d < |g.outgoing| && Means(net, read, g, m, d, p, list)
    requires from == m.from && b == BoardAt(PGraphs.GetThreadId(m.to[d]))
    ensures Refinement.LegsOk(from, LegsOf(net, read, b, list))
  {
    LegsCarry(net, read, from, b, list, 0);
  }
}
