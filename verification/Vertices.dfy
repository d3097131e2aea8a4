// What a vertex program means: devices that exchange messages along the edges
// of a graph, and take global steps when nothing is left to do.
module Vertices {
  // Whether a device wants to send, and where
  datatype Pin = No | HostPin | Out(pin: nat)

  // A device as its handlers see it
  datatype Dev<S> = Dev(rts: Pin, s: S)

  // The handlers of an application: S is the type of the states of its
  // devices, M that of its messages and E that of its edge labels.  The send
  // handler runs in a state with a pin; the last argument is the time step.
  datatype App<!S, !M, !E> = App(
    init: Dev<S> -> Dev<S>,
    send: (Dev<S>, nat) -> (Dev<S>, M),
    recv: (Dev<S>, M, E, nat) -> Dev<S>,
    step: (Dev<S>, nat) -> (Dev<S>, bool),
    finish: (Dev<S>, nat) -> (Dev<S>, Reply<M>))

  // What a device has to say to the host in the end
  datatype Reply<M> = Silent | Says(msg: M)

  // The time step as the 16-bit number that handlers see
  function Clock(time: nat): nat { time % 0x1_0000 }

  // An edge of the application graph
  datatype Edge<E> = Edge(pin: nat, to: nat, edge: E)

  // A message to a device or to the host that has not been received yet.
  // (What the host does with its messages is not part of the model.)
  datatype Msg<M, E> = Deliver(to: nat, edge: E, payload: M) | ToHost(payload: M)

  datatype World<S, M(==), E(==)> = World(
    devs: seq<Dev<S>>,
    air: multiset<Msg<M, E>>,
    time: nat,
    // Did any device ask for another time step when it was last stepped?
    active: bool,
    // Has the run ended, and which devices have been asked for a last reply?
    done: bool,
    asked: set<nat>)

  type Graph<E> = seq<seq<Edge<E>>>

  // The messages made by sending a payload on a pin: one for each edge
  ghost function OnEdges<M, E>(edges: seq<Edge<E>>, pin: nat, payload: M): multiset<Msg<M, E>> {
    if edges == [] then multiset{}
    else
      var e := edges[|edges| - 1];
      OnEdges(edges[..|edges| - 1], pin, payload)
        + if e.pin == pin then multiset{Deliver(e.to, e.edge, payload)} else multiset{}
  }

  ghost function Emitted<M, E>(edges: seq<Edge<E>>, pin: Pin, payload: M): multiset<Msg<M, E>> {
    match pin
    case No => multiset{}
    case HostPin => multiset{ToHost(payload)}
    case Out(p) => OnEdges(edges, p, payload)
  }

  ghost predicate Wellformed<E>(g: Graph<E>) {
    forall d, i | 0 <= d < |g| && 0 <= i < |g[d]| :: g[d][i].to < |g|
  }

  // ---------------------------------------------------------------------
  // Runs

  ghost function Begin<S, M, E>(app: App<S, M, E>, memory: seq<Dev<S>>): World<S, M, E> {
    World(seq(|memory|, i requires 0 <= i < |memory| => app.init(memory[i])), multiset{}, 0, true, false, {})
  }

  ghost predicate Sends<S, M, E>(app: App<S, M, E>, g: Graph<E>, w: World<S, M, E>, w': World<S, M, E>, d: nat) {
    && d < |w.devs| == |g| && !w.done && w.devs[d].rts != No
    && var r := app.send(w.devs[d], Clock(w.time));
       w' == w.(devs := w.devs[d := r.0], air := w.air + Emitted(g[d], w.devs[d].rts, r.1))
  }

  ghost predicate Receives<S, M, E>(app: App<S, M, E>, w: World<S, M, E>, w': World<S, M, E>, m: Msg<M, E>) {
    && m in w.air && m.Deliver? && m.to < |w.devs| && !w.done
    && w' == w.(devs := w.devs[m.to := app.recv(w.devs[m.to], m.payload, m.edge, Clock(w.time))],
                air := w.air - multiset{m})
  }

  // No vertex in the graph wishes to send, and there are no messages in flight
  ghost predicate Quiet<S, M, E>(w: World<S, M, E>) {
    && (forall d | 0 <= d < |w.devs| :: w.devs[d].rts == No)
    && (forall m | m in w.air :: m.ToHost?)
  }

  ghost function Stepped<S, M, E>(app: App<S, M, E>, w: World<S, M, E>): World<S, M, E> {
    World(seq(|w.devs|, d requires 0 <= d < |w.devs| => app.step(w.devs[d], Clock(w.time)).0),
          w.air, w.time + 1,
          exists d :: 0 <= d < |w.devs| && app.step(w.devs[d], Clock(w.time)).1,
          w.done, w.asked)
  }

  ghost predicate Steps<S, M, E>(app: App<S, M, E>, w: World<S, M, E>, w': World<S, M, E>) {
    !w.done && Quiet(w) && w.active && w' == Stepped(app, w)
  }

  ghost predicate Ends<S, M, E>(w: World<S, M, E>, w': World<S, M, E>) {
    !w.done && Quiet(w) && !w.active && w' == w.(done := true)
  }

  ghost function ReplyOf<M, E>(reply: Reply<M>): multiset<Msg<M, E>> {
    match reply
    case Silent => multiset{}
    case Says(m) => multiset{ToHost(m)}
  }

  ghost predicate Replies<S, M, E>(app: App<S, M, E>, w: World<S, M, E>, w': World<S, M, E>, d: nat) {
    && w.done && d < |w.devs| && d !in w.asked
    && var r := app.finish(w.devs[d], Clock(w.time));
       w' == w.(devs := w.devs[d := r.0], air := w.air + ReplyOf(r.1), asked := w.asked + {d})
  }

  ghost predicate Next<S(!new), M(!new), E(!new)>(app: App<S, M, E>, g: Graph<E>,
                                                  w: World<S, M, E>, w': World<S, M, E>)
  {
    || (exists d :: Sends(app, g, w, w', d))
    || (exists m :: Receives(app, w, w', m))
    || Steps(app, w, w')
    || Ends(w, w')
    || (exists d :: Replies(app, w, w', d))
  }

  lemma NextByReceive<S(!new), M(!new), E(!new)>(app: App<S, M, E>, g: Graph<E>, w: World<S, M, E>,
                                                 w': World<S, M, E>, m: Msg<M, E>)
    requires Receives(app, w, w', m)
    ensures Next(app, g, w, w')
  {
  }

  lemma NextByReply<S(!new), M(!new), E(!new)>(app: App<S, M, E>, g: Graph<E>, w: World<S, M, E>,
                                               w': World<S, M, E>, d: nat)
    requires Replies(app, w, w', d)
    ensures Next(app, g, w, w')
  {
  }

  // World w can be reached from w0 in n steps
  ghost predicate Reach<S(!new), M(!new), E(!new)>(app: App<S, M, E>, g: Graph<E>,
                                                   w0: World<S, M, E>, w: World<S, M, E>, n: nat)
    decreases n
  {
    if n == 0 then w == w0
    else exists v :: Reach(app, g, w0, v, n - 1) && Next(app, g, v, w)
  }

  ghost predicate Reachable<S(!new), M(!new), E(!new)>(app: App<S, M, E>, g: Graph<E>,
                                                       memory: seq<Dev<S>>, w: World<S, M, E>)
  {
    exists n: nat :: Reach(app, g, Begin(app, memory), w, n)
  }

  lemma ReachNext<S(!new), M(!new), E(!new)>(app: App<S, M, E>, g: Graph<E>, memory: seq<Dev<S>>,
                                             w: World<S, M, E>, w': World<S, M, E>)
    requires Reachable(app, g, memory, w) && Next(app, g, w, w')
    ensures Reachable(app, g, memory, w')
  {
    var n: nat :| Reach(app, g, Begin(app, memory), w, n);
    assert Reach(app, g, Begin(app, memory), w', n + 1);
  }

  lemma ReachBegin<S(!new), M(!new), E(!new)>(app: App<S, M, E>, g: Graph<E>, memory: seq<Dev<S>>)
    ensures Reachable(app, g, memory, Begin(app, memory))
  {
    assert Reach(app, g, Begin(app, memory), Begin(app, memory), 0);
  }
}
