// The softswitch: the event loops of many threads, their sender stacks and
// partly sent multicasts, messages in flight, and hardware idle detection.
// One step of the machine is one handler call or one hardware operation of one
// thread, so a run is any interleaving of the threads.
module Softswitch {
  import opened Wrappers
  import opened InTables
  import opened Vertices

  // State of a device on a thread
  datatype Slot<S> = Slot(dev: Dev<S>, marked: bool)

  // A message to one thread carries the in-edges found under its key there
  datatype Target<E> = Target(thread: nat, edges: seq<InEdge<E>>)

  // What one entry of an out-edge list reaches
  datatype Leg<E> = HostLeg | Multicast(targets: seq<Target<E>>)

  // A message in flight; `time` is the time step of its sender
  datatype Item<M, E> = Packet(thread: nat, edges: seq<InEdge<E>>, payload: M, time: nat) | HostItem(payload: M)

  datatype Phase =
    | Starting(next: nat)    // calling the init handlers
    | Running                // in the event loop
    | Waiting                // blocked on a call to tinselIdle
    | Leaving(last: bool)    // all threads are idle, and the call is about to return
    | Stepping(next: nat)    // calling the step handlers
    | Finishing(next: nat)   // calling the finish handlers
    | Finished

  datatype Thread<S, M, E> = Thread(
    slots: seq<Slot<S>>,
    // Local ids of devices that are ready to send, used as a stack
    senders: seq<nat>,
    // The rest of the current multicast, and the payload in the send slot
    legs: seq<Leg<E>>,
    payload: Option<M>,
    // The message being received: what is left of its in-edges
    inbox: Option<Item<M, E>>,
    // Did the last step handlers request a new time step?
    active: bool,
    time: nat,
    phase: Phase)

  datatype Machine<S, M, E> = Machine(threads: seq<Thread<S, M, E>>, air: seq<Item<M, E>>)

  // What does not change: the application, its graph, the placement of devices,
  // and what the out-edge lists reach
  datatype Config<!S, !M, !E> = Config(
    app: App<S, M, E>,
    graph: Graph<E>,
    memory: seq<Dev<S>>,
    place: seq<(nat, nat)>,
    from: seq<seq<nat>>,
    routes: (nat, nat) -> seq<Leg<E>>)

  // ---------------------------------------------------------------------
  // Steps of one thread

  function Pop<S, M, E>(th: Thread<S, M, E>): Thread<S, M, E>
    requires th.senders != [] && th.senders[|th.senders| - 1] < |th.slots|
  {
    var id := th.senders[|th.senders| - 1];
    th.(senders := th.senders[..|th.senders| - 1], slots := th.slots[id := th.slots[id].(marked := false)])
  }

  // Add a device to the senders, if it is not already there
  function Add<S, M, E>(th: Thread<S, M, E>, id: nat): Thread<S, M, E>
    requires id < |th.slots|
  {
    if th.slots[id].marked then th
    else th.(senders := th.senders + [id], slots := th.slots[id := th.slots[id].(marked := true)])
  }

  // The state of a device after one of its handlers; it joins the senders if
  // it is ready to send
  function Handled<S, M, E>(th: Thread<S, M, E>, id: nat, dev: Dev<S>): Thread<S, M, E>
    requires id < |th.slots|
  {
    var th' := th.(slots := th.slots[id := th.slots[id].(dev := dev)]);
    if dev.rts != No then Add(th', id) else th'
  }

  function Initialised<S, M, E>(app: App<S, M, E>, th: Thread<S, M, E>): (th': Thread<S, M, E>)
    requires th.phase.Starting? && th.phase.next < |th.slots|
    ensures |th'.slots| == |th.slots| && th'.phase == Starting(th.phase.next + 1)
  {
    var i := th.phase.next;
    Handled(th.(phase := Starting(i + 1), slots := th.slots[i := th.slots[i].(marked := false)]),
            i, app.init(th.slots[i].dev))
  }

  function Legs<S, M, E>(cfg: Config<S, M, E>, t: nat, id: nat, pin: Pin): seq<Leg<E>> {
    match pin
    case No => []
    case HostPin => [HostLeg]
    case Out(p) => if t < |cfg.from| && id < |cfg.from[t]| then cfg.routes(cfg.from[t][id], p) else []
  }

  // Start a new multicast
  function Started<S, M, E>(cfg: Config<S, M, E>, t: nat, th: Thread<S, M, E>): Thread<S, M, E>
    requires th.senders != [] && th.senders[|th.senders| - 1] < |th.slots|
  {
    var src := th.senders[|th.senders| - 1];
    var popped := Pop(th);
    var pin := th.slots[src].dev.rts;
    // A device could have changed its mind about sending, yet still be on the list
    if pin == No then popped
    else
      var r := cfg.app.send(th.slots[src].dev, Clock(th.time));
      Handled(popped, src, r.0).(legs := Legs(cfg, t, src, pin), payload := Some(r.1))
  }

  // The messages that one entry of an out-edge list puts into the network
  function Items<M, E>(leg: Leg<E>, payload: M, time: nat): seq<Item<M, E>> {
    match leg
    case HostLeg => [HostItem(payload)]
    case Multicast(ts) =>
      seq(|ts|, i requires 0 <= i < |ts| => Packet(ts[i].thread, ts[i].edges, payload, time))
  }

  // One receive handler
  function Received<S, M, E>(app: App<S, M, E>, th: Thread<S, M, E>): (th': Thread<S, M, E>)
    requires th.inbox.Some? && th.inbox.value.Packet? && th.inbox.value.edges != []
    requires th.inbox.value.edges[0].devId < |th.slots|
    ensures |th'.slots| == |th.slots| && th'.phase == th.phase
    ensures th'.inbox == Some(th.inbox.value.(edges := th.inbox.value.edges[1..]))
  {
    var p := th.inbox.value;
    var id := p.edges[0].devId;
    Handled(th.(inbox := Some(p.(edges := p.edges[1..]))), id,
            app.recv(th.slots[id].dev, p.payload, p.edges[0].edge, Clock(th.time)))
  }

  // One step handler
  function SteppedOne<S, M, E>(app: App<S, M, E>, th: Thread<S, M, E>): (th': Thread<S, M, E>)
    requires th.phase.Stepping? && th.phase.next < |th.slots|
    ensures |th'.slots| == |th.slots| && th'.phase == Stepping(th.phase.next + 1)
  {
    var i := th.phase.next;
    var r := app.step(th.slots[i].dev, Clock(th.time));
    Handled(th.(phase := Stepping(i + 1), active := r.1 || th.active), i, r.0)
  }

  function FinishedOne<S, M, E>(app: App<S, M, E>, th: Thread<S, M, E>): Thread<S, M, E>
    requires th.phase.Finishing? && th.phase.next < |th.slots|
  {
    var i := th.phase.next;
    th.(phase := Finishing(i + 1),
        slots := th.slots[i := th.slots[i].(dev := app.finish(th.slots[i].dev, Clock(th.time)).0)])
  }

  // ---------------------------------------------------------------------
  // Steps of the machine

  // While a thread has not left the call to tinselIdle that detected idleness,
  // no thread can send
  ghost predicate CanSend<S, M, E>(m: Machine<S, M, E>) {
    forall t | 0 <= t < |m.threads| :: !m.threads[t].phase.Leaving?
  }

  // A thread in its event loop that is not receiving a message
  predicate Free<S, M, E>(th: Thread<S, M, E>) {
    th.phase == Running && th.inbox.None?
  }

  datatype Action =
    | Init | Start | Send | Idle | Wake | Take(item: nat) | Recv | Done
    | Leave | Step | Resume | Finish | Stop

  // What thread t can do, and what becomes of the thread
  ghost predicate Acts<S, M, E>(cfg: Config<S, M, E>, m: Machine<S, M, E>, t: nat, a: Action,
                                th': Thread<S, M, E>, air': seq<Item<M, E>>)
    requires t < |m.threads|
  {
    var th := m.threads[t];
    var air := m.air;
    match a
    case Init =>
      && th.phase.Starting? && air' == air
      && if th.phase.next < |th.slots| then th' == Initialised(cfg.app, th)
         else th' == th.(phase := Running)
    case Send =>
      && Free(th) && th.legs != [] && th.payload.Some? && CanSend(m)
      && th' == th.(legs := th.legs[1..])
      && air' == air + Items(th.legs[0], th.payload.value, th.time)
    case Start =>
      && Free(th) && th.legs == [] && th.senders != [] && CanSend(m)
      && th.senders[|th.senders| - 1] < |th.slots|
      && th' == Started(cfg, t, th) && air' == air
    case Idle =>
      Free(th) && th.legs == [] && th.senders == [] && th' == th.(phase := Waiting) && air' == air
    case Wake =>
      && th.phase == Waiting && (exists i :: 0 <= i < |air| && air[i].Packet? && air[i].thread == t)
      && th' == th.(phase := Running) && air' == air
    case Take(i) =>
      && Free(th) && i < |air| && air[i].Packet? && air[i].thread == t
      && th' == th.(inbox := Some(air[i])) && air' == air[..i] + air[i + 1..]
    case Recv =>
      && th.phase == Running && th.inbox.Some? && th.inbox.value.Packet? && th.inbox.value.edges != []
      && th.inbox.value.edges[0].devId < |th.slots|
      && th' == Received(cfg.app, th) && air' == air
    case Done =>
      && th.phase == Running && th.inbox.Some? && th.inbox.value.Packet? && th.inbox.value.edges == []
      && th' == th.(inbox := None) && air' == air
    case Leave =>
      && th.phase.Leaving? && air' == air
      && th' == if th.phase.last then th.(phase := Finishing(0)) else th.(phase := Stepping(0), active := false)
    case Step =>
      th.phase.Stepping? && th.phase.next < |th.slots| && th' == SteppedOne(cfg.app, th) && air' == air
    case Resume =>
      && th.phase.Stepping? && th.phase.next >= |th.slots|
      && th' == th.(phase := Running, time := th.time + 1) && air' == air
    case Finish =>
      && th.phase.Finishing? && th.phase.next < |th.slots| && CanSend(m)
      && th' == FinishedOne(cfg.app, th)
      && air' == air + Farewell(cfg.app, th)
    case Stop =>
      && th.phase.Finishing? && th.phase.next >= |th.slots|
      && th' == th.(phase := Finished) && air' == air
  }

  function Farewell<S, M, E>(app: App<S, M, E>, th: Thread<S, M, E>): seq<Item<M, E>>
    requires th.phase.Finishing? && th.phase.next < |th.slots|
  {
    match app.finish(th.slots[th.phase.next].dev, Clock(th.time)).1
    case Silent => []
    case Says(msg) => [HostItem(msg)]
  }

  ghost predicate Moves<S, M, E>(cfg: Config<S, M, E>, m: Machine<S, M, E>, m': Machine<S, M, E>, t: nat, a: Action)
  {
    && t < |m.threads| && |m'.threads| == |m.threads|
    && m'.threads == m.threads[t := m'.threads[t]]
    && Acts(cfg, m, t, a, m'.threads[t], m'.air)
  }

  // Idle detection: all threads are blocked on a call to tinselIdle, and there
  // are no undelivered messages.  The calls will return; `last` says that all
  // callers voted for termination, that is, that no thread is active.
  ghost predicate Detects<S, M, E>(m: Machine<S, M, E>, m': Machine<S, M, E>, last: bool) {
    && (forall t | 0 <= t < |m.threads| :: m.threads[t].phase == Waiting)
    && (forall i | 0 <= i < |m.air| :: m.air[i].HostItem?)
    && (last <==> forall t | 0 <= t < |m.threads| :: !m.threads[t].active)
    && m' == m.(threads := seq(|m.threads|, t requires 0 <= t < |m.threads| =>
                                 m.threads[t].(phase := Leaving(last))))
  }

  // Every thread has left its event loop and called its finish handlers
  ghost predicate AllFinished<S, M, E>(m: Machine<S, M, E>) {
    forall t | 0 <= t < |m.threads| :: m.threads[t].phase == Finished
  }

  ghost predicate NextMachine<S, M, E>(cfg: Config<S, M, E>, m: Machine<S, M, E>, m': Machine<S, M, E>) {
    || (exists t, a :: Moves(cfg, m, m', t, a))
    || (exists last :: Detects(m, m', last))
  }
}
