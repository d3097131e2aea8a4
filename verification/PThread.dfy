// The event loop of one thread, on its arrays.
module PThreads {
  import opened Wrappers
  import opened InTables
  import opened Vertices
  import opened Softswitch
  import opened Refinement
  import opened Simulation

  // Calling all init handlers, all step handlers, or all receive handlers of a message
  ghost function InitAll<S, M, E>(app: App<S, M, E>, th: Thread<S, M, E>): Thread<S, M, E>
    requires th.phase.Starting? && th.phase.next <= |th.slots|
    decreases |th.slots| - th.phase.next
  {
    if th.phase.next < |th.slots| then InitAll(app, Initialised(app, th)) else th.(phase := Running)
  }

  ghost function StepAll<S, M, E>(app: App<S, M, E>, th: Thread<S, M, E>): Thread<S, M, E>
    requires th.phase.Stepping? && th.phase.next <= |th.slots|
    decreases |th.slots| - th.phase.next
  {
    if th.phase.next < |th.slots| then StepAll(app, SteppedOne(app, th))
    else th.(phase := Running, time := th.time + 1)
  }

  ghost predicate Receivable<S, M, E>(th: Thread<S, M, E>) {
    && th.inbox.Some? && th.inbox.value.Packet?
    && forall i | 0 <= i < |th.inbox.value.edges| :: th.inbox.value.edges[i].devId < |th.slots|
  }

  ghost function ReceiveAll<S, M, E>(app: App<S, M, E>, th: Thread<S, M, E>): Thread<S, M, E>
    requires Receivable(th)
    decreases |th.inbox.value.edges|
  {
    if th.inbox.value.edges == [] then th.(inbox := None) else ReceiveAll(app, Received(app, th))
  }

  // Calling all finish handlers, with what they tell the host
  ghost function FinishAll<S, M, E>(app: App<S, M, E>, th: Thread<S, M, E>): (Thread<S, M, E>, seq<Item<M, E>>)
    requires th.phase.Finishing? && th.phase.next <= |th.slots|
    decreases |th.slots| - th.phase.next
  {
    if th.phase.next < |th.slots| then
      var rest := FinishAll(app, FinishedOne(app, th));
      (rest.0, Farewell(app, th) + rest.1)
    else (th.(phase := Finished), [])
  }

  // The machine can get from one state to the other
  ghost predicate Leads<S(!new), M(!new), E(!new)>(cfg: Config<S, M, E>, m: Machine<S, M, E>,
                                                   m': Machine<S, M, E>, n: nat)
    decreases n
  {
    if n == 0 then m == m'
    else exists v :: NextMachine(cfg, m, v) && Leads(cfg, v, m', n - 1)
  }

  ghost function With<S, M, E>(m: Machine<S, M, E>, t: nat, th: Thread<S, M, E>): Machine<S, M, E>
    requires t < |m.threads|
  {
    m.(threads := m.threads[t := th])
  }

  lemma OneMove<S(!new), M(!new), E(!new)>(cfg: Config<S, M, E>, m: Machine<S, M, E>, t: nat, a: Action,
                                           th: Thread<S, M, E>, m': Machine<S, M, E>, n: nat)
    requires t < |m.threads| && Acts(cfg, m, t, a, th, m.air) && Leads(cfg, With(m, t, th), m', n)
    ensures Leads(cfg, m, m', n + 1)
  {
    hide Acts;
    assert Moves(cfg, m, With(m, t, th), t, a);
    assert NextMachine(cfg, m, With(m, t, th));
  }

  // The loops over the handlers are runs of single steps of the machine
  lemma {:induction false} InitAllMoves<S(!new), M(!new), E(!new)>(cfg: Config<S, M, E>, m: Machine<S, M, E>, t: nat)
    returns (n: nat)
    requires t < |m.threads| && m.threads[t].phase.Starting? && m.threads[t].phase.next <= |m.threads[t].slots|
    ensures Leads(cfg, m, With(m, t, InitAll(cfg.app, m.threads[t])), n)
    decreases |m.threads[t].slots| - m.threads[t].phase.next
  {
    hide Initialised, Started, Received, SteppedOne, FinishedOne, CanSend, NextMachine;
    var th := m.threads[t];
    var end := With(m, t, InitAll(cfg.app, th));
    if th.phase.next < |th.slots| {
      var next := Initialised(cfg.app, th);
      n := InitAllMoves(cfg, With(m, t, next), t);
      assert With(With(m, t, next), t, InitAll(cfg.app, next)) == end;
      OneMove(cfg, m, t, Init, next, end, n);
    } else {
      n := 0;
      OneMove(cfg, m, t, Init, th.(phase := Running), end, 0);
    }
    n := n + 1;
  }

  lemma {:induction false} StepAllMoves<S(!new), M(!new), E(!new)>(cfg: Config<S, M, E>, m: Machine<S, M, E>, t: nat)
    returns (n: nat)
    requires t < |m.threads| && m.threads[t].phase.Stepping? && m.threads[t].phase.next <= |m.threads[t].slots|
    ensures Leads(cfg, m, With(m, t, StepAll(cfg.app, m.threads[t])), n)
    decreases |m.threads[t].slots| - m.threads[t].phase.next
  {
    hide Initialised, Started, Received, SteppedOne, FinishedOne, CanSend, NextMachine;
    var th := m.threads[t];
    var end := With(m, t, StepAll(cfg.app, th));
    if th.phase.next < |th.slots| {
      var next := SteppedOne(cfg.app, th);
      n := StepAllMoves(cfg, With(m, t, next), t);
      assert With(With(m, t, next), t, StepAll(cfg.app, next)) == end;
      OneMove(cfg, m, t, Step, next, end, n);
    } else {
      n := 0;
      OneMove(cfg, m, t, Resume, th.(phase := Running, time := th.time + 1), end, 0);
    }
    n := n + 1;
  }

  lemma {:induction false} ReceiveAllMoves<S(!new), M(!new), E(!new)>(cfg: Config<S, M, E>, m: Machine<S, M, E>, t: nat)
    returns (n: nat)
    requires t < |m.threads| && m.threads[t].phase == Running && Receivable(m.threads[t])
    ensures Leads(cfg, m, With(m, t, ReceiveAll(cfg.app, m.threads[t])), n)
    decreases |m.threads[t].inbox.value.edges|
  {
    hide Initialised, Started, Received, SteppedOne, FinishedOne, CanSend, NextMachine;
    var th := m.threads[t];
    var end := With(m, t, ReceiveAll(cfg.app, th));
    if th.inbox.value.edges != [] {
      var next := Received(cfg.app, th);
      n := ReceiveAllMoves(cfg, With(m, t, next), t);
      assert With(With(m, t, next), t, ReceiveAll(cfg.app, next)) == end;
      OneMove(cfg, m, t, Recv, next, end, n);
    } else {
      n := 0;
      OneMove(cfg, m, t, Done, th.(inbox := None), end, 0);
    }
    n := n + 1;
  }

  ghost function Sending<S, M, E>(m: Machine<S, M, E>, t: nat, th: Thread<S, M, E>, sent: seq<Item<M, E>>): Machine<S, M, E>
    requires t < |m.threads|
  {
    Machine(m.threads[t := th], m.air + sent)
  }

  lemma {:induction false} FinishAllMoves<S(!new), M(!new), E(!new)>(cfg: Config<S, M, E>, m: Machine<S, M, E>, t: nat)
    returns (n: nat)
    requires t < |m.threads| && m.threads[t].phase.Finishing? && m.threads[t].phase.next <= |m.threads[t].slots|
    requires CanSend(m)
    ensures var r := FinishAll(cfg.app, m.threads[t]); Leads(cfg, m, Sending(m, t, r.0, r.1), n)
    decreases |m.threads[t].slots| - m.threads[t].phase.next
  {
    hide Farewell, NextMachine;
    var th := m.threads[t];
    var r := FinishAll(cfg.app, th);
    var end := Sending(m, t, r.0, r.1);
    if th.phase.next < |th.slots| {
      var next := FinishedOne(cfg.app, th);
      var mid := Sending(m, t, next, Farewell(cfg.app, th));
      n := FinishAllMoves(cfg, mid, t);
      var rest := FinishAll(cfg.app, next);
      assert mid.air + rest.1 == m.air + r.1;
      assert Sending(mid, t, rest.0, rest.1) == end;
      OneSend(cfg, m, t, Finish, mid, end, n);
    } else {
      n := 0;
      assert m.air + [] == m.air;
      OneSend(cfg, m, t, Stop, end, end, 0);
    }
    n := n + 1;
  }

  lemma OneSend<S(!new), M(!new), E(!new)>(cfg: Config<S, M, E>, m: Machine<S, M, E>, t: nat, a: Action,
                                           mid: Machine<S, M, E>, m': Machine<S, M, E>, n: nat)
    requires Moves(cfg, m, mid, t, a) && Leads(cfg, mid, m', n)
    ensures Leads(cfg, m, m', n + 1)
  {
    hide Moves;
    assert NextMachine(cfg, m, mid);
  }

  class PThread<S, M, E> {
    // The application with its tables, and this thread's id
    const cfg: Config<S, M, E>
    const me: nat
    // Array of device states
    const devices: array<Slot<S>>
    // Array of local ids of devices that are ready to send, accessed in a LIFO manner
    const senders: array<nat>
    var top: nat
    // Current out-going edges in multicast, and the payload in the send slot
    var outEdge: seq<Leg<E>>
    var payload: Option<M>
    // The message being received
    var inMsg: Option<Item<M, E>>
    // Has a step handler asked for another time step?
    var active: bool
    // Time steps so far
    var time: nat
    // What the thread is doing
    ghost var phase: Phase

    ghost function View(): Thread<S, M, E>
      requires top <= senders.Length
      reads this, devices, senders
    {
      Thread(devices[..], senders[..top], outEdge, payload, inMsg, active, time, phase)
    }

    // n devices have been initialised
    ghost predicate Valid(n: nat)
      reads this, devices, senders
    {
      && top <= senders.Length == devices.Length && n <= devices.Length
      && StackOk(View(), n)
    }

    constructor (cfg: Config<S, M, E>, me: nat, memory: array<Slot<S>>, senders: array<nat>)
      requires senders.Length == memory.Length
      ensures this.cfg == cfg && this.me == me && devices == memory && this.senders == senders
      ensures Valid(0) && View() == Thread(memory[..], [], [], None, None, true, 0, Starting(0))
    {
      this.cfg, this.me, devices, this.senders := cfg, me, memory, senders;
      top, outEdge, payload, inMsg, active, time, phase := 0, [], None, None, true, 0, Starting(0);
    }

    method SendersQueuePop() returns (id: nat)
      requires Valid(devices.Length) && top > 0
      modifies this`top, devices
      ensures id == old(View().senders[top - 1]) && id < devices.Length
      ensures top <= senders.Length && View() == old(Pop(View()))
    {
      top := top - 1;
      id := senders[top];
      assert id == old(View().senders[top - 1]);
      devices[id] := devices[id].(marked := false);
      assert View() == old(Pop(View()));
    }

    method SendersQueueAdd(id: nat)
      requires top <= senders.Length == devices.Length && id < devices.Length
      requires devices[id].marked || top < senders.Length
      modifies this`top, devices, senders
      ensures top <= senders.Length && View() == old(Add(View(), id))
    {
      if !devices[id].marked {
        senders[top] := id;
        top := top + 1;
        devices[id] := devices[id].(marked := true);
      }
    }

    // There is always room for a device that is not on the stack
    lemma Room(n: nat, id: nat)
      requires Valid(n) && id < devices.Length
      requires id == n || (id < n && !devices[id].marked)
      ensures top < senders.Length
    {
      if id < n {
        var th := View();
        assert id !in th.senders;
        DistinctFit(th.senders + [id], n);
      } else {
        DistinctFit(View().senders, n);
      }
    }

    // A handler of the device has returned
    method Handle(id: nat, dev: Dev<S>)
      requires Valid(devices.Length) && id < devices.Length
      modifies this`top, devices, senders
      ensures Valid(devices.Length) && View() == old(Handled(View(), id, dev))
    {
      HandledStack(View(), id, dev, devices.Length);
      ghost var th := View();
      if !devices[id].marked {
        Room(devices.Length, id);
      }
      devices[id] := devices[id].(dev := dev);
      assert View() == th.(slots := th.slots[id := th.slots[id].(dev := dev)]);
      if dev.rts != No {
        SendersQueueAdd(id);
      }
    }

    method Initialise()
      requires Valid(0) && top == 0 && phase == Starting(0)
      modifies this, devices, senders
      ensures Valid(devices.Length) && View() == old(InitAll(cfg.app, View()))
    {
      hide StackOk, Initialised;
      ghost var start := View();
      for i := 0 to devices.Length
        invariant Valid(i) && phase == Starting(i)
        invariant InitAll(cfg.app, View()) == InitAll(cfg.app, start)
      {
        InitialiseDevice(i);
      }
      ghost var th := View();
      phase := Running;
      assert View() == InitAll(cfg.app, th);
      SamePhaseStack(View(), th, devices.Length);
    }

    method InitialiseDevice(i: nat)
      requires Valid(i) && phase == Starting(i) && i < devices.Length
      modifies this`top, this`phase, devices, senders
      ensures Valid(i + 1) && phase == Starting(i + 1) && View() == old(Initialised(cfg.app, View()))
    {
      hide StackOk;
      ghost var th := View();
      InitialisedIs(cfg.app, th);
      Room(i, i);
      var dev := cfg.app.init(devices[i].dev);
      devices[i] := Slot(dev, false);
      phase := Starting(i + 1);
      assert View() == th.(phase := Starting(i + 1), slots := th.slots[i := Slot(dev, false)]);
      if dev.rts != No {
        SendersQueueAdd(i);
      }
      assert View() == Initialised(cfg.app, th);
    }

    // Step 1 of the event loop: try to send.  Returns the messages put into the
    // network, or the wish to call tinselIdle.
    method TrySend(canSend: bool) returns (sent: seq<Item<M, E>>, idle: bool)
      requires Valid(devices.Length) && (outEdge != [] ==> payload.Some?)
      modifies this, devices, senders
      ensures Valid(devices.Length)
      ensures idle <==> old(outEdge == [] && top == 0)
      ensures old(outEdge != []) && canSend ==>
        && View() == old(View().(legs := outEdge[1..]))
        && sent == old(Items(outEdge[0], payload.value, time))
      ensures old(outEdge == [] && top > 0) && canSend ==>
        View() == old(Started(cfg, me, View())) && sent == []
      ensures idle || !canSend ==> View() == old(View()) && sent == []
    {
      sent, idle := [], false;
      ghost var th := View();
      if outEdge != [] {
        if canSend {
          sent := Items(outEdge[0], payload.value, time);
          outEdge := outEdge[1..];
          SamePhaseStack(View(), th, devices.Length);
        }
      } else if top > 0 {
        if canSend {
          StartMulticast();
        }
      } else {
        idle := true;
      }
    }

    method StartMulticast()
      requires Valid(devices.Length) && outEdge == [] && top > 0
      modifies this, devices, senders
      ensures Valid(devices.Length) && View() == old(Started(cfg, me, View()))
    {
      hide StackOk, Handled, Add, Legs;
      ghost var th := View();
      TopSize(th, devices.Length);
      var pin := devices[senders[top - 1]].dev.rts;
      var r := cfg.app.send(devices[senders[top - 1]].dev, Clock(time));
      if pin == No {
        PopStack(th, devices.Length);
      } else {
        SendStack(th, r.0, devices.Length);
      }
      var src := SendersQueuePop();
      if pin != No {
        PopRoom(th, devices.Length);
        Reinsert(src, r.0);
        outEdge := Legs(cfg, me, src, pin);
        payload := Some(r.1);
        assert View() == Handled(Pop(th), src, r.0).(legs := Legs(cfg, me, src, pin), payload := Some(r.1));
        SamePhaseStack(View(), Handled(Pop(th), src, r.0), devices.Length);
      }
      assert View() == Started(cfg, me, th);
    }

    lemma PopRoom(th: Thread<S, M, E>, n: nat)
      requires th.senders != [] && th.senders[|th.senders| - 1] < |th.slots| && StackOk(th, n) && n == |th.slots|
      ensures |Pop(th).senders| < n
    {
      DistinctFit(th.senders, n);
    }

    method Reinsert(id: nat, dev: Dev<S>)
      requires top < senders.Length == devices.Length && id < devices.Length
      modifies this`top, devices, senders
      ensures top <= senders.Length && View() == old(Handled(View(), id, dev))
    {
      ghost var th := View();
      devices[id] := devices[id].(dev := dev);
      assert View() == th.(slots := th.slots[id := th.slots[id].(dev := dev)]);
      if dev.rts != No {
        SendersQueueAdd(id);
      }
    }

    method StepDevices()
      requires Valid(devices.Length) && phase == Stepping(0)
      modifies this, devices, senders
      ensures Valid(devices.Length) && View() == old(StepAll(cfg.app, View()))
    {
      hide StackOk, SteppedOne;
      ghost var start := View();
      for i := 0 to devices.Length
        invariant Valid(devices.Length) && phase == Stepping(i)
        invariant StepAll(cfg.app, View()) == StepAll(cfg.app, start)
      {
        StepDevice(i);
      }
      ghost var th := View();
      phase := Running;
      time := time + 1;
      assert View() == StepAll(cfg.app, th);
      SamePhaseStack(View(), th, devices.Length);
    }

    method StepDevice(i: nat)
      requires Valid(devices.Length) && phase == Stepping(i) && i < devices.Length
      modifies this`top, this`active, this`phase, devices, senders
      ensures Valid(devices.Length) && phase == Stepping(i + 1)
      ensures View() == old(SteppedOne(cfg.app, View()))
    {
      hide StackOk, Handled;
      ghost var th := View();
      var r := cfg.app.step(devices[i].dev, Clock(time));
      active := r.1 || active;
      phase := Stepping(i + 1);
      SamePhaseStack(View(), th, devices.Length);
      HandledIs(View(), i, r.0);
      Handle(i, r.0);
    }

    // Step 2 of the event loop: invoke the receive handler for every receiver
    // of the message, then free it
    method Receive()
      requires Valid(devices.Length) && Receivable(View())
      modifies this, devices, senders
      ensures Valid(devices.Length) && View() == old(ReceiveAll(cfg.app, View()))
    {
      hide StackOk, Handled;
      ghost var start := View();
      while inMsg.value.edges != []
        invariant Valid(devices.Length) && Receivable(View())
        invariant ReceiveAll(cfg.app, View()) == ReceiveAll(cfg.app, start)
        decreases |inMsg.value.edges|
      {
        ghost var th := View();
        var m := inMsg.value;
        var e := m.edges[0];
        inMsg := Some(m.(edges := m.edges[1..]));
        SamePhaseStack(View(), th, devices.Length);
        HandledIs(View(), e.devId, cfg.app.recv(devices[e.devId].dev, m.payload, e.edge, Clock(time)));
        // Insert device into the senders array, if not already there
        Handle(e.devId, cfg.app.recv(devices[e.devId].dev, m.payload, e.edge, Clock(time)));
        assert View() == Received(cfg.app, th);
      }
      ghost var th := View();
      inMsg := None;
      SamePhaseStack(View(), th, devices.Length);
    }

    // After the event loop: invoke the finish handler of each device, and send the
    // host what it has to say
    method FinishDevices() returns (sent: seq<Item<M, E>>)
      requires top <= senders.Length && phase == Finishing(0)
      modifies this`phase, devices
      ensures (View(), sent) == old(FinishAll(cfg.app, View()))
    {
      hide StackOk, FinishedOne, Farewell;
      sent := [];
      ghost var start := View();
      for i := 0 to devices.Length
        invariant phase == Finishing(i)
        invariant FinishAll(cfg.app, View()).0 == FinishAll(cfg.app, start).0
        invariant sent + FinishAll(cfg.app, View()).1 == FinishAll(cfg.app, start).1
      {
        ghost var th := View();
        ghost var before := sent;
        var more := FinishDevice(i);
        sent := sent + more;
        assert FinishAll(cfg.app, th).1 == more + FinishAll(cfg.app, View()).1;
        assert before + (more + FinishAll(cfg.app, View()).1) == sent + FinishAll(cfg.app, View()).1;
      }
      ghost var th := View();
      phase := Finished;
      assert View() == FinishAll(cfg.app, th).0 && sent + [] == sent;
    }

    method FinishDevice(i: nat) returns (sent: seq<Item<M, E>>)
      requires top <= senders.Length && phase == Finishing(i) && i < devices.Length
      modifies this`phase, devices
      ensures phase == Finishing(i + 1)
      ensures View() == old(FinishedOne(cfg.app, View())) && sent == old(Farewell(cfg.app, View()))
    {
      ghost var th := View();
      var r := cfg.app.finish(devices[i].dev, Clock(time));
      sent := if r.1.Says? then [HostItem(r.1.msg)] else [];
      devices[i] := devices[i].(dev := r.0);
      phase := Finishing(i + 1);
      assert View() == FinishedOne(cfg.app, th);
    }
  }
}
