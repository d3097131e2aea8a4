// Every step of the machine keeps the invariant, and is a sequence of steps of
// the application.
module Simulation {
  import opened Wrappers
  import opened InTables
  import opened Vertices
  import opened Softswitch
  import opened Refinement
  import opened Rounds

  // ---------------------------------------------------------------------
  // The sender stack

  // Another device is initialised
  lemma InitStack<S, M, E>(th: Thread<S, M, E>, id: nat, dev: Dev<S>)
    requires StackOk(th, id) && id < |th.slots|
    ensures StackOk(Handled(th.(slots := th.slots[id := th.slots[id].(marked := false)]), id, dev), id + 1)
  {
  }

  // A handler is called
  lemma HandledStack<S, M, E>(th: Thread<S, M, E>, id: nat, dev: Dev<S>, n: nat)
    requires StackOk(th, n) && id < n
    ensures StackOk(Handled(th, id, dev), n)
  {
    if dev.rts != No && !th.slots[id].marked {
      PushStack(th, id, dev, n);
    }
  }

  lemma PushStack<S, M, E>(th: Thread<S, M, E>, id: nat, dev: Dev<S>, n: nat)
    requires StackOk(th, n) && id < n && !th.slots[id].marked
    ensures StackOk(th.(senders := th.senders + [id], slots := th.slots[id := Slot(dev, true)]), n)
  {
    var slots := th.slots[id := Slot(dev, true)];
    assert id !in th.senders;
    forall i | 0 <= i < n && slots[i].marked ensures i in th.senders + [id] {
      assert i == id || th.slots[i].marked;
    }
  }

  lemma PopStack<S, M, E>(th: Thread<S, M, E>, n: nat)
    requires StackOk(th, n) && th.senders != []
    requires th.slots[th.senders[|th.senders| - 1]].dev.rts == No
    ensures StackOk(Pop(th), n)
  {
    var k := |th.senders| - 1;
    assert forall i | 0 <= i < |th.slots| && i != th.senders[k] :: i in th.senders ==> i in th.senders[..k];
  }

  // The send handler is called on the device just popped
  lemma SendStack<S, M, E>(th: Thread<S, M, E>, dev: Dev<S>, n: nat)
    requires StackOk(th, n) && th.senders != []
    ensures StackOk(Handled(Pop(th), th.senders[|th.senders| - 1], dev), n)
  {
    var k := |th.senders| - 1;
    var src := th.senders[k];
    var no := th.(slots := th.slots[src := th.slots[src].(dev := Dev(No, dev.s))]);
    QuietStack(th, src, dev.s, n);
    hide StackOk;
    PopStack(no, n);
    HandledStack(Pop(no), src, dev, n);
    assert Handled(Pop(no), src, dev).slots == Handled(Pop(th), src, dev).slots;
    SamePhaseStack(Handled(Pop(th), src, dev), Handled(Pop(no), src, dev), n);
  }

  lemma QuietStack<S, M, E>(th: Thread<S, M, E>, src: nat, s: S, n: nat)
    requires StackOk(th, n) && src < n
    ensures StackOk(th.(slots := th.slots[src := th.slots[src].(dev := Dev(No, s))]), n)
  {
  }

  // The stack fits in an array with one place for each device
  lemma {:induction false} StackFits<S, M, E>(th: Thread<S, M, E>, n: nat)
    requires StackOk(th, n)
    ensures |th.senders| <= n
  {
    DistinctFit(th.senders, n);
  }

  lemma {:induction false} DistinctFit(s: seq<nat>, n: nat)
    requires forall i | 0 <= i < |s| :: s[i] < n
    requires forall i, j | 0 <= i < j < |s| :: s[i] != s[j]
    ensures |s| <= n
    decreases n
  {
    if s == [] {
    } else if i :| 0 <= i < |s| && s[i] == n - 1 {
      DistinctFit(s[..i] + s[i + 1..], n - 1);
    } else {
      assert s[0] < n;
      DistinctFit(s, n - 1);
    }
  }

  // ---------------------------------------------------------------------
  // Changes to one thread

  ghost predicate OneThread<S, M, E>(cfg: Config<S, M, E>, m: Machine<S, M, E>, m': Machine<S, M, E>, t: nat) {
    && t < |m.threads| && |m'.threads| == |m.threads| && m'.threads == m.threads[t := m'.threads[t]]
    && Shape(cfg, m.threads) && |m'.threads[t].slots| == |m.threads[t].slots|
  }

  lemma KeepInv<S, M, E>(cfg: Config<S, M, E>, m: Machine<S, M, E>, m': Machine<S, M, E>, t: nat)
    requires Inv(cfg, m) && OneThread(cfg, m, m', t)
    requires ThreadOk(cfg.from, m'.threads[t], t, AbsTime(m.threads[0]))
    requires AirOk(cfg.from, m'.air, AbsTime(m.threads[0]))
    requires Over(m'.threads[t]) == Over(m.threads[t])
    ensures Inv(cfg, m')
  {
    hide ThreadOk, AirOk, PlaceOk, Over;
    assert AbsTime(m'.threads[t]) == AbsTime(m.threads[0]) by {
      ThreadTime(cfg.from, m'.threads[t], t, AbsTime(m.threads[0]));
    }
  }

  lemma ThreadTime<S, M, E>(from: seq<seq<nat>>, th: Thread<S, M, E>, t: nat, now: nat)
    requires ThreadOk(from, th, t, now)
    ensures AbsTime(th) == now
  {
  }

  // What the abstraction sees of a thread, apart from its messages
  ghost predicate SameButDevice<S, M, E>(app: App<S, M, E>, th: Thread<S, M, E>, th': Thread<S, M, E>, id: int) {
    && |th'.slots| == |th.slots|
    && AbsTime(th') == AbsTime(th) && AbsActive(app, th') == AbsActive(app, th) && Over(th') == Over(th)
    && forall i | 0 <= i < |th.slots| && i != id :: AbsDev(app, th', i) == AbsDev(app, th, i)
  }

  lemma SameWorld<S, M, E>(cfg: Config<S, M, E>, m: Machine<S, M, E>, m': Machine<S, M, E>, t: nat, id: nat)
    requires OneThread(cfg, m, m', t) && id < |m.threads[t].slots|
    requires SameButDevice(cfg.app, m.threads[t], m'.threads[t], id)
    ensures Shape(cfg, m'.threads)
    ensures var d := cfg.from[t][id];
      && d < |cfg.place| && cfg.place[d] == (t, id)
      && AbsDevs(cfg, m'.threads) == AbsDevs(cfg, m.threads)[d := AbsDev(cfg.app, m'.threads[t], id)]
      && Abs(cfg, m').time == Abs(cfg, m).time
      && Abs(cfg, m').active == Abs(cfg, m).active
      && Abs(cfg, m').done == Abs(cfg, m).done
  {
    hide AbsDev, AbsActive, Over, AbsTime, Asked;
    ActiveSame(cfg, m, m', t);
    OverSame(cfg, m, m', t);
    assert AbsTime(m'.threads[0]) == AbsTime(m.threads[0]);
  }

  lemma ActiveSame<S, M, E>(cfg: Config<S, M, E>, m: Machine<S, M, E>, m': Machine<S, M, E>, t: nat)
    requires OneThread(cfg, m, m', t) && AbsActive(cfg.app, m'.threads[t]) == AbsActive(cfg.app, m.threads[t])
    ensures (exists u :: 0 <= u < |m'.threads| && AbsActive(cfg.app, m'.threads[u]))
      <==> (exists u :: 0 <= u < |m.threads| && AbsActive(cfg.app, m.threads[u]))
  {
    hide AbsActive;
    if u :| 0 <= u < |m.threads| && AbsActive(cfg.app, m.threads[u]) {
      assert AbsActive(cfg.app, m'.threads[u]);
    }
    if u :| 0 <= u < |m.threads| && AbsActive(cfg.app, m'.threads[u]) {
      assert AbsActive(cfg.app, m.threads[u]);
    }
  }

  lemma OverSame<S, M, E>(cfg: Config<S, M, E>, m: Machine<S, M, E>, m': Machine<S, M, E>, t: nat)
    requires OneThread(cfg, m, m', t) && Over(m'.threads[t]) == Over(m.threads[t])
    ensures (exists u :: 0 <= u < |m'.threads| && Over(m'.threads[u]))
      <==> (exists u :: 0 <= u < |m.threads| && Over(m.threads[u]))
  {
    hide Over;
    if u :| 0 <= u < |m.threads| && Over(m.threads[u]) {
      assert Over(m'.threads[u]);
    }
    if u :| 0 <= u < |m.threads| && Over(m'.threads[u]) {
      assert Over(m.threads[u]);
    }
  }

  lemma SameAsked<S, M, E>(cfg: Config<S, M, E>, m: Machine<S, M, E>, m': Machine<S, M, E>, t: nat)
    requires OneThread(cfg, m, m', t) && Shape(cfg, m'.threads)
    requires forall i | 0 <= i < |m.threads[t].slots| :: Asked(m'.threads[t], i) == Asked(m.threads[t], i)
    ensures AbsAsked(cfg, m'.threads) == AbsAsked(cfg, m.threads)
  {
    hide Asked;
    forall d | 0 <= d < |cfg.place|
      ensures d in AbsAsked(cfg, m'.threads) <==> d in AbsAsked(cfg, m.threads)
    {
    }
  }

  // The messages of the world, after a change to one thread and to the network
  lemma WorldAir<S, M(!new), E(!new)>(cfg: Config<S, M, E>, m: Machine<S, M, E>, m': Machine<S, M, E>, t: nat,
                                      lost: multiset<Msg<M, E>>, gained: multiset<Msg<M, E>>)
    requires OneThread(cfg, m, m', t) && Shape(cfg, m'.threads)
    requires ItemsOut(cfg.from, m'.air) + ThreadOut(cfg.from, m'.threads[t]) + lost
          == ItemsOut(cfg.from, m.air) + ThreadOut(cfg.from, m.threads[t]) + gained
    ensures Abs(cfg, m').air + lost == Abs(cfg, m).air + gained
  {
    hide ItemsOut, ThreadsOut, ThreadOut;
    ThreadsUpdate(cfg.from, m.threads, t, m'.threads[t]);
    Balance(ItemsOut(cfg.from, m.air), ItemsOut(cfg.from, m'.air), ThreadsOut(cfg.from, m.threads),
            ThreadsOut(cfg.from, m'.threads), ThreadOut(cfg.from, m.threads[t]),
            ThreadOut(cfg.from, m'.threads[t]), lost, gained);
  }

  // A step that the application does not see
  ghost predicate Unseen<S, M, E>(cfg: Config<S, M, E>, m: Machine<S, M, E>, m': Machine<S, M, E>, t: nat) {
    && OneThread(cfg, m, m', t)
    && SameButDevice(cfg.app, m.threads[t], m'.threads[t], -1)
    && (forall i | 0 <= i < |m.threads[t].slots| :: Asked(m'.threads[t], i) == Asked(m.threads[t], i))
    && ItemsOut(cfg.from, m'.air) + ThreadOut(cfg.from, m'.threads[t])
       == ItemsOut(cfg.from, m.air) + ThreadOut(cfg.from, m.threads[t])
  }

  lemma Stutter<S, M(!new), E(!new)>(cfg: Config<S, M, E>, m: Machine<S, M, E>, m': Machine<S, M, E>, t: nat)
    requires Unseen(cfg, m, m', t)
    ensures Shape(cfg, m'.threads) && Abs(cfg, m') == Abs(cfg, m)
  {
    hide AbsDev, AbsActive, Over, AbsTime, Asked, ItemsOut, ThreadOut, ThreadsOut;
    ActiveSame(cfg, m, m', t);
    OverSame(cfg, m, m', t);
    SameAsked(cfg, m, m', t);
    WorldAir(cfg, m, m', t, multiset{}, multiset{});
    assert AbsTime(m'.threads[0]) == AbsTime(m.threads[0]);
    assert AbsDevs(cfg, m'.threads) == AbsDevs(cfg, m.threads);
    assert Abs(cfg, m').air == Abs(cfg, m).air + multiset{};
  }

  // ---------------------------------------------------------------------
  // Steps that the application does not see

  // What a thread has to satisfy after a step, for the invariant to hold
  ghost predicate StaysOk<S, M, E>(cfg: Config<S, M, E>, m: Machine<S, M, E>, m': Machine<S, M, E>, t: nat)
    requires t < |m'.threads| && m.threads != []
  {
    && ThreadOk(cfg.from, m'.threads[t], t, AbsTime(m.threads[0]))
    && AirOk(cfg.from, m'.air, AbsTime(m.threads[0]))
  }

  lemma InitUnseen<S, M, E>(cfg: Config<S, M, E>, m: Machine<S, M, E>, m': Machine<S, M, E>, t: nat)
    requires Inv(cfg, m) && Moves(cfg, m, m', t, Init)
    ensures Unseen(cfg, m, m', t) && StaysOk(cfg, m, m', t)
  {
    hide PlaceOk, StackOk, AirOk, ItemsOut, LegsOk, ItemOut, LegsOut, Handled;
    var th, th' := m.threads[t], m'.threads[t];
    assert ThreadOk(cfg.from, th, t, AbsTime(m.threads[0]));
    StackSize(th, th.phase.next);
    InitialisedIs(cfg.app, th);
    if th.phase.next >= |th.slots| {
      SamePhaseStack(th', th, |th.slots|);
    }
  }

  lemma InitialisedIs<S, M, E>(app: App<S, M, E>, th: Thread<S, M, E>)
    requires th.phase.Starting? && StackOk(th, th.phase.next)
    ensures th.phase.next < |th.slots| ==>
      var i := th.phase.next;
      var th' := Initialised(app, th);
      && StackOk(th', i + 1) && th' == th.(phase := Starting(i + 1), slots := th'.slots, senders := th'.senders)
      && |th'.slots| == |th.slots| && th'.slots[i].dev == app.init(th.slots[i].dev)
      && (forall j | 0 <= j < |th.slots| && j != i :: th'.slots[j] == th.slots[j])
  {
    hide StackOk, Handled;
    if th.phase.next < |th.slots| {
      var i := th.phase.next;
      var th0 := th.(phase := Starting(i + 1), slots := th.slots[i := th.slots[i].(marked := false)]);
      var dev := app.init(th.slots[i].dev);
      SamePhaseStack(th.(phase := Starting(i + 1)), th, i);
      InitStack(th.(phase := Starting(i + 1)), i, dev);
      HandledIs(th0, i, dev);
    }
  }

  lemma StackSize<S, M, E>(th: Thread<S, M, E>, n: nat)
    requires StackOk(th, n)
    ensures n <= |th.slots|
  {
  }

  lemma SamePhaseStack<S, M, E>(th: Thread<S, M, E>, th': Thread<S, M, E>, n: nat)
    requires th.slots == th'.slots && th.senders == th'.senders && StackOk(th', n)
    ensures StackOk(th, n)
  {
  }

  // The abstraction sees only the devices, the time and the votes of a thread
  // in its event loop
  lemma SameRunning<S, M, E>(app: App<S, M, E>, th: Thread<S, M, E>, th': Thread<S, M, E>)
    requires th.phase == th'.phase == Running && th'.slots == th.slots
    requires th'.active == th.active && th'.time == th.time
    ensures SameButDevice(app, th, th', -1)
    ensures forall i :: Asked(th', i) == Asked(th, i)
  {
  }

  lemma ItemsOk<M, E>(from: seq<seq<nat>>, air: seq<Item<M, E>>, leg: Leg<E>, payload: M, time: nat)
    requires AirOk(from, air, time) && LegOk(from, leg)
    ensures AirOk(from, air + Items(leg, payload, time), time)
  {
    hide TargetOk;
    var items := Items(leg, payload, time);
    forall i | 0 <= i < |air + items| ensures PacketOk(from, (air + items)[i], time) {
      if i >= |air| {
        assert (air + items)[i] == items[i - |air|];
      }
    }
  }

  lemma SendUnseen<S, M, E>(cfg: Config<S, M, E>, m: Machine<S, M, E>, m': Machine<S, M, E>, t: nat)
    requires Inv(cfg, m) && Moves(cfg, m, m', t, Send)
    ensures Unseen(cfg, m, m', t) && StaysOk(cfg, m, m', t)
  {
    hide PlaceOk, StackOk, ItemsOut, ThreadOut, AirOk, LegOk, Items, SameButDevice, CanSend;
    var th, th' := m.threads[t], m'.threads[t];
    assert ThreadOk(cfg.from, th, t, AbsTime(m.threads[0]));
    SamePhaseStack(th', th, |th.slots|);
    ItemsAppend(cfg.from, m.air, Items(th.legs[0], th.payload.value, th.time));
    ItemsTime(cfg.from, th.legs[0], th.payload.value, th.time);
    assert LegOk(cfg.from, th.legs[0]);
    ItemsOk(cfg.from, m.air, th.legs[0], th.payload.value, th.time);
    SendOut(cfg, m, m', t);
    SameRunning(cfg.app, th, th');
  }

  lemma SendOut<S, M, E>(cfg: Config<S, M, E>, m: Machine<S, M, E>, m': Machine<S, M, E>, t: nat)
    requires t < |m.threads| == |m'.threads| && m.threads[t].legs != [] && m.threads[t].payload.Some?
    requires m.threads[t].inbox.None? && m'.threads[t] == m.threads[t].(legs := m.threads[t].legs[1..])
    requires var th := m.threads[t];
      ItemsOut(cfg.from, m'.air)
        == ItemsOut(cfg.from, m.air) + ItemsOut(cfg.from, Items(th.legs[0], th.payload.value, 0))
    ensures ItemsOut(cfg.from, m'.air) + ThreadOut(cfg.from, m'.threads[t])
         == ItemsOut(cfg.from, m.air) + ThreadOut(cfg.from, m.threads[t])
  {
    hide ItemsOut;
    var th := m.threads[t];
    var a, b, c := ItemsOut(cfg.from, m.air), ItemsOut(cfg.from, Items(th.legs[0], th.payload.value, 0)),
      LegsOut(cfg.from, th.legs[1..], th.payload.value);
    assert ThreadOut(cfg.from, th) == b + c + multiset{} == b + c;
    assert ThreadOut(cfg.from, m'.threads[t]) == c + multiset{} == c;
    BagAssoc(a, b, c);
  }

  // Blocking on tinselIdle, and being woken by a message
  lemma IdleUnseen<S, M, E>(cfg: Config<S, M, E>, m: Machine<S, M, E>, m': Machine<S, M, E>, t: nat, a: Action)
    requires Inv(cfg, m) && Moves(cfg, m, m', t, a) && (a == Idle || a == Wake)
    ensures Unseen(cfg, m, m', t) && StaysOk(cfg, m, m', t)
  {
    hide PlaceOk, StackOk, AirOk;
    var th := m.threads[t];
    assert ThreadOk(cfg.from, th, t, AbsTime(m.threads[0]));
    SamePhaseStack(m'.threads[t], th, |th.slots|);
  }

  lemma TakeUnseen<S, M, E>(cfg: Config<S, M, E>, m: Machine<S, M, E>, m': Machine<S, M, E>, t: nat, i: nat)
    requires Inv(cfg, m) && Moves(cfg, m, m', t, Take(i))
    ensures Unseen(cfg, m, m', t) && StaysOk(cfg, m, m', t)
  {
    hide PlaceOk, StackOk, PacketOk, SameButDevice, ItemsOut, ThreadOut, LegsOk, AirOk;
    var th := m.threads[t];
    assert ThreadOk(cfg.from, th, t, AbsTime(m.threads[0]));
    SamePhaseStack(m'.threads[t], th, |th.slots|);
    AirRemove(cfg.from, m.air, i, AbsTime(m.threads[0]));
    TakeOut(cfg, m, m', t, i);
    SameRunning(cfg.app, th, m'.threads[t]);
  }

  lemma AirRemove<M, E>(from: seq<seq<nat>>, air: seq<Item<M, E>>, i: nat, time: nat)
    requires AirOk(from, air, time) && i < |air|
    ensures AirOk(from, air[..i] + air[i + 1..], time) && PacketOk(from, air[i], time)
  {
    hide PacketOk;
    var rest := air[..i] + air[i + 1..];
    forall j | 0 <= j < |rest| ensures PacketOk(from, rest[j], time) {
      assert rest[j] == if j < i then air[j] else air[j + 1];
    }
  }

  lemma TakeOut<S, M, E>(cfg: Config<S, M, E>, m: Machine<S, M, E>, m': Machine<S, M, E>, t: nat, i: nat)
    requires t < |m.threads| == |m'.threads| && m.threads[t].inbox.None? && i < |m.air|
    requires m'.threads[t] == m.threads[t].(inbox := Some(m.air[i])) && m'.air == m.air[..i] + m.air[i + 1..]
    ensures ItemsOut(cfg.from, m'.air) + ThreadOut(cfg.from, m'.threads[t])
         == ItemsOut(cfg.from, m.air) + ThreadOut(cfg.from, m.threads[t])
  {
    hide ItemsOut, ItemOut, LegsOut;
    ItemsRemove(cfg.from, m.air, i);
    var th := m.threads[t];
    var a, b := ItemsOut(cfg.from, m'.air), ItemOut(cfg.from, m.air[i]);
    var c := if th.payload.Some? then LegsOut(cfg.from, th.legs, th.payload.value) else multiset{};
    assert c + multiset{} == c;
    assert a + (c + b) == a + b + c;
  }

  lemma DoneUnseen<S, M, E>(cfg: Config<S, M, E>, m: Machine<S, M, E>, m': Machine<S, M, E>, t: nat)
    requires Inv(cfg, m) && Moves(cfg, m, m', t, Done)
    ensures Unseen(cfg, m, m', t) && StaysOk(cfg, m, m', t)
  {
    hide PlaceOk, StackOk, AirOk;
    var th := m.threads[t];
    assert ThreadOk(cfg.from, th, t, AbsTime(m.threads[0]));
    SamePhaseStack(m'.threads[t], th, |th.slots|);
  }

  // Returning from the call to tinselIdle
  lemma LeaveUnseen<S, M, E>(cfg: Config<S, M, E>, m: Machine<S, M, E>, m': Machine<S, M, E>, t: nat)
    requires Inv(cfg, m) && Moves(cfg, m, m', t, Leave)
    ensures Unseen(cfg, m, m', t) && StaysOk(cfg, m, m', t)
  {
    hide PlaceOk, StackOk, AirOk;
    var th := m.threads[t];
    assert ThreadOk(cfg.from, th, t, AbsTime(m.threads[0]));
    SamePhaseStack(m'.threads[t], th, |th.slots|);
    assert WillAsk(cfg.app, m'.threads[t], 0) == WillAsk(cfg.app, th, 0);
  }

  lemma StepUnseen<S, M, E>(cfg: Config<S, M, E>, m: Machine<S, M, E>, m': Machine<S, M, E>, t: nat)
    requires Inv(cfg, m) && Moves(cfg, m, m', t, Step)
    ensures Unseen(cfg, m, m', t) && StaysOk(cfg, m, m', t)
  {
    hide PlaceOk, StackOk, AirOk, WillAsk, ItemsOut, ThreadOut, LegsOk, Handled;
    var th, th', i := m.threads[t], m'.threads[t], m.threads[t].phase.next;
    assert ThreadOk(cfg.from, th, t, AbsTime(m.threads[0]));
    SteppedIs(cfg.app, th);
    SameThreadOut(cfg.from, th, th');
    WillAskNext(cfg.app, th, th', i);
  }

  lemma SteppedIs<S, M, E>(app: App<S, M, E>, th: Thread<S, M, E>)
    requires StackOk(th, |th.slots|) && th.phase.Stepping? && th.phase.next < |th.slots|
    requires forall j | 0 <= j < |th.senders| :: th.senders[j] < th.phase.next
    ensures var i := th.phase.next;
      var th' := SteppedOne(app, th);
      var r := app.step(th.slots[i].dev, Clock(th.time));
      && StackOk(th', |th.slots|) && |th'.slots| == |th.slots| && th'.slots[i].dev == r.0
      && th' == th.(slots := th'.slots, senders := th'.senders, phase := Stepping(i + 1), active := r.1 || th.active)
      && (forall j | 0 <= j < |th.slots| && j != i :: th'.slots[j] == th.slots[j])
      && (forall j | 0 <= j < |th'.senders| :: th'.senders[j] <= i)
  {
    var i := th.phase.next;
    var r := app.step(th.slots[i].dev, Clock(th.time));
    HandledStack(th, i, r.0, |th.slots|);
    SamePhaseStack(SteppedOne(app, th), Handled(th, i, r.0), |th.slots|);
  }

  lemma WillAskNext<S, M, E>(app: App<S, M, E>, th: Thread<S, M, E>, th': Thread<S, M, E>, k: nat)
    requires k < |th.slots| == |th'.slots| && th'.time == th.time
    requires forall i | k < i < |th.slots| :: th'.slots[i] == th.slots[i]
    ensures WillAsk(app, th, k) <==> (app.step(th.slots[k].dev, Clock(th.time)).1 || WillAsk(app, th', k + 1))
  {
    if i :| k <= i < |th.slots| && app.step(th.slots[i].dev, Clock(th.time)).1 {
      assert i == k || app.step(th'.slots[i].dev, Clock(th'.time)).1;
    }
    if i :| k + 1 <= i < |th.slots| && app.step(th'.slots[i].dev, Clock(th'.time)).1 {
      assert app.step(th.slots[i].dev, Clock(th.time)).1;
    }
  }

  // The step handlers, or the finish handlers, have all been called
  lemma ResumeUnseen<S, M, E>(cfg: Config<S, M, E>, m: Machine<S, M, E>, m': Machine<S, M, E>, t: nat, a: Action)
    requires Inv(cfg, m) && Moves(cfg, m, m', t, a) && (a == Resume || a == Stop)
    ensures Unseen(cfg, m, m', t) && StaysOk(cfg, m, m', t)
  {
    hide PlaceOk, StackOk, AirOk;
    var th := m.threads[t];
    assert ThreadOk(cfg.from, th, t, AbsTime(m.threads[0]));
    if a == Resume {
      SamePhaseStack(m'.threads[t], th, |th.slots|);
    }
  }

  // ---------------------------------------------------------------------
  // Steps that are steps of the application

  // What Handled changes
  lemma HandledIs<S, M, E>(th: Thread<S, M, E>, id: nat, dev: Dev<S>)
    requires id < |th.slots|
    ensures var th' := Handled(th, id, dev);
      && th' == th.(slots := th'.slots, senders := th'.senders)
      && |th'.slots| == |th.slots| && th'.slots[id].dev == dev
      && (forall j | 0 <= j < |th.slots| && j != id :: th'.slots[j] == th.slots[j])
  {
  }

  // A change to one device of a thread that is in its event loop
  ghost predicate OneDevice<S, M, E>(th: Thread<S, M, E>, th': Thread<S, M, E>, id: nat) {
    && th.phase == th'.phase == Running && th'.active == th.active && th'.time == th.time
    && |th'.slots| == |th.slots| && id < |th.slots|
    && (forall j | 0 <= j < |th.slots| && j != id :: th'.slots[j].dev == th.slots[j].dev)
  }

  lemma OneDeviceSame<S, M, E>(app: App<S, M, E>, th: Thread<S, M, E>, th': Thread<S, M, E>, id: nat)
    requires OneDevice(th, th', id)
    ensures SameButDevice(app, th, th', id) && AbsDev(app, th', id) == th'.slots[id].dev
    ensures forall i :: Asked(th', i) == Asked(th, i)
  {
  }

  // A running thread shows that the run is not over
  lemma NotOver<S, M, E>(cfg: Config<S, M, E>, m: Machine<S, M, E>, t: nat)
    requires Inv(cfg, m) && t < |m.threads| && !Over(m.threads[t])
    ensures !Abs(cfg, m).done
  {
    hide ThreadOk, AirOk, PlaceOk;
  }

  lemma AbsOf<S, M, E>(cfg: Config<S, M, E>, m: Machine<S, M, E>, t: nat, id: nat)
    requires Inv(cfg, m) && t < |m.threads| && id < |m.threads[t].slots|
    ensures var d := cfg.from[t][id];
      && d < |cfg.place| && cfg.place[d] == (t, id)
      && |Abs(cfg, m).devs| == |cfg.place|
      && Abs(cfg, m).devs[d] == AbsDev(cfg.app, m.threads[t], id)
      && Abs(cfg, m).time == AbsTime(m.threads[t])
      && (d in Abs(cfg, m).asked <==> Asked(m.threads[t], id))
  {
    hide AbsDev, Asked;
    assert ThreadOk(cfg.from, m.threads[t], t, AbsTime(m.threads[0]));
  }

  // The top of the stack is not ready any more: nothing happens
  lemma StartUnseen<S, M, E>(cfg: Config<S, M, E>, m: Machine<S, M, E>, m': Machine<S, M, E>, t: nat)
    requires Inv(cfg, m) && Moves(cfg, m, m', t, Start)
    requires var th := m.threads[t]; th.slots[th.senders[|th.senders| - 1]].dev.rts == No
    ensures Unseen(cfg, m, m', t) && StaysOk(cfg, m, m', t)
  {
    hide PlaceOk, StackOk, AirOk, SameButDevice, ItemsOut, ItemOut, LegsOut, LegsOk;
    var th, th' := m.threads[t], m'.threads[t];
    assert ThreadOk(cfg.from, th, t, AbsTime(m.threads[0]));
    PopStack(th, |th.slots|);
    SamePhaseStack(th', Pop(th), |th.slots|);
    var src := th.senders[|th.senders| - 1];
    OneDeviceSame(cfg.app, th, th', src);
    PoppedSame(cfg.app, th);
  }

  lemma PoppedSame<S, M, E>(app: App<S, M, E>, th: Thread<S, M, E>)
    requires th.phase == Running && th.senders != [] && th.senders[|th.senders| - 1] < |th.slots|
    ensures SameButDevice(app, th, Pop(th), -1)
  {
  }

  // The thread after a send handler has been called
  lemma StartedIs<S, M, E>(cfg: Config<S, M, E>, th: Thread<S, M, E>, t: nat)
    requires StackOk(th, |th.slots|) && th.senders != []
    requires th.slots[th.senders[|th.senders| - 1]].dev.rts != No
    ensures var src := th.senders[|th.senders| - 1];
      var r := cfg.app.send(th.slots[src].dev, Clock(th.time));
      var th' := Started(cfg, t, th);
      && StackOk(th', |th.slots|) && |th'.slots| == |th.slots| && th'.slots[src].dev == r.0
      && th' == th.(slots := th'.slots, senders := th'.senders,
                    legs := Legs(cfg, t, src, th.slots[src].dev.rts), payload := Some(r.1))
      && (forall j | 0 <= j < |th.slots| && j != src :: th'.slots[j].dev == th.slots[j].dev)
  {
    hide StackOk, Handled;
    var src := th.senders[|th.senders| - 1];
    TopSize(th, |th.slots|);
    var r := cfg.app.send(th.slots[src].dev, Clock(th.time));
    SendStack(th, r.0, |th.slots|);
    HandledIs(Pop(th), src, r.0);
    SamePhaseStack(Started(cfg, t, th), Handled(Pop(th), src, r.0), |th.slots|);
  }

  lemma TopSize<S, M, E>(th: Thread<S, M, E>, n: nat)
    requires StackOk(th, n) && th.senders != []
    ensures th.senders[|th.senders| - 1] < n <= |th.slots|
  {
  }

  // The legs of a pin are legs of the machine, and reach the edges of the pin
  lemma LegsReach<S, M(!new), E>(cfg: Config<S, M, E>, t: nat, id: nat, pin: Pin, payload: M)
    requires Compiled(cfg) && t < |cfg.from| && id < |cfg.from[t]|
    ensures cfg.from[t][id] < |cfg.graph| && LegsOk(cfg.from, Legs(cfg, t, id, pin))
    ensures LegsOut(cfg.from, Legs(cfg, t, id, pin), payload) == Emitted(cfg.graph[cfg.from[t][id]], pin, payload)
  {
    if pin == HostPin {
      assert Items<M, E>(HostLeg, payload, 0)[1..] == [];
      assert ItemsOut(cfg.from, Items<M, E>(HostLeg, payload, 0)) == multiset{ToHost(payload)} + multiset{};
      assert Legs(cfg, t, id, pin)[1..] == [];
    }
  }

  lemma StartSends<S(!new), M(!new), E(!new)>(cfg: Config<S, M, E>, m: Machine<S, M, E>, m': Machine<S, M, E>, t: nat)
    requires Compiled(cfg) && Inv(cfg, m) && Moves(cfg, m, m', t, Start)
    requires var th := m.threads[t]; th.slots[th.senders[|th.senders| - 1]].dev.rts != No
    ensures OneThread(cfg, m, m', t) && StaysOk(cfg, m, m', t) && Shape(cfg, m'.threads)
    ensures var src := m.threads[t].senders[|m.threads[t].senders| - 1];
      Sends(cfg.app, cfg.graph, Abs(cfg, m), Abs(cfg, m'), cfg.from[t][src])
  {
    hide PlaceOk, StackOk, AirOk, SameButDevice, ItemsOut, ItemOut, LegsOut, LegsOk, Started, Legs, Emitted,
         RoutesOk, AbsDevs, AbsAsked, CanSend, ThreadsOut;
    var th, th' := m.threads[t], m'.threads[t];
    assert ThreadOk(cfg.from, th, t, AbsTime(m.threads[0]));
    var src := th.senders[|th.senders| - 1];
    StartedIs(cfg, th, t);
    OneDeviceSame(cfg.app, th, th', src);
    LegsReach(cfg, t, src, th.slots[src].dev.rts, th'.payload.value);
    NotOver(cfg, m, t);
    AbsOf(cfg, m, t, src);
    SameWorld(cfg, m, m', t, src);
    SameAsked(cfg, m, m', t);
    StartOut(cfg, m, m', t);
  }

  lemma StartOut<S, M(!new), E(!new)>(cfg: Config<S, M, E>, m: Machine<S, M, E>, m': Machine<S, M, E>, t: nat)
    requires OneThread(cfg, m, m', t) && Shape(cfg, m'.threads) && m'.air == m.air
    requires m.threads[t].legs == [] && m.threads[t].inbox.None? && m'.threads[t].inbox.None?
    requires m'.threads[t].payload.Some?
    ensures Abs(cfg, m').air == Abs(cfg, m).air
      + LegsOut(cfg.from, m'.threads[t].legs, m'.threads[t].payload.value)
  {
    hide ItemsOut, ThreadsOut;
    var gained := LegsOut(cfg.from, m'.threads[t].legs, m'.threads[t].payload.value);
    assert ThreadOut(cfg.from, m.threads[t]) == multiset{};
    assert ThreadOut(cfg.from, m'.threads[t]) == gained + multiset{} == gained;
    WorldAir(cfg, m, m', t, multiset{}, gained);
    assert Abs(cfg, m').air + multiset{} == Abs(cfg, m').air;
  }

  lemma RecvReceives<S(!new), M(!new), E(!new)>(cfg: Config<S, M, E>, m: Machine<S, M, E>, m': Machine<S, M, E>, t: nat)
    requires Compiled(cfg) && Inv(cfg, m) && Moves(cfg, m, m', t, Recv)
    ensures OneThread(cfg, m, m', t) && StaysOk(cfg, m, m', t) && Shape(cfg, m'.threads)
    ensures var p := m.threads[t].inbox.value;
      Receives(cfg.app, Abs(cfg, m), Abs(cfg, m'),
               Deliver(cfg.from[t][p.edges[0].devId], p.edges[0].edge, p.payload))
  {
    hide PlaceOk, StackOk, AirOk, SameButDevice, ItemsOut, LegsOut, LegsOk, Handled,
         RoutesOk, AbsDevs, AbsAsked, ThreadsOut, ItemOut, ThreadOut;
    var th, th' := m.threads[t], m'.threads[t];
    assert ThreadOk(cfg.from, th, t, AbsTime(m.threads[0]));
    var p := th.inbox.value;
    var id := p.edges[0].devId;
    ReceivedIs(cfg.app, th);
    OneDeviceSame(cfg.app, th, th', id);
    NotOver(cfg, m, t);
    AbsOf(cfg, m, t, id);
    SameWorld(cfg, m, m', t, id);
    SameAsked(cfg, m, m', t);
    RecvOut(cfg, m, m', t);
  }

  lemma ReceivedIs<S, M, E>(app: App<S, M, E>, th: Thread<S, M, E>)
    requires StackOk(th, |th.slots|) && th.inbox.Some? && th.inbox.value.Packet? && th.inbox.value.edges != []
    requires th.inbox.value.edges[0].devId < |th.slots|
    ensures var p := th.inbox.value;
      var id := p.edges[0].devId;
      var th' := Received(app, th);
      && StackOk(th', |th.slots|) && |th'.slots| == |th.slots|
      && th'.slots[id].dev == app.recv(th.slots[id].dev, p.payload, p.edges[0].edge, Clock(th.time))
      && th' == th.(slots := th'.slots, senders := th'.senders, inbox := Some(p.(edges := p.edges[1..])))
      && (forall j | 0 <= j < |th.slots| && j != id :: th'.slots[j] == th.slots[j])
  {
    hide StackOk, Handled;
    var p := th.inbox.value;
    var id := p.edges[0].devId;
    var rest := th.(inbox := Some(p.(edges := p.edges[1..])));
    var dev := app.recv(th.slots[id].dev, p.payload, p.edges[0].edge, Clock(th.time));
    SamePhaseStack(rest, th, |th.slots|);
    HandledStack(rest, id, dev, |th.slots|);
    HandledIs(rest, id, dev);
  }

  lemma RecvOut<S, M(!new), E(!new)>(cfg: Config<S, M, E>, m: Machine<S, M, E>, m': Machine<S, M, E>, t: nat)
    requires OneThread(cfg, m, m', t) && Shape(cfg, m'.threads) && m'.air == m.air
    requires m.threads[t].inbox.Some? && m.threads[t].inbox.value.Packet? && m.threads[t].inbox.value.edges != []
    requires var p := m.threads[t].inbox.value;
      && m'.threads[t].inbox == Some(p.(edges := p.edges[1..]))
      && m'.threads[t].legs == m.threads[t].legs && m'.threads[t].payload == m.threads[t].payload
      && p.thread == t && p.edges[0].devId < |cfg.from[t]|
    ensures var p := m.threads[t].inbox.value;
      var msg := Deliver(cfg.from[t][p.edges[0].devId], p.edges[0].edge, p.payload);
      msg in Abs(cfg, m).air && Abs(cfg, m').air == Abs(cfg, m).air - multiset{msg}
  {
    hide ItemsOut, ThreadsOut, LegsOut;
    var p := m.threads[t].inbox.value;
    var msg := Deliver(cfg.from[t][p.edges[0].devId], p.edges[0].edge, p.payload);
    var th := m.threads[t];
    var a, b := ItemsOut(cfg.from, m.air), EdgesOut(cfg.from, t, p.edges[1..], p.payload);
    var c := if th.payload.Some? then LegsOut(cfg.from, th.legs, th.payload.value) else multiset{};
    assert ThreadOut(cfg.from, th) == c + (multiset{msg} + b);
    assert ThreadOut(cfg.from, m'.threads[t]) == c + b;
    assert a + (c + b) + multiset{msg} == a + (c + (multiset{msg} + b)) + multiset{};
    WorldAir(cfg, m, m', t, multiset{msg}, multiset{});
    TakeOne(Abs(cfg, m').air, Abs(cfg, m).air, msg);
  }

  lemma TakeOne<T>(a: multiset<T>, b: multiset<T>, x: T)
    requires a + multiset{x} == b + multiset{}
    ensures x in b && a == b - multiset{x}
  {
    assert b + multiset{} == b && x in a + multiset{x};
    assert a + multiset{x} - multiset{x} == a;
  }

  lemma FinishReplies<S(!new), M(!new), E(!new)>(cfg: Config<S, M, E>, m: Machine<S, M, E>, m': Machine<S, M, E>, t: nat)
    requires Compiled(cfg) && Inv(cfg, m) && Moves(cfg, m, m', t, Finish)
    ensures OneThread(cfg, m, m', t) && StaysOk(cfg, m, m', t) && Shape(cfg, m'.threads)
    ensures Replies(cfg.app, Abs(cfg, m), Abs(cfg, m'), cfg.from[t][m.threads[t].phase.next])
  {
    hide PlaceOk, AirOk, ItemsOut, LegsOut, LegsOk, RoutesOk, AbsDevs, AbsAsked, ThreadsOut, ItemOut, CanSend,
         StackOk, ReplyOf;
    var th, th' := m.threads[t], m'.threads[t];
    assert ThreadOk(cfg.from, th, t, AbsTime(m.threads[0]));
    var id := th.phase.next;
    assert SameButDevice(cfg.app, th, th', id);
    AbsOf(cfg, m, t, id);
    SameWorld(cfg, m, m', t, id);
    AskedMore(cfg, m, m', t, id);
    FinishOut(cfg, m, m', t, cfg.app.finish(th.slots[id].dev, Clock(th.time)).1);
    assert AirOk(cfg.from, m'.air, th.time) by { FinishAir(cfg, m, m', t); }
    assert Over(th);
  }

  lemma FinishAir<S, M, E>(cfg: Config<S, M, E>, m: Machine<S, M, E>, m': Machine<S, M, E>, t: nat)
    requires Inv(cfg, m) && Moves(cfg, m, m', t, Finish)
    ensures AirOk(cfg.from, m'.air, AbsTime(m.threads[0]))
  {
    hide ThreadOk, PlaceOk;
    var more := Farewell(cfg.app, m.threads[t]);
    forall i | 0 <= i < |m'.air| ensures PacketOk(cfg.from, m'.air[i], AbsTime(m.threads[0])) {
      if i >= |m.air| {
        assert m'.air[i] == more[i - |m.air|];
      }
    }
  }

  lemma FinishOut<S, M(!new), E(!new)>(cfg: Config<S, M, E>, m: Machine<S, M, E>, m': Machine<S, M, E>, t: nat,
                                       reply: Reply<M>)
    requires OneThread(cfg, m, m', t) && Shape(cfg, m'.threads) && Moves(cfg, m, m', t, Finish)
    requires reply == cfg.app.finish(m.threads[t].slots[m.threads[t].phase.next].dev, Clock(m.threads[t].time)).1
    ensures Abs(cfg, m').air == Abs(cfg, m).air + ReplyOf(reply)
  {
    hide ThreadsOut;
    var th := m.threads[t];
    var gained: multiset<Msg<M, E>> := ReplyOf(reply);
    var more := Farewell(cfg.app, th);
    FarewellOut(cfg.from, cfg.app, th);
    ItemsAppend(cfg.from, m.air, more);
    hide ItemsOut, ThreadOut, ReplyOf;
    SameThreadOut(cfg.from, th, m'.threads[t]);
    Commute(ItemsOut(cfg.from, m.air), gained, ThreadOut(cfg.from, th));
    assert ItemsOut(cfg.from, m'.air) + ThreadOut(cfg.from, m'.threads[t]) + multiset{}
        == ItemsOut(cfg.from, m.air) + ThreadOut(cfg.from, th) + gained;
    WorldAir(cfg, m, m', t, multiset{}, gained);
    assert Abs(cfg, m').air + multiset{} == Abs(cfg, m').air;
  }

  lemma SameThreadOut<S, M, E>(from: seq<seq<nat>>, th: Thread<S, M, E>, th': Thread<S, M, E>)
    requires th'.legs == th.legs && th'.payload == th.payload && th'.inbox == th.inbox
    ensures ThreadOut(from, th') == ThreadOut(from, th)
  {
  }

  lemma FarewellOut<S, M, E>(from: seq<seq<nat>>, app: App<S, M, E>, th: Thread<S, M, E>)
    requires th.phase.Finishing? && th.phase.next < |th.slots|
    ensures ItemsOut(from, Farewell(app, th))
         == ReplyOf<M, E>(app.finish(th.slots[th.phase.next].dev, Clock(th.time)).1)
  {
    var more := Farewell(app, th);
    if more != [] {
      assert more[1..] == [];
      assert ItemsOut(from, more) == ItemOut(from, more[0]) + multiset{};
    }
  }

  lemma AskedMore<S, M, E>(cfg: Config<S, M, E>, m: Machine<S, M, E>, m': Machine<S, M, E>, t: nat, id: nat)
    requires OneThread(cfg, m, m', t) && Shape(cfg, m'.threads) && id < |m.threads[t].slots|
    requires m.threads[t].phase == Finishing(id) && m'.threads[t].phase == Finishing(id + 1)
    ensures AbsAsked(cfg, m'.threads) == AbsAsked(cfg, m.threads) + {cfg.from[t][id]}
  {
    var d' := cfg.from[t][id];
    forall d | 0 <= d < |cfg.place|
      ensures d in AbsAsked(cfg, m'.threads) <==> d in AbsAsked(cfg, m.threads) || d == d'
    {
      var at := cfg.place[d];
      if at.0 == t {
        assert at.1 == id <==> d == d';
      }
    }
  }

  // ---------------------------------------------------------------------
  // Idle detection is the end of a time step

  lemma WaitingQuiet<S, M, E>(th: Thread<S, M, E>, from: seq<seq<nat>>, t: nat, now: nat)
    requires ThreadOk(from, th, t, now) && th.phase == Waiting
    ensures forall i | 0 <= i < |th.slots| :: th.slots[i].dev.rts == No
    ensures ThreadOut(from, th) == multiset{}
  {
    forall i | 0 <= i < |th.slots| ensures th.slots[i].dev.rts == No {
      assert i !in th.senders;
    }
  }

  lemma {:induction false} NothingOut<S, M, E>(from: seq<seq<nat>>, ths: seq<Thread<S, M, E>>)
    requires forall t | 0 <= t < |ths| :: ThreadOut(from, ths[t]) == multiset{}
    ensures ThreadsOut(from, ths) == multiset{}
    decreases |ths|
  {
    hide ThreadOut;
    if ths != [] {
      NothingOut(from, ths[..|ths| - 1]);
    }
  }

  lemma {:induction false} OnlyHost<M, E>(from: seq<seq<nat>>, items: seq<Item<M, E>>)
    requires forall i | 0 <= i < |items| :: items[i].HostItem?
    ensures forall x | x in ItemsOut(from, items) :: x.ToHost?
    decreases |items|
  {
    if items != [] {
      OnlyHost(from, items[1..]);
    }
  }

  // When idleness is detected, no device in the graph wants to send and no
  // message is undelivered
  lemma DetectQuiet<S, M, E>(cfg: Config<S, M, E>, m: Machine<S, M, E>, m': Machine<S, M, E>, last: bool)
    requires Inv(cfg, m) && Detects(m, m', last)
    ensures Quiet(Abs(cfg, m)) && !Abs(cfg, m).done && ThreadsOut(cfg.from, m.threads) == multiset{}
  {
    hide ThreadOk, AirOk, ItemsOut, ThreadOut, ThreadsOut, PlaceOk;
    forall t | 0 <= t < |m.threads|
      ensures ThreadOut(cfg.from, m.threads[t]) == multiset{}
      ensures forall i | 0 <= i < |m.threads[t].slots| :: m.threads[t].slots[i].dev.rts == No
    {
      WaitingQuiet(m.threads[t], cfg.from, t, AbsTime(m.threads[0]));
    }
    NothingOut(cfg.from, m.threads);
    OnlyHost(cfg.from, m.air);
    QuietDevs(cfg, m);
  }

  lemma QuietDevs<S, M, E>(cfg: Config<S, M, E>, m: Machine<S, M, E>)
    requires Shape(cfg, m.threads) && forall t | 0 <= t < |m.threads| :: m.threads[t].phase == Waiting
    requires forall t | 0 <= t < |m.threads| ::
      forall i | 0 <= i < |m.threads[t].slots| :: m.threads[t].slots[i].dev.rts == No
    ensures forall d | 0 <= d < |cfg.place| :: Abs(cfg, m).devs[d].rts == No
  {
    forall d | 0 <= d < |cfg.place| ensures Abs(cfg, m).devs[d].rts == No {
      assert m.threads[cfg.place[d].0].phase == Waiting;
    }
  }

  lemma DetectThread<S, M, E>(from: seq<seq<nat>>, th: Thread<S, M, E>, t: nat, now: nat, last: bool)
    requires ThreadOk(from, th, t, now) && th.phase == Waiting
    ensures ThreadOk(from, th.(phase := Leaving(last)), t, now + if last then 0 else 1)
  {
    hide StackOk, LegsOk;
    SamePhaseStack(th.(phase := Leaving(last)), th, |th.slots|);
  }

  lemma {:induction false} DetectKeeps<S, M, E>(cfg: Config<S, M, E>, m: Machine<S, M, E>, m': Machine<S, M, E>, last: bool)
    requires Inv(cfg, m) && Detects(m, m', last)
    ensures Inv(cfg, m')
  {
    hide PlaceOk, ThreadOk;
    var now := AbsTime(m.threads[0]);
    forall t | 0 <= t < |m.threads| ensures ThreadOk(cfg.from, m'.threads[t], t, now + if last then 0 else 1) {
      DetectThread(cfg.from, m.threads[t], t, now, last);
    }
    assert AbsTime(m'.threads[0]) == now + if last then 0 else 1;
    assert forall t | 0 <= t < |m.threads| :: Over(m'.threads[t]) <==> last;
  }

  lemma DetectWorld<S, M, E>(cfg: Config<S, M, E>, m: Machine<S, M, E>, m': Machine<S, M, E>, last: bool)
    requires Inv(cfg, m) && Detects(m, m', last) && ThreadsOut(cfg.from, m.threads) == multiset{}
    requires ThreadsOut(cfg.from, m'.threads) == multiset{} && Inv(cfg, m')
    ensures Abs(cfg, m').air == Abs(cfg, m).air && Abs(cfg, m').asked == Abs(cfg, m).asked
    ensures Abs(cfg, m').done == last && Abs(cfg, m).active == !last
    ensures Abs(cfg, m').time == Abs(cfg, m).time + if last then 0 else 1
  {
    hide ThreadOk, AirOk, ItemsOut, ThreadOut, ThreadsOut;
    assert forall t | 0 <= t < |m.threads| :: Over(m'.threads[t]) <==> last;
    assert Over(m'.threads[0]) <==> last;
    assert AbsAsked(cfg, m'.threads) == {} == AbsAsked(cfg, m.threads) by {
      forall d | 0 <= d < |cfg.place| ensures d !in AbsAsked(cfg, m'.threads) && d !in AbsAsked(cfg, m.threads) {
        var t := cfg.place[d].0;
        assert m.threads[t].phase == Waiting && m'.threads[t].phase.Leaving?;
      }
    }
    forall t | 0 <= t < |m.threads|
      ensures AbsActive(cfg.app, m.threads[t]) <==> m.threads[t].active
    {
    }
  }

  lemma DetectDevs<S, M, E>(cfg: Config<S, M, E>, m: Machine<S, M, E>, m': Machine<S, M, E>, last: bool)
    requires Inv(cfg, m) && Detects(m, m', last)
    requires Inv(cfg, m')
    ensures last ==> Abs(cfg, m').devs == Abs(cfg, m).devs && !Abs(cfg, m').active
    ensures !last ==> Abs(cfg, m').devs == Stepped(cfg.app, Abs(cfg, m)).devs
  {
    hide AirOk, ItemsOut, ThreadOut, ThreadsOut, StackOk;
    forall d | 0 <= d < |cfg.place|
      ensures var dev := Abs(cfg, m).devs[d];
        Abs(cfg, m').devs[d] == if last then dev else cfg.app.step(dev, Clock(Abs(cfg, m).time)).0
    {
      var t := cfg.place[d].0;
      assert m.threads[t].phase == Waiting && m'.threads[t].phase.Leaving?;
      assert ThreadOk(cfg.from, m.threads[t], t, AbsTime(m.threads[0]));
    }
    if last {
      forall t | 0 <= t < |m.threads| ensures !AbsActive(cfg.app, m'.threads[t]) {
      }
      assert Abs(cfg, m').devs == Abs(cfg, m).devs;
    } else {
      assert Abs(cfg, m').devs == Stepped(cfg.app, Abs(cfg, m)).devs;
    }
  }

  lemma DetectActive<S, M, E>(cfg: Config<S, M, E>, m: Machine<S, M, E>, m': Machine<S, M, E>)
    requires Inv(cfg, m) && Detects(m, m', false) && Inv(cfg, m')
    ensures Abs(cfg, m').active == Stepped(cfg.app, Abs(cfg, m)).active
  {
    hide AirOk, ItemsOut, ThreadOut, ThreadsOut, StackOk;
    var w := Abs(cfg, m);
    forall t | 0 <= t < |m.threads| ensures m.threads[t].time == w.time && m'.threads[t].time == w.time {
      assert ThreadOk(cfg.from, m.threads[t], t, AbsTime(m.threads[0]));
    }
    if t :| 0 <= t < |m.threads| && AbsActive(cfg.app, m'.threads[t]) {
      var i :| 0 <= i < |m'.threads[t].slots| && cfg.app.step(m'.threads[t].slots[i].dev, Clock(m'.threads[t].time)).1;
      AbsOf(cfg, m, t, i);
      assert cfg.app.step(w.devs[cfg.from[t][i]], Clock(w.time)).1;
    }
    if d :| 0 <= d < |w.devs| && cfg.app.step(w.devs[d], Clock(w.time)).1 {
      var t := cfg.place[d].0;
      assert m.threads[t].phase == Waiting;
      assert cfg.app.step(m'.threads[t].slots[cfg.place[d].1].dev, Clock(m'.threads[t].time)).1;
      assert AbsActive(cfg.app, m'.threads[t]);
    }
  }

  // Idleness is detected exactly when the application takes a global step, or
  // ends because no device asked for another one
  lemma DetectSteps<S, M, E>(cfg: Config<S, M, E>, m: Machine<S, M, E>, m': Machine<S, M, E>, last: bool)
    requires Inv(cfg, m) && Detects(m, m', last)
    ensures Inv(cfg, m')
    ensures if last then Ends(Abs(cfg, m), Abs(cfg, m')) else Steps(cfg.app, Abs(cfg, m), Abs(cfg, m'))
  {
    hide ThreadOk, AirOk, ItemsOut, ThreadOut, ThreadsOut, PlaceOk, Over, AbsActive, AbsTime, AbsDevs, AbsAsked, Quiet;
    DetectQuiet(cfg, m, m', last);
    DetectKeeps(cfg, m, m', last);
    forall t | 0 <= t < |m.threads| ensures ThreadOut(cfg.from, m'.threads[t]) == multiset{} {
      WaitingQuiet(m.threads[t], cfg.from, t, AbsTime(m.threads[0]));
      SameThreadOut(cfg.from, m.threads[t], m'.threads[t]);
    }
    NothingOut(cfg.from, m'.threads);
    DetectWorld(cfg, m, m', last);
    DetectDevs(cfg, m, m', last);
    if !last {
      DetectActive(cfg, m, m');
    }
  }

  // ---------------------------------------------------------------------
  // Whole runs

  ghost predicate StartsAs<S, M, E>(cfg: Config<S, M, E>, m: Machine<S, M, E>) {
    && |m.threads| == |cfg.from| && m.air == []
    && forall t | 0 <= t < |m.threads| ::
         var th := m.threads[t];
         && |th.slots| == |cfg.from[t]|
         && (forall i | 0 <= i < |th.slots| :: cfg.from[t][i] < |cfg.memory| && th.slots[i].dev == cfg.memory[cfg.from[t][i]])
         && th.senders == [] && th.legs == [] && th.payload == None && th.inbox == None
         && th.active && th.time == 0 && th.phase == Starting(0)
  }

  // Every thread step keeps the invariant, and is unseen by the application or
  // is one of its steps
  lemma MoveSimulated<S(!new), M(!new), E(!new)>(cfg: Config<S, M, E>, m: Machine<S, M, E>, m': Machine<S, M, E>,
                                                 t: nat, a: Action)
    requires Compiled(cfg) && Inv(cfg, m) && Moves(cfg, m, m', t, a)
    ensures Inv(cfg, m')
    ensures Abs(cfg, m') == Abs(cfg, m) || Next(cfg.app, cfg.graph, Abs(cfg, m), Abs(cfg, m'))
  {
    hide Acts, ThreadOk, AirOk, PlaceOk, Over, AbsTime, Abs, SameButDevice, RoutesOk, Sends, Receives, Replies,
         Steps, Ends, ItemsOut, ThreadOut, Asked, SameButDevice;
    if a == Start && TopReady(m, t) {
      StartIs(cfg, m, m', t);
      StartSends(cfg, m, m', t);
      assert Next(cfg.app, cfg.graph, Abs(cfg, m), Abs(cfg, m'));
    } else if a == Recv {
      RecvIs(cfg, m, m', t);
      RecvReceives(cfg, m, m', t);
      var p := m.threads[t].inbox.value;
      NextByReceive(cfg.app, cfg.graph, Abs(cfg, m), Abs(cfg, m'),
                    Deliver(cfg.from[t][p.edges[0].devId], p.edges[0].edge, p.payload));
    } else if a == Finish {
      FinishReplies(cfg, m, m', t);
      FinishIs(cfg, m, m', t);
      NextByReply(cfg.app, cfg.graph, Abs(cfg, m), Abs(cfg, m'), cfg.from[t][m.threads[t].phase.next]);
    } else {
      MoveUnseen(cfg, m, m', t, a);
      Stutter(cfg, m, m', t);
    }
    MoveOver(cfg, m, m', t, a, t);
    KeepInv(cfg, m, m', t);
  }

  ghost predicate TopReady<S, M, E>(m: Machine<S, M, E>, t: nat) {
    && t < |m.threads| && m.threads[t].senders != []
    && var top := m.threads[t].senders[|m.threads[t].senders| - 1];
       top < |m.threads[t].slots| && m.threads[t].slots[top].dev.rts != No
  }

  lemma StartIs<S, M, E>(cfg: Config<S, M, E>, m: Machine<S, M, E>, m': Machine<S, M, E>, t: nat)
    requires Moves(cfg, m, m', t, Start)
    ensures m.threads[t].senders != []
    ensures m.threads[t].senders[|m.threads[t].senders| - 1] < |m.threads[t].slots|
  {
  }

  lemma RecvIs<S, M, E>(cfg: Config<S, M, E>, m: Machine<S, M, E>, m': Machine<S, M, E>, t: nat)
    requires Inv(cfg, m) && Moves(cfg, m, m', t, Recv)
    ensures m.threads[t].inbox.Some? && m.threads[t].inbox.value.Packet? && m.threads[t].inbox.value.edges != []
    ensures m.threads[t].inbox.value.edges[0].devId < |cfg.from[t]|
  {
  }

  lemma FinishIs<S, M, E>(cfg: Config<S, M, E>, m: Machine<S, M, E>, m': Machine<S, M, E>, t: nat)
    requires Inv(cfg, m) && Moves(cfg, m, m', t, Finish)
    ensures m.threads[t].phase.Finishing? && m.threads[t].phase.next < |cfg.from[t]|
  {
  }

  lemma MoveUnseen<S, M, E>(cfg: Config<S, M, E>, m: Machine<S, M, E>, m': Machine<S, M, E>, t: nat, a: Action)
    requires Inv(cfg, m) && Moves(cfg, m, m', t, a)
    requires a != Recv && a != Finish && !(a == Start && TopReady(m, t))
    ensures Unseen(cfg, m, m', t) && StaysOk(cfg, m, m', t)
  {
    hide Acts, Unseen, StaysOk, Inv;
    match a {
      case Init => InitUnseen(cfg, m, m', t);
      case Start => StartIs(cfg, m, m', t); StartUnseen(cfg, m, m', t);
      case Send => SendUnseen(cfg, m, m', t);
      case Idle => IdleUnseen(cfg, m, m', t, a);
      case Wake => IdleUnseen(cfg, m, m', t, a);
      case Take(i) => TakeUnseen(cfg, m, m', t, i);
      case Done => DoneUnseen(cfg, m, m', t);
      case Leave => LeaveUnseen(cfg, m, m', t);
      case Step => StepUnseen(cfg, m, m', t);
      case Resume => ResumeUnseen(cfg, m, m', t, a);
      case Stop => ResumeUnseen(cfg, m, m', t, a);
    }
  }

  // A run of the machine, state by state
  ghost predicate Run<S(!new), M(!new), E(!new)>(cfg: Config<S, M, E>, run: seq<Machine<S, M, E>>) {
    && run != [] && StartsAs(cfg, run[0])
    && forall i | 0 <= i < |run| - 1 :: NextMachine(cfg, run[i], run[i + 1])
  }

  lemma StartsBegin<S, M(!new), E>(cfg: Config<S, M, E>, m: Machine<S, M, E>)
    requires Compiled(cfg) && StartsAs(cfg, m)
    ensures Inv(cfg, m) && Abs(cfg, m) == Begin(cfg.app, cfg.memory)
  {
    hide RoutesOk;
    forall t | 0 <= t < |m.threads| ensures ThreadOut(cfg.from, m.threads[t]) == multiset{} {
    }
    NothingOut(cfg.from, m.threads);
    assert AbsActive(cfg.app, m.threads[0]);
    assert AbsAsked(cfg, m.threads) == {};
    assert AbsDevs(cfg, m.threads) == Begin(cfg.app, cfg.memory).devs by {
      forall d | 0 <= d < |cfg.place| ensures AbsDevs(cfg, m.threads)[d] == cfg.app.init(cfg.memory[d]) {
        assert m.threads[cfg.place[d].0].phase == Starting(0);
      }
    }
  }

  // Whatever the interleaving of the threads, every state of a run of the
  // machine stands for a reachable state of the application
  lemma {:induction false} RunsRefine<S(!new), M(!new), E(!new)>(cfg: Config<S, M, E>, run: seq<Machine<S, M, E>>, i: nat)
    requires Compiled(cfg) && Run(cfg, run) && i < |run|
    ensures Inv(cfg, run[i]) && Reachable(cfg.app, cfg.graph, cfg.memory, Abs(cfg, run[i]))
    decreases i
  {
    hide ThreadOk, AirOk, PlaceOk, Abs, Moves, Detects, Steps, Ends, Reachable, StartsAs, Compiled;
    if i == 0 {
      StartsBegin(cfg, run[0]);
      ReachBegin(cfg.app, cfg.graph, cfg.memory);
    } else {
      RunsRefine(cfg, run, i - 1);
      var m, m' := run[i - 1], run[i];
      assert NextMachine(cfg, m, m');
      if last :| Detects(m, m', last) {
        DetectSteps(cfg, m, m', last);
        ReachNext(cfg.app, cfg.graph, cfg.memory, Abs(cfg, m), Abs(cfg, m'));
      } else {
        var t, a :| Moves(cfg, m, m', t, a);
        MoveSimulated(cfg, m, m', t, a);
        if Abs(cfg, m') != Abs(cfg, m) {
          ReachNext(cfg.app, cfg.graph, cfg.memory, Abs(cfg, m), Abs(cfg, m'));
        }
      }
    }
  }

  // ---------------------------------------------------------------------
  // What this means for the threads

  // In every state that can be reached, whatever the interleaving: the sender
  // stack of a thread holds no device twice, holds exactly the devices marked
  // as being there, misses no device that is ready to send, and fits in its
  // array of one place for each device
  lemma SendersSafe<S(!new), M(!new), E(!new)>(cfg: Config<S, M, E>, run: seq<Machine<S, M, E>>, n: nat, t: nat)
    requires Compiled(cfg) && Run(cfg, run) && n < |run| && t < |run[n].threads|
    ensures var th := run[n].threads[t];
      !th.phase.Starting? && !Over(th) ==>
        && |th.senders| <= |th.slots|
        && (forall i, j | 0 <= i < j < |th.senders| :: th.senders[i] != th.senders[j])
        && (forall id | 0 <= id < |th.slots| :: th.slots[id].marked <==> id in th.senders)
        && (forall id | 0 <= id < |th.slots| :: th.slots[id].dev.rts != No ==> id in th.senders)
  {
    hide Compiled, Run, AirOk, Abs;
    RunsRefine(cfg, run, n);
    var th := run[n].threads[t];
    assert ThreadOk(cfg.from, th, t, AbsTime(run[n].threads[0]));
    if !th.phase.Starting? && !Over(th) {
      StackFits(th, |th.slots|);
    }
  }

  // While some threads are calling their step handlers, every device whose step
  // handler has not been called yet does not want to send
  lemma StepsSafe<S(!new), M(!new), E(!new)>(cfg: Config<S, M, E>, run: seq<Machine<S, M, E>>, n: nat, t: nat, id: nat)
    requires Compiled(cfg) && Run(cfg, run) && n < |run| && t < |run[n].threads| && id < |run[n].threads[t].slots|
    ensures var th := run[n].threads[t];
      th.phase == Leaving(false) || (th.phase.Stepping? && th.phase.next <= id) ==>
        th.slots[id].dev.rts == No
  {
    hide Compiled, Run, AirOk, Abs;
    RunsRefine(cfg, run, n);
    var th := run[n].threads[t];
    assert ThreadOk(cfg.from, th, t, AbsTime(run[n].threads[0]));
    if th.phase == Leaving(false) || (th.phase.Stepping? && th.phase.next <= id) {
      assert id !in th.senders;
    }
  }

  // The calls to tinselIdle return only when no device in the graph wants to
  // send, nothing is being sent or received, and no message is undelivered
  lemma DetectsSafe<S(!new), M(!new), E(!new)>(cfg: Config<S, M, E>, run: seq<Machine<S, M, E>>, n: nat, last: bool,
                                               m': Machine<S, M, E>)
    requires Compiled(cfg) && Run(cfg, run) && n < |run| && Detects(run[n], m', last)
    ensures forall t, id | 0 <= t < |run[n].threads| && 0 <= id < |run[n].threads[t].slots| ::
      run[n].threads[t].slots[id].dev.rts == No
    ensures forall t | 0 <= t < |run[n].threads| :: run[n].threads[t].legs == [] && run[n].threads[t].inbox == None
    ensures Shape(cfg, run[n].threads) && Quiet(Abs(cfg, run[n])) && last == !Abs(cfg, run[n]).active
  {
    hide Compiled, Run, AirOk, Abs, Quiet, ThreadOk, PlaceOk, Steps, Ends, Over, Reachable;
    RunsRefine(cfg, run, n);
    DetectQuiet(cfg, run[n], m', last);
    DetectSteps(cfg, run[n], m', last);
    assert last == !Abs(cfg, run[n]).active by { StepsOrEnds(cfg.app, Abs(cfg, run[n]), Abs(cfg, m'), last); }
    forall t | 0 <= t < |run[n].threads|
      ensures run[n].threads[t].legs == [] && run[n].threads[t].inbox == None
      ensures forall id | 0 <= id < |run[n].threads[t].slots| :: run[n].threads[t].slots[id].dev.rts == No
    {
      WaitingQuiet(run[n].threads[t], cfg.from, t, AbsTime(run[n].threads[0]));
      assert run[n].threads[t].legs == [] && run[n].threads[t].inbox == None by {
        WaitingEmpty(run[n].threads[t], cfg.from, t, AbsTime(run[n].threads[0]));
      }
    }
  }

  lemma StepsOrEnds<S, M, E>(app: App<S, M, E>, w: World<S, M, E>, w': World<S, M, E>, last: bool)
    requires if last then Ends(w, w') else Steps(app, w, w')
    ensures last == !w.active
  {
  }

  lemma WaitingEmpty<S, M, E>(th: Thread<S, M, E>, from: seq<seq<nat>>, t: nat, now: nat)
    requires ThreadOk(from, th, t, now) && th.phase == Waiting
    ensures th.legs == [] && th.inbox == None
  {
  }

  // Every message is received in the time step in which it was sent: the time
  // of the sender when it sent the message is the time of the receiver
  lemma ReceivedOnTime<S(!new), M(!new), E(!new)>(cfg: Config<S, M, E>, run: seq<Machine<S, M, E>>, n: nat, t: nat)
    requires Compiled(cfg) && Run(cfg, run) && n < |run| && t < |run[n].threads|
    requires run[n].threads[t].inbox.Some?
    ensures run[n].threads[t].inbox.value.Packet? && run[n].threads[t].inbox.value.time == run[n].threads[t].time
  {
    hide Compiled, Run, AirOk, Abs;
    RunsRefine(cfg, run, n);
    assert ThreadOk(cfg.from, run[n].threads[t], t, AbsTime(run[n].threads[0]));
  }

  lemma StartsUntried<S, M, E>(cfg: Config<S, M, E>, m: Machine<S, M, E>)
    requires StartsAs(cfg, m) && cfg.from != []
    ensures m.threads != []
    ensures forall u | 0 <= u < |m.threads| :: Untried(m.threads[u]) && !Over(m.threads[u])
  {
  }

  lemma RunIsSteady<S(!new), M(!new), E(!new)>(cfg: Config<S, M, E>, run: seq<Machine<S, M, E>>)
    requires Compiled(cfg) && Run(cfg, run)
    ensures Steady(cfg, run) && StartsAs(cfg, run[0]) && cfg.from != []
  {
    hide NextMachine, StartsAs, RoutesOk;
  }

  // The state u of the application stands at the start of the last round: nothing
  // is left to do in it, and all step handlers return false
  ghost predicate Dying<S, M, E>(app: App<S, M, E>, u: World<S, M, E>) {
    !u.done && Quiet(u) && u.active && forall d | 0 <= d < |u.devs| :: !app.step(u.devs[d], Clock(u.time)).1
  }

  // What the last round looks like to the application
  lemma RoundDies<S(!new), M(!new), E(!new)>(cfg: Config<S, M, E>, run: seq<Machine<S, M, E>>, k: nat, j: nat)
    requires Compiled(cfg) && Run(cfg, run) && LastRound(cfg, run, k, j)
    ensures Shape(cfg, run[k].threads) && Reachable(cfg.app, cfg.graph, cfg.memory, Abs(cfg, run[k]))
    ensures Dying(cfg.app, Abs(cfg, run[k]))
    ensures forall u | 0 <= u < |run[k].threads| :: run[k].threads[u].time == Abs(cfg, run[k]).time
  {
    hide Compiled, Run, AirOk, Detects, Quiet, Reachable, Called, Moving, ThreadOk, PlaceOk;
    RunsRefine(cfg, run, k);
    DetectsSafe(cfg, run, k, false, run[k + 1]);
    forall u | 0 <= u < |run[k].threads|
      ensures run[k].threads[u].phase == Waiting && run[k].threads[u].time == Abs(cfg, run[k]).time
    {
      DetectIdle(run[k], run[k + 1], false, u);
      DetectIdle(run[k], run[k + 1], false, 0);
      SameTime(cfg, run[k], u);
    }
    var w := Abs(cfg, run[k]);
    forall d | 0 <= d < |w.devs| ensures !cfg.app.step(w.devs[d], Clock(w.time)).1 {
      PlacedAt(cfg, run[k], d);
      var p := cfg.place[d];
      assert !Asks(cfg, run[k], p.0, p.1);
    }
  }

  lemma SameTime<S, M, E>(cfg: Config<S, M, E>, m: Machine<S, M, E>, u: nat)
    requires Inv(cfg, m) && u < |m.threads| && m.threads[u].phase == m.threads[0].phase == Waiting
    ensures m.threads[u].time == Abs(cfg, m).time
  {
    hide AirOk, PlaceOk, StackOk;
    assert ThreadOk(cfg.from, m.threads[u], u, AbsTime(m.threads[0]));
  }

  lemma PlacedAt<S, M, E>(cfg: Config<S, M, E>, m: Machine<S, M, E>, d: nat)
    requires Shape(cfg, m.threads) && d < |cfg.place|
    ensures cfg.place[d].0 < |m.threads| && cfg.place[d].1 < |m.threads[cfg.place[d].0].slots|
  {
  }

  // The run of the application ends right after a time step in which all step
  // handlers return false
  ghost predicate EndsRight<S(!new), M(!new), E(!new)>(app: App<S, M, E>, g: Graph<E>, memory: seq<Dev<S>>,
                                                       w: World<S, M, E>)
  {
    exists u :: Reachable(app, g, memory, u) && Dying(app, u) && u.time + 1 == w.time
  }

  // A thread calls a finish handler only after a round from one detection of
  // idleness to the next, in which the step handler of every device on every
  // thread was called and returned false
  lemma FinishSafe<S(!new), M(!new), E(!new)>(cfg: Config<S, M, E>, run: seq<Machine<S, M, E>>, n: nat, t: nat)
    returns (k: nat, j: nat)
    requires Compiled(cfg) && Run(cfg, run) && n < |run| && t < |run[n].threads| && Over(run[n].threads[t])
    ensures Shape(cfg, run[n].threads) && Abs(cfg, run[n]).done && forall u | 0 <= u < |run[n].threads| :: Over(run[n].threads[u])
    ensures j < n && LastRound(cfg, run, k, j)
    ensures forall i, u | 0 <= i <= j && 0 <= u < |run[i].threads| :: !Over(run[i].threads[u])
    ensures EndsRight(cfg.app, cfg.graph, cfg.memory, Abs(cfg, run[n]))
  {
    hide Compiled, Run, AirOk, ThreadOk, PlaceOk, Over, Reachable, Steady, StartsAs, Untried, LastRound, Detects, Dying;
    RunsRefine(cfg, run, n);
    RunIsSteady(cfg, run);
    StartsUntried(cfg, run[0]);
    SameSize(cfg, run, 0, n);
    j := EndedBy(cfg, run, n, t);
    k := RoundBefore(cfg, run, j);
    forall i, u | 0 <= i <= j && 0 <= u < |run[i].threads| ensures !Over(run[i].threads[u]) {
      if Over(run[i].threads[u]) {
        StaysOver(cfg, run, i, j, u);
        DetectOver(run[j], run[j + 1], true, u);
      }
    }
    RoundDies(cfg, run, k, j);
    TimeOver(cfg, run, k, j, n);
  }

  lemma TimeOver<S(!new), M(!new), E(!new)>(cfg: Config<S, M, E>, run: seq<Machine<S, M, E>>, k: nat, j: nat, n: nat)
    requires Steady(cfg, run) && LastRound(cfg, run, k, j) && j < n < |run| && Shape(cfg, run[k].threads)
    requires Shape(cfg, run[n].threads) && run[k].threads[0].time == Abs(cfg, run[k]).time
    ensures Abs(cfg, run[n]).time == Abs(cfg, run[k]).time + 1
  {
    hide Steady, Moving, Called, Asks, PlaceOk, Detects;
    SizeDetected(run[j], run[j + 1], true);
    DetectOver(run[j], run[j + 1], true, 0);
    SameDetected(run[j], run[j + 1], true, 0);
    StaysOver(cfg, run, j + 1, n, 0);
  }

  // ---------------------------------------------------------------------
  // The machine never gets stuck before every thread has finished

  lemma CanMove<S(!new), M(!new), E(!new)>(cfg: Config<S, M, E>, m: Machine<S, M, E>, t: nat)
    returns (m': Machine<S, M, E>, a: Action)
    requires Inv(cfg, m) && t < |m.threads| && CanSend(m)
    requires m.threads[t].phase != Waiting && m.threads[t].phase != Finished
    ensures Moves(cfg, m, m', t, a)
  {
    hide PlaceOk, AirOk, Handled, Initialised, Received, Started, SteppedOne, FinishedOne, Farewell, Items, LegsOk;
    var th := m.threads[t];
    assert !th.phase.Leaving?;
    hide CanSend;
    assert ThreadOk(cfg.from, th, t, AbsTime(m.threads[0]));
    var th', air' := th, m.air;
    if th.phase.Starting? {
      a := Init;
      th' := if th.phase.next < |th.slots| then Initialised(cfg.app, th) else th.(phase := Running);
    } else if th.phase.Stepping? {
      if th.phase.next < |th.slots| {
        a, th' := Step, SteppedOne(cfg.app, th);
      } else {
        a, th' := Resume, th.(phase := Running, time := th.time + 1);
      }
    } else if th.phase.Finishing? {
      if th.phase.next < |th.slots| {
        a, th', air' := Finish, FinishedOne(cfg.app, th), m.air + Farewell(cfg.app, th);
      } else {
        a, th' := Stop, th.(phase := Finished);
      }
    } else if th.inbox.Some? {
      if th.inbox.value.edges == [] {
        a, th' := Done, th.(inbox := None);
      } else {
        a, th' := Recv, Received(cfg.app, th);
      }
    } else if th.legs != [] {
      a, th', air' := Send, th.(legs := th.legs[1..]), m.air + Items(th.legs[0], th.payload.value, th.time);
    } else if th.senders != [] {
      a, th' := Start, Started(cfg, t, th);
    } else {
      a, th' := Idle, th.(phase := Waiting);
    }
    m' := Machine(m.threads[t := th'], air');
  }

  lemma CanLeave<S(!new), M(!new), E(!new)>(cfg: Config<S, M, E>, m: Machine<S, M, E>, t: nat) returns (m': Machine<S, M, E>)
    requires t < |m.threads| && m.threads[t].phase.Leaving?
    ensures Moves(cfg, m, m', t, Leave)
  {
    var th := m.threads[t];
    var th' := if th.phase.last then th.(phase := Finishing(0)) else th.(phase := Stepping(0), active := false);
    m' := m.(threads := m.threads[t := th']);
  }

  lemma NeverStuck<S(!new), M(!new), E(!new)>(cfg: Config<S, M, E>, m: Machine<S, M, E>) returns (m': Machine<S, M, E>)
    requires Inv(cfg, m) && exists t :: 0 <= t < |m.threads| && m.threads[t].phase != Finished
    ensures NextMachine(cfg, m, m')
  {
    hide ThreadOk, PlaceOk, Acts;
    if t :| 0 <= t < |m.threads| && m.threads[t].phase.Leaving? {
      m' := CanLeave(cfg, m, t);
      assert Moves(cfg, m, m', t, Leave);
    } else if t :| 0 <= t < |m.threads| && m.threads[t].phase != Waiting && m.threads[t].phase != Finished {
      var a;
      m', a := CanMove(cfg, m, t);
      assert Moves(cfg, m, m', t, a);
    } else {
      AllWaiting(cfg, m);
      if i :| 0 <= i < |m.air| && m.air[i].Packet? {
        m' := CanWake(cfg, m, i);
      } else {
        var last := forall t | 0 <= t < |m.threads| :: !m.threads[t].active;
        m' := m.(threads := seq(|m.threads|, t requires 0 <= t < |m.threads| =>
                                  m.threads[t].(phase := Leaving(last))));
        assert Detects(m, m', last);
      }
    }
  }

  lemma AllWaiting<S, M, E>(cfg: Config<S, M, E>, m: Machine<S, M, E>)
    requires Inv(cfg, m) && exists t :: 0 <= t < |m.threads| && m.threads[t].phase != Finished
    requires forall t | 0 <= t < |m.threads| :: m.threads[t].phase == Waiting || m.threads[t].phase == Finished
    ensures forall t | 0 <= t < |m.threads| :: m.threads[t].phase == Waiting
  {
    hide ThreadOk, AirOk, PlaceOk;
    var u :| 0 <= u < |m.threads| && m.threads[u].phase != Finished;
    assert !Over(m.threads[u]);
    assert forall t | 0 <= t < |m.threads| :: !Over(m.threads[t]);
  }

  lemma CanWake<S(!new), M(!new), E(!new)>(cfg: Config<S, M, E>, m: Machine<S, M, E>, i: nat) returns (m': Machine<S, M, E>)
    requires Inv(cfg, m) && i < |m.air| && m.air[i].Packet?
    requires forall t | 0 <= t < |m.threads| :: m.threads[t].phase == Waiting
    ensures NextMachine(cfg, m, m')
  {
    hide ThreadOk, PlaceOk;
    var t := m.air[i].thread;
    assert PacketOk(cfg.from, m.air[i], AbsTime(m.threads[0]));
    m' := m.(threads := m.threads[t := m.threads[t].(phase := Running)]);
    assert Moves(cfg, m, m', t, Wake);
  }
}
