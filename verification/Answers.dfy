// What the host is told: one answer for each device that has been asked, for every
// application whose devices speak to the host only when they are asked.
module Answers {
  import opened Vertices

  // Handlers never choose the pin of the host, and finishing changes no state
  ghost predicate Discreet<S(!new), M(!new), E(!new)>(app: App<S, M, E>) {
    && (forall dev: Dev<S> :: app.init(dev).rts != HostPin)
    && (forall dev: Dev<S>, t: nat :: dev.rts != HostPin ==> app.send(dev, t).0.rts != HostPin)
    && (forall dev: Dev<S>, m: M, e: E, t: nat :: dev.rts != HostPin ==> app.recv(dev, m, e, t).rts != HostPin)
    && (forall dev: Dev<S>, t: nat :: dev.rts != HostPin ==> app.step(dev, t).0.rts != HostPin)
    && (forall dev: Dev<S>, t: nat :: app.finish(dev, t).0 == dev)
  }

  // The answers of the devices below n that have been asked
  ghost function Spoken<M, E>(asked: set<nat>, says: nat -> Reply<M>, n: nat): multiset<Msg<M, E>> {
    if n == 0 then multiset{}
    else Spoken(asked, says, n - 1) + if n - 1 in asked then ReplyOf(says(n - 1)) else multiset{}
  }

  // The messages to the host are these
  ghost predicate Told<M(!new), E>(air: multiset<Msg<M, E>>, asked: set<nat>, says: nat -> Reply<M>, n: nat) {
    forall x: M :: air[ToHost(x)] == Spoken<M, E>(asked, says, n)[ToHost(x)]
  }

  lemma {:induction false} SameAnswers<M, E>(asked: set<nat>, says: nat -> Reply<M>, says': nat -> Reply<M>, n: nat)
    requires forall d | 0 <= d < n && d in asked :: says(d) == says'(d)
    ensures Spoken<M, E>(asked, says, n) == Spoken<M, E>(asked, says', n)
    decreases n
  {
    if n > 0 {
      SameAnswers<M, E>(asked, says, says', n - 1);
    }
  }

  lemma {:induction false} MoreAnswers<M, E>(asked: set<nat>, says: nat -> Reply<M>, d: nat, n: nat)
    requires d !in asked
    ensures Spoken<M, E>(asked + {d}, says, n)
      == Spoken<M, E>(asked, says, n) + if d < n then ReplyOf(says(d)) else multiset{}
    decreases n
  {
    hide ReplyOf;
    if n > 0 {
      MoreAnswers<M, E>(asked, says, d, n - 1);
      var before: multiset<Msg<M, E>> := Spoken(asked, says, n - 1);
      Swap(before, ReplyOf(says(d)), ReplyOf(says(n - 1)));
    }
  }

  lemma Swap<T>(a: multiset<T>, b: multiset<T>, c: multiset<T>)
    ensures a + b + c == a + c + b && a + multiset{} == a
  {
  }

  lemma {:induction false} NoAnswers<M, E>(says: nat -> Reply<M>, n: nat)
    ensures Spoken<M, E>({}, says, n) == multiset{}
    decreases n
  {
    if n > 0 {
      NoAnswers<M, E>(says, n - 1);
    }
  }

  // What a device would answer
  ghost function Saying<S, M, E>(app: App<S, M, E>, w: World<S, M, E>): nat -> Reply<M> {
    (d: nat) => if d < |w.devs| then app.finish(w.devs[d], Clock(w.time)).1 else Silent
  }

  ghost predicate Tells<S, M(!new), E>(app: App<S, M, E>, w: World<S, M, E>) {
    && (forall d | 0 <= d < |w.devs| :: w.devs[d].rts != HostPin)
    && (!w.done ==> w.asked == {}) && (forall d | d in w.asked :: d < |w.devs|)
    && Told(w.air, w.asked, Saying(app, w), |w.devs|)
  }

  // ---------------------------------------------------------------------

  lemma BeginTells<S(!new), M(!new), E(!new)>(app: App<S, M, E>, memory: seq<Dev<S>>)
    requires Discreet(app)
    ensures Tells(app, Begin(app, memory))
  {
    var w := Begin(app, memory);
    NoAnswers<M, E>(Saying(app, w), |w.devs|);
  }

  lemma {:induction false} OnEdgesHost<M, E>(edges: seq<Edge<E>>, pin: nat, payload: M, x: M)
    ensures OnEdges(edges, pin, payload)[ToHost(x)] == 0
    decreases |edges|
  {
    if edges != [] {
      OnEdgesHost(edges[..|edges| - 1], pin, payload, x);
    }
  }

  // Before the end the host is told nothing
  lemma TellsNothing<S, M(!new), E>(app: App<S, M, E>, w: World<S, M, E>, w': World<S, M, E>)
    requires Tells(app, w) && !w.done && w'.asked == w.asked && |w'.devs| == |w.devs|
    requires forall d | 0 <= d < |w'.devs| :: w'.devs[d].rts != HostPin
    requires forall x: M :: w'.air[ToHost(x)] == w.air[ToHost(x)]
    ensures Tells(app, w')
  {
    NoAnswers<M, E>(Saying(app, w), |w.devs|);
    NoAnswers<M, E>(Saying(app, w'), |w.devs|);
  }

  lemma SendTells<S(!new), M(!new), E(!new)>(app: App<S, M, E>, g: Graph<E>, w: World<S, M, E>, w': World<S, M, E>, d: nat)
    requires Discreet(app) && Tells(app, w) && Sends(app, g, w, w', d)
    ensures Tells(app, w')
  {
    hide OnEdges;
    var payload := app.send(w.devs[d], Clock(w.time)).1;
    forall x: M ensures w'.air[ToHost(x)] == w.air[ToHost(x)] {
      OnEdgesHost(g[d], w.devs[d].rts.pin, payload, x);
    }
    TellsNothing(app, w, w');
  }

  lemma ReceiveTells<S(!new), M(!new), E(!new)>(app: App<S, M, E>, w: World<S, M, E>, w': World<S, M, E>, m: Msg<M, E>)
    requires Discreet(app) && Tells(app, w) && Receives(app, w, w', m)
    ensures Tells(app, w')
  {
    TellsNothing(app, w, w');
  }

  lemma StepTells<S(!new), M(!new), E(!new)>(app: App<S, M, E>, w: World<S, M, E>, w': World<S, M, E>)
    requires Discreet(app) && Tells(app, w) && (Steps(app, w, w') || Ends(w, w'))
    ensures Tells(app, w')
  {
    hide Quiet;
    if Steps(app, w, w') {
      forall d | 0 <= d < |w'.devs| ensures w'.devs[d].rts != HostPin {
        assert w'.devs[d] == app.step(w.devs[d], Clock(w.time)).0;
      }
    }
    TellsNothing(app, w, w');
  }

  lemma ReplyTells<S(!new), M(!new), E(!new)>(app: App<S, M, E>, w: World<S, M, E>, w': World<S, M, E>, d: nat)
    requires Discreet(app) && Tells(app, w) && Replies(app, w, w', d)
    ensures Tells(app, w')
  {
    assert w'.devs == w.devs;
    SameAnswers<M, E>(w'.asked, Saying(app, w), Saying(app, w'), |w.devs|);
    MoreAnswers<M, E>(w.asked, Saying(app, w), d, |w.devs|);
  }

  // In every reachable state the messages to the host are exactly the answers of
  // the devices that have been asked, each once
  lemma {:induction false} AllTold<S(!new), M(!new), E(!new)>(app: App<S, M, E>, g: Graph<E>, memory: seq<Dev<S>>,
                                                              w: World<S, M, E>, n: nat)
    requires Discreet(app) && Reach(app, g, Begin(app, memory), w, n)
    ensures Tells(app, w)
    decreases n
  {
    hide Discreet, Tells, Sends, Receives, Replies, Steps, Begin;
    if n == 0 {
      BeginTells(app, memory);
    } else {
      var v :| Reach(app, g, Begin(app, memory), v, n - 1) && Next(app, g, v, w);
      AllTold(app, g, memory, v, n - 1);
      if d: nat :| Sends(app, g, v, w, d) {
        SendTells(app, g, v, w, d);
      } else if m :| Receives(app, v, w, m) {
        ReceiveTells(app, v, w, m);
      } else if d: nat :| Replies(app, v, w, d) {
        ReplyTells(app, v, w, d);
      } else {
        StepTells(app, v, w);
      }
    }
  }

  // No device is ever added or lost
  lemma {:induction false} SameDevices<S(!new), M(!new), E(!new)>(app: App<S, M, E>, g: Graph<E>, memory: seq<Dev<S>>,
                                                                  w: World<S, M, E>, n: nat)
    requires Reach(app, g, Begin(app, memory), w, n)
    ensures |w.devs| == |memory|
    decreases n
  {
    hide Next;
    if n > 0 {
      var v :| Reach(app, g, Begin(app, memory), v, n - 1) && Next(app, g, v, w);
      SameDevices(app, g, memory, v, n - 1);
      StepDevices(app, g, v, w);
    }
  }

  lemma StepDevices<S(!new), M(!new), E(!new)>(app: App<S, M, E>, g: Graph<E>, v: World<S, M, E>, w: World<S, M, E>)
    requires Next(app, g, v, w)
    ensures |w.devs| == |v.devs|
  {
    hide Quiet, Emitted, ReplyOf;
  }

  lemma DeviceCount<S(!new), M(!new), E(!new)>(app: App<S, M, E>, g: Graph<E>, memory: seq<Dev<S>>, w: World<S, M, E>)
    requires Reachable(app, g, memory, w)
    ensures |w.devs| == |memory|
  {
    hide Reach;
    var n: nat :| Reach(app, g, Begin(app, memory), w, n);
    SameDevices(app, g, memory, w, n);
  }

  // Answers that are all known
  ghost predicate Reported<M(!new), E>(air: multiset<Msg<M, E>>, asked: set<nat>, answer: nat -> M, n: nat) {
    Told(air, asked, Saids(answer), n)
  }

  // The same with answers that are known otherwise
  lemma ReportedAs<S(!new), M(!new), E(!new)>(app: App<S, M, E>, g: Graph<E>, memory: seq<Dev<S>>, w: World<S, M, E>,
                                              answer: nat -> M)
    requires Discreet(app) && Reachable(app, g, memory, w)
    requires w.done ==> forall d | 0 <= d < |w.devs| :: app.finish(w.devs[d], Clock(w.time)).1 == Says(answer(d))
    ensures |w.devs| == |memory| && Reported(w.air, w.asked, answer, |w.devs|)
  {
    hide Discreet, Reach, Begin;
    var n: nat :| Reach(app, g, Begin(app, memory), w, n);
    AllTold(app, g, memory, w, n);
    SameDevices(app, g, memory, w, n);
    var says := Saids(answer);
    if w.done {
      SameAnswers<M, E>(w.asked, Saying(app, w), says, |w.devs|);
    } else {
      NoAnswers<M, E>(Saying(app, w), |w.devs|);
      NoAnswers<M, E>(says, |w.devs|);
    }
  }

  // ---------------------------------------------------------------------
  // What the host adds up

  ghost function Share<M, E>(m: Msg<M, E>, f: M -> int): int { if m.ToHost? then f(m.payload) else 0 }

  // Sum of a number for each message to the host
  ghost function HostSum<M, E>(air: multiset<Msg<M, E>>, f: M -> int): int
    decreases |air|
  {
    if air == multiset{} then 0
    else
      var m :| m in air;
      Share(m, f) + HostSum(air - multiset{m}, f)
  }

  lemma HostPick<M, E>(air: multiset<Msg<M, E>>, f: M -> int) returns (c: Msg<M, E>)
    requires air != multiset{}
    ensures c in air && HostSum(air, f) == Share(c, f) + HostSum(air - multiset{c}, f)
  {
    hide Share;
    c :| c in air && HostSum(air, f) == Share(c, f) + HostSum(air - multiset{c}, f);
  }

  lemma {:induction false} HostAny<M, E>(air: multiset<Msg<M, E>>, f: M -> int, m: Msg<M, E>)
    requires m in air
    ensures HostSum(air, f) == Share(m, f) + HostSum(air - multiset{m}, f)
    decreases |air|
  {
    hide Share, HostSum;
    var c := HostPick(air, f);
    if c != m {
      HostAny(air - multiset{c}, f, m);
      HostAny(air - multiset{m}, f, c);
      assert air - multiset{c} - multiset{m} == air - multiset{m} - multiset{c};
    }
  }

  lemma {:induction false} HostSame<M(!new), E>(a: multiset<Msg<M, E>>, b: multiset<Msg<M, E>>, f: M -> int)
    requires forall x: M :: a[ToHost(x)] == b[ToHost(x)]
    ensures HostSum(a, f) == HostSum(b, f)
    decreases |a| + |b|
  {
    hide HostSum;
    if a != multiset{} {
      var m := HostPick(a, f);
      if m.ToHost? {
        assert m == ToHost(m.payload) && m in b;
        HostAny(b, f, m);
        HostSame(a - multiset{m}, b - multiset{m}, f);
      } else {
        HostSame(a - multiset{m}, b, f);
      }
    } else if b != multiset{} {
      var m := HostPick(b, f);
      assert m.ToHost? ==> m == ToHost(m.payload);
      HostSame(a, b - multiset{m}, f);
    }
  }

  ghost function Of<M>(f: M -> int, answer: nat -> M): nat -> int { (d: nat) => f(answer(d)) }

  ghost function Saids<M>(answer: nat -> M): nat -> Reply<M> { (d: nat) => Says(answer(d)) }

  // Sum over the devices below n
  ghost function DeviceSum(f: nat -> int, n: nat): int { if n == 0 then 0 else DeviceSum(f, n - 1) + f(n - 1) }

  lemma LastAnswer<M, E>(asked: set<nat>, answer: nat -> M, n: nat)
    requires n > 0 && n - 1 in asked
    ensures Spoken<M, E>(asked, Saids(answer), n)
      == Spoken<M, E>(asked, Saids(answer), n - 1) + multiset{ToHost(answer(n - 1))}
  {
  }

  lemma OneMore<M, E>(all: multiset<Msg<M, E>>, before: multiset<Msg<M, E>>, m: Msg<M, E>, f: M -> int)
    requires all == before + multiset{m}
    ensures HostSum(all, f) == HostSum(before, f) + Share(m, f)
  {
    hide HostSum;
    HostAny(all, f, m);
    assert all - multiset{m} == before;
  }

  lemma {:induction false} AnswersSum<M, E>(asked: set<nat>, answer: nat -> M, f: M -> int, n: nat)
    requires forall d | 0 <= d < n :: d in asked
    ensures HostSum(Spoken<M, E>(asked, Saids(answer), n), f) == DeviceSum(Of(f, answer), n)
    decreases n
  {
    hide HostSum, Spoken;
    if n == 0 {
      assert Spoken<M, E>(asked, Saids(answer), 0) == multiset{} by { NoneYet<M, E>(asked, Saids(answer)); }
      NothingSum<M, E>(f);
    } else {
      AnswersSum<M, E>(asked, answer, f, n - 1);
      LastAnswer<M, E>(asked, answer, n);
      OneMore(Spoken<M, E>(asked, Saids(answer), n), Spoken<M, E>(asked, Saids(answer), n - 1), ToHost(answer(n - 1)), f);
    }
  }

  lemma NoneYet<M, E>(asked: set<nat>, says: nat -> Reply<M>)
    ensures Spoken<M, E>(asked, says, 0) == multiset{}
  {
  }

  lemma NothingSum<M, E>(f: M -> int)
    ensures HostSum<M, E>(multiset{}, f) == 0
  {
  }

  // Once all devices have been asked, the sum of what the host is told is the sum
  // of the answers of all devices
  lemma ReportedSum<M(!new), E>(air: multiset<Msg<M, E>>, asked: set<nat>, answer: nat -> M, f: M -> int, n: nat)
    requires Reported(air, asked, answer, n) && forall d | 0 <= d < n :: d in asked
    ensures HostSum(air, f) == DeviceSum(Of(f, answer), n)
  {
    hide HostSum, Spoken;
    HostSame(air, Spoken<M, E>(asked, Saids(answer), n), f);
    AnswersSum<M, E>(asked, answer, f, n);
  }
}
