// Runs that come to an end: every move lowers a rank, in this order the work left
// to the devices, the stage of the run, the devices that want to send, and the
// messages in the air.  A run that cannot go on is one that has finished.
module Endings {
  import opened Vertices

  // The work left to all devices, for a function that says what is left to each
  ghost function Work<S>(devs: seq<Dev<S>>, f: Dev<S> -> nat): nat {
    if devs == [] then 0 else Work(devs[..|devs| - 1], f) + f(devs[|devs| - 1])
  }

  function Wants<S>(dev: Dev<S>): nat { if dev.rts == No then 0 else 1 }

  ghost function Unasked<S, M, E>(w: World<S, M, E>): set<nat> {
    set d: nat | d < |w.devs| && d !in w.asked
  }

  // What is left of the last step, the end, and the replies
  ghost function Stage<S, M, E>(w: World<S, M, E>): nat {
    (if w.active then 1 else 0) + (if w.done then 0 else 1) + |Unasked(w)|
  }

  datatype Rank = Rank(work: nat, stage: nat, wants: nat, air: nat)

  ghost function RankOf<S, M, E>(w: World<S, M, E>, f: Dev<S> -> nat): Rank {
    Rank(Work(w.devs, f), Stage(w), Work(w.devs, Wants), |w.air|)
  }

  predicate Lower(r: Rank, q: Rank) {
    || r.work < q.work
    || (r.work == q.work && r.stage < q.stage)
    || (r.work == q.work && r.stage == q.stage && r.wants < q.wants)
    || (r.work == q.work && r.stage == q.stage && r.wants == q.wants && r.air < q.air)
  }

  lemma {:induction false} WorkUpdate<S>(devs: seq<Dev<S>>, f: Dev<S> -> nat, d: nat, dev: Dev<S>)
    requires d < |devs|
    ensures Work(devs[d := dev], f) == Work(devs, f) - f(devs[d]) + f(dev)
    decreases |devs|
  {
    var n := |devs| - 1;
    if d < n {
      WorkUpdate(devs[..n], f, d, dev);
      assert devs[d := dev][..n] == devs[..n][d := dev];
    } else {
      assert devs[d := dev][..n] == devs[..n];
    }
  }

  lemma {:induction false} WorkLess<S>(devs: seq<Dev<S>>, devs': seq<Dev<S>>, f: Dev<S> -> nat)
    requires |devs'| == |devs| && forall d | 0 <= d < |devs| :: f(devs'[d]) <= f(devs[d])
    ensures Work(devs', f) <= Work(devs, f)
    ensures (exists d :: 0 <= d < |devs| && f(devs'[d]) < f(devs[d])) ==> Work(devs', f) < Work(devs, f)
    decreases |devs|
  {
    var n := |devs| - 1;
    if n >= 0 {
      WorkLess(devs[..n], devs'[..n], f);
      if d :| 0 <= d < |devs| && f(devs'[d]) < f(devs[d]) {
        if d < n {
          assert f(devs'[..n][d]) < f(devs[..n][d]);
        }
      }
    }
  }

  // A device that sends either gets on with its work or stops wanting to
  lemma SendLowers<S, M, E>(app: App<S, M, E>, g: Graph<E>, f: Dev<S> -> nat, v: World<S, M, E>, w: World<S, M, E>, d: nat)
    requires Sends(app, g, v, w, d)
    requires f(w.devs[d]) < f(v.devs[d]) || (f(w.devs[d]) == f(v.devs[d]) && w.devs[d].rts == No)
    ensures Lower(RankOf(w, f), RankOf(v, f))
  {
    WorkUpdate(v.devs, f, d, w.devs[d]);
    WorkUpdate(v.devs, Wants, d, w.devs[d]);
    assert Unasked(w) == Unasked(v);
  }

  // A device that receives either gets on with its work or does not begin to want to send
  lemma ReceiveLowers<S, M, E>(app: App<S, M, E>, f: Dev<S> -> nat, v: World<S, M, E>, w: World<S, M, E>, m: Msg<M, E>)
    requires Receives(app, v, w, m)
    requires || f(w.devs[m.to]) < f(v.devs[m.to])
             || (f(w.devs[m.to]) == f(v.devs[m.to]) && (w.devs[m.to].rts != No ==> v.devs[m.to].rts != No))
    ensures Lower(RankOf(w, f), RankOf(v, f))
  {
    WorkUpdate(v.devs, f, m.to, w.devs[m.to]);
    WorkUpdate(v.devs, Wants, m.to, w.devs[m.to]);
    assert Unasked(w) == Unasked(v);
  }

  // A global step leaves less work, or no device asks for another
  lemma StepLowers<S, M, E>(app: App<S, M, E>, f: Dev<S> -> nat, v: World<S, M, E>, w: World<S, M, E>)
    requires Steps(app, v, w) && forall d | 0 <= d < |v.devs| :: f(w.devs[d]) <= f(v.devs[d])
    requires w.active ==> exists d :: 0 <= d < |v.devs| && f(w.devs[d]) < f(v.devs[d])
    ensures Lower(RankOf(w, f), RankOf(v, f))
  {
    WorkLess(v.devs, w.devs, f);
    assert Unasked(w) == Unasked(v);
  }

  lemma EndLowers<S, M, E>(f: Dev<S> -> nat, v: World<S, M, E>, w: World<S, M, E>)
    requires Ends(v, w)
    ensures Lower(RankOf(w, f), RankOf(v, f))
  {
    assert Unasked(w) == Unasked(v);
  }

  lemma ReplyLowers<S, M, E>(app: App<S, M, E>, f: Dev<S> -> nat, v: World<S, M, E>, w: World<S, M, E>, d: nat)
    requires Replies(app, v, w, d) && f(w.devs[d]) <= f(v.devs[d])
    ensures Lower(RankOf(w, f), RankOf(v, f))
  {
    WorkUpdate(v.devs, f, d, w.devs[d]);
    assert d in Unasked(v) && Unasked(w) == Unasked(v) - {d};
  }

  // ---------------------------------------------------------------------
  // Sequences of worlds

  ghost predicate Proceeds<S(!new), M(!new), E(!new)>(app: App<S, M, E>, g: Graph<E>, run: nat -> World<S, M, E>, i: nat) {
    Next(app, g, run(i), run(i + 1))
  }

  lemma {:induction false} ProceedsReach<S(!new), M(!new), E(!new)>(app: App<S, M, E>, g: Graph<E>,
                                                                 run: nat -> World<S, M, E>, i: nat)
    requires forall j | 0 <= j < i :: Proceeds(app, g, run, j)
    ensures Reach(app, g, run(0), run(i), i)
    decreases i
  {
    if i > 0 {
      ProceedsReach(app, g, run, i - 1);
      assert Proceeds(app, g, run, i - 1);
    }
  }

  ghost predicate Descends<S, M, E>(f: Dev<S> -> nat, run: nat -> World<S, M, E>, i: nat) {
    Lower(RankOf(run(i + 1), f), RankOf(run(i), f))
  }

  lemma {:induction false} NoDescent<S, M, E>(f: Dev<S> -> nat, run: nat -> World<S, M, E>, i: nat)
    requires forall j: nat :: Descends(f, run, j)
    ensures false
    decreases RankOf(run(i), f).work, RankOf(run(i), f).stage, RankOf(run(i), f).wants, RankOf(run(i), f).air
  {
    hide RankOf;
    assert Descends(f, run, i);
    NoDescent(f, run, i + 1);
  }

  // Every move of the application lowers the rank
  ghost predicate Ending<S(!new), M(!new), E(!new)>(app: App<S, M, E>, g: Graph<E>, memory: seq<Dev<S>>, f: Dev<S> -> nat) {
    forall v, w | Reachable(app, g, memory, v) && Next(app, g, v, w) :: Lower(RankOf(w, f), RankOf(v, f))
  }

  // No sequence of moves goes on for ever
  lemma MustStop<S(!new), M(!new), E(!new)>(app: App<S, M, E>, g: Graph<E>, memory: seq<Dev<S>>, f: Dev<S> -> nat,
                                         run: nat -> World<S, M, E>)
    requires Ending(app, g, memory, f) && run(0) == Begin(app, memory)
    ensures exists j: nat :: !Proceeds(app, g, run, j)
  {
    hide Reach, Begin, RankOf, Next, Lower;
    if forall j: nat :: Proceeds(app, g, run, j) {
      forall j: nat ensures Descends(f, run, j) {
        ProceedsReach(app, g, run, j);
        assert Proceeds(app, g, run, j);
        assert Reachable(app, g, memory, run(j));
      }
      NoDescent(f, run, 0);
    }
  }

  // ---------------------------------------------------------------------
  // Where a run can end

  // The run is over and every device has been asked for its reply
  ghost predicate Finished<S, M, E>(w: World<S, M, E>) {
    w.done && forall d: nat | d < |w.devs| :: d in w.asked
  }

  ghost predicate Addressed<S, M, E>(w: World<S, M, E>, n: nat) {
    |w.devs| == n && forall m | m in w.air && m.Deliver? :: m.to < n
  }

  lemma {:induction false} EmittedTo<M, E>(edges: seq<Edge<E>>, pin: nat, payload: M, m: Msg<M, E>)
    requires m in OnEdges(edges, pin, payload) && m.Deliver?
    ensures exists i :: 0 <= i < |edges| && edges[i].to == m.to
    decreases |edges|
  {
    var n := |edges| - 1;
    if m in OnEdges(edges[..n], pin, payload) {
      EmittedTo(edges[..n], pin, payload, m);
      var i :| 0 <= i < n && edges[..n][i].to == m.to;
      assert edges[i].to == m.to;
    } else {
      assert edges[n].to == m.to;
    }
  }

  lemma AddressedSend<S, M, E>(app: App<S, M, E>, g: Graph<E>, v: World<S, M, E>, w: World<S, M, E>, d: nat)
    requires Wellformed(g) && Addressed(v, |g|) && Sends(app, g, v, w, d)
    ensures Addressed(w, |g|)
  {
    hide OnEdges;
    var payload := app.send(v.devs[d], Clock(v.time)).1;
    forall m | m in w.air && m.Deliver? && m !in v.air ensures m.to < |g| {
      EmittedTo(g[d], v.devs[d].rts.pin, payload, m);
    }
  }

  lemma AddressedNext<S(!new), M(!new), E(!new)>(app: App<S, M, E>, g: Graph<E>, v: World<S, M, E>, w: World<S, M, E>)
    requires Wellformed(g) && Addressed(v, |g|) && Next(app, g, v, w)
    ensures Addressed(w, |g|)
  {
    hide Wellformed, Sends;
    if d :| Sends(app, g, v, w, d) {
      AddressedSend(app, g, v, w, d);
    }
  }

  lemma {:induction false} AddressedRuns<S(!new), M(!new), E(!new)>(app: App<S, M, E>, g: Graph<E>, memory: seq<Dev<S>>,
                                                                    w: World<S, M, E>, n: nat)
    requires Wellformed(g) && |memory| == |g| && Reach(app, g, Begin(app, memory), w, n)
    ensures Addressed(w, |g|)
    decreases n
  {
    hide Next, Addressed;
    if n == 0 {
      assert Addressed(w, |g|) by { BeginAddressed(app, memory); }
    } else {
      var v :| Reach(app, g, Begin(app, memory), v, n - 1) && Next(app, g, v, w);
      AddressedRuns(app, g, memory, v, n - 1);
      AddressedNext(app, g, v, w);
    }
  }

  lemma BeginAddressed<S, M, E>(app: App<S, M, E>, memory: seq<Dev<S>>)
    ensures Addressed(Begin(app, memory), |memory|)
  {
  }

  // A run that has not finished can go on
  lemma CanProceed<S(!new), M(!new), E(!new)>(app: App<S, M, E>, g: Graph<E>, memory: seq<Dev<S>>, w: World<S, M, E>)
    requires Wellformed(g) && |memory| == |g| && Reachable(app, g, memory, w) && !Finished(w)
    ensures exists w' :: Next(app, g, w, w')
  {
    hide Reach, Begin;
    var n: nat :| Reach(app, g, Begin(app, memory), w, n);
    AddressedRuns(app, g, memory, w, n);
    hide OnEdges, Stepped;
    if w.done {
      var d: nat :| d < |w.devs| && d !in w.asked;
      var r := app.finish(w.devs[d], Clock(w.time));
      var w' := w.(devs := w.devs[d := r.0], air := w.air + ReplyOf(r.1), asked := w.asked + {d});
      assert Replies(app, w, w', d);
      NextByReply(app, g, w, w', d);
    } else if d :| 0 <= d < |w.devs| && w.devs[d].rts != No {
      var r := app.send(w.devs[d], Clock(w.time));
      var w' := w.(devs := w.devs[d := r.0], air := w.air + Emitted(g[d], w.devs[d].rts, r.1));
      assert Sends(app, g, w, w', d);
      assert Next(app, g, w, w');
    } else if m :| m in w.air && m.Deliver? {
      var w' := w.(devs := w.devs[m.to := app.recv(w.devs[m.to], m.payload, m.edge, Clock(w.time))],
                   air := w.air - multiset{m});
      assert Receives(app, w, w', m);
      NextByReceive(app, g, w, w', m);
    } else if w.active {
      assert Next(app, g, w, Stepped(app, w));
    } else {
      assert Next(app, g, w, w.(done := true));
    }
  }
}
