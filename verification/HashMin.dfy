// Minimum propagation: every vertex ends with the least number of all the
// vertices that can reach it.
module HashMin {
  import opened Vertices
  import opened Gals

  datatype HashMinState = HashMinState(changed: bool, min: int)

  type HashMinDev = Dev<HashMinState>

  function Init(dev: HashMinDev): HashMinDev { Dev(Out(0), dev.s) }

  function Send(dev: HashMinDev, time: nat): (HashMinDev, int) { (Dev(No, dev.s), dev.s.min) }

  function Recv(dev: HashMinDev, m: int, edge: (), time: nat): HashMinDev {
    if m < dev.s.min then dev.(s := HashMinState(true, m)) else dev
  }

  function Step(dev: HashMinDev, time: nat): (HashMinDev, bool) {
    if dev.s.changed then (Dev(Out(0), dev.s.(changed := false)), true) else (dev, false)
  }

  function Finish(dev: HashMinDev, time: nat): (HashMinDev, Reply<int>) { (dev, Says(dev.s.min)) }

  const HASHMIN: App<HashMinState, int, ()> := App(Init, Send, Recv, Step, Finish)

  class HashMinDevice {
    var s: HashMinState
    var readyToSend: Pin

    function View(): HashMinDev
      reads this
    {
      Dev(readyToSend, s)
    }

    constructor (min: int)
      ensures View() == Dev(No, HashMinState(false, min))
    {
      s, readyToSend := HashMinState(false, min), No;
    }

    method CallSend(time: nat) returns (msg: int)
      modifies this
      ensures (View(), msg) == old(Send(View(), time))
    {
      msg := s.min;
      readyToSend := No;
    }

    method CallRecv(min: int, time: nat)
      modifies this
      ensures View() == old(Recv(View(), min, (), time))
    {
      if min < s.min {
        s := s.(min := min);
        s := s.(changed := true);
      }
    }

    method CallStep(time: nat) returns (again: bool)
      modifies this
      ensures (View(), again) == old(Step(View(), time))
    {
      if s.changed {
        s := s.(changed := false);
        readyToSend := Out(0);
        again := true;
      } else {
        again := false;
      }
    }
  }

  // ---------------------------------------------------------------------

  datatype Setup = Setup(g: Graph<()>, memory: seq<HashMinDev>)

  ghost predicate Proper(p: Setup) {
    |p.g| == |p.memory| && Wellformed(p.g) && forall v | 0 <= v < |p.g| :: !p.memory[v].s.changed
  }

  // A walk along edges from u to v
  ghost predicate Walk<E>(g: Graph<E>, u: nat, v: nat, walk: seq<nat>) {
    && walk != [] && walk[0] == u && walk[|walk| - 1] == v && (forall j | 0 <= j < |walk| :: walk[j] < |g|)
    && forall j | 0 <= j < |walk| - 1 :: Linked(g, walk[j], walk[j + 1])
  }

  ghost predicate Reaches<E>(g: Graph<E>, u: nat, v: nat) { exists walk :: Walk(g, u, v, walk) }

  // x is the number of a vertex that reaches v
  ghost predicate Comes(p: Setup, x: int, v: nat) {
    exists u: nat :: u < |p.memory| && Reaches(p.g, u, v) && p.memory[u].s.min == x
  }

  lemma ReachesOn<E>(g: Graph<E>, u: nat, v: nat, w: nat)
    requires Reaches(g, u, v) && v < |g| && w < |g| && Linked(g, v, w)
    ensures Reaches(g, u, w)
  {
    hide Linked;
    var walk :| Walk(g, u, v, walk);
    var more := walk + [w];
    assert forall j | 0 <= j < |more| - 1 :: Linked(g, more[j], more[j + 1]);
    assert Walk(g, u, w, more);
  }

  lemma ReachesSelf<E>(g: Graph<E>, v: nat)
    requires v < |g|
    ensures Reaches(g, v, v)
  {
    assert Walk(g, v, v, [v]);
  }

  type Air = multiset<Msg<int, ()>>

  // A number of at most x is on its way to v
  ghost predicate Coming(air: Air, v: nat, x: int) {
    exists m :: m in air && m.Deliver? && m.to == v && m.payload <= x
  }

  // v knows of what u knows, or will be told
  ghost predicate Told(dev: HashMinDev, dev': HashMinDev, air: Air, v: nat) {
    dev'.s.min <= dev.s.min || dev.rts == Out(0) || dev.s.changed || Coming(air, v, dev.s.min)
  }

  ghost predicate MinInv(p: Setup, w: World<HashMinState, int, ()>) {
    && |w.devs| == |p.g| == |p.memory|
    && (forall v | 0 <= v < |w.devs| ::
          && (w.devs[v].rts == No || w.devs[v].rts == Out(0))
          && Comes(p, w.devs[v].s.min, v) && w.devs[v].s.min <= p.memory[v].s.min)
    && (forall m | m in w.air && m.Deliver? && m.to < |p.g| :: Comes(p, m.payload, m.to))
    && (forall u: nat, v: nat | u < |p.g| && v < |p.g| && Linked(p.g, u, v) ::
          Told(w.devs[u], w.devs[v], w.air, v))
    && (!w.active ==>
          && (forall v | 0 <= v < |w.devs| :: w.devs[v].rts == No && !w.devs[v].s.changed)
          && (forall m | m in w.air :: m.ToHost?))
    && (w.done ==> !w.active)
  }

  lemma ComesSelf(p: Setup, v: nat)
    requires v < |p.g| == |p.memory|
    ensures Comes(p, p.memory[v].s.min, v)
  {
    ReachesSelf(p.g, v);
  }

  lemma MinBegins(p: Setup)
    requires Proper(p)
    ensures MinInv(p, Begin(HASHMIN, p.memory))
  {
    hide Linked, Reaches, Comes;
    var w := Begin(HASHMIN, p.memory);
    forall v | 0 <= v < |w.devs| ensures w.devs[v] == Init(p.memory[v]) && Comes(p, w.devs[v].s.min, v) {
      ComesSelf(p, v);
    }
  }

  lemma ComesOn(p: Setup, x: int, u: nat, v: nat)
    requires Comes(p, x, u) && u < |p.g| && v < |p.g| && Linked(p.g, u, v)
    ensures Comes(p, x, v)
  {
    hide Linked, Reaches;
    var y: nat :| y < |p.memory| && Reaches(p.g, y, u) && p.memory[y].s.min == x;
    ReachesOn(p.g, y, u, v);
  }

  lemma ComingMore(air: Air, air': Air, v: nat, x: int)
    requires air <= air'
    ensures Coming(air, v, x) ==> Coming(air', v, x)
  {
    if Coming(air, v, x) {
      var m :| m in air && m.Deliver? && m.to == v && m.payload <= x;
      assert m in air';
    }
  }

  lemma JustSent(g: Graph<()>, u: nat, v: nat, x: int, air: Air)
    requires u < |g| && Linked(g, u, v)
    ensures Coming(air + OnEdges(g[u], 0, x), v, x)
  {
    hide OnEdges;
    var i :| 0 <= i < |g[u]| && g[u][i].pin == 0 && g[u][i].to == v;
    OnEdgesHas(g[u], x, i);
    assert Deliver(v, g[u][i].edge, x) in air + OnEdges(g[u], 0, x);
  }

  lemma MinSends(p: Setup, w: World<HashMinState, int, ()>, w': World<HashMinState, int, ()>, d: nat)
    requires MinInv(p, w) && Sends(HASHMIN, p.g, w, w', d)
    ensures MinInv(p, w')
  {
    hide OnEdges, Comes;
    var dev := w.devs[d];
    assert w'.devs == w.devs[d := Dev(No, dev.s)] && w'.air == w.air + OnEdges(p.g[d], 0, dev.s.min);
    forall m | m in w'.air && m.Deliver? && m.to < |p.g| ensures Comes(p, m.payload, m.to) {
      if m !in w.air {
        OnEdgesAre(p.g[d], 0, dev.s.min, m);
        ComesOn(p, dev.s.min, d, m.to);
      }
    }
    forall u: nat, v: nat | u < |p.g| && v < |p.g| && Linked(p.g, u, v)
      ensures Told(w'.devs[u], w'.devs[v], w'.air, v)
    {
      assert Told(w.devs[u], w.devs[v], w.air, v);
      ComingMore(w.air, w'.air, v, w.devs[u].s.min);
      if u == d {
        JustSent(p.g, d, v, dev.s.min, w.air);
      }
    }
  }

  lemma MinReceives(p: Setup, w: World<HashMinState, int, ()>, w': World<HashMinState, int, ()>, m: Msg<int, ()>)
    requires MinInv(p, w) && Receives(HASHMIN, w, w', m)
    ensures MinInv(p, w')
  {
    hide Comes;
    assert w'.devs == w.devs[m.to := Recv(w.devs[m.to], m.payload, m.edge, Clock(w.time))];
    forall u: nat, v: nat | u < |p.g| && v < |p.g| && Linked(p.g, u, v)
      ensures Told(w'.devs[u], w'.devs[v], w'.air, v)
    {
      assert Told(w.devs[u], w.devs[v], w.air, v);
      ComingLess(w.air, m, v, w.devs[u].s.min);
    }
  }

  lemma ComingLess(air: Air, m: Msg<int, ()>, v: nat, x: int)
    requires m in air && m.Deliver?
    ensures Coming(air, v, x) ==> Coming(air - multiset{m}, v, x) || (m.to == v && m.payload <= x)
  {
    if Coming(air, v, x) {
      var c :| c in air && c.Deliver? && c.to == v && c.payload <= x;
      if c != m {
        assert c in air - multiset{m};
      }
    }
  }

  lemma MinSteps(p: Setup, w: World<HashMinState, int, ()>, w': World<HashMinState, int, ()>)
    requires MinInv(p, w) && Steps(HASHMIN, w, w')
    ensures MinInv(p, w')
  {
    hide Comes, Linked;
    forall v | 0 <= v < |w.devs|
      ensures w'.devs[v] == Step(w.devs[v], Clock(w.time)).0
      ensures HASHMIN.step(w.devs[v], Clock(w.time)).1 == w.devs[v].s.changed
    {
    }
    forall u: nat, v: nat | u < |p.g| && v < |p.g| && Linked(p.g, u, v)
      ensures Told(w'.devs[u], w'.devs[v], w'.air, v)
    {
      assert Told(w.devs[u], w.devs[v], w.air, v);
    }
    if !w'.active {
      forall v | 0 <= v < |w.devs| ensures w'.devs[v].rts == No && !w'.devs[v].s.changed {
        assert !HASHMIN.step(w.devs[v], Clock(w.time)).1;
      }
    }
  }

  lemma MinReplies(p: Setup, w: World<HashMinState, int, ()>, w': World<HashMinState, int, ()>, d: nat)
    requires MinInv(p, w) && Replies(HASHMIN, w, w', d)
    ensures MinInv(p, w')
  {
    hide Comes, Linked;
    assert HASHMIN.finish(w.devs[d], Clock(w.time)) == (w.devs[d], Says(w.devs[d].s.min));
    assert w'.devs == w.devs;
    forall u: nat, v: nat | u < |p.g| && v < |p.g| && Linked(p.g, u, v)
      ensures Told(w.devs[u], w.devs[v], w'.air, v)
    {
      assert Told(w.devs[u], w.devs[v], w.air, v);
      ComingMore(w.air, w'.air, v, w.devs[u].s.min);
    }
  }

  lemma MinEnds(p: Setup, v: World<HashMinState, int, ()>, w: World<HashMinState, int, ()>)
    requires MinInv(p, v) && Ends(v, w)
    ensures MinInv(p, w)
  {
    hide Comes, Linked;
  }

  lemma {:induction false} MinRuns(p: Setup, w: World<HashMinState, int, ()>, n: nat)
    requires Proper(p) && Reach(HASHMIN, p.g, Begin(HASHMIN, p.memory), w, n)
    ensures MinInv(p, w)
    decreases n
  {
    hide Proper, MinInv, Begin, Sends, Receives, Replies, Steps;
    if n == 0 {
      MinBegins(p);
    } else {
      var v :| Reach(HASHMIN, p.g, Begin(HASHMIN, p.memory), v, n - 1) && Next(HASHMIN, p.g, v, w);
      MinRuns(p, v, n - 1);
      if d :| Sends(HASHMIN, p.g, v, w, d) {
        MinSends(p, v, w, d);
      } else if m :| Receives(HASHMIN, v, w, m) {
        MinReceives(p, v, w, m);
      } else if d :| Replies(HASHMIN, v, w, d) {
        MinReplies(p, v, w, d);
      } else if Steps(HASHMIN, v, w) {
        MinSteps(p, v, w);
      } else {
        MinEnds(p, v, w);
      }
    }
  }

  // Along a walk, what is known can only get less
  lemma {:induction false} LessAlong(p: Setup, w: World<HashMinState, int, ()>, u: nat, v: nat, walk: seq<nat>)
    requires |w.devs| == |p.g| && Walk(p.g, u, v, walk)
    requires forall x: nat, y: nat | x < |p.g| && y < |p.g| && Linked(p.g, x, y) :: w.devs[y].s.min <= w.devs[x].s.min
    ensures w.devs[v].s.min <= w.devs[u].s.min
    decreases |walk|
  {
    hide Linked;
    var n := |walk| - 1;
    if n > 0 {
      LessAlong(p, w, u, walk[n - 1], walk[..n]);
      assert Linked(p.g, walk[n - 1], walk[n - 1 + 1]);
    }
  }

  // When the run has ended, every vertex has the least number of all the
  // vertices that reach it
  lemma MinCorrect(p: Setup, w: World<HashMinState, int, ()>, v: nat)
    requires Proper(p) && Reachable(HASHMIN, p.g, p.memory, w) && v < |p.g|
    ensures |w.devs| == |p.g| && Comes(p, w.devs[v].s.min, v)
    ensures w.done ==>
      forall u: nat | u < |p.g| && Reaches(p.g, u, v) :: w.devs[v].s.min <= p.memory[u].s.min
  {
    hide Reach, Begin, Comes, Linked;
    var n: nat :| Reach(HASHMIN, p.g, Begin(HASHMIN, p.memory), w, n);
    MinRuns(p, w, n);
    if w.done {
      forall x: nat, y: nat | x < |p.g| && y < |p.g| && Linked(p.g, x, y)
        ensures w.devs[y].s.min <= w.devs[x].s.min
      {
        assert Told(w.devs[x], w.devs[y], w.air, y);
      }
      forall u: nat | u < |p.g| && Reaches(p.g, u, v) ensures w.devs[v].s.min <= p.memory[u].s.min {
        var walk :| Walk(p.g, u, v, walk);
        LessAlong(p, w, u, v, walk);
      }
    }
  }
}
