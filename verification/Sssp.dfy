// Asynchronous single-source shortest paths on 32-bit distances.
module Sssp {
  import opened Vertices
  import opened Endings

  const MAX: nat := 0x7fff_ffff

  datatype SSSPState = SSSPState(isSource: bool, dist: int)

  type SSSPDev = Dev<SSSPState>

  // Sums of 32-bit integers wrap around
  function Int32(x: int): int { (x + 0x8000_0000) % 0x1_0000_0000 - 0x8000_0000 }

  function Init(dev: SSSPDev): SSSPDev { Dev(if dev.s.isSource then Out(0) else No, dev.s) }

  function Send(dev: SSSPDev, time: nat): (SSSPDev, int) { (Dev(No, dev.s), dev.s.dist) }

  function Recv(dev: SSSPDev, dist: int, weight: int, time: nat): SSSPDev {
    var newDist := Int32(dist + weight);
    if newDist < dev.s.dist then Dev(Out(0), dev.s.(dist := newDist)) else dev
  }

  function Step(dev: SSSPDev, time: nat): (SSSPDev, bool) { (dev, false) }

  function Finish(dev: SSSPDev, time: nat): (SSSPDev, Reply<int>) { (dev, Says(dev.s.dist)) }

  const SSSP: App<SSSPState, int, int> := App(Init, Send, Recv, Step, Finish)

  class SSSPDevice {
    var s: SSSPState
    var readyToSend: Pin

    function View(): SSSPDev
      reads this
    {
      Dev(readyToSend, s)
    }

    constructor (isSource: bool)
      ensures View() == Dev(No, SSSPState(isSource, if isSource then 0 else MAX))
    {
      s, readyToSend := SSSPState(isSource, if isSource then 0 else MAX), No;
    }

    method CallInit()
      modifies this
      ensures View() == old(Init(View()))
    {
      readyToSend := if s.isSource then Out(0) else No;
    }

    method CallSend(time: nat) returns (msg: int)
      modifies this
      ensures (View(), msg) == old(Send(View(), time))
    {
      msg := s.dist;
      readyToSend := No;
    }

    method CallRecv(dist: int, weight: int, time: nat)
      modifies this
      ensures View() == old(Recv(View(), dist, weight, time))
    {
      var newDist := Int32(dist + weight);
      if newDist < s.dist {
        s := s.(dist := newDist);
        readyToSend := Out(0);
      }
    }
  }

  // ---------------------------------------------------------------------
  // Paths from the source

  datatype Setup = Setup(g: Graph<int>, memory: seq<SSSPDev>, source: nat)

  datatype Hop = Hop(start: nat, end: nat, weight: int)

  ghost predicate IsEdge(g: Graph<int>, h: Hop) {
    h.start < |g| && exists i :: 0 <= i < |g[h.start]| && g[h.start][i] == Edge(0, h.end, h.weight)
  }

  ghost predicate PathTo(p: Setup, path: seq<Hop>, v: nat) {
    if path == [] then v == p.source
    else
      var h := path[|path| - 1];
      h.end == v && IsEdge(p.g, h) && PathTo(p, path[..|path| - 1], h.start)
  }

  ghost function Len(path: seq<Hop>): int {
    if path == [] then 0 else Len(path[..|path| - 1]) + path[|path| - 1].weight
  }

  // The vertices on a path
  ghost function Visited(p: Setup, path: seq<Hop>): set<nat> {
    if path == [] then {p.source} else Visited(p, path[..|path| - 1]) + {path[|path| - 1].end}
  }

  // No vertex comes twice
  ghost predicate Simple(p: Setup, path: seq<Hop>) {
    path == [] || (Simple(p, path[..|path| - 1]) && path[|path| - 1].end !in Visited(p, path[..|path| - 1]))
  }

  // Edges between vertices, all on pin 0 and with non-negative weights of 32
  // bits; the source is at distance 0 and the others at the largest integer
  ghost predicate Proper(p: Setup) {
    && |p.g| == |p.memory| && p.source < |p.g| && Wellformed(p.g)
    && (forall u, i | 0 <= u < |p.g| && 0 <= i < |p.g[u]| :: p.g[u][i].pin == 0 && 0 <= p.g[u][i].edge <= MAX)
    && (forall v: nat | v < |p.g| ::
          p.memory[v].s == SSSPState(v == p.source, if v == p.source then 0 else MAX))
  }

  // A path without repetitions, and one edge more, stay within 32 bits
  ghost predicate Fits(p: Setup) {
    forall path: seq<Hop>, h: Hop |
      PathTo(p, path, h.start) && Simple(p, path) && Len(path) < MAX && IsEdge(p.g, h) :: Len(path) + h.weight <= MAX
  }

  // ---------------------------------------------------------------------
  // The invariant

  // The vertex where a path is after all but its last n hops
  ghost function EndOf(p: Setup, path: seq<Hop>): nat {
    if path == [] then p.source else path[|path| - 1].end
  }

  // Every vertex on the path is known to be no further than the path says
  ghost predicate Under(p: Setup, devs: seq<SSSPDev>, path: seq<Hop>) {
    && EndOf(p, path) < |devs| && devs[EndOf(p, path)].s.dist <= Len(path)
    && (path != [] ==> Under(p, devs, path[..|path| - 1]))
  }

  // x is the length of a path to v that is known all along
  ghost predicate Found(p: Setup, devs: seq<SSSPDev>, v: nat, x: int) {
    exists path :: PathTo(p, path, v) && Simple(p, path) && Len(path) == x && Under(p, devs, path)
  }

  ghost predicate MsgOk(p: Setup, devs: seq<SSSPDev>, m: Msg<int, int>)
    requires m.Deliver?
  {
    m.payload < MAX && exists u: nat :: Found(p, devs, u, m.payload) && IsEdge(p.g, Hop(u, m.to, m.edge))
  }

  // v has heard of the way over u, or will
  ghost predicate Told(devs: seq<SSSPDev>, air: multiset<Msg<int, int>>, h: Hop) {
    h.start < |devs| && h.end < |devs| ==>
      || devs[h.start].s.dist >= MAX
      || devs[h.end].s.dist <= devs[h.start].s.dist + h.weight
      || devs[h.start].rts == Out(0)
      || Deliver(h.end, h.weight, devs[h.start].s.dist) in air
  }

  ghost predicate DevOk(p: Setup, devs: seq<SSSPDev>, v: nat)
    requires v < |devs|
  {
    && devs[v].s.dist <= MAX && (devs[v].s.dist < MAX ==> Found(p, devs, v, devs[v].s.dist))
    && (devs[v].rts == No || (devs[v].rts == Out(0) && devs[v].s.dist < MAX))
  }

  ghost predicate SsspInv(p: Setup, w: World<SSSPState, int, int>) {
    && |w.devs| == |p.g| && p.source < |p.g|
    && (forall v | 0 <= v < |w.devs| :: DevOk(p, w.devs, v))
    && (forall m | m in w.air && m.Deliver? :: MsgOk(p, w.devs, m))
    && (forall h | IsEdge(p.g, h) :: Told(w.devs, w.air, h))
    && w.devs[p.source].s.dist <= 0
    && (w.done ==> Quiet(w))
    && (forall d | d in w.asked :: d < |p.g|)
  }

  // Distances never grow, so what is known stays known
  lemma {:induction false} UnderStays(p: Setup, devs: seq<SSSPDev>, devs': seq<SSSPDev>, path: seq<Hop>)
    requires |devs'| == |devs| && forall v | 0 <= v < |devs| :: devs'[v].s.dist <= devs[v].s.dist
    requires Under(p, devs, path)
    ensures Under(p, devs', path)
    decreases |path|
  {
    if path != [] {
      UnderStays(p, devs, devs', path[..|path| - 1]);
    }
  }

  lemma FoundStays(p: Setup, devs: seq<SSSPDev>, devs': seq<SSSPDev>, v: nat, x: int)
    requires |devs'| == |devs| && forall v | 0 <= v < |devs| :: devs'[v].s.dist <= devs[v].s.dist
    requires Found(p, devs, v, x)
    ensures Found(p, devs', v, x)
  {
    var path :| PathTo(p, path, v) && Simple(p, path) && Len(path) == x && Under(p, devs, path);
    UnderStays(p, devs, devs', path);
  }

  lemma {:induction false} PathPositive(p: Setup, path: seq<Hop>, v: nat)
    requires Proper(p) && PathTo(p, path, v)
    ensures Len(path) >= 0
    decreases |path|
  {
    if path != [] {
      var h := path[|path| - 1];
      PathPositive(p, path[..|path| - 1], h.start);
      var i :| 0 <= i < |p.g[h.start]| && p.g[h.start][i] == Edge(0, h.end, h.weight);
    }
  }

  // A vertex on a known path is no further away than the whole path is long
  lemma {:induction false} OnPath(p: Setup, devs: seq<SSSPDev>, path: seq<Hop>, u: nat, v: nat)
    requires Proper(p) && PathTo(p, path, u) && Under(p, devs, path) && v in Visited(p, path)
    ensures v < |devs| && devs[v].s.dist <= Len(path)
    decreases |path|
  {
    if path != [] && v != path[|path| - 1].end {
      var h := path[|path| - 1];
      OnPath(p, devs, path[..|path| - 1], h.start, v);
      var i :| 0 <= i < |p.g[h.start]| && p.g[h.start][i] == Edge(0, h.end, h.weight);
    }
  }

  lemma FoundPositive(p: Setup, devs: seq<SSSPDev>, v: nat, x: int)
    requires Proper(p) && Found(p, devs, v, x)
    ensures x >= 0
  {
    var path :| PathTo(p, path, v) && Simple(p, path) && Len(path) == x && Under(p, devs, path);
    PathPositive(p, path, v);
  }

  lemma WeightRange(p: Setup, h: Hop)
    requires Proper(p) && IsEdge(p.g, h)
    ensures 0 <= h.weight <= MAX && h.end < |p.g|
  {
    var i :| 0 <= i < |p.g[h.start]| && p.g[h.start][i] == Edge(0, h.end, h.weight);
  }

  // A message does not overflow, and brings a longer known path if it brings
  // an improvement
  lemma Improves(p: Setup, devs: seq<SSSPDev>, m: Msg<int, int>, devs': seq<SSSPDev>)
    requires Proper(p) && Fits(p) && |devs| == |p.g| && m.Deliver? && MsgOk(p, devs, m) && m.to < |devs|
    requires devs' == devs[m.to := Recv(devs[m.to], m.payload, m.edge, 0)]
    ensures 0 <= m.payload + m.edge <= MAX
    ensures var x := m.payload + m.edge;
      devs'[m.to] == if x < devs[m.to].s.dist then Dev(Out(0), devs[m.to].s.(dist := x)) else devs[m.to]
    ensures m.payload + m.edge < devs[m.to].s.dist ==> Found(p, devs', m.to, m.payload + m.edge)
  {
    hide Under, Visited, Len, Simple, PathTo, IsEdge;
    var v := m.to;
    var u: nat :| Found(p, devs, u, m.payload) && IsEdge(p.g, Hop(u, v, m.edge));
    var h := Hop(u, v, m.edge);
    var path :| PathTo(p, path, u) && Simple(p, path) && Len(path) == m.payload && Under(p, devs, path);
    WeightRange(p, h);
    PathPositive(p, path, u);
    assert Int32(m.payload + m.edge) == m.payload + m.edge;
    if m.payload + m.edge < devs[v].s.dist {
      if v in Visited(p, path) {
        OnPath(p, devs, path, u, v);
        assert false;
      }
      UnderStays(p, devs, devs', path);
      LongerPath(p, devs', path, h);
    }
  }

  lemma LongerPath(p: Setup, devs: seq<SSSPDev>, path: seq<Hop>, h: Hop)
    requires PathTo(p, path, h.start) && Simple(p, path) && Under(p, devs, path) && IsEdge(p.g, h)
    requires h.end < |devs| && devs[h.end].s.dist == Len(path) + h.weight && h.end !in Visited(p, path)
    ensures Found(p, devs, h.end, Len(path) + h.weight)
  {
    var more := path + [h];
    assert more[..|path|] == path;
    assert PathTo(p, more, h.end) && Simple(p, more) && Len(more) == Len(path) + h.weight && Under(p, devs, more);
  }

  // ---------------------------------------------------------------------
  // Every run

  lemma SsspBegins(p: Setup)
    requires Proper(p)
    ensures SsspInv(p, Begin(SSSP, p.memory))
  {
    var w := Begin(SSSP, p.memory);
    assert w.devs[p.source] == Init(p.memory[p.source]);
    assert PathTo(p, [], p.source) && Simple(p, []) && Len([]) == 0 && Under(p, w.devs, []);
    hide Found, IsEdge;
    forall v | 0 <= v < |w.devs| ensures w.devs[v] == Init(p.memory[v]) {
    }
  }

  lemma SsspSends(p: Setup, w: World<SSSPState, int, int>, w': World<SSSPState, int, int>, d: nat)
    requires Proper(p) && SsspInv(p, w) && Sends(SSSP, p.g, w, w', d)
    ensures SsspInv(p, w')
  {
    hide OnEdges, Found;
    var dev := w.devs[d];
    assert DevOk(p, w.devs, d);
    assert w'.devs == w.devs[d := Dev(No, dev.s)] && w'.air == w.air + OnEdges(p.g[d], 0, dev.s.dist);
    forall v | 0 <= v < |w.devs| ensures DevOk(p, w'.devs, v) {
      assert DevOk(p, w.devs, v);
      if w.devs[v].s.dist < MAX {
        FoundStays(p, w.devs, w'.devs, v, w.devs[v].s.dist);
      }
    }
    forall m | m in w'.air && m.Deliver? ensures MsgOk(p, w'.devs, m) {
      if m in w.air {
        MsgStays(p, w.devs, w'.devs, m);
      } else {
        SentOn(p, d, dev.s.dist, m);
        assert DevOk(p, w'.devs, d);
      }
    }
    hide IsEdge;
    forall h | IsEdge(p.g, h) ensures Told(w'.devs, w'.air, h) {
      assert Told(w.devs, w.air, h);
      if h.start == d {
        SentAlong(p.g, h, dev.s.dist);
      }
    }
  }

  lemma MsgStays(p: Setup, devs: seq<SSSPDev>, devs': seq<SSSPDev>, m: Msg<int, int>)
    requires |devs'| == |devs| && forall v | 0 <= v < |devs| :: devs'[v].s.dist <= devs[v].s.dist
    requires m.Deliver? && MsgOk(p, devs, m)
    ensures MsgOk(p, devs', m)
  {
    hide Found, IsEdge;
    var u: nat :| Found(p, devs, u, m.payload) && IsEdge(p.g, Hop(u, m.to, m.edge));
    FoundStays(p, devs, devs', u, m.payload);
  }

  lemma {:induction false} OnEdgesHop(edges: seq<Edge<int>>, x: int, m: Msg<int, int>) returns (i: nat)
    requires m in OnEdges(edges, 0, x)
    ensures i < |edges| && m == Deliver(edges[i].to, edges[i].edge, x) && edges[i].pin == 0
    decreases |edges|
  {
    var n := |edges| - 1;
    if m in OnEdges(edges[..n], 0, x) {
      i := OnEdgesHop(edges[..n], x, m);
    } else {
      i := n;
    }
  }

  lemma SentOn(p: Setup, d: nat, x: int, m: Msg<int, int>)
    requires d < |p.g| && m in OnEdges(p.g[d], 0, x)
    ensures m.Deliver? && m.payload == x && IsEdge(p.g, Hop(d, m.to, m.edge))
  {
    hide OnEdges;
    var i := OnEdgesHop(p.g[d], x, m);
    assert p.g[d][i] == Edge(0, m.to, m.edge);
  }

  lemma {:induction false} OnEdgesHas(edges: seq<Edge<int>>, x: int, i: nat)
    requires i < |edges| && edges[i].pin == 0
    ensures Deliver(edges[i].to, edges[i].edge, x) in OnEdges(edges, 0, x)
    decreases |edges|
  {
    if i < |edges| - 1 {
      OnEdgesHas(edges[..|edges| - 1], x, i);
    }
  }

  lemma SentAlong(g: Graph<int>, h: Hop, x: int)
    requires IsEdge(g, h)
    ensures Deliver(h.end, h.weight, x) in OnEdges(g[h.start], 0, x)
  {
    var i :| 0 <= i < |g[h.start]| && g[h.start][i] == Edge(0, h.end, h.weight);
    OnEdgesHas(g[h.start], x, i);
  }

  lemma SsspReceives(p: Setup, w: World<SSSPState, int, int>, w': World<SSSPState, int, int>, m: Msg<int, int>)
    requires Proper(p) && Fits(p) && SsspInv(p, w) && Receives(SSSP, w, w', m)
    ensures SsspInv(p, w')
  {
    hide OnEdges, Found, IsEdge, Fits, Proper, MsgOk, Told, DevOk;
    var v := m.to;
    assert DevOk(p, w.devs, v);
    assert w'.devs == w.devs[v := Recv(w.devs[v], m.payload, m.edge, 0)];
    Improves(p, w.devs, m, w'.devs);
    forall u | 0 <= u < |w.devs| ensures DevOk(p, w'.devs, u) {
      ReceivedDev(p, w.devs, w'.devs, v, u, m.payload + m.edge);
    }
    forall c | c in w'.air && c.Deliver? ensures MsgOk(p, w'.devs, c) {
      MsgStays(p, w.devs, w'.devs, c);
    }
    forall h | IsEdge(p.g, h) ensures Told(w'.devs, w'.air, h) {
      ReceivedTold(w.devs, w'.devs, w.air, m, h);
    }
    SourceStays(p, w.devs, w'.devs, v);
  }

  lemma SourceStays(p: Setup, devs: seq<SSSPDev>, devs': seq<SSSPDev>, v: nat)
    requires v < |devs| && p.source < |devs| && devs[p.source].s.dist <= 0
    requires |devs'| == |devs| && devs' == devs[v := devs'[v]] && devs'[v].s.dist <= devs[v].s.dist
    ensures devs'[p.source].s.dist <= 0
  {
  }

  lemma ReceivedDev(p: Setup, devs: seq<SSSPDev>, devs': seq<SSSPDev>, v: nat, u: nat, x: int)
    requires v < |devs| && |devs'| == |devs| && u < |devs| && DevOk(p, devs, u) && DevOk(p, devs, v)
    requires devs' == devs[v := if x < devs[v].s.dist then Dev(Out(0), devs[v].s.(dist := x)) else devs[v]]
    requires x < devs[v].s.dist ==> Found(p, devs', v, x)
    ensures DevOk(p, devs', u)
  {
    hide Found;
    if (u != v || x >= devs[v].s.dist) && devs[u].s.dist < MAX {
      FoundStays(p, devs, devs', u, devs[u].s.dist);
    }
  }

  lemma ReceivedTold(devs: seq<SSSPDev>, devs': seq<SSSPDev>, air: multiset<Msg<int, int>>, m: Msg<int, int>, h: Hop)
    requires Told(devs, air, h) && m in air && m.Deliver? && m.to < |devs| && |devs'| == |devs|
    requires var x := m.payload + m.edge;
      devs' == devs[m.to := if x < devs[m.to].s.dist then Dev(Out(0), devs[m.to].s.(dist := x)) else devs[m.to]]
    ensures Told(devs', air - multiset{m}, h)
  {
  }

  lemma SsspSteps(p: Setup, w: World<SSSPState, int, int>, w': World<SSSPState, int, int>)
    requires Proper(p) && SsspInv(p, w) && Steps(SSSP, w, w')
    ensures SsspInv(p, w') && w'.devs == w.devs && !w'.active
  {
    hide Found, IsEdge, Proper, MsgOk, Told;
    forall v | 0 <= v < |w.devs| ensures w'.devs[v] == w.devs[v] {
      assert SSSP.step(w.devs[v], Clock(w.time)) == (w.devs[v], false);
    }
    assert w'.devs == w.devs;
  }

  lemma SsspReplies(p: Setup, w: World<SSSPState, int, int>, w': World<SSSPState, int, int>, d: nat)
    requires SsspInv(p, w) && Replies(SSSP, w, w', d)
    ensures SsspInv(p, w') && w'.devs == w.devs
  {
    hide Found, IsEdge, MsgOk;
    assert SSSP.finish(w.devs[d], Clock(w.time)) == (w.devs[d], Says(w.devs[d].s.dist));
    assert w'.devs == w.devs;
    forall h | IsEdge(p.g, h) ensures Told(w'.devs, w'.air, h) {
      assert Told(w.devs, w.air, h);
    }
  }

  lemma SsspEnds(p: Setup, v: World<SSSPState, int, int>, w: World<SSSPState, int, int>)
    requires SsspInv(p, v) && Ends(v, w)
    ensures SsspInv(p, w)
  {
    hide Found, IsEdge, MsgOk, Told;
  }

  lemma SsspNext(p: Setup, v: World<SSSPState, int, int>, w: World<SSSPState, int, int>)
    requires Proper(p) && Fits(p) && SsspInv(p, v) && Next(SSSP, p.g, v, w)
    ensures SsspInv(p, w)
  {
    hide Proper, Fits, SsspInv, Sends, Receives, Replies, Steps;
    if d :| Sends(SSSP, p.g, v, w, d) {
      SsspSends(p, v, w, d);
    } else if m :| Receives(SSSP, v, w, m) {
      SsspReceives(p, v, w, m);
    } else if d :| Replies(SSSP, v, w, d) {
      SsspReplies(p, v, w, d);
    } else if Steps(SSSP, v, w) {
      SsspSteps(p, v, w);
    } else {
      SsspEnds(p, v, w);
    }
  }

  lemma {:induction false} SsspRuns(p: Setup, w: World<SSSPState, int, int>, n: nat)
    requires Proper(p) && Fits(p) && Reach(SSSP, p.g, Begin(SSSP, p.memory), w, n)
    ensures SsspInv(p, w)
    decreases n
  {
    hide Proper, Fits, SsspInv, Begin, Next;
    if n == 0 {
      SsspBegins(p);
    } else {
      var v :| Reach(SSSP, p.g, Begin(SSSP, p.memory), v, n - 1) && Next(SSSP, p.g, v, w);
      SsspRuns(p, v, n - 1);
      SsspNext(p, v, w);
    }
  }

  // When nothing is left to do, no path is shorter than the known distance
  lemma {:induction false} NoShorter(p: Setup, w: World<SSSPState, int, int>, path: seq<Hop>, v: nat)
    requires Proper(p) && SsspInv(p, w) && Quiet(w) && PathTo(p, path, v)
    ensures v < |p.g| && w.devs[v].s.dist <= Len(path)
    decreases |path|
  {
    hide Found, MsgOk;
    if path != [] {
      var h := path[|path| - 1];
      NoShorter(p, w, path[..|path| - 1], h.start);
      WeightRange(p, h);
      assert Told(w.devs, w.air, h);
      assert DevOk(p, w.devs, h.end);
    }
  }

  // Every finite distance is the length of a real path; no vertex that has not
  // been reached ever wants to send; and when nothing is left to do, every
  // distance is that of a shortest path, or the largest integer if there is
  // none that is shorter than that
  lemma SsspCorrect(p: Setup, w: World<SSSPState, int, int>, v: nat)
    requires Proper(p) && Fits(p) && Reachable(SSSP, p.g, p.memory, w) && v < |p.g|
    ensures |w.devs| == |p.g| && 0 <= w.devs[v].s.dist <= MAX
    ensures w.devs[v].s.dist < MAX ==> exists path :: PathTo(p, path, v) && Len(path) == w.devs[v].s.dist
    ensures w.devs[v].rts != No ==> w.devs[v].s.dist < MAX
    ensures Quiet(w) || w.done ==> forall path | PathTo(p, path, v) :: w.devs[v].s.dist <= Len(path)
  {
    hide Reach, Begin;
    var n: nat :| Reach(SSSP, p.g, Begin(SSSP, p.memory), w, n);
    SsspRuns(p, w, n);
    hide Fits, IsEdge, Proper;
    assert DevOk(p, w.devs, v);
    if w.devs[v].s.dist < MAX {
      FoundPositive(p, w.devs, v, w.devs[v].s.dist);
    }
    if Quiet(w) || w.done {
      forall path | PathTo(p, path, v) ensures w.devs[v].s.dist <= Len(path) {
        NoShorter(p, w, path, v);
      }
    }
  }

  // ---------------------------------------------------------------------
  // Every run ends

  // How much nearer the source a vertex can still be found to be
  function Left(dev: SSSPDev): nat { if dev.s.dist < 0 then 0 else dev.s.dist }

  // Every step lowers the sum of the distances, or leaves it and is a step towards the end
  lemma StepLowers(p: Setup, v: World<SSSPState, int, int>, w: World<SSSPState, int, int>)
    requires Proper(p) && Fits(p) && SsspInv(p, v) && Next(SSSP, p.g, v, w)
    ensures Lower(RankOf(w, Left), RankOf(v, Left))
  {
    hide Proper, Fits, SsspInv, Sends, Receives, Replies, Steps, Ends, RankOf, Lower;
    if d :| Sends(SSSP, p.g, v, w, d) {
      JustSends(p, v, w, d);
      SendLowers(SSSP, p.g, Left, v, w, d);
    } else if m :| Receives(SSSP, v, w, m) {
      Nears(p, v, w, m);
      ReceiveLowers(SSSP, Left, v, w, m);
    } else if d :| Replies(SSSP, v, w, d) {
      SsspReplies(p, v, w, d);
      ReplyLowers(SSSP, Left, v, w, d);
    } else if Steps(SSSP, v, w) {
      SsspSteps(p, v, w);
      Endings.StepLowers(SSSP, Left, v, w);
    } else {
      EndLowers(Left, v, w);
    }
  }

  lemma JustSends(p: Setup, v: World<SSSPState, int, int>, w: World<SSSPState, int, int>, d: nat)
    requires Sends(SSSP, p.g, v, w, d)
    ensures w.devs[d] == Dev(No, v.devs[d].s)
  {
    hide OnEdges;
  }

  lemma Nears(p: Setup, v: World<SSSPState, int, int>, w: World<SSSPState, int, int>, m: Msg<int, int>)
    requires Proper(p) && Fits(p) && SsspInv(p, v) && Receives(SSSP, v, w, m)
    ensures Left(w.devs[m.to]) < Left(v.devs[m.to]) || w.devs[m.to] == v.devs[m.to]
  {
    hide Proper, Fits, Found, MsgOk, Told, Quiet;
    assert w.devs == v.devs[m.to := Recv(v.devs[m.to], m.payload, m.edge, 0)];
    assert MsgOk(p, v.devs, m);
    Improves(p, v.devs, m, w.devs);
  }

  lemma NoInfiniteRun(p: Setup, run: nat -> World<SSSPState, int, int>)
    requires Proper(p) && Fits(p) && SsspInv(p, run(0))
    ensures exists j: nat :: !Proceeds(SSSP, p.g, run, j)
  {
    hide Proper, Fits, SsspInv, RankOf, Next;
    if forall j: nat :: Proceeds(SSSP, p.g, run, j) {
      forall j: nat ensures Descends(Left, run, j) {
        InvAlong(p, run, j);
        assert Proceeds(SSSP, p.g, run, j);
        StepLowers(p, run(j), run(j + 1));
      }
      NoDescent(Left, run, 0);
    }
  }

  lemma SsspEnding(p: Setup)
    requires Proper(p) && Fits(p)
    ensures Ending(SSSP, p.g, p.memory, Left)
  {
    hide Proper, Fits, SsspInv, Reach, Begin, RankOf, Lower, Next;
    forall v, w | Reachable(SSSP, p.g, p.memory, v) && Next(SSSP, p.g, v, w) ensures Lower(RankOf(w, Left), RankOf(v, Left)) {
      var n: nat :| Reach(SSSP, p.g, Begin(SSSP, p.memory), v, n);
      SsspRuns(p, v, n);
      StepLowers(p, v, w);
    }
  }

  lemma {:induction false} InvAlong(p: Setup, run: nat -> World<SSSPState, int, int>, i: nat)
    requires Proper(p) && Fits(p) && SsspInv(p, run(0)) && forall j: nat :: Proceeds(SSSP, p.g, run, j)
    ensures SsspInv(p, run(i))
  {
    hide Proper, Fits, SsspInv, Next;
    if i > 0 {
      InvAlong(p, run, i - 1);
      assert Proceeds(SSSP, p.g, run, i - 1);
      SsspNext(p, run(i - 1), run(i));
    }
  }

  // ---------------------------------------------------------------------
  // Without the bound, some run goes wrong

  lemma Prefix(p: Setup, path: seq<Hop>, v: nat)
    requires Proper(p) && path != [] && PathTo(p, path, v)
    ensures var n := |path| - 1;
      0 <= Len(path[..n]) <= Len(path) && path[n].start < |p.g| && v < |p.g| && 0 <= path[n].weight <= MAX
  {
    var h := path[|path| - 1];
    PathPositive(p, path[..|path| - 1], h.start);
    WeightRange(p, h);
    EdgeFrom(p, h);
  }

  lemma EdgeFrom(p: Setup, h: Hop)
    requires IsEdge(p.g, h)
    ensures h.start < |p.g|
  {
  }

  // The world after device u has sent and the message along h has been received
  lemma Relay(p: Setup, w: World<SSSPState, int, int>, h: Hop) returns (w': World<SSSPState, int, int>)
    requires Proper(p) && Reachable(SSSP, p.g, p.memory, w) && |w.devs| == |p.g| && !w.done && IsEdge(p.g, h)
    requires w.devs[h.start].rts == Out(0)
    ensures Reachable(SSSP, p.g, p.memory, w') && |w'.devs| == |p.g| && !w'.done && h.end < |p.g|
    ensures var u := w.devs[h.start];
      var devs := w.devs[h.start := Dev(No, u.s)];
      w'.devs == devs[h.end := Recv(devs[h.end], u.s.dist, h.weight, 0)]
  {
    hide Reachable, OnEdges;
    WeightRange(p, h);
    var u := w.devs[h.start];
    var mid := w.(devs := w.devs[h.start := Dev(No, u.s)], air := w.air + OnEdges(p.g[h.start], 0, u.s.dist));
    assert Sends(SSSP, p.g, w, mid, h.start);
    ReachNext(SSSP, p.g, p.memory, w, mid);
    SentAlong(p.g, h, u.s.dist);
    var m := Deliver(h.end, h.weight, u.s.dist);
    assert m in mid.air;
    w' := mid.(devs := mid.devs[h.end := Recv(mid.devs[h.end], u.s.dist, h.weight, 0)], air := mid.air - multiset{m});
    assert Receives(SSSP, mid, w', m);
    NextByReceive(SSSP, p.g, mid, w', m);
    ReachNext(SSSP, p.g, p.memory, mid, w');
  }

  // A run that follows a path
  lemma {:induction false} Follow(p: Setup, path: seq<Hop>, v: nat) returns (w: World<SSSPState, int, int>)
    requires Proper(p) && PathTo(p, path, v) && Simple(p, path) && Len(path) < MAX
    ensures Reachable(SSSP, p.g, p.memory, w) && |w.devs| == |p.g| && !w.done && v < |p.g|
    ensures w.devs[v].rts == Out(0) && w.devs[v].s.dist == Len(path)
    ensures forall u: nat | u < |p.g| && u !in Visited(p, path) :: w.devs[u].s.dist == MAX
    ensures forall u | 0 <= u < |p.g| :: w.devs[u].s.dist >= 0
    decreases |path|
  {
    hide Reachable, IsEdge;
    if path == [] {
      w := Begin(SSSP, p.memory);
      ReachBegin(SSSP, p.g, p.memory);
      forall u | 0 <= u < |p.g| ensures w.devs[u] == Init(p.memory[u]) {
      }
    } else {
      var h := path[|path| - 1];
      Prefix(p, path, v);
      var w1 := Follow(p, path[..|path| - 1], h.start);
      w := Relay(p, w1, h);
    }
  }

  // The algorithm keeps to real distances in all its runs exactly if no path
  // without repetitions, made longer by one edge, exceeds the range
  lemma FitsExactly(p: Setup)
    requires Proper(p)
    ensures Fits(p) <==> forall w, v: nat | Reachable(SSSP, p.g, p.memory, w) && v < |p.g| && |w.devs| == |p.g| ::
      w.devs[v].s.dist >= 0
  {
    hide Reachable, Proper, IsEdge, Visited, Simple, Len, PathTo;
    if Fits(p) {
      forall w, v: nat | Reachable(SSSP, p.g, p.memory, w) && v < |p.g| && |w.devs| == |p.g|
        ensures w.devs[v].s.dist >= 0
      {
        SsspCorrect(p, w, v);
      }
    } else {
      var path: seq<Hop>, h: Hop :| PathTo(p, path, h.start) && Simple(p, path) && Len(path) < MAX
        && IsEdge(p.g, h) && Len(path) + h.weight > MAX;
      var w := Follow(p, path, h.start);
      WeightRange(p, h);
      var w' := Relay(p, w, h);
      assert Int32(Len(path) + h.weight) < 0;
      assert w'.devs[h.end].s.dist < 0;
    }
  }
}
