// Globally asynchronous, locally synchronous programs: every vertex sends one
// message on each edge in each of its steps, and moves on when it has one from
// each in-edge.  What is said and not yet taken in can be counted.
module Gals {
  import opened Vertices

  // How to read messages: the step a message belongs to, a weight, and what
  // vertex u says in step k
  datatype Spec<!M> = Spec(stamp: M -> nat, weight: M -> real, says: (nat, nat) -> M)

  ghost predicate SpecOk<M>(s: Spec<M>) {
    forall u, k :: s.stamp(s.says(u, k)) == k
  }

  // Weight of a message for step k of vertex v
  ghost function Weigh<M, E>(s: Spec<M>, m: Msg<M, E>, v: nat, k: nat): real {
    if m.Deliver? && m.to == v && s.stamp(m.payload) == k then s.weight(m.payload) else 0.0
  }

  ghost function InAir<M, E>(s: Spec<M>, air: multiset<Msg<M, E>>, v: nat, k: nat): real
    decreases |air|
  {
    if air == multiset{} then 0.0
    else
      var m :| m in air;
      Weigh(s, m, v, k) + InAir(s, air - multiset{m}, v, k)
  }

  lemma {:induction false} InAirAny<M, E>(s: Spec<M>, air: multiset<Msg<M, E>>, v: nat, k: nat, m: Msg<M, E>)
    requires m in air
    ensures InAir(s, air, v, k) == Weigh(s, m, v, k) + InAir(s, air - multiset{m}, v, k)
    decreases |air|
  {
    hide Weigh;
    var c := InAirPick(s, air, v, k);
    if c != m {
      hide InAir;
      InAirAny(s, air - multiset{c}, v, k, m);
      InAirAny(s, air - multiset{m}, v, k, c);
      assert air - multiset{c} - multiset{m} == air - multiset{m} - multiset{c};
    }
  }

  lemma InAirPick<M, E>(s: Spec<M>, air: multiset<Msg<M, E>>, v: nat, k: nat) returns (c: Msg<M, E>)
    requires air != multiset{}
    ensures c in air && InAir(s, air, v, k) == Weigh(s, c, v, k) + InAir(s, air - multiset{c}, v, k)
  {
    hide Weigh;
    c :| c in air && InAir(s, air, v, k) == Weigh(s, c, v, k) + InAir(s, air - multiset{c}, v, k);
  }

  lemma {:induction false} InAirUnion<M, E>(s: Spec<M>, a: multiset<Msg<M, E>>, b: multiset<Msg<M, E>>, v: nat, k: nat)
    ensures InAir(s, a + b, v, k) == InAir(s, a, v, k) + InAir(s, b, v, k)
    decreases |b|
  {
    hide Weigh;
    if b == multiset{} {
      assert a + b == a;
    } else {
      var m :| m in b;
      hide InAir;
      InAirAny(s, b, v, k, m);
      InAirAny(s, a + b, v, k, m);
      assert a + b - multiset{m} == a + (b - multiset{m});
      InAirUnion(s, a, b - multiset{m}, v, k);
    }
  }

  lemma {:induction false} InAirNone<M, E>(s: Spec<M>, air: multiset<Msg<M, E>>, v: nat, k: nat)
    requires forall m | m in air :: Weigh(s, m, v, k) == 0.0
    ensures InAir(s, air, v, k) == 0.0
    decreases |air|
  {
    hide Weigh;
    if air != multiset{} {
      var c := InAirPick(s, air, v, k);
      InAirNone(s, air - multiset{c}, v, k);
    }
  }

  ghost predicate Positive<M(!new)>(s: Spec<M>) { forall m :: s.weight(m) >= 0.0 }

  lemma {:induction false} InAirPositive<M(!new), E>(s: Spec<M>, air: multiset<Msg<M, E>>, v: nat, k: nat)
    requires Positive(s)
    ensures InAir(s, air, v, k) >= 0.0
    decreases |air|
  {
    if air != multiset{} {
      var c := InAirPick(s, air, v, k);
      InAirPositive(s, air - multiset{c}, v, k);
    }
  }

  // If nothing weighs anything, then no message with a weight is in the air
  lemma InAirEmpty<M(!new), E>(s: Spec<M>, air: multiset<Msg<M, E>>, v: nat, k: nat, m: Msg<M, E>)
    requires Positive(s) && m in air && InAir(s, air, v, k) <= 0.0
    ensures Weigh(s, m, v, k) == 0.0
  {
    InAirAny(s, air, v, k, m);
    InAirPositive(s, air - multiset{m}, v, k);
  }

  // ---------------------------------------------------------------------
  // What has been said for step k of vertex v by the first n vertices, when
  // vertex u has said sent[u] things

  // What vertex u says on its edges in step k, by the weight for vertex v
  ghost function Said<M, E>(s: Spec<M>, g: Graph<E>, u: nat, v: nat, k: nat): real
    requires u < |g|
  {
    InAir(s, OnEdges(g[u], 0, s.says(u, k)), v, k)
  }

  ghost function Expected<M, E>(s: Spec<M>, g: Graph<E>, sent: seq<nat>, v: nat, k: nat, n: nat): real
    requires n <= |g| == |sent|
  {
    if n == 0 then 0.0
    else Expected(s, g, sent, v, k, n - 1) + if k < sent[n - 1] then Said(s, g, n - 1, v, k) else 0.0
  }

  // ... when all of them have spoken
  ghost function Total<M, E>(s: Spec<M>, g: Graph<E>, v: nat, k: nat, n: nat): real
    requires n <= |g|
  {
    if n == 0 then 0.0 else Total(s, g, v, k, n - 1) + Said(s, g, n - 1, v, k)
  }

  // There is an edge from u to v
  ghost predicate Linked<E>(g: Graph<E>, u: nat, v: nat) {
    u < |g| && exists i :: 0 <= i < |g[u]| && g[u][i].pin == 0 && g[u][i].to == v
  }

  // An account: what has been taken in, for each vertex and step
  type Account = (nat, nat) -> real

  // Everything said has been taken in or is in the air
  ghost predicate Balanced<M, E>(s: Spec<M>, g: Graph<E>, sent: seq<nat>, taken: Account, air: multiset<Msg<M, E>>)
    requires |g| == |sent|
  {
    forall v: nat, k: nat | v < |g| :: taken(v, k) + InAir(s, air, v, k) == Expected(s, g, sent, v, k, |g|)
  }

  // Messages come along edges, and say what their sender says in their step
  ghost predicate Sincere<M, E>(s: Spec<M>, g: Graph<E>, sent: seq<nat>, air: multiset<Msg<M, E>>)
    requires |g| == |sent|
  {
    forall m | m in air && m.Deliver? :: SaidBySomeone(s, g, sent, m)
  }

  ghost predicate SaidBySomeone<M, E>(s: Spec<M>, g: Graph<E>, sent: seq<nat>, m: Msg<M, E>)
    requires |g| == |sent| && m.Deliver?
  {
    exists u: nat | u < |g| ::
      Linked(g, u, m.to) && s.stamp(m.payload) < sent[u] && m.payload == s.says(u, s.stamp(m.payload))
  }

  // ---------------------------------------------------------------------

  lemma {:induction false} OnEdgesAre<M, E>(edges: seq<Edge<E>>, pin: nat, payload: M, m: Msg<M, E>)
    requires m in OnEdges(edges, pin, payload)
    ensures m.Deliver? && m.payload == payload
    ensures exists i :: 0 <= i < |edges| && edges[i].pin == pin && edges[i].to == m.to
    decreases |edges|
  {
    var n := |edges| - 1;
    if m in OnEdges(edges[..n], pin, payload) {
      OnEdgesAre(edges[..n], pin, payload, m);
      var i :| 0 <= i < n && edges[..n][i].pin == pin && edges[..n][i].to == m.to;
      assert edges[i].pin == pin && edges[i].to == m.to;
    } else {
      assert edges[n].pin == pin && edges[n].to == m.to;
    }
  }

  lemma {:induction false} OnEdgesHas<M, E>(edges: seq<Edge<E>>, payload: M, i: nat)
    requires i < |edges| && edges[i].pin == 0
    ensures Deliver(edges[i].to, edges[i].edge, payload) in OnEdges(edges, 0, payload)
    decreases |edges|
  {
    if i < |edges| - 1 {
      OnEdgesHas(edges[..|edges| - 1], payload, i);
    }
  }

  lemma SaidElsewhere<M, E>(s: Spec<M>, g: Graph<E>, u: nat, v: nat, k: nat, j: nat)
    requires u < |g| && SpecOk(s) && (k != j || !Linked(g, u, v))
    ensures InAir(s, OnEdges(g[u], 0, s.says(u, j)), v, k) == 0.0
  {
    forall m | m in OnEdges(g[u], 0, s.says(u, j)) ensures Weigh(s, m, v, k) == 0.0 {
      OnEdgesAre(g[u], 0, s.says(u, j), m);
    }
    InAirNone(s, OnEdges(g[u], 0, s.says(u, j)), v, k);
  }

  lemma {:induction false} ExpectedMore<M, E>(s: Spec<M>, g: Graph<E>, sent: seq<nat>, u: nat, v: nat, k: nat, n: nat)
    requires n <= |g| == |sent| && u < |g|
    ensures Expected(s, g, sent[u := sent[u] + 1], v, k, n)
         == Expected(s, g, sent, v, k, n) + if u < n && k == sent[u] then Said(s, g, u, v, k) else 0.0
    decreases n
  {
    hide Said;
    if n > 0 {
      ExpectedMore(s, g, sent, u, v, k, n - 1);
    }
  }

  // A vertex says the next thing
  lemma AfterSend<M, E>(s: Spec<M>, g: Graph<E>, sent: seq<nat>, taken: Account, air: multiset<Msg<M, E>>, u: nat)
    requires |g| == |sent| && u < |g| && SpecOk(s) && Balanced(s, g, sent, taken, air) && Sincere(s, g, sent, air)
    ensures var air' := air + OnEdges(g[u], 0, s.says(u, sent[u]));
      Balanced(s, g, sent[u := sent[u] + 1], taken, air') && Sincere(s, g, sent[u := sent[u] + 1], air')
  {
    var more := OnEdges(g[u], 0, s.says(u, sent[u]));
    var sent' := sent[u := sent[u] + 1];
    forall v: nat, k: nat | v < |g|
      ensures taken(v, k) + InAir(s, air + more, v, k) == Expected(s, g, sent', v, k, |g|)
    {
      hide InAir, Expected, OnEdges, Weigh, Linked;
      InAirUnion(s, air, more, v, k);
      ExpectedMore(s, g, sent, u, v, k, |g|);
      if k != sent[u] {
        SaidElsewhere(s, g, u, v, k, sent[u]);
      }
    }
    forall m | m in air + more && m.Deliver? ensures SaidBySomeone(s, g, sent', m) {
      SincereMore(s, g, sent, air, u, m);
    }
  }

  lemma SincereMore<M, E>(s: Spec<M>, g: Graph<E>, sent: seq<nat>, air: multiset<Msg<M, E>>, u: nat, m: Msg<M, E>)
    requires |g| == |sent| && u < |g| && SpecOk(s) && Sincere(s, g, sent, air)
    requires m in air + OnEdges(g[u], 0, s.says(u, sent[u])) && m.Deliver?
    ensures SaidBySomeone(s, g, sent[u := sent[u] + 1], m)
  {
    var sent' := sent[u := sent[u] + 1];
    hide OnEdges;
    if m in OnEdges(g[u], 0, s.says(u, sent[u])) {
      OnEdgesAre(g[u], 0, s.says(u, sent[u]), m);
      assert Linked(g, u, m.to) && s.stamp(m.payload) < sent'[u];
    } else {
      assert SaidBySomeone(s, g, sent, m);
      var w: nat :| w < |g| && Linked(g, w, m.to) && s.stamp(m.payload) < sent[w] && m.payload == s.says(w, s.stamp(m.payload));
      assert s.stamp(m.payload) < sent'[w];
    }
  }

  // A message is taken in
  lemma AfterReceive<M, E>(s: Spec<M>, g: Graph<E>, sent: seq<nat>, taken: Account, taken': Account,
                           air: multiset<Msg<M, E>>, m: Msg<M, E>)
    requires |g| == |sent| && Balanced(s, g, sent, taken, air) && Sincere(s, g, sent, air) && m in air
    requires forall v: nat, k: nat | v < |g| :: taken'(v, k) == taken(v, k) + Weigh(s, m, v, k)
    ensures Balanced(s, g, sent, taken', air - multiset{m}) && Sincere(s, g, sent, air - multiset{m})
  {
    forall v: nat, k: nat | v < |g|
      ensures taken'(v, k) + InAir(s, air - multiset{m}, v, k) == Expected(s, g, sent, v, k, |g|)
    {
      hide InAir, Expected, Weigh;
      InAirAny(s, air, v, k, m);
    }
  }

  // ---------------------------------------------------------------------
  // Never more than from everyone, and if as much as from everyone then
  // everyone with an edge has spoken

  lemma {:induction false} SaidPositive<M(!new), E>(s: Spec<M>, g: Graph<E>, u: nat, v: nat, k: nat)
    requires Positive(s) && u < |g|
    ensures Said(s, g, u, v, k) >= 0.0
  {
    InAirPositive(s, OnEdges(g[u], 0, s.says(u, k)), v, k);
  }

  lemma {:induction false} ExpectedBound<M(!new), E>(s: Spec<M>, g: Graph<E>, sent: seq<nat>, v: nat, k: nat, n: nat)
    requires Positive(s) && n <= |g| == |sent|
    ensures 0.0 <= Expected(s, g, sent, v, k, n) <= Total(s, g, v, k, n)
    ensures Expected(s, g, sent, v, k, n) == Total(s, g, v, k, n) ==>
      forall u | 0 <= u < n && Said(s, g, u, v, k) > 0.0 :: k < sent[u]
    decreases n
  {
    hide Said;
    if n > 0 {
      ExpectedBound(s, g, sent, v, k, n - 1);
      SaidPositive(s, g, n - 1, v, k);
    }
  }

  lemma {:induction false} ExpectedAll<M, E>(s: Spec<M>, g: Graph<E>, sent: seq<nat>, v: nat, k: nat, n: nat)
    requires n <= |g| == |sent| && forall u | 0 <= u < n :: k < sent[u] || Said(s, g, u, v, k) == 0.0
    ensures Expected(s, g, sent, v, k, n) == Total(s, g, v, k, n)
    decreases n
  {
    hide Said;
    if n > 0 {
      ExpectedAll(s, g, sent, v, k, n - 1);
    }
  }

  // Counting: every message has weight one
  ghost predicate Counts<M(!new)>(s: Spec<M>) { forall m :: s.weight(m) == 1.0 }

  ghost function EdgesTo<E>(edges: seq<Edge<E>>, v: nat): nat {
    if edges == [] then 0
    else
      var e := edges[|edges| - 1];
      EdgesTo(edges[..|edges| - 1], v) + if e.pin == 0 && e.to == v then 1 else 0
  }

  // Number of edges to v from the first n vertices
  ghost function FanIn<E>(g: Graph<E>, v: nat, n: nat): nat
    requires n <= |g|
  {
    if n == 0 then 0 else FanIn(g, v, n - 1) + EdgesTo(g[n - 1], v)
  }

  ghost function Times(n: nat, x: real): real { n as real * x }

  lemma TimesMore(n: nat, x: real)
    ensures Times(n + 1, x) == Times(n, x) + x && Times(0, x) == 0.0 && Times(n, 1.0) == n as real
  {
    assert (n + 1) as real == n as real + 1.0;
  }

  // A message on each edge weighs as much as its weight times the edges
  lemma {:induction false} EdgesToWeigh<M, E>(s: Spec<M>, edges: seq<Edge<E>>, v: nat, payload: M)
    ensures InAir(s, OnEdges(edges, 0, payload), v, s.stamp(payload)) == Times(EdgesTo(edges, v), s.weight(payload))
    decreases |edges|
  {
    hide Times;
    if edges == [] {
      TimesMore(0, s.weight(payload));
    } else {
      var n := |edges| - 1;
      var e := edges[n];
      EdgesToWeigh(s, edges[..n], v, payload);
      if e.pin == 0 {
        LastEdgeWeighs(s, edges, v, payload);
        TimesMore(EdgesTo(edges[..n], v), s.weight(payload));
      } else {
        assert OnEdges(edges, 0, payload) == OnEdges(edges[..n], 0, payload);
      }
    }
  }

  lemma LastEdgeWeighs<M, E>(s: Spec<M>, edges: seq<Edge<E>>, v: nat, payload: M)
    requires edges != [] && edges[|edges| - 1].pin == 0
    ensures InAir(s, OnEdges(edges, 0, payload), v, s.stamp(payload))
         == InAir(s, OnEdges(edges[..|edges| - 1], 0, payload), v, s.stamp(payload))
          + if edges[|edges| - 1].to == v then s.weight(payload) else 0.0
  {
    var n := |edges| - 1;
    var m := Deliver(edges[n].to, edges[n].edge, payload);
    hide InAir;
    InAirUnion(s, OnEdges(edges[..n], 0, payload), multiset{m}, v, s.stamp(payload));
    InAirOne(s, m, v, s.stamp(payload));
  }

  lemma EdgesToCounts<M(!new), E>(s: Spec<M>, edges: seq<Edge<E>>, v: nat, payload: M)
    requires Counts(s)
    ensures InAir(s, OnEdges(edges, 0, payload), v, s.stamp(payload)) == EdgesTo(edges, v) as real
  {
    hide InAir, OnEdges, EdgesTo, Times;
    EdgesToWeigh(s, edges, v, payload);
    TimesMore(EdgesTo(edges, v), 1.0);
  }

  lemma InAirOne<M, E>(s: Spec<M>, m: Msg<M, E>, v: nat, k: nat)
    ensures InAir(s, multiset{m}, v, k) == Weigh(s, m, v, k)
  {
    InAirAny(s, multiset{m}, v, k, m);
    assert multiset{m} - multiset{m} == multiset{};
  }

  lemma {:induction false} TotalCounts<M(!new), E>(s: Spec<M>, g: Graph<E>, v: nat, k: nat, n: nat)
    requires Counts(s) && SpecOk(s) && n <= |g|
    ensures Total(s, g, v, k, n) == FanIn(g, v, n) as real
    decreases n
  {
    if n > 0 {
      TotalCounts(s, g, v, k, n - 1);
      EdgesToCounts(s, g[n - 1], v, s.says(n - 1, k));
    }
  }

  lemma {:induction false} LinkedCounts<E>(edges: seq<Edge<E>>, v: nat, i: nat)
    requires i < |edges| && edges[i].pin == 0 && edges[i].to == v
    ensures EdgesTo(edges, v) > 0
    decreases |edges|
  {
    if i < |edges| - 1 {
      LinkedCounts(edges[..|edges| - 1], v, i);
    }
  }

  lemma SaidLinked<M(!new), E>(s: Spec<M>, g: Graph<E>, u: nat, v: nat, k: nat)
    requires Counts(s) && SpecOk(s) && Linked(g, u, v)
    ensures Said(s, g, u, v, k) > 0.0
  {
    var i :| 0 <= i < |g[u]| && g[u][i].pin == 0 && g[u][i].to == v;
    LinkedCounts(g[u], v, i);
    EdgesToCounts(s, g[u], v, s.says(u, k));
  }

  // When a vertex has something from each of its in-edges, every vertex with
  // an edge to it has spoken, and nothing for that step is in the air
  lemma Full<M(!new), E>(s: Spec<M>, g: Graph<E>, sent: seq<nat>, taken: Account, air: multiset<Msg<M, E>>,
                         v: nat, k: nat)
    requires Counts(s) && SpecOk(s) && |g| == |sent| && v < |g| && Balanced(s, g, sent, taken, air)
    requires taken(v, k) == FanIn(g, v, |g|) as real
    ensures forall u: nat | u < |g| && Linked(g, u, v) :: k < sent[u]
    ensures forall m | m in air && m.Deliver? && m.to == v :: s.stamp(m.payload) != k
  {
    hide InAir, Expected, Total, FanIn, Linked;
    TotalCounts(s, g, v, k, |g|);
    InAirPositive(s, air, v, k);
    ExpectedBound(s, g, sent, v, k, |g|);
    forall u: nat | u < |g| && Linked(g, u, v) ensures k < sent[u] {
      SaidLinked(s, g, u, v, k);
    }
    forall m | m in air && m.Deliver? && m.to == v ensures s.stamp(m.payload) != k {
      InAirEmpty(s, air, v, k, m);
    }
  }

  // What has been taken in is never more than the number of in-edges
  lemma TakenBound<M(!new), E>(s: Spec<M>, g: Graph<E>, sent: seq<nat>, taken: Account, air: multiset<Msg<M, E>>,
                               v: nat, k: nat)
    requires Counts(s) && SpecOk(s) && |g| == |sent| && v < |g| && Balanced(s, g, sent, taken, air)
    ensures taken(v, k) <= FanIn(g, v, |g|) as real
    ensures (exists m :: m in air && m.Deliver? && m.to == v && s.stamp(m.payload) == k) ==>
      taken(v, k) < FanIn(g, v, |g|) as real
  {
    hide InAir, Expected, Total, FanIn, Linked;
    TotalCounts(s, g, v, k, |g|);
    InAirPositive(s, air, v, k);
    ExpectedBound(s, g, sent, v, k, |g|);
    if m :| m in air && m.Deliver? && m.to == v && s.stamp(m.payload) == k {
      if InAir(s, air, v, k) <= 0.0 {
        InAirEmpty(s, air, v, k, m);
      }
    }
  }

  // If every vertex with an edge to v has spoken and nothing is in the air,
  // then v has taken in something from each of its in-edges
  lemma AllTaken<M(!new), E>(s: Spec<M>, g: Graph<E>, sent: seq<nat>, taken: Account, air: multiset<Msg<M, E>>,
                             v: nat, k: nat)
    requires Counts(s) && SpecOk(s) && |g| == |sent| && v < |g| && Balanced(s, g, sent, taken, air)
    requires forall u: nat | u < |g| && Linked(g, u, v) :: k < sent[u]
    requires forall m | m in air :: m.ToHost?
    ensures taken(v, k) == FanIn(g, v, |g|) as real
  {
    hide InAir, Expected, Total, FanIn, Linked;
    TotalCounts(s, g, v, k, |g|);
    InAirNone(s, air, v, k);
    forall u | 0 <= u < |g| ensures k < sent[u] || Said(s, g, u, v, k) == 0.0 {
      if !Linked(g, u, v) {
        SaidElsewhere(s, g, u, v, k, k);
      }
    }
    ExpectedAll(s, g, sent, v, k, |g|);
  }

  // What is left out of the account is in the air; when nothing is in the air
  // and all have spoken, all of it has been taken in
  lemma AllWeighed<M, E>(s: Spec<M>, g: Graph<E>, sent: seq<nat>, taken: Account, air: multiset<Msg<M, E>>,
                         v: nat, k: nat)
    requires SpecOk(s) && |g| == |sent| && v < |g| && Balanced(s, g, sent, taken, air)
    requires forall u: nat | u < |g| && Linked(g, u, v) :: k < sent[u]
    requires forall m | m in air && m.Deliver? && m.to == v :: s.stamp(m.payload) != k
    ensures taken(v, k) == Total(s, g, v, k, |g|)
  {
    hide InAir, Expected, Total, Linked;
    InAirNone(s, air, v, k);
    forall u | 0 <= u < |g| ensures k < sent[u] || Said(s, g, u, v, k) == 0.0 {
      if !Linked(g, u, v) {
        SaidElsewhere(s, g, u, v, k, k);
      }
    }
    ExpectedAll(s, g, sent, v, k, |g|);
  }

  // Messages to the host are in no account
  lemma AfterReply<M, E>(s: Spec<M>, g: Graph<E>, sent: seq<nat>, taken: Account, air: multiset<Msg<M, E>>,
                         replies: multiset<Msg<M, E>>)
    requires |g| == |sent| && Balanced(s, g, sent, taken, air) && Sincere(s, g, sent, air)
    requires forall m | m in replies :: m.ToHost?
    ensures Balanced(s, g, sent, taken, air + replies) && Sincere(s, g, sent, air + replies)
  {
    forall v: nat, k: nat | v < |g|
      ensures taken(v, k) + InAir(s, air + replies, v, k) == Expected(s, g, sent, v, k, |g|)
    {
      hide InAir, Expected;
      InAirUnion(s, air, replies, v, k);
      InAirNone(s, replies, v, k);
    }
  }

  // Accounts that agree are as good as each other
  lemma SameAccount<M, E>(s: Spec<M>, g: Graph<E>, sent: seq<nat>, taken: Account, taken': Account,
                          air: multiset<Msg<M, E>>)
    requires |g| == |sent| && Balanced(s, g, sent, taken, air)
    requires forall v: nat, k: nat | v < |g| :: taken'(v, k) == taken(v, k)
    ensures Balanced(s, g, sent, taken', air)
  {
  }

  // At the start nothing has been said
  lemma {:induction false} NothingSaid<M, E>(s: Spec<M>, g: Graph<E>, sent: seq<nat>, v: nat, k: nat, n: nat)
    requires n <= |g| == |sent| && forall u | 0 <= u < |g| :: sent[u] == 0
    ensures Expected(s, g, sent, v, k, n) == 0.0
    decreases n
  {
    hide Said;
    if n > 0 {
      NothingSaid(s, g, sent, v, k, n - 1);
    }
  }

  lemma AtStart<M, E>(s: Spec<M>, g: Graph<E>, sent: seq<nat>, taken: Account)
    requires |g| == |sent| && forall u | 0 <= u < |g| :: sent[u] == 0
    requires forall v: nat, k: nat | v < |g| :: taken(v, k) == 0.0
    ensures Balanced<M, E>(s, g, sent, taken, multiset{}) && Sincere<M, E>(s, g, sent, multiset{})
  {
    forall v: nat, k: nat | v < |g| ensures Expected(s, g, sent, v, k, |g|) == 0.0 {
      NothingSaid(s, g, sent, v, k, |g|);
    }
  }
}
