// Placement of the parts of a graph on a 2D mesh by local search.
module Placers {
  import opened NodeGraphs
  import opened Searches

  const MAX64: nat := 0xffff_ffff_ffff_ffff

  function Gap(a: nat, b: nat): nat { if a >= b then a - b else b - a }

  // Manhattan distance of two parts on the mesh
  function Dist(xs: seq<nat>, ys: seq<nat>, i: nat, j: nat): nat {
    if i < |xs| && j < |xs| && |ys| == |xs| then Gap(xs[i], xs[j]) + Gap(ys[i], ys[j]) else 0
  }

  // Sum of the products of distance and connection count, for i and the first m parts
  ghost function CostRow(conn: Weight, xs: seq<nat>, ys: seq<nat>, i: nat, m: nat): int {
    if m == 0 then 0 else CostRow(conn, xs, ys, i, m - 1) + Dist(xs, ys, i, m - 1) * conn(i, m - 1)
  }

  ghost function Cost(conn: Weight, xs: seq<nat>, ys: seq<nat>, n: nat): int {
    if n == 0 then 0 else Cost(conn, xs, ys, n - 1) + CostRow(conn, xs, ys, n - 1, n - 1)
  }

  // ---------------------------------------------------------------------
  // The cost is the sum of the distances that the edges span

  function PartOf(part: seq<nat>, x: nat): nat { if x < |part| then part[x] else 0 }

  // 1 for an edge from part a to part b
  function Is(part: seq<nat>, a: nat, b: nat): Weight {
    (x: nat, y: nat) => if PartOf(part, x) == a && PartOf(part, y) == b then 1 else 0
  }

  // Number of connections between two parts, seen from both ends of an edge
  function Connections(part: seq<nat>, edges: seq<(nat, nat)>): Weight {
    (a: nat, b: nat) => EdgeSum(edges, Is(part, a, b)) + EdgeSum(edges, Is(part, b, a))
  }

  // Distance between the mesh positions of the ends of an edge
  function Span(part: seq<nat>, xs: seq<nat>, ys: seq<nat>): Weight {
    (x: nat, y: nat) => Dist(xs, ys, PartOf(part, x), PartOf(part, y))
  }

  lemma DistSymmetric(xs: seq<nat>, ys: seq<nat>, i: nat, j: nat)
    ensures Dist(xs, ys, i, j) == Dist(xs, ys, j, i) && Dist(xs, ys, i, i) == 0
  {
  }

  // One connection more, counted from both ends
  ghost predicate Bumped(conn: Weight, conn': Weight, p: nat, q: nat) {
    forall a: nat, b: nat :: conn'(a, b) ==
      conn(a, b) + (if a == p && b == q then 1 else 0) + (if a == q && b == p then 1 else 0)
  }

  lemma {:induction false} RowBump(conn: Weight, conn': Weight, p: nat, q: nat,
                                   xs: seq<nat>, ys: seq<nat>, i: nat, m: nat)
    requires Bumped(conn, conn', p, q) && m <= i
    ensures CostRow(conn', xs, ys, i, m) == CostRow(conn, xs, ys, i, m)
      + (if i == p && q < m then Dist(xs, ys, p, q) else 0) + (if i == q && p < m then Dist(xs, ys, q, p) else 0)
    decreases m
  {
    hide Dist;
    if m > 0 {
      RowBump(conn, conn', p, q, xs, ys, i, m - 1);
      var extra := (if i == p && m - 1 == q then 1 else 0) + (if i == q && m - 1 == p then 1 else 0);
      Distribute(Dist(xs, ys, i, m - 1), conn(i, m - 1), extra);
    }
  }

  lemma Distribute(d: int, a: int, b: int)
    ensures d * (a + b) == d * a + d * b
  {
  }

  lemma {:induction false} CostBump(conn: Weight, conn': Weight, p: nat, q: nat, xs: seq<nat>, ys: seq<nat>, n: nat)
    requires Bumped(conn, conn', p, q)
    ensures Cost(conn', xs, ys, n) == Cost(conn, xs, ys, n)
      + (if q < p < n then Dist(xs, ys, p, q) else 0) + (if p < q < n then Dist(xs, ys, q, p) else 0)
    decreases n
  {
    hide Dist;
    if n > 0 {
      CostBump(conn, conn', p, q, xs, ys, n - 1);
      RowBump(conn, conn', p, q, xs, ys, n - 1, n - 1);
    }
  }

  lemma {:induction false} NoCost(conn: Weight, xs: seq<nat>, ys: seq<nat>, n: nat)
    requires forall a: nat, b: nat :: conn(a, b) == 0
    ensures Cost(conn, xs, ys, n) == 0
    decreases n
  {
    hide Dist;
    if n > 0 {
      NoCost(conn, xs, ys, n - 1);
      NoRow(conn, xs, ys, n - 1, n - 1);
    }
  }

  lemma {:induction false} NoRow(conn: Weight, xs: seq<nat>, ys: seq<nat>, i: nat, m: nat)
    requires forall a: nat, b: nat :: conn(a, b) == 0
    ensures CostRow(conn, xs, ys, i, m) == 0
    decreases m
  {
    hide Dist;
    if m > 0 {
      NoRow(conn, xs, ys, i, m - 1);
    }
  }

  lemma {:induction false} CostIsDistance(part: seq<nat>, edges: seq<(nat, nat)>, xs: seq<nat>, ys: seq<nat>, n: nat)
    requires |xs| == |ys| == n && forall x: nat :: PartOf(part, x) < n
    ensures Cost(Connections(part, edges), xs, ys, n) == EdgeSum(edges, Span(part, xs, ys))
    decreases |edges|
  {
    hide Dist, Cost;
    if edges == [] {
      NoCost(Connections(part, edges), xs, ys, n);
    } else {
      var k := |edges| - 1;
      var p, q := PartOf(part, edges[k].0), PartOf(part, edges[k].1);
      CostIsDistance(part, edges[..k], xs, ys, n);
      CostBump(Connections(part, edges[..k]), Connections(part, edges), p, q, xs, ys, n);
      DistSymmetric(xs, ys, p, q);
    }
  }

  // ---------------------------------------------------------------------
  // Counting connections from the lists of the graph

  lemma {:induction false} RowSame(row: seq<nat>, x: nat, f: Weight, h: Weight)
    requires forall x, y :: f(x, y) == h(x, y)
    ensures RowSum(row, x, f) == RowSum(row, x, h)
  {
    if row != [] {
      RowSame(row[..|row| - 1], x, f, h);
    }
  }

  lemma {:induction false} RowsSame(rows: seq<seq<nat>>, f: Weight, h: Weight, n: nat)
    requires n <= |rows| && forall x, y :: f(x, y) == h(x, y)
    ensures RowsSum(rows, f, n) == RowsSum(rows, h, n)
    decreases n
  {
    if n > 0 {
      RowsSame(rows, f, h, n - 1);
      RowSame(rows[n - 1], n - 1, f, h);
    }
  }

  // Entries of the lists of the first n nodes
  ghost function Listed(g: NodeGraph, part: seq<nat>, n: nat): Weight
    requires g.Shape() && n <= g.Size()
  {
    (a: nat, b: nat) => RowsSum(g.incoming, Is(part, a, b), n) + RowsSum(g.outgoing, Is(part, a, b), n)
  }

  lemma ListedConnections(g: NodeGraph, part: seq<nat>, edges: seq<(nat, nat)>, a: nat, b: nat)
    requires HasEdges(g, edges)
    ensures Listed(g, part, g.Size())(a, b) == Connections(part, edges)(a, b)
  {
    RowsSame(g.incoming, Is(part, a, b), Flip(Is(part, b, a)), g.Size());
  }

  // ---------------------------------------------------------------------
  // Placements

  // Positions of the parts and parts at the positions are inverse to each other
  ghost predicate Inverse(mapping: array2<nat>, xs: seq<nat>, ys: seq<nat>, width: nat, height: nat)
    reads mapping
  {
    && mapping.Length0 == height && mapping.Length1 == width && |xs| == |ys| == width * height
    && (forall p | 0 <= p < |xs| :: xs[p] < width && ys[p] < height && mapping[ys[p], xs[p]] == p)
    && (forall x, y | 0 <= x < width && 0 <= y < height ::
          mapping[y, x] < |xs| && xs[mapping[y, x]] == x && ys[mapping[y, x]] == y)
  }

  function Swapped(s: seq<nat>, p: nat, q: nat): seq<nat>
    requires p < |s| && q < |s|
  {
    s[p := s[q]][q := s[p]]
  }

  // The swaps that the local search tries
  predicate Tried(width: nat, height: nat, x: nat, y: nat, x': nat, y': nat) {
    && x + 1 < width && y + 1 < height
    && ((x' == x + 1 && y' == y) || (x' == x && y' == y + 1) || (x' == x + 1 && y' == y + 1))
  }

  ghost predicate NoGain(conn: Weight, xs: seq<nat>, ys: seq<nat>, p: nat, q: nat)
    requires |xs| == |ys| && p < |xs| && q < |xs|
  {
    Cost(conn, Swapped(xs, p, q), Swapped(ys, p, q), |xs|) >= Cost(conn, xs, ys, |xs|)
  }

  // No swap that the search tries lowers the cost
  ghost predicate Settled(conn: Weight, xs: seq<nat>, ys: seq<nat>, width: nat, height: nat)
    requires |xs| == |ys|
  {
    forall p, q | 0 <= p < |xs| && 0 <= q < |xs| && Tried(width, height, xs[p], ys[p], xs[q], ys[q]) ::
      NoGain(conn, xs, ys, p, q)
  }

  ghost predicate CostFits(conn: Weight, width: nat, height: nat) {
    forall xs, ys: seq<nat> | |xs| == |ys| == width * height
      && (forall p | 0 <= p < |xs| :: xs[p] < width && ys[p] < height) :: 0 <= Cost(conn, xs, ys, |xs|) <= MAX64
  }

  lemma {:induction false} SumBound(edges: seq<(nat, nat)>, f: Weight, most: nat)
    requires forall x, y :: 0 <= f(x, y) <= most
    ensures 0 <= EdgeSum(edges, f) <= |edges| * most
    decreases |edges|
  {
    if edges != [] {
      var k := |edges| - 1;
      SumBound(edges[..k], f, most);
      assert (k + 1) * most == k * most + most;
    }
  }

  // The cost of every placement fits in 64 bits when there are not too many edges
  lemma FewEdgesFit(part: seq<nat>, edges: seq<(nat, nat)>, width: nat, height: nat)
    requires width > 0 && height > 0 && |edges| * (width + height) <= MAX64
    requires forall v | 0 <= v < |part| :: part[v] < width * height
    ensures CostFits(Connections(part, edges), width, height)
  {
    hide Cost;
    forall xs, ys: seq<nat> | |xs| == |ys| == width * height
      && (forall p | 0 <= p < |xs| :: xs[p] < width && ys[p] < height)
      ensures 0 <= Cost(Connections(part, edges), xs, ys, |xs|) <= MAX64
    {
      PositionBound(0, 0, width, height);
      CostIsDistance(part, edges, xs, ys, |xs|);
      SumBound(edges, Span(part, xs, ys), width + height);
    }
  }

  lemma PositionBound(x: nat, y: nat, width: nat, height: nat)
    requires x < width && y < height
    ensures y * width + x < width * height
  {
    assert (y + 1) * width <= height * width;
  }

  // The partitioners
  datatype Method = Metis | Random | Direct | BFS

  // ---------------------------------------------------------------------
  // Sizes of the parts

  // Nodes seen so far, and those of them in part p
  ghost function Seen(seen: seq<bool>): set<nat> {
    set v: nat | v < |seen| && seen[v]
  }

  ghost function Members(part: seq<nat>, seen: seq<bool>, p: nat): set<nat>
    requires |part| == |seen|
  {
    set v: nat | v < |part| && seen[v] && part[v] == p
  }

  ghost function Nodes(part: seq<nat>, p: nat): set<nat> {
    set v: nat | v < |part| && part[v] == p
  }

  // No part has more than limit nodes
  ghost predicate Balanced(part: seq<nat>, limit: nat) {
    forall p: nat :: |Nodes(part, p)| <= limit
  }

  lemma OneMember(part: seq<nat>, seen: seq<bool>, v: nat, q: nat, p: nat)
    requires |part| == |seen| && v < |part| && !seen[v]
    ensures |Members(part[v := q], seen[v := true], p)| == |Members(part, seen, p)| + if p == q then 1 else 0
  {
    assert Members(part[v := q], seen[v := true], p) == Members(part, seen, p) + (if p == q then {v} else {});
  }

  lemma FactorOrder(a: nat, b: nat, c: nat)
    requires a * c < b * c
    ensures a < b
  {
  }

  lemma QuotientBelow(v: nat, size: nat, k: nat)
    requires size > 0 && v < k * size
    ensures v / size < k
  {
    FactorOrder(v / size, k, size);
  }

  lemma QuotientOrder(v: nat, w: nat, size: nat)
    requires size > 0 && v <= w
    ensures v / size <= w / size
  {
    FactorOrder(v / size, w / size + 1, size);
  }

  lemma {:induction false} Interval(s: set<nat>, lo: nat, n: nat)
    requires forall v | v in s :: lo <= v < lo + n
    ensures |s| <= n
    decreases n
  {
    if n == 0 {
      assert s == {};
    } else {
      Interval(s - {lo + n - 1}, lo, n - 1);
    }
  }

  // What has been seen fills the parts one after the other
  ghost predicate Filled(part: seq<nat>, seen: seq<bool>, size: nat, nextPart: nat, count: nat)
    requires |part| == |seen|
  {
    && (forall v | 0 <= v < |seen| && seen[v] :: part[v] <= nextPart)
    && (forall p | 0 <= p < nextPart :: |Members(part, seen, p)| == size)
    && |Members(part, seen, nextPart)| == count
    && |Seen(seen)| == nextPart * size + count
  }

  lemma FillOne(part: seq<nat>, seen: seq<bool>, size: nat, nextPart: nat, count: nat, v: nat)
    requires |part| == |seen| && v < |seen| && !seen[v] && Filled(part, seen, size, nextPart, count)
    ensures Filled(part[v := nextPart], seen[v := true], size, nextPart, count + 1)
  {
    hide Members;
    var part', seen' := part[v := nextPart], seen[v := true];
    forall p | 0 <= p < nextPart ensures |Members(part', seen', p)| == size {
      OneMember(part, seen, v, nextPart, p);
    }
    OneMember(part, seen, v, nextPart, nextPart);
    assert Seen(seen') == Seen(seen) + {v};
  }

  predicate Within(s: seq<nat>, n: nat) {
    forall i | 0 <= i < |s| :: s[i] < n
  }

  // The nodes of a list that have not been seen
  function Unseen(s: seq<nat>, seen: seq<bool>): (r: seq<nat>)
    requires Within(s, |seen|)
    ensures Within(r, |seen|)
  {
    if s == [] then []
    else Unseen(s[..|s| - 1], seen) + if seen[s[|s| - 1]] then [] else [s[|s| - 1]]
  }

  lemma {:induction false} UnseenAre(s: seq<nat>, seen: seq<bool>)
    requires Within(s, |seen|)
    ensures forall w :: w in Unseen(s, seen) <==> w in s && !seen[w]
    decreases |s|
  {
    if s != [] {
      UnseenAre(s[..|s| - 1], seen);
      assert s == s[..|s| - 1] + [s[|s| - 1]];
    }
  }

  lemma SeenMore(seen: seq<bool>, v: nat)
    requires v < |seen|
    ensures Seen(seen[v := true]) == Seen(seen) + {v}
  {
  }

  lemma SeenIs(seen: seq<bool>, v: nat)
    ensures v in Seen(seen) <==> v < |seen| && seen[v]
  {
  }

  lemma AllTaken(rows: seq<seq<nat>>, blocked: set<nat>, root: nat, nodes: set<nat>, k: nat, s: nat)
    requires Searching(rows, blocked, root, nodes, [], k, s)
    ensures TakesAll(rows, blocked, root, nodes)
  {
    forall j: nat ensures Ball(rows, blocked, root, j) <= nodes {
      SearchEnds(rows, blocked, root, nodes, k, s, j);
    }
  }

  // The nodes that join the frontier when v has just been taken
  lemma TakesOne(rows: seq<seq<nat>>, seen: seq<bool>, blocked: set<nat>, nodes: set<nat>, v: nat)
    requires v < |rows| == |seen| && Within(rows[v], |seen|) && Seen(seen) == blocked + nodes + {v}
    ensures forall w | w in Unseen(rows[v], seen) :: w in rows[v] && w !in blocked && w < |rows|
    ensures forall w | w in rows[v] && w < |rows| && w !in blocked :: w in nodes || w == v || w in Unseen(rows[v], seen)
  {
    hide Unseen;
    UnseenAre(rows[v], seen);
    forall w | w in rows[v] && w < |rows| ensures w in Seen(seen) <==> seen[w] {
    }
  }

  // The first node of a frontier is not blocked
  lemma FrontierOpen(rows: seq<seq<nat>>, blocked: set<nat>, root: nat, nodes: set<nat>, frontier: seq<nat>, k: nat,
                     s: nat)
    requires Searching(rows, blocked, root, nodes, frontier, k, s) && frontier != []
    ensures frontier[0] !in blocked
  {
    BallOpen(rows, blocked, root, if 0 < s then k else k + 1);
  }

  // The searches so far have made the parts so far
  ghost predicate SearchesOk(rows: seq<seq<nat>>, part: seq<nat>, seen: seq<bool>, size: nat, searches: seq<Sweep>) {
    && |part| == |seen| && Searched(rows, size, searches) && Covered(searches) == Seen(seen)
    && (forall p: nat :: InPart(searches, p) == Members(part, seen, p))
    && (forall s | s in searches :: s.nodes <= Seen(seen) && forall v | v in s.nodes :: v < |part| && part[v] == s.part)
  }

  lemma NoSearches(rows: seq<seq<nat>>, part: seq<nat>, seen: seq<bool>, size: nat)
    requires |part| == |seen| && forall v | 0 <= v < |seen| :: !seen[v]
    ensures SearchesOk(rows, part, seen, size, [])
  {
    assert Seen(seen) == {};
    forall p: nat ensures Members(part, seen, p) == {} {
    }
  }

  lemma SearchAdded(rows: seq<seq<nat>>, part: seq<nat>, seen: seq<bool>, part': seq<nat>, seen': seq<bool>, size: nat,
                    before: seq<Sweep>, nextPart: nat, start: nat, count: nat, s: Sweep)
    requires |part'| == |part| == |seen'| == |seen| && SearchesOk(rows, part, seen, size, before)
    requires Filled(part, seen, size, nextPart, start) && Filled(part', seen', size, nextPart, count)
    requires start < size && count <= size && s.part == nextPart
    requires s.root < |seen| && !seen[s.root] && forall v | 0 <= v < s.root :: seen[v]
    requires Seen(seen') == Seen(seen) + s.nodes && s.nodes !! Seen(seen)
    requires forall v | 0 <= v < |seen| && seen[v] :: part'[v] == part[v]
    requires forall v | v in s.nodes :: v < |part| && part'[v] == nextPart
    requires Takes(rows, Seen(seen), s.root, s.nodes)
    requires count < size ==> TakesAll(rows, Seen(seen), s.root, s.nodes)
    ensures SearchesOk(rows, part', seen', size, before + [s])
  {
    hide Takes, TakesAll, Searched, NextSearch, Filled, Seen;
    forall p: nat ensures Members(part', seen', p) == Members(part, seen, p) + if p == nextPart then s.nodes else {} {
      MembersMore(part, seen, part', seen', nextPart, s.nodes, p);
    }
    IsNext(rows, part, seen, part', seen', size, before, nextPart, start, count, s);
    OneSearch(rows, size, before, s);
    forall b, v | b in before && v in b.nodes ensures v < |part'| && part'[v] == b.part {
      SeenIs(seen, v);
    }
  }

  lemma IsNext(rows: seq<seq<nat>>, part: seq<nat>, seen: seq<bool>, part': seq<nat>, seen': seq<bool>, size: nat,
               before: seq<Sweep>, nextPart: nat, start: nat, count: nat, s: Sweep)
    requires |part'| == |part| == |seen'| == |seen| && SearchesOk(rows, part, seen, size, before)
    requires Filled(part, seen, size, nextPart, start) && Filled(part', seen', size, nextPart, count)
    requires start < size && count <= size && s.part == nextPart
    requires s.root < |seen| && !seen[s.root] && forall v | 0 <= v < s.root :: seen[v]
    requires s.nodes !! Seen(seen) && Members(part', seen', nextPart) == Members(part, seen, nextPart) + s.nodes
    requires Takes(rows, Seen(seen), s.root, s.nodes)
    requires count < size ==> TakesAll(rows, Seen(seen), s.root, s.nodes)
    ensures NextSearch(rows, size, before, s)
  {
    hide Takes, TakesAll, Searched, Members, Seen;
    SeenIs(seen, s.root);
    forall v | 0 <= v < s.root ensures v in Seen(seen) {
      SeenIs(seen, v);
    }
    forall b | b in before ensures b.part <= s.part {
      EarlierPart(rows, part, seen, size, before, nextPart, b);
    }
  }

  lemma MembersMore(part: seq<nat>, seen: seq<bool>, part': seq<nat>, seen': seq<bool>, nextPart: nat, nodes: set<nat>,
                    p: nat)
    requires |part'| == |part| == |seen'| == |seen| && Seen(seen') == Seen(seen) + nodes
    requires forall v | 0 <= v < |seen| && seen[v] :: part'[v] == part[v]
    requires forall v | v in nodes :: v < |part| && part'[v] == nextPart
    requires nodes !! Seen(seen)
    ensures Members(part', seen', p) == Members(part, seen, p) + if p == nextPart then nodes else {}
  {
    forall v: nat | v < |seen| ensures seen'[v] <==> seen[v] || v in nodes {
      assert seen'[v] <==> v in Seen(seen');
      assert seen[v] <==> v in Seen(seen);
    }
  }

  // Every search has taken its root
  lemma EarlierPart(rows: seq<seq<nat>>, part: seq<nat>, seen: seq<bool>, size: nat, before: seq<Sweep>, nextPart: nat,
                    b: Sweep)
    requires SearchesOk(rows, part, seen, size, before) && b in before
    requires forall v | 0 <= v < |seen| && seen[v] :: part[v] <= nextPart
    ensures b.part <= nextPart
  {
    hide Takes, TakesAll, Members, Seen;
    var i :| 0 <= i < |before| && before[i] == b;
    assert NextSearch(rows, size, before[..i], b);
    RootTaken(rows, Covered(before[..i]), b.root, b.nodes);
    SeenIs(seen, b.root);
  }

  lemma SearchesDone(rows: seq<seq<nat>>, part: seq<nat>, seen: seq<bool>, size: nat, searches: seq<Sweep>)
    requires SearchesOk(rows, part, seen, size, searches) && forall v | 0 <= v < |seen| :: seen[v]
    ensures BySearches(rows, size, part, searches)
  {
    hide Searched;
    forall v: nat ensures v in Covered(searches) <==> v < |part| {
    }
  }

  lemma NextPart(part: seq<nat>, seen: seq<bool>, size: nat, nextPart: nat)
    requires |part| == |seen| && Filled(part, seen, size, nextPart, size)
    ensures Filled(part, seen, size, nextPart + 1, 0)
  {
    assert Members(part, seen, nextPart + 1) == {};
    assert nextPart * size + size == (nextPart + 1) * size;
  }

  // A node that is left over means that there is a part left
  lemma RoomLeft(part: seq<nat>, seen: seq<bool>, size: nat, nextPart: nat, parts: nat, v: nat)
    requires |part| == |seen| && Filled(part, seen, size, nextPart, 0)
    requires v < |seen| && !seen[v] && parts * size > |seen|
    ensures nextPart < parts
  {
    assert v !in Seen(seen);
    Interval(Seen(seen) + {v}, 0, |seen|);
    FactorOrder(nextPart, parts, size);
  }

  lemma AllSeen(part: seq<nat>, seen: seq<bool>, size: nat, nextPart: nat, count: nat)
    requires |part| == |seen| && Filled(part, seen, size, nextPart, count) && count <= size
    requires forall v | 0 <= v < |seen| :: seen[v]
    ensures Balanced(part, size) && FullBefore(part, size) && forall v | 0 <= v < |part| :: part[v] <= nextPart
  {
    hide Members;
    forall p: nat ensures Nodes(part, p) == Members(part, seen, p) && (p > nextPart ==> Nodes(part, p) == {}) {
      MembersAll(part, seen, p);
      assert p > nextPart ==> Nodes(part, p) == {};
    }
  }

  lemma MembersAll(part: seq<nat>, seen: seq<bool>, p: nat)
    requires |part| == |seen| && forall v | 0 <= v < |seen| :: seen[v]
    ensures Nodes(part, p) == Members(part, seen, p)
  {
  }

  // All parts but the last are full
  ghost predicate FullBefore(part: seq<nat>, size: nat) {
    forall p: nat, q: nat | p < q && Nodes(part, q) != {} :: |Nodes(part, p)| == size
  }

  // Every node has a part of its own
  ghost predicate Alone(part: seq<nat>) {
    forall v | 0 <= v < |part| :: part[v] == v
  }

  // Nodes are in their parts in the order of their ids
  ghost predicate Rising(part: seq<nat>) {
    forall v, w | 0 <= v <= w < |part| :: part[v] <= part[w]
  }

  lemma DirectBalanced(part: seq<nat>, size: nat)
    requires size > 0 && forall v | 0 <= v < |part| :: part[v] == v / size
    ensures Balanced(part, size) && FullBefore(part, size) && Rising(part)
  {
    forall p: nat ensures |Nodes(part, p)| <= size {
      Interval(Nodes(part, p), p * size, size);
    }
    forall p: nat, q: nat | p < q && Nodes(part, q) != {} ensures |Nodes(part, p)| == size {
      DirectFull(part, size, p, q);
    }
    forall v, w | 0 <= v <= w < |part| ensures part[v] <= part[w] {
      QuotientOrder(v, w, size);
    }
  }

  lemma DirectFull(part: seq<nat>, size: nat, p: nat, q: nat)
    requires size > 0 && forall v | 0 <= v < |part| :: part[v] == v / size
    requires p < q && Nodes(part, q) != {}
    ensures |Nodes(part, p)| == size
  {
    var start := p * size;
    DirectBelow(part, size, p, q);
    forall v: nat ensures v in Nodes(part, p) <==> start <= v < start + size {
      InBlock(part, size, p, v);
    }
    hide Nodes;
    WholeInterval(Nodes(part, p), start, size);
    Interval(Nodes(part, p), start, size);
  }

  lemma DirectBelow(part: seq<nat>, size: nat, p: nat, q: nat)
    requires size > 0 && forall v | 0 <= v < |part| :: part[v] == v / size
    requires p < q && Nodes(part, q) != {}
    ensures p * size + size <= |part|
  {
    var w :| w in Nodes(part, q);
    FactorAbove(p, q, size, w);
  }

  lemma InBlock(part: seq<nat>, size: nat, p: nat, v: nat)
    requires size > 0 && (forall v | 0 <= v < |part| :: part[v] == v / size) && p * size + size <= |part|
    ensures v in Nodes(part, p) <==> p * size <= v < p * size + size
  {
    assert v == v / size * size + v % size;
    if p * size <= v < p * size + size {
      QuotientIs(v, p, size);
    }
  }

  lemma FactorAbove(p: nat, q: nat, size: nat, w: nat)
    requires p < q && size > 0 && w / size == q
    ensures p * size + size <= q * size <= w
  {
    NextFactor(p, q, size);
    assert w == q * size + w % size;
  }

  lemma QuotientIs(v: nat, p: nat, size: nat)
    requires size > 0 && p * size <= v < p * size + size
    ensures v / size == p
  {
    var q := v / size;
    assert v == q * size + v % size;
    if q < p {
      NextFactor(q, p, size);
    } else if q > p {
      NextFactor(p, q, size);
    }
  }

  lemma NextFactor(a: nat, b: nat, size: nat)
    requires a < b
    ensures a * size + size <= b * size
  {
    assert (a + 1) * size <= b * size;
  }

  lemma {:induction false} WholeInterval(s: set<nat>, lo: nat, size: nat)
    requires forall v | lo <= v < lo + size :: v in s
    ensures |s| >= size
    decreases size
  {
    if size > 0 {
      WholeInterval(s - {lo}, lo + 1, size - 1);
    }
  }

  // ---------------------------------------------------------------------
  // Subgraphs

  // The nodes of part p among the first n nodes, in order
  ghost function Chosen(part: seq<nat>, p: nat, n: nat): (r: seq<nat>)
    requires n <= |part|
    ensures forall k | 0 <= k < |r| :: r[k] < n && part[r[k]] == p
    decreases n
  {
    if n == 0 then [] else Chosen(part, p, n - 1) + if part[n - 1] == p then [n - 1] else []
  }

  // Id of a node in the subgraph of its part
  ghost function Rank(part: seq<nat>, v: nat): nat
    requires v < |part|
  {
    |Chosen(part, part[v], v)|
  }

  lemma {:induction false} ChosenAt(part: seq<nat>, v: nat, n: nat)
    requires v < n <= |part|
    ensures Rank(part, v) < |Chosen(part, part[v], n)| && Chosen(part, part[v], n)[Rank(part, v)] == v
    decreases n
  {
    if v < n - 1 {
      ChosenAt(part, v, n - 1);
    }
  }

  lemma {:induction false} ChosenRank(part: seq<nat>, p: nat, n: nat, k: nat)
    requires n <= |part| && k < |Chosen(part, p, n)|
    ensures Rank(part, Chosen(part, p, n)[k]) == k
    decreases n
  {
    if k < |Chosen(part, p, n - 1)| {
      ChosenRank(part, p, n - 1, k);
    }
  }

  ghost function LabelsOf(labels: seq<nat>, nodes: seq<nat>): seq<nat>
    requires Within(nodes, |labels|)
  {
    seq(|nodes|, k requires 0 <= k < |nodes| => labels[nodes[k]])
  }

  // The neighbours in the same part, by their ids in the subgraph
  ghost function Inner(part: seq<nat>, p: nat, row: seq<nat>): seq<nat>
    requires Within(row, |part|)
  {
    if row == [] then []
    else
      var w := row[|row| - 1];
      Inner(part, p, row[..|row| - 1]) + if part[w] == p then [Rank(part, w)] else []
  }

  // The graph is consistent: both kinds of lists come from the same edges, of
  // which there are no more than most
  ghost predicate Consistent(g: NodeGraph, most: nat) {
    exists edges :: HasEdges(g, edges) && |edges| <= most
  }

  lemma AddEdgeConsistent(g: NodeGraph, x: nat, y: nat, most: nat)
    requires Consistent(g, most) && x < g.Size() && y < g.Size()
    ensures Consistent(g.AddEdge(x, y), most + 1)
  {
    hide HasEdges;
    var edges :| HasEdges(g, edges) && |edges| <= most;
    ShapeOf(g, edges);
    AddEdgeEdges(g, x, y, edges);
    assert |edges + [(x, y)]| <= most + 1;
  }

  lemma NewNodeConsistent(g: NodeGraph, lab: nat, most: nat)
    requires Consistent(g, most)
    ensures Consistent(g.NewNode(lab), most)
  {
    hide HasEdges;
    var edges :| HasEdges(g, edges) && |edges| <= most;
    NewNodeEdges(g, lab, edges);
  }

  lemma ShapeOf(g: NodeGraph, edges: seq<(nat, nat)>)
    requires HasEdges(g, edges)
    ensures g.Valid()
  {
  }

  // Number of edges out of the first n nodes
  function Arcs(rows: seq<seq<nat>>, n: nat): nat
    requires n <= |rows|
  {
    if n == 0 then 0 else Arcs(rows, n - 1) + |rows[n - 1]|
  }

  function One(): Weight { (x: nat, y: nat) => 1 }

  lemma {:induction false} RowOnes(row: seq<nat>, x: nat)
    ensures RowSum(row, x, One()) == |row|
  {
    if row != [] {
      RowOnes(row[..|row| - 1], x);
    }
  }

  lemma {:induction false} ArcOnes(rows: seq<seq<nat>>, n: nat)
    requires n <= |rows|
    ensures RowsSum(rows, One(), n) == Arcs(rows, n)
    decreases n
  {
    if n > 0 {
      ArcOnes(rows, n - 1);
      RowOnes(rows[n - 1], n - 1);
    }
  }

  lemma {:induction false} EdgeOnes(edges: seq<(nat, nat)>)
    ensures EdgeSum(edges, One()) == |edges|
  {
    if edges != [] {
      EdgeOnes(edges[..|edges| - 1]);
    }
  }

  lemma ArcsAreEdges(g: NodeGraph, edges: seq<(nat, nat)>)
    requires HasEdges(g, edges)
    ensures Arcs(g.outgoing, |g.outgoing|) == |edges|
  {
    ArcOnes(g.outgoing, |g.outgoing|);
    EdgeOnes(edges);
  }

  // Subgraph of part p with the nodes among the first n, without edges
  ghost predicate Bare(g: NodeGraph, sub: NodeGraph, part: seq<nat>, p: nat, n: nat)
    requires g.Shape() && |part| == g.Size() && n <= |part|
  {
    && Consistent(sub, 0) && sub.Shape()
    && sub.labels == LabelsOf(g.labels, Chosen(part, p, n))
    && (forall k | 0 <= k < |sub.outgoing| :: sub.outgoing[k] == [])
  }

  // Subgraph of part p with all its nodes, the edges out of the first n nodes,
  // and those to the nodes of row out of the next
  ghost predicate Wired(g: NodeGraph, sub: NodeGraph, part: seq<nat>, p: nat, n: nat, row: seq<nat>)
    requires g.Valid() && |part| == g.Size() && n <= |part| && Within(row, |part|)
  {
    && Consistent(sub, Arcs(g.outgoing, n) + |row|) && sub.Shape()
    && sub.labels == LabelsOf(g.labels, Chosen(part, p, |part|))
    && (forall v | 0 <= v < |part| && part[v] == p ::
          && Rank(part, v) < |sub.outgoing|
          && sub.outgoing[Rank(part, v)] == Inner(part, p, if v < n then g.outgoing[v] else if v == n then row else []))
  }

  lemma NoNodes(g: NodeGraph, part: seq<nat>, p: nat)
    requires g.Shape() && |part| == g.Size()
    ensures Bare(g, EMPTY, part, p, 0)
  {
    EmptyEdges();
  }

  lemma OneNode(g: NodeGraph, sub: NodeGraph, part: seq<nat>, i: nat)
    requires g.Shape() && i < |part| == g.Size() && Bare(g, sub, part, part[i], i)
    ensures Bare(g, sub.NewNode(g.labels[i]), part, part[i], i + 1) && sub.Size() == Rank(part, i)
  {
    hide HasEdges;
    NewNodeConsistent(sub, g.labels[i], 0);
  }

  lemma OtherNode(g: NodeGraph, sub: NodeGraph, part: seq<nat>, p: nat, i: nat)
    requires g.Shape() && i < |part| == g.Size() && part[i] != p && Bare(g, sub, part, p, i)
    ensures Bare(g, sub, part, p, i + 1)
  {
  }

  lemma BareWired(g: NodeGraph, sub: NodeGraph, part: seq<nat>, p: nat)
    requires g.Valid() && |part| == g.Size() && Bare(g, sub, part, p, |part|)
    ensures Wired(g, sub, part, p, 0, [])
  {
    hide Consistent;
    forall v | 0 <= v < |part| && part[v] == p
      ensures Rank(part, v) < |sub.outgoing| && sub.outgoing[Rank(part, v)] == []
    {
      ChosenAt(part, v, |part|);
    }
  }

  lemma RankInjective(part: seq<nat>, v: nat, w: nat)
    requires v < |part| && w < |part| && part[v] == part[w] && Rank(part, v) == Rank(part, w)
    ensures v == w
  {
    ChosenAt(part, v, |part|);
    ChosenAt(part, w, |part|);
  }

  lemma WireOne(g: NodeGraph, sub: NodeGraph, part: seq<nat>, i: nat, j: nat)
    requires g.Valid() && i < |part| == g.Size() && j < |g.outgoing[i]|
    requires Wired(g, sub, part, part[i], i, g.outgoing[i][..j]) && part[g.outgoing[i][j]] == part[i]
    ensures sub.Shape() && Rank(part, i) < sub.Size() && Rank(part, g.outgoing[i][j]) < sub.Size()
    ensures Wired(g, sub.AddEdge(Rank(part, i), Rank(part, g.outgoing[i][j])), part, part[i], i, g.outgoing[i][..j + 1])
  {
    hide HasEdges, Rank, Consistent, Arcs;
    var p, w := part[i], g.outgoing[i][j];
    var sub' := sub.AddEdge(Rank(part, i), Rank(part, w));
    AddEdgeConsistent(sub, Rank(part, i), Rank(part, w), Arcs(g.outgoing, i) + j);
    assert g.outgoing[i][..j + 1][..j] == g.outgoing[i][..j];
    forall v | 0 <= v < |part| && part[v] == p && v != i
      ensures sub'.outgoing[Rank(part, v)] == sub.outgoing[Rank(part, v)]
    {
      if Rank(part, v) == Rank(part, i) {
        RankInjective(part, v, i);
      }
    }
  }

  lemma WireNone(g: NodeGraph, sub: NodeGraph, part: seq<nat>, p: nat, i: nat, j: nat)
    requires g.Valid() && i < |part| == g.Size() && j < |g.outgoing[i]|
    requires Wired(g, sub, part, p, i, g.outgoing[i][..j]) && part[g.outgoing[i][j]] != p
    ensures Wired(g, sub, part, p, i, g.outgoing[i][..j + 1])
  {
    hide Rank, Consistent, Arcs;
    MoreEdges(sub, Arcs(g.outgoing, i) + j, Arcs(g.outgoing, i) + j + 1);
    assert g.outgoing[i][..j + 1][..j] == g.outgoing[i][..j];
  }

  lemma NodeWired(g: NodeGraph, sub: NodeGraph, part: seq<nat>, p: nat, i: nat, row: seq<nat>)
    requires g.Valid() && i < |part| == g.Size() && Within(row, |part|) && Wired(g, sub, part, p, i, row)
    requires if part[i] == p then row == g.outgoing[i] else |row| <= |g.outgoing[i]|
    ensures Wired(g, sub, part, p, i + 1, [])
  {
    hide Rank, Consistent, Inner;
    MoreEdges(sub, Arcs(g.outgoing, i) + |row|, Arcs(g.outgoing, i + 1));
    assert Inner(part, p, []) == [] by { NoInner(part, p); }
  }

  lemma NoInner(part: seq<nat>, p: nat)
    ensures Inner(part, p, []) == []
  {
  }

  lemma EdgesConsistent(g: NodeGraph, edges: seq<(nat, nat)>)
    requires HasEdges(g, edges)
    ensures Consistent(g, |edges|) && g.Valid()
  {
  }

  lemma MoreEdges(g: NodeGraph, m: nat, n: nat)
    requires Consistent(g, m) && m <= n
    ensures Consistent(g, n)
  {
  }

  // The lists split the elements of a list without duplicates
  ghost predicate Splits(whole: seq<nat>, parts: seq<seq<nat>>) {
    && (forall p, k | 0 <= p < |parts| && 0 <= k < |parts[p]| :: parts[p][k] in whole)
    && (forall l | l in whole :: exists p :: 0 <= p < |parts| && l in parts[p])
    && (forall p, k, q, m | 0 <= p < |parts| && 0 <= k < |parts[p]| && 0 <= q < |parts| && 0 <= m < |parts[q]|
          && parts[p][k] == parts[q][m] :: p == q && k == m)
  }

  ghost predicate Distinct(s: seq<nat>) {
    forall i, j | 0 <= i < j < |s| :: s[i] != s[j]
  }

  // The subgraphs split the nodes of the graph
  lemma SubgraphsSplit(g: NodeGraph, subs: seq<NodeGraph>, part: seq<nat>, labels: seq<seq<nat>>)
    requires g.Valid() && |part| == g.Size() && Distinct(g.labels) && |labels| == |subs|
    requires forall v | 0 <= v < |part| :: part[v] < |subs|
    requires forall p | 0 <= p < |subs| :: Wired(g, subs[p], part, p, |part|, []) && labels[p] == subs[p].labels
    ensures Splits(g.labels, labels)
  {
    hide Consistent, Inner, Rank, Chosen;
    forall l | l in g.labels ensures exists p :: 0 <= p < |labels| && l in labels[p] {
      var v :| 0 <= v < |g.labels| && g.labels[v] == l;
      ChosenAt(part, v, |part|);
      assert labels[part[v]][Rank(part, v)] == l;
    }
    forall p, k, q, m | 0 <= p < |labels| && 0 <= k < |labels[p]| && 0 <= q < |labels| && 0 <= m < |labels[q]|
      && labels[p][k] == labels[q][m]
      ensures p == q && k == m
    {
      ChosenRank(part, p, |part|, k);
      ChosenRank(part, q, |part|, m);
      var v, w := Chosen(part, p, |part|)[k], Chosen(part, q, |part|)[m];
      assert g.labels[v] == g.labels[w];
      assert v == w;
    }
  }

  // Coordinates of all parts
  datatype Attempt = Attempt(xs: seq<nat>, ys: seq<nat>)

  // An attempt that is among these, and no other of them costs less
  ghost predicate Cheapest(conn: Weight, tried: seq<Attempt>, best: Attempt, n: nat) {
    && best in tried
    && forall a | a in tried :: Cost(conn, best.xs, best.ys, n) <= Cost(conn, a.xs, a.ys, n)
  }

  // Different parts are at different places of the mesh
  ghost predicate Spots(a: Attempt, width: nat, height: nat) {
    && |a.xs| == |a.ys| == width * height
    && (forall p | 0 <= p < |a.xs| :: a.xs[p] < width && a.ys[p] < height)
    && forall p, q | 0 <= p < |a.xs| && 0 <= q < |a.xs| && a.xs[p] == a.xs[q] && a.ys[p] == a.ys[q] :: p == q
  }

  // What one local search ends with
  ghost predicate Sought(conn: Weight, a: Attempt, width: nat, height: nat) {
    Spots(a, width, height) && Settled(conn, a.xs, a.ys, width, height)
  }

  lemma InverseSpots(mapping: array2<nat>, a: Attempt, width: nat, height: nat)
    requires Inverse(mapping, a.xs, a.ys, width, height)
    ensures Spots(a, width, height)
  {
    forall p, q | 0 <= p < |a.xs| && 0 <= q < |a.xs| && a.xs[p] == a.xs[q] && a.ys[p] == a.ys[q] ensures p == q {
      assert mapping[a.ys[p], a.xs[p]] == p && mapping[a.ys[q], a.xs[q]] == q;
    }
  }

  // The parts of a graph and where they are
  datatype Placement = Placement(part: seq<nat>, width: nat, height: nat, best: Attempt, tried: seq<Attempt>,
                                 edges: seq<(nat, nat)>, searches: seq<Sweep>)

  function SizeOf(g: NodeGraph, parts: nat): nat
    requires parts > 0
  {
    (g.Size() + parts) / parts
  }

  // The parts are those that the partitioner makes
  ghost predicate Parted(g: NodeGraph, how: Method, part: seq<nat>, parts: nat, searches: seq<Sweep>) {
    && parts > 0 && |part| == g.Size() && (forall v | 0 <= v < |part| :: part[v] < parts)
    && (how.Metis? && parts >= |part| ==> Alone(part))
    && (how.BFS? || how.Direct? ==> Balanced(part, SizeOf(g, parts)) && FullBefore(part, SizeOf(g, parts)))
    && (how.Direct? ==> Rising(part))
    && (how.BFS? ==> BySearches(g.outgoing, SizeOf(g, parts), part, searches))
  }

  // Of a number of local searches, the places are the cheapest outcome
  ghost predicate WellPlaced(g: NodeGraph, how: Method, q: Placement, effort: nat) {
    && Parted(g, how, q.part, q.width * q.height, q.searches) && HasEdges(g, q.edges)
    && var conn := Connections(q.part, q.edges);
       && |q.tried| == effort && (forall a | a in q.tried :: Sought(conn, a, q.width, q.height))
       && Cheapest(conn, q.tried, q.best, q.width * q.height)
  }

  class Placer {
    // What is placed
    const graph: NodeGraph
    // Size of the mesh
    const width: nat
    const height: nat
    // Mapping from node id to part
    const partitions: array<nat>
    // Mapping from part to subgraph
    const subgraphs: array<NodeGraph>
    // The number of connections between each pair of parts
    const connCount: array2<nat>
    // Mapping from mesh coordinates to parts, and from parts to coordinates
    const mapping: array2<nat>
    const xCoord: array<nat>
    const yCoord: array<nat>
    // What the mapping costs now
    var currentCost: nat
    // Saved mapping and cost
    const mappingSaved: array2<nat>
    const xCoordSaved: array<nat>
    const yCoordSaved: array<nat>
    var savedCost: nat
    // What the searches so far have ended with
    ghost var attempts: seq<Attempt>
    // The breadth-first searches that made the parts
    ghost var searches: seq<Sweep>

    function NumParts(): nat { width * height }

    // The arrays have the sizes of the mesh and are different arrays
    ghost predicate Shape() {
      && width > 0 && height > 0
      && mapping.Length0 == mappingSaved.Length0 == height && mapping.Length1 == mappingSaved.Length1 == width
      && xCoord.Length == yCoord.Length == xCoordSaved.Length == yCoordSaved.Length == NumParts()
      && connCount.Length0 == connCount.Length1 == subgraphs.Length == NumParts()
      && mapping != mappingSaved && mapping != connCount && mappingSaved != connCount
      && xCoord != yCoord && xCoord != xCoordSaved && xCoord != yCoordSaved
      && yCoord != xCoordSaved && yCoord != yCoordSaved && xCoordSaved != yCoordSaved
      && partitions != xCoord && partitions != yCoord && partitions != xCoordSaved && partitions != yCoordSaved
    }

    ghost predicate Counted(conn: Weight)
      reads connCount
    {
      && connCount.Length0 == connCount.Length1 == NumParts()
      && forall a, b | 0 <= a < NumParts() && 0 <= b < NumParts() :: connCount[a, b] == conn(a, b)
    }

    // The placement is a permutation, and the current cost is its cost
    ghost predicate Placed(conn: Weight)
      reads this`currentCost, mapping, xCoord, yCoord
    {
      && Inverse(mapping, xCoord[..], yCoord[..], width, height)
      && currentCost == Cost(conn, xCoord[..], yCoord[..], NumParts())
    }

    // Partition the graph, compute the subgraphs and count the connections
    constructor (graph: NodeGraph, width: nat, height: nat, how: Method, ghost edges: seq<(nat, nat)>)
      requires HasEdges(graph, edges) && width > 0 && height > 0
      ensures this.graph == graph && this.width == width && this.height == height && Shape()
      ensures partitions.Length == graph.Size() && InRange()
      ensures how.Metis? && NumParts() >= graph.Size() ==> Alone(partitions[..])
      ensures how.BFS? || how.Direct? ==> Balanced(partitions[..], PartSize()) && FullBefore(partitions[..], PartSize())
      ensures how.Direct? ==> Rising(partitions[..])
      ensures how.BFS? ==> BySearches(graph.outgoing, PartSize(), partitions[..], searches)
      ensures forall p | 0 <= p < NumParts() :: Wired(graph, subgraphs[p], partitions[..], p, partitions.Length, [])
      ensures Counted(Connections(partitions[..], edges))
      ensures fresh(partitions) && fresh(subgraphs) && fresh(connCount) && fresh(mapping) && fresh(xCoord)
      ensures fresh(yCoord) && fresh(mappingSaved) && fresh(xCoordSaved) && fresh(yCoordSaved)
    {
      hide Wired, HasEdges, Balanced, FullBefore, Consistent, BySearches, Rising, Alone;
      this.graph, this.width, this.height := graph, width, height;
      partitions := new nat[graph.Size()];
      subgraphs := new NodeGraph[width * height];
      connCount := new nat[width * height, width * height];
      mapping := new nat[height, width];
      mappingSaved := new nat[height, width];
      xCoord := new nat[width * height];
      yCoord := new nat[width * height];
      xCoordSaved := new nat[width * height];
      yCoordSaved := new nat[width * height];
      new;
      EdgesConsistent(graph, edges);
      match how {
        case Metis => PartitionMetis();
        case Random => PartitionRandom();
        case Direct => PartitionDirect();
        case BFS => PartitionBFS();
      }
      ComputeSubgraphs();
      ComputeInterPartitionCounts(edges);
    }

    // -------------------------------------------------------------------
    // Partitioners

    function PartSize(): nat
      requires width > 0 && height > 0
    {
      (graph.Size() + NumParts()) / NumParts()
    }

    ghost predicate InRange()
      reads partitions
    {
      forall v | 0 <= v < partitions.Length :: partitions[v] < NumParts()
    }

    // The partitioner that the METIS library provides is any function into the
    // range of the parts
    method PartitionMetis()
      requires Shape() && partitions.Length == graph.Size()
      modifies partitions
      ensures InRange()
      ensures NumParts() >= graph.Size() ==> Alone(partitions[..])
    {
      if NumParts() >= graph.Size() {
        for i := 0 to graph.Size()
          invariant forall v | 0 <= v < i :: partitions[v] == v
        {
          partitions[i] := i;
        }
      } else {
        PartitionRandom();
      }
    }

    method PartitionRandom()
      requires Shape() && partitions.Length == graph.Size()
      modifies partitions
      ensures InRange()
    {
      for i := 0 to graph.Size()
        invariant forall v | 0 <= v < i :: partitions[v] < NumParts()
      {
        partitions[i] := GetRand(NumParts());
      }
    }

    lemma PartsHold()
      requires Shape()
      ensures NumParts() * PartSize() > graph.Size()
    {
      var n, k := graph.Size() + NumParts(), NumParts();
      assert n == k * (n / k) + n % k;
    }

    method PartitionDirect()
      requires Shape() && partitions.Length == graph.Size()
      modifies partitions
      ensures InRange() && Balanced(partitions[..], PartSize()) && FullBefore(partitions[..], PartSize())
      ensures Rising(partitions[..])
    {
      PartsHold();
      for i := 0 to graph.Size()
        invariant forall v | 0 <= v < i :: partitions[v] == v / PartSize()
      {
        partitions[i] := i / PartSize();
      }
      forall v | 0 <= v < partitions.Length ensures partitions[v] < NumParts() {
        QuotientBelow(v, PartSize(), NumParts());
      }
      DirectBalanced(partitions[..], PartSize());
    }

    // -------------------------------------------------------------------
    // Repeated breadth-first search

    // Size-bounded search from a node that has not been seen
    method SearchFrom(root: nat, seen: array<bool>, nextPart: nat, start: nat) returns (count: nat, ghost nodes: set<nat>)
      requires Shape() && graph.Valid() && seen.Length == partitions.Length == graph.Size()
      requires root < seen.Length && !seen[root] && start < PartSize()
      requires Filled(partitions[..], seen[..], PartSize(), nextPart, start)
      modifies seen, partitions
      ensures start < count <= PartSize() && Filled(partitions[..], seen[..], PartSize(), nextPart, count)
      ensures seen[root] && forall v | 0 <= v < seen.Length && old(seen[v]) :: seen[v] && partitions[v] == old(partitions[v])
      ensures Seen(seen[..]) == old(Seen(seen[..])) + nodes && nodes !! old(Seen(seen[..]))
      ensures forall v | v in nodes :: v < partitions.Length && partitions[v] == nextPart
      ensures Takes(graph.outgoing, old(Seen(seen[..])), root, nodes)
      ensures count < PartSize() ==> TakesAll(graph.outgoing, old(Seen(seen[..])), root, nodes)
    {
      hide Filled, Searching, Takes, TakesAll, Ball, Seen, Unseen;
      count := start;
      nodes := {};
      ghost var blocked, k: nat, s: nat := Seen(seen[..]), 0, 1;
      var frontier: seq<nat> := [root];
      SeenIs(seen[..], root);
      SearchBegins(graph.outgoing, blocked, root);
      while count < PartSize() && frontier != []
        invariant start <= count <= PartSize() && Filled(partitions[..], seen[..], PartSize(), nextPart, count)
        invariant if count == start then frontier == [root] && !seen[root] else seen[root]
        invariant Searching(graph.outgoing, blocked, root, nodes, frontier, k, s)
        invariant Seen(seen[..]) == blocked + nodes && nodes !! blocked
        invariant forall v | v in nodes :: v < partitions.Length && partitions[v] == nextPart
        invariant Within(frontier, seen.Length)
        invariant forall v | 0 <= v < seen.Length && old(seen[v]) :: seen[v] && partitions[v] == old(partitions[v])
        decreases PartSize() - count, |frontier|
      {
        if s == 0 {
          SearchFurther(graph.outgoing, blocked, root, nodes, frontier, k);
          k, s := k + 1, |frontier|;
        }
        ghost var queue := frontier;
        var v := frontier[0];
        FrontierOpen(graph.outgoing, blocked, root, nodes, queue, k, s);
        SeenIs(seen[..], v);
        frontier := frontier[1..];
        if !seen[v] {
          FillOne(partitions[..], seen[..], PartSize(), nextPart, count, v);
          ghost var part, was := partitions[..], seen[..];
          seen[v] := true;
          partitions[v] := nextPart;
          assert partitions[..] == part[v := nextPart] && seen[..] == was[v := true];
          count := count + 1;
          // The neighbours of v that have not been seen join the frontier
          frontier := PushUnseen(frontier, graph.outgoing[v], seen);
          SeenMore(was, v);
          TakesOne(graph.outgoing, seen[..], blocked, nodes, v);
          SearchTakes(graph.outgoing, blocked, root, nodes, queue, k, s, Unseen(graph.outgoing[v], seen[..]));
          nodes := nodes + {v};
        } else {
          SearchDrops(graph.outgoing, blocked, root, nodes, queue, k, s);
        }
        s := s - 1;
      }
      SeenIs(old(seen[..]), root);
      SeenIs(seen[..], root);
      SearchStops(graph.outgoing, blocked, root, nodes, frontier, k, s);
      if count < PartSize() {
        AllTaken(graph.outgoing, blocked, root, nodes, k, s);
      }
    }

    method PushUnseen(frontier: seq<nat>, dests: seq<nat>, seen: array<bool>) returns (more: seq<nat>)
      requires Within(dests, seen.Length)
      ensures more == frontier + Unseen(dests, seen[..])
    {
      more := frontier;
      for i := 0 to |dests|
        invariant more == frontier + Unseen(dests[..i], seen[..])
      {
        var w := dests[i];
        assert dests[..i + 1][..i] == dests[..i];
        if !seen[w] {
          more := more + [w];
        }
      }
      assert dests[..|dests|] == dests;
    }

    method PartitionBFS()
      requires Shape() && graph.Valid() && partitions.Length == graph.Size()
      modifies partitions, this`searches
      ensures BySearches(graph.outgoing, PartSize(), partitions[..], searches)
      ensures InRange() && Balanced(partitions[..], PartSize()) && FullBefore(partitions[..], PartSize())
    {
      hide Filled, Balanced, FullBefore, BySearches, SearchesOk;
      PartsHold();
      var numVertices := graph.Size();
      var seen := new bool[numVertices](_ => false);
      var nextUnseen, nextPart := 0, 0;
      NothingSeen(partitions[..], seen[..], PartSize());
      searches := [];
      NoSearches(graph.outgoing, partitions[..], seen[..], PartSize());
      while nextUnseen < numVertices
        invariant nextUnseen <= numVertices
        invariant forall v | 0 <= v < nextUnseen :: seen[v]
        invariant nextUnseen < numVertices ==> !seen[nextUnseen]
        invariant nextUnseen < numVertices ==> Filled(partitions[..], seen[..], PartSize(), nextPart, 0)
        invariant SearchesOk(graph.outgoing, partitions[..], seen[..], PartSize(), searches)
        invariant nextUnseen == numVertices ==>
          InRange() && Balanced(partitions[..], PartSize()) && FullBefore(partitions[..], PartSize())
      {
        RoomLeft(partitions[..], seen[..], PartSize(), nextPart, NumParts(), nextUnseen);
        var count := 0;
        ghost var first := nextUnseen;
        while nextUnseen < numVertices && count < PartSize()
          invariant first <= nextUnseen <= numVertices && count <= PartSize() && (nextUnseen == first ==> count == 0)
          invariant forall v | 0 <= v < nextUnseen :: seen[v]
          invariant nextUnseen < numVertices ==> !seen[nextUnseen]
          invariant Filled(partitions[..], seen[..], PartSize(), nextPart, count)
          invariant SearchesOk(graph.outgoing, partitions[..], seen[..], PartSize(), searches)
          decreases numVertices - nextUnseen
        {
          ghost var part, was, start := partitions[..], seen[..], count;
          ghost var nodes;
          count, nodes := SearchFrom(nextUnseen, seen, nextPart, count);
          SearchAdded(graph.outgoing, part, was, partitions[..], seen[..], PartSize(), searches, nextPart, start, count,
                      Sweep(nextUnseen, nextPart, nodes));
          searches := searches + [Sweep(nextUnseen, nextPart, nodes)];
          nextUnseen := SkipSeen(seen, nextUnseen);
        }
        if nextUnseen == numVertices {
          AllSeen(partitions[..], seen[..], PartSize(), nextPart, count);
        } else {
          NextPart(partitions[..], seen[..], PartSize(), nextPart);
        }
        nextPart := nextPart + 1;
      }
      SearchesDone(graph.outgoing, partitions[..], seen[..], PartSize(), searches);
    }

    method SkipSeen(seen: array<bool>, start: nat) returns (next: nat)
      requires start < seen.Length && seen[start]
      ensures start < next <= seen.Length && (next < seen.Length ==> !seen[next])
      ensures forall v | start <= v < next :: seen[v]
    {
      next := start;
      while next < seen.Length && seen[next]
        invariant start <= next <= seen.Length && forall v | start <= v < next :: seen[v]
      {
        next := next + 1;
      }
    }

    lemma NothingSeen(part: seq<nat>, seen: seq<bool>, size: nat)
      requires |part| == |seen| && forall v | 0 <= v < |seen| :: !seen[v]
      ensures Filled(part, seen, size, 0, 0)
      ensures |part| == 0 ==> Balanced(part, size) && FullBefore(part, size)
    {
      assert Members(part, seen, 0) == {} && Seen(seen) == {};
      if |part| == 0 {
        forall p: nat ensures Nodes(part, p) == {} {
        }
      }
    }

    // -------------------------------------------------------------------
    // Create subgraph for each part

    method ComputeSubgraphs()
      requires Shape() && graph.Valid() && partitions.Length == graph.Size() && InRange()
      modifies subgraphs
      ensures forall p | 0 <= p < NumParts() ::
        Wired(graph, subgraphs[p], partitions[..], p, partitions.Length, [])
    {
      hide Wired, Bare, Rank, Consistent, Chosen;
      ghost var part := partitions[..];
      for p := 0 to NumParts()
        invariant forall q | 0 <= q < p :: Bare(graph, subgraphs[q], part, q, 0)
      {
        subgraphs[p] := EMPTY;
        NoNodes(graph, part, p);
      }
      // Mapping from node id to subgraph node id
      var mappedTo := new nat[graph.Size()];
      for i := 0 to graph.Size()
        invariant partitions[..] == part
        invariant forall p | 0 <= p < NumParts() :: Bare(graph, subgraphs[p], part, p, i)
        invariant forall v | 0 <= v < i :: mappedTo[v] == Rank(part, v)
      {
        var p := partitions[i];
        OneNode(graph, subgraphs[p], part, i);
        forall q | 0 <= q < NumParts() && q != p ensures Bare(graph, subgraphs[q], part, q, i + 1) {
          OtherNode(graph, subgraphs[q], part, q, i);
        }
        mappedTo[i] := subgraphs[p].Size();
        subgraphs[p] := subgraphs[p].NewNode(graph.labels[i]);
      }
      forall p | 0 <= p < NumParts() ensures Wired(graph, subgraphs[p], part, p, 0, []) {
        BareWired(graph, subgraphs[p], part, p);
      }
      for i := 0 to graph.Size()
        invariant partitions[..] == part
        invariant forall v | 0 <= v < graph.Size() :: mappedTo[v] == Rank(part, v)
        invariant forall p | 0 <= p < NumParts() :: Wired(graph, subgraphs[p], part, p, i, [])
      {
        AddInner(i, mappedTo);
      }
    }

    // The edges out of one node that stay in its part
    method AddInner(i: nat, mappedTo: array<nat>)
      requires Shape() && graph.Valid() && i < partitions.Length == graph.Size() && InRange()
      requires mappedTo.Length == partitions.Length
      requires forall v | 0 <= v < partitions.Length :: mappedTo[v] == Rank(partitions[..], v)
      requires forall p | 0 <= p < NumParts() :: Wired(graph, subgraphs[p], partitions[..], p, i, [])
      modifies subgraphs
      ensures forall p | 0 <= p < NumParts() :: Wired(graph, subgraphs[p], partitions[..], p, i + 1, [])
    {
      hide Wired, Rank;
      ghost var part := partitions[..];
      var p, out := partitions[i], graph.outgoing[i];
      for j := 0 to |out|
        invariant partitions[..] == part
        invariant Wired(graph, subgraphs[p], part, p, i, out[..j])
        invariant forall q | 0 <= q < NumParts() && q != p :: Wired(graph, subgraphs[q], part, q, i, [])
      {
        if partitions[out[j]] == p {
          WireOne(graph, subgraphs[p], part, i, j);
          subgraphs[p] := subgraphs[p].AddEdge(mappedTo[i], mappedTo[out[j]]);
        } else {
          WireNone(graph, subgraphs[p], part, p, i, j);
        }
      }
      assert out[..|out|] == out;
      forall q | 0 <= q < NumParts() ensures Wired(graph, subgraphs[q], part, q, i + 1, []) {
        NodeWired(graph, subgraphs[q], part, q, i, if q == p then out else []);
      }
    }

    // -------------------------------------------------------------------
    // Computes the number of connections between each pair of parts

    method CountRow(i: nat, row: seq<nat>, ghost before: Weight)
      requires Shape() && partitions.Length == graph.Size() && i < partitions.Length
      requires forall k | 0 <= k < |row| :: row[k] < partitions.Length
      requires forall k | 0 <= k < partitions.Length :: partitions[k] < NumParts()
      requires Counted(before)
      modifies connCount
      ensures forall a, b | 0 <= a < NumParts() && 0 <= b < NumParts() ::
        connCount[a, b] == before(a, b) + RowSum(row, i, Is(partitions[..], a, b))
    {
      ghost var part := partitions[..];
      for j := 0 to |row|
        invariant partitions[..] == part
        invariant forall a, b | 0 <= a < NumParts() && 0 <= b < NumParts() ::
          connCount[a, b] == before(a, b) + RowSum(row[..j], i, Is(part, a, b))
      {
        connCount[partitions[i], partitions[row[j]]] := connCount[partitions[i], partitions[row[j]]] + 1;
        assert row[..j + 1][..j] == row[..j];
      }
      assert row[..|row|] == row;
    }

    method ComputeInterPartitionCounts(ghost edges: seq<(nat, nat)>)
      requires Shape() && partitions.Length == graph.Size() && HasEdges(graph, edges)
      requires forall k | 0 <= k < partitions.Length :: partitions[k] < NumParts()
      modifies connCount
      ensures Counted(Connections(partitions[..], edges))
    {
      for i := 0 to NumParts()
        invariant forall a, b | 0 <= a < i && 0 <= b < NumParts() :: connCount[a, b] == 0
      {
        for j := 0 to NumParts()
          invariant forall a, b | 0 <= a < i && 0 <= b < NumParts() :: connCount[a, b] == 0
          invariant forall b | 0 <= b < j :: connCount[i, b] == 0
        {
          connCount[i, j] := 0;
        }
      }
      // Iterate over graph and count connections
      ghost var part := partitions[..];
      for i := 0 to graph.Size()
        invariant partitions[..] == part && Counted(Listed(graph, part, i))
      {
        hide HasEdges;
        CountNode(i, edges);
      }
      forall a, b | 0 <= a < NumParts() && 0 <= b < NumParts()
        ensures connCount[a, b] == Connections(part, edges)(a, b)
      {
        ListedConnections(graph, part, edges, a, b);
      }
    }

    method CountNode(i: nat, ghost edges: seq<(nat, nat)>)
      requires Shape() && partitions.Length == graph.Size() && graph.Valid() && i < graph.Size()
      requires forall k | 0 <= k < partitions.Length :: partitions[k] < NumParts()
      requires Counted(Listed(graph, partitions[..], i))
      modifies connCount
      ensures Counted(Listed(graph, partitions[..], i + 1))
    {
      ghost var part := partitions[..];
      ghost var before := Listed(graph, part, i);
      ghost var middle: Weight := (a: nat, b: nat) => before(a, b) + RowSum(graph.incoming[i], i, Is(part, a, b));
      CountRow(i, graph.incoming[i], before);
      CountRow(i, graph.outgoing[i], middle);
    }

    // -------------------------------------------------------------------

    method GetRand(n: nat) returns (r: nat)
      requires n > 0
      ensures r < n
    {
      r :| 0 <= r < n;
    }

    // The cost, by loops over all pairs of parts
    method ComputeCost(ghost conn: Weight) returns (total: nat)
      requires Shape() && Counted(conn) && CostFits(conn, width, height)
      requires Inverse(mapping, xCoord[..], yCoord[..], width, height)
      ensures total == Cost(conn, xCoord[..], yCoord[..], NumParts())
    {
      hide CostFits, Cost, CostRow;
      ghost var xs, ys := xCoord[..], yCoord[..];
      var sum: int := 0;
      NothingYet(conn, xs, ys);
      for i := 0 to NumParts()
        invariant sum == Cost(conn, xs, ys, i)
      {
        NothingInRow(conn, xs, ys, i);
        for j := 0 to i
          invariant sum == Cost(conn, xs, ys, i) + CostRow(conn, xs, ys, i, j)
        {
          var xDist := Gap(xCoord[i], xCoord[j]);
          var yDist := Gap(yCoord[i], yCoord[j]);
          sum := sum + (xDist + yDist) * connCount[i, j];
          OneMoreInRow(conn, xs, ys, i, j);
          assert Dist(xs, ys, i, j) == xDist + yDist;
        }
        OneMoreRow(conn, xs, ys, i);
      }
      CostInRange(conn, xs, ys);
      total := sum;
    }

    lemma NothingYet(conn: Weight, xs: seq<nat>, ys: seq<nat>)
      ensures Cost(conn, xs, ys, 0) == 0
    {
    }

    lemma NothingInRow(conn: Weight, xs: seq<nat>, ys: seq<nat>, i: nat)
      ensures CostRow(conn, xs, ys, i, 0) == 0
    {
    }

    lemma OneMoreInRow(conn: Weight, xs: seq<nat>, ys: seq<nat>, i: nat, j: nat)
      ensures CostRow(conn, xs, ys, i, j + 1) == CostRow(conn, xs, ys, i, j) + Dist(xs, ys, i, j) * conn(i, j)
    {
    }

    lemma OneMoreRow(conn: Weight, xs: seq<nat>, ys: seq<nat>, i: nat)
      ensures Cost(conn, xs, ys, i + 1) == Cost(conn, xs, ys, i) + CostRow(conn, xs, ys, i, i)
    {
    }

    lemma CostInRange(conn: Weight, xs: seq<nat>, ys: seq<nat>)
      requires CostFits(conn, width, height) && |xs| == |ys| == NumParts()
      requires forall p | 0 <= p < |xs| :: xs[p] < width && ys[p] < height
      ensures 0 <= Cost(conn, xs, ys, NumParts()) <= MAX64
    {
    }

    // Two parts change places
    method Swap(x: nat, y: nat, xNew: nat, yNew: nat)
      requires Shape() && Inverse(mapping, xCoord[..], yCoord[..], width, height)
      requires x < width && y < height && xNew < width && yNew < height
      modifies mapping, xCoord, yCoord
      ensures Inverse(mapping, xCoord[..], yCoord[..], width, height)
      ensures mapping[y, x] == old(mapping[yNew, xNew]) && mapping[yNew, xNew] == old(mapping[y, x])
      ensures xCoord[..] == old(Swapped(xCoord[..], mapping[y, x], mapping[yNew, xNew]))
      ensures yCoord[..] == old(Swapped(yCoord[..], mapping[y, x], mapping[yNew, xNew]))
    {
      var p := mapping[y, x];
      var pNew := mapping[yNew, xNew];
      mapping[y, x] := pNew;
      mapping[yNew, xNew] := p;
      xCoord[p] := xNew;
      yCoord[p] := yNew;
      xCoord[pNew] := x;
      yCoord[pNew] := y;
      SwappedInverse(x, y, xNew, yNew);
    }

    twostate lemma SwappedInverse(new x: nat, new y: nat, new xNew: nat, new yNew: nat)
      requires Shape() && old(Inverse(mapping, xCoord[..], yCoord[..], width, height))
      requires x < width && y < height && xNew < width && yNew < height
      requires mapping[y, x] == old(mapping[yNew, xNew]) && mapping[yNew, xNew] == old(mapping[y, x])
      requires forall i, j | 0 <= i < height && 0 <= j < width && !(i == y && j == x) && !(i == yNew && j == xNew) ::
        mapping[i, j] == old(mapping[i, j])
      requires xCoord[..] == Swapped(old(xCoord[..]), old(mapping[y, x]), old(mapping[yNew, xNew]))
      requires yCoord[..] == Swapped(old(yCoord[..]), old(mapping[y, x]), old(mapping[yNew, xNew]))
      ensures Inverse(mapping, xCoord[..], yCoord[..], width, height)
    {
      var xs, ys := xCoord[..], yCoord[..];
      var p, q := old(mapping[y, x]), old(mapping[yNew, xNew]);
      forall k | 0 <= k < |xs| ensures xs[k] < width && ys[k] < height && mapping[ys[k], xs[k]] == k {
        if k != p && k != q {
          assert xs[k] == old(xCoord[..])[k] && ys[k] == old(yCoord[..])[k];
        }
      }
    }

    // Swap two mesh nodes only if cost is reduced: the cost is strictly lower
    // afterwards, or everything is as it was
    method TrySwap(x: nat, y: nat, xNew: nat, yNew: nat, ghost conn: Weight) returns (better: bool)
      requires Shape() && Placed(conn) && Counted(conn) && CostFits(conn, width, height)
      requires x < width && y < height && xNew < width && yNew < height
      modifies this`currentCost, mapping, xCoord, yCoord
      ensures Placed(conn)
      ensures better ==> (
        && currentCost < old(currentCost)
        && old(!NoGain(conn, xCoord[..], yCoord[..], mapping[y, x], mapping[yNew, xNew]))
        && xCoord[..] == old(Swapped(xCoord[..], mapping[y, x], mapping[yNew, xNew]))
        && yCoord[..] == old(Swapped(yCoord[..], mapping[y, x], mapping[yNew, xNew])))
      ensures !better ==>
        && currentCost == old(currentCost) && xCoord[..] == old(xCoord[..]) && yCoord[..] == old(yCoord[..])
        && (forall i, j | 0 <= i < height && 0 <= j < width :: mapping[i, j] == old(mapping[i, j]))
        && old(NoGain(conn, xCoord[..], yCoord[..], mapping[y, x], mapping[yNew, xNew]))
    {
      hide Cost, CostFits;
      ghost var p, q := mapping[y, x], mapping[yNew, xNew];
      ghost var xs, ys := xCoord[..], yCoord[..];
      Swap(x, y, xNew, yNew);
      var c := ComputeCost(conn);
      if c < currentCost {
        currentCost := c;
        better := true;
      } else {
        label swapped:
        Swap(x, y, xNew, yNew);
        SwapBack(xs, p, q);
        SwapBack(ys, p, q);
        SameMapping(xs, ys);
        better := false;
      }
    }

    lemma SwapBack(s: seq<nat>, p: nat, q: nat)
      requires p < |s| && q < |s|
      ensures Swapped(Swapped(s, p, q), q, p) == s
    {
    }

    // The coordinates determine the mapping
    twostate lemma SameMapping(new xs: seq<nat>, new ys: seq<nat>)
      requires old(Inverse(mapping, xs, ys, width, height)) && Inverse(mapping, xs, ys, width, height)
      ensures forall i, j | 0 <= i < height && 0 <= j < width :: mapping[i, j] == old(mapping[i, j])
    {
      forall i, j | 0 <= i < height && 0 <= j < width ensures mapping[i, j] == old(mapping[i, j]) {
        var p := mapping[i, j];
        assert xs[p] == j && ys[p] == i;
      }
    }

    // -------------------------------------------------------------------
    // Create random mapping between parts and mesh

    // Position (x, y) comes before position (i, j) row by row
    predicate Before(x: nat, y: nat, i: nat, j: nat) { y < j || (y == j && x < i) }

    // Parts placed on all positions before (i, j); the others are still in pids
    ghost predicate Filling(pids: seq<nat>, i: nat, j: nat)
      requires Shape()
      reads mapping, xCoord, yCoord
    {
      && (forall k | 0 <= k < |pids| :: pids[k] < NumParts())
      && (forall k, l | 0 <= k < l < |pids| :: pids[k] != pids[l])
      && (forall x, y | 0 <= x < width && 0 <= y < height && Before(x, y, i, j) ::
            && mapping[y, x] < NumParts() && mapping[y, x] !in pids
            && xCoord[mapping[y, x]] == x && yCoord[mapping[y, x]] == y)
      && (forall p | 0 <= p < NumParts() && p !in pids ::
            && xCoord[p] < width && yCoord[p] < height && Before(xCoord[p], yCoord[p], i, j)
            && mapping[yCoord[p], xCoord[p]] == p)
    }

    // Remove an entry by moving down all that come after it
    method RemoveAt(pids: array<nat>, index: nat, num: nat)
      requires index <= num < pids.Length
      modifies pids
      ensures pids[..num] == old(pids[..index] + pids[index + 1..num + 1])
    {
      for i := index to num
        invariant forall k | 0 <= k < i :: pids[k] == if k < index then old(pids[k]) else old(pids[k + 1])
        invariant forall k | i <= k < pids.Length :: pids[k] == old(pids[k])
      {
        pids[i] := pids[i + 1];
      }
    }

    method PlaceOne(pids: array<nat>, num: nat, x: nat, y: nat)
      requires Shape() && 0 < num <= pids.Length && x < width && y < height
      requires pids != xCoord && pids != yCoord && Filling(pids[..num], x, y)
      modifies pids, mapping, xCoord, yCoord
      ensures Filling(pids[..num - 1], x + 1, y)
    {
      hide Filling;
      var index := GetRand(num);
      var p := pids[index];
      ghost var ids := pids[..num];
      InParts(ids, index, x, y);
      mapping[y, x] := p;
      xCoord[p] := x;
      yCoord[p] := y;
      FilledOne(ids, index, x, y);
      RemoveAt(pids, index, num - 1);
      assert pids[..num - 1] == ids[..index] + ids[index + 1..];
    }

    lemma InParts(ids: seq<nat>, index: nat, x: nat, y: nat)
      requires Shape() && index < |ids| && Filling(ids, x, y)
      ensures ids[index] < NumParts()
    {
    }

    // One more part has found its position
    twostate lemma FilledOne(new ids: seq<nat>, new index: nat, new x: nat, new y: nat)
      requires Shape() && index < |ids| && x < width && y < height && old(Filling(ids, x, y))
      requires var p := ids[index];
        && mapping[y, x] == p && xCoord[..] == old(xCoord[..])[p := x] && yCoord[..] == old(yCoord[..])[p := y]
      requires forall i, j | 0 <= i < height && 0 <= j < width && !(i == y && j == x) ::
        mapping[i, j] == old(mapping[i, j])
      ensures Filling(ids[..index] + ids[index + 1..], x + 1, y)
    {
      var rest := ids[..index] + ids[index + 1..];
      RestOf(ids, index);
      forall q | 0 <= q < NumParts() && q !in rest
        ensures xCoord[q] < width && yCoord[q] < height && Before(xCoord[q], yCoord[q], x + 1, y)
          && mapping[yCoord[q], xCoord[q]] == q
      {
        assert q == ids[index] || (q !in ids && xCoord[q] == old(xCoord[q]) && yCoord[q] == old(yCoord[q]));
      }
      forall i, j | 0 <= i < width && 0 <= j < height && Before(i, j, x + 1, y)
        ensures mapping[j, i] < NumParts() && mapping[j, i] !in rest
          && xCoord[mapping[j, i]] == i && yCoord[mapping[j, i]] == j
      {
        assert (i == x && j == y) || Before(i, j, x, y);
      }
    }

    lemma RestOf(ids: seq<nat>, index: nat)
      requires index < |ids| && forall k, l | 0 <= k < l < |ids| :: ids[k] != ids[l]
      ensures var rest := ids[..index] + ids[index + 1..];
        && (forall q: nat :: q in rest <==> q in ids && q != ids[index])
        && (forall k, l | 0 <= k < l < |rest| :: rest[k] != rest[l])
        && |rest| == |ids| - 1
    {
      var rest := ids[..index] + ids[index + 1..];
      forall q: nat ensures q in rest <==> q in ids && q != ids[index] {
        if q in ids && q != ids[index] {
          var k :| 0 <= k < |ids| && ids[k] == q;
          assert rest[if k < index then k else k - 1] == q;
        }
      }
    }

    method RandomPlacement()
      requires Shape()
      modifies mapping, xCoord, yCoord
      ensures Inverse(mapping, xCoord[..], yCoord[..], width, height)
    {
      // Array of part ids
      var numPartitions := NumParts();
      var pids := new nat[numPartitions](i => i);
      NothingFilled(pids[..numPartitions]);
      for y := 0 to height
        invariant numPartitions == NumParts() - y * width && 0 <= numPartitions <= pids.Length == NumParts()
        invariant Filling(pids[..numPartitions], 0, y)
      {
        hide Filling;
        for x := 0 to width
          invariant numPartitions == NumParts() - y * width - x && 0 <= numPartitions <= pids.Length == NumParts()
          invariant Filling(pids[..numPartitions], x, y)
        {
          PositionBound(x, y, width, height);
          PlaceOne(pids, numPartitions, x, y);
          numPartitions := numPartitions - 1;
        }
        NextRow(pids[..numPartitions], y);
        assert (y + 1) * width == y * width + width;
      }
      assert height * width == NumParts();
      assert pids[..0] == [];
    }

    lemma NothingFilled(pids: seq<nat>)
      requires Shape() && |pids| == NumParts() && forall p | 0 <= p < |pids| :: pids[p] == p
      ensures Filling(pids, 0, 0)
    {
      forall p | 0 <= p < NumParts() ensures p in pids {
        assert pids[p] == p;
      }
    }

    lemma NextRow(pids: seq<nat>, y: nat)
      requires Shape() && Filling(pids, width, y)
      ensures Filling(pids, 0, y + 1)
    {
    }

    // -------------------------------------------------------------------
    // Saving and restoring

    static method CopyGrid(a: array2<nat>, b: array2<nat>)
      requires a != b && a.Length0 == b.Length0 && a.Length1 == b.Length1
      modifies b
      ensures forall i, j | 0 <= i < a.Length0 && 0 <= j < a.Length1 :: b[i, j] == a[i, j]
    {
      for y := 0 to a.Length0
        invariant forall i, j | 0 <= i < y && 0 <= j < a.Length1 :: b[i, j] == a[i, j]
      {
        for x := 0 to a.Length1
          invariant forall i, j | 0 <= i < y && 0 <= j < a.Length1 :: b[i, j] == a[i, j]
          invariant forall j | 0 <= j < x :: b[y, j] == a[y, j]
        {
          b[y, x] := a[y, x];
        }
      }
    }

    static method CopyCoords(xs: array<nat>, ys: array<nat>, xs': array<nat>, ys': array<nat>)
      requires xs.Length == ys.Length == xs'.Length == ys'.Length
      requires xs != xs' && xs != ys' && ys != xs' && ys != ys' && xs' != ys'
      modifies xs', ys'
      ensures xs'[..] == xs[..] && ys'[..] == ys[..]
    {
      for p := 0 to xs.Length
        invariant forall k | 0 <= k < p :: xs'[k] == xs[k] && ys'[k] == ys[k]
      {
        xs'[p] := xs[p];
        ys'[p] := ys[p];
      }
    }

    // The saved placement is a permutation with the saved cost
    ghost predicate Saved(conn: Weight)
      reads this`savedCost, mappingSaved, xCoordSaved, yCoordSaved
    {
      && Inverse(mappingSaved, xCoordSaved[..], yCoordSaved[..], width, height)
      && savedCost == Cost(conn, xCoordSaved[..], yCoordSaved[..], NumParts())
      && Settled(conn, xCoordSaved[..], yCoordSaved[..], width, height)
    }

    method Save(ghost conn: Weight)
      requires Shape() && Placed(conn) && Settled(conn, xCoord[..], yCoord[..], width, height)
      modifies this`savedCost, mappingSaved, xCoordSaved, yCoordSaved
      ensures Saved(conn) && savedCost == currentCost
      ensures xCoordSaved[..] == xCoord[..] && yCoordSaved[..] == yCoord[..]
    {
      savedCost := currentCost;
      CopyGrid(mapping, mappingSaved);
      CopyCoords(xCoord, yCoord, xCoordSaved, yCoordSaved);
    }

    method Restore(ghost conn: Weight)
      requires Shape() && Saved(conn)
      modifies this`currentCost, mapping, xCoord, yCoord
      ensures Placed(conn) && Settled(conn, xCoord[..], yCoord[..], width, height) && currentCost == savedCost
      ensures xCoordSaved[..] == xCoord[..] && yCoordSaved[..] == yCoord[..]
    {
      currentCost := savedCost;
      CopyGrid(mappingSaved, mapping);
      CopyCoords(xCoordSaved, yCoordSaved, xCoord, yCoord);
    }

    // -------------------------------------------------------------------
    // Local search

    // No swap tried from a position before (i, j) lowers the cost
    ghost predicate SettledBefore(conn: Weight, xs: seq<nat>, ys: seq<nat>, i: nat, j: nat)
      requires |xs| == |ys|
    {
      forall p, q | 0 <= p < |xs| && 0 <= q < |xs| && Before(xs[p], ys[p], i, j)
        && Tried(width, height, xs[p], ys[p], xs[q], ys[q]) :: NoGain(conn, xs, ys, p, q)
    }

    // The three swaps from one position; the first that lowers the cost stands
    method TrySwaps(x: nat, y: nat, ghost conn: Weight) returns (change: bool)
      requires Shape() && Placed(conn) && Counted(conn) && CostFits(conn, width, height)
      requires x + 1 < width && y + 1 < height
      modifies this`currentCost, mapping, xCoord, yCoord
      ensures Placed(conn)
      ensures change ==> currentCost < old(currentCost)
      ensures change ==> (
        var at, right, up, both :=
          old(mapping[y, x]), old(mapping[y, x + 1]), old(mapping[y + 1, x]), old(mapping[y + 1, x + 1]);
        var xs, ys := old(xCoord[..]), old(yCoord[..]);
        var to := if !NoGain(conn, xs, ys, at, right) then right else if !NoGain(conn, xs, ys, at, up) then up else both;
        && !NoGain(conn, xs, ys, at, to)
        && xCoord[..] == Swapped(xs, at, to) && yCoord[..] == Swapped(ys, at, to))
      ensures !change ==>
        && currentCost == old(currentCost)
        && (old(SettledBefore(conn, xCoord[..], yCoord[..], x, y)) ==>
              SettledBefore(conn, xCoord[..], yCoord[..], x + 1, y))
    {
      hide CostFits, Cost, NoGain, Counted, SettledBefore;
      ghost var xs, ys := xCoord[..], yCoord[..];
      ghost var at := mapping[y, x];
      ghost var right, up, both := mapping[y, x + 1], mapping[y + 1, x], mapping[y + 1, x + 1];
      change := TrySwap(x, y, x + 1, y, conn);
      if !change {
        change := TrySwap(x, y, x, y + 1, conn);
        if !change {
          change := TrySwap(x, y, x + 1, y + 1, conn);
          if !change {
            OnePositionMore(conn, xs, ys, x, y, at, right, up, both);
          }
        }
      }
    }

    lemma OnePositionMore(conn: Weight, xs: seq<nat>, ys: seq<nat>, x: nat, y: nat,
                          at: nat, right: nat, up: nat, both: nat)
      requires Shape() && Inverse(mapping, xs, ys, width, height) && x + 1 < width && y + 1 < height
      requires at == mapping[y, x] && right == mapping[y, x + 1] && up == mapping[y + 1, x] && both == mapping[y + 1, x + 1]
      requires NoGain(conn, xs, ys, at, right) && NoGain(conn, xs, ys, at, up) && NoGain(conn, xs, ys, at, both)
      ensures SettledBefore(conn, xs, ys, x, y) ==> SettledBefore(conn, xs, ys, x + 1, y)
    {
      hide NoGain;
      if SettledBefore(conn, xs, ys, x, y) {
        forall p, q | 0 <= p < |xs| && 0 <= q < |xs| && Before(xs[p], ys[p], x + 1, y)
          && Tried(width, height, xs[p], ys[p], xs[q], ys[q])
          ensures NoGain(conn, xs, ys, p, q)
        {
          if !Before(xs[p], ys[p], x, y) {
            assert p == at && (q == right || q == up || q == both);
          }
        }
      }
    }

    method Pass(ghost conn: Weight) returns (change: bool)
      requires Shape() && Placed(conn) && Counted(conn) && CostFits(conn, width, height)
      modifies this`currentCost, mapping, xCoord, yCoord
      ensures Placed(conn)
      ensures change ==> currentCost < old(currentCost)
      ensures !change ==> Settled(conn, xCoord[..], yCoord[..], width, height)
    {
      hide CostFits, Cost, NoGain, Placed, Counted;
      change := false;
      for y := 0 to height - 1
        invariant Placed(conn)
        invariant if change then currentCost < old(currentCost)
          else currentCost == old(currentCost) && SettledBefore(conn, xCoord[..], yCoord[..], 0, y)
      {
        for x := 0 to width - 1
          invariant Placed(conn)
          invariant if change then currentCost < old(currentCost)
            else currentCost == old(currentCost) && SettledBefore(conn, xCoord[..], yCoord[..], x, y)
        {
          var c := TrySwaps(x, y, conn);
          change := c || change;
        }
      }
    }

    // Passes over the mesh until nothing improves
    method Search(ghost conn: Weight)
      requires Shape() && Counted(conn) && CostFits(conn, width, height)
      modifies this`currentCost, this`attempts, mapping, xCoord, yCoord
      ensures Placed(conn) && Settled(conn, xCoord[..], yCoord[..], width, height) && currentCost <= MAX64
      ensures attempts == old(attempts) + [Attempt(xCoord[..], yCoord[..])]
      ensures Sought(conn, Attempt(xCoord[..], yCoord[..]), width, height)
    {
      hide CostFits, Cost, NoGain;
      RandomPlacement();
      currentCost := ComputeCost(conn);
      var change := true;
      while change
        invariant Placed(conn) && attempts == old(attempts)
        invariant !change ==> Settled(conn, xCoord[..], yCoord[..], width, height)
        decreases if change then 1 else 0, currentCost
      {
        change := Pass(conn);
      }
      attempts := attempts + [Attempt(xCoord[..], yCoord[..])];
      CostInRange(conn, xCoord[..], yCoord[..]);
      InverseSpots(mapping, Attempt(xCoord[..], yCoord[..]), width, height);
    }

    // Place: the result is one of the attempts just made, and the cheapest of them
    method Place(numAttempts: nat, ghost conn: Weight)
      requires Shape() && Counted(conn) && CostFits(conn, width, height) && numAttempts > 0
      modifies this, mapping, xCoord, yCoord, mappingSaved, xCoordSaved, yCoordSaved
      ensures Placed(conn) && Settled(conn, xCoord[..], yCoord[..], width, height)
      ensures |attempts| == |old(attempts)| + numAttempts && old(attempts) <= attempts
      ensures Cheapest(conn, attempts[|old(attempts)|..], Attempt(xCoord[..], yCoord[..]), NumParts())
      ensures forall i | |old(attempts)| <= i < |attempts| :: Sought(conn, attempts[i], width, height)
      ensures searches == old(searches)
    {
      hide CostFits, Cost, NoGain, Placed, Settled, Counted, Saved, Cheapest, Sought;
      savedCost := MAX64;
      ghost var start := |attempts|;
      for n := 0 to numAttempts
        invariant Counted(conn) && |attempts| == start + n && old(attempts) <= attempts
        invariant n == 0 ==> savedCost == MAX64
        invariant n > 0 ==> (
          && Placed(conn) && Settled(conn, xCoord[..], yCoord[..], width, height) && currentCost == savedCost
          && Saved(conn) && xCoord[..] == xCoordSaved[..] && yCoord[..] == yCoordSaved[..]
          && Cheapest(conn, attempts[start..], Attempt(xCoordSaved[..], yCoordSaved[..]), NumParts()))
        invariant searches == old(searches) && forall i | start <= i < |attempts| :: Sought(conn, attempts[i], width, height)
      {
        ghost var tried, best := attempts[start..], Attempt(xCoordSaved[..], yCoordSaved[..]);
        if n > 0 {
          SavedCost(conn);
        }
        Search(conn);
        ghost var last := Attempt(xCoord[..], yCoord[..]);
        assert attempts[start..] == tried + [last];
        OneAttemptMore(conn, tried, best, last, savedCost);
        if currentCost <= savedCost {
          Save(conn);
        } else {
          Restore(conn);
        }
      }
    }

    lemma SavedCost(conn: Weight)
      requires Saved(conn)
      ensures savedCost == Cost(conn, xCoordSaved[..], yCoordSaved[..], NumParts())
    {
    }

    // A new attempt is the cheapest if it costs no more than the best so far
    lemma OneAttemptMore(conn: Weight, tried: seq<Attempt>, best: Attempt, last: Attempt, saved: nat)
      requires Shape() && Placed(conn) && last == Attempt(xCoord[..], yCoord[..]) && saved == savedCost
      requires if tried == [] then saved == MAX64 && currentCost <= MAX64
        else Cheapest(conn, tried, best, NumParts()) && saved == Cost(conn, best.xs, best.ys, NumParts())
      ensures Cheapest(conn, tried + [last], if currentCost <= savedCost then last else best, NumParts())
    {
      hide Cost;
    }
  }
}
