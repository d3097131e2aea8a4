// Where the devices of a mapped graph are: on which boards, on which mailboxes of
// the boards, and on which threads of the mailboxes.
module Placings {
  import opened NodeGraphs
  import opened PGraphs
  import opened Placers
  import opened Searches

  const MAX_THREADS: nat := 0x1_0000
  // Boards in the mesh, mailboxes on a board and threads on a mailbox
  const MESH: nat := 8
  const MAILBOXES: nat := 4
  const THREADS: nat := 64
  const MAX_LOCAL_DEVICES: nat := 8192

  // Ids of boards and mailboxes: the leading bits of the ids of their threads
  function BoardId(x: nat, y: nat): nat { y * MESH + x }
  function BoxId(board: nat, x: nat, y: nat): nat { (board * MAILBOXES + y) * MAILBOXES + x }

  // The parts of a thread id
  function BoardX(t: nat): nat { t / 1024 % 8 }
  function BoardY(t: nat): nat { t / 8192 }
  function BoxX(t: nat): nat { t / 64 % 4 }
  function BoxY(t: nat): nat { t / 256 % 4 }

  lemma BoardFields(t: nat)
    ensures t / 1024 == BoardId(BoardX(t), BoardY(t))
  {
  }

  lemma BoxFields(t: nat)
    ensures t / 64 == BoxId(t / 1024, BoxX(t), BoxY(t))
  {
    var box, row := t / 64, t / 256;
    assert box == row * 4 + box % 4 by { assert box == box / 4 * 4 + box % 4; }
    assert row == t / 1024 * 4 + row % 4 by { assert row == row / 4 * 4 + row % 4; }
  }

  // Attempts that the placer makes
  const EFFORT: nat := 8

  // Sizes of the levels: a mailbox has as many threads as a 64 by 1 mesh
  ghost predicate PartOfGraph(g: NodeGraph, sub: NodeGraph, part: seq<nat>, p: nat) {
    g.Valid() && |part| == g.Size() && Wired(g, sub, part, p, |part|, [])
  }

  function ThreadAt(addr: seq<nat>, d: nat): nat { if d < |addr| then GetThreadId(addr[d]) else 0 }

  // Every device of a mailbox is on the thread that its part says
  ghost predicate OnThreads(addr: seq<nat>, sub: NodeGraph, box: nat, how: Method) {
    exists part: seq<nat>, searches :: PartsOnThreads(addr, sub, box, how, part, searches)
  }

  ghost predicate PartsOnThreads(addr: seq<nat>, sub: NodeGraph, box: nat, how: Method, part: seq<nat>,
                                 searches: seq<Sweep>)
  {
    && Parted(sub, how, part, THREADS, searches) && |sub.labels| == |part|
    && forall v | 0 <= v < |part| :: ThreadAt(addr, sub.labels[v]) == box * THREADS + part[v]
  }

  // Every device of a board is on the mailbox where its part has been placed
  ghost predicate OnBoxes(addr: seq<nat>, sub: NodeGraph, board: nat, how: Method) {
    exists q :: PartsOnBoxes(addr, sub, board, how, q)
  }

  ghost predicate PartsOnBoxes(addr: seq<nat>, sub: NodeGraph, board: nat, how: Method, q: Placement) {
    && WellPlaced(sub, how, q, EFFORT) && q.width == q.height == MAILBOXES
    && |sub.labels| == |q.part| && |q.best.xs| == |q.best.ys| == q.width * q.height
    && (forall v | 0 <= v < |q.part| ::
          var t := ThreadAt(addr, sub.labels[v]);
          t / 1024 == board && BoxX(t) == q.best.xs[q.part[v]] && BoxY(t) == q.best.ys[q.part[v]])
    && (forall p | 0 <= p < |q.best.xs| :: BoxMapped(addr, sub, board, how, q, p))
  }

  // ... and the devices of each of these parts are on its threads
  ghost predicate BoxMapped(addr: seq<nat>, g: NodeGraph, board: nat, how: Method, q: Placement, p: nat)
    requires p < |q.best.xs| == |q.best.ys|
  {
    exists sub :: PartOfGraph(g, sub, q.part, p) && OnThreads(addr, sub, BoxId(board, q.best.xs[p], q.best.ys[p]), how)
  }

  // Every device of the graph is on the board where its part has been placed
  ghost predicate OnBoards(addr: seq<nat>, g: NodeGraph, width: nat, height: nat, how: Method) {
    exists q :: PartsOnBoards(addr, g, width, height, how, q)
  }

  ghost predicate PartsOnBoards(addr: seq<nat>, g: NodeGraph, width: nat, height: nat, how: Method, q: Placement) {
    && WellPlaced(g, how, q, EFFORT) && q.width == width && q.height == height
    && |g.labels| == |q.part| && |q.best.xs| == |q.best.ys| == q.width * q.height
    && (forall v | 0 <= v < |q.part| ::
          var t := ThreadAt(addr, g.labels[v]);
          BoardX(t) == q.best.xs[q.part[v]] && BoardY(t) == q.best.ys[q.part[v]])
    && (forall p | 0 <= p < |q.best.xs| :: BoardMapped(addr, g, how, q, p))
  }

  ghost predicate BoardMapped(addr: seq<nat>, g: NodeGraph, how: Method, q: Placement, p: nat)
    requires p < |q.best.xs| == |q.best.ys|
  {
    exists sub :: PartOfGraph(g, sub, q.part, p) && OnBoxes(addr, sub, BoardId(q.best.xs[p], q.best.ys[p]), how)
  }

  // Devices on the threads of a mailbox are in the mailbox, and those on the
  // mailboxes of a board are on the board
  lemma InBox(addr: seq<nat>, sub: NodeGraph, box: nat, how: Method, l: nat)
    requires OnThreads(addr, sub, box, how) && l in sub.labels
    ensures ThreadAt(addr, l) / THREADS == box
  {
    hide Balanced, FullBefore, BySearches, Rising, Alone;
    var part, searches :| PartsOnThreads(addr, sub, box, how, part, searches);
    var v :| 0 <= v < |sub.labels| && sub.labels[v] == l;
  }

  lemma InBoard(addr: seq<nat>, sub: NodeGraph, board: nat, how: Method, l: nat)
    requires OnBoxes(addr, sub, board, how) && l in sub.labels
    ensures ThreadAt(addr, l) / 1024 == board
  {
    hide WellPlaced, BoxMapped;
    var q :| PartsOnBoxes(addr, sub, board, how, q);
    var v :| 0 <= v < |sub.labels| && sub.labels[v] == l;
  }

  lemma BoxIs(t: nat, board: nat, x: nat, y: nat)
    requires x < MAILBOXES && y < MAILBOXES && t / THREADS == BoxId(board, x, y)
    ensures t / 1024 == board && BoxX(t) == x && BoxY(t) == y
  {
    assert t / 256 == t / 64 / 4 == board * 4 + y;
    assert t / 1024 == t / 256 / 4;
  }

  lemma BoardIs(t: nat, x: nat, y: nat)
    requires x < MESH && t / 1024 == BoardId(x, y)
    ensures BoardX(t) == x && BoardY(t) == y
  {
    assert t / 8192 == t / 1024 / 8;
  }

  // ---------------------------------------------------------------------
  // These depend on the addresses of the devices at hand only

  ghost predicate SameOn(addr: seq<nat>, addr': seq<nat>, labels: seq<nat>) {
    |addr| == |addr'| && forall l | l in labels && l < |addr| :: addr'[l] == addr[l]
  }

  lemma ThreadsFrame(addr: seq<nat>, addr': seq<nat>, sub: NodeGraph, box: nat, how: Method)
    requires OnThreads(addr, sub, box, how) && SameOn(addr, addr', sub.labels)
    ensures OnThreads(addr', sub, box, how)
  {
    hide Parted;
    var part, searches :| PartsOnThreads(addr, sub, box, how, part, searches);
    forall v | 0 <= v < |part| ensures ThreadAt(addr', sub.labels[v]) == ThreadAt(addr, sub.labels[v]) {
      assert sub.labels[v] in sub.labels;
    }
    assert PartsOnThreads(addr', sub, box, how, part, searches);
  }

  lemma PartLabels(g: NodeGraph, sub: NodeGraph, part: seq<nat>, p: nat, l: nat)
    requires PartOfGraph(g, sub, part, p) && l in sub.labels
    ensures l in g.labels
  {
    hide Consistent, Inner, Rank;
    var k :| 0 <= k < |sub.labels| && sub.labels[k] == l;
    assert l == g.labels[Chosen(part, p, |part|)[k]];
  }

  lemma BoxesFrame(addr: seq<nat>, addr': seq<nat>, g: NodeGraph, board: nat, how: Method)
    requires OnBoxes(addr, g, board, how) && SameOn(addr, addr', g.labels)
    ensures OnBoxes(addr', g, board, how)
  {
    hide WellPlaced, OnThreads, PartOfGraph;
    var q :| PartsOnBoxes(addr, g, board, how, q);
    forall v | 0 <= v < |q.part| ensures ThreadAt(addr', g.labels[v]) == ThreadAt(addr, g.labels[v]) {
      assert g.labels[v] in g.labels;
    }
    forall p | 0 <= p < |q.best.xs| ensures BoxMapped(addr', g, board, how, q, p) {
      assert BoxMapped(addr, g, board, how, q, p);
      BoxFrame(addr, addr', g, board, how, q, p);
    }
    assert PartsOnBoxes(addr', g, board, how, q);
  }

  lemma BoxFrame(addr: seq<nat>, addr': seq<nat>, g: NodeGraph, board: nat, how: Method, q: Placement, p: nat)
    requires p < |q.best.xs| == |q.best.ys| && BoxMapped(addr, g, board, how, q, p) && SameOn(addr, addr', g.labels)
    ensures BoxMapped(addr', g, board, how, q, p)
  {
    hide OnThreads, PartOfGraph;
    var sub :| PartOfGraph(g, sub, q.part, p) && OnThreads(addr, sub, BoxId(board, q.best.xs[p], q.best.ys[p]), how);
    forall l | l in sub.labels && l < |addr| ensures addr'[l] == addr[l] {
      PartLabels(g, sub, q.part, p, l);
    }
    ThreadsFrame(addr, addr', sub, BoxId(board, q.best.xs[p], q.best.ys[p]), how);
  }

  lemma BoardFrame(addr: seq<nat>, addr': seq<nat>, g: NodeGraph, how: Method, q: Placement, p: nat, sub: NodeGraph)
    requires p < |q.best.xs| == |q.best.ys| && PartOfGraph(g, sub, q.part, p)
    requires OnBoxes(addr, sub, BoardId(q.best.xs[p], q.best.ys[p]), how) && SameOn(addr, addr', sub.labels)
    ensures OnBoxes(addr', sub, BoardId(q.best.xs[p], q.best.ys[p]), how) && BoardMapped(addr', g, how, q, p)
  {
    hide OnBoxes, PartOfGraph;
    BoxesFrame(addr, addr', sub, BoardId(q.best.xs[p], q.best.ys[p]), how);
  }

  // ---------------------------------------------------------------------
  // What the placement is good for

  // Manhattan distance of the boards of two devices
  function BoardGap(addr: seq<nat>, labels: seq<nat>): Weight {
    (x: nat, y: nat) =>
      if x < |labels| && y < |labels| then
        var t, u := ThreadAt(addr, labels[x]), ThreadAt(addr, labels[y]);
        Gap(BoardX(t), BoardX(u)) + Gap(BoardY(t), BoardY(u))
      else 0
  }

  // ... and of their mailboxes, for devices of one board
  function BoxGap(addr: seq<nat>, labels: seq<nat>): Weight {
    (x: nat, y: nat) =>
      if x < |labels| && y < |labels| then
        var t, u := ThreadAt(addr, labels[x]), ThreadAt(addr, labels[y]);
        Gap(BoxX(t), BoxX(u)) + Gap(BoxY(t), BoxY(u))
      else 0
  }

  lemma {:induction false} SameSum(edges: seq<(nat, nat)>, f: Weight, h: Weight, n: nat)
    requires forall e | e in edges :: e.0 < n && e.1 < n
    requires forall x, y | 0 <= x < n && 0 <= y < n :: f(x, y) == h(x, y)
    ensures EdgeSum(edges, f) == EdgeSum(edges, h)
    decreases |edges|
  {
    if edges != [] {
      assert edges[|edges| - 1] in edges;
      SameSum(edges[..|edges| - 1], f, h, n);
    }
  }

  // 1 for an edge that leads out of the graph
  function Outside(n: nat): Weight { (x: nat, y: nat) => if x < n && y < n then 0 else 1 }

  lemma {:induction false} InsideRow(row: seq<nat>, x: nat, n: nat)
    requires x < n && forall k | 0 <= k < |row| :: row[k] < n
    ensures RowSum(row, x, Outside(n)) == 0
  {
    if row != [] {
      InsideRow(row[..|row| - 1], x, n);
    }
  }

  lemma {:induction false} InsideRows(rows: seq<seq<nat>>, n: nat, m: nat)
    requires m <= |rows| <= n && forall i | 0 <= i < |rows| :: forall k | 0 <= k < |rows[i]| :: rows[i][k] < n
    ensures RowsSum(rows, Outside(n), m) == 0
    decreases m
  {
    if m > 0 {
      InsideRows(rows, n, m - 1);
      InsideRow(rows[m - 1], m - 1, n);
    }
  }

  lemma {:induction false} InsideEdges(edges: seq<(nat, nat)>, n: nat, e: (nat, nat))
    ensures EdgeSum(edges, Outside(n)) >= 0
    ensures EdgeSum(edges, Outside(n)) == 0 && e in edges ==> e.0 < n && e.1 < n
    decreases |edges|
  {
    if edges != [] {
      InsideEdges(edges[..|edges| - 1], n, e);
    }
  }

  lemma EdgesInside(g: NodeGraph, edges: seq<(nat, nat)>, e: (nat, nat))
    requires HasEdges(g, edges) && e in edges
    ensures e.0 < g.Size() && e.1 < g.Size()
  {
    InsideRows(g.outgoing, g.Size(), g.Size());
    InsideEdges(edges, g.Size(), e);
  }

  // If distances between the places of devices are those of their parts, their sum over
  // all edges is the cost of the placement; no swap that the search tries would lower it
  lemma SumIsCost(g: NodeGraph, how: Method, q: Placement, edges: seq<(nat, nat)>, gap: Weight)
    requires WellPlaced(g, how, q, EFFORT) && |q.best.xs| == |q.best.ys| == q.width * q.height && HasEdges(g, edges)
    requires forall x, y | 0 <= x < |q.part| && 0 <= y < |q.part| :: gap(x, y) == Span(q.part, q.best.xs, q.best.ys)(x, y)
    ensures EdgeSum(edges, gap) == Cost(Connections(q.part, q.edges), q.best.xs, q.best.ys, |q.best.xs|)
  {
    hide Cost, HasEdges, Parted, Settled, Connections, Cheapest, Sought;
    forall e | e in q.edges ensures e.0 < |q.part| && e.1 < |q.part| {
      EdgesInside(g, q.edges, e);
      PartsAll(g, how, q);
    }
    PartsBelow(g, how, q);
    CostIsDistance(q.part, q.edges, q.best.xs, q.best.ys, |q.best.xs|);
    SameSum(q.edges, gap, Span(q.part, q.best.xs, q.best.ys), |q.part|);
    SameEdges(g, edges, q.edges, gap);
  }

  lemma SameEdges(g: NodeGraph, edges: seq<(nat, nat)>, edges': seq<(nat, nat)>, f: Weight)
    requires HasEdges(g, edges) && HasEdges(g, edges')
    ensures EdgeSum(edges, f) == EdgeSum(edges', f)
  {
    assert RowsSum(g.outgoing, f, |g.outgoing|) == EdgeSum(edges, f) == EdgeSum(edges', f);
  }

  lemma BoardSpan(addr: seq<nat>, g: NodeGraph, width: nat, height: nat, how: Method, q: Placement,
                  x: nat, y: nat)
    requires PartsOnBoards(addr, g, width, height, how, q) && x < |q.part| && y < |q.part|
    ensures BoardGap(addr, g.labels)(x, y) == Span(q.part, q.best.xs, q.best.ys)(x, y)
  {
    PartsBelow(g, how, q);
    hide WellPlaced, BoardMapped, BoardX, BoardY, ThreadAt;
    assert PartOf(q.part, x) == q.part[x] && PartOf(q.part, y) == q.part[y];
    assert BoardX(ThreadAt(addr, g.labels[x])) == q.best.xs[q.part[x]];
    assert BoardX(ThreadAt(addr, g.labels[y])) == q.best.xs[q.part[y]];
  }

  lemma BoxSpan(addr: seq<nat>, g: NodeGraph, board: nat, how: Method, q: Placement, x: nat, y: nat)
    requires PartsOnBoxes(addr, g, board, how, q) && x < |q.part| && y < |q.part|
    ensures BoxGap(addr, g.labels)(x, y) == Span(q.part, q.best.xs, q.best.ys)(x, y)
  {
    PartsBelow(g, how, q);
    hide WellPlaced, BoxMapped, BoxX, BoxY, ThreadAt;
    assert PartOf(q.part, x) == q.part[x] && PartOf(q.part, y) == q.part[y];
    assert BoxX(ThreadAt(addr, g.labels[x])) == q.best.xs[q.part[x]];
    assert BoxX(ThreadAt(addr, g.labels[y])) == q.best.xs[q.part[y]];
  }

  // What the placement of the boards is good for: the distances between the boards of
  // the ends of all edges add up to its cost, which no swap that is tried would lower
  // and which no attempt has undercut
  lemma BoardsNear(addr: seq<nat>, g: NodeGraph, edges: seq<(nat, nat)>, width: nat, height: nat, how: Method, q: Placement)
    requires PartsOnBoards(addr, g, width, height, how, q) && HasEdges(g, edges)
    ensures var conn := Connections(q.part, q.edges);
      && EdgeSum(edges, BoardGap(addr, g.labels)) == Cost(conn, q.best.xs, q.best.ys, |q.best.xs|)
      && Settled(conn, q.best.xs, q.best.ys, width, height)
      && forall a | a in q.tried :: EdgeSum(edges, BoardGap(addr, g.labels)) <= Cost(conn, a.xs, a.ys, |q.best.xs|)
  {
    hide Cost, HasEdges, Parted, Settled, BoardMapped, Connections;
    forall x: nat, y: nat | x < |q.part| && y < |q.part|
      ensures BoardGap(addr, g.labels)(x, y) == Span(q.part, q.best.xs, q.best.ys)(x, y)
    {
      BoardSpan(addr, g, width, height, how, q, x, y);
    }
    SumIsCost(g, how, q, edges, BoardGap(addr, g.labels));
  }

  // ... and the same for the mailboxes of a board
  lemma BoxesNear(addr: seq<nat>, g: NodeGraph, edges: seq<(nat, nat)>, board: nat, how: Method, q: Placement)
    requires PartsOnBoxes(addr, g, board, how, q) && HasEdges(g, edges)
    ensures var conn := Connections(q.part, q.edges);
      && EdgeSum(edges, BoxGap(addr, g.labels)) == Cost(conn, q.best.xs, q.best.ys, |q.best.xs|)
      && Settled(conn, q.best.xs, q.best.ys, MAILBOXES, MAILBOXES)
      && forall a | a in q.tried :: EdgeSum(edges, BoxGap(addr, g.labels)) <= Cost(conn, a.xs, a.ys, |q.best.xs|)
  {
    hide Cost, HasEdges, Parted, Settled, BoxMapped, Connections;
    forall x: nat, y: nat | x < |q.part| && y < |q.part|
      ensures BoxGap(addr, g.labels)(x, y) == Span(q.part, q.best.xs, q.best.ys)(x, y)
    {
      BoxSpan(addr, g, board, how, q, x, y);
    }
    SumIsCost(g, how, q, edges, BoxGap(addr, g.labels));
  }

  lemma PartsAll(g: NodeGraph, how: Method, q: Placement)
    requires WellPlaced(g, how, q, EFFORT)
    ensures |q.part| == g.Size()
  {
    hide HasEdges, Cheapest, Sought;
  }

  lemma PartsBelow(g: NodeGraph, how: Method, q: Placement)
    requires WellPlaced(g, how, q, EFFORT) && |q.best.xs| == q.width * q.height
    ensures forall x: nat :: PartOf(q.part, x) < |q.best.xs|
  {
    hide HasEdges, Cheapest, Sought, Balanced, FullBefore, BySearches, Rising, Alone;
  }
}
