// Mapping of devices to threads: partitioning and placement on boards, then on
// the mailboxes of each board, then partitioning onto the threads of each mailbox.
module Mappers {
  import opened NodeGraphs
  import opened PGraphs
  import opened Placers
  import opened RoutingTables
  import opened Linking
  import opened Placings
  import opened Searches

  // Position (x, y) comes before (i, j), row by row
  predicate RowOrder(x: nat, y: nat, i: nat, j: nat) { y < j || (y == j && x < i) }

  // The first n threads of one mailbox
  ghost function BoxThreads(box: nat, n: nat): set<nat> {
    set t: nat | t < MAX_THREADS && t / 64 == box && t % 64 < n
  }

  // Threads of the mailboxes of one board that come before (boxX, boxY), column by column
  ghost function BoardThreads(board: nat, boxX: nat, boxY: nat): set<nat> {
    set t: nat | t < MAX_THREADS && t / 1024 == board && RowOrder(BoxY(t), BoxX(t), boxY, boxX)
  }

  // Threads of the boards before (boardX, boardY), among boards with x coordinate below numBoardsX
  ghost function MeshThreads(numBoardsX: nat, boardX: nat, boardY: nat): set<nat> {
    set t: nat | t < MAX_THREADS && BoardX(t) < numBoardsX && RowOrder(BoardX(t), BoardY(t), boardX, boardY)
  }

  lemma OneThread(box: nat, n: nat)
    requires box < MAX_THREADS / 64 && n < THREADS
    ensures BoxThreads(box, n + 1) == BoxThreads(box, n) + {box * THREADS + n}
    ensures box * THREADS + n < MAX_THREADS && box * THREADS + n !in BoxThreads(box, n)
    ensures BoxThreads(box, 0) == {} && box * THREADS + n in BoxThreads(box, THREADS)
  {
    forall t | t in BoxThreads(box, n + 1) && t !in BoxThreads(box, n) ensures t == box * THREADS + n {
      assert t == t / 64 * 64 + t % 64;
    }
  }

  lemma OneBox(board: nat, boxX: nat, boxY: nat)
    requires boxX < MAILBOXES && boxY < MAILBOXES
    ensures var threads := BoxThreads(BoxId(board, boxX, boxY), THREADS);
      && BoardThreads(board, boxX, boxY + 1) == BoardThreads(board, boxX, boxY) + threads
      && BoardThreads(board, boxX, boxY) !! threads && threads <= BoardThreads(board, MAILBOXES, 0)
  {
    forall t: nat ensures t / 64 == BoxId(board, boxX, boxY) <==> t / 1024 == board && BoxX(t) == boxX && BoxY(t) == boxY {
      BoxFields(t);
    }
  }

  lemma OneColumn(board: nat, boxX: nat)
    ensures BoardThreads(board, boxX, MAILBOXES) == BoardThreads(board, boxX + 1, 0)
  {
  }

  lemma NoBoxes(board: nat)
    ensures BoardThreads(board, 0, 0) == {}
  {
  }

  lemma OneBoard(numBoardsX: nat, numBoardsY: nat, boardX: nat, boardY: nat)
    requires boardX < numBoardsX <= MESH && boardY < numBoardsY <= MESH
    ensures var threads := BoardThreads(BoardId(boardX, boardY), MAILBOXES, 0);
      && MeshThreads(numBoardsX, boardX + 1, boardY) == MeshThreads(numBoardsX, boardX, boardY) + threads
      && MeshThreads(numBoardsX, boardX, boardY) !! threads && threads <= MeshThreads(numBoardsX, 0, numBoardsY)
  {
    var threads := BoardThreads(BoardId(boardX, boardY), MAILBOXES, 0);
    forall t: nat ensures t in threads <==> t < MAX_THREADS && BoardX(t) == boardX && BoardY(t) == boardY {
      BoardFields(t);
    }
    hide BoardThreads;
  }

  lemma NoBoards(numBoardsX: nat)
    ensures MeshThreads(numBoardsX, 0, 0) == {}
  {
  }

  lemma OneMeshRow(numBoardsX: nat, boardY: nat)
    ensures MeshThreads(numBoardsX, numBoardsX, boardY) == MeshThreads(numBoardsX, 0, boardY + 1)
  {
  }

  ghost function Elements(s: seq<nat>): set<nat> { set l | l in s }

  // Labels of a set of subgraphs
  ghost function LabelsIn(labels: seq<seq<nat>>, parts: set<nat>): set<nat> {
    set p, l | p in parts && p < |labels| && l in labels[p] :: l
  }

  lemma LabelsOne(labels: seq<seq<nat>>, parts: set<nat>, p: nat)
    requires p < |labels|
    ensures LabelsIn(labels, parts + {p}) == LabelsIn(labels, parts) + Elements(labels[p])
  {
  }

  lemma LabelsApart(whole: seq<nat>, labels: seq<seq<nat>>, parts: set<nat>, p: nat)
    requires Splits(whole, labels) && p < |labels| && p !in parts
    ensures LabelsIn(labels, parts) !! Elements(labels[p])
  {
  }

  lemma LabelsAll(whole: seq<nat>, labels: seq<seq<nat>>, parts: set<nat>)
    requires Splits(whole, labels) && forall p | 0 <= p < |labels| :: p in parts
    ensures LabelsIn(labels, parts) == Elements(whole)
  {
    forall l | l in whole ensures l in LabelsIn(labels, parts) {
      var p :| 0 <= p < |labels| && l in labels[p];
    }
  }

  lemma PartsDistinct(whole: seq<nat>, labels: seq<seq<nat>>, p: nat, n: nat)
    requires Splits(whole, labels) && p < |labels| && Placers.Within(whole, n)
    ensures Distinct(labels[p]) && Placers.Within(labels[p], n) && Elements(labels[p]) <= Elements(whole)
  {
  }

  ghost function LabelLists(subs: seq<NodeGraph>): seq<seq<nat>> {
    seq(|subs|, p requires 0 <= p < |subs| => subs[p].labels)
  }

  ghost function Below(n: nat): (r: set<nat>)
    ensures forall p: nat :: p in r <==> p < n
  {
    if n == 0 then {} else Below(n - 1) + {n - 1}
  }

  // The parts at the positions before (x, y), row by row or column by column
  ghost predicate Visited(mapping: array2<nat>, parts: set<nat>, x: nat, y: nat, rows: bool)
    reads mapping
  {
    forall i, j | 0 <= i < mapping.Length1 && 0 <= j < mapping.Length0 ::
      mapping[j, i] in parts <==> if rows then RowOrder(i, j, x, y) else RowOrder(j, i, y, x)
  }

  lemma VisitOne(mapping: array2<nat>, xs: seq<nat>, ys: seq<nat>, parts: set<nat>, x: nat, y: nat, rows: bool)
    requires x < mapping.Length1 && y < mapping.Length0 && Inverse(mapping, xs, ys, mapping.Length1, mapping.Length0)
    requires Visited(mapping, parts, x, y, rows)
    ensures Visited(mapping, parts + {mapping[y, x]}, if rows then x + 1 else x, if rows then y else y + 1, rows)
  {
    var p := mapping[y, x];
    forall i, j | 0 <= i < mapping.Length1 && 0 <= j < mapping.Length0
      ensures mapping[j, i] == p <==> i == x && j == y
    {
      assert xs[p] == x && ys[p] == y && xs[mapping[j, i]] == i && ys[mapping[j, i]] == j;
    }
  }

  lemma VisitAll(mapping: array2<nat>, xs: seq<nat>, ys: seq<nat>, parts: set<nat>, x: nat, y: nat, rows: bool)
    requires Inverse(mapping, xs, ys, mapping.Length1, mapping.Length0) && Visited(mapping, parts, x, y, rows)
    requires if rows then y == mapping.Length0 else x == mapping.Length1
    ensures forall p | 0 <= p < |xs| :: p in parts
  {
    forall p | 0 <= p < |xs| ensures p in parts {
      assert mapping[ys[p], xs[p]] == p;
    }
  }

  lemma NotVisited(mapping: array2<nat>, parts: set<nat>, x: nat, y: nat, rows: bool)
    requires x < mapping.Length1 && y < mapping.Length0 && Visited(mapping, parts, x, y, rows)
    ensures mapping[y, x] !in parts
  {
  }

  lemma NothingVisited(mapping: array2<nat>, rows: bool)
    ensures Visited(mapping, {}, 0, 0, rows)
  {
  }

  lemma NextColumn(mapping: array2<nat>, parts: set<nat>, x: nat, height: nat)
    requires height == mapping.Length0 && Visited(mapping, parts, x, height, false)
    ensures Visited(mapping, parts, x + 1, 0, false)
  {
  }

  lemma NextRow(mapping: array2<nat>, parts: set<nat>, y: nat, width: nat)
    requires width == mapping.Length1 && Visited(mapping, parts, width, y, true)
    ensures Visited(mapping, parts, 0, y + 1, true)
  {
  }

  // Devices are numbered in the order of their creation
  predicate Numbered(labels: seq<nat>) {
    forall i | 0 <= i < |labels| :: labels[i] == i
  }

  lemma NumberedDistinct(labels: seq<nat>)
    requires Numbered(labels)
    ensures Distinct(labels) && Placers.Within(labels, |labels|)
  {
  }

  lemma FewerFit(most: nat, edges: nat, width: nat, height: nat)
    requires edges <= most && most * (2 * MESH) <= MAX64 && width <= MESH && height <= MESH
    ensures edges * (width + height) <= MAX64
  {
    assert edges * (width + height) <= edges * (2 * MESH) <= most * (2 * MESH);
  }

  lemma SubConsistent(g: NodeGraph, sub: NodeGraph, part: seq<nat>, p: nat, most: nat)
    requires g.Valid() && |part| == g.Size() && Wired(g, sub, part, p, |part|, [])
    requires Arcs(g.outgoing, |part|) <= most
    ensures Consistent(sub, most) && sub.Shape()
  {
    MoreEdges(sub, Arcs(g.outgoing, |part|), most);
  }

  ghost function ArcsOf(g: NodeGraph, most: nat): (edges: seq<(nat, nat)>)
    requires Consistent(g, most)
    ensures HasEdges(g, edges) && |edges| <= most && g.Valid()
  {
    var edges :| HasEdges(g, edges) && |edges| <= most;
    edges
  }

  // A node of a graph is among the labels of the subgraph of its part
  lemma LabelInPart(g: NodeGraph, sub: NodeGraph, part: seq<nat>, v: nat)
    requires v < |part| == |g.labels| && PartOfGraph(g, sub, part, part[v])
    ensures g.labels[v] in sub.labels
  {
    hide Consistent, Inner;
    ChosenAt(part, v, |part|);
    var chosen := Chosen(part, part[v], |part|);
    assert sub.labels[Rank(part, v)] == g.labels[chosen[Rank(part, v)]];
  }

  // The subgraphs of a placed graph split its nodes
  ghost predicate Level(pl: Placer, g: NodeGraph, width: nat, height: nat, labels: seq<seq<nat>>, most: nat, how: Method,
                        q: Placement)
    reads pl.subgraphs, pl.mapping, pl.xCoord, pl.yCoord
  {
    && WellPlaced(g, how, q, EFFORT) && q.width == width && q.height == height
    && q.best == Attempt(pl.xCoord[..], pl.yCoord[..])
    && Inverse(pl.mapping, pl.xCoord[..], pl.yCoord[..], width, height)
    && pl.subgraphs.Length == |labels| == width * height && Splits(g.labels, labels)
    && (forall p | 0 <= p < |labels| ::
          && Consistent(pl.subgraphs[p], most) && pl.subgraphs[p].Shape() && pl.subgraphs[p].labels == labels[p]
          && PartOfGraph(g, pl.subgraphs[p], q.part, p))
  }

  lemma LevelSize(pl: Placer, g: NodeGraph, width: nat, height: nat, labels: seq<seq<nat>>, most: nat, how: Method,
                  q: Placement)
    requires Level(pl, g, width, height, labels, most, how, q)
    ensures pl.mapping.Length0 == height && pl.mapping.Length1 == width
  {
    hide WellPlaced, PartOfGraph;
  }

  // Partition into subgraphs, and place them onto a 2D mesh
  method PlaceLevel(g: NodeGraph, width: nat, height: nat, how: Method, ghost most: nat)
    returns (pl: Placer, ghost labels: seq<seq<nat>>, ghost q: Placement)
    requires 0 < width <= MESH && 0 < height <= MESH && most * (2 * MESH) <= MAX64
    requires Consistent(g, most) && Distinct(g.labels)
    ensures Level(pl, g, width, height, labels, most, how, q)
    ensures fresh(pl.subgraphs) && fresh(pl.mapping) && fresh(pl.xCoord) && fresh(pl.yCoord)
  {
    hide Wired, Splits, HasEdges, Counted, CostFits, Cost, Consistent, Settled, Balanced, FullBefore, BySearches, Rising,
         Alone, Sought, Cheapest;
    ghost var edges := ArcsOf(g, most);
    ArcsAreEdges(g, edges);
    FewerFit(most, |edges|, width, height);
    pl := new Placer(g, width, height, how, edges);
    FewEdgesFit(pl.partitions[..], edges, width, height);
    labels := LabelLists(pl.subgraphs[..]);
    SubgraphsSplit(g, pl.subgraphs[..], pl.partitions[..], labels);
    forall p | 0 <= p < |labels| ensures Consistent(pl.subgraphs[p], most) && pl.subgraphs[p].Shape() {
      SubConsistent(g, pl.subgraphs[p], pl.partitions[..], p, most);
    }
    ghost var part, start, searches := pl.partitions[..], |pl.attempts|, pl.searches;
    pl.Place(EFFORT, Connections(part, edges));
    q := Placement(part, width, height, Attempt(pl.xCoord[..], pl.yCoord[..]), pl.attempts[start..], edges, searches);
  }

  // Splits the nodes of a mailbox over its threads
  method SplitThreads(g: NodeGraph, how: Method, ghost most: nat)
    returns (subs: seq<NodeGraph>, ghost labels: seq<seq<nat>>, ghost part: seq<nat>, ghost searches: seq<Sweep>)
    requires Consistent(g, most) && Distinct(g.labels)
    ensures Parted(g, how, part, THREADS, searches)
    ensures |subs| == |labels| == THREADS && Splits(g.labels, labels)
    ensures forall p | 0 <= p < THREADS :: labels[p] == subs[p].labels && PartOfGraph(g, subs[p], part, p)
  {
    hide Wired, Splits, HasEdges, Counted, Consistent, Balanced, FullBefore, BySearches, Rising, Alone;
    ghost var edges := ArcsOf(g, most);
    var threads := new Placer(g, THREADS, 1, how, edges);
    subs := threads.subgraphs[..];
    labels := LabelLists(subs);
    part, searches := threads.partitions[..], threads.searches;
    SubgraphsSplit(g, subs, part, labels);
  }

  class Mapper {
    const graph: NodeGraph
    const numBoardsX: nat
    const numBoardsY: nat
    // Addresses of devices, and devices at addresses
    const toDeviceAddr: array<nat>
    const fromDeviceAddr: array<seq<nat>>
    // Number of devices of each thread
    const numDevicesOnThread: array<nat>

    ghost predicate Shape() {
      && numBoardsX <= MESH && numBoardsY <= MESH
      && toDeviceAddr.Length == graph.Size() && fromDeviceAddr.Length == numDevicesOnThread.Length == MAX_THREADS
      && toDeviceAddr != numDevicesOnThread
    }

    // The devices are on the threads, and nothing else is: both mappings are
    // inverse to each other
    ghost predicate Settled(devs: set<nat>, threads: set<nat>)
      requires Shape()
      reads toDeviceAddr, fromDeviceAddr, numDevicesOnThread
    {
      && (forall d | d in devs :: d < toDeviceAddr.Length
            && GetThreadId(toDeviceAddr[d]) in threads && GetThreadId(toDeviceAddr[d]) < MAX_THREADS
            && GetLocalDeviceId(toDeviceAddr[d]) < |fromDeviceAddr[GetThreadId(toDeviceAddr[d])]|
            && fromDeviceAddr[GetThreadId(toDeviceAddr[d])][GetLocalDeviceId(toDeviceAddr[d])] == d)
      && (forall t | t in threads :: t < MAX_THREADS
            && numDevicesOnThread[t] == |fromDeviceAddr[t]| < MAX_LOCAL_DEVICES
            && forall k | 0 <= k < |fromDeviceAddr[t]| ::
                 fromDeviceAddr[t][k] in devs && fromDeviceAddr[t][k] < toDeviceAddr.Length
                 && toDeviceAddr[fromDeviceAddr[t][k]] == MakeDeviceAddr(t, k))
    }

    // Only these devices and these threads have changed
    twostate predicate OnlyThese(new devs: set<nat>, new threads: set<nat>)
      requires Shape()
      reads toDeviceAddr, fromDeviceAddr, numDevicesOnThread
    {
      && (forall d | 0 <= d < toDeviceAddr.Length && d !in devs :: toDeviceAddr[d] == old(toDeviceAddr[d]))
      && (forall t | 0 <= t < MAX_THREADS && t !in threads ::
            fromDeviceAddr[t] == old(fromDeviceAddr[t]) && numDevicesOnThread[t] == old(numDevicesOnThread[t]))
    }

    twostate lemma Combine(new devs: set<nat>, new threads: set<nat>, new devs': set<nat>, new threads': set<nat>)
      requires Shape() && old(Settled(devs, threads)) && Settled(devs', threads') && OnlyThese(devs', threads')
      requires devs !! devs' && threads !! threads'
      ensures Settled(devs + devs', threads + threads')
    {
    }

    // Some thread has too many devices
    ghost predicate Crowded()
      reads fromDeviceAddr
    {
      exists t | 0 <= t < fromDeviceAddr.Length :: |fromDeviceAddr[t]| >= MAX_LOCAL_DEVICES
    }

    // Populate the mappings of one thread
    method MapThread(threadId: nat, labels: seq<nat>) returns (ok: bool)
      requires Shape() && threadId < MAX_THREADS
      requires Distinct(labels) && Placers.Within(labels, toDeviceAddr.Length)
      modifies toDeviceAddr, fromDeviceAddr, numDevicesOnThread
      ensures ok == (|labels| < MAX_LOCAL_DEVICES) && (!ok ==> Crowded())
      ensures ok ==> Settled(Elements(labels), {threadId}) && OnlyThese(Elements(labels), {threadId})
      ensures fromDeviceAddr[threadId] == labels
    {
      var numDevs := |labels|;
      numDevicesOnThread[threadId] := numDevs;
      fromDeviceAddr[threadId] := labels;
      if numDevs >= MAX_LOCAL_DEVICES { return false; }
      for devNum := 0 to numDevs
        modifies toDeviceAddr
        invariant forall k | 0 <= k < devNum :: toDeviceAddr[labels[k]] == MakeDeviceAddr(threadId, k)
        invariant forall d | 0 <= d < toDeviceAddr.Length && d !in labels :: toDeviceAddr[d] == old(toDeviceAddr[d])
      {
        toDeviceAddr[labels[devNum]] := MakeDeviceAddr(threadId, devNum);
      }
      forall d: nat | d in labels
        ensures d < toDeviceAddr.Length && GetThreadId(toDeviceAddr[d]) == threadId
          && GetLocalDeviceId(toDeviceAddr[d]) < |labels| && labels[GetLocalDeviceId(toDeviceAddr[d])] == d
      {
        var k :| 0 <= k < |labels| && labels[k] == d;
        DeviceAddrFields(threadId, k);
      }
      ok := true;
    }

    // One more part of a split has been mapped
    twostate lemma Extend(new whole: seq<nat>, new labels: seq<seq<nat>>, new parts: set<nat>, new p: nat,
                          new threads: set<nat>, new threads': set<nat>)
      requires Shape() && Splits(whole, labels) && p < |labels| && p !in parts
      requires old(Settled(LabelsIn(labels, parts), threads))
      requires Settled(Elements(labels[p]), threads') && OnlyThese(Elements(labels[p]), threads')
      requires threads !! threads'
      ensures Settled(LabelsIn(labels, parts + {p}), threads + threads')
    {
      hide Settled, OnlyThese, Splits, LabelsIn, Elements;
      LabelsOne(labels, parts, p);
      LabelsApart(whole, labels, parts, p);
      Combine(LabelsIn(labels, parts), threads, Elements(labels[p]), threads');
    }

    twostate lemma Widen(new devs: set<nat>, new threads: set<nat>, new devs': set<nat>, new threads': set<nat>)
      requires Shape() && OnlyThese(devs, threads) && devs <= devs' && threads <= threads'
      ensures OnlyThese(devs', threads')
    {
    }

    lemma NothingSettled(labels: seq<seq<nat>>)
      requires Shape()
      ensures Settled(LabelsIn(labels, {}), {})
    {
    }

    // All threads of one mailbox
    method MapBox(sub: NodeGraph, board: nat, boxX: nat, boxY: nat, how: Method, ghost most: nat) returns (ok: bool)
      requires Shape() && board < MESH * MESH && boxX < MAILBOXES && boxY < MAILBOXES
      requires Consistent(sub, most) && sub.Shape() && Distinct(sub.labels)
      requires Placers.Within(sub.labels, toDeviceAddr.Length)
      modifies toDeviceAddr, fromDeviceAddr, numDevicesOnThread
      ensures var threads := BoxThreads(BoxId(board, boxX, boxY), THREADS);
        ok ==> Settled(Elements(sub.labels), threads) && OnlyThese(Elements(sub.labels), threads)
      ensures ok ==> OnThreads(toDeviceAddr[..], sub, BoxId(board, boxX, boxY), how)
      ensures !ok ==> Crowded()
    {
      hide Settled, Splits, LabelsIn, BoxThreads, Elements, Consistent, Held, Parted, PartOfGraph, OnThreads;
      var box := BoxId(board, boxX, boxY);
      var threads, labels, part, searches := SplitThreads(sub, how, most);
      OneThread(box, 0);
      NothingSettled(labels);
      for threadNum := 0 to THREADS
        modifies toDeviceAddr, fromDeviceAddr, numDevicesOnThread
        invariant Settled(LabelsIn(labels, Below(threadNum)), BoxThreads(box, threadNum))
        invariant OnlyThese(Elements(sub.labels), BoxThreads(box, THREADS))
        invariant forall k | 0 <= k < threadNum :: Held(labels[k], box * THREADS + k)
      {
        OneThread(box, threadNum);
        ok := MapNextThread(threads[threadNum], box, threadNum, sub.labels, labels);
        if !ok { return; }
      }
      LabelsAll(sub.labels, labels, Below(THREADS));
      AllOnThreads(sub, threads, labels, part, searches, box, how);
      ok := true;
    }

    // The devices are on this thread
    ghost predicate Held(labels: seq<nat>, t: nat)
      reads toDeviceAddr
    {
      forall l | l in labels :: ThreadAt(toDeviceAddr[..], l) == t
    }

    lemma AllOnThreads(sub: NodeGraph, threads: seq<NodeGraph>, labels: seq<seq<nat>>, part: seq<nat>,
                       searches: seq<Sweep>, box: nat, how: Method)
      requires Parted(sub, how, part, THREADS, searches) && sub.Shape() && |threads| == |labels| == THREADS
      requires forall k | 0 <= k < THREADS ::
        Held(labels[k], box * THREADS + k) && labels[k] == threads[k].labels && PartOfGraph(sub, threads[k], part, k)
      ensures OnThreads(toDeviceAddr[..], sub, box, how)
    {
      hide Balanced, FullBefore, BySearches, Rising, Alone, PartOfGraph;
      forall v | 0 <= v < |part| ensures ThreadAt(toDeviceAddr[..], sub.labels[v]) == box * THREADS + part[v] {
        LabelInPart(sub, threads[part[v]], part, v);
        assert Held(labels[part[v]], box * THREADS + part[v]);
      }
      assert PartsOnThreads(toDeviceAddr[..], sub, box, how, part, searches);
    }

    // The next thread of a mailbox
    method MapNextThread(sub: NodeGraph, box: nat, threadNum: nat, ghost whole: seq<nat>, ghost labels: seq<seq<nat>>)
      returns (ok: bool)
      requires Shape() && box < MAX_THREADS / THREADS && threadNum < THREADS == |labels|
      requires Splits(whole, labels) && labels[threadNum] == sub.labels && Placers.Within(whole, toDeviceAddr.Length)
      requires Settled(LabelsIn(labels, Below(threadNum)), BoxThreads(box, threadNum))
      requires forall k | 0 <= k < threadNum :: Held(labels[k], box * THREADS + k)
      modifies toDeviceAddr, fromDeviceAddr, numDevicesOnThread
      ensures ok ==> forall k | 0 <= k < threadNum + 1 :: Held(labels[k], box * THREADS + k)
      ensures ok ==> Settled(LabelsIn(labels, Below(threadNum + 1)), BoxThreads(box, threadNum + 1))
      ensures ok ==> OnlyThese(Elements(whole), BoxThreads(box, THREADS))
      ensures !ok ==> Crowded()
    {
      hide Settled, OnlyThese, Splits, LabelsIn, BoxThreads, Elements, Held;
      label before:
      var threadId := box * THREADS + threadNum;
      OneThread(box, threadNum);
      PartsDistinct(whole, labels, threadNum, toDeviceAddr.Length);
      ok := MapThread(threadId, sub.labels);
      if ok {
        ThreadHeld(sub.labels, threadId);
        forall k | 0 <= k < threadNum ensures Held(labels[k], box * THREADS + k) {
          HeldStill@before(whole, labels, threadNum, k, {threadId}, box * THREADS + k);
        }
        Widen@before(Elements(labels[threadNum]), {threadId}, Elements(whole), BoxThreads(box, THREADS));
        Extend@before(whole, labels, Below(threadNum), threadNum, BoxThreads(box, threadNum), {threadId});
        assert Below(threadNum) + {threadNum} == Below(threadNum + 1);
      }
    }

    lemma ThreadHeld(labels: seq<nat>, t: nat)
      requires Shape() && Settled(Elements(labels), {t})
      ensures Held(labels, t)
    {
      forall l | l in labels ensures ThreadAt(toDeviceAddr[..], l) == t {
        assert l in Elements(labels);
      }
    }

    // The devices of other parts stay where they are
    twostate lemma HeldStill(new whole: seq<nat>, new labels: seq<seq<nat>>, new p: nat, new k: nat, new threads: set<nat>,
                             new t: nat)
      requires Shape() && Splits(whole, labels) && p < |labels| && k < |labels| && k != p
      requires OnlyThese(Elements(labels[p]), threads) && old(Held(labels[k], t))
      ensures Held(labels[k], t)
    {
      SamePart(whole, labels, p, k, threads);
    }

    twostate lemma SamePart(new whole: seq<nat>, new labels: seq<seq<nat>>, new p: nat, new k: nat, new threads: set<nat>)
      requires Shape() && Splits(whole, labels) && p < |labels| && k < |labels| && k != p
      requires OnlyThese(Elements(labels[p]), threads)
      ensures SameOn(old(toDeviceAddr[..]), toDeviceAddr[..], labels[k])
    {
      forall l | l in labels[k] && l < toDeviceAddr.Length ensures toDeviceAddr[..][l] == old(toDeviceAddr[..])[l] {
        assert l !in labels[p];
      }
    }

    // The next mailbox of a board
    method MapNextBox(boxes: Placer, sub: NodeGraph, board: nat, boxX: nat, boxY: nat, how: Method,
                      ghost labels: seq<seq<nat>>, ghost parts: set<nat>, ghost most: nat, ghost q: Placement)
      returns (ok: bool)
      requires Shape() && Apart(boxes) && board < MESH * MESH && boxX < MAILBOXES && boxY < MAILBOXES
      requires Level(boxes, sub, MAILBOXES, MAILBOXES, labels, most, how, q)
      requires Boxed(boxes, board, how, parts)
      requires Placers.Within(sub.labels, toDeviceAddr.Length)
      requires Visited(boxes.mapping, parts, boxX, boxY, false)
      requires Settled(LabelsIn(labels, parts), BoardThreads(board, boxX, boxY))
      modifies toDeviceAddr, fromDeviceAddr, numDevicesOnThread
      ensures ok ==> Boxed(boxes, board, how, parts + {boxes.mapping[boxY, boxX]})
      ensures ok ==> OnlyThese(Elements(sub.labels), BoardThreads(board, MAILBOXES, 0))
      ensures !ok ==> Crowded()
      ensures ok ==> Settled(LabelsIn(labels, parts + {boxes.mapping[boxY, boxX]}), BoardThreads(board, boxX, boxY + 1))
      ensures Visited(boxes.mapping, parts + {boxes.mapping[boxY, boxX]}, boxX, boxY + 1, false)
    {
      hide Settled, OnlyThese, Splits, LabelsIn, BoxThreads, BoardThreads, Elements, Consistent, Visited, WellPlaced,
           OnThreads, PartOfGraph, Boxed;
      label before:
      var t := boxes.mapping[boxY, boxX];
      NotVisited(boxes.mapping, parts, boxX, boxY, false);
      VisitOne(boxes.mapping, boxes.xCoord[..], boxes.yCoord[..], parts, boxX, boxY, false);
      OneBox(board, boxX, boxY);
      PartsDistinct(sub.labels, labels, t, toDeviceAddr.Length);
      ok := MapBox(boxes.subgraphs[t], board, boxX, boxY, how, most);
      if ok {
        ghost var threads := BoxThreads(BoxId(board, boxX, boxY), THREADS);
        BoxedOne@before(boxes, sub, labels, parts, t, threads, board, how);
        Widen@before(Elements(labels[t]), threads, Elements(sub.labels), BoardThreads(board, MAILBOXES, 0));
        Extend@before(sub.labels, labels, parts, t, BoardThreads(board, boxX, boxY), threads);
      }
    }

    // These parts of a board are on the threads of the mailboxes where they have been placed
    ghost predicate Boxed(pl: Placer, board: nat, how: Method, parts: set<nat>)
      reads toDeviceAddr, pl.subgraphs, pl.xCoord, pl.yCoord
    {
      forall p | p in parts :: p < pl.subgraphs.Length && p < pl.xCoord.Length && p < pl.yCoord.Length
        && OnThreads(toDeviceAddr[..], pl.subgraphs[p], BoxId(board, pl.xCoord[p], pl.yCoord[p]), how)
    }

    twostate lemma BoxedOne(pl: Placer, new g: NodeGraph, new labels: seq<seq<nat>>, new parts: set<nat>, new t: nat,
                            new threads: set<nat>, new board: nat, new how: Method)
      requires Shape() && Apart(pl) && Splits(g.labels, labels) && pl.subgraphs.Length == |labels|
      requires pl.xCoord.Length == pl.yCoord.Length == |labels| && t < |labels| && t !in parts
      requires unchanged(pl.subgraphs, pl.xCoord, pl.yCoord)
      requires forall p | 0 <= p < |labels| :: pl.subgraphs[p].labels == labels[p]
      requires old(Boxed(pl, board, how, parts)) && OnlyThese(Elements(labels[t]), threads)
      requires OnThreads(toDeviceAddr[..], pl.subgraphs[t], BoxId(board, pl.xCoord[t], pl.yCoord[t]), how)
      ensures Boxed(pl, board, how, parts + {t})
    {
      hide Splits, OnThreads, OnlyThese, SameOn;
      forall p | p in parts
        ensures p < |labels| && OnThreads(toDeviceAddr[..], pl.subgraphs[p], BoxId(board, pl.xCoord[p], pl.yCoord[p]), how)
      {
        SamePart(g.labels, labels, t, p, threads);
        ThreadsFrame(old(toDeviceAddr[..]), toDeviceAddr[..], pl.subgraphs[p],
                     BoxId(board, pl.xCoord[p], pl.yCoord[p]), how);
      }
    }

    lemma AllOnBoxes(pl: Placer, g: NodeGraph, labels: seq<seq<nat>>, most: nat, board: nat, how: Method, q: Placement,
                     parts: set<nat>)
      requires Level(pl, g, MAILBOXES, MAILBOXES, labels, most, how, q) && Boxed(pl, board, how, parts) && g.Shape()
      requires Visited(pl.mapping, parts, MAILBOXES, 0, false)
      ensures OnBoxes(toDeviceAddr[..], g, board, how)
    {
      hide OnThreads, PartOfGraph, Visited, Consistent, Splits, HasEdges, Cheapest, Sought, Balanced, FullBefore,
           BySearches, Rising, Alone;
      VisitAll(pl.mapping, q.best.xs, q.best.ys, parts, MAILBOXES, 0, false);
      var addr := toDeviceAddr[..];
      forall v | 0 <= v < |q.part|
        ensures var t := ThreadAt(addr, g.labels[v]);
          t / 1024 == board && BoxX(t) == q.best.xs[q.part[v]] && BoxY(t) == q.best.ys[q.part[v]]
      {
        var p := q.part[v];
        LabelInPart(g, pl.subgraphs[p], q.part, v);
        InBox(addr, pl.subgraphs[p], BoxId(board, q.best.xs[p], q.best.ys[p]), how, g.labels[v]);
        BoxIs(ThreadAt(addr, g.labels[v]), board, q.best.xs[p], q.best.ys[p]);
      }
      forall p | 0 <= p < |q.best.xs| ensures BoxMapped(addr, g, board, how, q, p) {
        assert PartOfGraph(g, pl.subgraphs[p], q.part, p);
      }
      assert PartsOnBoxes(addr, g, board, how, q);
    }

    ghost predicate Apart(pl: Placer) {
      && pl.xCoord != toDeviceAddr && pl.xCoord != numDevicesOnThread
      && pl.yCoord != toDeviceAddr && pl.yCoord != numDevicesOnThread
    }

    // All mailboxes of one board, column by column
    method MapBoard(sub: NodeGraph, board: nat, how: Method, ghost most: nat) returns (ok: bool)
      requires Shape() && board < MESH * MESH
      requires Consistent(sub, most) && most * (2 * MESH) <= MAX64 && sub.Shape() && Distinct(sub.labels)
      requires Placers.Within(sub.labels, toDeviceAddr.Length)
      modifies toDeviceAddr, fromDeviceAddr, numDevicesOnThread
      ensures var threads := BoardThreads(board, MAILBOXES, 0);
        ok ==> Settled(Elements(sub.labels), threads) && OnlyThese(Elements(sub.labels), threads)
      ensures ok ==> OnBoxes(toDeviceAddr[..], sub, board, how)
      ensures !ok ==> Crowded()
    {
      hide Settled, Level, LabelsIn, BoardThreads, Elements, Consistent, Visited, OnBoxes, Boxed;
      var boxes, labels, q := PlaceLevel(sub, MAILBOXES, MAILBOXES, how, most);
      LevelSize(boxes, sub, MAILBOXES, MAILBOXES, labels, most, how, q);
      ghost var parts: set<nat> := {};
      NothingSettled(labels);
      NothingVisited(boxes.mapping, false);
      assert Boxed(boxes, board, how, parts) by { NothingBoxed(boxes, board, how); }
      NoBoxes(board);
      for boxX := 0 to MAILBOXES
        modifies toDeviceAddr, fromDeviceAddr, numDevicesOnThread
        invariant Visited(boxes.mapping, parts, boxX, 0, false)
        invariant Settled(LabelsIn(labels, parts), BoardThreads(board, boxX, 0))
        invariant Boxed(boxes, board, how, parts)
        invariant OnlyThese(Elements(sub.labels), BoardThreads(board, MAILBOXES, 0))
      {
        for boxY := 0 to MAILBOXES
          modifies toDeviceAddr, fromDeviceAddr, numDevicesOnThread
          invariant Visited(boxes.mapping, parts, boxX, boxY, false)
          invariant Settled(LabelsIn(labels, parts), BoardThreads(board, boxX, boxY))
          invariant Boxed(boxes, board, how, parts)
          invariant OnlyThese(Elements(sub.labels), BoardThreads(board, MAILBOXES, 0))
        {
          ok := MapNextBox(boxes, sub, board, boxX, boxY, how, labels, parts, most, q);
          if !ok { return; }
          parts := parts + {boxes.mapping[boxY, boxX]};
        }
        OneColumn(board, boxX);
        NextColumn(boxes.mapping, parts, boxX, MAILBOXES);
      }
      AllMapped(boxes, sub, MAILBOXES, MAILBOXES, labels, most, how, q, parts, false);
      AllOnBoxes(boxes, sub, labels, most, board, how, q, parts);
      ok := true;
    }

    // The next board
    method MapNextBoard(boards: Placer, boardX: nat, boardY: nat, how: Method,
                        ghost labels: seq<seq<nat>>, ghost parts: set<nat>, ghost most: nat, ghost q: Placement)
      returns (ok: bool)
      requires Shape() && Apart(boards) && boardX < numBoardsX && boardY < numBoardsY && most * (2 * MESH) <= MAX64
      requires Level(boards, graph, numBoardsX, numBoardsY, labels, most, how, q)
      requires Boarded(boards, how, parts)
      requires Placers.Within(graph.labels, toDeviceAddr.Length)
      requires Visited(boards.mapping, parts, boardX, boardY, true)
      requires Settled(LabelsIn(labels, parts), MeshThreads(numBoardsX, boardX, boardY))
      modifies toDeviceAddr, fromDeviceAddr, numDevicesOnThread
      ensures ok ==> Boarded(boards, how, parts + {boards.mapping[boardY, boardX]})
      ensures ok ==> OnlyThese(Elements(graph.labels), MeshThreads(numBoardsX, 0, numBoardsY))
      ensures !ok ==> Crowded()
      ensures ok ==>
        Settled(LabelsIn(labels, parts + {boards.mapping[boardY, boardX]}), MeshThreads(numBoardsX, boardX + 1, boardY))
      ensures Visited(boards.mapping, parts + {boards.mapping[boardY, boardX]}, boardX + 1, boardY, true)
    {
      hide Settled, OnlyThese, Splits, LabelsIn, MeshThreads, BoardThreads, Elements, Consistent, Visited, WellPlaced,
           OnBoxes, PartOfGraph, Boarded;
      label before:
      var b := boards.mapping[boardY, boardX];
      NotVisited(boards.mapping, parts, boardX, boardY, true);
      VisitOne(boards.mapping, boards.xCoord[..], boards.yCoord[..], parts, boardX, boardY, true);
      OneBoard(numBoardsX, numBoardsY, boardX, boardY);
      PartsDistinct(graph.labels, labels, b, toDeviceAddr.Length);
      ok := MapBoard(boards.subgraphs[b], BoardId(boardX, boardY), how, most);
      if ok {
        ghost var threads := BoardThreads(BoardId(boardX, boardY), MAILBOXES, 0);
        BoardedOne@before(boards, graph, labels, parts, b, threads, how);
        Widen@before(Elements(labels[b]), threads, Elements(graph.labels), MeshThreads(numBoardsX, 0, numBoardsY));
        Extend@before(graph.labels, labels, parts, b, MeshThreads(numBoardsX, boardX, boardY), threads);
      }
    }

    // These parts of the graph are on the mailboxes of the boards where they have been placed
    ghost predicate Boarded(pl: Placer, how: Method, parts: set<nat>)
      reads toDeviceAddr, pl.subgraphs, pl.xCoord, pl.yCoord
    {
      forall p | p in parts :: p < pl.subgraphs.Length && p < pl.xCoord.Length && p < pl.yCoord.Length
        && OnBoxes(toDeviceAddr[..], pl.subgraphs[p], BoardId(pl.xCoord[p], pl.yCoord[p]), how)
    }

    twostate lemma BoardedOne(pl: Placer, new g: NodeGraph, new labels: seq<seq<nat>>, new parts: set<nat>,
                              new b: nat, new threads: set<nat>, new how: Method)
      requires Shape() && Apart(pl) && Splits(g.labels, labels) && pl.subgraphs.Length == |labels|
      requires pl.xCoord.Length == pl.yCoord.Length == |labels| && b < |labels| && b !in parts
      requires unchanged(pl.subgraphs, pl.xCoord, pl.yCoord)
      requires forall p | 0 <= p < |labels| :: pl.subgraphs[p].labels == labels[p]
      requires old(Boarded(pl, how, parts)) && OnlyThese(Elements(labels[b]), threads)
      requires OnBoxes(toDeviceAddr[..], pl.subgraphs[b], BoardId(pl.xCoord[b], pl.yCoord[b]), how)
      ensures Boarded(pl, how, parts + {b})
    {
      hide Splits, OnBoxes, OnlyThese, SameOn;
      forall p | p in parts
        ensures p < |labels| && OnBoxes(toDeviceAddr[..], pl.subgraphs[p], BoardId(pl.xCoord[p], pl.yCoord[p]), how)
      {
        SamePart(g.labels, labels, b, p, threads);
        BoxesFrame(old(toDeviceAddr[..]), toDeviceAddr[..], pl.subgraphs[p], BoardId(pl.xCoord[p], pl.yCoord[p]), how);
      }
    }

    lemma AllOnBoards(pl: Placer, labels: seq<seq<nat>>, most: nat, how: Method, q: Placement, parts: set<nat>)
      requires Shape() && Level(pl, graph, numBoardsX, numBoardsY, labels, most, how, q) && Boarded(pl, how, parts)
      requires graph.Shape() && Visited(pl.mapping, parts, 0, numBoardsY, true)
      ensures OnBoards(toDeviceAddr[..], graph, numBoardsX, numBoardsY, how)
    {
      hide OnBoxes, PartOfGraph, Visited, Consistent, Splits, HasEdges, Cheapest, Sought, Balanced, FullBefore,
           BySearches, Rising, Alone;
      VisitAll(pl.mapping, q.best.xs, q.best.ys, parts, 0, numBoardsY, true);
      var addr := toDeviceAddr[..];
      forall v | 0 <= v < |q.part|
        ensures var t := ThreadAt(addr, graph.labels[v]);
          BoardX(t) == q.best.xs[q.part[v]] && BoardY(t) == q.best.ys[q.part[v]]
      {
        var p := q.part[v];
        LabelInPart(graph, pl.subgraphs[p], q.part, v);
        InBoard(addr, pl.subgraphs[p], BoardId(q.best.xs[p], q.best.ys[p]), how, graph.labels[v]);
        BoardIs(ThreadAt(addr, graph.labels[v]), q.best.xs[p], q.best.ys[p]);
      }
      forall p | 0 <= p < |q.best.xs| ensures BoardMapped(addr, graph, how, q, p) {
        assert PartOfGraph(graph, pl.subgraphs[p], q.part, p);
      }
      assert PartsOnBoards(addr, graph, numBoardsX, numBoardsY, how, q);
    }

    lemma NothingBoxed(pl: Placer, board: nat, how: Method)
      ensures Boxed(pl, board, how, {}) && Boarded(pl, how, {})
    {
    }

    // The whole graph, board by board
    method Map(how: Method, ghost edges: seq<(nat, nat)>) returns (ok: bool)
      requires Shape() && HasEdges(graph, edges) && Numbered(graph.labels)
      requires numBoardsX > 0 && numBoardsY > 0 && |edges| * (2 * MESH) <= MAX64
      modifies toDeviceAddr, fromDeviceAddr, numDevicesOnThread
      ensures var threads := MeshThreads(numBoardsX, 0, numBoardsY);
        ok ==> Settled(Elements(graph.labels), threads) && OnlyThese(Elements(graph.labels), threads)
      ensures ok ==> OnBoards(toDeviceAddr[..], graph, numBoardsX, numBoardsY, how)
      ensures !ok ==> Crowded()
    {
      hide Settled, Level, LabelsIn, MeshThreads, Elements, Consistent, Visited, HasEdges, OnBoards, Boarded;
      EdgesConsistent(graph, edges);
      NumberedDistinct(graph.labels);
      var boards, labels, q := PlaceLevel(graph, numBoardsX, numBoardsY, how, |edges|);
      LevelSize(boards, graph, numBoardsX, numBoardsY, labels, |edges|, how, q);
      ghost var parts: set<nat> := {};
      NothingSettled(labels);
      NothingVisited(boards.mapping, true);
      assert Boarded(boards, how, parts) by { NothingBoxed(boards, 0, how); }
      NoBoards(numBoardsX);
      for boardY := 0 to numBoardsY
        modifies toDeviceAddr, fromDeviceAddr, numDevicesOnThread
        invariant Visited(boards.mapping, parts, 0, boardY, true)
        invariant Settled(LabelsIn(labels, parts), MeshThreads(numBoardsX, 0, boardY))
        invariant Boarded(boards, how, parts)
        invariant OnlyThese(Elements(graph.labels), MeshThreads(numBoardsX, 0, numBoardsY))
      {
        for boardX := 0 to numBoardsX
          modifies toDeviceAddr, fromDeviceAddr, numDevicesOnThread
          invariant Visited(boards.mapping, parts, boardX, boardY, true)
          invariant Settled(LabelsIn(labels, parts), MeshThreads(numBoardsX, boardX, boardY))
          invariant Boarded(boards, how, parts)
          invariant OnlyThese(Elements(graph.labels), MeshThreads(numBoardsX, 0, numBoardsY))
        {
          ok := MapNextBoard(boards, boardX, boardY, how, labels, parts, |edges|, q);
          if !ok { return; }
          parts := parts + {boards.mapping[boardY, boardX]};
        }
        OneMeshRow(numBoardsX, boardY);
        NextRow(boards.mapping, parts, boardY, numBoardsX);
      }
      AllMapped(boards, graph, numBoardsX, numBoardsY, labels, |edges|, how, q, parts, true);
      AllOnBoards(boards, labels, |edges|, how, q, parts);
      ok := true;
    }

    lemma AllMapped(pl: Placer, g: NodeGraph, width: nat, height: nat, labels: seq<seq<nat>>, most: nat,
                    how: Method, q: Placement, parts: set<nat>, rows: bool)
      requires Level(pl, g, width, height, labels, most, how, q)
      requires Visited(pl.mapping, parts, if rows then 0 else width, if rows then height else 0, rows)
      ensures LabelsIn(labels, parts) == Elements(g.labels)
    {
      hide LabelsIn, Elements, Splits, WellPlaced, PartOfGraph;
      VisitAll(pl.mapping, pl.xCoord[..], pl.yCoord[..], parts, if rows then 0 else width, if rows then height else 0, rows);
      LabelsAll(g.labels, labels, parts);
    }

    constructor (graph: NodeGraph, numBoardsX: nat, numBoardsY: nat)
      requires numBoardsX <= MESH && numBoardsY <= MESH
      ensures this.graph == graph && this.numBoardsX == numBoardsX && this.numBoardsY == numBoardsY
      ensures Shape() && fresh(toDeviceAddr) && fresh(fromDeviceAddr) && fresh(numDevicesOnThread)
      ensures forall t | 0 <= t < MAX_THREADS :: fromDeviceAddr[t] == [] && numDevicesOnThread[t] == 0
    {
      this.graph, this.numBoardsX, this.numBoardsY := graph, numBoardsX, numBoardsY;
      toDeviceAddr := new nat[graph.Size()];
      fromDeviceAddr := new seq<nat>[MAX_THREADS](_ => []);
      numDevicesOnThread := new nat[MAX_THREADS](_ => 0);
    }

    // The mapping is what the compiler of the routing tables asks for: a bijection
    // between the devices and the pairs of thread and local id, onto the boards in use
    lemma MappingOf<E>(g: Graph<E>)
      requires Shape() && Numbered(graph.labels) && |graph.labels| == graph.Size() == |g.outgoing|
      requires Settled(Elements(graph.labels), MeshThreads(numBoardsX, 0, numBoardsY))
      requires forall t | 0 <= t < MAX_THREADS && t !in MeshThreads(numBoardsX, 0, numBoardsY) :: fromDeviceAddr[t] == []
      ensures var m := Mapping(toDeviceAddr[..], fromDeviceAddr[..]);
        Mapped(g, m, numBoardsX, numBoardsY) && Bijective(m)
    {
      var m, threads := Mapping(toDeviceAddr[..], fromDeviceAddr[..]), MeshThreads(numBoardsX, 0, numBoardsY);
      forall d | 0 <= d < |m.to| ensures d in Elements(graph.labels) {
        assert graph.labels[d] == d;
      }
      forall t, i | 0 <= t < |m.from| && 0 <= i < |m.from[t]|
        ensures m.from[t][i] < |m.to|
        ensures GetThreadId(m.to[m.from[t][i]]) == t && GetLocalDeviceId(m.to[m.from[t][i]]) == i
      {
        assert t in threads;
        DeviceAddrFields(t, i);
      }
    }
  }
}
