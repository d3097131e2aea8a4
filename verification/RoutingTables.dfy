// Compilation of a whole graph: the tables mean exactly what the graph says.
module RoutingTables {
  import opened Wrappers
  import opened InTables
  import opened Mesh
  import opened Multicast
  import opened PGraphs
  import opened ProgRouters
  import opened RoutingRecords

  // The application graph: for each device its outgoing edges, with the pin and
  // the label of each
  datatype Graph<E> = Graph(outgoing: seq<seq<nat>>, pins: seq<seq<nat>>, labels: seq<seq<E>>) {
    ghost predicate Valid() {
      && |outgoing| == |pins| == |labels|
      && (forall d | 0 <= d < |outgoing| ::
            && |outgoing[d]| == |pins[d]| == |labels[d]|
            && (forall i | 0 <= i < |outgoing[d]| :: outgoing[d][i] < |outgoing|))
    }
  }

  // The placement of devices on threads, in both directions
  datatype Mapping = Mapping(to: seq<nat>, from: seq<seq<nat>>)

  // Every device has an address on the machine, which leads back to the device
  ghost predicate Mapped<E>(g: Graph<E>, m: Mapping, boardsX: nat, boardsY: nat) {
    && |m.to| == |g.outgoing| && |m.from| == 0x1_0000 && boardsX <= 8 && boardsY <= 8
    && (forall d | 0 <= d < |m.to| ::
          && GetThreadId(m.to[d]) < |m.from|
          && GetLocalDeviceId(m.to[d]) < |m.from[GetThreadId(m.to[d])]|
          && m.from[GetThreadId(m.to[d])][GetLocalDeviceId(m.to[d])] == d
          && BoardAt(GetThreadId(m.to[d])).x < boardsX && BoardAt(GetThreadId(m.to[d])).y < boardsY)
  }

  // Board of a thread
  function BoardAt(thread: nat): Board { Board(thread / 1024 % 8, thread / 8192 % 8) }

  lemma BoardOfThread(thread: nat, d: Dest)
    requires d.mbox == thread / 64
    ensures BoardOf(d) == BoardAt(thread)
  {
    assert thread / 64 / 16 == thread / 1024 && thread / 64 / 128 == thread / 8192;
  }

  // What sending on pin p of device d should do: one receive for each edge
  function Edges<E(==)>(g: Graph<E>, d: nat, p: nat, n: nat): multiset<Event<E>>
    requires d < |g.outgoing| && d < |g.pins| && d < |g.labels|
    requires n <= |g.outgoing[d]| && n <= |g.pins[d]| && n <= |g.labels[d]|
  {
    if n == 0 then multiset{}
    else
      Edges(g, d, p, n - 1)
        + if g.pins[d][n - 1] == p then multiset{Event(g.outgoing[d][n - 1], g.labels[d][n - 1])} else multiset{}
  }

  function AllEdges<E(==)>(g: Graph<E>, d: nat, p: nat): multiset<Event<E>>
    requires g.Valid() && d < |g.outgoing|
  {
    Edges(g, d, p, |g.outgoing[d]|)
  }

  // Edges from pin p of device d to one thread, among the first n
  function FanTo<E(==)>(g: Graph<E>, m: Mapping, d: nat, p: nat, thread: nat, n: nat): nat
    requires g.Valid() && d < |g.outgoing| && n <= |g.outgoing[d]| && |m.to| == |g.outgoing|
  {
    if n == 0 then 0
    else
      FanTo(g, m, d, p, thread, n - 1)
        + if g.pins[d][n - 1] == p && GetThreadId(m.to[g.outgoing[d][n - 1]]) == thread then 1 else 0
  }

  // The receivers of one pin on one thread can be counted in 16 bits
  ghost predicate Narrow<E>(g: Graph<E>, m: Mapping)
    requires g.Valid() && |m.to| == |g.outgoing|
  {
    forall d, p: nat, t | 0 <= d < |g.outgoing| :: FanTo(g, m, d, p, t, |g.outgoing[d]|) < RECEIVERS
  }

  // ---------------------------------------------------------------------
  // Splitting and sorting

  lemma WantedAdd<E>(labels: seq<E>, dests: seq<EdgeDest>, e: EdgeDest)
    requires e.index < |labels|
    ensures Wanted(labels, dests + [e]) == Wanted(labels, dests) + multiset{Event(e.dest, labels[e.index])}
  {
    assert (dests + [e])[..|dests|] == dests;
  }

  lemma CountAdd(dests: seq<EdgeDest>, e: EdgeDest, t: nat)
    ensures CountTo(dests + [e], t) == CountTo(dests, t) + if ThreadOf(e) == t then 1 else 0
  {
    assert (dests + [e])[..|dests|] == dests;
  }

  function Without(s: seq<EdgeDest>, i: nat): seq<EdgeDest>
    requires i < |s|
  {
    s[..i] + s[i + 1..]
  }

  lemma WithoutBag(s: seq<EdgeDest>, i: nat)
    requires i < |s|
    ensures multiset(s) == multiset(Without(s, i)) + multiset{s[i]}
  {
    assert s == s[..i] + [s[i]] + s[i + 1..];
  }

  lemma Swap<E>(a: multiset<Event<E>>, b: multiset<Event<E>>, c: multiset<Event<E>>)
    ensures a + b + c == a + c + b
  {
  }

  // Neither function looks at the order of the destinations
  lemma {:induction false} WantedWithout<E>(labels: seq<E>, s: seq<EdgeDest>, i: nat)
    requires i < |s|
    ensures Wanted(labels, s) == Wanted(labels, Without(s, i)) + One(labels, s[i])
  {
    hide Wanted, One;
    var n := |s| - 1;
    WantedLast(labels, s);
    if i < n {
      WantedWithout(labels, s[..n], i);
      assert Without(s, i)[..n - 1] == Without(s[..n], i);
      WantedLast(labels, Without(s, i));
      Swap(Wanted(labels, Without(s[..n], i)), One(labels, s[i]), One(labels, s[n]));
    } else {
      assert Without(s, i) == s[..n];
    }
  }

  lemma {:induction false} CountWithout(s: seq<EdgeDest>, i: nat, t: nat)
    requires i < |s|
    ensures CountTo(s, t) == CountTo(Without(s, i), t) + if ThreadOf(s[i]) == t then 1 else 0
  {
    var n := |s| - 1;
    if i < n {
      CountWithout(s[..n], i, t);
      assert Without(s, i)[..n - 1] == Without(s[..n], i);
    } else {
      assert Without(s, i) == s[..n];
    }
  }

  lemma BagCancel(a: multiset<EdgeDest>, b: multiset<EdgeDest>, e: EdgeDest)
    requires a + multiset{e} == b + multiset{e}
    ensures a == b
  {
    assert a + multiset{e} - multiset{e} == a;
    assert b + multiset{e} - multiset{e} == b;
  }

  lemma {:induction false} SameBag<E>(labels: seq<E>, s: seq<EdgeDest>, r: seq<EdgeDest>, t: nat)
    requires multiset(s) == multiset(r)
    ensures Wanted(labels, s) == Wanted(labels, r) && CountTo(s, t) == CountTo(r, t)
    decreases |multiset(s)|
  {
    if s == [] {
      assert |multiset(s)| == |s| && |multiset(r)| == |r|;
    } else {
      assert s[0] in multiset(r);
      var i :| 0 <= i < |r| && r[i] == s[0];
      hide Wanted, One, CountTo, Without;
      WithoutBag(s, 0);
      WithoutBag(r, i);
      BagCancel(multiset(Without(s, 0)), multiset(Without(r, i)), s[0]);
      assert |multiset(s)| == |multiset(Without(s, 0))| + 1;
      SameBag(labels, Without(s, 0), Without(r, i), t);
      WantedWithout(labels, s, 0);
      WantedWithout(labels, r, i);
      CountWithout(s, 0, t);
      CountWithout(r, i, t);
    }
  }

  // Destinations on one side: on the sender's board, or elsewhere
  ghost predicate Side<E>(g: Graph<E>, m: Mapping, d: nat, p: nat, s: seq<EdgeDest>)
    requires g.Valid() && |m.to| == |g.outgoing| && d < |g.outgoing|
  {
    && (forall i | 0 <= i < |s| ::
          && s[i].index < |g.labels[d]| && s[i].dest < |m.to| && s[i].addr == m.to[s[i].dest])
    && (forall t :: CountTo(s, t) <= FanTo(g, m, d, p, t, |g.outgoing[d]|))
  }

  ghost predicate Splitting<E>(g: Graph<E>, m: Mapping, d: nat, p: nat, n: nat, a: seq<EdgeDest>, b: seq<EdgeDest>)
    requires g.Valid() && |m.to| == |g.outgoing| && d < |g.outgoing| && n <= |g.outgoing[d]|
  {
    && (forall i | 0 <= i < |a| ::
          && a[i].index < |g.labels[d]| && a[i].dest < |m.to| && a[i].addr == m.to[a[i].dest])
    && (forall i | 0 <= i < |b| ::
          && b[i].index < |g.labels[d]| && b[i].dest < |m.to| && b[i].addr == m.to[b[i].dest])
    && (forall t :: CountTo(a, t) + CountTo(b, t) <= FanTo(g, m, d, p, t, n))
    && Wanted(g.labels[d], a) + Wanted(g.labels[d], b) == Edges(g, d, p, n)
  }

  lemma SplitAdd<E>(g: Graph<E>, m: Mapping, d: nat, p: nat, n: nat, a: seq<EdgeDest>, b: seq<EdgeDest>, e: EdgeDest)
    requires g.Valid() && |m.to| == |g.outgoing| && d < |g.outgoing| && n < |g.outgoing[d]|
    requires Splitting(g, m, d, p, n, a, b) && g.pins[d][n] == p
    requires e.index == n && e.dest == g.outgoing[d][n] && e.addr == m.to[e.dest]
    ensures Splitting(g, m, d, p, n + 1, a + [e], b)
    ensures Splitting(g, m, d, p, n + 1, a, b + [e])
  {
    hide Wanted, CountTo;
    WantedAdd(g.labels[d], a, e);
    WantedAdd(g.labels[d], b, e);
    forall t
      ensures CountTo(a + [e], t) + CountTo(b, t) <= FanTo(g, m, d, p, t, n + 1)
      ensures CountTo(a, t) + CountTo(b + [e], t) <= FanTo(g, m, d, p, t, n + 1)
    {
      CountAdd(a, e, t);
      CountAdd(b, e, t);
    }
  }

  lemma SplitDone<E>(g: Graph<E>, m: Mapping, d: nat, p: nat, a: seq<EdgeDest>, b: seq<EdgeDest>,
                  a': seq<EdgeDest>, b': seq<EdgeDest>)
    requires g.Valid() && |m.to| == |g.outgoing| && d < |g.outgoing|
    requires Splitting(g, m, d, p, |g.outgoing[d]|, a, b)
    requires multiset(a') == multiset(a) && multiset(b') == multiset(b)
    ensures Side(g, m, d, p, a') && Side(g, m, d, p, b')
    ensures Wanted(g.labels[d], a') + Wanted(g.labels[d], b') == AllEdges(g, d, p)
  {
    hide Wanted, CountTo, FanTo;
    forall t
      ensures CountTo(a', t) <= FanTo(g, m, d, p, t, |g.outgoing[d]|)
      ensures CountTo(b', t) <= FanTo(g, m, d, p, t, |g.outgoing[d]|)
    {
      SameBag(g.labels[d], a, a', t);
      SameBag(g.labels[d], b, b', t);
    }
    SameBag(g.labels[d], a, a', 0);
    SameBag(g.labels[d], b, b', 0);
    forall i | 0 <= i < |a'| ensures a'[i] in a {
      assert a'[i] in multiset(a);
    }
    forall i | 0 <= i < |b'| ensures b'[i] in b {
      assert b'[i] in multiset(b);
    }
  }

  ghost predicate OnBoard(s: seq<EdgeDest>, board: nat) {
    forall i | 0 <= i < |s| :: ThreadOf(s[i]) / 1024 == board
  }

  ghost predicate OffBoard(s: seq<EdgeDest>, board: nat) {
    forall i | 0 <= i < |s| :: ThreadOf(s[i]) / 1024 != board
  }

  // Split edge list into board-local and non-board-local destinations, and sort
  // each list by destination thread
  method SplitDests<E(==)>(g: Graph<E>, m: Mapping, d: nat, p: nat) returns (local: seq<EdgeDest>, nonLocal: seq<EdgeDest>)
    requires g.Valid() && |m.to| == |g.outgoing| && d < |g.outgoing|
    ensures Descending(local) && Descending(nonLocal)
    ensures Side(g, m, d, p, local) && Side(g, m, d, p, nonLocal)
    ensures OnBoard(local, GetThreadId(m.to[d]) / 1024) && OffBoard(nonLocal, GetThreadId(m.to[d]) / 1024)
    ensures Wanted(g.labels[d], local) + Wanted(g.labels[d], nonLocal) == AllEdges(g, d, p)
  {
    hide Wanted, CountTo, FanTo, Splitting, Side, Descending, AllEdges;
    var a: seq<EdgeDest>, b: seq<EdgeDest> := [], [];
    SplitNone(g, m, d, p);
    var devBoard := GetThreadId(m.to[d]) / 1024;
    for i := 0 to |g.outgoing[d]|
      invariant Splitting(g, m, d, p, i, a, b) && OnBoard(a, devBoard) && OffBoard(b, devBoard)
    {
      if g.pins[d][i] == p {
        var e := EdgeDest(i, g.outgoing[d][i], m.to[g.outgoing[d][i]]);
        SplitAdd(g, m, d, p, i, a, b, e);
        var destBoard := GetThreadId(e.addr) / 1024;
        if devBoard == destBoard {
          a := a + [e];
        } else {
          b := b + [e];
        }
      } else {
        SplitSkip(g, m, d, p, i, a, b);
      }
    }
    local := Sort(a);
    nonLocal := Sort(b);
    SplitDone(g, m, d, p, a, b, local, nonLocal);
    forall i | 0 <= i < |local| ensures ThreadOf(local[i]) / 1024 == devBoard {
      assert local[i] in multiset(a);
    }
    forall i | 0 <= i < |nonLocal| ensures ThreadOf(nonLocal[i]) / 1024 != devBoard {
      assert nonLocal[i] in multiset(b);
    }
  }

  lemma SplitNone<E>(g: Graph<E>, m: Mapping, d: nat, p: nat)
    requires g.Valid() && |m.to| == |g.outgoing| && d < |g.outgoing|
    ensures Splitting(g, m, d, p, 0, [], [])
  {
  }

  lemma SplitSkip<E>(g: Graph<E>, m: Mapping, d: nat, p: nat, n: nat, a: seq<EdgeDest>, b: seq<EdgeDest>)
    requires g.Valid() && |m.to| == |g.outgoing| && d < |g.outgoing| && n < |g.outgoing[d]|
    requires Splitting(g, m, d, p, n, a, b) && g.pins[d][n] != p
    ensures Splitting(g, m, d, p, n + 1, a, b)
  {
  }

  lemma {:induction false} RunsFall(dests: seq<EdgeDest>)
    requires Descending(dests)
    ensures forall i, j | 0 <= i < j < |Runs(dests)| :: Runs(dests)[i] > Runs(dests)[j]
    ensures dests != [] ==>
      Runs(dests) != [] && Runs(dests)[|Runs(dests)| - 1] == Mailbox(dests[|dests| - 1])
  {
    if dests != [] {
      var n := |dests| - 1;
      RunsFall(dests[..n]);
      if n > 0 {
        assert ThreadOf(dests[n - 1]) >= ThreadOf(dests[n]);
        assert dests[..n][n - 1] == dests[n - 1];
      }
    }
  }

  // ---------------------------------------------------------------------
  // The list of out-edges of one pin

  function LocalOut(ds: seq<Dest>): seq<OutEdge>
    requires forall i | 0 <= i < |ds| :: ds[i].DestMRM?
  {
    seq(|ds|, i requires 0 <= i < |ds| => OutEdge(ds[i].mbox, ds[i].key, ds[i].maskLow, ds[i].maskHigh))
  }

  const TERMINATOR: OutEdge := OutEdge(0, INVALID_KEY, 0, 0)

  function PinOut(ds: seq<Dest>, key: nat): seq<OutEdge>
    requires forall i | 0 <= i < |ds| :: ds[i].DestMRM?
  {
    LocalOut(ds) + [OutEdge(USE_ROUTING_KEY, 0, key, 0), TERMINATOR]
  }

  // The fields fit their widths in memory: 16 bits for mailbox and key, 32 bits
  // for each mask
  predicate Encodable(list: seq<OutEdge>) {
    forall i | 0 <= i < |list| ::
      && list[i].mbox < 0x1_0000 && list[i].key < 0x1_0000
      && list[i].maskLow < 0x1_0000_0000 && list[i].maskHigh < 0x1_0000_0000
  }

  lemma SumNone<E>(a: Option<multiset<Event<E>>>)
    ensures Sum(Some(multiset{}), a) == a
  {
    if a.Some? {
      assert multiset{} + a.value == a.value;
    }
  }

  lemma {:induction false} LocalOutEvents<E>(net: Reader, read: InReader<E>, from: seq<seq<nat>>, b: Board,
                                          ds: seq<Dest>, tail: seq<OutEdge>)
    requires Multicasts(0x1_0000, ds)
    ensures OutEvents(net, read, from, b, LocalOut(ds) + tail)
         == Sum(ListEvents(read, from, ds), OutEvents(net, read, from, b, tail))
    decreases |ds|
  {
    if ds == [] {
      assert LocalOut(ds) + tail == tail;
      SumNone(OutEvents(net, read, from, b, tail));
    } else {
      var n := |ds| - 1;
      var e := OutEdge(ds[n].mbox, ds[n].key, ds[n].maskLow, ds[n].maskHigh);
      assert LocalOut(ds) + tail == LocalOut(ds[..n]) + ([e] + tail);
      LocalOutEvents(net, read, from, b, ds[..n], [e] + tail);
      assert ([e] + tail)[1..] == tail;
      SumAssoc(ListEvents(read, from, ds[..n]), DestEvents(read, from, ds[n]),
               OutEvents(net, read, from, b, tail));
    }
  }

  // A message with the routing key reaches the receivers on other boards
  lemma RoutedEvents<E>(net: Reader, read: InReader<E>, from: seq<seq<nat>>, b: Board, ds: seq<Dest>, key: nat)
    requires b.x < 8 && b.y < 8
    requires Delivers(net, b, key, ds)
    ensures OutEvents(net, read, from, b, [OutEdge(USE_ROUTING_KEY, 0, key, 0), TERMINATOR])
         == ListEvents(read, from, ds)
  {
    hide Deliver, MaxDist, BagEvents, ListEvents;
    DistBound(b, ds);
    DeliverExtends(net, net, b, Here, key, MaxDist(b, ds), MAX_HOPS);
    BagList(read, from, ds);
    var list := [OutEdge(USE_ROUTING_KEY, 0, key, 0), TERMINATOR];
    assert list[1..] == [TERMINATOR];
    LastEvents(net, read, from, b, OutEdge(USE_ROUTING_KEY, 0, key, 0));
  }

  lemma LastEvents<E>(net: Reader, read: InReader<E>, from: seq<seq<nat>>, b: Board, e: OutEdge)
    requires e.key != INVALID_KEY
    ensures OutEvents(net, read, from, b, [e, TERMINATOR]) == EdgeEvents(net, read, from, b, e)
  {
    hide EdgeEvents;
    assert [e, TERMINATOR][1..] == [TERMINATOR];
    var es := EdgeEvents(net, read, from, b, e);
    if es.Some? {
      assert es.value + multiset{} == es.value;
    }
  }

  lemma DistBound(b: Board, ds: seq<Dest>)
    requires b.x < 8 && b.y < 8
    ensures MaxDist(b, ds) <= MAX_HOPS
  {
    if ds != [] {
      var i := MaxDistReached(b, ds);
    }
  }

  // Sending on the pin does what the graph says
  ghost predicate Means<E>(net: Reader, read: InReader<E>, g: Graph<E>, m: Mapping, d: nat, p: nat, list: seq<OutEdge>)
    requires g.Valid() && |m.to| == |g.outgoing| && d < |g.outgoing|
  {
    OutEvents(net, read, m.from, BoardAt(GetThreadId(m.to[d])), list) == Some(AllEdges(g, d, p))
  }

  lemma PinMeans<E>(net: Reader, read: InReader<E>, g: Graph<E>, m: Mapping, d: nat, p: nat,
                 local: seq<Dest>, nonLocal: seq<Dest>, a: seq<EdgeDest>, b: seq<EdgeDest>, key: nat)
    requires g.Valid() && |m.to| == |g.outgoing| && d < |g.outgoing|
    requires Multicasts(0x1_0000, local)
    requires ListEvents(read, m.from, local) == Some(Wanted(g.labels[d], a))
    requires ListEvents(read, m.from, nonLocal) == Some(Wanted(g.labels[d], b))
    requires Wanted(g.labels[d], a) + Wanted(g.labels[d], b) == AllEdges(g, d, p)
    requires var home := BoardAt(GetThreadId(m.to[d]));
      Delivers(net, home, key, nonLocal)
    ensures Means(net, read, g, m, d, p, PinOut(local, key))
  {
    hide Wanted, AllEdges, ListEvents, OutEvents, Delivers;
    var home := BoardAt(GetThreadId(m.to[d]));
    RoutedEvents(net, read, m.from, home, nonLocal, key);
    LocalOutEvents(net, read, m.from, home, local, [OutEdge(USE_ROUTING_KEY, 0, key, 0), TERMINATOR]);
  }

  lemma MeansGrows<E>(env: Env, env': Env, known: Known<E>, known': Known<E>,
                   g: Graph<E>, m: Mapping, d: nat, p: nat, list: seq<OutEdge>)
    requires g.Valid() && |m.to| == |g.outgoing| && d < |g.outgoing|
    requires EnvGrows(env, env') && KnownGrows(known, known')
    requires Means(ReaderOf(env), ReadKnown(known), g, m, d, p, list)
    ensures Means(ReaderOf(env'), ReadKnown(known'), g, m, d, p, list)
  {
    EnvExtends(env, env');
    KnownExtends(known, known');
    OutExtends(ReaderOf(env), ReaderOf(env'), ReadKnown(known), ReadKnown(known'), m.from,
               BoardAt(GetThreadId(m.to[d])), list);
  }

  lemma {:induction false} RunsAre(dests: seq<EdgeDest>, i: nat) returns (j: nat)
    requires i < |Runs(dests)|
    ensures j < |dests| && Runs(dests)[i] == Mailbox(dests[j])
  {
    var n := |dests| - 1;
    if i < |Runs(dests[..n])| {
      j := RunsAre(dests[..n], i);
    } else {
      j := n;
    }
  }

  // The multicasts of a pin can be handed to the routers
  ghost predicate Routable(ds: seq<Dest>, boardsX: nat, boardsY: nat) {
    Falling(ds) && forall i | 0 <= i < |ds| ::
      Fits(ds[i]) && BoardOf(ds[i]).x < boardsX && BoardOf(ds[i]).y < boardsY
  }

  lemma MulticastsRoutable<E>(g: Graph<E>, m: Mapping, d: nat, p: nat, dests: seq<EdgeDest>, ds: seq<Dest>,
                           boardsX: nat, boardsY: nat)
    requires g.Valid() && Mapped(g, m, boardsX, boardsY) && d < |g.outgoing| && Side(g, m, d, p, dests)
    requires Descending(dests) && Multicasts(0x1_0000, ds) && Mailboxes(ds) == Runs(dests)
    ensures Routable(ds, boardsX, boardsY)
  {
    RunsFall(dests);
    assert |ds| == |Mailboxes(ds)| && forall i | 0 <= i < |ds| :: ds[i].mbox == Mailboxes(ds)[i];
    forall i | 0 <= i < |ds|
      ensures Fits(ds[i]) && BoardOf(ds[i]).x < boardsX && BoardOf(ds[i]).y < boardsY
    {
      var j := RunsAre(dests, i);
      BoardOfThread(ThreadOf(dests[j]), ds[i]);
      assert dests[j].dest < |m.to|;
    }
  }

  lemma SidePlaced<E>(g: Graph<E>, m: Mapping, d: nat, p: nat, dests: seq<EdgeDest>, boardsX: nat, boardsY: nat)
    requires g.Valid() && Mapped(g, m, boardsX, boardsY) && d < |g.outgoing| && Side(g, m, d, p, dests)
    ensures AllPlaced(m.from, g.labels[d], 0x1_0000, dests) && (Narrow(g, m) ==> AllFew(dests))
  {
    hide CountTo, FanTo;
    forall i | 0 <= i < |dests| ensures Placed(m.from, g.labels[d], 0x1_0000, dests[i]) {
      assert dests[i].dest < |m.to|;
    }
  }

  lemma AllHeads(b: Board, ds: seq<Dest>)
    ensures Heads(Here, b, ds)
  {
  }

  method PinList(ds: seq<Dest>, key: nat) returns (out: seq<OutEdge>)
    requires Multicasts(0x1_0000, ds) && key < 0x1_0000_0000
    ensures out == PinOut(ds, key) && Encodable(out)
  {
    out := [];
    for i := 0 to |ds|
      invariant out == LocalOut(ds)[..i]
    {
      out := out + [OutEdge(ds[i].mbox, ds[i].key, ds[i].maskLow, ds[i].maskHigh)];
    }
    out := out + [OutEdge(USE_ROUTING_KEY, 0, key, 0)];
    out := out + [TERMINATOR];
  }

  class PGraph<E(==)> {
    const graph: Graph<E>
    const numPins: nat
    const mapping: Mapping
    // Receiver-side tables, and the routing tables of the boards
    const inTables: ReceiverTables<E>
    const progRouterTables: ProgRouterMesh
    // Sender-side tables, for each device and pin
    var outTable: seq<seq<seq<OutEdge>>>

    ghost predicate Valid()
      reads this, inTables, inTables.bitmaps, progRouterTables.routers
    {
      && graph.Valid() && |mapping.to| == |graph.outgoing|
      && Mapped(graph, mapping, progRouterTables.boardsX, progRouterTables.boardsY)
      && (Narrow(graph, mapping) ==> Short(inTables.known))
      && inTables.Valid() && |inTables.bitmaps| == 0x1_0000
      && progRouterTables.Shape() && progRouterTables.Valid() && progRouterTables.AllIdle()
    }

    constructor (graph: Graph<E>, numPins: nat, mapping: Mapping, perHeader: nat, boardsX: nat, boardsY: nat)
      requires graph.Valid() && Mapped(graph, mapping, boardsX, boardsY)
      ensures this.graph == graph && this.numPins == numPins && this.mapping == mapping
      ensures Valid() && fresh(inTables) && fresh(progRouterTables) && fresh(progRouterTables.routers)
      ensures forall b | b in inTables.bitmaps :: fresh(b)
    {
      this.graph, this.numPins, this.mapping, outTable := graph, numPins, mapping, [];
      inTables := new ReceiverTables(perHeader, 0x1_0000);
      progRouterTables := new ProgRouterMesh(boardsX, boardsY);
    }

    // Sending on pin p of device d does what the graph says
    ghost predicate Compiled(d: nat, p: nat, list: seq<OutEdge>)
      requires graph.Valid() && |mapping.to| == |graph.outgoing| && d < |graph.outgoing|
      requires progRouterTables.Shape()
      reads this, inTables, progRouterTables.routers
    {
      Means(ReaderOf(progRouterTables.Keys()), ReadKnown(inTables.known), graph, mapping, d, p, list)
    }

    // Allocate keys for the receivers of a list of destinations
    method AddReceivers(d: nat, p: nat, dests: seq<EdgeDest>) returns (r: Result<seq<Dest>>)
      requires Valid() && d < |graph.outgoing| && Descending(dests) && Side(graph, mapping, d, p, dests)
      modifies inTables`headers, inTables`rest, inTables`known, inTables.bitmaps
      ensures r.Value? ==> Valid() && KnownGrows(old(inTables.known), inTables.known)
      ensures r.Value? ==>
        && Multicasts(0x1_0000, r.value)
        && Routable(r.value, progRouterTables.boardsX, progRouterTables.boardsY)
        && ListEvents(ReadKnown(inTables.known), mapping.from, r.value)
           == Some(Wanted(graph.labels[d], dests))
      ensures r.Exited? ==> inTables.Exhausted()
    {
      hide Narrow, Side, AllPlaced, CountTo, Descending, Wanted, ListEvents, KnownGrows, Runs, Mailboxes,
           Mapped, Multicasts, Routable, ReceiverTables.Valid, ProgRouterMesh.Valid, ProgRouterMesh.Shape;
      SidePlaced(graph, mapping, d, p, dests, progRouterTables.boardsX, progRouterTables.boardsY);
      var ds :- ComputeTables(inTables, mapping.from, graph.labels[d], dests);
      MulticastsRoutable(graph, mapping, d, p, dests, ds, progRouterTables.boardsX, progRouterTables.boardsY);
      return Value(ds);
    }

    // Allocate a routing key for destinations on other boards
    method AddRoute(home: Board, ds: seq<Dest>) returns (r: Result<nat>)
      requires Valid() && home.x < progRouterTables.boardsX && home.y < progRouterTables.boardsY
      requires Routable(ds, progRouterTables.boardsX, progRouterTables.boardsY)
      modifies progRouterTables.routers
      ensures r.Value? ==> Valid() && EnvGrows(old(progRouterTables.Keys()), progRouterTables.Keys())
      ensures r.Value? ==> r.value < 0x1_0000_0000
      ensures r.Value? ==>
        Delivers(ReaderOf(progRouterTables.Keys()), home, r.value, ds)
      ensures r.Exited? ==> progRouterTables.Shape() && progRouterTables.SomeFull()
    {
      hide Narrow, Mapped, EnvGrows, Deliver, MaxDist, Tree, OnRoutes, Closable,
           ReceiverTables.Valid, ProgRouterMesh.Valid, ProgRouterMesh.Shape;
      AllHeads(home, ds);
      AlwaysClosable(home, ds);
      progRouterTables.IdleClear(home, ds);
      var key :- progRouterTables.AddDestsFromBoardXY(home, ds, Here);
      TreeDelivers(home, ds);
      return Value(key);
    }

    // Compute the tables for one pin of one device
    method AddPin(d: nat, p: nat) returns (r: Result<seq<OutEdge>>)
      requires Valid() && d < |graph.outgoing|
      modifies inTables`headers, inTables`rest, inTables`known, inTables.bitmaps, progRouterTables.routers
      ensures r.Value? ==> Valid() && KnownGrows(old(inTables.known), inTables.known)
      ensures r.Value? ==> EnvGrows(old(progRouterTables.Keys()), progRouterTables.Keys())
      ensures r.Value? ==> Compiled(d, p, r.value) && Encodable(r.value)
      ensures r.Exited? ==> OutOfRoom()
    {
      hide Narrow, Side, Descending, Wanted, AllEdges, ListEvents, Delivers, EnvGrows, Means,
           Multicasts, Routable, ReceiverTables.Valid, ProgRouterMesh.Valid, MaxDist, ProgRouterMesh.Keys, Encodable;
      var home := BoardAt(GetThreadId(mapping.to[d]));
      var local, nonLocal := SplitDests(graph, mapping, d, p);
      var ds :- AddReceivers(d, p, local);
      ghost var known := inTables.known;
      var ds' :- AddReceivers(d, p, nonLocal);
      ListGrows(known, inTables.known, mapping.from, ds);
      KnownTrans(old(inTables.known), known, inTables.known);
      var key :- AddRoute(home, ds');
      PinMeans(ReaderOf(progRouterTables.Keys()), ReadKnown(inTables.known), graph, mapping, d, p,
               ds, ds', local, nonLocal, key);
      var list := PinList(ds, key);
      return Value(list);
    }

    // A limit of the machine is exceeded: a key or an in-table index of more than
    // 16 bits, or a routing table that does not fit in its memory
    ghost predicate OutOfRoom()
      reads inTables`rest, inTables.bitmaps, progRouterTables.routers
    {
      inTables.Exhausted() || (progRouterTables.Shape() && progRouterTables.SomeFull())
    }

    // Compute routing tables.  Unless a limit of the machine is exceeded, the
    // tables do what the graph says, for every device and pin.
    method ComputeRoutingTables() returns (o: Outcome)
      requires Valid()
      modifies this, inTables`headers, inTables`rest, inTables`known, inTables.bitmaps, progRouterTables.routers
      ensures o.Value? ==> Valid() && |outTable| == |graph.outgoing|
      ensures o.Value? ==> forall d | 0 <= d < |graph.outgoing| ::
        |outTable[d]| == numPins && forall p | 0 <= p < numPins :: Encodable(outTable[d][p])
      ensures o.Value? && Narrow(graph, mapping) ==>
        forall d, p | 0 <= d < |graph.outgoing| && 0 <= p < numPins :: Performs(d, p)
      ensures o.Exited? ==> OutOfRoom()
    {
      hide OutOfRoom, ReceiverTables.Valid, ProgRouterMesh.Valid, ProgRouterMesh.Keys, Narrow, Mapped, Graph.Valid,
           EnvGrows, KnownGrows, RowMeans, Encodable;
      ghost var env, known := progRouterTables.Keys(), inTables.known;
      outTable := [];
      for d := 0 to |graph.outgoing|
        invariant Valid() && |outTable| == d
        invariant forall i | 0 <= i < d ::
          RowMeans(progRouterTables.Keys(), inTables.known, graph, mapping, i, outTable[i], numPins)
      {
        var row: seq<seq<OutEdge>> := [];
        NoPins(progRouterTables.Keys(), inTables.known, graph, mapping, d);
        for p := 0 to numPins
          invariant Valid() && |outTable| == d
          invariant forall i | 0 <= i < d ::
            RowMeans(progRouterTables.Keys(), inTables.known, graph, mapping, i, outTable[i], numPins)
          invariant RowMeans(progRouterTables.Keys(), inTables.known, graph, mapping, d, row, p)
        {
          env, known := progRouterTables.Keys(), inTables.known;
          var list :- AddPin(d, p);
          RowsGrow(env, progRouterTables.Keys(), known, inTables.known, graph, mapping, outTable, numPins);
          RowAdd(env, progRouterTables.Keys(), known, inTables.known, graph, mapping, d, row, p, list);
          row := row + [list];
        }
        outTable := outTable + [row];
      }
      RowLengths();
      if Narrow(graph, mapping) {
        AllPerform();
      }
      return Continue;
    }

    lemma RowLengths()
      requires Valid() && |outTable| == |graph.outgoing|
      requires forall d | 0 <= d < |graph.outgoing| ::
        RowMeans(progRouterTables.Keys(), inTables.known, graph, mapping, d, outTable[d], numPins)
      ensures forall d | 0 <= d < |graph.outgoing| ::
        |outTable[d]| == numPins && forall p | 0 <= p < numPins :: Encodable(outTable[d][p])
    {
      hide Means, ReceiverTables.Valid, ProgRouterMesh.Valid, ProgRouterMesh.Keys, Narrow, Mapped, Encodable;
      forall d | 0 <= d < |graph.outgoing|
        ensures |outTable[d]| == numPins && forall p | 0 <= p < numPins :: Encodable(outTable[d][p])
      {
        assert RowMeans(progRouterTables.Keys(), inTables.known, graph, mapping, d, outTable[d], numPins);
      }
    }

    lemma AllPerform()
      requires Valid() && Narrow(graph, mapping) && |outTable| == |graph.outgoing|
      requires forall d | 0 <= d < |graph.outgoing| ::
        RowMeans(progRouterTables.Keys(), inTables.known, graph, mapping, d, outTable[d], numPins)
      ensures forall d | 0 <= d < |graph.outgoing| :: |outTable[d]| == numPins
      ensures forall d, p | 0 <= d < |graph.outgoing| && 0 <= p < numPins :: Performs(d, p)
    {
      hide Means, ReceiverTables.Valid, ProgRouterMesh.Valid, ProgRouterMesh.Keys, Narrow, Mapped, Performs, Short;
      RowLengths();
      forall d, p | 0 <= d < |graph.outgoing| && 0 <= p < numPins ensures Performs(d, p) {
        CompiledPerforms(d, p);
      }
    }

    // The bytes of the routing tables and the headers and edges of the in-tables
    // say what the graph says
    ghost predicate Performs(d: nat, p: nat)
      requires graph.Valid() && |mapping.to| == |graph.outgoing| && d < |graph.outgoing|
      requires progRouterTables.Shape() && d < |outTable| && p < |outTable[d]|
      reads this, inTables, progRouterTables.routers
    {
      Means(ByteReader(progRouterTables.Tables()), TableReader(inTables.headers, inTables.rest, inTables.perHeader),
            graph, mapping, d, p, outTable[d][p])
    }

    // Lists that are not cut are read as they are meant
    lemma ShortReads()
      requires inTables.Valid() && Short(inTables.known)
      ensures InExtends(ReadKnown(inTables.known), TableReader(inTables.headers, inTables.rest, inTables.perHeader))
    {
      hide Receivers;
      forall a | a in inTables.known ensures Cut(inTables.known[a]) == inTables.known[a] {
        var list := inTables.known[a];
        assert |list| % RECEIVERS == |list| && list[..|list|] == list;
      }
    }

    lemma CompiledPerforms(d: nat, p: nat)
      requires Valid() && Narrow(graph, mapping) && d < |graph.outgoing| && d < |outTable| && p < numPins
      requires RowMeans(progRouterTables.Keys(), inTables.known, graph, mapping, d, outTable[d], numPins)
      ensures |outTable[d]| == numPins && Performs(d, p)
    {
      hide OutEvents, AllEdges, Receivers, Narrow, Mapped, Graph.Valid;
      var net, net' := ReaderOf(progRouterTables.Keys()), ByteReader(progRouterTables.Tables());
      var read := ReadKnown(inTables.known);
      var read' := TableReader(inTables.headers, inTables.rest, inTables.perHeader);
      assert Compiled(d, p, outTable[d][p]);
      progRouterTables.BytesExtend();
      ShortReads();
      OutExtends(net, net', read, read', mapping.from, BoardAt(GetThreadId(mapping.to[d])), outTable[d][p]);
    }
  }

  // How the threads read their in-tables
  ghost function TableReader<E>(headers: seq<seq<Header<E>>>, rest: seq<seq<InEdge<E>>>, perHeader: nat)
    : InReader<E>
  {
    (t: nat, k: nat) =>
      if t < |headers| && t < |rest| then Receivers(headers[t], rest[t], perHeader, k) else None
  }

  // The first n pins of a device do what the graph says
  ghost predicate RowMeans<E>(env: Env, known: Known<E>, g: Graph<E>, m: Mapping, d: nat,
                           row: seq<seq<OutEdge>>, n: nat)
    requires g.Valid() && |m.to| == |g.outgoing| && d < |g.outgoing|
  {
    && |row| == n
    && forall p | 0 <= p < n :: Means(ReaderOf(env), ReadKnown(known), g, m, d, p, row[p]) && Encodable(row[p])
  }

  lemma NoPins<E>(env: Env, known: Known<E>, g: Graph<E>, m: Mapping, d: nat)
    requires g.Valid() && |m.to| == |g.outgoing| && d < |g.outgoing|
    ensures RowMeans(env, known, g, m, d, [], 0)
  {
  }

  lemma RowGrows<E>(env: Env, env': Env, known: Known<E>, known': Known<E>,
                 g: Graph<E>, m: Mapping, d: nat, row: seq<seq<OutEdge>>, n: nat)
    requires g.Valid() && |m.to| == |g.outgoing| && d < |g.outgoing|
    requires EnvGrows(env, env') && KnownGrows(known, known') && RowMeans(env, known, g, m, d, row, n)
    ensures RowMeans(env', known', g, m, d, row, n)
  {
    hide Means, Encodable;
    forall p | 0 <= p < n ensures Means(ReaderOf(env'), ReadKnown(known'), g, m, d, p, row[p]) {
      MeansGrows(env, env', known, known', g, m, d, p, row[p]);
    }
  }

  lemma RowAdd<E>(env: Env, env': Env, known: Known<E>, known': Known<E>,
               g: Graph<E>, m: Mapping, d: nat, row: seq<seq<OutEdge>>, n: nat, list: seq<OutEdge>)
    requires g.Valid() && |m.to| == |g.outgoing| && d < |g.outgoing|
    requires EnvGrows(env, env') && KnownGrows(known, known') && RowMeans(env, known, g, m, d, row, n)
    requires Means(ReaderOf(env'), ReadKnown(known'), g, m, d, n, list) && Encodable(list)
    ensures RowMeans(env', known', g, m, d, row + [list], n + 1)
  {
    hide Means, Encodable;
    RowGrows(env, env', known, known', g, m, d, row, n);
  }

  lemma RowsGrow<E>(env: Env, env': Env, known: Known<E>, known': Known<E>,
                 g: Graph<E>, m: Mapping, rows: seq<seq<seq<OutEdge>>>, n: nat)
    requires g.Valid() && |m.to| == |g.outgoing| && |rows| <= |g.outgoing|
    requires EnvGrows(env, env') && KnownGrows(known, known')
    requires forall i | 0 <= i < |rows| :: RowMeans(env, known, g, m, i, rows[i], n)
    ensures forall i | 0 <= i < |rows| :: RowMeans(env', known', g, m, i, rows[i], n)
  {
    forall i | 0 <= i < |rows| ensures RowMeans(env', known', g, m, i, rows[i], n) {
      RowGrows(env, env', known, known', g, m, i, rows[i], n);
    }
  }

  lemma KnownTrans<E>(a: Known<E>, b: Known<E>, c: Known<E>)
    requires KnownGrows(a, b) && KnownGrows(b, c)
    ensures KnownGrows(a, c)
  {
  }

  lemma ListGrows<E>(known: Known<E>, known': Known<E>, from: seq<seq<nat>>, ds: seq<Dest>)
    requires KnownGrows(known, known') && ListEvents(ReadKnown(known), from, ds).Some?
    ensures ListEvents(ReadKnown(known'), from, ds) == ListEvents(ReadKnown(known), from, ds)
  {
    KnownExtends(known, known');
    ListExtends(ReadKnown(known), ReadKnown(known'), from, ds);
  }
}
