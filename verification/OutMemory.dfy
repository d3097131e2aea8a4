// What a sender reads from its memory after the upload: its out-edges, in the
// bytes that the boot loaders have written.
module OutMemory {
  import opened Wrappers
  import opened InTables
  import opened Mesh
  import opened Multicast
  import opened RoutingTables
  import opened Partitions
  import opened Uploads
  import opened Builds
  import opened Linking
  import PGraphs

  // Size of an out-edge in memory
  const OUT_EDGE: nat := 12

  // Mailbox and key share the first word, the masks are the other two
  function WordOf(e: OutEdge, i: nat): nat {
    if i == 0 then e.mbox + 0x1_0000 * e.key else if i == 1 then e.maskLow else e.maskHigh
  }

  function EdgeBytes(e: OutEdge): (bytes: seq<nat>)
    ensures |bytes| == OUT_EDGE && AreBytes(bytes)
  {
    ByteRange(WordOf(e, 0));
    ByteRange(WordOf(e, 1));
    ByteRange(WordOf(e, 2));
    seq(OUT_EDGE, k requires 0 <= k < OUT_EDGE => ByteOf(WordOf(e, k / 4), k % 4))
  }

  lemma ByteRange(w: nat)
    ensures forall k: nat :: ByteOf(w, k) < 0x100
  {
  }

  function Encode(list: seq<OutEdge>): (bytes: seq<nat>)
    ensures |bytes| == OUT_EDGE * |list| && AreBytes(bytes)
  {
    if list == [] then [] else Encode(list[..|list| - 1]) + EdgeBytes(list[|list| - 1])
  }

  // The out-edge at an address
  function EdgeIn(mem: Memory, id: nat, a: nat): OutEdge {
    var w := WordIn(mem, id, a);
    OutEdge(w % 0x1_0000, w / 0x1_0000, WordIn(mem, id, a + 4), WordIn(mem, id, a + 8))
  }

  function WordIn(mem: Memory, id: nat, a: nat): nat {
    At(mem, id, a) + 0x100 * At(mem, id, a + 1) + 0x1_0000 * At(mem, id, a + 2) + 0x100_0000 * At(mem, id, a + 3)
  }

  function EdgesIn(mem: Memory, id: nat, base: nat, n: nat): seq<OutEdge> {
    seq(n, i requires 0 <= i < n => EdgeIn(mem, id, base + OUT_EDGE * i))
  }

  // The bytes of these out-edges are in memory from base on
  ghost predicate Holding(mem: Memory, id: nat, base: nat, list: seq<OutEdge>) {
    forall k | 0 <= k < |Encode(list)| :: At(mem, id, base + k) == Encode(list)[k]
  }

  lemma {:induction false} EncodeAt(list: seq<OutEdge>, i: nat, k: nat)
    requires i < |list| && k < OUT_EDGE
    ensures Encode(list)[OUT_EDGE * i + k] == EdgeBytes(list[i])[k]
    decreases |list|
  {
    var n := |list| - 1;
    if i < n {
      EncodeAt(list[..n], i, k);
    }
  }

  lemma WordBack(mem: Memory, id: nat, a: nat, w: nat)
    requires w < 0x1_0000_0000
    requires At(mem, id, a) == ByteOf(w, 0) && At(mem, id, a + 1) == ByteOf(w, 1)
    requires At(mem, id, a + 2) == ByteOf(w, 2) && At(mem, id, a + 3) == ByteOf(w, 3)
    ensures WordIn(mem, id, a) == w
  {
    hide At;
    FourBytes(w);
  }

  lemma FourBytes(w: nat)
    requires w < 0x1_0000_0000
    ensures w % 0x100 + 0x100 * (w / 0x100 % 0x100) + 0x1_0000 * (w / 0x1_0000 % 0x100)
      + 0x100_0000 * (w / 0x100_0000 % 0x100) == w
  {
    Shifts(w);
    assert w / 0x100_0000 < 0x100;
  }

  lemma EdgeBack(mem: Memory, id: nat, base: nat, list: seq<OutEdge>, i: nat)
    requires Encodable(list) && Holding(mem, id, base, list) && i < |list|
    ensures EdgeIn(mem, id, base + OUT_EDGE * i) == list[i]
  {
    hide ByteOf, WordIn, At, Encode, Holding;
    var e, a := list[i], base + OUT_EDGE * i;
    WordHeld(mem, id, base, list, i, 0);
    WordHeld(mem, id, base, list, i, 1);
    WordHeld(mem, id, base, list, i, 2);
  }

  lemma WordHeld(mem: Memory, id: nat, base: nat, list: seq<OutEdge>, i: nat, w: nat)
    requires Encodable(list) && Holding(mem, id, base, list) && i < |list| && w < 3
    ensures WordIn(mem, id, base + OUT_EDGE * i + 4 * w) == WordOf(list[i], w)
  {
    hide ByteOf, WordIn, At, Encode, Holding;
    ByteHeld(mem, id, base, list, i, w, 0);
    ByteHeld(mem, id, base, list, i, w, 1);
    ByteHeld(mem, id, base, list, i, w, 2);
    ByteHeld(mem, id, base, list, i, w, 3);
    WordBack(mem, id, base + OUT_EDGE * i + 4 * w, WordOf(list[i], w));
  }

  lemma ByteHeld(mem: Memory, id: nat, base: nat, list: seq<OutEdge>, i: nat, w: nat, k: nat)
    requires Holding(mem, id, base, list) && i < |list| && w < 3 && k < 4
    ensures At(mem, id, base + OUT_EDGE * i + 4 * w + k) == ByteOf(WordOf(list[i], w), k)
  {
    hide ByteOf, At, Encode;
    var at := OUT_EDGE * i + (4 * w + k);
    EncodeAt(list, i, 4 * w + k);
    assert at < OUT_EDGE * |list|;
    assert base + at == base + OUT_EDGE * i + 4 * w + k;
  }

  lemma EdgesBack(mem: Memory, id: nat, base: nat, list: seq<OutEdge>)
    requires Encodable(list) && Holding(mem, id, base, list)
    ensures EdgesIn(mem, id, base, |list|) == list
  {
    forall i | 0 <= i < |list| ensures EdgesIn(mem, id, base, |list|)[i] == list[i] {
      EdgeBack(mem, id, base, list, i);
    }
  }

  // ---------------------------------------------------------------------
  // The out-edges of a thread

  // The lists of all pins of some devices
  function RowsOf(out: seq<seq<seq<OutEdge>>>, devs: seq<nat>): seq<seq<seq<OutEdge>>> {
    seq(|devs|, i requires 0 <= i < |devs| => if devs[i] < |out| then out[devs[i]] else [])
  }

  lemma {:induction false} JoinEncodable(lists: seq<seq<OutEdge>>)
    requires forall p | 0 <= p < |lists| :: Encodable(lists[p])
    ensures Encodable(Join(lists))
    decreases |lists|
  {
    if lists != [] {
      JoinEncodable(lists[..|lists| - 1]);
    }
  }

  lemma {:induction false} ArrayEncodable(rows: seq<seq<seq<OutEdge>>>)
    requires forall d, p | 0 <= d < |rows| && 0 <= p < |rows[d]| :: Encodable(rows[d][p])
    ensures Encodable(Array(rows))
    decreases |rows|
  {
    if rows != [] {
      ArrayEncodable(rows[..|rows| - 1]);
      JoinEncodable(rows[|rows| - 1]);
    }
  }

  // Some kind of heap is the out-edges of all threads, in bytes
  ghost predicate OutHeaps(out: seq<seq<seq<OutEdge>>>, from: seq<seq<nat>>, m: Image) {
    m.Valid() && |from| == MAX_THREADS
    && forall t | 0 <= t < MAX_THREADS :: m.heap[t] == Encode(Array(RowsOf(out, from[t])))
  }

  // Heaps have been sent to all cores, in places that do not meet, and one core
  // has handled all that it was sent
  ghost predicate Received(ms: seq<Image>, sent: seq<seq<BootReq>>, s0: Machine, schedule: seq<nat>, core: nat) {
    && AllValid(ms) && AllInSpace(ms) && Separate(ms) && Sending(ms, sent) && s0.Shape()
    && (forall c | 0 <= c < MAX_CORES :: s0.pos[c] == 0)
    && core < MAX_CORES && sent[core] == Kinds(ms, core, |ms|)
    && Run(sent, s0, schedule).pos[core] == |sent[core]|
  }

  // A thread finds in memory the list that was encoded for it
  lemma Arrived(ms: seq<Image>, kind: nat, sent: seq<seq<BootReq>>, s0: Machine, schedule: seq<nat>, t: nat,
                list: seq<OutEdge>)
    requires Received(ms, sent, s0, schedule, t / THREADS) && kind < |ms|
    requires ms[kind].Valid() && |sent| == MAX_CORES && s0.Shape()
    requires t < MAX_THREADS && ms[kind].heap[t] == Encode(list) && Encodable(list)
    ensures EdgesIn(Run(sent, s0, schedule).mem, t / SHARING, ms[kind].base[t], |list|) == list
  {
    hide Received, Run, Encode, At, Holding;
    HeapArrived(ms, kind, sent, s0, schedule, t);
    HoldingIs(Run(sent, s0, schedule).mem, t / SHARING, ms[kind].base[t], list);
    EdgesBack(Run(sent, s0, schedule).mem, t / SHARING, ms[kind].base[t], list);
  }

  lemma HoldingIs(mem: Memory, id: nat, base: nat, list: seq<OutEdge>)
    requires forall k | 0 <= k < |Encode(list)| :: At(mem, id, base + k) == Encode(list)[k]
    ensures Holding(mem, id, base, list)
  {
  }

  lemma HeapArrived(ms: seq<Image>, kind: nat, sent: seq<seq<BootReq>>, s0: Machine, schedule: seq<nat>, t: nat)
    requires Received(ms, sent, s0, schedule, t / THREADS) && kind < |ms| && t < MAX_THREADS
    ensures ms[kind].Valid() && |sent| == MAX_CORES && s0.Shape()
    ensures forall k | 0 <= k < |ms[kind].heap[t]| ::
      At(Run(sent, s0, schedule).mem, t / SHARING, ms[kind].base[t] + k) == ms[kind].heap[t][k]
  {
    hide AllInSpace, Separate, Run, At, Kinds, Used;
    UploadCorrect(ms, sent, s0, schedule, t / THREADS);
    assert ms[kind].Valid();
    assert THREADS * (t / THREADS) <= t < THREADS * (t / THREADS) + THREADS;
  }

  // Where a device is on its thread
  lemma RowAt<E>(tables: PGraph<E>, d: nat)
    requires Builds.Linked(tables) && d < |tables.outTable|
    ensures var m, t, i := tables.mapping, PGraphs.GetThreadId(tables.mapping.to[d]),
        PGraphs.GetLocalDeviceId(tables.mapping.to[d]);
      && |m.from| == MAX_THREADS && t < MAX_THREADS && i < |m.from[t]| && m.from[t][i] == d
      && RowsOf(tables.outTable, m.from[t])[i] == tables.outTable[d]
      && Encodable(Array(RowsOf(tables.outTable, m.from[t])))
  {
    hide Encodable, Means, ReceiverTables.Valid, ProgRouterMesh.Valid, Narrow;
    var rows := RowsOf(tables.outTable, tables.mapping.from[PGraphs.GetThreadId(tables.mapping.to[d])]);
    ArrayEncodable(rows);
  }

  // What the thread of a device reads for a pin says what the graph says: sending
  // on the pin invokes the receivers of its edges.  This is so for every compiled
  // graph, from the bytes in memory, wherever the pin starts below 65536.
  lemma SendersRead<E>(tables: PGraph<E>, ms: seq<Image>, kind: nat, sent: seq<seq<BootReq>>, s0: Machine,
                       schedule: seq<nat>, d: nat, p: nat, t: nat, i: nat)
    requires Builds.Linked(tables) && Spread(tables) && d < |tables.outTable| && p < tables.numPins
    requires t == PGraphs.GetThreadId(tables.mapping.to[d]) && i == PGraphs.GetLocalDeviceId(tables.mapping.to[d])
    requires kind < |ms| && OutHeaps(tables.outTable, tables.mapping.from, ms[kind])
    requires Received(ms, sent, s0, schedule, t / THREADS)
    ensures t < MAX_THREADS && i < |tables.mapping.from[t]|
    ensures var rows := RowsOf(tables.outTable, tables.mapping.from[t]);
      && |rows[i]| == tables.numPins
      && (Offset(rows, i, p) < PIN_BASES ==>
            var edges := EdgesIn(Run(sent, s0, schedule).mem, t / SHARING, ms[kind].base[t], |Array(rows)|);
            && Offset(rows, i, p) <= |edges|
            && Means(ByteReader(tables.progRouterTables.Tables()),
                     TableReader(tables.inTables.headers, tables.inTables.rest, tables.inTables.perHeader),
                     tables.graph, tables.mapping, d, p, edges[Offset(rows, i, p)..]))
  {
    hide Received, OutHeaps, Means, Encodable, ReceiverTables.Valid, ProgRouterMesh.Valid, Narrow, Array, Offset, Run,
         ByteReader, TableReader, Encode;
    RowAt(tables, d);
    var rows := RowsOf(tables.outTable, tables.mapping.from[t]);
    if Offset(rows, i, p) < PIN_BASES {
      HeapOf(tables.outTable, tables.mapping.from, ms, kind, sent, s0, schedule, t);
      Arrived(ms, kind, sent, s0, schedule, t, Array(rows));
      assert tables.Performs(d, p);
      ArrayMeans(ByteReader(tables.progRouterTables.Tables()),
                 TableReader(tables.inTables.headers, tables.inTables.rest, tables.inTables.perHeader),
                 tables.graph, tables.mapping, d, p, rows, i);
    }
  }

  lemma HeapOf(out: seq<seq<seq<OutEdge>>>, from: seq<seq<nat>>, ms: seq<Image>, kind: nat, sent: seq<seq<BootReq>>,
               s0: Machine, schedule: seq<nat>, t: nat)
    requires kind < |ms| && OutHeaps(out, from, ms[kind]) && Received(ms, sent, s0, schedule, t / THREADS)
    requires t < MAX_THREADS
    ensures ms[kind].Valid() && |sent| == MAX_CORES && s0.Shape()
    ensures ms[kind].heap[t] == Encode(Array(RowsOf(out, from[t])))
  {
    hide Encode, Array;
  }
}
