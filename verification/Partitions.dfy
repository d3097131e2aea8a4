// The memory of each thread: regions for its tables, and what is stored in them.
module Partitions {
  import opened Wrappers
  import opened InTables
  import opened Mesh
  import opened Multicast
  import opened RoutingRecords
  import PGraphs
  import opened RoutingTables

  // Bytes of memory for each thread, and those at its end that are for the stack
  const SRAM_PARTITION: nat := 0x8000
  const SRAM_STACK: nat := 2048
  const DRAM_PARTITION: nat := 0x20_0000
  const DRAM_STACK: nat := 65536
  const SRAM_BASE: nat := 0x80_0000
  const DRAM_TOP: nat := 0x1_0000_0000
  // Threads that share a DRAM and two SRAMs
  const SHARING: nat := 512

  // The least multiple of a word, and of a cache line, that is not less than addr
  function WordAlign(addr: nat): (r: nat)
    ensures r % 4 == 0 && addr <= r < addr + 4
  {
    if addr % 4 == 0 then addr else (addr / 4 + 1) * 4
  }

  function CacheAlign(addr: nat): (r: nat)
    ensures r % 32 == 0 && addr <= r < addr + 32
  {
    if addr % 32 == 0 then addr else (addr / 32 + 1) * 32
  }

  function Bytes(count: nat, size: nat): nat { count * size }

  lemma BytesNext(count: nat, size: nat)
    ensures Bytes(0, size) == 0 && Bytes(count + 1, size) == Bytes(count, size) + size
  {
  }

  // Sizes of the structures that the compiler lays out
  datatype Sizes = Sizes(thread: nat, state: nat, header: nat, inEdge: nat, outEdge: nat, localId: nat)

  // What one thread has to hold
  datatype Contents = Contents(numDevs: nat, numHeaders: nat, numRest: nat, numOut: nat)

  // Which regions are in DRAM; the others are in SRAM
  datatype Choice = Choice(vertices: bool, headers: bool, rest: bool, out: bool)

  datatype Region = Region(base: nat, size: nat) {
    predicate Holds(a: int) { base <= a < base + size }
  }

  // The region of the vertices starts with their states, followed by the array of senders
  datatype Layout = Layout(thread: Region, vertices: Region, headers: Region, rest: Region, out: Region,
                           vertexInit: nat)
  {
    function Regions(): seq<Region> { [thread, vertices, headers, rest, out] }
  }

  predicate Apart(a: Region, b: Region) { a.base + a.size <= b.base || b.base + b.size <= a.base }

  function SramBase(thread: nat): nat { SRAM_BASE + thread % SHARING * SRAM_PARTITION }
  function DramBase(thread: nat): nat { DRAM_TOP - (thread % SHARING + 1) * DRAM_PARTITION }

  // The region is in the thread's own part of SRAM or DRAM, below its stack
  predicate Owned(thread: nat, r: Region) {
    || (SramBase(thread) <= r.base && r.base + r.size <= SramBase(thread) + SRAM_PARTITION - SRAM_STACK)
    || (DramBase(thread) <= r.base && r.base + r.size <= DramBase(thread) + DRAM_PARTITION - DRAM_STACK)
  }

  // The regions of a thread do not meet, are its own, and are made of words
  predicate LaidOut(thread: nat, l: Layout) {
    && (forall i, j | 0 <= i < j < |l.Regions()| :: Apart(l.Regions()[i], l.Regions()[j]))
    && (forall r | r in l.Regions() :: Owned(thread, r) && r.base % 4 == 0 && r.size % 4 == 0)
    && l.vertexInit <= l.vertices.size && l.vertexInit % 4 == 0
  }

  function VertexBytes(s: Sizes, c: Contents): nat { Bytes(c.numDevs, s.state) + WordAlign(Bytes(c.numDevs, s.localId)) }

  function When(b: bool, n: nat): nat { if b then n else 0 }

  lemma Whens(n: nat)
    ensures When(true, n) == n && When(false, n) == 0
  {
  }

  // Bytes needed in DRAM and in SRAM
  function DramBytes(s: Sizes, c: Contents, d: Choice): nat {
    When(d.vertices, VertexBytes(s, c)) + When(d.headers, WordAlign(Bytes(c.numHeaders, s.header)))
      + When(d.rest, WordAlign(Bytes(c.numRest, s.inEdge))) + When(d.out, WordAlign(Bytes(c.numOut, s.outEdge)))
  }

  function SramBytes(s: Sizes, c: Contents, d: Choice): nat {
    CacheAlign(s.thread) + DramBytes(s, c, Choice(!d.vertices, !d.headers, !d.rest, !d.out))
  }

  // The regions hold what they are for
  predicate Enough(s: Sizes, c: Contents, l: Layout) {
    && l.thread.size >= s.thread && l.vertexInit == Bytes(c.numDevs, s.state)
    && l.vertices.size - l.vertexInit >= Bytes(c.numDevs, s.localId)
    && l.headers.size >= Bytes(c.numHeaders, s.header) && l.rest.size >= Bytes(c.numRest, s.inEdge)
    && l.out.size >= Bytes(c.numOut, s.outEdge)
  }

  // A cursor in each memory from which the regions are taken
  datatype Cursor = Cursor(sram: nat, dram: nat)

  function Take(c: Cursor, dram: bool, size: nat): (Region, Cursor) {
    (Region(if dram then c.dram else c.sram, size), Cursor(c.sram + When(!dram, size), c.dram + When(dram, size)))
  }

  method AllocatePartition(threadId: nat, s: Sizes, c: Contents, d: Choice) returns (r: Result<Layout>)
    ensures r.Value? <==>
      && DramBytes(s, c, d) <= DRAM_PARTITION - DRAM_STACK && SramBytes(s, c, d) <= SRAM_PARTITION - SRAM_STACK
      && Bytes(c.numDevs, s.state) % 4 == 0
    ensures r.Value? ==> LaidOut(threadId, r.value) && Enough(s, c, r.value)
  {
    hide Bytes, WordAlign, CacheAlign, When;
    BytesNext(0, s.state);
    var sizeTMem := CacheAlign(s.thread);
    var sizeVMem := 0;
    for devNum := 0 to c.numDevs
      invariant sizeVMem == Bytes(devNum, s.state)
    {
      BytesNext(devNum, s.state);
      sizeVMem := sizeVMem + s.state;
    }
    var sizeEIHeaderMem := WordAlign(Bytes(c.numHeaders, s.header));
    var sizeEIRestMem := WordAlign(Bytes(c.numRest, s.inEdge));
    var sizeEOMem := WordAlign(Bytes(c.numOut, s.outEdge));
    // The total size including uninitialised portions
    var totalSizeVMem := sizeVMem + WordAlign(Bytes(c.numDevs, s.localId));
    var totalSizeSRAM, totalSizeDRAM := sizeTMem, 0;
    totalSizeDRAM := totalSizeDRAM + When(d.vertices, totalSizeVMem);
    totalSizeSRAM := totalSizeSRAM + When(!d.vertices, totalSizeVMem);
    totalSizeDRAM := totalSizeDRAM + When(d.headers, sizeEIHeaderMem);
    totalSizeSRAM := totalSizeSRAM + When(!d.headers, sizeEIHeaderMem);
    totalSizeDRAM := totalSizeDRAM + When(d.rest, sizeEIRestMem);
    totalSizeSRAM := totalSizeSRAM + When(!d.rest, sizeEIRestMem);
    totalSizeDRAM := totalSizeDRAM + When(d.out, sizeEOMem);
    totalSizeSRAM := totalSizeSRAM + When(!d.out, sizeEOMem);
    if totalSizeDRAM > DRAM_PARTITION - DRAM_STACK { return Exited; }
    if totalSizeSRAM > SRAM_PARTITION - SRAM_STACK { return Exited; }
    if sizeVMem % 4 != 0 { return Exited; }
    var l := PlaceRegions(threadId, sizeTMem, sizeVMem, totalSizeVMem, sizeEIHeaderMem, sizeEIRestMem, sizeEOMem, d);
    r := Value(l);
  }

  lemma Bases(thread: nat)
    ensures SramBase(thread) % 4 == 0 && DramBase(thread) % 4 == 0
    ensures SramBase(thread) + SRAM_PARTITION <= 3 * SRAM_BASE <= DramBase(thread) <= DRAM_TOP - DRAM_PARTITION
  {
  }

  method PlaceRegions(threadId: nat, thread: nat, vertexInit: nat, vertices: nat, headers: nat, rest: nat, out: nat,
                      d: Choice) returns (l: Layout)
    requires vertexInit <= vertices && vertexInit % 4 == 0
    requires thread % 4 == 0 && vertices % 4 == 0 && headers % 4 == 0 && rest % 4 == 0 && out % 4 == 0
    requires When(d.vertices, vertices) + When(d.headers, headers) + When(d.rest, rest) + When(d.out, out)
      <= DRAM_PARTITION - DRAM_STACK
    requires thread + When(!d.vertices, vertices) + When(!d.headers, headers) + When(!d.rest, rest) + When(!d.out, out)
      <= SRAM_PARTITION - SRAM_STACK
    ensures LaidOut(threadId, l) && l.vertexInit == vertexInit
    ensures l.thread.size == thread && l.vertices.size == vertices && l.headers.size == headers
      && l.rest.size == rest && l.out.size == out
  {
    hide Packed, LaidOut, When, SramBase, DramBase;
    Bases(threadId);
    assert When(true, thread) == thread && When(false, thread) == 0 by { Whens(thread); }
    var at := Cursor(SramBase(threadId), DramBase(threadId));
    ghost var packed := [];
    NothingPacked(at);
    var (threadAt, at1) := Take(at, false, thread);
    packed := PackOne(packed, at, at, false, thread);
    var (verticesAt, at2) := Take(at1, d.vertices, vertices);
    packed := PackOne(packed, at, at1, d.vertices, vertices);
    var (headersAt, at3) := Take(at2, d.headers, headers);
    packed := PackOne(packed, at, at2, d.headers, headers);
    var (restAt, at4) := Take(at3, d.rest, rest);
    packed := PackOne(packed, at, at3, d.rest, rest);
    var (outAt, at5) := Take(at4, d.out, out);
    packed := PackOne(packed, at, at4, d.out, out);
    l := Layout(threadAt, verticesAt, headersAt, restAt, outAt, vertexInit);
    assert packed == l.Regions();
    PackedLaidOut(threadId, at5, l);
  }

  // The regions fill both memories between the cursors
  predicate Packed(rs: seq<Region>, at: Cursor, to: Cursor) {
    && at.sram <= to.sram <= at.dram <= to.dram && to.sram % 4 == 0 && to.dram % 4 == 0
    && (forall i, j | 0 <= i < j < |rs| :: Apart(rs[i], rs[j]))
    && (forall r | r in rs :: r.base % 4 == 0 && r.size % 4 == 0
          && ((at.sram <= r.base && r.base + r.size <= to.sram) || (at.dram <= r.base && r.base + r.size <= to.dram)))
  }

  lemma NothingPacked(at: Cursor)
    requires at.sram <= at.dram && at.sram % 4 == 0 && at.dram % 4 == 0
    ensures Packed([], at, at)
  {
  }

  ghost function PackOne(rs: seq<Region>, at: Cursor, to: Cursor, dram: bool, size: nat): (r: seq<Region>)
    requires Packed(rs, at, to) && size % 4 == 0 && to.sram + When(!dram, size) <= at.dram
    ensures r == rs + [Take(to, dram, size).0] && Packed(r, at, Take(to, dram, size).1)
  {
    rs + [Take(to, dram, size).0]
  }

  lemma PackedLaidOut(thread: nat, to: Cursor, l: Layout)
    requires Packed(l.Regions(), Cursor(SramBase(thread), DramBase(thread)), to)
    requires to.sram <= SramBase(thread) + SRAM_PARTITION - SRAM_STACK
    requires to.dram <= DramBase(thread) + DRAM_PARTITION - DRAM_STACK
    requires l.vertexInit <= l.vertices.size && l.vertexInit % 4 == 0
    ensures LaidOut(thread, l)
  {
  }

  // No two regions of threads that share a memory meet
  lemma ThreadsApart(t: nat, l: Layout, t': nat, l': Layout, r: Region, r': Region)
    requires LaidOut(t, l) && LaidOut(t', l') && t != t' && t / SHARING == t' / SHARING
    requires r in l.Regions() && r' in l'.Regions()
    ensures Apart(r, r')
  {
  }

  // No region reaches into the routing tables of the board, which are in the
  // lower half of the same DRAM
  lemma TablesApart(t: nat, l: Layout, r: Region)
    requires LaidOut(t, l) && r in l.Regions()
    ensures r.base + r.size <= TABLE_BASE || r.base >= 0x8000_0000 + TABLE_BASE + TABLE_LENGTH
    ensures r.base + r.size <= DRAM_TOP
  {
  }

  // ---------------------------------------------------------------------
  // The out-edges of a thread, in one array

  function Join(lists: seq<seq<OutEdge>>): seq<OutEdge> {
    if lists == [] then [] else Join(lists[..|lists| - 1]) + lists[|lists| - 1]
  }

  // Lists of the pins of all devices, one after the other
  function Array(rows: seq<seq<seq<OutEdge>>>): seq<OutEdge> {
    if rows == [] then [] else Array(rows[..|rows| - 1]) + Join(rows[|rows| - 1])
  }

  // Where the list of a pin starts
  function Offset(rows: seq<seq<seq<OutEdge>>>, dev: nat, pin: nat): nat
    requires dev < |rows| && pin <= |rows[dev]|
  {
    |Array(rows[..dev])| + |Join(rows[dev][..pin])|
  }

  lemma {:induction false} JoinAt(lists: seq<seq<OutEdge>>, pin: nat)
    requires pin < |lists|
    ensures |Join(lists[..pin])| <= |Join(lists)| && lists[pin] <= Join(lists)[|Join(lists[..pin])|..]
    decreases |lists|
  {
    var n := |lists| - 1;
    if pin < n {
      JoinAt(lists[..n], pin);
      assert lists[..n][..pin] == lists[..pin];
    }
  }

  lemma {:induction false} ArrayAt(rows: seq<seq<seq<OutEdge>>>, dev: nat, pin: nat)
    requires dev < |rows| && pin < |rows[dev]|
    ensures Offset(rows, dev, pin) <= |Array(rows)| && rows[dev][pin] <= Array(rows)[Offset(rows, dev, pin)..]
    decreases |rows|
  {
    var n := |rows| - 1;
    if dev < n {
      ArrayAt(rows[..n], dev, pin);
      assert rows[..n][..dev] == rows[..dev];
    } else {
      JoinAt(rows[n], pin);
    }
  }

  // Number of pins as pinBase stores it
  const PIN_BASES: nat := 0x1_0000

  // Initialise each device and the thread's out-edges
  method InitialiseOut(rows: seq<seq<seq<OutEdge>>>) returns (pinBase: seq<seq<nat>>, edges: seq<OutEdge>)
    ensures edges == Array(rows) && |pinBase| == |rows|
    ensures forall dev | 0 <= dev < |rows| :: |pinBase[dev]| == |rows[dev]|
    ensures forall dev, pin | 0 <= dev < |rows| && 0 <= pin < |rows[dev]| ::
      pinBase[dev][pin] == Offset(rows, dev, pin) % PIN_BASES
  {
    pinBase, edges := [], [];
    for dev := 0 to |rows|
      invariant edges == Array(rows[..dev]) && |pinBase| == dev
      invariant forall i | 0 <= i < dev :: |pinBase[i]| == |rows[i]|
      invariant forall i, pin | 0 <= i < dev && 0 <= pin < |rows[i]| :: pinBase[i][pin] == Offset(rows, i, pin) % PIN_BASES
    {
      var bases: seq<nat> := [];
      for pin := 0 to |rows[dev]|
        invariant edges == Array(rows[..dev]) + Join(rows[dev][..pin]) && |bases| == pin
        invariant forall k | 0 <= k < pin :: bases[k] == Offset(rows, dev, k) % PIN_BASES
      {
        bases := bases + [|edges| % PIN_BASES];
        edges := edges + rows[dev][pin];
        assert rows[dev][..pin + 1][..pin] == rows[dev][..pin];
      }
      pinBase := pinBase + [bases];
      assert rows[..dev + 1][..dev] == rows[..dev] && rows[dev][..|rows[dev]|] == rows[dev];
    }
    assert rows[..|rows|] == rows;
  }

  lemma {:induction false} MoreOut<E>(net: Reader, read: InReader<E>, from: seq<seq<nat>>, b: Board,
                                   list: seq<OutEdge>, tail: seq<OutEdge>)
    requires OutEvents(net, read, from, b, list).Some?
    ensures OutEvents(net, read, from, b, list + tail) == OutEvents(net, read, from, b, list)
    decreases |list|
  {
    hide EdgeEvents;
    if list[0].key != INVALID_KEY {
      MoreOut(net, read, from, b, list[1..], tail);
      assert (list + tail)[1..] == list[1..] + tail;
    }
  }

  // A pin means the same when its list is read from the array of the thread,
  // starting at its pin base
  lemma ArrayMeans<E>(net: Reader, read: InReader<E>, g: Graph<E>, m: Mapping, d: nat, pin: nat,
                   rows: seq<seq<seq<OutEdge>>>, dev: nat)
    requires g.Valid() && |m.to| == |g.outgoing| && d < |g.outgoing|
    requires dev < |rows| && pin < |rows[dev]| && Means(net, read, g, m, d, pin, rows[dev][pin])
    requires Offset(rows, dev, pin) < PIN_BASES
    ensures var base := Offset(rows, dev, pin) % PIN_BASES;
      base <= |Array(rows)| && Means(net, read, g, m, d, pin, Array(rows)[base..])
  {
    hide OutEvents, Array, Offset, AllEdges;
    ArrayAt(rows, dev, pin);
    var list, all := rows[dev][pin], Array(rows)[Offset(rows, dev, pin)..];
    assert all == list + all[|list|..];
    MoreOut(net, read, m.from, BoardAt(PGraphs.GetThreadId(m.to[d])), list, all[|list|..]);
  }
}
