// Writing the memories of all threads through the boot loaders of their cores.
module Uploads {
  import opened Partitions

  const MAX_THREADS: nat := 0x1_0000
  const MAX_CORES: nat := 4096
  // Threads of a core, cores of a board, boards in a row of the mesh
  const THREADS: nat := 16
  const CORES: nat := 64
  const MESH: nat := 8
  // Words that fit in one request
  const MAX_WORDS: nat := 15
  const ADDRESSES: nat := 0x1_0000_0000

  // Requests to the boot loader that write data memory
  datatype BootReq = SetAddrCmd(addr: nat) | StoreCmd(args: seq<nat>)

  // Bytes of the memories, by the id of a memory and the address
  type Memory = map<(nat, nat), nat>

  function At(mem: Memory, id: nat, a: int): nat {
    if a >= 0 && (id, a) in mem then mem[(id, a)] else 0
  }

  // Little-endian words
  function Word(heap: seq<nat>, i: nat): nat
    requires i + 4 <= |heap|
  {
    heap[i] + 0x100 * heap[i + 1] + 0x1_0000 * heap[i + 2] + 0x100_0000 * heap[i + 3]
  }

  function ByteOf(w: nat, k: nat): nat {
    if k == 0 then w % 0x100 else if k == 1 then w / 0x100 % 0x100
    else if k == 2 then w / 0x1_0000 % 0x100 else w / 0x100_0000 % 0x100
  }

  predicate AreBytes(heap: seq<nat>) {
    forall i | 0 <= i < |heap| :: heap[i] < 0x100
  }

  lemma LastDigit(a: nat, rest: nat)
    requires a < 0x100
    ensures (a + 0x100 * rest) % 0x100 == a && (a + 0x100 * rest) / 0x100 == rest
  {
  }

  lemma Shifts(w: nat)
    ensures w / 0x1_0000 == w / 0x100 / 0x100 && w / 0x100_0000 == w / 0x100 / 0x100 / 0x100
  {
    assert w / 0x1_0000 == w / 0x100 / 0x100;
  }

  lemma WordBytes(heap: seq<nat>, i: nat, k: nat)
    requires AreBytes(heap) && i + 4 <= |heap| && k < 4
    ensures ByteOf(Word(heap, i), k) == heap[i + k]
  {
    var a, b, c, d := heap[i], heap[i + 1], heap[i + 2], heap[i + 3];
    var w := Word(heap, i);
    Shifts(w);
    assert w == a + 0x100 * (b + 0x100 * (c + 0x100 * d));
    LastDigit(a, b + 0x100 * (c + 0x100 * d));
    LastDigit(b, c + 0x100 * d);
    LastDigit(c, d);
    LastDigit(d, 0);
  }

  function StoreWord(mem: Memory, id: nat, a: nat, w: nat): Memory {
    mem[(id, a) := ByteOf(w, 0)][(id, a + 1) := ByteOf(w, 1)][(id, a + 2) := ByteOf(w, 2)][(id, a + 3) := ByteOf(w, 3)]
  }

  lemma StoreWordAt(mem: Memory, id: nat, a: nat, w: nat, id': nat, b: nat)
    ensures At(StoreWord(mem, id, a, w), id', b)
      == if id == id' && a <= b < a + 4 then ByteOf(w, b - a) else At(mem, id', b)
  {
  }

  function StoreWords(mem: Memory, id: nat, a: nat, args: seq<nat>): Memory {
    if args == [] then mem
    else
      var n := |args| - 1;
      StoreWord(StoreWords(mem, id, a, args[..n]), id, (a + 4 * n) % ADDRESSES, args[n])
  }

  // Address register and memory after a request
  function Exec(id: nat, addr: nat, mem: Memory, req: BootReq): (nat, Memory) {
    match req
    case SetAddrCmd(a) => (a, mem)
    case StoreCmd(args) => ((addr + 4 * |args|) % ADDRESSES, StoreWords(mem, id, addr, args))
  }

  function ExecAll(id: nat, addr: nat, mem: Memory, reqs: seq<BootReq>): (nat, Memory) {
    if reqs == [] then (addr, mem)
    else
      var n := |reqs| - 1;
      var s := ExecAll(id, addr, mem, reqs[..n]);
      Exec(id, s.0, s.1, reqs[n])
  }

  lemma {:induction false} ExecJoin(id: nat, addr: nat, mem: Memory, a: seq<BootReq>, b: seq<BootReq>)
    ensures var s := ExecAll(id, addr, mem, a); ExecAll(id, addr, mem, a + b) == ExecAll(id, s.0, s.1, b)
    decreases |b|
  {
    if b == [] {
      assert a + b == a;
    } else {
      var n := |b| - 1;
      ExecJoin(id, addr, mem, a, b[..n]);
      assert (a + b)[..|a + b| - 1] == a + b[..n];
    }
  }

  lemma NextAddr(a: nat, i: nat)
    ensures ((a + 4 * i) % ADDRESSES + 4) % ADDRESSES == (a + 4 * (i + 1)) % ADDRESSES
  {
  }

  // ---------------------------------------------------------------------
  // The boot loader

  class Ram {
    var bytes: Memory

    constructor ()
      ensures bytes == map[]
    {
      bytes := map[];
    }
  }

  class BootLoader {
    // The memory of its core
    const id: nat
    const ram: Ram
    // Where the next word goes
    var addrReg: nat

    constructor (id: nat, ram: Ram)
      ensures this.id == id && this.ram == ram && addrReg == 0
    {
      this.id, this.ram, addrReg := id, ram, 0;
    }

    // One round of the command loop
    method Handle(req: BootReq)
      requires addrReg < ADDRESSES
      modifies this, ram
      ensures (addrReg, ram.bytes) == Exec(id, old(addrReg), old(ram.bytes), req)
    {
      match req {
        case SetAddrCmd(addr) =>
          addrReg := addr;
        case StoreCmd(args) =>
          for i := 0 to |args|
            invariant addrReg == (old(addrReg) + 4 * i) % ADDRESSES
            invariant ram.bytes == StoreWords(old(ram.bytes), id, old(addrReg), args[..i])
          {
            assert args[..i + 1][..i] == args[..i];
            ram.bytes := StoreWord(ram.bytes, id, addrReg, args[i]);
            NextAddr(old(addrReg), i);
            addrReg := (addrReg + 4) % ADDRESSES;
          }
          assert args[..|args|] == args;
      }
    }
  }

  // ---------------------------------------------------------------------
  // The host's side of the connection

  function Min(x: nat, y: nat): nat { if x < y then x else y }

  // Requests for storing: every request starts at the beginning of the data
  function StoreReqs(numWords: nat, data: seq<nat>): seq<BootReq>
    requires Min(numWords, MAX_WORDS) <= |data|
  {
    if numWords == 0 then []
    else
      var n := Min(numWords, MAX_WORDS);
      [StoreCmd(data[..n])] + StoreReqs(numWords - n, data)
  }

  // All words that the requests store
  function Stored(reqs: seq<BootReq>): seq<nat> {
    if reqs == [] then []
    else (if reqs[0].StoreCmd? then reqs[0].args else []) + Stored(reqs[1..])
  }

  lemma {:induction false} StoredAt(numWords: nat, data: seq<nat>, i: nat)
    requires Min(numWords, MAX_WORDS) <= |data| && i < numWords
    ensures |Stored(StoreReqs(numWords, data))| == numWords
    ensures Stored(StoreReqs(numWords, data))[i] == data[i % MAX_WORDS]
    decreases numWords
  {
    hide Stored, StoreReqs;
    var n := Min(numWords, MAX_WORDS);
    StoredFirst(numWords, data);
    if numWords == n {
      assert i % MAX_WORDS == i;
    } else if i < n {
      StoredAt(numWords - n, data, 0);
      assert i % MAX_WORDS == i;
    } else {
      StoredAt(numWords - n, data, i - n);
      assert (i - MAX_WORDS) % MAX_WORDS == i % MAX_WORDS;
    }
  }

  lemma StoredFirst(numWords: nat, data: seq<nat>)
    requires Min(numWords, MAX_WORDS) <= |data| && numWords > 0
    ensures var n := Min(numWords, MAX_WORDS);
      && Stored(StoreReqs(numWords, data)) == data[..n] + Stored(StoreReqs(numWords - n, data))
      && Stored(StoreReqs(0, data)) == []
  {
    var n := Min(numWords, MAX_WORDS);
    assert StoreReqs(numWords, data)[1..] == StoreReqs(numWords - n, data);
  }

  // Storing more than one request's worth of words stores what it is given only
  // if the data repeat every 15 words
  lemma StoresData(data: seq<nat>)
    ensures Stored(StoreReqs(|data|, data)) == data <==> forall i | 0 <= i < |data| :: data[i] == data[i % MAX_WORDS]
  {
    hide Stored, StoreReqs;
    var all := Stored(StoreReqs(|data|, data));
    if data == [] {
      NothingStored(data);
    } else {
      StoredAt(|data|, data, 0);
      forall i | 0 <= i < |data| ensures all[i] == data[i % MAX_WORDS] {
        StoredAt(|data|, data, i);
      }
    }
  }

  lemma NothingStored(data: seq<nat>)
    ensures Stored(StoreReqs(0, data)) == []
  {
  }

  lemma OneRequest(numWords: nat, data: seq<nat>)
    requires 0 < numWords <= MAX_WORDS && numWords <= |data|
    ensures StoreReqs(numWords, data) == [StoreCmd(data[..numWords])]
  {
    assert StoreReqs(numWords - numWords, data) == [];
  }

  class HostLink {
    // Requests sent to each core, in order
    const sent: array<seq<BootReq>>

    constructor ()
      ensures fresh(sent) && sent.Length == MAX_CORES && forall c | 0 <= c < MAX_CORES :: sent[c] == []
    {
      sent := new seq<BootReq>[MAX_CORES](_ => []);
    }

    // Set address for remote memory access via given core
    method SetAddr(core: nat, addr: nat)
      requires core < sent.Length
      modifies sent
      ensures sent[..] == old(sent[..])[core := old(sent[core]) + [SetAddrCmd(addr)]]
    {
      sent[core] := sent[core] + [SetAddrCmd(addr)];
    }

    // Store words to remote memory via given core
    method Store(core: nat, words: nat, data: seq<nat>)
      requires core < sent.Length && Min(words, MAX_WORDS) <= |data|
      modifies sent
      ensures sent[..] == old(sent[..])[core := old(sent[core]) + StoreReqs(words, data)]
    {
      var numWords: nat := words;
      ghost var reqs: seq<BootReq> := [];
      assert old(sent[core]) + reqs == old(sent[core]);
      while numWords > 0
        invariant numWords <= words
        invariant sent[core] == old(sent[core]) + reqs
        invariant forall c | 0 <= c < sent.Length && c != core :: sent[c] == old(sent[c])
        invariant StoreReqs(words, data) == reqs + StoreReqs(numWords, data)
      {
        var sendWords := if numWords > MAX_WORDS then MAX_WORDS else numWords;
        assert StoreReqs(numWords, data) == [StoreCmd(data[..sendWords])] + StoreReqs(numWords - sendWords, data);
        sent[core] := sent[core] + [StoreCmd(data[..sendWords])];
        assert old(sent[core]) + reqs + [StoreCmd(data[..sendWords])] == old(sent[core]) + (reqs + [StoreCmd(data[..sendWords])]);
        reqs := reqs + [StoreCmd(data[..sendWords])];
        numWords := numWords - sendWords;
      }
      assert reqs == StoreReqs(words, data);
    }
  }

  // ---------------------------------------------------------------------
  // What a core is sent

  function Words(heap: seq<nat>, at: nat, n: nat): seq<nat>
    requires at + 4 * n <= |heap|
  {
    seq(n, i requires 0 <= i < n => Word(heap, at + 4 * i))
  }

  // Size of the last of the chunks that make up w bytes
  function LastChunk(w: nat): (k: nat)
    requires w > 0 && w % 4 == 0
    ensures 0 < k <= w && k <= 4 * MAX_WORDS && k % 4 == 0 && (w - k) % 60 == 0
    ensures (w - k) % 4 == 0 && 4 * (k / 4) == k
  {
    ModSixty(w);
    var r := w % 60;
    if r == 0 then 60 else r
  }

  lemma ModSixty(w: nat)
    requires w % 4 == 0
    ensures w % 60 % 4 == 0 && (w - w % 60) % 60 == 0 && (w >= 60 ==> (w - 60) % 60 == w % 60)
    ensures (w - w % 60) % 4 == 0 && (w >= 60 ==> (w - 60) % 4 == 0)
  {
    var q, r := w / 60, w % 60;
    assert w == 4 * (15 * q) + r;
    assert w - r == 60 * q;
  }

  // Requests for the first w bytes of a heap
  function Chunks(heap: seq<nat>, w: nat): seq<BootReq>
    requires w <= |heap| && w % 4 == 0
  {
    if w == 0 then []
    else
      var k := LastChunk(w);
      Chunks(heap, w - k) + [StoreCmd(Words(heap, w - k, k / 4))]
  }

  // Between two requests, all of the heap or a number of full requests has been sent
  predicate Boundary(heap: seq<nat>, w: nat) {
    w <= |heap| && |heap| % 4 == 0 && (w % 60 == 0 || w == |heap|)
  }

  lemma ChunkMore(heap: seq<nat>, w: nat)
    requires Boundary(heap, w) && w != |heap|
    ensures var n := Min((|heap| - w) / 4, MAX_WORDS);
      && w % 4 == 0 && 0 < n && w + 4 * n <= |heap| && Boundary(heap, w + 4 * n)
      && Chunks(heap, w + 4 * n) == Chunks(heap, w) + [StoreCmd(Words(heap, w, n))]
  {
    var n := Min((|heap| - w) / 4, MAX_WORDS);
    LastOf(w, n);
  }

  lemma LastOf(w: nat, n: nat)
    requires w % 60 == 0 && 0 < n <= MAX_WORDS
    ensures w % 4 == 0 && (w + 4 * n) % 4 == 0 && LastChunk(w + 4 * n) == 4 * n
  {
    assert w == w / 60 * 60;
    assert (w + 4 * n) % 60 == if n == 15 then 0 else 4 * n;
  }

  // The heaps and their base addresses, for all threads
  datatype Image = Image(heap: seq<seq<nat>>, base: seq<nat>) {
    predicate Valid() {
      && |heap| == |base| == MAX_THREADS
      && forall t | 0 <= t < MAX_THREADS :: |heap[t]| % 4 == 0
    }

    function Place(t: nat): Region
      requires Valid() && t < MAX_THREADS
    {
      Region(base[t], |heap[t]|)
    }

    // Requests for the first n threads of a core
    function Threads(core: nat, n: nat): seq<BootReq>
      requires Valid() && core < MAX_CORES && n <= THREADS
    {
      if n == 0 then []
      else
        var t := THREADS * core + n - 1;
        Threads(core, n - 1) + [SetAddrCmd(base[t])] + Chunks(heap[t], |heap[t]|)
    }

    // Requests for n threads of a core and w bytes of the next
    function Sent(core: nat, n: nat, w: nat): seq<BootReq>
      requires Valid() && core < MAX_CORES && n <= THREADS
      requires n < THREADS ==> Boundary(heap[THREADS * core + n], w)
    {
      if n == THREADS then Threads(core, n)
      else
        var t := THREADS * core + n;
        Threads(core, n) + [SetAddrCmd(base[t])] + Chunks(heap[t], w)
    }

    // Requests and thread ends to come
    function Left(core: nat, n: nat): nat
      requires Valid() && core < MAX_CORES && n <= THREADS
      decreases THREADS - n
    {
      if n == THREADS then 0 else |heap[THREADS * core + n]| + 1 + Left(core, n + 1)
    }
  }

  // Requests and thread ends to come, when w bytes of a thread have been sent
  function Pending(m: Image, core: nat, n: nat, w: nat): nat {
    if m.Valid() && core < MAX_CORES && n < THREADS && w <= |m.heap[THREADS * core + n]| then m.Left(core, n) - w else 0
  }

  lemma PendingFalls(m: Image, core: nat, n: nat, w: nat, k: nat)
    requires m.Valid() && core < MAX_CORES && n < THREADS && w + 4 * k <= |m.heap[THREADS * core + n]|
    ensures k > 0 ==> Pending(m, core, n, w + 4 * k) < Pending(m, core, n, w)
    ensures Pending(m, core, n + 1, 0) < Pending(m, core, n, |m.heap[THREADS * core + n]|)
  {
  }

  // The same for the first n cores
  ghost function AllPending(m: Image, threadCount: seq<nat>, writeCount: seq<nat>, n: nat): nat
    requires n <= |threadCount|
  {
    if n == 0 then 0
    else
      var t := THREADS * (n - 1) + threadCount[n - 1];
      AllPending(m, threadCount, writeCount, n - 1)
        + Pending(m, n - 1, threadCount[n - 1], if t < |writeCount| then writeCount[t] else 0)
  }

  lemma {:induction false} LessPending(m: Image, tc: seq<nat>, wc: seq<nat>, tc': seq<nat>, wc': seq<nat>, core: nat, n: nat)
    requires n <= |tc| == |tc'| && |wc| == |wc'|
    requires forall c | 0 <= c < n && c != core ::
      tc[c] == tc'[c] && (tc[c] < THREADS && THREADS * c + tc[c] < |wc| ==> wc[THREADS * c + tc[c]] == wc'[THREADS * c + tc[c]])
    requires core < n ==> (
      && THREADS * core + tc[core] < |wc| && (tc'[core] < THREADS ==> THREADS * core + tc'[core] < |wc|)
      && Pending(m, core, tc[core], wc[THREADS * core + tc[core]])
           > Pending(m, core, tc'[core], if tc'[core] < THREADS then wc'[THREADS * core + tc'[core]] else 0))
    ensures AllPending(m, tc, wc, n) >= AllPending(m, tc', wc', n) + if core < n then 1 else 0
    decreases n
  {
    if n > 0 {
      LessPending(m, tc, wc, tc', wc', core, n - 1);
    }
  }

  // The next thread of a core, or more words of the current one
  lemma FedLess(m: Image, tc: seq<nat>, wc: seq<nat>, core: nat, k: nat)
    requires m.Valid() && core < MAX_CORES == |tc| && |wc| == MAX_THREADS && tc[core] < THREADS
    requires var t := THREADS * core + tc[core];
      wc[t] + 4 * k <= |m.heap[t]| && (tc[core] + 1 < THREADS ==> wc[t + 1] == 0)
    ensures var t := THREADS * core + tc[core];
      && (k > 0 ==> AllPending(m, tc, wc[t := wc[t] + 4 * k], MAX_CORES) < AllPending(m, tc, wc, MAX_CORES))
      && (wc[t] == |m.heap[t]| ==> AllPending(m, tc[core := tc[core] + 1], wc, MAX_CORES) < AllPending(m, tc, wc, MAX_CORES))
  {
    hide AllPending, Pending;
    var t := THREADS * core + tc[core];
    PendingFalls(m, core, tc[core], wc[t], k);
    if k > 0 {
      LessPending(m, tc, wc, tc, wc[t := wc[t] + 4 * k], core, MAX_CORES);
    }
    if wc[t] == |m.heap[t]| {
      LessPending(m, tc, wc, tc[core := tc[core] + 1], wc, core, MAX_CORES);
    }
  }

  lemma Appended(a: seq<BootReq>, b: seq<BootReq>, c: seq<BootReq>)
    ensures a + b + c == a + (b + c)
  {
  }

  lemma SentNext(m: Image, core: nat, n: nat)
    requires m.Valid() && core < MAX_CORES && n < THREADS
    requires var heap := m.heap[THREADS * core + n]; Boundary(heap, |heap|)
    ensures var sent := m.Sent(core, n, |m.heap[THREADS * core + n]|);
      m.Sent(core, n + 1, 0) == if n + 1 < THREADS then sent + [SetAddrCmd(m.base[THREADS * core + n + 1])] else sent
  {
    hide Chunks;
    if n + 1 < THREADS {
      assert Chunks(m.heap[THREADS * core + n + 1], 0) == [] by { NoChunks(m.heap[THREADS * core + n + 1]); }
    }
  }

  lemma NoChunks(heap: seq<nat>)
    ensures Chunks(heap, 0) == []
  {
  }

  lemma SentMore(m: Image, core: nat, n: nat, w: nat)
    requires m.Valid() && core < MAX_CORES && n < THREADS
    requires var heap := m.heap[THREADS * core + n]; Boundary(heap, w) && w != |heap|
    ensures var heap := m.heap[THREADS * core + n]; var k := Min((|heap| - w) / 4, MAX_WORDS);
      && 0 < k && w + 4 * k <= |heap| && Boundary(heap, w + 4 * k)
      && m.Sent(core, n, w + 4 * k) == m.Sent(core, n, w) + StoreReqs(k, Words(heap, w, k))
  {
    hide Chunks, StoreReqs, LastChunk;
    var heap := m.heap[THREADS * core + n];
    var k := Min((|heap| - w) / 4, MAX_WORDS);
    ChunkMore(heap, w);
    OneRequest(k, Words(heap, w, k));
    assert Words(heap, w, k)[..k] == Words(heap, w, k);
    Appended(m.Threads(core, n) + [SetAddrCmd(m.base[THREADS * core + n])], Chunks(heap, w), [StoreCmd(Words(heap, w, k))]);
  }

  // ---------------------------------------------------------------------
  // Writing all threads of all cores in turns

  function CoreAt(x: nat, y: nat, c: nat): nat { (y * MESH + x) * CORES + c }
  function CoreX(core: nat): nat { core / CORES % MESH }
  function CoreY(core: nat): nat { core / 512 }

  // The core comes before core c of board (x, y)
  predicate Before(core: nat, x: nat, y: nat, c: nat) {
    CoreX(core) < x || (CoreX(core) == x && (CoreY(core) < y || (CoreY(core) == y && core % CORES < c)))
  }

  lemma CoreFields(x: nat, y: nat, c: nat)
    requires x < MESH && y < MESH && c < CORES
    ensures var core := CoreAt(x, y, c);
      core < MAX_CORES && CoreX(core) == x && CoreY(core) == y && core % CORES == c
  {
  }

  lemma NextCore(core: nat, x: nat, y: nat, c: nat)
    requires x < MESH && y < MESH && c < CORES
    ensures Before(core, x, y, c + 1) <==> Before(core, x, y, c) || core == CoreAt(x, y, c)
    ensures !Before(CoreAt(x, y, c), x, y, c)
  {
    CoreFields(x, y, c);
    assert core == core / CORES * CORES + core % CORES && core / CORES == core / 512 * 8 + core / CORES % 8;
  }

  class Uploader {
    const meshLenX: nat
    const meshLenY: nat
    const hostLink: HostLink
    const image: Image
    // Bytes sent to each thread
    const writeCount: array<nat>
    // Threads of each core that are complete
    const threadCount: array<nat>
    // Requests that were sent before
    ghost const before: seq<seq<BootReq>>

    ghost predicate Shape() {
      && image.Valid() && meshLenX <= MESH && meshLenY <= MESH && hostLink.sent.Length == MAX_CORES
      && writeCount.Length == MAX_THREADS && threadCount.Length == MAX_CORES && writeCount != threadCount
      && |before| == MAX_CORES
    }

    predicate InMesh(core: nat) { core < MAX_CORES && CoreX(core) < meshLenX && CoreY(core) < meshLenY }

    // What the core has been sent fits the counts
    ghost predicate Fed(core: nat)
      requires Shape() && core < MAX_CORES
      reads hostLink.sent, writeCount, threadCount
    {
      var n := threadCount[core];
      && n <= THREADS && (n < THREADS ==> Boundary(image.heap[THREADS * core + n], writeCount[THREADS * core + n]))
      && (forall t | THREADS * core + n < t < THREADS * core + THREADS :: writeCount[t] == 0)
      && hostLink.sent[core] == before[core] + image.Sent(core, n, if n < THREADS then writeCount[THREADS * core + n] else 0)
    }

    constructor (meshLenX: nat, meshLenY: nat, hostLink: HostLink, image: Image)
      requires image.Valid() && meshLenX <= MESH && meshLenY <= MESH && hostLink.sent.Length == MAX_CORES
      ensures this.meshLenX == meshLenX && this.meshLenY == meshLenY && this.hostLink == hostLink && this.image == image
      ensures Shape() && fresh(writeCount) && fresh(threadCount) && before == hostLink.sent[..]
      ensures forall c | 0 <= c < MAX_CORES :: threadCount[c] == 0
      ensures forall t | 0 <= t < MAX_THREADS :: writeCount[t] == 0
    {
      this.meshLenX, this.meshLenY, this.hostLink, this.image := meshLenX, meshLenY, hostLink, image;
      writeCount := new nat[MAX_THREADS](_ => 0);
      threadCount := new nat[MAX_CORES](_ => 0);
      before := hostLink.sent[..];
    }

    // The next request for one core, or the next of its threads
    method Feed(core: nat)
      requires Shape() && core < MAX_CORES && Fed(core) && threadCount[core] < THREADS
      modifies hostLink.sent, writeCount, threadCount
      ensures Fed(core)
      ensures forall c | 0 <= c < MAX_CORES && c != core ::
        hostLink.sent[c] == old(hostLink.sent[c]) && threadCount[c] == old(threadCount[c])
      ensures forall t | 0 <= t < MAX_THREADS && t / THREADS != core :: writeCount[t] == old(writeCount[t])
      ensures AllPending(image, threadCount[..], writeCount[..], MAX_CORES)
        < old(AllPending(image, threadCount[..], writeCount[..], MAX_CORES))
    {
      hide Chunks, StoreReqs, LastChunk, Image.Sent, AllPending, Pending;
      ghost var tc: seq<nat>, wc: seq<nat> := threadCount[..], writeCount[..];
      var t := threadCount[core];
      var threadId := THREADS * core + t;
      var written := writeCount[threadId];
      if written == |image.heap[threadId]| {
        SentNext(image, core, t);
        FedLess(image, tc, wc, core, 0);
        threadCount[core] := t + 1;
        assert threadCount[..] == tc[core := t + 1];
        if t + 1 < THREADS {
          hostLink.SetAddr(core, image.base[threadId + 1]);
          Appended(before[core], image.Sent(core, t, written), [SetAddrCmd(image.base[threadId + 1])]);
        }
      } else {
        SentMore(image, core, t, written);
        var send := Min((|image.heap[threadId]| - written) / 4, MAX_WORDS);
        FedLess(image, tc, wc, core, send);
        var data := Words(image.heap[threadId], written, send);
        hostLink.Store(core, send, data);
        Appended(before[core], image.Sent(core, t, written), StoreReqs(send, data));
        writeCount[threadId] := written + 4 * send;
        assert writeCount[..] == wc[threadId := written + 4 * send];
      }
    }

    ghost predicate AllFed()
      requires Shape()
      reads hostLink.sent, writeCount, threadCount
    {
      forall core | 0 <= core < MAX_CORES && InMesh(core) :: Fed(core)
    }

    ghost function Todo(): nat
      requires Shape()
      reads writeCount, threadCount
    {
      AllPending(image, threadCount[..], writeCount[..], MAX_CORES)
    }

    // The cores before core c of board (x, y) are complete
    ghost predicate Complete(x: nat, y: nat, c: nat)
      requires Shape()
      reads threadCount
    {
      forall core | 0 <= core < MAX_CORES && InMesh(core) && Before(core, x, y, c) :: threadCount[core] == THREADS
    }

    // Cores outside the mesh are sent nothing
    twostate predicate OnlyMesh()
      requires Shape()
      reads hostLink.sent
    {
      forall core | 0 <= core < MAX_CORES && !InMesh(core) :: hostLink.sent[core] == old(hostLink.sent[core])
    }

    // The cores of the mesh before core c of board (x, y) have been sent the first request
    ghost predicate Started(x: nat, y: nat, c: nat)
      requires Shape()
      reads hostLink.sent
    {
      forall core | 0 <= core < MAX_CORES :: hostLink.sent[core] ==
        before[core] + if InMesh(core) && Before(core, x, y, c) then [SetAddrCmd(image.base[THREADS * core])] else []
    }

    // The first address of each core
    method SetAddrs()
      requires Shape() && hostLink.sent[..] == before
      modifies hostLink.sent
      ensures Started(meshLenX, 0, 0)
    {
      StartNone();
      hide Started;
      for x := 0 to meshLenX
        invariant Started(x, 0, 0)
      {
        for y := 0 to meshLenY
          invariant Started(x, y, 0)
        {
          for c := 0 to CORES
            invariant Started(x, y, c)
          {
            label before:
            CoreFields(x, y, c);
            hostLink.SetAddr(CoreAt(x, y, c), image.base[THREADS * CoreAt(x, y, c)]);
            StartOne@before(x, y, c);
          }
          assert Started(x, y + 1, 0) by { StartBoard(x, y); }
        }
        assert Started(x + 1, 0, 0) by { StartColumn(x); }
      }
    }

    lemma StartNone()
      requires Shape() && hostLink.sent[..] == before
      ensures Started(0, 0, 0)
    {
      forall core | 0 <= core < MAX_CORES ensures hostLink.sent[core] == before[core] + [] {
        assert hostLink.sent[..][core] == before[core];
      }
    }

    twostate lemma StartOne(new x: nat, new y: nat, new c: nat)
      requires Shape() && x < meshLenX && y < meshLenY && c < CORES && old(Started(x, y, c)) && CoreAt(x, y, c) < MAX_CORES
      requires var core := CoreAt(x, y, c);
        hostLink.sent[..] == old(hostLink.sent[..])[core := old(hostLink.sent[core]) + [SetAddrCmd(image.base[THREADS * core])]]
      ensures Started(x, y, c + 1)
    {
      hide Before, CoreAt;
      var at := CoreAt(x, y, c);
      InsideMesh(x, y, c);
      forall core | 0 <= core < MAX_CORES
        ensures hostLink.sent[core] ==
          before[core] + if InMesh(core) && Before(core, x, y, c + 1) then [SetAddrCmd(image.base[THREADS * core])] else []
      {
        NextCore(core, x, y, c);
        assert core != at ==> hostLink.sent[core] == old(hostLink.sent[core]);
      }
    }

    lemma InsideMesh(x: nat, y: nat, c: nat)
      requires Shape() && x < meshLenX && y < meshLenY && c < CORES
      ensures InMesh(CoreAt(x, y, c))
    {
      CoreFields(x, y, c);
    }

    lemma StartBoard(x: nat, y: nat)
      requires Shape() && Started(x, y, CORES)
      ensures Started(x, y + 1, 0)
    {
    }

    lemma StartColumn(x: nat)
      requires Shape() && Started(x, meshLenY, 0)
      ensures Started(x + 1, 0, 0)
    {
    }

    lemma StartFed()
      requires Shape() && Started(meshLenX, 0, 0)
      requires forall core | 0 <= core < MAX_CORES :: threadCount[core] == 0
      requires forall t | 0 <= t < MAX_THREADS :: writeCount[t] == 0
      ensures AllFed() && forall core | 0 <= core < MAX_CORES && !InMesh(core) :: hostLink.sent[core] == before[core]
    {
    }

    method WriteRAM()
      requires Shape() && hostLink.sent[..] == before
      requires forall core | 0 <= core < MAX_CORES :: threadCount[core] == 0
      requires forall t | 0 <= t < MAX_THREADS :: writeCount[t] == 0
      modifies hostLink.sent, writeCount, threadCount
      ensures forall core | 0 <= core < MAX_CORES ::
        hostLink.sent[core] == old(hostLink.sent[core]) + if InMesh(core) then image.Threads(core, THREADS) else []
    {
      SetAddrs();
      StartFed();
      var done := false;
      while !done
        invariant AllFed() && OnlyMesh() && (done ==> Complete(meshLenX, 0, 0))
        decreases if done then 0 else 1 + Todo()
      {
        done := Turn();
      }
    }

    // The turn of one core
    method TurnCore(x: nat, y: nat, c: nat) returns (idle: bool)
      requires Shape() && AllFed() && x < meshLenX && y < meshLenY && c < CORES
      modifies hostLink.sent, writeCount, threadCount
      ensures AllFed() && OnlyMesh()
      ensures if idle then Todo() == old(Todo()) && (old(Complete(x, y, c)) ==> Complete(x, y, c + 1)) else Todo() < old(Todo())
    {
      hide Before;
      var core := CoreAt(x, y, c);
      InsideMesh(x, y, c);
      idle := threadCount[core] == THREADS;
      if threadCount[core] < THREADS {
        Feed(core);
        FedStill(core);
      } else {
        CompleteOne(x, y, c);
      }
    }

    twostate lemma FedStill(new core: nat)
      requires Shape() && core < MAX_CORES && old(AllFed()) && Fed(core)
      requires forall c | 0 <= c < MAX_CORES && c != core ::
        hostLink.sent[c] == old(hostLink.sent[c]) && threadCount[c] == old(threadCount[c])
      requires forall t | 0 <= t < MAX_THREADS && t / THREADS != core :: writeCount[t] == old(writeCount[t])
      ensures AllFed()
    {
    }

    lemma CompleteOne(x: nat, y: nat, c: nat)
      requires Shape() && x < MESH && y < MESH && c < CORES && CoreAt(x, y, c) < MAX_CORES
      requires threadCount[CoreAt(x, y, c)] == THREADS
      ensures Complete(x, y, c) ==> Complete(x, y, c + 1)
    {
      hide Before, CoreAt;
      forall core | 0 <= core < MAX_CORES && Before(core, x, y, c + 1) && core != CoreAt(x, y, c)
        ensures Before(core, x, y, c)
      {
        NextCore(core, x, y, c);
      }
    }

    lemma CompleteBoard(x: nat, y: nat)
      requires Shape()
      ensures Complete(x, y, CORES) ==> Complete(x, y + 1, 0)
    {
    }

    lemma CompleteColumn(x: nat)
      requires Shape()
      ensures Complete(x, meshLenY, 0) ==> Complete(x + 1, 0, 0)
    {
    }

    // One turn over all cores
    method Turn() returns (done: bool)
      requires Shape() && AllFed()
      modifies hostLink.sent, writeCount, threadCount
      ensures AllFed() && OnlyMesh()
      ensures if done then Complete(meshLenX, 0, 0) else Todo() < old(Todo())
    {
      assert Complete(0, 0, 0);
      hide AllFed, Complete, Todo, InMesh;
      done := true;
      for x := 0 to meshLenX
        invariant AllFed() && OnlyMesh() && Todo() <= old(Todo())
        invariant if done then Complete(x, 0, 0) else Todo() < old(Todo())
      {
        for y := 0 to meshLenY
          invariant AllFed() && OnlyMesh() && Todo() <= old(Todo())
          invariant if done then Complete(x, y, 0) else Todo() < old(Todo())
        {
          for c := 0 to CORES
            invariant AllFed() && OnlyMesh() && Todo() <= old(Todo())
            invariant if done then Complete(x, y, c) else Todo() < old(Todo())
          {
            var idle := TurnCore(x, y, c);
            if !idle {
              done := false;
            }
          }
          CompleteBoard(x, y);
        }
        CompleteColumn(x);
      }
    }
  }

  // ---------------------------------------------------------------------
  // What a core does with its requests

  lemma {:induction false} StoreWordsAt(mem: Memory, id: nat, a: nat, args: seq<nat>, id': nat, b: nat)
    requires a + 4 * |args| <= ADDRESSES
    ensures At(StoreWords(mem, id, a, args), id', b)
      == if id == id' && a <= b < a + 4 * |args| then ByteOf(args[(b - a) / 4], (b - a) % 4) else At(mem, id', b)
    decreases |args|
  {
    hide ByteOf, StoreWord, At;
    if args != [] {
      var n := |args| - 1;
      StoreWordsAt(mem, id, a, args[..n], id', b);
      assert (a + 4 * n) % ADDRESSES == a + 4 * n;
      StoreWordAt(StoreWords(mem, id, a, args[..n]), id, a + 4 * n, args[n], id', b);
    }
  }

  // Memory of one id with the first w bytes of a heap at base
  ghost predicate Holds(mem': Memory, mem: Memory, id: nat, base: nat, heap: seq<nat>, w: nat)
    requires w <= |heap|
  {
    forall i: nat, a: nat :: At(mem', i, a) == if i == id && base <= a < base + w then heap[a - base] else At(mem, i, a)
  }

  lemma StoreHolds(mem': Memory, mem: Memory, id: nat, base: nat, heap: seq<nat>, w: nat, n: nat)
    requires AreBytes(heap) && w + 4 * n <= |heap| && base + |heap| <= ADDRESSES && Holds(mem', mem, id, base, heap, w)
    ensures Holds(StoreWords(mem', id, base + w, Words(heap, w, n)), mem, id, base, heap, w + 4 * n)
  {
    hide ByteOf, StoreWords, At, Word, AreBytes;
    var args := Words(heap, w, n);
    var after, w' := StoreWords(mem', id, base + w, args), w + 4 * n;
    forall i: nat, a: nat ensures At(after, i, a) == if i == id && base <= a < base + w' then heap[a - base] else At(mem, i, a) {
      StoreWordsAt(mem', id, base + w, args, i, a);
      if i == id && base + w <= a < base + w' {
        var k := a - base - w;
        assert k == k / 4 * 4 + k % 4;
        WordBytes(heap, w + 4 * (k / 4), k % 4);
      }
    }
    assert Holds(after, mem, id, base, heap, w');
  }

  lemma {:induction false} ChunksHold(id: nat, base: nat, heap: seq<nat>, w: nat, mem: Memory)
    requires AreBytes(heap) && w <= |heap| && w % 4 == 0 && base + |heap| <= ADDRESSES && base < ADDRESSES
    ensures var s := ExecAll(id, base, mem, Chunks(heap, w));
      s.0 == (base + w) % ADDRESSES && Holds(s.1, mem, id, base, heap, w)
    decreases w
  {
    hide StoreWords, At, Word, Words, Holds, AreBytes, Exec, ExecAll, LastChunk;
    if w == 0 {
      NothingDone(id, base, mem);
      SmallAddr(base);
      assert Holds(mem, mem, id, base, heap, 0) by { NothingHeld(mem, id, base, heap); }
    } else {
      var k := LastChunk(w);
      ChunksHold(id, base, heap, w - k, mem);
      var before, req := Chunks(heap, w - k), StoreCmd(Words(heap, w - k, k / 4));
      SmallAddr(base + (w - k));
      ChunkHolds(id, base, heap, w - k, k / 4, mem, ExecAll(id, base, mem, before).1);
      ExecOneMore(id, base, mem, before, req);
    }
  }

  lemma ChunkHolds(id: nat, base: nat, heap: seq<nat>, w: nat, n: nat, mem: Memory, mem': Memory)
    requires AreBytes(heap) && w + 4 * n <= |heap| && base + |heap| <= ADDRESSES
    requires Holds(mem', mem, id, base, heap, w)
    ensures var s := Exec(id, base + w, mem', StoreCmd(Words(heap, w, n)));
      s.0 == (base + w + 4 * n) % ADDRESSES && Holds(s.1, mem, id, base, heap, w + 4 * n)
  {
    hide StoreWords, Holds, AreBytes, Word;
    StoreHolds(mem', mem, id, base, heap, w, n);
  }

  lemma NothingDone(id: nat, addr: nat, mem: Memory)
    ensures ExecAll(id, addr, mem, []) == (addr, mem)
  {
  }

  lemma SmallAddr(a: nat)
    requires a < ADDRESSES
    ensures a % ADDRESSES == a
  {
  }

  lemma ExecOneMore(id: nat, addr: nat, mem: Memory, reqs: seq<BootReq>, req: BootReq)
    ensures var s := ExecAll(id, addr, mem, reqs); ExecAll(id, addr, mem, reqs + [req]) == Exec(id, s.0, s.1, req)
  {
    assert (reqs + [req])[..|reqs|] == reqs;
  }

  lemma NothingHeld(mem: Memory, id: nat, base: nat, heap: seq<nat>)
    ensures Holds(mem, mem, id, base, heap, 0)
  {
  }

  // Byte of a memory after the first n threads of a core have been written
  ghost function Expected(m: Image, core: nat, n: nat, mem: Memory, i: nat, a: nat): nat
    requires m.Valid() && core < MAX_CORES && n <= THREADS
  {
    if n == 0 then At(mem, i, a)
    else
      var t := THREADS * core + n - 1;
      if i == t / SHARING && m.base[t] <= a < m.base[t] + |m.heap[t]| then m.heap[t][a - m.base[t]]
      else Expected(m, core, n - 1, mem, i, a)
  }

  // Addresses are 32 bits wide, and heaps are made of bytes
  ghost predicate InSpace(m: Image)
    requires m.Valid()
  {
    forall t | 0 <= t < MAX_THREADS :: m.base[t] < ADDRESSES && m.base[t] + |m.heap[t]| <= ADDRESSES && AreBytes(m.heap[t])
  }

  function MemoryOf(core: nat): nat { THREADS * core / SHARING }

  lemma OneMemory(core: nat, n: nat)
    requires n < THREADS
    ensures (THREADS * core + n) / SHARING == MemoryOf(core)
  {
  }

  lemma {:induction false} ThreadsHold(m: Image, core: nat, n: nat, addr: nat, mem: Memory)
    requires m.Valid() && InSpace(m) && core < MAX_CORES && n <= THREADS
    ensures var s := ExecAll(MemoryOf(core), addr, mem, m.Threads(core, n));
      forall i: nat, a: nat :: At(s.1, i, a) == Expected(m, core, n, mem, i, a)
    decreases n
  {
    hide At, Exec, Chunks, AreBytes;
    if n > 0 {
      var t, id := THREADS * core + n - 1, MemoryOf(core);
      var s := ExecAll(id, addr, mem, m.Threads(core, n - 1));
      ThreadsHold(m, core, n - 1, addr, mem);
      OneMemory(core, n - 1);
      ThreadStarts(id, addr, mem, m.Threads(core, n - 1), m.base[t], Chunks(m.heap[t], |m.heap[t]|));
      ChunksHold(id, m.base[t], m.heap[t], |m.heap[t]|, s.1);
    }
  }

  lemma ThreadStarts(id: nat, addr: nat, mem: Memory, before: seq<BootReq>, base: nat, after: seq<BootReq>)
    ensures ExecAll(id, addr, mem, before + [SetAddrCmd(base)] + after)
      == ExecAll(id, base, ExecAll(id, addr, mem, before).1, after)
  {
    ExecJoin(id, addr, mem, before + [SetAddrCmd(base)], after);
    assert (before + [SetAddrCmd(base)])[..|before|] == before;
  }

  // ---------------------------------------------------------------------
  // Several kinds of heaps, one after the other

  ghost predicate AllValid(ms: seq<Image>) {
    forall j | 0 <= j < |ms| :: ms[j].Valid()
  }

  ghost predicate AllInSpace(ms: seq<Image>)
    requires AllValid(ms)
  {
    forall j | 0 <= j < |ms| :: InSpace(ms[j])
  }

  // Requests to a core for the first n kinds
  ghost function Kinds(ms: seq<Image>, core: nat, n: nat): seq<BootReq>
    requires AllValid(ms) && core < MAX_CORES && n <= |ms|
  {
    if n == 0 then [] else Kinds(ms, core, n - 1) + ms[n - 1].Threads(core, THREADS)
  }

  // Different heaps in one memory do not meet
  ghost predicate Separate(ms: seq<Image>)
    requires AllValid(ms)
  {
    forall j, j', t, t' | 0 <= j < |ms| && 0 <= j' < |ms| && 0 <= t < MAX_THREADS && 0 <= t' < MAX_THREADS
      && (j != j' || t != t') && t / SHARING == t' / SHARING :: Apart(ms[j].Place(t), ms[j'].Place(t'))
  }

  // The byte belongs to the heap of a thread of the core
  ghost predicate Owns(ms: seq<Image>, core: nat, i: nat, a: nat)
    requires AllValid(ms) && core < MAX_CORES
  {
    exists j, t | 0 <= j < |ms| && THREADS * core <= t < THREADS * core + THREADS ::
      t / SHARING == i && ms[j].Place(t).Holds(a)
  }

  lemma {:induction false} ExpectedHeap(ms: seq<Image>, j: nat, core: nat, n: nat, mem: Memory, t: nat, k: nat)
    requires AllValid(ms) && Separate(ms) && j < |ms| && core < MAX_CORES && n <= THREADS
    requires THREADS * core <= t < THREADS * core + n && k < |ms[j].heap[t]|
    ensures Expected(ms[j], core, n, mem, t / SHARING, ms[j].base[t] + k) == ms[j].heap[t][k]
    decreases n
  {
    hide At;
    var t' := THREADS * core + n - 1;
    if t' != t {
      assert t' / SHARING == t / SHARING ==> Apart(ms[j].Place(t), ms[j].Place(t'));
      ExpectedHeap(ms, j, core, n - 1, mem, t, k);
    }
  }

  lemma {:induction false} ExpectedElsewhere(ms: seq<Image>, j: nat, core: nat, n: nat, mem: Memory, j': nat, t: nat,
                                             k: nat)
    requires AllValid(ms) && Separate(ms) && j < |ms| && j' < |ms| && j != j' && core < MAX_CORES && n <= THREADS
    requires t < MAX_THREADS && k < |ms[j'].heap[t]|
    ensures Expected(ms[j], core, n, mem, t / SHARING, ms[j'].base[t] + k) == At(mem, t / SHARING, ms[j'].base[t] + k)
    decreases n
  {
    hide At;
    if n > 0 {
      var t' := THREADS * core + n - 1;
      assert t' / SHARING == t / SHARING ==> Apart(ms[j].Place(t'), ms[j'].Place(t));
      ExpectedElsewhere(ms, j, core, n - 1, mem, j', t, k);
    }
  }

  // A core by itself writes the heaps of all kinds
  lemma {:induction false} KindsHold(ms: seq<Image>, core: nat, n: nat, addr: nat, mem: Memory, j: nat, t: nat, k: nat)
    requires AllValid(ms) && AllInSpace(ms) && Separate(ms) && core < MAX_CORES && j < n <= |ms|
    requires THREADS * core <= t < THREADS * core + THREADS && k < |ms[j].heap[t]|
    ensures At(ExecAll(MemoryOf(core), addr, mem, Kinds(ms, core, n)).1, t / SHARING, ms[j].base[t] + k) == ms[j].heap[t][k]
    decreases n
  {
    hide At, ExecAll, InSpace, Separate, Expected;
    var before, more := Kinds(ms, core, n - 1), ms[n - 1].Threads(core, THREADS);
    ExecJoin(MemoryOf(core), addr, mem, before, more);
    var s := ExecAll(MemoryOf(core), addr, mem, before);
    ThreadsHold(ms[n - 1], core, THREADS, s.0, s.1);
    if j == n - 1 {
      ExpectedHeap(ms, j, core, THREADS, s.1, t, k);
    } else {
      KindsHold(ms, core, n - 1, addr, mem, j, t, k);
      ExpectedElsewhere(ms, n - 1, core, THREADS, s.1, j, t, k);
    }
  }

  lemma OneOwner(ms: seq<Image>, core: nat, core': nat, i: nat, a: nat)
    requires AllValid(ms) && Separate(ms) && core < MAX_CORES && core' < MAX_CORES
    requires Owns(ms, core, i, a) && Owns(ms, core', i, a)
    ensures core == core'
  {
    var j, t :| 0 <= j < |ms| && THREADS * core <= t < THREADS * core + THREADS
      && t / SHARING == i && ms[j].Place(t).Holds(a);
    var j', t' :| 0 <= j' < |ms| && THREADS * core' <= t' < THREADS * core' + THREADS
      && t' / SHARING == i && ms[j'].Place(t').Holds(a);
    assert j == j' && t == t';
  }

  // The request writes into the heap of a thread of the core only
  ghost predicate Tidy(ms: seq<Image>, core: nat, addr: nat, req: BootReq)
    requires AllValid(ms) && core < MAX_CORES
  {
    req.StoreCmd? ==>
      && addr + 4 * |req.args| <= ADDRESSES
      && forall a: nat | addr <= a < addr + 4 * |req.args| :: Owns(ms, core, MemoryOf(core), a)
  }

  lemma {:induction false} ChunkAt(heap: seq<nat>, w: nat, k: nat) returns (at: nat, n: nat)
    requires w <= |heap| && w % 4 == 0 && k < |Chunks(heap, w)|
    ensures at % 4 == 0 && at + 4 * n <= w && Chunks(heap, w)[..k] == Chunks(heap, at)
    ensures Chunks(heap, w)[k] == StoreCmd(Words(heap, at, n))
    decreases w
  {
    hide LastChunk, Words;
    var last := LastChunk(w);
    if k == |Chunks(heap, w)| - 1 {
      at, n := w - last, last / 4;
    } else {
      at, n := ChunkAt(heap, w - last, k);
      assert Chunks(heap, w)[..k] == Chunks(heap, w - last)[..k];
    }
  }

  lemma {:induction false} ThreadsTidy(ms: seq<Image>, j: nat, core: nat, n: nat, addr: nat, mem: Memory, k: nat)
    requires AllValid(ms) && j < |ms| && InSpace(ms[j]) && core < MAX_CORES && n <= THREADS
    requires k < |ms[j].Threads(core, n)|
    ensures Tidy(ms, core, ExecAll(MemoryOf(core), addr, mem, ms[j].Threads(core, n)[..k]).0, ms[j].Threads(core, n)[k])
    decreases n
  {
    hide Tidy, ExecAll, Chunks, AreBytes;
    var m := ms[j];
    var before, t := m.Threads(core, n - 1), THREADS * core + n - 1;
    var all := m.Threads(core, n);
    if k < |before| {
      assert all[..k] == before[..k];
      ThreadsTidy(ms, j, core, n - 1, addr, mem, k);
    } else if k == |before| {
      SetTidy(ms, core, ExecAll(MemoryOf(core), addr, mem, all[..k]).0, m.base[t]);
    } else {
      var k' := k - |before| - 1;
      var at, w := ChunkAt(m.heap[t], |m.heap[t]|, k');
      assert all[..k] == before + [SetAddrCmd(m.base[t])] + Chunks(m.heap[t], at);
      ThreadStarts(MemoryOf(core), addr, mem, before, m.base[t], Chunks(m.heap[t], at));
      ChunksHold(MemoryOf(core), m.base[t], m.heap[t], at, ExecAll(MemoryOf(core), addr, mem, before).1);
      StoreTidy(ms, j, core, n - 1, at, w);
    }
  }

  lemma SetTidy(ms: seq<Image>, core: nat, addr: nat, base: nat)
    requires AllValid(ms) && core < MAX_CORES
    ensures Tidy(ms, core, addr, SetAddrCmd(base))
  {
  }

  lemma StoreTidy(ms: seq<Image>, j: nat, core: nat, n: nat, at: nat, w: nat)
    requires AllValid(ms) && j < |ms| && InSpace(ms[j]) && core < MAX_CORES && n < THREADS
    requires at + 4 * w <= |ms[j].heap[THREADS * core + n]|
    ensures var m, t := ms[j], THREADS * core + n;
      Tidy(ms, core, (m.base[t] + at) % ADDRESSES, StoreCmd(Words(m.heap[t], at, w)))
  {
    var m, t := ms[j], THREADS * core + n;
    OneMemory(core, n);
    if w > 0 {
      SmallAddr(m.base[t] + at);
      forall a | m.base[t] + at <= a < m.base[t] + at + 4 * w ensures Owns(ms, core, MemoryOf(core), a) {
        assert ms[j].Place(t).Holds(a);
      }
    }
  }

  lemma {:induction false} KindsTidy(ms: seq<Image>, core: nat, n: nat, addr: nat, mem: Memory, k: nat)
    requires AllValid(ms) && AllInSpace(ms) && core < MAX_CORES && n <= |ms| && k < |Kinds(ms, core, n)|
    ensures Tidy(ms, core, ExecAll(MemoryOf(core), addr, mem, Kinds(ms, core, n)[..k]).0, Kinds(ms, core, n)[k])
    decreases n
  {
    hide Tidy, ExecAll, InSpace;
    var before, more, all := Kinds(ms, core, n - 1), ms[n - 1].Threads(core, THREADS), Kinds(ms, core, n);
    if k < |before| {
      assert all[..k] == before[..k];
      KindsTidy(ms, core, n - 1, addr, mem, k);
    } else {
      var s := ExecAll(MemoryOf(core), addr, mem, before);
      assert all[..k] == before + more[..k - |before|];
      ExecJoin(MemoryOf(core), addr, mem, before, more[..k - |before|]);
      ThreadsTidy(ms, n - 1, core, THREADS, s.0, s.1, k - |before|);
    }
  }

  // ---------------------------------------------------------------------
  // All boot loaders together, in any order

  // For each core the number of requests it has handled and its address register
  datatype Machine = Machine(pos: seq<nat>, addr: seq<nat>, mem: Memory) {
    predicate Shape() { |pos| == |addr| == MAX_CORES }
  }

  // One core handles its next request
  function Turn(sent: seq<seq<BootReq>>, s: Machine, core: nat): (r: Machine)
    requires |sent| == MAX_CORES && s.Shape()
    ensures r.Shape()
  {
    if core < MAX_CORES && s.pos[core] < |sent[core]| then
      var (addr, mem) := Exec(MemoryOf(core), s.addr[core], s.mem, sent[core][s.pos[core]]);
      Machine(s.pos[core := s.pos[core] + 1], s.addr[core := addr], mem)
    else s
  }

  function Run(sent: seq<seq<BootReq>>, s: Machine, schedule: seq<nat>): (r: Machine)
    requires |sent| == MAX_CORES && s.Shape()
    ensures r.Shape()
  {
    if schedule == [] then s
    else Turn(sent, Run(sent, s, schedule[..|schedule| - 1]), schedule[|schedule| - 1])
  }

  // Some of the cores are sent their heaps, the others nothing
  ghost predicate Sending(ms: seq<Image>, sent: seq<seq<BootReq>>)
    requires AllValid(ms)
  {
    |sent| == MAX_CORES && forall c | 0 <= c < MAX_CORES :: sent[c] == Kinds(ms, c, |ms|) || sent[c] == []
  }

  predicate OnBoards(core: nat, lenX: nat, lenY: nat) { CoreX(core) < lenX && CoreY(core) < lenY }

  method WriteHeaps(hostLink: HostLink, meshLenX: nat, meshLenY: nat, m: Image)
    requires m.Valid() && meshLenX <= MESH && meshLenY <= MESH && hostLink.sent.Length == MAX_CORES
    modifies hostLink.sent
    ensures forall core | 0 <= core < MAX_CORES ::
      hostLink.sent[core] == old(hostLink.sent[core]) + if OnBoards(core, meshLenX, meshLenY) then m.Threads(core, THREADS) else []
  {
    var uploader := new Uploader(meshLenX, meshLenY, hostLink, m);
    uploader.WriteRAM();
  }

  // Write graph to the machine: all kinds of heaps
  method Write(hostLink: HostLink, meshLenX: nat, meshLenY: nat, vertexMem: Image, threadMem: Image,
               inEdgeHeaderMem: Image, inEdgeRestMem: Image, outEdgeMem: Image)
    requires vertexMem.Valid() && threadMem.Valid() && inEdgeHeaderMem.Valid() && inEdgeRestMem.Valid()
    requires outEdgeMem.Valid() && meshLenX <= MESH && meshLenY <= MESH && hostLink.sent.Length == MAX_CORES
    requires forall core | 0 <= core < MAX_CORES :: hostLink.sent[core] == []
    modifies hostLink.sent
    ensures var ms := [vertexMem, threadMem, inEdgeHeaderMem, inEdgeRestMem, outEdgeMem];
      && AllValid(ms) && Sending(ms, hostLink.sent[..])
      && forall core | 0 <= core < MAX_CORES && OnBoards(core, meshLenX, meshLenY) ::
           hostLink.sent[core] == Kinds(ms, core, 5)
  {
    hide Image.Threads, OnBoards;
    ghost var ms := [vertexMem, threadMem, inEdgeHeaderMem, inEdgeRestMem, outEdgeMem];
    WriteHeaps(hostLink, meshLenX, meshLenY, vertexMem);
    WriteHeaps(hostLink, meshLenX, meshLenY, threadMem);
    WriteHeaps(hostLink, meshLenX, meshLenY, inEdgeHeaderMem);
    WriteHeaps(hostLink, meshLenX, meshLenY, inEdgeRestMem);
    WriteHeaps(hostLink, meshLenX, meshLenY, outEdgeMem);
    forall core | 0 <= core < MAX_CORES
      ensures hostLink.sent[core] == if OnBoards(core, meshLenX, meshLenY) then Kinds(ms, core, 5) else []
    {
      FiveKinds(ms, core);
    }
  }

  lemma FiveKinds(ms: seq<Image>, core: nat)
    requires |ms| == 5 && AllValid(ms) && core < MAX_CORES
    ensures Kinds(ms, core, 5) == [] + ms[0].Threads(core, THREADS) + ms[1].Threads(core, THREADS)
      + ms[2].Threads(core, THREADS) + ms[3].Threads(core, THREADS) + ms[4].Threads(core, THREADS)
  {
    hide Image.Threads;
    assert Kinds(ms, core, 3) == Kinds(ms, core, 2) + ms[2].Threads(core, THREADS);
    assert Kinds(ms, core, 1) == Kinds(ms, core, 0) + ms[0].Threads(core, THREADS);
  }

  // What a core would have done by itself
  function Alone(sent: seq<seq<BootReq>>, s0: Machine, s: Machine, core: nat): (nat, Memory)
    requires |sent| == MAX_CORES && s0.Shape() && s.Shape() && core < MAX_CORES && s.pos[core] <= |sent[core]|
  {
    ExecAll(MemoryOf(core), s0.addr[core], s0.mem, sent[core][..s.pos[core]])
  }

  // Each core sees its own heaps as if it were alone
  ghost predicate InStep(ms: seq<Image>, sent: seq<seq<BootReq>>, s0: Machine, s: Machine, core: nat)
    requires AllValid(ms) && |sent| == MAX_CORES && s0.Shape() && s.Shape() && core < MAX_CORES
  {
    && s.pos[core] <= |sent[core]|
    && s.addr[core] == Alone(sent, s0, s, core).0
    && forall i: nat, a: nat | Owns(ms, core, i, a) :: At(s.mem, i, a) == At(Alone(sent, s0, s, core).1, i, a)
  }

  ghost predicate AllInStep(ms: seq<Image>, sent: seq<seq<BootReq>>, s0: Machine, s: Machine)
    requires AllValid(ms) && |sent| == MAX_CORES && s0.Shape() && s.Shape()
  {
    && (forall c | 0 <= c < MAX_CORES :: InStep(ms, sent, s0, s, c))
    && (forall i: nat, a: nat | !Used(ms, i, a) :: At(s.mem, i, a) == At(s0.mem, i, a))
  }

  // The byte belongs to a heap
  ghost predicate Used(ms: seq<Image>, i: nat, a: nat)
    requires AllValid(ms)
  {
    exists c :: 0 <= c < MAX_CORES && Owns(ms, c, i, a)
  }

  // A tidy request changes nothing but bytes of its core, and changes them in
  // the same way whatever else is in the memory
  lemma ExecTidy(ms: seq<Image>, core: nat, addr: nat, mem: Memory, mem': Memory, req: BootReq, i: nat, a: nat)
    requires AllValid(ms) && core < MAX_CORES && Tidy(ms, core, addr, req)
    ensures !Owns(ms, core, i, a) ==> At(Exec(MemoryOf(core), addr, mem, req).1, i, a) == At(mem, i, a)
    ensures At(mem, i, a) == At(mem', i, a) ==>
      At(Exec(MemoryOf(core), addr, mem, req).1, i, a) == At(Exec(MemoryOf(core), addr, mem', req).1, i, a)
  {
    hide At, Owns, StoreWords, ByteOf;
    if req.StoreCmd? {
      StoreWordsAt(mem, MemoryOf(core), addr, req.args, i, a);
      StoreWordsAt(mem', MemoryOf(core), addr, req.args, i, a);
    }
  }

  lemma TurnInStep(ms: seq<Image>, sent: seq<seq<BootReq>>, s0: Machine, s: Machine, core: nat)
    requires AllValid(ms) && AllInSpace(ms) && Separate(ms) && Sending(ms, sent) && s0.Shape() && s.Shape()
    requires AllInStep(ms, sent, s0, s)
    ensures AllInStep(ms, sent, s0, Turn(sent, s, core))
  {
    hide Owns, At, AllInSpace, Separate, Exec, Tidy, ExecAll;
    if core < MAX_CORES && s.pos[core] < |sent[core]| {
      var id, k, req := MemoryOf(core), s.pos[core], sent[core][s.pos[core]];
      var s', alone := Turn(sent, s, core), Alone(sent, s0, s, core);
      assert InStep(ms, sent, s0, s, core);
      KindsTidy(ms, core, |ms|, s0.addr[core], s0.mem, k);
      ExecOneMore(id, s0.addr[core], s0.mem, sent[core][..k], req);
      assert sent[core][..k + 1] == sent[core][..k] + [req];
      forall i: nat, a: nat | Owns(ms, core, i, a) ensures At(s'.mem, i, a) == At(Alone(sent, s0, s', core).1, i, a) {
        ExecTidy(ms, core, s.addr[core], s.mem, alone.1, req, i, a);
      }
      SameAddr(id, alone.0, s.mem, alone.1, req);
      forall c | 0 <= c < MAX_CORES && c != core ensures InStep(ms, sent, s0, s', c) {
        assert InStep(ms, sent, s0, s, c);
        forall i: nat, a: nat | Owns(ms, c, i, a) ensures At(s'.mem, i, a) == At(s.mem, i, a) {
          if Owns(ms, core, i, a) {
            OneOwner(ms, core, c, i, a);
          }
          ExecTidy(ms, core, s.addr[core], s.mem, s.mem, req, i, a);
        }
      }
      forall i: nat, a: nat | !Used(ms, i, a) ensures At(s'.mem, i, a) == At(s0.mem, i, a) {
        ExecTidy(ms, core, s.addr[core], s.mem, s.mem, req, i, a);
      }
    }
  }

  lemma SameAddr(id: nat, addr: nat, mem: Memory, mem': Memory, req: BootReq)
    ensures Exec(id, addr, mem, req).0 == Exec(id, addr, mem', req).0
  {
  }

  lemma {:induction false} RunInStep(ms: seq<Image>, sent: seq<seq<BootReq>>, s0: Machine, schedule: seq<nat>)
    requires AllValid(ms) && AllInSpace(ms) && Separate(ms) && Sending(ms, sent) && s0.Shape()
    requires forall c | 0 <= c < MAX_CORES :: s0.pos[c] == 0
    ensures AllInStep(ms, sent, s0, Run(sent, s0, schedule))
    decreases |schedule|
  {
    hide AllInStep, AllInSpace, Separate;
    if schedule == [] {
      assert AllInStep(ms, sent, s0, s0) by { StartInStep(ms, sent, s0); }
    } else {
      RunInStep(ms, sent, s0, schedule[..|schedule| - 1]);
      TurnInStep(ms, sent, s0, Run(sent, s0, schedule[..|schedule| - 1]), schedule[|schedule| - 1]);
    }
  }

  lemma StartInStep(ms: seq<Image>, sent: seq<seq<BootReq>>, s0: Machine)
    requires AllValid(ms) && |sent| == MAX_CORES && s0.Shape()
    requires forall c | 0 <= c < MAX_CORES :: s0.pos[c] == 0
    ensures AllInStep(ms, sent, s0, s0)
  {
    hide Owns, At;
    forall c | 0 <= c < MAX_CORES ensures InStep(ms, sent, s0, s0, c) {
      assert sent[c][..0] == [];
      NothingDone(MemoryOf(c), s0.addr[c], s0.mem);
    }
  }

  // Whatever the order in which the boot loaders of all cores handle their
  // requests: a core that has handled all of them has written the heaps of all
  // kinds of all its threads, and no other byte has changed
  lemma UploadCorrect(ms: seq<Image>, sent: seq<seq<BootReq>>, s0: Machine, schedule: seq<nat>, core: nat)
    requires AllValid(ms) && AllInSpace(ms) && Separate(ms) && Sending(ms, sent) && s0.Shape()
    requires forall c | 0 <= c < MAX_CORES :: s0.pos[c] == 0
    requires core < MAX_CORES && sent[core] == Kinds(ms, core, |ms|)
    requires Run(sent, s0, schedule).pos[core] == |sent[core]|
    ensures var s := Run(sent, s0, schedule);
      && (forall j, t, k | 0 <= j < |ms| && THREADS * core <= t < THREADS * core + THREADS && 0 <= k < |ms[j].heap[t]| ::
            At(s.mem, t / SHARING, ms[j].base[t] + k) == ms[j].heap[t][k])
      && (forall i: nat, a: nat | !Used(ms, i, a) :: At(s.mem, i, a) == At(s0.mem, i, a))
  {
    hide InSpace, Separate, At, ExecAll;
    var s := Run(sent, s0, schedule);
    RunInStep(ms, sent, s0, schedule);
    assert InStep(ms, sent, s0, s, core);
    assert sent[core][..|sent[core]|] == Kinds(ms, core, |ms|);
    forall j, t, k | 0 <= j < |ms| && THREADS * core <= t < THREADS * core + THREADS && 0 <= k < |ms[j].heap[t]|
      ensures At(s.mem, t / SHARING, ms[j].base[t] + k) == ms[j].heap[t][k]
    {
      KindsHold(ms, core, |ms|, s0.addr[core], s0.mem, j, t, k);
      assert ms[j].Place(t).Holds(ms[j].base[t] + k);
      assert Owns(ms, core, t / SHARING, ms[j].base[t] + k);
    }
  }

  // The heaps of all kinds of regions, at the places that the allocation gives
  // them, are what the upload asks for
  lemma LayoutsFit(ms: seq<Image>, layouts: seq<Layout>)
    requires AllValid(ms) && |layouts| == MAX_THREADS && |ms| <= 5
    requires forall t | 0 <= t < MAX_THREADS :: LaidOut(t, layouts[t])
    requires forall j, t | 0 <= j < |ms| && 0 <= t < MAX_THREADS :: InRegion(ms[j], layouts, j, t)
    ensures AllInSpace(ms) && Separate(ms)
  {
    hide LaidOut, AreBytes;
    forall j | 0 <= j < |ms| ensures InSpace(ms[j]) {
      forall t | 0 <= t < MAX_THREADS
        ensures ms[j].base[t] < ADDRESSES && ms[j].base[t] + |ms[j].heap[t]| <= ADDRESSES && AreBytes(ms[j].heap[t])
      {
        assert InRegion(ms[j], layouts, j, t);
        RegionInSpace(t, layouts[t], layouts[t].Regions()[Rank(j)]);
      }
    }
    forall j, j', t, t' | 0 <= j < |ms| && 0 <= j' < |ms| && 0 <= t < MAX_THREADS && 0 <= t' < MAX_THREADS
      && (j != j' || t != t') && t / SHARING == t' / SHARING
      ensures Apart(ms[j].Place(t), ms[j'].Place(t'))
    {
      assert InRegion(ms[j], layouts, j, t) && InRegion(ms[j'], layouts, j', t');
      KindsApart(layouts, j, j', t, t');
    }
  }

  // The order of writing: first the vertices, then the thread
  function Rank(kind: nat): nat { if kind < 2 then 1 - kind else kind }

  // The heap is in the region that is allocated for its kind
  ghost predicate InRegion(m: Image, layouts: seq<Layout>, kind: nat, t: nat)
    requires m.Valid() && |layouts| == MAX_THREADS && kind < 5 && t < MAX_THREADS
  {
    && m.base[t] == layouts[t].Regions()[Rank(kind)].base && |m.heap[t]| <= layouts[t].Regions()[Rank(kind)].size
    && AreBytes(m.heap[t])
  }

  lemma RegionInSpace(t: nat, l: Layout, r: Region)
    requires LaidOut(t, l) && r in l.Regions()
    ensures r.base < ADDRESSES && r.base + r.size <= ADDRESSES
  {
  }

  // Regions of different kinds or different threads in one memory do not meet
  lemma KindsApart(layouts: seq<Layout>, kind: nat, kind': nat, t: nat, t': nat)
    requires |layouts| == MAX_THREADS && kind < 5 && kind' < 5 && t < MAX_THREADS && t' < MAX_THREADS
    requires (kind != kind' || t != t') && t / SHARING == t' / SHARING
    requires LaidOut(t, layouts[t]) && LaidOut(t', layouts[t'])
    ensures Apart(layouts[t].Regions()[Rank(kind)], layouts[t'].Regions()[Rank(kind')])
  {
    hide LaidOut;
    if t == t' {
      OneThreadApart(t, layouts[t], Rank(kind), Rank(kind'));
    } else {
      ThreadsApart(t, layouts[t], t', layouts[t'], layouts[t].Regions()[Rank(kind)], layouts[t'].Regions()[Rank(kind')]);
    }
  }

  lemma OneThreadApart(t: nat, l: Layout, kind: nat, kind': nat)
    requires LaidOut(t, l) && kind < 5 && kind' < 5 && kind != kind'
    ensures Apart(l.Regions()[kind], l.Regions()[kind'])
  {
    var i, j := if kind < kind' then kind else kind', if kind < kind' then kind' else kind;
    assert Apart(l.Regions()[i], l.Regions()[j]);
  }
}
