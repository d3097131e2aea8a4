// The mapper's routing-table compiler: from the edges of a graph to the tables
// of senders, routers and receivers.
module PGraphs {
  import opened Wrappers
  import opened InTables
  import opened Masks
  import opened Mesh
  import opened Multicast
  import opened ProgRouters

  // Device addresses: thread id in bits 17..0, thread-local id from bit 19
  function MakeDeviceAddr(thread: nat, local: nat): nat { local * 0x8_0000 + thread }
  function GetThreadId(addr: nat): nat { addr % 0x4_0000 }
  function GetLocalDeviceId(addr: nat): nat { addr / 0x8_0000 }

  lemma DeviceAddrFields(thread: nat, local: nat)
    requires thread < 0x4_0000
    ensures GetThreadId(MakeDeviceAddr(thread, local)) == thread
    ensures GetLocalDeviceId(MakeDeviceAddr(thread, local)) == local
    ensures MakeDeviceAddr(thread, local) / 0x4_0000 % 2 == 0
  {
    var addr := MakeDeviceAddr(thread, local);
    assert addr / 0x4_0000 == 2 * local && addr % 0x4_0000 == thread;
  }

  // Info about an edge destination: index in the outgoing edge list, device, address
  datatype EdgeDest = EdgeDest(index: nat, dest: nat, addr: nat)

  function ThreadOf(e: EdgeDest): nat { GetThreadId(e.addr) }

  // What the C library's sort guarantees with the source's comparison function,
  // which says "greater" when the first thread id is less than the second
  predicate Descending(s: seq<EdgeDest>) {
    forall i, j | 0 <= i < j < |s| :: ThreadOf(s[i]) >= ThreadOf(s[j])
  }

  lemma InsertDescending(r: seq<EdgeDest>, j: nat, e: EdgeDest)
    requires Descending(r) && j <= |r| && (j < |r| ==> ThreadOf(r[j]) < ThreadOf(e))
    requires forall k | 0 <= k < j :: ThreadOf(r[k]) >= ThreadOf(e)
    ensures Descending(r[..j] + [e] + r[j..])
  {
    var r' := r[..j] + [e] + r[j..];
    forall a, b | 0 <= a < b < |r'| ensures ThreadOf(r'[a]) >= ThreadOf(r'[b]) {
      var a', b' := if a < j then a else a - 1, if b < j then b else b - 1;
      assert a != j ==> r'[a] == r[a'];
      assert b != j ==> r'[b] == r[b'];
      assert a == j ==> ThreadOf(r[j]) >= ThreadOf(r[b']);
    }
  }

  lemma EmptyDescending()
    ensures Descending([])
  {
  }

  lemma InsertBag(r: seq<EdgeDest>, j: nat, e: EdgeDest)
    requires j <= |r|
    ensures multiset(r[..j] + [e] + r[j..]) == multiset(r) + multiset{e}
  {
    assert r == r[..j] + r[j..];
  }

  // Stands for qsort
  method Sort(s: seq<EdgeDest>) returns (r: seq<EdgeDest>)
    ensures Descending(r) && multiset(r) == multiset(s)
  {
    hide Descending;
    EmptyDescending();
    r := [];
    for i := 0 to |s|
      invariant Descending(r) && multiset(r) == multiset(s[..i])
    {
      r := Insert(r, s[i]);
      assert s[..i + 1] == s[..i] + [s[i]];
    }
    assert s[..|s|] == s;
  }

  method Insert(r: seq<EdgeDest>, e: EdgeDest) returns (r': seq<EdgeDest>)
    requires Descending(r)
    ensures Descending(r') && multiset(r') == multiset(r) + multiset{e}
  {
    hide Descending, ThreadOf;
    var j := 0;
    while j < |r| && ThreadOf(r[j]) >= ThreadOf(e)
      invariant 0 <= j <= |r| && forall k | 0 <= k < j :: ThreadOf(r[k]) >= ThreadOf(e)
    {
      j := j + 1;
    }
    InsertDescending(r, j, e);
    InsertBag(r, j, e);
    return r[..j] + [e] + r[j..];
  }

  // Number of destinations on one thread
  function CountTo(s: seq<EdgeDest>, thread: nat): nat {
    if s == [] then 0
    else CountTo(s[..|s| - 1], thread) + if ThreadOf(s[|s| - 1]) == thread then 1 else 0
  }

  // ---------------------------------------------------------------------
  // Receiver groups of one mailbox

  ghost function GroupEvents<E>(from: seq<seq<nat>>, groups: seq<Group<E>>): multiset<Event<E>> {
    if groups == [] then multiset{}
    else Invoked(from, groups[0].threadId, groups[0].receivers) + GroupEvents(from, groups[1..])
  }

  // Threads of one mailbox in descending order
  ghost predicate OneMailbox<E>(groups: seq<Group<E>>, mbox: nat) {
    && (forall i | 0 <= i < |groups| :: groups[i].threadId / 64 == mbox)
    && (forall i, j | 0 <= i < j < |groups| :: groups[i].threadId > groups[j].threadId)
  }

  // The mask names exactly the threads (below n) of the groups
  ghost predicate MaskFor<E>(low: nat, high: nat, groups: seq<Group<E>>, n: nat) {
    forall t | 0 <= t < n ::
      InMask(low, high, t) <==> exists i :: 0 <= i < |groups| && groups[i].threadId % 64 == t
  }

  ghost predicate Located<E>(from: seq<seq<nat>>, groups: seq<Group<E>>) {
    forall i | 0 <= i < |groups| :: OnThread(from, groups[i].threadId, groups[i].receivers)
  }

  // All groups are on threads that read the key as the group's receivers
  ghost predicate Readable<E>(read: InReader<E>, groups: seq<Group<E>>, key: nat) {
    forall i | 0 <= i < |groups| :: read(groups[i].threadId, key) == Some(groups[i].receivers)
  }

  lemma MaskTail<E>(low: nat, high: nat, groups: seq<Group<E>>, n: nat)
    requires 0 < n <= 64 && groups != [] && MaskFor(low, high, groups, n)
    requires groups[0].threadId % 64 == n - 1
    ensures MaskFor(low, high, groups[1..], n - 1)
  {
    var rest := groups[1..];
    forall t | 0 <= t < n - 1
      ensures InMask(low, high, t) <==> exists i :: 0 <= i < |rest| && rest[i].threadId % 64 == t
    {
      if i :| 0 <= i < |groups| && groups[i].threadId % 64 == t {
        assert rest[i - 1].threadId % 64 == t;
      }
    }
  }

  lemma MailboxHead<E>(read: InReader<E>, from: seq<seq<nat>>, d: Dest, groups: seq<Group<E>>, n: nat)
    requires d.DestMRM? && 0 < n <= 64 && groups != [] && OneMailbox(groups, d.mbox)
    requires groups[0].threadId % 64 == n - 1
    requires MaskFor(d.maskLow, d.maskHigh, groups, n) && Readable(read, groups, d.key)
    requires Located(from, groups)
    requires MailboxEvents(read, from, d, n - 1) == Some(GroupEvents(from, groups[1..]))
    ensures MailboxEvents(read, from, d, n) == Some(GroupEvents(from, groups))
  {
    hide Invoked;
    assert InMask(d.maskLow, d.maskHigh, n - 1);
    assert d.mbox * 64 + (n - 1) == groups[0].threadId;
    var head := Invoked(from, groups[0].threadId, groups[0].receivers);
    assert GroupEvents(from, groups[1..]) + head == head + GroupEvents(from, groups[1..]);
  }

  // A multicast to the mailbox invokes exactly the receivers of the groups
  lemma {:induction false} MailboxGroups<E>(read: InReader<E>, from: seq<seq<nat>>, d: Dest,
                                         groups: seq<Group<E>>, n: nat)
    requires d.DestMRM? && n <= 64 && OneMailbox(groups, d.mbox)
    requires forall i | 0 <= i < |groups| :: groups[i].threadId % 64 < n
    requires MaskFor(d.maskLow, d.maskHigh, groups, n) && Readable(read, groups, d.key)
    requires Located(from, groups)
    ensures MailboxEvents(read, from, d, n) == Some(GroupEvents(from, groups))
  {
    if n == 0 {
      assert groups == [];
    } else if groups != [] && groups[0].threadId % 64 == n - 1 {
      MaskTail(d.maskLow, d.maskHigh, groups, n);
      MailboxGroups(read, from, d, groups[1..], n - 1);
      MailboxHead(read, from, d, groups, n);
    } else {
      forall i | 0 <= i < |groups| ensures groups[i].threadId % 64 < n - 1 {
        if i > 0 {
          assert groups[0].threadId > groups[i].threadId;
        }
      }
      assert !InMask(d.maskLow, d.maskHigh, n - 1);
      MailboxGroups(read, from, d, groups, n - 1);
    }
  }

  lemma {:induction false} GroupEventsPush<E>(from: seq<seq<nat>>, groups: seq<Group<E>>, e: InEdge<E>)
    requires groups != []
    ensures var last := groups[|groups| - 1];
      var groups' := groups[|groups| - 1 := last.(receivers := last.receivers + [e])];
      GroupEvents(from, groups') == GroupEvents(from, groups)
        + multiset{Event(DeviceAt(from, last.threadId, e.devId), e.edge)}
  {
    hide Invoked;
    var n := |groups| - 1;
    var last := groups[n];
    var more := last.receivers + [e];
    var groups' := groups[n := last.(receivers := more)];
    var event := multiset{Event(DeviceAt(from, last.threadId, e.devId), e.edge)};
    if n > 0 {
      GroupEventsPush(from, groups[1..], e);
      assert groups'[1..] == groups[1..][n - 1 := last.(receivers := more)];
      BagAssoc(Invoked(from, groups[0].threadId, groups[0].receivers), GroupEvents(from, groups[1..]), event);
    } else {
      assert groups'[1..] == groups[1..] == [];
      InvokedPush(from, last.threadId, last.receivers, e);
      BagNone(Invoked(from, last.threadId, last.receivers), event);
    }
  }

  lemma BagNone<E>(a: multiset<Event<E>>, b: multiset<Event<E>>)
    ensures a + b + multiset{} == a + multiset{} + b
  {
  }

  lemma InvokedPush<E>(from: seq<seq<nat>>, thread: nat, receivers: seq<InEdge<E>>, e: InEdge<E>)
    ensures Invoked(from, thread, receivers + [e])
      == Invoked(from, thread, receivers) + multiset{Event(DeviceAt(from, thread, e.devId), e.edge)}
  {
    assert (receivers + [e])[..|receivers|] == receivers;
  }

  lemma {:induction false} GroupEventsNew<E>(from: seq<seq<nat>>, groups: seq<Group<E>>, thread: nat)
    ensures GroupEvents(from, groups + [Group(thread, [])]) == GroupEvents(from, groups)
  {
    if groups != [] {
      GroupEventsNew(from, groups[1..], thread);
      assert (groups + [Group(thread, [])])[1..] == groups[1..] + [Group(thread, [])];
    } else {
      assert groups + [Group(thread, [])] == [Group(thread, [])];
      assert (groups + [Group(thread, [])])[1..] == groups;
    }
  }

  // ---------------------------------------------------------------------
  // From sorted destinations to multicasts

  function Mailbox(e: EdgeDest): nat { ThreadOf(e) / 64 }

  // A destination edge whose address is that of its device
  ghost predicate Placed<E>(from: seq<seq<nat>>, labels: seq<E>, threads: nat, e: EdgeDest) {
    && ThreadOf(e) < threads && e.index < |labels|
    && ThreadOf(e) < |from| && GetLocalDeviceId(e.addr) < |from[ThreadOf(e)]|
    && DeviceAt(from, ThreadOf(e), GetLocalDeviceId(e.addr)) == e.dest
  }

  ghost predicate AllPlaced<E>(from: seq<seq<nat>>, labels: seq<E>, threads: nat, dests: seq<EdgeDest>) {
    forall i | 0 <= i < |dests| :: Placed(from, labels, threads, dests[i])
  }

  // The events that the edges of the graph ask for
  function Wanted<E(==)>(labels: seq<E>, dests: seq<EdgeDest>): multiset<Event<E>> {
    if dests == [] then multiset{}
    else
      var e := dests[|dests| - 1];
      Wanted(labels, dests[..|dests| - 1])
        + if e.index < |labels| then multiset{Event(e.dest, labels[e.index])} else multiset{}
  }

  lemma WantedPush<E>(labels: seq<E>, dests: seq<EdgeDest>, start: nat, index: nat)
    requires start <= index < |dests| && dests[index].index < |labels|
    ensures Wanted(labels, dests[start..index + 1]) == Wanted(labels, dests[start..index])
      + multiset{Event(dests[index].dest, labels[dests[index].index])}
  {
    var more := dests[start..index + 1];
    assert more[..|more| - 1] == dests[start..index] && more[|more| - 1] == dests[index];
  }

  function One<E(==)>(labels: seq<E>, e: EdgeDest): multiset<Event<E>> {
    if e.index < |labels| then multiset{Event(e.dest, labels[e.index])} else multiset{}
  }

  lemma WantedLast<E>(labels: seq<E>, s: seq<EdgeDest>)
    requires s != []
    ensures Wanted(labels, s) == Wanted(labels, s[..|s| - 1]) + One(labels, s[|s| - 1])
  {
  }

  lemma BagAssoc<E>(a: multiset<Event<E>>, b: multiset<Event<E>>, c: multiset<Event<E>>)
    ensures a + b + c == a + (b + c)
  {
  }

  lemma {:induction false} WantedConcat<E>(labels: seq<E>, a: seq<EdgeDest>, b: seq<EdgeDest>)
    ensures Wanted(labels, a + b) == Wanted(labels, a) + Wanted(labels, b)
  {
    if b == [] {
      assert a + b == a;
    } else {
      hide Wanted, One;
      var n := |b| - 1;
      WantedLast(labels, a + b);
      assert (a + b)[..|a + b| - 1] == a + b[..n];
      WantedConcat(labels, a, b[..n]);
      BagAssoc(Wanted(labels, a), Wanted(labels, b[..n]), One(labels, b[n]));
      WantedLast(labels, b);
    }
  }

  lemma WantedJoin<E>(labels: seq<E>, dests: seq<EdgeDest>, start: nat, index: nat)
    requires start <= index <= |dests|
    ensures Wanted(labels, dests[..index]) == Wanted(labels, dests[..start]) + Wanted(labels, dests[start..index])
  {
    assert dests[..index] == dests[..start] + dests[start..index];
    WantedConcat(labels, dests[..start], dests[start..index]);
  }

  lemma {:induction false} CountPrefix(s: seq<EdgeDest>, n: nat, thread: nat)
    requires n <= |s|
    ensures CountTo(s[..n], thread) <= CountTo(s, thread)
  {
    if n < |s| {
      CountPrefix(s[..|s| - 1], n, thread);
      assert s[..|s| - 1][..n] == s[..n];
    } else {
      assert s[..n] == s;
    }
  }

  lemma CountNext(s: seq<EdgeDest>, n: nat, thread: nat)
    requires n < |s|
    ensures CountTo(s[..n + 1], thread) == CountTo(s[..n], thread) + if ThreadOf(s[n]) == thread then 1 else 0
  {
    assert s[..n + 1][..n] == s[..n];
  }

  // At most 64 groups fit in a mailbox
  lemma {:induction false} GroupCount<E>(groups: seq<Group<E>>, mbox: nat)
    requires OneMailbox(groups, mbox)
    ensures |groups| <= 64
  {
    if |groups| > 64 {
      var i: nat := 0;
      while i < 64
        invariant i <= 64 && groups[i].threadId <= mbox * 64 + 63 - i
      {
        assert groups[i].threadId > groups[i + 1].threadId;
        i := i + 1;
      }
    }
  }

  // State of the loop over the destinations of one mailbox
  ghost predicate Gathered<E>(from: seq<seq<nat>>, labels: seq<E>, dests: seq<EdgeDest>, start: nat,
                           index: nat, groups: seq<Group<E>>, low: nat, high: nat)
  {
    && start <= index <= |dests| && start < |dests| && groups != []
    && Shaped(dests, start, index, groups)
    && Counted(dests, index, groups)
    && low < 0x1_0000_0000 && high < 0x1_0000_0000
    && Located(from, Started(groups))
    && MaskFor(low, high, Started(groups), 64)
    && GroupEvents(from, groups) == Wanted(labels, dests[start..index])
  }

  // One group for each thread met so far; the last may still be empty
  ghost predicate Shaped<E>(dests: seq<EdgeDest>, start: nat, index: nat, groups: seq<Group<E>>)
    requires start <= index <= |dests| && start < |dests| && groups != []
  {
    && OneMailbox(groups, Mailbox(dests[start]))
    && (forall i | start <= i < index :: Mailbox(dests[i]) == Mailbox(dests[start]))
    && (forall i | 0 <= i < |groups| - 1 :: groups[i].receivers != [])
    && (if groups[|groups| - 1].receivers == []
        then index < |dests| && ThreadOf(dests[index]) == groups[|groups| - 1].threadId
        else start < index && ThreadOf(dests[index - 1]) == groups[|groups| - 1].threadId)
  }

  // No group has more receivers than there are destinations on its thread
  ghost predicate Counted<E>(dests: seq<EdgeDest>, index: nat, groups: seq<Group<E>>)
    requires index <= |dests|
  {
    forall i | 0 <= i < |groups| :: |groups[i].receivers| <= CountTo(dests[..index], groups[i].threadId)
  }

  // The groups that have receivers
  ghost function Started<E>(groups: seq<Group<E>>): seq<Group<E>>
    requires groups != []
  {
    if groups[|groups| - 1].receivers == [] then groups[..|groups| - 1] else groups
  }

  function AddThread(low: nat, high: nat, thread: nat): (nat, nat) {
    (if thread < 32 then SetBit(low, thread) else low,
     if thread >= 32 then SetBit(high, thread - 32) else high)
  }

  lemma AddThreadMask(low: nat, high: nat, thread: nat)
    requires thread < 64 && low < 0x1_0000_0000 && high < 0x1_0000_0000
    ensures var m := AddThread(low, high, thread);
      && m.0 < 0x1_0000_0000 && m.1 < 0x1_0000_0000
      && forall t: nat | t < 64 :: InMask(m.0, m.1, t) <==> InMask(low, high, t) || t == thread
  {
    Pow32();
    var m := AddThread(low, high, thread);
    if thread < 32 {
      SetBitFits(low, thread, 32);
    } else {
      SetBitFits(high, thread - 32, 32);
    }
    forall t: nat | t < 64
      ensures InMask(m.0, m.1, t) <==> InMask(low, high, t) || t == thread
    {
      if thread < 32 && t < 32 {
        SetBitBits(low, thread, t);
      } else if thread >= 32 && t >= 32 {
        SetBitBits(high, thread - 32, t - 32);
      }
    }
  }

  lemma GatherStart<E>(from: seq<seq<nat>>, labels: seq<E>, dests: seq<EdgeDest>, start: nat)
    requires start < |dests|
    ensures Gathered(from, labels, dests, start, start, [Group(ThreadOf(dests[start]), [])], 0, 0)
  {
    var groups: seq<Group<E>> := [Group(ThreadOf(dests[start]), [])];
    forall t: nat | t < 64 ensures !InMask(0, 0, t) {
      NoBits(if t < 32 then t else t - 32);
    }
    assert groups[..0] == [] && groups[1..] == [] && dests[start..start] == [];
    assert GroupEvents(from, groups) == Invoked(from, groups[0].threadId, []) + multiset{};
  }

  // Starting a new receiver group
  lemma GatherNew<E>(from: seq<seq<nat>>, labels: seq<E>, dests: seq<EdgeDest>, start: nat, index: nat,
                  groups: seq<Group<E>>, low: nat, high: nat)
    requires Gathered(from, labels, dests, start, index, groups, low, high) && Descending(dests)
    requires index < |dests| && Mailbox(dests[index]) == Mailbox(dests[start])
    requires ThreadOf(dests[index]) != groups[|groups| - 1].threadId
    ensures Gathered(from, labels, dests, start, index,
                     groups + [Group(ThreadOf(dests[index]), [])], low, high)
  {
    hide GroupEvents, Wanted, CountTo;
    GroupEventsNew(from, groups, ThreadOf(dests[index]));
    var groups' := groups + [Group(ThreadOf(dests[index]), [])];
    assert groups'[..|groups|] == groups;
  }

  // Adding an edge to the current receiver group
  lemma GatherEdge<E>(from: seq<seq<nat>>, labels: seq<E>, dests: seq<EdgeDest>, start: nat, index: nat,
                   groups: seq<Group<E>>, low: nat, high: nat, threads: nat)
    requires Gathered(from, labels, dests, start, index, groups, low, high)
    requires index < |dests| && Mailbox(dests[index]) == Mailbox(dests[start])
    requires ThreadOf(dests[index]) == groups[|groups| - 1].threadId
    requires Placed(from, labels, threads, dests[index])
    ensures var e := dests[index];
      var m := AddThread(low, high, ThreadOf(e) % 64);
      Gathered(from, labels, dests, start, index + 1,
               AddReceiver(groups, InEdge(GetLocalDeviceId(e.addr), labels[e.index])), m.0, m.1)
  {
    hide GroupEvents, Wanted, MaskFor, AddThread, Shaped, Counted, Started, InMask;
    var e := dests[index];
    var r := InEdge(GetLocalDeviceId(e.addr), labels[e.index]);
    var groups' := AddReceiver(groups, r);
    GroupEventsPush(from, groups, r);
    WantedPush(labels, dests, start, index);
    AddThreadMask(low, high, ThreadOf(e) % 64);
    GatherMask(low, high, groups, groups', ThreadOf(e) % 64);
    GatherLocated(from, groups, r);
    GatherShape(dests, start, index, groups, r);
    GatherCount(dests, index, groups, r);
  }

  lemma GatherLocated<E>(from: seq<seq<nat>>, groups: seq<Group<E>>, r: InEdge<E>)
    requires groups != [] && Located(from, Started(groups))
    requires var t := groups[|groups| - 1].threadId; t < |from| && r.devId < |from[t]|
    ensures Located(from, Started(AddReceiver(groups, r)))
  {
    var groups', n := AddReceiver(groups, r), |groups| - 1;
    forall i | 0 <= i < |groups'| ensures OnThread(from, groups'[i].threadId, groups'[i].receivers) {
      if i < n || groups[n].receivers != [] {
        assert OnThread(from, Started(groups)[i].threadId, Started(groups)[i].receivers);
      }
    }
  }

  lemma GatherShape<E>(dests: seq<EdgeDest>, start: nat, index: nat, groups: seq<Group<E>>, r: InEdge<E>)
    requires start <= index < |dests| && groups != [] && Shaped(dests, start, index, groups)
    requires Mailbox(dests[index]) == Mailbox(dests[start])
    requires ThreadOf(dests[index]) == groups[|groups| - 1].threadId
    ensures Shaped(dests, start, index + 1, AddReceiver(groups, r))
  {
  }

  lemma GatherCount<E>(dests: seq<EdgeDest>, index: nat, groups: seq<Group<E>>, r: InEdge<E>)
    requires index < |dests| && groups != [] && Counted(dests, index, groups)
    requires ThreadOf(dests[index]) == groups[|groups| - 1].threadId
    ensures Counted(dests, index + 1, AddReceiver(groups, r))
  {
    hide CountTo;
    var groups' := AddReceiver(groups, r);
    forall i | 0 <= i < |groups'|
      ensures |groups'[i].receivers| <= CountTo(dests[..index + 1], groups'[i].threadId)
    {
      CountNext(dests, index, groups'[i].threadId);
    }
  }

  function AddReceiver<E(==)>(groups: seq<Group<E>>, e: InEdge<E>): seq<Group<E>>
    requires groups != []
  {
    var last := groups[|groups| - 1];
    groups[|groups| - 1 := last.(receivers := last.receivers + [e])]
  }

  lemma GatherMask<E>(low: nat, high: nat, groups: seq<Group<E>>, groups': seq<Group<E>>, thread: nat)
    requires groups != [] && |groups'| == |groups| && groups'[|groups| - 1].receivers != []
    requires forall i | 0 <= i < |groups| :: groups'[i].threadId == groups[i].threadId
    requires thread < 64 && groups[|groups| - 1].threadId % 64 == thread
    requires MaskFor(low, high, Started(groups), 64)
    requires var m := AddThread(low, high, thread);
      forall t: nat | t < 64 :: InMask(m.0, m.1, t) <==> InMask(low, high, t) || t == thread
    ensures MaskFor(AddThread(low, high, thread).0, AddThread(low, high, thread).1, Started(groups'), 64)
  {
    hide InMask, AddThread;
    var m := AddThread(low, high, thread);
    var s, last := Started(groups), |groups| - 1;
    forall t | 0 <= t < 64
      ensures InMask(m.0, m.1, t) <==> exists i :: 0 <= i < |groups'| && groups'[i].threadId % 64 == t
    {
      if i :| 0 <= i < |s| && s[i].threadId % 64 == t {
        assert groups'[i].threadId % 64 == t;
      }
      if t == thread {
        assert groups'[last].threadId % 64 == t;
      }
      if i :| 0 <= i < |groups'| && groups'[i].threadId % 64 == t {
        if i < last || |s| == |groups| {
          assert s[i].threadId % 64 == t;
        }
      }
    }
  }

  // Determine edges targeting the same mailbox as edge `start`
  method Gather<E(==)>(ghost from: seq<seq<nat>>, labels: seq<E>, dests: seq<EdgeDest>, start: nat, ghost threads: nat)
    returns (groups: seq<Group<E>>, low: nat, high: nat, index: nat)
    requires Descending(dests) && AllPlaced(from, labels, threads, dests) && start < |dests|
    ensures start < index <= |dests|
    ensures Gathered(from, labels, dests, start, index, groups, low, high)
    ensures groups[|groups| - 1].receivers != []
    ensures index < |dests| ==> Mailbox(dests[index]) != Mailbox(dests[start])
  {
    hide Gathered, CountTo;
    low, high, index := 0, 0, start;
    var mbox, thread := GetThreadId(dests[start].addr) / 64, GetThreadId(dests[start].addr) % 64;
    groups := [Group(GetThreadId(dests[start].addr), [])];
    GatherStart(from, labels, dests, start);
    while index < |dests|
      invariant Gathered(from, labels, dests, start, index, groups, low, high)
      invariant start <= index <= |dests| && groups != []
      invariant mbox * 64 + thread == groups[|groups| - 1].threadId
      invariant index == start ==> thread == ThreadOf(dests[start]) % 64
      decreases |dests| - index, if index < |dests| && ThreadOf(dests[index]) == mbox * 64 + thread then 0 else 1
    {
      var edge := dests[index];
      var destMailbox, destThread := GetThreadId(edge.addr) / 64, GetThreadId(edge.addr) % 64;
      if destMailbox != mbox {
        break;
      }
      if destThread == thread {
        assert Placed(from, labels, threads, dests[index]);
        GatherEdge(from, labels, dests, start, index, groups, low, high, threads);
        groups := AddReceiver(groups, InEdge(GetLocalDeviceId(edge.addr), labels[edge.index]));
        if thread < 32 {
          low := SetBit(low, thread);
        }
        if thread >= 32 {
          high := SetBit(high, thread - 32);
        }
        index := index + 1;
      } else {
        GatherNew(from, labels, dests, start, index, groups, low, high);
        thread := destThread;
        groups := groups + [Group(mbox * 64 + thread, [])];
        assert |groups| <= 64 by {
          GatheredCount(from, labels, dests, start, index, groups, low, high);
        }
      }
    }
    GatherEnd(from, labels, dests, start, index, groups, low, high);
  }

  lemma GatheredCount<E>(from: seq<seq<nat>>, labels: seq<E>, dests: seq<EdgeDest>, start: nat, index: nat,
                      groups: seq<Group<E>>, low: nat, high: nat)
    requires Gathered(from, labels, dests, start, index, groups, low, high)
    ensures |groups| <= 64
  {
    GroupCount(groups, Mailbox(dests[start]));
  }

  lemma GatherEnd<E>(from: seq<seq<nat>>, labels: seq<E>, dests: seq<EdgeDest>, start: nat, index: nat,
                  groups: seq<Group<E>>, low: nat, high: nat)
    requires Gathered(from, labels, dests, start, index, groups, low, high)
    requires index < |dests| ==> Mailbox(dests[index]) != Mailbox(dests[start])
    ensures start < index && groups[|groups| - 1].receivers != []
  {
    assert groups[|groups| - 1].threadId / 64 == Mailbox(dests[start]);
  }

  // ---------------------------------------------------------------------
  // Table updates for the destinations of a device

  // How the threads read the keys handed out so far
  ghost function ReadKnown<E>(known: Known<E>): InReader<E> {
    (t: nat, k: nat) => if (t, k) in known then Some(known[(t, k)]) else None
  }

  ghost predicate KnownGrows<E>(known: Known<E>, known': Known<E>) {
    forall a | a in known :: a in known' && known'[a] == known[a]
  }

  lemma KnownExtends<E>(known: Known<E>, known': Known<E>)
    requires KnownGrows(known, known')
    ensures InExtends(ReadKnown(known), ReadKnown(known'))
  {
  }

  // The mailboxes of the multicasts made for a list of destinations
  function Runs(dests: seq<EdgeDest>): seq<nat> {
    if dests == [] then []
    else
      var n := |dests| - 1;
      if n > 0 && Mailbox(dests[n]) == Mailbox(dests[n - 1]) then Runs(dests[..n])
      else Runs(dests[..n]) + [Mailbox(dests[n])]
  }

  lemma {:induction false} RunsStep(dests: seq<EdgeDest>, start: nat, index: nat)
    requires start < index <= |dests|
    requires forall i | start <= i < index :: Mailbox(dests[i]) == Mailbox(dests[start])
    requires start > 0 ==> Mailbox(dests[start - 1]) != Mailbox(dests[start])
    ensures Runs(dests[..index]) == Runs(dests[..start]) + [Mailbox(dests[start])]
    decreases index
  {
    assert dests[..index][..index - 1] == dests[..index - 1];
    if index - 1 > start {
      RunsStep(dests, start, index - 1);
    }
  }

  function Mailboxes(ds: seq<Dest>): seq<nat> {
    seq(|ds|, i requires 0 <= i < |ds| => ds[i].mbox)
  }

  // A multicast to one mailbox, whose key is known on all of its threads
  lemma MulticastEvents<E>(from: seq<seq<nat>>, labels: seq<E>, dests: seq<EdgeDest>, start: nat, index: nat,
                        groups: seq<Group<E>>, low: nat, high: nat, known: Known<E>, key: nat)
    requires Gathered(from, labels, dests, start, index, groups, low, high)
    requires groups[|groups| - 1].receivers != []
    requires forall i | 0 <= i < |groups| :: Entry(known, groups[i], key)
    ensures DestEvents(ReadKnown(known), from, DestMRM(Mailbox(dests[start]), low, high, key))
         == Some(Wanted(labels, dests[start..index]))
  {
    hide Wanted, GroupEvents, CountTo;
    forall i | 0 <= i < |groups| ensures ReadKnown(known)(groups[i].threadId, key) == Some(groups[i].receivers) {
      assert Entry(known, groups[i], key);
    }
    MailboxGroups(ReadKnown(known), from, DestMRM(Mailbox(dests[start]), low, high, key), groups, 64);
  }

  lemma GatheredGroups<E>(from: seq<seq<nat>>, labels: seq<E>, dests: seq<EdgeDest>, start: nat, index: nat,
                       groups: seq<Group<E>>, low: nat, high: nat, threads: nat)
    requires Gathered(from, labels, dests, start, index, groups, low, high)
    requires AllPlaced(from, labels, threads, dests) && threads % 64 == 0
    requires groups[|groups| - 1].receivers != []
    ensures GroupsOk(groups, threads) && forall i | 0 <= i < |groups| :: groups[i].receivers != []
    ensures low < 0x1_0000_0000 && high < 0x1_0000_0000
  {
    hide Wanted, GroupEvents, CountTo, MaskFor;
    assert Placed(from, labels, threads, dests[start]);
    forall i | 0 <= i < |groups| ensures groups[i].threadId < threads {
      assert groups[i].threadId / 64 == Mailbox(dests[start]);
    }
  }

  lemma ListPush<E>(read: InReader<E>, from: seq<seq<nat>>, ds: seq<Dest>, d: Dest)
    ensures ListEvents(read, from, ds + [d]) == Sum(ListEvents(read, from, ds), DestEvents(read, from, d))
  {
    assert (ds + [d])[..|ds|] == ds;
  }

  // Compute table updates for destinations of a device: a list of multicasts
  // that together invoke exactly the wanted receivers
  method ComputeTables<E(==)>(tables: ReceiverTables<E>, ghost from: seq<seq<nat>>, labels: seq<E>,
                       dests: seq<EdgeDest>) returns (r: Result<seq<Dest>>)
    requires tables.Valid() && Descending(dests) && |tables.bitmaps| % 64 == 0
    requires AllPlaced(from, labels, |tables.bitmaps|, dests)
    modifies tables`headers, tables`rest, tables`known, tables.bitmaps
    ensures r.Value? ==> tables.Valid() && KnownGrows(old(tables.known), tables.known)
    ensures r.Value? ==> Multicasts(|tables.bitmaps|, r.value) && Mailboxes(r.value) == Runs(dests)
    ensures r.Value? ==>
      ListEvents(ReadKnown(tables.known), from, r.value) == Some(Wanted(labels, dests))
    ensures r.Value? && AllFew(dests) && Short(old(tables.known)) ==> Short(tables.known)
    ensures r.Exited? ==> tables.Exhausted()
  {
    var out: seq<Dest> := [];
    var index := 0;
    KnownSame(tables.known);
    hide Wanted, Gathered, Runs, ListEvents, DestEvents, Receivers, Mailboxes, CountTo,
         ReceiverTables.Valid, AllPlaced, Descending, Extended, Computed, KnownGrows, ReadKnown, Multicasts,
         GroupsOk, ReceiverTables.TakenBy, ReceiverTables.TakenBelow, ReceiverTables.Exhausted, AllFew, Short;
    ComputeStart(tables.known, from, labels, dests, |tables.bitmaps|);
    while index < |dests|
      invariant index <= |dests| && tables.Valid() && KnownGrows(old(tables.known), tables.known)
      invariant Computed(tables.known, from, labels, dests, index, out, |tables.bitmaps|)
      invariant AllFew(dests) && Short(old(tables.known)) ==> Short(tables.known)
    {
      var mbox := GetThreadId(dests[index].addr) / 64;
      var groups, low, high, next := Gather(from, labels, dests, index, |tables.bitmaps|);
      GatheredGroups(from, labels, dests, index, next, groups, low, high, |tables.bitmaps|);
      ghost var known := tables.known;
      var key :- tables.AddInTableEntries(groups);
      ComputeStep(known, tables.known, from, labels, dests, index, next, groups, low, high, key, out,
                  |tables.bitmaps|);
      KnownGrowsOn(old(tables.known), known, tables.known, groups, key);
      if AllFew(dests) && Short(known) {
        FewShort(from, labels, dests, index, next, groups, low, high, known, tables.known, key);
      }
      out := out + [DestMRM(mbox, low, high, key)];
      index := next;
    }
    ComputeEnd(tables.known, from, labels, dests, out, |tables.bitmaps|);
    return Value(out);
  }

  // No thread has more destinations than can be counted in 16 bits
  ghost predicate AllFew(dests: seq<EdgeDest>) {
    forall t :: CountTo(dests, t) < RECEIVERS
  }

  lemma FewShort<E>(from: seq<seq<nat>>, labels: seq<E>, dests: seq<EdgeDest>, start: nat, index: nat,
                    groups: seq<Group<E>>, low: nat, high: nat, known: Known<E>, known': Known<E>, key: nat)
    requires Gathered(from, labels, dests, start, index, groups, low, high) && AllFew(dests) && Short(known)
    requires Extended(known, known', groups, |groups|, key)
    ensures Short(known')
  {
    hide Wanted, GroupEvents, CountTo, Extended, Short;
    forall i | 0 <= i < |groups| ensures |groups[i].receivers| < RECEIVERS {
      CountPrefix(dests, index, groups[i].threadId);
    }
    StaysShort(known, known', groups, key);
  }

  // MRM destinations that fit their record, in mailboxes of the machine
  ghost predicate Multicasts(threads: nat, ds: seq<Dest>) {
    forall i | 0 <= i < |ds| ::
      && ds[i].DestMRM? && ds[i].mbox * 64 < threads && ds[i].key < INVALID_KEY
      && ds[i].maskLow < 0x1_0000_0000 && ds[i].maskHigh < 0x1_0000_0000
  }

  // State of the loop over all destinations
  ghost predicate Computed<E>(known: Known<E>, from: seq<seq<nat>>, labels: seq<E>, dests: seq<EdgeDest>,
                           index: nat, out: seq<Dest>, threads: nat)
    requires index <= |dests|
  {
    && (0 < index < |dests| ==> Mailbox(dests[index - 1]) != Mailbox(dests[index]))
    && Multicasts(threads, out) && Mailboxes(out) == Runs(dests[..index])
    && ListEvents(ReadKnown(known), from, out) == Some(Wanted(labels, dests[..index]))
  }

  lemma ComputeStart<E>(known: Known<E>, from: seq<seq<nat>>, labels: seq<E>, dests: seq<EdgeDest>, threads: nat)
    ensures Computed(known, from, labels, dests, 0, [], threads)
  {
    assert dests[..0] == [];
  }

  lemma ComputeEnd<E>(known: Known<E>, from: seq<seq<nat>>, labels: seq<E>, dests: seq<EdgeDest>,
                   out: seq<Dest>, threads: nat)
    requires Computed(known, from, labels, dests, |dests|, out, threads)
    ensures Multicasts(threads, out) && Mailboxes(out) == Runs(dests)
    ensures ListEvents(ReadKnown(known), from, out) == Some(Wanted(labels, dests))
  {
    assert dests[..|dests|] == dests;
  }

  lemma KnownSame<E>(a: Known<E>)
    ensures KnownGrows(a, a)
  {
  }

  lemma KnownGrowsOn<E>(a: Known<E>, b: Known<E>, c: Known<E>, groups: seq<Group<E>>, key: nat)
    requires KnownGrows(a, b) && Extended(b, c, groups, |groups|, key)
    ensures KnownGrows(a, c) && KnownGrows(b, c)
  {
  }

  lemma ComputeStep<E>(known: Known<E>, known': Known<E>, from: seq<seq<nat>>, labels: seq<E>,
                    dests: seq<EdgeDest>, start: nat, index: nat, groups: seq<Group<E>>,
                    low: nat, high: nat, key: nat, out: seq<Dest>, threads: nat)
    requires start < index <= |dests| && Computed(known, from, labels, dests, start, out, threads)
    requires Gathered(from, labels, dests, start, index, groups, low, high)
    requires groups[|groups| - 1].receivers != []
    requires index < |dests| ==> Mailbox(dests[index]) != Mailbox(dests[start])
    requires AllPlaced(from, labels, threads, dests) && threads % 64 == 0
    requires key < 0xffff && Extended(known, known', groups, |groups|, key)
    ensures Computed(known', from, labels, dests, index,
                     out + [DestMRM(Mailbox(dests[start]), low, high, key)], threads)
  {
    hide Wanted, ListEvents, DestEvents, CountTo, Extended, Gathered, Runs, Multicasts, Mailboxes,
         AllPlaced, Entry;
    SameMailbox(from, labels, dests, start, index, groups, low, high);
    StepList(known, known', from, labels, dests, start, index, groups, low, high, key, out, threads);
    GatheredGroups(from, labels, dests, start, index, groups, low, high, threads);
    StepShape(from, labels, dests, start, index, low, high, key, out, threads);
  }

  lemma StepShape<E>(from: seq<seq<nat>>, labels: seq<E>, dests: seq<EdgeDest>, start: nat, index: nat,
                  low: nat, high: nat, key: nat, out: seq<Dest>, threads: nat)
    requires start < index <= |dests| && AllPlaced(from, labels, threads, dests)
    requires 0 < start ==> Mailbox(dests[start - 1]) != Mailbox(dests[start])
    requires forall i | start <= i < index :: Mailbox(dests[i]) == Mailbox(dests[start])
    requires Multicasts(threads, out) && Mailboxes(out) == Runs(dests[..start])
    requires key < 0xffff && low < 0x1_0000_0000 && high < 0x1_0000_0000
    ensures var out' := out + [DestMRM(Mailbox(dests[start]), low, high, key)];
      Multicasts(threads, out') && Mailboxes(out') == Runs(dests[..index])
  {
    hide Runs;
    var d := DestMRM(Mailbox(dests[start]), low, high, key);
    RunsStep(dests, start, index);
    assert Mailboxes(out + [d]) == Mailboxes(out) + [d.mbox];
    assert Placed(from, labels, threads, dests[start]);
  }

  lemma StepList<E>(known: Known<E>, known': Known<E>, from: seq<seq<nat>>, labels: seq<E>,
                 dests: seq<EdgeDest>, start: nat, index: nat, groups: seq<Group<E>>,
                 low: nat, high: nat, key: nat, out: seq<Dest>, threads: nat)
    requires start < index <= |dests| && AllPlaced(from, labels, threads, dests)
    requires ListEvents(ReadKnown(known), from, out) == Some(Wanted(labels, dests[..start]))
    requires Gathered(from, labels, dests, start, index, groups, low, high)
    requires groups[|groups| - 1].receivers != []
    requires Extended(known, known', groups, |groups|, key)
    ensures ListEvents(ReadKnown(known'), from, out + [DestMRM(Mailbox(dests[start]), low, high, key)])
         == Some(Wanted(labels, dests[..index]))
  {
    hide Wanted, ListEvents, DestEvents, CountTo, Gathered;
    KnownGrowsOn(known, known, known', groups, key);
    KnownExtends(known, known');
    ListExtends(ReadKnown(known), ReadKnown(known'), from, out);
    MulticastEvents(from, labels, dests, start, index, groups, low, high, known', key);
    ListPush(ReadKnown(known'), from, out, DestMRM(Mailbox(dests[start]), low, high, key));
    forall i | 0 <= i < |dests| ensures dests[i].index < |labels| {
      assert Placed(from, labels, threads, dests[i]);
    }
    WantedJoin(labels, dests, start, index);
  }

  lemma SameMailbox<E>(from: seq<seq<nat>>, labels: seq<E>, dests: seq<EdgeDest>, start: nat, index: nat,
                    groups: seq<Group<E>>, low: nat, high: nat)
    requires start < index && Gathered(from, labels, dests, start, index, groups, low, high)
    ensures index <= |dests| && forall i | start <= i < index :: Mailbox(dests[i]) == Mailbox(dests[start])
  {
  }
}
