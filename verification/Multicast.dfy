// What sending on a pin makes the receiving threads do: the meaning of the
// sender's list of out-edges, through mailboxes, routers and in-tables.
module Multicast {
  import opened Wrappers
  import opened InTables
  import opened Masks
  import opened Mesh

  // The receive handler of a device is invoked for one of its in-edges
  datatype Event<E> = Event(dev: nat, edge: E)

  // Where to send a message, as the sender keeps it
  datatype OutEdge = OutEdge(mbox: nat, key: nat, maskLow: nat, maskHigh: nat)

  const INVALID_KEY: nat := 0xffff
  // Special mailbox that signifies use of a routing key
  const USE_ROUTING_KEY: nat := 0x1000
  // Longest route on a mesh of 8 by 8 boards
  const MAX_HOPS: nat := 14

  // How a thread reads its in-tables: (thread, key) to receivers
  type InReader<!E> = (nat, nat) -> Option<seq<InEdge<E>>>

  function Sum<E(==)>(a: Option<multiset<Event<E>>>, b: Option<multiset<Event<E>>>)
    : Option<multiset<Event<E>>>
  {
    if a.Some? && b.Some? then Some(a.value + b.value) else None
  }

  // The device at a thread-local id, by the mapping from addresses to devices
  function DeviceAt(from: seq<seq<nat>>, thread: nat, local: nat): nat {
    if thread < |from| && local < |from[thread]| then from[thread][local] else 0
  }

  // All in-edges lead to devices of the thread
  predicate OnThread<E(==)>(from: seq<seq<nat>>, thread: nat, edges: seq<InEdge<E>>) {
    thread < |from| && forall i | 0 <= i < |edges| :: edges[i].devId < |from[thread]|
  }

  // The receive handlers invoked on a thread for a list of in-edges
  function Invoked<E(==)>(from: seq<seq<nat>>, thread: nat, edges: seq<InEdge<E>>): multiset<Event<E>> {
    if edges == [] then multiset{}
    else
      var n := |edges| - 1;
      Invoked(from, thread, edges[..n])
        + multiset{Event(DeviceAt(from, thread, edges[n].devId), edges[n].edge)}
  }

  // ... on the first n threads of a mailbox, for a multicast to it
  function MailboxEvents<E(==)>(read: InReader<E>, from: seq<seq<nat>>, d: Dest, n: nat)
    : Option<multiset<Event<E>>>
    requires d.DestMRM?
  {
    if n == 0 then Some(multiset{})
    else
      var rest := MailboxEvents(read, from, d, n - 1);
      if !InMask(d.maskLow, d.maskHigh, n - 1) then rest
      else
        var thread := d.mbox * 64 + (n - 1);
        var es := read(thread, d.key);
        if es.None? || !OnThread(from, thread, es.value) then None
        else Sum(rest, Some(Invoked(from, thread, es.value)))
  }

  // ... for one destination (the compiler makes no other kind than MRM)
  function DestEvents<E(==)>(read: InReader<E>, from: seq<seq<nat>>, d: Dest): Option<multiset<Event<E>>> {
    if d.DestMRM? then MailboxEvents(read, from, d, 64) else None
  }

  function ListEvents<E(==)>(read: InReader<E>, from: seq<seq<nat>>, ds: seq<Dest>): Option<multiset<Event<E>>> {
    if ds == [] then Some(multiset{})
    else
      var n := |ds| - 1;
      Sum(ListEvents(read, from, ds[..n]), DestEvents(read, from, ds[n]))
  }

  // ... for the destinations that the network delivers to, in any order
  ghost function BagEvents<E>(read: InReader<E>, from: seq<seq<nat>>, ds: multiset<Dest>)
    : Option<multiset<Event<E>>>
    decreases |ds|
  {
    if ds == multiset{} then Some(multiset{})
    else
      var d :| d in ds;
      Sum(BagEvents(read, from, ds - multiset{d}), DestEvents(read, from, d))
  }

  // ... for one out-edge of a device on board b
  ghost function EdgeEvents<E>(net: Reader, read: InReader<E>, from: seq<seq<nat>>, b: Board, e: OutEdge)
    : Option<multiset<Event<E>>>
  {
    if e.mbox == USE_ROUTING_KEY then
      var ds := Deliver(net, b, Here, e.maskLow, MAX_HOPS);
      if ds.None? then None else BagEvents(read, from, ds.value.dests)
    else DestEvents(read, from, DestMRM(e.mbox, e.maskLow, e.maskHigh, e.key))
  }

  // ... for a list of out-edges, up to its terminator
  ghost function OutEvents<E>(net: Reader, read: InReader<E>, from: seq<seq<nat>>, b: Board, list: seq<OutEdge>)
    : Option<multiset<Event<E>>>
  {
    if list == [] then None
    else if list[0].key == INVALID_KEY then Some(multiset{})
    else Sum(EdgeEvents(net, read, from, b, list[0]), OutEvents(net, read, from, b, list[1..]))
  }

  // ---------------------------------------------------------------------

  lemma SumAssoc<E>(a: Option<multiset<Event<E>>>, b: Option<multiset<Event<E>>>, c: Option<multiset<Event<E>>>)
    ensures Sum(Sum(a, b), c) == Sum(Sum(a, c), b)
    ensures Sum(Sum(a, b), c) == Sum(a, Sum(b, c))
  {
    if a.Some? && b.Some? && c.Some? {
      assert a.value + b.value + c.value == a.value + c.value + b.value;
      assert a.value + b.value + c.value == a.value + (b.value + c.value);
    }
  }

  lemma BagStep<E>(read: InReader<E>, from: seq<seq<nat>>, ds: multiset<Dest>) returns (c: Dest)
    requires ds != multiset{}
    ensures c in ds
    ensures BagEvents(read, from, ds) == Sum(BagEvents(read, from, ds - multiset{c}), DestEvents(read, from, c))
  {
    hide DestEvents, Sum;
    c :| c in ds && BagEvents(read, from, ds)
      == Sum(BagEvents(read, from, ds - multiset{c}), DestEvents(read, from, c));
  }

  // The order in which destinations are taken does not matter
  lemma {:induction false} BagAny<E>(read: InReader<E>, from: seq<seq<nat>>, ds: multiset<Dest>, d: Dest)
    requires d in ds
    ensures BagEvents(read, from, ds)
         == Sum(BagEvents(read, from, ds - multiset{d}), DestEvents(read, from, d))
    decreases |ds|
  {
    hide BagEvents, DestEvents, Sum;
    var c := BagStep(read, from, ds);
    if c != d {
      BagAny(read, from, ds - multiset{c}, d);
      BagAny(read, from, ds - multiset{d}, c);
      assert ds - multiset{c} - multiset{d} == ds - multiset{d} - multiset{c};
      SumAssoc(BagEvents(read, from, ds - multiset{c} - multiset{d}),
               DestEvents(read, from, c), DestEvents(read, from, d));
    }
  }

  lemma {:induction false} BagList<E>(read: InReader<E>, from: seq<seq<nat>>, ds: seq<Dest>)
    ensures BagEvents(read, from, multiset(ds)) == ListEvents(read, from, ds)
  {
    if ds != [] {
      var n := |ds| - 1;
      assert ds == ds[..n] + [ds[n]];
      BagAny(read, from, multiset(ds), ds[n]);
      assert multiset(ds) - multiset{ds[n]} == multiset(ds[..n]);
      BagList(read, from, ds[..n]);
    }
  }

  // More keys on the threads and on the boards do not change what old lists do
  ghost predicate InExtends<E>(read: InReader<E>, more: InReader<E>) {
    forall t, k :: read(t, k).Some? ==> more(t, k) == read(t, k)
  }

  lemma {:induction false} MailboxExtends<E>(read: InReader<E>, more: InReader<E>, from: seq<seq<nat>>, d: Dest, n: nat)
    requires d.DestMRM? && InExtends(read, more) && MailboxEvents(read, from, d, n).Some?
    ensures MailboxEvents(more, from, d, n) == MailboxEvents(read, from, d, n)
  {
    if n != 0 {
      MailboxExtends(read, more, from, d, n - 1);
    }
  }

  lemma DestExtends<E>(read: InReader<E>, more: InReader<E>, from: seq<seq<nat>>, d: Dest)
    requires InExtends(read, more) && DestEvents(read, from, d).Some?
    ensures DestEvents(more, from, d) == DestEvents(read, from, d)
  {
    MailboxExtends(read, more, from, d, 64);
  }

  lemma {:induction false} ListExtends<E>(read: InReader<E>, more: InReader<E>, from: seq<seq<nat>>, ds: seq<Dest>)
    requires InExtends(read, more) && ListEvents(read, from, ds).Some?
    ensures ListEvents(more, from, ds) == ListEvents(read, from, ds)
  {
    if ds != [] {
      ListExtends(read, more, from, ds[..|ds| - 1]);
      DestExtends(read, more, from, ds[|ds| - 1]);
    }
  }

  lemma {:induction false} BagExtends<E>(read: InReader<E>, more: InReader<E>, from: seq<seq<nat>>, ds: multiset<Dest>)
    requires InExtends(read, more) && BagEvents(read, from, ds).Some?
    ensures BagEvents(more, from, ds) == BagEvents(read, from, ds)
    decreases |ds|
  {
    if ds != multiset{} {
      var d :| d in ds;
      BagAny(read, from, ds, d);
      BagAny(more, from, ds, d);
      BagExtends(read, more, from, ds - multiset{d});
      DestExtends(read, more, from, d);
    }
  }

  lemma EdgeExtends<E>(net: Reader, net': Reader, read: InReader<E>, more: InReader<E>,
                             from: seq<seq<nat>>, b: Board, e: OutEdge)
    requires Extends(net, net') && InExtends(read, more) && EdgeEvents(net, read, from, b, e).Some?
    ensures EdgeEvents(net', more, from, b, e) == EdgeEvents(net, read, from, b, e)
  {
    if e.mbox == USE_ROUTING_KEY {
      DeliverExtends(net, net', b, Here, e.maskLow, MAX_HOPS, MAX_HOPS);
      BagExtends(read, more, from, Deliver(net, b, Here, e.maskLow, MAX_HOPS).value.dests);
    } else {
      DestExtends(read, more, from, DestMRM(e.mbox, e.maskLow, e.maskHigh, e.key));
    }
  }

  lemma {:induction false} OutExtends<E>(net: Reader, net': Reader, read: InReader<E>, more: InReader<E>,
                                               from: seq<seq<nat>>, b: Board, list: seq<OutEdge>)
    requires Extends(net, net') && InExtends(read, more) && OutEvents(net, read, from, b, list).Some?
    ensures OutEvents(net', more, from, b, list) == OutEvents(net, read, from, b, list)
  {
    if list[0].key != INVALID_KEY {
      EdgeExtends(net, net', read, more, from, b, list[0]);
      OutExtends(net, net', read, more, from, b, list[1..]);
    }
  }
}
