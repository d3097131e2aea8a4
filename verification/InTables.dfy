// The receiver-side tables of all threads: local-multicast keys, headers and
// the overflow area for the in-edges that do not fit in a header.
module InTables {
  import opened Wrappers
  import opened Bitmaps

  // An incoming edge: thread-local device id and edge label
  datatype InEdge<E> = InEdge(devId: nat, edge: E)

  // A list of incoming edges: the first ones in the header, the others in the
  // overflow area from restIndex on
  datatype Header<E> = Header(numReceivers: nat, restIndex: nat, edges: seq<InEdge<E>>)

  // Receivers on one thread of the messages of one pin
  datatype Group<E> = Group(threadId: nat, receivers: seq<InEdge<E>>)

  // The limit of the 16-bit field numReceivers
  const RECEIVERS: nat := 0x1_0000

  // What is left of a list when its length is cut to 16 bits
  function Cut<E>(receivers: seq<InEdge<E>>): seq<InEdge<E>> { receivers[..|receivers| % RECEIVERS] }

  // Edge i of a list, as the softswitch finds it
  predicate HasEdge<E>(h: Header<E>, rest: seq<InEdge<E>>, perHeader: nat, i: nat) {
    if i < perHeader then i < |h.edges| else h.restIndex + (i - perHeader) < |rest|
  }

  function EdgeAt<E>(h: Header<E>, rest: seq<InEdge<E>>, perHeader: nat, i: nat): InEdge<E>
    requires HasEdge(h, rest, perHeader, i)
  {
    if i < perHeader then h.edges[i] else rest[h.restIndex + (i - perHeader)]
  }

  // The receivers that a thread invokes for a message with the given key
  function Receivers<E>(headers: seq<Header<E>>, rest: seq<InEdge<E>>, perHeader: nat, key: nat)
    : Option<seq<InEdge<E>>>
  {
    if key >= |headers| then None else
    var h := headers[key];
    if forall i | 0 <= i < h.numReceivers :: HasEdge(h, rest, perHeader, i)
    then Some(seq(h.numReceivers, i requires 0 <= i < h.numReceivers && HasEdge(h, rest, perHeader, i)
                                    => EdgeAt(h, rest, perHeader, i)))
    else None
  }

  // Adding headers and overflow edges does not disturb the lists already there
  lemma ReceiversFrame<E>(headers: seq<Header<E>>, rest: seq<InEdge<E>>,
                          headers': seq<Header<E>>, rest': seq<InEdge<E>>, perHeader: nat, key: nat)
    requires Receivers(headers, rest, perHeader, key).Some?
    requires |headers| <= |headers'| && headers'[key] == headers[key]
    requires |rest| <= |rest'| && rest == rest'[..|rest|]
    ensures Receivers(headers', rest', perHeader, key) == Receivers(headers, rest, perHeader, key)
  {
    var h := headers[key];
    forall i | 0 <= i < h.numReceivers
      ensures HasEdge(h, rest', perHeader, i)
           && EdgeAt(h, rest', perHeader, i) == EdgeAt(h, rest, perHeader, i)
    {
      assert HasEdge(h, rest, perHeader, i);
    }
    assert Receivers(headers', rest', perHeader, key).value
        == Receivers(headers, rest, perHeader, key).value;
  }

  // A freshly written list is read back up to the width of numReceivers
  lemma ReceiversWritten<E>(headers: seq<Header<E>>, rest: seq<InEdge<E>>, perHeader: nat,
                            key: nat, restIndex: nat, receivers: seq<InEdge<E>>)
    requires key < |headers| && restIndex <= |rest|
    requires var n := if |receivers| < perHeader then |receivers| else perHeader;
      && headers[key] == Header(|receivers| % RECEIVERS, restIndex, receivers[..n])
      && rest[restIndex..] == receivers[n..]
    ensures Receivers(headers, rest, perHeader, key) == Some(Cut(receivers))
  {
    var n := if |receivers| < perHeader then |receivers| else perHeader;
    var h := headers[key];
    forall i | 0 <= i < h.numReceivers
      ensures HasEdge(h, rest, perHeader, i) && EdgeAt(h, rest, perHeader, i) == receivers[i]
    {
      if i >= perHeader {
        assert rest[restIndex..][i - perHeader] == receivers[n..][i - perHeader];
      }
    }
    assert Receivers(headers, rest, perHeader, key).value == Cut(receivers);
  }

  // The list is read back whole exactly when its length fits in 16 bits
  lemma WholeIff<E>(headers: seq<Header<E>>, rest: seq<InEdge<E>>, perHeader: nat,
                    key: nat, restIndex: nat, receivers: seq<InEdge<E>>)
    requires key < |headers| && restIndex <= |rest|
    requires var n := if |receivers| < perHeader then |receivers| else perHeader;
      && headers[key] == Header(|receivers| % RECEIVERS, restIndex, receivers[..n])
      && rest[restIndex..] == receivers[n..]
    ensures Receivers(headers, rest, perHeader, key) == Some(receivers) <==> |receivers| < RECEIVERS
  {
    ReceiversWritten(headers, rest, perHeader, key, restIndex, receivers);
    assert |receivers[..|receivers| % RECEIVERS]| == |receivers| % RECEIVERS;
    if |receivers| < RECEIVERS {
      assert |receivers| % RECEIVERS == |receivers|;
      assert receivers[..|receivers|] == receivers;
    }
  }

  type Known<E> = map<(nat, nat), seq<InEdge<E>>>

  ghost predicate GroupsOk<E>(groups: seq<Group<E>>, threads: nat) {
    && groups != []
    && (forall i | 0 <= i < |groups| :: groups[i].threadId < threads)
    && (forall i, j | 0 <= i < j < |groups| :: groups[i].threadId != groups[j].threadId)
  }

  class ReceiverTables<E> {
    // Number of edges stored in a header (POLITE_EDGES_PER_HEADER)
    const perHeader: nat
    // For each thread the keys in use
    const bitmaps: seq<Bitmap>
    // In-edge headers, and edges that don't fit in them, for each thread
    var headers: seq<seq<Header<E>>>
    var rest: seq<seq<InEdge<E>>>

    // What every key handed out on a thread is meant to stand for
    ghost var known: Known<E>

    ghost function Bitmaps(): set<Bitmap> { set b | b in bitmaps }

    ghost predicate Valid()
      reads this, bitmaps
    {
      && |headers| == |rest| == |bitmaps|
      && (forall t | 0 <= t < |bitmaps| :: bitmaps[t].Valid())
      && (forall t, t' | 0 <= t < t' < |bitmaps| :: bitmaps[t] != bitmaps[t'])
      && (forall a | a in known ::
            && a.0 < |bitmaps| && bitmaps[a.0].IsSet(a.1)
            && Receivers(headers[a.0], rest[a.0], perHeader, a.1) == Some(Cut(known[a])))
    }

    // Empty tables for a number of threads
    constructor (perHeader: nat, threads: nat)
      ensures this.perHeader == perHeader && |bitmaps| == threads
      ensures Valid() && known == map[] && forall b | b in bitmaps :: fresh(b)
    {
      this.perHeader := perHeader;
      var bs: seq<Bitmap> := [];
      for t := 0 to threads
        invariant |bs| == t && forall b | b in bs :: fresh(b) && b.Valid()
        invariant forall i, j | 0 <= i < j < t :: bs[i] != bs[j]
      {
        var b := new Bitmap();
        bs := bs + [b];
      }
      bitmaps := bs;
      headers := seq(threads, _ => []);
      rest := seq(threads, _ => []);
      known := map[];
    }

    // Union of one word of the bitmaps of the first groups
    function Mask(groups: seq<Group<E>>, index: nat, n: nat): Word
      requires n <= |groups| && forall i | 0 <= i < |groups| :: groups[i].threadId < |bitmaps|
      reads bitmaps
      decreases n
    {
      if n == 0 then {} else
      Mask(groups, index, n - 1) + bitmaps[groups[n - 1].threadId].GetWord(index)
    }

    ghost predicate TakenBy(groups: seq<Group<E>>, n: nat, k: nat)
      requires n <= |groups| && forall i | 0 <= i < |groups| :: groups[i].threadId < |bitmaps|
      reads bitmaps
    {
      exists i :: 0 <= i < n && bitmaps[groups[i].threadId].IsSet(k)
    }

    lemma {:induction false} MaskBit(groups: seq<Group<E>>, index: nat, n: nat, bit: nat)
      requires n <= |groups| && forall i | 0 <= i < |groups| :: groups[i].threadId < |bitmaps|
      requires bit < 64
      ensures bit in Mask(groups, index, n) <==> TakenBy(groups, n, 64 * index + bit)
      decreases n
    {
      hide Bitmap.IsSet, Bitmap.GetWord, TakenBy, Mask;
      if n == 0 {
        MaskNone(groups, index, bit);
      } else {
        MaskBit(groups, index, n - 1, bit);
        MaskStep(groups, index, n, bit);
        TakenByOneMore(groups, n, 64 * index + bit);
      }
    }

    lemma MaskNone(groups: seq<Group<E>>, index: nat, bit: nat)
      requires forall i | 0 <= i < |groups| :: groups[i].threadId < |bitmaps|
      ensures bit !in Mask(groups, index, 0) && !TakenBy(groups, 0, 64 * index + bit)
    {
    }

    lemma MaskStep(groups: seq<Group<E>>, index: nat, n: nat, bit: nat)
      requires 0 < n <= |groups| && forall i | 0 <= i < |groups| :: groups[i].threadId < |bitmaps|
      requires bit < 64
      ensures bit in Mask(groups, index, n) <==>
        (bit in Mask(groups, index, n - 1) || bitmaps[groups[n - 1].threadId].IsSet(64 * index + bit))
    {
      hide Bitmap.IsSet, Bitmap.GetWord;
      var last := bitmaps[groups[n - 1].threadId];
      assert bit in last.GetWord(index) <==> last.IsSet(64 * index + bit);
    }

    lemma TakenByOneMore(groups: seq<Group<E>>, n: nat, k: nat)
      requires 0 < n <= |groups| && forall i | 0 <= i < |groups| :: groups[i].threadId < |bitmaps|
      ensures TakenBy(groups, n, k)
        <==> TakenBy(groups, n - 1, k) || bitmaps[groups[n - 1].threadId].IsSet(k)
    {
      hide Bitmap.IsSet;
    }

    // All keys of one word, and all keys below a limit, are taken by some group
    ghost predicate WordTaken(groups: seq<Group<E>>, index: nat)
      requires forall i | 0 <= i < |groups| :: groups[i].threadId < |bitmaps|
      reads bitmaps
    {
      forall k | 64 * index <= k < 64 * index + 64 :: TakenBy(groups, |groups|, k)
    }

    ghost predicate TakenBelow(groups: seq<Group<E>>, limit: nat)
      requires forall i | 0 <= i < |groups| :: groups[i].threadId < |bitmaps|
      reads bitmaps
    {
      forall k | 0 <= k < limit :: TakenBy(groups, |groups|, k)
    }

    lemma NextWord(groups: seq<Group<E>>, index: nat)
      requires forall i | 0 <= i < |groups| :: groups[i].threadId < |bitmaps|
      requires TakenBelow(groups, 64 * index) && WordTaken(groups, index)
      ensures TakenBelow(groups, 64 * (index + 1))
      ensures index < Bound(groups, |groups|)
    {
      hide TakenBy;
      assert TakenBy(groups, |groups|, 64 * index + 0);
      BelowBound(groups, index);
    }

    lemma BelowBound(groups: seq<Group<E>>, index: nat)
      requires forall i | 0 <= i < |groups| :: groups[i].threadId < |bitmaps|
      requires TakenBy(groups, |groups|, 64 * index + 0)
      ensures index < Bound(groups, |groups|)
    {
    }

    // The least zero bit of the union is the least key that no group has taken
    lemma LeastFree(groups: seq<Group<E>>, index: nat, bit: nat)
      requires forall i | 0 <= i < |groups| :: groups[i].threadId < |bitmaps|
      requires TakenBelow(groups, 64 * index) && bit < 64
      requires bit !in Mask(groups, index, |groups|)
      requires forall i | 0 <= i < bit :: i in Mask(groups, index, |groups|)
      ensures !TakenBy(groups, |groups|, 64 * index + bit)
      ensures TakenBelow(groups, 64 * index + bit)
    {
      hide TakenBy, Mask;
      MaskBit(groups, index, |groups|, bit);
      forall k | 0 <= k < 64 * index + bit ensures TakenBy(groups, |groups|, k) {
        if k >= 64 * index {
          MaskBit(groups, index, |groups|, k - 64 * index);
        }
      }
    }

    method StartIndex(groups: seq<Group<E>>) returns (index: nat)
      requires Valid() && GroupsOk(groups, |bitmaps|)
      ensures TakenBelow(groups, 64 * index)
    {
      index := 0;
      for i := 0 to |groups|
        invariant TakenBelow(groups, 64 * index)
      {
        var bm := bitmaps[groups[i].threadId];
        if bm.firstFree > index {
          index := bm.firstFree;
          forall k | 0 <= k < 64 * index ensures TakenBy(groups, |groups|, k) {
            bm.BelowFirstFree(k);
          }
        }
      }
    }

    // Union of one word of the bitmaps of all groups; the loop stops early once
    // the word is full, because then no key of that word is free everywhere
    method MaskAt(groups: seq<Group<E>>, index: nat) returns (mask: Word)
      requires forall i | 0 <= i < |groups| :: groups[i].threadId < |bitmaps|
      ensures if mask == FULL then WordTaken(groups, index) else mask == Mask(groups, index, |groups|)
    {
      hide Bitmap.IsSet, WordTaken;
      mask := {};
      EmptyNotFull();
      for i := 0 to |groups|
        invariant mask == Mask(groups, index, i) && mask != FULL
      {
        mask := mask + bitmaps[groups[i].threadId].GetWord(index);
        if mask == FULL {
          FullMask(groups, index, i + 1);
          return;
        }
      }
    }

    lemma FullMask(groups: seq<Group<E>>, index: nat, n: nat)
      requires n <= |groups| && forall i | 0 <= i < |groups| :: groups[i].threadId < |bitmaps|
      requires Mask(groups, index, n) == FULL
      ensures WordTaken(groups, index)
    {
      forall k | 64 * index <= k < 64 * index + 64 ensures TakenBy(groups, |groups|, k) {
        MaskBit(groups, index, n, k - 64 * index);
      }
    }

    // No bitmap of a group has a bit at or beyond this word
    ghost function Bound(groups: seq<Group<E>>, n: nat): (bound: nat)
      requires n <= |groups| && forall i | 0 <= i < |groups| :: groups[i].threadId < |bitmaps|
      reads bitmaps
      ensures forall i | 0 <= i < n :: |bitmaps[groups[i].threadId].contents| <= bound
    {
      if n == 0 then 0 else
      var rest := Bound(groups, n - 1);
      var len := |bitmaps[groups[n - 1].threadId].contents|;
      if len > rest then len else rest
    }

    method MarkTaken(groups: seq<Group<E>>, index: nat, bit: nat)
      requires Valid() && GroupsOk(groups, |bitmaps|) && bit < 64
      modifies bitmaps
      ensures forall t | 0 <= t < |bitmaps| :: bitmaps[t].Valid()
      ensures Marked(groups, |groups|, 64 * index + bit)
    {
      for i := 0 to |groups|
        invariant forall t | 0 <= t < |bitmaps| :: bitmaps[t].Valid()
        invariant Marked(groups, i, 64 * index + bit)
      {
        var t := groups[i].threadId;
        bitmaps[t].SetBit(index, bit);
      }
    }

    // Exactly one key has been taken, on the threads of the first groups
    twostate predicate Marked(groups: seq<Group<E>>, n: nat, key: nat)
      requires n <= |groups|
      reads bitmaps
    {
      forall t, k: nat | 0 <= t < |bitmaps| ::
        (bitmaps[t].IsSet(k) <==>
           old(bitmaps[t].IsSet(k)) || (k == key && exists i :: 0 <= i < n && groups[i].threadId == t))
    }

    method GrabKey(groups: seq<Group<E>>) returns (key: nat)
      requires Valid() && GroupsOk(groups, |bitmaps|) && |groups| == 1
      modifies bitmaps[groups[0].threadId]
      ensures forall t | 0 <= t < |bitmaps| :: bitmaps[t].Valid()
      ensures !old(TakenBy(groups, 1, key)) && old(TakenBelow(groups, key))
      ensures Marked(groups, 1, key)
    {
      key := bitmaps[groups[0].threadId].GrabNextBit();
    }

    // Determine local-multicast routing key for given set of receivers: the
    // least key that is free on all of their threads, which is then taken
    method FindKey(groups: seq<Group<E>>) returns (key: nat)
      requires Valid() && GroupsOk(groups, |bitmaps|)
      modifies bitmaps
      ensures forall t | 0 <= t < |bitmaps| :: bitmaps[t].Valid()
      ensures !old(TakenBy(groups, |groups|, key))
      ensures old(TakenBelow(groups, key))
      ensures Marked(groups, |groups|, key)
    {
      hide TakenBy, Mask, WordTaken, TakenBelow, Bitmap.IsSet, Bitmap.GetWord, Bitmap.Valid, Receivers;
      if |groups| == 1 {
        key := GrabKey(groups);
        return;
      }
      var index := StartIndex(groups);
      var mask := MaskAt(groups, index);
      while mask == FULL
        invariant if mask == FULL then WordTaken(groups, index) else mask == Mask(groups, index, |groups|)
        invariant TakenBelow(groups, 64 * index)
        modifies {}
        decreases Bound(groups, |groups|) - index
      {
        NextWord(groups, index);
        index := index + 1;
        mask := MaskAt(groups, index);
      }
      var bit := FirstZero(mask);
      key := 64 * index + bit;
      LeastFree(groups, index, bit);
      MarkTaken(groups, index, bit);
    }

    // Some thread has run out of keys or of room for its in-edges
    ghost predicate Exhausted()
      reads this`rest, bitmaps
    {
      || (exists t, k | 0 <= t < |bitmaps| && k >= 0xffff :: bitmaps[t].IsSet(k))
      || (exists t | 0 <= t < |rest| :: |rest[t]| > 0xffff)
    }

    // Fill in the header of one group, and the overflow area if it is needed
    method StoreGroup(g: Group<E>, key: nat) returns (o: Outcome)
      requires Valid() && g.threadId < |bitmaps| && g.receivers != []
      requires bitmaps[g.threadId].IsSet(key) && (g.threadId, key) !in known
      modifies this`headers, this`rest, this`known
      ensures o.Value? ==> Valid()
      ensures o.Value? ==> known == old(known)[(g.threadId, key) := g.receivers]
      ensures o.Exited? <==> old(|rest[g.threadId]|) > 0xffff
      ensures o.Exited? ==> Exhausted()
    {
      hide Receivers, Bitmap.IsSet, Bitmap.Valid;
      var t := g.threadId;
      var numEdges := |g.receivers|;
      var hs := headers[t];
      if key >= |hs| {
        var space := Uninitialised<E>(key + 1 - |hs|);
        hs := hs + space;
      }
      if |rest[t]| > 0xffff {
        return Exited;
      }
      var restIndex := |rest[t]|;
      var numHeaderEdges := if numEdges < perHeader then numEdges else perHeader;
      var edges: seq<InEdge<E>> := [];
      for j := 0 to numHeaderEdges
        invariant edges == g.receivers[..j]
      {
        edges := edges + [g.receivers[j]];
      }
      hs := hs[key := Header(numEdges % RECEIVERS, restIndex, edges)];
      var more := rest[t];
      for j := numHeaderEdges to numEdges
        invariant |more| == restIndex + (j - numHeaderEdges)
        invariant more[..restIndex] == rest[t] && more[restIndex..] == g.receivers[numHeaderEdges..j]
      {
        more := more + [g.receivers[j]];
      }
      ListStored(t, key, hs, more, g.receivers, numHeaderEdges);
      headers := headers[t := hs];
      rest := rest[t := more];
      known := known[(t, key) := g.receivers];
      return Continue;
    }

    // The new list is readable and the old ones still are
    lemma ListStored(t: nat, key: nat, hs: seq<Header<E>>, more: seq<InEdge<E>>,
                     receivers: seq<InEdge<E>>, n: nat)
      requires Valid() && t < |bitmaps| && (t, key) !in known
      requires key < |hs| && |headers[t]| <= |hs| && |rest[t]| <= |more|
      requires n == (if |receivers| < perHeader then |receivers| else perHeader)
      requires hs[key] == Header(|receivers| % RECEIVERS, |rest[t]|, receivers[..n])
      requires forall k | 0 <= k < |headers[t]| && k != key :: hs[k] == headers[t][k]
      requires more[..|rest[t]|] == rest[t] && more[|rest[t]|..] == receivers[n..]
      ensures Receivers(hs, more, perHeader, key) == Some(Cut(receivers))
      ensures forall k | (t, k) in known :: Receivers(hs, more, perHeader, k) == Some(Cut(known[(t, k)]))
    {
      ReceiversWritten(hs, more, perHeader, key, |rest[t]|, receivers);
      forall k | (t, k) in known ensures Receivers(hs, more, perHeader, k) == Some(Cut(known[(t, k)])) {
        assert Receivers(headers[t], rest[t], perHeader, k) == Some(Cut(known[(t, k)]));
        ReceiversFrame(headers[t], rest[t], hs, more, perHeader, k);
      }
    }

    // Populate headers and rest using the key
    method StoreGroups(groups: seq<Group<E>>, key: nat) returns (o: Outcome)
      requires Valid() && GroupsOk(groups, |bitmaps|)
      requires forall i | 0 <= i < |groups| :: groups[i].receivers != []
      requires forall i | 0 <= i < |groups| :: bitmaps[groups[i].threadId].IsSet(key)
      requires forall i | 0 <= i < |groups| :: (groups[i].threadId, key) !in known
      modifies this`headers, this`rest, this`known
      ensures o.Value? ==> Valid() && Extended(old(known), known, groups, |groups|, key)
      ensures o.Exited? ==> Exhausted()
    {
      hide Receivers, Bitmap.IsSet, Bitmap.Valid, Valid;
      for i := 0 to |groups|
        invariant Valid() && Extended(old(known), known, groups, i, key)
      {
        ghost var mid := known;
        StillFree(old(known), known, groups, i, key);
        var _ :- StoreGroup(groups[i], key);
        ExtendedBy(old(known), mid, known, groups, i, key);
      }
      return Continue;
    }

    // Add entries to the input tables for the given receivers.  The key is the
    // least that is free on all of their threads, and is meant to stand there for
    // the receivers of the group (the tables hold as many as a 16-bit count says).
    method AddInTableEntries(groups: seq<Group<E>>) returns (r: Result<nat>)
      requires Valid() && GroupsOk(groups, |bitmaps|)
      requires forall i | 0 <= i < |groups| :: groups[i].receivers != []
      modifies this`headers, this`rest, this`known, bitmaps
      ensures r.Value? ==> Valid() && r.value < 0xffff
      ensures r.Value? ==> !old(TakenBy(groups, |groups|, r.value)) && old(TakenBelow(groups, r.value))
      ensures r.Value? ==> Extended(old(known), known, groups, |groups|, r.value)
      ensures r.Exited? ==> Exhausted()
    {
      hide Receivers, Bitmap.Valid, TakenBelow;
      var key := FindKey(groups);
      if key >= 0xffff {
        assert bitmaps[groups[0].threadId].IsSet(key);
        return Exited;
      }
      var _ :- StoreGroups(groups, key);
      return Value(key);
    }
  }

  // The key now stands for the receivers of the first n groups, and nothing
  // that was known before has changed
  ghost predicate Extended<E>(known: Known<E>, known': Known<E>, groups: seq<Group<E>>,
                              n: nat, key: nat)
    requires n <= |groups|
  {
    && (forall a | a in known :: a in known' && known'[a] == known[a])
    && (forall a | a in known' ::
          a in known || (a.1 == key && exists i :: 0 <= i < n && groups[i].threadId == a.0))
    && (forall i | 0 <= i < n :: Entry(known', groups[i], key))
  }

  // No list is too long for its header
  ghost predicate Short<E>(known: Known<E>) {
    forall a | a in known :: |known[a]| < RECEIVERS
  }

  lemma StaysShort<E>(known: Known<E>, known': Known<E>, groups: seq<Group<E>>, key: nat)
    requires Extended(known, known', groups, |groups|, key) && Short(known)
    requires forall i | 0 <= i < |groups| :: |groups[i].receivers| < RECEIVERS
    ensures Short(known')
  {
    forall a | a in known' ensures |known'[a]| < RECEIVERS {
      if a !in known {
        var i :| 0 <= i < |groups| && groups[i].threadId == a.0;
        assert Entry(known', groups[i], key);
      }
    }
  }

  ghost predicate Entry<E>(known: Known<E>, g: Group<E>, key: nat) {
    (g.threadId, key) in known && known[(g.threadId, key)] == g.receivers
  }

  lemma StillFree<E>(known: Known<E>, known': Known<E>, groups: seq<Group<E>>, i: nat, key: nat)
    requires i < |groups| && Extended(known, known', groups, i, key)
    requires forall j | 0 <= j < i :: groups[j].threadId != groups[i].threadId
    requires (groups[i].threadId, key) !in known
    ensures (groups[i].threadId, key) !in known'
  {
  }

  lemma ExtendedBy<E>(known: Known<E>, mid: Known<E>, known': Known<E>,
                      groups: seq<Group<E>>, i: nat, key: nat)
    requires i < |groups| && Extended(known, mid, groups, i, key)
    requires (groups[i].threadId, key) !in mid
    requires var g := groups[i];
      known' == mid[(g.threadId, key) := g.receivers]
    ensures Extended(known, known', groups, i + 1, key)
  {
    forall j | 0 <= j < i + 1 ensures Entry(known', groups[j], key) {
      if j < i {
        assert Entry(mid, groups[j], key);
      }
    }
  }

  // Headers that the source allocates without initialising
  method Uninitialised<E>(n: nat) returns (hs: seq<Header<E>>)
    ensures |hs| == n
  {
    hs := seq(n, _ => Header(0, 0, []));
  }
}
