// The routing table of one board, built record by record and closed key by key.
module ProgRouters {
  import opened Wrappers
  import opened RoutingRecords

  // ---------------------------------------------------------------------
  // What the bytes of a table say, as predicates on values

  // From beat s on, table t holds complete beats with the records w
  ghost predicate ClosedStored(t: seq<byte>, s: nat, w: seq<seq<Record>>) {
    && 32 * (s + |w|) <= |t|
    && forall k | s <= k < s + |w| :: DecodeBeat(Beat(t, k)) == Some(w[k - s])
  }

  // From beat s on, table t holds the beats of the key under construction;
  // the last of them is still open: its size has not been written.
  ghost predicate WorkStored(t: seq<byte>, s: nat, work: seq<seq<Record>>) {
    && work != []
    && |t| == 32 * (s + |work|)
    && ClosedStored(t, s, work[..|work| - 1])
    && Stored(Beat(t, s + |work| - 1), 0, work[|work| - 1])
  }

  // Number of beats looked up together from beat i of an n-beat key
  function BlockLen(n: nat, i: nat): nat
    requires i <= n
  {
    if n - i < MAX_LOOKUP then n - i else MAX_LOOKUP
  }

  // Every 31st beat starts with an indirection and no other beat has one; those
  // below beat `linked` already lead to the beats that follow them.
  ghost predicate Chained(work: seq<seq<Record>>, ram: nat, s: nat, linked: int) {
    forall i | 0 <= i < |work| :: BeatChained(work[i], |work|, i, ram, s, linked)
  }

  ghost predicate BeatChained(beat: seq<Record>, n: nat, i: nat, ram: nat, s: nat, linked: int)
    requires i < n
  {
    if i % MAX_LOOKUP == 30 then
      && beat != [] && beat[0].IND? && Inds(beat[1..]) == []
      && (i < linked ==> beat[0].newKey == MakeKey(ram, s + i + 1, BlockLen(n, i + 1)))
    else Inds(beat) == []
  }

  // Index of the beat that holds the most recent indirection (-1 if none)
  function LastInd(n: nat): int { n / MAX_LOOKUP * MAX_LOOKUP - 1 }

  // A closed key is read from the first `bound` beats of its RAM alone
  ghost predicate KeyHolds(t: seq<byte>, ram: nat, bound: nat, key: nat, rs: seq<Record>)
    requires |t| % 32 == 0 && bound <= |t| / 32
  {
    && KeyRam(key) == ram
    && 0 < KeyLen(key)
    && 0 <= KeyBeat(key) <= bound
    && Lookup(DecodeRam(t)[..bound], ram, KeyBeat(key), KeyLen(key)) == Some(rs)
  }

  // ---------------------------------------------------------------------
  // Reading back a chain of beats

  lemma NoInds()
    ensures Inds([]) == []
  {
  }

  lemma {:induction false} NoIndsConcat(w: seq<seq<Record>>)
    requires forall i | 0 <= i < |w| :: Inds(w[i]) == []
    ensures Inds(Concat(w)) == []
  {
    if w != [] {
      NoIndsConcat(w[1..]);
      IndsAppend(w[0], Concat(w[1..]));
    }
  }

  lemma {:induction false} NonIndsId(rs: seq<Record>)
    requires Inds(rs) == []
    ensures NonInds(rs) == rs
  {
    if rs != [] {
      NonIndsId(rs[1..]);
    }
  }

  // The beats looked up together from beat `at` of a chain
  function Block(work: seq<seq<Record>>, at: nat): seq<seq<Record>>
    requires at <= |work|
  {
    work[at..at + BlockLen(|work|, at)]
  }

  // A lookup of 31 beats meets exactly one indirection, which leads to the
  // beats behind them; a shorter one meets none
  lemma BlockInds(work: seq<seq<Record>>, ram: nat, s: nat, at: nat)
    requires Chained(work, ram, s, |work|) && at % MAX_LOOKUP == 0 && at <= |work|
    ensures Inds(Concat(Block(work, at))) ==
      if |Block(work, at)| == MAX_LOOKUP then [MakeKey(ram, s + at + 31, BlockLen(|work|, at + 31))] else []
  {
    hide Concat, MakeKey, Inds;
    var block := Block(work, at);
    forall i | 0 <= i < |block|
      ensures block[i] == work[at + i]
      ensures BeatChained(block[i], |work|, at + i, ram, s, |work|) && (at + i) % MAX_LOOKUP == i
    {
      BlockAt(at, i);
    }
    if |block| == MAX_LOOKUP {
      LastInds(block);
    } else {
      NoIndsConcat(block);
    }
  }

  lemma BlockAt(at: nat, i: nat)
    requires at % MAX_LOOKUP == 0 && i < MAX_LOOKUP
    ensures (at + i) % MAX_LOOKUP == i
  {
  }

  lemma LastInds(block: seq<seq<Record>>)
    requires |block| == MAX_LOOKUP
    requires forall i | 0 <= i < 30 :: Inds(block[i]) == []
    requires block[30] != [] && block[30][0].IND? && Inds(block[30][1..]) == []
    ensures Inds(Concat(block)) == [block[30][0].newKey]
  {
    hide Concat, Inds;
    assert block == block[..30] + [block[30]];
    ConcatAppend(block[..30], [block[30]]);
    NoIndsConcat(block[..30]);
    ConcatOne(block[30]);
    IndsAppend(Concat(block[..30]), block[30]);
    IndsHead(block[30]);
  }

  lemma IndsHead(beat: seq<Record>)
    requires beat != [] && beat[0].IND? && Inds(beat[1..]) == []
    ensures Inds(beat) == [beat[0].newKey]
  {
  }

  lemma ConcatOne(beat: seq<Record>)
    ensures Concat([beat]) == beat
  {
    assert Concat([]) == [] && beat + [] == beat;
  }

  // The beats from s on decode to w
  ghost predicate Says(v: Beats, s: nat, w: seq<seq<Record>>) {
    s + |w| <= |v| && forall k | s <= k < s + |w| :: v[k] == Some(w[k - s])
  }

  lemma SaysBlock(v: Beats, s: nat, w: seq<seq<Record>>, lo: nat, hi: nat)
    requires Says(v, s, w) && lo <= hi <= |w|
    ensures Says(v, s + lo, w[lo..hi])
  {
  }

  lemma LookupFlat(v: Beats, ram: nat, ptr: nat, w: seq<seq<Record>>)
    requires Says(v, ptr, w)
    requires |w| < MAX_LOOKUP && forall i | 0 <= i < |w| :: Inds(w[i]) == []
    ensures Lookup(v, ram, ptr, |w|) == Some(NonInds(Concat(w)))
  {
    hide Concat, Flatten, Inds, NonInds;
    FlattenConcat(v[ptr..ptr + |w|], w);
    NoIndsConcat(w);
    NonIndsId(Concat(w));
  }

  lemma LookupJump(v: Beats, ram: nat, ptr: nat, w: seq<seq<Record>>, key: nat, rest: seq<Record>)
    requires Says(v, ptr, w)
    requires Inds(Concat(w)) == [key]
    requires KeyRam(key) == ram && ptr < KeyBeat(key) <= |v|
    requires Lookup(v, ram, KeyBeat(key), KeyLen(key)) == Some(rest)
    ensures Lookup(v, ram, ptr, |w|) == Some(NonInds(Concat(w)) + rest)
  {
    hide Concat, Flatten, Inds, NonInds;
    FlattenConcat(v[ptr..ptr + |w|], w);
  }

  // Looking up a linked chain yields its records in order, without indirections
  lemma {:induction false} ChainLookup(v: Beats, ram: nat, s: nat, work: seq<seq<Record>>, at: nat)
    requires ram < 2 && 32 * |v| < 0x4000_0000
    requires Says(v, s, work)
    requires Chained(work, ram, s, |work|)
    requires at % MAX_LOOKUP == 0 && at <= |work|
    ensures Lookup(v, ram, s + at, BlockLen(|work|, at)) == Some(NonInds(Concat(work[at..])))
    decreases |work| - at
  {
    hide Inds, NonInds, Concat, Lookup;
    if |work| - at < MAX_LOOKUP {
      forall i | 0 <= i < |work| - at ensures Inds(work[at..][i]) == [] {
        assert (at + i) % MAX_LOOKUP == i;
        assert BeatChained(work[at + i], |work|, at + i, ram, s, |work|);
      }
      SaysBlock(v, s, work, at, |work|);
      assert work[at..|work|] == work[at..];
      LookupFlat(v, ram, s + at, work[at..]);
    } else {
      ChainLookup(v, ram, s, work, at + MAX_LOOKUP);
      ChainStep(v, ram, s, work, at, NonInds(Concat(work[at + MAX_LOOKUP..])));
    }
  }

  lemma ChainStep(v: Beats, ram: nat, s: nat, work: seq<seq<Record>>, at: nat, rest: seq<Record>)
    requires ram < 2 && 32 * |v| < 0x4000_0000
    requires Says(v, s, work)
    requires Chained(work, ram, s, |work|)
    requires at % MAX_LOOKUP == 0 && at + MAX_LOOKUP <= |work|
    requires rest == NonInds(Concat(work[at + MAX_LOOKUP..]))
    requires Lookup(v, ram, s + at + MAX_LOOKUP, BlockLen(|work|, at + MAX_LOOKUP)) == Some(rest)
    ensures Lookup(v, ram, s + at, MAX_LOOKUP) == Some(NonInds(Concat(work[at..])))
  {
    hide Inds, NonInds, Concat, Lookup, Chained;
    var next := at + MAX_LOOKUP;
    BlockInds(work, ram, s, at);
    KeyFields(ram, s + next, BlockLen(|work|, next));
    SaysBlock(v, s, work, at, next);
    LookupJump(v, ram, s + at, work[at..next], MakeKey(ram, s + next, BlockLen(|work|, next)), rest);
    SplitConcat(work, at, next);
  }

  lemma SplitConcat(work: seq<seq<Record>>, at: nat, next: nat)
    requires at <= next <= |work|
    ensures NonInds(Concat(work[at..]))
         == NonInds(Concat(work[at..next])) + NonInds(Concat(work[next..]))
  {
    assert work[at..] == work[at..next] + work[next..];
    ConcatAppend(work[at..next], work[next..]);
    NonIndsAppend(Concat(work[at..next]), Concat(work[next..]));
  }

  lemma {:induction false} DecodedStored(b: seq<byte>, c: nat, n: nat)
    requires |b| == 32 && DecodeFrom(b, c, n).Some?
    ensures Stored(b, c, DecodeFrom(b, c, n).value)
    decreases n
  {
    if n != 0 {
      var first := DecodeAt(b, c).value;
      DecodedStored(b, c + first.Chunks(), n - 1);
      var rest := DecodeFrom(b, c + first.Chunks(), n - 1).value;
      assert ([first] + rest)[1..] == rest;
    }
  }

  // Overwriting the key of an indirection at the head of a beat
  lemma RekeyStored(b: seq<byte>, b': seq<byte>, rs: seq<Record>, key: nat)
    requires |b| == |b'| == 32 && rs != [] && rs[0].IND? && Stored(b, 0, rs)
    requires forall i | 0 <= i < 32 && !(24 <= i < 28) :: b[i] == b'[i]
    requires Le32(b', 24) == key
    ensures Stored(b', 0, [IND(key)] + rs[1..])
  {
    StoredFrame(b, b', 1, rs[1..]);
    assert ([IND(key)] + rs[1..])[1..] == rs[1..];
  }

  lemma RekeyDecoded(b: seq<byte>, b': seq<byte>, rs: seq<Record>, key: nat)
    requires |b| == |b'| == 32 && rs != [] && rs[0].IND? && DecodeBeat(b) == Some(rs)
    requires forall i | 0 <= i < 32 && !(24 <= i < 28) :: b[i] == b'[i]
    requires Le32(b', 24) == key
    ensures DecodeBeat(b') == Some([IND(key)] + rs[1..])
  {
    DecodedStored(b, 0, |rs|);
    RekeyStored(b, b', rs, key);
    StoredDecodes(b', 0, [IND(key)] + rs[1..]);
  }

  // Byte-level equality of two tables outside a range
  ghost predicate SameOutside(t: seq<byte>, t': seq<byte>, lo: nat, hi: nat) {
    |t| == |t'| && forall i | 0 <= i < |t| && !(lo <= i < hi) :: t[i] == t'[i]
  }

  lemma SameBeat(t: seq<byte>, t': seq<byte>, i: nat)
    requires 32 * i + 32 <= |t| && 32 * i + 32 <= |t'|
    requires forall j | 32 * i <= j < 32 * i + 32 :: t[j] == t'[j]
    ensures Beat(t, i) == Beat(t', i)
  {
  }

  lemma ClosedFrame(t: seq<byte>, t': seq<byte>, s: nat, w: seq<seq<Record>>)
    requires ClosedStored(t, s, w) && 32 * (s + |w|) <= |t'|
    requires forall i | 32 * s <= i < 32 * (s + |w|) :: t[i] == t'[i]
    ensures ClosedStored(t', s, w)
  {
    forall k | s <= k < s + |w| ensures DecodeBeat(Beat(t', k)) == Some(w[k - s]) {
      SameBeat(t, t', k);
    }
  }

  function Rekey(work: seq<seq<Record>>, at: nat, key: nat): seq<seq<Record>>
    requires at < |work| && work[at] != []
  {
    work[at := [IND(key)] + work[at][1..]]
  }

  lemma RekeyWork(t: seq<byte>, t': seq<byte>, s: nat, work: seq<seq<Record>>, at: nat, key: nat)
    requires WorkStored(t, s, work) && at < |work| && work[at] != [] && work[at][0].IND?
    requires SameOutside(t, t', 32 * (s + at) + 24, 32 * (s + at) + 28)
    requires Le32(t', 32 * (s + at) + 24) == key
    ensures WorkStored(t', s, Rekey(work, at, key))
  {
    var last := |work| - 1;
    var work' := Rekey(work, at, key);
    if at == last {
      ClosedFrame(t, t', s, work[..last]);
      assert work'[..last] == work[..last];
      RekeyStored(Beat(t, s + at), Beat(t', s + at), work[at], key);
    } else {
      SameBeat(t, t', s + last);
      RekeyClosed(t, t', s, work[..last], at, key);
      assert work'[..last] == Rekey(work[..last], at, key);
    }
  }

  lemma RekeyClosed(t: seq<byte>, t': seq<byte>, s: nat, w: seq<seq<Record>>, at: nat, key: nat)
    requires ClosedStored(t, s, w) && at < |w| && w[at] != [] && w[at][0].IND?
    requires SameOutside(t, t', 32 * (s + at) + 24, 32 * (s + at) + 28)
    requires Le32(t', 32 * (s + at) + 24) == key
    ensures ClosedStored(t', s, Rekey(w, at, key))
  {
    var w' := Rekey(w, at, key);
    forall k | s <= k < s + |w| ensures DecodeBeat(Beat(t', k)) == Some(w'[k - s]) {
      if k == s + at {
        RekeyDecoded(Beat(t, k), Beat(t', k), w[at], key);
      } else {
        SameBeat(t, t', k);
      }
    }
  }

  // Rekeying an indirection does not change the records that are not indirections
  lemma {:induction false} RekeyPending(work: seq<seq<Record>>, at: nat, key: nat)
    requires at < |work| && work[at] != [] && work[at][0].IND?
    ensures NonInds(Concat(Rekey(work, at, key))) == NonInds(Concat(work))
    decreases |work|
  {
    hide Concat, NonInds;
    var last := |work| - 1;
    var work' := Rekey(work, at, key);
    PendingLast(work);
    PendingLast(work');
    if at == last {
      assert work'[..last] == work[..last];
      RekeyBeat(work[last], key);
    } else {
      assert work'[..last] == Rekey(work[..last], at, key);
      RekeyPending(work[..last], at, key);
    }
  }

  lemma RekeyBeat(beat: seq<Record>, key: nat)
    requires beat != [] && beat[0].IND?
    ensures NonInds([IND(key)] + beat[1..]) == NonInds(beat)
  {
    assert ([IND(key)] + beat[1..])[1..] == beat[1..];
  }

  // Writing the size of the open beat and allocating the next one
  lemma ClosedAppend(t: seq<byte>, s: nat, w: seq<seq<Record>>, last: seq<Record>)
    requires ClosedStored(t, s, w) && 32 * (s + |w| + 1) <= |t|
    requires DecodeBeat(Beat(t, s + |w|)) == Some(last)
    ensures ClosedStored(t, s, w + [last])
  {
  }

  lemma OpenStored(t: seq<byte>, s: nat, w: seq<seq<Record>>)
    requires ClosedStored(t, s, w) && |t| == 32 * (s + |w| + 1)
    ensures WorkStored(t, s, w + [[]])
  {
    assert (w + [[]])[..|w|] == w;
  }

  lemma CloseBeat(t: seq<byte>, t': seq<byte>, s: nat, work: seq<seq<Record>>)
    requires WorkStored(t, s, work)
    requires 1 <= |work[|work| - 1]| <= 5 && |t'| == |t| + 32
    requires forall i | 0 <= i < |t| - 2 :: t'[i] == t[i]
    requires t'[|t| - 2] == |work[|work| - 1]| && t'[|t| - 1] == 0
    ensures WorkStored(t', s, work + [[]])
  {
    hide ClosedStored, Stored, DecodeFrom;
    var last := |work| - 1;
    ClosedFrame(t, t', s, work[..last]);
    StoredFrame(Beat(t, s + last), Beat(t', s + last), 0, work[last]);
    StoredDecodes(Beat(t', s + last), 0, work[last]);
    ClosedAppend(t', s, work[..last], work[last]);
    assert work[..last] + [work[last]] == work;
    OpenStored(t', s, work);
  }

  // Placing a record behind those of the open beat
  function Push(work: seq<seq<Record>>, r: Record): seq<seq<Record>>
    requires work != []
  {
    work[|work| - 1 := work[|work| - 1] + [r]]
  }

  lemma PushStored(t: seq<byte>, t': seq<byte>, s: nat, work: seq<seq<Record>>, c: nat, r: Record)
    requires WorkStored(t, s, work) && c == ChunksOf(work[|work| - 1]) && c + r.Chunks() <= 5
    requires SameOutside(t, t', |t| - 2 - 6 * (c + r.Chunks()), |t| - 2 - 6 * c)
    requires DecodeAt(Beat(t', s + |work| - 1), c) == Some(r)
    ensures WorkStored(t', s, Push(work, r))
  {
    hide Stored, DecodeAt, ClosedStored;
    var last := |work| - 1;
    ClosedFrame(t, t', s, work[..last]);
    assert Push(work, r)[..last] == work[..last];
    StoredAppend(Beat(t, s + last), Beat(t', s + last), 0, work[last], r);
  }

  lemma PendingLast(work: seq<seq<Record>>)
    requires work != []
    ensures NonInds(Concat(work))
         == NonInds(Concat(work[..|work| - 1])) + NonInds(work[|work| - 1])
  {
    hide NonInds;
    var front, last := work[..|work| - 1], work[|work| - 1];
    calc {
      NonInds(Concat(work));
      { assert work == front + [last]; }
      NonInds(Concat(front + [last]));
      { ConcatAppend(front, [last]); assert Concat([last]) == last + Concat([]); assert last + [] == last; }
      NonInds(Concat(front) + last);
      { NonIndsAppend(Concat(front), last); }
      NonInds(Concat(front)) + NonInds(last);
    }
  }

  lemma PushPending(work: seq<seq<Record>>, r: Record)
    requires work != []
    ensures NonInds(Concat(Push(work, r))) == NonInds(Concat(work)) + NonInds([r])
  {
    hide NonInds, Concat;
    var front, last := work[..|work| - 1], work[|work| - 1];
    calc {
      NonInds(Concat(Push(work, r)));
      { PendingLast(Push(work, r)); assert Push(work, r)[..|work| - 1] == front; }
      NonInds(Concat(front)) + NonInds(last + [r]);
      { NonIndsAppend(last, [r]); }
      NonInds(Concat(front)) + (NonInds(last) + NonInds([r]));
      { Assoc(NonInds(Concat(front)), NonInds(last), NonInds([r])); }
      (NonInds(Concat(front)) + NonInds(last)) + NonInds([r]);
      { PendingLast(work); }
      NonInds(Concat(work)) + NonInds([r]);
    }
  }

  lemma OpenPending(work: seq<seq<Record>>)
    ensures NonInds(Concat(work + [[]])) == NonInds(Concat(work))
  {
    PendingLast(work + [[]]);
    assert (work + [[]])[..|work|] == work;
  }

  lemma PushChained(work: seq<seq<Record>>, r: Record, ram: nat, s: nat, linked: int)
    requires work != [] && !r.IND? && Chained(work, ram, s, linked)
    ensures Chained(Push(work, r), ram, s, linked)
  {
    var last := |work| - 1;
    if last % MAX_LOOKUP == 30 {
      assert (work[last] + [r])[1..] == work[last][1..] + [r];
      IndsAppend(work[last][1..], [r]);
    } else {
      IndsAppend(work[last], [r]);
    }
  }

  // The first beats of a table stay as they are
  ghost predicate Kept(t: seq<byte>, t': seq<byte>, beats: int) {
    forall i | 0 <= i < 32 * beats && i < |t| && i < |t'| :: t[i] == t'[i]
  }

  // Closed keys only read the closed part of their RAM
  lemma KeyFrame(t: seq<byte>, t': seq<byte>, ram: nat, bound: nat, bound': nat, key: nat, rs: seq<Record>)
    requires |t| % 32 == |t'| % 32 == 0 && bound <= |t| / 32 && bound <= bound' <= |t'| / 32
    requires Kept(t, t', bound)
    requires KeyHolds(t, ram, bound, key, rs)
    ensures KeyHolds(t', ram, bound', key, rs)
  {
    var v, v' := DecodeRam(t)[..bound], DecodeRam(t')[..bound'];
    forall i | 0 <= i < bound ensures v[i] == v'[i] {
      SameBeat(t, t', i);
    }
    LookupExtend(v, v', ram, KeyBeat(key), KeyLen(key));
  }

  // ---------------------------------------------------------------------
  // The router under construction

  function SetByte(t: seq<byte>, i: nat, b: byte): (t': seq<byte>)
    requires i < |t|
    ensures |t'| == |t|
  {
    t[i := b]
  }

  // Memory that the source allocates without initialising
  method Uninitialised(n: nat) returns (bytes: seq<byte>)
    ensures |bytes| == n
  {
    bytes := seq(n, _ => 0);
  }

  // Number of complete beats that closed keys may use in a RAM
  function Bound(table: seq<seq<byte>>, currentRAM: nat, numBeats: nat, ram: nat): int
    requires |table| == 2 && ram < 2
  {
    |table[ram]| / 32 - (if ram == currentRAM then numBeats else 1)
  }

  ghost predicate KeysHold(table: seq<seq<byte>>, currentRAM: nat, numBeats: nat,
                           keys: map<nat, seq<Record>>)
    requires |table| == 2 && |table[0]| % 32 == |table[1]| % 32 == 0
  {
    forall key | key in keys :: KeyIn(table, currentRAM, numBeats, key, keys[key])
  }

  ghost predicate KeyIn(table: seq<seq<byte>>, currentRAM: nat, numBeats: nat,
                        key: nat, rs: seq<Record>)
    requires |table| == 2 && |table[0]| % 32 == |table[1]| % 32 == 0
  {
    && KeyRam(key) < 2
    && 0 <= Bound(table, currentRAM, numBeats, KeyRam(key)) <= |table[KeyRam(key)]| / 32
    && KeyHolds(table[KeyRam(key)], KeyRam(key),
                Bound(table, currentRAM, numBeats, KeyRam(key)), key, rs)
  }

  lemma KeysFrame(table: seq<seq<byte>>, ram: nat, beats: nat,
                  table': seq<seq<byte>>, ram': nat, beats': nat, keys: map<nat, seq<Record>>)
    requires |table| == |table'| == 2
    requires |table[0]| % 32 == |table[1]| % 32 == |table'[0]| % 32 == |table'[1]| % 32 == 0
    requires KeysHold(table, ram, beats, keys)
    requires Bound(table, ram, beats, 0) <= Bound(table', ram', beats', 0) <= |table'[0]| / 32
    requires Bound(table, ram, beats, 1) <= Bound(table', ram', beats', 1) <= |table'[1]| / 32
    requires Kept(table[0], table'[0], Bound(table, ram, beats, 0))
    requires Kept(table[1], table'[1], Bound(table, ram, beats, 1))
    ensures KeysHold(table', ram', beats', keys)
  {
    hide KeyHolds, Kept;
    forall key | key in keys ensures KeyIn(table', ram', beats', key, keys[key]) {
      assert KeyIn(table, ram, beats, key, keys[key]);
      var r := KeyRam(key);
      var lo, hi := Bound(table, ram, beats, r), Bound(table', ram', beats', r);
      assert Kept(table[r], table'[r], lo);
      KeyFrame(table[r], table'[r], r, lo, hi, key, keys[key]);
    }
  }

  lemma NonEmpty(rs: seq<Record>)
    ensures ChunksOf(rs) > 0 ==> rs != []
  {
  }

  lemma {:induction false} CountChunks(rs: seq<Record>)
    ensures |rs| <= ChunksOf(rs)
  {
    if rs != [] {
      CountChunks(rs[1..]);
    }
  }

  // The beats of the current key after another one is begun.  Every 31st beat
  // starts with an indirection; the previous indirection is then linked to the
  // 31 beats just allocated.  g stands for the bytes found in the new key field.
  ghost function NextWork(w: seq<seq<Record>>, ram: nat, s: nat, g: nat): seq<seq<Record>>
    requires w != [] && Chained(w, ram, s, LastInd(|w|))
  {
    if (|w| + 1) % MAX_LOOKUP != 0 then w + [[]] else Push(Linked(w, ram, s), IND(g))
  }

  ghost function Linked(w: seq<seq<Record>>, ram: nat, s: nat): (u: seq<seq<Record>>)
    requires w != [] && Chained(w, ram, s, LastInd(|w|))
    ensures |u| == |w| + 1 && u[|w|] == []
  {
    Relinked(w, ram, s) + [[]]
  }

  // The last indirection leads to the next 31 beats
  ghost function Relinked(w: seq<seq<Record>>, ram: nat, s: nat): (u: seq<seq<Record>>)
    requires w != [] && Chained(w, ram, s, LastInd(|w|))
    ensures |u| == |w|
  {
    if |w| < MAX_LOOKUP then w
    else
      LastIndIs(w, ram, s);
      Rekey(w, LastInd(|w|), MakeKey(ram, s + LastInd(|w|) + 1, MAX_LOOKUP))
  }

  lemma LastIndIs(w: seq<seq<Record>>, ram: nat, s: nat)
    requires |w| >= MAX_LOOKUP && Chained(w, ram, s, LastInd(|w|))
    ensures var at := LastInd(|w|);
      0 <= at < |w| && w[at] != [] && w[at][0].IND? && Inds(w[at][1..]) == []
  {
    var at := LastInd(|w|);
    assert BeatChained(w[at], |w|, at, ram, s, at);
  }

  lemma LinkedPending(w: seq<seq<Record>>, ram: nat, s: nat)
    requires w != [] && Chained(w, ram, s, LastInd(|w|))
    ensures NonInds(Concat(Linked(w, ram, s))) == NonInds(Concat(w))
  {
    OpenPending(Relinked(w, ram, s));
    if |w| >= MAX_LOOKUP {
      LastIndIs(w, ram, s);
      RekeyPending(w, LastInd(|w|), MakeKey(ram, s + LastInd(|w|) + 1, MAX_LOOKUP));
    }
  }

  lemma NextWorkLast(w: seq<seq<Record>>, ram: nat, s: nat, g: nat)
    requires w != [] && Chained(w, ram, s, LastInd(|w|))
    ensures var u := NextWork(w, ram, s, g);
      && |u| == |w| + 1
      && u[|w|] == (if |u| % MAX_LOOKUP == 0 then [IND(g)] else [])
      && ChunksOf(u[|w|]) == |u[|w|]|
      && (|u| % MAX_LOOKUP != 0 ==> u == w + [[]])
  {
  }

  lemma NextWorkPending(w: seq<seq<Record>>, ram: nat, s: nat, g: nat)
    requires w != [] && Chained(w, ram, s, LastInd(|w|))
    ensures NonInds(Concat(NextWork(w, ram, s, g))) == NonInds(Concat(w))
  {
    if (|w| + 1) % MAX_LOOKUP != 0 {
      OpenPending(w);
    } else {
      LinkedPending(w, ram, s);
      PushPending(Linked(w, ram, s), IND(g));
    }
  }

  lemma LinkedChained(w: seq<seq<Record>>, ram: nat, s: nat, i: nat, n: nat, at: int)
    requires w != [] && Chained(w, ram, s, LastInd(|w|)) && i < |w| && n == |w| + 1
    requires n % MAX_LOOKUP == 0 && at == LastInd(|w|)
    ensures BeatChained(Linked(w, ram, s)[i], n, i, ram, s, LastInd(n))
  {
    hide Inds;
    assert BeatChained(w[i], |w|, i, ram, s, at);
    assert at == n - 1 - MAX_LOOKUP;
    if i == at {
      assert Linked(w, ram, s)[i] == [IND(MakeKey(ram, s + at + 1, MAX_LOOKUP))] + w[i][1..];
      assert ([IND(MakeKey(ram, s + at + 1, MAX_LOOKUP))] + w[i][1..])[1..] == w[i][1..];
    }
  }

  // The beat just begun: an indirection still to be linked, or nothing
  lemma NewBeatChained(g: nat, n: nat, i: nat, ram: nat, s: nat)
    requires i == n - 1
    ensures BeatChained(if n % MAX_LOOKUP == 0 then [IND(g)] else [], n, i, ram, s, LastInd(n))
  {
    NoInds();
    assert [IND(g)][1..] == [];
  }

  lemma OldBeatChained(w: seq<seq<Record>>, ram: nat, s: nat, i: nat, n: nat)
    requires w != [] && Chained(w, ram, s, LastInd(|w|)) && i < |w| && n == |w| + 1
    requires n % MAX_LOOKUP != 0
    ensures BeatChained(w[i], n, i, ram, s, LastInd(n))
  {
    hide Inds;
    assert BeatChained(w[i], |w|, i, ram, s, LastInd(|w|));
  }

  lemma NextWorkChained(w: seq<seq<Record>>, ram: nat, s: nat, g: nat)
    requires w != [] && Chained(w, ram, s, LastInd(|w|))
    ensures var u := NextWork(w, ram, s, g); Chained(u, ram, s, LastInd(|u|))
  {
    hide Inds, BeatChained, LastInd, Linked;
    var u := NextWork(w, ram, s, g);
    var n := |u|;
    forall i | 0 <= i < n ensures BeatChained(u[i], n, i, ram, s, LastInd(n)) {
      if i == n - 1 {
        NewBeatChained(g, n, i, ram, s);
        assert [] + [IND(g)] == [IND(g)];
      } else if n % MAX_LOOKUP == 0 {
        LinkedChained(w, ram, s, i, n, LastInd(|w|));
      } else {
        OldBeatChained(w, ram, s, i, n);
      }
    }
  }

  lemma LinkedNone(w: seq<seq<Record>>, ram: nat, s: nat)
    requires w != [] && |w| < MAX_LOOKUP && Chained(w, ram, s, LastInd(|w|))
    ensures Linked(w, ram, s) == w + [[]]
  {
  }

  lemma KeptSame(t: seq<byte>, beats: int)
    ensures Kept(t, t, beats)
  {
  }

  lemma KeptTrans(t: seq<byte>, t1: seq<byte>, t2: seq<byte>, beats: nat)
    requires Kept(t, t1, beats) && Kept(t1, t2, beats) && |t| <= |t1|
    ensures Kept(t, t2, beats)
  {
  }

  lemma KeptTwice(t: seq<byte>, t1: seq<byte>, t2: seq<byte>, beats: nat, lo: nat, hi: nat)
    requires Kept(t, t1, beats) && SameOutside(t1, t2, lo, hi)
    requires |t| == |t1| && 32 * beats <= lo
    ensures Kept(t, t2, beats)
  {
  }

  lemma LinkedStored(t: seq<byte>, t': seq<byte>, ram: nat, s: nat, w: seq<seq<Record>>,
                     ind: nat, key: nat)
    requires |w| >= MAX_LOOKUP && Chained(w, ram, s, LastInd(|w|))
    requires WorkStored(t, s, w + [[]])
    requires ind == 32 * (s + LastInd(|w|)) + 24 && SameOutside(t, t', ind, ind + 4)
    requires Le32(t', ind) == key == MakeKey(ram, s + LastInd(|w|) + 1, MAX_LOOKUP)
    ensures WorkStored(t', s, Linked(w, ram, s))
    ensures Kept(t, t', s)
  {
    hide WorkStored, Chained, Inds, Le32, MakeKey;
    var at := LastInd(|w|);
    LastIndIs(w, ram, s);
    assert (w + [[]])[at] == w[at];
    RekeyWork(t, t', s, w + [[]], at, key);
    assert Rekey(w + [[]], at, key) == Rekey(w, at, key) + [[]];
    KeptSame(t, s);
    KeptTwice(t, t, t', s, ind, ind + 4);
  }

  lemma IndAdded(t: seq<byte>, t': seq<byte>, s: nat, u: seq<seq<Record>>, g: nat)
    requires WorkStored(t, s, u) && u[|u| - 1] == []
    requires SameOutside(t, t', |t| - 8, |t| - 2)
    requires t'[|t| - 3] == 128 && g == Le32(t', |t| - 8)
    ensures WorkStored(t', s, Push(u, IND(g)))
  {
    PushStored(t, t', s, u, 0, IND(g));
  }

  // ---------------------------------------------------------------------
  // Encoding one record at a chunk of the open beat

  function Put32(t: seq<byte>, p: nat, word: nat): (t': seq<byte>)
    requires p + 4 <= |t|
    ensures |t'| == |t|
  {
    SetByte(SetByte(SetByte(SetByte(t, p, word % 0x100), p + 1, word / 0x100 % 0x100),
                    p + 2, word / 0x1_0000 % 0x100), p + 3, word / 0x100_0000 % 0x100)
  }

  lemma Put32Reads(t: seq<byte>, p: nat, word: nat)
    requires p + 4 <= |t| && word < 0x1_0000_0000
    ensures Le32(Put32(t, p, word), p) == word
    ensures SameOutside(t, Put32(t, p, word), p, p + 4)
  {
    Le32Bytes(word);
  }

  // The fields of the byte at the top of a record
  lemma TopByte(tag: nat, x: nat, y: nat, bit: nat)
    requires tag < 8 && x < 4 && y < 4 && bit < 2
    ensures var top := tag * 32 + y * 8 + x * 2 + bit;
      top < 256 && top / 32 == tag && (top / 2) % 4 == x && (top / 8) % 4 == y && top % 2 == bit
  {
    var top := tag * 32 + y * 8 + x * 2 + bit;
    assert top / 2 == tag * 16 + y * 4 + x;
    assert top / 8 == tag * 4 + y;
  }

  lemma BeatAt(t: seq<byte>, last: nat, i: nat)
    requires |t| == 32 * last + 32 && i < 32
    ensures Beat(t, last)[i] == t[32 * last + i]
  {
  }

  lemma BeatLe32(t: seq<byte>, last: nat, i: nat)
    requires |t| == 32 * last + 32 && i + 4 <= 32
    ensures Le32(Beat(t, last), i) == Le32(t, 32 * last + i)
  {
    BeatAt(t, last, i);
    BeatAt(t, last, i + 1);
    BeatAt(t, last, i + 2);
    BeatAt(t, last, i + 3);
  }

  lemma Le32Same(t: seq<byte>, t': seq<byte>, p: nat)
    requires p + 4 <= |t| == |t'| && forall i | p <= i < p + 4 :: t[i] == t'[i]
    ensures Le32(t, p) == Le32(t', p)
  {
  }

  lemma EncodedRR(t: seq<byte>, t': seq<byte>, last: nat, c: nat, dir: nat, key: nat)
    requires |t| == 32 * last + 32 && c < 5 && RR(dir, key).Fits()
    requires t' == SetByte(Put32(t, 32 * last + 6 * (4 - c), key),
                           32 * last + 6 * (4 - c) + 5, 2 * 32 + dir * 8)
    ensures DecodeAt(Beat(t', last), c) == Some(RR(dir, key))
    ensures SameOutside(t, t', |t| - 2 - 6 * (c + 1), |t| - 2 - 6 * c)
  {
    hide Put32, Le32, Beat;
    var p := 32 * last + 6 * (4 - c);
    Put32Reads(t, p, key);
    Le32Same(Put32(t, p, key), t', p);
    BeatLe32(t', last, 24 - 6 * c);
    BeatAt(t', last, 29 - 6 * c);
    TopByte(2, 0, dir, 0);
  }

  lemma EncodedURM1(t: seq<byte>, t': seq<byte>, last: nat, c: nat,
                    mboxX: nat, mboxY: nat, thread: nat, key: nat)
    requires |t| == 32 * last + 32 && c < 5 && URM1(mboxX, mboxY, thread, key).Fits()
    requires t' == SetByte(SetByte(Put32(t, 32 * last + 6 * (4 - c), key),
                                   32 * last + 6 * (4 - c) + 4, thread * 8 % 0x100),
                           32 * last + 6 * (4 - c) + 5, mboxY * 8 + mboxX * 2 + thread / 32)
    ensures DecodeAt(Beat(t', last), c) == Some(URM1(mboxX, mboxY, thread, key))
    ensures SameOutside(t, t', |t| - 2 - 6 * (c + 1), |t| - 2 - 6 * c)
  {
    hide Put32, Le32, Beat;
    var p := 32 * last + 6 * (4 - c);
    Put32Reads(t, p, key);
    Le32Same(Put32(t, p, key), t', p);
    BeatLe32(t', last, 24 - 6 * c);
    BeatAt(t', last, 29 - 6 * c);
    BeatAt(t', last, 28 - 6 * c);
    TopByte(0, mboxX, mboxY, thread / 32);
    assert thread * 8 % 0x100 / 8 == thread % 32;
  }

  lemma EncodedMRM(t: seq<byte>, t': seq<byte>, last: nat, c: nat,
                   mboxX: nat, mboxY: nat, hi: nat, lo: nat, key: nat)
    requires |t| == 32 * last + 32 && c < 4 && MRM(mboxX, mboxY, hi, lo, key).Fits()
    requires var p := 32 * last + 6 * (3 - c);
      t' == SetByte(SetByte(SetByte(Put32(Put32(t, p, lo), p + 4, hi), p + 8, key % 0x100),
                            p + 9, key / 0x100 % 0x100), p + 11, 3 * 32 + mboxY * 8 + mboxX * 2)
    ensures DecodeAt(Beat(t', last), c) == Some(MRM(mboxX, mboxY, hi, lo, key))
    ensures SameOutside(t, t', |t| - 2 - 6 * (c + 2), |t| - 2 - 6 * c)
  {
    hide Put32, Le32, Beat;
    var p := 32 * last + 6 * (3 - c);
    var t1 := Put32(t, p, lo);
    var t2 := Put32(t1, p + 4, hi);
    Put32Reads(t, p, lo);
    Put32Reads(t1, p + 4, hi);
    Le32Same(t1, t', p);
    Le32Same(t2, t', p + 4);
    BeatLe32(t', last, 18 - 6 * c);
    BeatLe32(t', last, 22 - 6 * c);
    BeatAt(t', last, 29 - 6 * c);
    BeatAt(t', last, 26 - 6 * c);
    BeatAt(t', last, 27 - 6 * c);
    TopByte(3, mboxX, mboxY, 0);
  }

  // The state of a router once record r is in its open beat
  lemma PushValid(table: seq<seq<byte>>, table': seq<seq<byte>>, ram: nat, s: nat,
                  w: seq<seq<Record>>, c: nat, r: Record, keys: map<nat, seq<Record>>)
    requires |table| == |table'| == 2 && ram < 2 && RamOk(table[0]) && RamOk(table[1])
    requires table' == table[ram := table'[ram]] && s == |table[ram]| / 32 - |w|
    requires WorkStored(table[ram], s, w) && c == ChunksOf(w[|w| - 1]) && c + r.Chunks() <= 5
    requires SameOutside(table[ram], table'[ram], |table[ram]| - 2 - 6 * (c + r.Chunks()),
                         |table[ram]| - 2 - 6 * c)
    requires DecodeAt(Beat(table'[ram], s + |w| - 1), c) == Some(r)
    requires !r.IND? && Chained(w, ram, s, LastInd(|w|)) && KeysHold(table, ram, |w|, keys)
    ensures var u := Push(w, r);
      && |u| == |w|
      && WorkStored(table'[ram], s, u)
      && Chained(u, ram, s, LastInd(|u|))
      && NonInds(Concat(u)) == NonInds(Concat(w)) + [r]
      && |u[|w| - 1]| == |w[|w| - 1]| + 1 && ChunksOf(u[|w| - 1]) == c + r.Chunks()
    ensures KeysHold(table', ram, |w|, keys)
  {
    hide Chained, KeysHold, Lookup;
    PushStored(table[ram], table'[ram], s, w, c, r);
    PushChained(w, r, ram, s, LastInd(|w|));
    PushPending(w, r);
    ChunksAppend(w[|w| - 1], r);
    KeysFrame(table, ram, |w|, table', ram, |w|, keys);
  }

  lemma NextWorkValid(ram: nat, s: nat, w: seq<seq<Record>>, g: nat)
    requires w != [] && Chained(w, ram, s, LastInd(|w|))
    ensures var u := NextWork(w, ram, s, g);
      && |u| == |w| + 1
      && Chained(u, ram, s, LastInd(|u|))
      && NonInds(Concat(u)) == NonInds(Concat(w))
      && |u[|w|]| == ChunksOf(u[|w|]) == (if |u| % MAX_LOOKUP == 0 then 1 else 0)
      && (|u| % MAX_LOOKUP != 0 ==> u == w + [[]])
  {
    hide Chained, Concat, NonInds, NextWork, ChunksOf, LastInd;
    NextWorkLast(w, ram, s, g);
    NextWorkPending(w, ram, s, g);
    NextWorkChained(w, ram, s, g);
  }

  // Allocating a beat leaves the keys handed out so far as they are
  lemma NextBeatKeys(table: seq<seq<byte>>, table': seq<seq<byte>>, ram: nat, s: nat, beats: nat,
                     keys: map<nat, seq<Record>>)
    requires |table| == |table'| == 2 && ram < 2
    requires RamOk(table[0]) && RamOk(table[1]) && |table'[ram]| == |table[ram]| + 32
    requires table' == table[ram := table'[ram]] && s == |table[ram]| / 32 - beats
    requires Kept(table[ram], table'[ram], s) && beats > 0
    requires KeysHold(table, ram, beats, keys)
    ensures KeysHold(table', ram, beats + 1, keys)
  {
    hide KeysHold, Kept;
    assert Bound(table, ram, beats, ram) == s;
    KeptSame(table[1 - ram], Bound(table, ram, beats, 1 - ram));
    KeysFrame(table, ram, beats, table', ram, beats + 1, keys);
  }

  predicate RamOk(t: seq<byte>) {
    |t| % 32 == 0 && 32 <= |t| < TABLE_LENGTH - 1024
  }

  lemma LastLinked(table: seq<seq<byte>>, table': seq<seq<byte>>, ram: nat, s: nat,
                   w: seq<seq<Record>>, ind: nat, key: nat, keys: map<nat, seq<Record>>)
    requires |table| == |table'| == 2 && ram < 2 && RamOk(table[0]) && RamOk(table[1])
    requires table' == table[ram := table'[ram]] && s == |table[ram]| / 32 - |w|
    requires |w| >= MAX_LOOKUP && Chained(w, ram, s, LastInd(|w|)) && WorkStored(table[ram], s, w)
    requires ind == 32 * (s + LastInd(|w|)) + 24 && SameOutside(table[ram], table'[ram], ind, ind + 4)
    requires Le32(table'[ram], ind) == key == MakeKey(ram, s + |w| - |w| % 31, |w| % 31)
    requires KeysHold(table, ram, |w|, keys)
    ensures 0 <= LastInd(|w|) < |w| && w[LastInd(|w|)] != []
    ensures var u := Rekey(w, LastInd(|w|), key);
      && |u| == |w| && WorkStored(table'[ram], s, u)
      && Chained(u, ram, s, |u|) && Chained(u, ram, s, LastInd(|u|))
      && NonInds(Concat(u)) == NonInds(Concat(w))
      && |u[|w| - 1]| == |w[|w| - 1]| && ChunksOf(u[|w| - 1]) == ChunksOf(w[|w| - 1])
    ensures KeysHold(table', ram, |w|, keys)
  {
    hide WorkStored, Chained, KeysHold, NonInds, Concat, Inds, Kept;
    var at := LastInd(|w|);
    LastIndIs(w, ram, s);
    RekeyWork(table[ram], table'[ram], s, w, at, key);
    RekeyPending(w, at, key);
    RekeyLast(w, ram, s, key);
    RekeyChunks(w[at], key);
    KeptSame(table[ram], s);
    KeptTwice(table[ram], table[ram], table'[ram], s, ind, ind + 4);
    KeptSame(table[1 - ram], Bound(table, ram, |w|, 1 - ram));
    KeysFrame(table, ram, |w|, table', ram, |w|, keys);
  }

  lemma RekeyChunks(beat: seq<Record>, key: nat)
    requires beat != [] && beat[0].IND?
    ensures ChunksOf([IND(key)] + beat[1..]) == ChunksOf(beat)
  {
    assert ([IND(key)] + beat[1..])[1..] == beat[1..];
  }

  lemma RekeyLast(w: seq<seq<Record>>, ram: nat, s: nat, key: nat)
    requires |w| >= MAX_LOOKUP && Chained(w, ram, s, LastInd(|w|))
    requires key == MakeKey(ram, s + |w| - |w| % 31, |w| % 31)
    ensures 0 <= LastInd(|w|) < |w| && w[LastInd(|w|)] != []
    ensures var u := Rekey(w, LastInd(|w|), key);
      Chained(u, ram, s, |u|) && Chained(u, ram, s, LastInd(|u|))
  {
    hide Inds;
    var n, at := |w|, LastInd(|w|);
    LastIndIs(w, ram, s);
    var u := Rekey(w, at, key);
    forall i | 0 <= i < n
      ensures BeatChained(u[i], n, i, ram, s, n) && BeatChained(u[i], n, i, ram, s, at)
    {
      assert BeatChained(w[i], n, i, ram, s, at);
      if i == at {
        assert u[i][1..] == w[i][1..];
      }
    }
  }

  lemma NothingToLink(w: seq<seq<Record>>, ram: nat, s: nat)
    requires |w| < MAX_LOOKUP && Chained(w, ram, s, LastInd(|w|))
    ensures Chained(w, ram, s, |w|)
  {
    hide Inds;
    forall i | 0 <= i < |w| ensures BeatChained(w[i], |w|, i, ram, s, |w|) {
      assert BeatChained(w[i], |w|, i, ram, s, LastInd(|w|));
    }
  }

  lemma ClosedSays(t: seq<byte>, s: nat, w: seq<seq<Record>>)
    requires |t| % 32 == 0 && ClosedStored(t, s, w)
    ensures Says(DecodeRam(t)[..s + |w|], s, w)
  {
    hide DecodeBeat, Beat;
  }

  lemma WorkClosed(t: seq<byte>, s: nat, w: seq<seq<Record>>)
    requires WorkStored(t, s, w + [[]])
    ensures |t| == 32 * (s + |w| + 1) && ClosedStored(t, s, w)
  {
    hide ClosedStored, Stored;
    assert (w + [[]])[..|w|] == w;
  }

  // ---------------------------------------------------------------------
  // Keys of 30 beats modulo 31

  // The last beat of a block of 31 holds nothing but an indirection to nothing
  ghost predicate LeadsNowhere(rams: seq<Beats>, ram: nat, ptr: nat) {
    && ram < |rams| && ptr + MAX_LOOKUP <= |rams[ram]|
    && var last := rams[ram][ptr + 30];
       last.Some? && |last.value| == 1 && last.value[0].IND? && Resolve(rams, last.value[0].newKey) == Some([])
  }

  // The same for the last 31 beats of a table
  ghost predicate EndsNowhere(table: seq<seq<byte>>, ram: nat) {
    && |table| == 2 && ram < 2 && |table[0]| % 32 == 0 && |table[1]| % 32 == 0 && |table[ram]| / 32 >= MAX_LOOKUP
    && LeadsNowhere(Rams(table), ram, |table[ram]| / 32 - MAX_LOOKUP)
  }

  // The last beat of a table starts with an indirection
  ghost predicate EndsWithInd(t: seq<byte>) {
    |t| % 32 == 0 && |t| >= 32
    && var first := DecodeAt(Beat(t, |t| / 32 - 1), 0);
       first.Some? && first.value.IND?
  }

  // What the tables say about a key
  ghost predicate Decodes(table: seq<seq<byte>>, key: nat, rs: seq<Record>) {
    |table| == 2 && |table[0]| % 32 == |table[1]| % 32 == 0 && DecodeKey(table, key) == Some(rs)
  }

  // The key of the n beats from ptr
  ghost predicate KeyOf(key: nat, ram: nat, ptr: nat, n: nat) {
    KeyRam(key) == ram && KeyBeat(key) == ptr && KeyLen(key) == n
  }

  lemma ResolveVia(rams: seq<Beats>, ram: nat, ptr: nat, w: seq<seq<Record>>, key: nat, next: nat)
    requires ram < |rams| && w != [] && KeyOf(key, ram, ptr, |w|) && Says(rams[ram], ptr, w) && Inds(Concat(w)) == [next]
    ensures Resolve(rams, key) == Prepend(NonInds(Concat(w)), Resolve(rams, next))
  {
    hide Flatten, Concat, Inds, NonInds, KeyRam, KeyBeat, KeyLen, Resolve;
    ResolveStep(rams, key);
    FlattenConcat(rams[ram][ptr..ptr + |w|], w);
  }

  lemma {:induction false} FlattenNone(v: Beats, i: nat)
    requires i < |v| && v[i].None?
    ensures Flatten(v).None?
    decreases i
  {
    if i > 0 {
      FlattenNone(v[1..], i - 1);
    }
  }

  ghost predicate Plain(w: seq<seq<Record>>) {
    forall i | 0 <= i < |w| :: Inds(w[i]) == []
  }

  // A lookup of 30 beats without indirections and one beat of unknown content
  lemma LastBlock(rams: seq<Beats>, ram: nat, ptr: nat, w: seq<seq<Record>>, key: nat)
    requires ram < |rams| && |w| == 30 && Says(rams[ram], ptr, w) && ptr + MAX_LOOKUP <= |rams[ram]|
    requires Plain(w) && KeyOf(key, ram, ptr, MAX_LOOKUP)
    ensures Resolve(rams, key) == Some(NonInds(Concat(w))) <==> LeadsNowhere(rams, ram, ptr)
  {
    hide Concat, Flatten, Inds, NonInds, KeyRam, KeyBeat, KeyLen, Resolve;
    ResolveStep(rams, key);
    var v := rams[ram];
    var last := v[ptr + 30];
    if last.None? {
      FlattenNone(v[ptr..ptr + 31], 30);
    } else {
      var x, rs := last.value, Concat(w);
      BlockRecords(v, ptr, w, x);
      OneInd(x);
      if |Inds(x)| == 1 {
        var rest := Resolve(rams, Inds(x)[0]);
        assert Resolve(rams, key) == Prepend(rs + NonInds(x), rest);
        NothingMore(rs, NonInds(x), rest);
      }
    }
  }

  lemma BlockRecords(v: Beats, ptr: nat, w: seq<seq<Record>>, x: seq<Record>)
    requires |w| == 30 && Says(v, ptr, w) && ptr + MAX_LOOKUP <= |v| && v[ptr + 30] == Some(x) && Plain(w)
    ensures var rs := Concat(w);
      && Flatten(v[ptr..ptr + 31]) == Some(rs + x) && Inds(rs + x) == Inds(x)
      && NonInds(rs) == rs && NonInds(rs + x) == rs + NonInds(x)
  {
    hide Concat, Flatten, Inds, NonInds;
    var rs := Concat(w);
    FlattenConcat(v[ptr..ptr + 31], w + [x]);
    ConcatAppend(w, [x]);
    ConcatOne(x);
    NoIndsConcat(w);
    NonIndsId(rs);
    IndsAppend(rs, x);
    NonIndsAppend(rs, x);
  }

  lemma NothingMore(a: seq<Record>, b: seq<Record>, rest: Option<seq<Record>>)
    ensures Prepend(a + b, rest) == Some(a) <==> b == [] && rest == Some([])
  {
    if rest.Some? {
      assert |a + b + rest.value| == |a| + |b| + |rest.value|;
      assert b == [] == rest.value ==> a + b + rest.value == a;
    }
  }

  // Records that are just one indirection
  lemma {:induction false} OneInd(x: seq<Record>)
    ensures |Inds(x)| + |NonInds(x)| == |x|
    ensures |x| == 1 && x[0].IND? ==> Inds(x) == [x[0].newKey] && NonInds(x) == []
    ensures |Inds(x)| == 1 && NonInds(x) == [] ==> |x| == 1 && x[0].IND? && Inds(x) == [x[0].newKey]
    decreases |x|
  {
    if x != [] {
      OneInd(x[1..]);
    }
  }

  // A chain whose last block ends with a beat of unknown content
  lemma {:induction false} ChainEnd(rams: seq<Beats>, ram: nat, s: nat, u: seq<seq<Record>>, at: nat)
    requires ram < 2 == |rams| && 32 * |rams[ram]| < 0x4000_0000 && |u| >= MAX_LOOKUP && |u| % MAX_LOOKUP == 0
    requires Says(rams[ram], s, u[..|u| - 1]) && s + |u| <= |rams[ram]| && Chained(u, ram, s, |u| - 1)
    requires at % MAX_LOOKUP == 0 && at + MAX_LOOKUP <= |u|
    ensures var last := |u| - MAX_LOOKUP;
      Resolve(rams, MakeKey(ram, s + at, MAX_LOOKUP))
        == Prepend(NonInds(Concat(u[at..last])), Resolve(rams, MakeKey(ram, s + last, MAX_LOOKUP)))
    decreases |u| - at
  {
    hide Inds, NonInds, Concat, Resolve, Chained, MakeKey;
    var last, next := |u| - MAX_LOOKUP, at + MAX_LOOKUP;
    var end := Resolve(rams, MakeKey(ram, s + last, MAX_LOOKUP));
    if at == last {
      assert u[at..last] == [];
      NoRecords(end);
    } else {
      ChainEnd(rams, ram, s, u, next);
      var block := u[at..next];
      UnlinkedBlock(u, ram, s, at);
      KeyFields(ram, s + at, MAX_LOOKUP);
      SaysBlock(rams[ram], s, u[..|u| - 1], at, next);
      assert u[..|u| - 1][at..next] == block;
      ResolveVia(rams, ram, s + at, block, MakeKey(ram, s + at, MAX_LOOKUP), MakeKey(ram, s + next, MAX_LOOKUP));
      SplitConcat(u[..last], at, next);
      assert u[..last][at..] == u[at..last] && u[..last][at..next] == block && u[..last][next..] == u[next..last];
      PrependTwice(NonInds(Concat(block)), NonInds(Concat(u[next..last])), end);
    }
  }

  lemma UnlinkedBlock(u: seq<seq<Record>>, ram: nat, s: nat, at: nat)
    requires |u| % MAX_LOOKUP == 0 && Chained(u, ram, s, |u| - 1)
    requires at % MAX_LOOKUP == 0 && at + 2 * MAX_LOOKUP <= |u|
    ensures Inds(Concat(u[at..at + MAX_LOOKUP])) == [MakeKey(ram, s + at + MAX_LOOKUP, MAX_LOOKUP)]
  {
    hide Concat, MakeKey, Inds;
    var block := u[at..at + MAX_LOOKUP];
    forall i | 0 <= i < 31
      ensures block[i] == u[at + i]
      ensures BeatChained(block[i], |u|, at + i, ram, s, |u| - 1) && (at + i) % MAX_LOOKUP == i
    {
      BlockAt(at, i);
    }
    LastInds(block);
  }

  lemma NoRecords(rest: Option<seq<Record>>)
    ensures Prepend(NonInds(Concat([])), rest) == rest
  {
    if rest.Some? {
      assert [] + rest.value == rest.value;
    }
  }

  lemma PrependTwice(a: seq<Record>, b: seq<Record>, rest: Option<seq<Record>>)
    ensures Prepend(a, Prepend(b, rest)) == Prepend(a + b, rest)
  {
    if rest.Some? {
      Assoc(a, b, rest.value);
    }
  }

  // A record that is counted in a beat but belongs to no key stands in front of
  // the records of the next key, which is then right only if that record is an
  // indirection to nothing
  lemma StrayRecord(rams: seq<Beats>, ram: nat, ptr: nat, x: Record, rs: seq<Record>, key: nat)
    requires ram < |rams| && ptr < |rams[ram]| && rams[ram][ptr] == Some([x] + rs) && Inds(rs) == []
    requires KeyOf(key, ram, ptr, 1)
    ensures Resolve(rams, key) == Some(rs) <==> x.IND? && Resolve(rams, x.newKey) == Some([])
  {
    hide Flatten, KeyRam, KeyBeat, KeyLen, Resolve;
    var all, v := [x] + rs, rams[ram];
    ResolveStep(rams, key);
    assert v[ptr..ptr + 1] == [Some(all)];
    FlattenConcat([Some(all)], [all]);
    ConcatOne(all);
    NonIndsId(rs);
    assert all[1..] == rs;
    assert Inds(all) == IndOf(x) && NonInds(all) == NonIndOf(x) + rs;
    if x.IND? {
      assert NonInds(all) == rs == rs + [];
      NothingMore(rs, [], Resolve(rams, x.newKey));
    } else {
      assert |NonInds(all)| == |rs| + 1;
    }
  }

  // A complete, linked chain of beats answers for its key
  lemma KeyClosed(t: seq<byte>, ram: nat, s: nat, w: seq<seq<Record>>, key: nat)
    requires ram < 2 && w != [] && |t| < TABLE_LENGTH && WorkStored(t, s, w + [[]])
    requires Chained(w, ram, s, |w|) && key == MakeKey(ram, s, BlockLen(|w|, 0))
    ensures |t| == 32 * (s + |w| + 1)
    ensures KeyHolds(t, ram, s + |w|, key, NonInds(Concat(w)))
  {
    hide WorkStored, Chained, NonInds, Concat, Lookup, Says;
    WorkClosed(t, s, w);
    ClosedSays(t, s, w);
    ChainLookup(DecodeRam(t)[..s + |w|], ram, s, w, 0);
    assert w[0..] == w;
    KeyFields(ram, s, BlockLen(|w|, 0));
  }

  lemma NewKey(table: seq<seq<byte>>, ram: nat, beats: nat, ram': nat, s: nat,
               key: nat, rs: seq<Record>, keys: map<nat, seq<Record>>)
    requires |table| == 2 && RamOk(table[0]) && RamOk(table[1]) && ram < 2 && ram' < 2
    requires beats >= 1 && s == Bound(table, ram, beats, ram) >= 0
    requires KeysHold(table, ram, beats, keys)
    requires KeyBeat(key) == s && KeyHolds(table[ram], ram, |table[ram]| / 32 - 1, key, rs)
    ensures key !in keys && KeysHold(table, ram', 1, keys[key := rs])
  {
    if key in keys {
      assert KeyIn(table, ram, beats, key, keys[key]);
    }
    KeptSame(table[0], Bound(table, ram, beats, 0));
    KeptSame(table[1], Bound(table, ram, beats, 1));
    KeysFrame(table, ram, beats, table, ram', 1, keys);
    var keys' := keys[key := rs];
    forall k | k in keys' ensures KeyIn(table, ram', 1, k, keys'[k]) {
      if k != key {
        assert KeyIn(table, ram', 1, k, keys[k]);
      }
    }
  }

  // A chain that the beat opened for the next key has joined
  ghost predicate Joined(table: seq<seq<byte>>, ram: nat, s: nat, u: seq<seq<Record>>) {
    && |table| == 2 && ram < 2 && RamOk(table[0]) && RamOk(table[1])
    && |table[ram]| == 32 * (s + |u|) && WorkStored(table[ram], s, u)
    && |u| > MAX_LOOKUP && |u| % MAX_LOOKUP == 0 && Chained(u, ram, s, |u| - 1) && |u[|u| - 1]| == 1
  }

  lemma LongChain(table: seq<seq<byte>>, ram: nat, s: nat, u: seq<seq<Record>>)
    requires Joined(table, ram, s, u)
    ensures var rams, last := Rams(table), |u| - MAX_LOOKUP;
      Resolve(rams, MakeKey(ram, s, MAX_LOOKUP))
        == Prepend(NonInds(Concat(u[..last])), Resolve(rams, MakeKey(ram, s + last, MAX_LOOKUP)))
  {
    hide Chained, Resolve, Concat, NonInds, Inds, ClosedStored, MakeKey;
    RamBound(table[ram]);
    ClosedPart(table[ram], s, u);
    ChainEnd(Rams(table), ram, s, u, 0);
    assert u[0..|u| - MAX_LOOKUP] == u[..|u| - MAX_LOOKUP];
  }

  lemma LongTail(table: seq<seq<byte>>, ram: nat, s: nat, u: seq<seq<Record>>)
    requires Joined(table, ram, s, u)
    ensures var rams, last := Rams(table), |u| - MAX_LOOKUP;
      var rest := Resolve(rams, MakeKey(ram, s + last, MAX_LOOKUP));
      rest == Some(NonInds(Concat(u[last..|u| - 1]))) <==> LeadsNowhere(rams, ram, s + last)
  {
    hide Chained, Resolve, Concat, NonInds, Inds, LeadsNowhere, ClosedStored, MakeKey;
    var rams, last := Rams(table), |u| - MAX_LOOKUP;
    var tail := u[last..|u| - 1];
    RamBound(table[ram]);
    ClosedPart(table[ram], s, u);
    LastTail(u, ram, s);
    KeyFields(ram, s + last, MAX_LOOKUP);
    assert Says(rams[ram], s + last, tail);
    LastBlock(rams, ram, s + last, tail, MakeKey(ram, s + last, MAX_LOOKUP));
  }

  // Its key takes in that beat
  lemma LongKey(table: seq<seq<byte>>, ram: nat, s: nat, u: seq<seq<Record>>)
    requires Joined(table, ram, s, u)
    ensures Resolve(Rams(table), MakeKey(ram, s, MAX_LOOKUP)) == Some(NonInds(Concat(u)))
      <==> LeadsNowhere(Rams(table), ram, s + |u| - MAX_LOOKUP)
  {
    hide Chained, Resolve, Concat, NonInds, Inds, LeadsNowhere, WorkStored, DecodeRam, Prepend, MakeKey;
    var rams, n, last := Rams(table), |u| - 1, |u| - MAX_LOOKUP;
    LongChain(table, ram, s, u);
    LongTail(table, ram, s, u);
    SplitConcat(u[..n], 0, last);
    assert u[..n][0..] == u[..n] && u[..n][0..last] == u[..last] && u[..n][last..] == u[last..n];
    WithoutStray(u, ram, s);
    PrependSame(NonInds(Concat(u[..last])), Resolve(rams, MakeKey(ram, s + last, MAX_LOOKUP)),
                NonInds(Concat(u[last..n])));
  }

  lemma PrependSame(a: seq<Record>, r: Option<seq<Record>>, b: seq<Record>)
    ensures Prepend(a, r) == Some(a + b) <==> r == Some(b)
  {
    if r.Some? && a + r.value == a + b {
      Cancel(a, r.value, b);
    }
  }

  lemma RamBound(t: seq<byte>)
    requires RamOk(t)
    ensures 32 * |DecodeRam(t)| < 0x4000_0000
  {
  }

  lemma Cancel<T>(a: seq<T>, b: seq<T>, c: seq<T>)
    requires a + b == a + c
    ensures b == c
  {
    assert b == (a + b)[|a|..] && c == (a + c)[|a|..];
  }

  lemma ClosedPart(t: seq<byte>, s: nat, u: seq<seq<Record>>)
    requires |t| % 32 == 0 && u != [] && WorkStored(t, s, u)
    ensures Says(DecodeRam(t), s, u[..|u| - 1])
  {
    ClosedSays(t, s, u[..|u| - 1]);
  }

  // The beats in front of the last one of such a chain have no indirections in
  // its last block, and hold all its records
  lemma LastTail(u: seq<seq<Record>>, ram: nat, s: nat)
    requires |u| > MAX_LOOKUP && |u| % MAX_LOOKUP == 0 && Chained(u, ram, s, |u| - 1)
    ensures Plain(u[|u| - MAX_LOOKUP..|u| - 1])
  {
    hide Inds;
    var last := |u| - MAX_LOOKUP;
    var tail := u[last..|u| - 1];
    forall i | 0 <= i < |tail| ensures Inds(tail[i]) == [] {
      assert BeatChained(u[last + i], |u|, last + i, ram, s, |u| - 1) && (last + i) % MAX_LOOKUP == i;
    }
  }

  lemma WithoutStray(u: seq<seq<Record>>, ram: nat, s: nat)
    requires u != [] && |u| % MAX_LOOKUP == 0 && Chained(u, ram, s, |u| - 1) && |u[|u| - 1]| == 1
    ensures NonInds(Concat(u)) == NonInds(Concat(u[..|u| - 1])) && u[|u| - 1][0].IND?
  {
    hide Inds, Concat;
    var n := |u| - 1;
    assert BeatChained(u[n], |u|, n, ram, s, n);
    assert u == u[..n] + [u[n]];
    ConcatAppend(u[..n], [u[n]]);
    ConcatOne(u[n]);
    NonIndsAppend(Concat(u[..n]), u[n]);
    assert u[n][1..] == [];
    assert NonInds(u[n]) == [];
  }

  // A key of 30 beats is complete without the beat that has been opened
  lemma ShortKey(t: seq<byte>, ram: nat, s: nat, u: seq<seq<Record>>)
    requires ram < 2 && RamOk(t) && |t| == 32 * (s + |u|) && WorkStored(t, s, u)
    requires |u| == MAX_LOOKUP && Chained(u, ram, s, 30) && |u[30]| == 1
    ensures Lookup(DecodeRam(t), ram, s, 30) == Some(NonInds(Concat(u)))
  {
    hide Lookup, Concat, NonInds, Inds, RamOk;
    var w := u[..30];
    ClosedPart(t, s, u);
    assert 32 * |DecodeRam(t)| < 0x4000_0000 by { assert RamOk(t); RamBound(t); }
    assert Chained(w, ram, s, 30) by {
      forall i | 0 <= i < 30 ensures BeatChained(w[i], 30, i, ram, s, 30) {
        assert BeatChained(u[i], 31, i, ram, s, 30);
      }
    }
    ChainLookup(DecodeRam(t), ram, s, w, 0);
    assert w[0..] == w;
    WithoutStray(u, ram, s);
  }

  lemma EmptyWork(t: seq<byte>, ram: nat, s: nat)
    requires |t| == 32 * (s + 1)
    ensures WorkStored(t, s, [[]]) && Chained([[]], ram, s, LastInd(1))
    ensures NonInds(Concat([[]])) == [] && ChunksOf([]) == 0
  {
    NoInds();
  }

  // How many beats a key has, and how many chunks of the last one are used
  datatype Fill = Fill(beats: nat, chunks: nat)

  // Adding a record of one or two chunks
  function Advance(f: Fill, chunks: nat): Fill {
    if f.chunks + chunks <= 5 then f.(chunks := f.chunks + chunks)
    else Fill(f.beats + 1, (if (f.beats + 1) % MAX_LOOKUP == 0 then 1 else 0) + chunks)
  }

  class ProgRouter {
    // Chunks and records used so far in the current beat
    var numChunks: nat
    var numRecords: nat
    // Number of beats of the key under construction
    var numBeats: nat
    // Index of the RAM being filled
    var currentRAM: nat
    // Offset in the current RAM's table of the last indirection created
    var prevInd: Option<nat>
    // The encoded beats of each RAM
    var table: seq<seq<byte>>

    // The records of the key under construction, beat by beat
    ghost var work: seq<seq<Record>>
    // The records behind every key handed out so far
    ghost var keys: map<nat, seq<Record>>

    ghost function Start(): int
      requires |table| == 2 && currentRAM < 2
      reads this
    {
      |table[currentRAM]| / 32 - numBeats
    }

    ghost predicate Valid()
      reads this
    {
      && |table| == 2 && currentRAM < 2
      && RamOk(table[0]) && RamOk(table[1])
      && numBeats == |work| > 0 && Start() >= 0
      && WorkStored(table[currentRAM], Start(), work)
      && numRecords == |work[numBeats - 1]|
      && numChunks == ChunksOf(work[numBeats - 1]) <= 5
      && Chained(work, currentRAM, Start(), LastInd(numBeats))
      && prevInd == (if numBeats < MAX_LOOKUP then None
                     else Some(32 * (Start() + LastInd(numBeats)) + 24))
      && KeysHold(table, currentRAM, numBeats, keys)
    }

    // The records added since the last key was closed
    ghost function Pending(): seq<Record>
      reads this
    {
      NonInds(Concat(work))
    }

    // A router is ready for records; its open beat is empty only at a key's start
    ghost predicate Ready()
      reads this
    {
      Valid() && (numRecords > 0 || numBeats == 1)
    }

    // Nothing has been added since the last key was closed
    ghost predicate Idle()
      reads this
    {
      Ready() && numRecords == 0 && numBeats == 1 && numChunks == 0 && Pending() == []
    }

    function Filled(): Fill
      reads this
    {
      Fill(numBeats, numChunks)
    }

    // There is no room for another beat in the current RAM
    predicate Tight()
      reads this
    {
      |table| == 2 && currentRAM < 2 && |table[currentRAM]| + 32 >= TABLE_LENGTH - 1024
    }

    // One of the tables has become too long
    ghost predicate Full()
      reads this
    {
      exists ram :: 0 <= ram < |table| && |table[ram]| >= TABLE_LENGTH - 1024
    }

    constructor ()
      ensures Idle() && keys == map[]
      ensures currentRAM == 0 && |table| == 2 && |table[0]| == |table[1]| == 32
    {
      prevInd := None;
      numBeats := 1;
      numChunks, numRecords, currentRAM := 0, 0, 0;
      var ram0 := Uninitialised(32);
      var ram1 := Uninitialised(32);
      table := [ram0, ram1];
      work := [[]];
      keys := map[];
      new;
      assert table[currentRAM] == ram0 && work[..0] == [];
    }

    // Store one byte in the current RAM's table
    method Store(offset: nat, b: byte)
      requires |table| == 2 && currentRAM < 2 && offset < |table[currentRAM]|
      modifies this`table
      ensures table == old(table)[currentRAM := SetByte(old(table)[currentRAM], offset, b)]
    {
      table := table[currentRAM := SetByte(table[currentRAM], offset, b)];
    }

    // Set the key of an indirection record
    method SetIND(ind: nat, key: nat)
      requires |table| == 2 && currentRAM < 2 && ind + 4 <= |table[currentRAM]|
      requires key < 0x1_0000_0000
      modifies this`table
      ensures |table| == 2 && table == old(table)[currentRAM := table[currentRAM]]
      ensures SameOutside(old(table)[currentRAM], table[currentRAM], ind, ind + 4)
      ensures Le32(table[currentRAM], ind) == key
    {
      Store(ind, key % 0x100);
      Store(ind + 1, key / 0x100 % 0x100);
      Store(ind + 2, key / 0x1_0000 % 0x100);
      Store(ind + 3, key / 0x100_0000 % 0x100);
      Le32Bytes(key);
    }
  
    // Mark the next chunk of the current beat, which has room, as an indirection,
    // whose key is set later; returns the offset of that key
    method AddIND() returns (ptr: nat)
      requires |table| == 2 && currentRAM < 2 && 32 <= |table[currentRAM]|
      requires numChunks < 5
      modifies this`table, this`numChunks, this`numRecords
      ensures |table| == 2 && table == old(table)[currentRAM := table[currentRAM]]
      ensures ptr == |table[currentRAM]| - 8 - 6 * old(numChunks)
      ensures SameOutside(old(table)[currentRAM], table[currentRAM], ptr, ptr + 6)
      ensures table[currentRAM][ptr + 5] == 128
      ensures numChunks == old(numChunks) + 1 && numRecords == old(numRecords) + 1
    {
      ptr := |table[currentRAM]| - 32 + 6 * (4 - numChunks);
      Store(ptr + 5, 4 * 32);
      numChunks := numChunks + 1;
      numRecords := numRecords + 1;
    }

    // Set the number of records in the current beat and allocate a new one
    method CloseAndExtend(ghost s: nat) returns (o: Outcome)
      requires |table| == 2 && currentRAM < 2
      requires WorkStored(table[currentRAM], s, work)
      requires 1 <= numRecords == |work[|work| - 1]| <= 5
      modifies this`table, this`numChunks, this`numRecords, this`numBeats
      ensures numChunks == numRecords == 0 && numBeats == old(numBeats) + 1
      ensures |table| == 2 && table == old(table)[currentRAM := table[currentRAM]]
      ensures |table[currentRAM]| == |old(table)[currentRAM]| + 32
      ensures Kept(old(table)[currentRAM], table[currentRAM], s)
      ensures WorkStored(table[currentRAM], s, work + [[]])
      ensures o.Exited? <==> |table[currentRAM]| >= TABLE_LENGTH - 1024
    {
      ghost var t := table[currentRAM];
      var beatBase := |table[currentRAM]| - 32;
      Store(beatBase + 31, 0);
      Store(beatBase + 30, numRecords);
      numChunks, numRecords := 0, 0;
      numBeats := numBeats + 1;
      var space := Uninitialised(32);
      table := table[currentRAM := table[currentRAM] + space];
      CloseBeat(t, table[currentRAM], s, work);
      o := if |table[currentRAM]| >= TABLE_LENGTH - 1024 then Exited else Continue;
    }

    // Set the previous indirection, if there is one
    method LinkPrevious(ghost s: nat)
      requires |table| == 2 && currentRAM < 2 && |table[currentRAM]| < TABLE_LENGTH
      requires work != [] && (|work| + 1) % MAX_LOOKUP == 0
      requires WorkStored(table[currentRAM], s, work + [[]])
      requires |table[currentRAM]| == 32 * (s + |work| + 1)
      requires Chained(work, currentRAM, s, LastInd(|work|))
      requires prevInd == (if |work| < MAX_LOOKUP then None
                           else Some(32 * (s + LastInd(|work|)) + 24))
      modifies this`table
      ensures |table| == 2 && table == old(table)[currentRAM := table[currentRAM]]
      ensures |table[currentRAM]| == |old(table)[currentRAM]|
      ensures Kept(old(table)[currentRAM], table[currentRAM], s)
      ensures WorkStored(table[currentRAM], s, Linked(work, currentRAM, s))
    {
      hide WorkStored, Chained, Linked, Relinked, Inds, Kept, SameOutside, KeyLen, KeyRam, KeyBeat, MakeKey, Le32;
      if prevInd.Some? {
        ghost var t := table[currentRAM];
        var key := MakeKey(currentRAM, |table[currentRAM]| / 32 - 31, 31);
        KeyFields(currentRAM, s + LastInd(|work|) + 1, 31);
        SetIND(prevInd.value, key);
        LinkedStored(t, table[currentRAM], currentRAM, s, work, prevInd.value, key);
      } else {
        KeptSame(table[currentRAM], s);
        LinkedNone(work, currentRAM, s);
      }
    }

    // Every 31st beat starts with an indirection to the beats that follow it
    method StartBlock(ghost s: nat) returns (ghost g: nat)
      requires |table| == 2 && currentRAM < 2 && |table[currentRAM]| < TABLE_LENGTH
      requires numChunks == numRecords == 0
      requires work != [] && (|work| + 1) % MAX_LOOKUP == 0
      requires WorkStored(table[currentRAM], s, work + [[]])
      requires |table[currentRAM]| == 32 * (s + |work| + 1)
      requires Chained(work, currentRAM, s, LastInd(|work|))
      requires prevInd == (if |work| < MAX_LOOKUP then None
                           else Some(32 * (s + LastInd(|work|)) + 24))
      modifies this`table, this`numChunks, this`numRecords, this`prevInd
      ensures numChunks == numRecords == 1
      ensures |table| == 2 && table == old(table)[currentRAM := table[currentRAM]]
      ensures |table[currentRAM]| == |old(table)[currentRAM]|
      ensures Kept(old(table)[currentRAM], table[currentRAM], s)
      ensures WorkStored(table[currentRAM], s, NextWork(work, currentRAM, s, g))
      ensures prevInd == Some(32 * (s + |work|) + 24)
    {
      hide WorkStored, Chained, Linked, Relinked, Inds, Kept;
      LinkPrevious(s);
      ghost var t := table[currentRAM];
      var ptr := AddIND();
      prevInd := Some(ptr);
      g := Le32(table[currentRAM], ptr);
      IndAdded(t, table[currentRAM], s, Linked(work, currentRAM, s), g);
      KeptTwice(old(table)[currentRAM], t, table[currentRAM], s, ptr, ptr + 6);
    }

    // Move on to the next beat
    method NextBeat() returns (o: Outcome)
      requires Valid() && numRecords > 0
      modifies this
      ensures o.Value? ==> Valid() && Pending() == old(Pending()) && keys == old(keys)
      ensures o.Value? ==>
        numBeats == old(numBeats) + 1 && currentRAM == old(currentRAM) && Start() == old(Start())
      ensures o.Value? ==> numRecords == (if numBeats % MAX_LOOKUP == 0 then 1 else 0)
      ensures o.Value? ==> numChunks == numRecords
      ensures o.Value? && numBeats % MAX_LOOKUP != 0 ==> work == old(work) + [[]]
      ensures o.Exited? <==> old(Tight())
      ensures o.Exited? ==> Full()
      ensures o.Value? ==>
        table == old(table)[currentRAM := table[currentRAM]] && |table[currentRAM]| == |old(table)[currentRAM]| + 32
    {
      hide WorkStored, KeysHold, Chained, NextWork, Concat, NonInds, ChunksOf, Kept;
      ghost var s, w := Start(), work;
      ghost var g := 0;
      CountChunks(w[numBeats - 1]);
      var _ :- CloseAndExtend(s);
      if numBeats % MAX_LOOKUP == 0 {
        ghost var t := table[currentRAM];
        g := StartBlock(s);
        KeptTrans(old(table)[currentRAM], t, table[currentRAM], s);
      }
      work := NextWork(w, currentRAM, s, g);
      NextWorkValid(currentRAM, s, w, g);
      NextBeatKeys(old(table), table, currentRAM, s, |w|, keys);
      return Continue;
    }

    // Offset of the current record, for 48-bit and for 96-bit records
    function CurrentRecord48(): int
      requires currentRAM < |table|
      reads this
    {
      |table[currentRAM]| - 32 + 6 * (4 - numChunks)
    }

    function CurrentRecord96(): int
      requires currentRAM < |table|
      reads this
    {
      |table[currentRAM]| - 32 + 6 * (3 - numChunks)
    }

    // The current RAM now has record r in the current beat
    method PlaceRecord(t: seq<byte>, ghost r: Record, chunks: nat)
      requires Valid() && !r.IND? && chunks == r.Chunks() && numChunks + chunks <= 5
      requires SameOutside(table[currentRAM], t, |table[currentRAM]| - 2 - 6 * (numChunks + chunks),
                           |table[currentRAM]| - 2 - 6 * numChunks)
      requires DecodeAt(Beat(t, Start() + numBeats - 1), numChunks) == Some(r)
      modifies this
      ensures Ready() && numRecords > 0
      ensures Filled() == Fill(old(numBeats), old(numChunks) + chunks)
      ensures Pending() == old(Pending()) + [r] && keys == old(keys)
      ensures currentRAM == old(currentRAM) && Start() == old(Start())
      ensures table[1 - currentRAM] == old(table)[1 - currentRAM]
    {
      hide WorkStored, KeysHold, Chained, Concat, NonInds, ChunksOf, DecodeAt, Beat;
      ghost var before, s := table, Start();
      table := table[currentRAM := t];
      PushValid(before, table, currentRAM, s, work, numChunks, r, keys);
      work := Push(work, r);
      numChunks := numChunks + chunks;
      numRecords := numRecords + 1;
    }

    // A record that leads to a neighbouring board
    method AddRR(dir: nat, key: nat) returns (o: Outcome)
      requires Ready() && RR(dir, key).Fits()
      modifies this
      ensures o.Value? ==> Ready() && numRecords > 0
      ensures o.Value? ==> Filled() == Advance(old(Filled()), 1)
      ensures o.Exited? <==> old(numChunks) == 5 && old(Tight())
      ensures o.Exited? ==> Full()
      ensures o.Value? ==> Pending() == old(Pending()) + [RR(dir, key)] && keys == old(keys)
      ensures o.Value? ==> (
        && currentRAM == old(currentRAM) && Start() == old(Start())
        && table[1 - currentRAM] == old(table)[1 - currentRAM])
    {
      hide WorkStored, KeysHold, Chained, Concat, NonInds, ChunksOf, DecodeAt, Beat, Put32, SetByte;
      if numChunks == 5 {
        NonEmpty(work[numBeats - 1]);
        var _ :- NextBeat();
      }
      var p := CurrentRecord48();
      var t := Put32(table[currentRAM], p, key);
      t := SetByte(t, p + 5, 2 * 32 + dir * 8);
      EncodedRR(table[currentRAM], t, Start() + numBeats - 1, numChunks, dir, key);
      PlaceRecord(t, RR(dir, key), 1);
      return Continue;
    }

    // A record for one thread
    method AddURM1(mboxX: nat, mboxY: nat, threadId: nat, key: nat) returns (o: Outcome)
      requires Ready() && URM1(mboxX, mboxY, threadId, key).Fits()
      modifies this
      ensures o.Value? ==> Ready() && numRecords > 0
      ensures o.Value? ==> Filled() == Advance(old(Filled()), 1)
      ensures o.Exited? <==> old(numChunks) == 5 && old(Tight())
      ensures o.Exited? ==> Full()
      ensures o.Value? ==>
        Pending() == old(Pending()) + [URM1(mboxX, mboxY, threadId, key)] && keys == old(keys)
    {
      hide WorkStored, KeysHold, Chained, Concat, NonInds, ChunksOf, DecodeAt, Beat, Put32, SetByte;
      if numChunks == 5 {
        NonEmpty(work[numBeats - 1]);
        var _ :- NextBeat();
      }
      var p := CurrentRecord48();
      var t := Put32(table[currentRAM], p, key);
      t := SetByte(t, p + 4, threadId * 8 % 0x100);
      t := SetByte(t, p + 5, mboxY * 8 + mboxX * 2 + threadId / 32);
      EncodedURM1(table[currentRAM], t, Start() + numBeats - 1, numChunks,
                  mboxX, mboxY, threadId, key);
      PlaceRecord(t, URM1(mboxX, mboxY, threadId, key), 1);
      return Continue;
    }

    // A record for threads of a mailbox
    method AddMRM(mboxX: nat, mboxY: nat, threadsHigh: nat, threadsLow: nat, localKey: nat)
      returns (o: Outcome)
      requires Ready() && MRM(mboxX, mboxY, threadsHigh, threadsLow, localKey).Fits()
      modifies this
      ensures o.Value? ==> Ready() && numRecords > 0
      ensures o.Value? ==> Filled() == Advance(old(Filled()), 2)
      ensures o.Exited? <==> old(numChunks) >= 4 && old(Tight())
      ensures o.Exited? ==> Full()
      ensures o.Value? ==>
        && Pending() == old(Pending()) + [MRM(mboxX, mboxY, threadsHigh, threadsLow, localKey)]
        && keys == old(keys)
    {
      hide WorkStored, KeysHold, Chained, Concat, NonInds, ChunksOf, DecodeAt, Beat, Put32, SetByte;
      if numChunks >= 4 {
        NonEmpty(work[numBeats - 1]);
        var _ :- NextBeat();
      }
      var p := CurrentRecord96();
      var t := Put32(table[currentRAM], p, threadsLow);
      t := Put32(t, p + 4, threadsHigh);
      t := SetByte(t, p + 8, localKey % 0x100);
      t := SetByte(t, p + 9, localKey / 0x100 % 0x100);
      t := SetByte(t, p + 11, 3 * 32 + mboxY * 8 + mboxX * 2);
      EncodedMRM(table[currentRAM], t, Start() + numBeats - 1, numChunks,
                 mboxX, mboxY, threadsHigh, threadsLow, localKey);
      PlaceRecord(t, MRM(mboxX, mboxY, threadsHigh, threadsLow, localKey), 2);
      return Continue;
    }

    // Set the outstanding indirection, if there is one, to the latest beats
    method LinkLast()
      requires Valid()
      modifies this`table, this`work
      ensures Valid() && Pending() == old(Pending())
      ensures |table[currentRAM]| == |old(table)[currentRAM]|
      ensures table == old(table)[currentRAM := table[currentRAM]]
      ensures Chained(work, currentRAM, Start(), |work|)
    {
      hide WorkStored, KeysHold, Chained, Concat, NonInds, ChunksOf, SameOutside, Kept;
      ghost var s, w, before := Start(), work, table;
      if prevInd.Some? {
        var key := MakeKey(currentRAM, |table[currentRAM]| / 32 - numBeats % 31, numBeats % 31);
        KeyFields(currentRAM, |table[currentRAM]| / 32 - numBeats % 31, numBeats % 31);
        SetIND(prevInd.value, key);
        LastLinked(before, table, currentRAM, s, w, prevInd.value, key, keys);
        work := Rekey(w, LastInd(|w|), key);
      } else {
        NothingToLink(w, currentRAM, s);
      }
    }

    // The key for the records added, with the outstanding indirection inserted
    method FinalKey() returns (key: nat)
      requires Valid()
      modifies this`table, this`work
      ensures Valid() && Pending() == old(Pending()) && Start() == old(Start()) && old(Tight()) == Tight()
      ensures table == old(table)[currentRAM := table[currentRAM]] && |table[currentRAM]| == |old(table)[currentRAM]|
      ensures Chained(work, currentRAM, Start(), |work|)
      ensures key == MakeKey(currentRAM, Start(), if numBeats < MAX_LOOKUP then numBeats else MAX_LOOKUP)
      ensures key < 0x1_0000_0000 && 0 < KeyLen(key) && KeyBeat(key) == Start()
    {
      hide WorkStored, KeysHold, KeyHolds, Chained, Concat, NonInds, ChunksOf, LastInd;
      // Index of the first beat, and final length
      var index := |table[currentRAM]| / 32 - numBeats;
      var finalKeyLen := if prevInd.Some? then 31 else numBeats;
      LinkLast();
      key := MakeKey(currentRAM, index, finalKeyLen);
      KeyFields(currentRAM, index, finalKeyLen);
    }

    // The state after a key of 30 beats modulo 31, with the tables as they were
    // before: the beat that was opened in that RAM starts with an indirection,
    // which the counters still know of, whichever RAM is filled next
    ghost predicate Strayed(before: seq<seq<byte>>, ram: nat)
      reads this
    {
      && |before| == |table| == 2 && ram < 2 && RamOk(table[0]) && RamOk(table[1])
      && table[1 - ram] == before[1 - ram] && |table[ram]| == |before[ram]| + 32
      && numBeats == 1 && prevInd.None? && numRecords == numChunks == 1
      && currentRAM == (if |table[0]| < |table[1]| then 0 else 1) && EndsWithInd(table[ram])
    }

    // Generate a new key for the records added.  The key is right, and the
    // router ready for the next key, unless the number of beats is 30 modulo
    // 31: then a record is counted that belongs to no key, and a key of more than
    // 30 beats takes in the beat that was opened behind it.
    method GenKey() returns (r: Result<nat>)
      requires Ready() && numRecords > 0
      modifies this
      ensures r.Exited? <==> old(Tight())
      ensures r.Exited? ==> Full()
      ensures r.Value? ==> r.value < 0x1_0000_0000
      ensures r.Value? ==> (numRecords == 0 <==> old(numBeats) % MAX_LOOKUP != 30)
      ensures r.Value? && old(numBeats) % MAX_LOOKUP == 30 ==>
        && Strayed(old(table), old(currentRAM))
        && (Decodes(table, r.value, old(Pending())) <==>
              old(numBeats) == 30 || EndsNowhere(table, old(currentRAM)))
        && (forall key | key in old(keys) :: Decodes(table, key, old(keys)[key]))
      ensures r.Value? && old(numBeats) % MAX_LOOKUP != 30 ==>
        && Idle() && 0 < KeyLen(r.value)
        && r.value !in old(keys) && keys == old(keys)[r.value := old(Pending())]
    {
      hide WorkStored, KeysHold, KeyHolds, Chained, Concat, NonInds, ChunksOf, LastInd, Decodes, EndsNowhere, EndsWithInd;
      ghost var n := numBeats;
      var key := FinalKey();
      ghost var w := work;
      var _ :- NextBeat();
      if n % MAX_LOOKUP == 30 {
        StrayKey(key, if n == 30 then 30 else MAX_LOOKUP);
      }
      StartNextKey(key, w);
      return Value(key);
    }

    // Forget the beats of the last key, and pick the smaller RAM for the next
    method StartNextKey(ghost key: nat, ghost w: seq<seq<Record>>)
      requires Valid() && numChunks == numRecords && KeyBeat(key) == Start()
      requires numBeats % MAX_LOOKUP != 0 ==>
        && numRecords == 0 && w != [] && work == w + [[]] && Chained(w, currentRAM, Start(), |w|)
        && key == MakeKey(currentRAM, Start(), BlockLen(|w|, 0))
      modifies this
      ensures table == old(table) && currentRAM == (if |table[0]| < |table[1]| then 0 else 1)
      ensures numBeats == 1 && prevInd.None? && numRecords == old(numRecords) && numChunks == old(numChunks)
      ensures old(numBeats) % MAX_LOOKUP != 0 ==>
        Idle() && key !in old(keys) && keys == old(keys)[key := old(Pending())]
    {
      hide WorkStored, KeysHold, KeyHolds, Chained, Concat, NonInds, ChunksOf, LastInd, Idle, KeyBeat, MakeKey;
      ghost var ram, s, n := currentRAM, Start(), numBeats;
      numBeats := 1;
      prevInd := None;
      currentRAM := if |table[0]| < |table[1]| then 0 else 1;
      if n % MAX_LOOKUP != 0 {
        OpenPending(w);
        FreshKey(ram, s, w, key);
      }
    }

    // What the key of 30 beats modulo 31 says
    lemma StrayKey(key: nat, len: nat)
      requires Valid() && numBeats % MAX_LOOKUP == 0 && numRecords == 1
      requires len == (if numBeats == MAX_LOOKUP then 30 else MAX_LOOKUP) && key == MakeKey(currentRAM, Start(), len)
      ensures Decodes(table, key, Pending()) <==> numBeats == MAX_LOOKUP || EndsNowhere(table, currentRAM)
      ensures EndsWithInd(table[currentRAM])
      ensures forall k | k in keys :: Decodes(table, k, keys[k])
    {
      hide Lookup, Resolve, Chained, KeysHold, KeyHolds, Concat, NonInds, LeadsNowhere, ClosedStored, DecodeAt, MakeKey;
      RamBound(table[currentRAM]);
      KeyFields(currentRAM, Start(), len);
      WithoutStray(work, currentRAM, Start());
      if numBeats == MAX_LOOKUP {
        ShortKey(table[currentRAM], currentRAM, Start(), work);
        LookupResolves(Rams(table), key);
      } else {
        LongKey(table, currentRAM, Start(), work);
      }
      forall k | k in keys ensures Decodes(table, k, keys[k]) {
        OldKey(currentRAM, numBeats, k);
      }
    }

    lemma OldKey(ram: nat, beats: nat, key: nat)
      requires |table| == 2 && RamOk(table[0]) && RamOk(table[1]) && KeysHold(table, ram, beats, keys) && key in keys
      ensures DecodeKey(table, key) == Some(keys[key])
    {
      hide Lookup, Resolve;
      assert KeyIn(table, ram, beats, key, keys[key]);
      var r := KeyRam(key);
      var v := DecodeRam(table[r]);
      LookupExtend(v[..Bound(table, ram, beats, r)], v, r, KeyBeat(key), KeyLen(key));
      LookupResolves(Rams(table), key);
    }

    // Bookkeeping: the new key stands for the records of its beats
    ghost method FreshKey(ram: nat, s: nat, w: seq<seq<Record>>, key: nat)
      requires |table| == 2 && ram < 2 && currentRAM < 2 && RamOk(table[0]) && RamOk(table[1])
      requires numBeats == 1 && prevInd == None && numChunks == numRecords == 0
      requires w != [] && WorkStored(table[ram], s, w + [[]]) && Chained(w, ram, s, |w|)
      requires key == MakeKey(ram, s, BlockLen(|w|, 0)) && KeyBeat(key) == s
      requires s == Bound(table, ram, |w| + 1, ram) && KeysHold(table, ram, |w| + 1, keys)
      modifies this`keys, this`work
      ensures Idle()
      ensures key !in old(keys) && keys == old(keys)[key := NonInds(Concat(w))]
    {
      hide WorkStored, KeysHold, KeyHolds, Chained, Concat, NonInds, ChunksOf;
      KeyClosed(table[ram], ram, s, w, key);
      NewKey(table, ram, |w| + 1, currentRAM, s, key, NonInds(Concat(w)), keys);
      keys := keys[key := NonInds(Concat(w))];
      work := [[]];
      EmptyWork(table[currentRAM], currentRAM, Start());
    }

    // The keys handed out so far can be read from the bytes of the tables
    lemma KeyDecodes(key: nat)
      requires Valid() && key in keys
      ensures DecodeKey(table, key) == Some(keys[key])
    {
      OldKey(currentRAM, numBeats, key);
    }
  }
}
