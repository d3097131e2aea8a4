// The routing records, beats and keys read by a board's programmable router:
// the documented bit layout, and how a router reads a key.
module RoutingRecords {
  import opened Wrappers

  type byte = b: int | 0 <= b < 256
  type Beats = seq<Option<seq<Record>>>

  // Byte address of the routing tables in every DRAM (config.py)
  const TABLE_BASE: int := 3 * 0x80_0000 + 0x4000
  // Number of bytes available to the tables in every DRAM (config.py)
  const TABLE_LENGTH: int := 0x4000_0000 - 3 * 0x80_0000 - 0x4000
  // Longest lookup: the size field of a key has five bits
  const MAX_LOOKUP: nat := 31

  datatype Record =
    | URM1(mboxX: nat, mboxY: nat, thread: nat, localKey: nat)
    | MRM(mboxX: nat, mboxY: nat, threadsHigh: nat, threadsLow: nat, localKey: nat)
    | RR(dir: nat, newKey: nat)
    | IND(newKey: nat)
  {
    function Chunks(): nat { if MRM? then 2 else 1 }

    // Every field fits the width that the layout gives it
    predicate Fits() {
      match this
      case URM1(x, y, t, k) => x < 4 && y < 4 && t < 64 && k < 0x1_0000_0000
      case MRM(x, y, hi, lo, k) =>
        x < 4 && y < 4 && hi < 0x1_0000_0000 && lo < 0x1_0000_0000 && k < 0x1_0000
      case RR(d, k) => d < 4 && k < 0x1_0000_0000
      case IND(k) => k < 0x1_0000_0000
    }
  }

  function Le32(b: seq<byte>, i: nat): nat
    requires i + 4 <= |b|
  {
    b[i] as int + 0x100 * b[i+1] as int + 0x1_0000 * b[i+2] as int + 0x100_0000 * b[i+3] as int
  }

  // The record whose first chunk is chunk c of a 32-byte beat.  The first
  // chunk is at the top of the beat, and the type tag at the top of the chunk.
  // (URM2 records are never produced, so they are not decoded.)
  function DecodeAt(beat: seq<byte>, c: nat): Option<Record>
    requires |beat| == 32 && c < 5
  {
    var top := beat[29 - 6 * c];
    var x, y := (top / 2) % 4, (top / 8) % 4;
    match top / 32
    case 0 => Some(URM1(x, y, (top % 2) * 32 + beat[28 - 6 * c] / 8, Le32(beat, 24 - 6 * c)))
    case 2 => Some(RR(y, Le32(beat, 24 - 6 * c)))
    case 3 =>
      if c == 4 then None else
      var lo := 18 - 6 * c;
      Some(MRM(x, y, Le32(beat, lo + 4), Le32(beat, lo), beat[lo + 8] as int + 0x100 * beat[lo + 9] as int))
    case 4 => Some(IND(Le32(beat, 24 - 6 * c)))
    case _ => None
  }

  // The n records stored from chunk c onwards
  function DecodeFrom(beat: seq<byte>, c: nat, n: nat): (r: Option<seq<Record>>)
    requires |beat| == 32
    ensures r.Some? ==> |r.value| == n && c + ChunksOf(r.value) <= (if n == 0 then c else 5)
    decreases n
  {
    if n == 0 then Some([])
    else if c >= 5 then None
    else
      var first := DecodeAt(beat, c);
      if first.None? then None else
      var rest := DecodeFrom(beat, c + first.value.Chunks(), n - 1);
      if rest.None? then None else Some([first.value] + rest.value)
  }

  function ChunksOf(rs: seq<Record>): nat {
    if rs == [] then 0 else rs[0].Chunks() + ChunksOf(rs[1..])
  }

  // A beat holds its number of records, 1 to 5, in its top half-word
  function DecodeBeat(beat: seq<byte>): Option<seq<Record>>
    requires |beat| == 32
  {
    var size := beat[30] as int + 0x100 * beat[31] as int;
    if 1 <= size <= 5 then DecodeFrom(beat, 0, size) else None
  }

  function Beat(t: seq<byte>, i: nat): (beat: seq<byte>)
    requires 32 * i + 32 <= |t|
    ensures |beat| == 32
  {
    t[32 * i..32 * i + 32]
  }

  // What the beats of one RAM decode to
  function DecodeRam(t: seq<byte>): (v: Beats)
    requires |t| % 32 == 0
    ensures |v| == |t| / 32
    ensures forall i | 0 <= i < |v| :: v[i] == DecodeBeat(Beat(t, i))
  {
    seq(|t| / 32, i requires 0 <= i < |t| / 32 => DecodeBeat(Beat(t, i)))
  }

  // Routing keys: RAM (1 bit), beat pointer (26 bits), number of beats (5 bits)
  function MakeKey(ram: nat, beat: nat, len: nat): nat
  {
    ram * 0x8000_0000 + TABLE_BASE + 32 * beat + len
  }

  function KeyRam(key: nat): nat { key / 0x8000_0000 }
  function KeyLen(key: nat): nat { key % 32 }
  // Beat index relative to the start of the tables (negative below them)
  function KeyBeat(key: nat): int { (key % 0x8000_0000) / 32 - TABLE_BASE / 32 }

  lemma KeyFields(ram: nat, beat: nat, len: nat)
    requires ram < 2 && len < 32 && 32 * beat < 0x4000_0000
    ensures var key := MakeKey(ram, beat, len);
      key < 0x1_0000_0000 && KeyRam(key) == ram && KeyBeat(key) == beat && KeyLen(key) == len
  {
    assert TABLE_BASE % 32 == 0;
  }

  function Flatten(v: Beats): Option<seq<Record>> {
    if v == [] then Some([])
    else if v[0].None? then None
    else
      var rest := Flatten(v[1..]);
      if rest.None? then None else Some(v[0].value + rest.value)
  }

  function Concat(w: seq<seq<Record>>): seq<Record> {
    if w == [] then [] else w[0] + Concat(w[1..])
  }

  function IndOf(r: Record): seq<nat> { if r.IND? then [r.newKey] else [] }

  function NonIndOf(r: Record): seq<Record> { if r.IND? then [] else [r] }

  // The keys of the indirections in a sequence of records
  function Inds(rs: seq<Record>): seq<nat> {
    if rs == [] then [] else IndOf(rs[0]) + Inds(rs[1..])
  }

  // The records that are not indirections
  function NonInds(rs: seq<Record>): seq<Record> {
    if rs == [] then [] else NonIndOf(rs[0]) + NonInds(rs[1..])
  }

  function Prepend(rs: seq<Record>, rest: Option<seq<Record>>): Option<seq<Record>> {
    if rest.Some? then Some(rs + rest.value) else None
  }

  // The records that a router visits for a key, following no more than the given
  // number of indirections, to whichever RAM and beat they lead.  The documented
  // restrictions are enforced: at most one indirection per lookup, and exactly
  // one in a lookup of maximal size.
  function Follow(rams: seq<Beats>, key: nat, hops: nat): Option<seq<Record>>
    decreases hops
  {
    var ram, ptr, n := KeyRam(key), KeyBeat(key), KeyLen(key);
    if n == 0 then Some([])
    else if ram >= |rams| || ptr < 0 || ptr + n > |rams[ram]| then None
    else
      var flat := Flatten(rams[ram][ptr..ptr + n]);
      if flat.None? then None else
      var inds := Inds(flat.value);
      if |inds| == 0 then (if n == MAX_LOOKUP then None else flat)
      else if |inds| > 1 || hops == 0 then None
      else Prepend(NonInds(flat.value), Follow(rams, inds[0], hops - 1))
  }

  // The same without a bound; indirections in a circle lead to no records
  ghost function Resolve(rams: seq<Beats>, key: nat): Option<seq<Record>> {
    if hops: nat :| Follow(rams, key, hops).Some? then Follow(rams, key, hops) else None
  }

  // The records that a message carrying a routing key visits on a board
  ghost function DecodeKey(table: seq<seq<byte>>, key: nat): Option<seq<Record>>
    requires |table| == 2 && |table[0]| % 32 == 0 && |table[1]| % 32 == 0
  {
    Resolve(Rams(table), key)
  }

  function Rams(table: seq<seq<byte>>): (rams: seq<Beats>)
    requires |table| == 2 && |table[0]| % 32 == 0 && |table[1]| % 32 == 0
    ensures |rams| == 2 && forall r | 0 <= r < 2 :: rams[r] == DecodeRam(table[r])
  {
    [DecodeRam(table[0]), DecodeRam(table[1])]
  }

  // A lookup of n beats from ptr whose indirections all lead forward in one RAM
  function Lookup(v: Beats, ram: nat, ptr: nat, n: nat): Option<seq<Record>>
    requires ptr <= |v|
    decreases |v| - ptr
  {
    if ptr + n > |v| then None else
    var flat := Flatten(v[ptr..ptr + n]);
    if flat.None? then None else
    var inds := Inds(flat.value);
    if |inds| == 0 then (if n == MAX_LOOKUP then None else flat)
    else if |inds| > 1 then None
    else
      var key := inds[0];
      if KeyRam(key) != ram || KeyBeat(key) <= ptr || KeyBeat(key) > |v| then None
      else Prepend(NonInds(flat.value), Lookup(v, ram, KeyBeat(key), KeyLen(key)))
  }

  // More hops change nothing, once the records are found
  lemma {:induction false} FollowMore(rams: seq<Beats>, key: nat, hops: nat, more: nat)
    requires Follow(rams, key, hops).Some? && hops <= more
    ensures Follow(rams, key, more) == Follow(rams, key, hops)
    decreases hops
  {
    hide Flatten, Inds, NonInds, KeyRam, KeyBeat, KeyLen;
    var ram, ptr, n := KeyRam(key), KeyBeat(key), KeyLen(key);
    if n != 0 {
      var inds := Inds(Flatten(rams[ram][ptr..ptr + n]).value);
      if |inds| == 1 {
        FollowMore(rams, inds[0], hops - 1, more - 1);
      }
    }
  }

  lemma ResolveIs(rams: seq<Beats>, key: nat, hops: nat)
    requires Follow(rams, key, hops).Some?
    ensures Resolve(rams, key) == Follow(rams, key, hops)
  {
    hide Follow;
    var h: nat :| Follow(rams, key, h).Some? && Resolve(rams, key) == Follow(rams, key, h);
    if h <= hops {
      FollowMore(rams, key, h, hops);
    } else {
      FollowMore(rams, key, hops, h);
    }
  }

  lemma SomeHops(rams: seq<Beats>, key: nat) returns (hops: nat)
    requires Resolve(rams, key).Some?
    ensures Follow(rams, key, hops) == Resolve(rams, key)
  {
    hide Follow;
    hops :| Follow(rams, key, hops).Some? && Resolve(rams, key) == Follow(rams, key, hops);
  }

  // One lookup, and whatever its indirection leads to
  lemma ResolveStep(rams: seq<Beats>, key: nat)
    ensures var ram, ptr, n := KeyRam(key), KeyBeat(key), KeyLen(key);
      Resolve(rams, key) ==
        if n == 0 then Some([])
        else if ram >= |rams| || ptr < 0 || ptr + n > |rams[ram]| then None
        else
          var flat := Flatten(rams[ram][ptr..ptr + n]);
          if flat.None? then None else
          var inds := Inds(flat.value);
          if |inds| == 0 then (if n == MAX_LOOKUP then None else flat)
          else if |inds| > 1 then None
          else Prepend(NonInds(flat.value), Resolve(rams, inds[0]))
  {
    hide Flatten, Inds, NonInds, KeyRam, KeyBeat, KeyLen, Resolve;
    var ram, ptr, n := KeyRam(key), KeyBeat(key), KeyLen(key);
    if Resolve(rams, key).Some? {
      var hops := SomeHops(rams, key);
      if n != 0 {
        var inds := Inds(Flatten(rams[ram][ptr..ptr + n]).value);
        if |inds| == 1 {
          ResolveIs(rams, inds[0], hops - 1);
        }
      }
    } else {
      NotResolved(rams, key, 0);
      if n != 0 && ram < |rams| && ptr >= 0 && ptr + n <= |rams[ram]| && Flatten(rams[ram][ptr..ptr + n]).Some? {
        var inds := Inds(Flatten(rams[ram][ptr..ptr + n]).value);
        if |inds| == 1 && Resolve(rams, inds[0]).Some? {
          var hops := SomeHops(rams, inds[0]);
          NotResolved(rams, key, hops + 1);
        }
      }
    }
  }

  lemma NotResolved(rams: seq<Beats>, key: nat, hops: nat)
    requires Resolve(rams, key).None?
    ensures Follow(rams, key, hops).None?
  {
    hide Follow;
    if Follow(rams, key, hops).Some? {
      ResolveIs(rams, key, hops);
    }
  }

  // A key without beats has no destinations
  lemma NoDestinations(rams: seq<Beats>, key: nat)
    requires KeyLen(key) == 0
    ensures Resolve(rams, key) == Some([])
  {
    ResolveStep(rams, key);
  }

  // What a lookup finds that leads forward is what the key stands for
  lemma {:induction false} LookupResolves(rams: seq<Beats>, key: nat)
    requires KeyRam(key) < |rams| && 0 <= KeyBeat(key) <= |rams[KeyRam(key)]|
    requires Lookup(rams[KeyRam(key)], KeyRam(key), KeyBeat(key), KeyLen(key)).Some?
    ensures Resolve(rams, key) == Lookup(rams[KeyRam(key)], KeyRam(key), KeyBeat(key), KeyLen(key))
    decreases |rams[KeyRam(key)]| - KeyBeat(key)
  {
    hide Inds, NonInds, KeyRam, KeyBeat, KeyLen, Resolve;
    var ram, ptr, n := KeyRam(key), KeyBeat(key), KeyLen(key);
    ResolveStep(rams, key);
    var v := rams[ram];
    if n == 0 {
      NoBeats(v, ram, ptr);
    } else {
      var inds := Inds(Flatten(v[ptr..ptr + n]).value);
      if |inds| == 1 {
        LookupResolves(rams, inds[0]);
      }
    }
  }

  lemma NoBeats(v: Beats, ram: nat, ptr: nat)
    requires ptr <= |v|
    ensures Lookup(v, ram, ptr, 0) == Some([])
  {
    assert v[ptr..ptr] == [];
  }

  // ---------------------------------------------------------------------
  // Lemmas about beats and lookups

  lemma Le32Bytes(k: nat)
    requires k < 0x1_0000_0000
    ensures k % 0x100 + 0x100 * (k / 0x100 % 0x100) + 0x1_0000 * (k / 0x1_0000 % 0x100)
            + 0x100_0000 * (k / 0x100_0000 % 0x100) == k
  {
    assert k / 0x1_0000 == k / 0x100 / 0x100;
    assert k / 0x100_0000 == k / 0x1_0000 / 0x100;
  }

  // The records rs are stored in a beat from chunk c onwards
  ghost predicate Stored(b: seq<byte>, c: nat, rs: seq<Record>)
    requires |b| == 32
    decreases |rs|
  {
    rs != [] ==>
      c < 5 && DecodeAt(b, c) == Some(rs[0]) && Stored(b, c + rs[0].Chunks(), rs[1..])
  }

  lemma {:induction false} StoredDecodes(b: seq<byte>, c: nat, rs: seq<Record>)
    requires |b| == 32 && Stored(b, c, rs)
    ensures DecodeFrom(b, c, |rs|) == Some(rs)
    decreases |rs|
  {
    if rs != [] {
      StoredDecodes(b, c + rs[0].Chunks(), rs[1..]);
      assert rs == [rs[0]] + rs[1..];
    }
  }

  lemma DecodeAtFrame(b: seq<byte>, b': seq<byte>, c: nat, r: Record)
    requires |b| == |b'| == 32 && c < 5 && DecodeAt(b, c) == Some(r)
    requires forall i | 30 - 6 * (c + r.Chunks()) <= i < 30 :: b[i] == b'[i]
    ensures DecodeAt(b', c) == Some(r)
  {
  }

  lemma {:induction false} ChunksAppend(rs: seq<Record>, r: Record)
    ensures ChunksOf(rs + [r]) == ChunksOf(rs) + r.Chunks()
  {
    if rs == [] {
      assert rs + [r] == [r];
    } else {
      ChunksAppend(rs[1..], r);
      assert (rs + [r])[1..] == rs[1..] + [r];
    }
  }

  // A record placed after those already in a beat extends what the beat holds
  lemma {:induction false} StoredAppend(b: seq<byte>, b': seq<byte>, c: nat, rs: seq<Record>, r: Record)
    requires |b| == |b'| == 32 && Stored(b, c, rs)
    requires c + ChunksOf(rs) < 5 && DecodeAt(b', c + ChunksOf(rs)) == Some(r)
    requires forall i | 30 - 6 * (c + ChunksOf(rs)) <= i < 30 :: b[i] == b'[i]
    ensures Stored(b', c, rs + [r])
    decreases |rs|
  {
    if rs == [] {
      assert Stored(b', c + r.Chunks(), []);
    } else {
      DecodeAtFrame(b, b', c, rs[0]);
      StoredAppend(b, b', c + rs[0].Chunks(), rs[1..], r);
      assert (rs + [r])[1..] == rs[1..] + [r];
    }
  }

  // What a beat holds from chunk c on depends on the bytes below those chunks
  lemma {:induction false} StoredFrame(b: seq<byte>, b': seq<byte>, c: nat, rs: seq<Record>)
    requires |b| == |b'| == 32 && Stored(b, c, rs)
    requires forall i | 0 <= i < 30 - 6 * c :: b[i] == b'[i]
    ensures Stored(b', c, rs)
    decreases |rs|
  {
    if rs != [] {
      StoredFrame(b, b', c + rs[0].Chunks(), rs[1..]);
    }
  }

  lemma {:induction false} FlattenConcat(v: Beats, w: seq<seq<Record>>)
    requires |v| == |w| && forall i | 0 <= i < |w| :: v[i] == Some(w[i])
    ensures Flatten(v) == Some(Concat(w))
  {
    if v != [] {
      FlattenConcat(v[1..], w[1..]);
    }
  }

  lemma Assoc<T>(a: seq<T>, b: seq<T>, c: seq<T>)
    ensures a + (b + c) == (a + b) + c
  {
  }

  lemma {:induction false} ConcatAppend(w: seq<seq<Record>>, u: seq<seq<Record>>)
    ensures Concat(w + u) == Concat(w) + Concat(u)
  {
    if w == [] {
      assert w + u == u;
    } else {
      calc {
        Concat(w + u);
        { assert (w + u)[0] == w[0] && (w + u)[1..] == w[1..] + u; }
        w[0] + Concat(w[1..] + u);
        { ConcatAppend(w[1..], u); }
        w[0] + (Concat(w[1..]) + Concat(u));
        { Assoc(w[0], Concat(w[1..]), Concat(u)); }
        (w[0] + Concat(w[1..])) + Concat(u);
      }
    }
  }

  lemma {:induction false} IndsAppend(a: seq<Record>, b: seq<Record>)
    ensures Inds(a + b) == Inds(a) + Inds(b)
  {
    if a == [] {
      assert a + b == b;
    } else {
      var h := IndOf(a[0]);
      calc {
        Inds(a + b);
        { assert (a + b)[0] == a[0] && (a + b)[1..] == a[1..] + b; }
        h + Inds(a[1..] + b);
        { IndsAppend(a[1..], b); }
        h + (Inds(a[1..]) + Inds(b));
        { Assoc(h, Inds(a[1..]), Inds(b)); }
        (h + Inds(a[1..])) + Inds(b);
      }
    }
  }

  lemma {:induction false} NonIndsAppend(a: seq<Record>, b: seq<Record>)
    ensures NonInds(a + b) == NonInds(a) + NonInds(b)
  {
    if a == [] {
      assert a + b == b;
    } else {
      var h := NonIndOf(a[0]);
      calc {
        NonInds(a + b);
        { assert (a + b)[0] == a[0] && (a + b)[1..] == a[1..] + b; }
        h + NonInds(a[1..] + b);
        { NonIndsAppend(a[1..], b); }
        h + (NonInds(a[1..]) + NonInds(b));
        { Assoc(h, NonInds(a[1..]), NonInds(b)); }
        (h + NonInds(a[1..])) + NonInds(b);
      }
    }
  }

  // A lookup that succeeds keeps its answer when beats are added behind it
  lemma {:induction false} LookupExtend(v: Beats, v': Beats, ram: nat, ptr: nat, n: nat)
    requires ptr <= |v| <= |v'| && v == v'[..|v|]
    requires Lookup(v, ram, ptr, n).Some?
    ensures Lookup(v', ram, ptr, n) == Lookup(v, ram, ptr, n)
    decreases |v| - ptr
  {
    assert v[ptr..ptr + n] == v'[ptr..ptr + n];
    var inds := Inds(Flatten(v[ptr..ptr + n]).value);
    if |inds| == 1 {
      var key := inds[0];
      LookupExtend(v, v', ram, KeyBeat(key), KeyLen(key));
    }
  }
}
