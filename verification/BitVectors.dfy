// Bit vectors in arrays of 32-bit words, and the loops that the vertex programs
// run over them.  A word is the set of the positions of its one bits.
module BitVectors {
  type Word = s: set<nat> | forall b | b in s :: b < 32

  const WIDE: nat := 0x1_0000_0000

  // 32-bit arithmetic
  function Wrap(x: int): (w: nat)
    ensures w < WIDE
  {
    x % WIDE
  }

  lemma WrapAdd(x: int, y: int)
    ensures Wrap(Wrap(x) + y) == Wrap(x + y)
  {
  }

  // Adding the time n times, and counting down n times
  ghost function AddTimes(sum: int, time: nat, n: nat): nat { Wrap(sum + time * n) }
  ghost function CountDown(x: int, n: nat): nat { Wrap(x - n) }

  lemma AddTimesMore(sum: int, time: nat, n: nat, m: nat)
    ensures AddTimes(AddTimes(sum, time, n), time, m) == AddTimes(sum, time, n + m)
    ensures AddTimes(sum, time, 1) == Wrap(sum + time)
    ensures 0 <= sum < WIDE ==> AddTimes(sum, time, 0) == sum
  {
    WrapAdd(sum + time * n, time * m);
    assert sum + time * (n + m) == sum + time * n + time * m;
  }

  lemma CountDownMore(x: int, n: nat, m: nat)
    ensures CountDown(CountDown(x, n), m) == CountDown(x, n + m)
    ensures CountDown(x, 1) == Wrap(x - 1)
    ensures 0 <= x < WIDE ==> CountDown(x, 0) == x
  {
    WrapAdd(x - n, 0 - m);
  }

  // The indices of the one bits of all words
  ghost function SetOf(words: seq<Word>): set<nat> {
    set i: nat | i < 32 * |words| && i % 32 in words[i / 32]
  }

  // Bits of a word that another one does not have
  function Fresh(a: Word, b: Word): Word { a - b }

  // Number of the fresh bits of the first n words
  ghost function FreshBits(a: seq<Word>, b: seq<Word>, n: nat): nat
    requires n <= |a| == |b|
  {
    if n == 0 then 0 else FreshBits(a, b, n - 1) + |Fresh(a[n - 1], b[n - 1])|
  }

  lemma FreshNone(a: seq<Word>, b: seq<Word>)
    requires |a| == |b|
    ensures FreshBits(a, b, 0) == 0
  {
  }

  lemma FreshMore(a: seq<Word>, b: seq<Word>, n: nat)
    requires n < |a| == |b|
    ensures FreshBits(a, b, n + 1) == FreshBits(a, b, n) + |Fresh(a[n], b[n])|
  {
  }

  ghost function Shifted(w: set<nat>, n: nat): set<nat> { set b | b in w :: 32 * n + b }

  lemma ShiftedRange(w: Word, n: nat, i: nat)
    ensures i in Shifted(w, n) ==> 32 * n <= i < 32 * n + 32
  {
    if i in Shifted(w, n) {
      var b :| b in w && i == 32 * n + b;
    }
  }

  lemma SetOfUnion(x: seq<Word>, a: seq<Word>, b: seq<Word>)
    requires |x| == |a| == |b| && forall j | 0 <= j < |x| :: x[j] == a[j] + b[j]
    ensures SetOf(x) == SetOf(a) + SetOf(b)
  {
  }

  lemma SetOfEmpty(x: seq<Word>)
    requires forall j | 0 <= j < |x| :: x[j] == {}
    ensures SetOf(x) == {}
  {
  }

  lemma {:induction false} ShiftedSize(w: set<nat>, n: nat)
    ensures |Shifted(w, n)| == |w|
    decreases |w|
  {
    if w != {} {
      var b :| b in w;
      ShiftedSize(w - {b}, n);
      var rest := Shifted(w - {b}, n);
      forall i ensures i in Shifted(w, n) <==> i in rest || i == 32 * n + b {
        if i in Shifted(w, n) && i != 32 * n + b {
          var c :| c in w && i == 32 * n + c;
          assert c in w - {b};
        }
      }
      assert Shifted(w, n) == rest + {32 * n + b};
    }
  }

  lemma ApartSize<T>(low: set<T>, high: set<T>)
    requires low !! high
    ensures |low + high| == |low| + |high|
  {
  }

  // The bits of earlier words have smaller indices
  lemma LowHigh(a: seq<Word>, w: set<nat>, n: nat, i: nat)
    requires n <= |a| && i in SetOf(a[..n])
    ensures i !in Shifted(w, n)
  {
  }

  // Counting word by word counts the set
  lemma {:induction false} FreshBitsSet(a: seq<Word>, b: seq<Word>, n: nat)
    requires n <= |a| == |b|
    ensures FreshBits(a, b, n) == |SetOf(a[..n]) - SetOf(b[..n])|
    decreases n
  {
    hide SetOf;
    if n == 0 {
      NoBits(a, b);
    } else {
      FreshBitsSet(a, b, n - 1);
      OneWordMore(a, b, n);
    }
  }

  lemma NoBits(a: seq<Word>, b: seq<Word>)
    ensures |SetOf(a[..0]) - SetOf(b[..0])| == 0
  {
    assert SetOf(a[..0]) == {};
  }

  lemma OneWordMore(a: seq<Word>, b: seq<Word>, n: nat)
    requires 0 < n <= |a| == |b|
    ensures |SetOf(a[..n]) - SetOf(b[..n])|
         == |SetOf(a[..n - 1]) - SetOf(b[..n - 1])| + |Fresh(a[n - 1], b[n - 1])|
  {
    hide SetOf, Shifted, Fresh;
    var low := SetOf(a[..n - 1]) - SetOf(b[..n - 1]);
    var high := Shifted(Fresh(a[n - 1], b[n - 1]), n - 1);
    ShiftedSize(Fresh(a[n - 1], b[n - 1]), n - 1);
    LastWord(a, b, n);
    forall i | i in low ensures i !in high {
      LowHigh(a, Fresh(a[n - 1], b[n - 1]), n - 1, i);
    }
    ApartSize(low, high);
  }

  lemma LastWord(a: seq<Word>, b: seq<Word>, n: nat)
    requires 0 < n <= |a| == |b|
    ensures SetOf(a[..n]) - SetOf(b[..n])
         == (SetOf(a[..n - 1]) - SetOf(b[..n - 1])) + Shifted(Fresh(a[n - 1], b[n - 1]), n - 1)
  {
    var low := SetOf(a[..n - 1]) - SetOf(b[..n - 1]);
    var high := Shifted(Fresh(a[n - 1], b[n - 1]), n - 1);
    forall i: nat
      ensures i in SetOf(a[..n]) && i !in SetOf(b[..n]) <==> i in low || i in high
    {
      if i < 32 * (n - 1) {
        assert i / 32 < n - 1;
      } else if i < 32 * n {
        var c := i - 32 * (n - 1);
        assert i / 32 == n - 1 && i % 32 == c;
        assert i in high <==> c in Fresh(a[n - 1], b[n - 1]);
      } else {
        ShiftedRange(Fresh(a[n - 1], b[n - 1]), n - 1, i);
      }
    }
  }

  // |= on all words
  method OrInto(a: array<Word>, words: seq<Word>)
    requires a.Length == |words|
    modifies a
    ensures SetOf(a[..]) == old(SetOf(a[..])) + SetOf(words)
  {
    for i := 0 to a.Length
      invariant forall j | 0 <= j < i :: a[j] == old(a[j]) + words[j]
      invariant forall j | i <= j < a.Length :: a[j] == old(a[j])
    {
      a[i] := a[i] + words[i];
    }
    SetOfUnion(a[..], old(a[..]), words);
  }

  // Copy all words
  method Copy(a: array<Word>) returns (words: seq<Word>)
    ensures words == a[..]
  {
    words := [];
    for i := 0 to a.Length
      invariant words == a[..i]
    {
      words := words + [a[i]];
    }
  }

  // For each bit, add the time to the sum and count one down
  method CountBits(bits0: Word, time: nat, sum0: nat, toReach0: nat) returns (sum: nat, toReach: nat)
    requires sum0 < WIDE && toReach0 < WIDE
    ensures sum == AddTimes(sum0, time, |bits0|) && toReach == CountDown(toReach0, |bits0|)
  {
    hide Wrap, AddTimes, CountDown;
    var bits := bits0;
    sum, toReach := sum0, toReach0;
    AddTimesMore(sum0, time, 0, 0);
    CountDownMore(toReach0, 0, 0);
    ghost var n := 0;
    while bits != {}
      invariant bits <= bits0 && n + |bits| == |bits0|
      invariant sum == AddTimes(sum0, time, n) && toReach == CountDown(toReach0, n)
      decreases |bits|
    {
      AddTimesMore(sum0, time, n, 1);
      AddTimesMore(sum, time, 0, 0);
      CountDownMore(toReach0, n, 1);
      CountDownMore(toReach, 0, 0);
      sum := Wrap(sum + time);
      toReach := Wrap(toReach - 1);
      // Clear the lowest bit
      var b := Lowest(bits);
      bits := bits - {b};
      n := n + 1;
    }
  }

  method Lowest(bits: Word) returns (b: nat)
    requires bits != {}
    ensures b in bits && forall c | c in bits :: b <= c
  {
    b := 0;
    ghost var top :| top in bits;
    while b !in bits
      invariant b <= top && forall c | c in bits :: b <= c
      decreases top - b
    {
      b := b + 1;
    }
  }
}
