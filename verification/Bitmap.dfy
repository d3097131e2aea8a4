// The bitmap of used keys that every thread of the machine keeps.
module Bitmaps {
  import opened Wrappers

  // A 64-bit word, as the set of the positions of its one bits
  type Word = s: set<nat> | forall i | i in s :: i < 64

  const FULL: Word := set i: nat | i < 64

  lemma EmptyNotFull()
    ensures {} != FULL
  {
    assert 0 in FULL;
  }

  // Position of the least zero bit of a word that is not full
  function FirstZero(w: Word): (bit: nat)
    requires w != FULL
    ensures bit < 64 && bit !in w && forall i | 0 <= i < bit :: i in w
  {
    NotFull(w);
    FirstZeroFrom(w, 0)
  }

  predicate HasZero(w: Word, from: nat) {
    exists i :: from <= i < 64 && i !in w
  }

  lemma NotFull(w: Word)
    requires w != FULL
    ensures HasZero(w, 0)
  {
    var i :| i in FULL && i !in w;
  }

  function FirstZeroFrom(w: Word, from: nat): (bit: nat)
    requires HasZero(w, from) && forall i | 0 <= i < from :: i in w
    ensures bit < 64 && bit !in w && forall i | 0 <= i < bit :: i in w
    decreases 64 - from
  {
    if from !in w then from else FirstZeroFrom(w, from + 1)
  }

  // Whether an index is set in a sequence of words, which continues with zeros
  predicate Taken(contents: seq<Word>, index: nat) {
    index / 64 < |contents| && index % 64 in contents[index / 64]
  }

  class Bitmap {
    // The words, of 64 bits each
    var contents: seq<Word>
    // All words before this one are full
    var firstFree: nat

    ghost predicate Valid()
      reads this
    {
      && firstFree <= |contents|
      && (forall i | 0 <= i < firstFree :: contents[i] == FULL)
      && (firstFree < |contents| ==> contents[firstFree] != FULL)
    }

    predicate IsSet(index: nat)
      reads this
    {
      Taken(contents, index)
    }

    constructor ()
      ensures Valid() && forall i :: !IsSet(i)
    {
      contents := [];
      firstFree := 0;
    }

    // Words beyond the end count as 0
    function GetWord(index: nat): (w: Word)
      reads this
      ensures forall bit: nat | bit < 64 :: bit in w <==> IsSet(64 * index + bit)
    {
      if index >= |contents| then {} else contents[index]
    }

    // The first word from the given one on that has a zero
    method NextFreeWordFrom(start: nat) returns (i: nat)
      requires start <= |contents|
      ensures start <= i <= |contents|
      ensures forall j | start <= j < i :: contents[j] == FULL
      ensures i < |contents| ==> contents[i] != FULL
    {
      i := start;
      while i < |contents|
        invariant start <= i <= |contents|
        invariant forall j | start <= j < i :: contents[j] == FULL
      {
        if contents[i] != FULL {
          return;
        }
        i := i + 1;
      }
    }

    // Makes one bit a one
    method SetBit(wordIndex: nat, bitIndex: nat)
      requires Valid() && bitIndex < 64
      modifies this
      ensures Valid()
      ensures forall i :: IsSet(i) <==> old(IsSet(i)) || i == 64 * wordIndex + bitIndex
    {
      ghost var before := contents;
      var i := |contents|;
      while i <= wordIndex
        invariant |contents| == i >= |before| && before == contents[..|before|]
        invariant forall j | |before| <= j < i :: contents[j] == {}
        invariant unchanged(`firstFree)
        decreases wordIndex - i
      {
        contents := contents + [{}];
        i := i + 1;
      }
      contents := contents[wordIndex := contents[wordIndex] + {bitIndex}];
      SetOne(before, contents, wordIndex, bitIndex);
      if wordIndex == firstFree {
        firstFree := NextFreeWordFrom(firstFree);
      }
    }

    // Every index below the first free word is set
    lemma BelowFirstFree(index: nat)
      requires Valid() && index < 64 * firstFree
      ensures IsSet(index)
    {
      assert contents[index / 64] == FULL;
    }

    lemma BelowZero(wordIndex: nat, bit: nat)
      requires Valid() && wordIndex == firstFree && bit < 64
      requires bit !in GetWord(wordIndex) && forall i | 0 <= i < bit :: i in GetWord(wordIndex)
      ensures !IsSet(64 * wordIndex + bit)
      ensures forall i | 0 <= i < 64 * wordIndex + bit :: IsSet(i)
    {
      forall i | 0 <= i < 64 * wordIndex + bit ensures IsSet(i) {
        if i < 64 * wordIndex {
          BelowFirstFree(i);
        } else {
          assert i - 64 * wordIndex in GetWord(wordIndex);
        }
      }
    }

    // Takes the least index that is free
    method GrabNextBit() returns (result: nat)
      requires Valid()
      modifies this
      ensures Valid() && !old(IsSet(result))
      ensures forall i | 0 <= i < result :: old(IsSet(i))
      ensures forall i :: IsSet(i) <==> old(IsSet(i)) || i == result
    {
      var word := GetWord(firstFree);
      EmptyNotFull();
      var bit := FirstZero(word);
      result := 64 * firstFree + bit;
      BelowZero(firstFree, bit);
      SetBit(firstFree, bit);
    }
  }

  lemma SetOne(before: seq<Word>, after: seq<Word>, wordIndex: nat, bitIndex: nat)
    requires bitIndex < 64 && wordIndex < |after| && |before| <= |after|
    requires forall j | 0 <= j < |after| && j != wordIndex ::
      after[j] == if j < |before| then before[j] else {}
    requires after[wordIndex] == (if wordIndex < |before| then before[wordIndex] else {}) + {bitIndex}
    ensures forall i :: Taken(after, i) <==> Taken(before, i) || i == 64 * wordIndex + bitIndex
  {
    forall i: nat
      ensures Taken(after, i) <==> Taken(before, i) || i == 64 * wordIndex + bitIndex
    {
      if i / 64 == wordIndex {
        assert i == 64 * wordIndex + i % 64;
      }
    }
  }
}
