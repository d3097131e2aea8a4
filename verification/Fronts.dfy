// Breadth-first fronts: which sources reach a vertex within k hops, and the
// distances that follow from them.
module Fronts {
  import opened Vertices
  import opened Gals

  // start[v]: the sources that are at vertex v
  ghost function Front<E>(g: Graph<E>, start: seq<set<nat>>, k: nat, v: nat): set<nat>
    requires |g| == |start|
    decreases k, 1, 0
  {
    if v >= |g| then {}
    else if k == 0 then start[v]
    else Front(g, start, k - 1, v) + Nearby(g, start, k - 1, v, |g|)
  }

  // Union of the fronts of the neighbours among the first n vertices
  ghost function Nearby<E>(g: Graph<E>, start: seq<set<nat>>, k: nat, v: nat, n: nat): set<nat>
    requires |g| == |start| && n <= |g|
    decreases k, 2, n
  {
    if n == 0 then {}
    else Nearby(g, start, k, v, n - 1) + if Linked(g, n - 1, v) then Front(g, start, k, n - 1) else {}
  }

  lemma {:induction false} NearbyHas<E>(g: Graph<E>, start: seq<set<nat>>, k: nat, v: nat, n: nat, i: nat)
    requires |g| == |start| && n <= |g|
    ensures i in Nearby(g, start, k, v, n) <==> exists u: nat :: u < n && Linked(g, u, v) && i in Front(g, start, k, u)
    decreases n
  {
    hide Front, Linked;
    if n > 0 {
      NearbyHas(g, start, k, v, n - 1, i);
      if u: nat :| u < n && Linked(g, u, v) && i in Front(g, start, k, u) {
        if u < n - 1 {
          assert i in Nearby(g, start, k, v, n - 1);
        }
      }
      if i in Nearby(g, start, k, v, n) && i !in Nearby(g, start, k, v, n - 1) {
        assert Linked(g, n - 1, v) && i in Front(g, start, k, n - 1);
      }
    }
  }

  // One hop further
  lemma FrontHop<E>(g: Graph<E>, start: seq<set<nat>>, k: nat, u: nat, v: nat)
    requires |g| == |start| && Linked(g, u, v) && v < |g|
    ensures Front(g, start, k, u) <= Front(g, start, k + 1, v)
  {
    hide Front, Nearby, Linked;
    FrontNext(g, start, k, v);
    LinkedFrom(g, u, v);
    forall i | i in Front(g, start, k, u) ensures i in Front(g, start, k + 1, v) {
      NearbyHas(g, start, k, v, |g|, i);
    }
  }

  lemma LinkedFrom<E>(g: Graph<E>, u: nat, v: nat)
    requires Linked(g, u, v)
    ensures u < |g|
  {
  }

  lemma FrontNext<E>(g: Graph<E>, start: seq<set<nat>>, k: nat, v: nat)
    requires |g| == |start| && v < |g|
    ensures Front(g, start, k + 1, v) == Front(g, start, k, v) + Nearby(g, start, k, v, |g|)
  {
  }

  lemma {:induction false} FrontGrows<E>(g: Graph<E>, start: seq<set<nat>>, j: nat, k: nat, v: nat)
    requires |g| == |start| && j <= k
    ensures Front(g, start, j, v) <= Front(g, start, k, v)
    decreases k - j
  {
    if j < k {
      FrontGrows(g, start, j, k - 1, v);
    }
  }

  // A walk along edges from a vertex where source i is, to v
  ghost predicate Walk<E>(g: Graph<E>, start: seq<set<nat>>, i: nat, v: nat, walk: seq<nat>)
    requires |g| == |start|
  {
    && walk != [] && (forall j | 0 <= j < |walk| :: walk[j] < |g|)
    && i in start[walk[0]] && walk[|walk| - 1] == v
    && forall j | 0 <= j < |walk| - 1 :: Linked(g, walk[j], walk[j + 1])
  }

  // The front is exactly what walks of at most k hops reach
  lemma {:induction false} FrontWalk<E>(g: Graph<E>, start: seq<set<nat>>, k: nat, v: nat, i: nat) returns (walk: seq<nat>)
    requires |g| == |start| && i in Front(g, start, k, v)
    ensures Walk(g, start, i, v, walk) && |walk| <= k + 1
    decreases k
  {
    hide Linked;
    if k == 0 {
      walk := [v];
    } else if i in Front(g, start, k - 1, v) {
      walk := FrontWalk(g, start, k - 1, v, i);
    } else {
      NearbyHas(g, start, k - 1, v, |g|, i);
      var u: nat :| u < |g| && Linked(g, u, v) && i in Front(g, start, k - 1, u);
      var w := FrontWalk(g, start, k - 1, u, i);
      walk := w + [v];
      assert forall j | 0 <= j < |walk| - 1 :: Linked(g, walk[j], walk[j + 1]);
    }
  }

  lemma {:induction false} WalkFront<E>(g: Graph<E>, start: seq<set<nat>>, i: nat, v: nat, walk: seq<nat>)
    requires |g| == |start| && Walk(g, start, i, v, walk)
    ensures i in Front(g, start, |walk| - 1, v)
    decreases |walk|
  {
    hide Linked;
    var n := |walk| - 1;
    if n > 0 {
      var rest := walk[..n];
      WalkFront(g, start, i, walk[n - 1], rest);
      assert Linked(g, walk[n - 1], walk[n - 1 + 1]);
      FrontHop(g, start, n - 1, walk[n - 1], v);
    }
  }

  // ---------------------------------------------------------------------
  // Distances

  // First front that has i, given that front k has it
  ghost function FirstAt<E>(g: Graph<E>, start: seq<set<nat>>, i: nat, v: nat, k: nat): (d: nat)
    requires |g| == |start| && i in Front(g, start, k, v)
    ensures d <= k && i in Front(g, start, d, v) && forall j: nat | j < d :: i !in Front(g, start, j, v)
    decreases k
  {
    if k > 0 && i in Front(g, start, k - 1, v) then FirstAt(g, start, i, v, k - 1)
    else
      NotBefore(g, start, i, v, k);
      k
  }

  lemma NotBefore<E>(g: Graph<E>, start: seq<set<nat>>, i: nat, v: nat, k: nat)
    requires |g| == |start| && (k == 0 || i !in Front(g, start, k - 1, v))
    ensures forall j: nat | j < k :: i !in Front(g, start, j, v)
  {
    forall j: nat | j < k ensures i !in Front(g, start, j, v) {
      FrontGrows(g, start, j, k - 1, v);
    }
  }

  // The distance of v from source i, if it can be reached at all
  ghost predicate Reached<E>(g: Graph<E>, start: seq<set<nat>>, i: nat, v: nat)
    requires |g| == |start|
  {
    exists k: nat :: i in Front(g, start, k, v)
  }

  ghost function Dist<E>(g: Graph<E>, start: seq<set<nat>>, i: nat, v: nat): (d: nat)
    requires |g| == |start| && Reached(g, start, i, v)
    ensures i in Front(g, start, d, v) && forall j: nat | j < d :: i !in Front(g, start, j, v)
  {
    var k: nat :| i in Front(g, start, k, v);
    FirstAt(g, start, i, v, k)
  }

  // The distance is the length of a shortest walk
  lemma DistShortest<E>(g: Graph<E>, start: seq<set<nat>>, i: nat, v: nat) returns (walk: seq<nat>)
    requires |g| == |start| && Reached(g, start, i, v)
    ensures Walk(g, start, i, v, walk) && |walk| - 1 == Dist(g, start, i, v)
    ensures forall w | Walk(g, start, i, v, w) :: |walk| <= |w|
  {
    var d := Dist(g, start, i, v);
    walk := FrontWalk(g, start, d, v, i);
    forall w | Walk(g, start, i, v, w) ensures d + 1 <= |w| {
      WalkFront(g, start, i, v, w);
    }
  }

  // Sum of the distances from the first n sources that are in front k
  ghost function DistSum<E>(g: Graph<E>, start: seq<set<nat>>, k: nat, v: nat, n: nat): nat
    requires |g| == |start|
    decreases n
  {
    if n == 0 then 0
    else
      DistSum(g, start, k, v, n - 1)
        + if n - 1 in Front(g, start, k, v) then FirstAt(g, start, n - 1, v, k) else 0
  }

  // Sum of all distances, when all n sources reach v
  ghost function AllDists<E>(g: Graph<E>, start: seq<set<nat>>, v: nat, n: nat): nat
    requires |g| == |start| && forall i | 0 <= i < n :: Reached(g, start, i, v)
  {
    if n == 0 then 0 else AllDists(g, start, v, n - 1) + Dist(g, start, n - 1, v)
  }

  lemma {:induction false} DistSumAll<E>(g: Graph<E>, start: seq<set<nat>>, k: nat, v: nat, n: nat)
    requires |g| == |start| && forall i | 0 <= i < n :: i in Front(g, start, k, v)
    ensures forall i | 0 <= i < n :: Reached(g, start, i, v)
    ensures DistSum(g, start, k, v, n) == AllDists(g, start, v, n)
    decreases n
  {
    if n > 0 {
      hide Front;
      DistSumAll(g, start, k, v, n - 1);
      OnlyFirst(g, start, n - 1, v, FirstAt(g, start, n - 1, v, k), Dist(g, start, n - 1, v));
    }
  }

  lemma OnlyFirst<E>(g: Graph<E>, start: seq<set<nat>>, i: nat, v: nat, a: nat, b: nat)
    requires |g| == |start| && i in Front(g, start, a, v) && i in Front(g, start, b, v)
    requires forall j: nat | j < a :: i !in Front(g, start, j, v)
    requires forall j: nat | j < b :: i !in Front(g, start, j, v)
    ensures a == b
  {
    hide Front;
  }

  // Sources below n
  ghost function Below(s: set<nat>, n: nat): set<nat> { set i | i in s && i < n }

  lemma {:induction false} BelowNext(s: set<nat>, n: nat)
    ensures |Below(s, n + 1)| == |Below(s, n)| + if n in s then 1 else 0
  {
    if n in s {
      assert Below(s, n + 1) == Below(s, n) + {n};
    } else {
      assert Below(s, n + 1) == Below(s, n);
    }
  }

  // Moving one front on adds the new distance once for each new source
  lemma {:induction false} DistSumNext<E>(g: Graph<E>, start: seq<set<nat>>, k: nat, v: nat, n: nat)
    requires |g| == |start|
    ensures var gained := Front(g, start, k + 1, v) - Front(g, start, k, v);
      DistSum(g, start, k + 1, v, n) == DistSum(g, start, k, v, n) + (k + 1) * |Below(gained, n)|
    decreases n
  {
    hide Front;
    var gained := Front(g, start, k + 1, v) - Front(g, start, k, v);
    if n == 0 {
      assert Below(gained, 0) == {};
    } else {
      DistSumNext(g, start, k, v, n - 1);
      BelowNext(gained, n - 1);
      FrontGrows(g, start, k, k + 1, v);
      MulNext(k + 1, |Below(gained, n - 1)|);
    }
  }

  lemma MulNext(a: nat, b: nat)
    ensures a * (b + 1) == a * b + a
  {
  }

  lemma {:induction false} DistSumZero<E>(g: Graph<E>, start: seq<set<nat>>, v: nat, n: nat)
    requires |g| == |start|
    ensures DistSum(g, start, 0, v, n) == 0
    decreases n
  {
    if n > 0 {
      DistSumZero(g, start, v, n - 1);
    }
  }
}
