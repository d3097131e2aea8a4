// Breadth-first search: which nodes a search takes that starts at a root, avoids
// the nodes taken before it, and may stop at any time.
module Searches {
  // One of the nodes has an edge to w
  ghost predicate Leads(rows: seq<seq<nat>>, nodes: set<nat>, w: nat) {
    exists v: nat :: v in nodes && v < |rows| && w in rows[v]
  }

  // Nodes that can be reached from the root in at most k hops past no blocked node
  ghost function Ball(rows: seq<seq<nat>>, blocked: set<nat>, root: nat, k: nat): set<nat> {
    if k == 0 then {root}
    else
      var near := Ball(rows, blocked, root, k - 1);
      near + set w: nat | w < |rows| && w !in blocked && Leads(rows, near, w)
  }

  // The nodes taken: all within k hops and some of those within one hop more
  ghost predicate TakesTo(rows: seq<seq<nat>>, blocked: set<nat>, root: nat, nodes: set<nat>, k: nat) {
    Ball(rows, blocked, root, k) <= nodes <= Ball(rows, blocked, root, k + 1)
  }

  ghost predicate Takes(rows: seq<seq<nat>>, blocked: set<nat>, root: nat, nodes: set<nat>) {
    exists k: nat :: TakesTo(rows, blocked, root, nodes, k)
  }

  // ... and nothing can be reached beyond
  ghost predicate TakesAll(rows: seq<seq<nat>>, blocked: set<nat>, root: nat, nodes: set<nat>) {
    forall k: nat :: Ball(rows, blocked, root, k) <= nodes
  }

  lemma {:induction false} BallGrows(rows: seq<seq<nat>>, blocked: set<nat>, root: nat, j: nat, k: nat)
    requires j <= k
    ensures Ball(rows, blocked, root, j) <= Ball(rows, blocked, root, k)
    decreases k
  {
    if j < k {
      BallGrows(rows, blocked, root, j, k - 1);
    }
  }

  lemma {:induction false} BallOpen(rows: seq<seq<nat>>, blocked: set<nat>, root: nat, k: nat)
    requires root !in blocked
    ensures Ball(rows, blocked, root, k) !! blocked
    decreases k
  {
    if k > 0 {
      BallOpen(rows, blocked, root, k - 1);
    }
  }

  // A search in progress.  The first s nodes of the frontier are within k hops,
  // and all nodes within k hops have been taken or are among them.
  ghost predicate Searching(rows: seq<seq<nat>>, blocked: set<nat>, root: nat, nodes: set<nat>, frontier: seq<nat>,
                            k: nat, s: nat)
  {
    && root !in blocked && s <= |frontier| && nodes <= Ball(rows, blocked, root, k)
    && (k > 0 ==> Ball(rows, blocked, root, k - 1) <= nodes)
    && (forall v | v in Ball(rows, blocked, root, k) :: v in nodes || v in frontier[..s])
    && (forall i | 0 <= i < |frontier| ::
          frontier[i] in Ball(rows, blocked, root, if i < s then k else k + 1))
    && (forall w: nat | w < |rows| && w !in blocked && Leads(rows, nodes, w) :: w in nodes || w in frontier)
  }

  lemma SearchBegins(rows: seq<seq<nat>>, blocked: set<nat>, root: nat)
    requires root !in blocked
    ensures Searching(rows, blocked, root, {}, [root], 0, 1)
  {
    assert [root][..1] == [root];
  }

  // The next distance
  lemma SearchFurther(rows: seq<seq<nat>>, blocked: set<nat>, root: nat, nodes: set<nat>, frontier: seq<nat>, k: nat)
    requires Searching(rows, blocked, root, nodes, frontier, k, 0)
    ensures Searching(rows, blocked, root, nodes, frontier, k + 1, |frontier|)
  {
    BallGrows(rows, blocked, root, k, k + 1);
    assert Ball(rows, blocked, root, k) == nodes;
    assert frontier[..|frontier|] == frontier;
  }

  // The first node of the frontier has been taken before
  lemma SearchDrops(rows: seq<seq<nat>>, blocked: set<nat>, root: nat, nodes: set<nat>, frontier: seq<nat>, k: nat, s: nat)
    requires Searching(rows, blocked, root, nodes, frontier, k, s) && s > 0 && frontier[0] in nodes
    ensures Searching(rows, blocked, root, nodes, frontier[1..], k, s - 1)
  {
    hide Ball, Leads;
    var rest := frontier[1..];
    assert frontier[..s] == [frontier[0]] + rest[..s - 1];
    assert frontier == [frontier[0]] + rest;
    forall i | 0 <= i < |rest| ensures rest[i] in Ball(rows, blocked, root, if i < s - 1 then k else k + 1) {
      assert rest[i] == frontier[i + 1];
    }
  }

  lemma BallStep(rows: seq<seq<nat>>, blocked: set<nat>, root: nat, k: nat, v: nat, w: nat)
    requires v in Ball(rows, blocked, root, k) && v < |rows| && w in rows[v] && w < |rows| && w !in blocked
    ensures w in Ball(rows, blocked, root, k + 1)
  {
    assert Leads(rows, Ball(rows, blocked, root, k), w);
  }

  // The first node of the frontier is taken, and those it leads to join the frontier
  lemma SearchTakes(rows: seq<seq<nat>>, blocked: set<nat>, root: nat, nodes: set<nat>, frontier: seq<nat>, k: nat,
                    s: nat, more: seq<nat>)
    requires Searching(rows, blocked, root, nodes, frontier, k, s) && s > 0 && frontier[0] < |rows|
    requires frontier[0] !in nodes
    requires forall w | w in more :: w in rows[frontier[0]] && w !in blocked && w < |rows|
    requires forall w | w in rows[frontier[0]] && w < |rows| && w !in blocked ::
      w in nodes || w == frontier[0] || w in more
    ensures Searching(rows, blocked, root, nodes + {frontier[0]}, frontier[1..] + more, k, s - 1)
  {
    hide Ball;
    var v, nodes', frontier' := frontier[0], nodes + {frontier[0]}, frontier[1..] + more;
    var near, far := Ball(rows, blocked, root, k), Ball(rows, blocked, root, k + 1);
    assert frontier[..s] == [v] + frontier'[..s - 1];
    assert frontier == [v] + frontier[1..];
    assert frontier[0] in near;
    forall i | 0 <= i < |frontier'| ensures frontier'[i] in if i < s - 1 then near else far {
      if i < |frontier| - 1 {
        assert frontier'[i] == frontier[i + 1];
      } else {
        BallStep(rows, blocked, root, k, v, frontier'[i]);
      }
    }
    forall w: nat | w < |rows| && w !in blocked && Leads(rows, nodes', w) ensures w in nodes' || w in frontier' {
      var u: nat :| u in nodes' && u < |rows| && w in rows[u];
      if u != v {
        assert Leads(rows, nodes, w);
      }
    }
  }

  // A search that has taken something may stop
  lemma SearchStops(rows: seq<seq<nat>>, blocked: set<nat>, root: nat, nodes: set<nat>, frontier: seq<nat>, k: nat, s: nat)
    requires Searching(rows, blocked, root, nodes, frontier, k, s) && root in nodes
    ensures Takes(rows, blocked, root, nodes)
  {
    if k > 0 {
      assert TakesTo(rows, blocked, root, nodes, k - 1);
    } else {
      assert nodes == Ball(rows, blocked, root, 0);
      BallGrows(rows, blocked, root, 0, 1);
      assert TakesTo(rows, blocked, root, nodes, 0);
    }
  }

  // Without a frontier it has taken everything
  lemma {:induction false} SearchEnds(rows: seq<seq<nat>>, blocked: set<nat>, root: nat, nodes: set<nat>, k: nat, s: nat,
                                      j: nat)
    requires Searching(rows, blocked, root, nodes, [], k, s)
    ensures Ball(rows, blocked, root, j) <= nodes
    decreases j
  {
    if j <= k {
      BallGrows(rows, blocked, root, j, k);
    } else {
      SearchEnds(rows, blocked, root, nodes, k, s, j - 1);
      forall w | w in Ball(rows, blocked, root, j) && w !in Ball(rows, blocked, root, j - 1) ensures w in nodes {
        assert Leads(rows, nodes, w);
      }
    }
  }

  lemma RootTaken(rows: seq<seq<nat>>, blocked: set<nat>, root: nat, nodes: set<nat>)
    requires Takes(rows, blocked, root, nodes)
    ensures root in nodes
  {
    var k: nat :| TakesTo(rows, blocked, root, nodes, k);
    BallGrows(rows, blocked, root, 0, k);
  }

  // Whatever node is taken is reached through nodes that have been taken
  lemma {:induction false} TakenThrough(rows: seq<seq<nat>>, blocked: set<nat>, root: nat, nodes: set<nat>, k: nat, w: nat)
    requires TakesTo(rows, blocked, root, nodes, k) && w in nodes && w != root
    ensures Leads(rows, nodes, w) && w !in blocked
    decreases k
  {
    if w !in Ball(rows, blocked, root, k) {
      LeadsMore(rows, Ball(rows, blocked, root, k), nodes, w);
    } else {
      ThroughBall(rows, blocked, root, k, w);
      LeadsMore(rows, Ball(rows, blocked, root, k), nodes, w);
    }
  }

  lemma LeadsMore(rows: seq<seq<nat>>, a: set<nat>, b: set<nat>, w: nat)
    requires Leads(rows, a, w) && a <= b
    ensures Leads(rows, b, w)
  {
  }

  lemma {:induction false} ThroughBall(rows: seq<seq<nat>>, blocked: set<nat>, root: nat, k: nat, w: nat)
    requires w in Ball(rows, blocked, root, k) && w != root
    ensures Leads(rows, Ball(rows, blocked, root, k), w) && w !in blocked
    decreases k
  {
    var near := Ball(rows, blocked, root, k - 1);
    if w in near {
      ThroughBall(rows, blocked, root, k - 1, w);
    }
    LeadsMore(rows, near, Ball(rows, blocked, root, k), w);
  }

  // ---------------------------------------------------------------------
  // Several searches, one after the other

  datatype Sweep = Sweep(root: nat, part: nat, nodes: set<nat>)

  // The nodes of all searches
  ghost function Covered(searches: seq<Sweep>): set<nat> {
    if searches == [] then {} else Covered(searches[..|searches| - 1]) + searches[|searches| - 1].nodes
  }

  // The nodes of all searches for one part
  ghost function InPart(searches: seq<Sweep>, p: nat): set<nat> {
    if searches == [] then {}
    else
      var s := searches[|searches| - 1];
      InPart(searches[..|searches| - 1], p) + if s.part == p then s.nodes else {}
  }

  // The last search starts at the least node that is left, takes nodes for the
  // part that is being filled, and all that it can reach unless the part is full
  ghost predicate NextSearch(rows: seq<seq<nat>>, size: nat, before: seq<Sweep>, s: Sweep) {
    var blocked := Covered(before);
    && s.root !in blocked && (forall v | 0 <= v < s.root :: v in blocked)
    && s.nodes !! blocked && Takes(rows, blocked, s.root, s.nodes)
    && (forall b | b in before :: b.part <= s.part)
    && (forall p | 0 <= p < s.part :: |InPart(before, p)| == size)
    && |InPart(before, s.part)| < size && |InPart(before, s.part) + s.nodes| <= size
    && (|InPart(before, s.part) + s.nodes| < size ==> TakesAll(rows, blocked, s.root, s.nodes))
  }

  ghost predicate Searched(rows: seq<seq<nat>>, size: nat, searches: seq<Sweep>) {
    forall i | 0 <= i < |searches| :: NextSearch(rows, size, searches[..i], searches[i])
  }

  // The parts of all nodes are those of their searches
  ghost predicate BySearches(rows: seq<seq<nat>>, size: nat, part: seq<nat>, searches: seq<Sweep>) {
    && Searched(rows, size, searches)
    && (forall v: nat :: v in Covered(searches) <==> v < |part|)
    && forall i, v | 0 <= i < |searches| && v in searches[i].nodes :: v < |part| && part[v] == searches[i].part
  }

  lemma OneSearch(rows: seq<seq<nat>>, size: nat, before: seq<Sweep>, s: Sweep)
    requires Searched(rows, size, before) && NextSearch(rows, size, before, s)
    ensures Searched(rows, size, before + [s])
    ensures Covered(before + [s]) == Covered(before) + s.nodes
    ensures forall p: nat :: InPart(before + [s], p) == InPart(before, p) + if s.part == p then s.nodes else {}
  {
    hide NextSearch;
    var all := before + [s];
    assert all[..|before|] == before;
    forall i | 0 <= i < |all| ensures NextSearch(rows, size, all[..i], all[i]) {
      if i < |before| {
        assert all[..i] == before[..i];
      }
    }
  }
}
