// Multicast over the mesh of boards: what the network does with a routing key,
// and the dimension-ordered construction of the boards' routing tables.
module Mesh {
  import opened Wrappers
  import opened RoutingRecords
  import opened ProgRouters

  datatype Board = Board(x: nat, y: nat)

  // A routing destination: threads of one mailbox, with the local key that
  // replaces the first word (URM1) or half-word (MRM) of the message
  datatype Dest =
    | DestURM1(mbox: nat, threadId: nat, key: nat)
    | DestMRM(mbox: nat, maskLow: nat, maskHigh: nat, key: nat)

  // Fields of a global mailbox id: board Y (3 bits), board X (3), mailbox Y (2),
  // mailbox X (2)
  function DestX(mbox: nat): nat { mbox / 16 % 8 }
  function DestY(mbox: nat): nat { mbox / 128 % 8 }
  function DestMboxX(mbox: nat): nat { mbox % 4 }
  function DestMboxY(mbox: nat): nat { mbox / 4 % 4 }
  function BoardOf(d: Dest): Board { Board(DestX(d.mbox), DestY(d.mbox)) }
  function MakeMbox(b: Board, x: nat, y: nat): nat { b.y * 128 + b.x * 16 + y * 4 + x }

  // The record that delivers a destination on its own board
  function LocalRecord(d: Dest): Record {
    match d
    case DestURM1(m, t, k) => URM1(DestMboxX(m), DestMboxY(m), t, k)
    case DestMRM(m, lo, hi, k) => MRM(DestMboxX(m), DestMboxY(m), hi, lo, k)
  }

  // A destination whose fields have the widths of the source's types
  predicate Fits(d: Dest) { d.mbox < 1024 && LocalRecord(d).Fits() }

  // ---------------------------------------------------------------------
  // The network

  // How a board's router reads a key
  type Reader = (Board, nat) -> Option<seq<Record>>

  function Neighbour(b: Board, dir: nat): Option<Board> {
    if dir == 0 then Some(Board(b.x, b.y + 1))
    else if dir == 1 && b.y > 0 then Some(Board(b.x, b.y - 1))
    else if dir == 2 then Some(Board(b.x + 1, b.y))
    else if dir == 3 && b.x > 0 then Some(Board(b.x - 1, b.y))
    else None
  }

  // What a message does on its way: the destinations it is delivered to, and
  // the boards whose routers it visits
  datatype Report = Report(dests: multiset<Dest>, boards: multiset<Board>) {
    function Join(r: Report): Report { Report(dests + r.dests, boards + r.boards) }
  }

  const NOTHING: Report := Report(multiset{}, multiset{})

  function Visit(b: Board): Report { Report(multiset{}, multiset{b}) }
  function Leaves(ds: seq<Dest>): Report { Report(multiset(ds), multiset{}) }

  lemma JoinNothing(a: Report)
    ensures a.Join(NOTHING) == a && NOTHING.Join(a) == a
  {
  }

  lemma LeavesMore(a: Report, ds: seq<Dest>, i: nat)
    requires i < |ds|
    ensures a.Join(Leaves(ds[..i])).Join(Leaves([ds[i]])) == a.Join(Leaves(ds[..i + 1]))
  {
    assert ds[..i + 1] == ds[..i] + [ds[i]];
  }

  function Plus(a: Option<Report>, b: Option<Report>): Option<Report> {
    if a.Some? && b.Some? then Some(a.value.Join(b.value)) else None
  }

  datatype Way = Here | North | South | East | West

  function DirOf(w: Way): nat
    requires w != Here
  {
    match w case North => 0 case South => 1 case East => 2 case West => 3
  }

  function WayOf(dir: nat): Way {
    if dir == 0 then North else if dir == 1 then South else if dir == 2 then East else West
  }

  // Dimension order: a message may leave a board in direction w after it came
  // in direction `came`.  It never turns back, and never moves along a row
  // again once it has moved along a column.
  predicate Turns(came: Way, w: Way) {
    match came
    case Here => true
    case East => w != West
    case West => w != East
    case North => w == North || w == Here
    case South => w == South || w == Here
  }

  // Hence no cycle of links can wait for one another: along every turn that is
  // allowed, this rank of the links of the mesh grows
  function LinkRank(b: Board, w: Way): int
    requires w != Here
  {
    match w case East => b.x case West => 7 - b.x case North => 8 + b.y case South => 15 - b.y
  }

  lemma TurnsAcyclic(b: Board, w: Way, w': Way)
    requires b.x < 8 && b.y < 8 && w != Here && w' != Here && Turns(w, w')
    requires Neighbour(b, DirOf(w)).Some?
    requires var next := Neighbour(b, DirOf(w)).value; next.x < 8 && next.y < 8
    ensures LinkRank(b, w) < LinkRank(Neighbour(b, DirOf(w)).value, w')
  {
  }

  // Everything that happens when a message with a routing key enters the
  // router of board b, having come in direction `came` (Here: from a thread of
  // that board), and at most `hops` further boards are crossed
  function Deliver(read: Reader, b: Board, came: Way, key: nat, hops: nat): Option<Report>
    decreases hops, 1
  {
    var rs := read(b, key);
    if rs.None? then None else Plus(Some(Visit(b)), DeliverAll(read, b, came, rs.value, hops))
  }

  function DeliverAll(read: Reader, b: Board, came: Way, rs: seq<Record>, hops: nat): Option<Report>
    decreases hops, 0, |rs|
  {
    if rs == [] then Some(NOTHING)
    else
      var n := |rs| - 1;
      Plus(DeliverAll(read, b, came, rs[..n], hops), DeliverOne(read, b, came, rs[n], hops))
  }

  function DeliverOne(read: Reader, b: Board, came: Way, r: Record, hops: nat): Option<Report>
    decreases hops, 0, 0
  {
    match r
    case URM1(x, y, t, k) => Some(Leaves([DestURM1(MakeMbox(b, x, y), t, k)]))
    case MRM(x, y, hi, lo, k) => Some(Leaves([DestMRM(MakeMbox(b, x, y), lo, hi, k)]))
    case IND(_) => None
    case RR(dir, k) =>
      var next := Neighbour(b, dir);
      if hops == 0 || next.None? || !Turns(came, WayOf(dir)) then None
      else Deliver(read, next.value, WayOf(dir), k, hops - 1)
  }

  // Whatever one reader finds, the other finds as well
  ghost predicate Extends(read: Reader, more: Reader) {
    forall b, k :: read(b, k).Some? ==> more(b, k) == read(b, k)
  }

  lemma {:induction false} DeliverExtends(read: Reader, more: Reader, b: Board, came: Way, key: nat, hops: nat, hops': nat)
    requires Extends(read, more) && hops <= hops' && Deliver(read, b, came, key, hops).Some?
    ensures Deliver(more, b, came, key, hops') == Deliver(read, b, came, key, hops)
    decreases hops, 1
  {
    DeliverAllExtends(read, more, b, came, read(b, key).value, hops, hops');
  }

  lemma {:induction false} DeliverAllExtends(read: Reader, more: Reader, b: Board, came: Way, rs: seq<Record>,
                                             hops: nat, hops': nat)
    requires Extends(read, more) && hops <= hops' && DeliverAll(read, b, came, rs, hops).Some?
    ensures DeliverAll(more, b, came, rs, hops') == DeliverAll(read, b, came, rs, hops)
    decreases hops, 0, |rs|
  {
    hide Deliver, Extends;
    if rs != [] {
      var n := |rs| - 1;
      DeliverAllExtends(read, more, b, came, rs[..n], hops, hops');
      if rs[n].RR? {
        DeliverExtends(read, more, Neighbour(b, rs[n].dir).value, WayOf(rs[n].dir), rs[n].newKey, hops - 1, hops' - 1);
      }
    }
  }

  lemma DeliverPush(read: Reader, b: Board, came: Way, rs: seq<Record>, r: Record, hops: nat)
    ensures DeliverAll(read, b, came, rs + [r], hops)
         == Plus(DeliverAll(read, b, came, rs, hops), DeliverOne(read, b, came, r, hops))
  {
    assert (rs + [r])[..|rs|] == rs;
  }

  // A local record delivers exactly its destination
  lemma DeliverLocal(read: Reader, d: Dest, came: Way, hops: nat)
    requires Fits(d)
    ensures DeliverOne(read, BoardOf(d), came, LocalRecord(d), hops) == Some(Leaves([d]))
  {
    MboxFields(d.mbox);
  }

  lemma MboxFields(m: nat)
    requires m < 1024
    ensures MakeMbox(Board(DestX(m), DestY(m)), DestMboxX(m), DestMboxY(m)) == m
  {
    Fields(m, m / 4, m % 4);
    Fields(m / 4, m / 16, m / 4 % 4) by { Rows(m); }
    Boards(m);
  }

  lemma Fields(n: nat, high: nat, low: nat)
    requires high == n / 4 && low == n % 4
    ensures n == high * 4 + low
  {
  }

  lemma Rows(m: nat)
    ensures m / 4 / 4 == m / 16
  {
  }

  lemma Boards(m: nat)
    requires m < 1024
    ensures m / 16 == m / 128 % 8 * 8 + m / 16 % 8
  {
    var box := m / 16;
    assert box < 64 && m / 128 == box / 8 && m / 128 < 8;
  }

  // ---------------------------------------------------------------------
  // Dimension-ordered routes: first along the row, then along the column

  function WayTo(b: Board, d: Board): Way {
    if d.x < b.x then West
    else if d.x > b.x then East
    else if d.y < b.y then South
    else if d.y > b.y then North
    else Here
  }

  function Next(b: Board, w: Way): Board
    requires w != Here && (w == South ==> b.y > 0) && (w == West ==> b.x > 0)
  {
    Neighbour(b, DirOf(w)).value
  }

  function Abs(a: int): nat { if a < 0 then -a else a }
  function Dist(a: Board, b: Board): nat { Abs(a.x - b.x) + Abs(a.y - b.y) }

  predicate Between(a: nat, m: nat, b: nat) { a <= m <= b || b <= m <= a }

  // Board m is on the route from b to d
  predicate OnRoute(b: Board, d: Board, m: Board) {
    || (m.y == b.y && Between(b.x, m.x, d.x))
    || (m.x == d.x && Between(b.y, m.y, d.y))
  }

  ghost predicate OnRoutes(b: Board, dests: seq<Dest>, m: Board) {
    exists i :: 0 <= i < |dests| && OnRoute(b, BoardOf(dests[i]), m)
  }

  function MaxDist(b: Board, dests: seq<Dest>): nat {
    if dests == [] then 0
    else
      var n := |dests| - 1;
      var rest := MaxDist(b, dests[..n]);
      if Dist(b, BoardOf(dests[n])) > rest then Dist(b, BoardOf(dests[n])) else rest
  }

  lemma {:induction false} MaxDistBounds(b: Board, dests: seq<Dest>)
    ensures forall i | 0 <= i < |dests| :: Dist(b, BoardOf(dests[i])) <= MaxDist(b, dests)
    decreases |dests|
  {
    hide Dist, BoardOf;
    if dests != [] {
      var n := |dests| - 1;
      MaxDistBounds(b, dests[..n]);
      forall i | 0 <= i < n ensures Dist(b, BoardOf(dests[i])) <= MaxDist(b, dests) {
        assert dests[..n][i] == dests[i];
      }
    }
  }

  lemma {:induction false} MaxDistReached(b: Board, dests: seq<Dest>) returns (i: nat)
    requires dests != []
    ensures i < |dests| && Dist(b, BoardOf(dests[i])) == MaxDist(b, dests)
    decreases |dests|
  {
    hide Dist, BoardOf;
    var n := |dests| - 1;
    i := n;
    if n > 0 && Dist(b, BoardOf(dests[n])) != MaxDist(b, dests) {
      i := MaxDistReached(b, dests[..n]);
    }
  }

  // The destinations that leave board b in direction w (or stay)
  function Group(b: Board, dests: seq<Dest>, w: Way): (g: seq<Dest>)
    ensures forall i | 0 <= i < |g| :: g[i] in dests && WayTo(b, BoardOf(g[i])) == w
  {
    if dests == [] then []
    else
      var n := |dests| - 1;
      Group(b, dests[..n], w) + (if WayTo(b, BoardOf(dests[n])) == w then [dests[n]] else [])
  }

  function CountIn(b: Board, dests: seq<Dest>, w: Way, d: Dest): nat {
    multiset(Group(b, dests, w))[d]
  }

  lemma CountSplit(dests: seq<Dest>, d: Dest)
    requires dests != []
    ensures var n := |dests| - 1;
      multiset(dests)[d] == multiset(dests[..n])[d] + if dests[n] == d then 1 else 0
  {
    assert dests == dests[..|dests| - 1] + [dests[|dests| - 1]];
  }

  lemma CountLast(b: Board, dests: seq<Dest>, w: Way, d: Dest)
    requires dests != []
    ensures var n := |dests| - 1;
      CountIn(b, dests, w, d) == CountIn(b, dests[..n], w, d)
        + (if WayTo(b, BoardOf(dests[n])) == w && dests[n] == d then 1 else 0)
  {
  }

  lemma {:induction false} CountsAdd(b: Board, dests: seq<Dest>, d: Dest)
    ensures multiset(dests)[d] == CountIn(b, dests, North, d) + CountIn(b, dests, South, d)
      + CountIn(b, dests, East, d) + CountIn(b, dests, West, d) + CountIn(b, dests, Here, d)
  {
    if dests != [] {
      hide CountIn, WayTo;
      var n := |dests| - 1;
      CountsAdd(b, dests[..n], d);
      CountSplit(dests, d);
      CountLast(b, dests, North, d);
      CountLast(b, dests, South, d);
      CountLast(b, dests, East, d);
      CountLast(b, dests, West, d);
      CountLast(b, dests, Here, d);
    }
  }

  // Every destination is in exactly one group
  lemma GroupsPartition(b: Board, dests: seq<Dest>)
    ensures multiset(dests)
         == multiset(Group(b, dests, North)) + multiset(Group(b, dests, South))
          + multiset(Group(b, dests, East)) + multiset(Group(b, dests, West))
          + multiset(Group(b, dests, Here))
  {
    hide Group;
    forall d: Dest {
      CountsAdd(b, dests, d);
    }
  }

  // One hop brings every destination of a group nearer, and the routes from
  // there are the rest of the routes from here
  lemma StepNearer(b: Board, d: Board, w: Way)
    requires WayTo(b, d) == w != Here
    ensures (w == South ==> b.y > 0) && (w == West ==> b.x > 0)
    ensures Dist(Next(b, w), d) == Dist(b, d) - 1
    ensures !OnRoute(Next(b, w), d, b)
    ensures forall m :: OnRoute(Next(b, w), d, m) ==> OnRoute(b, d, m)
    ensures OnRoute(b, d, Next(b, w)) && OnRoute(b, d, b)
    ensures Turns(w, WayTo(Next(b, w), d))
  {
  }

  // Every destination lies in a direction that may be taken
  ghost predicate Heads(came: Way, b: Board, dests: seq<Dest>) {
    forall i | 0 <= i < |dests| :: Turns(came, WayTo(b, BoardOf(dests[i])))
  }

  lemma GroupNearer(b: Board, dests: seq<Dest>, w: Way)
    requires w != Here && Group(b, dests, w) != []
    ensures (w == South ==> b.y > 0) && (w == West ==> b.x > 0)
    ensures MaxDist(Next(b, w), Group(b, dests, w)) < MaxDist(b, dests)
    ensures !OnRoutes(Next(b, w), Group(b, dests, w), b)
    ensures forall m :: OnRoutes(Next(b, w), Group(b, dests, w), m) ==> OnRoutes(b, dests, m)
    ensures Heads(w, Next(b, w), Group(b, dests, w))
    ensures forall came | Heads(came, b, dests) :: Turns(came, w)
  {
    var g := Group(b, dests, w);
    StepNearer(b, BoardOf(g[0]), w);
    MaxDistBounds(b, dests);
    var far := MaxDistReached(Next(b, w), g);
    forall i | 0 <= i < |g|
      ensures Dist(Next(b, w), BoardOf(g[i])) < MaxDist(b, dests)
      ensures !OnRoute(Next(b, w), BoardOf(g[i]), b)
      ensures forall m :: OnRoute(Next(b, w), BoardOf(g[i]), m) ==> OnRoutes(b, dests, m)
      ensures Turns(w, WayTo(Next(b, w), BoardOf(g[i])))
    {
      StepNearer(b, BoardOf(g[i]), w);
      var j :| 0 <= j < |dests| && dests[j] == g[i];
    }
    var j :| 0 <= j < |dests| && dests[j] == g[0];
  }

  // ---------------------------------------------------------------------
  // The tree of routes to all destinations

  // The boards that the message visits from board b on, and its deliveries
  ghost function Tree(b: Board, dests: seq<Dest>): Report
    decreases MaxDist(b, dests), 1
  {
    Visit(b).Join(Branches(b, dests).Join(Leaves(Group(b, dests, Here))))
  }

  ghost function Branches(b: Board, dests: seq<Dest>): Report
    decreases MaxDist(b, dests), 0, 1
  {
    Branch(b, dests, North).Join(Branch(b, dests, South)).Join(Branch(b, dests, East)).Join(Branch(b, dests, West))
  }

  ghost function Branch(b: Board, dests: seq<Dest>, w: Way): Report
    requires w != Here
    decreases MaxDist(b, dests), 0, 0
  {
    var g := Group(b, dests, w);
    if g == [] then NOTHING
    else
      GroupNearer(b, dests, w);
      Tree(Next(b, w), g)
  }

  lemma TreeIs(b: Board, dests: seq<Dest>)
    ensures Tree(b, dests) == Visit(b).Join(Branches(b, dests).Join(Leaves(Group(b, dests, Here))))
  {
  }

  lemma NoTree(b: Board)
    ensures Tree(b, []) == Visit(b).Join(NOTHING)
  {
    assert Leaves(Group(b, [], Here)) == NOTHING by { assert multiset(Group(b, [], Here)) == multiset{}; }
    assert Branches(b, []) == NOTHING by {
      assert Branch(b, [], North) == NOTHING && Branch(b, [], South) == NOTHING;
      assert Branch(b, [], East) == NOTHING && Branch(b, [], West) == NOTHING;
      JoinNothing(NOTHING);
    }
    JoinNothing(NOTHING);
  }

  // A key that makes the network deliver exactly the given destinations
  ghost predicate Delivers(net: Reader, b: Board, key: nat, dests: seq<Dest>) {
    var report := Deliver(net, b, Here, key, MaxDist(b, dests));
    report.Some? && report.value.dests == multiset(dests)
  }

  // The tree delivers exactly the destinations
  lemma {:induction false} TreeDelivers(b: Board, dests: seq<Dest>)
    ensures Tree(b, dests).dests == multiset(dests)
    decreases MaxDist(b, dests)
  {
    GroupsPartition(b, dests);
    forall w | w != Here ensures Branch(b, dests, w).dests == multiset(Group(b, dests, w)) {
      if Group(b, dests, w) != [] {
        GroupNearer(b, dests, w);
        TreeDelivers(Next(b, w), Group(b, dests, w));
      }
    }
  }

  // Which boards lie on the routes that begin in one direction
  lemma OnBranch(b: Board, d: Board, w: Way, m: Board)
    requires WayTo(b, d) == w != Here && OnRoute(Next(b, w), d, m)
    ensures match w
      case East => m.x > b.x
      case West => m.x < b.x
      case North => m.x == b.x && m.y > b.y
      case South => m.x == b.x && m.y < b.y
      case Here => true
  {
  }

  lemma OffBranch(b: Board, d: Board, w: Way, m: Board)
    requires WayTo(b, d) == w && OnRoute(b, d, m) && m != b
    ensures w != Here && (w == South ==> b.y > 0) && (w == West ==> b.x > 0) && OnRoute(Next(b, w), d, m)
  {
  }

  // Routes of different directions only meet on this board
  lemma OneBranch(b: Board, dests: seq<Dest>, w: Way, w': Way, m: Board)
    requires w != Here && w' != Here && InBranch(b, dests, w, m) && InBranch(b, dests, w', m)
    ensures w == w' && m != b
  {
    var g, g' := Group(b, dests, w), Group(b, dests, w');
    var i :| 0 <= i < |g| && OnRoute(Next(b, w), BoardOf(g[i]), m);
    var j :| 0 <= j < |g'| && OnRoute(Next(b, w'), BoardOf(g'[j]), m);
    OnBranch(b, BoardOf(g[i]), w, m);
    OnBranch(b, BoardOf(g'[j]), w', m);
  }

  // The board is on the route to a destination that lies in direction w
  ghost predicate InBranch(b: Board, dests: seq<Dest>, w: Way, m: Board)
    requires w != Here
  {
    && Group(b, dests, w) != [] && (w == South ==> b.y > 0) && (w == West ==> b.x > 0)
    && OnRoutes(Next(b, w), Group(b, dests, w), m)
  }

  lemma SomeBranch(b: Board, dests: seq<Dest>, m: Board)
    requires OnRoutes(b, dests, m) && m != b
    ensures exists w :: w != Here && InBranch(b, dests, w, m)
  {
    var i :| 0 <= i < |dests| && OnRoute(b, BoardOf(dests[i]), m);
    var w := WayTo(b, BoardOf(dests[i]));
    OffBranch(b, BoardOf(dests[i]), w, m);
    InGroup(b, dests, w, i);
    assert InBranch(b, dests, w, m);
  }

  lemma {:induction false} InGroup(b: Board, dests: seq<Dest>, w: Way, i: nat)
    requires i < |dests| && WayTo(b, BoardOf(dests[i])) == w
    ensures dests[i] in Group(b, dests, w)
    decreases |dests|
  {
    if i < |dests| - 1 {
      InGroup(b, dests[..|dests| - 1], w, i);
    }
  }

  // The tree visits the boards on the routes, each of them once, and no others
  lemma {:induction false} TreeVisits(b: Board, dests: seq<Dest>, m: Board)
    ensures Tree(b, dests).boards[m] == if m == b || OnRoutes(b, dests, m) then 1 else 0
    decreases MaxDist(b, dests)
  {
    hide OnRoutes, Group, MaxDist, OnRoute, WayTo, Tree;
    forall w | w != Here
      ensures Branch(b, dests, w).boards[m] == if InBranch(b, dests, w, m) then 1 else 0
      ensures InBranch(b, dests, w, m) ==> OnRoutes(b, dests, m)
    {
      if Group(b, dests, w) != [] {
        GroupNearer(b, dests, w);
        TreeVisits(Next(b, w), Group(b, dests, w), m);
        NextOnRoutes(b, dests, w);
      }
    }
    forall w, w' | w != Here && w' != Here && InBranch(b, dests, w, m) && InBranch(b, dests, w', m)
      ensures w == w' && m != b
    {
      OneBranch(b, dests, w, w', m);
    }
    if OnRoutes(b, dests, m) && m != b {
      SomeBranch(b, dests, m);
    }
    TreeCounts(b, dests, m);
    assert OnRoutes(b, dests, m) && m != b ==>
      InBranch(b, dests, North, m) || InBranch(b, dests, South, m) || InBranch(b, dests, East, m) || InBranch(b, dests, West, m);
  }

  lemma TreeCounts(b: Board, dests: seq<Dest>, m: Board)
    ensures Tree(b, dests).boards[m] == (if m == b then 1 else 0)
      + Branch(b, dests, North).boards[m] + Branch(b, dests, South).boards[m]
      + Branch(b, dests, East).boards[m] + Branch(b, dests, West).boards[m]
  {
  }

  lemma NextOnRoutes(b: Board, dests: seq<Dest>, w: Way)
    requires w != Here && Group(b, dests, w) != []
    ensures (w == South ==> b.y > 0) && (w == West ==> b.x > 0)
    ensures OnRoutes(Next(b, w), Group(b, dests, w), Next(b, w))
  {
    var g := Group(b, dests, w);
    StepNearer(b, BoardOf(g[0]), w);
  }

  // ---------------------------------------------------------------------
  // Sizes of the keys built along the way

  // Chunks of the records that a board needs: one RR record for each direction
  // taken, then the local records
  function Hops(b: Board, dests: seq<Dest>, w: Way): seq<nat> {
    if Group(b, dests, w) == [] then [] else [1]
  }

  function LocalChunks(local: seq<Dest>): seq<nat> {
    seq(|local|, i requires 0 <= i < |local| => LocalRecord(local[i]).Chunks())
  }

  function BoardChunks(b: Board, dests: seq<Dest>): seq<nat> {
    Hops(b, dests, North) + Hops(b, dests, South) + Hops(b, dests, East) + Hops(b, dests, West)
      + LocalChunks(Group(b, dests, Here))
  }

  function Fills(f: Fill, chunks: seq<nat>): Fill {
    if chunks == [] then f
    else Advance(Fills(f, chunks[..|chunks| - 1]), chunks[|chunks| - 1])
  }

  // No key of the multicast ends with a number of beats that GenKey cannot
  // close properly
  predicate Closable(b: Board, dests: seq<Dest>)
    decreases MaxDist(b, dests)
  {
    && Fills(Fill(1, 0), BoardChunks(b, dests)).beats % MAX_LOOKUP != 30
    && ClosableWay(b, dests, North) && ClosableWay(b, dests, South)
    && ClosableWay(b, dests, East) && ClosableWay(b, dests, West)
  }

  predicate ClosableWay(b: Board, dests: seq<Dest>, w: Way)
    requires w != Here
    decreases MaxDist(b, dests), 0
  {
    var g := Group(b, dests, w);
    if g == [] then true
    else
      GroupNearer(b, dests, w);
      Closable(Next(b, w), g)
  }

  // ---------------------------------------------------------------------
  // Building the tables

  type Env = map<Board, map<nat, seq<Record>>>

  // Reading keys in an environment; a key of no beats has no destinations
  ghost function ReaderOf(env: Env): Reader {
    (b: Board, key: nat) =>
      if KeyLen(key) == 0 then Some([])
      else if b in env && key in env[b] then Some(env[b][key])
      else None
  }

  ghost predicate Grows(keys: map<nat, seq<Record>>, keys': map<nat, seq<Record>>) {
    forall k | k in keys :: k in keys' && keys'[k] == keys[k]
  }

  ghost predicate EnvGrows(env: Env, env': Env) {
    forall b | b in env :: b in env' && Grows(env[b], env'[b])
  }

  lemma EnvExtends(env: Env, env': Env)
    requires EnvGrows(env, env')
    ensures Extends(ReaderOf(env), ReaderOf(env'))
  {
  }

  // An RR record adds what the next board delivers for its key
  lemma HopDelivers(env: Env, env': Env, b: Board, came: Way, pending: seq<Record>, w: Way, key: nat,
                    hops: nat, hops': nat, done: Report, group: Report)
    requires w != Here && (w == South ==> b.y > 0) && (w == West ==> b.x > 0)
    requires EnvGrows(env, env') && hops' < hops && Turns(came, w)
    requires DeliverAll(ReaderOf(env), b, came, pending, hops) == Some(done)
    requires Deliver(ReaderOf(env'), Next(b, w), w, key, hops') == Some(group)
    ensures DeliverAll(ReaderOf(env'), b, came, pending + [RR(DirOf(w), key)], hops) == Some(done.Join(group))
  {
    hide Deliver, DeliverAll, ReaderOf, EnvGrows, Report.Join;
    EnvExtends(env, env');
    DeliverAllExtends(ReaderOf(env), ReaderOf(env'), b, came, pending, hops, hops);
    DeliverExtends(ReaderOf(env'), ReaderOf(env'), Next(b, w), w, key, hops', hops - 1);
    DeliverPush(ReaderOf(env'), b, came, pending, RR(DirOf(w), key), hops);
  }

  // A closed key delivers what its records deliver
  lemma KeyDelivers(env: Env, env': Env, b: Board, came: Way, key: nat, pending: seq<Record>,
                    hops: nat, done: Report)
    requires EnvGrows(env, env') && KeyLen(key) > 0
    requires b in env' && key in env'[b] && env'[b][key] == pending
    requires DeliverAll(ReaderOf(env), b, came, pending, hops) == Some(done)
    ensures Deliver(ReaderOf(env'), b, came, key, hops) == Some(Visit(b).Join(done))
  {
    EnvExtends(env, env');
    DeliverAllExtends(ReaderOf(env), ReaderOf(env'), b, came, pending, hops, hops);
  }

  lemma LocalDelivers(read: Reader, b: Board, came: Way, pending: seq<Record>, d: Dest, hops: nat,
                      done: Report)
    requires Fits(d) && BoardOf(d) == b
    requires DeliverAll(read, b, came, pending, hops) == Some(done)
    ensures DeliverAll(read, b, came, pending + [LocalRecord(d)], hops) == Some(done.Join(Leaves([d])))
  {
    DeliverPush(read, b, came, pending, LocalRecord(d), hops);
    DeliverLocal(read, d, came, hops);
  }

  lemma OneFill(f: Fill)
    ensures Fills(f, [1]) == Advance(f, 1)
  {
    assert [1][..0] == [];
  }

  lemma KeysKept(env: Env)
    ensures EnvGrows(env, env)
  {
  }

  lemma KeysKeptOn(a: Env, b: Env, c: Env)
    requires EnvGrows(a, b) && EnvGrows(b, c)
    ensures EnvGrows(a, c)
  {
  }

  lemma GroupHere(b: Board, dests: seq<Dest>)
    requires forall i | 0 <= i < |dests| :: Fits(dests[i])
    ensures forall i | 0 <= i < |Group(b, dests, Here)| ::
      Fits(Group(b, dests, Here)[i]) && BoardOf(Group(b, dests, Here)[i]) == b
  {
    forall i | 0 <= i < |Group(b, dests, Here)|
      ensures Fits(Group(b, dests, Here)[i]) && BoardOf(Group(b, dests, Here)[i]) == b
    {
      var j :| 0 <= j < |dests| && dests[j] == Group(b, dests, Here)[i];
    }
  }

  lemma NoneLeft(b: Board, dests: seq<Dest>)
    ensures dests == [] || Group(b, dests, North) != [] || Group(b, dests, South) != []
         || Group(b, dests, East) != [] || Group(b, dests, West) != [] || Group(b, dests, Here) != []
  {
    GroupsPartition(b, dests);
    if dests != [] {
      assert dests[0] in multiset(dests);
    }
  }

  lemma NothingDelivered(read: Reader, b: Board, came: Way, hops: nat)
    ensures DeliverAll(read, b, came, [], hops) == Some(NOTHING)
  {
  }

  lemma FillsBoard(f: Fill, b: Board, dests: seq<Dest>)
    ensures Fills(f, BoardChunks(b, dests))
         == Fills(Fills(Fills(Fills(Fills(f, Hops(b, dests, North)), Hops(b, dests, South)),
                  Hops(b, dests, East)), Hops(b, dests, West)),
                  LocalChunks(Group(b, dests, Here)))
  {
    hide Fills, Hops, LocalChunks, Group;
    var n, s, e, w := Hops(b, dests, North), Hops(b, dests, South), Hops(b, dests, East), Hops(b, dests, West);
    FillsAppend(f, n + s + e + w, LocalChunks(Group(b, dests, Here)));
    FillsAppend(f, n + s + e, w);
    FillsAppend(f, n + s, e);
    FillsAppend(f, n, s);
  }

  // Categorise destinations into local, N, S, E, and W groups
  method Categorise(b: Board, dests: seq<Dest>)
    returns (local: seq<Dest>, north: seq<Dest>, south: seq<Dest>, east: seq<Dest>, west: seq<Dest>)
    ensures local == Group(b, dests, Here)
    ensures north == Group(b, dests, North) && south == Group(b, dests, South)
    ensures east == Group(b, dests, East) && west == Group(b, dests, West)
  {
    local, north, south, east, west := [], [], [], [], [];
    for i := 0 to |dests|
      invariant local == Group(b, dests[..i], Here)
      invariant north == Group(b, dests[..i], North) && south == Group(b, dests[..i], South)
      invariant east == Group(b, dests[..i], East) && west == Group(b, dests[..i], West)
    {
      var dest := dests[i];
      var receiverX, receiverY := DestX(dest.mbox), DestY(dest.mbox);
      assert dests[..i + 1][..i] == dests[..i];
      if receiverX < b.x {
        west := west + [dest];
      } else if receiverX > b.x {
        east := east + [dest];
      } else if receiverY < b.y {
        south := south + [dest];
      } else if receiverY > b.y {
        north := north + [dest];
      } else {
        local := local + [dest];
      }
    }
    assert dests[..|dests|] == dests;
  }

  lemma NoFills(f: Fill)
    ensures Fills(f, []) == f
  {
  }

  lemma LocalChunksLength(local: seq<Dest>)
    ensures |LocalChunks(local)| == |local|
  {
  }

  lemma OneMoreFill(f: Fill, local: seq<Dest>, i: nat)
    requires i < |local|
    ensures |LocalChunks(local)| == |local|
    ensures Fills(f, LocalChunks(local)[..i + 1])
         == Advance(Fills(f, LocalChunks(local)[..i]), LocalRecord(local[i]).Chunks())
  {
    assert LocalChunks(local)[..i + 1][..i] == LocalChunks(local)[..i];
  }

  lemma {:induction false} FillsAppend(f: Fill, a: seq<nat>, c: seq<nat>)
    ensures Fills(f, a + c) == Fills(Fills(f, a), c)
    decreases |c|
  {
    if c == [] {
      assert a + c == a;
    } else {
      FillsAppend(f, a, c[..|c| - 1]);
      assert (a + c)[..|a + c| - 1] == a + c[..|c| - 1];
    }
  }

  // ---------------------------------------------------------------------
  // A multicast that names each mailbox once never meets the beat count that
  // GenKey cannot close: there are too few mailboxes on a board

  ghost predicate Falling(ds: seq<Dest>) {
    forall i, j | 0 <= i < j < |ds| :: ds[i].mbox > ds[j].mbox
  }

  lemma {:induction false} GroupFalls(b: Board, ds: seq<Dest>, w: Way)
    requires Falling(ds)
    ensures Falling(Group(b, ds, w))
  {
    if ds != [] {
      var n := |ds| - 1;
      GroupFalls(b, ds[..n], w);
      var g := Group(b, ds[..n], w);
      forall i | 0 <= i < |g| ensures g[i].mbox > ds[n].mbox {
        assert g[i] in ds[..n];
      }
    }
  }

  lemma {:induction false} FewOnBoard(b: Board, ds: seq<Dest>)
    requires Falling(ds) && forall i | 0 <= i < |ds| :: ds[i].mbox < 1024 && BoardOf(ds[i]) == b
    ensures |ds| <= 16
  {
    if |ds| > 16 {
      var i: nat := 0;
      var top := b.y * 128 + b.x * 16 + 15;
      while i < 16
        invariant i <= 16 && ds[i].mbox <= top - i
      {
        assert ds[i].mbox > ds[i + 1].mbox;
        i := i + 1;
      }
      MboxFields(ds[16].mbox);
    }
  }

  lemma {:induction false} FillsBound(f: Fill, chunks: seq<nat>)
    ensures Fills(f, chunks).beats <= f.beats + |chunks|
  {
    if chunks != [] {
      FillsBound(f, chunks[..|chunks| - 1]);
    }
  }

  lemma {:induction false} AlwaysClosable(b: Board, ds: seq<Dest>)
    requires Falling(ds) && forall i | 0 <= i < |ds| :: ds[i].mbox < 1024
    ensures Closable(b, ds)
    decreases MaxDist(b, ds), 1
  {
    hide Fills, MaxDist, Group, Closable, ClosableWay, WayTo, BoardOf, LocalChunks, Hops;
    var local := Group(b, ds, Here);
    forall i | 0 <= i < |local| ensures local[i].mbox < 1024 && BoardOf(local[i]) == b {
      assert local[i] in ds;
      HereMeans(b, BoardOf(local[i]));
    }
    GroupFalls(b, ds, Here);
    FewOnBoard(b, local);
    LocalChunksLength(local);
    HopCount(b, ds);
    FillsBound(Fill(1, 0), BoardChunks(b, ds));
    WayClosable(b, ds, North);
    WayClosable(b, ds, South);
    WayClosable(b, ds, East);
    WayClosable(b, ds, West);
    ClosableFrom(b, ds);
  }

  lemma HereMeans(b: Board, d: Board)
    requires WayTo(b, d) == Here
    ensures b == d
  {
  }

  lemma HopCount(b: Board, ds: seq<Dest>)
    ensures |Hops(b, ds, North)| <= 1 && |Hops(b, ds, South)| <= 1
    ensures |Hops(b, ds, East)| <= 1 && |Hops(b, ds, West)| <= 1
  {
  }

  lemma ClosableFrom(b: Board, ds: seq<Dest>)
    requires Fills(Fill(1, 0), BoardChunks(b, ds)).beats < 30
    requires ClosableWay(b, ds, North) && ClosableWay(b, ds, South)
    requires ClosableWay(b, ds, East) && ClosableWay(b, ds, West)
    ensures Closable(b, ds)
  {
  }

  lemma {:induction false} WayClosable(b: Board, ds: seq<Dest>, w: Way)
    requires Falling(ds) && w != Here && forall i | 0 <= i < |ds| :: ds[i].mbox < 1024
    ensures ClosableWay(b, ds, w)
    decreases MaxDist(b, ds), 0
  {
    hide MaxDist, Closable, Falling;
    var g := Group(b, ds, w);
    if g != [] {
      GroupNearer(b, ds, w);
      GroupFalls(b, ds, w);
      forall i | 0 <= i < |g| ensures g[i].mbox < 1024 {
        assert g[i] in ds;
      }
      AlwaysClosable(Next(b, w), g);
    }
  }

  // Reading keys from the bytes of the boards' tables
  ghost function ByteReader(tables: map<Board, seq<seq<byte>>>): Reader {
    (b: Board, key: nat) =>
      if b in tables && |tables[b]| == 2 && |tables[b][0]| % 32 == 0 && |tables[b][1]| % 32 == 0
      then DecodeKey(tables[b], key)
      else if KeyLen(key) == 0 then Some([])
      else None
  }

  class ProgRouterMesh {
    // Size of the mesh in boards
    const boardsX: nat
    const boardsY: nat
    // Routers of the boards, row by row
    const table: seq<seq<ProgRouter>>
    ghost const routers: set<ProgRouter>

    predicate InMesh(b: Board) { b.x < boardsX && b.y < boardsY }

    ghost predicate Shape() {
      && |table| == boardsY
      && (forall y | 0 <= y < boardsY :: |table[y]| == boardsX)
      && (forall x, y | 0 <= y < boardsY && 0 <= x < boardsX :: table[y][x] in routers)
      && (forall x, y, x', y' | 0 <= y < boardsY && 0 <= x < boardsX
                             && 0 <= y' < boardsY && 0 <= x' < boardsX ::
            table[y][x] == table[y'][x'] ==> x == x' && y == y')
    }

    function At(b: Board): (r: ProgRouter)
      requires Shape() && InMesh(b)
      ensures r in routers
    {
      table[b.y][b.x]
    }

    lemma Distinct(a: Board, b: Board)
      requires Shape() && InMesh(a) && InMesh(b) && a != b
      ensures At(a) != At(b)
    {
    }

    ghost predicate Valid()
      reads routers
    {
      Shape() && forall b | InMesh(b) :: At(b).Ready()
    }

    // The table of some board has become too long
    ghost predicate SomeFull()
      requires Shape()
      reads routers
    {
      exists b :: InMesh(b) && At(b).Full()
    }

    // Every board is between two keys
    ghost predicate AllIdle()
      requires Shape()
      reads routers
    {
      forall m | InMesh(m) :: At(m).Idle()
    }

    // Every board on the routes, except possibly `busy`, is between two keys
    ghost predicate Clear(b: Board, dests: seq<Dest>, busy: Option<Board>)
      requires Shape()
      reads routers
    {
      forall m | InMesh(m) && OnRoutes(b, dests, m) && busy != Some(m) :: At(m).Idle()
    }

    lemma IdleClear(b: Board, dests: seq<Dest>)
      requires Shape() && AllIdle()
      ensures Clear(b, dests, None)
    {
    }

    // The records behind the keys of every board
    ghost function Keys(): (env: Env)
      requires Shape()
      reads routers
    {
      map x, y | 0 <= x < boardsX && 0 <= y < boardsY :: Board(x, y) := At(Board(x, y)).keys
    }

    // Only the boards on the routes have changed
    twostate predicate OnlyOnRoutes(b: Board, dests: seq<Dest>)
      requires Shape()
      reads routers
    {
      forall m | InMesh(m) && !OnRoutes(b, dests, m) :: unchanged(At(m))
    }

    lemma NextInMesh(b: Board, dests: seq<Dest>, w: Way)
      requires Shape() && InMesh(b) && w != Here && Group(b, dests, w) != []
      requires forall i | 0 <= i < |dests| :: InMesh(BoardOf(dests[i]))
      ensures (w == South ==> b.y > 0) && (w == West ==> b.x > 0) && InMesh(Next(b, w))
      ensures dests != []
    {
      var g := Group(b, dests, w);
      StepNearer(b, BoardOf(g[0]), w);
      var j :| 0 <= j < |dests| && dests[j] == g[0];
    }

    // After the recursion in direction w, this board is as it was and all the
    // other boards on the routes are between two keys
    twostate lemma WayBuilt(new b: Board, new dests: seq<Dest>, new w: Way)
      requires Shape() && InMesh(b) && w != Here && Group(b, dests, w) != []
      requires forall i | 0 <= i < |dests| :: InMesh(BoardOf(dests[i]))
      requires old(Clear(b, dests, Some(b)))
      requires (w == South ==> b.y > 0) && (w == West ==> b.x > 0)
      requires OnlyOnRoutes(Next(b, w), Group(b, dests, w))
      requires Clear(Next(b, w), Group(b, dests, w), None)
      ensures Clear(b, dests, Some(b)) && OnlyOnRoutes(b, dests) && unchanged(At(b))
    {
      GroupNearer(b, dests, w);
      forall m | InMesh(m) && OnRoutes(b, dests, m) && m != b ensures At(m).Idle() {
        if !OnRoutes(Next(b, w), Group(b, dests, w), m) {
          assert unchanged(At(m));
        }
      }
    }

    lemma ChildClear(b: Board, dests: seq<Dest>, w: Way)
      requires Shape() && w != Here && Group(b, dests, w) != []
      requires Clear(b, dests, Some(b)) && (w == South ==> b.y > 0) && (w == West ==> b.x > 0)
      ensures Clear(Next(b, w), Group(b, dests, w), None)
    {
      GroupNearer(b, dests, w);
    }

    // Adding a record to the board in the middle of its key
    twostate lemma OnlyBoard(new b: Board, new dests: seq<Dest>)
      requires old(Valid()) && Shape() && InMesh(b) && old(Clear(b, dests, Some(b)))
      requires forall r | r in routers && r != At(b) :: unchanged(r)
      requires At(b).Ready() && At(b).keys == old(At(b).keys)
      ensures Valid() && Clear(b, dests, Some(b)) && Keys() == old(Keys())
      ensures forall m | InMesh(m) && m != b :: unchanged(At(m))
    {
      hide ProgRouter.Valid, OnRoutes;
      forall m | InMesh(m) && m != b ensures unchanged(At(m)) {
        Distinct(m, b);
      }
    }

    // Changes on the routes so far, then on the board itself, are on the routes
    twostate lemma HopFrame(new b: Board, new dests: seq<Dest>)
      requires Shape() && InMesh(b) && dests != []
      requires forall m | InMesh(m) && !OnRoutes(b, dests, m) && m != b :: unchanged(At(m))
      ensures OnlyOnRoutes(b, dests)
    {
      assert OnRoute(b, BoardOf(dests[0]), b);
    }

    // Add an RR record for the boards in direction w
    method AddHop(b: Board, dests: seq<Dest>, dir: nat, key: nat) returns (o: Outcome)
      requires Valid() && InMesh(b) && Clear(b, dests, Some(b)) && RR(dir, key).Fits()
      modifies At(b)
      ensures o.Value? ==> Valid() && Clear(b, dests, Some(b)) && Keys() == old(Keys())
      ensures forall m | InMesh(m) && m != b :: unchanged(At(m))
      ensures o.Value? ==> At(b).Filled() == Advance(old(At(b).Filled()), 1) && At(b).numRecords > 0
      ensures o.Value? ==> At(b).Pending() == old(At(b).Pending()) + [RR(dir, key)]
      ensures o.Exited? ==> SomeFull()
    {
      forall m | InMesh(m) && m != b ensures At(m) != At(b) { Distinct(m, b); }
      var _ :- At(b).AddRR(dir, key);
      OnlyBoard(b, dests);
      return Continue;
    }

    // Add the record of a destination on this board
    method AddLocal(b: Board, dests: seq<Dest>, d: Dest) returns (o: Outcome)
      requires Valid() && InMesh(b) && Clear(b, dests, Some(b)) && Fits(d)
      modifies At(b)
      ensures o.Value? ==> Valid() && Clear(b, dests, Some(b)) && Keys() == old(Keys())
      ensures forall m | InMesh(m) && m != b :: unchanged(At(m))
      ensures o.Value? ==>
        && At(b).Filled() == Advance(old(At(b).Filled()), LocalRecord(d).Chunks())
        && At(b).numRecords > 0
      ensures o.Value? ==> At(b).Pending() == old(At(b).Pending()) + [LocalRecord(d)]
      ensures o.Exited? ==> SomeFull()
    {
      forall m | InMesh(m) && m != b ensures At(m) != At(b) { Distinct(m, b); }
      match d {
        case DestMRM(mbox, lo, hi, key) =>
          var _ :- At(b).AddMRM(DestMboxX(mbox), DestMboxY(mbox), hi, lo, key);
        case DestURM1(mbox, thread, key) =>
          var _ :- At(b).AddURM1(DestMboxX(mbox), DestMboxY(mbox), thread, key);
      }
      OnlyBoard(b, dests);
      return Continue;
    }

    // Add the records of all destinations on this board
    method AddLocals(b: Board, dests: seq<Dest>, local: seq<Dest>, ghost came: Way, ghost hops: nat,
                     ghost done: Report) returns (o: Outcome)
      requires Valid() && InMesh(b) && Clear(b, dests, Some(b))
      requires forall i | 0 <= i < |local| :: Fits(local[i]) && BoardOf(local[i]) == b
      requires DeliverAll(ReaderOf(Keys()), b, came, At(b).Pending(), hops) == Some(done)
      modifies At(b)
      ensures o.Value? ==> Valid() && Clear(b, dests, Some(b)) && Keys() == old(Keys())
      ensures forall m | InMesh(m) && m != b :: unchanged(At(m))
      ensures o.Value? ==> At(b).Filled() == Fills(old(At(b).Filled()), LocalChunks(local))
      ensures o.Value? ==> At(b).numRecords > 0 || (local == [] && unchanged(At(b)))
      ensures o.Value? ==>
        DeliverAll(ReaderOf(Keys()), b, came, At(b).Pending(), hops) == Some(done.Join(Leaves(local)))
      ensures o.Exited? ==> SomeFull()
    {
      hide Clear, Fits, DeliverAll, Fills, Advance, ProgRouter.Valid, ProgRouter.Idle, LocalChunks, OnRoutes;
      forall m | InMesh(m) && m != b ensures At(m) != At(b) { Distinct(m, b); }
      assert local[..0] == [] && LocalChunks(local)[..0] == [];
      JoinNothing(done);
      NoFills(At(b).Filled());
      LocalChunksLength(local);
      for i := 0 to |local|
        invariant Valid() && Clear(b, dests, Some(b)) && Keys() == old(Keys())
        invariant forall m | InMesh(m) && m != b :: unchanged(At(m))
        invariant At(b).Filled() == Fills(old(At(b).Filled()), LocalChunks(local)[..i])
        invariant if i == 0 then unchanged(At(b)) else At(b).numRecords > 0
        invariant DeliverAll(ReaderOf(Keys()), b, came, At(b).Pending(), hops)
               == Some(done.Join(Leaves(local[..i])))
      {
        LocalDelivers(ReaderOf(Keys()), b, came, At(b).Pending(), local[i], hops, done.Join(Leaves(local[..i])));
        var _ :- AddLocal(b, dests, local[i]);
        LeavesMore(done, local, i);
        OneMoreFill(old(At(b).Filled()), local, i);
      }
      assert local[..|local|] == local && LocalChunks(local)[..|local|] == LocalChunks(local);
      return Continue;
    }

    // Close the key of this board
    method CloseBoard(b: Board, dests: seq<Dest>, ghost came: Way, ghost hops: nat,
                      ghost done: Report)
      returns (r: Result<nat>)
      requires Valid() && InMesh(b) && Clear(b, dests, Some(b))
      requires At(b).numRecords > 0 && At(b).numBeats % MAX_LOOKUP != 30
      requires DeliverAll(ReaderOf(Keys()), b, came, At(b).Pending(), hops) == Some(done)
      modifies At(b)
      ensures r.Value? ==> Valid() && Clear(b, dests, None) && EnvGrows(old(Keys()), Keys())
      ensures forall m | InMesh(m) && m != b :: unchanged(At(m))
      ensures r.Value? ==> r.value < 0x1_0000_0000
      ensures r.Value? ==> Deliver(ReaderOf(Keys()), b, came, r.value, hops) == Some(Visit(b).Join(done))
      ensures r.Exited? ==> SomeFull()
    {
      hide DeliverAll, Deliver, ProgRouter.Valid, OnRoutes, Report.Join;
      forall m | InMesh(m) && m != b ensures At(m) != At(b) { Distinct(m, b); }
      ghost var env, pending := Keys(), At(b).Pending();
      var key :- At(b).GenKey();
      KeyDelivers(env, Keys(), b, came, key, pending, hops, done);
      return Value(key);
    }

    // Recurse on the destinations in one direction and add an RR record on return
    method AddWay(b: Board, dests: seq<Dest>, w: Way, group: seq<Dest>, ghost came: Way,
                  ghost done: Report)
      returns (o: Outcome)
      requires Valid() && InMesh(b) && w != Here && Clear(b, dests, Some(b))
      requires forall i | 0 <= i < |dests| :: Fits(dests[i]) && InMesh(BoardOf(dests[i]))
      requires Heads(came, b, dests)
      requires ClosableWay(b, dests, w) && group == Group(b, dests, w)
      requires DeliverAll(ReaderOf(Keys()), b, came, At(b).Pending(), MaxDist(b, dests)) == Some(done)
      modifies routers
      decreases MaxDist(b, dests), 0, 0
      ensures o.Value? ==> Valid() && Clear(b, dests, Some(b)) && OnlyOnRoutes(b, dests)
      ensures o.Value? ==> EnvGrows(old(Keys()), Keys())
      ensures o.Value? ==> At(b).Filled() == Fills(old(At(b).Filled()), Hops(b, dests, w))
      ensures o.Value? ==>
        if group == [] then unchanged(At(b)) else At(b).numRecords > 0
      ensures o.Value? ==>
        var now := DeliverAll(ReaderOf(Keys()), b, came, At(b).Pending(), MaxDist(b, dests));
        now == Some(done.Join(Branch(b, dests, w)))
      ensures o.Exited? ==> SomeFull()
    {
      hide ProgRouter.Valid, ProgRouter.Idle, Clear, OnRoutes, Fits, DeliverAll, Deliver, Group,
           Fills, Advance, MaxDist, Closable, EnvGrows;
      ghost var fill := At(b).Filled();
      if |group| == 0 {
        JoinNothing(done);
        NoFills(fill);
        KeysKept(Keys());
        return Continue;
      }
      GroupNearer(b, dests, w);
      NextInMesh(b, dests, w);
      ChildClear(b, dests, w);
      ghost var hops, env, pending := MaxDist(b, dests), Keys(), At(b).Pending();
      var key :- AddDestsFromBoardXY(Next(b, w), group, w);
      WayBuilt(b, dests, w);
      HopDelivers(env, Keys(), b, came, pending, w, key, hops, MaxDist(Next(b, w), group), done,
                  Tree(Next(b, w), group));
      label child:
      var _ :- AddHop(b, dests, DirOf(w), key);
      HopFrame(b, dests);
      OneFill(fill);
      return Continue;
    }

    // Recurse in two directions, one after the other
    method AddWays(b: Board, dests: seq<Dest>, w: Way, group: seq<Dest>,
                   w': Way, group': seq<Dest>, ghost came: Way, ghost done: Report)
      returns (o: Outcome)
      requires Valid() && InMesh(b) && w != Here && w' != Here && Clear(b, dests, Some(b))
      requires forall i | 0 <= i < |dests| :: Fits(dests[i]) && InMesh(BoardOf(dests[i]))
      requires Heads(came, b, dests)
      requires ClosableWay(b, dests, w) && group == Group(b, dests, w)
      requires ClosableWay(b, dests, w') && group' == Group(b, dests, w')
      requires DeliverAll(ReaderOf(Keys()), b, came, At(b).Pending(), MaxDist(b, dests)) == Some(done)
      modifies routers
      decreases MaxDist(b, dests), 0, 1
      ensures o.Value? ==> Valid() && Clear(b, dests, Some(b)) && OnlyOnRoutes(b, dests)
      ensures o.Value? ==> EnvGrows(old(Keys()), Keys())
      ensures o.Value? ==>
        At(b).Filled() == Fills(Fills(old(At(b).Filled()), Hops(b, dests, w)), Hops(b, dests, w'))
      ensures o.Value? ==>
        if group == [] == group' then unchanged(At(b)) else At(b).numRecords > 0
      ensures o.Value? ==>
        var now := DeliverAll(ReaderOf(Keys()), b, came, At(b).Pending(), MaxDist(b, dests));
        now == Some(done.Join(Branch(b, dests, w)).Join(Branch(b, dests, w')))
      ensures o.Exited? ==> SomeFull()
    {
      hide ProgRouter.Valid, ProgRouter.Idle, Clear, OnRoutes, Fits, DeliverAll, Deliver, Group,
           Fills, Advance, MaxDist, EnvGrows, Hops, ClosableWay;
      ghost var env := Keys();
      var _ :- AddWay(b, dests, w, group, came, done);
      ghost var env1 := Keys();
      var _ :- AddWay(b, dests, w', group', came, done.Join(Branch(b, dests, w)));
      KeysKeptOn(env, env1, Keys());
      return Continue;
    }

    // Add routing destinations from given sender board; returns routing key.
    // Only the boards on the routes have changed, they are between two keys
    // again, and every key handed out before still stands.  The network
    // delivers exactly the given destinations for the new key.
    method AddDestsFromBoardXY(b: Board, dests: seq<Dest>, ghost came: Way) returns (r: Result<nat>)
      requires Valid() && InMesh(b) && Clear(b, dests, None) && Closable(b, dests)
      requires forall i | 0 <= i < |dests| :: Fits(dests[i]) && InMesh(BoardOf(dests[i]))
      requires Heads(came, b, dests)
      modifies routers
      decreases MaxDist(b, dests), 1
      ensures r.Value? ==> Valid() && Clear(b, dests, None) && OnlyOnRoutes(b, dests)
      ensures r.Value? ==> EnvGrows(old(Keys()), Keys())
      ensures r.Value? ==> r.value < 0x1_0000_0000
      ensures r.Value? ==>
        Deliver(ReaderOf(Keys()), b, came, r.value, MaxDist(b, dests)) == Some(Tree(b, dests))
      ensures r.Exited? ==> SomeFull()
    {
      if |dests| == 0 {
        KeysKept(Keys());
        NoTree(b);
        return Value(0);
      }
      hide ProgRouter.Valid, Clear, OnRoutes, Fits, DeliverAll, Deliver, Group,
           Fills, Advance, MaxDist, EnvGrows, BoardChunks, ClosableWay, Hops, LocalChunks,
           Closable, ProgRouter.Idle, ProgRouter.Pending, Tree, Branch, Branches, Report.Join;
      StartBoard(b, dests);
      var local, north, south, east, west := Categorise(b, dests);
      NothingDelivered(ReaderOf(Keys()), b, came, MaxDist(b, dests));
      r := AddGroups(b, dests, local, north, south, east, west, came);
    }

    // Recurse on non-local groups, then add local records and close the key
    method AddGroups(b: Board, dests: seq<Dest>, local: seq<Dest>, north: seq<Dest>, south: seq<Dest>,
                     east: seq<Dest>, west: seq<Dest>, ghost came: Way) returns (r: Result<nat>)
      requires Valid() && InMesh(b) && Clear(b, dests, Some(b)) && dests != []
      requires forall i | 0 <= i < |dests| :: Fits(dests[i]) && InMesh(BoardOf(dests[i]))
      requires Heads(came, b, dests) && local == Group(b, dests, Here)
      requires ClosableWay(b, dests, North) && north == Group(b, dests, North)
      requires ClosableWay(b, dests, South) && south == Group(b, dests, South)
      requires ClosableWay(b, dests, East) && east == Group(b, dests, East)
      requires ClosableWay(b, dests, West) && west == Group(b, dests, West)
      requires DeliverAll(ReaderOf(Keys()), b, came, At(b).Pending(), MaxDist(b, dests)) == Some(NOTHING)
      requires Fills(At(b).Filled(), BoardChunks(b, dests)).beats % MAX_LOOKUP != 30
      modifies routers
      decreases MaxDist(b, dests), 0, 3
      ensures r.Value? ==> Valid() && Clear(b, dests, None) && OnlyOnRoutes(b, dests)
      ensures r.Value? ==> EnvGrows(old(Keys()), Keys()) && r.value < 0x1_0000_0000
      ensures r.Value? ==>
        Deliver(ReaderOf(Keys()), b, came, r.value, MaxDist(b, dests)) == Some(Tree(b, dests))
      ensures r.Exited? ==> SomeFull()
    {
      hide ProgRouter.Valid, Clear, OnRoutes, Fits, DeliverAll, Deliver, Group,
           Fills, Advance, MaxDist, EnvGrows, BoardChunks, ClosableWay, Hops, LocalChunks,
           Closable, ProgRouter.Idle, ProgRouter.Pending, Tree, Branch, Branches, Report.Join;
      var _ :- AddNonLocal(b, dests, north, south, east, west, came);
      ghost var env := Keys();
      TreeIs(b, dests);
      var key :- FinishBoard(b, dests, local, came, MaxDist(b, dests), Branches(b, dests));
      KeysKeptOn(old(Keys()), env, Keys());
      HopFrame(b, dests);
      return Value(key);
    }

    // Recurse in the four directions
    method AddNonLocal(b: Board, dests: seq<Dest>, north: seq<Dest>, south: seq<Dest>,
                       east: seq<Dest>, west: seq<Dest>, ghost came: Way) returns (o: Outcome)
      requires Valid() && InMesh(b) && Clear(b, dests, Some(b))
      requires forall i | 0 <= i < |dests| :: Fits(dests[i]) && InMesh(BoardOf(dests[i]))
      requires Heads(came, b, dests)
      requires ClosableWay(b, dests, North) && north == Group(b, dests, North)
      requires ClosableWay(b, dests, South) && south == Group(b, dests, South)
      requires ClosableWay(b, dests, East) && east == Group(b, dests, East)
      requires ClosableWay(b, dests, West) && west == Group(b, dests, West)
      requires DeliverAll(ReaderOf(Keys()), b, came, At(b).Pending(), MaxDist(b, dests)) == Some(NOTHING)
      modifies routers
      decreases MaxDist(b, dests), 0, 2
      ensures o.Value? ==> Valid() && Clear(b, dests, Some(b)) && OnlyOnRoutes(b, dests)
      ensures o.Value? ==> EnvGrows(old(Keys()), Keys())
      ensures o.Value? ==>
        Fills(At(b).Filled(), LocalChunks(Group(b, dests, Here)))
          == Fills(old(At(b).Filled()), BoardChunks(b, dests))
      ensures o.Value? ==> At(b).numRecords > 0 || Group(b, dests, Here) != [] || dests == []
      ensures o.Value? ==>
        var now := DeliverAll(ReaderOf(Keys()), b, came, At(b).Pending(), MaxDist(b, dests));
        now == Some(Branches(b, dests))
      ensures o.Exited? ==> SomeFull()
    {
      hide ProgRouter.Valid, ProgRouter.Idle, Clear, OnRoutes, Fits, DeliverAll, Deliver, Group,
           Fills, Advance, MaxDist, EnvGrows, Hops, ClosableWay;
      var _ :- AddWays(b, dests, North, north, South, south, came, NOTHING);
      ghost var done := Branch(b, dests, North).Join(Branch(b, dests, South));
      JoinNothing(Branch(b, dests, North));
      ghost var env := Keys();
      var _ :- AddWays(b, dests, East, east, West, west, came, done);
      KeysKeptOn(old(Keys()), env, Keys());
      FillsBoard(old(At(b).Filled()), b, dests);
      NoneLeft(b, dests);
      return Continue;
    }

    // Add local records and close the key
    method FinishBoard(b: Board, dests: seq<Dest>, local: seq<Dest>, ghost came: Way,
                       ghost hops: nat, ghost done: Report) returns (r: Result<nat>)
      requires Valid() && InMesh(b) && Clear(b, dests, Some(b)) && local == Group(b, dests, Here)
      requires forall i | 0 <= i < |dests| :: Fits(dests[i])
      requires At(b).numRecords > 0 || local != []
      requires Fills(At(b).Filled(), LocalChunks(local)).beats % MAX_LOOKUP != 30
      requires DeliverAll(ReaderOf(Keys()), b, came, At(b).Pending(), hops) == Some(done)
      modifies At(b)
      ensures r.Value? ==> Valid() && Clear(b, dests, None) && EnvGrows(old(Keys()), Keys())
      ensures forall m | InMesh(m) && m != b :: unchanged(At(m))
      ensures r.Value? ==> r.value < 0x1_0000_0000
      ensures r.Value? ==>
        Deliver(ReaderOf(Keys()), b, came, r.value, hops) == Some(Visit(b).Join(done.Join(Leaves(local))))
      ensures r.Exited? ==> SomeFull()
    {
      hide ProgRouter.Valid, Clear, OnRoutes, Fits, DeliverAll, Deliver, EnvGrows, Fills;
      GroupHere(b, dests);
      forall m | InMesh(m) && m != b ensures At(m) != At(b) { Distinct(m, b); }
      var _ :- AddLocals(b, dests, local, came, hops, done);
      ghost var fill := At(b).Filled();
      var key :- CloseBoard(b, dests, came, hops, done.Join(Leaves(local)));
      return Value(key);
    }

    // The sender's board is on every route, so it is between two keys
    lemma StartBoard(b: Board, dests: seq<Dest>)
      requires Shape() && InMesh(b) && dests != [] && Clear(b, dests, None) && Closable(b, dests)
      ensures At(b).Idle() && Clear(b, dests, Some(b))
      ensures At(b).Filled() == Fill(1, 0) && At(b).Pending() == []
      ensures ClosableWay(b, dests, North) && ClosableWay(b, dests, South)
      ensures ClosableWay(b, dests, East) && ClosableWay(b, dests, West)
      ensures Fills(Fill(1, 0), BoardChunks(b, dests)).beats % MAX_LOOKUP != 30
    {
      assert OnRoute(b, BoardOf(dests[0]), b);
      assert OnRoutes(b, dests, b);
    }

    // The bytes of every board's tables
    ghost function Tables(): map<Board, seq<seq<byte>>>
      requires Shape()
      reads routers
    {
      map x, y | 0 <= x < boardsX && 0 <= y < boardsY :: Board(x, y) := At(Board(x, y)).table
    }

    // The network reads from the bytes in the tables what the keys stand for
    lemma BytesExtend()
      requires Valid()
      ensures Extends(ReaderOf(Keys()), ByteReader(Tables()))
    {
      forall m, k | ReaderOf(Keys())(m, k).Some?
        ensures ByteReader(Tables())(m, k) == ReaderOf(Keys())(m, k)
      {
        BytesRead(m, k);
      }
    }

    lemma BytesRead(m: Board, k: nat)
      requires Valid() && ReaderOf(Keys())(m, k).Some?
      ensures ByteReader(Tables())(m, k) == ReaderOf(Keys())(m, k)
    {
      hide ProgRouter.Ready, Resolve;
      if KeyLen(k) != 0 {
        assert InMesh(m) && k in At(m).keys;
        TableIs(m, k);
      } else if m in Tables() && |Tables()[m]| == 2 && |Tables()[m][0]| % 32 == 0 && |Tables()[m][1]| % 32 == 0 {
        NoDestinations(Rams(Tables()[m]), k);
      }
    }

    lemma TableIs(m: Board, k: nat)
      requires Valid() && InMesh(m) && k in At(m).keys
      ensures m in Tables() && Tables()[m] == At(m).table && |At(m).table| == 2
      ensures |At(m).table[0]| % 32 == 0 && |At(m).table[1]| % 32 == 0
      ensures DecodeKey(At(m).table, k) == Some(At(m).keys[k])
    {
      At(m).KeyDecodes(k);
    }

    lemma BytesDeliver(b: Board, came: Way, key: nat, hops: nat)
      requires Valid() && Deliver(ReaderOf(Keys()), b, came, key, hops).Some?
      ensures Deliver(ByteReader(Tables()), b, came, key, hops)
           == Deliver(ReaderOf(Keys()), b, came, key, hops)
    {
      BytesExtend();
      DeliverExtends(ReaderOf(Keys()), ByteReader(Tables()), b, came, key, hops, hops);
    }

    static method NewRow(n: nat) returns (row: seq<ProgRouter>, ghost all: set<ProgRouter>)
      ensures |row| == n && fresh(all) && forall r | r in all :: r.Idle()
      ensures forall i | 0 <= i < n :: row[i] in all
      ensures forall i, i' | 0 <= i < n && 0 <= i' < n && row[i] == row[i'] :: i == i'
    {
      hide ProgRouter.Idle;
      row, all := [], {};
      for x := 0 to n
        invariant |row| == x && fresh(all) && forall r | r in all :: r.Idle()
        invariant forall i | 0 <= i < x :: row[i] in all
        invariant forall i, i' | 0 <= i < x && 0 <= i' < x && row[i] == row[i'] :: i == i'
      {
        var r := new ProgRouter();
        row := row + [r];
        all := all + {r};
      }
    }

    // Rows of different routers
    static ghost predicate Grid(t: seq<seq<ProgRouter>>, n: nat, all: set<ProgRouter>) {
      && (forall j | 0 <= j < |t| :: |t[j]| == n)
      && (forall i, j | 0 <= j < |t| && 0 <= i < n :: t[j][i] in all)
      && (forall i, j, i', j' | 0 <= j < |t| && 0 <= i < n && 0 <= j' < |t| && 0 <= i' < n ::
            t[j][i] == t[j'][i'] ==> i == i' && j == j')
    }

    static lemma GridAdd(t: seq<seq<ProgRouter>>, n: nat, all: set<ProgRouter>, row: seq<ProgRouter>, more: set<ProgRouter>)
      requires Grid(t, n, all) && |row| == n && all !! more && forall i | 0 <= i < n :: row[i] in more
      requires forall i, i' | 0 <= i < n && 0 <= i' < n && row[i] == row[i'] :: i == i'
      ensures Grid(t + [row], n, all + more)
    {
    }

    static lemma GridIs(t: seq<seq<ProgRouter>>, n: nat, all: set<ProgRouter>)
      requires Grid(t, n, all)
      ensures forall j | 0 <= j < |t| :: |t[j]| == n
      ensures forall i, j | 0 <= j < |t| && 0 <= i < n :: t[j][i] in all
      ensures forall i, j, i', j' | 0 <= j < |t| && 0 <= i < n && 0 <= j' < |t| && 0 <= i' < n ::
        t[j][i] == t[j'][i'] ==> i == i' && j == j'
    {
    }

    constructor (numBoardsX: nat, numBoardsY: nat)
      ensures boardsX == numBoardsX && boardsY == numBoardsY
      ensures Valid() && AllIdle() && fresh(routers)
    {
      hide ProgRouter.Valid, Grid;
      boardsX, boardsY := numBoardsX, numBoardsY;
      var t: seq<seq<ProgRouter>> := [];
      ghost var all: set<ProgRouter> := {};
      assert Grid(t, numBoardsX, all) by { GridNone(numBoardsX); }
      for y := 0 to numBoardsY
        invariant |t| == y && fresh(all) && Grid(t, numBoardsX, all) && forall r | r in all :: r.Idle()
      {
        var row, more := NewRow(numBoardsX);
        GridAdd(t, numBoardsX, all, row, more);
        all := all + more;
        t := t + [row];
      }
      table := t;
      routers := all;
      GridIs(t, numBoardsX, all);
    }

    static lemma GridNone(n: nat)
      ensures Grid([], n, {})
    {
    }
  }
}
