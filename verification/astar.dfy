/** The planner (project3/algorithms/AStarSearch.java `search`).

    Every reached location has one record holding g (steps from the start
    along the current parent chain), f, h and a parent pointer. The fringe
    is polled for the least (f, h) pair; the planner stops when it polls the
    goal, rebuilding the path by following parent pointers, or when the
    fringe runs dry. A child costs g + 1. A child seen before is re-queued
    only when that is strictly cheaper, and then its f becomes old f + new g
    rather than g + h, so the planner does not promise shortest paths. What
    it does promise is the shape of the path it returns, and that it only
    gives up when no path exists.

    The blockage test and the heuristic are the caller's functions. The
    priority queue's order among equal keys is left open by the source; the
    model takes the earliest-queued entry. */
module AStar {
  import opened Wrappers
  import opened Points
  import opened Cells
  import opened Grids
  import opened Generation

  /** The per-location search record (`HeuristicData`). */
  datatype Node = Node(g: nat, f: int, h: int, parent: Option<Point>)

  /** The location → record map and the queue of locations waiting to be polled. */
  datatype Frontier = Frontier(data: map<Point, Node>, fringe: seq<Point>)

  /** The returned pair: the path (None when the goal cannot be reached) and
      how many records were polled. */
  datatype Found = Found(path: Option<seq<Point>>, processed: nat)

  const BadEndpoints: string := "start/end cells coincide or are out of bounds"

  /** The queue order: lower f first, then lower h. */
  predicate Precedes(a: Node, b: Node) {
    a.f < b.f || (a.f == b.f && a.h < b.h)
  }

  /** A cell the planner may step onto: inside the grid and not rejected by
      the caller's blockage test. */
  predicate Passable(g: Grid, blocked: Cell -> bool, q: Point)
    requires WellFormed(g)
  {
    InBounds(g, q) && !blocked(Get(g, q))
  }

  /** A route from `start` to `end`: each step to a 4-neighbour, every cell
      after the start passable, the last one the goal. */
  predicate Walk(g: Grid, blocked: Cell -> bool, start: Point, end: Point, w: seq<Point>)
    requires WellFormed(g)
  {
    && |w| > 0
    && w[|w| - 1] == end
    && w[0] in Neighbours4(start)
    && (forall i :: 0 < i < |w| ==> w[i] in Neighbours4(w[i - 1]))
    && (forall i :: 0 <= i < |w| ==> Passable(g, blocked, w[i]))
  }

  // ----- the queue -----

  /** The position `poll` takes: no entry precedes it, and it precedes every
      entry queued before it. */
  function PollIndex(data: map<Point, Node>, fringe: seq<Point>): (i: nat)
    requires |fringe| > 0 && forall p :: p in fringe ==> p in data
    ensures i < |fringe|
    ensures forall j :: 0 <= j < |fringe| ==> !Precedes(data[fringe[j]], data[fringe[i]])
    ensures forall j :: 0 <= j < i ==> Precedes(data[fringe[i]], data[fringe[j]])
  {
    if |fringe| == 1 then 0
    else
      var last := |fringe| - 1;
      var j := PollIndex(data, fringe[..last]);
      if Precedes(data[fringe[last]], data[fringe[j]]) then last else j
  }

  /** `PriorityQueue.remove`: drops one occurrence of `x`, if any. */
  function RemoveFirst(s: seq<Point>, x: Point): (r: seq<Point>)
    ensures multiset(r) == multiset(s) - multiset{x}
  {
    if |s| == 0 then []
    else
      assert s == [s[0]] + s[1..];
      if s[0] == x then s[1..] else [s[0]] + RemoveFirst(s[1..], x)
  }

  // ----- expanding a polled record -----

  /** `setG` followed by `setPrev`: the new g is also added to the old f. */
  function Lowered(n: Node, g: nat, parent: Point): (m: Node)
    ensures m.g == g && m.h == n.h && m.parent == Some(parent)
    ensures m.f - n.f == g
  {
    n.(g := g, f := n.f + g, parent := Some(parent))
  }

  /** One pass of the child loop: skip an impassable child, record a new
      one, or re-queue a known one that is now strictly cheaper. */
  function Relax(g: Grid, blocked: Cell -> bool, heuristic: (Point, Point) -> int, end: Point,
                 cur: Point, st: Frontier, child: Point): (r: Frontier)
    requires WellFormed(g) && cur in st.data
    ensures forall p :: p in st.data ==> p in r.data
    ensures Passable(g, blocked, child) ==> child in r.data
  {
    var prev := st.data[cur].g;
    if !Passable(g, blocked, child) then st
    else if child !in st.data then
      var h := heuristic(child, end);
      Frontier(st.data[child := Node(prev + 1, prev + 1 + h, h, Some(cur))], st.fringe + [child])
    else if prev + 1 < st.data[child].g then
      Frontier(st.data[child := Lowered(st.data[child], prev + 1, cur)], RemoveFirst(st.fringe, child) + [child])
    else st
  }

  /** The child loop over `ps`, in order. */
  function RelaxAll(g: Grid, blocked: Cell -> bool, heuristic: (Point, Point) -> int, end: Point,
                    cur: Point, st: Frontier, ps: seq<Point>): (r: Frontier)
    requires WellFormed(g) && cur in st.data
    ensures forall p :: p in st.data ==> p in r.data
    ensures forall q :: q in ps && Passable(g, blocked, q) ==> q in r.data
    decreases |ps|
  {
    if |ps| == 0 then st
    else
      var next := Relax(g, blocked, heuristic, end, cur, st, ps[0]);
      var r := RelaxAll(g, blocked, heuristic, end, cur, next, ps[1..]);
      assert forall q :: q in ps ==> q == ps[0] || q in ps[1..];
      r
  }

  // ----- the search invariant -----

  /** A record's parent pointer: only the start has none; any other record
      points at a recorded 4-neighbour with a strictly smaller g. */
  predicate Linked(data: map<Point, Node>, start: Point, p: Point)
    requires p in data
  {
    match data[p].parent
    case None => p == start
    case Some(q) => q in data && p in Neighbours4(q) && data[q].g < data[p].g
  }

  /** How many entries of `ps` have a record. */
  function InData(data: map<Point, Node>, ps: seq<Point>): (n: nat)
    ensures n <= |ps|
  {
    if |ps| == 0 then 0
    else InData(data, ps[..|ps| - 1]) + (if ps[|ps| - 1] in data then 1 else 0)
  }

  /** What holds of the record map throughout: the start is recorded at
      g = 0 without a parent, every record is inside the grid and (but for
      the start) passable, parent pointers are well formed, and each g is
      below the number of recorded locations. */
  ghost predicate Records(g: Grid, blocked: Cell -> bool, start: Point, data: map<Point, Node>)
    requires WellFormed(g)
  {
    && start in data && data[start].g == 0 && data[start].parent == None
    && (forall p :: p in data ==> InBounds(g, p) && (p != start ==> !blocked(Get(g, p))))
    && (forall p :: p in data ==> Linked(data, start, p))
    && (forall p :: p in data ==> data[p].g < InData(data, AllPoints(g)))
  }

  /** The loop invariant: well-formed records, a queue of recorded
      locations, and a recorded goal is still queued. */
  ghost predicate Inv(g: Grid, blocked: Cell -> bool, start: Point, end: Point, st: Frontier)
    requires WellFormed(g)
  {
    && Records(g, blocked, start, st.data)
    && (forall p :: p in st.fringe ==> p in st.data)
    && (end in st.data ==> end in st.fringe)
  }

  /** Every record out of the queue (other than `except`, the one being
      expanded) has all its passable 4-neighbours recorded. */
  ghost predicate Closed(g: Grid, blocked: Cell -> bool, st: Frontier, except: Option<Point>)
    requires WellFormed(g)
  {
    forall p, q ::
      (p in st.data && p !in st.fringe && Some(p) != except && q in Neighbours4(p) && Passable(g, blocked, q))
      ==> q in st.data
  }

  // ----- termination: each record's weight only falls -----

  function Weight(data: map<Point, Node>, bound: nat, p: Point): nat {
    if p in data then data[p].g else bound
  }

  function Potential(data: map<Point, Node>, bound: nat, ps: seq<Point>): nat {
    if |ps| == 0 then 0
    else Potential(data, bound, ps[..|ps| - 1]) + Weight(data, bound, ps[|ps| - 1])
  }

  lemma {:induction false} InDataMono(d1: map<Point, Node>, d2: map<Point, Node>, ps: seq<Point>, c: Point)
    requires forall p :: p in d1 ==> p in d2
    ensures InData(d1, ps) <= InData(d2, ps)
    ensures c in ps && c !in d1 && c in d2 ==> InData(d1, ps) < InData(d2, ps)
  {
    if |ps| > 0 {
      var init := ps[..|ps| - 1];
      InDataMono(d1, d2, init, c);
      assert c in ps ==> c in init || c == ps[|ps| - 1];
    }
  }

  lemma {:induction false} PotentialOneChange(d1: map<Point, Node>, d2: map<Point, Node>, bound: nat,
                                             ps: seq<Point>, c: Point)
    requires forall p :: p != c ==> Weight(d1, bound, p) == Weight(d2, bound, p)
    requires Weight(d2, bound, c) <= Weight(d1, bound, c)
    ensures Potential(d2, bound, ps) <= Potential(d1, bound, ps)
    ensures c in ps && Weight(d2, bound, c) < Weight(d1, bound, c) ==>
      Potential(d2, bound, ps) < Potential(d1, bound, ps)
  {
    if |ps| > 0 {
      var init := ps[..|ps| - 1];
      PotentialOneChange(d1, d2, bound, init, c);
      assert c in ps ==> c in init || c == ps[|ps| - 1];
    }
  }

  // ----- one child keeps the invariant and never raises the potential -----

  lemma RelaxNewKeeps(g: Grid, blocked: Cell -> bool, heuristic: (Point, Point) -> int,
                      start: Point, end: Point, cur: Point, st: Frontier, child: Point)
    requires WellFormed(g) && Inv(g, blocked, start, end, st)
    requires cur in st.data && child in Neighbours4(cur)
    requires Passable(g, blocked, child) && child !in st.data
    ensures var r := Relax(g, blocked, heuristic, end, cur, st, child);
      && Inv(g, blocked, start, end, r)
      && Potential(r.data, |AllPoints(g)|, AllPoints(g)) < Potential(st.data, |AllPoints(g)|, AllPoints(g))
  {
    var r := Relax(g, blocked, heuristic, end, cur, st, child);
    var ps := AllPoints(g);
    AllPointsSpec(g);
    InDataMono(st.data, r.data, ps, child);
    assert r.data[child].g < InData(r.data, ps);
    PotentialOneChange(st.data, r.data, |ps|, ps, child);
    forall p | p in r.data
      ensures Linked(r.data, start, p)
    {
      if p != child {
        assert Linked(st.data, start, p);
      }
    }
  }

  /** Lowering a recorded child's g and re-pointing it at `cur` keeps the
      records well formed and lowers the potential. */
  lemma CheaperRecords(g: Grid, blocked: Cell -> bool, start: Point, cur: Point,
                       data: map<Point, Node>, child: Point, n: Node)
    requires WellFormed(g) && Records(g, blocked, start, data)
    requires cur in data && child in Neighbours4(cur) && child in data
    requires n.g == data[cur].g + 1 < data[child].g && n.parent == Some(cur)
    ensures Records(g, blocked, start, data[child := n])
    ensures Potential(data[child := n], |AllPoints(g)|, AllPoints(g)) < Potential(data, |AllPoints(g)|, AllPoints(g))
  {
    var d := data[child := n];
    var ps := AllPoints(g);
    AllPointsSpec(g);
    Neighbours4Distinct(cur);
    InDataMono(data, d, ps, child);
    InDataMono(d, data, ps, child);
    PotentialOneChange(data, d, |ps|, ps, child);
    forall p | p in d
      ensures Linked(d, start, p)
    {
      assert Linked(data, start, p);
    }
  }

  lemma RelaxCheaperShape(g: Grid, blocked: Cell -> bool, heuristic: (Point, Point) -> int, end: Point,
                          cur: Point, st: Frontier, child: Point)
    requires WellFormed(g) && cur in st.data
    requires Passable(g, blocked, child) && child in st.data && st.data[cur].g + 1 < st.data[child].g
    ensures Relax(g, blocked, heuristic, end, cur, st, child)
      == Frontier(st.data[child := Lowered(st.data[child], st.data[cur].g + 1, cur)],
                  RemoveFirst(st.fringe, child) + [child])
  {
  }

  /** Re-queueing `x` (remove, then add at the back) keeps every other entry. */
  lemma Requeue(s: seq<Point>, x: Point)
    ensures forall p :: p in s ==> p in RemoveFirst(s, x) + [x]
    ensures forall p :: p in RemoveFirst(s, x) + [x] ==> p in s || p == x
  {
    var rest := RemoveFirst(s, x);
    forall p | p in s
      ensures p in rest + [x]
    {
      if p != x {
        assert p in multiset(rest);
      }
    }
    forall p | p in rest + [x]
      ensures p in s || p == x
    {
      if p != x {
        assert p in multiset(rest);
        assert p in multiset(s);
      }
    }
  }

  lemma RelaxCheaperKeeps(g: Grid, blocked: Cell -> bool, heuristic: (Point, Point) -> int,
                          start: Point, end: Point, cur: Point, st: Frontier, child: Point)
    requires WellFormed(g) && Inv(g, blocked, start, end, st)
    requires cur in st.data && child in Neighbours4(cur)
    requires Passable(g, blocked, child) && child in st.data && st.data[cur].g + 1 < st.data[child].g
    ensures var r := Relax(g, blocked, heuristic, end, cur, st, child);
      && Inv(g, blocked, start, end, r)
      && (forall p :: p in st.fringe ==> p in r.fringe)
      && Potential(r.data, |AllPoints(g)|, AllPoints(g)) < Potential(st.data, |AllPoints(g)|, AllPoints(g))
  {
    var m := Lowered(st.data[child], st.data[cur].g + 1, cur);
    RelaxCheaperShape(g, blocked, heuristic, end, cur, st, child);
    CheaperRecords(g, blocked, start, cur, st.data, child, m);
    Requeue(st.fringe, child);
  }

  lemma RelaxKeeps(g: Grid, blocked: Cell -> bool, heuristic: (Point, Point) -> int,
                   start: Point, end: Point, cur: Point, st: Frontier, child: Point)
    requires WellFormed(g) && Inv(g, blocked, start, end, st)
    requires cur in st.data && child in Neighbours4(cur)
    ensures var r := Relax(g, blocked, heuristic, end, cur, st, child);
      && Inv(g, blocked, start, end, r)
      && cur in r.data && r.data[cur] == st.data[cur]
      && (forall p :: p in st.fringe ==> p in r.fringe)
      && (Closed(g, blocked, st, Some(cur)) ==> Closed(g, blocked, r, Some(cur)))
      && Potential(r.data, |AllPoints(g)|, AllPoints(g)) <= Potential(st.data, |AllPoints(g)|, AllPoints(g))
      && (Potential(r.data, |AllPoints(g)|, AllPoints(g)) == Potential(st.data, |AllPoints(g)|, AllPoints(g)) ==> r == st)
  {
    Neighbours4Distinct(cur);
    if !Passable(g, blocked, child) {
    } else if child !in st.data {
      RelaxNewKeeps(g, blocked, heuristic, start, end, cur, st, child);
    } else if st.data[cur].g + 1 < st.data[child].g {
      RelaxCheaperKeeps(g, blocked, heuristic, start, end, cur, st, child);
    }
  }

  lemma {:induction false} RelaxAllKeeps(g: Grid, blocked: Cell -> bool, heuristic: (Point, Point) -> int,
                                        start: Point, end: Point, cur: Point, st: Frontier, ps: seq<Point>)
    requires WellFormed(g) && Inv(g, blocked, start, end, st)
    requires cur in st.data && forall q :: q in ps ==> q in Neighbours4(cur)
    decreases |ps|
    ensures var r := RelaxAll(g, blocked, heuristic, end, cur, st, ps);
      && Inv(g, blocked, start, end, r)
      && cur in r.data && r.data[cur] == st.data[cur]
      && (forall p :: p in st.fringe ==> p in r.fringe)
      && (Closed(g, blocked, st, Some(cur)) ==> Closed(g, blocked, r, Some(cur)))
      && Potential(r.data, |AllPoints(g)|, AllPoints(g)) <= Potential(st.data, |AllPoints(g)|, AllPoints(g))
      && (Potential(r.data, |AllPoints(g)|, AllPoints(g)) == Potential(st.data, |AllPoints(g)|, AllPoints(g)) ==> r == st)
  {
    if |ps| > 0 {
      var next := Relax(g, blocked, heuristic, end, cur, st, ps[0]);
      RelaxKeeps(g, blocked, heuristic, start, end, cur, st, ps[0]);
      RelaxAllKeeps(g, blocked, heuristic, start, end, cur, next, ps[1..]);
    }
  }

  /** Polling entry `i` (not the goal) keeps the invariant, and only the
      polled record may lack its neighbours. */
  lemma PollKeeps(g: Grid, blocked: Cell -> bool, start: Point, end: Point, st: Frontier, i: nat)
    requires WellFormed(g) && Inv(g, blocked, start, end, st) && Closed(g, blocked, st, None)
    requires i < |st.fringe| && st.fringe[i] != end
    ensures var polled := Frontier(st.data, st.fringe[..i] + st.fringe[i + 1..]);
      && Inv(g, blocked, start, end, polled)
      && Closed(g, blocked, polled, Some(st.fringe[i]))
  {
    var rest := st.fringe[..i] + st.fringe[i + 1..];
    CutMembers(st.fringe, i);
    assert Records(g, blocked, start, st.data);
  }

  /** Cutting entry `i` out of a queue keeps every other entry and adds
      none. */
  lemma CutMembers(s: seq<Point>, i: nat)
    requires i < |s|
    ensures forall p :: p in s[..i] + s[i + 1..] ==> p in s
    ensures forall p :: p in s && p != s[i] ==> p in s[..i] + s[i + 1..]
  {
    var rest := s[..i] + s[i + 1..];
    forall p | p in s && p != s[i]
      ensures p in rest
    {
      var k :| 0 <= k < |s| && s[k] == p;
      if k < i {
        assert rest[k] == p;
      } else {
        assert rest[k - 1] == p;
      }
    }
  }

  /** One iteration for a non-goal poll: take entry `i` out of the queue
      and run the child loop over its 4-neighbours. */
  function Expand(g: Grid, blocked: Cell -> bool, heuristic: (Point, Point) -> int, end: Point,
                  st: Frontier, i: nat): (r: Frontier)
    requires WellFormed(g) && i < |st.fringe| && forall p :: p in st.fringe ==> p in st.data
    ensures forall p :: p in st.data ==> p in r.data
  {
    var cur := st.fringe[i];
    RelaxAll(g, blocked, heuristic, end, cur, Frontier(st.data, st.fringe[..i] + st.fringe[i + 1..]), Neighbours4(cur))
  }

  /** An iteration keeps the invariant and closes the expanded record; the
      potential falls, or it stays and the queue shrinks. */
  lemma ExpandKeeps(g: Grid, blocked: Cell -> bool, heuristic: (Point, Point) -> int,
                    start: Point, end: Point, st: Frontier, i: nat)
    requires WellFormed(g) && Inv(g, blocked, start, end, st) && Closed(g, blocked, st, None)
    requires i < |st.fringe| && st.fringe[i] != end
    ensures var r := Expand(g, blocked, heuristic, end, st, i);
      var bound := |AllPoints(g)|;
      && Inv(g, blocked, start, end, r)
      && Closed(g, blocked, r, None)
      && Potential(r.data, bound, AllPoints(g)) <= Potential(st.data, bound, AllPoints(g))
      && (Potential(r.data, bound, AllPoints(g)) == Potential(st.data, bound, AllPoints(g)) ==> |r.fringe| < |st.fringe|)
  {
    var cur := st.fringe[i];
    var polled := Frontier(st.data, st.fringe[..i] + st.fringe[i + 1..]);
    PollKeeps(g, blocked, start, end, st, i);
    RelaxAllKeeps(g, blocked, heuristic, start, end, cur, polled, Neighbours4(cur));
    var r := RelaxAll(g, blocked, heuristic, end, cur, polled, Neighbours4(cur));
    assert r == Expand(g, blocked, heuristic, end, st, i);
    assert Closed(g, blocked, r, None) by {
      forall p, q | p in r.data && p !in r.fringe && q in Neighbours4(p) && Passable(g, blocked, q)
        ensures q in r.data
      {
        if p != cur {
          assert Closed(g, blocked, r, Some(cur));
        }
      }
    }
  }

  // ----- the returned path -----

  /** The locations from the start (excluded) to `p`, by parent pointers. */
  function Chain(data: map<Point, Node>, start: Point, p: Point): (path: seq<Point>)
    requires p in data && forall q :: q in data ==> Linked(data, start, q)
    decreases data[p].g
  {
    assert Linked(data, start, p);
    match data[p].parent
    case None => []
    case Some(q) => Chain(data, start, q) + [p]
  }

  lemma {:induction false} ChainShape(data: map<Point, Node>, start: Point, p: Point)
    requires p in data && forall q :: q in data ==> Linked(data, start, q)
    requires start in data && data[start].parent == None
    ensures var path := Chain(data, start, p);
      && (p == start <==> path == [])
      && (p != start ==> path[|path| - 1] == p && path[0] in Neighbours4(start))
      && (forall i :: 0 < i < |path| ==> path[i] in Neighbours4(path[i - 1]))
      && (forall i :: 0 <= i < |path| ==> path[i] in data && path[i] != start)
      && (forall i, j :: 0 <= i < j < |path| ==> data[path[i]].g < data[path[j]].g)
    decreases data[p].g
  {
    assert Linked(data, start, p);
    match data[p].parent
    case None =>
    case Some(q) =>
      ChainShape(data, start, q);
      var prefix := Chain(data, start, q);
      var path := prefix + [p];
      if q != start {
        assert data[prefix[|prefix| - 1]].g == data[q].g;
      }
      assert forall i :: 0 <= i < |prefix| ==> data[path[i]].g <= data[q].g;
  }

  /** With the queue empty and every record closed, every route stays among
      the records — so it cannot reach a goal that was never recorded. */
  lemma {:induction false} WalkRecorded(g: Grid, blocked: Cell -> bool, start: Point, end: Point,
                                       st: Frontier, w: seq<Point>, n: nat)
    requires WellFormed(g) && Inv(g, blocked, start, end, st) && Closed(g, blocked, st, None)
    requires |st.fringe| == 0 && Walk(g, blocked, start, end, w) && n <= |w|
    ensures forall k :: 0 <= k < n ==> w[k] in st.data
  {
    if n > 0 {
      WalkRecorded(g, blocked, start, end, st, w, n - 1);
      if n > 1 {
        assert w[n - 2] in st.data;
      }
    }
  }

  /** With the queue empty and every record closed, every route stays among
      the records, so none reaches the goal, which was never recorded. */
  lemma Unreachable(g: Grid, blocked: Cell -> bool, start: Point, end: Point, st: Frontier)
    requires WellFormed(g) && Inv(g, blocked, start, end, st) && Closed(g, blocked, st, None)
    requires |st.fringe| == 0
    ensures forall w :: !Walk(g, blocked, start, end, w)
  {
    forall w | Walk(g, blocked, start, end, w)
      ensures false
    {
      WalkRecorded(g, blocked, start, end, st, w, |w|);
    }
  }

  // ----- the search -----

  /** The chain of parents from a recorded goal is a route without repeats
      that never returns to the start. */
  lemma ChainWalk(g: Grid, blocked: Cell -> bool, start: Point, end: Point, data: map<Point, Node>)
    requires WellFormed(g) && Records(g, blocked, start, data)
    requires end in data && start != end
    ensures var path := Chain(data, start, end);
      Walk(g, blocked, start, end, path) && start !in path && Distinct(path)
  {
    ChainShape(data, start, end);
  }

  /** The search loop proper, for two distinct in-bounds endpoints. */
  method SearchFrom(g: Grid, start: Point, end: Point, blocked: Cell -> bool, heuristic: (Point, Point) -> int)
    returns (path: Option<seq<Point>>, processed: nat)
    requires WellFormed(g) && InBounds(g, start) && InBounds(g, end) && start != end
    ensures processed >= 1
    ensures path.Some? ==>
      Walk(g, blocked, start, end, path.value) && start !in path.value && Distinct(path.value)
    ensures path.None? ==> forall w :: !Walk(g, blocked, start, end, w)
  {
    AllPointsSpec(g);
    var h := heuristic(start, end);
    var st := Frontier(map[start := Node(0, h, h, None)], [start]);
    InDataMono(map[], st.data, AllPoints(g), start);
    processed := 0;
    while |st.fringe| > 0
      invariant Inv(g, blocked, start, end, st)
      invariant Closed(g, blocked, st, None)
      invariant processed == 0 ==> |st.fringe| > 0
      decreases Potential(st.data, |AllPoints(g)|, AllPoints(g)), |st.fringe|
    {
      processed := processed + 1;
      var i := PollIndex(st.data, st.fringe);
      if st.fringe[i] == end {
        ChainWalk(g, blocked, start, end, st.data);
        return Some(Chain(st.data, start, end)), processed;
      }
      ExpandKeeps(g, blocked, heuristic, start, end, st, i);
      st := Expand(g, blocked, heuristic, end, st, i);
    }
    Unreachable(g, blocked, start, end, st);
    return None, processed;
  }

  method Search(g: Grid, start: Point, end: Point, blocked: Cell -> bool, heuristic: (Point, Point) -> int)
    returns (r: Result<Found>)
    requires WellFormed(g)
    ensures r.Err? <==> !InBounds(g, start) || !InBounds(g, end)
    ensures r.Err? ==> r.error == IllegalArgument(BadEndpoints)
    ensures r.Ok? && start == end ==> r.value == Found(Some([]), 0)
    ensures r.Ok? && start != end ==> r.value.processed >= 1
    ensures r.Ok? && start != end && r.value.path.Some? ==>
      var path := r.value.path.value;
      && Walk(g, blocked, start, end, path)
      && start !in path
      && Distinct(path)
    ensures r.Ok? && r.value.path.None? ==> forall w :: !Walk(g, blocked, start, end, w)
  {
    if !InBounds(g, start) || !InBounds(g, end) {
      return Err(IllegalArgument(BadEndpoints));
    }
    if start == end {
      return Ok(Found(Some([]), 0));
    }
    var path, processed := SearchFrom(g, start, end, blocked, heuristic);
    return Ok(Found(path, processed));
  }
}
