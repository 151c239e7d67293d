/** The knowledge base: a flat row-major array of cells
    (project2/entity/Grid.java; the read accessors also mirror
    Simulator/Entity/Grid.py).

    The source shares cells between copies and clones a cell on its first
    write through a new owner. Here a grid is a value, so every copy is
    isolated from its source by construction: writes produce new values and
    never reach the grid they started from. */
module Grids {
  import opened Wrappers
  import opened Sentiments
  import opened Points
  import opened Cells

  datatype Grid = Grid(xSize: int, ySize: int, cells: seq<Cell>)

  /** Multiplication by repeated addition. Row-major index arithmetic goes
      through it so that the solver reasons about rows linearly. */
  function Mul(rows: nat, width: int): int {
    if rows == 0 then 0 else Mul(rows - 1, width) + width
  }

  lemma {:induction false} MulIsProduct(rows: nat, width: int)
    ensures Mul(rows, width) == rows * width
  {
    if rows > 0 {
      MulIsProduct(rows - 1, width);
    }
  }

  lemma {:induction false} MulMonotone(a: nat, b: nat, width: int)
    requires a <= b && 0 <= width
    ensures 0 <= Mul(a, width) <= Mul(b, width)
    decreases b
  {
    if b > 0 {
      if a == b {
        MulMonotone(a - 1, b - 1, width);
      } else {
        MulMonotone(a, b - 1, width);
      }
    }
  }

  predicate WellFormed(g: Grid) {
    0 <= g.xSize && 0 <= g.ySize && |g.cells| == Mul(g.ySize, g.xSize)
  }

  predicate InBounds(g: Grid, p: Point) {
    0 <= p.x < g.xSize && 0 <= p.y < g.ySize
  }

  /** Row-major position of a point: y * xSize + x. */
  function Index(g: Grid, p: Point): int
    requires InBounds(g, p)
  {
    Mul(p.y, g.xSize) + p.x
  }

  lemma {:induction false} IndexInRange(g: Grid, p: Point)
    requires WellFormed(g) && InBounds(g, p)
    ensures 0 <= Index(g, p) < |g.cells|
  {
    MulMonotone(p.y, p.y, g.xSize);
    MulMonotone(p.y + 1, g.ySize, g.xSize);
  }

  lemma {:induction false} IndexInjective(g: Grid, p: Point, q: Point)
    requires InBounds(g, p) && InBounds(g, q) && p != q
    ensures Index(g, p) != Index(g, q)
  {
    if p.y < q.y {
      MulMonotone(p.y + 1, q.y, g.xSize);
    } else if q.y < p.y {
      MulMonotone(q.y + 1, p.y, g.xSize);
    }
  }

  /** The cell at an in-bounds point. */
  function Get(g: Grid, p: Point): Cell
    requires WellFormed(g) && InBounds(g, p)
  {
    IndexInRange(g, p);
    g.cells[Index(g, p)]
  }

  /** `getCell(x, y)`: null (None) exactly outside [0, xSize) x [0, ySize),
      otherwise the cell at flat index y * xSize + x. */
  function GetCell(g: Grid, x: int, y: int): (r: Option<Cell>)
    requires WellFormed(g)
    ensures r.None? <==> !(0 <= x < g.xSize && 0 <= y < g.ySize)
    ensures r.Some? ==> 0 <= y * g.xSize + x < |g.cells| && r.value == g.cells[y * g.xSize + x]
  {
    var p := Point(x, y);
    if InBounds(g, p) then
      IndexInRange(g, p);
      MulIsProduct(y, g.xSize);
      Some(Get(g, p))
    else None
  }

  /** `getCell(Point)` delegates to the coordinate form. */
  function GetCellAt(g: Grid, p: Point): (r: Option<Cell>)
    requires WellFormed(g)
    ensures r.None? <==> !InBounds(g, p)
    ensures r.Some? ==> r.value == Get(g, p)
  {
    GetCell(g, p.x, p.y)
  }

  /** Replaces the cell at `p`; the write `setCell` permits. */
  function Put(g: Grid, p: Point, c: Cell): (r: Grid)
    requires WellFormed(g) && InBounds(g, p)
    ensures WellFormed(r) && r.xSize == g.xSize && r.ySize == g.ySize
    ensures |r.cells| == |g.cells|
    ensures forall j :: 0 <= j < |g.cells| && j != Index(g, p) ==> r.cells[j] == g.cells[j]
    ensures Get(r, p) == c
    ensures forall q :: InBounds(g, q) && q != p ==> Get(r, q) == Get(g, q)
  {
    IndexInRange(g, p);
    var r := g.(cells := g.cells[Index(g, p) := c]);
    assert forall q :: InBounds(g, q) && q != p ==> Get(r, q) == Get(g, q) by {
      forall q | InBounds(g, q) && q != p
        ensures Get(r, q) == Get(g, q)
      {
        IndexInjective(g, p, q);
        IndexInRange(g, q);
      }
    }
    r
  }

  predicate SameShape(g: Grid, r: Grid) {
    r.xSize == g.xSize && r.ySize == g.ySize && |r.cells| == |g.cells|
  }

  /** Everything about a cell that belief changes never touch. */
  function Statics(c: Cell): Cell {
    c.(belief := Unsure, adjBlocked := 0, adjEmpty := 0, adjHidden := 0)
  }

  /** Same shape, and every cell keeps its location, ground truth, visited
      flag, N and C. */
  ghost predicate SameStatics(g: Grid, r: Grid) {
    SameShape(g, r) &&
    forall j :: 0 <= j < |g.cells| ==> Statics(r.cells[j]) == Statics(g.cells[j])
  }

  /** Beliefs only move from Unsure to a pinned value. */
  ghost predicate Monotone(g: Grid, r: Grid) {
    |r.cells| == |g.cells| &&
    forall j :: 0 <= j < |g.cells| && g.cells[j].belief != Unsure ==> r.cells[j].belief == g.cells[j].belief
  }

  ghost predicate SameBeliefs(g: Grid, r: Grid) {
    SameShape(g, r) &&
    forall j :: 0 <= j < |g.cells| ==> r.cells[j].belief == g.cells[j].belief
  }

  /** The per-index frame predicates, read at a point. */
  lemma MonotoneAt(g: Grid, r: Grid, q: Point)
    requires WellFormed(g) && WellFormed(r) && SameStatics(g, r) && InBounds(g, q)
    ensures Statics(Get(r, q)) == Statics(Get(g, q))
    ensures Monotone(g, r) && Get(g, q).belief != Unsure ==> Get(r, q).belief == Get(g, q).belief
    ensures SameBeliefs(g, r) ==> Get(r, q).belief == Get(g, q).belief
  {
    IndexInRange(g, q);
  }

  /** Monotonicity read at a point, for grids that share only their shape. */
  lemma MonotoneBeliefAt(g: Grid, r: Grid, q: Point)
    requires WellFormed(g) && SameShape(g, r) && Monotone(g, r) && InBounds(g, q)
    requires Get(g, q).belief != Unsure
    ensures InBounds(r, q) && Get(r, q).belief == Get(g, q).belief
  {
    IndexInRange(g, q);
  }

  // ----- counting Unsure cells: the termination measure of inference -----

  function CountUnsure(cs: seq<Cell>): nat {
    if |cs| == 0 then 0 else CountUnsure(cs[..|cs| - 1]) + Indicator(cs[|cs| - 1].belief, Unsure)
  }

  function UnsureCount(g: Grid): nat {
    CountUnsure(g.cells)
  }

  lemma {:induction false} CountUnsureOneChange(a: seq<Cell>, b: seq<Cell>, i: int)
    requires |a| == |b| && 0 <= i < |a|
    requires forall j :: 0 <= j < |a| && j != i ==> a[j].belief == b[j].belief
    ensures CountUnsure(b) == CountUnsure(a) - Indicator(a[i].belief, Unsure) + Indicator(b[i].belief, Unsure)
    decreases |a|
  {
    var n := |a|;
    if i < n - 1 {
      CountUnsureOneChange(a[..n - 1], b[..n - 1], i);
    } else {
      CountUnsureSame(a[..n - 1], b[..n - 1]);
    }
  }

  lemma {:induction false} CountUnsureSame(a: seq<Cell>, b: seq<Cell>)
    requires |a| == |b|
    requires forall j :: 0 <= j < |a| ==> a[j].belief == b[j].belief
    ensures CountUnsure(b) == CountUnsure(a)
    decreases |a|
  {
    if |a| > 0 {
      CountUnsureSame(a[..|a| - 1], b[..|b| - 1]);
    }
  }

  /** A monotone step never adds Unsure cells, and removes one for every
      cell it pins. */
  lemma {:induction false} CountUnsureMonotone(a: seq<Cell>, b: seq<Cell>)
    requires |a| == |b|
    requires forall j :: 0 <= j < |a| && a[j].belief != Unsure ==> b[j].belief == a[j].belief
    ensures CountUnsure(b) <= CountUnsure(a)
    ensures (exists j :: 0 <= j < |a| && a[j].belief == Unsure && b[j].belief != Unsure) ==> CountUnsure(b) < CountUnsure(a)
    decreases |a|
  {
    if |a| > 0 {
      var n := |a|;
      CountUnsureMonotone(a[..n - 1], b[..n - 1]);
      if exists j :: 0 <= j < n && a[j].belief == Unsure && b[j].belief != Unsure {
        var j :| 0 <= j < n && a[j].belief == Unsure && b[j].belief != Unsure;
        if j < n - 1 {
          assert a[..n - 1][j] == a[j] && b[..n - 1][j] == b[j];
        }
      }
    }
  }

  lemma MonotoneUnsureCount(g: Grid, r: Grid)
    requires Monotone(g, r)
    ensures UnsureCount(r) <= UnsureCount(g)
    ensures (exists j :: 0 <= j < |g.cells| && g.cells[j].belief == Unsure && r.cells[j].belief != Unsure) ==>
      UnsureCount(r) < UnsureCount(g)
  {
    CountUnsureMonotone(g.cells, r.cells);
  }

  // ----- counting cells not believed Blocked: the measure of the robot's run -----

  /** Every flat index below `Mul(rows, width)` falls in some row. */
  lemma {:induction false} RowOf(rows: nat, width: int, j: int)
    requires 0 <= width && 0 <= j < Mul(rows, width)
    ensures exists y :: 0 <= y < rows && Mul(y, width) <= j < Mul(y, width) + width
  {
    if j < Mul(rows - 1, width) {
      RowOf(rows - 1, width, j);
    } else {
      assert Mul(rows - 1, width) <= j < Mul(rows - 1, width) + width;
    }
  }

  /** Every flat index is the index of an in-bounds point. */
  lemma IndexOnto(g: Grid, j: int)
    requires WellFormed(g) && 0 <= j < |g.cells|
    ensures exists p :: InBounds(g, p) && Index(g, p) == j
  {
    RowOf(g.ySize, g.xSize, j);
    var y :| 0 <= y < g.ySize && Mul(y, g.xSize) <= j < Mul(y, g.xSize) + g.xSize;
    assert Index(g, Point(j - Mul(y, g.xSize), y)) == j;
  }

  /** No Blocked belief is dropped. */
  ghost predicate KeepsBlocked(g: Grid, r: Grid)
    requires WellFormed(g) && WellFormed(r) && SameShape(g, r)
  {
    forall q :: InBounds(g, q) && Get(g, q).belief == Blocked ==> Get(r, q).belief == Blocked
  }

  lemma KeepsBlockedTrans(a: Grid, b: Grid, c: Grid)
    requires WellFormed(a) && WellFormed(b) && WellFormed(c) && SameShape(a, b) && SameShape(b, c)
    requires KeepsBlocked(a, b) && KeepsBlocked(b, c)
    ensures KeepsBlocked(a, c)
  {
  }

  function CountUnblocked(cs: seq<Cell>): nat {
    if |cs| == 0 then 0 else CountUnblocked(cs[..|cs| - 1]) + (if cs[|cs| - 1].belief == Blocked then 0 else 1)
  }

  /** The cells not believed Blocked. */
  function UnblockedCount(g: Grid): nat {
    CountUnblocked(g.cells)
  }

  /** A step that keeps every Blocked belief never adds unblocked cells,
      and removes one for every cell it newly believes Blocked. */
  lemma {:induction false} CountUnblockedShrinks(a: seq<Cell>, b: seq<Cell>)
    requires |a| == |b|
    requires forall j :: 0 <= j < |a| && a[j].belief == Blocked ==> b[j].belief == Blocked
    ensures CountUnblocked(b) <= CountUnblocked(a)
    ensures (exists j :: 0 <= j < |a| && a[j].belief != Blocked && b[j].belief == Blocked) ==>
      CountUnblocked(b) < CountUnblocked(a)
    decreases |a|
  {
    if |a| > 0 {
      var n := |a|;
      CountUnblockedShrinks(a[..n - 1], b[..n - 1]);
      if exists j :: 0 <= j < n && a[j].belief != Blocked && b[j].belief == Blocked {
        var j :| 0 <= j < n && a[j].belief != Blocked && b[j].belief == Blocked;
        if j < n - 1 {
          assert a[..n - 1][j] == a[j] && b[..n - 1][j] == b[j];
        }
      }
    }
  }

  /** The grid-level form of `CountUnblockedShrinks`. */
  lemma KeepsBlockedCount(g: Grid, r: Grid)
    requires WellFormed(g) && WellFormed(r) && SameShape(g, r) && KeepsBlocked(g, r)
    ensures UnblockedCount(r) <= UnblockedCount(g)
    ensures (exists q :: InBounds(g, q) && Get(g, q).belief != Blocked && Get(r, q).belief == Blocked) ==>
      UnblockedCount(r) < UnblockedCount(g)
  {
    forall j | 0 <= j < |g.cells| && g.cells[j].belief == Blocked
      ensures r.cells[j].belief == Blocked
    {
      IndexOnto(g, j);
      var p :| InBounds(g, p) && Index(g, p) == j;
    }
    if exists q :: InBounds(g, q) && Get(g, q).belief != Blocked && Get(r, q).belief == Blocked {
      var q :| InBounds(g, q) && Get(g, q).belief != Blocked && Get(r, q).belief == Blocked;
      IndexInRange(g, q);
    }
    CountUnblockedShrinks(g.cells, r.cells);
  }

  // ----- neighbour updates -----

  /** The per-neighbour actions the source passes to `forEachNeighbour`. */
  datatype CounterAction = AdjEmpty(k: int) | AdjBlocked(k: int) | SensedBlocked(k: int)

  function Apply(a: CounterAction, c: Cell): (r: Cell)
    ensures Statics(r).(sensedBlocked := 0) == Statics(c).(sensedBlocked := 0)
    ensures r.belief == c.belief
    ensures Balanced(r) <==> Balanced(c)
  {
    match a
    case AdjEmpty(k) => AddAdjEmpty(c, k)
    case AdjBlocked(k) => AddAdjBlocked(c, k)
    case SensedBlocked(k) => AddSensedBlocked(c, k)
  }

  /** Applies `a` to every in-bounds point of `ps`, in order. */
  function ApplyAll(g: Grid, ps: seq<Point>, a: CounterAction): (r: Grid)
    requires WellFormed(g)
    requires Distinct(ps)
    ensures WellFormed(r) && r.xSize == g.xSize && r.ySize == g.ySize && |r.cells| == |g.cells|
    ensures forall j :: 0 <= j < |g.cells| ==>
      r.cells[j].belief == g.cells[j].belief &&
      Statics(r.cells[j]).(sensedBlocked := 0) == Statics(g.cells[j]).(sensedBlocked := 0) &&
      (a.SensedBlocked? || r.cells[j].sensedBlocked == g.cells[j].sensedBlocked) &&
      (Balanced(r.cells[j]) <==> Balanced(g.cells[j]))
    ensures forall q :: InBounds(g, q) ==> Get(r, q) == if q in ps then Apply(a, Get(g, q)) else Get(g, q)
    decreases |ps|
  {
    if |ps| == 0 then g
    else
      var p := ps[0];
      var g1 := if InBounds(g, p) then Put(g, p, Apply(a, Get(g, p))) else g;
      assert Distinct(ps[1..]) by {
        forall i, j | 0 <= i < j < |ps[1..]| ensures ps[1..][i] != ps[1..][j] {
          assert ps[1..][i] == ps[i + 1] && ps[1..][j] == ps[j + 1];
        }
      }
      assert p !in ps[1..] by {
        forall i | 0 <= i < |ps[1..]| ensures ps[1..][i] != p {
          assert ps[1..][i] == ps[i + 1];
        }
      }
      ApplyAll(g1, ps[1..], a)
  }

  /** `forEachNeighbour`: the action reaches exactly the in-bounds 8-neighbours. */
  function ForEachNeighbour(g: Grid, p: Point, a: CounterAction): (r: Grid)
    requires WellFormed(g)
    ensures WellFormed(r) && r.xSize == g.xSize && r.ySize == g.ySize && |r.cells| == |g.cells|
    ensures SameBeliefs(g, r)
    ensures !a.SensedBlocked? ==> SameStatics(g, r)
    ensures forall q :: InBounds(g, q) ==> Get(r, q) == if q in Neighbours8(p) then Apply(a, Get(g, q)) else Get(g, q)
  {
    Neighbours8Distinct(p);
    ApplyAll(g, Neighbours8(p), a)
  }

  /** How much a belief change from `prev` to `s` moves a neighbour's count of
      cells believed `t`. */
  function Delta(prev: Sentiment, s: Sentiment, t: Sentiment): int {
    Indicator(s, t) - Indicator(prev, t)
  }

  /** Adds `k` to the neighbours' counter matching belief `s` (E for Free,
      B for Blocked, nothing for Unsure). */
  function AdjustNeighbours(g: Grid, p: Point, s: Sentiment, k: int): (r: Grid)
    requires WellFormed(g)
    ensures WellFormed(r) && SameStatics(g, r) && SameBeliefs(g, r)
    ensures forall j :: 0 <= j < |g.cells| ==> (Balanced(r.cells[j]) <==> Balanced(g.cells[j]))
    ensures forall q :: InBounds(g, q) ==>
      && Get(r, q).adjBlocked == Get(g, q).adjBlocked + (if q in Neighbours8(p) && s == Blocked then k else 0)
      && Get(r, q).adjEmpty == Get(g, q).adjEmpty + (if q in Neighbours8(p) && s == Free then k else 0)
      && Get(r, q).adjHidden == Get(g, q).adjHidden - (if q in Neighbours8(p) && s != Unsure then k else 0)
  {
    match s
    case Free => ForEachNeighbour(g, p, AdjEmpty(k))
    case Blocked => ForEachNeighbour(g, p, AdjBlocked(k))
    case Unsure => g
  }

  /** `setSentiment`: a no-op when the belief already equals `s`; otherwise
      the neighbours' E or B counter matching the previous pinned belief is
      decremented, the belief is written, and the counter matching `s` is
      incremented. B + E + H is unchanged on every cell. */
  function SetSentiment(g: Grid, p: Point, s: Sentiment): (r: Grid)
    requires WellFormed(g) && InBounds(g, p)
    ensures WellFormed(r) && SameStatics(g, r)
    ensures Get(r, p).belief == s
    ensures forall j :: 0 <= j < |g.cells| && j != Index(g, p) ==> r.cells[j].belief == g.cells[j].belief
    ensures forall q :: InBounds(g, q) ==>
      var prev, near := Get(g, p).belief, q in Neighbours8(p);
      && Get(r, q).adjBlocked == Get(g, q).adjBlocked + (if near then Delta(prev, s, Blocked) else 0)
      && Get(r, q).adjEmpty == Get(g, q).adjEmpty + (if near then Delta(prev, s, Free) else 0)
      && Get(r, q).adjHidden == Get(g, q).adjHidden - (if near then Delta(prev, s, Blocked) + Delta(prev, s, Free) else 0)
    ensures forall j :: 0 <= j < |g.cells| ==> (Balanced(r.cells[j]) <==> Balanced(g.cells[j]))
    ensures UnsureCount(r) == UnsureCount(g) - Indicator(Get(g, p).belief, Unsure) + Indicator(s, Unsure)
  {
    var prev := Get(g, p).belief;
    if prev == s then g
    else
      var g1 := AdjustNeighbours(g, p, prev, -1);
      var g2 := Put(g1, p, SetBelief(Get(g1, p), s));
      var r := AdjustNeighbours(g2, p, s, 1);
      assert Steps(g, p, s, g1, g2, r);
      SetSentimentSteps(g, p, s, g1, g2, r);
      r
  }

  /** Preconditions shared by the step lemmas below. */
  ghost predicate Steps(g: Grid, p: Point, s: Sentiment, g1: Grid, g2: Grid, r: Grid) {
    WellFormed(g) && InBounds(g, p) && Get(g, p).belief != s &&
    g1 == AdjustNeighbours(g, p, Get(g, p).belief, -1) &&
    g2 == Put(g1, p, SetBelief(Get(g1, p), s)) &&
    r == AdjustNeighbours(g2, p, s, 1)
  }

  lemma {:induction false} SetSentimentSteps(g: Grid, p: Point, s: Sentiment, g1: Grid, g2: Grid, r: Grid)
    requires Steps(g, p, s, g1, g2, r)
    ensures WellFormed(r) && SameStatics(g, r)
    ensures Get(r, p).belief == s
    ensures forall j :: 0 <= j < |g.cells| && j != Index(g, p) ==> r.cells[j].belief == g.cells[j].belief
    ensures forall q :: InBounds(g, q) ==>
      var prev, near := Get(g, p).belief, q in Neighbours8(p);
      && Get(r, q).adjBlocked == Get(g, q).adjBlocked + (if near then Delta(prev, s, Blocked) else 0)
      && Get(r, q).adjEmpty == Get(g, q).adjEmpty + (if near then Delta(prev, s, Free) else 0)
      && Get(r, q).adjHidden == Get(g, q).adjHidden - (if near then Delta(prev, s, Blocked) + Delta(prev, s, Free) else 0)
    ensures forall j :: 0 <= j < |g.cells| ==> (Balanced(r.cells[j]) <==> Balanced(g.cells[j]))
    ensures UnsureCount(r) == UnsureCount(g) - Indicator(Get(g, p).belief, Unsure) + Indicator(s, Unsure)
  {
    StepsFrame(g, p, s, g1, g2, r);
    StepsCounters(g, p, s, g1, g2, r);
    IndexInRange(g, p);
    CountUnsureSame(g.cells, g1.cells);
    CountUnsureOneChange(g1.cells, g2.cells, Index(g, p));
    CountUnsureSame(g2.cells, r.cells);
  }

  lemma {:induction false} StepsFrame(g: Grid, p: Point, s: Sentiment, g1: Grid, g2: Grid, r: Grid)
    requires Steps(g, p, s, g1, g2, r)
    ensures WellFormed(r) && SameStatics(g, r)
    ensures Get(r, p).belief == s
    ensures forall j :: 0 <= j < |g.cells| && j != Index(g, p) ==> r.cells[j].belief == g.cells[j].belief
    ensures forall j :: 0 <= j < |g.cells| ==> (Balanced(r.cells[j]) <==> Balanced(g.cells[j]))
  {
    IndexInRange(g, p);
    assert Get(g2, p) == SetBelief(Get(g1, p), s);
    forall j | 0 <= j < |g.cells|
      ensures Statics(g2.cells[j]) == Statics(g.cells[j])
      ensures Balanced(g2.cells[j]) <==> Balanced(g.cells[j])
    {
      if j == Index(g, p) {
        assert g2.cells[j] == Get(g2, p);
      }
    }
  }

  lemma {:induction false} StepsCounters(g: Grid, p: Point, s: Sentiment, g1: Grid, g2: Grid, r: Grid)
    requires Steps(g, p, s, g1, g2, r)
    ensures forall q :: InBounds(g, q) ==>
      var prev, near := Get(g, p).belief, q in Neighbours8(p);
      && Get(r, q).adjBlocked == Get(g, q).adjBlocked + (if near then Delta(prev, s, Blocked) else 0)
      && Get(r, q).adjEmpty == Get(g, q).adjEmpty + (if near then Delta(prev, s, Free) else 0)
      && Get(r, q).adjHidden == Get(g, q).adjHidden - (if near then Delta(prev, s, Blocked) + Delta(prev, s, Free) else 0)
  {
    var prev := Get(g, p).belief;
    forall q | InBounds(g, q)
      ensures
        var near := q in Neighbours8(p);
        && Get(r, q).adjBlocked == Get(g, q).adjBlocked + (if near then Delta(prev, s, Blocked) else 0)
        && Get(r, q).adjEmpty == Get(g, q).adjEmpty + (if near then Delta(prev, s, Free) else 0)
        && Get(r, q).adjHidden == Get(g, q).adjHidden - (if near then Delta(prev, s, Blocked) + Delta(prev, s, Free) else 0)
    {
      if q == p {
        Neighbours8Distinct(p);
        assert Get(g2, p) == SetBelief(Get(g1, p), s);
      } else {
        assert Get(g2, q) == Get(g1, q);
      }
    }
  }

  /** Marks the cell at `p` visited; nothing else changes. */
  function MarkVisited(g: Grid, p: Point): (r: Grid)
    requires WellFormed(g) && InBounds(g, p)
    ensures WellFormed(r) && SameBeliefs(g, r)
    ensures Get(r, p).visited
    ensures Get(r, p).(visited := false) == Get(g, p).(visited := false)
    ensures forall q :: InBounds(g, q) && q != p ==> Get(r, q) == Get(g, q)
  {
    Put(g, p, SetVisited(Get(g, p), true))
  }

  /** The copy constructor. A deep copy clones every cell field for field;
      a shallow one shares them. Either way the copy starts equal to its
      source. */
  function Copy(g: Grid, deep: bool): (r: Grid)
    ensures r == g
  {
    if deep then Grid(g.xSize, g.ySize, seq(|g.cells|, i requires 0 <= i < |g.cells| => g.cells[i]))
    else Grid(g.xSize, g.ySize, g.cells)
  }
}
