/** Deterministic part of grid generation (project2/entity/Grid.java
    `generateGrid`, mirrored by Simulator/Entity/Grid.py `generateGrid`).

    The random obstacle draw is an input: `obstacles` is the set of points
    the random generator would have blocked. Generation then makes two
    row-major passes: the first builds every cell with N = its number of
    in-bounds neighbours, the second walks the blocked cells and adds one to
    C of each of their in-bounds neighbours. The Java version refuses to
    block the first and last index; the Python version has no such rule and
    builds cells whose hidden count starts at 0. */
module Generation {
  import opened Sentiments
  import opened Points
  import opened Cells
  import opened Grids
  import opened Knowledge

  // ----- the row-major enumeration of a grid's points -----

  function Row(width: nat, y: int): (ps: seq<Point>)
    ensures |ps| == width
    ensures forall i :: 0 <= i < width ==> ps[i] == Point(i, y)
  {
    seq(width, x => Point(x, y))
  }

  /** Rows 0 .. rows-1, each from x = 0 to width-1. */
  function RowMajor(width: nat, rows: nat): (ps: seq<Point>)
    ensures |ps| == Mul(rows, width)
  {
    if rows == 0 then [] else RowMajor(width, rows - 1) + Row(width, rows - 1)
  }

  /** The enumeration visits every point of the rectangle and nothing
      else ... */
  lemma {:induction false} RowMajorMembers(width: nat, rows: nat)
    ensures forall p: Point :: p in RowMajor(width, rows) <==> 0 <= p.x < width && 0 <= p.y < rows
  {
    if rows > 0 {
      RowMajorMembers(width, rows - 1);
      var prev, row := RowMajor(width, rows - 1), Row(width, rows - 1);
      assert RowMajor(width, rows) == prev + row;
      forall p: Point
        ensures p in row <==> 0 <= p.x < width && p.y == rows - 1
      {
        if 0 <= p.x < width && p.y == rows - 1 {
          assert row[p.x] == p;
        }
      }
    }
  }

  /** ... each point at its row-major index ... */
  lemma {:induction false} RowMajorIndex(width: nat, rows: nat, p: Point)
    requires 0 <= p.x < width && 0 <= p.y < rows
    ensures 0 <= Mul(p.y, width) + p.x < |RowMajor(width, rows)|
    ensures RowMajor(width, rows)[Mul(p.y, width) + p.x] == p
  {
    var prev, row := RowMajor(width, rows - 1), Row(width, rows - 1);
    assert RowMajor(width, rows) == prev + row;
    MulMonotone(p.y, rows - 1, width);
    if p.y == rows - 1 {
      assert row[p.x] == p;
    } else {
      RowMajorIndex(width, rows - 1, p);
    }
  }

  /** Every enumerated point lies in the rectangle, read by position. */
  lemma RowMajorInside(width: nat, rows: nat)
    ensures forall i :: 0 <= i < |RowMajor(width, rows)| ==>
      0 <= RowMajor(width, rows)[i].x < width && 0 <= RowMajor(width, rows)[i].y < rows
  {
    RowMajorMembers(width, rows);
    var ps := RowMajor(width, rows);
    forall i | 0 <= i < |ps|
      ensures 0 <= ps[i].x < width && 0 <= ps[i].y < rows
    {
      assert ps[i] in ps;
    }
  }

  /** ... and exactly once. */
  lemma {:induction false} RowMajorDistinct(width: nat, rows: nat)
    ensures Distinct(RowMajor(width, rows))
  {
    if rows > 0 {
      RowMajorDistinct(width, rows - 1);
      RowMajorMembers(width, rows - 1);
      var prev, row := RowMajor(width, rows - 1), Row(width, rows - 1);
      assert RowMajor(width, rows) == prev + row;
      forall i, j | 0 <= i < j < |prev + row|
        ensures (prev + row)[i] != (prev + row)[j]
      {
        if i < |prev| && j >= |prev| {
          assert (prev + row)[i] in prev;
        }
      }
    }
  }

  lemma RowMajorSpec(width: nat, rows: nat)
    ensures Distinct(RowMajor(width, rows))
    ensures forall p: Point :: p in RowMajor(width, rows) <==> 0 <= p.x < width && 0 <= p.y < rows
  {
    RowMajorDistinct(width, rows);
    RowMajorMembers(width, rows);
  }

  /** The grid's own points, row-major. */
  function AllPoints(g: Grid): seq<Point>
    requires WellFormed(g)
  {
    RowMajor(g.xSize, g.ySize)
  }

  lemma AllPointsSpec(g: Grid)
    requires WellFormed(g)
    ensures Distinct(AllPoints(g))
    ensures forall p :: p in AllPoints(g) <==> InBounds(g, p)
  {
    RowMajorSpec(g.xSize, g.ySize);
  }

  // ----- first pass: one cell per point -----

  /** How many of `ps` lie inside an xSize by ySize rectangle. */
  function InBoundsCount(xSize: int, ySize: int, ps: seq<Point>): (n: nat)
    ensures n <= |ps|
  {
    if |ps| == 0 then 0
    else
      var p := ps[|ps| - 1];
      InBoundsCount(xSize, ySize, ps[..|ps| - 1]) + (if 0 <= p.x < xSize && 0 <= p.y < ySize then 1 else 0)
  }

  lemma {:induction false} InBoundsCountIsPresent(g: Grid, ps: seq<Point>)
    requires WellFormed(g)
    ensures InBoundsCount(g.xSize, g.ySize, ps) == Count(g, ps, Present)
  {
    if |ps| > 0 {
      InBoundsCountIsPresent(g, ps[..|ps| - 1]);
    }
  }

  /** The Java rule: index 0 and the last index are never blocked; every
      other cell takes the random draw. */
  predicate JavaBlocked(xSize: nat, ySize: nat, obstacles: set<Point>, p: Point)
    requires 0 <= p.y
  {
    var index := Mul(p.y, xSize) + p.x;
    if index == 0 || index == Mul(ySize, xSize) - 1 then false else p in obstacles
  }

  /** The cell the first pass builds at `p`: Java's constructor or Python's. */
  function SeedCell(xSize: nat, ySize: nat, obstacles: set<Point>, python: bool, p: Point): Cell
    requires 0 <= p.y
  {
    var numAdj := InBoundsCount(xSize, ySize, Neighbours8(p));
    if python then PyNewCell(p.x, p.y, numAdj, p in obstacles)
    else NewCell(p.x, p.y, numAdj, JavaBlocked(xSize, ySize, obstacles, p))
  }

  function Seed(xSize: nat, ySize: nat, obstacles: set<Point>, python: bool): (g: Grid)
    ensures WellFormed(g) && g.xSize == xSize && g.ySize == ySize
    ensures forall p :: InBounds(g, p) ==> Get(g, p) == SeedCell(xSize, ySize, obstacles, python, p)
  {
    var ps := RowMajor(xSize, ySize);
    RowMajorInside(xSize, ySize);
    var g := Grid(xSize, ySize, seq(|ps|, i requires 0 <= i < |ps| => SeedCell(xSize, ySize, obstacles, python, ps[i])));
    assert forall p :: InBounds(g, p) ==> Get(g, p) == SeedCell(xSize, ySize, obstacles, python, p) by {
      forall p | InBounds(g, p) ensures Get(g, p) == SeedCell(xSize, ySize, obstacles, python, p) {
        RowMajorIndex(xSize, ySize, p);
      }
    }
    g
  }

  // ----- second pass: every blocked cell tells its neighbours -----

  /** How many entries of `ps` are blocked and belong to `qs`. */
  function Members(g: Grid, ps: seq<Point>, qs: seq<Point>): (n: nat)
    requires WellFormed(g)
    ensures n <= |ps|
  {
    if |ps| == 0 then 0
    else
      var p := ps[|ps| - 1];
      Members(g, ps[..|ps| - 1], qs) + (if InBounds(g, p) && Get(g, p).blocked && p in qs then 1 else 0)
  }

  /** The second pass over `ps`: each blocked cell adds one to C of its
      in-bounds neighbours. Afterwards C of `q` has grown by the number of
      blocked cells of `ps` that are neighbours of `q`. */
  function Scatter(g: Grid, ps: seq<Point>): (r: Grid)
    requires WellFormed(g)
    requires forall i :: 0 <= i < |ps| ==> InBounds(g, ps[i])
    ensures WellFormed(r) && SameBeliefs(g, r)
    ensures forall q :: InBounds(g, q) ==>
      Get(r, q) == Get(g, q).(sensedBlocked := Get(g, q).sensedBlocked + Members(g, ps, Neighbours8(q)))
  {
    if |ps| == 0 then g
    else
      var h := Scatter(g, ps[..|ps| - 1]);
      var p := ps[|ps| - 1];
      var r := if Get(h, p).blocked then ForEachNeighbour(h, p, SensedBlocked(1)) else h;
      ScatterStep(g, ps, h, r);
      r
  }

  /** One blocked cell of the second pass tells its neighbours. */
  lemma ScatterStep(g: Grid, ps: seq<Point>, h: Grid, r: Grid)
    requires WellFormed(g) && 0 < |ps| && forall i :: 0 <= i < |ps| ==> InBounds(g, ps[i])
    requires WellFormed(h) && SameBeliefs(g, h) && InBounds(h, ps[|ps| - 1])
    requires forall q :: InBounds(g, q) ==>
      Get(h, q) == Get(g, q).(sensedBlocked := Get(g, q).sensedBlocked + Members(g, ps[..|ps| - 1], Neighbours8(q)))
    requires r == if Get(h, ps[|ps| - 1]).blocked then ForEachNeighbour(h, ps[|ps| - 1], SensedBlocked(1)) else h
    ensures WellFormed(r) && SameBeliefs(g, r)
    ensures forall q :: InBounds(g, q) ==>
      Get(r, q) == Get(g, q).(sensedBlocked := Get(g, q).sensedBlocked + Members(g, ps, Neighbours8(q)))
  {
    var p := ps[|ps| - 1];
    assert Get(h, p).blocked == Get(g, p).blocked;
    forall q | InBounds(g, q)
      ensures Get(r, q) == Get(g, q).(sensedBlocked := Get(g, q).sensedBlocked + Members(g, ps, Neighbours8(q)))
    {
      ScatterStepAt(g, ps, h, r, q);
    }
  }

  lemma ScatterStepAt(g: Grid, ps: seq<Point>, h: Grid, r: Grid, q: Point)
    requires WellFormed(g) && 0 < |ps| && InBounds(g, ps[|ps| - 1]) && InBounds(g, q)
    requires WellFormed(h) && SameShape(g, h) && InBounds(h, ps[|ps| - 1]) && InBounds(h, q)
    requires Get(h, ps[|ps| - 1]).blocked == Get(g, ps[|ps| - 1]).blocked
    requires Get(h, q) == Get(g, q).(sensedBlocked := Get(g, q).sensedBlocked + Members(g, ps[..|ps| - 1], Neighbours8(q)))
    requires r == if Get(h, ps[|ps| - 1]).blocked then ForEachNeighbour(h, ps[|ps| - 1], SensedBlocked(1)) else h
    ensures Get(r, q) == Get(g, q).(sensedBlocked := Get(g, q).sensedBlocked + Members(g, ps, Neighbours8(q)))
  {
    var p := ps[|ps| - 1];
    Neighbours8Symmetric(p, q);
    assert Members(g, ps, Neighbours8(q)) ==
      Members(g, ps[..|ps| - 1], Neighbours8(q)) + (if Get(g, p).blocked && p in Neighbours8(q) then 1 else 0);
  }

  lemma {:induction false} MembersNone(g: Grid, ps: seq<Point>)
    requires WellFormed(g)
    ensures Members(g, ps, []) == 0
  {
    if |ps| > 0 {
      MembersNone(g, ps[..|ps| - 1]);
    }
  }

  lemma {:induction false} MembersSplit(g: Grid, ps: seq<Point>, qs: seq<Point>, t: Point)
    requires WellFormed(g) && t !in qs
    ensures Members(g, ps, qs + [t]) == Members(g, ps, qs) + Members(g, ps, [t])
  {
    if |ps| > 0 {
      MembersSplit(g, ps[..|ps| - 1], qs, t);
    }
  }

  lemma {:induction false} MembersSingle(g: Grid, ps: seq<Point>, t: Point)
    requires WellFormed(g) && Distinct(ps)
    ensures Members(g, ps, [t]) == if t in ps && InBounds(g, t) && Get(g, t).blocked then 1 else 0
  {
    if |ps| > 0 {
      var init := ps[..|ps| - 1];
      assert ps == init + [ps[|ps| - 1]];
      MembersSingle(g, init, t);
    }
  }

  /** Counting the blocked cells of the whole grid that lie in `qs` is
      counting the blocked in-bounds entries of `qs`: the scatter pass
      computes the same C as looking at the neighbours directly. */
  lemma {:induction false} ScatterIsGather(g: Grid, qs: seq<Point>)
    requires WellFormed(g) && Distinct(qs)
    ensures Members(g, AllPoints(g), qs) == Count(g, qs, GroundBlocked)
  {
    if |qs| > 0 {
      var init, t := qs[..|qs| - 1], qs[|qs| - 1];
      assert qs == init + [t];
      assert Distinct(init) && t !in init;
      AllPointsSpec(g);
      ScatterIsGather(g, init);
      MembersSplit(g, AllPoints(g), init, t);
      MembersSingle(g, AllPoints(g), t);
      assert Count(g, qs, GroundBlocked) == Count(g, init, GroundBlocked) + (if InBounds(g, t) && Get(g, t).blocked then 1 else 0);
    } else {
      MembersNone(g, AllPoints(g));
    }
  }

  // ----- the two generators -----

  /** Both passes; `python` selects the Python cell constructor and drops
      the corner rule. */
  function Build(xSize: nat, ySize: nat, obstacles: set<Point>, python: bool): (g: Grid)
    ensures WellFormed(g) && g.xSize == xSize && g.ySize == ySize
    ensures forall p :: InBounds(g, p) ==>
      && Location(Get(g, p)) == p && Get(g, p).belief == Unsure && !Get(g, p).visited
      && Get(g, p).blocked == (if python then p in obstacles else JavaBlocked(xSize, ySize, obstacles, p))
      && Get(g, p).adjHidden == (if python then 0 else Get(g, p).numAdj)
  {
    var seed := Seed(xSize, ySize, obstacles, python);
    AllPointsSpec(seed);
    Scatter(seed, AllPoints(seed))
  }

  /** Java `generateGrid` with the random draw replaced by `obstacles`:
      every cell starts Unsure and unvisited, N and C describe the world,
      and the start and goal corners are never blocked. */
  function Generate(xSize: nat, ySize: nat, obstacles: set<Point>): (g: Grid)
    ensures WellFormed(g) && g.xSize == xSize && g.ySize == ySize
    ensures SensorsAccurate(g)
    ensures forall p :: InBounds(g, p) ==>
      && Get(g, p).belief == Unsure && !Get(g, p).visited
      && (Get(g, p).blocked <==> p in obstacles && p != Point(0, 0) && p != Point(xSize - 1, ySize - 1))
  {
    var g := Build(xSize, ySize, obstacles, false);
    GeneratedSensors(xSize, ySize, obstacles, false);
    forall p | InBounds(g, p)
      ensures Get(g, p).blocked <==> p in obstacles && p != Point(0, 0) && p != Point(xSize - 1, ySize - 1)
    {
      JavaBlockedCorners(xSize, ySize, obstacles, p);
    }
    g
  }

  /** Python `generateGrid`: no corner rule, and every H left at 0. */
  function PyGenerate(xSize: nat, ySize: nat, obstacles: set<Point>): (g: Grid)
    ensures WellFormed(g) && g.xSize == xSize && g.ySize == ySize
    ensures SensorsAccurate(g)
    ensures forall p :: InBounds(g, p) ==>
      && Get(g, p).belief == Unsure && !Get(g, p).visited
      && (Get(g, p).blocked <==> p in obstacles) && Get(g, p).adjHidden == 0
  {
    GeneratedSensors(xSize, ySize, obstacles, true);
    Build(xSize, ySize, obstacles, true)
  }

  /** Each generated cell is the first pass's cell with C set to the number
      of its truly blocked in-bounds neighbours. */
  lemma BuiltCell(xSize: nat, ySize: nat, obstacles: set<Point>, python: bool, p: Point)
    requires 0 <= p.x < xSize && 0 <= p.y < ySize
    ensures var g := Build(xSize, ySize, obstacles, python);
      Get(g, p) == SeedCell(xSize, ySize, obstacles, python, p).(sensedBlocked := Count(g, Neighbours8(p), GroundBlocked))
  {
    var seed := Seed(xSize, ySize, obstacles, python);
    var g := Build(xSize, ySize, obstacles, python);
    AllPointsSpec(seed);
    assert g == Scatter(seed, AllPoints(seed));
    Neighbours8Distinct(p);
    ScatterIsGather(seed, Neighbours8(p));
    forall q | InBounds(seed, q) ensures Get(g, q).blocked == Get(seed, q).blocked {
    }
    CountAgree(seed, g, Neighbours8(p), GroundBlocked);
  }

  /** Shared facts about both generators: N and C are the counts of
      in-bounds and of truly blocked neighbours, so 0 <= C <= N <= 8; every
      cell sits at its own coordinates, is Unsure and unvisited, and has no
      neighbour believed Blocked or Free. */
  lemma GeneratedSensors(xSize: nat, ySize: nat, obstacles: set<Point>, python: bool)
    ensures var g := Build(xSize, ySize, obstacles, python);
      && SensorsAccurate(g) && Located(g)
      && forall p :: InBounds(g, p) ==>
        && Get(g, p).belief == Unsure && !Get(g, p).visited
        && Get(g, p).adjBlocked == 0 && Get(g, p).adjEmpty == 0
        && 0 <= Get(g, p).sensedBlocked <= Get(g, p).numAdj <= 8
  {
    var g := Build(xSize, ySize, obstacles, python);
    forall p | InBounds(g, p)
      ensures Get(g, p).numAdj == Count(g, Neighbours8(p), Present)
      ensures Get(g, p).sensedBlocked == Count(g, Neighbours8(p), GroundBlocked)
      ensures Location(Get(g, p)) == p
      ensures Get(g, p).belief == Unsure && !Get(g, p).visited
      ensures Get(g, p).adjBlocked == 0 && Get(g, p).adjEmpty == 0
      ensures 0 <= Get(g, p).sensedBlocked <= Get(g, p).numAdj <= 8
    {
      BuiltCell(xSize, ySize, obstacles, python, p);
      InBoundsCountIsPresent(g, Neighbours8(p));
      CountDominated(g, Neighbours8(p), GroundBlocked, Present);
    }
  }

  /** The Java generator yields a sound knowledge base: besides the sensor
      facts, H = N counts the Unsure neighbours and every cell is Unsure. */
  lemma GenerateSound(xSize: nat, ySize: nat, obstacles: set<Point>)
    ensures Sound(Generate(xSize, ySize, obstacles)) && Located(Generate(xSize, ySize, obstacles))
    ensures UnsureCount(Generate(xSize, ySize, obstacles)) == Mul(ySize, xSize)
  {
    var g := Generate(xSize, ySize, obstacles);
    GeneratedSensors(xSize, ySize, obstacles, false);
    forall p | InBounds(g, p)
      ensures Get(g, p).adjBlocked == Count(g, Neighbours8(p), Believed(Blocked))
      ensures Get(g, p).adjEmpty == Count(g, Neighbours8(p), Believed(Free))
      ensures Get(g, p).adjHidden == Count(g, Neighbours8(p), Believed(Unsure))
    {
      BuiltCell(xSize, ySize, obstacles, false, p);
      AllUnsureCounts(g, Neighbours8(p));
    }
    AllUnsure(g);
  }

  /** Where every in-bounds belief is Unsure, every in-bounds neighbour is
      counted as Unsure. */
  lemma {:induction false} AllUnsureCounts(g: Grid, ps: seq<Point>)
    requires WellFormed(g) && forall q :: InBounds(g, q) ==> Get(g, q).belief == Unsure
    ensures Count(g, ps, Believed(Unsure)) == Count(g, ps, Present)
    ensures Count(g, ps, Believed(Blocked)) == 0 && Count(g, ps, Believed(Free)) == 0
  {
    if |ps| > 0 {
      AllUnsureCounts(g, ps[..|ps| - 1]);
    }
  }

  /** Every stored cell is some point's cell, so a grid that is Unsure at
      every point has every cell Unsure. */
  lemma AllUnsure(g: Grid)
    requires WellFormed(g) && forall q :: InBounds(g, q) ==> Get(g, q).belief == Unsure
    ensures UnsureCount(g) == |g.cells|
  {
    var ps := AllPoints(g);
    AllPointsSpec(g);
    forall j | 0 <= j < |g.cells| ensures g.cells[j].belief == Unsure {
      var q := ps[j];
      assert q in ps;
      RowMajorIndex(g.xSize, g.ySize, q);
      assert ps[Index(g, q)] == q;
      DistinctIndex(ps, j, Index(g, q));
    }
    CountUnsureAll(g.cells);
  }

  lemma {:induction false} CountUnsureAll(cs: seq<Cell>)
    requires forall j :: 0 <= j < |cs| ==> cs[j].belief == Unsure
    ensures CountUnsure(cs) == |cs|
  {
    if |cs| > 0 {
      CountUnsureAll(cs[..|cs| - 1]);
    }
  }

  lemma DistinctIndex<T>(s: seq<T>, i: int, j: int)
    requires Distinct(s) && 0 <= i < |s| && 0 <= j < |s| && s[i] == s[j]
    ensures i == j
  {
  }

  /** The index test of the Java rule names the two corners. */
  lemma JavaBlockedCorners(xSize: nat, ySize: nat, obstacles: set<Point>, p: Point)
    requires 0 <= p.x < xSize && 0 <= p.y < ySize
    ensures JavaBlocked(xSize, ySize, obstacles, p) <==>
      p in obstacles && p != Point(0, 0) && p != Point(xSize - 1, ySize - 1)
  {
    var shape := Grid(xSize, ySize, []);
    var first, last := Point(0, 0), Point(xSize - 1, ySize - 1);
    assert Index(shape, first) == 0;
    assert Index(shape, last) == Mul(ySize, xSize) - 1;
    if p != first {
      IndexInjective(shape, p, first);
    }
    if p != last {
      IndexInjective(shape, p, last);
    }
  }

  /** Java's corner rule: (0,0) and (xSize-1, ySize-1) are never blocked,
      and any other point is blocked exactly when the random draw says so. */
  lemma GenerateCorners(xSize: nat, ySize: nat, obstacles: set<Point>, p: Point)
    requires 0 <= p.x < xSize && 0 <= p.y < ySize
    ensures var g := Generate(xSize, ySize, obstacles);
      Get(g, p).blocked <==> p in obstacles && p != Point(0, 0) && p != Point(xSize - 1, ySize - 1)
  {
    BuiltCell(xSize, ySize, obstacles, false, p);
    JavaBlockedCorners(xSize, ySize, obstacles, p);
  }

  /** Python has no corner rule: a point is blocked exactly when the draw
      says so, (0,0) included. Its cells start with H = 0 instead of N. */
  lemma PyGenerateLayout(xSize: nat, ySize: nat, obstacles: set<Point>, p: Point)
    requires 0 <= p.x < xSize && 0 <= p.y < ySize
    ensures var g := PyGenerate(xSize, ySize, obstacles);
      (Get(g, p).blocked <==> p in obstacles) && Get(g, p).adjHidden == 0
  {
    BuiltCell(xSize, ySize, obstacles, true, p);
  }
}
