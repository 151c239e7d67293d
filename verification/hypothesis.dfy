/** The agents that test hypotheses
    (project2/agents/BetterInferenceAgent.java and PerfectInferenceAgent.java).

    Both first run the basic agent, then repeat passes: each pass collects
    the visited cells with hidden neighbours in row-major order and, for
    each of their Unsure in-bounds 8-neighbours, tries Blocked and then Free
    on a copy of the knowledge base. A hypothesis that leads to a
    contradiction is rejected and the other value is written, followed by a
    propagation whose verdict is ignored. The better agent rejects a
    hypothesis when propagation alone contradicts it; the perfect agent also
    runs a depth-limited search (`totalSolve`) on the copy. */
module Hypotheses {
  import opened Wrappers
  import opened Sentiments
  import opened Points
  import opened Cells
  import opened Grids
  import opened Knowledge
  import opened Propagation
  import opened Generation
  import opened SimpleAgents

  /** How a hypothesis is checked: by propagation alone, or by propagation
      followed by the search to the given depth. */
  datatype Tester = SingleStep | Sat(depth: int)

  /** A visited in-bounds cell with at least one hidden neighbour. */
  predicate Open(g: Grid, p: Point)
    requires WellFormed(g)
  {
    InBounds(g, p) && Get(g, p).visited && Get(g, p).adjHidden > 0
  }

  // ----- one write followed by propagation -----

  /** `setSentiment(adj, s)` on an Unsure cell followed by
      `propagateInferences(kb, adj)`: the propagation's verdict and the
      knowledge base it leaves. */
  function Try(g: Grid, adj: Point, s: Sentiment): (r: Outcome)
    requires WellFormed(g) && InBounds(g, adj) && Get(g, adj).belief == Unsure && s != Unsure
    ensures WellFormed(r.kb) && SameStatics(g, r.kb) && Monotone(g, r.kb)
    ensures Get(r.kb, adj).belief == s
    ensures UnsureCount(r.kb) < UnsureCount(g)
  {
    var g1 := PinOne(g, adj, s);
    var r := Propagate(g1, adj);
    MonotoneAt(g1, r.kb, adj);
    r
  }

  /** The write keeps counters consistent; a write of the ground truth on
      a sound knowledge base is never contradicted and keeps it sound. */
  lemma TryPreserves(g: Grid, adj: Point, s: Sentiment)
    requires WellFormed(g) && InBounds(g, adj) && Get(g, adj).belief == Unsure && s != Unsure
    ensures Consistent(g) ==> Consistent(Try(g, adj, s).kb)
    ensures Sound(g) && Agrees(g, adj, s) ==> Try(g, adj, s).ok && Sound(Try(g, adj, s).kb)
  {
    var g1 := PinOne(g, adj, s);
    if Consistent(g) {
      SetSentimentConsistent(g, adj, s);
      PropagateConsistent(g1, adj);
    }
    if Sound(g) && Agrees(g, adj, s) {
      SetSentimentSound(g, adj, s);
      PropagateSound(g1, adj);
    }
  }

  // ----- the search -----

  /** The leftmost open cell of row `y` at or after column `x`. */
  function FirstOpenInRow(g: Grid, y: int, x: int): (r: Option<Point>)
    requires WellFormed(g) && 0 <= y < g.ySize && 0 <= x
    ensures r.Some? ==> r.value.y == y && x <= r.value.x && Open(g, r.value)
    ensures r.Some? ==> forall x' :: x <= x' < r.value.x ==> !Open(g, Point(x', y))
    ensures r.None? ==> forall x' :: x <= x' ==> !Open(g, Point(x', y))
    decreases g.xSize - x
  {
    if x >= g.xSize then None
    else if Open(g, Point(x, y)) then Some(Point(x, y))
    else FirstOpenInRow(g, y, x + 1)
  }

  /** `p` is the open cell the row scan settles on among rows below `rows`:
      it lies in the highest such row holding an open cell, and is the
      leftmost open cell there. */
  ghost predicate LastRowFirst(g: Grid, p: Point, rows: int)
    requires WellFormed(g)
  {
    Open(g, p) && p.y < rows &&
    forall q :: Open(g, q) && q.y < rows ==> q.y < p.y || (q.y == p.y && p.x <= q.x)
  }

  ghost predicate NoOpenBelow(g: Grid, rows: int)
    requires WellFormed(g)
  {
    forall q :: Open(g, q) ==> rows <= q.y
  }

  /** The scan of `totalSolve` for rows `y` onwards: each row with an open
      cell replaces the candidate with its leftmost one, because the
      `break` leaves only the inner loop. */
  function ScanRows(g: Grid, y: int, found: Option<Point>): (r: Option<Point>)
    requires WellFormed(g) && 0 <= y <= g.ySize
    requires found.None? ==> NoOpenBelow(g, y)
    requires found.Some? ==> LastRowFirst(g, found.value, y)
    ensures r.None? ==> NoOpenBelow(g, g.ySize)
    ensures r.Some? ==> LastRowFirst(g, r.value, g.ySize)
    decreases g.ySize - y
  {
    if y == g.ySize then found
    else
      var row := FirstOpenInRow(g, y, 0);
      ScanRows(g, y + 1, if row.Some? then row else found)
  }

  /** The open cell `totalSolve` branches on: None exactly when no cell is
      open; otherwise the leftmost open cell of the last row holding one. */
  function FindOpen(g: Grid): (r: Option<Point>)
    requires WellFormed(g)
    ensures r.None? <==> forall q :: !Open(g, q)
    ensures r.Some? ==> Open(g, r.value)
    ensures r.Some? ==> forall q :: Open(g, q) ==> q.y < r.value.y || (q.y == r.value.y && r.value.x <= q.x)
  {
    ScanRows(g, 0, None)
  }

  /** Entry `i` of `ps` is the first in-bounds Unsure one. */
  predicate FirstUnsureAt(g: Grid, ps: seq<Point>, i: int)
    requires WellFormed(g)
  {
    0 <= i < |ps| && InBounds(g, ps[i]) && Get(g, ps[i]).belief == Unsure &&
    forall j :: 0 <= j < i ==> !InBounds(g, ps[j]) || Get(g, ps[j]).belief != Unsure
  }

  /** The first in-bounds Unsure entry of `ps`. */
  function FirstUnsure(g: Grid, ps: seq<Point>): (r: Option<Point>)
    requires WellFormed(g)
    ensures r.None? <==> forall q :: q in ps ==> !InBounds(g, q) || Get(g, q).belief != Unsure
    ensures r.Some? ==> exists i :: FirstUnsureAt(g, ps, i) && ps[i] == r.value
    decreases |ps|
  {
    if |ps| == 0 then None
    else if InBounds(g, ps[0]) && Get(g, ps[0]).belief == Unsure then Some(ps[0])
    else
      assert forall q :: q in ps ==> q == ps[0] || q in ps[1..];
      var r := FirstUnsure(g, ps[1..]);
      if r.Some? then
        var i :| FirstUnsureAt(g, ps[1..], i) && ps[1..][i] == r.value;
        assert FirstUnsureAt(g, ps, i + 1);
        r
      else r
  }

  /** The neighbour `totalSolve` branches on: the first Unsure in-bounds
      entry of the open cell's 8-neighbour list. With consistent counters an
      open cell always has one, so the scan never falls through. */
  function Branch(g: Grid, o: Point): (adj: Point)
    requires Consistent(g) && Open(g, o)
    ensures adj in Neighbours8(o) && InBounds(g, adj) && Get(g, adj).belief == Unsure
    ensures exists i :: FirstUnsureAt(g, Neighbours8(o), i) && Neighbours8(o)[i] == adj
  {
    HiddenMeansUnsureNeighbour(g, o);
    var r := FirstUnsure(g, Neighbours8(o));
    r.value
  }

  /** The two attempts of one search level at the neighbour `Branch`
      picks: Blocked on a copy, and Free on the original. */
  function Attempts(g: Grid): (r: (Outcome, Outcome))
    requires Consistent(g) && FindOpen(g).Some?
    ensures Consistent(r.0.kb) && UnsureCount(r.0.kb) < UnsureCount(g)
    ensures Consistent(r.1.kb) && UnsureCount(r.1.kb) < UnsureCount(g)
  {
    var adj := Branch(g, FindOpen(g).value);
    TryPreserves(g, adj, Blocked);
    TryPreserves(g, adj, Free);
    (Try(g, adj, Blocked), Try(g, adj, Free))
  }

  /** On a sound knowledge base the attempt that writes the ground truth
      is not contradicted and leaves the knowledge base sound. */
  lemma AttemptsSound(g: Grid)
    requires Consistent(g) && FindOpen(g).Some?
    ensures Sound(g) ==> (Attempts(g).0.ok && Sound(Attempts(g).0.kb)) || (Attempts(g).1.ok && Sound(Attempts(g).1.kb))
  {
    var adj := Branch(g, FindOpen(g).value);
    if Get(g, adj).blocked {
      TryPreserves(g, adj, Blocked);
    } else {
      TryPreserves(g, adj, Free);
    }
  }

  /** `totalSolve(kb, depth)`: depth 0 or no open cell answers true;
      otherwise the first Unsure neighbour of the chosen open cell is set
      Blocked on a copy and, if propagation or the deeper search fails
      there, set Free on the original. A negative depth never reaches 0.
      A knowledge base that agrees with the maze is never declared
      unsatisfiable: at every level the branch that writes the ground truth
      succeeds. */
  function TotalSolve(g: Grid, depth: int): (sat: bool)
    requires Consistent(g)
    ensures Sound(g) ==> sat
    decreases UnsureCount(g)
  {
    if depth == 0 || FindOpen(g).None? then true
    else
      var (b, f) := Attempts(g);
      AttemptsSound(g);
      if b.ok && TotalSolve(b.kb, depth - 1) then true
      else f.ok && TotalSolve(f.kb, depth - 1)
  }

  /** Two searches that both go a level deeper agree when their branches
      do. */
  lemma StepAgree(g: Grid, d: int, e: int)
    requires Consistent(g) && d != 0 && e != 0 && FindOpen(g).Some?
    requires TotalSolve(Attempts(g).0.kb, d - 1) == TotalSolve(Attempts(g).0.kb, e - 1)
    requires TotalSolve(Attempts(g).1.kb, d - 1) == TotalSolve(Attempts(g).1.kb, e - 1)
    ensures TotalSolve(g, d) == TotalSolve(g, e)
  {
  }

  /** All negative depths search the same way: the depth never reaches 0. */
  lemma {:induction false} NegativeDepthsAgree(g: Grid, d: int, e: int)
    requires Consistent(g) && d < 0 && e < 0
    ensures TotalSolve(g, d) == TotalSolve(g, e)
    decreases UnsureCount(g)
  {
    if FindOpen(g).Some? {
      var (b, f) := Attempts(g);
      NegativeDepthsAgree(b.kb, d - 1, e - 1);
      NegativeDepthsAgree(f.kb, d - 1, e - 1);
      StepAgree(g, d, e);
    }
  }

  /** Every level pins one Unsure cell, so a depth above the number of
      Unsure cells is never exhausted and searches like the unbounded
      default. */
  lemma {:induction false} DeepEnoughIsUnbounded(g: Grid, d: int, e: int)
    requires Consistent(g) && d > UnsureCount(g) && e < 0
    ensures TotalSolve(g, d) == TotalSolve(g, e)
    decreases UnsureCount(g), 1
  {
    if FindOpen(g).Some? {
      DeepEnoughChild(g, d, e, Attempts(g).0);
      DeepEnoughChild(g, d, e, Attempts(g).1);
      StepAgree(g, d, e);
    }
  }

  lemma {:induction false} DeepEnoughChild(g: Grid, d: int, e: int, o: Outcome)
    requires Consistent(g) && d > UnsureCount(g) && e < 0
    requires Consistent(o.kb) && UnsureCount(o.kb) < UnsureCount(g)
    ensures TotalSolve(o.kb, d - 1) == TotalSolve(o.kb, e - 1)
    decreases UnsureCount(g), 0
  {
    DeepEnoughIsUnbounded(o.kb, d - 1, e - 1);
  }

  // ----- testing one hypothesis -----

  /** Whether writing `s` at `adj` on a copy survives the tester. A
      hypothesis survives the satisfiability tester only if it survives
      propagation, and the hypothesis that agrees with the maze always
      survives. */
  function Test(g: Grid, adj: Point, s: Sentiment, tester: Tester): (ok: bool)
    requires WellFormed(g) && InBounds(g, adj) && Get(g, adj).belief == Unsure && s != Unsure
    requires tester.Sat? ==> Consistent(g)
    ensures ok ==> Try(g, adj, s).ok
    ensures Sound(g) && Agrees(g, adj, s) ==> ok
  {
    var o := Try(g, adj, s);
    TryPreserves(g, adj, s);
    match tester
    case SingleStep => o.ok
    case Sat(depth) => o.ok && TotalSolve(o.kb, depth)
  }

  /** Blocked is tried first: if it fails the cell is Free; otherwise if
      Free fails the cell is Blocked; otherwise nothing is learnt. */
  function Decide(g: Grid, adj: Point, tester: Tester): (r: Option<Sentiment>)
    requires WellFormed(g) && InBounds(g, adj) && Get(g, adj).belief == Unsure
    requires tester.Sat? ==> Consistent(g)
    ensures r.Some? ==> r.value != Unsure
    ensures r.None? <==> Test(g, adj, Blocked, tester) && Test(g, adj, Free, tester)
    ensures r == Some(Free) <==> !Test(g, adj, Blocked, tester)
    ensures r == Some(Blocked) <==> Test(g, adj, Blocked, tester) && !Test(g, adj, Free, tester)
  {
    if !Test(g, adj, Blocked, tester) then Some(Free)
    else if !Test(g, adj, Free, tester) then Some(Blocked)
    else None
  }

  /** On a sound knowledge base a decided value is the ground truth, since
      the true hypothesis is never the one rejected; and the decision is
      None exactly when both hypotheses survive. */
  lemma DecideSound(g: Grid, adj: Point, tester: Tester)
    requires Sound(g) && InBounds(g, adj) && Get(g, adj).belief == Unsure
    ensures Decide(g, adj, tester).Some? ==> Agrees(g, adj, Decide(g, adj, tester).value)
    ensures Decide(g, adj, tester).None? <==> Test(g, adj, Blocked, tester) && Test(g, adj, Free, tester)
  {
    if Get(g, adj).blocked {
      assert Test(g, adj, Blocked, tester);
    } else {
      assert Test(g, adj, Free, tester);
    }
  }

  // ----- passes -----

  /** An entry the pass has nothing to learn about: out of bounds, already
      pinned, or surviving both hypotheses. */
  predicate Settled(g: Grid, q: Point, tester: Tester)
    requires WellFormed(g) && (tester.Sat? ==> Consistent(g))
  {
    !InBounds(g, q) || Get(g, q).belief != Unsure ||
    (Test(g, q, Blocked, tester) && Test(g, q, Free, tester))
  }

  /** The inner loop over the 8-neighbours of one open cell. */
  function TryNeighbours(g: Grid, ps: seq<Point>, tester: Tester): (r: Pass)
    requires WellFormed(g) && (tester.Sat? ==> Consistent(g))
    ensures WellFormed(r.kb) && SameStatics(g, r.kb) && Monotone(g, r.kb)
    ensures Consistent(g) ==> Consistent(r.kb)
    ensures r.changed ==> UnsureCount(r.kb) < UnsureCount(g)
    ensures !r.changed ==> r.kb == g && forall q :: q in ps ==> Settled(g, q, tester)
    decreases |ps|
  {
    if |ps| == 0 then Pass(false, g)
    else
      var adj := ps[0];
      assert forall q :: q in ps ==> q == adj || q in ps[1..];
      if !InBounds(g, adj) || Get(g, adj).belief != Unsure then TryNeighbours(g, ps[1..], tester)
      else
        var d := Decide(g, adj, tester);
        if d.None? then TryNeighbours(g, ps[1..], tester)
        else
          var k := Try(g, adj, d.value).kb;
          TryPreserves(g, adj, d.value);
          var rest := TryNeighbours(k, ps[1..], tester);
          Pass(true, rest.kb)
  }

  /** The queue of open cells of one pass, each examined in turn. */
  function TestCells(g: Grid, cells: seq<Point>, tester: Tester): (r: Pass)
    requires WellFormed(g) && (tester.Sat? ==> Consistent(g))
    ensures WellFormed(r.kb) && SameStatics(g, r.kb) && Monotone(g, r.kb)
    ensures Consistent(g) ==> Consistent(r.kb)
    ensures r.changed ==> UnsureCount(r.kb) < UnsureCount(g)
    ensures !r.changed ==> r.kb == g
    ensures !r.changed ==> forall c :: c in cells ==> forall q :: q in Neighbours8(c) ==> Settled(g, q, tester)
    decreases |cells|
  {
    if |cells| == 0 then Pass(false, g)
    else
      assert forall c :: c in cells ==> c == cells[0] || c in cells[1..];
      var a := TryNeighbours(g, Neighbours8(cells[0]), tester);
      var b := TestCells(a.kb, cells[1..], tester);
      Pass(a.changed || b.changed, b.kb)
  }

  /** The open cells among `ps`, in order. */
  function OpenAmong(g: Grid, ps: seq<Point>): (r: seq<Point>)
    requires WellFormed(g)
    ensures forall q :: q in r <==> q in ps && Open(g, q)
    decreases |ps|
  {
    if |ps| == 0 then []
    else
      assert forall q :: q in ps <==> q == ps[0] || q in ps[1..];
      (if Open(g, ps[0]) then [ps[0]] else []) + OpenAmong(g, ps[1..])
  }

  /** The open cells of the knowledge base in row-major order. */
  function OpenCells(g: Grid): (r: seq<Point>)
    requires WellFormed(g)
    ensures forall q :: q in r <==> Open(g, q)
  {
    AllPointsSpec(g);
    OpenAmong(g, AllPoints(g))
  }

  /** No pass would learn anything: every Unsure neighbour of every open
      cell survives both hypotheses. */
  ghost predicate Exhausted(g: Grid, tester: Tester)
    requires WellFormed(g) && (tester.Sat? ==> Consistent(g))
  {
    forall c :: Open(g, c) ==> forall q :: q in Neighbours8(c) ==> Settled(g, q, tester)
  }

  /** The `while (!done)` loop: passes repeat until one writes nothing. It
      ends because each pass that writes pins an Unsure cell. */
  function TestLoop(g: Grid, tester: Tester): (r: Grid)
    requires WellFormed(g) && (tester.Sat? ==> Consistent(g))
    ensures WellFormed(r) && SameStatics(g, r) && Monotone(g, r)
    ensures UnsureCount(r) <= UnsureCount(g)
    ensures Consistent(g) ==> Consistent(r)
    ensures Exhausted(r, tester)
    decreases UnsureCount(g)
  {
    var pass := TestCells(g, OpenCells(g), tester);
    if pass.changed then TestLoop(pass.kb, tester) else pass.kb
  }

  /** A pass over entries that are all settled writes nothing. */
  lemma {:induction false} TryNeighboursSettled(g: Grid, ps: seq<Point>, tester: Tester)
    requires WellFormed(g) && (tester.Sat? ==> Consistent(g))
    requires forall q :: q in ps ==> Settled(g, q, tester)
    ensures TryNeighbours(g, ps, tester) == Pass(false, g)
    decreases |ps|
  {
    if |ps| > 0 {
      assert ps[0] in ps;
      assert forall q :: q in ps[1..] ==> q in ps;
      TryNeighboursSettled(g, ps[1..], tester);
    }
  }

  lemma {:induction false} TestCellsSettled(g: Grid, cells: seq<Point>, tester: Tester)
    requires WellFormed(g) && (tester.Sat? ==> Consistent(g))
    requires forall c :: c in cells ==> forall q :: q in Neighbours8(c) ==> Settled(g, q, tester)
    ensures TestCells(g, cells, tester) == Pass(false, g)
    decreases |cells|
  {
    if |cells| > 0 {
      assert cells[0] in cells;
      assert forall c :: c in cells[1..] ==> c in cells;
      TryNeighboursSettled(g, Neighbours8(cells[0]), tester);
      TestCellsSettled(g, cells[1..], tester);
    }
  }

  /** The loop's exit condition is exactly its fixed points: an exhausted
      knowledge base comes back unchanged, so running the loop twice is
      running it once. */
  lemma TestLoopFixedPoint(g: Grid, tester: Tester)
    requires WellFormed(g) && (tester.Sat? ==> Consistent(g))
    ensures Exhausted(g, tester) <==> TestLoop(g, tester) == g
    ensures TestLoop(TestLoop(g, tester), tester) == TestLoop(g, tester)
  {
    if Exhausted(g, tester) {
      TestCellsSettled(g, OpenCells(g), tester);
    }
    var r := TestLoop(g, tester);
    TestCellsSettled(r, OpenCells(r), tester);
  }

  // ----- soundness of the passes -----

  lemma {:induction false} TryNeighboursSound(g: Grid, ps: seq<Point>, tester: Tester)
    requires Sound(g)
    ensures Sound(TryNeighbours(g, ps, tester).kb)
    decreases |ps|
  {
    if |ps| > 0 {
      var adj := ps[0];
      if InBounds(g, adj) && Get(g, adj).belief == Unsure {
        var d := Decide(g, adj, tester);
        if d.Some? {
          DecideSound(g, adj, tester);
          TryPreserves(g, adj, d.value);
          TryNeighboursSound(Try(g, adj, d.value).kb, ps[1..], tester);
        } else {
          TryNeighboursSound(g, ps[1..], tester);
        }
      } else {
        TryNeighboursSound(g, ps[1..], tester);
      }
    }
  }

  lemma {:induction false} TestCellsSound(g: Grid, cells: seq<Point>, tester: Tester)
    requires Sound(g)
    ensures Sound(TestCells(g, cells, tester).kb)
    decreases |cells|
  {
    if |cells| > 0 {
      TryNeighboursSound(g, Neighbours8(cells[0]), tester);
      TestCellsSound(TryNeighbours(g, Neighbours8(cells[0]), tester).kb, cells[1..], tester);
    }
  }

  /** On a sound knowledge base every value the loop writes is the ground
      truth, so the knowledge base stays sound. */
  lemma {:induction false} TestLoopSound(g: Grid, tester: Tester)
    requires Sound(g)
    ensures Sound(TestLoop(g, tester))
    decreases UnsureCount(g)
  {
    TestCellsSound(g, OpenCells(g), tester);
    var pass := TestCells(g, OpenCells(g), tester);
    if pass.changed {
      TestLoopSound(pass.kb, tester);
    }
  }

  // ----- the agents -----

  /** `BetterInferenceAgent.learn`. */
  function BetterLearn(g: Grid, location: Point): (r: Grid)
    requires WellFormed(g)
    ensures WellFormed(r) && SameStatics(g, r) && Monotone(g, r)
    ensures Exhausted(r, SingleStep)
  {
    TestLoop(BasicLearn(g, location), SingleStep)
  }

  /** `PerfectInferenceAgent.learn` with the given search depth. */
  function PerfectLearn(g: Grid, location: Point, depth: int): (r: Grid)
    requires Consistent(g)
    ensures Consistent(r) && SameStatics(g, r) && Monotone(g, r)
    ensures Exhausted(r, Sat(depth))
  {
    BasicLearnPreserves(g, location);
    TestLoop(BasicLearn(g, location), Sat(depth))
  }

  /** The five agents of the simulator. */
  datatype Agent = Blindfolded | FourNeighbour | Basic | Better | Perfect(depth: int)

  /** The perfect agent's default: a search of unbounded depth. */
  const PerfectDefault: Agent := Perfect(-1)

  /** `InferenceAgent.learn` dispatched on the agent. */
  function Learn(agent: Agent, g: Grid, location: Point): (r: Grid)
    requires WellFormed(g) && (agent.Perfect? ==> Consistent(g))
    ensures WellFormed(r) && SameStatics(g, r)
    ensures agent != FourNeighbour ==> Monotone(g, r)
  {
    match agent
    case Blindfolded => BlindfoldedLearn(g, location)
    case FourNeighbour => FourNeighbourLearn(g, location)
    case Basic => BasicLearn(g, location)
    case Better => BetterLearn(g, location)
    case Perfect(depth) => PerfectLearn(g, location, depth)
  }

  /** Every agent except the four-neighbour one keeps the counters
      consistent and a sound knowledge base sound; the four-neighbour agent
      keeps a truthful knowledge base truthful. */
  lemma LearnPreserves(agent: Agent, g: Grid, location: Point)
    requires WellFormed(g) && (agent.Perfect? ==> Consistent(g))
    ensures agent != FourNeighbour && Consistent(g) ==> Consistent(Learn(agent, g, location))
    ensures agent != FourNeighbour && Sound(g) ==> Sound(Learn(agent, g, location))
    ensures agent == FourNeighbour && Truthful(g) ==> Truthful(Learn(agent, g, location))
    ensures agent == Blindfolded ==> Learn(agent, g, location) == g
  {
    match agent
    case Blindfolded =>
    case FourNeighbour =>
      if Truthful(g) {
        FourNeighbourTruthful(g, location);
      }
    case Basic =>
      BasicLearnPreserves(g, location);
    case Better =>
      BasicLearnPreserves(g, location);
      if Sound(g) {
        TestLoopSound(BasicLearn(g, location), SingleStep);
      }
    case Perfect(depth) =>
      BasicLearnPreserves(g, location);
      if Sound(g) {
        TestLoopSound(BasicLearn(g, location), Sat(depth));
      }
  }
}
