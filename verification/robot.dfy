/** The navigating robot (project2/entity/Robot.java).

    The robot holds its location, its goal, its inference agent and its
    knowledge base. The knowledge base is the robot's own copy of the world:
    each cell carries the ground truth the robot discovers by bumping or
    stepping. `Run` plans a route over the cells not believed Blocked,
    walks it, learning after every move, and replans until the goal is
    reached or no route remains.

    The planner is the A* search of the `AStar` module (project3's
    AStarSearch) with the caller's heuristic. It stands in for project2's
    own AStarSearch, which is not part of this model; the error result for
    an out-of-bounds endpoint and the processed-node count come from it. Wall-clock runtime, the verbose trace and the second
    knowledge base kept for display are not modelled. */
module Robots {
  import opened Wrappers
  import opened Sentiments
  import opened Points
  import opened Cells
  import opened Grids
  import opened Knowledge
  import opened SimpleAgents
  import opened Hypotheses
  import opened Heuristics
  import opened AStar

  datatype Robot = Robot(current: Point, goal: Point, agent: Agent, kb: Grid)

  /** `GridWorldInfo` as the robot fills it in. `trajectory` is None where
      the source stores NaN (no route found). */
  datatype Stats = Stats(trajectory: Option<nat>, processed: nat, bumps: nat, plans: nat, determined: nat)

  /** What `learn` needs of the knowledge base: a well-formed grid, and
      consistent counters for the perfect agent's satisfiability search. */
  ghost predicate Workable(agent: Agent, kb: Grid) {
    WellFormed(kb) && (agent.Perfect? ==> Consistent(kb))
  }

  /** The knowledge base as it stands when nothing has gone wrong: every
      pinned belief is true, and for the counting agents the counters are
      in step and N, C describe the world. */
  ghost predicate Ready(agent: Agent, kb: Grid) {
    if agent == FourNeighbour then Truthful(kb) else Sound(kb)
  }

  /** The planner's obstacle test: the cell is believed Blocked. */
  predicate BelievedBlocked(c: Cell) {
    c.belief == Blocked
  }

  // ----- frame lemmas for the three writes the robot makes -----

  lemma MonotoneTrans(a: Grid, b: Grid, c: Grid)
    requires Monotone(a, b) && Monotone(b, c)
    ensures Monotone(a, c)
  {
  }

  /** Marking a cell visited changes no belief, counter or ground truth, so
      every knowledge-base invariant survives it. */
  lemma MarkVisitedKeeps(g: Grid, p: Point)
    requires WellFormed(g) && InBounds(g, p)
    ensures var r := MarkVisited(g, p);
      && (Consistent(g) ==> Consistent(r))
      && (SensorsAccurate(g) ==> SensorsAccurate(r))
      && (Truthful(g) ==> Truthful(r))
      && Monotone(g, r)
  {
    var r := MarkVisited(g, p);
    forall sel: Selector, ps: seq<Point> | !sel.Present?
      ensures Count(r, ps, sel) == Count(g, ps, sel)
    {
      CountAgree(g, r, ps, sel);
    }
    forall ps: seq<Point>
      ensures Count(r, ps, Present) == Count(g, ps, Present)
    {
      CountAgree(g, r, ps, Present);
    }
  }

  /** Writing over an Unsure belief, or rewriting the same one, only pins. */
  lemma SetSentimentMonotone(g: Grid, p: Point, s: Sentiment)
    requires WellFormed(g) && InBounds(g, p)
    requires Get(g, p).belief == Unsure || Get(g, p).belief == s
    ensures Monotone(g, SetSentiment(g, p, s))
  {
    IndexInRange(g, p);
  }

  lemma SetSentimentWorkable(agent: Agent, g: Grid, p: Point, s: Sentiment)
    requires Workable(agent, g) && InBounds(g, p)
    ensures Workable(agent, SetSentiment(g, p, s))
  {
    if agent.Perfect? {
      SetSentimentConsistent(g, p, s);
    }
  }

  /** `learn` never drops a Blocked belief, and keeps every other pinned
      belief too, except on the four-neighbour agent's cardinal cells. */
  lemma LearnKeepsBelief(agent: Agent, g: Grid, location: Point, q: Point)
    requires Workable(agent, g) && InBounds(g, q)
    ensures var r := Learn(agent, g, location);
      && Get(r, q).visited == Get(g, q).visited
      && (Get(g, q).belief == Blocked ==> Get(r, q).belief == Blocked)
      && (Get(g, q).belief != Unsure && (agent != FourNeighbour || q !in Neighbours4(location)) ==>
            Get(r, q).belief == Get(g, q).belief)
  {
    var r := Learn(agent, g, location);
    MonotoneAt(g, r, q);
  }

  /** After `learn` the robot's invariants still hold and beliefs have only
      been pinned. */
  lemma LearnKeepsReady(agent: Agent, g: Grid, location: Point)
    requires Workable(agent, g)
    ensures Workable(agent, Learn(agent, g, location))
    ensures Ready(agent, g) ==> Ready(agent, Learn(agent, g, location)) && Monotone(g, Learn(agent, g, location))
  {
    LearnPreserves(agent, g, location);
    if agent == FourNeighbour && Truthful(g) {
      FourNeighbourTruthful(g, location);
    }
  }

  // ----- the constructor -----

  /** The robot starts knowing its start is Free and visited, and has
      learned from it once. */
  function Init(start: Point, goal: Point, agent: Agent, kb: Grid): (r: Robot)
    requires WellFormed(kb) && InBounds(kb, start) && (agent.Perfect? ==> Consistent(kb))
    ensures r.current == start && r.goal == goal && r.agent == agent
    ensures WellFormed(r.kb) && SameShape(kb, r.kb)
    ensures Get(r.kb, start).belief == Free && Get(r.kb, start).visited
  {
    var k1 := SetSentiment(kb, start, Free);
    var k2 := MarkVisited(k1, start);
    MarkVisitedKeeps(k1, start);
    SetSentimentWorkable(agent, kb, start, Free);
    LearnKeepsBelief(agent, k2, start, start);
    Neighbours4Distinct(start);
    Robot(start, goal, agent, Learn(agent, k2, start))
  }

  /** A truly free start keeps a ready knowledge base ready. */
  lemma InitReady(start: Point, goal: Point, agent: Agent, kb: Grid)
    requires Ready(agent, kb) && InBounds(kb, start) && !Get(kb, start).blocked
    ensures Ready(agent, Init(start, goal, agent, kb).kb)
    ensures Monotone(kb, Init(start, goal, agent, kb).kb)
  {
    var k1 := SetSentiment(kb, start, Free);
    var k2 := MarkVisited(k1, start);
    if agent == FourNeighbour {
      SetSentimentTruthful(kb, start, Free);
    } else {
      SetSentimentSound(kb, start, Free);
    }
    SetSentimentMonotone(kb, start, Free);
    MarkVisitedKeeps(k1, start);
    MonotoneTrans(kb, k1, k2);
    LearnKeepsReady(agent, k2, start);
    MonotoneTrans(kb, k2, Learn(agent, k2, start));
  }

  // ----- walking a path -----

  /** Whether any point of `ps` is believed Blocked: the check after each
      move that abandons the rest of the path. */
  function Obstructed(kb: Grid, ps: seq<Point>): (b: bool)
    requires WellFormed(kb) && forall p :: p in ps ==> InBounds(kb, p)
    ensures b <==> exists i :: 0 <= i < |ps| && Get(kb, ps[i]).belief == Blocked
  {
    if |ps| == 0 then false
    else
      var rest := Obstructed(kb, ps[1..]);
      assert forall i :: 0 < i < |ps| ==> ps[1..][i - 1] == ps[i];
      Get(kb, ps[0]).belief == Blocked || rest
  }

  /** The bump: the cell is marked Blocked and the robot stays put. */
  function Bump(rb: Robot, p: Point): (r: Robot)
    requires WellFormed(rb.kb) && InBounds(rb.kb, p)
    ensures r.current == rb.current && WellFormed(r.kb) && SameShape(rb.kb, r.kb)
    ensures Get(r.kb, p).belief == Blocked
  {
    rb.(kb := SetSentiment(rb.kb, p, Blocked))
  }

  /** The step: the cell is marked Free, the robot moves onto it, and the
      cell is marked visited. */
  function Advance(rb: Robot, p: Point): (r: Robot)
    requires WellFormed(rb.kb) && InBounds(rb.kb, p)
    ensures r.current == p && WellFormed(r.kb) && SameShape(rb.kb, r.kb)
    ensures Get(r.kb, p).belief == Free && Get(r.kb, p).visited
  {
    var k := SetSentiment(rb.kb, p, Free);
    MarkVisitedKeeps(k, p);
    rb.(current := p, kb := MarkVisited(k, p))
  }

  /** The first half of a move: bump into the head of the path or step
      onto it. */
  function Touch(rb: Robot, p: Point): (r: Robot)
    requires Workable(rb.agent, rb.kb) && InBounds(rb.kb, p)
    ensures Workable(r.agent, r.kb) && SameShape(rb.kb, r.kb)
    ensures r.agent == rb.agent && r.goal == rb.goal
    ensures IsBlocked(Get(rb.kb, p)) ==> r.current == rb.current && Get(r.kb, p).belief == Blocked
    ensures !IsBlocked(Get(rb.kb, p)) ==> r.current == p && Get(r.kb, p).visited
    ensures forall q :: InBounds(rb.kb, q) && Get(rb.kb, q).visited ==> Get(r.kb, q).visited
    ensures KeepsBlocked(rb.kb, r.kb)
  {
    TouchKeepsBlocked(rb, p);
    if IsBlocked(Get(rb.kb, p)) then
      BumpWorkable(rb, p);
      Bump(rb, p)
    else
      AdvanceWorkable(rb, p);
      Advance(rb, p)
  }

  /** A bump only adds a Blocked belief, and a step lands on a cell that is
      not believed Blocked, so neither drops one. */
  lemma TouchKeepsBlocked(rb: Robot, p: Point)
    requires WellFormed(rb.kb) && InBounds(rb.kb, p)
    ensures IsBlocked(Get(rb.kb, p)) ==> KeepsBlocked(rb.kb, Bump(rb, p).kb)
    ensures !IsBlocked(Get(rb.kb, p)) ==> KeepsBlocked(rb.kb, Advance(rb, p).kb)
  {
    var c := Get(rb.kb, p);
    var s := if IsBlocked(c) then Blocked else Free;
    var k := SetSentiment(rb.kb, p, s);
    SetSentimentOnlyAt(rb.kb, p, s);
    if !IsBlocked(c) {
      MarkVisitedKeeps(k, p);
      forall q | InBounds(rb.kb, q) && Get(rb.kb, q).belief == Blocked
        ensures Get(Advance(rb, p).kb, q).belief == Blocked
      {
        MonotoneBeliefAt(k, MarkVisited(k, p), q);
      }
    }
  }

  lemma BumpWorkable(rb: Robot, p: Point)
    requires Workable(rb.agent, rb.kb) && InBounds(rb.kb, p)
    ensures Workable(rb.agent, Bump(rb, p).kb)
    ensures forall q :: InBounds(rb.kb, q) ==> Get(Bump(rb, p).kb, q).visited == Get(rb.kb, q).visited
  {
    var moved := Bump(rb, p);
    SetSentimentWorkable(rb.agent, rb.kb, p, Blocked);
    forall q | InBounds(rb.kb, q)
      ensures Get(moved.kb, q).visited == Get(rb.kb, q).visited
    {
      MonotoneAt(rb.kb, moved.kb, q);
    }
  }

  lemma AdvanceWorkable(rb: Robot, p: Point)
    requires Workable(rb.agent, rb.kb) && InBounds(rb.kb, p)
    ensures Workable(rb.agent, Advance(rb, p).kb)
    ensures forall q :: InBounds(rb.kb, q) && Get(rb.kb, q).visited ==> Get(Advance(rb, p).kb, q).visited
  {
    var k := SetSentiment(rb.kb, p, Free);
    SetSentimentWorkable(rb.agent, rb.kb, p, Free);
    if rb.agent.Perfect? {
      MarkVisitedKeeps(k, p);
    }
    AdvanceVisited(rb.kb, p, k);
  }

  lemma AdvanceVisited(g: Grid, p: Point, k: Grid)
    requires WellFormed(g) && InBounds(g, p) && k == SetSentiment(g, p, Free)
    ensures forall q :: InBounds(g, q) && Get(g, q).visited ==> Get(MarkVisited(k, p), q).visited
  {
    var r := MarkVisited(k, p);
    forall q | InBounds(g, q) && Get(g, q).visited
      ensures Get(r, q).visited
    {
      if q != p {
        MonotoneAt(g, k, q);
        assert Get(r, q) == Get(k, q);
      }
    }
  }

  lemma LearnKeepsVisited(agent: Agent, g: Grid, location: Point)
    requires Workable(agent, g)
    ensures forall q :: InBounds(g, q) ==> Get(Learn(agent, g, location), q).visited == Get(g, q).visited
  {
    forall q | InBounds(g, q)
      ensures Get(Learn(agent, g, location), q).visited == Get(g, q).visited
    {
      LearnKeepsBelief(agent, g, location, q);
    }
  }

  /** On a ready knowledge base the bump or step writes the truth, so the
      base stays ready and beliefs are only pinned. */
  lemma TouchReady(rb: Robot, p: Point)
    requires Ready(rb.agent, rb.kb) && InBounds(rb.kb, p)
    ensures Ready(rb.agent, Touch(rb, p).kb) && Monotone(rb.kb, Touch(rb, p).kb)
  {
    var c := Get(rb.kb, p);
    var s := if IsBlocked(c) then Blocked else Free;
    var k := SetSentiment(rb.kb, p, s);
    assert Agrees(rb.kb, p, s);
    if rb.agent == FourNeighbour {
      SetSentimentTruthful(rb.kb, p, s);
    } else {
      SetSentimentSound(rb.kb, p, s);
    }
    SetSentimentMonotone(rb.kb, p, s);
    if !IsBlocked(c) {
      MarkVisitedKeeps(k, p);
      MonotoneTrans(rb.kb, k, Touch(rb, p).kb);
    }
  }

  /** One iteration of the walk: bump into the head of the path or step
      onto it, then learn at the current location. On a ready knowledge
      base the move keeps it ready and only pins beliefs. */
  method Move(rb: Robot, p: Point) returns (r: Robot)
    requires Workable(rb.agent, rb.kb) && InBounds(rb.kb, p)
    ensures Workable(r.agent, r.kb) && SameShape(rb.kb, r.kb)
    ensures r.agent == rb.agent && r.goal == rb.goal
    ensures IsBlocked(Get(rb.kb, p)) ==> r.current == rb.current && Get(r.kb, p).belief == Blocked
    ensures !IsBlocked(Get(rb.kb, p)) ==> r.current == p && Get(r.kb, p).visited
    ensures forall q :: InBounds(rb.kb, q) && Get(rb.kb, q).visited ==> Get(r.kb, q).visited
    ensures Ready(rb.agent, rb.kb) ==> Ready(r.agent, r.kb) && Monotone(rb.kb, r.kb)
    ensures KeepsBlocked(rb.kb, r.kb)
  {
    var moved := Touch(rb, p);
    LearnAfterTouch(moved, p);
    MoveKeepsReady(rb, p);
    LearnKeepsBlocked(moved.agent, moved.kb, moved.current);
    r := moved.(kb := Learn(moved.agent, moved.kb, moved.current));
  }

  lemma LearnKeepsBlocked(agent: Agent, g: Grid, location: Point)
    requires Workable(agent, g)
    ensures WellFormed(Learn(agent, g, location)) && SameShape(g, Learn(agent, g, location))
    ensures KeepsBlocked(g, Learn(agent, g, location))
  {
    LearnKeepsReady(agent, g, location);
    forall q | InBounds(g, q) && Get(g, q).belief == Blocked
      ensures Get(Learn(agent, g, location), q).belief == Blocked
    {
      LearnKeepsBelief(agent, g, location, q);
    }
  }

  /** The learning half of a move keeps what the first half established. */
  lemma LearnAfterTouch(moved: Robot, p: Point)
    requires Workable(moved.agent, moved.kb) && InBounds(moved.kb, p)
    ensures var k := Learn(moved.agent, moved.kb, moved.current);
      && Workable(moved.agent, k) && SameShape(moved.kb, k)
      && (Get(moved.kb, p).belief == Blocked ==> Get(k, p).belief == Blocked)
      && (Get(moved.kb, p).visited ==> Get(k, p).visited)
      && forall q :: InBounds(moved.kb, q) && Get(moved.kb, q).visited ==> Get(k, q).visited
  {
    LearnKeepsVisited(moved.agent, moved.kb, moved.current);
    LearnKeepsBelief(moved.agent, moved.kb, moved.current, p);
    LearnKeepsReady(moved.agent, moved.kb, moved.current);
  }

  lemma MoveKeepsReady(rb: Robot, p: Point)
    requires Workable(rb.agent, rb.kb) && InBounds(rb.kb, p)
    ensures var moved := Touch(rb, p);
      Ready(rb.agent, rb.kb) ==>
        Ready(rb.agent, Learn(moved.agent, moved.kb, moved.current)) &&
        Monotone(rb.kb, Learn(moved.agent, moved.kb, moved.current))
  {
    var moved := Touch(rb, p);
    if Ready(rb.agent, rb.kb) {
      TouchReady(rb, p);
      LearnKeepsReady(moved.agent, moved.kb, moved.current);
      MonotoneTrans(rb.kb, moved.kb, Learn(moved.agent, moved.kb, moved.current));
    }
  }

  /** What a walk of `steps` moves along `path` leaves behind: the walk
      started at `rb`, every point of the path stays in bounds, the robot
      stands on the last point it stepped onto, every visited cell stays
      visited and every point stepped onto is visited, a walk cut short
      leaves some remaining point believed Blocked, and a bump leaves the
      point it bumped into believed Blocked. */
  ghost predicate Walked(rb: Robot, path: seq<Point>, r: Robot, steps: nat, bumped: bool) {
    && WellFormed(rb.kb) && WellFormed(r.kb) && SameShape(rb.kb, r.kb)
    && r.agent == rb.agent && r.goal == rb.goal
    && (forall i :: 0 <= i < |path| ==> InBounds(rb.kb, path[i]))
    && (forall i :: 0 <= i < |path| ==> InBounds(r.kb, path[i]))
    && steps <= |path|
    && r.current == (if steps == 0 then rb.current else path[steps - 1])
    && (forall q :: InBounds(rb.kb, q) && Get(rb.kb, q).visited ==> Get(r.kb, q).visited)
    && (forall i :: 0 <= i < steps ==> Get(r.kb, path[i]).visited)
    && (steps < |path| ==> exists i :: steps <= i < |path| && Get(r.kb, path[i]).belief == Blocked)
    && (bumped ==> steps < |path| && Get(r.kb, path[steps]).belief == Blocked)
  }

  /** What one move onto the head of `path` did, when it did not bump. */
  ghost predicate SteppedOnto(rb: Robot, path: seq<Point>, next: Robot) {
    && WellFormed(rb.kb) && WellFormed(next.kb) && SameShape(rb.kb, next.kb)
    && next.agent == rb.agent && next.goal == rb.goal
    && 0 < |path| && (forall i :: 0 <= i < |path| ==> InBounds(rb.kb, path[i]))
    && next.current == path[0] && Get(next.kb, path[0]).visited
    && (forall q :: InBounds(rb.kb, q) && Get(rb.kb, q).visited ==> Get(next.kb, q).visited)
  }

  /** `runPath`: walk the path until it is used up or some remaining point
      is believed Blocked. Returns the robot, the steps taken and whether it
      bumped. The loop of the source is written as a recursion on the rest
      of the path: each call makes one move. */
  method RunPath(rb: Robot, path: seq<Point>) returns (r: Robot, steps: nat, bumped: bool)
    requires Workable(rb.agent, rb.kb) && forall i :: 0 <= i < |path| ==> InBounds(rb.kb, path[i])
    ensures Workable(r.agent, r.kb) && Walked(rb, path, r, steps, bumped)
    ensures Ready(rb.agent, rb.kb) ==> Ready(r.agent, r.kb) && Monotone(rb.kb, r.kb)
    ensures KeepsBlocked(rb.kb, r.kb)
    decreases |path|, 1
  {
    if |path| == 0 {
      return rb, 0, false;
    }
    var p := path[0];
    var blocked := IsBlocked(Get(rb.kb, p));
    var next := Move(rb, p);
    if blocked {
      WalkedBump(rb, path, next);
      return next, 0, true;
    }
    assert SteppedOnto(rb, path, next);
    r, steps, bumped := WalkOn(rb, path, next);
  }

  /** After a step onto the head of the path: stop if the rest of the path
      is obstructed, else walk the rest. */
  method WalkOn(rb: Robot, path: seq<Point>, next: Robot) returns (r: Robot, steps: nat, bumped: bool)
    requires SteppedOnto(rb, path, next) && Workable(next.agent, next.kb)
    requires Ready(rb.agent, rb.kb) ==> Ready(next.agent, next.kb) && Monotone(rb.kb, next.kb)
    requires KeepsBlocked(rb.kb, next.kb)
    ensures Workable(r.agent, r.kb) && Walked(rb, path, r, steps, bumped)
    ensures Ready(rb.agent, rb.kb) ==> Ready(r.agent, r.kb) && Monotone(rb.kb, r.kb)
    ensures KeepsBlocked(rb.kb, r.kb)
    decreases |path|, 0
  {
    if Obstructed(next.kb, path[1..]) {
      WalkedOne(rb, path, next);
      return next, 1, false;
    }
    var after, n, b := RunPath(next, path[1..]);
    if Ready(rb.agent, rb.kb) {
      MonotoneTrans(rb.kb, next.kb, after.kb);
    }
    KeepsBlockedTrans(rb.kb, next.kb, after.kb);
    WalkedMore(rb, path, next, after, n, b);
    r, steps, bumped := after, n + 1, b;
  }

  /** A bump into the head of the path ends the walk with no step taken. */
  lemma WalkedBump(rb: Robot, path: seq<Point>, next: Robot)
    requires WellFormed(rb.kb) && WellFormed(next.kb) && SameShape(rb.kb, next.kb)
    requires next.agent == rb.agent && next.goal == rb.goal && next.current == rb.current
    requires 0 < |path| && forall i :: 0 <= i < |path| ==> InBounds(rb.kb, path[i])
    requires InBounds(next.kb, path[0]) && Get(next.kb, path[0]).belief == Blocked
    requires forall q :: InBounds(rb.kb, q) && Get(rb.kb, q).visited ==> Get(next.kb, q).visited
    ensures Walked(rb, path, next, 0, true)
  {
  }

  /** A single step along the path, followed by an obstruction further on. */
  lemma WalkedOne(rb: Robot, path: seq<Point>, next: Robot)
    requires SteppedOnto(rb, path, next)
    requires Obstructed(next.kb, path[1..])
    ensures Walked(rb, path, next, 1, false)
  {
    var j :| 0 <= j < |path[1..]| && Get(next.kb, path[1..][j]).belief == Blocked;
    assert path[1..][j] == path[j + 1];
  }

  /** Shifts what the walk along the rest of the path established back to
      the whole path. */
  lemma WalkedMore(rb: Robot, path: seq<Point>, next: Robot, after: Robot, n: nat, bumped: bool)
    requires SteppedOnto(rb, path, next)
    requires Walked(next, path[1..], after, n, bumped)
    ensures Walked(rb, path, after, n + 1, bumped)
  {
    if bumped {
      assert path[1..][n] == path[n + 1];
    }
    if n > 0 {
      assert path[1..][n - 1] == path[n];
    }
    forall i | 0 <= i < |path|
      ensures InBounds(after.kb, path[i])
    {
    }
    forall i | 0 <= i < n + 1
      ensures Get(after.kb, path[i]).visited
    {
      if i > 0 {
        assert path[1..][i - 1] == path[i];
      }
    }
    if n + 1 < |path| {
      var j :| n <= j < |path| - 1 && Get(after.kb, path[1..][j]).belief == Blocked;
      assert path[1..][j] == path[j + 1];
    }
  }

  // ----- the run -----

  lemma CountUnsureStep(cs: seq<Cell>, k: nat)
    requires k < |cs|
    ensures CountUnsure(cs[..k + 1]) == CountUnsure(cs[..k]) + (if cs[k].belief == Unsure then 1 else 0)
  {
    assert cs[..k + 1][..k] == cs[..k];
  }

  /** Counts the cells whose belief is not Unsure, row by row. */
  method CountDetermined(kb: Grid) returns (n: nat)
    requires WellFormed(kb)
    ensures n == |kb.cells| - UnsureCount(kb)
  {
    n := 0;
    var y := 0;
    while y < kb.ySize
      invariant 0 <= y <= kb.ySize
      invariant 0 <= Mul(y, kb.xSize) <= |kb.cells|
      invariant n == Mul(y, kb.xSize) - CountUnsure(kb.cells[..Mul(y, kb.xSize)])
    {
      var m := CountRowDetermined(kb, y);
      n := n + m;
      y := y + 1;
    }
    assert kb.cells[..|kb.cells|] == kb.cells;
  }

  /** The cells of row `y` whose belief is not Unsure. */
  method CountRowDetermined(kb: Grid, y: int) returns (m: nat)
    requires WellFormed(kb) && 0 <= y < kb.ySize
    ensures 0 <= Mul(y, kb.xSize) && Mul(y + 1, kb.xSize) <= |kb.cells|
    ensures m == kb.xSize - (CountUnsure(kb.cells[..Mul(y + 1, kb.xSize)]) - CountUnsure(kb.cells[..Mul(y, kb.xSize)]))
  {
    MulMonotone(y, y, kb.xSize);
    MulMonotone(y + 1, kb.ySize, kb.xSize);
    var row := Mul(y, kb.xSize);
    m := 0;
    var x := 0;
    while x < kb.xSize
      invariant 0 <= x <= kb.xSize
      invariant m == x - (CountUnsure(kb.cells[..row + x]) - CountUnsure(kb.cells[..row]))
    {
      var c := Get(kb, Point(x, y));
      assert c == kb.cells[row + x];
      CountUnsureStep(kb.cells, row + x);
      if c.belief != Unsure {
        m := m + 1;
      }
      x := x + 1;
    }
  }

  /** `run`: plan from the current location, walk, and repeat until the
      goal is reached; a missing route ends the run as a failure. The loop
      ends on any knowledge base `learn` accepts: a Blocked belief is never
      dropped, and every walk that stops short of the goal has just come to
      believe Blocked a cell of its route, so the cells not believed
      Blocked shrink with every replan. */
  method Run(rb: Robot, heuristic: (Point, Point) -> int) returns (res: Result<(Stats, Robot)>)
    requires Workable(rb.agent, rb.kb) && InBounds(rb.kb, rb.current)
    ensures res.Err? <==> rb.current != rb.goal && !InBounds(rb.kb, rb.goal)
    ensures res.Ok? ==>
      var (stats, r) := res.value;
      && r.agent == rb.agent && r.goal == rb.goal && SameShape(rb.kb, r.kb)
      && Workable(r.agent, r.kb) && KeepsBlocked(rb.kb, r.kb)
      && (Ready(rb.agent, rb.kb) ==> Ready(r.agent, r.kb) && Monotone(rb.kb, r.kb))
      && stats.bumps <= stats.plans
      && (stats.trajectory.Some? <==> r.current == rb.goal)
      && (stats.trajectory.Some? ==> stats.determined == |r.kb.cells| - UnsureCount(r.kb))
      && (stats.trajectory.None? ==> stats.determined == 0 && stats.plans >= 1)
      && (stats.trajectory.None? ==> forall w :: !Walk(r.kb, BelievedBlocked, r.current, rb.goal, w))
      && (rb.current == rb.goal ==> stats.plans == 0 && stats.trajectory == Some(0) && r == rb)
  {
    var robot := rb;
    var trajectory: nat, processed: nat, bumps: nat, plans: nat := 0, 0, 0, 0;
    while robot.current != robot.goal
      invariant Workable(robot.agent, robot.kb) && InBounds(robot.kb, robot.current)
      invariant robot.agent == rb.agent && robot.goal == rb.goal && SameShape(rb.kb, robot.kb)
      invariant KeepsBlocked(rb.kb, robot.kb)
      invariant Ready(rb.agent, rb.kb) ==> Ready(robot.agent, robot.kb) && Monotone(rb.kb, robot.kb)
      invariant bumps <= plans
      invariant plans == 0 ==> robot == rb && trajectory == 0
      invariant rb.current == rb.goal ==> plans == 0
      decreases UnblockedCount(robot.kb) + (if robot.current == robot.goal then 0 else 1)
    {
      plans := plans + 1;
      var found := Search(robot.kb, robot.current, robot.goal, BelievedBlocked, heuristic);
      if found.Err? {
        return Err(found.error);
      }
      if found.value.path.None? {
        return Ok((Stats(None, processed, bumps, plans, 0), robot));
      }
      var path := found.value.path.value;
      var next, steps, bumped := RunPath(robot, path);
      RunPathProgress(robot, path, next, steps);
      KeepsBlockedTrans(rb.kb, robot.kb, next.kb);
      if Ready(rb.agent, rb.kb) {
        MonotoneTrans(rb.kb, robot.kb, next.kb);
      }
      robot := next;
      trajectory := trajectory + steps;
      processed := processed + found.value.processed;
      if bumped {
        bumps := bumps + 1;
      }
    }
    var determined := CountDetermined(robot.kb);
    return Ok((Stats(Some(trajectory), processed, bumps, plans, determined), robot));
  }

  /** A walk along a planned route either reaches the route's end or comes
      to believe Blocked a cell that was not believed Blocked when the route
      was planned. */
  lemma RunPathProgress(rb: Robot, path: seq<Point>, r: Robot, steps: nat)
    requires WellFormed(rb.kb) && InBounds(rb.kb, rb.current) && rb.current != rb.goal
    requires Walk(rb.kb, BelievedBlocked, rb.current, rb.goal, path)
    requires WellFormed(r.kb) && SameShape(rb.kb, r.kb) && KeepsBlocked(rb.kb, r.kb)
    requires steps <= |path| && r.current == (if steps == 0 then rb.current else path[steps - 1])
    requires steps < |path| ==> exists i :: steps <= i < |path| && Get(r.kb, path[i]).belief == Blocked
    ensures InBounds(rb.kb, r.current)
    ensures UnblockedCount(r.kb) + (if r.current == rb.goal then 0 else 1) < UnblockedCount(rb.kb) + 1
  {
    KeepsBlockedCount(rb.kb, r.kb);
    if steps > 0 {
      assert Passable(rb.kb, BelievedBlocked, path[steps - 1]);
    }
    if steps < |path| {
      var i :| steps <= i < |path| && Get(r.kb, path[i]).belief == Blocked;
      assert Passable(rb.kb, BelievedBlocked, path[i]);
    }
  }

  // ----- the direction code of the verbose trace -----

  const NotAdjacent: string := "pt must be adjacent to current location"

  /** `getDirectionCode`: "0 " up (y - 1), "1 " right, "2 " down, "3 "
      left; anything but a single orthogonal step is refused. */
  function DirectionCode(current: Point, pt: Point): (r: Result<string>)
    ensures r.Err? <==> Manhattan(current, pt) != 1
    ensures r.Err? ==> r.error == IllegalArgument(NotAdjacent)
    ensures r.Ok? ==> r.value in ["0 ", "1 ", "2 ", "3 "]
  {
    var dx, dy := pt.x - current.x, pt.y - current.y;
    if Abs(dx) + Abs(dy) != 1 then Err(IllegalArgument(NotAdjacent))
    else
      var vertical := if dy == -1 then "0 " else "2 ";
      if dx == -1 then Ok("3 ") else if dx == 1 then Ok("1 ") else Ok(vertical)
  }

  /** Where a direction code leads from `current`. */
  function Follow(current: Point, code: string): (r: Option<Point>)
    ensures r.Some? ==> r.value in Neighbours4(current)
  {
    if code == "0 " then Some(Point(current.x, current.y - 1))
    else if code == "1 " then Some(Point(current.x + 1, current.y))
    else if code == "2 " then Some(Point(current.x, current.y + 1))
    else if code == "3 " then Some(Point(current.x - 1, current.y))
    else None
  }

  /** The code names the step: following it from the current location
      lands on the target, and every one of the four codes is produced by
      exactly the step it names. */
  lemma DirectionCodeRoundTrip(current: Point, pt: Point, code: string)
    ensures DirectionCode(current, pt).Ok? ==> Follow(current, DirectionCode(current, pt).value) == Some(pt)
    ensures Follow(current, code) == Some(pt) ==> DirectionCode(current, pt) == Ok(code)
  {
  }

  /** The codes are exactly the orthogonal steps. */
  lemma DirectionCodeOrthogonal(current: Point, pt: Point)
    ensures DirectionCode(current, pt).Ok? <==> pt in Neighbours4(current)
  {
    Neighbours4AtManhattanOne(current, pt);
  }
}
