/** The agents that learn without testing hypotheses
    (project2/agents/BlindfoldedAgent.java, FourNeighbourAgent.java and
    BasicInferenceAgent.java). */
module SimpleAgents {
  import opened Sentiments
  import opened Points
  import opened Cells
  import opened Grids
  import opened Knowledge
  import opened Propagation
  import opened Generation

  // ----- blindfolded -----

  /** Learns nothing: the knowledge base comes back as it went in, whatever
      the location. */
  function BlindfoldedLearn(g: Grid, location: Point): (r: Grid)
    ensures r == g
  {
    g
  }

  // ----- four-neighbour: direct observation -----

  /** Looks at the in-bounds 4-neighbours in order and writes their belief
      straight into the cell: Blocked when `isBlocked()` (ground truth or a
      Blocked belief), Free otherwise. No counter of any cell is touched. */
  function FourNeighbourLearn(g: Grid, location: Point): (r: Grid)
    requires WellFormed(g)
    ensures WellFormed(r) && SameStatics(g, r)
    ensures forall q :: InBounds(g, q) && q !in Neighbours4(location) ==> Get(r, q) == Get(g, q)
    ensures forall q :: InBounds(g, q) && q in Neighbours4(location) ==>
      Get(r, q) == Get(g, q).(belief := if IsBlocked(Get(g, q)) then Blocked else Free)
  {
    Neighbours4Distinct(location);
    ObserveAll(g, Neighbours4(location))
  }

  function ObserveAll(g: Grid, ps: seq<Point>): (r: Grid)
    requires WellFormed(g) && Distinct(ps)
    ensures WellFormed(r) && SameStatics(g, r)
    ensures forall q :: InBounds(g, q) && q !in ps ==> Get(r, q) == Get(g, q)
    ensures forall q :: InBounds(g, q) && q in ps ==>
      Get(r, q) == Get(g, q).(belief := if IsBlocked(Get(g, q)) then Blocked else Free)
    decreases |ps|
  {
    if |ps| == 0 then g
    else
      var p := ps[0];
      var g1 := if InBounds(g, p) then Put(g, p, SetBelief(Get(g, p), if IsBlocked(Get(g, p)) then Blocked else Free)) else g;
      assert SameStatics(g, g1) by {
        if InBounds(g, p) {
          forall j | 0 <= j < |g.cells| ensures Statics(g1.cells[j]) == Statics(g.cells[j]) {
            IndexInRange(g, p);
          }
        }
      }
      assert forall q :: q in ps[1..] ==> q in ps && q != p;
      assert forall q :: q in ps ==> q == p || q in ps[1..];
      ObserveAll(g1, ps[1..])
  }

  /** On a truthful knowledge base the observation writes the ground truth,
      so the grid stays truthful (a Blocked belief can only be on a blocked
      cell, so `isBlocked()` is the ground truth). */
  lemma FourNeighbourTruthful(g: Grid, location: Point)
    requires Truthful(g)
    ensures Truthful(FourNeighbourLearn(g, location))
    ensures Monotone(g, FourNeighbourLearn(g, location))
    ensures forall q :: InBounds(g, q) && q in Neighbours4(location) ==>
      Get(FourNeighbourLearn(g, location), q).belief == (if Get(g, q).blocked then Blocked else Free)
  {
    var r := FourNeighbourLearn(g, location);
    forall j | 0 <= j < |g.cells| && g.cells[j].belief != Unsure
      ensures r.cells[j].belief == g.cells[j].belief
    {
      var y, x := RowOf(g.xSize, g.ySize, j);
      MonotoneAt(g, r, Point(x, y));
    }
  }

  /** Splits a row-major index into its row and column. */
  lemma {:induction false} RowOf(width: int, rows: nat, j: int) returns (y: int, x: int)
    requires 0 <= width && 0 <= j < Mul(rows, width)
    ensures 0 <= y < rows && 0 <= x < width && Mul(y, width) + x == j
  {
    if j < Mul(rows - 1, width) {
      y, x := RowOf(width, rows - 1, j);
    } else {
      MulMonotone(0, rows - 1, width);
      y, x := rows - 1, j - Mul(rows - 1, width);
    }
  }

  /** Counts over a grid whose `sel` cells are a subset of another's shrink,
      strictly when a counted entry `p` of the list drops out. */
  lemma {:induction false} CountShrinks(g: Grid, r: Grid, ps: seq<Point>, p: Point, sel: Selector)
    requires WellFormed(g) && WellFormed(r) && SameShape(g, r) && InBounds(g, p)
    requires forall q :: InBounds(g, q) && Holds(sel, Get(r, q)) ==> Holds(sel, Get(g, q))
    requires Holds(sel, Get(g, p)) && !Holds(sel, Get(r, p))
    ensures Count(r, ps, sel) <= Count(g, ps, sel)
    ensures p in ps ==> Count(r, ps, sel) < Count(g, ps, sel)
  {
    if |ps| > 0 {
      var init := ps[..|ps| - 1];
      assert p in ps ==> p in init || p == ps[|ps| - 1];
      CountShrinks(g, r, init, p, sel);
    }
  }

  /** The observation leaves the counters behind: on a consistent grid,
      pinning any Unsure in-bounds 4-neighbour makes the grid inconsistent,
      since the location still counts that neighbour as hidden. */
  lemma FourNeighbourBreaksConsistency(g: Grid, location: Point, q: Point)
    requires Consistent(g) && InBounds(g, location)
    requires q in Neighbours4(location) && InBounds(g, q) && Get(g, q).belief == Unsure
    ensures !Consistent(FourNeighbourLearn(g, location))
  {
    var r := FourNeighbourLearn(g, location);
    Neighbours4Distinct(location);
    CardinalsAreEvenEntries(location);
    assert Get(r, location) == Get(g, location);
    assert forall p :: InBounds(g, p) && Get(r, p).belief == Unsure ==> Get(g, p).belief == Unsure;
    CountShrinks(g, r, Neighbours8(location), q, Believed(Unsure));
  }

  // ----- basic: seeded propagation -----

  /** Propagates from each in-bounds entry of `ps` in turn, ignoring the
      results (the source discards the booleans). */
  function PropagateEach(g: Grid, ps: seq<Point>): (r: Grid)
    requires WellFormed(g)
    ensures WellFormed(r) && SameStatics(g, r) && Monotone(g, r)
    ensures UnsureCount(r) <= UnsureCount(g)
    decreases |ps|
  {
    if |ps| == 0 then g
    else
      var g1 := if InBounds(g, ps[0]) then Propagate(g, ps[0]).kb else g;
      PropagateEach(g1, ps[1..])
  }

  /** `BasicInferenceAgent.learn`: propagate at the location, then at each
      in-bounds 8-neighbour. */
  function BasicLearn(g: Grid, location: Point): (r: Grid)
    requires WellFormed(g)
    ensures WellFormed(r) && SameStatics(g, r) && Monotone(g, r)
    ensures UnsureCount(r) <= UnsureCount(g)
  {
    PropagateEach(Propagate(g, location).kb, Neighbours8(location))
  }

  lemma {:induction false} PropagateEachPreserves(g: Grid, ps: seq<Point>)
    requires WellFormed(g)
    ensures Consistent(g) ==> Consistent(PropagateEach(g, ps))
    ensures Sound(g) ==> Sound(PropagateEach(g, ps))
    decreases |ps|
  {
    if |ps| > 0 {
      var g1 := if InBounds(g, ps[0]) then Propagate(g, ps[0]).kb else g;
      if InBounds(g, ps[0]) {
        if Consistent(g) {
          PropagateConsistent(g, ps[0]);
        }
        if Sound(g) {
          PropagateSound(g, ps[0]);
        }
      }
      PropagateEachPreserves(g1, ps[1..]);
    }
  }

  /** The basic agent keeps counters consistent, and on a sound knowledge
      base every belief it adds is the ground truth. */
  lemma BasicLearnPreserves(g: Grid, location: Point)
    requires WellFormed(g)
    ensures Consistent(g) ==> Consistent(BasicLearn(g, location))
    ensures Sound(g) ==> Sound(BasicLearn(g, location))
  {
    if Consistent(g) {
      PropagateConsistent(g, location);
    }
    if Sound(g) {
      PropagateSound(g, location);
    }
    PropagateEachPreserves(Propagate(g, location).kb, Neighbours8(location));
  }

  // ----- basic: the naive global fixed point -----

  /** Sets every in-bounds entry of `ps` that is still Unsure to `s`,
      through `setSentiment`, without propagating. */
  function FillUnsure(g: Grid, ps: seq<Point>, s: Sentiment): (r: Grid)
    requires WellFormed(g) && s != Unsure
    ensures WellFormed(r) && SameStatics(g, r) && Monotone(g, r)
    ensures UnsureCount(r) <= UnsureCount(g)
    ensures (exists q :: q in ps && InBounds(g, q) && Get(g, q).belief == Unsure) ==> UnsureCount(r) < UnsureCount(g)
    decreases |ps|
  {
    if |ps| == 0 then g
    else
      var p := ps[0];
      assert forall q :: q in ps ==> q == p || q in ps[1..];
      if InBounds(g, p) && Get(g, p).belief == Unsure then
        var g1 := PinOne(g, p, s);
        FillUnsure(g1, ps[1..], s)
      else
        FillUnsure(g, ps[1..], s)
  }

  /** A cell the naive scan skips: out of bounds, unvisited, no hidden
      neighbour, or no rule firing. */
  predicate NaiveQuiet(g: Grid, p: Point)
    requires WellFormed(g)
  {
    !InBounds(g, p) || !Get(g, p).visited || Get(g, p).adjHidden == 0 ||
    (Get(g, p).adjBlocked != Get(g, p).sensedBlocked && Get(g, p).adjEmpty != SensedEmpty(Get(g, p)))
  }

  datatype Pass = Pass(changed: bool, kb: Grid)

  /** One sweep of the naive loop over `ps`: a visited cell with hidden
      neighbours and B = C fills them Free, else with E = N - C fills them
      Blocked; either way the sweep is marked as changing something. No
      contradiction is checked. */
  function NaivePass(g: Grid, ps: seq<Point>): (r: Pass)
    requires WellFormed(g)
    ensures WellFormed(r.kb) && SameStatics(g, r.kb) && Monotone(g, r.kb)
    ensures UnsureCount(r.kb) <= UnsureCount(g)
    ensures !r.changed ==> r.kb == g && forall p :: p in ps ==> NaiveQuiet(g, p)
    decreases |ps|
  {
    if |ps| == 0 then Pass(false, g)
    else
      var p := ps[0];
      assert forall q :: q in ps ==> q == p || q in ps[1..];
      if NaiveQuiet(g, p) then NaivePass(g, ps[1..])
      else
        var c := Get(g, p);
        var s := if c.adjBlocked == c.sensedBlocked then Free else Blocked;
        var rest := NaivePass(FillUnsure(g, Neighbours8(p), s), ps[1..]);
        Pass(true, rest.kb)
  }

  /** With consistent counters, a sweep that reports a change did pin a
      cell, and the sweep keeps the counters consistent; on a sound grid it
      keeps the grid sound. */
  lemma {:induction false} NaivePassProgress(g: Grid, ps: seq<Point>)
    requires Consistent(g)
    ensures NaivePass(g, ps).changed ==> UnsureCount(NaivePass(g, ps).kb) < UnsureCount(g)
    ensures Consistent(NaivePass(g, ps).kb)
    ensures Sound(g) ==> Sound(NaivePass(g, ps).kb)
    decreases |ps|
  {
    if |ps| > 0 {
      var p := ps[0];
      if NaiveQuiet(g, p) {
        NaivePassProgress(g, ps[1..]);
      } else {
        var c := Get(g, p);
        var s := if c.adjBlocked == c.sensedBlocked then Free else Blocked;
        HiddenMeansUnsureNeighbour(g, p);
        var g1 := FillUnsure(g, Neighbours8(p), s);
        FillUnsurePreserves(g, Neighbours8(p), s);
        if Sound(g) {
          SoundCounters(g, p);
          FillUnsureSound(g, Neighbours8(p), s);
        }
        NaivePassProgress(g1, ps[1..]);
      }
    }
  }

  lemma {:induction false} FillUnsurePreserves(g: Grid, ps: seq<Point>, s: Sentiment)
    requires Consistent(g) && s != Unsure
    ensures Consistent(FillUnsure(g, ps, s))
    decreases |ps|
  {
    if |ps| > 0 {
      var p := ps[0];
      if InBounds(g, p) && Get(g, p).belief == Unsure {
        SetSentimentConsistent(g, p, s);
        FillUnsurePreserves(PinOne(g, p, s), ps[1..], s);
      } else {
        FillUnsurePreserves(g, ps[1..], s);
      }
    }
  }

  lemma {:induction false} FillUnsureSound(g: Grid, ps: seq<Point>, s: Sentiment)
    requires Sound(g) && s != Unsure && UnsureAgree(g, ps, s)
    ensures Sound(FillUnsure(g, ps, s))
    decreases |ps|
  {
    if |ps| > 0 {
      var p := ps[0];
      if InBounds(g, p) && Get(g, p).belief == Unsure {
        SetSentimentSound(g, p, s);
        var g1 := PinOne(g, p, s);
        UnsureAgreePersists(g, g1, ps, s);
        FillUnsureSound(g1, ps[1..], s);
      } else {
        UnsureAgreePersists(g, g, ps, s);
        FillUnsureSound(g, ps[1..], s);
      }
    }
  }

  /** No visited cell with hidden neighbours has B = C or E = N - C. */
  ghost predicate NaiveSettled(g: Grid) {
    WellFormed(g) && forall p :: InBounds(g, p) ==> NaiveQuiet(g, p)
  }

  /** `BasicInferenceAgent.naiveLearn`: repeat row-major sweeps until one
      changes nothing. It terminates because, with consistent counters,
      every sweep that changes something pins at least one Unsure cell. On
      return no visited cell with hidden neighbours satisfies a rule. */
  method NaiveLearn(g: Grid, location: Point) returns (r: Grid)
    requires Consistent(g)
    ensures Consistent(r) && SameStatics(g, r) && Monotone(g, r)
    ensures NaiveSettled(r)
    ensures Sound(g) ==> Sound(r)
  {
    r := g;
    var done := false;
    var all := AllPoints(g);
    AllPointsSpec(g);
    while !done
      invariant Consistent(r) && SameStatics(g, r) && Monotone(g, r)
      invariant forall p :: InBounds(r, p) ==> p in all
      invariant Sound(g) ==> Sound(r)
      invariant done ==> NaiveSettled(r)
      decreases UnsureCount(r) + (if done then 0 else 1)
    {
      NaivePassProgress(r, all);
      var pass := NaivePass(r, all);
      done := !pass.changed;
      r := pass.kb;
    }
  }
}
