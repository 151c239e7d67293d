/** What it means for a knowledge base to be coherent, stated by counting
    neighbours rather than by trusting the stored counters.

    Three invariants are kept apart because different parts of the system
    keep different ones: generation establishes all of them, every write
    through `SetSentiment` keeps the counters `Consistent`, only writes that
    agree with the ground truth keep the grid `Truthful`, and the
    four-neighbour agent breaks consistency (see the agents module). */
module Knowledge {
  import opened Sentiments
  import opened Points
  import opened Cells
  import opened Grids

  /** What a neighbour count counts. */
  datatype Selector = Believed(s: Sentiment) | GroundBlocked | GroundFree | Present

  predicate Holds(sel: Selector, c: Cell) {
    match sel
    case Believed(s) => c.belief == s
    case GroundBlocked => c.blocked
    case GroundFree => !c.blocked
    case Present => true
  }

  /** How many in-bounds entries of `ps` satisfy `sel`. */
  function Count(g: Grid, ps: seq<Point>, sel: Selector): (n: nat)
    requires WellFormed(g)
    ensures n <= |ps|
  {
    if |ps| == 0 then 0
    else
      var p := ps[|ps| - 1];
      Count(g, ps[..|ps| - 1], sel) + (if InBounds(g, p) && Holds(sel, Get(g, p)) then 1 else 0)
  }

  /** B, E and H of every cell count its Blocked, Free and Unsure neighbours. */
  ghost predicate Consistent(g: Grid) {
    WellFormed(g) &&
    forall p :: InBounds(g, p) ==>
      && Get(g, p).adjBlocked == Count(g, Neighbours8(p), Believed(Blocked))
      && Get(g, p).adjEmpty == Count(g, Neighbours8(p), Believed(Free))
      && Get(g, p).adjHidden == Count(g, Neighbours8(p), Believed(Unsure))
  }

  /** N counts the in-bounds neighbours and C the truly blocked ones. */
  ghost predicate SensorsAccurate(g: Grid) {
    WellFormed(g) &&
    forall p :: InBounds(g, p) ==>
      && Get(g, p).numAdj == Count(g, Neighbours8(p), Present)
      && Get(g, p).sensedBlocked == Count(g, Neighbours8(p), GroundBlocked)
  }

  /** Every pinned belief agrees with the ground truth. */
  ghost predicate Truthful(g: Grid) {
    WellFormed(g) &&
    forall p :: InBounds(g, p) ==>
      && (Get(g, p).belief == Blocked ==> Get(g, p).blocked)
      && (Get(g, p).belief == Free ==> !Get(g, p).blocked)
  }

  /** Every cell records its own coordinates. */
  ghost predicate Located(g: Grid) {
    WellFormed(g) &&
    forall p :: InBounds(g, p) ==> Location(Get(g, p)) == p
  }

  /** The state a robot's knowledge base is in when nothing has gone wrong. */
  ghost predicate Sound(g: Grid) {
    Consistent(g) && SensorsAccurate(g) && Truthful(g)
  }

  /** A write at `s` about the cell at `p` agrees with the ground truth. */
  predicate Agrees(g: Grid, p: Point, s: Sentiment)
    requires WellFormed(g) && InBounds(g, p)
  {
    (s == Blocked ==> Get(g, p).blocked) && (s == Free ==> !Get(g, p).blocked)
  }

  // ----- counting lemmas -----

  /** Blocked, Free and Unsure beliefs partition the in-bounds neighbours,
      and so do blocked and free ground truths. */
  lemma {:induction false} CountPartition(g: Grid, ps: seq<Point>)
    requires WellFormed(g)
    ensures Count(g, ps, Believed(Blocked)) + Count(g, ps, Believed(Free)) + Count(g, ps, Believed(Unsure))
         == Count(g, ps, Present)
    ensures Count(g, ps, GroundBlocked) + Count(g, ps, GroundFree) == Count(g, ps, Present)
  {
    if |ps| > 0 {
      CountPartition(g, ps[..|ps| - 1]);
    }
  }

  /** If every counted entry for `a` is also one for `b`, there are no more
      `a`s than `b`s, and equal counts mean every `b` is an `a`. */
  lemma {:induction false} CountDominated(g: Grid, ps: seq<Point>, a: Selector, b: Selector)
    requires WellFormed(g)
    requires forall q :: q in ps && InBounds(g, q) && Holds(a, Get(g, q)) ==> Holds(b, Get(g, q))
    ensures Count(g, ps, a) <= Count(g, ps, b)
    ensures Count(g, ps, a) == Count(g, ps, b) ==>
      forall q :: q in ps && InBounds(g, q) && Holds(b, Get(g, q)) ==> Holds(a, Get(g, q))
  {
    if |ps| > 0 {
      var init := ps[..|ps| - 1];
      assert forall q :: q in init ==> q in ps;
      CountDominated(g, init, a, b);
      assert forall q :: q in ps ==> q in init || q == ps[|ps| - 1];
    }
  }

  /** Counts over grids that agree on every cell `sel` looks at. */
  lemma {:induction false} CountAgree(g: Grid, r: Grid, ps: seq<Point>, sel: Selector)
    requires WellFormed(g) && WellFormed(r) && SameShape(g, r)
    requires forall q :: InBounds(g, q) ==> Holds(sel, Get(r, q)) == Holds(sel, Get(g, q))
    ensures Count(r, ps, sel) == Count(g, ps, sel)
  {
    if |ps| > 0 {
      CountAgree(g, r, ps[..|ps| - 1], sel);
    }
  }

  /** Counts over grids that agree on the entries of `ps` themselves. */
  lemma {:induction false} CountAgreeOn(g: Grid, r: Grid, ps: seq<Point>, sel: Selector)
    requires WellFormed(g) && WellFormed(r) && SameShape(g, r)
    requires forall q :: q in ps && InBounds(g, q) ==> Holds(sel, Get(r, q)) == Holds(sel, Get(g, q))
    ensures Count(r, ps, sel) == Count(g, ps, sel)
  {
    if |ps| > 0 {
      assert forall q :: q in ps[..|ps| - 1] ==> q in ps;
      CountAgreeOn(g, r, ps[..|ps| - 1], sel);
    }
  }

  /** Counts over grids that differ, as far as `sel` sees, only at `p`. */
  lemma {:induction false} CountOneChange(g: Grid, r: Grid, ps: seq<Point>, p: Point, sel: Selector)
    requires WellFormed(g) && WellFormed(r) && SameShape(g, r) && InBounds(g, p)
    requires Distinct(ps)
    requires forall q :: InBounds(g, q) && q != p ==> Holds(sel, Get(r, q)) == Holds(sel, Get(g, q))
    ensures Count(r, ps, sel) == Count(g, ps, sel) +
      (if p in ps then (if Holds(sel, Get(r, p)) then 1 else 0) - (if Holds(sel, Get(g, p)) then 1 else 0) else 0)
  {
    if |ps| > 0 {
      var init := ps[..|ps| - 1];
      assert ps == init + [ps[|ps| - 1]];
      assert p in ps <==> p in init || p == ps[|ps| - 1];
      CountOneChange(g, r, init, p, sel);
    }
  }

  /** Grids with the same statics see the same neighbourhoods: N and C keep
      their meaning and cells keep their coordinates. */
  lemma SameStaticsKeepsSensors(g: Grid, r: Grid)
    requires WellFormed(g) && WellFormed(r) && SameStatics(g, r)
    ensures SensorsAccurate(g) ==> SensorsAccurate(r)
    ensures Located(g) ==> Located(r)
    ensures forall q :: InBounds(g, q) ==> Statics(Get(r, q)) == Statics(Get(g, q))
  {
    forall q | InBounds(g, q)
      ensures Statics(Get(r, q)) == Statics(Get(g, q))
    {
      IndexInRange(g, q);
    }
    forall ps: seq<Point>
      ensures Count(r, ps, Present) == Count(g, ps, Present)
      ensures Count(r, ps, GroundBlocked) == Count(g, ps, GroundBlocked)
    {
      CountAgree(g, r, ps, Present);
      CountAgree(g, r, ps, GroundBlocked);
    }
  }

  /** Beliefs of `r` differ from those of `g` at most at `p`. */
  ghost predicate OnlyBeliefAt(g: Grid, r: Grid, p: Point)
    requires WellFormed(g) && WellFormed(r) && SameShape(g, r)
  {
    forall q :: InBounds(g, q) && q != p ==> Get(r, q).belief == Get(g, q).belief
  }

  lemma SetSentimentOnlyAt(g: Grid, p: Point, s: Sentiment)
    requires WellFormed(g) && InBounds(g, p)
    ensures var r := SetSentiment(g, p, s);
      SameShape(g, r) && OnlyBeliefAt(g, r, p)
  {
    var r := SetSentiment(g, p, s);
    forall q | InBounds(g, q) && q != p
      ensures Get(r, q).belief == Get(g, q).belief
    {
      BeliefElsewhere(g, r, p, q);
    }
  }

  /** A grid whose beliefs differ from `g`'s at most at the index of `p`
      agrees with `g` at every other point. */
  lemma BeliefElsewhere(g: Grid, r: Grid, p: Point, q: Point)
    requires WellFormed(g) && WellFormed(r) && SameShape(g, r) && InBounds(g, p) && InBounds(g, q) && q != p
    requires forall j :: 0 <= j < |g.cells| && j != Index(g, p) ==> r.cells[j].belief == g.cells[j].belief
    ensures Get(r, q).belief == Get(g, q).belief
  {
    IndexInRange(g, q);
    IndexInjective(g, p, q);
  }

  /** One cell's counters stay in step when a single neighbour's belief moves
      from `prev` to `s` and the counters move by the matching deltas. */
  lemma {:induction false} CountersFollowBelief(g: Grid, r: Grid, p: Point, q: Point, prev: Sentiment, s: Sentiment)
    requires WellFormed(g) && WellFormed(r) && SameShape(g, r) && InBounds(g, p) && InBounds(g, q)
    requires OnlyBeliefAt(g, r, p) && Get(g, p).belief == prev && Get(r, p).belief == s
    requires Get(g, q).adjBlocked == Count(g, Neighbours8(q), Believed(Blocked))
    requires Get(g, q).adjEmpty == Count(g, Neighbours8(q), Believed(Free))
    requires Get(g, q).adjHidden == Count(g, Neighbours8(q), Believed(Unsure))
    requires var near := q in Neighbours8(p);
      && Get(r, q).adjBlocked == Get(g, q).adjBlocked + (if near then Delta(prev, s, Blocked) else 0)
      && Get(r, q).adjEmpty == Get(g, q).adjEmpty + (if near then Delta(prev, s, Free) else 0)
      && Get(r, q).adjHidden == Get(g, q).adjHidden - (if near then Delta(prev, s, Blocked) + Delta(prev, s, Free) else 0)
    ensures Get(r, q).adjBlocked == Count(r, Neighbours8(q), Believed(Blocked))
    ensures Get(r, q).adjEmpty == Count(r, Neighbours8(q), Believed(Free))
    ensures Get(r, q).adjHidden == Count(r, Neighbours8(q), Believed(Unsure))
  {
    Neighbours8Distinct(q);
    Neighbours8Symmetric(p, q);
    CountOneChange(g, r, Neighbours8(q), p, Believed(Blocked));
    CountOneChange(g, r, Neighbours8(q), p, Believed(Free));
    CountOneChange(g, r, Neighbours8(q), p, Believed(Unsure));
  }

  /** Writing a belief through `SetSentiment` keeps every counter in step. */
  lemma SetSentimentConsistent(g: Grid, p: Point, s: Sentiment)
    requires Consistent(g) && InBounds(g, p)
    ensures Consistent(SetSentiment(g, p, s))
  {
    var r := SetSentiment(g, p, s);
    var prev := Get(g, p).belief;
    SetSentimentOnlyAt(g, p, s);
    forall q | InBounds(r, q)
      ensures Get(r, q).adjBlocked == Count(r, Neighbours8(q), Believed(Blocked))
      ensures Get(r, q).adjEmpty == Count(r, Neighbours8(q), Believed(Free))
      ensures Get(r, q).adjHidden == Count(r, Neighbours8(q), Believed(Unsure))
    {
      CountersFollowBelief(g, r, p, q, prev, s);
    }
  }

  /** A `SetSentiment` that agrees with the ground truth keeps the grid sound
      (and located). */
  lemma SetSentimentSound(g: Grid, p: Point, s: Sentiment)
    requires Sound(g) && InBounds(g, p) && Agrees(g, p, s)
    ensures Sound(SetSentiment(g, p, s))
    ensures Located(g) ==> Located(SetSentiment(g, p, s))
  {
    var r := SetSentiment(g, p, s);
    SetSentimentConsistent(g, p, s);
    SameStaticsKeepsSensors(g, r);
    SetSentimentTruthful(g, p, s);
  }

  /** A write that agrees with the ground truth keeps a truthful grid truthful. */
  lemma SetSentimentTruthful(g: Grid, p: Point, s: Sentiment)
    requires Truthful(g) && InBounds(g, p) && Agrees(g, p, s)
    ensures Truthful(SetSentiment(g, p, s))
  {
    var r := SetSentiment(g, p, s);
    SetSentimentOnlyAt(g, p, s);
    forall q | InBounds(r, q)
      ensures Get(r, q).belief == Blocked ==> Get(r, q).blocked
      ensures Get(r, q).belief == Free ==> !Get(r, q).blocked
    {
      MonotoneAt(g, r, q);
    }
  }

  /** Under soundness a visited cell never shows the contradiction the
      propagator looks for: B <= C and E <= N - C. When B = C every hidden
      neighbour is truly free; when E = N - C every hidden neighbour is truly
      blocked. */
  lemma SoundCounters(g: Grid, p: Point)
    requires Sound(g) && InBounds(g, p)
    ensures Get(g, p).adjBlocked <= Get(g, p).sensedBlocked
    ensures Get(g, p).adjEmpty <= SensedEmpty(Get(g, p))
    ensures Get(g, p).adjBlocked == Get(g, p).sensedBlocked ==>
      forall q :: q in Neighbours8(p) && InBounds(g, q) && Get(g, q).belief == Unsure ==> !Get(g, q).blocked
    ensures Get(g, p).adjEmpty == SensedEmpty(Get(g, p)) ==>
      forall q :: q in Neighbours8(p) && InBounds(g, q) && Get(g, q).belief == Unsure ==> Get(g, q).blocked
  {
    var ns := Neighbours8(p);
    CountDominated(g, ns, Believed(Blocked), GroundBlocked);
    CountDominated(g, ns, Believed(Free), GroundFree);
    CountPartition(g, ns);
  }

  /** Sound grids keep B + E + H = N on every cell. */
  lemma ConsistentBalanced(g: Grid, p: Point)
    requires Consistent(g) && SensorsAccurate(g) && InBounds(g, p)
    ensures Balanced(Get(g, p))
  {
    CountPartition(g, Neighbours8(p));
  }

  /** With consistent counters, a cell with hidden neighbours has an Unsure
      in-bounds neighbour. */
  lemma HiddenMeansUnsureNeighbour(g: Grid, p: Point)
    requires Consistent(g) && InBounds(g, p) && Get(g, p).adjHidden > 0
    ensures exists q :: q in Neighbours8(p) && InBounds(g, q) && Get(g, q).belief == Unsure
  {
    CountPositive(g, Neighbours8(p), Believed(Unsure));
  }

  lemma {:induction false} CountPositive(g: Grid, ps: seq<Point>, sel: Selector)
    requires WellFormed(g) && Count(g, ps, sel) > 0
    ensures exists q :: q in ps && InBounds(g, q) && Holds(sel, Get(g, q))
  {
    var last := ps[|ps| - 1];
    if !(InBounds(g, last) && Holds(sel, Get(g, last))) {
      CountPositive(g, ps[..|ps| - 1], sel);
      var q :| q in ps[..|ps| - 1] && InBounds(g, q) && Holds(sel, Get(g, q));
      assert q in ps;
    }
  }
}
