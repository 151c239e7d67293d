/** The rule engine shared by every inference agent
    (project2/agents/InferenceAgent.java).

    `PropagateAll` is the loop of `propagateInferences` over a list of
    locations and `PinAll` the loop of `updateNeighborsAsFree` /
    `updateNeighborsAsBlocked` (one function, parameterised by the value
    being pinned). The source mutates the knowledge base in place and returns
    only a status; here both functions return the status together with the
    knowledge base as it stands at that moment, so a failed propagation
    hands back the partial updates made before the contradiction, exactly as
    the in-place version leaves them behind. */
module Propagation {
  import opened Sentiments
  import opened Points
  import opened Cells
  import opened Grids
  import opened Knowledge

  datatype Outcome = Outcome(ok: bool, kb: Grid)

  /** The contradiction test: more neighbours believed blocked than sensed,
      or more believed free than sensed free. */
  predicate Contradicted(c: Cell) {
    c.adjBlocked > c.sensedBlocked || c.adjEmpty > SensedEmpty(c)
  }

  /** A visited cell the propagator would stop at. */
  ghost predicate HasContradiction(g: Grid) {
    WellFormed(g) &&
    exists q :: InBounds(g, q) && Get(g, q).visited && Contradicted(Get(g, q))
  }

  /** `propagateInferences(kb, location)`: the neighbours of the location are
      examined, not the location itself. */
  function Propagate(g: Grid, location: Point): (r: Outcome)
    requires WellFormed(g)
    ensures WellFormed(r.kb) && SameStatics(g, r.kb) && Monotone(g, r.kb)
    ensures UnsureCount(r.kb) <= UnsureCount(g)
    ensures !r.ok ==> HasContradiction(r.kb)
    decreases UnsureCount(g), 2
  {
    PropagateAll(g, Neighbours8(location))
  }

  /** The body of `propagateInferences` applied to each of `ps` in turn.
      Out-of-bounds and unvisited cells are skipped, a contradicted visited
      cell ends everything with `false`, a cell with no hidden neighbour is
      skipped, B = C pins all hidden neighbours Free and otherwise
      E = N - C pins them Blocked; a failure from a nested call is passed
      straight up without looking at the rest of `ps`. */
  function PropagateAll(g: Grid, ps: seq<Point>): (r: Outcome)
    requires WellFormed(g)
    ensures WellFormed(r.kb) && SameStatics(g, r.kb) && Monotone(g, r.kb)
    ensures UnsureCount(r.kb) <= UnsureCount(g)
    ensures !r.ok ==> HasContradiction(r.kb)
    decreases UnsureCount(g), 1, |ps|
  {
    if |ps| == 0 then Outcome(true, g)
    else
      var adj := ps[0];
      if !InBounds(g, adj) || !Get(g, adj).visited then PropagateAll(g, ps[1..])
      else
        var c := Get(g, adj);
        if Contradicted(c) then Outcome(false, g)
        else if c.adjHidden == 0 then PropagateAll(g, ps[1..])
        else if c.adjBlocked == c.sensedBlocked || c.adjEmpty == SensedEmpty(c) then
          var s := if c.adjBlocked == c.sensedBlocked then Free else Blocked;
          var u := PinAll(g, Neighbours8(adj), s);
          if !u.ok then u else PropagateAll(u.kb, ps[1..])
        else PropagateAll(g, ps[1..])
  }

  /** `updateNeighborsAs{Free,Blocked}`: every in-bounds entry of `ps` that
      is still Unsure when its turn comes is set to `s` and propagated from;
      the first failure is returned at once. */
  function PinAll(g: Grid, ps: seq<Point>, s: Sentiment): (r: Outcome)
    requires WellFormed(g) && s != Unsure
    ensures WellFormed(r.kb) && SameStatics(g, r.kb) && Monotone(g, r.kb)
    ensures UnsureCount(r.kb) <= UnsureCount(g)
    ensures !r.ok ==> HasContradiction(r.kb)
    decreases UnsureCount(g), 0, |ps|
  {
    if |ps| == 0 then Outcome(true, g)
    else
      var p := ps[0];
      if InBounds(g, p) && Get(g, p).belief == Unsure then
        var g1 := PinOne(g, p, s);
        var r := Propagate(g1, p);
        if !r.ok then r else PinAll(r.kb, ps[1..], s)
      else PinAll(g, ps[1..], s)
  }

  /** One `setSentiment` on an Unsure cell: it is the step that makes the
      propagator terminate. */
  function PinOne(g: Grid, p: Point, s: Sentiment): (r: Grid)
    requires WellFormed(g) && InBounds(g, p) && Get(g, p).belief == Unsure && s != Unsure
    ensures r == SetSentiment(g, p, s)
    ensures WellFormed(r) && SameStatics(g, r) && Monotone(g, r)
    ensures Get(r, p).belief == s
    ensures UnsureCount(r) == UnsureCount(g) - 1
  {
    SetSentimentOnlyAt(g, p, s);
    IndexInRange(g, p);
    SetSentiment(g, p, s)
  }

  // ----- what propagation preserves -----

  /** Propagation writes only through `setSentiment`, so it keeps every
      counter in step with the beliefs, contradiction or not. */
  lemma {:induction false} PropagateConsistent(g: Grid, location: Point)
    requires Consistent(g)
    ensures Consistent(Propagate(g, location).kb)
    decreases UnsureCount(g), 2
  {
    PropagateAllConsistent(g, Neighbours8(location));
  }

  lemma {:induction false} PropagateAllConsistent(g: Grid, ps: seq<Point>)
    requires Consistent(g)
    ensures Consistent(PropagateAll(g, ps).kb)
    decreases UnsureCount(g), 1, |ps|
  {
    if |ps| > 0 {
      var adj := ps[0];
      if !InBounds(g, adj) || !Get(g, adj).visited {
        PropagateAllConsistent(g, ps[1..]);
      } else {
        var c := Get(g, adj);
        if Contradicted(c) {
        } else if c.adjHidden == 0 {
          PropagateAllConsistent(g, ps[1..]);
        } else if c.adjBlocked == c.sensedBlocked || c.adjEmpty == SensedEmpty(c) {
          var s := if c.adjBlocked == c.sensedBlocked then Free else Blocked;
          var u := PinAll(g, Neighbours8(adj), s);
          PinAllConsistent(g, Neighbours8(adj), s);
          if u.ok {
            PropagateAllConsistent(u.kb, ps[1..]);
          }
        } else {
          PropagateAllConsistent(g, ps[1..]);
        }
      }
    }
  }

  lemma {:induction false} PinAllConsistent(g: Grid, ps: seq<Point>, s: Sentiment)
    requires Consistent(g) && s != Unsure
    ensures Consistent(PinAll(g, ps, s).kb)
    decreases UnsureCount(g), 0, |ps|
  {
    if |ps| > 0 {
      var p := ps[0];
      if InBounds(g, p) && Get(g, p).belief == Unsure {
        var g1 := PinOne(g, p, s);
        SetSentimentConsistent(g, p, s);
        PropagateConsistent(g1, p);
        var r := Propagate(g1, p);
        if r.ok {
          PinAllConsistent(r.kb, ps[1..], s);
        }
      } else {
        PinAllConsistent(g, ps[1..], s);
      }
    }
  }

  // ----- soundness: on a truthful knowledge base nothing goes wrong -----

  /** Starting from a sound knowledge base (counters in step, sensors exact,
      every pinned belief true), propagation never reports a contradiction
      and every belief it pins is the ground truth. */
  lemma {:induction false} PropagateSound(g: Grid, location: Point)
    requires Sound(g)
    ensures Propagate(g, location).ok && Sound(Propagate(g, location).kb)
    decreases UnsureCount(g), 2
  {
    PropagateAllSound(g, Neighbours8(location));
  }

  lemma {:induction false} PropagateAllSound(g: Grid, ps: seq<Point>)
    requires Sound(g)
    ensures PropagateAll(g, ps).ok && Sound(PropagateAll(g, ps).kb)
    decreases UnsureCount(g), 1, |ps|
  {
    if |ps| > 0 {
      var adj := ps[0];
      if !InBounds(g, adj) || !Get(g, adj).visited {
        PropagateAllSound(g, ps[1..]);
      } else {
        var c := Get(g, adj);
        SoundCounters(g, adj);
        assert !Contradicted(c);
        if c.adjHidden == 0 {
          PropagateAllSound(g, ps[1..]);
        } else if c.adjBlocked == c.sensedBlocked || c.adjEmpty == SensedEmpty(c) {
          var s := if c.adjBlocked == c.sensedBlocked then Free else Blocked;
          var u := PinAll(g, Neighbours8(adj), s);
          PinAllSound(g, Neighbours8(adj), s);
          PropagateAllSound(u.kb, ps[1..]);
        } else {
          PropagateAllSound(g, ps[1..]);
        }
      }
    }
  }

  /** Every cell of `ps` that is still Unsure is truly `s`. */
  ghost predicate UnsureAgree(g: Grid, ps: seq<Point>, s: Sentiment) {
    WellFormed(g) &&
    forall q :: q in ps && InBounds(g, q) && Get(g, q).belief == Unsure ==> Agrees(g, q, s)
  }

  /** Cells still Unsure after a monotone, statics-preserving step were
      Unsure before, with the same ground truth. */
  lemma UnsureAgreePersists(g: Grid, r: Grid, ps: seq<Point>, s: Sentiment)
    requires WellFormed(r) && SameStatics(g, r) && Monotone(g, r)
    requires UnsureAgree(g, ps, s) && |ps| > 0
    ensures UnsureAgree(r, ps, s) && UnsureAgree(r, ps[1..], s)
  {
    forall q | q in ps && InBounds(r, q) && Get(r, q).belief == Unsure
      ensures Agrees(r, q, s)
    {
      MonotoneAt(g, r, q);
    }
    assert forall q :: q in ps[1..] ==> q in ps;
  }

  /** Pinning the first entry of `ps` and propagating from it keeps a sound
      grid sound. */
  lemma PinHeadSound(g: Grid, ps: seq<Point>, s: Sentiment)
    requires Sound(g) && s != Unsure && |ps| > 0
    requires InBounds(g, ps[0]) && Get(g, ps[0]).belief == Unsure && Agrees(g, ps[0], s)
    ensures var r := Propagate(PinOne(g, ps[0], s), ps[0]);
      r.ok && Sound(r.kb)
    decreases UnsureCount(g), 0, |ps|, 0
  {
    SetSentimentSound(g, ps[0], s);
    PropagateSound(PinOne(g, ps[0], s), ps[0]);
  }

  /** ... and leaves the rest of `ps` agreeing with `s`. */
  lemma PinHeadAgree(g: Grid, ps: seq<Point>, s: Sentiment)
    requires WellFormed(g) && s != Unsure && UnsureAgree(g, ps, s) && |ps| > 0
    requires InBounds(g, ps[0]) && Get(g, ps[0]).belief == Unsure
    ensures UnsureAgree(Propagate(PinOne(g, ps[0], s), ps[0]).kb, ps[1..], s)
  {
    var g1 := PinOne(g, ps[0], s);
    var r := Propagate(g1, ps[0]);
    UnsureAgreePersists(g, r.kb, ps, s);
  }

  /** `PinAll` on a sound grid stays sound when every cell it may pin is
      truly `s`. */
  lemma {:induction false} PinAllSound(g: Grid, ps: seq<Point>, s: Sentiment)
    requires Sound(g) && s != Unsure
    requires UnsureAgree(g, ps, s)
    ensures PinAll(g, ps, s).ok && Sound(PinAll(g, ps, s).kb)
    decreases UnsureCount(g), 0, |ps|, 1
  {
    if |ps| > 0 {
      var p := ps[0];
      if InBounds(g, p) && Get(g, p).belief == Unsure {
        PinHeadSound(g, ps, s);
        PinHeadAgree(g, ps, s);
        var r := Propagate(PinOne(g, p, s), p);
        PinAllSound(r.kb, ps[1..], s);
        assert PinAll(g, ps, s) == PinAll(r.kb, ps[1..], s);
      } else {
        UnsureAgreePersists(g, g, ps, s);
        PinAllSound(g, ps[1..], s);
        assert PinAll(g, ps, s) == PinAll(g, ps[1..], s);
      }
    }
  }

  // ----- when propagation has nothing to do -----

  /** A cell the propagator passes over without writing: out of bounds,
      unvisited, or visited, not contradicted and with no rule that fires. */
  predicate Quiet(g: Grid, p: Point)
    requires WellFormed(g)
  {
    var c := if InBounds(g, p) then Get(g, p) else NewCell(0, 0, 0, false);
    !InBounds(g, p) || !c.visited ||
    (!Contradicted(c) && (c.adjHidden == 0 || (c.adjBlocked != c.sensedBlocked && c.adjEmpty != SensedEmpty(c))))
  }

  /** Pinning makes progress as soon as one entry is an Unsure in-bounds cell. */
  lemma {:induction false} PinAllProgress(g: Grid, ps: seq<Point>, s: Sentiment)
    requires WellFormed(g) && s != Unsure
    requires exists q :: q in ps && InBounds(g, q) && Get(g, q).belief == Unsure
    ensures UnsureCount(PinAll(g, ps, s).kb) < UnsureCount(g)
    decreases |ps|
  {
    var p := ps[0];
    if !(InBounds(g, p) && Get(g, p).belief == Unsure) {
      var q :| q in ps && InBounds(g, q) && Get(g, q).belief == Unsure;
      assert q in ps[1..];
      PinAllProgress(g, ps[1..], s);
    }
  }

  ghost predicate AllQuiet(g: Grid, ps: seq<Point>)
    requires WellFormed(g)
  {
    forall q :: q in ps ==> Quiet(g, q)
  }

  lemma AllQuietSplit(g: Grid, ps: seq<Point>)
    requires WellFormed(g) && |ps| > 0
    ensures AllQuiet(g, ps) <==> Quiet(g, ps[0]) && AllQuiet(g, ps[1..])
  {
    assert forall q :: q in ps <==> q == ps[0] || q in ps[1..];
  }

  /** A cell that is not quiet makes `PropagateAll` either fail or pin
      something. */
  lemma NotQuietChanges(g: Grid, ps: seq<Point>)
    requires Consistent(g) && |ps| > 0 && !Quiet(g, ps[0])
    ensures PropagateAll(g, ps) != Outcome(true, g)
  {
    var adj := ps[0];
    var c := Get(g, adj);
    if !Contradicted(c) {
      var s := if c.adjBlocked == c.sensedBlocked then Free else Blocked;
      HiddenMeansUnsureNeighbour(g, adj);
      PinAllProgress(g, Neighbours8(adj), s);
    }
  }

  /** On consistent counters, propagating over `ps` returns success with the
      knowledge base untouched exactly when every cell of `ps` is quiet. */
  lemma {:induction false} PropagateAllNoOp(g: Grid, ps: seq<Point>)
    requires Consistent(g)
    ensures PropagateAll(g, ps) == Outcome(true, g) <==> AllQuiet(g, ps)
    decreases |ps|
  {
    if |ps| > 0 {
      AllQuietSplit(g, ps);
      if Quiet(g, ps[0]) {
        assert PropagateAll(g, ps) == PropagateAll(g, ps[1..]);
        PropagateAllNoOp(g, ps[1..]);
      } else {
        NotQuietChanges(g, ps);
      }
    }
  }

  // ----- idempotence: a successful propagation leaves nothing to do -----

  /** The belief at `x` differs between `g` and `r`. */
  ghost predicate Changed(g: Grid, r: Grid, x: Point)
    requires WellFormed(g) && WellFormed(r) && SameShape(g, r)
  {
    InBounds(g, x) && Get(r, x).belief != Get(g, x).belief
  }

  /** Every cell whose belief changed on the way from `g` to `r` has a
      quiet neighbourhood in `r`. */
  ghost predicate Settled(g: Grid, r: Grid)
    requires WellFormed(g) && WellFormed(r) && SameShape(g, r)
  {
    forall x :: Changed(g, r, x) ==> AllQuiet(r, Neighbours8(x))
  }

  /** Whether a cell is quiet depends only on its statics and on its
      neighbours' beliefs. */
  lemma QuietStable(m: Grid, r: Grid, y: Point)
    requires Consistent(m) && Consistent(r) && SameStatics(m, r)
    requires forall z :: z in Neighbours8(y) ==> !Changed(m, r, z)
    ensures Quiet(r, y) == Quiet(m, y)
  {
    if InBounds(m, y) {
      MonotoneAt(m, r, y);
      CountAgreeOn(m, r, Neighbours8(y), Believed(Blocked));
      CountAgreeOn(m, r, Neighbours8(y), Believed(Free));
      CountAgreeOn(m, r, Neighbours8(y), Believed(Unsure));
    }
  }

  /** A quiet cell stays quiet across a settled step: either none of its
      neighbours changed, or one did and its whole neighbourhood is quiet. */
  lemma QuietPersists(m: Grid, r: Grid, y: Point)
    requires Consistent(m) && Consistent(r) && SameStatics(m, r) && Settled(m, r)
    requires Quiet(m, y)
    ensures Quiet(r, y)
  {
    if z :| z in Neighbours8(y) && Changed(m, r, z) {
      Neighbours8Symmetric(y, z);
      assert y in Neighbours8(z);
    } else {
      QuietStable(m, r, y);
    }
  }

  /** Settled steps compose. */
  lemma SettledTrans(g: Grid, m: Grid, r: Grid)
    requires Consistent(g) && Consistent(m) && Consistent(r)
    requires SameStatics(g, m) && SameStatics(m, r)
    requires Settled(g, m) && Settled(m, r)
    ensures SameShape(g, r) && Settled(g, r)
  {
    forall x | Changed(g, r, x)
      ensures AllQuiet(r, Neighbours8(x))
    {
      if !Changed(m, r, x) {
        assert Changed(g, m, x);
        forall y | y in Neighbours8(x)
          ensures Quiet(r, y)
        {
          QuietPersists(m, r, y);
        }
      }
    }
  }

  /** A single pin at `p` followed by a step that settles everything else,
      including `p`'s neighbourhood, is settled as a whole. */
  lemma SettledAfterPin(g: Grid, g1: Grid, r: Grid, p: Point)
    requires WellFormed(g) && WellFormed(g1) && WellFormed(r) && SameShape(g, g1) && SameShape(g1, r)
    requires OnlyBeliefAt(g, g1, p) && Settled(g1, r) && AllQuiet(r, Neighbours8(p))
    ensures Settled(g, r)
  {
    forall x | Changed(g, r, x)
      ensures AllQuiet(r, Neighbours8(x))
    {
      if x != p {
        assert Changed(g1, r, x);
      }
    }
  }

  /** A successful `PinAll` is settled and pins every in-bounds entry. */
  lemma {:induction false} PinAllSettled(g: Grid, ps: seq<Point>, s: Sentiment)
    requires Consistent(g) && s != Unsure && PinAll(g, ps, s).ok
    ensures Settled(g, PinAll(g, ps, s).kb)
    ensures forall q :: q in ps && InBounds(g, q) ==> Get(PinAll(g, ps, s).kb, q).belief != Unsure
    decreases UnsureCount(g), 0, |ps|
  {
    var r := PinAll(g, ps, s).kb;
    if |ps| > 0 {
      var p := ps[0];
      if InBounds(g, p) && Get(g, p).belief == Unsure {
        var g1 := PinOne(g, p, s);
        SetSentimentOnlyAt(g, p, s);
        SetSentimentConsistent(g, p, s);
        var u := Propagate(g1, p);
        PropagateSettled(g1, p);
        PropagateConsistent(g1, p);
        SettledAfterPin(g, g1, u.kb, p);
        PinAllSettled(u.kb, ps[1..], s);
        PinAllConsistent(u.kb, ps[1..], s);
        SettledTrans(g, u.kb, r);
        MonotoneBeliefAt(g1, r, p);
      } else {
        PinAllSettled(g, ps[1..], s);
        if InBounds(g, p) {
          MonotoneBeliefAt(g, r, p);
        }
      }
      assert forall q :: q in ps ==> q == p || q in ps[1..];
    }
  }

  /** A successful propagation over `ps` is settled and leaves every entry
      of `ps` quiet. */
  lemma {:induction false} PropagateAllSettled(g: Grid, ps: seq<Point>)
    requires Consistent(g) && PropagateAll(g, ps).ok
    ensures Settled(g, PropagateAll(g, ps).kb) && AllQuiet(PropagateAll(g, ps).kb, ps)
    decreases UnsureCount(g), 1, |ps|
  {
    var r := PropagateAll(g, ps).kb;
    if |ps| > 0 {
      var adj := ps[0];
      AllQuietSplit(r, ps);
      if !InBounds(g, adj) || !Get(g, adj).visited {
        PropagateAllSettled(g, ps[1..]);
        if InBounds(g, adj) {
          MonotoneAt(g, r, adj);
        }
      } else {
        var c := Get(g, adj);
        assert !Contradicted(c);
        if c.adjHidden == 0 || !(c.adjBlocked == c.sensedBlocked || c.adjEmpty == SensedEmpty(c)) {
          PropagateAllSettled(g, ps[1..]);
          PropagateAllConsistent(g, ps[1..]);
          QuietPersists(g, r, adj);
        } else {
          var s := if c.adjBlocked == c.sensedBlocked then Free else Blocked;
          var u := PinAll(g, Neighbours8(adj), s);
          PinAllSettled(g, Neighbours8(adj), s);
          PinAllConsistent(g, Neighbours8(adj), s);
          HiddenMeansUnsureNeighbour(g, adj);
          var q :| q in Neighbours8(adj) && InBounds(g, q) && Get(g, q).belief == Unsure;
          assert Changed(g, u.kb, q);
          Neighbours8Symmetric(adj, q);
          assert adj in Neighbours8(q);
          PropagateAllSettled(u.kb, ps[1..]);
          PropagateAllConsistent(u.kb, ps[1..]);
          QuietPersists(u.kb, r, adj);
          SettledTrans(g, u.kb, r);
        }
      }
    }
  }

  /** A successful propagation from `location` is settled and leaves every
      neighbour of `location` quiet. */
  lemma {:induction false} PropagateSettled(g: Grid, location: Point)
    requires Consistent(g) && Propagate(g, location).ok
    ensures Settled(g, Propagate(g, location).kb)
    ensures AllQuiet(Propagate(g, location).kb, Neighbours8(location))
    decreases UnsureCount(g), 2
  {
    PropagateAllSettled(g, Neighbours8(location));
  }

  /** Propagation is idempotent: after a successful propagation from
      `location`, propagating from it again succeeds and changes nothing. */
  lemma PropagateIdempotent(g: Grid, location: Point)
    requires Consistent(g) && Propagate(g, location).ok
    ensures var r := Propagate(g, location).kb;
      Propagate(r, location) == Outcome(true, r)
  {
    var r := Propagate(g, location).kb;
    PropagateSettled(g, location);
    PropagateConsistent(g, location);
    PropagateAllNoOp(r, Neighbours8(location));
  }
}
