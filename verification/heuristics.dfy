/** Distance estimates between grid points (project2/utility/Heuristics.java,
    Simulator/Utility/Heuristics.py). The source returns doubles, but every
    value is an integer for integer points, so the model works over `int`. */
module Heuristics {
  import opened Points

  function Abs(d: int): (r: int)
    ensures r >= 0 && (r == d || r == -d)
  {
    if d < 0 then -d else d
  }

  /** |dx| + |dy|. */
  function Manhattan(a: Point, b: Point): (r: int)
    ensures r >= 0
    ensures r == 0 <==> a == b
  {
    Abs(a.x - b.x) + Abs(a.y - b.y)
  }

  /** max(|dx|, |dy|). */
  function Chebyshev(a: Point, b: Point): (r: int)
    ensures r >= 0
    ensures r == 0 <==> a == b
  {
    var dx, dy := Abs(a.x - b.x), Abs(a.y - b.y);
    if dx >= dy then dx else dy
  }

  lemma Symmetric(a: Point, b: Point)
    ensures Manhattan(a, b) == Manhattan(b, a)
    ensures Chebyshev(a, b) == Chebyshev(b, a)
  {
  }

  /** Chebyshev never exceeds Manhattan, which is at most twice Chebyshev. */
  lemma ChebyshevBoundsManhattan(a: Point, b: Point)
    ensures Chebyshev(a, b) <= Manhattan(a, b) <= 2 * Chebyshev(a, b)
  {
  }

  lemma ManhattanTriangle(a: Point, b: Point, c: Point)
    ensures Manhattan(a, c) <= Manhattan(a, b) + Manhattan(b, c)
  {
  }

  /** The 4-neighbours are exactly the points at Manhattan distance 1. */
  lemma {:induction false} Neighbours4AtManhattanOne(p: Point, q: Point)
    ensures q in Neighbours4(p) <==> Manhattan(p, q) == 1
  {
    Neighbours4Spec(p, q);
  }

  /** The 8-neighbours are exactly the points at Chebyshev distance 1. */
  lemma {:induction false} Neighbours8AtChebyshevOne(p: Point, q: Point)
    ensures q in Neighbours8(p) <==> Chebyshev(p, q) == 1
  {
    Neighbours8Spec(p, q);
  }

  /** The value the Python module prints when run on its own. */
  lemma ManhattanSelfTest()
    ensures Manhattan(Point(0, 0), Point(1, 1)) == 2
  {
  }
}
