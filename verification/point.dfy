/** Integer grid coordinates and their neighbourhoods
    (project3/utility/Point.java and its mirror Simulator/Utility/Point.py). */
module Points {
  import opened Wrappers

  /** `x` is the column (the source's `f1`), `y` the row (`f2`). */
  datatype Point = Point(x: int, y: int)

  ghost predicate Distinct<T>(s: seq<T>) {
    forall i, j :: 0 <= i < j < |s| ==> s[i] != s[j]
  }

  /** Right, left, up, down: the planner's move order. */
  function Neighbours4(p: Point): (ns: seq<Point>)
    ensures |ns| == 4
  {
    [Point(p.x + 1, p.y), Point(p.x - 1, p.y), Point(p.x, p.y - 1), Point(p.x, p.y + 1)]
  }

  /** E, SE, S, SW, W, NW, N, NE (with y growing "south"). */
  function Neighbours8(p: Point): (ns: seq<Point>)
    ensures |ns| == 8
  {
    [Point(p.x + 1, p.y), Point(p.x + 1, p.y + 1), Point(p.x, p.y + 1), Point(p.x - 1, p.y + 1),
     Point(p.x - 1, p.y), Point(p.x - 1, p.y - 1), Point(p.x, p.y - 1), Point(p.x + 1, p.y - 1)]
  }

  /** Independent description of the 8-neighbourhood: every other point at
      most one step away in each axis. */
  predicate Touching(p: Point, q: Point) {
    q != p && -1 <= q.x - p.x <= 1 && -1 <= q.y - p.y <= 1
  }

  /** Independent description of the 4-neighbourhood: one unit step along
      exactly one axis. */
  predicate Orthogonal(p: Point, q: Point) {
    (q.y == p.y && (q.x == p.x + 1 || q.x == p.x - 1)) ||
    (q.x == p.x && (q.y == p.y + 1 || q.y == p.y - 1))
  }

  lemma Neighbours8Spec(p: Point, q: Point)
    ensures q in Neighbours8(p) <==> Touching(p, q)
  {
    if Touching(p, q) {
      var dx, dy := q.x - p.x, q.y - p.y;
      if dx == 1 && dy == 0 { assert q == Neighbours8(p)[0]; }
      else if dx == 1 && dy == 1 { assert q == Neighbours8(p)[1]; }
      else if dx == 0 && dy == 1 { assert q == Neighbours8(p)[2]; }
      else if dx == -1 && dy == 1 { assert q == Neighbours8(p)[3]; }
      else if dx == -1 && dy == 0 { assert q == Neighbours8(p)[4]; }
      else if dx == -1 && dy == -1 { assert q == Neighbours8(p)[5]; }
      else if dx == 0 && dy == -1 { assert q == Neighbours8(p)[6]; }
      else { assert q == Neighbours8(p)[7]; }
    }
  }

  lemma Neighbours4Spec(p: Point, q: Point)
    ensures q in Neighbours4(p) <==> Orthogonal(p, q)
  {
  }

  /** The eight entries are pairwise distinct and none is the point itself. */
  lemma Neighbours8Distinct(p: Point)
    ensures Distinct(Neighbours8(p))
    ensures p !in Neighbours8(p)
  {
  }

  lemma Neighbours4Distinct(p: Point)
    ensures Distinct(Neighbours4(p))
    ensures p !in Neighbours4(p)
  {
  }

  /** The cardinal neighbours are the 8-neighbour entries at even positions,
      in the same relative order as the planner enumerates them after
      reordering (right, left, up, down = entries 0, 4, 6, 2). */
  lemma CardinalsAreEvenEntries(p: Point)
    ensures var n8 := Neighbours8(p);
      Neighbours4(p) == [n8[0], n8[4], n8[6], n8[2]]
    ensures forall q :: q in Neighbours4(p) ==> q in Neighbours8(p)
  {
  }

  /** Being a neighbour is symmetric. */
  lemma {:induction false} Neighbours8Symmetric(p: Point, q: Point)
    ensures q in Neighbours8(p) <==> p in Neighbours8(q)
  {
    Neighbours8Spec(p, q);
    Neighbours8Spec(q, p);
  }

  lemma Neighbours4Symmetric(p: Point, q: Point)
    ensures q in Neighbours4(p) <==> p in Neighbours4(q)
  {
    Neighbours4Spec(p, q);
    Neighbours4Spec(q, p);
  }

  // ----- Python mirror: equality, hashing and printing -----

  /** The right operand of Python's `==`: a point or any other object. */
  datatype PyObject = PointObject(point: Point) | OtherObject

  /** `__eq__`: coordinate-wise, and false for a non-point operand. */
  function PyEquals(a: Point, o: PyObject): (r: bool)
    ensures r ==> o.PointObject? && o.point == a
    ensures o.OtherObject? ==> !r
  {
    match o
    case OtherObject => false
    case PointObject(b) => a.x == b.x && a.y == b.y
  }

  /** `__hash__` hashes the pair (f1, f2); the model keeps the pair itself
      as the key that is hashed. */
  function HashKey(p: Point): (int, int)
  {
    (p.x, p.y)
  }

  /** Equal points have equal hash keys, and only equal points do. */
  lemma HashAgreesWithEquality(a: Point, b: Point)
    ensures PyEquals(a, PointObject(b)) <==> HashKey(a) == HashKey(b)
  {
  }

  function DigitChar(d: nat): char
    requires d < 10
  {
    "0123456789"[d]
  }

  predicate IsDigit(c: char) {
    48 <= c as int <= 57
  }

  function DigitValue(c: char): nat
    requires IsDigit(c)
  {
    c as int - 48
  }

  /** Decimal digits of a natural number, most significant first, no leading zeros. */
  function NatToString(n: nat): (s: string)
    ensures |s| > 0
    ensures forall i :: 0 <= i < |s| ==> IsDigit(s[i])
    ensures |s| > 1 ==> s[0] != '0'
    ensures s[0] == '0' <==> n == 0
    decreases n
  {
    if n < 10 then [DigitChar(n)] else NatToString(n / 10) + [DigitChar(n % 10)]
  }

  /** Python's `str` of an integer: a minus sign exactly for negative
      numbers, then decimal digits with no leading zero, so 0 is "0" and
      there is no "-0". */
  function IntToString(n: int): (s: string)
    ensures |s| > 0
    ensures ',' !in s
    ensures s[0] == '-' <==> n < 0
    ensures forall i :: 0 < i < |s| ==> IsDigit(s[i])
    ensures IsDigit(s[0]) && |s| > 1 ==> s[0] != '0'
    ensures n < 0 ==> |s| > 1 && s[1] != '0'
  {
    if n < 0 then "-" + NatToString(-n) else NatToString(n)
  }

  /** `__str__`: the coordinates between angle brackets. */
  function ToString(p: Point): (s: string)
    ensures |s| >= 5 && s[0] == '<' && s[|s| - 1] == '>'
  {
    "<" + IntToString(p.x) + "," + IntToString(p.y) + ">"
  }

  function DigitsValue(s: string): nat
    requires forall i :: 0 <= i < |s| ==> IsDigit(s[i])
  {
    if |s| == 0 then 0 else DigitsValue(s[..|s| - 1]) * 10 + DigitValue(s[|s| - 1])
  }

  function ParseInt(s: string): Option<int>
  {
    if |s| > 0 && s[0] == '-' then
      var t := s[1..];
      if |t| > 0 && forall i :: 0 <= i < |t| ==> IsDigit(t[i]) then Some(0 - DigitsValue(t) as int) else None
    else if |s| > 0 && forall i :: 0 <= i < |s| ==> IsDigit(s[i]) then Some(DigitsValue(s))
    else None
  }

  function IndexOf(s: string, c: char): (r: Option<nat>)
    ensures r.Some? ==> r.value < |s| && s[r.value] == c && c !in s[..r.value]
    ensures r.None? ==> c !in s
  {
    if |s| == 0 then None
    else if s[0] == c then Some(0)
    else match IndexOf(s[1..], c)
      case None => None
      case Some(k) => assert s[..k + 1] == [s[0]] + s[1..][..k]; Some(k + 1)
  }

  /** Reads back what `ToString` prints. */
  function ParsePoint(s: string): Option<Point>
  {
    if |s| < 2 || s[0] != '<' || s[|s| - 1] != '>' then None
    else
      var body := s[1..|s| - 1];
      match IndexOf(body, ',')
      case None => None
      case Some(k) =>
        match (ParseInt(body[..k]), ParseInt(body[k + 1..]))
        case (Some(x), Some(y)) => Some(Point(x, y))
        case _ => None
  }

  lemma {:induction false} NatToStringRoundTrip(n: nat)
    ensures DigitsValue(NatToString(n)) == n
    decreases n
  {
    var s := NatToString(n);
    if n >= 10 {
      NatToStringRoundTrip(n / 10);
      assert s[..|s| - 1] == NatToString(n / 10);
    }
  }

  lemma IntToStringRoundTrip(n: int)
    ensures ParseInt(IntToString(n)) == Some(n)
  {
    var s := IntToString(n);
    if n < 0 {
      assert s[1..] == NatToString(-n);
      NatToStringRoundTrip(-n);
    } else {
      NatToStringRoundTrip(n);
    }
  }

  lemma IndexOfPrefix(a: string, b: string, c: char)
    requires c !in a
    ensures IndexOf(a + [c] + b, c) == Some(|a|)
  {
    var s := a + [c] + b;
    assert s[|a|] == c;
    assert forall k :: 0 <= k < |a| ==> s[k] == a[k];
  }

  /** The printed form of a point determines the point. */
  lemma {:induction false} ToStringRoundTrip(p: Point)
    ensures ParsePoint(ToString(p)) == Some(p)
  {
    var xs, ys := IntToString(p.x), IntToString(p.y);
    var s := ToString(p);
    var body := s[1..|s| - 1];
    assert body == xs + [','] + ys;
    IndexOfPrefix(xs, ys, ',');
    assert body[..|xs|] == xs;
    assert body[|xs| + 1..] == ys;
    IntToStringRoundTrip(p.x);
    IntToStringRoundTrip(p.y);
  }
}
