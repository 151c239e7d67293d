/** Everything the knowledge base records about one location
    (project2/entity/GridCell.java, mirrored by Simulator/GridCell.py).

    Counter names follow the source's comments: N = `numAdj` in-bounds
    neighbours, C = `sensedBlocked` neighbours actually blocked (revealed by a
    visit), B = `adjBlocked` / E = `adjEmpty` neighbours believed Blocked /
    Free, H = `adjHidden` neighbours still Unsure. The copy-on-write owner is
    not part of the value (copies are values), and neither is the
    floating-point `probBlocked`. */
module Cells {
  import opened Sentiments
  import opened Points

  datatype Cell = Cell(
    x: int,
    y: int,
    belief: Sentiment,
    blocked: bool,        // ground truth, `isBlocked` field
    visited: bool,
    numAdj: int,          // N
    sensedBlocked: int,   // C
    adjBlocked: int,      // B
    adjEmpty: int,        // E
    adjHidden: int)       // H

  /** B + E + H = N: every neighbour is counted exactly once. */
  predicate Balanced(c: Cell) {
    c.adjBlocked + c.adjEmpty + c.adjHidden == c.numAdj
  }

  /** A fresh cell: nothing believed, nothing visited, every neighbour hidden. */
  function NewCell(x: int, y: int, numAdj: int, blocked: bool): (c: Cell)
    ensures c.x == x && c.y == y && c.numAdj == numAdj && c.blocked == blocked
    ensures c.belief == Unsure && !c.visited
    ensures c.sensedBlocked == 0 && c.adjBlocked == 0 && c.adjEmpty == 0
    ensures c.adjHidden == numAdj
    ensures Balanced(c)
  {
    Cell(x, y, Unsure, blocked, false, numAdj, 0, 0, 0, numAdj)
  }

  function Location(c: Cell): Point {
    Point(c.x, c.y)
  }

  /** N - C: how many neighbours are actually free. */
  function SensedEmpty(c: Cell): (k: int)
    ensures k + c.sensedBlocked == c.numAdj
  {
    c.numAdj - c.sensedBlocked
  }

  /** Only C changes. */
  function AddSensedBlocked(c: Cell, k: int): (r: Cell)
    ensures r.sensedBlocked == c.sensedBlocked + k
    ensures r.(sensedBlocked := c.sensedBlocked) == c
    ensures Balanced(r) <==> Balanced(c)
  {
    c.(sensedBlocked := c.sensedBlocked + k)
  }

  /** k more neighbours believed Blocked, k fewer hidden. */
  function AddAdjBlocked(c: Cell, k: int): (r: Cell)
    ensures r.adjBlocked == c.adjBlocked + k && r.adjHidden == c.adjHidden - k
    ensures r.(adjBlocked := c.adjBlocked, adjHidden := c.adjHidden) == c
    ensures Balanced(r) <==> Balanced(c)
  {
    c.(adjBlocked := c.adjBlocked + k, adjHidden := c.adjHidden - k)
  }

  /** k more neighbours believed Free, k fewer hidden. */
  function AddAdjEmpty(c: Cell, k: int): (r: Cell)
    ensures r.adjEmpty == c.adjEmpty + k && r.adjHidden == c.adjHidden - k
    ensures r.(adjEmpty := c.adjEmpty, adjHidden := c.adjHidden) == c
    ensures Balanced(r) <==> Balanced(c)
  {
    c.(adjEmpty := c.adjEmpty + k, adjHidden := c.adjHidden - k)
  }

  /** Writes the belief and nothing else: no counter anywhere follows. */
  function SetBelief(c: Cell, s: Sentiment): (r: Cell)
    ensures r.belief == s
    ensures r.(belief := c.belief) == c
  {
    c.(belief := s)
  }

  function SetVisited(c: Cell, v: bool): (r: Cell)
    ensures r.visited == v
    ensures r.(visited := c.visited) == c
  {
    c.(visited := v)
  }

  /** Ground truth or a Blocked belief: a cell believed Blocked reads as
      blocked whatever the world says. */
  predicate IsBlocked(c: Cell)
    ensures c.belief == Blocked ==> IsBlocked(c)
    ensures c.belief != Blocked ==> (IsBlocked(c) <==> c.blocked)
  {
    c.blocked || c.belief == Blocked
  }

  // ----- Python mirror -----

  /** The Python constructor stores x, y, numAdj, isBlocked and the owner;
      every counter keeps its class default 0, including numAdjHidden. */
  function PyNewCell(x: int, y: int, numAdj: int, blocked: bool): (c: Cell)
    ensures Location(c) == Point(x, y) && c.numAdj == numAdj && c.blocked == blocked
    ensures c.belief == Unsure && !c.visited
    ensures Balanced(c) <==> numAdj == 0
  {
    Cell(x, y, Unsure, blocked, false, numAdj, 0, 0, 0, 0)
  }

  /** The Python cell differs from the Java one only in its hidden count, so
      it is balanced exactly when it has no neighbours. */
  lemma PyNewCellMatchesJavaButHidden(x: int, y: int, numAdj: int, blocked: bool)
    ensures PyNewCell(x, y, numAdj, blocked) == NewCell(x, y, numAdj, blocked).(adjHidden := 0)
    ensures Balanced(PyNewCell(x, y, numAdj, blocked)) <==> numAdj == 0
  {
  }

  /** A corner cell (three neighbours) built by the Python constructor
      already violates B + E + H = N. */
  lemma PyNewCellCounterexample()
    ensures !Balanced(PyNewCell(0, 0, 3, false))
    ensures Balanced(NewCell(0, 0, 3, false))
  {
  }
}
