/** The text form of a Python grid (Simulator/Entity/Grid.py `__str__`).

    The string opens with "Entity.Grid{", then for each x (outer loop) a
    newline, one symbol followed by ',' for each y (inner loop), and another
    newline; it closes with "\n}". The start (0,0) shows 'S', the goal
    (xSize-1, ySize-1) shows 'G', any other cell 'X' when its ground truth
    is blocked and ' ' otherwise. */
module Render {
  import opened Points
  import opened Cells
  import opened Grids

  function Symbol(g: Grid, x: int, y: int): (c: char)
    requires WellFormed(g) && InBounds(g, Point(x, y))
    ensures c == 'S' <==> x == 0 && y == 0
    ensures c == 'G' <==> (x, y) != (0, 0) && x == g.xSize - 1 && y == g.ySize - 1
    ensures c == 'X' <==> (x, y) != (0, 0) && (x, y) != (g.xSize - 1, g.ySize - 1) && Get(g, Point(x, y)).blocked
    ensures c == ' ' <==> (x, y) != (0, 0) && (x, y) != (g.xSize - 1, g.ySize - 1) && !Get(g, Point(x, y)).blocked
  {
    if x == 0 && y == 0 then 'S'
    else if x == g.xSize - 1 && y == g.ySize - 1 then 'G'
    else if Get(g, Point(x, y)).blocked then 'X'
    else ' '
  }

  /** The symbols of column `x` for y = 0 .. n-1, each followed by ','. */
  function Symbols(g: Grid, x: int, n: nat): (s: string)
    requires WellFormed(g) && 0 <= x < g.xSize && n <= g.ySize
    ensures |s| == 2 * n
  {
    if n == 0 then "" else Symbols(g, x, n - 1) + [Symbol(g, x, n - 1), ',']
  }

  /** Columns 0 .. n-1, each wrapped in newlines. */
  function Columns(g: Grid, n: nat): (s: string)
    requires WellFormed(g) && n <= g.xSize
    ensures |s| == Mul(n, 2 * g.ySize + 2)
  {
    if n == 0 then "" else Columns(g, n - 1) + "\n" + Symbols(g, n - 1, g.ySize) + "\n"
  }

  function GridString(g: Grid): (s: string)
    requires WellFormed(g)
    ensures 14 <= |s| == 12 + Mul(g.xSize, 2 * g.ySize + 2) + 2
    ensures s[..12] == "Entity.Grid{"
    ensures s[|s| - 2..] == "\n}"
  {
    MulMonotone(0, g.xSize, 2 * g.ySize + 2);
    "Entity.Grid{" + Columns(g, g.xSize) + "\n}"
  }

  lemma {:induction false} SymbolsAt(g: Grid, x: int, n: nat, y: int)
    requires WellFormed(g) && 0 <= x < g.xSize && n <= g.ySize && 0 <= y < n
    ensures Symbols(g, x, n)[2 * y] == Symbol(g, x, y)
    ensures Symbols(g, x, n)[2 * y + 1] == ','
  {
    if y < n - 1 {
      SymbolsAt(g, x, n - 1, y);
    }
  }

  lemma {:induction false} ColumnsAt(g: Grid, n: nat, x: int, y: int)
    requires WellFormed(g) && n <= g.xSize && 0 <= x < n && 0 <= y < g.ySize
    ensures var at := Mul(x, 2 * g.ySize + 2);
      && 0 <= at && at + 2 * g.ySize + 2 <= |Columns(g, n)|
      && Columns(g, n)[at] == '\n'
      && Columns(g, n)[at + 1 + 2 * y] == Symbol(g, x, y)
      && Columns(g, n)[at + 2 + 2 * y] == ','
      && Columns(g, n)[at + 1 + 2 * g.ySize] == '\n'
  {
    var prev := Columns(g, n - 1);
    var col := "\n" + Symbols(g, n - 1, g.ySize) + "\n";
    assert Columns(g, n) == prev + col;
    MulMonotone(x, n - 1, 2 * g.ySize + 2);
    if x < n - 1 {
      ColumnsAt(g, n - 1, x, y);
    } else {
      SymbolsAt(g, x, g.ySize, y);
    }
  }

  /** Column `x` of the string starts with a newline at
      12 + x * (2 * ySize + 2); the symbol for (x, y) sits 1 + 2 * y after it,
      followed by ','; a second newline closes the column. */
  lemma GridStringAt(g: Grid, x: int, y: int)
    requires WellFormed(g) && InBounds(g, Point(x, y))
    ensures var s, at := GridString(g), 12 + Mul(x, 2 * g.ySize + 2);
      && 12 <= at && at + 2 * g.ySize + 2 <= |s| - 2
      && s[at] == '\n'
      && s[at + 1 + 2 * y] == Symbol(g, x, y)
      && s[at + 2 + 2 * y] == ','
      && s[at + 1 + 2 * g.ySize] == '\n'
  {
    var c := Columns(g, g.xSize);
    var s := GridString(g);
    ColumnsAt(g, g.xSize, x, y);
    assert s == "Entity.Grid{" + c + "\n}";
    var at := Mul(x, 2 * g.ySize + 2);
    assert s[12 + at] == c[at];
    assert s[12 + at + 1 + 2 * y] == c[at + 1 + 2 * y];
    assert s[12 + at + 2 + 2 * y] == c[at + 2 + 2 * y];
    assert s[12 + at + 1 + 2 * g.ySize] == c[at + 1 + 2 * g.ySize];
  }
}
