/** Board geometry shared by both engines: coordinates, grid shapes and the
    straight runs of cells that ships occupy. */
module Grid {

  /** A board position as the engines write it: (row y, column x). */
  type Coord = (int, int)

  /** The four directions a ship may run in. The live bot uses only H and V. */
  datatype Orientation = H | V | DPlus | DMinus

  /** Python's `range(n)` is empty for a negative n: the number of items it yields. */
  function Clip(n: int): nat
  {
    if n < 0 then 0 else n
  }

  /** The in-range value a raw random draw stands for: its remainder modulo the number of values `randint` can return. */
  function Reduce(x: nat, n: int): (r: nat)
    requires n >= 1
    ensures r < n
  {
    if x < n then x else Reduce(x - n, n)
  }

  predicate InBounds(p: Coord, width: int, height: int)
  {
    0 <= p.0 < height && 0 <= p.1 < width
  }

  /** `board` has the shape `[[_ for _ in range(width)] for _ in range(height)]` builds. */
  predicate IsGrid<T>(board: seq<seq<T>>, width: int, height: int)
  {
    |board| == Clip(height) && forall r :: 0 <= r < |board| ==> |board[r]| == Clip(width)
  }

  /** A `height x width` grid with every cell `v`. */
  function Fill<T>(width: int, height: int, v: T): (board: seq<seq<T>>)
    ensures IsGrid(board, width, height)
    ensures forall r, c :: 0 <= r < height && 0 <= c < width ==> board[r][c] == v
  {
    seq(Clip(height), _ => seq(Clip(width), _ => v))
  }

  /** Cell number i of a ship anchored at (y, x) running in direction o. */
  function CellAt(o: Orientation, y: int, x: int, i: int): Coord
  {
    match o
    case H => (y, x + i)
    case V => (y + i, x)
    case DPlus => (y + i, x + i)
    case DMinus => (y + i, x - i)
  }

  /** The comprehension `[CellAt(o, y, x, i) for i in range(n)]`. */
  function Run(o: Orientation, y: int, x: int, n: int): seq<Coord>
  {
    seq(Clip(n), i => CellAt(o, y, x, i))
  }

  /** `cells` is a straight line in direction o starting at its first cell. */
  predicate IsRunOf(cells: seq<Coord>, o: Orientation)
  {
    forall i :: 0 <= i < |cells| ==> cells[i] == CellAt(o, cells[0].0, cells[0].1, i)
  }

  predicate AllInBounds(cells: seq<Coord>, width: int, height: int)
  {
    forall i :: 0 <= i < |cells| ==> InBounds(cells[i], width, height)
  }

  /** No cell belongs to two ships. */
  predicate Disjoint(ships: seq<seq<Coord>>)
  {
    forall j, k, i :: 0 <= j < |ships| && 0 <= k < |ships| && j != k && 0 <= i < |ships[j]| ==>
      ships[j][i] !in ships[k]
  }

  /** Every run is a straight line of exactly max(n, 0) cells, all different. */
  lemma RunShape(o: Orientation, y: int, x: int, n: int)
    ensures |Run(o, y, x, n)| == Clip(n)
    ensures IsRunOf(Run(o, y, x, n), o)
    ensures forall i, j :: 0 <= i < j < Clip(n) ==> Run(o, y, x, n)[i] != Run(o, y, x, n)[j]
  {
    var r := Run(o, y, x, n);
    if |r| > 0 {
      assert r[0] == (y, x) by { assert r[0] == CellAt(o, y, x, 0); }
    }
  }

  /** A run lies inside the board exactly when its two end cells do. */
  lemma {:induction false} RunInBoundsByEnds(o: Orientation, y: int, x: int, n: int, width: int, height: int)
    requires n >= 1
    ensures AllInBounds(Run(o, y, x, n), width, height)
        <==> InBounds(CellAt(o, y, x, 0), width, height) && InBounds(CellAt(o, y, x, n - 1), width, height)
  {
    var r := Run(o, y, x, n);
    assert r[0] == CellAt(o, y, x, 0);
    assert r[n - 1] == CellAt(o, y, x, n - 1);
    if InBounds(CellAt(o, y, x, 0), width, height) && InBounds(CellAt(o, y, x, n - 1), width, height) {
      forall i | 0 <= i < n ensures InBounds(r[i], width, height) {
        assert r[i] == CellAt(o, y, x, i);
      }
    }
  }

  /** `board` with the cells of `cells` set to `v` one after another, as the
      engines' `board[cy][cx] = v` loops do; a cell off the board changes
      nothing (the engines only write cells they have checked). */
  function Painted<T>(board: seq<seq<T>>, cells: seq<Coord>, v: T, width: int, height: int): (p: seq<seq<T>>)
    requires IsGrid(board, width, height)
    ensures IsGrid(p, width, height)
    decreases |cells|
  {
    if cells == [] then board
    else
      var last := cells[|cells| - 1];
      var b := Painted(board, cells[..|cells| - 1], v, width, height);
      if InBounds(last, width, height) then b[last.0 := b[last.0][last.1 := v]] else b
  }

  /** A painted cell of the board is `v` exactly where `cells` lists it; every other cell keeps its value. */
  lemma {:induction false} PaintedCells<T>(board: seq<seq<T>>, cells: seq<Coord>, v: T, width: int, height: int)
    requires IsGrid(board, width, height)
    ensures forall r, c :: 0 <= r < height && 0 <= c < width ==>
      Painted(board, cells, v, width, height)[r][c] == if (r, c) in cells then v else board[r][c]
    decreases |cells|
  {
    if cells != [] {
      var init := cells[..|cells| - 1];
      PaintedCells(board, init, v, width, height);
      assert cells == init + [cells[|cells| - 1]];
    }
  }

  /** Writes `v` into every cell of `cells`, one cell at a time, as the engines'
      `board[cy][cx] = v` loops do; every other cell keeps its value. */
  method Stamp<T>(board: seq<seq<T>>, cells: seq<Coord>, v: T, width: int, height: int)
    returns (stamped: seq<seq<T>>)
    requires IsGrid(board, width, height) && AllInBounds(cells, width, height)
    ensures IsGrid(stamped, width, height)
    ensures forall r, c :: 0 <= r < height && 0 <= c < width ==>
      stamped[r][c] == if (r, c) in cells then v else board[r][c]
    ensures stamped == Painted(board, cells, v, width, height)
  {
    stamped := board;
    for i := 0 to |cells|
      invariant stamped == Painted(board, cells[..i], v, width, height)
    {
      assert cells[..i + 1][..i] == cells[..i];
      var (cy, cx) := cells[i];
      stamped := stamped[cy := stamped[cy][cx := v]];
    }
    assert cells[..|cells|] == cells;
    PaintedCells(board, cells, v, width, height);
  }
}
