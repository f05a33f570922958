/** Geometry of the LS20 puzzle: a square grid of cells, rectangular walls,
    and the test that decides where the two-cell-tall player may stand. */
module Board {

  /** Cells per side of the square grid. */
  const GridSize: int := 64

  /** A grid cell, column `x` and row `y`; rows grow downwards. */
  datatype Cell = Cell(x: int, y: int)

  /** A wall rectangle `[x, y, w, h]` in cell units: it covers columns
      `x .. x+w-1` of rows `y .. y+h-1`. */
  datatype Wall = Wall(x: int, y: int, w: int, h: int)

  /** A level: where the player spawns, its walls, and its goal cells. */
  datatype Level = Level(spawn: Cell, walls: seq<Wall>, goals: seq<Cell>)

  predicate OnGrid(c: Cell) {
    0 <= c.x < GridSize && 0 <= c.y < GridSize
  }

  predicate Covers(w: Wall, c: Cell) {
    w.x <= c.x < w.x + w.w && w.y <= c.y < w.y + w.h
  }

  /** No wall of the level covers `c`. */
  predicate Free(level: Level, c: Cell) {
    forall i :: 0 <= i < |level.walls| ==> !Covers(level.walls[i], c)
  }

  /** The cell under `p`: the player's top half stands on `p`, its bottom half here. */
  function Below(p: Cell): Cell {
    Cell(p.x, p.y + 1)
  }

  /** The player may stand with its top half on `p`: both cells of its
      footprint are on the grid and neither is covered by a wall. */
  predicate Fits(level: Level, p: Cell) {
    OnGrid(p) && OnGrid(Below(p)) && Free(level, p) && Free(level, Below(p))
  }

  /** The scene's own collision test: a bounds check on the top cell that
      leaves one row for the bottom half, then one pass over the walls that
      rejects as soon as a wall covers either half. */
  method CanMoveTo(level: Level, x: int, y: int) returns (ok: bool)
    ensures ok <==> Fits(level, Cell(x, y))
  {
    if x < 0 || x >= GridSize || y < 0 || y >= GridSize - 1 {
      return false;
    }
    var i := 0;
    while i < |level.walls|
      invariant 0 <= i <= |level.walls|
      invariant forall j :: 0 <= j < i ==>
                  !Covers(level.walls[j], Cell(x, y)) && !Covers(level.walls[j], Cell(x, y + 1))
    {
      var w := level.walls[i];
      if x >= w.x && x < w.x + w.w && y >= w.y && y < w.y + w.h {
        return false;
      }
      if x >= w.x && x < w.x + w.w && y + 1 >= w.y && y + 1 < w.y + w.h {
        return false;
      }
      i := i + 1;
    }
    return true;
  }

  /** A cell that some wall covers is never a place the player can stand,
      whichever half of the player would occupy it. */
  lemma CoveredCellRejected(level: Level, c: Cell, i: int)
    requires 0 <= i < |level.walls| && Covers(level.walls[i], c)
    ensures !Fits(level, c)
    ensures !Fits(level, Cell(c.x, c.y - 1))
  {
  }
}
