/** The 10 x 10 board: cell positions, the bounds check shared by the player
    and the Wampus, and the four directions the Wampus draws from. */
module Board {

  const ROWS: int := 10
  const COLS: int := 10

  /** A cell of the board, addressed as (row, col) as every entity stores it. */
  datatype Pos = Pos(row: int, col: int)

  predicate InBounds(p: Pos) {
    0 <= p.row < ROWS && 0 <= p.col < COLS
  }

  function Abs(x: int): nat {
    if x < 0 then -x else x
  }

  /** Number of orthogonal unit steps between two cells. */
  function Distance(a: Pos, b: Pos): nat {
    Abs(a.row - b.row) + Abs(a.col - b.col)
  }

  /** The bound-checked step of Player.move and Wampus.move_random: the
      target cell is taken only when it lies on the board, otherwise the
      entity silently stays where it is. */
  function Step(p: Pos, dRow: int, dCol: int): (r: Pos)
    ensures InBounds(Pos(p.row + dRow, p.col + dCol)) ==> r == Pos(p.row + dRow, p.col + dCol)
    ensures !InBounds(Pos(p.row + dRow, p.col + dCol)) ==> r == p
    ensures InBounds(p) ==> InBounds(r)
  {
    var target := Pos(p.row + dRow, p.col + dCol);
    if InBounds(target) then target else p
  }

  /** The choices of move_random, in the order of its list: right (0, 1),
      down (1, 0), left (0, -1) and up (-1, 0), given as (row, col) offsets. */
  datatype Dir = Right | Down | Left | Up

  function RowDelta(d: Dir): int {
    match d
    case Right => 0
    case Down => 1
    case Left => 0
    case Up => -1
  }

  function ColDelta(d: Dir): int {
    match d
    case Right => 1
    case Down => 0
    case Left => -1
    case Up => 0
  }
}
