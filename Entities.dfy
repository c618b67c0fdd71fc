/** The entity objects whose fields the game changes in place. Each class
    gives its abstract value as a Rules datatype, and each method states its
    new value as a Rules function of the old one. Pits never change and are
    the Rules.Pit datatype. */
module Entities {
  import opened Board
  import opened Rules

  class Player {
    var row: int
    var col: int
    var arrow: bool
    var hasGold: bool
    var lastMoveTime: int

    function Value(): PlayerState
      reads this
    {
      PlayerState(Pos(row, col), arrow, hasGold, lastMoveTime)
    }

    /** A new player holds its one arrow, no gold, and has never moved. */
    constructor (row: int, col: int)
      ensures Value() == FreshPlayer(Pos(row, col))
    {
      this.row := row;
      this.col := col;
      arrow := true;
      hasGold := false;
      lastMoveTime := 0;
    }

    /** dx moves along the columns and dy along the rows; a target off the
        board is refused without notice. */
    method Move(dx: int, dy: int)
      modifies this
      ensures Value() == old(Value()).(pos := Step(old(Value()).pos, dy, dx))
    {
      var newRow := row + dy;
      var newCol := col + dx;
      if 0 <= newRow < ROWS && 0 <= newCol < COLS {
        row := newRow;
        col := newCol;
      }
    }

    /** can_move: enough time has passed since the last move. */
    function CanMove(currentTime: int): (r: bool)
      reads this
      ensures r == GateOpen(Value(), currentTime)
      ensures currentTime == lastMoveTime ==> !r
    {
      currentTime - lastMoveTime >= MOVE_DELAY
    }
  }

  class Wampus {
    var row: int
    var col: int
    var alive: bool

    function Value(): WampusState
      reads this
    {
      WampusState(Pos(row, col), alive)
    }

    constructor (row: int, col: int)
      ensures Value() == WampusState(Pos(row, col), true)
    {
      this.row := row;
      this.col := col;
      alive := true;
    }

    /** move_random, with the random choice passed in as direction. */
    method MoveRandom(direction: Dir)
      modifies this
      ensures Value() == WampusMove(old(Value()), direction)
    {
      if alive {
        var newRow := row + RowDelta(direction);
        var newCol := col + ColDelta(direction);
        if 0 <= newRow < ROWS && 0 <= newCol < COLS {
          row := newRow;
          col := newCol;
        }
      }
    }
  }

  class Gold {
    const row: int
    const col: int
    var collected: bool

    function Value(): GoldState
      reads this
    {
      GoldState(Pos(row, col), collected)
    }

    constructor (row: int, col: int)
      ensures Value() == GoldState(Pos(row, col), false)
    {
      this.row := row;
      this.col := col;
      collected := false;
    }
  }
}
