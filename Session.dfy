/** The game session: the module-level state of the script (player, Wampus,
    pits, gold, game_over, the Wampus move timer and the start-screen flag)
    gathered in one object, with reset_game and one pass of the main loop as
    methods. Each method's new state is the Rules function of the old one. */
module Session {
  import opened Board
  import opened Rules
  import opened Entities

  /** The pit loop of the end checks: scans the pits in order and stops at
      the first one under the player. */
  method PitAt(pits: seq<Pit>, row: int, col: int) returns (fell: bool)
    ensures fell <==> OnPit(pits, Pos(row, col))
  {
    fell := false;
    var i := 0;
    while i < |pits|
      invariant 0 <= i <= |pits|
      invariant forall j :: 0 <= j < i ==> pits[j].pos != Pos(row, col)
    {
      if pits[i].pos.row == row && pits[i].pos.col == col {
        fell := true;
        break;
      }
      i := i + 1;
    }
  }

  class Game {
    var player: Player
    var wampus: Wampus
    var pits: seq<Pit>
    var gold: Gold
    var gameOver: bool
    var wampusMoveTimer: int
    var gameStart: bool

    ghost function State(): World
      reads this, player, wampus, gold
    {
      World(player.Value(), wampus.Value(), pits, gold.Value(), gameOver, wampusMoveTimer, gameStart)
    }

    ghost predicate Valid()
      reads this, player, wampus, gold
    {
      WellFormed(State())
    }

    /** Program start: reset_game with the given placements, then a zero
        Wampus timer and the start screen. */
    constructor (playerPos: Pos, wampusPos: Pos, pits: seq<Pit>, goldPos: Pos)
      requires ValidPlacement(playerPos, wampusPos, pits, goldPos)
      ensures Valid()
      ensures State() == Initial(playerPos, wampusPos, pits, goldPos)
      ensures fresh(player) && fresh(wampus) && fresh(gold)
    {
      player := new Player(playerPos.row, playerPos.col);
      wampus := new Wampus(wampusPos.row, wampusPos.col);
      this.pits := pits;
      gold := new Gold(goldPos.row, goldPos.col);
      gameOver := false;
      wampusMoveTimer := 0;
      gameStart := true;
    }

    /** reset_game, with its random draws passed in: new entity objects and
        game_over cleared. */
    method ResetGame(playerPos: Pos, wampusPos: Pos, pits: seq<Pit>, goldPos: Pos)
      requires ValidPlacement(playerPos, wampusPos, pits, goldPos)
      modifies this
      ensures State() == NewRound(old(State()), playerPos, wampusPos, pits, goldPos)
      ensures old(Valid()) ==> Valid()
      ensures fresh(player) && fresh(wampus) && fresh(gold)
    {
      player := new Player(playerPos.row, playerPos.col);
      wampus := new Wampus(wampusPos.row, wampusPos.col);
      this.pits := pits;
      gold := new Gold(goldPos.row, goldPos.col);
      gameOver := false;
    }

    /** The movement block: when the gate is open, each held arrow key moves
        the player one bound-checked step, and each of them sets
        last_move_time even when its step was refused. */
    method HandleMovement(currentTime: int, keys: Keys)
      modifies player
      ensures player.Value() == MoveKeys(old(player.Value()), keys, currentTime)
    {
      if player.CanMove(currentTime) {
        if keys.left {
          player.Move(-1, 0);
          player.lastMoveTime := currentTime;
        }
        if keys.right {
          player.Move(1, 0);
          player.lastMoveTime := currentTime;
        }
        if keys.up {
          player.Move(0, -1);
          player.lastMoveTime := currentTime;
        }
        if keys.down {
          player.Move(0, 1);
          player.lastMoveTime := currentTime;
        }
      }
    }

    /** The shooting block. */
    method ShootArrow(space: bool)
      modifies player, wampus
      ensures State() == Shoot(old(State()), space)
    {
      if space && player.arrow {
        if (player.row == wampus.row || player.col == wampus.col) && wampus.alive {
          wampus.alive := false;
        }
        player.arrow := false;
      }
    }

    /** The Wampus timer block. */
    method AdvanceWampusTimer(elapsed: int, dir: Dir)
      modifies this`wampusMoveTimer, wampus
      ensures State() == AdvanceWampus(old(State()), elapsed, dir)
    {
      wampusMoveTimer := wampusMoveTimer + elapsed;
      if wampusMoveTimer > WAMPUS_PERIOD {
        wampus.MoveRandom(dir);
        wampusMoveTimer := 0;
      }
    }

    /** The gold block. */
    method CollectGold()
      modifies player, gold
      ensures State() == PickUpGold(old(State()))
    {
      if player.row == gold.row && player.col == gold.col && !gold.collected {
        gold.collected := true;
        player.hasGold := true;
      }
    }

    /** The three end checks, each setting game_over on its own. */
    method CheckEndConditions()
      modifies this`gameOver
      ensures State() == CheckEnd(old(State()))
    {
      var fell := PitAt(pits, player.row, player.col);
      if fell {
        gameOver := true;
      }
      if player.row == 0 && player.col == 0 && player.hasGold {
        gameOver := true;
      }
      if player.row == wampus.row && player.col == wampus.col && wampus.alive {
        gameOver := true;
      }
    }

    /** One pass of the main loop after the start screen, drawing left out:
        the game-over freeze, then the blocks above in the script's order. */
    method Tick(now: int, elapsed: int, keys: Keys, dir: Dir)
      modifies this, player, wampus, gold
      ensures player == old(player) && wampus == old(wampus) && gold == old(gold)
      ensures State() == Rules.Tick(old(State()), now, elapsed, keys, dir)
      ensures old(Valid()) && !gameStart ==> Valid()
    {
      var currentTime := now;
      if gameOver {
        return;
      }
      ghost var atStart := State();
      HandleMovement(currentTime, keys);
      ghost var moved := State();
      assert moved == atStart.(player := MoveKeys(atStart.player, keys, now));
      ShootArrow(keys.space);
      AdvanceWampusTimer(elapsed, dir);
      CollectGold();
      CheckEndConditions();
    }

    /** One pass of the main loop: the start screen waits for a key-down
        event; after it, Tick. */
    method Frame(inp: Input)
      modifies this, player, wampus, gold
      ensures player == old(player) && wampus == old(wampus) && gold == old(gold)
      ensures State() == Rules.Frame(old(State()), inp)
      ensures old(Valid()) ==> Valid()
    {
      if gameStart {
        if inp.keyDown {
          gameStart := false;
        }
        return;
      }
      Tick(inp.now, inp.elapsed, inp.keys, inp.dir);
    }

    /** The main loop: one Frame per input, for as long as the frames last
        (the script's loop runs until a quit event or ESC, which are not
        modelled; a finite sequence of frames stands for them). */
    method Play(inputs: seq<Input>)
      modifies this, player, wampus, gold
      ensures player == old(player) && wampus == old(wampus) && gold == old(gold)
      ensures State() == Run(old(State()), inputs)
      ensures old(Valid()) ==> Valid()
    {
      var i := 0;
      while i < |inputs|
        invariant 0 <= i <= |inputs|
        invariant player == old(player) && wampus == old(wampus) && gold == old(gold)
        invariant Run(State(), inputs[i..]) == Run(old(State()), inputs)
        invariant old(Valid()) ==> Valid()
      {
        Frame(inputs[i]);
        assert inputs[i..][1..] == inputs[i + 1..];
        i := i + 1;
      }
    }
  }
}
