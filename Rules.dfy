/** The game rules as functions on values: the state of one session, each
    phase of one pass of the main loop, the whole pass, and the runs made of
    many passes. The classes of Entities and Session are proved to follow
    these functions; the lemmas here say what the rules promise. */
module Rules {
  import opened Board

  /** Player.move_delay: milliseconds that must pass between two moves. */
  const MOVE_DELAY: int := 500
  /** The Wampus moves once its timer is strictly above this many milliseconds. */
  const WAMPUS_PERIOD: int := 1000
  /** reset_game places this many pits. */
  const PIT_COUNT: int := 5

  datatype PlayerState = PlayerState(pos: Pos, arrow: bool, hasGold: bool, lastMoveTime: int)
  datatype WampusState = WampusState(pos: Pos, alive: bool)
  /** A pit never changes after it is placed. */
  datatype Pit = Pit(pos: Pos)
  datatype GoldState = GoldState(pos: Pos, collected: bool)

  /** Everything one pass of the main loop reads and writes: the entities,
      the game_over flag, the Wampus move timer and the start-screen flag. */
  datatype World = World(
    player: PlayerState,
    wampus: WampusState,
    pits: seq<Pit>,
    gold: GoldState,
    gameOver: bool,
    wampusMoveTimer: int,
    gameStart: bool)

  /** The keys held during one pass: the four arrows and space. */
  datatype Keys = Keys(left: bool, right: bool, up: bool, down: bool, space: bool)

  /** What one pass of the main loop receives from outside: whether a key-down
      event arrived (start screen), the clock reading, the milliseconds since
      the previous frame, the held keys, and the Wampus's random direction. */
  datatype Input = Input(keyDown: bool, now: int, elapsed: int, keys: Keys, dir: Dir)

  function Count(b: bool): int {
    if b then 1 else 0
  }

  predicate AnyDirection(keys: Keys) {
    keys.left || keys.right || keys.up || keys.down
  }

  /** The reachable states: every entity on the board, five pits, the gold
      flags set together, a dead Wampus only after the arrow is spent, a
      finished game only when an end condition holds, no finished game
      behind the start screen, and a timer that never exceeds its period. */
  ghost predicate WellFormed(s: World) {
    && InBounds(s.player.pos)
    && InBounds(s.wampus.pos)
    && InBounds(s.gold.pos)
    && |s.pits| == PIT_COUNT
    && (forall i :: 0 <= i < |s.pits| ==> InBounds(s.pits[i].pos))
    && s.gold.collected == s.player.hasGold
    && (!s.wampus.alive ==> !s.player.arrow)
    && (s.gameOver ==> EndCondition(s))
    && (s.gameStart ==> !s.gameOver)
    && s.wampusMoveTimer <= WAMPUS_PERIOD
  }

  /** Flags that only ever go one way, and the parts that never change within
      a session. */
  predicate OneWay(s: World, r: World) {
    && (s.gold.collected ==> r.gold.collected)
    && (s.player.hasGold ==> r.player.hasGold)
    && (!s.wampus.alive ==> !r.wampus.alive)
    && (!s.player.arrow ==> !r.player.arrow)
    && (s.gameOver ==> r.gameOver)
    && (!s.gameStart ==> !r.gameStart)
    && r.pits == s.pits
    && r.gold.pos == s.gold.pos
  }

  // ---------------------------------------------------------------------
  // Player movement

  /** Player.can_move: the gate is shut at the instant of a move and is open
      again 500 ms later. */
  function GateOpen(p: PlayerState, now: int): (r: bool)
    ensures p.lastMoveTime == now ==> !r
    ensures now - p.lastMoveTime == MOVE_DELAY ==> r
  {
    now - p.lastMoveTime >= MOVE_DELAY
  }

  /** Where one axis ends up when its two keys are applied in turn on a board
      line of the given size, starting on the line: the decreasing key first,
      then the increasing one, each refused at the edge it would leave. */
  function AxisAfter(c: int, minus: bool, plus: bool, size: int): int {
    if minus && plus then (if c == 0 then 1 else c)
    else if minus then (if c == 0 then 0 else c - 1)
    else if plus then (if c == size - 1 then c else c + 1)
    else c
  }

  /** One held direction key inside an open gate: the bound-checked step,
      and the gate timestamp is set whether or not the step was taken. */
  function KeyStep(p: PlayerState, held: bool, dRow: int, dCol: int, now: int): PlayerState {
    if held then p.(pos := Step(p.pos, dRow, dCol), lastMoveTime := now) else p
  }

  /** Left then right, from a cell on the board: the row stays and the
      column ends at AxisAfter. */
  lemma ColumnKeys(p: PlayerState, keys: Keys, now: int)
    ensures var q := KeyStep(KeyStep(p, keys.left, 0, -1, now), keys.right, 0, 1, now);
            && q.pos.row == p.pos.row
            && (InBounds(p.pos) ==> q.pos.col == AxisAfter(p.pos.col, keys.left, keys.right, COLS))
  {
  }

  /** Up then down, from a cell on the board: the column stays and the row
      ends at AxisAfter. */
  lemma RowKeys(p: PlayerState, keys: Keys, now: int)
    ensures var q := KeyStep(KeyStep(p, keys.up, -1, 0, now), keys.down, 1, 0, now);
            && q.pos.col == p.pos.col
            && (InBounds(p.pos) ==> q.pos.row == AxisAfter(p.pos.row, keys.up, keys.down, ROWS))
  {
  }

  /** The movement block of the main loop: when the gate is open, each held
      key is applied in turn (left, right, up, down), each through
      Player.move, which takes dx for the column and dy for the row. */
  function MoveKeys(p: PlayerState, keys: Keys, now: int): (r: PlayerState)
    ensures r.arrow == p.arrow && r.hasGold == p.hasGold
    ensures InBounds(p.pos) ==> InBounds(r.pos)
    ensures !GateOpen(p, now) || !AnyDirection(keys) ==> r == p
    ensures GateOpen(p, now) && AnyDirection(keys) ==> r.lastMoveTime == now
    ensures -1 <= r.pos.row - p.pos.row <= 1 && -1 <= r.pos.col - p.pos.col <= 1
    ensures !keys.up && !keys.down ==> r.pos.row == p.pos.row
    ensures !keys.left && !keys.right ==> r.pos.col == p.pos.col
    ensures GateOpen(p, now) && InBounds(p.pos) ==>
      r.pos == Pos(AxisAfter(p.pos.row, keys.up, keys.down, ROWS),
                   AxisAfter(p.pos.col, keys.left, keys.right, COLS))
    ensures GateOpen(p, now) && 1 <= p.pos.row < ROWS - 1 && 1 <= p.pos.col < COLS - 1 ==>
      r.pos == Pos(p.pos.row + Count(keys.down) - Count(keys.up),
                   p.pos.col + Count(keys.right) - Count(keys.left))
  {
    if GateOpen(p, now) then
      var afterLeft := KeyStep(p, keys.left, 0, -1, now);
      var afterRight := KeyStep(afterLeft, keys.right, 0, 1, now);
      var afterUp := KeyStep(afterRight, keys.up, -1, 0, now);
      ColumnKeys(p, keys, now);
      RowKeys(afterRight, keys, now);
      KeyStep(afterUp, keys.down, 1, 0, now)
    else
      p
  }

  /** The 500 ms gate from a fresh player (last_move_time = 0): a held left
      key is refused at 400 ms and taken at 500 ms. */
  lemma GateScenario(pos: Pos)
    requires 1 <= pos.row < ROWS - 1 && 1 <= pos.col < COLS - 1
    ensures var p := PlayerState(pos, true, false, 0);
            var left := Keys(true, false, false, false, false);
            && MoveKeys(p, left, 400) == p
            && MoveKeys(p, left, 500) == p.(pos := Pos(pos.row, pos.col - 1), lastMoveTime := 500)
  {
  }

  /** After a move at time now the gate is closed exactly until now + 500. */
  lemma GateClosesAfterMove(p: PlayerState, keys: Keys, now: int, later: int)
    requires GateOpen(p, now) && AnyDirection(keys)
    ensures GateOpen(MoveKeys(p, keys, now), later) <==> later >= now + MOVE_DELAY
  {
  }

  // ---------------------------------------------------------------------
  // The arrow

  predicate SameLine(a: Pos, b: Pos) {
    a.row == b.row || a.col == b.col
  }

  /** The shooting block: with space held and the arrow still in hand, a live
      Wampus on the player's row or column dies, and the arrow is spent
      whether or not it hit. */
  function Shoot(s: World, space: bool): (r: World)
    ensures !(space && s.player.arrow) ==> r == s
    ensures space && s.player.arrow ==> !r.player.arrow
    ensures r.wampus.alive <==>
      s.wampus.alive && !(space && s.player.arrow && SameLine(s.player.pos, s.wampus.pos))
    ensures r == s.(player := s.player.(arrow := r.player.arrow),
                    wampus := s.wampus.(alive := r.wampus.alive))
  {
    if space && s.player.arrow then
      var hit := SameLine(s.player.pos, s.wampus.pos) && s.wampus.alive;
      s.(player := s.player.(arrow := false),
         wampus := if hit then s.wampus.(alive := false) else s.wampus)
    else
      s
  }

  // ---------------------------------------------------------------------
  // The Wampus

  /** Wampus.move_random with the random choice given as d: a live Wampus
      takes one bound-checked orthogonal step, a dead one stays put. */
  function WampusMove(w: WampusState, d: Dir): (r: WampusState)
    ensures !w.alive ==> r == w
    ensures r.alive == w.alive
    ensures InBounds(w.pos) ==> InBounds(r.pos)
    ensures Distance(w.pos, r.pos) <= 1
    ensures r.pos == w.pos || r.pos == Pos(w.pos.row + RowDelta(d), w.pos.col + ColDelta(d))
    ensures w.alive && InBounds(Pos(w.pos.row + RowDelta(d), w.pos.col + ColDelta(d))) ==>
      r.pos == Pos(w.pos.row + RowDelta(d), w.pos.col + ColDelta(d))
  {
    if w.alive then w.(pos := Step(w.pos, RowDelta(d), ColDelta(d))) else w
  }

  /** The Wampus timer block: the frame's elapsed time is added; strictly
      above the period the Wampus moves once and the timer drops to 0,
      discarding the remainder. */
  function AdvanceWampus(s: World, elapsed: int, d: Dir): (r: World)
    ensures s.wampusMoveTimer + elapsed > WAMPUS_PERIOD ==>
      r.wampusMoveTimer == 0 && r.wampus == WampusMove(s.wampus, d)
    ensures s.wampusMoveTimer + elapsed <= WAMPUS_PERIOD ==>
      r.wampusMoveTimer == s.wampusMoveTimer + elapsed && r.wampus == s.wampus
    ensures r.wampusMoveTimer <= WAMPUS_PERIOD
    ensures r == s.(wampus := r.wampus, wampusMoveTimer := r.wampusMoveTimer)
  {
    var timer := s.wampusMoveTimer + elapsed;
    if timer > WAMPUS_PERIOD then
      s.(wampus := WampusMove(s.wampus, d), wampusMoveTimer := 0)
    else
      s.(wampusMoveTimer := timer)
  }

  // ---------------------------------------------------------------------
  // Gold and the end of the game

  predicate OnGold(s: World) {
    s.player.pos == s.gold.pos && !s.gold.collected
  }

  /** The gold block: standing on uncollected gold sets collected and
      has_gold together. */
  function PickUpGold(s: World): (r: World)
    ensures r.gold.collected <==> s.gold.collected || s.player.pos == s.gold.pos
    ensures r.player.hasGold <==> s.player.hasGold || OnGold(s)
    ensures r == s.(player := s.player.(hasGold := r.player.hasGold),
                    gold := s.gold.(collected := r.gold.collected))
  {
    if OnGold(s) then
      s.(gold := s.gold.(collected := true), player := s.player.(hasGold := true))
    else
      s
  }

  ghost predicate OnPit(pits: seq<Pit>, p: Pos) {
    exists i :: 0 <= i < |pits| && pits[i].pos == p
  }

  predicate HomeWithGold(s: World) {
    s.player.pos == Pos(0, 0) && s.player.hasGold
  }

  predicate Caught(s: World) {
    s.player.pos == s.wampus.pos && s.wampus.alive
  }

  ghost predicate EndCondition(s: World) {
    OnPit(s.pits, s.player.pos) || HomeWithGold(s) || Caught(s)
  }

  /** The three end checks, each run in turn and each setting the one
      game_over flag: none of them takes priority over another. */
  ghost function CheckEnd(s: World): (r: World)
    ensures r.gameOver <==> s.gameOver || EndCondition(s)
    ensures r == s.(gameOver := r.gameOver)
  {
    var afterPits := if OnPit(s.pits, s.player.pos) then true else s.gameOver;
    var afterHome := if HomeWithGold(s) then true else afterPits;
    var afterCaught := if Caught(s) then true else afterHome;
    s.(gameOver := afterCaught)
  }

  // ---------------------------------------------------------------------
  // One pass of the main loop

  /** One pass of the main loop once the start screen is gone: nothing at all
      once the game is over; otherwise movement, the arrow, the Wampus timer,
      the gold and the end checks, in that order. */
  ghost function Tick(s: World, now: int, elapsed: int, keys: Keys, dir: Dir): (r: World)
    ensures s.gameOver ==> r == s
    ensures !s.gameOver ==> (r.gameOver <==> EndCondition(r))
    ensures OneWay(s, r)
    ensures r.gameStart == s.gameStart
    ensures r.player.pos != s.player.pos ==> GateOpen(s.player, now) && r.player.lastMoveTime == now
    ensures !s.gameOver && keys.space ==> !r.player.arrow
    ensures !keys.space ==> r.player.arrow == s.player.arrow
    ensures r.wampus.alive <==>
      s.wampus.alive && !(!s.gameOver && keys.space && s.player.arrow && SameLine(r.player.pos, s.wampus.pos))
    ensures (!s.gold.collected && r.gold.collected) <==>
      (!s.gameOver && !s.gold.collected && r.player.pos == s.gold.pos)
    ensures r.player.hasGold <==> s.player.hasGold || (!s.gold.collected && r.gold.collected)
    ensures WellFormed(s) && !s.gameStart ==> WellFormed(r)
  {
    if s.gameOver then
      s
    else
      var moved := s.(player := MoveKeys(s.player, keys, now));
      var shot := Shoot(moved, keys.space);
      var timed := AdvanceWampus(shot, elapsed, dir);
      var looted := PickUpGold(timed);
      CheckEnd(looted)
  }

  /** One pass of the main loop, start screen included: while the start
      screen shows, only a key-down event changes anything, and it dismisses
      the screen. */
  ghost function Frame(s: World, inp: Input): (r: World)
    ensures s.gameStart ==> r == s.(gameStart := !inp.keyDown)
    ensures !s.gameStart && s.gameOver ==> r == s
    ensures OneWay(s, r)
    ensures WellFormed(s) ==> WellFormed(r)
  {
    if s.gameStart then
      s.(gameStart := !inp.keyDown)
    else
      Tick(s, inp.now, inp.elapsed, inp.keys, inp.dir)
  }

  // ---------------------------------------------------------------------
  // Setting up a session

  function FreshPlayer(pos: Pos): PlayerState {
    PlayerState(pos, true, false, 0)
  }

  ghost predicate ValidPlacement(playerPos: Pos, wampusPos: Pos, pits: seq<Pit>, goldPos: Pos) {
    && InBounds(playerPos) && InBounds(wampusPos) && InBounds(goldPos)
    && |pits| == PIT_COUNT
    && forall i :: 0 <= i < |pits| ==> InBounds(pits[i].pos)
  }

  /** reset_game with its random draws given as arguments: new entities, the
      arrow back, no gold, a live Wampus and game_over cleared; the Wampus
      timer and the start-screen flag are not reset_game's and stay. */
  ghost function NewRound(s: World, playerPos: Pos, wampusPos: Pos, pits: seq<Pit>, goldPos: Pos): (r: World)
    requires ValidPlacement(playerPos, wampusPos, pits, goldPos)
    ensures r.player.pos == playerPos && r.wampus.pos == wampusPos && r.pits == pits && r.gold.pos == goldPos
    ensures r.player.arrow && !r.player.hasGold && r.player.lastMoveTime == 0
    ensures r.wampus.alive && !r.gold.collected && !r.gameOver
    ensures r.wampusMoveTimer == s.wampusMoveTimer && r.gameStart == s.gameStart
    ensures s.wampusMoveTimer <= WAMPUS_PERIOD ==> WellFormed(r)
  {
    s.(player := FreshPlayer(playerPos),
       wampus := WampusState(wampusPos, true),
       pits := pits,
       gold := GoldState(goldPos, false),
       gameOver := false)
  }

  /** The state at program start: reset_game, then a zero Wampus timer and
      the start screen showing. */
  ghost function Initial(playerPos: Pos, wampusPos: Pos, pits: seq<Pit>, goldPos: Pos): (r: World)
    requires ValidPlacement(playerPos, wampusPos, pits, goldPos)
    ensures WellFormed(r)
    ensures r.gameStart && !r.gameOver && r.wampusMoveTimer == 0
    ensures r.player == FreshPlayer(playerPos) && r.wampus == WampusState(wampusPos, true)
    ensures r.pits == pits && r.gold == GoldState(goldPos, false)
  {
    World(FreshPlayer(playerPos), WampusState(wampusPos, true), pits, GoldState(goldPos, false), false, 0, true)
  }

  // ---------------------------------------------------------------------
  // Runs of many passes

  /** The passes of `while running`, one Frame per input. Every state
      reached from a well-formed one is well-formed, and over any run the
      pickup flags and game_over only go false to true, the arrow, the
      Wampus's life and the start screen only go true to false, and the pits
      and the gold stay put. */
  ghost function Run(s: World, inputs: seq<Input>): (r: World)
    ensures inputs == [] ==> r == s
    ensures OneWay(s, r)
    ensures WellFormed(s) ==> WellFormed(r)
    decreases |inputs|
  {
    if inputs == [] then s else Run(Frame(s, inputs[0]), inputs[1..])
  }

  /** A run of n + 1 frames is one more Frame after the run of the first n:
      the main loop read one pass at a time. */
  lemma {:induction false} RunLastFrame(s: World, inputs: seq<Input>)
    requires inputs != []
    ensures Run(s, inputs) == Frame(Run(s, inputs[..|inputs| - 1]), inputs[|inputs| - 1])
    decreases |inputs|
  {
    var rest := inputs[1..];
    if rest != [] {
      assert rest[..|rest| - 1] == inputs[..|inputs| - 1][1..];
      RunLastFrame(Frame(s, inputs[0]), rest);
    }
  }

  /** A finished game is frozen: no run changes any entity, timer or flag. */
  lemma {:induction false} RunFrozen(s: World, inputs: seq<Input>)
    requires WellFormed(s) && s.gameOver
    ensures Run(s, inputs) == s
    decreases |inputs|
  {
    if inputs != [] {
      RunFrozen(Frame(s, inputs[0]), inputs[1..]);
    }
  }

  /** A run that begins at program start never ends the game while the start
      screen is showing, and whenever one has ended an end condition holds. */
  lemma SessionEndsOnlyByEndCondition(playerPos: Pos, wampusPos: Pos, pits: seq<Pit>, goldPos: Pos, inputs: seq<Input>)
    requires ValidPlacement(playerPos, wampusPos, pits, goldPos)
    ensures var r := Run(Initial(playerPos, wampusPos, pits, goldPos), inputs);
            (r.gameOver ==> EndCondition(r) && !r.gameStart) && InBounds(r.player.pos) && InBounds(r.wampus.pos)
  {
  }
}
