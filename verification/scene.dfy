/** The LS20 scene as a state machine: a move budget per life, three lives
    per level, and the win and game-over pauses made explicit as pending
    phases that a separate `Settle` step resolves. */
module Scene {
  import opened Board

  /** Moves allotted per life. */
  const MaxMoves: int := 22

  /** Lives given at the start of every level. */
  const MaxLives: int := 3

  /** Where the scene stands. Input is accepted only while `Playing`;
      `WinPending` and `GameOverPending` are the pauses before the delayed
      level advance and the delayed restart; `InMenu` means the scene has
      handed control back to the game selector. */
  datatype Phase = Playing | WinPending | GameOverPending | InMenu

  datatype GameState = GameState(
    currentLevel: nat,
    lives: int,
    movesLeft: int,
    player: Cell,
    phase: Phase)

  /** Directions pressed in one frame; each folds the arrow key and its
      letter key (A, D, W, S) together. */
  datatype Keys = Keys(left: bool, right: bool, up: bool, down: bool)

  /** Everything that can happen to the scene: a frame with the keys just
      pressed, a delayed callback firing, ESC, and the selector starting the
      scene. */
  datatype Event = Frame(keys: Keys) | Timer | Escape | Launch

  /** The scene accepts movement input. */
  predicate CanMove(s: GameState) {
    s.phase == Playing
  }

  /** What the scene needs so that it never indexes past its level table:
      a first level to load, and a level index that names a level while the
      scene runs and never passes the end of the table. */
  predicate Consistent(levels: seq<Level>, s: GameState) {
    && |levels| > 0
    && s.currentLevel <= |levels|
    && (s.phase != InMenu ==> s.currentLevel < |levels|)
  }

  /** Horizontal step of a frame; right wins over left. */
  function DeltaX(k: Keys): (dx: int)
    ensures dx == 1 <==> k.right
    ensures dx == -1 <==> k.left && !k.right
    ensures dx == 0 <==> !k.left && !k.right
  {
    if k.right then 1 else if k.left then -1 else 0
  }

  /** Vertical step of a frame; down wins over up. */
  function DeltaY(k: Keys): (dy: int)
    ensures dy == 1 <==> k.down
    ensures dy == -1 <==> k.up && !k.down
    ensures dy == 0 <==> !k.up && !k.down
  {
    if k.down then 1 else if k.up then -1 else 0
  }

  /** Start level `index` afresh: full budget, full lives, player at spawn.
      Both callers turn input on before loading, so the result is `Playing`. */
  function LoadLevel(levels: seq<Level>, index: nat): (r: GameState)
    requires index < |levels|
    ensures r.currentLevel == index && CanMove(r)
    ensures r.lives == MaxLives && r.movesLeft == MaxMoves
    ensures r.player == levels[index].spawn
  {
    GameState(index, MaxLives, MaxMoves, levels[index].spawn, Playing)
  }

  /** The scene starting (from the selector, or restarting after game over). */
  function Create(levels: seq<Level>): (r: GameState)
    requires |levels| > 0
    ensures Consistent(levels, r) && CanMove(r)
    ensures r.currentLevel == 0 && r.lives == MaxLives && r.movesLeft == MaxMoves
    ensures r.player == levels[0].spawn
  {
    LoadLevel(levels, 0)
  }

  /** Game over locks input and schedules the restart: the game-over pause. */
  function GameOver(s: GameState): (r: GameState)
    ensures r.phase == GameOverPending && !CanMove(r)
    ensures r.(phase := s.phase) == s
  {
    s.(phase := GameOverPending)
  }

  /** Take one life. With lives left the player goes back to the spawn with a
      full budget at once (the delayed callback only redraws); without, the
      game-over pause begins. */
  function LoseLife(levels: seq<Level>, s: GameState): (r: GameState)
    requires s.currentLevel < |levels|
    ensures r.lives == s.lives - 1
    ensures r.currentLevel == s.currentLevel
    ensures r.lives > 0 ==>
              r.player == levels[s.currentLevel].spawn && r.movesLeft == MaxMoves && r.phase == s.phase
    ensures r.lives <= 0 ==>
              r.phase == GameOverPending && r.player == s.player && r.movesLeft == s.movesLeft
  {
    var t := s.(lives := s.lives - 1);
    if t.lives <= 0 then
      GameOver(t)
    else
      t.(player := levels[s.currentLevel].spawn, movesLeft := MaxMoves)
  }

  /** Standing on a goal of the current level locks input and begins the win
      pause; anywhere else nothing happens. */
  function CheckWin(levels: seq<Level>, s: GameState): (r: GameState)
    requires s.currentLevel < |levels|
    ensures r.(phase := s.phase) == s
    ensures r.phase == WinPending <==> s.player in levels[s.currentLevel].goals || s.phase == WinPending
    ensures s.player !in levels[s.currentLevel].goals ==> r == s
  {
    if s.player in levels[s.currentLevel].goals then s.(phase := WinPending) else s
  }

  /** One move by `(dx, dy)`. Only the destination is checked, so a diagonal
      step may pass a wall corner. A blocked move changes nothing. An accepted
      move spends one unit of budget; an empty budget costs a life before any
      goal is looked at, otherwise the goal check runs. */
  function MovePlayer(levels: seq<Level>, s: GameState, dx: int, dy: int): (r: GameState)
    requires s.currentLevel < |levels|
    ensures var dest := Cell(s.player.x + dx, s.player.y + dy);
            !Fits(levels[s.currentLevel], dest) ==> r == s
    ensures r.currentLevel == s.currentLevel
    ensures var dest := Cell(s.player.x + dx, s.player.y + dy);
            Fits(levels[s.currentLevel], dest) && s.movesLeft > 1 ==>
              && r.player == dest
              && r.movesLeft == s.movesLeft - 1
              && r.lives == s.lives
              && (r.phase == WinPending <==> dest in levels[s.currentLevel].goals || s.phase == WinPending)
              && (s.phase != WinPending && dest !in levels[s.currentLevel].goals ==> r.phase == s.phase)
    ensures var dest := Cell(s.player.x + dx, s.player.y + dy);
            Fits(levels[s.currentLevel], dest) && s.movesLeft <= 1 ==>
              && r.lives == s.lives - 1
              && (r.lives > 0 ==> r.player == levels[s.currentLevel].spawn && r.movesLeft == MaxMoves && r.phase == s.phase)
              && (r.lives <= 0 ==> r.phase == GameOverPending && r.player == dest && r.movesLeft == s.movesLeft - 1)
  {
    var dest := Cell(s.player.x + dx, s.player.y + dy);
    if !Fits(levels[s.currentLevel], dest) then
      s
    else
      var moved := s.(player := dest, movesLeft := s.movesLeft - 1);
      if moved.movesLeft <= 0 then LoseLife(levels, moved) else CheckWin(levels, moved)
  }

  /** The budget is checked before the goal: a move that spends the last unit
      of budget costs a life and never starts the win pause, even when it
      lands on a goal. */
  lemma BudgetCheckedBeforeGoal(levels: seq<Level>, s: GameState, dx: int, dy: int)
    requires s.currentLevel < |levels| && CanMove(s) && s.movesLeft == 1
    requires Fits(levels[s.currentLevel], Cell(s.player.x + dx, s.player.y + dy))
    ensures MovePlayer(levels, s, dx, dy).phase != WinPending
    ensures MovePlayer(levels, s, dx, dy).lives == s.lives - 1
  {
  }

  /** One frame of input: ignored while input is locked or when no direction
      was pressed; otherwise a move by the selected step. */
  function Update(levels: seq<Level>, s: GameState, k: Keys): (r: GameState)
    requires Consistent(levels, s)
    ensures !CanMove(s) ==> r == s
    ensures !k.left && !k.right && !k.up && !k.down ==> r == s
    ensures CanMove(s) && (k.left || k.right || k.up || k.down) ==>
              r == MovePlayer(levels, s, DeltaX(k), DeltaY(k))
  {
    if !CanMove(s) then
      s
    else
      var dx, dy := DeltaX(k), DeltaY(k);
      if dx != 0 || dy != 0 then MovePlayer(levels, s, dx, dy) else s
  }

  /** A delayed callback fires. After a win the next level loads, or the
      scene returns to the selector when there is none; after game over the
      whole scene restarts from the first level. Nothing else is pending. */
  function Settle(levels: seq<Level>, s: GameState): (r: GameState)
    requires Consistent(levels, s)
    ensures s.phase == WinPending ==>
              && r.currentLevel == s.currentLevel + 1
              && (r.currentLevel < |levels| ==>
                    r.phase == Playing && r.lives == MaxLives && r.movesLeft == MaxMoves
                    && r.player == levels[r.currentLevel].spawn)
              && (r.currentLevel >= |levels| ==>
                    r == s.(currentLevel := s.currentLevel + 1, phase := InMenu))
    ensures s.phase == GameOverPending ==>
              r == GameState(0, MaxLives, MaxMoves, levels[0].spawn, Playing)
    ensures s.phase == Playing || s.phase == InMenu ==> r == s
  {
    match s.phase
    case WinPending =>
      var next := s.currentLevel + 1;
      if next < |levels| then LoadLevel(levels, next)
      else s.(currentLevel := next, phase := InMenu)
    case GameOverPending => Create(levels)
    case _ => s
  }

  /** ESC hands control back to the selector from any running phase; pending
      callbacks die with the scene. */
  function Leave(s: GameState): (r: GameState)
    ensures r.phase == InMenu
    ensures r.(phase := s.phase) == s
  {
    s.(phase := InMenu)
  }

  /** The selector starts the scene, which runs its creation afresh. */
  function Launch(levels: seq<Level>, s: GameState): (r: GameState)
    requires |levels| > 0
    ensures s.phase == InMenu ==>
              && CanMove(r) && r.currentLevel == 0
              && r.lives == MaxLives && r.movesLeft == MaxMoves
              && r.player == levels[0].spawn
    ensures s.phase != InMenu ==> r == s
  {
    if s.phase == InMenu then Create(levels) else s
  }

  function Step(levels: seq<Level>, s: GameState, e: Event): (r: GameState)
    requires Consistent(levels, s)
    ensures Consistent(levels, r)
    ensures r.currentLevel >= s.currentLevel || r == Create(levels)
  {
    match e
    case Frame(k) => Update(levels, s, k)
    case Timer => Settle(levels, s)
    case Escape => Leave(s)
    case Launch => Launch(levels, s)
  }

  /** The state after a sequence of events. */
  function Run(levels: seq<Level>, s: GameState, evs: seq<Event>): (r: GameState)
    requires Consistent(levels, s)
    ensures Consistent(levels, r)
    decreases |evs|
  {
    if |evs| == 0 then s else Run(levels, Step(levels, s, evs[0]), evs[1..])
  }
}
