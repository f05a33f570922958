/** The one level the scene ships with, and what follows from its layout:
    every goal is inside a wall, so the level can be lost but never won. */
module Shipped {
  import opened Board
  import opened Scene
  import opened Safety

  /** Spawn (0,18); walls [3,4,10,14], [10,12,7,7], [10,10,4,8]; goals
      (7,4), (10,10), (13,16). */
  const Levels: seq<Level> := [
    Level(
      Cell(0, 18),
      [Wall(3, 4, 10, 14), Wall(10, 12, 7, 7), Wall(10, 10, 4, 8)],
      [Cell(7, 4), Cell(10, 10), Cell(13, 16)])
  ]

  lemma LevelsWellFormed()
    ensures WellFormed(Levels)
  {
  }

  /** Each goal lies inside a wall, so the collision test rejects it and the
      player can never stand on it. */
  lemma GoalsInsideWalls()
    ensures forall g :: g in Levels[0].goals ==>
              (exists i :: 0 <= i < |Levels[0].walls| && Covers(Levels[0].walls[i], g))
    ensures forall g :: g in Levels[0].goals ==> !Fits(Levels[0], g)
  {
    var level := Levels[0];
    CoveredCellRejected(level, Cell(7, 4), 0);
    CoveredCellRejected(level, Cell(10, 10), 0);
    CoveredCellRejected(level, Cell(13, 16), 1);
  }

  /** The state invariant plus what the shipped layout adds: nobody has won,
      so the scene is still on the first level and not in a win pause. */
  predicate Unwon(s: GameState) {
    Inv(Levels, s) && s.currentLevel == 0 && s.phase != WinPending
  }

  lemma StepKeepsUnwon(s: GameState, e: Event)
    requires Unwon(s)
    ensures Unwon(Step(Levels, s, e))
  {
    StepPreservesInv(Levels, s, e);
    GoalsInsideWalls();
    if e.Frame? && CanMove(s) {
      var k := e.keys;
      var dest := Cell(s.player.x + DeltaX(k), s.player.y + DeltaY(k));
      assert Fits(Levels[0], dest) ==> dest !in Levels[0].goals;
    }
  }

  /** However the shipped game is played, the win check never fires: the
      scene never enters the win pause and never leaves the first level.
      Only losing a life and game over are reachable. */
  lemma {:induction false} NeverWon(s: GameState, evs: seq<Event>)
    requires Unwon(s)
    ensures Run(Levels, s, evs).phase != WinPending
    ensures Run(Levels, s, evs).currentLevel == 0
    decreases |evs|
  {
    if |evs| > 0 {
      StepKeepsUnwon(s, evs[0]);
      NeverWon(Step(Levels, s, evs[0]), evs[1..]);
    }
  }

  lemma ShippedGameNeverWon(evs: seq<Event>)
    ensures Run(Levels, Create(Levels), evs).phase != WinPending
    ensures Run(Levels, Create(Levels), evs).currentLevel == 0
  {
    LevelsWellFormed();
    LoadLevelEstablishesInv(Levels, 0);
    NeverWon(Create(Levels), evs);
  }

  /** The same event `n` times. */
  function Repeat(e: Event, n: nat): (evs: seq<Event>)
    ensures |evs| == n
    ensures forall i :: 0 <= i < n ==> evs[i] == e
  {
    if n == 0 then [] else [e] + Repeat(e, n - 1)
  }

  lemma {:induction false} RunAppend(levels: seq<Level>, s: GameState, a: seq<Event>, b: seq<Event>)
    requires Consistent(levels, s)
    ensures Run(levels, s, a + b) == Run(levels, Run(levels, s, a), b)
    decreases |a|
  {
    if |a| > 0 {
      assert (a + b)[0] == a[0];
      assert (a + b)[1..] == a[1..] + b;
      RunAppend(levels, Step(levels, s, a[0]), a[1..], b);
    } else {
      assert a + b == b;
    }
  }

  const Down: Event := Frame(Keys(false, false, false, true))

  /** Column 0 is clear of walls, so pressing down there moves one row and
      spends one move per press while budget remains. */
  lemma {:induction false} DownPresses(s: GameState, n: nat)
    requires s.phase == Playing && s.currentLevel == 0 && s.player.x == 0
    requires 0 <= s.player.y && s.player.y + n <= 62
    requires n < s.movesLeft
    ensures Run(Levels, s, Repeat(Down, n))
              == s.(player := Cell(0, s.player.y + n), movesLeft := s.movesLeft - n)
    decreases n
  {
    if n > 0 {
      var evs := Repeat(Down, n);
      assert evs[1..] == Repeat(Down, n - 1);
      var dest := Cell(0, s.player.y + 1);
      assert Fits(Levels[0], dest);
      assert dest !in Levels[0].goals;
      var t := Step(Levels, s, Down);
      assert t == s.(player := dest, movesLeft := s.movesLeft - 1);
      DownPresses(t, n - 1);
    }
  }

  /** Twenty-two presses of down from the start spend the whole budget: the
      22nd costs a life and puts the player back at the spawn with 22 moves. */
  lemma TwentyTwoDownPresses()
    ensures Run(Levels, Create(Levels), Repeat(Down, 22))
              == GameState(0, MaxLives - 1, MaxMoves, Cell(0, 18), Playing)
  {
    var s := Create(Levels);
    assert Repeat(Down, 22) == Repeat(Down, 21) + [Down];
    RunAppend(Levels, s, Repeat(Down, 21), [Down]);
    DownPresses(s, 21);
    var t := s.(player := Cell(0, 39), movesLeft := 1);
    assert Fits(Levels[0], Cell(0, 40));
    assert Run(Levels, t, [Down]) == Step(Levels, t, Down);
  }
}
