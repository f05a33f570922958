/** What every reachable state of the scene satisfies: the player stands
    where it fits, and the budget and life counters stay in range. */
module Safety {
  import opened Board
  import opened Scene

  /** A level table the scene can run: it has a first level, and every
      level's spawn is a place the player fits. */
  predicate WellFormed(levels: seq<Level>) {
    && |levels| > 0
    && forall i :: 0 <= i < |levels| ==> Fits(levels[i], levels[i].spawn)
  }

  /** The state invariant. In every phase the counters stay within
      `0 .. MaxLives` and `0 .. MaxMoves`. While the scene runs the player
      fits the current level; while playing at least one move and one life
      remain; a win pause is only ever entered on a goal; a game-over pause
      has no lives and no moves left. */
  predicate Inv(levels: seq<Level>, s: GameState) {
    && WellFormed(levels)
    && Consistent(levels, s)
    && 0 <= s.lives <= MaxLives
    && 0 <= s.movesLeft <= MaxMoves
    && (s.phase != InMenu ==> Fits(levels[s.currentLevel], s.player))
    && (s.phase == Playing ==> 1 <= s.movesLeft && 1 <= s.lives)
    && (s.phase == WinPending ==>
          1 <= s.movesLeft && 1 <= s.lives && s.player in levels[s.currentLevel].goals)
    && (s.phase == GameOverPending ==> s.lives == 0 && s.movesLeft == 0)
  }

  lemma LoadLevelEstablishesInv(levels: seq<Level>, index: nat)
    requires WellFormed(levels) && index < |levels|
    ensures Inv(levels, LoadLevel(levels, index))
    ensures CanMove(LoadLevel(levels, index))
  {
  }

  /** A move from a valid playing state keeps the invariant: the destination
      is committed only after it is found to fit, a spent budget either
      resets to the spawn or ends the game, and a win pause starts only on
      a goal. */
  lemma MovePreservesInv(levels: seq<Level>, s: GameState, dx: int, dy: int)
    requires Inv(levels, s) && CanMove(s)
    ensures Inv(levels, MovePlayer(levels, s, dx, dy))
  {
  }

  lemma StepPreservesInv(levels: seq<Level>, s: GameState, e: Event)
    requires Inv(levels, s)
    ensures Inv(levels, Step(levels, s, e))
  {
  }

  lemma {:induction false} RunPreservesInv(levels: seq<Level>, s: GameState, evs: seq<Event>)
    requires Inv(levels, s)
    ensures Inv(levels, Run(levels, s, evs))
    decreases |evs|
  {
    if |evs| > 0 {
      StepPreservesInv(levels, s, evs[0]);
      RunPreservesInv(levels, Step(levels, s, evs[0]), evs[1..]);
    }
  }

  /** From the scene's creation, whatever happens: the player is never off
      the grid or inside a wall while the scene runs, and the counters stay
      in range. */
  lemma ReachableStatesSafe(levels: seq<Level>, evs: seq<Event>)
    requires WellFormed(levels)
    ensures var s := Run(levels, Create(levels), evs);
            && 0 <= s.lives <= MaxLives
            && 0 <= s.movesLeft <= MaxMoves
            && s.currentLevel <= |levels|
            && (s.phase != InMenu ==>
                  s.currentLevel < |levels| && Fits(levels[s.currentLevel], s.player))
            && (s.phase == Playing ==> 1 <= s.movesLeft && 1 <= s.lives)
  {
    LoadLevelEstablishesInv(levels, 0);
    RunPreservesInv(levels, Create(levels), evs);
  }

  /** The frames of a sequence of key presses. */
  function Frames(ks: seq<Keys>): (evs: seq<Event>)
    ensures |evs| == |ks|
    ensures forall i :: 0 <= i < |ks| ==> evs[i] == Frame(ks[i])
  {
    if |ks| == 0 then [] else [Frame(ks[0])] + Frames(ks[1..])
  }

  /** While input is locked (a pause is pending or the selector has control)
      no sequence of key presses changes anything. */
  lemma {:induction false} LockedFramesIgnored(levels: seq<Level>, s: GameState, ks: seq<Keys>)
    requires Consistent(levels, s) && !CanMove(s)
    ensures Run(levels, s, Frames(ks)) == s
    decreases |ks|
  {
    if |ks| > 0 {
      var evs := Frames(ks);
      assert evs[1..] == Frames(ks[1..]);
      assert Step(levels, s, evs[0]) == s;
      LockedFramesIgnored(levels, s, ks[1..]);
    }
  }
}
