/** The scoreboard and goal detection. */
module Score {

  import opened Players

  /** Points of each player (`u32` counters in the program). */
  datatype Scoreboard = Scoreboard(player1: nat, player2: nat)

  /** The scoreboard resource as inserted when the game is built. */
  function InitialScoreboard(): (b: Scoreboard)
    ensures b.player1 == 0 && b.player2 == 0
  {
    Scoreboard(0, 0)
  }

  /** What one look at the ball finds. */
  datatype Goal = NoGoal | GoalFor(scorer: Player)

  /** A goal is a strict crossing of a side wall: past the right wall player 1
      scores, otherwise past the left wall player 2 scores. A ball exactly on
      a wall has not crossed it. */
  function GoalScored(ballX: real, width: real): (g: Goal)
    ensures g == GoalFor(Player1) <==> ballX > width / 2.0
    ensures g == GoalFor(Player2) <==> ballX < -width / 2.0 && !(ballX > width / 2.0)
    ensures g == NoGoal <==> -width / 2.0 <= ballX <= width / 2.0
  {
    if ballX > width / 2.0 then GoalFor(Player1)
    else if ballX < -width / 2.0 then GoalFor(Player2)
    else NoGoal
  }

  /** In a window of non-negative width the two goals cannot both be scored:
      the right-wall test alone decides player 1's goal and the left-wall test
      alone decides player 2's. */
  lemma GoalSidesExclusive(ballX: real, width: real)
    requires width >= 0.0
    ensures GoalScored(ballX, width) == GoalFor(Player2) <==> ballX < -width / 2.0
  {
  }

  /** The scoreboard after a goal: the scorer's counter goes up by one, the
      other counter is untouched. */
  function Award(board: Scoreboard, scorer: Player): (b: Scoreboard)
    ensures scorer == Player1 ==> b.player1 == board.player1 + 1 && b.player2 == board.player2
    ensures scorer == Player2 ==> b.player2 == board.player2 + 1 && b.player1 == board.player1
  {
    match scorer
    case Player1 => board.(player1 := board.player1 + 1)
    case Player2 => board.(player2 := board.player2 + 1)
  }

  /** The scoreboard after `scored` has looked at the ball once. */
  function AfterGoal(board: Scoreboard, g: Goal): Scoreboard
  {
    match g
    case NoGoal => board
    case GoalFor(p) => Award(board, p)
  }

  /** In `scored` counters never go down, at most one of them moves, and the
      total goes up by exactly one on a goal and not at all otherwise. */
  lemma AfterGoalMonotone(board: Scoreboard, g: Goal)
    ensures var b := AfterGoal(board, g);
      && b.player1 >= board.player1 && b.player2 >= board.player2
      && (b.player1 == board.player1 || b.player2 == board.player2)
      && b.player1 + b.player2 == board.player1 + board.player2 + (if g.GoalFor? then 1 else 0)
  {
  }

}
