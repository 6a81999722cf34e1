/** The round state machine: the Enter-key transitions and the serve draw
    shared by the on-enter routines of Start and Serve. */
module GameState {

  import opened Players
  import opened Ball

  datatype AppState = Play | Start | Serve

  /** The state after a frame in which Enter was or was not just pressed:
      Start goes to Serve, Serve goes to Play, Play ignores the key. */
  function NextState(current: AppState, enterJustPressed: bool): (next: AppState)
    ensures !enterJustPressed ==> next == current
    ensures next == Start <==> current == Start && !enterJustPressed
    ensures next == Serve <==> (current == Start && enterJustPressed) || (current == Serve && !enterJustPressed)
    ensures next == Play <==> current == Play || (current == Serve && enterJustPressed)
  {
    if enterJustPressed then
      match current
      case Play => Play
      case Start => Serve
      case Serve => Play
    else
      current
  }

  /** The state the Enter-key system alone leaves after a run of frames, one
      Enter reading per frame (goals, which also set the state, are not included). */
  function AfterFrames(s: AppState, presses: seq<bool>): AppState
    decreases |presses|
  {
    if presses == [] then s else AfterFrames(NextState(s, presses[0]), presses[1..])
  }

  /** The state after `n` consecutive presses of Enter. */
  function Forward(s: AppState, n: nat): AppState
    decreases n
  {
    if n == 0 then s else Forward(NextState(s, true), n - 1)
  }

  /** How many frames of a run saw Enter pressed. */
  function Count(presses: seq<bool>): nat
    decreases |presses|
  {
    if presses == [] then 0 else (if presses[0] then 1 else 0) + Count(presses[1..])
  }

  /** For the Enter-key system alone (goals are not part of `AfterFrames`),
      frames without an Enter press never change the state: only the number
      of presses matters. */
  lemma {:induction false} OnlyPressesCount(s: AppState, presses: seq<bool>)
    ensures AfterFrames(s, presses) == Forward(s, Count(presses))
    decreases |presses|
  {
    if presses != [] {
      OnlyPressesCount(NextState(s, presses[0]), presses[1..]);
    }
  }

  /** Play is never left by pressing Enter. */
  lemma {:induction false} PlayAbsorbs(n: nat)
    ensures Forward(Play, n) == Play
    decreases n
  {
    if n > 0 {
      PlayAbsorbs(n - 1);
    }
  }

  /** From Start, the first press reaches Serve, the second Play, and the
      state stays in Play from then on. */
  lemma {:induction false} PressesFromStart(presses: seq<bool>)
    ensures AfterFrames(Start, presses) ==
      if Count(presses) == 0 then Start else if Count(presses) == 1 then Serve else Play
  {
    OnlyPressesCount(Start, presses);
    var n := Count(presses);
    if n >= 2 {
      assert Forward(Start, n) == Forward(Serve, n - 1) == Forward(Play, n - 2);
      PlayAbsorbs(n - 2);
    }
  }

  /** The serve direction: -1 when player 2 serves, +1 otherwise. */
  function ServeSign(server: Player): (sign: real)
    ensures sign == -1.0 <==> server == Player2
    ensures sign == 1.0 <==> server == Player1
  {
    match server
    case Player2 => -1.0
    case _ => 1.0
  }

  /** The random draws `gen_range` may return for a serve. */
  predicate ServeDraws(drawX: real, drawY: real)
  {
    BALL_INITIAL_X_MIN <= drawX < BALL_INITIAL_X_MAX && BALL_INITIAL_Y_MIN <= drawY < BALL_INITIAL_Y_MAX
  }

  /** The velocity a serve gives the ball: towards player 2's side (positive x)
      when player 1 serves and towards player 1's side when player 2 serves,
      with speed along x in `[140, 200)` and vertical velocity in `[-50, 50)`. */
  function ServeVelocity(server: Player, drawX: real, drawY: real): (v: Vec2)
    requires ServeDraws(drawX, drawY)
    ensures v.x < 0.0 <==> server == Player2
    ensures v.x > 0.0 <==> server == Player1
    ensures BALL_INITIAL_X_MIN <= (if v.x < 0.0 then -v.x else v.x) < BALL_INITIAL_X_MAX
    ensures BALL_INITIAL_Y_MIN <= v.y < BALL_INITIAL_Y_MAX
  {
    Vec2(ServeSign(server) * drawX, drawY)
  }

}
