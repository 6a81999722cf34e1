/** The whole match: the entities and resources the systems share, with one
    method per system and `Tick`, one frame of them in a fixed order. */
module Game {

  import opened Players
  import opened Ball
  import opened Paddles
  import opened Score
  import opened GameState

  /** What the presentation layer hands the core each frame. */
  datatype FrameInput = FrameInput(enterJustPressed: bool, keys: Keys, dt: real)

  class Match {
    /** The primary window's size; the window is not resizable. */
    const width: real
    const height: real
    /** The `Server` resource; nothing in this revision writes it. */
    const server: Player
    var state: AppState
    var scoreboard: Scoreboard
    /** The ball's translation and its `Ball` component's velocity. */
    var ballPos: Vec2
    var ballVel: Vec2
    /** The two paddle entities, player 1's first. */
    var paddles: seq<Paddle>

    /** What every system keeps: the paddles stay where setup put them along
        x, and (in a window tall enough for a paddle) inside the window along y. */
    ghost predicate Valid()
      reads this
    {
      && width > 0.0
      && |paddles| == 2
      && paddles[0].player == Player1 && paddles[1].player == Player2
      && (forall i :: 0 <= i < 2 ==> paddles[i].x == PaddleX(paddles[i].player, width))
      && (height >= PADDLE_SCALE_Y ==>
            forall i :: 0 <= i < 2 ==> MinHeight(height) <= paddles[i].y <= MaxHeight(height))
    }

    /** What holds between frames: outside Play the ball rests at the centre,
        and, since every goal sends the match back to Start, the scoreboard
        reads 0-0. */
    ghost predicate Settled()
      reads this
    {
      && (state != Play ==> ballPos == Origin)
      && scoreboard == InitialScoreboard()
    }

    /** The world after the startup systems: state Start, a 0-0 scoreboard,
        a still ball at the origin, both paddles centred on their own sides,
        and player 1 to serve. */
    constructor (width: real, height: real)
      requires width > 0.0
      ensures this.width == width && this.height == height
      ensures server == Player1
      ensures state == Start && scoreboard == InitialScoreboard()
      ensures ballPos == Origin && ballVel == Origin
      ensures paddles == [Paddle(Player1, PaddleX(Player1, width), 0.0),
                          Paddle(Player2, PaddleX(Player2, width), 0.0)]
      ensures Valid() && Settled()
    {
      this.width := width;
      this.height := height;
      server := Player1;
      state := Start;
      scoreboard := Scoreboard(0, 0);
      ballPos := Vec2(0.0, 0.0);
      ballVel := Vec2(0.0, 0.0);
      paddles := [Paddle(Player1, 0.0 - width / 2.0 + 20.0, 0.0),
                  Paddle(Player2, 0.0 + width / 2.0 - 20.0, 0.0)];
    }

    /** `change_state_using_enter_key`: Enter moves Start to Serve and Serve to
        Play, and is ignored in Play. */
    method ChangeStateUsingEnterKey(enterJustPressed: bool)
      modifies this
      ensures state == NextState(old(state), enterJustPressed)
      ensures scoreboard == old(scoreboard) && paddles == old(paddles)
      ensures ballPos == old(ballPos) && ballVel == old(ballVel)
    {
      if enterJustPressed {
        match state {
          case Play =>
          case Start => state := Serve;
          case Serve => state := Play;
        }
      }
    }

    /** `enter_start_state`: zero both counters, re-centre the ball and serve
        it towards the side away from the server. */
    method EnterStartState(drawX: real, drawY: real)
      requires ServeDraws(drawX, drawY)
      modifies this
      ensures scoreboard == InitialScoreboard()
      ensures ballPos == Origin
      ensures ballVel == ServeVelocity(server, drawX, drawY)
      ensures state == old(state) && paddles == old(paddles)
    {
      scoreboard := scoreboard.(player1 := 0);
      scoreboard := scoreboard.(player2 := 0);

      ballPos := ballPos.(x := 0.0);
      ballPos := ballPos.(y := 0.0);

      var serve := 1.0;
      match server {
        case Player2 => serve := -1.0;
        case _ =>
      }

      ballVel := ballVel.(x := serve * drawX);
      ballVel := ballVel.(y := drawY);
    }

    /** `enter_serve_state`: as entering Start, but the scoreboard is kept. */
    method EnterServeState(drawX: real, drawY: real)
      requires ServeDraws(drawX, drawY)
      modifies this
      ensures ballPos == Origin
      ensures ballVel == ServeVelocity(server, drawX, drawY)
      ensures scoreboard == old(scoreboard)
      ensures state == old(state) && paddles == old(paddles)
    {
      ballPos := ballPos.(x := 0.0);
      ballPos := ballPos.(y := 0.0);

      var serve := 1.0;
      match server {
        case Player2 => serve := -1.0;
        case _ =>
      }

      ballVel := ballVel.(x := serve * drawX);
      ballVel := ballVel.(y := drawY);
    }

    /** `scored`: a ball past the right wall is a point for player 1, one past
        the left wall a point for player 2; either sends the match to Start.
        The system runs in every state. */
    method Scored()
      modifies this
      ensures scoreboard == AfterGoal(old(scoreboard), GoalScored(ballPos.x, width))
      ensures state == if GoalScored(ballPos.x, width).GoalFor? then Start else old(state)
      ensures ballPos == old(ballPos) && ballVel == old(ballVel) && paddles == old(paddles)
    {
      if ballPos.x > width / 2.0 {
        scoreboard := scoreboard.(player1 := scoreboard.player1 + 1);
        state := Start;
      } else if ballPos.x < -width / 2.0 {
        scoreboard := scoreboard.(player2 := scoreboard.player2 + 1);
        state := Start;
      }
    }

    /** `paddle_movement`: each paddle moves by its own keys and is clamped to
        the window; only its y is written. */
    method PaddleMovement(keys: Keys, dt: real)
      requires Valid()
      modifies this
      ensures Valid()
      ensures |paddles| == |old(paddles)|
      ensures forall i :: 0 <= i < |paddles| ==>
        paddles[i] == old(paddles[i]).(y := Clamp(Target(old(paddles[i]).player, old(paddles[i]).y, keys, dt), height))
      ensures state == old(state) && scoreboard == old(scoreboard)
      ensures ballPos == old(ballPos) && ballVel == old(ballVel)
    {
      var ps := paddles;
      for i := 0 to |ps|
        invariant unchanged(this)
        invariant |ps| == |old(paddles)|
        invariant forall j :: 0 <= j < i ==>
          ps[j] == old(paddles[j]).(y := Clamp(Target(old(paddles[j]).player, old(paddles[j]).y, keys, dt), height))
        invariant forall j :: i <= j < |ps| ==> ps[j] == old(paddles[j])
      {
        var y := NextPaddleY(ps[i].player, ps[i].y, keys, dt, height);
        ps := ps[i := ps[i].(y := y)];
      }
      paddles := ps;
    }

    /** `ball_movement`, registered to run only in Play: one step of the ball
        along its velocity, which it leaves as it is. */
    method BallMovement(dt: real)
      modifies this
      ensures ballPos == if old(state) == Play then Advance(old(ballPos), ballVel, dt) else old(ballPos)
      ensures ballVel == old(ballVel)
      ensures state == old(state) && scoreboard == old(scoreboard) && paddles == old(paddles)
    {
      if state == Play {
        ballPos := ballPos.(x := ballPos.x + ballVel.x * dt);
        ballPos := ballPos.(y := ballPos.y + ballVel.y * dt);
      }
    }

    /** One frame: the Enter key (and the on-enter routine of Serve if it was
        entered), the paddles, the ball, then goal detection (and the on-enter
        routine of Start after a goal). `drawX`, `drawY` are the frame's serve
        draws. Returns the goal seen this frame, if any. */
    method Tick(input: FrameInput, drawX: real, drawY: real) returns (goal: Goal)
      requires Valid() && Settled()
      requires ServeDraws(drawX, drawY)
      modifies this
      ensures Valid() && Settled()
      ensures goal ==
        if NextState(old(state), input.enterJustPressed) == Play
        then GoalScored(Advance(old(ballPos), old(ballVel), input.dt).x, width)
        else NoGoal
      ensures goal.GoalFor? ==> NextState(old(state), input.enterJustPressed) == Play && state == Start
      ensures goal == NoGoal ==> state == NextState(old(state), input.enterJustPressed)
      ensures ballPos ==
        if goal.GoalFor? then Origin
        else if NextState(old(state), input.enterJustPressed) == Play
        then Advance(old(ballPos), old(ballVel), input.dt)
        else Origin
      ensures ballVel ==
        if goal.GoalFor? || (old(state) == Start && input.enterJustPressed)
        then ServeVelocity(server, drawX, drawY)
        else old(ballVel)
      ensures forall i :: 0 <= i < |paddles| ==>
        paddles[i].y == Clamp(Target(old(paddles[i]).player, old(paddles[i]).y, input.keys, input.dt), height)
    {
      var before := state;
      ChangeStateUsingEnterKey(input.enterJustPressed);
      if state != before && state == Serve {
        EnterServeState(drawX, drawY);
      }
      PaddleMovement(input.keys, input.dt);
      BallMovement(input.dt);
      goal := GoalScored(ballPos.x, width);
      Scored();
      if goal.GoalFor? {
        EnterStartState(drawX, drawY);
      }
    }
  }

}
