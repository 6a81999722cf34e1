# Pong rules engine (early Bevy revision), modelled in Dafny

This project models the game logic of an early revision of a two-player Pong written in Rust on
the Bevy engine. The program is a handful of Bevy systems that act on shared resources and
entities. Here they are gathered into one `Match` object (module `Game`):

- the round state (`AppState`: Start, Serve, Play) and the Enter-key transitions between states;
- the on-enter routines of Start and Serve. Both re-centre the ball and draw a serve velocity
  whose x-sign comes from the `Server` resource. Entering Start also zeroes the scoreboard;
- goal detection (`scored`): a strict crossing of a side wall adds one point and requests Start;
- the keyboard paddle controller: W/S and Up/Down, with up winning over down. It integrates y at
  500 units per second and clamps the paddle to the window;
- ball integration (`position += velocity * dt`), which runs only in Play.

Each source file's pure rules are in a module of its own (`Ball`, `Paddles`, `Score`,
`GameState`, with `Players` for the `Player` type). Each system is a method of `Game.Match`,
proved against those rules. `Match.Tick` runs one frame of the systems in a fixed order:
1. the Enter key, then the on-enter routine of Serve if Serve was just entered;
2. the paddles;
3. the ball;
4. goal detection, then the on-enter routine of Start after a goal.

The program registers these systems without any order between them. The order above is the
model's choice.

Positions, velocities and frame times are exact `real`s. The random draws of `gen_range` are
parameters of the on-enter routines and of `Tick`, restricted to the half-open serve ranges
`[140, 200)` and `[-50, 50)`. The window's width and height are fixed fields of the match.

In this revision a goal sends the match to Start, and entering Start zeroes the scoreboard. So a
goal is always followed by a score reset. `Match.Settled` records this, and `Match.Tick` proves
that it holds after every frame: between frames the scoreboard reads 0-0, and outside Play the
ball sits at the centre.

This revision has no Done state, victory score, wall bounce, paddle collision, AI paddle or
server flip. In it:
- goals lead to Start;
- `scored` runs in every state;
- the server is always player 1;
- the ball moves in a straight line.

## Model

| member | source | states |
|---|---|---|
| `Ball.ServeRangesWellFormed` | src/ball.rs:5-8 | The serve ranges are x in [140,200) and y in [-50,50). Both are non-empty, and every serve speed along x is positive |
| `Ball.AdvanceComposes` | src/ball.rs:38-42 | Two movement steps at one velocity equal one step lasting as long as both |
| `Ball.TravelIsOneStep` | src/ball.rs:38-42 | Movement never writes the velocity, so any run of Play frames moves the ball by velocity times the total elapsed time |
| `Paddles.Direction` | src/paddle.rs:62-80 | Direction is +1 exactly when the player's up key (W or Up) is held. It is -1 exactly when only the down key (S or Down) is held, and 0 otherwise, so up wins over down |
| `Paddles.DirectionOwnKeysOnly` | src/paddle.rs:65-80 | Player 1's direction ignores Up/Down and player 2's ignores W/S |
| `Paddles.Clamp` | src/paddle.rs:84-91 | If height >= 100, the result lies in [-(h/2-50), h/2-50]. A target already inside is kept, one above the top is set to the top, and one below the bottom (and not above the top) is set to the bottom |
| `Paddles.ClampIdempotent` | src/paddle.rs:87-94 | Clamping an already clamped position changes nothing |
| `Paddles.NextPaddleY` | src/paddle.rs:60-95 | One paddle's new y is the clamp of `y + direction*500*dt` and lies inside the bounds when h >= 100. With no key held, an in-bounds paddle stays put |
| `Score.InitialScoreboard` | src/score.rs:16-19 | The scoreboard starts at 0-0 |
| `Score.GoalScored` | src/score.rs:115-123 | A goal for player 1 exactly when x > width/2, and for player 2 exactly when x < -width/2 and not x > width/2. No goal exactly when -width/2 <= x <= width/2, walls included |
| `Score.GoalSidesExclusive` | src/score.rs:116-121 | In a window of non-negative width, player 2 scores exactly when x < -width/2. The two branches never compete |
| `Score.Award` | src/score.rs:116-121 | A goal adds exactly 1 to the scorer's counter and leaves the other counter alone |
| `Score.AfterGoalMonotone` | src/score.rs:115-123 | In `scored`, counters never decrease and at most one of them changes. The total rises by 1 on a goal and by 0 otherwise |
| `GameState.NextState` | src/game_state.rs:130-142 | Without Enter the state never changes. With Enter, Start becomes Serve, Serve becomes Play and Play stays Play. The mapping is total over the three states |
| `GameState.OnlyPressesCount` | src/game_state.rs:134-141 | For the Enter-key system alone (iterating `NextState`, without goals), only the number of Enter presses in a run of frames decides the final state |
| `GameState.PlayAbsorbs` | src/game_state.rs:137 | No number of Enter presses leaves Play |
| `GameState.PressesFromStart` | src/game_state.rs:134-141 | From Start: no press keeps Start, one press reaches Serve, two or more reach Play |
| `GameState.ServeSign` | src/game_state.rs:81-86 | The serve sign is -1 exactly when player 2 serves and +1 exactly when player 1 serves |
| `GameState.ServeVelocity` | src/game_state.rs:89-95 | The serve velocity's x is negative exactly when player 2 serves and positive exactly when player 1 serves. Its magnitude lies in [140,200) and its y in [-50,50) |
| `Game.Match.constructor` | src/ball.rs:24-36 | After startup the ball is at the origin with zero velocity and the scoreboard reads 0-0 (src/score.rs:16-19). The state is Start (src/game_state.rs:21) and player 1 serves (src/main.rs:37). Each paddle sits at x = ∓(width/2 - 20) with y = 0 (src/paddle.rs:36, src/paddle.rs:45) |
| `Game.Match.ChangeStateUsingEnterKey` | src/game_state.rs:130-142 | The new state is `NextState(old state, Enter)`, and nothing else changes |
| `Game.Match.EnterStartState` | src/game_state.rs:66-99 | Both counters become 0, the ball goes to (0,0) and its velocity becomes the serve velocity for the server. The state and the paddles are untouched |
| `Game.Match.EnterServeState` | src/game_state.rs:101-128 | The ball goes to (0,0) with a fresh serve velocity. The scoreboard, state and paddles are untouched |
| `Game.Match.Scored` | src/score.rs:107-124 | The scoreboard becomes `AfterGoal(old, GoalScored(x, width))`. The state becomes Start on a goal and is otherwise unchanged. The ball and paddles are untouched |
| `Game.Match.PaddleMovement` | src/paddle.rs:52-97 | Each paddle's y becomes the clamp of its target, and its player and x are kept. Paddles stay in bounds when h >= 100. State, score and ball are untouched |
| `Game.Match.BallMovement` | src/ball.rs:20-43 | In Play the ball advances by `velocity*dt`. In Start and Serve it does not move. The velocity is never written |
| `Game.Match.Tick` | src/game_state.rs:21-25 | Runs the systems registered at src/game_state.rs:21-25, src/paddle.rs:16, src/ball.rs:20 and src/score.rs:21. The returned goal is the one `scored` sees at the moved ball, `GoalScored(Advance(old pos, old vel, dt).x, width)`, when the frame is in Play after the Enter key, and no goal otherwise. One frame keeps the paddle invariants and `Settled` (0-0 score; ball at the centre outside Play). A goal happens only in a frame that is in Play after the Enter key and ends in Start. Otherwise the state is `NextState(old state, Enter)`. The ball ends at the origin after a goal, one step along its old velocity when the frame is in Play without a goal, and at the origin otherwise. Its velocity is a fresh serve velocity after a goal or when Serve is entered, and is otherwise unchanged |

## Left out

- Plugin wiring (`build` in every file) and Bevy's scheduling are left out. `Match.Tick` fixes one frame order, while the program leaves the order to the engine.
- `State::set` is an immediate assignment in the model. Bevy queues the transition and fails (the `unwrap` panics) when the target is already current or a transition is already queued.
- The on-enter routine of the initial Start state, which Bevy runs on the first frame, is not part of the constructor. A caller runs it by calling `EnterStartState` once.
- Sprite, text and camera spawning in the `setup` functions are rendering only. The model keeps only the ball, paddle and scoreboard starting values.
- `update_game_state_text`, `update_scoreboard` and `update_fps_text` only format UI strings.
- The rest of src/main.rs (audio handles, FPS diagnostics, `exit_on_esc_system`) is I/O plumbing. Only `Player` and the `Server` resource are modelled.
- f32 rounding and overflow are left out: positions, velocities and `dt` are exact reals.
- The z coordinate of translations is left out. Only the startup systems write it (src/ball.rs:31, src/paddle.rs:36, src/paddle.rs:45), and no per-frame system reads or writes it.
- `thread_rng` / `gen_range` are foreign randomness. Their results are parameters restricted to the half-open ranges.
- Scoreboard counters are unbounded `nat`s. The program's `u32` overflow is not modelled, since no counter survives past the reset that follows each goal.
- `scored` loops over every entity with a `Ball` component. The program spawns exactly one ball, so the model has one.
- Wall reflection, paddle collision, AI paddles, the `Done` state, a victory score and server flipping are not in this revision of the code.
