/** The ball: its serve ranges and the per-frame integration of its position. */
module Ball {

  /** Half-open range `[X_MIN, X_MAX)` of the serve speed along x. */
  const BALL_INITIAL_X_MIN: real := 140.0
  const BALL_INITIAL_X_MAX: real := 200.0
  /** Half-open range `[Y_MIN, Y_MAX)` of the serve velocity along y. */
  const BALL_INITIAL_Y_MIN: real := -50.0
  const BALL_INITIAL_Y_MAX: real := 50.0

  /** A 2-D vector: a translation (its z is left out) or a velocity. */
  datatype Vec2 = Vec2(x: real, y: real)

  const Origin: Vec2 := Vec2(0.0, 0.0)

  /** Both serve ranges are non-empty, so a draw from them always exists,
      and every serve speed along x is strictly positive. */
  lemma ServeRangesWellFormed()
    ensures 0.0 < BALL_INITIAL_X_MIN < BALL_INITIAL_X_MAX
    ensures BALL_INITIAL_Y_MIN < BALL_INITIAL_Y_MAX
  {
  }

  /** Where one frame of `ball_movement` puts a ball at `pos` moving at `vel`
      when the frame lasted `dt` seconds. */
  function Advance(pos: Vec2, vel: Vec2, dt: real): Vec2
  {
    Vec2(pos.x + vel.x * dt, pos.y + vel.y * dt)
  }

  /** The ball after a run of frames in Play, one frame per entry of `dts`;
      the velocity is never written by the movement. */
  function Travel(pos: Vec2, vel: Vec2, dts: seq<real>): Vec2
    decreases |dts|
  {
    if dts == [] then pos else Travel(Advance(pos, vel, dts[0]), vel, dts[1..])
  }

  function Sum(dts: seq<real>): real
    decreases |dts|
  {
    if dts == [] then 0.0 else dts[0] + Sum(dts[1..])
  }

  /** Two frames at the same velocity move the ball as far as one frame
      lasting as long as both. */
  lemma AdvanceComposes(pos: Vec2, vel: Vec2, a: real, b: real)
    ensures Advance(Advance(pos, vel, a), vel, b) == Advance(pos, vel, a + b)
  {
  }

  /** Because movement never changes the velocity, any run of frames in Play
      moves the ball by `vel` times the total elapsed time. */
  lemma {:induction false} TravelIsOneStep(pos: Vec2, vel: Vec2, dts: seq<real>)
    ensures Travel(pos, vel, dts) == Advance(pos, vel, Sum(dts))
    decreases |dts|
  {
    if dts == [] {
      assert Advance(pos, vel, 0.0) == pos;
    } else {
      TravelIsOneStep(Advance(pos, vel, dts[0]), vel, dts[1..]);
      AdvanceComposes(pos, vel, dts[0], Sum(dts[1..]));
    }
  }

}
