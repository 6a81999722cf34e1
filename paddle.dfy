/** The keyboard paddle controller: direction selection, integration and the
    clamp that keeps each paddle on screen. */
module Paddles {

  import opened Players

  const PADDLE_SPEED: real := 500.0
  const PADDLE_SCALE_X: real := 20.0
  const PADDLE_SCALE_Y: real := 100.0

  /** A paddle entity: the player it belongs to and its translation. */
  datatype Paddle = Paddle(player: Player, x: real, y: real)

  /** The keys held down during a frame (`Input::pressed`), as far as the
      controller reads them. */
  datatype Keys = Keys(w: bool, s: bool, up: bool, down: bool)

  /** The key that moves this player's paddle up, and the one that moves it down. */
  function UpKey(player: Player, keys: Keys): bool
  {
    match player
    case Player1 => keys.w
    case Player2 => keys.up
  }

  function DownKey(player: Player, keys: Keys): bool
  {
    match player
    case Player1 => keys.s
    case Player2 => keys.down
  }

  /** The direction the controller picks: up beats down when both are held. */
  function Direction(player: Player, keys: Keys): (d: real)
    ensures d == 1.0 <==> UpKey(player, keys)
    ensures d == -1.0 <==> !UpKey(player, keys) && DownKey(player, keys)
    ensures d == 0.0 <==> !UpKey(player, keys) && !DownKey(player, keys)
  {
    match player
    case Player1 => if keys.w then 1.0 else if keys.s then -1.0 else 0.0
    case Player2 => if keys.up then 1.0 else if keys.down then -1.0 else 0.0
  }

  /** Each paddle answers only to its own key pair. */
  lemma DirectionOwnKeysOnly(keys: Keys, w: bool, s: bool, up: bool, down: bool)
    ensures Direction(Player1, keys) == Direction(Player1, keys.(up := up, down := down))
    ensures Direction(Player2, keys) == Direction(Player2, keys.(w := w, s := s))
  {
  }

  /** Highest and lowest centre a paddle may have in a window `height` tall. */
  function MaxHeight(height: real): real { height / 2.0 - PADDLE_SCALE_Y / 2.0 }
  function MinHeight(height: real): real { -height / 2.0 + PADDLE_SCALE_Y / 2.0 }

  /** Where the paddle would go if nothing stopped it. */
  function Target(player: Player, y: real, keys: Keys, dt: real): real
  {
    y + Direction(player, keys) * PADDLE_SPEED * dt
  }

  /** The clamp: a target above the top bound is pulled down to it, else one
      below the bottom bound is pushed up to it, else it is kept. */
  function Clamp(target: real, height: real): (y: real)
    ensures height >= PADDLE_SCALE_Y ==> MinHeight(height) <= y <= MaxHeight(height)
    ensures MinHeight(height) <= target <= MaxHeight(height) ==> y == target
    ensures target > MaxHeight(height) ==> y == MaxHeight(height)
    ensures target <= MaxHeight(height) && target < MinHeight(height) ==> y == MinHeight(height)
  {
    if target > MaxHeight(height) then MaxHeight(height)
    else if target < MinHeight(height) then MinHeight(height)
    else target
  }

  /** Clamping a clamped position changes nothing. */
  lemma ClampIdempotent(target: real, height: real)
    requires height >= PADDLE_SCALE_Y
    ensures Clamp(Clamp(target, height), height) == Clamp(target, height)
  {
  }

  /** Where setup puts a paddle: 20 units inside its own side of the window. */
  function PaddleX(player: Player, width: real): real
  {
    match player
    case Player1 => 0.0 - width / 2.0 + 20.0
    case Player2 => 0.0 + width / 2.0 - 20.0
  }

  /** The body of `paddle_movement` for one paddle: pick a direction, move, clamp. */
  method NextPaddleY(player: Player, y: real, keys: Keys, dt: real, height: real)
    returns (yTranslation: real)
    ensures yTranslation == Clamp(Target(player, y, keys, dt), height)
    ensures height >= PADDLE_SCALE_Y ==> MinHeight(height) <= yTranslation <= MaxHeight(height)
    ensures (!UpKey(player, keys) && !DownKey(player, keys) && MinHeight(height) <= y <= MaxHeight(height))
      ==> yTranslation == y
  {
    var direction: real := 0.0;
    match player {
      case Player1 =>
        if keys.w {
          direction := 1.0;
        } else if keys.s {
          direction := -1.0;
        }
      case Player2 =>
        if keys.up {
          direction := 1.0;
        } else if keys.down {
          direction := -1.0;
        }
    }

    yTranslation := y + direction * PADDLE_SPEED * dt;
    var maxHeight := height / 2.0 - PADDLE_SCALE_Y / 2.0;
    var minHeight := -height / 2.0 + PADDLE_SCALE_Y / 2.0;

    if yTranslation > maxHeight {
      yTranslation := maxHeight;
    } else if yTranslation < minHeight {
      yTranslation := minHeight;
    }
  }

}
