/**
 * The player's state machine: Idle and Run follow the arrow keys, pressing the
 * action key starts a Charge, releasing it Swings, and the swing cooldown ends
 * in Idle. Speed, sprite flip and animation are functions of the state and the
 * facing. Each system of the source is a method on one player entity.
 */
module GamePlayer {
  import opened Components
  import opened GameAnimation

  datatype PlayerState = Idle | Run | Charge | Swing

  datatype Facing = Left | Right

  const PLAYER_SPEED: real := 30.0
  const PLAYER_CHARGING_SPEED_FACTOR: real := 0.4
  /** PLAYER_SWING_COOLDOWN_SECS (0.5 s) in milliseconds. */
  const PLAYER_SWING_COOLDOWN_MS: nat := 500

  /** One axis of the movement direction: +1 for the positive key, -1 for the negative one. */
  function Axis(positive: bool, negative: bool): (a: int)
    ensures -1 <= a <= 1
    ensures a == 0 <==> positive == negative
    ensures a == 1 <==> positive && !negative
    ensures a == -1 <==> negative && !positive
  {
    (if positive then 1 else 0) - (if negative then 1 else 0)
  }

  /** `direction.length() > 0`, on the squared length. */
  predicate IsMoving(dx: int, dy: int)
  {
    dx * dx + dy * dy > 0
  }

  /** A direction has positive length exactly when one of its components is nonzero. */
  lemma MovingIffNonzero(dx: int, dy: int)
    ensures IsMoving(dx, dy) <==> dx != 0 || dy != 0
  {
  }

  /** Opposite keys cancel: only Left and Right held is no movement at all. */
  lemma OppositeKeysCancel(right: bool, left: bool, up: bool, down: bool)
    ensures IsMoving(Axis(right, left), Axis(up, down)) <==> right != left || up != down
  {
  }

  /** The state after player_movement_system, given whether the player moves. */
  function MovedState(s: PlayerState, moving: bool): (r: PlayerState)
    ensures s == Charge || s == Swing ==> r == s
    ensures s == Idle || s == Run ==> (r == Run <==> moving) && (r == Idle <==> !moving)
  {
    if moving then (if s == Idle then Run else s)
    else (if s == Run then Idle else s)
  }

  /** The state after begin_charge_system. */
  function ChargedState(s: PlayerState, justPressed: bool): (r: PlayerState)
    ensures r == Charge <==> s == Charge || (justPressed && (s == Idle || s == Run))
    ensures r != Charge ==> r == s
  {
    if justPressed && (s == Idle || s == Run) then Charge else s
  }

  /** The state after release_charge_system. */
  function ReleasedState(s: PlayerState, justReleased: bool): (r: PlayerState)
    ensures r == Swing <==> s == Swing || (s == Charge && justReleased)
    ensures r != s ==> s == Charge && r == Swing
  {
    if justReleased && s == Charge then Swing else s
  }

  /** No input system enters Swing from anything but Charge. */
  lemma SwingOnlyFromCharge(s: PlayerState, moving: bool, pressed: bool, released: bool)
    requires s != Swing
    ensures MovedState(s, moving) != Swing
    ensures ChargedState(s, pressed) != Swing
    ensures ReleasedState(s, released) == Swing ==> s == Charge && released
  {
  }

  /** The speed set by set_player_speed_system. */
  function SpeedFor(s: PlayerState): (v: real)
    ensures s == Idle || s == Run ==> v == PLAYER_SPEED
    ensures s == Charge ==> v == PLAYER_SPEED * PLAYER_CHARGING_SPEED_FACTOR
    ensures v == 0.0 <==> s == Swing
    ensures 0.0 <= v <= PLAYER_SPEED
  {
    match s
    case Idle | Run => PLAYER_SPEED
    case Charge => PLAYER_SPEED * PLAYER_CHARGING_SPEED_FACTOR
    case Swing => 0.0
  }

  /** Facing toward the ball: Right only when the ball is strictly to the right. */
  function FacingToward(ballX: real, playerX: real): (f: Facing)
    ensures f == Right <==> ballX > playerX
    ensures ballX == playerX ==> f == Left
  {
    if ballX - playerX > 0.0 then Right else Left
  }

  /** The sprite's x-flip for a facing. */
  function FlipX(f: Facing): (flip: bool)
    ensures flip <==> f == Left
  {
    match f
    case Right => false
    case Left => true
  }

  /** The mirror factor applied to the swing's sweet spot. */
  function SwingMirror(f: Facing): (m: real)
    ensures m == -1.0 <==> f == Left
    ensures m == 1.0 <==> f == Right
  {
    match f
    case Left => -1.0
    case Right => 1.0
  }

  /**
   * The animation for a state; the opponent's variant exactly when the entity
   * carries the Opponent marker (its sprites are on the sheet's rows from 20 on).
   */
  function AnimationFor(s: PlayerState, opponent: bool): (a: SpriteAnimation)
    ensures |a.frames| > 0
    ensures a.timer.repeating <==> s != Swing
    ensures a.timer.elapsed == 0 && !a.timer.justFinished
    ensures opponent <==> forall i :: 0 <= i < |a.frames| ==> a.frames[i].spriteIndex >= 20
    ensures s == Idle ==> |a.frames| == 4 && a.timer.duration == 700
    ensures s == Run ==> |a.frames| == 4 && a.timer.duration == 800
    ensures s == Charge ==> |a.frames| == 1 && a.timer.duration == 100
    ensures s == Swing ==> a.timer.duration == (if opponent then 350 else 250)
  {
    if !opponent then
      match s
      case Idle => PlayerIdle()
      case Run => PlayerRun()
      case Charge => PlayerCharge()
      case Swing => PlayerSwing()
    else
      match s
      case Idle => OpponentIdle()
      case Run => OpponentRun()
      case Charge => OpponentCharge()
      case Swing => OpponentSwing()
  }

  /** A player entity: its state-machine components and its sprite. */
  class Player {
    var state: PlayerState
    /** Set by every write to `state`, consumed by update_animation_system (change detection). */
    var stateChanged: bool
    var speed: real
    var facing: Facing
    /** The SwingCooldown component, when attached. */
    var cooldown: Option<Timer>
    /** World x-coordinate; position integration is not modelled. */
    var x: real
    const userControlled: bool
    const opponent: bool
    const sprite: Sprite

    /** A swing cooldown is attached exactly while the player swings. */
    ghost predicate Valid()
      reads this
    {
      && (cooldown.Some? <==> state == Swing)
      && (cooldown.Some? ==>
            cooldown.value.duration == PLAYER_SWING_COOLDOWN_MS && !cooldown.value.repeating)
    }

    /**
     * A freshly spawned player: Idle, full speed, facing right, idle animation.
     * `userControlled` and `opponent` stand for the UserControlled and Opponent
     * marker components; player_spawn_system attaches neither.
     */
    constructor (x: real, userControlled: bool, opponent: bool)
      ensures Valid()
      ensures state == Idle && stateChanged && speed == PLAYER_SPEED && facing == Right
      ensures cooldown == None && this.x == x
      ensures this.userControlled == userControlled && this.opponent == opponent
      ensures fresh(sprite) && sprite.animation == PlayerIdle()
    {
      state := Idle;
      stateChanged := true;
      speed := PLAYER_SPEED;
      facing := Right;
      cooldown := None;
      this.x := x;
      this.userControlled := userControlled;
      this.opponent := opponent;
      sprite := new Sprite(PlayerIdle());
    }

    /**
     * player_movement_system (state part): builds the direction key by key and,
     * for a user-controlled player, switches between Idle and Run.
     */
    method Move(right: bool, left: bool, up: bool, down: bool) returns (dx: int, dy: int)
      requires Valid()
      modifies this`state, this`stateChanged
      ensures Valid()
      ensures dx == Axis(right, left) && dy == Axis(up, down)
      ensures state == if userControlled then MovedState(old(state), IsMoving(dx, dy)) else old(state)
      ensures stateChanged == (old(stateChanged) || state != old(state))
    {
      dx, dy := 0, 0;
      if right { dx := dx + 1; }
      if left { dx := dx - 1; }
      if up { dy := dy + 1; }
      if down { dy := dy - 1; }
      if userControlled {
        if dx * dx + dy * dy > 0 {
          if state == Idle {
            state := Run;
            stateChanged := true;
          }
        } else {
          if state == Run {
            state := Idle;
            stateChanged := true;
          }
        }
      }
    }

    /** begin_charge_system: a just-pressed action key starts charging from Idle or Run. */
    method BeginCharge(justPressed: bool)
      requires Valid()
      modifies this`state, this`stateChanged
      ensures Valid()
      ensures state == if userControlled then ChargedState(old(state), justPressed) else old(state)
      ensures stateChanged == (old(stateChanged) || state != old(state))
    {
      if justPressed && userControlled {
        if state == Idle || state == Run {
          state := Charge;
          stateChanged := true;
        }
      }
    }

    /**
     * release_charge_system (state, cooldown, mirror): a just-released action key
     * turns a Charge into a Swing and attaches a one-shot swing cooldown.
     */
    method ReleaseCharge(justReleased: bool) returns (swung: bool, mirror: real)
      requires Valid()
      modifies this`state, this`stateChanged, this`cooldown
      ensures Valid()
      ensures swung <==> userControlled && justReleased && old(state) == Charge
      ensures state == if userControlled then ReleasedState(old(state), justReleased) else old(state)
      ensures cooldown == if swung then Some(NewTimer(PLAYER_SWING_COOLDOWN_MS, false)) else old(cooldown)
      ensures stateChanged == (old(stateChanged) || swung)
      ensures swung ==> mirror == SwingMirror(facing)
    {
      swung, mirror := false, 1.0;
      if justReleased && userControlled {
        if state == Charge {
          state := Swing;
          stateChanged := true;
          cooldown := Some(NewTimer(PLAYER_SWING_COOLDOWN_MS, false));
          mirror := SwingMirror(facing);
          swung := true;
        }
      }
    }

    /**
     * tick_swing_cooldown_system: the cooldown takes the engine's tick; when it
     * has just finished the player becomes Idle and the cooldown is removed.
     */
    method TickSwingCooldown(elapsed: nat, justFinished: bool)
      requires Valid()
      modifies this`state, this`stateChanged, this`cooldown
      ensures Valid()
      ensures old(cooldown).Some? && justFinished ==>
                state == Idle && cooldown == None && stateChanged
      ensures old(cooldown).Some? && !justFinished ==>
                state == old(state) && stateChanged == old(stateChanged) &&
                cooldown == Some(Ticked(old(cooldown).value, elapsed, false))
      ensures old(cooldown).None? ==>
                state == old(state) && stateChanged == old(stateChanged) && cooldown == None
    {
      if cooldown.Some? {
        var timer := Ticked(cooldown.value, elapsed, justFinished);
        if timer.justFinished {
          state := Idle;
          stateChanged := true;
          cooldown := None;
        } else {
          cooldown := Some(timer);
        }
      }
    }

    /** set_player_speed_system: a user-controlled player's speed follows its state. */
    method SetSpeed()
      modifies this`speed
      ensures speed == if userControlled then SpeedFor(state) else old(speed)
    {
      if userControlled {
        speed := SpeedFor(state);
      }
    }

    /**
     * turn_player_toward_ball: in Idle or Run, and only when exactly one ball
     * exists, the player faces the ball.
     */
    method TurnTowardBall(ballXs: seq<real>)
      modifies this`facing
      ensures facing == if (state == Idle || state == Run) && |ballXs| == 1
                        then FacingToward(ballXs[0], x) else old(facing)
    {
      if state == Idle || state == Run {
        if |ballXs| == 1 {
          facing := FacingToward(ballXs[0], x);
        }
      }
    }

    /** flip_sprite_facing_system: the sprite is flipped exactly when facing left. */
    method FlipSpriteFacing()
      modifies sprite`flipX
      ensures sprite.flipX == FlipX(facing)
    {
      sprite.flipX := FlipX(facing);
    }

    /**
     * update_animation_system: after a change of state the animation is
     * replaced by the preset for the new state and side.
     */
    method UpdateAnimation()
      modifies this`stateChanged, sprite`animation
      ensures !stateChanged
      ensures sprite.animation == if old(stateChanged) then AnimationFor(state, opponent) else old(sprite.animation)
    {
      if stateChanged {
        sprite.animation := AnimationFor(state, opponent);
        stateChanged := false;
      }
    }
  }
}
