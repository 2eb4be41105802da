/**
 * Sprite animations of the older snapshot: the same frame lookup with a
 * fallback to sprite 0, an animation reset on every change of the player's
 * state, and a one-shot transition to the queued next state when a
 * non-repeating animation finishes.
 */
module LegacyAnimation {
  import opened Components
  import opened GameAnimation

  /** The older snapshot's player states (no Charge yet). */
  datatype LegacyState = Idle | Run | Swing

  /** The older snapshot's preset animations, one per state. */
  datatype Presets = Presets(idle: SpriteAnimation, run: SpriteAnimation, swing: SpriteAnimation)

  /** Every preset is built afresh: its timer has not started and has not finished. */
  predicate Fresh(presets: Presets)
  {
    && presets.idle.timer.elapsed == 0 && !presets.idle.timer.justFinished
    && presets.run.timer.elapsed == 0 && !presets.run.timer.justFinished
    && presets.swing.timer.elapsed == 0 && !presets.swing.timer.justFinished
  }

  function PresetFor(presets: Presets, s: LegacyState): (a: SpriteAnimation)
    ensures s == Idle ==> a == presets.idle
    ensures s == Run ==> a == presets.run
    ensures s == Swing ==> a == presets.swing
    ensures Fresh(presets) ==> a.timer.elapsed == 0 && !a.timer.justFinished
  {
    match s
    case Idle => presets.idle
    case Run => presets.run
    case Swing => presets.swing
  }

  /** The older lookup: the first frame reaching `elapsed`, else sprite index 0. */
  function LegacyShownIndex(frames: seq<Frame>, elapsed: nat): nat
  {
    match FramePosition(frames, elapsed)
    case Some(k) => frames[k].spriteIndex
    case None => 0
  }

  /** An animation without frames shows sprite 0 instead of panicking. */
  lemma NoFramesShowSpriteZero(elapsed: nat)
    ensures LegacyShownIndex([], elapsed) == 0
  {
  }

  /**
   * The older and the current lookups agree except past the end of the
   * animation, where the older one shows sprite 0 instead of the last frame.
   */
  lemma LegacyDiffersOnlyPastTheEnd(frames: seq<Frame>, elapsed: nat)
    requires |frames| > 0
    ensures Cumulative(frames, |frames| - 1) >= elapsed ==>
              LegacyShownIndex(frames, elapsed) == ShownIndex(frames, elapsed)
    ensures Cumulative(frames, |frames| - 1) < elapsed ==> LegacyShownIndex(frames, elapsed) == 0
  {
    NothingFoundIffPastTheEnd(frames, elapsed);
  }

  /** change_player_state's guard: a queued state and a one-shot animation that just finished. */
  predicate TransitionFires(timer: Timer, next: Option<LegacyState>)
  {
    next.Some? && timer.justFinished && !timer.repeating
  }

  /** A repeating animation never fires a transition. */
  lemma RepeatingNeverFires(timer: Timer, next: Option<LegacyState>)
    requires timer.repeating
    ensures !TransitionFires(timer, next)
  {
  }

  /** A player entity of the older snapshot. */
  class LegacyPlayer {
    var state: LegacyState
    /** Set by every write to `state`, consumed by update_current_player_animation. */
    var stateChanged: bool
    var animation: SpriteAnimation
    /** The sprite index on screen. */
    var index: nat
    /** The NextPlayerState component, when attached. */
    var next: Option<LegacyState>

    constructor (state: LegacyState, animation: SpriteAnimation, next: Option<LegacyState>)
      ensures this.state == state && stateChanged && this.animation == animation
      ensures index == 0 && this.next == next
    {
      this.state := state;
      stateChanged := true;
      this.animation := animation;
      index := 0;
      this.next := next;
    }

    /** advance_animations (older): the timer takes the engine's tick, then the frame is looked up. */
    method AdvanceAnimation(elapsed: nat, justFinished: bool)
      modifies this`animation, this`index
      ensures animation == old(animation).(timer := Ticked(old(animation).timer, elapsed, justFinished))
      ensures index == LegacyShownIndex(animation.frames, elapsed)
    {
      animation := animation.(timer := Ticked(animation.timer, elapsed, justFinished));
      var found := FindFrame(animation.frames, animation.timer.elapsed);
      index := match found
        case Some(k) => animation.frames[k].spriteIndex
        case None => 0;
    }

    /** update_current_player_animation: a changed state restarts the matching preset. */
    method UpdateCurrentAnimation(presets: Presets)
      requires Fresh(presets)
      modifies this`animation, this`stateChanged
      ensures !stateChanged
      ensures animation == if old(stateChanged) then PresetFor(presets, state) else old(animation)
      ensures old(stateChanged) ==> animation.timer.elapsed == 0 && !animation.timer.justFinished
    {
      if stateChanged {
        animation := PresetFor(presets, state);
        stateChanged := false;
      }
    }

    /**
     * change_player_state: when the transition fires, the queued state becomes
     * the state, its preset replaces the animation and the queue is emptied, so
     * the transition cannot fire again.
     */
    method ChangeState(presets: Presets)
      requires Fresh(presets)
      modifies this`state, this`stateChanged, this`animation, this`next
      ensures old(TransitionFires(animation.timer, next)) ==>
                state == old(next).value && stateChanged && next == None &&
                animation == PresetFor(presets, state) &&
                animation.timer.elapsed == 0 && !animation.timer.justFinished
      ensures !old(TransitionFires(animation.timer, next)) ==>
                state == old(state) && stateChanged == old(stateChanged) &&
                animation == old(animation) && next == old(next)
      ensures !TransitionFires(animation.timer, next)
    {
      if next.Some? && animation.timer.justFinished && !animation.timer.repeating {
        state := next.value;
        stateChanged := true;
        animation := PresetFor(presets, state);
        next := None;
      }
    }
  }
}
