/**
 * Types shared by the game's systems: the two sides of the match, the engine's
 * timer as a plain record, and an optional value.
 */
module Components {

  datatype Option<T> = None | Some(value: T)

  /** The side a point, a hit or a score belongs to (the game's `Player` enum). */
  datatype Side = User | Opponent

  function Other(s: Side): (r: Side)
    ensures r != s
  {
    match s
    case User => Opponent
    case Opponent => User
  }

  /**
   * An engine timer, in milliseconds. `justFinished` is what the engine reports
   * after the most recent tick; how a tick computes it is the engine's business.
   */
  datatype Timer = Timer(elapsed: nat, duration: nat, repeating: bool, justFinished: bool)

  /** A freshly created timer: nothing elapsed, not finished. */
  function NewTimer(duration: nat, repeating: bool): Timer
  {
    Timer(0, duration, repeating, false)
  }

  /** The timer after the engine ticked it, given what the tick produced. */
  function Ticked(t: Timer, elapsed: nat, justFinished: bool): Timer
  {
    t.(elapsed := elapsed, justFinished := justFinished)
  }
}
