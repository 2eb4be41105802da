/**
 * Sprite animations of the current snapshot: an animation is a list of frames
 * (sprite index, duration) and a timer whose duration is the sum of the frame
 * durations. Each frame the sprite shows the first frame whose cumulative
 * duration reaches the timer's elapsed time, or the last frame when none does.
 */
module GameAnimation {
  import opened Components

  /** One frame: which sprite of the sheet to show, and for how many milliseconds. */
  datatype Frame = Frame(spriteIndex: nat, duration: nat)

  datatype SpriteAnimation = SpriteAnimation(frames: seq<Frame>, timer: Timer)

  /** Sum of a list of durations. */
  function SumDurations(ds: seq<nat>): nat
  {
    if ds == [] then 0 else ds[0] + SumDurations(ds[1..])
  }

  /** Sum of the durations of a list of frames. */
  function TotalDuration(frames: seq<Frame>): nat
  {
    if frames == [] then 0 else frames[0].duration + TotalDuration(frames[1..])
  }

  /** Cumulative duration of frames 0..k, both included. */
  function Cumulative(frames: seq<Frame>, k: nat): nat
    requires k < |frames|
  {
    TotalDuration(frames[..k + 1])
  }

  /** Pairs indices[i] with durations[i], in order (the zip of the two arrays). */
  function Zip(indices: seq<nat>, durations: seq<nat>): (frames: seq<Frame>)
    requires |indices| == |durations|
    ensures |frames| == |indices|
    ensures forall i :: 0 <= i < |frames| ==> frames[i] == Frame(indices[i], durations[i])
    ensures TotalDuration(frames) == SumDurations(durations)
  {
    if indices == [] then []
    else [Frame(indices[0], durations[0])] + Zip(indices[1..], durations[1..])
  }

  /**
   * SpriteAnimation::new: one frame per index/duration pair, and a fresh timer
   * whose duration is the sum of the durations, repeating as asked.
   */
  function New(indices: seq<nat>, durations: seq<nat>, repeating: bool): (a: SpriteAnimation)
    requires |indices| == |durations|
    ensures |a.frames| == |indices|
    ensures forall i :: 0 <= i < |a.frames| ==>
              a.frames[i].spriteIndex == indices[i] && a.frames[i].duration == durations[i]
    ensures a.timer.duration == TotalDuration(a.frames) == SumDurations(durations)
    ensures a.timer.repeating == repeating
    ensures a.timer.elapsed == 0 && !a.timer.justFinished
  {
    SpriteAnimation(Zip(indices, durations), NewTimer(SumDurations(durations), repeating))
  }

  // The presets. Durations are the source's seconds written as milliseconds.

  function PlayerServe(): (a: SpriteAnimation)
    ensures |a.frames| == 4 && !a.timer.repeating && a.timer.duration == 1700
  {
    New([0, 1, 2, 3], [1000, 300, 200, 200], false)
  }

  function PlayerIdle(): (a: SpriteAnimation)
    ensures |a.frames| == 4 && a.timer.repeating && a.timer.duration == 700
  {
    New([4, 5, 6, 7], [300, 100, 200, 100], true)
  }

  /** The sheet's run frames are off by one, so the cycle starts at sprite 9. */
  function PlayerRun(): (a: SpriteAnimation)
    ensures |a.frames| == 4 && a.timer.repeating && a.timer.duration == 800
  {
    New([9, 10, 11, 8], [200, 200, 200, 200], true)
  }

  function PlayerCharge(): (a: SpriteAnimation)
    ensures |a.frames| == 1 && a.timer.repeating && a.timer.duration == 100
  {
    New([12], [100], true)
  }

  function PlayerSwing(): (a: SpriteAnimation)
    ensures |a.frames| == 2 && !a.timer.repeating && a.timer.duration == 250
  {
    New([13, 14], [50, 200], false)
  }

  function OpponentIdle(): (a: SpriteAnimation)
    ensures |a.frames| == 4 && a.timer.repeating && a.timer.duration == 700
  {
    New([20, 21, 22, 23], [300, 100, 200, 100], true)
  }

  function OpponentRun(): (a: SpriteAnimation)
    ensures |a.frames| == 4 && a.timer.repeating && a.timer.duration == 800
  {
    New([25, 26, 27, 24], [200, 200, 200, 200], true)
  }

  function OpponentCharge(): (a: SpriteAnimation)
    ensures |a.frames| == 1 && a.timer.repeating && a.timer.duration == 100
  {
    New([28], [100], true)
  }

  function OpponentSwing(): (a: SpriteAnimation)
    ensures |a.frames| == 3 && !a.timer.repeating && a.timer.duration == 350
  {
    New([28, 29, 30], [100, 50, 200], false)
  }

  lemma {:induction false} TotalDurationAppend(frames: seq<Frame>, f: Frame)
    ensures TotalDuration(frames + [f]) == TotalDuration(frames) + f.duration
  {
    if frames != [] {
      assert (frames + [f])[1..] == frames[1..] + [f];
      TotalDurationAppend(frames[1..], f);
    }
  }

  /**
   * The reference definition of the frame lookup: the position of the first
   * frame whose cumulative duration reaches `elapsed`, if any.
   */
  function FramePosition(frames: seq<Frame>, elapsed: nat): (r: Option<nat>)
    ensures r.Some? ==> r.value < |frames|
  {
    if frames == [] then None
    else if frames[0].duration >= elapsed then Some(0)
    else
      match FramePosition(frames[1..], elapsed - frames[0].duration)
      case None => None
      case Some(k) => Some(k + 1)
  }

  /** Cumulative durations of a list are its head's duration plus those of its tail. */
  lemma CumulativeShift(frames: seq<Frame>, k: nat)
    requires k + 1 < |frames|
    ensures Cumulative(frames, k + 1) == frames[0].duration + Cumulative(frames[1..], k)
  {
    assert frames[..k + 2][1..] == frames[1..][..k + 1];
  }

  lemma CumulativeFirst(frames: seq<Frame>)
    requires |frames| > 0
    ensures Cumulative(frames, 0) == frames[0].duration
  {
    var s := frames[..1];
    assert s[1..] == [];
    assert TotalDuration(s) == s[0].duration + TotalDuration(s[1..]);
  }

  /** Adding frames never lowers the cumulative duration. */
  lemma {:induction false} CumulativeMonotone(frames: seq<Frame>, j: nat, k: nat)
    requires j <= k < |frames|
    ensures Cumulative(frames, j) <= Cumulative(frames, k)
    decreases k - j
  {
    if j < k {
      CumulativeMonotone(frames, j, k - 1);
      assert frames[..k + 1] == frames[..k] + [frames[k]];
      TotalDurationAppend(frames[..k], frames[k]);
    }
  }

  /**
   * FramePosition finds exactly the first frame whose cumulative duration is at
   * least `elapsed`, and finds nothing only when no frame reaches it.
   */
  lemma {:induction false} FramePositionIsFirstReaching(frames: seq<Frame>, elapsed: nat)
    ensures match FramePosition(frames, elapsed)
            case Some(k) =>
              k < |frames| && Cumulative(frames, k) >= elapsed &&
              forall j :: 0 <= j < k ==> Cumulative(frames, j) < elapsed
            case None =>
              forall j :: 0 <= j < |frames| ==> Cumulative(frames, j) < elapsed
  {
    if frames == [] {
    } else {
      CumulativeFirst(frames);
      if frames[0].duration < elapsed {
        var rest, e := frames[1..], elapsed - frames[0].duration;
        FramePositionIsFirstReaching(rest, e);
        forall j | 0 <= j < |rest|
          ensures Cumulative(frames, j + 1) == frames[0].duration + Cumulative(rest, j)
        {
          CumulativeShift(frames, j);
        }
        match FramePosition(rest, e)
        case None =>
          forall j | 0 <= j < |frames| ensures Cumulative(frames, j) < elapsed {
            if j > 0 { assert Cumulative(frames, j) == frames[0].duration + Cumulative(rest, j - 1); }
          }
        case Some(k) =>
          forall j | 0 <= j < k + 1 ensures Cumulative(frames, j) < elapsed {
            if j > 0 { assert Cumulative(frames, j) == frames[0].duration + Cumulative(rest, j - 1); }
          }
      }
    }
  }

  /**
   * The `find` over the frames with a running sum: adds each frame's duration
   * to the sum and stops at the first frame where the sum reaches `elapsed`.
   */
  method FindFrame(frames: seq<Frame>, elapsed: nat) returns (pos: Option<nat>)
    ensures pos == FramePosition(frames, elapsed)
  {
    FramePositionIsFirstReaching(frames, elapsed);
    var sum := 0;
    for i := 0 to |frames|
      invariant sum == TotalDuration(frames[..i])
      invariant forall j :: 0 <= j < i ==> Cumulative(frames, j) < elapsed
    {
      assert frames[..i + 1] == frames[..i] + [frames[i]];
      TotalDurationAppend(frames[..i], frames[i]);
      sum := sum + frames[i].duration;
      if sum >= elapsed {
        pos := Some(i);
        assert Cumulative(frames, i) >= elapsed;
        match FramePosition(frames, elapsed)
        case None =>
        case Some(k) => assert !(k < i) && !(i < k);
        return;
      }
    }
    pos := None;
  }

  /** The position of the frame on screen: the one found, or else the last. */
  function ShownPosition(frames: seq<Frame>, elapsed: nat): (p: nat)
    requires |frames| > 0
    ensures p < |frames|
  {
    match FramePosition(frames, elapsed)
    case Some(k) => k
    case None => |frames| - 1
  }

  /** The sprite index shown for `elapsed` (the last frame's when none is reached). */
  function ShownIndex(frames: seq<Frame>, elapsed: nat): nat
    requires |frames| > 0
  {
    frames[ShownPosition(frames, elapsed)].spriteIndex
  }

  /** At the start of an animation its first frame is shown. */
  lemma StartShowsFirstFrame(frames: seq<Frame>)
    requires |frames| > 0
    ensures ShownPosition(frames, 0) == 0
    ensures ShownIndex(frames, 0) == frames[0].spriteIndex
  {
  }

  /** The lookup finds nothing exactly when the whole animation is shorter than `elapsed`. */
  lemma {:induction false} NothingFoundIffPastTheEnd(frames: seq<Frame>, elapsed: nat)
    requires |frames| > 0
    ensures FramePosition(frames, elapsed).None? <==> Cumulative(frames, |frames| - 1) < elapsed
  {
    FramePositionIsFirstReaching(frames, elapsed);
    match FramePosition(frames, elapsed)
    case None =>
    case Some(k) =>
      if k < |frames| - 1 {
        CumulativeMonotone(frames, k, |frames| - 1);
      }
  }

  /** When no frame's cumulative duration reaches `elapsed`, the last frame is shown. */
  lemma PastTheEndShowsLastFrame(frames: seq<Frame>, elapsed: nat)
    requires |frames| > 0
    requires Cumulative(frames, |frames| - 1) < elapsed
    ensures ShownPosition(frames, elapsed) == |frames| - 1
    ensures ShownIndex(frames, elapsed) == frames[|frames| - 1].spriteIndex
  {
    NothingFoundIffPastTheEnd(frames, elapsed);
  }

  /** The shown frame never moves backwards as the elapsed time grows. */
  lemma {:induction false} ShownPositionMonotone(frames: seq<Frame>, e1: nat, e2: nat)
    requires |frames| > 0
    requires e1 <= e2
    ensures ShownPosition(frames, e1) <= ShownPosition(frames, e2)
  {
    FramePositionIsFirstReaching(frames, e1);
    FramePositionIsFirstReaching(frames, e2);
  }

  /** An entity's sprite (its index and x-flip) together with its animation. */
  class Sprite {
    var animation: SpriteAnimation
    var index: nat
    var flipX: bool

    constructor (animation: SpriteAnimation)
      ensures this.animation == animation && index == 0 && !flipX
    {
      this.animation := animation;
      index := 0;
      flipX := false;
    }

    /**
     * advance_animations for one entity: the timer takes the engine's tick, then
     * the sprite shows the frame selected for the new elapsed time. An animation
     * without frames is a panic in the source, hence the precondition.
     */
    method Advance(elapsed: nat, justFinished: bool)
      requires |animation.frames| > 0
      modifies this
      ensures animation == old(animation).(timer := Ticked(old(animation).timer, elapsed, justFinished))
      ensures index == ShownIndex(animation.frames, elapsed)
      ensures flipX == old(flipX)
    {
      animation := animation.(timer := Ticked(animation.timer, elapsed, justFinished));
      var found := FindFrame(animation.frames, animation.timer.elapsed);
      index := match found
        case Some(k) => animation.frames[k].spriteIndex
        case None => animation.frames[|animation.frames| - 1].spriteIndex;
    }
  }
}
