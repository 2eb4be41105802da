/**
 * The bounce judge: every contact the ball starts with the floor is a bounce.
 * A bounce decides a point when the ball lands out of the hitter's target box
 * (first bounce) or bounces a second time; a first bounce in the box decides
 * nothing. The court lines are a parameter.
 */
module Court {
  import opened Components

  /** The court-line constants the judge compares against. */
  datatype CourtLines = CourtLines(
    xSinglesLeft: real, xSinglesRight: real,
    yNearBaseline: real, yNetline: real, yFarBaseline: real,
    xCenterLine: real)

  /** A contact event reported by the physics engine (the colliders are not needed). */
  datatype ContactEvent = Started | Stopped

  /** The one game ball: its position and who hit it last. */
  datatype Ball = Ball(x: real, y: real, lastHit: Side)

  /** The bounces counter resource, shared with the scene reset. */
  class BallBouncesSinceHit {
    var count: nat

    constructor ()
      ensures count == 0
    {
      count := 0;
    }
  }

  /** The lower edge of the half court the hitter aims at. */
  function YMin(lines: CourtLines, hitter: Side): real
  {
    match hitter
    case User => lines.yNetline
    case Opponent => lines.yNearBaseline
  }

  /** The upper edge of the half court the hitter aims at. */
  function YMax(lines: CourtLines, hitter: Side): real
  {
    match hitter
    case User => lines.yFarBaseline
    case Opponent => lines.yNetline
  }

  /**
   * The ball is in when it lies in the closed box between the singles lines and
   * in the opponent's half of the hitter: net to far baseline after a user
   * hit, near baseline to net after an opponent hit.
   */
  predicate InBounds(lines: CourtLines, ball: Ball)
  {
    && lines.xSinglesLeft <= ball.x <= lines.xSinglesRight
    && YMin(lines, ball.lastHit) <= ball.y <= YMax(lines, ball.lastHit)
  }

  lemma InBoundsWindows(lines: CourtLines, ball: Ball)
    ensures ball.lastHit == User ==>
              (InBounds(lines, ball) <==>
                 lines.xSinglesLeft <= ball.x <= lines.xSinglesRight &&
                 lines.yNetline <= ball.y <= lines.yFarBaseline)
    ensures ball.lastHit == Opponent ==>
              (InBounds(lines, ball) <==>
                 lines.xSinglesLeft <= ball.x <= lines.xSinglesRight &&
                 lines.yNearBaseline <= ball.y <= lines.yNetline)
  {
  }

  /**
   * The winner table: no point for a single bounce in bounds, the other side
   * for a single bounce out, the last hitter on a double bounce.
   */
  function Winner(lastHit: Side, inbounds: bool, doubleBounce: bool): (w: Option<Side>)
    ensures w.None? <==> inbounds && !doubleBounce
    ensures !inbounds && !doubleBounce ==> w == Some(Other(lastHit))
    ensures doubleBounce ==> w == Some(lastHit)
  {
    if doubleBounce then
      match lastHit
      case Opponent => Some(Opponent)
      case User => Some(User)
    else if inbounds then None
    else
      match lastHit
      case Opponent => Some(User)
      case User => Some(Opponent)
  }

  /** What a run of the judge leaves: the counter and the points it sent, in order. */
  datatype Judgement = Judgement(bounces: nat, points: seq<Side>)

  /** Number of Started contacts. */
  function CountStarted(events: seq<ContactEvent>): nat
  {
    if events == [] then 0
    else CountStarted(events[..|events| - 1]) + (if events[|events| - 1] == Started then 1 else 0)
  }

  /**
   * The ball query's `single()` succeeds whenever a Started contact needs it:
   * in the source it panics unless exactly one entity carries GameBall,
   * WorldPosition and LastHitBy at that point; `balls` lists those entities.
   */
  predicate BallAvailable(events: seq<ContactEvent>, balls: seq<Ball>)
  {
    |balls| == 1 || forall i :: 0 <= i < |events| ==> events[i] == Stopped
  }

  /**
   * The judge applied to a frame's contact events, one after the other,
   * starting from a counter value.
   */
  function Judge(count: nat, events: seq<ContactEvent>, balls: seq<Ball>, lines: CourtLines): Judgement
    requires BallAvailable(events, balls)
  {
    if events == [] then Judgement(count, [])
    else
      var prev := Judge(count, events[..|events| - 1], balls, lines);
      match events[|events| - 1]
      case Stopped => prev
      case Started =>
        var bounces := prev.bounces + 1;
        var winner := Winner(balls[0].lastHit, InBounds(lines, balls[0]), bounces == 2);
        match winner
        case None => Judgement(bounces, prev.points)
        case Some(w) => Judgement(bounces, prev.points + [w])
  }

  /** Every Started contact adds exactly one bounce; Stopped contacts add none. */
  lemma {:induction false} JudgeCountsBounces(count: nat, events: seq<ContactEvent>, balls: seq<Ball>, lines: CourtLines)
    requires BallAvailable(events, balls)
    ensures Judge(count, events, balls, lines).bounces == count + CountStarted(events)
  {
    if events != [] {
      JudgeCountsBounces(count, events[..|events| - 1], balls, lines);
    }
  }

  /** Each Started contact sends at most one point. */
  lemma {:induction false} JudgeAtMostOnePointPerBounce(count: nat, events: seq<ContactEvent>, balls: seq<Ball>, lines: CourtLines)
    requires BallAvailable(events, balls)
    ensures |Judge(count, events, balls, lines).points| <= CountStarted(events)
  {
    if events != [] {
      JudgeAtMostOnePointPerBounce(count, events[..|events| - 1], balls, lines);
    }
  }

  /** A Stopped contact changes neither the counter nor the points. */
  lemma JudgeIgnoresStopped(count: nat, events: seq<ContactEvent>, balls: seq<Ball>, lines: CourtLines)
    requires BallAvailable(events + [Stopped], balls)
    ensures BallAvailable(events, balls)
    ensures Judge(count, events + [Stopped], balls, lines) == Judge(count, events, balls, lines)
  {
    forall i | 0 <= i < |events| ensures (events + [Stopped])[i] == events[i] {}
  }

  /**
   * From a reset counter, a first bounce in bounds sends no point, a first
   * bounce out gives the point to the side that did not hit, and a second
   * bounce gives it to the hitter, in bounds or not.
   */
  lemma FirstAndSecondBounce(balls: seq<Ball>, lines: CourtLines)
    requires |balls| == 1
    ensures var first := Judge(0, [Started], balls, lines);
            first.bounces == 1 &&
            first.points == (if InBounds(lines, balls[0]) then [] else [Other(balls[0].lastHit)])
    ensures Judge(1, [Started], balls, lines) == Judgement(2, [balls[0].lastHit])
  {
  }

  /**
   * Only the bounce that brings the counter to exactly two is a double bounce:
   * a third bounce without a reset is judged like a first one.
   */
  lemma ThirdBounceIsNotDouble(balls: seq<Ball>, lines: CourtLines)
    requires |balls| == 1
    ensures Judge(2, [Started], balls, lines) ==
            Judgement(3, if InBounds(lines, balls[0]) then [] else [Other(balls[0].lastHit)])
  {
  }

  /**
   * handle_bounces_system: counts each Started contact, judges it against the
   * ball's position and last hitter, and sends the decided points in order.
   */
  method HandleBounces(counter: BallBouncesSinceHit, events: seq<ContactEvent>, balls: seq<Ball>, lines: CourtLines)
    returns (points: seq<Side>)
    requires BallAvailable(events, balls)
    modifies counter
    ensures Judgement(counter.count, points) == Judge(old(counter.count), events, balls, lines)
  {
    ghost var start := counter.count;
    points := [];
    for i := 0 to |events|
      invariant Judgement(counter.count, points) == Judge(start, events[..i], balls, lines)
    {
      assert events[..i + 1][..i] == events[..i];
      match events[i]
      case Started =>
        counter.count := counter.count + 1;
        var doubleBounce := counter.count == 2;
        var ball := balls[0];
        var winner := Winner(ball.lastHit, InBounds(lines, ball), doubleBounce);
        if winner.None? {
          continue;
        }
        points := points + [winner.value];
      case Stopped =>
    }
    assert events[..|events|] == events;
  }
}
