/**
 * The match flow: point events raise the winner's score, a player with at
 * least seven points and a two-point lead ends the game, every point resets
 * the bounce counter and serves a new ball, and the end of the game clears
 * the players, the shadows and the balls from the scene.
 */
module Level {
  import opened Components
  import opened Court

  const WINNING_SCORE: nat := 7
  const WINNING_LEAD: nat := 2

  /** Number of points won by `side` among the sent points. */
  function Wins(points: seq<Side>, side: Side): nat
  {
    if points == [] then 0
    else Wins(points[..|points| - 1], side) + (if points[|points| - 1] == side then 1 else 0)
  }

  /** Every point goes to exactly one of the two sides. */
  lemma {:induction false} WinsPartition(points: seq<Side>)
    ensures Wins(points, User) + Wins(points, Opponent) == |points|
  {
    if points != [] {
      WinsPartition(points[..|points| - 1]);
    }
  }

  /** One more point adds one to its winner's count and nothing to the other's. */
  lemma OnePointScoresOnce(points: seq<Side>, w: Side)
    ensures Wins(points + [w], w) == Wins(points, w) + 1
    ensures Wins(points + [w], Other(w)) == Wins(points, Other(w))
  {
  }

  predicate UserWon(user: nat, opponent: nat)
  {
    user >= WINNING_SCORE && user >= opponent + WINNING_LEAD
  }

  predicate OpponentWon(user: nat, opponent: nat)
  {
    opponent >= WINNING_SCORE && opponent >= user + WINNING_LEAD
  }

  /** The game-over check: the user is tested first, then the opponent. */
  function Outcome(user: nat, opponent: nat): (r: Option<Side>)
    ensures r == Some(User) <==> UserWon(user, opponent)
    ensures r == Some(Opponent) <==> OpponentWon(user, opponent)
    ensures r.Some? ==> user >= WINNING_SCORE || opponent >= WINNING_SCORE
  {
    if UserWon(user, opponent) then Some(User)
    else if OpponentWon(user, opponent) then Some(Opponent)
    else None
  }

  /** The two ways the game can end exclude each other. */
  lemma NeverBothWin(user: nat, opponent: nat)
    ensures !(UserWon(user, opponent) && OpponentWon(user, opponent))
  {
  }

  /** The text shown for an outcome; unchanged while the game goes on. */
  function ResultText(outcome: Option<Side>, current: string): string
  {
    match outcome
    case Some(User) => "You won!"
    case Some(Opponent) => "You lost!"
    case None => current
  }

  /** The two score resources and the results text. */
  class Scoreboard {
    var userScore: nat
    var opponentScore: nat
    var resultText: string

    constructor ()
      ensures userScore == 0 && opponentScore == 0 && resultText == ""
    {
      userScore, opponentScore, resultText := 0, 0, "";
    }

    /**
     * update_score_system: adds each point to its winner's score, then, whether
     * or not a point arrived, checks for the end of the game and reports it.
     */
    method UpdateScore(points: seq<Side>) returns (gameOver: bool)
      modifies this
      ensures userScore == old(userScore) + Wins(points, User)
      ensures opponentScore == old(opponentScore) + Wins(points, Opponent)
      ensures gameOver <==> Outcome(userScore, opponentScore).Some?
      ensures resultText == ResultText(Outcome(userScore, opponentScore), old(resultText))
    {
      for i := 0 to |points|
        invariant userScore == old(userScore) + Wins(points[..i], User)
        invariant opponentScore == old(opponentScore) + Wins(points[..i], Opponent)
        invariant resultText == old(resultText)
      {
        assert points[..i + 1][..i] == points[..i];
        match points[i]
        case User => userScore := userScore + 1;
        case Opponent => opponentScore := opponentScore + 1;
      }
      assert points[..|points|] == points;
      gameOver := false;
      if userScore >= WINNING_SCORE && userScore >= opponentScore + WINNING_LEAD {
        resultText := "You won!";
        gameOver := true;
      } else if opponentScore >= WINNING_SCORE && opponentScore >= userScore + WINNING_LEAD {
        resultText := "You lost!";
        gameOver := true;
      }
    }
  }

  /** The component tags the scene systems select entities by. */
  datatype Tag = PlayerTag | ShadowTag | GameBallTag | GameBallShadowTag | OtherTag

  datatype Entity = Entity(id: nat, tags: set<Tag>)

  /** A request to spawn a ball; the random x-velocity is not modelled. */
  datatype SpawnBallEvent = SpawnBallEvent(x: real, y: real, z: real, vy: real, vz: real)

  /**
   * What reset_scene_system removes: the entities tagged GameBall or
   * GameBallShadow. The ball spawners tag a ball's shadow only with Shadow, so
   * those shadows stay until the scene is cleared.
   */
  const BALL_TAGS: set<Tag> := {GameBallTag, GameBallShadowTag}

  /** What clear_scene_system removes: players, shadows and balls. */
  const SCENE_TAGS: set<Tag> := {PlayerTag, ShadowTag, GameBallTag}

  /** The entities left after despawning every entity carrying one of the `doomed` tags. */
  function Despawned(entities: set<Entity>, doomed: set<Tag>): set<Entity>
  {
    set e | e in entities && e.tags !! doomed
  }

  /** Despawning removes exactly the tagged entities and touches no other one. */
  lemma DespawnedRemovesExactlyTagged(entities: set<Entity>, doomed: set<Tag>, e: Entity)
    ensures e in Despawned(entities, doomed) <==> e in entities && e.tags !! doomed
    ensures Despawned(entities, doomed) <= entities
  {
  }

  /** Despawning the same tags again changes nothing. */
  lemma DespawnedIdempotent(entities: set<Entity>, doomed: set<Tag>)
    ensures Despawned(Despawned(entities, doomed), doomed) == Despawned(entities, doomed)
  {
  }

  /** The ball served after every point. */
  function ServeRequest(lines: CourtLines): (r: SpawnBallEvent)
    ensures r.x == lines.xCenterLine && r.y == lines.yNearBaseline && r.z == 3.0
    ensures r.vy == 15.0 && r.vz == 10.0
  {
    SpawnBallEvent(lines.xCenterLine, lines.yNearBaseline, 3.0, 15.0, 10.0)
  }

  /** The entities of the scene and the pending ball spawn requests. */
  class Scene {
    var entities: set<Entity>
    var ballRequests: seq<SpawnBallEvent>

    constructor (entities: set<Entity>)
      ensures this.entities == entities && ballRequests == []
    {
      this.entities := entities;
      ballRequests := [];
    }

    /** Despawns, one by one, every entity the query with the `doomed` tags matches. */
    method DespawnTagged(doomed: set<Tag>)
      modifies this`entities
      ensures entities == Despawned(old(entities), doomed)
    {
      ghost var kept := Despawned(entities, doomed);
      var matching := set e | e in entities && !(e.tags !! doomed);
      assert entities == kept + matching;
      while matching != {}
        invariant entities == kept + matching
        invariant kept !! matching
        decreases |matching|
      {
        var e :| e in matching;
        entities := entities - {e};
        matching := matching - {e};
      }
    }

    /**
     * reset_scene_system: for each point, despawns the GameBall and GameBallShadow entities,
     * resets the bounce counter and requests one new ball at the serve position.
     */
    method ResetScene(points: seq<Side>, counter: BallBouncesSinceHit, lines: CourtLines)
      modifies this, counter
      ensures entities == if |points| > 0 then Despawned(old(entities), BALL_TAGS) else old(entities)
      ensures counter.count == if |points| > 0 then 0 else old(counter.count)
      ensures |ballRequests| == |old(ballRequests)| + |points|
      ensures ballRequests[..|old(ballRequests)|] == old(ballRequests)
      ensures forall i :: |old(ballRequests)| <= i < |ballRequests| ==> ballRequests[i] == ServeRequest(lines)
    {
      ghost var before := entities;
      for i := 0 to |points|
        invariant entities == if i > 0 then Despawned(before, BALL_TAGS) else before
        invariant counter.count == if i > 0 then 0 else old(counter.count)
        invariant |ballRequests| == |old(ballRequests)| + i
        invariant ballRequests[..|old(ballRequests)|] == old(ballRequests)
        invariant forall k :: |old(ballRequests)| <= k < |ballRequests| ==> ballRequests[k] == ServeRequest(lines)
      {
        DespawnTagged(BALL_TAGS);
        DespawnedIdempotent(before, BALL_TAGS);
        counter.count := 0;
        ballRequests := ballRequests + [ServeRequest(lines)];
      }
    }

    /** clear_scene_system: on game over, despawns every player, shadow and ball. */
    method ClearScene(gameOvers: nat)
      modifies this`entities
      ensures entities == if gameOvers > 0 then Despawned(old(entities), SCENE_TAGS) else old(entities)
    {
      ghost var before := entities;
      for i := 0 to gameOvers
        invariant entities == if i > 0 then Despawned(before, SCENE_TAGS) else before
      {
        DespawnTagged(SCENE_TAGS);
        DespawnedIdempotent(before, SCENE_TAGS);
      }
    }
  }
}
