# Rule logic of an arcade tennis game, in Dafny

This project models the game rules of a small 2D tennis game built on an
entity-component-system engine. The engine, the renderer and the physics are
left out. What remains is a set of small decision procedures and state
machines, and the proofs of what they guarantee:

- **Player state machine** (`player.dfy`, module `GamePlayer`). A player is
  Idle, Run, Charge or Swing. The arrow keys switch between Idle and Run.
  Pressing the action key starts a Charge. Releasing it turns a Charge into a
  Swing and attaches a one-shot swing cooldown of 0.5 s. When the cooldown
  finishes, the player is Idle again. Speed, sprite flip, facing and
  animation follow from the state. `Player` is a class, with one method per
  engine system. Its invariant `Valid()` says that a cooldown is attached
  exactly while the player swings.
- **Bounce judge** (`court.dfy`, module `Court`). Every Started floor contact
  adds one bounce to a shared counter. The bounce is then judged from the
  last hitter, whether the ball is inside the hitter's target box, and
  whether this is exactly the second bounce. The result is no point or a
  point for one side. `Judge` is the reference definition over a frame's
  contact events, and `HandleBounces` is the engine system proved against it.
  The court-line constants are a parameter (`CourtLines`).
- **Scoring, reset and game over** (`level.dfy`, module `Level`). Points raise
  the winner's score. A side with at least 7 points and a lead of at least 2
  wins. Every point despawns the entities tagged GameBall or GameBallShadow,
  resets the bounce counter and requests one newly served ball. Game over
  despawns every entity tagged Player, Shadow or GameBall. Entities are a set of values with tag sets.
- **Animation frames** (`game_animation.dfy`, module `GameAnimation`). An
  animation is built from paired index and duration lists, with a timer whose
  duration is the sum of the frame durations. The frame shown is the first
  one whose cumulative duration reaches the elapsed time, or the last frame
  when none does. `FramePosition` is the recursive reference definition, and
  `FindFrame` is the source's running-sum `find`, proved equal to it.
  Durations are milliseconds.
- **Older animation variant** (`legacy_animation.dfy`, module
  `LegacyAnimation`). It is the same lookup, but it falls back to sprite 0. It
  also restarts the preset on every state change, and fires a one-shot
  transition to a queued next state when a non-repeating animation
  finishes.

The engine timer's tick is not modelled. The methods that tick a timer
receive the tick's outcome as parameters: the new elapsed time and whether
the timer just finished. Keyboard state comes in as booleans (pressed, just
pressed, just released). Each engine system is a method that acts on one
entity. A system's query loop runs that body once per matching entity, and
each run touches only that entity's components.

Some facts about the code as written are visible in the model.
`ThirdBounceIsNotDouble` shows that only the bounce that brings the counter
to exactly 2 counts as a double bounce. In this snapshot only the scene reset
sets the counter back to 0. In `game.rs` the level and animation plugins are
commented out, so those systems are not registered in this snapshot.
The reset after a point despawns only entities tagged GameBall or
GameBallShadow. Neither ball spawner (`src/game/ball.rs:58`,
`src/game/spawn.rs:134`) attaches `GameBallShadow`: each tags a ball's
shadow only with `Shadow`. So a ball's shadow survives the point,
and only the clear at game over, which selects `Shadow`, removes it.
`player_spawn_system` (`src/game/player.rs:199-219`) attaches no `Player`,
`UserControlled` or `Opponent` component. It also never reads the event's
`opponent` flag, which `setup_scene` sets for the second player
(`src/game/level.rs:91-94`). So in this snapshot, no spawned player is
matched by the systems that select `UserControlled`, the animation update
always picks the player presets, and the clear at game over removes the
players' shadows but not the players. The `userControlled` and `opponent`
arguments of `Player`'s constructor stand for those markers, which
`player_spawn_system` does not attach.
The bounce judge reads the hitter from a `LastHitBy` component, but no
spawner or system in `src/` attaches or updates it: `spawn_ball`
(`src/game/ball.rs:21-55`) spawns a `GameBall` without it, and
`release_charge_system` sets the ball's velocity (`src/game/player.rs:139-144`)
without recording the hitter. `Ball.lastHit` is therefore an input the model
takes as given.

## Model

| member | source | states |
|---|---|---|
| `GamePlayer.Axis` | src/game/player.rs:53-65 | one direction component is +1, 0 or −1; it is 0 exactly when both opposite keys are held or neither is |
| `GamePlayer.MovingIffNonzero` | src/game/player.rs:66 | the direction has positive length exactly when one of its components is nonzero |
| `GamePlayer.OppositeKeysCancel` | src/game/player.rs:53-66 | the player moves exactly when right ≠ left or up ≠ down, so holding only Left and Right is no movement |
| `GamePlayer.MovedState` | src/game/player.rs:66-77 | movement never changes Charge or Swing; from Idle or Run the player is Run if it moves and Idle if it does not |
| `GamePlayer.ChargedState` | src/game/player.rs:97-103 | the state becomes Charge exactly when it was Charge already, or when the key was just pressed in Idle or Run; otherwise nothing changes |
| `GamePlayer.ReleasedState` | src/game/player.rs:122-125 | the state is Swing exactly when it was Swing, or when it was Charge and the key was just released; the only change is Charge to Swing |
| `GamePlayer.SwingOnlyFromCharge` | src/game/player.rs:66-131 | no input system enters Swing except a release while charging |
| `GamePlayer.SpeedFor` | src/game/player.rs:84-89 | PLAYER_SPEED (30) in Idle and Run, PLAYER_SPEED·0.4 in Charge; the speed is 0 exactly in Swing and never exceeds PLAYER_SPEED |
| `GamePlayer.FacingToward` | src/game/player.rs:179-183 | the player faces Right exactly when the ball is strictly to its right; a tie faces Left |
| `GamePlayer.FlipX` | src/game/player.rs:165-168 | the sprite is flipped exactly when the player faces Left |
| `GamePlayer.SwingMirror` | src/game/player.rs:132-136 | the swing mirror factor is −1 exactly when facing Left and 1 exactly when facing Right |
| `GamePlayer.AnimationFor` | src/game/player.rs:29-44 | the chosen preset is non-empty and fresh; it repeats in every state except Swing; all its sprites come from the opponent rows (index ≥ 20) exactly when the Opponent marker is present; Idle gets the four-frame 700 ms preset, Run the four-frame 800 ms one, Charge the one-frame 100 ms one, and Swing the 250 ms (player) or 350 ms (opponent) one |
| `GamePlayer.Player.constructor` | src/game/player.rs:199-219 | a spawned player is Idle, at full speed, facing Right, without a cooldown, showing the idle animation, and flagged as changed |
| `GamePlayer.Player.Move` | src/game/player.rs:52-78 | the direction is (right − left, up − down); a user-controlled player's state becomes MovedState; Valid is kept; the change flag is set exactly when the state changed |
| `GamePlayer.Player.BeginCharge` | src/game/player.rs:97-103 | a user-controlled player's state becomes ChargedState; Valid is kept |
| `GamePlayer.Player.ReleaseCharge` | src/game/player.rs:122-136 | it swings exactly when the player is user-controlled, charging and the key was just released; only then is the state Swing and a non-repeating 500 ms cooldown attached; the mirror factor follows the facing |
| `GamePlayer.Player.TickSwingCooldown` | src/game/player.rs:155-159 | when the attached cooldown just finished, the state is Idle and the cooldown is removed; otherwise only the timer advances; Valid is kept |
| `GamePlayer.Player.SetSpeed` | src/game/player.rs:84-90 | a user-controlled player's speed is SpeedFor(state); other players keep theirs |
| `GamePlayer.Player.TurnTowardBall` | src/game/player.rs:176-186 | the facing changes only in Idle or Run and only when exactly one ball exists, and then it becomes FacingToward the ball |
| `GamePlayer.Player.FlipSpriteFacing` | src/game/player.rs:163-169 | the sprite's flip becomes FlipX(facing) |
| `GamePlayer.Player.UpdateAnimation` | src/game/player.rs:26-46 | after a change of state the animation is replaced by AnimationFor(state, opponent), otherwise it is kept; the change is consumed |
| `Court.InBoundsWindows` | src/game/court.rs:27-43 | the in-bounds test is the closed box between the singles lines, with y in [net, far baseline] after a User hit and in [near baseline, net] after an Opponent hit |
| `Court.Winner` | src/game/court.rs:45-51 | no point exactly for a single in-bounds bounce; a single out-of-bounds bounce gives the point to the side that did not hit last; a double bounce gives it to the last hitter |
| `Court.JudgeCountsBounces` | src/game/court.rs:21-24 | after a frame's events the counter has grown by exactly the number of Started contacts |
| `Court.JudgeAtMostOnePointPerBounce` | src/game/court.rs:45-53 | a frame sends at most one point per Started contact |
| `Court.JudgeIgnoresStopped` | src/game/court.rs:55 | a Stopped contact changes neither the counter nor the points sent |
| `Court.FirstAndSecondBounce` | src/game/court.rs:24-50 | from a reset counter, a first bounce sends no point when in bounds and a point to the non-hitter when out; a second bounce sends a point to the last hitter whatever the position |
| `Court.ThirdBounceIsNotDouble` | src/game/court.rs:24-25 | the double-bounce test is "counter equals 2", so a third bounce without a reset is judged like a first one |
| `Court.HandleBounces` | src/game/court.rs:15-58 | the new counter and the points sent, in order, are exactly those of Judge on the frame's contact events |
| `Level.WinsPartition` | src/game/level.rs:24-29 | every point is counted for exactly one side |
| `Level.OnePointScoresOnce` | src/game/level.rs:25-28 | one more point adds exactly 1 to its winner's count and nothing to the other side's |
| `Level.Outcome` | src/game/level.rs:31-37 | the user wins exactly when user ≥ 7 and user ≥ opponent + 2, the opponent exactly in the symmetric case; no outcome before someone has 7 points |
| `Level.NeverBothWin` | src/game/level.rs:31-34 | the two winning conditions never hold together |
| `Level.Scoreboard.UpdateScore` | src/game/level.rs:24-37 | each score grows by the points its side won in this frame; then, even without points, game over is reported exactly when Outcome has a winner, with the matching text |
| `Level.DespawnedRemovesExactlyTagged` | src/game/level.rs:43-48 | an entity survives a despawn exactly when it carries none of the selected tags; no entity is added |
| `Level.DespawnedIdempotent` | src/game/level.rs:59-62 | despawning the same tags a second time changes nothing |
| `Level.ServeRequest` | src/game/level.rs:64-69 | the served ball starts at (X_CENTER_LINE, Y_NEAR_BASELINE, 3.0) with y- and z-velocity 15 and 10 |
| `Level.Scene.DespawnTagged` | src/game/level.rs:60-62 | after despawning every matching entity one by one, the scene is Despawned(old scene, tags) |
| `Level.Scene.ResetScene` | src/game/level.rs:59-70 | if points arrived, every entity tagged GameBall or GameBallShadow is gone (shadows tagged only Shadow stay) and the counter is 0; exactly one serve request is appended per point; nothing else changes |
| `Level.Scene.ClearScene` | src/game/level.rs:45-49 | on game over every entity tagged Player, Shadow or GameBall is removed and no other entity is touched |
| `GameAnimation.Zip` | src/game/animation.rs:17-24 | one frame per pair, frame i pairs indices[i] with durations[i], and the frame durations sum to the durations' sum |
| `GameAnimation.New` | src/game/animation.rs:12-29 | N frames in order; the timer's duration equals the sum of the frame durations; the repeating flag is passed through; the timer starts at zero |
| `GameAnimation.PlayerServe` | src/game/animation.rs:31-33 | four frames, 1700 ms, non-repeating |
| `GameAnimation.PlayerIdle` | src/game/animation.rs:35-37 | four frames, 700 ms, repeating |
| `GameAnimation.PlayerRun` | src/game/animation.rs:39-42 | four frames, 800 ms, repeating |
| `GameAnimation.PlayerCharge` | src/game/animation.rs:44-46 | one frame, 100 ms, repeating |
| `GameAnimation.PlayerSwing` | src/game/animation.rs:48-50 | two frames, 250 ms, non-repeating |
| `GameAnimation.OpponentIdle` | src/game/animation.rs:52-54 | four frames, 700 ms, repeating |
| `GameAnimation.OpponentRun` | src/game/animation.rs:56-59 | four frames, 800 ms, repeating |
| `GameAnimation.OpponentCharge` | src/game/animation.rs:61-63 | one frame, 100 ms, repeating |
| `GameAnimation.OpponentSwing` | src/game/animation.rs:65-67 | three frames, 350 ms, non-repeating |
| `GameAnimation.FramePositionIsFirstReaching` | src/game/animation.rs:76-84 | the lookup finds the first frame whose cumulative duration is ≥ elapsed, and finds nothing only when no frame reaches it |
| `GameAnimation.FindFrame` | src/game/animation.rs:76-84 | the running-sum `find` returns exactly FramePosition |
| `GameAnimation.NothingFoundIffPastTheEnd` | src/game/animation.rs:80-85 | the lookup finds nothing exactly when the whole animation is shorter than the elapsed time |
| `GameAnimation.StartShowsFirstFrame` | src/game/animation.rs:80-83 | with elapsed 0 the first frame is shown |
| `GameAnimation.PastTheEndShowsLastFrame` | src/game/animation.rs:85 | when no frame reaches the elapsed time, the last frame is shown |
| `GameAnimation.ShownPositionMonotone` | src/game/animation.rs:76-84 | the shown frame's position never decreases as the elapsed time grows |
| `GameAnimation.Sprite.Advance` | src/game/animation.rs:74-86 | the timer takes the tick, and the sprite index becomes that of the frame selected for the new elapsed time; an empty frame list is excluded because it panics |
| `LegacyAnimation.NoFramesShowSpriteZero` | src/animation.rs:31 | the older lookup shows sprite 0 for an empty frame list instead of panicking |
| `LegacyAnimation.LegacyDiffersOnlyPastTheEnd` | src/animation.rs:23-31 | the older lookup agrees with the current one while some frame reaches the elapsed time, and shows sprite 0 past the end |
| `LegacyAnimation.LegacyPlayer.AdvanceAnimation` | src/animation.rs:20-32 | the timer takes the tick, and the sprite index becomes the older lookup's result |
| `LegacyAnimation.LegacyPlayer.UpdateCurrentAnimation` | src/animation.rs:38-44 | after a change of state the animation is replaced by the preset for the new state, restarted at elapsed 0 and not finished |
| `LegacyAnimation.PresetFor` | src/animation.rs:38-58 | Idle gets the idle preset, Run the run preset and Swing the swing preset, and the result is unstarted and unfinished whenever the presets are fresh |
| `LegacyAnimation.RepeatingNeverFires` | src/animation.rs:52 | a repeating animation never fires a transition |
| `LegacyAnimation.LegacyPlayer.ChangeState` | src/animation.rs:51-60 | when the timer just finished, is non-repeating and a next state is queued, that state is taken, its preset replaces the animation with its timer at elapsed 0 and not finished, and the queue is emptied; otherwise nothing changes; afterwards no transition is pending |

## Left out

- Position integration (`normalize() * speed`), the ball velocities set by a swing, the sweet-spot distance, and the `dbg!` and `info!` logging in `handle_bounces_system` (`src/game/court.rs:37-39`, `:44`, `:52`): float vector physics and logging. `Move` returns the direction. `ReleaseCharge` returns the mirror factor.
- Engine timers: how `tick` computes elapsed time and `just_finished` is the engine's. The methods take what the tick produced as parameters.
- Float arithmetic: f32 values are modelled as exact reals. Durations are exact milliseconds. In the source, each frame's f32 duration and the timer's f32 sum are rounded separately at the nanosecond scale. The model does not capture this rounding.
- Deferred engine commands: inserting or removing a component and despawning an entity take effect at once here, not at the end of the stage.
- Query loops over several entities: each system is modelled on one entity, because each pass of the loop touches only its own entity's components.
- The random x-velocity of a served ball: `SpawnBallEvent` does not record it.
- Court.HandleBounces: ball_query.single() panics unless exactly one entity carries GameBall, WorldPosition and LastHitBy when a Started contact is handled; `balls` lists those entities. BallAvailable excludes that case, and Judge carries the same precondition.
- The results text's `single_mut()` panics unless exactly one results text exists. The model has one text field.
- The presets of the older snapshot: its `player_idle`, `player_run` and `player_swing` definitions are not part of this model. `LegacyAnimation` takes them as a `Presets` parameter. `UpdateCurrentAnimation` and `ChangeState` require `Fresh` presets (timers at elapsed 0, not finished), the state a freshly built animation is in.
- Spawners for balls, courts and players (apart from a player's initial component values), collider construction, camera projection and path building, UI text, mouse input, the unused key table, and plugin registration: these are engine plumbing, not rules.
