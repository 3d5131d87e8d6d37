# Paint the Rings — a verified model of the gameplay core

Paint the Rings is a one-touch arcade game. A ring of pieces glides down onto
a turntable, the rotator, with some of its pieces already painted. The player
shoots painted balls from a queue at the ring. A ball that hits an unpainted
piece paints it. A ball that hits a piece that is already painted ends the
game. The last ball of a batch paints the whole ring, and then the next ring
comes, until the level's number of rings is reached and the level is passed.
Each ring must be painted before a per-ring countdown runs out.

This project models the core of that game in Dafny:

- the game controller's state machine, with its change notification;
- level selection and ring colours that never repeat between consecutive rings;
- the ball queue and the decision that follows each hit;
- the paint countdown and the three object pools;
- the level and restart bookkeeping that outlives a scene;
- the ring and its pieces, including pre-painting a random subset of distinct pieces;
- the glide onto the rotator;
- the rotator's rotation, bounce and shake routines;
- the painted ball's flight and hit reaction;
- the fading circle and ring effects;
- the sound manager's overlap cap and music state;
- the reward-session timer.

Each C# file of the core becomes one module:

| module | file | form |
|---|---|---|
| `Common` | shared value types | Vec3, Color, level data, clamped Lerp, `Random.Range` as a function of a sample |
| `RingPieces` | RingPieceController.cs | class `RingPiece` |
| `Rings` | RingController.cs | class `Ring` |
| `Rotators` | RotatorController.cs | class `Rotator` |
| `PaintedBalls` | PaintedBallController.cs | class `PaintedBall` |
| `Fading` | FadingObjectController.cs | class `FadingObject` |
| `GameControl` | GameController.cs | classes `GameController` and `Session` (the static properties) |
| `Sounds` | SoundManager.cs | classes `Sound` and `SoundManager` |
| `RewardGames` | RewardGameManager.cs | class `RewardGameManager` |
| `Scenarios` | — | properties of several frames and rings |

How the model treats the engine:

- **Coroutines.** Every coroutine is modelled as a record returned by the method that starts it. That method holds the code before the coroutine's loop. The owner's `Step…` method then runs one iteration of the loop per frame.
  - The first `Step` of a routine stands for the segment the engine runs in the frame that started it.
  - Frame times `dt` are parameters.
- **Randomness.** Random draws are free parameters: samples for `Random.Range`, and a stream of samples for the colour rejection loop.
- **Calls to other components.** Calls to components that are not modelled as objects go into ordered logs: `effects` on the controller, `actions` on the ball, `audio` and `events`. The ring's calls to its pieces and to the rotator are real method calls.
- **Numbers.** Unity's float maths is modelled on `real`. Interpolation clamps its factor to [0, 1] as Unity's `Lerp` does, so the last frame of every glide, fade and shake lands exactly on its target.

Four consequences of the code that are easy to miss:

- **When rotation starts.** The rotator starts its rotation loop when the *first* ring lands. The ring is re-parented to the rotator before `MoveDownAndBounce` is called, so the child count is already 1 (RingController.cs:44-52, RotatorController.cs:45-55). Bounces start from the second ring on.
- **Too many pre-painted pieces.** Asking to pre-paint more pieces than the ring has ends the routine once no unpainted piece is left. At that point the range draw over an empty list yields 0, and reading index 0 of that list fails (RingController.cs:64-69).
- **The ball that hits nothing.** When the ray finds no piece within 100 units, no flight starts, and the ball stays where it is and is never destroyed (PaintedBallController.cs:22-29).
- **Rotation draws that do not give a running leg.** A leg whose angle divided by its speed is not positive makes the rotation loop draw again in the same frame. A zero speed under a positive angle gives an infinite duration: that leg never ends. A level without rotation curves stops the rotation routine on its first draw (RotatorController.cs:14-23).

## Model

| member | source | states |
|---|---|---|
| Common.Clamp01 | BreakTheBall/Assets/CasualGame/BreakTheBall/Scripts/FadingObjectController.cs:35-37 | the factor Unity's Lerp uses lies in [0, 1], equals the input inside it, and saturates at either end |
| Common.Lerp | BreakTheBall/Assets/CasualGame/BreakTheBall/Scripts/PaintedBallController.cs:36-42 | a factor of 1 or more lands exactly on the target and 0 or less stays on the start, so a routine's last frame reaches its end point |
| Common.LerpColor | BreakTheBall/Assets/CasualGame/BreakTheBall/Scripts/FadingObjectController.cs:35-37 | fading to the transparent copy of a colour keeps its red, green and blue, and keeps the opacity between 0 and the start opacity |
| Common.RangeInt | BreakTheBall/Assets/CasualGame/BreakTheBall/Scripts/GameController.cs:148 | an integer draw lies in [min, max) (the maximum is exclusive) and equal bounds give the minimum |
| Common.RangeReal | BreakTheBall/Assets/CasualGame/BreakTheBall/Scripts/RotatorController.cs:16-17 | a float draw lies between its bounds, both inclusive |
| Common.DistinctCard | BreakTheBall/Assets/CasualGame/BreakTheBall/Scripts/RingController.cs:55-73 | a list of distinct pieces has as many elements as its set, so picking n distinct pieces paints exactly n |
| RingPieces.RingPiece.ChangeColor | BreakTheBall/Assets/CasualGame/BreakTheBall/Scripts/RingPieceController.cs:16-26 | a piece already tagged Finish is untouched; any other one gets one new cross mark and the ring material, and is tagged Finish |
| RingPieces.RingPiece.AttachCrossPrefab | BreakTheBall/Assets/CasualGame/BreakTheBall/Scripts/RingPieceController.cs:29-36 | exactly one fresh mark is added after the existing children, and the tag and material are kept |
| RingPieces.RingPiece.RemoveCrossPrefab | BreakTheBall/Assets/CasualGame/BreakTheBall/Scripts/RingPieceController.cs:38-44 | the first child is removed when there is one, nothing else changes |
| Rings.Ring.EnablePaintedPiece | BreakTheBall/Assets/CasualGame/BreakTheBall/Scripts/RingController.cs:55-73 | exactly min(n, pieces) distinct pieces are chosen (none for n ≤ 0), each is tagged Finish, newly painted ones carry the ring material and one new mark, and no other piece changes; on a fresh ring the painted set has exactly that size, and one mark per painted piece is preserved |
| Rings.Ring.MoveToRotatorPosition | BreakTheBall/Assets/CasualGame/BreakTheBall/Scripts/RingController.cs:19-30 | pre-painting happens as in EnablePaintedPiece, and the glide runs from the ring's position to one ring height per stacked ring above the rotator, over the given time |
| Rings.Ring.PaintedAllPieces | BreakTheBall/Assets/CasualGame/BreakTheBall/Scripts/RingController.cs:78-85 | every piece ends tagged Finish; a piece painted before loses its first mark and keeps its material, a piece painted here takes the ring material and ends with as many marks as it had; after pre-painting no piece keeps a mark |
| Rings.Ring.StepMove | BreakTheBall/Assets/CasualGame/BreakTheBall/Scripts/RingController.cs:24-53 | while gliding, the position is the clamped interpolation of the elapsed fraction, and the frame that uses up the time puts the ring exactly on the stack; on landing, the fading circle is half a ring height below, the ring becomes the rotator's child with zero local x, z and angles, the child count grows by one, and the rotator gets half the glide time (so a bounce leg lasts a quarter of it); the first landing starts the rotation with the leg of the first running draw, and none starts after that or without curves |
| Rotators.NewLeg | BreakTheBall/Assets/CasualGame/BreakTheBall/Scripts/RotatorController.cs:16-22 | a new rotation leg has angle and speed within the level's ranges and a curve from the level's list, and turns about y by ±angle from the current angles; it is endless exactly when the speed is 0, and otherwise its duration satisfies duration × speed = angle > 0; it starts unfinished at time 0 |
| Rotators.DrawLeg | BreakTheBall/Assets/CasualGame/BreakTheBall/Scripts/RotatorController.cs:14-23 | the redraw loop: the leg comes from the first draw of the stream whose angle over speed is positive (or whose speed is 0 under a positive angle), and every earlier draw is skipped |
| Rotators.Rotator.MoveDownAndBounce | BreakTheBall/Assets/CasualGame/BreakTheBall/Scripts/RotatorController.cs:43-64 | with more than one ring a bounce starts (rotation stopped, first leg dropping one ring height plus 0.5 over half the time); otherwise the rotation loop is latched on, and starts only the first time, with the leg of the first running draw, or ends at once when the level has no curve; so at most one exists |
| Rotators.Rotator.StepRotation | BreakTheBall/Assets/CasualGame/BreakTheBall/Scripts/RotatorController.cs:12-36 | a leg is parked (time and angles frozen) while a bounce runs or the state is not Playing, and resumes where it stopped; a playing frame adds the frame time and sets the angles to the eased interpolation at elapsed time over duration (0 on an endless leg); a finished leg is replaced, from the current angles, by the leg of the first running draw, stepped the same way, or the routine ends when the level has no curve |
| Rotators.Rotator.StepBounce | BreakTheBall/Assets/CasualGame/BreakTheBall/Scripts/RotatorController.cs:58-85 | the drop and the 0.5 rise each ease out over half the time, the rise starts where the drop left the stack, and the rotation stays stopped until the bounce is done, then is released |
| Rotators.Rotator.ShakeRotator | BreakTheBall/Assets/CasualGame/BreakTheBall/Scripts/RotatorController.cs:91-101 | a shake goes 0.2 forward from the current position and back |
| Rotators.Rotator.StepShake | BreakTheBall/Assets/CasualGame/BreakTheBall/Scripts/RotatorController.cs:96-117 | both legs are linear over 0.05 s, the backward leg ends exactly at the start, and nothing but the position changes |
| PaintedBalls.HitReaction | BreakTheBall/Assets/CasualGame/BreakTheBall/Scripts/PaintedBallController.cs:44-70 | a hit on a Finish piece notifies the painted-hit path and a hit on another piece the normal path, exactly one of them and last; the struck piece is painted iff balls remain, and the whole ring with a fading ring iff none remain |
| PaintedBalls.PaintedBall.Shoot | BreakTheBall/Assets/CasualGame/BreakTheBall/Scripts/PaintedBallController.cs:22-34 | a shot that hits nothing within 100 units starts no flight; otherwise the flight goes to the hit point in distance/speed |
| PaintedBalls.PaintedBall.StepFlight | BreakTheBall/Assets/CasualGame/BreakTheBall/Scripts/PaintedBallController.cs:30-76 | the ball reaches the hit point exactly on its last frame; on arrival the paint sound plays, and on a hit the reaction is followed by a shake and an explosion 0.05 behind the ball, which is destroyed; a miss leaves it in place |
| PaintedBalls.PaintedBall.Update | BreakTheBall/Assets/CasualGame/BreakTheBall/Scripts/PaintedBallController.cs:10-20 | a live ball is destroyed, with an explosion where it is, at game over unless the game-over screen shows, and otherwise nothing happens |
| PaintedBalls.PaintedBall.MoveForward | BreakTheBall/Assets/CasualGame/BreakTheBall/Scripts/PaintedBallController.cs:86-94 | the advance runs from the current position forward by the given distance along z only |
| PaintedBalls.PaintedBall.StepAdvance | BreakTheBall/Assets/CasualGame/BreakTheBall/Scripts/PaintedBallController.cs:90-102 | the advance lands exactly on its end point on its last frame, and nothing but the position changes |
| Fading.FadingObject.CircleFading | BreakTheBall/Assets/CasualGame/BreakTheBall/Scripts/FadingObjectController.cs:18-30 | the material colour is captured as the colour to restore only while that is still white; the fade runs to the transparent copy of the colour |
| Fading.FadingObject.RingFading | BreakTheBall/Assets/CasualGame/BreakTheBall/Scripts/FadingObjectController.cs:54-65 | the material takes the current ring colour and the fade runs to its transparent copy; the colour to restore is never captured |
| Fading.FadingObject.StepFade | BreakTheBall/Assets/CasualGame/BreakTheBall/Scripts/FadingObjectController.cs:26-45 | while running, hue is kept and opacity stays between 0 and the start, landing on the target scale and a transparent colour on the last frame; afterwards the object is reset to unit scale and the restored colour, unparented and inactive (the ring fade at lines 61-80 is the same loop) |
| GameControl.RoundAdvance | BreakTheBall/Assets/CasualGame/BreakTheBall/Scripts/GameController.cs:421-444 | balls advance iff the queue is not empty; otherwise the level is won iff the ring count equals the ring number, and the next ring comes iff it does not |
| GameControl.ColorDrawPossible | BreakTheBall/Assets/CasualGame/BreakTheBall/Scripts/GameController.cs:187-193 | the colour loop can end iff there are two colours or more, or the previous index is not 0 |
| GameControl.SelectLevel | BreakTheBall/Assets/CasualGame/BreakTheBall/Scripts/GameController.cs:143-151 | the index found is the first entry whose [min, max) contains the level, and none is found iff no entry does |
| GameControl.DrawColorIndex | BreakTheBall/Assets/CasualGame/BreakTheBall/Scripts/GameController.cs:187-193 | the index differs from the previous one, lies in [0, count), and comes from the first draw that escapes |
| GameControl.FirstInactive | BreakTheBall/Assets/CasualGame/BreakTheBall/Scripts/GameController.cs:528-542 | the pool search of every pool getter (the same loop at lines 483-497 and 560-574): the index of the first inactive object, or -1 iff all are active |
| GameControl.Session.EnterScene | BreakTheBall/Assets/CasualGame/BreakTheBall/Scripts/GameController.cs:135-140 | a scene starts at level 1 unless it is a restart, and a non-zero testing level overrides both |
| GameControl.Session.IncreaseCurrentLevel | BreakTheBall/Assets/CasualGame/BreakTheBall/Scripts/GameController.cs:404-407 | the level grows by one |
| GameControl.Session.DecreaseCurrentLevel | BreakTheBall/Assets/CasualGame/BreakTheBall/Scripts/GameController.cs:412-416 | the level drops by one from above 2 and is kept otherwise |
| GameControl.Session.ResetStaticVariables | BreakTheBall/Assets/CasualGame/BreakTheBall/Scripts/GameController.cs:169-181 | at the end of a session the level returns to 0 and the next scene is not a restart |
| GameControl.GameController.SetGameState | BreakTheBall/Assets/CasualGame/BreakTheBall/Scripts/GameController.cs:56-63 | the state becomes the value; a change is notified exactly once and assigning the same state notifies nothing |
| GameControl.GameController.GetRandomMaterial | BreakTheBall/Assets/CasualGame/BreakTheBall/Scripts/GameController.cs:187-199 | the new colour index differs from the previous one and is remembered; the colour is the level's colour at that index, different from the previous colour when the colours are distinct, and there is none iff the level has no colour |
| GameControl.GameController.LoadLevelData | BreakTheBall/Assets/CasualGame/BreakTheBall/Scripts/GameController.cs:143-151 | the first entry containing the current level becomes the level data and the ring number is drawn from its range; with no entry both are kept |
| GameControl.GameController.EnterLevel | BreakTheBall/Assets/CasualGame/BreakTheBall/Scripts/GameController.cs:131-156 | the state is Prepare, notified only on a change; the level entered is the testing level if set, else the kept level on a restart, else 1; the first entry containing it becomes the level data with a ring number from its range; a ring colour of the level is chosen, the height is stored and the out-of-balls flag cleared; a level without colours stops there |
| GameControl.GameController.Start | BreakTheBall/Assets/CasualGame/BreakTheBall/Scripts/GameController.cs:127-167 | everything EnterLevel states; on a restart whose colour draw succeeded play begins at once, with exactly the effects, queue and handle counter of PlayingGame after the Prepare notification; otherwise the queue, handle counter, touch flag and effects are those of the preparation alone |
| GameControl.GameController.PlayingGame | BreakTheBall/Assets/CasualGame/BreakTheBall/Scripts/GameController.cs:204-222 | play begins: state Playing (notified on a change), the music after a delay, the next ring with touch blocked until it lands, a batch of the drawn size of balls with fresh handles appended to the queue, and the countdown after the ring comes down, in that order and nothing else |
| GameControl.GameController.CreateNextRing | BreakTheBall/Assets/CasualGame/BreakTheBall/Scripts/GameController.cs:227-234 | a ring is spawned 12 above the rotator's position at the time of the call (lower after each bounce has sunk the stack), with a drawn number of painted pieces and the current colour, and touch stays blocked until it has come down |
| GameControl.GameController.EnableTouch | BreakTheBall/Assets/CasualGame/BreakTheBall/Scripts/GameController.cs:241-246 | touch is enabled again |
| GameControl.GameController.CreatePaintedBall | BreakTheBall/Assets/CasualGame/BreakTheBall/Scripts/GameController.cs:251-262 | max(n, 0) balls with fresh consecutive handles join the queue, each spawned one ball space behind the previous, and the handle counter moves past them |
| GameControl.GameController.RunCountTimebar | BreakTheBall/Assets/CasualGame/BreakTheBall/Scripts/GameController.cs:268-291 | a new countdown replaces the running one with a duration in the level's range and its first frame counted, changing nothing else; a duration of 0 or less ends the game at once, with the game-over notification (on a change) and sound and the restart flag set |
| GameControl.GameController.TickCountdown | BreakTheBall/Assets/CasualGame/BreakTheBall/Scripts/GameController.cs:284-297 | the countdown is frozen, with nothing else changed, unless Playing; it accumulates frame time while Playing, changing nothing else; and it ends the game, with the notification and the game-over sound, on the first Playing frame after its time |
| GameControl.GameController.GameOver | BreakTheBall/Assets/CasualGame/BreakTheBall/Scripts/GameController.cs:302-311 | state GameOver, the next scene is a restart, and the game-over sound plays |
| GameControl.GameController.PassLevel | BreakTheBall/Assets/CasualGame/BreakTheBall/Scripts/GameController.cs:380-388 | state PassLevel, the next scene is a restart, and the pass sound plays |
| GameControl.GameController.PauseGame | BreakTheBall/Assets/CasualGame/BreakTheBall/Scripts/GameController.cs:341-355 | state Pause, notified only on a change, and the music pauses after a delay |
| GameControl.GameController.UnPauseGame | BreakTheBall/Assets/CasualGame/BreakTheBall/Scripts/GameController.cs:360-375 | state Playing, notified only on a change, and the music resumes after a delay |
| GameControl.GameController.Update | BreakTheBall/Assets/CasualGame/BreakTheBall/Scripts/GameController.cs:313-336 | a press fires only while Playing with touch enabled, off the UI and without the game-over screen; the front ball is shot and leaves the queue, touch is blocked, and the out-of-balls flag is set iff the queue is now empty |
| GameControl.GameController.HandleHitNormalRingPiece | BreakTheBall/Assets/CasualGame/BreakTheBall/Scripts/GameController.cs:421-444 | the outcome is RoundAdvance of the queue and ring counters: balls move up one frame later with nothing else changed; or the level is passed with the pass sound; or the finished-ring sound plays, the ring count grows by one, a new colour index is taken, the restart flag is kept, and (when the level has colours) the next ring in the new colour above the rotator's current position, a batch of balls with fresh handles and the countdown follow, in that order; with no colour nothing follows the sound; the ring count never passes the ring number |
| GameControl.GameController.MovingForwardAllPaintedBall | BreakTheBall/Assets/CasualGame/BreakTheBall/Scripts/GameController.cs:450-457 | every queued ball moves one ball space forward, in queue order, and touch is enabled after the move time |
| GameControl.GameController.HandleHitPaintedRingPiece | BreakTheBall/Assets/CasualGame/BreakTheBall/Scripts/GameController.cs:462-465 | a hit on a painted piece ends the game: state GameOver, notified on a change, then the game-over sound, and the next scene is a restart |
| GameControl.GameController.GetPaintedBallExplode | BreakTheBall/Assets/CasualGame/BreakTheBall/Scripts/GameController.cs:483-497 | the first inactive explosion is reused; only when all are active is a new one appended; the pool never shrinks |
| GameControl.GameController.PlayPaintedBallExplode | BreakTheBall/Assets/CasualGame/BreakTheBall/Scripts/GameController.cs:471-477 | the explosion played at the given position is the first inactive one of the pool, or a fresh one appended when all are active; it becomes active and playing, and every other pooled explosion is left as it was |
| GameControl.GameController.EndParticle | BreakTheBall/Assets/CasualGame/BreakTheBall/Scripts/GameController.cs:504-509 | at the end of its lifetime the particle stops and returns to its pool |
| GameControl.GameController.GetFadingCircleControl | BreakTheBall/Assets/CasualGame/BreakTheBall/Scripts/GameController.cs:528-542 | the first inactive circle is reused; only when all are active is a new one appended; the pool never shrinks |
| GameControl.GameController.GetFadingRingControl | BreakTheBall/Assets/CasualGame/BreakTheBall/Scripts/GameController.cs:560-574 | the first inactive ring is reused; only when all are active is a new one appended; the pool never shrinks |
| GameControl.GameController.CreateFadingCircle | BreakTheBall/Assets/CasualGame/BreakTheBall/Scripts/GameController.cs:515-522 | the circle used is the first inactive one of the pool, or a fresh one appended when all are active; it is shown at the position under the parent and fades to scale 3 over 0.5 s, and every other pooled circle is left as it was |
| GameControl.GameController.CreateFadingRing | BreakTheBall/Assets/CasualGame/BreakTheBall/Scripts/GameController.cs:548-554 | the ring used is the first inactive one of the pool, or a fresh one appended when all are active; it is shown at the position in the ring colour and fades to scale 15 over 1 s, and every other pooled ring is left as it was |
| Sounds.MusicPauseResume | BreakTheBall/Assets/CasualGame/BreakTheBall/Scripts/SoundManager.cs:135-154 | pause and resume undo each other, each is idempotent, and neither leaves the stopped state |
| Sounds.SoundManager.CRPlaySound | BreakTheBall/Assets/CasualGame/BreakTheBall/Scripts/SoundManager.cs:94-113 | no more than 7 plays of a sound overlap; below the cap a play takes a slot at max volume divided by the plays now taken, and releases it after 0.7 of the clip; a sound without a clip keeps its slot for good |
| Sounds.SoundManager.FinishPlay | BreakTheBall/Assets/CasualGame/BreakTheBall/Scripts/SoundManager.cs:108-112 | the end of a play's wait releases exactly one slot |
| Sounds.SoundManager.PlayMusic | BreakTheBall/Assets/CasualGame/BreakTheBall/Scripts/SoundManager.cs:120-130 | music plays when there is a music entry, and a missing one changes nothing |
| Sounds.SoundManager.PauseMusic | BreakTheBall/Assets/CasualGame/BreakTheBall/Scripts/SoundManager.cs:135-142 | only playing music is paused |
| Sounds.SoundManager.ResumeMusic | BreakTheBall/Assets/CasualGame/BreakTheBall/Scripts/SoundManager.cs:147-154 | only paused music is resumed |
| Sounds.SoundManager.StopMusic | BreakTheBall/Assets/CasualGame/BreakTheBall/Scripts/SoundManager.cs:159-163 | the music stops whatever its state |
| RewardGames.RewardGameManager.StartTimer | BreakTheBall/Assets/_Scripts/Rewards/RewardGames/RewardGameManager.cs:351-359 | the countdown is set to the limit in seconds and runs; only the first call does anything |
| RewardGames.RewardGameManager.UpdateTimer | BreakTheBall/Assets/_Scripts/Rewards/RewardGames/RewardGameManager.cs:244-322 | the frame time is taken off while the timer runs; at zero the timer stops for good, the game pauses once and game over is scheduled after the time-out animation; the warning fires at most once, and neither fires before the start |
| RewardGames.RewardGameManager.OnTimerAnimationComplete | BreakTheBall/Assets/_Scripts/Rewards/RewardGames/RewardGameManager.cs:324-329 | game over is reported |
| RewardGames.RewardGameManager.Pause | BreakTheBall/Assets/_Scripts/Rewards/RewardGames/RewardGameManager.cs:371-376 | the pause flag toggles and its new value is reported |
| Scenarios.LevelWonOnLastRing | BreakTheBall/Assets/CasualGame/BreakTheBall/Scripts/GameController.cs:427-441 | starting at or below the ring number, every ring before the ring number brings the next ring and the level is won exactly on it |
| Scenarios.LevelNeverWonPastRingNumber | BreakTheBall/Assets/CasualGame/BreakTheBall/Scripts/GameController.cs:427-441 | once the ring count has passed the ring number (a ring number below 1), the level can never be won |
| Scenarios.ShakeToEnd | BreakTheBall/Assets/CasualGame/BreakTheBall/Scripts/RotatorController.cs:96-117 | after a complete shake the rotator is back exactly where it was, whatever the frame times, and its rotation flags and angles are untouched |
| Scenarios.BounceToEnd | BreakTheBall/Assets/CasualGame/BreakTheBall/Scripts/RotatorController.cs:58-85 | rotation stays stopped on every frame of a bounce and is released exactly when the bounce is done |

## Left out

- User interface (UIManager, the timebar, level and ring-count texts, the game-over screen): these are outside the core. Where the code reads the screen's state, it becomes a parameter.
- Scene loading, `Time.timeScale`, singletons and event subscription: engine plumbing. Frame times are already scaled, and `isRestart` and `currentLevel` live in `Session`.
- Coroutine scheduling and `WaitForSeconds`:
  - the scheduler that interleaves routines is not modelled;
  - delayed routines (music after a delay, touch after a delay, the countdown start, the ball advance one frame later) appear as log entries, and their bodies as separate methods;
  - waits are not timed.
- `Rings.Ring.EnablePaintedPiece`: the one-frame pause between pre-painted pieces is collapsed. All picks happen in one call.
- Easing curves (EasyType) are an uninterpreted function `ease` of the curve and the factor.
  - `Rotators.Rotator.StepRotation`: does not claim that a leg ends exactly on its end angles, because the curves are uninterpreted.
  - `Rotators.Rotator.StepBounce`: does not claim that each leg lands on its end point, for the same reason.
- `GameControl.GameController.GetRandomMaterial` and `GameControl.GameController.HandleHitNormalRingPiece`: require a colour draw that differs from the previous index. On a level with exactly one colour, every draw after the first gives that same index again, so from the second ring on the source's loop never ends and the game freezes within one frame. `GameControl.ColorDrawPossible` states exactly when such a draw exists; the model does not represent the freeze.
- `Rotators.DrawLeg`: requires a draw in the stream that gives a running leg. A level whose draws can never give one makes the source's loop spin forever within one frame, which the model does not represent.
- `Rotators.Rotator.MoveDownAndBounce`, `Rotators.Rotator.StepRotation` and `Rings.Ring.StepMove`: require such a draw whenever a rotation leg is drawn, for the same reason.
- A level without rotation curves makes the rotation routine fail on its first draw. The model ends the routine there (no leg is started), and the rotation stays latched as started.
- `PaintedBalls.PaintedBall.Shoot`: the distance of a hit is a parameter of the raycast result, not derived from the hit point and the ball's position, because the Euclidean distance needs a square root that `real` does not have.
- Geometry:
  - re-parenting assumes a rotator of unit scale turned only about y;
  - Unity's normalisation of euler angles to [0, 360) is not modelled.
- Physics raycasts are parameters: the hit of the shot, and the tag of the piece struck on arrival. The ray origin's offset by half the ball's depth is not modelled.
- Floating-point rounding is not modelled. Unity's approximate `Color ==` is modelled as exact equality, which matters only for `CircleFading`'s white test.
- `Destroy` is immediate in the model. The engine defers it to the end of the frame; this makes no difference because `PaintedAllPieces` touches each piece once.
- `Instantiate` becomes a fresh object for pooled objects and cross marks, and a fresh handle for balls. The placement of the cross marks is not modelled.
- The particle system's own lifetime becomes the `EndParticle` call.
- Serialized configuration is taken at the defaults the components declare. Level tables, prefabs and the ring-piece height are parameters.
- Ball and ring materials: the painted balls' material colour is the controller's `ringColor`, not a separate object.
- Sounds: the `AudioSource` is the `audio` log. A missing clip makes the play routine fail after taking its slot, and the model records the slot as leaked.
- The reward timer's canvases, fill bar, warning audio and listener are reduced to the `events` log.
- `PaintedBalls.PaintedBall.Shoot` also requires a positive speed. The controller always shoots at 60.
- `GameControl.GameController.Start`: requires a controller that has not drawn a colour yet (previous index −1), as on scene load.
- `Common.RangeInt`: with reversed bounds the draw is modelled as a draw from the swapped range. The engine's exact choice there is not modelled.
