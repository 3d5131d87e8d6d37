/** The round and state machine of Paint-the-Rings (GameController.cs): the
    game state with its change notification, level selection, ring colours
    that never repeat between consecutive rings, the queue of painted balls
    fired one at a time, the decision that follows a normal hit, the paint
    countdown, the three object pools, and the level and restart
    bookkeeping that outlives a scene.

    Calls into components outside this class (sound, music, ring and ball
    instantiation, ball movement, delayed routines) are recorded in order in
    the `effects` log; painted balls are abstract handles. */
module GameControl {
  import opened Common
  import opened Fading
  import Rotators

  /** Serialized configuration, at the values the component declares. */
  const RingMoveDownTime: real := 0.25
  const RingYPosition: real := 12.0
  const TouchDelayTime: real := 0.1
  const PaintedBallShootingSpeed: real := 60.0
  const PaintedBallZPosition: real := -11.0
  const PaintedBallSpace: real := 1.0
  const FadingCircleScale: real := 3.0
  const FadingRingScale: real := 15.0
  const CircleFadingTime: real := 0.5
  const RingFadingTime: real := 1.0

  datatype Sound = ThrowBallSound | GameOverSound | PassLevelSound | FinishedRingSound

  /** The controller's calls into other components, and the routines it
      starts that act after a delay. */
  datatype Effect =
    | StateChanged(state: GameState)
    | PlaySound(sound: Sound)
    | PlayMusicAfterDelay
    | PauseMusicAfterDelay
    | ResumeMusicAfterDelay
    | SpawnRing(at: Vec3, paintedPieces: int, moveTime: real, color: Color)
    | SpawnBall(ball: nat, at: Vec3)
    | ShootBall(ball: nat, speed: real)
    | AdvanceBallsNextFrame
    | MoveBallForward(ball: nat, distance: real, time: real)
    | EnableTouchAfter(delay: real)
    | RunCountTimebarAfter(delay: real)

  /** What a hit on a normal piece leads to. */
  datatype RoundOutcome = AdvanceBalls | Win | NextRing

  /** The paint countdown: its drawn duration and the time accumulated. */
  datatype Countdown = Countdown(time: real, t: real)

  /** Where the k-th ball of a new batch is placed: behind the first one,
      one ball space apart. */
  function BallSlot(k: nat): Vec3 {
    Vec3(0.0, 0.0, PaintedBallZPosition - k as real * PaintedBallSpace)
  }

  /** The size of a new ball batch: the drawn number, or none when the
      draw is not positive (the creation loop does not run). */
  function BatchSize(level: LevelData, ballSample: nat): nat {
    var n := RangeInt(level.minPaintedBall, level.maxPaintedBall, ballSample);
    if n > 0 then n else 0
  }

  /** The handles of a batch of count balls, the first one being first. */
  function Handles(first: nat, count: nat): seq<nat> {
    seq(count, k => first + k)
  }

  /** One spawn per ball of a batch, each one ball space behind the
      previous. */
  function BallSpawns(first: nat, count: nat): seq<Effect> {
    seq(count, k requires 0 <= k < count => SpawnBall(first + k, BallSlot(k)))
  }

  /** The spawn of the next ring above the rotator, with a drawn number of
      pre-painted pieces, and the touch delay that follows it. */
  function RingSpawn(rotatorPosition: Vec3, level: LevelData, pieceSample: nat, color: Color): seq<Effect> {
    [SpawnRing(Add(rotatorPosition, Scale(Up, RingYPosition)),
               RangeInt(level.minPaintedPiece, level.maxPaintedPiece, pieceSample),
               RingMoveDownTime, color),
     EnableTouchAfter(RingMoveDownTime)]
  }

  /** The effects of starting a round: the next ring, a batch of `count`
      balls with handles from `first` on, and the countdown that runs once
      the ring has come down. */
  function RoundStart(rotatorPosition: Vec3, level: LevelData, pieceSample: nat, color: Color,
                      first: nat, count: nat): seq<Effect>
  {
    RingSpawn(rotatorPosition, level, pieceSample, color) + BallSpawns(first, count)
      + [RunCountTimebarAfter(RingMoveDownTime)]
  }

  /** The notification the GameState setter sends: one on a change, none
      otherwise. */
  function StateNote(before: GameState, after: GameState): seq<Effect> {
    if before != after then [StateChanged(after)] else []
  }

  /** One forward move per queued ball, in queue order. */
  function ForwardMoves(queue: seq<nat>): (moves: seq<Effect>)
    ensures |moves| == |queue|
    ensures forall k :: 0 <= k < |queue| ==> moves[k] == MoveBallForward(queue[k], PaintedBallSpace, TouchDelayTime)
  {
    seq(|queue|, k requires 0 <= k < |queue| => MoveBallForward(queue[k], PaintedBallSpace, TouchDelayTime))
  }

  /** The decision after a normal hit: balls left in the queue move up;
      otherwise the ring was the last of the level, or the next ring
      comes. */
  function RoundAdvance(queueLength: nat, ringCount: int, ringNumber: int): (o: RoundOutcome)
    ensures o == AdvanceBalls <==> queueLength > 0
    ensures o == Win <==> queueLength == 0 && ringCount == ringNumber
    ensures o == NextRing <==> queueLength == 0 && ringCount != ringNumber
  {
    if queueLength > 0 then AdvanceBalls
    else if ringCount == ringNumber then Win
    else NextRing
  }

  /** The colour index loop can stop exactly when some draw differs from
      the previous index: with two colours or more, or when the previous
      index is not 0. With one colour or none every draw gives 0. */
  lemma ColorDrawPossible(count: nat, previous: int)
    ensures (exists s: nat :: RangeInt(0, count, s) != previous) <==> count >= 2 || previous != 0
  {
    if count >= 2 {
      var s: nat := if previous == 0 then 1 else 0;
      assert RangeInt(0, count, s) == s;
    } else if previous != 0 {
      assert RangeInt(0, count, 0) == 0;
    } else {
      forall s: nat ensures RangeInt(0, count, s) == previous {
      }
    }
  }

  /** A particle system of the explosion pool. */
  class Particle {
    var active: bool
    var position: Vec3
    var playing: bool

    constructor ()
      ensures !active && !playing
    {
      active := false;
      position := Zero3;
      playing := false;
    }
  }

  /** The static properties, which survive a scene reload. */
  class Session {
    var currentLevel: int
    var isRestart: bool

    constructor ()
      ensures currentLevel == 0 && !isRestart
    {
      currentLevel := 0;
      isRestart := false;
    }

    /** The level a scene starts at: level 1 unless the scene is a
        restart, and a non-zero testing level overrides both. */
    method EnterScene(testingLevel: int)
      modifies this`currentLevel
      ensures testingLevel != 0 ==> currentLevel == testingLevel
      ensures testingLevel == 0 && !isRestart ==> currentLevel == 1
      ensures testingLevel == 0 && isRestart ==> currentLevel == old(currentLevel)
    {
      if !isRestart {
        currentLevel := 1;
      }
      if testingLevel != 0 {
        currentLevel := testingLevel;
      }
    }

    method IncreaseCurrentLevel()
      modifies this
      ensures currentLevel == old(currentLevel) + 1 && isRestart == old(isRestart)
    {
      currentLevel := currentLevel + 1;
    }

    /** Goes back one level, but only from a level above 2. */
    method DecreaseCurrentLevel()
      modifies this
      ensures old(currentLevel) > 2 ==> currentLevel == old(currentLevel) - 1
      ensures old(currentLevel) <= 2 ==> currentLevel == old(currentLevel)
      ensures isRestart == old(isRestart)
    {
      if currentLevel > 2 {
        currentLevel := currentLevel - 1;
      }
    }

    /** The reward session ended: the next scene starts over. */
    method ResetStaticVariables()
      modifies this
      ensures !isRestart && currentLevel == 0
    {
      isRestart := false;
      currentLevel := 0;
    }
  }

  /** Index of the first level whose [minLevel, maxLevel) contains level. */
  method SelectLevel(levels: seq<LevelData>, level: int) returns (found: Option<nat>)
    ensures found.Some? ==> found.value < |levels| && Contains(levels[found.value], level)
    ensures found.Some? ==> forall j :: 0 <= j < found.value ==> !Contains(levels[j], level)
    ensures found.None? <==> forall j :: 0 <= j < |levels| ==> !Contains(levels[j], level)
  {
    for i := 0 to |levels|
      invariant forall j :: 0 <= j < i ==> !Contains(levels[j], level)
    {
      if Contains(levels[i], level) {
        return Some(i);
      }
    }
    found := None;
  }

  /** What loading a level leaves behind: the first entry containing the
      level becomes the level data, with a ring number drawn from its range
      (maximum exclusive); with no such entry the previous data and ring
      number stay. */
  ghost predicate LevelLoaded(levels: seq<LevelData>, level: int, ringSample: nat,
                              before: LevelData, beforeRings: int, data: LevelData, rings: int)
  {
    if exists i :: 0 <= i < |levels| && Contains(levels[i], level) then
      exists i :: 0 <= i < |levels| && Contains(levels[i], level)
        && data == levels[i]
        && (forall j :: 0 <= j < i ==> !Contains(levels[j], level))
        && rings == RangeInt(levels[i].minRingNumber, levels[i].maxRingNumber, ringSample)
    else
      data == before && rings == beforeRings
  }

  /** The rejection loop of the colour choice: draws indices in [0, count)
      until one differs from previous. `draws` is the stream of random
      samples; the loop stops at the first one that escapes, which must
      exist (otherwise the loop never ends). */
  method DrawColorIndex(count: nat, previous: int, draws: seq<nat>) returns (index: int, used: nat)
    requires exists k :: 0 <= k < |draws| && RangeInt(0, count, draws[k]) != previous
    ensures index != previous
    ensures count > 0 ==> 0 <= index < count
    ensures count == 0 ==> index == 0
    ensures used < |draws| && index == RangeInt(0, count, draws[used])
    ensures forall k :: 0 <= k < used ==> RangeInt(0, count, draws[k]) == previous
  {
    used := 0;
    index := RangeInt(0, count, draws[0]);
    while index == previous
      invariant used < |draws| && index == RangeInt(0, count, draws[used])
      invariant forall k :: 0 <= k < used ==> RangeInt(0, count, draws[k]) == previous
      invariant exists k :: used <= k < |draws| && RangeInt(0, count, draws[k]) != previous
      decreases |draws| - used
    {
      used := used + 1;
      index := RangeInt(0, count, draws[used]);
    }
  }

  /** The pool search shared by the three pool getters: the index of the
      first object whose active flag is off, or -1 when every object is
      active. */
  method FirstInactive(active: seq<bool>) returns (index: int)
    ensures -1 <= index < |active|
    ensures index >= 0 ==> !active[index] && forall j :: 0 <= j < index ==> active[j]
    ensures index == -1 <==> forall j :: 0 <= j < |active| ==> active[j]
  {
    for i := 0 to |active|
      invariant forall j :: 0 <= j < i ==> active[j]
    {
      if !active[i] {
        return i;
      }
    }
    index := -1;
  }

  class GameController {
    const session: Session
    /** The rotator the rings are stacked on. Its position is read at each
        ring spawn, so a stack that sank under its bounces spawns lower. */
    const rotator: Rotators.Rotator

    var gameState: GameState
    var effects: seq<Effect>
    /** The queue of painted balls waiting to be shot, front first. */
    var balls: seq<nat>
    /** The next fresh ball handle. */
    var nextBall: nat
    var fadingCircles: seq<FadingObject>
    var fadingRings: seq<FadingObject>
    var explosions: seq<Particle>
    /** The running paint countdown, if any. */
    var countdown: Option<Countdown>
    var ringNumber: int
    var ringCount: int
    var previousColorIndex: int
    var disableTouch: bool
    var isOutOfPaintedBall: bool
    var currentLevelData: LevelData
    /** Colour of the current ring material, which painted balls share. */
    var ringColor: Color
    var ringPieceHeight: real

    /** Queue handles are distinct and all were handed out already. */
    ghost predicate Valid()
      reads this
    {
      Distinct(balls) && forall k :: 0 <= k < |balls| ==> balls[k] < nextBall
    }

    constructor (session: Session, rotator: Rotators.Rotator)
      ensures this.session == session && this.rotator == rotator
      ensures gameState == GameState.GameOver && ringNumber == 0 && ringCount == 1 && previousColorIndex == -1
      ensures !disableTouch && !isOutOfPaintedBall && countdown.None?
      ensures balls == [] && effects == [] && fadingCircles == [] && fadingRings == [] && explosions == []
      ensures Valid()
    {
      this.session := session;
      this.rotator := rotator;
      gameState := GameState.GameOver;
      effects := [];
      balls := [];
      nextBall := 0;
      fadingCircles := [];
      fadingRings := [];
      explosions := [];
      countdown := None;
      ringNumber := 0;
      ringCount := 1;
      previousColorIndex := -1;
      disableTouch := false;
      isOutOfPaintedBall := false;
      currentLevelData := NoLevelData;
      ringColor := White;
      ringPieceHeight := 0.0;
    }

    /** The GameState setter: assigning the current state does nothing;
        assigning another one stores it and notifies once with it. */
    method SetGameState(value: GameState)
      modifies this`gameState, this`effects
      ensures gameState == value
      ensures old(gameState) == value ==> effects == old(effects)
      ensures old(gameState) != value ==> effects == old(effects) + [StateChanged(value)]
    {
      if value != gameState {
        gameState := value;
        effects := effects + [StateChanged(value)];
      }
    }

    /** Picks the next ring colour: an index different from the previous
        one, which is then remembered. With no colour at all the index is 0
        and reading the colour fails, after the index was stored. */
    method GetRandomMaterial(draws: seq<nat>) returns (material: Option<Color>)
      requires exists k :: 0 <= k < |draws| && RangeInt(0, |currentLevelData.ringColors|, draws[k]) != previousColorIndex
      modifies this`previousColorIndex
      ensures previousColorIndex != old(previousColorIndex)
      ensures material.Some? <==> |currentLevelData.ringColors| > 0
      ensures material.Some? ==>
        && 0 <= previousColorIndex < |currentLevelData.ringColors|
        && material.value == currentLevelData.ringColors[previousColorIndex]
      ensures material.Some? && Distinct(currentLevelData.ringColors) && 0 <= old(previousColorIndex) < |currentLevelData.ringColors| ==>
        material.value != currentLevelData.ringColors[old(previousColorIndex)]
    {
      var colors := currentLevelData.ringColors;
      var index, _ := DrawColorIndex(|colors|, previousColorIndex, draws);
      previousColorIndex := index;
      if index < |colors| {
        material := Some(colors[index]);
      } else {
        material := None;
      }
    }

    /** Makes the first level entry containing the current level the
        level data and draws the ring number from its range (maximum
        exclusive). With no such entry both stay as they were. */
    method LoadLevelData(levels: seq<LevelData>, ringSample: nat)
      modifies this`currentLevelData, this`ringNumber
      ensures LevelLoaded(levels, session.currentLevel, ringSample, old(currentLevelData), old(ringNumber),
                          currentLevelData, ringNumber)
    {
      var found := SelectLevel(levels, session.currentLevel);
      if found.Some? {
        currentLevelData := levels[found.value];
        ringNumber := RangeInt(currentLevelData.minRingNumber, currentLevelData.maxRingNumber, ringSample);
      }
    }

    /** The preparing part of a scene start: the state goes to Prepare,
        the level is entered and its data loaded, then the ring colour is
        drawn, which fails when the level data has no colour (in particular
        when no entry matched) and ends the start there. */
    method EnterLevel(levels: seq<LevelData>, testingLevel: int, ringSample: nat, colorDraws: seq<nat>,
                      pieceHeight: real) returns (ok: bool)
      requires Valid() && previousColorIndex < 0 && |colorDraws| > 0
      modifies this`gameState, this`effects, this`currentLevelData, this`ringNumber, this`previousColorIndex
      modifies this`ringColor, this`ringPieceHeight, this`isOutOfPaintedBall, session`currentLevel
      ensures Valid()
      ensures session.isRestart == old(session.isRestart)
      ensures session.currentLevel ==
        if testingLevel != 0 then testingLevel else if session.isRestart then old(session.currentLevel) else 1
      ensures LevelLoaded(levels, session.currentLevel, ringSample, old(currentLevelData), old(ringNumber),
                          currentLevelData, ringNumber)
      ensures ok <==> |currentLevelData.ringColors| > 0
      ensures ok ==>
        && 0 <= previousColorIndex < |currentLevelData.ringColors|
        && ringColor == currentLevelData.ringColors[previousColorIndex]
        && ringPieceHeight == pieceHeight && !isOutOfPaintedBall
      ensures gameState == Prepare && effects == old(effects) + StateNote(old(gameState), Prepare)
    {
      SetGameState(Prepare);
      session.EnterScene(testingLevel);
      LoadLevelData(levels, ringSample);
      assert RangeInt(0, |currentLevelData.ringColors|, colorDraws[0]) != previousColorIndex;
      var material := GetRandomMaterial(colorDraws);
      if material.None? {
        return false;
      }
      ringColor := material.value;
      ringPieceHeight := pieceHeight;
      isOutOfPaintedBall := false;
      ok := true;
    }

    /** Scene start: prepares the level as EnterLevel does; on a restart
        whose colour draw succeeded the game then begins at once. */
    method Start(levels: seq<LevelData>, testingLevel: int, ringSample: nat, colorDraws: seq<nat>,
                 pieceHeight: real, pieceSample: nat, ballSample: nat) returns (ok: bool)
      requires Valid() && previousColorIndex < 0 && |colorDraws| > 0
      modifies this`gameState, this`effects, this`currentLevelData, this`ringNumber, this`previousColorIndex
      modifies this`ringColor, this`ringPieceHeight, this`isOutOfPaintedBall, this`disableTouch
      modifies this`balls, this`nextBall, session`currentLevel
      ensures Valid()
      ensures session.isRestart == old(session.isRestart)
      ensures session.currentLevel ==
        if testingLevel != 0 then testingLevel else if session.isRestart then old(session.currentLevel) else 1
      ensures LevelLoaded(levels, session.currentLevel, ringSample, old(currentLevelData), old(ringNumber),
                          currentLevelData, ringNumber)
      ensures ok <==> |currentLevelData.ringColors| > 0
      ensures ok ==>
        && 0 <= previousColorIndex < |currentLevelData.ringColors|
        && ringColor == currentLevelData.ringColors[previousColorIndex]
        && ringPieceHeight == pieceHeight && !isOutOfPaintedBall
      ensures !ok || !session.isRestart ==>
        && gameState == Prepare && balls == old(balls) && nextBall == old(nextBall) && disableTouch == old(disableTouch)
        && effects == old(effects) + StateNote(old(gameState), Prepare)
      ensures ok && session.isRestart ==>
        var count := BatchSize(currentLevelData, ballSample);
        && gameState == Playing && disableTouch
        && nextBall == old(nextBall) + count
        && balls == old(balls) + Handles(old(nextBall), count)
        && effects == old(effects) + StateNote(old(gameState), Prepare) + [StateChanged(Playing), PlayMusicAfterDelay]
                      + RoundStart(rotator.position, currentLevelData, pieceSample, ringColor, old(nextBall), count)
    {
      ok := EnterLevel(levels, testingLevel, ringSample, colorDraws, pieceHeight);
      if ok && session.isRestart {
        ghost var prepared := effects;
        PlayingGame(pieceSample, ballSample);
        assert effects == prepared + [StateChanged(Playing), PlayMusicAfterDelay]
          + RoundStart(rotator.position, currentLevelData, pieceSample, ringColor, old(nextBall),
                       BatchSize(currentLevelData, ballSample));
      }
    }

    /** Begins play: state Playing, background music after a delay, the
        first ring and its ball batch, and the countdown after the ring has
        come down. */
    method PlayingGame(pieceSample: nat, ballSample: nat)
      requires Valid()
      modifies this`gameState, this`effects, this`disableTouch, this`balls, this`nextBall
      ensures Valid()
      ensures gameState == Playing && disableTouch
      ensures var count := BatchSize(currentLevelData, ballSample);
        && nextBall == old(nextBall) + count
        && balls == old(balls) + Handles(old(nextBall), count)
        && effects == old(effects) + StateNote(old(gameState), Playing) + [PlayMusicAfterDelay]
                      + RoundStart(rotator.position, currentLevelData, pieceSample, ringColor, old(nextBall), count)
    {
      SetGameState(Playing);
      effects := effects + [PlayMusicAfterDelay];
      CreateNextRing(pieceSample);
      CreatePaintedBall(ballSample);
      effects := effects + [RunCountTimebarAfter(RingMoveDownTime)];
    }

    /** Spawns the next ring above the rotator with a drawn number of
        pre-painted pieces, and blocks touch until it has come down. */
    method CreateNextRing(pieceSample: nat)
      modifies this`effects, this`disableTouch
      ensures disableTouch
      ensures effects == old(effects) + RingSpawn(rotator.position, currentLevelData, pieceSample, ringColor)
    {
      var at := Add(rotator.position, Scale(Up, RingYPosition));
      var painted := RangeInt(currentLevelData.minPaintedPiece, currentLevelData.maxPaintedPiece, pieceSample);
      effects := effects + [SpawnRing(at, painted, RingMoveDownTime, ringColor)];
      disableTouch := true;
      effects := effects + [EnableTouchAfter(RingMoveDownTime)];
    }

    /** The end of the touch delay routine. */
    method EnableTouch()
      modifies this`disableTouch
      ensures !disableTouch
    {
      disableTouch := false;
    }

    /** Creates a drawn number of balls lined up backward from the first
        slot and appends them to the queue with fresh handles. */
    method CreatePaintedBall(ballSample: nat)
      requires Valid()
      modifies this`balls, this`nextBall, this`effects
      ensures Valid()
      ensures var count := BatchSize(currentLevelData, ballSample);
        && nextBall == old(nextBall) + count
        && balls == old(balls) + Handles(old(nextBall), count)
        && effects == old(effects) + BallSpawns(old(nextBall), count)
    {
      var number := RangeInt(currentLevelData.minPaintedBall, currentLevelData.maxPaintedBall, ballSample);
      var pos := BallSlot(0);
      var i := 0;
      while i < number
        invariant 0 <= i && (number > 0 ==> i <= number) && (number <= 0 ==> i == 0)
        invariant pos == BallSlot(i)
        invariant nextBall == old(nextBall) + i
        invariant balls == old(balls) + Handles(old(nextBall), i)
        invariant effects == old(effects) + BallSpawns(old(nextBall), i)
        invariant Valid()
      {
        var ball := nextBall;
        assert Handles(old(nextBall), i + 1) == Handles(old(nextBall), i) + [ball];
        assert BallSpawns(old(nextBall), i + 1) == BallSpawns(old(nextBall), i) + [SpawnBall(ball, pos)];
        nextBall := nextBall + 1;
        balls := balls + [ball];
        effects := effects + [SpawnBall(ball, pos)];
        pos := Add(pos, Scale(Back, PaintedBallSpace));
        i := i + 1;
      }
    }

    /** The delayed start of the paint countdown, with its first frame. The
        duration is drawn from the level's range; a countdown already
        running is stopped and replaced. Its first frame accumulates the
        frame time whatever the state; a duration of zero or less ends the
        game at once. */
    method RunCountTimebar(u: real, dt: real)
      requires 0.0 <= dt
      modifies this`countdown, this`gameState, this`effects, session`isRestart
      ensures var time := RangeReal(currentLevelData.minTimeToPaintOneRing as real, currentLevelData.maxTimeToPaintOneRing, u);
        && (0.0 < time ==>
              && countdown == Some(Countdown(time, dt)) && gameState == old(gameState) && effects == old(effects)
              && session.isRestart == old(session.isRestart))
        && (time <= 0.0 ==>
              && countdown.None? && gameState == GameState.GameOver && session.isRestart
              && effects == old(effects) + StateNote(old(gameState), GameState.GameOver) + [PlaySound(GameOverSound)])
    {
      var time := RangeReal(currentLevelData.minTimeToPaintOneRing as real, currentLevelData.maxTimeToPaintOneRing, u);
      countdown := None;
      if 0.0 < time {
        countdown := Some(Countdown(time, dt));
      } else {
        GameOver();
      }
    }

    /** One later frame of the countdown. It is parked while the state is
        not Playing: no time accumulates and nothing fires. While Playing it
        accumulates the frame time until the duration is reached, and on the
        next Playing frame it ends the game and finishes. */
    method TickCountdown(dt: real)
      requires 0.0 <= dt
      modifies this`countdown, this`gameState, this`effects, session`isRestart
      ensures old(countdown).None? || old(gameState) != Playing ==>
        && countdown == old(countdown) && gameState == old(gameState) && effects == old(effects)
        && session.isRestart == old(session.isRestart)
      ensures old(countdown).Some? && old(gameState) == Playing && old(countdown).value.t < old(countdown).value.time ==>
        && countdown == Some(old(countdown).value.(t := old(countdown).value.t + dt)) && effects == old(effects)
        && gameState == Playing && session.isRestart == old(session.isRestart)
      ensures old(countdown).Some? && old(gameState) == Playing && old(countdown).value.t >= old(countdown).value.time ==>
        countdown.None? && gameState == GameState.GameOver && session.isRestart
        && effects == old(effects) + [StateChanged(GameState.GameOver), PlaySound(GameOverSound)]
    {
      match countdown {
        case None =>
        case Some(c) =>
          if gameState != Playing {
            return;
          }
          if c.t < c.time {
            countdown := Some(c.(t := c.t + dt));
          } else {
            countdown := None;
            GameOver();
          }
      }
    }

    /** Game over: state GameOver, the next scene is a restart, and the
        game-over sound plays. */
    method GameOver()
      modifies this`gameState, this`effects, session`isRestart
      ensures gameState == GameState.GameOver && session.isRestart
      ensures old(gameState) == GameState.GameOver ==> effects == old(effects) + [PlaySound(GameOverSound)]
      ensures old(gameState) != GameState.GameOver ==> effects == old(effects) + [StateChanged(GameState.GameOver), PlaySound(GameOverSound)]
    {
      SetGameState(GameState.GameOver);
      session.isRestart := true;
      effects := effects + [PlaySound(GameOverSound)];
    }

    /** Level passed: state PassLevel, the next scene is a restart, and the
        pass sound plays. */
    method PassLevel()
      modifies this`gameState, this`effects, session`isRestart
      ensures gameState == GameState.PassLevel && session.isRestart
      ensures old(gameState) == GameState.PassLevel ==> effects == old(effects) + [PlaySound(PassLevelSound)]
      ensures old(gameState) != GameState.PassLevel ==> effects == old(effects) + [StateChanged(GameState.PassLevel), PlaySound(PassLevelSound)]
    {
      SetGameState(GameState.PassLevel);
      session.isRestart := true;
      effects := effects + [PlaySound(PassLevelSound)];
    }

    method PauseGame()
      modifies this`gameState, this`effects
      ensures gameState == Pause
      ensures effects == old(effects) + (if old(gameState) != Pause then [StateChanged(Pause)] else []) + [PauseMusicAfterDelay]
    {
      SetGameState(Pause);
      effects := effects + [PauseMusicAfterDelay];
    }

    method UnPauseGame()
      modifies this`gameState, this`effects
      ensures gameState == Playing
      ensures effects == old(effects) + (if old(gameState) != Playing then [StateChanged(Playing)] else []) + [ResumeMusicAfterDelay]
    {
      SetGameState(Playing);
      effects := effects + [ResumeMusicAfterDelay];
    }

    /** A frame of input. A press fires only while Playing, with touch
        enabled, the press not on a UI element and the game-over screen not
        showing: the throw sound plays, touch is blocked, and the front ball
        is shot and leaves the queue; the out-of-balls flag then says
        whether the queue is empty. Pressing with an empty queue fails on
        the list access after the sound and the touch block. */
    method Update(gameOverScreen: bool, pressed: bool, onUiElement: bool) returns (fired: Option<nat>)
      requires Valid()
      modifies this`disableTouch, this`effects, this`balls, this`isOutOfPaintedBall
      ensures Valid()
      ensures var fires := !gameOverScreen && old(gameState) == Playing && pressed && !old(disableTouch) && !onUiElement;
        && (!fires ==> fired.None? && unchanged(this`disableTouch, this`effects, this`balls, this`isOutOfPaintedBall))
        && (fires && old(balls) == [] ==>
              fired.None? && disableTouch && effects == old(effects) + [PlaySound(ThrowBallSound)]
              && balls == [] && isOutOfPaintedBall == old(isOutOfPaintedBall))
        && (fires && old(balls) != [] ==>
              && fired == Some(old(balls)[0]) && balls == old(balls)[1..] && disableTouch
              && effects == old(effects) + [PlaySound(ThrowBallSound), ShootBall(old(balls)[0], PaintedBallShootingSpeed)]
              && (isOutOfPaintedBall <==> balls == []))
    {
      fired := None;
      if gameOverScreen {
        return;
      }
      if gameState == Playing && pressed && !disableTouch && !onUiElement {
        effects := effects + [PlaySound(ThrowBallSound)];
        disableTouch := true;
        if balls == [] {
          return;
        }
        var ball := balls[0];
        effects := effects + [ShootBall(ball, PaintedBallShootingSpeed)];
        balls := balls[1..];
        isOutOfPaintedBall := balls == [];
        fired := Some(ball);
      }
    }

    /** After a normal piece was hit: balls left move up; with none left
        the level is passed on its last ring, otherwise the finished-ring
        sound plays, the ring count grows by one and the next ring, in a new
        colour, comes with a new ball batch and a new countdown. The next
        colour can fail as in GetRandomMaterial, which ends the call after
        the sound and the count. */
    method HandleHitNormalRingPiece(colorDraws: seq<nat>, pieceSample: nat, ballSample: nat)
      returns (outcome: RoundOutcome)
      requires Valid()
      requires |balls| == 0 && ringCount != ringNumber ==>
        exists k :: 0 <= k < |colorDraws| && RangeInt(0, |currentLevelData.ringColors|, colorDraws[k]) != previousColorIndex
      modifies this`effects, this`gameState, this`ringCount, this`previousColorIndex, this`ringColor
      modifies this`disableTouch, this`balls, this`nextBall, session`isRestart
      ensures Valid()
      ensures outcome == RoundAdvance(old(|balls|), old(ringCount), old(ringNumber))
      ensures ringNumber == old(ringNumber)
      ensures outcome == AdvanceBalls ==>
        && unchanged(this`ringCount, this`balls, this`nextBall, this`gameState, this`disableTouch, this`ringColor)
        && unchanged(this`previousColorIndex, session`isRestart)
        && effects == old(effects) + [AdvanceBallsNextFrame]
      ensures outcome == Win ==>
        && gameState == GameState.PassLevel && session.isRestart
        && unchanged(this`ringCount, this`balls, this`nextBall, this`disableTouch, this`ringColor, this`previousColorIndex)
        && effects == old(effects) + StateNote(old(gameState), GameState.PassLevel) + [PlaySound(PassLevelSound)]
      ensures outcome == NextRing ==>
        && ringCount == old(ringCount) + 1
        && previousColorIndex != old(previousColorIndex)
        && gameState == old(gameState) && session.isRestart == old(session.isRestart)
      ensures outcome == NextRing && |currentLevelData.ringColors| == 0 ==>
        && unchanged(this`balls, this`nextBall, this`disableTouch, this`ringColor)
        && effects == old(effects) + [PlaySound(FinishedRingSound)]
      ensures outcome == NextRing && |currentLevelData.ringColors| > 0 ==>
        var count := BatchSize(currentLevelData, ballSample);
        && 0 <= previousColorIndex < |currentLevelData.ringColors|
        && ringColor == currentLevelData.ringColors[previousColorIndex]
        && disableTouch
        && nextBall == old(nextBall) + count
        && balls == old(balls) + Handles(old(nextBall), count)
        && effects == old(effects) + [PlaySound(FinishedRingSound)]
                      + RoundStart(rotator.position, currentLevelData, pieceSample, ringColor, old(nextBall), count)
      ensures old(ringCount) <= ringNumber ==> ringCount <= ringNumber
    {
      outcome := RoundAdvance(|balls|, ringCount, ringNumber);
      match outcome {
        case AdvanceBalls =>
          effects := effects + [AdvanceBallsNextFrame];
        case Win =>
          PassLevel();
        case NextRing =>
          effects := effects + [PlaySound(FinishedRingSound)];
          ringCount := ringCount + 1;
          var material := GetRandomMaterial(colorDraws);
          if material.None? {
            return;
          }
          ringColor := material.value;
          CreateNextRing(pieceSample);
          CreatePaintedBall(ballSample);
          effects := effects + [RunCountTimebarAfter(RingMoveDownTime)];
      }
    }

    /** The routine that moves every queued ball up by one slot, one frame
        after the hit, and then unblocks touch after the move. */
    method MovingForwardAllPaintedBall()
      modifies this`effects
      ensures effects == old(effects) + ForwardMoves(balls) + [EnableTouchAfter(TouchDelayTime)]
    {
      for i := 0 to |balls|
        invariant effects == old(effects) + ForwardMoves(balls[..i])
      {
        assert ForwardMoves(balls[..i + 1]) == ForwardMoves(balls[..i]) + [MoveBallForward(balls[i], PaintedBallSpace, TouchDelayTime)];
        effects := effects + [MoveBallForward(balls[i], PaintedBallSpace, TouchDelayTime)];
      }
      assert balls[..|balls|] == balls;
      effects := effects + [EnableTouchAfter(TouchDelayTime)];
    }

    /** A hit on a painted piece ends the game. */
    method HandleHitPaintedRingPiece()
      modifies this`gameState, this`effects, session`isRestart
      ensures gameState == GameState.GameOver && session.isRestart
      ensures effects == old(effects) + StateNote(old(gameState), GameState.GameOver) + [PlaySound(GameOverSound)]
    {
      GameOver();
    }

    /** Pool getter: the first inactive explosion, or a new inactive one
        appended to the pool. The pool never shrinks. */
    method GetPaintedBallExplode() returns (p: Particle)
      modifies this`explosions
      ensures !p.active && p in explosions
      ensures |explosions| >= |old(explosions)| && explosions[..|old(explosions)|] == old(explosions)
      ensures (exists j :: 0 <= j < |old(explosions)| && !old(explosions)[j].active) ==>
        && explosions == old(explosions)
        && exists j :: 0 <= j < |explosions| && p == explosions[j]
             && forall i :: 0 <= i < j ==> explosions[i].active
      ensures (forall j :: 0 <= j < |old(explosions)| ==> old(explosions)[j].active) ==>
        explosions == old(explosions) + [p] && fresh(p)
    {
      var pool := explosions;
      var flags := seq(|pool|, i requires 0 <= i < |pool| reads pool => pool[i].active);
      var index := FirstInactive(flags);
      assert forall j :: 0 <= j < |pool| ==> flags[j] == pool[j].active;
      if index >= 0 {
        p := explosions[index];
      } else {
        p := new Particle();
        explosions := explosions + [p];
      }
    }

    /** Plays an explosion at the given position with a pooled particle. */
    method PlayPaintedBallExplode(pos: Vec3) returns (p: Particle)
      modifies this`explosions, explosions
      ensures p in explosions && p.active && p.playing && p.position == pos
      ensures |explosions| >= |old(explosions)| && explosions[..|old(explosions)|] == old(explosions)
      ensures (exists j :: 0 <= j < |old(explosions)| && !old(explosions[j].active)) ==>
        && explosions == old(explosions)
        && exists j :: 0 <= j < |explosions| && p == explosions[j] && !old(explosions[j].active)
             && forall i :: 0 <= i < j ==> old(explosions[i].active)
      ensures (forall j :: 0 <= j < |old(explosions)| ==> old(explosions[j].active)) ==>
        explosions == old(explosions) + [p] && fresh(p)
      ensures forall q :: q in old(explosions) && q != p ==> unchanged(q)
    {
      p := GetPaintedBallExplode();
      p.position := pos;
      p.active := true;
      p.playing := true;
    }

    /** The end of a particle's lifetime returns it to its pool. */
    method EndParticle(p: Particle)
      modifies p
      ensures !p.active && !p.playing && p.position == old(p.position)
    {
      p.playing := false;
      p.active := false;
    }

    /** Pool getter: the first inactive fading circle, or a new inactive
        one (with the prefab's colour) appended to the pool. */
    method GetFadingCircleControl(prefabColor: Color) returns (o: FadingObject)
      modifies this`fadingCircles
      ensures !o.active && o in fadingCircles
      ensures |fadingCircles| >= |old(fadingCircles)| && fadingCircles[..|old(fadingCircles)|] == old(fadingCircles)
      ensures (exists j :: 0 <= j < |old(fadingCircles)| && !old(fadingCircles)[j].active) ==>
        && fadingCircles == old(fadingCircles)
        && exists j :: 0 <= j < |fadingCircles| && o == fadingCircles[j]
             && forall i :: 0 <= i < j ==> fadingCircles[i].active
      ensures (forall j :: 0 <= j < |old(fadingCircles)| ==> old(fadingCircles)[j].active) ==>
        fadingCircles == old(fadingCircles) + [o] && fresh(o)
    {
      var pool := fadingCircles;
      var flags := seq(|pool|, i requires 0 <= i < |pool| reads pool => pool[i].active);
      var index := FirstInactive(flags);
      assert forall j :: 0 <= j < |pool| ==> flags[j] == pool[j].active;
      if index >= 0 {
        o := fadingCircles[index];
      } else {
        o := new FadingObject(prefabColor);
        fadingCircles := fadingCircles + [o];
      }
    }

    /** Pool getter: the first inactive fading ring, or a new inactive one
        appended to the pool. */
    method GetFadingRingControl(prefabColor: Color) returns (o: FadingObject)
      modifies this`fadingRings
      ensures !o.active && o in fadingRings
      ensures |fadingRings| >= |old(fadingRings)| && fadingRings[..|old(fadingRings)|] == old(fadingRings)
      ensures (exists j :: 0 <= j < |old(fadingRings)| && !old(fadingRings)[j].active) ==>
        && fadingRings == old(fadingRings)
        && exists j :: 0 <= j < |fadingRings| && o == fadingRings[j]
             && forall i :: 0 <= i < j ==> fadingRings[i].active
      ensures (forall j :: 0 <= j < |old(fadingRings)| ==> old(fadingRings)[j].active) ==>
        fadingRings == old(fadingRings) + [o] && fresh(o)
    {
      var pool := fadingRings;
      var flags := seq(|pool|, i requires 0 <= i < |pool| reads pool => pool[i].active);
      var index := FirstInactive(flags);
      assert forall j :: 0 <= j < |pool| ==> flags[j] == pool[j].active;
      if index >= 0 {
        o := fadingRings[index];
      } else {
        o := new FadingObject(prefabColor);
        fadingRings := fadingRings + [o];
      }
    }

    /** Shows a fading circle at pos under the given parent and starts its
        fade to FadingCircleScale over CircleFadingTime. */
    method CreateFadingCircle(pos: Vec3, parent: object?, prefabColor: Color) returns (o: FadingObject, f: Fade)
      modifies this`fadingCircles, fadingCircles
      ensures o in fadingCircles && o.active && o.position == pos && o.parent == parent
      ensures |fadingCircles| >= |old(fadingCircles)| && fadingCircles[..|old(fadingCircles)|] == old(fadingCircles)
      ensures (exists j :: 0 <= j < |old(fadingCircles)| && !old(fadingCircles[j].active)) ==>
        && fadingCircles == old(fadingCircles)
        && exists j :: 0 <= j < |fadingCircles| && o == fadingCircles[j] && !old(fadingCircles[j].active)
             && forall i :: 0 <= i < j ==> old(fadingCircles[i].active)
      ensures (forall j :: 0 <= j < |old(fadingCircles)| ==> old(fadingCircles[j].active)) ==>
        fadingCircles == old(fadingCircles) + [o] && fresh(o)
      ensures forall q :: q in old(fadingCircles) && q != o ==> unchanged(q)
      ensures f.newScale == Scale(One3, FadingCircleScale) && f.time == CircleFadingTime && f.t == 0.0
      ensures f.startColor == o.color && f.endColor == Transparent(o.color)
    {
      o := GetFadingCircleControl(prefabColor);
      o.position := pos;
      o.parent := parent;
      o.active := true;
      f := o.CircleFading(Scale(One3, FadingCircleScale), CircleFadingTime);
    }

    /** Shows a fading ring at pos in the current ring colour and starts
        its fade to FadingRingScale over RingFadingTime. */
    method CreateFadingRing(pos: Vec3, prefabColor: Color) returns (o: FadingObject, f: Fade)
      modifies this`fadingRings, fadingRings
      ensures o in fadingRings && o.active && o.position == pos && o.color == ringColor
      ensures |fadingRings| >= |old(fadingRings)| && fadingRings[..|old(fadingRings)|] == old(fadingRings)
      ensures (exists j :: 0 <= j < |old(fadingRings)| && !old(fadingRings[j].active)) ==>
        && fadingRings == old(fadingRings)
        && exists j :: 0 <= j < |fadingRings| && o == fadingRings[j] && !old(fadingRings[j].active)
             && forall i :: 0 <= i < j ==> old(fadingRings[i].active)
      ensures (forall j :: 0 <= j < |old(fadingRings)| ==> old(fadingRings[j].active)) ==>
        fadingRings == old(fadingRings) + [o] && fresh(o)
      ensures forall q :: q in old(fadingRings) && q != o ==> unchanged(q)
      ensures f.newScale == Scale(One3, FadingRingScale) && f.time == RingFadingTime && f.t == 0.0
      ensures f.startColor == ringColor && f.endColor == Transparent(ringColor)
    {
      o := GetFadingRingControl(prefabColor);
      o.position := pos;
      o.active := true;
      f := o.RingFading(Scale(One3, FadingRingScale), RingFadingTime, ringColor);
    }
  }
}
