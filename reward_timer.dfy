/** The reward-session timer (RewardGameManager.cs): a countdown started
    once per session, a one-shot warning near its end, the time-out that
    pauses the game and, after the time-out animation, reports game over,
    and the pause toggle. Notifications to other components are recorded in
    order in the `events` log. */
module RewardGames {
  import opened Common

  datatype TimerEvent =
    | WarningStarted                  // warning animation and sound
    | TimeOutAnimationStarted
    | ListenerPaused                  // all audio paused
    | PauseStateChanged(paused: bool) // GamePauseStateChanged
    | GameOverAfter(delay: real)      // OnTimerAnimationComplete scheduled
    | GameOverRaised                  // the GameOver event

  /** Appending one event adds one to its own count and leaves the
      counts of the other tracked events as they were. */
  lemma {:induction false} CountsAfterAppend(s: seq<TimerEvent>, e: TimerEvent)
    ensures CountOf(s + [e], WarningStarted) == CountOf(s, WarningStarted) + (if e == WarningStarted then 1 else 0)
    ensures CountOf(s + [e], TimeOutAnimationStarted) == CountOf(s, TimeOutAnimationStarted) + (if e == TimeOutAnimationStarted then 1 else 0)
    ensures CountOf(s + [e], ListenerPaused) == CountOf(s, ListenerPaused) + (if e == ListenerPaused then 1 else 0)
  {
    CountOfAppend(s, [e], WarningStarted);
    CountOfAppend(s, [e], TimeOutAnimationStarted);
    CountOfAppend(s, [e], ListenerPaused);
  }

  class RewardGameManager {
    /** Serialized configuration: remaining time below which the warning
        starts, in seconds, and the session length, in minutes. */
    const warningInitiatingTime: real
    const timeLimitInMinutes: real
    /** Whether a timer animation is assigned, and the length of its
        time-out clip. */
    const hasTimerAnimation: bool
    const timeOutAnimationLength: real

    var timeLeft: real
    var isPaused: bool
    var didTimerStart: bool
    var timeRunning: bool
    var isWarningSetOnTimer: bool
    var timerAnimationLength: real
    var events: seq<TimerEvent>

    /** The timer runs only after it was started; the time-out and the
        warning each fire at most once, a time-out stops the timer for
        good, and a warning fired while the timer still runs is remembered
        by the warning flag. */
    ghost predicate Valid()
      reads this
    {
      && (timeRunning ==> didTimerStart)
      && CountOf(events, TimeOutAnimationStarted) <= CountOf(events, ListenerPaused)
      && CountOf(events, ListenerPaused) <= 1
      && (CountOf(events, ListenerPaused) == 1 ==> didTimerStart && !timeRunning)
      && CountOf(events, WarningStarted) <= 1
      && (!didTimerStart ==> CountOf(events, WarningStarted) == 0)
      && (CountOf(events, WarningStarted) == 1 && timeRunning ==> isWarningSetOnTimer)
      && (isWarningSetOnTimer ==> CountOf(events, WarningStarted) == 1)
    }

    constructor (warningInitiatingTime: real, timeLimitInMinutes: real, hasTimerAnimation: bool, timeOutAnimationLength: real)
      ensures Valid()
      ensures this.warningInitiatingTime == warningInitiatingTime && this.timeLimitInMinutes == timeLimitInMinutes
      ensures this.hasTimerAnimation == hasTimerAnimation && this.timeOutAnimationLength == timeOutAnimationLength
      ensures !didTimerStart && !timeRunning && !isWarningSetOnTimer && !isPaused && events == []
    {
      this.warningInitiatingTime := warningInitiatingTime;
      this.timeLimitInMinutes := timeLimitInMinutes;
      this.hasTimerAnimation := hasTimerAnimation;
      this.timeOutAnimationLength := timeOutAnimationLength;
      timeLeft := 0.0;
      isPaused := false;
      didTimerStart := false;
      timeRunning := false;
      isWarningSetOnTimer := false;
      timerAnimationLength := 0.0;
      events := [];
    }

    /** Starts the session countdown. Only the first call does anything. */
    method StartTimer()
      requires Valid()
      modifies this`timeLeft, this`didTimerStart, this`timeRunning
      ensures Valid()
      ensures old(didTimerStart) ==> unchanged(this`timeLeft, this`didTimerStart, this`timeRunning)
      ensures !old(didTimerStart) ==> timeLeft == timeLimitInMinutes * 60.0 && didTimerStart && timeRunning
    {
      if didTimerStart {
        return;
      }
      timeLeft := timeLimitInMinutes * 60.0;
      didTimerStart := true;
      timeRunning := true;
    }

    /** One frame of the countdown. Nothing changes unless time is left and
        the timer runs. Otherwise the frame time is taken off. When no time
        is left the time-out animation starts (clearing the warning flag)
        if there is an animation, the timer stops, and the time-out pauses
        the game and schedules game over after the animation. Otherwise,
        once the time left is within the warning time, the warning starts,
        once, if there is an animation. */
    method UpdateTimer(dt: real)
      requires Valid()
      modifies this`timeLeft, this`timeRunning, this`isWarningSetOnTimer, this`isPaused, this`timerAnimationLength, this`events
      ensures Valid()
      ensures !(old(timeLeft) > 0.0 && old(timeRunning)) ==>
        unchanged(this`timeLeft, this`timeRunning, this`isWarningSetOnTimer, this`isPaused, this`timerAnimationLength, this`events)
      ensures old(timeLeft) > 0.0 && old(timeRunning) ==> timeLeft == old(timeLeft) - dt
      ensures old(timeLeft) > 0.0 && old(timeRunning) && timeLeft <= 0.0 ==>
        && !timeRunning && isPaused
        && (hasTimerAnimation ==> !isWarningSetOnTimer && timerAnimationLength == timeOutAnimationLength)
        && (!hasTimerAnimation ==> isWarningSetOnTimer == old(isWarningSetOnTimer) && timerAnimationLength == old(timerAnimationLength))
        && events == old(events) + (if hasTimerAnimation then [TimeOutAnimationStarted] else [])
                   + [ListenerPaused, PauseStateChanged(true), GameOverAfter(timerAnimationLength)]
      ensures old(timeLeft) > 0.0 && old(timeRunning) && timeLeft > 0.0 ==>
        && timeRunning && isPaused == old(isPaused) && timerAnimationLength == old(timerAnimationLength)
        && (timeLeft <= warningInitiatingTime && !old(isWarningSetOnTimer) && hasTimerAnimation ==>
              isWarningSetOnTimer && events == old(events) + [WarningStarted])
        && (!(timeLeft <= warningInitiatingTime && !old(isWarningSetOnTimer) && hasTimerAnimation) ==>
              isWarningSetOnTimer == old(isWarningSetOnTimer) && events == old(events))
    {
      if timeLeft > 0.0 && timeRunning {
        timeLeft := timeLeft - dt;
        if timeLeft <= 0.0 && hasTimerAnimation {
          isWarningSetOnTimer := false;
          CountsAfterAppend(events, TimeOutAnimationStarted);
          events := events + [TimeOutAnimationStarted];
          timerAnimationLength := timeOutAnimationLength;
        }
        if timeLeft <= 0.0 {
          timeRunning := false;
          isPaused := true;
          CountsAfterAppend(events, ListenerPaused);
          events := events + [ListenerPaused];
          CountsAfterAppend(events, PauseStateChanged(true));
          events := events + [PauseStateChanged(true)];
          CountsAfterAppend(events, GameOverAfter(timerAnimationLength));
          events := events + [GameOverAfter(timerAnimationLength)];
        } else if timeLeft <= warningInitiatingTime && !isWarningSetOnTimer {
          if hasTimerAnimation {
            isWarningSetOnTimer := true;
            CountsAfterAppend(events, WarningStarted);
            events := events + [WarningStarted];
          }
        }
      }
    }

    /** The end of the time-out animation: game over is reported. */
    method OnTimerAnimationComplete()
      requires Valid()
      modifies this`events
      ensures Valid()
      ensures events == old(events) + [GameOverRaised]
    {
      CountsAfterAppend(events, GameOverRaised);
      events := events + [GameOverRaised];
    }

    /** Toggles the pause flag and reports its new value. */
    method Pause()
      requires Valid()
      modifies this`isPaused, this`events
      ensures Valid()
      ensures isPaused == !old(isPaused)
      ensures events == old(events) + [PauseStateChanged(isPaused)]
    {
      isPaused := !isPaused;
      CountsAfterAppend(events, PauseStateChanged(isPaused));
      events := events + [PauseStateChanged(isPaused)];
    }
  }
}
