/** Sound bookkeeping (SoundManager.cs): the music state machine and the cap
    on simultaneous plays of one sound effect. Calls to the audio source are
    recorded in order in the `audio` log. */
module Sounds {
  import opened Common

  /** Plays of one sound that may overlap. */
  const MaxSimultaneousPlays: int := 7
  /** A play releases its slot after this fraction of the clip length. */
  const ReleaseFraction: real := 0.7

  datatype MusicState = MusicPlaying | MusicPaused | MusicStopped

  datatype MusicOp = PlayOp | PauseOp | ResumeOp | StopOp

  /** The music state after an operation that completes: play and stop
      are unconditional, pause acts only on playing music and resume only
      on paused music. */
  function MusicAfter(s: MusicState, op: MusicOp): MusicState {
    match op
    case PlayOp => MusicPlaying
    case StopOp => MusicStopped
    case PauseOp => if s == MusicPlaying then MusicPaused else s
    case ResumeOp => if s == MusicPaused then MusicPlaying else s
  }

  /** Pause and resume undo each other on music that is playing or paused,
      repeating either changes nothing more, and neither ever leaves the
      stopped state. */
  lemma MusicPauseResume(s: MusicState)
    ensures s == MusicPlaying ==> MusicAfter(MusicAfter(s, PauseOp), ResumeOp) == MusicPlaying
    ensures s == MusicPaused ==> MusicAfter(MusicAfter(s, ResumeOp), PauseOp) == MusicPaused
    ensures MusicAfter(MusicAfter(s, PauseOp), PauseOp) == MusicAfter(s, PauseOp)
    ensures MusicAfter(MusicAfter(s, ResumeOp), ResumeOp) == MusicAfter(s, ResumeOp)
    ensures MusicAfter(s, PauseOp) == MusicStopped <==> s == MusicStopped
    ensures MusicAfter(s, ResumeOp) == MusicStopped <==> s == MusicStopped
  {
  }

  /** The audio source calls. */
  datatype AudioCall =
    | PlayOneShot(volume: real)
    | PlayClip(loop: bool)
    | PauseClip
    | UnPauseClip
    | StopClip

  /** A sound effect with its overlap counter. `clipLength` is None when no
      clip is assigned. */
  class Sound {
    const clipLength: Option<real>
    var simultaneousPlayCount: int
    /** Plays that took a slot and have not released it yet. */
    ghost var pending: nat
    /** Plays that took a slot and can never release it. */
    ghost var leaked: nat

    ghost predicate Valid()
      reads this
    {
      simultaneousPlayCount == pending + leaked <= MaxSimultaneousPlays
    }

    constructor (clipLength: Option<real>)
      ensures Valid() && this.clipLength == clipLength && simultaneousPlayCount == 0 && pending == 0
    {
      this.clipLength := clipLength;
      simultaneousPlayCount := 0;
      pending := 0;
      leaked := 0;
    }
  }

  /** A play routine waiting to release its slot. */
  datatype PendingPlay = PendingPlay(sound: Sound, delay: real)

  class SoundManager {
    var musicState: MusicState
    var audio: seq<AudioCall>

    constructor ()
      ensures musicState == MusicStopped && audio == []
    {
      musicState := MusicStopped;
      audio := [];
    }

    /** Starts a play of a sound effect. At the cap nothing happens.
        Otherwise the sound takes a slot and plays once, at maxVolumeScale
        divided by the number of slots now taken when auto scaling; the slot
        is released after ReleaseFraction of the clip length. With no clip
        the length cannot be read, the routine fails and its slot is never
        released. The count always stays within [0, MaxSimultaneousPlays]. */
    method CRPlaySound(sound: Sound, autoScaleVolume: bool, maxVolumeScale: real) returns (play: Option<PendingPlay>)
      requires sound.Valid()
      modifies this`audio, sound
      ensures sound.Valid() && 0 <= sound.simultaneousPlayCount <= MaxSimultaneousPlays
      ensures old(sound.simultaneousPlayCount) >= MaxSimultaneousPlays ==>
        play.None? && audio == old(audio) && unchanged(sound)
      ensures old(sound.simultaneousPlayCount) < MaxSimultaneousPlays ==>
        && sound.simultaneousPlayCount == old(sound.simultaneousPlayCount) + 1
        && audio == old(audio) + [PlayOneShot(if autoScaleVolume then maxVolumeScale / sound.simultaneousPlayCount as real else maxVolumeScale)]
        && (sound.clipLength.Some? <==> play.Some?)
        && (play.Some? ==> play.value == PendingPlay(sound, sound.clipLength.value * ReleaseFraction)
                           && sound.pending == old(sound.pending) + 1 && sound.leaked == old(sound.leaked))
        && (play.None? ==> sound.leaked == old(sound.leaked) + 1 && sound.pending == old(sound.pending))
    {
      if sound.simultaneousPlayCount >= MaxSimultaneousPlays {
        return None;
      }
      sound.simultaneousPlayCount := sound.simultaneousPlayCount + 1;
      var vol := maxVolumeScale;
      if autoScaleVolume && sound.simultaneousPlayCount > 0 {
        vol := vol / sound.simultaneousPlayCount as real;
      }
      audio := audio + [PlayOneShot(vol)];
      match sound.clipLength {
        case None =>
          sound.leaked := sound.leaked + 1;
          play := None;
        case Some(length) =>
          sound.pending := sound.pending + 1;
          play := Some(PendingPlay(sound, length * ReleaseFraction));
      }
    }

    /** The end of a play routine's wait: the slot is released. */
    method FinishPlay(p: PendingPlay)
      requires p.sound.Valid() && p.sound.pending > 0
      modifies p.sound
      ensures p.sound.Valid()
      ensures p.sound.simultaneousPlayCount == old(p.sound.simultaneousPlayCount) - 1
      ensures 0 <= p.sound.simultaneousPlayCount < MaxSimultaneousPlays
      ensures p.sound.pending == old(p.sound.pending) - 1 && p.sound.leaked == old(p.sound.leaked)
    {
      p.sound.simultaneousPlayCount := p.sound.simultaneousPlayCount - 1;
      p.sound.pending := p.sound.pending - 1;
    }

    /** Plays music on the audio source. A missing music entry makes the
        clip access throw; the exception is swallowed and nothing changes.
        Otherwise the music plays. */
    method PlayMusic(music: Sound?, loop: bool)
      modifies this
      ensures music == null ==> musicState == old(musicState) && audio == old(audio)
      ensures music != null ==> musicState == MusicAfter(old(musicState), PlayOp) && audio == old(audio) + [PlayClip(loop)]
      ensures music != null ==> musicState == MusicPlaying
    {
      if music == null {
        return;
      }
      audio := audio + [PlayClip(loop)];
      musicState := MusicPlaying;
    }

    method PauseMusic()
      modifies this
      ensures musicState == MusicAfter(old(musicState), PauseOp)
      ensures old(musicState) == MusicPlaying ==> audio == old(audio) + [PauseClip]
      ensures old(musicState) != MusicPlaying ==> audio == old(audio) && musicState == old(musicState)
    {
      if musicState == MusicPlaying {
        audio := audio + [PauseClip];
        musicState := MusicPaused;
      }
    }

    method ResumeMusic()
      modifies this
      ensures musicState == MusicAfter(old(musicState), ResumeOp)
      ensures old(musicState) == MusicPaused ==> audio == old(audio) + [UnPauseClip]
      ensures old(musicState) != MusicPaused ==> audio == old(audio) && musicState == old(musicState)
    {
      if musicState == MusicPaused {
        audio := audio + [UnPauseClip];
        musicState := MusicPlaying;
      }
    }

    method StopMusic()
      modifies this
      ensures musicState == MusicStopped && musicState == MusicAfter(old(musicState), StopOp)
      ensures audio == old(audio) + [StopClip]
    {
      audio := audio + [StopClip];
      musicState := MusicStopped;
    }
  }
}
