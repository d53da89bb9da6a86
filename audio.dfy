/**
 * The sound handle of src/sound.ts. Its only state is the audio source's
 * `playing` flag; `play` on a sound that is already playing stops it and
 * schedules `playing = true` 100 ms later. The pending restarts are counted
 * here; the scheduler delivers each one as a `RestartDue` event.
 */
module Audio {
  /** The playing flag and the number of 100 ms restarts still pending. */
  datatype SoundState = SoundState(playing: bool, pendingRestarts: nat)

  /** `play()`: start at once when silent, else stop and schedule one restart. */
  function Played(s: SoundState): (r: SoundState)
    ensures !s.playing ==> r == s.(playing := true)
    ensures s.playing ==> !r.playing && r.pendingRestarts == s.pendingRestarts + 1
  {
    if s.playing then SoundState(false, s.pendingRestarts + 1) else s.(playing := true)
  }

  /** `stop()`: clears the flag; pending restarts are not cancelled. */
  function Stopped(s: SoundState): (r: SoundState)
    ensures !r.playing && r.pendingRestarts == s.pendingRestarts
  {
    s.(playing := false)
  }

  /** A pending 100 ms restart fires: the flag is set again. */
  function Restarted(s: SoundState): (r: SoundState)
    requires s.pendingRestarts > 0
    ensures r.playing && r.pendingRestarts == s.pendingRestarts - 1
  {
    SoundState(true, s.pendingRestarts - 1)
  }

  /** A `stop` after a play-while-playing does not cancel the restart: the
      sound is playing again once the 100 ms have passed. */
  lemma {:induction false} StopDoesNotCancelRestart(s: SoundState)
    requires s.playing
    ensures Played(s).pendingRestarts > 0 && Stopped(Played(s)).pendingRestarts > 0
    ensures !Stopped(Played(s)).playing && Restarted(Stopped(Played(s))).playing
  {
  }

  class Sound {
    var playing: bool
    var pendingRestarts: nat
    const loop: bool

    /** A new sound is silent, with nothing pending. */
    constructor (loop: bool)
      ensures State() == SoundState(false, 0) && this.loop == loop
    {
      playing := false;
      pendingRestarts := 0;
      this.loop := loop;
    }

    function State(): SoundState
      reads this
    {
      SoundState(playing, pendingRestarts)
    }

    method Play()
      modifies this
      ensures State() == Played(old(State()))
    {
      if playing {
        Stop();
        pendingRestarts := pendingRestarts + 1;
      } else {
        playing := true;
      }
    }

    method Stop()
      modifies this`playing
      ensures State() == Stopped(old(State()))
    {
      playing := false;
    }

    /** The 100 ms timeout scheduled by a play-while-playing fires. */
    method RestartDue()
      requires pendingRestarts > 0
      modifies this
      ensures State() == Restarted(old(State()))
    {
      playing := true;
      pendingRestarts := pendingRestarts - 1;
    }
  }
}
