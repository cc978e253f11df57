/** The simulated player of `src/components/MockAudioPlayer.tsx`: a progress
    counter that the one-second interval advances while the context is
    playing a track, and that wraps to 0 and stops the context once it has
    reached the mock duration. Each interval firing is one `Tick` call; the
    effect that runs when the play flag or the track changes is `Sync`. */
module MockAudioPlayer {
  import opened Collections
  import opened TrackData
  import opened AppContext

  /** The mock duration, in seconds. */
  const MockDuration: int := 100

  /** The progress updater: one more second, or back to 0 once the duration
      has been reached. */
  function TickValue(prev: int, duration: int): (r: int)
    ensures prev >= duration ==> r == 0
    ensures prev < duration ==> r == prev + 1
  {
    if prev >= duration then 0 else prev + 1
  }

  /** The progress after `n` ticks from `start`. */
  function Ticks(start: int, n: nat, duration: int): int
    decreases n
  {
    if n == 0 then start else TickValue(Ticks(start, n - 1, duration), duration)
  }

  /** From a value in [0, duration], any number of ticks stays in [0, duration]. */
  lemma {:induction false} TicksInRange(start: int, n: nat, duration: int)
    requires 0 <= start <= duration
    ensures 0 <= Ticks(start, n, duration) <= duration
    decreases n
  {
    if n > 0 {
      TicksInRange(start, n - 1, duration);
    }
  }

  /** From 0 the counter counts the seconds up to the duration, and the tick
      after that brings it back to 0. */
  lemma {:induction false} TicksFromZero(k: nat, duration: int)
    requires k <= duration
    ensures Ticks(0, k, duration) == k
    ensures k == duration ==> Ticks(0, k + 1, duration) == 0
    decreases k
  {
    if k > 0 {
      TicksFromZero(k - 1, duration);
    }
  }

  class MockPlayer {
    var progress: int
    const duration: int
    const ctx: AppState

    ghost predicate Valid()
      reads this
    {
      0 <= progress <= duration
    }

    constructor (context: AppState)
      ensures Valid() && ctx == context && progress == 0 && duration == MockDuration
    {
      progress := 0;
      duration := MockDuration;
      ctx := context;
    }

    /** The interval exists only while the context is playing a track. */
    predicate Running()
      reads this, ctx
    {
      ctx.isPlaying && ctx.currentTrack.Some?
    }

    /** One firing of the interval: advances the counter; at the end it
        resets it, clears the context's play flag and announces the finish. */
    method Tick() returns (finished: Option<Toast>)
      requires Valid()
      modifies this`progress, ctx`isPlaying
      ensures Valid()
      ensures !old(Running()) ==> progress == old(progress) && ctx.isPlaying == old(ctx.isPlaying) && finished == None
      ensures old(Running()) ==> progress == TickValue(old(progress), duration)
      ensures old(Running()) && old(progress) >= duration ==>
                !ctx.isPlaying
                && finished == Some(Toast("Finished playing \"" + ctx.currentTrack.value.title + "\"", false))
      ensures old(Running()) && old(progress) < duration ==> ctx.isPlaying && finished == None
    {
      if !Running() {
        return None;
      }
      if progress >= duration {
        ctx.SetIsPlaying(false);
        progress := 0;
        finished := Some(Toast("Finished playing \"" + ctx.currentTrack.value.title + "\"", false));
      } else {
        progress := progress + 1;
        finished := None;
      }
    }

    /** The effect: with a track playing, announce it; otherwise reset the counter. */
    method Sync() returns (nowPlaying: Option<Toast>)
      requires Valid()
      modifies this`progress
      ensures Valid()
      ensures Running() ==>
                progress == old(progress)
                && nowPlaying == Some(Toast("Now playing: \"" + ctx.currentTrack.value.title + "\"", false))
      ensures !Running() ==> progress == 0 && nowPlaying == None
    {
      if Running() {
        nowPlaying := Some(Toast("Now playing: \"" + ctx.currentTrack.value.title + "\"", false));
      } else {
        progress := 0;
        nowPlaying := None;
      }
    }
  }
}
