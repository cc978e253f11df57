/** The SID playback session of `src/lib/jssid.ts`: a player object holding
    the current track, a play flag, the audio-clock time at which playback
    began, a fixed duration and a configuration of chip model, speed and
    sample rate. The host audio clock (`audioContext.currentTime`) is the
    parameter `now`; the fetched response of a URL load is a parameter too. */
module JsSid {
  import opened Collections
  import Text

  newtype byte = x: int | 0 <= x < 256

  /** The two SID chip revisions, '6581' and '8580'. */
  datatype ChipModel = Mos6581 | Mos8580

  datatype SIDPlayerConfig = SIDPlayerConfig(chipModel: ChipModel, playbackSpeed: real, sampleRate: nat)

  datatype SIDTrack = SIDTrack(
    id: string, title: string, artist: string, data: seq<byte>,
    subtunes: int, defaultSubtune: int, url: Option<string>)

  /** What `fetch(url)` delivered: a response with its status flag, status
      text and body bytes, or a network failure with its message. */
  datatype FetchResponse =
    | Response(ok: bool, statusText: string, body: seq<byte>)
    | NetworkFailure(message: string)

  const NotInitialized: string := "SID player not initialized"
  const FetchFailedPrefix: string := "Failed to fetch SID file: "
  /** Every loaded track is given three minutes. */
  const DefaultDuration: real := 180.0
  const SampleRate: nat := 44100
  const DefaultConfig: SIDPlayerConfig := SIDPlayerConfig(Mos6581, 1.0, SampleRate)

  /** The parse step of `loadTrackFromUrl`: the track built from a fetched
      response, or the error it throws. `nowMs` stands for `Date.now()`. */
  function TrackFromResponse(url: string, response: FetchResponse, nowMs: nat): (r: Result<SIDTrack>)
    ensures r.Ok? <==> response.Response? && response.ok
    ensures response.NetworkFailure? ==> r == Err(response.message)
    ensures response.Response? && !response.ok ==> r == Err(FetchFailedPrefix + response.statusText)
    ensures r.Ok? ==> r.value.data == response.body && r.value.url == Some(url)
                      && r.value.subtunes == 1 && r.value.defaultSubtune == 0
    ensures r.Ok? ==> r.value.id == "hvsc_" + Text.NatToString(nowMs)
                      && r.value.title == "A Sunny Day" && r.value.artist == "Blues Muz / Nordboe Kjell"
  {
    match response
    case NetworkFailure(message) => Err(message)
    case Response(ok, statusText, body) =>
      if !ok then Err(FetchFailedPrefix + statusText)
      else Ok(SIDTrack("hvsc_" + Text.NatToString(nowMs), "A Sunny Day", "Blues Muz / Nordboe Kjell",
                       body, 1, 0, Some(url)))
  }

  /** `getCurrentTime()` as a function of the player's fields and the clock. */
  function Position(hasContext: bool, playing: bool, startTime: real, now: real, speed: real): real {
    if !hasContext || startTime == 0.0 || !playing then 0.0 else (now - startTime) * speed
  }

  /** With a positive speed and a clock that has not gone back past the start,
      the position is never negative. */
  lemma PositionNonNegative(hasContext: bool, playing: bool, startTime: real, now: real, speed: real)
    requires speed > 0.0 && startTime <= now
    ensures Position(hasContext, playing, startTime, now, speed) >= 0.0
  {
  }

  /** With a positive speed the position does not decrease as the clock advances. */
  lemma PositionMonotone(hasContext: bool, playing: bool, startTime: real, now1: real, now2: real, speed: real)
    requires speed > 0.0 && now1 <= now2
    ensures Position(hasContext, playing, startTime, now1, speed)
            <= Position(hasContext, playing, startTime, now2, speed)
  {
    if hasContext && startTime != 0.0 && playing {
      assert (now2 - startTime) * speed - (now1 - startTime) * speed == (now2 - now1) * speed;
    }
  }

  /** `n` seconds of clock time after a start at a non-zero clock value the
      position is `n` times the speed. */
  lemma PositionAfter(startTime: real, n: real, speed: real)
    requires startTime != 0.0
    ensures Position(true, true, startTime, startTime + n, speed) == n * speed
  {
  }

  /** `getProgress()`: the position as a percentage of the duration, 0 without a duration. */
  function ProgressPercent(current: real, duration: real): real {
    if duration > 0.0 then current / duration * 100.0 else 0.0
  }

  /** The percentage reaches 100 exactly when the position reaches the duration. */
  lemma ProgressReachesEnd(current: real, duration: real)
    requires duration > 0.0
    ensures ProgressPercent(current, duration) >= 100.0 <==> current >= duration
  {
    var q := current / duration;
    assert current == q * duration;
    if q >= 1.0 {
      assert q * duration >= 1.0 * duration;
    } else {
      assert q * duration < 1.0 * duration;
    }
  }

  /** The track time of sample `i` of a buffer requested at clock `now`. */
  function SampleTime(now: real, i: nat, config: SIDPlayerConfig): real
    requires config.sampleRate > 0
  {
    (now + i as real / config.sampleRate as real) * config.playbackSpeed
  }

  class SIDPlayer {
    /** An `AudioContext` could be created. */
    var audioContext: bool
    var isInitialized: bool
    /** A script processor is held (and connected to the output). */
    var scriptProcessor: bool
    /** Script processors replaced by a later `play()` without being
        disconnected: they stay connected to the output. */
    var detachedProcessors: nat
    var currentTrack: Option<SIDTrack>
    var config: SIDPlayerConfig
    var startTime: real
    var duration: real
    var isPlaying: bool

    ghost predicate Valid()
      reads this
    {
      config.sampleRate == SampleRate && isInitialized == audioContext
      && (scriptProcessor ==> audioContext)
    }

    /** The constructor and `init()`: the audio context exists, and the player
        is initialised, exactly when the host could create one. */
    constructor (audioAvailable: bool)
      ensures Valid()
      ensures audioContext == audioAvailable && isInitialized == audioAvailable
      ensures !scriptProcessor && detachedProcessors == 0
      ensures currentTrack == None && config == DefaultConfig
      ensures startTime == 0.0 && duration == 0.0 && !isPlaying
    {
      audioContext := audioAvailable;
      isInitialized := audioAvailable;
      scriptProcessor := false;
      detachedProcessors := 0;
      currentTrack := None;
      config := DefaultConfig;
      startTime := 0.0;
      duration := 0.0;
      isPlaying := false;
    }

    method LoadTrack(track: SIDTrack) returns (r: Outcome)
      requires Valid()
      modifies this`currentTrack, this`duration
      ensures Valid()
      ensures r == if audioContext then Done else Failed(NotInitialized)
      ensures r.Done? ==> currentTrack == Some(track) && duration == DefaultDuration
      ensures r.Failed? ==> currentTrack == old(currentTrack) && duration == old(duration)
    {
      if !isInitialized || !audioContext {
        return Failed(NotInitialized);
      }
      currentTrack := Some(track);
      duration := DefaultDuration;
      r := Done;
    }

    /** `loadTrackFromUrl(url)` with the fetch already answered by `response`. */
    method LoadTrackFromUrl(url: string, response: FetchResponse, nowMs: nat) returns (r: Outcome)
      requires Valid()
      modifies this`currentTrack, this`duration
      ensures Valid()
      ensures !audioContext ==> r == Failed(NotInitialized)
      ensures audioContext ==>
                match TrackFromResponse(url, response, nowMs)
                case Err(message) => r == Failed(message)
                case Ok(track) => r == Done && currentTrack == Some(track)
      ensures r.Done? ==> duration == DefaultDuration
      ensures r.Failed? ==> currentTrack == old(currentTrack) && duration == old(duration)
    {
      if !isInitialized || !audioContext {
        return Failed(NotInitialized);
      }
      var parsed := TrackFromResponse(url, response, nowMs);
      if parsed.Err? {
        return Failed(parsed.message);
      }
      r := LoadTrack(parsed.value);
    }

    /** `play()`: restarts the clock at `now` and installs a new processor;
        nothing happens without an audio context or a track. */
    method Play(now: real)
      requires Valid()
      modifies this`startTime, this`isPlaying, this`scriptProcessor, this`detachedProcessors
      ensures Valid()
      ensures !audioContext || currentTrack.None? ==>
                startTime == old(startTime) && isPlaying == old(isPlaying)
                && scriptProcessor == old(scriptProcessor) && detachedProcessors == old(detachedProcessors)
      ensures audioContext && currentTrack.Some? ==>
                startTime == now && isPlaying && scriptProcessor
                && detachedProcessors == old(detachedProcessors) + (if old(scriptProcessor) then 1 else 0)
      ensures audioContext && currentTrack.Some? ==> GetCurrentTime(now) == 0.0
      ensures audioContext && currentTrack.Some? && now == 0.0 ==> forall t :: GetCurrentTime(t) == 0.0
    {
      if !audioContext || currentTrack.None? {
        return;
      }
      startTime := now;
      isPlaying := true;
      CreateAudioProcessor();
    }

    method CreateAudioProcessor()
      requires Valid()
      modifies this`scriptProcessor, this`detachedProcessors
      ensures Valid()
      ensures audioContext ==>
                scriptProcessor
                && detachedProcessors == old(detachedProcessors) + (if old(scriptProcessor) then 1 else 0)
      ensures !audioContext ==>
                scriptProcessor == old(scriptProcessor) && detachedProcessors == old(detachedProcessors)
    {
      if !audioContext {
        return;
      }
      if scriptProcessor {
        detachedProcessors := detachedProcessors + 1;
      }
      scriptProcessor := true;
    }

    /** `pause()`: clears the play flag and disconnects the processor; the
        elapsed time is not kept anywhere, so the position reads 0. */
    method Pause()
      requires Valid()
      modifies this`isPlaying, this`scriptProcessor
      ensures Valid()
      ensures !isPlaying && !scriptProcessor
      ensures forall t :: GetCurrentTime(t) == 0.0
    {
      isPlaying := false;
      if scriptProcessor {
        scriptProcessor := false;
      }
    }

    /** `stop()`: `pause()` followed by clearing the start time. */
    method Stop()
      requires Valid()
      modifies this`isPlaying, this`scriptProcessor, this`startTime
      ensures Valid()
      ensures !isPlaying && !scriptProcessor && startTime == 0.0
      ensures forall t :: GetCurrentTime(t) == 0.0
    {
      Pause();
      startTime := 0.0;
    }

    method SetChipModel(model: ChipModel)
      requires Valid()
      modifies this`config
      ensures Valid()
      ensures config == old(config).(chipModel := model)
      ensures GetChipModel() == model && GetPlaybackSpeed() == old(GetPlaybackSpeed())
    {
      config := config.(chipModel := model);
    }

    method SetPlaybackSpeed(speed: real)
      requires Valid()
      modifies this`config
      ensures Valid()
      ensures config == old(config).(playbackSpeed := speed)
      ensures GetPlaybackSpeed() == speed && GetChipModel() == old(GetChipModel())
    {
      config := config.(playbackSpeed := speed);
    }

    function GetCurrentTime(now: real): real
      reads this
    {
      Position(audioContext, isPlaying, startTime, now, config.playbackSpeed)
    }

    function GetDuration(): real
      reads this
    {
      duration
    }

    function GetProgress(now: real): real
      reads this
    {
      ProgressPercent(GetCurrentTime(now), duration)
    }

    function GetChipModel(): ChipModel
      reads this
    {
      config.chipModel
    }

    function GetPlaybackSpeed(): real
      reads this
    {
      config.playbackSpeed
    }

    function GetCurrentTrack(): Option<SIDTrack>
      reads this
    {
      currentTrack
    }

    /** The processor's `onaudioprocess` callback for one buffer requested at
        clock `now`. `wave` stands for the placeholder tone generator: it gives
        the sample for a track time. Both channels get the same sample; a write
        past the end of the right channel is dropped, as on a typed array. */
    method OnAudioProcess(left: array<real>, right: array<real>, now: real, wave: real -> real)
      requires Valid()
      modifies left, right
      ensures !isPlaying ==> left[..] == old(left[..]) && right[..] == old(right[..])
      ensures isPlaying ==> forall i :: 0 <= i < left.Length ==> left[i] == wave(SampleTime(now, i, config))
      ensures isPlaying ==> forall i :: 0 <= i < left.Length && i < right.Length ==> right[i] == left[i]
      ensures isPlaying ==> forall i :: left.Length <= i < right.Length ==> right[i] == old(right[i])
    {
      if !isPlaying {
        return;
      }
      var i := 0;
      while i < left.Length
        invariant 0 <= i <= left.Length
        invariant forall k :: 0 <= k < i ==> left[k] == wave(SampleTime(now, k, config))
        invariant forall k :: 0 <= k < i && k < right.Length ==> right[k] == left[k]
        invariant forall k :: i <= k < right.Length ==> right[k] == old(right[k])
      {
        var sample := wave(SampleTime(now, i, config));
        left[i] := sample;
        if i < right.Length {
          right[i] := sample;
        }
        i := i + 1;
      }
    }
  }
}
