/** The player hook of `src/hooks/useSIDPlayer.ts`: React state mirroring
    the global SID player (play flag, progress, position, duration, chip
    model, speed, loaded track and catalogue row), the control callbacks
    that drive the player, and the 100 ms poll that copies the player's
    clock into the state and detects the end of the track. */
module SidPlayerHook {
  import opened Collections
  import Text
  import opened JsSid
  import opened TrackData

  /** A row of the `sid_files` table as the hook receives it. */
  datatype SIDFile = SIDFile(
    id: int, filename: string, file_path: string, storage_url: string,
    title: string, artist: string, copyright: Option<string>, release_year: Option<int>,
    subsongs: int, default_subsong: int)

  /** The display track `loadSIDFile` builds from a catalogue row. */
  function TrackOfFile(f: SIDFile): (t: Track)
    ensures t.id == Text.IntToString(f.id) && t.title == f.title && t.artist == f.artist
    ensures t.duration == "3:00" && t.plays == 0
  {
    Track(Text.IntToString(f.id), f.title, f.artist, "3:00", 0, None)
  }

  /** What one poll of the player leaves in the hook: the position, duration
      and progress read from the player, or, once the progress has reached
      100, a stopped display with progress and position back at 0. */
  datatype PollView = PollView(isPlaying: bool, currentTime: real, duration: real, progress: real)

  function PollResult(current: real, total: real, prog: real): (v: PollView)
    ensures v.duration == total
    ensures prog >= 100.0 <==> !v.isPlaying
    ensures !v.isPlaying ==> v.progress == 0.0 && v.currentTime == 0.0
    ensures v.isPlaying ==> v.progress == prog && v.currentTime == current
  {
    if prog >= 100.0 then PollView(false, 0.0, total, 0.0) else PollView(true, current, total, prog)
  }

  /** The poll stops the display exactly when the player's position has
      reached a positive duration. */
  lemma PollFinishesAtDuration(player: SIDPlayer, now: real)
    requires player.duration > 0.0
    ensures !PollResult(player.GetCurrentTime(now), player.GetDuration(), player.GetProgress(now)).isPlaying
            <==> player.GetCurrentTime(now) >= player.duration
  {
    ProgressReachesEnd(player.GetCurrentTime(now), player.duration);
  }

  class PlayerHook {
    /** The global `sidPlayer` instance the hook drives. */
    const player: SIDPlayer
    var isPlaying: bool
    var currentTrack: Option<Track>
    var currentSIDFile: Option<SIDFile>
    var progress: real
    var currentTime: real
    var duration: real
    var chipModel: ChipModel
    var playbackSpeed: real

    ghost predicate Valid()
      reads this, player
    {
      player.Valid() && (currentTrack.Some? ==> player.audioContext && player.currentTrack.Some?)
      && (currentTrack.Some? <==> currentSIDFile.Some?)
    }

    /** A fresh hook: nothing loaded, and the hook's own defaults for chip and speed. */
    constructor (p: SIDPlayer)
      requires p.Valid()
      ensures Valid() && player == p
      ensures !isPlaying && currentTrack == None && currentSIDFile == None
      ensures progress == 0.0 && currentTime == 0.0 && duration == 0.0
      ensures chipModel == Mos6581 && playbackSpeed == 1.0
    {
      player := p;
      isPlaying := false;
      currentTrack := None;
      currentSIDFile := None;
      progress := 0.0;
      currentTime := 0.0;
      duration := 0.0;
      chipModel := Mos6581;
      playbackSpeed := 1.0;
    }

    /** `loadSIDFile(sidFile)`, with the fetch of its storage URL answered by
        `response`: true and the new track and row on success, false and no
        change to them on failure. */
    method LoadSIDFile(sidFile: SIDFile, response: FetchResponse, nowMs: nat) returns (ok: bool)
      requires Valid()
      modifies this`currentTrack, this`currentSIDFile, player`currentTrack, player`duration
      ensures Valid()
      ensures ok <==> player.audioContext && TrackFromResponse(sidFile.storage_url, response, nowMs).Ok?
      ensures ok ==> currentTrack == Some(TrackOfFile(sidFile)) && currentSIDFile == Some(sidFile)
      ensures ok ==> player.currentTrack == Some(TrackFromResponse(sidFile.storage_url, response, nowMs).value)
                     && player.duration == DefaultDuration
      ensures !ok ==> currentTrack == old(currentTrack) && currentSIDFile == old(currentSIDFile)
      ensures !ok ==> player.currentTrack == old(player.currentTrack) && player.duration == old(player.duration)
    {
      var loaded := player.LoadTrackFromUrl(sidFile.storage_url, response, nowMs);
      if loaded.Failed? {
        return false;
      }
      currentTrack := Some(TrackOfFile(sidFile));
      currentSIDFile := Some(sidFile);
      ok := true;
    }

    /** `play()`: only with a loaded track, and then the player plays and the
        flag is set. */
    method Play(now: real)
      requires Valid()
      modifies this`isPlaying, player`startTime, player`isPlaying, player`scriptProcessor, player`detachedProcessors
      ensures Valid()
      ensures currentTrack.None? ==> isPlaying == old(isPlaying) && unchanged(player)
      ensures currentTrack.Some? ==> isPlaying && player.isPlaying && player.startTime == now
      ensures currentTrack.Some? ==>
                player.scriptProcessor
                && player.detachedProcessors == old(player.detachedProcessors) + (if old(player.scriptProcessor) then 1 else 0)
    {
      if currentTrack.Some? {
        player.Play(now);
        isPlaying := true;
      }
    }

    method Pause()
      requires Valid()
      modifies this`isPlaying, player`isPlaying, player`scriptProcessor
      ensures Valid()
      ensures !isPlaying && !player.isPlaying && !player.scriptProcessor
    {
      player.Pause();
      isPlaying := false;
    }

    method Stop()
      requires Valid()
      modifies this`isPlaying, this`progress, this`currentTime
      modifies player`isPlaying, player`scriptProcessor, player`startTime
      ensures Valid()
      ensures !isPlaying && progress == 0.0 && currentTime == 0.0
      ensures !player.isPlaying && !player.scriptProcessor && player.startTime == 0.0
    {
      player.Stop();
      isPlaying := false;
      progress := 0.0;
      currentTime := 0.0;
    }

    /** `togglePlayPause()`: pause when the hook says it is playing, play otherwise. */
    method TogglePlayPause(now: real)
      requires Valid()
      modifies this`isPlaying, player`startTime, player`isPlaying, player`scriptProcessor, player`detachedProcessors
      ensures Valid()
      ensures old(isPlaying) ==> !isPlaying && !player.isPlaying && !player.scriptProcessor
      ensures !old(isPlaying) && currentTrack.None? ==> !isPlaying && unchanged(player)
      ensures !old(isPlaying) && currentTrack.Some? ==> isPlaying && player.isPlaying && player.startTime == now
      ensures !old(isPlaying) && currentTrack.Some? ==>
                player.scriptProcessor
                && player.detachedProcessors == old(player.detachedProcessors) + (if old(player.scriptProcessor) then 1 else 0)
    {
      if isPlaying {
        Pause();
      } else {
        Play(now);
      }
    }

    method ChangeChipModel(model: ChipModel)
      requires Valid()
      modifies this`chipModel, player`config
      ensures Valid()
      ensures chipModel == model && player.GetChipModel() == model
      ensures player.GetPlaybackSpeed() == old(player.GetPlaybackSpeed())
    {
      player.SetChipModel(model);
      chipModel := model;
    }

    method ChangePlaybackSpeed(speed: real)
      requires Valid()
      modifies this`playbackSpeed, player`config
      ensures Valid()
      ensures playbackSpeed == speed && player.GetPlaybackSpeed() == speed
      ensures player.GetChipModel() == old(player.GetChipModel())
    {
      player.SetPlaybackSpeed(speed);
      playbackSpeed := speed;
    }

    /** One tick of the 100 ms interval, which exists only while the hook's
        flag is set. The player itself is not stopped at the end of the track. */
    method Poll(now: real)
      requires Valid()
      modifies this`isPlaying, this`progress, this`currentTime, this`duration
      ensures Valid() && unchanged(player)
      ensures !old(isPlaying) ==>
                isPlaying == old(isPlaying) && progress == old(progress)
                && currentTime == old(currentTime) && duration == old(duration)
      ensures old(isPlaying) ==>
                PollView(isPlaying, currentTime, duration, progress)
                == PollResult(player.GetCurrentTime(now), player.GetDuration(), player.GetProgress(now))
    {
      if !isPlaying {
        return;
      }
      var current := player.GetCurrentTime(now);
      var total := player.GetDuration();
      var prog := player.GetProgress(now);
      currentTime := current;
      duration := total;
      progress := prog;
      if prog >= 100.0 {
        isPlaying := false;
        progress := 0.0;
        currentTime := 0.0;
      }
    }
  }
}
