/** The application context of `src/contexts/AppContext.tsx`: the sidebar
    flag, the selected track and play flag, the user's playlists, the liked
    set of its own track-data hook, and the actions that update them and
    choose the notification shown. Notifications are returned as values. */
module AppContext {
  import opened Collections
  import opened Text
  import opened TrackData
  import opened Chromecast

  datatype Playlist = Playlist(id: string, name: string, tracks: seq<Track>, createdAt: int, isPublic: bool)

  /** A notification: its title, and whether it is shown as destructive. */
  datatype Toast = Toast(title: string, destructive: bool)

  const RemovedMessage: string := "Removed from liked songs"
  const AddedMessage: string := "Added to liked songs"
  const CastFailedTitle: string := "Cast failed"
  const ClipboardTitle: string := "Share link copied to clipboard!"

  /** The `toggleLike` message, chosen from the liked set as it was when the
      handler ran, before the toggle took effect. */
  function LikeMessage(likedBefore: set<string>, id: string): (m: string)
    ensures m == RemovedMessage || m == AddedMessage
  {
    if id in likedBefore then RemovedMessage else AddedMessage
  }

  /** 'Removed' is announced exactly when the toggle takes the id out of the set. */
  lemma LikeMessageMatchesToggle(liked: set<string>, id: string)
    ensures LikeMessage(liked, id) == RemovedMessage <==> id !in Toggled(liked, id)
    ensures LikeMessage(liked, id) == AddedMessage <==> id in Toggled(liked, id)
  {
  }

  /** The playlist `createPlaylist(name)` builds at time `nowMs`. */
  function NewPlaylist(name: string, nowMs: nat): (p: Playlist)
    ensures p.name == name && p.tracks == [] && !p.isPublic
    ensures p.id == NatToString(nowMs) && p.createdAt == nowMs
  {
    Playlist(NatToString(nowMs), name, [], nowMs, false)
  }

  /** The updater of `createPlaylist`: one playlist appended at the end. */
  function WithPlaylist(prev: seq<Playlist>, name: string, nowMs: nat): (r: seq<Playlist>)
    ensures |r| == |prev| + 1 && r[..|prev|] == prev
    ensures r[|prev|].name == name && r[|prev|].tracks == [] && !r[|prev|].isPublic
  {
    prev + [NewPlaylist(name, nowMs)]
  }

  /** Creating two playlists appends them in the order of the calls. */
  lemma WithPlaylistTwice(prev: seq<Playlist>, a: string, b: string, t1: nat, t2: nat)
    ensures var r := WithPlaylist(WithPlaylist(prev, a, t1), b, t2);
            |r| == |prev| + 2 && r[..|prev|] == prev && r[|prev|].name == a && r[|prev| + 1].name == b
  {
    var mid := WithPlaylist(prev, a, t1);
    var r := WithPlaylist(mid, b, t2);
    assert r[..|prev|] == mid[..|prev|];
  }

  const SharePrefix: string := "Check out \""
  const ShareMiddle: string := "\" by "
  const ShareSuffix: string := " on SID Player! \U{1F3B5}"

  /** The text of `shareTrack(track)`. */
  function ShareText(t: Track): string {
    SharePrefix + t.title + ShareMiddle + t.artist + ShareSuffix
  }

  /** The share text holds the title right after the opening quote and the
      artist right after `" by `; so it includes both. */
  lemma ShareTextParts(t: Track)
    ensures OccursAt(ShareText(t), t.title, |SharePrefix|)
    ensures OccursAt(ShareText(t), t.artist, |SharePrefix| + |t.title| + |ShareMiddle|)
    ensures StartsWith(ShareText(t), SharePrefix) && EndsWith(ShareText(t), ShareSuffix)
    ensures Includes(ShareText(t), t.title) && Includes(ShareText(t), t.artist)
  {
    var front := SharePrefix + t.title + ShareMiddle;
    var back := t.artist + ShareSuffix;
    assert ShareText(t) == SharePrefix + t.title + (ShareMiddle + back);
    OccursInJoin(SharePrefix, t.title, ShareMiddle + back);
    assert ShareText(t) == front + t.artist + ShareSuffix;
    OccursInJoin(front, t.artist, ShareSuffix);
    assert ShareText(t)[..|SharePrefix|] == SharePrefix;
    assert ShareText(t)[|ShareText(t)| - |ShareSuffix|..] == ShareSuffix;
  }

  /** What `shareTrack` does: the browser's share sheet when there is one,
      otherwise a copy to the clipboard and a notification. */
  datatype ShareAction =
    | NativeShare(title: string, text: string, url: string)
    | CopyToClipboard(text: string, toast: Toast)

  function ShareTrack(t: Track, canShare: bool, pageUrl: string): (a: ShareAction)
    ensures a.text == ShareText(t)
    ensures a.NativeShare? <==> canShare
    ensures a.NativeShare? ==> a.title == t.title && a.url == pageUrl
    ensures a.CopyToClipboard? ==> a.toast == Toast(ClipboardTitle, false)
  {
    if canShare then NativeShare(t.title, ShareText(t), pageUrl)
    else CopyToClipboard(ShareText(t), Toast(ClipboardTitle, false))
  }

  /** The state of the `AppProvider`. */
  class AppState {
    var sidebarOpen: bool
    var currentTrack: Option<Track>
    var isPlaying: bool
    var playlists: seq<Playlist>
    /** The provider's own `useTrackData()` instance. */
    const tracks: TrackStore
    /** The provider's own `useChromecast()` instance. */
    const cast: CastSession

    constructor (store: TrackStore, session: CastSession)
      ensures tracks == store && cast == session
      ensures !sidebarOpen && currentTrack == None && !isPlaying && playlists == []
    {
      sidebarOpen := false;
      currentTrack := None;
      isPlaying := false;
      playlists := [];
      tracks := store;
      cast := session;
    }

    method ToggleSidebar()
      modifies this`sidebarOpen
      ensures sidebarOpen == !old(sidebarOpen)
    {
      sidebarOpen := !sidebarOpen;
    }

    /** Toggling the sidebar twice leaves it as it was. */
    method ToggleSidebarTwice()
      modifies this`sidebarOpen
      ensures sidebarOpen == old(sidebarOpen)
    {
      ToggleSidebar();
      ToggleSidebar();
    }

    method SetCurrentTrack(t: Option<Track>)
      modifies this`currentTrack
      ensures currentTrack == t
    {
      currentTrack := t;
    }

    method SetIsPlaying(playing: bool)
      modifies this`isPlaying
      ensures isPlaying == playing
    {
      isPlaying := playing;
    }

    /** `toggleLike(trackId)`: toggles the id in the liked set and returns the
        message, which reflects membership before the toggle. */
    method ToggleLike(trackId: string) returns (message: Toast)
      modifies tracks`likedTracks
      ensures tracks.likedTracks == Toggled(old(tracks.likedTracks), trackId)
      ensures message == Toast(LikeMessage(old(tracks.likedTracks), trackId), false)
      ensures message.title == RemovedMessage <==> trackId !in tracks.likedTracks
    {
      var before := tracks.likedTracks;
      tracks.ToggleLike(trackId);
      LikeMessageMatchesToggle(before, trackId);
      message := Toast(LikeMessage(before, trackId), false);
    }

    /** `createPlaylist(name)` at time `nowMs`. */
    method CreatePlaylist(name: string, nowMs: nat) returns (message: Toast)
      modifies this`playlists
      ensures playlists == WithPlaylist(old(playlists), name, nowMs)
      ensures message == Toast("Playlist \"" + name + "\" created", false)
    {
      playlists := WithPlaylist(playlists, name, nowMs);
      message := Toast("Playlist \"" + name + "\" created", false);
    }

    /** `castTrack(track)`: the cast failure is caught and reported, never
        passed on. */
    method CastTrack(t: Track) returns (message: Toast)
      ensures message.destructive <==> !cast.isConnected || cast.currentDevice.None?
      ensures message.destructive ==> message.title == CastFailedTitle
      ensures !message.destructive ==> message.title == "Casting \"" + t.title + "\" to TV"
    {
      var outcome := cast.CastTrack(t.title);
      if outcome.Failed? {
        message := Toast(CastFailedTitle, true);
      } else {
        message := Toast("Casting \"" + t.title + "\" to TV", false);
      }
    }
  }
}
