/** The catalogue hook of `src/hooks/useTrackData.ts`: a fixed list of
    tracks, the recently played list, the set of liked track ids and a table
    of artist information. The updaters handed to React are the pure
    functions below; the class holds the hook's state and applies them. */
module TrackData {
  import opened Collections
  import opened Text

  /** A track as the components see it; `lastPlayed` is a time in
      milliseconds since the epoch (a `Date`). */
  datatype Track = Track(
    id: string, title: string, artist: string, duration: string, plays: int,
    lastPlayed: Option<int>)

  datatype ArtistInfo = ArtistInfo(
    name: string, realName: Option<string>, country: Option<string>,
    groups: Option<seq<string>>, bio: Option<string>,
    lemon64Url: Option<string>, csdbUrl: Option<string>)

  /** The length the recent list is cut to. */
  const RecentLimit: nat := 20
  /** How many catalogue tracks seed the recent list. */
  const InitialRecentCount: nat := 5

  const MockTracks: seq<Track> := [
    Track("1", "Commando", "Rob Hubbard", "3:24", 15420, None),
    Track("2", "The Last Ninja", "Matt Gray", "4:12", 12850, None),
    Track("3", "Monty on the Run", "Rob Hubbard", "2:58", 11200, None),
    Track("4", "Wizball", "Martin Galway", "3:45", 9800, None),
    Track("5", "Cybernoid", "Jeroen Tel", "3:18", 8900, None),
    Track("6", "Bubble Bobble", "David Whittaker", "2:45", 8200, None),
    Track("7", "Turbo Outrun", "Jeroen Tel", "4:01", 7800, None),
    Track("8", "Arkanoid", "Martin Galway", "3:12", 7500, None)
  ]

  const MockArtistInfo: map<string, ArtistInfo> := map[
    "Rob Hubbard" := ArtistInfo("Rob Hubbard", Some("Robert Hubbard"), Some("UK"), None,
      Some("Legendary C64 composer known for innovative use of the SID chip"),
      Some("https://www.lemon64.com/music/Rob_Hubbard"), Some("https://csdb.dk/scener/?id=1234")),
    "Matt Gray" := ArtistInfo("Matt Gray", Some("Matthew Gray"), Some("UK"), Some(["The Last Ninja Team"]),
      Some("Composer for System 3, famous for The Last Ninja series"),
      Some("https://www.lemon64.com/music/Matt_Gray"), None),
    "Martin Galway" := ArtistInfo("Martin Galway", None, Some("UK"), None,
      Some("Ocean Software composer, created many classic C64 soundtracks"),
      Some("https://www.lemon64.com/music/Martin_Galway"), None),
    "Jeroen Tel" := ArtistInfo("Jeroen Tel", None, Some("Netherlands"), Some(["Maniacs of Noise"]),
      Some("Dutch composer known for technical excellence and innovation"),
      Some("https://www.lemon64.com/music/Jeroen_Tel"), None)
  ]

  /** The recent list set on mount: the first five catalogue tracks, each
      stamped with the (random) time in `playedAt`. */
  function InitialRecent(catalogue: seq<Track>, playedAt: seq<int>): (r: seq<Track>)
    requires |catalogue| >= InitialRecentCount && |playedAt| == InitialRecentCount
    ensures |r| == InitialRecentCount
    ensures forall i :: 0 <= i < |r| ==> r[i].(lastPlayed := None) == catalogue[i].(lastPlayed := None)
    ensures forall i :: 0 <= i < |r| ==> r[i].lastPlayed == Some(playedAt[i])
  {
    seq(InitialRecentCount, i requires 0 <= i < InitialRecentCount => catalogue[i].(lastPlayed := Some(playedAt[i])))
  }

  /** The entries of `tracks` whose id differs from `id`. */
  function WithoutId(tracks: seq<Track>, id: string): seq<Track> {
    Filter(tracks, (t: Track) => t.id != id)
  }

  /** The updater of `addToRecent(track)`: the track, stamped `nowMs`, moves
      to the front, earlier entries with its id are dropped, and the list is
      cut to twenty. */
  function AddedToRecent(prev: seq<Track>, track: Track, nowMs: int): seq<Track> {
    var updated := [track.(lastPlayed := Some(nowMs))] + WithoutId(prev, track.id);
    if |updated| <= RecentLimit then updated else updated[..RecentLimit]
  }

  /** After `addToRecent(track)` the track heads the list, no other entry has
      its id, the list has at most twenty entries, and the rest are the
      earlier entries with another id, in their earlier order. */
  lemma AddedToRecentSpec(prev: seq<Track>, track: Track, nowMs: int)
    ensures var r := AddedToRecent(prev, track, nowMs);
            1 <= |r| <= RecentLimit
            && r[0] == track.(lastPlayed := Some(nowMs))
            && (forall k :: 1 <= k < |r| ==> r[k].id != track.id)
            && r[1..] == WithoutId(prev, track.id)[..|r| - 1]
            && |r| == if |WithoutId(prev, track.id)| < RecentLimit then |WithoutId(prev, track.id)| + 1 else RecentLimit
  {
    var rest := WithoutId(prev, track.id);
    var r := AddedToRecent(prev, track, nowMs);
    forall k | 1 <= k < |r| ensures r[k].id != track.id {
      assert r[k] == rest[k - 1];
      assert rest[k - 1] in rest;
    }
  }

  /** An earlier entry with another id stays in the list as long as fewer than
      twenty such entries exist. */
  lemma AddedToRecentKeeps(prev: seq<Track>, track: Track, nowMs: int, t: Track)
    requires t in prev && t.id != track.id
    requires |WithoutId(prev, track.id)| < RecentLimit
    ensures t in AddedToRecent(prev, track, nowMs)
  {
    FilterMembership(prev, (u: Track) => u.id != track.id, t);
    var r := AddedToRecent(prev, track, nowMs);
    assert r == [track.(lastPlayed := Some(nowMs))] + WithoutId(prev, track.id);
  }

  /** The updater of `toggleLike(id)`: removes `id` when present, adds it otherwise. */
  function Toggled(liked: set<string>, id: string): (r: set<string>)
    ensures id in r <==> id !in liked
    ensures forall other :: other != id ==> (other in r <==> other in liked)
  {
    if id in liked then liked - {id} else liked + {id}
  }

  /** Toggling the same id twice restores the set. */
  lemma ToggledTwice(liked: set<string>, id: string)
    ensures Toggled(Toggled(liked, id), id) == liked
  {
  }

  /** `getLikedTracks()`: the catalogue entries whose id is liked, in catalogue order. */
  function LikedTracks(all: seq<Track>, liked: set<string>): seq<Track> {
    Filter(all, (t: Track) => t.id in liked)
  }

  /** A track is listed as liked exactly when it is in the catalogue and its id
      is liked; the liked list of a catalogue split in two is the liked list of
      each part, joined. */
  lemma LikedTracksSpec(all: seq<Track>, liked: set<string>, t: Track, front: seq<Track>, back: seq<Track>)
    requires all == front + back
    ensures t in LikedTracks(all, liked) <==> t in all && t.id in liked
    ensures LikedTracks(all, liked) == LikedTracks(front, liked) + LikedTracks(back, liked)
  {
    FilterMembership(all, (u: Track) => u.id in liked, t);
    FilterConcat(front, back, (u: Track) => u.id in liked);
  }

  /** The search test: the lowercased title or artist contains `lowerQuery`. */
  predicate MatchesQuery(t: Track, lowerQuery: string) {
    Includes(Lower(t.title), lowerQuery) || Includes(Lower(t.artist), lowerQuery)
  }

  /** `searchTracks(query)`. The blank test trims the query; the match does not. */
  function SearchTracks(all: seq<Track>, query: string): (r: seq<Track>)
    ensures IsBlank(query) ==> r == all
  {
    TrimEmptyIffBlank(query);
    if Trim(query) == [] then all
    else
      var lowerQuery := Lower(query);
      Filter(all, (t: Track) => MatchesQuery(t, lowerQuery))
  }

  /** For a query with a non-space character, a track is found exactly when it
      is in the catalogue and its lowercased title or artist has the
      lowercased query at some position; the results keep catalogue order. */
  lemma SearchTracksSpec(all: seq<Track>, query: string, t: Track, front: seq<Track>, back: seq<Track>)
    requires !IsBlank(query) && all == front + back
    ensures t in SearchTracks(all, query) <==>
              t in all && ((exists i :: OccursAt(Lower(t.title), Lower(query), i))
                           || (exists i :: OccursAt(Lower(t.artist), Lower(query), i)))
    ensures SearchTracks(all, query) == SearchTracks(front, query) + SearchTracks(back, query)
  {
    TrimEmptyIffBlank(query);
    var lowerQuery := Lower(query);
    FilterMembership(all, (u: Track) => MatchesQuery(u, lowerQuery), t);
    FilterConcat(front, back, (u: Track) => MatchesQuery(u, lowerQuery));
    IncludesIff(Lower(t.title), lowerQuery);
    IncludesIff(Lower(t.artist), lowerQuery);
  }

  /** `getArtistInfo(name)`: the stored entry, or null for an unknown name. */
  function GetArtistInfo(info: map<string, ArtistInfo>, name: string): (r: Option<ArtistInfo>)
    ensures r.Some? <==> name in info
    ensures r.Some? ==> r.value == info[name]
  {
    if name in info then Some(info[name]) else None
  }

  /** The state of one `useTrackData()` instance. */
  class TrackStore {
    const allTracks: seq<Track>
    var recentTracks: seq<Track>
    var likedTracks: set<string>
    const artistInfo: map<string, ArtistInfo>

    /** The initial state together with the mount effect that seeds the
        recent list; `playedAt` stands for the random stamps. */
    constructor (playedAt: seq<int>)
      requires |playedAt| == InitialRecentCount
      ensures allTracks == MockTracks && artistInfo == MockArtistInfo
      ensures recentTracks == InitialRecent(MockTracks, playedAt)
      ensures likedTracks == {}
    {
      allTracks := MockTracks;
      artistInfo := MockArtistInfo;
      likedTracks := {};
      recentTracks := InitialRecent(MockTracks, playedAt);
    }

    method AddToRecent(track: Track, nowMs: int)
      modifies this`recentTracks
      ensures recentTracks == AddedToRecent(old(recentTracks), track, nowMs)
    {
      recentTracks := AddedToRecent(recentTracks, track, nowMs);
    }

    method ToggleLike(trackId: string)
      modifies this`likedTracks
      ensures likedTracks == Toggled(old(likedTracks), trackId)
    {
      likedTracks := Toggled(likedTracks, trackId);
    }

    function GetLikedTracks(): seq<Track>
      reads this
    {
      LikedTracks(allTracks, likedTracks)
    }

    function Search(query: string): seq<Track>
      reads this
    {
      SearchTracks(allTracks, query)
    }

    function ArtistLookup(artistName: string): Option<ArtistInfo>
      reads this
    {
      GetArtistInfo(artistInfo, artistName)
    }
  }
}
