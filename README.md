# SID Player: a Dafny model of its playback and catalogue logic

SID Player is a web application for playing Commodore 64 SID music. A
React front end holds a catalogue, recently played and liked tracks, and
user playlists. A global `SIDPlayer` object drives Web Audio playback. A
simulated Chromecast hook manages cast devices. Two Node scripts list
`.sid` files in a Supabase storage bucket and upsert them into a
`sid_files` table.

This project models the rules of that system in Dafny 4.11 and proves
properties about them:

- the player's load, play, pause and stop transitions, its clock-derived
  position and progress, and the buffer-fill loop;
- the player hook's state, its 100 ms poll and its finish rule, and the
  shared `mm:ss` formatter;
- the track collections: move-to-front recent list, like set, liked filter,
  case-insensitive search and artist lookup;
- the application context, the track list, the sidebar's playlist input,
  the mock progress ticker and the layout's play button;
- the simulated cast-device session;
- the paginated, recursive storage listing and the upsert-by-URL script.

There is one Dafny module per source file, with the same structure:

- Code that updates state in place is a `class` whose `modifies` clauses
  name the fields it changes.
- Pure updaters and queries are functions, with lemmas stating what they
  promise.
- Loops stay loops, with their invariants.

Two helper modules are shared:

- `Collections`: `Option`, `Result`, `Outcome` and an order-preserving
  `Filter`.
- `Text`: the JavaScript string operations the code relies on — `trim`,
  ASCII `toLowerCase`, `includes`, `endsWith`, `padStart(2, '0')`,
  number-to-decimal printing and `split('/').pop()`.

Outside inputs are parameters:

- the audio clock is `now: real`;
- `Date.now()` is `nowMs`;
- the random `lastPlayed` stamps are a constructor argument;
- a fetch result is a `FetchResponse` value;
- whether `navigator.share` exists is a flag;
- the storage service is a finite folder tree;
- the database table is a map keyed by `storage_url`.

Behaviour is modelled as the code does it, including its quirks:

- `pause()` keeps no elapsed time, and the position reads 0 whenever the
  player is not playing.
- A `play()` while the audio clock reads exactly 0 leaves `startTime` at 0,
  so the position stays 0 until the next play.
- A second `play()` replaces the script processor without disconnecting
  the old one; the model counts such leaked processors.
- The hook's finish rule resets the hook's display but does not stop the
  global player.
- `toggleLike`'s message is chosen from the liked set as it was before the
  toggle.
- `connect` stores the chosen device record as found, with its old status.

The code has no banked pause offset, no Finished or Error state, no subtune
selection and no cancellation of in-flight loads, so the model has none
either.

## Model

| member | source | states |
|---|---|---|
| JsSid.TrackFromResponse | src/lib/jssid.ts:54-72 | a non-ok response fails with "Failed to fetch SID file: " + its status text, and a network failure fails with its message; an ok response gives the id `hvsc_` and the load time, the fixed title and artist, the fetched bytes, one subtune, default subtune 0 and the URL |
| JsSid.SIDPlayer.constructor | src/lib/jssid.ts:20-46 | initialised exactly when an audio context could be created; no track, default config (6581, speed 1, 44100 Hz), clock and duration 0, not playing |
| JsSid.SIDPlayer.LoadTrack | src/lib/jssid.ts:79-87 | without an audio context fails with "SID player not initialized" and changes nothing; otherwise stores the track and sets the duration to 180 |
| JsSid.SIDPlayer.LoadTrackFromUrl | src/lib/jssid.ts:48-77 | the not-initialised error first, then the fetch or parse error; on success the parsed track becomes current with duration 180; on any failure track and duration are unchanged |
| JsSid.SIDPlayer.Play | src/lib/jssid.ts:89-100 | nothing changes without an audio context or a track; otherwise `startTime = now`, playing, a new processor, one more leaked processor if one was held, the position reads 0 at `now`, and it stays 0 at every later time if `now` is 0 |
| JsSid.SIDPlayer.CreateAudioProcessor | src/lib/jssid.ts:139-142 | with an audio context a processor is held, and a previously held one is counted as leaked |
| JsSid.SIDPlayer.Pause | src/lib/jssid.ts:102-108 | not playing, no processor, the position reads 0 at every clock value; track, config and start time untouched |
| JsSid.SIDPlayer.Stop | src/lib/jssid.ts:110-113 | the effect of pause plus `startTime = 0` |
| JsSid.SIDPlayer.SetChipModel | src/lib/jssid.ts:115-118 | only the chip model changes; its getter returns it and the speed getter is unchanged; the sample rate stays 44100 |
| JsSid.SIDPlayer.SetPlaybackSpeed | src/lib/jssid.ts:120-123 | only the speed changes; its getter returns it and the chip-model getter is unchanged |
| JsSid.Position | src/lib/jssid.ts:125-128 | defines the position: 0 without an audio context, with a start time of 0 or when not playing, else (now − start) × speed |
| JsSid.SIDPlayer.GetCurrentTime | src/lib/jssid.ts:125-128 | defines `getCurrentTime()` as the position of the player's own fields at clock `now` |
| JsSid.ProgressPercent | src/lib/jssid.ts:134-137 | defines the percentage: position / duration × 100 for a positive duration, else 0 |
| JsSid.SIDPlayer.GetProgress | src/lib/jssid.ts:134-137 | defines `getProgress()` as the percentage of the current position and the duration |
| JsSid.PositionNonNegative | src/lib/jssid.ts:125-128 | with a positive speed and a clock not before the start, the position is at least 0 |
| JsSid.PositionMonotone | src/lib/jssid.ts:125-128 | with a positive speed the position never decreases as the clock advances |
| JsSid.PositionAfter | src/lib/jssid.ts:127 | `n` seconds after a start at a non-zero clock the position is `n` times the speed |
| JsSid.ProgressReachesEnd | src/lib/jssid.ts:134-137 | for a positive duration the progress reaches 100 exactly when the position reaches the duration |
| JsSid.SampleTime | src/lib/jssid.ts:153 | defines the track time of sample `i`: (now + i / sample rate) × speed |
| JsSid.SIDPlayer.OnAudioProcess | src/lib/jssid.ts:144-158 | writes nothing when not playing; otherwise every left sample is the generator's value at the sample's track time, the right channel equals the left where both exist, and nothing beyond the left length changes |
| SidPlayerHook.TrackOfFile | src/hooks/useSIDPlayer.ts:54-60 | the display track has the row's id as decimal text, its title and artist, duration "3:00" and 0 plays |
| SidPlayerHook.PollResult | src/hooks/useSIDPlayer.ts:33-41 | the poll stops the display exactly when progress is at least 100, and then shows progress and position 0; otherwise it shows what the player reports |
| SidPlayerHook.PollFinishesAtDuration | src/hooks/useSIDPlayer.ts:37 | for a positive duration the poll stops exactly when the player's position has reached the duration |
| SidPlayerHook.PlayerHook.constructor | src/hooks/useSIDPlayer.ts:15-22 | nothing loaded, not playing, zeros, chip 6581 and speed 1 |
| SidPlayerHook.PlayerHook.LoadSIDFile | src/hooks/useSIDPlayer.ts:50-80 | true exactly when the player loads the fetched file; then the display track and the row are set, and the player holds the parsed track with duration 180; on false neither the hook nor the player's track changes |
| SidPlayerHook.PlayerHook.Play | src/hooks/useSIDPlayer.ts:82-87 | without a track nothing changes; with one the player plays from `now`, holds a new processor and counts a held one as leaked, and the flag is set |
| SidPlayerHook.PlayerHook.Pause | src/hooks/useSIDPlayer.ts:89-92 | the flag is cleared and the player is paused |
| SidPlayerHook.PlayerHook.Stop | src/hooks/useSIDPlayer.ts:94-99 | the flag, progress and position are cleared and the player is stopped |
| SidPlayerHook.PlayerHook.TogglePlayPause | src/hooks/useSIDPlayer.ts:101-107 | pauses when the flag was set, otherwise plays as `Play` does (which needs a track), with the same processor replacement and leak count |
| SidPlayerHook.PlayerHook.ChangeChipModel | src/hooks/useSIDPlayer.ts:109-116 | the hook and the player report the same new chip model; the speed is unchanged |
| SidPlayerHook.PlayerHook.ChangePlaybackSpeed | src/hooks/useSIDPlayer.ts:118-125 | the hook and the player report the same new speed; the chip model is unchanged |
| SidPlayerHook.PlayerHook.Poll | src/hooks/useSIDPlayer.ts:27-42 | without the flag nothing changes; with it the state is the poll result of the player's position, duration and progress; the player is not touched |
| TimeFormat.FormatTime | src/hooks/useSIDPlayer.ts:127-131 | defines `formatTime`: floor(s / 60), ':', and floor of the JavaScript remainder s % 60 padded to two characters |
| TimeFormat.FormatTimeFields | src/hooks/useSIDPlayer.ts:127-131 | for non-negative seconds the minute field is floor(s) div 60 and the second field is floor(s) mod 60, in 0..59, and minutes × 60 + seconds = floor(s) |
| TimeFormat.FormatTimeShape | src/hooks/useSIDPlayer.ts:127-131 | for non-negative seconds the text is the decimal minutes, ':' and exactly two digits of seconds |
| TimeFormat.ClockTextFields | src/components/AppLayout.tsx:29 | a `m:ss` text splits at the colon into the decimal minutes and the two-digit seconds |
| TimeFormat.FormatTimeRoundTrip | src/components/AppLayout.tsx:26-30 | for non-negative seconds, reading the text back gives minutes × 60 + seconds = floor(s), with two digit seconds below 60 |
| TrackData.InitialRecent | src/hooks/useTrackData.ts:73-79 | the first five catalogue tracks, in order, each with only its lastPlayed stamp set |
| TrackData.TrackStore.constructor | src/hooks/useTrackData.ts:66-79 | the fixed catalogue and artist table, the seeded recent list, no likes |
| TrackData.WithoutId | src/hooks/useTrackData.ts:83 | defines the entries whose id differs from the given one, in order |
| TrackData.AddedToRecent | src/hooks/useTrackData.ts:81-87 | defines the updater: the stamped track in front of the other-id entries, cut to 20 |
| TrackData.AddedToRecentSpec | src/hooks/useTrackData.ts:81-87 | the track, stamped now, heads the list; no other entry has its id; at most 20 entries; the rest are the earlier other-id entries in order, cut to fit |
| TrackData.AddedToRecentKeeps | src/hooks/useTrackData.ts:83-84 | an earlier entry with another id survives while fewer than 20 such entries exist |
| TrackData.TrackStore.AddToRecent | src/hooks/useTrackData.ts:81-87 | the recent list becomes the move-to-front update of the old one |
| TrackData.Toggled | src/hooks/useTrackData.ts:89-99 | the id's membership flips and every other id keeps its membership |
| TrackData.ToggledTwice | src/hooks/useTrackData.ts:89-99 | toggling the same id twice restores the set |
| TrackData.TrackStore.ToggleLike | src/hooks/useTrackData.ts:89-99 | the liked set becomes the toggled old set |
| TrackData.LikedTracks | src/hooks/useTrackData.ts:101-103 | defines `getLikedTracks()` as the catalogue filtered by the liked set |
| TrackData.LikedTracksSpec | src/hooks/useTrackData.ts:101-103 | a track is listed exactly when it is in the catalogue with a liked id, and the list keeps catalogue order |
| TrackData.SearchTracks | src/hooks/useTrackData.ts:105-106 | a query of only white space returns the catalogue unchanged |
| TrackData.SearchTracksSpec | src/hooks/useTrackData.ts:105-113 | otherwise a track is found exactly when the lowercased query occurs in its lowercased title or artist, in catalogue order |
| TrackData.GetArtistInfo | src/hooks/useTrackData.ts:115-117 | the stored entry for a known name and none otherwise |
| TrackList.HandlePlay | src/components/TrackList.tsx:43-50 | pressing play on the current, playing track pauses it and keeps it current; otherwise the track becomes current and plays |
| TrackList.DaysFromHours | src/components/TrackList.tsx:75-76 | whole days counted from whole hours equal whole days counted from milliseconds |
| TrackList.FormatLastPlayed | src/components/TrackList.tsx:71-82 | defines `formatLastPlayed`: hours and days by floor division of the age in milliseconds, then the four text cases |
| TrackList.FormatLastPlayedBuckets | src/components/TrackList.tsx:71-82 | no date gives ''; under an hour (or in the future) 'Just now'; under a day 'Nh ago' with N in 1..23; under a week 'Nd ago' with N in 1..6; otherwise the locale date |
| TrackList.VariantStyles | src/components/TrackList.tsx:60-69 | defines `getVariantStyles()`: the liked, recent or default class string |
| TrackList.VariantStylesSpec | src/components/TrackList.tsx:60-69 | 'liked' and 'recent' get their own styles and every other variant the default |
| AppContext.AppState.constructor | src/contexts/AppContext.tsx:66-73 | sidebar closed, no track, not playing, no playlists |
| AppContext.AppState.ToggleSidebar | src/contexts/AppContext.tsx:75-77 | the sidebar flag is negated |
| AppContext.AppState.ToggleSidebarTwice | src/contexts/AppContext.tsx:75-77 | two toggles restore the flag |
| AppContext.AppState.SetCurrentTrack | src/contexts/AppContext.tsx:69 | the current track becomes the argument |
| AppContext.AppState.SetIsPlaying | src/contexts/AppContext.tsx:70 | the play flag becomes the argument |
| AppContext.LikeMessage | src/contexts/AppContext.tsx:81-84 | the message is always one of the two liked-songs messages |
| AppContext.LikeMessageMatchesToggle | src/contexts/AppContext.tsx:79-85 | 'Removed from liked songs' exactly when the toggle removes the id, 'Added to liked songs' exactly when it adds it |
| AppContext.AppState.ToggleLike | src/contexts/AppContext.tsx:79-85 | the liked set is toggled and the message reflects the membership before the toggle |
| AppContext.NewPlaylist | src/contexts/AppContext.tsx:88-94 | the name given, no tracks, private, id the decimal creation time |
| AppContext.WithPlaylist | src/contexts/AppContext.tsx:95 | one playlist appended at the end, earlier playlists unchanged |
| AppContext.WithPlaylistTwice | src/contexts/AppContext.tsx:87-96 | two creations append in call order |
| AppContext.AppState.CreatePlaylist | src/contexts/AppContext.tsx:87-97 | the playlist list becomes the appended one and the notification names the playlist |
| AppContext.ShareText | src/contexts/AppContext.tsx:100 | defines the share text: `Check out "`, the title, `" by `, the artist, ` on SID Player! 🎵` |
| AppContext.ShareTextParts | src/contexts/AppContext.tsx:100 | the share text has the title right after `Check out "`, the artist right after `" by `, and ends with ` on SID Player! 🎵` |
| AppContext.ShareTrack | src/contexts/AppContext.tsx:99-111 | the share sheet with title, text and page URL when available, else a clipboard copy of the text with its notification |
| AppContext.AppState.CastTrack | src/contexts/AppContext.tsx:113-124 | 'Cast failed' (destructive) exactly when the cast session has no connected device, otherwise `Casting "<title>" to TV`; no failure escapes |
| Chromecast.FindById | src/hooks/useChromecast.ts:58 | none exactly when no device has the id; otherwise the first device with it |
| Chromecast.ChooseDevice | src/hooks/useChromecast.ts:58-59 | defines the device `connect` picks: the first with the id, else the first in the list, else none |
| Chromecast.ChooseDeviceSpec | src/hooks/useChromecast.ts:58-59 | no choice only for an empty list; the first device with the requested id when there is one; otherwise the first device |
| Chromecast.MarkConnected | src/hooks/useChromecast.ts:62-64 | the list keeps its length |
| Chromecast.MarkConnectedSpec | src/hooks/useChromecast.ts:62-64 | ids and names are kept; only entries with the chosen id change, and they become connected |
| Chromecast.MarkAllAvailable | src/hooks/useChromecast.ts:77 | the list keeps its length |
| Chromecast.DisconnectUndoesConnect | src/hooks/useChromecast.ts:77 | disconnecting after a connect gives the same list as disconnecting at once |
| Chromecast.CastSession.constructor | src/hooks/useChromecast.ts:27-44 | casting available; with no Cast API the two development devices, both available; not connected |
| Chromecast.CastSession.Connect | src/hooks/useChromecast.ts:51-71 | with no device to choose only the connecting flag changes (and ends false); otherwise the chosen device is current, connected, and its entries are marked connected |
| Chromecast.CastSession.Disconnect | src/hooks/useChromecast.ts:73-81 | not connected, no current device, every device available |
| Chromecast.CastSession.CastTrack | src/hooks/useChromecast.ts:83-96 | fails with 'No cast device connected' exactly when not connected or without a current device |
| MockAudioPlayer.TickValue | src/components/MockAudioPlayer.tsx:16-23 | below the duration one more second, at or past it back to 0 |
| MockAudioPlayer.Ticks | src/components/MockAudioPlayer.tsx:16-23 | defines the progress after `n` ticks as `n` applications of the tick updater |
| MockAudioPlayer.TicksInRange | src/components/MockAudioPlayer.tsx:16-23 | from a value in [0, duration] any number of ticks stays in [0, duration] |
| MockAudioPlayer.TicksFromZero | src/components/MockAudioPlayer.tsx:16-23 | from 0, k ticks give k up to the duration, and the next tick gives 0 |
| MockAudioPlayer.MockPlayer.constructor | src/components/MockAudioPlayer.tsx:7-8 | progress 0 and duration 100 |
| MockAudioPlayer.MockPlayer.Tick | src/components/MockAudioPlayer.tsx:15-24 | no change unless the context is playing a track; otherwise the tick value; at the end it clears the context's play flag and announces the track |
| MockAudioPlayer.MockPlayer.Sync | src/components/MockAudioPlayer.tsx:13-33 | playing a track announces it; otherwise the progress is reset to 0 |
| Sidebar.CreateStep | src/components/Sidebar.tsx:28-34 | defines `handleCreatePlaylist`'s effect on the input and the name it creates, if any |
| Sidebar.KeyStep | src/components/Sidebar.tsx:36-43 | defines `handleKeyPress`: Enter is the create step, Escape closes and clears, other keys change nothing |
| Sidebar.CancelStep | src/components/Sidebar.tsx:101-104 | defines the Cancel button: the input closed and cleared, nothing created |
| Sidebar.CreateStepSpec | src/components/Sidebar.tsx:28-34 | a blank name creates nothing and leaves the input; otherwise the trimmed name is created and the input is hidden and cleared |
| Sidebar.KeyStepSpec | src/components/Sidebar.tsx:36-43 | Enter is Create; Escape hides and clears without creating, as Cancel does; other keys change nothing |
| Sidebar.SidebarPanel.constructor | src/components/Sidebar.tsx:17-18 | empty name, input hidden |
| Sidebar.SidebarPanel.OpenCreateInput | src/components/Sidebar.tsx:114 | the input is shown and the name kept |
| Sidebar.SidebarPanel.SetName | src/components/Sidebar.tsx:84 | the name becomes the typed text |
| Sidebar.SidebarPanel.HandleCreatePlaylist | src/components/Sidebar.tsx:28-34 | with a non-blank name the context gains the playlist with the trimmed name; with a blank one the playlists are unchanged |
| Sidebar.SidebarPanel.HandleKeyPress | src/components/Sidebar.tsx:36-43 | the input follows the key step; only Enter with a non-blank name creates a playlist |
| Sidebar.SidebarPanel.Apply | src/components/Sidebar.tsx:28-43 | the input becomes the step's state; the context gains a playlist exactly when the step names one, with that name |
| Sidebar.SidebarPanel.Cancel | src/components/Sidebar.tsx:101-104 | the input is hidden and cleared |
| SupabaseStorage.IsSidFile | src/lib/supabaseStorage.js:36 | defines a file entry: a truthy id and a lowercased name ending in '.sid' |
| SupabaseStorage.IsFolder | src/lib/supabaseStorage.js:42 | defines a folder entry: a null id and null metadata |
| SupabaseStorage.ChildPath | src/lib/supabaseStorage.js:37 | the name at the top level, else the path, '/' and the name |
| SupabaseStorage.ListPage | src/lib/supabaseStorage.js:23-26 | a page holds at most 1000 entries, the ones from the offset on |
| SupabaseStorage.ListFrom | src/lib/supabaseStorage.js:22-55 | defines the listing from a page offset on: nothing on a failing page, else the page's entries then the next page when this one was full |
| SupabaseStorage.EntriesFiles | src/lib/supabaseStorage.js:34-48 | defines the paths a range of entries contributes, in order |
| SupabaseStorage.EntryFiles | src/lib/supabaseStorage.js:36-47 | defines one entry's paths: its own path for a SID file, the sub-folder's listing for a folder, nothing otherwise |
| SupabaseStorage.ListAll | src/lib/supabaseStorage.js:16-58 | defines the whole listing of a folder, from offset 0 |
| SupabaseStorage.Reach | src/lib/supabaseStorage.js:29-32 | the entry where the listing stops, at most the number of entries: the failing page's start when that page is reached, else the end |
| SupabaseStorage.ListFromSidOnly | src/lib/supabaseStorage.js:36 | every collected path, at any depth, ends in '.sid' once lowercased |
| SupabaseStorage.ListFromReach | src/lib/supabaseStorage.js:50-55 | paging continues on full pages and stops on a short one or at the failing page; the listing is the entries' paths in order up to there |
| SupabaseStorage.ListAllSpec | src/lib/supabaseStorage.js:29-32 | the listing stops at the failing page keeping what was collected; without one it covers every entry; only SID paths |
| SupabaseStorage.ListAllSplice | src/lib/supabaseStorage.js:34-48 | a SID file's path sits at its entry's position, a sub-folder's listing is spliced in at its position, other entries add nothing |
| SupabaseStorage.ListPageFiles | src/lib/supabaseStorage.js:34-48 | the loop over one page's entries returns exactly the paths those entries contribute |
| SupabaseStorage.ListSidFilesRecursively | src/lib/supabaseStorage.js:16-58 | the paging loop with its recursion returns exactly the specified listing |
| UpdateSidFiles.StorageUrl | scripts/updateSidFiles.js:14 | defines the URL of path p: the base URL, '/', the bucket name, '/', p |
| UpdateSidFiles.RowFor | scripts/updateSidFiles.js:33-34 | defines the row of a path: its URL, its last segment, the path |
| UpdateSidFiles.Upsert | scripts/updateSidFiles.js:36-41 | defines one upsert keyed by `storage_url`: the row stored under its URL, or no change when the URL is rejected |
| UpdateSidFiles.UpsertAll | scripts/updateSidFiles.js:32-48 | defines a sequence of upserts applied in order |
| UpdateSidFiles.Rows | scripts/updateSidFiles.js:32-34 | as many rows as paths, each the row of the path at its position |
| UpdateSidFiles.IssuedUpserts | scripts/updateSidFiles.js:19-41 | defines the upserts issued: the first path's row once, then every path's row |
| UpdateSidFiles.StorageUrlInjective | scripts/updateSidFiles.js:14 | two paths share a URL exactly when they are equal |
| UpdateSidFiles.RowForSpec | scripts/updateSidFiles.js:33-34 | the URL of the path, the path, and a file name with no '/' that ends the path and equals it when the path has no '/' |
| UpdateSidFiles.RowForNested | scripts/updateSidFiles.js:34 | the file name of `dir/name` is `name` |
| UpdateSidFiles.UpsertIdempotent | scripts/updateSidFiles.js:23-28 | an upsert repeated right away changes nothing |
| UpdateSidFiles.FirstUpsertHarmless | scripts/updateSidFiles.js:19-30 | the extra first upsert leaves the same table as the loop alone |
| UpdateSidFiles.UpsertAllConsistent | scripts/updateSidFiles.js:32-41 | after upserting rows that agree per URL, each accepted row is stored and other URLs keep their rows |
| UpdateSidFiles.RowsConsistent | scripts/updateSidFiles.js:33 | rows of the discovered paths that share a URL are equal |
| UpdateSidFiles.FinalTable | scripts/updateSidFiles.js:19-48 | each accepted path's row is in the table under its URL; every other URL keeps its row |
| UpdateSidFiles.UpsertSidFiles | scripts/updateSidFiles.js:14-50 | the first path's row once, then every path's row in order, the table those upserts leave, and the count of paths |
| UpdateSidFiles.UpdateSidFilesInDB | scripts/updateSidFiles.js:5-51 | issues the specified upserts over the listed paths, leaves their result as the table, and reports the number of paths |
| AppLayout.HandlePlayPause | src/components/AppLayout.tsx:22-24 | the context's play flag is negated |
| AppLayout.HandlePlayPauseTwice | src/components/AppLayout.tsx:22-24 | two presses restore the flag |
| Text.Trim | src/components/Sidebar.tsx:29 | `trim()` leaves no white space at either end |
| Text.TrimEmptyIffBlank | src/hooks/useTrackData.ts:106 | `trim()` is empty exactly when every character is JavaScript white space |
| Text.TrimIdempotent | src/components/Sidebar.tsx:29-30 | trimming twice is trimming once |
| Text.Lower | src/hooks/useTrackData.ts:108-111 | `toLowerCase()` keeps the length, lowercasing letter by letter |
| Text.Includes | src/hooks/useTrackData.ts:110-111 | defines `includes` as a match at the front or in the rest |
| Text.IncludesIff | src/hooks/useTrackData.ts:110-111 | `includes` holds exactly when the query occurs at some position |
| Text.IntToString | src/hooks/useSIDPlayer.ts:128-130 | decimal digits, with a leading '-' for a negative number |
| Text.PadStart2 | src/hooks/useSIDPlayer.ts:130 | at least two characters, the text at the end, '0's before it |
| Text.NatToString | src/hooks/useSIDPlayer.ts:130 | `toString()` of a natural number: at least one character, all digits, no leading zero |
| Text.NatToStringRoundTrip | src/hooks/useSIDPlayer.ts:130 | the decimal text reads back as the number |
| Text.LastSegment | scripts/updateSidFiles.js:22 | the part after the last '/' holds no '/' and is no longer than the text |
| Text.LastSegmentSuffix | scripts/updateSidFiles.js:22 | the last segment ends the text, and is preceded by '/' unless it is the whole text |
| Text.LastSegmentOfJoin | scripts/updateSidFiles.js:34 | the last segment of `path/name` is `name` for a name without '/' |

## Left out

- UpdateSidFiles.FirstUpsertHarmless: a database error is modelled as a permanent property of the URL (the `rejected` set), so the two upserts of the first path are both accepted or both refused. A one-off error on the second upsert alone would leave the first upsert's row, which the loop alone would not have written; this lemma, and FinalTable, do not cover that case.
- Web Audio: creating and resuming the `AudioContext`, creating, connecting and disconnecting script processors, and the audio output. The model keeps only whether a context exists, whether a processor is held, and how many were leaked.
- JsSid.SIDPlayer.OnAudioProcess: the placeholder sine tone is an uninterpreted function `wave` of the track time. The floating-point synthesis is not modelled, and neither is the channel buffer supplied by the event.
- The network: `fetch` in `loadTrackFromUrl` is given as its result. The Supabase client is a folder tree (listing) or a map with a set of rejected URLs (upserts). A listing answer with no error and no data is not modelled.
- Timers and asynchrony: the 100 ms poll, the one-second mock tick, the 1.5 s connection delay and promise ordering. Each tick or handler call is one method call.
- React stale closures: each handler sees the current state, where React might hand it an older render's values. For example `connect` reads `devices` from its closure but updates from `prev`; the two are one list in the model.
- Toasts are returned as values only where their content is decided by the logic. Console logging is left out.
- The share sheet and clipboard calls are left out; `ShareTrack` returns which of them would be used.
- Time values: `Date.now()`, `new Date()` and the random `lastPlayed` stamps are parameters. `toLocaleDateString` is a `LocaleDate` value.
- Text.Lower: lowercases ASCII letters only, where JavaScript's `toLowerCase` covers all of Unicode.
- TimeFormat.FormatTimeRoundTrip: proved for non-negative seconds only. For negative input `FormatTime` follows the JavaScript operators, so -65 s gives "-2:-5", but nothing is proved about it.
- JavaScript numbers are Dafny reals (or integers for counts and milliseconds). Rounding, NaN and infinities are not modelled.
- TrackData.GetArtistInfo: `artistInfo[name] || null` would also return inherited object members for names like `constructor`. The model's table is a map without them.
- `fetchArtistInfo` in `src/hooks/useTrackData.ts` is a delayed lookup returning the same entry as `getArtistInfo`. It is left out.
- `initializeCast` only logs; left out.
- SidPlayerHook.PlayerHook.Valid: requires the global player to hold a track whenever the hook's display does. This holds when this hook is the only one loading tracks into the shared player.
- The Sidebar's navigation buttons, the layout's search, volume and duration fields, `currentUser`, and all rendering are left out.
- The `useChromecast()` instance inside `AppProvider` is never connected through the UI, since the device list and cast button use their own instances. Its `castTrack` therefore always reports 'Cast failed'. The model shows this through `AppState.CastTrack`'s contract on whatever session it is given.
