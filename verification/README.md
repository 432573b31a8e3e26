# Music streaming app: the playback session, the page adapters and the catalogue services

This project models the core of a music-streaming web application in Dafny and proves
properties of the model. The application has a browser front end (a player script shared by
every page, a catalogue page and album, artist, playlist, genre and track pages) and Spring
services (catalogue, users and playlists, notifications).

What is modelled:

- **The playback session** (`player.js`). `PlayerState` describes the session as a value: the current track, the index,
  the playlist, the four flags, the volume, and the audio element as a small record of source,
  position, paused flag, duration and mute flag. `PlayerSession.Session` is the class that holds
  these fields and updates them in place. Each of its methods is proved to leave exactly the
  state the matching `PlayerState` function describes. `PlayerProps` proves the session's
  behaviour about those functions:
  - the same-id toggle;
  - the three-tier lookup;
  - wrap-around stepping and the fallback lists;
  - where the "index in range" invariant breaks;
  - repeat, the flag toggles, the volume clamp and the icon bands.

  `PlayerRestore` covers the snapshot and the restore:
  - the one-hour staleness check;
  - the ten-attempt poll;
  - the playlist rebuild;
  - the index choice;
  - a save/restore round trip.
- **Artwork URLs** (`Artwork`). These are the catalogue page's resolver and its copies in the player, the
  album/artist/track/genre pages and the playlist page. The model states where the copies agree
  with the original and where they differ.
- **List helpers and formatting** (`Ranking`, `Sorting`, `Favorites`, `Initials`, `Clock`):
  - the period chart and the history ranking;
  - the artist tabs and the "other tracks" list;
  - the favourite lists;
  - initials;
  - the `m:ss` clocks, with a parse-back round trip.
- **The page adapters** (`Pages`). Each "play" handler is a plan: install a list at an index, then maybe play one
  track. The plan is composed with the session, which proves which track each click starts.
- **The catalogue services**:
  - `TrackPlays`: play counts, the bulk count reset and its timestamps;
  - `Downloads`: URL guards, the URL extension and the audio content-type test;
  - `FileRoutes`: content types, download names, the 404/500 decisions, artwork redirects and fallbacks, uploads;
  - `ClientDownload`: the browser reading the download name back from the Content-Disposition header;
  - the stores `TrackStore`, `AlbumStore`, `ArtistStore`, `UserStore`, `PlaylistStore` and `NotificationStore`.

  Each store is a class over a map from id to row. An unknown id is an error result.

Inputs that the original code reads from the outside world are parameters of the model:
- the clock (`now`);
- `Math.random` picks (`pick`, `picks`);
- the API's answers (`fetched`, `fetchedAll`, `polls`, `failing`);
- whether the browser allows `play()` (`allowed`);
- the API base URL (`base`);
- the files on disk (`disk`);
- what a content-type probe reports (`probed`);
- whether a remote download succeeded (`fetched`);
- the audio duration detected (`detected`).

JavaScript `null`/`undefined` strings are `Option<string>`. A falsy id is `0`.

Where the code departs from its evident design, the model follows the code:
- The genre page's "play all" and row click are named and wired as "play" actions. As written they only install the list (see Findings).
- `TrackService` reads `dto.getIsNewRelease()`, which the shown `TrackDTO` does not declare. The model follows the service and gives the DTO that field.
- `TrackPlay.onCreate` overwrites the play time that `setPlayCounts` asks for. The service as modelled does the same (see Findings).

## Model

Paths are relative to the repository root.

| member | source | states |
|---|---|---|
| Catalog.FindIndex | frontend/js/player.js:154 | the first position whose id matches, or -1 exactly when no track has the id |
| Catalog.FindTrack | frontend/js/player.js:154-166 | found exactly when some track has the id, and then it is the track at the first such position |
| Catalog.FindAlbum | frontend/js/app.js:2928-2929 | a found album has that id and no album before it in the list has it; none found means no album has the id |
| Catalog.FindArtist | frontend/js/app.js:2941-2942 | a found artist has that id and no artist before it in the list has it; none found means no artist has the id |
| Catalog.Filter | frontend/js/track-page.js:155 | keeps exactly the elements that satisfy the predicate, never more than the input; their order is stated by FilterAppend and FilterSingle |
| Catalog.FilterAppend | frontend/js/track-page.js:155 | filtering a concatenation is the concatenation of the filtered parts, so the kept elements stay in their input order |
| Catalog.FilterSingle | frontend/js/track-page.js:155 | a one-element list is kept exactly when its element passes the test |
| Artwork.AlbumWithImage | frontend/js/app.js:2927-2937 | the album consulted is a cached album whose id is the track's (truthy) album id |
| Artwork.ArtistWithImage | frontend/js/app.js:2940-2950 | the artist consulted is a cached artist whose id is the track's (truthy) artist id |
| Artwork.ArtworkUrl | frontend/js/app.js:2913-2954 | '' exactly when no tier has a non-blank image; otherwise the first tier with one, verbatim if http(s), else its /api/files/artwork endpoint |
| Artwork.PlayerArtworkAgrees | frontend/js/player.js:556-615 | the player bar shows the catalogue resolver's URL, or the note icon exactly when that URL is empty |
| Artwork.PageArtworkUrl | frontend/js/album-page.js:17-59 | with no tier holding an image the page resolver gives '' |
| Artwork.PageArtworkAgrees | frontend/js/artist-page.js:17-60 | for a track with a truthy id, the id-guarded page resolver equals the catalogue resolver |
| Artwork.PageArtworkDiffersWithoutId | frontend/js/track-page.js:17-60 | for a track without an id and a local path, the page resolver gives '' while the catalogue builds /tracks/0 |
| Artwork.PlaylistPageFallbackUrl | frontend/js/playlist-page.js:274-291 | a non-empty fallback URL comes only from the track's own truthy artwork path |
| Artwork.PlaylistFallbackAgrees | frontend/js/playlist-page.js:284-290 | for a track with an id and a non-blank path, the fallback equals the catalogue resolver |
| Artwork.PlaylistFallbackIgnoresBlank | frontend/js/playlist-page.js:284-290 | for a whitespace-only path, the fallback still asks the track endpoint while the catalogue moves on to the album |
| Artwork.PlaylistArtworkUrl | frontend/js/playlist-page.js:293-302 | '' exactly without an image path; an http(s) path verbatim; otherwise /api/files/playlists/{id}/image |
| Artwork.PlayerArtwork | frontend/js/player.js:556-615 | `updateArtwork(track)` of the player; no contract of its own: PlayerArtworkAgrees states it |
| Artwork.PlaylistPageArtworkUrl | frontend/js/playlist-page.js:274-291 | the playlist page `getArtworkUrl`, delegating or falling back; no contract of its own: PlaylistPageArtworkAgrees states it |
| Artwork.PlaylistPageArtworkAgrees | frontend/js/playlist-page.js:274-291 | delegating or not gives the same URL for a track with an id and a non-blank path of its own; without delegation a track without a path of its own gets no URL |
| Artwork.GenreArtwork.constructor | frontend/js/genre-page.js:69 | the re-entrancy flag starts cleared |
| Artwork.GenreArtwork.Resolve | frontend/js/genre-page.js:67-123 | the flag is as it was afterwards; delegates to the catalogue resolver only when the global is that resolver and the flag was clear, otherwise uses the id-guarded chain |
| Clock.JsRem | frontend/js/app.js:2890 | JavaScript's remainder, which agrees with the mathematical one on non-negative dividends |
| Clock.ClockStringRoundTrip | frontend/js/app.js:2891 | an `m:ss` string with seconds below 60 parses back to m*60+ss |
| Clock.FormatDurationRoundTrip | frontend/js/app.js:2887-2892 | the printed minutes and seconds of a non-negative length add back up to the length |
| Clock.FormatTimeParts | frontend/js/player.js:625-630 | on a positive position the minutes are the floor of the quotient and the seconds the floor of the remainder |
| Clock.FormatTimeRoundTrip | frontend/js/player.js:625-630 | the player clock of a non-negative position parses back to its whole seconds |
| Clock.NegativeDurationKeepsSigns | frontend/js/app.js:2887-2892 | formatDuration(-5) is "-1:-5", with JavaScript's signs |
| Clock.FormatDuration | frontend/js/app.js:2887-2892 | `formatDuration(seconds)`; no contract of its own: FormatDurationRoundTrip and NegativeDurationKeepsSigns state it |
| Clock.FormatTime | frontend/js/player.js:625-630 | `formatTime(seconds)` of the player; no contract of its own: FormatTimeParts and FormatTimeRoundTrip state it |
| Clock.ClockString | frontend/js/app.js:2891 | the `m:ss` rendering shared by both; no contract of its own: ClockStringRoundTrip states that ParseClock reads it back |
| Clock.ParseClock | frontend/js/app.js:2891 | reads `m:ss` back into seconds; it is the inverse against which the round-trip lemmas are stated |
| Sorting.Insert | frontend/js/app.js:1052-1074 | the insertion step adds exactly one element and keeps the others |
| Sorting.SortBy | frontend/js/app.js:1052-1074 | the sorted list is a permutation of the input; SortBySorted states that it is sorted and SortByStable that ties keep their input order |
| Sorting.InsertSorted | frontend/js/app.js:1052-1074 | insertion into a sorted list keeps it sorted for a total preorder |
| Sorting.SortBySorted | frontend/js/app.js:1052-1074 | the result is sorted for a total preorder |
| Sorting.InsertShape | frontend/js/app.js:1052-1074 | the inserted element stands at its insertion position, the elements before that position are unchanged and the ones after it move up by one |
| Sorting.InsertPasses | frontend/js/app.js:1052-1074 | the inserted element is placed after every element it may not precede |
| Sorting.SortByStable | frontend/js/app.js:1052-1074 | on a list without repeats, whenever a later element of the result may precede an earlier one (a tie), the two stand in the same order in the input: the sort is stable, as `Array.prototype.sort` is |
| Sorting.TiedPair | frontend/js/app.js:1052-1074 | the inductive step of stability: a tied pair keeps its input order whether or not it contains the element inserted first |
| Sorting.Take | frontend/js/app.js:1077 | `slice(0, n)`: the first min(n, length) elements |
| Sorting.TakeOfSortedIsTop | frontend/js/app.js:1077 | each of the first n of a sorted permutation may precede every element left out |
| Ranking.MorePlayedIsPreorder | frontend/js/app.js:1052-1074 | the period comparator is a total preorder |
| Ranking.PeriodOf | frontend/js/app.js:1055-1071 | the period of the `switch (currentPeriod)`, any other name falling to the `default` all-time branch; no contract of its own: TrackChart.SelectPeriod and TrackChart.FilterTracks state that the chart is ranked by it |
| Ranking.PeriodCount | frontend/js/app.js:1056-1071 | `t.playCountDay || 0` and its siblings; no contract of its own: TopTracksAreTheMostPlayed and TopTracksOrdered state the chart's order by it |
| Ranking.MorePlayed | frontend/js/app.js:1052-1074 | the comparator `countB - countA` as a relation; no contract of its own: MorePlayedIsPreorder states that it is a total preorder, and TopTracksOrdered that the chart is sorted by it |
| Ranking.TopTracksOrdered | frontend/js/app.js:1051-1080 | the chart holds min(20, n) catalogue tracks, none more often than it occurs, in non-increasing order of the period's count (a missing count is 0) |
| Ranking.TopTracksAreTheMostPlayed | frontend/js/app.js:1051-1080 | no track left out was played more often in the period than a track shown |
| Ranking.TrackChart.constructor | frontend/js/app.js:928-938 | starts with no tracks, the `day` period and an empty chart |
| Ranking.TrackChart.FilterTracks | frontend/js/app.js:1051-1080 | the chart becomes the top tracks of the selected period |
| Ranking.TrackChart.SelectPeriod | frontend/js/app.js:928-938 | the period changes, the tracks stay, the chart is recomputed for the new period |
| Ranking.TrackChart.LoadTracks | frontend/js/app.js:1009-1049 | the tracks become the fetched list and the chart is recomputed |
| Ranking.OccurrencesPositive | frontend/js/app.js:705-708 | a count is positive exactly for ids in the history |
| Ranking.Distinct | frontend/js/app.js:705-708 | the keys of the count dictionary: every history id once |
| Ranking.PermutationKeepsDistinct | frontend/js/app.js:709-713 | sorting the keys keeps them distinct |
| Ranking.RankHistory | frontend/js/app.js:702-714 | the loop counts every id's occurrences; the result is min(10, distinct) distinct history ids in non-increasing count order, and no id left out was listened to more than one kept |
| Ranking.RankedMembers | frontend/js/app.js:709-713 | the ranked ids are min(10, distinct) distinct ids of the history |
| Ranking.RankedOrder | frontend/js/app.js:709-713 | the ranked ids are in non-increasing count order |
| Ranking.RankedTop | frontend/js/app.js:709-713 | no id left out has a higher count than an id kept |
| Ranking.MoreListened | frontend/js/app.js:711 | the comparator `b[1] - a[1]` over the history counts; no contract of its own: RankedOrder and RankedTop state the ranking by it |
| Ranking.TitleLeTotal | frontend/js/artist-page.js:338 | the title order is total |
| Ranking.TitleLeTransitive | frontend/js/artist-page.js:338 | the title order is transitive |
| Ranking.ArtistOrdersArePreorders | frontend/js/artist-page.js:335-339 | both tab comparators are total preorders |
| Ranking.Alphabetical | frontend/js/artist-page.js:338 | the `localeCompare` comparator of the alphabetical tab; no contract of its own: ArtistOrdersArePreorders and ArtistTabOrderIsPermutation state it |
| Ranking.Newest | frontend/js/artist-page.js:336 | the newest-first comparator of the new tab; no contract of its own: ArtistOrdersArePreorders and ArtistTabOrderIsPermutation state it |
| Ranking.ArtistTabOrderIsPermutation | frontend/js/artist-page.js:326-380 | every tab shows the same tracks; `new` is by creation time descending, `alphabetical` by title, any other tab keeps the input order |
| Ranking.OtherTracksByArtist | frontend/js/track-page.js:155 | with `same` the catalogue tracks by the same artist other than the shown one, in catalogue order: the first min(10, length of `same`) of them |
| Ranking.ByArtistExcept | frontend/js/track-page.js:155 | the filter's test: the same artist and another id; no contract of its own: OtherTracksByArtist states that its result is the first ten tracks passing it |
| Ranking.AlbumOfTrack | frontend/js/track-page.js:146-155 | an album is found exactly when one with the track's album id is loaded, and it is that album |
| Ranking.TopTracks | frontend/js/app.js:1051-1080 | the period chart; no contract of its own: TopTracksOrdered and TopTracksAreTheMostPlayed state it |
| Ranking.ArtistTabOrder | frontend/js/artist-page.js:326-380 | the artist page tab orders; no contract of its own: ArtistTabOrderIsPermutation and ArtistOrdersArePreorders state it |
| Ranking.Occurrences | frontend/js/app.js:705-708 | the play count of an id in the history; no contract of its own: OccurrencesPositive, RankedOrder and RankedTop state what it ranks |
| Ranking.TitleLe | frontend/js/artist-page.js:338 | the title order standing in for `localeCompare`; no contract of its own: TitleLeTotal and TitleLeTransitive state that it is a total preorder |
| Favorites.AddFavoriteArtist | frontend/js/app.js:2622-2627 | the id is present afterwards; it is appended only when absent; the earlier ids stay in order |
| Favorites.RemoveFavoriteArtist | frontend/js/artist-page.js:535-538 | every occurrence of the id is removed and every other id keeps its membership; an absent id changes nothing; RemoveKeepsOrder and RemoveSingle state that the others keep their stored order |
| Favorites.RemoveUndoesAdd | frontend/js/app.js:2610-2627 | removing after adding leaves what removing alone leaves |
| Favorites.RemoveAppended | frontend/js/artist-page.js:545-549 | removing an appended id also removes the appended copy |
| Favorites.RemoveKeepsOrder | frontend/js/app.js:2612 | removing from a concatenation is the concatenation of the two removals, so the remaining ids keep their stored order |
| Favorites.RemoveSingle | frontend/js/app.js:2612 | a single stored id is dropped exactly when it is the removed one |
| Favorites.ToggleFlipsMembership | frontend/js/app.js:2593-2637 | a successful toggle flips the id's membership and no other id's |
| Favorites.Reachable | frontend/js/album-page.js:102-117 | the ids of the album tracks whose API calls succeed |
| Favorites.AddTracksFavorites | frontend/js/album-page.js:102-117 | afterwards the favourites are the old ones plus exactly the reachable album tracks |
| Favorites.AddTracksCountsNewFavorites | frontend/js/album-page.js:102-117 | the reported count is the number of tracks that became favourite |
| Favorites.ToggleAlbumFavorite | frontend/js/album-page.js:73-131 | not logged in, or an album without tracks, changes nothing; otherwise every reachable track is added and the count of new favourites is reported |
| Favorites.ToggleFavoriteArtist | frontend/js/app.js:2593-2637 | the heart toggle on the stored list; no contract of its own: ToggleFlipsMembership states it |
| Favorites.AddTracks | frontend/js/album-page.js:102-117 | the album action loop; no contract of its own: AddTracksFavorites and AddTracksCountsNewFavorites state it |
| Favorites.AlbumTracks | frontend/js/album-page.js:95 | the album's tracks in catalogue order; no contract of its own: ToggleAlbumFavorite states the outcome over them |
| Initials.UpperIdempotent | frontend/js/app.js:2221-2232 | upper-casing twice is upper-casing once |
| Initials.InitialsFollowPriority | frontend/js/app.js:2221-2232 | first and last initials, else the first name's initial, else two username letters, else one, else 'U', upper-cased |
| Initials.GetInitials | frontend/js/app.js:2221-2232 | `getInitials(username, firstName, lastName)`; no contract of its own: InitialsFollowPriority states each priority tier and UpperIdempotent the upper-casing |
| PlayerState.Initial | frontend/js/player.js:41-114 | no current track, index -1, empty playlist, not playing, volume 1 copied onto the element, not muted |
| PlayerState.ElementPlay | frontend/js/player.js:271-277 | `audioElement.play()`; no contract of its own: TogglePlayPauseEffect, SameTrackNeverReloads and LoadedTrackStartsOnMetadata state what it does in each entry point, and PauseThenPlayResumes states that it undoes a pause |
| PlayerState.ElementPause | frontend/js/player.js:310 | `audioElement.pause()`; no contract of its own: TogglePlayPauseEffect and SameTrackNeverReloads state that a playing track pauses where it was, and PauseThenPlayResumes that a play undoes it |
| PlayerState.ElementLoad | frontend/js/player.js:233-238 | assigning the source: paused at 0 with no metadata; no contract of its own: StartCommits, ReloadTrackFacts and PlayerRestore.LoadForRestoreKeepsSettings state the element it leaves |
| PlayerState.Resume | frontend/js/player.js:141-145 | the resume branch of `playTrack`; no contract of its own: SameTrackNeverReloads states that a paused current track resumes where it was, and that a refused play leaves it paused |
| PlayerState.TrackStreamUrl | frontend/js/player.js:233 | the stream URL of a track; no contract of its own: StreamUrlIdentifiesTrack states that different ids give different URLs, and StartCommits and ReloadTrackFacts that it is the source loaded |
| PlayerState.OnLoadedMetadata | frontend/js/player.js:246-279 | the `loadedmetadata` handlers; no contract of its own: LoadedTrackStartsOnMetadata, RestoredPositionInsideTrack and MediaErrorCancelsPlay state it |
| PlayerState.SeekSettled | frontend/js/player.js:832-838 | the duration recorded and a saved position applied when strictly inside the track; no contract of its own: RestoredPositionInsideTrack states it |
| PlayerState.OnMediaError | frontend/js/player.js:281-286 | `handleError` drops the waiting play; no contract of its own: MediaErrorCancelsPlay states that the metadata handler then starts nothing |
| PlayerState.FallbackList | frontend/js/player.js:384-415 | favourites, else the tracks on screen, else `window.tracks`; no contract of its own: Prepared and EmptyPlaylistFallsBack state the order of the three sources, and StepRestoresIndex that a non-empty fallback gives a valid index |
| PlayerState.Advance | frontend/js/player.js:419-434 | the step on a non-empty playlist; no contract of its own: StepThroughPlaylist, StepUnfolds and NextOnOneTrackPauses state it |
| PlayerState.AtEnd | frontend/js/player.js:45 | the element at the end of its source when `ended` fires; no contract of its own: NoRepeatIsNext states that `nextTrack` starts from it, and RepeatReplaysSameTrack and OneTrackReplaysWithoutRepeat state what `onTrackEnd` does from there |
| PlayerState.IndexOrZero | frontend/js/player.js:154-158 | on a non-empty list the index lies in range |
| PlayerState.Prepared | frontend/js/player.js:384-416 | fails exactly when the playlist and every fallback list are empty; otherwise the playlist is non-empty |
| PlayerState.Target | frontend/js/player.js:423-427 | the stepped-to position is in range |
| PlayerState.Clamp01 | frontend/js/player.js:515-524 | the result is in [0, 1], equal to the input inside it and to the nearer bound outside |
| PlayerState.GetCurrentTrackInfo | frontend/js/player.js:117-123 | the track and the playing flag of the session; an id exactly when there is a current track, and it is that track's id |
| PlayerState.PlayTrack | frontend/js/player.js:126-300 | `playTrack(trackId)` as a change of the session value; no contract of its own: SameTrackNeverReloads, LookupFindsTrack, StartCommits, LoadedTrackStartsOnMetadata and PlayTrackKeepsIndexInRange state what it does |
| PlayerState.Lookup | frontend/js/player.js:150-197 | the three-tier lookup: current playlist, then `window.tracks`, then the fetched record; no contract of its own: PlaylistTierComesFirst, WindowTierReplacesPlaylist, FetchTierMakesOneTrackPlaylist, NotFoundChangesNothing and LookupFindsTrack state each tier |
| PlayerState.Start | frontend/js/player.js:199-245 | the found track becomes current and its file is loaded or the source cleared; no contract of its own: ResolvedTrackIsCommitted and StartCommits state it |
| PlayerState.Step | frontend/js/player.js:327-435 | the shared body of `nextTrack` and `previousTrack`; no contract of its own: StepUnfolds, StepThroughPlaylist, EmptyPlaylistFallsBack and StepRestoresIndex state it |
| PlayerState.NextTrack | frontend/js/player.js:382-435 | `nextTrack()` is the forward Step; no contract of its own: NextOnOneTrackPauses and RepeatedIdBreaksSuccessor state its edge cases |
| PlayerState.PreviousTrack | frontend/js/player.js:327-380 | `previousTrack()` is the backward Step; no contract of its own: StepUnfolds and StepThroughPlaylist with `forward` false, and TargetWraps, state where it lands |
| PlayerState.OnTrackEnd | frontend/js/player.js:437-456 | `onTrackEnd()`; no contract of its own: RepeatReplaysSameTrack, NoRepeatIsNext and OneTrackReplaysWithoutRepeat state it |
| PlayerState.SetPlaylist | frontend/js/player.js:633-651 | `setPlaylist(tracksArray, startIndex)`; no contract of its own: SetPlaylistInstalls states it |
| PlayerState.SetVolume | frontend/js/player.js:515-524 | `setVolume(event)` with the click fraction; no contract of its own: SetVolumeClamps, ZeroVolumeLeavesElementUnmuted and SliderIcon state it |
| PlayerState.Seek | frontend/js/player.js:480-506 | `seek(event)` with the click fraction; no contract of its own: SeekStaysInsideTrack states it |
| PlayerState.TogglePlayPause | frontend/js/player.js:303-314 | `togglePlayPause()`; no contract of its own: TogglePlayPauseEffect states it |
| PlayerState.ToggleMute | frontend/js/player.js:509-513 | `toggleMute()`; no contract of its own: TogglesFlipOneFlag and ZeroVolumeLeavesElementUnmuted state it |
| PlayerState.ToggleRepeat | frontend/js/player.js:545-548 | `toggleRepeat()`; no contract of its own: TogglesFlipOneFlag states it |
| PlayerState.ToggleShuffle | frontend/js/player.js:550-553 | `toggleShuffle()`; no contract of its own: TogglesFlipOneFlag states it |
| PlayerState.OnWindowLoad | frontend/js/player.js:858-866 | the window `load` handler; no contract of its own: WindowLoadBreaksIndex states what it does to the index |
| PlayerState.VolumeIcon | frontend/js/player.js:531-542 | `updateVolumeIcon()`; no contract of its own: VolumeIconBands and SliderIcon state the bands |
| PlayerState.PlayButtonIcon | frontend/js/app.js:246-262 | `getPlayButtonHtml(trackId)`; no contract of its own: PlayButtonShowsStopForPlayingRow and StopButtonPauses state it |
| PlayerProps.SetPlaylistInstalls | frontend/js/player.js:633-651 | a null or empty list changes nothing; otherwise the list is installed at the start index, or 0 when that is out of range; the track, the flag and the element stay |
| PlayerProps.SameTrackNeverReloads | frontend/js/player.js:131-147 | the current id never reloads: a playing track pauses; a paused one resumes where it was |
| PlayerProps.PlaylistTierComesFirst | frontend/js/player.js:153-158 | a track in the playlist is taken from there at its first position, and the playlist stays |
| PlayerProps.WindowTierReplacesPlaylist | frontend/js/player.js:161-169 | a track only in `window.tracks` replaces the playlist by all tracks |
| PlayerProps.FetchTierMakesOneTrackPlaylist | frontend/js/player.js:170-190 | a fetched track becomes a one-track playlist and is appended to `window.tracks` only when its id is absent |
| PlayerProps.NotFoundChangesNothing | frontend/js/player.js:193-197 | when every tier fails no session field changes |
| PlayerProps.ResolvedTrackIsCommitted | frontend/js/player.js:199-208 | a resolved track is current at its index before its file is looked at; without a file the source is cleared and nothing plays |
| PlayerProps.StartCommits | frontend/js/player.js:199-245 | committing a found track makes it current at its index in its playlist, rewinds, and with a file points the source at the stream route and waits for metadata; without one clears the source |
| PlayerProps.LookupFindsTrack | frontend/js/player.js:150-197 | a found track sits at the found index of the found playlist and has the id asked for unless a fetched record names another |
| PlayerProps.LoadedTrackStartsOnMetadata | frontend/js/player.js:246-279 | a loaded track starts from 0 when its metadata arrives, and the session is then playing if the browser allows it |
| PlayerProps.RestoredPositionInsideTrack | frontend/js/player.js:832-838 | a restored position applies only strictly inside the track, and once |
| PlayerProps.StepThroughPlaylist | frontend/js/player.js:419-434 | from the index (0 when out of range) the step plays the next, the previous or the picked element |
| PlayerProps.StepUnfolds | frontend/js/player.js:419-434 | a step on a non-empty playlist is `playTrack` of the stepped-to element |
| PlayerProps.TargetWraps | frontend/js/player.js:423-427 | forward wraps from the last to 0, backward from 0 to the last, and shuffle picks any position |
| PlayerProps.EmptyPlaylistFallsBack | frontend/js/player.js:384-416 | an empty playlist is replaced by the favourites, else the tracks on screen, else all tracks; with all of them empty the step is a no-op |
| PlayerProps.RepeatedIdBreaksSuccessor | frontend/js/player.js:154 | with an id listed twice, "next" from the second copy lands at the first copy, not at (i+1) mod n |
| PlayerProps.NextOnOneTrackPauses | frontend/js/player.js:423-434 | in a one-track playlist "next" pauses the playing track |
| PlayerProps.RepeatReplaysSameTrack | frontend/js/player.js:437-456 | with repeat on, the track plays again from 0 and the playlist, the index and the source stay |
| PlayerProps.NoRepeatIsNext | frontend/js/player.js:437-456 | with repeat off, a track's end is "next" on the element paused at the end |
| PlayerProps.OneTrackReplaysWithoutRepeat | frontend/js/player.js:437-456 | a one-track playlist starts over at its end even with repeat off |
| PlayerProps.TogglesFlipOneFlag | frontend/js/player.js:509-553 | each toggle flips only its own flag, and applying it twice restores the state |
| PlayerProps.TogglePlayPauseEffect | frontend/js/player.js:303-314 | without a current track nothing changes; a playing session ends with the element paused and stays flagged as playing only when the element was already paused; a paused session plays exactly when the browser allows it and the element is paused; the track, playlist and index never change |
| PlayerProps.PauseThenPlayResumes | frontend/js/player.js:303-314 | pausing a playing element that has not ended and playing it again gives back the same state |
| PlayerProps.MediaErrorCancelsPlay | frontend/js/player.js:246-286 | after `handleError` the metadata handler neither starts the element nor sets `isPlaying`, and no play waits |
| PlayerProps.StreamUrlIdentifiesTrack | frontend/js/player.js:233 | two tracks that stream from the same URL have the same id |
| PlayerProps.SetVolumeClamps | frontend/js/player.js:515-524 | the volume is clamped into [0, 1]; muted exactly at 0; the element's mute flag is untouched |
| PlayerProps.VolumeIconBands | frontend/js/player.js:531-542 | mute when muted or silent, "down" below 0.5, "up" from 0.5, each an if-and-only-if |
| PlayerProps.SliderIcon | frontend/js/player.js:515-542 | after a slider click the icon follows the clamped volume alone |
| PlayerProps.ZeroVolumeLeavesElementUnmuted | frontend/js/player.js:509-524 | volume 0 mutes the session but not the element, and the next mute click unmutes the session |
| PlayerProps.SeekStaysInsideTrack | frontend/js/player.js:480-506 | a seek lands in [0, duration], in proportion to the click |
| PlayerProps.PlayButtonShowsStopForPlayingRow | frontend/js/app.js:246-262 | a row shows stop exactly when it is the current track and the session is playing; without a player it shows play |
| PlayerProps.StopButtonPauses | frontend/js/app.js:246-262 | clicking a row that shows stop pauses it, and it then shows play |
| PlayerProps.WindowLoadBreaksIndex | frontend/js/player.js:858-866 | the load handler can install a non-empty playlist while the index is still -1 |
| PlayerProps.EntryPointsKeepIndexInRange | frontend/js/player.js:327-435 | setPlaylist, playTrack and stepping keep the index in range of a non-empty playlist |
| PlayerProps.PlayTrackKeepsIndexInRange | frontend/js/player.js:126-300 | playTrack keeps the index in range |
| PlayerProps.StepRestoresIndex | frontend/js/player.js:419-421 | stepping through a non-empty playlist leaves the index in range, even from -1 |
| PlayerRestore.StubOf | frontend/js/player.js:667-685 | a saved entry carries the track's id |
| PlayerRestore.Stubs | frontend/js/player.js:667-685 | one saved entry per playlist track, in order |
| PlayerRestore.RebuildEntry | frontend/js/player.js:754-763 | a rebuilt entry has the saved id |
| PlayerRestore.StubTrack | frontend/js/player.js:757 | a saved entry with no loaded record, kept with only its four saved fields; no contract of its own: RebuildEntry and RebuiltPlaylistKeepsIds state that such an entry keeps the saved id |
| PlayerRestore.Rebuild | frontend/js/player.js:754-763 | one rebuilt entry per saved entry, in order |
| PlayerRestore.FirstLoadedFrom | frontend/js/player.js:731-749 | a result is a non-empty `window.tracks` that one of the allowed attempts saw |
| PlayerRestore.StaleSnapshotDiscarded | frontend/js/player.js:695-699 | older than strictly one hour: the snapshot is removed and nothing applied; exactly one hour old: still used |
| PlayerRestore.FreshSnapshotAppliesSettings | frontend/js/player.js:701-728 | a fresh snapshot's settings apply at once whatever the attempts see, and nothing starts playing |
| PlayerRestore.ApplySettings | frontend/js/player.js:700-727 | the saved volume, mute, shuffle and repeat, applied at once; no contract of its own: FreshSnapshotAppliesSettings, NothingLoadedLeavesTrack and SaveRestoreRoundTrip state it |
| PlayerRestore.Relisted | frontend/js/player.js:753-763 | a non-empty saved playlist replaces the playlist, rebuilt from the loaded tracks; no contract of its own: RestoreTrackKeepsSettings, RestoredTrackIndex and SaveRestoreRoundTrip state it |
| PlayerRestore.ReloadCurrent | frontend/js/player.js:766-785 | a saved non-zero current id found among the loaded tracks is reloaded; no contract of its own: ReloadFound and ReloadKeepsSettings state it |
| PlayerRestore.ReloadTrack | frontend/js/player.js:768-783 | the found track is reloaded at the saved index when in range, else at its first position, else 0; no contract of its own: ReloadTrackFacts, ReloadFound and SaveRestoreRoundTrip state it |
| PlayerRestore.Poll | frontend/js/player.js:745-749 | what attempt `k` sees of `window.tracks`; no contract of its own: FirstLoadedFrom states that its result is one of the polls, and AtMostTenAttempts that only the first ten attempts matter |
| PlayerRestore.RestoreTrackKeepsSettings | frontend/js/player.js:754-785 | rebuilding the track part touches neither the settings nor playback |
| PlayerRestore.ReloadKeepsSettings | frontend/js/player.js:766-785 | reloading the saved current track touches neither the settings nor playback |
| PlayerRestore.ReloadFound | frontend/js/player.js:766-785 | a saved current track that is loaded becomes current with its id, the playlist stays, the index follows the saved-index rule, nothing plays and the saved position waits for the metadata |
| PlayerRestore.ReloadTrackFacts | frontend/js/player.js:770-783 | the same for a given found track: saved index when in range, else its first position, else 0; a file is loaded paused with the position pending |
| PlayerRestore.LoadForRestoreKeepsSettings | frontend/js/player.js:801-843 | loading for restore never calls play and keeps the settings |
| PlayerRestore.SavedPlayingFlagIgnored | frontend/js/player.js:673 | the saved playing flag does not affect the restore |
| PlayerRestore.RestoreTrackReadsNoPlayingFlag | frontend/js/player.js:754-785 | the track rebuild is the same whatever the saved playing flag |
| PlayerRestore.AtMostTenAttempts | frontend/js/player.js:731-749 | only the first ten attempts matter; without an API no attempt is made |
| PlayerRestore.NothingLoadedLeavesTrack | frontend/js/player.js:790-793 | when no attempt sees loaded tracks only the settings change |
| PlayerRestore.RebuiltPlaylistKeepsIds | frontend/js/player.js:754-763 | the rebuilt playlist has the snapshot's length and id order; a loaded id gives the loaded record |
| PlayerRestore.RestoredTrackIndex | frontend/js/player.js:766-785 | a loaded saved track is current again at the saved index when in range, else at its first position, else 0 |
| PlayerRestore.UnloadedCurrentTrackLeavesIndex | frontend/js/player.js:766-785 | a saved current track that is no longer loaded leaves the index alone |
| PlayerRestore.FindLoaded | frontend/js/player.js:757 | with unique ids, looking up a loaded track's id finds that track |
| PlayerRestore.SaveRestoreRoundTrip | frontend/js/player.js:667-799 | saving and restoring within the hour, with the same tracks loaded, gives back the playlist, the current track, the index and the settings |
| PlayerRestore.Save | frontend/js/player.js:667-685 | `savePlayerState()` at a given time; no contract of its own: Stubs, SavedPlayingFlagIgnored and SaveRestoreRoundTrip state what the snapshot holds |
| PlayerRestore.Restore | frontend/js/player.js:687-799 | `restorePlayerState()`; no contract of its own: StaleSnapshotDiscarded, FreshSnapshotAppliesSettings, NothingLoadedLeavesTrack, AtMostTenAttempts and SaveRestoreRoundTrip state it |
| PlayerRestore.RestoreTrack | frontend/js/player.js:734-786 | the playlist rebuild and the reload of the saved track; no contract of its own: RebuiltPlaylistKeepsIds, RestoredTrackIndex, UnloadedCurrentTrackLeavesIndex, RestoreTrackKeepsSettings and RestoreTrackReadsNoPlayingFlag state it |
| PlayerRestore.LoadForRestore | frontend/js/player.js:801-843 | `loadTrackForRestore(track, savedTime)`; no contract of its own: LoadForRestoreKeepsSettings and RestoredPositionInsideTrack state it |
| PlayerSession.LocalStorage.constructor | frontend/js/player.js:667-685 | the stored snapshot starts as given |
| PlayerSession.Session.constructor | frontend/js/player.js:41-114 | the session starts as `Initial` |
| PlayerSession.Session.Play | frontend/js/player.js:270-279 | the element's play() as `ElementPlay` |
| PlayerSession.Session.Pause | frontend/js/player.js:303-314 | the element's pause() as `ElementPause` |
| PlayerSession.Session.LoadSource | frontend/js/player.js:231-290 | assigning the source as `ElementLoad` |
| PlayerSession.Session.SetPlaylist | frontend/js/player.js:633-651 | the new state is `SetPlaylist` of the old |
| PlayerSession.Session.TogglePlayPause | frontend/js/player.js:303-314 | the new state is `TogglePlayPause` of the old |
| PlayerSession.Session.PlayTrack | frontend/js/player.js:126-300 | the new state is `PlayTrack` of the old |
| PlayerSession.Session.FindInTiers | frontend/js/player.js:150-197 | the loop over the tiers finds what `Lookup` describes |
| PlayerSession.Session.Commit | frontend/js/player.js:199-299 | the new state is `Start` of the old |
| PlayerSession.Session.OnLoadedMetadata | frontend/js/player.js:246-279 | the new state is `OnLoadedMetadata` of the old |
| PlayerSession.Session.RestoreTime | frontend/js/player.js:832-840 | the new state is `SeekSettled` of the old: the duration is recorded and a waiting saved position applied only strictly inside it |
| PlayerSession.Session.OnMediaError | frontend/js/player.js:281-286 | the new state is `OnMediaError` of the old |
| PlayerSession.Session.Step | frontend/js/player.js:382-435 | the new state is `Step` of the old |
| PlayerSession.Session.AdvanceAndPlay | frontend/js/player.js:419-434 | the new state is `Advance` of the old: an out-of-range index starts at 0, then shuffle picks, or the index moves by one around the list, and that track is played |
| PlayerSession.Session.FillEmptyPlaylist | frontend/js/player.js:384-416 | the playlist is replaced as `Prepared` describes, or false when every list is empty |
| PlayerSession.Session.NextTrack | frontend/js/player.js:382-435 | the new state is `NextTrack` of the old |
| PlayerSession.Session.PreviousTrack | frontend/js/player.js:327-380 | the new state is `PreviousTrack` of the old |
| PlayerSession.Session.OnTrackEnd | frontend/js/player.js:437-456 | the new state is `OnTrackEnd` of the old |
| PlayerSession.Session.Seek | frontend/js/player.js:480-506 | the new state is `Seek` of the old |
| PlayerSession.Session.ToggleMute | frontend/js/player.js:509-513 | the new state is `ToggleMute` of the old |
| PlayerSession.Session.SetVolume | frontend/js/player.js:515-524 | the new state is `SetVolume` of the old |
| PlayerSession.Session.ToggleRepeat | frontend/js/player.js:545-548 | the new state is `ToggleRepeat` of the old |
| PlayerSession.Session.ToggleShuffle | frontend/js/player.js:550-553 | the new state is `ToggleShuffle` of the old |
| PlayerSession.Session.GetCurrentTrackInfo | frontend/js/player.js:117-123 | the answer is `GetCurrentTrackInfo` of the state |
| PlayerSession.Session.OnWindowLoad | frontend/js/player.js:858-866 | the new state is `OnWindowLoad` of the old |
| PlayerSession.Session.SavePlayerState | frontend/js/player.js:667-685 | the stored snapshot is `Save` of the state |
| PlayerSession.Session.LoadTrackForRestore | frontend/js/player.js:801-843 | the new state is `LoadForRestore` of the old |
| PlayerSession.Session.RestoreTrack | frontend/js/player.js:734-786 | the new state is `RestoreTrack` of the old |
| PlayerSession.Session.ReloadFoundTrack | frontend/js/player.js:770-783 | the new state is `ReloadTrack` of the old |
| PlayerSession.Session.RestorePlayerState | frontend/js/player.js:687-799 | the attempt loop, bounded by ten, leaves the state and the store `Restore` describes |
| Pages.Loaded | frontend/js/album-page.js:424-426 | a non-empty `window.tracks` is kept, anything else is replaced by the fetched list |
| Pages.WithTracks | frontend/js/album-page.js:424-426 | `window.tracks` filled from the API when missing or empty; no contract of its own: EnsureTracks states it |
| Pages.Run | frontend/js/album-page.js:455-469 | a plan carried out as `setPlaylist` then `playTrack`; no contract of its own: RunPlan states it, and StartBeginsAtFirst and ClickStartsClicked state what the handlers' plans play |
| Pages.StartPlan | frontend/js/artist-page.js:382-431 | an empty list alerts; otherwise the list is installed at 0 and its first track played when its id is truthy |
| Pages.ClickPlan | frontend/js/artist-page.js:433-497 | a list without the id only plays the id; otherwise the list is installed at the id's first position and that track played |
| Pages.ResolveIds | frontend/js/album-page.js:444-446 | at most one record per id, each a loaded track |
| Pages.IdsOf | frontend/js/playlist-page.js:531 | the ids of the tracks, in order |
| Pages.ResolveKeepsOrder | frontend/js/album-page.js:444-446 | resolution keeps the id order, drops exactly the ids no loaded track has, and takes the first record with each id |
| Pages.AllResolvedKeepsLength | frontend/js/album-page.js:444-446 | when every id resolves nothing is dropped |
| Pages.UsableIds | frontend/js/playlist-page.js:531 | exactly the ids some entry yields by `t.id` or parsing |
| Pages.EntryId | frontend/js/playlist-page.js:325 | `t.id || parseInt(t)`: a falsy record id is unusable; no contract of its own: UsableIds states the ids it yields |
| Pages.Unlisted | frontend/js/playlist-page.js:533 | the filter's test: the id is not among the playlist's; no contract of its own: AvailableKeepsOrder states that a single track is offered exactly when it passes |
| Pages.AvailableTracks | frontend/js/playlist-page.js:531-533 | exactly the loaded tracks whose id no playlist entry yields; AvailableKeepsOrder states that they keep the order of `window.tracks` |
| Pages.AvailableKeepsOrder | frontend/js/playlist-page.js:533 | offering splits over concatenation, and one track is offered exactly when no entry yields its id: the offered list keeps the order of `window.tracks` |
| Pages.Shuffle | frontend/js/genre-page.js:323 | the shuffled list is a permutation of its input |
| Pages.GenrePlayPlan | frontend/js/genre-page.js:316-341 | an empty genre alerts; otherwise the list is installed at 0 and nothing is played |
| Pages.GenreClickPlan | frontend/js/genre-page.js:343-373 | a missing row only plays the id; otherwise the list is installed at the row and nothing is played |
| Pages.PositionOf | frontend/js/album-page.js:526 | `indexOf`: the first position of the id, or -1 exactly when absent |
| Pages.ClickStartsClicked | frontend/js/album-page.js:557-569 | a row click on a list that holds the row installs it and plays that row, or pauses it when it is the playing current track |
| Pages.StartBeginsAtFirst | frontend/js/album-page.js:449-469 | "play all" on an empty list changes nothing; on a non-empty one it installs the list at 0 and plays its first track |
| Pages.ArtistClickPlaysClicked | frontend/js/artist-page.js:433-497 | a click on one of the artist's tracks plays the clicked track within the artist's tracks |
| Pages.AlbumClickPlaysClicked | frontend/js/album-page.js:504-569 | with an album id, a click on one of its tracks plays the clicked track within the album's tracks |
| Pages.PlaylistClickPlaysClicked | frontend/js/playlist-page.js:372-440 | a click on a resolved playlist track plays it within the resolved list |
| Pages.GenreClickDoesNotPlay | frontend/js/genre-page.js:360-366 | a genre row click installs the list at the row and leaves the current track and the element alone |
| Pages.GenrePlayDoesNotPlay | frontend/js/genre-page.js:330-336 | the genre "play all" starts nothing |
| Pages.GenreListIsPermutation | frontend/js/genre-page.js:322-323 | the genre list is a permutation of the genre's tracks |
| Pages.DomIndexSkipsUnresolvedRow | frontend/js/album-page.js:522-541 | with the first row unresolved, clicking the third row plays the fourth |
| Pages.UnresolvedRowPlan | frontend/js/album-page.js:522-541 | with the first row unresolved, the click on the third row installs the resolved list at index 2, which holds the fourth track |
| Pages.DomClickCorrectedPlaysClicked | frontend/js/album-page.js:522-541 | with the index taken in the resolved list, a click on a resolving row plays that row |
| Pages.ResolvableHas | frontend/js/album-page.js:444-446 | a listed id that a loaded track has survives resolution |
| Pages.EnsureTracks | frontend/js/album-page.js:424-426 | `window.tracks` becomes `WithTracks` of the old state |
| Pages.RunPlan | frontend/js/album-page.js:455-469 | the session after the plan's `setPlaylist` and `playTrack` calls is `Run` of the plan |
| Pages.PlayAlbumOn | frontend/js/album-page.js:413-489 | the session afterwards is `PlayAlbum` of the old one |
| Pages.AlbumTracksOf | frontend/js/album-page.js:427 | the album's tracks in catalogue order; no contract of its own: PlayAlbumOn and AlbumClickPlaysClicked state what is played from them |
| Pages.PlayTrackFromAlbumOn | frontend/js/album-page.js:492-606 | the session afterwards is `PlayTrackFromAlbum` of the old one |
| Pages.PlayArtistTracksOn | frontend/js/artist-page.js:382-431 | the session afterwards is `PlayArtistTracks` of the old one |
| Pages.ArtistTracks | frontend/js/artist-page.js:389 | the artist's tracks in catalogue order; no contract of its own: PlayArtistTracksOn and ArtistClickPlaysClicked state what is played from them |
| Pages.PlayTrackFromArtistOn | frontend/js/artist-page.js:433-497 | the session afterwards is `PlayTrackFromArtist` of the old one |
| Pages.PlayPlaylistOn | frontend/js/playlist-page.js:317-370 | the session afterwards is `PlayPlaylist` of the old one |
| Pages.PlayTrackFromPlaylistOn | frontend/js/playlist-page.js:372-440 | the session afterwards is `PlayTrackFromPlaylist` of the old one |
| Pages.PlayGenreTracksOn | frontend/js/genre-page.js:316-341 | the session afterwards is `PlayGenreTracks` of the old one |
| Pages.PlayTrackFromGenreOn | frontend/js/genre-page.js:343-373 | the session afterwards is `PlayTrackFromGenre` of the old one |
| Pages.PlayAlbum | frontend/js/album-page.js:413-489 | `playAlbum()` on the session value; no contract of its own: PlayAlbumOn ties the page method to it and StartBeginsAtFirst states it |
| Pages.PlayTrackFromAlbum | frontend/js/album-page.js:492-606 | `playTrackFromAlbum(trackId)`; no contract of its own: AlbumClickPlaysClicked and DomIndexSkipsUnresolvedRow state it |
| Pages.PlayArtistTracks | frontend/js/artist-page.js:382-431 | `playArtistTracks(artistId)`; no contract of its own: PlayArtistTracksOn and StartBeginsAtFirst state it |
| Pages.PlayTrackFromArtist | frontend/js/artist-page.js:433-497 | `playTrackFromArtist(artistId, trackId)`; no contract of its own: ArtistClickPlaysClicked states it |
| Pages.PlayPlaylist | frontend/js/playlist-page.js:317-370 | `playPlaylist(playlistId)`; no contract of its own: PlayPlaylistOn and StartBeginsAtFirst state it |
| Pages.PlayTrackFromPlaylist | frontend/js/playlist-page.js:372-440 | `playTrackFromPlaylist(trackId, playlistId)`; no contract of its own: PlaylistClickPlaysClicked states it |
| Pages.PlayGenreTracks | frontend/js/genre-page.js:316-341 | `playGenreTracks(genreName)`; no contract of its own: GenrePlayDoesNotPlay states it |
| Pages.PlayTrackFromGenre | frontend/js/genre-page.js:343-373 | `playTrackFromGenre(genreName, trackId)`; no contract of its own: GenreClickDoesNotPlay states it |
| Pages.DomClickPlan | frontend/js/album-page.js:522-541 | the album page row click as written; no contract of its own: UnresolvedRowPlan and DomIndexSkipsUnresolvedRow state where it goes wrong |
| Pages.DomClickPlanCorrected | frontend/js/album-page.js:522-541 | the same click with the index taken in the resolved list; no contract of its own: DomClickCorrectedPlaysClicked states that it plays the clicked track |
| Pages.ResolvePlaylist | frontend/js/playlist-page.js:324-327 | the playlist page `trackList`: the usable entry ids resolved against `window.tracks`; no contract of its own: ResolveKeepsOrder states it |
| Pages.GenreTracks | frontend/js/genre-page.js:322 | the tracks of one genre, by Filter; no contract of its own: Filter and GenreListIsPermutation state it |
| ClientDownload.FirstOf | frontend/js/album-page.js:700 | the first index from `from` whose character is a stop, or the length; nothing before it is a stop |
| ClientDownload.Unquoted | frontend/js/album-page.js:700 | the unquoted alternative: no ';' or line feed inside, and it ends at one or at the end |
| ClientDownload.MatchAt | frontend/js/album-page.js:700 | a match at i starts with the word "filename" |
| ClientDownload.Exec | frontend/js/album-page.js:700 | a result is the group of some starting position |
| ClientDownload.ExecFindsLeftmost | frontend/js/album-page.js:700 | `exec` gives the group of the leftmost starting position |
| ClientDownload.ExecFailsWithoutMatch | frontend/js/album-page.js:700 | with no starting position `exec` gives null |
| ClientDownload.SavedName | frontend/js/album-page.js:697-704 | a missing or empty header gives title + ".mp3"; any other name has no quote characters |
| ClientDownload.AttachmentLayout | music-catalog-service/src/main/java/com/music/musiccatalogservice/controller/FileController.java:125 | the layout of the attachment header around the name |
| ClientDownload.NoMatchBeforeFilename | frontend/js/album-page.js:700 | no match starts inside "attachment; " |
| ClientDownload.MatchAtFilename | frontend/js/album-page.js:700 | at the word "filename" the match captures the quoted name |
| ClientDownload.AttachmentGroup | frontend/js/album-page.js:700 | in an attachment header `exec` captures exactly the quoted name |
| ClientDownload.AttachmentRoundTrip | frontend/js/album-page.js:697-704 | a header built from a name of safe characters is read back as that name |
| ClientDownload.UnquoteName | frontend/js/album-page.js:702 | removing the quotes around a name without quotes gives back the name |
| ClientDownload.SavedAsOffered | frontend/js/album-page.js:697-704 | the browser saves a download under exactly the name the download route offers |
| TrackPlays.Count | music-catalog-service/src/main/java/com/music/musiccatalogservice/service/TrackPlayService.java:28-35 | a count never exceeds the number of plays |
| TrackPlays.CountAppend | music-catalog-service/src/main/java/com/music/musiccatalogservice/service/TrackPlayService.java:28-35 | counting splits over concatenation |
| TrackPlays.Without | music-catalog-service/src/main/java/com/music/musiccatalogservice/service/TrackPlayService.java:76 | exactly the plays of other tracks remain, and the track counts 0 in every period |
| TrackPlays.Max0 | music-catalog-service/src/main/java/com/music/musiccatalogservice/service/TrackPlayService.java:61-70 | a negative count becomes 0, any other stays |
| TrackPlays.Max | music-catalog-service/src/main/java/com/music/musiccatalogservice/service/TrackPlayService.java:73 | the larger of two counts |
| TrackPlays.Normalize | music-catalog-service/src/main/java/com/music/musiccatalogservice/service/TrackPlayService.java:61-73 | null and negative counts become 0, and `all` becomes the largest of the four |
| TrackPlays.Bucket | music-catalog-service/src/main/java/com/music/musiccatalogservice/service/TrackPlayService.java:87-125 | n records, all for the track |
| TrackPlays.GeneratedSize | music-catalog-service/src/main/java/com/music/musiccatalogservice/service/TrackPlayService.java:87-125 | negative buckets create nothing; with month >= week >= day exactly `all` records, all for the track |
| TrackPlays.Restamp | music-catalog-service/src/main/java/com/music/musiccatalogservice/entity/TrackPlay.java:20-23 | every inserted record gets the insert time |
| TrackPlays.AddBucket | music-catalog-service/src/main/java/com/music/musiccatalogservice/service/TrackPlayService.java:93-122 | each loop appends exactly the bucket's records, none for a negative count |
| TrackPlays.PlayStore.constructor | music-catalog-service/src/main/java/com/music/musiccatalogservice/service/TrackPlayService.java:16-19 | no plays |
| TrackPlays.PlayStore.RecordPlay | music-catalog-service/src/main/java/com/music/musiccatalogservice/service/TrackPlayService.java:21-25 | one play of the track is appended, stamped now |
| TrackPlays.PlayStore.GetPlayCounts | music-catalog-service/src/main/java/com/music/musiccatalogservice/service/TrackPlayService.java:38-52 | exactly the keys all, day, week and month, each the count since its period's start |
| TrackPlays.PlayStore.SetPlayCounts | music-catalog-service/src/main/java/com/music/musiccatalogservice/service/TrackPlayService.java:54-126 | a null id fails before any change; otherwise the track's plays are replaced by the normalised buckets, none when `all` is 0 |
| TrackPlays.GeneratePlays | music-catalog-service/src/main/java/com/music/musiccatalogservice/service/TrackPlayService.java:87-122 | the records are exactly those of `Generated`, the four buckets in their order |
| TrackPlays.CountRestamped | music-catalog-service/src/main/java/com/music/musiccatalogservice/entity/TrackPlay.java:20-23 | restamped records all count in every period that started before the insert |
| TrackPlays.SetCountsReadBackAsWritten | music-catalog-service/src/main/java/com/music/musiccatalogservice/service/TrackPlayService.java:54-126 | read back at once, every period counts `all` |
| TrackPlays.TodayCountsEverything | music-catalog-service/src/main/java/com/music/musiccatalogservice/service/TrackPlayService.java:54-126 | asking for 10/5/3/1 gives 10 plays today |
| TrackPlays.CountBucket | music-catalog-service/src/main/java/com/music/musiccatalogservice/service/TrackPlayService.java:93-122 | a bucket fully inside a period counts in full; one entirely before it counts nothing |
| TrackPlays.SetCountsReadBackCorrected | music-catalog-service/src/main/java/com/music/musiccatalogservice/service/TrackPlayService.java:87-125 | with the requested times kept, the counts read back are the ones asked for while each bucket stays in its period |
| TrackPlays.BucketCounts | music-catalog-service/src/main/java/com/music/musiccatalogservice/service/TrackPlayService.java:93-122 | each bucket's count in each period |
| TrackPlays.BucketIn | music-catalog-service/src/main/java/com/music/musiccatalogservice/service/TrackPlayService.java:93-122 | a bucket whose oldest record is in the period counts in full |
| TrackPlays.BucketOut | music-catalog-service/src/main/java/com/music/musiccatalogservice/service/TrackPlayService.java:93-122 | a bucket that starts before the period counts nothing |
| TrackPlays.OldBucketCounts | music-catalog-service/src/main/java/com/music/musiccatalogservice/service/TrackPlayService.java:93-98 | the oldest bucket counts only in `all` |
| TrackPlays.MonthBucketCounts | music-catalog-service/src/main/java/com/music/musiccatalogservice/service/TrackPlayService.java:101-106 | up to 17 month records count in `all` and `month` only |
| TrackPlays.WeekBucketCounts | music-catalog-service/src/main/java/com/music/musiccatalogservice/service/TrackPlayService.java:109-114 | up to 121 week records count in all, month and week only |
| TrackPlays.DayBucketCounts | music-catalog-service/src/main/java/com/music/musiccatalogservice/service/TrackPlayService.java:117-122 | up to 1381 day records count in every period |
| TrackPlays.OnCreate | music-catalog-service/src/main/java/com/music/musiccatalogservice/entity/TrackPlay.java:20-23 | the insert hook sets the time to the clock; no contract of its own: Restamp and CountRestamped state what that does to the generated records |
| TrackPlays.Generated | music-catalog-service/src/main/java/com/music/musiccatalogservice/service/TrackPlayService.java:87-125 | the records the four loops create; no contract of its own: GeneratedSize, SetCountsReadBackAsWritten and SetCountsReadBackCorrected state it |
| Downloads.BeforeQuery | music-catalog-service/src/main/java/com/music/musiccatalogservice/service/FileDownloadService.java:129 | the prefix before the first '?', with no '?' in it |
| Downloads.ExtensionFromUrl | music-catalog-service/src/main/java/com/music/musiccatalogservice/service/FileDownloadService.java:122-147 | always one of the seven extensions; null or empty gives ".mp3" |
| Downloads.IsAudioFile | music-catalog-service/src/main/java/com/music/musiccatalogservice/service/FileDownloadService.java:105-117 | false for null; otherwise true exactly when the lower-cased value contains one of the audio words |
| Downloads.ValidateDownloadUrl | music-catalog-service/src/main/java/com/music/musiccatalogservice/service/FileDownloadService.java:31-37 | accepted exactly for an http(s) URL; null or blank is refused first, as blank |
| Downloads.StartsWithImpliesContains | music-catalog-service/src/main/java/com/music/musiccatalogservice/service/FileDownloadService.java:110-111 | a value starting with "audio/" contains "audio" |
| Downloads.ExtensionIsSuffix | music-catalog-service/src/main/java/com/music/musiccatalogservice/service/FileDownloadService.java:132-138 | a non-default extension is chosen exactly when the path before the query ends with it, in any letter case |
| Downloads.ExtensionOfPath | music-catalog-service/src/main/java/com/music/musiccatalogservice/service/FileDownloadService.java:132-138 | the extension read from the path before the query is always one of the seven |
| Downloads.SuffixGivesExtension | music-catalog-service/src/main/java/com/music/musiccatalogservice/service/FileDownloadService.java:129-138 | a URL whose part before the query ends with an accepted extension, in any letter case, gets that extension |
| Downloads.PathSuffixGivesExtension | music-catalog-service/src/main/java/com/music/musiccatalogservice/service/FileDownloadService.java:132-138 | a path whose lower-cased form ends with an accepted extension gets exactly that extension |
| Downloads.ExtensionIsLowerSuffix | music-catalog-service/src/main/java/com/music/musiccatalogservice/service/FileDownloadService.java:132-138 | a chosen extension other than the default is how the lower-cased path ends |
| Downloads.QueryIgnored | music-catalog-service/src/main/java/com/music/musiccatalogservice/service/FileDownloadService.java:129 | everything from the first '?' on is ignored |
| FileRoutes.AudioContentType | music-catalog-service/src/main/java/com/music/musiccatalogservice/controller/FileController.java:78-90 | each suffix gives its type, any other name audio/mpeg, and no other type occurs |
| FileRoutes.SuffixesDisjoint | music-catalog-service/src/main/java/com/music/musiccatalogservice/controller/FileController.java:78-90 | no name ends with two of the suffixes, so the branch order does not matter |
| FileRoutes.Sanitize | music-catalog-service/src/main/java/com/music/musiccatalogservice/controller/FileController.java:122 | same length; safe characters kept, every other one turned into '_' |
| FileRoutes.DownloadName | music-catalog-service/src/main/java/com/music/musiccatalogservice/controller/FileController.java:120-125 | the title's length + 4, ending in ".mp3", only safe characters or '_', safe title characters kept |
| FileRoutes.Attachment | music-catalog-service/src/main/java/com/music/musiccatalogservice/controller/FileController.java:125 | the `Content-Disposition` value `attachment; filename="..."`; no contract of its own: ClientDownload.AttachmentLayout states its layout, AttachmentRoundTrip and SavedAsOffered that the client reads the name back, and TrackDownload that the download carries it |
| FileRoutes.TrackFile | music-catalog-service/src/main/java/com/music/musiccatalogservice/controller/FileController.java:60-100 | 500 exactly for an unknown id; 404 exactly for a missing or empty path or no file; a stream has the suffix's type, inline |
| FileRoutes.TrackDownload | music-catalog-service/src/main/java/com/music/musiccatalogservice/controller/FileController.java:104-130 | the same refusals; a stream is an octet-stream attachment under the sanitised name |
| FileRoutes.DownloadMatchesStream | music-catalog-service/src/main/java/com/music/musiccatalogservice/controller/FileController.java:60-130 | both routes give the same status and serve the same file |
| FileRoutes.Tier | music-catalog-service/src/main/java/com/music/musiccatalogservice/controller/FileController.java:238-261 | no decision exactly for an absent or empty path, or a local path with no file; http(s) redirects; a file is served with its probed type, else image/jpeg |
| FileRoutes.AlbumArtwork | music-catalog-service/src/main/java/com/music/musiccatalogservice/controller/FileController.java:232-265 | an unknown id or any failed tier gives 404; the status is always 200, 302 or 404 |
| FileRoutes.ArtistImage | music-catalog-service/src/main/java/com/music/musiccatalogservice/controller/FileController.java:304-337 | the same decision over the artist's image path |
| FileRoutes.TrackArtwork | music-catalog-service/src/main/java/com/music/musiccatalogservice/controller/FileController.java:377-429 | the track's own tier decides first; the status is always 200, 302 or 404 |
| FileRoutes.TrackArtworkFallsBackToAlbum | music-catalog-service/src/main/java/com/music/musiccatalogservice/controller/FileController.java:402-425 | when the track's tier decides nothing the album's answer is used; no album gives 404; the artist is never consulted |
| FileRoutes.HttpArtworkRedirects | music-catalog-service/src/main/java/com/music/musiccatalogservice/controller/FileController.java:243-248 | an http(s) path always redirects (302) to itself |
| FileRoutes.Status | music-catalog-service/src/main/java/com/music/musiccatalogservice/controller/FileController.java:60-130 | the HTTP status of each response kind; no contract of its own: DownloadMatchesStream, AlbumArtwork, ArtistImage, TrackArtwork and HttpArtworkRedirects state the statuses the routes give |
| FileRoutes.Extension | music-catalog-service/src/main/java/com/music/musiccatalogservice/controller/FileController.java:146-147 | none exactly for null or a name without '.'; otherwise the suffix from the last '.' |
| FileRoutes.Stored | music-catalog-service/src/main/java/com/music/musiccatalogservice/controller/FileController.java:159 | same length, no '\' left, other characters kept |
| FileRoutes.WithFileIdempotent | music-catalog-service/src/main/java/com/music/musiccatalogservice/controller/FileController.java:158-170 | uploading twice the same way leaves what uploading once did |
| FileRoutes.WithFile | music-catalog-service/src/main/java/com/music/musiccatalogservice/controller/FileController.java:158-170 | the track row after an upload; no contract of its own: WithFileIdempotent states it |
| FileRoutes.UploadMessage | music-catalog-service/src/main/java/com/music/musiccatalogservice/controller/FileController.java:174-175 | the success text, with the duration only when it is known; no contract of its own: SaveTrackFile, UploadTrackFile and DownloadTrackFromUrl state that each returns it with the stored duration |
| FileRoutes.TrackFilePath | music-catalog-service/src/main/java/com/music/musiccatalogservice/controller/FileController.java:150-155 | where an uploaded audio file is written; no contract of its own: TrackFilePathsDistinct states it |
| FileRoutes.TrackFilePathsDistinct | music-catalog-service/src/main/java/com/music/musiccatalogservice/controller/FileController.java:150-156 | two audio uploads land on the same path only for the same track and the same extension, so the `REPLACE_EXISTING` copy never overwrites another track file |
| FileRoutes.ArtworkFilePath | music-catalog-service/src/main/java/com/music/musiccatalogservice/controller/FileController.java:284-289 | where an uploaded image is written; no contract of its own: ArtworkFilePathsDistinct states it |
| FileRoutes.ArtworkFilePathsDistinct | music-catalog-service/src/main/java/com/music/musiccatalogservice/controller/FileController.java:284-290 | within one kind, two image uploads land on the same path only for the same id and the same extension, for extensions that do not start with a digit |
| Text.IntToStringPrefixUnique | music-catalog-service/src/main/java/com/music/musiccatalogservice/controller/FileController.java:150 | a rendered integer followed by text not starting with a digit determines both the integer and the text |
| FileRoutes.FileController.constructor | music-catalog-service/src/main/java/com/music/musiccatalogservice/controller/FileController.java:32-56 | the controller holds the given services, files and probes |
| FileRoutes.FileController.SaveTrackFile | music-catalog-service/src/main/java/com/music/musiccatalogservice/controller/FileController.java:149-175 | the file exists afterwards and only that track's row records it |
| FileRoutes.FileController.UploadTrackFile | music-catalog-service/src/main/java/com/music/musiccatalogservice/controller/FileController.java:133-180 | 500 for an unknown track or a name without '.', 400 for an empty file, each changing nothing; otherwise the file is written and the row updated |
| FileRoutes.FileController.DownloadTrackFromUrl | music-catalog-service/src/main/java/com/music/musiccatalogservice/controller/FileController.java:183-229 | 500 for an unknown track; 400 for a null or blank URL; 500 for a refused URL or a failed transfer; otherwise the file is written and the row updated |
| FileRoutes.FileController.UploadAlbumArtwork | music-catalog-service/src/main/java/com/music/musiccatalogservice/controller/FileController.java:268-301 | failures change nothing; otherwise the image is written and becomes the album's artwork path |
| FileRoutes.FileController.UploadArtistImage | music-catalog-service/src/main/java/com/music/musiccatalogservice/controller/FileController.java:340-373 | failures change nothing; otherwise the image is written and becomes the artist's image path |
| FileRoutes.FileController.UploadTrackArtwork | music-catalog-service/src/main/java/com/music/musiccatalogservice/controller/FileController.java:432-465 | failures change nothing; otherwise the image is written and becomes the track's artwork path |
| TrackStore.Created | music-catalog-service/src/main/java/com/music/musiccatalogservice/service/TrackService.java:24-37 | every DTO field is copied; the flag is true only when the DTO says true |
| TrackStore.Merge | music-catalog-service/src/main/java/com/music/musiccatalogservice/service/TrackService.java:67-98 | id and creation time kept; every other field overwritten exactly when the DTO carries a value |
| TrackStore.MergeNeverClears | music-catalog-service/src/main/java/com/music/musiccatalogservice/service/TrackService.java:67-98 | an update never turns a present field into null |
| TrackStore.MergeIdempotent | music-catalog-service/src/main/java/com/music/musiccatalogservice/service/TrackService.java:67-98 | sending the same update twice is sending it once |
| TrackStore.MergeNothing | music-catalog-service/src/main/java/com/music/musiccatalogservice/service/TrackService.java:67-98 | an all-null update changes nothing |
| TrackStore.CreatedReadsBack | music-catalog-service/src/main/java/com/music/musiccatalogservice/service/TrackService.java:121-142 | the created DTO carries what was sent, a missing flag read as false, and all four counts |
| TrackStore.ToDto | music-catalog-service/src/main/java/com/music/musiccatalogservice/service/TrackService.java:121-142 | `convertToDTO`: the row's fields plus the four play counts read from the `getPlayCounts` map; no contract of its own: CreatedReadsBack states each field of the result, and ConvertToDto, CreateTrack, GetTrackById and UpdateTrack state that each returns it |
| TrackStore.PlayCounts | music-catalog-service/src/main/java/com/music/musiccatalogservice/service/TrackPlayService.java:38-52 | the map `getPlayCounts` returns; no contract of its own: TrackPlays.TrackPlayService.GetPlayCounts states its four keys and counts, ConvertToDto states that the DTO's counts are read from it, and CreatedReadsBack states each count |
| TrackStore.Track.constructor | music-catalog-service/src/main/java/com/music/musiccatalogservice/entity/Track.java:41 | every field null except the flag, false |
| TrackStore.Track.Loaded | music-catalog-service/src/main/java/com/music/musiccatalogservice/entity/Track.java:52-130 | the entity for a stored row carries its fields |
| TrackStore.Track.GetIsNewRelease | music-catalog-service/src/main/java/com/music/musiccatalogservice/entity/Track.java:124-126 | never null; null reads as false |
| TrackStore.Track.SetIsNewRelease | music-catalog-service/src/main/java/com/music/musiccatalogservice/entity/Track.java:128-130 | null is stored as false, anything else as given; nothing else changes |
| TrackStore.Track.OnCreate | music-catalog-service/src/main/java/com/music/musiccatalogservice/entity/Track.java:43-49 | stamps the creation time and turns a null flag into false; nothing else changes |
| TrackStore.Track.Row | music-catalog-service/src/main/java/com/music/musiccatalogservice/entity/Track.java:9-41 | the row the repository saves for the entity, with the flag read through its null-coalescing getter; no contract of its own: SavedEntity states that the saved row is `Created(dto, id, now)`, and UpdateTrack states that the saved row is the merge |
| TrackStore.TrackService.constructor | music-catalog-service/src/main/java/com/music/musiccatalogservice/service/TrackService.java:16-22 | an empty table over the given play store |
| TrackStore.TrackService.ConvertToDto | music-catalog-service/src/main/java/com/music/musiccatalogservice/service/TrackService.java:121-142 | the row's fields plus the counts under day, week, month and all |
| TrackStore.TrackService.CreateTrack | music-catalog-service/src/main/java/com/music/musiccatalogservice/service/TrackService.java:24-37 | a new row under a fresh id, nothing else changed, returned converted |
| TrackStore.SavedEntity | music-catalog-service/src/main/java/com/music/musiccatalogservice/service/TrackService.java:24-35 | the saved entity is `Created` of the DTO under the new id and time |
| TrackStore.TrackService.GetTrackById | music-catalog-service/src/main/java/com/music/musiccatalogservice/service/TrackService.java:61-65 | the converted row, or "not found" for an unknown id |
| TrackStore.TrackService.UpdateTrack | music-catalog-service/src/main/java/com/music/musiccatalogservice/service/TrackService.java:67-98 | an unknown id fails and changes nothing; otherwise only that row becomes `Merge` of it |
| TrackStore.TrackService.SetDescriptive | music-catalog-service/src/main/java/com/music/musiccatalogservice/service/TrackService.java:71-79 | title, artist and album are overwritten only when the DTO's value is non-null; every other field of the entity stays |
| TrackStore.TrackService.SetMedia | music-catalog-service/src/main/java/com/music/musiccatalogservice/service/TrackService.java:80-94 | duration, file, genre, artwork and the flag are overwritten only when the DTO's value is non-null; every other field of the entity stays |
| TrackStore.TrackService.DeleteTrack | music-catalog-service/src/main/java/com/music/musiccatalogservice/service/TrackService.java:100-105 | an unknown id fails and changes nothing; otherwise exactly that row is removed |
| AlbumStore.Created | music-catalog-service/src/main/java/com/music/musiccatalogservice/service/AlbumService.java:20-29 | artist, title, year and artwork copied |
| AlbumStore.Merge | music-catalog-service/src/main/java/com/music/musiccatalogservice/service/AlbumService.java:52-71 | only non-null fields overwrite; id and creation time kept |
| AlbumStore.MergeIdempotent | music-catalog-service/src/main/java/com/music/musiccatalogservice/service/AlbumService.java:52-71 | sending the same update twice is sending it once |
| AlbumStore.MergeNeverClears | music-catalog-service/src/main/java/com/music/musiccatalogservice/service/AlbumService.java:52-71 | an update never turns a present field into null |
| AlbumStore.CreatedReadsBack | music-catalog-service/src/main/java/com/music/musiccatalogservice/service/AlbumService.java:80-89 | the created DTO carries what was sent, with its id and creation time |
| AlbumStore.ToDto | music-catalog-service/src/main/java/com/music/musiccatalogservice/service/AlbumService.java:80-89 | `convertToDTO`: every field of the row, with its id and creation time; no contract of its own: CreatedReadsBack states that the created album reads back as sent, and CreateAlbum, GetAlbumById and UpdateAlbum state that each returns the DTO of the stored row |
| AlbumStore.AlbumService.constructor | music-catalog-service/src/main/java/com/music/musiccatalogservice/service/AlbumService.java:15-18 | an empty table |
| AlbumStore.AlbumService.CreateAlbum | music-catalog-service/src/main/java/com/music/musiccatalogservice/service/AlbumService.java:20-29 | a new row under a fresh id, nothing else changed |
| AlbumStore.AlbumService.GetAlbumById | music-catalog-service/src/main/java/com/music/musiccatalogservice/service/AlbumService.java:46-50 | the row, or "not found" for an unknown id |
| AlbumStore.AlbumService.UpdateAlbum | music-catalog-service/src/main/java/com/music/musiccatalogservice/service/AlbumService.java:52-71 | an unknown id fails and changes nothing; otherwise only that row becomes `Merge` of it |
| AlbumStore.AlbumService.DeleteAlbum | music-catalog-service/src/main/java/com/music/musiccatalogservice/service/AlbumService.java:73-78 | an unknown id fails and changes nothing; otherwise exactly that row is removed |
| ArtistStore.Created | music-catalog-service/src/main/java/com/music/musiccatalogservice/service/ArtistService.java:22-30 | name, description and image copied |
| ArtistStore.Merge | music-catalog-service/src/main/java/com/music/musiccatalogservice/service/ArtistService.java:52-68 | only non-null fields overwrite; the id is kept |
| ArtistStore.MergeIdempotent | music-catalog-service/src/main/java/com/music/musiccatalogservice/service/ArtistService.java:52-68 | sending the same update twice is sending it once |
| ArtistStore.MergeNeverClears | music-catalog-service/src/main/java/com/music/musiccatalogservice/service/ArtistService.java:52-68 | an update never turns a present field into null |
| ArtistStore.CreatedReadsBack | music-catalog-service/src/main/java/com/music/musiccatalogservice/service/ArtistService.java:22-30 | what `createArtist` returns is the DTO that was sent, under the new id |
| ArtistStore.ToDto | music-catalog-service/src/main/java/com/music/musiccatalogservice/service/ArtistService.java:84-92 | `convertToDTO`: id, name, description and image path (the timestamp is left out, see below); no contract of its own: CreatedReadsBack states the created artist reads back as sent, and CreateArtist, GetArtistById and UpdateArtist state that each returns the DTO of the stored row |
| ArtistStore.ArtistService.constructor | music-catalog-service/src/main/java/com/music/musiccatalogservice/service/ArtistService.java:17-20 | an empty table |
| ArtistStore.ArtistService.CreateArtist | music-catalog-service/src/main/java/com/music/musiccatalogservice/service/ArtistService.java:22-30 | a new row under a fresh id, nothing else changed |
| ArtistStore.ArtistService.GetArtistById | music-catalog-service/src/main/java/com/music/musiccatalogservice/service/ArtistService.java:46-50 | the row, or "not found" for an unknown id |
| ArtistStore.ArtistService.UpdateArtist | music-catalog-service/src/main/java/com/music/musiccatalogservice/service/ArtistService.java:52-68 | an unknown id fails and changes nothing; otherwise only that row becomes `Merge` of it |
| ArtistStore.ArtistService.DeleteArtist | music-catalog-service/src/main/java/com/music/musiccatalogservice/service/ArtistService.java:70-75 | an unknown id fails and changes nothing; otherwise exactly that row is removed |
| UserStore.Merge | user-service/src/main/java/com/music/userservice/service/UserService.java:64-98 | each non-null field overwrites; the others and the id stay |
| UserStore.Conflict | user-service/src/main/java/com/music/userservice/service/UserService.java:68-82 | a new username, then a new email, is refused exactly when another account holds it |
| UserStore.DtoHidesPassword | user-service/src/main/java/com/music/userservice/service/UserService.java:123-132 | the DTO is the same whatever the stored password |
| UserStore.ToDto | user-service/src/main/java/com/music/userservice/service/UserService.java:123-132 | `convertToDTO`: id, username, email and the two names, and no password; no contract of its own: DtoHidesPassword states that the password never shows, and CreateUser, GetUserById, UpdateUser and Login state that each returns the DTO of the stored row |
| UserStore.CreateKeepsUnique | user-service/src/main/java/com/music/userservice/service/UserService.java:25-42 | an insert that passed both checks keeps usernames and emails unique |
| UserStore.UpdateKeepsUnique | user-service/src/main/java/com/music/userservice/service/UserService.java:64-98 | an update that passed both checks keeps usernames and emails unique |
| UserStore.UserService.constructor | user-service/src/main/java/com/music/userservice/service/UserService.java:20-23 | an empty table |
| UserStore.UserService.CreateUser | user-service/src/main/java/com/music/userservice/service/UserService.java:25-42 | "Username already exists" first, then "Email already exists", each changing nothing; otherwise one new account |
| UserStore.UserService.GetUserById | user-service/src/main/java/com/music/userservice/service/UserService.java:58-62 | the account's DTO, or "not found" for an unknown id |
| UserStore.UserService.UpdateUser | user-service/src/main/java/com/music/userservice/service/UserService.java:64-98 | an unknown id or a conflict fails and changes nothing; otherwise only that account becomes `Merge` of it |
| UserStore.ApplyUpdate | user-service/src/main/java/com/music/userservice/service/UserService.java:69-96 | the setters fail with the first conflict, and otherwise leave the account as `Merge` describes |
| UserStore.Created | user-service/src/main/java/com/music/userservice/service/UserService.java:33-40 | the account `createUser` builds from the request; no contract of its own: CreateUser states that it is stored under the next id when neither name nor email is taken |
| UserStore.UserService.DeleteUser | user-service/src/main/java/com/music/userservice/service/UserService.java:100-105 | an unknown id fails and changes nothing; otherwise exactly that account is removed |
| UserStore.UserService.Login | user-service/src/main/java/com/music/userservice/service/UserService.java:108-121 | by username first, then by email; "User not found" exactly when neither matches; "Invalid password" on a wrong password |
| PlaylistStore.Created | user-service/src/main/java/com/music/userservice/service/PlaylistService.java:20-29 | owner, name, description and image copied |
| PlaylistStore.Merge | user-service/src/main/java/com/music/userservice/service/PlaylistService.java:52-68 | only non-null fields overwrite; the owner is never changed |
| PlaylistStore.MergeIdempotent | user-service/src/main/java/com/music/userservice/service/PlaylistService.java:52-68 | sending the same update twice is sending it once |
| PlaylistStore.CreatedReadsBack | user-service/src/main/java/com/music/userservice/service/PlaylistService.java:77-86 | the created DTO carries what was sent, with its id |
| PlaylistStore.ToDto | user-service/src/main/java/com/music/userservice/service/PlaylistService.java:77-86 | `convertToDTO`: every field of the row with its id; no contract of its own: CreatedReadsBack states the created playlist reads back as sent, and CreatePlaylist, GetPlaylistById and UpdatePlaylist state that each returns the DTO of the stored row |
| PlaylistStore.PlaylistService.constructor | user-service/src/main/java/com/music/userservice/service/PlaylistService.java:15-18 | an empty table |
| PlaylistStore.PlaylistService.CreatePlaylist | user-service/src/main/java/com/music/userservice/service/PlaylistService.java:20-29 | a new row under a fresh id, nothing else changed |
| PlaylistStore.PlaylistService.GetPlaylistById | user-service/src/main/java/com/music/userservice/service/PlaylistService.java:46-50 | the row, or "not found" for an unknown id |
| PlaylistStore.PlaylistService.UpdatePlaylist | user-service/src/main/java/com/music/userservice/service/PlaylistService.java:52-68 | an unknown id fails and changes nothing; otherwise only that row becomes `Merge` of it |
| PlaylistStore.PlaylistService.DeletePlaylist | user-service/src/main/java/com/music/userservice/service/PlaylistService.java:70-75 | an unknown id fails and changes nothing; otherwise exactly that row is removed |
| NotificationStore.Created | notification-service/src/main/java/com/music/notificationservice/service/NotificationService.java:20-30 | unread whatever the DTO says; the other fields copied |
| NotificationStore.MarkRead | notification-service/src/main/java/com/music/notificationservice/service/NotificationService.java:60-66 | only that notification changes, and it is read |
| NotificationStore.UnreadIds | notification-service/src/main/java/com/music/notificationservice/service/NotificationService.java:46-51 | exactly the user's notifications that are unread |
| NotificationStore.MarkReadIdempotent | notification-service/src/main/java/com/music/notificationservice/service/NotificationService.java:60-66 | marking read twice is marking once |
| NotificationStore.MarkReadLeavesUnread | notification-service/src/main/java/com/music/notificationservice/service/NotificationService.java:60-66 | marking read removes exactly that id from every unread set |
| NotificationStore.CreatedReadsBack | notification-service/src/main/java/com/music/notificationservice/service/NotificationService.java:20-30 | what `createNotification` returns is the DTO that was sent, under the new id and unread, whatever `isRead` was sent |
| NotificationStore.ToDto | notification-service/src/main/java/com/music/notificationservice/service/NotificationService.java:79-89 | `convertToDTO`: every field of the row, with its id and read flag; no contract of its own: CreatedReadsBack states what a created notification reads back as, and CreateNotification, GetNotificationById, MarkAsRead and GetUnreadNotificationsByUserId state that each returns the DTO of the stored row |
| NotificationStore.NotificationService.constructor | notification-service/src/main/java/com/music/notificationservice/service/NotificationService.java:15-18 | an empty table |
| NotificationStore.NotificationService.CreateNotification | notification-service/src/main/java/com/music/notificationservice/service/NotificationService.java:20-30 | a new unread row under a fresh id, nothing else changed |
| NotificationStore.NotificationService.GetNotificationById | notification-service/src/main/java/com/music/notificationservice/service/NotificationService.java:54-58 | the row, or "not found" for an unknown id |
| NotificationStore.NotificationService.MarkAsRead | notification-service/src/main/java/com/music/notificationservice/service/NotificationService.java:60-66 | an unknown id fails and changes nothing; otherwise the table becomes `MarkRead` of it |
| NotificationStore.NotificationService.DeleteNotification | notification-service/src/main/java/com/music/notificationservice/service/NotificationService.java:68-73 | an unknown id fails and changes nothing; otherwise exactly that row is removed |
| NotificationStore.NotificationService.UnreadIdList | notification-service/src/main/java/com/music/notificationservice/service/NotificationService.java:47-51 | each unread id of the user exactly once |
| NotificationStore.Scan | notification-service/src/main/java/com/music/notificationservice/service/NotificationService.java:48-50 | the scanned keys that are kept, each exactly once |
| NotificationStore.NotificationService.GetUnreadNotificationsByUserId | notification-service/src/main/java/com/music/notificationservice/service/NotificationService.java:46-51 | one DTO per unread notification of the user, and no other |
| NotificationStore.NotificationService.GetUnreadCount | notification-service/src/main/java/com/music/notificationservice/service/NotificationService.java:75-77 | the number of the user's unread notifications; 0 exactly when all of them are read |

## Left out

- Rendering: the DOM, HTML templates, modals, tabs, the theme, search and the login UI. This includes the row scan in `updatePlayButtons`; only the icon decision of `getPlayButtonHtml` is modelled.
- `admin.js`: DOM form and CRUD glue. Its `formatDuration` is the same as the catalogue page's.
- PlayerState.PlayTrack and PlayerSession.Session.PlayTrack: the `await window.api.getTrackById(trackId)` of the fetch tier (player.js:175) is taken as one atomic step, with its answer the parameter `fetched`. In the program another `playTrack`, a `nextTrack` or a `setPlaylist` can finish during that wait. The resumed call then overwrites the playlist, the index, the current track and the source (player.js:176-200), so the later call's effect is lost. The model promises "the last call decides", and the program does not.
- The media element's event ordering and listener interleaving.
  - `play()`, `pause()` and the load are applied at the call that causes them.
  - A superseded `playWhenReady` listener is not tracked.
- The seek and volume geometry. The click's fraction of the bar is a parameter.
- Floating point. Volumes, the element's playback position (`currentTime`) and its `duration`, and the argument of `formatTime` are exact reals, not IEEE doubles. Float rounding in `currentTime` and `duration`, and so in the clock text near a whole second, is not modelled.
- Timers and the clock. Save intervals, the throttle and restore delays are left out. The time is a parameter `now`. The restore keeps only its attempt count, and what each attempt sees is the parameter `polls`.
- Periods in `TrackPlays`: a month is taken as 30 days. `LocalDateTime.minusMonths` is calendar arithmetic.
- I/O and the network:
  - `localStorage`, `fetch`, the `api.*` calls and blob downloads;
  - the file writes, `createDirectories`, and any partial file left after a failed download;
  - the HTTP transfer in `downloadFile`;
  - `AudioDurationService`.

  Their outcomes are parameters: `disk`, `probed`, `fetched`, `detected`, `failing`.
- `Paths.get` normalisation and its `InvalidPathException`. A path is joined with '/'.
- `Files.probeContentType` failures. The probe's answer is the parameter `probed`.
- The 500 bodies. The error messages inside 500 responses are not modelled.
- Randomness: `Math.random` in the shuffled step and in the genre shuffle is the parameters `pick`/`picks`.
- `Pages.Shuffle`: the model is a permutation chosen by picks. It does not model the uneven distribution of sorting with a random comparator.
- Sorting.SortByStable: stability is stated only for lists without repeated elements, because the statement identifies elements by value. On a list with equal copies, the copies cannot be told apart, so their order does not matter.
- Strings are sequences of Unicode scalar values (`seq<char>`), not JavaScript's or Java's UTF-16 code units. Lengths, indexes and `substring` therefore differ from the program's on text outside the Basic Multilingual Plane, where one character is two code units.
- Initials.GetInitials: `firstName[0]`, `username.length >= 2` and `username.substring(0, 2)` (app.js:2222-2231) count UTF-16 code units, and the model counts characters. For a username of U+1F600 followed by "a" and no names, the program gives U+1F600 (the surrogate pair), and the model gives U+1F600 "A". For a first name starting with U+1F600, the program gives a lone high surrogate U+D83D, and the model gives U+1F600.
- `Ranking.TitleLe`: code-point order stands in for `localeCompare`. Letter case is ASCII only in `Text.Lower`/`Text.Upper`.
- The `window.playlist`/`window.currentTrackIndex` fallbacks, used only when `setPlaylist` is missing. They write properties the player never reads.
- Which of the duplicated global functions wins depends on script order. Each file's function is modelled as written, and `player.js`'s `playTrack` is the session entry point.
- Analytics: the play-recording calls and their swallowed rejections.
- Controllers other than `FileController`, the exception handler, repositories and JPA validation. Database constraints (`nullable = false`, unique columns) are left out as well: the service checks are modelled and the database's are not.
- The list queries: `getAll*`, `get*ByUserId`, `get*ByArtistId`/`ByAlbumId`, `search*` and paging. They are plain repository calls.
- Integer widths: `Long` and `Integer` are unbounded integers, with no overflow.
- `createdAt`:
  - it is kept only on the entities whose `@PrePersist` is visible, `Track` and `Album`;
  - the user, playlist and notification rows have no timestamps;
  - `TrackPlay`'s hook is modelled in `TrackPlays.OnCreate`.
- `UserStore`: the create DTO's username and email are non-null strings.
- Dead code: in `playTrack`, lines 204-207 of `player.js` are unreachable (a found track always has an index) and are not modelled.
- JavaScript renders a `null` title as "null" inside template strings. A missing title is modelled as that text, not as "undefined".

## Findings

The services and handlers keep the code as written. The corrected definitions sit beside them, and the intended properties are proved about those.

| source | as written | input that shows it | evidently intended | confidence | as-written member | corrected member |
|---|---|---|---|---|---|---|
| music-catalog-service/src/main/java/com/music/musiccatalogservice/entity/TrackPlay.java:20-23 | `onCreate` stamps every inserted play with the insert time, overwriting the time `setPlayCounts` sets for each of its buckets | `setPlayCounts(id, 10, 5, 3, 1)` read back at once gives 10 plays today, this week and this month | each bucket keeps its requested time, so the counts read back are 10/5/3/1 | not executed | TrackPlays.TodayCountsEverything | TrackPlays.SetCountsReadBackCorrected |
| frontend/js/album-page.js:522-541 | without an album id, the index is the row's position among all rows, but the list is only the rows that resolved | rows with ids 9, 1, 3, 4 where 9 is not loaded: clicking the row of track 3 plays track 4. The album page itself never reaches this branch with rows on screen: without an `id` parameter it draws no rows (lines 187-193), and with one it sets `currentAlbumId` before drawing them (line 202). The branch runs only when other markup with `.track-item` rows calls `playTrackFromAlbum` without an album id | the index is taken in the resolved list | not executed; latent, since the page flow does not produce the input | Pages.DomIndexSkipsUnresolvedRow | Pages.DomClickCorrectedPlaysClicked |
| frontend/js/genre-page.js:330-336 | the genre "play all" installs the shuffled list but never calls `playTrack` when `setPlaylist` exists | any non-empty genre | play the first track, as the album, artist and playlist pages do | not executed | Pages.GenrePlayDoesNotPlay | Pages.StartBeginsAtFirst |
| frontend/js/genre-page.js:360-366 | a genre row click installs the list at the row but never calls `playTrack` when `setPlaylist` exists | a click on any row of a genre | play the clicked row | not executed | Pages.GenreClickDoesNotPlay | Pages.ClickStartsClicked |
