/** The "play from here" handlers of the album, artist, playlist and genre
    pages. Each one works out what to hand to the player (nothing, one id, or a
    list with a start index and maybe an id to play) and then calls the
    player's `setPlaylist` and `playTrack`. The decision is a `Plan`. `Run`
    applies a plan to the session functions of player_state.dfy, and the
    methods at the end drive a `Session` object the way the pages do. */
module Pages {
  import opened Wrappers
  import opened Catalog
  import opened PlayerState
  import opened PlayerProps
  import opened PlayerSession

  /** What a page handler asks of the player. */
  datatype Plan =
    | Alert
    | PlayOnly(trackId: int)
    | Install(list: seq<Track>, start: int, play: Option<int>)

  /** A plan carried out: `setPlaylist(list, start)` then `playTrack(play)`. */
  function Run(s: State, p: Plan, fetched: Option<Track>, allowed: bool, base: string): State {
    match p
    case Alert => s
    case PlayOnly(id) => PlayTrack(s, id, fetched, allowed, base)
    case Install(l, i, play) =>
      var t := SetPlaylist(s, Some(l), i);
      if play.Some? then PlayTrack(t, play.value, fetched, allowed, base) else t
  }

  /** `if (!window.tracks || window.tracks.length === 0) window.tracks = await api.getTracks()`. */
  function Loaded(w: Option<seq<Track>>, fetchedAll: seq<Track>): (r: seq<Track>)
    ensures w.Some? && |w.value| > 0 ==> r == w.value
    ensures w.None? || |w.value| == 0 ==> r == fetchedAll
  {
    if w.None? || |w.value| == 0 then fetchedAll else w.value
  }

  function WithTracks(s: State, fetchedAll: seq<Track>): State {
    s.(windowTracks := Some(Loaded(s.windowTracks, fetchedAll)))
  }

  /** The "play all" handlers: an empty list alerts, otherwise the list is
      installed at 0 and its first track is played when its id is truthy. */
  function StartPlan(l: seq<Track>): (p: Plan)
    ensures p.Alert? <==> |l| == 0
    ensures p.Install? ==> p.list == l && p.start == 0 && p.play == (if l[0].id != 0 then Some(l[0].id) else None)
    ensures !p.PlayOnly?
  {
    if |l| == 0 then Alert else Install(l, 0, if l[0].id != 0 then Some(l[0].id) else None)
  }

  /** The "play this row" handlers: the row's first position in the list, or
      just `playTrack(id)` when the list lacks it. */
  function ClickPlan(l: seq<Track>, id: int): (p: Plan)
    ensures p.PlayOnly? <==> !HasTrack(l, id)
    ensures p.PlayOnly? ==> p.trackId == id
    ensures p.Install? ==> p.list == l && p.start == FindIndex(l, id) && p.play == (if id != 0 then Some(id) else None)
    ensures !p.Alert?
  {
    var i := FindIndex(l, id);
    if i == -1 then PlayOnly(id) else Install(l, i, if l[i].id != 0 then Some(l[i].id) else None)
  }

  // ---------------------------------------------------------------------------
  // Resolving ids against `window.tracks`

  /** `ids.map(id => window.tracks.find(t => t.id === id)).filter(t => t != null)`. */
  function ResolveIds(all: seq<Track>, ids: seq<int>): (r: seq<Track>)
    ensures |r| <= |ids|
    ensures forall t :: t in r ==> t in all
  {
    if |ids| == 0 then []
    else
      match FindTrack(all, ids[0])
      case Some(t) => [t] + ResolveIds(all, ids[1..])
      case None => ResolveIds(all, ids[1..])
  }

  function IdsOf(ts: seq<Track>): (r: seq<int>)
    ensures |r| == |ts| && forall k :: 0 <= k < |ts| ==> r[k] == ts[k].id
  {
    if |ts| == 0 then [] else [ts[0].id] + IdsOf(ts[1..])
  }

  /** The ids among `ids` that some loaded track has, in their order. */
  function Resolvable(all: seq<Track>, ids: seq<int>): seq<int> {
    if |ids| == 0 then []
    else (if HasTrack(all, ids[0]) then [ids[0]] else []) + Resolvable(all, ids[1..])
  }

  /** Resolution keeps the order of the ids and drops exactly the ones no
      loaded track has; each resolved record is the first one with its id. */
  lemma {:induction false} ResolveKeepsOrder(all: seq<Track>, ids: seq<int>)
    ensures IdsOf(ResolveIds(all, ids)) == Resolvable(all, ids)
    ensures forall t :: t in ResolveIds(all, ids) ==> t == all[FindIndex(all, t.id)]
  {
    if |ids| > 0 {
      ResolveKeepsOrder(all, ids[1..]);
      var rest := ResolveIds(all, ids[1..]);
      match FindTrack(all, ids[0])
      case Some(t) =>
        assert ResolveIds(all, ids) == [t] + rest;
        assert IdsOf([t] + rest)[1..] == IdsOf(rest) by {
          assert ([t] + rest)[1..] == rest;
        }
      case None =>
    }
  }

  /** When every id resolves, nothing is dropped. */
  lemma {:induction false} AllResolvedKeepsLength(all: seq<Track>, ids: seq<int>)
    requires forall k :: 0 <= k < |ids| ==> HasTrack(all, ids[k])
    ensures |ResolveIds(all, ids)| == |ids|
  {
    if |ids| > 0 {
      AllResolvedKeepsLength(all, ids[1..]);
    }
  }

  /** An entry of a playlist's track list: a record, or a bare id. */
  datatype Entry = Record(id: int) | Bare(value: int)

  /** `t.id || parseInt(t)`: a record with a falsy id parses to `NaN`,
      which no track id equals, so it has no usable id. */
  function EntryId(e: Entry): Option<int> {
    match e
    case Record(id) => if id != 0 then Some(id) else None
    case Bare(v) => Some(v)
  }

  function UsableIds(entries: seq<Entry>): (r: seq<int>)
    ensures |r| <= |entries|
    ensures forall x :: x in r <==> exists e :: e in entries && EntryId(e) == Some(x)
  {
    if |entries| == 0 then []
    else
      var rest := UsableIds(entries[1..]);
      assert forall e :: e in entries <==> e == entries[0] || e in entries[1..];
      match EntryId(entries[0])
      case Some(x) => [x] + rest
      case None => rest
  }

  /** The playlist page's `trackList`. */
  function ResolvePlaylist(all: seq<Track>, entries: seq<Entry>): seq<Track> {
    ResolveIds(all, UsableIds(entries))
  }

  /** `window.tracks.filter(t => !playlistTrackIds.has(t.id))`: the tracks
      offered for adding. */
  function AvailableTracks(all: seq<Track>, entries: seq<Entry>): (r: seq<Track>)
    ensures forall t :: t in r <==> t in all && forall e :: e in entries ==> EntryId(e) != Some(t.id)
  {
    Filter(all, Unlisted(UsableIds(entries)))
  }

  /** The test of that filter: the id is not among the playlist's ids. */
  function Unlisted(ids: seq<int>): Track -> bool {
    (t: Track) => t.id !in ids
  }

  /** The offered tracks keep the order of `window.tracks`, each kept copy
      where it was: offering splits over concatenation, and a single track
      is offered exactly when no entry names its id. */
  lemma AvailableKeepsOrder(a: seq<Track>, b: seq<Track>, x: Track, entries: seq<Entry>)
    ensures AvailableTracks(a + b, entries) == AvailableTracks(a, entries) + AvailableTracks(b, entries)
    ensures AvailableTracks([x], entries)
            == if forall e :: e in entries ==> EntryId(e) != Some(x.id) then [x] else []
  {
    FilterAppend(a, b, Unlisted(UsableIds(entries)));
    FilterSingle(x, Unlisted(UsableIds(entries)));
  }

  // ---------------------------------------------------------------------------
  // Genre shuffle

  /** `genreTracks.sort(() => Math.random() - 0.5)`, with the random choices
      as `picks`: each turn moves the picked remaining track to the output. */
  function Shuffle(ts: seq<Track>, picks: seq<nat>): (r: seq<Track>)
    ensures multiset(r) == multiset(ts)
    decreases |ts|
  {
    if |ts| == 0 then []
    else
      var k := if |picks| > 0 then picks[0] % |ts| else 0;
      var rest := ts[..k] + ts[k + 1..];
      assert ts == ts[..k] + [ts[k]] + ts[k + 1..];
      [ts[k]] + Shuffle(rest, if |picks| > 0 then picks[1..] else [])
  }

  function GenreTracks(all: seq<Track>, genre: string): seq<Track> {
    Filter(all, (t: Track) => t.genre == genre)
  }

  /** The genre page's "play all", as written: the list is installed but
      nothing is played. */
  function GenrePlayPlan(shuffled: seq<Track>): (p: Plan)
    ensures p.Alert? <==> |shuffled| == 0
    ensures p.Install? ==> p.list == shuffled && p.start == 0 && p.play.None?
  {
    if |shuffled| == 0 then Alert else Install(shuffled, 0, None)
  }

  /** The genre page's row click, as written: the list is installed at the
      row and nothing is played, unless the row is missing from the list. */
  function GenreClickPlan(shuffled: seq<Track>, id: int): (p: Plan)
    ensures p.PlayOnly? <==> !HasTrack(shuffled, id)
    ensures p.Install? ==> p.list == shuffled && p.start == FindIndex(shuffled, id) && p.play.None?
  {
    var i := FindIndex(shuffled, id);
    if i == -1 then PlayOnly(id) else Install(shuffled, i, None)
  }

  // ---------------------------------------------------------------------------
  // Album page, DOM fallback

  /** `albumTrackIds.indexOf(id)`. */
  function PositionOf(ids: seq<int>, x: int): (i: int)
    ensures -1 <= i < |ids|
    ensures i >= 0 ==> ids[i] == x && forall j :: 0 <= j < i ==> ids[j] != x
    ensures i == -1 <==> x !in ids
  {
    if |ids| == 0 then -1
    else if ids[0] == x then 0
    else
      var k := PositionOf(ids[1..], x);
      if k == -1 then -1 else k + 1
  }

  /** The album page's row click without an album id, as written: the
      index is the row's place among the page's rows, but the list is the rows
      that resolved, so every unresolved row before the clicked one shifts
      the index. */
  function DomClickPlan(all: seq<Track>, domIds: seq<int>, id: int): Plan {
    var i := PositionOf(domIds, id);
    if i == -1 then PlayOnly(id)
    else
      var l := ResolveIds(all, domIds);
      if |l| == 0 then PlayOnly(id)
      else Install(l, i, if i < |l| && l[i].id != 0 then Some(l[i].id) else None)
  }

  /** The same click with the index taken in the resolved list. */
  function DomClickPlanCorrected(all: seq<Track>, domIds: seq<int>, id: int): Plan {
    ClickPlan(ResolveIds(all, domIds), id)
  }

  // ---------------------------------------------------------------------------
  // The handlers

  /** `playAlbum()`: `album` is `currentAlbumId` or the page URL's id. */
  function PlayAlbum(s: State, album: Option<int>, domIds: seq<int>, fetchedAll: seq<Track>,
                     fetched: Option<Track>, allowed: bool, base: string): State {
    if album.None? && |domIds| == 0 then s
    else
      var w := WithTracks(s, fetchedAll);
      var all := w.windowTracks.value;
      var l := if album.Some? then AlbumTracksOf(all, album.value) else ResolveIds(all, domIds);
      Run(w, StartPlan(l), fetched, allowed, base)
  }

  function AlbumTracksOf(all: seq<Track>, albumId: int): seq<Track> {
    Filter(all, (t: Track) => t.albumId == albumId)
  }

  /** `playTrackFromAlbum(trackId)`. */
  function PlayTrackFromAlbum(s: State, album: Option<int>, domIds: seq<int>, trackId: int,
                              fetchedAll: seq<Track>, fetched: Option<Track>, allowed: bool, base: string): State {
    if album.Some? then
      var w := WithTracks(s, fetchedAll);
      Run(w, ClickPlan(AlbumTracksOf(w.windowTracks.value, album.value), trackId), fetched, allowed, base)
    else if |domIds| == 0 || trackId !in domIds then
      PlayTrack(s, trackId, fetched, allowed, base)
    else
      var w := WithTracks(s, fetchedAll);
      Run(w, DomClickPlan(w.windowTracks.value, domIds, trackId), fetched, allowed, base)
  }

  function ArtistTracks(all: seq<Track>, artistId: int): seq<Track> {
    Filter(all, (t: Track) => t.artistId == artistId)
  }

  /** `playArtistTracks(artistId)`. */
  function PlayArtistTracks(s: State, artistId: int, fetchedAll: seq<Track>,
                            fetched: Option<Track>, allowed: bool, base: string): State {
    var w := WithTracks(s, fetchedAll);
    Run(w, StartPlan(ArtistTracks(w.windowTracks.value, artistId)), fetched, allowed, base)
  }

  /** `playTrackFromArtist(artistId, trackId)`. */
  function PlayTrackFromArtist(s: State, artistId: int, trackId: int, fetchedAll: seq<Track>,
                               fetched: Option<Track>, allowed: bool, base: string): State {
    var w := WithTracks(s, fetchedAll);
    Run(w, ClickPlan(ArtistTracks(w.windowTracks.value, artistId), trackId), fetched, allowed, base)
  }

  /** `playPlaylist(playlistId)` with the playlist's entries. */
  function PlayPlaylist(s: State, entries: seq<Entry>, fetchedAll: seq<Track>,
                        fetched: Option<Track>, allowed: bool, base: string): State {
    var w := WithTracks(s, fetchedAll);
    Run(w, StartPlan(ResolvePlaylist(w.windowTracks.value, entries)), fetched, allowed, base)
  }

  /** `playTrackFromPlaylist(trackId, playlistId)` with the playlist's entries. */
  function PlayTrackFromPlaylist(s: State, trackId: int, entries: seq<Entry>, fetchedAll: seq<Track>,
                                 fetched: Option<Track>, allowed: bool, base: string): State {
    var w := WithTracks(s, fetchedAll);
    Run(w, ClickPlan(ResolvePlaylist(w.windowTracks.value, entries), trackId), fetched, allowed, base)
  }

  /** `playGenreTracks(genreName)`. */
  function PlayGenreTracks(s: State, genre: string, picks: seq<nat>, fetchedAll: seq<Track>,
                           fetched: Option<Track>, allowed: bool, base: string): State {
    var w := WithTracks(s, fetchedAll);
    Run(w, GenrePlayPlan(Shuffle(GenreTracks(w.windowTracks.value, genre), picks)), fetched, allowed, base)
  }

  /** `playTrackFromGenre(genreName, trackId)`. */
  function PlayTrackFromGenre(s: State, genre: string, trackId: int, picks: seq<nat>, fetchedAll: seq<Track>,
                              fetched: Option<Track>, allowed: bool, base: string): State {
    var w := WithTracks(s, fetchedAll);
    Run(w, GenreClickPlan(Shuffle(GenreTracks(w.windowTracks.value, genre), picks), trackId), fetched, allowed, base)
  }

  // ---------------------------------------------------------------------------
  // What the player ends up doing

  /** A row click on a list that holds the row installs the list and plays
      the row: a track that is not current becomes current at its first
      position; the current one, playing, is paused instead. */
  lemma ClickStartsClicked(s: State, l: seq<Track>, id: int, fetched: Option<Track>, allowed: bool, base: string)
    requires HasTrack(l, id) && id != 0
    ensures var r := Run(s, ClickPlan(l, id), fetched, allowed, base);
            r.playlist == l && r.index == FindIndex(l, id)
            && (!IsCurrent(s, id) ==> r.currentTrack == Some(l[FindIndex(l, id)]) && r.currentTrack.value.id == id)
            && (IsCurrent(s, id) ==> r.currentTrack == s.currentTrack)
            && (IsCurrent(s, id) && s.isPlaying && !s.audio.paused ==> r.audio.paused && !r.isPlaying)
  {
    var i := FindIndex(l, id);
    var t := SetPlaylist(s, Some(l), i);
    SetPlaylistInstalls(s, Some(l), i);
    assert Run(s, ClickPlan(l, id), fetched, allowed, base) == PlayTrack(t, id, fetched, allowed, base);
    if IsCurrent(s, id) {
      SameTrackNeverReloads(t, id, fetched, allowed, base);
    } else {
      PlaylistTierComesFirst(t, id, fetched, allowed, base);
    }
  }

  /** A "play all" on a non-empty list installs it at 0 and plays its first
      track; an empty one leaves the session as it was. */
  lemma StartBeginsAtFirst(s: State, l: seq<Track>, fetched: Option<Track>, allowed: bool, base: string)
    ensures |l| == 0 ==> Run(s, StartPlan(l), fetched, allowed, base) == s
    ensures |l| > 0 && l[0].id != 0 && !IsCurrent(s, l[0].id) ==>
              var r := Run(s, StartPlan(l), fetched, allowed, base);
              r.playlist == l && r.index == 0 && r.currentTrack == Some(l[0])
  {
    if |l| > 0 && l[0].id != 0 && !IsCurrent(s, l[0].id) {
      var t := SetPlaylist(s, Some(l), 0);
      SetPlaylistInstalls(s, Some(l), 0);
      assert FindIndex(l, l[0].id) == 0;
      PlaylistTierComesFirst(t, l[0].id, fetched, allowed, base);
    }
  }

  /** A row click on the artist page, for a track of that artist, plays the
      clicked track within the artist's tracks. */
  lemma ArtistClickPlaysClicked(s: State, artistId: int, trackId: int, fetchedAll: seq<Track>,
                                fetched: Option<Track>, allowed: bool, base: string)
    requires trackId != 0 && !IsCurrent(s, trackId)
    requires HasTrack(ArtistTracks(Loaded(s.windowTracks, fetchedAll), artistId), trackId)
    ensures var r := PlayTrackFromArtist(s, artistId, trackId, fetchedAll, fetched, allowed, base);
            var l := ArtistTracks(Loaded(s.windowTracks, fetchedAll), artistId);
            r.playlist == l && r.currentTrack.Some? && r.currentTrack.value.id == trackId
            && r.currentTrack.value.artistId == artistId && 0 <= r.index < |r.playlist| && r.playlist[r.index] == r.currentTrack.value
  {
    var w := WithTracks(s, fetchedAll);
    var l := ArtistTracks(w.windowTracks.value, artistId);
    ClickStartsClicked(w, l, trackId, fetched, allowed, base);
    assert l[FindIndex(l, trackId)] in l;
  }

  /** A row click on the album page with an album id, for a track of that
      album, plays the clicked track within the album's tracks. */
  lemma AlbumClickPlaysClicked(s: State, albumId: int, domIds: seq<int>, trackId: int, fetchedAll: seq<Track>,
                               fetched: Option<Track>, allowed: bool, base: string)
    requires trackId != 0 && !IsCurrent(s, trackId)
    requires HasTrack(AlbumTracksOf(Loaded(s.windowTracks, fetchedAll), albumId), trackId)
    ensures var r := PlayTrackFromAlbum(s, Some(albumId), domIds, trackId, fetchedAll, fetched, allowed, base);
            var l := AlbumTracksOf(Loaded(s.windowTracks, fetchedAll), albumId);
            r.playlist == l && r.currentTrack.Some? && r.currentTrack.value.id == trackId
            && r.currentTrack.value.albumId == albumId && 0 <= r.index < |r.playlist| && r.playlist[r.index] == r.currentTrack.value
  {
    var w := WithTracks(s, fetchedAll);
    var l := AlbumTracksOf(w.windowTracks.value, albumId);
    ClickStartsClicked(w, l, trackId, fetched, allowed, base);
    assert l[FindIndex(l, trackId)] in l;
  }

  /** A row click on the playlist page, for a track the playlist resolves
      to, plays the clicked track within the resolved list. */
  lemma PlaylistClickPlaysClicked(s: State, trackId: int, entries: seq<Entry>, fetchedAll: seq<Track>,
                                  fetched: Option<Track>, allowed: bool, base: string)
    requires trackId != 0 && !IsCurrent(s, trackId)
    requires HasTrack(ResolvePlaylist(Loaded(s.windowTracks, fetchedAll), entries), trackId)
    ensures var r := PlayTrackFromPlaylist(s, trackId, entries, fetchedAll, fetched, allowed, base);
            r.playlist == ResolvePlaylist(Loaded(s.windowTracks, fetchedAll), entries)
            && r.currentTrack.Some? && r.currentTrack.value.id == trackId
            && 0 <= r.index < |r.playlist| && r.playlist[r.index] == r.currentTrack.value
  {
    var w := WithTracks(s, fetchedAll);
    ClickStartsClicked(w, ResolvePlaylist(w.windowTracks.value, entries), trackId, fetched, allowed, base);
  }

  /** A genre row click, as written, primes the list at the clicked row but
      leaves the current track and the element as they were. */
  lemma GenreClickDoesNotPlay(s: State, genre: string, trackId: int, picks: seq<nat>, fetchedAll: seq<Track>,
                              fetched: Option<Track>, allowed: bool, base: string)
    requires HasTrack(Shuffle(GenreTracks(Loaded(s.windowTracks, fetchedAll), genre), picks), trackId)
    ensures var r := PlayTrackFromGenre(s, genre, trackId, picks, fetchedAll, fetched, allowed, base);
            var l := Shuffle(GenreTracks(Loaded(s.windowTracks, fetchedAll), genre), picks);
            r.playlist == l && r.index == FindIndex(l, trackId)
            && r.currentTrack == s.currentTrack && r.audio == s.audio && r.isPlaying == s.isPlaying
  {
    var w := WithTracks(s, fetchedAll);
    var l := Shuffle(GenreTracks(w.windowTracks.value, genre), picks);
    SetPlaylistInstalls(w, Some(l), FindIndex(l, trackId));
  }

  /** The genre "play all", as written, starts nothing either. */
  lemma GenrePlayDoesNotPlay(s: State, genre: string, picks: seq<nat>, fetchedAll: seq<Track>,
                             fetched: Option<Track>, allowed: bool, base: string)
    ensures var r := PlayGenreTracks(s, genre, picks, fetchedAll, fetched, allowed, base);
            var l := Shuffle(GenreTracks(Loaded(s.windowTracks, fetchedAll), genre), picks);
            (|l| > 0 ==> r.playlist == l && r.index == 0)
            && r.currentTrack == s.currentTrack && r.audio == s.audio && r.isPlaying == s.isPlaying
  {
    var w := WithTracks(s, fetchedAll);
    var l := Shuffle(GenreTracks(w.windowTracks.value, genre), picks);
    assert PlayGenreTracks(s, genre, picks, fetchedAll, fetched, allowed, base)
        == Run(w, GenrePlayPlan(l), fetched, allowed, base);
    SetPlaylistInstalls(w, Some(l), 0);
  }

  /** The genre list is a permutation of the genre's tracks. */
  lemma GenreListIsPermutation(all: seq<Track>, genre: string, picks: seq<nat>)
    ensures var l := Shuffle(GenreTracks(all, genre), picks);
            multiset(l) == multiset(GenreTracks(all, genre))
            && forall t :: t in l <==> t in all && t.genre == genre
  {
    var g := GenreTracks(all, genre);
    var l := Shuffle(g, picks);
    forall t
      ensures t in l <==> t in g
    {
      assert t in l <==> t in multiset(l);
      assert t in g <==> t in multiset(g);
    }
  }

  /** On a page without an album id whose first row does not resolve, a
      click on the third row plays the fourth. */
  lemma DomIndexSkipsUnresolvedRow(a: Track, c: Track, d: Track, base: string)
    requires a.id == 1 && c.id == 3 && d.id == 4
    ensures var s := Initial(Some([a, c, d]));
            var r := PlayTrackFromAlbum(s, None, [9, 1, 3, 4], 3, [], None, true, base);
            r.currentTrack == Some(d) && r.index == 2
  {
    var all := [a, c, d];
    var s := Initial(Some(all));
    UnresolvedRowPlan(a, c, d);
    assert 3 in [9, 1, 3, 4];
    var w := WithTracks(s, []);
    assert w == s;
    assert PlayTrackFromAlbum(s, None, [9, 1, 3, 4], 3, [], None, true, base)
        == Run(s, Install(all, 2, Some(4)), None, true, base);
    var t := SetPlaylist(s, Some(all), 2);
    assert t.playlist == all && t.index == 2;
    PlaylistTierComesFirst(t, 4, None, true, base);
  }

  /** The plan for that click: the whole list, at the row's DOM position. */
  lemma UnresolvedRowPlan(a: Track, c: Track, d: Track)
    requires a.id == 1 && c.id == 3 && d.id == 4
    ensures DomClickPlan([a, c, d], [9, 1, 3, 4], 3) == Install([a, c, d], 2, Some(4))
  {
    var all := [a, c, d];
    assert FindTrack(all, 9).None? by {
      assert !HasTrack(all, 9);
    }
    assert FindIndex(all, 1) == 0;
    assert FindIndex(all, 3) == 1;
    assert all[2].id == 4;
    assert FindIndex(all, 4) == 2;
    assert ResolveIds(all, [4]) == [d];
    assert [9, 1, 3, 4][1..] == [1, 3, 4] && [1, 3, 4][1..] == [3, 4] && [3, 4][1..] == [4];
    assert ResolveIds(all, [3, 4]) == [c, d];
    assert ResolveIds(all, [1, 3, 4]) == [a, c, d];
    assert ResolveIds(all, [9, 1, 3, 4]) == all;
    assert PositionOf([9, 1, 3, 4], 3) == 2;
  }

  /** With the index taken in the resolved list, a click on a row that
      resolves plays that row, whatever rows before it failed to resolve. */
  lemma DomClickCorrectedPlaysClicked(s: State, all: seq<Track>, domIds: seq<int>, id: int,
                                      fetched: Option<Track>, allowed: bool, base: string)
    requires id != 0 && !IsCurrent(s, id) && id in domIds && HasTrack(all, id)
    ensures var r := Run(s, DomClickPlanCorrected(all, domIds, id), fetched, allowed, base);
            r.playlist == ResolveIds(all, domIds) && r.currentTrack.Some? && r.currentTrack.value.id == id
  {
    var l := ResolveIds(all, domIds);
    ResolveKeepsOrder(all, domIds);
    ResolvableHas(all, domIds, id);
    var k :| 0 <= k < |IdsOf(l)| && IdsOf(l)[k] == id;
    assert l[k].id == id;
    ClickStartsClicked(s, l, id, fetched, allowed, base);
  }

  lemma {:induction false} ResolvableHas(all: seq<Track>, ids: seq<int>, id: int)
    requires id in ids && HasTrack(all, id)
    ensures id in Resolvable(all, ids)
  {
    if ids[0] != id {
      ResolvableHas(all, ids[1..], id);
    }
  }

  // ---------------------------------------------------------------------------
  // The handlers driving the player

  /** `window.tracks` is loaded if it is missing or empty. */
  method EnsureTracks(session: Session, fetchedAll: seq<Track>)
    modifies session
    ensures session.Model() == WithTracks(old(session.Model()), fetchedAll)
  {
    if session.windowTracks.None? || |session.windowTracks.value| == 0 {
      session.windowTracks := Some(fetchedAll);
    }
  }

  method RunPlan(session: Session, p: Plan, fetched: Option<Track>, allowed: bool, base: string)
    modifies session
    ensures session.Model() == Run(old(session.Model()), p, fetched, allowed, base)
  {
    match p
    case Alert =>
    case PlayOnly(id) =>
      session.PlayTrack(id, fetched, allowed, base);
    case Install(l, i, play) =>
      session.SetPlaylist(Some(l), i);
      if play.Some? {
        session.PlayTrack(play.value, fetched, allowed, base);
      }
  }

  method PlayAlbumOn(session: Session, album: Option<int>, domIds: seq<int>, fetchedAll: seq<Track>,
                     fetched: Option<Track>, allowed: bool, base: string)
    modifies session
    ensures session.Model() == PlayAlbum(old(session.Model()), album, domIds, fetchedAll, fetched, allowed, base)
  {
    if album.None? && |domIds| == 0 {
      return;
    }
    EnsureTracks(session, fetchedAll);
    var all := session.windowTracks.value;
    var tracks := if album.Some? then AlbumTracksOf(all, album.value) else ResolveIds(all, domIds);
    RunPlan(session, StartPlan(tracks), fetched, allowed, base);
  }

  method PlayTrackFromAlbumOn(session: Session, album: Option<int>, domIds: seq<int>, trackId: int,
                              fetchedAll: seq<Track>, fetched: Option<Track>, allowed: bool, base: string)
    modifies session
    ensures session.Model() == PlayTrackFromAlbum(old(session.Model()), album, domIds, trackId, fetchedAll, fetched, allowed, base)
  {
    if album.Some? {
      EnsureTracks(session, fetchedAll);
      RunPlan(session, ClickPlan(AlbumTracksOf(session.windowTracks.value, album.value), trackId), fetched, allowed, base);
    } else if |domIds| == 0 || PositionOf(domIds, trackId) == -1 {
      session.PlayTrack(trackId, fetched, allowed, base);
    } else {
      EnsureTracks(session, fetchedAll);
      RunPlan(session, DomClickPlan(session.windowTracks.value, domIds, trackId), fetched, allowed, base);
    }
  }

  method PlayArtistTracksOn(session: Session, artistId: int, fetchedAll: seq<Track>,
                            fetched: Option<Track>, allowed: bool, base: string)
    modifies session
    ensures session.Model() == PlayArtistTracks(old(session.Model()), artistId, fetchedAll, fetched, allowed, base)
  {
    EnsureTracks(session, fetchedAll);
    RunPlan(session, StartPlan(ArtistTracks(session.windowTracks.value, artistId)), fetched, allowed, base);
  }

  method PlayTrackFromArtistOn(session: Session, artistId: int, trackId: int, fetchedAll: seq<Track>,
                               fetched: Option<Track>, allowed: bool, base: string)
    modifies session
    ensures session.Model() == PlayTrackFromArtist(old(session.Model()), artistId, trackId, fetchedAll, fetched, allowed, base)
  {
    EnsureTracks(session, fetchedAll);
    RunPlan(session, ClickPlan(ArtistTracks(session.windowTracks.value, artistId), trackId), fetched, allowed, base);
  }

  method PlayPlaylistOn(session: Session, entries: seq<Entry>, fetchedAll: seq<Track>,
                        fetched: Option<Track>, allowed: bool, base: string)
    modifies session
    ensures session.Model() == PlayPlaylist(old(session.Model()), entries, fetchedAll, fetched, allowed, base)
  {
    EnsureTracks(session, fetchedAll);
    RunPlan(session, StartPlan(ResolvePlaylist(session.windowTracks.value, entries)), fetched, allowed, base);
  }

  method PlayTrackFromPlaylistOn(session: Session, trackId: int, entries: seq<Entry>, fetchedAll: seq<Track>,
                                 fetched: Option<Track>, allowed: bool, base: string)
    modifies session
    ensures session.Model() == PlayTrackFromPlaylist(old(session.Model()), trackId, entries, fetchedAll, fetched, allowed, base)
  {
    EnsureTracks(session, fetchedAll);
    RunPlan(session, ClickPlan(ResolvePlaylist(session.windowTracks.value, entries), trackId), fetched, allowed, base);
  }

  method PlayGenreTracksOn(session: Session, genre: string, picks: seq<nat>, fetchedAll: seq<Track>,
                           fetched: Option<Track>, allowed: bool, base: string)
    modifies session
    ensures session.Model() == PlayGenreTracks(old(session.Model()), genre, picks, fetchedAll, fetched, allowed, base)
  {
    EnsureTracks(session, fetchedAll);
    var shuffled := Shuffle(GenreTracks(session.windowTracks.value, genre), picks);
    RunPlan(session, GenrePlayPlan(shuffled), fetched, allowed, base);
  }

  method PlayTrackFromGenreOn(session: Session, genre: string, trackId: int, picks: seq<nat>, fetchedAll: seq<Track>,
                              fetched: Option<Track>, allowed: bool, base: string)
    modifies session
    ensures session.Model() == PlayTrackFromGenre(old(session.Model()), genre, trackId, picks, fetchedAll, fetched, allowed, base)
  {
    EnsureTracks(session, fetchedAll);
    var shuffled := Shuffle(GenreTracks(session.windowTracks.value, genre), picks);
    RunPlan(session, GenreClickPlan(shuffled, trackId), fetched, allowed, base);
  }
}
