/** Client-side artwork resolution: the three-tier chain (the track's own
    artwork, then its album's, then its artist's image) that the catalogue
    page, the player bar and every detail page use, and the playlist cover
    URL. A path that is already an http(s) URL is used verbatim; any other
    stored path is served through the backend's `/api/files/artwork/...`
    endpoints. */
module Artwork {
  import opened Wrappers
  import opened Text
  import opened Catalog

  /** `p && p.trim() !== ''`: a stored image path worth showing. */
  predicate HasImage(p: Option<string>) {
    p.Some? && !IsJsBlank(p.value)
  }

  function Endpoint(base: string, kind: string, id: int): string {
    base + "/api/files/artwork/" + kind + "/" + IntToString(id)
  }

  /** An http(s) path verbatim, any other path through the endpoint. */
  function Served(path: string, base: string, kind: string, id: int): string {
    if IsHttpUrl(path) then path else Endpoint(base, kind, id)
  }

  /** The album the second tier consults: only when the track names an album
      and `window.albums` is non-empty. */
  function AlbumWithImage(t: Track, albums: seq<Album>): (r: Option<Album>)
    ensures r.Some? ==> r.value in albums && r.value.id == t.albumId && t.albumId != 0
                        && HasImage(r.value.artworkPath)
  {
    if t.albumId != 0 && |albums| > 0 then
      match FindAlbum(albums, t.albumId)
      case Some(a) => if HasImage(a.artworkPath) then Some(a) else None
      case None => None
    else None
  }

  function ArtistWithImage(t: Track, artists: seq<Artist>): (r: Option<Artist>)
    ensures r.Some? ==> r.value in artists && r.value.id == t.artistId && t.artistId != 0
                        && HasImage(r.value.imagePath)
  {
    if t.artistId != 0 && |artists| > 0 then
      match FindArtist(artists, t.artistId)
      case Some(a) => if HasImage(a.imagePath) then Some(a) else None
      case None => None
    else None
  }

  /** No tier has an image: the caller shows the music-note icon. */
  predicate NoArtwork(t: Track, albums: seq<Album>, artists: seq<Artist>) {
    !HasImage(t.artworkPath) && AlbumWithImage(t, albums).None? && ArtistWithImage(t, artists).None?
  }

  /** `getArtworkUrl(track)` of the catalogue page. */
  function ArtworkUrl(base: string, track: Option<Track>, albums: seq<Album>, artists: seq<Artist>): (url: string)
    ensures url == "" <==> track.None? || NoArtwork(track.value, albums, artists)
    ensures track.Some? && HasImage(track.value.artworkPath) ==>
              url == Served(track.value.artworkPath.value, base, "tracks", track.value.id)
  {
    if track.None? then ""
    else
      var t := track.value;
      if HasImage(t.artworkPath) then Served(t.artworkPath.value, base, "tracks", t.id)
      else match AlbumWithImage(t, albums)
        case Some(a) => Served(a.artworkPath.value, base, "albums", a.id)
        case None =>
          match ArtistWithImage(t, artists)
          case Some(a) => Served(a.imagePath.value, base, "artists", a.id)
          case None => ""
  }

  /** What the player bar shows. */
  datatype ArtworkView = Image(url: string) | MusicIcon

  /** `updateArtwork(track)` of the player, written the way the player writes
      it: each tier runs only while no URL has been chosen yet. */
  function PlayerArtwork(base: string, track: Option<Track>, albums: seq<Album>, artists: seq<Artist>): ArtworkView {
    if track.None? then MusicIcon
    else
      var t := track.value;
      var fromTrack: Option<string> :=
        if HasImage(t.artworkPath) then Some(Served(t.artworkPath.value, base, "tracks", t.id)) else None;
      var fromAlbum: Option<string> :=
        if fromTrack.None? && t.albumId != 0 && |albums| > 0 then
          match FindAlbum(albums, t.albumId)
          case Some(a) =>
            if HasImage(a.artworkPath) then Some(Served(a.artworkPath.value, base, "albums", a.id)) else None
          case None => None
        else fromTrack;
      var chosen: Option<string> :=
        if fromAlbum.None? && t.artistId != 0 && |artists| > 0 then
          match FindArtist(artists, t.artistId)
          case Some(a) =>
            if HasImage(a.imagePath) then Some(Served(a.imagePath.value, base, "artists", a.id)) else None
          case None => None
        else fromAlbum;
      if chosen.Some? && chosen.value != "" then Image(chosen.value) else MusicIcon
  }

  /** The player bar shows exactly the catalogue's URL, or the icon when that
      URL is empty. */
  lemma PlayerArtworkAgrees(base: string, track: Option<Track>, albums: seq<Album>, artists: seq<Artist>)
    ensures PlayerArtwork(base, track, albums, artists)
         == (var u := ArtworkUrl(base, track, albums, artists); if u == "" then MusicIcon else Image(u))
  {
  }

  /** `getArtworkUrl(track)` of the album, artist, track and genre pages: the
      same chain, except that a tier whose record id is falsy falls through
      instead of producing an endpoint URL. */
  function PageArtworkUrl(base: string, track: Option<Track>, albums: seq<Album>, artists: seq<Artist>): (url: string)
    ensures track.Some? && NoArtwork(track.value, albums, artists) ==> url == ""
  {
    if track.None? then ""
    else
      var t := track.value;
      if HasImage(t.artworkPath) && IsHttpUrl(t.artworkPath.value) then t.artworkPath.value
      else if HasImage(t.artworkPath) && t.id != 0 then Endpoint(base, "tracks", t.id)
      else
        var album := if t.albumId != 0 && |albums| > 0 then FindAlbum(albums, t.albumId) else None;
        if album.Some? && HasImage(album.value.artworkPath) && IsHttpUrl(album.value.artworkPath.value) then
          album.value.artworkPath.value
        else if album.Some? && HasImage(album.value.artworkPath) && album.value.id != 0 then
          Endpoint(base, "albums", album.value.id)
        else
          var artist := if t.artistId != 0 && |artists| > 0 then FindArtist(artists, t.artistId) else None;
          if artist.Some? && HasImage(artist.value.imagePath) && IsHttpUrl(artist.value.imagePath.value) then
            artist.value.imagePath.value
          else if artist.Some? && HasImage(artist.value.imagePath) && artist.value.id != 0 then
            Endpoint(base, "artists", artist.value.id)
          else ""
  }

  /** The page copies agree with the catalogue's resolver on every track whose
      id is truthy: the album and artist id guards can never fire, because the
      record found has the (truthy) id the track names. */
  lemma {:induction false} PageArtworkAgrees(base: string, t: Track, albums: seq<Album>, artists: seq<Artist>)
    requires t.id != 0
    ensures PageArtworkUrl(base, Some(t), albums, artists) == ArtworkUrl(base, Some(t), albums, artists)
  {
    if !HasImage(t.artworkPath) {
      if t.albumId != 0 && |albums| > 0 {
        var found := FindAlbum(albums, t.albumId);
        assert found.Some? ==> found.value.id != 0;
      }
      if t.artistId != 0 && |artists| > 0 {
        var found := FindArtist(artists, t.artistId);
        assert found.Some? ==> found.value.id != 0;
      }
    }
  }

  /** They differ on a track without an id: the page copies skip a local track
      path, the catalogue builds `/tracks/0`. */
  lemma PageArtworkDiffersWithoutId(base: string)
    ensures var t := Track(0, "t", 0, 0, "", 0, None, Some("cover.jpg"), 0, None, None, None, None);
            PageArtworkUrl(base, Some(t), [], []) == ""
            && ArtworkUrl(base, Some(t), [], []) == base + "/api/files/artwork/tracks/0"
  {
    var t := Track(0, "t", 0, 0, "", 0, None, Some("cover.jpg"), 0, None, None, None, None);
    assert !IsJsSpace(t.artworkPath.value[0]);
    assert !StartsWith("cover.jpg", "http://") && !StartsWith("cover.jpg", "https://") by {
      assert "cover.jpg"[..1] != "h";
    }
  }

  /** `getArtworkUrl` of the playlist page, when it cannot delegate: only the
      track's own path, without the blank check and without albums or artists. */
  function PlaylistPageFallbackUrl(base: string, track: Option<Track>): (url: string)
    ensures url != "" ==> track.Some? && Truthy(track.value.artworkPath)
  {
    if track.None? then ""
    else
      var t := track.value;
      if Truthy(t.artworkPath) && IsHttpUrl(t.artworkPath.value) then t.artworkPath.value
      else if Truthy(t.artworkPath) && t.id != 0 then Endpoint(base, "tracks", t.id)
      else ""
  }

  /** The playlist page delegates to the catalogue's resolver when that global
      is a different function and does not throw. */
  function PlaylistPageArtworkUrl(delegates: bool, globalThrows: bool, base: string, track: Option<Track>,
                                  albums: seq<Album>, artists: seq<Artist>): string
  {
    if delegates && !globalThrows then ArtworkUrl(base, track, albums, artists)
    else PlaylistPageFallbackUrl(base, track)
  }

  /** On a track with an id and a non-blank path of its own, the fallback
      agrees with the catalogue's resolver. */
  lemma PlaylistFallbackAgrees(base: string, t: Track, albums: seq<Album>, artists: seq<Artist>)
    requires t.id != 0 && HasImage(t.artworkPath)
    ensures PlaylistPageFallbackUrl(base, Some(t)) == ArtworkUrl(base, Some(t), albums, artists)
  {
  }

  /** Whether the playlist page delegates or not makes no difference for a
      track with an id and a non-blank path of its own; without delegation
      a track that has no path of its own shows no artwork at all. */
  lemma PlaylistPageArtworkAgrees(delegates: bool, globalThrows: bool, base: string, t: Track,
                                  albums: seq<Album>, artists: seq<Artist>)
    ensures t.id != 0 && HasImage(t.artworkPath) ==>
              PlaylistPageArtworkUrl(delegates, globalThrows, base, Some(t), albums, artists)
              == ArtworkUrl(base, Some(t), albums, artists)
    ensures (!delegates || globalThrows) && !Truthy(t.artworkPath) ==>
              PlaylistPageArtworkUrl(delegates, globalThrows, base, Some(t), albums, artists) == ""
  {
    if t.id != 0 && HasImage(t.artworkPath) {
      PlaylistFallbackAgrees(base, t, albums, artists);
    }
  }

  /** A whitespace-only path: the fallback still asks the track endpoint,
      the catalogue's resolver moves on to the album. */
  lemma PlaylistFallbackIgnoresBlank(base: string)
    ensures var t := Track(7, "t", 0, 3, "", 0, None, Some(" "), 0, None, None, None, None);
            var albums := [Album(3, 0, "a", Some("https://img/a.png"))];
            PlaylistPageFallbackUrl(base, Some(t)) == base + "/api/files/artwork/tracks/7"
            && ArtworkUrl(base, Some(t), albums, []) == "https://img/a.png"
  {
    var t := Track(7, "t", 0, 3, "", 0, None, Some(" "), 0, None, None, None, None);
    assert !StartsWith(" ", "http://") && !StartsWith(" ", "https://");
    assert IsJsBlank(" ");
    assert StartsWith("https://img/a.png", "https://") by {
      assert "https://img/a.png"[..8] == "https://";
    }
    assert !IsJsBlank("https://img/a.png") by {
      assert !IsJsSpace("https://img/a.png"[0]);
    }
  }

  /** `getPlaylistArtworkUrl(playlist)`: the playlist's own cover, verbatim
      when it is an http(s) URL, otherwise through `/api/files/playlists/{id}/image`. */
  function PlaylistArtworkUrl(base: string, p: Option<Playlist>): (url: string)
    ensures url == "" <==> p.None? || !Truthy(p.value.imagePath)
    ensures p.Some? && Truthy(p.value.imagePath) && IsHttpUrl(p.value.imagePath.value) ==>
              url == p.value.imagePath.value
    ensures p.Some? && Truthy(p.value.imagePath) && !IsHttpUrl(p.value.imagePath.value) ==>
              url == base + "/api/files/playlists/" + IntToString(p.value.id) + "/image"
  {
    if p.None? || !Truthy(p.value.imagePath) then ""
    else if IsHttpUrl(p.value.imagePath.value) then p.value.imagePath.value
    else base + "/api/files/playlists/" + IntToString(p.value.id) + "/image"
  }

  /** What `window.getArtworkUrl` is when the genre page's resolver runs. */
  datatype GlobalResolver =
    | NoGlobal        // no such global function
    | CatalogueGlobal // the catalogue page's resolver
    | SelfGlobal      // the genre page's own declaration took the global name
    | ThrowingGlobal  // the catalogue page's resolver, throwing

  /** The genre page's resolver, which guards its call to the global resolver
      with `window._getArtworkUrlCalling` so that it cannot recurse into itself. */
  class GenreArtwork {
    var calling: bool

    constructor ()
      ensures !calling
    {
      calling := false;
    }

    method Resolve(global: GlobalResolver, base: string, track: Option<Track>,
                   albums: seq<Album>, artists: seq<Artist>) returns (url: string)
      modifies this
      decreases if calling then 0 else 1
      ensures calling == old(calling)
      ensures url == if global == CatalogueGlobal && !old(calling) then ArtworkUrl(base, track, albums, artists)
                     else PageArtworkUrl(base, track, albums, artists)
    {
      if global != NoGlobal && !calling {
        calling := true;
        if global != ThrowingGlobal {
          var result: string;
          if global == CatalogueGlobal {
            result := ArtworkUrl(base, track, albums, artists);
          } else {
            result := Resolve(global, base, track, albums, artists);
          }
          calling := false;
          return result;
        }
        calling := false;
      }
      url := PageArtworkUrl(base, track, albums, artists);
    }
  }
}
