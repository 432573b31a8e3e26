/** `FileController`: streaming and downloading a track's audio file, the
    artwork routes with their redirect and fallback decisions, and the upload
    handlers that write a file and record its path on the entity. The file
    system is a set of existing paths; `Files.probeContentType` is a map
    from path to the type it detects. */
module FileRoutes {
  import opened Wrappers
  import opened Text
  import opened Downloads
  import opened TrackStore
  import opened AlbumStore
  import opened ArtistStore

  /** The `@Value` defaults of the upload directories. */
  const TracksDir := "uploads/tracks"
  const ArtworkDir := "uploads/artwork"

  const EmptyFile := "File is empty"
  const EmptyUrl := "URL не может быть пустым"

  /** The responses the controller builds. */
  datatype Response =
    | Stream(contentType: string, disposition: string, path: string)  // 200 with the file as body
    | Image(contentType: string, path: string)                        // 200 with the image as body
    | Found(location: string)                                         // 302 with a Location header
    | NotFound                                                        // 404, also the "default artwork"
    | BadRequest(message: string)                                     // 400
    | Done(message: string)                                           // 200 with a text body
    | ServerError                                                     // 500

  function Status(r: Response): int {
    match r
    case Stream(_, _, _) => 200
    case Image(_, _) => 200
    case Found(_) => 302
    case NotFound => 404
    case BadRequest(_) => 400
    case Done(_) => 200
    case ServerError => 500
  }

  /** `Paths.get(a, b).toString()` on a file system whose separator is '/'. */
  function Join(a: string, b: string): string {
    a + "/" + b
  }

  /** A Java string concatenation renders null as "null". */
  function Shown(s: Option<string>): string {
    s.GetOr("null")
  }

  predicate IsPresent(s: Option<string>) {
    s.Some? && s.value != ""
  }

  // ---------------------------------------------------------------------------
  // Audio

  const AudioSuffixes: set<string> := {".mp3", ".wav", ".ogg", ".m4a", ".flac"}

  /** The streamed content type, chosen by the lower-cased suffix. */
  function AudioContentType(path: string): (ct: string)
    ensures EndsWith(Lower(path), ".mp3") ==> ct == "audio/mpeg"
    ensures EndsWith(Lower(path), ".wav") ==> ct == "audio/wav"
    ensures EndsWith(Lower(path), ".ogg") ==> ct == "audio/ogg"
    ensures EndsWith(Lower(path), ".m4a") ==> ct == "audio/mp4"
    ensures EndsWith(Lower(path), ".flac") ==> ct == "audio/flac"
    ensures ct in {"audio/mpeg", "audio/wav", "audio/ogg", "audio/mp4", "audio/flac"}
    ensures ct == "audio/mpeg" <==>
              EndsWith(Lower(path), ".mp3") || !(EndsWith(Lower(path), ".wav") || EndsWith(Lower(path), ".ogg")
              || EndsWith(Lower(path), ".m4a") || EndsWith(Lower(path), ".flac"))
  {
    var lower := Lower(path);
    SuffixesDisjoint(lower);
    if EndsWith(lower, ".mp3") then "audio/mpeg"
    else if EndsWith(lower, ".wav") then "audio/wav"
    else if EndsWith(lower, ".ogg") then "audio/ogg"
    else if EndsWith(lower, ".m4a") then "audio/mp4"
    else if EndsWith(lower, ".flac") then "audio/flac"
    else "audio/mpeg"
  }

  /** Two suffixes of one string end in the same character, so no string
      ends with two of the audio suffixes. */
  lemma SuffixesDisjoint(s: string)
    ensures forall a, b :: a in AudioSuffixes && b in AudioSuffixes && a != b ==> !(EndsWith(s, a) && EndsWith(s, b))
  {
    forall a, b | a in AudioSuffixes && b in AudioSuffixes && a != b && EndsWith(s, a)
      ensures !EndsWith(s, b)
    {
      assert s[|s| - 1] == a[|a| - 1];
    }
  }

  /** The characters `replaceAll("[^a-zA-Z0-9.-]", "_")` keeps. */
  predicate SafeChar(c: char) {
    ('a' <= c <= 'z') || ('A' <= c <= 'Z') || ('0' <= c <= '9') || c == '.' || c == '-'
  }

  /** `replaceAll("[^a-zA-Z0-9.-]", "_")`. */
  function Sanitize(s: string): (r: string)
    ensures |r| == |s|
    ensures forall i :: 0 <= i < |s| ==> r[i] == if SafeChar(s[i]) then s[i] else '_'
  {
    if |s| == 0 then [] else [if SafeChar(s[0]) then s[0] else '_'] + Sanitize(s[1..])
  }

  /** The name `downloadTrack` offers: the title plus ".mp3", sanitised. */
  function DownloadName(title: Option<string>): (r: string)
    ensures |r| == |Shown(title)| + 4
    ensures EndsWith(r, ".mp3")
    ensures forall i :: 0 <= i < |r| ==> SafeChar(r[i]) || r[i] == '_'
    ensures forall i :: 0 <= i < |Shown(title)| && SafeChar(Shown(title)[i]) ==> r[i] == Shown(title)[i]
  {
    var t := Shown(title) + ".mp3";
    var r := Sanitize(t);
    assert t[|t| - 4..] == ".mp3";
    assert forall i :: |t| - 4 <= i < |t| ==> SafeChar(t[i]);
    assert r[|r| - 4..] == t[|t| - 4..];
    assert r[|r| - 4..] == ".mp3";
    r
  }

  /** The Content-Disposition header of a download. */
  function Attachment(filename: string): string {
    "attachment; filename=\"" + filename + "\""
  }

  /** `getTrackFile`: an unknown id throws inside the `try` and gives 500; a
      missing or empty path, or a path with no file, gives 404. */
  function TrackFile(tracks: map<int, TrackRecord>, disk: set<string>, trackId: int): (r: Response)
    ensures r == ServerError <==> trackId !in tracks
    ensures r == NotFound <==>
              trackId in tracks && (!IsPresent(tracks[trackId].filePath) || tracks[trackId].filePath.value !in disk)
    ensures r.Stream? ==>
              r.path == tracks[trackId].filePath.value && r.path in disk
              && r.contentType == AudioContentType(r.path)
              && r.disposition == "inline; filename=\"" + Shown(tracks[trackId].title) + "\""
  {
    if trackId !in tracks then ServerError
    else
      var track := tracks[trackId];
      if !IsPresent(track.filePath) then NotFound
      else if track.filePath.value !in disk then NotFound
      else Stream(AudioContentType(track.filePath.value),
                  "inline; filename=\"" + Shown(track.title) + "\"", track.filePath.value)
  }

  /** `downloadTrack`: the same checks, then the file as an attachment. */
  function TrackDownload(tracks: map<int, TrackRecord>, disk: set<string>, trackId: int): (r: Response)
    ensures r == ServerError <==> trackId !in tracks
    ensures r == NotFound <==>
              trackId in tracks && (!IsPresent(tracks[trackId].filePath) || tracks[trackId].filePath.value !in disk)
    ensures r.Stream? ==>
              r.path == tracks[trackId].filePath.value && r.path in disk
              && r.contentType == "application/octet-stream"
              && r.disposition == Attachment(DownloadName(tracks[trackId].title))
  {
    if trackId !in tracks then ServerError
    else
      var track := tracks[trackId];
      if !IsPresent(track.filePath) then NotFound
      else if track.filePath.value !in disk then NotFound
      else Stream("application/octet-stream", Attachment(DownloadName(track.title)), track.filePath.value)
  }

  /** The two routes refuse the same requests and serve the same file. */
  lemma DownloadMatchesStream(tracks: map<int, TrackRecord>, disk: set<string>, trackId: int)
    ensures Status(TrackDownload(tracks, disk, trackId)) == Status(TrackFile(tracks, disk, trackId))
    ensures TrackDownload(tracks, disk, trackId).Stream? ==>
              TrackDownload(tracks, disk, trackId).path == TrackFile(tracks, disk, trackId).path
  {
  }

  // ---------------------------------------------------------------------------
  // Artwork

  /** One tier of an artwork lookup: an http(s) path redirects, a path with
      a file is served with its probed type (image/jpeg when none is
      detected); an absent or empty path, or one with no file, decides
      nothing. */
  function Tier(path: Option<string>, disk: set<string>, probed: map<string, string>): (r: Option<Response>)
    ensures r.None? <==> !IsPresent(path) || (!IsHttpUrl(path.value) && path.value !in disk)
    ensures r.Some? && IsHttpUrl(path.value) ==> r.value == Found(path.value)
    ensures r.Some? && !IsHttpUrl(path.value) ==>
              r.value == Image(if path.value in probed then probed[path.value] else "image/jpeg", path.value)
  {
    if !IsPresent(path) then None
    else if IsHttpUrl(path.value) then Some(Found(path.value))
    else if path.value in disk then
      Some(Image(if path.value in probed then probed[path.value] else "image/jpeg", path.value))
    else None
  }

  /** `getAlbumArtwork`: every failure, including an unknown id, is the
      default artwork, a 404. */
  function AlbumArtwork(albums: map<int, AlbumRecord>, disk: set<string>, probed: map<string, string>,
                        albumId: int): (r: Response)
    ensures albumId !in albums ==> r == NotFound
    ensures albumId in albums ==> r == Tier(albums[albumId].artworkPath, disk, probed).GetOr(NotFound)
    ensures Status(r) == 200 || Status(r) == 302 || Status(r) == 404
  {
    if albumId !in albums then NotFound
    else Tier(albums[albumId].artworkPath, disk, probed).GetOr(NotFound)
  }

  /** `getArtistImage`, the same decision over the artist's image path. */
  function ArtistImage(artists: map<int, ArtistRecord>, disk: set<string>, probed: map<string, string>,
                       artistId: int): (r: Response)
    ensures artistId !in artists ==> r == NotFound
    ensures artistId in artists ==> r == Tier(artists[artistId].imagePath, disk, probed).GetOr(NotFound)
    ensures Status(r) == 200 || Status(r) == 302 || Status(r) == 404
  {
    if artistId !in artists then NotFound
    else Tier(artists[artistId].imagePath, disk, probed).GetOr(NotFound)
  }

  /** `getTrackArtwork`: the track's own artwork, then its album's, else
      404. The artist image is never consulted. */
  function TrackArtwork(tracks: map<int, TrackRecord>, albums: map<int, AlbumRecord>, disk: set<string>,
                        probed: map<string, string>, trackId: int): (r: Response)
    ensures trackId !in tracks ==> r == NotFound
    ensures trackId in tracks && Tier(tracks[trackId].artworkPath, disk, probed).Some? ==>
              r == Tier(tracks[trackId].artworkPath, disk, probed).value
    ensures Status(r) == 200 || Status(r) == 302 || Status(r) == 404
  {
    if trackId !in tracks then NotFound
    else
      var track := tracks[trackId];
      var own := Tier(track.artworkPath, disk, probed);
      if own.Some? then own.value
      else if track.albumId.Some? && track.albumId.value in albums then
        Tier(albums[track.albumId.value].artworkPath, disk, probed).GetOr(NotFound)
      else NotFound
  }

  /** When the track's own artwork decides nothing, the track route answers
      exactly as the album route does for the track's album. */
  lemma TrackArtworkFallsBackToAlbum(tracks: map<int, TrackRecord>, albums: map<int, AlbumRecord>,
                                     disk: set<string>, probed: map<string, string>, trackId: int)
    requires trackId in tracks && Tier(tracks[trackId].artworkPath, disk, probed).None?
    ensures tracks[trackId].albumId.Some? ==>
              TrackArtwork(tracks, albums, disk, probed, trackId)
                == AlbumArtwork(albums, disk, probed, tracks[trackId].albumId.value)
    ensures tracks[trackId].albumId.None? ==> TrackArtwork(tracks, albums, disk, probed, trackId) == NotFound
  {
  }

  /** An http(s) artwork path always redirects to itself, whether or not a
      file of that name exists. */
  lemma HttpArtworkRedirects(albums: map<int, AlbumRecord>, disk: set<string>, probed: map<string, string>,
                             albumId: int)
    requires albumId in albums && albums[albumId].artworkPath.Some?
    requires IsHttpUrl(albums[albumId].artworkPath.value)
    ensures AlbumArtwork(albums, disk, probed, albumId) == Found(albums[albumId].artworkPath.value)
    ensures Status(AlbumArtwork(albums, disk, probed, albumId)) == 302
  {
  }

  // ---------------------------------------------------------------------------
  // Uploads

  /** A `MultipartFile` as the handlers see it. */
  datatype Upload = Upload(isEmpty: bool, originalFilename: Option<string>)

  /** `name.substring(name.lastIndexOf("."))`: the suffix from the last '.';
      a null name or one without '.' throws (None). */
  function Extension(name: Option<string>): (r: Option<string>)
    ensures r.None? <==> name.None? || forall i :: 0 <= i < |name.value| ==> name.value[i] != '.'
    ensures r.Some? ==> EndsWith(name.value, r.value) && |r.value| >= 1 && r.value[0] == '.'
    ensures r.Some? ==> forall i :: 0 < i < |r.value| ==> r.value[i] != '.'
  {
    if name.None? then None
    else
      var dot := LastIndexOf(name.value, '.');
      if dot == -1 then None else Some(name.value[dot..])
  }

  /** Where an uploaded audio file is written. */
  function TrackFilePath(trackId: int, extension: string): string {
    Join(Join(TracksDir, IntToString(trackId)), "track" + extension)
  }

  /** Where an uploaded image is written, in `kind` = albums, artists or tracks. */
  function ArtworkFilePath(kind: string, id: int, extension: string): string {
    Join(Join(ArtworkDir, kind), IntToString(id) + extension)
  }

  /** Each track has a directory of its own: two upload paths are equal only
      for the same track and the same extension, so the `REPLACE_EXISTING`
      copy never overwrites another track's file. */
  lemma TrackFilePathsDistinct(a: int, b: int, e1: string, e2: string)
    requires TrackFilePath(a, e1) == TrackFilePath(b, e2)
    ensures a == b && e1 == e2
  {
    var pre := TracksDir + "/";
    TrackPathShape(a, e1);
    TrackPathShape(b, e2);
    DropPrefix(pre, IntToString(a) + ("/track" + e1), IntToString(b) + ("/track" + e2));
    IntToStringPrefixUnique(a, b, "/track" + e1, "/track" + e2);
    DropPrefix("/track", e1, e2);
  }

  /** The upload path as a prefix, the id and the file name. */
  lemma TrackPathShape(a: int, e: string)
    ensures TrackFilePath(a, e) == (TracksDir + "/") + (IntToString(a) + ("/track" + e))
  {
  }

  /** A common prefix cancels. */
  lemma DropPrefix(p: string, u: string, v: string)
    requires p + u == p + v
    ensures u == v
  {
    assert u == (p + u)[|p|..] && v == (p + v)[|p|..];
  }

  /** Within one kind, an image's path determines the entity's id and the
      extension, for extensions that do not start with a digit (those
      `Extension` returns start with '.'). */
  lemma ArtworkFilePathsDistinct(kind: string, a: int, b: int, e1: string, e2: string)
    requires |e1| > 0 ==> !IsDigit(e1[0])
    requires |e2| > 0 ==> !IsDigit(e2[0])
    requires ArtworkFilePath(kind, a, e1) == ArtworkFilePath(kind, b, e2)
    ensures a == b && e1 == e2
  {
    var pre := ArtworkDir + "/" + kind + "/";
    var u, v := IntToString(a) + e1, IntToString(b) + e2;
    assert ArtworkFilePath(kind, a, e1) == pre + u && ArtworkFilePath(kind, b, e2) == pre + v;
    assert u == (pre + u)[|pre|..] && v == (pre + v)[|pre|..];
    IntToStringPrefixUnique(a, b, e1, e2);
  }

  /** The path recorded on the entity: every '\' turned into '/'. */
  function Stored(path: string): (r: string)
    ensures |r| == |path| && forall i :: 0 <= i < |r| ==> r[i] != '\\'
    ensures forall i :: 0 <= i < |r| && path[i] != '\\' ==> r[i] == path[i]
  {
    ReplaceChar(path, '\\', '/')
  }

  /** The track row after a file landed at `path`: the stored path, and the
      detected duration when it is positive. */
  function WithFile(r: TrackRecord, path: string, detected: Option<int>): TrackRecord {
    r.(filePath := Some(Stored(path)),
       durationSeconds := if detected.Some? && detected.value > 0 then detected else r.durationSeconds)
  }

  /** The upload handlers' success message. */
  function UploadMessage(prefix: string, path: string, duration: Option<int>): string {
    prefix + path + (if duration.Some? then " (Duration: " + IntToString(duration.value) + "s)" else "")
  }

  /** Uploading twice with the same name and duration leaves what uploading
      once did: the file is replaced and the row is rewritten the same way. */
  lemma WithFileIdempotent(r: TrackRecord, path: string, detected: Option<int>)
    ensures WithFile(WithFile(r, path, detected), path, detected) == WithFile(r, path, detected)
  {
  }

  class FileController {
    const tracks: TrackService
    const albums: AlbumService
    const artists: ArtistService
    /** The paths that exist on disk. */
    var disk: set<string>
    /** What `Files.probeContentType` reports for a path, where it reports anything. */
    const probed: map<string, string>

    constructor (tracks: TrackService, albums: AlbumService, artists: ArtistService,
                 disk: set<string>, probed: map<string, string>)
      ensures this.tracks == tracks && this.albums == albums && this.artists == artists
      ensures this.disk == disk && this.probed == probed
    {
      this.tracks := tracks;
      this.albums := albums;
      this.artists := artists;
      this.disk := disk;
      this.probed := probed;
    }

    /** The common tail of both audio uploads: the file exists at `path`
        afterwards and the track row records it. */
    method SaveTrackFile(trackId: int, path: string, detected: Option<int>, prefix: string) returns (r: Response)
      requires tracks.Valid() && trackId in tracks.rows
      modifies this, tracks
      ensures tracks.Valid() && tracks.nextId == old(tracks.nextId)
      ensures disk == old(disk) + {path}
      ensures tracks.rows == old(tracks.rows)[trackId := WithFile(old(tracks.rows)[trackId], path, detected)]
      ensures r == Done(UploadMessage(prefix, path, tracks.rows[trackId].durationSeconds))
    {
      disk := disk + {path};
      var track := WithFile(tracks.rows[trackId], path, detected);
      tracks.rows := tracks.rows[trackId := track];
      r := Done(UploadMessage(prefix, path, track.durationSeconds));
    }

    /** `uploadTrackFile`: 500 for an unknown track or a name without '.',
        400 for an empty file, else the file is written and the row updated.
        `detected` is what the duration probe returns (None when it fails). */
    method UploadTrackFile(trackId: int, file: Upload, detected: Option<int>) returns (r: Response)
      requires tracks.Valid()
      modifies this, tracks
      ensures tracks.Valid() && tracks.nextId == old(tracks.nextId)
      ensures trackId !in old(tracks.rows) ==>
                r == ServerError && tracks.rows == old(tracks.rows) && disk == old(disk)
      ensures trackId in old(tracks.rows) && file.isEmpty ==>
                r == BadRequest(EmptyFile) && tracks.rows == old(tracks.rows) && disk == old(disk)
      ensures trackId in old(tracks.rows) && !file.isEmpty && Extension(file.originalFilename).None? ==>
                r == ServerError && tracks.rows == old(tracks.rows) && disk == old(disk)
      ensures trackId in old(tracks.rows) && !file.isEmpty && Extension(file.originalFilename).Some? ==>
                var path := TrackFilePath(trackId, Extension(file.originalFilename).value);
                disk == old(disk) + {path}
                && tracks.rows == old(tracks.rows)[trackId := WithFile(old(tracks.rows)[trackId], path, detected)]
                && r == Done(UploadMessage("File uploaded successfully: ", path, tracks.rows[trackId].durationSeconds))
    {
      if trackId !in tracks.rows {
        return ServerError;
      }
      if file.isEmpty {
        return BadRequest(EmptyFile);
      }
      var extension := Extension(file.originalFilename);
      if extension.None? {
        return ServerError;
      }
      var path := TrackFilePath(trackId, extension.value);
      r := SaveTrackFile(trackId, path, detected, "File uploaded successfully: ");
    }

    /** `downloadTrackFromUrl`: 500 for an unknown track, 400 for a null or
        blank URL, 500 when `downloadFile` refuses the URL or the transfer
        fails (`fetched` is false); otherwise the file is saved under the
        extension the URL names and the row updated. */
    method DownloadTrackFromUrl(trackId: int, url: Option<string>, fetched: bool, detected: Option<int>)
      returns (r: Response)
      requires tracks.Valid()
      modifies this, tracks
      ensures tracks.Valid() && tracks.nextId == old(tracks.nextId)
      ensures trackId !in old(tracks.rows) ==>
                r == ServerError && tracks.rows == old(tracks.rows) && disk == old(disk)
      ensures trackId in old(tracks.rows) && (url.None? || IsJavaBlank(url.value)) ==>
                r == BadRequest(EmptyUrl) && tracks.rows == old(tracks.rows) && disk == old(disk)
      ensures trackId in old(tracks.rows) && url.Some? && !IsJavaBlank(url.value)
              && (!IsHttpUrl(url.value) || !fetched) ==>
                r == ServerError && tracks.rows == old(tracks.rows) && disk == old(disk)
      ensures trackId in old(tracks.rows) && url.Some? && IsHttpUrl(url.value) && fetched ==>
                var path := TrackFilePath(trackId, ExtensionFromUrl(url));
                disk == old(disk) + {path}
                && tracks.rows == old(tracks.rows)[trackId := WithFile(old(tracks.rows)[trackId], path, detected)]
                && r == Done(UploadMessage("File downloaded successfully from URL: ", path,
                                           tracks.rows[trackId].durationSeconds))
    {
      if trackId !in tracks.rows {
        return ServerError;
      }
      if url.None? || IsJavaBlank(url.value) {
        return BadRequest(EmptyUrl);
      }
      var path := TrackFilePath(trackId, ExtensionFromUrl(url));
      var checked := ValidateDownloadUrl(url);
      if checked.Err? || !fetched {
        return ServerError;
      }
      r := SaveTrackFile(trackId, path, detected, "File downloaded successfully from URL: ");
    }

    /** `uploadAlbumArtwork`: the image lands in the albums artwork folder and
        its path becomes the album's artwork path. */
    method UploadAlbumArtwork(albumId: int, file: Upload) returns (r: Response)
      requires albums.Valid()
      modifies this, albums
      ensures albums.Valid() && albums.nextId == old(albums.nextId)
      ensures albumId !in old(albums.rows) || file.isEmpty || Extension(file.originalFilename).None? ==>
                albums.rows == old(albums.rows) && disk == old(disk)
                && r == (if albumId in old(albums.rows) && file.isEmpty then BadRequest(EmptyFile) else ServerError)
      ensures albumId in old(albums.rows) && !file.isEmpty && Extension(file.originalFilename).Some? ==>
                var path := ArtworkFilePath("albums", albumId, Extension(file.originalFilename).value);
                disk == old(disk) + {path}
                && albums.rows == old(albums.rows)[albumId := old(albums.rows)[albumId].(artworkPath := Some(Stored(path)))]
                && r == Done("Artwork uploaded successfully: " + path)
    {
      if albumId !in albums.rows {
        return ServerError;
      }
      if file.isEmpty {
        return BadRequest(EmptyFile);
      }
      var extension := Extension(file.originalFilename);
      if extension.None? {
        return ServerError;
      }
      var path := ArtworkFilePath("albums", albumId, extension.value);
      disk := disk + {path};
      albums.rows := albums.rows[albumId := albums.rows[albumId].(artworkPath := Some(Stored(path)))];
      r := Done("Artwork uploaded successfully: " + path);
    }

    /** `uploadArtistImage`. */
    method UploadArtistImage(artistId: int, file: Upload) returns (r: Response)
      requires artists.Valid()
      modifies this, artists
      ensures artists.Valid() && artists.nextId == old(artists.nextId)
      ensures artistId !in old(artists.rows) || file.isEmpty || Extension(file.originalFilename).None? ==>
                artists.rows == old(artists.rows) && disk == old(disk)
                && r == (if artistId in old(artists.rows) && file.isEmpty then BadRequest(EmptyFile) else ServerError)
      ensures artistId in old(artists.rows) && !file.isEmpty && Extension(file.originalFilename).Some? ==>
                var path := ArtworkFilePath("artists", artistId, Extension(file.originalFilename).value);
                disk == old(disk) + {path}
                && artists.rows == old(artists.rows)[artistId := old(artists.rows)[artistId].(imagePath := Some(Stored(path)))]
                && r == Done("Image uploaded successfully: " + path)
    {
      if artistId !in artists.rows {
        return ServerError;
      }
      if file.isEmpty {
        return BadRequest(EmptyFile);
      }
      var extension := Extension(file.originalFilename);
      if extension.None? {
        return ServerError;
      }
      var path := ArtworkFilePath("artists", artistId, extension.value);
      disk := disk + {path};
      artists.rows := artists.rows[artistId := artists.rows[artistId].(imagePath := Some(Stored(path)))];
      r := Done("Image uploaded successfully: " + path);
    }

    /** `uploadTrackArtwork`. */
    method UploadTrackArtwork(trackId: int, file: Upload) returns (r: Response)
      requires tracks.Valid()
      modifies this, tracks
      ensures tracks.Valid() && tracks.nextId == old(tracks.nextId)
      ensures trackId !in old(tracks.rows) || file.isEmpty || Extension(file.originalFilename).None? ==>
                tracks.rows == old(tracks.rows) && disk == old(disk)
                && r == (if trackId in old(tracks.rows) && file.isEmpty then BadRequest(EmptyFile) else ServerError)
      ensures trackId in old(tracks.rows) && !file.isEmpty && Extension(file.originalFilename).Some? ==>
                var path := ArtworkFilePath("tracks", trackId, Extension(file.originalFilename).value);
                disk == old(disk) + {path}
                && tracks.rows == old(tracks.rows)[trackId := old(tracks.rows)[trackId].(artworkPath := Some(Stored(path)))]
                && r == Done("Artwork uploaded successfully: " + path)
    {
      if trackId !in tracks.rows {
        return ServerError;
      }
      if file.isEmpty {
        return BadRequest(EmptyFile);
      }
      var extension := Extension(file.originalFilename);
      if extension.None? {
        return ServerError;
      }
      var path := ArtworkFilePath("tracks", trackId, extension.value);
      disk := disk + {path};
      tracks.rows := tracks.rows[trackId := tracks.rows[trackId].(artworkPath := Some(Stored(path)))];
      r := Done("Artwork uploaded successfully: " + path);
    }
  }
}
