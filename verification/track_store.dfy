/** The catalog's track table and `TrackService`: the `Track` entity with
    its null-coalescing `isNewRelease` accessors and `@PrePersist` hook, and
    the service that creates, reads, partially updates and deletes rows of a
    repository modelled as a map from id to row. */
module TrackStore {
  import opened Wrappers
  import opened Text
  import opened TrackPlays

  /** A stored row of the `tracks` table: the id assigned on insert, the
      creation time stamped by `onCreate`, and a flag that is never null. */
  datatype TrackRecord = TrackRecord(
    id: int,
    albumId: Option<int>,
    artistId: Option<int>,
    title: Option<string>,
    durationSeconds: Option<int>,
    filePath: Option<string>,
    genre: Option<string>,
    artworkPath: Option<string>,
    createdAt: int,
    isNewRelease: bool)

  /** `TrackDTO`; every field may be null. */
  datatype TrackDto = TrackDto(
    id: Option<int>,
    albumId: Option<int>,
    artistId: Option<int>,
    title: Option<string>,
    durationSeconds: Option<int>,
    filePath: Option<string>,
    genre: Option<string>,
    artworkPath: Option<string>,
    createdAt: Option<int>,
    isNewRelease: Option<bool>,
    playCountDay: Option<int>,
    playCountWeek: Option<int>,
    playCountMonth: Option<int>,
    playCountAll: Option<int>)

  /** A DTO with every field null: an update that asks for nothing. */
  const NoChanges: TrackDto :=
    TrackDto(None, None, None, None, None, None, None, None, None, None, None, None, None, None)

  function NotFound(id: int): string {
    "Track not found with id: " + IntToString(id)
  }

  /** `Map.get` on the play-count map: null for a missing key. */
  function Get(counts: map<string, int>, key: string): Option<int> {
    if key in counts then Some(counts[key]) else None
  }

  /** The row `createTrack` inserts for `dto` under `id` at time `now`. */
  function Created(dto: TrackDto, id: int, now: int): (r: TrackRecord)
    ensures r.id == id && r.createdAt == now
    ensures r.albumId == dto.albumId && r.artistId == dto.artistId && r.title == dto.title
    ensures r.durationSeconds == dto.durationSeconds && r.filePath == dto.filePath
    ensures r.genre == dto.genre && r.artworkPath == dto.artworkPath
    ensures r.isNewRelease <==> dto.isNewRelease == Some(true)
  {
    TrackRecord(id, dto.albumId, dto.artistId, dto.title, dto.durationSeconds, dto.filePath,
                dto.genre, dto.artworkPath, now, dto.isNewRelease.GetOr(false))
  }

  /** The row `updateTrack` leaves: id and creation time kept, every other
      field overwritten exactly when the DTO carries a value for it. */
  function Merge(r: TrackRecord, dto: TrackDto): (m: TrackRecord)
    ensures m.id == r.id && m.createdAt == r.createdAt
    ensures m.title == Pick(dto.title, r.title) && m.artistId == Pick(dto.artistId, r.artistId)
    ensures m.albumId == Pick(dto.albumId, r.albumId)
    ensures m.durationSeconds == Pick(dto.durationSeconds, r.durationSeconds)
    ensures m.filePath == Pick(dto.filePath, r.filePath) && m.genre == Pick(dto.genre, r.genre)
    ensures m.artworkPath == Pick(dto.artworkPath, r.artworkPath)
    ensures m.isNewRelease == dto.isNewRelease.GetOr(r.isNewRelease)
  {
    TrackRecord(r.id, Pick(dto.albumId, r.albumId), Pick(dto.artistId, r.artistId),
                Pick(dto.title, r.title), Pick(dto.durationSeconds, r.durationSeconds),
                Pick(dto.filePath, r.filePath), Pick(dto.genre, r.genre),
                Pick(dto.artworkPath, r.artworkPath), r.createdAt,
                dto.isNewRelease.GetOr(r.isNewRelease))
  }

  /** `convertToDTO`, with the play counts looked up by their keys. */
  function ToDto(r: TrackRecord, counts: map<string, int>): TrackDto {
    TrackDto(Some(r.id), r.albumId, r.artistId, r.title, r.durationSeconds, r.filePath, r.genre,
             r.artworkPath, Some(r.createdAt), Some(r.isNewRelease),
             Get(counts, "day"), Get(counts, "week"), Get(counts, "month"), Get(counts, "all"))
  }

  /** The map `getPlayCounts` returns for `trackId` at `now`. */
  function PlayCounts(plays: seq<Play>, trackId: int, now: int): map<string, int> {
    map["all" := Count(plays, trackId, None), "day" := Count(plays, trackId, Some(now - Day)),
        "week" := Count(plays, trackId, Some(now - Week)), "month" := Count(plays, trackId, Some(now - Month))]
  }

  // ---------------------------------------------------------------------------
  // Properties of the update rule and of the DTO

  /** An update never turns a present field into null. */
  lemma MergeNeverClears(r: TrackRecord, dto: TrackDto)
    ensures r.title.Some? ==> Merge(r, dto).title.Some?
    ensures r.artistId.Some? ==> Merge(r, dto).artistId.Some?
    ensures r.albumId.Some? ==> Merge(r, dto).albumId.Some?
    ensures r.durationSeconds.Some? ==> Merge(r, dto).durationSeconds.Some?
    ensures r.filePath.Some? ==> Merge(r, dto).filePath.Some?
    ensures r.genre.Some? ==> Merge(r, dto).genre.Some?
    ensures r.artworkPath.Some? ==> Merge(r, dto).artworkPath.Some?
  {
  }

  /** Sending the same update twice leaves what sending it once did. */
  lemma MergeIdempotent(r: TrackRecord, dto: TrackDto)
    ensures Merge(Merge(r, dto), dto) == Merge(r, dto)
  {
  }

  /** An all-null update changes nothing. */
  lemma MergeNothing(r: TrackRecord)
    ensures Merge(r, NoChanges) == r
  {
  }

  /** The DTO that `createTrack` returns carries the fields that were sent,
      with a missing `isNewRelease` read back as false, and all four play
      counts filled from the play log. */
  lemma CreatedReadsBack(dto: TrackDto, id: int, now: int, plays: seq<Play>)
    ensures var out := ToDto(Created(dto, id, now), PlayCounts(plays, id, now));
      out.id == Some(id) && out.createdAt == Some(now)
      && out.albumId == dto.albumId && out.artistId == dto.artistId && out.title == dto.title
      && out.durationSeconds == dto.durationSeconds && out.filePath == dto.filePath
      && out.genre == dto.genre && out.artworkPath == dto.artworkPath
      && out.isNewRelease == Some(dto.isNewRelease.GetOr(false))
      && out.playCountAll == Some(Count(plays, id, None))
      && out.playCountDay == Some(Count(plays, id, Some(now - Day)))
      && out.playCountWeek == Some(Count(plays, id, Some(now - Week)))
      && out.playCountMonth == Some(Count(plays, id, Some(now - Month)))
  {
  }

  // ---------------------------------------------------------------------------
  // The entity

  /** The `Track` entity as a mutable object. The plain setters are field
      assignments; `isNewRelease` has its own null-coalescing setter. */
  class Track {
    var id: Option<int>
    var albumId: Option<int>
    var artistId: Option<int>
    var title: Option<string>
    var durationSeconds: Option<int>
    var filePath: Option<string>
    var genre: Option<string>
    var artworkPath: Option<string>
    var createdAt: Option<int>
    var isNewRelease: Option<bool>

    /** `new Track()`: every field null except the flag, initialised false. */
    constructor ()
      ensures id.None? && albumId.None? && artistId.None? && title.None?
      ensures durationSeconds.None? && filePath.None? && genre.None? && artworkPath.None?
      ensures createdAt.None? && isNewRelease == Some(false)
    {
      id := None;
      albumId := None;
      artistId := None;
      title := None;
      durationSeconds := None;
      filePath := None;
      genre := None;
      artworkPath := None;
      createdAt := None;
      isNewRelease := Some(false);
    }

    /** The managed entity `findById` hands back for a stored row. */
    constructor Loaded(r: TrackRecord)
      ensures id == Some(r.id) && albumId == r.albumId && artistId == r.artistId && title == r.title
      ensures durationSeconds == r.durationSeconds && filePath == r.filePath && genre == r.genre
      ensures artworkPath == r.artworkPath && createdAt == Some(r.createdAt)
      ensures isNewRelease == Some(r.isNewRelease)
    {
      id := Some(r.id);
      albumId := r.albumId;
      artistId := r.artistId;
      title := r.title;
      durationSeconds := r.durationSeconds;
      filePath := r.filePath;
      genre := r.genre;
      artworkPath := r.artworkPath;
      createdAt := Some(r.createdAt);
      isNewRelease := Some(r.isNewRelease);
    }

    /** `getIsNewRelease`: never null; a null field reads as false. */
    function GetIsNewRelease(): (b: bool)
      reads this
      ensures isNewRelease.Some? ==> b == isNewRelease.value
      ensures isNewRelease.None? ==> !b
    {
      isNewRelease.GetOr(false)
    }

    /** `setIsNewRelease`: null is stored as false, anything else as given;
        no other field changes. */
    method SetIsNewRelease(value: Option<bool>)
      modifies this
      ensures isNewRelease == Some(value.GetOr(false))
      ensures id == old(id) && albumId == old(albumId) && artistId == old(artistId)
      ensures title == old(title) && durationSeconds == old(durationSeconds)
      ensures filePath == old(filePath) && genre == old(genre) && artworkPath == old(artworkPath)
      ensures createdAt == old(createdAt)
    {
      isNewRelease := if value.Some? then value else Some(false);
    }

    /** `@PrePersist onCreate`: stamps the creation time and turns a null
        flag into false; no other field changes. */
    method OnCreate(now: int)
      modifies this
      ensures createdAt == Some(now)
      ensures isNewRelease == Some(old(isNewRelease).GetOr(false))
      ensures id == old(id) && albumId == old(albumId) && artistId == old(artistId)
      ensures title == old(title) && durationSeconds == old(durationSeconds)
      ensures filePath == old(filePath) && genre == old(genre) && artworkPath == old(artworkPath)
    {
      createdAt := Some(now);
      if isNewRelease.None? {
        isNewRelease := Some(false);
      }
    }

    /** The row the repository stores for this entity. */
    function Row(): TrackRecord
      reads this
      requires id.Some? && createdAt.Some?
    {
      TrackRecord(id.value, albumId, artistId, title, durationSeconds, filePath, genre,
                  artworkPath, createdAt.value, GetIsNewRelease())
    }
  }

  /** The entity `createTrack` builds from the DTO, as the repository saves
      it under `id` at `now`. */
  method SavedEntity(dto: TrackDto, id: int, now: int) returns (saved: TrackRecord)
    ensures saved == Created(dto, id, now)
  {
    var track := new Track();
    track.albumId := dto.albumId;
    track.artistId := dto.artistId;
    track.title := dto.title;
    track.durationSeconds := dto.durationSeconds;
    track.filePath := dto.filePath;
    track.genre := dto.genre;
    track.artworkPath := dto.artworkPath;
    track.SetIsNewRelease(dto.isNewRelease);
    // save: the @PrePersist hook, then the identity column
    track.OnCreate(now);
    track.id := Some(id);
    saved := track.Row();
  }

  // ---------------------------------------------------------------------------
  // The service

  class TrackService {
    /** The repository: rows by id. */
    var rows: map<int, TrackRecord>
    /** The next value of the identity column. */
    var nextId: int
    /** `TrackPlayService`, asked for the play counts. */
    const playStore: PlayStore

    /** Every row sits under its own id, below the next identity value. */
    ghost predicate Valid()
      reads this
    {
      nextId > 0 && forall k :: k in rows ==> 0 < k < nextId && rows[k].id == k
    }

    constructor (playStore: PlayStore)
      ensures Valid() && rows == map[] && this.playStore == playStore
    {
      rows := map[];
      nextId := 1;
      this.playStore := playStore;
    }

    /** `convertToDTO`: the entity fields and the counts under the keys day,
        week, month and all. */
    method ConvertToDto(r: TrackRecord, now: int) returns (dto: TrackDto)
      ensures dto == ToDto(r, PlayCounts(playStore.plays, r.id, now))
    {
      var counts := playStore.GetPlayCounts(r.id, now);
      assert counts == PlayCounts(playStore.plays, r.id, now);
      dto := TrackDto(Some(r.id), r.albumId, r.artistId, r.title, r.durationSeconds, r.filePath,
                      r.genre, r.artworkPath, Some(r.createdAt), Some(r.isNewRelease),
                      Get(counts, "day"), Get(counts, "week"), Get(counts, "month"), Get(counts, "all"));
    }

    /** `createTrack`: copies the DTO fields onto a new entity, saves it under
        the next id, and returns it converted. */
    method CreateTrack(dto: TrackDto, now: int) returns (out: TrackDto)
      requires Valid()
      modifies this
      ensures Valid()
      ensures old(nextId) !in old(rows)
      ensures rows == old(rows)[old(nextId) := Created(dto, old(nextId), now)]
      ensures nextId == old(nextId) + 1
      ensures out == ToDto(Created(dto, old(nextId), now), PlayCounts(playStore.plays, old(nextId), now))
    {
      var saved := SavedEntity(dto, nextId, now);
      rows := rows[nextId := saved];
      nextId := nextId + 1;
      out := ConvertToDto(saved, now);
    }

    /** `getTrackById`. */
    method GetTrackById(id: int, now: int) returns (r: Result<TrackDto, string>)
      requires Valid()
      ensures id in rows ==> r == Ok(ToDto(rows[id], PlayCounts(playStore.plays, id, now)))
      ensures id !in rows ==> r == Err(NotFound(id))
    {
      if id !in rows {
        return Err(NotFound(id));
      }
      var dto := ConvertToDto(rows[id], now);
      r := Ok(dto);
    }

    /** `updateTrack`: on the loaded entity, every non-null DTO field is set;
        the entity is saved and returned converted. */
    method UpdateTrack(id: int, dto: TrackDto, now: int) returns (r: Result<TrackDto, string>)
      requires Valid()
      modifies this
      ensures Valid() && nextId == old(nextId)
      ensures id !in old(rows) ==> r == Err(NotFound(id)) && rows == old(rows)
      ensures id in old(rows) ==>
                rows == old(rows)[id := Merge(old(rows)[id], dto)]
                && r == Ok(ToDto(rows[id], PlayCounts(playStore.plays, id, now)))
    {
      if id !in rows {
        return Err(NotFound(id));
      }
      var track := new Track.Loaded(rows[id]);
      SetDescriptive(track, dto);
      SetMedia(track, dto);
      var saved := track.Row();
      assert saved == Merge(rows[id], dto);
      rows := rows[id := saved];
      var out := ConvertToDto(saved, now);
      r := Ok(out);
    }

    /** The first half of `updateTrack`'s setter calls: title, artist and album. */
    static method SetDescriptive(track: Track, dto: TrackDto)
      modifies track
      ensures track.title == Pick(dto.title, old(track.title))
      ensures track.artistId == Pick(dto.artistId, old(track.artistId))
      ensures track.albumId == Pick(dto.albumId, old(track.albumId))
      ensures track.id == old(track.id) && track.createdAt == old(track.createdAt)
      ensures track.durationSeconds == old(track.durationSeconds) && track.filePath == old(track.filePath)
      ensures track.genre == old(track.genre) && track.artworkPath == old(track.artworkPath)
      ensures track.isNewRelease == old(track.isNewRelease)
    {
      if dto.title.Some? {
        track.title := dto.title;
      }
      if dto.artistId.Some? {
        track.artistId := dto.artistId;
      }
      if dto.albumId.Some? {
        track.albumId := dto.albumId;
      }
    }

    /** The second half: duration, file, genre, artwork and the flag. */
    static method SetMedia(track: Track, dto: TrackDto)
      modifies track
      ensures track.durationSeconds == Pick(dto.durationSeconds, old(track.durationSeconds))
      ensures track.filePath == Pick(dto.filePath, old(track.filePath))
      ensures track.genre == Pick(dto.genre, old(track.genre))
      ensures track.artworkPath == Pick(dto.artworkPath, old(track.artworkPath))
      ensures dto.isNewRelease.Some? ==> track.isNewRelease == dto.isNewRelease
      ensures dto.isNewRelease.None? ==> track.isNewRelease == old(track.isNewRelease)
      ensures track.id == old(track.id) && track.createdAt == old(track.createdAt)
      ensures track.title == old(track.title) && track.artistId == old(track.artistId)
      ensures track.albumId == old(track.albumId)
    {
      if dto.durationSeconds.Some? {
        track.durationSeconds := dto.durationSeconds;
      }
      if dto.filePath.Some? {
        track.filePath := dto.filePath;
      }
      if dto.genre.Some? {
        track.genre := dto.genre;
      }
      if dto.artworkPath.Some? {
        track.artworkPath := dto.artworkPath;
      }
      if dto.isNewRelease.Some? {
        track.SetIsNewRelease(dto.isNewRelease);
      }
    }

    /** `deleteTrack`: fails on an unknown id; otherwise removes that row only. */
    method DeleteTrack(id: int) returns (r: Result<(), string>)
      requires Valid()
      modifies this
      ensures Valid() && nextId == old(nextId)
      ensures id !in old(rows) ==> r == Err(NotFound(id)) && rows == old(rows)
      ensures id in old(rows) ==> r == Ok(()) && rows == old(rows) - {id}
    {
      if id !in rows {
        return Err(NotFound(id));
      }
      rows := rows - {id};
      r := Ok(());
    }
  }
}
