/** `AlbumService`: the album table as a map from id to row, with create,
    read, partial update and delete. The entity the service loads and
    changes through setters is a local record updated field by field. */
module AlbumStore {
  import opened Wrappers
  import opened Text

  /** A stored album; `createdAt` is stamped by the entity's `@PrePersist`. */
  datatype AlbumRecord = AlbumRecord(
    id: int,
    artistId: Option<int>,
    title: Option<string>,
    releaseYear: Option<int>,
    artworkPath: Option<string>,
    createdAt: int)

  datatype AlbumDto = AlbumDto(
    id: Option<int>,
    artistId: Option<int>,
    title: Option<string>,
    releaseYear: Option<int>,
    artworkPath: Option<string>,
    createdAt: Option<int>)

  /** The message of the `RuntimeException` a missing id raises. Every
      service of this model (artists, tracks, users, playlists,
      notifications) has its own copy of this function and of the `get*ById`
      lookup below, as each Java service has its own. */
  function NotFound(id: int): string {
    "Album not found with id: " + IntToString(id)
  }

  /** The row `createAlbum` inserts: artist, title, year and artwork copied. */
  function Created(dto: AlbumDto, id: int, now: int): (r: AlbumRecord)
    ensures r.id == id && r.createdAt == now
    ensures r.artistId == dto.artistId && r.title == dto.title
    ensures r.releaseYear == dto.releaseYear && r.artworkPath == dto.artworkPath
  {
    AlbumRecord(id, dto.artistId, dto.title, dto.releaseYear, dto.artworkPath, now)
  }

  /** The row `updateAlbum` leaves: only non-null fields overwrite. */
  function Merge(r: AlbumRecord, dto: AlbumDto): (m: AlbumRecord)
    ensures m.id == r.id && m.createdAt == r.createdAt
    ensures m.title == Pick(dto.title, r.title) && m.artistId == Pick(dto.artistId, r.artistId)
    ensures m.releaseYear == Pick(dto.releaseYear, r.releaseYear)
    ensures m.artworkPath == Pick(dto.artworkPath, r.artworkPath)
  {
    r.(title := Pick(dto.title, r.title), artistId := Pick(dto.artistId, r.artistId),
       releaseYear := Pick(dto.releaseYear, r.releaseYear), artworkPath := Pick(dto.artworkPath, r.artworkPath))
  }

  function ToDto(r: AlbumRecord): AlbumDto {
    AlbumDto(Some(r.id), r.artistId, r.title, r.releaseYear, r.artworkPath, Some(r.createdAt))
  }

  /** Sending the same update twice leaves what sending it once did. */
  lemma MergeIdempotent(r: AlbumRecord, dto: AlbumDto)
    ensures Merge(Merge(r, dto), dto) == Merge(r, dto)
  {
  }

  /** An update never turns a present field into null. */
  lemma MergeNeverClears(r: AlbumRecord, dto: AlbumDto)
    ensures r.title.Some? ==> Merge(r, dto).title.Some?
    ensures r.artistId.Some? ==> Merge(r, dto).artistId.Some?
    ensures r.releaseYear.Some? ==> Merge(r, dto).releaseYear.Some?
    ensures r.artworkPath.Some? ==> Merge(r, dto).artworkPath.Some?
  {
  }

  /** What `createAlbum` returns carries what was sent. */
  lemma CreatedReadsBack(dto: AlbumDto, id: int, now: int)
    ensures ToDto(Created(dto, id, now)) == dto.(id := Some(id), createdAt := Some(now))
  {
  }

  class AlbumService {
    var rows: map<int, AlbumRecord>
    var nextId: int

    ghost predicate Valid()
      reads this
    {
      nextId > 0 && forall k :: k in rows ==> 0 < k < nextId && rows[k].id == k
    }

    constructor ()
      ensures Valid() && rows == map[]
    {
      rows := map[];
      nextId := 1;
    }

    /** `createAlbum`. */
    method CreateAlbum(dto: AlbumDto, now: int) returns (out: AlbumDto)
      requires Valid()
      modifies this
      ensures Valid() && nextId == old(nextId) + 1
      ensures old(nextId) !in old(rows)
      ensures rows == old(rows)[old(nextId) := Created(dto, old(nextId), now)]
      ensures out == ToDto(Created(dto, old(nextId), now))
    {
      var album := AlbumRecord(nextId, None, None, None, None, now);
      album := album.(artistId := dto.artistId);
      album := album.(title := dto.title);
      album := album.(releaseYear := dto.releaseYear);
      album := album.(artworkPath := dto.artworkPath);
      rows := rows[nextId := album];
      nextId := nextId + 1;
      out := ToDto(album);
    }

    /** `getAlbumById`: the row as a DTO, or the not-found error. The other
        services' `get*ById` methods have the same shape. */
    method GetAlbumById(id: int) returns (r: Result<AlbumDto, string>)
      ensures id in rows ==> r == Ok(ToDto(rows[id]))
      ensures id !in rows ==> r == Err(NotFound(id))
    {
      if id !in rows {
        return Err(NotFound(id));
      }
      r := Ok(ToDto(rows[id]));
    }

    /** `updateAlbum`: setters run only for the non-null DTO fields. */
    method UpdateAlbum(id: int, dto: AlbumDto) returns (r: Result<AlbumDto, string>)
      requires Valid()
      modifies this
      ensures Valid() && nextId == old(nextId)
      ensures id !in old(rows) ==> r == Err(NotFound(id)) && rows == old(rows)
      ensures id in old(rows) ==>
                rows == old(rows)[id := Merge(old(rows)[id], dto)] && r == Ok(ToDto(rows[id]))
    {
      if id !in rows {
        return Err(NotFound(id));
      }
      var album := rows[id];
      if dto.title.Some? {
        album := album.(title := dto.title);
      }
      if dto.artistId.Some? {
        album := album.(artistId := dto.artistId);
      }
      if dto.releaseYear.Some? {
        album := album.(releaseYear := dto.releaseYear);
      }
      if dto.artworkPath.Some? {
        album := album.(artworkPath := dto.artworkPath);
      }
      rows := rows[id := album];
      r := Ok(ToDto(album));
    }

    /** `deleteAlbum`: fails on an unknown id; otherwise removes that row only. */
    method DeleteAlbum(id: int) returns (r: Result<(), string>)
      requires Valid()
      modifies this
      ensures Valid() && nextId == old(nextId)
      ensures id !in old(rows) ==> r == Err(NotFound(id)) && rows == old(rows)
      ensures id in old(rows) ==> r == Ok(()) && rows == old(rows) - {id}
    {
      if id !in rows {
        return Err(NotFound(id));
      }
      rows := rows - {id};
      r := Ok(());
    }
  }
}

/** `ArtistService`, in the same shape as the album service. */
module ArtistStore {
  import opened Wrappers
  import opened Text

  datatype ArtistRecord = ArtistRecord(
    id: int,
    name: Option<string>,
    description: Option<string>,
    imagePath: Option<string>)

  datatype ArtistDto = ArtistDto(
    id: Option<int>,
    name: Option<string>,
    description: Option<string>,
    imagePath: Option<string>)

  function NotFound(id: int): string {
    "Artist not found with id: " + IntToString(id)
  }

  /** The row `createArtist` inserts: name, description and image copied. */
  function Created(dto: ArtistDto, id: int): (r: ArtistRecord)
    ensures r.id == id && r.name == dto.name
    ensures r.description == dto.description && r.imagePath == dto.imagePath
  {
    ArtistRecord(id, dto.name, dto.description, dto.imagePath)
  }

  /** The row `updateArtist` leaves: only non-null fields overwrite. */
  function Merge(r: ArtistRecord, dto: ArtistDto): (m: ArtistRecord)
    ensures m.id == r.id && m.name == Pick(dto.name, r.name)
    ensures m.description == Pick(dto.description, r.description)
    ensures m.imagePath == Pick(dto.imagePath, r.imagePath)
  {
    r.(name := Pick(dto.name, r.name), description := Pick(dto.description, r.description),
       imagePath := Pick(dto.imagePath, r.imagePath))
  }

  function ToDto(r: ArtistRecord): ArtistDto {
    ArtistDto(Some(r.id), r.name, r.description, r.imagePath)
  }

  /** What `createArtist` returns carries what was sent, under the new id. */
  lemma CreatedReadsBack(dto: ArtistDto, id: int)
    ensures ToDto(Created(dto, id)) == dto.(id := Some(id))
  {
  }

  /** Sending the same update twice leaves what sending it once did. */
  lemma MergeIdempotent(r: ArtistRecord, dto: ArtistDto)
    ensures Merge(Merge(r, dto), dto) == Merge(r, dto)
  {
  }

  /** An update never turns a present field into null. */
  lemma MergeNeverClears(r: ArtistRecord, dto: ArtistDto)
    ensures r.name.Some? ==> Merge(r, dto).name.Some?
    ensures r.description.Some? ==> Merge(r, dto).description.Some?
    ensures r.imagePath.Some? ==> Merge(r, dto).imagePath.Some?
  {
  }

  class ArtistService {
    var rows: map<int, ArtistRecord>
    var nextId: int

    ghost predicate Valid()
      reads this
    {
      nextId > 0 && forall k :: k in rows ==> 0 < k < nextId && rows[k].id == k
    }

    constructor ()
      ensures Valid() && rows == map[]
    {
      rows := map[];
      nextId := 1;
    }

    /** `createArtist`. */
    method CreateArtist(dto: ArtistDto) returns (out: ArtistDto)
      requires Valid()
      modifies this
      ensures Valid() && nextId == old(nextId) + 1
      ensures old(nextId) !in old(rows)
      ensures rows == old(rows)[old(nextId) := Created(dto, old(nextId))]
      ensures out == ToDto(Created(dto, old(nextId)))
    {
      var artist := ArtistRecord(nextId, None, None, None);
      artist := artist.(name := dto.name);
      artist := artist.(description := dto.description);
      artist := artist.(imagePath := dto.imagePath);
      rows := rows[nextId := artist];
      nextId := nextId + 1;
      out := ToDto(artist);
    }

    /** `getArtistById`. */
    method GetArtistById(id: int) returns (r: Result<ArtistDto, string>)
      ensures id in rows ==> r == Ok(ToDto(rows[id]))
      ensures id !in rows ==> r == Err(NotFound(id))
    {
      if id !in rows {
        return Err(NotFound(id));
      }
      r := Ok(ToDto(rows[id]));
    }

    /** `updateArtist`: setters run only for the non-null DTO fields. */
    method UpdateArtist(id: int, dto: ArtistDto) returns (r: Result<ArtistDto, string>)
      requires Valid()
      modifies this
      ensures Valid() && nextId == old(nextId)
      ensures id !in old(rows) ==> r == Err(NotFound(id)) && rows == old(rows)
      ensures id in old(rows) ==>
                rows == old(rows)[id := Merge(old(rows)[id], dto)] && r == Ok(ToDto(rows[id]))
    {
      if id !in rows {
        return Err(NotFound(id));
      }
      var artist := rows[id];
      if dto.name.Some? {
        artist := artist.(name := dto.name);
      }
      if dto.description.Some? {
        artist := artist.(description := dto.description);
      }
      if dto.imagePath.Some? {
        artist := artist.(imagePath := dto.imagePath);
      }
      rows := rows[id := artist];
      r := Ok(ToDto(artist));
    }

    /** `deleteArtist`: fails on an unknown id; otherwise removes that row only. */
    method DeleteArtist(id: int) returns (r: Result<(), string>)
      requires Valid()
      modifies this
      ensures Valid() && nextId == old(nextId)
      ensures id !in old(rows) ==> r == Err(NotFound(id)) && rows == old(rows)
      ensures id in old(rows) ==> r == Ok(()) && rows == old(rows) - {id}
    {
      if id !in rows {
        return Err(NotFound(id));
      }
      rows := rows - {id};
      r := Ok(());
    }
  }
}
