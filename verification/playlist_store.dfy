/** `PlaylistService`: playlists by id, created for a user, partially
    updated without ever changing their owner. */
module PlaylistStore {
  import opened Wrappers
  import opened Text

  datatype PlaylistRecord = PlaylistRecord(
    id: int,
    userId: Option<int>,
    name: Option<string>,
    description: Option<string>,
    imagePath: Option<string>)

  datatype PlaylistDto = PlaylistDto(
    id: Option<int>,
    userId: Option<int>,
    name: Option<string>,
    description: Option<string>,
    imagePath: Option<string>)

  function NotFound(id: int): string {
    "Playlist not found with id: " + IntToString(id)
  }

  /** The row `createPlaylist` inserts: owner, name, description and image copied. */
  function Created(dto: PlaylistDto, id: int): (r: PlaylistRecord)
    ensures r.id == id && r.userId == dto.userId && r.name == dto.name
    ensures r.description == dto.description && r.imagePath == dto.imagePath
  {
    PlaylistRecord(id, dto.userId, dto.name, dto.description, dto.imagePath)
  }

  /** The row `updatePlaylist` leaves: name, description and image overwritten
      when given; the owner is kept even when the DTO names another. */
  function Merge(r: PlaylistRecord, dto: PlaylistDto): (m: PlaylistRecord)
    ensures m.id == r.id && m.userId == r.userId
    ensures m.name == Pick(dto.name, r.name) && m.description == Pick(dto.description, r.description)
    ensures m.imagePath == Pick(dto.imagePath, r.imagePath)
  {
    r.(name := Pick(dto.name, r.name), description := Pick(dto.description, r.description),
       imagePath := Pick(dto.imagePath, r.imagePath))
  }

  function ToDto(r: PlaylistRecord): PlaylistDto {
    PlaylistDto(Some(r.id), r.userId, r.name, r.description, r.imagePath)
  }

  /** Sending the same update twice leaves what sending it once did. */
  lemma MergeIdempotent(r: PlaylistRecord, dto: PlaylistDto)
    ensures Merge(Merge(r, dto), dto) == Merge(r, dto)
  {
  }

  /** What `createPlaylist` returns carries what was sent. */
  lemma CreatedReadsBack(dto: PlaylistDto, id: int)
    ensures ToDto(Created(dto, id)) == dto.(id := Some(id))
  {
  }

  class PlaylistService {
    var rows: map<int, PlaylistRecord>
    var nextId: int

    ghost predicate Valid()
      reads this
    {
      nextId > 0 && forall k :: k in rows ==> 0 < k < nextId && rows[k].id == k
    }

    constructor ()
      ensures Valid() && rows == map[]
    {
      rows := map[];
      nextId := 1;
    }

    /** `createPlaylist`. */
    method CreatePlaylist(dto: PlaylistDto) returns (out: PlaylistDto)
      requires Valid()
      modifies this
      ensures Valid() && nextId == old(nextId) + 1
      ensures old(nextId) !in old(rows)
      ensures rows == old(rows)[old(nextId) := Created(dto, old(nextId))]
      ensures out == ToDto(Created(dto, old(nextId)))
    {
      var playlist := PlaylistRecord(nextId, None, None, None, None);
      playlist := playlist.(userId := dto.userId);
      playlist := playlist.(name := dto.name);
      playlist := playlist.(description := dto.description);
      playlist := playlist.(imagePath := dto.imagePath);
      rows := rows[nextId := playlist];
      nextId := nextId + 1;
      out := ToDto(playlist);
    }

    /** `getPlaylistById`. */
    method GetPlaylistById(id: int) returns (r: Result<PlaylistDto, string>)
      ensures id in rows ==> r == Ok(ToDto(rows[id]))
      ensures id !in rows ==> r == Err(NotFound(id))
    {
      if id !in rows {
        return Err(NotFound(id));
      }
      r := Ok(ToDto(rows[id]));
    }

    /** `updatePlaylist`: setters run only for the non-null DTO fields. */
    method UpdatePlaylist(id: int, dto: PlaylistDto) returns (r: Result<PlaylistDto, string>)
      requires Valid()
      modifies this
      ensures Valid() && nextId == old(nextId)
      ensures id !in old(rows) ==> r == Err(NotFound(id)) && rows == old(rows)
      ensures id in old(rows) ==>
                rows == old(rows)[id := Merge(old(rows)[id], dto)] && r == Ok(ToDto(rows[id]))
    {
      if id !in rows {
        return Err(NotFound(id));
      }
      var playlist := rows[id];
      if dto.name.Some? {
        playlist := playlist.(name := dto.name);
      }
      if dto.description.Some? {
        playlist := playlist.(description := dto.description);
      }
      if dto.imagePath.Some? {
        playlist := playlist.(imagePath := dto.imagePath);
      }
      rows := rows[id := playlist];
      r := Ok(ToDto(playlist));
    }

    /** `deletePlaylist`: fails on an unknown id; otherwise removes that row only. */
    method DeletePlaylist(id: int) returns (r: Result<(), string>)
      requires Valid()
      modifies this
      ensures Valid() && nextId == old(nextId)
      ensures id !in old(rows) ==> r == Err(NotFound(id)) && rows == old(rows)
      ensures id in old(rows) ==> r == Ok(()) && rows == old(rows) - {id}
    {
      if id !in rows {
        return Err(NotFound(id));
      }
      rows := rows - {id};
      r := Ok(());
    }
  }
}
