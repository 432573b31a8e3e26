/** The catalogue records the browser holds (the JSON the backend's DTOs
    serialise to) and the lookups the frontend runs over them.

    JavaScript ids are numbers whose falsy values (`0`, `null`, `undefined`,
    `NaN`) all read as `0` here; nullable strings are `Option<string>`. */
module Catalog {
  import opened Wrappers

  datatype Track = Track(
    id: int,
    title: string,
    artistId: int,
    albumId: int,
    genre: string,
    durationSeconds: int,
    filePath: Option<string>,
    artworkPath: Option<string>,
    createdAt: int,
    playCountDay: Option<int>,
    playCountWeek: Option<int>,
    playCountMonth: Option<int>,
    playCountAll: Option<int>)

  datatype Album = Album(id: int, artistId: int, title: string, artworkPath: Option<string>)

  datatype Artist = Artist(id: int, name: string, imagePath: Option<string>)

  datatype Playlist = Playlist(id: int, name: string, imagePath: Option<string>)

  /** A JavaScript string that is neither null/undefined nor empty. */
  predicate Truthy(s: Option<string>) {
    s.Some? && |s.value| > 0
  }

  predicate HasTrack(ts: seq<Track>, id: int) {
    exists j :: 0 <= j < |ts| && ts[j].id == id
  }

  /** `ts.findIndex(t => t.id === id)`: the first position with that id, or -1. */
  function FindIndex(ts: seq<Track>, id: int): (i: int)
    ensures -1 <= i < |ts|
    ensures i >= 0 ==> ts[i].id == id && forall j :: 0 <= j < i ==> ts[j].id != id
    ensures i == -1 <==> !HasTrack(ts, id)
  {
    if |ts| == 0 then -1
    else if ts[0].id == id then 0
    else
      var k := FindIndex(ts[1..], id);
      assert forall j :: 1 <= j < |ts| ==> ts[j] == ts[1..][j - 1];
      if k == -1 then -1 else k + 1
  }

  /** `ts.find(t => t.id === id)`. */
  function FindTrack(ts: seq<Track>, id: int): (r: Option<Track>)
    ensures r.Some? <==> HasTrack(ts, id)
    ensures r.Some? ==> r.value.id == id && r.value == ts[FindIndex(ts, id)]
  {
    var i := FindIndex(ts, id);
    if i == -1 then None else Some(ts[i])
  }

  /** `albums.find(a => a.id === id)`. */
  function FindAlbum(albums: seq<Album>, id: int): (r: Option<Album>)
    ensures r.Some? ==> r.value in albums && r.value.id == id
    ensures r.Some? ==> exists i :: 0 <= i < |albums| && albums[i] == r.value && forall j :: 0 <= j < i ==> albums[j].id != id
    ensures r.None? ==> forall a :: a in albums ==> a.id != id
  {
    if |albums| == 0 then None
    else if albums[0].id == id then Some(albums[0])
    else
      var r := FindAlbum(albums[1..], id);
      assert forall j :: 1 <= j < |albums| ==> albums[j] == albums[1..][j - 1];
      r
  }

  /** `artists.find(a => a.id === id)`. */
  function FindArtist(artists: seq<Artist>, id: int): (r: Option<Artist>)
    ensures r.Some? ==> r.value in artists && r.value.id == id
    ensures r.Some? ==> exists i :: 0 <= i < |artists| && artists[i] == r.value && forall j :: 0 <= j < i ==> artists[j].id != id
    ensures r.None? ==> forall a :: a in artists ==> a.id != id
  {
    if |artists| == 0 then None
    else if artists[0].id == id then Some(artists[0])
    else
      var r := FindArtist(artists[1..], id);
      assert forall j :: 1 <= j < |artists| ==> artists[j] == artists[1..][j - 1];
      r
  }

  /** `ts.filter(keep)`, keeping order. */
  function Filter(ts: seq<Track>, keep: Track -> bool): (r: seq<Track>)
    ensures |r| <= |ts|
    ensures forall t :: t in r <==> t in ts && keep(t)
  {
    if |ts| == 0 then [] else (if keep(ts[0]) then [ts[0]] else []) + Filter(ts[1..], keep)
  }

  /** `filter` splits over concatenation: it keeps the order of what it keeps. */
  lemma {:induction false} FilterAppend(a: seq<Track>, b: seq<Track>, keep: Track -> bool)
    ensures Filter(a + b, keep) == Filter(a, keep) + Filter(b, keep)
    decreases |a|
  {
    if |a| == 0 {
      assert a + b == b;
    } else {
      assert (a + b)[0] == a[0] && (a + b)[1..] == a[1..] + b;
      FilterAppend(a[1..], b, keep);
    }
  }

  /** On one element `filter` keeps it exactly when the test holds. */
  lemma FilterSingle(x: Track, keep: Track -> bool)
    ensures Filter([x], keep) == if keep(x) then [x] else []
  {
    assert [x][1..] == [];
  }
}
