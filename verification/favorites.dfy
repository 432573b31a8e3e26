/** The favourites bookkeeping of the pages: the artist ids mirrored into
    local storage when an artist card's heart is toggled, and the album
    page's "add the whole album to my tracks" action. */
module Favorites {
  import opened Wrappers
  import opened Catalog

  /** The stored list after an "add": the id is appended only when absent. */
  function AddFavoriteArtist(ids: seq<int>, artistId: int): (r: seq<int>)
    ensures artistId in r
    ensures forall x :: x in r <==> x in ids || x == artistId
    ensures |r| == if artistId in ids then |ids| else |ids| + 1
    ensures r[..|ids|] == ids
  {
    if artistId in ids then ids else ids + [artistId]
  }

  /** `ids.filter(id => id !== artistId)`. */
  function RemoveFavoriteArtist(ids: seq<int>, artistId: int): (r: seq<int>)
    ensures artistId !in r
    ensures forall x :: x != artistId ==> (x in r <==> x in ids)
    ensures artistId !in ids ==> r == ids
  {
    if |ids| == 0 then []
    else if ids[0] == artistId then RemoveFavoriteArtist(ids[1..], artistId)
    else [ids[0]] + RemoveFavoriteArtist(ids[1..], artistId)
  }

  /** The other ids keep their order: removal splits over concatenation
      (and `RemoveSingle` says what it does to one id). */
  lemma {:induction false} RemoveKeepsOrder(a: seq<int>, b: seq<int>, artistId: int)
    ensures RemoveFavoriteArtist(a + b, artistId) == RemoveFavoriteArtist(a, artistId) + RemoveFavoriteArtist(b, artistId)
    decreases |a|
  {
    if |a| == 0 {
      assert a + b == b;
    } else {
      assert (a + b)[0] == a[0] && (a + b)[1..] == a[1..] + b;
      RemoveKeepsOrder(a[1..], b, artistId);
    }
  }

  /** A single id is dropped exactly when it is the removed one. */
  lemma RemoveSingle(x: int, artistId: int)
    ensures RemoveFavoriteArtist([x], artistId) == if x == artistId then [] else [x]
  {
    assert [x][1..] == [];
  }

  /** Removing after adding leaves what removing alone leaves: an "add" that
      found the id already present did not duplicate it. */
  lemma {:induction false} RemoveUndoesAdd(ids: seq<int>, artistId: int)
    ensures RemoveFavoriteArtist(AddFavoriteArtist(ids, artistId), artistId) == RemoveFavoriteArtist(ids, artistId)
  {
    if artistId !in ids {
      RemoveAppended(ids, artistId);
    }
  }

  lemma {:induction false} RemoveAppended(ids: seq<int>, artistId: int)
    ensures RemoveFavoriteArtist(ids + [artistId], artistId) == RemoveFavoriteArtist(ids, artistId)
  {
    if |ids| > 0 {
      assert (ids + [artistId])[1..] == ids[1..] + [artistId];
      RemoveAppended(ids[1..], artistId);
    }
  }

  /** What the heart toggle does to the stored list: the API call comes
      first, and a failed call leaves the list as it was. */
  function ToggleFavoriteArtist(ids: seq<int>, artistId: int, wasFavorite: bool, apiSucceeded: bool): seq<int> {
    if !apiSucceeded then ids
    else if wasFavorite then RemoveFavoriteArtist(ids, artistId)
    else AddFavoriteArtist(ids, artistId)
  }

  /** A successful toggle flips membership and touches no other id. */
  lemma ToggleFlipsMembership(ids: seq<int>, artistId: int, wasFavorite: bool)
    ensures var r := ToggleFavoriteArtist(ids, artistId, wasFavorite, true);
            (artistId in r <==> !wasFavorite)
            && forall x :: x != artistId ==> (x in r <==> x in ids)
  {
  }

  /** What the album page tells the user. */
  datatype AlbumFavoriteOutcome = NeedsLogin | NoTracks | Added(count: nat) | AlreadyAll

  /** `allTracks.filter(t => t.albumId === parseInt(albumId))`. */
  function AlbumTracks(all: seq<Track>, albumId: int): seq<Track> {
    Filter(all, (t: Track) => t.albumId == albumId)
  }

  /** The album action's loop, one track at a time: a track whose calls
      fail is skipped, one already favourite is not counted, any other is
      added and counted. */
  function AddTracks(ts: seq<Track>, favorites: set<int>, failing: set<int>): (nat, set<int>) {
    if |ts| == 0 then (0, favorites)
    else if ts[0].id in failing || ts[0].id in favorites then AddTracks(ts[1..], favorites, failing)
    else
      var (n, f) := AddTracks(ts[1..], favorites + {ts[0].id}, failing);
      (n + 1, f)
  }

  /** The ids of the tracks whose API calls succeed. */
  function Reachable(ts: seq<Track>, failing: set<int>): (r: set<int>)
    ensures forall id :: id in r <==> id !in failing && exists t :: t in ts && t.id == id
  {
    if |ts| == 0 then {}
    else (if ts[0].id in failing then {} else {ts[0].id}) + Reachable(ts[1..], failing)
  }

  /** Afterwards every album track whose calls succeed is a favourite, and
      nothing else was added. */
  lemma {:induction false} AddTracksFavorites(ts: seq<Track>, favorites: set<int>, failing: set<int>)
    ensures AddTracks(ts, favorites, failing).1 == favorites + Reachable(ts, failing)
  {
    if |ts| > 0 {
      var x := ts[0].id;
      if x in failing || x in favorites {
        AddTracksFavorites(ts[1..], favorites, failing);
      } else {
        AddTracksFavorites(ts[1..], favorites + {x}, failing);
      }
    }
  }

  lemma RemovingOneMore(f: set<int>, a: set<int>, x: int)
    requires x !in a && x in f
    ensures |f - a| == |f - (a + {x})| + 1
  {
    assert f - a == (f - (a + {x})) + {x};
  }

  /** The counter the user is shown is the number of tracks that became
      favourite. */
  lemma {:induction false} AddTracksCountsNewFavorites(ts: seq<Track>, favorites: set<int>, failing: set<int>)
    ensures AddTracks(ts, favorites, failing).0 == |AddTracks(ts, favorites, failing).1 - favorites|
  {
    if |ts| > 0 {
      var x := ts[0].id;
      if x in failing || x in favorites {
        AddTracksCountsNewFavorites(ts[1..], favorites, failing);
      } else {
        var g := favorites + {x};
        AddTracksCountsNewFavorites(ts[1..], g, failing);
        AddTracksFavorites(ts[1..], g, failing);
        RemovingOneMore(AddTracks(ts[1..], g, failing).1, favorites, x);
      }
    }
  }

  /** `toggleAlbumFavorite(albumId)` for a user with the given favourites:
      the loop over the album's tracks, with the API's answers as inputs. */
  method ToggleAlbumFavorite(loggedIn: bool, all: seq<Track>, albumId: int, favorites: set<int>, failing: set<int>)
    returns (outcome: AlbumFavoriteOutcome, newFavorites: set<int>)
    ensures !loggedIn ==> outcome == NeedsLogin && newFavorites == favorites
    ensures loggedIn && |AlbumTracks(all, albumId)| == 0 ==> outcome == NoTracks && newFavorites == favorites
    ensures loggedIn && |AlbumTracks(all, albumId)| > 0 ==>
              var (n, f) := AddTracks(AlbumTracks(all, albumId), favorites, failing);
              newFavorites == f && outcome == (if n > 0 then Added(n) else AlreadyAll)
  {
    newFavorites := favorites;
    if !loggedIn {
      return NeedsLogin, newFavorites;
    }
    var albumTracks := AlbumTracks(all, albumId);
    if |albumTracks| == 0 {
      return NoTracks, newFavorites;
    }
    var addedCount := 0;
    var i := 0;
    while i < |albumTracks|
      invariant 0 <= i <= |albumTracks|
      invariant var (n, f) := AddTracks(albumTracks[i..], newFavorites, failing);
                (addedCount + n, f) == AddTracks(albumTracks, favorites, failing)
    {
      var track := albumTracks[i];
      assert albumTracks[i..][1..] == albumTracks[i + 1..];
      if track.id !in failing && track.id !in newFavorites {
        newFavorites := newFavorites + {track.id};
        addedCount := addedCount + 1;
      }
      i := i + 1;
    }
    outcome := if addedCount > 0 then Added(addedCount) else AlreadyAll;
  }
}
