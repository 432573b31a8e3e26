/** Orderings and selections the pages compute over the catalogue: the
    catalogue page's chart (the top 20 by play count for a period), the
    recommendations fallback that ranks a listening history, the artist
    page's tab orders and the track page's related records. */
module Ranking {
  import opened Wrappers
  import opened Catalog
  import opened Sorting

  datatype Period = Day | Week | Month | AllTime

  /** `switch (currentPeriod)` with its `default` branch. */
  function PeriodOf(name: string): Period {
    if name == "day" then Day else if name == "week" then Week else if name == "month" then Month else AllTime
  }

  /** `t.playCountDay || 0` and its siblings. */
  function PeriodCount(t: Track, p: Period): int {
    match p
    case Day => t.playCountDay.GetOr(0)
    case Week => t.playCountWeek.GetOr(0)
    case Month => t.playCountMonth.GetOr(0)
    case AllTime => t.playCountAll.GetOr(0)
  }

  /** The chart's comparator `countB - countA`: `a` may precede `b` when its
      count is at least as high. */
  function MorePlayed(p: Period): (Track, Track) -> bool {
    (a: Track, b: Track) => PeriodCount(a, p) >= PeriodCount(b, p)
  }

  lemma MorePlayedIsPreorder(p: Period)
    ensures TotalPreorder(MorePlayed(p))
  {
  }

  const ChartSize := 20

  /** `[...tracks].sort(byCount).slice(0, 20)`. */
  function TopTracks(tracks: seq<Track>, p: Period): seq<Track> {
    Take(SortBy(tracks, MorePlayed(p)), ChartSize)
  }

  /** The chart holds min(20, n) of the catalogue's tracks, each at most as
      often as it occurs there, in non-increasing order of the period's count. */
  lemma {:induction false} TopTracksOrdered(tracks: seq<Track>, p: Period)
    ensures var top := TopTracks(tracks, p);
            |top| == (if |tracks| < ChartSize then |tracks| else ChartSize)
            && multiset(top) <= multiset(tracks)
            && forall i, j :: 0 <= i < j < |top| ==> PeriodCount(top[i], p) >= PeriodCount(top[j], p)
  {
    var sorted := SortBy(tracks, MorePlayed(p));
    assert SortedBy(sorted, MorePlayed(p)) by {
      MorePlayedIsPreorder(p);
      SortBySorted(tracks, MorePlayed(p));
    }
    var top := Take(sorted, ChartSize);
    assert multiset(top) <= multiset(tracks) by {
      assert sorted == top + sorted[|top|..];
      assert multiset(sorted) == multiset(top) + multiset(sorted[|top|..]);
    }
    forall i, j | 0 <= i < j < |top| ensures PeriodCount(top[i], p) >= PeriodCount(top[j], p) {
      assert top[i] == sorted[i] && top[j] == sorted[j];
      assert MorePlayed(p)(sorted[i], sorted[j]);
    }
  }

  /** No track left out of the chart was played more often in the period
      than a track shown. */
  lemma {:induction false} TopTracksAreTheMostPlayed(tracks: seq<Track>, p: Period)
    ensures var top := TopTracks(tracks, p);
            forall t, u :: t in top && u in multiset(tracks) - multiset(top) ==>
              PeriodCount(t, p) >= PeriodCount(u, p)
  {
    MorePlayedIsPreorder(p);
    TakeOfSortedIsTop(tracks, MorePlayed(p), ChartSize);
    var top := TopTracks(tracks, p);
    forall t, u | t in top && u in multiset(tracks) - multiset(top)
      ensures PeriodCount(t, p) >= PeriodCount(u, p)
    {
      assert MorePlayed(p)(t, u);
    }
  }

  /** The catalogue page's chart state: the loaded tracks, the selected
      period filter (initially `day`) and the rendered chart. */
  class TrackChart {
    var tracks: seq<Track>
    var currentPeriod: string
    var filteredTracks: seq<Track>

    constructor ()
      ensures tracks == [] && currentPeriod == "day" && filteredTracks == []
    {
      tracks, currentPeriod, filteredTracks := [], "day", [];
    }

    /** `filterTracks()`. */
    method FilterTracks()
      modifies this`filteredTracks
      ensures filteredTracks == TopTracks(tracks, PeriodOf(currentPeriod))
    {
      var sorted := SortBy(tracks, MorePlayed(PeriodOf(currentPeriod)));
      filteredTracks := Take(sorted, ChartSize);
    }

    /** A click on a period filter button. */
    method SelectPeriod(period: string)
      modifies this`currentPeriod, this`filteredTracks
      ensures currentPeriod == period && tracks == old(tracks)
      ensures filteredTracks == TopTracks(tracks, PeriodOf(period))
    {
      currentPeriod := period;
      FilterTracks();
    }

    /** `loadTracks()` once the catalogue has arrived. */
    method LoadTracks(fetched: seq<Track>)
      modifies this`tracks, this`filteredTracks
      ensures tracks == fetched && currentPeriod == old(currentPeriod)
      ensures filteredTracks == TopTracks(fetched, PeriodOf(currentPeriod))
    {
      tracks := fetched;
      FilterTracks();
    }
  }

  /** How often `id` occurs in the history. */
  function Occurrences(history: seq<nat>, id: nat): nat {
    if |history| == 0 then 0
    else Occurrences(history[..|history| - 1], id) + (if history[|history| - 1] == id then 1 else 0)
  }

  lemma {:induction false} OccurrencesPositive(history: seq<nat>, id: nat)
    ensures Occurrences(history, id) > 0 <==> id in history
  {
    if |history| > 0 {
      var init := history[..|history| - 1];
      OccurrencesPositive(init, id);
      assert history == init + [history[|history| - 1]];
    }
  }

  /** The history's distinct ids in first-occurrence order. */
  function Distinct(s: seq<nat>): (r: seq<nat>)
    ensures forall x :: x in r <==> x in s
    ensures forall i, j :: 0 <= i < j < |r| ==> r[i] != r[j]
  {
    if |s| == 0 then []
    else
      var rest := Distinct(s[1..]);
      if s[0] in rest then rest else [s[0]] + rest
  }

  /** A permutation of a sequence without repeats has no repeats. */
  lemma {:induction false} PermutationKeepsDistinct(a: seq<nat>, b: seq<nat>)
    requires multiset(a) == multiset(b)
    requires forall i, j :: 0 <= i < j < |a| ==> a[i] != a[j]
    ensures forall i, j :: 0 <= i < j < |b| ==> b[i] != b[j]
  {
    forall x | x in multiset(a) ensures multiset(a)[x] == 1 {
      DistinctCountsOnce(a, x);
    }
    forall i, j | 0 <= i < j < |b| ensures b[i] != b[j] {
      assert b == b[..j] + [b[j]] + b[j + 1..];
      assert multiset(b) == multiset(b[..j]) + multiset{b[j]} + multiset(b[j + 1..]);
      assert b[..j][i] == b[i];
      assert b[i] in multiset(b[..j]);
      assert multiset(b)[b[i]] == 1;
    }
  }

  lemma {:induction false} DistinctCountsOnce(a: seq<nat>, x: nat)
    requires forall i, j :: 0 <= i < j < |a| ==> a[i] != a[j]
    requires x in a
    ensures multiset(a)[x] == 1
  {
    if a[0] == x {
      assert x !in a[1..];
      assert a == [a[0]] + a[1..];
    } else {
      assert a == [a[0]] + a[1..];
      DistinctCountsOnce(a[1..], x);
    }
  }

  function CountIn(counts: map<nat, nat>, id: nat): nat {
    if id in counts then counts[id] else 0
  }

  /** `Object.entries(trackCounts)` lists integer keys in ascending order. */
  function Ascending(): (nat, nat) -> bool {
    (a: nat, b: nat) => a <= b
  }

  /** The recommendations comparator `b[1] - a[1]` over the counts. */
  function MoreListened(counts: map<nat, nat>): (nat, nat) -> bool {
    (a: nat, b: nat) => CountIn(counts, a) >= CountIn(counts, b)
  }

  const RecommendationCount := 10

  /** The recommendations fallback: counts each track id of the listening
      history in a loop, then keeps the ten most listened ids. */
  method RankHistory(history: seq<nat>) returns (counts: map<nat, nat>, ids: seq<nat>)
    ensures counts.Keys == set id | id in history
    ensures forall id :: CountIn(counts, id) == Occurrences(history, id)
    ensures |ids| == (var d := |Distinct(history)|; if d < RecommendationCount then d else RecommendationCount)
    ensures forall id :: id in ids ==> id in history
    ensures forall i, j :: 0 <= i < j < |ids| ==> ids[i] != ids[j]
    ensures forall i, j :: 0 <= i < j < |ids| ==> Occurrences(history, ids[i]) >= Occurrences(history, ids[j])
    ensures forall id, other :: id in ids && other in history && other !in ids ==>
              Occurrences(history, id) >= Occurrences(history, other)
  {
    counts := map[];
    var i := 0;
    while i < |history|
      invariant 0 <= i <= |history|
      invariant counts.Keys == set id | id in history[..i]
      invariant forall id :: CountIn(counts, id) == Occurrences(history[..i], id)
    {
      var id := history[i];
      counts := counts[id := CountIn(counts, id) + 1];
      assert history[..i + 1][..i] == history[..i];
      i := i + 1;
    }
    assert history[..i] == history;
    var keys := SortBy(Distinct(history), Ascending());
    var ranked := SortBy(keys, MoreListened(counts));
    ids := Take(ranked, RecommendationCount);
    RankedMembers(history, keys, ranked, ids);
    RankedOrder(history, counts, keys, ranked, ids);
    RankedTop(history, counts, keys, ranked, ids);
  }

  lemma RankedMembers(history: seq<nat>, keys: seq<nat>, ranked: seq<nat>, ids: seq<nat>)
    requires multiset(keys) == multiset(Distinct(history)) && multiset(ranked) == multiset(keys)
    requires ids == Take(ranked, RecommendationCount)
    ensures |ids| == (var d := |Distinct(history)|; if d < RecommendationCount then d else RecommendationCount)
    ensures forall id :: id in ids ==> id in history
    ensures forall i, j :: 0 <= i < j < |ids| ==> ids[i] != ids[j]
    ensures forall x :: x in ranked <==> x in history
  {
    var d := Distinct(history);
    assert |keys| == |d| && |ranked| == |keys| by {
      assert |multiset(keys)| == |multiset(d)|;
    }
    PermutationKeepsDistinct(d, ranked);
    forall x ensures x in ranked <==> x in history {
      assert x in ranked <==> x in multiset(ranked);
      assert x in d <==> x in multiset(d);
    }
    assert ids == ranked[..|ids|];
    forall id | id in ids ensures id in history {
      assert id in ranked;
    }
  }

  lemma RankedOrder(history: seq<nat>, counts: map<nat, nat>, keys: seq<nat>, ranked: seq<nat>, ids: seq<nat>)
    requires forall id :: CountIn(counts, id) == Occurrences(history, id)
    requires ranked == SortBy(keys, MoreListened(counts))
    requires ids == Take(ranked, RecommendationCount)
    ensures forall i, j :: 0 <= i < j < |ids| ==> Occurrences(history, ids[i]) >= Occurrences(history, ids[j])
  {
    SortBySorted(keys, MoreListened(counts));
    forall i, j | 0 <= i < j < |ids| ensures Occurrences(history, ids[i]) >= Occurrences(history, ids[j]) {
      assert ids[i] == ranked[i] && ids[j] == ranked[j];
      assert MoreListened(counts)(ranked[i], ranked[j]);
    }
  }

  lemma RankedTop(history: seq<nat>, counts: map<nat, nat>, keys: seq<nat>, ranked: seq<nat>, ids: seq<nat>)
    requires forall id :: CountIn(counts, id) == Occurrences(history, id)
    requires ranked == SortBy(keys, MoreListened(counts))
    requires ids == Take(ranked, RecommendationCount)
    requires forall x :: x in ranked <==> x in history
    ensures forall id, other :: id in ids && other in history && other !in ids ==>
              Occurrences(history, id) >= Occurrences(history, other)
  {
    SortBySorted(keys, MoreListened(counts));
    assert ids == ranked[..|ids|];
    forall id, other | id in ids && other in history && other !in ids
      ensures Occurrences(history, id) >= Occurrences(history, other)
    {
      var j :| 0 <= j < |ranked| && ranked[j] == other;
      var i :| 0 <= i < |ids| && ids[i] == id;
      assert forall k :: 0 <= k < |ids| ==> ids[k] == ranked[k];
      assert j >= |ids|;
      assert MoreListened(counts)(ranked[i], ranked[j]);
    }
  }

  /** Code-point order, standing in for `localeCompare`. */
  function TitleLe(a: string, b: string): bool {
    if |a| == 0 then true
    else if |b| == 0 then false
    else if a[0] != b[0] then a[0] < b[0]
    else TitleLe(a[1..], b[1..])
  }

  lemma {:induction false} TitleLeTotal(a: string, b: string)
    ensures TitleLe(a, b) || TitleLe(b, a)
  {
    if |a| > 0 && |b| > 0 && a[0] == b[0] {
      TitleLeTotal(a[1..], b[1..]);
    }
  }

  lemma {:induction false} TitleLeTransitive(a: string, b: string, c: string)
    requires TitleLe(a, b) && TitleLe(b, c)
    ensures TitleLe(a, c)
  {
    if |a| > 0 && |b| > 0 && |c| > 0 && a[0] == b[0] && b[0] == c[0] {
      TitleLeTransitive(a[1..], b[1..], c[1..]);
    }
  }

  function Alphabetical(): (Track, Track) -> bool {
    (a: Track, b: Track) => TitleLe(a.title, b.title)
  }

  function Newest(): (Track, Track) -> bool {
    (a: Track, b: Track) => a.createdAt >= b.createdAt
  }

  lemma ArtistOrdersArePreorders()
    ensures TotalPreorder(Alphabetical()) && TotalPreorder(Newest())
  {
    forall a: Track, b: Track ensures Alphabetical()(a, b) || Alphabetical()(b, a) {
      TitleLeTotal(a.title, b.title);
    }
    forall a: Track, b: Track, c: Track | Alphabetical()(a, b) && Alphabetical()(b, c)
      ensures Alphabetical()(a, c)
    {
      TitleLeTransitive(a.title, b.title, c.title);
    }
  }

  /** The artist page's tabs: `new` newest first, `alphabetical` by title,
      anything else (`popular`) the order the tracks arrived in. */
  function ArtistTabOrder(tracks: seq<Track>, tab: string): seq<Track> {
    if tab == "new" then SortBy(tracks, Newest())
    else if tab == "alphabetical" then SortBy(tracks, Alphabetical())
    else tracks
  }

  /** Every tab shows the same tracks, each as often; `new` is ordered by
      creation time descending and `alphabetical` by title. */
  lemma ArtistTabOrderIsPermutation(tracks: seq<Track>, tab: string)
    ensures multiset(ArtistTabOrder(tracks, tab)) == multiset(tracks)
    ensures tab == "new" ==> forall i, j :: 0 <= i < j < |tracks| ==>
              ArtistTabOrder(tracks, tab)[i].createdAt >= ArtistTabOrder(tracks, tab)[j].createdAt
    ensures tab == "alphabetical" ==> forall i, j :: 0 <= i < j < |tracks| ==>
              TitleLe(ArtistTabOrder(tracks, tab)[i].title, ArtistTabOrder(tracks, tab)[j].title)
    ensures tab != "new" && tab != "alphabetical" ==> ArtistTabOrder(tracks, tab) == tracks
  {
    ArtistOrdersArePreorders();
    if tab == "new" {
      SortBySorted(tracks, Newest());
      var r := SortBy(tracks, Newest());
      forall i, j | 0 <= i < j < |tracks| ensures r[i].createdAt >= r[j].createdAt {
        assert Newest()(r[i], r[j]);
      }
    } else if tab == "alphabetical" {
      SortBySorted(tracks, Alphabetical());
      var r := SortBy(tracks, Alphabetical());
      forall i, j | 0 <= i < j < |tracks| ensures TitleLe(r[i].title, r[j].title) {
        assert Alphabetical()(r[i], r[j]);
      }
    }
  }

  /** The test of the track page's filter: the same artist, another id. */
  function ByArtistExcept(track: Track): Track -> bool {
    (t: Track) => t.artistId == track.artistId && t.id != track.id
  }

  /** The track page's "other tracks by this artist": the same artist, not
      the track itself, the first ten in catalogue order. */
  function OtherTracksByArtist(all: seq<Track>, track: Track): (r: seq<Track>)
    ensures |r| <= 10
    ensures forall t :: t in r ==> t in all && t.artistId == track.artistId && t.id != track.id
    ensures var same := Filter(all, ByArtistExcept(track));
            |r| == (if |same| <= 10 then |same| else 10) && r == same[..|r|]
  {
    var same := Filter(all, ByArtistExcept(track));
    var r := Take(same, 10);
    assert forall t :: t in r ==> t in same;
    r
  }

  /** The track page's album: looked up by the track's album id only when
      `window.albums` is non-empty; the album row is rendered iff it is found. */
  function AlbumOfTrack(albums: seq<Album>, track: Track): (r: Option<Album>)
    ensures r.Some? <==> exists a :: a in albums && a.id == track.albumId
    ensures r.Some? ==> r.value in albums && r.value.id == track.albumId
  {
    if |albums| > 0 then FindAlbum(albums, track.albumId) else None
  }
}
