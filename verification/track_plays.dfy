/** The catalog service's play log: one record per play of a track, the
    per-period counts read back from it, and the administrative
    `setPlayCounts`, which replaces a track's plays by synthetic ones dated
    so that each period's count comes out as requested. Time is in minutes;
    the clock is a `now` argument. */
module TrackPlays {
  import opened Wrappers

  const Minute: int := 1
  const Hour: int := 60
  const Day: int := 24 * Hour
  const Week: int := 7 * Day
  /** A calendar month, taken as thirty days. */
  const Month: int := 30 * Day

  /** A stored `TrackPlay` row. */
  datatype Play = Play(trackId: int, playedAt: int)

  /** The number of plays of the track, at or after `since` when given. */
  function Count(ps: seq<Play>, trackId: int, since: Option<int>): (n: nat)
    ensures n <= |ps|
  {
    if |ps| == 0 then 0
    else
      var p := ps[|ps| - 1];
      Count(ps[..|ps| - 1], trackId, since)
        + (if p.trackId == trackId && (since.None? || p.playedAt >= since.value) then 1 else 0)
  }

  lemma {:induction false} CountAppend(a: seq<Play>, b: seq<Play>, trackId: int, since: Option<int>)
    ensures Count(a + b, trackId, since) == Count(a, trackId, since) + Count(b, trackId, since)
  {
    if |b| > 0 {
      var b' := b[..|b| - 1];
      assert (a + b)[..|a + b| - 1] == a + b';
      assert (a + b)[|a + b| - 1] == b[|b| - 1];
      CountAppend(a, b', trackId, since);
    } else {
      assert a + b == a;
    }
  }

  /** `deleteByTrackId`: the plays of other tracks, in order. */
  function Without(ps: seq<Play>, trackId: int): (r: seq<Play>)
    ensures forall p :: p in r <==> p in ps && p.trackId != trackId
    ensures forall since :: Count(r, trackId, since) == 0
  {
    if |ps| == 0 then []
    else
      var rest := Without(ps[..|ps| - 1], trackId);
      var p := ps[|ps| - 1];
      assert forall q :: q in ps <==> q in ps[..|ps| - 1] || q == p;
      var r := if p.trackId != trackId then rest + [p] else rest;
      assert forall since :: Count(r, trackId, since) == 0 by {
        forall since ensures Count(r, trackId, since) == 0 {
          if p.trackId != trackId {
            assert r[..|r| - 1] == rest;
          }
        }
      }
      r
  }

  /** The four counts after `setPlayCounts`' clean-up. */
  datatype Counts = Counts(all: int, month: int, week: int, day: int)

  function Max0(x: int): (r: int)
    ensures r >= 0 && r >= x && (r == 0 || r == x)
  {
    if x > 0 then x else 0
  }

  function Max(x: int, y: int): (r: int)
    ensures r >= x && r >= y && (r == x || r == y)
  {
    if x >= y then x else y
  }

  /** Null becomes 0, a negative count becomes 0, and `all` is raised to the
      largest of the four. */
  function Normalize(all: Option<int>, month: Option<int>, week: Option<int>, day: Option<int>): (c: Counts)
    ensures c.month == (if month.Some? && month.value > 0 then month.value else 0)
    ensures c.week == (if week.Some? && week.value > 0 then week.value else 0)
    ensures c.day == (if day.Some? && day.value > 0 then day.value else 0)
    ensures c.all >= c.month && c.all >= c.week && c.all >= c.day && c.all >= 0
    ensures all.Some? ==> c.all >= all.value
    ensures c.all == c.month || c.all == c.week || c.all == c.day
            || (all.Some? && c.all == all.value) || c.all == 0
  {
    var a := Max0(all.GetOr(0));
    var m := Max0(month.GetOr(0));
    var w := Max0(week.GetOr(0));
    var d := Max0(day.GetOr(0));
    Counts(Max(a, Max(m, Max(w, d))), m, w, d)
  }

  /** `n` plays of the track requested at `start`, `start - step`, and so on. */
  function Bucket(trackId: int, n: nat, start: int, step: int): (r: seq<Play>)
    ensures |r| == n && forall p :: p in r ==> p.trackId == trackId
  {
    if n == 0 then [] else Bucket(trackId, n - 1, start, step) + [Play(trackId, start - (n - 1) * step)]
  }

  /** The records the four loops create, with the times they ask for:
      older than a month, within the month, within the week, within the day. */
  function Generated(trackId: int, c: Counts, now: int): seq<Play> {
    Bucket(trackId, Max0(c.all - c.month), now - 2 * Month, Day)
      + Bucket(trackId, Max0(c.month - c.week), now - 2 * Week, Day)
      + Bucket(trackId, Max0(c.week - c.day), now - 2 * Day, Hour)
      + Bucket(trackId, Max0(c.day), now - Hour, Minute)
  }

  /** Negative buckets create nothing; with `month >= week >= day` exactly
      `all` records are created, all of them for this track. */
  lemma GeneratedSize(trackId: int, c: Counts, now: int)
    requires c.all >= c.month >= 0 && c.week >= 0 && c.day >= 0
    ensures var g := Generated(trackId, c, now);
            |g| == (c.all - c.month) + Max0(c.month - c.week) + Max0(c.week - c.day) + c.day
            && (c.month >= c.week >= c.day ==> |g| == c.all)
            && forall p :: p in g ==> p.trackId == trackId
  {
  }

  /** `TrackPlay.onCreate`, which runs on every insert: the time is set to
      the insert's clock reading, whatever was requested. */
  function OnCreate(p: Play, now: int): Play {
    p.(playedAt := now)
  }

  function Restamp(ps: seq<Play>, now: int): (r: seq<Play>)
    ensures |r| == |ps| && forall k :: 0 <= k < |ps| ==> r[k] == OnCreate(ps[k], now)
  {
    seq(|ps|, k requires 0 <= k < |ps| => OnCreate(ps[k], now))
  }

  /** The rows `setPlayCounts` leaves for the track. */
  function Saved(trackId: int, c: Counts, now: int): seq<Play> {
    if c.all == 0 then [] else Restamp(Generated(trackId, c, now), now)
  }

  /** One of `setPlayCounts`' four loops: `count` records (none when it is
      negative) requested at `start`, `start - step`, and so on. */
  method AddBucket(trackPlays: seq<Play>, trackId: int, count: int, start: int, step: int) returns (r: seq<Play>)
    ensures r == trackPlays + Bucket(trackId, Max0(count), start, step)
  {
    r := trackPlays;
    var i := 0;
    while i < count
      invariant 0 <= i <= Max0(count)
      invariant r == trackPlays + Bucket(trackId, i, start, step)
    {
      r := r + [Play(trackId, start - i * step)];
      i := i + 1;
    }
  }

  /** The four loops of `setPlayCounts`, in their order. */
  method GeneratePlays(id: int, c: Counts, now: int) returns (trackPlays: seq<Play>)
    ensures trackPlays == Generated(id, c, now)
  {
    trackPlays := [];
    trackPlays := AddBucket(trackPlays, id, c.all - c.month, now - 2 * Month, Day);
    assert trackPlays == Bucket(id, Max0(c.all - c.month), now - 2 * Month, Day);
    trackPlays := AddBucket(trackPlays, id, c.month - c.week, now - 2 * Week, Day);
    trackPlays := AddBucket(trackPlays, id, c.week - c.day, now - 2 * Day, Hour);
    trackPlays := AddBucket(trackPlays, id, c.day, now - Hour, Minute);
  }

  class PlayStore {
    var plays: seq<Play>

    constructor ()
      ensures plays == []
    {
      plays := [];
    }

    /** `recordPlay(trackId)`. */
    method RecordPlay(trackId: int, now: int)
      modifies this
      ensures plays == old(plays) + [OnCreate(Play(trackId, now), now)]
    {
      plays := plays + [OnCreate(Play(trackId, now), now)];
    }

    /** `getPlayCounts(trackId)`: exactly the keys all, day, week and month. */
    method GetPlayCounts(trackId: int, now: int) returns (counts: map<string, int>)
      ensures counts.Keys == {"all", "day", "week", "month"}
      ensures counts["all"] == Count(plays, trackId, None)
      ensures counts["day"] == Count(plays, trackId, Some(now - Day))
      ensures counts["week"] == Count(plays, trackId, Some(now - Week))
      ensures counts["month"] == Count(plays, trackId, Some(now - Month))
    {
      counts := map[];
      counts := counts["all" := Count(plays, trackId, None)];
      counts := counts["day" := Count(plays, trackId, Some(now - Day))];
      counts := counts["week" := Count(plays, trackId, Some(now - Week))];
      counts := counts["month" := Count(plays, trackId, Some(now - Month))];
    }

    /** `setPlayCounts(trackId, all, month, week, day)`. */
    method SetPlayCounts(trackId: Option<int>, playCountAll: Option<int>, playCountMonth: Option<int>,
                         playCountWeek: Option<int>, playCountDay: Option<int>, now: int)
      returns (r: Result<(), string>)
      modifies this
      ensures trackId.None? ==> r == Err("Track ID cannot be null") && plays == old(plays)
      ensures trackId.Some? ==>
                r.Ok? && plays == Without(old(plays), trackId.value)
                  + Saved(trackId.value, Normalize(playCountAll, playCountMonth, playCountWeek, playCountDay), now)
    {
      if trackId.None? {
        return Err("Track ID cannot be null");
      }
      var id := trackId.value;
      var c := Normalize(playCountAll, playCountMonth, playCountWeek, playCountDay);
      plays := Without(plays, id);
      if c.all == 0 {
        assert plays + [] == plays;
        return Ok(());
      }
      var trackPlays := GeneratePlays(id, c, now);
      plays := plays + Restamp(trackPlays, now);
      return Ok(());
    }
  }

  // ---------------------------------------------------------------------------
  // What the counts read back

  lemma {:induction false} CountRestamped(ps: seq<Play>, trackId: int, now: int, since: Option<int>)
    requires forall p :: p in ps ==> p.trackId == trackId
    requires since.None? || since.value <= now
    ensures Count(Restamp(ps, now), trackId, since) == |ps|
  {
    if |ps| > 0 {
      var ps' := ps[..|ps| - 1];
      assert Restamp(ps, now)[..|ps| - 1] == Restamp(ps', now);
      assert ps[|ps| - 1] in ps;
      CountRestamped(ps', trackId, now, since);
    }
  }

  /** Read back at the same instant, `setPlayCounts` as written yields the
      same number for every period: all its records are stamped with the
      insert time. */
  lemma SetCountsReadBackAsWritten(before: seq<Play>, trackId: int, c: Counts, now: int, since: int)
    requires c.all >= c.month >= 0 && c.all >= c.week >= 0 && c.all >= c.day >= 0
    requires since <= now
    ensures var after := Without(before, trackId) + Saved(trackId, c, now);
            Count(after, trackId, Some(since)) == Count(after, trackId, None)
            == |Generated(trackId, c, now)|
  {
    var w := Without(before, trackId);
    var g := Generated(trackId, c, now);
    GeneratedSize(trackId, c, now);
    if c.all > 0 {
      CountAppend(w, Restamp(g, now), trackId, Some(since));
      CountAppend(w, Restamp(g, now), trackId, None);
      CountRestamped(g, trackId, now, Some(since));
      CountRestamped(g, trackId, now, None);
    } else {
      assert w + Saved(trackId, c, now) == w;
    }
  }

  /** Asking for 10 plays overall, 5 this month, 3 this week and 1 today
      gives 10 plays today. */
  lemma TodayCountsEverything(before: seq<Play>, trackId: int, now: int)
    ensures var c := Normalize(Some(10), Some(5), Some(3), Some(1));
            var after := Without(before, trackId) + Saved(trackId, c, now);
            Count(after, trackId, Some(now - Day)) == 10
  {
    var c := Normalize(Some(10), Some(5), Some(3), Some(1));
    assert c == Counts(10, 5, 3, 1);
    SetCountsReadBackAsWritten(before, trackId, c, now, now - Day);
  }

  // ---------------------------------------------------------------------------
  // The intended behaviour: the requested times are kept

  /** `onCreate` filling in the time only when none was requested; every
      record `setPlayCounts` creates has one, so its rows keep their times. */
  function SavedKeepingTimes(trackId: int, c: Counts, now: int): seq<Play> {
    if c.all == 0 then [] else Generated(trackId, c, now)
  }

  lemma MulMono(i: int, j: int, step: int)
    requires 0 <= i <= j && step >= 0
    ensures i * step <= j * step
  {
  }

  /** A bucket whose oldest request is still at or after `since` counts in
      full; one whose newest is before it counts nothing. */
  lemma {:induction false} CountBucket(trackId: int, n: nat, start: int, step: int, since: Option<int>)
    requires step >= 0
    ensures since.None? || n == 0 || start - (n - 1) * step >= since.value ==>
              Count(Bucket(trackId, n, start, step), trackId, since) == n
    ensures since.Some? && start < since.value ==> Count(Bucket(trackId, n, start, step), trackId, since) == 0
  {
    if n > 0 {
      var b := Bucket(trackId, n, start, step);
      assert b[..n - 1] == Bucket(trackId, n - 1, start, step);
      if since.Some? && n > 1 && start - (n - 1) * step >= since.value {
        MulMono(n - 2, n - 1, step);
      }
      CountBucket(trackId, n - 1, start, step, since);
      assert 0 <= (n - 1) * step by {
        MulMono(0, n - 1, step);
      }
    }
  }

  /** With the requested times kept, counts read back at the same instant
      are the ones asked for, as long as no bucket is so large that its
      oldest record leaves its period (17 days in the month bucket, 121 hours
      in the week bucket, 1381 minutes in the day bucket). */
  lemma SetCountsReadBackCorrected(trackId: int, c: Counts, now: int)
    requires c.all >= c.month >= c.week >= c.day >= 0
    requires c.month - c.week <= 17 && c.week - c.day <= 121 && c.day <= 1381
    ensures var g := SavedKeepingTimes(trackId, c, now);
            Count(g, trackId, None) == c.all
            && Count(g, trackId, Some(now - Month)) == c.month
            && Count(g, trackId, Some(now - Week)) == c.week
            && Count(g, trackId, Some(now - Day)) == c.day
  {
    if c.all > 0 {
      var b1 := Bucket(trackId, c.all - c.month, now - 2 * Month, Day);
      var b2 := Bucket(trackId, c.month - c.week, now - 2 * Week, Day);
      var b3 := Bucket(trackId, c.week - c.day, now - 2 * Day, Hour);
      var b4 := Bucket(trackId, c.day, now - Hour, Minute);
      assert SavedKeepingTimes(trackId, c, now) == b1 + b2 + b3 + b4;
      CountFour(b1, b2, b3, b4, trackId, None);
      CountFour(b1, b2, b3, b4, trackId, Some(now - Month));
      CountFour(b1, b2, b3, b4, trackId, Some(now - Week));
      CountFour(b1, b2, b3, b4, trackId, Some(now - Day));
      BucketCounts(trackId, c, now);
    }
  }

  /** Counting four buckets is counting each. */
  lemma CountFour(b1: seq<Play>, b2: seq<Play>, b3: seq<Play>, b4: seq<Play>, trackId: int, since: Option<int>)
    ensures Count(b1 + b2 + b3 + b4, trackId, since)
            == Count(b1, trackId, since) + Count(b2, trackId, since) + Count(b3, trackId, since) + Count(b4, trackId, since)
  {
    CountAppend(b1 + b2 + b3, b4, trackId, since);
    CountAppend(b1 + b2, b3, trackId, since);
    CountAppend(b1, b2, trackId, since);
  }

  lemma BucketCounts(trackId: int, c: Counts, now: int)
    requires c.all >= c.month >= c.week >= c.day >= 0
    requires c.month - c.week <= 17 && c.week - c.day <= 121 && c.day <= 1381
    ensures var n1, n2, n3, n4 := c.all - c.month, c.month - c.week, c.week - c.day, c.day;
            var b1 := Bucket(trackId, n1, now - 2 * Month, Day);
            var b2 := Bucket(trackId, n2, now - 2 * Week, Day);
            var b3 := Bucket(trackId, n3, now - 2 * Day, Hour);
            var b4 := Bucket(trackId, n4, now - Hour, Minute);
            Count(b1, trackId, None) == n1 && Count(b2, trackId, None) == n2
            && Count(b3, trackId, None) == n3 && Count(b4, trackId, None) == n4
            && Count(b1, trackId, Some(now - Month)) == 0 && Count(b2, trackId, Some(now - Month)) == n2
            && Count(b3, trackId, Some(now - Month)) == n3 && Count(b4, trackId, Some(now - Month)) == n4
            && Count(b1, trackId, Some(now - Week)) == 0 && Count(b2, trackId, Some(now - Week)) == 0
            && Count(b3, trackId, Some(now - Week)) == n3 && Count(b4, trackId, Some(now - Week)) == n4
            && Count(b1, trackId, Some(now - Day)) == 0 && Count(b2, trackId, Some(now - Day)) == 0
            && Count(b3, trackId, Some(now - Day)) == 0 && Count(b4, trackId, Some(now - Day)) == n4
  {
    OldBucketCounts(trackId, c.all - c.month, now);
    MonthBucketCounts(trackId, c.month - c.week, now);
    WeekBucketCounts(trackId, c.week - c.day, now);
    DayBucketCounts(trackId, c.day, now);
  }

  /** Every period sees the bucket in full or not at all. */
  lemma BucketIn(trackId: int, n: nat, start: int, step: int, since: int, m: nat)
    requires step >= 0 && n <= m + 1 && start - m * step >= since
    ensures Count(Bucket(trackId, n, start, step), trackId, Some(since)) == n
  {
    if n > 0 {
      MulMono(n - 1, m, step);
    }
    CountBucket(trackId, n, start, step, Some(since));
  }

  lemma BucketOut(trackId: int, n: nat, start: int, step: int, since: int)
    requires step >= 0 && start < since
    ensures Count(Bucket(trackId, n, start, step), trackId, Some(since)) == 0
  {
    CountBucket(trackId, n, start, step, Some(since));
  }

  lemma OldBucketCounts(trackId: int, n: nat, now: int)
    ensures var b := Bucket(trackId, n, now - 2 * Month, Day);
            Count(b, trackId, None) == n && Count(b, trackId, Some(now - Month)) == 0
            && Count(b, trackId, Some(now - Week)) == 0 && Count(b, trackId, Some(now - Day)) == 0
  {
    CountBucket(trackId, n, now - 2 * Month, Day, None);
    BucketOut(trackId, n, now - 2 * Month, Day, now - Month);
    BucketOut(trackId, n, now - 2 * Month, Day, now - Week);
    BucketOut(trackId, n, now - 2 * Month, Day, now - Day);
  }

  lemma MonthBucketCounts(trackId: int, n: nat, now: int)
    requires n <= 17
    ensures var b := Bucket(trackId, n, now - 2 * Week, Day);
            Count(b, trackId, None) == n && Count(b, trackId, Some(now - Month)) == n
            && Count(b, trackId, Some(now - Week)) == 0 && Count(b, trackId, Some(now - Day)) == 0
  {
    CountBucket(trackId, n, now - 2 * Week, Day, None);
    BucketIn(trackId, n, now - 2 * Week, Day, now - Month, 16);
    BucketOut(trackId, n, now - 2 * Week, Day, now - Week);
    BucketOut(trackId, n, now - 2 * Week, Day, now - Day);
  }

  lemma WeekBucketCounts(trackId: int, n: nat, now: int)
    requires n <= 121
    ensures var b := Bucket(trackId, n, now - 2 * Day, Hour);
            Count(b, trackId, None) == n && Count(b, trackId, Some(now - Month)) == n
            && Count(b, trackId, Some(now - Week)) == n && Count(b, trackId, Some(now - Day)) == 0
  {
    CountBucket(trackId, n, now - 2 * Day, Hour, None);
    BucketIn(trackId, n, now - 2 * Day, Hour, now - Month, 120);
    BucketIn(trackId, n, now - 2 * Day, Hour, now - Week, 120);
    BucketOut(trackId, n, now - 2 * Day, Hour, now - Day);
  }

  lemma DayBucketCounts(trackId: int, n: nat, now: int)
    requires n <= 1381
    ensures var b := Bucket(trackId, n, now - Hour, Minute);
            Count(b, trackId, None) == n && Count(b, trackId, Some(now - Month)) == n
            && Count(b, trackId, Some(now - Week)) == n && Count(b, trackId, Some(now - Day)) == n
  {
    CountBucket(trackId, n, now - Hour, Minute, None);
    BucketIn(trackId, n, now - Hour, Minute, now - Month, 1380);
    BucketIn(trackId, n, now - Hour, Minute, now - Week, 1380);
    BucketIn(trackId, n, now - Hour, Minute, now - Day, 1380);
  }
}
