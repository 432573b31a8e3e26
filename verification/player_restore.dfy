/** The player's snapshot in local storage: what `savePlayerState` writes, and
    what `restorePlayerState` and `loadTrackForRestore` rebuild from it. The
    clock is a `now` argument in milliseconds, and the timer-driven retries are
    the sequence of values `window.tracks` has at each attempt. */
module PlayerRestore {
  import opened Wrappers
  import opened Text
  import opened Catalog
  import opened PlayerState

  /** What the snapshot keeps of each playlist entry. */
  datatype Stub = Stub(id: int, title: string, artistId: int, albumId: int)

  datatype Snapshot = Snapshot(
    currentTrackId: Option<int>,
    currentTrackIndex: int,
    playlist: seq<Stub>,
    isPlaying: bool,
    currentTime: real,
    volume: real,
    isMuted: bool,
    isShuffled: bool,
    isRepeated: bool,
    timestamp: int)

  /** A snapshot older than this many milliseconds is thrown away. */
  const OneHour: int := 60 * 60 * 1000

  /** The number of attempts the restore makes to find loaded tracks. */
  const MaxRetries: nat := 10

  function StubOf(t: Track): (st: Stub)
    ensures st.id == t.id
  {
    Stub(t.id, t.title, t.artistId, t.albumId)
  }

  function Stubs(ts: seq<Track>): (r: seq<Stub>)
    ensures |r| == |ts| && forall k :: 0 <= k < |ts| ==> r[k] == StubOf(ts[k])
  {
    seq(|ts|, k requires 0 <= k < |ts| => StubOf(ts[k]))
  }

  /** `savePlayerState()` at time `now`. */
  function Save(s: State, now: int): Snapshot {
    Snapshot(
      if s.currentTrack.Some? then Some(s.currentTrack.value.id) else None,
      s.index, Stubs(s.playlist), s.isPlaying, s.audio.position,
      s.volume, s.isMuted, s.isShuffled, s.isRepeated, now)
  }

  /** A saved entry with no loaded record is kept as it was: an object with
      only these four fields, whose missing ones read as falsy. */
  function StubTrack(st: Stub): Track {
    Track(st.id, st.title, st.artistId, st.albumId, "", 0, None, None, 0, None, None, None, None)
  }

  /** `allTracks.find(t => t.id === savedTrack.id) || savedTrack`. */
  function RebuildEntry(all: seq<Track>, st: Stub): (t: Track)
    ensures t.id == st.id
  {
    match FindTrack(all, st.id)
    case Some(t) => t
    case None => StubTrack(st)
  }

  function Rebuild(all: seq<Track>, stubs: seq<Stub>): (r: seq<Track>)
    ensures |r| == |stubs| && forall k :: 0 <= k < |stubs| ==> r[k] == RebuildEntry(all, stubs[k])
  {
    seq(|stubs|, k requires 0 <= k < |stubs| => RebuildEntry(all, stubs[k]))
  }

  /** The volume, mute, shuffle and repeat settings, applied at once. */
  function ApplySettings(s: State, snap: Snapshot): State {
    s.(volume := snap.volume, isMuted := snap.isMuted,
       audio := s.audio.(volume := snap.volume, muted := snap.isMuted),
       isShuffled := snap.isShuffled, isRepeated := snap.isRepeated)
  }

  /** `loadTrackForRestore(track, savedTime)`: the track becomes current and,
      when it has a file, its source is loaded with the saved position left
      for the `loadedmetadata` handler; play is never requested. */
  function LoadForRestore(s: State, t: Track, savedTime: real, base: string): State {
    var c := s.(currentTrack := Some(t));
    if Truthy(t.filePath) then ElementLoad(c, TrackStreamUrl(base, t.id)).(pendingSeek := Some(savedTime))
    else c
  }

  /** `restoreTrack` once `window.tracks` is loaded: the playlist is rebuilt
      from the saved ids, and a saved current track that is among the loaded
      ones is reloaded at the saved index when that is in range, else at its
      first position, else at 0. */
  function RestoreTrack(s: State, snap: Snapshot, all: seq<Track>, base: string): State {
    ReloadCurrent(Relisted(s, snap, all), snap, all, base)
  }

  /** The first step of `restoreTrack`: a non-empty saved playlist replaces
      the playlist, rebuilt from the loaded tracks. */
  function Relisted(s: State, snap: Snapshot, all: seq<Track>): State {
    if |snap.playlist| > 0 then s.(playlist := Rebuild(all, snap.playlist)) else s
  }

  /** The second step of `restoreTrack`: a saved, non-zero current id found
      among the loaded tracks is reloaded. */
  function ReloadCurrent(p: State, snap: Snapshot, all: seq<Track>, base: string): State {
    if snap.currentTrackId.Some? && snap.currentTrackId.value != 0 then
      var id := snap.currentTrackId.value;
      match FindTrack(all, id)
      case None => p
      case Some(t) => ReloadTrack(p, snap, t, base)
    else p
  }

  /** The found track is reloaded at the saved index when that is in range,
      else at its first position in the playlist, else at 0. */
  function ReloadTrack(p: State, snap: Snapshot, t: Track, base: string): State {
    var i := if 0 <= snap.currentTrackIndex < |p.playlist| then snap.currentTrackIndex
             else IndexOrZero(p.playlist, t.id);
    LoadForRestore(p.(index := i), t, snap.currentTime, base)
  }

  /** The value of `window.tracks` at attempt `k`; attempts after the last
      one observed see nothing loaded. */
  function Poll(polls: seq<Option<seq<Track>>>, k: nat): Option<seq<Track>> {
    if k < |polls| then polls[k] else None
  }

  /** The first loaded, non-empty `window.tracks` among `budget` attempts
      starting at attempt `k`. */
  function FirstLoadedFrom(polls: seq<Option<seq<Track>>>, k: nat, budget: nat): (r: Option<seq<Track>>)
    ensures r.Some? ==> |r.value| > 0 && exists j :: k <= j < k + budget && Poll(polls, j) == r
    decreases budget
  {
    if budget == 0 then None
    else
      var p := Poll(polls, k);
      if p.Some? && |p.value| > 0 then p else FirstLoadedFrom(polls, k + 1, budget - 1)
  }

  datatype Restored = Restored(state: State, stored: Option<Snapshot>)

  /** `restorePlayerState()` with the stored snapshot, the time, whether the
      page has an API to load tracks with, and what each attempt sees. */
  function Restore(s: State, saved: Option<Snapshot>, now: int, apiAvailable: bool,
                   polls: seq<Option<seq<Track>>>, base: string): Restored {
    match saved
    case None => Restored(s, None)
    case Some(snap) =>
      if now - snap.timestamp > OneHour then Restored(s, None)
      else
        var a := ApplySettings(s, snap);
        var loaded := if apiAvailable then FirstLoadedFrom(polls, 0, MaxRetries) else None;
        Restored(if loaded.Some? then RestoreTrack(a, snap, loaded.value, base) else a, saved)
  }

  // ---------------------------------------------------------------------------
  // Properties

  /** A snapshot older than strictly one hour is removed and nothing is
      applied; one exactly an hour old is still used. */
  lemma StaleSnapshotDiscarded(s: State, snap: Snapshot, now: int, apiAvailable: bool,
                               polls: seq<Option<seq<Track>>>, base: string)
    ensures now - snap.timestamp > 3600000 ==>
              Restore(s, Some(snap), now, apiAvailable, polls, base) == Restored(s, None)
    ensures now - snap.timestamp <= 3600000 ==>
              Restore(s, Some(snap), now, apiAvailable, polls, base).stored == Some(snap)
  {
  }

  /** A fresh snapshot's settings apply at once, whatever the attempts see,
      and restoring never starts playback: the playing flag is left as it was
      and a loaded source is left paused. */
  lemma FreshSnapshotAppliesSettings(s: State, snap: Snapshot, now: int, apiAvailable: bool,
                                     polls: seq<Option<seq<Track>>>, base: string)
    requires now - snap.timestamp <= OneHour
    ensures var r := Restore(s, Some(snap), now, apiAvailable, polls, base).state;
            r.volume == snap.volume && r.audio.volume == snap.volume
            && r.isMuted == snap.isMuted && r.audio.muted == snap.isMuted
            && r.isShuffled == snap.isShuffled && r.isRepeated == snap.isRepeated
            && r.isPlaying == s.isPlaying && r.awaitingPlay == s.awaitingPlay
            && (r.audio.src != s.audio.src ==> r.audio.paused)
  {
    var a := ApplySettings(s, snap);
    if apiAvailable && FirstLoadedFrom(polls, 0, MaxRetries).Some? {
      RestoreTrackKeepsSettings(a, snap, FirstLoadedFrom(polls, 0, MaxRetries).value, base);
    }
  }

  /** The settings and playback of `after` are those of `before`, and a
      changed source is left paused. */
  predicate KeepsSettings(before: State, after: State) {
    after.volume == before.volume && after.audio.volume == before.audio.volume
    && after.isMuted == before.isMuted && after.audio.muted == before.audio.muted
    && after.isShuffled == before.isShuffled && after.isRepeated == before.isRepeated
    && after.isPlaying == before.isPlaying && after.awaitingPlay == before.awaitingPlay
    && (after.audio.src != before.audio.src ==> after.audio.paused)
  }

  /** Rebuilding the track part touches neither the settings nor playback. */
  lemma RestoreTrackKeepsSettings(a: State, snap: Snapshot, all: seq<Track>, base: string)
    ensures KeepsSettings(a, RestoreTrack(a, snap, all, base))
  {
    var p := Relisted(a, snap, all);
    assert p.audio == a.audio && KeepsSettings(a, p);
    ReloadKeepsSettings(p, snap, all, base);
  }

  lemma ReloadKeepsSettings(p: State, snap: Snapshot, all: seq<Track>, base: string)
    ensures KeepsSettings(p, ReloadCurrent(p, snap, all, base))
  {
    if snap.currentTrackId.Some? && snap.currentTrackId.value != 0 {
      match FindTrack(all, snap.currentTrackId.value)
      case None =>
      case Some(t) =>
        var i := if 0 <= snap.currentTrackIndex < |p.playlist| then snap.currentTrackIndex
                 else IndexOrZero(p.playlist, t.id);
        LoadForRestoreKeepsSettings(p.(index := i), t, snap.currentTime, base);
    }
  }

  lemma LoadForRestoreKeepsSettings(s: State, t: Track, savedTime: real, base: string)
    ensures KeepsSettings(s, LoadForRestore(s, t, savedTime, base))
  {
    var c := s.(currentTrack := Some(t));
    if Truthy(t.filePath) {
      assert LoadForRestore(s, t, savedTime, base).audio.paused;
    } else {
      assert LoadForRestore(s, t, savedTime, base) == c;
    }
  }

  /** The saved playing flag is written but never read back. */
  lemma SavedPlayingFlagIgnored(s: State, snap: Snapshot, now: int, apiAvailable: bool,
                                polls: seq<Option<seq<Track>>>, base: string)
    ensures Restore(s, Some(snap), now, apiAvailable, polls, base).state
            == Restore(s, Some(snap.(isPlaying := !snap.isPlaying)), now, apiAvailable, polls, base).state
  {
    var other := snap.(isPlaying := !snap.isPlaying);
    assert ApplySettings(s, snap) == ApplySettings(s, other);
    var a := ApplySettings(s, snap);
    assert other.timestamp == snap.timestamp;
    var loaded := if apiAvailable then FirstLoadedFrom(polls, 0, MaxRetries) else None;
    if loaded.Some? {
      RestoreTrackReadsNoPlayingFlag(a, snap, loaded.value, base, !snap.isPlaying);
    }
  }

  lemma RestoreTrackReadsNoPlayingFlag(a: State, snap: Snapshot, all: seq<Track>, base: string, b: bool)
    ensures RestoreTrack(a, snap, all, base) == RestoreTrack(a, snap.(isPlaying := b), all, base)
  {
    var o := snap.(isPlaying := b);
    assert o.playlist == snap.playlist && o.currentTrackId == snap.currentTrackId;
    assert o.currentTrackIndex == snap.currentTrackIndex && o.currentTime == snap.currentTime;
  }

  /** At most ten attempts are made: what later attempts would see does not
      matter, and without an API no attempt is made at all. */
  lemma {:induction false} AtMostTenAttempts(polls: seq<Option<seq<Track>>>, later: seq<Option<seq<Track>>>)
    requires |polls| >= MaxRetries
    ensures FirstLoadedFrom(polls, 0, MaxRetries) == FirstLoadedFrom(polls[..MaxRetries] + later, 0, MaxRetries)
  {
    FirstLoadedPrefix(polls, polls[..MaxRetries] + later, 0, MaxRetries);
  }

  lemma {:induction false} FirstLoadedPrefix(a: seq<Option<seq<Track>>>, b: seq<Option<seq<Track>>>, k: nat, budget: nat)
    requires forall j :: k <= j < k + budget ==> Poll(a, j) == Poll(b, j)
    ensures FirstLoadedFrom(a, k, budget) == FirstLoadedFrom(b, k, budget)
    decreases budget
  {
    if budget > 0 {
      FirstLoadedPrefix(a, b, k + 1, budget - 1);
    }
  }

  /** When no attempt sees loaded tracks the track part of the session is
      left exactly as it was. */
  lemma NothingLoadedLeavesTrack(s: State, snap: Snapshot, now: int, apiAvailable: bool,
                                 polls: seq<Option<seq<Track>>>, base: string)
    requires now - snap.timestamp <= OneHour
    requires !apiAvailable || FirstLoadedFrom(polls, 0, MaxRetries).None?
    ensures Restore(s, Some(snap), now, apiAvailable, polls, base) == Restored(ApplySettings(s, snap), Some(snap))
  {
  }

  /** The rebuilt playlist has the snapshot's length and id order; an entry
      whose id is loaded is the loaded record. */
  lemma RebuiltPlaylistKeepsIds(s: State, snap: Snapshot, all: seq<Track>, base: string)
    requires |snap.playlist| > 0
    ensures var r := RestoreTrack(s, snap, all, base);
            |r.playlist| == |snap.playlist|
            && (forall k :: 0 <= k < |snap.playlist| ==> r.playlist[k].id == snap.playlist[k].id)
            && (forall k :: 0 <= k < |snap.playlist| && HasTrack(all, snap.playlist[k].id) ==>
                  r.playlist[k] in all)
  {
    var r := RestoreTrack(s, snap, all, base);
    var rebuilt := Rebuild(all, snap.playlist);
    assert r.playlist == rebuilt;
    forall k | 0 <= k < |snap.playlist| && HasTrack(all, snap.playlist[k].id)
      ensures r.playlist[k] in all
    {
      var t := FindTrack(all, snap.playlist[k].id);
      assert r.playlist[k] == t.value;
    }
  }

  /** A saved current track that is loaded becomes current again, at the
      saved index when that is in range, else at its first position in the
      playlist, else at 0; it is not played, and a saved position is left for
      the metadata to apply. */
  lemma RestoredTrackIndex(s: State, snap: Snapshot, all: seq<Track>, base: string)
    requires snap.currentTrackId.Some? && snap.currentTrackId.value != 0
    requires HasTrack(all, snap.currentTrackId.value)
    ensures var id := snap.currentTrackId.value;
            var r := RestoreTrack(s, snap, all, base);
            var k := FindIndex(r.playlist, id);
            r.currentTrack == FindTrack(all, id) && r.currentTrack.value.id == id
            && (0 <= snap.currentTrackIndex < |r.playlist| ==> r.index == snap.currentTrackIndex)
            && (!(0 <= snap.currentTrackIndex < |r.playlist|) ==> r.index == if k == -1 then 0 else k)
            && IndexInRange(r) && r.isPlaying == s.isPlaying && r.awaitingPlay == s.awaitingPlay
            && (Truthy(r.currentTrack.value.filePath) ==>
                  r.audio.src == TrackStreamUrl(base, id) && r.audio.paused
                  && r.pendingSeek == Some(snap.currentTime))
  {
    var p := Relisted(s, snap, all);
    assert p.isPlaying == s.isPlaying && p.awaitingPlay == s.awaitingPlay;
    ReloadFound(p, snap, all, base);
  }

  lemma ReloadFound(p: State, snap: Snapshot, all: seq<Track>, base: string)
    requires snap.currentTrackId.Some? && snap.currentTrackId.value != 0
    requires HasTrack(all, snap.currentTrackId.value)
    ensures var id := snap.currentTrackId.value;
            var r := ReloadCurrent(p, snap, all, base);
            var k := FindIndex(p.playlist, id);
            r.currentTrack == FindTrack(all, id) && r.currentTrack.value.id == id
            && r.playlist == p.playlist
            && (0 <= snap.currentTrackIndex < |p.playlist| ==> r.index == snap.currentTrackIndex)
            && (!(0 <= snap.currentTrackIndex < |p.playlist|) ==> r.index == if k == -1 then 0 else k)
            && r.isPlaying == p.isPlaying && r.awaitingPlay == p.awaitingPlay
            && (Truthy(r.currentTrack.value.filePath) ==>
                  r.audio.src == TrackStreamUrl(base, id) && r.audio.paused
                  && r.pendingSeek == Some(snap.currentTime))
  {
    var t := FindTrack(all, snap.currentTrackId.value).value;
    assert ReloadCurrent(p, snap, all, base) == ReloadTrack(p, snap, t, base);
    ReloadTrackFacts(p, snap, t, base);
  }

  lemma ReloadTrackFacts(p: State, snap: Snapshot, t: Track, base: string)
    ensures var r := ReloadTrack(p, snap, t, base);
            var k := FindIndex(p.playlist, t.id);
            r.currentTrack == Some(t) && r.playlist == p.playlist
            && (0 <= snap.currentTrackIndex < |p.playlist| ==> r.index == snap.currentTrackIndex)
            && (!(0 <= snap.currentTrackIndex < |p.playlist|) ==> r.index == if k == -1 then 0 else k)
            && r.isPlaying == p.isPlaying && r.awaitingPlay == p.awaitingPlay
            && (Truthy(t.filePath) ==>
                  r.audio.src == TrackStreamUrl(base, t.id) && r.audio.paused
                  && r.pendingSeek == Some(snap.currentTime))
  {
    var i := if 0 <= snap.currentTrackIndex < |p.playlist| then snap.currentTrackIndex
             else IndexOrZero(p.playlist, t.id);
    var c := p.(index := i, currentTrack := Some(t));
    var r := ReloadTrack(p, snap, t, base);
    if Truthy(t.filePath) {
      assert r == ElementLoad(c, TrackStreamUrl(base, t.id)).(pendingSeek := Some(snap.currentTime));
    } else {
      assert r == c;
    }
  }

  /** A saved current track that is no longer loaded leaves the index alone,
      so a restored playlist can be left with the initial index -1. */
  lemma UnloadedCurrentTrackLeavesIndex(base: string)
    ensures var a, b := StubTrack(Stub(1, "", 0, 0)), StubTrack(Stub(2, "", 0, 0));
            var snap := Snapshot(Some(3), 0, [StubOf(a)], false, 0.0, 1.0, false, false, false, 0);
            var r := RestoreTrack(Initial(Some([b])), snap, [b], base);
            |r.playlist| == 1 && r.index == -1 && !IndexInRange(r)
  {
    var a, b := StubTrack(Stub(1, "", 0, 0)), StubTrack(Stub(2, "", 0, 0));
    assert FindTrack([b], 3).None?;
  }

  /** Ids are unique in the loaded list. */
  predicate UniqueIds(all: seq<Track>) {
    forall i, j :: 0 <= i < |all| && 0 <= j < |all| && all[i].id == all[j].id ==> i == j
  }

  lemma FindLoaded(all: seq<Track>, t: Track)
    requires UniqueIds(all) && t in all
    ensures FindTrack(all, t.id) == Some(t)
  {
    var j :| 0 <= j < |all| && all[j] == t;
    var i := FindIndex(all, t.id);
    assert i != -1 by {
      assert HasTrack(all, t.id);
    }
  }

  /** Saving and restoring within the hour, once the same tracks are loaded,
      gives back the playlist, the current track, the index and the
      settings, provided the loaded ids are unique and hold every playlist
      entry and the current track. */
  lemma {:induction false} SaveRestoreRoundTrip(s: State, now: int, later: int, polls: seq<Option<seq<Track>>>,
                                                all: seq<Track>, base: string)
    requires 0 <= later - now <= OneHour
    requires FirstLoadedFrom(polls, 0, MaxRetries) == Some(all) && UniqueIds(all)
    requires |s.playlist| > 0 && IndexInRange(s) && forall t :: t in s.playlist ==> t in all
    requires s.currentTrack.Some? && s.currentTrack.value.id != 0 && s.currentTrack.value in all
    ensures var r := Restore(s, Some(Save(s, now)), later, true, polls, base).state;
            r.playlist == s.playlist && r.currentTrack == s.currentTrack && r.index == s.index
            && r.volume == s.volume && r.isMuted == s.isMuted
            && r.isShuffled == s.isShuffled && r.isRepeated == s.isRepeated
  {
    var snap := Save(s, now);
    var a := ApplySettings(s, snap);
    forall k | 0 <= k < |s.playlist| ensures Rebuild(all, snap.playlist)[k] == s.playlist[k] {
      FindLoaded(all, s.playlist[k]);
    }
    assert Rebuild(all, snap.playlist) == s.playlist;
    var t := s.currentTrack.value;
    FindLoaded(all, t);
    var p := a.(playlist := s.playlist);
    assert Relisted(a, snap, all) == p;
    assert RestoreTrack(a, snap, all, base) == ReloadTrack(p, snap, t, base);
    ReloadTrackFacts(p, snap, t, base);
    assert Restore(s, Some(snap), later, true, polls, base).state == RestoreTrack(a, snap, all, base);
    FreshSnapshotAppliesSettings(s, snap, later, true, polls, base);
  }
}
