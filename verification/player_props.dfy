/** What the player's entry points promise, proved about the functions of
    player_state.dfy: the playlist installation, the same-track toggle, the
    three-tier lookup, stepping with its fallbacks and clamping, the end of a
    track, the flags and the volume, and the play-button icon. */
module PlayerProps {
  import opened Wrappers
  import opened Text
  import opened Catalog
  import opened PlayerState

  // ---------------------------------------------------------------------------
  // setPlaylist

  /** A null or empty list changes nothing; any other list is installed with
      the start index, or 0 when the start index is outside it, and nothing
      else changes: the current track, the playing flag and the element are
      left alone. */
  lemma SetPlaylistInstalls(s: State, tracks: Option<seq<Track>>, start: int)
    ensures var r := SetPlaylist(s, tracks, start);
            ((tracks.None? || |tracks.value| == 0) ==> r == s)
            && (tracks.Some? && |tracks.value| > 0 ==>
                  r.playlist == tracks.value
                  && 0 <= r.index < |tracks.value|
                  && (0 <= start < |tracks.value| ==> r.index == start)
                  && (start < 0 || start >= |tracks.value| ==> r.index == 0)
                  && r.(playlist := s.playlist, index := s.index) == s)
  {
  }

  // ---------------------------------------------------------------------------
  // playTrack

  /** The current track's id never reloads: a playing track is paused through
      `togglePlayPause`, a paused one resumes where it stopped, and the
      playlist, the index and the source stay as they were. */
  lemma SameTrackNeverReloads(s: State, id: int, fetched: Option<Track>, allowed: bool, base: string)
    requires IsCurrent(s, id)
    ensures var r := PlayTrack(s, id, fetched, allowed, base);
            r.currentTrack == s.currentTrack && r.playlist == s.playlist && r.index == s.index
            && r.windowTracks == s.windowTracks && r.audio.src == s.audio.src
            && r.awaitingPlay == s.awaitingPlay
            && (!Ended(s.audio) ==> r.audio.position == s.audio.position)
            && (s.isPlaying && !s.audio.paused ==> r.audio.paused && !r.isPlaying)
            && (s.isPlaying && s.audio.paused ==> r == s)
            && (!s.isPlaying ==> r.isPlaying == allowed && (allowed ==> !r.audio.paused))
  {
    if s.isPlaying {
      assert PlayTrack(s, id, fetched, allowed, base) == ElementPause(s);
    } else {
      assert PlayTrack(s, id, fetched, allowed, base) == Resume(s, allowed);
    }
  }

  /** A track in the current playlist is taken from there, at its first
      position, and the playlist is kept. */
  lemma PlaylistTierComesFirst(s: State, id: int, fetched: Option<Track>, allowed: bool, base: string)
    requires !IsCurrent(s, id) && HasTrack(s.playlist, id)
    ensures var r := PlayTrack(s, id, fetched, allowed, base);
            var i := FindIndex(s.playlist, id);
            r.playlist == s.playlist && r.index == i && r.currentTrack == Some(s.playlist[i])
            && r.currentTrack.value.id == id && r.windowTracks == s.windowTracks
            && forall j :: 0 <= j < i ==> s.playlist[j].id != id
  {
    var i := FindIndex(s.playlist, id);
    var f := Found(s.playlist[i], i, s.playlist, s.windowTracks);
    assert Lookup(s, id, fetched) == Some(f);
    assert PlayTrack(s, id, fetched, allowed, base) == Start(s, f, id, base);
    StartCommits(s, f, id, base);
  }

  /** A track missing from the playlist but present in `window.tracks`
      replaces the playlist by all tracks. */
  lemma WindowTierReplacesPlaylist(s: State, id: int, fetched: Option<Track>, allowed: bool, base: string)
    requires !IsCurrent(s, id) && !HasTrack(s.playlist, id)
    requires s.windowTracks.Some? && HasTrack(s.windowTracks.value, id)
    ensures var r := PlayTrack(s, id, fetched, allowed, base);
            var all := s.windowTracks.value;
            r.playlist == all && r.index == FindIndex(all, id) && r.currentTrack == Some(all[r.index])
            && r.currentTrack.value.id == id && r.windowTracks == s.windowTracks
  {
    var all := s.windowTracks.value;
    var j := FindIndex(all, id);
    var f := Found(all[j], j, all, s.windowTracks);
    assert Lookup(s, id, fetched) == Some(f);
    assert PlayTrack(s, id, fetched, allowed, base) == Start(s, f, id, base);
    StartCommits(s, f, id, base);
  }

  /** Only a track found nowhere is fetched: it becomes a one-track playlist
      and is appended to an existing `window.tracks`. */
  lemma FetchTierMakesOneTrackPlaylist(s: State, id: int, t: Track, allowed: bool, base: string)
    requires !IsCurrent(s, id) && !HasTrack(s.playlist, id) && !HasTrack(s.windowTracks.GetOr([]), id)
    ensures var r := PlayTrack(s, id, Some(t), allowed, base);
            r.playlist == [t] && r.index == 0 && r.currentTrack == Some(t)
            && (s.windowTracks.Some? ==> r.windowTracks == Some(s.windowTracks.value + [t]))
            && (s.windowTracks.None? ==> r.windowTracks.None?)
  {
  }

  /** When all three tiers fail no session field changes. */
  lemma NotFoundChangesNothing(s: State, id: int, allowed: bool, base: string)
    requires !IsCurrent(s, id) && !HasTrack(s.playlist, id) && !HasTrack(s.windowTracks.GetOr([]), id)
    ensures PlayTrack(s, id, None, allowed, base) == s
  {
  }

  /** A resolved track is current, at its index, before its file is looked
      at: with a file the element is loaded from the stream URL and waits for
      its metadata; without one the source is cleared, play is not requested,
      and the track stays current all the same. */
  lemma ResolvedTrackIsCommitted(s: State, id: int, fetched: Option<Track>, allowed: bool, base: string)
    requires !IsCurrent(s, id) && Lookup(s, id, fetched).Some?
    ensures var r := PlayTrack(s, id, fetched, allowed, base);
            r.currentTrack.Some? && 0 <= r.index < |r.playlist| && r.playlist[r.index] == r.currentTrack.value
            && ((fetched.None? || fetched.value.id == id) ==> r.currentTrack.value.id == id)
            && r.audio.position == 0.0 && r.audio.paused && r.isPlaying == s.isPlaying
            && (Truthy(r.currentTrack.value.filePath) ==>
                  r.audio.src == TrackStreamUrl(base, id) && r.awaitingPlay)
            && (!Truthy(r.currentTrack.value.filePath) ==>
                  r.audio.src == "" && r.awaitingPlay == s.awaitingPlay)
  {
    var f := Lookup(s, id, fetched).value;
    LookupFindsTrack(s, id, fetched);
    assert PlayTrack(s, id, fetched, allowed, base) == Start(s, f, id, base);
    StartCommits(s, f, id, base);
  }

  /** Committing a found track, whatever the lookup was. */
  lemma StartCommits(s: State, f: Found, id: int, base: string)
    requires 0 <= f.index < |f.playlist| && f.playlist[f.index] == f.track
    ensures var r := Start(s, f, id, base);
            r.currentTrack == Some(f.track) && r.index == f.index && r.playlist == f.playlist
            && r.audio.position == 0.0 && r.audio.paused && r.isPlaying == s.isPlaying
            && (Truthy(f.track.filePath) ==> r.audio.src == TrackStreamUrl(base, id) && r.awaitingPlay)
            && (!Truthy(f.track.filePath) ==> r.audio.src == "" && r.awaitingPlay == s.awaitingPlay)
  {
    var c := s.(currentTrack := Some(f.track), index := f.index, playlist := f.playlist,
                windowTracks := f.windowTracks);
    if Truthy(f.track.filePath) {
      assert Start(s, f, id, base) == ElementLoad(c, TrackStreamUrl(base, id)).(awaitingPlay := true);
    } else {
      assert Start(s, f, id, base) == ElementLoad(c, "");
    }
  }

  /** A found track sits at the found index of the found playlist, and it
      has the id asked for unless it is a fetched record with another id. */
  lemma LookupFindsTrack(s: State, id: int, fetched: Option<Track>)
    requires Lookup(s, id, fetched).Some?
    ensures var f := Lookup(s, id, fetched).value;
            0 <= f.index < |f.playlist| && f.playlist[f.index] == f.track
            && ((fetched.None? || fetched.value.id == id) ==> f.track.id == id)
  {
  }

  /** A loaded track starts once its metadata arrives, from the beginning,
      and the session then says it is playing; a refused play says it is
      not. */
  lemma LoadedTrackStartsOnMetadata(s: State, id: int, fetched: Option<Track>, duration: real, allowed: bool, base: string)
    requires !IsCurrent(s, id) && Lookup(s, id, fetched).Some? && s.pendingSeek.None?
    requires Truthy(Lookup(s, id, fetched).value.track.filePath)
    ensures var p := PlayTrack(s, id, fetched, allowed, base);
            var r := OnLoadedMetadata(p, duration, allowed);
            r.currentTrack == p.currentTrack && r.index == p.index && r.playlist == p.playlist
            && !r.awaitingPlay && r.audio.duration == duration && r.audio.position == 0.0
            && r.isPlaying == allowed && r.audio.paused == !allowed
  {
  }

  /** A position saved by the restore is applied only strictly inside the
      track, and only once. */
  lemma RestoredPositionInsideTrack(s: State, duration: real, allowed: bool)
    requires s.pendingSeek.Some? && !s.awaitingPlay
    ensures var t := s.pendingSeek.value;
            var r := OnLoadedMetadata(s, duration, allowed);
            r.pendingSeek.None? && r.isPlaying == s.isPlaying && r.audio.paused == s.audio.paused
            && r.audio.position == (if 0.0 < t < duration then t else s.audio.position)
  {
  }

  // ---------------------------------------------------------------------------
  // nextTrack / previousTrack

  /** Stepping through a non-empty playlist moves from the index (reset to 0
      when out of range) to the next, the previous or the picked position,
      and plays the track there. `playTrack` then takes the first position of
      that id, which can lie before the stepped-to one; the current track's
      id toggles instead, and a falsy id only moves the index. */
  lemma StepThroughPlaylist(s: State, favorites: seq<Track>, filtered: seq<Track>, forward: bool, pick: nat,
                            allowed: bool, base: string)
    requires |s.playlist| > 0
    ensures var n := |s.playlist|;
            var i := if 0 <= s.index < n then s.index else 0;
            var j := Target(i, n, s.isShuffled, forward, pick);
            var t := s.playlist[j];
            var r := Step(s, favorites, filtered, forward, pick, allowed, base);
            r.playlist == s.playlist
            && (t.id == 0 ==> r == s.(index := j))
            && (t.id != 0 && !IsCurrent(s, t.id) ==>
                  r.index == FindIndex(s.playlist, t.id) && 0 <= r.index <= j
                  && r.currentTrack == Some(s.playlist[r.index]) && r.currentTrack.value.id == t.id)
            && (t.id != 0 && IsCurrent(s, t.id) ==> r.index == j && r.currentTrack == s.currentTrack)
            && (t.id != 0 && IsCurrent(s, t.id) && s.isPlaying && !s.audio.paused ==> !r.isPlaying && r.audio.paused)
  {
    var n := |s.playlist|;
    var i := if 0 <= s.index < n then s.index else 0;
    var j := Target(i, n, s.isShuffled, forward, pick);
    var q := s.(index := j);
    var t := s.playlist[j];
    StepUnfolds(s, favorites, filtered, forward, pick, allowed, base);
    PlayStepped(q, j, allowed, base);
    assert Step(s, favorites, filtered, forward, pick, allowed, base)
        == if t.id != 0 then PlayTrack(q, t.id, None, allowed, base) else q;
    assert q.playlist == s.playlist && q.currentTrack == s.currentTrack;
  }

  /** Playing the element the index was stepped to. */
  lemma PlayStepped(q: State, j: int, allowed: bool, base: string)
    requires 0 <= j < |q.playlist| && q.index == j
    ensures var t := q.playlist[j];
            var r := if t.id != 0 then PlayTrack(q, t.id, None, allowed, base) else q;
            r.playlist == q.playlist
            && (t.id != 0 && !IsCurrent(q, t.id) ==>
                  r.index == FindIndex(q.playlist, t.id) && 0 <= r.index <= j
                  && r.currentTrack == Some(q.playlist[r.index]) && r.currentTrack.value.id == t.id)
            && (t.id != 0 && IsCurrent(q, t.id) ==> r.index == j && r.currentTrack == q.currentTrack)
            && (t.id != 0 && IsCurrent(q, t.id) && q.isPlaying && !q.audio.paused ==> !r.isPlaying && r.audio.paused)
  {
    var t := q.playlist[j];
    if t.id != 0 {
      if IsCurrent(q, t.id) {
        SameTrackNeverReloads(q, t.id, None, allowed, base);
      } else {
        assert HasTrack(q.playlist, t.id);
        PlaylistTierComesFirst(q, t.id, None, allowed, base);
      }
    }
  }

  /** `Step` on a non-empty playlist is `playTrack` on the stepped-to
      element. */
  lemma StepUnfolds(s: State, favorites: seq<Track>, filtered: seq<Track>, forward: bool, pick: nat,
                    allowed: bool, base: string)
    requires |s.playlist| > 0
    ensures var n := |s.playlist|;
            var i := if 0 <= s.index < n then s.index else 0;
            var j := Target(i, n, s.isShuffled, forward, pick);
            var q := s.(index := j);
            Step(s, favorites, filtered, forward, pick, allowed, base)
              == if s.playlist[j].id != 0 then PlayTrack(q, s.playlist[j].id, None, allowed, base) else q
  {
    assert Prepared(s, favorites, filtered) == Some(s);
  }

  /** The stepped-to position wraps around at both ends, and with shuffle on
      every position can be picked. */
  lemma TargetWraps(i: int, n: nat, pick: nat)
    requires 0 <= i < n
    ensures Target(i, n, false, true, pick) == if i == n - 1 then 0 else i + 1
    ensures Target(i, n, false, false, pick) == if i == 0 then n - 1 else i - 1
    ensures pick < n ==> Target(i, n, true, true, pick) == pick && Target(i, n, true, false, pick) == pick
  {
    if i < n - 1 {
      ModSmall(i + 1, n);
    }
    if i == 0 {
      ModSmall(n - 1, n);
    } else {
      ModPlusN(i - 1, n);
    }
    if pick < n {
      ModSmall(pick, n);
    }
  }

  lemma ModSmall(x: int, n: nat)
    requires 0 <= x < n
    ensures x % n == x
  {
  }

  lemma ModPlusN(x: int, n: nat)
    requires 0 <= x < n
    ensures (x + n) % n == x
  {
  }

  /** An empty playlist is replaced by the favourites, else by the tracks on
      screen, else by all tracks, and stepping with all three empty changes
      nothing. */
  lemma EmptyPlaylistFallsBack(s: State, favorites: seq<Track>, filtered: seq<Track>, forward: bool, pick: nat,
                               allowed: bool, base: string)
    requires |s.playlist| == 0
    ensures var all := s.windowTracks.GetOr([]);
            var r := Step(s, favorites, filtered, forward, pick, allowed, base);
            (|favorites| > 0 ==> r.playlist == favorites)
            && (|favorites| == 0 && |filtered| > 0 ==> r.playlist == filtered)
            && (|favorites| == 0 && |filtered| == 0 && |all| > 0 ==> r.playlist == all)
            && (|favorites| == 0 && |filtered| == 0 && |all| == 0 ==> r == s)
  {
    match Prepared(s, favorites, filtered)
    case None =>
    case Some(p) =>
      StepThroughPlaylist(p, favorites, filtered, forward, pick, allowed, base);
      assert Step(s, favorites, filtered, forward, pick, allowed, base)
          == Step(p, favorites, filtered, forward, pick, allowed, base);
  }

  function TrackWithId(id: int): Track {
    Track(id, "", 0, 0, "", 0, Some("f.mp3"), None, 0, None, None, None, None)
  }

  /** With an id listed twice, stepping forward from the second track lands
      on the first one: playTrack re-derives the index as the first
      occurrence, so the index is 0 and not (1 + 1) mod 3. */
  lemma RepeatedIdBreaksSuccessor(base: string)
    ensures var a, b := TrackWithId(1), TrackWithId(2);
            var s := Initial(None).(playlist := [a, b, a], index := 1, currentTrack := Some(b));
            var r := NextTrack(s, [], [], 0, true, base);
            r.index == 0 && r.currentTrack == Some(a)
  {
    var a, b := TrackWithId(1), TrackWithId(2);
    var s := Initial(None).(playlist := [a, b, a], index := 1, currentTrack := Some(b));
    assert Target(1, 3, false, true, 0) == 2;
    StepThroughPlaylist(s, [], [], true, 0, true, base);
    assert FindIndex(s.playlist, 1) == 0;
  }

  /** In a one-track playlist "next" pauses the playing track instead of
      moving on. */
  lemma NextOnOneTrackPauses(s: State, t: Track, pick: nat, allowed: bool, base: string)
    requires s.playlist == [t] && t.id != 0 && IsCurrent(s, t.id) && s.isPlaying && !s.audio.paused
    ensures var r := NextTrack(s, [], [], pick, allowed, base);
            r.currentTrack == s.currentTrack && r.index == 0 && !r.isPlaying && r.audio.paused
  {
    StepThroughPlaylist(s, [], [], true, pick, allowed, base);
  }

  // ---------------------------------------------------------------------------
  // onTrackEnd

  /** With repeat on, the same track is played again from the start; the
      playlist, the index and the source are kept. */
  lemma RepeatReplaysSameTrack(s: State, favorites: seq<Track>, filtered: seq<Track>, pick: nat, allowed: bool, base: string)
    requires s.isRepeated
    ensures var r := OnTrackEnd(s, favorites, filtered, pick, allowed, base);
            r.playlist == s.playlist && r.index == s.index && r.currentTrack == s.currentTrack
            && r.audio.src == s.audio.src && r.audio.position == 0.0
            && r.isPlaying == allowed && r.audio.paused == !allowed
  {
  }

  /** With repeat off a track's end is `nextTrack()` on the element that has
      just paused at the end. */
  lemma NoRepeatIsNext(s: State, favorites: seq<Track>, filtered: seq<Track>, pick: nat, allowed: bool, base: string)
    requires !s.isRepeated
    ensures OnTrackEnd(s, favorites, filtered, pick, allowed, base)
            == NextTrack(s.(audio := s.audio.(paused := true, position := s.audio.duration), isPlaying := false),
                         favorites, filtered, pick, allowed, base)
  {
  }

  /** A one-track playlist starts over at its end even with repeat off:
      "next" finds the same, no longer playing, track and resumes it, and the
      ended element plays from the beginning. */
  lemma OneTrackReplaysWithoutRepeat(s: State, t: Track, pick: nat, base: string)
    requires s.playlist == [t] && t.id != 0 && IsCurrent(s, t.id) && !s.isRepeated
    requires s.audio.duration > 0.0
    ensures var r := OnTrackEnd(s, [], [], pick, true, base);
            r.currentTrack == s.currentTrack && r.index == 0 && r.isPlaying && !r.audio.paused
            && r.audio.position == 0.0 && r.audio.src == s.audio.src
  {
    var e := AtEnd(s);
    assert Ended(e.audio);
    StepThroughPlaylist(e, [], [], true, pick, true, base);
  }

  // ---------------------------------------------------------------------------
  // Flags and volume

  /** Play/pause: nothing happens without a current track; a playing
      session pauses the element (the flag stays set when the element was
      already paused); a paused one plays exactly when the browser allows it
      and the element is paused. The track and the playlist never change. */
  lemma TogglePlayPauseEffect(s: State, allowed: bool)
    ensures var r := TogglePlayPause(s, allowed);
            r.currentTrack == s.currentTrack && r.playlist == s.playlist && r.index == s.index
            && (s.currentTrack.None? ==> r == s)
            && (s.currentTrack.Some? && s.isPlaying ==> r.audio.paused && r.isPlaying == s.audio.paused)
            && (s.currentTrack.Some? && !s.isPlaying ==>
                  r.isPlaying == (allowed && s.audio.paused) && r.audio.paused == (s.audio.paused && !allowed))
  {
  }

  /** Each toggle flips exactly its own flag, so toggling twice restores the
      state; mute also copies the flag onto the element, so a double mute
      restores the state only while the element's flag agrees. */
  lemma TogglesFlipOneFlag(s: State)
    ensures ToggleRepeat(s).isRepeated != s.isRepeated && ToggleRepeat(s).(isRepeated := s.isRepeated) == s
    ensures ToggleShuffle(s).isShuffled != s.isShuffled && ToggleShuffle(s).(isShuffled := s.isShuffled) == s
    ensures ToggleRepeat(ToggleRepeat(s)) == s && ToggleShuffle(ToggleShuffle(s)) == s
    ensures var m := ToggleMute(s);
            m.isMuted != s.isMuted && m.audio.muted == m.isMuted
            && m.(isMuted := s.isMuted, audio := s.audio) == s
            && m.audio.(muted := s.audio.muted) == s.audio
    ensures s.audio.muted == s.isMuted ==> ToggleMute(ToggleMute(s)) == s
  {
  }

  /** The volume is clamped into [0, 1], the session counts as muted exactly
      at volume 0, and the element's own mute flag is left as it was. */
  lemma SetVolumeClamps(s: State, ratio: real)
    ensures var r := SetVolume(s, ratio);
            0.0 <= r.volume <= 1.0 && r.audio.volume == r.volume
            && (0.0 <= ratio <= 1.0 ==> r.volume == ratio)
            && (ratio <= 0.0 ==> r.volume == 0.0) && (ratio >= 1.0 ==> r.volume == 1.0)
            && (r.isMuted <==> r.volume == 0.0)
            && r.audio.muted == s.audio.muted
            && r.(volume := s.volume, isMuted := s.isMuted, audio := s.audio) == s
  {
  }

  /** The icon shows mute when muted or silent, "down" below half volume and
      "up" from half volume on. */
  lemma VolumeIconBands(s: State)
    ensures VolumeIcon(s) == Mute <==> s.isMuted || s.volume == 0.0
    ensures VolumeIcon(s) == Down <==> !s.isMuted && s.volume != 0.0 && s.volume < 0.5
    ensures VolumeIcon(s) == Up <==> !s.isMuted && s.volume >= 0.5
  {
  }

  /** After a slider click the icon follows the clamped volume alone. */
  lemma SliderIcon(s: State, ratio: real)
    ensures var v := Clamp01(ratio);
            VolumeIcon(SetVolume(s, ratio)) == if v == 0.0 then Mute else if v < 0.5 then Down else Up
  {
  }

  /** Dragging the volume to 0 mutes the session but not the element, and the
      next mute click then unmutes the session without ever having muted the
      element. */
  lemma ZeroVolumeLeavesElementUnmuted(s: State)
    requires !s.audio.muted
    ensures var z := SetVolume(s, 0.0);
            z.isMuted && !z.audio.muted && !ToggleMute(z).isMuted && !ToggleMute(z).audio.muted
  {
  }

  /** A seek lands inside the track, in proportion to the click. */
  lemma SeekStaysInsideTrack(s: State, ratio: real)
    requires s.audio.src != "" && s.currentTrack.Some? && s.audio.duration > 0.0
    ensures var r := Seek(s, ratio);
            0.0 <= r.audio.position <= s.audio.duration
            && r.audio.position == Clamp01(ratio) * s.audio.duration
            && r.(audio := s.audio) == s
  {
    ScaleBelow(Clamp01(ratio), s.audio.duration);
  }

  lemma ScaleBelow(p: real, d: real)
    requires 0.0 <= p <= 1.0 && d > 0.0
    ensures 0.0 <= p * d <= d
  {
    assert (1.0 - p) * d >= 0.0;
  }

  // ---------------------------------------------------------------------------
  // Play buttons

  /** A row shows the stop icon exactly when its id is the current track's and
      the session is playing; on a page without the player every row shows
      play. */
  lemma PlayButtonShowsStopForPlayingRow(s: State, rowId: int)
    ensures PlayButtonIcon(Some(GetCurrentTrackInfo(s)), rowId) == StopIcon <==> IsCurrent(s, rowId) && s.isPlaying
    ensures PlayButtonIcon(None, rowId) == PlayIcon
  {
  }

  /** Clicking a row that shows stop pauses it, and the row then shows play. */
  lemma StopButtonPauses(s: State, rowId: int, fetched: Option<Track>, allowed: bool, base: string)
    requires PlayButtonIcon(Some(GetCurrentTrackInfo(s)), rowId) == StopIcon && !s.audio.paused
    ensures PlayButtonIcon(Some(GetCurrentTrackInfo(PlayTrack(s, rowId, fetched, allowed, base))), rowId) == PlayIcon
  {
    PlayButtonShowsStopForPlayingRow(s, rowId);
    SameTrackNeverReloads(s, rowId, fetched, allowed, base);
    PlayButtonShowsStopForPlayingRow(PlayTrack(s, rowId, fetched, allowed, base), rowId);
  }

  // ---------------------------------------------------------------------------
  // The index invariant

  /** The window `load` handler can install a non-empty playlist while the
      index is still -1. */
  lemma WindowLoadBreaksIndex(t: Track)
    ensures var s := OnWindowLoad(Initial(Some([t])));
            s.playlist == [t] && s.index == -1 && !IndexInRange(s)
  {
  }

  /** Every other entry point keeps the index in range, and one that steps
      through a non-empty playlist restores it. */
  lemma EntryPointsKeepIndexInRange(s: State, tracks: Option<seq<Track>>, start: int, id: int, fetched: Option<Track>,
                                    favorites: seq<Track>, filtered: seq<Track>, forward: bool, pick: nat,
                                    allowed: bool, base: string)
    requires IndexInRange(s)
    ensures IndexInRange(SetPlaylist(s, tracks, start))
    ensures IndexInRange(PlayTrack(s, id, fetched, allowed, base))
    ensures IndexInRange(Step(s, favorites, filtered, forward, pick, allowed, base))
  {
    PlayTrackKeepsIndexInRange(s, id, fetched, allowed, base);
    StepRestoresIndex(s, favorites, filtered, forward, pick, allowed, base);
  }

  lemma PlayTrackKeepsIndexInRange(s: State, id: int, fetched: Option<Track>, allowed: bool, base: string)
    requires IndexInRange(s)
    ensures IndexInRange(PlayTrack(s, id, fetched, allowed, base))
  {
    if IsCurrent(s, id) {
      SameTrackNeverReloads(s, id, fetched, allowed, base);
    } else if Lookup(s, id, fetched).Some? {
      ResolvedTrackIsCommitted(s, id, fetched, allowed, base);
    }
  }

  lemma StepRestoresIndex(s: State, favorites: seq<Track>, filtered: seq<Track>, forward: bool, pick: nat,
                          allowed: bool, base: string)
    ensures var r := Step(s, favorites, filtered, forward, pick, allowed, base);
            (|s.playlist| > 0 || |FallbackList(favorites, filtered, s.windowTracks)| > 0) ==>
              |r.playlist| > 0 && IndexInRange(r)
  {
    match Prepared(s, favorites, filtered)
    case None =>
    case Some(p) =>
      StepThroughPlaylist(p, favorites, filtered, forward, pick, allowed, base);
      assert Step(s, favorites, filtered, forward, pick, allowed, base)
          == Step(p, favorites, filtered, forward, pick, allowed, base);
  }

  // ---------------------------------------------------------------------------
  // The element and the media error

  /** Pausing a playing element that has not ended and playing it again
      resumes exactly where it was. */
  lemma PauseThenPlayResumes(s: State)
    requires !s.audio.paused && s.isPlaying && !Ended(s.audio)
    ensures ElementPlay(ElementPause(s), true) == s
  {
  }

  /** After `handleError` the metadata handler starts nothing: the element's
      paused state and the playing flag stay as they were. */
  lemma MediaErrorCancelsPlay(s: State, duration: real, allowed: bool)
    ensures var r := OnLoadedMetadata(OnMediaError(s), duration, allowed);
            r.audio.paused == s.audio.paused && r.isPlaying == s.isPlaying && !r.awaitingPlay
  {
  }

  /** Different tracks stream from different URLs. */
  lemma StreamUrlIdentifiesTrack(base: string, a: int, b: int)
    requires TrackStreamUrl(base, a) == TrackStreamUrl(base, b)
    ensures a == b
  {
    var p := base + "/api/files/tracks/";
    assert TrackStreamUrl(base, a) == p + IntToString(a);
    assert TrackStreamUrl(base, b) == p + IntToString(b);
    assert IntToString(a) == (p + IntToString(a))[|p|..];
    assert IntToString(b) == (p + IntToString(b))[|p|..];
    assert IntToString(a) + "" == IntToString(b) + "";
    IntToStringPrefixUnique(a, b, "", "");
  }
}
