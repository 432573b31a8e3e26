/** The player script itself: its module-level variables as the fields of
    one `Session` object, each entry point as a method that updates them step
    by step as the script does, proved to leave the state that the functions
    of player_state.dfy and player_restore.dfy describe. */
module PlayerSession {
  import opened Wrappers
  import opened Text
  import opened Catalog
  import opened PlayerState
  import opened PlayerRestore

  /** The `playerState` entry of `localStorage`. */
  class LocalStorage {
    var playerState: Option<Snapshot>

    constructor (initial: Option<Snapshot>)
      ensures playerState == initial
    {
      playerState := initial;
    }
  }

  class Session {
    var currentTrack: Option<Track>
    var currentTrackIndex: int
    var playlist: seq<Track>
    var isPlaying: bool
    var isShuffled: bool
    var isRepeated: bool
    var volume: real
    var isMuted: bool
    var audio: Audio
    var awaitingPlay: bool
    var pendingSeek: Option<real>
    var windowTracks: Option<seq<Track>>

    /** The session as a value. */
    function Model(): State
      reads this
    {
      State(currentTrack, currentTrackIndex, playlist, isPlaying, isShuffled, isRepeated,
            volume, isMuted, audio, awaitingPlay, pendingSeek, windowTracks)
    }

    /** The script's start, with `initializePlayer` copying the volume onto
        the element. */
    constructor (pageTracks: Option<seq<Track>>)
      ensures Model() == Initial(pageTracks)
    {
      currentTrack := None;
      currentTrackIndex := -1;
      playlist := [];
      isPlaying := false;
      isShuffled := false;
      isRepeated := false;
      volume := 1.0;
      isMuted := false;
      audio := Audio("", 0.0, true, 0.0, 1.0, false);
      awaitingPlay := false;
      pendingSeek := None;
      windowTracks := pageTracks;
    }

    // -------------------------------------------------------------------------
    // The element

    method Play(allowed: bool)
      modifies this
      ensures Model() == ElementPlay(old(Model()), allowed)
    {
      if allowed && audio.paused {
        var from := if Ended(audio) then 0.0 else audio.position;
        audio := audio.(paused := false, position := from);
        isPlaying := true;
      }
    }

    method Pause()
      modifies this
      ensures Model() == ElementPause(old(Model()))
    {
      if !audio.paused {
        audio := audio.(paused := true);
        isPlaying := false;
      }
    }

    method LoadSource(src: string)
      modifies this
      ensures Model() == ElementLoad(old(Model()), src)
    {
      audio := audio.(src := src, position := 0.0, paused := true, duration := 0.0);
    }

    // -------------------------------------------------------------------------
    // Entry points

    method SetPlaylist(tracksArray: Option<seq<Track>>, startIndex: int)
      modifies this
      ensures Model() == PlayerState.SetPlaylist(old(Model()), tracksArray, startIndex)
    {
      if tracksArray.None? || |tracksArray.value| == 0 {
        return;
      }
      var start := startIndex;
      if start < 0 || start >= |tracksArray.value| {
        start := 0;
      }
      playlist := tracksArray.value;
      currentTrackIndex := start;
    }

    method TogglePlayPause(allowed: bool)
      modifies this
      ensures Model() == PlayerState.TogglePlayPause(old(Model()), allowed)
    {
      if currentTrack.None? {
        return;
      }
      if isPlaying {
        Pause();
      } else {
        Play(allowed);
      }
    }

    method PlayTrack(trackId: int, fetched: Option<Track>, allowed: bool, base: string)
      modifies this
      ensures Model() == PlayerState.PlayTrack(old(Model()), trackId, fetched, allowed, base)
    {
      if currentTrack.Some? && currentTrack.value.id == trackId && isPlaying {
        TogglePlayPause(allowed);
        return;
      }
      if currentTrack.Some? && currentTrack.value.id == trackId && !isPlaying {
        isPlaying := true;
        Play(allowed);
        if !allowed {
          isPlaying := false;
        }
        return;
      }
      var found := FindInTiers(trackId, fetched);
      if found.None? {
        return;
      }
      Commit(found.value, trackId, base);
    }

    /** The three-tier lookup of `playTrack`, before anything is assigned. */
    method FindInTiers(trackId: int, fetched: Option<Track>) returns (found: Option<Found>)
      ensures found == Lookup(Model(), trackId, fetched)
    {
      var foundIndex := -1;
      if |playlist| > 0 {
        foundIndex := FindIndex(playlist, trackId);
      }
      if foundIndex != -1 {
        return Some(Found(playlist[foundIndex], foundIndex, playlist, windowTracks));
      }
      var allTracks := windowTracks.GetOr([]);
      var globalTrack := FindTrack(allTracks, trackId);
      if globalTrack.Some? {
        return Some(Found(globalTrack.value, FindIndex(allTracks, trackId), allTracks, windowTracks));
      }
      if fetched.None? {
        return None;
      }
      var tracks := windowTracks;
      if windowTracks.Some? && !HasTrack(windowTracks.value, trackId) {
        tracks := Some(windowTracks.value + [fetched.value]);
      }
      return Some(Found(fetched.value, 0, [fetched.value], tracks));
    }

    /** The found track becomes current, then its file is looked at. */
    method Commit(f: Found, trackId: int, base: string)
      modifies this
      ensures Model() == Start(old(Model()), f, trackId, base)
    {
      playlist := f.playlist;
      windowTracks := f.windowTracks;
      currentTrack := Some(f.track);
      // a found track always comes with its index, so the script's fallback search is never reached
      currentTrackIndex := f.index;
      assert Model() == old(Model()).(currentTrack := Some(f.track), index := f.index, playlist := f.playlist,
                                      windowTracks := f.windowTracks);
      if Truthy(f.track.filePath) {
        LoadSource(TrackStreamUrl(base, trackId));
        awaitingPlay := true;
      } else {
        LoadSource("");
      }
    }

    method OnLoadedMetadata(duration: real, allowed: bool)
      modifies this
      ensures Model() == PlayerState.OnLoadedMetadata(old(Model()), duration, allowed)
    {
      RestoreTime(duration);
      if awaitingPlay {
        awaitingPlay := false;
        Play(allowed);
        isPlaying := allowed;
      }
    }

    /** The duration arrives and the `restoreTime` listener, if one waits,
        applies the saved position. */
    method RestoreTime(duration: real)
      modifies this
      ensures Model() == SeekSettled(old(Model()), duration)
    {
      audio := audio.(duration := duration);
      if pendingSeek.Some? {
        var savedTime := pendingSeek.value;
        pendingSeek := None;
        if 0.0 < savedTime < duration {
          audio := audio.(position := savedTime);
        }
      }
    }

    method OnMediaError()
      modifies this
      ensures Model() == PlayerState.OnMediaError(old(Model()))
    {
      awaitingPlay := false;
    }

    /** The shared body of `previousTrack` and `nextTrack`. */
    method Step(favoriteTracks: seq<Track>, filteredTracks: seq<Track>, forward: bool, pick: nat,
                allowed: bool, base: string)
      modifies this
      ensures Model() == PlayerState.Step(old(Model()), favoriteTracks, filteredTracks, forward, pick, allowed, base)
    {
      var ready := FillEmptyPlaylist(favoriteTracks, filteredTracks);
      if !ready {
        return;
      }
      AdvanceAndPlay(forward, pick, allowed, base);
    }

    /** The index is stepped and the stepped-to track played. */
    method AdvanceAndPlay(forward: bool, pick: nat, allowed: bool, base: string)
      requires |playlist| > 0
      modifies this
      ensures Model() == Advance(old(Model()), forward, pick, allowed, base)
    {
      if currentTrackIndex < 0 || currentTrackIndex >= |playlist| {
        currentTrackIndex := 0;
      }
      if isShuffled {
        currentTrackIndex := pick % |playlist|;
      } else if forward {
        currentTrackIndex := (currentTrackIndex + 1) % |playlist|;
      } else {
        currentTrackIndex := (currentTrackIndex - 1 + |playlist|) % |playlist|;
      }
      var next := playlist[currentTrackIndex];
      if next.id != 0 {
        PlayTrack(next.id, None, allowed, base);
      }
    }

    /** An empty playlist is replaced by the first non-empty fallback list;
        `false` when there is none. */
    method FillEmptyPlaylist(favoriteTracks: seq<Track>, filteredTracks: seq<Track>) returns (ready: bool)
      modifies this
      ensures var p := Prepared(old(Model()), favoriteTracks, filteredTracks);
              ready == p.Some? && Model() == p.GetOr(old(Model()))
    {
      if |playlist| > 0 {
        return true;
      }
      var source := FallbackList(favoriteTracks, filteredTracks, windowTracks);
      if |source| == 0 {
        return false;
      }
      playlist := source;
      if currentTrack.Some? {
        currentTrackIndex := FindIndex(playlist, currentTrack.value.id);
        if currentTrackIndex == -1 {
          currentTrackIndex := 0;
        }
      } else {
        currentTrackIndex := 0;
      }
      return true;
    }

    method NextTrack(favoriteTracks: seq<Track>, filteredTracks: seq<Track>, pick: nat, allowed: bool, base: string)
      modifies this
      ensures Model() == PlayerState.NextTrack(old(Model()), favoriteTracks, filteredTracks, pick, allowed, base)
    {
      Step(favoriteTracks, filteredTracks, true, pick, allowed, base);
    }

    method PreviousTrack(favoriteTracks: seq<Track>, filteredTracks: seq<Track>, pick: nat, allowed: bool, base: string)
      modifies this
      ensures Model() == PlayerState.PreviousTrack(old(Model()), favoriteTracks, filteredTracks, pick, allowed, base)
    {
      Step(favoriteTracks, filteredTracks, false, pick, allowed, base);
    }

    method OnTrackEnd(favoriteTracks: seq<Track>, filteredTracks: seq<Track>, pick: nat, allowed: bool, base: string)
      modifies this
      ensures Model() == PlayerState.OnTrackEnd(old(Model()), favoriteTracks, filteredTracks, pick, allowed, base)
    {
      // the element stopped at the end and its `pause` event ran
      audio := audio.(paused := true, position := audio.duration);
      isPlaying := false;
      if isRepeated {
        audio := audio.(position := 0.0);
        Play(allowed);
      } else {
        NextTrack(favoriteTracks, filteredTracks, pick, allowed, base);
      }
    }

    method Seek(ratio: real)
      modifies this
      ensures Model() == PlayerState.Seek(old(Model()), ratio)
    {
      if audio.src == "" || currentTrack.None? {
        return;
      }
      var percentage := Clamp01(ratio);
      if audio.duration != 0.0 {
        audio := audio.(position := percentage * audio.duration);
      }
    }

    method ToggleMute()
      modifies this
      ensures Model() == PlayerState.ToggleMute(old(Model()))
    {
      isMuted := !isMuted;
      audio := audio.(muted := isMuted);
    }

    method SetVolume(ratio: real)
      modifies this
      ensures Model() == PlayerState.SetVolume(old(Model()), ratio)
    {
      volume := Clamp01(ratio);
      audio := audio.(volume := volume);
      isMuted := volume == 0.0;
    }

    method ToggleRepeat()
      modifies this
      ensures Model() == PlayerState.ToggleRepeat(old(Model()))
    {
      isRepeated := !isRepeated;
    }

    method ToggleShuffle()
      modifies this
      ensures Model() == PlayerState.ToggleShuffle(old(Model()))
    {
      isShuffled := !isShuffled;
    }

    /** `getCurrentTrackInfo()`. */
    method GetCurrentTrackInfo() returns (info: TrackInfo)
      ensures info == PlayerState.GetCurrentTrackInfo(Model())
    {
      info := TrackInfo(currentTrack, if currentTrack.Some? then Some(currentTrack.value.id) else None, isPlaying);
    }

    method OnWindowLoad()
      modifies this
      ensures Model() == PlayerState.OnWindowLoad(old(Model()))
    {
      if windowTracks.Some? && |windowTracks.value| > 0 {
        if |playlist| == 0 {
          playlist := windowTracks.value;
        }
      }
    }

    // -------------------------------------------------------------------------
    // Snapshot

    method SavePlayerState(store: LocalStorage, now: int)
      modifies store
      ensures store.playerState == Some(Save(Model(), now))
    {
      var entries := Stubs(playlist);
      store.playerState := Some(Snapshot(
        if currentTrack.Some? then Some(currentTrack.value.id) else None,
        currentTrackIndex, entries, isPlaying, audio.position,
        volume, isMuted, isShuffled, isRepeated, now));
    }

    method LoadTrackForRestore(track: Track, savedTime: real, base: string)
      modifies this
      ensures Model() == LoadForRestore(old(Model()), track, savedTime, base)
    {
      currentTrack := Some(track);
      if Truthy(track.filePath) {
        LoadSource(TrackStreamUrl(base, track.id));
        pendingSeek := Some(savedTime);
      }
    }

    /** One run of `restoreTrack` that found `window.tracks` loaded. */
    method RestoreTrack(state: Snapshot, allTracks: seq<Track>, base: string)
      modifies this
      ensures Model() == PlayerRestore.RestoreTrack(old(Model()), state, allTracks, base)
    {
      if |state.playlist| > 0 {
        var restoredPlaylist := Rebuild(allTracks, state.playlist);
        playlist := restoredPlaylist;
      }
      assert Model() == Relisted(old(Model()), state, allTracks);
      if state.currentTrackId.Some? && state.currentTrackId.value != 0 {
        var foundTrack := FindTrack(allTracks, state.currentTrackId.value);
        if foundTrack.Some? {
          ReloadFoundTrack(state, foundTrack.value, base);
        }
      }
    }

    /** The saved current track, found among the loaded ones, is reloaded. */
    method ReloadFoundTrack(state: Snapshot, track: Track, base: string)
      modifies this
      ensures Model() == ReloadTrack(old(Model()), state, track, base)
    {
      if 0 <= state.currentTrackIndex < |playlist| {
        currentTrackIndex := state.currentTrackIndex;
      } else {
        currentTrackIndex := FindIndex(playlist, track.id);
        if currentTrackIndex == -1 {
          currentTrackIndex := 0;
        }
      }
      LoadTrackForRestore(track, state.currentTime, base);
    }

    /** `restorePlayerState()`: each turn of the loop is one timer-driven run
        of `restoreTrack`, which sees `polls[k]` as `window.tracks`. */
    method RestorePlayerState(store: LocalStorage, now: int, apiAvailable: bool,
                              polls: seq<Option<seq<Track>>>, base: string)
      modifies this, store
      ensures var r := Restore(old(Model()), old(store.playerState), now, apiAvailable, polls, base);
              Model() == r.state && store.playerState == r.stored
    {
      if store.playerState.None? {
        return;
      }
      var state := store.playerState.value;
      if now - state.timestamp > OneHour {
        store.playerState := None;
        return;
      }
      volume := state.volume;
      audio := audio.(volume := volume);
      isMuted := state.isMuted;
      audio := audio.(muted := isMuted);
      isShuffled := state.isShuffled;
      isRepeated := state.isRepeated;
      ghost var settled := Model();
      assert settled == ApplySettings(old(Model()), state);
      if !apiAvailable {
        return;
      }
      ghost var loaded := FirstLoadedFrom(polls, 0, MaxRetries);
      assert loaded.None? ==> Restore(old(Model()), old(store.playerState), now, apiAvailable, polls, base).state == settled;
      var retryCount := 0;
      while true
        invariant 0 <= retryCount <= MaxRetries
        invariant Model() == settled && store.playerState == old(store.playerState)
        invariant FirstLoadedFrom(polls, retryCount, MaxRetries - retryCount) == loaded
        decreases MaxRetries - retryCount
      {
        retryCount := retryCount + 1;
        if retryCount > MaxRetries {
          return;
        }
        var tracks := if retryCount - 1 < |polls| then polls[retryCount - 1] else None;
        assert tracks == Poll(polls, retryCount - 1);
        if tracks.None? || |tracks.value| == 0 {
          continue;
        }
        assert loaded == tracks;
        RestoreTrack(state, tracks.value, base);
        return;
      }
    }
  }
}
