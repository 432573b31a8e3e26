/** The playback session of the player script as a value: the session's
    module-level variables, the audio element reduced to the attributes the
    script reads and writes, and one function per entry point giving the state
    it leaves behind. The `Session` class of player_session.dfy is proved
    against these functions; the properties of the player are proved about them
    in player_props.dfy.

    The element's `play`/`pause` events, which set and clear `isPlaying`, are
    applied at the call that causes them; a `play()` the browser refuses is a
    `false` argument. `Math.random()` is a `pick` argument taken modulo the
    list length, the API fetch of an unknown id is an `Option` argument. */
module PlayerState {
  import opened Wrappers
  import opened Text
  import opened Catalog

  /** The `<audio>` element. A source whose metadata has not arrived has
      duration 0, which the script reads like `NaN`. */
  datatype Audio = Audio(
    src: string,
    position: real,
    paused: bool,
    duration: real,
    volume: real,
    muted: bool)

  /** Playback has reached the end of the source. */
  predicate Ended(a: Audio) {
    a.duration > 0.0 && a.position >= a.duration
  }

  datatype State = State(
    currentTrack: Option<Track>,
    index: int,
    playlist: seq<Track>,
    isPlaying: bool,
    isShuffled: bool,
    isRepeated: bool,
    volume: real,
    isMuted: bool,
    audio: Audio,
    /** a `playWhenReady` listener waits for the next `loadedmetadata` */
    awaitingPlay: bool,
    /** a `restoreTime` listener waits, holding the saved position */
    pendingSeek: Option<real>,
    /** `window.tracks`, which `playTrack` may append to */
    windowTracks: Option<seq<Track>>)

  /** The values the script starts with; `initializePlayer` copies the volume
      onto the element. */
  function Initial(windowTracks: Option<seq<Track>>): (s: State)
    ensures s.currentTrack.None? && s.index == -1 && s.playlist == [] && !s.isPlaying
    ensures s.volume == 1.0 && s.audio.volume == s.volume && !s.isMuted
  {
    State(None, -1, [], false, false, false, 1.0, false,
          Audio("", 0.0, true, 0.0, 1.0, false), false, None, windowTracks)
  }

  // ---------------------------------------------------------------------------
  // The element

  /** `audioElement.play()`. A paused element starts (from the beginning if it
      had ended) and its `play` event sets `isPlaying`; an element already
      playing, or a play the browser refuses, changes nothing. */
  function ElementPlay(s: State, allowed: bool): State {
    if allowed && s.audio.paused then
      var from := if Ended(s.audio) then 0.0 else s.audio.position;
      s.(audio := s.audio.(paused := false, position := from), isPlaying := true)
    else s
  }

  /** `audioElement.pause()`: a playing element stops and its `pause` event
      clears `isPlaying`. */
  function ElementPause(s: State): State {
    if !s.audio.paused then s.(audio := s.audio.(paused := true), isPlaying := false) else s
  }

  /** Assigning `src` (and `load()`): the element is paused at position 0 and
      the old metadata is gone; no `pause` event is fired. */
  function ElementLoad(s: State, src: string): State {
    s.(audio := s.audio.(src := src, position := 0.0, paused := true, duration := 0.0))
  }

  // ---------------------------------------------------------------------------
  // Entry points

  /** `setPlaylist(tracksArray, startIndex)`. */
  function SetPlaylist(s: State, tracks: Option<seq<Track>>, startIndex: int): State {
    if tracks.None? || |tracks.value| == 0 then s
    else
      var start := if startIndex < 0 || startIndex >= |tracks.value| then 0 else startIndex;
      s.(playlist := tracks.value, index := start)
  }

  /** `togglePlayPause()`: without a current track it only alerts. */
  function TogglePlayPause(s: State, allowed: bool): State {
    if s.currentTrack.None? then s
    else if s.isPlaying then ElementPause(s)
    else ElementPlay(s, allowed)
  }

  /** The second branch of `playTrack`: `isPlaying` is set at once, `play()`
      is called, and its rejection clears `isPlaying` again. */
  function Resume(s: State, allowed: bool): State {
    var r := ElementPlay(s.(isPlaying := true), allowed);
    if allowed then r else r.(isPlaying := false)
  }

  /** The outcome of `playTrack`'s three-tier lookup. */
  datatype Found = Found(track: Track, index: int, playlist: seq<Track>, windowTracks: Option<seq<Track>>)

  /** The current playlist first, then `window.tracks` (which then becomes the
      playlist), then the fetched record (a one-track playlist, appended to
      `window.tracks` when that exists and lacks the id). */
  function Lookup(s: State, id: int, fetched: Option<Track>): Option<Found> {
    var i := FindIndex(s.playlist, id);
    if i != -1 then Some(Found(s.playlist[i], i, s.playlist, s.windowTracks))
    else
      var all := s.windowTracks.GetOr([]);
      var j := FindIndex(all, id);
      if j != -1 then Some(Found(all[j], j, all, s.windowTracks))
      else if fetched.Some? then
        var w := if s.windowTracks.Some? && !HasTrack(s.windowTracks.value, id)
                 then Some(s.windowTracks.value + [fetched.value]) else s.windowTracks;
        Some(Found(fetched.value, 0, [fetched.value], w))
      else None
  }

  /** The URL the player streams a track from. */
  function TrackStreamUrl(base: string, id: int): string {
    base + "/api/files/tracks/" + IntToString(id)
  }

  /** Committing a found track: it becomes current before its file is looked
      at; a track with a file is loaded and left to `playWhenReady`, one
      without clears the source. */
  function Start(s: State, f: Found, id: int, base: string): State {
    var c := s.(currentTrack := Some(f.track), index := f.index, playlist := f.playlist,
                windowTracks := f.windowTracks);
    if Truthy(f.track.filePath) then ElementLoad(c, TrackStreamUrl(base, id)).(awaitingPlay := true)
    else ElementLoad(c, "")
  }

  predicate IsCurrent(s: State, id: int) {
    s.currentTrack.Some? && s.currentTrack.value.id == id
  }

  /** `playTrack(trackId)`. */
  function PlayTrack(s: State, id: int, fetched: Option<Track>, allowed: bool, base: string): State {
    if IsCurrent(s, id) && s.isPlaying then TogglePlayPause(s, allowed)
    else if IsCurrent(s, id) then Resume(s, allowed)
    else
      match Lookup(s, id, fetched)
      case None => s
      case Some(f) => Start(s, f, id, base)
  }

  /** `playWhenReady` and `restoreTime` on `loadedmetadata`: a saved position
      strictly inside the track is restored, then a waiting play is started and
      its promise decides `isPlaying`. */
  function OnLoadedMetadata(s: State, duration: real, allowed: bool): State {
    var r := SeekSettled(s, duration);
    if r.awaitingPlay then ElementPlay(r.(awaitingPlay := false), allowed).(isPlaying := allowed)
    else r
  }

  /** The metadata's duration recorded and a pending saved position applied
      when it lies strictly inside the track. */
  function SeekSettled(s: State, duration: real): State {
    var d := s.(audio := s.audio.(duration := duration));
    match d.pendingSeek
    case None => d
    case Some(t) =>
      var a := if 0.0 < t < duration then d.audio.(position := t) else d.audio;
      d.(audio := a, pendingSeek := None)
  }

  /** `handleError`: the waiting play is dropped. */
  function OnMediaError(s: State): State {
    s.(awaitingPlay := false)
  }

  /** The first position of the id, or 0. */
  function IndexOrZero(ts: seq<Track>, id: int): (i: int)
    ensures |ts| > 0 ==> 0 <= i < |ts|
  {
    var k := FindIndex(ts, id);
    if k == -1 then 0 else k
  }

  /** The list an empty playlist is replaced by when stepping. */
  function FallbackList(favorites: seq<Track>, filtered: seq<Track>, all: Option<seq<Track>>): seq<Track> {
    if |favorites| > 0 then favorites
    else if |filtered| > 0 then filtered
    else all.GetOr([])
  }

  /** The first half of `nextTrack`/`previousTrack`: an empty playlist is
      replaced by the fallback list, with the index of the current track in
      it; `None` when there is nothing to step through. */
  function Prepared(s: State, favorites: seq<Track>, filtered: seq<Track>): (r: Option<State>)
    ensures r.None? <==> |s.playlist| == 0 && |FallbackList(favorites, filtered, s.windowTracks)| == 0
    ensures r.Some? ==> |r.value.playlist| > 0
  {
    if |s.playlist| > 0 then Some(s)
    else
      var l := FallbackList(favorites, filtered, s.windowTracks);
      if |l| == 0 then None
      else Some(s.(playlist := l, index := if s.currentTrack.Some? then IndexOrZero(l, s.currentTrack.value.id) else 0))
  }

  /** The position stepped to from a valid position `i` of a list of `n`. */
  function Target(i: int, n: nat, shuffled: bool, forward: bool, pick: nat): (j: int)
    requires 0 <= i < n
    ensures 0 <= j < n
  {
    if shuffled then pick % n
    else if forward then (i + 1) % n
    else (i - 1 + n) % n
  }

  /** `nextTrack()` (forward) and `previousTrack()`: an out-of-range index is
      first reset to 0, then the stepped-to element is played if its id is
      truthy. */
  function Step(s: State, favorites: seq<Track>, filtered: seq<Track>, forward: bool, pick: nat,
                allowed: bool, base: string): State {
    match Prepared(s, favorites, filtered)
    case None => s
    case Some(p) => Advance(p, forward, pick, allowed, base)
  }

  /** The step itself, once the playlist is non-empty. */
  function Advance(p: State, forward: bool, pick: nat, allowed: bool, base: string): State
    requires |p.playlist| > 0
  {
    var n := |p.playlist|;
    var i := if p.index < 0 || p.index >= n then 0 else p.index;
    var j := Target(i, n, p.isShuffled, forward, pick);
    var q := p.(index := j);
    var id := q.playlist[j].id;
    if id != 0 then PlayTrack(q, id, None, allowed, base) else q
  }

  function NextTrack(s: State, favorites: seq<Track>, filtered: seq<Track>, pick: nat, allowed: bool, base: string): State {
    Step(s, favorites, filtered, true, pick, allowed, base)
  }

  function PreviousTrack(s: State, favorites: seq<Track>, filtered: seq<Track>, pick: nat, allowed: bool, base: string): State {
    Step(s, favorites, filtered, false, pick, allowed, base)
  }

  /** The element at the end of its source: paused there, with the `pause`
      event that precedes `ended` applied. */
  function AtEnd(s: State): State {
    s.(audio := s.audio.(paused := true, position := s.audio.duration), isPlaying := false)
  }

  /** `onTrackEnd()`: repeat rewinds and plays the same track, otherwise it is
      `nextTrack()`. The analytics call is left out. */
  function OnTrackEnd(s: State, favorites: seq<Track>, filtered: seq<Track>, pick: nat, allowed: bool, base: string): State {
    var e := AtEnd(s);
    if e.isRepeated then ElementPlay(e.(audio := e.audio.(position := 0.0)), allowed)
    else NextTrack(e, favorites, filtered, pick, allowed, base)
  }

  /** `Math.max(0, Math.min(1, x))`. */
  function Clamp01(x: real): (r: real)
    ensures 0.0 <= r <= 1.0
    ensures 0.0 <= x <= 1.0 ==> r == x
    ensures x < 0.0 ==> r == 0.0
    ensures x > 1.0 ==> r == 1.0
  {
    var m := if x < 1.0 then x else 1.0;
    if m > 0.0 then m else 0.0
  }

  /** `seek(event)` with the click's fraction of the bar's width: nothing
      without a source or a current track, and nothing until the duration is
      known. */
  function Seek(s: State, ratio: real): State {
    if s.audio.src == "" || s.currentTrack.None? then s
    else if s.audio.duration != 0.0 then s.(audio := s.audio.(position := Clamp01(ratio) * s.audio.duration))
    else s
  }

  /** `toggleMute()`. */
  function ToggleMute(s: State): State {
    s.(isMuted := !s.isMuted, audio := s.audio.(muted := !s.isMuted))
  }

  /** `setVolume(event)` with the click's fraction of the slider's width; the
      element's own `muted` attribute is not touched. */
  function SetVolume(s: State, ratio: real): State {
    var v := Clamp01(ratio);
    s.(volume := v, audio := s.audio.(volume := v), isMuted := v == 0.0)
  }

  datatype VolumeGlyph = Mute | Down | Up

  /** `updateVolumeIcon()`. */
  function VolumeIcon(s: State): VolumeGlyph {
    if s.isMuted || s.volume == 0.0 then Mute
    else if s.volume < 0.5 then Down
    else Up
  }

  function ToggleRepeat(s: State): State {
    s.(isRepeated := !s.isRepeated)
  }

  function ToggleShuffle(s: State): State {
    s.(isShuffled := !s.isShuffled)
  }

  /** `getCurrentTrackInfo()`. */
  datatype TrackInfo = TrackInfo(track: Option<Track>, trackId: Option<int>, isPlaying: bool)

  function GetCurrentTrackInfo(s: State): (info: TrackInfo)
    ensures info.track == s.currentTrack && info.isPlaying == s.isPlaying
    ensures info.trackId.Some? <==> s.currentTrack.Some?
    ensures info.trackId.Some? ==> info.trackId.value == s.currentTrack.value.id
  {
    TrackInfo(s.currentTrack, if s.currentTrack.Some? then Some(s.currentTrack.value.id) else None, s.isPlaying)
  }

  datatype PlayGlyph = StopIcon | PlayIcon

  /** `getPlayButtonHtml(trackId)`: a page without the player reads as no
      current track. */
  function PlayButtonIcon(info: Option<TrackInfo>, rowId: int): PlayGlyph {
    var i := info.GetOr(TrackInfo(None, None, false));
    if i.trackId == Some(rowId) && i.isPlaying then StopIcon else PlayIcon
  }

  /** The window `load` handler: a non-empty `window.tracks` is copied into an
      empty playlist; the index is left as it is. */
  function OnWindowLoad(s: State): State {
    if s.windowTracks.Some? && |s.windowTracks.value| > 0 && |s.playlist| == 0
    then s.(playlist := s.windowTracks.value)
    else s
  }

  /** The index points into a non-empty playlist. */
  predicate IndexInRange(s: State) {
    |s.playlist| > 0 ==> 0 <= s.index < |s.playlist|
  }
}
