/**
 The `MassSongPlayer` window of cutter.py as an immutable controller state
 and one pure transition per handler.

 The Qt widgets are reduced to what the handlers read and write: which
 controls are enabled, the texts of the labels, the slider's range and
 value. The media backend is reduced to what the handlers ask of it: play,
 pause, and a seek target; its current position arrives as a parameter of
 the handlers that read it. The `loop_timer` is the `watching` flag.
 */
module SongPlayer {
  import opened Wrappers
  import opened TimeFormat

  /** The text of `sel_label`: "Selection: —" or "Selection: <start> → <end>". */
  datatype SelectionLabel = Placeholder | Range(startText: string, endText: string)

  datatype Player = Player(
    // The play button, the slider and the Set START / Set END buttons;
    // they are only ever enabled together, by loading a file.
    loaded: bool,
    start: Option<nat>,          // loop_start_ms
    end: Option<nat>,            // loop_end_ms
    selLabel: SelectionLabel,
    playSelEnabled: bool,        // the "Play selected" button
    playing: bool,               // the backend is in its playing state
    playText: string,            // the play button's text
    watching: bool,              // loop_timer is running
    seekTarget: Option<nat>,     // the last position handed to the backend's setPosition
    durationMs: nat,
    sliderMax: nat,              // the slider's range is always [0, sliderMax]
    sliderValue: nat,
    currentText: string,         // current_label
    totalText: string            // total_label
  )

  /** What a handler leaves behind, and whether it raised the "Invalid selection" warning. */
  datatype Reaction = Reaction(next: Player, warned: bool)

  /** The play button text `on_state_changed` shows for a backend state. */
  function PlayText(playing: bool): (t: string)
    ensures t == "Pause" <==> playing
    ensures !playing ==> t == "Play"
  {
    if playing then "Pause" else "Play"
  }

  /**
   The backend's `play()` / `pause()`, followed by the state-change
   notification that relabels the play button.
   */
  function WithPlaying(p: Player, playing: bool): (r: Player)
    ensures r.playing == playing && (r.playText == "Pause" <==> playing)
    ensures !playing ==> r.playText == "Play"
    ensures SameSelection(p, r) && SameTimeline(p, r)
    ensures r.loaded == p.loaded && r.watching == p.watching && r.seekTarget == p.seekTarget
  {
    p.(playing := playing, playText := PlayText(playing))
  }

  // ----- Which parts of the state a handler leaves alone -----

  /** The selection model: both markers, the label and the "Play selected" button. */
  predicate SameSelection(a: Player, b: Player) {
    a.start == b.start && a.end == b.end && a.selLabel == b.selLabel && a.playSelEnabled == b.playSelEnabled
  }

  /** The playback side: backend state, button text, timer and seek target. */
  predicate SamePlayback(a: Player, b: Player) {
    a.playing == b.playing && a.playText == b.playText && a.watching == b.watching
    && a.seekTarget == b.seekTarget
  }

  /** The position tracker: duration, slider and both time labels. */
  predicate SameTimeline(a: Player, b: Player) {
    a.durationMs == b.durationMs && a.sliderMax == b.sliderMax && a.sliderValue == b.sliderValue
    && a.currentText == b.currentText && a.totalText == b.totalText
  }

  // ----- The state invariant -----

  predicate BothMarked(p: Player) {
    p.start.Some? && p.end.Some?
  }

  /** A selection with both markers set always starts strictly before it ends. */
  predicate Ordered(p: Player) {
    BothMarked(p) ==> p.start.value < p.end.value
  }

  /**
   The label names the selection exactly when both markers are set, and then
   "Play selected" is enabled.
   */
  predicate LabelShowsSelection(p: Player) {
    if BothMarked(p) then
      p.selLabel == Range(FmtMillis(p.start.value), FmtMillis(p.end.value)) && p.playSelEnabled
    else
      p.selLabel == Placeholder
  }

  /** The texts shown always agree with the values they display. */
  predicate TextsAgree(p: Player) {
    && p.playText == PlayText(p.playing)
    && p.currentText == FmtMillis(p.sliderValue)
    && p.totalText == FmtMillis(p.durationMs)
  }

  predicate Valid(p: Player) {
    Ordered(p) && LabelShowsSelection(p) && TextsAgree(p)
  }

  /** The window as the constructor leaves it (the slider keeps Qt's default range 0..99). */
  function Init(): (p: Player)
    ensures Valid(p)
    ensures !p.loaded && !p.playSelEnabled && !p.playing && !p.watching
    ensures p.start.None? && p.end.None? && p.durationMs == 0
  {
    Player(
      loaded := false, start := None, end := None, selLabel := Placeholder,
      playSelEnabled := false, playing := false, playText := "Play", watching := false,
      seekTarget := None, durationMs := 0, sliderMax := 99, sliderValue := 0,
      currentText := "00:00", totalText := "00:00")
  }

  // ----- Handlers -----

  /**
   `load_audio`, with the file dialog's answer as `path`. A cancelled dialog
   (empty path) changes nothing. Otherwise the controls are enabled and the
   selection is cleared; the media itself is never handed to the backend and
   a running loop timer keeps running.
   */
  function LoadAudio(p: Player, path: string): (r: Player)
    ensures path == "" ==> r == p
    ensures path != "" ==> r.loaded && !r.playSelEnabled
    ensures path != "" ==> r.start.None? && r.end.None? && r.selLabel == Placeholder
    ensures SamePlayback(p, r) && SameTimeline(p, r)
    ensures Valid(p) ==> Valid(r)
  {
    if path == "" then p
    else p.(loaded := true, playSelEnabled := false, start := None, end := None, selLabel := Placeholder)
  }

  /** `toggle_play`: pause when playing, play otherwise. */
  function TogglePlay(p: Player): (r: Player)
    ensures r.playing == !p.playing
    ensures r.playText == "Pause" <==> r.playing
    ensures !r.playing ==> r.playText == "Play"
    ensures SameSelection(p, r) && SameTimeline(p, r)
    ensures r.loaded == p.loaded && r.watching == p.watching && r.seekTarget == p.seekTarget
    ensures Valid(p) ==> Valid(r)
  {
    WithPlaying(p, !p.playing)
  }

  /** `on_duration_changed`: records the duration, the slider range and the total time. */
  function DurationChanged(p: Player, dur: nat): (r: Player)
    ensures r.durationMs == dur && r.sliderMax == dur
    ensures ParseClock(r.totalText) == Some(dur / 1000)
    ensures SameSelection(p, r) && SamePlayback(p, r) && r.loaded == p.loaded
    ensures r.sliderValue == p.sliderValue && r.currentText == p.currentText
    ensures Valid(p) ==> Valid(r)
  {
    p.(durationMs := dur, sliderMax := dur, totalText := FmtMillis(dur))
  }

  /**
   `on_position_changed`: moves the slider and the current-time text only.
   Signals are blocked while the slider moves, so no seek follows.
   */
  function PositionChanged(p: Player, pos: nat): (r: Player)
    ensures r.sliderValue == pos
    ensures ParseClock(r.currentText) == Some(pos / 1000)
    ensures SameSelection(p, r) && SamePlayback(p, r) && r.loaded == p.loaded
    ensures r.durationMs == p.durationMs && r.sliderMax == p.sliderMax && r.totalText == p.totalText
    ensures Valid(p) ==> Valid(r)
  {
    p.(sliderValue := pos, currentText := FmtMillis(pos))
  }

  /**
   `update_selection_label`: nothing unless both markers are set; a marker
   pair that is not strictly increasing is cleared with a warning (leaving
   "Play selected" as it was); otherwise the button is enabled and the label
   names the range.
   */
  function UpdateSelectionLabel(p: Player): (r: Reaction)
    ensures Ordered(r.next)
    ensures r.warned <==> BothMarked(p) && p.start.value >= p.end.value
    ensures r.warned ==> r.next.start.None? && r.next.end.None? && r.next.selLabel == Placeholder
    ensures r.next.playSelEnabled == (p.playSelEnabled || (BothMarked(p) && !r.warned))
    ensures !BothMarked(p) ==> r.next == p
    ensures BothMarked(p) && !r.warned ==>
      && r.next.start == p.start && r.next.end == p.end
      && r.next.selLabel == Range(FmtMillis(p.start.value), FmtMillis(p.end.value))
      && ParseClock(r.next.selLabel.startText) == Some(p.start.value / 1000)
      && ParseClock(r.next.selLabel.endText) == Some(p.end.value / 1000)
    ensures SamePlayback(p, r.next) && SameTimeline(p, r.next) && r.next.loaded == p.loaded
  {
    if !BothMarked(p) then Reaction(p, false)
    else if p.start.value >= p.end.value then
      Reaction(p.(start := None, end := None, selLabel := Placeholder), true)
    else
      Reaction(p.(playSelEnabled := true,
                  selLabel := Range(FmtMillis(p.start.value), FmtMillis(p.end.value))), false)
  }

  /** `set_start` at the backend position `pos`. */
  function SetStart(p: Player, pos: nat): (r: Reaction)
    ensures Ordered(r.next)
    ensures r.warned <==> p.end.Some? && pos >= p.end.value
    ensures r.warned ==>
      && r.next.start.None? && r.next.end.None? && r.next.selLabel == Placeholder
      && r.next.playSelEnabled == p.playSelEnabled
    ensures p.end.None? ==> r.next == p.(start := Some(pos)) && !r.warned
    ensures p.end.Some? && pos < p.end.value ==>
      && r.next.start == Some(pos) && r.next.end == p.end && r.next.playSelEnabled
      && r.next.selLabel == Range(FmtMillis(pos), FmtMillis(p.end.value))
    ensures SamePlayback(p, r.next) && SameTimeline(p, r.next) && r.next.loaded == p.loaded
    ensures Valid(p) ==> Valid(r.next)
  {
    UpdateSelectionLabel(p.(start := Some(pos)))
  }

  /** `set_end` at the backend position `pos`. */
  function SetEnd(p: Player, pos: nat): (r: Reaction)
    ensures Ordered(r.next)
    ensures r.warned <==> p.start.Some? && p.start.value >= pos
    ensures r.warned ==>
      && r.next.start.None? && r.next.end.None? && r.next.selLabel == Placeholder
      && r.next.playSelEnabled == p.playSelEnabled
    ensures p.start.None? ==> r.next == p.(end := Some(pos)) && !r.warned
    ensures p.start.Some? && p.start.value < pos ==>
      && r.next.start == p.start && r.next.end == Some(pos) && r.next.playSelEnabled
      && r.next.selLabel == Range(FmtMillis(p.start.value), FmtMillis(pos))
    ensures SamePlayback(p, r.next) && SameTimeline(p, r.next) && r.next.loaded == p.loaded
    ensures Valid(p) ==> Valid(r.next)
  {
    UpdateSelectionLabel(p.(end := Some(pos)))
  }

  /**
   `play_selected`: with both markers set, seeks to the start, plays and
   starts the loop timer; otherwise nothing.
   */
  function PlaySelected(p: Player): (r: Player)
    ensures !BothMarked(p) ==> r == p
    ensures BothMarked(p) ==>
      && r.seekTarget == p.start && r.playing && r.watching && r.playText == "Pause"
    ensures SameSelection(p, r) && SameTimeline(p, r) && r.loaded == p.loaded
    ensures Valid(p) ==> Valid(r)
  {
    if !BothMarked(p) then p
    else WithPlaying(p.(seekTarget := p.start), true).(watching := true)
  }

  /** The stop condition of `check_loop_end` at backend position `pos`. */
  predicate ReachedEnd(p: Player, pos: nat) {
    p.end.Some? && pos >= p.end.value
  }

  /**
   `check_loop_end`: once the position reaches a set end marker, pause and
   stop the timer; in every other case nothing changes.
   */
  function CheckLoopEnd(p: Player, pos: nat): (r: Player)
    ensures r.watching <==> p.watching && !ReachedEnd(p, pos)
    ensures r.playing <==> p.playing && !ReachedEnd(p, pos)
    ensures ReachedEnd(p, pos) ==> r.playText == "Play"
    ensures !ReachedEnd(p, pos) ==> r == p
    ensures SameSelection(p, r) && SameTimeline(p, r) && r.loaded == p.loaded
    ensures r.seekTarget == p.seekTarget
    ensures Valid(p) ==> Valid(r)
  {
    if ReachedEnd(p, pos) then WithPlaying(p, false).(watching := false) else p
  }
}
