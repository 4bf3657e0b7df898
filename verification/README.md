# RecordCutter player window — a Dafny model

RecordCutter's `cutter.py` is a single PyQt window (`MassSongPlayer`) for
loading an audio file, scrubbing a timeline and marking a start/end region
that can be played back and is stopped by a polling timer once it reaches
the end marker. This project models the two pieces of logic in it that can
be separated from Qt:

- **The time formatter** `fmt_seconds` (module `TimeFormat`): whole seconds
  rendered as `MM:SS`, minutes zero-padded to at least two digits and never
  rolled over into hours, seconds always two digits. Callers always pass a
  millisecond count divided by 1000; `FmtMillis` takes the milliseconds as a
  `nat` and uses integer division, which is what `int()` of the non-negative
  quotient gives. `ParseClock` reads a rendering back as whole seconds and is
  the formatter's independent partner: every rendering parses back to the
  truncated input.
- **The selection / loop-stop controller** (modules `SongPlayer` and
  `SongPlayerRuns`): the window's handlers as pure transitions over one
  immutable `Player` record — the two optional markers, the selection label
  (`Placeholder` or `Range(startText, endText)`), which controls are enabled,
  the backend's playing state and the play button's text, the loop timer
  (`watching`), the last seek target, the duration, the slider and the two
  time labels. The backend's current position is a parameter of the handlers
  that read it; the "Invalid selection" dialog is the `warned` flag of a
  `Reaction`. `Handle` delivers one event the way Qt does — a disabled
  button produces no click and a stopped timer no timeout — and `Run` folds a
  sequence of events.

The central invariant (`SongPlayer.Valid`, strengthened to
`SongPlayerRuns.Consistent`) is: whenever both markers are set the start is
strictly before the end, the label names exactly that range and "Play
selected" is enabled; otherwise the label is the placeholder; and every text
on screen shows the value it belongs to. Every handler preserves it, and
every state reachable from the constructor by whole handler runs satisfies
it. Each handler is taken to run to completion before the next event. The
source runs two modal dialogs, and each one runs a nested event loop. The
file dialog of `load_audio` (cutter.py:94-97) is harmless: the handler
changes nothing before it returns, so events delivered inside it act as if
they came before the load. The modal warning is different: timeouts
delivered inside it see the invalid pair still set. That case is not
modelled (see "Left out").

The source's quirks are kept, and stated as lemmas:

- the invalid-selection branch never disables "Play selected"
  (`StalePlaySelectedAfterInvalidMark`);
- loading a file does not stop the loop timer (`LoadKeepsTimerRunning`);
- if the end marker is cleared while the timer runs, no timeout stops it
  until an end marker is set again (`LoadWhileWatchingNeverStops` through a
  file load, `EndClearedWhileWatching` through an invalid re-mark); "Set END"
  stays enabled and needs no start, so marking an end and reaching it does
  stop it (`EndMarkedAgainStops`, `LoadThenEndMarkStops`).

`update_selection_label` (cutter.py:149-158) never disables "Play
selected": the unset case returns without touching it, and the invalid case
warns and clears the markers and the label but leaves the button as it was.
Only a file load disables it again.

## Model

| member | source | states |
|---|---|---|
| TimeFormat.Decimal | cutter.py:14 | The decimal rendering of a non-negative integer: non-empty, all digits, a leading '0' only for zero, at most two digits exactly below 100. |
| TimeFormat.DecimalRoundTrip | cutter.py:14 | Reading the decimal rendering of `n` back as digits gives `n`. |
| TimeFormat.PaddingKeepsValue | cutter.py:14 | Zero-padding a digit string to a width keeps it all digits and keeps its value. |
| TimeFormat.Format02 | cutter.py:14 | The `02d` field of `n` is at least two characters, all digits, and reads back as `n`. |
| TimeFormat.Format02Width | cutter.py:14 | The `02d` field is exactly two characters iff the value is below 100; when wider it is the plain digits with no leading zero, so nothing is clamped. |
| TimeFormat.FmtSeconds | cutter.py:10-14 | The rendering has a colon three characters from the end, and parsing it back as 60·minutes + seconds yields exactly the whole seconds formatted. |
| TimeFormat.FmtMillis | cutter.py:127 | Formatting `ms / 1000` parses back to exactly the truncated whole seconds `ms / 1000`. |
| TimeFormat.FmtSecondsFields | cutter.py:10-14 | The minutes field is all digits with value `sec / 60`, at least two wide, exactly two wide iff under 100 minutes and with no leading zero beyond that; the seconds field is exactly two digits with value `sec % 60`. |
| TimeFormat.FmtSecondsInjective | cutter.py:10-14 | Two whole-second values with the same rendering are equal. |
| TimeFormat.FmtSecondsExamples | cutter.py:10-14 | 0 s renders as "00:00" and 65 s as "01:05". |
| TimeFormat.FmtSecondsPastAnHour | cutter.py:12-14 | 3661 s renders as "61:01": no rollover into hours. |
| TimeFormat.FmtSecondsHundredMinutes | cutter.py:12-14 | 6000 s renders as "100:00": minutes are not clamped to two digits. |
| TimeFormat.FmtMillisExample | cutter.py:127 | A duration of 180000 ms renders as "03:00". |
| SongPlayer.PlayText | cutter.py:119-120 | The play button reads "Pause" exactly when the backend is playing, and "Play" otherwise. |
| SongPlayer.Init | cutter.py:28-83 | The constructed window satisfies the invariant: nothing loaded, no markers, duration 0, not playing, timer stopped, "Play selected" disabled. |
| SongPlayer.LoadAudio | cutter.py:93-111 | A cancelled dialog changes nothing; otherwise both markers are cleared, the label is the placeholder, "Play selected" is disabled and the other controls enabled, while playback, the timer and the timeline are left as they were; the invariant is preserved. |
| SongPlayer.TogglePlay | cutter.py:113-120 | Playing flips, the button reads "Pause" iff now playing and "Play" otherwise, and the selection, the timer, the seek target and the timeline are untouched; the invariant is preserved. |
| SongPlayer.DurationChanged | cutter.py:122-127 | The duration and the slider's upper bound become `dur`, the total label reads back as `dur / 1000` whole seconds, and nothing else changes. |
| SongPlayer.PositionChanged | cutter.py:129-134 | The slider value becomes `pos` and the current label reads back as `pos / 1000`; the seek target and everything else stay unchanged, so no seek follows. |
| SongPlayer.UpdateSelectionLabel | cutter.py:149-164 | Afterwards the markers are ordered; a warning is raised iff both are set and start ≥ end, and then both are cleared with the placeholder label; with a marker unset nothing changes; a valid pair enables "Play selected" and the label is `Range` of the two markers' `MM:SS` texts, which read back as their whole seconds; the button is never disabled. |
| SongPlayer.SetStart | cutter.py:141-143 | Marking the start at `pos`: warning iff an end is set and `pos` ≥ end, which clears both markers and the label but leaves "Play selected" as it was; with no end only the start changes; before the end it selects `[pos, end]`, enables the button and labels the range; playback and timeline untouched; the invariant is preserved. |
| SongPlayer.SetEnd | cutter.py:145-147 | Marking the end at `pos`: the mirror image of `SetStart`, with a warning iff a start is set and start ≥ `pos`. |
| SongPlayer.PlaySelected | cutter.py:166-172 | With a marker unset nothing changes; otherwise the backend is sent to the start marker, plays (button "Pause") and the timer runs; the selection and timeline are untouched. |
| SongPlayer.CheckLoopEnd | cutter.py:174-177 | The timer stops and playback pauses exactly when an end marker is set and `pos` ≥ end; in every other case nothing changes. |
| SongPlayerRuns.Handle | cutter.py:51-89 | An event whose button is disabled, or a timeout while the timer is stopped, changes nothing; only marking can raise the warning. |
| SongPlayerRuns.HandlePreservesConsistent | cutter.py:93-177 | Every delivered event keeps the markers ordered, the label and texts in step, and marking, "Play selected" and the timer confined to a loaded window. |
| SongPlayerRuns.RunPreservesConsistent | cutter.py:93-177 | Any sequence of events from a consistent state ends in a consistent state. |
| SongPlayerRuns.ReachableConsistent | cutter.py:141-164 | Every state reachable from the constructed window is consistent; in particular both markers set implies start < end. |
| SongPlayerRuns.TicksIgnoredWhenIdle | cutter.py:172-177 | Once the timer is stopped, any run of timeouts changes nothing. |
| SongPlayerRuns.WatchWithoutEndNeverStops | cutter.py:174-177 | With the timer running and no end marker, any run made only of timeouts changes nothing: no timeout stops the timer. |
| SongPlayerRuns.TicksStopAtEnd | cutter.py:174-177 | Against a set end marker, after a run of timeouts the timer still runs iff every reported position was before the end; once stopped, playback is paused; the selection is untouched. |
| SongPlayerRuns.MarkValidSelection | cutter.py:141-164 | In a loaded window, marking start `a` then end `b` with `a < b` (and no end at or before `a` already set) selects exactly `[a, b]`, without warning, with "Play selected" enabled and the range labelled. |
| SongPlayerRuns.MarkInvalidSelection | cutter.py:141-158 | In a loaded window with no end at or before `a` already set, marking start `a` then end `b` with `a ≥ b` warns, clears both markers and shows the placeholder, leaving "Play selected" as the first mark left it. |
| SongPlayerRuns.StalePlaySelectedAfterInvalidMark | cutter.py:153-158 | After a valid selection, re-marking the start at or past the end warns and clears the markers but "Play selected" stays enabled, and clicking it does nothing. |
| SongPlayerRuns.EndClearedWhileWatching | cutter.py:145-177 | Playing a selection and then re-marking the end at or before the start clears the end while the timer runs and the backend plays, provided no timeout arrives while the warning is shown; no run made only of timeouts changes that state until an end marker is set again. |
| SongPlayerRuns.LoadKeepsTimerRunning | cutter.py:93-111 | Loading a file while a selection plays clears the selection and disables "Play selected" but the timer keeps running. |
| SongPlayerRuns.LoadWhileWatchingNeverStops | cutter.py:93-111 | Loading a file while a selection plays clears the end marker with the timer still running and playback unchanged, and no run made only of timeouts changes that state until an end marker is set again. |
| SongPlayerRuns.EndMarkedAgainStops | cutter.py:145-177 | With the timer running and no start marker, marking an end at `e` sets it without a warning, and a following timeout at or past `e` pauses playback ("Play") and stops the timer. |
| SongPlayerRuns.LoadThenEndMarkStops | cutter.py:93-177 | After a load while a selection plays, marking an end and a timeout at or past it leave playback paused and the timer stopped: the load quirk lasts only until an end is marked again. |
| SongPlayerRuns.DurationScenario | cutter.py:122-127 | A duration of 180000 ms shows "03:00" and sets the slider range to [0, 180000]. |
| SongPlayerRuns.BackwardsSelectionScenario | cutter.py:141-158 | After a load, start at 10000 ms and end at 5000 ms warns, clears the selection and shows the placeholder. |
| SongPlayerRuns.PlaySelectionScenario | cutter.py:141-177 | Start 5000, end 15000, play selected: the backend seeks to 5000, plays and the timer runs; a timeout at 15000 pauses playback and stops the timer. |

## Left out

- Widget construction, layout, window title and size, and the `__main__` entry point (cutter.py:17-89, 180-184); only the initial values of the state the handlers touch are modelled, with the slider's range taken as Qt's default 0..99.
- The file dialog and its extension filter (cutter.py:94-99): external I/O, modelled only as the returned path being empty or not.
- The media backend: loading is commented out in the source (cutter.py:101), so no media is handed over; play and pause are a boolean, the Paused and Stopped states are not told apart, and positions and durations arrive as event parameters with no relation imposed between them.
- `on_state_changed` (cutter.py:119-120) is not a separate event: the backend's state notification is taken to follow each `play()`/`pause()` at once, so the button text is updated together with `playing`.
- `seek` (cutter.py:136-137), the slider-drag handler, is not among the modelled handlers; only its absence after a position update is stated.
- Qt's clamping of a slider value into its range, and the `blockSignals` mechanics (cutter.py:130-132): only the outcome "no seek on a position update" is modelled.
- The timer's 50 ms interval and real-time scheduling (cutter.py:87-89): timeouts are discrete events without timing.
- The debug `print` (cutter.py:124): output only.
- The warning dialog (cutter.py:154) is the `warned` flag. `QMessageBox.warning` is modal and runs a nested event loop before the markers are cleared (cutter.py:155-156); timeouts delivered inside it, which can stop the timer against the new end, and `check_loop_end` running while start ≥ end, are not modelled.
- SongPlayerRuns.EndClearedWhileWatching: assumes no timeout arrives while the warning is shown; if one does with a position at or past the new end, the timer stops before the end is cleared, so the state it describes is one possible outcome, not the only one. `LoadWhileWatchingNeverStops` shows the same quirk on a path without the dialog.
- SongPlayer.DurationChanged, SongPlayer.PositionChanged: the slider's `setRange` and `setValue` (cutter.py:126, 131) take a 32-bit C int; a duration or position of 2^31 ms or more (about 24.8 days) raises `OverflowError` in PyQt5, which aborts the application from a slot. The model's `nat` slider values have no such bound.
- TimeFormat.FmtMillis: the source divides as floats and truncates with `int()`; integer division agrees with that for every millisecond count a float represents exactly (below 2^53), and larger values are not modelled. Negative seconds never reach the formatter and are not modelled.
