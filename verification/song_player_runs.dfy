/**
 The window driven by a sequence of events, one handler at a time, as Qt's
 single event loop delivers them.

 A disabled button emits no click and a stopped timer emits no timeout, so
 `Handle` drops the events the current state cannot produce before calling
 the handler. Backend notifications and the always-enabled "Load audio"
 button are always delivered.
 */
module SongPlayerRuns {
  import opened Wrappers
  import opened TimeFormat
  import opened SongPlayer

  /** One event, with the backend position for the handlers that read it. */
  datatype Event =
    | LoadClicked(path: string)
    | PlayClicked
    | DurationNotified(durationMs: nat)
    | PositionNotified(positionMs: nat)
    | StartClicked(atMs: nat)
    | EndClicked(atMs: nat)
    | PlaySelectedClicked
    | TimerTimeout(atMs: nat)

  /** Whether the control or timer behind `e` can fire in state `p`. */
  predicate Deliverable(p: Player, e: Event) {
    match e
    case PlayClicked => p.loaded
    case StartClicked(_) => p.loaded
    case EndClicked(_) => p.loaded
    case PlaySelectedClicked => p.playSelEnabled
    case TimerTimeout(_) => p.watching
    case _ => true
  }

  function Handle(p: Player, e: Event): (r: Reaction)
    ensures !Deliverable(p, e) ==> r == Reaction(p, false)
    ensures r.warned ==> e.StartClicked? || e.EndClicked?
  {
    if !Deliverable(p, e) then Reaction(p, false)
    else match e
      case LoadClicked(path) => Reaction(LoadAudio(p, path), false)
      case PlayClicked => Reaction(TogglePlay(p), false)
      case DurationNotified(d) => Reaction(DurationChanged(p, d), false)
      case PositionNotified(pos) => Reaction(PositionChanged(p, pos), false)
      case StartClicked(pos) => SetStart(p, pos)
      case EndClicked(pos) => SetEnd(p, pos)
      case PlaySelectedClicked => Reaction(PlaySelected(p), false)
      case TimerTimeout(pos) => Reaction(CheckLoopEnd(p, pos), false)
  }

  function Run(p: Player, es: seq<Event>): Player
    decreases |es|
  {
    if |es| == 0 then p else Run(Handle(p, es[0]).next, es[1..])
  }

  /**
   Beyond `Valid`: nothing can be marked or played before a file is loaded,
   and the selection button and the timer are only ever on after a load.
   */
  predicate Consistent(p: Player) {
    && Valid(p)
    && (!p.loaded ==> p.start.None? && p.end.None?)
    && (p.playSelEnabled || p.watching ==> p.loaded)
  }

  lemma HandlePreservesConsistent(p: Player, e: Event)
    requires Consistent(p)
    ensures Consistent(Handle(p, e).next)
  {
  }

  lemma {:induction false} RunPreservesConsistent(p: Player, es: seq<Event>)
    requires Consistent(p)
    ensures Consistent(Run(p, es))
    decreases |es|
  {
    if |es| > 0 {
      HandlePreservesConsistent(p, es[0]);
      RunPreservesConsistent(Handle(p, es[0]).next, es[1..]);
    }
  }

  /**
   Every state the window can reach keeps its markers ordered, its label in
   step with them and its texts in step with the values they show.
   */
  lemma ReachableConsistent(es: seq<Event>)
    ensures Consistent(Run(Init(), es))
    ensures var p := Run(Init(), es); BothMarked(p) ==> p.start.value < p.end.value
  {
    RunPreservesConsistent(Init(), es);
  }

  predicate AllTicks(es: seq<Event>) {
    forall i :: 0 <= i < |es| ==> es[i].TimerTimeout?
  }

  /** Once the timer is stopped, timeouts are not delivered and nothing changes. */
  lemma {:induction false} TicksIgnoredWhenIdle(p: Player, es: seq<Event>)
    requires !p.watching && AllTicks(es)
    ensures Run(p, es) == p
    decreases |es|
  {
    if |es| > 0 {
      TicksIgnoredWhenIdle(p, es[1..]);
    }
  }

  /**
   With the end marker cleared while the timer runs, no run of timeouts stops
   it until an end marker is set again: the timer keeps running and playback
   keeps going.
   */
  lemma {:induction false} WatchWithoutEndNeverStops(p: Player, es: seq<Event>)
    requires p.watching && p.end.None? && AllTicks(es)
    ensures Run(p, es) == p
    decreases |es|
  {
    if |es| > 0 {
      assert Handle(p, es[0]).next == p;
      WatchWithoutEndNeverStops(p, es[1..]);
    }
  }

  /**
   A run of timeouts against a set end marker stops the timer exactly when
   some reported position reaches the end, and playback pauses with it.
   */
  lemma {:induction false} TicksStopAtEnd(p: Player, es: seq<Event>)
    requires p.watching && p.end.Some? && AllTicks(es)
    ensures var q := Run(p, es);
      && (q.watching <==> forall i :: 0 <= i < |es| ==> es[i].atMs < p.end.value)
      && (!q.watching ==> !q.playing)
      && SameSelection(p, q)
    decreases |es|
  {
    if |es| > 0 {
      var q1 := Handle(p, es[0]).next;
      if es[0].atMs >= p.end.value {
        TicksIgnoredWhenIdle(q1, es[1..]);
        assert Run(p, es) == q1;
      } else {
        assert q1 == p;
        TicksStopAtEnd(p, es[1..]);
        assert Run(p, es) == Run(p, es[1..]);
        forall i | 1 <= i < |es| ensures es[i] == es[1..][i - 1] { }
      }
    }
  }

  /** Marking a start before an end (or with no end yet) and then a later end selects that range. */
  lemma MarkValidSelection(p: Player, a: nat, b: nat)
    requires Consistent(p) && p.loaded && a < b
    requires p.end.None? || a < p.end.value
    ensures var p1 := Handle(p, StartClicked(a)).next;
      var r := Handle(p1, EndClicked(b));
      && !r.warned
      && r.next.start == Some(a) && r.next.end == Some(b) && r.next.playSelEnabled
      && r.next.selLabel == Range(FmtMillis(a), FmtMillis(b))
  {
  }

  /**
   Marking an end that is not after the start clears both markers with a
   warning; "Play selected" stays enabled (the button is never disabled here).
   */
  lemma MarkInvalidSelection(p: Player, a: nat, b: nat)
    requires Consistent(p) && p.loaded && a >= b
    requires p.end.None? || a < p.end.value
    ensures var p1 := Handle(p, StartClicked(a)).next;
      var r := Handle(p1, EndClicked(b));
      && r.warned
      && r.next.start.None? && r.next.end.None? && r.next.selLabel == Placeholder
      && r.next.playSelEnabled == p1.playSelEnabled
  {
  }

  /**
   A quirk of the source: after a valid selection, a re-mark of the start at
   or past the end clears the markers but leaves "Play selected" enabled, and
   clicking it then does nothing.
   */
  lemma StalePlaySelectedAfterInvalidMark(path: string, a: nat, b: nat, c: nat)
    requires path != "" && a < b <= c
    ensures var p1 := Handle(Init(), LoadClicked(path)).next;
      var p2 := Handle(p1, StartClicked(a)).next;
      var p3 := Handle(p2, EndClicked(b)).next;
      var r := Handle(p3, StartClicked(c));
      && r.warned && r.next.playSelEnabled && r.next.start.None? && r.next.end.None?
      && Handle(r.next, PlaySelectedClicked).next == r.next
  {
  }

  /**
   A quirk of the source: a re-mark of the end at or before the start while
   the selection plays clears both markers and leaves the timer running; no
   run of timeouts stops it until an end marker is set again
   (`EndMarkedAgainStops`).
   */
  lemma EndClearedWhileWatching(path: string, a: nat, b: nat, c: nat, ticks: seq<Event>)
    requires path != "" && c <= a < b && AllTicks(ticks)
    ensures var p1 := Handle(Init(), LoadClicked(path)).next;
      var p2 := Handle(p1, StartClicked(a)).next;
      var p3 := Handle(p2, EndClicked(b)).next;
      var p4 := Handle(p3, PlaySelectedClicked).next;
      var p5 := Handle(p4, EndClicked(c)).next;
      && p5.watching && p5.playing && p5.end.None? && Run(p5, ticks) == p5
  {
    var p1 := Handle(Init(), LoadClicked(path)).next;
    var p2 := Handle(p1, StartClicked(a)).next;
    var p3 := Handle(p2, EndClicked(b)).next;
    var p4 := Handle(p3, PlaySelectedClicked).next;
    var p5 := Handle(p4, EndClicked(c)).next;
    WatchWithoutEndNeverStops(p5, ticks);
  }

  /**
   Loading another file while a selection plays clears the selection but
   leaves the timer running.
   */
  lemma LoadKeepsTimerRunning(p: Player, path: string)
    requires p.watching && path != ""
    ensures var q := Handle(p, LoadClicked(path)).next;
      q.watching && q.start.None? && q.end.None? && !q.playSelEnabled
  {
  }

  /**
   The same quirk without the warning dialog: loading another file while a
   selection plays clears the end marker, and no run of timeouts stops the
   timer or pauses playback until an end marker is set again
   (`LoadThenEndMarkStops`).
   */
  lemma LoadWhileWatchingNeverStops(p: Player, path: string, ticks: seq<Event>)
    requires p.watching && path != "" && AllTicks(ticks)
    ensures var q := Handle(p, LoadClicked(path)).next;
      && q.watching && q.playing == p.playing && q.end.None? && Run(q, ticks) == q
  {
    WatchWithoutEndNeverStops(Handle(p, LoadClicked(path)).next, ticks);
  }

  /**
   The limit of both quirks: with the timer running and no start marker, as
   after a load or an invalid re-mark, "Set END" is still enabled and needs no
   start, so marking an end again lets the next timeout at or past it pause
   playback and stop the timer.
   */
  lemma EndMarkedAgainStops(p: Player, e: nat, t: nat)
    requires p.loaded && p.watching && p.start.None? && e <= t
    ensures var q := Run(p, [EndClicked(e), TimerTimeout(t)]);
      && q.end == Some(e) && !q.watching && !q.playing && q.playText == "Play"
  {
    var es := [EndClicked(e), TimerTimeout(t)];
    var p1 := Handle(p, es[0]).next;
    assert p1 == p.(end := Some(e));
    var p2 := Handle(p1, es[1]).next;
    assert es[1..] == [TimerTimeout(t)] && es[1..][1..] == [];
    assert Run(p1, es[1..]) == Run(p2, []);
  }

  /** Loading a file while a selection plays, then marking an end and reaching it, stops the timer. */
  lemma LoadThenEndMarkStops(p: Player, path: string, e: nat, t: nat)
    requires p.watching && path != "" && e <= t
    ensures var q := Run(p, [LoadClicked(path), EndClicked(e), TimerTimeout(t)]);
      && q.end == Some(e) && !q.watching && !q.playing
  {
    var es := [LoadClicked(path), EndClicked(e), TimerTimeout(t)];
    var p1 := Handle(p, es[0]).next;
    assert es[1..] == [EndClicked(e), TimerTimeout(t)];
    EndMarkedAgainStops(p1, e, t);
  }

  /** A duration of 180000 ms shows "03:00" and sets the slider range to [0, 180000]. */
  lemma DurationScenario(p: Player)
    ensures var q := Handle(p, DurationNotified(180000)).next;
      q.totalText == "03:00" && q.sliderMax == 180000 && q.durationMs == 180000
  {
    FmtMillisExample();
  }

  /** Start at 10000 ms, end at 5000 ms: warning, selection cleared, placeholder label. */
  lemma BackwardsSelectionScenario(path: string)
    requires path != ""
    ensures var p1 := Handle(Init(), LoadClicked(path)).next;
      var p2 := Handle(p1, StartClicked(10000)).next;
      var r := Handle(p2, EndClicked(5000));
      && r.warned && r.next.start.None? && r.next.end.None? && r.next.selLabel == Placeholder
  {
  }

  /**
   Start at 5000 ms, end at 15000 ms, play the selection: the backend seeks
   to 5000 and plays; a timeout at 15000 ms pauses it and stops the timer.
   */
  lemma PlaySelectionScenario(path: string)
    requires path != ""
    ensures var p1 := Handle(Init(), LoadClicked(path)).next;
      var p2 := Handle(p1, StartClicked(5000)).next;
      var p3 := Handle(p2, EndClicked(15000)).next;
      var p4 := Handle(p3, PlaySelectedClicked).next;
      var p5 := Handle(p4, TimerTimeout(15000)).next;
      && p4.seekTarget == Some(5000) && p4.playing && p4.watching
      && !p5.playing && !p5.watching && p5.playText == "Play"
  {
  }
}
