/**
 * The hover controller of the page script. Hovering a subtitle seeks its
 * media to the cue start, plays it and schedules a pause after the cue's
 * length; leaving the subtitle pauses at once. Every media element shares ONE
 * variable, mediaTimeout, holding the handle of the last scheduled pause, and
 * both handlers clear the timer that handle names.
 *
 * The browser side is modelled as a map from timer handles to the pauses
 * still scheduled, and the media elements as the log of calls made on them.
 * Times are integer milliseconds.
 */
module Playback {
  import opened Wrappers

  /** A call made on a media element: setting currentTime, play() or pause(). */
  datatype SinkCall = Seek(media: nat, at: int) | Play(media: nat) | Pause(media: nat)

  /** A scheduled `media.pause()` and the delay it was scheduled with. */
  datatype PendingPause = PendingPause(media: nat, delay: int)

  /**
   * mediaTimeout (None while it is still undefined), the timers the browser
   * still has scheduled, the handle the next setTimeout returns, and the log.
   */
  datatype PlayerState = PlayerState(mediaTimeout: Option<nat>, timers: map<nat, PendingPause>, nextTimer: nat,
                                     calls: seq<SinkCall>)

  /** What can happen: a hover, the end of a hover, or the browser running a scheduled timer. */
  datatype Event = PlayAt(media: nat, start: int, end: int) | Stop(media: nat) | Fire(timer: nat)

  /** The page just loaded: nothing scheduled, nothing called. */
  const Initial: PlayerState := PlayerState(None, map[], 0, [])

  /** clearTimeout(mediaTimeout): cancels the timer the shared handle names, if it is still scheduled. */
  function ClearShared(s: PlayerState): map<nat, PendingPause> {
    if s.mediaTimeout.Some? then s.timers - {s.mediaTimeout.value} else s.timers
  }

  /** The effect of one event. */
  function Step(s: PlayerState, e: Event): PlayerState {
    match e
    case PlayAt(media, start, end) =>
      var id := s.nextTimer;
      PlayerState(Some(id), ClearShared(s)[id := PendingPause(media, end - start)], id + 1,
                  s.calls + [Seek(media, start), Play(media)])
    case Stop(media) =>
      PlayerState(s.mediaTimeout, ClearShared(s), s.nextTimer, s.calls + [Pause(media)])
    case Fire(id) =>
      if id in s.timers then
        PlayerState(s.mediaTimeout, s.timers - {id}, s.nextTimer, s.calls + [Pause(s.timers[id].media)])
      else s
  }

  /** The state after a sequence of events. */
  function Run(s: PlayerState, events: seq<Event>): PlayerState
    decreases |events|
  {
    if events == [] then s else Run(Step(s, events[0]), events[1..])
  }

  /**
   * The invariant the shared handle keeps: a timer still scheduled is the one
   * mediaTimeout names, and handles already given out are below nextTimer.
   */
  predicate Consistent(s: PlayerState) {
    (forall id :: id in s.timers ==> s.mediaTimeout == Some(id))
    && (s.mediaTimeout.Some? ==> s.mediaTimeout.value < s.nextTimer)
  }

  /** Every event keeps the invariant. */
  lemma StepValid(s: PlayerState, e: Event)
    requires Consistent(s)
    ensures Consistent(Step(s, e))
  {
    match e
    case PlayAt(media, start, end) =>
    case Stop(media) =>
    case Fire(id) =>
  }

  /** Any sequence of events from the initial state keeps the invariant. */
  lemma {:induction false} RunValid(s: PlayerState, events: seq<Event>)
    requires Consistent(s)
    ensures Consistent(Run(s, events))
    decreases |events|
  {
    if events != [] {
      StepValid(s, events[0]);
      RunValid(Step(s, events[0]), events[1..]);
    }
  }

  /** Because the handle is shared, at most one pause is ever scheduled. */
  lemma AtMostOnePending(s: PlayerState)
    requires Consistent(s)
    ensures |s.timers| <= 1
  {
    if s.mediaTimeout.Some? {
      assert s.timers.Keys <= {s.mediaTimeout.value};
      SubsetSize(s.timers.Keys, {s.mediaTimeout.value});
    } else {
      assert s.timers.Keys == {};
    }
  }

  lemma SubsetSize(a: set<nat>, b: set<nat>)
    requires a <= b
    ensures |a| <= |b|
  {
    if a != {} {
      var x :| x in a;
      SubsetSize(a - {x}, b - {x});
    }
  }

  /**
   * playMediaAt(i, start, end) seeks and plays media i, and afterwards exactly
   * one pause is scheduled: media i's, after end - start. Any earlier pending
   * pause is cancelled, even one for another media element.
   */
  lemma PlayAtSchedulesOnlyItsPause(s: PlayerState, media: nat, start: int, end: int)
    requires Consistent(s)
    ensures var t := Step(s, PlayAt(media, start, end));
      t.timers == map[s.nextTimer := PendingPause(media, end - start)]
      && t.calls == s.calls + [Seek(media, start), Play(media)]
  {
    assert ClearShared(s) == map[];
  }

  /** stopMedia(i) pauses media i and leaves nothing scheduled. */
  lemma StopClearsAll(s: PlayerState, media: nat)
    requires Consistent(s)
    ensures var t := Step(s, Stop(media));
      t.timers == map[] && t.calls == s.calls + [Pause(media)]
  {
    assert ClearShared(s) == map[];
  }

  /** A scheduled pause that runs pauses its own media element once; a cancelled one does nothing. */
  lemma FireEffect(s: PlayerState, id: nat)
    ensures id in s.timers ==>
      (Step(s, Fire(id)).calls == s.calls + [Pause(s.timers[id].media)] && id !in Step(s, Fire(id)).timers)
    ensures id !in s.timers ==> Step(s, Fire(id)) == s
  {
  }

  /** The log only grows: every run extends the calls already made. */
  lemma {:induction false} CallsOnlyGrow(s: PlayerState, events: seq<Event>)
    ensures s.calls <= Run(s, events).calls
    decreases |events|
  {
    if events != [] {
      CallsOnlyGrow(Step(s, events[0]), events[1..]);
    }
  }

  /**
   * Moving from a subtitle of media i straight to one of media j: i's pause is
   * cancelled before it runs, so when the browser later runs the timers only
   * media j is paused, and media i keeps playing.
   */
  lemma HoverAnotherMedia(i: nat, j: nat, s1: int, e1: int, s2: int, e2: int)
    ensures Run(Initial, [PlayAt(i, s1, e1), PlayAt(j, s2, e2), Fire(0), Fire(1)]).calls
         == [Seek(i, s1), Play(i), Seek(j, s2), Play(j), Pause(j)]
    ensures Run(Initial, [PlayAt(i, s1, e1), PlayAt(j, s2, e2), Fire(0), Fire(1)]).timers == map[]
  {
    var events := [PlayAt(i, s1, e1), PlayAt(j, s2, e2), Fire(0), Fire(1)];
    var a := Step(Initial, PlayAt(i, s1, e1));
    assert a.timers == map[0 := PendingPause(i, e1 - s1)];
    var b := Step(a, PlayAt(j, s2, e2));
    assert b.timers == map[1 := PendingPause(j, e2 - s2)];
    assert Step(b, Fire(0)) == b;
    var d := Step(b, Fire(1));
    assert d.timers == map[];
    assert d.calls == [Seek(i, s1), Play(i), Seek(j, s2), Play(j), Pause(j)];
    calc {
      Run(Initial, events);
      Run(a, events[1..]);
      { assert events[1..][1..] == [Fire(0), Fire(1)]; }
      Run(b, [Fire(0), Fire(1)]);
      { assert [Fire(0), Fire(1)][1..] == [Fire(1)]; }
      Run(b, [Fire(1)]);
      { assert [Fire(1)][1..] == []; }
      Run(d, []);
    }
  }

  /** The shared mediaTimeout and the browser's timers, updated in place by the handlers. */
  class HoverController {
    var mediaTimeout: Option<nat>
    var timers: map<nat, PendingPause>
    var nextTimer: nat
    var calls: seq<SinkCall>

    function State(): PlayerState
      reads this
    {
      PlayerState(mediaTimeout, timers, nextTimer, calls)
    }

    predicate Valid()
      reads this
    {
      Consistent(State())
    }

    /** `let mediaTimeout;` at page load. */
    constructor ()
      ensures State() == Initial
      ensures Valid()
    {
      mediaTimeout := None;
      timers := map[];
      nextTimer := 0;
      calls := [];
    }

    /** playMediaAt(index, start, end) */
    method PlayMediaAt(index: nat, start: int, end: int)
      requires Valid()
      modifies this
      ensures State() == Step(old(State()), PlayAt(index, start, end))
      ensures Valid()
      ensures timers == map[old(nextTimer) := PendingPause(index, end - start)]
    {
      ghost var before := State();
      calls := calls + [Seek(index, start)];
      calls := calls + [Play(index)];
      if mediaTimeout.Some? {
        timers := timers - {mediaTimeout.value};
      }
      var id := nextTimer;
      nextTimer := nextTimer + 1;
      timers := timers[id := PendingPause(index, end - start)];
      mediaTimeout := Some(id);
      StepValid(before, PlayAt(index, start, end));
      PlayAtSchedulesOnlyItsPause(before, index, start, end);
    }

    /** stopMedia(index) */
    method StopMedia(index: nat)
      requires Valid()
      modifies this
      ensures State() == Step(old(State()), Stop(index))
      ensures Valid()
      ensures timers == map[]
    {
      ghost var before := State();
      calls := calls + [Pause(index)];
      if mediaTimeout.Some? {
        timers := timers - {mediaTimeout.value};
      }
      StepValid(before, Stop(index));
      StopClearsAll(before, index);
    }

    /** The browser runs the timer with handle id, if it is still scheduled. */
    method TimerFire(id: nat)
      requires Valid()
      modifies this
      ensures State() == Step(old(State()), Fire(id))
      ensures Valid()
    {
      ghost var before := State();
      if id in timers {
        calls := calls + [Pause(timers[id].media)];
        timers := timers - {id};
      }
      StepValid(before, Fire(id));
    }
  }
}
