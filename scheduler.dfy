/** The look-ahead beat scheduler of the engine: one beat is a step of a small
    state machine over the scheduling cursor, and one timer tick drains the
    schedule-ahead window by taking such steps. */
module Scheduler {
  import opened Types
  import opened TempoCurve

  /** How far ahead of the audio clock beats are committed, in seconds. */
  const ScheduleAheadTime: real := 0.1

  /** The two click samples: the accented one and the normal one. */
  datatype Buffer = HiBuf | LoBuf

  /** One scheduled click: a sample started at a time of the audio clock. */
  datatype ClickEvent = ClickEvent(time: real, buffer: Buffer)

  /** The transport state one beat reads and writes. */
  datatype Cursor = Cursor(nextBeatTime: real, beatInBar: int, currentBar: int, visualBar: int)

  /** The time from one beat to the next at `bpm`: half of 60 / bpm. */
  function BeatDuration(bpm: real): (d: real)
    requires bpm > 0.0
    ensures d > 0.0
    ensures d * bpm == 30.0
  {
    60.0 / bpm / 2.0
  }

  /** The click scheduled for the beat at cursor `c`. */
  function Event(c: Cursor): (e: ClickEvent)
    ensures e.time == c.nextBeatTime
    ensures e.buffer == HiBuf <==> c.beatInBar == 0
  {
    ClickEvent(c.nextBeatTime, if c.beatInBar == 0 then HiBuf else LoBuf)
  }

  /** The cursor after the beat at `c`: time moves on by one beat at the bar's
      tempo, the beat advances and rolls over into the next bar after beat 3,
      and the first beat of a bar makes that bar the visual one. */
  function Step(c: Cursor, pts: seq<TempoPoint>): Cursor
    requires |pts| >= 3 && BpmAtBar(c.currentBar, pts) > 0.0
  {
    var beat := c.beatInBar + 1;
    Cursor(c.nextBeatTime + BeatDuration(BpmAtBar(c.currentBar, pts)),
           if beat > 3 then 0 else beat,
           if beat > 3 then c.currentBar + 1 else c.currentBar,
           if c.beatInBar == 0 then c.currentBar else c.visualBar)
  }

  /** The next `n` beats from `c` all fall in bars of positive tempo. */
  predicate PositiveRun(c: Cursor, n: nat, pts: seq<TempoPoint>)
    requires |pts| >= 3
    decreases n
  {
    n == 0 || (BpmAtBar(c.currentBar, pts) > 0.0 && PositiveRun(Step(c, pts), n - 1, pts))
  }

  /** The cursor after `n` beats from `c`. */
  function AdvanceN(c: Cursor, n: nat, pts: seq<TempoPoint>): Cursor
    requires |pts| >= 3 && PositiveRun(c, n, pts)
    decreases n
  {
    if n == 0 then c else AdvanceN(Step(c, pts), n - 1, pts)
  }

  /** The clicks of the next `n` beats from `c`, in order. */
  function Beats(c: Cursor, n: nat, pts: seq<TempoPoint>): (r: seq<ClickEvent>)
    requires |pts| >= 3 && PositiveRun(c, n, pts)
    ensures |r| == n
    decreases n
  {
    if n == 0 then [] else [Event(c)] + Beats(Step(c, pts), n - 1, pts)
  }

  /** One beat keeps the beat in 0..3, moves to the next bar exactly when
      beat 3 rolls over to 0, moves time strictly forward, and changes the
      visual bar only on beat 0, to the current bar. */
  lemma StepFacts(c: Cursor, pts: seq<TempoPoint>)
    requires |pts| >= 3 && BpmAtBar(c.currentBar, pts) > 0.0
    requires 0 <= c.beatInBar <= 3
    ensures var s := Step(c, pts);
      0 <= s.beatInBar <= 3 &&
      s.beatInBar == (c.beatInBar + 1) % 4 &&
      (s.currentBar == c.currentBar + 1 <==> c.beatInBar == 3 && s.beatInBar == 0) &&
      (s.currentBar == c.currentBar || s.currentBar == c.currentBar + 1) &&
      s.nextBeatTime > c.nextBeatTime &&
      (s.visualBar != c.visualBar ==> c.beatInBar == 0 && s.visualBar == c.currentBar)
  {
  }

  /** A run of n beats is also a run of any shorter number of beats. */
  lemma {:induction false} PositiveRunPrefix(c: Cursor, n: nat, k: nat, pts: seq<TempoPoint>)
    requires |pts| >= 3 && PositiveRun(c, n, pts) && k <= n
    ensures PositiveRun(c, k, pts)
    decreases k
  {
    if k > 0 {
      PositiveRunPrefix(Step(c, pts), n - 1, k - 1, pts);
    }
  }

  /** Extending a run by the beat at its end. */
  lemma {:induction false} PositiveRunSnoc(c: Cursor, n: nat, pts: seq<TempoPoint>)
    requires |pts| >= 3 && PositiveRun(c, n, pts)
    requires BpmAtBar(AdvanceN(c, n, pts).currentBar, pts) > 0.0
    ensures PositiveRun(c, n + 1, pts)
    ensures AdvanceN(c, n + 1, pts) == Step(AdvanceN(c, n, pts), pts)
    ensures Beats(c, n + 1, pts) == Beats(c, n, pts) + [Event(AdvanceN(c, n, pts))]
    decreases n
  {
    if n > 0 {
      PositiveRunSnoc(Step(c, pts), n - 1, pts);
    }
  }

  /** After n beats from c the beat is (beat + n) mod 4 and the bar has moved
      on by (beat + n) div 4; the visual bar is the bar of the last beat 0
      among those n beats, or unchanged if there was none. */
  lemma {:induction false} AdvanceClosedForm(c: Cursor, n: nat, pts: seq<TempoPoint>)
    requires |pts| >= 3 && PositiveRun(c, n, pts)
    requires 0 <= c.beatInBar <= 3
    ensures AdvanceN(c, n, pts).beatInBar == (c.beatInBar + n) % 4
    ensures AdvanceN(c, n, pts).currentBar == c.currentBar + (c.beatInBar + n) / 4
    ensures AdvanceN(c, n, pts).visualBar ==
      if n > 0 && (c.beatInBar == 0 || c.beatInBar + n > 4)
      then c.currentBar + (c.beatInBar + n - 1) / 4
      else c.visualBar
    ensures n > 0 ==> AdvanceN(c, n, pts).nextBeatTime > c.nextBeatTime
    decreases n
  {
    if n > 0 {
      var s := Step(c, pts);
      StepFacts(c, pts);
      AdvanceClosedForm(s, n - 1, pts);
      if c.beatInBar == 3 {
        assert s.currentBar == c.currentBar + 1 && s.beatInBar == 0;
      } else {
        assert s.currentBar == c.currentBar && s.beatInBar == c.beatInBar + 1;
      }
    }
  }

  /** The k-th click of a run is the click of the cursor after k beats, and
      that cursor is at a bar of positive tempo. */
  lemma {:induction false} BeatsAt(c: Cursor, n: nat, k: nat, pts: seq<TempoPoint>)
    requires |pts| >= 3 && PositiveRun(c, n, pts) && k < n
    ensures PositiveRun(c, k, pts) && PositiveRun(c, k + 1, pts)
    ensures BpmAtBar(AdvanceN(c, k, pts).currentBar, pts) > 0.0
    ensures AdvanceN(c, k + 1, pts) == Step(AdvanceN(c, k, pts), pts)
    ensures Beats(c, n, pts)[k] == Event(AdvanceN(c, k, pts))
    decreases k
  {
    PositiveRunPrefix(c, n, k, pts);
    PositiveRunPrefix(c, n, k + 1, pts);
    if k > 0 {
      BeatsAt(Step(c, pts), n - 1, k - 1, pts);
    }
  }

  /** The k-th click of a run uses the accented sample exactly when it falls
      on beat 0 of its bar. With beat 0 every fourth beat, the accent comes
      once per bar. */
  lemma BeatsAccent(c: Cursor, n: nat, k: nat, pts: seq<TempoPoint>)
    requires |pts| >= 3 && PositiveRun(c, n, pts) && k < n
    requires 0 <= c.beatInBar <= 3
    ensures Beats(c, n, pts)[k].buffer == HiBuf <==> (c.beatInBar + k) % 4 == 0
  {
    BeatsAt(c, n, k, pts);
    AdvanceClosedForm(c, k, pts);
  }

  /** Consecutive clicks of a run are exactly one beat of the current bar's
      tempo apart, so their times strictly increase. */
  lemma BeatsSpacing(c: Cursor, n: nat, k: nat, pts: seq<TempoPoint>)
    requires |pts| >= 3 && PositiveRun(c, n, pts) && k + 1 < n
    requires 0 <= c.beatInBar <= 3
    ensures BpmAtBar(c.currentBar + (c.beatInBar + k) / 4, pts) > 0.0
    ensures Beats(c, n, pts)[k + 1].time ==
      Beats(c, n, pts)[k].time + BeatDuration(BpmAtBar(c.currentBar + (c.beatInBar + k) / 4, pts))
    ensures Beats(c, n, pts)[k].time < Beats(c, n, pts)[k + 1].time
  {
    BeatsAt(c, n, k, pts);
    BeatsAt(c, n, k + 1, pts);
    AdvanceClosedForm(c, k, pts);
  }

  /** With a curve that is playable forever, every number of beats from a
      cursor at a bar from 0 on is a positive run. */
  lemma {:induction false} PlayableRun(c: Cursor, n: nat, pts: seq<TempoPoint>)
    requires |pts| >= 3 && Playable(pts, true)
    requires 0 <= c.currentBar
    ensures PositiveRun(c, n, pts)
    decreases n
  {
    if n > 0 {
      PlayableRun(Step(c, pts), n - 1, pts);
    }
  }

  function Buffers(events: seq<ClickEvent>): (r: seq<Buffer>)
    ensures |r| == |events|
    ensures forall k :: 0 <= k < |events| ==> r[k] == events[k].buffer
  {
    seq(|events|, k requires 0 <= k < |events| => events[k].buffer)
  }

  /** Two bars from the start of a run give the accent pattern
      high, low, low, low, high, low, low, low. */
  lemma TwoBarAccents(t: real, pts: seq<TempoPoint>)
    requires |pts| >= 3 && PositiveRun(Cursor(t, 0, 0, 0), 8, pts)
    ensures Buffers(Beats(Cursor(t, 0, 0, 0), 8, pts)) ==
      [HiBuf, LoBuf, LoBuf, LoBuf, HiBuf, LoBuf, LoBuf, LoBuf]
  {
    var c := Cursor(t, 0, 0, 0);
    BeatsAccent(c, 8, 0, pts);
    BeatsAccent(c, 8, 1, pts);
    BeatsAccent(c, 8, 2, pts);
    BeatsAccent(c, 8, 3, pts);
    BeatsAccent(c, 8, 4, pts);
    BeatsAccent(c, 8, 5, pts);
    BeatsAccent(c, 8, 6, pts);
    BeatsAccent(c, 8, 7, pts);
  }

  /** The last bar at or after which the curve is flat at C's tempo. */
  function TailBar(pts: seq<TempoPoint>): int
    requires |pts| >= 3
  {
    if pts[1].bar <= pts[2].bar then pts[2].bar else pts[1].bar
  }

  /** Beats left before the cursor passes the tail bar. */
  function BeatsBeforeTail(c: Cursor, pts: seq<TempoPoint>): int
    requires |pts| >= 3
  {
    if c.currentBar <= TailBar(pts) then (TailBar(pts) + 1 - c.currentBar) * 4 - c.beatInBar else 0
  }

  /** Beats of C's tempo that still fit before the end of the window. */
  function TailBeatsLeft(c: Cursor, pts: seq<TempoPoint>, horizon: real): real
    requires |pts| >= 3
  {
    if pts[2].bpm > 0.0 then (horizon - c.nextBeatTime) / BeatDuration(pts[2].bpm) else 0.0
  }

  lemma TailBeatsLeftDecreases(c: Cursor, pts: seq<TempoPoint>, horizon: real)
    requires |pts| >= 3 && pts[2].bpm > 0.0 && TailBar(pts) < c.currentBar
    requires c.nextBeatTime < horizon
    ensures TailBeatsLeft(c, pts, horizon) >= 0.0
    ensures TailBeatsLeft(Step(c, pts), pts, horizon) == TailBeatsLeft(c, pts, horizon) - 1.0
  {
    var d := BeatDuration(pts[2].bpm);
    var x := horizon - c.nextBeatTime;
    assert BpmAtBar(c.currentBar, pts) == pts[2].bpm;
    assert (x - d) / d == x / d - 1.0;
  }

  /** Every click in `events`, the run from `c0`, starts before `horizon`,
      and unless the run loops forever its bar, the k-th beat's bar
      `c0.currentBar + (c0.beatInBar + k) / 4`, is at most `lastBar`. */
  ghost predicate InWindow(c0: Cursor, events: seq<ClickEvent>, horizon: real, lastBar: int, loop: bool)
  {
    forall k :: 0 <= k < |events| ==>
      events[k].time < horizon && (loop || c0.currentBar + (c0.beatInBar + k) / 4 <= lastBar)
  }

  /** The engine: its observable transport state and the scheduling state
      that the interval timer installed by the last start works on. */
  class Engine {
    var isRunning: bool
    var currentBar: int
    var visualBar: int
    /** The points and loop flag given to the last start. */
    var points: seq<TempoPoint>
    var infinite: bool
    var nextBeatTime: real
    var beatInBar: int
    /** Whether the interval timer of the last start is still installed. */
    var timerActive: bool

    ghost predicate Valid()
      reads this
    {
      0 <= beatInBar <= 3 && 0 <= currentBar && visualBar <= currentBar &&
      (timerActive ==> |points| == 3 && Playable(points, infinite))
    }

    function Position(): Cursor
      reads this
    {
      Cursor(nextBeatTime, beatInBar, currentBar, visualBar)
    }

    constructor ()
      ensures Valid()
      ensures !isRunning && !timerActive && currentBar == 0 && visualBar == 0
    {
      isRunning := false;
      currentBar := 0;
      visualBar := 0;
      points := [];
      infinite := false;
      nextBeatTime := 0.0;
      beatInBar := 0;
      timerActive := false;
    }

    /** Start playing `pts` from bar 0 at audio time `now`. When the samples
        could not be loaded nothing happens. */
    method Start(pts: seq<TempoPoint>, loop: bool, now: real, samplesLoaded: bool)
      requires Valid()
      requires |pts| == 3 && Playable(pts, loop)
      modifies this
      ensures Valid()
      ensures !samplesLoaded ==> unchanged(this)
      ensures samplesLoaded ==>
        isRunning && timerActive && currentBar == 0 && visualBar == 0 &&
        beatInBar == 0 && nextBeatTime == now && points == pts && infinite == loop
    {
      if !samplesLoaded {
        return;
      }
      isRunning := true;
      currentBar := 0;
      visualBar := 0;
      points := pts;
      infinite := loop;
      nextBeatTime := now;
      beatInBar := 0;
      timerActive := true;
    }

    /** Stop scheduling; the timer notices at its next tick. */
    method Stop()
      requires Valid()
      modifies this`isRunning
      ensures Valid() && !isRunning
    {
      isRunning := false;
    }

    /** Schedule the beat at the cursor and advance the cursor by one beat
        (the body of the scheduling loop, after its end-of-run check). */
    method ScheduleBeat() returns (event: ClickEvent)
      requires Valid() && timerActive
      requires infinite || currentBar <= points[2].bar
      modifies this`nextBeatTime, this`beatInBar, this`currentBar, this`visualBar
      ensures Valid()
      ensures BpmAtBar(old(currentBar), points) > 0.0
      ensures event == Event(old(Position()))
      ensures Position() == Step(old(Position()), points)
    {
      var bpm := BpmAtBar(currentBar, points);
      var secondsPerBeat := 60.0 / bpm / 2.0;
      event := ClickEvent(nextBeatTime, if beatInBar == 0 then HiBuf else LoBuf);
      if beatInBar == 0 {
        visualBar := currentBar;
      }
      nextBeatTime := nextBeatTime + secondsPerBeat;
      beatInBar := beatInBar + 1;
      if beatInBar > 3 {
        beatInBar := 0;
        currentBar := currentBar + 1;
      }
    }

    /** Drained(c0, events, now): since the cursor was at `c0`, the clicks
        `events` were scheduled, one per beat, all inside the window ending at
        `now + ScheduleAheadTime` and, unless looping, in bars up to C's; then
        either the window was full or the run passed C's bar and stopped. */
    ghost predicate Drained(c0: Cursor, events: seq<ClickEvent>, now: real)
      reads this
      requires Valid() && |points| == 3
    {
      PositiveRun(c0, |events|, points) &&
      events == Beats(c0, |events|, points) &&
      Position() == AdvanceN(c0, |events|, points) &&
      beatInBar == (c0.beatInBar + |events|) % 4 &&
      currentBar == c0.currentBar + (c0.beatInBar + |events|) / 4 &&
      InWindow(c0, events, now + ScheduleAheadTime, points[2].bar, infinite) &&
      timerActive == isRunning &&
      (isRunning ==> nextBeatTime >= now + ScheduleAheadTime) &&
      (!isRunning ==> !infinite && currentBar > points[2].bar && nextBeatTime < now + ScheduleAheadTime)
    }

    /** The scheduling loop of one tick: schedule beats while the next one
        falls inside the window, stopping once the run passes C's bar. */
    method Drain(now: real) returns (events: seq<ClickEvent>)
      requires Valid() && timerActive && isRunning
      modifies this
      ensures Valid() && points == old(points) && infinite == old(infinite)
      ensures Drained(old(Position()), events, now)
    {
      events := [];
      ghost var c0 := Position();
      while nextBeatTime < now + ScheduleAheadTime
        invariant Valid() && timerActive && isRunning
        invariant points == old(points) && infinite == old(infinite)
        invariant PositiveRun(c0, |events|, points)
        invariant Position() == AdvanceN(c0, |events|, points)
        invariant events == Beats(c0, |events|, points)
        invariant InWindow(c0, events, now + ScheduleAheadTime, points[2].bar, infinite)
        decreases BeatsBeforeTail(Position(), points), TailBeatsLeft(Position(), points, now + ScheduleAheadTime)
      {
        AdvanceClosedForm(c0, |events|, points);
        if !infinite && currentBar > points[2].bar {
          isRunning := false;
          timerActive := false;
          return;
        }
        ghost var before := Position();
        PositiveRunSnoc(c0, |events|, points);
        var event := ScheduleBeat();
        events := events + [event];
        if TailBar(points) < before.currentBar {
          TailBeatsLeftDecreases(before, points, now + ScheduleAheadTime);
        }
      }
      AdvanceClosedForm(c0, |events|, points);
    }

    /** One firing of the interval timer at audio time `now`: returns the
        clicks it schedules, in order. A timer that finds the engine stopped
        uninstalls itself and schedules nothing. */
    method Tick(now: real) returns (events: seq<ClickEvent>)
      requires Valid()
      modifies this
      ensures Valid()
      ensures points == old(points) && infinite == old(infinite)
      ensures !old(timerActive) ==> events == [] && unchanged(this)
      ensures old(timerActive) && !old(isRunning) ==>
        events == [] && !timerActive && !isRunning && Position() == old(Position())
      ensures old(timerActive) && old(isRunning) ==> Drained(old(Position()), events, now)
    {
      events := [];
      if !timerActive {
        return;
      }
      if !isRunning {
        timerActive := false;
        return;
      }
      events := Drain(now);
    }
  }
}
