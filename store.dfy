/** The configuration store: the grid mapping between tempos and rows, and
    the edits the UI makes to the shared configuration record. Reactive
    watchers are methods the caller runs after the watched fields change. */
module MetronomeStore {
  import opened Types

  /** Number of 5-bpm steps on the tempo grid, from 40 bpm upwards. */
  const Rows: int := 37

  /** `Math.round`: the nearest integer, halves rounded up. */
  function Round(x: real): (r: int)
    ensures r as real <= x + 0.5 < r as real + 1.0
  {
    (x + 0.5).Floor
  }

  /** The grid row that displays `bpm`: row 37 is 40 bpm, each row up adds 5. */
  function BpmToRow(bpm: real): int
  {
    Round(Rows as real - (bpm - 40.0) / 5.0)
  }

  /** The tempo a grid row stands for. */
  function RowToBpm(row: int): real
  {
    40.0 + ((Rows - row) * 5) as real
  }

  /** Every row is recovered from its tempo. */
  lemma RowRoundTrip(row: int)
    ensures RowToBpm(row) == 40.0 + ((37 - row) * 5) as real
    ensures BpmToRow(RowToBpm(row)) == row
  {
    var x := Rows as real - (RowToBpm(row) - 40.0) / 5.0;
    assert x == row as real;
  }

  /** Every tempo that is a multiple of 5 is recovered from its row. */
  lemma BpmRoundTrip(bpm: real, m: int)
    requires bpm == (5 * m) as real
    ensures RowToBpm(BpmToRow(bpm)) == bpm
  {
    var x := Rows as real - (bpm - 40.0) / 5.0;
    assert x == (45 - m) as real;
    assert BpmToRow(bpm) == 45 - m;
  }

  /** Any tempo is shown on the row whose tempo is nearest to it, less than
      half a step (2.5 bpm) away. */
  lemma BpmToRowNearest(bpm: real)
    ensures -2.5 <= RowToBpm(BpmToRow(bpm)) - bpm < 2.5
  {
    var x := Rows as real - (bpm - 40.0) / 5.0;
    var r := BpmToRow(bpm);
    assert RowToBpm(r) - bpm == 5.0 * (x - r as real);
  }

  /** Faster tempos sit on rows higher up the grid (smaller row numbers). */
  lemma BpmToRowAntitone(slower: real, faster: real)
    requires slower <= faster
    ensures BpmToRow(faster) <= BpmToRow(slower)
  {
  }

  /** A control point as drawn on the grid. */
  datatype GridPoint = GridPoint(col: int, row: int)

  /** The grid position of every control point, in order. */
  function GridPoints(points: seq<TempoPoint>): (r: seq<GridPoint>)
    ensures |r| == |points|
    ensures forall i :: 0 <= i < |points| ==>
      r[i].col == points[i].bar && r[i].row == BpmToRow(points[i].bpm)
  {
    seq(|points|, i requires 0 <= i < |points| => GridPoint(points[i].bar, BpmToRow(points[i].bpm)))
  }

  /** Points placed on grid rows are drawn on exactly those rows. */
  lemma GridPointsOnRows(points: seq<TempoPoint>, rows: seq<int>)
    requires |rows| == |points|
    requires forall i :: 0 <= i < |points| ==> points[i].bpm == RowToBpm(rows[i])
    ensures forall i :: 0 <= i < |points| ==>
      GridPoints(points)[i] == GridPoint(points[i].bar, rows[i])
  {
    forall i | 0 <= i < |points|
      ensures GridPoints(points)[i] == GridPoint(points[i].bar, rows[i])
    {
      RowRoundTrip(rows[i]);
    }
  }

  /** The toggle cycle high, low, mute, high. */
  function NextBeat(b: BeatType): BeatType
  {
    match b
    case High => Low
    case Low => Mute
    case Mute => High
  }

  /** Toggling always changes a beat, and three toggles bring it back. */
  lemma NextBeatCycle(b: BeatType)
    ensures NextBeat(b) != b && NextBeat(NextBeat(b)) != b
    ensures NextBeat(NextBeat(NextBeat(b))) == b
  {
  }

  /** The pattern after toggling slot `index`; an index outside the pattern
      leaves it as it is. */
  function Toggled(pattern: seq<BeatType>, index: int): (r: seq<BeatType>)
    ensures |r| == |pattern|
    ensures forall j :: 0 <= j < |pattern| && j != index ==> r[j] == pattern[j]
    ensures 0 <= index < |pattern| ==> r[index] == NextBeat(pattern[index])
  {
    if 0 <= index < |pattern| then pattern[index := NextBeat(pattern[index])] else pattern
  }

  /** Three toggles of the same slot restore the pattern. */
  lemma ToggledThrice(pattern: seq<BeatType>, index: int)
    ensures Toggled(Toggled(Toggled(pattern, index), index), index) == pattern
  {
    var r := Toggled(Toggled(Toggled(pattern, index), index), index);
    if 0 <= index < |pattern| {
      NextBeatCycle(pattern[index]);
    }
    assert forall j :: 0 <= j < |pattern| ==> r[j] == pattern[j];
  }

  /** A fresh pattern of `n` beats: accented first beat, the rest normal. */
  function DefaultPattern(n: nat): (r: seq<BeatType>)
    ensures |r| == n
    ensures n > 0 ==> r[0] == High
    ensures forall i :: 0 < i < n ==> r[i] == Low
  {
    seq(n, i => if i == 0 then High else Low)
  }

  /** `n` normal beats. */
  function Lows(n: nat): (r: seq<BeatType>)
    ensures |r| == n
    ensures forall i :: 0 <= i < n ==> r[i] == Low
  {
    seq(n, i => Low)
  }

  /** `s.slice(0, end)`: a negative end counts back from the end of `s`. */
  function SliceTo<T>(s: seq<T>, end: int): seq<T>
  {
    if end >= 0 then s[..if end <= |s| then end else |s|]
    else s[..if |s| + end >= 0 then |s| + end else 0]
  }

  /** The pattern fitted to `count` beats: padded with normal beats, or cut. */
  function Resized(pattern: seq<BeatType>, count: int): seq<BeatType>
  {
    if |pattern| < count then pattern + Lows(count - |pattern|)
    else if |pattern| > count then SliceTo(pattern, count)
    else pattern
  }

  /** Resizing to a count of beats gives exactly that many, keeps the old
      beats that still fit and adds normal beats after them. */
  lemma ResizedFits(pattern: seq<BeatType>, count: nat)
    ensures |Resized(pattern, count)| == count
    ensures forall i :: 0 <= i < count && i < |pattern| ==> Resized(pattern, count)[i] == pattern[i]
    ensures forall i :: |pattern| <= i < count ==> Resized(pattern, count)[i] == Low
  {
  }

  /** Resizing twice to the same count is resizing once, and a pattern that
      already fits is left alone. */
  lemma {:induction false} ResizedIdempotent(pattern: seq<BeatType>, count: nat)
    ensures Resized(Resized(pattern, count), count) == Resized(pattern, count)
    ensures Resized(pattern, |pattern|) == pattern
  {
    ResizedFits(pattern, count);
  }

  /** A negative count drops that many beats from the end. */
  lemma ResizedNegative(pattern: seq<BeatType>, count: int)
    requires count < 0
    ensures Resized(pattern, count) == pattern[..if |pattern| + count >= 0 then |pattern| + count else 0]
  {
  }

  /** A preset as read from the preset list or a saved configuration;
      optional fields may be absent. */
  datatype Preset = Preset(
    points: Option<seq<TempoPoint>>,
    startBpm: real, peakBpm: real, endBpm: real,
    stopAtEnd: bool, barsPerCell: int,
    beatsPerBar: Option<int>, tempoStep: Option<TempoStep>,
    beatPattern: Option<seq<BeatType>>)

  /** `p.beatsPerBar || 4`: missing or zero means 4. */
  function PresetBeatsPerBar(p: Preset): (r: int)
    ensures r != 0
    ensures p.beatsPerBar.Some? && p.beatsPerBar.value != 0 ==> r == p.beatsPerBar.value
    ensures p.beatsPerBar.None? || p.beatsPerBar.value == 0 ==> r == 4
  {
    match p.beatsPerBar
    case Some(n) => if n == 0 then 4 else n
    case None => 4
  }

  /** The values the two watchers observe. */
  datatype Watched = Watched(startBpm: real, peakBpm: real, endBpm: real, beatsPerBar: int)

  const DefaultPoints: seq<TempoPoint> := [TempoPoint(1, 100.0), TempoPoint(8, 160.0), TempoPoint(12, 130.0)]

  /** The shared configuration record and the operations on it. */
  class Store {
    var startBpm: real
    var peakBpm: real
    var endBpm: real
    var stopAtEnd: bool
    var barsPerCell: int
    var beatsPerBar: int
    var tempoStep: TempoStep
    var points: seq<TempoPoint>
    var beatPattern: seq<BeatType>

    ghost predicate Valid()
      reads this
    {
      |points| == 3
    }

    /** The three tempo fields agree with the tempos of the three points. */
    ghost predicate InSync()
      reads this
      requires Valid()
    {
      points[0].bpm == startBpm && points[1].bpm == peakBpm && points[2].bpm == endBpm
    }

    /** The configuration holds the defaults. */
    ghost predicate IsDefault()
      reads this
    {
      startBpm == 100.0 && peakBpm == 160.0 && endBpm == 130.0 &&
      !stopAtEnd && barsPerCell == 2 && beatsPerBar == 4 && tempoStep == Bar &&
      points == DefaultPoints && beatPattern == [High, Low, Low, Low]
    }

    function WatchedValues(): Watched
      reads this
    {
      Watched(startBpm, peakBpm, endBpm, beatsPerBar)
    }

    constructor ()
      ensures Valid() && IsDefault() && InSync()
    {
      startBpm := 100.0;
      peakBpm := 160.0;
      endBpm := 130.0;
      stopAtEnd := false;
      barsPerCell := 2;
      beatsPerBar := 4;
      tempoStep := Bar;
      points := DefaultPoints;
      beatPattern := [High, Low, Low, Low];
    }

    /** Replace the points and copy their tempos into the tempo fields. */
    method UpdatePoints(p: seq<TempoPoint>)
      requires Valid() && |p| == 3
      modifies this
      ensures Valid() && InSync()
      ensures points == p
      ensures startBpm == p[0].bpm && peakBpm == p[1].bpm && endBpm == p[2].bpm
      ensures stopAtEnd == old(stopAtEnd) && barsPerCell == old(barsPerCell)
      ensures beatsPerBar == old(beatsPerBar) && tempoStep == old(tempoStep)
      ensures beatPattern == old(beatPattern)
    {
      points := p;
      startBpm := p[0].bpm;
      peakBpm := p[1].bpm;
      endBpm := p[2].bpm;
    }

    /** Load a preset; an absent preset changes nothing. Returns false when
        generating a default pattern fails because the beat count is
        negative (the array constructor throws); the fields assigned before
        that point keep their new values. */
    method LoadPreset(p: Option<Preset>) returns (ok: bool)
      requires Valid()
      requires p.Some? && p.value.points.Some? ==> |p.value.points.value| == 3
      modifies this
      ensures Valid()
      ensures p.None? ==> ok && unchanged(this)
      ensures p.Some? ==>
        var q := p.value;
        points == (if q.points.Some? then q.points.value else old(points)) &&
        startBpm == q.startBpm && peakBpm == q.peakBpm && endBpm == q.endBpm &&
        stopAtEnd == q.stopAtEnd && barsPerCell == q.barsPerCell &&
        beatsPerBar == PresetBeatsPerBar(q) &&
        tempoStep == (if q.tempoStep.Some? then q.tempoStep.value else Cell) &&
        ok == (q.beatPattern.Some? || beatsPerBar >= 0) &&
        beatPattern == (if q.beatPattern.Some? then q.beatPattern.value
                        else if beatsPerBar >= 0 then DefaultPattern(beatsPerBar)
                        else old(beatPattern))
    {
      if p.None? {
        return true;
      }
      var q := p.value;
      if q.points.Some? {
        points := q.points.value;
      }
      startBpm := q.startBpm;
      peakBpm := q.peakBpm;
      endBpm := q.endBpm;
      stopAtEnd := q.stopAtEnd;
      barsPerCell := q.barsPerCell;
      beatsPerBar := PresetBeatsPerBar(q);
      tempoStep := if q.tempoStep.Some? then q.tempoStep.value else Cell;
      if q.beatPattern.Some? {
        beatPattern := q.beatPattern.value;
      } else {
        if beatsPerBar < 0 {
          return false;
        }
        beatPattern := DefaultPattern(beatsPerBar);
      }
      ok := true;
    }

    /** Move slot `index` of the pattern one step along high, low, mute. */
    method ToggleBeat(index: int)
      requires Valid()
      modifies this`beatPattern
      ensures Valid()
      ensures beatPattern == Toggled(old(beatPattern), index)
    {
      if !(0 <= index < |beatPattern|) {
        return;
      }
      var cycle := [High, Low, Mute];
      var current := beatPattern[index];
      // `cycle.indexOf(current)`; every beat type is in the cycle
      var currentIndex := if current == High then 0 else if current == Low then 1 else 2;
      var next := cycle[(currentIndex + 1) % 3];
      beatPattern := beatPattern[index := next];
    }

    /** Restore the default configuration. */
    method Reset()
      modifies this
      ensures Valid() && IsDefault() && InSync()
    {
      startBpm := 100.0;
      peakBpm := 160.0;
      endBpm := 130.0;
      stopAtEnd := false;
      barsPerCell := 2;
      beatsPerBar := 4;
      tempoStep := Bar;
      points := DefaultPoints;
      beatPattern := DefaultPattern(beatsPerBar);
      assert beatPattern == [High, Low, Low, Low];
    }

    /** Watcher on the three tempo fields: copy them into the points. */
    method SyncPoints()
      requires Valid()
      modifies this`points
      ensures Valid() && InSync()
      ensures forall i :: 0 <= i < 3 ==> points[i].bar == old(points)[i].bar
    {
      points := [points[0].(bpm := startBpm), points[1].(bpm := peakBpm), points[2].(bpm := endBpm)];
    }

    /** Watcher on the beat count: pad the pattern with normal beats up to
        the new count, then cut it down to the count. */
    method FitPattern()
      requires Valid()
      modifies this`beatPattern
      ensures Valid()
      ensures beatPattern == Resized(old(beatPattern), beatsPerBar)
    {
      var newCount := beatsPerBar;
      ghost var original := beatPattern;
      while |beatPattern| < newCount
        invariant |original| <= |beatPattern|
        invariant |original| < newCount ==> |beatPattern| <= newCount
        invariant |original| >= newCount ==> beatPattern == original
        invariant beatPattern == original + Lows(|beatPattern| - |original|)
        decreases newCount - |beatPattern|
      {
        beatPattern := beatPattern + [Low];
      }
      if |beatPattern| > newCount {
        beatPattern := SliceTo(beatPattern, newCount);
      }
    }

    /** Run the watchers whose watched values differ from `seen`, the values
        they last observed, in the order they were registered. */
    method Flush(seen: Watched)
      requires Valid()
      modifies this`points, this`beatPattern
      ensures Valid()
      ensures (startBpm, peakBpm, endBpm) != (seen.startBpm, seen.peakBpm, seen.endBpm) ==> InSync()
      ensures (startBpm, peakBpm, endBpm) == (seen.startBpm, seen.peakBpm, seen.endBpm) ==> points == old(points)
      ensures forall i :: 0 <= i < 3 ==> points[i].bar == old(points)[i].bar
      ensures beatPattern == if beatsPerBar != seen.beatsPerBar then Resized(old(beatPattern), beatsPerBar)
                             else old(beatPattern)
    {
      if (startBpm, peakBpm, endBpm) != (seen.startBpm, seen.peakBpm, seen.endBpm) {
        SyncPoints();
      }
      if beatsPerBar != seen.beatsPerBar {
        FitPattern();
      }
    }
  }
}
