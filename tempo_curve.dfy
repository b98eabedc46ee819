/** The tempo curve of the engine: a piecewise-linear function through three
    control points, and the per-bar table built from it. */
module TempoCurve {
  import opened Types

  /** The divisor of the segment from bar `lo` to bar `hi`: its width, or 1
      when the width is 0, so that a zero-width segment never divides by 0. */
  function SegmentWidth(lo: int, hi: int): (w: int)
    ensures w != 0
    ensures hi - lo != 0 ==> w == hi - lo
    ensures hi - lo == 0 ==> w == 1
  {
    if hi - lo == 0 then 1 else hi - lo
  }

  /** The tempo at `bar` on the line that starts at `p` and heads for `q`. */
  function Interpolate(p: TempoPoint, q: TempoPoint, bar: int): real
  {
    var t := (bar - p.bar) as real / SegmentWidth(p.bar, q.bar) as real;
    p.bpm + t * (q.bpm - p.bpm)
  }

  /** The rate at which `Interpolate(p, q, _)` changes per bar. */
  function Slope(p: TempoPoint, q: TempoPoint): real
  {
    (q.bpm - p.bpm) / SegmentWidth(p.bar, q.bar) as real
  }

  /** The tempo at `bar` for the control points `pts[0]`, `pts[1]`, `pts[2]`
      (points A, B and C). Bars up to B lie on the A-B line, which is also
      extrapolated below A; bars up to C lie on the B-C line; the curve is
      flat at C's tempo after C. */
  function BpmAtBar(bar: int, pts: seq<TempoPoint>): real
    requires |pts| >= 3
  {
    var a, b, c := pts[0], pts[1], pts[2];
    if bar <= b.bar then Interpolate(a, b, bar)
    else if bar <= c.bar then Interpolate(b, c, bar)
    else c.bpm
  }

  function Min(x: real, y: real): real { if x <= y then x else y }
  function Max(x: real, y: real): real { if x <= y then y else x }

  /** Interpolation is exact at its end points when the segment has width. */
  lemma InterpolateEnds(p: TempoPoint, q: TempoPoint)
    ensures Interpolate(p, q, p.bar) == p.bpm
    ensures p.bar != q.bar ==> Interpolate(p, q, q.bar) == q.bpm
  {
    if p.bar != q.bar {
      var w := (q.bar - p.bar) as real;
      assert w != 0.0;
      assert (q.bar - p.bar) as real / w == 1.0;
    }
  }

  /** Along a segment line the tempo moves by the slope times the distance. */
  lemma InterpolateLinear(p: TempoPoint, q: TempoPoint, x: int, y: int)
    ensures Interpolate(p, q, y) - Interpolate(p, q, x) == (y - x) as real * Slope(p, q)
  {
    var w := SegmentWidth(p.bar, q.bar) as real;
    var d := q.bpm - p.bpm;
    assert ((y - p.bar) as real / w) * d == (y - p.bar) as real * (d / w);
    assert ((x - p.bar) as real / w) * d == (x - p.bar) as real * (d / w);
  }

  /** A segment line is monotone: rising everywhere when q is above p, and
      falling everywhere when q is below p. */
  lemma {:induction false} InterpolateMonotone(p: TempoPoint, q: TempoPoint, x: int, y: int)
    requires x <= y
    ensures p.bar <= q.bar && p.bpm <= q.bpm ==> Interpolate(p, q, x) <= Interpolate(p, q, y)
    ensures p.bar <= q.bar && p.bpm >= q.bpm ==> Interpolate(p, q, x) >= Interpolate(p, q, y)
  {
    InterpolateLinear(p, q, x, y);
    var w := SegmentWidth(p.bar, q.bar) as real;
    var s := Slope(p, q);
    var dx := (y - x) as real;
    if p.bar <= q.bar {
      assert w > 0.0;
      if p.bpm <= q.bpm {
        assert s >= 0.0;
        assert dx * s >= 0.0;
      }
      if p.bpm >= q.bpm {
        assert s <= 0.0;
        assert dx * s <= 0.0;
      }
    }
  }

  /** A bar between two others takes a tempo between theirs on a line. */
  lemma InterpolateBetween(p: TempoPoint, q: TempoPoint, x: int, y: int, z: int)
    requires p.bar <= q.bar
    requires x <= y <= z
    ensures Min(Interpolate(p, q, x), Interpolate(p, q, z)) <= Interpolate(p, q, y)
    ensures Interpolate(p, q, y) <= Max(Interpolate(p, q, x), Interpolate(p, q, z))
  {
    InterpolateMonotone(p, q, x, y);
    InterpolateMonotone(p, q, y, z);
  }

  /** Point A is hit exactly whenever A does not lie after B; with a
      zero-width A-B segment the divisor is 1 and `t` is still 0. */
  lemma BpmAtFirstPoint(pts: seq<TempoPoint>)
    requires |pts| >= 3 && pts[0].bar <= pts[1].bar
    ensures BpmAtBar(pts[0].bar, pts) == pts[0].bpm
  {
    InterpolateEnds(pts[0], pts[1]);
  }

  /** On a rising or falling A-B segment of positive width: B is hit exactly,
      every bar in between takes a tempo between A's and B's, and the tempo
      is monotone in the bar. */
  lemma {:induction false} RampFirstSegment(pts: seq<TempoPoint>, x: int, y: int)
    requires |pts| >= 3 && pts[0].bar < pts[1].bar
    requires pts[0].bar <= x <= y <= pts[1].bar
    ensures BpmAtBar(pts[1].bar, pts) == pts[1].bpm
    ensures Min(pts[0].bpm, pts[1].bpm) <= BpmAtBar(x, pts) <= Max(pts[0].bpm, pts[1].bpm)
    ensures pts[0].bpm <= pts[1].bpm ==> BpmAtBar(x, pts) <= BpmAtBar(y, pts)
    ensures pts[0].bpm >= pts[1].bpm ==> BpmAtBar(x, pts) >= BpmAtBar(y, pts)
  {
    var a, b := pts[0], pts[1];
    InterpolateEnds(a, b);
    InterpolateBetween(a, b, a.bar, x, b.bar);
    InterpolateMonotone(a, b, x, y);
  }

  /** On a B-C segment of positive width: C is hit exactly, every bar after
      B up to C takes a tempo between B's and C's, and the tempo is monotone. */
  lemma {:induction false} RampSecondSegment(pts: seq<TempoPoint>, x: int, y: int)
    requires |pts| >= 3 && pts[1].bar < pts[2].bar
    requires pts[1].bar < x <= y <= pts[2].bar
    ensures BpmAtBar(pts[2].bar, pts) == pts[2].bpm
    ensures Min(pts[1].bpm, pts[2].bpm) <= BpmAtBar(x, pts) <= Max(pts[1].bpm, pts[2].bpm)
    ensures pts[1].bpm <= pts[2].bpm ==> BpmAtBar(x, pts) <= BpmAtBar(y, pts)
    ensures pts[1].bpm >= pts[2].bpm ==> BpmAtBar(x, pts) >= BpmAtBar(y, pts)
  {
    var b, c := pts[1], pts[2];
    InterpolateEnds(b, c);
    InterpolateBetween(b, c, b.bar, x, c.bar);
    InterpolateMonotone(b, c, x, y);
  }

  /** After the last point (and after B) the curve is flat at C's tempo. */
  lemma FlatTail(pts: seq<TempoPoint>, bar: int)
    requires |pts| >= 3 && pts[1].bar <= pts[2].bar < bar
    ensures BpmAtBar(bar, pts) == pts[2].bpm
  {
  }

  /** There is no flat head: below A the A-B line is extrapolated, so the
      tempo there lies below A's when the ramp rises and above it when the
      ramp falls. */
  lemma {:induction false} ExtrapolatedHead(pts: seq<TempoPoint>, bar: int)
    requires |pts| >= 3 && bar < pts[0].bar <= pts[1].bar
    ensures pts[0].bpm < pts[1].bpm ==> BpmAtBar(bar, pts) < pts[0].bpm
    ensures pts[0].bpm > pts[1].bpm ==> BpmAtBar(bar, pts) > pts[0].bpm
  {
    var a, b := pts[0], pts[1];
    InterpolateEnds(a, b);
    InterpolateLinear(a, b, a.bar, bar);
    var w := SegmentWidth(a.bar, b.bar) as real;
    assert w > 0.0;
    var dx := (bar - a.bar) as real;
    assert dx < 0.0;
    if a.bpm < b.bpm {
      assert Slope(a, b) > 0.0;
      assert dx * Slope(a, b) < 0.0;
    }
    if a.bpm > b.bpm {
      assert Slope(a, b) < 0.0;
      assert dx * Slope(a, b) > 0.0;
    }
  }

  /** A zero-width A-B segment: the shared bar takes A's tempo (the divisor
      is 1, so nothing divides by 0), and the tempo right after it is on the
      B-C line, so the curve jumps there. */
  lemma ZeroWidthFirstSegment(pts: seq<TempoPoint>)
    requires |pts| >= 3 && pts[0].bar == pts[1].bar < pts[2].bar
    ensures BpmAtBar(pts[1].bar, pts) == pts[0].bpm
    ensures BpmAtBar(pts[1].bar + 1, pts) == Interpolate(pts[1], pts[2], pts[1].bar + 1)
  {
  }

  /** A zero-width B-C segment: C's tempo is reached only after the shared bar,
      where the flat tail begins. */
  lemma ZeroWidthSecondSegment(pts: seq<TempoPoint>)
    requires |pts| >= 3 && pts[0].bar < pts[1].bar == pts[2].bar
    ensures BpmAtBar(pts[2].bar, pts) == pts[1].bpm
    ensures BpmAtBar(pts[2].bar + 1, pts) == pts[2].bpm
  {
    InterpolateEnds(pts[0], pts[1]);
  }

  /** The tempo is positive at every bar from 0 that the engine can schedule:
      up to C's bar, or everywhere when it loops forever. */
  ghost predicate Playable(pts: seq<TempoPoint>, infinite: bool)
    requires |pts| >= 3
  {
    forall bar :: 0 <= bar && (infinite || bar <= pts[2].bar) ==> BpmAtBar(bar, pts) > 0.0
  }

  /** Ordered points with positive tempos give a playable curve as soon as
      the tempo at bar 0 (which may be extrapolated below A) is positive. */
  lemma {:induction false} PlayableWhenPositive(pts: seq<TempoPoint>, infinite: bool)
    requires |pts| >= 3 && pts[0].bar <= pts[1].bar <= pts[2].bar
    requires pts[0].bpm > 0.0 && pts[1].bpm > 0.0 && pts[2].bpm > 0.0
    requires BpmAtBar(0, pts) > 0.0
    ensures Playable(pts, infinite)
  {
    var a, b, c := pts[0], pts[1], pts[2];
    InterpolateEnds(a, b);
    InterpolateEnds(b, c);
    forall bar | 0 <= bar && (infinite || bar <= c.bar)
      ensures BpmAtBar(bar, pts) > 0.0
    {
      if bar <= b.bar {
        if bar < a.bar {
          InterpolateBetween(a, b, 0, bar, a.bar);
        } else if a.bar < b.bar {
          InterpolateBetween(a, b, a.bar, bar, b.bar);
        }
      } else if bar <= c.bar {
        InterpolateBetween(b, c, b.bar, bar, c.bar);
      }
    }
  }

  /** The table of tempos per bar for bars 0 up to C's bar; empty when fewer
      than three points are given. */
  method BuildTempoMap(pts: seq<TempoPoint>) returns (out: seq<real>)
    ensures |pts| < 3 ==> out == []
    ensures |pts| >= 3 ==> |out| == (if pts[2].bar >= 0 then pts[2].bar + 1 else 0)
    ensures |pts| >= 3 ==> forall i :: 0 <= i < |out| ==> out[i] == BpmAtBar(i, pts)
  {
    if |pts| < 3 {
      return [];
    }
    var last := pts[2].bar;
    out := [];
    var i := 0;
    while i <= last
      invariant 0 <= i <= (if last >= 0 then last + 1 else 0)
      invariant |out| == i
      invariant forall j :: 0 <= j < i ==> out[j] == BpmAtBar(j, pts)
    {
      out := out + [BpmAtBar(i, pts)];
      i := i + 1;
    }
  }

  /** The curve of the three-point example: A = (0, 100), B = (8, 160),
      C = (12, 130). */
  lemma ExampleCurve()
    ensures var pts := [TempoPoint(0, 100.0), TempoPoint(8, 160.0), TempoPoint(12, 130.0)];
            BpmAtBar(4, pts) == 130.0 && BpmAtBar(10, pts) == 145.0 &&
            BpmAtBar(12, pts) == 130.0 && BpmAtBar(20, pts) == 130.0
  {
  }

  /** The store's default points A = (1, 100), B = (8, 160), C = (12, 130):
      bar 0 lies below A and is extrapolated to 640/7 bpm, not 100; the
      curve is still playable. */
  lemma DefaultCurve(infinite: bool)
    ensures var pts := [TempoPoint(1, 100.0), TempoPoint(8, 160.0), TempoPoint(12, 130.0)];
            BpmAtBar(0, pts) == 640.0 / 7.0 && Playable(pts, infinite)
  {
    var pts := [TempoPoint(1, 100.0), TempoPoint(8, 160.0), TempoPoint(12, 130.0)];
    assert BpmAtBar(0, pts) == 640.0 / 7.0;
    PlayableWhenPositive(pts, infinite);
  }
}
