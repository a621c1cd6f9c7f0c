/** The pointer trail: two shift-register histories of recent pointer
    coordinates, and a rope of curve points recomputed from them every tick
    by cubic Hermite interpolation. */
module Trail {
  import opened Options

  /** Number of remembered pointer samples per axis. */
  const HistorySize: nat := 20
  /** Number of curve points handed to the renderer. */
  const RopeSize: nat := 100

  datatype Point = Point(x: real, y: real)

  function Min(a: int, b: int): int { if a < b then a else b }
  function Max(a: int, b: int): int { if a < b then b else a }

  /** Index i forced into [0, n - 1]. */
  function Clamp(i: int, n: int): (r: int)
    requires 0 < n
    ensures 0 <= r < n
    ensures 0 <= i < n ==> r == i
    ensures i < 0 ==> r == 0
    ensures n <= i ==> r == n - 1
  {
    if i < 0 then 0 else if n <= i then n - 1 else i
  }

  /** All entries of a are equal. */
  predicate Constant(a: seq<real>) {
    forall i, j :: 0 <= i < |a| && 0 <= j < |a| ==> a[i] == a[j]
  }

  /** The history after one tick: the oldest sample is dropped from the end
      and the newest is put in front. */
  function Shifted(h: seq<real>, x: real): (r: seq<real>)
    requires 0 < |h|
    ensures |r| == |h| && r[0] == x
    ensures forall i :: 0 <= i < |h| - 1 ==> r[i + 1] == h[i]
  {
    [x] + h[..|h| - 1]
  }

  /** The history after n ticks during which the pointer stayed at x. */
  function ShiftedN(h: seq<real>, x: real, n: nat): (r: seq<real>)
    requires 0 < |h|
    ensures |r| == |h|
    decreases n
  {
    if n == 0 then h else Shifted(ShiftedN(h, x, n - 1), x)
  }

  /** After n ticks at rest the n most recent samples are the resting coordinate. */
  lemma {:induction false} ShiftedNFills(h: seq<real>, x: real, n: nat)
    requires 0 < |h|
    ensures forall j :: 0 <= j < n && j < |h| ==> ShiftedN(h, x, n)[j] == x
  {
    if n > 0 {
      ShiftedNFills(h, x, n - 1);
      var prev := ShiftedN(h, x, n - 1);
      forall j | 0 <= j < n && j < |h|
        ensures ShiftedN(h, x, n)[j] == x
      {
        if j > 0 {
          assert ShiftedN(h, x, n)[j] == prev[j - 1];
        }
      }
    }
  }

  /** Centred-difference tangent at history index k; both neighbour indices
      are clamped into the history. */
  function Tangent(a: seq<real>, k: int): (m: real)
    requires 0 < |a| && 0 <= k <= |a|
    ensures m == (a[Clamp(k + 1, |a|)] - a[Clamp(k - 1, |a|)]) * 0.5
    ensures 0 < k < |a| - 1 ==> m == (a[k + 1] - a[k - 1]) * 0.5
    ensures Constant(a) ==> m == 0.0
  {
    (a[Min(k + 1, |a| - 1)] - a[Max(k - 1, 0)]) * 0.5
  }

  /** The cubic Hermite segment from p0 (tangent m0) to p1 (tangent m1), at
      local parameter u. */
  function Hermite(p0: real, p1: real, m0: real, m1: real, u: real): (r: real)
    ensures u == 0.0 ==> r == p0
    ensures u == 1.0 ==> r == p1
  {
    var u2 := u * u;
    var u3 := u * u2;
    (2.0 * u3 - 3.0 * u2 + 1.0) * p0
      + (u3 - 2.0 * u2 + u) * m0
      + (-2.0 * u3 + 3.0 * u2) * p1
      + (u3 - u2) * m1
  }

  /** The derivative of Hermite with respect to u (the basis polynomials
      differentiated term by term). */
  function HermiteSlope(p0: real, p1: real, m0: real, m1: real, u: real): real {
    (6.0 * u * u - 6.0 * u) * p0
      + (3.0 * u * u - 4.0 * u + 1.0) * m0
      + (-6.0 * u * u + 6.0 * u) * p1
      + (3.0 * u * u - 2.0 * u) * m1
  }

  /** A Hermite segment starts at p0 with slope m0 and ends at p1 with slope m1. */
  lemma HermiteEndpoints(p0: real, p1: real, m0: real, m1: real)
    ensures Hermite(p0, p1, m0, m1, 0.0) == p0 && Hermite(p0, p1, m0, m1, 1.0) == p1
    ensures HermiteSlope(p0, p1, m0, m1, 0.0) == m0 && HermiteSlope(p0, p1, m0, m1, 1.0) == m1
  {
  }

  /** A segment between equal points with zero tangents is flat. */
  lemma HermiteFlat(c: real, u: real)
    ensures Hermite(c, c, 0.0, 0.0, u) == c
  {
  }

  /** Interpolated value of history a at fractional index t, as the source
      computes it: the segment from a[k] to a[k + 1] with k the floor of t.
      The read of a[k + 1] is not clamped, so k + 1 must be a valid index. */
  function CubicInterpolation(a: seq<real>, t: real): (r: real)
    requires 0.0 <= t && t.Floor + 1 < |a|
    ensures t == t.Floor as real ==> r == a[t.Floor]
    ensures Constant(a) ==> r == a[0]
  {
    var k := t.Floor;
    HermiteEndpoints(a[k], a[k + 1], Tangent(a, k), Tangent(a, k + 1));
    HermiteFlat(a[0], t - k as real);
    Hermite(a[k], a[k + 1], Tangent(a, k), Tangent(a, k + 1), t - k as real)
  }

  /** CubicInterpolation with the second sample index clamped into the
      history, so that every t in [0, |a|) has a value. */
  function CubicInterpolationClamped(a: seq<real>, t: real): (r: real)
    requires 0.0 <= t && t.Floor < |a|
    ensures t.Floor + 1 < |a| ==> r == CubicInterpolation(a, t)
    ensures t == t.Floor as real ==> r == a[t.Floor]
    ensures Constant(a) ==> r == a[0]
  {
    var k := t.Floor;
    HermiteEndpoints(a[k], a[Min(k + 1, |a| - 1)], Tangent(a, k), Tangent(a, k + 1));
    HermiteFlat(a[0], t - k as real);
    Hermite(a[k], a[Min(k + 1, |a| - 1)], Tangent(a, k), Tangent(a, k + 1), t - k as real)
  }

  /** Consecutive segments meet at the knot between them in value and in slope. */
  lemma {:induction false} SegmentsJoin(a: seq<real>, k: int)
    requires 0 <= k && k + 2 < |a|
    ensures Hermite(a[k], a[k + 1], Tangent(a, k), Tangent(a, k + 1), 1.0)
            == CubicInterpolation(a, (k + 1) as real)
    ensures HermiteSlope(a[k], a[k + 1], Tangent(a, k), Tangent(a, k + 1), 1.0)
            == HermiteSlope(a[k + 1], a[k + 2], Tangent(a, k + 1), Tangent(a, k + 2), 0.0)
  {
    HermiteEndpoints(a[k], a[k + 1], Tangent(a, k), Tangent(a, k + 1));
    HermiteEndpoints(a[k + 1], a[k + 2], Tangent(a, k + 1), Tangent(a, k + 2));
    assert ((k + 1) as real).Floor == k + 1;
  }

  /** The fractional history index that rope point i samples. */
  function SampleParam(i: int): (t: real)
    ensures 5.0 * t == i as real
    ensures 0 <= i <= RopeSize ==> 0.0 <= t <= HistorySize as real
  {
    (i as real / RopeSize as real) * HistorySize as real
  }

  lemma SampleParamFloor(i: int)
    requires 0 <= i
    ensures 0.0 <= SampleParam(i) && SampleParam(i).Floor == i / 5
  {
    var q, r := i / 5, i % 5;
    assert SampleParam(i) == q as real + r as real / 5.0;
  }

  /** Rope point i reads an in-range second sample exactly when i is not one
      of the last five points; for those the source reads history[20]. */
  lemma NextSampleInRange(i: int)
    requires 0 <= i < RopeSize
    ensures 0.0 <= SampleParam(i) && SampleParam(i).Floor < HistorySize
    ensures SampleParam(i).Floor + 1 < HistorySize <==> i < RopeSize - 5
    ensures RopeSize - 5 <= i ==> SampleParam(i).Floor + 1 == HistorySize
  {
    SampleParamFloor(i);
  }

  /** The curve point that the tick stores at rope index i. */
  function CurvePoint(hx: seq<real>, hy: seq<real>, i: int): (p: Point)
    requires |hx| == HistorySize && |hy| == HistorySize && 0 <= i < RopeSize
    ensures i < RopeSize - 5 ==>
      p == Point(CubicInterpolation(hx, SampleParam(i)), CubicInterpolation(hy, SampleParam(i)))
    ensures i % 5 == 0 ==> p == Point(hx[i / 5], hy[i / 5])
    ensures Constant(hx) && Constant(hy) ==> p == Point(hx[0], hy[0])
  {
    NextSampleInRange(i);
    SampleParamFloor(i);
    var t := SampleParam(i);
    assert i % 5 == 0 ==> t == (i / 5) as real;
    Point(CubicInterpolationClamped(hx, t), CubicInterpolationClamped(hy, t))
  }

  /** Once the pointer has rested at (x, y) for a full history's worth of
      ticks, every curve point sits on it. */
  lemma TrailCollapsesAtRest(hx: seq<real>, hy: seq<real>, x: real, y: real, n: nat)
    requires |hx| == HistorySize && |hy| == HistorySize && HistorySize <= n
    ensures forall i :: 0 <= i < RopeSize ==>
      CurvePoint(ShiftedN(hx, x, n), ShiftedN(hy, y, n), i) == Point(x, y)
  {
    var sx, sy := ShiftedN(hx, x, n), ShiftedN(hy, y, n);
    ShiftedNFills(hx, x, n);
    ShiftedNFills(hy, y, n);
    assert Constant(sx) && sx[0] == x;
    assert Constant(sy) && sy[0] == y;
    forall i | 0 <= i < RopeSize
      ensures CurvePoint(sx, sy, i) == Point(x, y)
    {
    }
  }

  /** Pops the last entry of h and puts x in front, in place. */
  method ShiftIn(h: array<real>, x: real)
    requires 0 < h.Length
    modifies h
    ensures h[..] == Shifted(old(h[..]), x)
  {
    var i := h.Length - 1;
    while i > 0
      invariant 0 <= i < h.Length
      invariant forall j :: 0 <= j <= i ==> h[j] == old(h[j])
      invariant forall j :: i < j < h.Length ==> h[j] == old(h[j - 1])
    {
      h[i] := h[i - 1];
      i := i - 1;
    }
    h[0] := x;
    assert h[..] == Shifted(old(h[..]), x);
  }

  /** The trail's state: both histories, the rope points and the last
      pointer position seen (None until the first move event). */
  class Trail {
    const historyX: array<real>
    const historyY: array<real>
    const points: array<Point>
    var mouse: Option<Point>

    ghost predicate Valid()
      reads this
    {
      && historyX.Length == HistorySize
      && historyY.Length == HistorySize
      && points.Length == RopeSize
      && historyX != historyY
    }

    /** Both histories start filled with the character's position (x0, y0)
        and every rope point at the origin. */
    constructor (x0: real, y0: real)
      ensures Valid() && fresh(historyX) && fresh(historyY) && fresh(points)
      ensures forall i :: 0 <= i < HistorySize ==> historyX[i] == x0 && historyY[i] == y0
      ensures forall i :: 0 <= i < RopeSize ==> points[i] == Point(0.0, 0.0)
      ensures mouse == None
    {
      historyX := new real[HistorySize](_ => x0);
      historyY := new real[HistorySize](_ => y0);
      points := new Point[RopeSize](_ => Point(0.0, 0.0));
      mouse := None;
    }

    /** The stage's mouse-move handler records the global pointer position. */
    method MouseMove(x: real, y: real)
      modifies this`mouse
      ensures mouse == Some(Point(x, y))
    {
      mouse := Some(Point(x, y));
    }

    /** One ticker call: nothing happens before the first pointer sample;
        afterwards both histories take the pointer's coordinates in front
        and every rope point is recomputed from them. */
    method Tick()
      requires Valid()
      modifies historyX, historyY, points
      ensures Valid()
      ensures mouse.None? ==> unchanged(historyX, historyY, points)
      ensures mouse.Some? ==>
        && historyX[..] == Shifted(old(historyX[..]), mouse.value.x)
        && historyY[..] == Shifted(old(historyY[..]), mouse.value.y)
      ensures mouse.Some? ==>
        forall i :: 0 <= i < RopeSize ==> points[i] == CurvePoint(historyX[..], historyY[..], i)
    {
      if mouse.None? {
        return;
      }
      ShiftIn(historyX, mouse.value.x);
      ShiftIn(historyY, mouse.value.y);
      RecomputePoints(historyX[..], historyY[..]);
    }

    /** The loop of the ticker that refills every rope point from the
        histories hx and hy. */
    method RecomputePoints(hx: seq<real>, hy: seq<real>)
      requires Valid() && |hx| == HistorySize && |hy| == HistorySize
      modifies points
      ensures forall i :: 0 <= i < RopeSize ==> points[i] == CurvePoint(hx, hy, i)
    {
      for i := 0 to RopeSize
        invariant forall j :: 0 <= j < i ==> points[j] == CurvePoint(hx, hy, j)
      {
        var t := SampleParam(i);
        NextSampleInRange(i);
        var ix := CubicInterpolationClamped(hx, t);
        var iy := CubicInterpolationClamped(hy, t);
        points[i] := Point(ix, iy);
      }
    }
  }
}
