/**
 * Axis domains, the default reference-line positions, the pixel-to-data
 * transform of the chart area and the clamp a drag applies.
 */
module Axes {
  import opened Wrappers
  import opened JsNumber

  /** The visible range `[lo, hi]` of one axis. The order lo <= hi is not enforced. */
  datatype Domain = Domain(lo: Num, hi: Num)

  // Geometry of the chart: chartWidth, chartHeight and chartMargin.
  const ChartWidth: real := 800.0
  const ChartHeight: real := 400.0
  const MarginTop: real := 20.0
  const MarginRight: real := 30.0
  const MarginBottom: real := 60.0
  const MarginLeft: real := 60.0

  /** Width and height of the plot area inside the margins (710 and 320 pixels). */
  const PlotWidth: real := ChartWidth - MarginLeft - MarginRight
  const PlotHeight: real := ChartHeight - MarginTop - MarginBottom

  // ---------------------------------------------------------------------
  // Defaults computed from a column

  /**
   * `[Math.min(...vs), Math.max(...vs)]`: NaN bounds when some value is NaN,
   * otherwise the least and greatest value, which enclose every value.
   */
  function DomainOf(vs: seq<Num>): (d: Domain)
    requires |vs| > 0
    ensures d.lo.Some? <==> NoNaN(vs)
    ensures d.hi.Some? <==> NoNaN(vs)
    ensures NoNaN(vs) ==> d.lo in vs && d.hi in vs && d.lo.value <= d.hi.value
    ensures NoNaN(vs) ==> forall i :: 0 <= i < |vs| ==> d.lo.value <= vs[i].value <= d.hi.value
  {
    MinOfLeMaxOf(vs);
    Domain(MinOf(vs), MaxOf(vs))
  }

  /** The two reference lines an axis gets when its domain is set from data: at 30% and at 70%. */
  function DefaultMarkers(d: Domain): (m: seq<Num>)
    ensures |m| == 2
  {
    var span := Sub(d.hi, d.lo);
    [Add(d.lo, Mul(span, Some(0.3))), Add(d.lo, Mul(span, Some(0.7)))]
  }

  /**
   * With numeric bounds lo <= hi, the default lines sit at 3/10 and 7/10 of the
   * way from lo to hi, so lo <= first <= second <= hi; with a NaN bound both are NaN.
   */
  lemma DefaultMarkersInside(d: Domain)
    ensures (d.lo.None? || d.hi.None?) ==> DefaultMarkers(d)[0].None? && DefaultMarkers(d)[1].None?
    ensures d.lo.Some? && d.hi.Some? ==>
      && DefaultMarkers(d)[0] == Some(d.lo.value + (d.hi.value - d.lo.value) * 0.3)
      && DefaultMarkers(d)[1] == Some(d.lo.value + (d.hi.value - d.lo.value) * 0.7)
    ensures d.lo.Some? && d.hi.Some? && d.lo.value <= d.hi.value ==>
      d.lo.value <= DefaultMarkers(d)[0].value <= DefaultMarkers(d)[1].value <= d.hi.value
  {
  }

  // ---------------------------------------------------------------------
  // Pixel to data coordinates

  /**
   * The X data coordinate of a pointer at `relX` pixels right of the chart's left
   * edge (`event.clientX - rect.left`). With equal bounds `getGraphCoordinates`'s `xScale` is
   * `PlotWidth / 0`, which is +Infinity in JavaScript, so the quotient is 0 and the
   * coordinate is the lower bound.
   */
  function ToDataX(relX: real, d: Domain): (r: Num)
    ensures r.Some? <==> d.lo.Some? && d.hi.Some?
  {
    if d.lo.None? || d.hi.None? then None
    else
      var x := relX - MarginLeft;
      if d.hi.value == d.lo.value then d.lo
      else Some(x / (PlotWidth / (d.hi.value - d.lo.value)) + d.lo.value)
  }

  /**
   * The Y data coordinate of a pointer at `relY` pixels below the chart's top edge.
   * Screen Y grows downwards, so the top of the plot area is the upper bound. With
   * equal bounds the quotient is 0 (see ToDataX) and the coordinate is the upper bound.
   */
  function ToDataY(relY: real, d: Domain): (r: Num)
    ensures r.Some? <==> d.lo.Some? && d.hi.Some?
  {
    if d.lo.None? || d.hi.None? then None
    else
      var y := relY - MarginTop;
      if d.hi.value == d.lo.value then d.hi
      else Some(d.hi.value - y / (PlotHeight / (d.hi.value - d.lo.value)))
  }

  lemma DivByQuotient(x: real, w: real, delta: real)
    requires w != 0.0 && delta != 0.0
    ensures x / (w / delta) == x * delta / w
  {
    assert (w / delta) * delta == w;
    assert (x * delta / w) * (w / delta) == x;
  }

  lemma ZeroSpan(rel: real, m: real, w: real, lo: real, hi: real)
    requires w != 0.0 && hi == lo
    ensures lo + (rel - m) * (hi - lo) / w == lo
    ensures hi - (rel - m) * (hi - lo) / w == hi
  {
    assert (rel - m) * (hi - lo) == 0.0;
  }

  /** On equal bounds both sides of the interpolation collapse to the bound. */
  lemma FlatSpan(relX: real, relY: real, d: Domain)
    requires d.lo.Some? && d.hi.Some? && d.lo.value == d.hi.value
    ensures ToDataX(relX, d) == Some(d.lo.value + (relX - MarginLeft) * (d.hi.value - d.lo.value) / PlotWidth)
    ensures ToDataY(relY, d) == Some(d.hi.value - (relY - MarginTop) * (d.hi.value - d.lo.value) / PlotHeight)
  {
    ZeroSpan(relX, MarginLeft, PlotWidth, d.lo.value, d.hi.value);
    ZeroSpan(relY, MarginTop, PlotHeight, d.lo.value, d.hi.value);
    assert d.lo.value + (relX - MarginLeft) * (d.hi.value - d.lo.value) / PlotWidth == d.lo.value;
    assert ToDataX(relX, d) == d.lo == Some(d.lo.value);
    assert d.hi.value - (relY - MarginTop) * (d.hi.value - d.lo.value) / PlotHeight == d.hi.value;
    assert ToDataY(relY, d) == d.hi == Some(d.hi.value);
  }

  /** On distinct bounds, dividing by the scale is multiplying by the span over the plot size. */
  lemma SteepSpan(relX: real, relY: real, d: Domain)
    requires d.lo.Some? && d.hi.Some? && d.lo.value != d.hi.value
    ensures ToDataX(relX, d) == Some(d.lo.value + (relX - MarginLeft) * (d.hi.value - d.lo.value) / PlotWidth)
    ensures ToDataY(relY, d) == Some(d.hi.value - (relY - MarginTop) * (d.hi.value - d.lo.value) / PlotHeight)
  {
    DivByQuotient(relX - MarginLeft, PlotWidth, d.hi.value - d.lo.value);
    assert (relX - MarginLeft) / (PlotWidth / (d.hi.value - d.lo.value)) + d.lo.value
        == d.lo.value + (relX - MarginLeft) * (d.hi.value - d.lo.value) / PlotWidth;
    assert ToDataX(relX, d) == Some((relX - MarginLeft) / (PlotWidth / (d.hi.value - d.lo.value)) + d.lo.value);
    DivByQuotient(relY - MarginTop, PlotHeight, d.hi.value - d.lo.value);
    assert d.hi.value - (relY - MarginTop) / (PlotHeight / (d.hi.value - d.lo.value))
        == d.hi.value - (relY - MarginTop) * (d.hi.value - d.lo.value) / PlotHeight;
    assert ToDataY(relY, d) == Some(d.hi.value - (relY - MarginTop) / (PlotHeight / (d.hi.value - d.lo.value)));
  }

  /**
   * The transform is the linear interpolation of the domain across the plot
   * area, for every domain with numeric bounds (equal bounds included): X runs
   * from lo at the left edge, Y runs down from hi at the top edge.
   */
  lemma ToDataLinear(relX: real, relY: real, d: Domain)
    requires d.lo.Some? && d.hi.Some?
    ensures ToDataX(relX, d) == Some(d.lo.value + (relX - MarginLeft) * (d.hi.value - d.lo.value) / PlotWidth)
    ensures ToDataY(relY, d) == Some(d.hi.value - (relY - MarginTop) * (d.hi.value - d.lo.value) / PlotHeight)
  {
    if d.lo.value == d.hi.value {
      FlatSpan(relX, relY, d);
    } else {
      SteepSpan(relX, relY, d);
    }
  }

  /**
   * The left edge of the plot area maps to the lower X bound and its right edge
   * to the upper one; the top edge maps to the upper Y bound and the bottom edge
   * to the lower one.
   */
  lemma ToDataEndpoints(dx: Domain, dy: Domain)
    requires dx.lo.Some? && dx.hi.Some? && dy.lo.Some? && dy.hi.Some?
    ensures ToDataX(MarginLeft, dx) == dx.lo
    ensures ToDataX(MarginLeft + PlotWidth, dx) == dx.hi
    ensures ToDataY(MarginTop, dy) == dy.hi
    ensures ToDataY(MarginTop + PlotHeight, dy) == dy.lo
  {
    ToDataLinear(MarginLeft, MarginTop, dx);
    ToDataLinear(MarginLeft + PlotWidth, MarginTop + PlotHeight, dx);
    ToDataLinear(MarginLeft, MarginTop, dy);
    ToDataLinear(MarginLeft + PlotWidth, MarginTop + PlotHeight, dy);
  }

  /**
   * Where the chart draws data coordinate v on the X axis: the offset from the
   * lower bound times the scale `PlotWidth / (hi - lo)` the transform divides by.
   */
  function FromDataX(v: real, d: Domain): real
    requires d.lo.Some? && d.hi.Some? && d.lo.value != d.hi.value
  {
    MarginLeft + (v - d.lo.value) * (PlotWidth / (d.hi.value - d.lo.value))
  }

  /** Where the chart draws data coordinate v on the Y axis, measured down from the upper bound. */
  function FromDataY(v: real, d: Domain): real
    requires d.lo.Some? && d.hi.Some? && d.lo.value != d.hi.value
  {
    MarginTop + (d.hi.value - v) * (PlotHeight / (d.hi.value - d.lo.value))
  }

  lemma Unscale(m: real, k: real, a: real, p: real)
    requires k != 0.0 && p == m + a * k
    ensures (p - m) / k == a
  {
    assert p - m == a * k;
  }

  lemma Rescale(m: real, k: real, r: real, t: real)
    requires k != 0.0 && t == (r - m) / k
    ensures m + t * k == r
  {
    assert t * k == r - m;
  }

  /** On a non-degenerate domain the X transform and the X drawing scale are inverse to each other. */
  lemma ToDataXRoundTrip(relX: real, v: real, d: Domain)
    requires d.lo.Some? && d.hi.Some? && d.lo.value != d.hi.value
    ensures ToDataX(FromDataX(v, d), d) == Some(v)
    ensures FromDataX(ToDataX(relX, d).value, d) == relX
  {
    Unscale(MarginLeft, PlotWidth / (d.hi.value - d.lo.value), v - d.lo.value, FromDataX(v, d));
    Rescale(MarginLeft, PlotWidth / (d.hi.value - d.lo.value), relX, ToDataX(relX, d).value - d.lo.value);
  }

  /** On a non-degenerate domain the Y transform and the Y drawing scale are inverse to each other. */
  lemma ToDataYRoundTrip(relY: real, v: real, d: Domain)
    requires d.lo.Some? && d.hi.Some? && d.lo.value != d.hi.value
    ensures ToDataY(FromDataY(v, d), d) == Some(v)
    ensures FromDataY(ToDataY(relY, d).value, d) == relY
  {
    Unscale(MarginTop, PlotHeight / (d.hi.value - d.lo.value), d.hi.value - v, FromDataY(v, d));
    Rescale(MarginTop, PlotHeight / (d.hi.value - d.lo.value), relY, d.hi.value - ToDataY(relY, d).value);
  }

  // ---------------------------------------------------------------------
  // Clamping a dragged value

  /**
   * `Math.max(d.lo, Math.min(d.hi, v))`, the value a drag writes. With numeric
   * bounds lo <= hi it lies in [lo, hi]: v itself when v is inside, otherwise the
   * nearer bound. With lo > hi (possible after manual edits) it is always lo, and
   * any NaN makes it NaN.
   */
  function Clamp(v: Num, d: Domain): (r: Num)
    ensures r.Some? <==> v.Some? && d.lo.Some? && d.hi.Some?
    ensures r.Some? && d.lo.value <= d.hi.value ==> d.lo.value <= r.value <= d.hi.value
    ensures r.Some? && d.lo.value <= v.value <= d.hi.value ==> r == v
    ensures r.Some? && v.value < d.lo.value ==> r == d.lo
    ensures r.Some? && v.value > d.hi.value ==> r == d.hi || d.lo.value > d.hi.value
    ensures r.Some? && d.lo.value > d.hi.value ==> r == d.lo
  {
    Max(d.lo, Min(d.hi, v))
  }
}
