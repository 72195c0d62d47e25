/**
 * The measurement the slicer recomputes whenever the reference lines, the data
 * or the selected columns change: the distance between the two X lines, the
 * distance between the two Y lines, and the greatest and least Y value over the
 * rows whose X value lies between the two X lines.
 */
module Measure {
  import opened Wrappers
  import opened JsNumber
  import Csv

  datatype Measurement = Measurement(xDistance: Num, yDistance: Num, yMax: Num, yMin: Num)

  /**
   * `point[`col${c}`]`: the cell of column c, or NaN when the row has no such
   * column (the property is undefined, and undefined behaves as NaN in every
   * comparison and in Math.min/Math.max).
   */
  function Cell(row: Csv.Row, c: nat): (r: Num)
    ensures r.Some? ==> c < |row|
  {
    if c < |row| then row[c] else None
  }

  /** `data.map(point => point[`col${c}`])`. */
  function Column(data: seq<Csv.Row>, c: nat): (vs: seq<Num>)
    ensures |vs| == |data|
    ensures forall i :: 0 <= i < |data| ==> vs[i] == Cell(data[i], c)
  {
    Csv.Map((row: Csv.Row) => Cell(row, c), data)
  }

  /**
   * The window test: `x >= Math.min(a, b) && x <= Math.max(a, b)`. Both bounds are
   * inclusive, and a NaN anywhere makes the test false.
   */
  predicate InWindow(x: Num, a: Num, b: Num)
    ensures InWindow(x, a, b) ==> x.Some? && a.Some? && b.Some?
  {
    Ge(x, Min(a, b)) && Le(x, Max(a, b))
  }

  /** The window test does not depend on the order of the two lines. */
  lemma InWindowSymmetric(x: Num, a: Num, b: Num)
    ensures InWindow(x, a, b) == InWindow(x, b, a)
    ensures InWindow(x, a, b) <==> (x.Some? && a.Some? && b.Some? &&
      ((a.value <= x.value <= b.value) || (b.value <= x.value <= a.value)))
  {
  }

  /** `data.filter(...)`: the rows whose column-xc value is inside the window, in order. */
  function Window(data: seq<Csv.Row>, xc: nat, a: Num, b: Num): (w: seq<Csv.Row>)
    ensures |w| <= |data|
    ensures forall i :: 0 <= i < |w| ==> InWindow(Cell(w[i], xc), a, b)
  {
    if |data| == 0 then []
    else (if InWindow(Cell(data[0], xc), a, b) then [data[0]] else []) + Window(data[1..], xc, a, b)
  }

  /** A row is in the window exactly when it is a row of the data and its X value passes the test. */
  lemma {:induction false} WindowMembers(data: seq<Csv.Row>, xc: nat, a: Num, b: Num, row: Csv.Row)
    ensures row in Window(data, xc, a, b) <==> row in data && InWindow(Cell(row, xc), a, b)
  {
    if |data| > 0 {
      WindowMembers(data[1..], xc, a, b, row);
      assert data == [data[0]] + data[1..];
    }
  }

  /** The filter keeps the order of the rows: filtering a concatenation filters each part. */
  lemma {:induction false} WindowAppend(d1: seq<Csv.Row>, d2: seq<Csv.Row>, xc: nat, a: Num, b: Num)
    ensures Window(d1 + d2, xc, a, b) == Window(d1, xc, a, b) + Window(d2, xc, a, b)
  {
    if |d1| > 0 {
      assert (d1 + d2)[1..] == d1[1..] + d2;
      WindowAppend(d1[1..], d2, xc, a, b);
    } else {
      assert d1 + d2 == d2;
    }
  }

  /** Swapping the two X lines selects the same rows. */
  lemma {:induction false} WindowSwap(data: seq<Csv.Row>, xc: nat, a: Num, b: Num)
    ensures Window(data, xc, a, b) == Window(data, xc, b, a)
  {
    if |data| > 0 {
      InWindowSymmetric(Cell(data[0], xc), a, b);
      WindowSwap(data[1..], xc, a, b);
    }
  }

  /**
   * The measurement effect. Both distances are absolute differences; the Y
   * statistics are Math.max and Math.min over the windowed rows' column-yc values,
   * and 0 when there is no data or the window is empty.
   */
  function Compute(data: seq<Csv.Row>, xc: nat, yc: nat, xp: seq<Num>, yp: seq<Num>): (m: Measurement)
    requires |xp| == 2 && |yp| == 2
    ensures m.xDistance.Some? ==> m.xDistance.value >= 0.0
    ensures m.yDistance.Some? ==> m.yDistance.value >= 0.0
    ensures |data| == 0 ==> m.yMax == Some(0.0) && m.yMin == Some(0.0)
  {
    var xDist := Abs(Sub(xp[1], xp[0]));
    var yDist := Abs(Sub(yp[1], yp[0]));
    if |data| > 0 then
      var w := Window(data, xc, xp[0], xp[1]);
      if |w| > 0 then
        var ys := Column(w, yc);
        Measurement(xDist, yDist, MaxOf(ys), MinOf(ys))
      else Measurement(xDist, yDist, Some(0.0), Some(0.0))
    else Measurement(xDist, yDist, Some(0.0), Some(0.0))
  }

  /**
   * The distances are |x1 - x0| and |y1 - y0|: non-negative, NaN exactly when a
   * line is NaN, and the same whichever line of a pair is first.
   */
  lemma Distances(data: seq<Csv.Row>, xc: nat, yc: nat, xp: seq<Num>, yp: seq<Num>)
    requires |xp| == 2 && |yp| == 2
    ensures var m := Compute(data, xc, yc, xp, yp);
      && (m.xDistance.Some? <==> xp[0].Some? && xp[1].Some?)
      && (m.yDistance.Some? <==> yp[0].Some? && yp[1].Some?)
      && (m.xDistance.Some? ==>
            m.xDistance.value >= 0.0 &&
            (m.xDistance.value == xp[1].value - xp[0].value || m.xDistance.value == xp[0].value - xp[1].value))
      && (m.yDistance.Some? ==>
            m.yDistance.value >= 0.0 &&
            (m.yDistance.value == yp[1].value - yp[0].value || m.yDistance.value == yp[0].value - yp[1].value))
    ensures Compute(data, xc, yc, [xp[1], xp[0]], yp).xDistance == Compute(data, xc, yc, xp, yp).xDistance
    ensures Compute(data, xc, yc, xp, [yp[1], yp[0]]).yDistance == Compute(data, xc, yc, xp, yp).yDistance
  {
  }

  /** Swapping the lines of either pair changes nothing in the measurement. */
  lemma ComputeSwap(data: seq<Csv.Row>, xc: nat, yc: nat, xp: seq<Num>, yp: seq<Num>)
    requires |xp| == 2 && |yp| == 2
    ensures Compute(data, xc, yc, [xp[1], xp[0]], yp) == Compute(data, xc, yc, xp, yp)
    ensures Compute(data, xc, yc, xp, [yp[1], yp[0]]) == Compute(data, xc, yc, xp, yp)
  {
    WindowSwap(data, xc, xp[0], xp[1]);
    Distances(data, xc, yc, xp, yp);
  }

  /** With no data, or no row inside the window, the Y statistics fall back to 0. */
  lemma EmptyWindowIsZero(data: seq<Csv.Row>, xc: nat, yc: nat, xp: seq<Num>, yp: seq<Num>)
    requires |xp| == 2 && |yp| == 2
    requires forall i :: 0 <= i < |data| ==> !InWindow(Cell(data[i], xc), xp[0], xp[1])
    ensures Compute(data, xc, yc, xp, yp).yMax == Some(0.0)
    ensures Compute(data, xc, yc, xp, yp).yMin == Some(0.0)
  {
    var w := Window(data, xc, xp[0], xp[1]);
    if |w| > 0 {
      WindowMembers(data, xc, xp[0], xp[1], w[0]);
    }
  }

  /**
   * Over a non-empty window the statistics are the extremes of the windowed
   * rows' Y values: NaN when one of them is NaN, otherwise both are Y values of
   * windowed rows, yMin <= yMax, and every windowed Y value lies between them.
   */
  lemma WindowExtremes(data: seq<Csv.Row>, xc: nat, yc: nat, xp: seq<Num>, yp: seq<Num>)
    requires |xp| == 2 && |yp| == 2
    requires |Window(data, xc, xp[0], xp[1])| > 0
    ensures var w := Window(data, xc, xp[0], xp[1]);
      var m := Compute(data, xc, yc, xp, yp);
      && (m.yMax.Some? <==> NoNaN(Column(w, yc)))
      && (m.yMin.Some? <==> NoNaN(Column(w, yc)))
      && (NoNaN(Column(w, yc)) ==>
          && (exists i :: 0 <= i < |w| && Column(w, yc)[i] == m.yMax)
          && (exists i :: 0 <= i < |w| && Column(w, yc)[i] == m.yMin)
          && m.yMin.value <= m.yMax.value
          && forall i :: 0 <= i < |w| ==> m.yMin.value <= Column(w, yc)[i].value <= m.yMax.value)
  {
    var w := Window(data, xc, xp[0], xp[1]);
    var ys := Column(w, yc);
    MinOfLeMaxOf(ys);
    if NoNaN(ys) {
      var m := Compute(data, xc, yc, xp, yp);
      assert m.yMax in ys && m.yMin in ys;
      var i :| 0 <= i < |ys| && ys[i] == m.yMax;
      var j :| 0 <= j < |ys| && ys[j] == m.yMin;
      assert ys[i] == m.yMax && ys[j] == m.yMin;
    }
  }

  /** Measuring rows (0,0.01) (1,0.05) (2,0.09) (3,0.15), X lines at 0.5 and 2.5. */
  lemma ExampleWindow()
    ensures Compute([[Some(0.0), Some(0.01)], [Some(1.0), Some(0.05)], [Some(2.0), Some(0.09)], [Some(3.0), Some(0.15)]],
                    0, 1, [Some(0.5), Some(2.5)], [Some(0.06), Some(0.12)])
            == Measurement(Some(2.0), Some(0.06), Some(0.09), Some(0.05))
  {
    var data: seq<Csv.Row> := [[Some(0.0), Some(0.01)], [Some(1.0), Some(0.05)], [Some(2.0), Some(0.09)], [Some(3.0), Some(0.15)]];
    assert data[1..][1..][1..][1..] == [];
    assert Window(data, 0, Some(0.5), Some(2.5)) == [data[1], data[2]];
    assert Column([data[1], data[2]], 1) == [Some(0.05), Some(0.09)];
  }
}
