/**
 * One slicer instance: the state the component keeps (data, headers, selected
 * columns, two axis domains, two pairs of reference lines and the drag in
 * progress) and the event handlers that update it.
 */
module Slicer {
  import opened Wrappers
  import opened JsNumber
  import Csv
  import opened Axes
  import Measure

  datatype AxisKind = X | Y

  /** The reference line being dragged: its axis and its index in that axis' pair. */
  datatype Drag = Drag(axis: AxisKind, index: nat)

  class GraphSlicer {
    var data: seq<Csv.Row>
    var headers: seq<string>
    var xColumn: nat
    var yColumn: nat
    var xDomain: Domain
    var yDomain: Domain
    var xPointers: seq<Num>
    var yPointers: seq<Num>
    var dragging: Option<Drag>

    /** Each axis has exactly two reference lines, and a drag names one of them. */
    ghost predicate Valid()
      reads this
    {
      |xPointers| == 2 && |yPointers| == 2 && (dragging.Some? ==> dragging.value.index < 2)
    }

    /** The initial state of a fresh instance. */
    constructor ()
      ensures Valid()
      ensures data == [] && headers == []
      ensures xColumn == 0 && yColumn == 1
      ensures yDomain == Domain(Some(0.0), Some(0.2))
      ensures xDomain == Domain(Some(0.0), Some(100.0))
      ensures xPointers == [Some(20.0), Some(60.0)]
      ensures yPointers == [Some(0.06), Some(0.12)]
      ensures dragging == None
    {
      data := [];
      headers := [];
      xColumn := 0;
      yColumn := 1;
      yDomain := Domain(Some(0.0), Some(0.2));
      xDomain := Domain(Some(0.0), Some(100.0));
      xPointers := [Some(20.0), Some(60.0)];
      yPointers := [Some(0.06), Some(0.12)];
      dragging := None;
    }

    /** The measurement shown for the current state. */
    function Measurements(): (m: Measure.Measurement)
      reads this
      requires Valid()
      ensures m.xDistance.Some? <==> xPointers[0].Some? && xPointers[1].Some?
      ensures m.yDistance.Some? <==> yPointers[0].Some? && yPointers[1].Some?
      ensures |data| == 0 ==> m.yMax == Some(0.0) && m.yMin == Some(0.0)
    {
      Measure.Distances(data, xColumn, yColumn, xPointers, yPointers);
      Measure.Compute(data, xColumn, yColumn, xPointers, yPointers)
    }

    /**
     * Installing a parsed table: headers and data are replaced, the X domain
     * becomes the extent of the selected X column and the X lines move to 30% and
     * 70% of it. The Y domain and Y lines are left alone.
     */
    method LoadTable(table: Csv.Table)
      requires Valid()
      requires |table.rows| > 0
      modifies this`headers, this`data, this`xDomain, this`xPointers
      ensures Valid()
      ensures headers == table.headers && data == table.rows
      ensures xDomain == DomainOf(Measure.Column(data, xColumn))
      ensures xPointers == DefaultMarkers(xDomain)
      ensures NoNaN(Measure.Column(data, xColumn)) ==>
        xDomain.lo.value <= xPointers[0].value <= xPointers[1].value <= xDomain.hi.value
    {
      headers := table.headers;
      data := table.rows;
      xDomain := DomainOf(Measure.Column(data, xColumn));
      xPointers := DefaultMarkers(xDomain);
      DefaultMarkersInside(xDomain);
    }

    /** The file reader's completion: the text is parsed and the table installed. */
    method HandleFileUpload(text: string)
      requires Valid()
      requires |Csv.Parse(text).rows| > 0
      modifies this`headers, this`data, this`xDomain, this`xPointers
      ensures Valid()
      ensures headers == Csv.Parse(text).headers && data == Csv.Parse(text).rows
      ensures xDomain == DomainOf(Measure.Column(data, xColumn))
      ensures xPointers == DefaultMarkers(xDomain)
      ensures NoNaN(Measure.Column(data, xColumn)) ==>
        xDomain.lo.value <= xPointers[0].value <= xPointers[1].value <= xDomain.hi.value
    {
      LoadTable(Csv.Parse(text));
    }

    /**
     * Selecting a column for an axis. With data present, an X selection also
     * resets the X domain to the column's extent and the X lines to 30%/70% of it;
     * a Y selection resets only the Y domain. Without data only the selection changes.
     */
    method HandleColumnChange(axis: AxisKind, column: nat)
      requires Valid()
      modifies this`xColumn, this`yColumn, this`xDomain, this`yDomain, this`xPointers
      ensures Valid()
      ensures axis == X ==> xColumn == column && yColumn == old(yColumn)
      ensures axis == Y ==> yColumn == column && xColumn == old(xColumn)
      ensures |data| == 0 ==>
        xDomain == old(xDomain) && yDomain == old(yDomain) && xPointers == old(xPointers)
      ensures |data| > 0 && axis == X ==>
        && xDomain == DomainOf(Measure.Column(data, column))
        && xPointers == DefaultMarkers(xDomain)
        && yDomain == old(yDomain)
      ensures |data| > 0 && axis == Y ==>
        && yDomain == DomainOf(Measure.Column(data, column))
        && xDomain == old(xDomain) && xPointers == old(xPointers)
    {
      if axis == X {
        xColumn := column;
      } else {
        yColumn := column;
      }
      if |data| > 0 {
        var d := DomainOf(Measure.Column(data, column));
        if axis == X {
          xDomain := d;
          xPointers := DefaultMarkers(d);
        } else {
          yDomain := d;
        }
      }
    }

    /**
     * The X-min number field: the typed text, parsed, becomes the lower X bound and
     * the upper bound is kept. No reference line is moved or clamped.
     */
    method EditXAxisMin(text: string)
      modifies this`xDomain
      ensures xDomain == Domain(Csv.ParseFloat(text), old(xDomain.hi))
    {
      xDomain := Domain(Csv.ParseFloat(text), xDomain.hi);
    }

    /** The X-max number field: sets the upper X bound, keeps the lower one. */
    method EditXAxisMax(text: string)
      modifies this`xDomain
      ensures xDomain == Domain(old(xDomain.lo), Csv.ParseFloat(text))
    {
      xDomain := Domain(xDomain.lo, Csv.ParseFloat(text));
    }

    /** The Y-min number field: sets the lower Y bound, keeps the upper one. */
    method EditYAxisMin(text: string)
      modifies this`yDomain
      ensures yDomain == Domain(Csv.ParseFloat(text), old(yDomain.hi))
    {
      yDomain := Domain(Csv.ParseFloat(text), yDomain.hi);
    }

    /** The Y-max number field: sets the upper Y bound, keeps the lower one. */
    method EditYAxisMax(text: string)
      modifies this`yDomain
      ensures yDomain == Domain(old(yDomain.lo), Csv.ParseFloat(text))
    {
      yDomain := Domain(yDomain.lo, Csv.ParseFloat(text));
    }

    /**
     * The X slider and the X number field of line i: line i takes the parsed
     * value as it is, unclamped; the slider's own range keeps it inside the X
     * domain, while the number field may write any value. Line 1 - i is kept.
     */
    method EditXPointer(i: nat, text: string)
      requires Valid() && i < 2
      modifies this`xPointers
      ensures Valid()
      ensures xPointers == old(xPointers)[i := Csv.ParseFloat(text)]
    {
      xPointers := xPointers[i := Csv.ParseFloat(text)];
    }

    /** The Y number field of line i: line i takes the parsed value, unclamped. */
    method EditYPointer(i: nat, text: string)
      requires Valid() && i < 2
      modifies this`yPointers
      ensures Valid()
      ensures yPointers == old(yPointers)[i := Csv.ParseFloat(text)]
    {
      yPointers := yPointers[i := Csv.ParseFloat(text)];
    }

    /**
     * The handler `handlePointerMouseDown`: it sets the drag to line i of the axis.
     * The component attaches it to no element, so only ReferenceLineClick starts a
     * drag.
     */
    method PointerMouseDown(axis: AxisKind, i: nat)
      requires Valid() && i < 2
      modifies this`dragging
      ensures Valid()
      ensures dragging == Some(Drag(axis, i))
    {
      dragging := Some(Drag(axis, i));
    }

    /**
     * Clicking a reference line starts dragging it. The click arrives after the
     * container's mouse-up, so the line then follows the pointer with the button
     * released, until the next mouse-up or mouse-leave.
     */
    method ReferenceLineClick(axis: AxisKind, i: nat)
      requires Valid() && i < 2
      modifies this`dragging
      ensures Valid()
      ensures dragging == Some(Drag(axis, i))
    {
      PointerMouseDown(axis, i);
    }

    /** Releasing the button, or leaving the chart area, ends any drag. */
    method MouseUp()
      requires Valid()
      modifies this`dragging
      ensures Valid()
      ensures dragging == None
    {
      dragging := None;
    }

    /**
     * A pointer move at (relX, relY) relative to the chart's corner. Without a
     * drag nothing changes. While dragging line i of an axis, that line takes the
     * pointer's data coordinate clamped into the axis domain, and every other line
     * keeps its value. With numeric bounds lo <= hi the new value lies in [lo, hi].
     */
    method MouseMove(relX: real, relY: real)
      requires Valid()
      modifies this`xPointers, this`yPointers
      ensures Valid()
      ensures dragging.None? ==> xPointers == old(xPointers) && yPointers == old(yPointers)
      ensures dragging.Some? && dragging.value.axis == X ==>
        && xPointers == old(xPointers)[dragging.value.index := Clamp(ToDataX(relX, xDomain), xDomain)]
        && yPointers == old(yPointers)
      ensures dragging.Some? && dragging.value.axis == Y ==>
        && yPointers == old(yPointers)[dragging.value.index := Clamp(ToDataY(relY, yDomain), yDomain)]
        && xPointers == old(xPointers)
      ensures dragging.Some? && dragging.value.axis == X && xDomain.lo.Some? && xDomain.hi.Some?
              && xDomain.lo.value <= xDomain.hi.value ==>
        && xPointers[dragging.value.index].Some?
        && xDomain.lo.value <= xPointers[dragging.value.index].value <= xDomain.hi.value
      ensures dragging.Some? && dragging.value.axis == Y && yDomain.lo.Some? && yDomain.hi.Some?
              && yDomain.lo.value <= yDomain.hi.value ==>
        && yPointers[dragging.value.index].Some?
        && yDomain.lo.value <= yPointers[dragging.value.index].value <= yDomain.hi.value
    {
      if dragging.None? {
        return;
      }
      var drag := dragging.value;
      if drag.axis == X {
        var coord := ToDataX(relX, xDomain);
        xPointers := xPointers[drag.index := Clamp(coord, xDomain)];
      } else {
        var coord := ToDataY(relY, yDomain);
        yPointers := yPointers[drag.index := Clamp(coord, yDomain)];
      }
    }
  }
}
