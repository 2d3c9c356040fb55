/**
 * The `extremes` sync: after an axis is re-ranged the emitter publishes two
 * lasting position cursors (`<coll>.extremes.min`, `<coll>.extremes.max`)
 * carrying the native event; a receiving chart re-ranges each other axis of
 * the same kind to the emitting axis's min and max, guarded against its own
 * emissions and against extremes it already has.
 */
module ExtremesSync {
  import opened Wrappers
  import opened Charts
  import opened Cursors
  import opened SyncDefinitions

  /** The cursor state names. */
  function MinState(coll: string): string { coll + ".extremes.min" }
  function MaxState(coll: string): string { coll + ".extremes.max" }
  const ResetSelectionState := "chart.resetSelection"
  const ShowResetZoomState := "chart.showResetZoom"

  // ---------------------------------------------------------------- emitter

  /** The emitter attaches only on a Highcharts component with a connector, a chart and a board. */
  predicate ExtremesEmitterAttaches(c: Component, chart: Chart?)
  {
    c.kind == "Highcharts" && c.connector.Some? && chart != null && c.hasBoard
  }

  /** The `afterSetExtremes` handlers of axes 0 .. n-1. */
  function AxisEventsUpTo(n: nat): set<OptionEvent>
  {
    set i: nat | i < n :: AfterSetExtremes(i)
  }

  /**
   * An attached extremes emitter: the chart it serves and the two `let`
   * variables that hold the removers of its 'selection' and
   * 'afterShowResetZoom' listeners, unset until the first render.
   */
  class ExtremesEmitter {
    const chart: Chart
    var selectionRemover: Option<Registration>
    var resetZoomRemover: Option<Registration>

    constructor (chart: Chart)
      ensures this.chart == chart
      ensures selectionRemover.None? && resetZoomRemover.None?
    {
      this.chart := chart;
      selectionRemover := None;
      resetZoomRemover := None;
    }

    /**
     * The 'afterRender' callback: set `afterSetExtremes` on every axis, then
     * add the two chart listeners and keep their removers. A later render
     * overwrites the removers kept from an earlier one.
     */
    method AfterRender()
      requires chart.Valid()
      modifies this, chart
      ensures chart.Valid()
      ensures chart.optionEvents == old(chart.optionEvents) + AxisEventsUpTo(|chart.axes|)
      ensures selectionRemover.Some? && selectionRemover.value.event == Selection
      ensures resetZoomRemover.Some? && resetZoomRemover.value.event == AfterShowResetZoom
      ensures selectionRemover.value != resetZoomRemover.value
      ensures selectionRemover.value !in old(chart.listeners) && resetZoomRemover.value !in old(chart.listeners)
      ensures chart.listeners == old(chart.listeners) + {selectionRemover.value, resetZoomRemover.value}
      ensures chart.nextSerial == old(chart.nextSerial) + 2
      ensures chart.series == old(chart.series) && chart.axes == old(chart.axes) && chart.calls == old(chart.calls)
      ensures chart.hasRendered == old(chart.hasRendered)
    {
      var i := 0;
      while i < |chart.axes|
        invariant 0 <= i <= |chart.axes|
        invariant chart.optionEvents == old(chart.optionEvents) + AxisEventsUpTo(i)
        invariant chart.listeners == old(chart.listeners) && chart.nextSerial == old(chart.nextSerial)
        invariant chart.hasRendered == old(chart.hasRendered)
        invariant chart.series == old(chart.series) && chart.axes == old(chart.axes) && chart.calls == old(chart.calls)
      {
        chart.optionEvents := chart.optionEvents + {AfterSetExtremes(i)};
        i := i + 1;
        assert AxisEventsUpTo(i) == AxisEventsUpTo(i - 1) + {AfterSetExtremes(i - 1)};
      }
      var r1 := chart.AddEvent(Selection);
      selectionRemover := Some(r1);
      var r2 := chart.AddEvent(AfterShowResetZoom);
      resetZoomRemover := Some(r2);
    }

    /**
     * The cleanup the emitter returns: call each stored remover that is set,
     * then unset `afterSetExtremes` on every axis.
     */
    method Cleanup()
      requires chart.Valid()
      modifies chart
      ensures chart.Valid()
      ensures chart.listeners == old(chart.listeners) - RemoversOf(selectionRemover, resetZoomRemover)
      ensures chart.optionEvents == old(chart.optionEvents) - AxisEventsUpTo(|chart.axes|)
      ensures chart.series == old(chart.series) && chart.axes == old(chart.axes) && chart.calls == old(chart.calls)
      ensures chart.nextSerial == old(chart.nextSerial) && chart.hasRendered == old(chart.hasRendered)
    {
      if selectionRemover.Some? {
        chart.RemoveEvent(selectionRemover.value);
      }
      if resetZoomRemover.Some? {
        chart.RemoveEvent(resetZoomRemover.value);
      }
      var i := 0;
      while i < |chart.axes|
        invariant 0 <= i <= |chart.axes|
        invariant chart.optionEvents == old(chart.optionEvents) - AxisEventsUpTo(i)
        invariant chart.listeners == old(chart.listeners) - RemoversOf(selectionRemover, resetZoomRemover)
        invariant chart.Valid()
        invariant chart.series == old(chart.series) && chart.axes == old(chart.axes) && chart.calls == old(chart.calls)
        invariant chart.nextSerial == old(chart.nextSerial) && chart.hasRendered == old(chart.hasRendered)
      {
        chart.optionEvents := chart.optionEvents - {AfterSetExtremes(i)};
        i := i + 1;
        assert AxisEventsUpTo(i) == AxisEventsUpTo(i - 1) + {AfterSetExtremes(i - 1)};
      }
    }
  }

  /** The registrations held by the two `let` variables. */
  function RemoversOf(a: Option<Registration>, b: Option<Registration>): set<Registration>
  {
    (if a.Some? then {a.value} else {}) + (if b.Some? then {b.value} else {})
  }

  /** Attaching the emitter: a new emitter and its cleanup when the guard holds, nothing otherwise. */
  method AttachExtremesEmitter(c: Component, chart: Chart?) returns (t: Option<Teardown>, em: ExtremesEmitter?)
    ensures t.Some? <==> ExtremesEmitterAttaches(c, chart)
    ensures t.Some? ==> t.value == ExtremesEmitterCleanup
    ensures em != null <==> t.Some?
    ensures em != null ==> fresh(em) && em.chart == chart && em.selectionRemover.None? && em.resetZoomRemover.None?
  {
    t, em := None, null;
    if ExtremesEmitterAttaches(c, chart) {
      em := new ExtremesEmitter(chart);
      t := Some(ExtremesEmitterCleanup);
    }
  }

  /** The points of a series that are drawn inside the plot area, in order. */
  function InsidePoints(pts: seq<Point>): seq<Point>
  {
    if pts == [] then []
    else (if pts[0].isInside then [pts[0]] else []) + InsidePoints(pts[1..])
  }

  /** There are inside points exactly when some point is inside. */
  lemma {:induction false} InsidePointsEmpty(pts: seq<Point>)
    ensures InsidePoints(pts) == [] <==> forall j :: 0 <= j < |pts| ==> !pts[j].isInside
  {
    if pts != [] {
      InsidePointsEmpty(pts[1..]);
      assert forall j :: 1 <= j < |pts| ==> pts[j] == pts[1..][j - 1];
    }
  }

  /** The first inside point is the earliest point that is inside. */
  lemma {:induction false} InsidePointsFirst(pts: seq<Point>)
    requires InsidePoints(pts) != []
    ensures exists j ::
      0 <= j < |pts| && pts[j].isInside && InsidePoints(pts)[0] == pts[j] &&
      forall j' :: 0 <= j' < j ==> !pts[j'].isInside
  {
    if !pts[0].isInside {
      InsidePointsFirst(pts[1..]);
      var j :| 0 <= j < |pts[1..]| && pts[1..][j].isInside && InsidePoints(pts[1..])[0] == pts[1..][j] &&
        forall j' :: 0 <= j' < j ==> !pts[1..][j'].isInside;
      assert pts[j + 1] == pts[1..][j];
      forall j' | 0 <= j' < j + 1 ensures !pts[j'].isInside {
        if j' > 0 { assert pts[j'] == pts[1..][j' - 1]; }
      }
    }
  }

  /** The last inside point is the latest point that is inside. */
  lemma {:induction false} InsidePointsLast(pts: seq<Point>)
    requires InsidePoints(pts) != []
    ensures exists j ::
      0 <= j < |pts| && pts[j].isInside && InsidePoints(pts)[|InsidePoints(pts)| - 1] == pts[j] &&
      forall j' :: j < j' < |pts| ==> !pts[j'].isInside
  {
    var rest := InsidePoints(pts[1..]);
    if rest == [] {
      InsidePointsEmpty(pts[1..]);
      assert pts[0].isInside;
      forall j' | 0 < j' < |pts| ensures !pts[j'].isInside {
        assert pts[j'] == pts[1..][j' - 1];
      }
    } else {
      InsidePointsLast(pts[1..]);
      var j :| 0 <= j < |pts[1..]| && pts[1..][j].isInside && rest[|rest| - 1] == pts[1..][j] &&
        forall j' :: j < j' < |pts[1..]| ==> !pts[1..][j'].isInside;
      assert pts[j + 1] == pts[1..][j];
      forall j' | j + 1 < j' < |pts| ensures !pts[j'].isInside {
        assert pts[j'] == pts[1..][j' - 1];
      }
    }
  }

  /**
   * The min and max cursors for an axis whose first series is `s`: the row
   * and column are set only on an 'xAxis' with inside points; then the rows
   * are the first and last inside points' indices and the column is 'x' on
   * a datetime axis, otherwise the series name.
   */
  function ExtremesCursors(axis: Axis, s: Series): (Signal, Signal)
  {
    var inside := InsidePoints(s.points);
    if axis.coll == "xAxis" && |inside| > 0 then
      var column := if axis.dateTime then "x" else s.name;
      (Position(MinState(axis.coll), Some(inside[0].index), Some(column)),
       Position(MaxState(axis.coll), Some(inside[|inside| - 1].index), Some(column)))
    else
      (Position(MinState(axis.coll), None, None), Position(MaxState(axis.coll), None, None))
  }

  /** The native event an axis' `afterSetExtremes` delivers: the axis as target. */
  function AxisEvent(axis: Axis, resetSelection: bool): NativeEvent
  {
    NativeEvent(Some(AxisTarget(axis)), resetSelection)
  }

  /**
   * The cursor calls one `afterSetExtremes` event makes: none when the event
   * resets the selection or the axis has no series; otherwise the min then
   * the max cursor, both lasting, both carrying the event.
   */
  function ExtremesEmissions(tableId: string, axis: Axis, axisSeries: seq<Series>, resetSelection: bool): seq<CursorCall>
  {
    if resetSelection || axisSeries == [] then []
    else
      var e := AxisEvent(axis, resetSelection);
      var (minCursor, maxCursor) := ExtremesCursors(axis, axisSeries[0]);
      [Emit(tableId, minCursor, Some(e), true), Emit(tableId, maxCursor, Some(e), true)]
  }

  /**
   * The emissions' shape: nothing on a reset or with no series; otherwise
   * exactly the min cursor then the max cursor of the axis's kind, lasting,
   * with the axis as the event target.
   */
  lemma ExtremesEmissionsShape(tableId: string, axis: Axis, axisSeries: seq<Series>, resetSelection: bool)
    ensures ExtremesEmissions(tableId, axis, axisSeries, resetSelection) == [] <==> resetSelection || axisSeries == []
    ensures !resetSelection && axisSeries != [] ==>
      var r := ExtremesEmissions(tableId, axis, axisSeries, resetSelection);
      && |r| == 2
      && r[0].Emit? && r[0].table == tableId && r[0].signal.Position? && r[0].signal.state == axis.coll + ".extremes.min"
      && r[1].Emit? && r[1].table == tableId && r[1].signal.Position? && r[1].signal.state == axis.coll + ".extremes.max"
      && r[0].lasting && r[1].lasting
      && r[0].event == r[1].event == Some(NativeEvent(Some(AxisTarget(axis)), false))
  {
  }

  /**
   * Rows and columns: both cursors get a row and a column exactly when the
   * axis is an 'xAxis' and its first series has a point inside; the min row
   * is the index of the first inside point, the max row that of the last,
   * and the column is 'x' on a datetime axis, otherwise the series name.
   */
  lemma ExtremesCursorsRows(axis: Axis, s: Series)
    ensures var (mn, mx) := ExtremesCursors(axis, s);
      && (mn.row.Some? <==> axis.coll == "xAxis" && exists j :: 0 <= j < |s.points| && s.points[j].isInside)
      && (mn.row.Some? <==> mx.row.Some?) && (mn.row.Some? <==> mn.column.Some?) && (mx.row.Some? <==> mx.column.Some?)
      && (mn.column.Some? ==> mn.column == mx.column == Some(if axis.dateTime then "x" else s.name))
    ensures var (mn, mx) := ExtremesCursors(axis, s);
      mn.row.Some? ==>
        (exists j :: 0 <= j < |s.points| && s.points[j].isInside && mn.row.value == s.points[j].index &&
          forall j' :: 0 <= j' < j ==> !s.points[j'].isInside) &&
        (exists j :: 0 <= j < |s.points| && s.points[j].isInside && mx.row.value == s.points[j].index &&
          forall j' :: j < j' < |s.points| ==> !s.points[j'].isInside)
  {
    InsidePointsEmpty(s.points);
    if InsidePoints(s.points) != [] {
      InsidePointsFirst(s.points);
      InsidePointsLast(s.points);
    }
  }

  /** The `afterSetExtremes` event handler set on every axis. */
  method OnAfterSetExtremes(cursor: DataCursor, table: Table, axis: Axis, axisSeries: seq<Series>, resetSelection: bool)
    modifies cursor
    ensures cursor.calls == old(cursor.calls) + ExtremesEmissions(table.id, axis, axisSeries, resetSelection)
  {
    if !resetSelection {
      if axisSeries != [] {
        var series := axisSeries[0];
        var visiblePoints := InsidePoints(series.points);
        var minRow, maxRow, column := None, None, None;
        if axis.coll == "xAxis" && |visiblePoints| > 0 {
          minRow := Some(visiblePoints[0].index);
          maxRow := Some(visiblePoints[|visiblePoints| - 1].index);
          column := Some(if axis.dateTime then "x" else series.name);
        }
        var e := AxisEvent(axis, resetSelection);
        cursor.EmitCursor(table, Position(MinState(axis.coll), minRow, column), Some(e), true);
        cursor.EmitCursor(table, Position(MaxState(axis.coll), maxRow, column), Some(e), true);
      }
    }
  }

  /** The native event a chart event delivers: the chart as target. */
  function ChartNativeEvent(chartUid: int, resetSelection: bool): NativeEvent
  {
    NativeEvent(Some(ChartTarget(chartUid)), resetSelection)
  }

  /** The chart's 'selection' listener: a transient 'chart.resetSelection' cursor when the selection is reset. */
  method OnSelection(cursor: DataCursor, table: Table, chartUid: int, resetSelection: bool)
    modifies cursor
    ensures cursor.calls == old(cursor.calls) +
      if resetSelection
      then [Emit(table.id, Position(ResetSelectionState, None, None), Some(ChartNativeEvent(chartUid, resetSelection)), false)]
      else []
  {
    if resetSelection {
      var e := ChartNativeEvent(chartUid, resetSelection);
      cursor.EmitCursor(table, Position(ResetSelectionState, None, None), Some(e), false);
    }
  }

  /** The chart's 'afterShowResetZoom' listener: a transient 'chart.showResetZoom' cursor. */
  method OnAfterShowResetZoom(cursor: DataCursor, table: Table, chartUid: int)
    modifies cursor
    ensures cursor.calls == old(cursor.calls) +
      [Emit(table.id, Position(ShowResetZoomState, None, None), Some(ChartNativeEvent(chartUid, false)), false)]
  {
    cursor.EmitCursor(table, Position(ShowResetZoomState, None, None), Some(ChartNativeEvent(chartUid, false)), false);
  }

  // ---------------------------------------------------------------- handler

  /** The handler attaches only with a chart, a board, a connector and its table. */
  predicate ExtremesHandlerAttaches(c: Component, chart: Chart?)
  {
    chart != null && c.hasBoard && HasTable(c)
  }

  /** The six listeners the extremes handler registers, in order. */
  function ExtremesListeners(tableId: string): seq<CursorCall>
  {
    [ AddListener(tableId, MinState("xAxis"), HandleUpdateExtremes("xAxis")),
      AddListener(tableId, MaxState("xAxis"), HandleUpdateExtremes("xAxis")),
      AddListener(tableId, MinState("yAxis"), HandleUpdateExtremes("yAxis")),
      AddListener(tableId, MaxState("yAxis"), HandleUpdateExtremes("yAxis")),
      AddListener(tableId, ResetSelectionState, ResetSelectionListener),
      AddListener(tableId, ShowResetZoomState, ShowResetZoomListener) ]
  }

  /** Attaching the handler: register its listeners and return the remitting teardown. */
  method AttachExtremesHandler(c: Component, chart: Chart?, cursor: DataCursor) returns (t: Option<Teardown>)
    modifies cursor
    ensures t.Some? <==> ExtremesHandlerAttaches(c, chart)
    ensures t.Some? ==> t.value == RemitExtremes(c.connector.value.table.value.id)
    ensures cursor.calls == old(cursor.calls) +
      if ExtremesHandlerAttaches(c, chart) then ExtremesListeners(c.connector.value.table.value.id) else []
  {
    t := None;
    if chart != null && c.hasBoard && HasTable(c) {
      var tableId := c.connector.value.table.value.id;
      var dimensions := ["xAxis", "yAxis"];
      for k := 0 to 2
        invariant cursor.calls == old(cursor.calls) + ExtremesListeners(tableId)[..2 * k]
      {
        cursor.AddCursorListener(tableId, MinState(dimensions[k]), HandleUpdateExtremes(dimensions[k]));
        cursor.AddCursorListener(tableId, MaxState(dimensions[k]), HandleUpdateExtremes(dimensions[k]));
        assert ExtremesListeners(tableId)[..2 * (k + 1)] == ExtremesListeners(tableId)[..2 * k] +
          [ExtremesListeners(tableId)[2 * k], ExtremesListeners(tableId)[2 * k + 1]];
      }
      cursor.AddCursorListener(tableId, ResetSelectionState, ResetSelectionListener);
      cursor.AddCursorListener(tableId, ShowResetZoomState, ShowResetZoomListener);
      assert ExtremesListeners(tableId)[..4] + [ExtremesListeners(tableId)[4], ExtremesListeners(tableId)[5]]
        == ExtremesListeners(tableId);
      t := Some(RemitExtremes(tableId));
    }
  }

  /** The handler's teardown: remit the two xAxis extremes cursors, and nothing else. */
  method ExtremesHandlerCleanup(cursor: DataCursor, tableId: string)
    modifies cursor
    ensures cursor.calls == old(cursor.calls) +
      [Remit(tableId, Position(MinState("xAxis"), None, None)), Remit(tableId, Position(MaxState("xAxis"), None, None))]
  {
    cursor.RemitCursor(tableId, Position(MinState("xAxis"), None, None));
    cursor.RemitCursor(tableId, Position(MaxState("xAxis"), None, None));
  }

  /**
   * Axis `a` of the receiving chart (listed under `dimension`) is re-ranged
   * to the event target's extremes: same kind, not the target itself,
   * target min and max both non-null, and both the current max and min
   * differ from the target's.
   */
  predicate ExtremesGuard(dimension: string, t: Axis, a: Axis)
  {
    a.coll == dimension && t.coll == a.coll && t.uid != a.uid &&
    t.min != Null && t.max != Null &&
    a.max != t.max && a.min != t.min
  }

  /** The `setExtremes` calls made on the first `n` axes. */
  function ExtremesCallsUpTo(axes: seq<Axis>, dimension: string, t: Axis, n: nat): seq<ChartCall>
    requires n <= |axes|
  {
    if n == 0 then []
    else
      ExtremesCallsUpTo(axes, dimension, t, n - 1) +
      if ExtremesGuard(dimension, t, axes[n - 1]) then [SetExtremes(n - 1, t.min, t.max)] else []
  }

  /** The axis a cursor event points at, when its native event's target is an axis. */
  function TargetAxis(e: CursorEvent): Option<Axis>
  {
    if e.cursor.Position? && e.event.Some? && e.event.value.target.Some? && e.event.value.target.value.AxisTarget?
    then Some(e.event.value.target.value.axis)
    else None
  }

  /** The calls `handleUpdateExtremes` makes on a chart with these axes. */
  function UpdateExtremesCalls(axes: seq<Axis>, dimension: string, e: CursorEvent): seq<ChartCall>
  {
    match TargetAxis(e)
    case Some(t) => ExtremesCallsUpTo(axes, dimension, t, |axes|)
    case None => []
  }

  /**
   * What `handleUpdateExtremes` does: exactly one `setExtremes(target.min,
   * target.max)` per guarded axis, in axis order, and no other call.
   */
  lemma {:induction false} ExtremesCallsExactly(axes: seq<Axis>, dimension: string, t: Axis, n: nat)
    requires n <= |axes|
    ensures forall c :: c in ExtremesCallsUpTo(axes, dimension, t, n) ==>
      c.SetExtremes? && c.axis < n && ExtremesGuard(dimension, t, axes[c.axis]) && c.min == t.min && c.max == t.max
    ensures forall i :: 0 <= i < n && ExtremesGuard(dimension, t, axes[i]) ==>
      SetExtremes(i, t.min, t.max) in ExtremesCallsUpTo(axes, dimension, t, n)
  {
    if n > 0 {
      ExtremesCallsExactly(axes, dimension, t, n - 1);
    }
  }

  /**
   * Self-echo and equality guards: no axis is re-ranged by its own event,
   * none to a null extreme, and none that already has the target's min or
   * its max.
   */
  lemma ExtremesNoSelfEcho(axes: seq<Axis>, dimension: string, e: CursorEvent)
    ensures forall c :: c in UpdateExtremesCalls(axes, dimension, e) ==>
      c.SetExtremes? && c.axis < |axes| && TargetAxis(e).Some? &&
      axes[c.axis].uid != TargetAxis(e).value.uid &&
      axes[c.axis].coll == TargetAxis(e).value.coll == dimension &&
      c.min == TargetAxis(e).value.min && c.max == TargetAxis(e).value.max &&
      c.min != Null && c.max != Null &&
      axes[c.axis].min != c.min && axes[c.axis].max != c.max
  {
    if TargetAxis(e).Some? {
      ExtremesCallsExactly(axes, dimension, TargetAxis(e).value, |axes|);
    }
  }

  /**
   * An axis whose max already equals the target's is not re-ranged even if
   * its min differs: the guard requires both extremes to differ.
   */
  lemma ExtremesOneSidedChangeIgnored(axes: seq<Axis>, dimension: string, e: CursorEvent, i: int)
    requires 0 <= i < |axes| && TargetAxis(e).Some?
    requires axes[i].max == TargetAxis(e).value.max
    ensures forall c :: c in UpdateExtremesCalls(axes, dimension, e) ==> !(c.SetExtremes? && c.axis == i)
  {
    ExtremesNoSelfEcho(axes, dimension, e);
  }

  /**
   * Emitter to handler: a chart receiving either cursor emitted for an
   * axis re-ranges exactly its other axes of that kind whose min and max
   * both differ, to the emitting axis's min and max (when both are non-null).
   */
  lemma ExtremesEmitterToHandler(tableId: string, axis: Axis, axisSeries: seq<Series>, axes: seq<Axis>, k: int, i: int)
    requires axisSeries != [] && 0 <= k < 2 && 0 <= i < |axes|
    requires axis.coll == "xAxis" || axis.coll == "yAxis"
    requires axes[i].coll == axis.coll && axes[i].uid != axis.uid
    requires axis.min != Null && axis.max != Null
    requires axes[i].min != axis.min && axes[i].max != axis.max
    ensures var c := ExtremesEmissions(tableId, axis, axisSeries, false)[k];
      SetExtremes(i, axis.min, axis.max) in UpdateExtremesCalls(axes, axis.coll, CursorEvent(c.signal, c.event, c.table))
  {
    ExtremesCallsExactly(axes, axis.coll, axis, |axes|);
  }

  /** The `handleUpdateExtremes` listener registered under `dimension` ('xAxis' or 'yAxis'). */
  method HandleUpdateExtremesEvent(chart: Chart, dimension: string, e: CursorEvent)
    modifies chart
    ensures chart.calls == old(chart.calls) + UpdateExtremesCalls(old(chart.axes), dimension, e)
    ensures chart.series == old(chart.series) && chart.axes == old(chart.axes)
    ensures chart.listeners == old(chart.listeners) && chart.optionEvents == old(chart.optionEvents)
    ensures chart.nextSerial == old(chart.nextSerial) && chart.hasRendered == old(chart.hasRendered)
  {
    if e.cursor.Position? && e.event.Some? && e.event.value.target.Some? && e.event.value.target.value.AxisTarget? {
      var eventTarget := e.event.value.target.value.axis;
      var i := 0;
      while i < |chart.axes|
        invariant 0 <= i <= |chart.axes|
        invariant chart.calls == old(chart.calls) + ExtremesCallsUpTo(chart.axes, dimension, eventTarget, i)
        invariant chart.series == old(chart.series) && chart.axes == old(chart.axes)
        invariant chart.listeners == old(chart.listeners) && chart.optionEvents == old(chart.optionEvents)
        invariant chart.nextSerial == old(chart.nextSerial) && chart.hasRendered == old(chart.hasRendered)
      {
        var axis := chart.axes[i];
        if axis.coll == dimension && eventTarget.coll == axis.coll && eventTarget.uid != axis.uid {
          if eventTarget.min != Null && eventTarget.max != Null {
            if axis.max != eventTarget.max && axis.min != eventTarget.min {
              chart.SetAxisExtremes(i, eventTarget.min, eventTarget.max);
            }
          }
        }
        i := i + 1;
      }
    }
  }

  /** `eventTarget !== chart`: the event is missing, has no target, or targets something else. */
  predicate NotFromChart(e: CursorEvent, chartUid: int)
  {
    !(e.event.Some? && e.event.value.target == Some(ChartTarget(chartUid)))
  }

  /**
   * Self-echo: a chart-level cursor that chart `uid` emitted is ignored by
   * chart `uid`'s own listeners and acted on by every other chart's, and
   * a cursor without a native event is acted on by all.
   */
  lemma ChartCursorSelfEcho(sig: Signal, tableId: string, uid: int, other: int, resetSelection: bool)
    requires other != uid
    ensures !NotFromChart(CursorEvent(sig, Some(ChartNativeEvent(uid, resetSelection)), tableId), uid)
    ensures NotFromChart(CursorEvent(sig, Some(ChartNativeEvent(uid, resetSelection)), tableId), other)
    ensures NotFromChart(CursorEvent(sig, None, tableId), uid)
  {
  }

  /** The 'chart.resetSelection' listener: zoom out unless the chart itself sent the event. */
  method OnResetSelectionCursor(chart: Chart, e: CursorEvent)
    modifies chart
    ensures chart.calls == old(chart.calls) + if e.cursor.Position? && NotFromChart(e, chart.uid) then [ZoomOut] else []
    ensures chart.series == old(chart.series) && chart.axes == old(chart.axes)
    ensures chart.listeners == old(chart.listeners) && chart.optionEvents == old(chart.optionEvents)
    ensures chart.nextSerial == old(chart.nextSerial) && chart.hasRendered == old(chart.hasRendered)
  {
    var eventTarget := if e.event.Some? then e.event.value.target else None;
    if e.cursor.Position? && eventTarget != Some(ChartTarget(chart.uid)) {
      chart.CallZoomOut();
    }
  }

  /** The 'chart.showResetZoom' listener: show the reset-zoom button unless the chart itself sent the event. */
  method OnShowResetZoomCursor(chart: Chart, e: CursorEvent)
    modifies chart
    ensures chart.calls == old(chart.calls) + if e.cursor.Position? && NotFromChart(e, chart.uid) then [ShowResetZoom] else []
    ensures chart.series == old(chart.series) && chart.axes == old(chart.axes)
    ensures chart.listeners == old(chart.listeners) && chart.optionEvents == old(chart.optionEvents)
    ensures chart.nextSerial == old(chart.nextSerial) && chart.hasRendered == old(chart.hasRendered)
  {
    var eventTarget := if e.event.Some? then e.event.value.target else None;
    if e.cursor.Position? && eventTarget != Some(ChartTarget(chart.uid)) {
      chart.CallShowResetZoom();
    }
  }
}
