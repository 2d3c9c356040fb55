/**
 * The `highlight` sync: hovering a point emits a position cursor (row =
 * table offset + point index, column = series name); a received position
 * cursor moves the tooltip to the point at row - offset.
 */
module HighlightSync {
  import opened Wrappers
  import opened Charts
  import opened Cursors
  import opened SyncDefinitions

  /** The cursor state names of the two hover events. */
  const MouseOver := "point.mouseOver"
  const MouseOut := "point.mouseOut"

  /** The emitter attaches, and returns its cleanup, only on a Highcharts component with a board and a table. */
  function HighlightEmitterAttach(c: Component): (t: Option<Teardown>)
    ensures t.Some? <==> c.kind == "Highcharts" && c.hasBoard && HasTable(c)
    ensures t.Some? ==> t.value == ClearPointEvents
  {
    if c.kind == "Highcharts" && c.hasBoard && HasTable(c) then Some(ClearPointEvents) else None
  }

  /** The point-event handlers of series 0 .. n-1. */
  function PointEventsUpTo(n: nat): set<OptionEvent>
  {
    set i: nat | i < n :: PointMouseEvents(i)
  }

  /** After each render: set the mouseOver/mouseOut point events on every series. */
  method HighlightAfterRender(chart: Chart?)
    modifies chart
    ensures chart != null ==> chart.optionEvents == old(chart.optionEvents) + PointEventsUpTo(|chart.series|)
    ensures chart != null ==> chart.series == old(chart.series) && chart.axes == old(chart.axes)
    ensures chart != null ==> chart.listeners == old(chart.listeners) && chart.calls == old(chart.calls)
    ensures chart != null ==> chart.nextSerial == old(chart.nextSerial) && chart.hasRendered == old(chart.hasRendered)
  {
    if chart != null {
      var i := 0;
      while i < |chart.series|
        invariant 0 <= i <= |chart.series|
        invariant chart.optionEvents == old(chart.optionEvents) + PointEventsUpTo(i)
        invariant chart.series == old(chart.series) && chart.axes == old(chart.axes)
        invariant chart.listeners == old(chart.listeners) && chart.calls == old(chart.calls)
        invariant chart.nextSerial == old(chart.nextSerial) && chart.hasRendered == old(chart.hasRendered)
      {
        chart.optionEvents := chart.optionEvents + {PointMouseEvents(i)};
        i := i + 1;
        assert PointEventsUpTo(i) == PointEventsUpTo(i - 1) + {PointMouseEvents(i - 1)};
      }
    }
  }

  /** The emitter's cleanup: unset the point events on every series. */
  method HighlightEmitterCleanup(chart: Chart?)
    modifies chart
    ensures chart != null ==> chart.optionEvents == old(chart.optionEvents) - PointEventsUpTo(|chart.series|)
    ensures chart != null ==> chart.series == old(chart.series) && chart.axes == old(chart.axes)
    ensures chart != null ==> chart.listeners == old(chart.listeners) && chart.calls == old(chart.calls)
    ensures chart != null ==> chart.nextSerial == old(chart.nextSerial) && chart.hasRendered == old(chart.hasRendered)
  {
    if chart != null {
      var i := 0;
      while i < |chart.series|
        invariant 0 <= i <= |chart.series|
        invariant chart.optionEvents == old(chart.optionEvents) - PointEventsUpTo(i)
        invariant chart.series == old(chart.series) && chart.axes == old(chart.axes)
        invariant chart.listeners == old(chart.listeners) && chart.calls == old(chart.calls)
        invariant chart.nextSerial == old(chart.nextSerial) && chart.hasRendered == old(chart.hasRendered)
      {
        chart.optionEvents := chart.optionEvents - {PointMouseEvents(i)};
        i := i + 1;
        assert PointEventsUpTo(i) == PointEventsUpTo(i - 1) + {PointMouseEvents(i - 1)};
      }
    }
  }

  /**
   * An attached emitter's life on one chart: a render, then the cleanup the
   * attach returned. No series is left with point events, and the chart's
   * other option events, listeners, series and calls are as before; an
   * emitter that did not attach changes nothing.
   */
  method HighlightEmitterLifecycle(c: Component, chart: Chart?)
    modifies chart
    ensures chart != null && HighlightEmitterAttach(c).Some? ==>
      forall i: nat :: i < |chart.series| ==> PointMouseEvents(i) !in chart.optionEvents
    ensures chart != null && HighlightEmitterAttach(c).Some? ==>
      chart.optionEvents == old(chart.optionEvents) - PointEventsUpTo(|chart.series|)
    ensures chart != null && HighlightEmitterAttach(c).None? ==> chart.optionEvents == old(chart.optionEvents)
    ensures chart != null ==> chart.series == old(chart.series) && chart.axes == old(chart.axes)
    ensures chart != null ==> chart.listeners == old(chart.listeners) && chart.calls == old(chart.calls)
    ensures chart != null ==> chart.nextSerial == old(chart.nextSerial) && chart.hasRendered == old(chart.hasRendered)
  {
    var t := HighlightEmitterAttach(c);
    if t.Some? && t.value == ClearPointEvents {
      HighlightAfterRender(chart);
      HighlightEmitterCleanup(chart);
      if chart != null {
        assert old(chart.optionEvents) + PointEventsUpTo(|chart.series|) - PointEventsUpTo(|chart.series|) ==
          old(chart.optionEvents) - PointEventsUpTo(|chart.series|);
      }
    }
  }

  /** The cursor a hover over point `p` of series `s` emits: row offset + index, column the series name. */
  function HighlightSignal(table: Table, s: Series, p: Point, over: bool): Signal
  {
    Position(if over then MouseOver else MouseOut, Some(TableOffset(table) + p.index), Some(s.name))
  }

  /** The `mouseOver` (over) or `mouseOut` point event: one transient cursor on the table. */
  method OnPointMouse(cursor: DataCursor, table: Table, s: Series, p: Point, over: bool)
    modifies cursor
    ensures cursor.calls == old(cursor.calls) + [Emit(table.id, HighlightSignal(table, s, p, over), None, false)]
  {
    var offset := TableOffset(table);
    cursor.EmitCursor(table, Position(if over then MouseOver else MouseOut, Some(offset + p.index), Some(s.name)), None, false);
  }

  /** The first series named `name`. */
  function FirstNamed(ss: seq<Series>, name: string): (r: Option<Series>)
    ensures r.None? <==> forall i :: 0 <= i < |ss| ==> ss[i].name != name
    ensures r.Some? ==>
      exists i :: 0 <= i < |ss| && ss[i] == r.value && ss[i].name == name &&
        forall i' :: 0 <= i' < i ==> ss[i'].name != name
  {
    if ss == [] then None
    else if ss[0].name == name then Some(ss[0])
    else
      var r := FirstNamed(ss[1..], name);
      assert forall i :: 1 <= i < |ss| ==> ss[i] == ss[1..][i - 1];
      r
  }

  /**
   * `const [series] = chart.series.length > 1 && cursor.column ?
   * chart.series.filter(name === column) : chart.series`.
   */
  function HighlightSeries(ss: seq<Series>, column: Option<string>): Option<Series>
  {
    if |ss| > 1 && Truthy(column) then FirstNamed(ss, column.value)
    else if ss == [] then None
    else Some(ss[0])
  }

  /** `points[k]`, undefined outside the array. */
  function PointAt(pts: seq<Point>, k: int): (r: Option<Point>)
    ensures r.Some? <==> 0 <= k < |pts|
    ensures r.Some? ==> r.value == pts[k]
  {
    if 0 <= k < |pts| then Some(pts[k]) else None
  }

  /** The point a received cursor shows the tooltip at, if any. */
  function HighlightPoint(ss: seq<Series>, sig: Signal, offset: int): Option<Point>
  {
    if ss == [] || !sig.Position? || sig.row.None? then None
    else
      match HighlightSeries(ss, sig.column)
      case None => None
      case Some(s) => if s.visible then PointAt(s.points, sig.row.value - offset) else None
  }

  /**
   * The series the handler picks: with more than one series and a column,
   * the first series of that name (none if there is none); otherwise the
   * first series.
   */
  lemma HighlightSeriesPicks(ss: seq<Series>, column: Option<string>)
    ensures |ss| > 1 && Truthy(column) ==>
      (HighlightSeries(ss, column).None? <==> forall i :: 0 <= i < |ss| ==> ss[i].name != column.value)
    ensures |ss| > 1 && Truthy(column) && HighlightSeries(ss, column).Some? ==>
      exists i :: 0 <= i < |ss| && ss[i] == HighlightSeries(ss, column).value && ss[i].name == column.value &&
        forall i' :: 0 <= i' < i ==> ss[i'].name != column.value
    ensures !(|ss| > 1 && Truthy(column)) ==>
      HighlightSeries(ss, column) == if ss == [] then None else Some(ss[0])
  {
  }

  /**
   * A received cursor refreshes the tooltip only if it is a position with a
   * row, the picked series is visible, and row - offset is one of its points;
   * the point shown is then that one.
   */
  lemma HighlightPointIff(ss: seq<Series>, sig: Signal, offset: int, p: Point)
    ensures HighlightPoint(ss, sig, offset) == Some(p) <==>
      sig.Position? && sig.row.Some? && HighlightSeries(ss, sig.column).Some? &&
      HighlightSeries(ss, sig.column).value.visible &&
      0 <= sig.row.value - offset < |HighlightSeries(ss, sig.column).value.points| &&
      p == HighlightSeries(ss, sig.column).value.points[sig.row.value - offset]
  {
  }

  /**
   * Where a hover over point j of series k lands: the mouseOver cursor
   * carries row offset + `points[j].index`, and a chart with the same series
   * that receives it under the same table offset looks that row up by
   * position, so it shows the tooltip at `points[points[j].index]`, or
   * nowhere when there is no point there. This holds when the series is
   * visible and the handler picks series k (the first series of its name,
   * or the first series when the name cannot select).
   */
  lemma HighlightRowResolves(ss: seq<Series>, k: int, j: int, table: Table)
    requires 0 <= k < |ss| && 0 <= j < |ss[k].points|
    requires ss[k].visible
    requires k == 0 || ss[k].name != ""
    requires forall k' :: 0 <= k' < k ==> ss[k'].name != ss[k].name
    ensures HighlightPoint(ss, HighlightSignal(table, ss[k], ss[k].points[j], true), TableOffset(table)) ==
      PointAt(ss[k].points, ss[k].points[j].index)
  {
    var sig := HighlightSignal(table, ss[k], ss[k].points[j], true);
    if |ss| > 1 && Truthy(sig.column) {
      var r := FirstNamed(ss, ss[k].name);
      var i :| 0 <= i < |ss| && ss[i] == r.value && ss[i].name == ss[k].name &&
        forall i' :: 0 <= i' < i ==> ss[i'].name != ss[k].name;
      assert i == k;
    }
  }

  /**
   * Round trip: when point j's index is its position in the series, the
   * mouseOver cursor it emits resolves back to that very point.
   */
  lemma HighlightRoundTrip(ss: seq<Series>, k: int, j: int, table: Table)
    requires 0 <= k < |ss| && 0 <= j < |ss[k].points|
    requires ss[k].points[j].index == j
    requires ss[k].visible
    requires k == 0 || ss[k].name != ""
    requires forall k' :: 0 <= k' < k ==> ss[k'].name != ss[k].name
    ensures HighlightPoint(ss, HighlightSignal(table, ss[k], ss[k].points[j], true), TableOffset(table)) ==
      Some(ss[k].points[j])
  {
    HighlightRowResolves(ss, k, j, table);
  }

  /** The `handleCursor` listener (for 'point.mouseOver' and 'dataGrid.hoverRow'). */
  method HandleCursorEvent(chart: Chart?, table: Table, e: CursorEvent)
    modifies chart
    ensures chart != null ==>
      chart.calls == old(chart.calls) +
        match HighlightPoint(chart.series, e.cursor, TableOffset(table))
        case Some(p) => if chart.hasTooltip then [TooltipRefresh(p)] else []
        case None => []
    ensures chart != null ==> chart.series == old(chart.series) && chart.axes == old(chart.axes)
    ensures chart != null ==> chart.listeners == old(chart.listeners) && chart.optionEvents == old(chart.optionEvents)
    ensures chart != null ==> chart.nextSerial == old(chart.nextSerial) && chart.hasRendered == old(chart.hasRendered)
  {
    var offset := TableOffset(table);
    if chart != null && |chart.series| > 0 {
      var c := e.cursor;
      if c.Position? {
        var series := HighlightSeries(chart.series, c.column);
        if series.Some? && series.value.visible && c.row.Some? {
          var point := PointAt(series.value.points, c.row.value - offset);
          if point.Some? {
            chart.RefreshTooltip(point.value);
          }
        }
      }
    }
  }

  /** The `handleCursorOut` listener (for 'point.mouseOut' and 'dataGrid.hoverOut'). */
  method HandleCursorOutEvent(chart: Chart?)
    modifies chart
    ensures chart != null ==>
      chart.calls == old(chart.calls) + if |chart.series| > 0 && chart.hasTooltip then [TooltipHide] else []
    ensures chart != null ==> chart.series == old(chart.series) && chart.axes == old(chart.axes)
    ensures chart != null ==> chart.listeners == old(chart.listeners) && chart.optionEvents == old(chart.optionEvents)
    ensures chart != null ==> chart.nextSerial == old(chart.nextSerial) && chart.hasRendered == old(chart.hasRendered)
  {
    if chart != null && |chart.series| > 0 {
      chart.HideTooltip();
    }
  }

  /** The four listeners the highlight handler registers, in order. */
  function HighlightListeners(tableId: string): seq<CursorCall>
  {
    [ AddListener(tableId, MouseOver, HandleCursor),
      AddListener(tableId, "dataGrid.hoverRow", HandleCursor),
      AddListener(tableId, MouseOut, HandleCursorOut),
      AddListener(tableId, "dataGrid.hoverOut", HandleCursorOut) ]
  }

  /**
   * The highlight handler: with a board, a table and a data cursor on the
   * board, register the four listeners; it returns no teardown.
   */
  method AttachHighlightHandler(c: Component, cursor: DataCursor?)
    modifies cursor
    ensures cursor != null ==>
      cursor.calls == old(cursor.calls) +
        (if c.hasBoard && HasTable(c) then HighlightListeners(c.connector.value.table.value.id) else [])
  {
    if c.hasBoard && HasTable(c) {
      var tableId := c.connector.value.table.value.id;
      if cursor != null {
        cursor.AddCursorListener(tableId, MouseOver, HandleCursor);
        cursor.AddCursorListener(tableId, "dataGrid.hoverRow", HandleCursor);
        cursor.AddCursorListener(tableId, MouseOut, HandleCursorOut);
        cursor.AddCursorListener(tableId, "dataGrid.hoverOut", HandleCursorOut);
      }
    }
  }
}
