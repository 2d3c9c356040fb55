/**
 * The chart world the synchronisation handlers read and change: points,
 * series, axes, the shared data table and the chart object itself.
 * The chart library's own operations are opaque here; the `Chart` class
 * records which of them were called, and with what.
 */
module Charts {
  import opened Wrappers

  /** A drawn point: its index in the series' data, its x value, and its drawing state. */
  datatype Point = Point(index: int, x: int, visible: bool, isInside: bool)

  /** A series: `options.id` (may be unset), its name, whether it is shown, and its points. */
  datatype Series = Series(id: Option<string>, name: string, visible: bool, points: seq<Point>)

  /** What `axis.min` or `axis.max` holds: a number, `null`, or `undefined`. */
  datatype Extreme = Num(n: int) | Null | Undefined

  /**
   * An axis. `uid` stands for the object's identity (two distinct axis
   * objects have distinct uids); `coll` is 'xAxis', 'yAxis', ...
   */
  datatype Axis = Axis(uid: int, coll: string, min: Extreme, max: Extreme, dateTime: bool)

  /** A table modifier; only a range modifier offers `getModifiedTableOffset`, with the offset it reports. */
  datatype Modifier = RangeModifier(offset: int) | OtherModifier

  /** The shared data table: its id and its current modifier, if any. */
  datatype Table = Table(id: string, modifier: Option<Modifier>)

  /** JavaScript truthiness of an optional string: unset and "" are both false. */
  predicate Truthy(s: Option<string>)
  {
    s.Some? && s.value != ""
  }

  /**
   * The row offset asked of the table at emission time: the range modifier's
   * offset, or 0 when there is no modifier or it lacks `getModifiedTableOffset`.
   */
  function TableOffset(t: Table): (o: int)
    ensures t.modifier.None? ==> o == 0
    ensures t.modifier == Some(OtherModifier) ==> o == 0
    ensures forall k :: t.modifier == Some(RangeModifier(k)) ==> o == k
  {
    match t.modifier
    case Some(RangeModifier(k)) => k
    case _ => 0
  }

  /** Option-based event handlers set through `series.update` / `axis.update`. */
  datatype OptionEvent = PointMouseEvents(series: nat) | AfterSetExtremes(axis: nat)

  /** Chart events the handlers listen to with `addEvent(chart, ...)`. */
  datatype ChartEvent = Redraw | Selection | AfterShowResetZoom

  /**
   * One `addEvent` registration: the event and a serial number that tells
   * registrations apart. The remover `addEvent` returns removes exactly this
   * registration.
   */
  datatype Registration = Registration(event: ChartEvent, serial: nat)

  /** Calls made on the chart library. */
  datatype ChartCall =
    | SetVisible(series: nat, visible: Option<bool>, redraw: bool)
    | SetExtremes(axis: nat, min: Extreme, max: Extreme)
    | TooltipRefresh(point: Point)
    | TooltipHide
    | ZoomOut
    | ShowResetZoom

  /** The visibility a series takes from `setVisible(vis)`: `vis`, or toggled when `vis` is undefined. */
  function VisibleAfter(vis: Option<bool>, current: bool): bool
  {
    match vis
    case Some(v) => v
    case None => !current
  }

  /** A rendered chart, as the synchronisation handlers see and change it. */
  class Chart {
    const uid: int
    const hasTooltip: bool
    var series: seq<Series>
    var axes: seq<Axis>
    var hasRendered: bool
    var optionEvents: set<OptionEvent>
    var listeners: set<Registration>
    var nextSerial: nat
    var calls: seq<ChartCall>

    constructor (uid: int, hasTooltip: bool, series: seq<Series>, axes: seq<Axis>, hasRendered: bool)
      ensures this.uid == uid && this.hasTooltip == hasTooltip
      ensures this.series == series && this.axes == axes && this.hasRendered == hasRendered
      ensures optionEvents == {} && listeners == {} && calls == []
      ensures nextSerial == 0
    {
      this.uid := uid;
      this.hasTooltip := hasTooltip;
      this.series := series;
      this.axes := axes;
      this.hasRendered := hasRendered;
      optionEvents := {};
      listeners := {};
      nextSerial := 0;
      calls := [];
    }

    /** `series[i].setVisible(vis, redraw)`. */
    method SetSeriesVisible(i: nat, vis: Option<bool>, redraw: bool)
      requires i < |series|
      modifies this
      ensures series == old(series)[i := old(series)[i].(visible := VisibleAfter(vis, old(series)[i].visible))]
      ensures calls == old(calls) + [SetVisible(i, vis, redraw)]
      ensures axes == old(axes) && hasRendered == old(hasRendered)
      ensures optionEvents == old(optionEvents) && listeners == old(listeners) && nextSerial == old(nextSerial)
    {
      series := series[i := series[i].(visible := VisibleAfter(vis, series[i].visible))];
      calls := calls + [SetVisible(i, vis, redraw)];
    }

    /** `axes[i].setExtremes(min, max)`; the re-ranging itself belongs to the chart library. */
    method SetAxisExtremes(i: nat, min: Extreme, max: Extreme)
      requires i < |axes|
      modifies this`calls
      ensures calls == old(calls) + [SetExtremes(i, min, max)]
    {
      calls := calls + [SetExtremes(i, min, max)];
    }

    /** `chart.tooltip && chart.tooltip.refresh(point)`. */
    method RefreshTooltip(p: Point)
      modifies this`calls
      ensures calls == old(calls) + (if hasTooltip then [TooltipRefresh(p)] else [])
    {
      if hasTooltip {
        calls := calls + [TooltipRefresh(p)];
      }
    }

    /** `chart.tooltip && chart.tooltip.hide()`. */
    method HideTooltip()
      modifies this`calls
      ensures calls == old(calls) + (if hasTooltip then [TooltipHide] else [])
    {
      if hasTooltip {
        calls := calls + [TooltipHide];
      }
    }

    /** `chart.zoomOut()`. */
    method CallZoomOut()
      modifies this`calls
      ensures calls == old(calls) + [ZoomOut]
    {
      calls := calls + [ZoomOut];
    }

    /** `chart.showResetZoom()`. */
    method CallShowResetZoom()
      modifies this`calls
      ensures calls == old(calls) + [ShowResetZoom]
    {
      calls := calls + [ShowResetZoom];
    }

    /** Every registration carries a serial below `nextSerial`. */
    ghost predicate Valid()
      reads this
    {
      forall r :: r in listeners ==> r.serial < nextSerial
    }

    /** `addEvent(chart, name, fn)`: a new registration for `ev`, returned as the handle of its remover. */
    method AddEvent(ev: ChartEvent) returns (r: Registration)
      requires Valid()
      modifies this`listeners, this`nextSerial
      ensures Valid()
      ensures r.event == ev && r !in old(listeners)
      ensures listeners == old(listeners) + {r}
      ensures nextSerial == old(nextSerial) + 1
    {
      r := Registration(ev, nextSerial);
      listeners := listeners + {r};
      nextSerial := nextSerial + 1;
    }

    /** Calling the remover of registration `r`: takes `r` away if it is still there. */
    method RemoveEvent(r: Registration)
      requires Valid()
      modifies this`listeners
      ensures Valid()
      ensures listeners == old(listeners) - {r}
    {
      listeners := listeners - {r};
    }
  }
}
