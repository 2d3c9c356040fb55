# Highcharts dashboard sync handlers, modelled in Dafny

This project models the synchronisation definitions that Highcharts
Dashboards attaches to a Highcharts component
(`ts/Extensions/DashboardPlugins/HighchartsSyncHandlers.ts`). Three named
behaviours — `extremes`, `highlight` and `visibility` — each pair an
*emitter*, which turns chart events into data-cursor emissions or a
shared-state update, with a *handler*, which turns a received cursor or
visibility event back into chart calls.

The chart world is plain data: `Point`, `Series`, `Axis` (with a `uid`
standing for object identity, and `min`/`max` as a number, `null` or
`undefined`) and the shared `Table` with its optional modifier (module
`Charts`, file `chart.dfy`). The chart object is a class, `Charts.Chart`,
holding the state the handlers read and change: its series (whose `visible`
flag `setVisible` changes), its axes, the option events and `addEvent`
listeners installed on it, and the log of chart-library calls made on it
(`setVisible`, `setExtremes`, tooltip `refresh`/`hide`, `zoomOut`,
`showResetZoom`). The board's data cursor and the group's shared state are
classes that keep the ordered log of the calls made on them
(`emitCursor`, `addListener`, `remitCursor`, `setColumnVisibility`), in
`cursor.dfy`.

Files:

- `wrappers.dfy` — `Option`.
- `chart.dfy` — the chart world and the `Chart` class.
- `cursor.dfy` — cursors, native events, listeners, the data cursor and shared state, the component record.
- `defaults.dfy` — the `defaults` name → emitter/handler table and the teardowns.
- `axis_map.dfy` — `getAxisMinMaxMap`.
- `matching.dfy` — `findMatchingPoint`.
- `highlight.dfy` — the highlight emitter and handler.
- `visibility.dfy` — the series-visibility emitter and handler.
- `extremes.dfy` — the extremes emitter (a class holding its two `let` removers) and handler.

Behaviour worth noting, modelled as the code has it:

- The extremes handler re-ranges an axis only when *both* its current max
  and min differ from the target's (`&&` at line 477-480), not when either
  differs; `ExtremesSync.ExtremesOneSidedChangeIgnored` states the consequence.
- The highlight handler returns no teardown, and the extremes handler's
  teardown only remits the two lasting `xAxis` cursors: neither removes the
  listeners it added.
- The series-visibility emitter attaches whenever the component is a
  Highcharts component; its other checks (connector, rendered chart, active
  group) happen inside the redraw listener.
- `getAxisMinMaxMap` and `findMatchingPoint` are defined in the file but
  not called by any of its emitters or handlers; they are modelled as the
  functions they are.
- A series visibility event toggles each receiving series whose id the
  emitting chart's map lacks: `visibilityMap[id]` is then undefined, and
  `setVisible(undefined)` toggles (`VisibilitySync.VisibilityRoundTrip`).
- The extremes emitter keeps only the removers of the most recent
  after-render in its two `let` variables, so its cleanup detaches only the
  'selection' and 'afterShowResetZoom' listeners of the last render
  (`ExtremesSync.ExtremesEmitter.Cleanup`).

## Model

| member | source | states |
|---|---|---|
| `AxisMinMax.IndexOfFirst` | ts/Extensions/DashboardPlugins/HighchartsSyncHandlers.ts:54-55 | `indexOf` returns -1 exactly when the needle occurs nowhere, otherwise the first position where it occurs (an empty needle is found at 0) |
| `AxisMinMax.ZoomCoversIff` | ts/Extensions/DashboardPlugins/HighchartsSyncHandlers.ts:54-56 | an axis is kept iff its `coll` is empty or its first letter occurs in the zoom type (an unset zoom type counts as "") |
| `AxisMinMax.AxisMinMaxMapExtremes` | ts/Extensions/DashboardPlugins/HighchartsSyncHandlers.ts:57-64 | every entry carries its covered axis's `coll`, and reports its min (max) exactly when that is a number, with that number; otherwise undefined |
| `AxisMinMax.AxisMinMaxMapAppend` | ts/Extensions/DashboardPlugins/HighchartsSyncHandlers.ts:53-67 | the map distributes over concatenation of the axis list, so entries keep the axes' order |
| `AxisMinMax.AxisMinMaxMapSingle` | ts/Extensions/DashboardPlugins/HighchartsSyncHandlers.ts:53-67 | one axis yields its entry exactly when the zoom type covers it, nothing otherwise |
| `AxisMinMax.AxisMinMaxMapMembers` | ts/Extensions/DashboardPlugins/HighchartsSyncHandlers.ts:53-67 | every covered axis has its entry in the map and every entry is that of a covered axis |
| `AxisMinMax.AxisMinMaxMapUnset` | ts/Extensions/DashboardPlugins/HighchartsSyncHandlers.ts:54-56 | with no zoom type (and non-empty `coll`s) the map is empty |
| `PointMatching.FirstMatchInIsFirst` | ts/Extensions/DashboardPlugins/HighchartsSyncHandlers.ts:90-96 | within a series, the point found is the first visible point at the hovered x of a visible series; none iff there is no such point |
| `PointMatching.MatchingPointIsFirst` | ts/Extensions/DashboardPlugins/HighchartsSyncHandlers.ts:85-98 | a point is returned iff some point of a series with the hover series' id is visible, in a visible series and at the hovered x; it is the first such in series-then-point order |
| `PointMatching.FindMatchingPoint` | ts/Extensions/DashboardPlugins/HighchartsSyncHandlers.ts:81-99 | the nested index loop with early return returns exactly that first match, and nothing when the hover point has no series |
| `HighlightSync.HighlightEmitterLifecycle` | ts/Extensions/DashboardPlugins/HighchartsSyncHandlers.ts:105-177 | on a Highcharts component with a board and a table, a render followed by the returned cleanup leaves no series with point events and the chart otherwise as before; without them nothing changes |
| `HighlightSync.HighlightAfterRender` | ts/Extensions/DashboardPlugins/HighchartsSyncHandlers.ts:116-155 | after a render, every series has mouseOver/mouseOut point events; nothing else on the chart changes |
| `HighlightSync.HighlightEmitterCleanup` | ts/Extensions/DashboardPlugins/HighchartsSyncHandlers.ts:159-173 | the cleanup unsets the point events of every series and changes nothing else |
| `HighlightSync.OnPointMouse` | ts/Extensions/DashboardPlugins/HighchartsSyncHandlers.ts:123-148 | a hover emits one transient cursor to the table: 'point.mouseOver' or 'point.mouseOut', row = offset + point index, column = series name |
| `HighlightSync.FirstNamed` | ts/Extensions/DashboardPlugins/HighchartsSyncHandlers.ts:363 | the filter's first element is the first series with that name; none iff no series has it |
| `HighlightSync.HighlightSeriesPicks` | ts/Extensions/DashboardPlugins/HighchartsSyncHandlers.ts:362-364 | with more than one series and a non-empty column the first series of that name is used, otherwise the first series |
| `HighlightSync.HighlightPointIff` | ts/Extensions/DashboardPlugins/HighchartsSyncHandlers.ts:359-372 | the tooltip moves to point p iff the cursor is a position with a row, the picked series is visible and p is its point at row - offset |
| `HighlightSync.HighlightRowResolves` | ts/Extensions/DashboardPlugins/HighchartsSyncHandlers.ts:359-370 | the row a mouseOver on point j emits (offset + `points[j].index`), received under the same offset, resolves by position to `points[points[j].index]`, or to nothing when there is none |
| `HighlightSync.HighlightRoundTrip` | ts/Extensions/DashboardPlugins/HighchartsSyncHandlers.ts:353-370 | when a point's index equals its position in the series, its mouseOver cursor resolves back to that same point |
| `HighlightSync.HandleCursorEvent` | ts/Extensions/DashboardPlugins/HighchartsSyncHandlers.ts:352-376 | the listener makes exactly one tooltip refresh, at that point, when there is one and the chart has a tooltip, and no other change |
| `HighlightSync.HandleCursorOutEvent` | ts/Extensions/DashboardPlugins/HighchartsSyncHandlers.ts:378-382 | the out-listener hides the tooltip iff the chart has series and a tooltip |
| `HighlightSync.AttachHighlightHandler` | ts/Extensions/DashboardPlugins/HighchartsSyncHandlers.ts:346-391 | with a board, a table and a data cursor, four listeners are added in order ('point.mouseOver', 'dataGrid.hoverRow' → handleCursor; 'point.mouseOut', 'dataGrid.hoverOut' → handleCursorOut); otherwise none |
| `VisibilitySync.VisibilityMapKeys` | ts/Extensions/DashboardPlugins/HighchartsSyncHandlers.ts:191-197 | the map has a key for exactly each series with a non-empty id |
| `VisibilitySync.VisibilityMapLastWins` | ts/Extensions/DashboardPlugins/HighchartsSyncHandlers.ts:192-196 | a key's value is the `visible` flag of the last series with that id |
| `VisibilitySync.VisibilityMapEmpty` | ts/Extensions/DashboardPlugins/HighchartsSyncHandlers.ts:198 | the map is empty iff no series has an id |
| `VisibilitySync.BuildVisibilityMap` | ts/Extensions/DashboardPlugins/HighchartsSyncHandlers.ts:190-197 | the loop fills exactly that map |
| `VisibilitySync.AttachSeriesVisibilityEmitter` | ts/Extensions/DashboardPlugins/HighchartsSyncHandlers.ts:180-207 | only a 'Highcharts' component gets a new 'redraw' listener, and the teardown returned is that listener's remover |
| `VisibilitySync.SeriesVisibilityEmitterCleanup` | ts/Extensions/DashboardPlugins/HighchartsSyncHandlers.ts:183 | the remover detaches exactly its own registration |
| `VisibilitySync.OnRedraw` | ts/Extensions/DashboardPlugins/HighchartsSyncHandlers.ts:184-202 | `setColumnVisibility(map, {sender: id})` is called once iff there is a connector, the chart has rendered, the map is non-empty and there is an active group |
| `VisibilitySync.ApplyVisibility` | ts/Extensions/DashboardPlugins/HighchartsSyncHandlers.ts:336-341 | series without an id are untouched; a series whose id is in the map takes that visibility; a series whose id is missing from the map is toggled (`setVisible(undefined)`); ids, names and points never change |
| `VisibilitySync.VisibilityCallsTargets` | ts/Extensions/DashboardPlugins/HighchartsSyncHandlers.ts:336-341 | every series with an id, and only those, gets `setVisible(map[id], false)` |
| `VisibilitySync.SeriesVisibilityHandler` | ts/Extensions/DashboardPlugins/HighchartsSyncHandlers.ts:333-343 | with a connector and a chart, the series become `ApplyVisibility` of the old ones and the calls are those `setVisible` calls in series order; otherwise nothing changes |
| `VisibilitySync.VisibilityRoundTrip` | ts/Extensions/DashboardPlugins/HighchartsSyncHandlers.ts:336-341 | matched by id: a receiving series takes the visibility of the emitting chart's last series with its id, is toggled when the emitting chart has no series with its id, and is untouched without an id |
| `VisibilitySync.VisibilityIdempotent` | ts/Extensions/DashboardPlugins/HighchartsSyncHandlers.ts:336-341 | applying a chart's own map to it (ids distinct) leaves its series unchanged |
| `ExtremesSync.AttachExtremesEmitter` | ts/Extensions/DashboardPlugins/HighchartsSyncHandlers.ts:210-221 | the emitter attaches, with a fresh emitter whose removers are unset, iff the component is 'Highcharts' with a connector, a chart and a board |
| `ExtremesSync.ExtremesEmitter.AfterRender` | ts/Extensions/DashboardPlugins/HighchartsSyncHandlers.ts:222-304 | every axis gets `afterSetExtremes`; one new 'selection' and one new 'afterShowResetZoom' listener are added and their removers stored |
| `ExtremesSync.ExtremesEmitter.Cleanup` | ts/Extensions/DashboardPlugins/HighchartsSyncHandlers.ts:307-324 | the stored removers that are set are called and `afterSetExtremes` is unset on every axis; nothing else changes |
| `ExtremesSync.InsidePointsEmpty` | ts/Extensions/DashboardPlugins/HighchartsSyncHandlers.ts:240-241 | there are inside points iff some point is inside |
| `ExtremesSync.InsidePointsFirst` | ts/Extensions/DashboardPlugins/HighchartsSyncHandlers.ts:254 | the first inside point is the earliest point that is inside |
| `ExtremesSync.InsidePointsLast` | ts/Extensions/DashboardPlugins/HighchartsSyncHandlers.ts:257 | the last inside point is the latest point that is inside |
| `ExtremesSync.ExtremesEmissionsShape` | ts/Extensions/DashboardPlugins/HighchartsSyncHandlers.ts:228-271 | nothing is emitted on a reset or for an axis without series; otherwise the `<coll>.extremes.min` then the `<coll>.extremes.max` cursor, both lasting, with the axis as event target |
| `ExtremesSync.ExtremesCursorsRows` | ts/Extensions/DashboardPlugins/HighchartsSyncHandlers.ts:253-259 | row and column are set iff the axis is 'xAxis' with an inside point; min row = first inside point's index, max row = last one's; column 'x' on a datetime axis, else the series name |
| `ExtremesSync.OnAfterSetExtremes` | ts/Extensions/DashboardPlugins/HighchartsSyncHandlers.ts:228-273 | the axis event handler makes exactly those emissions |
| `ExtremesSync.OnSelection` | ts/Extensions/DashboardPlugins/HighchartsSyncHandlers.ts:284-293 | a reset selection emits one transient 'chart.resetSelection' cursor carrying the chart event; any other selection emits nothing |
| `ExtremesSync.OnAfterShowResetZoom` | ts/Extensions/DashboardPlugins/HighchartsSyncHandlers.ts:295-302 | each 'afterShowResetZoom' emits one transient 'chart.showResetZoom' cursor carrying the chart event |
| `ExtremesSync.AttachExtremesHandler` | ts/Extensions/DashboardPlugins/HighchartsSyncHandlers.ts:397-524 | with a chart, a board and a table: the min/max listeners for 'xAxis' then 'yAxis', then the reset-selection and show-reset-zoom listeners, in that order, and a remitting teardown; otherwise nothing |
| `ExtremesSync.ExtremesHandlerCleanup` | ts/Extensions/DashboardPlugins/HighchartsSyncHandlers.ts:514-524 | the teardown remits exactly 'xAxis.extremes.min' then 'xAxis.extremes.max' |
| `ExtremesSync.ExtremesCallsExactly` | ts/Extensions/DashboardPlugins/HighchartsSyncHandlers.ts:474-485 | every guarded axis, and only those, gets `setExtremes(target.min, target.max)` |
| `ExtremesSync.ExtremesNoSelfEcho` | ts/Extensions/DashboardPlugins/HighchartsSyncHandlers.ts:475-483 | no axis is re-ranged by its own event, to a null extreme, or when its min or its max already equals the target's |
| `ExtremesSync.ExtremesOneSidedChangeIgnored` | ts/Extensions/DashboardPlugins/HighchartsSyncHandlers.ts:477-480 | an axis whose max already equals the target's is left alone even if its min differs |
| `ExtremesSync.ExtremesEmitterToHandler` | ts/Extensions/DashboardPlugins/HighchartsSyncHandlers.ts:466-493 | either extremes cursor, received by another chart, re-ranges each of its other axes of that kind whose min and max both differ to the emitting axis's extremes |
| `ExtremesSync.HandleUpdateExtremesEvent` | ts/Extensions/DashboardPlugins/HighchartsSyncHandlers.ts:467-489 | the listener's calls are exactly those `setExtremes` calls in axis order, and only when the event's target is an axis |
| `ExtremesSync.ChartCursorSelfEcho` | ts/Extensions/DashboardPlugins/HighchartsSyncHandlers.ts:496-511 | a chart cursor is ignored by the chart that sent it and acted on by any other chart, or when it carries no event |
| `ExtremesSync.OnResetSelectionCursor` | ts/Extensions/DashboardPlugins/HighchartsSyncHandlers.ts:496-503 | `zoomOut` is called once iff the cursor is a position not sent by this chart |
| `ExtremesSync.OnShowResetZoomCursor` | ts/Extensions/DashboardPlugins/HighchartsSyncHandlers.ts:505-511 | `showResetZoom` is called once iff the cursor is a position not sent by this chart |
| `SyncDefinitions.Defaults` | ts/Extensions/DashboardPlugins/HighchartsSyncHandlers.ts:533-537 | exactly 'extremes', 'highlight' and 'visibility' have a definition; any other name has none |
| `SyncDefinitions.DefaultsPairsBehaviour` | ts/Extensions/DashboardPlugins/HighchartsSyncHandlers.ts:533-537 | each name pairs the emitter and the handler of that same behaviour; only the 'visibility' handler is bound to a native event ('afterColumnVisibilityChange') |

## Left out

- The component's own event bus (`this.on('afterRender', …)`), the chart library's `addEvent` internals, `series.update` and `axis.update`: the after-render callbacks are methods the environment calls, and option events and listeners are recorded on the `Chart` object.
- `setExtremes`, `tooltip.refresh`/`hide`, `zoomOut` and `showResetZoom` are recorded as calls; what the chart library then does (re-ranging, redrawing, firing further events) is not modelled, so re-entrant emissions triggered by a handler's own calls are not modelled either.
- `Charts.Chart.SetSeriesVisible`: the effect of `setVisible` comes from the chart library, not from these files; the model gives it Highcharts' documented meaning (an undefined argument toggles visibility).
- The data cursor's registry (listener fan-out, storage and remitting of lasting cursors) and the group's shared state (merging, notifying members other than the sender): their source is not part of this model, so only the calls made on them are specified.
- The sync controller that starts emitters and handlers and runs their teardowns is not part of this model; teardowns are methods named by the `Teardown` values that attaching returns.
- The commented-out, timer-debounced extremes path (lines 404-462): dead code.
- Axis extremes and x values are JavaScript numbers; they are modelled as integers, since only equality and null checks are made on them (NaN is not modelled).
- The hover point's `y` is read but never used.
- `HighlightSync.HighlightRoundTrip`: holds only when the point's index equals its position in the series; the emitter sends `offset + point.index` and the handler looks the row up by position, so otherwise the tooltip lands on the point at position `index`, or nowhere (`HighlightSync.HighlightRowResolves`).
- `ExtremesSync.HandleUpdateExtremesEvent`: `chart[dimension]` is modelled as the chart's axes filtered by `coll`, in the chart's axis order, and `setExtremes` is addressed by position in `chart.axes`; that this is what the chart library's `xAxis`/`yAxis` arrays hold is not part of this model.
- `VisibilitySync.AttachSeriesVisibilityEmitter`: takes the chart as present; the code calls `addEvent` on `component.chart` without checking it.
- `ExtremesSync.OnAfterSetExtremes`: the series bound to the axis (`axis.series`) are passed in beside the axis, and the table comes from the connector, which the emitter does not check for a table.
- `ts/Dashboards/EditMode/EditRenderer.ts`, `ts/Dashboard/EditMode/EditRenderer.ts` (DOM construction) and `ts/Core/Color/Palettes.ts` (a constant table) are not part of this model.
