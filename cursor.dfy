/**
 * The dashboard's data cursor and shared component state, seen only
 * through the calls the synchronisation handlers make on them. The
 * registry behind `emitCursor` (listener fan-out, storage of lasting
 * cursors) is not part of this model: each object keeps the ordered
 * log of calls it received.
 */
module Cursors {
  import opened Wrappers
  import opened Charts

  /** A cursor: a position (optional row and column) or a range, tagged with its state name. */
  datatype Signal =
    | Position(state: string, row: Option<int>, column: Option<string>)
    | Range(state: string)

  /** What a native event's `target` refers to: an axis or a chart (by its uid). */
  datatype Target = AxisTarget(axis: Axis) | ChartTarget(chart: int)

  /** A native chart event passed along with a cursor; only its target and `resetSelection` are read. */
  datatype NativeEvent = NativeEvent(target: Option<Target>, resetSelection: bool)

  /** The listener functions the handlers register. */
  datatype Listener =
    | HandleCursor
    | HandleCursorOut
    | HandleUpdateExtremes(dimension: string)
    | ResetSelectionListener
    | ShowResetZoomListener

  /** One call on the data cursor. */
  datatype CursorCall =
    | Emit(table: string, signal: Signal, event: Option<NativeEvent>, lasting: bool)
    | AddListener(table: string, state: string, listener: Listener)
    | Remit(table: string, signal: Signal)

  /** What a listener receives: the cursor, the native event emitted with it, and the table id. */
  datatype CursorEvent = CursorEvent(cursor: Signal, event: Option<NativeEvent>, table: string)

  /** The board's data cursor, reduced to the calls made on it, in order. */
  class DataCursor {
    var calls: seq<CursorCall>

    constructor ()
      ensures calls == []
    {
      calls := [];
    }

    /** `emitCursor(table, signal, event, lasting)`. */
    method EmitCursor(table: Table, signal: Signal, event: Option<NativeEvent>, lasting: bool)
      modifies this
      ensures calls == old(calls) + [Emit(table.id, signal, event, lasting)]
    {
      calls := calls + [Emit(table.id, signal, event, lasting)];
    }

    /** `addListener(tableId, state, listener)`. */
    method AddCursorListener(tableId: string, state: string, listener: Listener)
      modifies this
      ensures calls == old(calls) + [AddListener(tableId, state, listener)]
    {
      calls := calls + [AddListener(tableId, state, listener)];
    }

    /** `remitCursor(tableId, signal)`. */
    method RemitCursor(tableId: string, signal: Signal)
      modifies this
      ensures calls == old(calls) + [Remit(tableId, signal)]
    {
      calls := calls + [Remit(tableId, signal)];
    }
  }

  /** A call `setColumnVisibility(visibilityMap, {sender})` on a group's shared state. */
  datatype ColumnVisibilityCall = SetColumnVisibility(visibilityMap: map<string, bool>, sender: string)

  /** The active group's shared state, reduced to the calls made on it. */
  class SharedState {
    var calls: seq<ColumnVisibilityCall>

    constructor ()
      ensures calls == []
    {
      calls := [];
    }

    method SetColumnVisibilityOf(visibilityMap: map<string, bool>, sender: string)
      modifies this
      ensures calls == old(calls) + [SetColumnVisibility(visibilityMap, sender)]
    {
      calls := calls + [SetColumnVisibility(visibilityMap, sender)];
    }
  }

  /** A dashboard component, reduced to what the sync handlers test before attaching. */
  datatype Component = Component(
    kind: string,
    id: string,
    hasBoard: bool,
    connector: Option<Connector>,
    hasActiveGroup: bool)

  /** A component's connector and the table it serves, if any. */
  datatype Connector = Connector(table: Option<Table>)

  /** `this.connector && this.connector.table`. */
  predicate HasTable(c: Component)
  {
    c.connector.Some? && c.connector.value.table.Some?
  }
}
