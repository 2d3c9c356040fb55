/**
 * The sync definitions table: each named behaviour pairs an emitter with a
 * handler. An emitter or handler that attaches may hand back a teardown,
 * named here by what it undoes.
 */
module SyncDefinitions {
  import opened Wrappers
  import opened Charts

  /** The teardowns the emitters and handlers return. */
  datatype Teardown =
    | ClearPointEvents        // highlight emitter: unset mouseOver/mouseOut on every series
    | RemoveRedrawListener(registration: Registration)  // visibility emitter: the remover `addEvent` returned
    | ExtremesEmitterCleanup  // extremes emitter: call the stored removers, unset afterSetExtremes
    | RemitExtremes(table: string)  // extremes handler: remit the lasting xAxis extremes cursors

  datatype EmitterId = HighlightEmitter | SeriesVisibilityEmitter | ExtremesEmitter

  datatype HandlerId = HighlightHandler | SeriesVisibilityHandler | ExtremesHandler

  /** One sync definition: an emitter and a handler. */
  datatype SyncPair = SyncPair(emitter: EmitterId, handler: HandlerId)

  /** The names `defaults` defines. */
  const SyncNames: set<string> := {"extremes", "highlight", "visibility"}

  /** The `defaults` table; any other name has no definition. */
  function Defaults(name: string): (p: Option<SyncPair>)
    ensures p.Some? <==> name in SyncNames
  {
    if name == "extremes" then Some(SyncPair(ExtremesEmitter, ExtremesHandler))
    else if name == "highlight" then Some(SyncPair(HighlightEmitter, HighlightHandler))
    else if name == "visibility" then Some(SyncPair(SeriesVisibilityEmitter, SeriesVisibilityHandler))
    else None
  }

  /** The behaviour an emitter belongs to. */
  function EmitterBehaviour(e: EmitterId): string
  {
    match e
    case HighlightEmitter => "highlight"
    case SeriesVisibilityEmitter => "visibility"
    case ExtremesEmitter => "extremes"
  }

  /** The behaviour a handler belongs to. */
  function HandlerBehaviour(h: HandlerId): string
  {
    match h
    case HighlightHandler => "highlight"
    case SeriesVisibilityHandler => "visibility"
    case ExtremesHandler => "extremes"
  }

  /**
   * The native event a handler config names: only the series-visibility
   * handler is bound to one ('afterColumnVisibilityChange'); the others are
   * bare functions.
   */
  function HandlerEvent(h: HandlerId): Option<string>
  {
    if h == SeriesVisibilityHandler then Some("afterColumnVisibilityChange") else None
  }

  /**
   * Each defined name pairs the emitter and the handler of that same
   * behaviour, so no two names share an emitter or a handler; only the
   * 'visibility' handler is bound to a native event.
   */
  lemma DefaultsPairsBehaviour(name: string)
    requires name in SyncNames
    ensures Defaults(name).Some?
    ensures EmitterBehaviour(Defaults(name).value.emitter) == name
    ensures HandlerBehaviour(Defaults(name).value.handler) == name
    ensures HandlerEvent(Defaults(name).value.handler).Some? <==> name == "visibility"
  {
  }
}
