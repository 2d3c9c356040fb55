/**
 * The `visibility` sync: after a redraw the emitter publishes a
 * series-id -> visible map to the active group's shared state; the handler
 * applies a received map to its own series with `setVisible(map[id], false)`.
 */
module VisibilitySync {
  import opened Wrappers
  import opened Charts
  import opened Cursors
  import opened SyncDefinitions

  /** `if (series.options.id)`: the series has a non-empty id. */
  predicate HasId(s: Series)
  {
    Truthy(s.id)
  }

  /** The map the redraw listener builds: each id'd series' id to its `visible`; a later series wins. */
  function VisibilityMapOf(ss: seq<Series>): map<string, bool>
  {
    if ss == [] then map[]
    else
      var s := ss[|ss| - 1];
      var m := VisibilityMapOf(ss[..|ss| - 1]);
      if HasId(s) then m[s.id.value := s.visible] else m
  }

  /** The map's keys are exactly the ids of the series that have one. */
  lemma {:induction false} VisibilityMapKeys(ss: seq<Series>)
    ensures forall k :: k in VisibilityMapOf(ss) <==> exists i :: 0 <= i < |ss| && HasId(ss[i]) && ss[i].id.value == k
  {
    if ss != [] {
      var init := ss[..|ss| - 1];
      VisibilityMapKeys(init);
      assert forall i :: 0 <= i < |init| ==> init[i] == ss[i];
    }
  }

  /** The value for an id is the `visible` of the last series carrying that id. */
  lemma {:induction false} VisibilityMapLastWins(ss: seq<Series>, i: int)
    requires 0 <= i < |ss| && HasId(ss[i])
    requires forall j :: i < j < |ss| ==> ss[j].id != ss[i].id
    ensures ss[i].id.value in VisibilityMapOf(ss)
    ensures VisibilityMapOf(ss)[ss[i].id.value] == ss[i].visible
  {
    var init := ss[..|ss| - 1];
    if i < |ss| - 1 {
      assert init[i] == ss[i];
      VisibilityMapLastWins(init, i);
    }
  }

  /** The map is empty exactly when no series has an id. */
  lemma VisibilityMapEmpty(ss: seq<Series>)
    ensures |VisibilityMapOf(ss)| == 0 <==> forall i :: 0 <= i < |ss| ==> !HasId(ss[i])
  {
    VisibilityMapKeys(ss);
    var m := VisibilityMapOf(ss);
    if |m| == 0 {
      assert m == map[];
    } else {
      var k :| k in m;
    }
  }

  /** The redraw listener's loop: fill the map series by series. */
  method BuildVisibilityMap(ss: seq<Series>) returns (m: map<string, bool>)
    ensures m == VisibilityMapOf(ss)
  {
    m := map[];
    var i := 0;
    while i < |ss|
      invariant 0 <= i <= |ss|
      invariant m == VisibilityMapOf(ss[..i])
    {
      assert ss[..i + 1][..i] == ss[..i];
      var seriesId := ss[i].id;
      if Truthy(seriesId) {
        m := m[seriesId.value := ss[i].visible];
      }
      i := i + 1;
    }
    assert ss[..i] == ss;
  }

  /** The emitter attaches (a 'redraw' listener, returning its remover) only on a Highcharts component. */
  method AttachSeriesVisibilityEmitter(c: Component, chart: Chart) returns (t: Option<Teardown>)
    requires chart.Valid()
    modifies chart
    ensures chart.Valid()
    ensures t.Some? <==> c.kind == "Highcharts"
    ensures c.kind == "Highcharts" ==>
      t.value.RemoveRedrawListener? && t.value.registration.event == Redraw &&
      t.value.registration !in old(chart.listeners) &&
      chart.listeners == old(chart.listeners) + {t.value.registration}
    ensures c.kind != "Highcharts" ==> chart.listeners == old(chart.listeners)
    ensures chart.nextSerial == old(chart.nextSerial) + if c.kind == "Highcharts" then 1 else 0
    ensures chart.series == old(chart.series) && chart.axes == old(chart.axes) && chart.hasRendered == old(chart.hasRendered)
    ensures chart.calls == old(chart.calls) && chart.optionEvents == old(chart.optionEvents)
  {
    t := None;
    if c.kind == "Highcharts" {
      var r := chart.AddEvent(Redraw);
      t := Some(RemoveRedrawListener(r));
    }
  }

  /** The emitter's teardown: the remover `addEvent` returned, which detaches exactly that listener. */
  method SeriesVisibilityEmitterCleanup(chart: Chart, r: Registration)
    requires chart.Valid()
    modifies chart
    ensures chart.Valid()
    ensures chart.listeners == old(chart.listeners) - {r}
    ensures chart.nextSerial == old(chart.nextSerial)
    ensures chart.series == old(chart.series) && chart.axes == old(chart.axes) && chart.hasRendered == old(chart.hasRendered)
    ensures chart.calls == old(chart.calls) && chart.optionEvents == old(chart.optionEvents)
  {
    chart.RemoveEvent(r);
  }

  /**
   * The 'redraw' listener: once the chart has rendered and the component
   * has a connector, publish the visibility map to the active group, tagged
   * with the component's id as sender, unless the map is empty.
   */
  method OnRedraw(c: Component, chart: Chart?, group: SharedState)
    modifies group
    ensures group.calls == old(group.calls) +
      if c.connector.Some? && chart != null && chart.hasRendered &&
         |VisibilityMapOf(chart.series)| > 0 && c.hasActiveGroup
      then [SetColumnVisibility(VisibilityMapOf(chart.series), c.id)]
      else []
  {
    if c.connector.Some? && chart != null && chart.hasRendered {
      var visibilityMap := BuildVisibilityMap(chart.series);
      if |visibilityMap| > 0 && c.hasActiveGroup {
        group.SetColumnVisibilityOf(visibilityMap, c.id);
      }
    }
  }

  /** `visibilityMap[id]`: undefined when the id is missing. */
  function Lookup(m: map<string, bool>, k: string): Option<bool>
  {
    if k in m then Some(m[k]) else None
  }

  /** The series after `setVisible(map[id], false)` on those among the first `n` that have an id. */
  function ApplyVisibilityUpTo(ss: seq<Series>, m: map<string, bool>, n: int): seq<Series>
  {
    seq(|ss|, i requires 0 <= i < |ss| =>
      if i < n && HasId(ss[i]) then ss[i].(visible := VisibleAfter(Lookup(m, ss[i].id.value), ss[i].visible))
      else ss[i])
  }

  /** The series after the visibility handler has run over all of them. */
  function ApplyVisibility(ss: seq<Series>, m: map<string, bool>): (r: seq<Series>)
    ensures |r| == |ss|
    ensures forall i :: 0 <= i < |ss| ==>
      r[i].id == ss[i].id && r[i].name == ss[i].name && r[i].points == ss[i].points
    ensures forall i :: 0 <= i < |ss| && !HasId(ss[i]) ==> r[i] == ss[i]
    ensures forall i :: 0 <= i < |ss| && HasId(ss[i]) && ss[i].id.value in m ==> r[i].visible == m[ss[i].id.value]
    ensures forall i :: 0 <= i < |ss| && HasId(ss[i]) && ss[i].id.value !in m ==> r[i].visible == !ss[i].visible
  {
    ApplyVisibilityUpTo(ss, m, |ss|)
  }

  /** The `setVisible` calls the handler makes on the first `n` series, in order. */
  function VisibilityCallsUpTo(ss: seq<Series>, m: map<string, bool>, n: nat): seq<ChartCall>
    requires n <= |ss|
  {
    if n == 0 then []
    else
      VisibilityCallsUpTo(ss, m, n - 1) +
      if HasId(ss[n - 1]) then [SetVisible(n - 1, Lookup(m, ss[n - 1].id.value), false)] else []
  }

  /** Every `setVisible` call goes to a series with an id, with that id's map entry and no redraw. */
  lemma {:induction false} VisibilityCallsTargets(ss: seq<Series>, m: map<string, bool>, n: nat)
    requires n <= |ss|
    ensures forall c :: c in VisibilityCallsUpTo(ss, m, n) ==>
      c.SetVisible? && c.series < n && HasId(ss[c.series]) &&
      c.visible == Lookup(m, ss[c.series].id.value) && !c.redraw
    ensures forall i :: 0 <= i < n && HasId(ss[i]) ==>
      SetVisible(i, Lookup(m, ss[i].id.value), false) in VisibilityCallsUpTo(ss, m, n)
  {
    if n > 0 {
      VisibilityCallsTargets(ss, m, n - 1);
    }
  }

  /**
   * The `afterColumnVisibilityChange` handler: with a connector and a chart,
   * call `setVisible(map[id], false)` on every series that has an id.
   */
  method SeriesVisibilityHandler(c: Component, chart: Chart?, visibilityMap: map<string, bool>)
    modifies chart
    ensures chart != null && c.connector.Some? ==>
      && chart.series == ApplyVisibility(old(chart.series), visibilityMap)
      && chart.calls == old(chart.calls) + VisibilityCallsUpTo(old(chart.series), visibilityMap, |old(chart.series)|)
    ensures chart != null && c.connector.None? ==>
      chart.series == old(chart.series) && chart.calls == old(chart.calls)
    ensures chart != null ==> chart.axes == old(chart.axes) && chart.hasRendered == old(chart.hasRendered)
    ensures chart != null ==> chart.listeners == old(chart.listeners) && chart.optionEvents == old(chart.optionEvents)
    ensures chart != null ==> chart.nextSerial == old(chart.nextSerial)
  {
    if c.connector.Some? && chart != null {
      var i := 0;
      while i < |chart.series|
        invariant 0 <= i <= |chart.series| == |old(chart.series)|
        invariant chart.series == ApplyVisibilityUpTo(old(chart.series), visibilityMap, i)
        invariant chart.calls == old(chart.calls) + VisibilityCallsUpTo(old(chart.series), visibilityMap, i)
        invariant chart.axes == old(chart.axes) && chart.hasRendered == old(chart.hasRendered)
        invariant chart.listeners == old(chart.listeners) && chart.optionEvents == old(chart.optionEvents)
        invariant chart.nextSerial == old(chart.nextSerial)
      {
        var seriesId := chart.series[i].id;
        if Truthy(seriesId) {
          chart.SetSeriesVisible(i, Lookup(visibilityMap, seriesId.value), false);
        }
        i := i + 1;
      }
    }
  }

  /** The ids of the series that have one are pairwise distinct. */
  predicate DistinctIds(ss: seq<Series>)
  {
    forall i, j :: 0 <= i < j < |ss| && HasId(ss[i]) ==> ss[i].id != ss[j].id
  }

  /** Series `j` is the last of `a` to carry its id. */
  predicate LastOfItsId(a: seq<Series>, j: int)
    requires 0 <= j < |a|
  {
    forall j' :: j < j' < |a| ==> a[j'].id != a[j].id
  }

  /**
   * Round trip, by id: a receiving chart's series with an id takes the
   * visibility of the emitting chart's last series with that id; one whose
   * id the emitting chart lacks is toggled, since `setVisible(undefined)`
   * toggles; series without an id are untouched.
   */
  lemma VisibilityRoundTrip(a: seq<Series>, b: seq<Series>)
    ensures forall i, j :: 0 <= i < |b| && 0 <= j < |a| && HasId(b[i]) && a[j].id == b[i].id && LastOfItsId(a, j) ==>
      ApplyVisibility(b, VisibilityMapOf(a))[i].visible == a[j].visible
    ensures forall i :: 0 <= i < |b| && HasId(b[i]) && (forall j :: 0 <= j < |a| ==> a[j].id != b[i].id) ==>
      ApplyVisibility(b, VisibilityMapOf(a))[i].visible == !b[i].visible
    ensures forall i :: 0 <= i < |b| && !HasId(b[i]) ==> ApplyVisibility(b, VisibilityMapOf(a))[i] == b[i]
  {
    var m := VisibilityMapOf(a);
    var r := ApplyVisibility(b, m);
    forall i, j | 0 <= i < |b| && 0 <= j < |a| && HasId(b[i]) && a[j].id == b[i].id && LastOfItsId(a, j)
      ensures r[i].visible == a[j].visible
    {
      VisibilityMapLastWins(a, j);
    }
    VisibilityMapKeys(a);
  }

  /** Applying a chart's own visibility map to it changes nothing. */
  lemma VisibilityIdempotent(ss: seq<Series>)
    requires DistinctIds(ss)
    ensures ApplyVisibility(ss, VisibilityMapOf(ss)) == ss
  {
    VisibilityRoundTrip(ss, ss);
    var r := ApplyVisibility(ss, VisibilityMapOf(ss));
    forall i | 0 <= i < |ss|
      ensures r[i] == ss[i]
    {
      if HasId(ss[i]) {
        assert LastOfItsId(ss, i);
      }
    }
  }
}
