/**
 * `getAxisMinMaxMap`: the axes a chart's zoom type covers, each with its
 * current extremes, keeping only numeric extremes.
 */
module AxisMinMax {
  import opened Wrappers
  import opened Charts

  /** Whether `needle` occurs in `hay` starting at `i`. */
  predicate OccursAt(hay: string, needle: string, i: int)
  {
    0 <= i && i + |needle| <= |hay| && hay[i..i + |needle|] == needle
  }

  /** JavaScript's `hay.indexOf(needle)`: the first position where `needle` occurs, or -1. */
  function IndexOf(hay: string, needle: string): (r: int)
    ensures -1 <= r <= |hay|
    decreases |hay|
  {
    if |needle| > |hay| then -1
    else if hay[..|needle|] == needle then 0
    else
      var k := IndexOf(hay[1..], needle);
      if k < 0 then -1 else k + 1
  }

  /** `indexOf` finds the first occurrence: -1 exactly when there is none. */
  lemma {:induction false} IndexOfFirst(hay: string, needle: string)
    ensures IndexOf(hay, needle) >= 0 ==> OccursAt(hay, needle, IndexOf(hay, needle))
    ensures forall i :: 0 <= i && (IndexOf(hay, needle) < 0 || i < IndexOf(hay, needle)) ==> !OccursAt(hay, needle, i)
    decreases |hay|
  {
    if |needle| <= |hay| && hay[..|needle|] != needle {
      IndexOfFirst(hay[1..], needle);
      forall i | 1 <= i ensures OccursAt(hay, needle, i) == OccursAt(hay[1..], needle, i - 1) {
        if i + |needle| <= |hay| {
          assert hay[1..][i - 1..i - 1 + |needle|] == hay[i..i + |needle|];
        }
      }
      assert !OccursAt(hay, needle, 0);
    }
  }

  /** JavaScript's `s.slice(0, 1)`. */
  function FirstLetter(s: string): string
  {
    if s == "" then "" else s[..1]
  }

  /** `(chart.options.chart.zoomType || '').indexOf(axis.coll.slice(0, 1)) > -1`. */
  predicate ZoomCovers(zoomType: Option<string>, coll: string)
  {
    IndexOf(GetOr(zoomType, ""), FirstLetter(coll)) > -1
  }

  /**
   * The filter kept by `getAxisMinMaxMap`: an axis is covered when its
   * `coll` is empty (the empty string occurs everywhere) or its first letter
   * occurs in the zoom type, taken as "" when unset.
   */
  lemma ZoomCoversIff(zoomType: Option<string>, coll: string)
    ensures ZoomCovers(zoomType, coll) <==> coll == "" || coll[0] in GetOr(zoomType, "")
  {
    var z := GetOr(zoomType, "");
    IndexOfFirst(z, FirstLetter(coll));
    if coll != "" {
      if coll[0] in z {
        var i :| 0 <= i < |z| && z[i] == coll[0];
        assert OccursAt(z, FirstLetter(coll), i);
      }
      if ZoomCovers(zoomType, coll) {
        var r := IndexOf(z, FirstLetter(coll));
        assert z[r..r + 1] == [coll[0]];
        assert z[r] == coll[0];
      }
    } else {
      assert OccursAt(z, "", 0);
    }
  }

  /** The entry reported for one axis. */
  datatype AxisExtremes = AxisExtremes(coll: string, min: Option<int>, max: Option<int>)

  /** `typeof v === 'number' ? v : void 0`. */
  function NumericOrUndefined(v: Extreme): (r: Option<int>)
    ensures r.Some? <==> v.Num?
    ensures r.Some? ==> v == Num(r.value)
  {
    if v.Num? then Some(v.n) else None
  }

  /** The entry for `axis`: its `coll`, and its min and max when numeric. */
  function EntryOf(a: Axis): AxisExtremes
  {
    AxisExtremes(a.coll, NumericOrUndefined(a.min), NumericOrUndefined(a.max))
  }

  /** What one axis contributes: its entry when the zoom type covers it, otherwise nothing. */
  function Kept(a: Axis, zoomType: Option<string>): seq<AxisExtremes>
  {
    if ZoomCovers(zoomType, a.coll) then [EntryOf(a)] else []
  }

  /** `getAxisMinMaxMap(chart)` for a chart with these axes and this zoom type. */
  function AxisMinMaxMap(axes: seq<Axis>, zoomType: Option<string>): (r: seq<AxisExtremes>)
    ensures |r| <= |axes|
  {
    if axes == [] then [] else Kept(axes[0], zoomType) + AxisMinMaxMap(axes[1..], zoomType)
  }

  /** The map keeps the axes' order: it distributes over concatenation. */
  lemma {:induction false} AxisMinMaxMapAppend(a: seq<Axis>, b: seq<Axis>, zoomType: Option<string>)
    ensures AxisMinMaxMap(a + b, zoomType) == AxisMinMaxMap(a, zoomType) + AxisMinMaxMap(b, zoomType)
    decreases |a|
  {
    if a == [] {
      assert a + b == b;
    } else {
      assert (a + b)[0] == a[0];
      assert (a + b)[1..] == a[1..] + b;
      AxisMinMaxMapAppend(a[1..], b, zoomType);
      var k, m, n := Kept(a[0], zoomType), AxisMinMaxMap(a[1..], zoomType), AxisMinMaxMap(b, zoomType);
      assert k + (m + n) == (k + m) + n;
    }
  }

  /** A single axis is reported, as its entry, exactly when the zoom type covers it. */
  lemma AxisMinMaxMapSingle(a: Axis, zoomType: Option<string>)
    ensures AxisMinMaxMap([a], zoomType) == if ZoomCovers(zoomType, a.coll) then [EntryOf(a)] else []
  {
    assert [a][1..] == [];
  }

  /** Every entry is the entry of a covered axis, and every covered axis has its entry. */
  lemma {:induction false} AxisMinMaxMapMembers(axes: seq<Axis>, zoomType: Option<string>)
    ensures forall i :: 0 <= i < |axes| && ZoomCovers(zoomType, axes[i].coll) ==>
      EntryOf(axes[i]) in AxisMinMaxMap(axes, zoomType)
    ensures forall e :: e in AxisMinMaxMap(axes, zoomType) ==>
      exists i :: 0 <= i < |axes| && ZoomCovers(zoomType, axes[i].coll) && e == EntryOf(axes[i])
    decreases |axes|
  {
    if axes != [] {
      var rest := axes[1..];
      AxisMinMaxMapMembers(rest, zoomType);
      var k, m := Kept(axes[0], zoomType), AxisMinMaxMap(rest, zoomType);
      assert AxisMinMaxMap(axes, zoomType) == k + m;
      forall e | e in k + m
        ensures exists i :: 0 <= i < |axes| && ZoomCovers(zoomType, axes[i].coll) && e == EntryOf(axes[i])
      {
        if e in k {
          assert ZoomCovers(zoomType, axes[0].coll) && e == EntryOf(axes[0]);
        } else {
          assert e in m;
          var j :| 0 <= j < |rest| && ZoomCovers(zoomType, rest[j].coll) && e == EntryOf(rest[j]);
          assert axes[j + 1] == rest[j];
        }
      }
      forall i | 0 <= i < |axes| && ZoomCovers(zoomType, axes[i].coll)
        ensures EntryOf(axes[i]) in k + m
      {
        if i == 0 {
          assert EntryOf(axes[0]) in k;
        } else {
          assert rest[i - 1] == axes[i];
          assert EntryOf(axes[i]) in m;
        }
      }
    }
  }

  /**
   * Each entry carries its axis's `coll`, and reports the axis's min (max)
   * exactly when it is a number, with that number.
   */
  lemma AxisMinMaxMapExtremes(axes: seq<Axis>, zoomType: Option<string>, e: AxisExtremes)
    requires e in AxisMinMaxMap(axes, zoomType)
    ensures exists i ::
              && 0 <= i < |axes| && ZoomCovers(zoomType, axes[i].coll) && e.coll == axes[i].coll
              && (forall n :: e.min == Some(n) <==> axes[i].min == Num(n))
              && (forall n :: e.max == Some(n) <==> axes[i].max == Num(n))
  {
    AxisMinMaxMapMembers(axes, zoomType);
  }

  /** With `zoomType` unset no axis with a non-empty `coll` is covered, so the map is empty. */
  lemma {:induction false} AxisMinMaxMapUnset(axes: seq<Axis>)
    requires forall i :: 0 <= i < |axes| ==> axes[i].coll != ""
    ensures AxisMinMaxMap(axes, None) == []
  {
    if axes != [] {
      ZoomCoversIff(None, axes[0].coll);
      AxisMinMaxMapUnset(axes[1..]);
    }
  }
}
