/**
 * `findMatchingPoint`: the point of a chart that corresponds to a hovered
 * point-like value, scanning the series and then their points in order.
 */
module PointMatching {
  import opened Wrappers
  import opened Charts

  /** The series a hovered point belongs to, as far as matching needs it: its `options.id`. */
  datatype HoverSeries = HoverSeries(id: Option<string>)

  /** A hovered point-like value: its x and its series, which may be missing. */
  datatype HoverPoint = HoverPoint(x: int, series: Option<HoverSeries>)

  /** Series `s` is searched: the hover point has a series and the ids are strictly equal. */
  predicate SeriesSearched(s: Series, hover: HoverPoint)
  {
    hover.series.Some? && s.id == hover.series.value.id
  }

  /** Point `p` of series `s` is a match: both visible and at the hovered x. */
  predicate PointMatches(s: Series, p: Point, x: int)
  {
    p.visible && s.visible && p.x == x
  }

  /** The point at (i, j) matches the hover. */
  predicate MatchAt(ss: seq<Series>, hover: HoverPoint, i: int, j: int)
  {
    0 <= i < |ss| && 0 <= j < |ss[i].points| &&
    SeriesSearched(ss[i], hover) && PointMatches(ss[i], ss[i].points[j], hover.x)
  }

  /** (i', j') comes before (i, j) in the scan: an earlier series, or an earlier point of the same one. */
  predicate Before(i': int, j': int, i: int, j: int)
  {
    i' < i || (i' == i && j' < j)
  }

  /** The first matching point among `pts`, points of series `s`. */
  function FirstMatchIn(s: Series, pts: seq<Point>, x: int): Option<Point>
  {
    if pts == [] then None
    else if PointMatches(s, pts[0], x) then Some(pts[0])
    else FirstMatchIn(s, pts[1..], x)
  }

  /** What `findMatchingPoint` returns for a chart with series `ss`. */
  function MatchingPoint(ss: seq<Series>, hover: HoverPoint): Option<Point>
  {
    if ss == [] then None
    else if SeriesSearched(ss[0], hover) && FirstMatchIn(ss[0], ss[0].points, hover.x).Some? then
      FirstMatchIn(ss[0], ss[0].points, hover.x)
    else MatchingPoint(ss[1..], hover)
  }

  /** The first match within one series' points is the first position that matches. */
  lemma {:induction false} FirstMatchInIsFirst(s: Series, pts: seq<Point>, x: int)
    ensures FirstMatchIn(s, pts, x).None? <==> forall j :: 0 <= j < |pts| ==> !PointMatches(s, pts[j], x)
    ensures FirstMatchIn(s, pts, x).Some? ==>
      exists j :: 0 <= j < |pts| && PointMatches(s, pts[j], x) && pts[j] == FirstMatchIn(s, pts, x).value &&
        forall j' :: 0 <= j' < j ==> !PointMatches(s, pts[j'], x)
  {
    if pts != [] {
      FirstMatchInIsFirst(s, pts[1..], x);
      if !PointMatches(s, pts[0], x) {
        if FirstMatchIn(s, pts, x).Some? {
          var j :| 0 <= j < |pts[1..]| && PointMatches(s, pts[1..][j], x) &&
            pts[1..][j] == FirstMatchIn(s, pts, x).value &&
            forall j' :: 0 <= j' < j ==> !PointMatches(s, pts[1..][j'], x);
          assert pts[j + 1] == pts[1..][j];
          forall j' | 0 <= j' < j + 1 ensures !PointMatches(s, pts[j'], x) {
            if j' > 0 { assert pts[j'] == pts[1..][j' - 1]; }
          }
        } else {
          forall j | 0 <= j < |pts| ensures !PointMatches(s, pts[j], x) {
            if j > 0 { assert pts[j] == pts[1..][j - 1]; }
          }
        }
      }
    }
  }

  /**
   * `findMatchingPoint` returns a point exactly when some point matches, and
   * then it returns the first match in scan order: series first, then points.
   */
  lemma {:induction false} MatchingPointIsFirst(ss: seq<Series>, hover: HoverPoint)
    ensures MatchingPoint(ss, hover).None? <==> forall i, j :: !MatchAt(ss, hover, i, j)
    ensures MatchingPoint(ss, hover).Some? ==>
      exists i, j :: MatchAt(ss, hover, i, j) && ss[i].points[j] == MatchingPoint(ss, hover).value &&
        forall i', j' :: Before(i', j', i, j) ==> !MatchAt(ss, hover, i', j')
  {
    if ss != [] {
      var s := ss[0];
      FirstMatchInIsFirst(s, s.points, hover.x);
      MatchingPointIsFirst(ss[1..], hover);
      // a match in the tail is a match in ss, one series further
      forall i, j | MatchAt(ss[1..], hover, i, j) ensures MatchAt(ss, hover, i + 1, j) {
        assert ss[1..][i] == ss[i + 1];
      }
      forall i, j | 1 <= i && MatchAt(ss, hover, i, j) ensures MatchAt(ss[1..], hover, i - 1, j) {
        assert ss[1..][i - 1] == ss[i];
      }
      if SeriesSearched(s, hover) && FirstMatchIn(s, s.points, hover.x).Some? {
        var j :| 0 <= j < |s.points| && PointMatches(s, s.points[j], hover.x) &&
          s.points[j] == FirstMatchIn(s, s.points, hover.x).value &&
          forall j' :: 0 <= j' < j ==> !PointMatches(s, s.points[j'], hover.x);
        assert MatchAt(ss, hover, 0, j);
      } else {
        assert forall j :: !MatchAt(ss, hover, 0, j);
        if MatchingPoint(ss, hover).Some? {
          var i, j :| MatchAt(ss[1..], hover, i, j) && ss[1..][i].points[j] == MatchingPoint(ss, hover).value &&
            forall i', j' :: Before(i', j', i, j) ==> !MatchAt(ss[1..], hover, i', j');
          assert MatchAt(ss, hover, i + 1, j);
          forall i', j' | Before(i', j', i + 1, j) ensures !MatchAt(ss, hover, i', j') {
            if i' >= 1 {
              assert Before(i' - 1, j', i, j);
            }
          }
        }
      }
    }
  }

  /** `findMatchingPoint(chart, hoverPoint)`: the nested index loop with early return. */
  method FindMatchingPoint(ss: seq<Series>, hover: HoverPoint) returns (found: Option<Point>)
    ensures found == MatchingPoint(ss, hover)
  {
    var i := 0;
    while i < |ss|
      invariant 0 <= i <= |ss|
      invariant MatchingPoint(ss, hover) == MatchingPoint(ss[i..], hover)
    {
      assert ss[i..][1..] == ss[i + 1..];
      if SeriesSearched(ss[i], hover) {
        var points := ss[i].points;
        var j := 0;
        while j < |points|
          invariant 0 <= j <= |points|
          invariant FirstMatchIn(ss[i], points, hover.x) == FirstMatchIn(ss[i], points[j..], hover.x)
        {
          assert points[j..][1..] == points[j + 1..];
          var point := points[j];
          if point.visible && ss[i].visible && point.x == hover.x {
            return Some(point);
          }
          j := j + 1;
        }
      }
      i := i + 1;
    }
    return None;
  }
}
