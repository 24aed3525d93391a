/** The point lists of multilines and polygons. */
module PointList {
  import opened Optional
  import opened Model
  import NodeList

  /**
   * `insert_point_node_at`: a rejected index (negative, or past the last
   * position the walk reaches) yields NULL, here the empty list.
   */
  method InsertPointAt(points: seq<Point>, index: int, p: Point) returns (r: seq<Point>)
    requires index < 0 || |points| > 0
    ensures index < 0 || index >= |points| ==> r == []
    ensures index == 0 ==> r == [p] + points
    ensures 1 <= index < |points| ==> |r| == |points| + 1 && r[index + 1] == p
    ensures 1 <= index < |points| ==> r[..index + 1] == points[..index + 1] && r[index + 2..] == points[index + 1..]
  {
    var o := NodeList.InsertAt(points, index, p);
    r := o.GetOr([]);
  }

  /** `remove_point_node_at`: a negative or too large index leaves the list unchanged. */
  method RemovePointAt(points: seq<Point>, index: int) returns (r: seq<Point>)
    requires index < 0 || |points| > 0
    ensures index < 0 || index >= |points| ==> r == points
    ensures 0 <= index < |points| ==> |r| == |points| - 1
    ensures 0 <= index < |points| ==> r[..index] == points[..index] && r[index..] == points[index + 1..]
  {
    var o := NodeList.RemoveAt(points, index);
    r := o.GetOr(points);
  }

  /**
   * Removing the element inserted at 1 <= index < |points| gives the list
   * back, but only at position index + 1, where the walk put it.
   */
  method InsertThenRemove(points: seq<Point>, index: int, p: Point) returns (back: seq<Point>)
    requires 1 <= index < |points|
    ensures back == points
  {
    var inserted := InsertPointAt(points, index, p);
    back := RemovePointAt(inserted, index + 1);
    assert back == inserted[..index + 1] + inserted[index + 2..];
    assert points == points[..index + 1] + points[index + 1..];
  }

  /** `clone_point`: a new point with the same coordinates. */
  function ClonePoint(p: Point): (c: Point)
    ensures c == p
  {
    Point(p.x, p.y)
  }

  /** `clone_point_list`: the same coordinates in the same order. */
  method ClonePointList(points: seq<Point>) returns (r: seq<Point>)
    ensures r == points
  {
    r := NodeList.Clone(points, ClonePoint);
  }
}
