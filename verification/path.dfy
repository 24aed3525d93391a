/** Path elements: cloning and the element lists of a path shape. */
module PathList {
  import opened Optional
  import opened Model
  import NodeList

  /** `clone_path_element`: the same command rebuilt with copies of its operands. */
  function ClonePathElement(e: PathElement): (c: PathElement)
    ensures c == e
  {
    match e
    case MoveTo(p) => MoveTo(Point(p.x, p.y))
    case LineTo(p) => LineTo(Point(p.x, p.y))
    case HorizontalLineTo(n) => HorizontalLineTo(n)
    case VerticalLineTo(n) => VerticalLineTo(n)
    case CubicCurveTo(c1, c2, p) => CubicCurveTo(Point(c1.x, c1.y), Point(c2.x, c2.y), Point(p.x, p.y))
    case CubicCurveToShorthand(c1, p) => CubicCurveToShorthand(Point(c1.x, c1.y), Point(p.x, p.y))
    case QuadraticCurveTo(c1, p) => QuadraticCurveTo(Point(c1.x, c1.y), Point(p.x, p.y))
    case QuadraticCurveToShorthand(p) => QuadraticCurveToShorthand(Point(p.x, p.y))
    case EndPath => EndPath
  }

  /** `clone_path_element_list`: same length, same commands, same order. */
  method ClonePathElementList(elements: seq<PathElement>) returns (r: seq<PathElement>)
    ensures r == elements
  {
    r := NodeList.Clone(elements, ClonePathElement);
  }

  /** `insert_path_element_node_at`: like the point lists, a rejected index yields NULL (the empty list). */
  method InsertPathElementAt(elements: seq<PathElement>, index: int, e: PathElement) returns (r: seq<PathElement>)
    requires index < 0 || |elements| > 0
    ensures index < 0 || index >= |elements| ==> r == []
    ensures index == 0 ==> r == [e] + elements
    ensures 1 <= index < |elements| ==> |r| == |elements| + 1 && r[index + 1] == e
    ensures 1 <= index < |elements| ==> r[..index + 1] == elements[..index + 1] && r[index + 2..] == elements[index + 1..]
  {
    var o := NodeList.InsertAt(elements, index, e);
    r := o.GetOr([]);
  }

  /** `remove_path_element_node_at`: a negative or too large index leaves the list unchanged. */
  method RemovePathElementAt(elements: seq<PathElement>, index: int) returns (r: seq<PathElement>)
    requires index < 0 || |elements| > 0
    ensures index < 0 || index >= |elements| ==> r == elements
    ensures 0 <= index < |elements| ==> |r| == |elements| - 1
    ensures 0 <= index < |elements| ==> r[..index] == elements[..index] && r[index..] == elements[index + 1..]
  {
    var o := NodeList.RemoveAt(elements, index);
    r := o.GetOr(elements);
  }
}
