/**
 * The doubly-linked node lists of the document model (points, path
 * elements, shapes) as sequences.  The three C families walk their lists
 * with the same loops; they differ only in what they return for an index
 * they reject, so the walks are written once here and report a rejected
 * index as `None`.
 */
module NodeList {
  import opened Optional

  /** `push_*_node`: appends at the tail; an empty list becomes a one-element list. */
  function Push<T>(nodes: seq<T>, x: T): (r: seq<T>)
    ensures |r| == |nodes| + 1 && r[|nodes|] == x
    ensures forall i | 0 <= i < |nodes| :: r[i] == nodes[i]
  {
    nodes + [x]
  }

  /** `get_*_node_length`: follows `next` links from the head, counting nodes (0 for an empty list). */
  method Length<T>(nodes: seq<T>) returns (n: nat)
    ensures n == |nodes|
  {
    n := 0;
    var rest := nodes;
    while rest != []
      invariant n + |rest| == |nodes|
      decreases |rest|
    {
      rest := rest[1..];
      n := n + 1;
    }
  }

  /** `clone_*_list`: pushes a clone of every node, in order, onto a new list. */
  method Clone<T>(nodes: seq<T>, clone: T -> T) returns (r: seq<T>)
    ensures |r| == |nodes|
    ensures forall i | 0 <= i < |nodes| :: r[i] == clone(nodes[i])
  {
    r := [];
    var k := 0;
    while k < |nodes|
      invariant k <= |nodes| && |r| == k
      invariant forall i | 0 <= i < k :: r[i] == clone(nodes[i])
    {
      r := Push(r, clone(nodes[k]));
      k := k + 1;
    }
  }

  /**
   * `insert_*_node_at` as written.  Index 0 prepends.  Otherwise the walk
   * steps `second` along the list and, when the counter equals `index`, links
   * the new node in front of node `second` = index + 1; so for
   * 1 <= index < |nodes| the element lands at position index + 1.  An index
   * the walk never reaches, or a negative one, is rejected.  Every
   * non-negative index dereferences the head, so the list must then be
   * non-empty.
   */
  method InsertAt<T>(nodes: seq<T>, index: int, x: T) returns (r: Option<seq<T>>)
    requires index < 0 || |nodes| > 0
    ensures r.None? <==> index < 0 || index >= |nodes|
    ensures index == 0 ==> r == Some([x] + nodes)
    ensures 1 <= index < |nodes| ==> r == Some(nodes[..index + 1] + [x] + nodes[index + 1..])
  {
    if index < 0 {
      return None;
    }
    if index == 0 {
      return Some([x] + nodes);
    }
    var i := 0;
    var second := 0;
    while second + 1 < |nodes|
      invariant 0 <= second < |nodes| && i == second && i <= index
    {
      second := second + 1;
      if i == index {
        return Some(nodes[..second] + [x] + nodes[second..]);
      }
      i := i + 1;
    }
    if index != i {
      return None;
    }
    assert nodes[..index + 1] + [x] + nodes[index + 1..] == nodes + [x];
    return Some(nodes + [x]);
  }

  /**
   * `remove_*_node_at` as written.  Index 0 drops the head; otherwise the walk
   * unlinks the node whose position equals `index`, and an index past the end
   * leaves the list as it is.  A negative index is rejected.
   */
  method RemoveAt<T>(nodes: seq<T>, index: int) returns (r: Option<seq<T>>)
    requires index < 0 || |nodes| > 0
    ensures r.None? <==> index < 0
    ensures 0 <= index < |nodes| ==> r == Some(nodes[..index] + nodes[index + 1..])
    ensures index >= |nodes| ==> r == Some(nodes)
  {
    if index < 0 {
      return None;
    }
    if index == 0 {
      assert nodes[..0] + nodes[1..] == nodes[1..];
      return Some(nodes[1..]);
    }
    var i := 0;
    var second := 0;
    while second + 1 < |nodes|
      invariant 0 <= second < |nodes| && i == second && i <= index
    {
      if i == index {
        return Some(nodes[..second] + nodes[second + 1..]);
      }
      second := second + 1;
      i := i + 1;
    }
    if index != i {
      return Some(nodes);
    }
    assert nodes[..index] + nodes[index + 1..] == nodes[..second];
    return Some(nodes[..second]);
  }
}
