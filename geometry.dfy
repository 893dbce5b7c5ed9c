/**
  Pixel geometry of the labeling tool: clicked points, finished lines, the
  floored midpoint of two clicks, and the pairing rule that turns every two
  consecutive clicks into a midpoint and every two consecutive midpoints
  into a line.
*/
module Geometry {

  /** Width and height of the fixed-size image label, in pixels. */
  const LabelWidth: int := 768
  const LabelHeight: int := 768

  /** A press within this Manhattan distance of a stored point grabs that point. */
  const DragThreshold: int := 10

  datatype Point = Point(x: int, y: int)

  /** A finished line, from the first midpoint of a group to the second. */
  datatype Line = Line(start: Point, end: Point)

  /** The position lies inside the image label. */
  predicate InLabel(p: Point) {
    0 <= p.x < LabelWidth && 0 <= p.y < LabelHeight
  }

  function Abs(n: int): nat {
    if n < 0 then -n else n
  }

  /** Manhattan length of the difference of two points. */
  function Manhattan(a: Point, b: Point): nat {
    Abs(a.x - b.x) + Abs(a.y - b.y)
  }

  /** A press at `pos` is close enough to `p` to start dragging it. */
  predicate Near(pos: Point, p: Point) {
    Manhattan(pos, p) <= DragThreshold
  }

  /**
    The integer midpoint of two points, each coordinate floored. Dafny's `/`
    by a positive divisor floors, like Python's `//`, for every sign.
  */
  function Mid(a: Point, b: Point): (m: Point)
    ensures 2 * m.x <= a.x + b.x < 2 * m.x + 2
    ensures 2 * m.y <= a.y + b.y < 2 * m.y + 2
    ensures InLabel(a) && InLabel(b) ==> InLabel(m)
  {
    Point((a.x + b.x) / 2, (a.y + b.y) / 2)
  }

  function LineBetween(a: Point, b: Point): Line {
    Line(a, b)
  }

  /**
    Combines the elements at indices 2k and 2k+1 with `f`, for every k whose
    pair is complete; a trailing odd element is dropped.
  */
  function PairUp<T, U>(s: seq<T>, f: (T, T) -> U): (r: seq<U>)
    ensures |r| == |s| / 2
    ensures forall k :: 0 <= k < |r| ==> r[k] == f(s[2 * k], s[2 * k + 1])
    decreases |s|
  {
    if |s| < 2 then [] else [f(s[0], s[1])] + PairUp(s[2..], f)
  }

  /** The midpoints a rebuild derives from the clicked points. */
  function Midpoints(points: seq<Point>): seq<Point> {
    PairUp(points, Mid)
  }

  /** The lines a rebuild derives from the midpoints. */
  function Lines(midpoints: seq<Point>): seq<Line> {
    PairUp(midpoints, LineBetween)
  }

  /** The lines a rebuild derives from the clicked points. */
  function Chain(points: seq<Point>): seq<Line> {
    Lines(Midpoints(points))
  }

  /**
    The line drawn through vertex group i: from the midpoint of clicks 4i and
    4i+1 to the midpoint of clicks 4i+2 and 4i+3.
  */
  function GroupLine(points: seq<Point>, i: nat): Line
    requires 4 * i + 4 <= |points|
  {
    Line(Mid(points[4 * i], points[4 * i + 1]), Mid(points[4 * i + 2], points[4 * i + 3]))
  }

  /** A rebuild draws one line per complete group of four clicks, the group's line. */
  lemma ChainAt(points: seq<Point>, i: nat)
    requires i < |points| / 4
    ensures |Chain(points)| == |points| / 4
    ensures Chain(points)[i] == GroupLine(points, i)
  {
    var ms := Midpoints(points);
    assert ms[2 * i] == Mid(points[4 * i], points[4 * i + 1]);
    assert ms[2 * i + 1] == Mid(points[4 * i + 2], points[4 * i + 3]);
  }
}
