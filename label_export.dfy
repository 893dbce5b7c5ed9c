/**
  The integer part of the label export: for each stored line, its extent
  (dx, dy) and the four clicks behind it, taken by position from the point
  buffer.
*/
module LabelExport {
  import opened Geometry
  import opened Segments

  /** One exported line, without its floating-point center, angle and length. */
  datatype LineRecord = LineRecord(dx: int, dy: int, vertices: seq<Point>)

  function Min(a: int, b: int): int {
    if a <= b then a else b
  }

  /**
    The vertex group of line i, `points[4i:4i+4]`: a Python slice, so both
    bounds are clamped to the length of the buffer.
  */
  function VertexSlice(points: seq<Point>, i: nat): (v: seq<Point>)
    ensures |v| <= 4
    ensures 4 * i + 4 <= |points| ==> v == points[4 * i .. 4 * i + 4]
    ensures 4 * i < |points| < 4 * i + 4 ==> v == points[4 * i ..]
    ensures |points| <= 4 * i ==> v == []
  {
    points[Min(4 * i, |points|) .. Min(4 * i + 4, |points|)]
  }

  /** The record of line i. */
  function RecordOf(line: Line, points: seq<Point>, i: nat): LineRecord {
    LineRecord(line.end.x - line.start.x, line.end.y - line.start.y, VertexSlice(points, i))
  }

  /** The loop of the export over the stored lines. */
  method BuildLineRecords(lines: seq<Line>, points: seq<Point>) returns (records: seq<LineRecord>)
    ensures |records| == |lines|
    ensures forall i :: 0 <= i < |lines| ==> records[i] == RecordOf(lines[i], points, i)
  {
    records := [];
    for i := 0 to |lines|
      invariant |records| == i
      invariant forall k :: 0 <= k < i ==> records[k] == RecordOf(lines[k], points, k)
    {
      var line := lines[i];
      var dx := line.end.x - line.start.x;
      var dy := line.end.y - line.start.y;
      var vertices := VertexSlice(points, i);
      records := records + [LineRecord(dx, dy, vertices)];
    }
  }

  /**
    When the lines follow the points (every state the tool reaches), each
    exported record has exactly four vertices, and its line joins the
    midpoints of the first two and of the last two.
  */
  lemma ExportedVerticesAreGroups(lines: seq<Line>, points: seq<Point>)
    requires LinesFollow(lines, points)
    ensures forall i :: 0 <= i < |lines| ==>
              var v := RecordOf(lines[i], points, i).vertices;
              |v| == 4 && lines[i] == Line(Mid(v[0], v[1]), Mid(v[2], v[3]))
  {
    forall i | 0 <= i < |lines|
      ensures var v := RecordOf(lines[i], points, i).vertices;
              |v| == 4 && lines[i] == Line(Mid(v[0], v[1]), Mid(v[2], v[3]))
    {
    }
  }

  /** The worked example: four clicks give one vertical line of extent (0, 2). */
  lemma ExportOfFourClicks()
    ensures var points := [Point(0, 0), Point(2, 0), Point(0, 2), Point(2, 2)];
            Chain(points) == [Line(Point(1, 0), Point(1, 2))]
            && RecordOf(Chain(points)[0], points, 0) == LineRecord(0, 2, points)
  {
    var points := [Point(0, 0), Point(2, 0), Point(0, 2), Point(2, 2)];
    ChainAt(points, 0);
  }
}
