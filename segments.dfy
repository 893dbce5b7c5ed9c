/**
  The segment builder as values: the three buffers of clicked points,
  midpoints and lines, the state a full rebuild produces, the state the
  tool's incremental undo produces, and the hit test that decides whether a
  press grabs a stored point.
*/
module Segments {
  import opened Wrappers
  import opened Geometry

  /** The tool's point, midpoint and line buffers. */
  datatype Buffers = Buffers(points: seq<Point>, midpoints: seq<Point>, lines: seq<Line>)

  predicate IsPrefix<T(==)>(a: seq<T>, b: seq<T>) {
    |a| <= |b| && a == b[..|a|]
  }

  /** The buffers a rebuild from scratch derives from `points`. */
  function Rebuilt(points: seq<Point>): (b: Buffers)
    ensures b.points == points
    ensures |b.midpoints| == |points| / 2
    ensures |b.lines| == |b.midpoints| / 2 == |points| / 4
    ensures forall k :: 0 <= k < |b.midpoints| ==> b.midpoints[k] == Mid(points[2 * k], points[2 * k + 1])
    ensures forall k :: 0 <= k < |b.lines| ==> b.lines[k] == Line(b.midpoints[2 * k], b.midpoints[2 * k + 1])
  {
    Buffers(points, Midpoints(points), Chain(points))
  }

  /** The buffers agree with a rebuild from their own points. */
  predicate Consistent(b: Buffers) {
    b == Rebuilt(b.points)
  }

  /**
    The invariant every mutation of the tool keeps: there are at most as many
    lines as complete groups of four clicks, and line i is the line of group i.
  */
  predicate LinesFollow(lines: seq<Line>, points: seq<Point>) {
    |lines| <= |points| / 4
    && forall i :: 0 <= i < |lines| ==> lines[i] == GroupLine(points, i)
  }

  /** Lines that follow the points are exactly the prefixes of a rebuild's lines. */
  lemma LinesFollowIsPrefixOfChain(lines: seq<Line>, points: seq<Point>)
    ensures LinesFollow(lines, points) <==> IsPrefix(lines, Chain(points))
  {
    forall i | 0 <= i < |points| / 4
      ensures Chain(points)[i] == GroupLine(points, i)
    {
      ChainAt(points, i);
    }
  }

  /** A rebuild's lines follow its points. */
  lemma RebuiltLinesFollow(points: seq<Point>)
    ensures LinesFollow(Rebuilt(points).lines, points)
  {
    LinesFollowIsPrefixOfChain(Rebuilt(points).lines, points);
  }

  /** The tool's own undo: drop the last click, then patch the derived buffers. */
  function Undone(b: Buffers): (r: Buffers)
    ensures |b.points| == 0 ==> r == b
    ensures |b.points| > 0 ==> r.points + [b.points[|b.points| - 1]] == b.points
    ensures |b.points| > 0 && |b.lines| > 0 ==> r.lines + [b.lines[|b.lines| - 1]] == b.lines
    ensures |b.points| > 0 && |b.lines| == 0 ==> r.lines == []
    ensures |b.points| > 0 && |b.midpoints| > 0 && |r.points| % 2 == 0
            ==> r.midpoints + [b.midpoints[|b.midpoints| - 1]] == b.midpoints
    ensures |r.points| % 2 == 1 ==> r.midpoints == b.midpoints
    ensures |b.midpoints| == 0 ==> r.midpoints == []
  {
    if |b.points| == 0 then b
    else
      var points := b.points[..|b.points| - 1];
      var midpoints :=
        if |points| % 2 == 0 && |b.midpoints| > 0 then b.midpoints[..|b.midpoints| - 1]
        else b.midpoints;
      var lines := if |b.lines| > 0 then b.lines[..|b.lines| - 1] else b.lines;
      Buffers(points, midpoints, lines)
  }

  /** Undo never leaves a line that the remaining clicks do not support. */
  lemma UndoKeepsLinesFollowing(b: Buffers)
    requires LinesFollow(b.lines, b.points)
    ensures LinesFollow(Undone(b).lines, Undone(b).points)
  {
  }

  /**
    The corrected undo: drop the last click and rebuild from the
    remaining clicks.
  */
  function UndoneRebuilt(b: Buffers): (r: Buffers)
    ensures |b.points| == 0 ==> r == b
    ensures |b.points| > 0 ==> r.points + [b.points[|b.points| - 1]] == b.points
    ensures |b.points| > 0 ==> Consistent(r)
  {
    if |b.points| == 0 then b else Rebuilt(b.points[..|b.points| - 1])
  }

  /**
    On every state the tool can reach, the tool's undo removes the same click
    as the intended one and keeps a prefix of the intended lines: it may lose
    lines, it never invents one.
  */
  lemma UndoLinesPrefixOfRebuild(b: Buffers)
    requires LinesFollow(b.lines, b.points)
    ensures Undone(b).points == UndoneRebuilt(b).points
    ensures IsPrefix(Undone(b).lines, UndoneRebuilt(b).lines)
  {
    if |b.points| > 0 {
      var u := Undone(b);
      UndoKeepsLinesFollowing(b);
      LinesFollowIsPrefixOfChain(u.lines, u.points);
    }
  }

  /**
    The midpoint parity test of the tool's undo is inverted: from any state
    with at least two clicks and one midpoint per pair of clicks (every
    consistent state is one), undo leaves one midpoint too many when the click
    count was even and one too few when it was odd.
  */
  lemma UndoMidpointCountOffByOne(b: Buffers)
    requires |b.points| >= 2 && |b.midpoints| == |b.points| / 2
    ensures |Undone(b).midpoints|
            == |UndoneRebuilt(b).midpoints| + (if |b.points| % 2 == 0 then 1 else -1)
  {
    var n := |b.points|;
    assert |UndoneRebuilt(b).midpoints| == (n - 1) / 2;
  }

  /** One undo on a non-empty point buffer drops one point and, if any, one line. */
  lemma UndoOnce(b: Buffers)
    requires |b.points| > 0
    ensures Undone(b).points == b.points[..|b.points| - 1]
    ensures |Undone(b).lines| == if |b.lines| > 0 then |b.lines| - 1 else 0
  {
  }

  /** The state after `k` presses of undo. */
  function UndoneTimes(b: Buffers, k: nat): Buffers
    decreases k
  {
    if k == 0 then b else Undone(UndoneTimes(b, k - 1))
  }

  /**
    Repeated undo: after k undos the last k points are gone, each undo has
    dropped one line while any was left, and the lines still follow the
    points. A rebuild would keep (|points| - k) / 4 lines instead.
  */
  lemma {:induction false} UndoneTimesDropsOneLineEach(b: Buffers, k: nat)
    requires k <= |b.points|
    ensures UndoneTimes(b, k).points == b.points[..|b.points| - k]
    ensures |UndoneTimes(b, k).lines| == if k <= |b.lines| then |b.lines| - k else 0
  {
    if k > 0 {
      UndoneTimesDropsOneLineEach(b, k - 1);
      var prev := UndoneTimes(b, k - 1);
      var m := |b.points| - k;
      assert prev.points == b.points[..m + 1];
      UndoOnce(prev);
      assert UndoneTimes(b, k).points == b.points[..m + 1][..m];
    }
  }

  /** However many undos follow, line i is still the line of point group i. */
  lemma {:induction false} UndoneTimesKeepsLinesFollowing(b: Buffers, k: nat)
    requires LinesFollow(b.lines, b.points)
    ensures LinesFollow(UndoneTimes(b, k).lines, UndoneTimes(b, k).points)
  {
    if k > 0 {
      UndoneTimesKeepsLinesFollowing(b, k - 1);
      UndoKeepsLinesFollowing(UndoneTimes(b, k - 1));
    }
  }

  /** The four clicks of the undo scenario. */
  function FourClicks(): seq<Point> {
    [Point(0, 0), Point(20, 0), Point(0, 20), Point(20, 20)]
  }

  /**
    After four clicks, the tool's undo leaves 3 points, 2 midpoints and
    0 lines, while a rebuild of the 3 points gives 1 midpoint.
  */
  lemma UndoDivergesFromRebuild()
    ensures var u := Undone(Rebuilt(FourClicks()));
            |u.points| == 3 && |u.midpoints| == 2 && |u.lines| == 0
            && |Rebuilt(u.points).midpoints| == 1
            && !Consistent(u)
  {
    var u := Undone(Rebuilt(FourClicks()));
    assert |u.points| == 3;
  }

  /** Index i is the first stored point near enough to `pos` to grab. */
  predicate IsFirstNear(points: seq<Point>, pos: Point, i: int) {
    0 <= i < |points| && Near(pos, points[i])
    && forall j :: 0 <= j < i ==> !Near(pos, points[j])
  }

  predicate NoneNear(points: seq<Point>, pos: Point) {
    forall j :: 0 <= j < |points| ==> !Near(pos, points[j])
  }

  /** The hit test of a left press: the first stored point within the drag threshold. */
  method FindDragTarget(points: seq<Point>, pos: Point) returns (hit: Option<nat>)
    ensures hit.Some? ==> IsFirstNear(points, pos, hit.value)
    ensures hit.None? <==> NoneNear(points, pos)
  {
    for i := 0 to |points|
      invariant forall j :: 0 <= j < i ==> !Near(pos, points[j])
    {
      if Manhattan(pos, points[i]) <= DragThreshold {
        return Some(i);
      }
    }
    return None;
  }
}
