/**
  The labeling session: the image list and current index, the point,
  midpoint and line buffers of the current image, the drag state, the
  label directory and the set of images known to be labeled.

  The file system is a set of existing paths handed to each operation that
  looks at it; the save returns the set after its write. A directory chosen
  in a dialog and a list of images chosen in a dialog are parameters, the
  empty value standing for a cancelled dialog.
*/
module Tool {
  import opened Wrappers
  import opened Geometry
  import opened Segments
  import opened LabelExport
  import opened Labels

  datatype SaveOutcome = Saved(file: string) | NoDirectory | NoImage

  class LabelingTool {
    /**
      The stem of an image path, the base name without its extension. Both
      the writer and the checker of label files use this one function.
    */
    const stem: string -> string

    var imagePaths: seq<string>
    var currentIndex: int
    var points: seq<Point>
    var midpoints: seq<Point>
    var lines: seq<Line>
    var draggingPoint: Option<nat>
    var labelingDir: string
    var labeledImages: set<string>

    /** The three drawing buffers as one value. */
    function BufferState(): Buffers
      reads this`points, this`midpoints, this`lines
    {
      Buffers(points, midpoints, lines)
    }

    /**
      The session invariant: the current index is -1 exactly while no image
      list is loaded and otherwise in range; every stored point lies inside
      the label; line i of the line buffer is the line of the i-th group of
      four clicks.
    */
    ghost predicate Valid()
      reads this`imagePaths, this`currentIndex, this`points, this`lines
    {
      (if |imagePaths| == 0 then currentIndex == -1 else 0 <= currentIndex < |imagePaths|)
      && (forall i :: 0 <= i < |points| ==> InLabel(points[i]))
      && LinesFollow(lines, points)
    }

    /** A new session; `savedDir` is the label directory remembered from the last one. */
    constructor (stemOf: string -> string, savedDir: string)
      ensures Valid()
      ensures stem == stemOf && labelingDir == savedDir
      ensures imagePaths == [] && currentIndex == -1
      ensures BufferState() == Buffers([], [], []) && draggingPoint == None
      ensures labeledImages == {}
    {
      stem := stemOf;
      imagePaths := [];
      currentIndex := -1;
      points, midpoints, lines := [], [], [];
      draggingPoint := None;
      labelingDir := savedDir;
      labeledImages := {};
    }

    /** Rebuilds the midpoints and lines from the points. */
    method UpdateLinesAndMidpoints()
      modifies this`midpoints, this`lines
      ensures Consistent(BufferState())
      ensures |midpoints| == |points| / 2 && |lines| == |points| / 4
      ensures LinesFollow(lines, points)
    {
      lines := [];
      midpoints := [];
      var i := 0;
      while i < |points|
        invariant 0 <= i <= |points| + 1 && i % 2 == 0
        invariant |midpoints| == Min(i, |points|) / 2
        invariant forall k :: 0 <= k < |midpoints| ==> midpoints[k] == Mid(points[2 * k], points[2 * k + 1])
        modifies this`midpoints
      {
        if i + 1 < |points| {
          assert |midpoints| == i / 2 && 2 * (i / 2) == i;
          midpoints := midpoints + [Mid(points[i], points[i + 1])];
        }
        i := i + 2;
      }
      var j := 0;
      while j < |midpoints|
        invariant 0 <= j <= |midpoints| + 1 && j % 2 == 0
        invariant |lines| == Min(j, |midpoints|) / 2
        invariant forall k :: 0 <= k < |lines| ==> lines[k] == Line(midpoints[2 * k], midpoints[2 * k + 1])
        modifies this`lines
      {
        if j + 1 < |midpoints| {
          assert |lines| == j / 2 && 2 * (j / 2) == j;
          lines := lines + [Line(midpoints[j], midpoints[j + 1])];
        }
        j := j + 2;
      }
      assert midpoints == Midpoints(points);
      assert lines == Lines(midpoints);
      RebuiltLinesFollow(points);
    }

    /**
      A press: on a left press inside the label, grab the first stored point
      within the drag threshold, or else append the position and rebuild.
    */
    method MousePress(pos: Point, onLabel: bool, leftButton: bool)
      requires Valid()
      modifies this`points, this`midpoints, this`lines, this`draggingPoint
      ensures Valid()
      ensures !(onLabel && leftButton && InLabel(pos))
              ==> BufferState() == old(BufferState()) && draggingPoint == old(draggingPoint)
      ensures onLabel && leftButton && InLabel(pos) && !NoneNear(old(points), pos)
              ==> BufferState() == old(BufferState())
                  && draggingPoint.Some? && IsFirstNear(old(points), pos, draggingPoint.value)
      ensures onLabel && leftButton && InLabel(pos) && NoneNear(old(points), pos)
              ==> points == old(points) + [pos] && Consistent(BufferState())
                  && draggingPoint == old(draggingPoint)
    {
      if onLabel && leftButton && InLabel(pos) {
        var hit := FindDragTarget(points, pos);
        if hit.Some? {
          draggingPoint := hit;
        } else {
          points := points + [pos];
          UpdateLinesAndMidpoints();
        }
      }
    }

    /**
      A move while a point is grabbed: inside the label the grabbed point
      takes the position and the buffers are rebuilt; outside, nothing
      changes. A grabbed index that no longer exists raises (`raised`) and
      changes nothing.
    */
    method MouseMove(pos: Point) returns (raised: bool)
      requires Valid()
      modifies this`points, this`midpoints, this`lines
      ensures Valid()
      ensures raised <==> draggingPoint.Some? && InLabel(pos) && draggingPoint.value >= |old(points)|
      ensures draggingPoint.Some? && InLabel(pos) && !raised
              ==> points == old(points)[draggingPoint.value := pos] && Consistent(BufferState())
      ensures draggingPoint.None? || !InLabel(pos) || raised ==> BufferState() == old(BufferState())
    {
      raised := false;
      if draggingPoint.Some? {
        if InLabel(pos) {
          var d := draggingPoint.value;
          if d < |points| {
            points := points[d := pos];
            UpdateLinesAndMidpoints();
          } else {
            raised := true;
          }
        }
      }
    }

    /** Releasing the left button drops the grabbed point. */
    method MouseRelease(leftButton: bool)
      modifies this`draggingPoint
      ensures draggingPoint == if leftButton then None else old(draggingPoint)
    {
      if leftButton {
        draggingPoint := None;
      }
    }

    /** The tool's undo of the last click. */
    method UndoLastPoint()
      requires Valid()
      modifies this`points, this`midpoints, this`lines
      ensures Valid()
      ensures BufferState() == Undone(old(BufferState()))
    {
      if |points| > 0 {
        UndoKeepsLinesFollowing(BufferState());
        points := points[..|points| - 1];
        if |points| % 2 == 0 && |midpoints| > 0 {
          midpoints := midpoints[..|midpoints| - 1];
        }
        if |lines| > 0 {
          lines := lines[..|lines| - 1];
        }
      }
    }

    /** The corrected undo: drop the last click and rebuild from the remaining clicks. */
    method UndoLastPointRebuilt()
      requires Valid()
      modifies this`points, this`midpoints, this`lines
      ensures Valid()
      ensures BufferState() == UndoneRebuilt(old(BufferState()))
    {
      if |points| > 0 {
        points := points[..|points| - 1];
        UpdateLinesAndMidpoints();
      }
    }

    /** Empties the three buffers. */
    method ClearAll()
      requires Valid()
      modifies this`points, this`midpoints, this`lines
      ensures Valid()
      ensures BufferState() == Buffers([], [], [])
    {
      points, midpoints, lines := [], [], [];
    }

    /** Shows the current image: a fresh image starts with empty buffers. */
    method LoadCurrentImage()
      requires Valid()
      modifies this`points, this`midpoints, this`lines
      ensures Valid()
      ensures 0 <= currentIndex < |imagePaths| ==> BufferState() == Buffers([], [], [])
      ensures !(0 <= currentIndex < |imagePaths|) ==> BufferState() == old(BufferState())
    {
      if 0 <= currentIndex < |imagePaths| {
        points, midpoints, lines := [], [], [];
      }
    }

    /** Moves to the next image unless the current one is the last. */
    method NextImage()
      requires Valid()
      modifies this`currentIndex, this`points, this`midpoints, this`lines
      ensures Valid()
      ensures old(currentIndex) < |imagePaths| - 1
              ==> currentIndex == old(currentIndex) + 1 && BufferState() == Buffers([], [], [])
      ensures old(currentIndex) >= |imagePaths| - 1
              ==> currentIndex == old(currentIndex) && BufferState() == old(BufferState())
    {
      if currentIndex < |imagePaths| - 1 {
        currentIndex := currentIndex + 1;
        LoadCurrentImage();
      }
    }

    /** Moves to the previous image unless the current one is the first. */
    method PrevImage()
      requires Valid()
      modifies this`currentIndex, this`points, this`midpoints, this`lines
      ensures Valid()
      ensures old(currentIndex) > 0
              ==> currentIndex == old(currentIndex) - 1 && BufferState() == Buffers([], [], [])
      ensures old(currentIndex) <= 0
              ==> currentIndex == old(currentIndex) && BufferState() == old(BufferState())
    {
      if currentIndex > 0 {
        currentIndex := currentIndex - 1;
        LoadCurrentImage();
      }
    }

    /** Jumps to the image in row `row` of the image list. */
    method SelectImage(row: int)
      requires Valid()
      requires 0 <= row < |imagePaths|
      modifies this`currentIndex, this`points, this`midpoints, this`lines
      ensures Valid()
      ensures currentIndex == row && BufferState() == Buffers([], [], [])
    {
      currentIndex := row;
      LoadCurrentImage();
    }

    /** The label file of `path` exists in the label directory. */
    function CheckIfLabeled(path: string, disk: set<string>): (labeled: bool)
      reads this`labelingDir
      ensures labelingDir == "" ==> !labeled
      ensures labelingDir != "" ==> (labeled <==> SidecarPath(labelingDir, stem(path)) in disk)
    {
      IsLabeled(labelingDir, stem(path), disk)
    }

    /**
      Switches to the chosen label directory (unless the dialog was
      cancelled) and rescans which images are labeled there.
    */
    method ChangeSaveDirectory(newDir: string, disk: set<string>)
      requires Valid()
      modifies this`labelingDir, this`labeledImages
      ensures Valid()
      ensures newDir == "" ==> labelingDir == old(labelingDir) && labeledImages == old(labeledImages)
      ensures newDir != "" ==> labelingDir == newDir && labeledImages == LabeledAmong(labelingDir, stem, imagePaths, disk)
    {
      if newDir != "" {
        labelingDir := newDir;
        labeledImages := {};
        AddLabeledAmong(imagePaths, disk);
      }
    }

    /**
      Replaces the image list with the chosen files (unless the dialog was
      cancelled), adds the labeled ones to the labeled set and shows the
      first image. Nothing is removed from the labeled set.
    */
    method LoadImages(fileNames: seq<string>, disk: set<string>)
      requires Valid()
      modifies this`imagePaths, this`labeledImages, this`currentIndex
      modifies this`points, this`midpoints, this`lines
      ensures Valid()
      ensures fileNames == [] ==>
                imagePaths == old(imagePaths) && currentIndex == old(currentIndex)
                && labeledImages == old(labeledImages) && BufferState() == old(BufferState())
      ensures fileNames != [] ==>
                imagePaths == fileNames && currentIndex == 0
                && labeledImages == old(labeledImages) + LabeledAmong(labelingDir, stem, fileNames, disk)
                && BufferState() == Buffers([], [], [])
      ensures forall p :: p in old(labeledImages) ==> p in labeledImages
    {
      if fileNames != [] {
        imagePaths := fileNames;
        AddLabeledAmong(imagePaths, disk);
        currentIndex := 0;
        LoadCurrentImage();
      }
    }

    /**
      The scan shared by the directory change and the image load: every
      image of `paths` whose label file exists joins the labeled set.
    */
    method AddLabeledAmong(paths: seq<string>, disk: set<string>)
      modifies this`labeledImages
      ensures labeledImages == old(labeledImages) + LabeledAmong(labelingDir, stem, paths, disk)
    {
      for i := 0 to |paths|
        invariant labeledImages == old(labeledImages) + LabeledAmong(labelingDir, stem, paths[..i], disk)
      {
        assert paths[..i + 1] == paths[..i] + [paths[i]];
        LabeledAmongSnoc(labelingDir, stem, paths[..i], paths[i], disk);
        if CheckIfLabeled(paths[i], disk) {
          labeledImages := labeledImages + {paths[i]};
        }
      }
      assert paths[..|paths|] == paths;
    }

    /**
      Saves the labels of the current image. With no label directory the
      user is asked for one (`chosenDir`, empty when cancelled). The write
      puts the image's label file into the returned set of existing paths,
      under the same name `CheckIfLabeled` looks for.
    */
    method SaveLabels(chosenDir: string, disk: set<string>)
      returns (outcome: SaveOutcome, written: set<string>, records: seq<LineRecord>)
      requires Valid()
      modifies this`labelingDir, this`labeledImages
      ensures Valid()
      ensures labelingDir == if old(labelingDir) == "" then chosenDir else old(labelingDir)
      ensures outcome == NoDirectory <==> labelingDir == ""
      ensures outcome == NoImage <==> labelingDir != "" && imagePaths == []
      ensures !outcome.Saved? ==> written == disk && records == []
      ensures outcome.Saved? ==>
                outcome.file == SidecarPath(labelingDir, stem(imagePaths[currentIndex]))
                && written == disk + {outcome.file}
                && CheckIfLabeled(imagePaths[currentIndex], written)
      ensures outcome.Saved? ==>
                |records| == |lines|
                && forall i :: 0 <= i < |lines| ==>
                     records[i] == RecordOf(lines[i], points, i) && |records[i].vertices| == 4
      ensures var rescanned :=
                if old(labelingDir) == "" && chosenDir != "" then LabeledAmong(labelingDir, stem, imagePaths, disk)
                else old(labeledImages);
              labeledImages == if outcome.Saved? then rescanned + {imagePaths[currentIndex]} else rescanned
    {
      if labelingDir == "" {
        ChangeSaveDirectory(chosenDir, disk);
        if labelingDir == "" {
          return NoDirectory, disk, [];
        }
      }
      if |imagePaths| > 0 {
        var current := imagePaths[currentIndex];
        records := BuildLineRecords(lines, points);
        ExportedVerticesAreGroups(lines, points);
        var file := SidecarPath(labelingDir, stem(current));
        written := disk + {file};
        labeledImages := labeledImages + {current};
        outcome := Saved(file);
      } else {
        outcome, written, records := NoImage, disk, [];
      }
    }
  }

  /**
    Four clicks far apart, then the tool's undo: 3 points, 2 midpoints and
    0 lines remain, where a rebuild of the 3 points has 1 midpoint.
  */
  method UndoAfterFourClicks() returns (tool: LabelingTool)
    ensures |tool.points| == 3 && |tool.midpoints| == 2 && |tool.lines| == 0
    ensures |Midpoints(tool.points)| == 1
    ensures !Consistent(tool.BufferState())
  {
    tool := new LabelingTool(s => s, "");
    var clicks := FourClicks();
    for i := 0 to 4
      invariant tool.Valid() && Consistent(tool.BufferState())
      invariant |tool.points| == i && forall k :: 0 <= k < i ==> tool.points[k] == clicks[k]
    {
      assert NoneNear(tool.points, clicks[i]);
      tool.MousePress(clicks[i], true, true);
    }
    assert tool.points == clicks;
    UndoDivergesFromRebuild();
    tool.UndoLastPoint();
  }

  /**
    Loading a second image list keeps the labeled images found for the
    first, so the labeled count exceeds the number of images listed.
  */
  method StaleLabelsAfterReload() returns (tool: LabelingTool)
    ensures |tool.labeledImages| > |tool.imagePaths|
  {
    tool := new LabelingTool(s => s, "labels");
    var disk := {SidecarPath("labels", tool.stem("a.png")), SidecarPath("labels", tool.stem("b.png"))};
    tool.LoadImages(["a.png"], disk);
    assert "a.png" in tool.labeledImages;
    tool.LoadImages(["b.png"], disk);
    assert "b.png" in tool.labeledImages;
    assert {"a.png", "b.png"} <= tool.labeledImages;
  }
}
