# Line labeling tool: point, midpoint and line buffers

A model of the logic inside `LabelingTool`, a desktop tool for labeling line
segments on images. The user clicks points on a 768×768 image label. Every
two consecutive clicks (indices 2k, 2k+1) make a floored integer midpoint,
and every two consecutive midpoints make a line. So line i comes from the
group of clicks 4i..4i+3. A press near a stored point (Manhattan distance
at most 10) grabs that point, and dragging it inside the label moves it.
Undo removes the last click and clear removes all of them. Moving to another
image empties the buffers. A save writes one JSON label file per image,
`<label directory>/<image stem>.json`. An image counts as labeled when that
file exists.

Files:

- `wrappers.dfy`: `Option`, used for the grabbed point.
- `geometry.dfy`: points, lines, the floored midpoint, the pairing rule
  `PairUp` and the lines a rebuild derives (`Chain`).
- `segments.dfy`: the three buffers as a value, the state a rebuild gives
  (`Rebuilt`), the state the tool's undo gives (`Undone`), the invariant
  `LinesFollow` and the hit test.
- `label_export.dfy`: the integer part of the export. For each line this is
  dx, dy and the vertex slice `points[4i:4i+4]`.
- `labels.dfy`: the label file name and the rescan of the labeled images.
- `tool.dfy`: the class `LabelingTool`. Its fields are the ones the tool
  updates in place. Its methods are the event handlers and buttons.

`LabelingTool.Valid()` is the session invariant:
- The current index is -1 while no list is loaded and in range otherwise.
- Every stored point lies inside the label.
- Line i of the line buffer is the line of the i-th group of four clicks.

Every public method of the tool keeps `Valid()`, including the tool's own
imperfect undo. The rebuild helper `UpdateLinesAndMidpoints` establishes the
line invariant from any points. As a
result, each exported vertex slice has exactly four entries, and the
exported line joins the midpoints of those four clicks.

The file system is a set of existing paths. It is passed to the operations
that look at it, and the save returns the set after its write. A directory
or a list of files chosen in a dialog is a parameter, and the empty value
stands for a cancelled dialog.

Three behaviours of the code are worth stating directly:

- A grabbed index that no longer exists makes `self.points[i] = pos` raise
  `IndexError` (labeling.py:206) before any buffer changes; the exception is
  not caught. `MouseMove` reports this as `raised`.
- Loading an image list only adds labeled images and never clears the set
  (labeling.py:155-159), so the labeled count can exceed the number of
  listed images (`StaleLabelsAfterReload`).
- The exported vertex slice `points[4i:4i+4]` (labeling.py:332) always has
  four entries: undo drops a line whenever one exists (labeling.py:389-390),
  so the lines never outrun the groups of four clicks
  (`UndoKeepsLinesFollowing`, `ExportedVerticesAreGroups`).

## Model

| member | source | states |
|---|---|---|
| `Geometry.Mid` | labeling.py:299-300 | the midpoint floors each coordinate: `2m <= a + b < 2m + 2`; the midpoint of two points inside the label is inside the label |
| `Geometry.PairUp` | labeling.py:296-306 | pairing yields `|s| / 2` elements, element k combining `s[2k]` and `s[2k+1]`; a trailing odd element is dropped |
| `Geometry.ChainAt` | labeling.py:296-306 | a rebuild has `|points| / 4` lines, and line i joins the midpoints of clicks 4i, 4i+1 and of clicks 4i+2, 4i+3 |
| `Segments.Rebuilt` | labeling.py:292-306 | after a rebuild `|midpoints| == |points| / 2`, `|lines| == |midpoints| / 2 == |points| / 4`, `midpoints[k]` is the floored midpoint of clicks 2k, 2k+1 and `lines[k]` is `(midpoints[2k], midpoints[2k+1])`; the points are kept |
| `Segments.LinesFollowIsPrefixOfChain` | labeling.py:296-306 | the lines follow the points (line i is the line of group i, at most `|points| / 4` lines) exactly when they are a prefix of a rebuild's lines |
| `Segments.RebuiltLinesFollow` | labeling.py:296-306 | a rebuild's lines follow its points |
| `Segments.Undone` | labeling.py:383-390 | undo on no points changes nothing; otherwise it removes exactly the last point and keeps the rest, removes the last line whenever there is one, removes the last midpoint only when the remaining point count is even and a midpoint exists, and otherwise keeps the midpoints |
| `Segments.UndoKeepsLinesFollowing` | labeling.py:385-390 | undo keeps line i equal to the line of group i and `|lines| <= |points| / 4` |
| `Segments.UndoneRebuilt` | labeling.py:383-390 | the corrected undo removes exactly the last point and leaves buffers equal to a rebuild of the remaining points |
| `Segments.UndoneTimesDropsOneLineEach` | labeling.py:385-390 | after k undos (k at most the point count) exactly the last k points are gone and `max(|lines| - k, 0)` lines remain |
| `Segments.UndoneTimesKeepsLinesFollowing` | labeling.py:385-390 | after any number of undos, line i is still the line of point group i |
| `Segments.UndoLinesPrefixOfRebuild` | labeling.py:385-390 | on any state whose lines follow its points, the tool's undo removes the same point as the corrected undo, and its lines are a prefix of the corrected lines (lines may be lost, never invented) |
| `Segments.UndoDivergesFromRebuild` | labeling.py:385-390 | after four clicks, undo leaves 3 points, 2 midpoints and 0 lines, while a rebuild of the 3 points has 1 midpoint; the state is not a rebuild |
| `Segments.UndoMidpointCountOffByOne` | labeling.py:387-388 | from any state with at least two points and one midpoint per pair of points, undo leaves one midpoint more than a rebuild when the point count was even and one fewer when it was odd |
| `Segments.FindDragTarget` | labeling.py:217-220 | the hit test returns the first index whose point is within Manhattan distance 10 of the press, and none exactly when no point is |
| `LabelExport.VertexSlice` | labeling.py:332 | the vertex slice has at most 4 points, is `points[4i..4i+4]` when the group is complete, the available tail `points[4i..]` when the group is partial, and empty past the end (Python slice clamping) |
| `LabelExport.RecordOf` | labeling.py:324-333 | plain definition (no contract): the record of line i holds `end - start` in x and y and the vertex slice of group i |
| `LabelExport.BuildLineRecords` | labeling.py:322-333 | one record per line, in order, with `dx = end.x - start.x`, `dy = end.y - start.y` and the vertex slice of its index |
| `LabelExport.ExportedVerticesAreGroups` | labeling.py:323-333 | when the lines follow the points, every exported record has exactly 4 vertices and its line joins the midpoints of vertices 0, 1 and of vertices 2, 3 |
| `LabelExport.ExportOfFourClicks` | labeling.py:323-333 | clicks (0,0), (2,0), (0,2), (2,2) give the single line (1,0)-(1,2), exported with dx 0, dy 2 and those four clicks as vertices |
| `Labels.PathJoin` | labeling.py:362 | plain definition (no contract): POSIX `os.path.join` of two parts; an absolute name replaces the directory, and a `/` is inserted unless the directory is empty or already ends in one |
| `Labels.SidecarPath` | labeling.py:343 | plain definition (no contract): the label file of an image is `<stem>.json` joined to the label directory, the same path the save writes and the check looks up (labeling.py:362); its shape is stated by `SidecarPathShape` |
| `Labels.SidecarPathShape` | labeling.py:362 | the label file name ends in `<stem>.json` and, for a relative name, starts with the label directory |
| `Labels.LabeledAmong` | labeling.py:136-138 | plain definition (no contract): the rescan's result, the images of the list whose label file exists under a set directory; the scan loop `AddLabeledAmong` is proved equal to it |
| `Labels.LabeledAmongSnoc` | labeling.py:155-159 | scanning one more image adds it to the labeled set exactly when it is labeled |
| `Tool.LabelingTool.constructor` | labeling.py:13-29 | a new session has no images, index -1, empty buffers, nothing grabbed, nothing labeled, and the remembered label directory |
| `Tool.LabelingTool.UpdateLinesAndMidpoints` | labeling.py:292-306 | the two append loops leave the midpoints and lines equal to a rebuild from the points, so `|midpoints| == |points| / 2` and `|lines| == |points| / 4`; the points are unchanged |
| `Tool.LabelingTool.MousePress` | labeling.py:212-225 | a left press inside the label grabs the first point within the threshold and leaves the buffers unchanged, or, when no point is near, appends the position (one more point) and rebuilds; any other press changes nothing |
| `Tool.LabelingTool.MouseMove` | labeling.py:201-207 | while a point is grabbed, a move inside the label replaces exactly that point and rebuilds; a move outside the label, or with nothing grabbed, changes nothing; a grabbed index past the end raises and changes nothing |
| `Tool.LabelingTool.MouseRelease` | labeling.py:227-231 | releasing the left button drops the grabbed point |
| `Tool.LabelingTool.UndoLastPoint` | labeling.py:383-390 | the buffers become `Undone` of the old buffers, and the session invariant still holds |
| `Tool.LabelingTool.UndoLastPointRebuilt` | labeling.py:383-390 | the corrected undo: drop the last point, then rebuild |
| `Tool.LabelingTool.ClearAll` | labeling.py:374-378 | the three buffers become empty |
| `Tool.LabelingTool.LoadCurrentImage` | labeling.py:165-171 | with the index in range the buffers become empty, otherwise nothing changes |
| `Tool.LabelingTool.NextImage` | labeling.py:177-181 | the index grows by one and the buffers are emptied only when it is below the last index; the index stays in range |
| `Tool.LabelingTool.PrevImage` | labeling.py:183-187 | the index drops by one and the buffers are emptied only when it is above 0; the index stays in range |
| `Tool.LabelingTool.SelectImage` | labeling.py:189-192 | the index becomes the clicked row and the buffers are emptied |
| `Tool.LabelingTool.CheckIfLabeled` | labeling.py:358-363 | false when no label directory is set; otherwise true exactly when the image's label file exists |
| `Tool.LabelingTool.ChangeSaveDirectory` | labeling.py:124-138 | a cancelled dialog changes nothing; otherwise the directory is replaced and the labeled set becomes exactly the listed images whose label file exists there |
| `Tool.LabelingTool.AddLabeledAmong` | labeling.py:155-159 | the scan loop adds exactly the labeled images of the list to the labeled set |
| `Tool.LabelingTool.LoadImages` | labeling.py:147-162 | a cancelled dialog changes nothing; otherwise the list is replaced, the index becomes 0, the buffers are emptied and the labeled images of the new list are added; nothing is ever removed from the labeled set |
| `Tool.LabelingTool.SaveLabels` | labeling.py:308-353 | with no directory (after an unanswered prompt) nothing is saved, and with no image list nothing is written; otherwise the label file `SidecarPath(dir, stem(current))` is added to the existing paths, so `CheckIfLabeled` of the current image becomes true, the current image joins the labeled set, and the records (one per line, 4 vertices each) are returned |
| `Tool.UndoAfterFourClicks` | labeling.py:383-390 | driving the class: four clicks and an undo leave 3 points, 2 midpoints and 0 lines, a state that is not a rebuild |
| `Tool.StaleLabelsAfterReload` | labeling.py:155-159 | driving the class: loading a second image list keeps the first list's labeled image, so the labeled count exceeds the number of images |

## Findings

| source | as written | input that shows it | evidently intended | confidence | as-written member | corrected member |
|---|---|---|---|---|---|---|
| labeling.py:383-390 | undo removes the last point, removes a midpoint only when the remaining count is even, and removes a line whenever one exists | clicks (0,0), (20,0), (0,20), (20,20), then undo: 3 points, 2 midpoints (one built from the removed click), 0 lines | after undo the midpoints and lines equal a rebuild from the remaining points (here 1 midpoint, 0 lines) | high, not executed | `Segments.UndoMidpointCountOffByOne` | `Segments.UndoneRebuilt` |

The parity test is inverted, so the midpoint count is wrong after every undo
from a consistent state with at least two clicks (`UndoMidpointCountOffByOne`);
`UndoDivergesFromRebuild` is the four-click instance. The tool's undo never
exports a wrong line: `UndoLinesPrefixOfRebuild`
shows its lines stay a prefix of the corrected ones. It does drop lines,
however: `UndoneTimesDropsOneLineEach` shows that every undo removes a line
while any is left, where a rebuild keeps `(|points| - k) / 4` lines. From 8
clicks, two undos leave 6 points and no line, where a rebuild keeps one
line, so a save at that point exports no line at all. The
midpoint buffer, which is drawn on screen, can hold a midpoint of a removed
click.

## Left out

- All widget plumbing is left out as display-only: layout, buttons, the list
  widget's item texts, shortcuts, painting, the cursor-coordinate text,
  `eventFilter`, `update_cursor_position`, `update_labeled_status`,
  `update_progress_label`, message boxes and the info label texts.
- The `temp_line` branch of `mouseMoveEvent` (labeling.py:208-209) is left
  out. It sets a field that nothing reads.
- Tool.LabelingTool.MousePress: the press position is taken as already
  relative to the image label, and `underMouse()` and the button test are
  boolean inputs.
- Tool.LabelingTool.SelectImage: requires the row to be in range, as it is
  for any item of the list the signal passes in.
- Dialogs are inputs: `QFileDialog` results are parameters.
- Settings are inputs: the constructor takes the remembered `QSettings`
  directory, and the write-back of a new directory is not modelled.
- `os.path.splitext(os.path.basename(p))[0]` is the constant `stem` of the
  class, a function fixed at construction. The writer and the checker share
  it, and its string semantics are not modelled.
- Labels.PathJoin: models POSIX `os.path.join` of two parts only.
- Floating-point numerics are not modelled: the center `cx`, `cy` (true
  division), `atan2` and `sqrt`, and the `image` base name of a record.
  Only the integer dx, dy and the vertex slice are modelled.
- File output is left out: JSON serialisation, `os.makedirs` and the write,
  and their failures. A save is assumed to succeed and is modelled as adding
  the label file's path to the set of existing paths.
- Image loading is left out: the `QPixmap` of the current image, its
  drawing offset and its size.
- Coordinates are unbounded integers, not 32-bit `QPoint` values. Every
  stored point lies inside the 768×768 label, so no sum of two coordinates
  comes near overflow.
