# Atomistic Simulation Visualiser — a Dafny model of its state logic

The visualiser steps a LAMMPS molecular-dynamics run and shows it live.
`OffscreenPanda` keeps the per-atom arrays, the simulation cell, a history of
thermo quantities (`sim_info`) and a Panda3D scene: one node per atom, a
wireframe of the simulation box, and a camera orbiting a pivot.
`MainWindow` wraps that view in a Qt window with:

- a play/pause button and a reset button;
- speed, thermostat and barostat sliders;
- one graph per recorded quantity. Once the STEP history holds more than `info_size` samples, each frame drops at most one oldest sample of STEP and of every graphed series.
  - The sample is recorded twice per frame, once in `run_single` (src/panda.py:239) and once in `update_frame` (src/mainwindow.py:165).
  - Under the `Panda.AppendSample` stand-in for `extractThermo`, the limit therefore does not bound the history (`Window.HistoryOutgrowsLimit`).

`PandaLabel` shows the rendered frame. It turns left-button drags into camera
rotations and wheel notches into zoom.

This project models the plain, sequential logic inside that glue:

- `thermo_keywords.dfy` (module `ThermoKeywords`): the thermo-keyword parse
  of `setupLammps`.
  - Python's `rstrip`, `strip`, `split(" ")`, `list.remove`, `upper`;
  - the `list(set(...))` round, whose order is left open;
  - the keys and empty histories of `sim_info`.
- `atom_order.dfy` (module `AtomOrder`): numpy row indexing (a negative index
  wraps, anything else out of range raises IndexError). On top of it:
  - the scatter of per-atom rows into atom-ID order done by `run_single`;
  - the gather by ID done by `createAtomsTask`.
- `box_wireframe.dfy` (module `BoxWireframe`): the pen path of
  `drawSimulationBoxTask`, stated over the corners of the parallelepiped, and
  the lower-triangular cell.
- `panda.dfy` (module `Panda`): the class `OffscreenPanda`.
  - setup, one engine step (`run_single`), `moveAtomsTask`;
  - the box walk, which writes to row 2 of the cell through a numpy view;
  - the camera updates.
- `pandalabel.dfy` (module `Drag`): the drag tracker of `PandaLabel` and the
  class itself.
- `main_window.dfy` (module `Window`): the class `MainWindow`.
  - checkbox and graph selection, with titles;
  - play/pause and reset;
  - the frame update, with the history trim that pops from lists shared with
    `sim_info`.
- `geometry.dfy` (module `Geometry`): shared values (3-vectors, widget
  points, `Option`).

What the engines report is passed in as values, not called:

- `EngineSetup` holds the input-script lines and the initial arrays.
- `EngineStep` holds one thermo sample, the box, and the arrays after one `run`.

Coordinates are exact `real`s. A Python exception becomes an `ok` result that
is false, and the model keeps the state the code leaves behind when it raises.
Each Panda3D atom node is represented by the position it was given.

## Model

| member | source | states |
|---|---|---|
| ThermoKeywords.RStripIsLongestPrefix | src/panda.py:103 | `rstrip` keeps the longest prefix not ending in white space and cuts only white space |
| ThermoKeywords.LStripIsLongestSuffix | src/panda.py:107 | `lstrip` keeps the longest suffix not starting with white space and cuts only white space |
| ThermoKeywords.StripTrims | src/panda.py:107 | a stripped word is a slice of the word with only white space cut off each end, and neither end is white space |
| ThermoKeywords.ThermoLinesFilter | src/panda.py:103 | a line is a keyword line exactly when it is a script line whose right-stripped text starts with `thermo_style` |
| ThermoKeywords.SplitSpace | src/panda.py:105 | `split(" ")` yields at least one piece and no piece contains a space |
| ThermoKeywords.JoinSplit | src/panda.py:105 | joining the pieces of `split(" ")` with single spaces gives back the line |
| ThermoKeywords.SplitJoin | src/panda.py:105 | splitting a single-space join of space-free pieces gives back the pieces |
| ThermoKeywords.LineTokenOrigin | src/panda.py:105-107 | a token of a line is exactly a stripped space-separated piece of it |
| ThermoKeywords.TokensOfOrigin | src/panda.py:104-107 | a token of the keyword lines is a token of one of them |
| ThermoKeywords.TokenOrigin | src/panda.py:103-107 | only lines whose right-stripped text starts with `thermo_style` contribute tokens, and every token of such a line is collected |
| ThermoKeywords.RemoveFirst | src/panda.py:110 | `list.remove` shortens the list by one |
| ThermoKeywords.FirstIndex | src/panda.py:110 | the index found holds the word and no earlier entry does |
| ThermoKeywords.RemoveFirstIsFirst | src/panda.py:110 | `list.remove` cuts out exactly the first occurrence and keeps the rest in order |
| ThermoKeywords.RemoveFirstCount | src/panda.py:110 | `list.remove(x)` lowers the count of x by one and changes no other count |
| ThermoKeywords.RemovalCounts | src/panda.py:108-110 | `thermo_style` and `custom` each lose one occurrence when present, and every other word keeps its count |
| ThermoKeywords.SingleLineDropsBothWords | src/panda.py:108-112 | with one keyword line holding each of the two words once, neither word survives |
| ThermoKeywords.RepeatedThermoStyleBecomesKey | src/panda.py:108-116 | a second `thermo_style` token survives the single removal and becomes the key `THERMO_STYLE` |
| ThermoKeywords.Upper | src/panda.py:116 | upper-casing keeps the length and leaves no lower-case ASCII letter |
| ThermoKeywords.UpperIdempotent | src/panda.py:116 | upper-casing twice is upper-casing once |
| ThermoKeywords.KeysAreUpperTokens | src/panda.py:112-116 | every surviving token upper-cased is a key, every key comes from a surviving token, and every key is upper-case |
| ThermoKeywords.CollectTokens | src/panda.py:103-107 | the nested loops append exactly the tokens of the keyword lines, line by line and piece by piece |
| ThermoKeywords.DropBadKeywords | src/panda.py:108-110 | the loop removes the first `thermo_style` and then the first `custom`, each only when present |
| ThermoKeywords.KeysFrom | src/panda.py:111-116 | the keys are exactly the upper-cased distinct keywords, each with an empty history, and the insertion order lists each key once |
| ThermoKeywords.ParseThermoKeywords | src/panda.py:99-116 | the loops give `sim_info` the key set of the parse, an empty history per key, and a distinct key order covering exactly those keys |
| AtomOrder.RowIndex | src/panda.py:260 | numpy accepts a row index k exactly when -n <= k < n, and picks the row congruent to k mod n |
| AtomOrder.Scatter | src/panda.py:254-261 | a scatter that does not raise gives an array with as many rows as the target |
| AtomOrder.ScatterFails | src/panda.py:258-261 | the scatter raises exactly when some written row is missing from the source or some ID lands outside the target even after wrap-around |
| AtomOrder.ScatterNoneStays | src/panda.py:258-261 | once a write has raised, the scatter over any longer prefix of IDs raises too |
| AtomOrder.ScatterById | src/panda.py:255-261 | with distinct IDs in 1..n, row `ids[i]-1` receives row i, and rows that no ID names stay zero |
| AtomOrder.ScatterPermutation | src/panda.py:255-263 | when the IDs are a permutation of 1..n, row `ids[i]-1` of `ix_sorted` holds row i of `ix` |
| AtomOrder.Gather | src/panda.py:132-148 | gathering by ID yields one position per ID |
| AtomOrder.GatherSpec | src/panda.py:132-148 | the gather succeeds exactly when every ID indexes the positions, and then node i sits at the row its ID names |
| BoxWireframe.RenderAppend | src/panda.py:157-178 | rendering two walks one after the other renders each of them |
| BoxWireframe.CornerEdgesAppend | src/panda.py:157-178 | the edges drawn by two walks in sequence are those of each, the second starting where the first ended |
| BoxWireframe.WalkDrawsWalkEdges | src/panda.py:157-178 | the three walks draw the listed sequence of corner edges |
| BoxWireframe.WalkEdgesAreDistinctEdges | src/panda.py:157-178 | the wireframe draws 12 lines, each an edge of the parallelepiped and no edge twice |
| BoxWireframe.WalkCoversEveryEdge | src/panda.py:157-178 | every edge of the parallelepiped is among the drawn lines |
| BoxWireframe.BottomFace | src/panda.py:157-162 | the bottom face moves to 0 and draws to a, a+b, b and back to 0 |
| BoxWireframe.SupportSides | src/panda.py:164-171 | the support sides are the vector c drawn from 0, a, b and a+b |
| BoxWireframe.AtTop | src/panda.py:173-178 | a top corner is its bottom corner moved by c |
| BoxWireframe.TopFaceIsShiftedBottom | src/panda.py:173-178 | the top face is the bottom face shifted by c, command by command |
| BoxWireframe.SegmentsFollowCorners | src/panda.py:157-178 | the segments a rendered walk draws are its corner edges placed at their points |
| BoxWireframe.BoxSegments | src/panda.py:157-178 | starting with the pen at the origin, the path draws exactly the 12 edges, placed at the cell's corner points |
| BoxWireframe.CellIsLowerTriangular | src/panda.py:242-247 | the built cell has the box lengths on the diagonal, xy, xz, yz below it, zeros above it, and volume lx·ly·lz whatever the tilts |
| Panda.AppendSample | src/panda.py:239 | the history keeps its keys; a series the sample names grows by exactly that sample, and every other series is unchanged |
| Panda.ClampPitch | src/panda.py:269 | the pitch is clamped into [-85, 85], with in-range values unchanged and values beyond a bound moved to that bound |
| Panda.Placed | src/panda.py:198-199 | moving the first n nodes keeps the number of nodes |
| Panda.BuildCell | src/panda.py:241-247 | the cell is a fresh 3×3 array whose entries are the lower-triangular cell of the box |
| Panda.SortById | src/panda.py:249-263 | the loop succeeds exactly when both ID scatters do; then `ix_sorted` is the ID scatter of `ix`, and `x` is the raw first rows (unsorted), or the full array when there are no IDs |
| Panda.WriteRow | src/panda.py:260-261 | one row write succeeds exactly when the scatter over one more ID is defined, and then the array is that scatter; on IndexError nothing is written |
| Panda.OffscreenPanda.constructor | src/panda.py:14-79 | after `__init__` the object is set up from the engine output, unpaused, with one atom node per ID at its position |
| Panda.OffscreenPanda.SetupLammps | src/panda.py:81-128 | arrays, zero cell, run defaults and keyword keys with empty histories are read afresh; atom creation succeeds exactly when the gather does, and then gives the gathered positions; on IndexError the nodes are the gather of the IDs before the first ID that falls outside `x` |
| Panda.OffscreenPanda.ReadEngineState | src/panda.py:84-116 | the engine arrays, the defaults and the parsed keys replace the old state |
| Panda.OffscreenPanda.ReadEngineArrays | src/panda.py:85-89 | IDs, positions cut to the number of IDs, image flags, unwrapped positions and a zero 3×3 cell |
| Panda.OffscreenPanda.ResetRunParameters | src/panda.py:90-96 | `timestep = 1`, `tStart = tStop = 1`, `pStart = pStop = 0`, no bond pairs and no vertices |
| Panda.OffscreenPanda.ParseKeywords | src/panda.py:98-116 | `sim_info` gets the parsed key set, empty histories and a distinct key order |
| Panda.OffscreenPanda.CreateAtoms | src/panda.py:130-149 | one node per ID at the position its ID names; on IndexError, the nodes made before the failing ID |
| Panda.OffscreenPanda.Snapshot | src/panda.py:231-233 | `x_old`, `ix_old`, `xu_old` become copies of the current arrays |
| Panda.OffscreenPanda.ExtractThermo | src/panda.py:239 | the history grows by the sample and the object's invariant is kept |
| Panda.OffscreenPanda.UpdateCell | src/panda.py:241-247 | the cell becomes the lower-triangular cell of the step's box |
| Panda.OffscreenPanda.RunSingle | src/panda.py:228-263 | the old arrays are snapshotted, the history grows, the cell is rebuilt, `x` is the raw engine rows, `ix` is the ID-sorted array and `xu` is unchanged; on IndexError, `x` and `ix` keep their old values |
| Panda.OffscreenPanda.MoveAtoms | src/panda.py:194-200 | paused changes nothing; otherwise one step, and node i moves to row i of `x` for every i below the atom count, with IndexError exactly when a list is too short |
| Panda.OffscreenPanda.PlaceAtoms | src/panda.py:198-199 | node i gets row i of `x` for i below the atom count; it raises exactly when either list is shorter than the count |
| Panda.OffscreenPanda.DrawSimulationBox | src/panda.py:151-185 | the pen path is the wireframe of the cell rows, and the cell comes back unchanged after being walked through the row-2 view |
| Panda.OffscreenPanda.BottomFacePath | src/panda.py:157-162 | the loop's pen path is the bottom-face walk |
| Panda.OffscreenPanda.SupportSidesPath | src/panda.py:164-171 | the loop's pen path is the four support sides |
| Panda.OffscreenPanda.BaseCorner | src/panda.py:165-168 | the base point is the sum of the cell rows the combination names |
| Panda.OffscreenPanda.TopFacePath | src/panda.py:173-178 | the path is the top-face walk of the original rows, and the in-place additions to row 2 leave it as it was |
| Panda.OffscreenPanda.AddToRow2 | src/panda.py:177 | `p += sign * cell[k]` with `p` a view of row 2: row 2 grows by the signed row k and rows 0 and 1 stay |
| Panda.OffscreenPanda.RotateCamera | src/panda.py:265-270 | heading becomes old − 0.2·dx, pitch becomes old + 0.2·dy clamped to [-85, 85], roll becomes 0 |
| Panda.OffscreenPanda.ZoomCamera | src/panda.py:272-275 | the distance becomes old − delta, with no lower bound, and the camera sits at y = −distance |
| Drag.Next | src/pandalabel.py:14-29 | a left press records its position and any other press changes nothing; a left move with a recorded position forwards the travel since that position and records the new one; any other move does nothing; a release clears the position |
| Drag.MovesTelescope | src/pandalabel.py:19-25 | while a position is recorded, every left move is forwarded; the forwarded dx values sum to the last x minus the recorded x, and likewise for dy |
| Drag.SumsOfCons | src/pandalabel.py:22-23 | summing the deltas from the back agrees with prepending one |
| Drag.HeadingIsLinear | src/panda.py:267 | after a run of rotations the heading is the start minus 0.2 times the summed dx |
| Drag.DragHeading | src/pandalabel.py:14-25 | over one press-and-drag, the camera heading turns by −0.2 times the mouse's total horizontal travel, however the drag was cut into events |
| Drag.ReleasedMovesForwardNothing | src/pandalabel.py:20 | with no position recorded, moves and releases forward nothing and record nothing until a press |
| Drag.NextAsWritten | src/pandalabel.py:19-25 | as written, a left move from the recorded point (0, 0) forwards nothing and keeps that point; every other event behaves as in Next |
| Drag.OriginDragIsLost | src/pandalabel.py:20 | a left press at (0, 0) followed by left moves never turns the camera as written, while the None test forwards the first move |
| Drag.PandaLabel.constructor | src/pandalabel.py:7-11 | the label starts with no recorded position |
| Drag.PandaLabel.MousePress | src/pandalabel.py:14-16 | left press records the position, any other press keeps the recorded one |
| Drag.PandaLabel.MouseMove | src/pandalabel.py:19-25 | the recorded position follows Next; a forwarded delta rotates the camera as `rotate_camera` does, and otherwise the camera is unchanged |
| Drag.PandaLabel.MouseRelease | src/pandalabel.py:28-29 | any release clears the recorded position |
| Drag.PandaLabel.Wheel | src/pandalabel.py:32-34 | the camera distance drops by angle delta / 120, and the camera stays at y = −distance |
| Window.ButtonText | src/mainwindow.py:143 | the button reads "Play" exactly when paused and "Pause" exactly when running |
| Window.Graphable | src/mainwindow.py:74-79 | a key is selected exactly when it is a history key other than STEP |
| Window.GraphableDistinct | src/mainwindow.py:74-79 | the selection of distinct keys holds no key twice |
| Window.GraphFor | src/mainwindow.py:89-123 | TEMP gets label "Temperature", PRESS "Pressure", the key DEFAULT the empty label, any other key K the label K; every title is the label followed by " over Time" |
| Window.CheckboxKeys | src/mainwindow.py:73-79 | the loop makes a checkbox for every history key except STEP and for no other key, in key order |
| Window.BuildGraphs | src/mainwindow.py:93-123 | the loop makes one graph for every history key except STEP, stored under its own key in key order, each titled as GraphFor says |
| Window.PopEach | src/mainwindow.py:171-172 | the trim loop keeps the history's key set |
| Window.PopEachSpec | src/mainwindow.py:171-172 | with distinct keys the trim succeeds exactly when every visited series is present and non-empty, and then exactly those series lose their first sample |
| Window.PopEachLeavesOthers | src/mainwindow.py:171-172 | a series the loop does not visit is untouched |
| Window.DropOldest | src/mainwindow.py:169-172 | the trim keeps the history's key set |
| Window.DropOldestSpec | src/mainwindow.py:169-172 | with distinct graphed keys other than STEP, the trim succeeds exactly when every graphed series is present and non-empty; then STEP and each graphed series lose exactly their oldest sample and every other series is unchanged; STEP loses its oldest even when a later pop raises |
| Window.RecordFrame | src/mainwindow.py:164-172 | the history keeps its keys, and the update succeeds only when a graph exists and STEP and every graphed series are present |
| Window.RecordFrameSpec | src/mainwindow.py:164-172 | with no graph the history is unchanged; otherwise the sample is recorded, a missing series raises with the sample kept, and the update succeeds exactly when every series is found and, past `info_size` STEP samples, every graphed series is non-empty; then exactly STEP and the graphed series lose their oldest sample |
| Window.HistoryOutgrowsLimit | src/mainwindow.py:165-172 | with the sample recorded once in the step and once more in the update, a STEP history at or above `info_size` grows by one sample per frame |
| Window.MainWindow.constructor | src/mainwindow.py:19-126 | the button reads "Pause", the sliders are at 1, 0 and 0, the checkboxes and graphs are the selections above, and the graph keys are distinct and exclude STEP |
| Window.MainWindow.TogglePlay | src/mainwindow.py:141-143 | the pause flag is negated and the button text matches the new state |
| Window.MainWindow.ResetSimulation | src/mainwindow.py:145-153 | the sliders go to 1, 1 and 0, the engine state is set up afresh, and the pause flag is kept; the atom nodes are the gathered positions, or on IndexError the nodes made before the failing ID |
| Window.MainWindow.LookUpSeries | src/mainwindow.py:166-167 | the curve loop finds every series it looks up exactly when STEP and every graphed key are in the history |
| Window.MainWindow.TrimHistory | src/mainwindow.py:169-172 | the oldest STEP sample goes, then the oldest sample of each graphed series in graph order, removed from `sim_info` itself; with the constructor's distinct, STEP-free graph keys it succeeds exactly when every graphed series is present and non-empty, and then exactly those series and STEP have lost their oldest sample |
| Window.MainWindow.RecordHistory | src/mainwindow.py:164-172 | the history part of the update is RecordFrame of the history and the sample, whose outcome RecordFrameSpec states |
| Window.MainWindow.FinishFrame | src/mainwindow.py:164-173 | the history is recorded and trimmed, and when that succeeds the box is redrawn from an unchanged cell; when it raises the box path is kept; the atom arrays and nodes are not touched |
| Window.MainWindow.UpdateFrame | src/mainwindow.py:156-173 | paused changes nothing; otherwise the old arrays are snapshotted, `x` and `ix` become the raw and ID-sorted rows (kept on IndexError), the cell is rebuilt, the atoms move, the history is recorded and trimmed as RecordFrame says, and the box is redrawn; on an exception the box path is kept and the state reached so far is left |

## Left out

- LAMMPS, Panda3D, Qt and pyqtgraph. They are not called; their outputs are `EngineSetup`/`EngineStep` values.
  - Not modelled: scene-graph nodes, lights, models, line-segment objects, `removeNode`, the offscreen buffer, `render_frame_to_qimage`, pixmaps, plot curves and their `setData`, widget layout, the 33 ms timer, and `lmp.command("clear")`.
- `center_camera` and `pan_camera`: floating-point norms, trigonometry and engine quaternions.
- `drawBondsTask`, `calcAtomPairs`, `create_bond_geometry`: bond drawing is not part of this model.
- Panda.AppendSample: the code of `extractThermo` is not part of this model. Its effect is taken to be "append the sample's value to every series whose key the sample names".
- Atom colours, scales and symbols in `createAtomsTask`: not modelled.
  - The `type_to_symbol` look-up that raises KeyError for types other than 1 is not modelled.
  - The index into `atom_symbols` is assumed to fail exactly when the index into `x` does.
- Slider signal handlers: not modelled; the sliders are plain numbers.
  - `changeSpeed` is called with three arguments at src/mainwindow.py:50 but takes one in src/funcs.py:20.
  - `changeThermo`, `changeBaro` and `toggleGraphView` are not defined in any file.
- The label texts built from `panda.timestep`, `tStop` and `pStop` are not modelled.
- Panda.OffscreenPanda.constructor: requires that creating the atom nodes does not raise, since the object does not exist when `__init__` raises.
  - It also does not state the initial camera pose (heading, pitch and roll 0, distance 60), only that the pitch and camera offset satisfy the object's invariant.
  - The earlier `cam2.set_pos(4, -25, 3)` and the pivot position are not modelled.
- Window.MainWindow.UpdateFrame: the wall-clock time `t` is computed but never used and is left out. The aliasing of `xdata`/`ydatas` with `sim_info` is modelled by trimming `sim_info` directly.
  - This matches the code, because after the curve loop each alias names the current `sim_info` list of its key.
- The order of `list(set(keywords))` is unspecified in Python, so the parse picks any order. Only the key set and its distinctness are stated.
- ThermoKeywords.Upper: `str.upper` is modelled for ASCII letters only; other characters are kept as they are. `str.isspace` covers Python's full white-space set.
- Drag.PandaLabel.MouseMove: it tests `_last is not None` where src/pandalabel.py:20 tests `if self._last`; the two differ only for a recorded point at (0, 0), see Findings.
- Panda.OffscreenPanda.RunSingle: the engine arrays `x`, `ix` and `xu` are taken as copies, not as views of engine memory. If the engine wrapper returns views that later steps refresh, `xu` and `xu_old` would follow the engine instead of staying at their setup values. Nothing in the modelled code reads them.
- Heading angles are not normalised, as in the code. Floating-point rounding is not modelled: the exact restoration of cell row 2 after the top-face walk holds over `real`.
- Reading the input file: the script lines are passed in.
- src/debug.py, src/FlaskApp.py, src/simulation.py and src/funcs.py are not part of this model.

## Findings

| source | as written | input that shows it | evidently intended | confidence | as-written member | corrected member |
|---|---|---|---|---|---|---|
| src/pandalabel.py:20 | `if self._last` tests the recorded QPointF for truth, and PyQt treats the point (0, 0) as false | a left press at widget position (0, 0) followed by a left move to (5, 5): nothing is forwarded, and `_last` stays (0, 0) for the whole drag | test `self._last is not None`, so every left drag turns the camera | medium (rests on PyQt's truth value for QPointF); not executed | Drag.OriginDragIsLost | Drag.DragHeading |
