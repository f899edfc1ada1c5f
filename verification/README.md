# Paint trace list — a Dafny model

This project models the core of a small paint program (a Python program on the
`arcade` library): the ordered list of **traces** that pointer and key events
build, and the helpers around it. A trace records the `tool` name that made it,
a `color` tuple, its ordered `trace` points and, for cell painting, a `size`.

Modelled, module by module:

- `Geometry` — points with exact real coordinates and `_snap_to_cell_center`:
  floor division by the grid size, then the centre of that cell, per axis.
- `Traces` — the `Trace` record, the five tools and their names.
- `Tools` — `EraserTool.erase_at` (as a reference function `Erase` and as the
  source's nested loop `EraseAt`), `SprayTool.scatter` (count and "centre plus
  offset" only), and the renderers' `draw_traces` reduced to the list of shapes
  each would draw: the `tool`-name filter, line strip or dot for pencil (width 3)
  and marker (width 10), a point cloud for spray (width 5), one square per point
  for cells with a default side of 16.
- `Records` — the pure conversion behind `_act_save` and the load block of
  `__init__`: trace to JSON record and back, the all-or-nothing load (any failing
  record leaves an empty list), the renderer registration of the load loop, and
  the round trip.
- `Session` — the session state and its events: `on_mouse_press`,
  `on_mouse_drag`, `on_key_press`, the `_act_*` handlers, `_next_rainbow_color`,
  the paper cycle, the grid-size keys, and start-up with an optional file.
- `SessionProperties` — what each event does to the trace list in each mode, and
  an invariant (`Session.Valid`) kept by start-up and every event: grid size even
  and within [8, 48], the selected tool's renderer registered, and every stored
  trace of a drawing kind drawn by a registered renderer.

Behaviour a reader might not expect, modelled as the code has it:

- The eraser tests only stored points, never the segments drawn between them
  (`Tools.EraseIgnoresSegments`).
- Pencil and marker drags append every point, with no duplicate check
  (`SessionProperties.DragStrokeNoDedup`).
- Loading accepts any tool name and does not reject an empty point list
  (`Records.UnknownToolLoads`); an empty point list later makes a cell-path drag
  fail, modelled as `Drag` returning `Err(EmptyLastTrace)`.
- In grid mode a drag extends the last trace whatever its kind and gives it a
  `size` (`SessionProperties.GridDragSizesAnyTrace`); saving then drops that
  size, since only `CELL` records carry one.
- A cell-tool press with the grid off does not register the cell renderer itself
  (main.py:364-367); it is registered already because selecting the tool did so
  (`SessionProperties.PressGridForcesCell`).
- The toolbar lays out buttons left to right and stops at the first one that
  would pass the panel's left edge (main.py:193-199). With the widths of
  main.py:54-55 the five tool buttons fit. The sixth, the grid toggle, would
  start at x = 599 and, 120 wide, end at 719, past the edge at 650. So the grid, paper, rainbow, save
  and clear buttons are never laid out. Those actions stay reachable by key
  except clearing, which no key triggers. The free `UiHit` parameter
  over-approximates this: it lets a press hit any action, `ClearAll` included.

Inputs the program takes from its environment are parameters: `UiHit` says what
toolbar button or colour swatch lies under a press in the toolbar band (the
layout is not modelled), `jitter` gives the spray's random offsets, and a loaded
file arrives as `Option<Json>`, where `None` stands for a file that could not be
read or parsed.

## Model

| member | source | states |
|---|---|---|
| `Geometry.SnapCoord` | main.py:283-284 | the snapped coordinate is a cell centre, half a cell past the start of its own floor-division cell. That cell is the input's: the input lies at most half a cell below the centre and strictly less than half a cell above it |
| `Geometry.SnapPoint` | main.py:281-285 | each axis of the snapped point is a cell centre lying in the same floor-division cell as the input coordinate on that axis |
| `Geometry.FloorScaled` | main.py:283 | the cell picked by floor division starts at or below the coordinate and ends strictly above it |
| `Geometry.IndexOfCell` | main.py:283 | a coordinate inside cell `k` has floor-division index `k` |
| `Geometry.CentreIndex` | main.py:283-284 | the centre of cell `k` lies in cell `k`, so the snapped value is aligned to the grid at half a cell |
| `Geometry.SnapUnique` | main.py:283-284 | any cell centre whose half-open cell holds the input is the snapped value (an independent characterisation of the floor quantization) |
| `Geometry.SnapIdempotent` | main.py:283-284 | snapping an already snapped coordinate returns it unchanged |
| `Geometry.SnapPointIdempotent` | main.py:281-285 | snapping an already snapped point returns the same point |
| `Geometry.SnapExample` | main.py:281-285 | with grid size 20 the press point (27, 43) snaps to (30, 50) |
| `Tools.Erase` | tool.py:69-84 | the list left by the eraser never grows and holds exactly the traces of the input that have no stored point within the radius |
| `Tools.EraseAt` | tool.py:69-84 | the source's loop, which stops scanning a trace at its first point within the radius, keeps exactly the traces `Erase` keeps, in the same order |
| `Tools.EraseAppend` | tool.py:71-84 | erasing a concatenation is the concatenation of the erasures, so survivors keep their relative order |
| `Tools.EraseKeepsUnhit` | tool.py:72-82 | when no trace is hit, the list is left exactly as it was |
| `Tools.EraseIdempotent` | tool.py:69-84 | erasing twice at the same point equals erasing once |
| `Tools.EraseRemovesWholeTrace` | tool.py:74-82 | a single point within the radius removes the whole trace and shortens the list |
| `Tools.EraseIgnoresSegments` | tool.py:75-80 | a stroke from (0,0) to (10,0) survives erasing at (5,0) with radius 1: only stored points are tested |
| `Tools.EraseBoundaryInclusive` | tool.py:69-78 | the test is inclusive: a point exactly 12 away is hit by the default radius of 12 |
| `Tools.Scatter` | tool.py:44-51 | a spray batch has exactly `count` points, the i-th being the centre displaced by the i-th random offset |
| `Tools.DrawOnlyOwned` | tool.py:13-62 | what a renderer draws from the whole list equals what it draws from the traces carrying its own tool name |
| `Tools.DrawIgnoresForeign` | tool.py:13-62 | appending a trace with another tool name changes nothing a renderer draws |
| `Tools.EraserDrawsNothing` | tool.py:64-67 | the eraser's renderer draws nothing whatever the list holds |
| `Tools.CellDefaultSide` | tool.py:55-62 | a cell trace without a size is drawn as one square of side 16 centred on each of its points |
| `Records.EncodeRecord` | main.py:269-273 | a saved record has the keys tool, color and trace, plus size exactly for `CELL` traces, where it is the trace's size or else the live grid size |
| `Records.SaveRecords` | main.py:266-275 | the saved file holds one record per trace |
| `Records.DecodePoints` | main.py:156 | a point list decodes exactly when every element is a two-number list, and then element by element |
| `Records.DecodeColor` | main.py:155 | a colour list decodes exactly when every element is an integer, and then element by element |
| `Records.DecodeRecord` | main.py:152-159 | a record decodes only if it is an object with tool, color and trace. Conversely, any such object with a string tool, decodable colour and points, and (for `CELL`) an integer or missing size decodes, whatever other keys it has. It gets exactly the decoded colour and points and the tool string as is. Only a `CELL` trace gets a size: the record's, or 24 when there is none |
| `Records.ExtraKeysIgnored` | main.py:152-159 | a marker record with a stray `size` and an unknown key loads as a marker trace without a size |
| `Records.DecodePrefix` | main.py:152-160 | the load loop appends each record in order up to the first one that fails to decode |
| `Records.LoadTraces` | main.py:148-173 | a top-level list whose records all decode loads every one of them. Otherwise the trace list is empty. A non-empty result is one decoded trace per record, in order |
| `Records.LoadRegistered` | main.py:161-169 | the pencil renderer is registered, and loading registers only renderers of the four drawing kinds |
| `Records.PointsRoundTrip` | main.py:156 | decoding saved point lists gives the points back |
| `Records.ColorRoundTrip` | main.py:155 | decoding a saved colour list gives the colour back |
| `Records.RecordRoundTrip` | main.py:152-159 | loading a saved record gives back the trace with its size normalized (kept or filled in for `CELL`, dropped otherwise) |
| `Records.SaveLoadRoundTrip` | main.py:266-275 | loading a saved file gives back every trace in order, each normalized: a `CELL` trace keeps its size or gains the live grid size, any other trace loses its size |
| `Records.SaveLoadIdentity` | main.py:266-275 | for traces where exactly the `CELL` ones carry a size, loading the saved file gives back the identical list |
| `Records.BadRecordEmptiesLoad` | main.py:171-173 | one record that fails to decode leaves the whole loaded list empty |
| `Records.UnknownToolLoads` | main.py:152-169 | a record with an unknown tool name loads as a trace with that name and registers no renderer for it |
| `Session.NextPaper` | main.py:252-258 | every paper-mode step changes the mode, and from no ruling it goes to the blue/red ruling |
| `Session.PaperPeriodThree` | main.py:252-258 | three paper cycles return to the starting mode and two do not; the order is no ruling, blue/red ruling, black ruling, then no ruling again |
| `Session.NextRainbowColor` | main.py:287-290 | the rainbow step returns a palette colour and advances the index by exactly one, changing nothing else |
| `Session.GestureColor` | main.py:353 | a new trace takes the selected colour when rainbow mode is off, and otherwise a palette colour with the index advanced by one |
| `Session.RainbowRunAt` | main.py:287-290 | the k-th of successive rainbow colours is the palette entry at the starting index plus k, modulo the palette size |
| `Session.RainbowPeriodic` | main.py:128-133 | with 9 palette colours every gesture start gets the colour of the one nine starts earlier, so the tenth gets the colour of the first |
| `Session.ShrinkGrid` | main.py:325-326 | the Z key never goes below 8 and otherwise steps down by 2 |
| `Session.GrowGrid` | main.py:327-328 | the X key never goes above 48 and otherwise steps up by 2 |
| `Session.GridStepsKeepBoundsAndParity` | main.py:325-328 | from an even size in [8, 48], both keys keep the size even and in [8, 48] |
| `Session.Apply` | main.py:229-264 | selecting a tool makes it current and registers its renderer, and no other action touches either. The grid and rainbow actions flip their flag, the paper action moves to the next paper mode, clearing empties the trace list and nothing else changes it. Saving leaves the session as it was. Grid size, colour and rainbow index never change |
| `Session.ApplyTwice` | main.py:229-264 | the grid and rainbow toggles undo themselves; selecting a tool, saving and clearing are idempotent; three paper cycles return to the start |
| `Session.ClickUi` | main.py:331-340 | a miss changes nothing, a swatch sets the selected colour and nothing else, and a button runs its action; grid size and rainbow index are kept |
| `Session.KeyPress` | main.py:298-329 | keys 1-5 select pencil, marker, spray, eraser and cell; A, S, D and F set red, green, blue and black. Z and X step the grid size by `ShrinkGrid` and `GrowGrid`. G, H and R toggle the grid, cycle the paper and toggle the rainbow. Every other key leaves those fields alone. The trace list and rainbow index never change, and the renderer of the tool selected afterwards is added to the registered set |
| `Session.Press` | main.py:342-370 | a non-left press changes nothing, and a left press in the toolbar band is exactly the toolbar click (`ClickUi`). A canvas press changes only the trace list, the registered renderers (the cell renderer is added on the grid path only) and the rainbow index, which advances by one exactly when rainbow mode is on and the tool is not the eraser. With any tool but the eraser it appends exactly one non-empty trace with the gesture's colour and keeps every earlier trace |
| `Session.ExtendCell` | main.py:376-383 | a cell extension fails only when the last trace has no points, keeps the list length and changes nothing but the trace list |
| `Session.Drag` | main.py:372-397 | a drag changes only the trace list; apart from the eraser it keeps the list length and every trace but the last; on an empty list it does nothing |
| `Session.Init` | main.py:119-173 | start-up selects the pencil with blue, grid size 24, no paper ruling, grid and rainbow off and rainbow index 0. Its trace list and registered renderers are exactly what loading the file gives (`LoadTraces`, `LoadRegistered`) |
| `SessionProperties.InitValid` | main.py:148-173 | start-up, with or without a loadable file, gives a valid session |
| `SessionProperties.KeyPressValid` | main.py:298-329 | every key keeps the session valid, so Z and X keep the grid size even and in [8, 48] |
| `SessionProperties.PressValid` | main.py:342-370 | every press keeps the session valid |
| `SessionProperties.DragValid` | main.py:372-397 | every drag that does not fail keeps the session valid |
| `SessionProperties.PressInToolbarAddsNothing` | main.py:343-346 | a left press in the toolbar band never appends a trace. The list changes only when the hit is the clear action, and then becomes empty; the program never lays that button out |
| `SessionProperties.PressGridForcesCell` | main.py:349-367 | on the cell path (grid on with any tool but the eraser, or the cell tool with the grid off), a press appends a `CELL` trace. The trace holds the single snapped point, the live grid size and the gesture's colour. The grid path registers the cell renderer; the cell tool's own path leaves the registered set unchanged |
| `SessionProperties.PressGridExample` | main.py:349-355 | grid size 20, pencil selected, press at (27, 43): one new `CELL` trace at (30, 50) with size 20 |
| `SessionProperties.PressEraserUsesRawPoint` | main.py:358-359 | an eraser press erases at the raw pointer position with radius 12, grid on or off |
| `SessionProperties.PressStartsStroke` | main.py:368-370 | without the grid, a pencil or marker press appends a trace of that tool holding the raw point and no size |
| `SessionProperties.PressStartsSpray` | main.py:360-363 | without the grid, a spray press appends a `SPRAY` trace of exactly 28 points |
| `SessionProperties.PressAdvancesRainbow` | main.py:353 | in rainbow mode a gesture start takes the palette entry at the current index and advances the index by one |
| `SessionProperties.DragIgnoredOutsideCanvas` | main.py:373-374 | a drag without the left button or in the toolbar band changes nothing |
| `SessionProperties.DragCellDedup` | main.py:376-395 | on the cell path the snapped centre is appended to the last trace if and only if it differs from its last point, and the trace's size becomes the live grid size |
| `SessionProperties.DragCellIdempotent` | main.py:376-383 | repeating a cell-path drag at the same position changes nothing more |
| `SessionProperties.GridDragSizesAnyTrace` | main.py:376-383 | in grid mode a drag over a pencil trace keeps its tool name and gives it a size |
| `SessionProperties.DragStrokeNoDedup` | main.py:396-397 | a pencil or marker drag always appends the raw point to the last trace |
| `SessionProperties.DragSprayGrowth` | main.py:387-388 | a spray drag grows the last trace by exactly 28 points, keeping its earlier points, tool name, colour and size |
| `SessionProperties.DragEraserUsesRawPoint` | main.py:385-386 | an eraser drag erases at the raw pointer position, grid on or off |
| `SessionProperties.DragFaultsOnlyOnEmptyTrace` | main.py:376-395 | a drag fails if and only if it takes the cell path and the last trace has no points |
| `SessionProperties.SaveKeyKeepsSession` | main.py:323-324 | the save key leaves a valid session unchanged |
| `SessionProperties.SaveThenLoad` | main.py:266-275 | a new session started from the saved file has the same traces in order, each normalized |

## Left out

- Rendering itself (`on_draw`, `_draw_panel`, `_draw_grid`, `_draw_ruled_paper`, button icons) and the window and `main()`: calls into the graphics library; renderers are reduced to the shapes they would draw.
- Button and swatch layout (`Button`, `_layout_build`, `_click_ui`'s hit rectangles) and hover tracking (`on_mouse_motion`): screen geometry; the press takes a `UiHit` saying what was hit.
- File reading, writing and JSON text: the model converts between traces and parsed `Json` values; a read or parse error is the `None` input of `Init`, and a failed write leaves the session unchanged anyway.
- Tools.Scatter: the offsets are a parameter; that each lies within radius 16 comes from sampling a radius and an angle with floating-point `cos`/`sin` and is not stated.
- Floating-point arithmetic: coordinates are exact reals and the 1e-6 comparisons of the cell path are exact inequality.
- Records.DecodeRecord: stricter than Python's duck typing — it requires a string tool, an integer list as colour, two-number lists as points and an integer cell size, where Python would also store, for instance, a string as colour or a three-element point and only fail later when drawing or erasing.
- Python's distinction between an int and a float coordinate: the model writes every coordinate as a JSON float (`Records.EncodePoint`), while the program writes each coordinate with whatever number type the point holds (snapped centres and spray points are floats; a raw pencil or marker point has the type the event delivered). Loading accepts both, and equal values compare equal in Python.
- The colour values of the named colours belong to the graphics library; only the palette's length and order matter to the properties.
- Exceptions raised in event handlers other than the empty-point drag (none arise from the traces the program creates).
