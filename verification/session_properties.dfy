/**
  Properties of the session's events: what a press and a drag do to the trace
  list in each mode, and the invariant every event preserves.
 */
module SessionProperties {
  import opened Wrappers
  import opened Geometry
  import opened Traces
  import opened Tools
  import opened Records
  import opened Session

  // ---------------------------------------------------------------- the invariant

  /** Start-up, whether or not a file loads, gives a valid session: every loaded trace of a
      drawing kind had its renderer registered by the load loop. */
  lemma InitValid(data: Option<Json>)
    ensures Valid(Init(data))
  {
  }

  /** Every key keeps the session valid: Z and X keep the grid size even and in [8, 48]. */
  lemma KeyPressValid(s: Session, k: Key)
    requires Valid(s)
    ensures Valid(KeyPress(s, k))
  {
  }

  /** Every press keeps the session valid. */
  lemma PressValid(s: Session, x: real, y: real, button: MouseButton, hit: UiHit, jitter: nat -> Point)
    requires Valid(s)
    ensures Valid(Press(s, x, y, button, hit, jitter))
  {
  }

  /** Every drag that does not fault keeps the session valid: a drag never changes a
      trace's tool name. */
  lemma DragValid(s: Session, x: real, y: real, buttons: set<MouseButton>, jitter: nat -> Point)
    requires Valid(s)
    requires Drag(s, x, y, buttons, jitter).Ok?
    ensures Valid(Drag(s, x, y, buttons, jitter).value)
  {
  }

  // ---------------------------------------------------------------- press

  /** A press in the toolbar band never adds a trace: it can only run a button action,
      of which clearing is the one that touches the list. */
  lemma PressInToolbarAddsNothing(s: Session, x: real, y: real, hit: UiHit, jitter: nat -> Point)
    requires s.gridSize > 0
    requires !InCanvas(y)
    ensures var r := Press(s, x, y, LeftButton, hit, jitter);
            r.traces == s.traces || (hit == ButtonHit(ClearAll) && r.traces == [])
  {
  }

  /** With the grid on and any tool but the eraser, or with the cell tool and the grid off,
      a press makes a cell trace: one snapped point, the live grid size and the gesture's
      colour. Only the grid path registers the cell renderer itself. */
  lemma PressGridForcesCell(s: Session, x: real, y: real, hit: UiHit, jitter: nat -> Point)
    requires s.gridSize > 0
    requires CellPath(s) && InCanvas(y)
    ensures var r := Press(s, x, y, LeftButton, hit, jitter);
            && r.traces[..|s.traces|] == s.traces
            && Last(r.traces).tool == "CELL"
            && Last(r.traces).points == [SnapPoint(Point(x, y), s.gridSize)]
            && Last(r.traces).size == Some(s.gridSize)
            && Last(r.traces).color == GestureColor(s).0
            && (s.gridOn ==> "CELL" in r.registered)
            && (!s.gridOn ==> r.registered == s.registered)
  {
  }

  /** Grid size 20, pencil selected, press at (27, 43): one cell trace at (30, 50) of size 20. */
  lemma PressGridExample(s: Session, hit: UiHit, jitter: nat -> Point)
    requires s.gridOn && s.gridSize == 20 && s.tool == Pencil
    ensures var r := Press(s, 27.0, 43.0, LeftButton, hit, jitter);
            && |r.traces| == |s.traces| + 1
            && Last(r.traces).tool == "CELL"
            && Last(r.traces).points == [Point(30.0, 50.0)]
            && Last(r.traces).size == Some(20)
  {
  }

  /** The eraser works on the raw pointer position, whether or not the grid is on. */
  lemma PressEraserUsesRawPoint(s: Session, x: real, y: real, hit: UiHit, jitter: nat -> Point)
    requires s.gridSize > 0
    requires s.tool == Eraser && InCanvas(y)
    ensures Press(s, x, y, LeftButton, hit, jitter) == s.(traces := Erase(s.traces, Point(x, y), EraserRadius))
  {
  }

  /** Pencil or marker without the grid: a new trace of that tool holding the raw point. */
  lemma PressStartsStroke(s: Session, x: real, y: real, hit: UiHit, jitter: nat -> Point)
    requires s.gridSize > 0
    requires !s.gridOn && (s.tool == Pencil || s.tool == Marker) && InCanvas(y)
    ensures var r := Press(s, x, y, LeftButton, hit, jitter);
            && r.traces[..|s.traces|] == s.traces
            && Last(r.traces) == Trace(s.tool.Name(), GestureColor(s).0, [Point(x, y)], None)
  {
  }

  /** Spray without the grid: a new spray trace holding one batch of 28 points. */
  lemma PressStartsSpray(s: Session, x: real, y: real, hit: UiHit, jitter: nat -> Point)
    requires s.gridSize > 0
    requires !s.gridOn && s.tool == Spray && InCanvas(y)
    ensures var r := Press(s, x, y, LeftButton, hit, jitter);
            && Last(r.traces).tool == "SPRAY"
            && |Last(r.traces).points| == SprayCount
            && Last(r.traces).size == None
  {
  }

  /** In rainbow mode each gesture start takes the palette entry at the current index and
      advances the index by exactly one. */
  lemma PressAdvancesRainbow(s: Session, x: real, y: real, hit: UiHit, jitter: nat -> Point)
    requires s.gridSize > 0
    requires s.rainbowOn && s.tool != Eraser && InCanvas(y)
    ensures var r := Press(s, x, y, LeftButton, hit, jitter);
            && r.rainbowIdx == s.rainbowIdx + 1
            && Last(r.traces).color == Palette[s.rainbowIdx % |Palette|]
            && Last(r.traces).color == RainbowRun(s, 1)[0]
  {
  }

  // ---------------------------------------------------------------- drag

  /** A drag outside the canvas or without the left button changes nothing. */
  lemma DragIgnoredOutsideCanvas(s: Session, x: real, y: real, buttons: set<MouseButton>, jitter: nat -> Point)
    requires s.gridSize > 0
    requires LeftButton !in buttons || !InCanvas(y)
    ensures Drag(s, x, y, buttons, jitter) == Ok(s)
  {
  }

  /** True when a drag takes the cell path: grid on with a non-eraser tool, or the cell tool. */
  predicate CellPath(s: Session)
  {
    (s.gridOn && s.tool != Eraser) || s.tool == Cell
  }

  /** A cell-path drag appends the snapped centre to the last trace only when it differs from
      that trace's last point, and always sets the trace's size to the live grid size,
      keeping its tool and colour. */
  lemma DragCellDedup(s: Session, x: real, y: real, jitter: nat -> Point)
    requires s.gridSize > 0
    requires CellPath(s) && InCanvas(y)
    requires s.traces != [] && Last(s.traces).points != []
    ensures var r := Drag(s, x, y, {LeftButton}, jitter);
            var old_ := Last(s.traces);
            var c := SnapPoint(Point(x, y), s.gridSize);
            && r.Ok?
            && Last(r.value.traces).tool == old_.tool
            && Last(r.value.traces).color == old_.color
            && Last(r.value.traces).size == Some(s.gridSize)
            && (c != Last(old_.points) ==> Last(r.value.traces).points == old_.points + [c])
            && (c == Last(old_.points) ==> Last(r.value.traces).points == old_.points)
  {
  }

  /** Repeating a cell-path drag at the same position changes nothing more. */
  lemma DragCellIdempotent(s: Session, x: real, y: real, jitter: nat -> Point)
    requires s.gridSize > 0
    requires CellPath(s) && InCanvas(y)
    requires s.traces == [] || Last(s.traces).points != []
    ensures var r := Drag(s, x, y, {LeftButton}, jitter).value;
            Drag(r, x, y, {LeftButton}, jitter) == Ok(r)
  {
  }

  /** Grid mode extends the last trace whatever its kind, giving even a pencil trace a size. */
  lemma GridDragSizesAnyTrace(s: Session, x: real, y: real, jitter: nat -> Point)
    requires s.gridSize > 0
    requires s.gridOn && s.tool == Pencil && InCanvas(y)
    requires s.traces != [] && Last(s.traces).tool == "PENCIL" && Last(s.traces).points != []
    ensures var r := Drag(s, x, y, {LeftButton}, jitter);
            r.Ok? && Last(r.value.traces).tool == "PENCIL" && Last(r.value.traces).size == Some(s.gridSize)
  {
  }

  /** Pencil and marker drags append the raw point every time, with no duplicate check. */
  lemma DragStrokeNoDedup(s: Session, x: real, y: real, jitter: nat -> Point)
    requires s.gridSize > 0
    requires !s.gridOn && (s.tool == Pencil || s.tool == Marker) && InCanvas(y)
    requires s.traces != []
    ensures var r := Drag(s, x, y, {LeftButton}, jitter);
            r.Ok? && Last(r.value.traces) == Last(s.traces).(points := Last(s.traces).points + [Point(x, y)])
  {
  }

  /** A spray drag grows the last trace by exactly one batch, keeping its tool, colour and size. */
  lemma DragSprayGrowth(s: Session, x: real, y: real, jitter: nat -> Point)
    requires s.gridSize > 0
    requires !s.gridOn && s.tool == Spray && InCanvas(y)
    requires s.traces != []
    ensures var r := Drag(s, x, y, {LeftButton}, jitter);
            && r.Ok?
            && |Last(r.value.traces).points| == |Last(s.traces).points| + SprayCount
            && Last(r.value.traces).points[..|Last(s.traces).points|] == Last(s.traces).points
            && Last(r.value.traces).tool == Last(s.traces).tool
            && Last(r.value.traces).color == Last(s.traces).color
            && Last(r.value.traces).size == Last(s.traces).size
  {
  }

  /** An eraser drag erases at the raw pointer position, whether or not the grid is on. */
  lemma DragEraserUsesRawPoint(s: Session, x: real, y: real, jitter: nat -> Point)
    requires s.gridSize > 0
    requires s.tool == Eraser && InCanvas(y)
    ensures Drag(s, x, y, {LeftButton}, jitter) == Ok(s.(traces := Erase(s.traces, Point(x, y), EraserRadius)))
  {
  }

  /** A drag stops the program only on the cell path, when the last trace has no points. */
  lemma DragFaultsOnlyOnEmptyTrace(s: Session, x: real, y: real, buttons: set<MouseButton>, jitter: nat -> Point)
    requires s.gridSize > 0
    ensures Drag(s, x, y, buttons, jitter).Err? <==>
              LeftButton in buttons && InCanvas(y) && CellPath(s)
              && s.traces != [] && Last(s.traces).points == []
  {
  }

  // ---------------------------------------------------------------- keys and files

  /** The save key writes the file and leaves a valid session unchanged. */
  lemma SaveKeyKeepsSession(s: Session)
    requires Valid(s)
    ensures KeyPress(s, KeyO) == s
  {
  }

  /** Starting a new session from the saved file restores the trace list, each trace
      normalized (cell traces keep or gain a size, other traces lose theirs). */
  lemma SaveThenLoad(s: Session)
    ensures Init(Some(SaveRecords(s.traces, s.gridSize))).traces == NormalizeAll(s.traces, s.gridSize)
  {
    SaveLoadRoundTrip(s.traces, s.gridSize);
  }
}
