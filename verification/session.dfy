/**
  The paint session: selected tool and colour, rainbow, paper and grid state,
  the renderers registered so far and the ordered trace list, with the pointer
  and key events that change them.
 */
module Session {
  import opened Wrappers
  import opened Geometry
  import opened Traces
  import opened Tools
  import opened Records

  const Height: int := 600
  const TopbarH: int := 120
  const GridMin: int := 8
  const GridMax: int := 48

  // Named colours of the graphics library used by the program, as RGBA tuples.
  const Red: Color := [255, 0, 0, 255]
  const Orange: Color := [255, 165, 0, 255]
  const Yellow: Color := [255, 255, 0, 255]
  const Green: Color := [0, 255, 0, 255]
  const Blue: Color := [0, 0, 255, 255]
  const Purple: Color := [128, 0, 128, 255]
  const Pink: Color := [255, 192, 203, 255]
  const Cyan: Color := [0, 255, 255, 255]
  const Brown: Color := [165, 42, 42, 255]
  const Black: Color := [0, 0, 0, 255]

  /** The rainbow palette, cycled one colour per gesture start. */
  const Palette: seq<Color> := [Red, Orange, Yellow, Green, Blue, Purple, Pink, Cyan, Brown]

  datatype PaperMode = PaperNone | RuledBlueRed | RuledBlack

  datatype MouseButton = LeftButton | MiddleButton | RightButton

  /** Keys with a binding; the digit keys stand for both the main-row and keypad digit. */
  datatype Key = Key1 | Key2 | Key3 | Key4 | Key5 | KeyA | KeyS | KeyD | KeyF
               | KeyG | KeyH | KeyR | KeyO | KeyZ | KeyX | OtherKey

  /** What a toolbar button does. */
  datatype Action = SelectTool(kind: ToolKind) | ToggleGrid | CyclePaper | ToggleRainbow
                  | SaveDrawing | ClearAll

  /** What lies under a press in the toolbar band: the button and swatch layout is not
      modelled, so the caller says what was hit. */
  datatype UiHit = Miss | ButtonHit(action: Action) | SwatchHit(swatch: Color)

  datatype Session = Session(
    tool: ToolKind,
    registered: set<string>,
    color: Color,
    rainbowOn: bool,
    rainbowIdx: nat,
    paper: PaperMode,
    gridOn: bool,
    gridSize: int,
    traces: seq<Trace>)

  /** Why a drag can stop the program: a cell extension reads the last point of a trace
      that has none (only a loaded record with an empty point list gives one). */
  datatype Fault = EmptyLastTrace

  /** Below the toolbar band: `y < HEIGHT - TOPBAR_H`. */
  predicate InCanvas(y: real)
  {
    y < (Height - TopbarH) as real
  }

  /** The states the program can reach: grid size even and within bounds, the selected tool
      registered, and every stored trace of a drawing kind drawn by a registered renderer. */
  ghost predicate Valid(s: Session)
  {
    && GridMin <= s.gridSize <= GridMax
    && s.gridSize % 2 == 0
    && s.tool.Name() in s.registered
    && forall t :: t in s.traces && t.tool in DrawableKinds ==> t.tool in s.registered
  }

  // ---------------------------------------------------------------- small state steps

  /** `_act_paper_cycle`: NONE, then blue/red ruling, then black ruling, then NONE again. */
  function NextPaper(m: PaperMode): (r: PaperMode)
    ensures r != m
    ensures m == PaperNone ==> r == RuledBlueRed
  {
    match m
    case PaperNone => RuledBlueRed
    case RuledBlueRed => RuledBlack
    case RuledBlack => PaperNone
  }

  /** Three paper cycles are the identity, and one or two are not; from no ruling the cycle
      visits the blue/red ruling first and the black ruling second. */
  lemma PaperPeriodThree(m: PaperMode)
    ensures NextPaper(NextPaper(NextPaper(m))) == m
    ensures NextPaper(NextPaper(m)) != m
    ensures NextPaper(NextPaper(PaperNone)) == RuledBlack
  {
  }

  /** `_next_rainbow_color`: the palette entry at the index modulo the palette size, and the
      index advanced by one; nothing else changes. */
  function NextRainbowColor(s: Session): (r: (Color, Session))
    ensures r.0 in Palette
    ensures r.1 == s.(rainbowIdx := s.rainbowIdx + 1)
  {
    (Palette[s.rainbowIdx % |Palette|], s.(rainbowIdx := s.rainbowIdx + 1))
  }

  /** The colour a new trace gets, and the state after choosing it: the next rainbow colour
      when rainbow mode is on, the selected colour otherwise. */
  function GestureColor(s: Session): (r: (Color, Session))
    ensures !s.rainbowOn ==> r == (s.color, s)
    ensures s.rainbowOn ==> r.0 in Palette && r.1.rainbowIdx == s.rainbowIdx + 1
    ensures r.1 == s.(rainbowIdx := r.1.rainbowIdx)
  {
    if s.rainbowOn then NextRainbowColor(s) else (s.color, s)
  }

  /** The colours of `n` successive gesture starts in rainbow mode. */
  function RainbowRun(s: Session, n: nat): (r: seq<Color>)
    ensures |r| == n
    decreases n
  {
    if n == 0 then []
    else var (c, s1) := NextRainbowColor(s); [c] + RainbowRun(s1, n - 1)
  }

  /** The k-th of those colours is the palette entry at the index advanced by k. */
  lemma {:induction false} RainbowRunAt(s: Session, n: nat, k: nat)
    requires k < n
    ensures RainbowRun(s, n)[k] == Palette[(s.rainbowIdx + k) % |Palette|]
    decreases n
  {
    if k > 0 {
      RainbowRunAt(s.(rainbowIdx := s.rainbowIdx + 1), n - 1, k - 1);
    }
  }

  /** The palette wraps: every gesture start gets the colour of the one nine starts earlier,
      so the tenth gets the colour of the first. */
  lemma RainbowPeriodic(s: Session, n: nat, k: nat)
    requires k + |Palette| < n
    ensures RainbowRun(s, n)[k + |Palette|] == RainbowRun(s, n)[k]
  {
    RainbowRunAt(s, n, k + |Palette|);
    RainbowRunAt(s, n, k);
    assert (s.rainbowIdx + k + 9) % 9 == (s.rainbowIdx + k) % 9;
  }

  /** The Z key: two smaller, never below the minimum. */
  function ShrinkGrid(g: int): (r: int)
    ensures GridMin <= r
    ensures GridMin <= g ==> r <= g
    ensures GridMin + 2 <= g ==> r == g - 2
  {
    if g - 2 < GridMin then GridMin else g - 2
  }

  /** The X key: two larger, never above the maximum. */
  function GrowGrid(g: int): (r: int)
    ensures r <= GridMax
    ensures g <= GridMax ==> g <= r
    ensures g <= GridMax - 2 ==> r == g + 2
  {
    if g + 2 > GridMax then GridMax else g + 2
  }

  /** From an even size within bounds, both keys keep the size even and within bounds. */
  lemma GridStepsKeepBoundsAndParity(g: int)
    requires GridMin <= g <= GridMax && g % 2 == 0
    ensures GridMin <= ShrinkGrid(g) <= GridMax && ShrinkGrid(g) % 2 == 0
    ensures GridMin <= GrowGrid(g) <= GridMax && GrowGrid(g) % 2 == 0
  {
  }

  /** The shared `_act_*` handlers of toolbar buttons and keys. Selecting a tool registers
      its renderer; saving writes a file and leaves the session as it was. */
  function Apply(s: Session, a: Action): (r: Session)
    ensures r.gridSize == s.gridSize && r.color == s.color && r.rainbowIdx == s.rainbowIdx
    ensures a.SelectTool? ==> r.tool == a.kind && r.registered == s.registered + {a.kind.Name()}
    ensures !a.SelectTool? ==> r.tool == s.tool && r.registered == s.registered
    ensures r.gridOn == (if a == ToggleGrid then !s.gridOn else s.gridOn)
    ensures r.rainbowOn == (if a == ToggleRainbow then !s.rainbowOn else s.rainbowOn)
    ensures r.paper == (if a == CyclePaper then NextPaper(s.paper) else s.paper)
    ensures r.traces == (if a == ClearAll then [] else s.traces)
    ensures a == SaveDrawing ==> r == s
  {
    match a
    case SelectTool(k) => s.(tool := k, registered := s.registered + {k.Name()})
    case ToggleGrid => s.(gridOn := !s.gridOn)
    case CyclePaper => s.(paper := NextPaper(s.paper))
    case ToggleRainbow => s.(rainbowOn := !s.rainbowOn)
    case SaveDrawing => s
    case ClearAll => s.(traces := [])
  }

  /** The toggles undo themselves, selecting a tool, saving and clearing are idempotent, and
      three paper cycles return to the start. */
  lemma ApplyTwice(s: Session, a: Action)
    ensures a == ToggleGrid || a == ToggleRainbow ==> Apply(Apply(s, a), a) == s
    ensures a.SelectTool? || a == SaveDrawing || a == ClearAll ==> Apply(Apply(s, a), a) == Apply(s, a)
    ensures a == CyclePaper ==> Apply(Apply(Apply(s, a), a), a) == s
  {
    if a == CyclePaper {
      PaperPeriodThree(s.paper);
    }
  }

  /** `_click_ui`: run the button's action or pick the swatch's colour. */
  function ClickUi(s: Session, hit: UiHit): (r: Session)
    ensures hit == Miss ==> r == s
    ensures hit.SwatchHit? ==> r == s.(color := hit.swatch)
    ensures hit.ButtonHit? ==> r == Apply(s, hit.action)
    ensures r.gridSize == s.gridSize && r.rainbowIdx == s.rainbowIdx
  {
    match hit
    case Miss => s
    case ButtonHit(a) => Apply(s, a)
    case SwatchHit(c) => s.(color := c)
  }

  // ---------------------------------------------------------------- events

  /** `on_key_press`. Whatever the key, the selected tool's renderer ends up registered. */
  function KeyPress(s: Session, k: Key): (r: Session)
    ensures r.tool.Name() in r.registered
    ensures r.registered == s.registered + {r.tool.Name()}
    ensures r.traces == s.traces && r.rainbowIdx == s.rainbowIdx
    ensures GridMin <= s.gridSize <= GridMax ==> GridMin <= r.gridSize <= GridMax
    // the digit keys select a tool; every other key keeps the selected one
    ensures r.tool == match k
      case Key1 => Pencil case Key2 => Marker case Key3 => Spray case Key4 => Eraser case Key5 => Cell
      case _ => s.tool
    // A, S, D and F pick a colour
    ensures r.color == match k
      case KeyA => Red case KeyS => Green case KeyD => Blue case KeyF => Black
      case _ => s.color
    // Z and X step the grid size within its bounds
    ensures r.gridSize == match k
      case KeyZ => ShrinkGrid(s.gridSize) case KeyX => GrowGrid(s.gridSize)
      case _ => s.gridSize
    ensures r.gridOn == (if k == KeyG then !s.gridOn else s.gridOn)
    ensures r.paper == (if k == KeyH then NextPaper(s.paper) else s.paper)
    ensures r.rainbowOn == (if k == KeyR then !s.rainbowOn else s.rainbowOn)
  {
    var s1 := match k
      case Key1 => Apply(s, SelectTool(Pencil))
      case Key2 => Apply(s, SelectTool(Marker))
      case Key3 => Apply(s, SelectTool(Spray))
      case Key4 => Apply(s, SelectTool(Eraser))
      case Key5 => Apply(s, SelectTool(Cell))
      case KeyA => s.(color := Red)
      case KeyS => s.(color := Green)
      case KeyD => s.(color := Blue)
      case KeyF => s.(color := Black)
      case KeyG => Apply(s, ToggleGrid)
      case KeyH => Apply(s, CyclePaper)
      case KeyR => Apply(s, ToggleRainbow)
      case KeyO => Apply(s, SaveDrawing)
      case KeyZ => s.(gridSize := ShrinkGrid(s.gridSize))
      case KeyX => s.(gridSize := GrowGrid(s.gridSize))
      case OtherKey => s;
    s1.(registered := s1.registered + {s1.tool.Name()})
  }

  /** The new single-cell trace a grid or cell press creates at `(x, y)`. */
  function CellTrace(c: Color, x: real, y: real, gridSize: int): Trace
    requires gridSize > 0
  {
    Trace("CELL", c, [SnapPoint(Point(x, y), gridSize)], Some(gridSize))
  }

  /** `on_mouse_press`. `hit` is what lies under a press in the toolbar band and `jitter`
      the spray's random offsets. */
  function Press(s: Session, x: real, y: real, button: MouseButton, hit: UiHit, jitter: nat -> Point): (r: Session)
    requires s.gridSize > 0
    ensures button != LeftButton ==> r == s
    ensures button == LeftButton && !InCanvas(y) ==> r == ClickUi(s, hit)
    ensures r.gridSize == s.gridSize
    ensures InCanvas(y) && button == LeftButton && s.tool != Eraser ==>
              |r.traces| == |s.traces| + 1 && r.traces[..|s.traces|] == s.traces && Last(r.traces).points != []
    // a canvas press changes only the trace list, the registered renderers and the rainbow index
    ensures InCanvas(y) ==> r == s.(traces := r.traces, registered := r.registered, rainbowIdx := r.rainbowIdx)
    ensures InCanvas(y) ==>
              r.rainbowIdx == s.rainbowIdx + (if button == LeftButton && s.rainbowOn && s.tool != Eraser then 1 else 0)
    ensures InCanvas(y) ==>
              r.registered == s.registered + (if button == LeftButton && s.gridOn && s.tool != Eraser then {"CELL"} else {})
    ensures InCanvas(y) && button == LeftButton && s.tool != Eraser ==> Last(r.traces).color == GestureColor(s).0
  {
    if button != LeftButton then s
    else if !InCanvas(y) then ClickUi(s, hit)
    else if s.gridOn && s.tool != Eraser then
      var (c, s1) := GestureColor(s);
      s1.(registered := s1.registered + {"CELL"}, traces := s1.traces + [CellTrace(c, x, y, s.gridSize)])
    else
      match s.tool
      case Eraser => s.(traces := Erase(s.traces, Point(x, y), EraserRadius))
      case Spray =>
        var (c, s1) := GestureColor(s);
        s1.(traces := s1.traces + [Trace(Spray.Name(), c, Scatter(x, y, SprayCount, jitter), None)])
      case Cell =>
        var (c, s1) := GestureColor(s);
        s1.(traces := s1.traces + [CellTrace(c, x, y, s.gridSize)])
      case _ =>
        var (c, s1) := GestureColor(s);
        s1.(traces := s1.traces + [Trace(s.tool.Name(), c, [Point(x, y)], None)])
  }

  /** The cell extension shared by grid-mode drags and cell-tool drags: the snapped centre is
      appended to the last trace only when it differs from that trace's last point, and the
      trace's size is set to the live grid size whatever its kind. */
  function ExtendCell(s: Session, x: real, y: real): (r: Result<Session, Fault>)
    requires s.gridSize > 0
    ensures r.Err? <==> s.traces != [] && Last(s.traces).points == []
    ensures r.Ok? ==> |r.value.traces| == |s.traces| && r.value == s.(traces := r.value.traces)
  {
    if s.traces == [] then Ok(s)
    else
      var t := Last(s.traces);
      if t.points == [] then Err(EmptyLastTrace)
      else
        var c := SnapPoint(Point(x, y), s.gridSize);
        var pts := if c != Last(t.points) then t.points + [c] else t.points;
        Ok(s.(traces := WithLast(s.traces, t.(points := pts, size := Some(s.gridSize)))))
  }

  /** `on_mouse_drag`. Only the last trace changes (the eraser aside); `jitter` is the spray's
      random offsets. */
  function Drag(s: Session, x: real, y: real, buttons: set<MouseButton>, jitter: nat -> Point): (r: Result<Session, Fault>)
    requires s.gridSize > 0
    ensures r.Ok? ==> r.value == s.(traces := r.value.traces)
    ensures r.Ok? && !(s.tool == Eraser && LeftButton in buttons && InCanvas(y)) ==>
              |r.value.traces| == |s.traces|
              && (s.traces != [] ==> r.value.traces[..|s.traces| - 1] == s.traces[..|s.traces| - 1])
    ensures s.traces == [] ==> r == Ok(s)
  {
    if LeftButton !in buttons || !InCanvas(y) then Ok(s)
    else if s.gridOn && s.tool != Eraser then ExtendCell(s, x, y)
    else
      match s.tool
      case Eraser => Ok(s.(traces := Erase(s.traces, Point(x, y), EraserRadius)))
      case Cell => ExtendCell(s, x, y)
      case Spray =>
        if s.traces == [] then Ok(s)
        else
          var t := Last(s.traces);
          Ok(s.(traces := WithLast(s.traces, t.(points := t.points + Scatter(x, y, SprayCount, jitter)))))
      case _ =>
        if s.traces == [] then Ok(s)
        else
          var t := Last(s.traces);
          Ok(s.(traces := WithLast(s.traces, t.(points := t.points + [Point(x, y)]))))
  }

  /** The session at start-up, after loading `data` if a file was named (`None` also stands
      for a file that could not be read or parsed). */
  function Init(data: Option<Json>): (r: Session)
    ensures r.tool == Pencil && r.gridSize == GridDefault && !r.gridOn && !r.rainbowOn
    ensures r.color == Blue && r.paper == PaperNone && r.rainbowIdx == 0
    ensures r.traces == LoadTraces(data) && r.registered == LoadRegistered(data)
    ensures r.traces == [] || (data.Some? && data.value.JArr? && |r.traces| == |data.value.items|)
  {
    Session(Pencil, LoadRegistered(data), Blue, false, 0, PaperNone, false, GridDefault, LoadTraces(data))
  }
}
