/**
  The stored unit of drawing: a trace, one per gesture, with the name of the
  tool that made it, a colour fixed at creation, its ordered points and, for
  cell painting, the side of the painted squares.
 */
module Traces {
  import opened Wrappers
  import opened Geometry

  /** A colour tuple; the program's named colours are RGBA 4-tuples. */
  type Color = seq<int>

  /** The five tools the user can select. */
  datatype ToolKind = Pencil | Marker | Spray | Eraser | Cell {

    /** The `name` class attribute, which is also the `tool` string stored in traces. */
    function Name(): string {
      match this
      case Pencil => "PENCIL"
      case Marker => "MARKER"
      case Spray => "SPRAY"
      case Eraser => "ERASER"
      case Cell => "CELL"
    }
  }

  /** Tool names that own a renderer drawing something; the eraser's renderer draws nothing. */
  const DrawableKinds: set<string> := {"PENCIL", "MARKER", "SPRAY", "CELL"}

  /** A stored trace. `tool` is any string (a loaded file may name an unknown tool);
      `size` is only ever written for cell painting, but a grid-mode drag can add it
      to a trace of another kind. */
  datatype Trace = Trace(tool: string, color: Color, points: seq<Point>, size: Option<int>)

  /** The last element of a non-empty sequence (Python's `xs[-1]`). */
  function Last<T>(xs: seq<T>): T
    requires xs != []
  {
    xs[|xs| - 1]
  }

  /** `xs` with its last element replaced by `x`: what `xs[-1] = x` leaves. */
  function WithLast<T>(xs: seq<T>, x: T): (r: seq<T>)
    requires xs != []
    ensures |r| == |xs|
    ensures r[..|r| - 1] == xs[..|xs| - 1]
    ensures Last(r) == x
  {
    xs[..|xs| - 1] + [x]
  }
}
