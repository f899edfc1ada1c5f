/**
  Conversion between the trace list and the plain records written to and read
  from the drawing file. The file's text syntax is not modelled: a parsed file is
  a `Json` value, and reading or parsing failures arrive as a missing value.
 */
module Records {
  import opened Wrappers
  import opened Geometry
  import opened Traces

  /** Size given to a loaded cell trace whose record has none (`GRID_DEFAULT`). */
  const GridDefault: int := 24

  /** A parsed JSON value, keeping the integer/float distinction Python's json module makes. */
  datatype Json =
    | JNull
    | JBool(b: bool)
    | JInt(i: int)
    | JFloat(f: real)
    | JStr(s: string)
    | JArr(items: seq<Json>)
    | JObj(fields: map<string, Json>)

  // ---------------------------------------------------------------- save

  function EncodeColor(c: Color): (r: seq<Json>)
    ensures |r| == |c|
  {
    seq(|c|, i requires 0 <= i < |c| => JInt(c[i]))
  }

  function EncodePoint(p: Point): Json
  {
    JArr([JFloat(p.x), JFloat(p.y)])
  }

  function EncodePoints(ps: seq<Point>): (r: seq<Json>)
    ensures |r| == |ps|
  {
    seq(|ps|, i requires 0 <= i < |ps| => EncodePoint(ps[i]))
  }

  /** The record `_act_save` writes for one trace: tool, colour list and point lists, plus
      `size` for cell traces only, falling back to the live grid size when the trace has none. */
  function EncodeRecord(t: Trace, gridSize: int): (r: Json)
    ensures r.JObj?
    ensures r.fields.Keys == {"tool", "color", "trace"} + (if t.tool == "CELL" then {"size"} else {})
    ensures r.fields["tool"] == JStr(t.tool)
    ensures t.tool == "CELL" ==> r.fields["size"] == JInt(t.size.GetOr(gridSize))
  {
    var base := map["tool" := JStr(t.tool), "color" := JArr(EncodeColor(t.color)),
                    "trace" := JArr(EncodePoints(t.points))];
    if t.tool == "CELL" then JObj(base["size" := JInt(t.size.GetOr(gridSize))]) else JObj(base)
  }

  /** The whole file content `_act_save` dumps: one record per trace, in order. */
  function SaveRecords(ts: seq<Trace>, gridSize: int): (r: Json)
    ensures r.JArr? && |r.items| == |ts|
  {
    JArr(seq(|ts|, i requires 0 <= i < |ts| => EncodeRecord(ts[i], gridSize)))
  }

  // ---------------------------------------------------------------- load

  /** A JSON number as a coordinate; anything else fails. */
  function DecodeNumber(v: Json): Option<real>
  {
    match v
    case JInt(i) => Some(i as real)
    case JFloat(f) => Some(f)
    case _ => None
  }

  /** A point list `[x, y]` as a point. */
  function DecodePoint(v: Json): Option<Point>
  {
    if v.JArr? && |v.items| == 2 && DecodeNumber(v.items[0]).Some? && DecodeNumber(v.items[1]).Some?
    then Some(Point(DecodeNumber(v.items[0]).value, DecodeNumber(v.items[1]).value))
    else None
  }

  /** Every element decoded as a point, or failure if any one is not a point. */
  function DecodePoints(vs: seq<Json>): (r: Option<seq<Point>>)
    ensures r.Some? <==> forall i :: 0 <= i < |vs| ==> DecodePoint(vs[i]).Some?
    ensures r.Some? ==> |r.value| == |vs| && forall i :: 0 <= i < |vs| ==> DecodePoint(vs[i]) == Some(r.value[i])
  {
    if vs == [] then Some([])
    else
      match (DecodePoint(vs[0]), DecodePoints(vs[1..]))
      case (Some(p), Some(ps)) => Some([p] + ps)
      case _ => None
  }

  /** A colour list of integers, or failure. */
  function DecodeColor(vs: seq<Json>): (r: Option<Color>)
    ensures r.Some? <==> forall i :: 0 <= i < |vs| ==> vs[i].JInt?
    ensures r.Some? ==> |r.value| == |vs| && forall i :: 0 <= i < |vs| ==> vs[i] == JInt(r.value[i])
  {
    if vs == [] then Some([])
    else if vs[0].JInt? && DecodeColor(vs[1..]).Some? then Some([vs[0].i] + DecodeColor(vs[1..]).value)
    else None
  }

  /** One record of the load loop in `__init__`: the three keys must be present, any tool
      string is accepted, and only a `CELL` record gets a size (24 when it has none). */
  function DecodeRecord(v: Json): (r: Option<Trace>)
    ensures r.Some? ==> v.JObj? && "tool" in v.fields && "color" in v.fields && "trace" in v.fields
    ensures r.Some? ==> v.fields["tool"] == JStr(r.value.tool)
    ensures r.Some? ==> (r.value.size.Some? <==> r.value.tool == "CELL")
    ensures r.Some? && r.value.tool == "CELL" && "size" !in v.fields ==> r.value.size == Some(GridDefault)
    // any object with the three keys and decodable values is kept, whatever other keys it has
    ensures v.JObj? && "tool" in v.fields && "color" in v.fields && "trace" in v.fields
            && v.fields["tool"].JStr? && v.fields["color"].JArr? && v.fields["trace"].JArr?
            && DecodeColor(v.fields["color"].items).Some? && DecodePoints(v.fields["trace"].items).Some?
            && (v.fields["tool"].s == "CELL" && "size" in v.fields ==> v.fields["size"].JInt?)
            ==> && r.Some?
                && r.value.tool == v.fields["tool"].s
                && Some(r.value.color) == DecodeColor(v.fields["color"].items)
                && Some(r.value.points) == DecodePoints(v.fields["trace"].items)
                && (r.value.tool == "CELL" && "size" in v.fields ==> r.value.size == Some(v.fields["size"].i))
  {
    if !v.JObj? then None
    else
      var m := v.fields;
      if !("tool" in m && "color" in m && "trace" in m) then None
      else if !(m["tool"].JStr? && m["color"].JArr? && m["trace"].JArr?) then None
      else
        var name := m["tool"].s;
        var color := DecodeColor(m["color"].items);
        var points := DecodePoints(m["trace"].items);
        var size: Option<Option<int>> :=
          if name != "CELL" then Some(None)
          else if "size" !in m then Some(Some(GridDefault))
          else if m["size"].JInt? then Some(Some(m["size"].i))
          else None;
        if color.None? || points.None? || size.None? then None
        else Some(Trace(name, color.value, points.value, size.value))
  }

  /** The traces the load loop appends before it stops: every record up to the first one
      that fails to decode. */
  function DecodePrefix(items: seq<Json>): (r: seq<Trace>)
    ensures |r| <= |items|
    ensures forall i :: 0 <= i < |r| ==> DecodeRecord(items[i]) == Some(r[i])
    ensures |r| < |items| ==> DecodeRecord(items[|r|]).None?
  {
    if items == [] then []
    else match DecodeRecord(items[0])
      case None => []
      case Some(t) => [t] + DecodePrefix(items[1..])
  }

  /** The trace list after loading: every record decoded, or the empty list when the file
      could not be read or parsed (`data == None`), is not a list, or holds a bad record. */
  function LoadTraces(data: Option<Json>): (r: seq<Trace>)
    ensures r != [] ==> data.Some? && data.value.JArr? && |r| == |data.value.items|
    ensures r != [] ==> forall i :: 0 <= i < |r| ==> DecodeRecord(data.value.items[i]) == Some(r[i])
    ensures data.Some? && data.value.JArr? && (forall i :: 0 <= i < |data.value.items| ==> DecodeRecord(data.value.items[i]).Some?)
            ==> |r| == |data.value.items|
  {
    match data
    case Some(JArr(items)) =>
      var ts := DecodePrefix(items);
      if |ts| == |items| then ts else []
    case _ => []
  }

  /** The renderers registered by the load loop: the pencil's (registered before loading) and
      the known drawing kinds of the records decoded before any failure. */
  function LoadRegistered(data: Option<Json>): (r: set<string>)
    ensures "PENCIL" in r
    ensures r <= DrawableKinds
  {
    var ts := match data
      case Some(JArr(items)) => DecodePrefix(items)
      case _ => [];
    {"PENCIL"} + set i | 0 <= i < |ts| && ts[i].tool in DrawableKinds :: ts[i].tool
  }

  // ---------------------------------------------------------------- properties

  /** What a trace looks like after a save and load: a cell trace always carries a size
      (the live grid size if it had none) and any other trace carries none. */
  function Normalize(t: Trace, gridSize: int): (r: Trace)
  {
    t.(size := if t.tool == "CELL" then Some(t.size.GetOr(gridSize)) else None)
  }

  /** Every trace normalized, in order. */
  function NormalizeAll(ts: seq<Trace>, gridSize: int): seq<Trace>
  {
    seq(|ts|, i requires 0 <= i < |ts| => Normalize(ts[i], gridSize))
  }

  /** A cell trace carries a size and no other trace does: the shape of every trace a press
      creates (a grid-mode drag can later give a size to a trace of another kind). */
  predicate WellSized(t: Trace)
  {
    t.size.Some? <==> t.tool == "CELL"
  }

  lemma {:induction false} PointsRoundTrip(ps: seq<Point>)
    ensures DecodePoints(EncodePoints(ps)) == Some(ps)
  {
    var e := EncodePoints(ps);
    assert forall i :: 0 <= i < |e| ==> DecodePoint(e[i]) == Some(ps[i]);
    var r := DecodePoints(e);
    assert r.Some?;
    assert r.value == ps;
  }

  lemma {:induction false} ColorRoundTrip(c: Color)
    ensures DecodeColor(EncodeColor(c)) == Some(c)
  {
    var e := EncodeColor(c);
    var r := DecodeColor(e);
    assert r.Some?;
    assert r.value == c;
  }

  /** Saving one trace and loading its record gives the trace back, normalized. */
  lemma RecordRoundTrip(t: Trace, gridSize: int)
    ensures DecodeRecord(EncodeRecord(t, gridSize)) == Some(Normalize(t, gridSize))
  {
    PointsRoundTrip(t.points);
    ColorRoundTrip(t.color);
  }

  /** Loading what was saved gives back every trace, in order, normalized. */
  lemma SaveLoadRoundTrip(ts: seq<Trace>, gridSize: int)
    ensures LoadTraces(Some(SaveRecords(ts, gridSize))) == NormalizeAll(ts, gridSize)
  {
    var items := SaveRecords(ts, gridSize).items;
    forall i | 0 <= i < |items|
      ensures DecodeRecord(items[i]) == Some(Normalize(ts[i], gridSize))
    {
      RecordRoundTrip(ts[i], gridSize);
    }
  }

  /** For traces shaped as the program creates them, load undoes save exactly. */
  lemma SaveLoadIdentity(ts: seq<Trace>, gridSize: int)
    requires forall i :: 0 <= i < |ts| ==> WellSized(ts[i])
    ensures LoadTraces(Some(SaveRecords(ts, gridSize))) == ts
  {
    SaveLoadRoundTrip(ts, gridSize);
    assert NormalizeAll(ts, gridSize) == ts;
  }

  /** A single record that fails to decode empties the whole loaded list, even when the
      records before it were fine. */
  lemma BadRecordEmptiesLoad(items: seq<Json>, k: nat)
    requires k < |items| && DecodeRecord(items[k]).None?
    ensures LoadTraces(Some(JArr(items))) == []
  {
  }

  /** Keys other than the three are ignored: a marker record with a stray `size` and an
      unknown key still loads, and gets no size. */
  lemma ExtraKeysIgnored()
    ensures var rec := JObj(map["tool" := JStr("MARKER"), "color" := JArr([]), "trace" := JArr([]),
                                "size" := JStr("big"), "note" := JNull]);
            DecodeRecord(rec) == Some(Trace("MARKER", [], [], None))
  {
  }

  /** A record naming a tool the program does not know still loads, with no renderer for it. */
  lemma UnknownToolLoads()
    ensures var rec := JObj(map["tool" := JStr("BRUSH"), "color" := JArr([JInt(1), JInt(2), JInt(3)]),
                                "trace" := JArr([JArr([JInt(5), JFloat(6.5)])])]);
            && LoadTraces(Some(JArr([rec]))) == [Trace("BRUSH", [1, 2, 3], [Point(5.0, 6.5)], None)]
            && LoadRegistered(Some(JArr([rec]))) == {"PENCIL"}
  {
    var rec := JObj(map["tool" := JStr("BRUSH"), "color" := JArr([JInt(1), JInt(2), JInt(3)]),
                        "trace" := JArr([JArr([JInt(5), JFloat(6.5)])])]);
    var items := [rec];
    var c := DecodeColor([JInt(1), JInt(2), JInt(3)]);
    assert c.Some? && c.value == [1, 2, 3];
    assert DecodePoint(JArr([JInt(5), JFloat(6.5)])) == Some(Point(5.0, 6.5));
    var ps := DecodePoints([JArr([JInt(5), JFloat(6.5)])]);
    assert ps.Some? && ps.value == [Point(5.0, 6.5)];
    assert DecodeRecord(rec) == Some(Trace("BRUSH", [1, 2, 3], [Point(5.0, 6.5)], None));
    assert items[1..] == [];
  }
}
