/**
 * The simple creation API of the script console: helpers that accept
 * coordinates either as numbers or as vectors, fill in defaults for omitted
 * arguments, build a shape or a text entity and submit it through addEntity,
 * which either adds it to the document at once or collects it into a
 * pending batch operation.
 *
 * Script arguments are modelled as a small universe of script values
 * (Value). The host calls are abstracted: shapeToEntity wraps a shape into
 * an entity (ShapeEntity), the id the document gives an entity it adds is an
 * input (newId), and the document's immediate add-operations are recorded in
 * a ghost log.
 */
module SimpleCreate {
  import opened Options
  import opened Host

  /** A script value, as far as the helpers inspect it. */
  datatype Value =
    | Undefined
    | Null
    | Number(num: real)
    | Boolean(flag: bool)
    | Str(chars: string)
    | Vec(vec: Vector)
    | Array(elems: seq<Value>)

  /** isNull: undefined or null. */
  predicate IsNull(v: Value) {
    v.Undefined? || v.Null?
  }

  /** `a[i]`: reading past the end of an array gives undefined. */
  function At(a: seq<Value>, i: nat): Value {
    if i < |a| then a[i] else Undefined
  }

  /** Whether a value counts as true in an `if` (NaN is not modelled). */
  predicate Truthy(v: Value) {
    match v
    case Undefined => false
    case Null => false
    case Number(n) => n != 0.0
    case Boolean(b) => b
    case Str(s) => s != ""
    case Vec(_) => true
    case Array(_) => true
  }

  // ---------------------------------------------------------------------
  // Shapes and entities

  /** A polyline vertex with the bulge of the segment that follows it. */
  datatype Vertex = Vertex(position: Vector, bulge: real)

  /**
   * The shapes the helpers build. Arc angles are kept in degrees, as passed
   * to the conversion helper; the conversion itself is not modelled.
   */
  datatype Shape =
    | Point(position: Vector)
    | Line(startPoint: Vector, endPoint: Vector)
    | Arc(center: Vector, radius: real, startAngle: real, endAngle: real, reversed: Option<bool>)
    | Circle(center: Vector, radius: real)
    | Polyline(vertices: seq<Vertex>, closed: bool)
    | Spline(fitPoints: seq<Vector>, periodic: bool)

  datatype VAlign = VAlignTop | VAlignMiddle | VAlignBase | VAlignBottom
  datatype HAlign = HAlignLeft | HAlignCenter | HAlignRight | HAlignAlign | HAlignMid | HAlignFit
  datatype TextDirection = LeftToRight | TopToBottom | ByStyle
  datatype LineSpacingStyle = AtLeast | Exact

  /** The arguments of an RTextData; the angle is kept in degrees. */
  datatype TextData = TextData(
    position: Vector, alignmentPoint: Vector,
    textHeight: real, textWidth: real,
    vAlign: VAlign, hAlign: HAlign,
    drawingDirection: TextDirection, lineSpacingStyle: LineSpacingStyle, lineSpacingFactor: real,
    text: string, fontName: string, bold: bool, italic: bool,
    angle: real, simple: bool)

  /** What addEntity submits: a shape wrapped by shapeToEntity, or a text entity. */
  datatype Entity = ShapeEntity(shape: Shape) | TextEntity(data: TextData)

  // ---------------------------------------------------------------------
  // Number and vector forms of addPoint, addLine, addArc and addCircle

  /** The documented call forms `addPoint(x, y)` and `addPoint(v)`. */
  predicate PointArgs(p1: Value, p2: Value) {
    if p1.Number? then p2.Number? else p1.Vec?
  }

  /** The shape addPoint submits; the number form re-enters with `new RVector(p1, p2)`. */
  function PointShape(p1: Value, p2: Value): (s: Shape)
    requires PointArgs(p1, p2)
    ensures s.Point?
    ensures p1.Vec? ==> s.position == p1.vec
    decreases if p1.Number? then 1 else 0
  {
    if p1.Number? then PointShape(Vec(Vector(p1.num, p2.num)), Undefined)
    else Point(p1.vec)
  }

  /** The documented call forms `addLine(x1, y1, x2, y2)` and `addLine(v1, v2)`. */
  predicate LineArgs(p1: Value, p2: Value, p3: Value, p4: Value) {
    if p1.Number? then p2.Number? && p3.Number? && p4.Number? else p1.Vec? && p2.Vec?
  }

  /** The shape addLine submits; the number form re-enters with two vectors. */
  function LineShape(p1: Value, p2: Value, p3: Value, p4: Value): (s: Shape)
    requires LineArgs(p1, p2, p3, p4)
    ensures s.Line?
    ensures p1.Vec? ==> s.startPoint == p1.vec && s.endPoint == p2.vec
    decreases if p1.Number? then 1 else 0
  {
    if p1.Number? then LineShape(Vec(Vector(p1.num, p2.num)), Vec(Vector(p3.num, p4.num)), Undefined, Undefined)
    else Line(p1.vec, p2.vec)
  }

  /** An omitted `reversed` argument is passed on as omitted. */
  predicate ReversedArg(v: Value) {
    v.Boolean? || IsNull(v)
  }

  /**
   * The documented call forms `addArc(cx, cy, radius, start, end, reversed)`
   * and `addArc(center, radius, start, end, reversed)`.
   */
  predicate ArcArgs(p1: Value, p2: Value, p3: Value, p4: Value, p5: Value, p6: Value) {
    if p1.Number? then p2.Number? && p3.Number? && p4.Number? && p5.Number? && ReversedArg(p6)
    else p1.Vec? && p2.Number? && p3.Number? && p4.Number? && ReversedArg(p5)
  }

  /** The shape addArc submits; the number form re-enters with the center as a vector. */
  function ArcShape(p1: Value, p2: Value, p3: Value, p4: Value, p5: Value, p6: Value): (s: Shape)
    requires ArcArgs(p1, p2, p3, p4, p5, p6)
    ensures s.Arc?
    ensures p1.Vec? ==> s.center == p1.vec && s.radius == p2.num
    ensures p1.Vec? ==> s.startAngle == p3.num && s.endAngle == p4.num
    ensures p1.Vec? ==> s.reversed == (if p5.Boolean? then Some(p5.flag) else None)
    decreases if p1.Number? then 1 else 0
  {
    if p1.Number? then ArcShape(Vec(Vector(p1.num, p2.num)), p3, p4, p5, p6, Undefined)
    else Arc(p1.vec, p2.num, p3.num, p4.num, if p5.Boolean? then Some(p5.flag) else None)
  }

  /** The documented call forms `addCircle(cx, cy, radius)` and `addCircle(center, radius)`. */
  predicate CircleArgs(p1: Value, p2: Value, p3: Value) {
    if p1.Number? then p2.Number? && p3.Number? else p1.Vec? && p2.Number?
  }

  /** The shape addCircle submits; the number form re-enters with the center as a vector. */
  function CircleShape(p1: Value, p2: Value, p3: Value): (s: Shape)
    requires CircleArgs(p1, p2, p3)
    ensures s.Circle?
    ensures p1.Vec? ==> s.center == p1.vec && s.radius == p2.num
    decreases if p1.Number? then 1 else 0
  {
    if p1.Number? then CircleShape(Vec(Vector(p1.num, p2.num)), p3, Undefined)
    else Circle(p1.vec, p2.num)
  }

  /** `addPoint(x, y)` submits the same shape as `addPoint(new RVector(x, y))`. */
  lemma PointFormsAgree(x: real, y: real, rest: Value)
    ensures PointShape(Number(x), Number(y)) == PointShape(Vec(Vector(x, y)), rest) == Point(Vector(x, y))
  {
  }

  /** `addLine(x1, y1, x2, y2)` submits the same shape as the two-vector form. */
  lemma LineFormsAgree(x1: real, y1: real, x2: real, y2: real, rest3: Value, rest4: Value)
    ensures LineShape(Number(x1), Number(y1), Number(x2), Number(y2))
         == LineShape(Vec(Vector(x1, y1)), Vec(Vector(x2, y2)), rest3, rest4)
         == Line(Vector(x1, y1), Vector(x2, y2))
  {
  }

  /** `addArc(cx, cy, r, a1, a2, rev)` submits the same shape as `addArc(new RVector(cx, cy), r, a1, a2, rev)`. */
  lemma ArcFormsAgree(cx: real, cy: real, r: real, a1: real, a2: real, rev: Value, rest: Value)
    requires ReversedArg(rev)
    ensures ArcShape(Number(cx), Number(cy), Number(r), Number(a1), Number(a2), rev)
         == ArcShape(Vec(Vector(cx, cy)), Number(r), Number(a1), Number(a2), rev, rest)
         == Arc(Vector(cx, cy), r, a1, a2, if rev.Boolean? then Some(rev.flag) else None)
  {
  }

  /** `addCircle(cx, cy, r)` submits the same shape as `addCircle(new RVector(cx, cy), r)`. */
  lemma CircleFormsAgree(cx: real, cy: real, r: real, rest: Value)
    ensures CircleShape(Number(cx), Number(cy), Number(r)) == CircleShape(Vec(Vector(cx, cy)), Number(r), rest)
         == Circle(Vector(cx, cy), r)
  {
  }

  // ---------------------------------------------------------------------
  // addSimpleText

  /**
   * The text data addSimpleText builds. Omitted arguments are None and get
   * their defaults; the text is anchored at (x, y) both as position and as
   * alignment point.
   */
  function SimpleTextData(text: string, x: real, y: real, height: Option<real>, angle: Option<real>,
                          font: Option<string>, vAlign: Option<VAlign>, hAlign: Option<HAlign>,
                          bold: Option<bool>, italic: Option<bool>): (d: TextData)
    ensures d.position == Vector(x, y) && d.alignmentPoint == d.position
    ensures d.text == text && d.simple
    ensures height.None? ==> d.textHeight == 1.0
    ensures height.Some? ==> d.textHeight == height.value
    ensures angle.None? ==> d.angle == 0.0
    ensures angle.Some? ==> d.angle == angle.value
    ensures font.None? ==> d.fontName == "Standard"
    ensures font.Some? ==> d.fontName == font.value
    ensures vAlign.None? ==> d.vAlign == VAlignTop
    ensures vAlign.Some? ==> d.vAlign == vAlign.value
    ensures hAlign.None? ==> d.hAlign == HAlignLeft
    ensures hAlign.Some? ==> d.hAlign == hAlign.value
    ensures bold.None? ==> !d.bold
    ensures bold.Some? ==> d.bold == bold.value
    ensures italic.None? ==> !d.italic
    ensures italic.Some? ==> d.italic == italic.value
  {
    TextData(Vector(x, y), Vector(x, y), height.GetOr(1.0), 100.0,
             vAlign.GetOr(VAlignTop), hAlign.GetOr(HAlignLeft), LeftToRight, Exact, 1.0,
             text, font.GetOr("Standard"), bold.GetOr(false), italic.GetOr(false),
             angle.GetOr(0.0), true)
  }

  /** With every optional argument omitted, a text is 1 unit high, unrotated, in font Standard, top-left aligned, neither bold nor italic. */
  lemma SimpleTextDefaults(text: string, x: real, y: real)
    ensures SimpleTextData(text, x, y, None, None, None, None, None, None, None)
         == TextData(Vector(x, y), Vector(x, y), 1.0, 100.0, VAlignTop, HAlignLeft, LeftToRight, Exact, 1.0,
                     text, "Standard", false, false, 0.0, true)
  {
  }

  /** Arguments that are given are used as given. */
  lemma SimpleTextGiven(text: string, x: real, y: real, height: real, angle: real, font: string,
                        vAlign: VAlign, hAlign: HAlign, bold: bool, italic: bool)
    ensures SimpleTextData(text, x, y, Some(height), Some(angle), Some(font), Some(vAlign), Some(hAlign),
                           Some(bold), Some(italic))
         == TextData(Vector(x, y), Vector(x, y), height, 100.0, vAlign, hAlign, LeftToRight, Exact, 1.0,
                     text, font, bold, italic, angle, true)
  {
  }

  // ---------------------------------------------------------------------
  // addPolyline: vertex tuples

  /** An omitted bulge is undefined or null; a given one is a number. */
  predicate BulgeArg(v: Value) {
    v.Number? || IsNull(v)
  }

  /** A vertex tuple of one of the documented forms `[x, y, bulge, rel]` and `[vector, bulge, rel]`. */
  predicate IsVertexTuple(p: seq<Value>) {
    if At(p, 0).Vec? then BulgeArg(At(p, 1))
    else At(p, 0).Number? && At(p, 1).Number? && BulgeArg(At(p, 2))
  }

  predicate AreVertexTuples(points: seq<seq<Value>>) {
    forall i :: 0 <= i < |points| ==> IsVertexTuple(points[i])
  }

  /** Where the bulge sits in a tuple: right after the vector, or after x and y. */
  function BulgeIndex(p: seq<Value>): nat {
    if At(p, 0).Vec? then 1 else 2
  }

  /** The tuple's coordinates. */
  function Offset(p: seq<Value>): Vector
    requires IsVertexTuple(p)
  {
    if At(p, 0).Vec? then At(p, 0).vec else Vector(At(p, 0).num, At(p, 1).num)
  }

  /** The tuple's bulge, 0.0 when omitted. */
  function Bulge(p: seq<Value>): real
    requires IsVertexTuple(p)
  {
    var b := At(p, BulgeIndex(p));
    if IsNull(b) then 0.0 else b.num
  }

  /** The tuple's own relative flag, the polyline's `relative` when omitted. */
  function RelFlag(p: seq<Value>, relative: bool): Value {
    var r := At(p, BulgeIndex(p) + 1);
    if IsNull(r) then Boolean(relative) else r
  }

  /** A full vector tuple reads back as written. */
  lemma VectorTupleFields(v: Vector, b: real, rel: Value, relative: bool)
    requires !IsNull(rel)
    ensures IsVertexTuple([Vec(v), Number(b), rel])
    ensures Offset([Vec(v), Number(b), rel]) == v && Bulge([Vec(v), Number(b), rel]) == b
    ensures RelFlag([Vec(v), Number(b), rel], relative) == rel
  {
  }

  /** A full number tuple reads back as written. */
  lemma NumberTupleFields(x: real, y: real, b: real, rel: Value, relative: bool)
    requires !IsNull(rel)
    ensures IsVertexTuple([Number(x), Number(y), Number(b), rel])
    ensures Offset([Number(x), Number(y), Number(b), rel]) == Vector(x, y)
    ensures Bulge([Number(x), Number(y), Number(b), rel]) == b
    ensures RelFlag([Number(x), Number(y), Number(b), rel], relative) == rel
  {
  }

  /** Bare coordinates get bulge 0.0 and the polyline's relative flag. */
  lemma TupleDefaults(x: real, y: real, relative: bool)
    ensures IsVertexTuple([Number(x), Number(y)]) && IsVertexTuple([Vec(Vector(x, y))])
    ensures Offset([Number(x), Number(y)]) == Offset([Vec(Vector(x, y))]) == Vector(x, y)
    ensures Bulge([Number(x), Number(y)]) == Bulge([Vec(Vector(x, y))]) == 0.0
    ensures RelFlag([Number(x), Number(y)], relative) == RelFlag([Vec(Vector(x, y))], relative) == Boolean(relative)
  {
  }

  /** `[x, y, ...]` and `[new RVector(x, y), ...]` describe the same vertex. */
  lemma TupleFormsAgree(x: real, y: real, rest: seq<Value>, relative: bool)
    requires IsVertexTuple([Vec(Vector(x, y))] + rest)
    ensures IsVertexTuple([Number(x), Number(y)] + rest)
    ensures Offset([Number(x), Number(y)] + rest) == Offset([Vec(Vector(x, y))] + rest)
    ensures Bulge([Number(x), Number(y)] + rest) == Bulge([Vec(Vector(x, y))] + rest)
    ensures RelFlag([Number(x), Number(y)] + rest, relative) == RelFlag([Vec(Vector(x, y))] + rest, relative)
  {
    var p, q := [Number(x), Number(y)] + rest, [Vec(Vector(x, y))] + rest;
    if |rest| > 0 {
      assert p[2] == rest[0] == q[1];
    }
    if |rest| > 1 {
      assert p[3] == rest[1] == q[2];
    }
  }

  // ---------------------------------------------------------------------
  // addPolyline: vertex positions

  /** The position of the last vertex placed, the origin before the first. */
  function LastPosition(vs: seq<Vertex>): Vector {
    if vs == [] then Origin else vs[|vs| - 1].position
  }

  /**
   * Whether a vertex is placed relative to the previous one. As written,
   * this is decided by the polyline's `relative` for every vertex
   * (`perVertex` false); as documented, by the vertex's own flag
   * (`perVertex` true).
   */
  predicate Accumulates(p: seq<Value>, relative: bool, perVertex: bool) {
    if perVertex then Truthy(RelFlag(p, relative)) else relative
  }

  /**
   * The vertices placed for the tuples `points`, in order: each one either
   * at its coordinates or at its coordinates added to the previous vertex
   * (the origin for the first).
   */
  function Resolve(points: seq<seq<Value>>, relative: bool, perVertex: bool): (vs: seq<Vertex>)
    requires AreVertexTuples(points)
    ensures |vs| == |points|
    decreases |points|
  {
    if points == [] then []
    else
      var n := |points| - 1;
      var prev := Resolve(points[..n], relative, perVertex);
      var p := points[n];
      var at := if Accumulates(p, relative, perVertex) then Add(LastPosition(prev), Offset(p)) else Offset(p);
      prev + [Vertex(at, Bulge(p))]
  }

  /** The vertices addPolyline appends, as the code places them. */
  function Vertices(points: seq<seq<Value>>, relative: bool): seq<Vertex>
    requires AreVertexTuples(points)
  {
    Resolve(points, relative, false)
  }

  /** The vertices addPolyline's documentation describes: each tuple's own flag decides. */
  function IntendedVertices(points: seq<seq<Value>>, relative: bool): seq<Vertex>
    requires AreVertexTuples(points)
  {
    Resolve(points, relative, true)
  }

  /** The sum of the coordinates of all tuples, starting from the origin. */
  function SumOffsets(points: seq<seq<Value>>): Vector
    requires AreVertexTuples(points)
    decreases |points|
  {
    if points == [] then Origin
    else Add(SumOffsets(points[..|points| - 1]), Offset(points[|points| - 1]))
  }

  /** Placing a prefix of the tuples gives a prefix of the vertices. */
  lemma {:induction false} ResolvePrefix(points: seq<seq<Value>>, relative: bool, perVertex: bool, k: nat)
    requires AreVertexTuples(points) && k <= |points|
    ensures Resolve(points[..k], relative, perVertex) == Resolve(points, relative, perVertex)[..k]
    decreases |points|
  {
    if k < |points| {
      var n := |points| - 1;
      ResolvePrefix(points[..n], relative, perVertex, k);
      assert points[..n][..k] == points[..k];
    } else {
      assert points[..k] == points;
    }
  }

  /** Vertex i is placed from tuple i alone and the vertex before it. */
  lemma ResolveAt(points: seq<seq<Value>>, relative: bool, perVertex: bool, i: nat)
    requires AreVertexTuples(points) && i < |points|
    ensures var vs := Resolve(points, relative, perVertex);
      var prev := if i == 0 then Origin else vs[i - 1].position;
      vs[i] == Vertex(if Accumulates(points[i], relative, perVertex) then Add(prev, Offset(points[i])) else Offset(points[i]),
                      Bulge(points[i]))
  {
    var vs := Resolve(points, relative, perVertex);
    var q := points[..i + 1];
    ResolvePrefix(points, relative, perVertex, i + 1);
    ResolvePrefix(points, relative, perVertex, i);
    assert q[..i] == points[..i];
    assert vs[..i + 1][..i] == vs[..i];
  }

  /**
   * As written, vertex i of a relative polyline lies at the sum of the
   * coordinates of tuples 0..i; of any other polyline, at tuple i's own
   * coordinates. Its bulge is tuple i's bulge, 0.0 when omitted.
   */
  lemma {:induction false} VertexAt(points: seq<seq<Value>>, relative: bool, i: nat)
    requires AreVertexTuples(points) && i < |points|
    ensures Vertices(points, relative)[i]
         == Vertex(if relative then SumOffsets(points[..i + 1]) else Offset(points[i]), Bulge(points[i]))
  {
    ResolveAt(points, relative, false, i);
    if relative {
      var q := points[..i + 1];
      assert q[..i] == points[..i] && q[i] == points[i];
      if i == 0 {
        assert points[..0] == [];
      } else {
        VertexAt(points, relative, i - 1);
        assert points[..i][..i - 1] == points[..i - 1];
      }
    }
  }

  /**
   * As written, the tuples' own relative flags do not affect the vertices:
   * tuples with the same coordinates and bulges give the same polyline,
   * whatever flags they carry.
   */
  lemma {:induction false} RelFlagsIgnored(p: seq<seq<Value>>, q: seq<seq<Value>>, relative: bool)
    requires AreVertexTuples(p) && AreVertexTuples(q) && |p| == |q|
    requires forall i :: 0 <= i < |p| ==> Offset(p[i]) == Offset(q[i]) && Bulge(p[i]) == Bulge(q[i])
    ensures Vertices(p, relative) == Vertices(q, relative)
    decreases |p|
  {
    if p != [] {
      var n := |p| - 1;
      RelFlagsIgnored(p[..n], q[..n], relative);
    }
  }

  /**
   * The documented behaviour: vertex i is placed relative to the vertex
   * before it exactly when its own flag (the polyline's `relative` when
   * omitted) is true.
   */
  lemma IntendedVertexAt(points: seq<seq<Value>>, relative: bool, i: nat)
    requires AreVertexTuples(points) && i < |points|
    ensures var vs := IntendedVertices(points, relative);
      var prev := if i == 0 then Origin else vs[i - 1].position;
      vs[i] == Vertex(if Truthy(RelFlag(points[i], relative)) then Add(prev, Offset(points[i])) else Offset(points[i]),
                      Bulge(points[i]))
  {
    ResolveAt(points, relative, true, i);
  }

  /** Where no tuple carries its own flag, the documented and the written behaviour agree. */
  lemma {:induction false} IntendedAgreesWithoutFlags(points: seq<seq<Value>>, relative: bool)
    requires AreVertexTuples(points)
    requires forall i :: 0 <= i < |points| ==> IsNull(At(points[i], BulgeIndex(points[i]) + 1))
    ensures IntendedVertices(points, relative) == Vertices(points, relative)
    decreases |points|
  {
    if points != [] {
      var n := |points| - 1;
      IntendedAgreesWithoutFlags(points[..n], relative);
    }
  }

  /**
   * The example `[[10, 0], [5, 0, 0, true]]` of a polyline that is not
   * relative: as written the second vertex is at (5, 0); by the per-vertex
   * flag it documents, it would be at (15, 0).
   */
  lemma PolylineFlagIgnored()
    ensures var points := [[Number(10.0), Number(0.0)], [Number(5.0), Number(0.0), Number(0.0), Boolean(true)]];
      AreVertexTuples(points) &&
      Vertices(points, false)[1].position == Vector(5.0, 0.0) &&
      IntendedVertices(points, false)[1].position == Vector(15.0, 0.0)
  {
    var points := [[Number(10.0), Number(0.0)], [Number(5.0), Number(0.0), Number(0.0), Boolean(true)]];
    assert AreVertexTuples(points);
    ResolveAt(points, false, false, 1);
    ResolveAt(points, false, true, 1);
    ResolveAt(points, false, true, 0);
  }

  /**
   * The loop of addPolyline: resolve each tuple, place its vertex (relative
   * to a running position when the polyline is relative) and append it.
   * `closed` and `relative` are None when omitted.
   */
  method BuildPolyline(points: seq<seq<Value>>, closed: Option<bool>, relative: Option<bool>) returns (pl: Shape)
    requires AreVertexTuples(points)
    ensures pl.Polyline? && pl.closed == (closed == Some(true))
    ensures |pl.vertices| == |points|
    ensures pl.vertices == Vertices(points, relative == Some(true))
  {
    var isClosed := closed.GetOr(false);
    var isRelative := relative.GetOr(false);
    var vs: seq<Vertex> := [];
    var v := Origin;
    for i := 0 to |points|
      invariant vs == Vertices(points[..i], isRelative)
      invariant v == LastPosition(vs)
    {
      var t := points[i];
      var v0: Vector;
      var b: Value;
      var rel: Value;
      if At(t, 0).Vec? {
        v0, b, rel := At(t, 0).vec, At(t, 1), At(t, 2);
      } else {
        v0, b, rel := Vector(At(t, 0).num, At(t, 1).num), At(t, 2), At(t, 3);
      }
      if IsNull(b) {
        b := Number(0.0);
      }
      if IsNull(rel) {
        rel := Boolean(isRelative);
      }
      if isRelative {
        v := Add(v, v0);
      } else {
        v := v0;
      }
      vs := vs + [Vertex(v, b.num)];
      assert points[..i + 1][..i] == points[..i];
    }
    assert points[..|points|] == points;
    pl := Polyline(vs, isClosed);
  }

  // ---------------------------------------------------------------------
  // addSpline

  /** A fit point item: a vector or an `[x, y]` pair. */
  predicate IsFitPointItem(v: Value) {
    v.Vec? || (v.Array? && At(v.elems, 0).Number? && At(v.elems, 1).Number?)
  }

  function FitPoint(v: Value): Vector
    requires IsFitPointItem(v)
  {
    if v.Vec? then v.vec else Vector(At(v.elems, 0).num, At(v.elems, 1).num)
  }

  /** The fit points addSpline appends: one per item, in order. */
  function FitPoints(points: seq<Value>): (fit: seq<Vector>)
    requires forall i :: 0 <= i < |points| ==> IsFitPointItem(points[i])
    ensures |fit| == |points|
    ensures forall i :: 0 <= i < |points| ==> fit[i] == FitPoint(points[i])
    decreases |points|
  {
    if points == [] then []
    else FitPoints(points[..|points| - 1]) + [FitPoint(points[|points| - 1])]
  }

  /** `[x, y]` and `new RVector(x, y)` give the same fit point. */
  lemma FitPointFormsAgree(x: real, y: real)
    ensures FitPoint(Array([Number(x), Number(y)])) == FitPoint(Vec(Vector(x, y))) == Vector(x, y)
  {
  }

  /**
   * The loop of addSpline: one fit point per item, in order; the spline is
   * periodic exactly when `closed` is given as true.
   */
  method BuildSpline(points: seq<Value>, closed: Option<bool>) returns (sp: Shape)
    requires forall i :: 0 <= i < |points| ==> IsFitPointItem(points[i])
    ensures sp.Spline? && sp.periodic == (closed == Some(true))
    ensures |sp.fitPoints| == |points|
    ensures forall i :: 0 <= i < |points| ==> sp.fitPoints[i] == FitPoint(points[i])
    ensures sp == Spline(FitPoints(points), closed == Some(true))
  {
    var periodic := closed.GetOr(false);
    var fit: seq<Vector> := [];
    for i := 0 to |points|
      invariant |fit| == i
      invariant forall j :: 0 <= j < i ==> fit[j] == FitPoint(points[j])
    {
      if points[i].Vec? {
        fit := fit + [points[i].vec];
      } else {
        fit := fit + [Vector(At(points[i].elems, 0).num, At(points[i].elems, 1).num)];
      }
    }
    sp := Spline(fit, periodic);
  }

  // ---------------------------------------------------------------------
  // Submission: addShape and addEntity

  /** The entities of a pending batch; a batch not yet created holds none. */
  function Pending(op: Option<seq<Entity>>): seq<Entity> {
    if op.Some? then op.value else []
  }

  /**
   * The submission state the helpers share: the batching flag, the pending
   * batch operation (null until the first entity is collected) and, as a
   * ghost log, the entities the document added through immediate
   * add-operations.
   */
  class Session {
    /** `__simpleUseOp === true`. */
    var useOp: bool
    /** `__simpleOp`: None while null, otherwise the entities it collected. */
    var op: Option<seq<Entity>>
    ghost var applied: seq<Entity>

    constructor (useOp: bool)
      ensures this.useOp == useOp && op.None? && applied == []
    {
      this.useOp := useOp;
      op := None;
      applied := [];
    }

    /**
     * One addEntity of `e`: in batch mode `e` is appended to the pending
     * batch (created if null) and no id is returned; otherwise `e` is added
     * by one add-operation and the id the document gave it, `newId`, is
     * returned.
     */
    twostate predicate Submitted(e: Entity, newId: EntityId, new id: Option<EntityId>)
      reads this
    {
      useOp == old(useOp) &&
      if useOp then
        id.None? && op == Some(Pending(old(op)) + [e]) && applied == old(applied)
      else
        id == Some(newId) && op == old(op) && applied == old(applied) + [e]
    }

    method AddEntity(e: Entity, newId: EntityId) returns (id: Option<EntityId>)
      modifies this
      ensures Submitted(e, newId, id)
    {
      if useOp {
        if op.None? {
          op := Some([]);
        }
        op := Some(op.value + [e]);
        id := None;
      } else {
        applied := applied + [e];
        id := Some(newId);
      }
    }

    /** addShape: shapeToEntity, then addEntity. */
    method AddShape(s: Shape, newId: EntityId) returns (id: Option<EntityId>)
      modifies this
      ensures Submitted(ShapeEntity(s), newId, id)
    {
      id := AddEntity(ShapeEntity(s), newId);
    }

    method AddPoint(p1: Value, p2: Value, newId: EntityId) returns (id: Option<EntityId>)
      requires PointArgs(p1, p2)
      modifies this
      ensures Submitted(ShapeEntity(PointShape(p1, p2)), newId, id)
    {
      id := AddShape(PointShape(p1, p2), newId);
    }

    method AddLine(p1: Value, p2: Value, p3: Value, p4: Value, newId: EntityId) returns (id: Option<EntityId>)
      requires LineArgs(p1, p2, p3, p4)
      modifies this
      ensures Submitted(ShapeEntity(LineShape(p1, p2, p3, p4)), newId, id)
    {
      id := AddShape(LineShape(p1, p2, p3, p4), newId);
    }

    method AddArc(p1: Value, p2: Value, p3: Value, p4: Value, p5: Value, p6: Value, newId: EntityId)
      returns (id: Option<EntityId>)
      requires ArcArgs(p1, p2, p3, p4, p5, p6)
      modifies this
      ensures Submitted(ShapeEntity(ArcShape(p1, p2, p3, p4, p5, p6)), newId, id)
    {
      id := AddShape(ArcShape(p1, p2, p3, p4, p5, p6), newId);
    }

    method AddCircle(p1: Value, p2: Value, p3: Value, newId: EntityId) returns (id: Option<EntityId>)
      requires CircleArgs(p1, p2, p3)
      modifies this
      ensures Submitted(ShapeEntity(CircleShape(p1, p2, p3)), newId, id)
    {
      id := AddShape(CircleShape(p1, p2, p3), newId);
    }

    method AddPolyline(points: seq<seq<Value>>, closed: Option<bool>, relative: Option<bool>, newId: EntityId)
      returns (id: Option<EntityId>)
      requires AreVertexTuples(points)
      modifies this
      ensures Submitted(ShapeEntity(Polyline(Vertices(points, relative == Some(true)), closed == Some(true))), newId, id)
    {
      var pl := BuildPolyline(points, closed, relative);
      id := AddShape(pl, newId);
    }

    method AddSpline(points: seq<Value>, closed: Option<bool>, newId: EntityId) returns (id: Option<EntityId>)
      requires forall i :: 0 <= i < |points| ==> IsFitPointItem(points[i])
      modifies this
      ensures Submitted(ShapeEntity(Spline(FitPoints(points), closed == Some(true))), newId, id)
    {
      var sp := BuildSpline(points, closed);
      id := AddShape(sp, newId);
    }

    method AddSimpleText(text: string, x: real, y: real, height: Option<real>, angle: Option<real>,
                         font: Option<string>, vAlign: Option<VAlign>, hAlign: Option<HAlign>,
                         bold: Option<bool>, italic: Option<bool>, newId: EntityId) returns (id: Option<EntityId>)
      modifies this
      ensures Submitted(TextEntity(SimpleTextData(text, x, y, height, angle, font, vAlign, hAlign, bold, italic)), newId, id)
    {
      id := AddEntity(TextEntity(SimpleTextData(text, x, y, height, angle, font, vAlign, hAlign, bold, italic)), newId);
    }
  }

  /**
   * In batch mode, successive additions accumulate in one pending batch, in
   * order, and the document receives nothing yet.
   */
  method BatchAccumulates(s: Session, e1: Entity, e2: Entity, id1: EntityId, id2: EntityId)
    requires s.useOp
    modifies s
    ensures s.useOp && s.op == Some(Pending(old(s.op)) + [e1, e2]) && s.applied == old(s.applied)
  {
    var r1 := s.AddEntity(e1, id1);
    assert s.op == Some(Pending(old(s.op)) + [e1]);
    var r2 := s.AddEntity(e2, id2);
    assert Pending(old(s.op)) + [e1] + [e2] == Pending(old(s.op)) + [e1, e2];
  }

  /** In immediate mode, each addition reaches the document at once and returns its id. */
  method ImmediateAdds(s: Session, e1: Entity, e2: Entity, id1: EntityId, id2: EntityId)
    returns (r1: Option<EntityId>, r2: Option<EntityId>)
    requires !s.useOp
    modifies s
    ensures r1 == Some(id1) && r2 == Some(id2)
    ensures !s.useOp && s.op == old(s.op) && s.applied == old(s.applied) + [e1, e2]
  {
    r1 := s.AddEntity(e1, id1);
    r2 := s.AddEntity(e2, id2);
  }
}
