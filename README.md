# QCAD script layer: corner tool and simple creation API

This project models two pieces of logic from QCAD's ECMAScript layer and proves properties of them in Dafny.

- **The corner-modification tool** (`ModifyCorner`, the base of the Bevel and Round tools) is in `modify_corner.dfy`, module `ModifyCornerTool`. It is a class whose event handlers change its fields in place. The tool has three states, `ChoosingEntity1`, `ChoosingEntity2` and `SettingPoint`. It collects two entities picked near a line, an arc or a circle. If the concrete tool requires a point, it also collects that point. It then asks the document interface to apply the operation that the concrete tool builds.
  - Every call of `applyOperation` is recorded in the ghost log `applied`, together with the selection the operation was built from.
  - Every warning is counted in the ghost counter `warnings`.
  - The base class's escape handler ends the tool. The model records this in the flag `terminated`.
  - The invariant `Valid()` states that each selected entity has a line, arc or circle shape and a position. It also states that every operation applied so far was built from two such shapes.
- **The simple creation API** (`simple_create.js`) is in `simple_create.dfy`, module `SimpleCreate`. Its helpers accept coordinates either as numbers or as vectors and fill in defaults for omitted arguments. They build a shape or a text entity and submit it through `addEntity`. That function adds the entity at once, or it collects it into a pending batch operation when batching is on.
  - Script arguments are values of a small script-value type, `Value`: undefined, null, number, boolean, string, vector or array.
  - The pure normalisations are functions: the overloads of `addPoint`, `addLine`, `addArc` and `addCircle`, the decoding of polyline vertex tuples, and the defaults of `addSimpleText`.
  - The loops of `addPolyline` and `addSpline` are methods with loop invariants. They are proved against specification functions.
  - The batching globals are the fields of a `Session` class.

Shared types live in `host.dfy` (vectors and entity ids) and `options.dfy` (optional values).

Host-engine calls are inputs, not computations:
- The closest simple shape of a picked entity is a `ShapeKind` parameter.
- The result of the concrete tool's `getOperation` is an optional `Operation` parameter.
- `shapeToEntity` wraps a shape as `ShapeEntity`.
- The id the document assigns to an entity it adds is a parameter, `newId`.

The code's behaviour is followed in two places where one might expect something else:
- Escape from `SettingPoint` re-enters `ChoosingEntity2`. Entering that state clears the second selection (scripts/Modify/ModifyCorner.js:79-83). So escape keeps the first entity and drops the second, as `EscapeEvent` states.
- When the second pick completes a tool that needs no point, `pickEntity` passes the result of `getOperation` to `applyOperation` even when it is null (scripts/Modify/ModifyCorner.js:189). `pickCoordinate` skips a null operation (scripts/Modify/ModifyCorner.js:219-222). The log records the argument as passed, so a `None` entry can come only from `pickEntity`.

## Model

| member | source | states |
|---|---|---|
| `ModifyCornerTool.ModifyCorner.constructor` | scripts/Modify/ModifyCorner.js:27-42 | Both selections and the point start empty, trimming starts on and no point is required. Nothing has been applied or warned yet. |
| `ModifyCornerTool.ModifyCorner.BeginEvent` | scripts/Modify/ModifyCorner.js:52-56 | Starting the tool enters `ChoosingEntity1` with both selections cleared, and keeps the invariant. |
| `ModifyCornerTool.ModifyCorner.SetState` | scripts/Modify/ModifyCorner.js:58-101 | Entering `ChoosingEntity1` clears all six selection fields. Entering `ChoosingEntity2` clears only the second selection and keeps the first. Entering `SettingPoint` clears only the point. The options, the log and the warning count do not change. |
| `ModifyCornerTool.ModifyCorner.EscapeEvent` | scripts/Modify/ModifyCorner.js:103-117 | `SettingPoint` goes back to `ChoosingEntity2`, keeping the first selection and dropping the second. `ChoosingEntity2` goes back to `ChoosingEntity1`, dropping both. `ChoosingEntity1` ends the tool and changes no selection. Escape never applies an operation. |
| `ModifyCornerTool.ModifyCorner.PickEntity` | scripts/Modify/ModifyCorner.js:119-206 | A hover never changes the state, applies an operation or warns. In `SettingPoint` nothing changes. In either choosing state, a line, arc or circle becomes the selection and a click moves on. On the second click the tool either moves to `SettingPoint` without applying anything, or applies exactly one operation built from the two picks and returns to `ChoosingEntity1`. Any other shape keeps the first selection, drops a second one, and warns once on a click. Picking nothing drops that entity and its shape but keeps its position. |
| `ModifyCornerTool.ModifyCorner.PickCoordinate` | scripts/Modify/ModifyCorner.js:208-227 | Only `SettingPoint` reacts: the point is recorded. A click applies the operation only when it is not null and always returns to `ChoosingEntity1` with both selections cleared. In every other state nothing changes. |
| `ModifyCornerTool.ModifyCorner.GetHighlightedEntities` | scripts/Modify/ModifyCorner.js:229-238 | The result holds the first entity's id, then the second's, each only if that entity is selected. It holds nothing else and has at most two ids. |
| `ModifyCornerTool.ModifyCorner.SlotTrimChanged` | scripts/Modify/ModifyCorner.js:240-242 | Sets the trim option and changes nothing else. |
| `ModifyCornerTool.CornerWithoutPoint` | scripts/Modify/ModifyCorner.js:139-191 | For a tool that needs no point, two clicks on lines, arcs or circles apply exactly one operation, built from those two picks, and leave the tool in `ChoosingEntity1`. |
| `ModifyCornerTool.CornerWithPoint` | scripts/Modify/ModifyCorner.js:173-224 | For a tool that needs a point, two clicks on lines, arcs or circles apply nothing. The point click then applies the operation once if it is not null and leaves the tool in `ChoosingEntity1`. |
| `ModifyCornerTool.EscapeTwice` | scripts/Modify/ModifyCorner.js:103-117 | Escaping twice from `SettingPoint` passes through `ChoosingEntity2` with the first entity kept, then ends in `ChoosingEntity1` with both selections cleared. Escape from those states does not end the tool, and nothing is applied. |
| `SimpleCreate.PointShape` | scripts/simple_create.js:14-20 | `addPoint` submits a point. In the vector form the point is at the given vector. |
| `SimpleCreate.LineShape` | scripts/simple_create.js:31-37 | `addLine` submits a line. In the vector form it runs from the first vector to the second. |
| `SimpleCreate.ArcShape` | scripts/simple_create.js:48-53 | `addArc` submits an arc. In the vector form its center, radius, start angle and end angle are the first four arguments, and `reversed` is the fifth, passed on as omitted when it is undefined or null. |
| `SimpleCreate.CircleShape` | scripts/simple_create.js:64-69 | `addCircle` submits a circle. In the vector form its center and radius are the two arguments. |
| `SimpleCreate.PointFormsAgree` | scripts/simple_create.js:15-16 | `addPoint(x, y)` submits the same shape as `addPoint(new RVector(x, y))`, whatever follows the vector. |
| `SimpleCreate.LineFormsAgree` | scripts/simple_create.js:32-33 | `addLine(x1, y1, x2, y2)` submits the same line as the two-vector form. |
| `SimpleCreate.ArcFormsAgree` | scripts/simple_create.js:49-50 | `addArc(cx, cy, r, a1, a2, rev)` submits the same arc as the form with the center as a vector: the arc at (cx, cy) with radius r, angles a1 and a2, and `rev` as reversed flag. |
| `SimpleCreate.CircleFormsAgree` | scripts/simple_create.js:65-66 | `addCircle(cx, cy, r)` submits the same circle as the form with the center as a vector. |
| `SimpleCreate.SimpleTextData` | scripts/simple_create.js:195-223 | The text is anchored at (x, y), both as its position and as its alignment point. The text is carried unchanged and the text is marked simple. Each optional argument separately is used as given, or gets its own default when omitted: height 1.0, angle 0.0, font "Standard", top and left alignment, not bold, not italic. |
| `SimpleCreate.SimpleTextDefaults` | scripts/simple_create.js:196-202 | With every optional argument omitted, the defaults are height 1.0, angle 0.0, font "Standard", top and left alignment, not bold and not italic. |
| `SimpleCreate.SimpleTextGiven` | scripts/simple_create.js:196-222 | When all seven optional arguments are given, each is used exactly as given. |
| `SimpleCreate.VectorTupleFields` | scripts/simple_create.js:114-118 | In a tuple whose first item is a vector, the bulge is item 1 and the relative flag is item 2. |
| `SimpleCreate.NumberTupleFields` | scripts/simple_create.js:119-123 | In a tuple whose first item is a number, the position is (item 0, item 1), the bulge is item 2 and the relative flag is item 3. |
| `SimpleCreate.TupleDefaults` | scripts/simple_create.js:125-131 | An omitted bulge becomes 0.0, and an omitted relative flag becomes the polyline's `relative`. This holds in both tuple forms. |
| `SimpleCreate.TupleFormsAgree` | scripts/simple_create.js:113-128 | `[x, y, ...]` and `[new RVector(x, y), ...]` describe the same vertex: same position, same bulge and same flag. |
| `SimpleCreate.Resolve` | scripts/simple_create.js:109-142 | Exactly one vertex is placed per tuple. `Vertices`, the placement as written, is `Resolve` with per-vertex flags off; `IntendedVertices`, the documented placement, is `Resolve` with them on. |
| `SimpleCreate.ResolvePrefix` | scripts/simple_create.js:110-142 | Placing a prefix of the tuples gives the same prefix of vertices, so each vertex depends only on the tuples before it. |
| `SimpleCreate.ResolveAt` | scripts/simple_create.js:133-141 | Vertex i is placed from tuple i and the vertex before it (the origin for the first): relative to it, or at tuple i's own coordinates. |
| `SimpleCreate.VertexAt` | scripts/simple_create.js:102-141 | In a relative polyline, vertex i lies at the sum of the coordinates of tuples 0..i, starting from (0, 0). Otherwise vertex i lies at tuple i's coordinates. Its bulge is tuple i's bulge. |
| `SimpleCreate.RelFlagsIgnored` | scripts/simple_create.js:129-139 | Tuples with the same coordinates and bulges give the same vertices, whatever relative flags they carry. |
| `SimpleCreate.IntendedVertexAt` | scripts/simple_create.js:84-89 | In the documented behaviour, vertex i is placed relative to the previous vertex exactly when its own flag is true. When the flag is omitted, the polyline's `relative` is used. |
| `SimpleCreate.IntendedAgreesWithoutFlags` | scripts/simple_create.js:129-139 | When no tuple carries its own flag, the documented and the written behaviour place the same vertices. |
| `SimpleCreate.PolylineFlagIgnored` | scripts/simple_create.js:129-139 | For `[[10, 0], [5, 0, 0, true]]` with `relative` false, the code places the second vertex at (5, 0). The documented behaviour places it at (15, 0). |
| `SimpleCreate.BuildPolyline` | scripts/simple_create.js:98-142 | The loop appends exactly one vertex per tuple, in order, as `Vertices` places them. The polyline is closed only when `closed` is given as true, so the default is open. |
| `SimpleCreate.FitPoints` | scripts/simple_create.js:165-172 | One fit point per item, in input order, each the item's `FitPoint`. |
| `SimpleCreate.FitPointFormsAgree` | scripts/simple_create.js:166-171 | `[x, y]` and `new RVector(x, y)` give the same fit point. |
| `SimpleCreate.BuildSpline` | scripts/simple_create.js:159-172 | The loop appends one fit point per item, in order: the vector itself, or (x, y) for a pair. The result is the spline `FitPoints` describes. The spline is periodic exactly when `closed` is given as true. |
| `SimpleCreate.Session.constructor` | scripts/simple_create.js:249-250 | A session has its batching flag set as given, no pending batch yet and nothing added. |
| `SimpleCreate.Session.AddEntity` | scripts/simple_create.js:244-261 | In batch mode, the pending batch is created only if it is null, the entity is appended to it, and no id is returned. In immediate mode, exactly one add-operation is applied and the entity's new id is returned. The batching flag does not change. |
| `SimpleCreate.Session.AddShape` | scripts/simple_create.js:231-235 | The shape is wrapped as an entity and submitted once. |
| `SimpleCreate.Session.AddPoint` | scripts/simple_create.js:14-20 | Submits the point that `PointShape` gives, once. |
| `SimpleCreate.Session.AddLine` | scripts/simple_create.js:31-37 | Submits the line that `LineShape` gives, once. |
| `SimpleCreate.Session.AddArc` | scripts/simple_create.js:48-53 | Submits the arc that `ArcShape` gives, once. |
| `SimpleCreate.Session.AddCircle` | scripts/simple_create.js:64-69 | Submits the circle that `CircleShape` gives, once. |
| `SimpleCreate.Session.AddPolyline` | scripts/simple_create.js:98-145 | Submits one polyline with the vertices `Vertices` places. It is closed only when `closed` is given as true. |
| `SimpleCreate.Session.AddSpline` | scripts/simple_create.js:159-174 | Submits one spline with the fit points `FitPoints` gives, one per item, in order. It is periodic exactly when `closed` is given as true. |
| `SimpleCreate.Session.AddSimpleText` | scripts/simple_create.js:195-225 | Submits one text entity built by `SimpleTextData`. |
| `SimpleCreate.BatchAccumulates` | scripts/simple_create.js:249-255 | In batch mode, successive additions accumulate in order in one pending batch, and the document receives nothing. |
| `SimpleCreate.ImmediateAdds` | scripts/simple_create.js:256-260 | In immediate mode, each addition reaches the document at once, in order, and returns its own id. |

## Findings

| source | as written | input that shows it | evidently intended | confidence | as-written member | corrected member |
|---|---|---|---|---|---|---|
| scripts/simple_create.js:129-139 | Each tuple's relative flag is read and defaulted to the polyline's `relative`, but it is never used. The placement tests the polyline-level `relative` instead. | `addPolyline([[10, 0], [5, 0, 0, true]])` places the second vertex at (5, 0). | Each vertex is relative when its own flag says so, as the parameter documentation at lines 84-85 and the example at line 93 describe. The second vertex would then be at (15, 0). | medium; not executed | `SimpleCreate.PolylineFlagIgnored` | `SimpleCreate.IntendedVertexAt` |

The model of `addPolyline` (`Vertices`, `BuildPolyline`, `Session.AddPolyline`) keeps the behaviour as written, because that is what the script does. The documented variant, `IntendedVertices`, is defined beside it. `IntendedVertexAt` proves the per-vertex property for that variant. `IntendedAgreesWithoutFlags` shows that the two agree whenever no tuple carries its own flag.

## Left out

- `scripts/Modify/BreakOut/Tests/BreakOutTest12.js` is a GUI replay test: widget clicks, synthetic mouse events and a comparison with a reference drawing. It has no logic of its own to model.
- The base classes `Modify` and `EAction` are not part of this model. Their `setState` is taken to store the state. Their `beginEvent` is taken to do nothing the tool depends on. Their `escapeEvent` is taken to end the tool, which sets `terminated`.
- `ModifyCornerTool.ModifyCorner.constructor` starts the tool in `ChoosingEntity1`. In the script, the state is undefined until `beginEvent` enters that state, and until then every handler ignores events.
- The host's geometry is not modelled: `getClosestSimpleShape`, `isLineBasedShape`, `isArcShape`, `isCircleShape`, `queryEntity` and the operation built by the concrete tool's `getOperation`. They appear only as the inputs `entity`, `shape` and `op`.
- The meaning of `applyOperation` is not modelled: undo, transactions and the document. The model only records each call. The same holds for when and how a pending batch is finally applied. That is done by code that is not part of this model.
- UI side effects are not modelled: the click mode, cursor, command prompt, mouse tips, `simulateMouseMoveEvent`, `updatePreview` and `qsTr`. The warning dialog is modelled only as the count `warnings`.
- `deg2rad` in `addArc` and `addSimpleText` is a floating-point unit conversion. Arc angles and the text angle are kept in degrees as passed.
- The branch of `addEntity` that first adds a clone of `entity.data()` (scripts/simple_create.js:245-247) is not modelled. It depends on inspecting foreign objects.
- `shapeToEntity` is modelled as wrapping the shape. The current layer and attributes it applies belong to the host.
- The document's assignment of ids is not modelled. The id an immediately added entity receives is the input `newId`.
- `isNull` and the other type tests of the script library are not part of this model. `isNull` is taken to mean undefined or null, and truthiness ignores NaN.
- Calls outside the documented argument forms are not modelled. Examples are a string where a coordinate is expected, or a non-numeric bulge. Such calls hand values to host constructors whose behaviour is not visible here, so the argument predicates (`PointArgs`, `IsVertexTuple`, `IsFitPointItem`, ...) require the documented forms.
- Vectors are pairs of reals. Floating-point rounding in the vector additions of relative polylines is not modelled.
