/**
 * The corner-modification tool that the Bevel and Round tools extend.
 *
 * The tool collects a first and a second entity, each picked near a line,
 * an arc or a circle, and, when the concrete tool requires it, a point; it
 * then asks the document interface to apply the operation that the concrete
 * tool builds. The host calls the tool's handlers (beginEvent, escapeEvent,
 * pickEntity, pickCoordinate, getHighlightedEntities) from its event loop.
 *
 * Host calls are abstracted: the picked entity is an optional id, the
 * closest simple shape of that entity at the picked position is a
 * ShapeKind, the operation built by the concrete tool (getOperation) is an
 * input that may be null, every call of applyOperation is appended to the
 * ghost log `applied`, and every warning shown to the user increments the
 * ghost counter `warnings`.
 */
module ModifyCornerTool {
  import opened Options
  import opened Host

  /** The three states of the tool. */
  datatype State = ChoosingEntity1 | ChoosingEntity2 | SettingPoint

  /** The closest simple shape of a picked entity, as far as the tool distinguishes it. */
  datatype ShapeKind = Line | Arc | Circle | Other

  /** isLineBasedShape(shape) || isArcShape(shape) || isCircleShape(shape) */
  predicate IsCornerShape(k: ShapeKind) {
    k.Line? || k.Arc? || k.Circle?
  }

  /** An operation object built by the concrete tool; its contents belong to the host. */
  datatype Operation = Operation(handle: nat)

  /**
   * One call of applyOperation: the argument passed (possibly null) and the
   * selection the concrete tool built it from.
   */
  datatype Application = Application(
    op: Option<Operation>,
    entity1: EntityId, shape1: ShapeKind,
    entity2: EntityId, shape2: ShapeKind,
    point: Option<Vector>)

  class ModifyCorner {
    var state: State
    /** Set once the base class's escapeEvent has ended the tool. */
    var terminated: bool

    var entity1: Option<EntityId>
    var shape1: Option<ShapeKind>
    var pos1: Option<Vector>

    var entity2: Option<EntityId>
    var shape2: Option<ShapeKind>
    var pos2: Option<Vector>

    var trim: bool
    var requiresPoint: bool
    var posPoint: Option<Vector>

    /** Every call of applyOperation made by the tool, oldest first. */
    ghost var applied: seq<Application>
    /** Number of "not a line, arc or circle" warnings shown. */
    ghost var warnings: nat

    /**
     * The tool's invariant: an entity is selected exactly when its shape is,
     * that shape is a line, arc or circle, and a selected entity has a
     * position; the second selection is empty while choosing the first
     * entity; past the first state the first entity is selected; in
     * SettingPoint the second one is too; and every operation applied so far
     * was built from two line, arc or circle shapes.
     */
    ghost predicate Valid()
      reads this
    {
      (entity1.Some? <==> shape1.Some?) && (shape1.Some? ==> IsCornerShape(shape1.value)) &&
      (entity1.Some? ==> pos1.Some?) &&
      (entity2.Some? <==> shape2.Some?) && (shape2.Some? ==> IsCornerShape(shape2.value)) &&
      (entity2.Some? ==> pos2.Some?) &&
      (state == ChoosingEntity1 ==> SecondCleared()) &&
      (state != ChoosingEntity1 ==> entity1.Some?) &&
      (state == SettingPoint ==> entity2.Some?) &&
      (forall i :: 0 <= i < |applied| ==>
         IsCornerShape(applied[i].shape1) && IsCornerShape(applied[i].shape2))
    }

    predicate FirstCleared()
      reads this
    {
      entity1.None? && shape1.None? && pos1.None?
    }

    predicate SecondCleared()
      reads this
    {
      entity2.None? && shape2.None? && pos2.None?
    }

    twostate predicate FirstKept()
      reads this
    {
      entity1 == old(entity1) && shape1 == old(shape1) && pos1 == old(pos1)
    }

    twostate predicate SecondKept()
      reads this
    {
      entity2 == old(entity2) && shape2 == old(shape2) && pos2 == old(pos2)
    }

    /** Fields that no event handler of this class changes. */
    twostate predicate SettingsKept()
      reads this
    {
      trim == old(trim) && requiresPoint == old(requiresPoint) && terminated == old(terminated)
    }

    /**
     * All selections empty, trimming on, no point required. The host leaves
     * the state undefined until beginEvent; the model starts in
     * ChoosingEntity1, which is the state beginEvent enters.
     */
    constructor ()
      ensures Valid()
      ensures state == ChoosingEntity1 && !terminated
      ensures FirstCleared() && SecondCleared() && posPoint.None?
      ensures trim && !requiresPoint
      ensures applied == [] && warnings == 0
    {
      state := ChoosingEntity1;
      terminated := false;
      entity1, shape1, pos1 := None, None, None;
      entity2, shape2, pos2 := None, None, None;
      trim := true;
      requiresPoint := false;
      posPoint := None;
      applied := [];
      warnings := 0;
    }

    /** beginEvent: enter ChoosingEntity1. */
    method BeginEvent()
      requires Valid()
      modifies this
      ensures Valid()
      ensures state == ChoosingEntity1 && FirstCleared() && SecondCleared()
      ensures posPoint == old(posPoint) && SettingsKept()
      ensures applied == old(applied) && warnings == old(warnings)
    {
      SetState(ChoosingEntity1);
    }

    /**
     * setState: enter state `s` and reset the fields that belong to it.
     * Entering ChoosingEntity1 clears both selections; entering
     * ChoosingEntity2 clears the second selection only; entering
     * SettingPoint clears only the point.
     */
    method SetState(s: State)
      modifies this
      ensures state == s
      ensures s == ChoosingEntity1 ==> FirstCleared() && SecondCleared() && posPoint == old(posPoint)
      ensures s == ChoosingEntity2 ==> FirstKept() && SecondCleared() && posPoint == old(posPoint)
      ensures s == SettingPoint ==> FirstKept() && SecondKept() && posPoint.None?
      ensures SettingsKept() && applied == old(applied) && warnings == old(warnings)
    {
      state := s;
      match s
      case ChoosingEntity1 =>
        entity1, shape1, pos1 := None, None, None;
        entity2, shape2, pos2 := None, None, None;
      case ChoosingEntity2 =>
        entity2, shape2, pos2 := None, None, None;
      case SettingPoint =>
        posPoint := None;
    }

    /**
     * escapeEvent: go back one state. SettingPoint returns to
     * ChoosingEntity2 (keeping the first selection, dropping the second),
     * ChoosingEntity2 returns to ChoosingEntity1 (dropping both), and
     * ChoosingEntity1 ends the tool through the base class.
     */
    method EscapeEvent()
      requires Valid()
      modifies this
      ensures Valid()
      ensures applied == old(applied) && warnings == old(warnings)
      ensures trim == old(trim) && requiresPoint == old(requiresPoint) && posPoint == old(posPoint)
      ensures old(state) == ChoosingEntity1 ==>
        terminated && state == ChoosingEntity1 && FirstKept() && SecondKept()
      ensures old(state) == ChoosingEntity2 ==>
        terminated == old(terminated) && state == ChoosingEntity1 && FirstCleared() && SecondCleared()
      ensures old(state) == SettingPoint ==>
        terminated == old(terminated) && state == ChoosingEntity2 && FirstKept() && SecondCleared()
    {
      match state
      case ChoosingEntity1 =>
        terminated := true;
      case ChoosingEntity2 =>
        SetState(ChoosingEntity1);
      case SettingPoint =>
        SetState(ChoosingEntity2);
    }

    /**
     * pickEntity: the user points at `entity` (None when nothing is under
     * the cursor) at position `pos`; `shape` is the host's closest simple
     * shape of that entity at `pos`, consulted only when an entity was
     * picked; `preview` is true for a hover and false for a click; `op` is
     * what the concrete tool's getOperation returns at the moment the tool
     * asks for it.
     */
    method PickEntity(entity: Option<EntityId>, shape: ShapeKind, pos: Vector, preview: bool, op: Option<Operation>)
      requires Valid()
      modifies this
      ensures Valid() && SettingsKept()
      // a hover never moves the tool on and never applies anything
      ensures preview ==> state == old(state) && applied == old(applied) && warnings == old(warnings)
      // no effect while a point is expected
      ensures old(state) == SettingPoint ==> unchanged(this)
      // first entity: nothing under the cursor drops the first entity and shape
      ensures old(state) == ChoosingEntity1 && entity.None? ==>
        state == ChoosingEntity1 && entity1.None? && shape1.None? && pos1 == old(pos1) &&
        SecondKept() && posPoint == old(posPoint) && applied == old(applied) && warnings == old(warnings)
      // first entity: a line, arc or circle is selected; a click moves on
      ensures old(state) == ChoosingEntity1 && entity.Some? && IsCornerShape(shape) ==>
        entity1 == entity && shape1 == Some(shape) && pos1 == Some(pos) &&
        state == (if preview then ChoosingEntity1 else ChoosingEntity2) &&
        SecondCleared() && posPoint == old(posPoint) && applied == old(applied) && warnings == old(warnings)
      // first entity: any other shape changes nothing but warns on a click
      ensures old(state) == ChoosingEntity1 && entity.Some? && !IsCornerShape(shape) ==>
        state == ChoosingEntity1 && FirstKept() && SecondKept() && posPoint == old(posPoint) &&
        applied == old(applied) && warnings == old(warnings) + (if preview then 0 else 1)
      // second entity: nothing under the cursor drops the second entity and shape
      ensures old(state) == ChoosingEntity2 && entity.None? ==>
        state == ChoosingEntity2 && FirstKept() && entity2.None? && shape2.None? && pos2 == old(pos2) &&
        posPoint == old(posPoint) && applied == old(applied) && warnings == old(warnings)
      // second entity, hover over a line, arc or circle: selected, nothing else
      ensures old(state) == ChoosingEntity2 && entity.Some? && IsCornerShape(shape) && preview ==>
        state == ChoosingEntity2 && FirstKept() &&
        entity2 == entity && shape2 == Some(shape) && pos2 == Some(pos) && posPoint == old(posPoint)
      // second entity, click on a line, arc or circle, point required: go and set the point
      ensures old(state) == ChoosingEntity2 && entity.Some? && IsCornerShape(shape) && !preview && requiresPoint ==>
        state == SettingPoint && FirstKept() &&
        entity2 == entity && shape2 == Some(shape) && pos2 == Some(pos) && posPoint.None? &&
        applied == old(applied) && warnings == old(warnings)
      // second entity, click on a line, arc or circle, no point required: apply once and start over
      ensures old(state) == ChoosingEntity2 && entity.Some? && IsCornerShape(shape) && !preview && !requiresPoint ==>
        state == ChoosingEntity1 && FirstCleared() && SecondCleared() && posPoint == old(posPoint) &&
        applied == old(applied) + [Application(op, old(entity1).value, old(shape1).value, entity.value, shape, old(posPoint))] &&
        warnings == old(warnings)
      // second entity, any other shape: drop the second entity and shape, warn on a click
      ensures old(state) == ChoosingEntity2 && entity.Some? && !IsCornerShape(shape) ==>
        state == ChoosingEntity2 && FirstKept() && entity2.None? && shape2.None? && pos2 == old(pos2) &&
        posPoint == old(posPoint) && applied == old(applied) && warnings == old(warnings) + (if preview then 0 else 1)
    {
      match state
      case ChoosingEntity1 =>
        if entity.None? {
          entity1, shape1 := None, None;
          return;
        }
        if IsCornerShape(shape) {
          entity1, shape1, pos1 := entity, Some(shape), Some(pos);
          if !preview {
            SetState(ChoosingEntity2);
          }
        } else {
          if !preview {
            warnings := warnings + 1;
          }
        }
      case ChoosingEntity2 =>
        if entity.None? {
          entity2, shape2 := None, None;
          return;
        }
        if IsCornerShape(shape) {
          entity2, shape2, pos2 := entity, Some(shape), Some(pos);
          if !preview {
            if requiresPoint {
              SetState(SettingPoint);
            } else {
              applied := applied + [Application(op, entity1.value, shape1.value, entity2.value, shape2.value, posPoint)];
              SetState(ChoosingEntity1);
            }
          }
        } else {
          entity2, shape2 := None, None;
          if !preview {
            warnings := warnings + 1;
          }
        }
      case SettingPoint =>
    }

    /**
     * pickCoordinate: the user points at `pos`; only SettingPoint reacts.
     * A hover records the point; a click records it, applies the operation
     * `op` built by the concrete tool if it is not null, and starts over.
     */
    method PickCoordinate(pos: Vector, preview: bool, op: Option<Operation>)
      requires Valid()
      modifies this
      ensures Valid() && SettingsKept() && warnings == old(warnings)
      ensures old(state) != SettingPoint ==> unchanged(this)
      ensures old(state) == SettingPoint && preview ==>
        state == SettingPoint && posPoint == Some(pos) && FirstKept() && SecondKept() && applied == old(applied)
      ensures old(state) == SettingPoint && !preview ==>
        state == ChoosingEntity1 && posPoint == Some(pos) && FirstCleared() && SecondCleared() &&
        applied == old(applied) +
          (if op.Some?
           then [Application(op, old(entity1).value, old(shape1).value, old(entity2).value, old(shape2).value, Some(pos))]
           else [])
    {
      if state == SettingPoint {
        posPoint := Some(pos);
        if !preview {
          if op.Some? {
            applied := applied + [Application(op, entity1.value, shape1.value, entity2.value, shape2.value, posPoint)];
          }
          SetState(ChoosingEntity1);
        }
      }
    }

    /**
     * getHighlightedEntities: the id of the first entity, then that of the
     * second, each only when it is selected.
     */
    method GetHighlightedEntities() returns (ids: seq<EntityId>)
      ensures |ids| == (if entity1.Some? then 1 else 0) + (if entity2.Some? then 1 else 0)
      ensures entity1.Some? ==> ids[0] == entity1.value
      ensures entity2.Some? ==> ids[|ids| - 1] == entity2.value
      ensures forall id :: id in ids ==> Some(id) == entity1 || Some(id) == entity2
    {
      ids := [];
      if entity1.Some? {
        ids := ids + [entity1.value];
      }
      if entity2.Some? {
        ids := ids + [entity2.value];
      }
    }

    /** slotTrimChanged: the trim option of the tool's options toolbar. */
    method SlotTrimChanged(value: bool)
      modifies this
      ensures trim == value
      ensures state == old(state) && FirstKept() && SecondKept() && posPoint == old(posPoint)
      ensures requiresPoint == old(requiresPoint) && terminated == old(terminated)
      ensures applied == old(applied) && warnings == old(warnings)
    {
      trim := value;
    }
  }

  /**
   * A tool that needs no point: two clicks on lines, arcs or circles apply
   * exactly one operation, built from the two picks, and the tool is ready
   * for the next corner.
   */
  method CornerWithoutPoint(t: ModifyCorner, e1: EntityId, k1: ShapeKind, p1: Vector,
                            e2: EntityId, k2: ShapeKind, p2: Vector, op: Option<Operation>)
    requires t.Valid() && t.state == ChoosingEntity1 && !t.requiresPoint
    requires IsCornerShape(k1) && IsCornerShape(k2)
    modifies t
    ensures t.Valid() && t.state == ChoosingEntity1 && t.FirstCleared() && t.SecondCleared()
    ensures t.applied == old(t.applied) + [Application(op, e1, k1, e2, k2, old(t.posPoint))]
  {
    t.PickEntity(Some(e1), k1, p1, false, None);
    t.PickEntity(Some(e2), k2, p2, false, op);
  }

  /**
   * A tool that needs a point: two clicks on lines, arcs or circles apply
   * nothing; the point click then applies the operation once, if the
   * concrete tool built one, and the tool is ready for the next corner.
   */
  method CornerWithPoint(t: ModifyCorner, e1: EntityId, k1: ShapeKind, p1: Vector,
                         e2: EntityId, k2: ShapeKind, p2: Vector, q: Vector, op: Option<Operation>)
    requires t.Valid() && t.state == ChoosingEntity1 && t.requiresPoint
    requires IsCornerShape(k1) && IsCornerShape(k2)
    modifies t
    ensures t.Valid() && t.state == ChoosingEntity1 && t.FirstCleared() && t.SecondCleared()
    ensures t.applied == old(t.applied) + (if op.Some? then [Application(op, e1, k1, e2, k2, Some(q))] else [])
  {
    t.PickEntity(Some(e1), k1, p1, false, None);
    t.PickEntity(Some(e2), k2, p2, false, None);
    assert t.applied == old(t.applied);
    t.PickCoordinate(q, false, op);
  }

  /**
   * Escape from SettingPoint goes back to choosing the second entity with
   * the first selection intact; a second escape drops it as well.
   */
  method EscapeTwice(t: ModifyCorner)
    requires t.Valid() && t.state == SettingPoint
    modifies t
    ensures t.Valid() && t.state == ChoosingEntity1 && t.FirstCleared() && t.SecondCleared()
    ensures t.terminated == old(t.terminated)
    ensures t.applied == old(t.applied)
  {
    ghost var e1 := t.entity1;
    t.EscapeEvent();
    assert t.state == ChoosingEntity2 && t.entity1 == e1 && t.entity2.None?;
    t.EscapeEvent();
  }
}
