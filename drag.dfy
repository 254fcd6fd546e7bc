/**
 * The drag-session state machine and the per-frame synchronisation of the
 * controller, as pure transitions over the controller's state. The class in
 * Gizmo is proved to perform exactly these transitions; the lemmas here state
 * what sequences of them achieve.
 */
module DragSession {
  import opened Wrappers
  import opened Vectors
  import opened Handles

  /** The part of a Controls instance that the drag and frame operations read and write. */
  datatype Session = Session(
    position: Vec3,
    dragStartPoint: Vec3,
    dragIncrementalStartPoint: Vec3,
    isBeingDraggedTranslation: bool,
    isBeingDraggedRotation: bool,
    objectTargetPosition: Vec3,
    handles: Registry)

  /**
   * processDragStart: both anchors move to `point`, and the flags record which
   * kind of handle is being dragged. Nothing is required of the current state,
   * so a second call during a drag restarts it.
   */
  function Start(s: Session, point: Vec3, id: HandleId): (r: Session)
    ensures r.dragStartPoint == point && r.dragIncrementalStartPoint == point
    ensures r.isBeingDraggedTranslation <==> s.handles.At(id).kind == Translation
    ensures r.isBeingDraggedRotation <==> s.handles.At(id).kind == Rotation
    ensures r.isBeingDraggedTranslation != r.isBeingDraggedRotation
    ensures r.position == s.position && r.handles == s.handles
    ensures r.objectTargetPosition == s.objectTargetPosition
  {
    var handle := s.handles.At(id);
    s.(dragStartPoint := point, dragIncrementalStartPoint := point,
       isBeingDraggedTranslation := handle.kind == Translation,
       isBeingDraggedRotation := handle.kind == Rotation)
  }

  /** Starting a drag forgets everything an earlier start recorded. */
  lemma StartRestarts(s: Session, p: Vec3, i: HandleId, q: Vec3, j: HandleId)
    ensures Start(Start(s, p, i), q, j) == Start(s, q, j)
  {
  }

  /**
   * The translation branch of processHandle on a handle named `name`: the
   * step's displacement from the incremental anchor is added to that one
   * coordinate of the position.
   */
  function Slide(position: Vec3, name: Axis, anchor: Vec3, point: Vec3): (r: Vec3)
    ensures Get(r, name) == Get(position, name) + (Get(point, name) - Get(anchor, name))
    ensures forall b :: b != name ==> Get(r, b) == Get(position, b)
  {
    if name == X then position.(x := position.x + (point.x - anchor.x))
    else if name == Y then position.(y := position.y + (point.y - anchor.y))
    else position.(z := position.z + (point.z - anchor.z))
  }

  /** The Euler channel a drag on the ring named `name` turns: the Y ring turns `z`. */
  function RingChannel(name: Axis): Axis
  {
    if name == X then X else Z
  }

  /** The amount a drag on the ring named `name` adds to its channel, from the step's Euler angles. */
  function RingDelta(name: Axis, euler: Vec3): real
  {
    match name
    case X => euler.x
    case Y => -euler.y
    case Z => euler.z
  }

  /**
   * The rotation branch of processHandle on the ring named `name`: only the
   * ring's channel changes, by its delta.
   */
  function Turn(rotation: Vec3, name: Axis, euler: Vec3): (r: Vec3)
    ensures Get(r, RingChannel(name)) == Get(rotation, RingChannel(name)) + RingDelta(name, euler)
    ensures forall c :: c != RingChannel(name) ==> Get(r, c) == Get(rotation, c)
  {
    if name == X then rotation.(x := rotation.x + euler.x)
    else if name == Y then rotation.(z := rotation.z + -euler.y)
    else rotation.(z := rotation.z + euler.z)
  }

  /**
   * processHandle: one drag step towards `point` on handle `id`. `euler` is the
   * Euler decomposition of the shortest rotation between the two touch
   * directions, which only the rotation branch uses. Whatever the branch, the
   * incremental anchor ends at `point`.
   */
  function Step(s: Session, point: Vec3, id: HandleId, euler: Vec3): (r: Session)
    ensures r.dragIncrementalStartPoint == point
    ensures r.dragStartPoint == s.dragStartPoint
    ensures r.isBeingDraggedTranslation == s.isBeingDraggedTranslation
    ensures r.isBeingDraggedRotation == s.isBeingDraggedRotation
    ensures r.objectTargetPosition == s.objectTargetPosition
    ensures forall other :: other != id ==> r.handles.At(other) == s.handles.At(other)
    ensures r.handles.At(id) == s.handles.At(id).(rotation := r.handles.At(id).rotation)
    ensures s.handles.At(id).kind == Translation ==>
              r.handles == s.handles
              && r.position == Slide(s.position, s.handles.At(id).name, s.dragIncrementalStartPoint, point)
    ensures s.handles.At(id).kind == Rotation ==>
              r.position == s.position
              && r.handles.At(id).rotation == Turn(s.handles.At(id).rotation, s.handles.At(id).name, euler)
  {
    var handle := s.handles.At(id);
    var moved := match handle.kind
      case Translation =>
        s.(position := Slide(s.position, handle.name, s.dragIncrementalStartPoint, point))
      case Rotation =>
        s.(handles := s.handles.Replace(id, handle.(rotation := Turn(handle.rotation, handle.name, euler))));
    moved.(dragIncrementalStartPoint := point)
  }

  /** One move of a drag, as the picking layer reports it. */
  datatype Move = Move(point: Vec3, handle: HandleId, euler: Vec3)

  /** The point of the last move, or `anchor` when there is none. */
  function LastPoint(anchor: Vec3, moves: seq<Move>): Vec3
  {
    if moves == [] then anchor else moves[|moves| - 1].point
  }

  /** `moves` applied one processHandle call at a time, in order. */
  function Run(s: Session, moves: seq<Move>): (r: Session)
    ensures r.dragStartPoint == s.dragStartPoint
    ensures r.dragIncrementalStartPoint == LastPoint(s.dragIncrementalStartPoint, moves)
    ensures r.isBeingDraggedTranslation == s.isBeingDraggedTranslation
    ensures r.isBeingDraggedRotation == s.isBeingDraggedRotation
    ensures forall id :: r.handles.At(id).kind == s.handles.At(id).kind
    ensures forall id :: r.handles.At(id).name == s.handles.At(id).name
    decreases |moves|
  {
    if moves == [] then s
    else
      var m := moves[|moves| - 1];
      Step(Run(s, moves[..|moves| - 1]), m.point, m.handle, m.euler)
  }

  /**
   * Because every step measures from the previous step's point, a run of
   * translation steps on one handle moves the position, on that handle's axis
   * only, by the distance from the incremental anchor to the last point.
   */
  lemma {:induction false} TranslationRunTelescopes(s: Session, moves: seq<Move>, id: HandleId)
    requires s.handles.At(id).kind == Translation
    requires forall i :: 0 <= i < |moves| ==> moves[i].handle == id
    ensures var name := s.handles.At(id).name;
      Get(Run(s, moves).position, name)
        == Get(s.position, name) + (Get(LastPoint(s.dragIncrementalStartPoint, moves), name)
                                    - Get(s.dragIncrementalStartPoint, name))
    ensures forall b :: b != s.handles.At(id).name ==> Get(Run(s, moves).position, b) == Get(s.position, b)
    ensures Run(s, moves).handles == s.handles
    decreases |moves|
  {
    if moves != [] {
      var prefix := moves[..|moves| - 1];
      TranslationRunTelescopes(s, prefix, id);
    }
  }

  /**
   * A translation drag: after processDragStart at `start` and a run of steps on
   * the same handle, the position has moved by exactly (last point - start) on
   * the handle's axis, and not at all on the other two.
   */
  lemma {:induction false} TranslationDrag(s: Session, start: Vec3, id: HandleId, moves: seq<Move>)
    requires s.handles.At(id).kind == Translation
    requires forall i :: 0 <= i < |moves| ==> moves[i].handle == id
    ensures var r := Run(Start(s, start, id), moves); var name := s.handles.At(id).name;
      && Get(r.position, name) == Get(s.position, name) + (Get(LastPoint(start, moves), name) - Get(start, name))
      && (forall b :: b != name ==> Get(r.position, b) == Get(s.position, b))
      && r.isBeingDraggedTranslation && !r.isBeingDraggedRotation
  {
    TranslationRunTelescopes(Start(s, start, id), moves, id);
  }

  /** The sum of the channel deltas that `moves` carry for the ring named `name`. */
  function RingTotal(name: Axis, moves: seq<Move>): real
    decreases |moves|
  {
    if moves == [] then 0.0
    else RingTotal(name, moves[..|moves| - 1]) + RingDelta(name, moves[|moves| - 1].euler)
  }

  /**
   * A run of rotation steps on one ring leaves the position and every other
   * handle alone, and adds the sum of the step deltas to the ring's one channel.
   */
  lemma {:induction false} RingRunAccumulates(s: Session, moves: seq<Move>, id: HandleId)
    requires s.handles.At(id).kind == Rotation
    requires forall i :: 0 <= i < |moves| ==> moves[i].handle == id
    ensures Run(s, moves).position == s.position
    ensures forall other :: other != id ==> Run(s, moves).handles.At(other) == s.handles.At(other)
    ensures var name := s.handles.At(id).name; var c := RingChannel(name);
      Get(Run(s, moves).handles.At(id).rotation, c) == Get(s.handles.At(id).rotation, c) + RingTotal(name, moves)
    ensures forall c :: c != RingChannel(s.handles.At(id).name) ==>
              Get(Run(s, moves).handles.At(id).rotation, c) == Get(s.handles.At(id).rotation, c)
    decreases |moves|
  {
    if moves != [] {
      var prefix := moves[..|moves| - 1];
      RingRunAccumulates(s, prefix, id);
    }
  }

  /** showXT/showYT/showZT: the visibility of both translation handles of axis `a`. */
  function ShowTranslation(r: Registry, a: Axis, visible: bool): (r': Registry)
    ensures forall id :: r'.At(id).visible
              == (if id.TranslationHandle? && id.axis == a then visible else r.At(id).visible)
    ensures forall id :: r'.At(id) == r.At(id).(visible := r'.At(id).visible)
  {
    var positive, negative := TranslationHandle(a, true), TranslationHandle(a, false);
    r.Replace(positive, r.At(positive).(visible := visible))
     .Replace(negative, r.At(negative).(visible := visible))
  }

  /** showXR/showYR/showZR: the visibility of the rotation ring of axis `a`. */
  function ShowRotation(r: Registry, a: Axis, visible: bool): (r': Registry)
    ensures forall id :: r'.At(id).visible
              == (if id == RotationHandle(a) then visible else r.At(id).visible)
    ensures forall id :: r'.At(id) == r.At(id).(visible := r'.At(id).visible)
  {
    r.Replace(RotationHandle(a), r.At(RotationHandle(a)).(visible := visible))
  }

  /**
   * The toggles are independent: a translation toggle and a rotation toggle
   * give the same registry in either order.
   */
  lemma ToggleKindsCommute(r: Registry, a: Axis, v: bool, b: Axis, w: bool)
    ensures ShowTranslation(ShowRotation(r, b, w), a, v) == ShowRotation(ShowTranslation(r, a, v), b, w)
  {
  }

  /** Toggles of two different axes give the same registry in either order. */
  lemma TranslationTogglesCommute(r: Registry, a: Axis, v: bool, b: Axis, w: bool)
    requires a != b
    ensures ShowTranslation(ShowTranslation(r, b, w), a, v) == ShowTranslation(ShowTranslation(r, a, v), b, w)
  {
  }

  /** Whether the controlled object, its parent and the controller's parent and grandparent exist. */
  datatype SceneLinks = SceneLinks(objectHasParent: bool, controllerHasParent: bool, controllerHasGrandparent: bool)

  /**
   * What a frame update writes to the controlled object: whether its quaternion
   * is overwritten with the target orientation, and the position it is given in
   * the frame of the controller's grandparent (the scene) before being attached
   * back to its parent, if it is moved at all.
   */
  datatype ObjectUpdate = ObjectUpdate(quaternionWritten: bool, scenePosition: Option<Vec3>)

  /**
   * detachObjectUpdatePositionAttach: the object is moved to `target` only when
   * it has a parent and the controller has a parent and a grandparent;
   * otherwise nothing happens.
   */
  function DetachObjectUpdatePositionAttach(links: SceneLinks, target: Vec3): (placed: Option<Vec3>)
    ensures placed.Some? <==>
              links.objectHasParent && links.controllerHasParent && links.controllerHasGrandparent
    ensures placed.Some? ==> placed.value == target
  {
    if links.objectHasParent && links.controllerHasParent && links.controllerHasGrandparent
    then Some(target)
    else None
  }

  /**
   * updateMatrixWorld, given the object's world position after its own update:
   * the target position is the controller's position before any branch; during
   * a drag the object is placed there (a rotation drag also writes its
   * orientation); when idle the controller follows the object instead.
   */
  function FrameSync(s: Session, objectWorldPosition: Vec3, links: SceneLinks): (r: (Session, ObjectUpdate))
    ensures r.0.objectTargetPosition == s.position
    ensures r.0 == s.(position := r.0.position, objectTargetPosition := s.position)
    ensures !s.isBeingDraggedTranslation && !s.isBeingDraggedRotation ==>
              r.0.position == objectWorldPosition && r.1 == ObjectUpdate(false, None)
    ensures s.isBeingDraggedTranslation || s.isBeingDraggedRotation ==>
              r.0.position == s.position
              && r.1.scenePosition == DetachObjectUpdatePositionAttach(links, s.position)
    ensures r.1.quaternionWritten <==> !s.isBeingDraggedTranslation && s.isBeingDraggedRotation
  {
    var s' := s.(objectTargetPosition := s.position);
    if s'.isBeingDraggedTranslation then
      (s', ObjectUpdate(false, DetachObjectUpdatePositionAttach(links, s'.objectTargetPosition)))
    else if s'.isBeingDraggedRotation then
      (s', ObjectUpdate(true, DetachObjectUpdatePositionAttach(links, s'.objectTargetPosition)))
    else
      (s'.(position := objectWorldPosition), ObjectUpdate(false, None))
  }

  /**
   * End to end: a translation drag followed by a frame update in a full
   * hierarchy puts the object at the controller's starting position moved by
   * (last point - start) along the handle's axis only.
   */
  lemma {:induction false} TranslationDragMovesObject(
    s: Session, start: Vec3, id: HandleId, moves: seq<Move>, objectWorldPosition: Vec3, links: SceneLinks)
    requires s.handles.At(id).kind == Translation
    requires forall i :: 0 <= i < |moves| ==> moves[i].handle == id
    requires links == SceneLinks(true, true, true)
    ensures var u := FrameSync(Run(Start(s, start, id), moves), objectWorldPosition, links).1;
      var name := s.handles.At(id).name;
      && !u.quaternionWritten
      && u.scenePosition.Some?
      && Get(u.scenePosition.value, name) == Get(s.position, name) + (Get(LastPoint(start, moves), name) - Get(start, name))
      && (forall b :: b != name ==> Get(u.scenePosition.value, b) == Get(s.position, b))
  {
    TranslationDrag(s, start, id, moves);
  }
}
