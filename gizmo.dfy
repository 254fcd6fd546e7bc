/**
 * The Controls group: a controller node holding nine handles, the widened object
 * bounds, the drag anchors and the two drag flags, all updated in place. Each
 * method is proved to perform the corresponding transition of DragSession.
 */
module Gizmo {
  import opened Wrappers
  import opened Vectors
  import opened Handles
  import opened DragSession

  class Controls {
    /** The controller's own position (inherited from THREE.Group). */
    var position: Vec3
    var minBox: Vec3
    var maxBox: Vec3
    var dragStartPoint: Vec3
    var dragIncrementalStartPoint: Vec3
    var isBeingDraggedTranslation: bool
    var isBeingDraggedRotation: bool
    var objectTargetPosition: Vec3
    var translationXP: Handle
    var translationYP: Handle
    var translationZP: Handle
    var translationXN: Handle
    var translationYN: Handle
    var translationZN: Handle
    var rotationX: Handle
    var rotationY: Handle
    var rotationZ: Handle

    /** The nine handle fields as one registry. */
    function AllHandles(): Registry
      reads this
    {
      Registry(translationXP, translationYP, translationZP,
               translationXN, translationYN, translationZN,
               rotationX, rotationY, rotationZ)
    }

    /** The fields the drag and frame operations read and write. */
    function State(): Session
      reads this
    {
      Session(position, dragStartPoint, dragIncrementalStartPoint,
              isBeingDraggedTranslation, isBeingDraggedRotation, objectTargetPosition, AllHandles())
    }

    /** Every handle keeps the kind and name given at construction. */
    ghost predicate Valid()
      reads this
    {
      AllHandles().WellFormed()
    }

    /**
     * Builds the controller for an object whose bounding box is `objectBox`:
     * computeObjectBounds, then setupTranslation and setupRotation. `rest`
     * gives the Euler triple each handle's rest-pose rotation leaves on it.
     */
    constructor (objectBox: Box, separation: real, rest: HandleId -> Vec3)
      ensures Valid()
      ensures Box(minBox, maxBox) == ComputeObjectBounds(objectBox, separation)
      ensures AllHandles() == Setup(Box(minBox, maxBox), rest)
      ensures State() == Session(Origin, Origin, Origin, false, false, Origin, AllHandles())
    {
      position := Origin;
      dragStartPoint := Origin;
      dragIncrementalStartPoint := Origin;
      isBeingDraggedTranslation := false;
      isBeingDraggedRotation := false;
      objectTargetPosition := Origin;
      var bounds := ComputeObjectBounds(objectBox, separation);
      minBox := bounds.min;
      maxBox := bounds.max;
      translationXP := SetupTranslation(X, true, bounds, rest(TranslationHandle(X, true)));
      translationYP := SetupTranslation(Y, true, bounds, rest(TranslationHandle(Y, true)));
      translationZP := SetupTranslation(Z, true, bounds, rest(TranslationHandle(Z, true)));
      translationXN := SetupTranslation(X, false, bounds, rest(TranslationHandle(X, false)));
      translationYN := SetupTranslation(Y, false, bounds, rest(TranslationHandle(Y, false)));
      translationZN := SetupTranslation(Z, false, bounds, rest(TranslationHandle(Z, false)));
      rotationX := SetupRotation(X, rest(RotationHandle(X)));
      rotationY := SetupRotation(Y, rest(RotationHandle(Y)));
      rotationZ := SetupRotation(Z, rest(RotationHandle(Z)));
    }

    /** Writes handle `id`; every other field is kept. */
    method SetHandle(id: HandleId, h: Handle)
      modifies this
      ensures AllHandles() == old(AllHandles()).Replace(id, h)
      ensures State() == old(State()).(handles := AllHandles())
      ensures minBox == old(minBox) && maxBox == old(maxBox)
    {
      match id
      case TranslationHandle(X, true) => translationXP := h;
      case TranslationHandle(Y, true) => translationYP := h;
      case TranslationHandle(Z, true) => translationZP := h;
      case TranslationHandle(X, false) => translationXN := h;
      case TranslationHandle(Y, false) => translationYN := h;
      case TranslationHandle(Z, false) => translationZN := h;
      case RotationHandle(X) => rotationX := h;
      case RotationHandle(Y) => rotationY := h;
      case RotationHandle(Z) => rotationZ := h;
    }

    /** processDragStart: anchors both drag points at `point` and sets the flag of the handle's kind. */
    method ProcessDragStart(point: Vec3, id: HandleId)
      requires Valid()
      modifies this
      ensures Valid()
      ensures State() == Start(old(State()), point, id)
      ensures isBeingDraggedTranslation <==> id.TranslationHandle?
      ensures isBeingDraggedRotation <==> id.RotationHandle?
      ensures minBox == old(minBox) && maxBox == old(maxBox)
    {
      var handle := AllHandles().At(id);
      dragStartPoint := point;
      dragIncrementalStartPoint := point;
      isBeingDraggedTranslation := handle.kind == Translation;
      isBeingDraggedRotation := handle.kind == Rotation;
    }

    /**
     * processHandle: one drag step to `point` on handle `id`. `arc` stands for
     * the library's Euler decomposition of the shortest rotation from the first
     * touch direction to the second; it is applied to the offsets of the
     * incremental anchor and of `point` from the controller's position.
     */
    method ProcessHandle(point: Vec3, id: HandleId, arc: (Vec3, Vec3) -> Vec3)
      requires Valid()
      modifies this
      ensures Valid()
      ensures State() == Step(old(State()), point, id,
                              arc(Sub(old(dragIncrementalStartPoint), old(position)), Sub(point, old(position))))
      ensures minBox == old(minBox) && maxBox == old(maxBox)
    {
      var handle := AllHandles().At(id);
      if handle.kind == Translation {
        position := Slide(position, handle.name, dragIncrementalStartPoint, point);
      } else {
        var euler := arc(Sub(dragIncrementalStartPoint, position), Sub(point, position));
        SetHandle(id, handle.(rotation := Turn(handle.rotation, handle.name, euler)));
      }
      dragIncrementalStartPoint := point;
    }

    /** showXT: both X translation handles get `visibility`. */
    method ShowXT(visibility: bool := true)
      requires Valid()
      modifies this
      ensures Valid()
      ensures AllHandles() == ShowTranslation(old(AllHandles()), X, visibility)
      ensures State() == old(State()).(handles := AllHandles())
      ensures minBox == old(minBox) && maxBox == old(maxBox)
    {
      translationXP := translationXP.(visible := visibility);
      translationXN := translationXN.(visible := visibility);
    }

    /** showYT: both Y translation handles get `visibility`. */
    method ShowYT(visibility: bool := true)
      requires Valid()
      modifies this
      ensures Valid()
      ensures AllHandles() == ShowTranslation(old(AllHandles()), Y, visibility)
      ensures State() == old(State()).(handles := AllHandles())
      ensures minBox == old(minBox) && maxBox == old(maxBox)
    {
      translationYP := translationYP.(visible := visibility);
      translationYN := translationYN.(visible := visibility);
    }

    /** showZT: both Z translation handles get `visibility`. */
    method ShowZT(visibility: bool := true)
      requires Valid()
      modifies this
      ensures Valid()
      ensures AllHandles() == ShowTranslation(old(AllHandles()), Z, visibility)
      ensures State() == old(State()).(handles := AllHandles())
      ensures minBox == old(minBox) && maxBox == old(maxBox)
    {
      translationZP := translationZP.(visible := visibility);
      translationZN := translationZN.(visible := visibility);
    }

    /** showXR: the X ring gets `visibility`. */
    method ShowXR(visibility: bool := true)
      requires Valid()
      modifies this
      ensures Valid()
      ensures AllHandles() == ShowRotation(old(AllHandles()), X, visibility)
      ensures State() == old(State()).(handles := AllHandles())
      ensures minBox == old(minBox) && maxBox == old(maxBox)
    {
      rotationX := rotationX.(visible := visibility);
    }

    /** showYR: the Y ring gets `visibility`. */
    method ShowYR(visibility: bool := true)
      requires Valid()
      modifies this
      ensures Valid()
      ensures AllHandles() == ShowRotation(old(AllHandles()), Y, visibility)
      ensures State() == old(State()).(handles := AllHandles())
      ensures minBox == old(minBox) && maxBox == old(maxBox)
    {
      rotationY := rotationY.(visible := visibility);
    }

    /** showZR: the Z ring gets `visibility`. */
    method ShowZR(visibility: bool := true)
      requires Valid()
      modifies this
      ensures Valid()
      ensures AllHandles() == ShowRotation(old(AllHandles()), Z, visibility)
      ensures State() == old(State()).(handles := AllHandles())
      ensures minBox == old(minBox) && maxBox == old(maxBox)
    {
      rotationZ := rotationZ.(visible := visibility);
    }

    /**
     * updateMatrixWorld, with the scene graph abstracted: `objectWorldPosition`
     * is what getWorldPosition reports after the object's own update, `links`
     * says which parents exist, and the result says what is written to the
     * object.
     */
    method UpdateMatrixWorld(objectWorldPosition: Vec3, links: SceneLinks) returns (update: ObjectUpdate)
      requires Valid()
      modifies this
      ensures Valid()
      ensures (State(), update) == FrameSync(old(State()), objectWorldPosition, links)
      ensures minBox == old(minBox) && maxBox == old(maxBox)
    {
      objectTargetPosition := position;
      if isBeingDraggedTranslation {
        update := ObjectUpdate(false, DetachObjectUpdatePositionAttach(links, objectTargetPosition));
      } else if isBeingDraggedRotation {
        update := ObjectUpdate(true, DetachObjectUpdatePositionAttach(links, objectTargetPosition));
      } else {
        position := objectWorldPosition;
        update := ObjectUpdate(false, None);
      }
    }
  }

  /**
   * A client of the contracts above: a unit box with separation 0.1 puts the
   * positive X handle at x = 1.1; dragging it from there to x = 2.1 moves the
   * controller by exactly 1 along X, hiding the X translation handles leaves
   * the rings visible, and an idle frame makes the controller follow the object.
   */
  method DragScenario(rest: HandleId -> Vec3, objectWorldPosition: Vec3, links: SceneLinks)
  {
    var c := new Controls(Box(Vec3(-1.0, -1.0, -1.0), Vec3(1.0, 1.0, 1.0)), 0.1, rest);
    assert c.translationXP.position == Vec3(1.1, 0.0, 0.0) by {
      assert c.AllHandles().At(TranslationHandle(X, true)) == c.translationXP;
    }
    c.ProcessDragStart(Vec3(1.1, 0.0, 0.0), TranslationHandle(X, true));
    c.ProcessHandle(Vec3(2.1, 0.0, 0.0), TranslationHandle(X, true), (u, v) => Origin);
    assert c.position == Vec3(1.0, 0.0, 0.0);
    assert c.isBeingDraggedTranslation && !c.isBeingDraggedRotation;
    c.ShowXT(false);
    assert !c.translationXN.visible && c.rotationX.visible by {
      assert c.AllHandles().At(TranslationHandle(X, false)) == c.translationXN;
      assert c.AllHandles().At(RotationHandle(X)) == c.rotationX;
    }
    var update := c.UpdateMatrixWorld(objectWorldPosition, links);
    assert update.scenePosition.Some? ==> update.scenePosition.value == Vec3(1.0, 0.0, 0.0);
    c.isBeingDraggedTranslation := false;
    update := c.UpdateMatrixWorld(objectWorldPosition, links);
    assert c.position == objectWorldPosition && update.scenePosition == None;
  }
}
