/**
 * The nine handles of the gizmo, the object bounds they are placed from, and the
 * one-time setup that names them, places them and gives them their up vectors.
 * A handle's geometry and colour belong to the Translation and Rotation classes,
 * which are not part of this model; `kind` replaces the `instanceof` test on them.
 */
module Handles {
  import opened Vectors

  datatype Kind = Translation | Rotation

  /**
   * Which handle of the controller a drag event refers to: the translation handle
   * on the positive or negative side of an axis, or the rotation ring of an axis.
   */
  datatype HandleId = TranslationHandle(axis: Axis, positive: bool) | RotationHandle(axis: Axis)

  /** The kind of handle the controller creates for `id`. */
  function KindOf(id: HandleId): Kind
  {
    if id.TranslationHandle? then Translation else Rotation
  }

  /**
   * A handle as the controller sees it. `name` is its HANDLE_NAMES tag
   * ("x_handle", "y_handle" or "z_handle"), given here as the axis it names;
   * `rotation` is its Euler x/y/z triple.
   */
  datatype Handle = Handle(kind: Kind, name: Axis, up: Vec3, visible: bool, position: Vec3, rotation: Vec3)

  /** The controller's nine handle fields, read and replaced by identifier. */
  datatype Registry = Registry(
    translationXP: Handle, translationYP: Handle, translationZP: Handle,
    translationXN: Handle, translationYN: Handle, translationZN: Handle,
    rotationX: Handle, rotationY: Handle, rotationZ: Handle)
  {
    function At(id: HandleId): Handle
    {
      match id
      case TranslationHandle(X, true) => translationXP
      case TranslationHandle(Y, true) => translationYP
      case TranslationHandle(Z, true) => translationZP
      case TranslationHandle(X, false) => translationXN
      case TranslationHandle(Y, false) => translationYN
      case TranslationHandle(Z, false) => translationZN
      case RotationHandle(X) => rotationX
      case RotationHandle(Y) => rotationY
      case RotationHandle(Z) => rotationZ
    }

    /** The registry with the handle `id` replaced by `h` and every other handle kept. */
    function Replace(id: HandleId, h: Handle): (r: Registry)
      ensures r.At(id) == h
      ensures forall other :: other != id ==> r.At(other) == At(other)
    {
      match id
      case TranslationHandle(X, true) => this.(translationXP := h)
      case TranslationHandle(Y, true) => this.(translationYP := h)
      case TranslationHandle(Z, true) => this.(translationZP := h)
      case TranslationHandle(X, false) => this.(translationXN := h)
      case TranslationHandle(Y, false) => this.(translationYN := h)
      case TranslationHandle(Z, false) => this.(translationZN := h)
      case RotationHandle(X) => this.(rotationX := h)
      case RotationHandle(Y) => this.(rotationY := h)
      case RotationHandle(Z) => this.(rotationZ := h)
    }

    /** Every handle has the kind and the name the controller gave it at construction. */
    ghost predicate WellFormed()
    {
      forall id :: At(id).kind == KindOf(id) && At(id).name == id.axis
    }
  }

  /** An axis-aligned box given by its two corners. */
  datatype Box = Box(min: Vec3, max: Vec3)

  /** The length of `b` along `a`. */
  function Extent(b: Box, a: Axis): real
  {
    Get(b.max, a) - Get(b.min, a)
  }

  /**
   * computeObjectBounds: the object's bounding box pushed outwards by
   * `separation` (DEFAULT_CONTROLS_SEPARATION) on every side.
   */
  function ComputeObjectBounds(objectBox: Box, separation: real): (b: Box)
    ensures forall a :: Get(b.min, a) == Get(objectBox.min, a) - separation
    ensures forall a :: Get(b.max, a) == Get(objectBox.max, a) + separation
    ensures forall a :: Extent(b, a) == Extent(objectBox, a) + 2.0 * separation
  {
    Box(AddScalar(objectBox.min, -separation), AddScalar(objectBox.max, separation))
  }

  /**
   * setupTranslation for one handle: named after its axis, moved to the widened
   * box's face on that axis (the max face for the positive handle, the min face
   * for the negative one), with up vector world Z for the Y handles and world Y
   * for the X and Z handles. `rest` is the Euler triple its rest-pose rotation
   * leaves on it, as the scene-graph library computes it.
   */
  function SetupTranslation(a: Axis, positive: bool, bounds: Box, rest: Vec3): (h: Handle)
    ensures h.kind == Translation && h.name == a && h.visible && h.rotation == rest
    ensures Get(h.position, a) == Get(if positive then bounds.max else bounds.min, a)
    ensures forall b :: b != a ==> Get(h.position, b) == 0.0
    ensures h.up == Unit(if a == Y then Z else Y)
  {
    var face := if positive then bounds.max else bounds.min;
    Handle(Translation, a, if a == Y then Unit(Z) else Unit(Y), true, OnAxis(a, Get(face, a)), rest)
  }

  /**
   * setupRotation for one ring: named after its axis, left at the controller's
   * origin, with its axis's world unit vector as up vector.
   */
  function SetupRotation(a: Axis, rest: Vec3): (h: Handle)
    ensures h.kind == Rotation && h.name == a && h.visible && h.rotation == rest
    ensures h.position == Origin
    ensures Get(h.up, a) == 1.0 && forall b :: b != a ==> Get(h.up, b) == 0.0
  {
    Handle(Rotation, a, Unit(a), true, Origin, rest)
  }

  /** The registry the constructor builds from the widened box. */
  function Setup(bounds: Box, rest: HandleId -> Vec3): (r: Registry)
    ensures r.WellFormed()
    ensures forall id :: r.At(id).visible && r.At(id).rotation == rest(id)
    ensures forall a, positive ::
              r.At(TranslationHandle(a, positive))
                == SetupTranslation(a, positive, bounds, rest(TranslationHandle(a, positive)))
    ensures forall a :: r.At(RotationHandle(a)) == SetupRotation(a, rest(RotationHandle(a)))
  {
    Registry(
      SetupTranslation(X, true, bounds, rest(TranslationHandle(X, true))),
      SetupTranslation(Y, true, bounds, rest(TranslationHandle(Y, true))),
      SetupTranslation(Z, true, bounds, rest(TranslationHandle(Z, true))),
      SetupTranslation(X, false, bounds, rest(TranslationHandle(X, false))),
      SetupTranslation(Y, false, bounds, rest(TranslationHandle(Y, false))),
      SetupTranslation(Z, false, bounds, rest(TranslationHandle(Z, false))),
      SetupRotation(X, rest(RotationHandle(X))),
      SetupRotation(Y, rest(RotationHandle(Y))),
      SetupRotation(Z, rest(RotationHandle(Z))))
  }

  /**
   * The two translation handles of an axis sit on opposite faces of the widened
   * box, so they are the object's extent plus twice the separation apart.
   */
  lemma TranslationPairSpan(objectBox: Box, separation: real, rest: HandleId -> Vec3, a: Axis)
    ensures var r := Setup(ComputeObjectBounds(objectBox, separation), rest);
      Get(r.At(TranslationHandle(a, true)).position, a) - Get(r.At(TranslationHandle(a, false)).position, a)
        == Extent(objectBox, a) + 2.0 * separation
  {
  }
}
