# Controls: a verified model of the three-freeform-controls transform gizmo

`Controls` (in `src/controls/index.ts`) is a THREE.Group that carries nine
draggable handles around a mesh. There are six translation handles, one on
each face (±X, ±Y, ±Z) of the mesh's bounding box widened by a separation
margin. There are also three rotation rings, one per axis. The picking layer
reports the start of a drag (`processDragStart`) and each move of the drag
(`processHandle`). Once per frame, `updateMatrixWorld` reconciles the
controller with the mesh. During a drag the mesh is re-attached at the
controller's position. When idle, the controller follows the mesh.

This project models the stateful core of that class in Dafny:

- `Vectors`: three-component real vectors (`Vec3`) and the axis type. They
  stand for `THREE.Vector3` and for the x/y/z triple of a `THREE.Euler`.
- `Handles`: a handle as a value (`kind`, `name`, `up`, `visible`,
  `position`, `rotation`). Its `kind` replaces the `instanceof
  Translation / Rotation` test. `Registry` holds the nine handle fields.
  This module also holds the bounds widening (`computeObjectBounds`) and
  the one-time setup (`setupTranslation`, `setupRotation`).
- `DragSession`: the drag-session state machine and the frame update as pure
  transitions over the controller's state (`Session`), with lemmas about
  sequences of them.
  - Translation steps telescope.
  - Ring deltas accumulate on one Euler channel.
  - The visibility toggles are independent.
  - A translation drag followed by a frame update places the mesh where the
    drag took the controller.
- `Gizmo`: the class `Controls`, whose fields are the source's fields:
  - `position`, `minBox`, `maxBox`;
  - `dragStartPoint`, `dragIncrementalStartPoint`;
  - `isBeingDraggedTranslation`, `isBeingDraggedRotation`;
  - `objectTargetPosition`;
  - the nine handles.

  Each method updates these fields in place. Its `ensures` states that the
  new state is the `DragSession` transition of the old state.

Coordinates are Dafny `real`s. The source computes in IEEE doubles, so the
telescoping and accumulation lemmas hold exactly only in this real-number
abstraction. In the source, per-step floating-point rounding accumulates over
a drag.

Scene-graph results are inputs to the model:
- the mesh's world position after its own update;
- whether the mesh's parent exists;
- whether the controller's parent and grandparent exist;
- the Euler angles the library derives for a rotation step, given as the
  function `arc`;
- the Euler triple each handle's rest-pose rotation leaves on it, given as the
  constructor's `rest`.

The separation margin (`DEFAULT_CONTROLS_SEPARATION`) is a constructor
parameter, because `src/utils/constants` is not part of this model.

The re-attach guard at line 185 checks the object's parent, the controller's
parent and the controller's grandparent. The class has no end-of-drag
operation: callers reset the public flags themselves, as `Gizmo.DragScenario`
does.

## Model

| member | source | states |
|---|---|---|
| `Handles.ComputeObjectBounds` | src/controls/index.ts:119-128 | The widened box is the object's box lowered by the separation at `min` and raised by it at `max` on every axis, so every extent grows by twice the separation. |
| `Handles.SetupTranslation` | src/controls/index.ts:61-100 | A translation handle is visible and named after its axis. It sits on the widened box's max face (positive handle) or min face (negative handle) along its axis, at 0 on the other two axes. Its up vector is world Z for the Y handles and world Y for the X and Z handles. |
| `Handles.SetupRotation` | src/controls/index.ts:102-117 | A ring is visible, named after its axis and left at the controller's origin. Its up vector is its axis's unit vector. |
| `Handles.Setup` | src/controls/index.ts:40-59 | The constructed registry is well formed: every handle has the kind and name of its slot. All nine handles are visible. Each handle is the one the setup functions give for its slot. |
| `Handles.TranslationPairSpan` | src/controls/index.ts:70-76 | The positive and negative translation handles of an axis are the object's extent plus twice the separation apart. |
| `DragSession.Start` | src/controls/index.ts:130-136 | Both anchors become `point`. The translation flag is set exactly when the handle is a translation handle, and the rotation flag exactly when it is a ring. Exactly one flag is set. The position and handles are unchanged. |
| `DragSession.StartRestarts` | src/controls/index.ts:130-136 | A second drag start during a drag gives the same state as if only the second had happened. |
| `DragSession.Slide` | src/controls/index.ts:140-147 | A translation step adds `point[a] - anchor[a]` to the position's coordinate on the handle's axis `a`. The other two coordinates are unchanged. |
| `DragSession.Turn` | src/controls/index.ts:165-174 | A ring step changes one Euler channel. The X ring adds e.x to `rotation.x`. The Y ring adds -e.y to `rotation.z`. The Z ring adds e.z to `rotation.z`. The other channels are unchanged. |
| `DragSession.Step` | src/controls/index.ts:138-179 | A drag step always moves the incremental anchor to `point`. It never changes either flag, the drag start point or the target position. A translation step changes only the position, along its axis, and no handle. A rotation step leaves the position alone and changes only the dragged handle's rotation. |
| `DragSession.Run` | src/controls/index.ts:178 | Over any sequence of drag steps, the flags, the drag start point, and every handle's kind and name stay unchanged. The incremental anchor ends at the last step's point. |
| `DragSession.TranslationRunTelescopes` | src/controls/index.ts:140-178 | After N translation steps on one handle, the position on that handle's axis has moved by (last point - initial incremental anchor). The other axes and all handles are unchanged. |
| `DragSession.TranslationDrag` | src/controls/index.ts:130-178 | A drag start at `start` followed by N translation steps on that handle moves the position by exactly (last point - start) on the handle's axis and not at all on the others. Only the translation flag is set. |
| `DragSession.RingRunAccumulates` | src/controls/index.ts:165-178 | After N rotation steps on one ring, the position and every other handle are unchanged. The ring's channel grows by the sum of the per-step channel deltas. Its other channels are unchanged. |
| `DragSession.ShowTranslation` | src/controls/index.ts:193-206 | A translation toggle gives exactly the two translation handles of its axis the new visibility. No other handle's visibility and no other handle field changes. |
| `DragSession.ShowRotation` | src/controls/index.ts:208-218 | A ring toggle gives exactly its ring the new visibility. No other handle's visibility and no other handle field changes. |
| `DragSession.ToggleKindsCommute` | src/controls/index.ts:193-218 | A translation toggle and a ring toggle give the same registry in either order. |
| `DragSession.TranslationTogglesCommute` | src/controls/index.ts:193-206 | Translation toggles of two different axes give the same registry in either order. |
| `DragSession.DetachObjectUpdatePositionAttach` | src/controls/index.ts:181-191 | The object is moved to the target position exactly when the object has a parent and the controller has a parent and a grandparent. Otherwise nothing happens. |
| `DragSession.FrameSync` | src/controls/index.ts:220-248 | The target position becomes the controller's position from before the branch. When idle, the controller's position becomes the object's world position and nothing is written to the object. During a drag, the controller stays put and the object is re-attached at the target position if the guard holds. The quaternion is written exactly during a rotation-only drag. Nothing else changes. |
| `DragSession.TranslationDragMovesObject` | src/controls/index.ts:130-243 | In a full hierarchy, a translation drag followed by a frame update places the object at the controller's initial position moved by (last point - start) along the handle's axis only. The object's quaternion is not written. |
| `Gizmo.Controls.constructor` | src/controls/index.ts:40-59 | The widened bounds come from `computeObjectBounds`. The handles are the setup registry. The position, both anchors and the target position are at the origin, and neither flag is set. |
| `Gizmo.Controls.ProcessDragStart` | src/controls/index.ts:130-136 | The new state is `Start` of the old state. The translation flag is set exactly when a translation handle was grabbed, and the rotation flag exactly when a ring was. The bounds are unchanged. |
| `Gizmo.Controls.ProcessHandle` | src/controls/index.ts:138-179 | The new state is `Step` of the old state. The Euler delta is `arc` applied to the offsets of the incremental anchor and of `point` from the position. The bounds are unchanged. |
| `Gizmo.Controls.ShowXT` | src/controls/index.ts:193-196 | The handles become `ShowTranslation(X, visibility)` of the old ones (visibility defaults to true). Every other field is unchanged. |
| `Gizmo.Controls.ShowYT` | src/controls/index.ts:198-201 | The handles become `ShowTranslation(Y, visibility)` of the old ones. Every other field is unchanged. |
| `Gizmo.Controls.ShowZT` | src/controls/index.ts:203-206 | The handles become `ShowTranslation(Z, visibility)` of the old ones. Every other field is unchanged. |
| `Gizmo.Controls.ShowXR` | src/controls/index.ts:208-210 | The handles become `ShowRotation(X, visibility)` of the old ones. Every other field is unchanged. |
| `Gizmo.Controls.ShowYR` | src/controls/index.ts:212-214 | The handles become `ShowRotation(Y, visibility)` of the old ones. Every other field is unchanged. |
| `Gizmo.Controls.ShowZR` | src/controls/index.ts:216-218 | The handles become `ShowRotation(Z, visibility)` of the old ones. Every other field is unchanged. |
| `Gizmo.Controls.UpdateMatrixWorld` | src/controls/index.ts:220-248 | The new state and the write to the object are exactly `FrameSync` of the old state, the object's world position and the hierarchy links. The bounds are unchanged. |

## Left out

- Quaternion and Euler arithmetic is not modelled. This covers `setFromUnitVectors`, `setFromQuaternion`, `setFromAxisAngle`, `premultiply`, `inverse` and `normalize`. It is floating-point code inside three.js. The rotation step's Euler delta is the input function `arc`.
- `objectTargetQuaternion`, `deltaQuaternion`, `handleTargetQuaternion`, `handleTargetEuler` and the handles' `up` vectors' use in `setFromAxisAngle` are not modelled. This includes the stale `deltaQuaternion` that line 177 premultiplies even on translation steps. The up vectors themselves are modelled.
- Gizmo.Controls.ProcessHandle: does not model the premultiplication of `objectTargetQuaternion` at line 177, which is quaternion state.
- Gizmo.Controls.UpdateMatrixWorld: does not model the quaternion written to the object, only that it is written. It also does not model the re-reading of the object's world quaternion at line 245.
- The `touch1` value computed from `dragStartPoint` at lines 149-152 is not modelled. It is overwritten at line 158 before it is used.
- Scene-graph calls are not modelled: `attach`, `add`, `matrixWorld.decompose`, `getWorldPosition`, `getWorldQuaternion`, the object's and the group's own `updateMatrixWorld`, and the `force` flag passed to them. They are library code. Their results are inputs: the object's world position, and which parents exist (`SceneLinks`). Where the object is re-attached is reported as a position in the frame of the controller's grandparent (`ObjectUpdate.scenePosition`).
- Handle geometry, colours and the rest-pose rotations (`rotateX`/`rotateY`/`rotateZ` by multiples of π) are not modelled. They belong to the Translation and Rotation classes and to three.js, which are not part of this model. The resulting Euler triples are the constructor's `rest` input.
- `DEFAULT_CONTROLS_SEPARATION` is a constructor parameter, because `src/utils/constants` is not part of this model.
- The mesh's bounding box is an input (`objectBox`). It is not computed from geometry.
- Handles reach `processDragStart` and `processHandle` as identifiers of this controller's nine handles. The source accepts any Translation or Rotation object. A handle renamed to something other than the three `HANDLE_NAMES` values cannot be expressed: in the source, `processHandle` would change nothing for it except the anchor.
- Floating-point rounding is not modelled. Coordinates are reals.
- There is no end-of-drag operation, because the class has none. The flags are public fields that callers reset.
