# Rajawali `ATransformable3D`: the transform and look-at state machine

This project models the base class every placeable Rajawali scene object
inherits from (`rajawali/src/main/java/rajawali/ATransformable3D.java`). An
object holds a position, a scale and an orientation quaternion, an optional
look-at target with two flags (`mLookAtValid`: the orientation still follows
the target; `mLookAtEnabled`: moves should re-enforce it), an up axis, a camera
flag, and a link to a scene-graph node. Every public mutator stores a value,
decides whether the look-at constraint is active
(`mLookAtEnabled && mLookAt != null && mLookAtValid`) and if so recomputes the
orientation, and then calls `mGraphNode.updateObject(this)` when a node is
attached.

Files:

- `math3d.dfy` — modules `Math3D` (vectors, matrices, quaternions; the
  quaternion library as the record `QuaternionMath` of uninterpreted
  operations) and `SceneGraph` (the node identity).
- `transform_spec.dfy` — module `TransformSpec`: the object's fields as a
  `State` value and one step function per distinct mutator behaviour, giving
  the new state, the nodes notified (in call order) and the exception thrown.
  Their contracts state which fields change, how, and how many notifications
  are made. `Op`, `Apply` and `Run` describe sequences of calls.
- `transform_runs.dfy` — module `TransformRuns`: lemmas about sequences of
  calls.
- `transformable3d.dfy` — module `Transformable`: the class
  `Transformable3D` with the Java fields, updated in place; each mutator is
  proved to produce exactly the outcome of its step function, with the
  `updateObject` calls recorded in the ghost log `notified`.

The model follows the code where the class's documentation says otherwise:

- A position setter that re-enforces the constraint notifies twice: once
  inside `resetToLookAt` (line 596) and once at its own end (line 81).
  `setLookAt` also notifies twice (lines 494 and 496).
- `resetToLookAt` never assigns `mLookAtValid` (lines 590-598). The class
  comment says it re-enables enforcement after a manual rotation; in the code
  only `setLookAt` and `clearLookAt` set the flag back to true
  (`InvalidUntilLookAtCall`, `ResetAfterRotationIsNotEnforced`).
- `setRotation(Quaternion)`, `setRotation(axis, angle)` and
  `setRotation(Matrix4)` compose with the current orientation exactly like
  `rotate` (line 269 and following); only `setOrientation`, the Euler
  `setRotation`s and `setRotX/Y/Z` replace it.
- `setUpAxis` and `resetUpAxis` pass the target itself, not
  position − target, as the facing direction (line 610 and following), so
  after an up-axis change the constraint is still valid but the orientation
  need not face the target (`UpAxisChangeLosesFacing`).

Assumptions about the quaternion and vector library, whose source is not part
of this model: `q.multiply(r)` leaves `multiply(q, r)` in `q`;
`fromAngleAxis(Axis, a)` and `fromAngleAxis(x, y, z, a)` equal
`fromAngleAxis` of the axis vector and of `Vector3(x, y, z)`;
`Vector3.setAll(Axis)` stores the axis vector; `identity()` stores (1, 0, 0, 0).
The camera flag is a constructor argument (a camera subclass sets it).
Mutators that return `this` for chaining return nothing here.

## Model

| member | source | states |
|---|---|---|
| `TransformSpec.SetPositionStep` | rajawali/src/main/java/rajawali/ATransformable3D.java:77-136 | the position becomes `p`; only position and orientation may change; if the constraint is active the orientation becomes `lookAt(p − target, upAxis, isCamera)`, the constraint stays enforced and a linked node is notified twice; otherwise the orientation is unchanged and the node is notified once |
| `TransformSpec.RotateStep` | rajawali/src/main/java/rajawali/ATransformable3D.java:188-338 | the orientation becomes `multiply(orientation, q)`, the constraint becomes invalid, nothing else changes, a linked node is notified once |
| `TransformSpec.SetOrientationStep` | rajawali/src/main/java/rajawali/ATransformable3D.java:349-466 | the orientation is replaced by `q`, the constraint becomes invalid, nothing else changes, a linked node is notified once |
| `TransformSpec.SetLookAtStep` | rajawali/src/main/java/rajawali/ATransformable3D.java:486-518 | a null target throws `IllegalArgumentException` with the state unchanged and no notification; otherwise the target is stored, the orientation becomes `lookAt(position − target, upAxis, isCamera)`, the constraint becomes valid (enforced when enabled), only target, validity and orientation change, and a linked node is notified twice |
| `TransformSpec.ClearLookAtStep` | rajawali/src/main/java/rajawali/ATransformable3D.java:528-536 | the target is removed and validity set to true; retaining the orientation changes nothing else and notifies no one; otherwise the orientation becomes identity and a linked node is notified once |
| `TransformSpec.SetLookAtEnabledStep` | rajawali/src/main/java/rajawali/ATransformable3D.java:541-550 | only the enabled flag changes, to the given value, and no one is notified |
| `TransformSpec.ResetToLookAtStep` | rajawali/src/main/java/rajawali/ATransformable3D.java:577-598 | the orientation becomes identity without a target and `lookAt(position − target, up, isCamera)` with one; validity, enabled flag, target and position stay as they were; a linked node is notified once |
| `TransformSpec.SetUpAxisStep` | rajawali/src/main/java/rajawali/ATransformable3D.java:607-663 | the up axis is always stored; only when the constraint is active does the orientation become `lookAt(target, up, isCamera)` with one notification; otherwise the orientation is unchanged and no one is notified |
| `TransformSpec.SetScaleStep` | rajawali/src/main/java/rajawali/ATransformable3D.java:678-753 | only the scale changes, to the given vector; a linked node is notified once |
| `TransformSpec.SetGraphNodeStep` | rajawali/src/main/java/rajawali/ATransformable3D.java:805-808 | only the node and the inside-graph flag change, to the given values; no one is notified |
| `TransformRuns.RunAppendThrown` | rajawali/src/main/java/rajawali/ATransformable3D.java:486-491 | once a call throws (only `setLookAt(null)` does), the calls after it have no effect: the sequence's outcome is the outcome up to the throw |
| `TransformRuns.MovesKeepTracking` | rajawali/src/main/java/rajawali/ATransformable3D.java:77-136 | from an enforced constraint, after any sequence of position changes the constraint is still enforced from the latest position, only position and orientation have changed, and a linked node has been notified twice per move |
| `TransformRuns.MovesIgnoreInactiveLookAt` | rajawali/src/main/java/rajawali/ATransformable3D.java:77-136 | while the constraint is inactive, any sequence of position changes leaves the orientation and everything but the position unchanged, and a linked node is notified once per move |
| `TransformRuns.InvalidUntilLookAtCall` | rajawali/src/main/java/rajawali/ATransformable3D.java:486-598 | once invalid, the constraint stays invalid through any sequence of calls without `setLookAt` or `clearLookAt` |
| `TransformRuns.RotationInvalidates` | rajawali/src/main/java/rajawali/ATransformable3D.java:188-466 | after any history, a rotation or orientation change leaves the constraint invalid |
| `TransformRuns.ResetAfterRotationIsNotEnforced` | rajawali/src/main/java/rajawali/ATransformable3D.java:577-598 | rotate, then `resetToLookAt()`, then move: the constraint is invalid and the orientation still faces the target from the old position |
| `TransformRuns.UpAxisChangeLosesFacing` | rajawali/src/main/java/rajawali/ATransformable3D.java:607-614 | an up-axis change keeps the constraint active but, where `lookAt(target, …)` differs from `lookAt(position − target, …)`, the orientation no longer faces the target |
| `TransformRuns.ResetToLookAtTwice` | rajawali/src/main/java/rajawali/ATransformable3D.java:577-598 | two `resetToLookAt()` calls in a row leave the state one call leaves, with one notification each |
| `TransformRuns.NotificationsGoToLinkedNode` | rajawali/src/main/java/rajawali/ATransformable3D.java:805-808 | while the link is not replaced, every notification goes to the linked node, and with no node there are none |
| `TransformRuns.NotificationTable` | rajawali/src/main/java/rajawali/ATransformable3D.java:77-753 | the number of `updateObject` calls of every mutator equals the table `Calls` (two for a re-enforcing move and for `setLookAt`, none for enable/disable, `clearLookAt(true)`, an inactive up-axis change and `setGraphNode`, one otherwise), and zero without a node |
| `TransformRuns.LookAtFromAbove` | rajawali/src/main/java/rajawali/ATransformable3D.java:486-498 | a new object moved to (0, 0, 5) and told to look at the origin faces along (0, 0, 5) with up axis +Y, keeps its position and is valid |
| `Transformable.Transformable3D.constructor` | rajawali/src/main/java/rajawali/ATransformable3D.java:44-62 | position zero, scale (1, 1, 1), identity orientation, no target, invalid but enabled constraint, up axis +Y, no node and outside the graph |
| `Transformable.Transformable3D.NotifyGraph` | rajawali/src/main/java/rajawali/ATransformable3D.java:81 | the log grows by the linked node, or not at all without one |
| `Transformable.Transformable3D.SetPosition` | rajawali/src/main/java/rajawali/ATransformable3D.java:77-82 | state and notifications are those of `SetPositionStep` |
| `Transformable.Transformable3D.SetPositionComponents` | rajawali/src/main/java/rajawali/ATransformable3D.java:92-97 | `SetPositionStep` with `(x, y, z)` |
| `Transformable.Transformable3D.SetX` | rajawali/src/main/java/rajawali/ATransformable3D.java:105-110 | `SetPositionStep` with only x replaced |
| `Transformable.Transformable3D.SetY` | rajawali/src/main/java/rajawali/ATransformable3D.java:118-123 | `SetPositionStep` with only y replaced |
| `Transformable.Transformable3D.SetZ` | rajawali/src/main/java/rajawali/ATransformable3D.java:131-136 | `SetPositionStep` with only z replaced |
| `Transformable.Transformable3D.GetPosition` | rajawali/src/main/java/rajawali/ATransformable3D.java:143-145 | returns the position |
| `Transformable.Transformable3D.GetX` | rajawali/src/main/java/rajawali/ATransformable3D.java:152-154 | returns the x coordinate |
| `Transformable.Transformable3D.GetY` | rajawali/src/main/java/rajawali/ATransformable3D.java:161-163 | returns the y coordinate |
| `Transformable.Transformable3D.GetZ` | rajawali/src/main/java/rajawali/ATransformable3D.java:170-172 | returns the z coordinate |
| `Transformable.Transformable3D.Rotate` | rajawali/src/main/java/rajawali/ATransformable3D.java:188-193 | `RotateStep` with `q` |
| `Transformable.Transformable3D.RotateAboutAxis` | rajawali/src/main/java/rajawali/ATransformable3D.java:204-209 | `RotateStep` with `fromAngleAxis(axis, angle)` |
| `Transformable.Transformable3D.RotateAboutCardinal` | rajawali/src/main/java/rajawali/ATransformable3D.java:220-225 | `RotateStep` with `fromAngleAxis` of the axis vector |
| `Transformable.Transformable3D.RotateAboutComponents` | rajawali/src/main/java/rajawali/ATransformable3D.java:238-243 | `RotateStep` with `fromAngleAxis((x, y, z), angle)` |
| `Transformable.Transformable3D.RotateByMatrix` | rajawali/src/main/java/rajawali/ATransformable3D.java:253-258 | `RotateStep` with `fromMatrix(matrix)` |
| `Transformable.Transformable3D.SetRotation` | rajawali/src/main/java/rajawali/ATransformable3D.java:268-273 | composes: `RotateStep` with `q` |
| `Transformable.Transformable3D.SetRotationAboutAxis` | rajawali/src/main/java/rajawali/ATransformable3D.java:284-289 | composes: `RotateStep` with `fromAngleAxis(axis, angle)` |
| `Transformable.Transformable3D.SetRotationAboutCardinal` | rajawali/src/main/java/rajawali/ATransformable3D.java:300-305 | composes: `RotateStep` with `fromAngleAxis` of the axis vector |
| `Transformable.Transformable3D.SetRotationAboutComponents` | rajawali/src/main/java/rajawali/ATransformable3D.java:318-323 | composes: `RotateStep` with `fromAngleAxis((x, y, z), angle)` |
| `Transformable.Transformable3D.SetRotationByMatrix` | rajawali/src/main/java/rajawali/ATransformable3D.java:333-338 | composes: `RotateStep` with `fromMatrix(matrix)` |
| `Transformable.Transformable3D.SetRotationEuler` | rajawali/src/main/java/rajawali/ATransformable3D.java:349-354 | `SetOrientationStep` with `fromEuler(yaw = y, pitch = z, roll = x)` |
| `Transformable.Transformable3D.SetRotationEulerComponents` | rajawali/src/main/java/rajawali/ATransformable3D.java:366-371 | `SetOrientationStep` with `fromEuler(rotY, rotZ, rotX)` |
| `Transformable.Transformable3D.SetRotX` | rajawali/src/main/java/rajawali/ATransformable3D.java:381-387 | `SetOrientationStep` with yaw and pitch re-extracted from the old orientation and the new roll |
| `Transformable.Transformable3D.SetRotY` | rajawali/src/main/java/rajawali/ATransformable3D.java:397-403 | `SetOrientationStep` with the new yaw and pitch and roll re-extracted |
| `Transformable.Transformable3D.SetRotZ` | rajawali/src/main/java/rajawali/ATransformable3D.java:413-419 | `SetOrientationStep` with yaw and roll re-extracted and the new pitch |
| `Transformable.Transformable3D.GetRotX` | rajawali/src/main/java/rajawali/ATransformable3D.java:426-428 | returns the roll extracted from the orientation |
| `Transformable.Transformable3D.GetRotY` | rajawali/src/main/java/rajawali/ATransformable3D.java:435-437 | returns the yaw extracted from the orientation |
| `Transformable.Transformable3D.GetRotZ` | rajawali/src/main/java/rajawali/ATransformable3D.java:444-446 | returns the pitch extracted from the orientation |
| `Transformable.Transformable3D.SetOrientation` | rajawali/src/main/java/rajawali/ATransformable3D.java:461-466 | replaces: `SetOrientationStep` with `q` |
| `Transformable.Transformable3D.GetOrientation` | rajawali/src/main/java/rajawali/ATransformable3D.java:474-477 | returns a copy of the orientation |
| `Transformable.Transformable3D.SetLookAt` | rajawali/src/main/java/rajawali/ATransformable3D.java:486-498 | state, notifications and exception are those of `SetLookAtStep` |
| `Transformable.Transformable3D.SetLookAtComponents` | rajawali/src/main/java/rajawali/ATransformable3D.java:509-518 | `SetLookAtStep` with the target `(x, y, z)` |
| `Transformable.Transformable3D.ClearLookAt` | rajawali/src/main/java/rajawali/ATransformable3D.java:528-536 | `ClearLookAtStep` |
| `Transformable.Transformable3D.EnableLookAt` | rajawali/src/main/java/rajawali/ATransformable3D.java:541-543 | `SetLookAtEnabledStep` with true |
| `Transformable.Transformable3D.DisableLookAt` | rajawali/src/main/java/rajawali/ATransformable3D.java:548-550 | `SetLookAtEnabledStep` with false |
| `Transformable.Transformable3D.IsLookAtEnabled` | rajawali/src/main/java/rajawali/ATransformable3D.java:557-559 | returns the enabled flag |
| `Transformable.Transformable3D.IsLookAtValid` | rajawali/src/main/java/rajawali/ATransformable3D.java:566-568 | returns the validity flag |
| `Transformable.Transformable3D.ResetToLookAt` | rajawali/src/main/java/rajawali/ATransformable3D.java:577-580 | `ResetToLookAtStep` with the current up axis |
| `Transformable.Transformable3D.ResetToLookAtUp` | rajawali/src/main/java/rajawali/ATransformable3D.java:590-598 | `ResetToLookAtStep` with the given up axis |
| `Transformable.Transformable3D.SetUpAxis` | rajawali/src/main/java/rajawali/ATransformable3D.java:607-614 | `SetUpAxisStep` with the given vector |
| `Transformable.Transformable3D.SetUpAxisCardinal` | rajawali/src/main/java/rajawali/ATransformable3D.java:623-630 | `SetUpAxisStep` with the axis vector |
| `Transformable.Transformable3D.SetUpAxisComponents` | rajawali/src/main/java/rajawali/ATransformable3D.java:641-648 | `SetUpAxisStep` with `(x, y, z)` |
| `Transformable.Transformable3D.ResetUpAxis` | rajawali/src/main/java/rajawali/ATransformable3D.java:656-663 | `SetUpAxisStep` with +Y |
| `Transformable.Transformable3D.SetScale` | rajawali/src/main/java/rajawali/ATransformable3D.java:678-682 | `SetScaleStep` with the given vector |
| `Transformable.Transformable3D.SetScaleComponents` | rajawali/src/main/java/rajawali/ATransformable3D.java:693-699 | `SetScaleStep` with `(scaleX, scaleY, scaleZ)` |
| `Transformable.Transformable3D.SetUniformScale` | rajawali/src/main/java/rajawali/ATransformable3D.java:708-714 | `SetScaleStep` with the factor on all three axes |
| `Transformable.Transformable3D.SetScaleX` | rajawali/src/main/java/rajawali/ATransformable3D.java:723-727 | `SetScaleStep` with only x replaced |
| `Transformable.Transformable3D.SetScaleY` | rajawali/src/main/java/rajawali/ATransformable3D.java:736-740 | `SetScaleStep` with only y replaced |
| `Transformable.Transformable3D.SetScaleZ` | rajawali/src/main/java/rajawali/ATransformable3D.java:749-753 | `SetScaleStep` with only z replaced |
| `Transformable.Transformable3D.GetScale` | rajawali/src/main/java/rajawali/ATransformable3D.java:760-762 | returns the scale |
| `Transformable.Transformable3D.GetLookAt` | rajawali/src/main/java/rajawali/ATransformable3D.java:764-766 | returns the target, None for null |
| `Transformable.Transformable3D.GetScaleX` | rajawali/src/main/java/rajawali/ATransformable3D.java:773-775 | returns the x scale factor |
| `Transformable.Transformable3D.GetScaleY` | rajawali/src/main/java/rajawali/ATransformable3D.java:782-784 | returns the y scale factor |
| `Transformable.Transformable3D.GetScaleZ` | rajawali/src/main/java/rajawali/ATransformable3D.java:791-793 | returns the z scale factor |
| `Transformable.Transformable3D.SetGraphNode` | rajawali/src/main/java/rajawali/ATransformable3D.java:805-808 | `SetGraphNodeStep` |
| `Transformable.Transformable3D.GetGraphNode` | rajawali/src/main/java/rajawali/ATransformable3D.java:814-816 | returns the linked node |
| `Transformable.Transformable3D.IsInGraph` | rajawali/src/main/java/rajawali/ATransformable3D.java:822-824 | returns the inside-graph flag |
| `Transformable.Transformable3D.GetScenePosition` | rajawali/src/main/java/rajawali/ATransformable3D.java:838-840 | returns the position |

## Left out

- Quaternion, vector and matrix arithmetic (`rajawali.math`, in doubles): `multiply`, `fromAngleAxis`, `fromMatrix`, `fromEuler`, `lookAt` and the Euler extraction are uninterpreted functions the object receives; coordinates are reals, so rounding is not modelled and nothing is said about what these functions compute (no Euler round trip, no gimbal lock, no facing direction such as −Z).
- `updateObject` is recorded in a ghost log and has no effect on the object; the internals of `IGraphNode` are not part of this model.
- `AFrameTask` inheritance and frame-task scheduling.
- `getTransformedBoundingVolume`, which only returns null.
- The live references returned by `getPosition`, `getScale`, `getLookAt` and `getScenePosition`: the model returns values, so changes a caller makes through them, and aliasing between an argument and a field (for example `setPosition(getLookAt())`), are not captured.
- The scratch fields `mTmpOrientation` and `mTempVec`: they only avoid allocation.
- Returning `this` for chaining.
