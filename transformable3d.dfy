/**
 * `ATransformable3D`: position, scale and orientation of a scene object, its
 * optional look-at target, and its link to the scene graph, updated in place.
 *
 * Every mutator is proved to leave the object in the state, and to make the
 * `updateObject` calls, that the matching step function of `TransformSpec`
 * gives. The calls are recorded in the ghost log `notified`.
 */
module Transformable {
  import opened Math3D
  import opened SceneGraph
  import opened TransformSpec

  class Transformable3D {
    /** The quaternion library the object computes its orientations with. */
    const math: QuaternionMath

    var position: Vector3
    var scale: Vector3
    var orientation: Quaternion
    var lookAt: Option<Vector3>
    var lookAtValid: bool
    var lookAtEnabled: bool
    var upAxis: Vector3
    var isCamera: bool
    var graphNode: GraphNode?
    var insideGraph: bool

    /** Every `updateObject(this)` call made so far, by the node it went to. */
    ghost var notified: seq<GraphNode>

    function Snapshot(): State
      reads this
    {
      State(position, scale, orientation, lookAt, lookAtValid, lookAtEnabled,
            upAxis, isCamera, graphNode, insideGraph)
    }

    /** The call left the object in `o.state` and added `o.notified` to the log. */
    twostate predicate Performed(o: Outcome)
      reads this
    {
      Snapshot() == o.state && notified == old(notified) + o.notified
    }

    /** `isCamera` is the value a camera subclass assigns; every other field gets its default. */
    constructor (math: QuaternionMath, isCamera: bool)
      ensures this.math == math
      ensures Snapshot() == Initial(isCamera)
      ensures notified == []
    {
      this.math := math;
      position := Zero;
      scale := Vector3(1.0, 1.0, 1.0);
      orientation := Identity;
      lookAt := None;
      lookAtValid := false;
      lookAtEnabled := true;
      upAxis := AxisVector(Y);
      this.isCamera := isCamera;
      graphNode := null;
      insideGraph := false;
      notified := [];
    }

    /** `if (mGraphNode != null) mGraphNode.updateObject(this)` */
    method NotifyGraph()
      modifies this`notified
      ensures notified == old(notified) + Notification(Snapshot())
    {
      if graphNode != null {
        notified := notified + [graphNode];
      }
    }

    //--------------------------------------------------
    // Translation
    //--------------------------------------------------

    method SetPosition(p: Vector3)
      modifies this
      ensures Performed(SetPositionStep(math, old(Snapshot()), p))
    {
      position := p;
      if lookAtEnabled && lookAt.Some? && lookAtValid {
        ResetToLookAt();
      }
      NotifyGraph();
    }

    method SetPositionComponents(x: real, y: real, z: real)
      modifies this
      ensures Performed(SetPositionStep(math, old(Snapshot()), Vector3(x, y, z)))
    {
      position := Vector3(x, y, z);
      if lookAtEnabled && lookAt.Some? && lookAtValid {
        ResetToLookAt();
      }
      NotifyGraph();
    }

    method SetX(x: real)
      modifies this
      ensures Performed(SetPositionStep(math, old(Snapshot()), old(position).(x := x)))
    {
      position := position.(x := x);
      if lookAtEnabled && lookAt.Some? && lookAtValid {
        ResetToLookAt();
      }
      NotifyGraph();
    }

    method SetY(y: real)
      modifies this
      ensures Performed(SetPositionStep(math, old(Snapshot()), old(position).(y := y)))
    {
      position := position.(y := y);
      if lookAtEnabled && lookAt.Some? && lookAtValid {
        ResetToLookAt();
      }
      NotifyGraph();
    }

    method SetZ(z: real)
      modifies this
      ensures Performed(SetPositionStep(math, old(Snapshot()), old(position).(z := z)))
    {
      position := position.(z := z);
      if lookAtEnabled && lookAt.Some? && lookAtValid {
        ResetToLookAt();
      }
      NotifyGraph();
    }

    method GetPosition() returns (p: Vector3)
      ensures p == position
    {
      p := position;
    }

    method GetX() returns (x: real)
      ensures x == position.x
    {
      x := position.x;
    }

    method GetY() returns (y: real)
      ensures y == position.y
    {
      y := position.y;
    }

    method GetZ() returns (z: real)
      ensures z == position.z
    {
      z := position.z;
    }

    //--------------------------------------------------
    // Rotation
    //--------------------------------------------------

    method Rotate(q: Quaternion)
      modifies this
      ensures Performed(RotateStep(math, old(Snapshot()), q))
    {
      orientation := math.multiply(orientation, q);
      lookAtValid := false;
      NotifyGraph();
    }

    method RotateAboutAxis(axis: Vector3, angle: real)
      modifies this
      ensures Performed(RotateStep(math, old(Snapshot()), math.fromAngleAxis(axis, angle)))
    {
      orientation := math.multiply(orientation, math.fromAngleAxis(axis, angle));
      lookAtValid := false;
      NotifyGraph();
    }

    method RotateAboutCardinal(axis: Axis, angle: real)
      modifies this
      ensures Performed(RotateStep(math, old(Snapshot()), math.fromAngleAxis(AxisVector(axis), angle)))
    {
      orientation := math.multiply(orientation, math.fromAngleAxis(AxisVector(axis), angle));
      lookAtValid := false;
      NotifyGraph();
    }

    method RotateAboutComponents(x: real, y: real, z: real, angle: real)
      modifies this
      ensures Performed(RotateStep(math, old(Snapshot()), math.fromAngleAxis(Vector3(x, y, z), angle)))
    {
      orientation := math.multiply(orientation, math.fromAngleAxis(Vector3(x, y, z), angle));
      lookAtValid := false;
      NotifyGraph();
    }

    method RotateByMatrix(matrix: Matrix4)
      modifies this
      ensures Performed(RotateStep(math, old(Snapshot()), math.fromMatrix(matrix)))
    {
      orientation := math.multiply(orientation, math.fromMatrix(matrix));
      lookAtValid := false;
      NotifyGraph();
    }

    /** Composes, exactly as `Rotate` does, although the name says "set". */
    method SetRotation(q: Quaternion)
      modifies this
      ensures Performed(RotateStep(math, old(Snapshot()), q))
    {
      Rotate(q);
    }

    method SetRotationAboutAxis(axis: Vector3, angle: real)
      modifies this
      ensures Performed(RotateStep(math, old(Snapshot()), math.fromAngleAxis(axis, angle)))
    {
      RotateAboutAxis(axis, angle);
    }

    method SetRotationAboutCardinal(axis: Axis, angle: real)
      modifies this
      ensures Performed(RotateStep(math, old(Snapshot()), math.fromAngleAxis(AxisVector(axis), angle)))
    {
      RotateAboutCardinal(axis, angle);
    }

    method SetRotationAboutComponents(x: real, y: real, z: real, angle: real)
      modifies this
      ensures Performed(RotateStep(math, old(Snapshot()), math.fromAngleAxis(Vector3(x, y, z), angle)))
    {
      RotateAboutComponents(x, y, z, angle);
    }

    method SetRotationByMatrix(matrix: Matrix4)
      modifies this
      ensures Performed(RotateStep(math, old(Snapshot()), math.fromMatrix(matrix)))
    {
      RotateByMatrix(matrix);
    }

    /** Euler angles in `rotation`: x is roll, y is yaw, z is pitch. */
    method SetRotationEuler(rotation: Vector3)
      modifies this
      ensures Performed(SetOrientationStep(old(Snapshot()), math.fromEuler(rotation.y, rotation.z, rotation.x)))
    {
      orientation := math.fromEuler(rotation.y, rotation.z, rotation.x);
      lookAtValid := false;
      NotifyGraph();
    }

    method SetRotationEulerComponents(rotX: real, rotY: real, rotZ: real)
      modifies this
      ensures Performed(SetOrientationStep(old(Snapshot()), math.fromEuler(rotY, rotZ, rotX)))
    {
      orientation := math.fromEuler(rotY, rotZ, rotX);
      lookAtValid := false;
      NotifyGraph();
    }

    method SetRotX(rotX: real)
      modifies this
      ensures Performed(SetOrientationStep(old(Snapshot()), WithRoll(math, old(orientation), rotX)))
    {
      var current := orientation;
      orientation := math.fromEuler(math.getYaw(current), math.getPitch(current), rotX);
      lookAtValid := false;
      NotifyGraph();
    }

    method SetRotY(rotY: real)
      modifies this
      ensures Performed(SetOrientationStep(old(Snapshot()), WithYaw(math, old(orientation), rotY)))
    {
      var current := orientation;
      orientation := math.fromEuler(rotY, math.getPitch(current), math.getRoll(current));
      lookAtValid := false;
      NotifyGraph();
    }

    method SetRotZ(rotZ: real)
      modifies this
      ensures Performed(SetOrientationStep(old(Snapshot()), WithPitch(math, old(orientation), rotZ)))
    {
      var current := orientation;
      orientation := math.fromEuler(math.getYaw(current), rotZ, math.getRoll(current));
      lookAtValid := false;
      NotifyGraph();
    }

    method GetRotX() returns (roll: real)
      ensures roll == math.getRoll(orientation)
    {
      roll := math.getRoll(orientation);
    }

    method GetRotY() returns (yaw: real)
      ensures yaw == math.getYaw(orientation)
    {
      yaw := math.getYaw(orientation);
    }

    method GetRotZ() returns (pitch: real)
      ensures pitch == math.getPitch(orientation)
    {
      pitch := math.getPitch(orientation);
    }

    //--------------------------------------------------
    // Orientation and look-at
    //--------------------------------------------------

    method SetOrientation(q: Quaternion)
      modifies this
      ensures Performed(SetOrientationStep(old(Snapshot()), q))
    {
      orientation := q;
      lookAtValid := false;
      NotifyGraph();
    }

    /** A copy of the orientation. */
    method GetOrientation() returns (q: Quaternion)
      ensures q == orientation
    {
      q := orientation;
    }

    /** `target == None` is a null argument: it throws before anything changes. */
    method SetLookAt(target: Option<Vector3>) returns (thrown: Option<Exception>)
      modifies this
      ensures thrown == SetLookAtStep(math, old(Snapshot()), target).thrown
      ensures Performed(SetLookAtStep(math, old(Snapshot()), target))
    {
      if target.None? {
        thrown := Some(IllegalArgumentException);
        return;
      }
      lookAt := target;
      ResetToLookAt();
      lookAtValid := true;
      NotifyGraph();
      thrown := None;
    }

    method SetLookAtComponents(x: real, y: real, z: real)
      modifies this
      ensures Performed(SetLookAtStep(math, old(Snapshot()), Some(Vector3(x, y, z))))
    {
      lookAt := Some(Vector3(x, y, z));
      ResetToLookAt();
      lookAtValid := true;
      NotifyGraph();
    }

    method ClearLookAt(retainOrientation: bool)
      modifies this
      ensures Performed(ClearLookAtStep(old(Snapshot()), retainOrientation))
    {
      lookAt := None;
      lookAtValid := true;
      if !retainOrientation {
        orientation := Identity;
        NotifyGraph();
      }
    }

    method EnableLookAt()
      modifies this
      ensures Performed(SetLookAtEnabledStep(old(Snapshot()), true))
    {
      lookAtEnabled := true;
    }

    method DisableLookAt()
      modifies this
      ensures Performed(SetLookAtEnabledStep(old(Snapshot()), false))
    {
      lookAtEnabled := false;
    }

    method IsLookAtEnabled() returns (enabled: bool)
      ensures enabled == lookAtEnabled
    {
      enabled := lookAtEnabled;
    }

    method IsLookAtValid() returns (valid: bool)
      ensures valid == lookAtValid
    {
      valid := lookAtValid;
    }

    method ResetToLookAt()
      modifies this
      ensures Performed(ResetToLookAtStep(math, old(Snapshot()), old(upAxis)))
    {
      ResetToLookAtUp(upAxis);
    }

    method ResetToLookAtUp(up: Vector3)
      modifies this
      ensures Performed(ResetToLookAtStep(math, old(Snapshot()), up))
    {
      if lookAt.None? {
        orientation := Identity;
      } else {
        orientation := math.lookAt(Subtract(position, lookAt.value), up, isCamera);
      }
      NotifyGraph();
    }

    method SetUpAxis(up: Vector3)
      modifies this
      ensures Performed(SetUpAxisStep(math, old(Snapshot()), up))
    {
      upAxis := up;
      if lookAtEnabled && lookAt.Some? && lookAtValid {
        orientation := math.lookAt(lookAt.value, upAxis, isCamera);
        NotifyGraph();
      }
    }

    method SetUpAxisCardinal(axis: Axis)
      modifies this
      ensures Performed(SetUpAxisStep(math, old(Snapshot()), AxisVector(axis)))
    {
      SetUpAxis(AxisVector(axis));
    }

    method SetUpAxisComponents(x: real, y: real, z: real)
      modifies this
      ensures Performed(SetUpAxisStep(math, old(Snapshot()), Vector3(x, y, z)))
    {
      SetUpAxis(Vector3(x, y, z));
    }

    method ResetUpAxis()
      modifies this
      ensures Performed(SetUpAxisStep(math, old(Snapshot()), AxisVector(Y)))
    {
      SetUpAxis(AxisVector(Y));
    }

    //--------------------------------------------------
    // Scale
    //--------------------------------------------------

    method SetScale(v: Vector3)
      modifies this
      ensures Performed(SetScaleStep(old(Snapshot()), v))
    {
      scale := v;
      NotifyGraph();
    }

    method SetScaleComponents(scaleX: real, scaleY: real, scaleZ: real)
      modifies this
      ensures Performed(SetScaleStep(old(Snapshot()), Vector3(scaleX, scaleY, scaleZ)))
    {
      scale := Vector3(scaleX, scaleY, scaleZ);
      NotifyGraph();
    }

    method SetUniformScale(factor: real)
      modifies this
      ensures Performed(SetScaleStep(old(Snapshot()), Vector3(factor, factor, factor)))
    {
      scale := Vector3(factor, factor, factor);
      NotifyGraph();
    }

    method SetScaleX(factor: real)
      modifies this
      ensures Performed(SetScaleStep(old(Snapshot()), old(scale).(x := factor)))
    {
      scale := scale.(x := factor);
      NotifyGraph();
    }

    method SetScaleY(factor: real)
      modifies this
      ensures Performed(SetScaleStep(old(Snapshot()), old(scale).(y := factor)))
    {
      scale := scale.(y := factor);
      NotifyGraph();
    }

    method SetScaleZ(factor: real)
      modifies this
      ensures Performed(SetScaleStep(old(Snapshot()), old(scale).(z := factor)))
    {
      scale := scale.(z := factor);
      NotifyGraph();
    }

    method GetScale() returns (v: Vector3)
      ensures v == scale
    {
      v := scale;
    }

    method GetLookAt() returns (target: Option<Vector3>)
      ensures target == lookAt
    {
      target := lookAt;
    }

    method GetScaleX() returns (factor: real)
      ensures factor == scale.x
    {
      factor := scale.x;
    }

    method GetScaleY() returns (factor: real)
      ensures factor == scale.y
    {
      factor := scale.y;
    }

    method GetScaleZ() returns (factor: real)
      ensures factor == scale.z
    {
      factor := scale.z;
    }

    //--------------------------------------------------
    // Scene graph
    //--------------------------------------------------

    method SetGraphNode(node: GraphNode?, inside: bool)
      modifies this
      ensures Performed(SetGraphNodeStep(old(Snapshot()), node, inside))
    {
      graphNode := node;
      insideGraph := inside;
    }

    method GetGraphNode() returns (node: GraphNode?)
      ensures node == graphNode
    {
      node := graphNode;
    }

    method IsInGraph() returns (inside: bool)
      ensures inside == insideGraph
    {
      inside := insideGraph;
    }

    /** The position the scene graph indexes the object by. */
    method GetScenePosition() returns (p: Vector3)
      ensures p == position
    {
      p := position;
    }
  }
}
