/**
 * The transform / look-at state machine of `ATransformable3D` as values.
 *
 * `State` holds every field the object's mutators read or write. Each step
 * function gives the `Outcome` of one public mutator: the new state, the
 * graph nodes notified through `updateObject`, in call order, and the
 * exception thrown, if any. The object's methods are proved to produce
 * exactly these outcomes; the lemmas in `TransformRuns` are about sequences
 * of them.
 */
module TransformSpec {
  import opened Math3D
  import opened SceneGraph

  datatype Option<T> = None | Some(value: T)

  datatype Exception = IllegalArgumentException

  datatype State = State(
    position: Vector3,
    scale: Vector3,
    orientation: Quaternion,
    lookAt: Option<Vector3>,     // the look-at target; None is `mLookAt == null`
    lookAtValid: bool,           // does the orientation still follow the target?
    lookAtEnabled: bool,         // should moves re-enforce the target?
    upAxis: Vector3,
    isCamera: bool,
    graphNode: GraphNode?,
    insideGraph: bool)

  datatype Outcome = Outcome(state: State, notified: seq<GraphNode>, thrown: Option<Exception>)

  /** The state a new object starts in; `isCamera` is chosen by the subclass. */
  function Initial(isCamera: bool): State
  {
    State(Zero, Vector3(1.0, 1.0, 1.0), Identity, None, false, true,
          AxisVector(Y), isCamera, null, false)
  }

  /** The guard `mLookAtEnabled && mLookAt != null && mLookAtValid`. */
  predicate LookAtActive(s: State)
  {
    s.lookAtEnabled && s.lookAt.Some? && s.lookAtValid
  }

  /** The nodes one `if (mGraphNode != null) mGraphNode.updateObject(this)` notifies. */
  function Notification(s: State): seq<GraphNode>
  {
    if s.graphNode == null then [] else [s.graphNode]
  }

  /** The orientation `resetToLookAt(up)` computes. */
  function Facing(math: QuaternionMath, s: State, up: Vector3): Quaternion
  {
    if s.lookAt.None? then Identity
    else math.lookAt(Subtract(s.position, s.lookAt.value), up, s.isCamera)
  }

  /** The look-at constraint is active and the orientation faces the target. */
  predicate Tracking(math: QuaternionMath, s: State)
  {
    LookAtActive(s) && s.orientation == Facing(math, s, s.upAxis)
  }

  /** The groups of fields a mutator may change. */
  datatype Field = Position | Scale | Orientation | Target | Valid | Enabled | UpAxis | Link

  /** `t` agrees with `s` on every field outside `fields`; `isCamera` never changes. */
  predicate ChangesOnly(s: State, t: State, fields: set<Field>)
  {
    && (Position !in fields ==> t.position == s.position)
    && (Scale !in fields ==> t.scale == s.scale)
    && (Orientation !in fields ==> t.orientation == s.orientation)
    && (Target !in fields ==> t.lookAt == s.lookAt)
    && (Valid !in fields ==> t.lookAtValid == s.lookAtValid)
    && (Enabled !in fields ==> t.lookAtEnabled == s.lookAtEnabled)
    && (UpAxis !in fields ==> t.upAxis == s.upAxis)
    && (Link !in fields ==> t.graphNode == s.graphNode && t.insideGraph == s.insideGraph)
    && t.isCamera == s.isCamera
  }

  //--------------------------------------------------
  // Look-at
  //--------------------------------------------------

  /** `resetToLookAt(up)`; `resetToLookAt()` is this with the current up axis. */
  function ResetToLookAtStep(math: QuaternionMath, s: State, up: Vector3): (r: Outcome)
    ensures s.lookAt.None? ==> r.state.orientation == Identity
    ensures s.lookAt.Some? ==>
      r.state.orientation == math.lookAt(Subtract(s.position, s.lookAt.value), up, s.isCamera)
    ensures ChangesOnly(s, r.state, {Orientation})
    ensures r.notified == Notification(s) && r.thrown == None
  {
    Outcome(s.(orientation := Facing(math, s, up)), Notification(s), None)
  }

  /** `setLookAt(Vector3)` (None is a null argument) and `setLookAt(x, y, z)`. */
  function SetLookAtStep(math: QuaternionMath, s: State, target: Option<Vector3>): (r: Outcome)
    ensures target.None? ==> r == Outcome(s, [], Some(IllegalArgumentException))
    ensures target.Some? ==>
      && r.thrown == None
      && r.state.lookAt == target
      && r.state.lookAtValid
      && r.state.orientation == math.lookAt(Subtract(s.position, target.value), s.upAxis, s.isCamera)
      && ChangesOnly(s, r.state, {Target, Valid, Orientation})
      && r.notified == Notification(s) + Notification(s)
    ensures target.Some? && s.lookAtEnabled ==> Tracking(math, r.state)
  {
    if target.None? then
      Outcome(s, [], Some(IllegalArgumentException))
    else
      var stored := s.(lookAt := target);
      var reset := ResetToLookAtStep(math, stored, stored.upAxis);
      var done := reset.state.(lookAtValid := true);
      Outcome(done, reset.notified + Notification(done), None)
  }

  /** `clearLookAt(retainOrientation)`. */
  function ClearLookAtStep(s: State, retainOrientation: bool): (r: Outcome)
    ensures r.state.lookAt.None? && r.state.lookAtValid && r.thrown == None
    ensures retainOrientation ==> ChangesOnly(s, r.state, {Target, Valid}) && r.notified == []
    ensures !retainOrientation ==>
      && r.state.orientation == Identity
      && ChangesOnly(s, r.state, {Target, Valid, Orientation})
      && r.notified == Notification(s)
  {
    var cleared := s.(lookAt := None, lookAtValid := true);
    if retainOrientation then Outcome(cleared, [], None)
    else
      var reset := cleared.(orientation := Identity);
      Outcome(reset, Notification(reset), None)
  }

  /** `enableLookAt()` (true) and `disableLookAt()` (false). */
  function SetLookAtEnabledStep(s: State, enabled: bool): (r: Outcome)
    ensures r.state.lookAtEnabled == enabled
    ensures ChangesOnly(s, r.state, {Enabled})
    ensures r.notified == [] && r.thrown == None
  {
    Outcome(s.(lookAtEnabled := enabled), [], None)
  }

  /** `setUpAxis(Vector3 | Axis | x, y, z)` and `resetUpAxis()`. */
  function SetUpAxisStep(math: QuaternionMath, s: State, up: Vector3): (r: Outcome)
    ensures r.state.upAxis == up && r.thrown == None
    ensures ChangesOnly(s, r.state, {UpAxis, Orientation})
    ensures LookAtActive(s) ==>
      r.state.orientation == math.lookAt(s.lookAt.value, up, s.isCamera) && r.notified == Notification(s)
    ensures !LookAtActive(s) ==> r.state.orientation == s.orientation && r.notified == []
  {
    var stored := s.(upAxis := up);
    if LookAtActive(stored) then
      // the target itself, not position - target, is passed as the direction
      var turned := stored.(orientation := math.lookAt(stored.lookAt.value, stored.upAxis, stored.isCamera));
      Outcome(turned, Notification(turned), None)
    else
      Outcome(stored, [], None)
  }

  //--------------------------------------------------
  // Translation
  //--------------------------------------------------

  /** `setPosition(Vector3 | x, y, z)`; `setX/Y/Z` pass the position with one coordinate replaced. */
  function SetPositionStep(math: QuaternionMath, s: State, p: Vector3): (r: Outcome)
    ensures r.state.position == p && r.thrown == None
    ensures ChangesOnly(s, r.state, {Position, Orientation})
    ensures LookAtActive(s) ==>
      && r.state.orientation == math.lookAt(Subtract(p, s.lookAt.value), s.upAxis, s.isCamera)
      && Tracking(math, r.state)
      && r.notified == Notification(s) + Notification(s)
    ensures !LookAtActive(s) ==> r.state.orientation == s.orientation && r.notified == Notification(s)
  {
    var moved := s.(position := p);
    if LookAtActive(moved) then
      var reset := ResetToLookAtStep(math, moved, moved.upAxis);
      Outcome(reset.state, reset.notified + Notification(reset.state), None)
    else
      Outcome(moved, Notification(moved), None)
  }

  //--------------------------------------------------
  // Rotation
  //--------------------------------------------------

  /** `rotate(...)` and `setRotation(Quaternion | axis, angle | Matrix4)`: compose with `q`. */
  function RotateStep(math: QuaternionMath, s: State, q: Quaternion): (r: Outcome)
    ensures r.state.orientation == math.multiply(s.orientation, q)
    ensures !r.state.lookAtValid
    ensures ChangesOnly(s, r.state, {Orientation, Valid})
    ensures r.notified == Notification(s) && r.thrown == None
  {
    var rotated := s.(orientation := math.multiply(s.orientation, q));
    var overridden := rotated.(lookAtValid := false);
    Outcome(overridden, Notification(overridden), None)
  }

  /** `setOrientation(q)`, the Euler `setRotation`s and `setRotX/Y/Z`: replace by `q`. */
  function SetOrientationStep(s: State, q: Quaternion): (r: Outcome)
    ensures r.state.orientation == q
    ensures !r.state.lookAtValid
    ensures ChangesOnly(s, r.state, {Orientation, Valid})
    ensures r.notified == Notification(s) && r.thrown == None
  {
    var replaced := s.(orientation := q);
    var overridden := replaced.(lookAtValid := false);
    Outcome(overridden, Notification(overridden), None)
  }

  /** The orientation `setRotX(roll)` builds: yaw and pitch re-extracted from `o`. */
  function WithRoll(math: QuaternionMath, o: Quaternion, roll: real): Quaternion
  {
    math.fromEuler(math.getYaw(o), math.getPitch(o), roll)
  }

  /** The orientation `setRotY(yaw)` builds. */
  function WithYaw(math: QuaternionMath, o: Quaternion, yaw: real): Quaternion
  {
    math.fromEuler(yaw, math.getPitch(o), math.getRoll(o))
  }

  /** The orientation `setRotZ(pitch)` builds. */
  function WithPitch(math: QuaternionMath, o: Quaternion, pitch: real): Quaternion
  {
    math.fromEuler(math.getYaw(o), pitch, math.getRoll(o))
  }

  //--------------------------------------------------
  // Scale and scene graph
  //--------------------------------------------------

  /** `setScale(Vector3 | x, y, z | uniform)`; `setScaleX/Y/Z` pass the scale with one factor replaced. */
  function SetScaleStep(s: State, scale: Vector3): (r: Outcome)
    ensures r.state.scale == scale
    ensures ChangesOnly(s, r.state, {Scale})
    ensures r.notified == Notification(s) && r.thrown == None
  {
    var scaled := s.(scale := scale);
    Outcome(scaled, Notification(scaled), None)
  }

  /** `setGraphNode(node, inside)`. */
  function SetGraphNodeStep(s: State, node: GraphNode?, inside: bool): (r: Outcome)
    ensures r.state.graphNode == node && r.state.insideGraph == inside
    ensures ChangesOnly(s, r.state, {Link})
    ensures r.notified == [] && r.thrown == None
  {
    Outcome(s.(graphNode := node, insideGraph := inside), [], None)
  }

  //--------------------------------------------------
  // Calls as data
  //--------------------------------------------------

  /**
   * One public mutator call, by its behaviour. The setters of one coordinate,
   * one scale factor or one Euler angle are the calls below with an argument
   * computed from the current state (`SetPosition(s.position.(x := x))`,
   * `SetOrientation(WithRoll(math, s.orientation, roll))`, ...).
   */
  datatype Op =
    | SetPosition(p: Vector3)
    | Rotate(q: Quaternion)                // every composing rotate / setRotation
    | SetOrientation(q: Quaternion)        // setOrientation, Euler setRotation, setRotX/Y/Z
    | SetLookAt(target: Option<Vector3>)
    | ClearLookAt(retainOrientation: bool)
    | SetLookAtEnabled(enabled: bool)      // enableLookAt / disableLookAt
    | ResetToLookAt(up: Option<Vector3>)   // None: resetToLookAt() with the current up axis
    | SetUpAxis(axis: Vector3)
    | SetScale(v: Vector3)
    | SetGraphNode(node: GraphNode?, inside: bool)

  function Apply(math: QuaternionMath, s: State, op: Op): Outcome
  {
    match op
    case SetPosition(p) => SetPositionStep(math, s, p)
    case Rotate(q) => RotateStep(math, s, q)
    case SetOrientation(q) => SetOrientationStep(s, q)
    case SetLookAt(target) => SetLookAtStep(math, s, target)
    case ClearLookAt(retain) => ClearLookAtStep(s, retain)
    case SetLookAtEnabled(enabled) => SetLookAtEnabledStep(s, enabled)
    case ResetToLookAt(up) =>
      ResetToLookAtStep(math, s, if up.Some? then up.value else s.upAxis)
    case SetUpAxis(axis) => SetUpAxisStep(math, s, axis)
    case SetScale(v) => SetScaleStep(s, v)
    case SetGraphNode(node, inside) => SetGraphNodeStep(s, node, inside)
  }

  /** Calls made one after another; an exception ends the sequence. */
  function Run(math: QuaternionMath, s: State, ops: seq<Op>): Outcome
    decreases |ops|
  {
    if ops == [] then Outcome(s, [], None)
    else
      var first := Apply(math, s, ops[0]);
      if first.thrown.Some? then first
      else
        var rest := Run(math, first.state, ops[1..]);
        Outcome(rest.state, first.notified + rest.notified, rest.thrown)
  }
}
