/**
 * Properties of sequences of mutator calls: how the look-at constraint is
 * kept, lost and (not) regained, and who is notified how often.
 */
module TransformRuns {
  import opened Math3D
  import opened SceneGraph
  import opened TransformSpec

  predicate IsRotation(op: Op)
  {
    op.Rotate? || op.SetOrientation?
  }

  /** The only calls that assign `mLookAtValid := true`. */
  predicate RestoresValidity(op: Op)
  {
    op.SetLookAt? || op.ClearLookAt?
  }

  /** Once a call throws, the calls after it are not made. */
  lemma {:induction false} RunAppendThrown(math: QuaternionMath, s: State, a: seq<Op>, b: seq<Op>)
    requires Run(math, s, a).thrown.Some?
    ensures Run(math, s, a + b) == Run(math, s, a)
    decreases |a|
  {
    var step := Apply(math, s, a[0]);
    assert (a + b)[0] == a[0];
    assert (a + b)[1..] == a[1..] + b;
    if step.thrown.None? {
      RunAppendThrown(math, step.state, a[1..], b);
    }
  }

  /**
   * While the constraint is enforced, any number of position changes keeps it
   * enforced: the orientation faces the target from the latest position, and
   * a linked node hears of every move twice.
   */
  lemma {:induction false} MovesKeepTracking(math: QuaternionMath, s: State, ops: seq<Op>)
    requires Tracking(math, s)
    requires forall i :: 0 <= i < |ops| ==> ops[i].SetPosition?
    ensures Tracking(math, Run(math, s, ops).state)
    ensures ChangesOnly(s, Run(math, s, ops).state, {Position, Orientation})
    ensures Run(math, s, ops).thrown == None
    ensures |Run(math, s, ops).notified| == if s.graphNode == null then 0 else 2 * |ops|
    decreases |ops|
  {
    if ops != [] {
      var step := Apply(math, s, ops[0]);
      assert Tracking(math, step.state);
      MovesKeepTracking(math, step.state, ops[1..]);
    }
  }

  /**
   * While the constraint is not active (disabled, no target, or overridden by
   * a manual rotation), position changes never touch the orientation and a
   * linked node hears of every move once.
   */
  lemma {:induction false} MovesIgnoreInactiveLookAt(math: QuaternionMath, s: State, ops: seq<Op>)
    requires !LookAtActive(s)
    requires forall i :: 0 <= i < |ops| ==> ops[i].SetPosition?
    ensures !LookAtActive(Run(math, s, ops).state)
    ensures Run(math, s, ops).state.orientation == s.orientation
    ensures ChangesOnly(s, Run(math, s, ops).state, {Position})
    ensures Run(math, s, ops).thrown == None
    ensures |Run(math, s, ops).notified| == if s.graphNode == null then 0 else |ops|
    decreases |ops|
  {
    if ops != [] {
      MovesIgnoreInactiveLookAt(math, Apply(math, s, ops[0]).state, ops[1..]);
    }
  }

  /**
   * Once overridden, the constraint stays invalid until `setLookAt` or
   * `clearLookAt` is called; in particular `resetToLookAt` does not revalidate it.
   */
  lemma {:induction false} InvalidUntilLookAtCall(math: QuaternionMath, s: State, ops: seq<Op>)
    requires !s.lookAtValid
    requires forall i :: 0 <= i < |ops| ==> !RestoresValidity(ops[i])
    ensures !Run(math, s, ops).state.lookAtValid
    decreases |ops|
  {
    if ops != [] {
      InvalidUntilLookAtCall(math, Apply(math, s, ops[0]).state, ops[1..]);
    }
  }

  /** Whatever came before, a rotation leaves the constraint invalid. */
  lemma {:induction false} RotationInvalidates(math: QuaternionMath, s: State, ops: seq<Op>, op: Op)
    requires IsRotation(op)
    requires Run(math, s, ops).thrown == None
    ensures !Run(math, s, ops + [op]).state.lookAtValid
    ensures Run(math, s, ops + [op]).thrown == None
    decreases |ops|
  {
    if ops == [] {
      assert ops + [op] == [op];
    } else {
      var step := Apply(math, s, ops[0]);
      assert (ops + [op])[0] == ops[0];
      assert (ops + [op])[1..] == ops[1..] + [op];
      RotationInvalidates(math, step.state, ops[1..], op);
    }
  }

  /**
   * After a manual rotation, `resetToLookAt()` faces the target again but the
   * constraint stays invalid, so a following move keeps the orientation
   * computed from the old position.
   */
  lemma ResetAfterRotationIsNotEnforced(math: QuaternionMath, s: State, q: Quaternion, p: Vector3)
    requires s.lookAt.Some? && s.lookAtEnabled
    ensures var r := Run(math, s, [Rotate(q), ResetToLookAt(None), SetPosition(p)]);
      && r.state.position == p
      && !r.state.lookAtValid
      && r.state.orientation == math.lookAt(Subtract(s.position, s.lookAt.value), s.upAxis, s.isCamera)
  {
    var s1 := Apply(math, s, Rotate(q)).state;
    var s2 := Apply(math, s1, ResetToLookAt(None)).state;
    var ops := [Rotate(q), ResetToLookAt(None), SetPosition(p)];
    assert ops[1..] == [ResetToLookAt(None), SetPosition(p)];
    assert ops[1..][1..] == [SetPosition(p)];
    assert Run(math, s2, [SetPosition(p)]).state == Apply(math, s2, SetPosition(p)).state;
  }

  /**
   * Changing the up axis of an enforced constraint leaves it valid but turns
   * the object by `lookAt(target, up)`, so unless the library happens to give
   * the same rotation for the target and for position - target, the
   * orientation no longer faces the target.
   */
  lemma UpAxisChangeLosesFacing(math: QuaternionMath, s: State, up: Vector3)
    requires LookAtActive(s)
    requires math.lookAt(s.lookAt.value, up, s.isCamera)
          != math.lookAt(Subtract(s.position, s.lookAt.value), up, s.isCamera)
    ensures LookAtActive(SetUpAxisStep(math, s, up).state)
    ensures !Tracking(math, SetUpAxisStep(math, s, up).state)
  {
  }

  /** Calling `resetToLookAt()` twice in a row gives the state one call gives. */
  lemma ResetToLookAtTwice(math: QuaternionMath, s: State)
    ensures Run(math, s, [ResetToLookAt(None), ResetToLookAt(None)]).state
         == Apply(math, s, ResetToLookAt(None)).state
    ensures |Run(math, s, [ResetToLookAt(None), ResetToLookAt(None)]).notified|
         == 2 * |Notification(s)|
  {
    var ops := [ResetToLookAt(None), ResetToLookAt(None)];
    assert ops[1..] == [ResetToLookAt(None)];
  }

  /**
   * Every notification goes to the node linked at the start, as long as the
   * link is not replaced; with no node linked there are none.
   */
  lemma {:induction false} NotificationsGoToLinkedNode(math: QuaternionMath, s: State, ops: seq<Op>)
    requires forall i :: 0 <= i < |ops| ==> !ops[i].SetGraphNode?
    ensures forall k :: 0 <= k < |Run(math, s, ops).notified| ==> Run(math, s, ops).notified[k] == s.graphNode
    ensures s.graphNode == null ==> Run(math, s, ops).notified == []
    ensures Run(math, s, ops).state.graphNode == s.graphNode
    decreases |ops|
  {
    if ops != [] {
      var step := Apply(math, s, ops[0]);
      StepNotifiesLinkedNode(math, s, ops[0]);
      if step.thrown.None? {
        NotificationsGoToLinkedNode(math, step.state, ops[1..]);
        var rest := Run(math, step.state, ops[1..]);
        assert Run(math, s, ops).notified == step.notified + rest.notified;
      }
    }
  }

  /** One call notifies the linked node zero, one or two times, and keeps the link. */
  lemma StepNotifiesLinkedNode(math: QuaternionMath, s: State, op: Op)
    requires !op.SetGraphNode?
    ensures Apply(math, s, op).notified in {[], Notification(s), Notification(s) + Notification(s)}
    ensures Apply(math, s, op).state.graphNode == s.graphNode
  {
  }

  /**
   * The number of `updateObject` calls each mutator makes on a linked node,
   * written out as a table.
   */
  function Calls(s: State, op: Op): nat
  {
    match op
    case SetPosition(_) => if LookAtActive(s) then 2 else 1
    case Rotate(_) => 1
    case SetOrientation(_) => 1
    case SetLookAt(target) => if target.Some? then 2 else 0
    case ClearLookAt(retain) => if retain then 0 else 1
    case SetLookAtEnabled(_) => 0
    case ResetToLookAt(_) => 1
    case SetUpAxis(_) => if LookAtActive(s) then 1 else 0
    case SetScale(_) => 1
    case SetGraphNode(_, _) => 0
  }

  lemma NotificationTable(math: QuaternionMath, s: State, op: Op)
    ensures |Apply(math, s, op).notified| == if s.graphNode == null then 0 else Calls(s, op)
  {
  }

  /**
   * An object moved to (0, 0, 5) and told to look at the origin faces along
   * position - target = (0, 0, 5) with the default +Y up axis, and keeps its position.
   */
  lemma LookAtFromAbove(math: QuaternionMath, isCamera: bool)
    ensures var r := Run(math, Initial(isCamera), [SetPosition(Vector3(0.0, 0.0, 5.0)), SetLookAt(Some(Zero))]);
      && r.thrown == None
      && r.state.position == Vector3(0.0, 0.0, 5.0)
      && r.state.orientation == math.lookAt(Vector3(0.0, 0.0, 5.0), AxisVector(Y), isCamera)
      && r.state.lookAtValid
      && r.notified == []
  {
    var above := Vector3(0.0, 0.0, 5.0);
    var ops := [SetPosition(above), SetLookAt(Some(Zero))];
    var moved := SetPositionStep(math, Initial(isCamera), above);
    var looking := SetLookAtStep(math, moved.state, Some(Zero));
    assert Subtract(above, Zero) == above;
    assert ops[1..] == [SetLookAt(Some(Zero))];
    assert Run(math, moved.state, ops[1..]) == Outcome(looking.state, [] + looking.notified, None);
  }
}
