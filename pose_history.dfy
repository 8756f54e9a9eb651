/** What a sequence of pose assignments does to a scene object, each one
    either accepted by the setter or rejected with a ValueError that the
    caller catches. The setter is the only operation that writes to a scene
    object after construction, so these facts cover the object's whole life. */
module PoseHistory {
  import opened Values
  import opened SceneObjects

  /** The state after assigning the poses in `assignments`, in order. */
  function AssignAll(s: ObjectState, assignments: seq<Value>): ObjectState
    decreases |assignments|
  {
    if assignments == [] then s else AssignAll(AfterAssignment(s, assignments[0]), assignments[1..])
  }

  /** Mesh and material never change, however many poses are assigned: the
      mesh is not smoothed a second time and the material stays the one given. */
  lemma {:induction false} AssignAllKeepsMeshAndMaterial(s: ObjectState, assignments: seq<Value>)
    ensures AssignAll(s, assignments).mesh == s.mesh
    ensures AssignAll(s, assignments).material == s.material
    decreases |assignments|
  {
    if assignments != [] {
      AssignAllKeepsMeshAndMaterial(AfterAssignment(s, assignments[0]), assignments[1..]);
    }
  }

  /** An obj -> world pose stays obj -> world, whatever is assigned. */
  lemma {:induction false} AssignAllKeepsFrames(s: ObjectState, assignments: seq<Value>)
    requires IsObjToWorld(s.pose)
    ensures IsObjToWorld(AssignAll(s, assignments).pose)
    decreases |assignments|
  {
    if assignments != [] {
      AssignAllKeepsFrames(AfterAssignment(s, assignments[0]), assignments[1..]);
    }
  }

  /** When every assignment is rejected, the pose is the initial one. */
  lemma {:induction false} PoseUnchangedWhenAllRejected(s: ObjectState, assignments: seq<Value>)
    requires forall i :: 0 <= i < |assignments| ==> !Accepted(assignments[i])
    ensures AssignAll(s, assignments).pose == s.pose
    decreases |assignments|
  {
    if assignments != [] {
      var rest := assignments[1..];
      assert !Accepted(assignments[0]);
      assert forall k :: 0 <= k < |rest| ==> !Accepted(rest[k]) by {
        forall k | 0 <= k < |rest| ensures !Accepted(rest[k]) {
          assert rest[k] == assignments[k + 1];
        }
      }
      PoseUnchangedWhenAllRejected(AfterAssignment(s, assignments[0]), rest);
    }
  }

  /** The pose is that of the last accepted assignment. */
  lemma {:induction false} PoseIsLastAccepted(s: ObjectState, assignments: seq<Value>, i: nat)
    requires i < |assignments| && Accepted(assignments[i])
    requires forall j :: i < j < |assignments| ==> !Accepted(assignments[j])
    ensures AssignAll(s, assignments).pose == assignments[i].transform
    decreases |assignments|
  {
    var next := AfterAssignment(s, assignments[0]);
    var rest := assignments[1..];
    if i == 0 {
      assert next.pose == assignments[0].transform;
      assert forall k :: 0 <= k < |rest| ==> !Accepted(rest[k]) by {
        forall k | 0 <= k < |rest| ensures !Accepted(rest[k]) {
          assert rest[k] == assignments[k + 1];
        }
      }
      PoseUnchangedWhenAllRejected(next, rest);
    } else {
      assert rest[i - 1] == assignments[i];
      assert forall j :: i - 1 < j < |rest| ==> !Accepted(rest[j]) by {
        forall j | i - 1 < j < |rest| ensures !Accepted(rest[j]) {
          assert rest[j] == assignments[j + 1];
        }
      }
      PoseIsLastAccepted(next, rest, i - 1);
    }
  }

  /** Appending one assignment to a history is one more setter call on the
      state the history produced. This is how the facts of this module reach
      a real `SceneObject`: if an object is in state `AssignAll(s, h)` and its
      `SetPose(T)` runs, that method's ensures put it in state
      `AfterAssignment(AssignAll(s, h), T)`, which this lemma identifies with
      `AssignAll(s, h + [T])`. By induction on the calls, an object built in
      state `s` that has seen the setter calls `h` is in state `AssignAll(s, h)`. */
  lemma {:induction false} AssignAllAppend(s: ObjectState, assignments: seq<Value>, T: Value)
    ensures AssignAll(s, assignments + [T]) == AfterAssignment(AssignAll(s, assignments), T)
    decreases |assignments|
  {
    if assignments == [] {
      assert assignments + [T] == [T];
    } else {
      assert (assignments + [T])[1..] == assignments[1..] + [T];
      AssignAllAppend(AfterAssignment(s, assignments[0]), assignments[1..], T);
    }
  }
}
