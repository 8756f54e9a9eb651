/** meshrender's SceneObject: a mesh, a material and an object-to-world pose
    bound into one entity of a scene. Mesh and material are fixed when the
    object is built; the pose can be reassigned, but only through a setter
    that accepts nothing but an obj -> world rigid transform. */
module SceneObjects {
  import opened Errors
  import opened Values

  /** What a scene object holds, as a value. */
  datatype ObjectState = ObjectState(mesh: TriMesh, material: MaterialProperties, pose: RigidTransform)

  /** The mesh a scene object stores for the mesh `m` it is given: its
      smoothed copy when the material asks for smoothing, `m` itself otherwise. */
  function PreparedMesh(m: TriMesh, material: MaterialProperties): (r: TriMesh)
    ensures r == m <==> !material.smooth
    ensures material.smooth ==> r == Smoothed(m)
  {
    if material.smooth then Smoothed(m) else m
  }

  /** The pose setter accepts `T` exactly when it is an obj -> world RigidTransform. */
  predicate Accepted(T: Value) {
    T.TransformValue? && IsObjToWorld(T.transform)
  }

  /** The checks of the pose setter, in their order: first the kind of `T`,
      then its frames. On success the transform to store. */
  function CheckPose(T: Value): (r: Result<RigidTransform>)
    ensures r.Success? <==> Accepted(T)
    ensures r.Success? ==> r.value == T.transform
    ensures !T.TransformValue? ==> r == Failure(TransformTypeError)
    ensures T.TransformValue? && !IsObjToWorld(T.transform) ==>
              r == Failure(FrameError(T.transform.fromFrame, T.transform.toFrame))
  {
    if !T.TransformValue? then
      Failure(TransformTypeError)
    else if T.transform.fromFrame != ObjFrame || T.transform.toFrame != WorldFrame then
      Failure(FrameError(T.transform.fromFrame, T.transform.toFrame))
    else
      Success(T.transform)
  }

  /** Assigning `T` as the pose of an object in state `s`: the new state, or
      the ValueError raised before anything is written. */
  function AssignPose(s: ObjectState, T: Value): (r: Result<ObjectState>)
    ensures r.Success? <==> Accepted(T)
    ensures r.Success? ==> r.value == ObjectState(s.mesh, s.material, T.transform)
    ensures r.Failure? ==> r.error == CheckPose(T).error
  {
    match CheckPose(T)
    case Success(t) => Success(s.(pose := t))
    case Failure(e) => Failure(e)
  }

  /** The state of the object once an assignment of `T` has been attempted and
      any ValueError it raised has been caught by the caller. */
  function AfterAssignment(s: ObjectState, T: Value): (s': ObjectState)
    ensures s'.mesh == s.mesh && s'.material == s.material
    ensures s'.pose == (if Accepted(T) then T.transform else s.pose)
  {
    match AssignPose(s, T)
    case Success(next) => next
    case Failure(_) => s
  }

  /** Building a scene object from the arguments `mesh`, `pose` and `material`:
      the mesh kind is checked first, then the material kind, then the pose
      goes through the setter's checks. */
  function Construct(mesh: Value, pose: Value, material: Value): (r: Result<ObjectState>)
    ensures r.Success? <==>
              mesh.MeshValue? && material.MaterialValue? && Accepted(pose)
    ensures !mesh.MeshValue? ==> r == Failure(MeshTypeError)
    ensures mesh.MeshValue? && !material.MaterialValue? ==> r == Failure(MaterialTypeError)
    ensures mesh.MeshValue? && material.MaterialValue? && r.Failure? ==> r.error == CheckPose(pose).error
    ensures r.Success? ==> r.value.material == material.material && r.value.pose == pose.transform
    ensures r.Success? && material.material.smooth ==> r.value.mesh == Smoothed(mesh.mesh)
    ensures r.Success? && !material.material.smooth ==> r.value.mesh == mesh.mesh
  {
    if !mesh.MeshValue? then
      Failure(MeshTypeError)
    else if !material.MaterialValue? then
      Failure(MaterialTypeError)
    else
      match CheckPose(pose)
      case Success(t) => Success(ObjectState(PreparedMesh(mesh.mesh, material.material), material.material, t))
      case Failure(e) => Failure(e)
  }

  /** With the default pose, construction fails only on the kinds of mesh and material. */
  lemma DefaultPoseConstructs(mesh: Value, material: Value)
    ensures Construct(mesh, TransformValue(DefaultPose()), material).Success? <==>
              mesh.MeshValue? && material.MaterialValue?
  {
  }

  /** The last accepted assignment wins: an earlier assignment leaves no trace. */
  lemma LastAssignmentWins(s: ObjectState, T1: Value, T2: Value)
    requires AssignPose(s, T2).Success?
    ensures AfterAssignment(AfterAssignment(s, T1), T2) == AfterAssignment(s, T2)
  {
  }

  /** A scene object. `mesh` and `material` are constants: the object
      exposes them for reading only, and nothing reassigns them after
      construction; `pose` is the object-to-world transform, written only by
      the validating setter. The ghost constants record the mesh and the
      material the object was built from. */
  class SceneObject {
    ghost const source: TriMesh
    ghost const given: MaterialProperties
    const mesh: TriMesh
    const material: MaterialProperties
    var pose: RigidTransform

    /** The object invariant: the stored mesh is the prepared input mesh, the
        stored material is the input material, and the pose is obj -> world. */
    ghost predicate Valid()
      reads this
    {
      mesh == PreparedMesh(source, given) && material == given && IsObjToWorld(pose)
    }

    /** The object as a value. */
    function State(): ObjectState
      reads this
    {
      ObjectState(mesh, material, pose)
    }

    /** Binds a prepared mesh and a material, with the default pose in place.
        Only `Create` calls it, and `Create` assigns the real pose at once. */
    constructor Bind(m: TriMesh, mat: MaterialProperties)
      ensures Valid() && source == m && given == mat
      ensures State() == ObjectState(PreparedMesh(m, mat), mat, DefaultPose())
    {
      source := m;
      given := mat;
      mesh := PreparedMesh(m, mat);
      material := mat;
      pose := DefaultPose();
    }

    /** `SceneObject(mesh, T_obj_world, material)`: checks the kind of the
        mesh, then the kind of the material, smooths the mesh if the material
        asks for it, stores both, and assigns the pose through the same setter
        clients use, so a bad initial pose fails the construction. */
    static method Create(meshArg: Value, poseArg: Value, materialArg: Value) returns (r: Result<SceneObject>)
      ensures r.Failure? <==> Construct(meshArg, poseArg, materialArg).Failure?
      ensures r.Failure? ==> r.error == Construct(meshArg, poseArg, materialArg).error
      ensures r.Success? ==> fresh(r.value) && r.value.Valid()
      ensures r.Success? ==> r.value.State() == Construct(meshArg, poseArg, materialArg).value
      ensures r.Success? ==> r.value.source == meshArg.mesh && r.value.given == materialArg.material
    {
      if !meshArg.MeshValue? {
        return Failure(MeshTypeError);
      }
      if !materialArg.MaterialValue? {
        return Failure(MaterialTypeError);
      }
      var obj := new SceneObject.Bind(meshArg.mesh, materialArg.material);
      var outcome := obj.SetPose(poseArg);
      if outcome.Fail? {
        return Failure(outcome.error);
      }
      return Success(obj);
    }

    /** The `mesh` property: the mesh given at construction, smoothed exactly
        when the material asks for smoothing. */
    function Mesh(): (m: TriMesh)
      reads this
      requires Valid()
      ensures given.smooth ==> m == Smoothed(source)
      ensures !given.smooth ==> m == source
    {
      mesh
    }

    /** The `material` property: the material given at construction. */
    function Material(): (mat: MaterialProperties)
      reads this
      requires Valid()
      ensures mat == given
    {
      material
    }

    /** The `T_obj_world` property: always a transform from "obj" to "world". */
    function Pose(): (t: RigidTransform)
      reads this
      requires Valid()
      ensures t.fromFrame == "obj" && t.toFrame == "world"
    {
      pose
    }

    /** The `T_obj_world` setter. It raises before writing anything when `T`
        is not a RigidTransform or is not obj -> world; otherwise `T` becomes
        the pose. Mesh and material are constants, so smoothing is not
        applied again. */
    method SetPose(T: Value) returns (outcome: Outcome)
      requires Valid()
      modifies this
      ensures Valid()
      ensures outcome.Pass? <==> Accepted(T)
      ensures outcome.Pass? ==> pose == T.transform
      ensures outcome.Fail? ==> outcome.error == AssignPose(old(State()), T).error && pose == old(pose)
      ensures State() == AfterAssignment(old(State()), T)
    {
      var checked := CheckPose(T);
      if checked.Failure? {
        return Fail(checked.error);
      }
      pose := checked.value;
      return Pass;
    }
  }
}
