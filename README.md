# meshrender SceneObject, modelled in Dafny

meshrender describes a 3D scene (objects, lights, a camera) for rendering
with OpenGL. This project models its `SceneObject`: the entity that binds a
triangle mesh, a set of material properties and an object-to-world pose.

- `errors.dfy` (module `Errors`): the `ValueError`s the object raises, one
  constructor per raise site, with the message text; `Result` and `Outcome`
  carry a value or the error raised instead.
- `values.dfy` (module `Values`): the values from other libraries the object
  inspects. A `TriMesh` is opaque; `Smoothed` stands for trimesh's
  `smoothed()` and records only which mesh it was derived from. A
  `RigidTransform` carries its `fromFrame` and `toFrame` tags. `Value` is a
  Python argument of a class known only at run time, so the `isinstance`
  checks become explicit error results.
- `scene_object.dfy` (module `SceneObjects`): the class `SceneObject` with
  fields `mesh`, `material` and `pose`, its getters and its validating pose
  setter. The same rules are written as functions on values (`CheckPose`,
  `AssignPose`, `Construct`), and the class's methods are proved against
  them. Dafny constructors cannot fail, so construction is the static method
  `Create`, which returns the object or the `ValueError`. Like the Python
  `__init__`, `Create` checks the mesh kind, then the material kind, smooths
  and stores the mesh and stores the material. Then it assigns the initial
  pose through `SetPose`, the setter that clients use.
- `pose_history.dfy` (module `PoseHistory`): any sequence of pose
  assignments, each accepted or rejected. The mesh and material never
  change, the pose stays obj -> world, and the pose is the last accepted
  one, or the initial one when none was accepted. `SetPose` ensures that
  each call moves the object from a state `s` to `AfterAssignment(s, T)`, so
  these facts hold of any series of setter calls on a `SceneObject`; the
  lemma `AssignAllAppend` is the step that extends a history by one call.

## Model

| member | source | states |
|---|---|---|
| `Errors.Message` | meshrender/object.py:30-64 | each ValueError's message starts with the argument it is about (mesh, material, transform); a frame error's message ends with the rejected target frame |
| `Values.Smoothed` | meshrender/object.py:34-35 | smoothing yields a mesh other than the one given (a derived copy) |
| `SceneObjects.PreparedMesh` | meshrender/object.py:34-35 | the stored mesh is the given mesh itself exactly when the material does not ask for smoothing; otherwise it is the smoothed copy |
| `Values.DefaultPose` | meshrender/object.py:16 | the default initial pose is tagged obj -> world |
| `SceneObjects.CheckPose` | meshrender/object.py:59-64 | the setter's checks pass iff the argument is a RigidTransform from "obj" to "world"; a non-transform raises the type error before frames are looked at; wrong frames raise the frame error naming both frames; on success the transform itself is what gets stored |
| `SceneObjects.AssignPose` | meshrender/object.py:59-65 | an assignment succeeds iff the pose is an obj -> world transform; success replaces the pose and keeps mesh and material; failure carries the setter's error |
| `SceneObjects.AfterAssignment` | meshrender/object.py:59-65 | after an attempted assignment mesh and material are unchanged, and the pose is the new transform if it was accepted and the old pose if it was rejected |
| `SceneObjects.Construct` | meshrender/object.py:29-39 | construction succeeds iff mesh is a Trimesh, material is a MaterialProperties and the pose is obj -> world; the mesh error takes precedence over the material error, which takes precedence over the pose errors; the stored material and pose are exactly the arguments; the stored mesh is `Smoothed(mesh)` when `material.smooth` holds and the mesh itself otherwise |
| `SceneObjects.DefaultPoseConstructs` | meshrender/object.py:15-39 | with the default pose, construction fails only on the kinds of mesh and material |
| `SceneObjects.LastAssignmentWins` | meshrender/object.py:59-65 | once an accepted assignment is made, any earlier assignment leaves no trace |
| `SceneObjects.SceneObject.Bind` | meshrender/object.py:34-38 | the freshly bound object stores the prepared mesh (smoothed iff the material says so) and the material, and satisfies the object invariant |
| `SceneObjects.SceneObject.Create` | meshrender/object.py:15-39 | fails with exactly the error `Construct` gives for the same arguments; on success returns a fresh valid object whose state is `Construct`'s and which remembers the mesh and material it was built from |
| `SceneObjects.SceneObject.Mesh` | meshrender/object.py:41-45 | the `mesh` getter returns the smoothed input mesh when the material is smooth, and the input mesh itself otherwise |
| `SceneObjects.SceneObject.Material` | meshrender/object.py:47-51 | the `material` getter returns the material given at construction |
| `SceneObjects.SceneObject.Pose` | meshrender/object.py:53-57 | the `T_obj_world` getter always returns a transform from "obj" to "world" |
| `SceneObjects.SceneObject.SetPose` | meshrender/object.py:59-65 | the setter passes iff the transform is an obj -> world RigidTransform; on success the pose is that transform; on failure it reports the setter's error and the pose is the old one; mesh and material are never changed; the object invariant is kept |
| `PoseHistory.AssignAllKeepsMeshAndMaterial` | meshrender/object.py:41-65 | after any sequence of pose assignments the mesh (smoothed once, at construction) and the material are those the object started with |
| `PoseHistory.AssignAllKeepsFrames` | meshrender/object.py:59-65 | an obj -> world pose stays obj -> world through any sequence of assignments |
| `PoseHistory.PoseUnchangedWhenAllRejected` | meshrender/object.py:59-65 | when every assignment in a sequence is rejected, the pose is still the initial one |
| `PoseHistory.PoseIsLastAccepted` | meshrender/object.py:59-65 | after a sequence of assignments the pose is exactly the transform of the last accepted one |
| `PoseHistory.AssignAllAppend` | meshrender/object.py:59-65 | one more assignment after a history acts on the state that history produced |

## Left out

- The code raises `ValueError` at all four sites. The model follows the code, and the `ValueError` constructors only tell the sites apart.
- `isinstance` also accepts subclasses of Trimesh, MaterialProperties and RigidTransform; a `Value` tag stands for "is an instance of", and subclassing is not modelled.
- `material.smooth` is modelled as a `bool`; Python's truthiness of other values is not modelled.
- Trimesh's smoothing algorithm and its mesh data (vertices, faces, normals) are external and opaque. `Smoothed` is uninterpreted beyond "a mesh derived from the given one".
- RigidTransform's matrix algebra (composition, inversion, `.matrix`) is external. Only the frame tags are inspected; rotation and translation are carried as reals, not floats.
- Aliasing is not modelled. Python stores the caller's mesh (when not smoothed), material and transform by reference, and the default arguments are one RigidTransform and one MaterialProperties instance shared by every call that omits them. Here all of them are immutable values. The model therefore does not capture a caller later mutating the material or transform it passed in (for example, changing the frames of a transform already assigned as the pose); the promises of `SceneObjects.SceneObject.Pose` and `SceneObjects.SceneObject.Material` hold only as long as no one does.
- `SceneObjects.SceneObject.Create` allocates the object with the default pose and then calls `SetPose`. In Python the pose attribute does not exist until the setter runs. The difference is not observable, because a failed construction never hands out the object.
- The material module, the light classes, `VirtualCamera` and `Scene` are not part of this model (their source files are not in it). The scene's use of object poses during rendering is not modelled either.
- `meshrender/render.py` (OpenGL context, buffers, shaders, depth linearisation in floating point) and `meshrender/viewer.py` (pyglet window, event loop, trackball geometry) are foreign-library I/O, user interface and floating-point code.
- `test/test_viewer.py` is a usage script that asserts nothing; it loads files, renders and opens a window.
