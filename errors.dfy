/** The failures a SceneObject reports. In the Python code every one of them
    is raised as a ValueError; the constructors here tell the raise sites apart. */
module Errors {

  /** One constructor per `raise ValueError(...)` in meshrender/object.py. */
  datatype ValueError =
    | MeshTypeError                                  // the mesh is not a Trimesh
    | MaterialTypeError                              // the material is not a MaterialProperties
    | TransformTypeError                             // the pose is not a RigidTransform
    | FrameError(fromFrame: string, toFrame: string) // the pose is not obj -> world

  /** The text the ValueError carries. Every message starts with the name of
      the argument it complains about. */
  function Message(e: ValueError): (msg: string)
    ensures e.MeshTypeError? ==> |msg| >= 4 && msg[..4] == "mesh"
    ensures e.MaterialTypeError? ==> |msg| >= 8 && msg[..8] == "material"
    ensures (e.TransformTypeError? || e.FrameError?) ==> |msg| >= 9 && msg[..9] == "transform"
    ensures e.FrameError? ==> |msg| >= |e.toFrame| && msg[|msg| - |e.toFrame|..] == e.toFrame
  {
    // Each literal is split after its subject so that the prefix is evident to the verifier.
    match e
    case MeshTypeError => "mesh" + " must be an object of type Trimesh"
    case MaterialTypeError => "material" + " must be an object of type MaterialProperties"
    case TransformTypeError => "transform" + " must be an object of type RigidTransform"
    case FrameError(f, t) => "transform" + " must be from obj -> world, got " + f + " -> " + t
  }

  /** A value, or the ValueError raised instead of producing it. */
  datatype Result<+T> = Success(value: T) | Failure(error: ValueError)

  /** The outcome of an operation that returns nothing: it either completes or raises. */
  datatype Outcome = Pass | Fail(error: ValueError)
}
