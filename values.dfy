/** The values a SceneObject is built from. Meshes, materials and rigid
    transforms belong to other libraries (trimesh, the package's material
    module, autolab_core); only what the scene object inspects is modelled. */
module Values {

  /** A trimesh.Trimesh. Its vertices and faces are opaque: a mesh is either
      one the caller loaded (told apart by a handle) or the result of asking
      another mesh for its smoothed copy. */
  datatype TriMesh = Loaded(handle: nat) | SmoothedCopy(source: TriMesh)

  /** trimesh's `Trimesh.smoothed()`: a new mesh derived from `m`. The
      smoothing algorithm itself is not modelled; the result records only
      which mesh it was derived from. */
  function Smoothed(m: TriMesh): (r: TriMesh)
    ensures r != m
  {
    assert m < SmoothedCopy(m);
    SmoothedCopy(m)
  }

  /** A MaterialProperties value: surface colour, ambient, diffuse and
      specular coefficients, specular exponent, and the smoothing and
      wireframe flags. Only `smooth` matters to the scene object; the rest is
      carried for the renderer. Floating-point numbers are modelled as reals. */
  datatype MaterialProperties = MaterialProperties(
    color: seq<real>,
    kA: real,
    kD: real,
    kS: real,
    alpha: real,
    smooth: bool,
    wireframe: bool)

  /** An autolab_core RigidTransform: a rotation and a translation, tagged with
      the frame it maps from and the frame it maps to. */
  datatype RigidTransform = RigidTransform(
    rotation: seq<seq<real>>,
    translation: seq<real>,
    fromFrame: string,
    toFrame: string)

  const ObjFrame: string := "obj"
  const WorldFrame: string := "world"

  /** The only frames a scene object accepts for its pose: object to world. */
  predicate IsObjToWorld(t: RigidTransform) {
    t.fromFrame == ObjFrame && t.toFrame == WorldFrame
  }

  /** The constructor's default pose: the identity transform from "obj" to "world". */
  function DefaultPose(): (t: RigidTransform)
    ensures IsObjToWorld(t)
  {
    RigidTransform([[1.0, 0.0, 0.0], [0.0, 1.0, 0.0], [0.0, 0.0, 1.0]], [0.0, 0.0, 0.0], ObjFrame, WorldFrame)
  }

  /** A Python argument, whose class is only known at run time. `isinstance`
      against Trimesh, MaterialProperties or RigidTransform is a test of the tag;
      `OtherValue` stands for an object of any other class (None included). */
  datatype Value =
    | MeshValue(mesh: TriMesh)
    | MaterialValue(material: MaterialProperties)
    | TransformValue(transform: RigidTransform)
    | OtherValue(className: string)
}
