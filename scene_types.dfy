/** Value types shared by the track importer and the label generator:
    ground-plane points, 3D vectors, camera poses, the objects of the
    `cone_track` collection, and the floating-point library functions that
    both scripts call but that this model leaves uninterpreted. */
module SceneTypes {

  /** An (x, y) point, or a difference of two points, in the track plane. */
  datatype Point2 = Point2(x: real, y: real)

  /** A 3D location, or an XYZ Euler rotation in radians. */
  datatype Vec3 = Vec3(x: real, y: real, z: real)

  /** What the lidar camera stores per keyframe: location and rotation_euler. */
  datatype Pose = Pose(location: Vec3, rotation: Vec3)

  /** An object of the `cone_track` collection, as seen by both scripts:
      its unique name and its location. */
  datatype SceneObject = SceneObject(name: string, location: Vec3)

  /** `math.atan2`, `math.cos` and `math.sin`. Their numeric behaviour is not
      modelled: every fact that depends on it is a lemma with explicit
      hypotheses about these functions. */
  datatype Trig = Trig(atan2: (real, real) -> real, cos: real -> real, sin: real -> real)

  /** `math.pi`, written with the digits of its shortest decimal form. */
  const PI: real := 3.141592653589793
}
