/** Three-component positions (THREE.Vector3), with exact real coordinates. */
module Vectors {
  datatype Vec3 = Vec3(x: real, y: real, z: real)

  const Origin := Vec3(0.0, 0.0, 0.0)
}
