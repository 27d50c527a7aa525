/** Three-component vectors over the reals, standing in for Unity's Vector3,
    and the frame projection both wheel variants use. */
module Vectors {

  datatype Vec3 = Vec3(x: real, y: real, z: real)

  const Zero: Vec3 := Vec3(0.0, 0.0, 0.0)

  function Dot(a: Vec3, b: Vec3): real
  {
    a.x * b.x + a.y * b.y + a.z * b.z
  }

  /** Unity's `vector * scalar`. */
  function Scale(v: Vec3, s: real): Vec3
  {
    Vec3(v.x * s, v.y * s, v.z * s)
  }

  function Add(a: Vec3, b: Vec3): Vec3
  {
    Vec3(a.x + b.x, a.y + b.y, a.z + b.z)
  }

  /** An orientation given by three axes expressed in world space: the
      vessel's transform (up = roll, right = pitch, forward = yaw) or the
      fixed Planetarium frame. */
  datatype Frame = Frame(forward: Vec3, up: Vec3, right: Vec3)

  /** One value per control axis of a wheel: roll, pitch and yaw (pilot
      input, nominal torque, available torque, control torque). */
  datatype Axes = Axes(roll: real, pitch: real, yaw: real)

  const NoAxes: Axes := Axes(0.0, 0.0, 0.0)

  /** The coordinates of `v` along the frame's forward, up and right axes,
      in that order: the (x, y, z) of the momentum stores. */
  function Project(v: Vec3, f: Frame): Vec3
  {
    Vec3(Dot(v, f.forward), Dot(v, f.up), Dot(v, f.right))
  }

  /** Projection is linear in the scale of the projected vector, so scaling
      an axis before projecting it equals scaling its projection. */
  lemma ProjectScale(v: Vec3, s: real, f: Frame)
    ensures Project(Scale(v, s), f) == Scale(Project(v, f), s)
  {
    assert Dot(Scale(v, s), f.forward) == Dot(v, f.forward) * s;
    assert Dot(Scale(v, s), f.up) == Dot(v, f.up) * s;
    assert Dot(Scale(v, s), f.right) == Dot(v, f.right) * s;
  }
}
