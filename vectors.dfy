/** Points and displacements in world units, and the physics constants of the player. */
module Vectors {

  /** A 3D point or displacement, with exact real coordinates. */
  datatype Vec3 = Vec3(x: real, y: real, z: real)

  /** Component-wise sum: a point moved by a displacement. */
  function Add(p: Vec3, d: Vec3): (q: Vec3) {
    Vec3(p.x + d.x, p.y + d.y, p.z + d.z)
  }

  /** A displacement scaled by a speed. */
  function Scale(d: Vec3, k: real): (e: Vec3) {
    Vec3(d.x * k, d.y * k, d.z * k)
  }

  function Abs(r: real): (a: real) {
    if r < 0.0 then -r else r
  }

  /** Height of the player's vertical extent. */
  const PlayerHeight: real := 1.8
  /** Horizontal half-width of the player. */
  const PlayerRadius: real := 0.3
  /** Half the edge of a unit-cube block. */
  const HalfBlock: real := 0.5
  /** Change of vertical velocity per tick. */
  const Gravity: real := -0.01
  /** Vertical velocity given by a jump. */
  const JumpSpeed: real := 0.2
  /** Distance kept below a block after a head strike. */
  const HeadGap: real := 0.01
  /** Vertical slack at both ends of the collision band. */
  const StandTolerance: real := 0.1
  /** Horizontal speed per tick for a held movement key. */
  const Speed: real := 0.1

  /** Minkowski reach: half a block plus the player radius. */
  const Reach: real := HalfBlock + PlayerRadius
}
