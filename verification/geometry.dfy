/** Positions, sizes and the axis-aligned overlap test the movement systems rely on.

    Coordinates are unbounded whole numbers. Every displacement the game applies (3
    and 5 units) and every value the level setup uses is whole, so the arithmetic
    matches 32-bit floats exactly while every coordinate stays below 2^24 in
    magnitude; beyond that rounding changes or cancels a step, which is not modelled.
 */
module Geometry {

  /** A point, a displacement or a size in the engine's 3-D space. */
  datatype Vec3 = Vec3(x: int, y: int, z: int)

  /** The zero displacement. */
  const Zero := Vec3(0, 0, 0)

  function Add(a: Vec3, b: Vec3): Vec3 {
    Vec3(a.x + b.x, a.y + b.y, a.z + b.z)
  }

  function Neg(a: Vec3): Vec3 {
    Vec3(-a.x, -a.y, -a.z)
  }

  /** `k` copies of the displacement `v`, added together. */
  function Times(k: nat, v: Vec3): Vec3 {
    Vec3(k * v.x, k * v.y, k * v.z)
  }

  /** One more copy is one more addition. */
  lemma TimesSucc(k: nat, v: Vec3)
    ensures Times(k + 1, v) == Add(Times(k, v), v)
  {
  }

  /** The part of an entity's transform the movement systems read or write:
      `translation` is the box centre, `scale` its full size. Rotation is never read. */
  datatype Transform = Transform(translation: Vec3, scale: Vec3)

  /** Open-interval overlap of two extents along one axis. Each box reaches `size/2`
      on either side of its centre; both sides of every comparison are doubled so the
      half stays whole: `min1 < max2 && max1 > min2`. */
  predicate Overlap1(c1: int, size1: int, c2: int, size2: int) {
    2 * c1 - size1 < 2 * c2 + size2 && 2 * c1 + size1 > 2 * c2 - size2
  }

  /** The engine's box-collision query, as it is assumed to behave: the two boxes
      overlap strictly on x and on y; the z parts of both centres and sizes are dropped. */
  predicate IsCollide(translation1: Vec3, scale1: Vec3, t2: Transform) {
    Overlap1(translation1.x, scale1.x, t2.translation.x, t2.scale.x) &&
    Overlap1(translation1.y, scale1.y, t2.translation.y, t2.scale.y)
  }

  /** The doubled-integer test is the engine's test with real half-extents `size/2`. */
  lemma Overlap1IsHalfExtentOverlap(c1: int, size1: int, c2: int, size2: int)
    ensures Overlap1(c1, size1, c2, size2) <==>
      (c1 as real - size1 as real / 2.0 < c2 as real + size2 as real / 2.0 &&
       c1 as real + size1 as real / 2.0 > c2 as real - size2 as real / 2.0)
  {
  }

  /** Only x and y take part in a collision: replacing the z components of the
      moving box's centre and size and of the obstacle's transform changes nothing. */
  lemma IsCollideIgnoresZ(p: Vec3, s: Vec3, t: Transform, pz: int, sz: int, tz: int, tsz: int)
    ensures IsCollide(p, s, t) <==>
      IsCollide(p.(z := pz), s.(z := sz),
                Transform(t.translation.(z := tz), t.scale.(z := tsz)))
  {
  }
}
