/**
 * The few `THREE.Vector3` operations the scene's builders use, on values,
 * and the two kinds of scene object whose fields the per-frame updates
 * change in place: lights and meshes.
 * `addVectors`, `subVectors`, `multiplyScalar` and `normalize` mutate a
 * fresh vector in place in the library; every such vector here is used
 * once, so each becomes a function returning the new value.
 */
module Three {
  import opened JsMath

  datatype Vec3 = Vec3(x: real, y: real, z: real)

  function Add(a: Vec3, b: Vec3): (r: Vec3)
    ensures r.x - a.x == b.x && r.y - a.y == b.y && r.z - a.z == b.z
  {
    Vec3(a.x + b.x, a.y + b.y, a.z + b.z)
  }

  function Sub(a: Vec3, b: Vec3): (r: Vec3)
    ensures Add(r, b) == a
  {
    Vec3(a.x - b.x, a.y - b.y, a.z - b.z)
  }

  function Scale(v: Vec3, s: real): Vec3 {
    Vec3(v.x * s, v.y * s, v.z * s)
  }

  function LengthSquared(v: Vec3): (r: real)
    ensures 0.0 <= r
  {
    Square(v.x) + Square(v.y) + Square(v.z)
  }

  /** `normalize()`: divide by the length, or by 1 when the length is 0. */
  function Normalize(m: Math, v: Vec3): Vec3 {
    var len := m.sqrt(LengthSquared(v));
    Scale(v, 1.0 / (if len == 0.0 then 1.0 else len))
  }

  /** `a.distanceTo(b)`: the square root of the summed squared differences. */
  function DistanceTo(m: Math, a: Vec3, b: Vec3): (r: real)
    ensures Lawful(m) ==> 0.0 <= r
  {
    m.sqrt(LengthSquared(Sub(a, b)))
  }

  /** A component no larger than len in magnitude, divided as `normalize` divides it, lies in [−1, 1]. */
  lemma UnitComponent(c: real, len: real)
    requires Abs(c) <= len
    ensures -1.0 <= c * (1.0 / (if len == 0.0 then 1.0 else len)) <= 1.0
  {
    if len != 0.0 {
      UnitQuotient(c, len);
    }
  }

  lemma UnitQuotient(c: real, len: real)
    requires Abs(c) <= len && len != 0.0
    ensures -1.0 <= c * (1.0 / len) <= 1.0
  {
    var k := 1.0 / len;
    assert len * k == 1.0;
    ProductMonotone(c, len, k);
    ProductMonotone(-len, c, k);
  }

  /** No component of a vector exceeds its length in magnitude. */
  lemma ComponentsWithinLength(v: Vec3, len: real)
    requires 0.0 <= len && len * len == LengthSquared(v)
    ensures Abs(v.x) <= len && Abs(v.y) <= len && Abs(v.z) <= len
  {
    ComponentWithin(v.x, len, Square(v.y) + Square(v.z));
    ComponentWithin(v.y, len, Square(v.x) + Square(v.z));
    ComponentWithin(v.z, len, Square(v.x) + Square(v.y));
  }

  lemma ComponentWithin(c: real, len: real, rest: real)
    requires 0.0 <= len && 0.0 <= rest && len * len == Square(c) + rest
    ensures Abs(c) <= len
  {
    SquareOrder(Abs(c), len);
    assert Abs(c) * Abs(c) == c * c;
  }

  /** A vector of length len, scaled as `normalize` scales it, has every component in [−1, 1]. */
  lemma ScaledUnit(v: Vec3, len: real)
    requires Abs(v.x) <= len && Abs(v.y) <= len && Abs(v.z) <= len
    ensures var n := Scale(v, 1.0 / (if len == 0.0 then 1.0 else len));
      -1.0 <= n.x <= 1.0 && -1.0 <= n.y <= 1.0 && -1.0 <= n.z <= 1.0
  {
    UnitComponent(v.x, len);
    UnitComponent(v.y, len);
    UnitComponent(v.z, len);
  }

  /** The length `normalize` divides by, under a lawful square root. */
  lemma LengthOf(m: Math, v: Vec3)
    requires Lawful(m)
    ensures 0.0 <= m.sqrt(LengthSquared(v)) && m.sqrt(LengthSquared(v)) * m.sqrt(LengthSquared(v)) == LengthSquared(v)
  {
  }

  /** Every component of a normalised vector lies in [−1, 1], including the zero vector's. */
  lemma NormalizeBounded(m: Math, v: Vec3)
    requires Lawful(m)
    ensures var n := Normalize(m, v);
      -1.0 <= n.x <= 1.0 && -1.0 <= n.y <= 1.0 && -1.0 <= n.z <= 1.0
  {
    LengthOf(m, v);
    ComponentsWithinLength(v, m.sqrt(LengthSquared(v)));
    ScaledUnit(v, m.sqrt(LengthSquared(v)));
  }

  /** A light's mutable state: position, (sky) colour as a hex number, intensity. */
  class Light {
    var position: Vec3
    var color: int
    var intensity: real

    constructor (color: int, intensity: real, position: Vec3)
      ensures this.color == color && this.intensity == intensity && this.position == position
    {
      this.color := color;
      this.intensity := intensity;
      this.position := position;
    }
  }

  /** A mesh (or point cloud) as the scene updates it: position, material opacity and visibility. */
  class Mesh {
    var position: Vec3
    var opacity: real
    var visible: bool

    constructor (position: Vec3, opacity: real)
      ensures this.position == position && this.opacity == opacity && visible
    {
      this.position := position;
      this.opacity := opacity;
      this.visible := true;
    }
  }
}
