/**
 * The terrain of the park (the `Ground` component).
 *
 * The height of the ground at a point (x, z) is built in a fixed order: a
 * three-octave trigonometric noise, amplified by 3 and damped by an edge
 * falloff and a path mask; then four radial hills are added; then three water
 * areas pull the height towards their depth, in list order.  `Height` is that
 * function; `TerrainHeight` computes it step by step as the vertex loop does,
 * and `ShapeTerrain` is the vertex loop itself, over the flat position buffer.
 *
 * The second half is the rejection sampler that places grass, flower and dirt
 * patches away from the water and the paths.
 */
module Ground {
  import opened JsMath

  /** `groundSize`: the side of the ground plane. */
  const GroundSize: real := 200.0

  /** The radius at which the edge falloff reaches zero (`groundSize * 0.45`). */
  const FalloffRadius: real := GroundSize * 0.45

  /** The factor the code uses for 1/√2 when measuring distance to a diagonal. */
  const Diagonal: real := 0.7071

  // ---------------------------------------------------------------------
  // Noise
  // ---------------------------------------------------------------------

  /** One octave of noise at frequency f: sin(x·f)·cos(z·f) + cos(x·f)·sin(z·f). */
  function Octave(m: Math, x: real, z: real, f: real): (r: real)
    requires Lawful(m)
    ensures -2.0 <= r <= 2.0
  {
    ProductBound(m.sin(x * f), m.cos(z * f));
    ProductBound(m.cos(x * f), m.sin(z * f));
    m.sin(x * f) * m.cos(z * f) + m.cos(x * f) * m.sin(z * f)
  }

  /**
   * `createSmoothNoise`, term by term as the code writes it: the second and
   * third octaves carry an extra factor 0.5 and 0.25 before being weighted.
   */
  function SmoothNoise(m: Math, x: real, z: real): real
    requires Lawful(m)
  {
    var scale1, scale2, scale3 := 0.015, 0.03, 0.08;
    var nx1 := m.sin(x * scale1) * m.cos(z * scale1);
    var nz1 := m.cos(x * scale1) * m.sin(z * scale1);
    var nx2 := m.sin(x * scale2) * m.cos(z * scale2) * 0.5;
    var nz2 := m.cos(x * scale2) * m.sin(z * scale2) * 0.5;
    var nx3 := m.sin(x * scale3) * m.cos(z * scale3) * 0.25;
    var nz3 := m.cos(x * scale3) * m.sin(z * scale3) * 0.25;
    (nx1 + nz1) * 0.6 + (nx2 + nz2) * 0.3 + (nx3 + nz3) * 0.1
  }

  /** The octaves are effectively weighted 0.6, 0.15 and 0.025. */
  lemma NoiseEffectiveWeights(m: Math, x: real, z: real)
    requires Lawful(m)
    ensures SmoothNoise(m, x, z)
         == 0.6 * Octave(m, x, z, 0.015) + 0.15 * Octave(m, x, z, 0.03) + 0.025 * Octave(m, x, z, 0.08)
  {
  }

  /** Hence the noise never exceeds 0.6·2 + 0.15·2 + 0.025·2 = 1.55 in magnitude. */
  lemma NoiseBound(m: Math, x: real, z: real)
    requires Lawful(m)
    ensures -1.55 <= SmoothNoise(m, x, z) <= 1.55
  {
    NoiseEffectiveWeights(m, x, z);
  }

  // ---------------------------------------------------------------------
  // Edge falloff and path mask
  // ---------------------------------------------------------------------

  /** max(0, 1 − (d / 90)⁴) where d is the distance from the origin. */
  function EdgeFalloff(m: Math, x: real, z: real): (r: real)
    requires Lawful(m)
    ensures 0.0 <= r <= 1.0
  {
    var distFromCenter := m.sqrt(x * x + z * z);
    Max(0.0, 1.0 - Square(Square(distFromCenter / FalloffRadius)))
  }

  /** The falloff is zero exactly at and beyond 90 from the origin. */
  lemma EdgeFalloffVanishes(m: Math, x: real, z: real)
    requires Lawful(m)
    ensures EdgeFalloff(m, x, z) == 0.0 <==> x * x + z * z >= FalloffRadius * FalloffRadius
  {
    var v := x * x + z * z;
    assert 0.0 <= v by { assert x * x == Square(x) && z * z == Square(z); }
    var d := m.sqrt(v);
    var u := d / FalloffRadius;
    assert 0.0 <= u;
    SquareOrder(1.0, Square(u));
    SquareOrder(1.0, u);
    SquareOrder(FalloffRadius, d);
  }

  /** Points on the x axis, the z axis or one of the two diagonals. */
  predicate OnPathLine(x: real, z: real) {
    x == 0.0 || z == 0.0 || x == z || x == -z
  }

  /** The distance used for the path mask: the least of |x|, |z| and the two diagonal distances. */
  function PathDistance(x: real, z: real): (r: real)
    ensures 0.0 <= r
    ensures r == 0.0 <==> OnPathLine(x, z)
    ensures r <= Abs(x) && r <= Abs(z)
  {
    var distFromPath := Min(Abs(x), Abs(z));
    var distFromDiagonal1 := Abs(x - z) * Diagonal;
    var distFromDiagonal2 := Abs(x + z) * Diagonal;
    Min(distFromPath, Min(distFromDiagonal1, distFromDiagonal2))
  }

  /** min(1, pathDist / 8): zero on a path line, one from 8 away. */
  function PathInfluence(x: real, z: real): (r: real)
    ensures 0.0 <= r <= 1.0
    ensures r == 0.0 <==> OnPathLine(x, z)
    ensures PathDistance(x, z) >= 8.0 ==> r == 1.0
  {
    Min(1.0, PathDistance(x, z) / 8.0)
  }

  /** The noise part of the height: noise · 3, then multiplied by falloff · path influence. */
  function NoiseTerm(m: Math, x: real, z: real): real
    requires Lawful(m)
  {
    Attenuate(SmoothNoise(m, x, z), EdgeFalloff(m, x, z), PathInfluence(x, z))
  }

  /** height = noise · 3; height *= edgeFalloff · pathInfluence. */
  function Attenuate(noise: real, edgeFalloff: real, pathInfluence: real): real {
    var height := noise * 3.0;
    height * (edgeFalloff * pathInfluence)
  }

  /** The noise part is bounded by 3 · 1.55 = 4.65. */
  lemma NoiseTermBound(m: Math, x: real, z: real)
    requires Lawful(m)
    ensures -4.65 <= NoiseTerm(m, x, z) <= 4.65
  {
    NoiseBound(m, x, z);
    AttenuateBound(SmoothNoise(m, x, z), EdgeFalloff(m, x, z), PathInfluence(x, z));
  }

  /** Two weights in [0, 1] can only shrink a noise value of magnitude at most 1.55 times 3. */
  lemma AttenuateBound(noise: real, edgeFalloff: real, pathInfluence: real)
    requires -1.55 <= noise <= 1.55
    requires 0.0 <= edgeFalloff <= 1.0 && 0.0 <= pathInfluence <= 1.0
    ensures -4.65 <= Attenuate(noise, edgeFalloff, pathInfluence) <= 4.65
  {
    var w := edgeFalloff * pathInfluence;
    FractionOf(edgeFalloff, pathInfluence);
    ScaledWithin(noise * 3.0, w, 4.65);
  }

  /** The noise is flattened away on every path line and beyond the falloff radius. */
  lemma NoiseTermVanishes(m: Math, x: real, z: real)
    requires Lawful(m)
    requires OnPathLine(x, z) || x * x + z * z >= FalloffRadius * FalloffRadius
    ensures NoiseTerm(m, x, z) == 0.0
  {
    EdgeFalloffVanishes(m, x, z);
  }

  // ---------------------------------------------------------------------
  // Hills and water areas
  // ---------------------------------------------------------------------

  /**
   * max(0, 1 − dist / radius) for a point offset (dx, dz) from a centre: the
   * influence both a hill and a water area have on a point.
   */
  function RadialInfluence(m: Math, dx: real, dz: real, radius: real): (r: real)
    requires Lawful(m) && 0.0 < radius
    ensures 0.0 <= r <= 1.0
  {
    var dist := m.sqrt(Square(dx) + Square(dz));
    assert 0.0 <= dist / radius;
    Max(0.0, 1.0 - dist / radius)
  }

  /** The influence is 1 at the centre and 0 exactly at and beyond the radius. */
  lemma RadialInfluenceShape(m: Math, dx: real, dz: real, radius: real)
    requires Lawful(m) && 0.0 < radius
    ensures dx == 0.0 && dz == 0.0 ==> RadialInfluence(m, dx, dz, radius) == 1.0
    ensures RadialInfluence(m, dx, dz, radius) == 0.0 <==> Square(dx) + Square(dz) >= radius * radius
  {
    var v := Square(dx) + Square(dz);
    var dist := m.sqrt(v);
    if dx == 0.0 && dz == 0.0 {
      SqrtOfSquare(m, 0.0);
    }
    assert dist / radius * radius == dist;
    assert 1.0 <= dist / radius <==> radius <= dist;
    SquareOrder(radius, dist);
  }

  datatype Hill = Hill(x: real, z: real, height: real, radius: real)

  /** The four hills, in the order they are added. */
  const Hills: seq<Hill> := [
    Hill(-20.0, 15.0, 3.0, 10.0),
    Hill(25.0, -25.0, 2.5, 12.0),
    Hill(-30.0, -20.0, 2.0, 8.0),
    Hill(18.0, 22.0, 2.8, 9.0)
  ]

  /** `addHill`: hillHeight · influence². */
  function AddHill(m: Math, x: real, z: real, hill: Hill): real
    requires Lawful(m) && 0.0 < hill.radius
  {
    var hillInfluence := RadialInfluence(m, x - hill.x, z - hill.z, hill.radius);
    hill.height * Square(hillInfluence)
  }

  /**
   * A hill of non-negative height adds between 0 and its height, all of its
   * height at the centre and nothing at or beyond its radius.
   */
  lemma AddHillShape(m: Math, x: real, z: real, hill: Hill)
    requires Lawful(m) && 0.0 < hill.radius
    ensures 0.0 <= hill.height ==> 0.0 <= AddHill(m, x, z, hill) <= hill.height
    ensures x == hill.x && z == hill.z ==> AddHill(m, x, z, hill) == hill.height
    ensures Square(x - hill.x) + Square(z - hill.z) >= hill.radius * hill.radius ==> AddHill(m, x, z, hill) == 0.0
  {
    var f := RadialInfluence(m, x - hill.x, z - hill.z, hill.radius);
    RadialInfluenceShape(m, x - hill.x, z - hill.z, hill.radius);
    ProductMonotone(f, 1.0, f);
    if 0.0 <= hill.height {
      ProductMonotone(Square(f), 1.0, hill.height);
    }
  }

  /** The four `height += addHill(...)` steps. */
  function HillTerms(m: Math, x: real, z: real): real
    requires Lawful(m)
  {
    AddHill(m, x, z, Hills[0]) + AddHill(m, x, z, Hills[1])
      + AddHill(m, x, z, Hills[2]) + AddHill(m, x, z, Hills[3])
  }

  /** All listed hills have positive height, so together they only ever raise the ground, by at most 10.3. */
  lemma HillTermsBound(m: Math, x: real, z: real)
    requires Lawful(m)
    ensures 0.0 <= HillTerms(m, x, z) <= 10.3
  {
    AddHillShape(m, x, z, Hills[0]);
    AddHillShape(m, x, z, Hills[1]);
    AddHillShape(m, x, z, Hills[2]);
    AddHillShape(m, x, z, Hills[3]);
  }

  datatype WaterArea = WaterArea(x: real, z: real, radius: real, depth: real)

  /** The three water areas, in the order the loop visits them. */
  const WaterAreas: seq<WaterArea> := [
    WaterArea(-25.0, -20.0, 8.0, -0.3),
    WaterArea(25.0, 25.0, 10.0, -0.4),
    WaterArea(0.0, 0.0, 3.0, -0.5)
  ]

  function WaterInfluence(m: Math, x: real, z: real, area: WaterArea): (r: real)
    requires Lawful(m) && 0.0 < area.radius
    ensures 0.0 <= r <= 1.0
  {
    RadialInfluence(m, x - area.x, z - area.z, area.radius)
  }

  /**
   * One pass of the water loop: with influence f > 0 the height becomes the
   * convex blend height·(1 − f²) + depth·f²; with f = 0 it is left alone.
   */
  function BlendWater(m: Math, height: real, x: real, z: real, area: WaterArea): (r: real)
    requires Lawful(m) && 0.0 < area.radius
    ensures WaterInfluence(m, x, z, area) == 0.0 ==> r == height
    ensures Min(height, area.depth) <= r <= Max(height, area.depth)
    ensures x == area.x && z == area.z ==> r == area.depth
  {
    var waterInfluence := WaterInfluence(m, x, z, area);
    RadialInfluenceShape(m, x - area.x, z - area.z, area.radius);
    if waterInfluence > 0.0 then
      var depressionFactor := Square(waterInfluence);
      LerpBetween(height, area.depth, depressionFactor);
      Lerp(height, area.depth, depressionFactor)
    else
      height
  }

  /**
   * The running height of the vertex loop after the noise, the four hills
   * and the first n water areas, in list order.
   */
  function HeightAfter(m: Math, x: real, z: real, n: nat): real
    requires Lawful(m) && n <= |WaterAreas|
    decreases n
  {
    if n == 0 then NoiseTerm(m, x, z) + HillTerms(m, x, z)
    else BlendWater(m, HeightAfter(m, x, z, n - 1), x, z, WaterAreas[n - 1])
  }

  /** `height(x, z)`: noise, hills, then all the water areas. */
  function Height(m: Math, x: real, z: real): real
    requires Lawful(m)
  {
    HeightAfter(m, x, z, |WaterAreas|)
  }

  /**
   * At the centre of area k the height is that area's depth, whatever came
   * before, as long as no later area reaches the point: the last area to
   * touch a point wins, rather than the deepest.
   */
  lemma {:induction false} CentreTakesDepth(m: Math, x: real, z: real, n: nat, k: nat)
    requires Lawful(m) && k < n <= |WaterAreas|
    requires x == WaterAreas[k].x && z == WaterAreas[k].z
    requires forall j :: k < j < n ==> WaterInfluence(m, x, z, WaterAreas[j]) == 0.0
    ensures HeightAfter(m, x, z, n) == WaterAreas[k].depth
    decreases n
  {
    if k < n - 1 {
      CentreTakesDepth(m, x, z, n - 1, k);
    }
  }

  /** A point whose squared distance from an area's centre is at least the squared radius gets no influence from that area. */
  lemma OutsideArea(m: Math, x: real, z: real, area: WaterArea, dist2: real)
    requires Lawful(m) && 0.0 < area.radius
    requires dist2 == Square(x - area.x) + Square(z - area.z) && area.radius * area.radius <= dist2
    ensures WaterInfluence(m, x, z, area) == 0.0
  {
    RadialInfluenceShape(m, x - area.x, z - area.z, area.radius);
  }

  /** At the centre of the first water area (-25, -20) the terrain sits at its depth, -0.3. */
  lemma FirstWaterCentreAtDepth(m: Math)
    requires Lawful(m)
    ensures Height(m, -25.0, -20.0) == -0.3
  {
    OutsideArea(m, -25.0, -20.0, WaterAreas[1], 4525.0);
    OutsideArea(m, -25.0, -20.0, WaterAreas[2], 1025.0);
    CentreTakesDepth(m, -25.0, -20.0, 3, 0);
  }

  /** At the centre of the second water area (25, 25) the terrain sits at its depth, -0.4. */
  lemma SecondWaterCentreAtDepth(m: Math)
    requires Lawful(m)
    ensures Height(m, 25.0, 25.0) == -0.4
  {
    OutsideArea(m, 25.0, 25.0, WaterAreas[2], 1250.0);
    CentreTakesDepth(m, 25.0, 25.0, 3, 1);
  }

  /** At the centre of the third water area, the origin, the terrain sits at its depth, -0.5. */
  lemma ThirdWaterCentreAtDepth(m: Math)
    requires Lawful(m)
    ensures Height(m, 0.0, 0.0) == -0.5
  {
    CentreTakesDepth(m, 0.0, 0.0, 3, 2);
  }

  /**
   * The body of the vertex loop for one vertex: the running `height` is
   * reassigned through the noise, the four hills and the water-area loop.
   */
  method TerrainHeight(m: Math, x: real, z: real) returns (height: real)
    requires Lawful(m)
    ensures height == Height(m, x, z)
  {
    height := NoiseTerm(m, x, z);
    height := height + AddHill(m, x, z, Hills[0]);
    height := height + AddHill(m, x, z, Hills[1]);
    height := height + AddHill(m, x, z, Hills[2]);
    height := height + AddHill(m, x, z, Hills[3]);
    assert height == HeightAfter(m, x, z, 0);
    var areas := WaterAreas;
    var k := 0;
    while k < |areas|
      invariant 0 <= k <= |areas|
      invariant height == HeightAfter(m, x, z, k)
    {
      var area := areas[k];
      ghost var before := height;
      var waterInfluence := WaterInfluence(m, x, z, area);
      if waterInfluence > 0.0 {
        var depressionFactor := Square(waterInfluence);
        height := Lerp(height, area.depth, depressionFactor);
      }
      assert height == BlendWater(m, before, x, z, area);
      k := k + 1;
    }
  }

  /** `Height` as a function value, the form in which the vertex-loop specification takes it. */
  ghost function HeightMap(m: Math): (real, real) -> real {
    (x, z) => if Lawful(m) then Height(m, x, z) else 0.0
  }

  /**
   * A position buffer after a vertex loop that writes `height(x, z)`:
   * triple by triple, the middle component is replaced by the height at
   * (first, third); an incomplete last triple is left alone.
   */
  ghost function Shaped(height: (real, real) -> real, s: seq<real>): (r: seq<real>)
    ensures |r| == |s|
    decreases |s|
  {
    if |s| < 3 then s
    else [s[0], height(s[0], s[2]), s[2]] + Shaped(height, s[3..])
  }

  /**
   * Triple k of the shaped buffer: x (component 3k) and z (component 3k + 2)
   * are kept, and component 3k + 1 becomes the height at (x, z).
   */
  lemma {:induction false} ShapedTriple(height: (real, real) -> real, s: seq<real>, k: nat)
    requires 3 * k + 2 < |s|
    ensures Shaped(height, s)[3 * k] == s[3 * k]
    ensures Shaped(height, s)[3 * k + 1] == height(s[3 * k], s[3 * k + 2])
    ensures Shaped(height, s)[3 * k + 2] == s[3 * k + 2]
    decreases k
  {
    if k > 0 {
      ShapedTriple(height, s[3..], k - 1);
    }
  }

  /** Shaping whole triples and then one more triple (x, y, z). */
  lemma {:induction false} ShapedAppend(height: (real, real) -> real, s: seq<real>, t: nat, x: real, y: real, z: real)
    requires |s| == 3 * t
    ensures Shaped(height, s + [x, y, z]) == Shaped(height, s) + [x, height(x, z), z]
    decreases t
  {
    if t > 0 {
      assert (s + [x, y, z])[3..] == s[3..] + [x, y, z];
      ShapedAppend(height, s[3..], t - 1, x, y, z);
    }
  }

  /**
   * The vertex loop of `createDetailedGround`: for each triple starting at
   * i, x is read from component i and z from component i + 2, and only
   * component i + 1 is written, with the terrain height at (x, z).
   */
  method ShapeTerrain(m: Math, vertices: array<real>)
    requires Lawful(m)
    requires vertices.Length % 3 == 0
    modifies vertices
    ensures vertices[..] == Shaped(HeightMap(m), old(vertices[..]))
  {
    ghost var original := vertices[..];
    ghost var n := vertices.Length / 3;
    ghost var t := 0;
    var i := 0;
    while i < vertices.Length
      invariant 0 <= t <= n && i == 3 * t && vertices.Length == 3 * n
      invariant vertices[..] == Shaped(HeightMap(m), original[..i]) + original[i..]
    {
      ShapeVertex(m, vertices, i, original, t);
      i := i + 3;
      t := t + 1;
    }
    assert original[..i] == original;
  }

  /** One turn of the vertex loop: read x and z, write the height between them. */
  method ShapeVertex(m: Math, vertices: array<real>, i: nat, ghost original: seq<real>, ghost t: nat)
    requires Lawful(m)
    requires i == 3 * t && i + 3 <= vertices.Length == |original|
    requires vertices[..] == Shaped(HeightMap(m), original[..i]) + original[i..]
    modifies vertices
    ensures vertices[..] == Shaped(HeightMap(m), original[..i + 3]) + original[i + 3..]
  {
    var x := vertices[i];
    var z := vertices[i + 2];
    var height := TerrainHeight(m, x, z);
    vertices[i + 1] := height;
    ShapedStep(HeightMap(m), original, t, height);
  }

  /** One turn of the vertex loop extends the shaped prefix by one triple. */
  lemma ShapedStep(height: (real, real) -> real, s: seq<real>, t: nat, y: real)
    requires 3 * t + 3 <= |s|
    requires y == height(s[3 * t], s[3 * t + 2])
    ensures (Shaped(height, s[..3 * t]) + s[3 * t..])[3 * t + 1 := y] == Shaped(height, s[..3 * t + 3]) + s[3 * t + 3..]
  {
    var i := 3 * t;
    assert s[..i + 3] == s[..i] + [s[i], s[i + 1], s[i + 2]];
    ShapedAppend(height, s[..i], t, s[i], s[i + 1], s[i + 2]);
  }

  // ---------------------------------------------------------------------
  // Ground patches
  // ---------------------------------------------------------------------

  /** How many samples a patch may draw before it is given up. */
  const MaxPatchAttempts: nat := 20

  datatype Circle = Circle(x: real, z: real, radius: real)

  /** The water exclusion circles of the patch sampler (wider than the water areas). */
  const PatchExclusions: seq<Circle> := [
    Circle(-25.0, -20.0, 10.0),
    Circle(25.0, 25.0, 12.0),
    Circle(0.0, 0.0, 5.0)
  ]

  predicate InsideCircle(m: Math, x: real, z: real, c: Circle) {
    m.sqrt(Square(x - c.x) + Square(z - c.z)) < c.radius
  }

  /** `nearWater`: some exclusion circle contains the point. */
  predicate NearWater(m: Math, x: real, z: real) {
    exists k :: 0 <= k < |PatchExclusions| && InsideCircle(m, x, z, PatchExclusions[k])
  }

  /** `nearPath`: closer than 5 to an axis or a diagonal. */
  predicate NearPath(x: real, z: real) {
    PathDistance(x, z) < 5.0
  }

  predicate PatchSpotValid(m: Math, x: real, z: real) {
    !NearWater(m, x, z) && !NearPath(x, z)
  }

  /** Without square roots: a point is near water iff its squared distance to some centre is below the squared radius. */
  lemma NearWaterSquared(m: Math, x: real, z: real)
    requires Lawful(m)
    ensures NearWater(m, x, z) <==>
      exists k :: 0 <= k < |PatchExclusions| &&
        Square(x - PatchExclusions[k].x) + Square(z - PatchExclusions[k].z) < Square(PatchExclusions[k].radius)
  {
    forall k | 0 <= k < |PatchExclusions|
      ensures InsideCircle(m, x, z, PatchExclusions[k]) <==>
        Square(x - PatchExclusions[k].x) + Square(z - PatchExclusions[k].z) < Square(PatchExclusions[k].radius)
    {
      var c := PatchExclusions[k];
      var v := Square(x - c.x) + Square(z - c.z);
      SquareOrder(m.sqrt(v), c.radius);
    }
  }

  /** A valid spot is never on a path line, in particular never on the axes. */
  lemma ValidSpotOffPaths(m: Math, x: real, z: real)
    requires PatchSpotValid(m, x, z)
    ensures 5.0 <= Abs(x) && 5.0 <= Abs(z) && !OnPathLine(x, z)
  {
  }

  /** A coordinate sample, (Math.random() − 0.5) · 80. */
  function SampleCoord(draw: real): (r: real)
    ensures 0.0 <= draw < 1.0 ==> -40.0 <= r < 40.0
  {
    (draw - 0.5) * 80.0
  }

  datatype PatchType = PatchType(count: nat, heightOffset: real, scaleMin: real, scaleMax: real)

  /** Dense grass, flowers and dirt. */
  const PatchTypes: seq<PatchType> := [
    PatchType(20, 0.02, 1.0, 2.0),
    PatchType(15, 0.04, 0.8, 1.5),
    PatchType(12, 0.01, 0.7, 1.8)
  ]

  datatype Patch = Patch(x: real, y: real, z: real, scale: real)

  /** The spot drawn by attempt a of a sampler starting at `cursor`: x then z. */
  function AttemptX(rand: nat -> real, cursor: nat, a: nat): real {
    SampleCoord(rand(cursor + 2 * a))
  }

  function AttemptZ(rand: nat -> real, cursor: nat, a: nat): real {
    SampleCoord(rand(cursor + 2 * a + 1))
  }

  predicate AttemptValid(m: Math, rand: nat -> real, cursor: nat, a: nat) {
    PatchSpotValid(m, AttemptX(rand, cursor, a), AttemptZ(rand, cursor, a))
  }

  /**
   * The `while (!validPosition && attempts < 20)` sampler for one patch. A
   * patch is placed iff one of the 20 attempts is valid; it is placed at the
   * first valid attempt, and its scale uses the draw after that attempt.
   */
  method PlacePatch(m: Math, rand: nat -> real, cursor: nat, patchType: PatchType)
    returns (patch: Option<Patch>, next: nat)
    ensures patch.None? ==>
              next == cursor + 2 * MaxPatchAttempts &&
              forall a :: 0 <= a < MaxPatchAttempts ==> !AttemptValid(m, rand, cursor, a)
    ensures patch.Some? ==>
              exists a :: 0 <= a < MaxPatchAttempts && AttemptValid(m, rand, cursor, a) &&
                (forall b :: 0 <= b < a ==> !AttemptValid(m, rand, cursor, b)) &&
                next == cursor + 2 * a + 3 &&
                patch.value == Patch(AttemptX(rand, cursor, a), patchType.heightOffset, AttemptZ(rand, cursor, a),
                                     patchType.scaleMin + rand(cursor + 2 * a + 2) * (patchType.scaleMax - patchType.scaleMin))
  {
    var validPosition, x, z, attempts := FindSpot(m, rand, cursor);
    next := cursor + 2 * attempts;
    if validPosition {
      var scale := patchType.scaleMin + rand(next) * (patchType.scaleMax - patchType.scaleMin);
      next := next + 1;
      patch := Some(Patch(x, patchType.heightOffset, z, scale));
      assert next == cursor + 2 * (attempts - 1) + 3;
    } else {
      patch := None;
    }
  }

  /**
   * The attempt loop of the sampler: it stops at the first valid attempt or
   * after 20 attempts, having drawn two numbers per attempt.
   */
  method FindSpot(m: Math, rand: nat -> real, cursor: nat)
    returns (validPosition: bool, x: real, z: real, attempts: nat)
    ensures 0 <= attempts <= MaxPatchAttempts
    ensures !validPosition ==> attempts == MaxPatchAttempts
    ensures validPosition ==> 0 < attempts && AttemptValid(m, rand, cursor, attempts - 1) &&
                              x == AttemptX(rand, cursor, attempts - 1) && z == AttemptZ(rand, cursor, attempts - 1)
    ensures forall b :: 0 <= b < attempts - (if validPosition then 1 else 0) ==> !AttemptValid(m, rand, cursor, b)
  {
    validPosition := false;
    x, z := 0.0, 0.0;
    attempts := 0;
    while !validPosition && attempts < MaxPatchAttempts
      invariant 0 <= attempts <= MaxPatchAttempts
      invariant forall b :: 0 <= b < attempts - (if validPosition then 1 else 0) ==> !AttemptValid(m, rand, cursor, b)
      invariant validPosition ==> 0 < attempts && AttemptValid(m, rand, cursor, attempts - 1) &&
                                  x == AttemptX(rand, cursor, attempts - 1) && z == AttemptZ(rand, cursor, attempts - 1)
    {
      x, z, validPosition := TrySpot(m, rand, cursor, attempts);
      attempts := attempts + 1;
    }
  }

  /** One attempt of the sampler: draw x and z, then test `nearWater` and `nearPath`. */
  method TrySpot(m: Math, rand: nat -> real, cursor: nat, a: nat) returns (x: real, z: real, valid: bool)
    ensures x == AttemptX(rand, cursor, a) && z == AttemptZ(rand, cursor, a)
    ensures valid == AttemptValid(m, rand, cursor, a)
  {
    x := SampleCoord(rand(cursor + 2 * a));
    z := SampleCoord(rand(cursor + 2 * a + 1));
    var nearWater := NearWater(m, x, z);
    var nearPath := PathDistance(x, z) < 5.0;
    valid := !nearWater && !nearPath;
  }

  /** A placed patch of a given type, as `addGroundPatches` adds it to the group. */
  datatype PlacedPatch = PlacedPatch(kind: nat, patch: Patch)

  /**
   * `addGroundPatches`: every patch type in order, `count` tries each. Every
   * placed patch is at a valid spot, at its type's height, with a scale in
   * its type's range, and there are at most 20 + 15 + 12 of them.
   */
  method AddGroundPatches(m: Math, rand: nat -> real, cursor: nat)
    returns (patches: seq<PlacedPatch>, next: nat)
    requires UnitDraws(rand)
    ensures |patches| <= 47
    ensures forall k :: 0 <= k < |patches| ==> PlacedOk(m, patches[k])
  {
    patches := [];
    next := cursor;
    var t := 0;
    ghost var tried := 0;
    while t < |PatchTypes|
      invariant 0 <= t <= |PatchTypes|
      invariant tried == (if t == 0 then 0 else if t == 1 then 20 else if t == 2 then 35 else 47)
      invariant |patches| <= tried
      invariant forall k :: 0 <= k < |patches| ==> PlacedOk(m, patches[k])
    {
      var patchType := PatchTypes[t];
      var i := 0;
      while i < patchType.count
        invariant 0 <= i <= patchType.count
        invariant |patches| <= tried + i
        invariant forall k :: 0 <= k < |patches| ==> PlacedOk(m, patches[k])
      {
        var placed;
        placed, next := PlacePatch(m, rand, next, patchType);
        if placed.Some? {
          var p := placed.value;
          ProductMonotone(0.0, rand(next - 1), patchType.scaleMax - patchType.scaleMin);
          StrictProduct(rand(next - 1), 1.0, patchType.scaleMax - patchType.scaleMin);
          patches := patches + [PlacedPatch(t, p)];
        }
        i := i + 1;
      }
      tried := tried + patchType.count;
      t := t + 1;
    }
  }

  /** The facts `AddGroundPatches` promises of each placed patch. */
  predicate PlacedOk(m: Math, p: PlacedPatch) {
    p.kind < |PatchTypes| && PatchSpotValid(m, p.patch.x, p.patch.z) &&
    -40.0 <= p.patch.x < 40.0 && -40.0 <= p.patch.z < 40.0 &&
    p.patch.y == PatchTypes[p.kind].heightOffset &&
    PatchTypes[p.kind].scaleMin <= p.patch.scale < PatchTypes[p.kind].scaleMax
  }
}
