/**
 * The rule systems of a water feature: the seeded `sin` pseudo-random
 * helpers, the in-place rewrites of the basin and shore vertex buffers, the
 * per-type colour and configuration tables, and the counts and placement
 * heights of shore rocks, pebbles and plants. Geometry and material
 * construction are not modelled; a placed object is the record of the
 * numbers the source computes for it.
 */
module Water {
  import opened JsMath
  import opened Three

  // ---------------------------------------------------------------------
  // Seeded pseudo-randoms
  // ---------------------------------------------------------------------

  /** The seeds derived from the water's position, one per helper. */
  function PositionSeed(position: Vec3): real { position.x * 1000.0 + position.z }
  function ShoreSeed(position: Vec3): real { position.x * 2000.0 + position.z }
  function RockSeed(position: Vec3): real { position.x * 3000.0 + position.z }
  function DetailSeed(position: Vec3): real { position.x * 4000.0 + position.z }
  function PlantSeed(position: Vec3): real { position.x * 5000.0 + position.z }

  /** `pseudoRandom(idx)`: the basin's depth jitter. */
  function PseudoRandom(m: Math, positionSeed: real, idx: real): real {
    (m.sin(positionSeed * idx * 0.1) * 0.5 + 0.5) * 0.4 + 0.8
  }

  /** sin·0.5 + 0.5, the unit value every other helper scales. */
  function UnitWave(m: Math, angle: real): real {
    m.sin(angle) * 0.5 + 0.5
  }

  /** `pseudoRandomShore(idx, factor)`. */
  function PseudoRandomShore(m: Math, shoreSeed: real, idx: real, factor: real): real {
    UnitWave(m, shoreSeed + idx * 0.37) * factor
  }

  /** `pseudoRandomRock(idx, min, max)`. */
  function PseudoRandomRock(m: Math, rockSeed: real, idx: real, min: real, max: real): real {
    min + UnitWave(m, rockSeed + idx * 0.73) * (max - min)
  }

  /** `pseudoRandomDetail(idx, min, max)`. */
  function PseudoRandomDetail(m: Math, detailsSeed: real, idx: real, min: real, max: real): real {
    min + UnitWave(m, detailsSeed + idx * 1.23) * (max - min)
  }

  /** `pseudoRandomPlant(idx, min, max)`. */
  function PseudoRandomPlant(m: Math, plantSeed: real, idx: real, min: real, max: real): real {
    min + UnitWave(m, plantSeed + idx * 0.96) * (max - min)
  }

  lemma UnitWaveRange(m: Math, angle: real)
    requires Lawful(m)
    ensures 0.0 <= UnitWave(m, angle) <= 1.0
  {
  }

  /** The basin jitter lies in [0.8, 1.2]. */
  lemma PseudoRandomRange(m: Math, positionSeed: real, idx: real)
    requires Lawful(m)
    ensures 0.8 <= PseudoRandom(m, positionSeed, idx) <= 1.2
  {
  }

  /** The shore helper lies in [0, factor]. */
  lemma PseudoRandomShoreRange(m: Math, shoreSeed: real, idx: real, factor: real)
    requires Lawful(m) && 0.0 <= factor
    ensures 0.0 <= PseudoRandomShore(m, shoreSeed, idx, factor) <= factor
  {
    UnitWaveRange(m, shoreSeed + idx * 0.37);
    FractionOf(UnitWave(m, shoreSeed + idx * 0.37), factor);
  }

  /** A value min + u·(max − min) with u in [0, 1] lies in [min, max]. */
  lemma ScaledIntoRange(u: real, min: real, max: real)
    requires 0.0 <= u <= 1.0 && min <= max
    ensures min <= min + u * (max - min) <= max
  {
    ScaledAboveMin(u, min, max);
    ScaledBelowMax(u, min, max);
  }

  lemma ScaledAboveMin(u: real, min: real, max: real)
    requires 0.0 <= u && min <= max
    ensures min <= min + u * (max - min)
  {
    ProductMonotone(0.0, u, max - min);
  }

  lemma ScaledBelowMax(u: real, min: real, max: real)
    requires u <= 1.0 && min <= max
    ensures min + u * (max - min) <= max
  {
    ProductMonotone(u, 1.0, max - min);
  }

  /** The rock helper lies in [min, max]. */
  lemma PseudoRandomRockRange(m: Math, rockSeed: real, idx: real, min: real, max: real)
    requires Lawful(m) && min <= max
    ensures min <= PseudoRandomRock(m, rockSeed, idx, min, max) <= max
  {
    UnitWaveRange(m, rockSeed + idx * 0.73);
    ScaledIntoRange(UnitWave(m, rockSeed + idx * 0.73), min, max);
  }

  lemma PseudoRandomDetailRange(m: Math, detailsSeed: real, idx: real, min: real, max: real)
    requires Lawful(m) && min <= max
    ensures min <= PseudoRandomDetail(m, detailsSeed, idx, min, max) <= max
  {
    UnitWaveRange(m, detailsSeed + idx * 1.23);
    ScaledIntoRange(UnitWave(m, detailsSeed + idx * 1.23), min, max);
  }

  lemma PseudoRandomPlantRange(m: Math, plantSeed: real, idx: real, min: real, max: real)
    requires Lawful(m) && min <= max
    ensures min <= PseudoRandomPlant(m, plantSeed, idx, min, max) <= max
  {
    UnitWaveRange(m, plantSeed + idx * 0.96);
    ScaledIntoRange(UnitWave(m, plantSeed + idx * 0.96), min, max);
  }

  // ---------------------------------------------------------------------
  // In-place vertex rewrites
  // ---------------------------------------------------------------------

  /** A per-vertex rewrite: the new (x, y, z) of vertex k from its old triple. */
  type Rewrite = (real, real, real, nat) -> (real, real, real)

  /** The three numbers a rewrite writes for vertex k. */
  function Triple(f: Rewrite, x: real, y: real, z: real, k: nat): (r: seq<real>)
    ensures |r| == 3
  {
    var t := f(x, y, z, k);
    [t.0, t.1, t.2]
  }

  /** A position buffer after a `for (i = 0; i < length; i += 3)` rewrite loop, vertex indices counted from k0. */
  ghost function Rewritten(f: Rewrite, s: seq<real>, k0: nat): (r: seq<real>)
    ensures |r| == |s|
    decreases |s|
  {
    if |s| < 3 then s
    else Triple(f, s[0], s[1], s[2], k0) + Rewritten(f, s[3..], k0 + 1)
  }

  /** Vertex k of a rewritten buffer is the rewrite of old vertex k. */
  lemma {:induction false} RewrittenTriple(f: Rewrite, s: seq<real>, k0: nat, k: nat)
    requires 3 * k + 2 < |s|
    ensures Rewritten(f, s, k0)[3 * k] == f(s[3 * k], s[3 * k + 1], s[3 * k + 2], k0 + k).0
    ensures Rewritten(f, s, k0)[3 * k + 1] == f(s[3 * k], s[3 * k + 1], s[3 * k + 2], k0 + k).1
    ensures Rewritten(f, s, k0)[3 * k + 2] == f(s[3 * k], s[3 * k + 1], s[3 * k + 2], k0 + k).2
    decreases k
  {
    if k > 0 {
      RewrittenTriple(f, s[3..], k0 + 1, k - 1);
    }
  }

  lemma {:induction false} RewrittenAppend(f: Rewrite, s: seq<real>, k0: nat, t: nat, x: real, y: real, z: real)
    requires |s| == 3 * t
    ensures Rewritten(f, s + [x, y, z], k0) == Rewritten(f, s, k0) + Triple(f, x, y, z, k0 + t)
    decreases t
  {
    if t > 0 {
      assert (s + [x, y, z])[3..] == s[3..] + [x, y, z];
      RewrittenAppend(f, s[3..], k0 + 1, t - 1, x, y, z);
    }
  }

  /** One turn of a rewrite loop: vertex i takes its new triple, the rest of the buffer is as before. */
  lemma RewriteStep(f: Rewrite, s: seq<real>, i: nat, a: real, b: real, c: real)
    requires 3 * i + 3 <= |s|
    requires (a, b, c) == f(s[3 * i], s[3 * i + 1], s[3 * i + 2], i)
    ensures (Rewritten(f, s[..3 * i], 0) + s[3 * i..])[3 * i := a][3 * i + 1 := b][3 * i + 2 := c]
         == Rewritten(f, s[..3 * i + 3], 0) + s[3 * i + 3..]
  {
    assert s[..3 * i + 3] == s[..3 * i] + [s[3 * i], s[3 * i + 1], s[3 * i + 2]];
    RewrittenAppend(f, s[..3 * i], 0, i, s[3 * i], s[3 * i + 1], s[3 * i + 2]);
  }

  /** `distanceFromCenter / (min(width, height) / 2)`. */
  function NormalizedDistance(m: Math, width: real, height: real, x: real, z: real): real
    requires 0.0 < Min(width, height)
  {
    m.sqrt(x * x + z * z) / (Min(width, height) / 2.0)
  }

  /** `Math.pow(1 − normalizedDistance, 2)`: not clamped at the rim. */
  function DepthFactor(normalizedDistance: real): real {
    Square(1.0 - normalizedDistance)
  }

  /** The basin y written for the vertex numbered idx at (x, z). */
  function BasinY(m: Math, positionSeed: real, width: real, height: real, depth: real, x: real, z: real, idx: real): real
    requires 0.0 < Min(width, height)
  {
    -depth * DepthFactor(NormalizedDistance(m, width, height, x, z)) * PseudoRandom(m, positionSeed, idx)
  }

  /** The basin loop's rewrite: y becomes `BasinY`, x and z are kept. */
  ghost function BasinRewrite(m: Math, positionSeed: real, width: real, height: real, depth: real): Rewrite {
    (x: real, y: real, z: real, k: nat) =>
      (x, if 0.0 < Min(width, height) then BasinY(m, positionSeed, width, height, depth, x, z, k as real) else y, z)
  }

  /** The basin loop: each vertex's y (component i + 1) is overwritten, x and z are kept. */
  method CarveBasin(m: Math, vertices: array<real>, positionSeed: real, width: real, height: real, depth: real)
    requires vertices.Length % 3 == 0 && 0.0 < Min(width, height)
    modifies vertices
    ensures vertices[..] == Rewritten(BasinRewrite(m, positionSeed, width, height, depth), old(vertices[..]), 0)
  {
    ghost var original := vertices[..];
    ghost var n := vertices.Length / 3;
    ghost var t := 0;
    var i := 0;
    while i < vertices.Length
      invariant 0 <= t <= n && i == 3 * t && vertices.Length == 3 * n == |original|
      invariant vertices[..] == Rewritten(BasinRewrite(m, positionSeed, width, height, depth), original[..i], 0) + original[i..]
    {
      CarveVertex(m, vertices, positionSeed, width, height, depth, i, original, t);
      i := i + 3;
      t := t + 1;
    }
    assert original[..i] == original;
  }

  /** One turn of the basin loop; `idx = i / 3` is a number division, as in the source. */
  method CarveVertex(m: Math, vertices: array<real>, positionSeed: real, width: real, height: real, depth: real,
                     i: nat, ghost original: seq<real>, ghost t: nat)
    requires i == 3 * t && i + 3 <= vertices.Length == |original| && 0.0 < Min(width, height)
    requires vertices[..] == Rewritten(BasinRewrite(m, positionSeed, width, height, depth), original[..i], 0) + original[i..]
    modifies vertices
    ensures vertices[..] == Rewritten(BasinRewrite(m, positionSeed, width, height, depth), original[..i + 3], 0) + original[i + 3..]
  {
    var x := vertices[i];
    var z := vertices[i + 2];
    var idx := i as real / 3.0;
    var y := BasinY(m, positionSeed, width, height, depth, x, z, idx);
    vertices[i + 1] := y;
    BasinStep(m, positionSeed, width, height, depth, original, t, y);
  }

  lemma BasinStep(m: Math, positionSeed: real, width: real, height: real, depth: real, s: seq<real>, t: nat, y: real)
    requires 3 * t + 3 <= |s| && 0.0 < Min(width, height)
    requires y == BasinY(m, positionSeed, width, height, depth, s[3 * t], s[3 * t + 2], t as real)
    ensures (Rewritten(BasinRewrite(m, positionSeed, width, height, depth), s[..3 * t], 0) + s[3 * t..])[3 * t + 1 := y]
         == Rewritten(BasinRewrite(m, positionSeed, width, height, depth), s[..3 * t + 3], 0) + s[3 * t + 3..]
  {
    var f := BasinRewrite(m, positionSeed, width, height, depth);
    assert f(s[3 * t], s[3 * t + 1], s[3 * t + 2], t) == (s[3 * t], y, s[3 * t + 2]);
    RewriteStep(f, s, t, s[3 * t], y, s[3 * t + 2]);
    assert (Rewritten(f, s[..3 * t], 0) + s[3 * t..])[3 * t := s[3 * t]][3 * t + 2 := s[3 * t + 2]]
        == Rewritten(f, s[..3 * t], 0) + s[3 * t..];
  }

  /** Every basin vertex ends at or below the water's base plane. */
  lemma BasinBelowSurface(m: Math, positionSeed: real, width: real, height: real, depth: real, x: real, z: real, idx: real)
    requires Lawful(m) && 0.0 <= depth && 0.0 < Min(width, height)
    ensures BasinY(m, positionSeed, width, height, depth, x, z, idx) <= 0.0
  {
    var factor := DepthFactor(NormalizedDistance(m, width, height, x, z));
    var jitter := PseudoRandom(m, positionSeed, idx);
    PseudoRandomRange(m, positionSeed, idx);
    ProductMonotone(-depth, 0.0, factor);
    ProductMonotone(-depth * factor, 0.0, jitter);
  }

  /** At the basin's rim (normalised distance 1) the vertex lies on the base plane. */
  lemma BasinRim(m: Math, positionSeed: real, width: real, height: real, depth: real, x: real, z: real, idx: real)
    requires 0.0 < Min(width, height) && NormalizedDistance(m, width, height, x, z) == 1.0
    ensures BasinY(m, positionSeed, width, height, depth, x, z, idx) == 0.0
  {
  }

  /**
   * The factor is not clamped at the rim: a vertex at normalised distance
   * 1 + e is lowered exactly as far as one at 1 − e with the same jitter.
   */
  lemma BasinBeyondRim(m: Math, positionSeed: real, width: real, height: real, depth: real,
                       x: real, z: real, xInside: real, zInside: real, e: real, idx: real)
    requires 0.0 < Min(width, height)
    requires NormalizedDistance(m, width, height, x, z) == 1.0 + e
    requires NormalizedDistance(m, width, height, xInside, zInside) == 1.0 - e
    ensures BasinY(m, positionSeed, width, height, depth, x, z, idx)
         == BasinY(m, positionSeed, width, height, depth, xInside, zInside, idx)
  {
    assert DepthFactor(1.0 + e) == DepthFactor(1.0 - e);
  }

  /** Vertex k after the basin loop, component by component. */
  lemma BasinRewritten(m: Math, positionSeed: real, width: real, height: real, depth: real, s: seq<real>, k: nat)
    requires 0.0 < Min(width, height) && 3 * k + 2 < |s|
    ensures Rewritten(BasinRewrite(m, positionSeed, width, height, depth), s, 0)[3 * k] == s[3 * k]
    ensures Rewritten(BasinRewrite(m, positionSeed, width, height, depth), s, 0)[3 * k + 1]
         == BasinY(m, positionSeed, width, height, depth, s[3 * k], s[3 * k + 2], k as real)
    ensures Rewritten(BasinRewrite(m, positionSeed, width, height, depth), s, 0)[3 * k + 2] == s[3 * k + 2]
  {
    RewrittenTriple(BasinRewrite(m, positionSeed, width, height, depth), s, 0, k);
  }

  /** After the basin loop, vertex k keeps x and z and its y is at or below 0. */
  lemma CarvedVertex(m: Math, positionSeed: real, width: real, height: real, depth: real, s: seq<real>, k: nat)
    requires Lawful(m) && 0.0 <= depth && 0.0 < Min(width, height) && 3 * k + 2 < |s|
    ensures Rewritten(BasinRewrite(m, positionSeed, width, height, depth), s, 0)[3 * k] == s[3 * k]
    ensures Rewritten(BasinRewrite(m, positionSeed, width, height, depth), s, 0)[3 * k + 2] == s[3 * k + 2]
    ensures Rewritten(BasinRewrite(m, positionSeed, width, height, depth), s, 0)[3 * k + 1] <= 0.0
  {
    BasinRewritten(m, positionSeed, width, height, depth, s, k);
    BasinBelowSurface(m, positionSeed, width, height, depth, s[3 * k], s[3 * k + 2], k as real);
  }

  /** The shore's in-plane jitter drawn at idx: (pseudoRandomShore(idx) − 0.5)·0.15. */
  function ShoreShift(m: Math, shoreSeed: real, idx: real): real {
    (PseudoRandomShore(m, shoreSeed, idx, 1.0) - 0.5) * 0.15
  }

  /** The shore loop's rewrite: x and z are jittered, y is overwritten. */
  ghost function ShoreRewrite(m: Math, shoreSeed: real): Rewrite {
    (x: real, y: real, z: real, k: nat) =>
      (x + ShoreShift(m, shoreSeed, k as real),
       PseudoRandomShore(m, shoreSeed, k as real + 200.0, 0.05),
       z + ShoreShift(m, shoreSeed, k as real + 100.0))
  }

  /** The shore loop: x and z are jittered in place and y is overwritten. */
  method RoughenShore(m: Math, shoreVertices: array<real>, shoreSeed: real)
    requires shoreVertices.Length % 3 == 0
    modifies shoreVertices
    ensures shoreVertices[..] == Rewritten(ShoreRewrite(m, shoreSeed), old(shoreVertices[..]), 0)
  {
    ghost var original := shoreVertices[..];
    ghost var n := shoreVertices.Length / 3;
    ghost var t := 0;
    var i := 0;
    while i < shoreVertices.Length
      invariant 0 <= t <= n && i == 3 * t && shoreVertices.Length == 3 * n == |original|
      invariant shoreVertices[..] == Rewritten(ShoreRewrite(m, shoreSeed), original[..i], 0) + original[i..]
    {
      RoughenVertex(m, shoreVertices, shoreSeed, i, original, t);
      i := i + 3;
      t := t + 1;
    }
    assert original[..i] == original;
  }

  /** One turn of the shore loop. */
  method RoughenVertex(m: Math, shoreVertices: array<real>, shoreSeed: real, i: nat, ghost original: seq<real>, ghost t: nat)
    requires i == 3 * t && i + 3 <= shoreVertices.Length == |original|
    requires shoreVertices[..] == Rewritten(ShoreRewrite(m, shoreSeed), original[..i], 0) + original[i..]
    modifies shoreVertices
    ensures shoreVertices[..] == Rewritten(ShoreRewrite(m, shoreSeed), original[..i + 3], 0) + original[i + 3..]
  {
    ghost var before := shoreVertices[..];
    assert before[i] == original[i] && before[i + 2] == original[i + 2];
    ghost var x := before[i] + ShoreShift(m, shoreSeed, t as real);
    ghost var y := PseudoRandomShore(m, shoreSeed, t as real + 200.0, 0.05);
    ghost var z := before[i + 2] + ShoreShift(m, shoreSeed, t as real + 100.0);
    JitterVertex(m, shoreVertices, shoreSeed, i, t);
    assert shoreVertices[..] == before[i := x][i + 1 := y][i + 2 := z];
    ShoreTurn(m, shoreSeed, original, t, x, y, z);
  }

  /** The writes of one shore turn: vertex i / 3 is jittered in x and z and its y overwritten. */
  method JitterVertex(m: Math, shoreVertices: array<real>, shoreSeed: real, i: nat, ghost t: nat)
    requires i == 3 * t && i + 3 <= shoreVertices.Length
    modifies shoreVertices
    ensures shoreVertices[..] == old(shoreVertices[..])
      [i := old(shoreVertices[..])[i] + ShoreShift(m, shoreSeed, t as real)]
      [i + 1 := PseudoRandomShore(m, shoreSeed, t as real + 200.0, 0.05)]
      [i + 2 := old(shoreVertices[..])[i + 2] + ShoreShift(m, shoreSeed, t as real + 100.0)]
  {
    var idx := i as real / 3.0;
    shoreVertices[i] := shoreVertices[i] + ShoreShift(m, shoreSeed, idx);
    shoreVertices[i + 2] := shoreVertices[i + 2] + ShoreShift(m, shoreSeed, idx + 100.0);
    shoreVertices[i + 1] := PseudoRandomShore(m, shoreSeed, idx + 200.0, 0.05);
  }

  /** What one turn of the shore loop does to the rewritten prefix. */
  lemma ShoreTurn(m: Math, shoreSeed: real, original: seq<real>, t: nat, x: real, y: real, z: real)
    requires 3 * t + 3 <= |original|
    requires x == original[3 * t] + ShoreShift(m, shoreSeed, t as real)
    requires y == PseudoRandomShore(m, shoreSeed, t as real + 200.0, 0.05)
    requires z == original[3 * t + 2] + ShoreShift(m, shoreSeed, t as real + 100.0)
    ensures (Rewritten(ShoreRewrite(m, shoreSeed), original[..3 * t], 0) + original[3 * t..])[3 * t := x][3 * t + 1 := y][3 * t + 2 := z]
         == Rewritten(ShoreRewrite(m, shoreSeed), original[..3 * t + 3], 0) + original[3 * t + 3..]
  {
    ShoreApply(m, shoreSeed, original[3 * t], original[3 * t + 1], original[3 * t + 2], t);
    RewriteStep(ShoreRewrite(m, shoreSeed), original, t, x, y, z);
  }

  lemma ShoreApply(m: Math, shoreSeed: real, x: real, y: real, z: real, k: nat)
    ensures ShoreRewrite(m, shoreSeed)(x, y, z, k)
         == (x + ShoreShift(m, shoreSeed, k as real),
             PseudoRandomShore(m, shoreSeed, k as real + 200.0, 0.05),
             z + ShoreShift(m, shoreSeed, k as real + 100.0))
  {
  }

  /** Vertex k after the shore loop, component by component. */
  lemma ShoreRewritten(m: Math, shoreSeed: real, s: seq<real>, k: nat)
    requires 3 * k + 2 < |s|
    ensures Rewritten(ShoreRewrite(m, shoreSeed), s, 0)[3 * k] == s[3 * k] + ShoreShift(m, shoreSeed, k as real)
    ensures Rewritten(ShoreRewrite(m, shoreSeed), s, 0)[3 * k + 1] == PseudoRandomShore(m, shoreSeed, k as real + 200.0, 0.05)
    ensures Rewritten(ShoreRewrite(m, shoreSeed), s, 0)[3 * k + 2] == s[3 * k + 2] + ShoreShift(m, shoreSeed, k as real + 100.0)
  {
    RewrittenTriple(ShoreRewrite(m, shoreSeed), s, 0, k);
    ShoreApply(m, shoreSeed, s[3 * k], s[3 * k + 1], s[3 * k + 2], k);
  }

  /** The in-plane jitter is at most 0.075 either way. */
  lemma ShoreShiftBound(m: Math, shoreSeed: real, idx: real)
    requires Lawful(m)
    ensures -0.075 <= ShoreShift(m, shoreSeed, idx) <= 0.075
  {
    PseudoRandomShoreRange(m, shoreSeed, idx, 1.0);
  }

  /** After the shore loop, vertex k has moved at most 0.075 in x and z and its y lies in [0, 0.05]. */
  lemma RoughenedVertex(m: Math, shoreSeed: real, s: seq<real>, k: nat)
    requires Lawful(m) && 3 * k + 2 < |s|
    ensures Abs(Rewritten(ShoreRewrite(m, shoreSeed), s, 0)[3 * k] - s[3 * k]) <= 0.075
    ensures Abs(Rewritten(ShoreRewrite(m, shoreSeed), s, 0)[3 * k + 2] - s[3 * k + 2]) <= 0.075
    ensures 0.0 <= Rewritten(ShoreRewrite(m, shoreSeed), s, 0)[3 * k + 1] <= 0.05
  {
    ShoreRewritten(m, shoreSeed, s, k);
    var r := Rewritten(ShoreRewrite(m, shoreSeed), s, 0);
    assert Abs(r[3 * k] - s[3 * k]) <= 0.075 by {
      ShoreShiftBound(m, shoreSeed, k as real);
    }
    assert Abs(r[3 * k + 2] - s[3 * k + 2]) <= 0.075 by {
      ShoreShiftBound(m, shoreSeed, k as real + 100.0);
    }
    PseudoRandomShoreRange(m, shoreSeed, k as real + 200.0, 0.05);
  }

  // ---------------------------------------------------------------------
  // Type tables
  // ---------------------------------------------------------------------

  /** `getWaterBaseColor`: the basin colour per water type. */
  function WaterBaseColor(waterType: string): int {
    if waterType == "lake" then 0x1a456b
    else if waterType == "pond" then 0x2a5e3a
    else if waterType == "stream" then 0x2b7698
    else if waterType == "fountain" then 0x4587b3
    else 0x1a456b
  }

  /** The surface parameters `getWaterConfig` returns. */
  datatype WaterConfig = WaterConfig(color: int, distortion: real, transparency: real, textureRepeat: int, waveSpeed: int)

  /** `getWaterConfig`: the surface parameters per water type. */
  function GetWaterConfig(waterType: string): WaterConfig {
    if waterType == "lake" then WaterConfig(0x001e2e, 0.6, 0.8, 6, 15000)
    else if waterType == "pond" then WaterConfig(0x003e2e, 0.8, 0.75, 4, 12000)
    else if waterType == "stream" then WaterConfig(0x004a7f, 1.2, 0.85, 3, 8000)
    else if waterType == "fountain" then WaterConfig(0x0078a8, 1.5, 0.9, 2, 6000)
    else WaterConfig(0x001e2e, 0.6, 0.8, 6, 15000)
  }

  predicate KnownWaterType(waterType: string) {
    waterType in {"lake", "pond", "stream", "fountain"}
  }

  /** Any type other than the four known ones gets the lake entry of both tables. */
  lemma UnknownTypeIsLake(waterType: string)
    requires !KnownWaterType(waterType)
    ensures WaterBaseColor(waterType) == WaterBaseColor("lake")
    ensures GetWaterConfig(waterType) == GetWaterConfig("lake")
  {
  }

  /** The four known types are told apart by both tables. */
  lemma KnownTypesDistinct(a: string, b: string)
    requires KnownWaterType(a) && KnownWaterType(b) && a != b
    ensures WaterBaseColor(a) != WaterBaseColor(b)
    ensures GetWaterConfig(a) != GetWaterConfig(b)
  {
  }

  // ---------------------------------------------------------------------
  // Shore rocks
  // ---------------------------------------------------------------------

  /** A shore rock: its world position and its dodecahedron radius. */
  datatype Rock = Rock(x: real, y: real, z: real, size: real)

  /** `Math.floor(pseudoRandomRock(1, 8, 20))`. */
  function RockCount(m: Math, rockSeed: real): int {
    Floor(PseudoRandomRock(m, rockSeed, 1.0, 8.0, 20.0))
  }

  /** There are between 8 and 20 rocks. */
  lemma RockCountRange(m: Math, rockSeed: real)
    requires Lawful(m)
    ensures 8 <= RockCount(m, rockSeed) <= 20
  {
    PseudoRandomRockRange(m, rockSeed, 1.0, 8.0, 20.0);
  }

  /** Rock i: on a circle of radius min(w, h)/2 + (u·1.2 − 0.2), of size 0.1 + u'·0.25, raised by 0.3·size. */
  function RockAt(m: Math, rockSeed: real, width: real, height: real, position: Vec3, i: nat): Rock {
    var angle := PseudoRandomRock(m, rockSeed, (i + 10) as real, 0.0, 1.0) * m.PI * 2.0;
    var radius := Min(width, height) / 2.0 + (PseudoRandomRock(m, rockSeed, (i + 20) as real, 0.0, 1.0) * 1.2 - 0.2);
    var rockX := m.cos(angle) * radius;
    var rockZ := m.sin(angle) * radius;
    var rockSize := 0.1 + PseudoRandomRock(m, rockSeed, (i + 30) as real, 0.0, 1.0) * 0.25;
    Rock(position.x + rockX, position.y + rockSize * 0.3, position.z + rockZ, rockSize)
  }

  /** The rock loop of `createNaturalShore`. */
  method PlaceRocks(m: Math, rockSeed: real, width: real, height: real, position: Vec3) returns (rocks: seq<Rock>)
    requires Lawful(m)
    ensures |rocks| == RockCount(m, rockSeed)
    ensures forall i :: 0 <= i < |rocks| ==> rocks[i] == RockAt(m, rockSeed, width, height, position, i)
  {
    var rockCount := RockCount(m, rockSeed);
    RockCountRange(m, rockSeed);
    rocks := [];
    var i := 0;
    while i < rockCount
      invariant 0 <= i <= rockCount && |rocks| == i
      invariant forall k :: 0 <= k < i ==> rocks[k] == RockAt(m, rockSeed, width, height, position, k)
    {
      rocks := rocks + [RockAt(m, rockSeed, width, height, position, i)];
      i := i + 1;
    }
  }

  /** Every rock's size lies in [0.1, 0.35] and it rests 0.3·size above the water's y. */
  lemma RockShape(m: Math, rockSeed: real, width: real, height: real, position: Vec3, i: nat)
    requires Lawful(m)
    ensures 0.1 <= RockAt(m, rockSeed, width, height, position, i).size <= 0.35
    ensures RockAt(m, rockSeed, width, height, position, i).y - position.y
         == RockAt(m, rockSeed, width, height, position, i).size * 0.3
  {
    PseudoRandomRockRange(m, rockSeed, (i + 30) as real, 0.0, 1.0);
  }

  // ---------------------------------------------------------------------
  // Pebbles
  // ---------------------------------------------------------------------

  /** A pebble: its world position and size. */
  datatype Pebble = Pebble(x: real, y: real, z: real, size: real)

  /** `Math.floor(width·height / 10)` candidates. */
  function PebbleCount(width: real, height: real): int {
    Floor(width * height / 10.0)
  }

  function PebbleX(m: Math, detailsSeed: real, width: real, i: nat): real {
    (PseudoRandomDetail(m, detailsSeed, (i + 10) as real, 0.0, 1.0) - 0.5) * width * 0.8
  }

  function PebbleZ(m: Math, detailsSeed: real, height: real, i: nat): real {
    (PseudoRandomDetail(m, detailsSeed, (i + 20) as real, 0.0, 1.0) - 0.5) * height * 0.8
  }

  /** Candidate i is kept when its draw is below 0.7 times its normalised distance. */
  predicate PebbleKept(m: Math, detailsSeed: real, width: real, height: real, i: nat)
    requires 0.0 < Min(width, height)
  {
    PseudoRandomDetail(m, detailsSeed, (i + 30) as real, 0.0, 1.0)
      < NormalizedDistance(m, width, height, PebbleX(m, detailsSeed, width, i), PebbleZ(m, detailsSeed, height, i)) * 0.7
  }

  /** Candidate i as placed: sunk by the basin depth at its point, raised by half its size. */
  function PebbleAt(m: Math, detailsSeed: real, width: real, height: real, depth: real, position: Vec3, i: nat): Pebble
    requires 0.0 < Min(width, height)
  {
    var pebbleX := PebbleX(m, detailsSeed, width, i);
    var pebbleZ := PebbleZ(m, detailsSeed, height, i);
    var pebbleSize := 0.05 + PseudoRandomDetail(m, detailsSeed, (i + 40) as real, 0.0, 1.0) * 0.1;
    var depthAtPoint := depth * DepthFactor(NormalizedDistance(m, width, height, pebbleX, pebbleZ));
    Pebble(position.x + pebbleX, position.y - depthAtPoint + pebbleSize * 0.5, position.z + pebbleZ, pebbleSize)
  }

  /** The pebbles kept among the first n candidates, in candidate order. */
  function Pebbles(m: Math, detailsSeed: real, width: real, height: real, depth: real, position: Vec3, n: nat): (r: seq<Pebble>)
    requires 0.0 < Min(width, height)
    ensures |r| <= n
  {
    if n == 0 then []
    else
      Pebbles(m, detailsSeed, width, height, depth, position, n - 1)
        + (if PebbleKept(m, detailsSeed, width, height, n - 1)
           then [PebbleAt(m, detailsSeed, width, height, depth, position, n - 1)] else [])
  }

  /** The pebble loop of `createUnderwaterDetails`. */
  method PlacePebbles(m: Math, detailsSeed: real, width: real, height: real, depth: real, position: Vec3)
    returns (pebbles: seq<Pebble>)
    requires 0.0 < Min(width, height)
    ensures pebbles == Pebbles(m, detailsSeed, width, height, depth, position,
                               if PebbleCount(width, height) < 0 then 0 else PebbleCount(width, height))
  {
    var pebbleCount := PebbleCount(width, height);
    pebbles := [];
    var i := 0;
    while i < pebbleCount
      invariant 0 <= i && (0 <= pebbleCount ==> i <= pebbleCount) && (pebbleCount < 0 ==> i == 0)
      invariant pebbles == Pebbles(m, detailsSeed, width, height, depth, position, i)
    {
      if PebbleKept(m, detailsSeed, width, height, i) {
        pebbles := pebbles + [PebbleAt(m, detailsSeed, width, height, depth, position, i)];
      }
      i := i + 1;
    }
  }

  /** No kept pebble lies at the exact centre: there the normalised distance is 0 and no draw is below 0. */
  lemma {:induction false} PebblesOffCentre(m: Math, detailsSeed: real, width: real, height: real, depth: real,
                                           position: Vec3, n: nat)
    requires Lawful(m) && 0.0 < Min(width, height)
    ensures forall p :: p in Pebbles(m, detailsSeed, width, height, depth, position, n) ==>
              p.x != position.x || p.z != position.z
  {
    if n > 0 {
      PebblesOffCentre(m, detailsSeed, width, height, depth, position, n - 1);
      if PebbleKept(m, detailsSeed, width, height, n - 1) {
        PebbleNotAtCentre(m, detailsSeed, width, height, depth, position, n - 1);
      }
    }
  }

  lemma PebbleNotAtCentre(m: Math, detailsSeed: real, width: real, height: real, depth: real, position: Vec3, i: nat)
    requires Lawful(m) && 0.0 < Min(width, height) && PebbleKept(m, detailsSeed, width, height, i)
    ensures PebbleAt(m, detailsSeed, width, height, depth, position, i).x != position.x
         || PebbleAt(m, detailsSeed, width, height, depth, position, i).z != position.z
  {
    var pebbleX := PebbleX(m, detailsSeed, width, i);
    var pebbleZ := PebbleZ(m, detailsSeed, height, i);
    PseudoRandomDetailRange(m, detailsSeed, (i + 30) as real, 0.0, 1.0);
    if pebbleX == 0.0 && pebbleZ == 0.0 {
      SqrtOfSquare(m, 0.0);
      assert false;
    }
  }

  // ---------------------------------------------------------------------
  // Plants
  // ---------------------------------------------------------------------

  datatype PlantKind = Reed | Lily | Cattail | WaterGrass

  /** A plant: its kind and world position. */
  datatype Plant = Plant(kind: PlantKind, x: real, y: real, z: real)

  /** `min(max(10, floor(w·h·0.15)), 30)`. */
  function BaseCount(width: real, height: real): (r: int)
    ensures 10 <= r <= 30
  {
    var count := Floor(width * height * 0.15);
    var atLeastTen := if 10 >= count then 10 else count;
    if atLeastTen <= 30 then atLeastTen else 30
  }

  /** Ponds get 1.5 times the base count, which need not be whole. */
  function PlantCount(waterType: string, width: real, height: real): real {
    if waterType == "pond" then BaseCount(width, height) as real * 1.5 else BaseCount(width, height) as real
  }

  /** The plant count lies in [10, 30], and in [15, 45] for a pond. */
  lemma PlantCountRange(waterType: string, width: real, height: real)
    ensures waterType != "pond" ==> 10.0 <= PlantCount(waterType, width, height) <= 30.0
    ensures waterType == "pond" ==> 15.0 <= PlantCount(waterType, width, height) <= 45.0
  {
  }

  /** Plant i: on the rim ring when its first draw is below 0.7 (reed or cattail), else inside (lily or grass). */
  function PlantAt(m: Math, plantSeed: real, width: real, height: real, depth: real, position: Vec3, i: nat): Plant
    requires 0.0 < Min(width, height)
  {
    var onRing := PseudoRandomPlant(m, plantSeed, (i + 10) as real, 0.0, 1.0) < 0.7;
    var angle := PseudoRandomPlant(m, plantSeed, (i + 20) as real, 0.0, 1.0) * m.PI * 2.0;
    var radiusScale := 0.7 + PseudoRandomPlant(m, plantSeed, (i + 30) as real, 0.0, 1.0) * 0.25;
    var plantX := if onRing then m.cos(angle) * (width / 2.0) * radiusScale
                  else (PseudoRandomPlant(m, plantSeed, (i + 50) as real, 0.0, 1.0) - 0.5) * width * 0.6;
    var plantZ := if onRing then m.sin(angle) * (height / 2.0) * radiusScale
                  else (PseudoRandomPlant(m, plantSeed, (i + 60) as real, 0.0, 1.0) - 0.5) * height * 0.6;
    var kind := if onRing then (if PseudoRandomPlant(m, plantSeed, (i + 40) as real, 0.0, 1.0) < 0.7 then Reed else Cattail)
                else (if PseudoRandomPlant(m, plantSeed, (i + 70) as real, 0.0, 1.0) < 0.6 then Lily else WaterGrass);
    var depthAtPoint := depth * DepthFactor(NormalizedDistance(m, width, height, plantX, plantZ));
    Plant(kind, position.x + plantX,
          if kind == Lily then position.y + 0.05 else position.y - depthAtPoint + 0.1,
          position.z + plantZ)
  }

  /** The plant loop of `createWaterPlants`: `for (i = 0; i < plantCount; i++)`. */
  method PlacePlants(m: Math, plantSeed: real, waterType: string, width: real, height: real, depth: real, position: Vec3)
    returns (plants: seq<Plant>)
    requires 0.0 < Min(width, height)
    ensures PlantCount(waterType, width, height) <= |plants| as real < PlantCount(waterType, width, height) + 1.0
    ensures forall i :: 0 <= i < |plants| ==> plants[i] == PlantAt(m, plantSeed, width, height, depth, position, i)
  {
    var plantCount := PlantCount(waterType, width, height);
    PlantCountRange(waterType, width, height);
    plants := [];
    var i := 0;
    while (i as real) < plantCount
      invariant 0 <= i && |plants| == i && (i as real) < plantCount + 1.0
      invariant forall k :: 0 <= k < i ==> plants[k] == PlantAt(m, plantSeed, width, height, depth, position, k)
    {
      plants := plants + [PlantAt(m, plantSeed, width, height, depth, position, i)];
      i := i + 1;
    }
  }

  /**
   * Lily pads float 0.05 above the water's y; every other plant stands 0.1
   * above the basin floor at its point. Lilies only grow inside, never on
   * the rim ring.
   */
  lemma PlantHeights(m: Math, plantSeed: real, width: real, height: real, depth: real, position: Vec3, i: nat)
    requires 0.0 < Min(width, height)
    ensures PlantAt(m, plantSeed, width, height, depth, position, i).kind == Lily ==>
              PlantAt(m, plantSeed, width, height, depth, position, i).y == position.y + 0.05
    ensures PlantAt(m, plantSeed, width, height, depth, position, i).kind != Lily ==>
              var p := PlantAt(m, plantSeed, width, height, depth, position, i);
              p.y == position.y - depth * DepthFactor(NormalizedDistance(m, width, height, p.x - position.x, p.z - position.z)) + 0.1
    ensures PlantAt(m, plantSeed, width, height, depth, position, i).kind == Lily ==>
              0.7 <= PseudoRandomPlant(m, plantSeed, (i + 10) as real, 0.0, 1.0)
  {
  }
}
