/**
 * The rule systems under the park's path builders: the ground-height filter
 * over ray hits, the quad strips and their vertex/index buffers for curved
 * paths and their edges, the terrain adjustment of straight paths, the
 * border-element sampler with its cumulative-probability type choice, and
 * the flower colour bucket.
 */
module Pathways {
  import opened JsMath
  import opened Three

  // ---------------------------------------------------------------------
  // getGroundHeight
  // ---------------------------------------------------------------------

  /** The height of the first hit within 5 of y = 0, in hit order, or 0 when there is none. */
  function FirstGroundHit(hits: seq<real>): (r: real)
    ensures Abs(r) < 5.0
  {
    if |hits| == 0 then 0.0
    else if Abs(hits[0]) < 5.0 then hits[0]
    else FirstGroundHit(hits[1..])
  }

  /**
   * `getGroundHeight` given the y of every ray hit, nearest first (the ray
   * cast itself is not modelled): the early-return scan.
   */
  method GetGroundHeight(hits: seq<real>) returns (y: real)
    ensures y == FirstGroundHit(hits)
  {
    var i := 0;
    while i < |hits|
      invariant 0 <= i <= |hits|
      invariant FirstGroundHit(hits[i..]) == FirstGroundHit(hits)
    {
      if Abs(hits[i]) < 5.0 {
        return hits[i];
      }
      assert hits[i..][1..] == hits[i + 1..];
      i := i + 1;
    }
    assert hits[i..] == [];
    return 0.0;
  }

  /** The result is the hit at i when i is the first hit within the band. */
  lemma {:induction false} FirstGroundHitAt(hits: seq<real>, i: nat)
    requires i < |hits| && Abs(hits[i]) < 5.0
    requires forall j :: 0 <= j < i ==> Abs(hits[j]) >= 5.0
    ensures FirstGroundHit(hits) == hits[i]
    decreases i
  {
    if i > 0 {
      FirstGroundHitAt(hits[1..], i - 1);
    }
  }

  /** With no hit inside the band the result is the default 0. */
  lemma {:induction false} NoGroundHit(hits: seq<real>)
    requires forall j :: 0 <= j < |hits| ==> Abs(hits[j]) >= 5.0
    ensures FirstGroundHit(hits) == 0.0
    decreases |hits|
  {
    if |hits| > 0 {
      NoGroundHit(hits[1..]);
    }
  }

  // ---------------------------------------------------------------------
  // Quads of a sampled curve
  // ---------------------------------------------------------------------

  /** The four corners of one path segment, in the order they are stored. */
  datatype Quad = Quad(c0: Vec3, c1: Vec3, c2: Vec3, c3: Vec3)

  function Corner(q: Quad, j: nat): Vec3
    requires j < 4
  {
    if j == 0 then q.c0 else if j == 1 then q.c1 else if j == 2 then q.c2 else q.c3
  }

  function Midpoint(a: Vec3, b: Vec3): Vec3 {
    Scale(Add(a, b), 0.5)
  }

  /** The unit perpendicular (−dz, 0, dx) of the direction from `current` to `next`. */
  function Perpendicular(m: Math, current: Vec3, next: Vec3): Vec3 {
    var direction := Normalize(m, Sub(next, current));
    Vec3(-direction.z, 0.0, direction.x)
  }

  /** One segment of `createSmoothPath`: corners v1, v2 at `current`, v3, v4 at `next`, stored [v1, v2, v4, v3]. */
  function PathQuad(m: Math, current: Vec3, next: Vec3, width: real): Quad {
    var perpendicular := Perpendicular(m, current, next);
    var halfWidth := width / 2.0;
    var v1 := Add(current, Scale(perpendicular, halfWidth));
    var v2 := Sub(current, Scale(perpendicular, halfWidth));
    var v3 := Add(next, Scale(perpendicular, halfWidth));
    var v4 := Sub(next, Scale(perpendicular, halfWidth));
    Quad(v1, v2, v4, v3)
  }

  /**
   * The stored order goes round the quad: the first two corners straddle
   * `current` and the last two straddle `next`, the cross edges c0→c1 and
   * c3→c2 are the same vector, and both long edges run along the segment.
   */
  lemma PathQuadGoesRound(m: Math, current: Vec3, next: Vec3, width: real)
    ensures Midpoint(PathQuad(m, current, next, width).c0, PathQuad(m, current, next, width).c1) == current
    ensures Midpoint(PathQuad(m, current, next, width).c3, PathQuad(m, current, next, width).c2) == next
    ensures Sub(PathQuad(m, current, next, width).c0, PathQuad(m, current, next, width).c1)
         == Sub(PathQuad(m, current, next, width).c3, PathQuad(m, current, next, width).c2)
    ensures Sub(PathQuad(m, current, next, width).c2, PathQuad(m, current, next, width).c1) == Sub(next, current)
    ensures Sub(PathQuad(m, current, next, width).c3, PathQuad(m, current, next, width).c0) == Sub(next, current)
  {
  }

  /** The quads of consecutive sample points, one fewer than the points. */
  function PathQuads(m: Math, points: seq<Vec3>, width: real): (r: seq<Quad>)
    ensures |r| == if |points| == 0 then 0 else |points| - 1
    ensures forall i :: 0 <= i < |r| ==> r[i] == PathQuad(m, points[i], points[i + 1], width)
  {
    if |points| == 0 then []
    else seq(|points| - 1, i requires 0 <= i < |points| - 1 => PathQuad(m, points[i], points[i + 1], width))
  }

  /** The `pathPoints` loop of `createSmoothPath`. */
  method BuildPathQuads(m: Math, points: seq<Vec3>, width: real) returns (pathPoints: seq<Quad>)
    ensures pathPoints == PathQuads(m, points, width)
  {
    pathPoints := [];
    var i := 0;
    while i < |points| - 1
      invariant 0 <= i && (|points| == 0 ==> i == 0) && (|points| > 0 ==> i <= |points| - 1)
      invariant |pathPoints| == i
      invariant forall k :: 0 <= k < i ==> pathPoints[k] == PathQuad(m, points[k], points[k + 1], width)
    {
      var current := points[i];
      var next := points[i + 1];
      pathPoints := pathPoints + [PathQuad(m, current, next, width)];
      i := i + 1;
    }
  }

  // ---------------------------------------------------------------------
  // Vertex and index buffers
  // ---------------------------------------------------------------------

  /** x, y + lift, z of one corner: what `vertices.push` receives. */
  function Coords(v: Vec3, lift: real): seq<real> {
    [v.x, v.y + lift, v.z]
  }

  /** The coordinates of the first j corners of a quad. */
  function CornerCoords(q: Quad, lift: real, j: nat): (r: seq<real>)
    requires j <= 4
    ensures |r| == 3 * j
  {
    if j == 0 then [] else CornerCoords(q, lift, j - 1) + Coords(Corner(q, j - 1), lift)
  }

  /** The vertex buffer of a quad strip: twelve numbers per quad. */
  function QuadVertices(quads: seq<Quad>, lift: real): (r: seq<real>)
    ensures |r| == 12 * |quads|
  {
    if |quads| == 0 then []
    else QuadVertices(quads[..|quads| - 1], lift) + CornerCoords(quads[|quads| - 1], lift, 4)
  }

  /** The two triangles of quad i: (4i, 4i+1, 4i+2) and (4i, 4i+2, 4i+3). */
  function TriangleIndices(i: nat): seq<int> {
    var baseIndex := i * 4;
    [baseIndex, baseIndex + 1, baseIndex + 2, baseIndex, baseIndex + 2, baseIndex + 3]
  }

  /** The index buffer of n quads: six indices per quad. */
  function QuadIndices(n: nat): (r: seq<int>)
    ensures |r| == 6 * n
  {
    if n == 0 then [] else QuadIndices(n - 1) + TriangleIndices(n - 1)
  }

  /** Every index of an n-quad strip names one of its 4n vertices. */
  lemma {:induction false} QuadIndicesInRange(n: nat)
    ensures forall k :: 0 <= k < |QuadIndices(n)| ==> 0 <= QuadIndices(n)[k] < 4 * n
  {
    if n > 0 {
      QuadIndicesInRange(n - 1);
      var r := QuadIndices(n);
      forall k | 0 <= k < |r|
        ensures 0 <= r[k] < 4 * n
      {
        if k < 6 * (n - 1) {
          assert r[k] == QuadIndices(n - 1)[k];
        } else {
          assert r[k] == TriangleIndices(n - 1)[k - 6 * (n - 1)];
        }
      }
    }
  }

  /** Entries 6i … 6i + 5 of the index buffer are quad i's two triangles. */
  lemma {:induction false} QuadIndicesAt(n: nat, i: nat)
    requires i < n
    ensures QuadIndices(n)[6 * i..6 * i + 6] == TriangleIndices(i)
    decreases n
  {
    if i < n - 1 {
      QuadIndicesAt(n - 1, i);
      assert QuadIndices(n)[..6 * (n - 1)] == QuadIndices(n - 1);
    }
  }

  /** Entries 12i + 3j … 12i + 3j + 2 of the vertex buffer are corner j of quad i, lifted. */
  lemma {:induction false} QuadVerticesAt(quads: seq<Quad>, lift: real, i: nat, j: nat)
    requires i < |quads| && j < 4
    ensures QuadVertices(quads, lift)[12 * i + 3 * j..12 * i + 3 * j + 3] == Coords(Corner(quads[i], j), lift)
    decreases |quads|
  {
    var n := |quads|;
    var r := QuadVertices(quads, lift);
    if i < n - 1 {
      QuadVerticesAt(quads[..n - 1], lift, i, j);
      assert quads[..n - 1][i] == quads[i];
      assert r[..12 * (n - 1)] == QuadVertices(quads[..n - 1], lift);
    } else {
      CornerCoordsAt(quads[i], lift, 4, j);
      assert r[12 * i..] == CornerCoords(quads[i], lift, 4);
    }
  }

  lemma {:induction false} CornerCoordsAt(q: Quad, lift: real, k: nat, j: nat)
    requires j < k <= 4
    ensures CornerCoords(q, lift, k)[3 * j..3 * j + 3] == Coords(Corner(q, j), lift)
    decreases k
  {
    if j < k - 1 {
      CornerCoordsAt(q, lift, k - 1, j);
      assert CornerCoords(q, lift, k)[..3 * (k - 1)] == CornerCoords(q, lift, k - 1);
    }
  }

  /**
   * The buffer loop shared by `createSmoothPath` (lift 0) and
   * `createPathEdges` (lift 0.005): every corner of every quad is pushed as
   * x, y + lift, z, and each quad adds its two triangles.
   */
  method BuildBuffers(quads: seq<Quad>, lift: real) returns (vertices: seq<real>, indices: seq<int>)
    ensures vertices == QuadVertices(quads, lift)
    ensures indices == QuadIndices(|quads|)
  {
    vertices := [];
    indices := [];
    var i := 0;
    while i < |quads|
      invariant 0 <= i <= |quads|
      invariant vertices == QuadVertices(quads[..i], lift)
      invariant indices == QuadIndices(i)
    {
      var segment := quads[i];
      var j := 0;
      while j < 4
        invariant 0 <= j <= 4
        invariant vertices == QuadVertices(quads[..i], lift) + CornerCoords(segment, lift, j)
      {
        var corner := Corner(segment, j);
        vertices := vertices + [corner.x, corner.y + lift, corner.z];
        j := j + 1;
      }
      var baseIndex := i * 4;
      indices := indices + [baseIndex, baseIndex + 1, baseIndex + 2, baseIndex, baseIndex + 2, baseIndex + 3];
      assert quads[..i + 1][..i] == quads[..i];
      i := i + 1;
    }
    assert quads[..i] == quads;
  }

  /** A built mesh: its vertex buffer and its index buffer. */
  datatype Strip = Strip(vertices: seq<real>, indices: seq<int>)

  /** The curved branch of `createSmoothPath` on the sampled curve points. */
  method CreateSmoothPath(m: Math, points: seq<Vec3>, width: real) returns (path: Strip)
    ensures path == Strip(QuadVertices(PathQuads(m, points, width), 0.0), QuadIndices(|PathQuads(m, points, width)|))
  {
    var pathPoints := BuildPathQuads(m, points, width);
    var vertices, indices := BuildBuffers(pathPoints, 0.0);
    path := Strip(vertices, indices);
  }

  // ---------------------------------------------------------------------
  // createPathEdges
  // ---------------------------------------------------------------------

  /**
   * One segment of an edge strip on side −1 (left) or +1 (right): offsets
   * (pathWidth/2 + edgeWidth/2)·side and that plus edgeWidth·side; the left
   * side stores [v1, v2, v4, v3], the right side [v2, v1, v3, v4].
   */
  function EdgeQuad(m: Math, current: Vec3, next: Vec3, pathWidth: real, edgeWidth: real, side: int): Quad
    requires side == -1 || side == 1
  {
    var perpendicular := Perpendicular(m, current, next);
    var offset := (pathWidth / 2.0 + edgeWidth / 2.0) * side as real;
    var v1 := Add(current, Scale(perpendicular, offset));
    var v2 := Add(current, Scale(perpendicular, offset + edgeWidth * side as real));
    var v3 := Add(next, Scale(perpendicular, offset));
    var v4 := Add(next, Scale(perpendicular, offset + edgeWidth * side as real));
    if side < 0 then Quad(v1, v2, v4, v3) else Quad(v2, v1, v3, v4)
  }

  /**
   * The right quad mirrors the left one through the centre line: corners
   * 0, 1, 2, 3 of the left quad and corners 1, 0, 3, 2 of the right quad
   * are symmetric about `current` (first two) and `next` (last two).
   */
  lemma EdgeQuadsMirror(m: Math, current: Vec3, next: Vec3, pathWidth: real, edgeWidth: real)
    ensures Midpoint(EdgeQuad(m, current, next, pathWidth, edgeWidth, -1).c0,
                     EdgeQuad(m, current, next, pathWidth, edgeWidth, 1).c1) == current
    ensures Midpoint(EdgeQuad(m, current, next, pathWidth, edgeWidth, -1).c1,
                     EdgeQuad(m, current, next, pathWidth, edgeWidth, 1).c0) == current
    ensures Midpoint(EdgeQuad(m, current, next, pathWidth, edgeWidth, -1).c2,
                     EdgeQuad(m, current, next, pathWidth, edgeWidth, 1).c3) == next
    ensures Midpoint(EdgeQuad(m, current, next, pathWidth, edgeWidth, -1).c3,
                     EdgeQuad(m, current, next, pathWidth, edgeWidth, 1).c2) == next
  {
    var perpendicular := Perpendicular(m, current, next);
    var inner := pathWidth / 2.0 + edgeWidth / 2.0;
    MirrorPair(current, perpendicular, inner * -1.0, inner * 1.0);
    MirrorPair(current, perpendicular, inner * -1.0 + edgeWidth * -1.0, inner * 1.0 + edgeWidth * 1.0);
    MirrorPair(next, perpendicular, inner * -1.0, inner * 1.0);
    MirrorPair(next, perpendicular, inner * -1.0 + edgeWidth * -1.0, inner * 1.0 + edgeWidth * 1.0);
  }

  /** Two points offset by opposite amounts along the same direction have the origin as midpoint. */
  lemma MirrorPair(origin: Vec3, direction: Vec3, a: real, b: real)
    requires b == -a
    ensures Midpoint(Add(origin, Scale(direction, a)), Add(origin, Scale(direction, b))) == origin
  {
  }

  function EdgeQuads(m: Math, points: seq<Vec3>, pathWidth: real, edgeWidth: real, side: int): (r: seq<Quad>)
    requires side == -1 || side == 1
    ensures |r| == |PathQuads(m, points, pathWidth)|
  {
    if |points| == 0 then []
    else seq(|points| - 1, i requires 0 <= i < |points| - 1 =>
               EdgeQuad(m, points[i], points[i + 1], pathWidth, edgeWidth, side))
  }

  /** The `edgePoints` loop for one side. */
  method BuildEdgeQuads(m: Math, points: seq<Vec3>, pathWidth: real, edgeWidth: real, side: int)
    returns (edgePoints: seq<Quad>)
    requires side == -1 || side == 1
    ensures edgePoints == EdgeQuads(m, points, pathWidth, edgeWidth, side)
  {
    edgePoints := [];
    var i := 0;
    while i < |points| - 1
      invariant 0 <= i && (|points| == 0 ==> i == 0) && (|points| > 0 ==> i <= |points| - 1)
      invariant |edgePoints| == i
      invariant forall k :: 0 <= k < i ==>
                  edgePoints[k] == EdgeQuad(m, points[k], points[k + 1], pathWidth, edgeWidth, side)
    {
      edgePoints := edgePoints + [EdgeQuad(m, points[i], points[i + 1], pathWidth, edgeWidth, side)];
      i := i + 1;
    }
  }

  /** The edge strip of one side, with every vertex lifted by 0.005. */
  function EdgeStrip(m: Math, points: seq<Vec3>, pathWidth: real, edgeWidth: real, side: int): Strip
    requires side == -1 || side == 1
  {
    var quads := EdgeQuads(m, points, pathWidth, edgeWidth, side);
    Strip(QuadVertices(quads, 0.005), QuadIndices(|quads|))
  }

  /** `createPathEdges`: the `side` loop runs for −1 and then +1, building one strip each. */
  method CreatePathEdges(m: Math, points: seq<Vec3>, pathWidth: real, edgeWidth: real) returns (strips: seq<Strip>)
    ensures strips == [EdgeStrip(m, points, pathWidth, edgeWidth, -1), EdgeStrip(m, points, pathWidth, edgeWidth, 1)]
  {
    strips := [];
    var side := -1;
    while side <= 1
      invariant side == -1 || side == 1 || side == 3
      invariant side == -1 ==> strips == []
      invariant side == 1 ==> strips == [EdgeStrip(m, points, pathWidth, edgeWidth, -1)]
      invariant side == 3 ==> strips == [EdgeStrip(m, points, pathWidth, edgeWidth, -1), EdgeStrip(m, points, pathWidth, edgeWidth, 1)]
    {
      var edgePoints := BuildEdgeQuads(m, points, pathWidth, edgeWidth, side);
      var vertices, indices := BuildBuffers(edgePoints, 0.005);
      strips := strips + [Strip(vertices, indices)];
      side := side + 2;
    }
  }

  /** Every vertex of an edge strip sits 0.005 above its corner. */
  lemma EdgeStripLifted(m: Math, points: seq<Vec3>, pathWidth: real, edgeWidth: real, side: int, i: nat, j: nat)
    requires side == -1 || side == 1
    requires i < |EdgeQuads(m, points, pathWidth, edgeWidth, side)| && j < 4
    ensures EdgeStrip(m, points, pathWidth, edgeWidth, side).vertices[12 * i + 3 * j + 1]
         == Corner(EdgeQuads(m, points, pathWidth, edgeWidth, side)[i], j).y + 0.005
  {
    var quads := EdgeQuads(m, points, pathWidth, edgeWidth, side);
    QuadVerticesAt(quads, 0.005, i, j);
    assert QuadVertices(quads, 0.005)[12 * i + 3 * j + 1]
        == QuadVertices(quads, 0.005)[12 * i + 3 * j..12 * i + 3 * j + 3][1];
  }

  // ---------------------------------------------------------------------
  // Straight paths
  // ---------------------------------------------------------------------

  /** World x of a plane vertex (x, z): the midpoint plus the rotation by `angle`. */
  function WorldX(m: Math, midX: real, angle: real, x: real, z: real): real {
    midX + m.cos(angle) * x - m.sin(angle) * z
  }

  function WorldZ(m: Math, midZ: real, angle: real, x: real, z: real): real {
    midZ + m.sin(angle) * x + m.cos(angle) * z
  }

  /**
   * The ground height under a plane vertex given in the path's own frame;
   * `groundAt` is `getGroundHeight` at a world point.
   */
  ghost function LocalGround(m: Math, midX: real, midZ: real, angle: real, groundAt: (real, real) -> real): (real, real) -> real {
    (x, z) => groundAt(WorldX(m, midX, angle, x, z), WorldZ(m, midZ, angle, x, z))
  }

  /** A y that follows the ground: moved to groundY + 0.02 where the ground height is non-zero, else kept. */
  function FollowGround(groundY: real, y: real): (r: real)
    ensures groundY == 0.0 ==> r == y
    ensures groundY != 0.0 ==> r - groundY == 0.02
  {
    if groundY != 0.0 then groundY + 0.02 else y
  }

  /** A position buffer after the straight-path loop: the y of each whole triple follows the ground at (x, z). */
  ghost function Lifted(ground: (real, real) -> real, s: seq<real>): (r: seq<real>)
    ensures |r| == |s|
    decreases |s|
  {
    if |s| < 3 then s
    else [s[0], FollowGround(ground(s[0], s[2]), s[1]), s[2]] + Lifted(ground, s[3..])
  }

  /** Triple k of a lifted buffer: x and z kept, y follows the ground. */
  lemma {:induction false} LiftedTriple(ground: (real, real) -> real, s: seq<real>, k: nat)
    requires 3 * k + 2 < |s|
    ensures Lifted(ground, s)[3 * k] == s[3 * k]
    ensures Lifted(ground, s)[3 * k + 1] == FollowGround(ground(s[3 * k], s[3 * k + 2]), s[3 * k + 1])
    ensures Lifted(ground, s)[3 * k + 2] == s[3 * k + 2]
    decreases k
  {
    if k > 0 {
      LiftedTriple(ground, s[3..], k - 1);
    }
  }

  lemma {:induction false} LiftedAppend(ground: (real, real) -> real, s: seq<real>, t: nat, x: real, y: real, z: real)
    requires |s| == 3 * t
    ensures Lifted(ground, s + [x, y, z]) == Lifted(ground, s) + [x, FollowGround(ground(x, z), y), z]
    decreases t
  {
    if t == 0 {
      assert s + [x, y, z] == [x, y, z];
    } else {
      assert (s + [x, y, z])[3..] == s[3..] + [x, y, z];
      LiftedAppend(ground, s[3..], t - 1, x, y, z);
    }
  }

  /**
   * The vertex loop of a straight path, in place on the position buffer of
   * its plane: x and z are read, the ground under the vertex looked up, and
   * y rewritten only where that ground height is non-zero.
   */
  method AdjustStraightPath(m: Math, positions: array<real>, midX: real, midZ: real, angle: real,
                            groundAt: (real, real) -> real)
    modifies positions
    ensures positions[..] == Lifted(LocalGround(m, midX, midZ, angle, groundAt), old(positions[..]))
  {
    ghost var original := positions[..];
    var count := positions.Length / 3;
    var i := 0;
    while i < count
      invariant 0 <= i <= count && 3 * count <= |original| == positions.Length
      invariant positions[..] == Lifted(LocalGround(m, midX, midZ, angle, groundAt), original[..3 * i]) + original[3 * i..]
    {
      AdjustVertex(m, positions, midX, midZ, angle, groundAt, i, original);
      i := i + 1;
    }
    LiftedTail(LocalGround(m, midX, midZ, angle, groundAt), original, count);
  }

  /** One turn of the straight-path loop. */
  method AdjustVertex(m: Math, positions: array<real>, midX: real, midZ: real, angle: real,
                      groundAt: (real, real) -> real, i: nat, ghost original: seq<real>)
    requires 3 * i + 3 <= positions.Length == |original|
    requires positions[..] == Lifted(LocalGround(m, midX, midZ, angle, groundAt), original[..3 * i]) + original[3 * i..]
    modifies positions
    ensures positions[..] == Lifted(LocalGround(m, midX, midZ, angle, groundAt), original[..3 * i + 3]) + original[3 * i + 3..]
  {
    ghost var ground := LocalGround(m, midX, midZ, angle, groundAt);
    var x := positions[3 * i];
    var z := positions[3 * i + 2];
    var worldX := WorldX(m, midX, angle, x, z);
    var worldZ := WorldZ(m, midZ, angle, x, z);
    var groundY := groundAt(worldX, worldZ);
    if groundY != 0.0 {
      positions[3 * i + 1] := groundY + 0.02;
    }
    LiftedStep(ground, original, i, x, z, groundY);
  }

  lemma LiftedStep(ground: (real, real) -> real, s: seq<real>, i: nat, x: real, z: real, groundY: real)
    requires 3 * i + 3 <= |s| && x == s[3 * i] && z == s[3 * i + 2] && groundY == ground(x, z)
    ensures (Lifted(ground, s[..3 * i]) + s[3 * i..])[3 * i + 1 := FollowGround(groundY, s[3 * i + 1])]
         == Lifted(ground, s[..3 * i + 3]) + s[3 * i + 3..]
  {
    assert s[..3 * i + 3] == s[..3 * i] + [s[3 * i], s[3 * i + 1], s[3 * i + 2]];
    LiftedAppend(ground, s[..3 * i], i, s[3 * i], s[3 * i + 1], s[3 * i + 2]);
  }

  /** A trailing partial triple is left as it is. */
  lemma LiftedTail(ground: (real, real) -> real, s: seq<real>, count: nat)
    requires count == |s| / 3
    ensures Lifted(ground, s[..3 * count]) + s[3 * count..] == Lifted(ground, s)
  {
    LiftedSplit(ground, s, count);
  }

  lemma {:induction false} LiftedSplit(ground: (real, real) -> real, s: seq<real>, t: nat)
    requires 3 * t <= |s|
    ensures Lifted(ground, s) == Lifted(ground, s[..3 * t]) + Lifted(ground, s[3 * t..])
    decreases t
  {
    if t > 0 {
      LiftedSplit(ground, s[3..], t - 1);
      assert s[3..][..3 * (t - 1)] == s[3..3 * t];
      assert s[3..][3 * (t - 1)..] == s[3 * t..];
      assert s[..3 * t][3..] == s[3..3 * t];
    }
  }

  // ---------------------------------------------------------------------
  // Border elements
  // ---------------------------------------------------------------------

  /** Rocks, flowers and grass with probabilities 0.4, 0.3 and 0.3, in list order. */
  const BorderProbabilities: seq<real> := [0.4, 0.3, 0.3]

  function Sum(s: seq<real>): real {
    if |s| == 0 then 0.0 else Sum(s[..|s| - 1]) + s[|s| - 1]
  }

  /** The type chosen by the cumulative scan from index k, with `cumProb` the sum of the first k probabilities. */
  function ChoiceFrom(probabilities: seq<real>, draw: real, k: nat, cumProb: real): Option<nat>
    decreases |probabilities| - k
  {
    if k >= |probabilities| then None
    else if draw < cumProb + probabilities[k] then Some(k)
    else ChoiceFrom(probabilities, draw, k + 1, cumProb + probabilities[k])
  }

  /** The first type whose cumulative probability exceeds the draw, if any. */
  function Choice(probabilities: seq<real>, draw: real): Option<nat> {
    ChoiceFrom(probabilities, draw, 0, 0.0)
  }

  /** The `for (const borderType of borderTypes)` loop with its running `cumProb` and `break`. */
  method ChooseBorderType(probabilities: seq<real>, draw: real) returns (chosenType: Option<nat>)
    ensures chosenType == Choice(probabilities, draw)
  {
    chosenType := None;
    var cumProb := 0.0;
    var k := 0;
    while k < |probabilities|
      invariant 0 <= k <= |probabilities|
      invariant cumProb == Sum(probabilities[..k])
      invariant Choice(probabilities, draw) == ChoiceFrom(probabilities, draw, k, cumProb)
    {
      assert probabilities[..k + 1][..k] == probabilities[..k];
      cumProb := cumProb + probabilities[k];
      if draw < cumProb {
        chosenType := Some(k);
        return;
      }
      k := k + 1;
    }
  }

  /**
   * With non-negative probabilities a type is chosen exactly when the draw
   * is below the total, and the chosen k is the one whose cumulative band
   * [Sum(first k), Sum(first k + 1)) holds the draw.
   */
  lemma {:induction false} ChoiceFromBands(probabilities: seq<real>, draw: real, k: nat, cumProb: real)
    requires k <= |probabilities| && cumProb == Sum(probabilities[..k]) && cumProb <= draw
    requires forall j :: 0 <= j < |probabilities| ==> 0.0 <= probabilities[j]
    ensures ChoiceFrom(probabilities, draw, k, cumProb) == None <==> Sum(probabilities) <= draw
    ensures ChoiceFrom(probabilities, draw, k, cumProb).Some? ==>
              var c := ChoiceFrom(probabilities, draw, k, cumProb).value;
              c < |probabilities| && Sum(probabilities[..c]) <= draw < Sum(probabilities[..c + 1])
    decreases |probabilities| - k
  {
    assert probabilities[..|probabilities|] == probabilities;
    if k < |probabilities| {
      assert probabilities[..k + 1][..k] == probabilities[..k];
      if draw >= cumProb + probabilities[k] {
        ChoiceFromBands(probabilities, draw, k + 1, cumProb + probabilities[k]);
      } else {
        SumPrefixMonotone(probabilities, k + 1);
      }
    }
  }

  /** With non-negative entries, a prefix sums to at most the whole. */
  lemma {:induction false} SumPrefixMonotone(s: seq<real>, k: nat)
    requires k <= |s|
    requires forall j :: 0 <= j < |s| ==> 0.0 <= s[j]
    ensures Sum(s[..k]) <= Sum(s)
    decreases |s| - k
  {
    if k < |s| {
      SumPrefixMonotone(s, k + 1);
      assert s[..k + 1][..k] == s[..k];
    } else {
      assert s[..k] == s;
    }
  }

  lemma ChoiceBands(probabilities: seq<real>, draw: real)
    requires 0.0 <= draw
    requires forall j :: 0 <= j < |probabilities| ==> 0.0 <= probabilities[j]
    ensures Choice(probabilities, draw) == None <==> Sum(probabilities) <= draw
    ensures Choice(probabilities, draw).Some? ==>
              var c := Choice(probabilities, draw).value;
              c < |probabilities| && Sum(probabilities[..c]) <= draw < Sum(probabilities[..c + 1])
  {
    ChoiceFromBands(probabilities, draw, 0, 0.0);
  }

  /** For the park's table: rock below 0.4, flower below 0.7, grass below 1.0, nothing from 1.0 on. */
  lemma BorderChoice(draw: real)
    requires 0.0 <= draw
    ensures draw < 0.4 ==> Choice(BorderProbabilities, draw) == Some(0)
    ensures 0.4 <= draw < 0.7 ==> Choice(BorderProbabilities, draw) == Some(1)
    ensures 0.7 <= draw < 1.0 ==> Choice(BorderProbabilities, draw) == Some(2)
    ensures Choice(BorderProbabilities, draw) == None <==> 1.0 <= draw
  {
    var p := BorderProbabilities;
    assert p[..0] == [] && p[..1][..0] == [] && p[..2][..1] == p[..1] && p[..3][..2] == p[..2] && p[..3] == p;
    assert Sum(p[..1]) == 0.4;
    assert Sum(p[..2]) == 0.7;
    assert Sum(p) == 1.0;
    ChoiceBands(p, draw);
  }

  /** A placed border element: sample index, side, chosen type, perpendicular offset and scale. */
  datatype BorderElement = BorderElement(index: int, side: int, kind: nat, offset: real, scale: real)

  /** The facts every placed element satisfies for a sampler over `limit` indices and a path of this width. */
  predicate ElementOk(e: BorderElement, limit: int, width: real) {
    && e.index % 2 == 1 && 1 <= e.index < limit
    && (e.side == -1 || e.side == 1)
    && e.kind < |BorderProbabilities|
    && width / 2.0 + 0.3 <= e.offset * e.side as real < width / 2.0 + 1.0
    && 0.8 <= e.scale < 1.2
  }

  /** One side's turn at a sample index: the element it places, if any, and the next unused draw. */
  datatype Turn = Turn(element: Option<BorderElement>, next: nat)

  /**
   * Side `side` of sample index i, reading draws from `at`: a draw above 0.4
   * skips the side; otherwise the offset, x-jitter, z-jitter and type draws
   * follow, and when a type is chosen a scale draw and then the draws that
   * type's mesh builder takes (`meshDraws(kind, first draw)` of them).
   */
  function SideTurn(i: int, side: int, width: real, rand: nat -> real, meshDraws: (nat, nat) -> nat, at: nat): (r: Turn)
    requires UnitDraws(rand) && (side == -1 || side == 1)
    ensures r.element.Some? <==> rand(at) <= 0.4 && Choice(BorderProbabilities, rand(at + 4)).Some?
    ensures r.element.Some? ==>
      && r.element.value.kind == Choice(BorderProbabilities, rand(at + 4)).value
      && r.element.value.scale == 0.8 + rand(at + 5) * 0.4
      && r.element.value.offset == (width / 2.0 + 0.3 + rand(at + 1) * 0.7) * side as real
      && r.element.value.index == i && r.element.value.side == side
    ensures rand(at) > 0.4 ==> r.next == at + 1
    ensures rand(at) <= 0.4 && r.element.None? ==> r.next == at + 5
    ensures r.element.Some? ==> r.next == at + 6 + meshDraws(r.element.value.kind, at + 6)
    ensures at < r.next
  {
    if rand(at) > 0.4 then Turn(None, at + 1)
    else
      var offset := (width / 2.0 + 0.3 + rand(at + 1) * 0.7) * side as real;
      var chosen := Choice(BorderProbabilities, rand(at + 4));
      if chosen.None? then Turn(None, at + 5)
      else Turn(Some(BorderElement(i, side, chosen.value, offset, 0.8 + rand(at + 5) * 0.4)),
                at + 6 + meshDraws(chosen.value, at + 6))
  }

  /**
   * The draw order of one side: skip 0.0, offset 0.5, jitters 0.5 and 0.95,
   * type 0.1 (a rock) and scale 0.5 place a rock of scale 1.0 at offset
   * −1.65 on a width-2 path, and the next side starts at draw 6.
   */
  lemma SideTurnDrawOrder(rand: nat -> real, meshDraws: (nat, nat) -> nat)
    requires UnitDraws(rand) && meshDraws(0, 6) == 0
    requires rand(0) == 0.0 && rand(1) == 0.5 && rand(2) == 0.5 && rand(3) == 0.95 && rand(4) == 0.1 && rand(5) == 0.5
    ensures SideTurn(1, -1, 2.0, rand, meshDraws, 0) == Turn(Some(BorderElement(1, -1, 0, -1.65, 1.0)), 6)
  {
    BorderChoice(rand(4));
  }

  /** The element list of an optional element. */
  function Listed(e: Option<BorderElement>): (r: seq<BorderElement>)
    ensures e.None? ==> r == []
    ensures e.Some? ==> r == [e.value]
  {
    if e.Some? then [e.value] else []
  }

  /**
   * The elements the sampler places from index i on, starting at side
   * `side` of i (3 once both sides are done), reading draws from `at`; and
   * the next unused draw.
   */
  function Placed(limit: int, width: real, rand: nat -> real, meshDraws: (nat, nat) -> nat, i: int, side: int, at: nat)
    : (r: (seq<BorderElement>, nat))
    requires UnitDraws(rand) && (side == -1 || side == 1 || side == 3)
    ensures at <= r.1
    decreases limit - i, 3 - side
  {
    if i >= limit then ([], at)
    else if side == 3 then Placed(limit, width, rand, meshDraws, i + 2, -1, at)
    else
      var turn := SideTurn(i, side, width, rand, meshDraws, at);
      var rest := Placed(limit, width, rand, meshDraws, i, side + 2, turn.next);
      (Listed(turn.element) + rest.0, rest.1)
  }

  /** Every element satisfies `ElementOk` with index at least `from`, and the elements come in index order. */
  predicate WellPlaced(r: seq<BorderElement>, from: int, limit: int, width: real) {
    && (forall k :: 0 <= k < |r| ==> ElementOk(r[k], limit, width) && from <= r[k].index)
    && (forall k, l :: 0 <= k < l < |r| ==> r[k].index <= r[l].index)
  }

  /** The elements the sampler places from an odd index i ≥ 1 on are `WellPlaced` from i. */
  lemma {:induction false} PlacedOk(limit: int, width: real, rand: nat -> real, meshDraws: (nat, nat) -> nat, i: int, side: int, at: nat)
    requires UnitDraws(rand) && (side == -1 || side == 1 || side == 3)
    requires i % 2 == 1 && 1 <= i
    ensures WellPlaced(Placed(limit, width, rand, meshDraws, i, side, at).0, i, limit, width)
    decreases limit - i, 3 - side
  {
    if i >= limit {
    } else if side == 3 {
      PlacedOk(limit, width, rand, meshDraws, i + 2, -1, at);
      WellPlacedLower(Placed(limit, width, rand, meshDraws, i + 2, -1, at).0, i + 2, i, limit, width);
    } else {
      var turn := SideTurn(i, side, width, rand, meshDraws, at);
      var rest := Placed(limit, width, rand, meshDraws, i, side + 2, turn.next).0;
      assert Placed(limit, width, rand, meshDraws, i, side, at).0 == Listed(turn.element) + rest;
      PlacedOk(limit, width, rand, meshDraws, i, side + 2, turn.next);
      if turn.element.Some? {
        TurnOk(limit, i, side, width, rand, meshDraws, at);
        WellPlacedCons(turn.element.value, rest, i, limit, width);
      } else {
        assert Listed(turn.element) + rest == rest;
      }
    }
  }

  /** A placed side's element at a sample index below the limit satisfies `ElementOk`. */
  lemma TurnOk(limit: int, i: int, side: int, width: real, rand: nat -> real, meshDraws: (nat, nat) -> nat, at: nat)
    requires UnitDraws(rand) && (side == -1 || side == 1)
    requires i % 2 == 1 && 1 <= i < limit
    ensures var e := SideTurn(i, side, width, rand, meshDraws, at).element;
      e.Some? ==> ElementOk(e.value, limit, width) && e.value.index == i
  {
    var e := SideTurn(i, side, width, rand, meshDraws, at).element;
    if e.Some? {
      BorderChoice(rand(at + 4));
      OffsetBand(width, rand(at + 1), side);
    }
  }

  lemma WellPlacedLower(r: seq<BorderElement>, from: int, lower: int, limit: int, width: real)
    requires WellPlaced(r, from, limit, width) && lower <= from
    ensures WellPlaced(r, lower, limit, width)
  {
  }

  lemma WellPlacedCons(e: BorderElement, rest: seq<BorderElement>, i: int, limit: int, width: real)
    requires ElementOk(e, limit, width) && e.index == i && WellPlaced(rest, i, limit, width)
    ensures WellPlaced([e] + rest, i, limit, width)
  {
    var r := [e] + rest;
    assert forall k :: 1 <= k < |r| ==> r[k] == rest[k - 1];
  }

  /**
   * At most two elements per sample index: from index i, side `side`, the
   * sampler places at most two per odd index still ahead, less the sides of
   * i already done.
   */
  lemma {:induction false} PlacedCount(limit: int, width: real, rand: nat -> real, meshDraws: (nat, nat) -> nat, i: int, side: int, at: nat)
    requires UnitDraws(rand) && (side == -1 || side == 1 || side == 3)
    requires i % 2 == 1 && 1 <= i && (i == 1 || i - 2 < limit) && (i < limit || side == -1)
    ensures |Placed(limit, width, rand, meshDraws, i, side, at).0| + 2 * |OddIndicesBelow(i)| + (side + 1) / 2
            <= 2 * |OddIndicesBelow(limit)|
    decreases limit - i, 3 - side
  {
    if i >= limit {
      if i > 1 {
        OddIndicesSettle(i, limit);
      }
    } else if side == 3 {
      OddIndicesStep(i);
      PlacedCount(limit, width, rand, meshDraws, i + 2, -1, at);
    } else {
      var turn := SideTurn(i, side, width, rand, meshDraws, at);
      PlacedCount(limit, width, rand, meshDraws, i, side + 2, turn.next);
    }
  }

  /**
   * The element loop of `placeBorderElements`, the same for curved paths
   * (limit = points.length − 1) and straight ones (limit = steps): indices
   * 1, 3, 5, … below the limit, both sides, each side skipped when its draw
   * exceeds 0.4. Draws per kept side: offset, x and z jitter, type, and,
   * when a type is chosen, a scale and the mesh builder's own draws.
   */
  method PlaceBorderElements(limit: int, width: real, rand: nat -> real, meshDraws: (nat, nat) -> nat, cursor: nat)
    returns (elements: seq<BorderElement>, next: nat)
    requires UnitDraws(rand)
    ensures (elements, next) == Placed(limit, width, rand, meshDraws, 1, -1, cursor)
    ensures forall k :: 0 <= k < |elements| ==> ElementOk(elements[k], limit, width)
    ensures forall k, l :: 0 <= k < l < |elements| ==> elements[k].index <= elements[l].index
    ensures |elements| <= 2 * |OddIndicesBelow(limit)|
  {
    ghost var total := Placed(limit, width, rand, meshDraws, 1, -1, cursor);
    elements := [];
    next := cursor;
    assert elements + total.0 == total.0;
    var i := 1;
    while i < limit
      invariant i % 2 == 1 && 1 <= i
      invariant total.0 == elements + Placed(limit, width, rand, meshDraws, i, -1, next).0
      invariant total.1 == Placed(limit, width, rand, meshDraws, i, -1, next).1
    {
      var placed, after := PlaceSides(limit, i, width, rand, meshDraws, next);
      assert total.0 == (elements + placed) + Placed(limit, width, rand, meshDraws, i + 2, -1, after).0;
      elements := elements + placed;
      next := after;
      i := i + 2;
    }
    assert elements + Placed(limit, width, rand, meshDraws, i, -1, next).0 == elements;
    PlacedOk(limit, width, rand, meshDraws, 1, -1, cursor);
    PlacedCount(limit, width, rand, meshDraws, 1, -1, cursor);
  }

  /**
   * The side loop at sample index i: side −1, then side +1. It appends
   * what `Placed` assigns to index i and takes the draws it assigns there.
   */
  method PlaceSides(limit: int, i: int, width: real, rand: nat -> real, meshDraws: (nat, nat) -> nat, at: nat)
    returns (placed: seq<BorderElement>, next: nat)
    requires UnitDraws(rand) && i < limit
    ensures Placed(limit, width, rand, meshDraws, i, -1, at).0
            == placed + Placed(limit, width, rand, meshDraws, i + 2, -1, next).0
    ensures Placed(limit, width, rand, meshDraws, i, -1, at).1 == Placed(limit, width, rand, meshDraws, i + 2, -1, next).1
  {
    ghost var total := Placed(limit, width, rand, meshDraws, i, -1, at);
    placed := [];
    next := at;
    assert placed + total.0 == total.0;
    var side := -1;
    while side <= 1
      invariant side == -1 || side == 1 || side == 3
      invariant total.0 == placed + Placed(limit, width, rand, meshDraws, i, side, next).0
      invariant total.1 == Placed(limit, width, rand, meshDraws, i, side, next).1
    {
      var element, after := PlaceSide(i, side, width, rand, meshDraws, next);
      ghost var rest := Placed(limit, width, rand, meshDraws, i, side + 2, after);
      ghost var grown := placed + Listed(element);
      assert total.0 == grown + rest.0;
      if element.Some? {
        placed := placed + [element.value];
      }
      assert placed == grown;
      next := after;
      side := side + 2;
    }
  }

  /**
   * One side's turn of the element loop: the skip draw, then offset,
   * jitter and type draws, and for a chosen type the scale draw and the
   * mesh builder's draws. It follows `SideTurn`.
   */
  method PlaceSide(i: int, side: int, width: real, rand: nat -> real, meshDraws: (nat, nat) -> nat, at: nat)
    returns (element: Option<BorderElement>, next: nat)
    requires UnitDraws(rand) && (side == -1 || side == 1)
    ensures Turn(element, next) == SideTurn(i, side, width, rand, meshDraws, at)
  {
    element := None;
    next := at;
    var skip := rand(next);
    next := next + 1;
    if skip > 0.4 {
      return;
    }
    var offset := (width / 2.0 + 0.3 + rand(next) * 0.7) * side as real;
    next := next + 1;
    // The x- and z-jitter draws move the world position, which is not modelled.
    next := next + 2;
    var chosenType := ChooseBorderType(BorderProbabilities, rand(next));
    next := next + 1;
    if chosenType.Some? {
      var scale := 0.8 + rand(next) * 0.4;
      next := next + 1;
      next := next + meshDraws(chosenType.value, next);
      element := Some(BorderElement(i, side, chosenType.value, offset, scale));
    }
  }

  lemma OffsetBand(width: real, draw: real, side: int)
    requires 0.0 <= draw < 1.0 && (side == -1 || side == 1)
    ensures width / 2.0 + 0.3 <= (width / 2.0 + 0.3 + draw * 0.7) * side as real * side as real < width / 2.0 + 1.0
  {
  }

  /** The sample indices 1, 3, 5, … below n. */
  function OddIndicesBelow(n: int): (r: seq<int>)
    decreases n
  {
    if n <= 1 then [] else if n % 2 == 0 then OddIndicesBelow(n - 1) + [n - 1] else OddIndicesBelow(n - 1)
  }

  /** k is a sample index below n exactly when it is odd and 1 <= k < n. */
  lemma {:induction false} OddIndicesMembers(n: int, k: int)
    ensures k in OddIndicesBelow(n) <==> k % 2 == 1 && 1 <= k < n
    decreases n
  {
    if n > 1 {
      OddIndicesMembers(n - 1, k);
    }
  }

  lemma OddIndicesStep(i: int)
    requires i % 2 == 1 && 1 <= i
    ensures |OddIndicesBelow(i + 2)| == |OddIndicesBelow(i)| + 1
  {
    assert OddIndicesBelow(i + 2) == OddIndicesBelow(i + 1) == OddIndicesBelow(i) + [i];
  }

  /** Once the loop counter has passed the limit, it has visited exactly the indices below the limit. */
  lemma OddIndicesSettle(i: int, limit: int)
    requires i % 2 == 1 && limit <= i && i - 2 < limit
    ensures OddIndicesBelow(i) == OddIndicesBelow(limit)
  {
  }

  // ---------------------------------------------------------------------
  // Flower colour
  // ---------------------------------------------------------------------

  const Yellow: int := 0xffff99
  const Pink: int := 0xffcccc
  const Purple: int := 0x9999ff
  const White: int := 0xffffff

  /** The petal colour bucket of a flower at (x, z): `(x·0.1 + z·0.2) % 1.0` by quarters. */
  function FlowerColour(x: real, z: real): int {
    var colorSeed := JsMod(x * 0.1 + z * 0.2, 1.0);
    if colorSeed < 0.25 then Yellow
    else if colorSeed < 0.5 then Pink
    else if colorSeed < 0.75 then Purple
    else White
  }

  /**
   * A negative seed keeps its sign under JavaScript's `%` and always lands
   * in yellow; a non-negative one is bucketed by its fractional part.
   */
  lemma FlowerColourBuckets(x: real, z: real)
    ensures x * 0.1 + z * 0.2 < 0.0 ==> FlowerColour(x, z) == Yellow
    ensures 0.0 <= x * 0.1 + z * 0.2 ==>
              var f := x * 0.1 + z * 0.2 - Floor(x * 0.1 + z * 0.2) as real;
              (FlowerColour(x, z) == Yellow <==> f < 0.25) &&
              (FlowerColour(x, z) == Pink <==> 0.25 <= f < 0.5) &&
              (FlowerColour(x, z) == Purple <==> 0.5 <= f < 0.75) &&
              (FlowerColour(x, z) == White <==> 0.75 <= f)
  {
    var v := x * 0.1 + z * 0.2;
    JsModRange(v, 1.0);
    if 0.0 <= v {
      JsModFloor(v, 1.0);
      assert v / 1.0 == v;
    }
  }
}
