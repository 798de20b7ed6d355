/**
 * ThreeUtils: the scene's small helpers. Distances between points, the
 * degree/radian conversions, rejection sampling of a ground position away
 * from given spots, and the recursive disposal of an object tree that
 * releases its GPU resources and detaches every node.
 *
 * `Math.random` is the draw stream of `JsMath`; the library's `dispose()`
 * calls are recorded, in order, in a `Ledger`.
 */
module ThreeUtils {
  import opened JsMath
  import opened Three

  /** `distance(point1, point2)`: the square root of the summed squared differences. */
  function Distance(m: Math, p1: Vec3, p2: Vec3): (r: real)
    ensures Lawful(m) ==> 0.0 <= r
  {
    m.sqrt(Square(p2.x - p1.x) + Square(p2.y - p1.y) + Square(p2.z - p1.z))
  }

  /** The distance does not depend on the order of the points. */
  lemma DistanceSymmetric(m: Math, p: Vec3, q: Vec3)
    ensures Distance(m, p, q) == Distance(m, q, p)
  {
    SquareOfNegation(q.x - p.x);
    SquareOfNegation(q.y - p.y);
    SquareOfNegation(q.z - p.z);
  }

  lemma SquareOfNegation(a: real)
    ensures Square(-a) == Square(a)
  {
  }

  /** A point is at distance 0 from itself. */
  lemma DistanceToSelf(m: Math, p: Vec3)
    requires Lawful(m)
    ensures Distance(m, p, p) == 0.0
  {
    SqrtOfSquare(m, 0.0);
    assert Square(p.x - p.x) + Square(p.y - p.y) + Square(p.z - p.z) == 0.0 * 0.0;
  }

  /** `degToRad`: degrees · (π / 180). */
  function DegToRad(m: Math, degrees: real): real
    requires m.PI != 0.0
  {
    degrees * (m.PI / 180.0)
  }

  /** `radToDeg`: radians · (180 / π). */
  function RadToDeg(m: Math, radians: real): real
    requires m.PI != 0.0
  {
    radians * (180.0 / m.PI)
  }

  /** Over the reals the two conversions undo each other, in both orders. */
  lemma DegRadRoundTrip(m: Math, degrees: real, radians: real)
    requires m.PI != 0.0
    ensures RadToDeg(m, DegToRad(m, degrees)) == degrees
    ensures DegToRad(m, RadToDeg(m, radians)) == radians
  {
    var toRad, toDeg := m.PI / 180.0, 180.0 / m.PI;
    assert toRad * toDeg == 1.0;
    assert degrees * toRad * toDeg == degrees * (toRad * toDeg);
    assert radians * toDeg * toRad == radians * (toDeg * toRad);
  }

  /** A ground position `{x, z}`, and the shape of the spots to keep away from. */
  datatype Spot = Spot(x: real, z: real)

  /** The rectangle `randomPosition` samples from. */
  datatype Bounds = Bounds(minX: real, maxX: real, minZ: real, maxZ: real)

  /** The default rectangle [−10, 10) × [−10, 10) and the default clearance 2. */
  const DefaultBounds: Bounds := Bounds(-10.0, 10.0, -10.0, 10.0)
  const DefaultMinDistance: real := 2.0

  /** `randomPosition` gives up after this many samples. */
  const MaxAttempts: nat := 50

  /** The distance in the ground plane from (x, z) to a spot. */
  function PlaneDistance(m: Math, x: real, z: real, pos: Spot): real {
    m.sqrt(Square(x - pos.x) + Square(z - pos.z))
  }

  /** (x, z) is at least `minDistance` from every spot to avoid. */
  predicate Clear(m: Math, x: real, z: real, avoid: seq<Spot>, minDistance: real) {
    forall j :: 0 <= j < |avoid| ==> minDistance <= PlaneDistance(m, x, z, avoid[j])
  }

  /** Sample number `a` (from 0) reads draws `cursor + 2a` for x and `cursor + 2a + 1` for z. */
  function Sample(rand: nat -> real, cursor: nat, a: nat, b: Bounds): Spot {
    Spot(Stretch(rand(cursor + 2 * a), b.minX, b.maxX), Stretch(rand(cursor + 2 * a + 1), b.minZ, b.maxZ))
  }

  /** `Math.random() * (max - min) + min`. */
  function Stretch(draw: real, low: real, high: real): real {
    draw * (high - low) + low
  }

  /** With draws in [0, 1) and a non-empty rectangle, every sample lies inside it, the far edges excluded. */
  lemma SampleInBounds(rand: nat -> real, cursor: nat, a: nat, b: Bounds)
    requires UnitDraws(rand) && b.minX < b.maxX && b.minZ < b.maxZ
    ensures var s := Sample(rand, cursor, a, b);
      b.minX <= s.x < b.maxX && b.minZ <= s.z < b.maxZ
  {
    Within(rand(cursor + 2 * a), b.minX, b.maxX);
    Within(rand(cursor + 2 * a + 1), b.minZ, b.maxZ);
  }

  lemma Within(draw: real, low: real, high: real)
    requires 0.0 <= draw < 1.0 && low < high
    ensures low <= Stretch(draw, low, high) < high
  {
    StretchAbove(draw, low, high);
    StretchBelow(draw, low, high);
  }

  lemma StretchAbove(draw: real, low: real, high: real)
    requires 0.0 <= draw && low < high
    ensures low <= Stretch(draw, low, high)
  {
    ProductMonotone(0.0, draw, high - low);
  }

  lemma StretchBelow(draw: real, low: real, high: real)
    requires draw < 1.0 && low < high
    ensures Stretch(draw, low, high) < high
  {
    StrictProduct(draw, 1.0, high - low);
  }

  /**
   * The index of the sample `randomPosition` returns, searching from
   * attempt `a`: the first clear sample, or the last attempt when none is.
   */
  function Pick(m: Math, rand: nat -> real, cursor: nat, b: Bounds, avoid: seq<Spot>, minDistance: real, a: nat): (k: nat)
    requires a < MaxAttempts
    ensures a <= k < MaxAttempts
    decreases MaxAttempts - a
  {
    if Accepted(m, rand, cursor, b, avoid, minDistance, a) || a == MaxAttempts - 1 then a
    else Pick(m, rand, cursor, b, avoid, minDistance, a + 1)
  }

  /** Sample `a` passes the clearance test. */
  predicate Accepted(m: Math, rand: nat -> real, cursor: nat, b: Bounds, avoid: seq<Spot>, minDistance: real, a: nat) {
    var s := Sample(rand, cursor, a, b);
    Clear(m, s.x, s.z, avoid, minDistance)
  }

  /**
   * The picked sample is the first accepted one from attempt `a` on: every
   * earlier one was rejected, and it is itself accepted unless it is the last.
   */
  lemma {:induction false} PickIsFirst(m: Math, rand: nat -> real, cursor: nat, b: Bounds, avoid: seq<Spot>, minDistance: real, a: nat)
    requires a < MaxAttempts
    ensures var k := Pick(m, rand, cursor, b, avoid, minDistance, a);
      && (k < MaxAttempts - 1 ==> Accepted(m, rand, cursor, b, avoid, minDistance, k))
      && (forall j :: a <= j < k ==> !Accepted(m, rand, cursor, b, avoid, minDistance, j))
    decreases MaxAttempts - a
  {
    if !Accepted(m, rand, cursor, b, avoid, minDistance, a) && a < MaxAttempts - 1 {
      PickIsFirst(m, rand, cursor, b, avoid, minDistance, a + 1);
    }
  }

  /** With nothing to avoid the first sample is taken. */
  lemma NothingToAvoid(m: Math, rand: nat -> real, cursor: nat, b: Bounds, minDistance: real)
    ensures Pick(m, rand, cursor, b, [], minDistance, 0) == 0
  {
    assert Accepted(m, rand, cursor, b, [], minDistance, 0);
  }

  /** When all fifty samples are too close, the fiftieth is returned all the same. */
  lemma AllRejected(m: Math, rand: nat -> real, cursor: nat, b: Bounds, avoid: seq<Spot>, minDistance: real)
    requires forall j :: 0 <= j < MaxAttempts ==> !Accepted(m, rand, cursor, b, avoid, minDistance, j)
    ensures Pick(m, rand, cursor, b, avoid, minDistance, 0) == MaxAttempts - 1
  {
    PickIsFirst(m, rand, cursor, b, avoid, minDistance, 0);
    var k := Pick(m, rand, cursor, b, avoid, minDistance, 0);
    assert !Accepted(m, rand, cursor, b, avoid, minDistance, k);
  }

  /** The inner `for … of` with `break`: is (x, z) at least `minDistance` from every spot? */
  method FarFromAll(m: Math, x: real, z: real, avoid: seq<Spot>, minDistance: real) returns (valid: bool)
    ensures valid <==> Clear(m, x, z, avoid, minDistance)
  {
    valid := true;
    var j := 0;
    while j < |avoid|
      invariant 0 <= j <= |avoid|
      invariant forall i :: 0 <= i < j ==> minDistance <= PlaneDistance(m, x, z, avoid[i])
    {
      var distance := m.sqrt(Square(x - avoid[j].x) + Square(z - avoid[j].z));
      if distance < minDistance {
        valid := false;
        break;
      }
      j := j + 1;
    }
  }

  /**
   * `randomPosition`: sample until a position is clear of every spot or
   * fifty samples are spent, and return the last sample. `next` is the
   * first unused draw.
   */
  method RandomPosition(m: Math, rand: nat -> real, cursor: nat, b: Bounds, avoid: seq<Spot>, minDistance: real)
    returns (p: Spot, next: nat)
    ensures var k := Pick(m, rand, cursor, b, avoid, minDistance, 0);
      p == Sample(rand, cursor, k, b) && next == cursor + 2 * (k + 1)
  {
    ghost var k := Pick(m, rand, cursor, b, avoid, minDistance, 0);
    var validPosition := false;
    var attempts := 0;
    p := Spot(0.0, 0.0);
    next := cursor;
    while !validPosition && attempts < MaxAttempts
      invariant 0 <= attempts <= MaxAttempts && next == cursor + 2 * attempts
      invariant 0 < attempts ==> p == Sample(rand, cursor, attempts - 1, b)
      invariant validPosition ==> 0 < attempts && k == attempts - 1
      invariant !validPosition && attempts < MaxAttempts ==> k == Pick(m, rand, cursor, b, avoid, minDistance, attempts)
      invariant !validPosition && attempts == MaxAttempts ==> k == MaxAttempts - 1
    {
      p, validPosition := Attempt(m, rand, cursor, b, avoid, minDistance, attempts, next);
      attempts := attempts + 1;
      next := next + 2;
    }
  }

  /** One sample of the loop, from draws `next` and `next + 1`, and its clearance test. */
  method Attempt(m: Math, rand: nat -> real, cursor: nat, b: Bounds, avoid: seq<Spot>, minDistance: real, ghost a: nat, next: nat)
    returns (p: Spot, valid: bool)
    requires next == cursor + 2 * a
    ensures p == Sample(rand, cursor, a, b) && valid == Accepted(m, rand, cursor, b, avoid, minDistance, a)
  {
    var x := Stretch(rand(next), b.minX, b.maxX);
    var z := Stretch(rand(next + 1), b.minZ, b.maxZ);
    p := Spot(x, z);
    valid := FarFromAll(m, x, z, avoid, minDistance);
  }

  /** `randomPosition()` with every default: nothing to avoid, so the first sample of [−10, 10)² is taken. */
  method RandomPositionDefault(m: Math, rand: nat -> real, cursor: nat) returns (p: Spot, next: nat)
    ensures p == Spot(rand(cursor) * 20.0 - 10.0, rand(cursor + 1) * 20.0 - 10.0) && next == cursor + 2
  {
    NothingToAvoid(m, rand, cursor, DefaultBounds, DefaultMinDistance);
    p, next := RandomPosition(m, rand, cursor, DefaultBounds, [], DefaultMinDistance);
  }

  /** A property of a material: a texture (an object with `isTexture`) or anything else. */
  datatype Value = TextureValue(texture: nat) | OtherValue

  /** A material: its own handle and its properties in key order. */
  datatype Material = Material(handle: nat, properties: seq<Value>)

  /** `object.material`: one material, or an array whose entries may be missing. */
  datatype Materials = One(material: Material) | Many(materials: seq<Option<Material>>)

  /** The handle a property contributes to disposal: its texture's, if it is one. */
  function TextureOf(v: Value): seq<nat> {
    match v
    case TextureValue(t) => [t]
    case OtherValue => []
  }

  /** The texture handles among a material's properties, in key order. */
  function Textures(properties: seq<Value>): (r: seq<nat>)
    ensures |r| <= |properties|
  {
    if properties == [] then []
    else Textures(properties[..|properties| - 1]) + TextureOf(properties[|properties| - 1])
  }

  /** A handle is among the textures exactly when some property is that texture. */
  lemma {:induction false} TexturesExactly(properties: seq<Value>, t: nat)
    ensures t in Textures(properties) <==> exists i :: 0 <= i < |properties| && properties[i] == TextureValue(t)
    decreases |properties|
  {
    if properties != [] {
      var front := properties[..|properties| - 1];
      TexturesExactly(front, t);
      if t in Textures(front) {
        var i :| 0 <= i < |front| && front[i] == TextureValue(t);
        assert properties[i] == TextureValue(t);
      }
      if exists i :: 0 <= i < |properties| && properties[i] == TextureValue(t) {
        var i :| 0 <= i < |properties| && properties[i] == TextureValue(t);
        if i < |front| {
          assert front[i] == TextureValue(t);
        }
      }
    }
  }

  /** What `disposeMaterial` disposes, in order: the textures, then the material. */
  function MaterialDisposals(material: Option<Material>): seq<nat> {
    match material
    case None => []
    case Some(mat) => Textures(mat.properties) + [mat.handle]
  }

  /** What the material part of `disposeObject` disposes: each material of an array in turn. */
  function ListDisposals(materials: seq<Option<Material>>): seq<nat> {
    if materials == [] then []
    else ListDisposals(materials[..|materials| - 1]) + MaterialDisposals(materials[|materials| - 1])
  }

  function SlotDisposals(material: Option<Materials>): seq<nat> {
    match material
    case None => []
    case Some(One(mat)) => MaterialDisposals(Some(mat))
    case Some(Many(ms)) => ListDisposals(ms)
  }

  /** The resources a node releases itself, before it detaches: its geometry, then its materials. */
  function OwnDisposals(geometry: Option<nat>, material: Option<Materials>): seq<nat> {
    (match geometry case None => [] case Some(g) => [g]) + SlotDisposals(material)
  }

  /** The record of the library's `dispose()` calls, in call order. */
  class Ledger {
    var disposed: seq<nat>

    method Dispose(handle: nat)
      modifies this
      ensures disposed == old(disposed) + [handle]
    {
      disposed := disposed + [handle];
    }
  }

  /** `disposeMaterial`: dispose every texture-valued property in key order, then the material. */
  method DisposeMaterial(ledger: Ledger, material: Option<Material>)
    modifies ledger
    ensures ledger.disposed == old(ledger.disposed) + MaterialDisposals(material)
  {
    if material.None? {
      return;
    }
    var properties := material.value.properties;
    var i := 0;
    while i < |properties|
      invariant 0 <= i <= |properties|
      invariant ledger.disposed == old(ledger.disposed) + Textures(properties[..i])
    {
      assert properties[..i + 1][..i] == properties[..i];
      match properties[i] {
        case TextureValue(t) =>
          ledger.Dispose(t);
          AppendAssociative(old(ledger.disposed), Textures(properties[..i]), [t]);
        case OtherValue =>
      }
      i := i + 1;
    }
    assert properties[..i] == properties;
    ledger.Dispose(material.value.handle);
  }

  /** `object.material.forEach(disposeMaterial)`. */
  method DisposeMaterials(ledger: Ledger, materials: seq<Option<Material>>)
    modifies ledger
    ensures ledger.disposed == old(ledger.disposed) + ListDisposals(materials)
  {
    var i := 0;
    while i < |materials|
      invariant 0 <= i <= |materials|
      invariant ledger.disposed == old(ledger.disposed) + ListDisposals(materials[..i])
    {
      assert materials[..i + 1][..i] == materials[..i];
      DisposeMaterial(ledger, materials[i]);
      AppendAssociative(old(ledger.disposed), ListDisposals(materials[..i]), MaterialDisposals(materials[i]));
      i := i + 1;
    }
    assert materials[..i] == materials;
  }

  lemma AppendAssociative(a: seq<nat>, b: seq<nat>, c: seq<nat>)
    ensures (a + b) + c == a + (b + c)
  {
  }

  /** The first occurrence of `x` removed, as `remove` splices at `indexOf`. */
  function RemoveFirst(s: seq<Node>, x: Node): (r: seq<Node>)
    ensures x in s ==> |r| == |s| - 1
    ensures x !in s ==> r == s
    ensures |s| > 0 && s[0] == x ==> r == s[1..]
  {
    if s == [] then [] else if s[0] == x then s[1..] else [s[0]] + RemoveFirst(s[1..], x)
  }

  /** The first index of `x` in `s`: `indexOf`. */
  function IndexOf(s: seq<Node>, x: Node): (i: int)
    ensures x in s ==> 0 <= i < |s| && s[i] == x && x !in s[..i]
    ensures x !in s ==> i == -1
  {
    if s == [] then -1
    else if s[0] == x then 0
    else
      var j := IndexOf(s[1..], x);
      if j < 0 then -1 else (assert s[..j + 1] == [s[0]] + s[1..][..j]; j + 1)
  }

  /** Cutting at the first index is removing the first occurrence. */
  lemma {:induction false} SpliceAtIndexOf(s: seq<Node>, x: Node)
    requires x in s
    ensures s[..IndexOf(s, x)] + s[IndexOf(s, x) + 1..] == RemoveFirst(s, x)
  {
    if s[0] != x {
      SpliceAtIndexOf(s[1..], x);
      var j := IndexOf(s[1..], x);
      assert s[..j + 1] == [s[0]] + s[1..][..j];
      assert s[j + 2..] == s[1..][j + 1..];
    }
  }

  /**
   * A scene-graph node: its parent, its children, and what it holds. `repr`
   * is the node and everything below it, `height` bounds the depth below it.
   */
  class Node {
    var parent: Node?
    var children: seq<Node>
    const geometry: Option<nat>
    const material: Option<Materials>
    ghost const repr: set<Node>
    ghost const height: nat

    /**
     * A tree: each child points back here, lies strictly lower, owns its
     * own part of `repr`, and the children's parts do not overlap.
     */
    ghost predicate Valid()
      reads this, repr
      decreases repr
    {
      && this in repr
      && (forall i :: 0 <= i < |children| ==> ChildOf(children[i]))
      && (forall i, j :: 0 <= i < j < |children| ==> children[i].repr !! children[j].repr)
    }

    ghost predicate ChildOf(c: Node)
      reads this, repr
      decreases repr, 0
    {
      && this in repr && c in repr && c.repr <= repr && this !in c.repr
      && c.parent == this && c.height < height
      && c.Valid()
    }

    /** `parent.remove(object)`: only a child found by `indexOf` is spliced out and loses its parent. */
    method Remove(node: Node)
      modifies this, node
      ensures node in old(children) ==> children == RemoveFirst(old(children), node) && node.parent == null
      ensures node !in old(children) ==> children == old(children) && node.parent == old(node.parent)
      ensures node != this ==> node.children == old(node.children) && parent == old(parent)
    {
      var index := IndexOf(children, node);
      if index != -1 {
        SpliceAtIndexOf(children, node);
        node.parent := null;
        children := children[..index] + children[index + 1..];
      }
    }
  }

  /**
   * `disposeObject`: release the node's geometry and materials, detach it
   * from its parent, then dispose of `children[0]` until none is left; the
   * loop ends because each child detaches itself from this node.
   */
  method DisposeObject(ledger: Ledger, node: Node?)
    requires node != null ==> node.Valid()
    requires node != null && node.parent != null ==> node in node.parent.children && node.parent !in node.repr
    modifies ledger, if node != null then node.repr else {}, if node != null && node.parent != null then {node.parent} else {}
    ensures node != null ==> node.children == [] && node.parent == null
    ensures node != null && old(node.parent) != null ==>
      old(node.parent).children == RemoveFirst(old(node.parent.children), node)
    ensures node != null && old(node.parent) != null ==> old(node.parent).parent == old(node.parent.parent)
    ensures node != null ==> old(ledger.disposed) + OwnDisposals(node.geometry, node.material) <= ledger.disposed
    ensures node == null ==> ledger.disposed == old(ledger.disposed)
    decreases if node != null then node.height else 0
  {
    if node == null {
      return;
    }
    ReleaseOwn(ledger, node.geometry, node.material);
    if node.parent != null {
      node.parent.Remove(node);
    }
    ghost var released := ledger.disposed;
    while |node.children| > 0
      invariant node.parent == null && node in node.repr
      invariant old(node.parent) != null ==> old(node.parent).parent == old(node.parent.parent)
      invariant forall i :: 0 <= i < |node.children| ==> node.ChildOf(node.children[i])
      invariant forall i, j :: 0 <= i < j < |node.children| ==> node.children[i].repr !! node.children[j].repr
      invariant released <= ledger.disposed
      invariant old(node.parent) != null ==> old(node.parent).children == RemoveFirst(old(node.parent.children), node)
      decreases |node.children|
    {
      ghost var before := ledger.disposed;
      DisposeChild(ledger, node);
      PrefixTransitive(released, before, ledger.disposed);
    }
  }

  /** The node's own resources: its geometry, then its material or materials. */
  method ReleaseOwn(ledger: Ledger, geometry: Option<nat>, material: Option<Materials>)
    modifies ledger
    ensures ledger.disposed == old(ledger.disposed) + OwnDisposals(geometry, material)
  {
    if geometry.Some? {
      ledger.Dispose(geometry.value);
    }
    ghost var released := ledger.disposed;
    if material.Some? {
      match material.value
      case One(mat) => DisposeMaterial(ledger, Some(mat));
      case Many(ms) => DisposeMaterials(ledger, ms);
    }
    AppendAssociative(old(ledger.disposed), released[|old(ledger.disposed)|..], SlotDisposals(material));
  }

  lemma PrefixTransitive(a: seq<nat>, b: seq<nat>, c: seq<nat>)
    requires a <= b && b <= c
    ensures a <= c
  {
    assert c[..|a|] == b[..|a|];
  }

  /** One turn of the children loop: the first child disposes of itself and leaves the list. */
  method DisposeChild(ledger: Ledger, node: Node)
    requires |node.children| > 0 && node.parent == null && node in node.repr
    requires forall i :: 0 <= i < |node.children| ==> node.ChildOf(node.children[i])
    requires forall i, j :: 0 <= i < j < |node.children| ==> node.children[i].repr !! node.children[j].repr
    modifies ledger, node.repr
    ensures node.parent == null && node.children == old(node.children)[1..]
    ensures forall i :: 0 <= i < |node.children| ==> node.ChildOf(node.children[i])
    ensures old(ledger.disposed) <= ledger.disposed
    decreases node.height, 0
  {
    var child := node.children[0];
    ghost var rest := node.children[1..];
    forall i | 0 <= i < |rest|
      ensures rest[i].repr !! child.repr && rest[i] in rest[i].repr
    {
      assert rest[i] == node.children[i + 1];
      assert node.ChildOf(node.children[i + 1]);
      assert rest[i].Valid();
    }
    DisposeObject(ledger, child);
    forall i | 0 <= i < |node.children|
      ensures node.ChildOf(node.children[i])
    {
      var d := rest[i];
      assert d.repr !! child.repr && node !in d.repr;
      assert d.parent == node;
      assert d.Valid();
    }
  }
}
