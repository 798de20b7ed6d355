/**
 * ParkScene: the tree and bench layouts, the keyboard speed toggle, and the
 * per-frame `animate` step that advances the scene clock, writes the clock
 * text and recolours lights, fog and sky by the time of day.
 *
 * The scene's state (clock refs, the two basic lights, the fog, the
 * background colour, the optional LightSetup rig) is a class; the layouts
 * and the per-phase tables are functions.
 */
module ParkScene {
  import opened JsMath
  import opened JsText
  import opened Three
  import LightSetup
  import UIOverlay

  // ---------------------------------------------------------------- trees

  datatype TreeType = Pine | Oak | Birch | Palm | RandomType

  /** A tree placement: ground position and kind (`RandomType` is the "random" kind). */
  datatype TreeSpot = TreeSpot(x: real, z: real, kind: TreeType)

  /** The 18 hand-placed trees. */
  function FixedTrees(): (r: seq<TreeSpot>)
    ensures |r| == 18
  {
    [ TreeSpot(-15.0, -15.0, Pine), TreeSpot(-25.0, 8.0, Oak), TreeSpot(18.0, -12.0, Birch),
      TreeSpot(-8.0, 20.0, Oak), TreeSpot(-5.0, -5.0, Pine), TreeSpot(12.0, 15.0, Birch),
      TreeSpot(-18.0, 5.0, Oak), TreeSpot(6.0, -3.0, Pine), TreeSpot(-12.0, -18.0, Birch),
      TreeSpot(10.0, 8.0, Oak), TreeSpot(-30.0, -30.0, Pine), TreeSpot(30.0, 30.0, Oak),
      TreeSpot(-30.0, 30.0, Birch), TreeSpot(30.0, -30.0, Pine), TreeSpot(0.0, 30.0, Palm),
      TreeSpot(0.0, -30.0, Palm), TreeSpot(30.0, 0.0, Palm), TreeSpot(-30.0, 0.0, Palm) ]
  }

  /** The arguments of one `createTreeCluster` call. */
  datatype Cluster = Cluster(x: real, z: real, radius: real, count: nat, mainType: TreeType)

  function Clusters(): (r: seq<Cluster>)
    ensures |r| == 5
  {
    [ Cluster(-20.0, 15.0, 5.0, 8, Oak), Cluster(22.0, -20.0, 7.0, 10, Pine),
      Cluster(-15.0, -25.0, 6.0, 7, Birch), Cluster(25.0, 18.0, 8.0, 9, Oak),
      Cluster(5.0, 22.0, 4.0, 6, Pine) ]
  }

  /** Where cluster k's trees start within the flattened cluster list: the counts of the clusters before it. */
  function ClusterStart(k: nat): nat
    requires k <= 5
  {
    if k == 0 then 0 else ClusterStart(k - 1) + Clusters()[k - 1].count
  }

  /** The five clusters hold 8 + 10 + 7 + 9 + 6 = 40 trees. */
  lemma ClusterTotal()
    ensures ClusterStart(5) == 40
  {
    assert ClusterStart(1) == 8;
    assert ClusterStart(3) == 25;
  }

  /** The angle of tree i of a cluster: evenly spread, turned by cos(centerX + centerZ). */
  function ClusterAngle(m: Math, c: Cluster, i: nat): real
    requires 0 < c.count
  {
    (i as real / c.count as real) * m.PI * 2.0 + m.cos(c.x + c.z)
  }

  /** (0.3 + u·0.7)·radius: a draw u ∈ [0, 1) puts the tree between 0.3·radius and the radius. */
  function ClusterDistance(u: real, radius: real): (r: real)
    ensures 0.0 <= u < 1.0 && 0.0 < radius ==> 0.3 * radius <= r < radius
  {
    ClusterDistanceRange(u, radius);
    (0.3 + u * 0.7) * radius
  }

  lemma ClusterDistanceRange(u: real, radius: real)
    ensures 0.0 <= u < 1.0 && 0.0 < radius ==> 0.3 * radius <= (0.3 + u * 0.7) * radius < radius
  {
    if 0.0 <= u < 1.0 && 0.0 < radius {
      assert (0.3 + u * 0.7) * radius == 0.3 * radius + 0.7 * (u * radius);
      ProductMonotone(0.0, u, radius);
      StrictProduct(u, 1.0, radius);
    }
  }

  /** The three kinds a cluster tree may take instead of the cluster's own (`Math.floor(random·3)`). */
  function OtherType(draw: real): TreeType
    requires 0.0 <= draw < 1.0
  {
    [Pine, Oak, Birch][Floor(draw * 3.0)]
  }

  /** Tree i of cluster c is at distance (0.3 + u·0.7)·radius along its angle, for some draw u in [0, 1). */
  ghost predicate ClusterMember(m: Math, t: TreeSpot, c: Cluster, i: nat)
    requires 0 < c.count
  {
    && (exists u :: 0.0 <= u < 1.0
         && t.x == c.x + m.cos(ClusterAngle(m, c, i)) * ClusterDistance(u, c.radius)
         && t.z == c.z + m.sin(ClusterAngle(m, c, i)) * ClusterDistance(u, c.radius))
    && t.kind in {c.mainType, Pine, Oak, Birch}
  }

  /** A point reached from (cx, cz) by distance d along angle a is at distance d from (cx, cz). */
  lemma PolarPoint(m: Math, a: real, d: real, cx: real, cz: real, x: real, z: real)
    requires Circular(m) && x == cx + m.cos(a) * d && z == cz + m.sin(a) * d
    ensures Square(x - cx) + Square(z - cz) == Square(d)
  {
    PolarRadius(m, a, d);
  }

  /** Every cluster tree lies between 0.3·radius and the radius from its cluster's centre. */
  lemma ClusterMemberDistance(m: Math, t: TreeSpot, c: Cluster, i: nat)
    requires Circular(m) && 0 < c.count && 0.0 < c.radius && ClusterMember(m, t, c, i)
    ensures exists d :: 0.3 * c.radius <= d < c.radius && Square(t.x - c.x) + Square(t.z - c.z) == Square(d)
  {
    var a := ClusterAngle(m, c, i);
    var u :| 0.0 <= u < 1.0
         && t.x == c.x + m.cos(a) * ClusterDistance(u, c.radius)
         && t.z == c.z + m.sin(a) * ClusterDistance(u, c.radius);
    DrawnDistance(m, t, c, a, u);
  }

  /** The same, for the draw u and angle a the tree was placed with. */
  lemma DrawnDistance(m: Math, t: TreeSpot, c: Cluster, a: real, u: real)
    requires Circular(m) && 0.0 <= u < 1.0 && 0.0 < c.radius
    requires t.x == c.x + m.cos(a) * ClusterDistance(u, c.radius)
    requires t.z == c.z + m.sin(a) * ClusterDistance(u, c.radius)
    ensures exists d :: 0.3 * c.radius <= d < c.radius && Square(t.x - c.x) + Square(t.z - c.z) == Square(d)
  {
    var d := ClusterDistance(u, c.radius);
    PolarPoint(m, a, d, c.x, c.z, t.x, t.z);
  }

  /**
   * `createTreeCluster`: `count` trees, each drawing its distance, then
   * whether to keep the cluster's kind (draw < 0.8) and, if not, which of
   * pine/oak/birch to take. Returns the trees and the next unused draw.
   */
  method CreateTreeCluster(m: Math, rand: nat -> real, cursor: nat, c: Cluster) returns (cluster: seq<TreeSpot>, next: nat)
    requires UnitDraws(rand) && 0 < c.count
    ensures |cluster| == c.count
    ensures forall i :: 0 <= i < c.count ==> ClusterMember(m, cluster[i], c, i)
    ensures cursor + 2 * c.count <= next <= cursor + 3 * c.count
  {
    cluster := [];
    next := cursor;
    var i := 0;
    while i < c.count
      invariant 0 <= i <= c.count && |cluster| == i
      invariant forall j :: 0 <= j < i ==> ClusterMember(m, cluster[j], c, j)
      invariant cursor + 2 * i <= next <= cursor + 3 * i
    {
      var angle := ClusterAngle(m, c, i);
      var u := rand(next);
      var dist := ClusterDistance(u, c.radius);
      var kind := c.mainType;
      if rand(next + 1) >= 0.8 {
        kind := OtherType(rand(next + 2));
        next := next + 3;
      } else {
        next := next + 2;
      }
      var tree := TreeSpot(c.x + m.cos(angle) * dist, c.z + m.sin(angle) * dist, kind);
      assert ClusterMember(m, tree, c, i);
      cluster := cluster + [tree];
      i := i + 1;
    }
  }

  /** Scattered tree i sits (15 + (i mod 10)·4) from the origin before its offset. */
  function ScatteredDistance(i: nat): (r: real)
    ensures 15.0 <= r <= 51.0
  {
    15.0 + (i % 10) as real * 4.0
  }

  /** ["pine", "oak", "birch", "pine", "oak", "random"][i % 6]. */
  function ScatteredType(i: nat): (r: TreeType)
    ensures r == Pine <==> i % 6 == 0 || i % 6 == 3
    ensures r == Oak <==> i % 6 == 1 || i % 6 == 4
    ensures r == Birch <==> i % 6 == 2
    ensures r == RandomType <==> i % 6 == 5
  {
    [Pine, Oak, Birch, Pine, Oak, RandomType][i % 6]
  }

  /** Scattered tree i's angle: (i / 20)·2π, evenly around the park. */
  function ScatteredAngle(m: Math, i: nat): real {
    (i as real / 20.0) * m.PI * 2.0
  }

  function ScatteredTree(m: Math, i: nat): TreeSpot {
    var angle := ScatteredAngle(m, i);
    var offset := m.sin(i as real * 7.5) * 5.0;
    TreeSpot(m.cos(angle) * ScatteredDistance(i) + offset, m.sin(angle) * ScatteredDistance(i) + offset, ScatteredType(i))
  }

  /** The 20 scattered trees, in index order. */
  function ScatteredTrees(m: Math): (r: seq<TreeSpot>)
    ensures |r| == 20
  {
    seq(20, i requires 0 <= i => ScatteredTree(m, i))
  }

  /** Shifted back by its offset, a scattered tree lies on the circle of its base radius. */
  lemma ScatteredOnRing(m: Math, i: nat)
    requires Circular(m) && i < 20
    ensures var t := ScatteredTrees(m)[i];
      var offset := m.sin(i as real * 7.5) * 5.0;
      Square(t.x - offset) + Square(t.z - offset) == Square(ScatteredDistance(i))
  {
    var angle := ScatteredAngle(m, i);
    var offset := m.sin(i as real * 7.5) * 5.0;
    var t := ScatteredTree(m, i);
    assert ScatteredTrees(m)[i] == t;
    PolarPoint(m, angle, ScatteredDistance(i), offset, offset, t.x, t.z);
  }

  /** Tree i of cluster k, found at offset `ClusterStart(k) + i` of the flattened cluster list, is one of its cluster. */
  ghost predicate InCluster(m: Math, trees: seq<TreeSpot>, k: nat, i: nat)
    requires k < 5 && i < Clusters()[k].count
  {
    ClusterStartBound(k);
    ClusterStart(k) + i < |trees| && ClusterMember(m, trees[ClusterStart(k) + i], Clusters()[k], i)
  }

  lemma ClusterStartBound(k: nat)
    requires k < 5
    ensures ClusterStart(k) + Clusters()[k].count <= 40
  {
    assert ClusterStart(1) == 8;
    assert ClusterStart(3) == 25;
  }

  /** An earlier cluster ends before a later one starts. */
  lemma {:induction false} ClusterStartOrder(j: nat, k: nat)
    requires j < k <= 5
    ensures ClusterStart(j) + Clusters()[j].count <= ClusterStart(k)
    decreases k
  {
    if j < k - 1 {
      ClusterStartOrder(j, k - 1);
    }
  }

  /** `treePositions`: fixed trees, then the five clusters in order, then the scattered trees: 78 in all. */
  method TreePositions(m: Math, rand: nat -> real, cursor: nat) returns (trees: seq<TreeSpot>, next: nat)
    requires UnitDraws(rand)
    ensures |trees| == 78
    ensures trees[..18] == FixedTrees() && trees[58..] == ScatteredTrees(m)
    ensures forall k, i :: 0 <= k < 5 && 0 <= i < Clusters()[k].count ==> InCluster(m, trees[18..], k, i)
  {
    ClusterTotal();
    var clusterTrees: seq<TreeSpot> := [];
    next := cursor;
    var k := 0;
    while k < 5
      invariant 0 <= k <= 5 && |clusterTrees| == ClusterStart(k)
      invariant forall k', i :: 0 <= k' < k && 0 <= i < Clusters()[k'].count ==> InCluster(m, clusterTrees, k', i)
    {
      var cluster;
      cluster, next := CreateTreeCluster(m, rand, next, Clusters()[k]);
      ghost var before := clusterTrees;
      clusterTrees := clusterTrees + cluster;
      forall k', i | 0 <= k' <= k && 0 <= i < Clusters()[k'].count
        ensures InCluster(m, clusterTrees, k', i)
      {
        ClusterStartBound(k');
        if k' < k {
          assert InCluster(m, before, k', i);
          ClusterStartOrder(k', k);
          assert clusterTrees[ClusterStart(k') + i] == before[ClusterStart(k') + i];
        } else {
          assert clusterTrees[ClusterStart(k) + i] == cluster[i];
        }
      }
      k := k + 1;
    }
    trees := FixedTrees() + clusterTrees + ScatteredTrees(m);
    assert trees[18..] == clusterTrees + ScatteredTrees(m);
    assert forall k, i :: 0 <= k < 5 && 0 <= i < Clusters()[k].count ==> InCluster(m, trees[18..], k, i) by {
      forall k, i | 0 <= k < 5 && 0 <= i < Clusters()[k].count
        ensures InCluster(m, trees[18..], k, i)
      {
        assert InCluster(m, clusterTrees, k, i);
        ClusterStartBound(k);
      }
    }
  }

  // --------------------------------------------------------------- benches

  datatype BenchType = Wooden | Stone

  /** A bench placement; `turns` is the rotation in quarter-π steps (rotation = turns·π/4). */
  datatype BenchSpot = BenchSpot(x: real, z: real, turns: int, kind: BenchType)

  function BenchPositions(): seq<BenchSpot> {
    [ BenchSpot(8.0, 3.0, 1, Wooden), BenchSpot(-8.0, 3.0, -1, Stone),
      BenchSpot(3.0, 8.0, 3, Wooden), BenchSpot(3.0, -8.0, -3, Stone),
      BenchSpot(15.0, 0.0, 2, Wooden), BenchSpot(-15.0, 0.0, -2, Stone),
      BenchSpot(0.0, 15.0, 0, Wooden), BenchSpot(0.0, -15.0, 4, Stone),
      BenchSpot(-22.0, -18.0, 1, Stone), BenchSpot(22.0, 22.0, -3, Wooden),
      BenchSpot(18.0, 18.0, 1, Wooden), BenchSpot(-18.0, -18.0, -3, Stone),
      BenchSpot(-18.0, 18.0, 3, Wooden), BenchSpot(18.0, -18.0, -1, Stone) ]
  }

  /** The rotation in radians of a bench. */
  function BenchRotation(m: Math, b: BenchSpot): real {
    m.PI * 0.25 * b.turns as real
  }

  /** Fourteen benches, all at least 8 out from the centre along an axis and turned at most half a turn either way. */
  lemma BenchLayout()
    ensures |BenchPositions()| == 14
    ensures forall b :: b in BenchPositions() ==> 8.0 <= Max(Abs(b.x), Abs(b.z)) && -4 <= b.turns <= 4
  {
  }

  // ------------------------------------------------------ time and colours

  /** The `KeyT` toggle: 0.05 becomes 0.5, anything else 0.05. */
  function ToggledSpeed(speed: real): (r: real)
    ensures r == 0.5 <==> speed == 0.05
    ensures r == 0.05 <==> speed != 0.05
  {
    if speed == 0.05 then 0.5 else 0.05
  }

  /** From either preset speed, two presses of T return to it. */
  lemma ToggleTwice(speed: real)
    requires speed == 0.05 || speed == 0.5
    ensures ToggledSpeed(ToggledSpeed(speed)) == speed
  {
  }

  /** The clock advance of one frame: delta · speed. */
  function FrameIncrement(delta: real, speed: real): (r: real)
    ensures 0.0 <= delta && 0.0 <= speed ==> 0.0 <= r
  {
    if 0.0 <= delta && 0.0 <= speed then
      ProductMonotone(0.0, delta, speed);
      delta * speed
    else
      delta * speed
  }

  /** (t + min(0.1, clockDelta)·speed) % 1: stays in [0, 1) when all inputs are non-negative. */
  function NextTimeOfDay(t: real, clockDelta: real, speed: real): (r: real)
    ensures 0.0 <= t && 0.0 <= clockDelta && 0.0 <= speed ==> 0.0 <= r < 1.0
  {
    var x := t + FrameIncrement(Min(0.1, clockDelta), speed);
    JsModRange(x, 1.0);
    JsMod(x, 1.0)
  }

  /** `animate`'s clock text: hours ⌊24t⌋ (not reduced mod 24) and minutes ⌊(1440t) % 60⌋. */
  function ClockText(t: real): string {
    Clock(Floor(t * 24.0), Floor(JsMod(t * 24.0 * 60.0, 60.0)))
  }

  /** Within a day the scene's clock text is the overlay's `formatTimeOfDay`. */
  lemma ClockTextMatchesOverlay(t: real)
    requires 0.0 <= t < 1.0
    ensures ClockText(t) == UIOverlay.FormatTimeOfDay(t)
  {
    JsModFloor(t * 24.0, 24.0);
    assert Floor(t * 24.0 / 24.0) == 0;
    assert UIOverlay.Hours(t) == Floor(t * 24.0);
  }

  predicate IsDaytime(t: real) { 0.25 < t < 0.75 }
  predicate IsSunrise(t: real) { 0.2 < t < 0.3 }
  predicate IsSunset(t: real) { 0.7 < t < 0.8 }

  /** `updateFog`'s colour: sunrise, sunset, daytime, night, tested in that order. */
  function FogColor(t: real): int {
    if IsSunrise(t) then 0xffa366
    else if IsSunset(t) then 0xff7733
    else if IsDaytime(t) then 0x87ceeb
    else 0x001133
  }

  function FogDensity(t: real): (r: real)
    ensures 0.0025 <= r <= 0.004
    ensures r == 0.004 <==> t <= 0.2 || 0.8 <= t
  {
    if IsSunrise(t) then 0.003
    else if IsSunset(t) then 0.0035
    else if IsDaytime(t) then 0.0025
    else 0.004
  }

  /** `updateSkyColor`'s background colour, from its own copy of the same chain. */
  function SkyColor(t: real): int {
    if IsSunrise(t) then 0xffa366
    else if IsSunset(t) then 0xff7733
    else if IsDaytime(t) then 0x87ceeb
    else 0x001133
  }

  /** The two chains agree, so the background always matches the fog. */
  lemma SkyMatchesFog(t: real)
    ensures SkyColor(t) == FogColor(t)
    ensures SkyColor(t) == 0x87ceeb <==> 0.3 <= t <= 0.7
  {
  }

  /** `updateBasicLights`'s sun: on a circle of radius 100, z following cos·50, never below the ground. */
  function BasicSunPosition(m: Math, t: real): (r: Vec3)
    ensures 0.0 <= r.y
    ensures r.z * 2.0 == r.x
  {
    var angle := t * m.PI * 2.0;
    Vec3(m.cos(angle) * 100.0, Max(0.0, m.sin(angle) * 100.0), m.cos(angle) * 50.0)
  }

  function BasicAmbientIntensity(t: real): real { if IsDaytime(t) then 0.5 else 0.2 }
  function BasicSunIntensity(t: real): real { if IsDaytime(t) then 1.0 else 0.1 }

  /** The scene's fog: colour and density. */
  class Fog {
    var color: int
    var density: real

    constructor (color: int, density: real)
      ensures this.color == color && this.density == density
    {
      this.color := color;
      this.density := density;
    }
  }

  /** What a key press leaves on screen. */
  datatype Message = NoMessage | Text(text: string)

  /** The component's refs and state that the key handler and `animate` use. */
  class Scene {
    var timeOfDay: real
    var timeSpeed: real
    var timeInfo: string
    var autoRotate: bool
    const controls: Option<bool>
    var controlsAutoRotate: bool
    var message: Message
    var background: int
    const fog: Fog
    const ambientLight: Light
    const sunLight: Light
    const lightRig: LightSetup.LightRig?

    /** Everything the per-frame update may change. */
    ghost function Objects(): set<object>
      reads this, lightRig
    {
      {this, fog, ambientLight, sunLight} + (if lightRig == null then {} else lightRig.Lights())
    }

    /** The scene's own lights and fog are distinct objects and none of them belongs to the rig. */
    ghost predicate Valid()
      reads this, lightRig
    {
      && ambientLight != sunLight
      && (lightRig != null ==>
           && lightRig.Separate()
           && ambientLight !in lightRig.Lights() && sunLight !in lightRig.Lights())
    }

    /** The effect's initial state: background and fog 0x87ceeb, ambient 0.5, sun 1.0 at (10, 20, 10). */
    constructor (controls: Option<bool>, lightRig: LightSetup.LightRig?)
      ensures timeOfDay == 0.3 && timeSpeed == 0.05 && timeInfo == "12:00" && autoRotate
      ensures this.controls == controls && this.lightRig == lightRig && message == NoMessage
      ensures background == 0x87ceeb && fog.color == 0x87ceeb && fog.density == 0.0025
      ensures ambientLight.intensity == 0.5 && sunLight.intensity == 1.0 && sunLight.position == Vec3(10.0, 20.0, 10.0)
      ensures fresh(fog) && fresh(ambientLight) && fresh(sunLight) && ambientLight != sunLight
    {
      timeOfDay := 0.3;
      timeSpeed := 0.05;
      timeInfo := "12:00";
      autoRotate := true;
      this.controls := controls;
      controlsAutoRotate := true;
      message := NoMessage;
      background := 0x87ceeb;
      fog := new Fog(0x87ceeb, 0.0025);
      ambientLight := new Light(0xffffff, 0.5, Vec3(0.0, 0.0, 0.0));
      sunLight := new Light(0xffffee, 1.0, Vec3(10.0, 20.0, 10.0));
      this.lightRig := lightRig;
    }

    /**
     * `onKeyDown`: T toggles the clock speed and reports it; Space toggles
     * auto-rotation (the state and, when present, the controls' own flag)
     * and reports the new setting; other keys change nothing.
     */
    method OnKeyDown(code: string)
      modifies this
      ensures code == "KeyT" ==>
        timeSpeed == ToggledSpeed(old(timeSpeed))
        && message == Text(if timeSpeed == 0.05 then "Time speed: Normal" else "Time speed: Fast")
        && autoRotate == old(autoRotate) && controlsAutoRotate == old(controlsAutoRotate)
      ensures code == "Space" ==>
        autoRotate == !old(autoRotate)
        && controlsAutoRotate == (if controls.Some? then !old(controlsAutoRotate) else old(controlsAutoRotate))
        && message == Text(if !old(autoRotate) then "Camera rotation: ON" else "Camera rotation: OFF")
        && timeSpeed == old(timeSpeed)
      ensures code != "KeyT" && code != "Space" ==> unchanged(this)
      ensures timeOfDay == old(timeOfDay) && timeInfo == old(timeInfo) && background == old(background)
    {
      if code == "KeyT" {
        timeSpeed := ToggledSpeed(timeSpeed);
        message := Text(if timeSpeed == 0.05 then "Time speed: Normal" else "Time speed: Fast");
      } else if code == "Space" {
        var previous := autoRotate;
        autoRotate := !autoRotate;
        if controls.Some? {
          controlsAutoRotate := !controlsAutoRotate;
        }
        message := Text(if !previous then "Camera rotation: ON" else "Camera rotation: OFF");
      }
    }

    /**
     * The lights after a day-night update for time t. Without a rig: the
     * basic ambient and sun intensities and the sun on its arc. With one:
     * the scene's own two lights untouched and the rig's lights set as its
     * own update says, all of them untouched when the rig was not installed.
     */
    twostate predicate LightsAt(m: Math, t: real)
      reads this, lightRig, Objects()
    {
      && (lightRig == null ==>
        && ambientLight.intensity == BasicAmbientIntensity(t)
        && sunLight.intensity == BasicSunIntensity(t) && sunLight.position == BasicSunPosition(m, t))
      && (lightRig != null ==> unchanged(ambientLight, sunLight) && lightRig.DayNightSet(m, t))
      && (lightRig != null && !old(lightRig.Installed()) ==> unchanged(lightRig.Lights()))
    }

    /**
     * `updateDayNightCycle`: the rig's update when a rig is attached, else
     * the basic lights; then the fog and the background.
     */
    method UpdateDayNightCycle(m: Math, t: real)
      requires Valid()
      modifies Objects()
      ensures LightsAt(m, t)
      ensures fog.color == FogColor(t) && fog.density == FogDensity(t)
      ensures background == SkyColor(t)
      ensures timeOfDay == old(timeOfDay) && timeSpeed == old(timeSpeed) && timeInfo == old(timeInfo)
    {
      if lightRig != null {
        lightRig.UpdateDayNightCycle(m, t);
      } else {
        ambientLight.intensity := BasicAmbientIntensity(t);
        sunLight.intensity := BasicSunIntensity(t);
        sunLight.position := BasicSunPosition(m, t);
      }
      fog.color := FogColor(t);
      fog.density := FogDensity(t);
      background := SkyColor(t);
    }

    /**
     * One `animate(time)` frame: advance the clock by min(0.1, clockDelta)
     * times the speed, modulo 1; refresh the clock text when time % 500 < 16;
     * then update lights, fog and sky for the new time.
     */
    method Animate(m: Math, clockDelta: real, time: real)
      requires Valid()
      modifies Objects()
      ensures timeOfDay == NextTimeOfDay(old(timeOfDay), clockDelta, old(timeSpeed))
      ensures timeInfo == if JsMod(time, 500.0) < 16.0 then ClockText(timeOfDay) else old(timeInfo)
      ensures timeSpeed == old(timeSpeed)
      ensures fog.color == FogColor(timeOfDay) && fog.density == FogDensity(timeOfDay) && background == SkyColor(timeOfDay)
      ensures LightsAt(m, timeOfDay)
    {
      timeOfDay := NextTimeOfDay(timeOfDay, clockDelta, timeSpeed);
      if JsMod(time, 500.0) < 16.0 {
        timeInfo := ClockText(timeOfDay);
      }
      UpdateDayNightCycle(m, timeOfDay);
    }
  }
}
