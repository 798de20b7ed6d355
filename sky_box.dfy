/**
 * SkyBox's `updateSky(time)`: the sky dome's gradient exponent by phase,
 * the sun and moon disc opacities, colours and scale, the clouds' drift,
 * wrap-around and opacity, and the stars' opacity.
 *
 * Colour interpolation (`lerp`, HSL) is not modelled: the dome records only
 * whether the branch chain produced its top and bottom colours.
 */
module SkyBox {
  import opened JsMath
  import opened Three

  /** Which branch of the dome's if-chain fires. */
  datatype SkyBranch = Dawn | Day | Sunset | Night | NoBranch

  /**
   * Dawn is (0.2, 0.3), day [0.3, 0.7), sunset [0.7, 0.8), night t ≥ 0.8 or
   * t < 0.2. The one value none of them covers is t = 0.2.
   */
  function Branch(t: real): (r: SkyBranch)
    ensures r == NoBranch <==> t == 0.2
    ensures r == Night <==> t >= 0.8 || t < 0.2
    ensures r == Dawn <==> 0.2 < t < 0.3
  {
    if 0.2 < t < 0.3 then Dawn
    else if 0.3 <= t < 0.7 then Day
    else if 0.7 <= t < 0.8 then Sunset
    else if t >= 0.8 || t < 0.2 then Night
    else NoBranch
  }

  /**
   * The gradient exponent: dawn 0.6 + (1 − s)·0.4, day 0.6, sunset
   * 0.6 + 0.3s, night 0.9 − 0.2s, with s the branch-local fraction; at
   * t = 0.2 the previous exponent stays.
   */
  function Exponent(t: real, previous: real): (r: real)
    ensures t == 0.2 ==> r == previous
    ensures 0.0 <= t < 1.0 && t != 0.2 ==> 0.6 <= r <= 1.0
    ensures 0.3 <= t < 0.7 ==> r == 0.6
  {
    match Branch(t)
    case Dawn =>
      var s := (t - 0.2) / 0.1;
      0.6 + (1.0 - s) * 0.4
    case Day => 0.6
    case Sunset =>
      var s := (t - 0.7) / 0.1;
      0.6 + s * 0.3
    case Night =>
      var s := if t >= 0.8 then (t - 0.8) / 0.2 else (0.2 - t) / 0.2;
      0.9 - s * 0.2
    case NoBranch => previous
  }

  /**
   * The sun disc's opacity. Inside (0.25, 0.75): 1 on (0.3, 0.7),
   * (t − 0.25)·20 before 0.3, and (0.8 − t)·20 otherwise; the last case also
   * catches t = 0.3 exactly (opacity 10) and gives values above 1 on dusk.
   * Outside the window the sun is hidden.
   */
  function SunOpacity(t: real): (r: real)
    ensures !(0.25 < t < 0.75) ==> r == 0.0
    ensures 0.3 < t < 0.7 ==> r == 1.0
    ensures 0.25 < t < 0.3 ==> 0.0 < r < 1.0
    ensures 0.7 <= t < 0.75 ==> 1.0 < r <= 2.0
    ensures t == 0.3 ==> r == 10.0
  {
    if 0.25 < t < 0.75 then
      if 0.3 < t < 0.7 then 1.0
      else if t < 0.3 then (t - 0.25) * 20.0
      else (0.8 - t) * 20.0
    else 0.0
  }

  /** The moon disc: 0 while the sun shows; otherwise 1, except −10 at exactly 0.25 and 0 at exactly 0.75. */
  function MoonOpacity(t: real): (r: real)
    ensures 0.25 < t < 0.75 ==> r == 0.0
    ensures (t < 0.25 || t > 0.75) ==> r == 1.0
    ensures t == 0.25 ==> r == -10.0
    ensures t == 0.75 ==> r == 0.0
  {
    if 0.25 < t < 0.75 then 0.0
    else if t < 0.25 || t > 0.75 then 1.0
    else if t < 0.25 then (0.25 - t) * 20.0
    else (t - 0.75) * 20.0
  }

  /** Near the horizon (before 0.35 or after 0.65) the sun is orange and 1.3 times larger. */
  predicate LowSun(t: real) { t < 0.35 || t > 0.65 }

  /** Cloud opacity: 0.4 at night, 0.4 + 0.5s in the dawn and dusk windows, 0.9 otherwise. */
  function CloudOpacity(t: real): (r: real)
    ensures 0.4 <= r <= 0.9
    ensures r == 0.4 <==> t > 0.75 || t < 0.25
    ensures (0.25 < t < 0.3 || 0.7 < t < 0.75) ==> 0.4 < r < 0.9
  {
    if t > 0.75 || t < 0.25 then 0.4
    else if (0.25 < t < 0.3) || (0.7 < t < 0.75) then
      var s := if t < 0.3 then (t - 0.25) / 0.05 else (0.75 - t) / 0.05;
      0.4 + s * 0.5
    else 0.9
  }

  /** Star opacity: 1 at night, fading out over (0.25, 0.3), fading in over (0.7, 0.75), 0 otherwise. */
  function StarOpacity(t: real): (r: real)
    ensures 0.0 <= r <= 1.0
    ensures r == 1.0 <==> t > 0.75 || t < 0.25
    ensures r == 0.0 <==> 0.3 <= t <= 0.7 || t == 0.25 || t == 0.75
  {
    if t > 0.75 || t < 0.25 then 1.0
    else if (0.25 < t < 0.3) || (0.7 < t < 0.75) then
      if 0.25 < t < 0.3 then 1.0 - (t - 0.25) / 0.05 else (t - 0.7) / 0.05
    else 0.0
  }

  /** The bright stars follow the stars at 0.9 of their opacity. */
  function BrightStarOpacity(t: real): (r: real)
    ensures r == StarOpacity(t) * 0.9
  {
    if t > 0.75 || t < 0.25 then 0.9
    else if (0.25 < t < 0.3) || (0.7 < t < 0.75) then
      (if 0.25 < t < 0.3 then 1.0 - (t - 0.25) / 0.05 else (t - 0.7) / 0.05) * 0.9
    else 0.0
  }

  /** A cloud at x drifting at this speed passes 150 this frame, so it wraps and takes a draw. */
  predicate Wraps(x: real, speed: real) {
    x + speed * 0.01 > 150.0
  }

  /** A cloud drifts by speed·0.01 in x and jumps back to −150 once past 150. */
  function CloudX(x: real, speed: real): (r: real)
    ensures r <= 150.0
    ensures !Wraps(x, speed) ==> r == x + speed * 0.01
    ensures Wraps(x, speed) ==> r == -150.0
  {
    var moved := x + speed * 0.01;
    if moved > 150.0 then -150.0 else moved
  }

  /** A draw in [0, 1) shifts a wrapped cloud's z by less than 5 either way. */
  lemma JitterWithin(draw: real)
    requires 0.0 <= draw < 1.0
    ensures -5.0 <= (draw - 0.5) * 10.0 < 5.0
  {
  }

  /** The uniform `sunPosition`: the point at angle 2π·t on a circle of radius 100 in the x-y plane. */
  function SunUniform(m: Math, t: real): Vec3 {
    Vec3(m.cos(t * m.PI * 2.0) * 100.0, m.sin(t * m.PI * 2.0) * 100.0, 0.0)
  }

  /** The dome's shader uniforms. */
  class SkyDome {
    var exponent: real
    var colorsDefined: bool
    var sunPosition: Vec3
  }

  /** The sun/moon group: rotation, the three disc materials and the sun's scale. */
  class SunMoon {
    var rotationY: real
    var sunOpacity: real
    var glowOpacity: real
    var moonOpacity: real
    var sunColor: int
    var glowColor: int
    var sunScale: real
  }

  class Cloud {
    var position: Vec3
    const speed: real
    var opacity: real
  }

  class Stars {
    var opacity: real
    const brightStars: seq<Mesh>
  }

  /** The sky's refs: the dome, the sun/moon group, the clouds and the stars. */
  class Sky {
    const dome: SkyDome?
    const sunMoon: SunMoon?
    const clouds: seq<Cloud>
    const stars: Stars?

    ghost function Objects(): set<object>
      reads this, stars
    {
      (if dome == null then {} else {dome})
      + (if sunMoon == null then {} else {sunMoon})
      + (set c | c in clouds)
      + (if stars == null then {} else {stars} + (set b: Mesh | b in stars.brightStars :: b as object))
    }

    /** Every cloud object is a different cloud. */
    ghost predicate Valid()
      reads this
    {
      forall i, j :: 0 <= i < j < |clouds| ==> clouds[i] != clouds[j]
    }

    /**
     * The state the sun/moon part of `updateSky(time)` leaves: the group
     * turned to 2π·t + π, the three disc opacities of the phase, and, only
     * while the sun is up, the low-sun or high-sun colours and scale.
     */
    twostate predicate SunMoonSet(m: Math, time: real)
      requires sunMoon != null
      reads sunMoon
    {
      && sunMoon.rotationY == time * m.PI * 2.0 + m.PI
      && sunMoon.sunOpacity == SunOpacity(time) && sunMoon.glowOpacity == SunOpacity(time) * 0.3
      && sunMoon.moonOpacity == MoonOpacity(time)
      && (0.25 < time < 0.75 ==>
        && sunMoon.sunColor == (if LowSun(time) then 0xff9933 else 0xffffaa)
        && sunMoon.glowColor == (if LowSun(time) then 0xff7744 else 0xffeeaa)
        && sunMoon.sunScale == (if LowSun(time) then 1.3 else 1.0))
      && (!(0.25 < time < 0.75) ==>
        && sunMoon.sunColor == old(sunMoon.sunColor) && sunMoon.glowColor == old(sunMoon.glowColor)
        && sunMoon.sunScale == old(sunMoon.sunScale))
    }

    /** The position of every cloud, in list order. */
    ghost function CloudPositions(): (r: seq<Vec3>)
      reads set c | c in clouds
      ensures |r| == |clouds|
      ensures forall i :: 0 <= i < |clouds| ==> r[i] == clouds[i].position
    {
      seq(|clouds|, i requires 0 <= i < |clouds| reads set c | c in clouds => clouds[i].position)
    }

    /**
     * How many of the first n clouds wrap this frame, given the clouds'
     * positions before it: cloud n's wrap (if any) takes draw
     * `cursor + WrapsBefore(before, n)`.
     */
    function WrapsBefore(before: seq<Vec3>, n: nat): (r: nat)
      requires n <= |before| && n <= |clouds|
      ensures r <= n
      decreases n
    {
      if n == 0 then 0 else WrapsBefore(before, n - 1) + (if Wraps(before[n - 1].x, clouds[n - 1].speed) then 1 else 0)
    }

    /** Cloud j's shift in z this frame: (draw − 0.5)·10 with its draw when it wraps, else none. */
    function ZShift(before: seq<Vec3>, rand: nat -> real, cursor: nat, j: nat): real
      requires j < |before| && j < |clouds|
    {
      if Wraps(before[j].x, clouds[j].speed) then (rand(cursor + WrapsBefore(before, j)) - 0.5) * 10.0 else 0.0
    }

    /**
     * Cloud i after its turn, from its position `before[i]`: drifted (or
     * wrapped) in x, moved by its `bob` in y, shifted in z by its `ZShift`
     * (none unless it wrapped), and at the phase's opacity.
     */
    ghost predicate CloudMoved(i: nat, before: seq<Vec3>, time: real, bob: nat -> real, rand: nat -> real, cursor: nat)
      requires i < |clouds| && i < |before|
      reads clouds[i]
    {
      && clouds[i].position.x == CloudX(before[i].x, clouds[i].speed)
      && clouds[i].position.y == before[i].y + bob(i)
      && clouds[i].position.z == before[i].z + ZShift(before, rand, cursor, i)
      && clouds[i].opacity == CloudOpacity(time)
    }

    /**
     * The state the clouds part of `updateSky(time)` leaves, from the
     * positions `before`: every cloud moved as `CloudMoved` says, so a cloud
     * that wrapped shifted z by (draw − 0.5)·10 with the next unused draw;
     * one draw per wrap.
     */
    ghost predicate CloudsMoved(before: seq<Vec3>, time: real, bob: nat -> real, rand: nat -> real, cursor: nat, next: nat)
      requires |before| == |clouds|
      reads set c | c in clouds
    {
      && next == cursor + WrapsBefore(before, |clouds|)
      && forall i :: 0 <= i < |clouds| ==> CloudMoved(i, before, time, bob, rand, cursor)
    }

    /** The sun/moon part of `updateSky`. */
    method UpdateSunMoon(m: Math, time: real)
      requires sunMoon != null
      modifies sunMoon
      ensures SunMoonSet(m, time)
    {
      var angle := time * m.PI * 2.0;
      sunMoon.rotationY := angle + m.PI;
      if 0.25 < time < 0.75 {
        var sunIntensity := SunOpacity(time);
        sunMoon.sunOpacity := sunIntensity;
        sunMoon.glowOpacity := sunIntensity * 0.3;
        if LowSun(time) {
          sunMoon.sunColor := 0xff9933;
          sunMoon.glowColor := 0xff7744;
        } else {
          sunMoon.sunColor := 0xffffaa;
          sunMoon.glowColor := 0xffeeaa;
        }
        sunMoon.sunScale := 1.0 + (if LowSun(time) then 0.3 else 0.0);
        sunMoon.moonOpacity := 0.0;
      } else {
        sunMoon.moonOpacity := MoonOpacity(time);
        sunMoon.sunOpacity := 0.0;
        sunMoon.glowOpacity := 0.0;
      }
    }

    /**
     * One cloud: drift and wrap in x (a wrap also shifts z by
     * (draw − 0.5)·10), move y by the cloud's oscillation `bob`, and take the
     * phase's opacity.
     */
    static method UpdateCloud(cloud: Cloud, time: real, bob: real, draw: real) returns (wrapped: bool)
      modifies cloud
      ensures cloud.position.x == CloudX(old(cloud.position.x), cloud.speed)
      ensures cloud.position.y == old(cloud.position.y) + bob
      ensures wrapped <==> Wraps(old(cloud.position.x), cloud.speed)
      ensures cloud.position.z == old(cloud.position.z) + (if wrapped then (draw - 0.5) * 10.0 else 0.0)
      ensures cloud.opacity == CloudOpacity(time)
    {
      var p := cloud.position;
      p := p.(x := p.x + cloud.speed * 0.01);
      p := p.(y := p.y + bob);
      wrapped := p.x > 150.0;
      if wrapped {
        p := p.(x := -150.0, z := p.z + (draw - 0.5) * 10.0);
      }
      cloud.position := p;
      cloud.opacity := CloudOpacity(time);
    }

    /**
     * `updateSky(time)`: nothing without the dome. Otherwise set the
     * exponent and colours by branch, the sun position uniform, the sun and
     * moon (when present), every cloud, and the stars (when present).
     * `bob(i)` is cloud i's clock-driven vertical oscillation; wrap-around
     * draws are read from `rand` starting at `cursor`.
     */
    method UpdateSky(m: Math, time: real, bob: nat -> real, rand: nat -> real, cursor: nat) returns (next: nat)
      requires Valid() && UnitDraws(rand)
      modifies Objects()
      ensures dome == null ==> unchanged(Objects()) && next == cursor
      ensures dome != null ==>
        dome.exponent == Exponent(time, old(dome.exponent))
        && dome.colorsDefined == (Branch(time) != NoBranch)
      ensures dome != null && sunMoon != null ==> SunMoonSet(m, time) && dome.sunPosition == SunUniform(m, time)
      ensures dome != null && sunMoon == null ==> dome.sunPosition == old(dome.sunPosition)
      ensures dome != null ==> CloudsMoved(old(CloudPositions()), time, bob, rand, cursor, next)
      ensures dome != null ==> forall i :: 0 <= i < |clouds| ==>
        old(clouds[i].position.z) - 5.0 <= clouds[i].position.z < old(clouds[i].position.z) + 5.0
      ensures dome != null && stars != null ==>
        stars.opacity == StarOpacity(time)
        && forall b :: b in stars.brightStars ==> b.opacity == BrightStarOpacity(time)
    {
      next := cursor;
      if dome == null {
        return;
      }
      ghost var before := CloudPositions();
      var exponent := Exponent(time, dome.exponent);
      dome.colorsDefined := Branch(time) != NoBranch;
      dome.exponent := exponent;
      if sunMoon != null {
        UpdateSunMoon(m, time);
        dome.sunPosition := SunUniform(m, time);
      }

      assert CloudPositions() == before;
      next := UpdateClouds(time, bob, rand, cursor);
      if stars != null {
        UpdateStars(time);
      }
    }

    /** The clouds part of `updateSky`, cloud by cloud in list order. */
    method UpdateClouds(time: real, bob: nat -> real, rand: nat -> real, cursor: nat) returns (next: nat)
      requires Valid() && UnitDraws(rand)
      modifies set c | c in clouds
      ensures CloudsMoved(old(CloudPositions()), time, bob, rand, cursor, next)
      ensures forall i :: 0 <= i < |clouds| ==>
        old(clouds[i].position.z) - 5.0 <= clouds[i].position.z < old(clouds[i].position.z) + 5.0
    {
      ghost var before := CloudPositions();
      next := cursor;
      var i := 0;
      while i < |clouds|
        invariant 0 <= i <= |clouds|
        invariant next == cursor + WrapsBefore(before, i)
        invariant forall j :: 0 <= j < i ==> CloudMoved(j, before, time, bob, rand, cursor)
        invariant forall j :: i <= j < |clouds| ==> clouds[j].position == before[j]
      {
        next := MoveCloud(i, before, time, bob, rand, cursor, next);
        i := i + 1;
      }
      forall j | 0 <= j < |clouds|
        ensures old(clouds[j].position.z) - 5.0 <= clouds[j].position.z < old(clouds[j].position.z) + 5.0
      {
        assert CloudMoved(j, before, time, bob, rand, cursor);
        if Wraps(before[j].x, clouds[j].speed) {
          JitterWithin(rand(cursor + WrapsBefore(before, j)));
        }
      }
    }

    /**
     * Cloud i's turn in `updateSky`: `UpdateCloud` with the next unused draw,
     * which is taken only when the cloud wraps.
     */
    method MoveCloud(i: nat, ghost before: seq<Vec3>, time: real, bob: nat -> real, rand: nat -> real, cursor: nat, next: nat)
      returns (after: nat)
      requires i < |clouds| && |before| == |clouds| && before[i] == clouds[i].position
      requires next == cursor + WrapsBefore(before, i)
      modifies clouds[i]
      ensures after == cursor + WrapsBefore(before, i + 1)
      ensures CloudMoved(i, before, time, bob, rand, cursor)
    {
      var wrapped := UpdateCloud(clouds[i], time, bob(i), rand(next));
      after := if wrapped then next + 1 else next;
    }

    /** The stars part of `updateSky`: the point cloud and every bright star. */
    method UpdateStars(time: real)
      requires stars != null
      modifies stars, set b | b in stars.brightStars
      ensures stars.opacity == StarOpacity(time)
      ensures forall b :: b in stars.brightStars ==> b.opacity == BrightStarOpacity(time)
    {
      stars.opacity := StarOpacity(time);
      var k := 0;
      while k < |stars.brightStars|
        invariant 0 <= k <= |stars.brightStars|
        invariant forall j :: 0 <= j < k ==> stars.brightStars[j].opacity == BrightStarOpacity(time)
        modifies set b | b in stars.brightStars
      {
        stars.brightStars[k].opacity := BrightStarOpacity(time);
        k := k + 1;
      }
    }
  }
}
