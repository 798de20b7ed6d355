/**
 * DayNightCycle: a clock `timeOfDay` in days that `update(delta)` advances
 * and wraps, a sun and a moon on opposite ends of a circle of radius 100, a
 * sun light that follows the sun's direction, and intensities and a star
 * opacity chosen from the time.
 */
module DayNightCycle {
  import opened JsMath
  import opened Three

  /** The three flags `update` computes; they may overlap. */
  predicate IsDaytime(t: real) { 0.25 < t < 0.75 }
  predicate IsSunrise(t: real) { 0.2 < t < 0.3 }
  predicate IsSunset(t: real) { 0.7 < t < 0.8 }

  /** What `update` returns: only the time when something is missing, else the time and the three flags. */
  datatype Report =
    | TimeOnly(timeOfDay: real)
    | Full(timeOfDay: real, isDaytime: bool, isSunrise: bool, isSunset: bool)

  /** The clock increment of one frame: delta · 0.05 · speed. */
  function Increment(delta: real, speed: real): real {
    delta * 0.05 * speed
  }

  /**
   * Add the increment and subtract 1 once if the result reached 1. From a
   * time in [0, 1) and an increment in [0, 1] the clock stays in [0, 1); a
   * larger increment can leave it at 1 or above.
   */
  function Advance(t: real, step: real): (r: real)
    ensures 0.0 <= t && 0.0 <= step ==> 0.0 <= r
    ensures t + step < 2.0 ==> r < 1.0
    ensures t + step < 1.0 ==> r == t + step
  {
    var next := t + step;
    if next >= 1.0 then next - 1.0 else next
  }

  lemma AdvanceStaysInDay(t: real, step: real)
    requires 0.0 <= t < 1.0 && 0.0 <= step <= 1.0
    ensures 0.0 <= Advance(t, step) < 1.0
  {
  }

  /** The angle of the sun on its circle: a full turn per day. */
  function Angle(m: Math, t: real): real {
    t * m.PI * 2.0
  }

  /** Sun x and y on the circle of radius 100 (z is left where it was). */
  function SunX(m: Math, t: real): real { m.cos(Angle(m, t)) * 100.0 }
  function SunY(m: Math, t: real): real { m.sin(Angle(m, t)) * 100.0 }

  /** The moon half a turn further on. */
  function MoonX(m: Math, t: real): real { m.cos(Angle(m, t) + m.PI) * 100.0 }
  function MoonY(m: Math, t: real): real { m.sin(Angle(m, t) + m.PI) * 100.0 }

  /** The moon is always opposite the sun. */
  lemma MoonOppositeSun(m: Math, t: real)
    requires HalfTurn(m)
    ensures MoonX(m, t) == -SunX(m, t) && MoonY(m, t) == -SunY(m, t)
  {
    var a := Angle(m, t);
    assert m.cos(a + m.PI) == -m.cos(a);
    assert m.sin(a + m.PI) == -m.sin(a);
  }

  /**
   * min(|t|/0.2, |t − 1|/0.2): 0 exactly at midnight, and at most 1.25 on the
   * night side of the day, where it is used.
   */
  function NightFactor(t: real): (r: real)
    ensures 0.0 <= r
    ensures r == 0.0 <==> t == 0.0 || t == 1.0
    ensures (0.0 <= t <= 0.25 || 0.75 <= t <= 1.25) ==> r <= 1.25
  {
    Min(Abs(t - 0.0) / 0.2, Abs(t - 1.0) / 0.2)
  }

  /** Sun light intensity: 1 in daytime, else 0.1 + 0.4·nightFactor, which lies in [0.1, 0.6] over a day. */
  function SunIntensity(t: real): (r: real)
    ensures IsDaytime(t) ==> r == 1.0
    ensures !IsDaytime(t) && 0.0 <= t < 1.0 ==> 0.1 <= r <= 0.6
  {
    if IsDaytime(t) then 1.0 else 0.1 + NightFactor(t) * 0.4
  }

  /** Ambient intensity: 0.4 in daytime, else 0.1 + 0.1·nightFactor, which lies in [0.1, 0.225] over a day. */
  function AmbientIntensity(t: real): (r: real)
    ensures IsDaytime(t) ==> r == 0.4
    ensures !IsDaytime(t) && 0.0 <= t < 1.0 ==> 0.1 <= r <= 0.225
  {
    if IsDaytime(t) then 0.4 else 0.1 + NightFactor(t) * 0.1
  }

  /** In the morning overlap both `isDaytime` and `isSunrise` hold, and similarly in the evening. */
  lemma FlagsOverlap()
    ensures IsDaytime(0.27) && IsSunrise(0.27)
    ensures IsDaytime(0.72) && IsSunset(0.72)
  {
  }

  /** The component's refs: speed, clock, the scene prop and the five scene elements. */
  class Cycle {
    var timeSpeed: real
    var timeOfDay: real
    const hasScene: bool
    var sun: Mesh?
    var moon: Mesh?
    var sunLight: Light?
    var ambientLight: Light?
    var stars: Mesh?

    ghost function Objects(): set<object>
      reads this
    {
      (if sun == null then {} else {sun})
      + (if moon == null then {} else {moon})
      + (if sunLight == null then {} else {sunLight})
      + (if ambientLight == null then {} else {ambientLight})
      + (if stars == null then {} else {stars})
    }

    /** The scene is set and every element exists: the guard of `update`. */
    predicate Ready()
      reads this
    {
      hasScene && sun != null && moon != null && sunLight != null && ambientLight != null && stars != null
    }

    /**
     * Once every element exists, the three meshes are distinct objects, as
     * are the two lights, as the effect creates them.
     */
    ghost predicate Separate()
      reads this
    {
      Ready() ==> sun != moon && sun != stars && moon != stars && sunLight != ambientLight
    }

    /** Initial refs: speed 1, time 0.3, no elements. */
    constructor (hasScene: bool)
      ensures this.hasScene == hasScene && timeSpeed == 1.0 && timeOfDay == 0.3
      ensures sun == null && moon == null && sunLight == null && ambientLight == null && stars == null
      ensures !Ready() && Separate()
    {
      this.hasScene := hasScene;
      timeSpeed := 1.0;
      timeOfDay := 0.3;
      sun := null;
      moon := null;
      sunLight := null;
      ambientLight := null;
      stars := null;
    }

    /** The effect: with a scene, create sun, moon, their light, the ambient light and the (invisible) stars. */
    method Install()
      modifies this
      ensures hasScene ==> Ready() && Separate()
      ensures hasScene ==> sun.position == Vec3(0.0, 10.0, -100.0) && sun.opacity == 0.8
      ensures hasScene ==> moon.position == Vec3(0.0, -10.0, 100.0) && moon.opacity == 0.8
      ensures hasScene ==> sunLight.position == sun.position && sunLight.intensity == 1.0
      ensures hasScene ==> ambientLight.intensity == 0.4 && stars.opacity == 0.0
      ensures !hasScene ==> unchanged(this)
      ensures timeOfDay == old(timeOfDay) && timeSpeed == old(timeSpeed)
    {
      if !hasScene {
        return;
      }
      sun := new Mesh(Vec3(0.0, 10.0, -100.0), 0.8);
      moon := new Mesh(Vec3(0.0, -10.0, 100.0), 0.8);
      sunLight := new Light(0xffffee, 1.0, sun.position);
      ambientLight := new Light(0xffffff, 0.4, Vec3(0.0, 0.0, 0.0));
      stars := new Mesh(Vec3(0.0, 0.0, 0.0), 0.0);
    }

    /**
     * `update(delta)`: without a scene or with an element missing, report
     * the current time and change nothing. Otherwise advance the clock, move
     * sun and moon (x, y only), point the sun light along the sun, set the
     * intensities and the star opacity, and report the time and flags.
     */
    method Update(m: Math, delta: real) returns (r: Report)
      requires Separate()
      modifies this, Objects()
      ensures sun == old(sun) && moon == old(moon) && sunLight == old(sunLight)
      ensures ambientLight == old(ambientLight) && stars == old(stars) && timeSpeed == old(timeSpeed)
      ensures !old(Ready()) ==> r == TimeOnly(timeOfDay) && unchanged(this) && unchanged(Objects())
      ensures old(Ready()) ==>
        && timeOfDay == Advance(old(timeOfDay), Increment(delta, timeSpeed))
        && r == Full(timeOfDay, IsDaytime(timeOfDay), IsSunrise(timeOfDay), IsSunset(timeOfDay))
      ensures old(Ready()) ==>
        && sun.position == Vec3(SunX(m, timeOfDay), SunY(m, timeOfDay), old(sun.position.z))
        && moon.position == Vec3(MoonX(m, timeOfDay), MoonY(m, timeOfDay), old(moon.position.z))
        && sunLight.position == Normalize(m, sun.position)
        && sunLight.intensity == SunIntensity(timeOfDay)
        && ambientLight.intensity == AmbientIntensity(timeOfDay)
        && stars.opacity == (if IsDaytime(timeOfDay) then 0.0 else 0.7)
    {
      if !hasScene || sun == null || moon == null || sunLight == null || ambientLight == null || stars == null {
        return TimeOnly(timeOfDay);
      }
      timeOfDay := Advance(timeOfDay, Increment(delta, timeSpeed));
      var t := timeOfDay;
      sun.position := sun.position.(x := SunX(m, t), y := SunY(m, t));
      moon.position := moon.position.(x := MoonX(m, t), y := MoonY(m, t));
      sunLight.position := Normalize(m, sun.position);
      sunLight.intensity := SunIntensity(t);
      ambientLight.intensity := AmbientIntensity(t);
      stars.opacity := if IsDaytime(t) then 0.0 else 0.7;
      r := Full(t, IsDaytime(t), IsSunrise(t), IsSunset(t));
    }

    /** `setTimeSpeed`: store the speed. */
    method SetTimeSpeed(speed: real)
      modifies this
      ensures timeSpeed == speed && timeOfDay == old(timeOfDay)
      ensures sun == old(sun) && moon == old(moon) && sunLight == old(sunLight)
      ensures ambientLight == old(ambientLight) && stars == old(stars)
    {
      timeSpeed := speed;
    }

    /** `setTimeOfDay`: store the time as given, without wrapping it into [0, 1). */
    method SetTimeOfDay(time: real)
      modifies this
      ensures timeOfDay == time && timeSpeed == old(timeSpeed)
      ensures sun == old(sun) && moon == old(moon) && sunLight == old(sunLight)
      ensures ambientLight == old(ambientLight) && stars == old(stars)
    {
      timeOfDay := time;
    }
  }
}
