/**
 * LightSetup: the sun, ambient, hemisphere and park lights, and the
 * `updateDayNightCycle` step that positions the sun and picks every light's
 * colour and intensity from the time of day t (0 = midnight, 0.5 = noon).
 *
 * The lights are objects the update mutates in place (`Three.Light` and the
 * `LightRig` class holding them); the branch logic is stated once as functions
 * (`SunPhase`, `PhaseSetting`, `ParkLightIntensity`) that the update is
 * proved to follow.
 */
module LightSetup {
  import opened JsMath
  import opened Three

  /** The branch of the sun/ambient/hemisphere if-chain that fires. */
  datatype Phase = Sunrise | Sunset | Daytime | Night

  /**
   * `isSunrise` is tested first, then `isSunset`, then `isDaytime`. Because
   * the sunrise window (0.2, 0.3) overlaps the daytime window (0.25, 0.75),
   * the daytime branch only fires on [0.3, 0.7]; the window ends 0.2 and
   * 0.8 fall through to night.
   */
  function SunPhase(t: real): (r: Phase)
    ensures r == Sunrise <==> 0.2 < t < 0.3
    ensures r == Sunset <==> 0.7 < t < 0.8
    ensures r == Daytime <==> 0.3 <= t <= 0.7
    ensures r == Night <==> t <= 0.2 || 0.8 <= t
  {
    if 0.2 < t < 0.3 then Sunrise
    else if 0.7 < t < 0.8 then Sunset
    else if 0.25 < t < 0.75 then Daytime
    else Night
  }

  /** What one branch writes: sun colour and intensity, ambient colour and intensity, hemisphere intensity. */
  datatype Setting = Setting(sunColor: int, sunIntensity: real, ambientColor: int, ambientIntensity: real, hemiIntensity: real)

  function PhaseSetting(p: Phase): Setting {
    match p
    case Sunrise => Setting(0xffa54f, 0.6, 0xffeedd, 0.3, 0.4)
    case Sunset => Setting(0xff7a22, 0.6, 0xffddcc, 0.3, 0.3)
    case Daytime => Setting(0xffffeb, 0.8, 0xfbf2e5, 0.4, 0.4)
    case Night => Setting(0x334466, 0.1, 0x223344, 0.15, 0.1)
  }

  /** The sun on a circle of radius 100 in x, its height kept at least 0.1·100 above the horizon, z fixed at −50. */
  function SunPosition(m: Math, t: real): (r: Vec3)
    ensures 10.0 <= r.y && r.z == -50.0
    ensures Lawful(m) ==> -100.0 <= r.x <= 100.0 && r.y <= 100.0
  {
    var sunAngle := t * m.PI * 2.0;
    Vec3(m.cos(sunAngle) * 100.0, Max(0.1, m.sin(sunAngle)) * 100.0, -50.0)
  }

  /**
   * The park-light chain tests `isDaytime` first, so the sunrise/sunset
   * level 0.5 only applies on the parts of those windows outside (0.25, 0.75).
   */
  function ParkLightIntensity(t: real): (r: real)
    ensures r == 0.1 <==> 0.25 < t < 0.75
    ensures r == 0.5 <==> (0.2 < t <= 0.25 || 0.75 <= t < 0.8)
    ensures r == 0.9 <==> (t <= 0.2 || 0.8 <= t)
  {
    if 0.25 < t < 0.75 then 0.1
    else if (0.2 < t < 0.3) || (0.7 < t < 0.8) then 0.5
    else 0.9
  }

  /** Early morning (0.25, 0.3): the sun already uses sunrise values, the park lights are nearly off. */
  lemma SunriseWithParkLightsOff(t: real)
    requires 0.25 < t < 0.3
    ensures SunPhase(t) == Sunrise && PhaseSetting(SunPhase(t)).sunIntensity == 0.6
    ensures ParkLightIntensity(t) == 0.1
  {
  }

  /** The lights the effect installs; `null` until then, as in the initial ref value. */
  class LightRig {
    var sunLight: Light?
    var ambientLight: Light?
    var hemiLight: Light?
    var parkLights: seq<Light>

    /** Every light the rig refers to. */
    ghost function Lights(): set<Light>
      reads this
    {
      (if sunLight == null then {} else {sunLight})
      + (if ambientLight == null then {} else {ambientLight})
      + (if hemiLight == null then {} else {hemiLight})
      + set l | l in parkLights
    }

    /** All three main lights are present (the guard of `updateDayNightCycle`). */
    predicate Installed()
      reads this
    {
      sunLight != null && ambientLight != null && hemiLight != null
    }

    /** The main lights are distinct objects and none of them is a park light, as the effect creates them. */
    ghost predicate Separate()
      reads this
    {
      Installed() ==>
        sunLight != ambientLight && sunLight != hemiLight && ambientLight != hemiLight
        && sunLight !in parkLights && ambientLight !in parkLights && hemiLight !in parkLights
    }

    constructor ()
      ensures sunLight == null && ambientLight == null && hemiLight == null && parkLights == []
    {
      sunLight := null;
      ambientLight := null;
      hemiLight := null;
      parkLights := [];
    }

    /** The effect: ambient, sun, hemisphere and four park point lights with their initial values. */
    method Install()
      modifies this
      ensures Installed() && Separate() && |parkLights| == 4
      ensures sunLight.color == 0xffffeb && sunLight.intensity == 0.8 && sunLight.position == Vec3(-10.0, 20.0, 10.0)
      ensures ambientLight.color == 0xfbf2e5 && ambientLight.intensity == 0.4
      ensures hemiLight.color == 0x90c0ff && hemiLight.intensity == 0.4 && hemiLight.position == Vec3(0.0, 50.0, 0.0)
      ensures parkLights[0].intensity == 0.85 && parkLights[0].position == Vec3(3.0, 2.7, -3.0)
      ensures parkLights[1].intensity == 0.7 && parkLights[1].position == Vec3(-5.0, 2.4, 0.0)
      ensures parkLights[2].intensity == 0.9 && parkLights[2].position == Vec3(10.0, 3.0, 8.0)
      ensures parkLights[3].intensity == 0.65 && parkLights[3].position == Vec3(-12.0, 2.2, -7.0)
    {
      ambientLight := new Light(0xfbf2e5, 0.4, Vec3(0.0, 0.0, 0.0));
      sunLight := new Light(0xffffeb, 0.8, Vec3(-10.0, 20.0, 10.0));
      hemiLight := new Light(0x90c0ff, 0.4, Vec3(0.0, 50.0, 0.0));
      var p1 := new Light(0xffe3c2, 0.85, Vec3(3.0, 2.7, -3.0));
      var p2 := new Light(0xffdeb0, 0.7, Vec3(-5.0, 2.4, 0.0));
      var p3 := new Light(0xfff0cc, 0.9, Vec3(10.0, 3.0, 8.0));
      var p4 := new Light(0xffd9a0, 0.65, Vec3(-12.0, 2.2, -7.0));
      parkLights := [p1, p2, p3, p4];
    }

    /**
     * What `updateDayNightCycle(time)` leaves, the rig's refs unchanged:
     * with all three main lights present, the sun light at `SunPosition`
     * and every main light at the colour and intensity the setting of
     * `SunPhase(time)` gives (the hemisphere keeps its colour, and the
     * ambient and hemisphere lights keep their positions), and every park
     * light at `ParkLightIntensity(time)`; park lights always keep their
     * position and colour.
     */
    twostate predicate DayNightSet(m: Math, time: real)
      reads this, Lights()
    {
      && sunLight == old(sunLight) && ambientLight == old(ambientLight) && hemiLight == old(hemiLight)
      && parkLights == old(parkLights)
      && (Installed() ==>
        var s := PhaseSetting(SunPhase(time));
        && sunLight.position == SunPosition(m, time) && sunLight.color == s.sunColor && sunLight.intensity == s.sunIntensity
        && ambientLight.position == old(ambientLight.position)
        && ambientLight.color == s.ambientColor && ambientLight.intensity == s.ambientIntensity
        && hemiLight.position == old(hemiLight.position) && hemiLight.color == old(hemiLight.color)
        && hemiLight.intensity == s.hemiIntensity
        && forall l :: l in parkLights ==> l.intensity == ParkLightIntensity(time))
      && forall l :: l in parkLights ==> l.position == old(l.position) && l.color == old(l.color)
    }

    /**
     * `updateDayNightCycle(time)`: nothing changes unless all three main
     * lights exist; otherwise the lights are set as `DayNightSet` says.
     */
    method UpdateDayNightCycle(m: Math, time: real)
      requires Separate()
      modifies Lights()
      ensures !Installed() ==> unchanged(Lights())
      ensures DayNightSet(m, time)
    {
      if sunLight == null || ambientLight == null || hemiLight == null {
        return;
      }
      var s := PhaseSetting(SunPhase(time));
      sunLight.position := SunPosition(m, time);
      sunLight.color := s.sunColor;
      sunLight.intensity := s.sunIntensity;
      ambientLight.color := s.ambientColor;
      ambientLight.intensity := s.ambientIntensity;
      hemiLight.intensity := s.hemiIntensity;

      var level := ParkLightIntensity(time);
      var i := 0;
      while i < |parkLights|
        invariant 0 <= i <= |parkLights|
        invariant forall j :: 0 <= j < i ==> parkLights[j].intensity == level
        invariant forall l :: l in parkLights ==> l.position == old(l.position) && l.color == old(l.color)
        modifies set l | l in parkLights
      {
        parkLights[i].intensity := level;
        i := i + 1;
      }
    }
  }
}
