/**
 * Wildlife's per-frame `update(delta)`: birds fly a circle around the park
 * centre, butterflies flutter toward a target they change on a timer, and
 * squirrels alternate between moving toward a target and pausing near
 * their home tree.
 *
 * Every animal record is an object the update changes in place, so each
 * kind is a class. Birds and butterflies both carry a non-zero `wingSpeed`
 * (at least 0.2), which is what sends them down the flying branch; squirrels
 * carry none. The mesh `lookAt` turns, the wing and tail rotations are
 * rendering only.
 */
module Wildlife {
  import opened JsMath
  import opened Three

  /** `center + (Math.random() - 0.5) * width`: a point within width/2 of center. */
  function Spread(center: real, draw: real, width: real): (r: real)
    ensures 0.0 <= draw < 1.0 && 0.0 < width ==> center - width / 2.0 <= r < center + width / 2.0
  {
    if 0.0 <= draw < 1.0 && 0.0 < width then
      ProductMonotone(-0.5, draw - 0.5, width);
      StrictProduct(draw - 0.5, 0.5, width);
      center + (draw - 0.5) * width
    else
      center + (draw - 0.5) * width
  }

  /** `low + Math.random() * width`: a value in [low, low + width). */
  function Uniform(low: real, draw: real, width: real): (r: real)
    ensures 0.0 <= draw < 1.0 && 0.0 < width ==> low <= r < low + width
  {
    if 0.0 <= draw < 1.0 && 0.0 < width then
      ProductMonotone(0.0, draw, width);
      StrictProduct(draw, 1.0, width);
      low + draw * width
    else
      low + draw * width
  }

  /**
   * Where a bird at `angle` is drawn: on the circle of `radius` about the
   * vertical axis, bobbing 2·sin(2·angle) about its altitude.
   */
  function OrbitPosition(m: Math, angle: real, radius: real, altitude: real): (p: Vec3)
    ensures Lawful(m) ==> altitude - 2.0 <= p.y <= altitude + 2.0
  {
    Vec3(m.cos(angle) * radius, altitude + m.sin(angle * 2.0) * 2.0, m.sin(angle) * radius)
  }

  /** A bird stays on its circle: x² + z² = radius², whatever the angle. */
  lemma OrbitOnCircle(m: Math, angle: real, radius: real, altitude: real)
    requires Circular(m)
    ensures var p := OrbitPosition(m, angle, radius, altitude);
      Square(p.x) + Square(p.z) == Square(radius)
  {
    PolarRadius(m, angle, radius);
  }

  class Bird {
    var position: Vec3
    const speed: real
    const altitude: real
    const radius: real
    var angle: real
    const wingSpeed: real
    var wingPos: real

    constructor (speed: real, altitude: real, radius: real, angle: real, wingSpeed: real, position: Vec3)
      ensures this.speed == speed && this.altitude == altitude && this.radius == radius
      ensures this.angle == angle && this.wingSpeed == wingSpeed && wingPos == 0.0 && this.position == position
    {
      this.speed := speed;
      this.altitude := altitude;
      this.radius := radius;
      this.angle := angle;
      this.wingSpeed := wingSpeed;
      wingPos := 0.0;
      this.position := position;
    }

    /** Flap, advance the angle by speed·delta and move onto the circle at the new angle. */
    method Update(m: Math, delta: real)
      modifies this
      ensures wingPos == old(wingPos) + wingSpeed * delta
      ensures angle == old(angle) + speed * delta
      ensures position == OrbitPosition(m, angle, radius, altitude)
      ensures Circular(m) ==> Square(position.x) + Square(position.z) == Square(radius)
    {
      wingPos := wingPos + wingSpeed * delta;
      angle := angle + speed * delta;
      position := OrbitPosition(m, angle, radius, altitude);
      if Circular(m) {
        OrbitOnCircle(m, angle, radius, altitude);
      }
    }
  }

  /**
   * One step toward the target: the unit direction scaled by the speed in x
   * and z and by half the speed in y.
   */
  function FlutterStep(m: Math, position: Vec3, target: Vec3, speed: real): Vec3 {
    Stride(position, Normalize(m, Sub(target, position)), speed, speed * 0.5)
  }

  /** Move by a direction scaled by `s` horizontally and by `sy` vertically. */
  function Stride(p: Vec3, dir: Vec3, s: real, sy: real): Vec3 {
    Vec3(p.x + dir.x * s, p.y + dir.y * sy, p.z + dir.z * s)
  }

  /** A butterfly moves at most its speed along x and z and half of it along y per frame. */
  lemma FlutterWithinSpeed(m: Math, position: Vec3, target: Vec3, speed: real)
    requires Lawful(m) && 0.0 <= speed
    ensures var p := FlutterStep(m, position, target, speed);
      && Abs(p.x - position.x) <= speed
      && Abs(p.y - position.y) <= speed * 0.5
      && Abs(p.z - position.z) <= speed
  {
    NormalizeBounded(m, Sub(target, position));
    MoveBound(position, Normalize(m, Sub(target, position)), speed, speed * 0.5);
  }

  /** A stride along a direction with components in [−1, 1] changes each coordinate by at most its scale. */
  lemma MoveBound(p: Vec3, dir: Vec3, s: real, sy: real)
    requires -1.0 <= dir.x <= 1.0 && -1.0 <= dir.y <= 1.0 && -1.0 <= dir.z <= 1.0 && 0.0 <= s && 0.0 <= sy
    ensures var q := Stride(p, dir, s, sy);
      Abs(q.x - p.x) <= s && Abs(q.y - p.y) <= sy && Abs(q.z - p.z) <= s
  {
    StepWithin(dir.x, s);
    StepWithin(dir.y, sy);
    StepWithin(dir.z, s);
  }

  /** A unit-bounded direction times a non-negative step moves at most the step. */
  lemma StepWithin(d: real, s: real)
    requires -1.0 <= d <= 1.0 && 0.0 <= s
    ensures Abs(d * s) <= s
  {
    ProductMonotone(d, 1.0, s);
    ProductMonotone(-1.0, d, s);
    assert -s <= d * s <= s;
  }

  /** The fields of a butterfly that an update changes, as a value. */
  datatype ButterflySnapshot = ButterflySnapshot(position: Vec3, wingPos: real, target: Vec3, timer: real)

  class Butterfly {
    var position: Vec3
    const speed: real
    const wingSpeed: real
    var wingPos: real
    /** The point it flies toward: the record's targetX, targetY and targetZ. */
    var target: Vec3
    const changeTargetTime: real
    var timer: real

    constructor (position: Vec3, speed: real, wingSpeed: real, target: Vec3, changeTargetTime: real)
      ensures this.position == position && this.speed == speed && this.wingSpeed == wingSpeed && wingPos == 0.0
      ensures this.target == target
      ensures this.changeTargetTime == changeTargetTime && timer == 0.0
    {
      this.position := position;
      this.speed := speed;
      this.wingSpeed := wingSpeed;
      wingPos := 0.0;
      this.target := target;
      this.changeTargetTime := changeTargetTime;
      timer := 0.0;
    }

    function Snapshot(): ButterflySnapshot
      reads this
    {
      ButterflySnapshot(position, wingPos, target, timer)
    }

    /** An update from `s` picks a new target: the timer would pass the change time. */
    predicate Retargets(s: ButterflySnapshot, delta: real) {
      s.timer + delta > changeTargetTime
    }

    /** The next unused draw after an update from `s` that reads from `at`: three draws per retarget. */
    function DrawsEnd(s: ButterflySnapshot, delta: real, at: nat): (r: nat)
      ensures at <= r <= at + 3
    {
      if Retargets(s, delta) then at + 3 else at
    }

    /**
     * This butterfly as an update from `s` leaves it, its draws read from
     * `at`: flapped; on a retarget the timer is 0 and the target is x and z
     * spread over 8 around the old position and y in [0.5, 2.5) from the
     * three draws, otherwise the timer grew by delta and the target is kept;
     * then one flutter step toward the target.
     */
    ghost predicate UpdatedFrom(m: Math, s: ButterflySnapshot, delta: real, rand: nat -> real, at: nat)
      reads this
    {
      && wingPos == s.wingPos + wingSpeed * delta
      && (Retargets(s, delta) ==>
        && timer == 0.0
        && target == Vec3(Spread(s.position.x, rand(at), 8.0), Uniform(0.5, rand(at + 1), 2.0), Spread(s.position.z, rand(at + 2), 8.0)))
      && (!Retargets(s, delta) ==>
        timer == s.timer + delta && target == s.target)
      && position == FlutterStep(m, s.position, target, speed)
    }

    /** The timer lies between 0 and the change time: it holds initially and every update keeps it. */
    ghost predicate TimerInRange()
      reads this
    {
      0.0 <= timer <= changeTargetTime
    }

    /**
     * Flap; add delta to the timer and, once it exceeds the change time,
     * pick a new target (three draws: x and z within 4 of the current
     * position, y in [0.5, 2.5)) and reset the timer; then take one step
     * toward the target.
     */
    method Update(m: Math, delta: real, rand: nat -> real, cursor: nat) returns (next: nat)
      modifies this
      ensures UpdatedFrom(m, old(Snapshot()), delta, rand, cursor)
      ensures next == DrawsEnd(old(Snapshot()), delta, cursor)
      ensures old(TimerInRange()) && 0.0 <= delta ==> TimerInRange()
      ensures UnitDraws(rand) && old(timer) + delta > changeTargetTime ==>
        && old(position.x) - 4.0 <= target.x < old(position.x) + 4.0
        && 0.5 <= target.y < 2.5
        && old(position.z) - 4.0 <= target.z < old(position.z) + 4.0
    {
      wingPos := wingPos + wingSpeed * delta;
      timer := timer + delta;
      next := cursor;
      if timer > changeTargetTime {
        target := Vec3(Spread(position.x, rand(cursor), 8.0), Uniform(0.5, rand(cursor + 1), 2.0), Spread(position.z, rand(cursor + 2), 8.0));
        timer := 0.0;
        next := cursor + 3;
      }
      position := FlutterStep(m, position, target, speed);
    }
  }

  datatype SquirrelState = Moving | Paused

  /** The squirrel stops once the target is less than 0.2 away. */
  predicate Arrived(m: Math, position: Vec3, target: Vec3) {
    m.sqrt(LengthSquared(Sub(target, position))) < 0.2
  }

  /** Arrival is a squared distance below 0.04. */
  lemma ArrivedIff(m: Math, position: Vec3, target: Vec3)
    requires Lawful(m)
    ensures Arrived(m, position, target) <==> LengthSquared(Sub(target, position)) < 0.04
  {
    var l := LengthSquared(Sub(target, position));
    if l < 0.04 {
      SqrtBelow(m, l, 0.2);
    } else {
      SqrtAtLeast(m, l, 0.2);
    }
  }

  /** A target at least 0.2 above or below the squirrel is never reached. */
  lemma HeightGapNeverArrives(m: Math, position: Vec3, target: Vec3)
    requires Lawful(m) && Abs(target.y - position.y) >= 0.2
    ensures !Arrived(m, position, target)
  {
    var d := Sub(target, position);
    SquareOrder(0.2, Abs(d.y));
    assert Abs(d.y) * Abs(d.y) == Square(d.y);
    ArrivedIff(m, position, target);
  }

  /** One step toward the target over the ground: x and z move, y does not. */
  function ScurryStep(m: Math, position: Vec3, target: Vec3, speed: real): Vec3 {
    Stride(position, Normalize(m, Sub(target, position)), speed, 0.0)
  }

  /** A squirrel moves at most its speed along x and along z per frame, and never vertically. */
  lemma ScurryWithinSpeed(m: Math, position: Vec3, target: Vec3, speed: real)
    requires Lawful(m) && 0.0 <= speed
    ensures var p := ScurryStep(m, position, target, speed);
      p.y == position.y && Abs(p.x - position.x) <= speed && Abs(p.z - position.z) <= speed
  {
    NormalizeBounded(m, Sub(target, position));
    MoveBound(position, Normalize(m, Sub(target, position)), speed, 0.0);
  }

  /** The draw that decides the climb is the third of a retarget; a climb reads one more draw for its height. */
  function PauseDraw(rand: nat -> real, cursor: nat): (k: nat)
    ensures k == cursor + 3 || k == cursor + 4
  {
    if rand(cursor + 2) < 0.3 then cursor + 4 else cursor + 3
  }

  /**
   * The new target of a retarget: within 3 of the home tree in x and z, at
   * ground level 0.15, or with a draw below 0.3 up the tree at [0.5, 2.5).
   */
  function NewTarget(home: Vec3, rand: nat -> real, cursor: nat): (t: Vec3)
    ensures UnitDraws(rand) ==>
      && home.x - 3.0 <= t.x < home.x + 3.0
      && home.z - 3.0 <= t.z < home.z + 3.0
      && (t.y == 0.15 || 0.5 <= t.y < 2.5)
    ensures UnitDraws(rand) ==> (rand(cursor + 2) < 0.3 <==> 0.5 <= t.y)
  {
    Vec3(Spread(home.x, rand(cursor), 6.0),
         if rand(cursor + 2) < 0.3 then Uniform(0.5, rand(cursor + 3), 2.0) else 0.15,
         Spread(home.z, rand(cursor + 1), 6.0))
  }

  /** The fields of a squirrel that an update changes, as a value. */
  datatype SquirrelSnapshot = SquirrelSnapshot(position: Vec3, moveTarget: Vec3, state: SquirrelState, pauseTimer: real, maxPause: real)

  class Squirrel {
    var position: Vec3
    const speed: real
    const homeTree: Vec3
    var moveTarget: Vec3
    var state: SquirrelState
    var pauseTimer: real
    var maxPause: real

    constructor (position: Vec3, speed: real, homeTree: Vec3, moveTarget: Vec3, maxPause: real)
      ensures this.position == position && this.speed == speed && this.homeTree == homeTree
      ensures this.moveTarget == moveTarget && state == Moving && pauseTimer == 0.0 && this.maxPause == maxPause
    {
      this.position := position;
      this.speed := speed;
      this.homeTree := homeTree;
      this.moveTarget := moveTarget;
      state := Moving;
      pauseTimer := 0.0;
      this.maxPause := maxPause;
    }

    function Snapshot(): SquirrelSnapshot
      reads this
    {
      SquirrelSnapshot(position, moveTarget, state, pauseTimer, maxPause)
    }

    /** An update from `s` ends a pause: paused, with the timer reaching the pause length. */
    predicate Repaths(s: SquirrelSnapshot, delta: real) {
      s.state == Paused && s.pauseTimer + delta >= s.maxPause
    }

    /** The next unused draw after an update from `s` that reads from `at`: draws are read only when a pause ends. */
    function DrawsEnd(s: SquirrelSnapshot, delta: real, rand: nat -> real, at: nat): (r: nat)
      ensures at <= r
      ensures Repaths(s, delta) <==> at < r
    {
      if Repaths(s, delta) then PauseDraw(rand, at) + 1 else at
    }

    /**
     * This squirrel as an update from `s` leaves it, its draws read from
     * `at`: a moving squirrel pauses (timer 0, in place) within 0.2 of its
     * target and otherwise steps toward it over the ground, keeping target
     * and pause length; a paused one stays in place while its timer grows by
     * delta, and when that reaches the pause length it moves again toward
     * `NewTarget` with a pause length drawn after it.
     */
    ghost predicate UpdatedFrom(m: Math, s: SquirrelSnapshot, delta: real, rand: nat -> real, at: nat)
      reads this
    {
      && (s.state == Moving ==> moveTarget == s.moveTarget && maxPause == s.maxPause)
      && (s.state == Moving && Arrived(m, s.position, s.moveTarget) ==>
        state == Paused && pauseTimer == 0.0 && position == s.position)
      && (s.state == Moving && !Arrived(m, s.position, s.moveTarget) ==>
        state == Moving && pauseTimer == s.pauseTimer && position == ScurryStep(m, s.position, s.moveTarget, speed))
      && (s.state == Paused ==> position == s.position && pauseTimer == s.pauseTimer + delta)
      && (s.state == Paused && !Repaths(s, delta) ==>
        state == Paused && moveTarget == s.moveTarget && maxPause == s.maxPause)
      && (Repaths(s, delta) ==>
        && state == Moving
        && moveTarget == NewTarget(homeTree, rand, at)
        && maxPause == Uniform(2.0, rand(PauseDraw(rand, at)), 3.0))
    }

    /**
     * Moving: pause (timer 0) once within 0.2 of the target, else step
     * toward it over the ground. Paused: add delta to the timer and, once it
     * reaches the pause length, pick a new target near the home tree, move
     * again and draw the next pause length in [2, 5).
     */
    method Update(m: Math, delta: real, rand: nat -> real, cursor: nat) returns (next: nat)
      modifies this
      ensures UpdatedFrom(m, old(Snapshot()), delta, rand, cursor)
      ensures next == DrawsEnd(old(Snapshot()), delta, rand, cursor)
      ensures position.y == old(position.y)
      ensures UnitDraws(rand) && Repaths(old(Snapshot()), delta) ==> 2.0 <= maxPause < 5.0
      ensures Lawful(m) && old(state) == Moving && Abs(old(moveTarget.y) - old(position.y)) >= 0.2 ==>
        state == Moving
    {
      next := cursor;
      if state == Moving {
        if Arrived(m, position, moveTarget) {
          state := Paused;
          pauseTimer := 0.0;
        } else {
          position := ScurryStep(m, position, moveTarget, speed);
        }
        if Lawful(m) && Abs(old(moveTarget.y) - old(position.y)) >= 0.2 {
          HeightGapNeverArrives(m, old(position), old(moveTarget));
        }
      } else {
        pauseTimer := pauseTimer + delta;
        if pauseTimer >= maxPause {
          moveTarget := NewTarget(homeTree, rand, cursor);
          state := Moving;
          var k := PauseDraw(rand, cursor);
          maxPause := Uniform(2.0, rand(k), 3.0);
          next := k + 1;
        }
      }
    }
  }

  /** All animals of the park, in the order the list holds them: birds, then squirrels, then butterflies. */
  class Park {
    const birds: seq<Bird>
    const squirrels: seq<Squirrel>
    const butterflies: seq<Butterfly>

    constructor (birds: seq<Bird>, squirrels: seq<Squirrel>, butterflies: seq<Butterfly>)
      ensures this.birds == birds && this.squirrels == squirrels && this.butterflies == butterflies
    {
      this.birds := birds;
      this.squirrels := squirrels;
      this.butterflies := butterflies;
    }

    /** Every animal record appears once in the list. */
    ghost predicate Valid()
      reads this
    {
      && (forall i, j :: 0 <= i < j < |birds| ==> birds[i] != birds[j])
      && (forall i, j :: 0 <= i < j < |squirrels| ==> squirrels[i] != squirrels[j])
      && (forall i, j :: 0 <= i < j < |butterflies| ==> butterflies[i] != butterflies[j])
    }

    function ButterflySnapshots(): (r: seq<ButterflySnapshot>)
      reads set f | f in butterflies
      ensures |r| == |butterflies| && forall i :: 0 <= i < |butterflies| ==> r[i] == butterflies[i].Snapshot()
    {
      seq(|butterflies|, i requires 0 <= i < |butterflies| reads set f | f in butterflies => butterflies[i].Snapshot())
    }

    function SquirrelSnapshots(): (r: seq<SquirrelSnapshot>)
      reads set q | q in squirrels
      ensures |r| == |squirrels| && forall i :: 0 <= i < |squirrels| ==> r[i] == squirrels[i].Snapshot()
    {
      seq(|squirrels|, i requires 0 <= i < |squirrels| reads set q | q in squirrels => squirrels[i].Snapshot())
    }

    /** Where the draws stand after the first n butterflies, from the states `before`, starting at `cursor`. */
    function ButterflyCursor(before: seq<ButterflySnapshot>, delta: real, cursor: nat, n: nat): (r: nat)
      requires n <= |before| && n <= |butterflies|
      ensures cursor <= r
      decreases n
    {
      if n == 0 then cursor
      else butterflies[n - 1].DrawsEnd(before[n - 1], delta, ButterflyCursor(before, delta, cursor, n - 1))
    }

    /** Where the draws stand after the first n squirrels, from the states `before`, starting at `cursor`. */
    function SquirrelCursor(before: seq<SquirrelSnapshot>, delta: real, rand: nat -> real, cursor: nat, n: nat): (r: nat)
      requires n <= |before| && n <= |squirrels|
      ensures cursor <= r
      decreases n
    {
      if n == 0 then cursor
      else squirrels[n - 1].DrawsEnd(before[n - 1], delta, rand, SquirrelCursor(before, delta, rand, cursor, n - 1))
    }

    /** Every butterfly moved from its state in `before`, reading its draws where the ones before it left off. */
    ghost predicate ButterfliesMoved(m: Math, before: seq<ButterflySnapshot>, delta: real, rand: nat -> real, cursor: nat)
      requires |before| == |butterflies|
      reads set f | f in butterflies
    {
      forall i :: 0 <= i < |butterflies| ==>
        butterflies[i].UpdatedFrom(m, before[i], delta, rand, ButterflyCursor(before, delta, cursor, i))
    }

    /** Every squirrel moved from its state in `before`, reading its draws where the ones before it left off. */
    ghost predicate SquirrelsMoved(m: Math, before: seq<SquirrelSnapshot>, delta: real, rand: nat -> real, cursor: nat)
      requires |before| == |squirrels|
      reads set q | q in squirrels
    {
      forall i :: 0 <= i < |squirrels| ==>
        squirrels[i].UpdatedFrom(m, before[i], delta, rand, SquirrelCursor(before, delta, rand, cursor, i))
    }

    /**
     * `update(delta)`: every animal in list order. Birds orbit; every
     * squirrel, then every butterfly, moves as its own update says, the
     * random draws read in that order from `cursor`.
     */
    method Update(m: Math, delta: real, rand: nat -> real, cursor: nat) returns (next: nat)
      requires Valid()
      modifies set b | b in birds, set s | s in squirrels, set f | f in butterflies
      ensures cursor <= next
      ensures forall i :: 0 <= i < |birds| ==>
        && birds[i].angle == old(birds[i].angle) + birds[i].speed * delta
        && birds[i].wingPos == old(birds[i].wingPos) + birds[i].wingSpeed * delta
        && birds[i].position == OrbitPosition(m, birds[i].angle, birds[i].radius, birds[i].altitude)
      ensures forall i :: 0 <= i < |squirrels| ==> squirrels[i].position.y == old(squirrels[i].position.y)
      ensures forall i :: 0 <= i < |butterflies| ==>
        butterflies[i].wingPos == old(butterflies[i].wingPos) + butterflies[i].wingSpeed * delta
      ensures 0.0 <= delta ==> forall i :: 0 <= i < |butterflies| ==>
        old(butterflies[i].TimerInRange()) ==> butterflies[i].TimerInRange()
      ensures SquirrelsMoved(m, old(SquirrelSnapshots()), delta, rand, cursor)
      ensures ButterfliesMoved(m, old(ButterflySnapshots()), delta, rand,
                               SquirrelCursor(old(SquirrelSnapshots()), delta, rand, cursor, |squirrels|))
      ensures next == ButterflyCursor(old(ButterflySnapshots()), delta,
                                      SquirrelCursor(old(SquirrelSnapshots()), delta, rand, cursor, |squirrels|), |butterflies|)
    {
      ghost var squirrelsBefore := SquirrelSnapshots();
      ghost var butterfliesBefore := ButterflySnapshots();
      UpdateBirds(m, delta);
      assert SquirrelSnapshots() == squirrelsBefore;
      next := UpdateSquirrels(m, delta, rand, cursor);
      assert ButterflySnapshots() == butterfliesBefore;
      next := UpdateButterflies(m, delta, rand, next);
    }

    method UpdateBirds(m: Math, delta: real)
      requires Valid()
      modifies set b | b in birds
      ensures forall i :: 0 <= i < |birds| ==>
        && birds[i].angle == old(birds[i].angle) + birds[i].speed * delta
        && birds[i].wingPos == old(birds[i].wingPos) + birds[i].wingSpeed * delta
        && birds[i].position == OrbitPosition(m, birds[i].angle, birds[i].radius, birds[i].altitude)
    {
      var i := 0;
      while i < |birds|
        invariant 0 <= i <= |birds|
        invariant forall j :: 0 <= j < i ==>
          && birds[j].angle == old(birds[j].angle) + birds[j].speed * delta
          && birds[j].wingPos == old(birds[j].wingPos) + birds[j].wingSpeed * delta
          && birds[j].position == OrbitPosition(m, birds[j].angle, birds[j].radius, birds[j].altitude)
        invariant forall j :: i <= j < |birds| ==> birds[j].angle == old(birds[j].angle) && birds[j].wingPos == old(birds[j].wingPos)
        modifies set b | b in birds
      {
        var b := birds[i];
        assert forall j :: 0 <= j < |birds| && j != i ==> birds[j] != b;
        b.Update(m, delta);
        i := i + 1;
      }
    }

    method UpdateSquirrels(m: Math, delta: real, rand: nat -> real, cursor: nat) returns (next: nat)
      requires Valid()
      modifies set s | s in squirrels
      ensures next == SquirrelCursor(old(SquirrelSnapshots()), delta, rand, cursor, |squirrels|)
      ensures SquirrelsMoved(m, old(SquirrelSnapshots()), delta, rand, cursor)
      ensures forall i :: 0 <= i < |squirrels| ==> squirrels[i].position.y == old(squirrels[i].position.y)
    {
      ghost var before := SquirrelSnapshots();
      next := cursor;
      var i := 0;
      while i < |squirrels|
        invariant 0 <= i <= |squirrels|
        invariant next == SquirrelCursor(before, delta, rand, cursor, i)
        invariant forall j {:trigger squirrels[j].UpdatedFrom(m, before[j], delta, rand, SquirrelCursor(before, delta, rand, cursor, j))} :: 0 <= j < i ==>
          squirrels[j].UpdatedFrom(m, before[j], delta, rand, SquirrelCursor(before, delta, rand, cursor, j))
        invariant forall j :: 0 <= j < |squirrels| ==> squirrels[j].position.y == old(squirrels[j].position.y)
        invariant forall j :: i <= j < |squirrels| ==> squirrels[j].Snapshot() == before[j]
        modifies set s | s in squirrels
      {
        next := squirrels[i].Update(m, delta, rand, next);
        i := i + 1;
      }
    }

    /** Butterfly i's turn: its update, reading draws where the butterflies before it left off. */
    method MoveButterfly(m: Math, i: nat, ghost before: seq<ButterflySnapshot>, delta: real, rand: nat -> real, cursor: nat, at: nat)
      returns (next: nat)
      requires i < |butterflies| && |before| == |butterflies| && butterflies[i].Snapshot() == before[i]
      requires at == ButterflyCursor(before, delta, cursor, i)
      modifies butterflies[i]
      ensures next == ButterflyCursor(before, delta, cursor, i + 1)
      ensures butterflies[i].UpdatedFrom(m, before[i], delta, rand, at)
    {
      next := butterflies[i].Update(m, delta, rand, at);
    }

    method UpdateButterflies(m: Math, delta: real, rand: nat -> real, cursor: nat) returns (next: nat)
      requires Valid()
      modifies set f | f in butterflies
      ensures next == ButterflyCursor(old(ButterflySnapshots()), delta, cursor, |butterflies|)
      ensures ButterfliesMoved(m, old(ButterflySnapshots()), delta, rand, cursor)
      ensures forall i :: 0 <= i < |butterflies| ==>
        butterflies[i].wingPos == old(butterflies[i].wingPos) + butterflies[i].wingSpeed * delta
      ensures 0.0 <= delta ==> forall i :: 0 <= i < |butterflies| ==>
        old(butterflies[i].TimerInRange()) ==> butterflies[i].TimerInRange()
    {
      ghost var before := ButterflySnapshots();
      next := cursor;
      var i := 0;
      while i < |butterflies|
        invariant 0 <= i <= |butterflies|
        invariant next == ButterflyCursor(before, delta, cursor, i)
        invariant forall j {:trigger butterflies[j].UpdatedFrom(m, before[j], delta, rand, ButterflyCursor(before, delta, cursor, j))} :: 0 <= j < i ==>
          butterflies[j].UpdatedFrom(m, before[j], delta, rand, ButterflyCursor(before, delta, cursor, j))
        invariant forall j :: i <= j < |butterflies| ==> butterflies[j].Snapshot() == before[j]
        modifies set f | f in butterflies
      {
        next := MoveButterfly(m, i, before, delta, rand, cursor, next);
        i := i + 1;
      }
      forall j | 0 <= j < |butterflies|
        ensures butterflies[j].wingPos == old(butterflies[j].wingPos) + butterflies[j].wingSpeed * delta
        ensures 0.0 <= delta && old(butterflies[j].TimerInRange()) ==> butterflies[j].TimerInRange()
      {
        assert butterflies[j].UpdatedFrom(m, before[j], delta, rand, ButterflyCursor(before, delta, cursor, j));
      }
    }
  }
}
