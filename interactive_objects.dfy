/**
 * InteractiveObjects: two fountains whose water is a cloud of 300 particles
 * held in one flat position buffer (x, y, z per particle). `interact`
 * switches a fountain on or off, `update(delta)` lets an active fountain's
 * particles fall and sends the fallen ones back up the jet, and
 * `findNearestObject` picks the fountain closest to the player.
 */
module InteractiveObjects {
  import opened JsMath
  import opened Three

  /** Particles per fountain. */
  const ParticleCount: nat := 300

  /** Below this height a falling particle is sent back up. */
  const BasinLevel: real := 0.8

  /** How far `findNearestObject` looks when the caller gives no distance. */
  const DefaultReach: real := 3.0

  /** `Math.random() * Math.PI * 2`: an angle drawn uniformly over a full turn. */
  function Turn(m: Math, draw: real): real {
    draw * m.PI * 2.0
  }

  /** A particle at `radius` along the drawn angle, at `height`. */
  function DiscPoint(m: Math, angle: real, radius: real, height: real): Vec3 {
    Vec3(m.cos(angle) * radius, height, m.sin(angle) * radius)
  }

  /** Where a new fountain puts particle k's draws: radius below 0.8, height 1.0 + 1.5·draw. */
  function InitialParticle(m: Math, rand: nat -> real, k: nat): Vec3 {
    DiscPoint(m, Turn(m, rand(k)), rand(k + 1) * 0.8, rand(k + 2) * 1.5 + 1.0)
  }

  /** Where a fallen particle restarts: radius below 0.2, height 1.7 + 0.5·draw. */
  function Respawn(m: Math, rand: nat -> real, k: nat): Vec3 {
    DiscPoint(m, Turn(m, rand(k)), rand(k + 1) * 0.2, 1.7 + rand(k + 2) * 0.5)
  }

  /** A point drawn at radius draw·r lies strictly inside the disc of radius r. */
  lemma DiscPointInside(m: Math, angle: real, draw: real, r: real, height: real)
    requires Circular(m) && 0.0 <= draw < 1.0 && 0.0 < r
    ensures var p := DiscPoint(m, angle, draw * r, height);
      Square(p.x) + Square(p.z) < Square(r)
  {
    var d := draw * r;
    PolarRadius(m, angle, d);
    ProductMonotone(0.0, draw, r);
    StrictProduct(draw, 1.0, r);
    assert 0.0 <= d < r;
    SquareOrder(d, r);
    assert Square(d) < Square(r) by { assert Square(d) == d * d && Square(r) == r * r; }
  }

  /** Every particle of a new fountain lies within 0.8 of its axis, at a height in [1.0, 2.5). */
  lemma InitialInBasin(m: Math, rand: nat -> real, k: nat)
    requires Circular(m) && UnitDraws(rand)
    ensures var p := InitialParticle(m, rand, k);
      Square(p.x) + Square(p.z) < Square(0.8) && 1.0 <= p.y < 2.5
  {
    DiscPointInside(m, Turn(m, rand(k)), rand(k + 1), 0.8, rand(k + 2) * 1.5 + 1.0);
  }

  /** A restarted particle lies within 0.2 of the axis, at a height in [1.7, 2.2). */
  lemma RespawnInJet(m: Math, rand: nat -> real, k: nat)
    requires Circular(m) && UnitDraws(rand)
    ensures var p := Respawn(m, rand, k);
      Square(p.x) + Square(p.z) < Square(0.2) && 1.7 <= p.y < 2.2
  {
    DiscPointInside(m, Turn(m, rand(k)), rand(k + 1), 0.2, 1.7 + rand(k + 2) * 0.5);
  }

  /** A particle at height y falls below the basin level after dropping 2·delta. */
  predicate Falls(y: real, delta: real) {
    y - 2.0 * delta < BasinLevel
  }

  /** Particle j of a flat position buffer. */
  function Particle(p: seq<real>, j: nat): Vec3
    requires 3 * j + 2 < |p|
  {
    Vec3(p[3 * j], p[3 * j + 1], p[3 * j + 2])
  }

  /** The buffer with particle j replaced by v and every other entry kept. */
  function Put(p: seq<real>, j: nat, v: Vec3): (r: seq<real>)
    requires 3 * j + 2 < |p|
    ensures |r| == |p| && Particle(r, j) == v
  {
    p[3 * j := v.x][3 * j + 1 := v.y][3 * j + 2 := v.z]
  }

  /** How many of the first n particles fall this frame: each of them reads three draws. */
  function FallenCount(p: seq<real>, delta: real, n: nat): (c: nat)
    requires 3 * n <= |p|
    ensures c <= n
  {
    if n == 0 then 0 else FallenCount(p, delta, n - 1) + (if Falls(p[3 * (n - 1) + 1], delta) then 1 else 0)
  }

  /**
   * What one frame does to a particle that was at `was`: a falling particle
   * restarts at `Respawn` from draw k, any other one drops by 2·delta and
   * keeps its x and z.
   */
  function Advance(m: Math, rand: nat -> real, was: Vec3, delta: real, k: nat): Vec3 {
    if Falls(was.y, delta) then Respawn(m, rand, k) else was.(y := was.y - 2.0 * delta)
  }

  /**
   * After a frame every particle is at or above the basin level; one that
   * did not fall kept its x and z, and one that fell is back in the jet.
   */
  lemma AdvanceAboveBasin(m: Math, rand: nat -> real, was: Vec3, delta: real, k: nat)
    requires UnitDraws(rand)
    ensures BasinLevel <= Advance(m, rand, was, delta, k).y
    ensures !Falls(was.y, delta) ==> Advance(m, rand, was, delta, k).x == was.x && Advance(m, rand, was, delta, k).z == was.z
    ensures Falls(was.y, delta) ==> 1.7 <= Advance(m, rand, was, delta, k).y < 2.2
  {
    if Falls(was.y, delta) {
      ProductMonotone(0.0, rand(k + 2), 0.5);
      StrictProduct(rand(k + 2), 1.0, 0.5);
    }
  }

  /**
   * One frame's buffer after the first n particles: particle j replaced by
   * its `Advance`, with the draws of all earlier restarts skipped.
   */
  function Frame(m: Math, rand: nat -> real, before: seq<real>, delta: real, cursor: nat, n: nat): (r: seq<real>)
    requires 3 * n <= |before|
    ensures |r| == |before|
    decreases n
  {
    if n == 0 then before
    else
      Put(Frame(m, rand, before, delta, cursor, n - 1), n - 1,
        Advance(m, rand, Particle(before, n - 1), delta, cursor + 3 * FallenCount(before, delta, n - 1)))
  }

  /** Entries past the first n particles are untouched by the frame so far. */
  lemma {:induction false} FrameRest(m: Math, rand: nat -> real, before: seq<real>, delta: real, cursor: nat, n: nat, idx: nat)
    requires 3 * n <= idx < |before|
    ensures Frame(m, rand, before, delta, cursor, n)[idx] == before[idx]
    decreases n
  {
    if n > 0 {
      FrameRest(m, rand, before, delta, cursor, n - 1, idx);
    }
  }

  /** The frame grows one particle at a time, and particle n is still as it was before it. */
  lemma FrameStep(m: Math, rand: nat -> real, before: seq<real>, delta: real, cursor: nat, n: nat)
    requires 3 * n + 2 < |before|
    ensures Particle(Frame(m, rand, before, delta, cursor, n), n) == Particle(before, n)
    ensures Frame(m, rand, before, delta, cursor, n + 1)
      == Put(Frame(m, rand, before, delta, cursor, n), n,
          Advance(m, rand, Particle(before, n), delta, cursor + 3 * FallenCount(before, delta, n)))
    ensures FallenCount(before, delta, n + 1) == FallenCount(before, delta, n) + (if Falls(before[3 * n + 1], delta) then 1 else 0)
  {
    FrameRest(m, rand, before, delta, cursor, n, 3 * n);
    FrameRest(m, rand, before, delta, cursor, n, 3 * n + 1);
    FrameRest(m, rand, before, delta, cursor, n, 3 * n + 2);
  }

  /** Each of the first n particles has made its move. */
  lemma {:induction false} FrameParticle(m: Math, rand: nat -> real, before: seq<real>, delta: real, cursor: nat, n: nat, j: nat)
    requires j < n && 3 * n <= |before|
    ensures Particle(Frame(m, rand, before, delta, cursor, n), j)
      == Advance(m, rand, Particle(before, j), delta, cursor + 3 * FallenCount(before, delta, j))
    decreases n
  {
    if j < n - 1 {
      FrameParticle(m, rand, before, delta, cursor, n - 1, j);
    }
  }

  /** After a whole frame every particle is at or above the basin level. */
  lemma FrameSettled(m: Math, rand: nat -> real, before: seq<real>, delta: real, cursor: nat, n: nat)
    requires UnitDraws(rand) && 3 * n <= |before|
    ensures forall j :: 0 <= j < n ==> BasinLevel <= Frame(m, rand, before, delta, cursor, n)[3 * j + 1]
  {
    forall j | 0 <= j < n
      ensures BasinLevel <= Frame(m, rand, before, delta, cursor, n)[3 * j + 1]
    {
      FrameParticle(m, rand, before, delta, cursor, n, j);
      AdvanceAboveBasin(m, rand, Particle(before, j), delta, cursor + 3 * FallenCount(before, delta, j));
    }
  }

  /** A zero-filled buffer of n entries, as a new `Float32Array` is. */
  function Zeros(n: nat): (r: seq<real>)
    ensures |r| == n && forall i :: 0 <= i < n ==> r[i] == 0.0
  {
    seq(n, _ => 0.0)
  }

  /** A new fountain's buffer after its first n particles are placed. */
  function Fill(m: Math, rand: nat -> real, blank: seq<real>, cursor: nat, n: nat): (r: seq<real>)
    requires 3 * n <= |blank|
    ensures |r| == |blank|
    // `cursor` is in the measure so that a call with the constant count is not unrolled 300 times.
    decreases n, cursor
  {
    if n == 0 then blank else Put(Fill(m, rand, blank, cursor, n - 1), n - 1, InitialParticle(m, rand, cursor + 3 * (n - 1)))
  }

  /** A whole filled buffer: every particle at its initial place. */
  lemma FillAll(m: Math, rand: nat -> real, blank: seq<real>, cursor: nat, n: nat)
    requires 3 * n <= |blank|
    ensures forall j :: 0 <= j < n ==> Particle(Fill(m, rand, blank, cursor, n), j) == InitialParticle(m, rand, cursor + 3 * j)
  {
    forall j | 0 <= j < n
      ensures Particle(Fill(m, rand, blank, cursor, n), j) == InitialParticle(m, rand, cursor + 3 * j)
    {
      FillParticle(m, rand, blank, cursor, n, j);
    }
  }

  /** Each of the first n particles is at its initial place. */
  lemma {:induction false} FillParticle(m: Math, rand: nat -> real, blank: seq<real>, cursor: nat, n: nat, j: nat)
    requires j < n && 3 * n <= |blank|
    ensures Particle(Fill(m, rand, blank, cursor, n), j) == InitialParticle(m, rand, cursor + 3 * j)
    decreases n
  {
    if j < n - 1 {
      FillParticle(m, rand, blank, cursor, n - 1, j);
    }
  }

  class Fountain {
    const groupPosition: Vec3
    const particleCount: nat
    const positions: array<real>
    var active: bool
    /** `particles.visible`. */
    var visible: bool

    /** Three coordinates per particle. */
    ghost predicate Valid()
      reads this
    {
      positions.Length == 3 * particleCount
    }

    /** Every particle is at or above the basin level. */
    ghost predicate Settled()
      reads this, positions
    {
      forall j :: 0 <= j < particleCount && 3 * j + 1 < positions.Length ==> BasinLevel <= positions[3 * j + 1]
    }

    /**
     * `createFountain(x, z)`: a group at (x, 0, z), active and visible, whose
     * particle i takes its three draws from `cursor + 3i`.
     */
    constructor (m: Math, x: real, z: real, rand: nat -> real, cursor: nat)
      ensures Valid() && fresh(positions) && particleCount == ParticleCount
      ensures groupPosition == Vec3(x, 0.0, z) && active && visible
      ensures positions[..] == Fill(m, rand, Zeros(3 * particleCount), cursor, particleCount)
    {
      var buffer := Spray(m, rand, cursor, ParticleCount);
      groupPosition := Vec3(x, 0.0, z);
      particleCount := ParticleCount;
      positions := buffer;
      active := true;
      visible := true;
    }

    /**
     * The particle buffer of a new fountain: zero-filled, then particle i
     * placed from draws `cursor + 3i` on.
     */
    static method Spray(m: Math, rand: nat -> real, cursor: nat, count: nat) returns (buffer: array<real>)
      ensures fresh(buffer) && buffer.Length == 3 * count
      ensures buffer[..] == Fill(m, rand, Zeros(3 * count), cursor, count)
    {
      buffer := new real[3 * count](_ => 0.0);
      assert buffer[..] == Zeros(3 * count);
      var i := 0;
      while i < count
        invariant 0 <= i <= count
        invariant buffer[..] == Fill(m, rand, Zeros(3 * count), cursor, i)
      {
        SprayStep(m, rand, cursor, count, buffer, i);
        i := i + 1;
      }
    }

    /** Particle i of a new fountain: the filled prefix grows by one particle. */
    static method SprayStep(m: Math, rand: nat -> real, cursor: nat, count: nat, buffer: array<real>, i: nat)
      requires i < count && buffer.Length == 3 * count
      requires buffer[..] == Fill(m, rand, Zeros(3 * count), cursor, i)
      modifies buffer
      ensures buffer[..] == Fill(m, rand, Zeros(3 * count), cursor, i + 1)
    {
      var v := InitialParticle(m, rand, cursor + 3 * i);
      assert Fill(m, rand, Zeros(3 * count), cursor, i + 1) == Put(Fill(m, rand, Zeros(3 * count), cursor, i), i, v);
      Place(buffer, i, v);
    }

    /** `interact()`: switch on or off, show the particles exactly while on, and say which. */
    method Interact() returns (message: string)
      modifies this
      ensures active == !old(active) && visible == active
      ensures message == if active then "Fountain activated" else "Fountain deactivated"
    {
      active := !active;
      visible := active;
      message := "Fountain " + (if active then "activated" else "deactivated");
    }

    /**
     * `update(delta)`: nothing while off. Otherwise, particle by particle,
     * drop by 2·delta and restart a particle that fell below 0.8, reading
     * three draws per restart from `cursor` on.
     */
    method Update(m: Math, delta: real, rand: nat -> real, cursor: nat) returns (next: nat)
      requires Valid()
      modifies positions
      ensures !active ==> positions[..] == old(positions[..]) && next == cursor
      ensures active ==> next == cursor + 3 * FallenCount(old(positions[..]), delta, particleCount)
      ensures active ==> positions[..] == Frame(m, rand, old(positions[..]), delta, cursor, particleCount)
      ensures active && UnitDraws(rand) ==> Settled()
    {
      next := cursor;
      if !active {
        return;
      }
      ghost var before := positions[..];
      next := Fall(m, delta, rand, cursor);
      if UnitDraws(rand) {
        FrameSettled(m, rand, before, delta, cursor, particleCount);
        assert forall j :: 0 <= j < particleCount ==> positions[3 * j + 1] == positions[..][3 * j + 1];
      }
    }

    /** The loop of an active `update`. */
    method Fall(m: Math, delta: real, rand: nat -> real, cursor: nat) returns (next: nat)
      requires Valid()
      modifies positions
      ensures next == cursor + 3 * FallenCount(old(positions[..]), delta, particleCount)
      ensures positions[..] == Frame(m, rand, old(positions[..]), delta, cursor, particleCount)
    {
      next := cursor;
      ghost var before := positions[..];
      var i := 0;
      while i < particleCount
        invariant 0 <= i <= particleCount
        invariant next == cursor + 3 * FallenCount(before, delta, i)
        invariant positions[..] == Frame(m, rand, before, delta, cursor, i)
      {
        next := FallStep(m, delta, rand, before, cursor, next, i);
        i := i + 1;
      }
    }

    /** Particle i of the loop: the frame so far grows by one particle. */
    method FallStep(m: Math, delta: real, rand: nat -> real, ghost before: seq<real>, ghost cursor: nat, k: nat, i: nat)
      returns (next: nat)
      requires Valid() && i < particleCount && |before| == positions.Length
      requires positions[..] == Frame(m, rand, before, delta, cursor, i)
      requires k == cursor + 3 * FallenCount(before, delta, i)
      modifies positions
      ensures positions[..] == Frame(m, rand, before, delta, cursor, i + 1)
      ensures next == cursor + 3 * FallenCount(before, delta, i + 1)
    {
      FrameStep(m, rand, before, delta, cursor, i);
      ghost var moved := Advance(m, rand, Particle(before, i), delta, k);
      next := Drop(m, delta, rand, k, i);
      assert positions[..] == Put(Frame(m, rand, before, delta, cursor, i), i, moved);
    }

    /** One particle of the loop: drop it, and restart it from draw k when it fell below the basin level. */
    method Drop(m: Math, delta: real, rand: nat -> real, k: nat, i: nat) returns (next: nat)
      requires Valid() && i < particleCount
      modifies positions
      ensures positions[..] == Put(old(positions[..]), i, Advance(m, rand, Particle(old(positions[..]), i), delta, k))
      ensures next == k + (if Falls(old(positions[3 * i + 1]), delta) then 3 else 0)
    {
      next := k;
      var y := positions[3 * i + 1] - 2.0 * delta;
      if y < BasinLevel {
        Place(positions, i, Respawn(m, rand, k));
        next := k + 3;
      } else {
        Place(positions, i, Vec3(positions[3 * i], y, positions[3 * i + 2]));
      }
    }
  }

  /** Write particle i's three coordinates into a position buffer. */
  method Place(buffer: array<real>, i: nat, v: Vec3)
    requires 3 * i + 2 < buffer.Length
    modifies buffer
    ensures buffer[..] == Put(old(buffer[..]), i, v)
  {
    buffer[3 * i] := v.x;
    buffer[3 * i + 1] := v.y;
    buffer[3 * i + 2] := v.z;
  }

  /** The component's list of interactive objects. */
  class Objects {
    const fountains: seq<Fountain>

    /** The effect: a fountain at (8, 8) and one at (−6, −6), the second drawing after the first. */
    constructor (m: Math, rand: nat -> real, cursor: nat)
      ensures |fountains| == 2 && Valid()
      ensures fountains[0].groupPosition == Vec3(8.0, 0.0, 8.0) && fountains[1].groupPosition == Vec3(-6.0, 0.0, -6.0)
      ensures forall i :: 0 <= i < 2 ==>
        && fountains[i].active && fountains[i].visible && fountains[i].particleCount == ParticleCount
        && fountains[i].positions[..] == Fill(m, rand, Zeros(3 * ParticleCount), cursor + 3 * ParticleCount * i, ParticleCount)
    {
      var first := new Fountain(m, 8.0, 8.0, rand, cursor);
      var second := new Fountain(m, -6.0, -6.0, rand, cursor + 3 * ParticleCount);
      fountains := [first, second];
    }

    /** Every fountain is well formed and owns its own buffer. */
    ghost predicate Valid()
      reads this, fountains
    {
      && (forall i :: 0 <= i < |fountains| ==> fountains[i].Valid())
      && (forall i, j :: 0 <= i < j < |fountains| ==> fountains[i].positions != fountains[j].positions)
    }

    ghost function Buffers(): set<array<real>>
      reads this, fountains
    {
      set i | 0 <= i < |fountains| :: fountains[i].positions
    }

    /** The particle buffers' contents, fountain by fountain. */
    ghost function Contents(): (r: seq<seq<real>>)
      reads this, fountains, Buffers()
      ensures |r| == |fountains| && forall i :: 0 <= i < |fountains| ==> r[i] == fountains[i].positions[..]
    {
      seq(|fountains|, i requires 0 <= i < |fountains| reads this, fountains, Buffers() => fountains[i].positions[..])
    }

    /**
     * Where the draws stand after the first n fountains, from the buffers
     * `before`, starting at `cursor`: three per fallen particle of an
     * active fountain.
     */
    function DropCursor(before: seq<seq<real>>, delta: real, cursor: nat, n: nat): (r: nat)
      requires n <= |before| && n <= |fountains|
      requires forall l :: 0 <= l < n ==> 3 * fountains[l].particleCount <= |before[l]|
      reads this, fountains
      ensures cursor <= r
      decreases n
    {
      if n == 0 then cursor
      else
        DropCursor(before, delta, cursor, n - 1)
        + (if fountains[n - 1].active then 3 * FallenCount(before[n - 1], delta, fountains[n - 1].particleCount) else 0)
    }

    /** `before` holds one buffer of the right size per fountain. */
    ghost predicate Fits(before: seq<seq<real>>)
      reads this, fountains
    {
      |before| == |fountains| && forall l :: 0 <= l < |fountains| ==> 3 * fountains[l].particleCount <= |before[l]|
    }

    /**
     * Fountain l after its update from the buffer `before[l]`: an active one
     * holds its frame, reading draws where the fountains before it stopped,
     * and is settled when the draws are in [0, 1); an inactive one kept it.
     */
    ghost predicate Dropped(m: Math, rand: nat -> real, before: seq<seq<real>>, delta: real, cursor: nat, l: nat)
      requires l < |fountains| && Fits(before)
      reads this, fountains, fountains[l].positions
    {
      var f := fountains[l];
      if f.active then
        && f.positions[..] == Frame(m, rand, before[l], delta, DropCursor(before, delta, cursor, l), f.particleCount)
        && (UnitDraws(rand) ==> f.Settled())
      else
        f.positions[..] == before[l]
    }

    /**
     * `update(delta)`: every fountain in list order. A switched-off one keeps
     * its buffer; an active one holds its frame, reading draws where the
     * fountains before it stopped, and ends settled.
     */
    method Update(m: Math, delta: real, rand: nat -> real, cursor: nat) returns (next: nat)
      requires Valid()
      modifies Buffers()
      ensures next == DropCursor(old(Contents()), delta, cursor, |fountains|)
      ensures forall i :: 0 <= i < |fountains| && !fountains[i].active ==>
        fountains[i].positions[..] == old(fountains[i].positions[..])
      ensures forall i :: 0 <= i < |fountains| && fountains[i].active ==>
        fountains[i].positions[..] == Frame(m, rand, old(fountains[i].positions[..]), delta,
                                            DropCursor(old(Contents()), delta, cursor, i), fountains[i].particleCount)
      ensures UnitDraws(rand) ==> forall i :: 0 <= i < |fountains| && fountains[i].active ==> fountains[i].Settled()
    {
      ghost var before := Contents();
      next := cursor;
      var i := 0;
      while i < |fountains|
        invariant 0 <= i <= |fountains| && Fits(before)
        invariant next == DropCursor(before, delta, cursor, i)
        invariant forall l {:trigger Dropped(m, rand, before, delta, cursor, l)} :: 0 <= l < i ==>
          Dropped(m, rand, before, delta, cursor, l)
        invariant forall l :: i <= l < |fountains| ==> fountains[l].positions[..] == before[l]
        modifies Buffers()
      {
        next := UpdateOne(m, i, before, delta, rand, cursor, next);
        i := i + 1;
      }
      forall l | 0 <= l < |fountains|
        ensures !fountains[l].active ==> fountains[l].positions[..] == before[l]
        ensures fountains[l].active ==>
          fountains[l].positions[..] == Frame(m, rand, before[l], delta, DropCursor(before, delta, cursor, l), fountains[l].particleCount)
        ensures UnitDraws(rand) && fountains[l].active ==> fountains[l].Settled()
      {
        assert Dropped(m, rand, before, delta, cursor, l);
      }
    }

    /** Fountain i's turn in `update`: its own update, reading draws where the fountains before it stopped. */
    method UpdateOne(m: Math, i: nat, ghost before: seq<seq<real>>, delta: real, rand: nat -> real, cursor: nat, at: nat)
      returns (next: nat)
      requires Valid() && i < |fountains| && Fits(before) && fountains[i].positions[..] == before[i]
      requires at == DropCursor(before, delta, cursor, i)
      modifies fountains[i].positions
      ensures next == DropCursor(before, delta, cursor, i + 1)
      ensures Dropped(m, rand, before, delta, cursor, i)
    {
      next := fountains[i].Update(m, delta, rand, at);
    }

    /** The distance from the player to fountain i's group. */
    function Reach(m: Math, position: Vec3, i: nat): real
      requires i < |fountains|
    {
      DistanceTo(m, position, fountains[i].groupPosition)
    }

    /**
     * `findNearestObject(position, maxDistance)`: the fountain nearest to
     * the player among those strictly closer than `maxDistance`, the first
     * in list order on a tie, or none.
     */
    method FindNearest(m: Math, position: Vec3, maxDistance: real) returns (nearest: Option<nat>)
      ensures nearest.Some? ==>
        && nearest.value < |fountains|
        && Reach(m, position, nearest.value) < maxDistance
        && (forall j :: 0 <= j < |fountains| ==> Reach(m, position, nearest.value) <= Reach(m, position, j))
        && (forall j :: 0 <= j < nearest.value ==> Reach(m, position, nearest.value) < Reach(m, position, j))
      ensures nearest.None? ==> forall j :: 0 <= j < |fountains| ==> maxDistance <= Reach(m, position, j)
    {
      nearest := None;
      var nearestDistance := maxDistance;
      var i := 0;
      while i < |fountains|
        invariant 0 <= i <= |fountains|
        invariant nearest.None? ==> nearestDistance == maxDistance
        invariant nearest.Some? ==> nearest.value < i && nearestDistance == Reach(m, position, nearest.value) < maxDistance
        invariant forall j :: 0 <= j < i ==> nearestDistance <= Reach(m, position, j)
        invariant nearest.Some? ==> forall j :: 0 <= j < nearest.value ==> nearestDistance < Reach(m, position, j)
      {
        var distance := Reach(m, position, i);
        if distance < nearestDistance {
          nearest := Some(i);
          nearestDistance := distance;
        }
        i := i + 1;
      }
    }
  }
}
