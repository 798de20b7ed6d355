/**
 * Player: first-person movement. Key events set and clear five flags,
 * Space starts a jump when one is allowed, and `update(delta)` applies
 * gravity, walks along the camera's flattened forward and right
 * directions, and keeps the camera at least at standing height.
 *
 * The camera's orientation is not modelled: `update` receives the camera's
 * forward and right vectors (the library's `applyQuaternion` of (0, 0, −1)
 * and (1, 0, 0)) as parameters.
 */
module Player {
  import opened JsMath
  import opened Three

  /** Standing eye height, and the floor the camera never goes below. */
  const PlayerHeight: real := 1.8

  /** Vertical speed a jump starts with, and the gravity that slows it. */
  const JumpSpeed: real := 6.0
  const Gravity: real := 9.8

  /** Walking speed per second. */
  const WalkSpeed: real := 5.0

  datatype Flag = Forward | Left | Backward | Right | Jump

  datatype Keys = Keys(forward: bool, backward: bool, left: bool, right: bool, jump: bool)

  const NoKeys: Keys := Keys(false, false, false, false, false)

  /** The flag a key code drives: arrows and WASD move, Space jumps, all else is ignored. */
  function KeyFlag(code: string): (f: Option<Flag>)
    ensures f == Some(Forward) <==> code == "ArrowUp" || code == "KeyW"
    ensures f == Some(Left) <==> code == "ArrowLeft" || code == "KeyA"
    ensures f == Some(Backward) <==> code == "ArrowDown" || code == "KeyS"
    ensures f == Some(Right) <==> code == "ArrowRight" || code == "KeyD"
    ensures f == Some(Jump) <==> code == "Space"
  {
    match code
    case "ArrowUp" => Some(Forward)
    case "KeyW" => Some(Forward)
    case "ArrowLeft" => Some(Left)
    case "KeyA" => Some(Left)
    case "ArrowDown" => Some(Backward)
    case "KeyS" => Some(Backward)
    case "ArrowRight" => Some(Right)
    case "KeyD" => Some(Right)
    case "Space" => Some(Jump)
    case _ => None
  }

  function Get(k: Keys, f: Flag): bool {
    match f
    case Forward => k.forward
    case Backward => k.backward
    case Left => k.left
    case Right => k.right
    case Jump => k.jump
  }

  /** Set one flag to `value`, leaving the other four as they were. */
  function Set(k: Keys, f: Flag, value: bool): (r: Keys)
    ensures Get(r, f) == value
    ensures forall g :: g != f ==> Get(r, g) == Get(k, g)
  {
    match f
    case Forward => k.(forward := value)
    case Backward => k.(backward := value)
    case Left => k.(left := value)
    case Right => k.(right := value)
    case Jump => k.(jump := value)
  }

  /** The flags after a key goes down (`value` true) or up (`value` false). */
  function KeyEvent(k: Keys, code: string, value: bool): Keys {
    match KeyFlag(code)
    case None => k
    case Some(f) => Set(k, f, value)
  }

  /**
   * Pressing and then releasing a key leaves the flags as they were before
   * the press whenever its flag was clear; an unmapped key changes nothing.
   */
  lemma PressThenRelease(k: Keys, code: string)
    requires KeyFlag(code).Some? ==> !Get(k, KeyFlag(code).value)
    ensures KeyEvent(KeyEvent(k, code, true), code, false) == k
  {
    if KeyFlag(code).Some? {
      var f := KeyFlag(code).value;
      var r := KeyEvent(KeyEvent(k, code, true), code, false);
      assert forall g :: Get(r, g) == Get(k, g);
      assert Get(r, Forward) == Get(k, Forward) && Get(r, Backward) == Get(k, Backward);
      assert Get(r, Left) == Get(k, Left) && Get(r, Right) == Get(k, Right) && Get(r, Jump) == Get(k, Jump);
    }
  }

  /** A camera vector with its vertical part dropped, normalised. */
  function Flat(m: Math, v: Vec3): (r: Vec3)
    ensures r.y == 0.0
  {
    Normalize(m, v.(y := 0.0))
  }

  /** Add `v` scaled by `s` to `d` when `on` holds. */
  function Contribute(d: Vec3, on: bool, v: Vec3, s: real): Vec3 {
    if on then Add(d, Scale(v, s)) else d
  }

  const Zero: Vec3 := Vec3(0.0, 0.0, 0.0)

  /**
   * The un-normalised walking direction: the flat forward vector for W,
   * its opposite for S, the flat right vector for D and its opposite for A,
   * added in that order from zero.
   */
  function Direction(m: Math, k: Keys, look: Vec3, side: Vec3): (d: Vec3)
    ensures d.y == 0.0
  {
    var f := Flat(m, look);
    var r := Flat(m, side);
    Contribute(Contribute(Contribute(Contribute(Zero, k.forward, f, 1.0), k.backward, f, -1.0), k.right, r, 1.0), k.left, r, -1.0)
  }

  /** Forward with backward, or left with right, and nothing else: the two cancel exactly. */
  lemma OppositeKeysCancel(m: Math, k: Keys, look: Vec3, side: Vec3)
    requires (k.forward && k.backward && !k.left && !k.right) || (!k.forward && !k.backward && k.left && k.right)
    ensures Direction(m, k, look, side) == Zero
  {
  }

  /**
   * The horizontal part of a frame: with a direction of non-zero length,
   * move 5·delta along its normalisation; otherwise stay.
   */
  function Walk(m: Math, position: Vec3, dir: Vec3, delta: real): (p: Vec3)
    ensures dir.y == 0.0 ==> p.y == position.y
    ensures m.sqrt(LengthSquared(dir)) <= 0.0 ==> p == position
  {
    if m.sqrt(LengthSquared(dir)) > 0.0 then
      Add(position, Scale(Normalize(m, dir), WalkSpeed * delta))
    else
      position
  }

  /** A zero direction moves nothing, under a square root that maps 0 to 0. */
  lemma ZeroDirectionStays(m: Math, position: Vec3, delta: real)
    requires Lawful(m)
    ensures Walk(m, position, Zero, delta) == position
  {
    SqrtOfSquare(m, 0.0);
    assert LengthSquared(Zero) == 0.0 * 0.0;
    assert m.sqrt(LengthSquared(Zero)) == 0.0;
  }

  /** Some movement key is held: the guard of the whole horizontal step. */
  predicate Moving(k: Keys) {
    k.forward || k.backward || k.left || k.right
  }

  /** The horizontal step of a frame: walk only while a movement key is held. */
  function Step(m: Math, position: Vec3, k: Keys, look: Vec3, side: Vec3, delta: real): (p: Vec3)
    ensures p.y == position.y
    ensures !Moving(k) ==> p == position
  {
    if Moving(k) then Walk(m, position, Direction(m, k, look, side), delta) else position
  }

  /** Opposite keys alone leave the player where it stands. */
  lemma OppositeKeysStay(m: Math, position: Vec3, k: Keys, look: Vec3, side: Vec3, delta: real)
    requires Lawful(m)
    requires (k.forward && k.backward && !k.left && !k.right) || (!k.forward && !k.backward && k.left && k.right)
    ensures Step(m, position, k, look, side, delta) == position
  {
    OppositeKeysCancel(m, k, look, side);
    ZeroDirectionStays(m, position, delta);
  }

  /** The vertical part of a frame from height y and vertical speed vy (after gravity). */
  function Rise(y: real, vy: real, delta: real): real {
    y + vy * delta
  }

  class Player {
    var keys: Keys
    var canJump: bool
    var velocityY: real
    var position: Vec3
    /** Whether `controlsRef.current` is set, and whether the controls are enabled. */
    var hasControls: bool
    var enabled: bool

    /**
     * Mounting: all flags clear, a jump allowed, at rest. The controls exist
     * only when every prop is present, and only then is the camera raised to
     * standing height; with a prop missing the effect returns first and the
     * camera stays where it is.
     */
    constructor (camera: Vec3, hasControls: bool, enabled: bool)
      ensures keys == NoKeys && canJump && velocityY == 0.0
      ensures hasControls ==> position == camera.(y := PlayerHeight)
      ensures !hasControls ==> position == camera
      ensures this.hasControls == hasControls && this.enabled == enabled
    {
      keys := NoKeys;
      canJump := true;
      velocityY := 0.0;
      position := if hasControls then camera.(y := PlayerHeight) else camera;
      this.hasControls := hasControls;
      this.enabled := enabled;
    }

    /** Standing or above: what every update re-establishes. */
    predicate Grounded()
      reads this
    {
      position.y >= PlayerHeight
    }

    /** `keydown`: set the key's flag; Space also starts a jump, only when one is allowed. */
    method OnKeyDown(code: string)
      modifies this
      ensures keys == KeyEvent(old(keys), code, true)
      ensures code == "Space" && old(canJump) ==> velocityY == JumpSpeed && !canJump
      ensures !(code == "Space" && old(canJump)) ==> velocityY == old(velocityY) && canJump == old(canJump)
      ensures position == old(position) && hasControls == old(hasControls) && enabled == old(enabled)
    {
      keys := KeyEvent(keys, code, true);
      if code == "Space" && canJump {
        velocityY := JumpSpeed;
        canJump := false;
      }
    }

    /** `keyup`: clear the key's flag and nothing else. */
    method OnKeyUp(code: string)
      modifies this
      ensures keys == KeyEvent(old(keys), code, false)
      ensures velocityY == old(velocityY) && canJump == old(canJump)
      ensures position == old(position) && hasControls == old(hasControls) && enabled == old(enabled)
    {
      keys := KeyEvent(keys, code, false);
    }

    /** `pointerlockchange`: the controls are enabled exactly while the pointer is locked to the canvas. */
    method OnLockChange(locked: bool)
      modifies this
      ensures enabled == locked
      ensures keys == old(keys) && canJump == old(canJump) && velocityY == old(velocityY)
      ensures position == old(position) && hasControls == old(hasControls)
    {
      enabled := locked;
    }

    /**
     * `update(delta)`: nothing without enabled controls. Otherwise gravity
     * first (vy − 9.8·delta), then the walk, then the rise by vy·delta; a
     * camera that ends below standing height lands there with vy 0 and a
     * jump allowed.
     */
    method Update(m: Math, delta: real, look: Vec3, side: Vec3)
      modifies this
      ensures keys == old(keys) && hasControls == old(hasControls) && enabled == old(enabled)
      ensures !(old(hasControls) && old(enabled)) ==>
        position == old(position) && velocityY == old(velocityY) && canJump == old(canJump)
      ensures old(hasControls) && old(enabled) ==>
        var walked := Step(m, old(position), old(keys), look, side, delta);
        var vy := old(velocityY) - Gravity * delta;
        var y := Rise(old(position.y), vy, delta);
        && position.x == walked.x && position.z == walked.z
        && (y < PlayerHeight ==> position.y == PlayerHeight && velocityY == 0.0 && canJump)
        && (y >= PlayerHeight ==> position.y == y && velocityY == vy && canJump == old(canJump))
      ensures old(hasControls) && old(enabled) ==> Grounded()
    {
      if !hasControls || !enabled {
        return;
      }
      velocityY := velocityY - Gravity * delta;
      if Moving(keys) {
        position := Walk(m, position, Direction(m, keys, look, side), delta);
      }
      position := position.(y := Rise(position.y, velocityY, delta));
      if position.y < PlayerHeight {
        velocityY := 0.0;
        position := position.(y := PlayerHeight);
        canJump := true;
      }
    }
  }
}
