/**
 * The player controller: a map from key codes to "held", a `canJump` latch
 * and the linear velocity of the player's rigid body. Key events update the
 * map and may jump; two per-frame callbacks re-arm the latch near the ground
 * and steer the body from W/A/S/D and ShiftLeft.
 *
 * Vectors are triples of reals. Normalisation and the camera rotation are
 * floating-point operations outside this model: the frame takes them as
 * functions and only fixes where they are applied.
 */
module PlayerControl {

  datatype Vec3 = Vec3(x: real, y: real, z: real)

  const Zero := Vec3(0.0, 0.0, 0.0)

  /** The y velocity a jump gives the body. */
  const JumpVelocity := 8.0
  /** Below this height the player counts as standing on the ground. */
  const GroundLevel := 1.1
  const WalkSpeed := 3.0
  const RunSpeed := 6.0

  /** `keys.current[code]` is truthy: the key is down. Codes never pressed are absent. */
  predicate Held(keys: map<string, bool>, code: string) {
    code in keys && keys[code]
  }

  /** 1 for a held key, 0 otherwise. */
  function Press(keys: map<string, bool>, code: string): real {
    if Held(keys, code) then 1.0 else 0.0
  }

  /** The squared length of `v`; `v.length() > 0` holds exactly when this is positive. */
  function LengthSq(v: Vec3): real {
    v.x * v.x + v.y * v.y + v.z * v.z
  }

  function Scale(v: Vec3, k: real): Vec3 {
    Vec3(v.x * k, v.y * k, v.z * k)
  }

  /** The direction the movement keys ask for, before normalisation and rotation. */
  function Steer(keys: map<string, bool>): (d: Vec3)
    ensures d.y == 0.0
    ensures d.x in {-1.0, 0.0, 1.0} && d.z in {-1.0, 0.0, 1.0}
  {
    Vec3(Press(keys, "KeyD") - Press(keys, "KeyA"), 0.0, Press(keys, "KeyS") - Press(keys, "KeyW"))
  }

  /** The steering direction after `normalize`, which is skipped for the zero vector. */
  function Heading(keys: map<string, bool>, normalize: Vec3 -> Vec3): Vec3 {
    var d := Steer(keys);
    if LengthSq(d) > 0.0 then normalize(d) else d
  }

  /** Running with ShiftLeft doubles the walking speed. */
  function Speed(keys: map<string, bool>): (s: real)
    ensures s == RunSpeed <==> Held(keys, "ShiftLeft")
    ensures s == WalkSpeed <==> !Held(keys, "ShiftLeft")
  {
    if Held(keys, "ShiftLeft") then RunSpeed else WalkSpeed
  }

  /** The velocity one movement frame writes: x and z from the rotated, scaled heading, y kept. */
  function FrameVelocity(keys: map<string, bool>, current: Vec3, normalize: Vec3 -> Vec3, rotate: Vec3 -> Vec3): (v: Vec3)
    ensures v.y == current.y
  {
    var v := Scale(rotate(Heading(keys, normalize)), Speed(keys));
    Vec3(v.x, current.y, v.z)
  }

  /** A steering direction has positive length exactly when it is not the zero vector. */
  lemma SteerLength(keys: map<string, bool>)
    ensures LengthSq(Steer(keys)) > 0.0 <==> Steer(keys) != Zero
  {
    var d := Steer(keys);
    assert d.x * d.x == (if d.x == 0.0 then 0.0 else 1.0);
    assert d.z * d.z == (if d.z == 0.0 then 0.0 else 1.0);
  }

  /** Each axis has one key per direction: a component is -1 or 1 when exactly one of its keys is held, and 0 when both or neither are. */
  lemma SteerAxes(keys: map<string, bool>)
    ensures Steer(keys).z == -1.0 <==> Held(keys, "KeyW") && !Held(keys, "KeyS")
    ensures Steer(keys).z == 1.0 <==> Held(keys, "KeyS") && !Held(keys, "KeyW")
    ensures Steer(keys).x == -1.0 <==> Held(keys, "KeyA") && !Held(keys, "KeyD")
    ensures Steer(keys).x == 1.0 <==> Held(keys, "KeyD") && !Held(keys, "KeyA")
  {
  }

  /** The direction is zero exactly when every pair of opposing keys agrees. */
  lemma SteerZeroIff(keys: map<string, bool>)
    ensures Steer(keys) == Zero
      <==> (Held(keys, "KeyW") <==> Held(keys, "KeyS")) && (Held(keys, "KeyA") <==> Held(keys, "KeyD"))
  {
  }

  /** With no effective movement key, the heading stays zero whatever `normalize` does. */
  lemma StandingStill(keys: map<string, bool>, normalize: Vec3 -> Vec3)
    requires (Held(keys, "KeyW") <==> Held(keys, "KeyS")) && (Held(keys, "KeyA") <==> Held(keys, "KeyD"))
    ensures Heading(keys, normalize) == Zero
  {
    SteerZeroIff(keys);
    SteerLength(keys);
  }

  /** With some effective movement key, the heading is the normalised direction. */
  lemma MovingNormalised(keys: map<string, bool>, normalize: Vec3 -> Vec3)
    requires !(Held(keys, "KeyW") <==> Held(keys, "KeyS")) || !(Held(keys, "KeyA") <==> Held(keys, "KeyD"))
    ensures Heading(keys, normalize) == normalize(Steer(keys))
  {
    SteerZeroIff(keys);
    SteerLength(keys);
  }

  /** Standing still stops horizontal motion whatever the rotation, as long as it keeps zero at zero, and keeps the vertical velocity. */
  lemma FrameKeepsVertical(keys: map<string, bool>, current: Vec3, normalize: Vec3 -> Vec3, rotate: Vec3 -> Vec3)
    requires rotate(Zero) == Zero
    requires (Held(keys, "KeyW") <==> Held(keys, "KeyS")) && (Held(keys, "KeyA") <==> Held(keys, "KeyD"))
    ensures FrameVelocity(keys, current, normalize, rotate) == Vec3(0.0, current.y, 0.0)
  {
    StandingStill(keys, normalize);
  }

  /** The state of one `Player` component. */
  class Player {
    /** `keys.current`: the last event seen for each key code. */
    var keys: map<string, bool>
    var canJump: bool
    /** `playerRef.current` is set: the rigid body is mounted. */
    var attached: bool
    /** The rigid body's linear velocity, as `linvel()` reads it and `setLinvel` writes it. */
    var linvel: Vec3

    constructor (mounted: bool, velocity: Vec3)
      ensures keys == map[] && canJump
      ensures attached == mounted && linvel == velocity
    {
      keys := map[];
      canJump := true;
      attached := mounted;
      linvel := velocity;
    }

    /** The rigid body mounts: `playerRef.current` becomes set, with the body's initial velocity. */
    method Mount(velocity: Vec3)
      modifies this
      ensures attached && linvel == velocity
      ensures keys == old(keys) && canJump == old(canJump)
    {
      attached := true;
      linvel := velocity;
    }

    /** The `keydown` listener: mark the key held; Space while the latch is armed jumps once. */
    method KeyDown(code: string)
      modifies this
      ensures keys == old(keys)[code := true]
      ensures attached == old(attached)
      ensures code == "Space" && old(canJump) ==>
        !canJump && linvel == (if attached then old(linvel).(y := JumpVelocity) else old(linvel))
      ensures !(code == "Space" && old(canJump)) ==> canJump == old(canJump) && linvel == old(linvel)
    {
      keys := keys[code := true];
      if code == "Space" && canJump {
        canJump := false;
        if attached {
          linvel := Vec3(linvel.x, JumpVelocity, linvel.z);
        }
      }
    }

    /** The `keyup` listener: mark the key released. */
    method KeyUp(code: string)
      modifies this
      ensures keys == old(keys)[code := false]
      ensures canJump == old(canJump) && attached == old(attached) && linvel == old(linvel)
    {
      keys := keys[code := false];
    }

    /** The ground check run every frame, given the body's current height. */
    method GroundFrame(height: real)
      modifies this
      ensures canJump == (old(canJump) || (attached && height < GroundLevel))
      ensures keys == old(keys) && attached == old(attached) && linvel == old(linvel)
    {
      if !attached {
        return;
      }
      if height < GroundLevel {
        canJump := true;
      }
    }

    /** The movement callback run every frame. */
    method MoveFrame(normalize: Vec3 -> Vec3, rotate: Vec3 -> Vec3)
      modifies this
      ensures linvel == (if attached then FrameVelocity(keys, old(linvel), normalize, rotate) else old(linvel))
      ensures keys == old(keys) && canJump == old(canJump) && attached == old(attached)
    {
      if !attached {
        return;
      }
      var direction := Zero;
      if Held(keys, "KeyW") {
        direction := direction.(z := direction.z - 1.0);
      }
      if Held(keys, "KeyS") {
        direction := direction.(z := direction.z + 1.0);
      }
      if Held(keys, "KeyA") {
        direction := direction.(x := direction.x - 1.0);
      }
      if Held(keys, "KeyD") {
        direction := direction.(x := direction.x + 1.0);
      }
      assert direction == Steer(keys);
      if LengthSq(direction) > 0.0 {
        direction := normalize(direction);
      }
      var speed := if Held(keys, "ShiftLeft") then RunSpeed else WalkSpeed;
      direction := rotate(direction);
      var velocity := Scale(direction, speed);
      linvel := Vec3(velocity.x, linvel.y, velocity.z);
    }
  }

  /**
   * A second Space press while airborne does not jump. After the first jump the physics step
   * changes the velocity to `v` and a frame in the air leaves the latch
   * disarmed; a second Space then leaves `v` as it is, whatever its y.
   */
  method NoDoubleJump(p: Player, v: Vec3, height: real)
    requires p.canJump && p.attached && height >= GroundLevel
    modifies p
    ensures !p.canJump && p.linvel == v
    ensures p.keys == old(p.keys)["Space" := true]
  {
    p.KeyDown("Space");
    p.linvel := v;
    p.GroundFrame(height);
    p.KeyDown("Space");
  }

  /**
   * Space before the body mounts gives no impulse but still uses up the latch:
   * once the body is mounted, Space does not jump until a frame on the ground
   * re-arms it.
   */
  method JumpBeforeMount(p: Player, velocity: Vec3)
    requires p.canJump && !p.attached
    modifies p
    ensures p.attached && !p.canJump && p.linvel == velocity
    ensures p.keys == old(p.keys)["Space" := true]
  {
    p.KeyDown("Space");
    p.Mount(velocity);
    p.KeyDown("Space");
  }

  /**
   * The key handler does not look at auto-repeat: while Space is held, a
   * repeated key-down after any frame below the ground level jumps again.
   */
  method HeldSpaceJumpsAgain(p: Player, v: Vec3, airborne: real, grounded: real)
    requires p.canJump && p.attached && airborne >= GroundLevel && grounded < GroundLevel
    modifies p
    ensures !p.canJump && p.linvel == v.(y := JumpVelocity)
    ensures p.keys == old(p.keys)["Space" := true]
  {
    p.KeyDown("Space");
    p.linvel := v;
    p.GroundFrame(airborne);
    p.GroundFrame(grounded);
    p.KeyDown("Space");
  }
}
