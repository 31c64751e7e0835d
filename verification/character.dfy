/** The single-player character: the orbiting camera driven by the mouse, and
    the per-frame movement step that turns held keys, gravity, friction, the
    dash and the jump into a new position and new velocities. */
module Character {
  import opened Numerics
  import Utils
  import KeyCodes

  /** The camera orbiting the player. Angles are in radians; a pitch of 0
      looks straight down at the ground and a pitch of pi looks straight up. */
  datatype CameraOrientation = CameraOrientation(
    yaw: real,
    pitch: real,
    roll: real,
    distance: real,   // metres from the player
    yOffset: real)    // height of the orbit centre above the player

  /** Whether mouse events are swallowed instead of moving the camera. */
  datatype MouseInputState = MouseInputState(noMouseInputs: bool)

  /** The user's settings the game reads: mouse sensitivities and the keys
      for up, left, down, right, jump and dash. */
  datatype Config = Config(
    sens: real,
    zoomSens: real,
    movement: seq<KeyCodes.KeyCode>,
    jump: KeyCodes.KeyCode,
    dash: KeyCodes.KeyCode,
    hostMode: bool)

  predicate WellFormed(c: Config)
  {
    |c.movement| == 4
  }

  datatype PhysicsProperties = PhysicsProperties(
    speedGround: real,
    speedAir: real,
    acceleration: real,
    dashCooldown: real)

  /** The player's motion state. `gravity` is the downward acceleration as a
      function of the time since the last jump and a launch speed. Times are
      seconds since start-up. */
  datatype Physics = Physics(
    gravity: (real, real) -> real,
    velocity: Vec3,
    walking: Vec2,
    dash: Vec3,
    lastJump: real,
    lastDash: real)

  datatype Player = Player(translation: Vec3, phys: Physics)

  /** The pitch and distance limits the mouse handler enforces. */
  predicate InLookBounds(c: CameraOrientation)
  {
    EPSILON <= c.pitch <= PI - EPSILON && 5.0 <= c.distance <= 100.0
  }

  /** `CameraOrientation::default`: level yaw, pitched 60 degrees, 50 m out
      and 5 m up; the mouse handler's limits already hold. */
  function DefaultCamera(): (c: CameraOrientation)
    ensures InLookBounds(c)
    ensures c.yaw == 0.0 && c.roll == 0.0
  {
    CameraOrientation(0.0, ToRadians(60.0), 0.0, 50.0, 5.0)
  }

  /** `Physics::default`: at rest, gravity 9.8, no jump or dash yet. */
  function DefaultPhysics(): (p: Physics)
    ensures p.velocity == ZERO3 && p.walking == ZERO2 && p.dash == ZERO3
    ensures p.lastJump == 0.0 && p.lastDash == 0.0
    ensures forall t, v :: p.gravity(t, v) == 9.8
  {
    Physics((t: real, v: real) => 9.8, ZERO3, ZERO2, ZERO3, 0.0, 0.0)
  }

  /** The spawned player's physics: the defaults with a constant gravity of
      30 and a last jump long in the past. */
  function SpawnPhysics(): (p: Physics)
    ensures p.velocity == ZERO3 && p.walking == ZERO2 && p.dash == ZERO3
    ensures p.lastJump == -100.0 && p.lastDash == DefaultPhysics().lastDash
    ensures forall t, v :: p.gravity(t, v) == 30.0
  {
    DefaultPhysics().(gravity := (t: real, v: real) => 30.0, lastJump := -100.0)
  }

  /** The spawned player's properties: top ground speed 15, air control 1,
      acceleration ten times the top speed, a dash every half second. */
  function SpawnProperties(): (p: PhysicsProperties)
    ensures p.acceleration == 10.0 * p.speedGround && 0.0 < p.speedGround
    ensures p.speedAir < p.speedGround && p.dashCooldown == 0.5
  {
    PhysicsProperties(15.0, 1.0, 15.0 * 10.0, 0.5)
  }

  /** `system_window`: Escape toggles whether mouse input is swallowed. */
  function Window(s: MouseInputState, escapeJustPressed: bool): (r: MouseInputState)
    ensures escapeJustPressed ==> r.noMouseInputs != s.noMouseInputs
    ensures !escapeJustPressed ==> r == s
  {
    if escapeJustPressed then MouseInputState(!s.noMouseInputs) else s
  }

  /** Pressing Escape twice restores the original state. */
  lemma WindowTwice(s: MouseInputState)
    ensures Window(Window(s, true), true) == s
  {
  }

  /** The sum of the frame's mouse motions, accumulated in arrival order. */
  function SumMotion(ds: seq<Vec2>): Vec2
  {
    if |ds| == 0 then ZERO2 else Add2(SumMotion(ds[..|ds| - 1]), ds[|ds| - 1])
  }

  /** The sum of the frame's wheel movements. */
  function SumWheel(ws: seq<real>): real
  {
    if |ws| == 0 then 0.0 else SumWheel(ws[..|ws| - 1]) + ws[|ws| - 1]
  }

  /** Accumulating two batches of motion one after the other is accumulating
      them together. */
  lemma {:induction false} SumMotionAppend(a: seq<Vec2>, b: seq<Vec2>)
    ensures SumMotion(a + b) == Add2(SumMotion(a), SumMotion(b))
    decreases |b|
  {
    if |b| == 0 {
      assert a + b == a;
    } else {
      var b' := b[..|b| - 1];
      assert (a + b)[..|a + b| - 1] == a + b';
      SumMotionAppend(a, b');
    }
  }

  /** The radians of turn per unit of mouse motion. */
  function LookSens(sens: real): real
  {
    ToRadians(sens) / 10.0
  }

  /** `system_mouse`: the frame's events are always consumed; unless input is
      swallowed, motion turns yaw and pitch, the wheel zooms, and pitch and
      distance are clamped to their limits. Yaw is never clamped. */
  function MouseLook(cam: CameraOrientation, state: MouseInputState, sens: real, zoomSens: real,
                     motions: seq<Vec2>, wheels: seq<real>): (r: CameraOrientation)
    ensures state.noMouseInputs ==> r == cam
    ensures !state.noMouseInputs ==> InLookBounds(r)
    ensures !state.noMouseInputs ==> r.yaw == cam.yaw + SumMotion(motions).x * LookSens(sens)
    ensures var pitch := cam.pitch - SumMotion(motions).y * LookSens(sens);
      !state.noMouseInputs ==>
        && (EPSILON <= pitch <= PI - EPSILON ==> r.pitch == pitch)
        && (pitch < EPSILON ==> r.pitch == EPSILON)
        && (PI - EPSILON < pitch ==> r.pitch == PI - EPSILON)
    ensures var distance := cam.distance - SumWheel(wheels) * zoomSens;
      !state.noMouseInputs ==>
        && (5.0 <= distance <= 100.0 ==> r.distance == distance)
        && (distance < 5.0 ==> r.distance == 5.0)
        && (100.0 < distance ==> r.distance == 100.0)
    ensures r.roll == cam.roll && r.yOffset == cam.yOffset
  {
    if state.noMouseInputs then cam
    else
      var look := Scale2(SumMotion(motions), LookSens(sens));
      var wheel := SumWheel(wheels);
      var pitch := cam.pitch - look.y;
      var distance := cam.distance - wheel * zoomSens;
      cam.(yaw := cam.yaw + look.x,
           pitch := Clamp(pitch, ToRadians(0.0) + EPSILON, ToRadians(180.0) - EPSILON),
           distance := Clamp(distance, 5.0, 100.0))
  }

  /** A frame without mouse events leaves a camera within its limits exactly
      where it was. */
  lemma MouseLookIdle(cam: CameraOrientation, state: MouseInputState, sens: real, zoomSens: real)
    requires InLookBounds(cam)
    ensures MouseLook(cam, state, sens, zoomSens, [], []) == cam
  {
  }

  /** Yaw does not depend on how motion is split across frames: two frames
      turn the camera as far as one frame with all their events. */
  lemma MouseLookYawAdditive(cam: CameraOrientation, sens: real, zoomSens: real,
                             a: seq<Vec2>, b: seq<Vec2>, wa: seq<real>, wb: seq<real>)
    ensures var s := MouseInputState(false);
      MouseLook(MouseLook(cam, s, sens, zoomSens, a, wa), s, sens, zoomSens, b, wb).yaw
      == MouseLook(cam, s, sens, zoomSens, a + b, wa + wb).yaw
  {
    var s := MouseInputState(false);
    var c1 := MouseLook(cam, s, sens, zoomSens, a, wa);
    MouseLookYaw(cam, sens, zoomSens, a, wa);
    MouseLookYaw(c1, sens, zoomSens, b, wb);
    MouseLookYaw(cam, sens, zoomSens, a + b, wa + wb);
    TurnAppend(a, b, LookSens(sens));
  }

  /** The yaw of one frame of mouse look. */
  lemma MouseLookYaw(cam: CameraOrientation, sens: real, zoomSens: real, motions: seq<Vec2>, wheels: seq<real>)
    ensures MouseLook(cam, MouseInputState(false), sens, zoomSens, motions, wheels).yaw
      == cam.yaw + SumMotion(motions).x * LookSens(sens)
  {
  }

  /** The turn of two batches of motion is the sum of their turns. */
  lemma TurnAppend(a: seq<Vec2>, b: seq<Vec2>, k: real)
    ensures SumMotion(a + b).x * k == SumMotion(a).x * k + SumMotion(b).x * k
  {
    SumMotionAppend(a, b);
    Distribute(SumMotion(a).x, SumMotion(b).x, k);
  }

  lemma Distribute(x: real, y: real, k: real)
    ensures (x + y) * k == x * k + y * k
  {
  }

  /** +1 when only the positive key is held, -1 when only the negative one,
      0 when both or neither. */
  function Axis(pos: bool, neg: bool): real
  {
    (if pos then 1.0 else 0.0) - (if neg then 1.0 else 0.0)
  }

  /** The key intent of `system_update_movement`: up and down on y, right
      and left on x, each adding or taking one. The result of `normalize` is
      discarded in the code, so the vector is not normalised. */
  function Intent(c: Config, pressed: set<KeyCodes.KeyCode>): (v: Vec2)
    requires WellFormed(c)
    ensures v.y == Axis(c.movement[0] in pressed, c.movement[2] in pressed)
    ensures v.x == Axis(c.movement[3] in pressed, c.movement[1] in pressed)
  {
    var y0 := if c.movement[0] in pressed then 1.0 else 0.0;
    var y1 := if c.movement[2] in pressed then y0 - 1.0 else y0;
    var x0 := if c.movement[3] in pressed then 1.0 else 0.0;
    var x1 := if c.movement[1] in pressed then x0 - 1.0 else x0;
    Vec2(x1, y1)
  }

  /** The intent is zero exactly when each pair of opposite keys is either
      both held or both released. */
  lemma IntentZero(c: Config, pressed: set<KeyCodes.KeyCode>)
    requires WellFormed(c)
    ensures Intent(c, pressed) == ZERO2 <==>
      (c.movement[0] in pressed <==> c.movement[2] in pressed) &&
      (c.movement[3] in pressed <==> c.movement[1] in pressed)
  {
  }

  /** Up and right together give a diagonal of squared length 2: the intent
      is not rescaled to unit length. */
  lemma IntentNotNormalized(c: Config, pressed: set<KeyCodes.KeyCode>)
    requires WellFormed(c)
    requires c.movement[0] in pressed && c.movement[2] !in pressed
    requires c.movement[3] in pressed && c.movement[1] !in pressed
    ensures LengthSq2(Intent(c, pressed)) == 2.0
  {
  }

  /** None of the four movement keys is held. */
  predicate NoMovementKeys(c: Config, pressed: set<KeyCodes.KeyCode>)
    requires WellFormed(c)
  {
    forall i | 0 <= i < 4 :: c.movement[i] !in pressed
  }

  /** The intent turned into the camera's frame of reference. */
  function Direction(m: Math, c: Config, pressed: set<KeyCodes.KeyCode>, cam: CameraOrientation): (d: Vec2)
    requires WellFormed(c)
    ensures Lawful(m) ==> Length2(m, d) == Length2(m, Intent(c, pressed))
  {
    Utils.Rotate(m, Intent(c, pressed), Heading(cam))
  }

  /** The angle the intent is turned by: the camera's yaw less a quarter
      turn. */
  function Heading(cam: CameraOrientation): real
  {
    cam.yaw - ToRadians(90.0)
  }

  /** The player stands on the ground when not above it. */
  predicate Grounded(t: Vec3)
  {
    t.y <= 0.0
  }

  /** The walking acceleration: the direction scaled by the ground or air
      speed, then by the ratio of acceleration to ground speed. On the ground
      the speeds cancel and the direction is scaled by the acceleration
      itself; in the air by the acceleration in the ratio of the air speed to
      the ground speed. */
  function Acceleration(dir: Vec2, grounded: bool, props: PhysicsProperties): (a: Vec2)
    requires props.speedGround != 0.0
    ensures dir == ZERO2 ==> a == ZERO2
    ensures grounded ==> a == Scale2(dir, props.acceleration)
    ensures !grounded ==> a == Scale2(dir, props.acceleration * props.speedAir / props.speedGround)
  {
    var speed := if grounded then props.speedGround else props.speedAir;
    RatioScale(dir.x, speed, props.acceleration, props.speedGround);
    RatioScale(dir.y, speed, props.acceleration, props.speedGround);
    Scale2(Scale2(dir, speed), props.acceleration / props.speedGround)
  }

  /** Scaling by `s` and then by `a / g` is scaling by `a s / g`, and by `a`
      when `s` is `g`. */
  lemma RatioScale(x: real, s: real, a: real, g: real)
    requires g != 0.0
    ensures x * s * (a / g) == x * (a * s / g)
    ensures s == g ==> x * s * (a / g) == x * a
  {
    assert a / g * g == a;
  }

  /** Without movement keys held there is no walking acceleration. */
  lemma NoKeysNoAcceleration(m: Math, c: Config, pressed: set<KeyCodes.KeyCode>, cam: CameraOrientation,
                             grounded: bool, props: PhysicsProperties)
    requires Lawful(m) && WellFormed(c) && props.speedGround != 0.0
    requires NoMovementKeys(c, pressed)
    ensures Acceleration(Direction(m, c, pressed, cam), grounded, props) == ZERO2
  {
    DirectionNoKeys(m, c, pressed, cam);
  }

  /** Without movement keys held the direction is the zero vector. */
  lemma DirectionNoKeys(m: Math, c: Config, pressed: set<KeyCodes.KeyCode>, cam: CameraOrientation)
    requires Lawful(m) && WellFormed(c)
    requires NoMovementKeys(c, pressed)
    ensures Direction(m, c, pressed, cam) == ZERO2
  {
    assert c.movement[0] !in pressed && c.movement[1] !in pressed;
    assert c.movement[2] !in pressed && c.movement[3] !in pressed;
    var v := Intent(c, pressed);
    assert v == ZERO2;
    Utils.RotateZeroAt(m, v, Heading(cam));
  }

  /** Gravity lowers the vertical velocity by the gravity function's value,
      taken at the time since the last jump, times the frame time. */
  function Gravity(p: Physics, now: real, dt: real): (v: Vec3)
    ensures v.x == p.velocity.x && v.z == p.velocity.z
    ensures v.y == p.velocity.y - p.gravity(now - p.lastJump, 5.0) * dt
  {
    Sub3(p.velocity, Vec3(0.0, p.gravity(now - p.lastJump, 5.0) * dt, 0.0))
  }

  /** Ground friction: below 0.1 the walking velocity is cancelled outright;
      otherwise a dynamic part proportional to the velocity (factor 5) and a
      static part of fixed size (15) both push against it. */
  function Friction(m: Math, w: Vec2, dt: real): (r: Vec2)
    ensures Length2(m, w) < 0.1 ==> r == ZERO2
  {
    var dynamicFriction := 5.0;
    var staticFriction := 15.0;
    if Length2(m, w) < 0.1 then
      Add2(w, Scale2(w, -1.0))
    else
      var frictionVel := Scale2(Scale2(w, -dynamicFriction), dt);
      Add2(w, Add2(frictionVel, Scale2(Scale2(Normalize2(m, w), -staticFriction), dt)))
  }

  /** Above the threshold, friction only rescales the velocity: the result
      points along the original velocity, shrunk by `5 dt + 15 dt / |w|`. */
  lemma FrictionAlongVelocity(m: Math, w: Vec2, dt: real)
    requires Lawful(m) && 0.1 <= Length2(m, w)
    ensures Friction(m, w, dt) == Scale2(w, 1.0 - 5.0 * dt - 15.0 * dt / Length2(m, w))
  {
    var l := Length2(m, w);
    var q := 1.0 / l;
    var k := 1.0 - 5.0 * dt - 15.0 * dt / l;
    assert 15.0 * dt / l == 15.0 * dt * q;
    assert Normalize2(m, w) == Scale2(w, q);
    ScaleCombine(w.x, dt, q);
    ScaleCombine(w.y, dt, q);
  }

  /** The per-component identity behind `FrictionAlongVelocity`. */
  lemma ScaleCombine(a: real, dt: real, q: real)
    ensures a + a * -5.0 * dt + a * q * -15.0 * dt == a * (1.0 - 5.0 * dt - 15.0 * dt * q)
  {
  }

  /** The speed clamp: a walking velocity faster than `s` is rescaled to its
      direction times `s`; slower ones are kept. */
  function ClampSpeed(m: Math, w: Vec2, s: real): (r: Vec2)
    ensures Length2(m, w) <= s ==> r == w
  {
    if Length2(m, w) > s then Scale2(Normalize2(m, w), s) else w
  }

  /** After the clamp the walking speed is at most `s`, and exactly `s` when
      the input was faster. */
  lemma ClampSpeedBound(m: Math, w: Vec2, s: real)
    requires Lawful(m) && 0.0 <= s
    ensures Length2(m, ClampSpeed(m, w, s)) <= s
    ensures Length2(m, w) > s ==> Length2(m, ClampSpeed(m, w, s)) == s
    ensures Length2(m, w) > s ==> ClampSpeed(m, w, s) == Scale2(w, s / Length2(m, w))
  {
    if Length2(m, w) > s {
      var l := Length2(m, w);
      ReciprocalScale(w.x, l, s);
      ReciprocalScale(w.y, l, s);
      if w == ZERO2 {
        Length2Zero(m, w);
        assert false;
      }
      Normalize2Unit(m, w);
      Length2Scale(m, Normalize2(m, w), s);
    }
  }

  /** Scaling by `1 / l` and then by `s` is scaling by `s / l`. */
  lemma ReciprocalScale(x: real, l: real, s: real)
    requires l != 0.0
    ensures x * (1.0 / l) * s == x * (s / l)
  {
  }

  /** The dash gate: with the dash key held and the cooldown strictly over,
      the dash restarts now; otherwise the last dash time stays. */
  function DashGate(held: bool, lastDash: real, now: real, cooldown: real): (r: real)
    ensures held && lastDash < now - cooldown ==> r == now
    ensures !(held && lastDash < now - cooldown) ==> r == lastDash
  {
    if held && lastDash < now - cooldown then now else lastDash
  }

  /** Once a dash starts, no other can start until strictly more than the
      cooldown has passed, however the key is held. */
  lemma DashCooldownRespected(lastDash: real, t1: real, t2: real, cooldown: real, held2: bool)
    requires DashGate(true, lastDash, t1, cooldown) == t1 != lastDash
    requires t2 <= t1 + cooldown
    ensures DashGate(held2, t1, t2, cooldown) == t1
  {
  }

  /** `dash_falloff_func`: full strength for the first half, then a square
      root tail from 0.4 down to 0 at 0.9, a short linear tail from 0.04 to 0
      at 1, and nothing after. */
  function DashFalloff(m: Math, t: real): (r: real)
    ensures Lawful(m) ==> 0.0 <= r <= 1.0
  {
    SqrtUnitRange(m, -t + 0.9);
    if t > 1.0 then 0.0
    else if t > 0.9 then (-t + 1.0) * 0.4
    else if t > 0.5 then m.sqrt(-t + 0.9) * 0.4
    else 1.0
  }

  /** The root of a number in [0, 1] lies in [0, 1]. */
  lemma SqrtUnitRange(m: Math, x: real)
    ensures Lawful(m) && 0.0 <= x <= 1.0 ==> 0.0 <= m.sqrt(x) <= 1.0
  {
    if Lawful(m) && 0.0 <= x <= 1.0 {
      SqrtNonNegative(m, x);
      SqrtBelow(m, x, 1.0);
    }
  }

  /** The falloff is 1 up to 0.5, 0 from 1 on, lies in [0, 1] throughout and
      drops below 1 as soon as the first half is over. */
  lemma DashFalloffRange(m: Math, t: real)
    requires Lawful(m)
    ensures t <= 0.5 ==> DashFalloff(m, t) == 1.0
    ensures 1.0 <= t ==> DashFalloff(m, t) == 0.0
    ensures 0.0 <= DashFalloff(m, t) <= 1.0
    ensures 0.5 < t ==> DashFalloff(m, t) < 1.0
  {
    if 0.5 < t <= 0.9 {
      SqrtBelow(m, -t + 0.9, 1.0);
      SqrtNonNegative(m, -t + 0.9);
    }
  }

  /** The falloff is not monotone: it reaches 0 at 0.9 and rises again just
      after. */
  lemma DashFalloffNotMonotone(m: Math)
    requires Lawful(m)
    ensures DashFalloff(m, 0.9) < DashFalloff(m, 0.95)
  {
    SqrtZero(m);
  }

  /** The dash velocity: the direction on the ground plane, scaled by the
      falloff at three times the time since the dash, times 50. In the first
      sixth of a second it is fifty times the direction; from a third of a
      second on it is zero. */
  function DashVelocity(m: Math, dir: Vec2, dashTime: real): (d: Vec3)
    ensures d.y == 0.0
    ensures dir == ZERO2 ==> d == ZERO3
    ensures 3.0 * dashTime <= 0.5 ==> d == Scale3(Utils.Xz3(dir), 50.0)
    ensures 1.0 <= 3.0 * dashTime ==> d == ZERO3
  {
    var f := DashFalloff(m, 3.0 * dashTime);
    DashFalloffEnds(m, 3.0 * dashTime);
    DashScale(Utils.Xz3(dir), f);
    assert dir == ZERO2 ==> Utils.Xz3(dir) == ZERO3;
    Scale3(Scale3(Utils.Xz3(dir), f), 50.0)
  }

  /** The two flat ends of the falloff, whatever the square root. */
  lemma DashFalloffEnds(m: Math, t: real)
    ensures t <= 0.5 ==> DashFalloff(m, t) == 1.0
    ensures 1.0 <= t ==> DashFalloff(m, t) == 0.0
  {
  }

  /** Full strength keeps the vector, times 50; no strength, or the zero
      vector, gives zero. */
  lemma DashScale(v: Vec3, f: real)
    ensures v == ZERO3 ==> Scale3(Scale3(v, f), 50.0) == ZERO3
    ensures f == 1.0 ==> Scale3(Scale3(v, f), 50.0) == Scale3(v, 50.0)
    ensures f == 0.0 ==> Scale3(Scale3(v, f), 50.0) == ZERO3
  {
  }

  /** The end of the step on the ground: pinned to the ground and stopped
      vertically, unless jump is held, which launches at 15 from just above
      the ground and records the jump. In the air nothing changes. */
  function Land(grounded: bool, jump: bool, now: real, t: Vec3, p: Physics): (r: Player)
    ensures grounded && !jump ==> r.translation.y == 0.0 && r.phys.velocity.y == 0.0
    ensures grounded && jump ==>
      r.translation.y == EPSILON && r.phys.velocity.y == 15.0 && r.phys.lastJump == now
    ensures !(grounded && jump) ==> r.phys.lastJump == p.lastJump
    ensures r.translation.x == t.x && r.translation.z == t.z
    ensures r.phys.velocity.x == p.velocity.x && r.phys.velocity.z == p.velocity.z
    ensures !grounded ==> r.translation == t && r.phys.velocity == p.velocity
    ensures r.phys.walking == p.walking && r.phys.dash == p.dash && r.phys.lastDash == p.lastDash
  {
    if !grounded then Player(t, p)
    else
      var t0 := t.(y := 0.0);
      var p0 := p.(velocity := p.velocity.(y := 0.0));
      if jump then Player(t0.(y := 0.0 + EPSILON), p0.(velocity := p0.velocity.(y := 15.0), lastJump := now))
      else Player(t0, p0)
  }

  /** The physics half of `system_update_movement`: the new velocity, walking
      velocity, dash velocity and last dash time at time `now` (seconds since
      start-up) with frame time `dt`, before the move and the landing. */
  function NextPhysics(m: Math, c: Config, pressed: set<KeyCodes.KeyCode>, cam: CameraOrientation,
                       p: Player, props: PhysicsProperties, now: real, dt: real): (q: Physics)
    requires WellFormed(c) && props.speedGround != 0.0
    ensures q.lastDash == DashGate(c.dash in pressed, p.phys.lastDash, now, props.dashCooldown)
    ensures q.dash.y == 0.0
    ensures q.gravity == p.phys.gravity && q.lastJump == p.phys.lastJump
    ensures q.velocity == Gravity(p.phys, now, dt)
    ensures q.dash == DashVelocity(m, Direction(m, c, pressed, cam), now - q.lastDash)
    ensures q.walking == Walk(m, p.phys.walking, Acceleration(Direction(m, c, pressed, cam), Grounded(p.translation), props),
                              Grounded(p.translation), dt, props.speedGround)
  {
    var dir := Direction(m, c, pressed, cam);
    var grounded := Grounded(p.translation);
    var accel := Acceleration(dir, grounded, props);
    var velocity := Gravity(p.phys, now, dt);
    var walking := Walk(m, p.phys.walking, accel, grounded, dt, props.speedGround);
    var lastDash := DashGate(c.dash in pressed, p.phys.lastDash, now, props.dashCooldown);
    var dash := DashVelocity(m, dir, now - lastDash);
    p.phys.(velocity := velocity, walking := walking, dash := dash, lastDash := lastDash)
  }

  /** A dash that fires this frame is at full strength: fifty times the
      direction on the ground plane. */
  lemma DashFiresFullStrength(m: Math, c: Config, pressed: set<KeyCodes.KeyCode>, cam: CameraOrientation,
                              p: Player, props: PhysicsProperties, now: real, dt: real)
    requires WellFormed(c) && props.speedGround != 0.0
    requires c.dash in pressed && p.phys.lastDash < now - props.dashCooldown
    ensures var q := NextPhysics(m, c, pressed, cam, p, props, now, dt);
      q.lastDash == now && q.dash == Scale3(Utils.Xz3(Direction(m, c, pressed, cam)), 50.0)
  {
  }

  /** With the dash key released, a dash started a third of a second or more
      ago has no velocity left. */
  lemma DashSpent(m: Math, c: Config, pressed: set<KeyCodes.KeyCode>, cam: CameraOrientation,
                  p: Player, props: PhysicsProperties, now: real, dt: real)
    requires WellFormed(c) && props.speedGround != 0.0
    requires c.dash !in pressed && 1.0 <= 3.0 * (now - p.phys.lastDash)
    ensures NextPhysics(m, c, pressed, cam, p, props, now, dt).dash == ZERO3
  {
  }

  /** A dash started at time 0 and read at 0.6 with the key released: the
      falloff at 1.8 is 0, so the dash velocity is zero. */
  lemma DashSpentAtSixTenths(m: Math, c: Config, pressed: set<KeyCodes.KeyCode>, cam: CameraOrientation,
                             p: Player, props: PhysicsProperties, dt: real)
    requires WellFormed(c) && props.speedGround != 0.0
    requires c.dash !in pressed && p.phys.lastDash == 0.0
    ensures NextPhysics(m, c, pressed, cam, p, props, 0.6, dt).dash == ZERO3
  {
    DashSpent(m, c, pressed, cam, p, props, 0.6, dt);
  }

  /** On the ground and at rest, one frame with the acceleration `a` walks at
      `a` times the frame time, as long as that is within the speed. */
  lemma WalkFromRest(m: Math, a: Vec2, dt: real, speed: real)
    requires Lawful(m) && Length2(m, Scale2(a, dt)) <= speed
    ensures Walk(m, ZERO2, a, true, dt, speed) == Scale2(a, dt)
  {
    Length2Zero(m, ZERO2);
    assert Add2(ZERO2, Scale2(a, dt)) == Scale2(a, dt);
  }

  /** One grounded frame from rest with a movement key held: the walking
      velocity is the direction times the acceleration times the frame time,
      as long as that is within the ground speed. */
  lemma NextPhysicsFromRest(m: Math, c: Config, pressed: set<KeyCodes.KeyCode>, cam: CameraOrientation,
                            p: Player, props: PhysicsProperties, now: real, dt: real)
    requires Lawful(m) && WellFormed(c) && props.speedGround != 0.0
    requires Grounded(p.translation) && p.phys.walking == ZERO2
    requires Length2(m, Scale2(Scale2(Direction(m, c, pressed, cam), props.acceleration), dt)) <= props.speedGround
    ensures NextPhysics(m, c, pressed, cam, p, props, now, dt).walking ==
      Scale2(Scale2(Direction(m, c, pressed, cam), props.acceleration), dt)
  {
    var a := Acceleration(Direction(m, c, pressed, cam), true, props);
    WalkFromRest(m, a, dt, props.speedGround);
  }

  /** The walking velocity after one frame: friction on the ground, then the
      acceleration times the frame time, then the speed clamp. */
  function Walk(m: Math, w: Vec2, accel: Vec2, grounded: bool, dt: real, speed: real): Vec2
  {
    var w0 := if grounded then Friction(m, w, dt) else w;
    ClampSpeed(m, Add2(w0, Scale2(accel, dt)), speed)
  }

  /** The move of one frame: the sum of the velocity, the walking velocity on
      the ground plane and the dash velocity, times the frame time. */
  function Move(t: Vec3, q: Physics, dt: real): (r: Vec3)
    ensures r.x == t.x + (q.velocity.x + q.walking.x + q.dash.x) * dt
    ensures r.y == t.y + (q.velocity.y + q.dash.y) * dt
    ensures r.z == t.z + (q.velocity.z + q.walking.y + q.dash.z) * dt
  {
    Add3(t, Scale3(Add3(Add3(q.velocity, Utils.Xz3(q.walking)), q.dash), dt))
  }

  /** `system_update_movement`: one frame of the player's motion, the new
      physics, the move, then the landing or jump. */
  function Tick(m: Math, c: Config, pressed: set<KeyCodes.KeyCode>, cam: CameraOrientation,
                p: Player, props: PhysicsProperties, now: real, dt: real): (r: Player)
    requires WellFormed(c) && props.speedGround != 0.0
    ensures Grounded(p.translation) && c.jump !in pressed ==>
      r.translation.y == 0.0 && r.phys.velocity.y == 0.0
    ensures Grounded(p.translation) && c.jump in pressed ==>
      r.translation.y == EPSILON && r.phys.velocity.y == 15.0 && r.phys.lastJump == now
    ensures !Grounded(p.translation) ==> r.phys.lastJump == p.phys.lastJump
    ensures r.phys.lastDash == DashGate(c.dash in pressed, p.phys.lastDash, now, props.dashCooldown)
    ensures r.phys.dash.y == 0.0
    ensures r.phys.velocity.x == p.phys.velocity.x && r.phys.velocity.z == p.phys.velocity.z
    ensures !Grounded(p.translation) ==> r.phys.velocity == Gravity(p.phys, now, dt)
    ensures !Grounded(p.translation) ==> r.translation == Move(p.translation, r.phys, dt)
    ensures r.translation.x == Move(p.translation, r.phys, dt).x
    ensures r.translation.z == Move(p.translation, r.phys, dt).z
  {
    var q := NextPhysics(m, c, pressed, cam, p, props, now, dt);
    LandAfterMove(Grounded(p.translation), c.jump in pressed, now, p.translation, q, dt);
    Land(Grounded(p.translation), c.jump in pressed, now, Move(p.translation, q, dt), q)
  }

  /** Landing keeps the horizontal part of the move: across the ground plane
      the player ends where moving by its final velocities puts it. */
  lemma LandAfterMove(grounded: bool, jump: bool, now: real, t: Vec3, q: Physics, dt: real)
    ensures var r := Land(grounded, jump, now, Move(t, q, dt), q);
      r.translation.x == Move(t, r.phys, dt).x && r.translation.z == Move(t, r.phys, dt).z
  {
  }

  /** After every frame the walking speed is at most the ground speed. */
  lemma TickSpeedBound(m: Math, c: Config, pressed: set<KeyCodes.KeyCode>, cam: CameraOrientation,
                       p: Player, props: PhysicsProperties, now: real, dt: real)
    requires Lawful(m) && WellFormed(c) && 0.0 < props.speedGround
    ensures Length2(m, Tick(m, c, pressed, cam, p, props, now, dt).phys.walking) <= props.speedGround
  {
    var dir := Direction(m, c, pressed, cam);
    var grounded := Grounded(p.translation);
    var accel := Acceleration(dir, grounded, props);
    var walking0 := if grounded then Friction(m, p.phys.walking, dt) else p.phys.walking;
    ClampSpeedBound(m, Add2(walking0, Scale2(accel, dt)), props.speedGround);
  }

  /** Without movement keys there is neither walking acceleration nor dash
      velocity, whether or not a dash is under way. */
  lemma TickNoKeysNoDash(m: Math, c: Config, pressed: set<KeyCodes.KeyCode>, cam: CameraOrientation,
                         p: Player, props: PhysicsProperties, now: real, dt: real)
    requires Lawful(m) && WellFormed(c) && props.speedGround != 0.0
    requires NoMovementKeys(c, pressed)
    ensures Tick(m, c, pressed, cam, p, props, now, dt).phys.dash == ZERO3
  {
    DirectionNoKeys(m, c, pressed, cam);
  }

  /** On the ground, a walking velocity below 0.1 with no movement keys held
      comes to a full stop in one frame. */
  lemma TickGroundStop(m: Math, c: Config, pressed: set<KeyCodes.KeyCode>, cam: CameraOrientation,
                       p: Player, props: PhysicsProperties, now: real, dt: real)
    requires Lawful(m) && WellFormed(c) && 0.0 < props.speedGround
    requires NoMovementKeys(c, pressed)
    requires Grounded(p.translation) && Length2(m, p.phys.walking) < 0.1
    ensures Tick(m, c, pressed, cam, p, props, now, dt).phys.walking == ZERO2
  {
    NoKeysNoAcceleration(m, c, pressed, cam, true, props);
    Length2Zero(m, ZERO2);
    assert Add2(ZERO2, Scale2(ZERO2, dt)) == ZERO2;
  }

  /** In the air there is no friction: with no movement keys held, a walking
      velocity within the ground speed is carried over unchanged. */
  lemma TickAirKeepsMomentum(m: Math, c: Config, pressed: set<KeyCodes.KeyCode>, cam: CameraOrientation,
                             p: Player, props: PhysicsProperties, now: real, dt: real)
    requires Lawful(m) && WellFormed(c) && 0.0 < props.speedGround
    requires NoMovementKeys(c, pressed)
    requires !Grounded(p.translation) && Length2(m, p.phys.walking) <= props.speedGround
    ensures Tick(m, c, pressed, cam, p, props, now, dt).phys.walking == p.phys.walking
  {
    NoKeysNoAcceleration(m, c, pressed, cam, false, props);
    assert Add2(p.phys.walking, Scale2(ZERO2, dt)) == p.phys.walking;
  }

  /** A player standing still on the ground with no keys held stays exactly
      where it is, at rest, whatever the gravity and the frame time. */
  lemma TickAtRest(m: Math, c: Config, pressed: set<KeyCodes.KeyCode>, cam: CameraOrientation,
                   p: Player, props: PhysicsProperties, now: real, dt: real)
    requires Lawful(m) && WellFormed(c) && 0.0 < props.speedGround
    requires NoMovementKeys(c, pressed)
    requires c.jump !in pressed
    requires p.translation.y == 0.0 && p.phys.walking == ZERO2 && p.phys.velocity == ZERO3
    ensures var r := Tick(m, c, pressed, cam, p, props, now, dt);
      r.translation == p.translation && r.phys.walking == ZERO2 &&
      r.phys.velocity == ZERO3 && r.phys.dash == ZERO3
  {
    var q := NextPhysics(m, c, pressed, cam, p, props, now, dt);
    NextPhysicsAtRest(m, c, pressed, cam, p, props, now, dt);
    StillInPlane(p.translation, q, dt);
    LandAtRest(now, p.translation, Move(p.translation, q, dt), q);
  }

  /** The physics of a player standing still on the ground with no movement
      keys held: no horizontal velocity, no walking and no dash. */
  lemma NextPhysicsAtRest(m: Math, c: Config, pressed: set<KeyCodes.KeyCode>, cam: CameraOrientation,
                          p: Player, props: PhysicsProperties, now: real, dt: real)
    requires Lawful(m) && WellFormed(c) && 0.0 < props.speedGround
    requires NoMovementKeys(c, pressed)
    requires p.translation.y == 0.0 && p.phys.walking == ZERO2 && p.phys.velocity == ZERO3
    ensures var q := NextPhysics(m, c, pressed, cam, p, props, now, dt);
      q.velocity.x == 0.0 && q.velocity.z == 0.0 && q.walking == ZERO2 && q.dash == ZERO3
  {
    ZeroIsSlow(m, p.phys.walking);
    NextPhysicsGroundStop(m, c, pressed, cam, p, props, now, dt);
    DirectionNoKeys(m, c, pressed, cam);
  }

  lemma ZeroIsSlow(m: Math, w: Vec2)
    requires Lawful(m) && w == ZERO2
    ensures Length2(m, w) < 0.1
  {
    Length2Zero(m, w);
  }

  /** The physics behind `TickGroundStop`. */
  lemma NextPhysicsGroundStop(m: Math, c: Config, pressed: set<KeyCodes.KeyCode>, cam: CameraOrientation,
                              p: Player, props: PhysicsProperties, now: real, dt: real)
    requires Lawful(m) && WellFormed(c) && 0.0 < props.speedGround
    requires NoMovementKeys(c, pressed)
    requires Grounded(p.translation) && Length2(m, p.phys.walking) < 0.1
    ensures NextPhysics(m, c, pressed, cam, p, props, now, dt).walking == ZERO2
  {
    var q := NextPhysics(m, c, pressed, cam, p, props, now, dt);
    var accel := Acceleration(Direction(m, c, pressed, cam), true, props);
    NoKeysNoAcceleration(m, c, pressed, cam, true, props);
    assert accel == ZERO2;
    WalkStops(m, p.phys.walking, dt, props.speedGround);
    assert q.walking == Walk(m, p.phys.walking, accel, true, dt, props.speedGround);
  }

  /** On the ground and with no acceleration a walking velocity below 0.1
      stops. */
  lemma WalkStops(m: Math, w: Vec2, dt: real, speed: real)
    requires Lawful(m) && 0.0 < speed && Length2(m, w) < 0.1
    ensures Walk(m, w, ZERO2, true, dt, speed) == ZERO2
  {
    Length2Zero(m, ZERO2);
    assert Add2(ZERO2, Scale2(ZERO2, dt)) == ZERO2;
  }

  /** Landing without a jump from a move that stayed in place, with no
      horizontal velocity, leaves the player where it was and at rest. */
  lemma LandAtRest(now: real, t: Vec3, moved: Vec3, phys: Physics)
    requires t.y == 0.0 && moved.x == t.x && moved.z == t.z
    requires phys.velocity.x == 0.0 && phys.velocity.z == 0.0
    ensures var r := Land(true, false, now, moved, phys);
      r.translation == t && r.phys.velocity == ZERO3 &&
      r.phys.walking == phys.walking && r.phys.dash == phys.dash
  {
  }

  /** Moving with no horizontal velocity changes only the height. */
  lemma StillInPlane(t: Vec3, q: Physics, dt: real)
    requires q.velocity.x == 0.0 && q.velocity.z == 0.0 && q.walking == ZERO2 && q.dash == ZERO3
    ensures Move(t, q, dt).x == t.x && Move(t, q, dt).z == t.z
  {
  }

  /** `xy_vector`: the horizontal unit vector the camera's yaw faces. */
  function XyVector(m: Math, cam: CameraOrientation): (v: Vec3)
    ensures v == Vec3(m.sin(cam.yaw), 0.0, -m.cos(cam.yaw))
  {
    Neg3(Vec3(-m.sin(cam.yaw), 0.0, m.cos(cam.yaw)))
  }

  lemma XyVectorUnit(m: Math, cam: CameraOrientation)
    requires Lawful(m)
    ensures LengthSq3(XyVector(m, cam)) == 1.0
  {
    assert Circle(m, cam.yaw) == 1.0;
  }

}
