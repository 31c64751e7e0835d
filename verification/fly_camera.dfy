/** The keyboard-only free-fly camera of src/camera.rs: ten key flags, a
    movement step that carries the eye and the target together, and look keys
    that move the target alone. */
module FlyCamera {
  import opened Results
  import opened Numerics
  import opened CameraMotion
  import KeyCodes

  /** `CameraController`: the speed and its ten key flags, kept as the set of
      actions whose flag is true. */
  datatype Controller = Controller(speed: real, held: set<Action>)

  /** The ten things a key can be bound to. */
  datatype Action = Up | Down | Forward | Backward | Left | Right | LookUp | LookDown | LookLeft | LookRight

  /** The window events the controller sees: a key going down or up (the key
      may be unknown), or anything else. */
  datatype WindowEvent = KeyboardInput(pressed: bool, key: Option<KeyCodes.KeyCode>) | OtherWindowEvent

  /** The key bound to each action. */
  function KeyOf(a: Action): KeyCodes.KeyCode
  {
    match a
    case Up => KeyCodes.Space
    case Down => KeyCodes.LShift
    case Forward => KeyCodes.W
    case Left => KeyCodes.A
    case Backward => KeyCodes.S
    case Right => KeyCodes.D
    case LookUp => KeyCodes.Up
    case LookLeft => KeyCodes.Left
    case LookDown => KeyCodes.Down
    case LookRight => KeyCodes.Right
  }

  /** The action a key is bound to, if any: a key is bound exactly when it is
      some action's key, and then to that action. */
  function Binding(k: KeyCodes.KeyCode): (r: Option<Action>)
    ensures r.Some? ==> KeyOf(r.value) == k
    ensures r.None? <==> forall a: Action :: KeyOf(a) != k
  {
    if k.Space? then Some(Up)
    else if k.LShift? then Some(Down)
    else if k.W? then Some(Forward)
    else if k.A? then Some(Left)
    else if k.S? then Some(Backward)
    else if k.D? then Some(Right)
    else if k.Up? then Some(LookUp)
    else if k.Left? then Some(LookLeft)
    else if k.Down? then Some(LookDown)
    else if k.Right? then Some(LookRight)
    else None
  }

  /** The flag that records whether the action's key is held. */
  predicate Held(c: Controller, a: Action)
  {
    a in c.held
  }

  /** `r` is `c` with the flag of `a` set to `v` and nothing else changed. */
  predicate SetsOnly(c: Controller, r: Controller, a: Action, v: bool)
  {
    && r.speed == c.speed
    && Held(r, a) == v
    && (forall b: Action | b != a :: Held(r, b) == Held(c, b))
  }

  /** `CameraController::new`: the given speed and no key held. */
  function New(speed: real): (c: Controller)
    ensures c.speed == speed
    ensures forall a: Action :: !Held(c, a)
  {
    Controller(speed, {})
  }

  /** The six movement flags. */
  function MovesOf(c: Controller): Moves
  {
    Moves(Up in c.held, Down in c.held, Forward in c.held, Backward in c.held, Left in c.held, Right in c.held)
  }

  /** `process_events`: a known key bound to an action sets that action's flag
      to whether the key went down and reports the event consumed; every other
      event is left alone and reported unconsumed. */
  function ProcessEvents(c: Controller, ev: WindowEvent): (r: (Controller, bool))
    ensures r.1 <==> ev.KeyboardInput? && ev.key.Some? && Binding(ev.key.value).Some?
    ensures r.1 ==> SetsOnly(c, r.0, Binding(ev.key.value).value, ev.pressed)
    ensures !r.1 ==> r.0 == c
  {
    match ev
    case KeyboardInput(pressed, Some(keycode)) =>
      (match Binding(keycode)
       case Some(a) => (c.(held := SetFlag(c.held, a, pressed)), true)
       case None => (c, false))
    case _ => (c, false)
  }

  /** The look keys of a frame applied to the target: left and right along
      `r`, up and down along `u`, in the code's order. Each pair of opposite
      keys acts like a pair of opposite movement keys, so holding both or
      neither leaves the target where it is. */
  function Look(t: Vec3, c: Controller, r: Vec3, u: Vec3, s: real): (q: Vec3)
    ensures q == Pair(Pair(t, LookRight in c.held, LookLeft in c.held, Scale3(r, s)),
                      LookUp in c.held, LookDown in c.held, Scale3(u, s))
    ensures LookBalanced(c) ==> q == t
  {
    var t1 := if LookLeft in c.held then Sub3(t, Scale3(r, s)) else t;
    var t2 := if LookRight in c.held then Add3(t1, Scale3(r, s)) else t1;
    var t3 := if LookUp in c.held then Add3(t2, Scale3(u, s)) else t2;
    if LookDown in c.held then Sub3(t3, Scale3(u, s)) else t3
  }

  /** Opposite look keys agree. */
  predicate LookBalanced(c: Controller)
  {
    (LookLeft in c.held <==> LookRight in c.held) && (LookUp in c.held <==> LookDown in c.held)
  }

  predicate NoLook(c: Controller)
  {
    LookUp !in c.held && LookDown !in c.held && LookLeft !in c.held && LookRight !in c.held
  }

  /** `update_camera`: the frame of `nanos` nanoseconds moves the eye and the
      target by the held movement keys, then the target alone by the held look
      keys. The up direction and the projection are never changed. */
  function UpdateCamera(m: Math, c: Controller, cam: Camera, nanos: nat): (r: Camera)
    ensures r.up == cam.up && r.aspect == cam.aspect && r.fovy == cam.fovy
    ensures r.znear == cam.znear && r.zfar == cam.zfar
    ensures NoLook(c) ==> Sub3(r.target, r.eye) == Sub3(cam.target, cam.eye)
    ensures r.eye == Add3(cam.eye, Offset(MovesOf(c), ForwardOf(m, cam), RightOf(m, cam), cam.up,
                                          FrameSpeed(c.speed, nanos)))
    ensures r.target == Look(Add3(cam.target, Offset(MovesOf(c), ForwardOf(m, cam), RightOf(m, cam), cam.up,
                                                     FrameSpeed(c.speed, nanos))),
                             c, RightOf(m, cam), cam.up, FrameSpeed(c.speed, nanos))
  {
    var f := ForwardOf(m, cam);
    var s := FrameSpeed(c.speed, nanos);
    var right := RightOf(m, cam);
    var eye := Shift(cam.eye, MovesOf(c), f, right, cam.up, s);
    var target := Shift(cam.target, MovesOf(c), f, right, cam.up, s);
    ShiftTogether(cam.eye, cam.target, MovesOf(c), f, right, cam.up, s);
    ShiftIsOffset(cam.eye, MovesOf(c), f, right, cam.up, s);
    ShiftIsOffset(cam.target, MovesOf(c), f, right, cam.up, s);
    cam.(eye := eye, target := Look(target, c, right, cam.up, s))
  }

  /** The look keys never move the eye: the eye is where the movement keys
      alone put it. */
  lemma LookMovesTargetOnly(m: Math, c: Controller, cam: Camera, nanos: nat)
    ensures UpdateCamera(m, c, cam, nanos).eye ==
      UpdateCamera(m, c.(held := c.held - {LookUp, LookDown, LookLeft, LookRight}), cam, nanos).eye
  {
  }

  /** Holding both keys of each opposite pair, or neither, leaves the eye
      where it was. */
  lemma BalancedEyeStill(m: Math, c: Controller, cam: Camera, nanos: nat)
    requires Balanced(MovesOf(c))
    ensures UpdateCamera(m, c, cam, nanos).eye == cam.eye
  {
  }

  /** A new controller leaves the camera where it is. */
  lemma NewIsStill(m: Math, speed: real, cam: Camera, nanos: nat)
    ensures UpdateCamera(m, New(speed), cam, nanos) == cam
  {
    assert Balanced(MovesOf(New(speed)));
  }

  /** A key press followed by its release restores the flags. */
  lemma PressRelease(c: Controller, k: KeyCodes.KeyCode)
    requires Binding(k).Some? && !Held(c, Binding(k).value)
    ensures var c1 := ProcessEvents(c, KeyboardInput(true, Some(k))).0;
      ProcessEvents(c1, KeyboardInput(false, Some(k))).0 == c
  {
  }
}
