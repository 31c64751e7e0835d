/** The mouse-look free-fly camera of src/engine/camera.rs: eight key flags,
    an accumulator of mouse motion that each update consumes, the movement
    step, the pitch change limited near the poles, and the field-of-view
    keys. */
module EngineCamera {
  import opened Results
  import opened Numerics
  import opened CameraMotion
  import KeyCodes

  /** The eight things a key can be bound to. */
  datatype Action = Up | Down | Forward | Backward | Left | Right | FovUp | FovDown

  /** `CameraController`: speed, look sensitivity, the eight key flags (kept
      as the set of actions whose flag is true) and the mouse motion gathered
      since the last update. */
  datatype Controller = Controller(speed: real, sens: real, held: set<Action>,
                                   lookLeftAmt: real, lookUpAmt: real)

  /** The events the controller sees: mouse motion and other device events;
      a key going down or up (the key may be unknown) and other window events;
      and everything else. */
  datatype Event =
    | MouseMotion(dx: real, dy: real)
    | OtherDeviceEvent
    | KeyboardInput(pressed: bool, key: Option<KeyCodes.KeyCode>)
    | OtherWindowEvent
    | OtherEvent

  /** The key bound to each action. */
  function KeyOf(a: Action): KeyCodes.KeyCode
  {
    match a
    case Up => KeyCodes.Space
    case Down => KeyCodes.LShift
    case Forward => KeyCodes.W
    case Left => KeyCodes.A
    case Backward => KeyCodes.S
    case Right => KeyCodes.D
    case FovUp => KeyCodes.Q
    case FovDown => KeyCodes.E
  }

  /** The action a key is bound to, if any: a key is bound exactly when it is
      some action's key, and then to that action. */
  function Binding(k: KeyCodes.KeyCode): (r: Option<Action>)
    ensures r.Some? ==> KeyOf(r.value) == k
    ensures r.None? <==> forall a: Action :: KeyOf(a) != k
  {
    if k.Space? then Some(Up)
    else if k.LShift? then Some(Down)
    else if k.W? then Some(Forward)
    else if k.A? then Some(Left)
    else if k.S? then Some(Backward)
    else if k.D? then Some(Right)
    else if k.Q? then Some(FovUp)
    else if k.E? then Some(FovDown)
    else None
  }

  predicate Held(c: Controller, a: Action)
  {
    a in c.held
  }

  /** `r` is `c` with the flag of `a` set to `v` and nothing else changed. */
  predicate SetsOnly(c: Controller, r: Controller, a: Action, v: bool)
  {
    && r.speed == c.speed && r.sens == c.sens
    && r.lookLeftAmt == c.lookLeftAmt && r.lookUpAmt == c.lookUpAmt
    && Held(r, a) == v
    && (forall b: Action | b != a :: Held(r, b) == Held(c, b))
  }

  /** `CameraController::new`: the given speed and sensitivity, no key held
      and no motion gathered. */
  function New(speed: real, sens: real): (c: Controller)
    ensures c.speed == speed && c.sens == sens
    ensures forall a: Action :: !Held(c, a)
    ensures c.lookLeftAmt == 0.0 && c.lookUpAmt == 0.0
  {
    Controller(speed, sens, {}, 0.0, 0.0)
  }

  /** `process_events`: mouse motion is subtracted from the two look amounts
      and consumed; a known key bound to an action sets that action's flag to
      whether the key went down and is consumed; every other event is left
      alone and reported unconsumed. */
  function ProcessEvents(c: Controller, ev: Event): (r: (Controller, bool))
    ensures r.1 <==> ev.MouseMotion? || (ev.KeyboardInput? && ev.key.Some? && Binding(ev.key.value).Some?)
    ensures ev.MouseMotion? ==>
      r.0 == c.(lookLeftAmt := c.lookLeftAmt - ev.dx, lookUpAmt := c.lookUpAmt - ev.dy)
    ensures r.1 && ev.KeyboardInput? ==> SetsOnly(c, r.0, Binding(ev.key.value).value, ev.pressed)
    ensures !r.1 ==> r.0 == c
  {
    match ev
    case MouseMotion(dx, dy) =>
      (c.(lookLeftAmt := c.lookLeftAmt - dx, lookUpAmt := c.lookUpAmt - dy), true)
    case KeyboardInput(pressed, Some(keycode)) =>
      (match Binding(keycode)
       case Some(a) => (c.(held := SetFlag(c.held, a, pressed)), true)
       case None => (c, false))
    case _ => (c, false)
  }

  /** Motion events add up: two of them gather the sum of their deltas. */
  lemma MotionAccumulates(c: Controller, dx1: real, dy1: real, dx2: real, dy2: real)
    ensures var c2 := ProcessEvents(ProcessEvents(c, MouseMotion(dx1, dy1)).0, MouseMotion(dx2, dy2)).0;
      c2.lookLeftAmt == c.lookLeftAmt - (dx1 + dx2) && c2.lookUpAmt == c.lookUpAmt - (dy1 + dy2)
      && c2.held == c.held
  {
  }

  /** The file's own `min`: the first argument when strictly smaller,
      otherwise the second. */
  function LocalMin(a: real, b: real): (r: real)
    ensures r == a || r == b
    ensures r <= a && r <= b
  {
    if a < b then a else b
  }

  /** The file's own `max`: the first argument when strictly larger,
      otherwise the second. */
  function LocalMax(a: real, b: real): (r: real)
    ensures r == a || r == b
    ensures a <= r && b <= r
  {
    if a > b then a else b
  }

  /** The pitch-change selection as the code writes it. When the look is
      nearer the bottom pole than the top one, a downward request larger than
      the room left is replaced by `angle_to_down` itself, which is an upward
      change; the sign is lost. */
  function PitchChangeAsWritten(toUp: real, toDown: real, change: real): (r: real)
    ensures toDown < toUp && toDown < -change ==> r == toDown
    ensures !(toDown < toUp && toDown < -change) ==> r == PitchChange(toUp, toDown, change)
  {
    if toDown < toUp then
      if toDown < -change then toDown else change
    else
      if toUp < change then toUp else change
  }

  /** The input that shows it: 0.1 of room below, a request of 1 downwards,
      and the change comes out as 0.1 upwards. */
  lemma PitchChangeAsWrittenReverses()
    ensures PitchChangeAsWritten(3.0, 0.1, -1.0) == 0.1
  {
  }

  /** In general, whenever the downward request overshoots a positive room
      below, the selected change points up. */
  lemma PitchChangeAsWrittenFlipsSign(toUp: real, toDown: real, change: real)
    requires 0.0 < toDown < toUp && toDown < -change
    ensures change < 0.0 < PitchChangeAsWritten(toUp, toDown, change)
  {
  }

  /** The pitch change as evidently intended: nearer the bottom, a downward
      request is limited to the room below (`-angle_to_down`); nearer the
      top, an upward request is limited to the room above. */
  function PitchChange(toUp: real, toDown: real, change: real): (r: real)
    ensures toDown < toUp ==> r == LocalMax(change, -toDown)
    ensures toUp <= toDown ==> r == LocalMin(change, toUp)
  {
    if toDown < toUp then
      if toDown < -change then -toDown else change
    else
      if toUp < change then toUp else change
  }

  /** With room on both sides, the selected change keeps the direction of the
      request and is never larger than it. */
  lemma PitchChangeKeepsDirection(toUp: real, toDown: real, change: real)
    requires 0.0 <= toUp && 0.0 <= toDown
    ensures var r := PitchChange(toUp, toDown, change);
      (0.0 <= change ==> 0.0 <= r <= change) && (change <= 0.0 ==> change <= r <= 0.0)
  {
  }

  /** Nearer the bottom, the change never goes further down than the room
      left; nearer the top, never further up. */
  lemma PitchChangeWithinRoom(toUp: real, toDown: real, change: real)
    ensures toDown < toUp ==> -toDown <= PitchChange(toUp, toDown, change)
    ensures toUp <= toDown ==> PitchChange(toUp, toDown, change) <= toUp
  {
  }

  /** The field of view after the two keys: up raises it by `5 s` but not past
      179, then down lowers it by `5 s` but not below 1. */
  function Fov(fovy: real, up: bool, down: bool, s: real): (r: real)
    ensures 0.0 <= s && up ==> r <= 179.0
    ensures down ==> 1.0 <= r
    ensures !up && !down ==> r == fovy
  {
    var f1 := if up then LocalMin(fovy + s * 5.0, 179.0) else fovy;
    if down then LocalMax(f1 - s * 5.0, 1.0) else f1
  }

  /** The room left towards the two poles (each less five epsilon, as the
      code keeps it off the poles) and the requested pitch change, in
      radians: the gathered motion times the frame speed times the
      sensitivity, in degrees. */
  function PitchInputs(m: Math, g: Geometry, c: Controller, cam: Camera, nanos: nat): (real, real, real)
  {
    var s := FrameSpeed(c.speed, nanos);
    var mv := MovesOf(c);
    var eye := Shift(cam.eye, mv, ForwardOf(m, cam), RightOf(m, cam), cam.up, s);
    var target := Shift(cam.target, mv, ForwardOf(m, cam), RightOf(m, cam), cam.up, s);
    var look := Normalize3(m, Sub3(target, eye));
    (g.angle(cam.up, look) - EPSILON * 5.0, g.angle(Neg3(cam.up), look) - EPSILON * 5.0,
     ToRadians(c.lookUpAmt * s * c.sens))
  }

  /** `update_camera` for a frame of `nanos` nanoseconds, with the pitch
      change chosen by `select` from the room towards the two poles and the
      request: the movement keys carry the eye and the target together; the
      look direction is turned about the right axis by the selected change
      and about the up axis by the gathered sideways motion; the gathered
      motion is cleared; and the field-of-view keys apply. */
  function UpdateWith(m: Math, g: Geometry, c: Controller, cam: Camera, nanos: nat,
                      select: (real, real, real) -> real): (r: (Controller, Camera))
    ensures r.0 == c.(lookLeftAmt := 0.0, lookUpAmt := 0.0)
    ensures r.1.up == cam.up && r.1.aspect == cam.aspect
    ensures r.1.znear == cam.znear && r.1.zfar == cam.zfar
    ensures 0.0 <= c.speed && FovUp in c.held ==> r.1.fovy <= 179.0
    ensures FovDown in c.held ==> 1.0 <= r.1.fovy
    ensures FovUp !in c.held && FovDown !in c.held ==> r.1.fovy == cam.fovy
    ensures Balanced(MovesOf(c)) ==> r.1.eye == cam.eye
    ensures r.1.eye == Add3(cam.eye, Offset(MovesOf(c), ForwardOf(m, cam), RightOf(m, cam), cam.up,
                                            FrameSpeed(c.speed, nanos)))
    ensures var (toUp, toDown, request) := PitchInputs(m, g, c, cam, nanos);
      r.1.target == Add3(r.1.eye, Turned(m, g, c, cam, FrameSpeed(c.speed, nanos),
                                         select(toUp, toDown, request), ForwardOf(m, cam)))
  {
    var f := ForwardOf(m, cam);
    var s := FrameSpeed(c.speed, nanos);
    var right := RightOf(m, cam);
    var mv := MovesOf(c);
    var eye := Shift(cam.eye, mv, f, right, cam.up, s);
    var target := Shift(cam.target, mv, f, right, cam.up, s);
    ShiftIsOffset(cam.eye, mv, f, right, cam.up, s);
    ShiftTogether(cam.eye, cam.target, mv, f, right, cam.up, s);
    var look := Normalize3(m, Sub3(target, eye));
    assert look == f;
    var (toUp, toDown, request) := PitchInputs(m, g, c, cam, nanos);
    var change := select(toUp, toDown, request);
    var turned := Turned(m, g, c, cam, s, change, look);
    var fovy := Fov(cam.fovy, FovUp in c.held, FovDown in c.held, s);
    (c.(lookLeftAmt := 0.0, lookUpAmt := 0.0), cam.(eye := eye, target := Add3(eye, turned), fovy := fovy))
  }

  /** The new look direction: `look` turned about the right axis by the
      pitch change `change`, then about the up axis by the gathered sideways
      motion times the frame speed `s` and the sensitivity, in degrees. */
  function Turned(m: Math, g: Geometry, c: Controller, cam: Camera, s: real, change: real, look: Vec3): Vec3
  {
    g.rotate(Normalize3(m, cam.up), ToRadians(c.lookLeftAmt * s * c.sens), g.rotate(RightOf(m, cam), change, look))
  }

  /** `update_camera` as the code writes it, with the pitch change of
      `PitchChangeAsWritten`. */
  function UpdateCamera(m: Math, g: Geometry, c: Controller, cam: Camera, nanos: nat): (r: (Controller, Camera))
    ensures r.0 == c.(lookLeftAmt := 0.0, lookUpAmt := 0.0)
    ensures r.1.up == cam.up && r.1.aspect == cam.aspect
    ensures r.1.znear == cam.znear && r.1.zfar == cam.zfar
    ensures 0.0 <= c.speed && FovUp in c.held ==> r.1.fovy <= 179.0
    ensures FovDown in c.held ==> 1.0 <= r.1.fovy
    ensures FovUp !in c.held && FovDown !in c.held ==> r.1.fovy == cam.fovy
    ensures r.1.eye == Add3(cam.eye, Offset(MovesOf(c), ForwardOf(m, cam), RightOf(m, cam), cam.up,
                                            FrameSpeed(c.speed, nanos)))
    ensures var (toUp, toDown, request) := PitchInputs(m, g, c, cam, nanos);
      r.1.target == Add3(r.1.eye, Turned(m, g, c, cam, FrameSpeed(c.speed, nanos),
                                         PitchChangeAsWritten(toUp, toDown, request), ForwardOf(m, cam)))
  {
    UpdateWith(m, g, c, cam, nanos, PitchChangeAsWritten)
  }

  /** `update_camera` as evidently intended, with the pitch change of
      `PitchChange`. */
  function UpdateCameraIntended(m: Math, g: Geometry, c: Controller, cam: Camera, nanos: nat): (r: (Controller, Camera))
    ensures r.0 == c.(lookLeftAmt := 0.0, lookUpAmt := 0.0)
    ensures r.1.up == cam.up && r.1.aspect == cam.aspect
    ensures r.1.znear == cam.znear && r.1.zfar == cam.zfar
    ensures 0.0 <= c.speed && FovUp in c.held ==> r.1.fovy <= 179.0
    ensures FovDown in c.held ==> 1.0 <= r.1.fovy
    ensures FovUp !in c.held && FovDown !in c.held ==> r.1.fovy == cam.fovy
    ensures r.1.eye == Add3(cam.eye, Offset(MovesOf(c), ForwardOf(m, cam), RightOf(m, cam), cam.up,
                                            FrameSpeed(c.speed, nanos)))
    ensures var (toUp, toDown, request) := PitchInputs(m, g, c, cam, nanos);
      r.1.target == Add3(r.1.eye, Turned(m, g, c, cam, FrameSpeed(c.speed, nanos),
                                         PitchChange(toUp, toDown, request), ForwardOf(m, cam)))
  {
    UpdateWith(m, g, c, cam, nanos, PitchChange)
  }

  /** The two updates differ only in the look target, and only when the
      downward request overshoots the room below while the look is nearer the
      bottom pole. */
  lemma UpdateCameraAgrees(m: Math, g: Geometry, c: Controller, cam: Camera, nanos: nat)
    ensures var a := UpdateCamera(m, g, c, cam, nanos);
      var b := UpdateCameraIntended(m, g, c, cam, nanos);
      a.0 == b.0 && a.1.eye == b.1.eye && a.1.fovy == b.1.fovy
    ensures var (toUp, toDown, request) := PitchInputs(m, g, c, cam, nanos);
      !(toDown < toUp && toDown < -request) ==>
        UpdateCamera(m, g, c, cam, nanos) == UpdateCameraIntended(m, g, c, cam, nanos)
  {
    var (toUp, toDown, request) := PitchInputs(m, g, c, cam, nanos);
    if !(toDown < toUp && toDown < -request) {
      assert PitchChangeAsWritten(toUp, toDown, request) == PitchChange(toUp, toDown, request);
    }
  }

  /** The six movement flags. */
  function MovesOf(c: Controller): Moves
  {
    Moves(Up in c.held, Down in c.held, Forward in c.held, Backward in c.held, Left in c.held, Right in c.held)
  }

  /** A field of view inside [1, 179] stays inside it whichever keys are
      held, for a non-negative speed. */
  lemma FovStaysInRange(m: Math, g: Geometry, c: Controller, cam: Camera, nanos: nat)
    requires 0.0 <= c.speed && 1.0 <= cam.fovy <= 179.0
    ensures 1.0 <= UpdateCamera(m, g, c, cam, nanos).1.fovy <= 179.0
  {
    var s := FrameSpeed(c.speed, nanos);
    FovRange(cam.fovy, FovUp in c.held, FovDown in c.held, s);
  }

  lemma FovRange(fovy: real, up: bool, down: bool, s: real)
    requires 0.0 <= s && 1.0 <= fovy <= 179.0
    ensures 1.0 <= Fov(fovy, up, down, s) <= 179.0
  {
  }

  /** Holding both keys of each opposite movement pair, or neither, leaves
      the eye where it was. */
  lemma BalancedEyeStill(m: Math, g: Geometry, c: Controller, cam: Camera, nanos: nat)
    requires Balanced(MovesOf(c))
    ensures UpdateCamera(m, g, c, cam, nanos).1.eye == cam.eye
  {
  }

  /** An update right after another gathers no motion: the second one finds
      both look amounts at zero. */
  lemma UpdateConsumesLook(m: Math, g: Geometry, c: Controller, cam: Camera, nanos: nat)
    ensures var r := UpdateCamera(m, g, c, cam, nanos);
      UpdateCamera(m, g, r.0, r.1, nanos).0 == r.0
  {
  }
}
