/** What the two free-fly camera controllers (src/camera.rs and
    src/engine/camera.rs) have in common: the camera record, the six movement
    flags, the frame speed and the movement step that carries the eye and the
    target together. */
module CameraMotion {
  import opened Numerics

  /** `Camera`: the eye, the point looked at, the up direction and the
      projection parameters. */
  datatype Camera = Camera(eye: Vec3, target: Vec3, up: Vec3, aspect: real, fovy: real, znear: real, zfar: real)

  /** The six movement flags, `is_up_pressed` to `is_right_pressed`. */
  datatype Moves = Moves(up: bool, down: bool, forward: bool, backward: bool, left: bool, right: bool)

  const IDLE: Moves := Moves(false, false, false, false, false, false)

  /** Opposite flags agree, so that every move is undone by its opposite. */
  predicate Balanced(mv: Moves)
  {
    mv.forward == mv.backward && mv.left == mv.right && mv.up == mv.down
  }

  /** The library's angle between two vectors and rotation of a vector about
      an axis, which the model does not compute. */
  datatype Geometry = Geometry(angle: (Vec3, Vec3) -> real, rotate: (Vec3, real, Vec3) -> Vec3)

  /** A set of held flags with the flag of `a` set to `v`: `a` is held
      exactly when `v` is, and every other flag is unchanged. */
  function SetFlag<A(==,!new)>(held: set<A>, a: A, v: bool): (r: set<A>)
    ensures a in r <==> v
    ensures forall b | b != a :: b in r <==> b in held
  {
    if v then held + {a} else held - {a}
  }

  /** The distance moved per frame: the controller speed times the frame time
      in nanoseconds divided by 1 000 000, that is, in milliseconds. */
  function FrameSpeed(speed: real, nanos: nat): (s: real)
    ensures 0.0 <= speed ==> 0.0 <= s
    ensures nanos == 0 ==> s == 0.0
    ensures 0.0 < speed && 0 < nanos ==> 0.0 < s
  {
    var ms := nanos as real / 1000000.0;
    ProductSign(speed, ms);
    speed * ms
  }

  lemma ProductSign(a: real, b: real)
    ensures 0.0 <= a && 0.0 <= b ==> 0.0 <= a * b
    ensures 0.0 < a && 0.0 < b ==> 0.0 < a * b
  {
    if 0.0 <= a && 0.0 <= b {
      MulLeft(a, 0.0, b);
    }
    if 0.0 < a && 0.0 < b {
      MulLeftStrict(a, 0.0, b);
    }
  }

  /** The unit vector from the eye to the target. */
  function ForwardOf(m: Math, cam: Camera): Vec3
  {
    Normalize3(m, Sub3(cam.target, cam.eye))
  }

  /** The unit vector to the right of the forward direction. */
  function RightOf(m: Math, cam: Camera): Vec3
  {
    Normalize3(m, Cross3(ForwardOf(m, cam), cam.up))
  }

  /** The six conditional moves of a frame applied to one point, in the order
      the code applies them: forward then backward along `f`, right then left
      along `r`, up then down along `u`, each by `s`. */
  function Shift(p: Vec3, mv: Moves, f: Vec3, r: Vec3, u: Vec3, s: real): (q: Vec3)
    ensures Balanced(mv) ==> q == p
  {
    var p2 := Pair(p, mv.forward, mv.backward, Scale3(f, s));
    var p4 := Pair(p2, mv.right, mv.left, Scale3(r, s));
    Pair(p4, mv.up, mv.down, Scale3(u, s))
  }

  /** A move by `k` if the first flag is held, then back by `k` if the second
      is: both flags or neither leave the point where it is. */
  function Pair(p: Vec3, pos: bool, neg: bool, k: Vec3): (r: Vec3)
    ensures pos == neg ==> r == p
    ensures pos && !neg ==> r == Add3(p, k)
    ensures !pos && neg ==> r == Sub3(p, k)
  {
    var p1 := if pos then Add3(p, k) else p;
    if neg then Sub3(p1, k) else p1
  }

  /** The net move of a frame: each direction counted +1, -1 or 0 according
      to which of its two flags are held. */
  function Offset(mv: Moves, f: Vec3, r: Vec3, u: Vec3, s: real): Vec3
  {
    Add3(Add3(Scale3(Scale3(f, s), Net(mv.forward, mv.backward)),
              Scale3(Scale3(r, s), Net(mv.right, mv.left))),
         Scale3(Scale3(u, s), Net(mv.up, mv.down)))
  }

  function Net(pos: bool, neg: bool): real
  {
    (if pos then 1.0 else 0.0) - (if neg then 1.0 else 0.0)
  }

  /** The step is a translation by the net move, whatever the point. */
  lemma ShiftIsOffset(p: Vec3, mv: Moves, f: Vec3, r: Vec3, u: Vec3, s: real)
    ensures Shift(p, mv, f, r, u, s) == Add3(p, Offset(mv, f, r, u, s))
  {
    var a := Scale3(Scale3(f, s), Net(mv.forward, mv.backward));
    var b := Scale3(Scale3(r, s), Net(mv.right, mv.left));
    var c := Scale3(Scale3(u, s), Net(mv.up, mv.down));
    var p2 := Pair(p, mv.forward, mv.backward, Scale3(f, s));
    var p4 := Pair(p2, mv.right, mv.left, Scale3(r, s));
    PairIsScale(p, mv.forward, mv.backward, Scale3(f, s));
    PairIsScale(p2, mv.right, mv.left, Scale3(r, s));
    PairIsScale(p4, mv.up, mv.down, Scale3(u, s));
    assert Add3(Add3(Add3(p, a), b), c) == Add3(p, Add3(Add3(a, b), c));
  }

  /** One pair of opposite moves adds `k` scaled by the net count. */
  lemma PairIsScale(p: Vec3, pos: bool, neg: bool, k: Vec3)
    ensures Pair(p, pos, neg, k) == Add3(p, Scale3(k, Net(pos, neg)))
  {
    AxisStep(k, pos, neg);
  }

  /** One direction's contribution: `k` scaled by the net count is `k`, `-k`
      or zero. */
  lemma AxisStep(k: Vec3, pos: bool, neg: bool)
    ensures Scale3(k, Net(pos, neg)) ==
      if pos && !neg then k else if neg && !pos then Neg3(k) else ZERO3
  {
  }

  /** The eye and the target move by the same vector, so the direction looked
      along is kept. */
  lemma ShiftTogether(eye: Vec3, target: Vec3, mv: Moves, f: Vec3, r: Vec3, u: Vec3, s: real)
    ensures Sub3(Shift(target, mv, f, r, u, s), Shift(eye, mv, f, r, u, s)) == Sub3(target, eye)
  {
    ShiftIsOffset(eye, mv, f, r, u, s);
    ShiftIsOffset(target, mv, f, r, u, s);
  }
}
