/** The client's input layer: each bound key is classified into one of four
    states, the eight logical buttons are read through the user's key
    bindings, and a small chord language decides which combo, if any, fires
    this frame. */
module Input {
  import opened Results
  import KeyCodes

  datatype InputState = Unpressed | JustPressed | JustReleased | Held

  /** What the engine's button tracker reports for one button this frame. */
  datatype ButtonSample = ButtonSample(justPressed: bool, justReleased: bool, pressed: bool)

  /** The engine's mouse buttons; only the left one is bound. */
  datatype MouseButton = LeftButton | RightButton | MiddleButton | OtherButton(id: nat)

  /** The user's settings that the input layer reads: four movement keys in
      the order up, left, down, right, and two special keys. */
  datatype Config = Config(
    sens: real,
    zoomSens: real,
    movement: seq<KeyCodes.KeyCode>,
    specials: seq<KeyCodes.KeyCode>,
    jump: KeyCodes.KeyCode,
    dash: KeyCodes.KeyCode)

  /** The fixed array lengths of the configuration's key lists. */
  predicate WellFormed(c: Config)
  {
    |c.movement| == 4 && |c.specials| == 2
  }

  datatype InputMatrix = InputMatrix(
    back: InputState,
    forward: InputState,
    left: InputState,
    right: InputState,
    dash: InputState,
    spec1: InputState,
    spec2: InputState,
    click: InputState)

  datatype InputEvent = LRClick | BClick | FClick | FSpec1

  /** `do_match`: a fresh press wins over a release in the same frame, which
      wins over a held button. */
  function DoMatch(s: ButtonSample): (r: InputState)
    ensures r == JustPressed <==> s.justPressed
    ensures r == JustReleased <==> !s.justPressed && s.justReleased
    ensures r == Held <==> !s.justPressed && !s.justReleased && s.pressed
    ensures r == Unpressed <==> !s.justPressed && !s.justReleased && !s.pressed
  {
    if s.justPressed then JustPressed
    else if s.justReleased then JustReleased
    else if s.pressed then Held
    else Unpressed
  }

  /** The sample that raises only the flag of a state. */
  function Canonical(st: InputState): ButtonSample
  {
    match st
    case Unpressed => ButtonSample(false, false, false)
    case JustPressed => ButtonSample(true, false, false)
    case JustReleased => ButtonSample(false, true, false)
    case Held => ButtonSample(false, false, true)
  }

  /** Every state is reachable, and classifying its canonical sample gives
      it back. */
  lemma DoMatchCanonical(st: InputState)
    ensures DoMatch(Canonical(st)) == st
  {
  }

  /** Adding the `pressed` flag to a fresh press or a release does not change
      its classification: the flags are read in priority order. */
  lemma DoMatchPriority(s: ButtonSample)
    requires s.justPressed || s.justReleased
    ensures DoMatch(s.(pressed := true)) == DoMatch(s)
  {
  }

  /** `input_matrix`: each logical button reads the key the configuration
      binds to it, and `click` reads the left mouse button. */
  function Matrix(c: Config, keys: KeyCodes.KeyCode -> ButtonSample, mouse: MouseButton -> ButtonSample): (m: InputMatrix)
    requires WellFormed(c)
    ensures m.forward == DoMatch(keys(c.movement[0]))
    ensures m.left == DoMatch(keys(c.movement[1]))
    ensures m.back == DoMatch(keys(c.movement[2]))
    ensures m.right == DoMatch(keys(c.movement[3]))
    ensures m.dash == DoMatch(keys(c.dash))
    ensures m.spec1 == DoMatch(keys(c.specials[0])) && m.spec2 == DoMatch(keys(c.specials[1]))
    ensures m.click == DoMatch(mouse(LeftButton))
  {
    InputMatrix(
      back := DoMatch(keys(c.movement[2])),
      forward := DoMatch(keys(c.movement[0])),
      left := DoMatch(keys(c.movement[1])),
      right := DoMatch(keys(c.movement[3])),
      dash := DoMatch(keys(c.dash)),
      spec1 := DoMatch(keys(c.specials[0])),
      spec2 := DoMatch(keys(c.specials[1])),
      click := DoMatch(mouse(LeftButton)))
  }

  /** The keyboard on which only `k` was pressed this frame. */
  function OnlyPressed(k: KeyCodes.KeyCode): KeyCodes.KeyCode -> ButtonSample
  {
    (x: KeyCodes.KeyCode) => if x == k then Canonical(JustPressed) else Canonical(Unpressed)
  }

  /** The mouse with no button down. */
  function NoMouse(): MouseButton -> ButtonSample
  {
    (b: MouseButton) => Canonical(Unpressed)
  }

  /** Pressing the first movement key of a configuration whose movement keys
      are distinct and differ from the dash key reads as a fresh `forward`
      and nothing else among the movement, dash and click buttons. */
  lemma PressForwardOnly(c: Config)
    requires WellFormed(c)
    requires forall i, j | 0 <= i < j < 4 :: c.movement[i] != c.movement[j]
    requires c.dash != c.movement[0]
    ensures var m := Matrix(c, OnlyPressed(c.movement[0]), NoMouse());
      m.forward == JustPressed && m.left == Unpressed && m.back == Unpressed &&
      m.right == Unpressed && m.dash == Unpressed && m.click == Unpressed
  {
    var m := Matrix(c, OnlyPressed(c.movement[0]), NoMouse());
    assert c.movement[0] != c.movement[1] && c.movement[0] != c.movement[2] && c.movement[0] != c.movement[3];
  }

  /** The names a chord can test, one per field of the matrix. */
  datatype Slot = Back | Forward | Left | Right | Dash | Spec1 | Spec2 | Click

  function Get(m: InputMatrix, s: Slot): InputState
  {
    match s
    case Back => m.back
    case Forward => m.forward
    case Left => m.left
    case Right => m.right
    case Dash => m.dash
    case Spec1 => m.spec1
    case Spec2 => m.spec2
    case Click => m.click
  }

  /** One clause of the `keys!` language, `a | b is S | T`: some of the named
      buttons is in one of the named states. The macro's `@in @or` arm takes
      one or two buttons per clause; the model allows any number, which
      includes every clause the macro accepts. */
  datatype Clause = Clause(slots: seq<Slot>, states: set<InputState>)

  /** The `@in @or` arm of `keys!`: a disjunction over the clause's buttons,
      tried left to right. */
  function AnyIn(m: InputMatrix, slots: seq<Slot>, states: set<InputState>): (r: bool)
    ensures r <==> exists j | 0 <= j < |slots| :: Get(m, slots[j]) in states
  {
    if |slots| == 0 then false
    else if Get(m, slots[0]) in states then true
    else
      var rest := AnyIn(m, slots[1..], states);
      assert forall j | 1 <= j < |slots| :: slots[j] == slots[1..][j - 1];
      rest
  }

  /** The meaning of one clause: some of its buttons is in one of its
      states. */
  ghost predicate Holds(m: InputMatrix, c: Clause)
  {
    exists j | 0 <= j < |c.slots| :: Get(m, c.slots[j]) in c.states
  }

  /** `keys!`: a conjunction over the comma-separated clauses. */
  function Keys(m: InputMatrix, clauses: seq<Clause>): (r: bool)
    ensures r <==> forall i | 0 <= i < |clauses| :: Holds(m, clauses[i])
  {
    if |clauses| == 0 then true
    else
      var first := AnyIn(m, clauses[0].slots, clauses[0].states);
      var rest := Keys(m, clauses[1..]);
      assert forall i | 1 <= i < |clauses| :: clauses[i] == clauses[1..][i - 1];
      first && rest
  }

  /** `keys_basic!`: one pattern match per button, all of which must hold. */
  function KeysBasic(m: InputMatrix, pats: seq<(Slot, set<InputState>)>): (r: bool)
    ensures r <==> forall i | 0 <= i < |pats| :: Get(m, pats[i].0) in pats[i].1
  {
    if |pats| == 0 then true
    else
      var rest := KeysBasic(m, pats[1..]);
      assert forall i | 1 <= i < |pats| :: pats[i] == pats[1..][i - 1];
      Get(m, pats[0].0) in pats[0].1 && rest
  }

  /** The clauses of a `keys_basic!` pattern list, one button each. */
  function Singletons(pats: seq<(Slot, set<InputState>)>): (cs: seq<Clause>)
    ensures |cs| == |pats|
    ensures forall i | 0 <= i < |pats| :: cs[i] == Clause([pats[i].0], pats[i].1)
  {
    if |pats| == 0 then [] else [Clause([pats[0].0], pats[0].1)] + Singletons(pats[1..])
  }

  /** `keys_basic!` is the special case of `keys!` with one button per
      clause. */
  lemma KeysBasicIsKeys(m: InputMatrix, pats: seq<(Slot, set<InputState>)>)
    ensures KeysBasic(m, pats) == Keys(m, Singletons(pats))
  {
    var cs := Singletons(pats);
    if KeysBasic(m, pats) {
      forall i | 0 <= i < |cs|
        ensures Holds(m, cs[i])
      {
        assert cs[i].slots[0] == pats[i].0;
      }
    }
  }

  /** The chords of `update`, in the order they are tried. */
  const LR_CLICK: seq<Clause> := [Clause([Click], {JustPressed}), Clause([Left, Right], {Held, JustPressed})]
  const B_CLICK: seq<Clause> := [Clause([Click], {JustPressed}), Clause([Back], {Held, JustPressed})]
  const DASH_FORWARD: seq<Clause> := [Clause([Dash], {JustPressed}), Clause([Forward], {Held})]
  const SPEC1_FORWARD: seq<Clause> := [Clause([Spec1], {JustPressed}), Clause([Forward], {Held, JustPressed})]

  /** `update`: the first chord that matches decides the frame's event. The
      dash chord matches but sends nothing, so it hides the chords after it;
      at most one event is sent per frame. */
  function Update(m: InputMatrix): (r: Option<InputEvent>)
    ensures r != Some(FClick)
    ensures r == Some(FSpec1) ==> !Keys(m, LR_CLICK) && !Keys(m, B_CLICK) && !Keys(m, DASH_FORWARD)
    ensures r == Some(BClick) ==> !Keys(m, LR_CLICK)
  {
    if Keys(m, LR_CLICK) then Some(LRClick)
    else if Keys(m, B_CLICK) then Some(BClick)
    else if Keys(m, DASH_FORWARD) then None
    else if Keys(m, SPEC1_FORWARD) then Some(FSpec1)
    else None
  }

  predicate Active(st: InputState)
  {
    st == Held || st == JustPressed
  }

  /** Which event a frame sends, stated directly on the matrix: a left or
      right click combo wins, then a back click combo, and the special combo
      only when neither click combo nor the dash chord matches. `FClick` is
      never sent. */
  lemma UpdateEvents(m: InputMatrix)
    ensures Update(m) == Some(LRClick) <==> m.click == JustPressed && (Active(m.left) || Active(m.right))
    ensures Update(m) == Some(BClick) <==>
      m.click == JustPressed && !Active(m.left) && !Active(m.right) && Active(m.back)
    ensures Update(m) == Some(FSpec1) <==>
      !(m.click == JustPressed && (Active(m.left) || Active(m.right) || Active(m.back))) &&
      !(m.dash == JustPressed && m.forward == Held) &&
      m.spec1 == JustPressed && Active(m.forward)
    ensures Update(m) != Some(FClick)
  {
    var lr, b, d, s := Keys(m, LR_CLICK), Keys(m, B_CLICK), Keys(m, DASH_FORWARD), Keys(m, SPEC1_FORWARD);
    assert lr <==> m.click == JustPressed && (Active(m.left) || Active(m.right)) by {
      assert LR_CLICK[0].slots[0] == Click;
      assert LR_CLICK[1].slots[0] == Left && LR_CLICK[1].slots[1] == Right;
    }
    assert b <==> m.click == JustPressed && Active(m.back) by {
      assert B_CLICK[0].slots[0] == Click && B_CLICK[1].slots[0] == Back;
    }
    assert d <==> m.dash == JustPressed && m.forward == Held by {
      assert DASH_FORWARD[0].slots[0] == Dash && DASH_FORWARD[1].slots[0] == Forward;
    }
    assert s <==> m.spec1 == JustPressed && Active(m.forward) by {
      assert SPEC1_FORWARD[0].slots[0] == Spec1 && SPEC1_FORWARD[1].slots[0] == Forward;
    }
  }

  /** A dash started while moving forward swallows the special combo pressed
      in the same frame, unless a click combo fires first. */
  lemma DashHidesSpecial(m: InputMatrix)
    requires m.dash == JustPressed && m.forward == Held && m.spec1 == JustPressed
    requires m.click != JustPressed
    ensures Update(m) == None
  {
    UpdateEvents(m);
  }
}
