/** The projectiles of the client (client/src/projectile.rs) and of the
    single-player game (src/projectile.rs): which inputs spawn one, the state
    it starts in, its straight flight and limited lifetime, and the test that
    removes the enemies it comes near. */
module Projectile {
  import opened Results
  import opened Numerics
  import Character
  import Input

  /** A projectile: the position of its transform, and the `Proj` component's
      velocity and remaining lifetime in seconds. */
  datatype Proj = Proj(translation: Vec3, velocity: Vec3, lifetime: real)

  /** What the player query yields: the camera orientation and the position. */
  datatype Shooter = Shooter(orientation: Character.CameraOrientation, translation: Vec3)

  /** A projectile starts 2 above the player, flies at 100 along the
      horizontal direction the camera faces, and lives for 5 seconds. */
  function Spawn(m: Math, s: Shooter): (p: Proj)
    ensures p.translation.x == s.translation.x && p.translation.z == s.translation.z
    ensures p.translation.y == s.translation.y + 2.0
    ensures p.velocity == Vec3(m.sin(s.orientation.yaw) * 100.0, 0.0, -m.cos(s.orientation.yaw) * 100.0)
    ensures p.lifetime == 5.0
  {
    Proj(Add3(s.translation, Scale3(Vec3(0.0, 1.0, 0.0), 2.0)),
         Scale3(Character.XyVector(m, s.orientation), 100.0),
         5.0)
  }

  /** A new projectile's speed is 100: its squared length is 10000. */
  lemma SpawnSpeed(m: Math, s: Shooter)
    requires Lawful(m)
    ensures LengthSq3(Spawn(m, s).velocity) == 10000.0
  {
    Character.XyVectorUnit(m, s.orientation);
    LengthSq3Scale(Character.XyVector(m, s.orientation), 100.0);
  }

  /** The client's input events that fire: the two click combinations. */
  predicate Fires(e: Input.InputEvent)
  {
    e.LRClick? || e.BClick?
  }

  /** How many of the events fire. */
  function Triggers(events: seq<Input.InputEvent>): nat
  {
    if events == [] then 0
    else Triggers(events[..|events| - 1]) + (if Fires(events[|events| - 1]) then 1 else 0)
  }

  /** Other events never add a projectile. */
  lemma TriggersIgnoresOthers(events: seq<Input.InputEvent>, e: Input.InputEvent)
    requires !Fires(e)
    ensures Triggers(events + [e]) == Triggers(events)
  {
    assert (events + [e])[..|events|] == events;
  }

  /** The client's `update`: each firing event spawns a projectile from the
      player; without a player it returns at the first firing event, and as
      nothing can have been spawned before, it spawns nothing at all. */
  method ClientUpdate(m: Math, events: seq<Input.InputEvent>, player: Option<Shooter>)
    returns (spawned: seq<Proj>)
    ensures player.None? ==> spawned == []
    ensures player.Some? ==> |spawned| == Triggers(events)
    ensures forall i | 0 <= i < |spawned| :: player.Some? && spawned[i] == Spawn(m, player.value)
  {
    spawned := [];
    for k := 0 to |events|
      invariant player.None? ==> spawned == []
      invariant player.Some? ==> |spawned| == Triggers(events[..k])
      invariant forall i | 0 <= i < |spawned| :: player.Some? && spawned[i] == Spawn(m, player.value)
    {
      assert events[..k + 1][..k] == events[..k];
      if Fires(events[k]) {
        match player {
          case None =>
            return;
          case Some(s) =>
            spawned := spawned + [Spawn(m, s)];
        }
      }
    }
    assert events[..|events|] == events;
  }

  /** The single-player `update`: while the left button is held, one
      projectile per frame, provided there is a player. */
  function ServerUpdate(m: Math, leftPressed: bool, player: Option<Shooter>): (r: Option<Proj>)
    ensures r.Some? <==> leftPressed && player.Some?
    ensures r.Some? ==> r.value == Spawn(m, player.value)
  {
    if leftPressed then
      match player
      case None => None
      case Some(s) => Some(Spawn(m, s))
    else None
  }

  /** The projectiles of a run of frames, one entry per frame in which the
      left button is held. */
  function ServerFrames(m: Math, held: seq<bool>, player: Option<Shooter>): seq<Proj>
  {
    if held == [] then []
    else
      var last := ServerUpdate(m, held[|held| - 1], player);
      ServerFrames(m, held[..|held| - 1], player) + (if last.Some? then [last.value] else [])
  }

  /** How many frames the button is held in. */
  function HeldFrames(held: seq<bool>): nat
  {
    if held == [] then 0 else HeldFrames(held[..|held| - 1]) + (if held[|held| - 1] then 1 else 0)
  }

  /** Holding the button keeps firing: with a player, every frame it is held
      adds exactly one projectile, not only the frame it goes down. */
  lemma {:induction false} ServerFiresWhileHeld(m: Math, held: seq<bool>, s: Shooter)
    ensures |ServerFrames(m, held, Some(s))| == HeldFrames(held)
    ensures forall i | 0 <= i < |ServerFrames(m, held, Some(s))| :: ServerFrames(m, held, Some(s))[i] == Spawn(m, s)
  {
    if held != [] {
      ServerFiresWhileHeld(m, held[..|held| - 1], s);
    }
  }

  /** `move_proj`: one frame of `dt` seconds moves the projectile by its
      velocity times `dt` and takes `dt` off its lifetime; it is despawned
      exactly when the lifetime left is at most zero. */
  function Move(p: Proj, dt: real): (r: Option<Proj>)
    ensures r.Some? <==> 0.0 < p.lifetime - dt
    ensures r.Some? ==> r.value.velocity == p.velocity && r.value.lifetime == p.lifetime - dt
  {
    var moved := p.(translation := Add3(p.translation, Scale3(p.velocity, dt)), lifetime := p.lifetime - dt);
    if moved.lifetime <= 0.0 then None else Some(moved)
  }

  /** A run of frames with the given frame times; `None` once despawned. A
      projectile that is still there keeps its velocity, and after at least
      one frame it has lifetime left. */
  function Fly(p: Proj, dts: seq<real>): (r: Option<Proj>)
    ensures r.Some? ==> r.value.velocity == p.velocity
    ensures r.Some? && dts != [] ==> 0.0 < r.value.lifetime
    decreases |dts|
  {
    if dts == [] then Some(p)
    else
      match Move(p, dts[0])
      case None => None
      case Some(q) => Fly(q, dts[1..])
  }

  function Sum(dts: seq<real>): real
  {
    if dts == [] then 0.0 else dts[0] + Sum(dts[1..])
  }

  /** A projectile flies in a straight line at constant velocity: while it
      lives, it is where its velocity times the elapsed time puts it, and its
      lifetime has dropped by the elapsed time. */
  lemma {:induction false} FlyStraight(p: Proj, dts: seq<real>)
    ensures Fly(p, dts).Some? ==>
      && Fly(p, dts).value.velocity == p.velocity
      && Fly(p, dts).value.lifetime == p.lifetime - Sum(dts)
      && Fly(p, dts).value.translation == Add3(p.translation, Scale3(p.velocity, Sum(dts)))
    decreases |dts|
  {
    if dts != [] {
      match Move(p, dts[0])
      case None =>
      case Some(q) =>
        FlyStraight(q, dts[1..]);
        Scale3Add(p.velocity, dts[0], Sum(dts[1..]));
    }
  }

  /** Lifetimes run out: with every frame at least `d` long, a projectile is
      gone after any run of frames whose minimum total reaches its lifetime. */
  lemma {:induction false} FlyExpires(p: Proj, dts: seq<real>, d: real)
    requires 0.0 < d && 0 < |dts|
    requires forall i | 0 <= i < |dts| :: d <= dts[i]
    requires p.lifetime <= |dts| as real * d
    ensures Fly(p, dts).None?
    decreases |dts|
  {
    match Move(p, dts[0])
    case None =>
    case Some(q) =>
      assert |dts| != 1;
      assert forall i | 0 <= i < |dts[1..]| :: d <= dts[1..][i] by {
        forall i | 0 <= i < |dts[1..]| ensures d <= dts[1..][i] {
          assert dts[1..][i] == dts[i + 1];
        }
      }
      FlyExpires(q, dts[1..], d);
  }

  /** A new projectile is gone after five seconds of frames at least `d`
      long. */
  lemma SpawnExpires(m: Math, s: Shooter, dts: seq<real>, d: real)
    requires 0.0 < d && 5.0 <= |dts| as real * d
    requires forall i | 0 <= i < |dts| :: d <= dts[i]
    ensures Fly(Spawn(m, s), dts).None?
  {
    FlyExpires(Spawn(m, s), dts, d);
  }

  /** `move_proj_b`'s test: an enemy is hit by a projectile closer than 4. */
  predicate Hit(m: Math, enemy: Vec3, proj: Vec3)
  {
    Length3(m, Sub3(enemy, proj)) < 4.0
  }

  /** The distance test is the squared-distance test against 16. */
  lemma HitWithinSquare(m: Math, enemy: Vec3, proj: Vec3)
    requires Lawful(m)
    ensures Hit(m, enemy, proj) <==> LengthSq3(Sub3(enemy, proj)) < 16.0
  {
    LengthSq3NonNegative(Sub3(enemy, proj));
    SqrtBelow(m, LengthSq3(Sub3(enemy, proj)), 4.0);
  }

  /** `move_proj_b`: for every projectile and every enemy, the enemy is
      despawned when the projectile is within reach. The result is the set of
      indices of the despawned enemies. */
  method HitEnemies(m: Math, projs: seq<Vec3>, enemies: seq<Vec3>) returns (despawned: set<nat>)
    ensures forall e: nat :: e in despawned <==>
      e < |enemies| && exists k | 0 <= k < |projs| :: Hit(m, enemies[e], projs[k])
  {
    despawned := {};
    for j := 0 to |projs|
      invariant forall e: nat :: e in despawned <==>
        e < |enemies| && exists k | 0 <= k < j :: Hit(m, enemies[e], projs[k])
    {
      for i := 0 to |enemies|
        invariant forall e: nat :: e in despawned <==>
          e < |enemies| && ((exists k | 0 <= k < j :: Hit(m, enemies[e], projs[k])) ||
                            (e < i && Hit(m, enemies[e], projs[j])))
      {
        if Hit(m, enemies[i], projs[j]) {
          despawned := despawned + {i};
        }
      }
    }
  }
}
