# A verified model of the game's movement, input and camera logic

The game is a small Bevy/wgpu shooter. Underneath its engine wiring sit
several small pieces of sequential logic, and this project models each of
them in Dafny as immutable records and pure functions:

- **Character controller** (src/main.rs). The orbiting camera is steered by
  the mouse: look, pitch and zoom deltas, then clamps. Escape toggles whether
  mouse input is swallowed. Each frame, one movement step turns the player's
  physics into new physics and a new position:
  - the held keys give an intent;
  - the intent is turned by the camera yaw;
  - the player is classified as grounded or airborne;
  - gravity applies;
  - friction applies, in two regimes;
  - acceleration is added and the speed clamped;
  - a dash starts if the cooldown allows, and its piecewise falloff applies;
  - the position is integrated;
  - the player lands, or jumps.
- **Input layer** (client/src/input.rs). Each bound button is classified into
  four states with a fixed priority. The configuration's keys become a matrix
  of eight logical buttons. The `keys!`/`keys_basic!` chord language is
  modelled, and so is the ordered chain in `update` that sends at most one
  combo event per frame.
- **Keybind parser** (src/config_read.rs). Key names are looked up in the name
  table. A bare string is read as a single bind. A list is read as exactly
  N binds. Errors name the failing key or the wrong length.
- **Numeric helpers** (client/src/utils.rs, src/lib.rs). These are the
  clamped linear `remap`, the 2-D rotation, and the projections between the
  ground plane and space.
- **Free-fly cameras** (src/camera.rs, src/engine/camera.rs). Key flags are
  set by events, and each event reports whether it was consumed. Movement
  carries the eye and the target together. The engine camera also has:
  - a mouse-look accumulator that every update empties;
  - a pitch change limited near the poles;
  - field-of-view keys clamped to [1, 179].
- **Projectiles** (client/src/projectile.rs, src/projectile.rs). The model
  covers which inputs spawn one and its starting state. It flies straight at
  constant velocity, its lifetime runs down until it despawns, and enemies
  within reach of a projectile are removed.

`f32` is modelled as `real`. `EPSILON` is 2^-23 and `PI` is the `f32` nearest
to pi. The library functions `sqrt`, `sin`, `cos` and `atan2` are fields of a
`Math` record, and are constrained only by `Lawful(m)`. `Lawful(m)` says that
`sqrt` returns the non-negative root and that `sin² + cos² = 1`. The engine
camera's vector angle and quaternion rotation are likewise fields of a
`Geometry` record, with no laws. The clock, the frame time and the set of held
keys are parameters. Where the code writes `powf(0.5)`, the model uses `sqrt`.

Modules: `Results` (Option/Result), `Numerics` (constants, vectors, square
roots), `KeyCodes` (the 163 key codes and the name table), `Utils`,
`ConfigRead`, `Input`, `Character`, `CameraMotion` (shared by both cameras),
`FlyCamera`, `EngineCamera` and `Projectile`.

## Model

| member | source | states |
|---|---|---|
| Utils.Remap | client/src/utils.rs:5-26 | An input at or below `src_min` gives `dest_min`. An input above `src_min` and at or above `src_max` gives `dest_max`. The result always lies between the two destination bounds, whichever order they are in. The copy in src/lib.rs:4-25 is the same function. |
| Utils.Fraction | client/src/utils.rs:19-21 | The division is reached only with `0 < off < src_max - src_min`. So its divisor is positive and the quotient is a proper fraction, even when `src_min >= src_max`. |
| Utils.Interpolate | client/src/utils.rs:23-25 | `dest_min + range * pct` with `0 < pct < 1` lies between `dest_min` and `dest_max`. |
| Utils.RemapMonotone | src/lib.rs:13-24 | With ordered source and destination bounds, `remap` is monotone in its input. |
| Utils.RotateZero | src/lib.rs:34-41 | Rotating the zero vector gives the zero vector, whatever the angle. |
| Utils.Rotate | client/src/utils.rs:35-41 | The rotated vector has the same length as the input, whatever the angle, given `sin² + cos² = 1` and the non-negative square root. |
| Utils.RotatePreservesLength | client/src/utils.rs:35-41 | Given `sin² + cos² = 1`, rotation keeps the length of every vector. |
| Utils.Xz3WithY | client/src/utils.rs:75-77 | Projecting `xz3_withy(v, y)` back to the ground plane gives `v`, and its height is `y`. |
| Utils.Xz2 | client/src/utils.rs:59-63 | The ground-plane part of a point keeps its `x`, and takes `z` as its second coordinate. |
| Utils.Xz3 | client/src/utils.rs:71-73 | `xz3(v)` is `xz3_withy(v, 0)`, which is `(v.x, 0, v.y)`. |
| Utils.XzRoundTrip | client/src/utils.rs:59-78 | A 3-vector rebuilt from its ground projection and its own height is the same vector. |
| Numerics.Clamp | src/main.rs:261-265 | `x.max(lo).min(hi)` with `lo <= hi` lies in `[lo, hi]`. It is `x` when `x` is inside, `lo` below and `hi` above. |
| Numerics.Normalize2Unit | src/main.rs:348-350 | Normalising a non-zero vector gives length 1. The speed clamp relies on this. |
| Numerics.Length2Scale | src/main.rs:348-350 | Scaling a vector scales its length by the absolute value of the factor. |
| KeyCodes.DecodeTable | src/config_read.rs:96-110 | Every name in the table decodes to its own key code, so the names are distinct. |
| ConfigRead.FindNameFirst | src/config_read.rs:113-115 | The lookup fails exactly when no entry has that name. A successful lookup returns the key of an entry with that name, and no earlier entry has it. |
| ConfigRead.StrToKeybind | src/config_read.rs:117-120 | A failed lookup reports that the string is not the name of a key. |
| ConfigRead.StrToKeybindRefuses | src/config_read.rs:112-121 | A string is refused exactly when no table name equals it; the match is exact and case-sensitive. Any accepted string is the name of the key returned. |
| ConfigRead.StrToKeybindTable | src/config_read.rs:107-121 | Every `(name, code)` entry of the table is accepted and gives `code`. |
| ConfigRead.VisitStr | src/config_read.rs:66-75 | A bare string is accepted only when N = 1. It then gives the one key, or the name error. For every other N it is an error. |
| ConfigRead.ParseFromOk | src/config_read.rs:77-91 | The loop succeeds exactly when the list has at least N elements and the first N are all names. It then returns those N keys in list order. |
| ConfigRead.ParseFrom | src/config_read.rs:77-91 | A successful loop from position `i` gives exactly `N - i` keys. When it has any key to read, it succeeds only on a list of at least N elements. |
| ConfigRead.ParseFromStep | src/config_read.rs:82-89 | A key read at position `i` goes in front of the keys the rest of the loop reads, in order. |
| ConfigRead.VisitSeqOk | src/config_read.rs:77-91 | `visit_seq` succeeds exactly when the first N elements exist and are all names, and returns them in order. |
| ConfigRead.VisitSeq | src/config_read.rs:77-91 | A successful `visit_seq` gives exactly N keys, and for N > 0 the list has at least N elements. |
| ConfigRead.ParseFromShort | src/config_read.rs:84-87 | A list shorter than N, whose elements are all names, fails with an invalid length equal to the number of elements supplied. |
| ConfigRead.ParseFromFirstBad | src/config_read.rs:88 | The first bad name among the first N aborts the whole parse with that name's error. |
| ConfigRead.KeybindList | src/config_read.rs:38-42 | A successful `keybind_list` gives exactly N keys. A list is read successfully only when it has exactly N elements. A value that is neither a string nor a list is refused with a type error. |
| ConfigRead.KeybindListOfList | src/config_read.rs:38-42 | A list is accepted exactly when it has N elements that are all names, and it gives those keys in order. |
| ConfigRead.KeybindListTooLong | src/config_read.rs:157-166 | A list longer than N is rejected as a whole, by the trailing-element check, with its full length. |
| ConfigRead.KeybindListTooShort | src/config_read.rs:169-178 | A list shorter than N is rejected with the number of elements supplied. |
| ConfigRead.KeybindEitherForm | src/config_read.rs:51-56 | `keybind` treats a string like a one-element list. It gives that key or the name error. |
| ConfigRead.Keybind | src/config_read.rs:51-56 | A string reads as its key or as the name error. A list reads only when it has exactly one element that names a key, and then gives that key. Anything else is refused with a type error. |
| ConfigRead.DefaultKeyNames | src/config_read.rs:107-121 | `W`, `A`, `S`, `D`, `Space` and `J` read as the keys of the same names. |
| ConfigRead.ReadsMovementKeys | src/config_read.rs:142-154 | `["W", "A", "S", "D"]` read as four binds gives `[W, A, S, D]`. |
| ConfigRead.ReadsSingleKeys | src/config_read.rs:204-217 | `Space` as a string and `["J"]` as a list are both read as single binds. |
| ConfigRead.RejectsLongList | src/config_read.rs:156-166 | Five names for four binds: invalid length 5, expected 4 elements. |
| ConfigRead.RejectsShortList | src/config_read.rs:168-178 | Two names for four binds: invalid length 2, expected 4 keybinds. |
| ConfigRead.RejectsListForSingle | src/config_read.rs:180-190 | Two names for a single bind: invalid length 2, expected 1 element. |
| ConfigRead.RejectsUnknownName | src/config_read.rs:192-202 | `NOTKEY` is rejected as not the name of a key. |
| Input.DoMatch | client/src/input.rs:87-95 | `JustPressed` if just pressed. Otherwise `JustReleased` if just released. Otherwise `Held` if pressed. Otherwise `Unpressed`. Each is stated as an iff over the three flags. |
| Input.DoMatchCanonical | client/src/input.rs:63-68 | Every one of the four states is produced by some sample. |
| Input.DoMatchPriority | client/src/input.rs:89-93 | A fresh press or a release is not changed by the button also being down. |
| Input.Matrix | client/src/input.rs:97-108 | Forward, left, back and right are read from `movement[0]`, `[1]`, `[2]` and `[3]`. Dash is read from `dash`, spec1/spec2 from `specials[0]`/`[1]`, and click from the left mouse button. |
| Input.PressForwardOnly | client/src/input.rs:97-108 | With distinct movement keys, pressing the first one reads as a fresh `forward` and leaves the others unpressed. |
| Input.AnyIn | client/src/input.rs:43-51 | One clause holds when some of its buttons is in one of its states. |
| Input.Keys | client/src/input.rs:21-52 | `keys!` is a conjunction over its clauses, each a disjunction over its buttons. |
| Input.KeysBasic | client/src/input.rs:7-16 | `keys_basic!` holds when every button matches its own pattern. |
| Input.KeysBasicIsKeys | client/src/input.rs:7-52 | `keys_basic!` is `keys!` with one button per clause. |
| Input.UpdateEvents | client/src/input.rs:125-145 | LRClick is sent iff click is JustPressed and left or right is Held/JustPressed. BClick is sent iff the same holds for back and not for left or right. FSpec1 is sent only when neither click combo nor the dash chord matches. FClick is never sent, and at most one event goes out per frame. |
| Input.Update | client/src/input.rs:125-145 | `FClick` is never sent. `FSpec1` is sent only when neither click combo nor the dash chord matches. `BClick` is sent only when the left/right click combo does not match. |
| Input.DashHidesSpecial | client/src/input.rs:135-145 | A dash press with forward held sends nothing, even when spec1 is pressed in the same frame, unless a click combo fires. |
| Character.DefaultCamera | src/main.rs:63-74 | The default orientation is within the mouse handler's pitch and distance limits, with zero yaw and roll. |
| Character.DefaultPhysics | src/main.rs:92-103 | By default the player is at rest under a constant gravity of 9.8, with no jump or dash yet. |
| Character.SpawnPhysics | src/main.rs:145-155 | The spawned player is at rest under a constant gravity of 30, with its last jump at -100. |
| Character.SpawnProperties | src/main.rs:140-144 | The ground speed is 15 and positive, the air speed 1 is below it, the acceleration is ten times the ground speed, and the cooldown is 0.5. |
| Character.Window | src/main.rs:219-224 | Escape flips whether mouse input is swallowed. Without Escape nothing changes. |
| Character.WindowTwice | src/main.rs:219-224 | Escape twice restores the original state. |
| Character.SumMotionAppend | src/main.rs:240-243 | Accumulating two batches of motion in turn equals accumulating them together. |
| Character.MouseLook | src/main.rs:232-266 | When input is swallowed, the camera is unchanged. Otherwise yaw moves by the summed motion times the sensitivity and is not clamped. Pitch is the old pitch minus the summed vertical motion times the sensitivity, clamped to `[EPSILON, PI - EPSILON]`. Distance is the old distance minus the summed wheel times the zoom sensitivity, clamped to `[5, 100]`. Each case of the clamps is stated. |
| Character.MouseLookIdle | src/main.rs:240-265 | A frame without mouse events leaves a camera that is within its limits exactly where it was. |
| Character.MouseLookYawAdditive | src/main.rs:254-257 | Two frames of motion turn the yaw as far as one frame with all their events. |
| Character.Intent | src/main.rs:287-300 | Up and down set the y axis, and right and left set the x axis. Each held key adds or takes one, so opposite keys cancel. |
| Character.IntentZero | src/main.rs:287-300 | The intent is zero exactly when each opposite pair is both held or both released. |
| Character.IntentNotNormalized | src/main.rs:302-304 | The discarded `normalize` leaves diagonals at squared length 2. |
| Character.Direction | src/main.rs:287-308 | The intent turned by the camera yaw keeps its length, so turning never changes how hard the keys push. |
| Character.DirectionNoKeys | src/main.rs:287-308 | With no movement key held, the turned direction is the zero vector. |
| Character.NoKeysNoAcceleration | src/main.rs:316-322 | With no movement key held, there is no walking acceleration, on the ground or in the air. |
| Character.Acceleration | src/main.rs:316-322 | On the ground the speeds cancel, so the acceleration is the direction times the acceleration constant. In the air it is the direction times the acceleration times air speed over ground speed. A zero direction gives zero. |
| Character.NextPhysicsFromRest | src/main.rs:316-350 | One grounded frame from rest with a movement key held walks at the direction times the acceleration times `dt`, when that is within the ground speed. |
| Character.WalkFromRest | src/main.rs:330-350 | From rest on the ground, friction leaves zero, so the walking velocity is the acceleration times `dt` when that is within the speed. |
| Character.Gravity | src/main.rs:324-328 | Only the vertical velocity changes, lowered by the gravity function at the time since the last jump, times the frame time. |
| Character.Friction | src/main.rs:330-345 | On the ground, a walking speed below 0.1 is cancelled exactly. |
| Character.FrictionAlongVelocity | src/main.rs:336-344 | At or above 0.1, friction rescales the velocity along itself by `1 - 5 dt - 15 dt / |w|`. |
| Character.ClampSpeed | src/main.rs:348-350 | A velocity within the ground speed is kept unchanged. |
| Character.ClampSpeedBound | src/main.rs:348-350 | After the clamp the speed is at most the ground speed, and exactly the ground speed when the input was faster. A faster input is rescaled along itself, to `w * (s / length(w))`. |
| Character.DashGate | src/main.rs:353-358 | The dash restarts now only when the key is held and `last_dash < now - cooldown`, with a strict inequality. Otherwise `last_dash` is kept. |
| Character.DashCooldownRespected | src/main.rs:353-358 | After a dash starts, no other starts until strictly more than the cooldown has passed. |
| Character.DashFalloffRange | src/main.rs:360-370 | The falloff is 1 for `t <= 0.5` and 0 for `t >= 1`. It lies in [0, 1] and is below 1 after 0.5. |
| Character.DashFalloffNotMonotone | src/main.rs:360-370 | The falloff is not monotone: it is 0 at 0.9 and positive just after. |
| Character.DashFalloff | src/main.rs:360-370 | The falloff always lies in [0, 1]. |
| Character.DashVelocity | src/main.rs:360-375 | The dash velocity is horizontal, and zero when the direction is zero. Within 1/6 s of the dash it is fifty times the direction on the ground plane; from 1/3 s on it is zero. |
| Character.DashFiresFullStrength | src/main.rs:353-375 | A dash that fires this frame records `now` and has full strength: fifty times the direction on the ground plane. |
| Character.DashSpent | src/main.rs:353-375 | With the dash key released, a dash started 1/3 s or more ago leaves no dash velocity. |
| Character.DashSpentAtSixTenths | src/main.rs:353-375 | A dash at time 0 read at 0.6 with the key released has zero velocity, since the falloff at 1.8 is 0. |
| Character.Land | src/main.rs:384-393 | Grounded without jump: `y = 0` and vertical velocity 0. Grounded with jump: vertical velocity 15, `y = EPSILON` and `last_jump = now`. In the air nothing changes. |
| Character.NextPhysics | src/main.rs:316-375 | The velocity is the gravity step: only its vertical part changes, lowered by the gravity function at the time since the last jump times `dt`. The walking velocity is friction (on the ground), then acceleration times `dt`, then the speed clamp. The dash time follows the gate, the dash is the dash velocity at the time since that updated dash time, the dash is horizontal, and the gravity function and last jump carry over. |
| Character.Move | src/main.rs:381-382 | Each coordinate moves by the velocity plus the walking velocity (its second coordinate on z) plus the dash velocity, times `dt`. |
| Character.Tick | src/main.rs:268-394 | A grounded frame ends at `y = 0` with no vertical velocity, or jumps as above. An airborne frame keeps `last_jump`, its velocity is the gravity step, and its position is the full move by the final velocity, walking velocity and dash times `dt`. On every frame the x and z of the position are the move by the final velocities, and the horizontal velocity is kept. The dash gate and a horizontal dash always apply. |
| Character.LandAfterMove | src/main.rs:381-393 | Landing only touches the height: across the ground plane the player ends where its final velocities carry it. |
| Character.NextPhysicsAtRest | src/main.rs:287-375 | A player at rest on the ground with no movement key held ends the step with zero walking velocity, no dash, and no horizontal velocity. |
| Character.TickSpeedBound | src/main.rs:346-350 | After every frame the walking speed is at most the ground speed. |
| Character.TickNoKeysNoDash | src/main.rs:372-375 | With no movement key held, the dash velocity is zero, even during a dash. |
| Character.TickGroundStop | src/main.rs:310-346 | Grounded, slower than 0.1 and with no movement key held, the walking velocity becomes exactly zero. |
| Character.TickAirKeepsMomentum | src/main.rs:330-350 | In the air there is no friction, so a walking velocity within the ground speed carries over unchanged. |
| Character.TickAtRest | src/main.rs:268-394 | A player standing still on the ground with no key held stays where it is, at rest, whatever the gravity and frame time. |
| Character.XyVector | src/main.rs:433-437 | The facing vector is `(sin yaw, 0, -cos yaw)`. |
| Character.XyVectorUnit | src/main.rs:433-437 | The facing vector is horizontal with squared length 1. |
| CameraMotion.FrameSpeed | src/engine/camera.rs:164 | The step is non-negative for a non-negative speed, zero for a zero frame time, and positive for a positive speed and frame time. |
| CameraMotion.ShiftIsOffset | src/camera.rs:145-174 | The six conditional moves add up to a translation by the net count along each axis. |
| CameraMotion.ShiftTogether | src/camera.rs:145-174 | Eye and target move by the same vector, so `target - eye` is kept. |
| CameraMotion.Shift | src/engine/camera.rs:166-195 | Holding both keys of each opposite pair, or neither, leaves a point where it is. |
| CameraMotion.Pair | src/camera.rs:145-152 | Both flags of a pair, or neither, leave the point where it is. The first flag alone moves it by `+k` and the second alone by `-k`. |
| CameraMotion.SetFlag | src/camera.rs:89-130 | Setting a flag makes it held exactly when the key went down, and leaves every other flag as it was. |
| FlyCamera.New | src/camera.rs:62-77 | A new controller has the given speed and all ten flags false. |
| FlyCamera.Binding | src/camera.rs:89-130 | A key is bound exactly when it is the key of one of the ten actions (Space, LShift, W, A, S, D and the four arrows), and then to the action whose key it is. |
| FlyCamera.ProcessEvents | src/camera.rs:79-136 | The ten mapped keys set their own flag to whether the key went down, change nothing else, and report the event consumed. Unmapped keys and other events report false and change nothing. |
| FlyCamera.UpdateCamera | src/camera.rs:138-189 | The eye moves by the net offset of the held movement keys (each direction +1, -1 or 0 times the frame speed). The target moves by the same offset, then by the look keys. Up and the projection are never modified. With no look key held, `target - eye` is unchanged. |
| FlyCamera.Look | src/camera.rs:176-187 | Each pair of opposite look keys acts on the target like a pair of opposite movement keys. Holding both keys of each pair, or neither, leaves the target where it is. |
| FlyCamera.LookMovesTargetOnly | src/camera.rs:176-187 | The look keys never move the eye. |
| FlyCamera.BalancedEyeStill | src/camera.rs:145-174 | Forward with backward, left with right, and up with down leave the eye unchanged. |
| FlyCamera.NewIsStill | src/camera.rs:62-77 | A new controller does not move the camera. |
| FlyCamera.PressRelease | src/camera.rs:89-130 | Pressing and releasing a mapped key restores the flags. |
| EngineCamera.New | src/engine/camera.rs:59-75 | Every flag is false and both look amounts are 0. |
| EngineCamera.Binding | src/engine/camera.rs:99-132 | A key is bound exactly when it is the key of one of the eight actions (Space, LShift, W, A, S, D, Q, E), and then to the action whose key it is. |
| EngineCamera.ProcessEvents | src/engine/camera.rs:77-156 | Mouse motion is subtracted from the look amounts and consumed. Space, LShift, W, A, S, D, Q and E set exactly their own flag and report true. Anything else reports false and changes nothing. |
| EngineCamera.MotionAccumulates | src/engine/camera.rs:80-84 | Two motion events gather the sum of their deltas. |
| EngineCamera.LocalMin | src/engine/camera.rs:246-252 | The file's own `min` returns one of its arguments, no larger than either. |
| EngineCamera.LocalMax | src/engine/camera.rs:254-260 | The file's own `max` returns one of its arguments, no smaller than either. |
| EngineCamera.PitchChangeAsWritten | src/engine/camera.rs:209-221 | As written, nearer the bottom pole an overshooting downward request becomes `angle_to_down`. In every other case the selection equals the corrected one. |
| EngineCamera.PitchChangeAsWrittenReverses | src/engine/camera.rs:209-214 | As written, 0.1 of room below and a request of -1 give +0.1. |
| EngineCamera.PitchChangeAsWrittenFlipsSign | src/engine/camera.rs:209-214 | As written, every overshooting downward request becomes an upward change. |
| EngineCamera.PitchChange | src/engine/camera.rs:209-221 | Nearer the top (`angle_to_down >= angle_to_up`), the change is `min(requested, angle_to_up)`. Nearer the bottom, it is the request limited to `-angle_to_down` (corrected). |
| EngineCamera.PitchChangeKeepsDirection | src/engine/camera.rs:209-221 | With room on both sides, the applied change has the request's sign and is no larger. |
| EngineCamera.PitchChangeWithinRoom | src/engine/camera.rs:209-221 | The change never goes past the nearer pole. |
| EngineCamera.Fov | src/engine/camera.rs:234-239 | With a non-negative step, fov-up leaves `fovy <= 179` and fov-down leaves `fovy >= 1`. Without either key, `fovy` is unchanged. |
| EngineCamera.UpdateCamera | src/engine/camera.rs:159-242 | The update as written, with the as-written pitch selection. Both look amounts are 0 afterwards and the rest of the controller is kept. `up` and the projection are kept. With a non-negative speed, fov-up leaves `fovy <= 179`. Fov-down leaves `fovy >= 1`, and without either key `fovy` is unchanged. The eye moves by the net offset of the movement keys. The new target is the new eye plus the old forward direction, turned by the selected pitch change and the gathered sideways motion. |
| EngineCamera.UpdateCameraIntended | src/engine/camera.rs:159-242 | The same update with the corrected pitch selection, with the same guarantees, eye and target included. |
| EngineCamera.UpdateCameraAgrees | src/engine/camera.rs:201-221 | The as-written and corrected updates always give the same controller, eye and field of view. They give the same camera whenever the downward request does not overshoot the room below while the look is nearer the bottom pole. |
| EngineCamera.FovStaysInRange | src/engine/camera.rs:234-239 | A field of view inside [1, 179] stays inside whichever keys are held. |
| EngineCamera.BalancedEyeStill | src/engine/camera.rs:166-195 | Opposite movement keys held together leave the eye unchanged. |
| EngineCamera.UpdateConsumesLook | src/engine/camera.rs:231-232 | An update right after another finds no gathered motion. |
| Projectile.Spawn | client/src/projectile.rs:26-36 | A projectile starts 2 above the player with velocity `(100 sin yaw, 0, -100 cos yaw)`, which is 100 times the facing vector, and lives 5 seconds. |
| Projectile.SpawnSpeed | src/projectile.rs:25-33 | A new projectile's velocity is 100 times the unit facing vector, so its squared length is 10000. |
| Projectile.TriggersIgnoresOthers | client/src/projectile.rs:20 | Events other than LRClick and BClick, FSpec1 included, never count towards spawning. |
| Projectile.ClientUpdate | client/src/projectile.rs:10-39 | With a player, one projectile is spawned from the player per LRClick or BClick event. Without a player nothing is spawned. |
| Projectile.ServerUpdate | src/projectile.rs:9-35 | A projectile is spawned exactly when the left button is held and there is a player. |
| Projectile.ServerFiresWhileHeld | src/projectile.rs:19 | Over a run of frames, every frame with the button held, not only the first, adds one projectile. |
| Projectile.Move | src/projectile.rs:42-47 | The velocity never changes and the lifetime drops by `dt`. The projectile is despawned exactly when the new lifetime is `<= 0`. |
| Projectile.Fly | client/src/projectile.rs:46-52 | A projectile still in flight keeps its velocity, and after at least one frame it has lifetime left. |
| Projectile.FlyStraight | client/src/projectile.rs:46-52 | While a projectile lives, it is at its start plus velocity times elapsed time, and its lifetime has dropped by the elapsed time. |
| Projectile.FlyExpires | client/src/projectile.rs:48-51 | With frames at least `d` long, a projectile is gone once the frames' minimum total reaches its lifetime. |
| Projectile.SpawnExpires | src/projectile.rs:44-47 | A new projectile is gone after five seconds' worth of frames. |
| Projectile.HitWithinSquare | client/src/projectile.rs:62 | The distance test `< 4` is the squared-distance test `< 16`. |
| Projectile.HitEnemies | client/src/projectile.rs:55-66 | An enemy is despawned iff some projectile is strictly closer than 4. |

## Left out

- Rendering, the window and event loop, networking, the enemies' random walk, the debug UI, asset loading and the configuration file I/O are not modelled. Only the configuration's resulting values are consumed.
- ECS plumbing is not modelled: queries, `Commands` spawn and despawn, and system registration. Where a system returns early without a player, the model takes the player as a parameter. For projectiles, `Option<Shooter>` models the missing player.
- `system_window`'s cursor-lock, cursor-visibility and vsync side effects are not modelled; only the `no_mouse_inputs` toggle is.
- `system_update_player_cam` (src/main.rs:396-431) is not modelled; it is quaternion and matrix geometry.
- `Camera::new` and `build_view_projection_matrix` in both camera files are not modelled; they are projection matrices.
- The `Vec3` `rotate` implementations are not modelled; they are `todo!()`.
- `f32` rounding, NaN and infinity are not modelled; reals stand in for `f32`.
- `normalize` of the zero vector is modelled as returning the zero vector. The libraries return NaNs there. For a positive ground speed, the character step never normalises a zero walking velocity, because its guards exclude that case. `Character.Tick` also accepts a negative ground speed; there the speed clamp can normalise a zero walking velocity, and the model's zero stands in for the code's NaN.
- Character.Tick: requires a non-zero ground speed, because the code divides by it, and with `f32` the result would be infinite or NaN.
- ConfigRead.StrToKeybind: the error's message text is not modelled; errors carry the offending name or length instead. Formatting a message is string I/O.
- The serde deserializer is reduced to the node it is handed: a string, a list of strings, or anything else. YAML parsing and error positions are left out.
- The winit `VirtualKeyCode` values the camera controllers match on are represented by the same key-code enumeration as the configuration's keys; the names used are identical.
- The engine camera's vector angle and quaternion rotations are abstract functions. So the new target is stated as the new eye plus the old forward direction turned by those rotations, and nothing is proved about the rotations themselves.
- The engine camera's `dt` is taken as a whole number of nanoseconds, as `as_nanos` gives it.
- `dash_falloff_func`'s `powf(0.5)` is modelled as the square root.
- src/main.rs declares `mod utils;`, but src/utils.rs is not part of this model. Its `rotate`, `xz3` and related helpers are assumed to be the ones in src/lib.rs and client/src/utils.rs, which are modelled.
- The client's `CameraOrientation` and its `xy_vector` (used by client/src/projectile.rs:36) come from the client's main module, which is not part of this model. They are assumed to be src/main.rs's, which are modelled.
- ConfigRead.FindName: the function carries no contract of its own. Its property (found exactly when some entry has the name, and then the first such entry) is stated by `ConfigRead.FindNameFirst`. Stating it on the function itself would make every lookup in the 163-entry name table instantiate it at each step.

## Findings

| source | as written | input that shows it | evidently intended | confidence | as-written member | corrected member |
|---|---|---|---|---|---|---|
| src/engine/camera.rs:209-214 | When the look is nearer the bottom pole and the downward request exceeds the room left, the change is set to `angle_to_down`, a positive (upward) angle | `angle_to_up = 3.0`, `angle_to_down = 0.1`, requested change `-1.0` gives `+0.1` | `-angle_to_down`, mirroring the top-pole branch, which limits an upward request to `angle_to_up` | not executed | EngineCamera.PitchChangeAsWrittenFlipsSign | EngineCamera.PitchChangeKeepsDirection |
