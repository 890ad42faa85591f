# TireSwing control layer in Dafny

This project models the control and bookkeeping layer of the TireSwing
plugin, a tire swing in a block world that a player mounts by clicking it.
The model covers five pieces:

- **Swing** (`Animation.Swing`). The phase machine that drives a pendulum. It
  accelerates for 29 updates, then swings freely with normal damping, and
  slows down for good once nobody rides it.
- **Pendulum** (`Animation.Pendulum`). A class over `real` holding the angle,
  angular velocity, drive amplitude, damping and clock. Each step advances the
  clock first, then moves the angle by the old velocity and wraps it against
  270 degrees, and only then applies the acceleration to the velocity.
- **Model** (`Models.Model`). An append-only list of (part description,
  display) pairs that `Spawn` fills and `Clear` empties.
- **Controller** (`TireSwing.Controller`). It validates the three models
  (rope, tire, still part) and clears them all when any display is dead. It
  respawns the swing when its chunk loads, and `Spawn` hangs every tire
  display on the first one. Each tick of the animation task validates,
  updates, stops once the swing is still, slows down when nobody rides, and
  rotates.
- **Passenger** (`TireSwing.Passenger`). The listener that turns click,
  dismount and quit events into the controller's rider flag.

The classes that step the animation or handle events are proved against a
specification function on values:

- `Pendulum.Update` against `Step`;
- `Swing.Update` against `Advance`;
- `Controller.Tick` against `TickStep`;
- the passenger handlers against `AfterInteract`, `AfterDismount` and
  `AfterQuit`.

The lemmas state the properties of those functions over single calls and
over runs of any length (`Steps`, `Run`, `TickRun`, `Replay`). `Model` and
the controller's `Validate` and `Spawn` are specified instead by predicates
on the objects' state: `Live`, `Spawned`, `AllLive` and `Cleared`.

The pendulum's sine and cosine are not modelled. They are a parameter
(`Animation.Trig`) that is passed from the controller to the swing and from
the swing to its pendulum. Lemmas that need `sin(0) = 0` state it as a
precondition. The IEEE remainder is defined exactly over the reals, as
`x - m*n` where `n` is the integer nearest `x/m` with ties to even, and its
bound is proved.

Some of the code's behaviour differs from what one might expect. The model
follows the code:

- **The wrap range is closed.** The wrapped angle lies in
  [-135°, 135°], with both ends included. `Math.IEEEremainder` breaks a tie
  towards the even multiple, which is 0 at both ends, so both 135° and
  -135° are kept as they are (`Animation.WrapKeepsBothEnds`).
- **Acceleration lasts 29 updates.** Swing.java:4-7 calls 30 the total time
  the swing accelerates. The clock is incremented before the threshold test
  (Swing.java:58-64), so only updates 1 to 29 are driven. The 30th update
  already switches the drive off (`Animation.AccelerationRamp`).
- **A failed validation does not cancel the task.** A tick whose validation
  fails just returns (Controller.java:220-222). The task keeps running and
  does nothing until the displays are spawned again
  (`TireSwing.TickWithDeadDisplays`, `TireSwing.DeadTicksAreInert`).
- **Clearing only forgets the entities.** Model.java:44-46 describes `clear` as
  removing all spawned model entities. The code only empties the entity
  list (Model.java:48), and the displays stay where they are. `Model.Clear`
  models exactly that.
- **Slowing down is not a one-off call.** The comment on `swing`
  (Controller.java:211) says the swing slows itself down when the player
  jumps off. The tick calls `slowdown` on every moving tick while nobody
  rides (Controller.java:230-232). That is harmless because slowing down is
  idempotent (`Animation.SlowdownIdempotent`).
- **Being still is not stable.** A swing can be still at one update and not
  at the next. A velocity just below the 0.5 threshold carries an angle of 0
  past the 0.01 threshold in one step (`Animation.StillIsNotStable`). The
  tick never sees this, because it cancels its task at the first still
  update (Controller.java:224-228, `TireSwing.TickThatSettles`).

## Model

| member | source | states |
|---|---|---|
| Animation.NearestInteger | src/main/java/se/wilmer/tireswing/animation/Pendulum.java:93 | the integer the IEEE remainder subtracts: within one half of the quotient, and even when the quotient lies exactly halfway |
| Animation.IeeeRemainder | src/main/java/se/wilmer/tireswing/animation/Pendulum.java:93 | the signed remainder lies within half a modulus of zero |
| Animation.RemainderOfHalfRange | src/main/java/se/wilmer/tireswing/animation/Pendulum.java:93 | a value already within half a modulus of zero is its own remainder |
| Animation.RemainderIdempotent | src/main/java/se/wilmer/tireswing/animation/Pendulum.java:93 | taking the remainder twice equals taking it once |
| Animation.RemainderCharacterization | src/main/java/se/wilmer/tireswing/animation/Pendulum.java:93 | the remainder is the unique representative of x modulo m strictly inside half a modulus |
| Animation.AngularAcceleration | src/main/java/se/wilmer/tireswing/animation/Pendulum.java:81-85 | gravity, drag and drive with unit mass and length: with no drive and sin(angle) = 0 it is -damping·velocity; with no drive and no damping it is -9.81·sin(angle) |
| Animation.DampingOpposesMotion | src/main/java/se/wilmer/tireswing/animation/Pendulum.java:83 | with no drive or gravity pull, positive damping decelerates the pendulum whichever way it moves, and does nothing at rest |
| Animation.Wrap | src/main/java/se/wilmer/tireswing/animation/Pendulum.java:91-94 | the wrapped angle is within 135 degrees either way |
| Animation.WrapKeepsBothEnds | src/main/java/se/wilmer/tireswing/animation/Pendulum.java:93 | both 135 and -135 degrees are fixed by the wrap, so the range is closed |
| Animation.Step | src/main/java/se/wilmer/tireswing/animation/Pendulum.java:66-73 | one step adds exactly 0.05 to the clock, keeps the angle within 135 degrees, and leaves amplitude and damping alone |
| Animation.AngleIgnoresForcing | src/main/java/se/wilmer/tireswing/animation/Pendulum.java:67-72 | the new angle depends only on the old angle and velocity, because the acceleration reaches the velocity after the angle has moved |
| Animation.StepsTime | src/main/java/se/wilmer/tireswing/animation/Pendulum.java:67 | after n steps the clock has grown by 0.05·n, and amplitude and damping are unchanged |
| Animation.RestIsFixedPoint | src/main/java/se/wilmer/tireswing/animation/Pendulum.java:81-94 | with no drive and sin(0) = 0, rest at angle 0 is kept by one step |
| Animation.RestStaysAtRest | src/main/java/se/wilmer/tireswing/animation/Pendulum.java:81-104 | the same rest state is kept by any number of steps |
| Animation.Pendulum.constructor | src/main/java/se/wilmer/tireswing/animation/Pendulum.java:54-60 | a new pendulum has angle, velocity, amplitude, damping and time all zero |
| Animation.Pendulum.Update | src/main/java/se/wilmer/tireswing/animation/Pendulum.java:66-73 | the new state is `Step` of the old one: clock first, acceleration from the old angle and velocity at the new time, then angle, then velocity |
| Animation.Pendulum.UpdateAngle | src/main/java/se/wilmer/tireswing/animation/Pendulum.java:91-94 | the angle becomes the wrap of old angle plus velocity times 0.05 |
| Animation.Pendulum.UpdateVelocity | src/main/java/se/wilmer/tireswing/animation/Pendulum.java:102-104 | the velocity grows by the acceleration times 0.05 |
| Animation.Pendulum.GetAngle | src/main/java/se/wilmer/tireswing/animation/Pendulum.java:112-114 | returns the angle and changes nothing |
| Animation.Pendulum.GetAngularVelocity | src/main/java/se/wilmer/tireswing/animation/Pendulum.java:121-123 | returns the angular velocity and changes nothing |
| Animation.Pendulum.SetDamping | src/main/java/se/wilmer/tireswing/animation/Pendulum.java:130-132 | only the damping changes |
| Animation.Pendulum.SetAmplitude | src/main/java/se/wilmer/tireswing/animation/Pendulum.java:139-141 | only the amplitude changes |
| Animation.Advance | src/main/java/se/wilmer/tireswing/animation/Swing.java:57-72 | every update adds 1 to the clock and steps the pendulum once; a slowing swing keeps amplitude and damping; otherwise the drive is 2.0 below 30 and amplitude 0, damping 0.5 from 30 on |
| Animation.AccelerationRamp | src/main/java/se/wilmer/tireswing/animation/Swing.java:58-69 | from a fresh swing, updates 1 to 29 have amplitude 2.0 and damping 0, updates from 30 on have amplitude 0 and damping 0.5, and the pendulum clock reads 0.05 per update |
| Animation.SlowingIsPermanent | src/main/java/se/wilmer/tireswing/animation/Swing.java:60-63 | once slowing, any number of updates keeps slowing, never touches amplitude or damping, and only steps the pendulum |
| Animation.SlowdownIdempotent | src/main/java/se/wilmer/tireswing/animation/Swing.java:80-84 | `SlowedDown`: slowing down sets amplitude 0, damping 1.2 and the slowing flag, and doing it twice equals doing it once |
| Animation.SlowdownKeepsMotion | src/main/java/se/wilmer/tireswing/animation/Swing.java:80-84 | `SlowedDown`: slowing down keeps time, angle and velocity, so it does not change whether the swing is still |
| Animation.NotStillWhileAccelerating | src/main/java/se/wilmer/tireswing/animation/Swing.java:94-98 | `Still`, the test of Swing.java:94-98: no swing with clock below 30 is still, whatever its angle and velocity |
| Animation.FreshSwingNotStillEarly | src/main/java/se/wilmer/tireswing/animation/Swing.java:94-98 | a fresh swing is not still after fewer than 30 updates |
| Animation.RestingSwingStaysStill | src/main/java/se/wilmer/tireswing/animation/Swing.java:57-63 | a slowing swing at rest with no drive and clock at least 30 stays still for every later update |
| Animation.StillIsNotStable | src/main/java/se/wilmer/tireswing/animation/Swing.java:94-98 | a concrete slowing swing past update 30 that is still, and whose next update is not still: stillness is not kept by further updates |
| Animation.Swing.constructor | src/main/java/se/wilmer/tireswing/animation/Swing.java:44-48 | a new swing has clock 0, is not slowing, and owns a fresh pendulum in its all-zero state |
| Animation.Swing.Update | src/main/java/se/wilmer/tireswing/animation/Swing.java:57-72 | the new state is `Advance` of the old one |
| Animation.Swing.Slowdown | src/main/java/se/wilmer/tireswing/animation/Swing.java:80-84 | the new state is `SlowedDown` of the old one |
| Animation.Swing.IsStill | src/main/java/se/wilmer/tireswing/animation/Swing.java:94-98 | true exactly when velocity is below 0.5, angle below 0.01 (both in magnitude) and the clock is at least 30 |
| Animation.Swing.GetAngle | src/main/java/se/wilmer/tireswing/animation/Swing.java:104-106 | returns the pendulum's angle and changes nothing |
| Models.Model.constructor | src/main/java/se/wilmer/tireswing/model/Model.java:20-23 | keeps the part descriptions and starts with no entities |
| Models.Model.Spawn | src/main/java/se/wilmer/tireswing/model/Model.java:31-42 | appends exactly one entity per part description, in order, each with a fresh, live, non-persistent display configured from it at the location with no passengers; earlier entities are kept |
| Models.Model.Clear | src/main/java/se/wilmer/tireswing/model/Model.java:47-49 | the entity list is empty (so clearing twice is clearing once) |
| Models.Model.GetModelEntities | src/main/java/se/wilmer/tireswing/model/Model.java:56-58 | returns the current entity list |
| Models.Model.GetModelDataList | src/main/java/se/wilmer/tireswing/model/Model.java:65-67 | returns the part descriptions |
| TireSwing.ChunkCoordinate | src/main/java/se/wilmer/tireswing/Controller.java:120 | the chunk holding a coordinate is the 16-block column holding its block: 16·r ≤ floor(c) < 16·r + 16, also for negative coordinates |
| TireSwing.Controller.constructor | src/main/java/se/wilmer/tireswing/Controller.java:113-121 | keeps the three models, the location and the chunk coordinates of the location; starts with no rider, not swinging, radius 0 |
| TireSwing.Controller.Validate | src/main/java/se/wilmer/tireswing/Controller.java:242-257 | true exactly when all three models are non-empty with every display alive; then nothing changes, otherwise all three entity lists are empty |
| TireSwing.Controller.Clear | src/main/java/se/wilmer/tireswing/Controller.java:262-266 | all three entity lists are empty |
| TireSwing.Controller.OnChunkLoad | src/main/java/se/wilmer/tireswing/Controller.java:123-133 | a swing whose validation passes is left alone; otherwise it is cleared, and respawned exactly when the chunk is the swing's. A respawn reuses the recorded interaction and fulcrum entities, so it can be repeated. It creates a fresh hit box from them, spawns every model from scratch, makes the first tire display the primary one carrying exactly the other tire displays, builds the rotation over it and resets it. The next validation then passes if every model has parts |
| TireSwing.Controller.Spawn | src/main/java/se/wilmer/tireswing/Controller.java:147-167 | records the entities, spawns the interaction and the three models, makes the first tire display the primary one carrying every other tire display, builds the rotation over a primary display that exists and resets it |
| TireSwing.Controller.SpawnEntities | src/main/java/se/wilmer/tireswing/Controller.java:148-156 | the interaction, the radius and the three models are spawned, and the new displays are fresh and alive |
| TireSwing.Controller.SpawnModels | src/main/java/se/wilmer/tireswing/Controller.java:154-156 | each model gains one fresh, live display per part, keeping its old entities |
| TireSwing.Controller.AttachTire | src/main/java/se/wilmer/tireswing/Controller.java:158-163 | the first tire display becomes the primary display and gains every other tire display as a passenger; no display's liveness changes |
| TireSwing.Controller.HangChildren | src/main/java/se/wilmer/tireswing/Controller.java:161-163 | the first display's passengers grow by exactly the other displays of the list |
| TireSwing.Controller.StartRotation | src/main/java/se/wilmer/tireswing/Controller.java:165-166 | the rotation is built over the tire, rope and primary display and reset to angle 0 |
| TireSwing.Controller.CreateInteraction | src/main/java/se/wilmer/tireswing/Controller.java:177-183 | a fresh hit box with the given location, height and width |
| TireSwing.Controller.CreateFulcrum | src/main/java/se/wilmer/tireswing/Controller.java:196-203 | the radius is the fulcrum's |
| TireSwing.Controller.Swing | src/main/java/se/wilmer/tireswing/Controller.java:215-219 | the player rides the primary display, the swing is marked swinging, and a fresh task over a fresh swing starts |
| TireSwing.Controller.Tick | src/main/java/se/wilmer/tireswing/Controller.java:219-234 | the swing, the flag, the rotations and the cancel are those of `TickStep` on the state before the tick; validation's clearing happens exactly when it fails, and a failing tick needs no rotation |
| TireSwing.Controller.Rotate | src/main/java/se/wilmer/tireswing/Controller.java:233 | the angle is handed to the rotation, which needs a primary display to move |
| TireSwing.Controller.ResetRotation | src/main/java/se/wilmer/tireswing/Controller.java:225 | `ResetAngle`, 0 radians, is handed to the rotation |
| TireSwing.Controller.SetHasPassenger | src/main/java/se/wilmer/tireswing/Controller.java:273-275 | sets the rider flag |
| TireSwing.Controller.HasPassenger | src/main/java/se/wilmer/tireswing/Controller.java:282-284 | returns the rider flag |
| TireSwing.Controller.IsSwinging | src/main/java/se/wilmer/tireswing/Controller.java:291-293 | returns the swinging flag |
| TireSwing.SwingTask.Cancel | src/main/java/se/wilmer/tireswing/Controller.java:227 | the task is cancelled |
| TireSwing.TickWithDeadDisplays | src/main/java/se/wilmer/tireswing/Controller.java:220-222 | `TickStep`, the tick on values: a tick whose validation fails changes nothing, rotates nothing and does not cancel |
| TireSwing.TickThatSettles | src/main/java/se/wilmer/tireswing/Controller.java:223-229 | `TickStep`: a tick whose update makes the swing still resets the rotation to 0, clears the swinging flag and cancels, without slowing down |
| TireSwing.TickInMotion | src/main/java/se/wilmer/tireswing/Controller.java:230-233 | `TickStep`: any other valid tick keeps the task, slows down exactly when nobody rides (and slowing stays on), and rotates to the updated angle, which is within 135 degrees |
| TireSwing.RotationsStayInRange | src/main/java/se/wilmer/tireswing/Controller.java:233 | over any run of ticks every rotation angle is within 135 degrees |
| TireSwing.DeadTicksAreInert | src/main/java/se/wilmer/tireswing/Controller.java:220-222 | ticks that all fail validation leave the swing, the flag and the rotation untouched and never cancel |
| TireSwing.SlowingSurvivesTicks | src/main/java/se/wilmer/tireswing/Controller.java:230-232 | a swing that is slowing is still slowing after any run of ticks |
| TireSwing.NoCancelWhileAccelerating | src/main/java/se/wilmer/tireswing/Controller.java:223-228 | a tick whose update happens before the 30th is never cancelled |
| TireSwing.InteractStartsRide | src/main/java/se/wilmer/tireswing/Passenger.java:45-50 | `AfterInteract`: a click changes the session exactly when nobody rides, the hit box was clicked and the swing is idle; it then records that player and sets both flags |
| TireSwing.DismountOnlyByRider | src/main/java/se/wilmer/tireswing/Passenger.java:19-29 | `AfterDismount`: a dismount changes the session exactly when a rider is recorded and the recorded player dismounts, and then only clears the rider flag |
| TireSwing.QuitOnlyByRider | src/main/java/se/wilmer/tireswing/Passenger.java:32-41 | `AfterQuit`: a quit changes the session exactly when the recorded rider quits, and then only clears the rider flag |
| TireSwing.ApplyKeepsConsistent | src/main/java/se/wilmer/tireswing/Passenger.java:18-51 | every event keeps "rider flag set implies a rider is recorded" |
| TireSwing.Replay | src/main/java/se/wilmer/tireswing/Passenger.java:18-51 | any sequence of events keeps the session consistent |
| TireSwing.RiderComesFromInteract | src/main/java/se/wilmer/tireswing/Passenger.java:46-47 | after any sequence of events the recorded rider is the original one or the player of some click |
| TireSwing.DismountThenTickSlowsDown | src/main/java/se/wilmer/tireswing/Passenger.java:26-27 | a rider who mounts and then dismounts leaves the swing swinging without a rider, so its next moving tick slows it down |
| TireSwing.Passenger.constructor | src/main/java/se/wilmer/tireswing/Passenger.java:14-16 | the listener is bound to its controller, has no recorded rider, and is consistent when nobody rides |
| TireSwing.Passenger.OnEntityDismount | src/main/java/se/wilmer/tireswing/Passenger.java:18-29 | the session becomes `AfterDismount` of the old one |
| TireSwing.Passenger.OnPlayerQuit | src/main/java/se/wilmer/tireswing/Passenger.java:31-41 | the session becomes `AfterQuit` of the old one; the recorded rider who quits is taken off the primary display, otherwise the display is untouched, and its liveness never changes |
| TireSwing.Passenger.OnEntityInteract | src/main/java/se/wilmer/tireswing/Passenger.java:43-51 | the session becomes `AfterInteract` of the old one; a task is started exactly when the click is accepted, over a fresh swing and pendulum, with the player on the primary display; the display's liveness never changes |

## Left out

- Floating point. All numbers are exact reals, and IEEE 754 rounding of the
  pendulum's doubles is not modelled. `Math.PI` is its decimal value
  3.141592653589793.
- Sine and cosine. They are the `Trig` parameter. No property of them is
  assumed except `sin(0) = 0` where a lemma states it.
- Rotation.java is not part of this model. Its matrices, the pivot position
  and the transform writes to the displays are left out. `rotate` and
  `resetRotation` only record the angle handed over, in `rotations`. Display
  transforms therefore stay as spawned.
- The scheduler. `runTaskTimer` becomes the `SwingTask` object, and its
  callback becomes `Controller.Tick`, called by whoever drives the model. A
  cancelled task is one whose `cancelled` flag is set, and `TickRun` stops
  after a cancelling tick.
- Event dispatch. The chunk-load, dismount, quit and click events are plain
  method calls.
  - Chunk loads pass the chunk's x and z. The chunk's world is not compared,
    as in the code.
  - Dismounts pass whether the entity is a player.
  - A click passes the clicked object, compared by identity where the code
    compares unique ids.
- Entity ids. A player is identified by its unique id, and displays and the
  interaction by object identity.
- Configuration.java, QuaternionfcSerializer.java, Vector3fcSerializer.java
  and TireSwing.java are not part of this model. They cover file loading,
  serialisation and plugin start-up.
- ModelData.java, ModelEntity.java and InteractionEntity.java are not part
  of this model. The fields the core reads from them, and the four fields
  of FulcrumEntity.java, become datatypes.
- The fulcrum's block display. It is spawned and never referred to again, so
  `CreateFulcrum` only records the radius.
- World spawning. `world.spawn` becomes allocation of a `Display` or
  `Interaction` whose constructor applies the spawn callback's settings. A
  display dies only through something outside the core, which is why `valid`
  is never set to false here.
- TireSwing.Controller.Tick: requires that, when the displays are all alive,
  the rotation exists and has a primary display. A tick whose validation
  fails touches neither. With live displays the code dereferences the
  rotation and its display. Both are set by a spawn that filled the tire
  model, and the model does not carry that as an invariant of the
  controller.
- TireSwing.Controller.Spawn: requires a part in the tire model or an
  existing primary display. Otherwise the code finds no primary display
  (Controller.java:158-159) and fails with a null reference when the reset
  rotation moves it. The model does not capture that failure.
- TireSwing.Controller.OnChunkLoad: requires recorded interaction and fulcrum
  entities, and a part in the tire model or an existing primary display,
  when the load respawns the swing. A load of the swing's chunk before any
  spawn makes the code spawn from null entities. That fails with a null
  reference after validation has cleared the models. The model does not
  capture that failure.
- TireSwing.Passenger.OnEntityInteract: requires a spawned interaction when
  nobody rides, and a primary display when the click is accepted. The code
  fails with a null reference otherwise.
- The `World` parameter of `Model.spawn` (Model.java:31) and the
  controller's world. The model has one implicit world, and every display
  is spawned into it.
