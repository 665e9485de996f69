# Keyboard-to-vehicle command mapper of the 3D car simulation

The car demo drives a four-wheeled rigid vehicle from the keyboard. Four
wheels are created with `createWheel`: two front (steering) wheels in slots 0
and 1, two rear (drive) wheels in slots 2 and 3. Two closure variables hold the
command state, `steeringAngle` and `accelerationForce`. A `keydown` listener
maps `w`/`ArrowUp` to a forward drive force of 300 and `s`/`ArrowDown` to a
reverse force of -150, both written to the rear slots. It maps `a`/`ArrowLeft`
and `d`/`ArrowRight` to a steering ramp of 0.05 rad per event, clamped to
[-0.5, 0.5] and written to the front slots. A `keyup` listener zeroes the rear
force when a throttle key is released and leaves steering alone.

This project models that mapper in two modules:

- `VehicleCommands` (vehicle_commands.dfy) defines the command state as a
  value (`Command`). It holds the two handlers as pure transitions
  (`OnKeyDown`, `OnKeyUp`) and the run of a whole event sequence (`Run`). It
  also holds the lemmas about sequences of events: bounds, held keys,
  releases, key aliases, what decides the force, and that steering does not
  depend on the other keys.
- `CarControls` (car_controls.dfy) defines the wheel layout and the class
  `CarController`. The class keeps the two variables as fields and the four
  wheel slots as an `array<Wheel>`. Its `KeyDown` and `KeyUp` methods update
  them in place through `SetWheelForce` and `SetSteeringValue`, which stand for
  the vehicle calls of the same names. Each method is proved against the pure
  transition, and it says which slots change and that nothing else does. The
  object invariant `Valid()` has three parts: there are exactly four slots
  (`wheels.Length == 4`), `wheels[..] == WheelsFor(State())`, and
  `InRange(State())`. Together they say that the stored force is the force on
  slots 2 and 3, that the stored angle is the steering value on slots 0 and 1,
  that steering values reach only front slots and forces only rear slots, and
  that the angle is within [-0.5, 0.5] rad and the force one of 0, 300 and
  -150.

Units: the steering angle is an integer number of 0.05-rad steps, so the clamp
at 0.5 rad is `MaxSteer == 10`. Forces are newtons. Wheel mount positions are
decimetres in the chassis frame, so `(-2, -0.5, 2.5)` becomes `Vec3(-20, -5, 25)`.
Keys are the strings of `event.key`, compared exactly as the code compares them.
An upper-case `W` therefore matches no case.

The demo has no engine toggle key, no brake key, no steering reset on release,
no suspension force clamping and no divergence recovery. Releasing a key keeps
the steering angle, and the throttle works without any engine state.

## Model

| member | source | states |
|---|---|---|
| CarControls.Layout | car-simulation/src/App.jsx:151-177 | four slots in `createWheel` order: slots 0 and 1 are the steering wheels and exactly those on the forward axle; even slots are on the -x side and odd slots mirror them; every fresh slot has zero steering and zero force |
| CarControls.WheelsFor | car-simulation/src/App.jsx:174-177 | slot values for a command: the angle on front slots only, the force on rear slots only, zero otherwise, with the layout's mounts and flags |
| CarControls.InitialWheels | car-simulation/src/App.jsx:174-183 | the initial command (0, 0) is consistent with the fresh layout, so the invariant holds before any key |
| CarControls.CarController.constructor | car-simulation/src/App.jsx:174-183 | builds the four slots as `createWheel` does, both variables start at 0, and the invariant holds |
| CarControls.CarController.SetWheelForce | car-simulation/src/App.jsx:191-192 | `setWheelForce(force, i)` changes only the force of slot i |
| CarControls.CarController.SetSteeringValue | car-simulation/src/App.jsx:205-206 | `setSteeringValue(value, i)` changes only the steering value of slot i |
| CarControls.CarController.KeyDown | car-simulation/src/App.jsx:185-216 | per key: `w`/`ArrowUp` set 300 and `s`/`ArrowDown` set -150 on slots 2 and 3 only; `a`/`ArrowLeft` set min(0.5, angle+0.05) and `d`/`ArrowRight` set max(-0.5, angle-0.05) on slots 0 and 1 only; any other key changes nothing; the new state is `OnKeyDown` of the old; the invariant is kept |
| CarControls.CarController.KeyUp | car-simulation/src/App.jsx:218-224 | releasing `w`, `s`, `ArrowUp` or `ArrowDown` zeroes the force and slots 2 and 3 and keeps the angle and the front slots; any other key changes nothing; the invariant is kept |
| CarControls.DriveAndSteer | car-simulation/src/App.jsx:185-224 | press `w`, then `a`, `ArrowLeft`, `a`, then release `w` and `a`: angle 3 steps (0.15 rad), force 0, and the slots agree |
| VehicleCommands.RunKeepsRange | car-simulation/src/App.jsx:188-214 | from any in-range state, any event sequence keeps the angle in [-0.5, 0.5] and the force in {0, 300, -150} |
| VehicleCommands.ReachableInRange | car-simulation/src/App.jsx:182-183 | starting from 0, any sequence of key-down and key-up events keeps the angle in [-0.5, 0.5] and the force in {0, 300, -150} |
| VehicleCommands.HoldSteerLeft | car-simulation/src/App.jsx:202-207 | n left-steer events raise the angle to min(0.5, angle + n*0.05) and leave the force alone |
| VehicleCommands.HoldSteerRight | car-simulation/src/App.jsx:209-214 | n right-steer events lower the angle to max(-0.5, angle - n*0.05) and leave the force alone |
| VehicleCommands.HoldThrottleIdempotent | car-simulation/src/App.jsx:188-200 | any positive number of repeated presses of one throttle key gives the state of a single press |
| VehicleCommands.HoldLeftThenRelease | car-simulation/src/App.jsx:202-224 | from rest, holding `a` for n events and releasing it leaves the angle at min(10, n) steps: release does not reset steering |
| VehicleCommands.KeyUpEffect | car-simulation/src/App.jsx:218-224 | key-up never changes the angle; for a throttle key it zeroes the force; for every other key it changes nothing |
| VehicleCommands.UnmatchedKeys | car-simulation/src/App.jsx:186-215 | `e`, space and upper-case `W` leave the state unchanged on key-down and key-up |
| VehicleCommands.RunAliases | car-simulation/src/App.jsx:186-219 | replacing each arrow key by its letter key in any event sequence gives the same final state |
| VehicleCommands.SameActionsSameState | car-simulation/src/App.jsx:186-219 | two event sequences that differ only in letter versus arrow keys end in the same state |
| VehicleCommands.RunForce | car-simulation/src/App.jsx:188-200 | after any event sequence the force is the one written by the last throttle press or release (or the initial force); steering keys between do not disturb it |
| VehicleCommands.SteerOnlyDependsOnSteer | car-simulation/src/App.jsx:185-224 | over any event sequence, the final angle depends only on the starting angle, never on the force |
| VehicleCommands.SteerIgnoresOtherKeys | car-simulation/src/App.jsx:185-224 | the angle after any event sequence equals the angle after its steer-key presses alone: throttle keys, releases and unmatched keys never change steering |

## Left out

- CarControls.CarController.KeyDown: the angle is exact in 0.05-rad steps. The source uses binary floating point, where ten presses from 0 give 0.49999999999999994, so the +0.5 clamp is reached only on the eleventh press, and repeated left and right presses may not return exactly to 0. This rounding is not modelled.
- Scene construction with three.js (ground, textures, sky loader, lights, chassis meshes, App.jsx lines 24-137): rendering and asset I/O.
- The cannon-es physics (world, bodies, shapes, `RigidVehicle`, `addToWorld`, `fixedStep`): cannon-es is an external library. Only the per-slot force and steering values that `setWheelForce`/`setSteeringValue` store are modelled. A slot is taken to start with steering and force 0.
- The suspension and friction parameters that `createWheel` passes to `addWheel` (stiffness 50, rest length 0.2, friction slip 5, damping 2.3/4.4, maximum force 10000), the wheel body mass and its angular damping: they configure the physics library and are read by no modelled operation. `Wheel` records only the mount position and the front flag.
- The animation loop (`requestAnimationFrame`, the debugger update, copying the chassis pose into the mesh) is frame-scheduling glue. `updateCamera` is called there but is defined neither in App.jsx nor in SceneInit.js.
- car-simulation/src/lib/SceneInit.js: renderer, camera, orbit controls, stats and resize handling. Its chase-camera interpolation is floating-point vector math done by three.js, and it never runs, because `carModel` stays null.
- Engine on/off, braking, steering ramp-back on release, suspension force clamping and divergence recovery: the code does not implement them.
- Event delivery by the browser (listener registration, key repeat timing) is not modelled. The model takes an event as a `Down(key)` or `Up(key)` value, and a sequence of them as what the page receives.
