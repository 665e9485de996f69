/** The four-wheel layout of the car and the object that the key handlers
    update in place: the two command variables and, per wheel slot, the
    steering value and drive force that `setSteeringValue` and
    `setWheelForce` store in the rigid vehicle.

    Mount positions are in decimetres in the chassis frame (+z is the
    front of the car). */
module CarControls {
  import opened VehicleCommands

  datatype Vec3 = Vec3(x: int, y: int, z: int)

  /** One wheel slot of the vehicle: where it is mounted, whether it was
      created as a front (steering) wheel, and the last steering value and
      drive force written to the slot. */
  datatype Wheel = Wheel(mount: Vec3, isFront: bool, steeringValue: int, wheelForce: int)

  /** `createWheel(position, isSteeringWheel = false)`; a new slot carries no
      steering and no force. */
  function CreateWheel(position: Vec3, isSteeringWheel: bool := false): Wheel
  {
    Wheel(position, isSteeringWheel, 0, 0)
  }

  /** The slots in the order the four `createWheel` calls add them. */
  function Layout(): (ws: seq<Wheel>)
    ensures |ws| == 4
    // slots 0 and 1 are the front (steering) wheels, 2 and 3 the rear ones
    ensures forall i :: 0 <= i < |ws| ==> (ws[i].isFront <==> i < 2)
    // the steering wheels are exactly those on the forward axle
    ensures forall i :: 0 <= i < |ws| ==> (ws[i].isFront <==> ws[i].mount.z > 0)
    // even slots on the -x side, odd slots their mirror images on the +x side
    ensures forall i :: 0 <= i < |ws| ==> (ws[i].mount.x < 0 <==> i % 2 == 0)
    ensures ws[1].mount == ws[0].mount.(x := -ws[0].mount.x)
    ensures ws[3].mount == ws[2].mount.(x := -ws[2].mount.x)
    ensures forall i :: 0 <= i < |ws| ==> ws[i].steeringValue == 0 && ws[i].wheelForce == 0
  {
    [ CreateWheel(Vec3(-20, -5, 25), true),
      CreateWheel(Vec3(20, -5, 25), true),
      CreateWheel(Vec3(-20, -5, -25)),
      CreateWheel(Vec3(20, -5, -25)) ]
  }

  /** The slot values that go with a command state: the angle on the front
      slots, the force on the rear slots. */
  function WheelsFor(c: Command): (ws: seq<Wheel>)
    ensures |ws| == 4
    ensures forall i :: 0 <= i < 4 ==> ws[i].mount == Layout()[i].mount && ws[i].isFront == Layout()[i].isFront
    // steering values reach only the front slots, drive forces only the rear ones
    ensures forall i :: 0 <= i < 4 ==> ws[i].isFront ==> ws[i].steeringValue == c.steer && ws[i].wheelForce == 0
    ensures forall i :: 0 <= i < 4 ==> !ws[i].isFront ==> ws[i].steeringValue == 0 && ws[i].wheelForce == c.force
  {
    var layout := Layout();
    seq(4, i requires 0 <= i < 4 =>
      if layout[i].isFront then layout[i].(steeringValue := c.steer)
      else layout[i].(wheelForce := c.force))
  }

  /** Before any key event the slots are the fresh `createWheel` slots. */
  lemma InitialWheels()
    ensures WheelsFor(Initial) == Layout()
  {
  }

  /** The closure state of the input handlers together with the per-slot
      values they push into the vehicle. */
  class CarController {
    /** `steeringAngle`, in 0.05-rad steps. */
    var steeringAngle: int
    /** `accelerationForce`, in newtons. */
    var accelerationForce: int
    /** The vehicle's four wheel slots. */
    const wheels: array<Wheel>

    function State(): Command
      reads this
    {
      Command(steeringAngle, accelerationForce)
    }

    /** The stored force is the force on both rear slots, the stored angle is
        the steering value of both front slots, nothing else is written to
        any slot, and the command stays in range. */
    ghost predicate Valid()
      reads this, wheels
    {
      wheels.Length == 4 && wheels[..] == WheelsFor(State()) && InRange(State())
    }

    /** The four `createWheel` calls and `let steeringAngle = 0;
        let accelerationForce = 0;`. */
    constructor ()
      ensures Valid() && fresh(wheels)
      ensures State() == Initial
      ensures wheels[..] == Layout()
    {
      var layout := Layout();
      wheels := new Wheel[4](i requires 0 <= i < 4 => layout[i]);
      steeringAngle := 0;
      accelerationForce := 0;
      new;
      InitialWheels();
    }

    /** `vehicle.setWheelForce(force, wheelIndex)`: stores the force of one slot. */
    method SetWheelForce(force: int, wheelIndex: int)
      requires 0 <= wheelIndex < wheels.Length
      modifies wheels
      ensures wheels[..] == old(wheels[..])[wheelIndex := old(wheels[wheelIndex]).(wheelForce := force)]
    {
      wheels[wheelIndex] := wheels[wheelIndex].(wheelForce := force);
    }

    /** `vehicle.setSteeringValue(value, wheelIndex)`: stores the steering
        value of one slot. */
    method SetSteeringValue(value: int, wheelIndex: int)
      requires 0 <= wheelIndex < wheels.Length
      modifies wheels
      ensures wheels[..] == old(wheels[..])[wheelIndex := old(wheels[wheelIndex]).(steeringValue := value)]
    {
      wheels[wheelIndex] := wheels[wheelIndex].(steeringValue := value);
    }

    /** The `keydown` listener. */
    method KeyDown(key: string)
      requires Valid()
      modifies this`steeringAngle, this`accelerationForce, wheels
      ensures Valid()
      ensures State() == OnKeyDown(old(State()), key)
      // throttle forward: 300 on slots 2 and 3, nothing else changes
      ensures key == "w" || key == "ArrowUp" ==>
        accelerationForce == ForwardForce && steeringAngle == old(steeringAngle) &&
        wheels[..] == old(wheels[..])[2 := old(wheels[2]).(wheelForce := ForwardForce)]
                                     [3 := old(wheels[3]).(wheelForce := ForwardForce)]
      // throttle reverse: -150 on slots 2 and 3, nothing else changes
      ensures key == "s" || key == "ArrowDown" ==>
        accelerationForce == ReverseForce && steeringAngle == old(steeringAngle) &&
        wheels[..] == old(wheels[..])[2 := old(wheels[2]).(wheelForce := ReverseForce)]
                                     [3 := old(wheels[3]).(wheelForce := ReverseForce)]
      // steer left: one step up, clamped at +0.5 rad, written to slots 0 and 1 only
      ensures key == "a" || key == "ArrowLeft" ==>
        steeringAngle == Min(MaxSteer, old(steeringAngle) + SteerStep) &&
        accelerationForce == old(accelerationForce) &&
        wheels[..] == old(wheels[..])[0 := old(wheels[0]).(steeringValue := steeringAngle)]
                                     [1 := old(wheels[1]).(steeringValue := steeringAngle)]
      // steer right: one step down, clamped at -0.5 rad, written to slots 0 and 1 only
      ensures key == "d" || key == "ArrowRight" ==>
        steeringAngle == Max(-MaxSteer, old(steeringAngle) - SteerStep) &&
        accelerationForce == old(accelerationForce) &&
        wheels[..] == old(wheels[..])[0 := old(wheels[0]).(steeringValue := steeringAngle)]
                                     [1 := old(wheels[1]).(steeringValue := steeringAngle)]
      // any other key: no case of the switch matches
      ensures KeyDownAction(key) == NoAction ==>
        State() == old(State()) && wheels[..] == old(wheels[..])
    {
      if key == "w" || key == "ArrowUp" {
        accelerationForce := ForwardForce;
        SetWheelForce(accelerationForce, 2);
        SetWheelForce(accelerationForce, 3);
      } else if key == "s" || key == "ArrowDown" {
        accelerationForce := ReverseForce;
        SetWheelForce(accelerationForce, 2);
        SetWheelForce(accelerationForce, 3);
      } else if key == "a" || key == "ArrowLeft" {
        steeringAngle := Min(MaxSteer, steeringAngle + SteerStep);
        SetSteeringValue(steeringAngle, 0);
        SetSteeringValue(steeringAngle, 1);
      } else if key == "d" || key == "ArrowRight" {
        steeringAngle := Max(-MaxSteer, steeringAngle - SteerStep);
        SetSteeringValue(steeringAngle, 0);
        SetSteeringValue(steeringAngle, 1);
      }
    }

    /** The `keyup` listener. */
    method KeyUp(key: string)
      requires Valid()
      modifies this`accelerationForce, wheels
      ensures Valid()
      ensures State() == OnKeyUp(old(State()), key)
      // releasing a throttle key zeroes slots 2 and 3; steering is kept
      ensures IsThrottleKey(key) ==>
        accelerationForce == 0 && steeringAngle == old(steeringAngle) &&
        wheels[..] == old(wheels[..])[2 := old(wheels[2]).(wheelForce := 0)]
                                     [3 := old(wheels[3]).(wheelForce := 0)]
      // releasing any other key changes nothing
      ensures !IsThrottleKey(key) ==>
        State() == old(State()) && wheels[..] == old(wheels[..])
    {
      if key in ["w", "s", "ArrowUp", "ArrowDown"] {
        accelerationForce := 0;
        SetWheelForce(0, 2);
        SetWheelForce(0, 3);
      }
    }
  }

  /** Drive forward while steering left three presses (letter and arrow keys
      mixed), then release both keys. */
  method DriveAndSteer() returns (angle: int, force: int, front: int, rear: int)
    ensures angle == 3 && force == 0
    ensures front == angle && rear == force
  {
    var car := new CarController();
    car.KeyDown("w");
    car.KeyDown("a");
    car.KeyDown("ArrowLeft");
    car.KeyDown("a");
    car.KeyUp("w");
    car.KeyUp("a");
    angle, force := car.steeringAngle, car.accelerationForce;
    front, rear := car.wheels[0].steeringValue, car.wheels[3].wheelForce;
  }
}
