/** The command state that the keyboard handlers of the car demo keep in two
    closure variables, `steeringAngle` and `accelerationForce`, and the way
    key-down and key-up events change it.

    Units: the steering angle is an integer number of 0.05-radian steps
    (so the source's clamp at +-0.5 rad is +-10 steps); the drive force is in
    newtons. Keys are the strings the browser puts in `event.key`. */
module VehicleCommands {

  /** One press of a steer key moves the angle by one step of 0.05 rad. */
  const SteerStep: int := 1
  /** The steering clamp, 0.5 rad, in steps. */
  const MaxSteer: int := 10
  /** Drive force written on a forward throttle press. */
  const ForwardForce: int := 300
  /** Drive force written on a reverse throttle press. */
  const ReverseForce: int := -150

  function Min(a: int, b: int): int { if a <= b then a else b }
  function Max(a: int, b: int): int { if a >= b then a else b }

  /** What the `keydown` switch does with a key. */
  datatype Action = Forward | Reverse | SteerLeft | SteerRight | NoAction

  /** The `keydown` switch: letter keys and arrow keys select the same case. */
  function KeyDownAction(key: string): Action
  {
    if key == "w" || key == "ArrowUp" then Forward
    else if key == "s" || key == "ArrowDown" then Reverse
    else if key == "a" || key == "ArrowLeft" then SteerLeft
    else if key == "d" || key == "ArrowRight" then SteerRight
    else NoAction
  }

  /** The key list of the `keyup` handler. */
  predicate IsThrottleKey(key: string)
  {
    key in ["w", "s", "ArrowUp", "ArrowDown"]
  }

  /** The values of `steeringAngle` and `accelerationForce`. */
  datatype Command = Command(steer: int, force: int)

  /** Both variables start at 0. */
  const Initial: Command := Command(0, 0)

  /** The states the handlers can reach from `Initial`. */
  predicate InRange(c: Command)
  {
    -MaxSteer <= c.steer <= MaxSteer && c.force in {0, ForwardForce, ReverseForce}
  }

  /** The effect of the `keydown` handler on the two variables. */
  function OnKeyDown(c: Command, key: string): Command
  {
    match KeyDownAction(key)
    case Forward => c.(force := ForwardForce)
    case Reverse => c.(force := ReverseForce)
    case SteerLeft => c.(steer := Min(MaxSteer, c.steer + SteerStep))
    case SteerRight => c.(steer := Max(-MaxSteer, c.steer - SteerStep))
    case NoAction => c
  }

  /** The effect of the `keyup` handler: only throttle keys are handled, and
      steering is never touched. */
  function OnKeyUp(c: Command, key: string): Command
  {
    if IsThrottleKey(key) then c.(force := 0) else c
  }

  /** A keyboard event as delivered to the two listeners. */
  datatype Event = Down(key: string) | Up(key: string)

  function Step(c: Command, e: Event): Command
  {
    match e
    case Down(k) => OnKeyDown(c, k)
    case Up(k) => OnKeyUp(c, k)
  }

  /** The command state after the listeners have handled `evs` in order. */
  function Run(c: Command, evs: seq<Event>): Command
    decreases |evs|
  {
    if evs == [] then c else Run(Step(c, evs[0]), evs[1..])
  }

  /** `n` copies of one event, as the browser delivers for a held key. */
  function Repeat(e: Event, n: nat): (r: seq<Event>)
    ensures |r| == n && forall i :: 0 <= i < n ==> r[i] == e
  {
    if n == 0 then [] else [e] + Repeat(e, n - 1)
  }

  // ---------------------------------------------------------------------
  // Running a concatenation

  lemma {:induction false} RunAppend(c: Command, a: seq<Event>, b: seq<Event>)
    ensures Run(c, a + b) == Run(Run(c, a), b)
    decreases |a|
  {
    if a == [] {
      assert a + b == b;
    } else {
      assert (a + b)[0] == a[0];
      assert (a + b)[1..] == a[1..] + b;
      RunAppend(Step(c, a[0]), a[1..], b);
    }
  }

  // ---------------------------------------------------------------------
  // Bounds

  /** The steering angle stays within [-0.5, 0.5] rad and the drive force is
      one of 0, 300 and -150, whatever events arrive. */
  lemma {:induction false} RunKeepsRange(c: Command, evs: seq<Event>)
    requires InRange(c)
    ensures InRange(Run(c, evs))
    decreases |evs|
  {
    if evs != [] {
      RunKeepsRange(Step(c, evs[0]), evs[1..]);
    }
  }

  /** In particular from the handlers' initial state. */
  lemma ReachableInRange(evs: seq<Event>)
    ensures -MaxSteer <= Run(Initial, evs).steer <= MaxSteer
    ensures Run(Initial, evs).force in {0, ForwardForce, ReverseForce}
  {
    RunKeepsRange(Initial, evs);
  }

  // ---------------------------------------------------------------------
  // Held keys

  /** Holding a steer-left key for `n` key-down events ramps the angle by `n`
      steps, clamped at +0.5 rad, and leaves the force alone. */
  lemma {:induction false} HoldSteerLeft(c: Command, key: string, n: nat)
    requires KeyDownAction(key) == SteerLeft
    requires c.steer <= MaxSteer
    ensures Run(c, Repeat(Down(key), n)) == c.(steer := Min(MaxSteer, c.steer + n))
    decreases n
  {
    if n > 0 {
      HoldSteerLeft(Step(c, Down(key)), key, n - 1);
    }
  }

  /** Holding a steer-right key for `n` key-down events ramps the angle down
      by `n` steps, clamped at -0.5 rad, and leaves the force alone. */
  lemma {:induction false} HoldSteerRight(c: Command, key: string, n: nat)
    requires KeyDownAction(key) == SteerRight
    requires -MaxSteer <= c.steer
    ensures Run(c, Repeat(Down(key), n)) == c.(steer := Max(-MaxSteer, c.steer - n))
    decreases n
  {
    if n > 0 {
      HoldSteerRight(Step(c, Down(key)), key, n - 1);
    }
  }

  /** Key repeat of a throttle key is harmless: any positive number of
      key-down events gives the state one press gives. */
  lemma {:induction false} HoldThrottleIdempotent(c: Command, key: string, n: nat)
    requires KeyDownAction(key) == Forward || KeyDownAction(key) == Reverse
    requires n >= 1
    ensures Run(c, Repeat(Down(key), n)) == OnKeyDown(c, key)
    decreases n
  {
    if n > 1 {
      HoldThrottleIdempotent(c, key, n - 1);
      assert Repeat(Down(key), n) == Repeat(Down(key), n - 1) + [Down(key)];
      RunAppend(c, Repeat(Down(key), n - 1), [Down(key)]);
    }
  }

  /** Hold 'a' for `n` events from rest, then release it: the angle has
      ramped by `n` steps (clamped) and the release keeps it. */
  lemma HoldLeftThenRelease(n: nat)
    ensures Run(Initial, Repeat(Down("a"), n) + [Up("a")]) == Command(Min(MaxSteer, n), 0)
  {
    RunAppend(Initial, Repeat(Down("a"), n), [Up("a")]);
    HoldSteerLeft(Initial, "a", n);
  }

  // ---------------------------------------------------------------------
  // Releases and unmatched keys

  /** Releasing a throttle key zeroes the force and keeps the angle;
      releasing any other key changes nothing. */
  lemma KeyUpEffect(c: Command, key: string)
    ensures OnKeyUp(c, key).steer == c.steer
    ensures IsThrottleKey(key) ==> OnKeyUp(c, key).force == 0
    ensures !IsThrottleKey(key) ==> OnKeyUp(c, key) == c
  {
  }

  /** Keys outside the switch, such as 'e', ' ' or an upper-case 'W', leave
      the state unchanged on both key-down and key-up. */
  lemma UnmatchedKeys(c: Command)
    ensures Step(c, Down("e")) == c && Step(c, Up("e")) == c
    ensures Step(c, Down(" ")) == c && Step(c, Up(" ")) == c
    ensures Step(c, Down("W")) == c && Step(c, Up("W")) == c
  {
  }

  // ---------------------------------------------------------------------
  // Letter keys and arrow keys are aliases

  /** The letter key that an arrow key stands for; other keys map to themselves. */
  function Canonical(key: string): string
  {
    if key == "ArrowUp" then "w"
    else if key == "ArrowDown" then "s"
    else if key == "ArrowLeft" then "a"
    else if key == "ArrowRight" then "d"
    else key
  }

  function CanonicalEvent(e: Event): Event
  {
    match e
    case Down(k) => Down(Canonical(k))
    case Up(k) => Up(Canonical(k))
  }

  function CanonicalEvents(evs: seq<Event>): (r: seq<Event>)
    ensures |r| == |evs|
    decreases |evs|
  {
    if evs == [] then [] else [CanonicalEvent(evs[0])] + CanonicalEvents(evs[1..])
  }

  /** Replacing every arrow key by its letter key gives the same state. */
  lemma {:induction false} RunAliases(c: Command, evs: seq<Event>)
    ensures Run(c, CanonicalEvents(evs)) == Run(c, evs)
    decreases |evs|
  {
    if evs != [] {
      var ce := CanonicalEvents(evs);
      assert ce[0] == CanonicalEvent(evs[0]) && ce[1..] == CanonicalEvents(evs[1..]);
      assert Step(c, ce[0]) == Step(c, evs[0]);
      RunAliases(Step(c, evs[0]), evs[1..]);
    }
  }

  /** Two event sequences that differ only in letter-versus-arrow keys end in
      the same state. */
  lemma SameActionsSameState(c: Command, a: seq<Event>, b: seq<Event>)
    requires CanonicalEvents(a) == CanonicalEvents(b)
    ensures Run(c, a) == Run(c, b)
  {
    RunAliases(c, a);
    RunAliases(c, b);
  }

  // ---------------------------------------------------------------------
  // The drive force is what the last throttle event set

  /** The force an event writes, if it writes one. */
  function ForceWrittenBy(e: Event): (r: Option<int>)
  {
    match e
    case Down(k) =>
      (match KeyDownAction(k)
       case Forward => Some(ForwardForce)
       case Reverse => Some(ReverseForce)
       case _ => None)
    case Up(k) => if IsThrottleKey(k) then Some(0) else None
  }

  datatype Option<T> = None | Some(value: T)

  /** Reference definition read from the end of the event sequence: the force
      written by the last event that writes one, or the initial force. */
  function LastForce(f0: int, evs: seq<Event>): int
    decreases |evs|
  {
    if evs == [] then f0
    else match ForceWrittenBy(evs[|evs| - 1])
      case Some(f) => f
      case None => LastForce(f0, evs[..|evs| - 1])
  }

  /** Steering presses in between do not disturb the drive force: it is
      always the one the most recent throttle press or release wrote. */
  lemma {:induction false} RunForce(c: Command, evs: seq<Event>)
    ensures Run(c, evs).force == LastForce(c.force, evs)
    decreases |evs|
  {
    if evs != [] {
      var init, last := evs[..|evs| - 1], evs[|evs| - 1];
      assert evs == init + [last];
      RunAppend(c, init, [last]);
      RunForce(c, init);
    }
  }

  // ---------------------------------------------------------------------
  // Steering ignores everything but the steer keys

  predicate IsSteerEvent(e: Event)
  {
    e.Down? && (KeyDownAction(e.key) == SteerLeft || KeyDownAction(e.key) == SteerRight)
  }

  /** The steer-key presses of `evs`, in order. */
  function SteeringEvents(evs: seq<Event>): seq<Event>
    decreases |evs|
  {
    if evs == [] then []
    else (if IsSteerEvent(evs[0]) then [evs[0]] else []) + SteeringEvents(evs[1..])
  }

  /** The final angle depends on the starting angle alone, never on the
      force. */
  lemma {:induction false} SteerOnlyDependsOnSteer(c: Command, d: Command, evs: seq<Event>)
    requires c.steer == d.steer
    ensures Run(c, evs).steer == Run(d, evs).steer
    decreases |evs|
  {
    if evs != [] {
      SteerOnlyDependsOnSteer(Step(c, evs[0]), Step(d, evs[0]), evs[1..]);
    }
  }

  /** Throttle presses, releases and unmatched keys never change the angle:
      the angle after `evs` is the angle after its steer-key presses alone. */
  lemma {:induction false} SteerIgnoresOtherKeys(c: Command, evs: seq<Event>)
    ensures Run(c, evs).steer == Run(c, SteeringEvents(evs)).steer
    decreases |evs|
  {
    if evs != [] {
      var e, rest := evs[0], evs[1..];
      SteerIgnoresOtherKeys(Step(c, e), rest);
      if IsSteerEvent(e) {
        assert SteeringEvents(evs) == [e] + SteeringEvents(rest);
        RunAppend(c, [e], SteeringEvents(rest));
      } else {
        assert SteeringEvents(evs) == SteeringEvents(rest);
        assert Step(c, e).steer == c.steer;
        SteerOnlyDependsOnSteer(Step(c, e), c, SteeringEvents(rest));
      }
    }
  }
}
