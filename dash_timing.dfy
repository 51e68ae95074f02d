/**
 The double-tap dash state machine of the side-scrolling character, as values.

 `DashState` holds the five pieces of state that `AJELCharacter::MoveRight`
 reads and writes; `Step` is one call of `MoveRight`, and `Run` is a sequence
 of calls. The mutable character in module JELCharacter is proved against
 `Step`.
 */
module DashTiming {

  /** Speed mode used after a press that is not a dash (fDefaultMaxWalkSpeed). */
  const DefaultMaxWalkSpeed: real := 250.0
  /** Speed mode used after a dash press (fDefaultMaxDashSpeed). */
  const DefaultMaxDashSpeed: real := 1000.0
  /** Seconds within which a second same-direction press is a dash (fDashInputLeeway). */
  const DashInputLeeway: real := 2.0

  /** A world-space vector handed to the host movement system. */
  datatype Vector = Vector(x: real, y: real, z: real)

  /** Every horizontal movement command uses this direction; the axis value is its scale. */
  const MoveDirection: Vector := Vector(0.0, -1.0, 0.0)

  /**
   The dash-timing state of one character. Timestamps are whole seconds, as
   `time(NULL)` returns them; `maxWalkSpeed` is the movement component's
   MaxWalkSpeed, the only part of that component the logic touches.
   */
  datatype DashState = DashState(
    lastLeftPress: int,
    lastRightPress: int,
    lastMovementValue: real,
    movementHeld: bool,
    maxWalkSpeed: real)

  /** One axis sample: the value the input system passes and the clock reading at that call. */
  datatype Sample = Sample(value: real, now: int)

  /** The speed modes the character can be in. */
  predicate IsSpeedMode(speed: real) {
    speed == DefaultMaxWalkSpeed || speed == DefaultMaxDashSpeed
  }

  /**
   The invariant every reachable state keeps: the held flag says exactly
   whether the last axis value was away from neutral, and the walk speed is
   one of the two modes.
   */
  predicate Valid(s: DashState) {
    && (s.movementHeld <==> s.lastMovementValue != 0.0)
    && IsSpeedMode(s.maxWalkSpeed)
  }

  /** The state right after construction at clock reading `now`. */
  function Initial(now: int): (s: DashState)
    ensures Valid(s) && !s.movementHeld
    ensures s.lastLeftPress == now && s.lastRightPress == now
    ensures s.maxWalkSpeed == DefaultMaxWalkSpeed && s.lastMovementValue == 0.0
  {
    DashState(now, now, 0.0, false, DefaultMaxWalkSpeed)
  }

  /** `difftime(now, last)`: seconds elapsed since `last`, as a double. */
  function Elapsed(now: int, last: int): real {
    (now - last) as real
  }

  /** A fresh press: the axis is away from neutral and was not already held. */
  predicate IsNewPress(s: DashState, value: real) {
    value != 0.0 && !s.movementHeld
  }

  /**
   The speed mode a fresh press selects, given the timestamp of the last
   press in the same direction: dash speed exactly when that press is less
   than the leeway old.
   */
  function PressSpeed(now: int, lastPress: int): (speed: real)
    ensures IsSpeedMode(speed)
    ensures speed == DefaultMaxDashSpeed <==> Elapsed(now, lastPress) < DashInputLeeway
  {
    if Elapsed(now, lastPress) < DashInputLeeway then DefaultMaxDashSpeed else DefaultMaxWalkSpeed
  }

  /**
   One call of MoveRight with axis value `value` at clock reading `now`.
   A fresh press to the right (left) selects the speed mode from the right
   (left) timestamp and refreshes that timestamp when the previous value was
   not already to the right (left); every call records the value and the
   held flag.
   */
  function Step(s: DashState, value: real, now: int): (r: DashState)
    ensures r.lastMovementValue == value && (r.movementHeld <==> value != 0.0)
    ensures !IsNewPress(s, value) ==>
      && r.maxWalkSpeed == s.maxWalkSpeed
      && r.lastLeftPress == s.lastLeftPress
      && r.lastRightPress == s.lastRightPress
    ensures IsNewPress(s, value) && value > 0.0 ==>
      && (r.maxWalkSpeed == DefaultMaxDashSpeed <==> Elapsed(now, s.lastRightPress) < DashInputLeeway)
      && r.lastLeftPress == s.lastLeftPress
    ensures IsNewPress(s, value) && value < 0.0 ==>
      && (r.maxWalkSpeed == DefaultMaxDashSpeed <==> Elapsed(now, s.lastLeftPress) < DashInputLeeway)
      && r.lastRightPress == s.lastRightPress
    ensures IsNewPress(s, value) ==> IsSpeedMode(r.maxWalkSpeed)
    ensures Valid(s) ==> Valid(r)
  {
    var newPress := IsNewPress(s, value);
    var pressed :=
      if value > 0.0 && newPress then
        s.(maxWalkSpeed := PressSpeed(now, s.lastRightPress),
           lastRightPress := if s.lastMovementValue <= 0.0 then now else s.lastRightPress)
      else if value < 0.0 && newPress then
        s.(maxWalkSpeed := PressSpeed(now, s.lastLeftPress),
           lastLeftPress := if s.lastMovementValue >= 0.0 then now else s.lastLeftPress)
      else
        s;
    pressed.(lastMovementValue := value, movementHeld := value != 0.0)
  }

  /** The state after the calls `samples`, in order, starting from `s`. */
  function Run(s: DashState, samples: seq<Sample>): (r: DashState)
    ensures Valid(s) ==> Valid(r)
    ensures samples != [] ==>
      && r.lastMovementValue == samples[|samples| - 1].value
      && (r.movementHeld <==> samples[|samples| - 1].value != 0.0)
    decreases |samples|
  {
    if samples == [] then s
    else Run(Step(s, samples[0].value, samples[0].now), samples[1..])
  }
}
