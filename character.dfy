/**
 The side-scrolling player character: its dash-timing fields, the
 movement component's MaxWalkSpeed, the capsule's response to world-static
 geometry, and a log of the calls it makes into the host engine.
 */
module JELCharacter {
  import opened DashTiming

  /** How the capsule responds to the world-static collision channel. */
  datatype CollisionResponse = Block | Overlap

  /** A call the character makes into the engine; what the engine then does is not modelled. */
  datatype HostCall =
    | AddMovementInput(worldDirection: Vector, scaleValue: real)
    | Jump
    | StopJumping

  class Character {
    var lastLeftPress: int
    var lastRightPress: int
    var lastMovementValue: real
    var movementHeld: bool
    /** GetCharacterMovement()->MaxWalkSpeed */
    var maxWalkSpeed: real
    /** The capsule's response to ECC_WorldStatic. */
    var worldStaticResponse: CollisionResponse
    /** Every engine call made so far, oldest first. */
    var hostCalls: seq<HostCall>

    /** The dash-timing part of the character, as a value. */
    function State(): DashState
      reads this
    {
      DashState(lastLeftPress, lastRightPress, lastMovementValue, movementHeld, maxWalkSpeed)
    }

    ghost predicate Valid()
      reads this
    {
      DashTiming.Valid(State())
    }

    /**
     Construction at clock reading `now`: default walk speed, neutral axis,
     both press timestamps at `now`. The capsule starts out blocking
     world-static geometry, the engine's default for a character.
     */
    constructor (now: int)
      ensures Valid()
      ensures State() == Initial(now)
      ensures maxWalkSpeed == DefaultMaxWalkSpeed
      ensures lastMovementValue == 0.0 && !movementHeld
      ensures lastLeftPress == now && lastRightPress == now
      ensures worldStaticResponse == Block
      ensures hostCalls == []
    {
      maxWalkSpeed := DefaultMaxWalkSpeed;
      lastLeftPress := now;
      lastRightPress := now;
      lastMovementValue := 0.0;
      movementHeld := false;
      worldStaticResponse := Block;
      hostCalls := [];
    }

    /**
     The horizontal axis handler, called with axis value `value` at clock
     reading `now`. The new dash state is `Step` of the old one; exactly one
     movement command is issued, whether or not this is a fresh press.
     */
    method MoveRight(value: real, now: int)
      modifies this
      ensures State() == Step(old(State()), value, now)
      ensures lastMovementValue == value && (movementHeld <==> value != 0.0)
      ensures hostCalls == old(hostCalls) + [AddMovementInput(MoveDirection, value)]
      ensures worldStaticResponse == old(worldStaticResponse)
      ensures old(Valid()) ==> Valid()
    {
      var newPress := false;
      if value != 0.0 && !movementHeld {
        newPress := true;
      }

      if value > 0.0 && newPress {
        maxWalkSpeed := DefaultMaxWalkSpeed;
        if Elapsed(now, lastRightPress) < DashInputLeeway {
          maxWalkSpeed := DefaultMaxDashSpeed;
        }
        if lastMovementValue <= 0.0 {
          lastRightPress := now;
        }
      } else if value < 0.0 && newPress {
        maxWalkSpeed := DefaultMaxWalkSpeed;
        if Elapsed(now, lastLeftPress) < DashInputLeeway {
          maxWalkSpeed := DefaultMaxDashSpeed;
        }
        if lastMovementValue >= 0.0 {
          lastLeftPress := now;
        }
      }

      hostCalls := hostCalls + [AddMovementInput(MoveDirection, value)];
      lastMovementValue := value;

      movementHeld := false;
      if value != 0.0 {
        movementHeld := true;
      }
    }

    /**
     Lets the character fall through world-static geometry: the capsule
     overlaps it instead of blocking. Calling it again changes nothing, and
     no method of the character sets the response back to Block.
     */
    method Drop()
      modifies this`worldStaticResponse
      ensures worldStaticResponse == Overlap
    {
      worldStaticResponse := Overlap;
    }

    /** Any touch, whatever the finger and location, starts a jump. */
    method TouchStarted(fingerIndex: int, location: Vector)
      modifies this`hostCalls
      ensures hostCalls == old(hostCalls) + [Jump]
    {
      hostCalls := hostCalls + [Jump];
    }

    /** Releasing any touch stops the jump. */
    method TouchStopped(fingerIndex: int, location: Vector)
      modifies this`hostCalls
      ensures hostCalls == old(hostCalls) + [StopJumping]
    {
      hostCalls := hostCalls + [StopJumping];
    }
  }
}
