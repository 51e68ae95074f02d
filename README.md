# JEL side-scroller character: dash timing

A model of the player character of the JEL side-scroller, an Unreal Engine
project. The character's own logic is a double-tap dash detector in
`AJELCharacter::MoveRight`. Each call decides whether the horizontal axis
value is a *fresh press*. A fresh press is a non-zero value while the axis
was not already held. On a fresh press the call picks the walk-speed mode:
dash speed (1000) if the last press in the same direction is less than the
leeway (2 seconds) old, otherwise default speed (250). It then refreshes
that direction's timestamp. Every call forwards the value to the engine as
one movement command along `(0, -1, 0)` and records the value and the held
flag. `Drop` makes the capsule overlap world-static geometry instead of
blocking it. The touch handlers start and stop a jump.

The project has three modules:

- `DashTiming` (`dash_timing.dfy`) holds the state as a value (`DashState`),
  one call of `MoveRight` as `Step`, a sequence of calls as `Run`, and the
  invariant `Valid`. `Valid` says the held flag is set exactly when the last
  value was non-zero, and the walk speed is one of the two modes.
- `DashProperties` (`dash_properties.dfy`) holds lemmas about single calls
  and sequences of calls.
- `JELCharacter` (`character.dfy`) holds the class `Character`. It has the
  C++ member fields, a log of engine calls, and the methods `MoveRight`,
  `Drop`, `TouchStarted` and `TouchStopped`. These methods are written
  imperatively like the source. `MoveRight` is proved to produce exactly
  `Step` of the old state.

The clock is injected. The result of `time(NULL)` is the `int` parameter
`now`, in whole seconds, and `difftime(now, last)` is `now - last` as a real
number. The axis value (a C++ `float`) is a `real`.

Behaviour of the code worth noting:

- A press less than 2 seconds after construction dashes, because both
  timestamps start at construction time (lines 53-54;
  `FirstPressAfterConstruction`).
- A direct reversal from one direction to the other is not a fresh press,
  because `bMovementHeld` is still set. Only a zero sample re-arms the press
  (`DirectReversalIsNotAPress`, `HeldNeverRetriggers`).
- The checks on the previous value before each timestamp refresh (lines 89
  and 98) always pass on a fresh press, because a fresh press implies the
  previous value was 0. The pressed direction's timestamp is therefore
  refreshed on every fresh press (`FreshPressRefreshesTimer`).

## Model

| member | source | states |
|---|---|---|
| `DashTiming.Initial` | Source/JEL/JELCharacter.cpp:46-56 | The state after construction is valid and not held, has default walk speed and a zero last value, and has both press timestamps equal to the construction time. |
| `DashTiming.PressSpeed` | Source/JEL/JELCharacter.cpp:84-88 | A fresh press selects one of the two speed modes. It is dash speed exactly when the same-direction timestamp is less than the leeway old. |
| `DashTiming.Step` | Source/JEL/JELCharacter.cpp:77-113 | After any call the last value is the argument, and the state is held iff the argument is non-zero. A call that is not a fresh press leaves the speed and both timestamps unchanged. A fresh right press dashes iff the right timestamp is less than the leeway old, and leaves the left timestamp alone; a left press mirrors this. A fresh press always yields a speed mode. `Valid` is preserved. |
| `DashTiming.Run` | Source/JEL/JELCharacter.cpp:77-113 | A sequence of calls preserves `Valid`. After a non-empty sequence, the last value and the held flag are those of the final sample. |
| `DashProperties.FreshPressRefreshesTimer` | Source/JEL/JELCharacter.cpp:84-100 | In a valid state a fresh press implies the previous value was 0, so the guard before each timestamp refresh holds. The pressed direction's timestamp becomes `now`, dash or not. |
| `DashProperties.RightPressIgnoresLeftTimer` | Source/JEL/JELCharacter.cpp:84-92 | The speed and right timestamp after a right press are the same whatever the left timestamp is. |
| `DashProperties.LeftPressIgnoresRightTimer` | Source/JEL/JELCharacter.cpp:93-101 | The speed and left timestamp after a left press are the same whatever the right timestamp is. |
| `DashProperties.DirectReversalIsNotAPress` | Source/JEL/JELCharacter.cpp:79-112 | A non-zero value followed directly by one of the opposite sign is not a fresh press. The second call leaves the speed and both timestamps as the first left them. |
| `DashProperties.FirstPressAfterConstruction` | Source/JEL/JELCharacter.cpp:53-54 | The first press after construction dashes iff it comes less than the leeway after construction. It refreshes only its own direction's timestamp. |
| `DashProperties.HeldNeverRetriggers` | Source/JEL/JELCharacter.cpp:79-112 | While every sample is non-zero, however much time passes and even through direct reversals, the axis stays held. The speed mode and both timestamps never change. |
| `DashProperties.RunKeepsRightTimer` | Source/JEL/JELCharacter.cpp:84-101 | Calls that never push right leave the right timestamp unchanged. |
| `DashProperties.RunKeepsLeftTimer` | Source/JEL/JELCharacter.cpp:84-101 | Calls that never push left leave the left timestamp unchanged. |
| `DashProperties.RightPressAfterOtherInput` | Source/JEL/JELCharacter.cpp:84-92 | After calls that never push right and end at neutral, a right press dashes iff the right timestamp from before those calls is less than the leeway old. Left presses in between do not matter. |
| `DashProperties.LeftPressAfterOtherInput` | Source/JEL/JELCharacter.cpp:93-101 | Mirror of the right case: left presses are judged only against the left timestamp. |
| `DashProperties.DoubleTapRight` | Source/JEL/JELCharacter.cpp:77-113 | Take a fresh right press at `t1`, a hold, a release through non-right values ending at neutral, and a right press at `t2`. The second press dashes iff `t2 - t1` is under the leeway, otherwise it gets default speed, and it sets the right timestamp to `t2`. |
| `DashProperties.DoubleTapLeft` | Source/JEL/JELCharacter.cpp:77-113 | The same double-tap timing for the left direction. |
| `DashProperties.DoubleTapSession` | Source/JEL/JELCharacter.cpp:46-113 | A concrete session: created at 0, right presses at 10 (default), 11 (dash) and 14 (default), with releases in between. |
| `JELCharacter.Character.constructor` | Source/JEL/JELCharacter.cpp:46-56 | The new character is in the state `Initial(now)`: default walk speed, neutral, not held, both timestamps `now`. It has an empty call log and blocks world-static geometry. |
| `JELCharacter.Character.MoveRight` | Source/JEL/JELCharacter.cpp:77-113 | The new dash state is `Step` of the old one, and `Valid` is preserved. Exactly one command `AddMovementInput((0,-1,0), value)` is appended to the call log, fresh press or not. The collision response is unchanged. |
| `JELCharacter.Character.Drop` | Source/JEL/JELCharacter.cpp:115-116 | The world-static response becomes Overlap whatever it was, so a second call changes nothing. Only this field may change. No other method changes the response. |
| `JELCharacter.Character.TouchStarted` | Source/JEL/JELCharacter.cpp:120-124 | Any touch appends exactly one `Jump` call and changes nothing else. |
| `JELCharacter.Character.TouchStopped` | Source/JEL/JELCharacter.cpp:126-129 | Any touch release appends exactly one `StopJumping` call and changes nothing else. |

## Left out

- Engine component setup in the constructor (capsule size, camera boom and camera, rotation, gravity, air control, jump velocity, friction, fly speed; lines 14-45 and 48). These are constants handed to engine objects whose behaviour is not in this source.
- `SetupPlayerInputComponent` (lines 65-75). It only binds input to the engine's dispatcher. The Jump and StopJumping actions it binds go straight to engine methods.
- What the engine does with `AddMovementInput`, `Jump`, `StopJumping` and the collision response. That is physics and animation owned by the engine. The model records the calls and the response value only.
- The initial world-static response: `Block` is the engine's default for a character capsule. The source does not set it.
- The wall clock. Each call of `MoveRight` takes one reading `now`. The source reads `time(NULL)` twice on a fresh press: once in the `difftime` comparison and once to store the timestamp. If a second boundary passed between the two reads, the stored timestamp could be one second later than the one compared. The model does not capture that. The constructor also reads `time(NULL)` twice, once per timestamp (lines 53 and 54); the model gives both timestamps the one reading `now`. If a second boundary passed between those two reads, `lastRightPress` would be one greater than `lastLeftPress`, and a right press two seconds after the first reading would still dash; `FirstPressAfterConstruction` takes the single reading as the construction time. It also does not model `time` returning -1 on failure.
- `JELCharacter.Character.MoveRight`: does not model IEEE `float`. The axis value is a real number, so NaN (which counts as non-zero but neither positive nor negative) and rounding are not captured. The 250, 1000 and 2 constants are exact in `float`.
- `JELCharacter.h` is not part of this model. The field types come from their use in the `.cpp` file: `time_t` becomes `int`, `float` becomes `real`, `bool` stays `bool`.
- The commented-out debug messages.
- `JELGameMode.cpp`, `JELGameMode.h` and `JEL.Build.cs`. They hold a class-asset lookup whose result is discarded (its assignment is commented out), a declaration, and build rules.
