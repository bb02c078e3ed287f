# Wander-around behaviour, modelled in Dafny

This project models `SimpleAIWanderAroundBindly`, a Unity behaviour that moves a non-player character through a repeating random cycle. The agent waits, walks straight ahead, waits again, and then turns in place or does not. It also models the `MovementConfig` queries that draw the cycle's durations and its turning direction.

- `movement_config.dfy`, module `MovementParameters`: the `MovementValueParameters` range (`ValueRange`), the five randomised queries (`Query`) and the configuration (`MovementConfig`).
  - The engine's generator is not modelled. A query's result is a draw passed in as a parameter.
  - `ValueRange.Admits` states which draws the engine's integer `Random.Range(minimum, maximum)` can return: the minimum is inclusive and the maximum exclusive, and the minimum itself is returned when the two bounds are equal.
- `wander_cycle.dfy`, module `WanderCycle`: the behaviour as a pure state machine. It is the specification that the class is proved against.
  - The `WanderAround` coroutine becomes its suspension point (`Phase`: `Idle | WaitWalk | Walking | WaitRotate | Rotating`), its local `rotateDir`, and the seconds of the wait it is suspended on (`pending`).
  - `MoveOnUpdate` is one frame. `Resume` is the coroutine resuming after its wait has expired; it is not gated by `wanderAround`, as in the source.
  - `Inv` is the invariant of the reachable states. Runs of events (`Frame`, `Expire`, `SetWanderAround`) are folded by `Run`, `Trace` and `Motions`.
- `wander_behaviour.dfy`, module `WanderBehaviour`: class `SimpleAIWanderAroundBindly` with the source's fields (`wanderAround`, `movementConfig`, `isWandering`, `isWalking`, `isRotating`, `isRotatingRight`) plus the fields of the suspended coroutine. Its methods modify these fields. The constructor establishes `Valid()` (the invariant `Inv` of the fields); each method requires and keeps it, and its postcondition equates the new state and the returned motion with the `WanderCycle` function it implements. `StartWanderAround` also requires that no cycle is active, which is the only way `MoveOnUpdate` calls it (movement/SimpleAIWanderAroundBindly.cs:75-78).
- Starting a coroutine runs its body synchronously up to its first `yield`. So on the frame that launches a cycle, `isWandering` is set and the direction and the walk wait are drawn (`Launch`, `StartWanderAround`).
- A frame's motion is returned as a value, not applied to a transform. The rotation is the signed rotation speed: negative when turning right, positive otherwise. The translation is forward at the move speed. Both are per second; the host scales them by the frame time.

Two facts about the switch `wanderAround`:
- `MoveOnUpdate` returns at once when `wanderAround` is off (movement/SimpleAIWanderAroundBindly.cs:73), so both cycle start and motion are gated.
- Switching `wanderAround` off does not pause the running coroutine: it keeps advancing through its waits (`WaitExpired` is not gated).

## Model

| member | source | states |
|---|---|---|
| `MovementParameters.DirectionValues` | movement/SimpleAIWanderAroundBindly.cs:30 | the direction query returns exactly the values 0, 1 and 2 |
| `MovementParameters.DurationBounds` | movement/SimpleAIWanderAroundBindly.cs:31-34 | `RotationTime` and `RotationWait` return exactly the values in [rotation.minimum, rotation.maximum); `WalkTime` and `WalkWait` return exactly the values in [walk.minimum, walk.maximum) |
| `MovementParameters.DegenerateRange` | movement/SimpleAIWanderAroundBindly.cs:31-34 | a range with equal bounds returns only its minimum; a range whose minimum exceeds its maximum admits no draw |
| `MovementParameters.DefaultDurations` | movement/SimpleAIWanderAroundBindly.cs:12-34 | with the default ranges (1, 3), every duration is 1 or 2 seconds |
| `WanderCycle.InitialInv` | movement/SimpleAIWanderAroundBindly.cs:58-61 | the initial state (all private flags false, no cycle) satisfies the invariant |
| `WanderCycle.MoveOnUpdateKeepsInv` | movement/SimpleAIWanderAroundBindly.cs:71-102 | a frame keeps the invariant when the draws of a launch come from the direction and walk-wait queries |
| `WanderCycle.ResumeKeepsInv` | movement/SimpleAIWanderAroundBindly.cs:102-118 | a resumption keeps the invariant when its draw comes from the query of the wait it starts |
| `WanderCycle.StepKeepsInv` | movement/SimpleAIWanderAroundBindly.cs:71-118 | any event (frame, expiry, switching `wanderAround`) keeps the invariant |
| `WanderCycle.RunKeepsInv` | movement/SimpleAIWanderAroundBindly.cs:71-118 | every state of any run of events with fitting draws satisfies the invariant |
| `WanderCycle.WalkRotateExclusive` | movement/SimpleAIWanderAroundBindly.cs:103-114 | `isWalking` and `isRotating` are never both true |
| `WanderCycle.PendingWaitInRange` | movement/SimpleAIWanderAroundBindly.cs:102-113 | for a non-empty walk range, the wait being served lies in it during the walk wait and the walk; for a non-empty rotation range, it lies in that range during the rotation wait and the rotation |
| `WanderCycle.DisabledFrameIsInert` | movement/SimpleAIWanderAroundBindly.cs:73 | with `wanderAround` off, a frame changes no state and applies no motion |
| `WanderCycle.LaunchOnlyWhenIdle` | movement/SimpleAIWanderAroundBindly.cs:75-102 | a frame launches a cycle if and only if `wanderAround` is on and no cycle is active; the launch sets `isWandering`, records the drawn direction and walk wait before the first wait, and applies no motion |
| `WanderCycle.NoOverlap` | movement/SimpleAIWanderAroundBindly.cs:75-78 | a frame during an active cycle leaves the whole state unchanged, so no second cycle starts |
| `WanderCycle.MotionFollowsPhase` | movement/SimpleAIWanderAroundBindly.cs:80-89 | a frame translates forward at the move speed exactly while walking, and rotates exactly while rotating, at minus the rotation speed for direction 2 and plus it for direction 1 |
| `WanderCycle.ReenableResumesCycling` | movement/SimpleAIWanderAroundBindly.cs:73-78 | after `wanderAround` is switched back on, the next frame has a cycle running, whatever the previous flags: a new one launched with that frame's draws when none was running, otherwise the running one with its state untouched |
| `WanderCycle.StepKeepsDirection` | movement/SimpleAIWanderAroundBindly.cs:99-118 | no event (frame, expiry or switching) changes the drawn direction while the cycle stays active |
| `WanderCycle.RunKeepsDirection` | movement/SimpleAIWanderAroundBindly.cs:99-118 | over any run of events in any order during which the cycle stays active, every state keeps the direction drawn at the launch |
| `WanderCycle.FramesDoNotDisturb` | movement/SimpleAIWanderAroundBindly.cs:75-90 | any number of frames during an active cycle leave the state unchanged |
| `WanderCycle.DisabledRunIsInert` | movement/SimpleAIWanderAroundBindly.cs:73-118 | while `wanderAround` stays off, no event applies motion and the switch stays off; starting with no coroutine suspended, no state changes at all |
| `WanderCycle.CycleShape` | movement/SimpleAIWanderAroundBindly.cs:97-118 | over one cycle the direction is drawn once and kept; `isWalking` holds exactly between the end of the walk wait and the end of the walk time; a rotation phase occurs if and only if the direction is 1 or 2, with `isRotatingRight` equal to (direction is 2); the cycle stays active until its end, where `isWandering`, `isWalking` and `isRotating` are false (`isRotatingRight` keeps its last value) |
| `WanderCycle.EndedCycleRelaunches` | movement/SimpleAIWanderAroundBindly.cs:75-117 | once a cycle has ended, the next frame with `wanderAround` on launches a new cycle with the newly drawn direction and walk wait |
| `WanderBehaviour.SimpleAIWanderAroundBindly.constructor` | movement/SimpleAIWanderAroundBindly.cs:52-61 | a new component has `wanderAround` on, all private flags false, no cycle, and satisfies the invariant |
| `WanderBehaviour.SimpleAIWanderAroundBindly.MoveOnUpdate` | movement/SimpleAIWanderAroundBindly.cs:71-90 | the new fields and the returned motion are those of `WanderCycle.MoveOnUpdate` on the old fields; the invariant is kept |
| `WanderBehaviour.SimpleAIWanderAroundBindly.StartWanderAround` | movement/SimpleAIWanderAroundBindly.cs:97-102 | from a state with no active cycle, the coroutine's start sets `isWandering`, stores the drawn direction and suspends on the drawn walk wait, keeping the invariant |
| `WanderBehaviour.SimpleAIWanderAroundBindly.WaitExpired` | movement/SimpleAIWanderAroundBindly.cs:102-118 | the new fields are those of `WanderCycle.Resume` on the old fields; the invariant is kept |

## Left out

- Unity transform and vector math (`transform.Rotate`, `position`, `forward`, `up`) and the products with `Time.deltaTime`: a frame returns which rotation and translation it applies, as signed per-second speeds, and nothing is integrated. The exact translation and rotation covered over a cycle at a fixed frame time are therefore not stated.
- The float type of `moveSpeed` and `rotateSpeed`: modelled as reals, without rounding.
- `UnityEngine.Random.Range`: the draws are parameters, constrained to what the engine's integer `Random.Range` returns for a range whose minimum does not exceed its maximum. The engine's behaviour for a minimum above the maximum is not modelled; such a range admits no draw. An inverted walk range therefore prevents any launch, and an inverted rotation range stops a cycle from leaving the walk; frames while `wanderAround` is off and expiries with no cycle running are unaffected.
- The probability of each direction (one third each for 0, 1 and 2): the model states only which values can be drawn.
- The coroutine scheduler and `WaitForSeconds` timing: the expiry of a wait is the explicit step `WaitExpired` (`Resume`), taken whenever the host decides; elapsed time is not counted, and the order of `Update` and coroutine resumption within one engine frame is not modelled.
- `Update`: it only calls `MoveOnUpdate`.
- `strandConfig`: its type is not part of this model and the field is never used.
- The `[Serializable]` and `[Tooltip]` attributes: editor metadata.
- Deactivating the game object, which stops its coroutines in the engine: not modelled; the only way a cycle ends is by running to completion.
