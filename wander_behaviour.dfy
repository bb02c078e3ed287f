/**
 The behaviour component `SimpleAIWanderAroundBindly` as a class with the
 source's fields. The `WanderAround` coroutine's suspended position and locals
 are kept in fields of their own (`phase`, `rotateDir`, `pendingWait`), and the
 scheduler's resumption of it is the method `WaitExpired`.

 Each method is proved against the functions of module WanderCycle, whose
 lemmas state what a cycle does.
 */
module WanderBehaviour {
  import opened MovementParameters
  import opened WanderCycle

  class SimpleAIWanderAroundBindly {
    /** When on, the agent moves around. */
    var wanderAround: bool
    const movementConfig: MovementConfig

    var isWandering: bool
    var isWalking: bool
    var isRotating: bool
    var isRotatingRight: bool

    // The suspended WanderAround coroutine.
    var phase: Phase
    var rotateDir: int
    var pendingWait: int

    /** The fields as a value of the specification. */
    function State(): WanderState
      reads this
    {
      WanderState(wanderAround, isWandering, isWalking, isRotating, isRotatingRight,
                  phase, rotateDir, pendingWait)
    }

    ghost predicate Valid()
      reads this
    {
      Inv(movementConfig, State())
    }

    /** A new component: wandering on, every private flag false, no cycle running. */
    constructor (movementConfig: MovementConfig)
      ensures Valid()
      ensures this.movementConfig == movementConfig
      ensures State() == Initial(true)
    {
      this.movementConfig := movementConfig;
      wanderAround := true;
      isWandering, isWalking, isRotating, isRotatingRight := false, false, false, false;
      phase, rotateDir, pendingWait := Idle, 0, 0;
    }

    /** The per-frame routine: gated by `wanderAround`, it launches a cycle
        when none is active (with the draws `dir` and `walkWait`), then returns
        the rotation and translation the flags select. */
    method MoveOnUpdate(dir: int, walkWait: int) returns (motion: Motion)
      requires Valid()
      requires wanderAround && !isWandering ==> LaunchFits(movementConfig, dir, walkWait)
      modifies this
      ensures Valid()
      ensures (State(), motion) == WanderCycle.MoveOnUpdate(movementConfig, old(State()), dir, walkWait)
    {
      MoveOnUpdateKeepsInv(movementConfig, State(), dir, walkWait);
      if !wanderAround {
        return NoMotion;
      }

      if !isWandering {
        StartWanderAround(dir, walkWait);
      }

      var rotation := NoRotation;
      if isRotating {
        rotation := RotateAt(if isRotatingRight then -movementConfig.rotateSpeed else movementConfig.rotateSpeed);
      }

      if !isWalking {
        return Motion(rotation, NoTranslation);
      }

      return Motion(rotation, ForwardAt(movementConfig.moveSpeed));
    }

    /** The start of `WanderAround`, which runs as soon as the coroutine is
        started: mark the cycle active, draw the direction, draw the walk wait
        and suspend on it. It is started only when no cycle is active. */
    method StartWanderAround(dir: int, walkWait: int)
      requires Valid() && !isWandering && LaunchFits(movementConfig, dir, walkWait)
      modifies this
      ensures Valid()
      ensures State() == Launch(old(State()), dir, walkWait)
    {
      isWandering := true;
      rotateDir := dir;
      pendingWait := walkWait;
      phase := WaitWalk;
    }

    /** The wait the coroutine is suspended on has expired: run it up to its
        next wait (drawing that wait's duration `draw`) or to its end. It runs
        whether or not `wanderAround` is on. */
    method WaitExpired(draw: int)
      requires Valid() && DrawFits(movementConfig, State(), draw)
      modifies this
      ensures Valid()
      ensures State() == Resume(old(State()), draw)
    {
      ResumeKeepsInv(movementConfig, State(), draw);
      match phase
      case Idle =>
      case WaitWalk =>
        isWalking := true;
        pendingWait := draw;
        phase := Walking;
      case Walking =>
        isWalking := false;
        pendingWait := draw;
        phase := WaitRotate;
      case WaitRotate =>
        if rotateDir == 1 || rotateDir == 2 {
          isRotatingRight := rotateDir == 2;
          isRotating := true;
          pendingWait := draw;
          phase := Rotating;
        } else {
          isWandering := false;
          phase := Idle;
        }
      case Rotating =>
        isRotating := false;
        isWandering := false;
        phase := Idle;
    }
  }

  /** A client of the class: one full cycle with direction 2, driven by frames
      and expiries, turns right once and ends with `isWandering`,
      `isWalking` and `isRotating` false. */
  method RightTurnCycle()
  {
    var agent := new SimpleAIWanderAroundBindly(DefaultConfig);
    var m := agent.MoveOnUpdate(2, 1);
    assert m == NoMotion && agent.phase == WaitWalk;
    agent.WaitExpired(2);
    m := agent.MoveOnUpdate(0, 0);
    assert m == Motion(NoRotation, ForwardAt(3.0));
    agent.WaitExpired(1);
    m := agent.MoveOnUpdate(0, 0);
    assert m == NoMotion;
    agent.WaitExpired(1);
    m := agent.MoveOnUpdate(0, 0);
    assert m == Motion(RotateAt(-100.0), NoTranslation);
    agent.wanderAround := false;
    m := agent.MoveOnUpdate(0, 0);
    assert m == NoMotion;
    agent.WaitExpired(0);
    assert !agent.isWandering && !agent.isWalking && !agent.isRotating;
    agent.wanderAround := true;
    m := agent.MoveOnUpdate(0, 2);
    assert agent.isWandering && agent.phase == WaitWalk;
  }
}
