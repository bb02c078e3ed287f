/**
 The wander behaviour as a pure state machine: the specification that the
 class in module WanderBehaviour is proved against, and the lemmas stating
 what a cycle does.

 The `WanderAround` coroutine is replaced by its explicit position (`phase`)
 together with its local `rotateDir` and the seconds of the wait it is
 suspended on (`pending`). The coroutine resumes when that wait has expired
 (`Resume`); `MoveOnUpdate` is the per-frame routine.
 */
module WanderCycle {
  import opened MovementParameters

  /** Where the `WanderAround` coroutine is suspended; `Idle` when no cycle is active. */
  datatype Phase = Idle | WaitWalk | Walking | WaitRotate | Rotating

  /** The controller's state: the public `wanderAround` switch, the four private
      flags, and the suspended coroutine. */
  datatype WanderState = WanderState(
    wanderAround: bool,
    isWandering: bool,
    isWalking: bool,
    isRotating: bool,
    isRotatingRight: bool,
    phase: Phase,
    rotateDir: int,
    pending: int)

  /** A rotation about the up axis, in degrees per second (the host scales it
      by the frame's elapsed time). */
  datatype Rotation = NoRotation | RotateAt(degreesPerSecond: real)

  /** A translation along the forward axis, in units per second. */
  datatype Translation = NoTranslation | ForwardAt(unitsPerSecond: real)

  /** The motion one frame applies to the transform. */
  datatype Motion = Motion(rotation: Rotation, translation: Translation)

  const NoMotion := Motion(NoRotation, NoTranslation)

  /** A freshly created controller: all private flags false, no cycle running. */
  function Initial(wanderAround: bool): WanderState {
    WanderState(wanderAround, false, false, false, false, Idle, 0, 0)
  }

  /** Starting the coroutine runs its body up to the first wait: the cycle is
      marked active, the direction is drawn and the walk wait is drawn. */
  function Launch(s: WanderState, dir: int, walkWait: int): WanderState {
    s.(isWandering := true, rotateDir := dir, phase := WaitWalk, pending := walkWait)
  }

  /** The motion selected by the flags: turning with the signed rotation speed
      when rotating, moving forward when walking. */
  function FlagMotion(c: MovementConfig, s: WanderState): Motion {
    Motion(
      if s.isRotating then RotateAt(if s.isRotatingRight then -c.rotateSpeed else c.rotateSpeed)
      else NoRotation,
      if s.isWalking then ForwardAt(c.moveSpeed) else NoTranslation)
  }

  /** One frame: nothing when wandering is switched off; otherwise a cycle is
      launched when none is active, then the flags select the motion.
      `dir` and `walkWait` are the draws the launch uses. */
  function MoveOnUpdate(c: MovementConfig, s: WanderState, dir: int, walkWait: int): (WanderState, Motion) {
    if !s.wanderAround then (s, NoMotion)
    else
      var s' := if !s.isWandering then Launch(s, dir, walkWait) else s;
      (s', FlagMotion(c, s'))
  }

  /** The coroutine resumes after the wait it is suspended on; `draw` is the
      duration of the next wait, when it draws one. No coroutine is pending in
      `Idle`, so nothing happens there. */
  function Resume(s: WanderState, draw: int): WanderState {
    match s.phase
    case Idle => s
    case WaitWalk => s.(isWalking := true, phase := Walking, pending := draw)
    case Walking => s.(isWalking := false, phase := WaitRotate, pending := draw)
    case WaitRotate =>
      if s.rotateDir == 1 || s.rotateDir == 2 then
        s.(isRotatingRight := s.rotateDir == 2, isRotating := true, phase := Rotating, pending := draw)
      else
        s.(isWandering := false, phase := Idle)
    case Rotating => s.(isRotating := false, isWandering := false, phase := Idle)
  }

  /** The draws a launch makes are ones the direction and walk-wait queries can return. */
  predicate LaunchFits(c: MovementConfig, dir: int, walkWait: int) {
    c.CanReturn(RotationLeftOrRight, dir) && c.CanReturn(WalkWait, walkWait)
  }

  /** The draw a resumption makes is one the query it calls can return. */
  predicate DrawFits(c: MovementConfig, s: WanderState, draw: int) {
    match s.phase
    case Idle => true
    case WaitWalk => c.CanReturn(WalkTime, draw)
    case Walking => c.CanReturn(RotationWait, draw)
    case WaitRotate => (s.rotateDir == 1 || s.rotateDir == 2) ==> c.CanReturn(RotationTime, draw)
    case Rotating => true
  }

  /** The invariant of every reachable state: the flags follow the coroutine's
      position, the drawn direction selects the rotation sense, and the pending
      wait was drawn from the query of its phase. */
  predicate Inv(c: MovementConfig, s: WanderState) {
    && (s.isWandering <==> s.phase != Idle)
    && (s.isWalking <==> s.phase == Walking)
    && (s.isRotating <==> s.phase == Rotating)
    && (s.phase != Idle ==> c.CanReturn(RotationLeftOrRight, s.rotateDir))
    && (s.phase == Rotating ==> (s.rotateDir == 1 || s.rotateDir == 2) && s.isRotatingRight == (s.rotateDir == 2))
    && (s.phase == WaitWalk ==> c.CanReturn(WalkWait, s.pending))
    && (s.phase == Walking ==> c.CanReturn(WalkTime, s.pending))
    && (s.phase == WaitRotate ==> c.CanReturn(RotationWait, s.pending))
    && (s.phase == Rotating ==> c.CanReturn(RotationTime, s.pending))
  }

  // ---------------------------------------------------------------------------
  // Runs of events

  /** What the host can do: run a frame (with the draws a launch would make),
      let the pending wait expire (with the draw the resumption would make),
      or set the `wanderAround` switch. */
  datatype Event = Frame(dir: int, walkWait: int) | Expire(draw: int) | SetWanderAround(on: bool)

  function Step(c: MovementConfig, s: WanderState, e: Event): WanderState {
    match e
    case Frame(dir, walkWait) => MoveOnUpdate(c, s, dir, walkWait).0
    case Expire(draw) => Resume(s, draw)
    case SetWanderAround(on) => s.(wanderAround := on)
  }

  /** The motion an event applies: only frames move the agent. */
  function Applied(c: MovementConfig, s: WanderState, e: Event): Motion {
    match e
    case Frame(dir, walkWait) => MoveOnUpdate(c, s, dir, walkWait).1
    case Expire(_) => NoMotion
    case SetWanderAround(_) => NoMotion
  }

  predicate Fits(c: MovementConfig, s: WanderState, e: Event) {
    match e
    case Frame(dir, walkWait) => s.wanderAround && !s.isWandering ==> LaunchFits(c, dir, walkWait)
    case Expire(draw) => DrawFits(c, s, draw)
    case SetWanderAround(_) => true
  }

  /** Every event of the run makes draws its queries can return. */
  predicate RunFits(c: MovementConfig, s: WanderState, evs: seq<Event>)
    decreases |evs|
  {
    evs == [] || (Fits(c, s, evs[0]) && RunFits(c, Step(c, s, evs[0]), evs[1..]))
  }

  /** The state after a run of events. */
  function Run(c: MovementConfig, s: WanderState, evs: seq<Event>): WanderState
    decreases |evs|
  {
    if evs == [] then s else Run(c, Step(c, s, evs[0]), evs[1..])
  }

  /** The states after each event of a run. */
  function Trace(c: MovementConfig, s: WanderState, evs: seq<Event>): (tr: seq<WanderState>)
    ensures |tr| == |evs|
    decreases |evs|
  {
    if evs == [] then [] else [Step(c, s, evs[0])] + Trace(c, Step(c, s, evs[0]), evs[1..])
  }

  /** The motions each event of a run applies. */
  function Motions(c: MovementConfig, s: WanderState, evs: seq<Event>): (ms: seq<Motion>)
    ensures |ms| == |evs|
    decreases |evs|
  {
    if evs == [] then [] else [Applied(c, s, evs[0])] + Motions(c, Step(c, s, evs[0]), evs[1..])
  }

  predicate NoSwitching(evs: seq<Event>) {
    forall i :: 0 <= i < |evs| ==> !evs[i].SetWanderAround?
  }

  predicate OnlyFrames(evs: seq<Event>) {
    forall i :: 0 <= i < |evs| ==> evs[i].Frame?
  }

  // ---------------------------------------------------------------------------
  // The invariant is established and kept

  lemma InitialInv(c: MovementConfig, wanderAround: bool)
    ensures Inv(c, Initial(wanderAround))
  {
  }

  lemma MoveOnUpdateKeepsInv(c: MovementConfig, s: WanderState, dir: int, walkWait: int)
    requires Inv(c, s)
    requires s.wanderAround && !s.isWandering ==> LaunchFits(c, dir, walkWait)
    ensures Inv(c, MoveOnUpdate(c, s, dir, walkWait).0)
  {
  }

  lemma ResumeKeepsInv(c: MovementConfig, s: WanderState, draw: int)
    requires Inv(c, s) && DrawFits(c, s, draw)
    ensures Inv(c, Resume(s, draw))
  {
  }

  lemma StepKeepsInv(c: MovementConfig, s: WanderState, e: Event)
    requires Inv(c, s) && Fits(c, s, e)
    ensures Inv(c, Step(c, s, e))
  {
    match e
    case Frame(dir, walkWait) => MoveOnUpdateKeepsInv(c, s, dir, walkWait);
    case Expire(draw) => ResumeKeepsInv(c, s, draw);
    case SetWanderAround(_) =>
  }

  /** Every state a run passes through satisfies the invariant. */
  lemma {:induction false} RunKeepsInv(c: MovementConfig, s: WanderState, evs: seq<Event>)
    requires Inv(c, s) && RunFits(c, s, evs)
    ensures Inv(c, Run(c, s, evs))
    ensures forall i :: 0 <= i < |evs| ==> Inv(c, Trace(c, s, evs)[i])
    decreases |evs|
  {
    if evs != [] {
      StepKeepsInv(c, s, evs[0]);
      RunKeepsInv(c, Step(c, s, evs[0]), evs[1..]);
    }
  }

  // ---------------------------------------------------------------------------
  // Properties of single steps

  /** Walking and rotating never happen together. */
  lemma WalkRotateExclusive(c: MovementConfig, s: WanderState)
    requires Inv(c, s)
    ensures !(s.isWalking && s.isRotating)
  {
  }

  /** The pending wait lies in the range of the query that drew it. */
  lemma PendingWaitInRange(c: MovementConfig, s: WanderState)
    requires Inv(c, s)
    ensures c.walk.minimum < c.walk.maximum && (s.phase == WaitWalk || s.phase == Walking) ==>
              c.walk.minimum <= s.pending < c.walk.maximum
    ensures c.rotation.minimum < c.rotation.maximum && (s.phase == WaitRotate || s.phase == Rotating) ==>
              c.rotation.minimum <= s.pending < c.rotation.maximum
  {
  }

  /** With wandering switched off, a frame changes nothing and moves nothing. */
  lemma DisabledFrameIsInert(c: MovementConfig, s: WanderState, dir: int, walkWait: int)
    requires !s.wanderAround
    ensures MoveOnUpdate(c, s, dir, walkWait) == (s, NoMotion)
  {
  }

  /** A frame launches a cycle exactly when wandering is on and no cycle is
      active; the launch marks the cycle active and records the direction
      before the first wait, and that frame applies no motion. */
  lemma LaunchOnlyWhenIdle(c: MovementConfig, s: WanderState, dir: int, walkWait: int)
    requires Inv(c, s)
    ensures var (s', m) := MoveOnUpdate(c, s, dir, walkWait);
            (s'.phase == WaitWalk && s.phase != WaitWalk) <==> (s.wanderAround && !s.isWandering)
    ensures var (s', m) := MoveOnUpdate(c, s, dir, walkWait);
            s.wanderAround && !s.isWandering ==>
              s'.isWandering && s'.rotateDir == dir && s'.pending == walkWait && m == NoMotion
  {
  }

  /** A frame during an active cycle does not touch the state: the running
      coroutine is the only one. */
  lemma NoOverlap(c: MovementConfig, s: WanderState, dir: int, walkWait: int)
    requires s.isWandering
    ensures MoveOnUpdate(c, s, dir, walkWait).0 == s
  {
  }

  /** The motion of a frame follows the phase: forward motion at the move speed
      exactly while walking, and turning exactly while rotating, clockwise
      (negative speed) for direction 2 and counter-clockwise for direction 1. */
  lemma MotionFollowsPhase(c: MovementConfig, s: WanderState, dir: int, walkWait: int)
    requires Inv(c, s) && s.wanderAround
    requires !s.isWandering ==> LaunchFits(c, dir, walkWait)
    ensures var (s', m) := MoveOnUpdate(c, s, dir, walkWait);
            && (m.translation != NoTranslation <==> s'.phase == Walking)
            && (m.translation != NoTranslation ==> m.translation.unitsPerSecond == c.moveSpeed)
            && (m.rotation != NoRotation <==> s'.phase == Rotating)
            && (s'.phase == Rotating ==>
                  m.rotation.degreesPerSecond == (if s'.rotateDir == 2 then -c.rotateSpeed else c.rotateSpeed))
  {
    MoveOnUpdateKeepsInv(c, s, dir, walkWait);
  }

  /** After switching wandering back on, the next frame has a cycle running,
      whatever the flags were: a new one launched with the frame's draws when
      none was running, otherwise the running one, untouched. */
  lemma ReenableResumesCycling(c: MovementConfig, s: WanderState, dir: int, walkWait: int)
    requires Inv(c, s)
    ensures var s' := MoveOnUpdate(c, s.(wanderAround := true), dir, walkWait).0;
            && s'.isWandering
            && (s.phase == Idle ==> s'.phase == WaitWalk && s'.rotateDir == dir && s'.pending == walkWait)
            && (s.phase != Idle ==> s' == s.(wanderAround := true))
  {
  }

  // ---------------------------------------------------------------------------
  // Properties of runs

  /** No event changes the drawn direction while the cycle stays active: it is
      drawn once, at the launch. */
  lemma StepKeepsDirection(c: MovementConfig, s: WanderState, e: Event)
    requires s.isWandering && Step(c, s, e).isWandering
    ensures Step(c, s, e).rotateDir == s.rotateDir
  {
  }

  /** Over any run of events (frames, expiries and switching, in any order)
      during which the cycle stays active, the direction stays the one drawn
      at its launch. */
  lemma {:induction false} RunKeepsDirection(c: MovementConfig, s: WanderState, evs: seq<Event>)
    requires s.isWandering
    requires forall i :: 0 <= i < |evs| ==> Trace(c, s, evs)[i].isWandering
    ensures forall i :: 0 <= i < |evs| ==> Trace(c, s, evs)[i].rotateDir == s.rotateDir
    decreases |evs|
  {
    if evs != [] {
      var tr := Trace(c, s, evs);
      var s' := Step(c, s, evs[0]);
      assert tr[0] == s';
      StepKeepsDirection(c, s, evs[0]);
      var rest := Trace(c, s', evs[1..]);
      assert forall i :: 0 <= i < |rest| ==> rest[i] == tr[i + 1];
      RunKeepsDirection(c, s', evs[1..]);
      forall i | 0 <= i < |evs| ensures tr[i].rotateDir == s.rotateDir {
        if i > 0 {
          assert tr[i] == rest[i - 1];
        }
      }
    }
  }

  /** Frames alone never disturb an active cycle. */
  lemma {:induction false} FramesDoNotDisturb(c: MovementConfig, s: WanderState, evs: seq<Event>)
    requires s.isWandering && OnlyFrames(evs)
    ensures Run(c, s, evs) == s
    decreases |evs|
  {
    if evs != [] {
      NoOverlap(c, s, evs[0].dir, evs[0].walkWait);
      FramesDoNotDisturb(c, s, evs[1..]);
    }
  }

  /** While wandering stays switched off, no frame moves the agent and no cycle
      is launched; the one in flight, if any, still runs to its end. Starting
      from no active cycle, nothing changes at all. */
  lemma {:induction false} DisabledRunIsInert(c: MovementConfig, s: WanderState, evs: seq<Event>)
    requires !s.wanderAround && NoSwitching(evs)
    ensures forall i :: 0 <= i < |evs| ==> Motions(c, s, evs)[i] == NoMotion
    ensures !Run(c, s, evs).wanderAround
    ensures s.phase == Idle ==> Run(c, s, evs) == s
    decreases |evs|
  {
    if evs != [] {
      var s' := Step(c, s, evs[0]);
      assert !s'.wanderAround;
      assert s.phase == Idle ==> s' == s;
      assert NoSwitching(evs[1..]) by {
        forall i | 0 <= i < |evs[1..]| ensures !evs[1..][i].SetWanderAround? {
          assert evs[1..][i] == evs[i + 1];
        }
      }
      DisabledRunIsInert(c, s', evs[1..]);
      var ms := Motions(c, s, evs);
      forall i | 0 <= i < |evs| ensures ms[i] == NoMotion {
        if i > 0 {
          assert ms[i] == Motions(c, s', evs[1..])[i - 1];
        }
      }
    }
  }

  /** The events of one cycle with no frame in between: the launching frame,
      then the expiry of each wait. The walk wait, walk time, rotation wait and
      rotation time are the durations drawn; a rotation phase adds one more
      expiry, which draws nothing. */
  function CycleEvents(dir: int, walkWait: int, walkTime: int, rotationWait: int, rotationTime: int): seq<Event> {
    [Frame(dir, walkWait), Expire(walkTime), Expire(rotationWait), Expire(rotationTime)]
      + (if dir == 1 || dir == 2 then [Expire(0)] else [])
  }

  lemma {:induction false} TraceCons(c: MovementConfig, s: WanderState, e: Event, evs: seq<Event>)
    ensures Trace(c, s, [e] + evs) == [Step(c, s, e)] + Trace(c, Step(c, s, e), evs)
  {
    assert ([e] + evs)[0] == e;
    assert ([e] + evs)[1..] == evs;
  }

  /** One cycle from its launch to its end: the direction is drawn once and
      kept; walking holds exactly between the end of the walk wait and the end
      of the walk time; a rotation phase happens if and only if the direction
      is 1 or 2, turning right exactly for 2; the cycle stays active until its
      last step, and at its end `isWandering`, `isWalking` and `isRotating`
      are false, so the next frame with
      wandering on launches a new cycle. */
  lemma CycleShape(c: MovementConfig, s: WanderState,
                   dir: int, walkWait: int, walkTime: int, rotationWait: int, rotationTime: int)
    requires Inv(c, s) && s.wanderAround && !s.isWandering
    requires LaunchFits(c, dir, walkWait)
    requires c.CanReturn(WalkTime, walkTime) && c.CanReturn(RotationWait, rotationWait)
    requires c.CanReturn(RotationTime, rotationTime)
    ensures var tr := Trace(c, s, CycleEvents(dir, walkWait, walkTime, rotationWait, rotationTime));
            && |tr| == (if dir == 0 then 4 else 5)
            && (forall i :: 0 <= i < |tr| - 1 ==> tr[i].isWandering && tr[i].rotateDir == dir)
            && (forall i :: 0 <= i < |tr| ==> (tr[i].isWalking <==> i == 1))
            && ((exists i :: 0 <= i < |tr| && tr[i].isRotating) <==> (dir == 1 || dir == 2))
            && (forall i :: 0 <= i < |tr| && tr[i].isRotating ==> tr[i].isRotatingRight == (dir == 2))
            && var last := tr[|tr| - 1];
               && last.phase == Idle && !last.isWandering && !last.isWalking && !last.isRotating
               && last.wanderAround
               && Inv(c, last)
  {
    var s0 := Step(c, s, Frame(dir, walkWait));
    var s1 := Step(c, s0, Expire(walkTime));
    var s2 := Step(c, s1, Expire(rotationWait));
    var s3 := Step(c, s2, Expire(rotationTime));
    var s4 := Step(c, s3, Expire(0));
    assert s0.phase == WaitWalk && s0.isWandering && !s0.isWalking && !s0.isRotating;
    var rest: seq<Event> := if dir == 1 || dir == 2 then [Expire(0)] else [];
    assert CycleEvents(dir, walkWait, walkTime, rotationWait, rotationTime)
        == [Frame(dir, walkWait)] + ([Expire(walkTime)] + ([Expire(rotationWait)] + ([Expire(rotationTime)] + rest)));
    if dir == 1 || dir == 2 {
      TraceCons(c, s3, Expire(0), []);
    }
    TraceCons(c, s2, Expire(rotationTime), rest);
    TraceCons(c, s1, Expire(rotationWait), [Expire(rotationTime)] + rest);
    TraceCons(c, s0, Expire(walkTime), [Expire(rotationWait)] + ([Expire(rotationTime)] + rest));
    TraceCons(c, s, Frame(dir, walkWait), [Expire(walkTime)] + ([Expire(rotationWait)] + ([Expire(rotationTime)] + rest)));
    var tr := Trace(c, s, CycleEvents(dir, walkWait, walkTime, rotationWait, rotationTime));
    if dir == 1 || dir == 2 {
      assert tr == [s0, s1, s2, s3, s4];
      assert tr[3].isRotating;
    } else {
      assert tr == [s0, s1, s2, s3];
    }
  }

  /** Once a cycle has ended, the next frame with wandering on launches a new
      one with the direction and walk wait it draws. */
  lemma EndedCycleRelaunches(c: MovementConfig, s: WanderState, dir: int, walkWait: int)
    requires Inv(c, s) && s.phase == Idle && s.wanderAround
    ensures var s' := MoveOnUpdate(c, s, dir, walkWait).0;
            s'.isWandering && s'.phase == WaitWalk && s'.rotateDir == dir && s'.pending == walkWait
  {
  }
}
