/**
 * The crouch / run state machine of AFPCharacter, stated on values.
 *
 * A CrouchState holds the fields the crouch logic reads and writes: the
 * phase, the two intents, the remembered walk speed, the movement
 * component's MaxWalkSpeed, the capsule half-height and the camera's
 * relative location. The key handlers, the per-tick update and the
 * walk-speed recompute are functions from state to state; the character
 * class in character.dfy is proved to update its fields exactly as these
 * functions say.
 */
module Crouch {
  import opened Wrappers
  import opened FPSettings

  datatype Vec3 = Vec3(x: real, y: real, z: real)

  function Abs(x: real): real {
    if x < 0.0 then -x else x
  }

  /** FMath::Lerp: the alpha is not clamped. */
  function Lerp(a: real, b: real, alpha: real): real {
    a + (b - a) * alpha
  }

  function LerpVec(a: Vec3, b: Vec3, alpha: real): Vec3 {
    Vec3(Lerp(a.x, b.x, alpha), Lerp(a.y, b.y, alpha), Lerp(a.z, b.z, alpha))
  }

  /** FMath::IsNearlyEqual with an explicit tolerance. */
  predicate IsNearlyEqual(a: real, b: real, tolerance: real) {
    Abs(a - b) <= tolerance
  }

  /** The margin within which a transition snaps to its target. */
  const ErrorMargin: real := 2.0

  /** The camera's relative location while crouched. */
  const CrouchedCameraLocation: Vec3 := Vec3(0.0, 0.0, 30.0)

  /** The standing capsule half-height and camera location captured at BeginPlay. */
  datatype Baseline = Baseline(halfHeight: real, camera: Vec3)

  datatype CrouchState = CrouchState(
    phase: CrouchPhase,
    wantsToCrouch: bool,
    wantsToRun: bool,
    currentWalkSpeed: real,
    maxWalkSpeed: real,
    halfHeight: real,
    camera: Vec3)

  // ---------------------------------------------------------------------
  // The blocked-stance test

  /** What the upward sphere sweep of IsBlockedInCrouchStance reports. */
  datatype SweepHit = NoHit | Hit(simulatesPhysics: bool)

  /** Only a hit on something that does not simulate physics blocks standing up. */
  function IsBlockedBySweep(hit: SweepHit): (blocked: bool)
    ensures blocked ==> hit.Hit?
    ensures hit.Hit? ==> (blocked <==> !hit.simulatesPhysics)
  {
    match hit
    case NoHit => false
    case Hit(simulates) => !simulates
  }

  /**
   * How far above the actor the sweep reaches: the current half-height
   * without its hemisphere plus the configured offset in Hold mode, the
   * original half-height in Toggle mode.
   */
  function BlockTraceDistance(m: MovementSettings, halfHeightWithoutHemisphere: real, originalHalfHeight: real): (d: real)
    ensures ValidMovement(m) && m.crouchActionType == Hold ==>
              halfHeightWithoutHemisphere <= d <= halfHeightWithoutHemisphere + 2.0
    ensures m.crouchActionType == Toggle ==> d == originalHalfHeight
  {
    if m.crouchActionType == Hold then halfHeightWithoutHemisphere + m.blockTestOffset else originalHalfHeight
  }

  // ---------------------------------------------------------------------
  // Events

  /**
   * StartCrouch: `blocked` is what IsBlockedInCrouchStance reports. Only the
   * intent and the phase change, a change always starts a transition, and
   * in Toggle mode a press either flips the intent or changes nothing.
   */
  function StartCrouch(s: CrouchState, mode: PlayerActionType, blocked: bool): (r: CrouchState)
    ensures r.(wantsToCrouch := s.wantsToCrouch, phase := s.phase) == s
    ensures r == s || r.phase == InTransition
    ensures mode == Toggle ==> r == s || r.wantsToCrouch != s.wantsToCrouch
  {
    match mode
    case Hold => s.(wantsToCrouch := true, phase := InTransition)
    case Toggle =>
      if s.wantsToCrouch && !blocked then s.(wantsToCrouch := false, phase := InTransition)
      else if !s.wantsToCrouch then s.(wantsToCrouch := true, phase := InTransition)
      else s
  }

  /** StopCrouching: only the intent and the phase change, and a change is a transition toward standing. */
  function StopCrouching(s: CrouchState, mode: PlayerActionType): (r: CrouchState)
    ensures r.(wantsToCrouch := s.wantsToCrouch, phase := s.phase) == s
    ensures r == s || (!r.wantsToCrouch && r.phase == InTransition)
  {
    if mode == Hold then s.(wantsToCrouch := false, phase := InTransition) else s
  }

  function TargetHalfHeight(wantsToCrouch: bool, base: Baseline): real {
    if wantsToCrouch then base.halfHeight / 2.0 else base.halfHeight
  }

  function TargetCamera(wantsToCrouch: bool, base: Baseline): Vec3 {
    if wantsToCrouch then CrouchedCameraLocation else base.camera
  }

  function TargetPhase(wantsToCrouch: bool): CrouchPhase {
    if wantsToCrouch then Crouching else Standing
  }

  /** The target MaxWalkSpeed of a transition: the crouch speed, or the remembered walk speed. */
  function TargetSpeed(wantsToCrouch: bool, m: MovementSettings, currentWalkSpeed: real): real {
    if wantsToCrouch then m.crouchSpeed else currentWalkSpeed
  }

  /** Where a transition is heading: camera location, capsule half-height, MaxWalkSpeed and the phase it ends in. */
  datatype Target = Target(camera: Vec3, halfHeight: real, speed: real, phase: CrouchPhase)

  function TransitionTarget(s: CrouchState, m: MovementSettings, base: Baseline): Target {
    Target(TargetCamera(s.wantsToCrouch, base), TargetHalfHeight(s.wantsToCrouch, base),
           TargetSpeed(s.wantsToCrouch, m, s.currentWalkSpeed), TargetPhase(s.wantsToCrouch))
  }

  /**
   * One interpolation step of a transition: the camera, the half-height and
   * MaxWalkSpeed move toward the target by `alpha`; once the new half-height
   * is within ErrorMargin of the target all three snap to it and the phase
   * becomes the target's.
   */
  function Approach(s: CrouchState, t: Target, alpha: real): (r: CrouchState)
    ensures r.wantsToCrouch == s.wantsToCrouch && r.wantsToRun == s.wantsToRun && r.currentWalkSpeed == s.currentWalkSpeed
    ensures r.phase == s.phase || r.phase == t.phase
    ensures r.phase != s.phase ==> r.halfHeight == t.halfHeight && r.camera == t.camera && r.maxWalkSpeed == t.speed
  {
    var newLocation := LerpVec(s.camera, t.camera, alpha);
    var newHalfHeight := Lerp(s.halfHeight, t.halfHeight, alpha);
    var newWalkSpeed := Lerp(s.maxWalkSpeed, t.speed, alpha);
    if IsNearlyEqual(newHalfHeight, t.halfHeight, ErrorMargin) then
      s.(camera := t.camera, halfHeight := t.halfHeight, maxWalkSpeed := t.speed, phase := t.phase)
    else
      s.(camera := newLocation, halfHeight := newHalfHeight, maxWalkSpeed := newWalkSpeed)
  }

  /**
   * UpdateCrouch: while in transition, approach the target of the current
   * intent (crouched: half the original capsule, the crouched camera and the
   * crouch speed; standing: the original capsule and camera and the
   * remembered walk speed) by the frame's interpolation factor alpha. In
   * Hold mode a blocked stance holds the stand-up where it is.
   */
  function UpdateCrouch(s: CrouchState, m: MovementSettings, base: Baseline, alpha: real, blocked: bool): (r: CrouchState)
    ensures r.wantsToCrouch == s.wantsToCrouch && r.wantsToRun == s.wantsToRun && r.currentWalkSpeed == s.currentWalkSpeed
    ensures r.phase != s.phase ==> s.phase == InTransition && r.phase == TargetPhase(s.wantsToCrouch)
  {
    if s.phase != InTransition then s
    else if !s.wantsToCrouch && m.crouchActionType == Hold && blocked then s
    else Approach(s, TransitionTarget(s, m, base), alpha)
  }

  /**
   * UpdateWalkingSpeed: only a standing character picks up the run intent;
   * only the two speeds change, and a standing character ends with
   * MaxWalkSpeed equal to the remembered speed, the walk or the run speed.
   */
  function UpdateWalkingSpeed(s: CrouchState, m: MovementSettings): (r: CrouchState)
    ensures r.(currentWalkSpeed := s.currentWalkSpeed, maxWalkSpeed := s.maxWalkSpeed) == s
    ensures r.phase == Standing ==>
              r.maxWalkSpeed == r.currentWalkSpeed && (r.currentWalkSpeed == m.walkSpeed || r.currentWalkSpeed == m.runSpeed)
  {
    if s.phase == Standing then
      var speed := if s.wantsToRun then m.runSpeed else m.walkSpeed;
      s.(currentWalkSpeed := speed, maxWalkSpeed := speed)
    else s
  }

  /** The interpolation factor of a frame: StandToCrouchTransitionSpeed times the frame's DeltaTime, not clamped. */
  function TransitionAlpha(m: MovementSettings, deltaTime: real): real {
    m.standToCrouchTransitionSpeed * deltaTime
  }

  /** The crouch part of Tick: UpdateCrouch, then UpdateWalkingSpeed. */
  function TickCrouch(s: CrouchState, m: MovementSettings, base: Baseline, deltaTime: real, blocked: bool): (r: CrouchState)
    ensures r.wantsToCrouch == s.wantsToCrouch && r.wantsToRun == s.wantsToRun
    ensures r.phase == Standing ==> r.maxWalkSpeed == (if s.wantsToRun then m.runSpeed else m.walkSpeed)
  {
    UpdateWalkingSpeed(UpdateCrouch(s, m, base, TransitionAlpha(m, deltaTime), blocked), m)
  }

  /** The inputs that drive the state machine, in the order they arrive. */
  datatype CharacterEvent =
    | CrouchPressed(blocked: bool)
    | CrouchReleased
    | RunPressed
    | RunReleased
    | Tick(deltaTime: real, blocked: bool)

  function Step(s: CrouchState, m: MovementSettings, base: Baseline, e: CharacterEvent): CrouchState {
    match e
    case CrouchPressed(blocked) => StartCrouch(s, m.crouchActionType, blocked)
    case CrouchReleased => StopCrouching(s, m.crouchActionType)
    case RunPressed => s.(wantsToRun := true)
    case RunReleased => s.(wantsToRun := false)
    case Tick(deltaTime, blocked) => TickCrouch(s, m, base, deltaTime, blocked)
  }

  /** The state after a sequence of events, the last event applied last. */
  function Replay(s: CrouchState, m: MovementSettings, base: Baseline, es: seq<CharacterEvent>): CrouchState
    decreases |es|
  {
    if es == [] then s else Step(Replay(s, m, base, es[..|es| - 1]), m, base, es[|es| - 1])
  }

  // ---------------------------------------------------------------------
  // The settled-phase invariant

  /**
   * A character that is not in transition sits exactly at the target of its
   * intent: standing means not wanting to crouch, the original capsule and
   * camera, and MaxWalkSpeed equal to the remembered walk speed; crouching
   * means wanting to crouch, half the original capsule, the crouched camera
   * and the crouch speed. The remembered walk speed is always the walk or
   * the run speed.
   */
  predicate Settled(s: CrouchState, m: MovementSettings, base: Baseline) {
    && (s.currentWalkSpeed == m.walkSpeed || s.currentWalkSpeed == m.runSpeed)
    && (s.phase == Standing ==>
          && !s.wantsToCrouch
          && s.halfHeight == base.halfHeight
          && s.camera == base.camera
          && s.maxWalkSpeed == s.currentWalkSpeed)
    && (s.phase == Crouching ==>
          && s.wantsToCrouch
          && s.halfHeight == base.halfHeight / 2.0
          && s.camera == CrouchedCameraLocation
          && s.maxWalkSpeed == m.crouchSpeed)
  }

  lemma StepKeepsSettled(s: CrouchState, m: MovementSettings, base: Baseline, e: CharacterEvent)
    requires Settled(s, m, base)
    ensures Settled(Step(s, m, base, e), m, base)
  {
  }

  lemma UpdateCrouchKeepsSettled(s: CrouchState, m: MovementSettings, base: Baseline, alpha: real, blocked: bool)
    requires Settled(s, m, base)
    ensures Settled(UpdateCrouch(s, m, base, alpha, blocked), m, base)
  {
  }

  lemma {:induction false} ReplayKeepsSettled(s: CrouchState, m: MovementSettings, base: Baseline, es: seq<CharacterEvent>)
    requires Settled(s, m, base)
    ensures Settled(Replay(s, m, base, es), m, base)
    decreases |es|
  {
    if es != [] {
      ReplayKeepsSettled(s, m, base, es[..|es| - 1]);
      StepKeepsSettled(Replay(s, m, base, es[..|es| - 1]), m, base, es[|es| - 1]);
    }
  }

  lemma {:induction false} ReplayAppend(s: CrouchState, m: MovementSettings, base: Baseline, es1: seq<CharacterEvent>, es2: seq<CharacterEvent>)
    ensures Replay(s, m, base, es1 + es2) == Replay(Replay(s, m, base, es1), m, base, es2)
    decreases |es2|
  {
    if es2 == [] {
      assert es1 + es2 == es1;
    } else {
      var n := |es2| - 1;
      assert (es1 + es2)[..|es1 + es2| - 1] == es1 + es2[..n];
      assert (es1 + es2)[|es1 + es2| - 1] == es2[n];
      ReplayAppend(s, m, base, es1, es2[..n]);
    }
  }

  lemma ReplayOne(s: CrouchState, m: MovementSettings, base: Baseline, e: CharacterEvent)
    ensures Replay(s, m, base, [e]) == Step(s, m, base, e)
  {
    assert [e][..0] == [];
  }

  // ---------------------------------------------------------------------
  // Single-event properties

  /** In Hold mode a press always asks to crouch and a release always asks to stand; in Toggle mode a release does nothing. */
  lemma HoldKeySetsIntent(s: CrouchState, blocked: bool)
    ensures StartCrouch(s, Hold, blocked) == s.(wantsToCrouch := true, phase := InTransition)
    ensures StopCrouching(s, Hold) == s.(wantsToCrouch := false, phase := InTransition)
    ensures StopCrouching(s, Toggle) == s
  {
  }

  /** A Toggle press flips the intent unless the character is crouched under a blocked stance. */
  lemma TogglePress(s: CrouchState, blocked: bool)
    ensures s.wantsToCrouch && blocked ==> StartCrouch(s, Toggle, blocked) == s
    ensures !(s.wantsToCrouch && blocked) ==>
              StartCrouch(s, Toggle, blocked) == s.(wantsToCrouch := !s.wantsToCrouch, phase := InTransition)
  {
  }

  /** Two unblocked Toggle presses restore the original intent. */
  lemma ToggleTwiceRestoresIntent(s: CrouchState)
    ensures StartCrouch(StartCrouch(s, Toggle, false), Toggle, false).wantsToCrouch == s.wantsToCrouch
    ensures StartCrouch(StartCrouch(s, Toggle, false), Toggle, false).phase == InTransition
  {
  }

  /**
   * The update changes nothing outside a transition, and nothing when a Hold
   * character that wants to stand is blocked; otherwise the intent is kept.
   */
  lemma UpdateCrouchFrame(s: CrouchState, m: MovementSettings, base: Baseline, alpha: real, blocked: bool)
    ensures s.phase != InTransition ==> UpdateCrouch(s, m, base, alpha, blocked) == s
    ensures m.crouchActionType == Hold && !s.wantsToCrouch && blocked ==> UpdateCrouch(s, m, base, alpha, blocked) == s
    ensures var r := UpdateCrouch(s, m, base, alpha, blocked);
            r.wantsToCrouch == s.wantsToCrouch && r.wantsToRun == s.wantsToRun && r.currentWalkSpeed == s.currentWalkSpeed
  {
  }

  /**
   * A step toward a settled target ends the transition exactly when the
   * interpolated half-height lands within ErrorMargin of the target, and
   * then every value is the target's; otherwise the interpolated values are
   * stored. The intents and the remembered walk speed are kept either way.
   */
  lemma ApproachSnaps(s: CrouchState, t: Target, alpha: real)
    requires s.phase == InTransition && t.phase != InTransition
    ensures var r := Approach(s, t, alpha);
            var newHalfHeight := Lerp(s.halfHeight, t.halfHeight, alpha);
            && r.wantsToCrouch == s.wantsToCrouch && r.wantsToRun == s.wantsToRun
            && r.currentWalkSpeed == s.currentWalkSpeed
            && (r.phase != InTransition <==> Abs(newHalfHeight - t.halfHeight) <= ErrorMargin)
            && (r.phase != InTransition ==>
                  r.phase == t.phase && r.halfHeight == t.halfHeight && r.camera == t.camera && r.maxWalkSpeed == t.speed)
            && (r.phase == InTransition ==>
                  && r.halfHeight == newHalfHeight
                  && r.camera == LerpVec(s.camera, t.camera, alpha)
                  && r.maxWalkSpeed == Lerp(s.maxWalkSpeed, t.speed, alpha))
  {
  }

  /** Inside a transition that is not held, the update is one approach step toward the target of the intent. */
  lemma UpdateCrouchApproaches(s: CrouchState, m: MovementSettings, base: Baseline, alpha: real, blocked: bool)
    requires s.phase == InTransition
    requires !(m.crouchActionType == Hold && !s.wantsToCrouch && blocked)
    ensures UpdateCrouch(s, m, base, alpha, blocked) == Approach(s, TransitionTarget(s, m, base), alpha)
  {
  }

  /** One approach step, given the interpolated values as computed by the caller. */
  lemma ApproachStep(s: CrouchState, t: Target, alpha: real, newLocation: Vec3, newHalfHeight: real, newWalkSpeed: real)
    requires newLocation == LerpVec(s.camera, t.camera, alpha)
    requires newHalfHeight == Lerp(s.halfHeight, t.halfHeight, alpha)
    requires newWalkSpeed == Lerp(s.maxWalkSpeed, t.speed, alpha)
    ensures Approach(s, t, alpha)
              == if IsNearlyEqual(newHalfHeight, t.halfHeight, ErrorMargin) then
                   s.(camera := t.camera, halfHeight := t.halfHeight, maxWalkSpeed := t.speed, phase := t.phase)
                 else
                   s.(camera := newLocation, halfHeight := newHalfHeight, maxWalkSpeed := newWalkSpeed)
  {
  }

  /**
   * The update finishes a transition exactly when the interpolated
   * half-height lands within ErrorMargin of its target, and then it snaps
   * every value to that target; otherwise it stores the interpolated values.
   */
  lemma UpdateCrouchSnaps(s: CrouchState, m: MovementSettings, base: Baseline, alpha: real, blocked: bool)
    requires s.phase == InTransition
    requires !(m.crouchActionType == Hold && !s.wantsToCrouch && blocked)
    ensures var r := UpdateCrouch(s, m, base, alpha, blocked);
            var target := TargetHalfHeight(s.wantsToCrouch, base);
            var newHalfHeight := Lerp(s.halfHeight, target, alpha);
            && (r.phase != InTransition <==> Abs(newHalfHeight - target) <= ErrorMargin)
            && (r.phase != InTransition ==>
                  && r.phase == TargetPhase(s.wantsToCrouch)
                  && r.halfHeight == target
                  && r.camera == TargetCamera(s.wantsToCrouch, base)
                  && r.maxWalkSpeed == TargetSpeed(s.wantsToCrouch, m, s.currentWalkSpeed))
            && (r.phase == InTransition ==>
                  && r.halfHeight == newHalfHeight
                  && r.camera == LerpVec(s.camera, TargetCamera(s.wantsToCrouch, base), alpha)
                  && r.maxWalkSpeed == Lerp(s.maxWalkSpeed, TargetSpeed(s.wantsToCrouch, m, s.currentWalkSpeed), alpha))
  {
    var t := TransitionTarget(s, m, base);
    assert t == Target(TargetCamera(s.wantsToCrouch, base), TargetHalfHeight(s.wantsToCrouch, base),
                       TargetSpeed(s.wantsToCrouch, m, s.currentWalkSpeed), TargetPhase(s.wantsToCrouch));
    assert UpdateCrouch(s, m, base, alpha, blocked) == Approach(s, t, alpha);
    ApproachSnaps(s, t, alpha);
  }

  /** Standing is reached only from a transition toward standing that is not held by a blocked Hold stance. */
  lemma StandingOnlyWhenUnblocked(s: CrouchState, m: MovementSettings, base: Baseline, alpha: real, blocked: bool)
    requires s.phase != Standing
    requires UpdateCrouch(s, m, base, alpha, blocked).phase == Standing
    ensures s.phase == InTransition && !s.wantsToCrouch && !(m.crouchActionType == Hold && blocked)
  {
  }

  /** UpdateWalkingSpeed writes the walk or run speed only while standing, and nothing in any other phase. */
  lemma WalkingSpeedFollowsRunIntent(s: CrouchState, m: MovementSettings)
    ensures s.phase != Standing ==> UpdateWalkingSpeed(s, m) == s
    ensures s.phase == Standing ==>
              var speed := if s.wantsToRun then m.runSpeed else m.walkSpeed;
              UpdateWalkingSpeed(s, m) == s.(currentWalkSpeed := speed, maxWalkSpeed := speed)
  {
  }

  /** A standing character that holds the run key runs after one tick, with the default 300/500 speeds giving 500. */
  lemma RunAfterOneTick(s: CrouchState, base: Baseline, deltaTime: real, blocked: bool)
    requires s.phase == Standing && s.wantsToRun
    ensures TickCrouch(s, DefaultMovement(), base, deltaTime, blocked).maxWalkSpeed == 500.0
  {
  }

  // ---------------------------------------------------------------------
  // Properties of event sequences

  /** The last crouch key event in a sequence: Some(true) for a press, Some(false) for a release. */
  function LastCrouchKey(es: seq<CharacterEvent>): Option<bool>
    decreases |es|
  {
    if es == [] then None
    else match es[|es| - 1]
      case CrouchPressed(_) => Some(true)
      case CrouchReleased => Some(false)
      case _ => LastCrouchKey(es[..|es| - 1])
  }

  /** In Hold mode the crouch intent mirrors the crouch key: pressed means crouch, released means stand. */
  lemma {:induction false} HoldMirrorsCrouchKey(s: CrouchState, m: MovementSettings, base: Baseline, es: seq<CharacterEvent>)
    requires m.crouchActionType == Hold
    ensures LastCrouchKey(es).Some? ==> Replay(s, m, base, es).wantsToCrouch == LastCrouchKey(es).value
    ensures LastCrouchKey(es).None? ==> Replay(s, m, base, es).wantsToCrouch == s.wantsToCrouch
    decreases |es|
  {
    if es != [] {
      HoldMirrorsCrouchKey(s, m, base, es[..|es| - 1]);
    }
  }

  function PressCount(es: seq<CharacterEvent>): nat
    decreases |es|
  {
    if es == [] then 0
    else PressCount(es[..|es| - 1]) + (if es[|es| - 1].CrouchPressed? then 1 else 0)
  }

  predicate NoBlockedPress(es: seq<CharacterEvent>) {
    forall i :: 0 <= i < |es| && es[i].CrouchPressed? ==> !es[i].blocked
  }

  /**
   * In Toggle mode, when no press meets a blocked stance, every press flips
   * the crouch intent and nothing else changes it: the intent is the
   * original one exactly when the number of presses is even.
   */
  lemma {:induction false} ToggleFlipsPerPress(s: CrouchState, m: MovementSettings, base: Baseline, es: seq<CharacterEvent>)
    requires m.crouchActionType == Toggle
    requires NoBlockedPress(es)
    ensures Replay(s, m, base, es).wantsToCrouch == (s.wantsToCrouch != (PressCount(es) % 2 == 1))
    decreases |es|
  {
    if es != [] {
      var init := es[..|es| - 1];
      assert NoBlockedPress(init) by {
        forall i | 0 <= i < |init| && init[i].CrouchPressed?
          ensures !init[i].blocked
        {
          assert init[i] == es[i];
        }
      }
      ToggleFlipsPerPress(s, m, base, init);
    }
  }

  /**
   * In Hold mode a character in transition toward standing stays exactly
   * where it is for as long as every tick finds the stance blocked.
   */
  lemma {:induction false} BlockedStandUpWaits(s: CrouchState, m: MovementSettings, base: Baseline, es: seq<CharacterEvent>)
    requires m.crouchActionType == Hold
    requires s.phase == InTransition && !s.wantsToCrouch
    requires forall i :: 0 <= i < |es| ==> es[i].Tick? && es[i].blocked
    ensures Replay(s, m, base, es) == s
    decreases |es|
  {
    if es != [] {
      BlockedStandUpWaits(s, m, base, es[..|es| - 1]);
    }
  }

  // ---------------------------------------------------------------------
  // Every transition ends

  function Pow(x: real, n: nat): real {
    if n == 0 then 1.0 else x * Pow(x, n - 1)
  }

  /** Bernoulli's inequality in the form (1 - t)^n * (1 + n t) <= 1. */
  lemma {:induction false} PowBernoulli(t: real, n: nat)
    requires 0.0 <= t <= 1.0
    ensures 0.0 <= Pow(1.0 - t, n)
    ensures Pow(1.0 - t, n) * (1.0 + (n as real) * t) <= 1.0
  {
    if n > 0 {
      PowBernoulli(t, n - 1);
      var p := Pow(1.0 - t, n - 1);
      var k := (n - 1) as real;
      assert Pow(1.0 - t, n) == (1.0 - t) * p;
      assert 0.0 <= (1.0 - t) * p;
      assert (1.0 - t) * p * (1.0 + (k + 1.0) * t) == p * (1.0 + k * t) - p * ((k + 1.0) * t * t);
      assert 0.0 <= (k + 1.0) * t * t by {
        assert 0.0 <= t * t;
        assert (k + 1.0) * t * t == (k + 1.0) * (t * t);
      }
      MulNonNegative(p, (k + 1.0) * t * t);
      assert 0.0 <= p * ((k + 1.0) * t * t);
    }
  }

  lemma MulNonNegative(x: real, y: real)
    requires 0.0 <= x && 0.0 <= y
    ensures 0.0 <= x * y
  {
  }

  /** Interpolating with alpha in [1 - q, 1] shrinks the distance to the target by at least the factor q. */
  lemma LerpContracts(a: real, b: real, alpha: real, q: real, bound: real)
    requires 0.0 <= 1.0 - alpha <= q
    requires Abs(a - b) <= bound
    ensures Abs(Lerp(a, b, alpha) - b) <= q * bound
  {
    var c, d := 1.0 - alpha, a - b;
    assert Lerp(a, b, alpha) - b == c * d;
    if d < 0.0 {
      MulNonNegative(c, -d);
      assert c * (-d) == -(c * d);
    } else {
      MulNonNegative(c, d);
    }
    assert Abs(c * d) == c * Abs(d);
    MulNonNegative(c, bound - Abs(d));
    assert c * (bound - Abs(d)) == c * bound - c * Abs(d);
    MulNonNegative(q - c, bound);
    assert (q - c) * bound == q * bound - c * bound;
  }

  /** A tick that is not blocked and whose interpolation alpha lies in [minAlpha, 1]. */
  predicate SteadyTick(m: MovementSettings, e: CharacterEvent, minAlpha: real) {
    && e.Tick?
    && !e.blocked
    && minAlpha <= TransitionAlpha(m, e.deltaTime) <= 1.0
  }

  predicate SteadyTicks(m: MovementSettings, es: seq<CharacterEvent>, minAlpha: real) {
    forall i :: 0 <= i < |es| ==> SteadyTick(m, es[i], minAlpha)
  }

  /** The half-height x lies within distance `bound` of `target`. */
  predicate Within(x: real, target: real, bound: real) {
    Abs(x - target) <= bound
  }

  /**
   * One steady tick of a transition, stated apart from any event sequence:
   * `next` is the state after the tick, `target` the half-height the intent
   * aims at, and the distance bound shrinks from `bound` to `nextBound`.
   */
  lemma SteadyTickContracts(p: CrouchState, m: MovementSettings, base: Baseline, e: CharacterEvent, minAlpha: real,
                            next: CrouchState, target: real, bound: real, nextBound: real)
    requires p.phase == InTransition
    requires SteadyTick(m, e, minAlpha)
    requires next == Step(p, m, base, e)
    requires target == TargetHalfHeight(p.wantsToCrouch, base)
    requires nextBound == (1.0 - minAlpha) * bound
    requires Within(p.halfHeight, target, bound)
    ensures next.wantsToCrouch == p.wantsToCrouch
    ensures next.phase == InTransition || next.phase == TargetPhase(p.wantsToCrouch)
    ensures next.phase != InTransition ==> next.halfHeight == target && next.camera == TargetCamera(p.wantsToCrouch, base)
    ensures next.phase == InTransition ==> Within(next.halfHeight, target, nextBound)
    ensures nextBound <= ErrorMargin ==> next.phase != InTransition
  {
    var alpha := TransitionAlpha(m, e.deltaTime);
    LerpContracts(p.halfHeight, target, alpha, 1.0 - minAlpha, bound);
    UpdateCrouchSnaps(p, m, base, alpha, false);
  }

  /** A tick leaves a finished transition where it is. */
  lemma SettledTick(p: CrouchState, m: MovementSettings, base: Baseline, e: CharacterEvent, next: CrouchState)
    requires p.phase != InTransition && e.Tick?
    requires next == Step(p, m, base, e)
    ensures next.phase == p.phase && next.wantsToCrouch == p.wantsToCrouch
    ensures next.halfHeight == p.halfHeight && next.camera == p.camera
  {
  }

  /** The distance d shrunk n times by the factor q. */
  function Shrunk(q: real, n: nat, d: real): real {
    if n == 0 then d else q * Shrunk(q, n - 1, d)
  }

  lemma {:induction false} ShrunkIsPow(q: real, n: nat, d: real)
    ensures Shrunk(q, n, d) == Pow(q, n) * d
  {
    if n > 0 {
      ShrunkIsPow(q, n - 1, d);
      assert q * (Pow(q, n - 1) * d) == (q * Pow(q, n - 1)) * d;
    }
  }

  /**
   * `r` is on track for the transition that started from `s`: it keeps the
   * intent, and it has either reached the target of that intent exactly or
   * is still in transition with its half-height within `bound` of the target.
   */
  predicate OnTrack(r: CrouchState, s: CrouchState, base: Baseline, bound: real) {
    var target := TargetHalfHeight(s.wantsToCrouch, base);
    && r.wantsToCrouch == s.wantsToCrouch
    && (r.phase == InTransition || r.phase == TargetPhase(s.wantsToCrouch))
    && (r.phase != InTransition ==> r.halfHeight == target && r.camera == TargetCamera(s.wantsToCrouch, base))
    && (r.phase == InTransition ==> Within(r.halfHeight, target, bound))
  }

  /** One steady tick keeps a transition on track with the bound shrunk by 1 - minAlpha. */
  lemma OnTrackStep(s: CrouchState, m: MovementSettings, base: Baseline, prev: CrouchState, e: CharacterEvent, minAlpha: real,
                    r: CrouchState, prevBound: real, bound: real)
    requires SteadyTick(m, e, minAlpha)
    requires r == Step(prev, m, base, e)
    requires OnTrack(prev, s, base, prevBound)
    requires bound == (1.0 - minAlpha) * prevBound
    ensures OnTrack(r, s, base, bound)
    ensures bound <= ErrorMargin ==> r.phase != InTransition
  {
    var target := TargetHalfHeight(s.wantsToCrouch, base);
    if prev.phase == InTransition {
      SteadyTickContracts(prev, m, base, e, minAlpha, r, target, prevBound, bound);
    } else {
      SettledTick(prev, m, base, e, r);
    }
  }

  /**
   * Over steady ticks a transition keeps its intent and either has reached
   * its target exactly or has its half-height within a geometrically
   * shrinking distance of it; once that distance bound is within
   * ErrorMargin the transition has ended.
   */
  lemma {:induction false} TransitionContracts(s: CrouchState, m: MovementSettings, base: Baseline, es: seq<CharacterEvent>, minAlpha: real)
    requires s.phase == InTransition
    requires SteadyTicks(m, es, minAlpha)
    ensures var bound := Shrunk(1.0 - minAlpha, |es|, Abs(s.halfHeight - TargetHalfHeight(s.wantsToCrouch, base)));
            var r := Replay(s, m, base, es);
            && OnTrack(r, s, base, bound)
            && (|es| > 0 && bound <= ErrorMargin ==> r.phase != InTransition)
    decreases |es|
  {
    var d0 := Abs(s.halfHeight - TargetHalfHeight(s.wantsToCrouch, base));
    if es != [] {
      var n := |es| - 1;
      var init := es[..n];
      assert SteadyTicks(m, init, minAlpha) by {
        forall i | 0 <= i < |init| ensures init[i] == es[i] { }
      }
      TransitionContracts(s, m, base, init, minAlpha);
      assert SteadyTick(m, es[n], minAlpha);
      OnTrackStep(s, m, base, Replay(s, m, base, init), es[n], minAlpha, Replay(s, m, base, es),
                  Shrunk(1.0 - minAlpha, n, d0), Shrunk(1.0 - minAlpha, |es|, d0));
    }
  }

  /**
   * A transition over steady ticks ends, at the exact target of its intent,
   * within any number of ticks n >= 1 with 2 * n * minAlpha at least the
   * initial distance to the target.
   */
  lemma TransitionResolves(s: CrouchState, m: MovementSettings, base: Baseline, es: seq<CharacterEvent>, minAlpha: real)
    requires s.phase == InTransition
    requires 0.0 < minAlpha <= 1.0
    requires SteadyTicks(m, es, minAlpha)
    requires |es| > 0
    requires Abs(s.halfHeight - TargetHalfHeight(s.wantsToCrouch, base)) <= 2.0 * (|es| as real) * minAlpha
    ensures var r := Replay(s, m, base, es);
            && r.phase == TargetPhase(s.wantsToCrouch)
            && r.wantsToCrouch == s.wantsToCrouch
            && r.halfHeight == TargetHalfHeight(s.wantsToCrouch, base)
            && r.camera == TargetCamera(s.wantsToCrouch, base)
  {
    var n := |es|;
    var d0 := Abs(s.halfHeight - TargetHalfHeight(s.wantsToCrouch, base));
    var p := Pow(1.0 - minAlpha, n);
    PowBernoulli(minAlpha, n);
    ShrunkIsPow(1.0 - minAlpha, n, d0);
    assert d0 <= 2.0 * (1.0 + (n as real) * minAlpha);
    assert p * d0 <= p * (2.0 * (1.0 + (n as real) * minAlpha));
    assert Shrunk(1.0 - minAlpha, |es|, d0) <= ErrorMargin;
    TransitionContracts(s, m, base, es, minAlpha);
  }

  /**
   * In Toggle mode, from standing, an unblocked press followed by enough
   * steady ticks crouches fully, and a second unblocked press followed by
   * enough steady ticks stands fully again, at the original capsule and
   * camera.
   */
  lemma ToggleRoundTrip(s: CrouchState, m: MovementSettings, base: Baseline, ticks1: seq<CharacterEvent>, ticks2: seq<CharacterEvent>, minAlpha: real)
    requires m.crouchActionType == Toggle
    requires s.phase == Standing && Settled(s, m, base)
    requires 0.0 < minAlpha <= 1.0
    requires SteadyTicks(m, ticks1, minAlpha) && SteadyTicks(m, ticks2, minAlpha)
    requires |ticks1| > 0 && |ticks2| > 0
    requires Abs(base.halfHeight / 2.0) <= 2.0 * (|ticks1| as real) * minAlpha
    requires Abs(base.halfHeight / 2.0) <= 2.0 * (|ticks2| as real) * minAlpha
    ensures var r := Replay(s, m, base, [CrouchPressed(false)] + ticks1 + [CrouchPressed(false)] + ticks2);
            && r.phase == Standing
            && r.halfHeight == base.halfHeight
            && r.camera == base.camera
            && Settled(r, m, base)
  {
    var press := [CrouchPressed(false)];
    var s1 := Replay(s, m, base, press);
    ReplayOne(s, m, base, CrouchPressed(false));
    assert s1.phase == InTransition && s1.wantsToCrouch && s1.halfHeight == base.halfHeight;
    TransitionResolves(s1, m, base, ticks1, minAlpha);
    ReplayAppend(s, m, base, press, ticks1);
    var s2 := Replay(s, m, base, press + ticks1);
    assert s2.phase == Crouching && s2.halfHeight == base.halfHeight / 2.0;
    ReplayAppend(s, m, base, press + ticks1, press);
    ReplayOne(s2, m, base, CrouchPressed(false));
    var s3 := Replay(s, m, base, press + ticks1 + press);
    assert s3.phase == InTransition && !s3.wantsToCrouch && s3.halfHeight == base.halfHeight / 2.0;
    TransitionResolves(s3, m, base, ticks2, minAlpha);
    ReplayAppend(s, m, base, press + ticks1 + press, ticks2);
    ReplayKeepsSettled(s, m, base, press + ticks1 + press + ticks2);
  }
}
