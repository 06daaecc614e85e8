/**
 * Which camera shakes AFPCharacter starts: the per-tick choice of
 * UpdateCameraShake and the one-shot jump and landing shakes.
 */
module CameraShakes {
  datatype Shake = IdleShake | WalkShake | RunShake | JumpShake

  /** One ClientStartCameraShake call: the shake and its intensity scale. */
  datatype ShakeCall = ShakeCall(shake: Shake, scale: real)

  /** The jump shake started by Jump, at the default scale. */
  const JumpStartShake: ShakeCall := ShakeCall(JumpShake, 1.0)

  /** The jump shake started by Landed, at a stronger scale. */
  const LandedShake: ShakeCall := ShakeCall(JumpShake, 3.0)

  /**
   * UpdateCameraShake: with a player controller, the walk shake when moving
   * and able to jump, the idle (breathing) shake otherwise, and in addition
   * the run shake when moving, able to jump and at or above the run speed.
   * `speed` is the magnitude of the velocity, `canJump` what CanJump reports.
   */
  function TickShakes(hasController: bool, speed: real, canJump: bool, maxWalkSpeed: real, runSpeed: real): (r: seq<ShakeCall>)
    ensures !hasController ==> r == []
    ensures hasController ==> 1 <= |r| <= 2
    ensures hasController ==>
              r[0] == (if speed > 0.0 && canJump then ShakeCall(WalkShake, 2.0) else ShakeCall(IdleShake, 1.0))
    ensures |r| == 2 <==> hasController && speed > 0.0 && canJump && maxWalkSpeed >= runSpeed
    ensures |r| == 2 ==> r[1] == ShakeCall(RunShake, 1.0)
  {
    if !hasController then []
    else
      var base := if speed > 0.0 && canJump then ShakeCall(WalkShake, 2.0) else ShakeCall(IdleShake, 1.0);
      if speed > 0.0 && maxWalkSpeed >= runSpeed && canJump then [base, ShakeCall(RunShake, 1.0)] else [base]
  }

  /**
   * Every tick with a controller starts exactly one of the idle and walk
   * shakes, and the run shake only together with the walk shake.
   */
  lemma OneBaseShakePerTick(hasController: bool, speed: real, canJump: bool, maxWalkSpeed: real, runSpeed: real)
    requires hasController
    ensures var r := TickShakes(hasController, speed, canJump, maxWalkSpeed, runSpeed);
            && (ShakeCall(WalkShake, 2.0) in r) != (ShakeCall(IdleShake, 1.0) in r)
            && (ShakeCall(RunShake, 1.0) in r ==> ShakeCall(WalkShake, 2.0) in r)
            && JumpStartShake !in r && LandedShake !in r
  {
  }

  /** Landing shakes harder than jumping. */
  lemma LandingShakesHarder()
    ensures LandedShake.shake == JumpStartShake.shake && LandedShake.scale > JumpStartShake.scale
  {
  }
}
