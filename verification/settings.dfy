/**
 * The enums and configuration structs declared in FPCharacter.h: crouch phase,
 * crouch key behaviour, movement settings with their editor clamp ranges, and
 * footstep settings with the footstep data assets they refer to.
 */
module FPSettings {
  import opened Wrappers

  /** ECrouchPhase: the single authoritative crouch state of the character. */
  datatype CrouchPhase = Standing | InTransition | Crouching

  /** EPlayerActionType: whether the crouch key must be held or toggles. */
  datatype PlayerActionType = Hold | Toggle

  /** FFirstPersonMovementSettings. Speeds are engine units per second. */
  datatype MovementSettings = MovementSettings(
    walkSpeed: real,
    crouchSpeed: real,
    runSpeed: real,
    jumpVelocity: real,
    standToCrouchTransitionSpeed: real,
    blockTestOffset: real,
    crouchActionType: PlayerActionType)

  /** The ClampMin/ClampMax range shared by the four speed settings. */
  predicate SpeedInRange(v: real) {
    1.0 <= v <= 10000.0
  }

  /** The editor clamp ranges, read as invariants of any configuration in use. */
  predicate ValidMovement(m: MovementSettings) {
    && SpeedInRange(m.walkSpeed)
    && SpeedInRange(m.crouchSpeed)
    && SpeedInRange(m.runSpeed)
    && SpeedInRange(m.jumpVelocity)
    && 1.0 <= m.standToCrouchTransitionSpeed <= 1000.0
    && 0.0 <= m.blockTestOffset <= 2.0
  }

  /** The default initialisers of FFirstPersonMovementSettings. */
  function DefaultMovement(): (m: MovementSettings)
    ensures ValidMovement(m)
    ensures m.crouchActionType == Hold
    ensures m.crouchSpeed < m.walkSpeed < m.runSpeed
  {
    MovementSettings(
      walkSpeed := 300.0,
      crouchSpeed := 150.0,
      runSpeed := 500.0,
      jumpVelocity := 300.0,
      standToCrouchTransitionSpeed := 10.0,
      blockTestOffset := 0.0,
      crouchActionType := Hold)
  }

  /** Identity of a UPhysicalMaterial object. */
  type MaterialId = nat

  /** Identity of a USoundBase object. */
  type SoundId = nat

  /**
   * A UFirstPersonFootstepData asset, seen through its accessors: the physical
   * material it is registered for (possibly null), its sounds (each entry
   * possibly null), and the stride to use while walking, running and crouching.
   */
  datatype FootstepData = FootstepData(
    physicalMaterial: Option<MaterialId>,
    footstepSounds: seq<Option<SoundId>>,
    strideWalk: real,
    strideRun: real,
    strideCrouch: real)

  /**
   * FFootstepSettings: the enable flag, the ordered list of mappings (each
   * entry may be null) and the stride currently used to pace footsteps.
   */
  datatype FootstepSettings = FootstepSettings(
    enableFootsteps: bool,
    mappings: seq<Option<FootstepData>>,
    currentStride: real)

  /** The default initialisers of FFootstepSettings. */
  const DefaultFootstepSettings: FootstepSettings := FootstepSettings(true, [], 160.0)

  /** Footsteps start enabled, with no mappings and a stride of 160. */
  lemma FootstepDefaults()
    ensures DefaultFootstepSettings.enableFootsteps
    ensures DefaultFootstepSettings.currentStride == 160.0
    ensures DefaultFootstepSettings.mappings == []
  {
  }
}
