/**
 * AFPCharacter as a class whose fields the engine callbacks update in
 * place. The crouch and run handlers are proved to move the character's
 * crouch fields exactly as the step functions of module Crouch say, the
 * footstep handlers as the accumulator and lookup of module Footsteps
 * say, and the input bootstrap as the store operations of module
 * InputBindings say.
 */
module Character {
  import opened Wrappers
  import opened FPSettings
  import opened Crouch
  import opened Footsteps
  import opened CameraShakes
  import opened InputBindings

  /** The camera's relative location set by the constructor. */
  const InitialCameraLocation: Vec3 := Vec3(0.0, 0.0, 70.0)

  class FPCharacter {
    // Editor configuration, fixed while playing.
    const movement: MovementSettings
    const useCustomKeyMappings: bool
    /** The engine's global input settings. */
    const input: InputSettings

    var footstepSettings: FootstepSettings

    // Crouching and running
    var crouchPhase: CrouchPhase
    var wantsToCrouch: bool
    var wantsToRun: bool
    var currentWalkSpeed: real
    /** The movement component's MaxWalkSpeed. */
    var maxWalkSpeed: real
    /** The movement component's JumpZVelocity. */
    var jumpZVelocity: real
    /** The capsule's half-height. */
    var halfHeight: real
    /** The camera's location relative to the capsule. */
    var camera: Vec3
    var originalHalfHeight: real
    var originalCamera: Vec3

    // Footsteps
    var travelDistance: real
    var currentFootstepMapping: Option<FootstepData>

    // The snapshot of the input store taken by SetupInputBindings
    var actionMappings: seq<ActionMapping>
    var axisMappings: seq<AxisMapping>

    /** The fields the crouch logic reads and writes, as one value. */
    ghost function CrouchView(): CrouchState
      reads this`crouchPhase, this`wantsToCrouch, this`wantsToRun, this`currentWalkSpeed, this`maxWalkSpeed
      reads this`halfHeight, this`camera
    {
      CrouchState(crouchPhase, wantsToCrouch, wantsToRun, currentWalkSpeed, maxWalkSpeed, halfHeight, camera)
    }

    /** The standing pose captured at BeginPlay. */
    ghost function Base(): Baseline
      reads this`originalHalfHeight, this`originalCamera
    {
      Baseline(originalHalfHeight, originalCamera)
    }

    /**
     * The invariant from BeginPlay on: the accumulator is non-negative, and
     * a settled phase sits exactly at its target.
     */
    ghost predicate Valid()
      reads this`travelDistance
      reads this`crouchPhase, this`wantsToCrouch, this`wantsToRun, this`currentWalkSpeed, this`maxWalkSpeed
      reads this`halfHeight, this`camera, this`originalHalfHeight, this`originalCamera
    {
      && travelDistance >= 0.0
      && Settled(CrouchView(), movement, Base())
    }

    /**
     * AFPCharacter(): standing, the camera at (0, 0, 70), MaxWalkSpeed and
     * JumpZVelocity of 300. The configuration stands for the editor's
     * values and `capsuleHalfHeight` for the inherited capsule's size.
     */
    constructor (movement: MovementSettings, footstepSettings: FootstepSettings, useCustomKeyMappings: bool,
                 input: InputSettings, capsuleHalfHeight: real)
      ensures this.movement == movement && this.footstepSettings == footstepSettings
      ensures this.useCustomKeyMappings == useCustomKeyMappings && this.input == input
      ensures crouchPhase == Standing && !wantsToCrouch && !wantsToRun
      ensures maxWalkSpeed == 300.0 && jumpZVelocity == 300.0 && currentWalkSpeed == 0.0
      ensures camera == InitialCameraLocation && halfHeight == capsuleHalfHeight
      ensures travelDistance == 0.0 && currentFootstepMapping == None
      ensures actionMappings == [] && axisMappings == []
    {
      this.movement := movement;
      this.footstepSettings := footstepSettings;
      this.useCustomKeyMappings := useCustomKeyMappings;
      this.input := input;
      crouchPhase := Standing;
      wantsToCrouch := false;
      wantsToRun := false;
      currentWalkSpeed := 0.0;
      maxWalkSpeed := 300.0;
      jumpZVelocity := 300.0;
      camera := InitialCameraLocation;
      halfHeight := capsuleHalfHeight;
      originalHalfHeight := 0.0;
      originalCamera := Vec3(0.0, 0.0, 0.0);
      travelDistance := 0.0;
      currentFootstepMapping := None;
      actionMappings := [];
      axisMappings := [];
    }

    /**
     * BeginPlay: the walk speed and jump velocity from the settings, the
     * standing pose captured, the accumulator reset, and the input
     * bootstrap. It runs once on a freshly constructed character.
     */
    method BeginPlay()
      requires crouchPhase == Standing && !wantsToCrouch
      modifies this`currentWalkSpeed, this`maxWalkSpeed, this`jumpZVelocity, this`originalCamera, this`originalHalfHeight
      modifies this`travelDistance, this`actionMappings, this`axisMappings, input
      ensures currentWalkSpeed == movement.walkSpeed && maxWalkSpeed == movement.walkSpeed
      ensures jumpZVelocity == movement.jumpVelocity
      ensures originalHalfHeight == halfHeight && originalCamera == camera
      ensures travelDistance == 0.0
      ensures actionMappings == old(input.actionMappings) && axisMappings == old(input.axisMappings)
      ensures Valid()
    {
      currentWalkSpeed := movement.walkSpeed;
      maxWalkSpeed := currentWalkSpeed;
      jumpZVelocity := movement.jumpVelocity;
      originalCamera := camera;
      originalHalfHeight := halfHeight;
      travelDistance := 0.0;
      assert Valid();
      SetupInputBindings();
    }

    // -------------------------------------------------------------------
    // Crouching and running

    /**
     * Tick: the camera shakes for this frame (chosen from MaxWalkSpeed
     * before the update), then UpdateCrouch, then UpdateWalkingSpeed.
     * `sweep` is what the upward sweep of IsBlockedInCrouchStance hits.
     */
    method Tick(deltaTime: real, hasController: bool, speed: real, canJump: bool, sweep: SweepHit)
      returns (shakes: seq<ShakeCall>)
      requires Valid()
      modifies this`crouchPhase, this`currentWalkSpeed, this`maxWalkSpeed, this`halfHeight, this`camera
      ensures shakes == TickShakes(hasController, speed, canJump, old(maxWalkSpeed), movement.runSpeed)
      ensures CrouchView() == TickCrouch(old(CrouchView()), movement, Base(), deltaTime, IsBlockedBySweep(sweep))
      ensures Valid()
    {
      shakes := TickShakes(hasController, speed, canJump, maxWalkSpeed, movement.runSpeed);
      UpdateCrouch(deltaTime, sweep);
      UpdateWalkingSpeed();
    }

    /** StartCrouch, with `sweep` standing for the blocked-stance test in Toggle mode. */
    method StartCrouch(sweep: SweepHit)
      requires Valid()
      modifies this`wantsToCrouch, this`crouchPhase
      ensures CrouchView() == Crouch.StartCrouch(old(CrouchView()), movement.crouchActionType, IsBlockedBySweep(sweep))
      ensures Valid()
    {
      match movement.crouchActionType
      case Hold =>
        wantsToCrouch := true;
        crouchPhase := InTransition;
      case Toggle =>
        if wantsToCrouch && !IsBlockedBySweep(sweep) {
          wantsToCrouch := false;
          crouchPhase := InTransition;
        } else if !wantsToCrouch {
          wantsToCrouch := true;
          crouchPhase := InTransition;
        }
    }

    method StopCrouching()
      requires Valid()
      modifies this`wantsToCrouch, this`crouchPhase
      ensures CrouchView() == Crouch.StopCrouching(old(CrouchView()), movement.crouchActionType)
      ensures Valid()
    {
      if movement.crouchActionType == Hold {
        wantsToCrouch := false;
        crouchPhase := InTransition;
      }
    }

    method Run()
      requires Valid()
      modifies this`wantsToRun
      ensures wantsToRun
      ensures Valid()
    {
      wantsToRun := true;
    }

    method StopRunning()
      requires Valid()
      modifies this`wantsToRun
      ensures !wantsToRun
      ensures Valid()
    {
      wantsToRun := false;
    }

    method UpdateWalkingSpeed()
      requires Valid()
      modifies this`currentWalkSpeed, this`maxWalkSpeed
      ensures CrouchView() == Crouch.UpdateWalkingSpeed(old(CrouchView()), movement)
      ensures Valid()
    {
      if crouchPhase == Standing {
        currentWalkSpeed := if wantsToRun then movement.runSpeed else movement.walkSpeed;
        maxWalkSpeed := currentWalkSpeed;
      }
    }

    /**
     * UpdateCrouch: every interpolation of the frame uses the factor
     * StandToCrouchTransitionSpeed * DeltaTime.
     */
    method UpdateCrouch(deltaTime: real, sweep: SweepHit)
      requires Valid()
      modifies this`crouchPhase, this`maxWalkSpeed, this`halfHeight, this`camera
      ensures CrouchView() == Crouch.UpdateCrouch(old(CrouchView()), movement, Base(), TransitionAlpha(movement, deltaTime), IsBlockedBySweep(sweep))
      ensures Valid()
    {
      UpdateCrouchBy(TransitionAlpha(movement, deltaTime), sweep);
    }

    /**
     * The body of UpdateCrouch for the frame's interpolation factor `alpha`;
     * the sweep is consulted only by a Hold character that wants to stand.
     */
    method UpdateCrouchBy(alpha: real, sweep: SweepHit)
      requires Valid()
      modifies this`crouchPhase, this`maxWalkSpeed, this`halfHeight, this`camera
      ensures CrouchView() == Crouch.UpdateCrouch(old(CrouchView()), movement, Base(), alpha, IsBlockedBySweep(sweep))
      ensures Valid()
    {
      ghost var s, base, blocked := CrouchView(), Base(), IsBlockedBySweep(sweep);
      UpdateCrouchFrame(s, movement, base, alpha, blocked);
      UpdateCrouchKeepsSettled(s, movement, base, alpha, blocked);
      ghost var t := TransitionTarget(s, movement, base);
      if crouchPhase == InTransition {
        if wantsToCrouch {
          var newLocation := LerpVec(camera, CrouchedCameraLocation, alpha);
          var newHalfHeight := Lerp(halfHeight, originalHalfHeight / 2.0, alpha);
          var newWalkSpeed := Lerp(maxWalkSpeed, movement.crouchSpeed, alpha);
          assert t == Target(CrouchedCameraLocation, originalHalfHeight / 2.0, movement.crouchSpeed, Crouching);
          UpdateCrouchApproaches(s, movement, base, alpha, blocked);
          ApproachStep(s, t, alpha, newLocation, newHalfHeight, newWalkSpeed);
          if IsNearlyEqual(newHalfHeight, originalHalfHeight / 2.0, ErrorMargin) {
            camera := CrouchedCameraLocation;
            halfHeight := originalHalfHeight / 2.0;
            maxWalkSpeed := movement.crouchSpeed;
            crouchPhase := Crouching;
          } else {
            camera := newLocation;
            halfHeight := newHalfHeight;
            maxWalkSpeed := newWalkSpeed;
          }
        } else if !(movement.crouchActionType == Hold && IsBlockedBySweep(sweep)) {
          var newLocation := LerpVec(camera, originalCamera, alpha);
          var newHalfHeight := Lerp(halfHeight, originalHalfHeight, alpha);
          var newWalkSpeed := Lerp(maxWalkSpeed, currentWalkSpeed, alpha);
          assert t == Target(originalCamera, originalHalfHeight, currentWalkSpeed, Standing);
          UpdateCrouchApproaches(s, movement, base, alpha, blocked);
          ApproachStep(s, t, alpha, newLocation, newHalfHeight, newWalkSpeed);
          if IsNearlyEqual(newHalfHeight, originalHalfHeight, ErrorMargin) {
            camera := originalCamera;
            halfHeight := originalHalfHeight;
            crouchPhase := Standing;
            maxWalkSpeed := currentWalkSpeed;
          } else {
            camera := newLocation;
            halfHeight := newHalfHeight;
            maxWalkSpeed := newWalkSpeed;
          }
        }
      }
      assert Base() == base;
    }

    // -------------------------------------------------------------------
    // Jumping and landing

    /** Jump: only a standing character jumps, and the jump shake starts with it. */
    method Jump() returns (jumped: bool, shakes: seq<ShakeCall>)
      ensures jumped <==> crouchPhase == Standing
      ensures shakes == if jumped then [JumpStartShake] else []
    {
      if crouchPhase == Standing {
        jumped := true;
        shakes := [JumpStartShake];
      } else {
        jumped := false;
        shakes := [];
      }
    }

    /**
     * Landed: a standing character gets the landing shake and, with
     * footsteps enabled, a footstep; a crouching one gets neither.
     */
    method Landed(floor: FloorProbe) returns (shakes: seq<ShakeCall>, played: Option<FootstepPlay>)
      requires Valid()
      requires crouchPhase == Standing && footstepSettings.enableFootsteps ==> FloorHasSound(footstepSettings.mappings, floor)
      modifies this`footstepSettings, this`currentFootstepMapping
      ensures shakes == if old(crouchPhase) == Standing then [LandedShake] else []
      ensures old(crouchPhase) == Standing && footstepSettings.enableFootsteps ==>
                FootstepOutcome(old(footstepSettings), old(currentFootstepMapping), floor, crouchPhase, wantsToRun,
                                footstepSettings, currentFootstepMapping, played)
      ensures !(old(crouchPhase) == Standing && footstepSettings.enableFootsteps) ==>
                played == None && footstepSettings == old(footstepSettings) && currentFootstepMapping == old(currentFootstepMapping)
      ensures Valid()
    {
      played := None;
      if crouchPhase == Standing {
        shakes := [LandedShake];
        if footstepSettings.enableFootsteps {
          played := PlayFootstepSound(floor);
        }
      } else {
        shakes := [];
      }
    }

    // -------------------------------------------------------------------
    // Footsteps

    /**
     * The footstep part of MoveForward. `moving` says the velocity is
     * non-zero, `mode` is the movement mode, `travelled` the distance from
     * the last sampled location and `floor` what the floor probe would find.
     */
    method MoveForward(hasController: bool, moving: bool, mode: MovementMode, travelled: real, floor: FloorProbe)
      returns (played: Option<FootstepPlay>)
      requires Valid() && travelled >= 0.0
      requires hasController && footstepSettings.enableFootsteps
               && AccumulateTravel(travelDistance, footstepSettings.currentStride, moving, mode, travelled).footstep ==>
                 FloorHasSound(footstepSettings.mappings, floor)
      modifies this`travelDistance, this`footstepSettings, this`currentFootstepMapping
      ensures !(hasController && old(footstepSettings).enableFootsteps) ==>
                played == None && travelDistance == old(travelDistance)
                && footstepSettings == old(footstepSettings) && currentFootstepMapping == old(currentFootstepMapping)
      ensures hasController && old(footstepSettings).enableFootsteps ==>
                var a := AccumulateTravel(old(travelDistance), old(footstepSettings).currentStride, moving, mode, travelled);
                && travelDistance == a.travelDistance
                && (a.footstep ==> FootstepOutcome(old(footstepSettings), old(currentFootstepMapping), floor, crouchPhase, wantsToRun,
                                                   footstepSettings, currentFootstepMapping, played))
                && (!a.footstep ==> played == None && footstepSettings == old(footstepSettings)
                                    && currentFootstepMapping == old(currentFootstepMapping))
      ensures Valid()
    {
      played := None;
      if hasController && footstepSettings.enableFootsteps {
        if moving && mode == MovingOnGround {
          travelDistance := travelDistance + travelled;
        } else if mode == Falling {
          travelDistance := 0.0;
        }
        if mode == MovingOnGround && travelDistance > footstepSettings.currentStride {
          played := PlayFootstepSound(floor);
          travelDistance := 0.0;
        }
      }
    }

    /**
     * PlayFootstepSound: on a floor, look the surface up; when that gives a
     * sound, look it up again and play the second pick, quieter unless
     * standing. A null second pick plays nothing.
     */
    method PlayFootstepSound(floor: FloorProbe) returns (played: Option<FootstepPlay>)
      requires FloorHasSound(footstepSettings.mappings, floor)
      modifies this`footstepSettings, this`currentFootstepMapping
      ensures FootstepOutcome(old(footstepSettings), old(currentFootstepMapping), floor, crouchPhase, wantsToRun,
                              footstepSettings, currentFootstepMapping, played)
    {
      played := None;
      if floor.Floor? {
        var probe := GetFootstepSound(floor.surface);
        if probe.Some? {
          var sound := GetFootstepSound(floor.surface);
          if sound.Some? {
            played := Some(FootstepPlay(sound.value, if crouchPhase != Standing then 0.35 else 1.0));
          }
        }
      }
    }

    /**
     * GetFootstepSound: the first mapping registered for the surface sets
     * the current mapping and the stride, and one of its sound entries
     * (possibly null) is picked at random; no answering mapping gives null.
     */
    method GetFootstepSound(surface: Option<MaterialId>) returns (sound: Option<SoundId>)
      requires HasSoundFor(footstepSettings.mappings, surface)
      modifies this`footstepSettings, this`currentFootstepMapping
      ensures var r := FirstMatch(old(footstepSettings).mappings, surface);
              && (r.None? ==> sound == None && footstepSettings == old(footstepSettings)
                              && currentFootstepMapping == old(currentFootstepMapping))
              && (r.Some? ==>
                    var d := old(footstepSettings).mappings[r.value].value;
                    && sound in d.footstepSounds
                    && currentFootstepMapping == Some(d)
                    && footstepSettings == old(footstepSettings).(currentStride := StrideFor(d, crouchPhase, wantsToRun)))
    {
      var mappings := footstepSettings.mappings;
      var i := 0;
      while i < |mappings|
        invariant 0 <= i <= |mappings|
        invariant FirstMatchFrom(mappings, surface, i) == FirstMatch(mappings, surface)
        invariant footstepSettings == old(footstepSettings) && currentFootstepMapping == old(currentFootstepMapping)
      {
        var mapping := mappings[i];
        if mapping.Some? && mapping.value.physicalMaterial == surface {
          currentFootstepMapping := mapping;
          footstepSettings := footstepSettings.(currentStride :=
            if crouchPhase != Standing then mapping.value.strideCrouch
            else if wantsToRun then mapping.value.strideRun
            else mapping.value.strideWalk);
          var sounds := mapping.value.footstepSounds;
          var k :| 0 <= k < |sounds|;
          return sounds[k];
        }
        i := i + 1;
      }
      return None;
    }

    // -------------------------------------------------------------------
    // Input bindings

    /**
     * SetupInputBindings: snapshot the store, then install the defaults
     * unless the store already holds mappings and custom key mappings are
     * enabled. Installing removes the snapshot, which empties the store.
     */
    method SetupInputBindings()
      modifies this`actionMappings, this`axisMappings, input
      ensures actionMappings == old(input.actionMappings) && axisMappings == old(input.axisMappings)
      ensures InstallsDefaults(|actionMappings|, |axisMappings|, useCustomKeyMappings) ==>
                && input.actionMappings == AddEach([], DefaultActionMappings(useCustomKeyMappings))
                && input.axisMappings == DefaultAxisMappings(useCustomKeyMappings)
      ensures !InstallsDefaults(|actionMappings|, |axisMappings|, useCustomKeyMappings) ==>
                input.actionMappings == old(input.actionMappings) && input.axisMappings == old(input.axisMappings)
    {
      actionMappings := input.actionMappings;
      axisMappings := input.axisMappings;
      if |actionMappings| > 0 || |axisMappings| > 0 {
        if !useCustomKeyMappings {
          ResetToDefaultInputBindings();
        }
      } else {
        ResetToDefaultInputBindings();
      }
      if InstallsDefaults(|actionMappings|, |axisMappings|, useCustomKeyMappings) {
        RemoveSnapshotEmpties(actionMappings);
        RemoveSnapshotEmpties(axisMappings);
        InstalledDefaultAxes(useCustomKeyMappings);
      }
    }

    /** ResetInputBindings: remove every snapshotted mapping from the store, one by one. */
    method ResetInputBindings()
      modifies input
      ensures input.actionMappings == RemoveEach(old(input.actionMappings), actionMappings)
      ensures input.axisMappings == RemoveEach(old(input.axisMappings), axisMappings)
    {
      for i := 0 to |actionMappings|
        invariant input.actionMappings == RemoveEach(old(input.actionMappings), actionMappings[..i])
        invariant input.axisMappings == old(input.axisMappings)
      {
        assert actionMappings[..i + 1][..i] == actionMappings[..i];
        input.RemoveActionMapping(actionMappings[i]);
      }
      assert actionMappings[..|actionMappings|] == actionMappings;
      for i := 0 to |axisMappings|
        invariant input.actionMappings == RemoveEach(old(input.actionMappings), actionMappings)
        invariant input.axisMappings == RemoveEach(old(input.axisMappings), axisMappings[..i])
      {
        assert axisMappings[..i + 1][..i] == axisMappings[..i];
        input.RemoveAxisMapping(axisMappings[i]);
      }
      assert axisMappings[..|axisMappings|] == axisMappings;
    }

    /** The SetActionMapping helper of ResetToDefaultInputBindings. */
    method SetActionMapping(name: ActionName, key: Key)
      modifies input
      ensures input.actionMappings == AddUnique(old(input.actionMappings), DefaultAction(name, key, useCustomKeyMappings))
      ensures input.axisMappings == old(input.axisMappings)
    {
      var mapping := ActionMapping(name, if useCustomKeyMappings then KeyboardCategory else key);
      input.AddActionMapping(mapping);
    }

    /** The SetAxisMapping helper of ResetToDefaultInputBindings. */
    method SetAxisMapping(name: AxisName, key: Key, scale: real)
      modifies input
      ensures input.axisMappings == AddUnique(old(input.axisMappings), AxisMapping(name, BoundKey(key, useCustomKeyMappings), scale))
      ensures input.actionMappings == old(input.actionMappings)
    {
      var mapping := AxisMapping(name, if useCustomKeyMappings then KeyboardCategory else key, scale);
      input.AddAxisMapping(mapping);
    }

    /**
     * ResetToDefaultInputBindings: clear the snapshot from the store, then
     * add the default key-to-name maps in order, every key replaced by the
     * keyboard-category placeholder when custom key mappings are enabled
     * and the S, A and MouseY axes reversed.
     */
    method ResetToDefaultInputBindings()
      modifies input
      ensures input.actionMappings ==
                AddEach(RemoveEach(old(input.actionMappings), actionMappings), DefaultActionMappings(useCustomKeyMappings))
      ensures input.axisMappings ==
                AddEach(RemoveEach(old(input.axisMappings), axisMappings), DefaultAxisMappings(useCustomKeyMappings))
    {
      ResetInputBindings();
      AddDefaultActionMappings();
      AddDefaultAxisMappings();
    }

    /** The action loop of ResetToDefaultInputBindings: one SetActionMapping per entry of the default action map. */
    method AddDefaultActionMappings()
      modifies input
      ensures input.actionMappings == AddEach(old(input.actionMappings), DefaultActionMappings(useCustomKeyMappings))
      ensures input.axisMappings == old(input.axisMappings)
    {
      ghost var defaults := DefaultActionMappings(useCustomKeyMappings);
      DefaultMappingsFromMaps(useCustomKeyMappings);
      for i := 0 to |DefaultActionKeys|
        invariant input.actionMappings == AddEach(old(input.actionMappings), defaults[..i])
        invariant input.axisMappings == old(input.axisMappings)
      {
        assert defaults[..i + 1][..i] == defaults[..i];
        SetActionMapping(DefaultActionNames[i], DefaultActionKeys[i]);
      }
      assert defaults[..|DefaultActionKeys|] == defaults;
    }

    /** The axis loop of ResetToDefaultInputBindings: one SetAxisMapping per entry of the default axis map. */
    method AddDefaultAxisMappings()
      modifies input
      ensures input.axisMappings == AddEach(old(input.axisMappings), DefaultAxisMappings(useCustomKeyMappings))
      ensures input.actionMappings == old(input.actionMappings)
    {
      ghost var defaults := DefaultAxisMappings(useCustomKeyMappings);
      DefaultMappingsFromMaps(useCustomKeyMappings);
      for i := 0 to |DefaultAxisKeys|
        invariant input.axisMappings == AddEach(old(input.axisMappings), defaults[..i])
        invariant input.actionMappings == old(input.actionMappings)
      {
        var key := DefaultAxisKeys[i];
        var isNegativeScale := key == S || key == A || key == MouseY;
        assert defaults[..i + 1][..i] == defaults[..i];
        SetAxisMapping(DefaultAxisNames[i], key, if isNegativeScale then -1.0 else 1.0);
      }
      assert defaults[..|DefaultAxisKeys|] == defaults;
    }
  }
}
