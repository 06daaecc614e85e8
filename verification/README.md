# AFPCharacter crouch, footstep and input-binding model

A Dafny model of the core of `AFPCharacter`, the first-person character of
the FirstPersonCharacter plugin for Unreal Engine 4, with proofs about it.

- `wrappers.dfy` (module `Wrappers`): the `Option` type, used for null pointers.
- `settings.dfy` (module `FPSettings`): what `FPCharacter.h` declares.
  - The `ECrouchPhase` and `EPlayerActionType` enums.
  - `FFirstPersonMovementSettings` with its default initialisers and editor clamp ranges.
  - `FFootstepSettings` and the footstep data assets it lists.
- `crouch.dfy` (module `Crouch`): the crouch / run state machine, stated on values.
  - A `CrouchState` holds the phase, the two intents, `CurrentWalkSpeed`, `MaxWalkSpeed`, the capsule half-height and the camera location.
  - `StartCrouch`, `StopCrouching`, `UpdateCrouch`, `UpdateWalkingSpeed` and the crouch part of `Tick` are functions on that state.
  - `Replay` folds a sequence of key and tick events.
  - The lemmas cover:
    - the Hold and Toggle key rules;
    - the snap-to-target rule;
    - the invariant that a settled phase sits exactly at its target;
    - the fact that a transition ends, within a bound on the number of ticks, when every tick is unblocked and its interpolation factor lies in [minAlpha, 1]. A blocked stand-up in Hold mode never ends.
- `footsteps.dfy` (module `Footsteps`): footstep accounting.
  - The travel accumulator of `MoveForward`.
  - The first-match surface lookup of `GetFootstepSound`, with the stride it selects.
  - What one `PlayFootstepSound` may do.
- `camera_shakes.dfy` (module `CameraShakes`): which shakes `UpdateCameraShake`, `Jump` and `Landed` start.
- `input_bindings.dfy` (module `InputBindings`): the input store and the default bindings.
  - The engine's input settings (`UInputSettings`) become a class holding sequences of action and axis mappings.
  - The default binding table of `ResetToDefaultInputBindings`.
  - The decision of `SetupInputBindings` whether to install that table.
- `character.dfy` (module `Character`): `AFPCharacter` as a class whose methods update its fields in place.
  - Each crouch handler is proved to change the crouch fields exactly as the matching function of `Crouch` says.
  - It keeps the invariant `Valid()` (settled phases at their targets, a non-negative accumulator).
  - The footstep handlers follow `Footsteps`.
  - The input bootstrap follows the store operations of `InputBindings`.

Engine queries become inputs of the methods:
- the sphere sweep of `IsBlockedInCrouchStance` (`SweepHit`);
- the floor probe of `PlayFootstepSound` (`FloorProbe`);
- the travelled distance and movement mode in `MoveForward`;
- the velocity, `CanJump` and controller presence in `UpdateCameraShake`.

The random sound pick is a nondeterministic index in range. Sound entries, like mappings, may be null. `FMath::Lerp` is `a + (b - a) * alpha` over `real`, with `alpha` not clamped. `FMath::IsNearlyEqual(x, y, 2)` is `|x - y| <= 2`.

## Model

| member | source | states |
|---|---|---|
| FPSettings.DefaultMovement | Plugins/FirstPersonCharacter/Source/FirstPersonCharacter/Public/FPCharacter.h:56-81 | The default movement settings lie inside every editor clamp range, crouch by holding the key, and order the speeds crouch < walk < run. |
| FPSettings.FootstepDefaults | Plugins/FirstPersonCharacter/Source/FirstPersonCharacter/Public/FPCharacter.h:43-54 | Footsteps start enabled, with a stride of 160 and an empty mapping list. |
| Crouch.IsBlockedBySweep | Plugins/FirstPersonCharacter/Source/FirstPersonCharacter/Private/FPCharacter.cpp:333-343 | The stance is blocked only by a sweep hit, and a hit blocks exactly when the hit component does not simulate physics. |
| Crouch.BlockTraceDistance | Plugins/FirstPersonCharacter/Source/FirstPersonCharacter/Private/FPCharacter.cpp:309-312 | In Hold mode, under the clamp ranges, the sweep reaches between the half-height without hemisphere and 2 beyond it. In Toggle mode it reaches the original half-height. |
| Crouch.StartCrouch | Plugins/FirstPersonCharacter/Source/FirstPersonCharacter/Private/FPCharacter.cpp:142-168 | A press changes only the intent and the phase, and any change starts a transition. In Toggle mode a press either flips the intent or changes nothing. HoldKeySetsIntent and TogglePress give the exact result. |
| Crouch.StopCrouching | Plugins/FirstPersonCharacter/Source/FirstPersonCharacter/Private/FPCharacter.cpp:170-177 | A release changes only the intent and the phase, and any change is a transition toward standing. HoldKeySetsIntent gives the exact result. |
| Crouch.Approach | Plugins/FirstPersonCharacter/Source/FirstPersonCharacter/Private/FPCharacter.cpp:257-300 | One interpolation step keeps the intents and the remembered walk speed. The phase either stays or becomes the target's, and when it changes the camera, half-height and MaxWalkSpeed are exactly the target's. ApproachSnaps gives the exact result. |
| Crouch.UpdateCrouch | Plugins/FirstPersonCharacter/Source/FirstPersonCharacter/Private/FPCharacter.cpp:252-303 | The update keeps the intents and the remembered walk speed, and changes the phase only from a transition to the phase its intent aims at. UpdateCrouchFrame, UpdateCrouchSnaps and StandingOnlyWhenUnblocked give the exact result. |
| Crouch.UpdateWalkingSpeed | Plugins/FirstPersonCharacter/Source/FirstPersonCharacter/Private/FPCharacter.cpp:243-250 | Only the two speeds change. A standing character ends with MaxWalkSpeed equal to the remembered speed, which is the walk or the run speed. WalkingSpeedFollowsRunIntent gives the exact result. |
| Crouch.TickCrouch | Plugins/FirstPersonCharacter/Source/FirstPersonCharacter/Private/FPCharacter.cpp:79-87 | A tick keeps both intents, and a character standing after it moves at the run speed exactly when it wants to run, else at the walk speed. |
| Crouch.HoldKeySetsIntent | Plugins/FirstPersonCharacter/Source/FirstPersonCharacter/Private/FPCharacter.cpp:142-177 | In Hold mode a press sets the crouch intent and starts a transition, and a release clears it and starts a transition. In Toggle mode a release changes nothing. |
| Crouch.TogglePress | Plugins/FirstPersonCharacter/Source/FirstPersonCharacter/Private/FPCharacter.cpp:153-166 | A Toggle press changes nothing when crouch is wanted and the stance is blocked. Otherwise it flips the intent and starts a transition. |
| Crouch.ToggleTwiceRestoresIntent | Plugins/FirstPersonCharacter/Source/FirstPersonCharacter/Private/FPCharacter.cpp:153-166 | Two unblocked Toggle presses restore the original crouch intent and leave the character in transition. |
| Crouch.UpdateCrouchFrame | Plugins/FirstPersonCharacter/Source/FirstPersonCharacter/Private/FPCharacter.cpp:252-303 | The update changes nothing outside a transition, and nothing for a Hold character that wants to stand while blocked. It never changes the intents or the remembered walk speed. |
| Crouch.ApproachSnaps | Plugins/FirstPersonCharacter/Source/FirstPersonCharacter/Private/FPCharacter.cpp:256-300 | A step toward a settled target ends the transition exactly when the lerped half-height is within 2 of the target. It then sets every value to the target's, and otherwise stores the lerped camera, half-height and speed. |
| Crouch.UpdateCrouchSnaps | Plugins/FirstPersonCharacter/Source/FirstPersonCharacter/Private/FPCharacter.cpp:256-300 | The same rule per intent. Crouching snaps to half the original capsule, the camera at (0, 0, 30) and the crouch speed. Standing snaps to the original capsule and camera and the remembered walk speed. |
| Crouch.StandingOnlyWhenUnblocked | Plugins/FirstPersonCharacter/Source/FirstPersonCharacter/Private/FPCharacter.cpp:280-294 | The update enters Standing only from a transition toward standing that a blocked Hold stance does not hold. |
| Crouch.WalkingSpeedFollowsRunIntent | Plugins/FirstPersonCharacter/Source/FirstPersonCharacter/Private/FPCharacter.cpp:243-250 | While standing, both the remembered speed and MaxWalkSpeed become the run speed when running and the walk speed otherwise. In any other phase nothing changes. |
| Crouch.RunAfterOneTick | Plugins/FirstPersonCharacter/Source/FirstPersonCharacter/Private/FPCharacter.cpp:79-87 | With the default settings, a standing character holding the run key has MaxWalkSpeed 500 after one tick. |
| Crouch.UpdateCrouchKeepsSettled | Plugins/FirstPersonCharacter/Source/FirstPersonCharacter/Private/FPCharacter.cpp:252-303 | The update preserves the invariant that a settled phase sits exactly at the target of its intent. |
| Crouch.StepKeepsSettled | Plugins/FirstPersonCharacter/Source/FirstPersonCharacter/Private/FPCharacter.cpp:142-177 | Every key event and every tick preserves that invariant. |
| Crouch.ReplayKeepsSettled | Plugins/FirstPersonCharacter/Source/FirstPersonCharacter/Private/FPCharacter.cpp:79-87 | Any sequence of events preserves that invariant. |
| Crouch.HoldMirrorsCrouchKey | Plugins/FirstPersonCharacter/Source/FirstPersonCharacter/Private/FPCharacter.cpp:142-177 | In Hold mode, after any event sequence the crouch intent is the state of the last crouch key event: pressed means crouch. Without such an event the intent is unchanged. |
| Crouch.ToggleFlipsPerPress | Plugins/FirstPersonCharacter/Source/FirstPersonCharacter/Private/FPCharacter.cpp:153-166 | In Toggle mode with no blocked press, the intent differs from the initial one exactly when the number of presses is odd. |
| Crouch.BlockedStandUpWaits | Plugins/FirstPersonCharacter/Source/FirstPersonCharacter/Private/FPCharacter.cpp:280 | In Hold mode, a stand-up transition stays exactly where it is for as long as every tick finds the stance blocked. |
| Crouch.LerpContracts | Plugins/FirstPersonCharacter/Source/FirstPersonCharacter/Private/FPCharacter.cpp:261 | A lerp with factor alpha in [1 - q, 1] shrinks the distance to the target by at least the factor q. |
| Crouch.SettledTick | Plugins/FirstPersonCharacter/Source/FirstPersonCharacter/Private/FPCharacter.cpp:254 | A tick outside a transition keeps the phase, the intent, the half-height and the camera. |
| Crouch.SteadyTickContracts | Plugins/FirstPersonCharacter/Source/FirstPersonCharacter/Private/FPCharacter.cpp:252-303 | An unblocked tick with factor in [minAlpha, 1] keeps the intent. It either reaches the exact target or keeps the half-height within the distance bound shrunk by 1 - minAlpha, and it ends the transition once that bound is within 2. |
| Crouch.OnTrackStep | Plugins/FirstPersonCharacter/Source/FirstPersonCharacter/Private/FPCharacter.cpp:252-303 | Such a tick keeps a transition on track with the bound shrunk by 1 - minAlpha, whether or not it had already finished. |
| Crouch.TransitionContracts | Plugins/FirstPersonCharacter/Source/FirstPersonCharacter/Private/FPCharacter.cpp:252-303 | Over n such ticks a transition keeps its intent. It is either at its exact target or within (1 - minAlpha)^n times the initial distance of it. |
| Crouch.TransitionResolves | Plugins/FirstPersonCharacter/Source/FirstPersonCharacter/Private/FPCharacter.cpp:252-303 | A transition ends at the exact target phase, half-height and camera within any n >= 1 steady ticks for which the initial distance is at most 2 n minAlpha. |
| Crouch.ToggleRoundTrip | Plugins/FirstPersonCharacter/Source/FirstPersonCharacter/Private/FPCharacter.cpp:142-168 | In Toggle mode, press, enough steady ticks, press and enough steady ticks bring a settled standing character back to standing at the original capsule and camera. |
| Footsteps.AccumulateTravel | Plugins/FirstPersonCharacter/Source/FirstPersonCharacter/Private/FPCharacter.cpp:195-215 | Falling resets the accumulator. A footstep fires exactly when grounded with the accumulated travel strictly above the stride, and it empties the accumulator. Otherwise the accumulator stays non-negative and at most the stride when grounded. |
| Footsteps.OneStrideOneFootstep | Plugins/FirstPersonCharacter/Source/FirstPersonCharacter/Private/FPCharacter.cpp:211-215 | A single 170-unit grounded move at the default stride of 160 fires one footstep and empties the accumulator. |
| Footsteps.FootstepsPaceTheWalk | Plugins/FirstPersonCharacter/Source/FirstPersonCharacter/Private/FPCharacter.cpp:195-215 | Over a ground walk, k footsteps account for more than k strides and, with moves of at most maxDelta, at most k (stride + maxDelta) of the distance travelled. The accumulator stays within [0, stride]. |
| Footsteps.FirstMatchFrom | Plugins/FirstPersonCharacter/Source/FirstPersonCharacter/Private/FPCharacter.cpp:399-407 | The lookup finds the first non-null mapping registered for the surface, or reports that none is. |
| Footsteps.FirstMatchIgnoresLaterAndNonMatching | Plugins/FirstPersonCharacter/Source/FirstPersonCharacter/Private/FPCharacter.cpp:399-407 | Mappings added after the first match, or non-matching ones added before it, do not change which mapping answers. |
| Footsteps.StrideFor | Plugins/FirstPersonCharacter/Source/FirstPersonCharacter/Private/FPCharacter.cpp:404 | The stride is one of the mapping's three strides: the crouch stride unless standing, else the run stride when running and the walk stride otherwise. |
| Footsteps.FootstepVolume | Plugins/FirstPersonCharacter/Source/FirstPersonCharacter/Private/FPCharacter.cpp:381-384 | The volume lies in (0, 1] and is full exactly when standing. |
| Footsteps.FootstepOutcome | Plugins/FirstPersonCharacter/Source/FirstPersonCharacter/Private/FPCharacter.cpp:373-411 | A footstep never changes the mapping list or the enable flag. FootstepOutcomeFacts gives the rest. |
| Footsteps.OtherSurfacesMayHaveNoSounds | Plugins/FirstPersonCharacter/Source/FirstPersonCharacter/Private/FPCharacter.cpp:399-405 | Only the first mapping that answers for the surface must hold a sound. A silent mapping for another surface does not block the lookup for gravel, but it leaves its own surface unanswerable. |
| Footsteps.FootstepOutcomeFacts | Plugins/FirstPersonCharacter/Source/FirstPersonCharacter/Private/FPCharacter.cpp:373-411 | Whenever the floor is hit and some mapping answers for its surface, the first one becomes current and sets the stride for the phase and run intent, even if nothing plays. Otherwise nothing changes and nothing plays. A played sound is a non-null entry of that mapping, at a volume below 1 exactly when not standing. When no mapping holds a null sound, a footstep plays exactly when some mapping answers. The mappings and the enable flag never change. |
| CameraShakes.TickShakes | Plugins/FirstPersonCharacter/Source/FirstPersonCharacter/Private/FPCharacter.cpp:346-361 | With a controller, the walk shake (scale 2) plays when moving and able to jump, and the idle shake (scale 1) otherwise. The run shake is added exactly when moving, able to jump and at or above the run speed. Without a controller nothing plays. |
| CameraShakes.OneBaseShakePerTick | Plugins/FirstPersonCharacter/Source/FirstPersonCharacter/Private/FPCharacter.cpp:348-360 | Exactly one of the idle and walk shakes plays per tick, the run shake only with the walk shake, and never a jump shake. |
| CameraShakes.LandingShakesHarder | Plugins/FirstPersonCharacter/Source/FirstPersonCharacter/Private/FPCharacter.cpp:110-133 | Landing starts the same jump shake as jumping, at a larger scale. |
| InputBindings.AddUnique | Plugins/FirstPersonCharacter/Source/FirstPersonCharacter/Private/FPCharacter.cpp:470 | Adding a mapping yields the old entries plus it, leaves a list already holding it as it is, and keeps a duplicate-free list duplicate-free. |
| InputBindings.RemoveAll | Plugins/FirstPersonCharacter/Source/FirstPersonCharacter/Private/FPCharacter.cpp:433 | Removing a mapping leaves exactly the other entries. |
| InputBindings.InputSettings.AddActionMapping | Plugins/FirstPersonCharacter/Source/FirstPersonCharacter/Private/FPCharacter.cpp:470 | The store adds the action mapping unless it is present, and leaves the axes alone. |
| InputBindings.InputSettings.RemoveActionMapping | Plugins/FirstPersonCharacter/Source/FirstPersonCharacter/Private/FPCharacter.cpp:433 | The store drops every equal action mapping, and leaves the axes alone. |
| InputBindings.InputSettings.AddAxisMapping | Plugins/FirstPersonCharacter/Source/FirstPersonCharacter/Private/FPCharacter.cpp:480 | The store adds the axis mapping unless it is present, and leaves the actions alone. |
| InputBindings.InputSettings.RemoveAxisMapping | Plugins/FirstPersonCharacter/Source/FirstPersonCharacter/Private/FPCharacter.cpp:436 | The store drops every equal axis mapping, and leaves the actions alone. |
| InputBindings.RemoveEachMembers | Plugins/FirstPersonCharacter/Source/FirstPersonCharacter/Private/FPCharacter.cpp:430-437 | After removing each mapping of a list, exactly the entries not in that list remain. |
| InputBindings.RemoveSnapshotEmpties | Plugins/FirstPersonCharacter/Source/FirstPersonCharacter/Private/FPCharacter.cpp:413-437 | Removing a snapshot of the whole store from it empties it. |
| InputBindings.AddEachMembers | Plugins/FirstPersonCharacter/Source/FirstPersonCharacter/Private/FPCharacter.cpp:483-499 | After adding each mapping of a list, the store holds the old entries and the added ones, each at most once. |
| InputBindings.DefaultActionMappings | Plugins/FirstPersonCharacter/Source/FirstPersonCharacter/Private/FPCharacter.cpp:451-456 | The default action table has six entries, and Crouch is bound twice, on LeftControl and on C. DefaultMappingsFromMaps gives every entry. |
| InputBindings.DefaultAxisMappings | Plugins/FirstPersonCharacter/Source/FirstPersonCharacter/Private/FPCharacter.cpp:457-462 | The default axis table has six entries, each with scale -1 or +1. DefaultMappingsFromMaps and DefaultAxisScales give every entry. |
| InputBindings.DefaultMappingsFromMaps | Plugins/FirstPersonCharacter/Source/FirstPersonCharacter/Private/FPCharacter.cpp:451-462 | The default mappings are the key maps' entries position by position, each bound as the SetActionMapping / SetAxisMapping lambdas bind it. |
| InputBindings.DefaultTableKeys | Plugins/FirstPersonCharacter/Source/FirstPersonCharacter/Private/FPCharacter.cpp:451-462 | The default table has six actions and six axes on twelve distinct keys. |
| InputBindings.DefaultAxisScales | Plugins/FirstPersonCharacter/Source/FirstPersonCharacter/Private/FPCharacter.cpp:494-499 | A default axis has scale -1 exactly when its key is S, A or MouseY, and +1 otherwise. The reversed keys are exactly those three. |
| InputBindings.CustomDefaultsUsePlaceholder | Plugins/FirstPersonCharacter/Source/FirstPersonCharacter/Private/FPCharacter.cpp:465-481 | With custom key mappings every default binding is the same binding with the keyboard-category placeholder as its key. |
| InputBindings.InstallsDefaults | Plugins/FirstPersonCharacter/Source/FirstPersonCharacter/Private/FPCharacter.cpp:413-428 | The defaults are installed unless the store already holds mappings and custom key mappings are enabled, and always when the flag is off. |
| InputBindings.InstalledDefaultAxes | Plugins/FirstPersonCharacter/Source/FirstPersonCharacter/Private/FPCharacter.cpp:491-499 | Installing the default axes into an empty store adds all six in table order, with or without the flag. |
| InputBindings.InstalledDefaultActions | Plugins/FirstPersonCharacter/Source/FirstPersonCharacter/Private/FPCharacter.cpp:483-489 | Without the flag all six default actions land in order. With it the two crouch bindings coincide and only five land. |
| Character.FPCharacter.constructor | Plugins/FirstPersonCharacter/Source/FirstPersonCharacter/Private/FPCharacter.cpp:22-45 | A new character stands, wants neither to crouch nor to run, has the camera at (0, 0, 70), MaxWalkSpeed and JumpZVelocity 300, and an empty accumulator. |
| Character.FPCharacter.BeginPlay | Plugins/FirstPersonCharacter/Source/FirstPersonCharacter/Private/FPCharacter.cpp:47-77 | BeginPlay sets the speeds from the settings, captures the standing capsule and camera, resets the accumulator, and snapshots the store. It establishes the invariant. |
| Character.FPCharacter.Tick | Plugins/FirstPersonCharacter/Source/FirstPersonCharacter/Private/FPCharacter.cpp:79-87 | A tick starts the shakes chosen from the MaxWalkSpeed before the update, then moves the crouch fields as UpdateCrouch followed by UpdateWalkingSpeed, keeping the invariant. |
| Character.FPCharacter.StartCrouch | Plugins/FirstPersonCharacter/Source/FirstPersonCharacter/Private/FPCharacter.cpp:142-168 | The fields change exactly as the StartCrouch step for the configured mode and the sweep's verdict, keeping the invariant. |
| Character.FPCharacter.StopCrouching | Plugins/FirstPersonCharacter/Source/FirstPersonCharacter/Private/FPCharacter.cpp:170-177 | The fields change exactly as the StopCrouching step, keeping the invariant. |
| Character.FPCharacter.Run | Plugins/FirstPersonCharacter/Source/FirstPersonCharacter/Private/FPCharacter.cpp:233-236 | Run sets the run intent and keeps the invariant. |
| Character.FPCharacter.StopRunning | Plugins/FirstPersonCharacter/Source/FirstPersonCharacter/Private/FPCharacter.cpp:238-241 | StopRunning clears the run intent and keeps the invariant. |
| Character.FPCharacter.UpdateWalkingSpeed | Plugins/FirstPersonCharacter/Source/FirstPersonCharacter/Private/FPCharacter.cpp:243-250 | The fields change exactly as the UpdateWalkingSpeed step, keeping the invariant. |
| Character.FPCharacter.UpdateCrouch | Plugins/FirstPersonCharacter/Source/FirstPersonCharacter/Private/FPCharacter.cpp:252-303 | The fields change exactly as the UpdateCrouch step with factor StandToCrouchTransitionSpeed times DeltaTime, keeping the invariant. |
| Character.FPCharacter.UpdateCrouchBy | Plugins/FirstPersonCharacter/Source/FirstPersonCharacter/Private/FPCharacter.cpp:254-302 | The in-place lerp-and-snap moves camera, capsule, MaxWalkSpeed and phase exactly as the UpdateCrouch step for the given factor, keeping the invariant. |
| Character.FPCharacter.Jump | Plugins/FirstPersonCharacter/Source/FirstPersonCharacter/Private/FPCharacter.cpp:110-119 | The character jumps, with the jump shake, exactly when standing. |
| Character.FPCharacter.Landed | Plugins/FirstPersonCharacter/Source/FirstPersonCharacter/Private/FPCharacter.cpp:121-133 | Only a standing character gets the landing shake, and then a footstep as FootstepOutcome allows when footsteps are enabled. Otherwise nothing plays and the footstep state is unchanged. |
| Character.FPCharacter.MoveForward | Plugins/FirstPersonCharacter/Source/FirstPersonCharacter/Private/FPCharacter.cpp:179-218 | With a controller and footsteps enabled, the accumulator moves as AccumulateTravel, and a footstep plays as PlayFootstepSound allows exactly when it fires. Otherwise nothing changes. |
| Character.FPCharacter.PlayFootstepSound | Plugins/FirstPersonCharacter/Source/FirstPersonCharacter/Private/FPCharacter.cpp:373-395 | The outcome is one FootstepOutcome allows. Without a floor or an answering mapping nothing happens. Otherwise the first match's stride is set, and the second pick plays at the phase's volume unless either pick is null. |
| Character.FPCharacter.GetFootstepSound | Plugins/FirstPersonCharacter/Source/FirstPersonCharacter/Private/FPCharacter.cpp:397-411 | The loop finds the first mapping for the surface, makes it current, sets the stride for the phase and run intent, and returns one of its sound entries, possibly null. Without a match it returns null and changes nothing. |
| Character.FPCharacter.SetupInputBindings | Plugins/FirstPersonCharacter/Source/FirstPersonCharacter/Private/FPCharacter.cpp:413-428 | The store is snapshotted. When the defaults are installed the store ends up holding exactly the default table; otherwise it is untouched. |
| Character.FPCharacter.ResetInputBindings | Plugins/FirstPersonCharacter/Source/FirstPersonCharacter/Private/FPCharacter.cpp:430-437 | The loops remove every snapshotted mapping from the store in order. |
| Character.FPCharacter.SetActionMapping | Plugins/FirstPersonCharacter/Source/FirstPersonCharacter/Private/FPCharacter.cpp:465-471 | The lambda adds the name bound to the key, or to the placeholder with custom key mappings. |
| Character.FPCharacter.SetAxisMapping | Plugins/FirstPersonCharacter/Source/FirstPersonCharacter/Private/FPCharacter.cpp:474-481 | The lambda adds the name bound to the key or the placeholder, with the given scale. |
| Character.FPCharacter.ResetToDefaultInputBindings | Plugins/FirstPersonCharacter/Source/FirstPersonCharacter/Private/FPCharacter.cpp:439-506 | The store becomes the snapshot removed, then the default actions and axes added in table order. |
| Character.FPCharacter.AddDefaultActionMappings | Plugins/FirstPersonCharacter/Source/FirstPersonCharacter/Private/FPCharacter.cpp:483-489 | The action loop adds each default action mapping in turn and leaves the axes alone. |
| Character.FPCharacter.AddDefaultAxisMappings | Plugins/FirstPersonCharacter/Source/FirstPersonCharacter/Private/FPCharacter.cpp:491-499 | The axis loop adds each default axis mapping in turn, with scale -1 for S, A and MouseY, and leaves the actions alone. |

## Left out

- Vector math (control rotation, movement direction, actor location differences, the up vector) is not modelled. `MoveForward` receives the travelled distance and the movement mode as inputs, and `AddMovementInput` is not modelled.
- `LastLocation` and `LastFootstepLocation` are not kept. They only feed the travelled distance, which is an input here.
- Physics queries become oracle inputs: the sphere sweep of `IsBlockedInCrouchStance` and `FindFloor` in `PlayFootstepSound`. Only the trace-distance choice and the hit verdict are modelled.
- Playback is not modelled: sound playback, `RandRange` (a nondeterministic index in range) and camera-shake playback. The methods return the shake calls and the footstep they would start.
- `Quit`, `Interact`, `MoveRight`, `AddControllerYawInput`, `AddControllerPitchInput`, `PossessedBy`, `SetupPlayerInputComponent` and the camera pitch limits set in `BeginPlay` are engine plumbing and are not modelled.
- `SaveKeyMappings` and `ForceRebuildKeymaps` are config persistence and are not modelled.
- `UInputSettings` is not part of this model. `AddActionMapping` / `AddAxisMapping` are taken to add an entry only when no equal entry is present. `RemoveActionMapping` / `RemoveAxisMapping` are taken to remove every equal entry. Mapping modifier flags (shift, ctrl, alt, cmd) are not modelled.
- `TMap` key and value arrays are taken in insertion order, as a map that only ever had entries added yields them.
- Floating point is `real`: no IEEE rounding, and `FMath::Lerp` without clamping its factor.
- The actor scale is taken to be 1, so the scaled half-height captured by `BeginPlay` equals the unscaled one read by `UpdateCrouch`.
- `FirstPersonFootstepData.h` is not part of this model. A footstep data asset is seen through its accessors only (material, sounds, three strides).
- Character.FPCharacter.constructor: the editor configuration (movement and footstep settings, `bUseCustomKeyMappings`, whose default is false) and the capsule's half-height are parameters rather than defaults. `CurrentWalkSpeed` starts at 0 until `BeginPlay`.
- Character.FPCharacter.BeginPlay: requires a freshly constructed character (standing, no crouch intent). Its contract leaves the resulting input store to the contract of SetupInputBindings, which states it.
- Character.FPCharacter.GetFootstepSound: requires the first mapping that answers for the surface to hold at least one sound entry. Without one the C++ code indexes an empty array, because `RandRange(0, -1)` gives 0. Mappings for other surfaces, and later ones, may hold none.
- Character.FPCharacter.PlayFootstepSound, Character.FPCharacter.Landed and Character.FPCharacter.MoveForward carry the same demand for the floor's surface (`FloorHasSound`), and only when they would play a footstep.
- `UGameplayStatics::PlaySoundAtLocation` is not part of this model. A null sound is taken to play nothing.
- Character.FPCharacter.Jump: does not model `Super::Jump` or the `PlayerController` null dereference in an unpossessed character.
- Character.FPCharacter.Landed: does not model `Super::Landed` or that same null dereference.
- Character.FPCharacter.UpdateCrouch: computes the interpolation factor once per frame, where the C++ code recomputes the same product for each lerp.
- `UCapsuleComponent` is not part of this model. `SetCapsuleHalfHeight` is taken as a plain store, whereas the engine keeps the half-height at or above the capsule radius. The crouched target, half the original half-height, is therefore assumed to be at or above the radius, as it is for the default capsule of half-height 96 and radius 42. Below it, a crouch could stop at the radius and never leave the transition. UpdateCrouchSnaps, TransitionResolves and ToggleRoundTrip rely on this assumption.
- Crouch.BlockTraceDistance: documents how far the sweep of `IsBlockedInCrouchStance` reaches. The sweep itself is an oracle input (`SweepHit`), so no other member uses the distance.
- Footsteps.FootstepsPaceTheWalk: holds the stride fixed across the walk. In the C++ code, every footstep can reselect the stride from the surface's mapping.
- Crouch.TransitionResolves: assumes every tick of the transition is unblocked, with a factor in [minAlpha, 1]. Factors above 1 overshoot and are left unconstrained. A blocked Hold stand-up never ends (BlockedStandUpWaits).
