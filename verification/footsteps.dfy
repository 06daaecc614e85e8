/**
 * Footstep accounting of AFPCharacter, stated on values: the travel
 * accumulator of MoveForward, the first-match lookup of GetFootstepSound,
 * the stride it selects and the volume PlayFootstepSound uses.
 */
module Footsteps {
  import opened Wrappers
  import opened FPSettings

  /** The movement component's mode as the footstep logic sees it. */
  datatype MovementMode = MovingOnGround | Falling | OtherMode

  /** The accumulator after one forward-movement input, and whether a footstep is due. */
  datatype Accumulation = Accumulation(travelDistance: real, footstep: bool)

  /**
   * The footstep branch of MoveForward. `moving` says the velocity is
   * non-zero; `delta` is the distance from the last sampled location.
   */
  function AccumulateTravel(travel: real, stride: real, moving: bool, mode: MovementMode, delta: real): (r: Accumulation)
    requires travel >= 0.0 && delta >= 0.0
    ensures r.travelDistance >= 0.0
    ensures mode == Falling ==> r == Accumulation(0.0, false)
    ensures mode == OtherMode ==> r == Accumulation(travel, false)
    ensures r.footstep <==> mode == MovingOnGround && (if moving then travel + delta else travel) > stride
    ensures r.footstep ==> r.travelDistance == 0.0
    ensures mode == MovingOnGround && !r.footstep ==> r.travelDistance <= stride
  {
    var accumulated :=
      if moving && mode == MovingOnGround then travel + delta
      else if mode == Falling then 0.0
      else travel;
    if mode == MovingOnGround && accumulated > stride then Accumulation(0.0, true)
    else Accumulation(accumulated, false)
  }

  /** A stride of 160 and one grounded move of 170 give exactly one footstep and an empty accumulator. */
  lemma OneStrideOneFootstep()
    ensures AccumulateTravel(0.0, 160.0, true, MovingOnGround, 170.0) == Accumulation(0.0, true)
  {
  }

  predicate NonNegative(deltas: seq<real>) {
    forall i :: 0 <= i < |deltas| ==> deltas[i] >= 0.0
  }

  function Sum(deltas: seq<real>): real
    decreases |deltas|
  {
    if deltas == [] then 0.0 else Sum(deltas[..|deltas| - 1]) + deltas[|deltas| - 1]
  }

  datatype Walk = Walk(travelDistance: real, footsteps: nat)

  /** A walk on the ground at a fixed stride: one accumulator step per movement input. */
  function GroundWalk(travel: real, stride: real, deltas: seq<real>): Walk
    requires travel >= 0.0 && NonNegative(deltas)
    decreases |deltas|
  {
    if deltas == [] then Walk(travel, 0)
    else
      var init := deltas[..|deltas| - 1];
      var w := GroundWalk(travel, stride, init);
      var a := AccumulateTravel(w.travelDistance, stride, true, MovingOnGround, deltas[|deltas| - 1]);
      Walk(a.travelDistance, w.footsteps + if a.footstep then 1 else 0)
  }

  lemma NonNegativePrefix(deltas: seq<real>, n: nat)
    requires NonNegative(deltas) && n <= |deltas|
    ensures NonNegative(deltas[..n])
  {
  }

  /**
   * `footsteps` footsteps and a remaining accumulator `rest` account for a
   * travelled `total`: each footstep consumed more than one stride, and at
   * most a stride plus maxDelta.
   */
  predicate Paced(footsteps: nat, stride: real, maxDelta: real, rest: real, total: real) {
    var k := footsteps as real;
    && k * stride + rest <= total
    && (footsteps > 0 ==> k * stride + rest < total)
    && total <= k * (stride + maxDelta) + rest
  }

  /** One grounded move keeps the pacing. */
  lemma PacedStep(footsteps: nat, stride: real, maxDelta: real, rest: real, total: real, d: real,
                  next: Accumulation, nextFootsteps: nat)
    requires 0.0 <= rest <= stride && 0.0 <= d <= maxDelta
    requires Paced(footsteps, stride, maxDelta, rest, total)
    requires next == AccumulateTravel(rest, stride, true, MovingOnGround, d)
    requires nextFootsteps == footsteps + if next.footstep then 1 else 0
    ensures 0.0 <= next.travelDistance <= stride
    ensures Paced(nextFootsteps, stride, maxDelta, next.travelDistance, total + d)
  {
    var k := footsteps as real;
    if next.footstep {
      assert (nextFootsteps as real) * stride == k * stride + stride;
      assert (nextFootsteps as real) * (stride + maxDelta) == k * (stride + maxDelta) + (stride + maxDelta);
    }
  }

  /**
   * Footsteps pace a ground walk: each footstep consumes more than one
   * stride and, when no single move exceeds maxDelta, at most a stride plus
   * maxDelta; the accumulator never holds more than a stride.
   */
  lemma {:induction false} FootstepsPaceTheWalk(travel: real, stride: real, maxDelta: real, deltas: seq<real>)
    requires 0.0 <= travel <= stride
    requires NonNegative(deltas)
    requires forall i :: 0 <= i < |deltas| ==> deltas[i] <= maxDelta
    ensures var w := GroundWalk(travel, stride, deltas);
            && 0.0 <= w.travelDistance <= stride
            && Paced(w.footsteps, stride, maxDelta, w.travelDistance, travel + Sum(deltas))
    decreases |deltas|
  {
    if deltas == [] {
      assert Paced(0, stride, maxDelta, travel, travel + 0.0);
    } else {
      var n := |deltas| - 1;
      var init := deltas[..n];
      NonNegativePrefix(deltas, n);
      FootstepsPaceTheWalk(travel, stride, maxDelta, init);
      var w := GroundWalk(travel, stride, init);
      var a := AccumulateTravel(w.travelDistance, stride, true, MovingOnGround, deltas[n]);
      var r := GroundWalk(travel, stride, deltas);
      assert travel + Sum(deltas) == (travel + Sum(init)) + deltas[n];
      PacedStep(w.footsteps, stride, maxDelta, w.travelDistance, travel + Sum(init), deltas[n], a, r.footsteps);
    }
  }

  // ---------------------------------------------------------------------
  // Surface lookup

  /** A mapping answers for a surface when it is not null and registered for that exact material (null included). */
  predicate MatchesSurface(mapping: Option<FootstepData>, surface: Option<MaterialId>) {
    mapping.Some? && mapping.value.physicalMaterial == surface
  }

  /** The index of the first mapping at or after `from` that answers for the surface. */
  function FirstMatchFrom(mappings: seq<Option<FootstepData>>, surface: Option<MaterialId>, from: nat): (r: Option<nat>)
    requires from <= |mappings|
    ensures r.Some? ==>
              && from <= r.value < |mappings|
              && MatchesSurface(mappings[r.value], surface)
              && forall j :: from <= j < r.value ==> !MatchesSurface(mappings[j], surface)
    ensures r.None? ==> forall j :: from <= j < |mappings| ==> !MatchesSurface(mappings[j], surface)
    decreases |mappings| - from
  {
    if from == |mappings| then None
    else if MatchesSurface(mappings[from], surface) then Some(from)
    else FirstMatchFrom(mappings, surface, from + 1)
  }

  function FirstMatch(mappings: seq<Option<FootstepData>>, surface: Option<MaterialId>): Option<nat> {
    FirstMatchFrom(mappings, surface, 0)
  }

  /** Placing more mappings after the first match, or non-matching ones before it, does not change which mapping answers. */
  lemma {:induction false} FirstMatchIgnoresLaterAndNonMatching(before: seq<Option<FootstepData>>, mappings: seq<Option<FootstepData>>, after: seq<Option<FootstepData>>, surface: Option<MaterialId>)
    requires forall j :: 0 <= j < |before| ==> !MatchesSurface(before[j], surface)
    requires FirstMatch(mappings, surface).Some?
    ensures FirstMatch(before + mappings + after, surface) == Some(|before| + FirstMatch(mappings, surface).value)
  {
    var all := before + mappings + after;
    var i := FirstMatch(mappings, surface).value;
    assert MatchesSurface(all[|before| + i], surface);
    forall j | 0 <= j < |before| + i
      ensures !MatchesSurface(all[j], surface)
    {
      if j < |before| {
        assert all[j] == before[j];
      } else {
        assert all[j] == mappings[j - |before|];
      }
    }
  }

  /** The stride a matched mapping sets: crouch stride unless standing, else run or walk stride. */
  function StrideFor(mapping: FootstepData, phase: CrouchPhase, wantsToRun: bool): (stride: real)
    ensures stride == mapping.strideWalk || stride == mapping.strideRun || stride == mapping.strideCrouch
    ensures phase != Standing ==> stride == mapping.strideCrouch
    ensures phase == Standing ==> stride == (if wantsToRun then mapping.strideRun else mapping.strideWalk)
  {
    if phase != Standing then mapping.strideCrouch
    else if wantsToRun then mapping.strideRun
    else mapping.strideWalk
  }

  /** Footsteps play at reduced volume unless standing. */
  function FootstepVolume(phase: CrouchPhase): (volume: real)
    ensures 0.0 < volume <= 1.0
    ensures volume == 1.0 <==> phase == Standing
  {
    if phase != Standing then 0.35 else 1.0
  }

  /** What the floor probe of PlayFootstepSound finds: no blocking hit, or a floor with its (possibly null) material. */
  datatype FloorProbe = NoFloor | Floor(surface: Option<MaterialId>)

  /** A played footstep: the sound and the volume multiplier. */
  datatype FootstepPlay = FootstepPlay(sound: SoundId, volume: real)

  /**
   * The first mapping that answers for the surface, if any, has at least one
   * sound entry, so that the random pick of GetFootstepSound has an index in
   * range. Mappings after it, or for other surfaces, may have none.
   */
  predicate HasSoundFor(mappings: seq<Option<FootstepData>>, surface: Option<MaterialId>) {
    var r := FirstMatch(mappings, surface);
    r.Some? ==> |mappings[r.value].value.footstepSounds| > 0
  }

  /** A mapping with no sounds for another surface does not stand in the way of the lookup. */
  lemma OtherSurfacesMayHaveNoSounds()
    ensures var silent := FootstepData(Some(1), [], 100.0, 200.0, 50.0);
            var gravel := FootstepData(Some(2), [Some(5)], 100.0, 200.0, 50.0);
            && FirstMatch([Some(silent), Some(gravel)], Some(2)) == Some(1)
            && HasSoundFor([Some(silent), Some(gravel)], Some(2))
            && !HasSoundFor([Some(silent), Some(gravel)], Some(1))
  {
  }

  /** HasSoundFor the floor's surface, when there is a floor. */
  predicate FloorHasSound(mappings: seq<Option<FootstepData>>, floor: FloorProbe) {
    floor.Floor? ==> HasSoundFor(mappings, floor.surface)
  }

  /** Some mapping answers for the floor's surface. */
  predicate Answered(mappings: seq<Option<FootstepData>>, floor: FloorProbe) {
    floor.Floor? && exists i :: 0 <= i < |mappings| && MatchesSurface(mappings[i], floor.surface)
  }

  /** No mapping holds a null sound entry. */
  predicate NoNullSounds(mappings: seq<Option<FootstepData>>) {
    forall i :: 0 <= i < |mappings| && mappings[i].Some? ==> None !in mappings[i].value.footstepSounds
  }

  /**
   * What one PlayFootstepSound may do. Without a floor nothing happens.
   * On a floor whose surface no mapping answers for, nothing is played and
   * nothing changes. Otherwise the first answering mapping becomes the
   * current one and the stride becomes its stride for the phase and run
   * intent. The sound is picked twice from that mapping's entries: when
   * either pick is null nothing plays, otherwise the second pick plays at
   * the phase's volume.
   */
  predicate FootstepOutcome(settings: FootstepSettings, mapping: Option<FootstepData>, floor: FloorProbe,
                            phase: CrouchPhase, wantsToRun: bool,
                            settings': FootstepSettings, mapping': Option<FootstepData>, played: Option<FootstepPlay>)
    ensures FootstepOutcome(settings, mapping, floor, phase, wantsToRun, settings', mapping', played) ==>
              settings'.mappings == settings.mappings && settings'.enableFootsteps == settings.enableFootsteps
  {
    if floor.NoFloor? || FirstMatch(settings.mappings, floor.surface).None? then
      settings' == settings && mapping' == mapping && played == None
    else
      var d := settings.mappings[FirstMatch(settings.mappings, floor.surface).value].value;
      && settings' == settings.(currentStride := StrideFor(d, phase, wantsToRun))
      && mapping' == Some(d)
      && (played.Some? ==> Some(played.value.sound) in d.footstepSounds && played.value.volume == FootstepVolume(phase))
      && (played.None? ==> None in d.footstepSounds)
  }

  /**
   * A played footstep comes from a mapping registered for the floor's
   * surface. Whenever some mapping answers, the first one becomes current
   * and the stride becomes its crouch stride unless standing, then its run
   * or walk stride, even if nothing plays; otherwise nothing changes. When
   * no mapping holds a null sound, a footstep plays exactly when some
   * mapping answers. The mappings and the enable flag never change.
   */
  lemma FootstepOutcomeFacts(settings: FootstepSettings, mapping: Option<FootstepData>, floor: FloorProbe,
                             phase: CrouchPhase, wantsToRun: bool,
                             settings': FootstepSettings, mapping': Option<FootstepData>, played: Option<FootstepPlay>)
    requires FootstepOutcome(settings, mapping, floor, phase, wantsToRun, settings', mapping', played)
    ensures settings'.mappings == settings.mappings && settings'.enableFootsteps == settings.enableFootsteps
    ensures played.Some? ==> Answered(settings.mappings, floor)
    ensures NoNullSounds(settings.mappings) ==> (played.Some? <==> Answered(settings.mappings, floor))
    ensures !Answered(settings.mappings, floor) ==> settings' == settings && mapping' == mapping && played == None
    ensures Answered(settings.mappings, floor) ==>
              && mapping'.Some?
              && mapping' in settings.mappings
              && mapping'.value.physicalMaterial == floor.surface
              && settings'.currentStride == (if phase != Standing then mapping'.value.strideCrouch
                                             else if wantsToRun then mapping'.value.strideRun
                                             else mapping'.value.strideWalk)
    ensures played.Some? ==>
              && mapping'.Some?
              && Some(played.value.sound) in mapping'.value.footstepSounds
              && (played.value.volume < 1.0 <==> phase != Standing)
  {
    if floor.Floor? {
      var r := FirstMatch(settings.mappings, floor.surface);
      if r.Some? {
        assert MatchesSurface(settings.mappings[r.value], floor.surface);
        assert settings.mappings[r.value] in settings.mappings;
        assert Answered(settings.mappings, floor);
      }
    }
  }
}
