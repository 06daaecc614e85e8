TestResult.DisplayName,TestResult.Outcome,TestResult.Duration,TestResult.ResourceCount,RandomSeed
Character.FPCharacter.BeginPlay (correctness),Passed,00:00:00.4452697,741600,0
Character.FPCharacter.AddDefaultActionMappings (correctness),Passed,00:00:00.3472350,651263,0
Character.FPCharacter.AddDefaultAxisMappings (correctness),Passed,00:00:00.2638549,651988,0
Character.FPCharacter.UpdateCrouchBy (correctness),Passed,00:00:00.2328370,393027,0
InputBindings.DefaultMappingsFromMaps (correctness),Passed,00:00:00.2277282,491188,0
Character.FPCharacter.MoveForward (correctness),Passed,00:00:00.2244971,358445,0
Crouch.TransitionContracts (correctness),Passed,00:00:00.2054658,506713,0
InputBindings.DefaultAxisMappings (well-formedness),Passed,00:00:00.2051315,261619,0
InputBindings.DefaultAxisScales (correctness),Passed,00:00:00.1977022,510717,0
CameraShakes.TickShakes (well-formedness),Passed,00:00:00.1854647,34148,0
CameraShakes.OneBaseShakePerTick (correctness),Passed,00:00:00.1777899,39008,0
Crouch.TransitionResolves (correctness),Passed,00:00:00.1743093,328438,0
Character.FPCharacter.Tick (well-formedness),Passed,00:00:00.1683350,90388,0
Crouch.TickCrouch (well-formedness),Passed,00:00:00.1482031,52347,0
Character.FPCharacter.CrouchView (well-formedness),Passed,00:00:00.1362741,22375,0
InputBindings.InstalledDefaultAxes (correctness),Passed,00:00:00.1346099,304672,0
Character.FPCharacter.ResetInputBindings (correctness),Passed,00:00:00.1325348,149596,0
Character.FPCharacter.Base (well-formedness),Passed,00:00:00.1282863,10623,0
InputBindings.InstalledDefaultActions (correctness),Passed,00:00:00.1262897,274243,0
Character.FPCharacter.MoveForward (well-formedness),Passed,00:00:00.1229893,104147,0
Crouch.HoldMirrorsCrouchKey (correctness),Passed,00:00:00.1214332,201261,0
Crouch.ReplayOne (correctness),Passed,00:00:00.1141185,77144,0
Character.FPCharacter.Landed (correctness),Passed,00:00:00.1112954,171910,0
InputBindings.DefaultTableKeys (correctness),Passed,00:00:00.1105825,293578,0
Crouch.ToggleFlipsPerPress (correctness),Passed,00:00:00.1084150,253739,0
InputBindings.CustomDefaultsUsePlaceholder (correctness),Passed,00:00:00.1074918,238823,0
Footsteps.FootstepOutcome (well-formedness),Passed,00:00:00.1049976,66797,0
Character.FPCharacter.GetFootstepSound (correctness),Passed,00:00:00.1028981,276510,0
Footsteps.FootstepOutcomeFacts (well-formedness),Passed,00:00:00.1020559,64525,0
Crouch.ToggleRoundTrip (correctness),Passed,00:00:00.1015143,149491,0
Crouch.SteadyTickContracts (correctness),Passed,00:00:00.0964096,386412,0
Character.FPCharacter.SetupInputBindings (correctness),Passed,00:00:00.0917089,191130,0
Crouch.PowBernoulli (correctness),Passed,00:00:00.0875078,339199,0
InputBindings.DefaultTableKeys (well-formedness),Passed,00:00:00.0865385,172042,0
Crouch.StepKeepsSettled (correctness),Passed,00:00:00.0844729,112634,0
Character.FPCharacter.PlayFootstepSound (correctness),Passed,00:00:00.0842105,109807,0
Crouch.HoldMirrorsCrouchKey (well-formedness),Passed,00:00:00.0782173,78750,0
Crouch.ReplayAppend (correctness),Passed,00:00:00.0770241,91185,0
Crouch.ReplayKeepsSettled (correctness),Passed,00:00:00.0733825,92866,0
Character.FPCharacter.Tick (correctness),Passed,00:00:00.0728384,143979,0
Character.FPCharacter.Run (correctness),Passed,00:00:00.0723990,59855,0
Character.FPCharacter.Landed (well-formedness),Passed,00:00:00.0707652,99515,0
Footsteps.NonNegative (well-formedness),Passed,00:00:00.0705539,8321,0
Footsteps.FootstepOutcomeFacts (correctness),Passed,00:00:00.0685345,134334,0
Crouch.ToggleRoundTrip (well-formedness),Passed,00:00:00.0653512,88875,0
Crouch.RunAfterOneTick (correctness),Passed,00:00:00.0650118,63542,0
InputBindings.AddEachFresh (correctness),Passed,00:00:00.0635113,76388,0
Crouch.BlockedStandUpWaits (correctness),Passed,00:00:00.0609807,99310,0
Character.FPCharacter.ResetToDefaultInputBindings (correctness),Passed,00:00:00.0606686,107838,0
Character.FPCharacter.StopCrouching (correctness),Passed,00:00:00.0583089,95290,0
Character.FPCharacter.UpdateCrouch (correctness),Passed,00:00:00.0577296,71245,0
Footsteps.FootstepsPaceTheWalk (correctness),Passed,00:00:00.0564464,210012,0
Character.FPCharacter.UpdateCrouch (well-formedness),Passed,00:00:00.0558345,64613,0
Character.FPCharacter.StartCrouch (correctness),Passed,00:00:00.0549103,126565,0
Character.FPCharacter.ResetToDefaultInputBindings (well-formedness),Passed,00:00:00.0545605,73909,0
Crouch.TransitionContracts (well-formedness),Passed,00:00:00.0539291,86580,0
Character.FPCharacter.StopRunning (well-formedness),Passed,00:00:00.0533431,39400,0
Crouch.UpdateCrouchKeepsSettled (correctness),Passed,00:00:00.0530823,60230,0
InputBindings.DefaultMappingsFromMaps (well-formedness),Passed,00:00:00.0520696,74153,0
Crouch.Replay (well-formedness),Passed,00:00:00.0506214,72743,0
Character.FPCharacter.SetupInputBindings (well-formedness),Passed,00:00:00.0504150,78275,0
InputBindings.CustomDefaultsUsePlaceholder (well-formedness),Passed,00:00:00.0493073,91181,0
Crouch.BlockedStandUpWaits (well-formedness),Passed,00:00:00.0475455,74594,0
Crouch.UpdateCrouch (well-formedness),Passed,00:00:00.0472064,54328,0
Character.FPCharacter.UpdateCrouchBy (well-formedness),Passed,00:00:00.0467879,63899,0
Character.FPCharacter.StopCrouching (well-formedness),Passed,00:00:00.0467209,49384,0
Character.FPCharacter.GetFootstepSound (well-formedness),Passed,00:00:00.0454248,54237,0
Crouch.SettledTick (correctness),Passed,00:00:00.0450125,78105,0
CameraShakes.LandingShakesHarder (correctness),Passed,00:00:00.0449740,9919,0
Crouch.ToggleFlipsPerPress (well-formedness),Passed,00:00:00.0449211,77669,0
Crouch.OnTrackStep (correctness),Passed,00:00:00.0445480,86089,0
Character.FPCharacter.UpdateWalkingSpeed (correctness),Passed,00:00:00.0442858,78833,0
Character.FPCharacter.BeginPlay (well-formedness),Passed,00:00:00.0401976,57032,0
Crouch.UpdateCrouchSnaps (correctness),Passed,00:00:00.0374001,69426,0
Crouch.Approach (well-formedness),Passed,00:00:00.0369832,44976,0
Character.FPCharacter.PlayFootstepSound (well-formedness),Passed,00:00:00.0362772,52435,0
Crouch.StartCrouch (well-formedness),Passed,00:00:00.0361304,31815,0
Character.FPCharacter.AddDefaultActionMappings (well-formedness),Passed,00:00:00.0358739,47641,0
Crouch.ToggleTwiceRestoresIntent (correctness),Passed,00:00:00.0358054,30344,0
Crouch.UpdateCrouchFrame (correctness),Passed,00:00:00.0353274,46596,0
Character.FPCharacter.AddDefaultAxisMappings (well-formedness),Passed,00:00:00.0344672,55392,0
Crouch.UpdateCrouchApproaches (correctness),Passed,00:00:00.0343374,45277,0
Crouch.StandingOnlyWhenUnblocked (correctness),Passed,00:00:00.0337636,45972,0
Character.FPCharacter.Run (well-formedness),Passed,00:00:00.0330268,39400,0
Character.FPCharacter._ctor (correctness),Passed,00:00:00.0328523,67292,0
Character.FPCharacter.StopRunning (correctness),Passed,00:00:00.0323109,68311,0
InputBindings.DefaultActionMappings (well-formedness),Passed,00:00:00.0319705,46096,0
Character.FPCharacter.UpdateWalkingSpeed (well-formedness),Passed,00:00:00.0317975,44039,0
Crouch.Settled (well-formedness),Passed,00:00:00.0315221,21647,0
Crouch.ApproachSnaps (correctness),Passed,00:00:00.0313693,42961,0
InputBindings.DefaultAxisScales (well-formedness),Passed,00:00:00.0299896,36615,0
Character.FPCharacter.SetActionMapping (correctness),Passed,00:00:00.0290422,48781,0
InputBindings.InputSettings.RemoveAxisMapping (correctness),Passed,00:00:00.0285768,31486,0
InputBindings.AddUnique (well-formedness),Passed,00:00:00.0282968,24262,0
Character.FPCharacter.Valid (well-formedness),Passed,00:00:00.0281051,45085,0
InputBindings.AddEachMembers (correctness),Passed,00:00:00.0279723,37798,0
Character.FPCharacter.StartCrouch (well-formedness),Passed,00:00:00.0273314,53839,0
Character.FPCharacter.Jump (correctness),Passed,00:00:00.0257996,20435,0
InputBindings.RemoveEachMembers (correctness),Passed,00:00:00.0254468,37818,0
Footsteps.FirstMatchFrom (well-formedness),Passed,00:00:00.0253687,63381,0
InputBindings.InputSettings.AddActionMapping (correctness),Passed,00:00:00.0240483,28980,0
Crouch.HoldKeySetsIntent (correctness),Passed,00:00:00.0240205,33293,0
Footsteps.FirstMatchIgnoresLaterAndNonMatching (correctness),Passed,00:00:00.0234055,51879,0
InputBindings.InputSettings.RemoveActionMapping (well-formedness),Passed,00:00:00.0233600,24495,0
InputBindings.RemoveAll (well-formedness),Passed,00:00:00.0232943,37096,0
InputBindings.InputSettings.RemoveActionMapping (correctness),Passed,00:00:00.0229784,30696,0
InputBindings.InputSettings.AddActionMapping (well-formedness),Passed,00:00:00.0228444,21792,0
InputBindings.InstalledDefaultActions (well-formedness),Passed,00:00:00.0228019,41293,0
Character.FPCharacter.SetActionMapping (well-formedness),Passed,00:00:00.0227457,40205,0
Character.FPCharacter.SetAxisMapping (correctness),Passed,00:00:00.0218499,43868,0
Crouch.ApproachStep (correctness),Passed,00:00:00.0215642,29725,0
InputBindings.NoDuplicates (well-formedness),Passed,00:00:00.0213386,8624,0
Crouch.TogglePress (correctness),Passed,00:00:00.0212900,26386,0
Character.FPCharacter.ResetInputBindings (well-formedness),Passed,00:00:00.0210855,28832,0
InputBindings.InputSettings.AddAxisMapping (correctness),Passed,00:00:00.0205111,29775,0
Crouch.IsBlockedBySweep (well-formedness),Passed,00:00:00.0201311,9707,0
FPSettings.DefaultMovement (well-formedness),Passed,00:00:00.0200163,24298,0
Character.FPCharacter.SetAxisMapping (well-formedness),Passed,00:00:00.0194498,39511,0
InputBindings.AddEach (well-formedness),Passed,00:00:00.0194208,20134,0
Crouch.StopCrouching (well-formedness),Passed,00:00:00.0191437,21786,0
Footsteps.AccumulateTravel (well-formedness),Passed,00:00:00.0189476,28961,0
Crouch.TargetHalfHeight (well-formedness),Passed,00:00:00.0188046,6097,0
InputBindings.RemoveSnapshotEmpties (correctness),Passed,00:00:00.0186166,20725,0
Crouch.LerpContracts (correctness),Passed,00:00:00.0181823,60428,0
Footsteps.GroundWalk (well-formedness),Passed,00:00:00.0181130,38254,0
Crouch.BlockTraceDistance (well-formedness),Passed,00:00:00.0180000,19390,0
Footsteps.PacedStep (correctness),Passed,00:00:00.0177412,71201,0
InputBindings.InputSettings.RemoveAxisMapping (well-formedness),Passed,00:00:00.0177095,25285,0
Footsteps.HasSoundFor (well-formedness),Passed,00:00:00.0171586,25389,0
InputBindings.InputSettings.AddAxisMapping (well-formedness),Passed,00:00:00.0171064,22582,0
Footsteps.FootstepsPaceTheWalk (well-formedness),Passed,00:00:00.0170035,34172,0
Crouch.UpdateWalkingSpeed (well-formedness),Passed,00:00:00.0168709,23142,0
InputBindings.InputSettings._ctor (correctness),Passed,00:00:00.0165744,14935,0
Crouch.PressCount (well-formedness),Passed,00:00:00.0157888,17710,0
InputBindings.RemoveEach (well-formedness),Passed,00:00:00.0157755,18970,0
Crouch.WalkingSpeedFollowsRunIntent (correctness),Passed,00:00:00.0155282,25805,0
Crouch.LastCrouchKey (well-formedness),Passed,00:00:00.0150579,21407,0
Footsteps.Answered (well-formedness),Passed,00:00:00.0137822,22191,0
Footsteps.FirstMatchIgnoresLaterAndNonMatching (well-formedness),Passed,00:00:00.0137142,24212,0
Crouch.SteadyTicks (well-formedness),Passed,00:00:00.0133083,20986,0
InputBindings.InstallsDefaults (well-formedness),Passed,00:00:00.0127746,6940,0
Footsteps.FloorHasSound (well-formedness),Passed,00:00:00.0127130,25987,0
Footsteps.NoNullSounds (well-formedness),Passed,00:00:00.0113631,16262,0
Footsteps.MatchesSurface (well-formedness),Passed,00:00:00.0113135,13588,0
Footsteps.FirstMatch (well-formedness),Passed,00:00:00.0112503,21388,0
Footsteps.PacedStep (well-formedness),Passed,00:00:00.0110231,15878,0
Crouch.ShrunkIsPow (correctness),Passed,00:00:00.0108877,31505,0
InputBindings.NoMembersMeansEmpty (correctness),Passed,00:00:00.0108855,9065,0
Crouch.SteadyTick (well-formedness),Passed,00:00:00.0107312,15775,0
Footsteps.OneStrideOneFootstep (correctness),Passed,00:00:00.0107129,12023,0
Crouch.NoBlockedPress (well-formedness),Passed,00:00:00.0106498,12402,0
Footsteps.OneStrideOneFootstep (well-formedness),Passed,00:00:00.0104585,12569,0
Footsteps.Sum (well-formedness),Passed,00:00:00.0097166,10271,0
Footsteps.NonNegativePrefix (correctness),Passed,00:00:00.0094377,11499,0
Footsteps.StrideFor (well-formedness),Passed,00:00:00.0093925,17456,0
Footsteps.NonNegativePrefix (well-formedness),Passed,00:00:00.0085639,9574,0
Crouch.Shrunk (well-formedness),Passed,00:00:00.0081609,5970,0
Crouch.Pow (well-formedness),Passed,00:00:00.0079319,6430,0
FPSettings.FootstepDefaults (correctness),Passed,00:00:00.0074175,11679,0
Crouch.MulNonNegative (correctness),Passed,00:00:00.0063723,3772,0
Footsteps.FootstepVolume (well-formedness),Passed,00:00:00.0063325,8586,0
