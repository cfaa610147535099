# Ball game scripts, modelled in Dafny

A model of the gameplay scripts of a small Unity ball game, with proofs
about what they do:

- **PlayerBallHandler**: pressing E picks up the nearest ball within
  reach, or drops the ball in hand. Holding the fire button charges a
  throw; releasing it throws. A charge bar shows the progress.
- **Ball**: remembers its spawn pose and can be reset to it.
- **Goal**: a trigger that adds its value to the score for every ball
  overlap and optionally resets the ball.
- **ScoreManager**: the singleton that keeps a C# `int` score and shows
  it as `Score: <n>`.
- **OrbitCamera**: right-button rotation input with a skipped first frame,
  clamped target pitch, and clamped, eased zoom.
- **MouseLook**: right-button look that turns the body and tilts the
  camera, with the pitch clamped.

Files and modules:

- `engine.dfy` (`Engine`): engine value types (vectors, quaternions, an
  option type).
- `mathf.dfy` (`Mathf`): the engine's `Mathf` helpers the scripts call,
  written out the way the engine defines them. `Clamp` tests the lower
  bound first. `Lerp` clamps its parameter. `MoveTowards` lands exactly on
  its target.
- `ball.dfy` (`Balls`), `scoremanager.dfy` (`Scoring`), `goal.dfy`
  (`Goals`), `playerballhandler.dfy` (`BallHandling`), `orbitcamera.dfy`
  (`Orbit`), `mouselook.dfy` (`Looking`): one module per script.

Each component is a class with the script's fields. Each event method
(`Awake`, `Update`, `OnTriggerEnter`, …) is a method whose contract gives
the new state. Engine inputs are the method's parameters:

- key and button edges (`fireDown`, `rmbUp`, …);
- axis values and frame time (`mouseX`, `scroll`, `dt`);
- the result of `FindObjectsOfType<Ball>()` (the `balls` sequence) and
  the distance from the player's chest to each ball (`distance`);
- the balls found by `GetComponentInParent`/`GetComponent`;
- which inspector references are bound (`hasTarget`, `hasScoreText`,
  `hasRigidbody`, …).

Specification functions carry the game's claims, and lemmas prove them:

- **Nearest-ball scan.** The scan picks the nearest eligible ball, the
  earliest one on ties. It finds none exactly when every eligible ball is
  at `float.MaxValue` or farther.
- **Throw charge.** The force after any sequence of held frames is the
  clamped linear ramp over the total time held, even though the script
  clamps after every frame. The charge bar shows the fraction of
  `maxChargeTime` spent charging.
- **Score.** It is the 32-bit wrapped sum of all amounts added; it is
  exact when nothing overflows. Its text form reads back to the same
  number.

## Model

| member | source | states |
|---|---|---|
| Mathf.Abs | Assets/Scripts/Orbitcamera.cs:106 | the result is non-negative and is the argument or its negation |
| Mathf.Max | Assets/Scripts/Playerballhandler.cs:148 | the result is at least both arguments and is one of them |
| Mathf.Clamp | Assets/Scripts/Orbitcamera.cs:100 | with ordered bounds the result lies in them; a value inside is kept; a value past a bound becomes that bound |
| Mathf.Clamp01 | Assets/Scripts/Playerballhandler.cs:232 | the result lies in [0, 1]; values inside are kept; values outside go to the nearer end |
| Mathf.MoveTowards | Assets/Scripts/Playerballhandler.cs:237 | lands on the target when it is within maxDelta; otherwise moves exactly maxDelta towards it and never overshoots |
| Mathf.Lerp | Assets/Scripts/Orbitcamera.cs:112-116 | the result lies between the endpoints; a parameter at or below 0 gives the start, at or above 1 the end |
| Balls.Reset | Assets/Scripts/ball.cs:16-23 | the ball is detached and the spawn pose kept; with a rigidbody it is back at spawn, simulated, and still; without one only the parent changes (the script stops with a null dereference) |
| Balls.ResetIdempotent | Assets/Scripts/ball.cs:16-23 | resetting a ball twice is the same as resetting it once |
| Balls.Ball.constructor | Assets/Scripts/ball.cs:5-7 | a scene ball before Awake: the given pose and flags, zero velocities, default spawn pose |
| Balls.Ball.Awake | Assets/Scripts/ball.cs:9-14 | the spawn pose becomes the current pose; nothing else changes |
| Balls.Ball.ResetBall | Assets/Scripts/ball.cs:16-23 | the new state is `Reset` of the old one: detached; with a rigidbody, at spawn, non-kinematic, velocities zero |
| Scoring.Wrap32 | Assets/Scripts/scoremanager.cs:18 | the result is a 32-bit int congruent to the argument modulo 2^32, and equal to it when it fits |
| Scoring.AccumulateIsWrappedSum | Assets/Scripts/scoremanager.cs:16-18 | the score after a sequence of AddScore calls is the wrapped sum of the start and all amounts |
| Scoring.ScoreIsSum | Assets/Scripts/scoremanager.cs:16-18 | when the total fits in 32 bits the score is exactly the start plus all amounts |
| Scoring.AccumulateMonotone | Assets/Scripts/scoremanager.cs:16-18 | with non-negative amounts and no overflow, every intermediate score lies between the start and the final score |
| Scoring.NatToString | Assets/Scripts/scoremanager.cs:19-20 | the decimal digits of a natural number: at least one, all digits, no leading zero |
| Scoring.IntToString | Assets/Scripts/scoremanager.cs:19-20 | the text of an int starts with '-' exactly when it is negative, followed by its digits |
| Scoring.NatToStringRoundTrip | Assets/Scripts/scoremanager.cs:19-20 | reading the digits back gives the number |
| Scoring.IntToStringRoundTrip | Assets/Scripts/scoremanager.cs:19-20 | reading a displayed score back gives the score, so different scores display differently |
| Scoring.ScoreManagerStatics.constructor | Assets/Scripts/scoremanager.cs:6 | no instance is registered at first |
| Scoring.ScoreManager.constructor | Assets/Scripts/scoremanager.cs:7-8 | score 0, no amounts added yet, nothing logged |
| Scoring.ScoreManager.Awake | Assets/Scripts/scoremanager.cs:10-14 | the first instance to wake becomes `Instance`; later ones leave it unchanged |
| Scoring.ScoreManager.AddScore | Assets/Scripts/scoremanager.cs:16-21 | the score is the wrapped sum of everything added; the new `Score: <n>` line goes to the bound text, or to the log when no text is bound |
| Goals.RepeatedOverlaps | Assets/Scripts/goal.cs:9-19 | n overlap events add n times the goal's value (wrapped; exact without overflow): there is no debouncing |
| Goals.Goal.constructor | Assets/Scripts/goal.cs:6-7 | the goal keeps its value and reset flag |
| Goals.Goal.OnTriggerEnter | Assets/Scripts/goal.cs:9-19 | the ball is taken from the parents first, then the collider. No ball: nothing changes. Otherwise the singleton, if any, adds the value, and the ball is reset when the flag is set and untouched otherwise |
| Goals.ThreeOverlapsScoreThree | Assets/Scripts/goal.cs:9-19 | three overlaps of one ball with a goal worth 1 raise the score by exactly 3 |
| BallHandling.Nearest | Assets/Scripts/Playerballhandler.cs:196-219 | an index the scan returns points at an eligible ball closer than `float.MaxValue` |
| BallHandling.NearestSound | Assets/Scripts/Playerballhandler.cs:196-219 | the scan's answer is no farther than every eligible ball and strictly nearer than every earlier one; no answer means every eligible ball is at `float.MaxValue` or farther |
| BallHandling.NearestUnique | Assets/Scripts/Playerballhandler.cs:196-219 | at most one index meets the nearest-ball characterization |
| BallHandling.NearestCharacterized | Assets/Scripts/Playerballhandler.cs:196-219 | the scan returns index i if and only if i is the nearest eligible ball (earliest on ties); it returns nothing if and only if no eligible ball is nearer than `float.MaxValue` |
| BallHandling.ChargeRateNonNegative | Assets/Scripts/Playerballhandler.cs:148 | with ordered force bounds the charge rate is non-negative |
| BallHandling.ChargeRateCoversRange | Assets/Scripts/Playerballhandler.cs:148 | charging for max(0.01, maxChargeTime) seconds covers exactly the force range |
| BallHandling.ChargedForceBounds | Assets/Scripts/Playerballhandler.cs:146-151 | with ordered bounds the force stays within them after any held frames |
| BallHandling.ChargedForceClampsOnce | Assets/Scripts/Playerballhandler.cs:146-151 | with non-negative gains, clamping after every frame equals clamping the total once |
| BallHandling.RampClosedForm | Assets/Scripts/Playerballhandler.cs:146-151 | at any non-negative rate, the force after held frames is the clamped linear ramp over their total duration |
| BallHandling.ChargeClosedForm | Assets/Scripts/Playerballhandler.cs:139-151 | a charge started by a press and held for frames of total time t has force clamp(min + t * (max - min) / max(0.01, maxChargeTime), min, max) |
| BallHandling.ChargeFill | Assets/Scripts/Playerballhandler.cs:229-232 | the bar fill lies in [0, 1]; it is 0 at or below the minimum force and 1 at or above the maximum (range at least 0.01) |
| BallHandling.RampFill | Assets/Scripts/Playerballhandler.cs:229-232 | a ramp that has run t of maxChargeTime seconds fills t / maxChargeTime of the bar |
| BallHandling.FillTracksChargeTime | Assets/Scripts/Playerballhandler.cs:229-232 | after any held frames of total time t within maxChargeTime, the bar shows t / maxChargeTime |
| BallHandling.HalfChargeHalfFill | Assets/Scripts/Playerballhandler.cs:14-16 | with the default settings, 0.75 s of charging gives force 15 and a half-full bar |
| BallHandling.PlayerBallHandler.ForceInRange | Assets/Scripts/Playerballhandler.cs:150 | while charging, the force lies between the minimum and maximum force |
| BallHandling.PlayerBallHandler.ForceIsRamp | Assets/Scripts/Playerballhandler.cs:139-151 | while charging, the force is the ramp over the time the button has been held |
| BallHandling.PlayerBallHandler.constructor | Assets/Scripts/Playerballhandler.cs:11-34 | the inspector settings; nothing held, not charging, force 0 |
| BallHandling.PlayerBallHandler.Awake | Assets/Scripts/Playerballhandler.cs:36-54 | each bound charge-bar part starts empty; the handler's state is otherwise unchanged |
| BallHandling.PlayerBallHandler.Pickup | Assets/Scripts/Playerballhandler.cs:89-111 | a rigidbody ball is made kinematic and still, its scale saved (and shrunk if configured), parented at the hold anchor's origin, and held; anything else is ignored |
| BallHandling.PlayerBallHandler.Drop | Assets/Scripts/Playerballhandler.cs:113-126 | the held ball gets its scale back, is detached and simulated again, velocities untouched; the hand is empty, charging stops and the force is kept; with nothing held nothing changes |
| BallHandling.PlayerBallHandler.Throw | Assets/Scripts/Playerballhandler.cs:162-183 | like a drop, but the ball's velocity becomes the launch direction times the force and its spin stops; the charge state is left to the caller; with nothing held nothing changes |
| BallHandling.PlayerBallHandler.FindNearestBall | Assets/Scripts/Playerballhandler.cs:196-219 | the loop returns exactly the ball the scan specification picks |
| BallHandling.PlayerBallHandler.TryPickup | Assets/Scripts/Playerballhandler.cs:76-87 | the nearest ball is picked up when it is within pickupRange and every other scanned ball is untouched; otherwise nothing changes |
| BallHandling.PlayerBallHandler.HandlePickupDrop | Assets/Scripts/Playerballhandler.cs:67-74 | E with a ball in hand drops it (velocities and force kept, other balls untouched); E with empty hands tries a pickup; without E neither the handler, the held ball nor any scanned ball changes |
| BallHandling.PlayerBallHandler.ChargeFrame | Assets/Scripts/Playerballhandler.cs:139-151 | a press restarts the charge at the minimum force; each held frame adds its gain and clamps, so the force is always the charged force of the frames held so far |
| BallHandling.PlayerBallHandler.HandleChargeAndThrow | Assets/Scripts/Playerballhandler.cs:130-160 | with no ball, charging is cancelled and the force kept. Otherwise a press restarts the charge, a held frame ramps it, and a release while charging throws at the charged force; without a release the ball stays in hand, untouched |
| BallHandling.PlayerBallHandler.ToggleAndCharge | Assets/Scripts/Playerballhandler.cs:58-59 | the E toggle and then the fire-button step, case by case as in `Update`: without E the ball in hand charges or is thrown; E drops it, or picks up the nearest ball in range and charges or throws it in the same frame. A ball thrown so keeps its spawn pose, and balls not involved are untouched |
| BallHandling.PlayerBallHandler.Update | Assets/Scripts/Playerballhandler.cs:56-63 | one frame, case by case: without E the fire-button step applies to the ball in hand; E drops the ball in hand, or picks up the nearest ball in range, which the fire button then charges or throws in the same frame (a ball thrown so keeps its spawn pose). With an empty hand and no pickup, the saved scale stays. Balls not involved are untouched. The remembered nearest ball is the scan's answer, and the bar follows the new charge state |
| BallHandling.PickupThenDrop | Assets/Scripts/Playerballhandler.cs:89-126 | a ball picked up and dropped gets its own scale back, is simulated again and lies still; the hand is empty and not charging |
| BallHandling.PickupHoldDrop | Assets/Scripts/Playerballhandler.cs:89-160 | frames of charging without a release and bar updates between a pickup and a drop do not disturb the saved scale: the drop still restores it |
| BallHandling.PlayerBallHandler.UpdateChargeUI | Assets/Scripts/Playerballhandler.cs:221-240 | with both bar parts bound, the fill is the charge progress while charging (0 otherwise) and the alpha moves towards 1 or 0 at uiFadeSpeed; otherwise nothing changes |
| Orbit.OrbitCamera.constructor | Assets/Scripts/Orbitcamera.cs:5-39 | the inspector settings; enabled, not rotating, private fields at their defaults |
| Orbit.OrbitCamera.Start | Assets/Scripts/Orbitcamera.cs:41-59 | without a target the component disables itself; otherwise the angles and targets start at the camera's Euler angles (pitch unclamped) and both distances at `distance` |
| Orbit.OrbitCamera.LateUpdate | Assets/Scripts/Orbitcamera.cs:61-68 | without a target nothing changes; otherwise the input step and then the zoom step, each in full, with yaw and pitch untouched and the pitch and distance ranges kept |
| Orbit.OrbitCamera.HandleInput | Assets/Scripts/Orbitcamera.cs:70-101 | a release beats a press in the same frame; the first rotating frame after a press is skipped; after that yaw follows the mouse and pitch follows it clamped; a pitch within its bounds stays within them |
| Orbit.OrbitCamera.UpdateZoom | Assets/Scripts/Orbitcamera.cs:103-117 | a scroll beyond the dead zone moves the desired distance, clamped to its range; the current distance moves towards it by the blend and never overshoots |
| Looking.MouseLook.constructor | Assets/Scripts/mouselook.cs:5-11 | the inspector settings; not looking, pitch 0 |
| Looking.MouseLook.Start | Assets/Scripts/mouselook.cs:13-21 | the pitch starts at the camera's local X angle, unclamped |
| Looking.MouseLook.Update | Assets/Scripts/mouselook.cs:23-55 | a release beats a press in the same frame. While looking, the body turns with the horizontal motion, and the pitch moves against the vertical motion, clamped, as the camera's only local angle. A pitch within its bounds stays within them |

## Left out

- Floats are modelled as exact reals: no rounding, no NaN or infinity. Only the `float.MaxValue` sentinel of the scan is kept, as an exact constant.
- `int` is modelled as a 32-bit two's-complement value, with the unchecked wrap-around of `score += amount` written out in `Wrap32`.
- `Playermovement.cs` (character movement) is not part of this model.
- `OrbitCamera.UpdateOrbit`: the SmoothDampAngle/SmoothDamp easing and camera placement are left out. They need the engine's critically damped spring and quaternion-vector products. `yaw` and `pitch` are otherwise never changed in the model.
- The zoom blend `1 - exp(-zoomSmoothTime * dt * 60)` is a parameter of `UpdateZoom`, because `Mathf.Exp` has no exact real counterpart. `Lerp` clamps whatever value it is given.
- `PlayerBallHandler.UpdateHeldBallPosition` is left out. Ball poses are modelled relative to the parent. While the held ball is still parented at the anchor, it sits at the anchor's origin, so writing the anchor's world pose to it changes nothing in this model.
- A held ball that a goal resets (goal.cs:17-18) is detached and back at its spawn pose, while `heldBall` still refers to it. From the next frame on, the script copies the anchor's world pose onto that simulated ball every frame (Playerballhandler.cs:189-193). This pull back to the hand is not modelled: the model leaves the ball at its spawn pose.
- `PlayerBallHandler.OnGUI` and `OnDrawGizmosSelected` are left out: they only draw.
- `PlayerBallHandler.Awake`: finding the main camera and creating a hold anchor are left out. The anchor is a given transform id.
- `PlayerBallHandler.Throw`: the launch direction is a parameter. Normalising the camera's forward vector, adding the upward boost and normalising again are left out. The velocity is that direction times the force, as the velocity-change impulse on a zeroed body gives. `AddForce(…, ForceMode.VelocityChange)` takes effect at the next physics step, so right after `Throw` the script's `linearVelocity` is still zero. The model applies the impulse at once.
- `SetParent` is modelled as changing the parent id only. Preserving the world pose and world scale on re-parenting is not modelled. The engine keeps the world scale by rewriting `localScale`, so in the script the pickup and drop round trip (`PickupThenDrop`, `PickupHoldDrop`) restores the ball's scale exactly only when the hold anchor's world scale is 1. The model's round trip restores it for every anchor.
- The charge bar's `interactable` and `blocksRaycasts` flags are left out. So are the cursor lock and visibility in both cameras and the warning log in `OrbitCamera.Start`.
- `ScoreManager.Awake`: destroying a second instance's game object is left out. The model states only that `Instance` stays as it was.
- Unity's destroyed-object ("fake null") semantics and the `??` in `Goal.OnTriggerEnter`: a destroyed ball is `null` in the model. `GetComponentInParent` and `GetComponent` are the two ball parameters of `OnTriggerEnter`.
- `FindObjectsOfType<Ball>()` is the `balls` parameter, and `Vector3.Distance` from the chest point to each ball is the `distance` parameter. Game objects themselves are not modelled.
- The ghost fields `chargeFrames` and `chargeGains` of the handler are proof devices and have no counterpart in the script. They record the durations of the held frames of the current charge and the force each added.
- One would expect the target pitch always to stay within its bounds. The code copies the camera's X Euler angle into the pitch unclamped at `Start`. Unity reports that angle in [0, 360), so a camera tilted up starts there far above `maxPitch`. The model follows the code. The contracts therefore promise the pitch bounds after the first rotating frame, or when the bounds already held.
- In the same way `OrbitCamera.Start` copies `distance` into `desiredDistance` unclamped (Orbitcamera.cs:54), so the distance bounds are promised only after a scroll beyond the dead zone, or when they already held.
- BallHandling.PlayerBallHandler.Drop: the released ball's position and rotation are not specified. The engine keeps its world pose at the hold anchor on `SetParent(null)`, and the parent-relative model has no world pose to express that with.
- BallHandling.PlayerBallHandler.Throw: the released ball's position and rotation are not specified, for the same reason as in `Drop`.
- BallHandling.PlayerBallHandler.HandleChargeAndThrow: the thrown ball's position and rotation are not specified, for the same reason as in `Drop`.
- BallHandling.PlayerBallHandler.Update: the same holds for a ball dropped or thrown in the frame. The `distance` parameter gives one distance per ball for the whole frame. The script rescans after a pickup this frame has moved the ball to the hold anchor, so the remembered nearest ball can differ from the model's when that ball was picked up in the same frame. Its only reader is the pickup hint, which is left out and draws nothing while a ball is held.
- Balls.Ball.Awake: balls are taken to be unparented at `Awake`, so the pose it records is the world pose the script reads.
