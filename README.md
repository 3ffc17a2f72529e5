# Player controller model

This project models the player component of a small Unity game, `Assets/Scripts/Player.cs`.
A press sets the player moving towards the pointer. It stops on release or when its hand
reaches the pointer, and then moves again only on the next press. It stays inside the camera.
A hit costs it one health point and gives it a cooldown during which it cannot be hit again.
A "fever" pick-up makes it large and fast for a while. Re-triggering fever before it runs out
adds to the timer. When fever ends, the player shrinks to unit scale and, after a short delay,
grows to the scale it had before fever plus `ADD_SCALE` per trigger.

The model has four modules:

- `Wrappers` (`wrappers.dfy`): an `Option` type.
- `Geometry` (`geometry.dfy`): vectors, sprite borders and bounds, and the two pure clamps.
  These are the pointer clamp of the per-frame update and `CheckBounding`.
- `PlayerSpec` (`player_spec.dfy`): the player as a value. `PlayerState` holds every field the
  component updates. There is one transition function per operation, and the invariant `Inv`
  that all of them keep. It also holds lemmas about runs of events and worked scenarios.
- `PlayerObject` (`player.dfy`): the player as an object. The class `Player` keeps the
  component's fields and updates them in place. Each method is proved to move the object's
  `State()` exactly as the matching `PlayerSpec` function moves a value. So everything proved
  in `PlayerSpec` holds of the object. The fields are gathered into records by concern (timers,
  scaling, motion, view) so that each method writes few heap locations. `hp` and the camera
  corners `RT`/`LB` are never written after start-up, so they are constants.

Calls into collaborators are recorded in a ghost `Effects` value:

- animator flags `isMoving`, `isHit` and `isFever`;
- the HUD's health, fever flag and fever time;
- the game manager's death notification;
- the hurt and fever-end sounds;
- the feedback pulse that `SetScale` plays.

The `DelayFat` coroutine is modelled as `delayFat: Option<real>`, the time it still has to wait
while it runs. The engine resumes a coroutine after `Update`, starting from the frame after the
one that started it. So a frame first runs the timer block and then advances a coroutine that
was already running (`Tick`). When the wait runs out, the coroutine applies `delayFatScale` as
that field stands at that moment. Frame time `dt` is a parameter. Single-precision floats are
modelled as reals.

The key results are these:

- Every operation and every frame keeps `Inv`. Under `Inv`:
  - the fever timer lies in `[0, maxFeverTime]`;
  - a running cooldown means the body collider is off;
  - a running fever means the collider is tagged `hand`, speed and turn rate are four-fold,
    the scale is `FEVER_SCALE`, the counter is at least one and no deferred scale-up waits.
- `RunKeepsInv` extends this to any sequence of events.
- Health never rises without a reset, and falls by at most one per hit (`HealthOnlyFallsByHits`).
- `k` fever triggers accumulate `k * FEVER_TIME` (`RetriggersAccumulate`). Expiry drops the
  scale to one. Whole frames whose times add up to the delay then bring it to snapshot + `0.1 * k`,
  however the wait is split and whatever the pointer does (`FeverExpiryThenScaleUpOverFrames`).
  A new trigger cancels the deferred scale-up (`FeverCancelsDeferredScale`).

Behaviour of the code that is easy to miss; the model follows the code:

- Death is reported on every hit at zero health or below, not once. Health keeps falling below
  zero, because the death branch sets no cooldown (`HitAfterDeathReportsDeathAgain`).
- `maxFeverTime` is set to the timer after each trigger, not kept as a running maximum.
- `Reset` does not stop the deferred scale-up. It writes the root transform's scale, not the
  scale transform that `SetScale` writes. It does not restore the scale transform, the animator
  flags, the HUD's fever flag, the collider tag, the collider's enabled flag or offset, the
  sprite flip or the hand anchor. A player reset during a fever is still tagged `hand`, while
  its tracked scale is one. If the scale transform is a child of the player, as the model takes
  it to be, the player also still shows the fever scale (`ResetDuringFeverKeepsFeverLook`).
  A player reset while facing left is left inconsistent (`ResetDesynchronisesFacing`).
- A fever triggered while the deferred scale-up waits finds no fever running. So it snapshots
  the unit scale and restarts the counter, and the growth that was waiting is lost
  (`FeverCancelsDeferredScale`).
- `CheckBounding` insets both vertical edges by the sprite's right border (`border.z`), though
  the comment above it names `x` as the left border.
- `SetEnd` clears `isMoving` directly, so the animator's `isMoving` flag is not cleared. It
  raises the animator's fever flag as the end pose.
- The HUD's fever time is updated by `SetFever` and `AddFeverTime` only, not while the fever
  counts down.

## Model

| member | source | states |
|---|---|---|
| Geometry.ClampToScreen | Assets/Scripts/Player.cs:196-203 | one pointer axis: at or below 0 becomes 0, above the screen size becomes the size, otherwise unchanged; the result lies in [0, size] |
| Geometry.ClampPointer | Assets/Scripts/Player.cs:196-203 | the pointer lies in [0, width] x [0, height] afterwards, is unchanged when already inside, and keeps its depth |
| Geometry.ClampPointerIdempotent | Assets/Scripts/Player.cs:196-203 | clamping a clamped pointer changes nothing |
| Geometry.CheckBounding | Assets/Scripts/Player.cs:173-188 | z never changes; on each axis the far-edge test wins, and a clamped axis puts the sprite exactly on the inset camera edge; x insets both edges by the right border, y uses the top and the bottom border; an axis with neither test true is unchanged |
| Geometry.CheckBoundingIdempotent | Assets/Scripts/Player.cs:173-188 | with the sprite centred on the position and narrower than the inset camera, clamping a clamped position changes nothing |
| Geometry.CheckBoundingInside | Assets/Scripts/Player.cs:173-188 | a sprite inside the inset camera edges is not moved |
| PlayerSpec.Reset | Assets/Scripts/Player.cs:83-95 | stopped, not moving, facing right, full health, all three timers zero, nowScale and the root transform at 1, position at the origin, normal speeds; the scale transform, animator and HUD flags, deferred scale-up, collider, flip, hand and fever snapshot are untouched; keeps Inv |
| PlayerSpec.Awake | Assets/Scripts/Player.cs:64-76 | the started player has full health shown on the HUD, is stopped, has no timer or coroutine running, unit scale, and satisfies Inv |
| PlayerSpec.SetScale | Assets/Scripts/Player.cs:270-275 | the scale transform and nowScale take the value, one feedback pulse plays, nothing else changes |
| PlayerSpec.SetState | Assets/Scripts/Player.cs:276-280 | the life-cycle state is set and nothing else changes |
| PlayerSpec.SetIsMoving | Assets/Scripts/Player.cs:131-135 | the movement flag and the animator's copy of it both equal the argument; nothing else changes |
| PlayerSpec.CheckControl | Assets/Scripts/Player.cs:137-165 | a stopped player, a closed input gate or no gesture leaves the state alone; a press starts movement and wins over a release; a release stops it; only the movement flag and its animator copy change |
| PlayerSpec.SetEnd | Assets/Scripts/Player.cs:282-287 | stopped, not moving, animator fever flag raised, animator movement flag untouched, nothing else changes |
| PlayerSpec.UpdateFaceTo | Assets/Scripts/Player.cs:114-129 | inside the dead zone (scaled by nowScale) nothing changes; otherwise the facing follows the sign of dx, and flip, hand anchor and collider offset sign change exactly when the facing changes |
| PlayerSpec.UpdateFaceToKeepsFacing | Assets/Scripts/Player.cs:114-129 | flip, hand anchor and collider offset that agree with the facing still agree after any turn |
| PlayerSpec.ResetDesynchronisesFacing | Assets/Scripts/Player.cs:83-95 | a reset while facing left leaves flip, hand and offset disagreeing with the facing, and a turn to the right does not repair it |
| PlayerSpec.SetHit | Assets/Scripts/Player.cs:289-307 | ignored during the cooldown; otherwise health falls by one and the HUD and hit animation are told; a survivor gets the 2 s cooldown, a disabled collider and the hurt sound; at zero or below death is reported with no cooldown; nothing else changes |
| PlayerSpec.ResetDuringFeverKeepsFeverLook | Assets/Scripts/Player.cs:83-95 | a reset during a fever leaves the scale transform at the fever scale, the animator and HUD fever flags as they were and the collider tagged hand, while nowScale is 1 and the timer 0; Inv still holds |
| PlayerSpec.HitAfterDeathReportsDeathAgain | Assets/Scripts/Player.cs:289-307 | from health 1, two hits give health -1 and two death reports |
| PlayerSpec.SetFever | Assets/Scripts/Player.cs:326-343 | cancels the deferred scale-up; a fresh trigger snapshots the scale and restarts the counter, a re-trigger keeps both; the counter rises by one; the timer rises by 3 s and becomes the maximum; hand tag, four-fold speeds, fever scale, animator and HUD; health, facing, position, root scale and the other effects unchanged; keeps Inv and establishes fever |
| PlayerSpec.AddFeverTime | Assets/Scripts/Player.cs:309-323 | without fever nothing changes; otherwise the timer rises by the stage's increment, is capped at maxFeverTime and never falls; the HUD shows the new time; nothing else changes |
| PlayerSpec.CoolDown | Assets/Scripts/Player.cs:234-243 | the cooldown falls by dt; when it reaches zero or below the collider is re-enabled and the hit animation stops; nothing else changes |
| PlayerSpec.EndFever | Assets/Scripts/Player.cs:247-260 | timer pinned at zero, Player tag, normal speeds, HUD and animator out of fever, scale 1, deferred scale-up to snapshot + 0.1 per trigger started, fever-end sound played |
| PlayerSpec.FeverCountdown | Assets/Scripts/Player.cs:244-261 | a fever with time left only loses dt; one that runs out ends at zero, scale 1, with the deferred scale-up waiting 0.5 s |
| PlayerSpec.UpdateTimers | Assets/Scripts/Player.cs:234-261 | a running cooldown is the only timer that moves and moves by dt; otherwise the fever timer falls to at most zero and on expiry starts the deferred scale-up; position, movement, state and health are untouched; keeps Inv for dt >= 0 |
| PlayerSpec.ResumeDelayFat | Assets/Scripts/Player.cs:264-269 | a waiting coroutine loses dt; when its wait runs out it sets nowScale and the scale transform to delayFatScale, plays one pulse and stops; nothing else changes; keeps Inv |
| PlayerSpec.Tick | Assets/Scripts/Player.cs:234-269 | a scale-up waiting at the start of the frame fires with its stored target once its wait runs out and otherwise only waits, its target and the idle fever timer untouched; without a coroutine, the scale changes only through fever expiry; keeps Inv for dt >= 0 |
| PlayerSpec.Move | Assets/Scripts/Player.cs:212-224 | a player that is not moving is untouched; a moving one faces the pointer, takes the step in the plane (depth unchanged), ends at the bounding-clamped position, and on arrival stops and clears the animator's moving flag; flip, hand and collider change exactly as UpdateFaceTo changes them; nothing but position, facing, movement flag and its animator copy changes otherwise; keeps Inv |
| PlayerSpec.Frame | Assets/Scripts/Player.cs:191-262 | a stopped, idle player does not move; health is unchanged; keeps Inv for dt >= 0 |
| PlayerSpec.StepKeepsInv | Assets/Scripts/Player.cs:64-343 | every public operation and every frame with dt >= 0 keeps Inv |
| PlayerSpec.RunKeepsInv | Assets/Scripts/Player.cs:64-343 | any sequence of such events from a state satisfying Inv ends in one satisfying Inv |
| PlayerSpec.HealthOnlyFallsByHits | Assets/Scripts/Player.cs:289-307 | with no reset among the events, health never rises and falls by at most the number of hits |
| PlayerSpec.RetriggersAccumulate | Assets/Scripts/Player.cs:326-343 | k triggers from no fever: snapshot is the first scale, counter k, timer k * 3 s equal to its maximum, no deferred scale-up, fever scale, cooldown unchanged, Inv kept |
| PlayerSpec.FeverExpiryThenDeferredScale | Assets/Scripts/Player.cs:244-269 | on expiry the scale is 1 at once and the scale-up waits 0.5 s; after one further frame of at least 0.5 s the scale is snapshot + 0.1 * counter |
| PlayerSpec.FramesKeepSettledScale | Assets/Scripts/Player.cs:191-269 | with no scale-up waiting and no fever running, any number of whole frames leave the scale alone and start no scale-up |
| PlayerSpec.DeferredScaleAfterWait | Assets/Scripts/Player.cs:264-269 | a waiting scale-up followed by whole frames (any input) of non-negative times summing to at least the remaining wait ends applied: scale at the stored target, nothing waiting |
| PlayerSpec.FeverExpiryThenScaleUpOverFrames | Assets/Scripts/Player.cs:244-269 | the frame in which the fever runs out, then whole frames of any lengths summing to at least 0.5 s: the scale is 1 at expiry and ends at snapshot + 0.1 * counter |
| PlayerSpec.FeverCancelsDeferredScale | Assets/Scripts/Player.cs:328-334 | a trigger during the wait cancels the scale-up, snapshots the waiting scale and restarts the counter at 1; the fever scale stays through the next frame |
| PlayerSpec.ScenarioCooldown | Assets/Scripts/Player.cs:289-307 | health 3: a hit, an ignored hit in the cooldown, the cooldown running out and a third hit leave health 1 and no death |
| PlayerSpec.ScenarioThreeTriggers | Assets/Scripts/Player.cs:326-343 | three triggers from scale 1: scale 1 on expiry, 1.3 after the delay |
| PlayerObject.Player.constructor | Assets/Scripts/Player.cs:64-76 | the new object's state is Awake's, and it satisfies Inv |
| PlayerObject.Player.GetHp | Assets/Scripts/Player.cs:78-81 | returns the current health |
| PlayerObject.Player.Reset | Assets/Scripts/Player.cs:83-95 | updates the fields as PlayerSpec.Reset; keeps Inv |
| PlayerObject.Player.UpdateFaceTo | Assets/Scripts/Player.cs:114-129 | updates the fields as PlayerSpec.UpdateFaceTo |
| PlayerObject.Player.SetIsMoving | Assets/Scripts/Player.cs:131-135 | updates the fields as PlayerSpec.SetIsMoving |
| PlayerObject.Player.CheckControl | Assets/Scripts/Player.cs:137-165 | updates the fields as PlayerSpec.CheckControl |
| PlayerObject.Player.SetScale | Assets/Scripts/Player.cs:270-275 | updates the fields as PlayerSpec.SetScale |
| PlayerObject.Player.SetState | Assets/Scripts/Player.cs:276-280 | updates the fields as PlayerSpec.SetState; keeps Inv |
| PlayerObject.Player.SetEnd | Assets/Scripts/Player.cs:282-287 | updates the fields as PlayerSpec.SetEnd; keeps Inv |
| PlayerObject.Player.SetHit | Assets/Scripts/Player.cs:289-307 | updates the fields as PlayerSpec.SetHit; keeps Inv |
| PlayerObject.Player.AddFeverTime | Assets/Scripts/Player.cs:309-323 | updates the fields as PlayerSpec.AddFeverTime; keeps Inv |
| PlayerObject.Player.SetFever | Assets/Scripts/Player.cs:326-343 | updates the fields as PlayerSpec.SetFever; keeps Inv |
| PlayerObject.Player.CoolDown | Assets/Scripts/Player.cs:234-243 | updates the fields as PlayerSpec.CoolDown |
| PlayerObject.Player.FeverCountdown | Assets/Scripts/Player.cs:244-261 | updates the fields as PlayerSpec.FeverCountdown |
| PlayerObject.Player.EndFever | Assets/Scripts/Player.cs:247-260 | updates the fields as PlayerSpec.EndFever |
| PlayerObject.Player.UpdateTimers | Assets/Scripts/Player.cs:234-261 | updates the fields as PlayerSpec.UpdateTimers; keeps Inv for dt >= 0 |
| PlayerObject.Player.ResumeDelayFat | Assets/Scripts/Player.cs:264-269 | updates the fields as PlayerSpec.ResumeDelayFat |
| PlayerObject.Player.Tick | Assets/Scripts/Player.cs:234-269 | updates the fields as PlayerSpec.Tick; keeps Inv for dt >= 0 |
| PlayerObject.Player.Move | Assets/Scripts/Player.cs:212-224 | updates the fields as PlayerSpec.Move |
| PlayerObject.Player.Update | Assets/Scripts/Player.cs:191-262 | updates the fields as PlayerSpec.Frame; keeps Inv for dt >= 0 |

## Left out

- The scale transform that `SetScale` writes is taken to be a different transform from the player's own, which `Reset` writes. The scale transform is assigned in the scene, so the code does not fix this. If they were the same transform, a reset would also restore the displayed scale.
- `UpdateView` (hand rotation, smoothing and stretch) and `GetMouseDirection` are left out. They are presentation only and change no field of the model.
- The movement numerics are inputs of `FrameInput`. These are the normalised direction times speed times frame time, and the arrival test against `MIN_DISTANCE`. So are the conversion of the pointer to world space and the horizontal distance to it. They are floating-point engine calls.
- The web-build branches of `CheckControl` and `Update` (mobile detection, the change-state rectangle) are reduced to the boolean input gate `allowed`.
- `DelayFat` is modelled as a countdown by frame time. Engine scheduling beyond "resumed after `Update`, from the next frame" is not modelled. This includes `WaitForSeconds` measuring scaled time.
- Float rounding is not modelled: all arithmetic is on reals.
- The collaborators are recorded only as `Effects`: the animator, HUD, audio, game manager and feedback player. What they do in response is outside the model.
- The sprite's pixels-per-unit is taken to be positive (`PositiveReal`). Screen sizes are integers.
- `dt >= 0` is not required by the transitions. It is assumed only where the invariant is kept.
- `Awake` fixes the scene's initial transforms rather than reading them: the hand at its right-hand anchor, the scale transform at unit scale and no sprite flip. Only the body collider's tag, enabled flag and offset are modelled of the collider.
