# Basketball game core in Dafny

This project models the frame-by-frame gameplay logic of a two-dimensional
arcade basketball game written as three Unity scripts. It covers:

- **`PlayerController`**: movement and the shot meter. Holding Space charges a
  slider and freezes the player, while two accuracy windows (yellow and green)
  are sized and placed on the slider. Releasing Space shoots. A display timer
  then hides the meter.
- **`Ball`**: the possession protocol. `InPossession` queries, `Possess` grants
  possession and `Shoot` releases the ball towards the hoop. Each frame the ball
  either rides along with its holder or falls under gravity.
- The shot's **launch velocity**, from a fixed time of flight or a fixed launch
  angle.
- **`GameManager`**: choosing the active hoop, handing the ball to the first
  player after a score, and looking players up by index.

Layout:

- `engine.dfy` (module `Engine`): the engine values the scripts use:
  - vectors;
  - `Mathf.Abs`, `Mathf.Clamp` and `Vector2.MoveTowards`;
  - the rigid-body velocity as `Velocity`, which is `Finite(v)` or `NonFinite`
    (a NaN or infinite float vector);
  - the engine objects the scripts mutate (transforms, rigid bodies, rect
    transforms, sliders, colliders).
- `projectile.dfy` (module `Projectile`): the launch-velocity solver of
  `Ball.Shoot`, as pure functions.
- `shot_meter.dfy` (module `ShotMeter`): the shot meter as a pure state machine.
  `Tick` is one frame of `PlayerController.Update`.
- `possession.dfy` (module `Possession`): the ball's possession protocol as pure
  transitions on the ball's state.
- `gameplay.dfy` (module `Gameplay`): the three scripts as classes whose methods
  follow the scripts statement by statement. Each `Ball` method and `PlayerController.Update` is proved to
  perform the pure transition above (`ShotMeter.Tick`, `Possession.Possessed`,
  `Possession.Launched`, `Possession.Carried`). The classes refer to one another,
  so they share one module.
- `options.dfy` (module `Options`): `Option`.

Floats are modelled as Dafny `real`, with no rounding. The values of
`Mathf.Sqrt`, `Sin`, `Cos` and `Tan` are parameters (a `Mathf` record of
functions). The key state, the frame times and `Physics2D.gravity.y` are
parameters of the methods that read them.

### Where the solver's guards fall short

The comments in the shot solver describe its guards as avoiding division by
zero and negative values (Ball.cs:131), with a fallback when the calculation
fails (Ball.cs:145). The guards do not exclude every such case, and some inputs
still give a NaN or infinite velocity:

- `Projectile.NearVerticalLaunchIsNotFinite`: the near-vertical guard
  (|cos θ| < 0.01) sends a launch at or just past vertical to the fallback. With
  sin 2θ at or below zero, the fallback then divides by zero or takes the square
  root of a negative number. A 90-degree launch falls in this case in float32:
  `90 * Deg2Rad` rounds to an angle slightly past π/2, where cos θ and sin 2θ are
  tiny and negative. Over exact reals the same product lies just below π/2, so the
  model leaves the trigonometric values as parameters and states the case by
  their signs.
- `Projectile.ObtuseFallbackIsNotFinite`: for angles between 90 and 180
  degrees, the fallback takes the square root of a negative number.
- A time of flight of 0 divides by zero (`Projectile.TimeOfFlightVelocity`).

## Model

| member | source | states |
|---|---|---|
| `Engine.Abs` | Assets/Scripts/Ball.cs:106 | `Mathf.Abs`: the result is non-negative, and it is the argument or its negation |
| `Engine.Clamp` | Assets/Scripts/PlayerController.cs:119 | `Mathf.Clamp`: with ordered bounds the result is in range, a value in range is kept, a value below the minimum gives the minimum and a value above the maximum gives the maximum. With reversed bounds, a value below `min` gives `min` and any other value gives `max` |
| `Engine.MoveTowards` | Assets/Scripts/PlayerController.cs:83 | `Vector2.MoveTowards`: the target when it is within the step (or the distance is zero), otherwise one step along the way; its behaviour towards zero is stated by `Engine.MoveTowardsZeroBounded` |
| `Engine.MoveTowardsZeroBounded` | Assets/Scripts/PlayerController.cs:81-84 | decaying a velocity towards zero by a non-negative step never overshoots. The result lies on the segment from the velocity to the origin (collinear, with `0 <= r·v <= v·v`) and is at most the step away from the old velocity. Within one step it lands exactly on zero; otherwise it moves exactly one step (`|v − r|² = step²`) |
| `Projectile.PositionAt` | Assets/Scripts/Ball.cs:113-116 | the ideal ballistic position after time t, from a start point and launch velocity under gravity g; the trajectory the solver's velocities are measured against |
| `Projectile.LaunchVelocity` | Assets/Scripts/Ball.cs:101-154 | the velocity `Shoot` gives: the displacement to the hoop with gravity `|gravity.y|`, solved by time of flight or by launch angle as `useTimeOfFlight` selects; its properties are the `Projectile` lemmas below |
| `Projectile.AngleVelocity` | Assets/Scripts/Ball.cs:121-153 | launch-angle mode: the degrees converted with `Deg2Rad`, then the fallback for the degenerate and negative-square arms and the direct speed along the angle otherwise (`DirectIsFinite`, `NearVerticalLaunchIsNotFinite`) |
| `Projectile.SelectAngleCase` | Assets/Scripts/Ball.cs:132-143 | which arm the angle mode takes: the degenerate fallback when the denominator is not positive or cos θ is below 0.01 in size, otherwise the fallback for a negative v0², otherwise the direct arm with v0² (`NegativeSquareUnreachable`, `DirectSpeedMeetsRangeEquation`) |
| `Projectile.AngleDenominator` | Assets/Scripts/Ball.cs:132 | the denominator `2·cos²θ·(x·tanθ − y)` of the range equation solved for v0² |
| `Projectile.Along` | Assets/Scripts/Ball.cs:138 | a speed v0 along the launch angle, `(v0·cos θ, v0·sin θ)`, as the three arms build it at lines 138, 147 and 152 |
| `Projectile.Fallback` | Assets/Scripts/Ball.cs:137-138 | the symmetric-range fallback `sqrt(g·|d| / sin 2θ)` along the angle, non-finite when sin 2θ is zero or the quotient is negative (`ObtuseFallbackIsNotFinite`) |
| `Projectile.TimeOfFlightVelocity` | Assets/Scripts/Ball.cs:110-117 | time-of-flight mode: the velocity is finite exactly when t ≠ 0, and then covers the displacement in time t (`vx·t = dx` and `vy·t − ½gt² = dy`) |
| `Projectile.TimeOfFlightShotLands` | Assets/Scripts/Ball.cs:100-117 | for t > 0 the shot is finite, and followed for t seconds under gravity `|gravity.y|` it arrives exactly at the hoop |
| `Projectile.NegativeSquareUnreachable` | Assets/Scripts/Ball.cs:132-148 | with g ≥ 0, once the first fallback is skipped, `g·x²/denominator` is never negative, so the second fallback is dead |
| `Projectile.ShotNeverTakesNegativeSquare` | Assets/Scripts/Ball.cs:106-148 | because `Shoot` uses `|gravity.y|`, no shot ever takes the `v0Squared < 0` fallback |
| `Projectile.DirectSpeedMeetsRangeEquation` | Assets/Scripts/Ball.cs:132-152 | in the direct arm (positive gravity, non-zero horizontal distance), v0² is positive and the trajectory `y = x·tanθ − g·x²/(2·v0²·cos²θ)` passes through the hoop |
| `Projectile.NearVerticalLaunchIsNotFinite` | Assets/Scripts/Ball.cs:121-139 | with positive gravity and a target at positive distance, a launch with cos θ below 0.01 in size and sin 2θ ≤ 0 (at or just past vertical, as the float 90° is) takes the fallback and yields a non-finite velocity |
| `Projectile.ObtuseFallbackIsNotFinite` | Assets/Scripts/Ball.cs:137-138 | the fallback with a negative sin 2θ, positive gravity and a target at positive distance yields a non-finite velocity |
| `Projectile.DirectIsFinite` | Assets/Scripts/Ball.cs:149-153 | the direct arm always yields a finite velocity |
| `Projectile.FortyFiveDegreeShot` | Assets/Scripts/Ball.cs:128-142 | at 45° (cos² = ½, tan = 1), from (0,0) to (10,0) under g = 9.8, the shot takes the direct arm with v0² = 98 |
| `Projectile.OneSecondShot` | Assets/Scripts/Ball.cs:113-116 | a one-second shot from (0,0) to (5,5) under g = 9.8 has velocity (5, 9.9) |
| `ShotMeter.Tick` | Assets/Scripts/PlayerController.cs:105-175 | one frame of the shot-meter branches, for a holder (frozen or not, by key state) and for a non-holder, and whether `Shoot` is called; its behaviour is stated branch by branch by the `ShotMeter` lemmas below |
| `ShotMeter.Charge` | Assets/Scripts/PlayerController.cs:117-119 | one charge step, `chargeSpeed·dt` added and clamped to the slider's range (`ShotMeter.ChargeBounds`) |
| `ShotMeter.SetWindows` | Assets/Scripts/PlayerController.cs:184-212 | SetShotWindows on the windows' sizes and positions (`ShotMeter.WindowRules`) |
| `ShotMeter.Raised` | Assets/Scripts/PlayerController.cs:197-200 | one window after SetShotWindows: its height set and its local position raised by the offset height, the other coordinates kept (the same for green at lines 206-209) |
| `ShotMeter.ResetWindows` | Assets/Scripts/PlayerController.cs:178-182 | ResetShotWindows on the windows' sizes and positions (`ShotMeter.WindowRules`) |
| `ShotMeter.Hide` | Assets/Scripts/PlayerController.cs:129-132 | the meter emptied to `minValue`, hidden, deactivated, with its windows reset (`ShotMeter.IdleHolderResets`) |
| `ShotMeter.CountDown` | Assets/Scripts/PlayerController.cs:151-159 | the display timer counted down by dt, and at or below zero the meter hidden and unfrozen (`ShotMeter.CountDownRule`) |
| `ShotMeter.Release` | Assets/Scripts/PlayerController.cs:123-125 | key-up: the timer set to `timeToDisplay` and the player unfrozen (`ShotMeter.KeyUpShoots`) |
| `ShotMeter.Started` | Assets/Scripts/PlayerController.cs:56-61 | Start: the slider set to 0 through its clamping setter, and the windows placed (`ShotMeter.StartedConsistent`) |
| `ShotMeter.ChargeBounds` | Assets/Scripts/PlayerController.cs:117-119 | a charge step lands in [minValue, maxValue]; it never lowers a fill that was in range when `chargeSpeed·dt ≥ 0`; and it is exact while within range |
| `ShotMeter.PressStartsCharge` | Assets/Scripts/PlayerController.cs:109-120 | a holder who is not frozen and holds Space: the meter is shown, active and frozen; the fill takes one clamped charge step; the windows are placed; the timer is kept; and there is no shot |
| `ShotMeter.FrozenPressKeepsCharging` | Assets/Scripts/PlayerController.cs:137-142 | holding Space while frozen shows the meter and charges it; nothing else changes |
| `ShotMeter.FiresExactlyOnKeyUp` | Assets/Scripts/PlayerController.cs:107-175 | `Shoot` is called in a frame exactly when the holder releases Space |
| `ShotMeter.KeyUpShoots` | Assets/Scripts/PlayerController.cs:121-148 | on key-up by the holder, frozen or not, the frame shoots with `meterTimer = timeToDisplay` and `frozen = false`; the fill, the visibility and the windows are unchanged |
| `ShotMeter.IdleHolderResets` | Assets/Scripts/PlayerController.cs:127-133 | a holder who is not frozen and touches nothing: the fill goes to minValue, the meter is hidden and inactive, and the window positions are zeroed with their sizes kept |
| `ShotMeter.CountDownRule` | Assets/Scripts/PlayerController.cs:149-174 | for a frozen holder with no input, or a non-holder with an active meter, the timer drops by dt. At or below zero the meter is emptied, hidden, deactivated and unfrozen, and its windows are reset; otherwise nothing else changes |
| `ShotMeter.InactiveNonHolderUnchanged` | Assets/Scripts/PlayerController.cs:163-174 | a non-holder whose meter is inactive: nothing changes and nothing fires |
| `ShotMeter.WindowRules` | Assets/Scripts/PlayerController.cs:178-212 | SetShotWindows does nothing without a background or while the meter is active. Otherwise it sets each height to background height × multiplier and raises each window by `windowOffset/2 ×` that height. ResetShotWindows zeroes both positions and keeps both sizes |
| `ShotMeter.TickPreservesConsistent` | Assets/Scripts/PlayerController.cs:104-212 | every frame keeps the meter consistent: the fill is in range, the meter is shown exactly while active, only an active meter is frozen, an inactive meter is empty with its windows at zero, and an active meter's windows are placed once (the offset never accumulates) |
| `ShotMeter.StartedConsistent` | Assets/Scripts/PlayerController.cs:16-61 | a freshly constructed controller's meter after Start is consistent exactly when the slider starts hidden, 0 clamps to `minValue` in an ordered range, and placing the windows leaves both at zero |
| `ShotMeter.DefaultStartConsistent` | Assets/Scripts/PlayerController.cs:55-61 | with `minValue` 0, a hidden slider, windows at zero and no offset height, the meter after Start is consistent, so `TickPreservesConsistent` keeps it consistent in every later frame |
| `ShotMeter.ResetEstablishesConsistent` | Assets/Scripts/PlayerController.cs:127-174 | with ordered bounds, a frame that resets the meter (the idle holder's reset, or a countdown that runs out for a frozen holder or a non-holder) leaves it consistent whatever the state before |
| `ShotMeter.PressEstablishesConsistent` | Assets/Scripts/PlayerController.cs:109-120 | with ordered bounds, an unfrozen holder's press on an inactive meter whose windows sit at zero leaves it consistent, even if the slider was visible before |
| `ShotMeter.ReversedBoundsNeverConsistent` | Assets/Scripts/PlayerController.cs:119 | with `maxValue < minValue` no meter is consistent, since no fill lies in the slider's range |
| `ShotMeter.StartupOffsetStacks` | Assets/Scripts/PlayerController.cs:109-116 | after Start (line 61) has placed the windows while the meter is inactive, a first press places them again: they end up raised by twice the offset, and the meter is consistent only when the offset height is zero |
| `ShotMeter.HoldingCharges` | Assets/Scripts/PlayerController.cs:137-141 | holding Space for a run of frames gives the starting fill plus the sum of the frames' charges, clamped once at the end. The meter ends shown and frozen, and active unless it started frozen but inactive |
| `ShotMeter.ClampEachAbsorbs` | Assets/Scripts/PlayerController.cs:117-119 | clamping after each non-negative increment is the same as clamping the total once |
| `ShotMeter.IncrementsSum` | Assets/Scripts/PlayerController.cs:117 | the frames' charges add up to `chargeSpeed ×` the held time |
| `ShotMeter.OneSecondFillsMeter` | Assets/Scripts/PlayerController.cs:24 | at the default charge speed 1 on a 0..1 slider, a second or more of holding fills the meter exactly to 1 |
| `Possession.IsHolder` | Assets/Scripts/Ball.cs:62-65 | the possession query on the ball's state (`Possession.HolderIgnoresFlag`) |
| `Possession.Possessed` | Assets/Scripts/Ball.cs:67-76 | Possess once the holder's transform is looked up (`Possession.PossessGrants`) |
| `Possession.Launched` | Assets/Scripts/Ball.cs:83-157 | Shoot on the ball's state, a no-op without a hoop (`Possession.ShootWithoutHoopIsNoOp`, `Possession.ShootReleases`) |
| `Possession.Carried` | Assets/Scripts/Ball.cs:44-60 | Update's ride-along or free fall (`Possession.RideAlongRule`) |
| `Possession.HolderIgnoresFlag` | Assets/Scripts/Ball.cs:62-65 | the possession query compares only the index; the `inPossession` flag does not affect it |
| `Possession.PossessGrants` | Assets/Scripts/Ball.cs:67-76 | after Possess(i) the flag is set, the index is i, the holder is the looked-up transform and the ball is at rest. i is the one and only index in possession; position and gravity are untouched |
| `Possession.ShootWithoutHoopIsNoOp` | Assets/Scripts/Ball.cs:83-87 | with no hoop set, Shoot changes no state |
| `Possession.ShootReleases` | Assets/Scripts/Ball.cs:94-157 | with a hoop set, Shoot leaves the flag false, the index −1, no holder and gravity 1. The velocity is the solver's, and no non-negative index is in possession |
| `Possession.TimedShotReachesHoop` | Assets/Scripts/Ball.cs:94-117 | a released time-of-flight shot with t > 0 reaches the hoop after t seconds |
| `Possession.RideAlongRule` | Assets/Scripts/Ball.cs:44-60 | a possessed ball with a holder moves to the holder's position plus the offset, with zero velocity and zero gravity. Otherwise only the gravity scale changes, to 1. Possession never changes |
| `Possession.CarriedIdempotent` | Assets/Scripts/Ball.cs:44-60 | while the holder stands still, the frames after the first carried one leave the ball where it is: a carried state is a fixed point of the next frame's Update with the same holder position |
| `Possession.TransitionsKeepWellFormed` | Assets/Scripts/Ball.cs:44-98 | Possess with a transform, Shoot and Update keep the flag set exactly when there is a holder; the ride-along then happens exactly when the flag is set |
| `Possession.PossessCarryShoot` | Assets/Scripts/Ball.cs:44-98 | a possessed ball, once carried, sits at its holder's position plus the offset and stays with that holder. Shooting it then takes it away from every non-negative index |
| `Gameplay.Ball.constructor` | Assets/Scripts/Ball.cs:11-40 | the field defaults: offsets (0.5, 0), no possession, index −9, 45°, 2 s, angle mode, and gravity scale 1 as set by Start |
| `Gameplay.Ball.Update` | Assets/Scripts/Ball.cs:44-60 | the new ball state is `Carried` of the old one with the holder's position and the ball's offsets |
| `Gameplay.Ball.InPossession` | Assets/Scripts/Ball.cs:62-65 | the answer is `IsHolder` of the ball's state |
| `Gameplay.Ball.Possess` | Assets/Scripts/Ball.cs:67-77 | given that the lookup succeeds, the new state is `Possessed` with the transform of the first player, in array order, who has the index |
| `Gameplay.Ball.Shoot` | Assets/Scripts/Ball.cs:79-158 | the new state is `Launched` of the old one, with the hoop's position (none when unset) and the ball's shot settings |
| `Gameplay.Ball.OnTriggerEnter2D` | Assets/Scripts/Ball.cs:160-169 | when there is a manager and the collider is its active hoop, the manager's ball goes to `players[0]`, and only its possession fields and velocity may change. Otherwise nothing changes |
| `Gameplay.PlayerController.constructor` | Assets/Scripts/PlayerController.cs:16-39 | the field defaults: index −1, move speed 5, decay 10, charge speed 1, meter inactive, timer 0, not frozen, multipliers 0.4 and 0.15, offset 0 |
| `Gameplay.PlayerController.Start` | Assets/Scripts/PlayerController.cs:55-61 | with a slider, the meter becomes `Started` of the old one (slider value `Clamp(0, minValue, maxValue)`, windows placed); in every case the windows get `SetWindows` of the old ones |
| `Gameplay.PlayerController.FixedUpdate` | Assets/Scripts/PlayerController.cs:64-87 | without an index nothing changes. Otherwise, unfrozen, the velocity is the input axes × moveSpeed; frozen, it is `MoveTowards` zero by `velocityDecayRate × fixedDeltaTime` |
| `Gameplay.PlayerController.SetShotWindows` | Assets/Scripts/PlayerController.cs:184-212 | the windows become `SetWindows` of the old windows |
| `Gameplay.PlayerController.ResetShotWindows` | Assets/Scripts/PlayerController.cs:178-182 | the windows become `ResetWindows` of the old windows |
| `Gameplay.PlayerController.ClearMeter` | Assets/Scripts/PlayerController.cs:129-132 | the meter becomes `Hide` of the old meter |
| `Gameplay.PlayerController.ChargeMeter` | Assets/Scripts/PlayerController.cs:117-119 | the slider value becomes one `Charge` step of the old value |
| `Gameplay.PlayerController.StartCharging` | Assets/Scripts/PlayerController.cs:113-119 | shown, windows placed, active, frozen, one charge step |
| `Gameplay.PlayerController.KeepCharging` | Assets/Scripts/PlayerController.cs:139-141 | shown and one charge step |
| `Gameplay.PlayerController.ShootBall` | Assets/Scripts/PlayerController.cs:123-125 | the meter becomes `Release` of the old one, and the ball's state becomes `Launched` |
| `Gameplay.PlayerController.CountDownMeter` | Assets/Scripts/PlayerController.cs:151-159 | the meter becomes `CountDown` of the old meter |
| `Gameplay.PlayerController.MeterFrame` | Assets/Scripts/PlayerController.cs:105-175 | the meter becomes `Tick` of the old one. The ball is `Launched` exactly when the tick fires, and is unchanged otherwise |
| `Gameplay.PlayerController.Update` | Assets/Scripts/PlayerController.cs:90-176 | with a negative index or no slider nothing changes. Otherwise the meter makes one `Tick` and the ball is shot exactly when it fires |
| `Gameplay.GameManager.constructor` | Assets/Scripts/GameManager.cs:9-16 | the references are as given, there is no active hoop yet, and `facingRight` is true |
| `Gameplay.GameManager.Update` | Assets/Scripts/GameManager.cs:38-48 | the active hoop is the right hoop if `facingRight`, else the left hoop; nothing else changes |
| `Gameplay.GameManager.Scored` | Assets/Scripts/GameManager.cs:50-53 | the ball is possessed by `players[0]`'s index with `players[0]`'s transform, whoever held it before |
| `Gameplay.GameManager.GetPlayerByIndex` | Assets/Scripts/GameManager.cs:55-65 | returns null exactly when no player has the index, and otherwise the first such player in array order; modifies nothing |

## Left out

- Unity wiring is not modelled.
  - This covers `Awake`'s singleton and `DontDestroyOnLoad`, `GetComponent`/`AddComponent`, `GameObject.Find` and `FindObjectsByType`.
  - The constructors and constructor parameters stand in for it.
  - `GameManager.instance`, which `Ball.Possess` reads, is passed to `Possess` as the parameter `registry`.
- Rigid bodies are always present, since `Start` attaches one.
  - The `rb != null` checks in `Ball` and in `PlayerController.FixedUpdate` (PlayerController.cs:72) are therefore not modelled.
  - The ball's transform position and its rigid body's velocity and gravity scale are fields of `Ball`.
  - `PlayerController.Start`'s physics and camera setup is not modelled.
- The physics engine's integration between frames is not modelled. `Projectile.PositionAt` is the ideal trajectory over the reals.
- Positions are two-dimensional. The ride-along sets the ball's z coordinate to the holder's z (the offset's z is 0); z is dropped, since `Shoot` reads positions as two-dimensional vectors and the velocity is two-dimensional.
- Camera projection and meter placement (`WorldToScreenPoint`, `shotMeterTransform`, `xOffset`) are not modelled; they are presentation only.
- Input polling is replaced by parameters: the Space key's state (`Key`: held, released or neither), the two movement axes, `Time.deltaTime` and `Time.fixedDeltaTime`.
- `Physics2D.gravity.y` is a parameter, and so are `Mathf.Sqrt`, `Sin`, `Cos` and `Tan`, which are floating-point numerics outside the scripts. No landing accuracy is claimed for the angle mode.
- Floating-point rounding is not modelled; arithmetic is over the reals. Only the ball's launch velocity represents NaN and infinity, as `NonFinite`, because it is the one place where a division by zero or the square root of a negative number can occur.
- Engine.MoveTowardsZeroBounded: holds only where the `sqrt` parameter is exact at the velocity's squared length.
- The Unity slider's setter is modelled only at Start, where `value = 0` becomes `Clamp(0, minValue, maxValue)`. Elsewhere the scripts clamp explicitly after each increment, and setting the value to `minValue` is already in range, so with `minValue <= maxValue` the setter's own clamp changes nothing. With reversed bounds or `wholeNumbers` rounding, the setter's result is not modelled.
- The `yellow`/`green` null checks in `SetShotWindows` are not modelled.
  - The two windows are non-null because `ResetShotWindows` dereferences them unguarded.
  - They are distinct objects, because aliased windows would receive each update twice.
- `Debug.LogWarning` in `Shoot` has no state and is not modelled.
- Null dereferences are preconditions rather than modelled crashes:
  - `Ball.Possess` requires that some player has the index.
  - `GameManager.Scored`, and `Ball.OnTriggerEnter2D` when it scores, require a non-empty `players` array.
  - `PlayerController.ball` (dereferenced unguarded at PlayerController.cs:107) and `GameManager.ball` (GameManager.cs:52) are non-null by their types.
- `ShotMeter.Consistent` holds from the start only under the conditions of `ShotMeter.StartedConsistent`: a slider visible at scene start, a minimum other than the clamp of 0, or windows away from zero break it. Otherwise, with `minValue <= maxValue`, the invariant holds from the first frame that resets the meter, for a holder or a non-holder (`ShotMeter.ResetEstablishesConsistent`), and sometimes earlier: the holder's first press establishes it when the windows sit at zero (`ShotMeter.PressEstablishesConsistent`). With reversed bounds it never holds (`ShotMeter.ReversedBoundsNeverConsistent`). A non-holder whose meter is inactive keeps the inconsistent state indefinitely (`ShotMeter.InactiveNonHolderUnchanged`).
- `PlayerController.Update` does not itself state that the meter stays consistent. It states that the meter makes one `ShotMeter.Tick`, and `ShotMeter.TickPreservesConsistent` proves that every tick keeps `Consistent`.
- ShotMeter.HoldingCharges: states the fill as the clamped sum of the per-frame charges `chargeSpeed·dt`. The fact that this sum is `chargeSpeed ×` the held time is the separate lemma `ShotMeter.IncrementsSum`.
- The order in which Unity runs the scripts' `Update`s within a frame is not modelled. Each method is one call.
