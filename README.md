# Saturatable reaction wheels, modelled in Dafny

A model of the momentum-saturation engine of the SaturatableRW reaction-wheel
mod. A wheel stores angular momentum. Pilot input fills the stores in
proportion to the torque the wheel can currently deliver. Every physics tick,
each store bleeds toward zero at a rate taken from a `bleedRate` response
curve. The torque a wheel may deliver shrinks as its stores fill, following a
`torqueCurve` response curve.

The two wheel classes are modelled:

- `RWSaturatable` (module `Saturatable`). It keeps three stores on fixed world
  axes, which are the Planetarium frame's forward, up and right.
  - Roll, pitch and yaw input along the vessel's up, right and forward axes
    is projected onto those world axes.
  - A control axis's torque is scaled by `min(ratiox, ratioy, ratioz, 1)`.
    A world axis with no weight gets the sentinel ratio 1000000, so it never
    binds.
  - The wheel can discharge momentum in exchange for resources. The
    resources are listed in a `"name,rate;name,rate"` configuration string
    (module `ResourceConfig`). The discharge arithmetic is in module
    `Discharge`.
- `RWSaturatable2` (module `Saturatable2`). It keeps one store per vessel
  axis and has no projection. Decay can be switched off, and each axis's
  torque is `torqueCurve(saturation) * max`.

The arithmetic both classes share is in module `Saturation`:

- `pctSaturation`;
- the sign-aware bleed toward zero;
- the per-axis capacity, `average torque * saturationScale`.

Module `Vectors` holds the vector and frame values.

Both classes are modelled as classes whose fields are the source's fields.
Their methods update those fields in place. Each method is proved against
a specification function, and the functions carry the properties:

- saturation fraction bounds;
- bleed that never crosses zero, and, for `RWSaturatable2`, drains an
  idle store at a guaranteed rate;
- the torque limiter's range, its sentinel and its binding axis;
- the exact discharge amounts and the rules that switch discharge off;
- a parser that is proved lossless, skips empty pieces and ignores a
  trailing separator.

External inputs are parameters. `TimeWarp.fixedDeltaTime` is `dt`, and
`vessel.ctrlState` is `ctrl`. The vessel transform and the Planetarium frame
are `Frame` values. `Vector3.magnitude` is a function-valued field, because
Dafny cannot define a real square root. The response curves are functions.
`part.RequestResource` is an oracle keyed by the position of the consumer in
the list. The resource-name lookup and `double.TryParse` are oracles as well.

## Model

| member | source | states |
|---|---|---|
| Saturation.PctSaturation | SaturatableRW/RWSaturatable.cs:411-417 | 0 exactly when the limit is 0, otherwise `p * limit == abs(current)`. For a positive limit, `p >= 0`, and `p <= 1` iff the store is within the limit. A negative limit gives `p <= 0` (the same method is duplicated at RWSaturatable2.cs:252-258). |
| Saturation.MoveTowardZero | SaturatableRW/RWSaturatable.cs:381-386 | The decay branches: a store within `decay` of zero lands on exactly 0. For a non-negative decay, `abs(r) == max(abs(moment) - decay, 0)`, so the store never grows and never changes sign. |
| Saturation.NegativeDecayCrossesZero | SaturatableRW/RWSaturatable.cs:380-386 | A negative decay amount (a bleed curve below zero) pushes a store away from zero and across it, which is why the bounds need `decay >= 0`. |
| Saturation.SaturationLimit | SaturatableRW/RWSaturatable.cs:198-199 | The capacity `(pitch + yaw + roll) / 3 * scale` lies between the weakest and the strongest axis times the scale. Equal torques give `torque * scale`. |
| Vectors.ProjectScale | SaturatableRW/RWSaturatable.cs:364-368 | Projecting `axis * input` onto the world axes equals scaling the projection of the axis by the input. |
| Vectors.Project | SaturatableRW/RWSaturatable.cs:394 | The coordinates of a vector along the forward, up and right axes of a frame: `torqueVec` in calcAvailableTorque and the three dot products of inputMoment (RWSaturatable.cs:366-368). Its linearity is `Vectors.ProjectScale`. |
| ResourceConfig.Split | SaturatableRW/RWSaturatable.cs:150 | `String.Split` on one separator always yields at least one piece. |
| ResourceConfig.JoinSplit | SaturatableRW/RWSaturatable.cs:150 | Splitting loses nothing: joining the pieces with the separator gives the input back. |
| ResourceConfig.SplitJoin | SaturatableRW/RWSaturatable.cs:150 | Splitting the join of separator-free pieces gives those pieces back, the other half of the round trip. |
| ResourceConfig.SplitPiecesFree | SaturatableRW/RWSaturatable.cs:150 | No piece contains the separator. |
| ResourceConfig.SplitCount | SaturatableRW/RWSaturatable.cs:150 | There is one piece more than there are separators. |
| ResourceConfig.SplitTrailingSeparator | SaturatableRW/RWSaturatable.cs:150 | A trailing separator adds exactly one empty piece at the end. |
| ResourceConfig.SplitNoSeparator | SaturatableRW/RWSaturatable.cs:154 | A string without the separator splits into itself alone. |
| ResourceConfig.TrimStart | SaturatableRW/RWSaturatable.cs:157 | The result is a suffix of the input. Everything dropped is white space, and the result does not start with white space. |
| ResourceConfig.TrimEnd | SaturatableRW/RWSaturatable.cs:157 | The result is a prefix of the input. Everything dropped is white space, and the result does not end with white space. |
| ResourceConfig.Trim | SaturatableRW/RWSaturatable.cs:157-159 | The result is a slice of the input; everything cut off on either side is white space, and the slice has no white space at either end. |
| ResourceConfig.TrimIdempotent | SaturatableRW/RWSaturatable.cs:157-159 | Trimming twice is trimming once. |
| ResourceConfig.RateOf | SaturatableRW/RWSaturatable.cs:158-159 | A rate that fails to parse stays at its initial 0; a parsed rate is kept. |
| ResourceConfig.ConsumerOf | SaturatableRW/RWSaturatable.cs:152-161 | A piece yields a consumer iff it is non-empty and splits on ',' into exactly two parts. The consumer then has the looked-up id of the trimmed name and the parsed trimmed rate. |
| ResourceConfig.Consumers | SaturatableRW/RWSaturatable.cs:150-163 | There are never more consumers than pieces. |
| ResourceConfig.ConsumersFromPieces | SaturatableRW/RWSaturatable.cs:150-163 | Every consumer in the list comes from some piece of the input. |
| ResourceConfig.ConsumersComplete | SaturatableRW/RWSaturatable.cs:152-161 | Every piece that is non-empty and splits on ',' into exactly two parts contributes its consumer to the list: no accepted piece is lost. |
| ResourceConfig.CanForceDischarge | SaturatableRW/RWSaturatable.cs:147-165 | `canForceDischarge` is set iff some parsed rate is positive. It stays false when the string is null or empty. |
| ResourceConfig.ParseResources | SaturatableRW/RWSaturatable.cs:147-163 | `dischargeResources` after OnAwake: no consumers for a null or empty string, otherwise `Consumers` of the ';'-pieces. Its properties are `ResourceConfig.TrailingSemicolonIgnored`, `ResourceConfig.ParseExample`, `ResourceConfig.ConsumersFromPieces`, `ResourceConfig.ConsumersComplete` and `ResourceConfig.BuildConsumers`. |
| ResourceConfig.TrailingSemicolonIgnored | SaturatableRW/RWSaturatable.cs:150-152 | A trailing ';' only adds an empty piece, which is skipped: the consumer list is unchanged. |
| ResourceConfig.ParseExample | SaturatableRW/RWSaturatable.cs:147-163 | On `" A , 1;;B,2,3;C"`, the empty piece, the three-part piece and the piece with no comma are all dropped. Only `A` with rate `1` remains, name and rate trimmed. |
| ResourceConfig.AddConsumer | SaturatableRW/RWSaturatable.cs:152-161 | The loop body appends exactly the consumer the piece yields, or nothing. |
| ResourceConfig.BuildConsumers | SaturatableRW/RWSaturatable.cs:149-165 | The loop over the pieces builds exactly the specified consumer list, in order. The discharge flag it reports is true iff some consumer's rate is positive. |
| Discharge.Removal | SaturatableRW/RWSaturatable.cs:294-296 | `Math.Min(moment, momentumToRemove)`: the store left behind is `max(moment - toRemove, 0)`, so it is never negative. A store at or below zero is removed whole. |
| Discharge.MomentumToRemove | SaturatableRW/RWSaturatable.cs:293 | `fixedDeltaTime * recoveryRate * saturationLimit`, the most one store gives up in a tick; its use is bounded by `Discharge.Removal` and `Discharge.RequestFraction`. |
| Discharge.Discharged | SaturatableRW/RWSaturatable.cs:309-311 | After the subtraction no store is negative, and the stores plus what was removed give back the old stores. |
| Discharge.DischargeIsMoveTowardZero | SaturatableRW/RWSaturatable.cs:294-311 | On a non-negative store, discharge is the same saturating move toward zero that bleed uses. |
| Discharge.RequestFraction | SaturatableRW/RWSaturatable.cs:297 | The requested share of the full rate times `3 * toRemove` is the momentum the three removals take, so less removed means less requested. It is at most 1, and exactly 1 when every store holds a full removal. It is negative exactly when the removals sum below 0, so it is non-negative when no store is negative, and 0 when all stores are empty. |
| Discharge.Requests | SaturatableRW/RWSaturatable.cs:299-301 | Each consumer is asked for `Rate * fraction * dt`, in list order. With a fraction of at most 1, no request exceeds `Rate * dt`. |
| Discharge.StillDischarging | SaturatableRW/RWSaturatable.cs:302-314 | Discharge stays on only if no consumer fell short of 99% of its request and some store is still non-zero. Any shortfall turns it off. |
| Discharge.Shortfall | SaturatableRW/RWSaturatable.cs:303 | `actual < amount * 0.99`. How it switches discharge off is stated by `Discharge.StillDischarging`, `Discharge.RequestAll` and `Discharge.NegativeRequestFullDeliveryFallsShort`. |
| Discharge.RequestAll | SaturatableRW/RWSaturatable.cs:299-307 | The loop asks every consumer, even after a shortfall, records each request and delivery, and clears the flag iff some delivery fell below 99%. |
| Discharge.NegativeStoreEmptiedAtOnce | SaturatableRW/RWSaturatable.cs:294-311 | As written, a store at -10 is emptied in one tick, not bled by `momentumToRemove`. |
| Discharge.NegativeStoreNegativeRequest | SaturatableRW/RWSaturatable.cs:297 | As written, stores (-10, 0, 0) make the request fraction negative. In general it is negative exactly when the three removals sum below 0 (`Discharge.RequestFraction`). |
| Discharge.NegativeRequestFullDeliveryFallsShort | SaturatableRW/RWSaturatable.cs:299-305 | For a negative request the 99% test is inverted: a full delivery counts as a shortfall and switches discharge off, while a delivery of nothing is no shortfall and, with a store left non-zero, keeps discharge on. |
| Saturatable.AxisRatio | SaturatableRW/RWSaturatable.cs:397-403 | Each world-axis ratio is non-negative. An unweighted axis gets the 1000000 sentinel. |
| Saturatable.AxisRatioExact | SaturatableRW/RWSaturatable.cs:398-403 | A weighted axis's ratio is exactly the scale at which its share of the torque meets its curve value. |
| Saturatable.Min4 | SaturatableRW/RWSaturatable.cs:405 | `Mathf.Min` of four values is one of them and below all of them. |
| Saturatable.TorqueScale | SaturatableRW/RWSaturatable.cs:396-405 | The scale `min(ratiox, ratioy, ratioz, 1)` lies in [0, 1], and no weighted axis is asked for more than its curve allows. It is 1 iff every world axis covers its weight. Below 1, a weighted axis binds, never a sentinel. |
| Saturatable.UnweightedAxisIgnored | SaturatableRW/RWSaturatable.cs:397-403 | The scale does not depend on the store of a world axis the control axis has no weight on. |
| Saturatable.DecayTorque | SaturatableRW/RWSaturatable.cs:376-378 | `torqueMag`: the magnitude of the nominal torques weighted by the vessel axes' alignment with the world axis. It enters `Saturatable.DecayMomentBounds` and `Saturatable.IdleStoreShrinks` through its sign. |
| Saturatable.DecayAmount | SaturatableRW/RWSaturatable.cs:380 | `torqueMag * bleedRate(pctSaturation) * fixedDeltaTime`; non-negative for non-negative factors, by `Saturation.NonNegativeProduct`, as used in `Saturatable.DecayMomentBounds`. |
| Saturatable.DecayMoment | SaturatableRW/RWSaturatable.cs:374-387 | One store after a tick of bleed, `Saturation.MoveTowardZero` by `DecayAmount`. Its properties are `Saturatable.DecayMomentBounds` and `Saturatable.IdleStoreShrinks`. |
| Saturatable.CalcAvailableTorque | SaturatableRW/RWSaturatable.cs:392-406 | For a non-negative magnitude and nominal torque, the torque lies in `[0, magnitude * maxAxisTorque]`. It reaches the top when no world axis is saturated past its weight. For a positive magnitude and torque, it stays strictly below the top as soon as one weighted axis is saturated. |
| Saturatable.DecayMomentBounds | SaturatableRW/RWSaturatable.cs:374-387 | A store within one decay step of zero lands on 0. With a non-negative torque magnitude, bleed value and `dt`, the store moves toward zero by the decay amount without crossing it. |
| Saturatable.ApplyInputLinear | SaturatableRW/RWSaturatable.cs:320-332 | The three `inputMoment` calls add the world projections of the vessel's up, right and forward axes, weighted by that axis's `dt * input * available` impulse. |
| Saturatable.InputDelta | SaturatableRW/RWSaturatable.cs:362-369 | What one inputMoment call adds to the three stores; `Saturatable.RWSaturatable.InputMoment` is proved to add exactly it. |
| Saturatable.ApplyInput | SaturatableRW/RWSaturatable.cs:320-332 | The stores after the Active block: roll, pitch and yaw InputDelta in source order. Its closed form is `Saturatable.ApplyInputLinear`, and `Saturatable.RWSaturatable.ApplyPilotInput` is proved to compute it. |
| Saturatable.DecayStores | SaturatableRW/RWSaturatable.cs:336-338 | Each store decayed along its own world axis, forward, up and right. |
| Saturatable.MomentumStep | SaturatableRW/RWSaturatable.cs:317-339 | updateMomentum on the stores: input when Active, then decay. Its properties are `Saturatable.InputOnlyWhenActive` and `Saturatable.IdleStoresNeverGrow`, and `Saturatable.RWSaturatable.UpdateMomentum` is proved to compute it. |
| Saturatable.InputOnlyWhenActive | SaturatableRW/RWSaturatable.cs:317-339 | A wheel that is not Active changes its stores only by decay, whatever the input. An Active wheel with zero input behaves the same. |
| Saturatable.IdleStoresNeverGrow | SaturatableRW/RWSaturatable.cs:317-339 | With no input, a non-negative bleed curve, magnitude and `dt`, no store grows in magnitude or changes sign over a tick. |
| Saturatable.IdleStoreShrinks | SaturatableRW/RWSaturatable.cs:374-387 | With a non-negative bleed curve, magnitude and `dt`, one decay never grows a store or flips its sign. |
| Saturatable.AvailableTorques | SaturatableRW/RWSaturatable.cs:347-355 | The available torques, `abs(calcAvailableTorque)`, are never negative. Each is bounded by the projection length times that axis's nominal torque. Each equals that product when its control axis is unsaturated, and for a positive length and torque is below it when saturated. |
| Saturatable.AxisAvailableTorque | SaturatableRW/RWSaturatable.cs:347-355 | One control axis of updateTorque: `abs(calcAvailableTorque)` keeps the bound and both directions of the full-torque test. |
| Saturatable.RWSaturatable.constructor | SaturatableRW/RWSaturatable.cs:95-115 | A loaded wheel is not discharging, has no consumers and cannot force discharge. Its stores are the persisted ones. |
| Saturatable.RWSaturatable.OnAwake | SaturatableRW/RWSaturatable.cs:147-166 | A null or empty `resources` leaves the list and flag alone. Otherwise the list becomes the parsed consumers, and the flag is set iff some rate is positive. |
| Saturatable.RWSaturatable.OnStart | SaturatableRW/RWSaturatable.cs:191-199 | The nominal maxima become the current torques, and the capacity is set from their average. |
| Saturatable.RWSaturatable.GetInfo | SaturatableRW/RWSaturatable.cs:242-245 | The capacity is recomputed from the current torques. |
| Saturatable.RWSaturatable.ToggleDischarge | SaturatableRW/RWSaturatable.cs:91-95 | Flips `bConsumeResource`. No code in the source sets the flag to true (the wheel only clears it, at RWSaturatable.cs:305 and :314); its documentation says the window toggles it, and this method stands for that toggle. |
| Saturatable.RWSaturatable.UseResourcesToRecover | SaturatableRW/RWSaturatable.cs:288-315 | Without both flags nothing changes. Otherwise the stores become `Discharged`, the requests are `Requests` in order, every consumer is asked once, and the flag afterwards is `StillDischarging`. |
| Saturatable.RWSaturatable.InputMoment | SaturatableRW/RWSaturatable.cs:362-369 | The stores grow by the world projection of `vesselAxis * input`. |
| Saturatable.RWSaturatable.ApplyPilotInput | SaturatableRW/RWSaturatable.cs:320-332 | The Active block adds roll, pitch and yaw input, each scaled by last tick's available torque. |
| Saturatable.RWSaturatable.UpdateMomentum | SaturatableRW/RWSaturatable.cs:317-339 | The new stores are `MomentumStep`: input when Active, then decay of each store along its world axis. |
| Saturatable.RWSaturatable.UpdateTorque | SaturatableRW/RWSaturatable.cs:341-357 | The available torques are `AvailableTorques` of the current stores. The control torques are all 0 while discharging, and equal to the available ones otherwise. |
| Saturatable.RWSaturatable.Tick | SaturatableRW/RWSaturatable.cs:272-286 | Discharge, then momentum update on the discharged stores with last tick's available torque, then torque update. The resulting stores, flag and torques are stated outright. |
| Saturatable2.DecayMomentBounds | SaturatableRW/RWSaturatable2.cs:238-247 | A store within one decay step of zero lands on 0. With a non-negative axis torque, bleed value and `dt`, the store moves toward zero by the decay amount and never crosses it. |
| Saturatable2.DecayAmount | SaturatableRW/RWSaturatable2.cs:240 | `maxTorque * bleedRate(pctSaturation) * fixedDeltaTime`; with a limit of 0 it does not depend on the store, by `Saturatable2.UnsetLimitIgnoresStore`. |
| Saturatable2.DecayMoment | SaturatableRW/RWSaturatable2.cs:238-247 | One store after a tick of bleed. Its properties are `Saturatable2.DecayMomentBounds`, `Saturatable2.StepDrains` and `Saturatable2.IdleDrains`. |
| Saturatable2.AxisStep | SaturatableRW/RWSaturatable2.cs:185-199 | One axis of updateMomentum: the input impulse while Active, then decay when decayMomentum is set. Its properties are `Saturatable2.NoDecayIntegrates` and `Saturatable2.IdleAxisNeverGrows`, and `Saturatable2.UpdateAxis` is proved to compute it. |
| Saturatable2.NoDecayIntegrates | SaturatableRW/RWSaturatable2.cs:187-199 | With decay off, an Active axis grows by exactly `dt * input * available`. Without input, or when not Active, it stays put. |
| Saturatable2.IdleAxisNeverGrows | SaturatableRW/RWSaturatable2.cs:185-200 | With no input, a non-negative axis torque, bleed curve and `dt`, a store never grows in magnitude or flips sign, with decay on or off. |
| Saturatable2.IdleDrains | SaturatableRW/RWSaturatable2.cs:194-199 | With a bleed curve bounded below by `b`, `n` idle ticks drain a store by at least `n * maxTorque * b * dt`. It reaches exactly 0 once that covers it. |
| Saturatable2.IdleDrainsBy | SaturatableRW/RWSaturatable2.cs:238-247 | If every decay step drains at least `k`, then `n` steps drain at least `n * k`, by induction on `n`. |
| Saturatable2.StepDrains | SaturatableRW/RWSaturatable2.cs:238-247 | One decay with a bleed curve bounded below by `b` drains at least `maxTorque * b * dt`. |
| Saturatable2.AxisTorque | SaturatableRW/RWSaturatable2.cs:204-211 | For a curve with values in [0, 1] and a non-negative max, the axis torque lies in [0, max]. An empty store, or an unset limit, gets `torqueCurve(0) * max`. |
| Saturatable2.UnsetLimitIgnoresStore | SaturatableRW/RWSaturatable2.cs:204-211 | While the limit is still 0, neither an axis's torque nor its decay amount depends on its store. |
| Saturatable2.UpdateAxis | SaturatableRW/RWSaturatable2.cs:185-199 | One axis's statements of updateMomentum compute exactly `AxisStep`. |
| Saturatable2.RWSaturatable2.constructor | SaturatableRW/RWSaturatable2.cs:85-86 | A loaded wheel has the persisted stores and decay switch, and a capacity of 0. |
| Saturatable2.RWSaturatable2.ToggleDecay | SaturatableRW/RWSaturatable2.cs:89-92 | The decay switch flips, and nothing else changes, so two toggles restore it. |
| Saturatable2.RWSaturatable2.OnStart | SaturatableRW/RWSaturatable2.cs:107-123 | Only the nominal maxima are set. The capacity is left as it was. |
| Saturatable2.RWSaturatable2.GetInfo | SaturatableRW/RWSaturatable2.cs:140-147 | The capacity is set from the average of the current torques. |
| Saturatable2.RWSaturatable2.UpdateMomentum | SaturatableRW/RWSaturatable2.cs:185-200 | Each axis becomes `AxisStep` of its own old store, input, available torque and max torque, with no cross-axis coupling. |
| Saturatable2.RWSaturatable2.UpdateTorque | SaturatableRW/RWSaturatable2.cs:202-212 | Each available torque is `torqueCurve(pctSaturation) * max` of its own axis. The control torques equal the available ones. |
| Saturatable2.RWSaturatable2.Tick | SaturatableRW/RWSaturatable2.cs:173-183 | The momentum update with last tick's available torques, then the torque update on the new stores. |

## Left out

- `Window.cs`, `VesselInfo.cs`, `MomentumDischargeThruster.cs`, `registerWheel`, `OnDestroy` and `ToggleWindow`: user interface, a per-vessel registry of wheels, and a wrapper around an RCS module. None of them holds saturation logic.
- No code in the source sets `bConsumeResource` to true; the wheel only clears it, at RWSaturatable.cs:305 and :314. `Window.cs` toggles only the window and the wheel's Active state. The field's documentation (RWSaturatable.cs:92-93) says the window toggles it, and `ToggleDischarge` stands for that toggle. Without it, discharge could never start.
- `LoadConfig`, `loggingRoutine`, the text of `GetInfo`, `init_Line` and the screen message on a shortfall: configuration-file I/O, logging coroutines and display strings.
- `LoadConfig` can disable a wheel at load time when `DefaultStateIsActive` is false in an atmosphere. The model takes the wheel's Active state as given.
- `resistDirectionChange` (RWSaturatable2.cs:214-233): it applies torques to the Unity rigid body, a physics-engine side effect. `Saturatable2.RWSaturatable2.Tick` stops after the torque update.
- The `OnFixedUpdate` guard that returns outside flight or before `FlightGlobals.ready`. Both `Tick` methods model a tick that passes it. `OnStart`'s flight-scene guard is likewise taken as passed.
- `part.force_activate` and the creation of empty `FloatCurve`s when a curve is missing: engine plumbing. A curve is any function here.
- `FloatCurve` interpolation: the curves are arbitrary functions `real -> real`. Properties that need a sign or a range take it as a precondition.
- `PartResourceLibrary` name lookup: modelled as a total function. In the source, an unknown name makes `FirstOrDefault` return null, and reading `.id` then throws.
- `double.TryParse`: modelled as an oracle returning an optional number.
- `part.RequestResource`: modelled as an oracle `request(i, amount)` keyed by the consumer's position. How the part's resources actually flow is not modelled.
- IEEE single and double precision, rounding, NaN and infinities: all quantities are exact reals. Float truncation of the double `resourcePctToRequest`, and the rounding of the 0.99 threshold, are not modelled.
- `Vector3.magnitude`: a function-valued field, because a square root is not definable here. Properties that need it non-negative say so. Orthonormality of the vessel and Planetarium frames is not assumed, and no proof needs it.
- Saturatable.RWSaturatable.UseResourcesToRecover: requires `momentumToRemove > 0` when discharging. The source divides by `3 * momentumToRemove` without a guard, which in floating point yields NaN or an infinity that the model does not represent.
- Saturatable.RWSaturatable.Tick: carries the same `momentumToRemove > 0` requirement, for the same reason.
- Discharge.RequestFraction: requires `toRemove > 0`, for the same division.
- Saturatable.RWSaturatable.UpdateTorque: the three roll, pitch and yaw statement pairs are modelled as one computation of the three available torques, followed by the three control torques. No statement reads a field another one writes, so the order makes no difference.
- Where the code behaves other than its comments and names suggest, the code is modelled:
  - `pctSaturation` guards only a limit of exactly 0, so a negative limit gives a non-positive fraction.
  - `updateMomentum` still adds pilot input while discharge is on, and only the control torques are zeroed.
  - Discharge reduces the stores even after a resource request falls short.
  - A negative store is emptied in one tick (`NegativeStoreEmptiedAtOnce`). The request fraction is negative exactly when the three removals sum below 0, as with stores (-10, 0, 0) (`NegativeStoreNegativeRequest`); stores such as (-0.1, 5, 5) still give a positive fraction.
  - For a negative request, `actual < amount * 0.99` is inverted: a delivery of more than 99% of it counts as a shortfall and switches discharge off, while a delivery of nothing does not (`NegativeRequestFullDeliveryFallsShort`).
