/** The saturation arithmetic both wheel classes share: the saturation
    fraction fed to the response curves, the sign-aware bleed toward zero,
    and the per-axis momentum capacity. The two source classes each carry
    an identical private copy of the first two; they are defined once here. */
module Saturation {

  function Abs(x: real): real
  {
    if x < 0.0 then -x else x
  }

  function Max(a: real, b: real): real
  {
    if a < b then b else a
  }

  function Min(a: real, b: real): real
  {
    if a < b then a else b
  }

  /** fixedDeltaTime * control input * available torque: what one tick of
      pilot input on one axis adds to a momentum store. */
  function Impulse(dt: real, input: real, torque: real): real
  {
    dt * input * torque
  }

  /** A product of three non-negative factors is non-negative. */
  lemma NonNegativeProduct(a: real, b: real, c: real)
    ensures a >= 0.0 && b >= 0.0 && c >= 0.0 ==> a * b * c >= 0.0
  {
    if a >= 0.0 && b >= 0.0 && c >= 0.0 {
      assert a * b >= 0.0;
    }
  }

  /** `p` is `part` measured in units of `whole`: p * whole == part. */
  predicate IsFraction(p: real, part: real, whole: real)
  {
    p * whole == part
  }

  /** pctSaturation: how full an axis store is, as a fraction of the limit.
      Only a limit of exactly 0 is guarded; a negative limit is divided by
      and yields a non-positive fraction. */
  function PctSaturation(current: real, limit: real): (p: real)
    ensures limit == 0.0 ==> p == 0.0
    ensures limit != 0.0 ==> IsFraction(p, Abs(current), limit)
    ensures limit > 0.0 ==> p >= 0.0 && (p <= 1.0 <==> Abs(current) <= limit)
    ensures limit < 0.0 ==> p <= 0.0
  {
    if limit != 0.0 then Abs(current) / limit else 0.0
  }

  /** The branch shared by both decayMoment methods: move `moment` toward 0
      by `decay`, landing on exactly 0 rather than crossing it. */
  function MoveTowardZero(moment: real, decay: real): (r: real)
    ensures Abs(moment) <= decay ==> r == 0.0
    ensures decay >= 0.0 ==> Abs(r) == Max(Abs(moment) - decay, 0.0)
    ensures decay >= 0.0 ==> r == 0.0 || (r > 0.0 <==> moment > 0.0)
    ensures decay >= 0.0 ==> Abs(r) <= Abs(moment)
  {
    if moment > decay then moment - decay
    else if moment < -decay then moment + decay
    else 0.0
  }

  /** A negative decay amount (a bleed curve that dips below zero) pushes a
      store away from zero and can even carry it across zero, which is why
      the properties above ask for `decay >= 0`. */
  lemma NegativeDecayCrossesZero()
    ensures MoveTowardZero(-0.5, -1.0) == 0.5
    ensures MoveTowardZero(0.0, -1.0) == 1.0
  {
  }

  /** saturationLimit = averageTorque * saturationScale, where averageTorque
      is the mean of the three nominal axis torques: the capacity lies
      between the weakest and the strongest axis, scaled. */
  function SaturationLimit(pitch: real, yaw: real, roll: real, scale: real): (limit: real)
    ensures scale >= 0.0 ==>
      Min(pitch, Min(yaw, roll)) * scale <= limit <= Max(pitch, Max(yaw, roll)) * scale
    ensures pitch == yaw == roll ==> limit == pitch * scale
  {
    (pitch + yaw + roll) / 3.0 * scale
  }
}
