/** RWSaturatable2: the simpler wheel, whose momentum is stored on the
    vessel's own pitch, roll and yaw axes. Each axis fills with that axis's
    pilot input, optionally bleeds toward zero, and scales its own torque
    by the torque curve at its own saturation; the axes never interact. */
module Saturatable2 {
  import opened Vectors
  import opened Saturation

  /** decay = maxTorque * bleedRate(pctSaturation) * fixedDeltaTime. */
  function DecayAmount(moment: real, maxTorque: real, limit: real, bleed: real -> real, dt: real): real
  {
    maxTorque * bleed(PctSaturation(moment, limit)) * dt
  }

  /** decayMoment: the store after one tick of bleed. */
  function DecayMoment(moment: real, maxTorque: real, limit: real, bleed: real -> real, dt: real): real
  {
    MoveTowardZero(moment, DecayAmount(moment, maxTorque, limit, bleed, dt))
  }

  /** A store within one decay step of zero lands on exactly 0; with a
      non-negative axis torque, bleed value and time step, a store moves
      toward zero by the decay amount and never crosses it. */
  lemma DecayMomentBounds(moment: real, maxTorque: real, limit: real, bleed: real -> real, dt: real)
    ensures var r := DecayMoment(moment, maxTorque, limit, bleed, dt);
      Abs(moment) <= DecayAmount(moment, maxTorque, limit, bleed, dt) ==> r == 0.0
    ensures var r := DecayMoment(moment, maxTorque, limit, bleed, dt);
      maxTorque >= 0.0 && bleed(PctSaturation(moment, limit)) >= 0.0 && dt >= 0.0 ==>
      Abs(r) == Max(Abs(moment) - DecayAmount(moment, maxTorque, limit, bleed, dt), 0.0)
      && (r == 0.0 || (r > 0.0 <==> moment > 0.0))
  {
    NonNegativeProduct(maxTorque, bleed(PctSaturation(moment, limit)), dt);
  }

  /** updateMomentum for one axis: fixedDeltaTime * input * available
      torque is added while the wheel is Active, then the store decays
      when decayMomentum is set. */
  function AxisStep(moment: real, active: bool, decay: bool, input: real, available: real, maxTorque: real,
                    limit: real, bleed: real -> real, dt: real): real
  {
    var grown := if active then moment + Impulse(dt, input, available) else moment;
    if decay then DecayMoment(grown, maxTorque, limit, bleed, dt) else grown
  }

  /** With decay switched off the store is a pure integrator: it keeps
      exactly what the pilot put in, and stays put without input. */
  lemma NoDecayIntegrates(moment: real, active: bool, input: real, available: real, maxTorque: real,
                          limit: real, bleed: real -> real, dt: real)
    ensures active ==> AxisStep(moment, active, false, input, available, maxTorque, limit, bleed, dt)
                       - moment == dt * input * available
    ensures !active || input == 0.0 ==> AxisStep(moment, active, false, input, available, maxTorque, limit, bleed, dt) == moment
  {
  }

  /** With no pilot input (or a disabled wheel), a non-negative axis torque,
      bleed curve and time step, a store never grows in magnitude and never
      changes sign, whatever the decay switch says. */
  lemma IdleAxisNeverGrows(moment: real, active: bool, decay: bool, available: real, maxTorque: real,
                           limit: real, bleed: real -> real, dt: real, input: real)
    requires !active || input == 0.0
    requires maxTorque >= 0.0 && dt >= 0.0
    requires forall p :: bleed(p) >= 0.0
    ensures var after := AxisStep(moment, active, decay, input, available, maxTorque, limit, bleed, dt);
      Abs(after) <= Abs(moment) && (after == 0.0 || (after > 0.0 <==> moment > 0.0))
  {
    assert bleed(PctSaturation(moment, limit)) >= 0.0;
    DecayMomentBounds(moment, maxTorque, limit, bleed, dt);
  }

  /** `n` idle ticks of decay on one axis. */
  function Idle(moment: real, n: nat, maxTorque: real, limit: real, bleed: real -> real, dt: real): real
    decreases n
  {
    if n == 0 then moment else Idle(DecayMoment(moment, maxTorque, limit, bleed, dt), n - 1, maxTorque, limit, bleed, dt)
  }

  /** `after` is at least `amount` closer to zero than `before`, or zero. */
  predicate DrainedBy(after: real, before: real, amount: real)
  {
    Abs(after) <= Max(Abs(before) - amount, 0.0)
  }

  /** A bleed curve bounded below by `b > 0` drains an idle store by at
      least maxTorque * b * dt per tick, so after n ticks what is left is
      at most |moment| - n * maxTorque * b * dt, and a store is empty once
      n such steps cover it. */
  lemma IdleDrains(moment: real, n: nat, maxTorque: real, limit: real, bleed: real -> real, dt: real, b: real)
    requires maxTorque >= 0.0 && dt >= 0.0 && b >= 0.0
    requires forall p :: bleed(p) >= b
    ensures DrainedBy(Idle(moment, n, maxTorque, limit, bleed, dt), moment, (n as real) * (maxTorque * b * dt))
    ensures (n as real) * (maxTorque * b * dt) >= Abs(moment) ==> Idle(moment, n, maxTorque, limit, bleed, dt) == 0.0
  {
    hide Idle, DecayMoment;
    EveryStepDrains(maxTorque, limit, bleed, dt, b);
    StepAtLeast(maxTorque, b, b, dt);
    IdleDrainsBy(moment, n, maxTorque, limit, bleed, dt, maxTorque * b * dt);
  }

  lemma EveryStepDrains(maxTorque: real, limit: real, bleed: real -> real, dt: real, b: real)
    requires maxTorque >= 0.0 && dt >= 0.0 && b >= 0.0
    requires forall p :: bleed(p) >= b
    ensures forall m :: DrainedBy(DecayMoment(m, maxTorque, limit, bleed, dt), m, maxTorque * b * dt)
  {
    forall m
      ensures DrainedBy(DecayMoment(m, maxTorque, limit, bleed, dt), m, maxTorque * b * dt)
    {
      StepDrains(m, maxTorque, limit, bleed, dt, b);
    }
  }

  /** The induction behind IdleDrains: when every tick takes at least k,
      n ticks take at least n * k. */
  lemma {:induction false} IdleDrainsBy(moment: real, n: nat, maxTorque: real, limit: real, bleed: real -> real,
                                        dt: real, k: real)
    requires k >= 0.0
    requires forall m :: DrainedBy(DecayMoment(m, maxTorque, limit, bleed, dt), m, k)
    decreases n
    ensures DrainedBy(Idle(moment, n, maxTorque, limit, bleed, dt), moment, (n as real) * k)
    ensures (n as real) * k >= Abs(moment) ==> Idle(moment, n, maxTorque, limit, bleed, dt) == 0.0
  {
    hide *;
    if n > 0 {
      var next := DecayMoment(moment, maxTorque, limit, bleed, dt);
      IdleUnfold(moment, n, maxTorque, limit, bleed, dt);
      IdleDrainsBy(next, n - 1, maxTorque, limit, bleed, dt, k);
      CountedSteps(n, k);
      DrainChain(Idle(next, n - 1, maxTorque, limit, bleed, dt), next, moment, k, ((n - 1) as real) * k, (n as real) * k);
    } else {
      IdleZero(moment, maxTorque, limit, bleed, dt);
      NoDrain(moment);
    }
  }

  lemma NoDrain(x: real)
    ensures DrainedBy(x, x, 0.0)
    ensures 0.0 >= Abs(x) ==> x == 0.0
  {
  }

  lemma IdleUnfold(moment: real, n: nat, maxTorque: real, limit: real, bleed: real -> real, dt: real)
    requires n > 0
    ensures Idle(moment, n, maxTorque, limit, bleed, dt)
         == Idle(DecayMoment(moment, maxTorque, limit, bleed, dt), n - 1, maxTorque, limit, bleed, dt)
  {
  }

  lemma IdleZero(moment: real, maxTorque: real, limit: real, bleed: real -> real, dt: real)
    ensures Idle(moment, 0, maxTorque, limit, bleed, dt) == moment
  {
  }

  /** One tick of decay under a bleed curve bounded below by b takes at
      least maxTorque * b * dt from the store (or empties it). */
  lemma StepDrains(moment: real, maxTorque: real, limit: real, bleed: real -> real, dt: real, b: real)
    requires maxTorque >= 0.0 && dt >= 0.0 && b >= 0.0
    requires forall p :: bleed(p) >= b
    ensures DrainedBy(DecayMoment(moment, maxTorque, limit, bleed, dt), moment, maxTorque * b * dt)
  {
    var bleedHere := bleed(PctSaturation(moment, limit));
    assert bleedHere >= b;
    DecayMomentBounds(moment, maxTorque, limit, bleed, dt);
    StepAtLeast(maxTorque, bleedHere, b, dt);
  }

  lemma CountedSteps(n: nat, k: real)
    requires n > 0 && k >= 0.0
    ensures ((n - 1) as real) * k >= 0.0
    ensures (n as real) * k == ((n - 1) as real) * k + k
  {
  }

  /** Draining by k and then by j is draining by k + j, and a store drained
      by more than its own magnitude is empty. */
  lemma DrainChain(last: real, mid: real, first: real, k: real, j: real, total: real)
    requires k >= 0.0 && j >= 0.0 && total == j + k
    requires DrainedBy(last, mid, j)
    requires DrainedBy(mid, first, k)
    ensures DrainedBy(last, first, total)
    ensures total >= Abs(first) ==> last == 0.0
  {
  }

  lemma StepAtLeast(maxTorque: real, bleedHere: real, b: real, dt: real)
    requires maxTorque >= 0.0 && dt >= 0.0 && bleedHere >= b >= 0.0
    ensures maxTorque * bleedHere * dt >= maxTorque * b * dt >= 0.0
  {
    assert maxTorque * dt >= 0.0;
    assert maxTorque * bleedHere * dt == (maxTorque * dt) * bleedHere;
    assert maxTorque * b * dt == (maxTorque * dt) * b;
    assert (maxTorque * dt) * bleedHere >= (maxTorque * dt) * b;
  }

  /** updateTorque for one axis: torqueCurve(pctSaturation) * maxTorque.
      For a curve with values in [0, 1] and a non-negative nominal torque
      it lies between 0 and the nominal torque; an empty store gets
      torqueCurve(0) of it, and so does every store while the limit is 0. */
  function AxisTorque(moment: real, maxTorque: real, limit: real, curve: real -> real): (t: real)
    ensures (forall p :: 0.0 <= curve(p) <= 1.0) && maxTorque >= 0.0 ==> 0.0 <= t <= maxTorque
    ensures moment == 0.0 || limit == 0.0 ==> t == curve(0.0) * maxTorque
  {
    var c := curve(PctSaturation(moment, limit));
    CurveScaled(c, maxTorque);
    c * maxTorque
  }

  lemma CurveScaled(c: real, maxTorque: real)
    ensures 0.0 <= c <= 1.0 && maxTorque >= 0.0 ==> 0.0 <= c * maxTorque <= maxTorque
  {
    if 0.0 <= c <= 1.0 && maxTorque >= 0.0 {
      assert c * maxTorque <= 1.0 * maxTorque;
    }
  }

  /** Until GetInfo has set the limit it is 0, and then neither the torque
      nor the decay amount of an axis depends on how much it stores. */
  lemma UnsetLimitIgnoresStore(m1: real, m2: real, maxTorque: real, curve: real -> real, bleed: real -> real, dt: real)
    ensures AxisTorque(m1, maxTorque, 0.0, curve) == AxisTorque(m2, maxTorque, 0.0, curve)
    ensures DecayAmount(m1, maxTorque, 0.0, bleed, dt) == DecayAmount(m2, maxTorque, 0.0, bleed, dt)
  {
  }

  /** The statements of updateMomentum that touch one axis, in order: add
      the input while Active, then apply decayMoment when decay is on. */
  method UpdateAxis(moment: real, active: bool, decay: bool, input: real, available: real, maxTorque: real,
                    limit: real, bleed: real -> real, dt: real) returns (r: real)
    ensures r == AxisStep(moment, active, decay, input, available, maxTorque, limit, bleed, dt)
  {
    r := moment;
    if active {
      r := r + Impulse(dt, input, available);
    }
    if decay {
      r := DecayMoment(r, maxTorque, limit, bleed, dt);
    }
  }

  class RWSaturatable2 {
    // Configuration read from the part definition.
    const saturationScale: real
    const torqueCurve: real -> real
    const bleedRate: real -> real

    // State of the underlying ModuleReactionWheel.
    var active: bool
    var rollTorque: real
    var pitchTorque: real
    var yawTorque: real

    // Persisted momentum on the vessel's pitch (right), roll (forward) and
    // yaw (up) axes, and the persisted decay switch.
    var pitchMoment: real
    var rollMoment: real
    var yawMoment: real
    var decayMomentum: bool

    var saturationLimit: real
    var maxRollTorque: real
    var maxPitchTorque: real
    var maxYawTorque: real
    var availableRollTorque: real
    var availablePitchTorque: real
    var availableYawTorque: real

    function Control(): Axes
      reads this
    {
      Axes(rollTorque, pitchTorque, yawTorque)
    }

    function Available(): Axes
      reads this
    {
      Axes(availableRollTorque, availablePitchTorque, availableYawTorque)
    }

    /** A wheel as loaded: decay on unless the save says otherwise, and no
      capacity until GetInfo computes one. */
    constructor (saturationScale: real, torqueCurve: real -> real, bleedRate: real -> real,
                 torque: Axes, active: bool, persisted: Axes, decayMomentum: bool)
      ensures this.saturationScale == saturationScale && this.torqueCurve == torqueCurve
      ensures this.bleedRate == bleedRate && this.active == active && Control() == torque
      ensures rollMoment == persisted.roll && pitchMoment == persisted.pitch && yawMoment == persisted.yaw
      ensures this.decayMomentum == decayMomentum
      ensures saturationLimit == 0.0 && Available() == NoAxes
      ensures maxRollTorque == 0.0 && maxPitchTorque == 0.0 && maxYawTorque == 0.0
    {
      this.saturationScale := saturationScale;
      this.torqueCurve := torqueCurve;
      this.bleedRate := bleedRate;
      this.active := active;
      rollTorque, pitchTorque, yawTorque := torque.roll, torque.pitch, torque.yaw;
      rollMoment, pitchMoment, yawMoment := persisted.roll, persisted.pitch, persisted.yaw;
      this.decayMomentum := decayMomentum;
      saturationLimit := 0.0;
      maxRollTorque, maxPitchTorque, maxYawTorque := 0.0, 0.0, 0.0;
      availableRollTorque, availablePitchTorque, availableYawTorque := 0.0, 0.0, 0.0;
    }

    /** ToggleDecay: flip the decay switch; nothing else changes, so two
      toggles restore it. */
    method ToggleDecay()
      modifies this`decayMomentum
      ensures decayMomentum == !old(decayMomentum)
    {
      decayMomentum := !decayMomentum;
    }

    /** OnStart in flight: remember the configured torques as the nominal
      maxima. The capacity is left as it is. */
    method OnStart()
      modifies this`maxRollTorque, this`maxPitchTorque, this`maxYawTorque
      ensures maxRollTorque == rollTorque && maxPitchTorque == pitchTorque && maxYawTorque == yawTorque
    {
      maxRollTorque := rollTorque;
      maxPitchTorque := pitchTorque;
      maxYawTorque := yawTorque;
    }

    /** The capacity part of GetInfo: the per-axis limit from the average of
      the current torques. */
    method GetInfo()
      modifies this`saturationLimit
      ensures saturationLimit == SaturationLimit(pitchTorque, yawTorque, rollTorque, saturationScale)
    {
      saturationLimit := SaturationLimit(pitchTorque, yawTorque, rollTorque, saturationScale);
    }

    /** updateMomentum: each axis takes its own input and decays on its own. */
    method UpdateMomentum(dt: real, ctrl: Axes)
      modifies this`pitchMoment, this`rollMoment, this`yawMoment
      ensures pitchMoment == AxisStep(old(pitchMoment), active, decayMomentum, ctrl.pitch, availablePitchTorque,
                                      maxPitchTorque, saturationLimit, bleedRate, dt)
      ensures rollMoment == AxisStep(old(rollMoment), active, decayMomentum, ctrl.roll, availableRollTorque,
                                     maxRollTorque, saturationLimit, bleedRate, dt)
      ensures yawMoment == AxisStep(old(yawMoment), active, decayMomentum, ctrl.yaw, availableYawTorque,
                                    maxYawTorque, saturationLimit, bleedRate, dt)
    {
      var pitch := UpdateAxis(pitchMoment, active, decayMomentum, ctrl.pitch, availablePitchTorque,
                              maxPitchTorque, saturationLimit, bleedRate, dt);
      var roll := UpdateAxis(rollMoment, active, decayMomentum, ctrl.roll, availableRollTorque,
                             maxRollTorque, saturationLimit, bleedRate, dt);
      var yaw := UpdateAxis(yawMoment, active, decayMomentum, ctrl.yaw, availableYawTorque,
                            maxYawTorque, saturationLimit, bleedRate, dt);
      pitchMoment, rollMoment, yawMoment := pitch, roll, yaw;
    }

    /** updateTorque: each axis's available torque from its own store, and
      the wheel's torque set to it. */
    method UpdateTorque()
      modifies this`availablePitchTorque, this`availableYawTorque, this`availableRollTorque
      modifies this`pitchTorque, this`yawTorque, this`rollTorque
      ensures Available() == Axes(AxisTorque(rollMoment, maxRollTorque, saturationLimit, torqueCurve),
                                  AxisTorque(pitchMoment, maxPitchTorque, saturationLimit, torqueCurve),
                                  AxisTorque(yawMoment, maxYawTorque, saturationLimit, torqueCurve))
      ensures Control() == Available()
    {
      availablePitchTorque := AxisTorque(pitchMoment, maxPitchTorque, saturationLimit, torqueCurve);
      pitchTorque := availablePitchTorque;

      availableYawTorque := AxisTorque(yawMoment, maxYawTorque, saturationLimit, torqueCurve);
      yawTorque := availableYawTorque;

      availableRollTorque := AxisTorque(rollMoment, maxRollTorque, saturationLimit, torqueCurve);
      rollTorque := availableRollTorque;
    }

    /** OnFixedUpdate in flight: momentum, then torque. */
    method Tick(dt: real, ctrl: Axes)
      modifies this`pitchMoment, this`rollMoment, this`yawMoment
      modifies this`availablePitchTorque, this`availableYawTorque, this`availableRollTorque
      modifies this`pitchTorque, this`yawTorque, this`rollTorque
      ensures pitchMoment == AxisStep(old(pitchMoment), active, decayMomentum, ctrl.pitch, old(availablePitchTorque),
                                      maxPitchTorque, saturationLimit, bleedRate, dt)
      ensures rollMoment == AxisStep(old(rollMoment), active, decayMomentum, ctrl.roll, old(availableRollTorque),
                                     maxRollTorque, saturationLimit, bleedRate, dt)
      ensures yawMoment == AxisStep(old(yawMoment), active, decayMomentum, ctrl.yaw, old(availableYawTorque),
                                    maxYawTorque, saturationLimit, bleedRate, dt)
      ensures Available() == Axes(AxisTorque(rollMoment, maxRollTorque, saturationLimit, torqueCurve),
                                  AxisTorque(pitchMoment, maxPitchTorque, saturationLimit, torqueCurve),
                                  AxisTorque(yawMoment, maxYawTorque, saturationLimit, torqueCurve))
      ensures Control() == Available()
    {
      UpdateMomentum(dt, ctrl);
      UpdateTorque();
    }
  }
}
