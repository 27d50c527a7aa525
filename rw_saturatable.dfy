/** RWSaturatable: a reaction wheel whose momentum is stored on three fixed
    world axes (the Planetarium frame's forward, up and right, holding the
    x, y and z stores). Pilot input on the vessel's roll, pitch and yaw axes
    is projected onto those world axes; the torque a control axis may use is
    limited by the most saturated world store it draws from; every store
    bleeds toward zero each tick; and momentum can be discharged in exchange
    for resources. */
module Saturatable {
  import opened Vectors
  import opened Saturation
  import opened ResourceConfig
  import opened Discharge

  // -----------------------------------------------------------------------
  // calcAvailableTorque

  /** The ratio a world axis with no weight gets, so that it never binds. */
  const Unconstrained: real := 1000000.0

  /** ratio = |curve value / weight| for a weighted axis, the sentinel
      otherwise. */
  function AxisRatio(weight: real, curveValue: real): (ratio: real)
    ensures ratio >= 0.0
    ensures weight == 0.0 ==> ratio == Unconstrained
  {
    if weight != 0.0 then Abs(curveValue / weight) else Unconstrained
  }

  /** A weighted axis's ratio is the exact scale at which its share of the
      torque meets what its curve allows. */
  lemma AxisRatioExact(weight: real, curveValue: real)
    requires weight != 0.0
    ensures AxisRatio(weight, curveValue) * Abs(weight) == Abs(curveValue)
  {
    var q := curveValue / weight;
    assert q * weight == curveValue;
    assert Abs(q) * Abs(weight) == Abs(q * weight);
  }

  /** Mathf.Min over four values. */
  function Min4(a: real, b: real, c: real, d: real): (m: real)
    ensures m <= a && m <= b && m <= c && m <= d
    ensures m == a || m == b || m == c || m == d
  {
    Min(Min(a, b), Min(c, d))
  }

  /** A world axis can carry its share of a full-torque command: it has no
      weight, or its torque-curve value is at least its weight. */
  predicate Covers(weight: real, curveValue: real)
  {
    weight == 0.0 || Abs(weight) <= Abs(curveValue)
  }

  /** torqueCurve.Evaluate(pctSaturation(...)) for the x, y and z stores. */
  function CurveValues(stores: Vec3, limit: real, curve: real -> real): Vec3
  {
    Vec3(curve(PctSaturation(stores.x, limit)), curve(PctSaturation(stores.y, limit)),
         curve(PctSaturation(stores.z, limit)))
  }

  /** At scale `s`, a world axis with weight `w` is asked for no more than
      its curve value `c` allows. */
  predicate Within(s: real, w: real, c: real)
  {
    s * Abs(w) <= Abs(c)
  }

  /** At scale `s`, a weighted world axis is asked for exactly what its
      curve value allows: it is the one limiting the torque. */
  predicate Binds(s: real, w: real, c: real)
  {
    w != 0.0 && s * Abs(w) == Abs(c)
  }

  /** Every world axis covers its weight. */
  predicate Unsaturated(w: Vec3, c: Vec3)
  {
    Covers(w.x, c.x) && Covers(w.y, c.y) && Covers(w.z, c.z)
  }

  /** min(ratiox, ratioy, ratioz, 1): the share of nominal torque a control
      axis with world weights `w` gets when the curve gives `c`. It lies in
      [0, 1]; no weighted world axis is asked for more than its curve
      allows; it is 1 exactly when every world axis covers its weight; and
      below 1 some weighted axis is the binding one, never a sentinel. */
  function TorqueScale(w: Vec3, c: Vec3): (s: real)
    ensures 0.0 <= s <= 1.0
    ensures w.x != 0.0 ==> Within(s, w.x, c.x)
    ensures w.y != 0.0 ==> Within(s, w.y, c.y)
    ensures w.z != 0.0 ==> Within(s, w.z, c.z)
    ensures s == 1.0 <==> Unsaturated(w, c)
    ensures s < 1.0 ==> Binds(s, w.x, c.x) || Binds(s, w.y, c.y) || Binds(s, w.z, c.z)
  {
    var rx, ry, rz := AxisRatio(w.x, c.x), AxisRatio(w.y, c.y), AxisRatio(w.z, c.z);
    var s := Min4(rx, ry, rz, 1.0);
    RatioFacts(w.x, c.x, rx, s);
    RatioFacts(w.y, c.y, ry, s);
    RatioFacts(w.z, c.z, rz, s);
    s
  }

  lemma RatioFacts(weight: real, curveValue: real, ratio: real, s: real)
    requires ratio == AxisRatio(weight, curveValue)
    requires 0.0 <= s <= 1.0 && s <= ratio
    ensures weight != 0.0 ==> Within(s, weight, curveValue)
    ensures weight != 0.0 && s == ratio ==> Binds(s, weight, curveValue)
    ensures ratio >= 1.0 <==> Covers(weight, curveValue)
  {
    if weight != 0.0 {
      var a := Abs(weight);
      AxisRatioExact(weight, curveValue);
      assert ratio * a == Abs(curveValue);
      assert s * a <= ratio * a;
      assert (ratio - 1.0) * a == Abs(curveValue) - a;
      PositiveFactorSign(ratio - 1.0, a);
    }
  }

  lemma PositiveFactorSign(x: real, a: real)
    requires a > 0.0
    ensures x >= 0.0 <==> x * a >= 0.0
  {
    if x < 0.0 {
      assert -x > 0.0;
      assert (-x) * a > 0.0;
    }
  }

  /** calcAvailableTorque: |torqueVec| * scale * maxAxisTorque, where
      torqueVec holds the weights of the control axis on the world axes.
      For a non-negative nominal torque the result lies between 0 and
      |torqueVec| times that torque. It reaches the top when no world axis
      is saturated past its weight, and for a positive length and torque it
      stays strictly below the top as soon as one weighted axis is. */
  function CalcAvailableTorque(refAxis: Vec3, maxAxisTorque: real, stores: Vec3, limit: real,
                               curve: real -> real, world: Frame, magnitude: Vec3 -> real): (t: real)
    ensures TorqueBounded(t, magnitude(Project(refAxis, world)), maxAxisTorque)
    ensures Unsaturated(Project(refAxis, world), CurveValues(stores, limit, curve)) ==>
      t == magnitude(Project(refAxis, world)) * maxAxisTorque
    ensures magnitude(Project(refAxis, world)) > 0.0 && maxAxisTorque > 0.0
            && !Unsaturated(Project(refAxis, world), CurveValues(stores, limit, curve)) ==>
      t < magnitude(Project(refAxis, world)) * maxAxisTorque
  {
    var m := magnitude(Project(refAxis, world));
    var s := TorqueScale(Project(refAxis, world), CurveValues(stores, limit, curve));
    ScaledBound(m, s, maxAxisTorque);
    m * s * maxAxisTorque
  }

  /** For a non-negative projection length `m` and nominal torque, the
      torque `t` lies between 0 and their product. */
  predicate TorqueBounded(t: real, m: real, maxTorque: real)
  {
    m >= 0.0 && maxTorque >= 0.0 ==> 0.0 <= t <= m * maxTorque
  }

  /** On one control axis with projection length `m` and nominal torque
      `maxTorque`, the stored torque `t` is the full product when the axis
      is unsaturated, and for a positive length and torque it is below it
      otherwise. */
  predicate FullIffUnsaturated(t: real, m: real, maxTorque: real, unsaturated: bool)
  {
    && (unsaturated ==> t == Abs(m * maxTorque))
    && (m > 0.0 && maxTorque > 0.0 && !unsaturated ==> t < m * maxTorque)
  }

  lemma ScaledBound(m: real, s: real, maxTorque: real)
    requires 0.0 <= s <= 1.0
    ensures TorqueBounded(m * s * maxTorque, m, maxTorque)
    ensures s == 1.0 ==> m * s * maxTorque == m * maxTorque
    ensures m > 0.0 && maxTorque > 0.0 && s < 1.0 ==> m * s * maxTorque < m * maxTorque
  {
    if m > 0.0 && maxTorque > 0.0 && s < 1.0 {
      assert m * maxTorque > 0.0;
      assert m * s * maxTorque == s * (m * maxTorque);
      assert (1.0 - s) * (m * maxTorque) > 0.0;
    }
    if m >= 0.0 && maxTorque >= 0.0 {
      assert m * maxTorque >= 0.0;
      assert m * s * maxTorque == s * (m * maxTorque);
      assert s * (m * maxTorque) <= 1.0 * (m * maxTorque);
    }
  }

  /** The limiter only looks at the curve values of the world axes the
      control axis is weighted on: the sentinel of an unweighted axis never
      binds, whatever its store holds. */
  lemma UnweightedAxisIgnored(w: Vec3, c: Vec3, c': Vec3)
    requires w.x != 0.0 ==> c'.x == c.x
    requires w.y != 0.0 ==> c'.y == c.y
    requires w.z != 0.0 ==> c'.z == c.z
    ensures TorqueScale(w, c) == TorqueScale(w, c')
  {
    assert AxisRatio(w.x, c.x) == AxisRatio(w.x, c'.x);
    assert AxisRatio(w.y, c.y) == AxisRatio(w.y, c'.y);
    assert AxisRatio(w.z, c.z) == AxisRatio(w.z, c'.z);
  }

  // -----------------------------------------------------------------------
  // decayMoment

  /** torqueMag: the length of the nominal torque vector as seen along a
      world axis, from the vessel's pitch (right), yaw (forward) and roll
      (up) axes. */
  function DecayTorque(refAxis: Vec3, vessel: Frame, maxTorque: Axes, magnitude: Vec3 -> real): real
  {
    magnitude(Vec3(Dot(vessel.right, refAxis) * maxTorque.pitch,
                   Dot(vessel.forward, refAxis) * maxTorque.yaw,
                   Dot(vessel.up, refAxis) * maxTorque.roll))
  }

  /** decay = torqueMag * bleedRate(pctSaturation) * fixedDeltaTime. */
  function DecayAmount(moment: real, refAxis: Vec3, vessel: Frame, maxTorque: Axes, limit: real,
                       bleed: real -> real, dt: real, magnitude: Vec3 -> real): real
  {
    DecayTorque(refAxis, vessel, maxTorque, magnitude) * bleed(PctSaturation(moment, limit)) * dt
  }

  /** decayMoment: one store after a tick of bleed. */
  function DecayMoment(moment: real, refAxis: Vec3, vessel: Frame, maxTorque: Axes, limit: real,
                       bleed: real -> real, dt: real, magnitude: Vec3 -> real): real
  {
    MoveTowardZero(moment, DecayAmount(moment, refAxis, vessel, maxTorque, limit, bleed, dt, magnitude))
  }

  /** A store within one decay step of zero lands on exactly 0; with a
      non-negative torque magnitude, bleed value and time step, a store
      moves toward zero by the decay amount without crossing it. */
  lemma DecayMomentBounds(moment: real, refAxis: Vec3, vessel: Frame, maxTorque: Axes, limit: real,
                          bleed: real -> real, dt: real, magnitude: Vec3 -> real)
    ensures var r := DecayMoment(moment, refAxis, vessel, maxTorque, limit, bleed, dt, magnitude);
      Abs(moment) <= DecayAmount(moment, refAxis, vessel, maxTorque, limit, bleed, dt, magnitude) ==> r == 0.0
    ensures var r := DecayMoment(moment, refAxis, vessel, maxTorque, limit, bleed, dt, magnitude);
      DecayTorque(refAxis, vessel, maxTorque, magnitude) >= 0.0 && bleed(PctSaturation(moment, limit)) >= 0.0 && dt >= 0.0 ==>
      Abs(r) == Max(Abs(moment) - DecayAmount(moment, refAxis, vessel, maxTorque, limit, bleed, dt, magnitude), 0.0)
      && (r == 0.0 || (r > 0.0 <==> moment > 0.0))
  {
    NonNegativeProduct(DecayTorque(refAxis, vessel, maxTorque, magnitude), bleed(PctSaturation(moment, limit)), dt);
  }

  /** The three stores after decay, each on its own world axis. */
  function DecayStores(stores: Vec3, vessel: Frame, world: Frame, maxTorque: Axes, limit: real,
                       bleed: real -> real, dt: real, magnitude: Vec3 -> real): Vec3
  {
    Vec3(DecayMoment(stores.x, world.forward, vessel, maxTorque, limit, bleed, dt, magnitude),
         DecayMoment(stores.y, world.up, vessel, maxTorque, limit, bleed, dt, magnitude),
         DecayMoment(stores.z, world.right, vessel, maxTorque, limit, bleed, dt, magnitude))
  }

  // -----------------------------------------------------------------------
  // inputMoment and updateMomentum

  /** inputMoment: what `vesselAxis * input` adds to the x, y and z stores. */
  function InputDelta(vesselAxis: Vec3, input: real, world: Frame): Vec3
  {
    Project(Scale(vesselAxis, input), world)
  }

  /** The stores after the pilot's input of one tick: roll, then pitch,
      then yaw, each adding fixedDeltaTime * control * available torque
      along its vessel axis (roll = up, pitch = right, yaw = forward). */
  function ApplyInput(stores: Vec3, dt: real, ctrl: Axes, available: Axes, vessel: Frame, world: Frame): Vec3
  {
    Add(Add(Add(stores, InputDelta(vessel.up, Impulse(dt, ctrl.roll, available.roll), world)),
            InputDelta(vessel.right, Impulse(dt, ctrl.pitch, available.pitch), world)),
        InputDelta(vessel.forward, Impulse(dt, ctrl.yaw, available.yaw), world))
  }

  /** The pilot's contribution is the projections of the three vessel axes
      onto the world axes, each weighted by its axis's input, whatever the
      order they are applied in. */
  lemma ApplyInputLinear(stores: Vec3, dt: real, ctrl: Axes, available: Axes, vessel: Frame, world: Frame)
    ensures ApplyInput(stores, dt, ctrl, available, vessel, world)
         == Add(stores, Add(Add(Scale(Project(vessel.up, world), Impulse(dt, ctrl.roll, available.roll)),
                                Scale(Project(vessel.right, world), Impulse(dt, ctrl.pitch, available.pitch))),
                            Scale(Project(vessel.forward, world), Impulse(dt, ctrl.yaw, available.yaw))))
  {
    ProjectScale(vessel.up, Impulse(dt, ctrl.roll, available.roll), world);
    ProjectScale(vessel.right, Impulse(dt, ctrl.pitch, available.pitch), world);
    ProjectScale(vessel.forward, Impulse(dt, ctrl.yaw, available.yaw), world);
  }

  /** updateMomentum on the stores: pilot input when the wheel is active,
      then decay of every store. */
  function MomentumStep(stores: Vec3, active: bool, dt: real, ctrl: Axes, available: Axes, vessel: Frame,
                        world: Frame, maxTorque: Axes, limit: real, bleed: real -> real,
                        magnitude: Vec3 -> real): Vec3
  {
    var grown := if active then ApplyInput(stores, dt, ctrl, available, vessel, world) else stores;
    DecayStores(grown, vessel, world, maxTorque, limit, bleed, dt, magnitude)
  }

  /** A disabled wheel ignores the pilot: its stores change only by decay,
      whatever the input and available torque. An active wheel with no input
      behaves exactly like a disabled one. */
  lemma InputOnlyWhenActive(stores: Vec3, dt: real, ctrl: Axes, ctrl': Axes, available: Axes, available': Axes,
                            vessel: Frame, world: Frame, maxTorque: Axes, limit: real, bleed: real -> real,
                            magnitude: Vec3 -> real)
    ensures MomentumStep(stores, false, dt, ctrl, available, vessel, world, maxTorque, limit, bleed, magnitude)
         == DecayStores(stores, vessel, world, maxTorque, limit, bleed, dt, magnitude)
         == MomentumStep(stores, false, dt, ctrl', available', vessel, world, maxTorque, limit, bleed, magnitude)
    ensures MomentumStep(stores, true, dt, NoAxes, available, vessel, world, maxTorque, limit, bleed, magnitude)
         == MomentumStep(stores, false, dt, NoAxes, available, vessel, world, maxTorque, limit, bleed, magnitude)
  {
    NoInputAddsNothing(stores, dt, available, vessel, world);
  }

  lemma NoInputAddsNothing(stores: Vec3, dt: real, available: Axes, vessel: Frame, world: Frame)
    ensures ApplyInput(stores, dt, NoAxes, available, vessel, world) == stores
  {
    ProjectScale(vessel.up, 0.0, world);
    ProjectScale(vessel.right, 0.0, world);
    ProjectScale(vessel.forward, 0.0, world);
  }

  /** With no pilot input, a non-negative bleed curve, a magnitude that is
      never negative and a non-negative time step, no store grows in
      magnitude or changes sign over a tick. */
  lemma IdleStoresNeverGrow(stores: Vec3, active: bool, dt: real, available: Axes, vessel: Frame, world: Frame,
                            maxTorque: Axes, limit: real, bleed: real -> real, magnitude: Vec3 -> real)
    requires dt >= 0.0
    requires forall p :: bleed(p) >= 0.0
    requires forall v :: magnitude(v) >= 0.0
    ensures var after := MomentumStep(stores, active, dt, NoAxes, available, vessel, world, maxTorque, limit, bleed, magnitude);
      Abs(after.x) <= Abs(stores.x) && Abs(after.y) <= Abs(stores.y) && Abs(after.z) <= Abs(stores.z)
      && (after.x == 0.0 || (after.x > 0.0 <==> stores.x > 0.0))
      && (after.y == 0.0 || (after.y > 0.0 <==> stores.y > 0.0))
      && (after.z == 0.0 || (after.z > 0.0 <==> stores.z > 0.0))
  {
    hide MomentumStep, ApplyInput, DecayMoment;
    InputOnlyWhenActive(stores, dt, NoAxes, NoAxes, available, available, vessel, world, maxTorque, limit, bleed, magnitude);
    IdleStoreShrinks(stores.x, world.forward, vessel, maxTorque, limit, bleed, dt, magnitude);
    IdleStoreShrinks(stores.y, world.up, vessel, maxTorque, limit, bleed, dt, magnitude);
    IdleStoreShrinks(stores.z, world.right, vessel, maxTorque, limit, bleed, dt, magnitude);
  }

  lemma IdleStoreShrinks(moment: real, refAxis: Vec3, vessel: Frame, maxTorque: Axes, limit: real,
                         bleed: real -> real, dt: real, magnitude: Vec3 -> real)
    requires dt >= 0.0
    requires forall p :: bleed(p) >= 0.0
    requires forall v :: magnitude(v) >= 0.0
    ensures var r := DecayMoment(moment, refAxis, vessel, maxTorque, limit, bleed, dt, magnitude);
      Abs(r) <= Abs(moment) && (r == 0.0 || (r > 0.0 <==> moment > 0.0))
  {
    assert bleed(PctSaturation(moment, limit)) >= 0.0;
    DecayMomentBounds(moment, refAxis, vessel, maxTorque, limit, bleed, dt, magnitude);
  }

  // -----------------------------------------------------------------------
  // updateTorque

  /** available*Torque: |calcAvailableTorque| on each control axis, which
      is never negative and, for a non-negative projection length and
      nominal torque, never above their product. Each axis gets its full
      torque when unsaturated and, for a positive length and torque, less
      than that when saturated. */
  function AvailableTorques(vessel: Frame, world: Frame, maxTorque: Axes, stores: Vec3, limit: real,
                            curve: real -> real, magnitude: Vec3 -> real): (a: Axes)
    ensures a.roll >= 0.0 && a.pitch >= 0.0 && a.yaw >= 0.0
    ensures TorqueBounded(a.roll, magnitude(Project(vessel.up, world)), maxTorque.roll)
    ensures TorqueBounded(a.pitch, magnitude(Project(vessel.right, world)), maxTorque.pitch)
    ensures TorqueBounded(a.yaw, magnitude(Project(vessel.forward, world)), maxTorque.yaw)
    ensures AxisLimited(a.roll, magnitude(Project(vessel.up, world)), maxTorque.roll,
                        Unsaturated(Project(vessel.up, world), CurveValues(stores, limit, curve)))
    ensures AxisLimited(a.pitch, magnitude(Project(vessel.right, world)), maxTorque.pitch,
                        Unsaturated(Project(vessel.right, world), CurveValues(stores, limit, curve)))
    ensures AxisLimited(a.yaw, magnitude(Project(vessel.forward, world)), maxTorque.yaw,
                        Unsaturated(Project(vessel.forward, world), CurveValues(stores, limit, curve)))
  {
    Axes(AxisAvailableTorque(vessel.up, maxTorque.roll, stores, limit, curve, world, magnitude),
         AxisAvailableTorque(vessel.right, maxTorque.pitch, stores, limit, curve, world, magnitude),
         AxisAvailableTorque(vessel.forward, maxTorque.yaw, stores, limit, curve, world, magnitude))
  }

  /** One control axis of updateTorque: the absolute value of
      calcAvailableTorque, which keeps its bound and both directions of the
      full-torque test. */
  function AxisAvailableTorque(refAxis: Vec3, maxAxisTorque: real, stores: Vec3, limit: real,
                               curve: real -> real, world: Frame, magnitude: Vec3 -> real): (t: real)
    ensures AxisLimited(t, magnitude(Project(refAxis, world)), maxAxisTorque,
                        Unsaturated(Project(refAxis, world), CurveValues(stores, limit, curve)))
  {
    AbsKeepsLimit(refAxis, maxAxisTorque, stores, limit, curve, world, magnitude);
    Abs(CalcAvailableTorque(refAxis, maxAxisTorque, stores, limit, curve, world, magnitude))
  }

  /** A stored torque on one control axis: never negative, within its
      bound, and full exactly when the axis is unsaturated. */
  predicate AxisLimited(t: real, m: real, maxTorque: real, unsaturated: bool)
  {
    t >= 0.0 && TorqueBounded(t, m, maxTorque) && FullIffUnsaturated(t, m, maxTorque, unsaturated)
  }

  /** Taking the absolute value of calcAvailableTorque keeps its bound and
      both directions of the full-torque test. */
  lemma AbsKeepsLimit(refAxis: Vec3, maxAxisTorque: real, stores: Vec3, limit: real,
                      curve: real -> real, world: Frame, magnitude: Vec3 -> real)
    ensures AxisLimited(Abs(CalcAvailableTorque(refAxis, maxAxisTorque, stores, limit, curve, world, magnitude)),
                        magnitude(Project(refAxis, world)), maxAxisTorque,
                        Unsaturated(Project(refAxis, world), CurveValues(stores, limit, curve)))
  {
    var t := CalcAvailableTorque(refAxis, maxAxisTorque, stores, limit, curve, world, magnitude);
    var m := magnitude(Project(refAxis, world));
    if m > 0.0 && maxAxisTorque > 0.0 {
      assert m * maxAxisTorque > 0.0;
    }
  }

  // -----------------------------------------------------------------------
  // The part module

  class RWSaturatable {
    // Configuration read from the part definition.
    const saturationScale: real
    const torqueCurve: real -> real
    const bleedRate: real -> real
    const resources: Option<string>
    const recoveryRate: real
    /** Vector3.magnitude. */
    const magnitude: Vec3 -> real

    // State of the underlying ModuleReactionWheel: whether it is Active,
    // and the control torques it applies (RollTorque, PitchTorque, YawTorque).
    var active: bool
    var rollTorque: real
    var pitchTorque: real
    var yawTorque: real

    // Persisted momentum on the world x (forward), y (up) and z (right) axes.
    var xMoment: real
    var yMoment: real
    var zMoment: real

    var saturationLimit: real
    var maxRollTorque: real
    var maxPitchTorque: real
    var maxYawTorque: real
    var availableRollTorque: real
    var availablePitchTorque: real
    var availableYawTorque: real

    var consumeResource: bool
    var dischargeResources: seq<ResourceConsumer>
    var canForceDischarge: bool

    /** The available torques are magnitudes, never negative: a new wheel
      starts them at 0 and updateTorque stores absolute values. */
    ghost predicate Valid()
      reads this`availableRollTorque, this`availablePitchTorque, this`availableYawTorque
    {
      availableRollTorque >= 0.0 && availablePitchTorque >= 0.0 && availableYawTorque >= 0.0
    }

    function Moments(): Vec3
      reads this`xMoment, this`yMoment, this`zMoment
    {
      Vec3(xMoment, yMoment, zMoment)
    }

    function MaxTorques(): Axes
      reads this`maxRollTorque, this`maxPitchTorque, this`maxYawTorque
    {
      Axes(maxRollTorque, maxPitchTorque, maxYawTorque)
    }

    function Available(): Axes
      reads this`availableRollTorque, this`availablePitchTorque, this`availableYawTorque
    {
      Axes(availableRollTorque, availablePitchTorque, availableYawTorque)
    }

    function Control(): Axes
      reads this`rollTorque, this`pitchTorque, this`yawTorque
    {
      Axes(rollTorque, pitchTorque, yawTorque)
    }

    /** A wheel as loaded: configuration from the part, the base module's
      torques and state, and the persisted stores. */
    constructor (saturationScale: real, torqueCurve: real -> real, bleedRate: real -> real,
                 resources: Option<string>, recoveryRate: real, magnitude: Vec3 -> real,
                 torque: Axes, active: bool, persisted: Vec3)
      ensures Valid()
      ensures this.saturationScale == saturationScale && this.torqueCurve == torqueCurve
      ensures this.bleedRate == bleedRate && this.resources == resources
      ensures this.recoveryRate == recoveryRate && this.magnitude == magnitude
      ensures this.active == active && Control() == torque && Moments() == persisted
      ensures saturationLimit == 0.0 && MaxTorques() == NoAxes && Available() == NoAxes
      ensures !consumeResource && dischargeResources == [] && !canForceDischarge
    {
      this.saturationScale := saturationScale;
      this.torqueCurve := torqueCurve;
      this.bleedRate := bleedRate;
      this.resources := resources;
      this.recoveryRate := recoveryRate;
      this.magnitude := magnitude;
      this.active := active;
      rollTorque, pitchTorque, yawTorque := torque.roll, torque.pitch, torque.yaw;
      xMoment, yMoment, zMoment := persisted.x, persisted.y, persisted.z;
      saturationLimit := 0.0;
      maxRollTorque, maxPitchTorque, maxYawTorque := 0.0, 0.0, 0.0;
      availableRollTorque, availablePitchTorque, availableYawTorque := 0.0, 0.0, 0.0;
      consumeResource := false;
      dischargeResources := [];
      canForceDischarge := false;
    }

    /** OnAwake: parse `resources` into dischargeResources and set
      canForceDischarge when some rate is positive. Nothing is parsed, and
      the flag stays as it was, when the string is null or empty. */
    method OnAwake(lookup: string -> int, parse: string -> Option<real>)
      modifies this`dischargeResources, this`canForceDischarge
      ensures resources == None || resources == Some("") ==>
        dischargeResources == old(dischargeResources) && canForceDischarge == old(canForceDischarge)
      ensures resources != None && resources != Some("") ==>
        dischargeResources == ParseResources(resources, lookup, parse)
        && canForceDischarge == (old(canForceDischarge) || CanForceDischarge(resources, lookup, parse))
    {
      if resources.Some? && resources.value != "" {
        var consumers, anyPositive := BuildConsumers(resources.value, lookup, parse);
        dischargeResources := consumers;
        if anyPositive {
          canForceDischarge := true;
        }
      }
    }

    /** OnStart in flight: remember the configured torques as the nominal
      maxima and set the per-axis capacity from their average. */
    method OnStart()
      modifies this`maxRollTorque, this`maxPitchTorque, this`maxYawTorque, this`saturationLimit
      ensures MaxTorques() == Control()
      ensures saturationLimit == SaturationLimit(pitchTorque, yawTorque, rollTorque, saturationScale)
    {
      maxRollTorque := rollTorque;
      maxPitchTorque := pitchTorque;
      maxYawTorque := yawTorque;
      saturationLimit := SaturationLimit(pitchTorque, yawTorque, rollTorque, saturationScale);
    }

    /** The capacity part of GetInfo: the same per-axis limit OnStart sets,
      from the current torques. */
    method GetInfo()
      modifies this`saturationLimit
      ensures saturationLimit == SaturationLimit(pitchTorque, yawTorque, rollTorque, saturationScale)
    {
      saturationLimit := SaturationLimit(pitchTorque, yawTorque, rollTorque, saturationScale);
    }

    /** The discharge switch. No code of the wheel or its window sets
      bConsumeResource to true (the wheel only clears it); the field's own
      documentation says the window toggles it, and this method stands for
      that toggle. */
    method ToggleDischarge()
      modifies this`consumeResource
      ensures consumeResource == !old(consumeResource)
    {
      consumeResource := !consumeResource;
    }

    /** useResourcesToRecover. `request(i, amount)` is what the part hands
      over when dischargeResources[i] asks for `amount`; the requested and
      received amounts are returned in list order. Every consumer is asked
      even after one falls short, and the stores are reduced regardless. */
    method UseResourcesToRecover(dt: real, request: (nat, real) -> real)
      returns (requested: seq<real>, received: seq<real>)
      requires consumeResource && canForceDischarge ==> MomentumToRemove(dt, recoveryRate, saturationLimit) > 0.0
      modifies this`xMoment, this`yMoment, this`zMoment, this`consumeResource
      ensures !(old(consumeResource) && canForceDischarge) ==>
        Moments() == old(Moments()) && consumeResource == old(consumeResource) && requested == [] && received == []
      ensures old(consumeResource) && canForceDischarge ==>
        var toRemove := MomentumToRemove(dt, recoveryRate, saturationLimit);
        && Moments() == Discharged(old(Moments()), toRemove)
        && requested == Requests(dischargeResources, RequestFraction(old(Moments()), toRemove), dt)
        && |received| == |requested|
        && (forall i :: 0 <= i < |received| ==> received[i] == request(i, requested[i]))
        && consumeResource == StillDischarging(requested, received, Moments())
    {
      requested, received := [], [];
      if !consumeResource || !canForceDischarge {
        return;
      }
      var momentumToRemove := MomentumToRemove(dt, recoveryRate, saturationLimit);
      var xToRemove := Removal(xMoment, momentumToRemove);
      var yToRemove := Removal(yMoment, momentumToRemove);
      var zToRemove := Removal(zMoment, momentumToRemove);
      var resourcePctToRequest := RequestFraction(Moments(), momentumToRemove);
      var stillOn;
      requested, received, stillOn :=
        RequestAll(dischargeResources, resourcePctToRequest, dt, request, consumeResource);
      consumeResource := stillOn;
      xMoment := xMoment - xToRemove;
      yMoment := yMoment - yToRemove;
      zMoment := zMoment - zToRemove;

      if xMoment == 0.0 && yMoment == 0.0 && zMoment == 0.0 {
        consumeResource := false;
      }
    }

    /** inputMoment: add the world-axis projection of `vesselAxis * input`
      to the stores. */
    method InputMoment(vesselAxis: Vec3, input: real, world: Frame)
      modifies this`xMoment, this`yMoment, this`zMoment
      ensures Moments() == Add(old(Moments()), InputDelta(vesselAxis, input, world))
    {
      var scaledAxis := Scale(vesselAxis, input);
      xMoment := xMoment + Dot(scaledAxis, world.forward);
      yMoment := yMoment + Dot(scaledAxis, world.up);
      zMoment := zMoment + Dot(scaledAxis, world.right);
    }

    /** The `if (Active)` block of updateMomentum: roll, pitch and yaw
      input, each scaled by last tick's available torque on that axis. */
    method ApplyPilotInput(dt: real, vessel: Frame, world: Frame, ctrl: Axes)
      modifies this`xMoment, this`yMoment, this`zMoment
      ensures Moments() == ApplyInput(old(Moments()), dt, ctrl, Available(), vessel, world)
    {
      hide InputDelta, Add, Impulse;
      ghost var stores := Moments();
      var rollInput := Impulse(dt, ctrl.roll, availableRollTorque);
      var pitchInput := Impulse(dt, ctrl.pitch, availablePitchTorque);
      var yawInput := Impulse(dt, ctrl.yaw, availableYawTorque);
      InputMoment(vessel.up, rollInput, world);
      ghost var afterRoll := Moments();
      assert afterRoll == Add(stores, InputDelta(vessel.up, rollInput, world));
      InputMoment(vessel.right, pitchInput, world);
      ghost var afterPitch := Moments();
      assert afterPitch == Add(afterRoll, InputDelta(vessel.right, pitchInput, world));
      InputMoment(vessel.forward, yawInput, world);
      assert Moments() == Add(afterPitch, InputDelta(vessel.forward, yawInput, world));
      ghost var available := Available();
      assert available.roll == availableRollTorque && available.pitch == availablePitchTorque && available.yaw == availableYawTorque;
    }

    /** updateMomentum: pilot input when Active, then decay of each store
      along its world axis. */
    method UpdateMomentum(dt: real, vessel: Frame, world: Frame, ctrl: Axes)
      modifies this`xMoment, this`yMoment, this`zMoment
      ensures Moments() == MomentumStep(old(Moments()), active, dt, ctrl, Available(), vessel, world,
                                        MaxTorques(), saturationLimit, bleedRate, magnitude)
    {
      if active {
        ApplyPilotInput(dt, vessel, world, ctrl);
      }
      ghost var grown := Moments();
      var maxTorque := MaxTorques();
      var x := DecayMoment(xMoment, world.forward, vessel, maxTorque, saturationLimit, bleedRate, dt, magnitude);
      var y := DecayMoment(yMoment, world.up, vessel, maxTorque, saturationLimit, bleedRate, dt, magnitude);
      var z := DecayMoment(zMoment, world.right, vessel, maxTorque, saturationLimit, bleedRate, dt, magnitude);
      xMoment, yMoment, zMoment := x, y, z;
      assert Moments() == DecayStores(grown, vessel, world, maxTorque, saturationLimit, bleedRate, dt, magnitude);
    }

    /** updateTorque: the available torques from the current stores, and
      control torques of 0 while discharging, the available ones otherwise. */
    method UpdateTorque(vessel: Frame, world: Frame)
      modifies this`availableRollTorque, this`availablePitchTorque, this`availableYawTorque
      modifies this`rollTorque, this`pitchTorque, this`yawTorque
      ensures Valid()
      ensures Available() == AvailableTorques(vessel, world, MaxTorques(), Moments(), saturationLimit, torqueCurve, magnitude)
      ensures Control() == if consumeResource then NoAxes else Available()
    {
      hide AvailableTorques;
      var available := AvailableTorques(vessel, world, MaxTorques(), Moments(), saturationLimit, torqueCurve, magnitude);
      var control := if consumeResource then NoAxes else available;
      availableRollTorque, availablePitchTorque, availableYawTorque := available.roll, available.pitch, available.yaw;
      rollTorque, pitchTorque, yawTorque := control.roll, control.pitch, control.yaw;
    }

    /** OnFixedUpdate in flight: discharge, then momentum, then torque. */
    method Tick(dt: real, vessel: Frame, world: Frame, ctrl: Axes, request: (nat, real) -> real)
      returns (requested: seq<real>, received: seq<real>)
      requires consumeResource && canForceDischarge ==> MomentumToRemove(dt, recoveryRate, saturationLimit) > 0.0
      modifies this`xMoment, this`yMoment, this`zMoment, this`consumeResource
      modifies this`availableRollTorque, this`availablePitchTorque, this`availableYawTorque
      modifies this`rollTorque, this`pitchTorque, this`yawTorque
      ensures Valid()
      ensures |requested| == |received|
      ensures var discharging := old(consumeResource) && canForceDischarge;
        var toRemove := MomentumToRemove(dt, recoveryRate, saturationLimit);
        var discharged := if discharging then Discharged(old(Moments()), toRemove) else old(Moments());
        && requested == (if discharging then Requests(dischargeResources, RequestFraction(old(Moments()), toRemove), dt) else [])
        && (forall i :: 0 <= i < |received| ==> received[i] == request(i, requested[i]))
        && Moments() == MomentumStep(discharged, active, dt, ctrl, old(Available()), vessel, world,
                                     MaxTorques(), saturationLimit, bleedRate, magnitude)
        && consumeResource == (if discharging then StillDischarging(requested, received, discharged)
                               else old(consumeResource))
      ensures Available() == AvailableTorques(vessel, world, MaxTorques(), Moments(), saturationLimit, torqueCurve, magnitude)
      ensures Control() == if consumeResource then NoAxes else Available()
    {
      hide *;
      ghost var available := Available();
      ghost var stores := Moments();
      ghost var discharging := consumeResource && canForceDischarge;
      ghost var toRemove := MomentumToRemove(dt, recoveryRate, saturationLimit);
      requested, received := UseResourcesToRecover(dt, request);
      ghost var discharged := Moments();
      ghost var flag := consumeResource;
      assert discharged == if discharging then Discharged(stores, toRemove) else stores;
      UpdateMomentum(dt, vessel, world, ctrl);
      ghost var after := Moments();
      assert after == MomentumStep(discharged, active, dt, ctrl, available, vessel, world,
                                   MaxTorques(), saturationLimit, bleedRate, magnitude);
      UpdateTorque(vessel, world);
      assert Moments() == after && consumeResource == flag;
      assert Control() == if consumeResource then NoAxes else Available();
    }
  }
}
